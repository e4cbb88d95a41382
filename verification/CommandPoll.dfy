/**
 * Waiting for a command on a ticket: apps/pilot/src/poll.ts. A gate keeps one set
 * of comment ids it has dealt with, and reads the whole thread on every poll.
 */
module CommandPoll {
  import opened Wrappers

  datatype Envelope = Envelope(name: string, body: string)

  /** What `parseCommandFromComment` makes of a comment. */
  datatype Parsed = Invalid(messageKey: string, command: string) | NoCommand | Command(envelope: Envelope)

  /** A comment, with its id as `commentId` reads it. */
  datatype Comment = Comment(id: Option<string>, parsed: Parsed)

  datatype Hit = Hit(envelope: Envelope, commentId: string)

  datatype Note = InvalidNote(messageKey: string, command: string) | IgnoredNote(envelope: Envelope)

  datatype Polled = Polled(hit: Option<Hit>, seen: set<string>, notes: seq<Note>)

  // ---------------------------------------------------------- specification

  function Ids(thread: seq<Comment>): set<string> {
    set c | c in thread && c.id.Some? :: c.id.value
  }

  /** One poll over a thread. */
  function Poll(thread: seq<Comment>, seen: set<string>, accept: set<string>): (r: Polled)
    ensures seen <= r.seen
    ensures r.hit.Some? ==> r.hit.value.commentId !in seen && r.hit.value.commentId in r.seen && r.hit.value.envelope.name in accept
  {
    if thread == [] then Polled(None, seen, [])
    else
      var c := thread[0];
      if c.id.None? || c.id.value in seen then Poll(thread[1..], seen, accept)
      else
        match c.parsed
        case NoCommand => Poll(thread[1..], seen, accept)
        case Invalid(messageKey, command) => Noting(InvalidNote(messageKey, command), Poll(thread[1..], seen + {c.id.value}, accept))
        case Command(envelope) =>
          if envelope.name in accept then Polled(Some(Hit(envelope, c.id.value)), seen + {c.id.value}, [])
          else Noting(IgnoredNote(envelope), Poll(thread[1..], seen + {c.id.value}, accept))
  }

  function Noting(note: Note, r: Polled): Polled {
    r.(notes := [note] + r.notes)
  }

  predicate Acts(c: Comment, accept: set<string>) {
    c.id.Some? && c.parsed.Command? && c.parsed.envelope.name in accept
  }

  /** The accepted commands of a thread, in thread order. */
  function Accepted(thread: seq<Comment>, accept: set<string>): seq<Hit> {
    if thread == [] then []
    else
      var c := thread[0];
      (if Acts(c, accept) then [Hit(c.parsed.envelope, c.id.value)] else [])
      + Accepted(thread[1..], accept)
  }

  datatype Round = Round(thread: seq<Comment>, accept: set<string>)

  function SeenAfter(seen: set<string>, rounds: seq<Round>): set<string>
    decreases rounds
  {
    if rounds == [] then seen else SeenAfter(Poll(rounds[0].thread, seen, rounds[0].accept).seen, rounds[1..])
  }

  /** What a series of polls returns, leaving out the empty-handed ones. */
  function Hits(seen: set<string>, rounds: seq<Round>): seq<Hit>
    decreases rounds
  {
    if rounds == [] then []
    else
      var r := Poll(rounds[0].thread, seen, rounds[0].accept);
      (if r.hit.Some? then [r.hit.value] else []) + Hits(r.seen, rounds[1..])
  }

  // ---------------------------------------------------------------- the code

  datatype Outcome = Resolved(hit: Hit) | Aborted

  class Gate {
    var seen: set<string>
    var notes: seq<Note>

    constructor ()
      ensures seen == {} && notes == []
    {
      seen, notes := {}, [];
    }

    method MarkExistingCommentsSeen(comments: seq<Comment>) returns (added: nat)
      modifies this
      ensures seen == old(seen) + Ids(comments) && notes == old(notes)
      ensures added == |Ids(comments) - old(seen)|
    {
      hide Ids;
      added := 0;
      NoIds();
      for i := 0 to |comments|
        invariant seen == old(seen) + Ids(comments[..i]) && notes == old(notes)
        invariant added == |Ids(comments[..i]) - old(seen)|
      {
        MarkOne(comments[..i], comments[i], old(seen));
        assert comments[..i + 1] == comments[..i] + [comments[i]];
        var id := comments[i].id;
        if id.Some? && id.value !in seen {
          seen := seen + {id.value};
          added := added + 1;
        }
      }
      assert comments[..|comments|] == comments;
    }

    method PollForCommandOnce(comments: seq<Comment>, accept: set<string>) returns (hit: Option<Hit>)
      modifies this
      ensures var r := Poll(comments, old(seen), accept); hit == r.hit && seen == r.seen && notes == old(notes) + r.notes
    {
      for i := 0 to |comments|
        invariant var all, rest := Poll(comments, old(seen), accept), Poll(comments[i..], seen, accept);
                  all.hit == rest.hit && all.seen == rest.seen && old(notes) + all.notes == notes + rest.notes
      {
        var c := comments[i];
        assert comments[i..][1..] == comments[i + 1..];
        if c.id.None? || c.id.value in seen {
          continue;
        }
        match c.parsed
        case Invalid(messageKey, command) =>
          seen := seen + {c.id.value};
          notes := notes + [InvalidNote(messageKey, command)];
        case NoCommand =>
        case Command(envelope) =>
          seen := seen + {c.id.value};
          if envelope.name !in accept {
            notes := notes + [IgnoredNote(envelope)];
            continue;
          }
          return Some(Hit(envelope, c.id.value));
      }
      hit := None;
    }

    /** Polls the thread as it stands each time, until a hit or until the run is over. */
    method PollForCommand(threads: seq<seq<Comment>>, accept: set<string>) returns (r: Outcome, polls: nat)
      modifies this
      ensures polls <= |threads|
      ensures var rounds := Rounds(threads[..polls], accept);
              && seen == SeenAfter(old(seen), rounds)
              && Hits(old(seen), rounds) == (if r.Resolved? then [r.hit] else [])
      ensures r.Aborted? ==> polls == |threads|
    {
      polls := 0;
      while polls < |threads|
        invariant 0 <= polls <= |threads|
        invariant seen == SeenAfter(old(seen), Rounds(threads[..polls], accept))
        invariant Hits(old(seen), Rounds(threads[..polls], accept)) == []
      {
        RoundsAppend(threads[..polls], threads[polls], accept);
        OneMoreRound(old(seen), Rounds(threads[..polls], accept), Round(threads[polls], accept));
        assert threads[..polls + 1] == threads[..polls] + [threads[polls]];
        var hit := PollForCommandOnce(threads[polls], accept);
        polls := polls + 1;
        if hit.Some? {
          return Resolved(hit.value), polls;
        }
      }
      r := Aborted;
    }
  }

  lemma NoIds()
    ensures Ids([]) == {}
  {
  }

  lemma MarkOne(comments: seq<Comment>, c: Comment, was: set<string>)
    ensures var ids, more := Ids(comments), Ids(comments + [c]);
            if c.id.Some? && c.id.value !in was + ids then was + more == was + ids + {c.id.value} && |more - was| == |ids - was| + 1
            else was + more == was + ids && more - was == ids - was
  {
    hide Ids;
    IdsAppend(comments, c);
    if c.id.Some? {
      WithOne(Ids(comments), was, c.id.value);
    }
  }

  lemma WithOne(ids: set<string>, was: set<string>, id: string)
    ensures if id !in was + ids then was + (ids + {id}) == was + ids + {id} && |(ids + {id}) - was| == |ids - was| + 1
            else was + (ids + {id}) == was + ids && (ids + {id}) - was == ids - was
  {
    if id !in was + ids {
      assert (ids + {id}) - was == (ids - was) + {id};
    }
  }

  function Rounds(threads: seq<seq<Comment>>, accept: set<string>): (r: seq<Round>)
    ensures |r| == |threads| && forall i | 0 <= i < |threads| :: r[i] == Round(threads[i], accept)
  {
    seq(|threads|, i requires 0 <= i < |threads| => Round(threads[i], accept))
  }

  lemma RoundsAppend(threads: seq<seq<Comment>>, t: seq<Comment>, accept: set<string>)
    ensures Rounds(threads + [t], accept) == Rounds(threads, accept) + [Round(t, accept)]
  {
  }

  lemma IdsAppend(comments: seq<Comment>, c: Comment)
    ensures Ids(comments + [c]) == Ids(comments) + if c.id.Some? then {c.id.value} else {}
  {
    assert forall x :: x in comments + [c] <==> x in comments || x == c;
  }

  lemma {:induction false} OneMoreRound(seen: set<string>, rounds: seq<Round>, next: Round)
    ensures var r := Poll(next.thread, SeenAfter(seen, rounds), next.accept);
            && SeenAfter(seen, rounds + [next]) == r.seen
            && Hits(seen, rounds + [next]) == Hits(seen, rounds) + (if r.hit.Some? then [r.hit.value] else [])
    decreases rounds
  {
    if rounds == [] {
      assert [next][1..] == [];
    } else {
      hide Poll;
      assert (rounds + [next])[1..] == rounds[1..] + [next];
      OneMoreRound(Poll(rounds[0].thread, seen, rounds[0].accept).seen, rounds[1..], next);
    }
  }

  // ------------------------------------------------------------- at most once

  ghost predicate DistinctHits(hits: seq<Hit>) {
    forall i, j | 0 <= i < j < |hits| :: hits[i].commentId != hits[j].commentId
  }

  /**
   * Whatever the threads hold from poll to poll, and whatever each poll accepts:
   * nothing already seen is ever returned, and no comment id is returned twice.
   */
  lemma {:induction false} NoIdTwice(seen: set<string>, rounds: seq<Round>)
    ensures DistinctHits(Hits(seen, rounds))
    ensures forall h | h in Hits(seen, rounds) :: h.commentId !in seen
    decreases rounds
  {
    if rounds != [] {
      hide Poll;
      var r := Poll(rounds[0].thread, seen, rounds[0].accept);
      var rest := Hits(r.seen, rounds[1..]);
      assert Hits(seen, rounds) == (if r.hit.Some? then [r.hit.value] else []) + rest;
      hide Hits;
      NoIdTwice(r.seen, rounds[1..]);
      if r.hit.Some? {
        DistinctBefore(r.hit.value, rest);
      } else {
        assert [] + rest == rest;
      }
    }
  }

  lemma DistinctBefore(h: Hit, rest: seq<Hit>)
    requires DistinctHits(rest) && forall x | x in rest :: x.commentId != h.commentId
    ensures DistinctHits([h] + rest) && forall x :: x in [h] + rest <==> x == h || x in rest
  {
    assert forall j | 0 <= j < |rest| :: rest[j] in rest;
  }

  /** So no comment that stood in the thread when the gate opened can resolve it. */
  lemma BaselineIsNeverReturned(opening: seq<Comment>, rounds: seq<Round>, c: Comment)
    requires c in opening && c.id.Some?
    ensures forall h | h in Hits(Ids(opening), rounds) :: h.commentId != c.id.value
  {
    NoIdTwice(Ids(opening), rounds);
    assert c.id.value in Ids(opening);
  }

  /** Without the baseline an approval left over from an earlier run does resolve the new gate. */
  lemma StaleApprovalWithoutBaseline(opening: seq<Comment>, accept: set<string>)
    requires DistinctIds(opening) && Accepted(opening, accept) != []
    ensures Poll(opening, {}, accept).hit.Some? && Poll(opening, Ids(opening), accept).hit.None?
  {
    PollOfSeen(opening, Ids(opening), accept);
    FindsAccepted(opening, {}, accept, Accepted(opening, accept)[0]);
  }

  lemma {:induction false} PollOfSeen(thread: seq<Comment>, seen: set<string>, accept: set<string>)
    requires Ids(thread) <= seen
    ensures Poll(thread, seen, accept) == Polled(None, seen, [])
  {
    if thread != [] {
      assert thread[0] in thread && Ids(thread[1..]) <= Ids(thread);
      PollOfSeen(thread[1..], seen, accept);
    }
  }

  /** A poll misses no accepted command whose id is not yet seen before it gets there. */
  lemma {:induction false} FindsAccepted(thread: seq<Comment>, seen: set<string>, accept: set<string>, h: Hit)
    requires h in Accepted(thread, accept) && h.commentId !in seen
    requires forall a, b | a in thread && b in thread && a.id.Some? && a.id == b.id :: a == b
    ensures Poll(thread, seen, accept).hit.Some?
  {
    var c, rest := thread[0], thread[1..];
    if c.id.Some? && c.id.value !in seen {
      if c.parsed.NoCommand? {
        FindsAccepted(rest, seen, accept, h);
      } else if !(c.parsed.Command? && c.parsed.envelope.name in accept) {
        AcceptedIsThere(rest, accept, h);
        FindsAccepted(rest, seen + {c.id.value}, accept, h);
      }
    } else {
      FindsAccepted(rest, seen, accept, h);
    }
  }

  lemma {:induction false} AcceptedIsThere(thread: seq<Comment>, accept: set<string>, h: Hit)
    requires h in Accepted(thread, accept)
    ensures Comment(Some(h.commentId), Command(h.envelope)) in thread && h.envelope.name in accept
  {
    var c := thread[0];
    if !(c.id.Some? && c.parsed.Command? && c.parsed.envelope.name in accept && h == Hit(c.parsed.envelope, c.id.value)) {
      AcceptedIsThere(thread[1..], accept, h);
    }
  }

  // ------------------------------------------------------------- exactly once

  ghost predicate DistinctIds(thread: seq<Comment>) {
    forall i, j | 0 <= i < j < |thread| && thread[i].id.Some? && thread[j].id.Some? :: thread[i].id != thread[j].id
  }

  /** Everything before `at` is dealt with, nothing from `at` on is. */
  ghost predicate Scanned(thread: seq<Comment>, seen: set<string>, at: nat) {
    && at <= |thread| && DistinctIds(thread)
    && (forall i | 0 <= i < at && thread[i].id.Some? && !thread[i].parsed.NoCommand? :: thread[i].id.value in seen)
    && (forall i | at <= i < |thread| && thread[i].id.Some? :: thread[i].id.value !in seen)
  }

  /** Ids from `at` on are not seen, however the thread grows. */
  ghost predicate Ahead(thread: seq<Comment>, seen: set<string>, at: nat) {
    at <= |thread| && seen <= Ids(thread[..at])
  }

  lemma {:induction false} SkipsScanned(thread: seq<Comment>, seen: set<string>, at: nat, accept: set<string>)
    requires at <= |thread|
    requires forall i | 0 <= i < at && thread[i].id.Some? && !thread[i].parsed.NoCommand? :: thread[i].id.value in seen
    ensures Poll(thread, seen, accept) == Poll(thread[at..], seen, accept)
  {
    if at > 0 {
      forall i | 0 <= i < at - 1 && thread[1..][i].id.Some? && !thread[1..][i].parsed.NoCommand? ensures thread[1..][i].id.value in seen {
        assert thread[1..][i] == thread[i + 1];
      }
      SkipsScanned(thread[1..], seen, at - 1, accept);
      assert thread[1..][at - 1..] == thread[at..];
    } else {
      assert thread[0..] == thread;
    }
  }

  /** Past the first accepted command, or the end. */
  function Stop(thread: seq<Comment>, accept: set<string>): (at: nat)
    ensures at <= |thread|
  {
    if thread == [] then 0 else if Acts(thread[0], accept) then 1 else 1 + Stop(thread[1..], accept)
  }

  ghost predicate AllNew(thread: seq<Comment>, seen: set<string>) {
    DistinctIds(thread) && forall i | 0 <= i < |thread| && thread[i].id.Some? :: thread[i].id.value !in seen
  }

  function Marked(c: Comment, seen: set<string>): set<string> {
    if c.id.Some? && !c.parsed.NoCommand? then seen + {c.id.value} else seen
  }

  lemma TailIsNew(thread: seq<Comment>, seen: set<string>)
    requires thread != [] && AllNew(thread, seen)
    ensures AllNew(thread[1..], Marked(thread[0], seen))
  {
    assert forall i | 0 <= i < |thread[1..]| :: thread[1..][i] == thread[i + 1];
  }

  /** One comment of a poll of nothing but new comments. */
  lemma PollOne(thread: seq<Comment>, seen: set<string>, accept: set<string>)
    requires thread != [] && AllNew(thread, seen)
    ensures var c, r := thread[0], Poll(thread, seen, accept);
            if Acts(c, accept) then r.hit == Some(Hit(c.parsed.envelope, c.id.value)) && r.seen == Marked(c, seen)
            else r.hit == Poll(thread[1..], Marked(c, seen), accept).hit && r.seen == Poll(thread[1..], Marked(c, seen), accept).seen
  {
  }

  /** A poll of nothing but new comments returns the first accepted command. */
  lemma {:induction false} HitsFirst(thread: seq<Comment>, seen: set<string>, accept: set<string>)
    requires AllNew(thread, seen)
    ensures var all := Accepted(thread, accept);
            && Poll(thread, seen, accept).hit == (if all == [] then None else Some(all[0]))
            && Accepted(thread[Stop(thread, accept)..], accept) == (if all == [] then [] else all[1..])
  {
    if thread != [] {
      hide AllNew, Poll;
      PollOne(thread, seen, accept);
      var rest := thread[1..];
      if !Acts(thread[0], accept) {
        TailIsNew(thread, seen);
        HitsFirst(rest, Marked(thread[0], seen), accept);
        assert thread[Stop(thread, accept)..] == rest[Stop(rest, accept)..];
      } else {
        assert Accepted(thread, accept)[1..] == Accepted(rest, accept);
      }
    } else {
      assert Poll([], seen, accept).hit == None;
    }
  }

  /** It deals with the commands up to there, and with nothing beyond. */
  lemma {:induction false} MarksUpToStop(thread: seq<Comment>, seen: set<string>, accept: set<string>)
    requires AllNew(thread, seen)
    ensures var r, at := Poll(thread, seen, accept), Stop(thread, accept);
            && (forall i | 0 <= i < at && thread[i].id.Some? && !thread[i].parsed.NoCommand? :: thread[i].id.value in r.seen)
            && r.seen <= seen + Ids(thread[..at])
  {
    if thread != [] {
      hide AllNew, Poll, Ids;
      PollOne(thread, seen, accept);
      var c, rest, at := thread[0], thread[1..], Stop(thread, accept);
      if !Acts(c, accept) {
        TailIsNew(thread, seen);
        MarksUpToStop(rest, Marked(c, seen), accept);
        assert forall i | 0 < i < at :: thread[i] == rest[i - 1];
      }
      assert thread[..at] == [c] + rest[..at - 1];
      IdsPrepend(c, rest[..at - 1]);
    }
  }

  /** What the log gets for a comment a poll passes by: a malformed command, or one that is not accepted now. */
  function NoteFor(c: Comment): seq<Note> {
    if c.id.None? then []
    else match c.parsed
      case Invalid(messageKey, command) => [InvalidNote(messageKey, command)]
      case NoCommand => []
      case Command(envelope) => [IgnoredNote(envelope)]
  }

  function NotesFor(comments: seq<Comment>): seq<Note> {
    if comments == [] then [] else NoteFor(comments[0]) + NotesFor(comments[1..])
  }

  /** On new comments a poll notes exactly, and in order, what it passes by before the command it returns. */
  lemma {:induction false} NotesWhatItPasses(thread: seq<Comment>, seen: set<string>, accept: set<string>)
    requires AllNew(thread, seen)
    ensures var r, at := Poll(thread, seen, accept), Stop(thread, accept);
            r.notes == NotesFor(thread[..if r.hit.Some? then at - 1 else at]) && (r.hit.Some? ==> at > 0) && (r.hit.None? ==> at == |thread|)
  {
    if thread != [] {
      var c, rest := thread[0], thread[1..];
      if !Acts(c, accept) {
        TailIsNew(thread, seen);
        NotesWhatItPasses(rest, Marked(c, seen), accept);
        PassesBy(thread, seen, accept);
        var r, at := Poll(rest, Marked(c, seen), accept), Stop(rest, accept);
        var n := if r.hit.Some? then at - 1 else at;
        assert thread[..n + 1][1..] == rest[..n];
        assert n + 1 > 0 ==> thread[..n + 1][0] == c;
      }
    }
  }

  lemma PassesBy(thread: seq<Comment>, seen: set<string>, accept: set<string>)
    requires thread != [] && AllNew(thread, seen) && !Acts(thread[0], accept)
    ensures var r, later := Poll(thread, seen, accept), Poll(thread[1..], Marked(thread[0], seen), accept);
            r.hit == later.hit && r.notes == NoteFor(thread[0]) + later.notes
  {
    var later := Poll(thread[1..], Marked(thread[0], seen), accept);
    assert [] + later.notes == later.notes;
  }

  lemma IdsPrepend(c: Comment, comments: seq<Comment>)
    ensures Ids([c] + comments) == Ids(comments) + if c.id.Some? then {c.id.value} else {}
  {
    assert forall x :: x in [c] + comments <==> x in comments || x == c;
  }

  ghost predicate Growing(opening: seq<Comment>, rounds: seq<Round>, accept: set<string>) {
    && (forall i | 0 <= i < |rounds| :: rounds[i].accept == accept)
    && (rounds != [] ==> opening <= rounds[0].thread)
    && (forall i | 0 < i < |rounds| :: rounds[i - 1].thread <= rounds[i].thread)
    && DistinctIds(Latest(opening, rounds))
  }

  function Latest(opening: seq<Comment>, rounds: seq<Round>): seq<Comment> {
    if rounds == [] then opening else rounds[|rounds| - 1].thread
  }

  lemma PrefixDistinct(a: seq<Comment>, b: seq<Comment>)
    requires a <= b && DistinctIds(b)
    ensures DistinctIds(a)
  {
  }

  /** A thread scanned up to `at` can grow without that changing. */
  lemma GrowthIsAhead(thread: seq<Comment>, later: seq<Comment>, seen: set<string>, at: nat)
    requires thread <= later && DistinctIds(later) && Ahead(thread, seen, at)
    requires forall i | 0 <= i < at && thread[i].id.Some? && !thread[i].parsed.NoCommand? :: thread[i].id.value in seen
    ensures Scanned(later, seen, at) && Ahead(later, seen, at)
  {
    assert later[..at] == thread[..at];
    forall i | at <= i < |later| && later[i].id.Some? ensures later[i].id.value !in seen {
      assert forall j | 0 <= j < at && later[j].id.Some? :: later[j].id != later[i].id;
      assert later[i].id.value !in Ids(later[..at]);
    }
  }

  /** One round from a scanned thread: the next accepted command, or none left. */
  lemma RoundAdvances(thread: seq<Comment>, seen: set<string>, at: nat, accept: set<string>) returns (next: nat)
    requires Scanned(thread, seen, at) && Ahead(thread, seen, at)
    ensures var r, all := Poll(thread, seen, accept), Accepted(thread[at..], accept);
            && Scanned(thread, r.seen, next) && Ahead(thread, r.seen, next)
            && r.hit == (if all == [] then None else Some(all[0]))
            && Accepted(thread[next..], accept) == (if all == [] then [] else all[1..])
  {
    var rest := thread[at..];
    SkipsScanned(thread, seen, at, accept);
    RestIsNew(thread, seen, at);
    HitsFirst(rest, seen, accept);
    MarksUpToStop(rest, seen, accept);
    var further := Stop(rest, accept);
    next := at + further;
    assert thread[next..] == rest[further..];
    MarkedFurther(thread, seen, at, Poll(thread, seen, accept).seen, further);
    hide Poll, Stop, Accepted, AllNew, Ids, Scanned, Ahead;
  }

  lemma RestIsNew(thread: seq<Comment>, seen: set<string>, at: nat)
    requires Scanned(thread, seen, at)
    ensures AllNew(thread[at..], seen)
  {
    assert forall i | 0 <= i < |thread| - at :: thread[at..][i] == thread[at + i];
  }

  /** What the round has marked is exactly what it passed by. */
  lemma MarkedFurther(thread: seq<Comment>, seen: set<string>, at: nat, more: set<string>, further: nat)
    requires Scanned(thread, seen, at) && Ahead(thread, seen, at) && further <= |thread| - at && seen <= more
    requires var rest := thread[at..];
             && (forall i | 0 <= i < further && rest[i].id.Some? && !rest[i].parsed.NoCommand? :: rest[i].id.value in more)
             && more <= seen + Ids(rest[..further])
    ensures Scanned(thread, more, at + further) && Ahead(thread, more, at + further)
  {
    var rest, next := thread[at..], at + further;
    forall i | 0 <= i < next && thread[i].id.Some? && !thread[i].parsed.NoCommand? ensures thread[i].id.value in more {
      assert i >= at ==> rest[i - at] == thread[i];
    }
    assert Ahead(thread, more, next) by {
      assert thread[..next] == thread[..at] + rest[..further];
      assert Ids(thread[..next]) == Ids(thread[..at]) + Ids(rest[..further]);
    }
    hide Ids;
    GrowthIsAhead(thread, thread, more, next);
  }

  lemma {:induction false} AcceptedAppend(a: seq<Comment>, b: seq<Comment>, accept: set<string>)
    ensures Accepted(a + b, accept) == Accepted(a, accept) + Accepted(b, accept)
  {
    if a == [] {
      assert Accepted(a, accept) == [];
      hide Accepted;
      assert a + b == b;
    } else {
      var head, whole := if Acts(a[0], accept) then [Hit(a[0].parsed.envelope, a[0].id.value)] else [], a + b;
      assert Accepted(a, accept) == head + Accepted(a[1..], accept);
      assert Accepted(whole, accept) == head + Accepted(whole[1..], accept);
      hide Accepted;
      assert whole[1..] == a[1..] + b;
      AcceptedAppend(a[1..], b, accept);
    }
  }

  /** How far a series of polls has read, and what is still ahead. */
  lemma {:induction false} ReadSoFar(opening: seq<Comment>, rounds: seq<Round>, accept: set<string>) returns (at: nat)
    requires Growing(opening, rounds, accept)
    ensures opening <= Latest(opening, rounds)
    ensures var latest, seen := Latest(opening, rounds), SeenAfter(Ids(opening), rounds);
            && Scanned(latest, seen, at) && Ahead(latest, seen, at)
            && Accepted(latest[|opening|..], accept) == Hits(Ids(opening), rounds) + Accepted(latest[at..], accept)
    decreases |rounds|
  {
    hide Scanned, Ahead, Accepted, Hits, Poll, SeenAfter, Growing;
    if rounds == [] {
      OpeningIsScanned(opening, accept) by { assert DistinctIds(opening) by { OfGrowing(opening, rounds, accept); } }
      at := |opening|;
      assert rounds == [];
    } else {
      var before, last := rounds[..|rounds| - 1], rounds[|rounds| - 1];
      GrowingBefore(opening, rounds, accept);
      OfGrowing(opening, rounds, accept);
      var from := ReadSoFar(opening, before, accept);
      var thread, later, seen := Latest(opening, before), last.thread, SeenAfter(Ids(opening), before);
      StillScanned(thread, later, seen, from);
      GrowthAddsAccepted(thread, later, |opening|, accept);
      GrowthAddsAccepted(thread, later, from, accept);
      OneMoreRound(Ids(opening), before, last);
      assert rounds == before + [last];
      at := RoundAdvances(later, seen, from, accept);
      NextHitIsFirst(Hits(Ids(opening), before), Accepted(thread[from..], accept), Accepted(later[|thread|..], accept));
    }
  }

  /** Taking the first of what is still ahead onto the end of what was had. */
  lemma NextHitIsFirst(had: seq<Hit>, ahead: seq<Hit>, grown: seq<Hit>)
    ensures var all := ahead + grown;
            had + ahead + grown == (had + if all == [] then [] else [all[0]]) + (if all == [] then [] else all[1..])
  {
    var all := ahead + grown;
    assert had + ahead + grown == had + all;
    assert all != [] ==> all == [all[0]] + all[1..];
  }

  lemma OfGrowing(opening: seq<Comment>, rounds: seq<Round>, accept: set<string>)
    requires Growing(opening, rounds, accept)
    ensures DistinctIds(Latest(opening, rounds)) && forall r | r in rounds :: r.accept == accept
  {
  }

  lemma OpeningIsScanned(opening: seq<Comment>, accept: set<string>)
    requires DistinctIds(opening)
    ensures SeenAfter(Ids(opening), []) == Ids(opening) && Hits(Ids(opening), []) == [] && Accepted([], accept) == []
    ensures opening[|opening|..] == [] && Latest(opening, []) == opening
    ensures Scanned(opening, Ids(opening), |opening|) && Ahead(opening, Ids(opening), |opening|)
  {
    assert opening[..|opening|] == opening;
    assert forall i | 0 <= i < |opening| :: opening[i] in opening;
  }

  lemma StillScanned(thread: seq<Comment>, later: seq<Comment>, seen: set<string>, at: nat)
    requires thread <= later && DistinctIds(later) && Scanned(thread, seen, at) && Ahead(thread, seen, at)
    ensures Scanned(later, seen, at) && Ahead(later, seen, at) && at <= |thread|
  {
    GrowthIsAhead(thread, later, seen, at);
  }

  lemma GrowingBefore(opening: seq<Comment>, rounds: seq<Round>, accept: set<string>)
    requires rounds != [] && Growing(opening, rounds, accept)
    ensures var before := rounds[..|rounds| - 1];
            Growing(opening, before, accept) && Latest(opening, before) <= rounds[|rounds| - 1].thread
  {
    var before := rounds[..|rounds| - 1];
    assert Latest(opening, before) <= rounds[|rounds| - 1].thread;
    PrefixDistinct(Latest(opening, before), rounds[|rounds| - 1].thread);
  }

  lemma GrowthAddsAccepted(thread: seq<Comment>, later: seq<Comment>, at: nat, accept: set<string>)
    requires at <= |thread| && thread <= later
    ensures Accepted(later[at..], accept) == Accepted(thread[at..], accept) + Accepted(later[|thread|..], accept)
  {
    assert later[at..] == thread[at..] + later[|thread|..];
    AcceptedAppend(thread[at..], later[|thread|..], accept);
  }

  /**
   * On a thread that only grows, the hits after a baseline are the accepted
   * commands written since, in thread order and without a gap: what one more poll
   * returns is the very next of them, and it returns nothing exactly when all
   * have been returned.
   */
  lemma HitsAreTheNewCommands(opening: seq<Comment>, rounds: seq<Round>, accept: set<string>)
    requires Growing(opening, rounds, accept)
    ensures opening <= Latest(opening, rounds)
    ensures var latest, hits := Latest(opening, rounds), Hits(Ids(opening), rounds);
            var commands := Accepted(latest[|opening|..], accept);
            && hits <= commands
            && Poll(latest, SeenAfter(Ids(opening), rounds), accept).hit == if |hits| < |commands| then Some(commands[|hits|]) else None
  {
    hide Scanned, Ahead, Accepted, Hits, Poll, SeenAfter, Growing;
    var at := ReadSoFar(opening, rounds, accept);
    var _ := RoundAdvances(Latest(opening, rounds), SeenAfter(Ids(opening), rounds), at, accept);
  }
}
