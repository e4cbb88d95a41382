/**
 * Reading commands off ticket threads at intervals: apps/deploy/src/jira-poller.ts.
 * A comment is known by ticket, author and time; what has been handed over is kept
 * in a set that lives as long as the process. A handler that throws ends the round.
 */
module JiraPoller {
  import opened Wrappers
  import opened JiraCommands

  /** A comment that parses as a command; other comments are `None` in a thread. */
  datatype Post = Post(envelope: Envelope, at: string)

  function Key(p: Post): string {
    p.envelope.ticket + ":" + p.envelope.author + ":" + p.at
  }

  /** The first post with each key that is not seen. */
  function Unseen(thread: seq<Option<Post>>, seen: set<string>): seq<Post> {
    if thread == [] then []
    else if thread[0].None? || Key(thread[0].value) in seen then Unseen(thread[1..], seen)
    else [thread[0].value] + Unseen(thread[1..], seen + {Key(thread[0].value)})
  }

  /** What a round comes to: the posts it handed over, and whether the last of them threw. */
  datatype Polled = Polled(fx: Effects, handed: seq<Post>, threw: bool)

  function HandOver(setup: Setup, fx: Effects, posts: seq<Post>): (r: Polled)
    ensures r.handed <= posts && (!r.threw ==> r.handed == posts) && (r.threw ==> r.handed != [])
    decreases posts
  {
    if posts == [] then Polled(fx, [], false)
    else
      var (after, outcome) := Handle(setup, fx, posts[0].envelope);
      if outcome.Failed? then Polled(after, [posts[0]], true)
      else
        var rest := HandOver(setup, after, posts[1..]);
        Polled(rest.fx, [posts[0]] + rest.handed, rest.threw)
  }

  function KeysOf(posts: seq<Post>): set<string> {
    set p | p in posts :: Key(p)
  }

  class Poller {
    var seen: set<string>
    const platform: Platform

    constructor (p: Platform)
      ensures seen == {} && platform == p
    {
      seen, platform := {}, p;
    }

    method PollTicket(comments: seq<Option<Post>>) returns (threw: bool)
      modifies this, platform
      ensures platform.setup == old(platform.setup)
      ensures var r := HandOver(platform.setup, old(platform.View()), Unseen(comments, old(seen)));
              platform.View() == r.fx && threw == r.threw && seen == old(seen) + KeysOf(r.handed)
    {
      hide Handle, Key, KeysOf, HandOver, Unseen, Follows;
      ghost var handed: seq<Post> := [];
      NoKeys();
      ghost var all := HandOver(platform.setup, old(platform.View()), Unseen(comments, old(seen)));
      assert comments[0..] == comments;
      NothingYet(all);
      for i := 0 to |comments|
        invariant platform.setup == old(platform.setup)
        invariant seen == old(seen) + KeysOf(handed)
        invariant Follows(all, handed, HandOver(platform.setup, platform.View(), Unseen(comments[i..], seen)))
      {
        NextUnseen(comments, i, seen);
        if comments[i].None? {
          continue;
        }
        var post := comments[i].value;
        if Key(post) in seen {
          continue;
        }
        seen := seen + {Key(post)};
        HandsOn(all, handed, platform.setup, platform.View(), post, Unseen(comments[i + 1..], seen));
        KeysAppend(handed, post);
        handed := handed + [post];
        var outcome := platform.HandleCommand(post.envelope);
        if outcome.Failed? {
          return true;
        }
      }
      assert comments[|comments|..] == [];
      NoneUnseen(seen);
      NothingLeft(all, handed, platform.setup, platform.View());
      threw := false;
    }
  }

  /** `all` is `handed` followed by what `rest` hands over. */
  ghost predicate Follows(all: Polled, handed: seq<Post>, rest: Polled) {
    all.fx == rest.fx && all.threw == rest.threw && all.handed == handed + rest.handed
  }

  lemma NothingYet(all: Polled)
    ensures Follows(all, [], all)
  {
    assert [] + all.handed == all.handed;
  }

  lemma NothingLeft(all: Polled, handed: seq<Post>, setup: Setup, fx: Effects)
    requires Follows(all, handed, HandOver(setup, fx, []))
    ensures all == Polled(fx, handed, false)
  {
    NothingToHand(setup, fx);
    assert handed + [] == handed;
  }

  /** One post handed over: the end, if its handler throws, and else the rest follows. */
  lemma HandsOn(all: Polled, handed: seq<Post>, setup: Setup, fx: Effects, p: Post, rest: seq<Post>)
    requires Follows(all, handed, HandOver(setup, fx, [p] + rest))
    ensures var (after, outcome) := Handle(setup, fx, p.envelope);
            if outcome.Failed? then all == Polled(after, handed + [p], true)
            else Follows(all, handed + [p], HandOver(setup, after, rest))
  {
    hide Handle, HandOver;
    HandOne(setup, fx, p, rest);
    var more := HandOver(setup, Handle(setup, fx, p.envelope).0, rest);
    assert handed + ([p] + more.handed) == handed + [p] + more.handed;
  }

  lemma NextUnseen(thread: seq<Option<Post>>, i: nat, seen: set<string>)
    requires i < |thread|
    ensures Unseen(thread[i..], seen) ==
            if thread[i].None? || Key(thread[i].value) in seen then Unseen(thread[i + 1..], seen)
            else [thread[i].value] + Unseen(thread[i + 1..], seen + {Key(thread[i].value)})
  {
    hide Key;
    assert thread[i..][1..] == thread[i + 1..];
  }

  lemma NoneUnseen(seen: set<string>)
    ensures Unseen([], seen) == []
  {
  }

  lemma NoKeys()
    ensures KeysOf([]) == {}
  {
  }

  lemma KeysAppend(posts: seq<Post>, p: Post)
    ensures KeysOf(posts + [p]) == KeysOf(posts) + {Key(p)}
  {
    hide Key;
    assert forall x :: x in posts + [p] <==> x in posts || x == p;
  }

  lemma HandOne(setup: Setup, fx: Effects, p: Post, rest: seq<Post>)
    ensures var (after, outcome) := Handle(setup, fx, p.envelope);
            var more := HandOver(setup, after, rest);
            HandOver(setup, fx, [p] + rest) == if outcome.Failed? then Polled(after, [p], true) else Polled(more.fx, [p] + more.handed, more.threw)
  {
    hide Handle;
    assert ([p] + rest)[1..] == rest;
  }

  // ------------------------------------------------------------- what a key is

  function BeforeColon(s: string): string {
    if s == "" || s[0] == ':' then "" else [s[0]] + BeforeColon(s[1..])
  }

  lemma {:induction false} BeforeColonOf(a: string, rest: string)
    requires ':' !in a
    ensures BeforeColon(a + ":" + rest) == a
  {
    var s := a + ":" + rest;
    if a != "" {
      assert a[0] in a && s[1..] == a[1..] + ":" + rest;
      BeforeColonOf(a[1..], rest);
    }
  }

  /** Ticket keys hold no colon and instants all have one length, so a key tells ticket, author and time, though authors may hold colons. */
  lemma KeyTellsPostsApart(a: Post, b: Post)
    requires ':' !in a.envelope.ticket && ':' !in b.envelope.ticket && |a.at| == |b.at|
    ensures Key(a) == Key(b) <==> a.envelope.ticket == b.envelope.ticket && a.envelope.author == b.envelope.author && a.at == b.at
  {
    if Key(a) == Key(b) {
      var restA, restB := a.envelope.author + ":" + a.at, b.envelope.author + ":" + b.at;
      assert Key(a) == a.envelope.ticket + ":" + restA && Key(b) == b.envelope.ticket + ":" + restB;
      BeforeColonOf(a.envelope.ticket, restA);
      BeforeColonOf(b.envelope.ticket, restB);
      assert restA == Key(a)[|a.envelope.ticket| + 1..] && restB == Key(b)[|b.envelope.ticket| + 1..];
      var n := |a.envelope.author|;
      assert |restA| == |restB| && restA[..n] == a.envelope.author && restB[..n] == b.envelope.author;
      assert restA[n + 1..] == a.at && restB[n + 1..] == b.at;
    }
  }

  // ------------------------------------------------- overlapping rounds

  /** A round that has read a thread and goes through it; `over` once a handler threw. */
  datatype Round = Round(thread: seq<Option<Post>>, next: nat, over: bool)

  /** A post handed to its handler, and whether that threw. */
  datatype Handling = Handling(post: Post, threw: bool)

  datatype World = World(seen: set<string>, handled: seq<Handling>, rounds: map<nat, Round>)

  datatype Event = Read(who: nat, thread: seq<Option<Post>>) | Turn(who: nat, threw: bool)

  function Step(w: World, e: Event): World {
    match e
    case Read(who, thread) => if who in w.rounds then w else w.(rounds := w.rounds[who := Round(thread, 0, false)])
    case Turn(who, threw) =>
      if who !in w.rounds || w.rounds[who].over || w.rounds[who].next >= |w.rounds[who].thread| then w
      else
        var r := w.rounds[who];
        var p := r.thread[r.next];
        if p.None? || Key(p.value) in w.seen then w.(rounds := w.rounds[who := r.(next := r.next + 1)])
        else World(w.seen + {Key(p.value)}, w.handled + [Handling(p.value, threw)], w.rounds[who := r.(next := r.next + 1, over := threw)])
  }

  function Run(w: World, schedule: seq<Event>): World
    decreases schedule
  {
    if schedule == [] then w else Run(Step(w, schedule[0]), schedule[1..])
  }

  ghost predicate Inv(w: World) {
    && (forall i | 0 <= i < |w.handled| :: Key(w.handled[i].post) in w.seen)
    && (forall i, j | 0 <= i < j < |w.handled| :: Key(w.handled[i].post) != Key(w.handled[j].post))
    && (forall k | k in w.seen :: WasHandled(w.handled, k))
    && (forall who | who in w.rounds :: w.rounds[who].next <= |w.rounds[who].thread| && Passed(w.seen, w.rounds[who]))
  }

  ghost predicate WasHandled(handled: seq<Handling>, key: string) {
    exists h :: h in handled && Key(h.post) == key
  }

  predicate Passed(seen: set<string>, r: Round)
    requires r.next <= |r.thread|
  {
    forall i | 0 <= i < r.next && r.thread[i].Some? :: Key(r.thread[i].value) in seen
  }

  lemma StepKeepsInv(w: World, e: Event)
    requires Inv(w)
    ensures Inv(Step(w, e)) && w.handled <= Step(w, e).handled
  {
    hide Key;
    var next := Step(w, e);
    forall k | WasHandled(w.handled, k) ensures WasHandled(next.handled, k) {
      var h :| h in w.handled && Key(h.post) == k;
      assert h in next.handled;
    }
    if |next.handled| > |w.handled| {
      assert next.handled[|w.handled|] in next.handled;
      assert WasHandled(next.handled, Key(next.handled[|w.handled|].post));
    }
  }

  lemma {:induction false} RunKeepsInv(w: World, schedule: seq<Event>)
    requires Inv(w)
    ensures Inv(Run(w, schedule)) && w.handled <= Run(w, schedule).handled
    decreases schedule
  {
    if schedule != [] {
      hide Inv, Step;
      StepKeepsInv(w, schedule[0]);
      RunKeepsInv(Step(w, schedule[0]), schedule[1..]);
    }
  }

  const STARTED: World := World({}, [], map[])

  /**
   * However rounds overlap in one process, no key is handed over twice; and once a
   * round is through its thread every command in it has been handed over by some
   * round.
   */
  lemma EachCommandOncePerProcess(schedule: seq<Event>, who: nat)
    ensures var end := Run(STARTED, schedule);
            && (forall i, j | 0 <= i < j < |end.handled| :: Key(end.handled[i].post) != Key(end.handled[j].post))
            && (who in end.rounds && end.rounds[who].next == |end.rounds[who].thread| ==>
                  forall p | p in end.rounds[who].thread && p.Some? :: WasHandled(end.handled, Key(p.value)))
  {
    hide Key, Step;
    RunKeepsInv(STARTED, schedule);
    hide Run;
    var end := Run(STARTED, schedule);
    if who in end.rounds && end.rounds[who].next == |end.rounds[who].thread| {
      var r := end.rounds[who];
      forall p | p in r.thread && p.Some? ensures WasHandled(end.handled, Key(p.value)) {
        var i :| 0 <= i < |r.thread| && r.thread[i] == p;
        assert Key(r.thread[i].value) in end.seen;
      }
    }
  }

  /**
   * A command whose handling threw is lost for the life of the process: whatever
   * rounds follow, nothing with its key is handed over again.
   */
  lemma ThrownIsNeverRetried(before: seq<Event>, after: seq<Event>, i: nat)
    requires i < |Run(STARTED, before).handled| && Run(STARTED, before).handled[i].threw
    ensures var was, end := Run(STARTED, before).handled, Run(Run(STARTED, before), after).handled;
            && was <= end && end[i] == was[i]
            && forall j | |was| <= j < |end| :: Key(end[j].post) != Key(was[i].post)
  {
    hide Key, Step;
    RunKeepsInv(STARTED, before);
    RunKeepsInv(Run(STARTED, before), after);
  }

  /** Turns of one round and nothing in between, one for each comment; `throws` says which handlers throw. */
  function Turns(who: nat, thread: seq<Option<Post>>, throws: Post -> bool): seq<Event> {
    if thread == [] then [] else [Turn(who, thread[0].Some? && throws(thread[0].value))] + Turns(who, thread[1..], throws)
  }

  /** The posts handed to their handlers, up to and with the first that throws. */
  function Handed(posts: seq<Post>, throws: Post -> bool): seq<Handling> {
    if posts == [] then []
    else if throws(posts[0]) then [Handling(posts[0], true)]
    else [Handling(posts[0], false)] + Handed(posts[1..], throws)
  }

  predicate AnyThrew(handled: seq<Handling>) {
    exists h :: h in handled && h.threw
  }

  lemma {:induction false} OverStays(w: World, who: nat, thread: seq<Option<Post>>, throws: Post -> bool)
    requires who in w.rounds && w.rounds[who].over
    ensures Run(w, Turns(who, thread, throws)) == w
  {
    if thread != [] {
      OverStays(w, who, thread[1..], throws);
    }
  }

  lemma {:induction false} TurnsHandOver(w: World, who: nat, throws: Post -> bool)
    requires who in w.rounds && !w.rounds[who].over && w.rounds[who].next <= |w.rounds[who].thread|
    ensures var r := w.rounds[who];
            var left := r.thread[r.next..];
            var end, mine := Run(w, Turns(who, left, throws)), Handed(Unseen(left, w.seen), throws);
            && end.handled == w.handled + mine && who in end.rounds && end.rounds[who].thread == r.thread
            && (end.rounds[who].over <==> AnyThrew(mine)) && (!end.rounds[who].over ==> end.rounds[who].next == |r.thread|)
    decreases |w.rounds[who].thread| - w.rounds[who].next
  {
    hide Key;
    var r := w.rounds[who];
    var left := r.thread[r.next..];
    if left != [] {
      var turn := Turn(who, left[0].Some? && throws(left[0].value));
      var next := Step(w, turn);
      assert left[0] == r.thread[r.next] && left[1..] == r.thread[r.next + 1..];
      assert Run(w, Turns(who, left, throws)) == Run(next, Turns(who, left[1..], throws)) by {
        assert Turns(who, left, throws)[1..] == Turns(who, left[1..], throws);
      }
      FirstIsHanded(left, w.seen, throws);
      assert next.handled == w.handled + (if left[0].Some? && Key(left[0].value) !in w.seen then [Handling(left[0].value, throws(left[0].value))] else []);
      hide Run, Turns, Unseen, Handed;
      if next.rounds[who].over {
        OverStays(next, who, left[1..], throws);
      } else {
        TurnsHandOver(next, who, throws);
      }
      hide Step, AnyThrew;
    }
  }

  /** The first comment of a thread, and what is handed over of the rest. */
  lemma FirstIsHanded(left: seq<Option<Post>>, seen: set<string>, throws: Post -> bool)
    requires left != []
    ensures var mine := Handed(Unseen(left, seen), throws);
            if left[0].None? || Key(left[0].value) in seen then mine == Handed(Unseen(left[1..], seen), throws)
            else if throws(left[0].value) then mine == [Handling(left[0].value, true)] && AnyThrew(mine)
            else
              var rest := Handed(Unseen(left[1..], seen + {Key(left[0].value)}), throws);
              mine == [Handling(left[0].value, false)] + rest && (AnyThrew(mine) <==> AnyThrew(rest))
  {
    hide Key;
    var mine := Handed(Unseen(left, seen), throws);
    if left[0].Some? && Key(left[0].value) !in seen {
      var later := Unseen(left[1..], seen + {Key(left[0].value)});
      assert Unseen(left, seen) == [left[0].value] + later && ([left[0].value] + later)[1..] == later;
      if throws(left[0].value) {
        assert mine[0] in mine;
      } else {
        var rest := Handed(later, throws);
        assert mine == [Handling(left[0].value, false)] + rest;
        assert forall h :: h in mine <==> h == Handling(left[0].value, false) || h in rest;
      }
    }
  }

  /**
   * A round that nothing interrupts hands over the first post of every key not
   * seen before, in thread order, up to and with the first whose handling throws;
   * otherwise it gets to the end of its thread.
   */
  lemma RoundHandsOverItsThread(w: World, who: nat, thread: seq<Option<Post>>, throws: Post -> bool)
    requires who !in w.rounds
    ensures var end, mine := Run(w, [Read(who, thread)] + Turns(who, thread, throws)), Handed(Unseen(thread, w.seen), throws);
            && end.handled == w.handled + mine && who in end.rounds
            && (end.rounds[who].over <==> AnyThrew(mine)) && (!end.rounds[who].over ==> end.rounds[who].next == |thread|)
  {
    hide Key;
    var read := Step(w, Read(who, thread));
    assert ([Read(who, thread)] + Turns(who, thread, throws))[1..] == Turns(who, thread, throws);
    assert thread[0..] == thread;
    TurnsHandOver(read, who, throws);
  }

  // --------------------------------------------------------------- restarts

  lemma {:induction false} NothingUnseen(thread: seq<Option<Post>>, seen: set<string>)
    requires forall p | p in thread && p.Some? :: Key(p.value) in seen
    ensures Unseen(thread, seen) == []
  {
    hide Key;
    if thread != [] {
      assert thread[0] in thread && forall p | p in thread[1..] :: p in thread;
      NothingUnseen(thread[1..], seen);
    }
  }

  /** The posts up to and with the first whose handling would throw in this state. */
  function UpToThrow(setup: Setup, fx: Effects, posts: seq<Post>): seq<Post> {
    if posts == [] then []
    else if Throws(setup, fx, posts[0].envelope) then [posts[0]]
    else [posts[0]] + UpToThrow(setup, fx, posts[1..])
  }

  lemma TestsReadRunsOnly(setup: Setup, fx: Effects, after: Effects, e: Envelope)
    requires after.runs == fx.runs
    ensures Effective(setup, after, e) == Effective(setup, fx, e) && Throws(setup, after, e) == Throws(setup, fx, e)
  {
    hide Admitted, Takes, CommandRequest;
  }

  lemma {:induction false} TrailOnlyGrows(setup: Setup, fx: Effects, posts: seq<Post>)
    ensures |HandOver(setup, fx, posts).fx.trail| >= |fx.trail|
    decreases posts
  {
    if posts != [] {
      HandleTouches(setup, fx, posts[0].envelope);
      var (after, outcome) := Handle(setup, fx, posts[0].envelope);
      hide Handle;
      TrailOnlyGrows(setup, after, posts[1..]);
    }
  }

  lemma {:induction false} UpToThrowReadsRunsOnly(setup: Setup, fx: Effects, after: Effects, posts: seq<Post>)
    requires after.runs == fx.runs
    ensures UpToThrow(setup, after, posts) == UpToThrow(setup, fx, posts)
  {
    if posts != [] {
      TestsReadRunsOnly(setup, fx, after, posts[0].envelope);
      UpToThrowReadsRunsOnly(setup, fx, after, posts[1..]);
    }
  }

  ghost predicate NoneEffective(setup: Setup, fx: Effects, posts: seq<Post>) {
    forall p | p in posts :: !Effective(setup, fx, p.envelope)
  }

  lemma {:induction false} MovesExactlyWhenOneIsEffective(setup: Setup, fx: Effects, posts: seq<Post>)
    ensures Unmoved(fx, HandOver(setup, fx, posts).fx) <==> NoneEffective(setup, fx, UpToThrow(setup, fx, posts))
    decreases posts
  {
    if posts != [] {
      var e := posts[0].envelope;
      MovesExactlyWhenEffective(setup, fx, e);
      var (after, outcome) := Handle(setup, fx, e);
      hide Handle, Effective, Throws;
      assert forall p | p in UpToThrow(setup, fx, posts) :: p == posts[0] || p in UpToThrow(setup, fx, posts[1..]);
      assert posts[0] in UpToThrow(setup, fx, posts);
      if Effective(setup, fx, e) {
        TrailOnlyGrows(setup, after, posts[1..]);
      } else if !outcome.Failed? {
        MovesExactlyWhenOneIsEffective(setup, after, posts[1..]);
        UpToThrowReadsRunsOnly(setup, fx, after, posts[1..]);
        forall p | p in UpToThrow(setup, fx, posts[1..]) ensures Effective(setup, after, p.envelope) == Effective(setup, fx, p.envelope) {
          TestsReadRunsOnly(setup, fx, after, p.envelope);
        }
        assert forall p | p in UpToThrow(setup, fx, posts[1..]) :: p in UpToThrow(setup, fx, posts);
      }
    }
  }

  /**
   * A new process has nothing seen, and hands a thread over again from its first
   * command on. Runs, trail and engine stay as they are exactly when none of the
   * posts it reaches is an effective command in the present state, for the gate
   * and the run there are now; the process that had handled them does nothing.
   */
  lemma RestartIsHarmlessExactlyWhen(setup: Setup, fx: Effects, thread: seq<Option<Post>>, seen: set<string>)
    requires forall p | p in thread && p.Some? :: Key(p.value) in seen
    ensures Unmoved(fx, HandOver(setup, fx, Unseen(thread, {})).fx) <==> NoneEffective(setup, fx, UpToThrow(setup, fx, Unseen(thread, {})))
    ensures HandOver(setup, fx, Unseen(thread, seen)) == Polled(fx, [], false)
  {
    MovesExactlyWhenOneIsEffective(setup, fx, Unseen(thread, {}));
    NothingUnseen(thread, seen);
  }

  /** So an approval of an earlier gate closes the gate that is open now, and an old mode change is sent again. */
  lemma RestartAppliesOldCommands(setup: Setup, fx: Effects, p: Post)
    requires Effective(setup, fx, p.envelope) && (p.envelope.command.Approve? || p.envelope.command.ModeChange?)
    ensures var restarted := HandOver(setup, fx, Unseen([Some(p)], {})).fx;
            && |restarted.trail| > |fx.trail| && |restarted.sent| == |fx.sent| + 1
            && (p.envelope.command.Approve? ==>
                  restarted.sent[|fx.sent|].GateSignal? && restarted.sent[|fx.sent|].signal.step == fx.runs[p.envelope.ticket].state.step)
  {
    hide Bound, Key, HandOver;
    assert [Some(p)][1..] == [];
    assert Unseen([Some(p)], {}) == [p] + [];
    HandOne(setup, fx, p, []);
    Sends(setup, fx, p.envelope);
    assert HandOver(setup, Handle(setup, fx, p.envelope).0, []) == Polled(Handle(setup, fx, p.envelope).0, [], false) by {
      NothingToHand(setup, Handle(setup, fx, p.envelope).0);
    }
  }

  lemma NothingToHand(setup: Setup, fx: Effects)
    ensures HandOver(setup, fx, []) == Polled(fx, [], false)
  {
  }

  lemma Sends(setup: Setup, fx: Effects, e: Envelope)
    requires Effective(setup, fx, e) && (e.command.Approve? || e.command.ModeChange?)
    ensures var (after, outcome) := Handle(setup, fx, e);
            && !outcome.Failed? && |after.trail| > |fx.trail| && |after.sent| == |fx.sent| + 1
            && (e.command.Approve? ==> after.sent[|fx.sent|].GateSignal? && after.sent[|fx.sent|].signal.step == fx.runs[e.ticket].state.step)
  {
    hide Bound;
  }
}
