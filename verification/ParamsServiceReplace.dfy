/**
 * When a proposal replaces another person's: a call of
 * apps/bff/src/params-service.ts compares proposers when it reads the open
 * proposal, and writes its own an await later without looking again.
 */
module ParamsServiceReplace {
  import opened Wrappers
  import opened Actors
  import opened ParamsService
  import opened ParamsServiceLoss

  /** Call `i` reads the slot and decides to propose `p`. */
  predicate DecidesToPut(s: State, e: Event, i: nat, p: Proposal) {
    && e == Resume(i) && i < |s.calls| && s.calls[i].point.ReadPending?
    && Decide(s.pending, s.calls[i].request, i) == PutPending(p)
  }

  predicate DecidedAt(definitions: map<string, Definition>, schedule: seq<Event>, r: nat, i: nat, p: Proposal)
    requires r < |schedule|
  {
    DecidesToPut(Before(definitions, schedule, r), schedule[r], i, p)
  }

  lemma StepDecides(s: State, e: Event, i: nat)
    requires i < |Step(s, e).calls| && Step(s, e).calls[i].point.PutPending?
    ensures var t := Step(s, e);
            && i < |s.calls| && s.calls[i].request == t.calls[i].request
            && (s.calls[i].point == t.calls[i].point || DecidesToPut(s, e, i, t.calls[i].point.proposal))
  {
    StepEffect(s, e);
    hide Latest, Taken, Decide;
    if e != Resume(i) {
      hide Step;
    }
  }

  lemma {:induction false} ProposalWasDecided(definitions: map<string, Definition>, schedule: seq<Event>, n: nat, i: nat) returns (r: nat)
    requires n <= |schedule| && i < |Before(definitions, schedule, n).calls| && Before(definitions, schedule, n).calls[i].point.PutPending?
    ensures r < n && DecidedAt(definitions, schedule, r, i, Before(definitions, schedule, n).calls[i].point.proposal)
    ensures Before(definitions, schedule, r).calls[i].request == Before(definitions, schedule, n).calls[i].request
    decreases n
  {
    r := 0;
    NothingBefore(definitions, schedule);
    if n > 0 {
      NextState(definitions, schedule, n - 1);
      var s := Before(definitions, schedule, n - 1);
      StepDecides(s, schedule[n - 1], i);
      hide Before, Step, Inv, DecidesToPut;
      if s.calls[i].point == Before(definitions, schedule, n).calls[i].point {
        r := ProposalWasDecided(definitions, schedule, n - 1, i);
      } else {
        r := n - 1;
        assert DecidesToPut(s, schedule[r], i, Before(definitions, schedule, n).calls[i].point.proposal);
      }
    }
  }

  /** The proposal stands in this actor's own name. */
  predicate Own(p: Proposal, actor: Actor) {
    !p.proposedBy.Unclassified? && !actor.Unclassified? && SamePerson(p.proposedBy, actor)
  }

  lemma PutStores(s: State, e: Event, slot: Slot)
    requires Puts(s, e, slot)
    ensures slot in Step(s, e).pending && Step(s, e).pending[slot] == s.calls[e.call].point.proposal
  {
  }

  /** Step `m` puts a proposal that is not in the actor's own name, and nothing is proposed after it until `high`. */
  ghost predicate LastPutIsAnothers(definitions: map<string, Definition>, schedule: seq<Event>, m: nat, high: nat, slot: Slot, actor: Actor)
    requires m < high <= |schedule|
  {
    var s, e := Before(definitions, schedule, m), schedule[m];
    Puts(s, e, slot) && !Own(s.calls[e.call].point.proposal, actor) && !PutBetween(definitions, schedule, m + 1, high, slot)
  }

  /** What is open is what the last put since `low` left there. */
  lemma {:induction false} LastPut(definitions: map<string, Definition>, schedule: seq<Event>, low: nat, high: nat, slot: Slot) returns (m: nat)
    requires low <= high <= |schedule| && slot in Before(definitions, schedule, high).pending && PutBetween(definitions, schedule, low, high, slot)
    ensures low <= m < high && schedule[m].Resume? && schedule[m].call < |Before(definitions, schedule, m).calls|
    ensures Before(definitions, schedule, m).calls[schedule[m].call].point.PutPending?
    ensures Puts(Before(definitions, schedule, m), schedule[m], slot) && !PutBetween(definitions, schedule, m + 1, high, slot)
    ensures Before(definitions, schedule, high).pending[slot] == Before(definitions, schedule, m).calls[schedule[m].call].point.proposal
    decreases high
  {
    hide Before, Puts, Clears;
    var was := Before(definitions, schedule, high - 1);
    NothingBetween(definitions, schedule, low, slot);
    NextTouches(definitions, schedule, high - 1, slot);
    BetweenOneMore(definitions, schedule, low, high - 1, slot);
    hide PutBetween, ClearBetween;
    if Puts(was, schedule[high - 1], slot) {
      m := high - 1;
      NothingBetween(definitions, schedule, high, slot);
    } else {
      m := LastPut(definitions, schedule, low, high - 1, slot);
      BetweenOneMore(definitions, schedule, m + 1, high - 1, slot);
    }
  }

  lemma NextTouches(definitions: map<string, Definition>, schedule: seq<Event>, n: nat, slot: Slot)
    requires n < |schedule| && slot in Before(definitions, schedule, n + 1).pending
    ensures var s, t, e := Before(definitions, schedule, n), Before(definitions, schedule, n + 1), schedule[n];
            && !Clears(s, e, slot)
            && (if Puts(s, e, slot) then e.Resume? && e.call < |s.calls| && s.calls[e.call].point.PutPending? && t.pending[slot] == s.calls[e.call].point.proposal
                else slot in s.pending && t.pending[slot] == s.pending[slot])
  {
    var s, e := Before(definitions, schedule, n), schedule[n];
    NextState(definitions, schedule, n);
    StepTouches(s, e, slot) by {
      assert Inv(s);
    }
    hide Before, Inv, Grows;
    if Puts(s, e, slot) {
      PutStores(s, e, slot);
    }
  }

  lemma NothingBetween(definitions: map<string, Definition>, schedule: seq<Event>, n: nat, slot: Slot)
    requires n <= |schedule|
    ensures !PutBetween(definitions, schedule, n, n, slot)
  {
  }

  /** The last put since stands open. */
  lemma AnothersStands(definitions: map<string, Definition>, schedule: seq<Event>, m: nat, n: nat, slot: Slot, actor: Actor)
    requires m < n <= |schedule| && slot in Before(definitions, schedule, n).pending
    requires LastPutIsAnothers(definitions, schedule, m, n, slot, actor)
    ensures !Own(Before(definitions, schedule, n).pending[slot], actor)
  {
    NextState(definitions, schedule, m);
    PutStores(Before(definitions, schedule, m), schedule[m], slot);
    OpenSince(definitions, schedule, m + 1, n, slot);
    hide Before, Step, Inv, Grows, PutBetween, ClearBetween;
  }

  /**
   * On every run: when a call puts its proposal over an open one, that one is not
   * in the caller's own name exactly when the last proposal put for the slot since
   * the call had read it was another's. Where nothing was put since, the call
   * replaces the very proposal it had seen, in the same name.
   */
  lemma PutReplacesAnothersExactlyWhen(definitions: map<string, Definition>, schedule: seq<Event>, n: nat, i: nat) returns (r: nat)
    requires n <= |schedule|
    requires var s := Before(definitions, schedule, n);
             i < |s.calls| && s.calls[i].point.PutPending? && s.calls[i].request.slot in s.pending
    ensures var s := Before(definitions, schedule, n);
            var request, p := s.calls[i].request, s.calls[i].point.proposal;
            var found := s.pending[request.slot];
            && r < n && DecidedAt(definitions, schedule, r, i, p)
            && (!Own(found, request.actor) <==>
                  exists m | r <= m < n :: LastPutIsAnothers(definitions, schedule, m, n, request.slot, request.actor))
            && (!PutBetween(definitions, schedule, r, n, request.slot) ==> p.proposedBy == found.proposedBy)
  {
    var s := Before(definitions, schedule, n);
    var request := s.calls[i].request;
    r := ProposalWasDecided(definitions, schedule, n, i);
    OpenSince(definitions, schedule, r, n, request.slot);
    hide Run, Inv, Step, PutBetween, ClearBetween;
    if PutBetween(definitions, schedule, r, n, request.slot) {
      var m := LastPut(definitions, schedule, r, n, request.slot);
      hide Before;
      assert !Own(s.pending[request.slot], request.actor) ==> LastPutIsAnothers(definitions, schedule, m, n, request.slot, request.actor);
    }
    forall m | r <= m < n && LastPutIsAnothers(definitions, schedule, m, n, request.slot, request.actor)
      ensures !Own(s.pending[request.slot], request.actor)
    {
      AnothersStands(definitions, schedule, m, n, request.slot, request.actor);
    }
  }

  /** So two people who both found the slot empty are both answered `pending`, and only the later one's proposal is there. */
  lemma TwoProposersReplace(s: State, a: nat, b: nat)
    requires a < |s.calls| && b < |s.calls| && a != b && s.calls[a].request.slot == s.calls[b].request.slot
    requires s.calls[a].point.PutPending? && s.calls[b].point.PutPending?
    ensures var t := Step(Step(s, Resume(a)), Resume(b));
            var slot := s.calls[a].request.slot;
            && t.calls[a].point == Done(Pending(s.calls[a].point.proposal)) && t.calls[b].point == Done(Pending(s.calls[b].point.proposal))
            && t.pending == s.pending[slot := s.calls[b].point.proposal] && t.values == s.values
  {
    var t := Step(s, Resume(a));
    assert t.pending == s.pending[s.calls[a].request.slot := s.calls[a].point.proposal];
  }
}
