/**
 * One `putParam` call as the source writes it, run without interruption over
 * the shared stores, and what uninterrupted calls promise beyond interleaved ones.
 */
module ParamsServiceCall {
  import opened Wrappers
  import opened Actors
  import opened ParamsService

  function Resumed(s: State, i: nat, times: nat): State
    requires i < |s.calls|
    decreases times
  {
    if times == 0 then s else Resumed(ResumeCall(s, i), i, times - 1)
  }

  /** The call arrives and is resumed until it has finished: no path has more than six awaits. */
  function Alone(s: State, r: Request): State {
    Resumed(Step(s, Arrive(r)), |s.calls|, 6)
  }

  lemma {:induction false} ResumedKeepsInv(s: State, i: nat, times: nat)
    requires Inv(s) && i < |s.calls|
    ensures Inv(Resumed(s, i, times))
    decreases times
  {
    assert |ResumeCall(s, i).calls| == |s.calls|;
    hide Inv, ResumeCall;
    if times > 0 {
      assert Step(s, Resume(i)) == ResumeCall(s, i);
      StepKeepsInv(s, Resume(i));
      ResumedKeepsInv(ResumeCall(s, i), i, times - 1);
    }
  }

  lemma {:induction false} FinishedStays(s: State, i: nat, times: nat)
    requires i < |s.calls| && s.calls[i].point.Done?
    ensures Resumed(s, i, times) == s
    decreases times
  {
    if times > 0 {
      FinishedStays(s, i, times - 1);
    }
  }

  lemma NextVersionIsFree(values: seq<Change>, slot: Slot)
    requires Numbered(values)
    ensures !Taken(values, slot, Latest(values, slot) + 1)
  {
    LatestIsCount(values, slot);
    if Taken(values, slot, Latest(values, slot) + 1) {
      var k :| 0 <= k < |values| && values[k].slot == slot && values[k].version == Latest(values, slot) + 1;
      VersionIsInRange(values, k);
    }
  }

  function NextChange(values: seq<Change>, r: Request, plan: Plan): Change {
    Change(r.slot, r.value, Latest(values, r.slot) + 1, plan.changedBy, plan.approvedBy)
  }

  function Signer(plan: Plan): Actor {
    if plan.approvedBy.Some? then plan.approvedBy.value else plan.changedBy
  }

  /** The whole effect of `apply` and the clearing behind it. */
  function AfterApply(s: State, i: nat, plan: Plan): State
    requires i < |s.calls|
  {
    var r := s.calls[i].request;
    var c := NextChange(s.values, r, plan);
    var stored := s.(values := s.values + [c], origins := s.origins + [Origin(i, plan)]);
    if Signer(plan).Unclassified? then At(stored, i, Done(Threw))
    else At(stored, i, Done(Applied(c)))
         .(audit := s.audit + [Record(Signer(plan), c, plan.solo)],
           pending := if Guarded(s, r.slot) then s.pending - {r.slot} else s.pending)
  }

  /** The state once the version has been numbered and stored. */
  function AfterStore(s: State, i: nat, plan: Plan): State
    requires i < |s.calls|
  {
    var c := NextChange(s.values, s.calls[i].request, plan);
    At(s, i, AppendAudit(plan, c)).(values := s.values + [c], origins := s.origins + [Origin(i, plan)])
  }

  lemma NumberingEffect(s: State, i: nat)
    requires i < |s.calls| && s.calls[i].point.ReadValues?
    ensures var plan := s.calls[i].point.plan;
            ResumeCall(s, i) == At(s, i, ApplyChange(plan, NextChange(s.values, s.calls[i].request, plan)))
  {
    hide Latest, At;
  }

  lemma StoringEffect(s: State, i: nat)
    requires i < |s.calls| && s.calls[i].point.ApplyChange?
    requires var c := s.calls[i].point.change; !Taken(s.values, c.slot, c.version)
    ensures var plan, c := s.calls[i].point.plan, s.calls[i].point.change;
            ResumeCall(s, i) == At(s, i, AppendAudit(plan, c)).(values := s.values + [c], origins := s.origins + [Origin(i, plan)])
  {
    hide Taken, At;
  }

  /** A call that numbers its version and stores it at once is never refused. */
  lemma StoreRunsThrough(s: State, i: nat)
    requires Numbered(s.values) && i < |s.calls| && s.calls[i].point.ReadValues?
    ensures ResumeCall(ResumeCall(s, i), i) == AfterStore(s, i, s.calls[i].point.plan)
  {
    NextVersionIsFree(s.values, s.calls[i].request.slot);
    NumberingEffect(s, i);
    StoringEffect(ResumeCall(s, i), i);
    hide ResumeCall, Numbered, Latest, Taken;
  }

  lemma RecordRunsThrough(s: State, i: nat, plan: Plan, t: State)
    requires i < |s.calls| && t == AfterStore(s, i, plan)
    ensures ResumeCall(ResumeCall(t, i), i) == AfterApply(s, i, plan)
  {
    hide Latest;
  }

  lemma ApplyRunsThrough(s: State, i: nat, plan: Plan, times: nat)
    requires Numbered(s.values) && i < |s.calls| && s.calls[i].point == ReadValues(plan) && times >= 4
    ensures Resumed(s, i, times) == AfterApply(s, i, plan)
  {
    StoreRunsThrough(s, i);
    RecordRunsThrough(s, i, plan, AfterStore(s, i, plan));
    hide ResumeCall, Numbered;
    var s1 := ResumeCall(s, i);
    var s2 := ResumeCall(s1, i);
    var s3 := ResumeCall(s2, i);
    FinishedStays(AfterApply(s, i, plan), i, times - 4);
    hide AfterApply, AfterStore;
    assert Resumed(s, i, times) == Resumed(s1, i, times - 1) == Resumed(s2, i, times - 2)
        == Resumed(s3, i, times - 3) == Resumed(ResumeCall(s3, i), i, times - 4);
  }

  function Answer(s: State, r: Request, outcome: Outcome): State {
    s.(calls := s.calls + [Call(r, Done(outcome))])
  }

  function Written(s: State, r: Request, plan: Plan): State {
    var c := NextChange(s.values, r, plan);
    var stored := s.(values := s.values + [c], origins := s.origins + [Origin(|s.calls|, plan)]);
    if Signer(plan).Unclassified? then Answer(stored, r, Threw)
    else Answer(stored.(audit := s.audit + [Record(Signer(plan), c, plan.solo)],
                        pending := if Guarded(s, r.slot) then s.pending - {r.slot} else s.pending),
                r, Applied(c))
  }

  /** What an uninterrupted call does, decided once from the state it finds. */
  function Effect(s: State, r: Request): State {
    if r.slot.key !in s.definitions then Answer(s, r, UnknownParam)
    else if !s.definitions[r.slot.key].accepts(r.value) then Answer(s, r, BadValue)
    else if !s.definitions[r.slot.key].guarded then Written(s, r, Plan(r.actor, None, false, |s.calls|))
    else
      match Decide(s.pending, r, |s.calls|)
      case Done(refusal) => Answer(s, r, refusal)
      case PutPending(p) => Answer(s.(pending := s.pending[r.slot := p]), r, Pending(p))
      case ReadValues(plan) => Written(s, r, plan)
      case _ => s // `Decide` chooses nothing else
  }

  lemma AfterApplyIsWritten(s: State, r: Request, p: Point, plan: Plan)
    ensures AfterApply(s.(calls := s.calls + [Call(r, p)]), |s.calls|, plan) == Written(s, r, plan)
  {
  }

  lemma AtTheArrived(s: State, r: Request, p: Point, q: Point)
    ensures At(s.(calls := s.calls + [Call(r, p)]), |s.calls|, q) == s.(calls := s.calls + [Call(r, q)])
  {
  }

  /** The uninterrupted run of a call is that effect. */
  lemma AloneIsEffect(s: State, r: Request)
    requires Numbered(s.values)
    ensures Alone(s, r) == Effect(s, r)
  {
    var i := |s.calls|;
    var t := Step(s, Arrive(r));
    var s1 := ResumeCall(t, i);
    AtTheArrived(s, r, ReadDefinitions, s1.calls[i].point);
    hide Decide, AfterApply, Written, Numbered;
    if r.slot.key !in s.definitions || !s.definitions[r.slot.key].accepts(r.value) {
      FinishedStays(s1, i, 5);
    } else if !s.definitions[r.slot.key].guarded {
      var plan := Plan(r.actor, None, false, i);
      ApplyRunsThrough(s1, i, plan, 5);
      AfterApplyIsWritten(s, r, ReadValues(plan), plan);
    } else {
      GuardedAloneIsEffect(s, r, s1);
    }
  }

  lemma AloneIsSound(s: State, r: Request)
    requires Inv(s)
    ensures Inv(Alone(s, r)) && Alone(s, r) == Effect(s, r)
  {
    AloneIsEffect(s, r);
    StepKeepsInv(s, Arrive(r));
    assert Step(s, Arrive(r)).calls == s.calls + [Call(r, ReadDefinitions)];
    hide Inv;
    ResumedKeepsInv(Step(s, Arrive(r)), |s.calls|, 6);
  }

  lemma GuardedAloneIsEffect(s: State, r: Request, s1: State)
    requires Numbered(s.values)
    requires Guarded(s, r.slot) && s.definitions[r.slot.key].accepts(r.value)
    requires s1 == s.(calls := s.calls + [Call(r, ReadPending)])
    ensures Resumed(s1, |s.calls|, 5) == Effect(s, r)
  {
    var i, d := |s.calls|, Decide(s.pending, r, |s.calls|);
    AtTheArrived(s, r, ReadPending, d);
    var s2 := ResumeCall(s1, i);
    assert s2 == s.(calls := s.calls + [Call(r, d)]);
    if d.PutPending? {
      AtTheArrived(s, r, d, Done(Pending(d.proposal)));
      assert ResumeCall(s2, i) == Effect(s, r);
      FinishedStays(ResumeCall(s2, i), i, 3);
    } else {
      hide Decide, AfterApply, Written, Numbered, ResumeCall;
      if d.ReadValues? {
        ApplyRunsThrough(s2, i, d.plan, 4);
        AfterApplyIsWritten(s, r, d, d.plan);
      } else {
        FinishedStays(s2, i, 4);
      }
    }
  }

  class Params {
    var definitions: map<string, Definition>
    var values: seq<Change>
    var pending: map<Slot, Proposal>
    var audit: seq<Record>
    var calls: seq<Call>      // the calls served so far, with their answers
    var origins: seq<Origin>

    function View(): State
      reads this
    {
      State(definitions, values, pending, audit, calls, origins)
    }

    constructor (definitions: map<string, Definition>)
      ensures View() == Start(definitions) && Inv(View())
    {
      this.definitions, values, pending, audit, calls, origins := definitions, [], map[], [], [], [];
    }

    /** `putParam`: its effect is the uninterrupted run of one call of the protocol. */
    method PutParam(r: Request) returns (outcome: Outcome)
      requires Inv(View())
      modifies this
      ensures View() == Alone(old(View()), r)
      ensures calls == old(calls) + [Call(r, Done(outcome))]
      ensures Inv(View())
    {
      hide Inv, Alone, Decide, Latest;
      AloneIsSound(View(), r);
      var me := |calls|;
      if r.slot.key !in definitions {
        outcome := UnknownParam;
      } else if !definitions[r.slot.key].accepts(r.value) {
        outcome := BadValue;
      } else if !definitions[r.slot.key].guarded {
        outcome := Apply(r, Plan(r.actor, None, false, me));
      } else {
        match Decide(pending, r, me)
        case Done(refusal) =>
          outcome := refusal;
        case PutPending(proposal) =>
          pending := pending[r.slot := proposal];
          outcome := Pending(proposal);
        case ReadValues(plan) =>
          outcome := Apply(r, plan);
          if outcome.Applied? {
            pending := pending - {r.slot};
          }
      }
      calls := calls + [Call(r, Done(outcome))];
    }

    /** `apply`: number the version, store it, record it; the trail throws on an actor it cannot attribute. */
    method Apply(r: Request, plan: Plan) returns (outcome: Outcome)
      modifies this`values, this`origins, this`audit
      ensures values == old(values) + [NextChange(old(values), r, plan)]
      ensures origins == old(origins) + [Origin(|calls|, plan)]
      ensures outcome == if Signer(plan).Unclassified? then Threw else Applied(NextChange(old(values), r, plan))
      ensures audit == old(audit) + if outcome == Threw then [] else [Record(Signer(plan), outcome.change, plan.solo)]
    {
      var previous := 0;
      for k := 0 to |values|
        invariant previous == Latest(values[..k], r.slot)
      {
        if values[k].slot == r.slot && values[k].version > previous {
          previous := values[k].version;
        }
        assert values[..k + 1][..k] == values[..k];
      }
      assert values[..|values|] == values;
      var change := Change(r.slot, r.value, previous + 1, plan.changedBy, plan.approvedBy);
      values, origins := values + [change], origins + [Origin(|calls|, plan)];
      if Signer(plan).Unclassified? {
        return Threw;
      }
      audit := audit + [Record(Signer(plan), change, plan.solo)];
      outcome := Applied(change);
    }
  }

  // ----------------------------------------- what interleaving costs

  /** Uninterrupted, a proposal leaves its slot only by being replaced or by being the value that is stored. */
  lemma UninterruptedCallKeepsProposals(s: State, r: Request, slot: Slot)
    requires Inv(s) && slot in s.pending && slot !in Alone(s, r).pending
    ensures var t := Alone(s, r);
            && |t.values| == |s.values| + 1 && t.values[..|s.values|] == s.values
            && var c := t.values[|s.values|];
            && c.slot == slot && c.value.canonical == s.pending[slot].value.canonical && c.changedBy == s.pending[slot].proposedBy
  {
    hide Inv, Alone;
    AloneIsSound(s, r);
  }

  const KEY := Slot("gate.sla", None)
  const FIRST := Value("1", "1")
  const SECOND := Value("2", "2")

  lemma RunOneMore(s: State, schedule: seq<Event>, n: nat)
    requires n < |schedule|
    ensures Run(s, schedule[..n + 1]) == Step(Run(s, schedule[..n]), schedule[n])
  {
    assert schedule[..n + 1][..n] == schedule[..n];
  }

  const AYSE := Request(KEY, FIRST, Human("ayse@bank"), [])
  const MERT := Request(KEY, FIRST, Human("mert@bank"), [])
  const AGAIN := Request(KEY, SECOND, Human("ayse@bank"), [])
  const OLDER := Proposal(KEY, FIRST, Human("ayse@bank"), 0)
  const NEWER := Proposal(KEY, SECOND, Human("ayse@bank"), 2)
  const CONFIRMED := Plan(Human("ayse@bank"), Some(Human("mert@bank")), false, 0)
  const STORED := Change(KEY, FIRST, 1, Human("ayse@bank"), Some(Human("mert@bank")))

  function Definitions(): map<string, Definition> {
    map[KEY.key := Definition(true, v => true)]
  }

  /** Ayşe proposes 1, Mert confirms it, and before his call clears the slot Ayşe proposes 2. */
  const STALE_CLEAR: seq<Event> := [
    Arrive(AYSE), Resume(0), Resume(0), Resume(0),
    Arrive(MERT), Resume(1), Resume(1), Resume(1), Resume(1), Resume(1),
    Arrive(AGAIN), Resume(2), Resume(2), Resume(2),
    Resume(1)]

  const ASKED := State(Definitions(), [], map[KEY := OLDER], [], [Call(AYSE, Done(Pending(OLDER)))], [])
  const CONFIRMING := ASKED.(calls := ASKED.calls + [Call(MERT, ReadValues(CONFIRMED))])

  lemma Asks()
    ensures var e := STALE_CLEAR; Step(Step(Step(Step(Start(Definitions()), e[0]), e[1]), e[2]), e[3]) == ASKED
  {
  }

  lemma Confirms()
    ensures var e := STALE_CLEAR; Step(Step(Step(ASKED, e[4]), e[5]), e[6]) == CONFIRMING
  {
  }

  lemma StoresIt()
    ensures var e := STALE_CLEAR;
            Step(Step(Step(CONFIRMING, e[7]), e[8]), e[9]) ==
            ASKED.(values := [STORED], origins := [Origin(1, CONFIRMED)], audit := [Record(Human("mert@bank"), STORED, false)],
                   calls := ASKED.calls + [Call(MERT, ClearPending(CONFIRMED, STORED))])
  {
    assert CONFIRMING.calls[1] == Call(MERT, ReadValues(CONFIRMED));
    StoreRunsThrough(CONFIRMING, 1);
    assert Step(Step(CONFIRMING, Resume(1)), Resume(1)) == AfterStore(CONFIRMING, 1, CONFIRMED);
  }

  lemma ConfirmedBeforeClearing() returns (s: State)
    ensures s == Run(Start(Definitions()), STALE_CLEAR[..10])
    ensures s.definitions == Definitions() && s.pending == map[KEY := OLDER] && s.values == [STORED]
    ensures s.calls == [Call(AYSE, Done(Pending(OLDER))), Call(MERT, ClearPending(CONFIRMED, STORED))]
  {
    var e, s0 := STALE_CLEAR, Start(Definitions());
    s := Step(Step(Step(CONFIRMING, e[7]), e[8]), e[9]);
    Asks();
    Confirms();
    StoresIt();
    hide Step;
    forall n | 0 <= n < 10 ensures Run(s0, e[..n + 1]) == Step(Run(s0, e[..n]), e[n]) {
      RunOneMore(s0, e, n);
    }
    assert Run(s0, e[..0]) == s0;
    assert Run(s0, e[..4]) == ASKED by {
      assert Run(s0, e[..1]) == Step(s0, e[0]) && Run(s0, e[..2]) == Step(Run(s0, e[..1]), e[1]) && Run(s0, e[..3]) == Step(Run(s0, e[..2]), e[2]);
    }
    assert Run(s0, e[..7]) == CONFIRMING by {
      assert Run(s0, e[..5]) == Step(ASKED, e[4]) && Run(s0, e[..6]) == Step(Run(s0, e[..5]), e[5]);
    }
    assert Run(s0, e[..8]) == Step(CONFIRMING, e[7]) && Run(s0, e[..9]) == Step(Run(s0, e[..8]), e[8]);
  }

  /**
   * An answered proposal can vanish: the last call was told `pending`, yet its
   * proposal is neither waiting, nor replaced, nor stored.
   */
  lemma StaleClearLosesAProposal()
    ensures var s := Run(Start(Definitions()), STALE_CLEAR);
            |s.calls| == 3 && s.calls[2] == Call(AGAIN, Done(Pending(NEWER))) && s.pending == map[] && s.values == [STORED]
  {
    var e, s0 := STALE_CLEAR, Start(Definitions());
    var s10 := ConfirmedBeforeClearing();
    var s11 := Step(s10, e[10]);
    var s12 := Step(s11, e[11]);
    var s13 := Step(s12, e[12]);
    assert s13.calls == s10.calls + [Call(AGAIN, PutPending(NEWER))] && s13.pending == s10.pending;
    var s14 := Step(s13, e[13]);
    var s15 := Step(s14, e[14]);
    assert s15.pending == map[];
    hide Step;
    forall n | 10 <= n < 15 ensures Run(s0, e[..n + 1]) == Step(Run(s0, e[..n]), e[n]) {
      RunOneMore(s0, e, n);
    }
    assert Run(s0, e[..11]) == s11 && Run(s0, e[..12]) == s12 && Run(s0, e[..13]) == s13 && Run(s0, e[..14]) == s14;
    assert e[..15] == e;
  }
}
