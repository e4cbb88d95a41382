/**
 * What a `putParam` call of apps/bff/src/params-service.ts answers, and when,
 * if nothing interrupts it: read off the state it finds, and over every
 * interleaving, that nothing is stored which its definition does not accept.
 */
module ParamsServiceAnswers {
  import opened Wrappers
  import opened Actors
  import opened ParamsService
  import opened ParamsServiceCall

  /** One person is behind both, in person or through a tool that holds their token. */
  ghost predicate OnePerson(a: Actor, b: Actor) {
    exists u: string :: (a == Human(u) || a == Delegate(u)) && (b == Human(u) || b == Delegate(u))
  }

  /** What the call answers, if it runs without interruption. */
  function Answered(s: State, r: Request): Outcome {
    var t := Alone(s, r);
    if |t.calls| > |s.calls| && t.calls[|s.calls|].point.Done? then t.calls[|s.calls|].point.outcome else Threw
  }

  /** Nothing but the answer is left behind. */
  predicate LeavesNothing(s: State, r: Request) {
    var t := Alone(s, r);
    t.values == s.values && t.pending == s.pending && t.audit == s.audit
  }

  /** The requested value is stored as the slot's next version, and recorded. */
  predicate Stores(s: State, r: Request, changedBy: Actor, approvedBy: Option<Actor>, signer: Actor, solo: bool) {
    var t, c := Alone(s, r), Change(r.slot, r.value, Count(s.values, r.slot) + 1, changedBy, approvedBy);
    t.values == s.values + [c] && t.audit == s.audit + [Record(signer, c, solo)]
  }

  /** The state the call leaves: it has finished, with this answer, and the calls before are as they were. */
  lemma Finishes(s: State, r: Request)
    requires Inv(s)
    ensures Alone(s, r).calls == s.calls + [Call(r, Done(Answered(s, r)))] && Alone(s, r).definitions == s.definitions
  {
    hide Alone, Inv, Decide, Latest, Count;
    IsEffect(s, r);
  }

  lemma IsEffect(s: State, r: Request)
    requires Inv(s)
    ensures Alone(s, r) == Effect(s, r) && Latest(s.values, r.slot) == Count(s.values, r.slot)
    ensures Guarded(s, r.slot) && r.slot in s.pending ==> s.pending[r.slot].slot == r.slot
  {
    AloneIsEffect(s, r);
    LatestIsCount(s.values, r.slot);
    hide Alone, Latest, Count, Effect;
  }

  lemma OnePersonIsSame(a: Actor, b: Actor)
    requires !a.Unclassified? && !b.Unclassified?
    ensures SamePerson(a, b) <==> OnePerson(a, b)
  {
    if SamePerson(a, b) {
      var u := HumanBehind(a).value;
      assert (a == Human(u) || a == Delegate(u)) && (b == Human(u) || b == Delegate(u));
    }
  }

  /** A parameter nobody defined, and a value its definition does not accept, are refused and leave nothing. */
  lemma RefusesExactly(s: State, r: Request)
    requires Inv(s)
    ensures Answered(s, r) == UnknownParam <==> r.slot.key !in s.definitions
    ensures Answered(s, r) == BadValue <==> r.slot.key in s.definitions && !s.definitions[r.slot.key].accepts(r.value)
    ensures Answered(s, r) in {UnknownParam, BadValue} ==> LeavesNothing(s, r)
  {
    hide Alone, Inv, Latest, Count;
    IsEffect(s, r);
  }

  /** An unguarded parameter is stored at once in the requester's name. */
  lemma UnguardedIsStored(s: State, r: Request)
    requires Inv(s) && r.slot.key in s.definitions && s.definitions[r.slot.key].accepts(r.value) && !s.definitions[r.slot.key].guarded
    ensures if r.actor.Unclassified? then Answered(s, r) == Threw
            else Answered(s, r).Applied? && Stores(s, r, r.actor, None, r.actor, false) && Alone(s, r).pending == s.pending
  {
    hide Alone, Inv, Latest, Count, Decide;
    IsEffect(s, r);
  }

  /** A guarded one with nothing open is proposed. */
  lemma GuardedIsProposed(s: State, r: Request)
    requires Inv(s) && r.slot.key in s.definitions && s.definitions[r.slot.key].accepts(r.value) && s.definitions[r.slot.key].guarded && r.slot !in s.pending
    ensures var p := Proposal(r.slot, r.value, r.actor, |s.calls|);
            && Answered(s, r) == Pending(p) && Alone(s, r).pending == s.pending[r.slot := p]
            && Alone(s, r).values == s.values && Alone(s, r).audit == s.audit
  {
    hide Alone, Inv, Latest, Count, Written;
    IsEffect(s, r);
  }

  /**
   * With an open proposal of a guarded slot, when each answer is given. The value
   * is applied exactly for a person who asks for the very value proposed and is
   * another than its proposer, or one of the four-eyes group; then it is stored
   * and recorded, as a solo approval exactly for the same person. The proposer's
   * own requests otherwise replace the proposal, and keep it in the first name;
   * another's is refused, for the channel or for the value.
   */
  lemma AnswersExactly(s: State, r: Request)
    requires Inv(s) && r.slot in s.pending
    requires r.slot.key in s.definitions && s.definitions[r.slot.key].guarded && s.definitions[r.slot.key].accepts(r.value)
    requires !s.pending[r.slot].proposedBy.Unclassified? && !r.actor.Unclassified?
    ensures var open, o := s.pending[r.slot], Answered(s, r);
            var own, agrees, master := OnePerson(open.proposedBy, r.actor), open.value.canonical == r.value.canonical, "maestro-admins" in r.groups;
            && (o.Applied? <==> r.actor.Human? && agrees && (!own || master))
            && (o.Applied? ==>
                  && Stores(s, r, open.proposedBy, Some(r.actor), r.actor, own)
                  && Alone(s, r).pending == s.pending - {r.slot})
            && (o.Pending? <==> own && !(r.actor.Human? && agrees && master))
            && (o.Pending? ==>
                  && o.proposal.proposedBy == open.proposedBy && o.proposal.value == r.value && o.proposal.slot == r.slot
                  && Alone(s, r).pending == s.pending[r.slot := o.proposal]
                  && Alone(s, r).values == s.values && Alone(s, r).audit == s.audit)
            && (o == HumanChannelOnly <==> !own && !r.actor.Human?)
            && (o == ValueMismatch <==> !own && r.actor.Human? && !agrees)
            && (o in {HumanChannelOnly, ValueMismatch} ==> LeavesNothing(s, r))
  {
    hide Alone, Inv, Latest, Count, OnePerson, Decide;
    var open := s.pending[r.slot];
    var own := OnePerson(open.proposedBy, r.actor);
    IsEffect(s, r);
    DecidesExactly(s.pending, r, |s.calls|, own);
    if Decide(s.pending, r, |s.calls|).ReadValues? {
      assert Answered(s, r).Applied?;
    } else {
      hide Written;
    }
  }

  lemma DecidesExactly(pending: map<Slot, Proposal>, r: Request, call: nat, own: bool)
    requires r.slot in pending && !pending[r.slot].proposedBy.Unclassified? && !r.actor.Unclassified?
    requires own <==> OnePerson(pending[r.slot].proposedBy, r.actor)
    ensures var open, d := pending[r.slot], Decide(pending, r, call);
            var agrees, master := open.value.canonical == r.value.canonical, "maestro-admins" in r.groups;
            if r.actor.Human? && agrees && (!own || master) then d == ReadValues(Plan(open.proposedBy, Some(r.actor), own, open.writer))
            else if own then d == PutPending(Proposal(open.slot, r.value, open.proposedBy, call))
            else d == Done(if r.actor.Human? then ValueMismatch else HumanChannelOnly)
  {
    OnePersonIsSame(pending[r.slot].proposedBy, r.actor);
    hide OnePerson, SamePerson;
  }

  /** Nobody who cannot be attributed confirms or replaces a proposal, and none of theirs is confirmed. */
  lemma UnattributableThrows(s: State, r: Request)
    requires Inv(s) && r.slot in s.pending
    requires r.slot.key in s.definitions && s.definitions[r.slot.key].guarded && s.definitions[r.slot.key].accepts(r.value)
    requires s.pending[r.slot].proposedBy.Unclassified? || r.actor.Unclassified?
    ensures Answered(s, r) == Threw && LeavesNothing(s, r)
  {
    hide Alone, Inv, Latest, Count, SamePerson;
    IsEffect(s, r);
  }

  // --------------------------------------------------------- accepted values

  predicate Fits(s: State, slot: Slot, value: Value) {
    slot.key in s.definitions && s.definitions[slot.key].accepts(value)
  }

  /** A call past its first await was asked for a value that its definition accepts. */
  predicate CallFits(s: State, c: Call) {
    c.point.ReadDefinitions? || c.point.Done? || Fits(s, c.request.slot, c.request.value)
  }

  ghost predicate AllFit(s: State) {
    && (forall c | c in s.calls :: CallFits(s, c))
    && (forall c | c in s.values :: Fits(s, c.slot, c.value))
  }

  lemma StepFits(s: State, e: Event)
    requires Inv(s) && AllFit(s)
    ensures AllFit(Step(s, e))
  {
    var t := Step(s, e);
    StepEffect(s, e);
    StepGrows(s, e);
    forall c | c in t.calls ensures CallFits(t, c) {
      var i :| 0 <= i < |t.calls| && t.calls[i] == c;
      if e == Resume(i) {
        assert s.calls[i] in s.calls;
        ResumeFits(s, i);
      } else if i < |s.calls| {
        assert s.calls[i] in s.calls;
      }
    }
    if t.values != s.values {
      assert s.calls[e.call] in s.calls;
      assert CallHolds(s, e.call);
    }
    hide Step, Inv, CallHolds, PlanHolds;
  }

  lemma ResumeFits(s: State, i: nat)
    requires i < |s.calls| && CallFits(s, s.calls[i])
    ensures i < |ResumeCall(s, i).calls| && CallFits(ResumeCall(s, i), ResumeCall(s, i).calls[i])
  {
    hide Decide, Latest, Taken;
  }

  lemma {:induction false} RunFits(definitions: map<string, Definition>, schedule: seq<Event>)
    ensures AllFit(Run(Start(definitions), schedule))
    decreases |schedule|
  {
    if schedule != [] {
      var before := schedule[..|schedule| - 1];
      RunFits(definitions, before);
      RunKeepsInv(definitions, before);
      hide Inv, Step, AllFit;
      StepFits(Run(Start(definitions), before), schedule[|schedule| - 1]);
    }
  }

  /** Over every interleaving: each stored value is of a known parameter, whose definition accepts it. */
  lemma EveryStoredValueWasAccepted(definitions: map<string, Definition>, schedule: seq<Event>, k: nat)
    requires k < |Run(Start(definitions), schedule).values|
    ensures var c := Run(Start(definitions), schedule).values[k]; c.slot.key in definitions && definitions[c.slot.key].accepts(c.value)
  {
    RunFits(definitions, schedule);
    RunKeepsInv(definitions, schedule);
    hide Run;
    assert Run(Start(definitions), schedule).values[k] in Run(Start(definitions), schedule).values;
  }
}
