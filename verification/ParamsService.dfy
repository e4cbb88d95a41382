/**
 * The four-eyes parameter protocol of apps/bff/src/params-service.ts, one step
 * per `await`. Any number of `putParam` calls are in flight and a schedule says
 * which of them runs next; the stores are the ones every call shares.
 */
module ParamsService {
  import opened Wrappers
  import opened Actors

  const FOUR_EYES_GROUP := "maestro-admins"

  /** A JSON value as it was sent, and its canonical serialisation. */
  datatype Value = Value(written: string, canonical: string)

  datatype Slot = Slot(key: string, scope: Option<string>)

  /** `accepts` is `checkValue` for the definition's type. */
  datatype Definition = Definition(guarded: bool, accepts: Value -> bool)

  datatype Request = Request(slot: Slot, value: Value, actor: Actor, groups: seq<string>)

  /** `writer` is history no branch reads: the call that wrote the proposal. */
  datatype Proposal = Proposal(slot: Slot, value: Value, proposedBy: Actor, writer: nat)

  datatype Change = Change(slot: Slot, value: Value, version: nat, changedBy: Actor, approvedBy: Option<Actor>)

  /** What `apply` was asked to write; `confirms` is history: the call whose proposal is being confirmed. */
  datatype Plan = Plan(changedBy: Actor, approvedBy: Option<Actor>, solo: bool, confirms: nat)

  datatype Record = Record(actor: Actor, change: Change, solo: bool)

  datatype Outcome =
    | Applied(change: Change)
    | Pending(proposal: Proposal)
    | UnknownParam
    | BadValue
    | HumanChannelOnly
    | ValueMismatch
    | Threw

  /** Where a call is suspended: the shared read or write it will do when resumed. */
  datatype Point =
    | ReadDefinitions
    | ReadPending
    | PutPending(proposal: Proposal)
    | ReadValues(plan: Plan)
    | ApplyChange(plan: Plan, change: Change)
    | AppendAudit(plan: Plan, change: Change)
    | ClearPending(plan: Plan, change: Change)
    | Done(outcome: Outcome)

  datatype Call = Call(request: Request, point: Point)

  /** Which call stored a version, and on what plan. */
  datatype Origin = Origin(call: nat, plan: Plan)

  datatype State = State(
    definitions: map<string, Definition>,
    values: seq<Change>,
    pending: map<Slot, Proposal>,
    audit: seq<Record>,
    calls: seq<Call>,
    origins: seq<Origin>) // history, one entry per stored version

  datatype Event = Arrive(request: Request) | Resume(call: nat)

  // ------------------------------------------------------------ the protocol

  /** `values.filter(slot).reduce(max, 0)`. */
  function Latest(values: seq<Change>, slot: Slot): nat {
    if values == [] then 0
    else
      var last, before := values[|values| - 1], Latest(values[..|values| - 1], slot);
      if last.slot == slot && last.version > before then last.version else before
  }

  predicate Taken(values: seq<Change>, slot: Slot, version: nat) {
    exists k | 0 <= k < |values| :: values[k].slot == slot && values[k].version == version
  }

  /** Everything `putParam` decides between reading the open proposal and its next write. */
  function Decide(pending: map<Slot, Proposal>, r: Request, call: nat): (p: Point)
    ensures p.PutPending? || p.ReadValues? || p.Done?
  {
    if r.slot !in pending then PutPending(Proposal(r.slot, r.value, r.actor, call))
    else
      var open := pending[r.slot];
      if open.proposedBy.Unclassified? || r.actor.Unclassified? then Done(Threw)
      else if SamePerson(open.proposedBy, r.actor) then
        if r.actor.Human? && FOUR_EYES_GROUP in r.groups && open.value.canonical == r.value.canonical
        then ReadValues(Plan(open.proposedBy, Some(r.actor), true, open.writer))
        else PutPending(open.(value := r.value, writer := call))
      else if !r.actor.Human? then Done(HumanChannelOnly)
      else if open.value.canonical != r.value.canonical then Done(ValueMismatch)
      else ReadValues(Plan(open.proposedBy, Some(r.actor), false, open.writer))
  }

  function Guarded(s: State, slot: Slot): bool {
    slot.key in s.definitions && s.definitions[slot.key].guarded
  }

  function At(s: State, i: nat, p: Point): State
    requires i < |s.calls|
  {
    s.(calls := s.calls[i := s.calls[i].(point := p)])
  }

  function ResumeCall(s: State, i: nat): State
    requires i < |s.calls|
  {
    var r := s.calls[i].request;
    match s.calls[i].point
    case ReadDefinitions =>
      if r.slot.key !in s.definitions then At(s, i, Done(UnknownParam))
      else if !s.definitions[r.slot.key].accepts(r.value) then At(s, i, Done(BadValue))
      else if s.definitions[r.slot.key].guarded then At(s, i, ReadPending)
      else At(s, i, ReadValues(Plan(r.actor, None, false, i)))
    case ReadPending => At(s, i, Decide(s.pending, r, i))
    case PutPending(p) => At(s, i, Done(Pending(p))).(pending := s.pending[r.slot := p])
    case ReadValues(plan) =>
      At(s, i, ApplyChange(plan, Change(r.slot, r.value, Latest(s.values, r.slot) + 1, plan.changedBy, plan.approvedBy)))
    case ApplyChange(plan, change) =>
      // the store's primary key is (key, scopeRef, version)
      if Taken(s.values, change.slot, change.version) then At(s, i, Done(Threw))
      else At(s, i, AppendAudit(plan, change)).(values := s.values + [change], origins := s.origins + [Origin(i, plan)])
    case AppendAudit(plan, change) =>
      var actor := if plan.approvedBy.Some? then plan.approvedBy.value else plan.changedBy;
      if actor.Unclassified? then At(s, i, Done(Threw))
      else At(s, i, if Guarded(s, r.slot) then ClearPending(plan, change) else Done(Applied(change)))
           .(audit := s.audit + [Record(actor, change, plan.solo)])
    case ClearPending(_, change) => At(s, i, Done(Applied(change))).(pending := s.pending - {r.slot})
    case Done(_) => s
  }

  function Step(s: State, e: Event): State {
    match e
    case Arrive(r) => s.(calls := s.calls + [Call(r, ReadDefinitions)])
    case Resume(i) => if i < |s.calls| then ResumeCall(s, i) else s
  }

  function Run(s: State, schedule: seq<Event>): State
    decreases |schedule|
  {
    if schedule == [] then s
    else Step(Run(s, schedule[..|schedule| - 1]), schedule[|schedule| - 1])
  }

  /** A fresh installation with these definitions. */
  function Start(definitions: map<string, Definition>): State {
    State(definitions, [], map[], [], [], [])
  }

  // ---------------------------------------------------------------- four eyes

  /** Call `p` has returned `pending` with a proposal for `slot` in the name of `author`. */
  ghost predicate Proposed(s: State, p: nat, slot: Slot, canonical: string, author: Actor) {
    && p < |s.calls|
    && s.calls[p].point.Done? && s.calls[p].point.outcome.Pending?
    && s.calls[p].request.slot == slot
    && s.calls[p].request.value.canonical == canonical
    && SpeaksFor(s.calls[p].request.actor, author)
  }

  /**
   * What stands behind a guarded write by call `a`: a person submitted the value
   * in `a`, another call had already proposed the same value in the author's
   * name, and the two are different people unless a master admin used the
   * recorded exemption.
   */
  ghost predicate FourEyes(s: State, a: nat, plan: Plan) {
    && a < |s.calls|
    && var r := s.calls[a].request;
    && Guarded(s, r.slot)
    && plan.approvedBy == Some(r.actor) && r.actor.Human?
    && plan.confirms != a
    && Proposed(s, plan.confirms, r.slot, r.value.canonical, plan.changedBy)
    && !plan.changedBy.Unclassified?
    && (plan.solo <==> SamePerson(plan.changedBy, r.actor))
    && (plan.solo ==> FOUR_EYES_GROUP in r.groups)
  }

  ghost predicate PlanHolds(s: State, a: nat, plan: Plan) {
    && a < |s.calls|
    && if Guarded(s, s.calls[a].request.slot) then FourEyes(s, a, plan)
       else plan == Plan(s.calls[a].request.actor, None, false, a)
  }

  ghost predicate ChangeOf(s: State, a: nat, plan: Plan, c: Change)
    requires a < |s.calls|
  {
    var r := s.calls[a].request;
    c.slot == r.slot && c.value == r.value && c.changedBy == plan.changedBy && c.approvedBy == plan.approvedBy
  }

  ghost predicate ProposalHolds(s: State, p: Proposal) {
    && p.writer < |s.calls|
    && s.calls[p.writer].request.value == p.value
    && s.calls[p.writer].request.slot == p.slot
    && SpeaksFor(s.calls[p.writer].request.actor, p.proposedBy)
  }

  ghost predicate CallHolds(s: State, i: nat)
    requires i < |s.calls|
  {
    match s.calls[i].point
    case ReadPending => Guarded(s, s.calls[i].request.slot)
    case PutPending(p) => p.writer == i && ProposalHolds(s, p)
    case ReadValues(plan) => PlanHolds(s, i, plan)
    case ApplyChange(plan, c) =>
      PlanHolds(s, i, plan) && ChangeOf(s, i, plan, c) && 1 <= c.version <= Count(s.values, c.slot) + 1
    case AppendAudit(plan, c) => PlanHolds(s, i, plan) && ChangeOf(s, i, plan, c) && Stored(s, i, plan, c)
    case ClearPending(plan, c) =>
      Guarded(s, s.calls[i].request.slot) && PlanHolds(s, i, plan) && ChangeOf(s, i, plan, c) && Audited(s, i, plan, c)
    case Done(Applied(c)) => exists plan :: Audited(s, i, plan, c)
    case _ => true
  }

  ghost predicate Stored(s: State, i: nat, plan: Plan, c: Change) {
    exists k | 0 <= k < |s.values| && k < |s.origins| :: s.values[k] == c && s.origins[k] == Origin(i, plan)
  }

  ghost predicate Audited(s: State, i: nat, plan: Plan, c: Change) {
    Stored(s, i, plan, c)
    && Record(if plan.approvedBy.Some? then plan.approvedBy.value else plan.changedBy, c, plan.solo) in s.audit
  }

  // ---------------------------------------------------------------- versions

  function Count(values: seq<Change>, slot: Slot): nat {
    if values == [] then 0
    else Count(values[..|values| - 1], slot) + if values[|values| - 1].slot == slot then 1 else 0
  }

  /** Each stored version is one more than the number of versions its slot had. */
  ghost predicate Numbered(values: seq<Change>) {
    forall k | 0 <= k < |values| :: values[k].version == Count(values[..k], values[k].slot) + 1
  }

  ghost predicate Inv(s: State) {
    && |s.origins| == |s.values|
    && ValuesHold(s)
    && PendingHolds(s)
    && (forall i | 0 <= i < |s.calls| :: CallHolds(s, i))
    && (forall r | r in s.audit :: r.change in s.values)
  }

  // ------------------------------------------------------- every step keeps it

  /** Stores only grow, requests never change, and a finished call stays as it finished. */
  ghost predicate Grows(s: State, t: State) {
    && s.definitions == t.definitions
    && |s.calls| <= |t.calls|
    && (forall i | 0 <= i < |s.calls| :: t.calls[i].request == s.calls[i].request)
    && (forall i | 0 <= i < |s.calls| && s.calls[i].point.Done? :: t.calls[i] == s.calls[i])
    && |s.values| == |s.origins| <= |t.values| == |t.origins|
    && s.values == t.values[..|s.values|] && s.origins == t.origins[..|s.origins|]
    && (forall r | r in s.audit :: r in t.audit)
  }

  lemma StepGrows(s: State, e: Event)
    requires |s.origins| == |s.values|
    ensures Grows(s, Step(s, e))
  {
    hide Decide, Latest, Taken;
    if e.Resume? && e.call < |s.calls| && !s.calls[e.call].point.Done? {
      ResumeTells(s, e.call);
      hide ResumeCall;
    }
  }

  /** A resumed call moves on, keeping its request; the histories at most gain one entry. */
  lemma ResumeTells(s: State, i: nat)
    requires i < |s.calls|
    ensures var t := ResumeCall(s, i);
            && t.definitions == s.definitions
            && (exists p :: t.calls == s.calls[i := s.calls[i].(point := p)])
            && ((t.values == s.values && t.origins == s.origins) || (exists c, o :: t.values == s.values + [c] && t.origins == s.origins + [o]))
            && (t.audit == s.audit || (exists r :: t.audit == s.audit + [r]))
  {
    hide Decide, Latest, Taken;
    assert s.calls[i] == s.calls[i].(point := s.calls[i].point);
    assert s.calls == s.calls[i := s.calls[i]];
  }

  /** Which write a step performs, and that it moves no call but the resumed one. */
  lemma StepEffect(s: State, e: Event)
    ensures var t := Step(s, e);
            || (t.pending == s.pending && t.values == s.values && t.origins == s.origins && t.audit == s.audit)
            || (e.Resume? && e.call < |s.calls| && WriteOf(s, e.call, t))
    ensures forall i | 0 <= i < |s.calls| && e != Resume(i) :: Step(s, e).calls[i] == s.calls[i]
    ensures e.Arrive? ==> Step(s, e).calls == s.calls + [Call(e.request, ReadDefinitions)]
    ensures e.Resume? ==> |Step(s, e).calls| == |s.calls|
  {
    hide Decide, Latest, Taken;
    if e.Resume? && e.call < |s.calls| {
      hide At;
      ResumeEffect(s, e.call);
      hide ResumeCall, WriteOf;
    }
  }

  lemma ResumeEffect(s: State, i: nat)
    requires i < |s.calls|
    ensures var t := ResumeCall(s, i);
            || (t.pending == s.pending && t.values == s.values && t.origins == s.origins && t.audit == s.audit)
            || WriteOf(s, i, t)
    ensures |ResumeCall(s, i).calls| == |s.calls| && forall j | 0 <= j < |s.calls| && j != i :: ResumeCall(s, i).calls[j] == s.calls[j]
  {
    hide Decide, Latest, Taken;
  }

  /** The stores after call `i` did the write it was suspended before. */
  ghost predicate WriteOf(s: State, i: nat, t: State)
    requires i < |s.calls|
  {
    var slot := s.calls[i].request.slot;
    match s.calls[i].point
    case PutPending(p) =>
      && t.pending == s.pending[slot := p] && i < |t.calls| && t.calls[i].point == Done(Pending(p))
      && t.values == s.values && t.origins == s.origins && t.audit == s.audit
    case ApplyChange(plan, c) =>
      && !Taken(s.values, c.slot, c.version)
      && t.values == s.values + [c] && t.origins == s.origins + [Origin(i, plan)]
      && t.pending == s.pending && t.audit == s.audit
    case AppendAudit(plan, c) =>
      && t.pending == s.pending && t.values == s.values && t.origins == s.origins
      && t.audit == s.audit + [Record(if plan.approvedBy.Some? then plan.approvedBy.value else plan.changedBy, c, plan.solo)]
    case ClearPending(_, _) =>
      t.pending == s.pending - {slot} && t.values == s.values && t.origins == s.origins && t.audit == s.audit
    case _ => false
  }

  lemma {:induction false} CountGrows(values: seq<Change>, n: nat, slot: Slot)
    requires n <= |values|
    ensures Count(values[..n], slot) <= Count(values, slot) <= Count(values[..n], slot) + |values| - n
  {
    if n < |values| {
      assert values[..|values| - 1][..n] == values[..n];
      CountGrows(values[..|values| - 1], n, slot);
    } else {
      assert values[..n] == values;
    }
  }

  lemma PlanKept(s: State, t: State, a: nat, plan: Plan)
    requires Grows(s, t) && PlanHolds(s, a, plan)
    ensures PlanHolds(t, a, plan)
  {
  }

  lemma StoredKept(s: State, t: State, i: nat, plan: Plan, c: Change)
    requires Grows(s, t) && Stored(s, i, plan, c)
    ensures Stored(t, i, plan, c)
  {
    var k :| 0 <= k < |s.values| && k < |s.origins| && s.values[k] == c && s.origins[k] == Origin(i, plan);
    assert t.values[k] == t.values[..|s.values|][k] && t.origins[k] == t.origins[..|s.origins|][k];
  }

  lemma CallKept(s: State, t: State, i: nat)
    requires Grows(s, t) && i < |s.calls| && CallHolds(s, i) && t.calls[i] == s.calls[i]
    ensures CallHolds(t, i)
  {
    match s.calls[i].point
    case ReadValues(plan) => PlanKept(s, t, i, plan);
    case ApplyChange(plan, c) =>
      PlanKept(s, t, i, plan);
      CountGrows(t.values, |s.values|, c.slot);
    case AppendAudit(plan, c) =>
      PlanKept(s, t, i, plan);
      StoredKept(s, t, i, plan, c);
    case ClearPending(plan, c) =>
      PlanKept(s, t, i, plan);
      StoredKept(s, t, i, plan, c);
    case Done(Applied(c)) =>
      var plan :| Audited(s, i, plan, c);
      StoredKept(s, t, i, plan, c);
      assert Audited(t, i, plan, c);
    case _ =>
  }

  /** On numbered histories the highest version of a slot is how many it has. */
  lemma {:induction false} LatestIsCount(values: seq<Change>, slot: Slot)
    requires Numbered(values)
    ensures Latest(values, slot) == Count(values, slot)
  {
    if values != [] {
      var before := values[..|values| - 1];
      forall k | 0 <= k < |before| ensures before[k].version == Count(before[..k], before[k].slot) + 1 {
        assert before[..k] == values[..k];
      }
      LatestIsCount(before, slot);
    }
  }

  /** Every number up to a slot's count is the version of one of its rows. */
  lemma {:induction false} VersionExists(values: seq<Change>, slot: Slot, v: nat)
    requires Numbered(values) && 1 <= v <= Count(values, slot)
    ensures Taken(values, slot, v)
  {
    var n := |values| - 1;
    var before := values[..n];
    if values[n].slot == slot && v == Count(before, slot) + 1 {
      assert values[n].version == v;
    } else {
      forall k | 0 <= k < n ensures before[k].version == Count(before[..k], before[k].slot) + 1 {
        assert before[..k] == values[..k];
      }
      VersionExists(before, slot, v);
      var k :| 0 <= k < |before| && before[k].slot == slot && before[k].version == v;
      assert values[k].slot == slot && values[k].version == v;
    }
  }

  lemma ApplyKeepsNumbers(values: seq<Change>, c: Change)
    requires Numbered(values) && 1 <= c.version <= Count(values, c.slot) + 1
    requires !Taken(values, c.slot, c.version)
    ensures Numbered(values + [c])
  {
    if c.version <= Count(values, c.slot) {
      VersionExists(values, c.slot, c.version);
    }
    var more := values + [c];
    forall k | 0 <= k < |more| ensures more[k].version == Count(more[..k], more[k].slot) + 1 {
      assert more[..k] == values[..k];
      if k == |values| {
        assert values[..k] == values;
      }
    }
  }

  /** A resumed call reaches only points it is entitled to: deciding and proposing. */
  lemma DecidingHolds(s: State, i: nat)
    requires Inv(s) && i < |s.calls|
    requires s.calls[i].point.ReadDefinitions? || s.calls[i].point.ReadPending? || s.calls[i].point.PutPending?
    ensures CallHolds(ResumeCall(s, i), i)
  {
    hide Latest, Numbered;
    assert CallHolds(s, i);
    if s.calls[i].point.ReadPending? && s.calls[i].request.slot in s.pending {
      var open := s.pending[s.calls[i].request.slot];
      assert s.calls[open.writer].point == Done(Pending(open));
    }
  }

  /** The same for the writes. */
  lemma NumberingHolds(s: State, i: nat, t: State)
    requires Inv(s) && i < |s.calls| && t == ResumeCall(s, i) && Grows(s, t) && s.calls[i].point.ReadValues?
    ensures CallHolds(t, i)
  {
    var plan := s.calls[i].point.plan;
    assert CallHolds(s, i);
    PlanKept(s, t, i, plan);
    LatestIsCount(s.values, s.calls[i].request.slot);
    hide Inv, PlanHolds, Latest, Count, Grows;
    assert t.values == s.values;
  }

  lemma StoringHolds(s: State, i: nat, t: State)
    requires Inv(s) && i < |s.calls| && t == ResumeCall(s, i) && Grows(s, t) && s.calls[i].point.ApplyChange?
    ensures CallHolds(t, i)
  {
    hide ValuesHold, PendingHolds, Numbered, Latest, Taken, Count, PlanHolds;
    var plan, c := s.calls[i].point.plan, s.calls[i].point.change;
    assert CallHolds(s, i);
    PlanKept(s, t, i, plan);
    hide Inv, Grows;
    if t.calls[i].point.AppendAudit? {
      var k := |s.values|;
      assert t.values[k] == c && t.origins[k] == Origin(i, plan);
    }
  }

  lemma FinishingHolds(s: State, i: nat, t: State)
    requires Inv(s) && i < |s.calls| && t == ResumeCall(s, i) && Grows(s, t)
    requires s.calls[i].point.AppendAudit? || s.calls[i].point.ClearPending?
    ensures CallHolds(t, i)
  {
    hide FourEyes, Latest, Numbered, Count;
    assert CallHolds(s, i);
    var plan, c := s.calls[i].point.plan, s.calls[i].point.change;
    PlanKept(s, t, i, plan);
    StoredKept(s, t, i, plan, c);
    assert t.calls[i].point != Done(Threw) ==> Audited(t, i, plan, c);
  }

  lemma CallsHold(s: State, e: Event, i: nat)
    requires Inv(s) && i < |Step(s, e).calls|
    ensures CallHolds(Step(s, e), i)
  {
    var t := Step(s, e);
    StepGrows(s, e);
    StepEffect(s, e);
    assert e.Arrive? && i == |s.calls| ==> t.calls[i].point == ReadDefinitions;
    hide ResumeCall, ValuesHold, PendingHolds;
    if i < |s.calls| && t.calls[i] == s.calls[i] {
      CallKept(s, t, i);
    } else if e.Resume? {
      hide CallHolds;
      match s.calls[i].point
      case ReadValues(_) => NumberingHolds(s, i, t);
      case ApplyChange(_, _) => StoringHolds(s, i, t);
      case AppendAudit(_, _) => FinishingHolds(s, i, t);
      case ClearPending(_, _) => FinishingHolds(s, i, t);
      case _ => DecidingHolds(s, i);
    }
  }

  ghost predicate PendingHolds(s: State) {
    forall slot | slot in s.pending ::
      s.pending[slot].slot == slot && ProposalHolds(s, s.pending[slot])
      && s.calls[s.pending[slot].writer].point == Done(Pending(s.pending[slot]))
  }

  lemma StepKeepsPending(s: State, e: Event)
    requires Inv(s)
    ensures PendingHolds(Step(s, e))
  {
    StepGrows(s, e);
    StepEffect(s, e);
    if e.Resume? && e.call < |s.calls| {
      assert CallHolds(s, e.call);
    }
    hide Step, ValuesHold, PlanHolds, Taken;
  }

  ghost predicate ValuesHold(s: State)
    requires |s.origins| == |s.values|
  {
    && Numbered(s.values)
    && forall k | 0 <= k < |s.values| ::
         PlanHolds(s, s.origins[k].call, s.origins[k].plan)
         && ChangeOf(s, s.origins[k].call, s.origins[k].plan, s.values[k])
  }

  lemma StepKeepsValues(s: State, e: Event)
    requires Inv(s)
    ensures Grows(s, Step(s, e)) && ValuesHold(Step(s, e))
  {
    var t := Step(s, e);
    StepGrows(s, e);
    StepEffect(s, e);
    hide Step, PendingHolds, FourEyes;
    var n := |s.values|;
    forall k | 0 <= k < n
      ensures PlanHolds(t, t.origins[k].call, t.origins[k].plan)
      ensures ChangeOf(t, t.origins[k].call, t.origins[k].plan, t.values[k])
    {
      assert t.values[k] == t.values[..n][k] && t.origins[k] == t.origins[..n][k];
      PlanKept(s, t, s.origins[k].call, s.origins[k].plan);
    }
    if |t.values| > n {
      assert CallHolds(s, e.call);
      var point := s.calls[e.call].point;
      assert t.origins[n] == Origin(e.call, point.plan);
      PlanKept(s, t, e.call, point.plan);
      ApplyKeepsNumbers(s.values, point.change);
    }
  }

  lemma StepKeepsAudit(s: State, e: Event)
    requires Inv(s)
    ensures forall r | r in Step(s, e).audit :: r.change in Step(s, e).values
  {
    var t := Step(s, e);
    StepGrows(s, e);
    StepEffect(s, e);
    hide Step, PendingHolds, ValuesHold, FourEyes;
    forall r | r in t.audit ensures r.change in t.values {
      if r in s.audit {
        var k :| 0 <= k < |s.values| && s.values[k] == r.change;
        assert t.values[k] == t.values[..|s.values|][k];
      } else {
        assert CallHolds(s, e.call);
        assert r.change == s.calls[e.call].point.change;
      }
    }
  }

  lemma StepKeepsInv(s: State, e: Event)
    requires Inv(s)
    ensures Inv(Step(s, e)) && Step(s, e).definitions == s.definitions
  {
    StepKeepsValues(s, e);
    StepKeepsPending(s, e);
    StepKeepsAudit(s, e);
    forall i: nat | i < |Step(s, e).calls| ensures CallHolds(Step(s, e), i) {
      CallsHold(s, e, i);
    }
    hide Step, CallHolds, ProposalHolds, PlanHolds, ChangeOf, Numbered;
  }

  lemma StartHolds(definitions: map<string, Definition>)
    ensures Inv(Start(definitions))
  {
  }

  lemma {:induction false} RunKeepsInv(definitions: map<string, Definition>, schedule: seq<Event>)
    ensures Inv(Run(Start(definitions), schedule))
    ensures Run(Start(definitions), schedule).definitions == definitions
    decreases |schedule|
  {
    hide Inv, Step;
    StartHolds(definitions);
    if schedule != [] {
      RunKeepsInv(definitions, schedule[..|schedule| - 1]);
      StepKeepsInv(Run(Start(definitions), schedule[..|schedule| - 1]), schedule[|schedule| - 1]);
    }
  }

  // ------------------------------------------------------------ main results

  /**
   * What an auditor must be able to reconstruct behind a stored guarded value:
   * two different calls, a person approving exactly this value in one, the same
   * value proposed in the author's name by the other and already answered
   * `pending`; one person behind both only under the master-admin exemption.
   */
  ghost predicate SeenByTwo(s: State, c: Change) {
    exists a: nat, p: nat ::
      && a != p && a < |s.calls| && Proposed(s, p, c.slot, c.value.canonical, c.changedBy)
      && s.calls[a].request.slot == c.slot && s.calls[a].request.value == c.value
      && s.calls[a].request.actor.Human? && c.approvedBy == Some(s.calls[a].request.actor)
      && !c.changedBy.Unclassified?
      && (SamePerson(c.changedBy, s.calls[a].request.actor) ==> FOUR_EYES_GROUP in s.calls[a].request.groups)
  }

  /** Four eyes over every interleaving: no schedule stores a guarded value fewer than two calls saw. */
  lemma EveryGuardedValueIsSeenByTwo(definitions: map<string, Definition>, schedule: seq<Event>, k: nat)
    requires var s := Run(Start(definitions), schedule); k < |s.values| && Guarded(s, s.values[k].slot)
    ensures var s := Run(Start(definitions), schedule); SeenByTwo(s, s.values[k])
  {
    var s := Run(Start(definitions), schedule);
    RunKeepsInv(definitions, schedule);
    var a, plan := s.origins[k].call, s.origins[k].plan;
    assert PlanHolds(s, a, plan) && ChangeOf(s, a, plan, s.values[k]);
    assert plan.confirms != a;
  }

  /**
   * The trail: a call that answered `applied` left a record of that very
   * version, marked as a solo approval exactly when one person stands on both
   * sides of it, and no record speaks of a version that was not stored.
   */
  lemma EveryAppliedValueIsAudited(definitions: map<string, Definition>, schedule: seq<Event>, i: nat)
    requires var s := Run(Start(definitions), schedule); i < |s.calls| && s.calls[i].point.Done? && s.calls[i].point.outcome.Applied?
    ensures var s := Run(Start(definitions), schedule);
            var c := s.calls[i].point.outcome.change;
            && c in s.values
            && exists r | r in s.audit ::
                 && r.change == c && r.actor == s.calls[i].request.actor
                 && (Guarded(s, c.slot) ==> !c.changedBy.Unclassified? && !r.actor.Unclassified?
                                            && (r.solo <==> SamePerson(c.changedBy, r.actor)))
    ensures forall r | r in Run(Start(definitions), schedule).audit :: r.change in Run(Start(definitions), schedule).values
  {
    var s := Run(Start(definitions), schedule);
    RunKeepsInv(definitions, schedule);
    hide Run, PendingHolds, Numbered, Proposed;
    assert CallHolds(s, i);
    var c := s.calls[i].point.outcome.change;
    var plan :| Audited(s, i, plan, c);
    var k :| 0 <= k < |s.values| && k < |s.origins| && s.values[k] == c && s.origins[k] == Origin(i, plan);
    assert PlanHolds(s, i, plan) && ChangeOf(s, i, plan, c);
    assert Record(s.calls[i].request.actor, c, plan.solo) in s.audit;
  }

  lemma {:induction false} VersionIsInRange(values: seq<Change>, k: nat)
    requires Numbered(values) && k < |values|
    ensures 1 <= values[k].version <= Count(values, values[k].slot)
  {
    CountGrows(values, k + 1, values[k].slot);
    assert values[..k + 1][..k] == values[..k];
  }

  /**
   * Versions under every interleaving: those of a slot are exactly 1..n, each
   * borne by one row, and the database key refuses a write exactly when it does
   * not follow the latest version, which is the in-memory store's rule.
   */
  lemma VersionsAreExact(definitions: map<string, Definition>, schedule: seq<Event>, slot: Slot)
    ensures var s := Run(Start(definitions), schedule);
            forall v: nat :: Taken(s.values, slot, v) <==> 1 <= v <= Count(s.values, slot)
    ensures var s := Run(Start(definitions), schedule);
            forall j, k | 0 <= j < k < |s.values| && s.values[j].slot == s.values[k].slot :: s.values[j].version < s.values[k].version
    ensures var s := Run(Start(definitions), schedule);
            forall i | 0 <= i < |s.calls| && s.calls[i].point.ApplyChange? ::
              var c := s.calls[i].point.change;
              Taken(s.values, c.slot, c.version) <==> c.version != Latest(s.values, c.slot) + 1
  {
    var s := Run(Start(definitions), schedule);
    RunKeepsInv(definitions, schedule);
    hide Run, CallHolds, PlanHolds, ChangeOf, PendingHolds;
    forall v: nat, other: Slot ensures Taken(s.values, other, v) <==> 1 <= v <= Count(s.values, other) {
      if 1 <= v <= Count(s.values, other) {
        VersionExists(s.values, other, v);
      }
      if Taken(s.values, other, v) {
        var k :| 0 <= k < |s.values| && s.values[k].slot == other && s.values[k].version == v;
        VersionIsInRange(s.values, k);
      }
    }
    forall j, k | 0 <= j < k < |s.values| && s.values[j].slot == s.values[k].slot
      ensures s.values[j].version < s.values[k].version
    {
      assert s.values[..k][..j] == s.values[..j];
      CountGrows(s.values[..k], j + 1, s.values[j].slot);
      assert s.values[..k][..j + 1][..j] == s.values[..j];
    }
    forall i | 0 <= i < |s.calls| && s.calls[i].point.ApplyChange?
      ensures var c := s.calls[i].point.change;
              Taken(s.values, c.slot, c.version) <==> c.version != Latest(s.values, c.slot) + 1
    {
      var c := s.calls[i].point.change;
      LatestIsCount(s.values, c.slot);
      assert 1 <= c.version <= Count(s.values, c.slot) + 1 by {
        ApplyingVersionIsClose(s, i);
      }
    }
  }

  lemma ApplyingVersionIsClose(s: State, i: nat)
    requires Inv(s) && i < |s.calls| && s.calls[i].point.ApplyChange?
    ensures 1 <= s.calls[i].point.change.version <= Count(s.values, s.calls[i].point.change.slot) + 1
  {
    assert CallHolds(s, i);
  }
}
