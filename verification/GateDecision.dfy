/**
 * Closing an approval gate: apps/bff/src/gate-decision.ts, one step per await,
 * with any number of decisions, workflow moves, directory changes and other
 * writers of the audit trail in between. The trail refuses a gate decision that
 * is not a person's (packages/audit/src/chain.ts).
 */
module GateDecision {
  import opened Wrappers
  import opened Actors

  datatype RunState = RunState(step: string, atGate: bool)

  datatype Request = Request(
    ticket: string,
    approve: bool,
    reason: Option<string>,
    actor: Actor,
    membershipId: string,
    fromStudio: bool)

  /** A `GATE_APPROVE` or `GATE_REJECT` record. */
  datatype GateRecord = GateRecord(actor: Actor, approve: bool, subject: string, step: string, group: string, fromStudio: bool, reason: Option<string>)

  datatype Entry = GateEntry(record: GateRecord) | OtherEntry

  /** The `gateDecision` signal; `signatureSeq` is a position in the trail, counted from 1. */
  datatype Signal = Signal(ticket: string, step: string, approve: bool, actor: Actor, group: string, signatureSeq: nat, fromStudio: bool, reason: Option<string>)

  datatype Failure = NoRun | NoOpenGate | NotMember | NotDelivered

  datatype Result = Closed(step: string, group: string, signatureSeq: nat) | Refused(why: Failure)

  datatype Phase =
    | Asked
    | SawGate(step: string)
    | SawOwner(step: string, group: string)
    | SawMember(step: string, group: string)
    | Signed(step: string, group: string, signatureSeq: nat)
    | Done(result: Result)
    | Threw

  /** `asked` is history: which fact is this call's answer that the gate is open. */
  datatype Call = Call(request: Request, phase: Phase, asked: nat)

  /**
   * What the engine saw, in order: the questions after an open gate, the moves of
   * the workflow, and the decisions it was sent. A delivery notes whose call sent
   * it, when that call asked, and the step the run was at then.
   */
  datatype Fact =
    | OpenAt(ticket: string, step: string)
    | Delivered(caller: nat, signal: Signal, asked: nat, runAt: string)
    | Moved(ticket: string, run: Option<RunState>)

  datatype World = World(
    runs: map<string, RunState>,
    owners: map<(string, string), string>,
    members: set<(string, string)>,
    trail: seq<Entry>,
    facts: seq<Fact>,
    calls: map<nat, Call>)

  datatype Event =
    | Decide(who: nat, request: Request)
    | Turn(who: nat, fault: bool)
    | Move(ticket: string, run: Option<RunState>)
    | Reassign(step: string, project: string, owner: Option<string>)
    | Enrol(membershipId: string, group: string, member: bool)
    | WriteElsewhere

  // ---------------------------------------------------------------- the code

  predicate IsApprovalGate(step: string) {
    step in {"4", "5", "9", "11", "12"}
  }

  /** `projectKeyOf` of a ticket key: what stands before its first dash. */
  function ProjectKeyOf(ticket: string): string {
    if ticket == "" || ticket[0] == '-' then "" else [ticket[0]] + ProjectKeyOf(ticket[1..])
  }

  function RecordOf(r: Request, step: string, group: string): GateRecord {
    GateRecord(r.actor, r.approve, r.ticket, step, group, r.fromStudio, r.reason)
  }

  function SignalOf(r: Request, step: string, group: string, signatureSeq: nat): Signal {
    Signal(r.ticket, step, r.approve, r.actor, group, signatureSeq, r.fromStudio, r.reason)
  }

  /** One await of `decideGate`, call `who`: the next phase, the trail and the new facts. */
  function Next(w: World, who: nat, c: Call): (Phase, seq<Entry>, seq<Fact>) {
    var r := c.request;
    match c.phase
    case Asked =>
      if r.ticket !in w.runs then (Done(Refused(NoRun)), w.trail, [])
      else if !w.runs[r.ticket].atGate || !IsApprovalGate(w.runs[r.ticket].step) then (Done(Refused(NoOpenGate)), w.trail, [])
      else (SawGate(w.runs[r.ticket].step), w.trail, [OpenAt(r.ticket, w.runs[r.ticket].step)])
    case SawGate(step) =>
      var key := (step, ProjectKeyOf(r.ticket));
      if key !in w.owners then (Done(Refused(NoOpenGate)), w.trail, [])
      else (SawOwner(step, w.owners[key]), w.trail, [])
    case SawOwner(step, group) =>
      if (r.membershipId, group) !in w.members then (Done(Refused(NotMember)), w.trail, [])
      else (SawMember(step, group), w.trail, [])
    case SawMember(step, group) =>
      if !r.actor.Human? then (Threw, w.trail, [])
      else
        (Signed(step, group, |w.trail| + 1), w.trail + [GateEntry(RecordOf(r, step, group))], [])
    case Signed(step, group, signatureSeq) =>
      if r.ticket !in w.runs then (Done(Refused(NotDelivered)), w.trail, [])
      else (Done(Closed(step, group, signatureSeq)), w.trail, [Delivered(who, SignalOf(r, step, group, signatureSeq), c.asked, w.runs[r.ticket].step)])
    case _ => (c.phase, w.trail, [])
  }

  function After(w: World, c: Call, phase: Phase): Call {
    c.(phase := phase, asked := if c.phase.Asked? then |w.facts| else c.asked)
  }

  function Set(runs: map<string, RunState>, ticket: string, run: Option<RunState>): map<string, RunState> {
    if run.Some? then runs[ticket := run.value] else runs - {ticket}
  }

  function Step(w: World, e: Event): World {
    match e
    case Decide(who, request) =>
      if who in w.calls then w else w.(calls := w.calls[who := Call(request, Asked, 0)])
    case Turn(who, fault) =>
      if who !in w.calls || w.calls[who].phase.Done? then w
      else if fault then w.(calls := w.calls[who := w.calls[who].(phase := Threw)])
      else
        var (phase, trail, facts) := Next(w, who, w.calls[who]);
        w.(trail := trail, facts := w.facts + facts, calls := w.calls[who := After(w, w.calls[who], phase)])
    case Move(ticket, run) =>
      w.(runs := Set(w.runs, ticket, run), facts := w.facts + [Moved(ticket, run)])
    case Reassign(step, project, owner) =>
      w.(owners := if owner.Some? then w.owners[(step, project) := owner.value] else w.owners - {(step, project)})
    case Enrol(membershipId, group, member) =>
      w.(members := if member then w.members + {(membershipId, group)} else w.members - {(membershipId, group)})
    case WriteElsewhere =>
      w.(trail := w.trail + [OtherEntry])
  }

  function Run(w: World, schedule: seq<Event>): World
    decreases schedule
  {
    if schedule == [] then w else Run(Step(w, schedule[0]), schedule[1..])
  }

  function Begin(runs: map<string, RunState>, owners: map<(string, string), string>, members: set<(string, string)>, trail: seq<Entry>): World {
    World(runs, owners, members, trail, [], map[])
  }

  // -------------------------------------------------------------- invariants

  predicate Records(record: GateRecord, s: Signal) {
    record == GateRecord(s.actor, s.approve, s.ticket, s.step, s.group, s.fromStudio, s.reason)
  }

  /** The record a signal points at. */
  predicate Evidenced(trail: seq<Entry>, s: Signal) {
    1 <= s.signatureSeq <= |trail| && trail[s.signatureSeq - 1].GateEntry? && Records(trail[s.signatureSeq - 1].record, s)
  }

  ghost predicate FactsInv(facts: seq<Fact>, trail: seq<Entry>) {
    && (forall k | 0 <= k < |facts| && facts[k].Delivered? :: Evidenced(trail, facts[k].signal))
    && (forall j, k | 0 <= j < k < |facts| && facts[j].Delivered? && facts[k].Delivered? :: facts[j].signal.signatureSeq != facts[k].signal.signatureSeq)
  }

  ghost predicate NotYetDelivered(facts: seq<Fact>, signatureSeq: nat) {
    forall k | 0 <= k < |facts| && facts[k].Delivered? :: facts[k].signal.signatureSeq != signatureSeq
  }

  ghost predicate WasDelivered(facts: seq<Fact>, s: Signal) {
    exists f :: f in facts && f.Delivered? && f.signal == s
  }

  ghost predicate CallInv(facts: seq<Fact>, trail: seq<Entry>, c: Call) {
    var r := c.request;
    match c.phase
    case Signed(step, group, signatureSeq) =>
      && 1 <= signatureSeq <= |trail| && trail[signatureSeq - 1] == GateEntry(RecordOf(r, step, group))
      && NotYetDelivered(facts, signatureSeq)
    case Done(Closed(step, group, signatureSeq)) => WasDelivered(facts, SignalOf(r, step, group, signatureSeq))
    case _ => true
  }

  /** What a call sent is what it answered. */
  predicate Sent(calls: map<nat, Call>, f: Fact) {
    f.Delivered? ==>
      && f.caller in calls && calls[f.caller].phase.Done? && calls[f.caller].phase.result.Closed?
      && var c := calls[f.caller];
      && f.signal == SignalOf(c.request, c.phase.result.step, c.phase.result.group, c.phase.result.signatureSeq)
  }

  ghost predicate OwnSignatures(w: World) {
    forall a, b | a in w.calls && b in w.calls && w.calls[a].phase.Signed? && w.calls[b].phase.Signed?
                  && w.calls[a].phase.signatureSeq == w.calls[b].phase.signatureSeq :: a == b
  }

  ghost predicate Inv(w: World) {
    && FactsInv(w.facts, w.trail)
    && (forall who | who in w.calls :: CallInv(w.facts, w.trail, w.calls[who]))
    && OwnSignatures(w)
    && (forall f | f in w.facts :: Sent(w.calls, f))
  }

  lemma TrailGrows(facts: seq<Fact>, trail: seq<Entry>, more: seq<Entry>)
    requires FactsInv(facts, trail)
    ensures FactsInv(facts, trail + more)
  {
    var longer := trail + more;
    forall k | 0 <= k < |facts| && facts[k].Delivered? ensures Evidenced(longer, facts[k].signal) {
      var s := facts[k].signal;
      assert longer[s.signatureSeq - 1] == trail[s.signatureSeq - 1];
    }
  }

  /** Other calls are untouched by a fact that does not deliver their signature. */
  lemma CallKeeps(facts: seq<Fact>, more: seq<Fact>, trail: seq<Entry>, longer: seq<Entry>, c: Call)
    requires CallInv(facts, trail, c) && trail <= longer
    requires c.phase.Signed? ==> NotYetDelivered(more, c.phase.signatureSeq)
    ensures CallInv(facts + more, longer, c)
  {
    hide ProjectKeyOf, IsApprovalGate;
    if c.phase.Signed? {
      var all := facts + more;
      forall k | 0 <= k < |all| && all[k].Delivered? ensures all[k].signal.signatureSeq != c.phase.signatureSeq {
        if k >= |facts| {
          assert all[k] == more[k - |facts|];
        }
      }
    }
  }

  /** A fact whose own condition holds can be added. */
  lemma FactAdded(facts: seq<Fact>, trail: seq<Entry>, f: Fact)
    requires FactsInv(facts, trail)
    requires f.Delivered? ==> Evidenced(trail, f.signal) && NotYetDelivered(facts, f.signal.signatureSeq)
    ensures FactsInv(facts + [f], trail)
  {
    hide Evidenced;
  }

  /** What one turn of a call leaves behind. */
  lemma NextKeeps(w: World, who: nat, c: Call)
    requires FactsInv(w.facts, w.trail) && CallInv(w.facts, w.trail, c)
    ensures var (phase, trail, facts) := Next(w, who, c);
            && w.trail <= trail
            && FactsInv(w.facts + facts, trail)
            && CallInv(w.facts + facts, trail, After(w, c, phase))
            && (phase.Signed? ==> phase == c.phase || phase.signatureSeq == |w.trail| + 1)
            && (forall f | f in facts && f.Delivered? ::
                  && c.phase.Signed? && f.caller == who && f.signal == SignalOf(c.request, c.phase.step, c.phase.group, c.phase.signatureSeq)
                  && phase == Done(Closed(c.phase.step, c.phase.group, c.phase.signatureSeq)))
  {
    hide ProjectKeyOf, IsApprovalGate, FactsInv;
    var (phase, trail, facts) := Next(w, who, c);
    TrailGrows(w.facts, w.trail, trail[|w.trail|..]);
    assert trail == w.trail + trail[|w.trail|..];
    if c.phase.SawMember? {
      SignatureIsNew(w.facts, w.trail);
    }
    if facts == [] {
      assert w.facts + facts == w.facts;
    } else {
      var f := facts[0];
      if c.phase.Signed? {
        var s := f.signal;
        assert Records(trail[s.signatureSeq - 1].record, s);
      }
      FactAdded(w.facts, trail, f);
      assert f in w.facts + facts;
    }
  }

  lemma SignatureIsNew(facts: seq<Fact>, trail: seq<Entry>)
    requires FactsInv(facts, trail)
    ensures NotYetDelivered(facts, |trail| + 1)
  {
  }

  lemma StepKeepsInv(w: World, e: Event)
    requires Inv(w)
    ensures Inv(Step(w, e))
  {
    var next := Step(w, e);
    if e.Turn? && e.who in w.calls && !w.calls[e.who].phase.Done? && !e.fault {
      TurnKeepsInv(w, e.who);
    } else if e.WriteElsewhere? {
      TrailGrows(w.facts, w.trail, [OtherEntry]);
      assert w.facts + [] == w.facts;
      CallsKeep(w, [], next.trail);
    } else if e.Move? {
      FactAdded(w.facts, w.trail, Moved(e.ticket, e.run));
      CallsKeep(w, [Moved(e.ticket, e.run)], w.trail);
    } else {
      hide FactsInv;
    }
  }

  /** Facts that deliver nothing, and a longer trail, leave every call as it was. */
  lemma CallsKeep(w: World, more: seq<Fact>, trail: seq<Entry>)
    requires Inv(w) && w.trail <= trail && forall f | f in more :: !f.Delivered?
    ensures forall a | a in w.calls :: CallInv(w.facts + more, trail, w.calls[a])
  {
    hide FactsInv, CallInv;
    forall a | a in w.calls ensures CallInv(w.facts + more, trail, w.calls[a]) {
      CallKeeps(w.facts, more, w.trail, trail, w.calls[a]);
    }
  }

  lemma TurnKeepsInv(w: World, who: nat)
    requires Inv(w) && who in w.calls && !w.calls[who].phase.Done?
    ensures Inv(Step(w, Turn(who, false)))
  {
    var next := Step(w, Turn(who, false));
    NextKeeps(w, who, w.calls[who]);
    SignedIsInTrail(w);
    hide FactsInv, CallInv, Next;
    var (phase, trail, facts) := Next(w, who, w.calls[who]);
    forall a | a in next.calls ensures CallInv(next.facts, next.trail, next.calls[a]) {
      if a != who {
        CallKeeps(w.facts, facts, w.trail, trail, w.calls[a]);
      }
    }
  }

  lemma SignedIsInTrail(w: World)
    requires Inv(w)
    ensures forall a | a in w.calls && w.calls[a].phase.Signed? :: w.calls[a].phase.signatureSeq <= |w.trail|
  {
    forall a | a in w.calls && w.calls[a].phase.Signed? ensures w.calls[a].phase.signatureSeq <= |w.trail| {
      assert CallInv(w.facts, w.trail, w.calls[a]);
    }
  }

  lemma {:induction false} RunKeepsInv(w: World, schedule: seq<Event>)
    requires Inv(w)
    ensures Inv(Run(w, schedule))
    decreases schedule
  {
    if schedule != [] {
      hide Inv, Step;
      StepKeepsInv(w, schedule[0]);
      RunKeepsInv(Step(w, schedule[0]), schedule[1..]);
    }
  }

  // ------------------------------------------------------------ main results

  /** No signature is ever delivered twice, and whoever is told the gate closed had theirs delivered. */
  lemma SignaturesAreUsedOnce(w: World, schedule: seq<Event>)
    requires w.facts == [] && w.calls == map[]
    ensures var end := Run(w, schedule);
            && (forall j, k | 0 <= j < k < |end.facts| && end.facts[j].Delivered? && end.facts[k].Delivered? ::
                  end.facts[j].signal.signatureSeq != end.facts[k].signal.signatureSeq)
            && (forall who | who in end.calls && end.calls[who].phase.Done? && end.calls[who].phase.result.Closed? ::
                  var c := end.calls[who];
                  WasDelivered(end.facts, SignalOf(c.request, c.phase.result.step, c.phase.result.group, c.phase.result.signatureSeq)))
  {
    hide Step;
    RunKeepsInv(w, schedule);
    hide Run;
    var end := Run(w, schedule);
    forall who | who in end.calls && end.calls[who].phase.Done? && end.calls[who].phase.result.Closed?
      ensures var c := end.calls[who];
              WasDelivered(end.facts, SignalOf(c.request, c.phase.result.step, c.phase.result.group, c.phase.result.signatureSeq))
    {
      assert CallInv(end.facts, end.trail, end.calls[who]);
    }
  }

  // ------------------------------------------- where the run is at delivery

  /** The runs as they stand after these facts. */
  function RunsAfter(runs: map<string, RunState>, facts: seq<Fact>): map<string, RunState> {
    if facts == [] then runs
    else
      var last, before := facts[|facts| - 1], RunsAfter(runs, facts[..|facts| - 1]);
      if last.Moved? then Set(before, last.ticket, last.run) else before
  }

  /** Where the last move of a ticket among these facts left it, if there is one. */
  function LastMove(facts: seq<Fact>, ticket: string): Option<Option<RunState>> {
    if facts == [] then None
    else
      var last := facts[|facts| - 1];
      if last.Moved? && last.ticket == ticket then Some(last.run) else LastMove(facts[..|facts| - 1], ticket)
  }

  /** No move among these facts took the ticket off the step, unless a later one brought it back. */
  predicate StillAt(facts: seq<Fact>, ticket: string, step: string) {
    var last := LastMove(facts, ticket);
    last.None? || (last.value.Some? && last.value.value.step == step)
  }

  lemma {:induction false} MovesTell(runs: map<string, RunState>, facts: seq<Fact>, a: nat, ticket: string)
    requires a <= |facts|
    ensures var was, now, last := RunsAfter(runs, facts[..a]), RunsAfter(runs, facts), LastMove(facts[a..], ticket);
            if last.None? then (ticket in now <==> ticket in was) && (ticket in now ==> now[ticket] == was[ticket])
            else (ticket in now <==> last.value.Some?) && (ticket in now ==> now[ticket] == last.value.value)
  {
    if a == |facts| {
      assert facts[..a] == facts && facts[a..] == [];
    } else {
      var before := facts[..|facts| - 1];
      MovesTell(runs, before, a, ticket);
      assert before[..a] == facts[..a] && before[a..] == facts[a..][..|facts[a..]| - 1];
    }
  }

  /** A call past its first answer found the run at its step. */
  predicate Asks(runs: map<string, RunState>, facts: seq<Fact>, asked: nat, ticket: string, step: string) {
    && asked < |facts| && facts[asked] == OpenAt(ticket, step)
    && ticket in RunsAfter(runs, facts[..asked]) && RunsAfter(runs, facts[..asked])[ticket].step == step
  }

  function StepOf(phase: Phase): Option<string> {
    match phase
    case SawGate(step) => Some(step)
    case SawOwner(step, _) => Some(step)
    case SawMember(step, _) => Some(step)
    case Signed(step, _, _) => Some(step)
    case _ => None
  }

  predicate DeliveryInv(runs: map<string, RunState>, facts: seq<Fact>, k: nat)
    requires k < |facts|
  {
    facts[k].Delivered? ==>
      && Asks(runs, facts[..k], facts[k].asked, facts[k].signal.ticket, facts[k].signal.step)
      && facts[k].signal.ticket in RunsAfter(runs, facts[..k]) && RunsAfter(runs, facts[..k])[facts[k].signal.ticket].step == facts[k].runAt
  }

  ghost predicate Tracked(runs: map<string, RunState>, w: World) {
    && w.runs == RunsAfter(runs, w.facts)
    && (forall who | who in w.calls && StepOf(w.calls[who].phase).Some? ::
          Asks(runs, w.facts, w.calls[who].asked, w.calls[who].request.ticket, StepOf(w.calls[who].phase).value))
    && (forall k | 0 <= k < |w.facts| :: DeliveryInv(runs, w.facts, k))
  }

  lemma AsksOn(runs: map<string, RunState>, facts: seq<Fact>, more: seq<Fact>, asked: nat, ticket: string, step: string)
    requires Asks(runs, facts, asked, ticket, step)
    ensures Asks(runs, facts + more, asked, ticket, step)
  {
    assert (facts + more)[..asked] == facts[..asked];
  }

  /** One more fact: what was tracked stays so. */
  lemma FactTracked(runs: map<string, RunState>, w: World, f: Fact)
    requires Tracked(runs, w)
    requires f.Delivered? ==> Asks(runs, w.facts, f.asked, f.signal.ticket, f.signal.step) && f.signal.ticket in w.runs && w.runs[f.signal.ticket].step == f.runAt
    ensures var facts := w.facts + [f];
            && (forall k | 0 <= k < |facts| :: DeliveryInv(runs, facts, k))
            && RunsAfter(runs, facts) == (if f.Moved? then Set(w.runs, f.ticket, f.run) else w.runs)
            && forall who | who in w.calls && StepOf(w.calls[who].phase).Some? ::
                 Asks(runs, facts, w.calls[who].asked, w.calls[who].request.ticket, StepOf(w.calls[who].phase).value)
  {
    var facts := w.facts + [f];
    assert facts[..|w.facts|] == w.facts;
    hide Asks;
    DeliveriesKeep(runs, w, f);
    hide DeliveryInv;
    forall who | who in w.calls && StepOf(w.calls[who].phase).Some?
      ensures Asks(runs, facts, w.calls[who].asked, w.calls[who].request.ticket, StepOf(w.calls[who].phase).value)
    {
      AsksOn(runs, w.facts, [f], w.calls[who].asked, w.calls[who].request.ticket, StepOf(w.calls[who].phase).value);
    }
  }

  lemma DeliveriesKeep(runs: map<string, RunState>, w: World, f: Fact)
    requires Tracked(runs, w)
    requires f.Delivered? ==> Asks(runs, w.facts, f.asked, f.signal.ticket, f.signal.step) && f.signal.ticket in w.runs && w.runs[f.signal.ticket].step == f.runAt
    ensures forall k | 0 <= k < |w.facts| + 1 :: DeliveryInv(runs, w.facts + [f], k)
  {
    hide Asks, RunsAfter, StepOf;
    var facts := w.facts + [f];
    assert facts[..|w.facts|] == w.facts;
    forall k | 0 <= k < |facts| ensures DeliveryInv(runs, facts, k) {
      if k < |w.facts| {
        assert DeliveryInv(runs, w.facts, k) && facts[..k] == w.facts[..k];
      }
    }
  }

  lemma TurnTracked(runs: map<string, RunState>, w: World, who: nat)
    requires Tracked(runs, w) && who in w.calls && !w.calls[who].phase.Done?
    ensures Tracked(runs, Step(w, Turn(who, false)))
  {
    hide IsApprovalGate, ProjectKeyOf, DeliveryInv, RunsAfter, StillAt, RecordOf;
    var c, next := w.calls[who], Step(w, Turn(who, false));
    var (phase, trail, facts) := Next(w, who, c);
    if facts == [] {
      assert next.facts == w.facts;
    } else {
      assert facts == [facts[0]];
      FactTracked(runs, w, facts[0]);
      TurnAsks(runs, w, who);
      hide Asks, Next;
    }
  }

  /** A turn that asked for the run has just seen what it asked for. */
  lemma TurnAsks(runs: map<string, RunState>, w: World, who: nat)
    requires Tracked(runs, w) && who in w.calls && !w.calls[who].phase.Done? && Next(w, who, w.calls[who]).2 != []
    ensures var c := Step(w, Turn(who, false)).calls[who];
            StepOf(c.phase).Some? ==> Asks(runs, w.facts + [Next(w, who, w.calls[who]).2[0]], c.asked, c.request.ticket, StepOf(c.phase).value)
  {
    hide IsApprovalGate, ProjectKeyOf, DeliveryInv, RunsAfter, StillAt, RecordOf;
    var c, facts := w.calls[who], Next(w, who, w.calls[who]).2;
    if c.phase.Asked? {
      assert (w.facts + [facts[0]])[..|w.facts|] == w.facts;
    } else if StepOf(c.phase).Some? {
      AsksOn(runs, w.facts, [facts[0]], c.asked, c.request.ticket, StepOf(c.phase).value);
    }
  }

  lemma StepTracked(runs: map<string, RunState>, w: World, e: Event)
    requires Tracked(runs, w)
    ensures Tracked(runs, Step(w, e))
  {
    hide Asks, DeliveryInv, Next, RunsAfter;
    match e {
      case Turn(who, fault) =>
        if who in w.calls && !w.calls[who].phase.Done? && !fault {
          TurnTracked(runs, w, who);
          hide Step;
        }
      case Move(ticket, run) => FactTracked(runs, w, Moved(ticket, run));
      case _ =>
    }
  }

  lemma {:induction false} RunTracked(runs: map<string, RunState>, w: World, schedule: seq<Event>)
    requires Tracked(runs, w)
    ensures Tracked(runs, Run(w, schedule))
    decreases schedule
  {
    if schedule != [] {
      hide Tracked, Step;
      StepTracked(runs, w, schedule[0]);
      RunTracked(runs, Step(w, schedule[0]), schedule[1..]);
    }
  }

  /**
   * The step is not read again after the first question. On every run a delivered
   * decision names the step its run is at exactly when no move since that question
   * took the ticket off it, or the last one brought it back.
   */
  lemma DecisionNamesTheCurrentStepExactlyWhen(w: World, schedule: seq<Event>, k: nat)
    requires w.facts == [] && w.calls == map[]
    requires k < |Run(w, schedule).facts| && Run(w, schedule).facts[k].Delivered?
    ensures var facts := Run(w, schedule).facts;
            && facts[k].asked < k && facts[facts[k].asked] == OpenAt(facts[k].signal.ticket, facts[k].signal.step)
            && facts[k].signal.ticket in RunsAfter(w.runs, facts[..k]) && RunsAfter(w.runs, facts[..k])[facts[k].signal.ticket].step == facts[k].runAt
            && (facts[k].runAt == facts[k].signal.step <==> StillAt(facts[facts[k].asked..k], facts[k].signal.ticket, facts[k].signal.step))
  {
    hide Step, RunsAfter, LastMove;
    assert Tracked(w.runs, w) by { NothingYet(w); }
    RunTracked(w.runs, w, schedule);
    var facts := Run(w, schedule).facts;
    assert DeliveryInv(w.runs, facts, k);
    var before, a := facts[..k], facts[k].asked;
    MovesTell(w.runs, before, a, facts[k].signal.ticket);
    assert before[a..] == facts[a..k] && before[..a] == facts[..a];
  }

  lemma NothingYet(w: World)
    requires w.facts == [] && w.calls == map[]
    ensures Tracked(w.runs, w)
  {
  }

  // ------------------------------------------------------ a step left behind

  /** The gate is asked, and the decision signed. */
  function Signing(who: nat, r: Request): seq<Event> {
    [Decide(who, r), Turn(who, false)] + [Turn(who, false), Turn(who, false)] + [Turn(who, false)]
  }

  lemma RunTwo(w: World, a: Event, b: Event, rest: seq<Event>)
    ensures Run(w, [a, b] + rest) == Run(Step(Step(w, a), b), rest)
  {
    hide Step;
    assert ([a, b] + rest)[1..] == [b] + rest && ([b] + rest)[1..] == rest;
    assert Run(w, [a, b] + rest) == Run(Step(w, a), [b] + rest);
  }

  /** A gate open to this signer. */
  predicate OpenTo(w: World, r: Request) {
    && r.actor.Human? && r.ticket in w.runs && w.runs[r.ticket].atGate && IsApprovalGate(w.runs[r.ticket].step)
    && (w.runs[r.ticket].step, ProjectKeyOf(r.ticket)) in w.owners
    && (r.membershipId, w.owners[(w.runs[r.ticket].step, ProjectKeyOf(r.ticket))]) in w.members
  }

  lemma SigningSigns(w: World, who: nat, r: Request, rest: seq<Event>) returns (signed: World)
    requires OpenTo(w, r) && who !in w.calls
    ensures Run(w, Signing(who, r) + rest) == Run(signed, rest)
    ensures signed.runs == w.runs && who in signed.calls && signed.calls[who].request == r
    ensures var step := w.runs[r.ticket].step;
            var group := w.owners[(step, ProjectKeyOf(r.ticket))];
            && signed.calls == w.calls[who := signed.calls[who]] && signed.calls[who].phase == Signed(step, group, |w.trail| + 1)
            && signed.trail == w.trail + [GateEntry(RecordOf(r, step, group))]
            && signed.owners == w.owners && signed.members == w.members
  {
    var turn := Turn(who, false);
    var w2 := Step(Step(w, Decide(who, r)), turn);
    assert w2.runs == w.runs && w2.owners == w.owners && w2.members == w.members && w2.calls[who].phase == SawGate(w.runs[r.ticket].step);
    var w4 := Step(Step(w2, turn), turn);
    signed := Step(w4, turn);
    hide Step, Next;
    assert Signing(who, r) + rest == [Decide(who, r), turn] + ([turn, turn] + ([turn] + rest));
    RunTwo(w, Decide(who, r), turn, [turn, turn] + ([turn] + rest));
    RunTwo(w2, turn, turn, [turn] + rest);
    assert ([turn] + rest)[1..] == rest;
  }

  /** A decision signed for one step reaches a run that has moved to any other, whenever the move comes in between. */
  lemma MovedOnRunGetsTheOldStep(w: World, who: nat, r: Request, elsewhere: RunState)
    requires OpenTo(w, r) && who !in w.calls && elsewhere.step != w.runs[r.ticket].step
    ensures var end := Run(w, Signing(who, r) + [Move(r.ticket, Some(elsewhere)), Turn(who, false)]);
            && end.facts != [] && end.facts[|end.facts| - 1].Delivered?
            && end.facts[|end.facts| - 1].signal.ticket == r.ticket && end.facts[|end.facts| - 1].signal.step == w.runs[r.ticket].step
            && r.ticket in end.runs && end.runs[r.ticket] == elsewhere
  {
    hide Run, OpenTo;
    var last := [Move(r.ticket, Some(elsewhere)), Turn(who, false)];
    var signed := SigningSigns(w, who, r, last);
    assert last + [] == last;
    RunTwo(signed, Move(r.ticket, Some(elsewhere)), Turn(who, false), []);
    var end := Step(Step(signed, Move(r.ticket, Some(elsewhere))), Turn(who, false));
    RunNothing(end);
  }

  lemma RunNothing(w: World)
    ensures Run(w, []) == w
  {
  }
}
