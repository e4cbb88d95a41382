/**
 * What had to happen, and when, before a gate decision of
 * apps/bff/src/gate-decision.ts reached the workflow: the moments of the call
 * that sent it, read off the schedule.
 */
module GateDecisionHistory {
  import opened Wrappers
  import opened Actors
  import opened GateDecision

  /** The world before step `n` of a schedule. */
  function Before(w: World, schedule: seq<Event>, n: nat): World
    requires n <= |schedule|
  {
    Run(w, schedule[..n])
  }

  lemma {:induction false} RunOneMore(w: World, schedule: seq<Event>, e: Event)
    ensures Run(w, schedule + [e]) == Step(Run(w, schedule), e)
    decreases schedule
  {
    hide Step;
    if schedule == [] {
      assert schedule + [e] == [e] && [e][1..] == [];
    } else {
      assert (schedule + [e])[1..] == schedule[1..] + [e];
      RunOneMore(Step(w, schedule[0]), schedule[1..], e);
    }
  }

  lemma NextWorld(w: World, schedule: seq<Event>, n: nat)
    requires n < |schedule|
    ensures Before(w, schedule, n + 1) == Step(Before(w, schedule, n), schedule[n])
  {
    assert schedule[..n + 1] == schedule[..n] + [schedule[n]];
    RunOneMore(w, schedule[..n], schedule[n]);
  }

  lemma FirstWorld(w: World, schedule: seq<Event>)
    ensures Before(w, schedule, 0) == w
  {
    assert schedule[..0] == [];
  }

  // ------------------------------------------------------------ the moments

  /** The steps at which a call got its answers and signed. */
  datatype Moments = Moments(asked: nat, owned: nat, proved: nat, signed: nat)

  /** The run stood open at an approval gate. */
  predicate GateOpen(w: World, r: Request, step: string) {
    r.ticket in w.runs && w.runs[r.ticket] == RunState(step, true) && IsApprovalGate(step)
  }

  predicate OwnedBy(w: World, r: Request, step: string, group: string) {
    (step, ProjectKeyOf(r.ticket)) in w.owners && w.owners[(step, ProjectKeyOf(r.ticket))] == group
  }

  /** A person's decision goes onto the trail, and its number is its place there. */
  predicate SignedAs(w: World, next: World, r: Request, step: string, group: string, signatureSeq: nat) {
    r.actor.Human? && signatureSeq == |next.trail| && next.trail == w.trail + [GateEntry(GateRecord(r.actor, r.approve, r.ticket, step, group, r.fromStudio, r.reason))]
  }

  predicate AskedAt(w: World, schedule: seq<Event>, who: nat, r: Request, step: string, n: nat)
    requires n < |schedule|
  {
    schedule[n] == Turn(who, false) && GateOpen(Before(w, schedule, n), r, step)
  }

  predicate OwnedAt(w: World, schedule: seq<Event>, who: nat, r: Request, step: string, group: string, n: nat)
    requires n < |schedule|
  {
    schedule[n] == Turn(who, false) && OwnedBy(Before(w, schedule, n), r, step, group)
  }

  /** The very account of the request belonged to the group. */
  predicate ProvedAt(w: World, schedule: seq<Event>, who: nat, r: Request, group: string, n: nat)
    requires n < |schedule|
  {
    schedule[n] == Turn(who, false) && (r.membershipId, group) in Before(w, schedule, n).members
  }

  predicate SignedAt(w: World, schedule: seq<Event>, who: nat, r: Request, step: string, group: string, signatureSeq: nat, n: nat)
    requires n < |schedule|
  {
    schedule[n] == Turn(who, false) && SignedAs(Before(w, schedule, n), Before(w, schedule, n + 1), r, step, group, signatureSeq)
  }

  /** What a call that is in this phase before step `n` has behind it. */
  predicate Behind(w: World, schedule: seq<Event>, n: nat, who: nat, r: Request, phase: Phase, m: Moments)
    requires n <= |schedule|
  {
    match phase
    case SawGate(step) => m.asked < n && AskedAt(w, schedule, who, r, step, m.asked)
    case SawOwner(step, group) =>
      m.asked < m.owned < n && AskedAt(w, schedule, who, r, step, m.asked) && OwnedAt(w, schedule, who, r, step, group, m.owned)
    case SawMember(step, group) =>
      && m.asked < m.owned < m.proved < n
      && AskedAt(w, schedule, who, r, step, m.asked) && OwnedAt(w, schedule, who, r, step, group, m.owned)
      && ProvedAt(w, schedule, who, r, group, m.proved)
    case Signed(step, group, signatureSeq) => m.signed < n && AllFour(w, schedule, who, r, step, group, signatureSeq, m)
    case Done(Closed(step, group, signatureSeq)) => m.signed < n && AllFour(w, schedule, who, r, step, group, signatureSeq, m)
    case _ => true
  }

  predicate AllFour(w: World, schedule: seq<Event>, who: nat, r: Request, step: string, group: string, signatureSeq: nat, m: Moments) {
    && m.asked < m.owned < m.proved < m.signed < |schedule|
    && AskedAt(w, schedule, who, r, step, m.asked) && OwnedAt(w, schedule, who, r, step, group, m.owned)
    && ProvedAt(w, schedule, who, r, group, m.proved) && SignedAt(w, schedule, who, r, step, group, signatureSeq, m.signed)
  }

  /** How one step takes a call on. */
  predicate Takes(w: World, after: World, e: Event, who: nat, c: Call, next: Call) {
    && next.request == c.request
    && match next.phase
       case SawGate(step) => next.phase == c.phase || (c.phase.Asked? && e == Turn(who, false) && GateOpen(w, c.request, step))
       case SawOwner(step, group) => next.phase == c.phase || (c.phase == SawGate(step) && e == Turn(who, false) && OwnedBy(w, c.request, step, group))
       case SawMember(step, group) =>
         next.phase == c.phase || (c.phase == SawOwner(step, group) && e == Turn(who, false) && (c.request.membershipId, group) in w.members)
       case Signed(step, group, signatureSeq) =>
         next.phase == c.phase || (c.phase == SawMember(step, group) && e == Turn(who, false) && SignedAs(w, after, c.request, step, group, signatureSeq))
       case Done(Closed(step, group, signatureSeq)) => next.phase == c.phase || c.phase == Signed(step, group, signatureSeq)
       case _ => true
  }

  lemma StepTakes(w: World, e: Event, who: nat)
    requires who in Step(w, e).calls
    ensures who in w.calls ==> Takes(w, Step(w, e), e, who, w.calls[who], Step(w, e).calls[who])
    ensures who !in w.calls ==> Step(w, e).calls[who].phase.Asked?
  {
    hide IsApprovalGate, ProjectKeyOf, SignalOf;
  }

  /** Every call has the moments of its phase behind it. */
  lemma {:induction false} MomentsOf(w: World, schedule: seq<Event>, n: nat, who: nat) returns (m: Moments)
    requires w.calls == map[] && n <= |schedule| && who in Before(w, schedule, n).calls
    ensures var c := Before(w, schedule, n).calls[who]; Behind(w, schedule, n, who, c.request, c.phase, m)
    decreases n
  {
    m := Moments(0, 0, 0, 0);
    FirstWorld(w, schedule);
    if n > 0 {
      NextWorld(w, schedule, n - 1);
      var was := Before(w, schedule, n - 1);
      StepTakes(was, schedule[n - 1], who);
      if who in was.calls {
        m := MomentsOf(w, schedule, n - 1, who);
        m := Onwards(w, schedule, n - 1, who, was.calls[who], Before(w, schedule, n).calls[who], m);
      }
    }
  }

  lemma Onwards(w: World, schedule: seq<Event>, n: nat, who: nat, c: Call, next: Call, m: Moments) returns (later: Moments)
    requires n < |schedule| && Behind(w, schedule, n, who, c.request, c.phase, m) && Takes(Before(w, schedule, n), Before(w, schedule, n + 1), schedule[n], who, c, next)
    ensures Behind(w, schedule, n + 1, who, next.request, next.phase, later)
  {
    hide Before, GateOpen, OwnedBy, SignedAs;
    later := m;
    if next.phase != c.phase {
      match next.phase
      case SawGate(_) => later := m.(asked := n);
      case SawOwner(_, _) => later := m.(owned := n);
      case SawMember(_, _) => later := m.(proved := n);
      case Signed(_, _, _) => later := m.(signed := n);
      case _ =>
    }
  }

  /**
   * Behind every delivered decision, on every run, stands one call and its
   * request: before it signed, the request's ticket was seen open at that gate,
   * the group was named the owner of the gate for its project, and the account of
   * that very request was found in the group, in this order. The signer is a
   * person, and the trail holds at the signature's position the record of this
   * request, step and group; the signal says the same.
   */
  lemma EveryDecisionIsEvidenced(w: World, schedule: seq<Event>, k: nat) returns (m: Moments)
    requires w.facts == [] && w.calls == map[]
    requires k < |Run(w, schedule).facts| && Run(w, schedule).facts[k].Delivered?
    ensures var end := Run(w, schedule);
            var who, s := end.facts[k].caller, end.facts[k].signal;
            && who in end.calls && end.calls[who].phase == Done(Closed(s.step, s.group, s.signatureSeq))
            && var r := end.calls[who].request;
            && AllFour(w, schedule, who, r, s.step, s.group, s.signatureSeq, m)
            && s == Signal(r.ticket, s.step, r.approve, r.actor, s.group, s.signatureSeq, r.fromStudio, r.reason)
            && 1 <= s.signatureSeq <= |end.trail| && end.trail[s.signatureSeq - 1] == GateEntry(GateRecord(r.actor, r.approve, r.ticket, s.step, s.group, r.fromStudio, r.reason))
  {
    assert schedule[..|schedule|] == schedule;
    RunKeepsInv(w, schedule);
    var end := Run(w, schedule);
    var f := end.facts[k];
    assert Sent(end.calls, f) && Evidenced(end.trail, f.signal);
    m := MomentsOf(w, schedule, |schedule|, f.caller);
    hide Run, Step, AskedAt, OwnedAt, ProvedAt, SignedAt, Inv;
  }

  // ------------------------------------------------- records and deliveries

  lemma {:induction false} TrailOnlyGrows(w: World, schedule: seq<Event>, low: nat, high: nat)
    requires low <= high <= |schedule|
    ensures Before(w, schedule, low).trail <= Before(w, schedule, high).trail
    decreases high
  {
    if low < high {
      TrailOnlyGrows(w, schedule, low, high - 1);
      NextWorld(w, schedule, high - 1);
      StepGrowsTrail(Before(w, schedule, high - 1), schedule[high - 1]);
      hide Before, Step;
    }
  }

  lemma StepGrowsTrail(w: World, e: Event)
    ensures w.trail <= Step(w, e).trail && |Step(w, e).trail| <= |w.trail| + 1
    ensures |Step(w, e).trail| > |w.trail| && Step(w, e).trail[|w.trail|].GateEntry? ==>
              && e.Turn? && !e.fault && e.who in w.calls && w.calls[e.who].phase.SawMember? && w.calls[e.who].request.actor.Human?
              && var c := w.calls[e.who];
              && Step(w, e).calls[e.who].phase == Signed(c.phase.step, c.phase.group, |w.trail| + 1)
              && Step(w, e).trail[|w.trail|].record == RecordOf(c.request, c.phase.step, c.phase.group)
  {
    hide IsApprovalGate, ProjectKeyOf, RecordOf, SignalOf;
  }

  /** The step that appended a gate record of this run. */
  lemma {:induction false} RecordWasSigned(w: World, schedule: seq<Event>, n: nat, q: nat) returns (at: nat)
    requires n <= |schedule| && |w.trail| <= q < |Before(w, schedule, n).trail| && Before(w, schedule, n).trail[q].GateEntry?
    ensures at < n && |Before(w, schedule, at).trail| == q && schedule[at].Turn? && !schedule[at].fault
    ensures Signs(w, schedule, at, schedule[at].who, q)
    decreases n
  {
    at := 0;
    FirstWorld(w, schedule);
    if n > 0 {
      var was := Before(w, schedule, n - 1);
      NextWorld(w, schedule, n - 1);
      StepGrowsTrail(was, schedule[n - 1]);
      if q < |was.trail| {
        hide Before, Step, Signs;
        at := RecordWasSigned(w, schedule, n - 1, q);
      } else {
        at := n - 1;
      }
    }
  }

  /** At step `n` call `who` signs the record at place `q`. */
  predicate Signs(w: World, schedule: seq<Event>, n: nat, who: nat, q: nat)
    requires n < |schedule|
  {
    var was, next := Before(w, schedule, n), Before(w, schedule, n + 1);
    && schedule[n] == Turn(who, false) && |was.trail| == q < |next.trail|
    && who in was.calls && was.calls[who].phase.SawMember? && who in next.calls
    && next.trail[q] == GateEntry(RecordOf(was.calls[who].request, was.calls[who].phase.step, was.calls[who].phase.group))
    && next.calls[who] == was.calls[who].(phase := Signed(was.calls[who].phase.step, was.calls[who].phase.group, q + 1))
  }

  /** The first turn of `who` after step `n` is `d`, it does not fail, and the ticket has a run then. */
  predicate Sends(w: World, schedule: seq<Event>, n: nat, who: nat, ticket: string, d: nat) {
    && n < d < |schedule| && schedule[d] == Turn(who, false) && ticket in Before(w, schedule, d).runs
    && forall i | n < i < d :: !(schedule[i].Turn? && schedule[i].who == who)
  }

  lemma StepKeepsOthers(w: World, e: Event, who: nat)
    requires who in w.calls && !(e.Turn? && e.who == who)
    ensures who in Step(w, e).calls && Step(w, e).calls[who] == w.calls[who]
  {
    hide Next;
  }

  /** A signed call as its next turn finds it; and what is left of it after that turn. */
  lemma {:induction false} SignedUntil(w: World, schedule: seq<Event>, n: nat, who: nat, c: Call, high: nat)
    requires n < high <= |schedule| && c.phase.Signed?
    requires who in Before(w, schedule, n + 1).calls && Before(w, schedule, n + 1).calls[who] == c
    ensures who in Before(w, schedule, high).calls
    ensures var now := Before(w, schedule, high).calls[who];
            && now.request == c.request
            && (now.phase == c.phase || now.phase.Threw? || now.phase.Done?)
            && (now.phase == c.phase <==> forall i | n < i < high :: !(schedule[i].Turn? && schedule[i].who == who))
            && (now.phase == Done(Closed(c.phase.step, c.phase.group, c.phase.signatureSeq)) <==>
                  exists d | n < d < high :: Sends(w, schedule, n, who, c.request.ticket, d))
            && (now.phase.Done? && now.phase.result.Closed? ==> now.phase == Done(Closed(c.phase.step, c.phase.group, c.phase.signatureSeq)))
    decreases high
  {
    if n + 1 < high {
      var e, was := schedule[high - 1], Before(w, schedule, high - 1);
      SignedUntil(w, schedule, n, who, c, high - 1);
      NextWorld(w, schedule, high - 1);
      if !(e.Turn? && e.who == who) {
        StepKeepsOthers(was, e, who);
        hide Before, Step;
        assert !Sends(w, schedule, n, who, c.request.ticket, high - 1);
      } else {
        TurnOfSigned(was, e.fault, who, was.calls[who].phase);
        hide Before, Step;
        assert Sends(w, schedule, n, who, c.request.ticket, high - 1) <==> was.calls[who].phase == c.phase && !e.fault && c.request.ticket in was.runs;
      }
    }
  }

  lemma TurnOfSigned(w: World, fault: bool, who: nat, phase: Phase)
    requires who in w.calls && w.calls[who].phase == phase && (phase.Signed? || phase.Threw? || phase.Done?)
    ensures who in Step(w, Turn(who, fault)).calls && Step(w, Turn(who, fault)).calls[who].request == w.calls[who].request
    ensures var now := Step(w, Turn(who, fault)).calls[who].phase;
            if phase.Signed? then
              now == if fault then Threw
                     else if w.calls[who].request.ticket in w.runs then Done(Closed(phase.step, phase.group, phase.signatureSeq))
                     else Done(Refused(NotDelivered))
            else now == phase
  {
    hide RecordOf, SignalOf;
  }

  ghost predicate HasDelivery(facts: seq<Fact>, signatureSeq: nat) {
    exists f :: f in facts && f.Delivered? && f.signal.signatureSeq == signatureSeq
  }

  /**
   * On every run each gate record on the trail was signed by exactly one call, and
   * reached the workflow exactly when that call's next turn came, did not fail,
   * and found a run for the ticket. Otherwise the record stands with no signal.
   */
  lemma RecordIsDeliveredExactlyWhen(w: World, schedule: seq<Event>, q: nat) returns (n: nat, who: nat)
    requires w.facts == [] && w.calls == map[]
    requires var end := Run(w, schedule); |w.trail| <= q < |end.trail| && end.trail[q].GateEntry?
    ensures var end := Run(w, schedule);
            && n < |schedule| && Signs(w, schedule, n, who, q) && who in end.calls
            && end.trail[q].record.subject == end.calls[who].request.ticket
            && (HasDelivery(end.facts, q + 1) <==> exists d :: Sends(w, schedule, n, who, end.calls[who].request.ticket, d))
  {
    var end := Run(w, schedule);
    assert schedule[..|schedule|] == schedule;
    n := RecordWasSigned(w, schedule, |schedule|, q);
    who := schedule[n].who;
    var signed := Before(w, schedule, n + 1);
    TrailOnlyGrows(w, schedule, n + 1, |schedule|);
    SignedUntil(w, schedule, n, who, signed.calls[who], |schedule|);
    RunKeepsInv(w, schedule);
    assert CallInv(end.facts, end.trail, end.calls[who]);
    if HasDelivery(end.facts, q + 1) {
      DeliveredBySigner(w, schedule, n, who, q);
    }
    hide Run, Step, Inv;
  }

  /** Only the signer of a place delivers it. */
  lemma DeliveredBySigner(w: World, schedule: seq<Event>, n: nat, who: nat, q: nat)
    requires w.facts == [] && w.calls == map[] && n < |schedule| && Signs(w, schedule, n, who, q)
    requires HasDelivery(Run(w, schedule).facts, q + 1)
    ensures var end := Run(w, schedule); who in end.calls && end.calls[who].phase.Done? && end.calls[who].phase.result.Closed?
  {
    var end := Run(w, schedule);
    var f :| f in end.facts && f.Delivered? && f.signal.signatureSeq == q + 1;
    var k :| 0 <= k < |end.facts| && end.facts[k] == f;
    var m := EveryDecisionIsEvidenced(w, schedule, k);
    hide Run, Step, Before;
    if m.signed < n {
      TrailOnlyGrows(w, schedule, m.signed + 1, n);
    } else if n < m.signed {
      TrailOnlyGrows(w, schedule, n + 1, m.signed);
    }
  }

  /** A request that is made again signs again: two calls, two records alike, under two numbers. */
  lemma RepeatedRequestSignsAgain(w: World, a: nat, b: nat, r: Request)
    requires OpenTo(w, r) && a != b && a !in w.calls && b !in w.calls
    ensures var end := Run(w, Signing(a, r) + Signing(b, r));
            && (exists record :: end.trail == w.trail + [GateEntry(record)] + [GateEntry(record)] && record.subject == r.ticket && record.actor == r.actor)
            && a in end.calls && end.calls[a].phase.Signed? && end.calls[a].phase.signatureSeq == |w.trail| + 1
            && b in end.calls && end.calls[b].phase.Signed? && end.calls[b].phase.signatureSeq == |w.trail| + 2
  {
    hide Run, Signing;
    var once := SigningSigns(w, a, r, Signing(b, r));
    assert OpenTo(once, r);
    hide OpenTo;
    assert Signing(b, r) + [] == Signing(b, r);
    var twice := SigningSigns(once, b, r, []);
    RunNothing(twice);
    var step := w.runs[r.ticket].step;
    var record := RecordOf(r, step, w.owners[(step, ProjectKeyOf(r.ticket))]);
    assert twice.trail == w.trail + [GateEntry(record)] + [GateEntry(record)];
  }
}
