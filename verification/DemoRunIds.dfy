/**
 * Whose id an approval of the delivery run carries: apps/demo/src/run.ts writes
 * `this.runId` into every record, and `start` replaces it.
 */
module DemoRunIds {
  import opened Wrappers
  import opened DemoRun

  /** How often `start` has taken effect in this trace. */
  function Begun(trace: seq<Event>): nat {
    if trace == [] then 0 else Begun(trace[..|trace| - 1]) + if trace[|trace| - 1].Began? then 1 else 0
  }

  lemma {:induction false} BegunGrows(trace: seq<Event>, low: nat, high: nat)
    requires low <= high <= |trace|
    ensures Begun(trace[..low]) <= Begun(trace[..high])
    ensures Begun(trace[..low]) == Begun(trace[..high]) <==> forall j | low <= j < high :: !trace[j].Began?
  {
    if low < high {
      BegunGrows(trace, low, high - 1);
      assert trace[..high][..high - 1] == trace[..high - 1];
    }
  }

  /** The id was taken at place `asked`, after the waiter was made, on the answer that `author` is a member. */
  ghost predicate TakenAt(t: seq<Event>, ws: seq<Waiter>, handler: nat, author: string, w: nat, runId: nat, asked: nat) {
    && w < |ws| && ws[w].born <= asked < |t| && t[asked] == Member(handler, author) && runId == Begun(t[..asked])
  }

  ghost predicate WaiterIds(t: seq<Event>, w: Waiter) {
    w.born <= |t| && w.run == Begun(t[..w.born])
  }

  ghost predicate HandlerIds(s: State, h: nat)
    requires h < |s.handlers|
  {
    match s.handlers[h]
    case CheckMembership(w, _) => w < |s.waiters|
    case RecordApproval(w, author, runId, asked) => TakenAt(s.trace, s.waiters, h, author, w, runId, asked)
    case _ => true
  }

  ghost predicate ApprovalIds(t: seq<Event>, ws: seq<Waiter>, i: nat)
    requires i < |t|
  {
    t[i].GateApproved? ==> t[i].asked < i && TakenAt(t, ws, t[i].handler, t[i].author, t[i].waiter, t[i].runId, t[i].asked)
  }

  ghost predicate Ids(s: State) {
    && s.run == Begun(s.trace)
    && (forall w | 0 <= w < |s.waiters| :: WaiterIds(s.trace, s.waiters[w]))
    && (forall h | 0 <= h < |s.handlers| :: HandlerIds(s, h))
    && (forall i | 0 <= i < |s.trace| :: ApprovalIds(s.trace, s.waiters, i))
    && (s.gate.Some? ==> s.gate.value < |s.waiters|)
  }

  /** What is taken stays taken as trace and waiters grow. */
  lemma TakenStays(t: seq<Event>, u: seq<Event>, ws: seq<Waiter>, vs: seq<Waiter>, handler: nat, author: string, w: nat, runId: nat, asked: nat)
    requires t <= u && Later(ws, vs) && TakenAt(t, ws, handler, author, w, runId, asked)
    ensures TakenAt(u, vs, handler, author, w, runId, asked)
  {
    assert u[..asked] == t[..asked];
  }

  /** A step writes at most one event, and it is `Began` exactly when the run number moves on. */
  lemma StepCountsRuns(s: State, a: Action)
    requires s.run == Begun(s.trace)
    ensures var t := Step(s, a); t.run == Begun(t.trace) && (t.trace == s.trace || (|t.trace| == |s.trace| + 1 && t.trace[..|s.trace|] == s.trace))
  {
    var t := Step(s, a);
    if a.RunOn? {
      RunStepLogs(s, a.answer, a.pr);
    } else if a.HandlerOn? && a.handler < |s.handlers| {
      HandlerStepLogs(s, a.handler, a.ok);
    }
    hide RunStep, HandlerStep, SettleCi;
    if t.trace != s.trace {
      assert t.trace[..|t.trace| - 1] == s.trace;
    }
  }

  /** Nothing is written, or one event that begins no run. */
  ghost predicate LogsNoStart(s: State, t: State) {
    && t.run == s.run
    && (t.trace == s.trace || (|t.trace| == |s.trace| + 1 && t.trace[..|s.trace|] == s.trace && !t.trace[|s.trace|].Began?))
  }

  lemma RunStepLogs(s: State, answer: Answer, pr: nat)
    ensures LogsNoStart(s, RunStep(s, answer, pr))
  {
  }

  lemma HandlerStepLogs(s: State, h: nat, ok: bool)
    requires h < |s.handlers|
    ensures LogsNoStart(s, HandlerStep(s, h, ok))
  {
    hide Settle, SettleCi;
  }

  lemma StepMakesWaiters(s: State, a: Action)
    requires s.gate.Some? ==> s.gate.value < |s.waiters|
    ensures var t := Step(s, a);
            && (t.gate.Some? ==> t.gate.value < |t.waiters|) && |s.waiters| <= |t.waiters|
            && (forall w | |s.waiters| <= w < |t.waiters| :: t.waiters[w].born == |t.trace| && t.waiters[w].run == t.run)
  {
    hide SettleCi;
  }

  lemma StepMovesHandlers(s: State, a: Action)
    requires s.gate.Some? ==> s.gate.value < |s.waiters|
    requires forall h | 0 <= h < |s.handlers| && s.handlers[h].CheckMembership? :: s.handlers[h].waiter < |s.waiters|
    ensures var t := Step(s, a);
            && |s.handlers| <= |t.handlers|
            && (forall h | 0 <= h < |t.handlers| :: (h < |s.handlers| && t.handlers[h] == s.handlers[h]) || HandlerMoved(s, t, h))
  {
    hide SettleCi;
    if a.RunOn? {
      RunStepLeavesHandlers(s, a);
      hide RunStep;
    }
  }

  lemma StepApproves(s: State, a: Action)
    ensures var t := Step(s, a);
            |t.trace| > |s.trace| && t.trace[|s.trace|].GateApproved? ==>
              && a.HandlerOn? && a.handler < |s.handlers| && s.handlers[a.handler].RecordApproval?
              && t.trace[|s.trace|] == GateApproved(a.handler, s.handlers[a.handler].author, s.handlers[a.handler].waiter,
                                                    s.handlers[a.handler].runId, s.handlers[a.handler].asked)
  {
    hide Settle, SettleCi;
  }

  /** A handler that moved waits for a waiter there is, or has just taken the id. */
  ghost predicate HandlerMoved(s: State, t: State, h: nat)
    requires h < |t.handlers|
  {
    match t.handlers[h]
    case CheckMembership(w, _) => w < |s.waiters| && |s.waiters| <= |t.waiters|
    case RecordApproval(w, author, runId, asked) =>
      w < |s.waiters| && asked == |s.trace| && runId == s.run && t.trace == s.trace + [Member(h, author)] && t.waiters == s.waiters
    case _ => true
  }

  lemma StepKeepsIds(s: State, a: Action)
    requires Ids(s)
    ensures Ids(Step(s, a))
  {
    var t := Step(s, a);
    assert forall h | 0 <= h < |s.handlers| && s.handlers[h].CheckMembership? :: HandlerIds(s, h);
    StepCountsRuns(s, a);
    StepMakesWaiters(s, a);
    StepMovesHandlers(s, a);
    StepGrows(s, a);
    StepKeepsApprovals(s, a);
    hide Step, HandlerMoved, HandlerIds, ApprovalIds, WaiterIds, TakenAt, Begun;
    forall w | 0 <= w < |t.waiters| ensures WaiterIds(t.trace, t.waiters[w]) {
      WaiterKeepsId(s, t, w);
    }
    forall h | 0 <= h < |t.handlers| ensures HandlerIds(t, h) {
      HandlerKeepsId(s, t, h);
    }
  }

  lemma StepKeepsApprovals(s: State, a: Action)
    requires Ids(s)
    ensures var t := Step(s, a); forall i | 0 <= i < |t.trace| :: ApprovalIds(t.trace, t.waiters, i)
  {
    var t := Step(s, a);
    StepCountsRuns(s, a);
    StepApproves(s, a);
    StepGrows(s, a);
    hide Step, HandlerMoved, HandlerIds, ApprovalIds, WaiterIds, TakenAt, Begun;
    forall i | 0 <= i < |t.trace| ensures ApprovalIds(t.trace, t.waiters, i) {
      if i < |s.trace| {
        ApprovalKeepsId(s, t, i);
      } else if t.trace[i].GateApproved? {
        NewApproval(s, t, a.handler);
      } else {
        NoApproval(t, i);
      }
    }
  }

  lemma WaiterKeepsId(s: State, t: State, w: nat)
    requires w < |t.waiters| && s.trace <= t.trace && Later(s.waiters, t.waiters) && t.run == Begun(t.trace)
    requires w < |s.waiters| ==> WaiterIds(s.trace, s.waiters[w])
    requires w >= |s.waiters| ==> t.waiters[w].born == |t.trace| && t.waiters[w].run == t.run
    ensures WaiterIds(t.trace, t.waiters[w])
  {
    if w < |s.waiters| {
      assert t.trace[..s.waiters[w].born] == s.trace[..s.waiters[w].born];
    } else {
      assert t.trace[..|t.trace|] == t.trace;
    }
  }

  lemma HandlerKeepsId(s: State, t: State, h: nat)
    requires Ids(s) && h < |t.handlers| && s.trace <= t.trace && Later(s.waiters, t.waiters)
    requires (h < |s.handlers| && t.handlers[h] == s.handlers[h]) || HandlerMoved(s, t, h)
    ensures HandlerIds(t, h)
  {
    if h < |s.handlers| && t.handlers[h] == s.handlers[h] {
      assert HandlerIds(s, h);
      if t.handlers[h].RecordApproval? {
        var r := t.handlers[h];
        TakenStays(s.trace, t.trace, s.waiters, t.waiters, h, r.author, r.waiter, r.runId, r.asked);
      }
    } else if t.handlers[h].RecordApproval? {
      assert WaiterIds(s.trace, s.waiters[t.handlers[h].waiter]);
      assert t.trace[..|s.trace|] == s.trace;
    }
  }

  lemma ApprovalKeepsId(s: State, t: State, i: nat)
    requires Ids(s) && i < |s.trace| && s.trace <= t.trace && Later(s.waiters, t.waiters)
    ensures i < |t.trace| && ApprovalIds(t.trace, t.waiters, i)
  {
    assert ApprovalIds(s.trace, s.waiters, i) && t.trace[i] == s.trace[i];
    if t.trace[i].GateApproved? {
      var e := t.trace[i];
      TakenStays(s.trace, t.trace, s.waiters, t.waiters, e.handler, e.author, e.waiter, e.runId, e.asked);
    }
  }

  lemma NewApproval(s: State, t: State, h: nat)
    requires Ids(s) && s.trace <= t.trace && Later(s.waiters, t.waiters) && |t.trace| > |s.trace|
    requires h < |s.handlers| && s.handlers[h].RecordApproval?
    requires t.trace[|s.trace|] == GateApproved(h, s.handlers[h].author, s.handlers[h].waiter, s.handlers[h].runId, s.handlers[h].asked)
    ensures ApprovalIds(t.trace, t.waiters, |s.trace|)
  {
    assert HandlerIds(s, h);
    var r := s.handlers[h];
    TakenStays(s.trace, t.trace, s.waiters, t.waiters, h, r.author, r.waiter, r.runId, r.asked);
  }

  lemma NoApproval(t: State, i: nat)
    requires i < |t.trace| && !t.trace[i].GateApproved?
    ensures ApprovalIds(t.trace, t.waiters, i)
  {
  }

  lemma {:induction false} RunKeepsIds(s: State, schedule: seq<Action>)
    requires Ids(s)
    ensures Ids(Run(s, schedule))
    decreases |schedule|
  {
    if schedule != [] {
      hide Ids, Step;
      StepKeepsIds(s, schedule[0]);
      RunKeepsIds(Step(s, schedule[0]), schedule[1..]);
    }
  }

  /**
   * An id is cut from the clock at `start`, to the second: `idOf` says which id each
   * run was given, and two runs may share one. On every run the record of an
   * approval carries the id of the run begun last before the membership answer it
   * follows. That is the id of the run whose gate it was for exactly when no
   * `start` took effect between the making of that gate's promise and the answer,
   * or the run begun last in between was given the same id again.
   */
  lemma ApprovalCarriesItsRunExactlyWhen(idOf: nat -> string, schedule: seq<Action>, i: nat)
    requires i < |Run(Init(), schedule).trace| && Run(Init(), schedule).trace[i].GateApproved?
    ensures var s := Run(Init(), schedule);
            var e := s.trace[i];
            && e.waiter < |s.waiters| && s.waiters[e.waiter].born <= e.asked < i && s.trace[e.asked] == Member(e.handler, e.author)
            && e.runId == Begun(s.trace[..e.asked])
            && (idOf(e.runId) == idOf(s.waiters[e.waiter].run) <==>
                  || (forall j | s.waiters[e.waiter].born <= j < e.asked :: !s.trace[j].Began?)
                  || (Begun(s.trace[..e.asked]) > s.waiters[e.waiter].run && idOf(Begun(s.trace[..e.asked])) == idOf(s.waiters[e.waiter].run)))
  {
    hide Step, HandlerIds;
    assert Ids(Init());
    RunKeepsIds(Init(), schedule);
    hide Run;
    var s := Run(Init(), schedule);
    var e := s.trace[i];
    assert ApprovalIds(s.trace, s.waiters, i) && WaiterIds(s.trace, s.waiters[e.waiter]);
    BegunGrows(s.trace, s.waiters[e.waiter].born, e.asked);
  }
}
