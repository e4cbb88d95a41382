/**
 * What really happened behind each record of the delivery run in
 * apps/demo/src/run.ts: the deliveries and answers on the schedule that had to
 * come before the code may write it.
 */
module DemoRunHistory {
  import opened Wrappers
  import opened DemoRun

  /** The run before action `n` of a schedule. */
  function Before(schedule: seq<Action>, n: nat): State
    requires n <= |schedule|
  {
    Run(Init(), schedule[..n])
  }

  lemma NextState(schedule: seq<Action>, n: nat)
    requires n < |schedule|
    ensures Before(schedule, n + 1) == Step(Before(schedule, n), schedule[n])
  {
    hide Step;
    var last := [schedule[n]];
    assert schedule[..n + 1] == schedule[..n] + last;
    RunInParts(Init(), schedule[..n], last);
    assert last[1..] == [];
  }

  lemma FirstState(schedule: seq<Action>)
    ensures Before(schedule, 0) == Init()
  {
    assert schedule[..0] == [];
  }

  // ------------------------------------------------------------ the handlers

  /** The actions that brought a handler to where it is. */
  datatype Path = Path(arrived: nat, verified: nat, member: nat)

  /** At `m` a delivery arrived and got handler `h`. */
  predicate ArrivedAt(schedule: seq<Action>, m: nat, h: nat, delivery: Action)
    requires m < |schedule|
  {
    schedule[m] == delivery && |Before(schedule, m).handlers| == h
  }

  /** At `m` what handler `h` awaited was answered with a yes. */
  predicate YesAt(schedule: seq<Action>, m: nat, h: nat, at: Handler)
    requires m < |schedule|
  {
    schedule[m] == HandlerOn(h, true) && h < |Before(schedule, m).handlers| && Before(schedule, m).handlers[h] == at
  }

  /** The signature of an approval was good while `w` was the gate. */
  predicate GoodSignatureAt(schedule: seq<Action>, m: nat, h: nat, author: string, w: nat)
    requires m < |schedule|
  {
    YesAt(schedule, m, h, Verify(Approve, author)) && Before(schedule, m).gate == Some(w)
  }

  /** What a handler that is at this point before action `n` has behind it. */
  predicate Behind(schedule: seq<Action>, n: nat, h: nat, at: Handler, p: Path)
    requires n <= |schedule|
  {
    match at
    case Verify(command, author) => p.arrived < n && ArrivedAt(schedule, p.arrived, h, Jira(command, author))
    case CheckMembership(w, author) =>
      && p.arrived < p.verified < n
      && ArrivedAt(schedule, p.arrived, h, Jira(Approve, author)) && GoodSignatureAt(schedule, p.verified, h, author, w)
    case RecordApproval(w, author, _, _) => p.member < n && Authorised(schedule, h, author, w, p)
    case ParseBuild(pr, succeeded) => p.arrived < n && ArrivedAt(schedule, p.arrived, h, Ado(pr, succeeded))
    case RecordCi(pr, succeeded) => p.verified < n && Built(schedule, h, pr, succeeded, p)
    case _ => true
  }

  predicate Authorised(schedule: seq<Action>, h: nat, author: string, w: nat, p: Path) {
    && p.arrived < p.verified < p.member < |schedule|
    && ArrivedAt(schedule, p.arrived, h, Jira(Approve, author)) && GoodSignatureAt(schedule, p.verified, h, author, w)
    && YesAt(schedule, p.member, h, CheckMembership(w, author))
  }

  predicate Built(schedule: seq<Action>, h: nat, pr: nat, succeeded: bool, p: Path) {
    && p.arrived < p.verified < |schedule|
    && ArrivedAt(schedule, p.arrived, h, Ado(pr, succeeded)) && YesAt(schedule, p.verified, h, ParseBuild(pr, succeeded))
  }

  /** How one action takes a handler on. */
  predicate Takes(s: State, a: Action, h: nat, was: Handler, next: Handler) {
    match next
    case Verify(_, _) => next == was
    case CheckMembership(w, author) => next == was || (was == Verify(Approve, author) && a == HandlerOn(h, true) && s.gate == Some(w))
    case RecordApproval(w, author, _, _) => next == was || (was == CheckMembership(w, author) && a == HandlerOn(h, true))
    case ParseBuild(_, _) => next == was
    case RecordCi(pr, succeeded) => next == was || (was == ParseBuild(pr, succeeded) && a == HandlerOn(h, true))
    case _ => true
  }

  lemma StepTakes(s: State, a: Action, h: nat)
    requires h < |Step(s, a).handlers|
    ensures h < |s.handlers| ==> Takes(s, a, h, s.handlers[h], Step(s, a).handlers[h])
    ensures h >= |s.handlers| ==>
              h == |s.handlers| && match Step(s, a).handlers[h]
                                   case Verify(command, author) => a == Jira(command, author)
                                   case ParseBuild(pr, succeeded) => a == Ado(pr, succeeded)
                                   case _ => false
  {
    hide Settle, SettleCi;
    if a.RunOn? {
      RunStepLeavesHandlers(s, a);
      hide RunStep;
    }
  }

  lemma {:induction false} PathOf(schedule: seq<Action>, n: nat, h: nat) returns (p: Path)
    requires n <= |schedule| && h < |Before(schedule, n).handlers|
    ensures Behind(schedule, n, h, Before(schedule, n).handlers[h], p)
    decreases n
  {
    p := Path(0, 0, 0);
    FirstState(schedule);
    if n > 0 {
      NextState(schedule, n - 1);
      var was := Before(schedule, n - 1);
      StepTakes(was, schedule[n - 1], h);
      if h < |was.handlers| {
        p := PathOf(schedule, n - 1, h);
        p := Onwards(schedule, n - 1, h, was.handlers[h], Before(schedule, n).handlers[h], p);
      } else {
        p := Path(n - 1, 0, 0);
        hide Step;
      }
    }
  }

  lemma Onwards(schedule: seq<Action>, n: nat, h: nat, was: Handler, next: Handler, p: Path) returns (later: Path)
    requires n < |schedule| && h < |Before(schedule, n).handlers| && Before(schedule, n).handlers[h] == was
    requires Behind(schedule, n, h, was, p) && Takes(Before(schedule, n), schedule[n], h, was, next)
    ensures Behind(schedule, n + 1, h, next, later)
  {
    hide Before;
    later := p;
    if next != was {
      match next
      case CheckMembership(_, _) => later := p.(verified := n);
      case RecordApproval(_, _, _, _) => later := p.(member := n);
      case RecordCi(_, _) => later := p.(verified := n);
      case _ =>
    }
  }

  // ----------------------------------------------------------------- the run

  /** At `m` run `run` was at `stage` and what it awaited came back with `answer`. */
  predicate AnsweredAt(schedule: seq<Action>, m: nat, run: nat, stage: Stage, answer: Answer)
    requires m < |schedule|
  {
    schedule[m].RunOn? && schedule[m].answer == answer && Before(schedule, m).stage == stage && Before(schedule, m).run == run
  }

  /** What a run at this stage before action `n` has just been answered, at `m`. */
  predicate Answered(schedule: seq<Action>, n: nat, run: nat, stage: Stage, m: nat)
    requires n <= |schedule|
  {
    match stage
    case RecordScan(attempt, clean) => m < n && AnsweredAt(schedule, m, run, Draft(attempt), if clean then Good else Bad)
    case RecordTest(attempt, passed) => m < n && AnsweredAt(schedule, m, run, Test(attempt), if passed then Good else Bad)
    case RecordPrOpened(attempt, pr) => m < n && AnsweredAt(schedule, m, run, OpenPr(attempt), Good) && schedule[m].pr == pr
    case RecordMerged(pr) => m < n && AnsweredAt(schedule, m, run, Merge(pr), Good)
    case _ => true
  }

  lemma StepAnswers(s: State, a: Action)
    ensures var t := Step(s, a);
            match t.stage
            case RecordScan(attempt, clean) =>
              t.run == s.run && (s.stage == t.stage || (a.RunOn? && a.answer == (if clean then Good else Bad) && s.stage == Draft(attempt)))
            case RecordTest(attempt, passed) =>
              t.run == s.run && (s.stage == t.stage || (a.RunOn? && a.answer == (if passed then Good else Bad) && s.stage == Test(attempt)))
            case RecordPrOpened(attempt, pr) =>
              t.run == s.run && (s.stage == t.stage || (a.RunOn? && a.answer == Good && a.pr == pr && s.stage == OpenPr(attempt)))
            case RecordMerged(pr) => t.run == s.run && (s.stage == t.stage || (a.RunOn? && a.answer == Good && s.stage == Merge(pr)))
            case _ => true
  {
    hide Settle, SettleCi;
  }

  lemma {:induction false} AnswerOf(schedule: seq<Action>, n: nat) returns (m: nat)
    requires n <= |schedule|
    ensures Answered(schedule, n, Before(schedule, n).run, Before(schedule, n).stage, m)
    decreases n
  {
    m := 0;
    FirstState(schedule);
    if n > 0 {
      NextState(schedule, n - 1);
      StepAnswers(Before(schedule, n - 1), schedule[n - 1]);
      m := AnswerOf(schedule, n - 1);
      hide Before, Step;
      if Before(schedule, n).stage != Before(schedule, n - 1).stage {
        m := n - 1;
      }
    }
  }

  // ------------------------------------------------------------- the records

  /** What stands on the schedule behind a record. */
  ghost predicate Earned(schedule: seq<Action>, e: Event) {
    match e
    case GateApproved(h, author, w, _, _) => exists p :: Authorised(schedule, h, author, w, p)
    case CiResult(pr, succeeded) => exists h, p :: Built(schedule, h, pr, succeeded, p)
    case ScanPass(run, attempt) => GotAnswer(schedule, run, Draft(attempt), Good) && GotAnswer(schedule, run, RecordScan(attempt, true), Good)
    case ScanFail(run, attempt) => GotAnswer(schedule, run, Draft(attempt), Bad) && GotAnswer(schedule, run, RecordScan(attempt, false), Good)
    case Tested(run, attempt, passed) =>
      GotAnswer(schedule, run, Test(attempt), if passed then Good else Bad) && GotAnswer(schedule, run, RecordTest(attempt, passed), Good)
    case PrOpened(run, attempt, pr) => GotPr(schedule, run, attempt, pr) && GotAnswer(schedule, run, RecordPrOpened(attempt, pr), Good)
    case PrMerged(run, pr) => GotAnswer(schedule, run, Merge(pr), Good) && GotAnswer(schedule, run, RecordMerged(pr), Good)
    case RunStarted(run) => GotAnswer(schedule, run, RecordStart, Good)
    case GateOpened(run, gate) => if gate.Three? then GotAnswer(schedule, run, OpenAnalysisGate, Good) else exists pr :: GotAnswer(schedule, run, OpenPrGate(pr), Good)
    case RunClosed(run) => exists pr :: GotAnswer(schedule, run, RecordClosed(pr), Good)
    case Member(h, author) => exists w :: SaidYes(schedule, h, CheckMembership(w, author))
    case _ => true
  }

  ghost predicate GotAnswer(schedule: seq<Action>, run: nat, stage: Stage, answer: Answer) {
    exists m: nat :: m < |schedule| && AnsweredAt(schedule, m, run, stage, answer)
  }

  ghost predicate SaidYes(schedule: seq<Action>, h: nat, at: Handler) {
    exists m: nat :: m < |schedule| && YesAt(schedule, m, h, at)
  }

  ghost predicate GotPr(schedule: seq<Action>, run: nat, attempt: nat, pr: nat) {
    exists m: nat :: m < |schedule| && AnsweredAt(schedule, m, run, OpenPr(attempt), Good) && schedule[m].pr == pr
  }

  /** The run is at the stage that writes the record, and the write succeeds. */
  predicate WritesFor(s: State, a: Action, run: nat, stage: Stage) {
    run == s.run && s.stage == stage && a.RunOn? && a.answer == Good
  }

  /** What has to be so for an action to write this record. */
  predicate MayWrite(s: State, a: Action, e: Event) {
    match e
    case GateApproved(h, author, w, runId, asked) => h < |s.handlers| && s.handlers[h] == RecordApproval(w, author, runId, asked)
    case Member(h, author) => a == HandlerOn(h, true) && h < |s.handlers| && s.handlers[h].CheckMembership? && s.handlers[h].author == author
    case CiResult(pr, succeeded) => a.HandlerOn? && a.handler < |s.handlers| && s.handlers[a.handler] == RecordCi(pr, succeeded)
    case ScanPass(run, attempt) => WritesFor(s, a, run, RecordScan(attempt, true))
    case ScanFail(run, attempt) => WritesFor(s, a, run, RecordScan(attempt, false))
    case Tested(run, attempt, passed) => WritesFor(s, a, run, RecordTest(attempt, passed))
    case PrOpened(run, attempt, pr) => WritesFor(s, a, run, RecordPrOpened(attempt, pr))
    case PrMerged(run, pr) => WritesFor(s, a, run, RecordMerged(pr))
    case RunStarted(run) => WritesFor(s, a, run, RecordStart)
    case GateOpened(run, gate) =>
      if gate.Three? then WritesFor(s, a, run, OpenAnalysisGate) else s.stage.OpenPrGate? && WritesFor(s, a, run, s.stage)
    case RunClosed(run) => s.stage.RecordClosed? && WritesFor(s, a, run, s.stage)
    case Began(_) => a.Start?
  }

  /** An action writes at most one record, and only where it may. */
  lemma StepWrites(s: State, a: Action)
    ensures var t := Step(s, a);
            && s.trace <= t.trace && |t.trace| <= |s.trace| + 1
            && (|t.trace| > |s.trace| ==> MayWrite(s, a, t.trace[|s.trace|]))
  {
    if a.RunOn? {
      RunWrites(s, a.answer, a.pr);
    } else if a.HandlerOn? && a.handler < |s.handlers| {
      HandlerWrites(s, a.handler, a.ok);
    }
    hide RunStep, HandlerStep;
  }

  lemma RunWrites(s: State, answer: Answer, pr: nat)
    ensures var t := RunStep(s, answer, pr);
            && s.trace <= t.trace && |t.trace| <= |s.trace| + 1
            && (|t.trace| > |s.trace| ==> MayWrite(s, RunOn(answer, pr), t.trace[|s.trace|]))
  {
  }

  lemma HandlerWrites(s: State, h: nat, ok: bool)
    requires h < |s.handlers|
    ensures var t := HandlerStep(s, h, ok);
            && s.trace <= t.trace && |t.trace| <= |s.trace| + 1
            && (|t.trace| > |s.trace| ==> MayWrite(s, HandlerOn(h, ok), t.trace[|s.trace|]))
  {
    hide Settle, SettleCi;
  }

  /**
   * On every run each record tells the truth about what came in from outside. An
   * approval: a delivery by its author arrived as an approval, its signature was
   * good while the waiter it names was the gate, and then that very author was
   * confirmed a member. A build result: that build was delivered and parsed. A
   * passed scan or test, an opened or merged pull request: this run was at that
   * stage and got that answer.
   */
  lemma {:induction false} EveryRecordIsEarned(schedule: seq<Action>, n: nat, i: nat)
    requires n <= |schedule| && i < |Before(schedule, n).trace|
    ensures Earned(schedule, Before(schedule, n).trace[i])
    decreases n
  {
    hide Before, Earned;
    FirstState(schedule);
    if n > 0 {
      var was := Before(schedule, n - 1);
      NextState(schedule, n - 1);
      StepWrites(was, schedule[n - 1]);
      hide Step;
      if i < |was.trace| {
        EveryRecordIsEarned(schedule, n - 1, i);
      } else {
        NewRecordIsEarned(schedule, n - 1);
      }
    }
  }

  lemma NewRecordIsEarned(schedule: seq<Action>, n: nat)
    requires n < |schedule| && |Before(schedule, n + 1).trace| > |Before(schedule, n).trace|
    ensures Earned(schedule, Before(schedule, n + 1).trace[|Before(schedule, n).trace|])
  {
    var was := Before(schedule, n);
    NextState(schedule, n);
    StepWrites(was, schedule[n]);
    var e := Before(schedule, n + 1).trace[|was.trace|];
    if e.GateApproved? {
      var p := PathOf(schedule, n, e.handler);
      hide Before, Step, ArrivedAt, GoodSignatureAt, YesAt;
      assert Authorised(schedule, e.handler, e.author, e.waiter, p);
    } else if e.CiResult? {
      var p := PathOf(schedule, n, schedule[n].handler);
      hide Before, Step, ArrivedAt, YesAt;
      assert Built(schedule, schedule[n].handler, e.pr, e.succeeded, p);
    } else if e.Member? {
      assert YesAt(schedule, n, e.handler, was.handlers[e.handler]);
      hide Before, Step, YesAt;
      assert SaidYes(schedule, e.handler, was.handlers[e.handler]);
    } else {
      hide Step;
      RunRecordIsEarned(schedule, n, e);
    }
  }

  lemma RunRecordIsEarned(schedule: seq<Action>, n: nat, e: Event)
    requires n < |schedule| && MayWrite(Before(schedule, n), schedule[n], e)
    requires !e.GateApproved? && !e.CiResult? && !e.Member?
    ensures Earned(schedule, e)
  {
    var was := Before(schedule, n);
    var m := AnswerOf(schedule, n);
    hide Before;
    if schedule[n].RunOn? && schedule[n].answer == Good {
      assert AnsweredAt(schedule, n, was.run, was.stage, Good);
      assert GotAnswer(schedule, was.run, was.stage, Good);
    }
    hide AnsweredAt;
    match e
    case ScanPass(run, attempt) => assert AnsweredAt(schedule, m, run, Draft(attempt), Good);
    case ScanFail(run, attempt) => assert AnsweredAt(schedule, m, run, Draft(attempt), Bad);
    case Tested(run, attempt, passed) => assert AnsweredAt(schedule, m, run, Test(attempt), if passed then Good else Bad);
    case PrOpened(run, attempt, pr) => assert AnsweredAt(schedule, m, run, OpenPr(attempt), Good) && schedule[m].pr == pr;
    case PrMerged(run, pr) => assert AnsweredAt(schedule, m, run, Merge(pr), Good);
    case _ =>
  }
}
