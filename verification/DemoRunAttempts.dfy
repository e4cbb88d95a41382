/**
 * How often the delivery run of apps/demo/src/run.ts lets its engineer try: one
 * draft, and two more as long as the scan or the test of the one before failed.
 */
module DemoRunAttempts {
  import opened Wrappers
  import opened DemoRun
  import opened DemoRunHistory
  import opened DemoRunWebhooks

  /** A scan or test of this run, or the opening of its pull request. */
  predicate Checks(e: Event, run: nat) {
    (e.ScanPass? || e.ScanFail? || e.Tested? || e.PrOpened?) && e.run == run
  }

  predicate FailedCheck(e: Event, run: nat) {
    (e.ScanFail? || (e.Tested? && !e.passed)) && e.run == run
  }

  /** A record that only this run itself writes. */
  predicate ByRun(e: Event, run: nat) {
    Checks(e, run) || ((e.RunStarted? || e.GateOpened? || e.PrMerged? || e.RunClosed?) && e.run == run)
  }

  /** The attempts of the run's failed checks, in order. */
  function Failed(t: seq<Event>, run: nat): seq<nat> {
    if t == [] then []
    else
      var last := t[|t| - 1];
      Failed(t[..|t| - 1], run) + if FailedCheck(last, run) then [last.attempt] else []
  }

  /** Where a check stands in the order of a run's work: scan, test and pull request of the first attempt, then of the second, then of the third. */
  function Rank(e: Event): nat
    requires e.ScanPass? || e.ScanFail? || e.Tested? || e.PrOpened?
  {
    3 * e.attempt + if e.Tested? then 1 else if e.PrOpened? then 2 else 0
  }

  /** The rank of the next check a run can write from here. */
  function NextRank(s: State): Option<nat> {
    match s.stage
    case RecordStart => Some(3)
    case Analyse => Some(3)
    case OpenAnalysisGate => Some(3)
    case AwaitGate(w) => if w < |s.waiters| && s.waiters[w].gate.Three? then Some(3) else None
    case Draft(n) => Some(3 * n)
    case RecordScan(n, _) => Some(3 * n)
    case Test(n) => Some(3 * n + 1)
    case RecordTest(n, _) => Some(3 * n + 1)
    case OpenPr(n) => Some(3 * n + 2)
    case RecordPrOpened(n, _) => Some(3 * n + 2)
    case _ => None
  }

  ghost predicate Below(t: seq<Event>, run: nat, rank: nat) {
    forall i | 0 <= i < |t| && Checks(t[i], run) :: Rank(t[i]) < rank
  }

  ghost predicate NothingBy(t: seq<Event>, run: nat) {
    forall i | 0 <= i < |t| :: !ByRun(t[i], run)
  }

  /** Failed checks are numbered 1, 2, 3. */
  predicate Counted(failed: seq<nat>) {
    |failed| <= 3 && forall k | 0 <= k < |failed| :: failed[k] == k + 1
  }

  /** When it was written the run had fewer than three failed checks, and a check belonged to the attempt after those. */
  predicate InTime(t: seq<Event>, i: nat, run: nat)
    requires i < |t|
  {
    ByRun(t[i], run) ==> |Failed(t[..i], run)| < 3 && (Checks(t[i], run) ==> t[i].attempt == |Failed(t[..i], run)| + 1)
  }

  ghost predicate Ranked(t: seq<Event>, run: nat) {
    forall i, j | 0 <= i < j < |t| && Checks(t[i], run) && Checks(t[j], run) :: Rank(t[i]) < Rank(t[j])
  }

  /** What holds of the records of one run. */
  ghost predicate Tells(t: seq<Event>, run: nat) {
    && Counted(Failed(t, run)) && Ranked(t, run)
    && forall i | 0 <= i < |t| :: InTime(t, i, run)
  }

  ghost predicate Tries(s: State) {
    && (forall run: nat :: Tells(s.trace, run))
    && (forall run: nat | run > s.run :: NothingBy(s.trace, run))
    && (!s.stage.Idle? ==> |Failed(s.trace, s.run)| < 3)
    && (NextRank(s).Some? ==>
          Below(s.trace, s.run, NextRank(s).value) && NextRank(s).value / 3 == |Failed(s.trace, s.run)| + 1)
  }

  // ------------------------------------------------------------- one record

  lemma Appended(t: seq<Event>, e: Event, run: nat)
    ensures Failed(t + [e], run) == Failed(t, run) + if FailedCheck(e, run) then [e.attempt] else []
  {
    assert (t + [e])[..|t|] == t;
  }

  /** A record that is not of the run leaves what is told of it. */
  lemma OthersRecord(t: seq<Event>, e: Event, run: nat)
    requires Tells(t, run) && !ByRun(e, run)
    ensures Tells(t + [e], run) && Failed(t + [e], run) == Failed(t, run)
  {
    Appended(t, e, run);
    hide Failed;
    var u := t + [e];
    forall i | 0 <= i < |u| ensures InTime(u, i, run) {
      if i < |t| {
        assert InTime(t, i, run) && u[..i] == t[..i];
      }
    }
  }

  /** A record of the run, at its rank. */
  lemma OwnRecord(t: seq<Event>, e: Event, run: nat)
    requires Tells(t, run) && ByRun(e, run) && |Failed(t, run)| < 3
    requires Checks(e, run) ==> e.attempt == |Failed(t, run)| + 1 && Below(t, run, Rank(e))
    ensures Tells(t + [e], run)
  {
    Appended(t, e, run);
    hide Failed;
    var u := t + [e];
    forall i | 0 <= i < |u| ensures InTime(u, i, run) {
      if i < |t| {
        assert InTime(t, i, run) && u[..i] == t[..i];
      } else {
        assert u[..i] == t;
      }
    }
  }

  lemma NothingFailed(t: seq<Event>, run: nat)
    requires NothingBy(t, run)
    ensures Failed(t, run) == [] && forall rank: nat :: Below(t, run, rank)
  {
    if t != [] {
      assert NothingBy(t[..|t| - 1], run);
      NothingFailed(t[..|t| - 1], run);
    }
  }

  // --------------------------------------------------------------- one step

  /** What an action may write and where it leads, as far as attempts go. */
  ghost predicate Moves(s: State, t: State) {
    || (t.trace == s.trace && t.run == s.run && (t.stage.Idle? || (!s.stage.Idle? && NextRank(t) == NextRank(s)) || (!s.stage.Idle? && NextRank(t).None?)))
    || (|t.trace| == |s.trace| + 1 && t.trace[..|s.trace|] == s.trace
        && var e := t.trace[|s.trace|];
        || (e.Began? && t.run == s.run + 1 && e.run == t.run && t.stage.RecordStart?)
        || ((forall run: nat :: !ByRun(e, run)) && !e.Began? && t.run == s.run && t.stage == s.stage && NextRank(t) == NextRank(s))
        || (t.run == s.run && !s.stage.Idle? && ByRun(e, s.run) && !Checks(e, s.run) && (t.stage.Idle? || NextRank(t) == NextRank(s) || NextRank(t).None?))
        || (t.run == s.run && Checks(e, s.run) && NextRank(s) == Some(Rank(e)) && Goes(e, t)))
  }

  /** Where a check leads: on in the same attempt, to the next one, or out. */
  predicate Goes(e: Event, t: State)
    requires e.ScanPass? || e.ScanFail? || e.Tested? || e.PrOpened?
  {
    if e.ScanFail? || (e.Tested? && !e.passed) then t.stage == (if e.attempt < 3 then Draft(e.attempt + 1) else Idle)
    else if e.PrOpened? then t.stage == ActivatePr(e.pr)
    else t.stage == (if e.ScanPass? then Test(e.attempt) else OpenPr(e.attempt))
  }

  lemma RunMoves(s: State, answer: Answer, pr: nat)
    requires s.stage.AwaitGate? ==> s.stage.waiter < |s.waiters|
    ensures Moves(s, RunStep(s, answer, pr))
  {
    var t := RunStep(s, answer, pr);
    if s.stage.RecordScan? || s.stage.RecordTest? || s.stage.RecordPrOpened? {
      CheckMoves(s, answer, pr);
    } else if t.trace != s.trace {
      RecordMoves(s, answer, pr);
    } else {
      QuietMoves(s, answer, pr);
    }
    hide RunStep, NextRank;
  }

  lemma CheckMoves(s: State, answer: Answer, pr: nat)
    requires s.stage.RecordScan? || s.stage.RecordTest? || s.stage.RecordPrOpened?
    ensures var t := RunStep(s, answer, pr);
            t.run == s.run && if answer.Good? then |t.trace| == |s.trace| + 1 && t.trace[..|s.trace|] == s.trace
                                                  && Checks(t.trace[|s.trace|], s.run) && NextRank(s) == Some(Rank(t.trace[|s.trace|])) && Goes(t.trace[|s.trace|], t)
                              else t.trace == s.trace && t.stage.Idle?
  {
  }

  lemma RecordMoves(s: State, answer: Answer, pr: nat)
    requires !s.stage.RecordScan? && !s.stage.RecordTest? && !s.stage.RecordPrOpened?
    ensures var t := RunStep(s, answer, pr);
            t.run == s.run && (t.trace == s.trace || (|t.trace| == |s.trace| + 1 && t.trace[..|s.trace|] == s.trace && !s.stage.Idle?
                                                      && ByRun(t.trace[|s.trace|], s.run) && !Checks(t.trace[|s.trace|], s.run)
                                                      && (t.stage.Idle? || NextRank(t) == NextRank(s) || NextRank(t).None?)))
  {
  }

  lemma QuietMoves(s: State, answer: Answer, pr: nat)
    requires s.stage.AwaitGate? ==> s.stage.waiter < |s.waiters|
    requires !s.stage.RecordScan? && !s.stage.RecordTest? && !s.stage.RecordPrOpened?
    ensures var t := RunStep(s, answer, pr);
            t.trace == s.trace ==> t.run == s.run && (t.stage.Idle? || (!s.stage.Idle? && (NextRank(t) == NextRank(s) || NextRank(t).None?)))
  {
  }

  lemma StepMoves(s: State, a: Action)
    requires s.stage.AwaitGate? ==> s.stage.waiter < |s.waiters|
    ensures Moves(s, Step(s, a))
    ensures Step(s, a).stage.AwaitGate? ==> Step(s, a).stage.waiter < |Step(s, a).waiters|
  {
    if a.RunOn? {
      RunMoves(s, a.answer, a.pr);
      assert Step(s, a) == RunStep(s, a.answer, a.pr);
    } else if a.HandlerOn? && a.handler < |s.handlers| {
      HandlerLeavesRun(s, a.handler, a.ok);
    }
  }

  lemma HandlerLeavesRun(s: State, h: nat, ok: bool)
    requires h < |s.handlers|
    ensures var t := HandlerStep(s, h, ok);
            && t.run == s.run && t.stage == s.stage && NextRank(t) == NextRank(s) && |t.waiters| == |s.waiters|
            && (t.trace == s.trace || (|t.trace| == |s.trace| + 1 && t.trace[..|s.trace|] == s.trace
                                       && (t.trace[|s.trace|].Member? || t.trace[|s.trace|].GateApproved? || t.trace[|s.trace|].CiResult?)))
  {
  }

  /** One step keeps what is told of every run. */
  lemma StepTries(s: State, t: State)
    requires Tries(s) && Moves(s, t)
    ensures Tries(t)
  {
    if t.trace != s.trace {
      var e := t.trace[|s.trace|];
      assert t.trace == s.trace + [e];
      forall run: nat ensures Tells(t.trace, run) {
        if ByRun(e, run) {
          RankOfAttempt(s, e);
          OwnRecord(s.trace, e, run);
        } else {
          OthersRecord(s.trace, e, run);
        }
      }
      forall run: nat | run > t.run ensures NothingBy(t.trace, run) {
        assert NothingBy(s.trace, run);
      }
      RecordLeads(s, t, e);
    }
  }

  lemma RankOfAttempt(s: State, e: Event)
    requires Tries(s)
    ensures Checks(e, s.run) && NextRank(s) == Some(Rank(e)) ==>
              e.attempt == |Failed(s.trace, s.run)| + 1 && Rank(e) / 3 == e.attempt && |Failed(s.trace, s.run)| < 3
  {
  }

  /** Where the run stands after a record. */
  lemma RecordLeads(s: State, t: State, e: Event)
    requires Tries(s) && Moves(s, t) && t.trace == s.trace + [e]
    ensures !t.stage.Idle? ==> |Failed(t.trace, t.run)| < 3
    ensures NextRank(t).Some? ==> Below(t.trace, t.run, NextRank(t).value) && NextRank(t).value / 3 == |Failed(t.trace, t.run)| + 1
  {
    hide Failed, Tells;
    assert e == t.trace[|s.trace|];
    Appended(s.trace, e, t.run);
    var own := ByRun(e, s.run);
    if e.Began? {
      assert !own && t.run == s.run + 1 && t.stage.RecordStart?;
      assert NothingBy(s.trace, t.run);
      NothingFailed(s.trace, t.run);
      assert Below(t.trace, t.run, 3);
    } else if !Checks(e, s.run) {
      assert t.run == s.run && Failed(t.trace, t.run) == Failed(s.trace, s.run);
    } else {
      CheckedLeads(s, t, e);
    }
  }

  lemma CheckedLeads(s: State, t: State, e: Event)
    requires Tries(s) && Moves(s, t) && t.trace == s.trace + [e] && Checks(e, s.run)
    requires Failed(t.trace, s.run) == Failed(s.trace, s.run) + if FailedCheck(e, s.run) then [e.attempt] else []
    ensures t.run == s.run && (!t.stage.Idle? ==> |Failed(t.trace, t.run)| < 3)
    ensures NextRank(t).Some? ==> Below(t.trace, t.run, NextRank(t).value) && NextRank(t).value / 3 == |Failed(t.trace, t.run)| + 1
  {
    hide Failed, Tells, Moves, NextRank, Goes, NothingBy;
    RankOfAttempt(s, e);
    assert e == t.trace[|s.trace|];
    CheckLeads(s, t);
    hide Tries;
    RankGoesOn(s.trace, e, s.run);
    NextAfter(e, t);
  }

  lemma RankGoesOn(t: seq<Event>, e: Event, run: nat)
    requires Checks(e, run) && Below(t, run, Rank(e))
    ensures forall rank: nat | rank > Rank(e) :: Below(t + [e], run, rank)
  {
  }

  /** The rank after a check, and the attempt it belongs to. */
  lemma NextAfter(e: Event, t: State)
    requires e.ScanPass? || e.ScanFail? || e.Tested? || e.PrOpened?
    requires Goes(e, t)
    ensures var failed := e.ScanFail? || (e.Tested? && !e.passed);
            && (NextRank(t).Some? ==> NextRank(t).value > Rank(e) && NextRank(t).value / 3 == e.attempt + if failed then 1 else 0)
            && (failed && !t.stage.Idle? ==> e.attempt < 3)
  {
  }

  /** Every schedule tries at most three times, in order. */
  lemma {:induction false} RunTries(schedule: seq<Action>, n: nat)
    requires n <= |schedule|
    ensures Tries(Before(schedule, n))
    ensures Before(schedule, n).stage.AwaitGate? ==> Before(schedule, n).stage.waiter < |Before(schedule, n).waiters|
    decreases n
  {
    FirstState(schedule);
    if n > 0 {
      RunTries(schedule, n - 1);
      NextState(schedule, n - 1);
      hide Tries, Moves, Step, Before;
      StepMoves(Before(schedule, n - 1), schedule[n - 1]);
      StepTries(Before(schedule, n - 1), Before(schedule, n));
    }
  }

  // ------------------------------------------------------------ main results

  /**
   * On every run of the schedule, for each delivery run: its failed checks are
   * those of attempts 1, 2, 3 in this order and at most these; every check belongs
   * to the attempt after the failed ones before it; no scan, test or opening of an
   * attempt is recorded twice; and after the third failed check the run writes
   * nothing any more.
   */
  lemma AtMostThreeAttempts(schedule: seq<Action>, run: nat)
    ensures var t := Run(Init(), schedule).trace;
            && Counted(Failed(t, run)) && Ranked(t, run)
            && (forall i | 0 <= i < |t| && Checks(t[i], run) :: t[i].attempt == |Failed(t[..i], run)| + 1 && t[i].attempt <= 3)
            && (forall i | 0 <= i < |t| && ByRun(t[i], run) :: |Failed(t[..i], run)| < 3)
  {
    assert schedule[..|schedule|] == schedule;
    RunTries(schedule, |schedule|);
    hide Run, Failed;
    var t := Run(Init(), schedule).trace;
    assert Tells(t, run);
    forall i | 0 <= i < |t| && ByRun(t[i], run) ensures |Failed(t[..i], run)| < 3 && (Checks(t[i], run) ==> t[i].attempt == |Failed(t[..i], run)| + 1) {
      assert InTime(t, i, run);
    }
  }

  /** A failed check has the run draft again after the first and second attempt, and ends it after the third. */
  lemma FailedCheckDraftsAgain(schedule: seq<Action>, n: nat)
    requires n < |schedule|
    requires var was, now := Before(schedule, n), Before(schedule, n + 1);
             |now.trace| > |was.trace| && FailedCheck(now.trace[|was.trace|], was.run)
    ensures var was, now := Before(schedule, n), Before(schedule, n + 1);
            var attempt := |Failed(was.trace, was.run)| + 1;
            now.trace[|was.trace|].attempt == attempt && now.stage == if attempt < 3 then Draft(attempt + 1) else Idle
  {
    hide Before, Tells, Failed, Moves, Below, NothingBy;
    RunTries(schedule, n);
    NextState(schedule, n);
    var was, now := Before(schedule, n), Before(schedule, n + 1);
    StepMoves(was, schedule[n]);
    hide Step;
    CheckLeads(was, now);
    RankOfAttempt(was, now.trace[|was.trace|]);
  }

  lemma CheckLeads(s: State, t: State)
    requires Moves(s, t) && |t.trace| > |s.trace| && Checks(t.trace[|s.trace|], s.run)
    ensures t.run == s.run && NextRank(s) == Some(Rank(t.trace[|s.trace|])) && Goes(t.trace[|s.trace|], t)
  {
    var e := t.trace[|s.trace|];
    assert ByRun(e, s.run);
    hide NextRank, Goes, Rank;
  }

  // ------------------------------------------------------- a run that merges

  /** The run goes on, as hoped, so many times; new pull requests get the id 7. */
  function Onwards(times: nat): seq<Action> {
    if times == 0 then [] else [RunOn(Good, 7)] + Onwards(times - 1)
  }

  const ANALYSED := [Start] + Onwards(3)
  /** A scan with a finding, then a red test, then a third draft that passes both. */
  const TRIED := [RunOn(Good, 7), RunOn(Bad, 7), RunOn(Good, 7), RunOn(Good, 7)] + [RunOn(Good, 7), RunOn(Bad, 7), RunOn(Good, 7)]
  const BUILT := TRIED + Onwards(7)
  const ANNOUNCED := Onwards(3)

  /** Both gates approved by a member, two attempts failing, and the build in time. */
  const MERGED: seq<Action> :=
    ANALYSED + JiraDelivery(0, Approve, "ayse", true, true, true)
    + BUILT + AdoDelivery(1, 7, true, true, true)
    + ANNOUNCED + JiraDelivery(2, Approve, "mert", true, true, true) + Onwards(3)

  /** The same, up to the pull request. */
  const BEFORE_BUILD: seq<Action> := ANALYSED + JiraDelivery(0, Approve, "ayse", true, true, true) + BUILT

  lemma FailedTwice(t: seq<Event>, u: seq<Event>)
    requires forall i | 0 <= i < |t| :: !Checks(t[i], 1)
    requires u == t + [ScanFail(1, 1)] + [ScanPass(1, 2)] + [Tested(1, 2, false)] + [ScanPass(1, 3)] + [Tested(1, 3, true)] + [PrOpened(1, 3, 7)]
    ensures Failed(u, 1) == [1, 2]
  {
    NoneFailed(t, 1);
    Appended(t, ScanFail(1, 1), 1);
    var a := t + [ScanFail(1, 1)];
    Appended(a, ScanPass(1, 2), 1);
    var b := a + [ScanPass(1, 2)];
    Appended(b, Tested(1, 2, false), 1);
    var c := b + [Tested(1, 2, false)];
    Appended(c, ScanPass(1, 3), 1);
    var d := c + [ScanPass(1, 3)];
    Appended(d, Tested(1, 3, true), 1);
    var e := d + [Tested(1, 3, true)];
    Appended(e, PrOpened(1, 3, 7), 1);
    hide Failed;
  }

  lemma NoneFailed(t: seq<Event>, run: nat)
    requires forall i | 0 <= i < |t| :: !Checks(t[i], run)
    ensures Failed(t, run) == []
  {
    if t != [] {
      NoneFailed(t[..|t| - 1], run);
    }
  }

  lemma Once(s: State, times: nat)
    requires times > 0
    ensures Run(s, Onwards(times)) == Run(RunStep(s, Good, 7), Onwards(times - 1))
  {
    hide RunStep;
    assert Onwards(times)[1..] == Onwards(times - 1);
    assert Step(s, RunOn(Good, 7)) == RunStep(s, Good, 7);
  }

  lemma Thrice(s: State)
    ensures Run(s, Onwards(3)) == RunStep(RunStep(RunStep(s, Good, 7), Good, 7), Good, 7)
  {
    hide RunStep;
    Once(s, 3);
    Once(RunStep(s, Good, 7), 2);
    Once(RunStep(RunStep(s, Good, 7), Good, 7), 1);
  }

  lemma Analyses() returns (s: State)
    ensures s == Run(Init(), ANALYSED)
    ensures s.stage == AwaitGate(0) && s.waiters == [Waiter(1, Three, Waiting, 0, 3)] && s.gate == Some(0)
    ensures s.handlers == [] && s.cis == [] && s.ciWaiter == None && s.run == 1
    ensures s.trace == [Began(1), RunStarted(1), GateOpened(1, Three)]
  {
    RunInParts(Init(), [Start], Onwards(3));
    var begun := Step(Init(), Start);
    assert [Start][1..] == [] && Run(Init(), [Start]) == begun;
    Thrice(begun);
    s := RunStep(RunStep(RunStep(begun, Good, 7), Good, 7), Good, 7);
  }

  lemma Builds(s: State) returns (t: State)
    requires s.stage.AwaitGate? && s.stage.waiter < |s.waiters| && s.waiters[s.stage.waiter].status.Approved? && s.waiters[s.stage.waiter].gate.Three?
    ensures t == Run(s, BUILT)
    ensures t.stage == AwaitCi(|s.cis|) && t.cis == s.cis + [CiWaiter(7, CiWaiting)] && t.ciWaiter == Some(|s.cis|)
    ensures t.waiters == s.waiters && t.gate == s.gate && t.handlers == s.handlers && t.run == s.run
    ensures t.trace == s.trace + [ScanFail(s.run, 1)] + [ScanPass(s.run, 2)] + [Tested(s.run, 2, false)]
                               + [ScanPass(s.run, 3)] + [Tested(s.run, 3, true)] + [PrOpened(s.run, 3, 7)]
  {
    var s3 := Fails(s);
    RunInParts(s, TRIED, Onwards(7));
    var s4 := Drafts(s3);
    t := OpensPr(s4);
  }

  lemma OpensPr(s: State) returns (t: State)
    requires s.stage == OpenPr(3)
    ensures Run(s, Onwards(3)) == t
    ensures t == s.(stage := AwaitCi(|s.cis|), cis := s.cis + [CiWaiter(7, CiWaiting)], ciWaiter := Some(|s.cis|), trace := s.trace + [PrOpened(s.run, 3, 7)])
  {
    Thrice(s);
    t := RunStep(RunStep(RunStep(s, Good, 7), Good, 7), Good, 7);
  }

  lemma Fails(s: State) returns (t: State)
    requires s.stage.AwaitGate? && s.stage.waiter < |s.waiters| && s.waiters[s.stage.waiter].status.Approved? && s.waiters[s.stage.waiter].gate.Three?
    ensures Run(s, TRIED) == t && t == s.(stage := Draft(3), trace := s.trace + [ScanFail(s.run, 1)] + [ScanPass(s.run, 2)] + [Tested(s.run, 2, false)])
  {
    var good, bad := RunOn(Good, 7), RunOn(Bad, 7);
    RunInParts(s, [good, bad, good, good], [good, bad, good]);
    RunFour(s, good, bad, good, good);
    var s2 := Step(Step(Step(Step(s, good), bad), good), good);
    assert s2 == s.(stage := RecordScan(2, true), trace := s.trace + [ScanFail(s.run, 1)]);
    RunThree(s2, good, bad, good);
    t := Step(Step(Step(s2, good), bad), good);
  }

  lemma RunThree(s: State, a: Action, b: Action, c: Action)
    ensures Run(s, [a, b, c]) == Step(Step(Step(s, a), b), c)
  {
    hide Step;
    assert [a, b, c][1..] == [b, c] && [b, c][1..] == [c] && [c][1..] == [];
    assert Run(s, [a, b, c]) == Run(Step(s, a), [b, c]) == Run(Step(Step(s, a), b), [c]);
  }

  lemma Drafts(s: State) returns (t: State)
    requires s.stage == Draft(3)
    ensures Run(s, Onwards(7)) == Run(t, Onwards(3))
    ensures t == s.(stage := OpenPr(3), trace := s.trace + [ScanPass(s.run, 3)] + [Tested(s.run, 3, true)])
  {
    var s2 := RunStep(s, Good, 7);
    var s3 := RunStep(s2, Good, 7);
    var s4 := RunStep(s3, Good, 7);
    t := RunStep(s4, Good, 7);
    hide RunStep;
    Once(s, 7);
    Once(s2, 6);
    Once(s3, 5);
    Once(s4, 4);
  }

  lemma Announces(s: State) returns (t: State)
    requires s.stage.AwaitCi? && s.stage.ci < |s.cis| && s.cis[s.stage.ci] == CiWaiter(7, Green)
    ensures t == Run(s, ANNOUNCED)
    ensures t.stage == AwaitGate(|s.waiters|) && t.gate == Some(|s.waiters|) && t.handlers == s.handlers && t.run == s.run
    ensures |t.waiters| == |s.waiters| + 1 && t.waiters[|s.waiters|].status.Waiting? && t.waiters[|s.waiters|].gate.Eight? && t.waiters[|s.waiters|].pr == 7
  {
    Thrice(s);
    t := RunStep(RunStep(RunStep(s, Good, 7), Good, 7), Good, 7);
  }

  lemma Merges(s: State)
    requires s.stage.AwaitGate? && s.stage.waiter < |s.waiters|
    requires var w := s.waiters[s.stage.waiter]; w.status.Approved? && w.gate.Eight? && w.pr == 7
    ensures Run(s, Onwards(3)).trace == s.trace + [PrMerged(s.run, 7)]
  {
    Thrice(s);
  }

  /** The build of pull request 7 is delivered while its promise waits. */
  lemma BuildArrives(s: State)
    requires s.ciWaiter.Some? && s.ciWaiter.value < |s.cis| && s.cis[s.ciWaiter.value] == CiWaiter(7, CiWaiting)
    ensures var t := Run(s, AdoDelivery(|s.handlers|, 7, true, true, true));
            && t.cis == s.cis[s.ciWaiter.value := CiWaiter(7, Green)] && t.stage == s.stage && t.waiters == s.waiters && t.gate == s.gate
            && |t.handlers| == |s.handlers| + 1 && t.run == s.run
  {
    var h := |s.handlers|;
    RunFour(s, Ado(7, true), HandlerOn(h, true), HandlerOn(h, true), HandlerOn(h, true));
    hide RunStep;
    assert Step(s, Ado(7, true)) == Moved(s, ParseBuild(7, true));
    assert Step(Moved(s, ParseBuild(7, true)), HandlerOn(h, true)) == Moved(s, RecordCi(7, true));
  }

  lemma Approves(s: State, author: string)
    requires s.gate.Some? && s.gate.value < |s.waiters| && s.waiters[s.gate.value].status.Waiting?
    ensures var t := Run(s, JiraDelivery(|s.handlers|, Approve, author, true, true, true));
            && t.waiters == s.waiters[s.gate.value := s.waiters[s.gate.value].(status := Approved)]
            && t.stage == s.stage && t.cis == s.cis && t.ciWaiter == s.ciWaiter && |t.handlers| == |s.handlers| + 1 && t.run == s.run
            && s.trace <= t.trace && forall i | |s.trace| <= i < |t.trace| :: !Checks(t.trace[i], s.run)
  {
    JiraDeliveryIs(s, Approve, author, true, true, true);
    hide Run;
  }

  /** A run can merge: on this schedule it does, at its third attempt, the first failing its scan and the second its test. */
  lemma MergeIsReachable()
    ensures PrMerged(1, 7) in Run(Init(), MERGED).trace
    ensures Failed(Run(Init(), BEFORE_BUILD).trace, 1) == [1, 2]
  {
    hide RunStep, Onwards, Run, Init, JiraDelivery, AdoDelivery;
    var gate1, build1 := JiraDelivery(0, Approve, "ayse", true, true, true), AdoDelivery(1, 7, true, true, true);
    var gate2, last := JiraDelivery(2, Approve, "mert", true, true, true), Onwards(3);
    var s1 := Analyses();
    Approves(s1, "ayse");
    RunInParts(Init(), ANALYSED, gate1);
    var s2 := Run(s1, gate1);
    var s3 := Builds(s2);
    RunInParts(Init(), ANALYSED + gate1, BUILT);
    assert BEFORE_BUILD == ANALYSED + gate1 + BUILT;
    assert Run(Init(), BEFORE_BUILD) == s3;
    FailedTwice(s2.trace, s3.trace);
    BuildArrives(s3);
    RunInParts(Init(), ANALYSED + gate1 + BUILT, build1);
    var s4 := Run(s3, build1);
    var s5 := Announces(s4);
    RunInParts(Init(), ANALYSED + gate1 + BUILT + build1, ANNOUNCED);
    Approves(s5, "mert");
    RunInParts(Init(), ANALYSED + gate1 + BUILT + build1 + ANNOUNCED, gate2);
    var s6 := Run(s5, gate2);
    Merges(s6);
    RunInParts(Init(), ANALYSED + gate1 + BUILT + build1 + ANNOUNCED + gate2, last);
    assert MERGED == ANALYSED + gate1 + BUILT + build1 + ANNOUNCED + gate2 + last;
    assert Run(Init(), MERGED).trace == s6.trace + [PrMerged(s6.run, 7)];
  }
}
