/**
 * Which build results reach the delivery run of apps/demo/src/run.ts: the promise
 * behind `awaitCi` is made after the pull request is activated, and a result that
 * arrives without one is recorded and dropped.
 */
module DemoRunBuilds {
  import opened Wrappers
  import opened DemoRun
  import opened DemoRunHistory
  import opened DemoRunWebhooks

  /** Only the promise the run awaits is still waiting, and the field holds just that one. */
  ghost predicate OnePromise(s: State) {
    && (s.ciWaiter.Some? ==> s.ciWaiter.value < |s.cis| && s.cis[s.ciWaiter.value].status.CiWaiting?)
    && forall c | 0 <= c < |s.cis| && s.cis[c].status.CiWaiting? :: s.ciWaiter == Some(c) && s.stage == AwaitCi(c)
  }

  /** Action `a` resolves a build result for the promise `c`, which is waiting for it. */
  predicate Hears(s: State, a: Action, c: nat, succeeded: bool) {
    && a.HandlerOn? && a.handler < |s.handlers| && c < |s.cis| && s.cis[c].status.CiWaiting?
    && s.handlers[a.handler] == ResolveCi(s.cis[c].pr, succeeded)
  }

  predicate GivesUp(s: State, a: Action, c: nat) {
    a.CiTimeout? && c < |s.cis| && s.cis[c].status.CiWaiting?
  }

  lemma HandlerSettles(s: State, h: nat, ok: bool, c: nat)
    requires OnePromise(s) && h < |s.handlers|
    ensures var t, a := HandlerStep(s, h, ok), HandlerOn(h, ok);
            && OnePromise(t) && |t.cis| == |s.cis|
            && (c < |s.cis| ==>
                  t.cis[c] == s.cis[c].(status := if Hears(s, a, c, true) then Green else if Hears(s, a, c, false) then Red else s.cis[c].status))
  {
    hide Settle;
  }

  lemma RunSettles(s: State, answer: Answer, pr: nat)
    requires OnePromise(s)
    ensures var t := RunStep(s, answer, pr);
            && OnePromise(t)
            && (t.cis == s.cis || (t.cis == s.cis + [CiWaiter(s.stage.pr, CiWaiting)] && s.stage.ActivatePr?))
  {
  }

  /** How one action leaves the promises: new ones wait, and only these two ways settle one. */
  lemma StepSettles(s: State, a: Action, c: nat)
    requires OnePromise(s)
    ensures var t := Step(s, a);
            && OnePromise(t) && |s.cis| <= |t.cis|
            && (c < |s.cis| ==>
                  t.cis[c] == s.cis[c].(status := if Hears(s, a, c, true) then Green else if Hears(s, a, c, false) then Red
                                                  else if GivesUp(s, a, c) then TimedOut else s.cis[c].status))
            && (|s.cis| <= c < |t.cis| ==> t.cis[c].status.CiWaiting?)
  {
    if a.RunOn? {
      RunSettles(s, a.answer, a.pr);
    } else if a.HandlerOn? && a.handler < |s.handlers| {
      HandlerSettles(s, a.handler, a.ok, c);
    }
    hide RunStep, HandlerStep;
  }

  lemma {:induction false} PromisesOf(schedule: seq<Action>, n: nat)
    requires n <= |schedule|
    ensures OnePromise(Before(schedule, n))
    ensures forall m | 0 <= m <= n :: |Before(schedule, m).cis| <= |Before(schedule, n).cis|
    decreases n
  {
    FirstState(schedule);
    if n > 0 {
      PromisesOf(schedule, n - 1);
      NextState(schedule, n - 1);
      StepSettles(Before(schedule, n - 1), schedule[n - 1], 0);
      hide Before, Step, OnePromise;
    }
  }

  predicate HeardAt(schedule: seq<Action>, m: nat, c: nat, succeeded: bool)
    requires m < |schedule|
  {
    Hears(Before(schedule, m), schedule[m], c, succeeded)
  }

  predicate GivenUpAt(schedule: seq<Action>, m: nat, c: nat)
    requires m < |schedule|
  {
    GivesUp(Before(schedule, m), schedule[m], c)
  }

  ghost predicate Heard(schedule: seq<Action>, n: nat, c: nat, succeeded: bool)
    requires n <= |schedule|
  {
    exists m :: 0 <= m < n && HeardAt(schedule, m, c, succeeded)
  }

  ghost predicate GivenUp(schedule: seq<Action>, n: nat, c: nat)
    requires n <= |schedule|
  {
    exists m :: 0 <= m < n && GivenUpAt(schedule, m, c)
  }

  /**
   * On every run a build promise comes out green exactly when a handler resolved a
   * succeeded build of its pull request while the promise was waiting, red exactly
   * when it resolved another one then, and times out exactly when the timer ran out
   * while it was waiting. So a result resolved before the promise was made, or
   * after it was settled, never reaches the run.
   */
  lemma {:induction false} BuildIsHeardExactlyWhen(schedule: seq<Action>, n: nat, c: nat)
    requires n <= |schedule| && c < |Before(schedule, n).cis|
    ensures Before(schedule, n).cis[c].status.Green? <==> Heard(schedule, n, c, true)
    ensures Before(schedule, n).cis[c].status.Red? <==> Heard(schedule, n, c, false)
    ensures Before(schedule, n).cis[c].status.TimedOut? <==> GivenUp(schedule, n, c)
    decreases n
  {
    FirstState(schedule);
    if n > 0 {
      var was, a := Before(schedule, n - 1), schedule[n - 1];
      PromisesOf(schedule, n - 1);
      NextState(schedule, n - 1);
      StepSettles(was, a, c);
      OneMore(schedule, n - 1, c);
      hide Before, Step, OnePromise, Heard, GivenUp;
      if c < |was.cis| {
        BuildIsHeardExactlyWhen(schedule, n - 1, c);
      } else {
        NotBefore(schedule, n - 1, c);
      }
    }
  }

  lemma OneMore(schedule: seq<Action>, n: nat, c: nat)
    requires n < |schedule|
    ensures forall ok: bool :: Heard(schedule, n + 1, c, ok) <==> Heard(schedule, n, c, ok) || HeardAt(schedule, n, c, ok)
    ensures GivenUp(schedule, n + 1, c) <==> GivenUp(schedule, n, c) || GivenUpAt(schedule, n, c)
  {
    hide HeardAt, GivenUpAt;
  }

  lemma NotBefore(schedule: seq<Action>, n: nat, c: nat)
    requires n <= |schedule| && forall m | 0 <= m <= n :: |Before(schedule, m).cis| <= c
    ensures !Heard(schedule, n, c, true) && !Heard(schedule, n, c, false) && !GivenUp(schedule, n, c)
  {
    hide Before;
  }

  // ------------------------------------------------------ a build too early

  /** The build's whole delivery, then the run goes on, waits, and gives up. */
  function TooEarly(h: nat, pr: nat): seq<Action> {
    AdoDelivery(h, pr, true, true, true) + [RunOn(Good, 0), CiTimeout, RunOn(Good, 0), RunOn(Good, 0)]
  }

  /**
   * From every state in which the pull request is about to be activated: a build of
   * it that is delivered in full before the run makes its promise is recorded as
   * succeeded, and the run still ends without it.
   */
  lemma EarlyBuildIsLost(s: State, pr: nat)
    requires OnePromise(s) && s.stage == ActivatePr(pr)
    ensures var end := Run(s, TooEarly(|s.handlers|, pr));
            && end.stage.Idle? && end.trace == s.trace + [CiResult(pr, true)]
            && end.cis == s.cis + [CiWaiter(pr, TimedOut)]
  {
    var told := Moved(s, Over).(trace := s.trace + [CiResult(pr, true)]);
    DeliveredUnheard(s, pr);
    WaitsInVain(told, pr);
    hide Run, Step;
    RunInParts(s, AdoDelivery(|s.handlers|, pr, true, true, true), [RunOn(Good, 0), CiTimeout, RunOn(Good, 0), RunOn(Good, 0)]);
    RunFour(told, RunOn(Good, 0), CiTimeout, RunOn(Good, 0), RunOn(Good, 0));
  }

  lemma DeliveredUnheard(s: State, pr: nat)
    requires OnePromise(s) && s.stage == ActivatePr(pr)
    ensures Run(s, AdoDelivery(|s.handlers|, pr, true, true, true)) == Moved(s, Over).(trace := s.trace + [CiResult(pr, true)])
  {
    var h := |s.handlers|;
    RunFour(s, Ado(pr, true), HandlerOn(h, true), HandlerOn(h, true), HandlerOn(h, true));
    hide Run, RunStep;
    var recorded := s.(trace := s.trace + [CiResult(pr, true)]);
    assert Step(s, Ado(pr, true)) == Moved(s, ParseBuild(pr, true));
    BuildMoves(s, ParseBuild(pr, true));
    BuildMoves(s, RecordCi(pr, true));
    BuildMoves(recorded, ResolveCi(pr, true));
  }

  /** A good step of a build's handler that was added last, while no promise waits. */
  lemma BuildMoves(s: State, h: Handler)
    requires s.ciWaiter.None? && (h.ParseBuild? || h.RecordCi? || h.ResolveCi?)
    ensures Step(Moved(s, h), HandlerOn(|s.handlers|, true)) ==
            match h
            case ParseBuild(pr, succeeded) => Moved(s, RecordCi(pr, succeeded))
            case RecordCi(pr, succeeded) => Moved(s, ResolveCi(pr, succeeded)).(trace := s.trace + [CiResult(pr, succeeded)])
            case _ => Moved(s, Over)
  {
    hide Settle, SettleCi, RunStep;
  }

  lemma WaitsInVain(s: State, pr: nat)
    requires s.stage == ActivatePr(pr)
    ensures var end := Step(Step(Step(Step(s, RunOn(Good, 0)), CiTimeout), RunOn(Good, 0)), RunOn(Good, 0));
            end.stage.Idle? && end.trace == s.trace && end.cis == s.cis + [CiWaiter(pr, TimedOut)]
  {
    var waiting := Step(s, RunOn(Good, 0));
    assert waiting.stage == AwaitCi(|s.cis|) && waiting.cis == s.cis + [CiWaiter(pr, CiWaiting)] && waiting.trace == s.trace;
    var over := Step(waiting, CiTimeout);
    assert over.stage == AwaitCi(|s.cis|) && over.cis == s.cis + [CiWaiter(pr, TimedOut)] && over.trace == s.trace;
  }
}
