/**
 * The webhook handlers of apps/demo/src/run.ts as they are written, over the
 * fields of the run object, when nothing else moves while they do.
 */
module DemoRunWebhooks {
  import opened Wrappers
  import opened DemoRun

  /** A Jira delivery carried through: what the signature, membership and record awaits answered. */
  function JiraDelivery(h: nat, command: Command, author: string, verified: bool, member: bool, recorded: bool): seq<Action> {
    [Jira(command, author), HandlerOn(h, verified), HandlerOn(h, member), HandlerOn(h, recorded), HandlerOn(h, true)]
  }

  function AdoDelivery(h: nat, pr: nat, succeeded: bool, parsed: bool, recorded: bool): seq<Action> {
    [Ado(pr, succeeded), HandlerOn(h, parsed), HandlerOn(h, recorded), HandlerOn(h, true)]
  }

  lemma RunFour(s: State, a: Action, b: Action, c: Action, d: Action)
    ensures Run(s, [a, b, c, d]) == Step(Step(Step(Step(s, a), b), c), d)
  {
    hide Step;
    var all := [a, b, c, d];
    assert all[1..] == [b, c, d] && [b, c, d][1..] == [c, d] && [c, d][1..] == [d] && [d][1..] == [];
    assert Run(s, all) == Run(Step(s, a), [b, c, d]) == Run(Step(Step(s, a), b), [c, d]) == Run(Step(Step(Step(s, a), b), c), [d]);
    assert Run(Step(Step(Step(s, a), b), c), [d]) == Run(Step(Step(Step(Step(s, a), b), c), d), []);
  }

  lemma RunFive(s: State, a: Action, b: Action, c: Action, d: Action, e: Action)
    ensures Run(s, [a, b, c, d, e]) == Step(Step(Step(Step(Step(s, a), b), c), d), e)
  {
    hide Step;
    assert [a, b, c, d, e][1..] == [b, c, d, e];
    RunFour(Step(s, a), b, c, d, e);
  }

  function Moved(s: State, h: Handler): State {
    s.(handlers := s.handlers + [h])
  }

  /** What a Jira delivery comes to. */
  function JiraResult(s: State, command: Command, author: string, verified: bool, member: bool, recorded: bool): State {
    var h, over := |s.handlers|, Moved(s, Over);
    if !verified || command.Other? then over
    else if command.Reject? then
      over.(gate := None, waiters := if s.gate.Some? then Settle(s.waiters, s.gate.value, Rejected) else s.waiters)
    else if s.gate.None? || !member then over
    else if !recorded then over.(trace := s.trace + [Member(h, author)])
    else
      over.(gate := None, waiters := Settle(s.waiters, s.gate.value, Approved),
            trace := s.trace + [Member(h, author)] + [GateApproved(h, author, s.gate.value, s.run, |s.trace|)])
  }

  /** A step of the handler added last. */
  lemma LastMoves(s: State, h: Handler, ok: bool)
    ensures Step(Moved(s, h), HandlerOn(|s.handlers|, ok)) ==
            match h
            case Verify(command, author) =>
              if !ok || command.Other? then Moved(s, Over)
              else if command.Reject? then
                Moved(s, Over).(gate := None, waiters := if s.gate.Some? then Settle(s.waiters, s.gate.value, Rejected) else s.waiters)
              else if s.gate.None? then Moved(s, Over)
              else Moved(s, CheckMembership(s.gate.value, author))
            case CheckMembership(w, author) =>
              if ok then Moved(s, RecordApproval(w, author, s.run, |s.trace|)).(trace := s.trace + [Member(|s.handlers|, author)]) else Moved(s, Over)
            case RecordApproval(w, author, runId, asked) =>
              if ok then Moved(s, ResolveGate(w)).(trace := s.trace + [GateApproved(|s.handlers|, author, w, runId, asked)]) else Moved(s, Over)
            case ResolveGate(w) => Moved(s, Over).(gate := None, waiters := Settle(s.waiters, w, Approved))
            case Over => Moved(s, Over)
            case _ => Step(Moved(s, h), HandlerOn(|s.handlers|, ok))
  {
    hide Settle, SettleCi;
  }

  lemma JiraDeliveryIs(s: State, command: Command, author: string, verified: bool, member: bool, recorded: bool)
    ensures Run(s, JiraDelivery(|s.handlers|, command, author, verified, member, recorded)) == JiraResult(s, command, author, verified, member, recorded)
  {
    var h := |s.handlers|;
    RunFive(s, Jira(command, author), HandlerOn(h, verified), HandlerOn(h, member), HandlerOn(h, recorded), HandlerOn(h, true));
    assert Step(s, Jira(command, author)) == Moved(s, Verify(command, author));
    hide Step, Run, Settle;
    LastMoves(s, Verify(command, author), verified);
    if !verified || !command.Approve? || s.gate.None? {
      var ended := Step(Moved(s, Verify(command, author)), HandlerOn(h, verified));
      var base := ended.(handlers := s.handlers);
      assert ended == Moved(base, Over);
      LastMoves(base, Over, member);
      LastMoves(base, Over, recorded);
      LastMoves(base, Over, true);
    } else {
      ApprovalIs(s, author, s.gate.value, member, recorded);
    }
  }

  lemma ApprovalIs(s: State, author: string, w: nat, member: bool, recorded: bool)
    ensures var h := |s.handlers|;
            Step(Step(Step(Moved(s, CheckMembership(w, author)), HandlerOn(h, member)), HandlerOn(h, recorded)), HandlerOn(h, true)) ==
            if !member then Moved(s, Over)
            else if !recorded then Moved(s, Over).(trace := s.trace + [Member(h, author)])
            else Moved(s, Over).(gate := None, waiters := Settle(s.waiters, w, Approved),
                                 trace := s.trace + [Member(h, author)] + [GateApproved(h, author, w, s.run, |s.trace|)])
  {
    hide Step, Settle;
    LastMoves(s, CheckMembership(w, author), member);
    if !member {
      LastMoves(s, Over, recorded);
      LastMoves(s, Over, true);
    } else {
      var told := s.(trace := s.trace + [Member(|s.handlers|, author)]);
      LastMoves(told, RecordApproval(w, author, s.run, |s.trace|), recorded);
      if recorded {
        var written := told.(trace := told.trace + [GateApproved(|s.handlers|, author, w, s.run, |s.trace|)]);
        LastMoves(written, ResolveGate(w), true);
      } else {
        LastMoves(told, Over, true);
      }
    }
  }

  class RunObject {
    var run: nat
    var stage: Stage
    var gate: Option<nat>
    var ciWaiter: Option<nat>
    var waiters: seq<Waiter>
    var cis: seq<CiWaiter>
    var handlers: seq<Handler>
    var trace: seq<Event>

    constructor ()
      ensures View() == Init()
    {
      run, stage, gate, ciWaiter := 0, Idle, None, None;
      waiters, cis, handlers, trace := [], [], [], [];
    }

    ghost function View(): State
      reads this
    {
      State(run, stage, gate, ciWaiter, waiters, cis, handlers, trace)
    }

    method HandleJiraWebhook(command: Command, author: string, verified: bool, member: bool, recorded: bool)
      modifies this`gate, this`waiters, this`handlers, this`trace
      ensures View() == Run(old(View()), JiraDelivery(|old(handlers)|, command, author, verified, member, recorded))
    {
      JiraDeliveryIs(View(), command, author, verified, member, recorded);
      hide Run, JiraDelivery, Settle;
      handlers := handlers + [Over];
      if !verified || command.Other? {
        return;
      }
      if command.Reject? {
        if gate.Some? {
          waiters := Settle(waiters, gate.value, Rejected);
        }
        gate := None;
        return;
      }
      if gate.None? {
        return;
      }
      var waiter := gate.value;
      if !member {
        return;
      }
      trace := trace + [Member(|handlers| - 1, author)];
      if !recorded {
        return;
      }
      trace := trace + [GateApproved(|handlers| - 1, author, waiter, run, |trace| - 1)];
      gate := None;
      waiters := Settle(waiters, waiter, Approved);
    }

    method HandleAdoWebhook(pr: nat, succeeded: bool, parsed: bool, recorded: bool)
      modifies this`ciWaiter, this`cis, this`handlers, this`trace
      ensures View() == Run(old(View()), AdoDelivery(|old(handlers)|, pr, succeeded, parsed, recorded))
    {
      ghost var s, h := View(), |handlers|;
      RunFour(s, Ado(pr, succeeded), HandlerOn(h, parsed), HandlerOn(h, recorded), HandlerOn(h, true));
      handlers := handlers + [Over];
      if !parsed || !recorded {
        return;
      }
      trace := trace + [CiResult(pr, succeeded)];
      if ciWaiter.Some? && ciWaiter.value < |cis| && cis[ciWaiter.value].pr == pr {
        cis := SettleCi(cis, ciWaiter.value, if succeeded then Green else Red);
        ciWaiter := None;
      }
    }
  }

  /**
   * With nothing in between, a verified member's approval is the waiting run's
   * own: it is recorded under that run's id, and that run goes on.
   */
  lemma UninterruptedApprovalLetsTheRunGoOn(s: State, author: string)
    requires Inv(s) && s.stage.AwaitGate? && s.gate == Some(s.stage.waiter)
    requires s.stage.waiter < |s.waiters| && s.waiters[s.stage.waiter].status.Waiting?
    ensures var w, h := s.stage.waiter, |s.handlers|;
            var t := Run(s, JiraDelivery(h, Approve, author, true, true, true));
            && s.waiters[w].run == s.run
            && t.trace == s.trace + [Member(h, author)] + [GateApproved(h, author, w, s.run, |s.trace|)]
            && |t.waiters| == |s.waiters| && t.waiters[w].status.Approved? && t.gate.None?
            && !Step(t, RunOn(Good, 0)).stage.AwaitGate? && !Step(t, RunOn(Good, 0)).stage.Idle?
  {
    hide HandlerHolds, WaiterHolds, MergeHolds, StageHolds;
    WaitsForItsOwn(s);
    ApprovalDelivered(s, author);
    hide Run, Inv;
  }

  lemma WaitsForItsOwn(s: State)
    requires Inv(s) && s.stage.AwaitGate?
    ensures s.stage.waiter < |s.waiters| && s.waiters[s.stage.waiter].run == s.run
  {
  }

  lemma ApprovalDelivered(s: State, author: string)
    requires s.gate.Some? && s.gate.value < |s.waiters| && s.waiters[s.gate.value].status.Waiting?
    ensures var w, h := s.gate.value, |s.handlers|;
            Run(s, JiraDelivery(h, Approve, author, true, true, true)) ==
            s.(gate := None, waiters := s.waiters[w := s.waiters[w].(status := Approved)], handlers := s.handlers + [Over],
               trace := s.trace + [Member(h, author)] + [GateApproved(h, author, w, s.run, |s.trace|)])
  {
    JiraDeliveryIs(s, Approve, author, true, true, true);
    hide Run, JiraDelivery;
  }
}
