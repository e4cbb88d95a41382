/**
 * What a comment command of apps/bff/src/jira-commands.ts leaves behind, told
 * from the comment and the state it finds: what is recorded, what the engine is
 * sent, and what the person is answered. The states are any, so this holds at
 * every point of every session.
 */
module JiraCommandOutcomes {
  import opened Wrappers
  import opened Actors
  import opened FlowDecision
  import opened JiraCommands
  import Gates = GateDecision

  /** What stands before the first dash of a ticket's key. */
  ghost predicate InProject(ticket: string, project: string) {
    project <= ticket && '-' !in project && (|project| == |ticket| || ticket[|project|] == '-')
  }

  lemma FirstIsIn(s: string)
    ensures s != "" ==> s[0] in s
  {
  }

  lemma {:induction false} ProjectKeyIs(ticket: string)
    ensures forall project :: InProject(ticket, project) <==> project == Gates.ProjectKeyOf(ticket)
  {
    if ticket == "" {
      assert forall project | InProject(ticket, project) :: project == "";
    } else if ticket[0] == '-' {
      forall project | InProject(ticket, project) ensures project == "" {
        FirstIsIn(project);
      }
    } else {
      ProjectKeyIs(ticket[1..]);
      var key := Gates.ProjectKeyOf(ticket[1..]);
      assert InProject(ticket[1..], key);
      assert Gates.ProjectKeyOf(ticket) == [ticket[0]] + key;
      assert InProject(ticket, [ticket[0]] + key);
      forall project | InProject(ticket, project) ensures project == [ticket[0]] + key {
        assert project != "";
        assert InProject(ticket[1..], project[1..]);
        assert project == [project[0]] + project[1..];
      }
    }
  }

  /** The ticket's project is bound and not paused. */
  ghost predicate Active(setup: Setup, ticket: string) {
    exists project :: InProject(ticket, project) && project in setup.bindings && setup.bindings[project].active
  }

  lemma ActiveIsBound(setup: Setup, ticket: string)
    ensures Active(setup, ticket) <==> Bound(setup, ticket)
  {
    ProjectKeyIs(ticket);
    assert InProject(ticket, Gates.ProjectKeyOf(ticket));
  }

  /** The command is neither dropped in silence nor held back by the stop, and its author can be named. */
  ghost predicate Heard(setup: Setup, e: Envelope) {
    && Active(setup, e.ticket) && e.actor.Some?
    && (setup.level == All ==> e.command.Approve? || e.command.Reject?)
  }

  /** `after` is `fx` with one more comment on the ticket. */
  predicate Says(fx: Effects, after: Effects, ticket: string, m: Message) {
    after == fx.(comments := fx.comments + [(ticket, m)])
  }

  /** Who is not heard: the unbound in silence, the rest told why. */
  lemma UnheardExactly(setup: Setup, fx: Effects, e: Envelope)
    ensures var (after, outcome) := Handle(setup, fx, e);
            && (outcome == Declined(DroppedUnbound) <==> !Active(setup, e.ticket))
            && (outcome == Declined(DroppedUnbound) ==> after == fx.(droppedUnbound := fx.droppedUnbound + 1))
            && (outcome == Declined(DroppedKillSwitch) <==> Active(setup, e.ticket) && setup.level == All && !e.command.Approve? && !e.command.Reject?)
            && (outcome == Declined(DroppedKillSwitch) ==>
                  Says(fx.(droppedKillSwitch := fx.droppedKillSwitch + 1), after, e.ticket, KillSwitchNote))
            && (outcome == Declined(BadActor) <==>
                  Active(setup, e.ticket) && (setup.level != All || e.command.Approve? || e.command.Reject?) && e.actor.None?)
            && (outcome == Declined(BadActor) ==> Says(fx, after, e.ticket, UnknownActor))
  {
    ActiveIsBound(setup, e.ticket);
    hide Active, Bound, GateCommand, ModeCommand, IntakeCommand, GateRequest;
    if Heard(setup, e) {
      OutcomeKinds(setup, fx, e);
    }
  }

  lemma OutcomeKinds(setup: Setup, fx: Effects, e: Envelope)
    requires e.actor.Some?
    ensures forall q :: GateCommand(setup, fx, q).1 !in {Declined(DroppedUnbound), Declined(DroppedKillSwitch), Declined(BadActor)}
    ensures forall mode, command :: ModeCommand(fx, e.ticket, mode, e.actor.value, command).1 !in {Declined(DroppedUnbound), Declined(DroppedKillSwitch), Declined(BadActor)}
    ensures forall app :: IntakeCommand(setup, fx, e.ticket, app, e.actor.value).1 !in {Declined(DroppedUnbound), Declined(DroppedKillSwitch), Declined(BadActor)}
  {
    hide Decide, Intake;
  }

  // ------------------------------------------------------------------- gates

  /** The run waits at one of the five approval gates, `step`. */
  predicate WaitsAt(fx: Effects, ticket: string, step: string) {
    ticket in fx.runs && fx.runs[ticket].state == Gates.RunState(step, true) && step in {"4", "5", "9", "11", "12"}
  }

  /** That gate belongs to `group` for the ticket's project. */
  ghost predicate OwnedBy(setup: Setup, ticket: string, step: string, group: string) {
    exists project :: InProject(ticket, project) && (step, project) in setup.owners && setup.owners[(step, project)] == group
  }

  /** A decision was recorded, and sent to the engine under the record's number. */
  predicate Decides(fx: Effects, after: Effects, e: Envelope, step: string, group: string, approve: bool, reason: Option<string>, reply: Message)
    requires e.actor.Some?
  {
    after == fx.(
      trail := fx.trail + [GateClosed(Gates.GateRecord(e.actor.value, approve, e.ticket, step, group, false, reason))],
      sent := fx.sent + [GateSignal(Gates.Signal(e.ticket, step, approve, e.actor.value, group, |fx.trail| + 1, false, reason))],
      comments := fx.comments + [(e.ticket, reply)])
  }

  /**
   * `/approve` approves and `/reject` rejects. A person of the group that owns the
   * gate the run waits at is obeyed, recorded and answered so, with the reason
   * given; an account outside that group is told so; and so is one that has no
   * gate, or no run, to decide. Where the account is no person's, the trail throws.
   */
  lemma GateCommandsDoWhatTheySay(setup: Setup, fx: Effects, e: Envelope, step: string, group: string)
    requires Heard(setup, e) && (e.command.Approve? || e.command.Reject?)
    requires WaitsAt(fx, e.ticket, step) && OwnedBy(setup, e.ticket, step, group)
    ensures var (after, outcome) := Handle(setup, fx, e);
            if (e.author, group) !in setup.members then outcome == Declined(ByGate(Gates.NotMember)) && Says(fx, after, e.ticket, MembershipFailed)
            else if !e.actor.value.Human? then outcome == Failed && after == fx
            else
              && outcome == Accepted
              && (e.command.Approve? ==> Decides(fx, after, e, step, group, true, None, GateApproved(step, e.actor.value, |fx.trail| + 1)))
              && (e.command.Reject? ==> Decides(fx, after, e, step, group, false, Some(e.command.reason), GateRejected(step)))
  {
    ActiveIsBound(setup, e.ticket);
    ProjectKeyIs(e.ticket);
    hide Active, Bound, Gates.ProjectKeyOf, ModeCommand, IntakeCommand;
  }

  /** Without such a gate, or such an owner, nothing is decided. */
  lemma NothingToDecide(setup: Setup, fx: Effects, e: Envelope)
    requires Heard(setup, e) && (e.command.Approve? || e.command.Reject?)
    requires forall step, group :: !(WaitsAt(fx, e.ticket, step) && OwnedBy(setup, e.ticket, step, group))
    ensures var (after, outcome) := Handle(setup, fx, e);
            if e.ticket in fx.runs then outcome == Declined(ByGate(Gates.NoOpenGate)) && Says(fx, after, e.ticket, NoOpenGateNote)
            else outcome == Declined(ByGate(Gates.NoRun)) && Says(fx, after, e.ticket, NoRunNote)
  {
    ActiveIsBound(setup, e.ticket);
    ProjectKeyIs(e.ticket);
    hide Active, Bound, ModeCommand, IntakeCommand;
    if e.ticket in fx.runs {
      var step := fx.runs[e.ticket].state.step;
      var key := (step, Gates.ProjectKeyOf(e.ticket));
      hide Gates.ProjectKeyOf;
      if key in setup.owners {
        assert InProject(e.ticket, key.1);
        assert OwnedBy(setup, e.ticket, step, setup.owners[key]);
        assert !WaitsAt(fx, e.ticket, step);
      }
    }
  }

  // ---------------------------------------------------- status and work mode

  /** A question about the run is answered and changes nothing; an explanation is not to be had. */
  lemma QuestionsAreAnswered(setup: Setup, fx: Effects, e: Envelope)
    requires Heard(setup, e) && (e.command.Status? || e.command.Explain?)
    ensures var (after, outcome) := Handle(setup, fx, e);
            if e.command.Explain? then outcome == Declined(NotSupported) && Says(fx, after, e.ticket, Unsupported)
            else if e.ticket !in fx.runs then outcome == Declined(NothingRunning) && Says(fx, after, e.ticket, NoRunNote)
            else outcome == Accepted && Says(fx, after, e.ticket, RunStatus(fx.runs[e.ticket].state.step, fx.runs[e.ticket].state.atGate))
  {
    ActiveIsBound(setup, e.ticket);
    hide Active, Bound;
  }

  /** A work mode reaches the engine as it was asked for, and taking over is the mode in which a human leads. */
  lemma ModesAreSent(setup: Setup, fx: Effects, e: Envelope)
    requires Heard(setup, e) && (e.command.ModeChange? || e.command.Takeover?)
    ensures var (after, outcome) := Handle(setup, fx, e);
            if e.ticket !in fx.runs then outcome == Declined(NothingRunning) && Says(fx, after, e.ticket, NoRunNote)
            else
              var mode, command := if e.command.Takeover? then "human_lead" else e.command.mode, if e.command.Takeover? then "ai-takeover" else "mode-change";
              && outcome == Accepted
              && after == fx.(sent := fx.sent + [ModeSignal(e.ticket, mode, e.actor.value)],
                              trail := fx.trail + [ModeChanged(e.actor.value, e.ticket, mode, command)],
                              comments := fx.comments + [(e.ticket, CommandAccepted)])
  {
    ActiveIsBound(setup, e.ticket);
    hide Active, Bound;
  }

  // ------------------------------------------------------------------ intake

  /** The ticket as the rules see it, when a command asks for a run: no status, and the fields that could be read. */
  ghost predicate SeenAs(setup: Setup, e: Envelope, t: Ticket) {
    && InProject(e.ticket, t.projectKey) && t.status == None
    && (if e.ticket in setup.snapshots
        then t.issueType == Some(setup.snapshots[e.ticket].issueType) && t.assignee == setup.snapshots[e.ticket].assignee
        else t.issueType == None && t.assignee == None)
  }

  /** The flow and board the rules decide, or the deployment's default where there are no rules to read. */
  ghost predicate FlowIs(setup: Setup, t: Ticket, flow: Option<FlowType>, board: Option<StatusMap>) {
    if setup.rules.None? then flow == setup.defaultFlow && board == None
    else var d := FlowDecisionFor(setup.rules.value, t, setup.defaultFlow); flow == d.flow && board == d.statusMap
  }

  /** The application a command names goes before the one the project is bound to. */
  ghost predicate AppIs(setup: Setup, e: Envelope, project: string, app: Option<string>)
    requires project in setup.bindings
  {
    app == if e.command.Assign? then Some(e.command.appId) else setup.bindings[project].appId
  }

  /**
   * `/ai-start` and `/ai-assign` on a project that is bound, with the switch off: a
   * run is refused only for want of an application, and a flow that only analyses
   * needs none. Otherwise one starts, if none is there, with the named application
   * or else the project's, in the project's mode and data class, on the decided
   * flow; and the assignment is recorded in either case.
   */
  lemma StartsAreAsAsked(setup: Setup, fx: Effects, e: Envelope, t: Ticket, flow: Option<FlowType>, board: Option<StatusMap>, app: Option<string>)
    requires Heard(setup, e) && (e.command.Start? || e.command.Assign?) && setup.level == Off
    requires SeenAs(setup, e, t) && FlowIs(setup, t, flow, board) && t.projectKey in setup.bindings && AppIs(setup, e, t.projectKey, app)
    ensures var (after, outcome) := Handle(setup, fx, e);
            var b, actor := setup.bindings[t.projectKey], e.actor.value;
            var input := StartInput(e.ticket, app, b.mode, b.dataClass, flow, board);
            if app.None? && flow != Some(Analiz) then outcome == Declined(ByIntake(NoApplication)) && Says(fx, after, e.ticket, PendingAssignment)
            else
              && outcome == Accepted && after.sent == fx.sent && after.comments[|after.comments| - 1..] == [(e.ticket, CommandAccepted)]
              && after.runs == (if e.ticket in fx.runs then fx.runs else fx.runs[e.ticket := Live(Gates.RunState("0", false), input)])
              && fx.trail <= after.trail
              && (e.ticket !in fx.runs ==>
                    && |after.trail| > |fx.trail| && after.trail[|fx.trail|].RunStarted?
                    && after.trail[|fx.trail|].actor == actor && after.trail[|fx.trail|].input == input
                    && (after.trail[|fx.trail|].named <==> e.command.Assign?))
              && after.trail[|fx.trail| + (if e.ticket in fx.runs then 0 else 1)..] ==
                 (if e.command.Assign? then [AssignApp(actor, e.ticket, e.command.appId)] else [])
  {
    var r := StartIsRequest(setup, fx, e, t);
    hide Intake, Handle, Active, InProject, SeenAs, FlowIs, FlowDecisionFor;
    RequestsAreTakenAsAsked(setup, fx, r, t, flow, board, app);
  }

  /** The command asks intake for a run, explicitly, in the ticket's own terms. */
  lemma StartIsRequest(setup: Setup, fx: Effects, e: Envelope, t: Ticket) returns (r: IntakeRequest)
    requires Heard(setup, e) && (e.command.Start? || e.command.Assign?) && SeenAs(setup, e, t)
    ensures r.explicit && r.ticket == e.ticket && r.actor == e.actor.value && r.appId == (if e.command.Assign? then Some(e.command.appId) else None)
    ensures t == Ticket(t.projectKey, r.status, r.issueType, r.assignee) && InProject(e.ticket, t.projectKey)
    ensures t.projectKey in setup.bindings && setup.bindings[t.projectKey].active
    ensures var (taken, answer) := Intake(setup, fx, r);
            Handle(setup, fx, e) ==
            match answer
            case Turned(why) => (if why == NotOptedIn then Replied(taken, e.ticket, NotOptedInNote) else taken, Declined(ByIntake(why)))
            case Taken(_, _) =>
              (Replied(if r.appId.Some? then taken.(trail := taken.trail + [AssignApp(r.actor, e.ticket, r.appId.value)]) else taken, e.ticket, CommandAccepted), Accepted)
  {
    ActiveIsBound(setup, e.ticket);
    ProjectKeyIs(e.ticket);
    assert t.projectKey == Gates.ProjectKeyOf(e.ticket);
    r := CommandRequest(setup, e.ticket, if e.command.Assign? then Some(e.command.appId) else None, e.actor.value);
    hide Active, InProject, Gates.ProjectKeyOf, Intake, GateCommand, ModeCommand;
  }

  /**
   * A request for a run is turned away for the first of these reasons: the project
   * is unbound, the ticket is not opted in where the project asks for that and the
   * request is not explicit, the switch is on, there is no application and the flow
   * does more than analyse. Otherwise it is taken, and starts a run if none is
   * there.
   */
  lemma RequestsAreTakenAsAsked(setup: Setup, fx: Effects, r: IntakeRequest, t: Ticket, flow: Option<FlowType>, board: Option<StatusMap>, app: Option<string>)
    requires InProject(r.ticket, t.projectKey) && t == Ticket(t.projectKey, r.status, r.issueType, r.assignee) && FlowIs(setup, t, flow, board)
    requires t.projectKey in setup.bindings ==> app == if r.appId.Some? then r.appId else setup.bindings[t.projectKey].appId
    ensures var (after, outcome) := Intake(setup, fx, r);
            if t.projectKey !in setup.bindings || !setup.bindings[t.projectKey].active then
              outcome == Turned(Unbound) && after == fx.(droppedUnbound := fx.droppedUnbound + 1)
            else
              var b := setup.bindings[t.projectKey];
              var input := StartInput(r.ticket, app, b.mode, b.dataClass, flow, board);
              if b.optIn && !r.explicit && setup.optInLabel !in r.labels then outcome == Turned(NotOptedIn) && after == fx
              else if setup.level != Off then
                outcome == Turned(KillSwitch) && Says(fx.(droppedKillSwitch := fx.droppedKillSwitch + 1), after, r.ticket, KillSwitchNote)
              else if app.None? && flow != Some(Analiz) then outcome == Turned(NoApplication) && Says(fx, after, r.ticket, PendingAssignment)
              else if r.ticket in fx.runs then outcome == Taken(r.ticket, false) && after == fx
              else
                && outcome == Taken(r.ticket, true)
                && after.runs == fx.runs[r.ticket := Live(Gates.RunState("0", false), input)] && after.sent == fx.sent
                && after.comments == fx.comments + [(r.ticket, IntakeAccepted)]
                && |after.trail| == |fx.trail| + 1 && fx.trail <= after.trail
                && after.trail[|fx.trail|].RunStarted? && after.trail[|fx.trail|].actor == r.actor && after.trail[|fx.trail|].input == input
                && (after.trail[|fx.trail|].named <==> r.appId.Some?)
  {
    ProjectKeyIs(r.ticket);
    hide InProject, Gates.ProjectKeyOf, FlowDecisionFor;
  }

  /** Under any stop both are held back, the person is told once, and nothing starts. */
  lemma StopsHoldStartsBack(setup: Setup, fx: Effects, e: Envelope)
    requires Heard(setup, e) && (e.command.Start? || e.command.Assign?) && setup.level != Off
    ensures var (after, outcome) := Handle(setup, fx, e);
            outcome == Declined(ByIntake(KillSwitch)) && Says(fx.(droppedKillSwitch := fx.droppedKillSwitch + 1), after, e.ticket, KillSwitchNote)
  {
    ActiveIsBound(setup, e.ticket);
    hide Active, Gates.ProjectKeyOf, DecideFlow, AppOf;
  }
}
