/**
 * Taking tickets in and carrying out comment commands, each call on its own:
 * apps/bff/src/jira-intake.ts and apps/bff/src/jira-commands.ts, closing gates
 * through apps/bff/src/gate-decision.ts. Nothing they call fails here.
 */
module JiraCommands {
  import opened Wrappers
  import opened Actors
  import opened FlowDecision
  import Gates = GateDecision

  datatype Level = Off | IntakeOnly | All

  datatype Binding = Binding(active: bool, optIn: bool, appId: Option<string>, mode: string, dataClass: string)

  /** The fields of a ticket that `classifyingFields` reads. */
  datatype Snapshot = Snapshot(issueType: string, labels: seq<string>, assignee: Option<string>)

  /** What the calls only read. `rules` is `None` when no store is wired or it does not answer. */
  datatype Setup = Setup(
    bindings: map<string, Binding>,
    level: Level,
    rules: Option<seq<Rule>>,
    defaultFlow: Option<FlowType>,
    optInLabel: string,
    owners: map<(string, string), string>,
    members: set<(string, string)>,
    snapshots: map<string, Snapshot>)

  datatype StartInput = StartInput(ticket: string, appId: Option<string>, mode: string, dataClass: string, flow: Option<FlowType>, statusMap: Option<StatusMap>)

  datatype Live = Live(state: Gates.RunState, input: StartInput)

  datatype Entry =
    | RunStarted(actor: Actor, input: StartInput, decision: Decision, named: bool)
    | AssignApp(actor: Actor, subject: string, appId: string)
    | ModeChanged(actor: Actor, subject: string, mode: string, command: string)
    | GateClosed(record: Gates.GateRecord)

  datatype Message =
    | KillSwitchNote | PendingAssignment | IntakeAccepted | UnknownActor | GateApproved(step: string, actor: Actor, signatureSeq: nat)
    | GateRejected(step: string) | MembershipFailed | NoRunNote | NoOpenGateNote | RunStatus(step: string, atGate: bool)
    | CommandAccepted | Unsupported | NotOptedInNote

  datatype Sent = GateSignal(signal: Gates.Signal) | ModeSignal(ticket: string, mode: string, actor: Actor)

  /** A run as it was started: what was asked, under which setup, and what the engine was given. */
  datatype Begun = Begun(request: IntakeRequest, setup: Setup, input: StartInput)

  /** What the calls change. `starts` is history: every run ever started. */
  datatype Effects = Effects(
    runs: map<string, Live>,
    starts: seq<Begun>,
    trail: seq<Entry>,
    comments: seq<(string, Message)>,
    sent: seq<Sent>,
    droppedUnbound: nat,
    droppedKillSwitch: nat)

  datatype IntakeRequest = IntakeRequest(
    ticket: string,
    labels: seq<string>,
    explicit: bool,
    appId: Option<string>,
    actor: Actor,
    status: Option<string>,
    issueType: Option<string>,
    assignee: Option<string>)

  datatype Refusal = Unbound | NotOptedIn | KillSwitch | NoApplication

  datatype IntakeOutcome = Taken(workflowTicket: string, started: bool) | Turned(why: Refusal)

  datatype Command = Approve | Reject(reason: string) | Status | ModeChange(mode: string) | Takeover | Start | Assign(appId: string) | Explain

  datatype Why = ByIntake(refusal: Refusal) | ByGate(failure: Gates.Failure) | DroppedUnbound | DroppedKillSwitch | BadActor | NothingRunning | NotSupported

  datatype CommandOutcome = Accepted | Declined(why: Why) | Failed

  /** A parsed comment; `actor` is what `toActorOrNull` made of its author. */
  datatype Envelope = Envelope(ticket: string, author: string, actor: Option<Actor>, command: Command)

  // ---------------------------------------------------------- specification

  predicate Bound(setup: Setup, ticket: string) {
    var key := Gates.ProjectKeyOf(ticket);
    key in setup.bindings && setup.bindings[key].active
  }

  function BindingOf(setup: Setup, ticket: string): Binding
    requires Bound(setup, ticket)
  {
    setup.bindings[Gates.ProjectKeyOf(ticket)]
  }

  function DecideFlow(setup: Setup, r: IntakeRequest): Decision {
    if setup.rules.None? then
      if setup.defaultFlow.None? then Decision(None, Unset, None, [], None) else Decision(setup.defaultFlow, Default, None, [], None)
    else
      FlowDecisionFor(setup.rules.value, Ticket(Gates.ProjectKeyOf(r.ticket), r.status, r.issueType, r.assignee), setup.defaultFlow)
  }

  function AppOf(setup: Setup, r: IntakeRequest): Option<string>
    requires Bound(setup, r.ticket)
  {
    if r.appId.Some? then r.appId else BindingOf(setup, r.ticket).appId
  }

  function InputOf(setup: Setup, r: IntakeRequest): StartInput
    requires Bound(setup, r.ticket)
  {
    var b, d := BindingOf(setup, r.ticket), DecideFlow(setup, r);
    StartInput(r.ticket, AppOf(setup, r), b.mode, b.dataClass, d.flow, d.statusMap)
  }

  /** The reason a request is turned away, in the order the reasons are looked for. */
  function Verdict(setup: Setup, r: IntakeRequest): Option<Refusal> {
    if !Bound(setup, r.ticket) then Some(Unbound)
    else if !r.explicit && BindingOf(setup, r.ticket).optIn && setup.optInLabel !in r.labels then Some(NotOptedIn)
    else if setup.level != Off then Some(KillSwitch)
    else if AppOf(setup, r).None? && DecideFlow(setup, r).flow != Some(Analiz) then Some(NoApplication)
    else None
  }

  function Intake(setup: Setup, fx: Effects, r: IntakeRequest): (Effects, IntakeOutcome) {
    match Verdict(setup, r)
    case Some(Unbound) => (fx.(droppedUnbound := fx.droppedUnbound + 1), Turned(Unbound))
    case Some(NotOptedIn) => (fx, Turned(NotOptedIn))
    case Some(KillSwitch) =>
      (fx.(droppedKillSwitch := fx.droppedKillSwitch + 1, comments := fx.comments + [(r.ticket, KillSwitchNote)]), Turned(KillSwitch))
    case Some(NoApplication) => (fx.(comments := fx.comments + [(r.ticket, PendingAssignment)]), Turned(NoApplication))
    case None =>
      var input := InputOf(setup, r);
      if r.ticket in fx.runs then (fx, Taken(r.ticket, false))
      else
        (fx.(runs := fx.runs[r.ticket := Live(Gates.RunState("0", false), input)],
             starts := fx.starts + [Begun(r, setup, input)],
             trail := fx.trail + [RunStarted(r.actor, input, DecideFlow(setup, r), r.appId.Some?)],
             comments := fx.comments + [(r.ticket, IntakeAccepted)]),
         Taken(r.ticket, true))
  }

  /** The request `/ai-start` and `/ai-assign` make, with the fields read from the ticket when it can be read. */
  function CommandRequest(setup: Setup, ticket: string, appId: Option<string>, actor: Actor): IntakeRequest {
    if ticket in setup.snapshots then
      var s := setup.snapshots[ticket];
      IntakeRequest(ticket, s.labels, true, appId, actor, None, Some(s.issueType), s.assignee)
    else IntakeRequest(ticket, [], true, appId, actor, None, None, None)
  }

  function GateRequest(e: Envelope, actor: Actor): Gates.Request {
    Gates.Request(e.ticket, e.command.Approve?, if e.command.Reject? then Some(e.command.reason) else None, actor, e.author, false)
  }

  datatype GateOutcome = GateThrew | GateAnswer(result: Gates.Result)

  /** `decideGate` with nothing in between. */
  function Decide(setup: Setup, fx: Effects, q: Gates.Request): (Effects, GateOutcome) {
    if q.ticket !in fx.runs then (fx, GateAnswer(Gates.Refused(Gates.NoRun)))
    else
      var state := fx.runs[q.ticket].state;
      var key := (state.step, Gates.ProjectKeyOf(q.ticket));
      if !state.atGate || !Gates.IsApprovalGate(state.step) || key !in setup.owners then (fx, GateAnswer(Gates.Refused(Gates.NoOpenGate)))
      else
        var group := setup.owners[key];
        if (q.membershipId, group) !in setup.members then (fx, GateAnswer(Gates.Refused(Gates.NotMember)))
        else if !q.actor.Human? then (fx, GateThrew)
        else
          var signatureSeq := |fx.trail| + 1;
          (fx.(trail := fx.trail + [GateClosed(Gates.RecordOf(q, state.step, group))],
               sent := fx.sent + [GateSignal(Gates.SignalOf(q, state.step, group, signatureSeq))]),
           GateAnswer(Gates.Closed(state.step, group, signatureSeq)))
  }

  function Replied(fx: Effects, ticket: string, m: Message): Effects {
    fx.(comments := fx.comments + [(ticket, m)])
  }

  function GateReply(q: Gates.Request, result: Gates.Result): Message {
    match result
    case Closed(step, _, signatureSeq) => if q.approve then GateApproved(step, q.actor, signatureSeq) else GateRejected(step)
    case Refused(why) =>
      match why
      case NotMember => MembershipFailed
      case NoOpenGate => NoOpenGateNote
      case _ => NoRunNote
  }

  function GateCommand(setup: Setup, fx: Effects, q: Gates.Request): (Effects, CommandOutcome) {
    var (after, outcome) := Decide(setup, fx, q);
    match outcome
    case GateThrew => (after, Failed)
    case GateAnswer(result) =>
      (Replied(after, q.ticket, GateReply(q, result)), if result.Closed? then Accepted else Declined(ByGate(result.why)))
  }

  function ModeCommand(fx: Effects, ticket: string, mode: string, actor: Actor, command: string): (Effects, CommandOutcome) {
    if ticket !in fx.runs then (Replied(fx, ticket, NoRunNote), Declined(NothingRunning))
    else
      (Replied(fx.(sent := fx.sent + [ModeSignal(ticket, mode, actor)],
                   trail := fx.trail + [ModeChanged(actor, ticket, mode, command)]), ticket, CommandAccepted), Accepted)
  }

  function IntakeCommand(setup: Setup, fx: Effects, ticket: string, appId: Option<string>, actor: Actor): (Effects, CommandOutcome) {
    var (after, outcome) := Intake(setup, fx, CommandRequest(setup, ticket, appId, actor));
    match outcome
    case Turned(why) => (if why == NotOptedIn then Replied(after, ticket, NotOptedInNote) else after, Declined(ByIntake(why)))
    case Taken(_, _) =>
      var noted := if appId.Some? then after.(trail := after.trail + [AssignApp(actor, ticket, appId.value)]) else after;
      (Replied(noted, ticket, CommandAccepted), Accepted)
  }

  predicate ClosesGates(c: Command) {
    c.Approve? || c.Reject?
  }

  function Handle(setup: Setup, fx: Effects, e: Envelope): (Effects, CommandOutcome) {
    if !Bound(setup, e.ticket) then (fx.(droppedUnbound := fx.droppedUnbound + 1), Declined(DroppedUnbound))
    else if setup.level == All && !ClosesGates(e.command) then
      (Replied(fx.(droppedKillSwitch := fx.droppedKillSwitch + 1), e.ticket, KillSwitchNote), Declined(DroppedKillSwitch))
    else if e.actor.None? then (Replied(fx, e.ticket, UnknownActor), Declined(BadActor))
    else
      var actor := e.actor.value;
      match e.command
      case Approve => GateCommand(setup, fx, GateRequest(e, actor))
      case Reject(_) => GateCommand(setup, fx, GateRequest(e, actor))
      case Status =>
        if e.ticket !in fx.runs then (Replied(fx, e.ticket, NoRunNote), Declined(NothingRunning))
        else (Replied(fx, e.ticket, RunStatus(fx.runs[e.ticket].state.step, fx.runs[e.ticket].state.atGate)), Accepted)
      case ModeChange(mode) => ModeCommand(fx, e.ticket, mode, actor, "mode-change")
      case Takeover => ModeCommand(fx, e.ticket, "human_lead", actor, "ai-takeover")
      case Start => IntakeCommand(setup, fx, e.ticket, None, actor)
      case Assign(appId) => IntakeCommand(setup, fx, e.ticket, Some(appId), actor)
      case Explain => (Replied(fx, e.ticket, Unsupported), Declined(NotSupported))
  }

  // ---------------------------------------------------------------- the code

  class Platform {
    var setup: Setup
    var runs: map<string, Live>
    ghost var starts: seq<Begun>
    var trail: seq<Entry>
    var comments: seq<(string, Message)>
    var sent: seq<Sent>
    var droppedUnbound: nat
    var droppedKillSwitch: nat

    constructor (initial: Setup)
      ensures setup == initial && View() == Effects(map[], [], [], [], [], 0, 0)
    {
      setup := initial;
      runs, starts, trail, comments, sent := map[], [], [], [], [];
      droppedUnbound, droppedKillSwitch := 0, 0;
    }

    ghost function View(): Effects
      reads this
    {
      Effects(runs, starts, trail, comments, sent, droppedUnbound, droppedKillSwitch)
    }

    method AddComment(ticket: string, m: Message)
      modifies this`comments
      ensures comments == old(comments) + [(ticket, m)]
    {
      comments := comments + [(ticket, m)];
    }

    method RunIntake(r: IntakeRequest) returns (outcome: IntakeOutcome)
      modifies this
      ensures setup == old(setup)
      ensures (View(), outcome) == Intake(setup, old(View()), r)
    {
      var key := Gates.ProjectKeyOf(r.ticket);
      if key !in setup.bindings || !setup.bindings[key].active {
        droppedUnbound := droppedUnbound + 1;
        return Turned(Unbound);
      }
      var binding := setup.bindings[key];
      if !r.explicit && binding.optIn && setup.optInLabel !in r.labels {
        return Turned(NotOptedIn);
      }
      if setup.level != Off {
        droppedKillSwitch := droppedKillSwitch + 1;
        AddComment(r.ticket, KillSwitchNote);
        return Turned(KillSwitch);
      }
      var decision := DecideFlow(setup, r);
      var appId := if r.appId.Some? then r.appId else binding.appId;
      if appId.None? && decision.flow != Some(Analiz) {
        AddComment(r.ticket, PendingAssignment);
        return Turned(NoApplication);
      }
      var input := StartInput(r.ticket, appId, binding.mode, binding.dataClass, decision.flow, decision.statusMap);
      var started := r.ticket !in runs;
      if started {
        runs := runs[r.ticket := Live(Gates.RunState("0", false), input)];
        starts := starts + [Begun(r, setup, input)];
        trail := trail + [RunStarted(r.actor, input, decision, r.appId.Some?)];
        AddComment(r.ticket, IntakeAccepted);
      }
      return Taken(r.ticket, started);
    }

    method DecideGate(q: Gates.Request) returns (outcome: GateOutcome)
      modifies this`trail, this`sent
      ensures (View(), outcome) == Decide(setup, old(View()), q)
    {
      if q.ticket !in runs {
        return GateAnswer(Gates.Refused(Gates.NoRun));
      }
      var state := runs[q.ticket].state;
      if !state.atGate || !Gates.IsApprovalGate(state.step) {
        return GateAnswer(Gates.Refused(Gates.NoOpenGate));
      }
      var key := (state.step, Gates.ProjectKeyOf(q.ticket));
      if key !in setup.owners {
        return GateAnswer(Gates.Refused(Gates.NoOpenGate));
      }
      var group := setup.owners[key];
      if (q.membershipId, group) !in setup.members {
        return GateAnswer(Gates.Refused(Gates.NotMember));
      }
      if !q.actor.Human? {
        return GateThrew;
      }
      trail := trail + [GateClosed(Gates.RecordOf(q, state.step, group))];
      var signatureSeq := |trail|;
      sent := sent + [GateSignal(Gates.SignalOf(q, state.step, group, signatureSeq))];
      return GateAnswer(Gates.Closed(state.step, group, signatureSeq));
    }

    method RunGateCommand(q: Gates.Request) returns (outcome: CommandOutcome)
      modifies this`trail, this`sent, this`comments
      ensures (View(), outcome) == GateCommand(setup, old(View()), q)
    {
      var decided := DecideGate(q);
      if decided.GateThrew? {
        return Failed;
      }
      var result := decided.result;
      AddComment(q.ticket, GateReply(q, result));
      return if result.Closed? then Accepted else Declined(ByGate(result.why));
    }

    method RunModeCommand(ticket: string, mode: string, actor: Actor, command: string) returns (outcome: CommandOutcome)
      modifies this`trail, this`sent, this`comments
      ensures (View(), outcome) == ModeCommand(old(View()), ticket, mode, actor, command)
    {
      if ticket !in runs {
        AddComment(ticket, NoRunNote);
        return Declined(NothingRunning);
      }
      sent := sent + [ModeSignal(ticket, mode, actor)];
      trail := trail + [ModeChanged(actor, ticket, mode, command)];
      AddComment(ticket, CommandAccepted);
      return Accepted;
    }

    method RunIntakeCommand(ticket: string, appId: Option<string>, actor: Actor) returns (outcome: CommandOutcome)
      modifies this
      ensures setup == old(setup)
      ensures (View(), outcome) == IntakeCommand(setup, old(View()), ticket, appId, actor)
    {
      hide Intake, CommandRequest;
      var taken := RunIntake(CommandRequest(setup, ticket, appId, actor));
      if taken.Taken? && appId.Some? {
        trail := trail + [AssignApp(actor, ticket, appId.value)];
      }
      if taken.Turned? {
        if taken.why == NotOptedIn {
          AddComment(ticket, NotOptedInNote);
        }
        return Declined(ByIntake(taken.why));
      }
      AddComment(ticket, CommandAccepted);
      return Accepted;
    }

    method HandleCommand(e: Envelope) returns (outcome: CommandOutcome)
      modifies this
      ensures setup == old(setup)
      ensures (View(), outcome) == Handle(setup, old(View()), e)
    {
      hide Intake, Decide;
      var key := Gates.ProjectKeyOf(e.ticket);
      if key !in setup.bindings || !setup.bindings[key].active {
        droppedUnbound := droppedUnbound + 1;
        return Declined(DroppedUnbound);
      }
      if setup.level == All && !ClosesGates(e.command) {
        droppedKillSwitch := droppedKillSwitch + 1;
        AddComment(e.ticket, KillSwitchNote);
        return Declined(DroppedKillSwitch);
      }
      if e.actor.None? {
        AddComment(e.ticket, UnknownActor);
        return Declined(BadActor);
      }
      var actor := e.actor.value;
      match e.command {
        case Approve => outcome := RunGateCommand(GateRequest(e, actor));
        case Reject(_) => outcome := RunGateCommand(GateRequest(e, actor));
        case Status =>
          if e.ticket !in runs {
            AddComment(e.ticket, NoRunNote);
            return Declined(NothingRunning);
          }
          AddComment(e.ticket, RunStatus(runs[e.ticket].state.step, runs[e.ticket].state.atGate));
          return Accepted;
        case ModeChange(mode) => outcome := RunModeCommand(e.ticket, mode, actor, "mode-change");
        case Takeover => outcome := RunModeCommand(e.ticket, "human_lead", actor, "ai-takeover");
        case Start => outcome := RunIntakeCommand(e.ticket, None, actor);
        case Assign(appId) => outcome := RunIntakeCommand(e.ticket, Some(appId), actor);
        case Explain =>
          AddComment(e.ticket, Unsupported);
          return Declined(NotSupported);
      }
    }
  }

  // --------------------------------------------------------------- sessions

  /** Calls, and what administrators and the workflow do between them. */
  datatype Op =
    | TakeIn(request: IntakeRequest)
    | Comment(envelope: Envelope)
    | Configure(setup: Setup)
    | Move(ticket: string, state: Gates.RunState)
    | End(ticket: string)

  function Do(setup: Setup, fx: Effects, op: Op): (Setup, Effects) {
    match op
    case TakeIn(r) => (setup, Intake(setup, fx, r).0)
    case Comment(e) => (setup, Handle(setup, fx, e).0)
    case Configure(next) => (next, fx)
    case Move(ticket, state) => (setup, if ticket in fx.runs then fx.(runs := fx.runs[ticket := fx.runs[ticket].(state := state)]) else fx)
    case End(ticket) => (setup, fx.(runs := fx.runs - {ticket}))
  }

  function Session(setup: Setup, fx: Effects, ops: seq<Op>): (Setup, Effects)
    decreases ops
  {
    if ops == [] then (setup, fx)
    else
      var (s, f) := Do(setup, fx, ops[0]);
      Session(s, f, ops[1..])
  }

  // ------------------------------------------------- what one call can touch

  function SubjectOf(e: Entry): string {
    match e
    case RunStarted(_, input, _, _) => input.ticket
    case AssignApp(_, subject, _) => subject
    case ModeChanged(_, subject, _, _) => subject
    case GateClosed(record) => record.subject
  }

  function TicketOf(s: Sent): string {
    match s
    case GateSignal(signal) => signal.ticket
    case ModeSignal(ticket, _, _) => ticket
  }

  /** `after` is `fx` with at most more written about `ticket`, and at most that ticket's run changed. */
  ghost predicate Touches(fx: Effects, after: Effects, ticket: string) {
    && fx.trail <= after.trail && (forall i | |fx.trail| <= i < |after.trail| :: SubjectOf(after.trail[i]) == ticket)
    && fx.comments <= after.comments && (forall i | |fx.comments| <= i < |after.comments| :: after.comments[i].0 == ticket)
    && fx.sent <= after.sent && (forall i | |fx.sent| <= i < |after.sent| :: TicketOf(after.sent[i]) == ticket)
    && fx.starts <= after.starts && (forall i | |fx.starts| <= i < |after.starts| :: after.starts[i].input.ticket == ticket)
    && (forall t | t in fx.runs :: t in after.runs && after.runs[t] == fx.runs[t])
    && (forall t | t in after.runs && t !in fx.runs :: t == ticket)
  }

  lemma IntakeTouches(setup: Setup, fx: Effects, r: IntakeRequest)
    ensures Touches(fx, Intake(setup, fx, r).0, r.ticket)
  {
    hide DecideFlow, AppOf, Verdict;
  }

  lemma GateCommandTouches(setup: Setup, fx: Effects, q: Gates.Request)
    ensures Touches(fx, GateCommand(setup, fx, q).0, q.ticket)
  {
    hide Gates.ProjectKeyOf, Gates.IsApprovalGate, GateReply;
  }

  lemma ModeCommandTouches(fx: Effects, ticket: string, mode: string, actor: Actor, command: string)
    ensures Touches(fx, ModeCommand(fx, ticket, mode, actor, command).0, ticket)
  {
  }

  lemma IntakeCommandTouches(setup: Setup, fx: Effects, ticket: string, appId: Option<string>, actor: Actor)
    ensures Touches(fx, IntakeCommand(setup, fx, ticket, appId, actor).0, ticket)
  {
    IntakeTouches(setup, fx, CommandRequest(setup, ticket, appId, actor));
    hide Intake;
  }

  lemma HandleTouches(setup: Setup, fx: Effects, e: Envelope)
    ensures Touches(fx, Handle(setup, fx, e).0, e.ticket)
  {
    hide GateCommand, ModeCommand, IntakeCommand, Bound;
    if Bound(setup, e.ticket) && !(setup.level == All && !ClosesGates(e.command)) && e.actor.Some? {
      var actor := e.actor.value;
      match e.command {
        case Approve => GateCommandTouches(setup, fx, GateRequest(e, actor));
        case Reject(_) => GateCommandTouches(setup, fx, GateRequest(e, actor));
        case ModeChange(mode) => ModeCommandTouches(fx, e.ticket, mode, actor, "mode-change");
        case Takeover => ModeCommandTouches(fx, e.ticket, "human_lead", actor, "ai-takeover");
        case Start => IntakeCommandTouches(setup, fx, e.ticket, None, actor);
        case Assign(appId) => IntakeCommandTouches(setup, fx, e.ticket, Some(appId), actor);
        case _ =>
      }
    }
  }

  // ------------------------------------------------------ every started run

  /** What a run may be started on. */
  ghost predicate Allowed(b: Begun) {
    && Bound(b.setup, b.request.ticket) && b.setup.level == Off
    && (b.request.explicit || !BindingOf(b.setup, b.request.ticket).optIn || b.setup.optInLabel in b.request.labels)
    && b.input == InputOf(b.setup, b.request)
    && (b.input.appId.Some? || b.input.flow == Some(Analiz))
  }

  /** The setup in force when operation `i` of a session is carried out. */
  function SetupAt(setup: Setup, ops: seq<Op>, i: nat): Setup
    requires i <= |ops|
    decreases ops
  {
    if i == 0 then setup else SetupAt(if ops[0].Configure? then ops[0].setup else setup, ops[1..], i - 1)
  }

  /** The intake request an operation makes, when it makes one. */
  function RequestOf(setup: Setup, op: Op): Option<IntakeRequest> {
    match op
    case TakeIn(r) => Some(r)
    case Comment(e) =>
      if e.actor.None? then None
      else if e.command.Start? then Some(CommandRequest(setup, e.ticket, None, e.actor.value))
      else if e.command.Assign? then Some(CommandRequest(setup, e.ticket, Some(e.command.appId), e.actor.value))
      else None
    case _ => None
  }

  lemma IntakeStarts(setup: Setup, fx: Effects, r: IntakeRequest)
    ensures var after := Intake(setup, fx, r).0;
            || after.starts == fx.starts
            || (Bound(setup, r.ticket) && r.ticket !in fx.runs
                && after.starts == fx.starts + [Begun(r, setup, InputOf(setup, r))] && Allowed(Begun(r, setup, InputOf(setup, r))))
  {
    hide DecideFlow, Gates.ProjectKeyOf;
  }

  lemma HandleStarts(setup: Setup, fx: Effects, e: Envelope)
    ensures var after, r := Handle(setup, fx, e).0, RequestOf(setup, Comment(e));
            || after.starts == fx.starts
            || (r.Some? && Bound(setup, r.value.ticket)
                && after.starts == fx.starts + [Begun(r.value, setup, InputOf(setup, r.value))] && Allowed(Begun(r.value, setup, InputOf(setup, r.value))))
  {
    if e.actor.Some? {
      if e.command.Start? {
        IntakeStarts(setup, fx, CommandRequest(setup, e.ticket, None, e.actor.value));
      } else if e.command.Assign? {
        IntakeStarts(setup, fx, CommandRequest(setup, e.ticket, Some(e.command.appId), e.actor.value));
      }
    }
    hide Intake, Allowed, InputOf, CommandRequest, Decide, Bound;
  }

  lemma DoStarts(setup: Setup, fx: Effects, op: Op)
    ensures var after, r := Do(setup, fx, op).1, RequestOf(setup, op);
            || after.starts == fx.starts
            || (r.Some? && Bound(setup, r.value.ticket)
                && after.starts == fx.starts + [Begun(r.value, setup, InputOf(setup, r.value))] && Allowed(Begun(r.value, setup, InputOf(setup, r.value))))
  {
    hide Intake, Handle, Allowed, InputOf, CommandRequest, Bound;
    match op {
      case TakeIn(r) => IntakeStarts(setup, fx, r);
      case Comment(e) => HandleStarts(setup, fx, e);
      case _ =>
    }
  }

  lemma {:induction false} StartsGrow(setup: Setup, fx: Effects, ops: seq<Op>)
    ensures fx.starts <= Session(setup, fx, ops).1.starts
    decreases ops
  {
    if ops != [] {
      hide Do, Allowed, InputOf, RequestOf;
      DoStarts(setup, fx, ops[0]);
      var (s, f) := Do(setup, fx, ops[0]);
      StartsGrow(s, f, ops[1..]);
    }
  }

  /**
   * Every run started in a session was asked for by one of its operations, under
   * the setup in force then; and that setup bound the project and was active, had
   * the switch off, asked for no opt-in the request had not given, and named an
   * application unless the flow it decided only analyses.
   */
  lemma {:induction false} EveryStartWasAllowed(setup: Setup, fx: Effects, ops: seq<Op>, k: nat) returns (i: nat)
    requires |fx.starts| <= k < |Session(setup, fx, ops).1.starts|
    ensures var b := Session(setup, fx, ops).1.starts[k];
            && i < |ops| && b.setup == SetupAt(setup, ops, i) && RequestOf(b.setup, ops[i]) == Some(b.request) && Allowed(b)
    decreases ops
  {
    hide Allowed, InputOf, RequestOf, Intake, Handle;
    var (s, f) := Do(setup, fx, ops[0]);
    DoStarts(setup, fx, ops[0]);
    StartsGrow(s, f, ops[1..]);
    assert s == if ops[0].Configure? then ops[0].setup else setup;
    if k < |f.starts| {
      i := 0;
      assert Session(setup, fx, ops).1.starts[k] == f.starts[k];
    } else {
      var j := EveryStartWasAllowed(s, f, ops[1..], k);
      i := j + 1;
    }
  }

  // ------------------------------------------------------------- the full stop

  ghost predicate StoppedThroughout(setup: Setup, ops: seq<Op>) {
    setup.level == All && forall op | op in ops && op.Configure? :: op.setup.level == All
  }

  /** Only gate decisions were added, and no run. */
  ghost predicate OnlyGates(fx: Effects, after: Effects) {
    && after.starts == fx.starts && after.runs.Keys <= fx.runs.Keys
    && fx.trail <= after.trail && (forall i | |fx.trail| <= i < |after.trail| :: after.trail[i].GateClosed?)
    && fx.sent <= after.sent && (forall i | |fx.sent| <= i < |after.sent| :: after.sent[i].GateSignal?)
  }

  lemma StoppedDo(setup: Setup, fx: Effects, op: Op)
    requires setup.level == All
    ensures OnlyGates(fx, Do(setup, fx, op).1)
  {
    hide DecideFlow, AppOf, CommandRequest, Gates.ProjectKeyOf, Gates.IsApprovalGate, GateReply;
  }

  /** Through any stretch of a session under the full stop no run starts, and nothing but gate decisions reaches the trail or the engine. */
  lemma {:induction false} FullStopLeavesOnlyGates(setup: Setup, fx: Effects, ops: seq<Op>)
    requires StoppedThroughout(setup, ops)
    ensures OnlyGates(fx, Session(setup, fx, ops).1)
    decreases ops
  {
    if ops != [] {
      StoppedDo(setup, fx, ops[0]);
      var (s, f) := Do(setup, fx, ops[0]);
      hide Do;
      assert StoppedThroughout(s, ops[1..]) by { StopGoesOn(setup, fx, ops); }
      FullStopLeavesOnlyGates(s, f, ops[1..]);
    }
  }

  lemma StopGoesOn(setup: Setup, fx: Effects, ops: seq<Op>)
    requires ops != [] && StoppedThroughout(setup, ops)
    ensures StoppedThroughout(Do(setup, fx, ops[0]).0, ops[1..])
  {
    hide Intake, Handle;
    assert ops[0] in ops && forall op | op in ops[1..] :: op in ops;
  }

  // -------------------------------------------------------- unbound projects

  predicate NotBound(setup: Setup, key: string) {
    key !in setup.bindings || !setup.bindings[key].active
  }

  ghost predicate UnboundThroughout(setup: Setup, ops: seq<Op>, key: string) {
    NotBound(setup, key) && forall op | op in ops && op.Configure? :: NotBound(op.setup, key)
  }

  /** Nothing was written about the project's tickets: no record, no comment, no signal, no run. */
  ghost predicate NothingAbout(fx: Effects, after: Effects, key: string) {
    && fx.trail <= after.trail && (forall i | |fx.trail| <= i < |after.trail| :: Gates.ProjectKeyOf(SubjectOf(after.trail[i])) != key)
    && fx.comments <= after.comments && (forall i | |fx.comments| <= i < |after.comments| :: Gates.ProjectKeyOf(after.comments[i].0) != key)
    && fx.sent <= after.sent && (forall i | |fx.sent| <= i < |after.sent| :: Gates.ProjectKeyOf(TicketOf(after.sent[i])) != key)
    && fx.starts <= after.starts && (forall i | |fx.starts| <= i < |after.starts| :: Gates.ProjectKeyOf(after.starts[i].input.ticket) != key)
    && (forall t | t in after.runs && Gates.ProjectKeyOf(t) == key :: t in fx.runs && after.runs[t].input == fx.runs[t].input)
  }

  lemma TouchesElsewhere(fx: Effects, after: Effects, ticket: string, key: string)
    requires Touches(fx, after, ticket) && Gates.ProjectKeyOf(ticket) != key
    ensures NothingAbout(fx, after, key)
  {
    hide Gates.ProjectKeyOf;
  }

  lemma CountingOnly(fx: Effects, key: string)
    ensures NothingAbout(fx, fx.(droppedUnbound := fx.droppedUnbound + 1), key)
  {
  }

  lemma UnboundDo(setup: Setup, fx: Effects, op: Op, key: string)
    requires NotBound(setup, key)
    ensures NothingAbout(fx, Do(setup, fx, op).1, key)
  {
    hide Gates.ProjectKeyOf, DecideFlow, AppOf, GateCommand, ModeCommand, IntakeCommand, Touches;
    match op {
      case TakeIn(r) =>
        if Gates.ProjectKeyOf(r.ticket) == key {
          CountingOnly(fx, key);
        } else {
          IntakeTouches(setup, fx, r);
          TouchesElsewhere(fx, Intake(setup, fx, r).0, r.ticket, key);
        }
      case Comment(e) =>
        if Gates.ProjectKeyOf(e.ticket) == key {
          CountingOnly(fx, key);
        } else {
          HandleTouches(setup, fx, e);
          TouchesElsewhere(fx, Handle(setup, fx, e).0, e.ticket, key);
        }
      case _ =>
    }
  }

  lemma NothingTwice(fx: Effects, mid: Effects, after: Effects, key: string)
    requires NothingAbout(fx, mid, key) && NothingAbout(mid, after, key)
    ensures NothingAbout(fx, after, key)
  {
    hide Gates.ProjectKeyOf, SubjectOf, TicketOf;
  }

  /** Through any stretch in which a project is unbound or paused nothing is written about its tickets, whatever is asked of them. */
  lemma {:induction false} UnboundIsSilent(setup: Setup, fx: Effects, ops: seq<Op>, key: string)
    requires UnboundThroughout(setup, ops, key)
    ensures NothingAbout(fx, Session(setup, fx, ops).1, key)
    decreases ops
  {
    if ops != [] {
      UnboundDo(setup, fx, ops[0], key);
      UnboundGoesOn(setup, fx, ops, key);
      var (s, f) := Do(setup, fx, ops[0]);
      hide Do, UnboundThroughout, NothingAbout;
      UnboundIsSilent(s, f, ops[1..], key);
      NothingTwice(fx, f, Session(s, f, ops[1..]).1, key);
    } else {
      hide Gates.ProjectKeyOf;
    }
  }

  lemma UnboundGoesOn(setup: Setup, fx: Effects, ops: seq<Op>, key: string)
    requires ops != [] && UnboundThroughout(setup, ops, key)
    ensures UnboundThroughout(Do(setup, fx, ops[0]).0, ops[1..], key)
  {
    hide Intake, Handle, NotBound;
    assert ops[0] in ops && forall op | op in ops[1..] :: op in ops;
  }

  // ------------------------------------------------------------ assignments

  lemma DoKeepsRun(setup: Setup, fx: Effects, op: Op, ticket: string)
    requires ticket in fx.runs && op != End(ticket)
    ensures var after := Do(setup, fx, op).1; ticket in after.runs && after.runs[ticket].input == fx.runs[ticket].input
  {
    match op {
      case TakeIn(r) => IntakeTouches(setup, fx, r);
      case Comment(e) => HandleTouches(setup, fx, e);
      case _ =>
    }
    hide Intake, Handle;
  }

  /** Until it ends a run keeps what it was started with. */
  lemma {:induction false} RunsKeepTheirInput(setup: Setup, fx: Effects, ops: seq<Op>, ticket: string)
    requires ticket in fx.runs && End(ticket) !in ops
    ensures var end := Session(setup, fx, ops).1; ticket in end.runs && end.runs[ticket].input == fx.runs[ticket].input
    decreases ops
  {
    if ops != [] {
      DoKeepsRun(setup, fx, ops[0], ticket);
      var (s, f) := Do(setup, fx, ops[0]);
      hide Do;
      RunsKeepTheirInput(s, f, ops[1..], ticket);
    }
  }

  /**
   * `/ai-assign` on a ticket that runs is recorded whenever it is accepted, at any
   * point of any session; the run keeps the application it started with.
   */
  lemma AssignmentsLeaveRunsAlone(setup: Setup, fx: Effects, ops: seq<Op>, e: Envelope)
    requires e.ticket in fx.runs && End(e.ticket) !in ops && e.command.Assign?
    requires var (s, f) := Session(setup, fx, ops); Handle(s, f, e).1 == Accepted
    ensures var (s, f) := Session(setup, fx, ops);
            var after := Handle(s, f, e).0;
            && e.actor.Some? && after.trail == f.trail + [AssignApp(e.actor.value, e.ticket, e.command.appId)]
            && e.ticket in after.runs && after.runs[e.ticket].input == fx.runs[e.ticket].input
  {
    RunsKeepTheirInput(setup, fx, ops, e.ticket);
    hide Session, DecideFlow, AppOf;
  }

  ghost predicate NoOptInReply(fx: Effects) {
    forall c | c in fx.comments :: c.1 != NotOptedInNote
  }

  lemma ReplyAdded(fx: Effects, after: Effects)
    requires NoOptInReply(fx)
    requires fx.comments <= after.comments && forall i | |fx.comments| <= i < |after.comments| :: after.comments[i].1 != NotOptedInNote
    ensures NoOptInReply(after)
  {
  }

  lemma IntakeReplies(setup: Setup, fx: Effects, r: IntakeRequest)
    requires NoOptInReply(fx)
    ensures NoOptInReply(Intake(setup, fx, r).0) && (r.explicit ==> Intake(setup, fx, r).1 != Turned(NotOptedIn))
  {
    hide NoOptInReply, DecideFlow, AppOf, InputOf, Gates.ProjectKeyOf;
    ReplyAdded(fx, Intake(setup, fx, r).0);
  }

  lemma HandleNeverRepliesOptIn(setup: Setup, fx: Effects, e: Envelope)
    requires NoOptInReply(fx)
    ensures NoOptInReply(Handle(setup, fx, e).0)
  {
    hide NoOptInReply, Intake, Decide, Bound, CommandRequest, GateRequest;
    if Admitted(setup, e) && (e.command.Start? || e.command.Assign?) {
      var r := CommandRequest(setup, e.ticket, if e.command.Assign? then Some(e.command.appId) else None, e.actor.value);
      IntakeReplies(setup, fx, r);
      CommandRequestIsExplicit(setup, e.ticket, if e.command.Assign? then Some(e.command.appId) else None, e.actor.value);
      var after := Intake(setup, fx, r).0;
      ReplyAdded(after, Replied(after, e.ticket, CommandAccepted));
      ReplyAdded(after, Handle(setup, fx, e).0);
    } else {
      if e.actor.Some? && ClosesGates(e.command) {
        DecideRepliesNothing(setup, fx, GateRequest(e, e.actor.value));
      }
      ReplyAdded(fx, Handle(setup, fx, e).0);
    }
  }

  lemma DecideRepliesNothing(setup: Setup, fx: Effects, q: Gates.Request)
    ensures Decide(setup, fx, q).0.comments == fx.comments
  {
    hide Gates.ProjectKeyOf, Gates.IsApprovalGate;
  }

  /** No session ever gives the reply for a command refused for lack of an opt-in label. */
  lemma {:induction false} OptInReplyIsNeverGiven(setup: Setup, fx: Effects, ops: seq<Op>)
    requires NoOptInReply(fx)
    ensures NoOptInReply(Session(setup, fx, ops).1)
    decreases ops
  {
    if ops != [] {
      hide Intake, Handle, NoOptInReply;
      match ops[0] {
        case TakeIn(r) => IntakeReplies(setup, fx, r);
        case Comment(e) => HandleNeverRepliesOptIn(setup, fx, e);
        case _ => ReplyAdded(fx, Do(setup, fx, ops[0]).1);
      }
      var (s, f) := Do(setup, fx, ops[0]);
      OptInReplyIsNeverGiven(s, f, ops[1..]);
    }
  }

  // -------------------------------------------------------- effective commands

  /** The gate a decision would close is open, and its signer may. */
  predicate GateOpenTo(setup: Setup, fx: Effects, e: Envelope) {
    && e.ticket in fx.runs
    && var state := fx.runs[e.ticket].state;
    && var key := (state.step, Gates.ProjectKeyOf(e.ticket));
    && state.atGate && Gates.IsApprovalGate(state.step) && key in setup.owners
    && (e.author, setup.owners[key]) in setup.members
  }

  /** Intake takes what the command asks for. */
  predicate Takes(setup: Setup, r: IntakeRequest) {
    Bound(setup, r.ticket) && setup.level == Off && (AppOf(setup, r).Some? || DecideFlow(setup, r).flow == Some(Analiz))
  }

  /** The command gets past the project and the stop, and its author is known. */
  predicate Admitted(setup: Setup, e: Envelope) {
    Bound(setup, e.ticket) && (setup.level != All || ClosesGates(e.command)) && e.actor.Some?
  }

  /** What must hold in the present state for a command to do more than reply. */
  predicate Effective(setup: Setup, fx: Effects, e: Envelope) {
    && Admitted(setup, e)
    && match e.command
       case Approve => GateOpenTo(setup, fx, e) && e.actor.value.Human?
       case Reject(_) => GateOpenTo(setup, fx, e) && e.actor.value.Human?
       case ModeChange(_) => e.ticket in fx.runs
       case Takeover => e.ticket in fx.runs
       case Start => Takes(setup, CommandRequest(setup, e.ticket, None, e.actor.value)) && e.ticket !in fx.runs
       case Assign(appId) => Takes(setup, CommandRequest(setup, e.ticket, Some(appId), e.actor.value))
       case Status => false
       case Explain => false
  }

  /** When handling throws: the trail refuses a decision that is not a person's. */
  predicate Throws(setup: Setup, fx: Effects, e: Envelope) {
    Admitted(setup, e) && ClosesGates(e.command) && GateOpenTo(setup, fx, e) && !e.actor.value.Human?
  }

  predicate Unmoved(fx: Effects, after: Effects) {
    after.runs == fx.runs && after.trail == fx.trail && after.sent == fx.sent
  }

  /** Handling a command moves runs, trail or engine exactly when it is effective. */
  lemma MovesExactlyWhenEffective(setup: Setup, fx: Effects, e: Envelope)
    ensures var (after, outcome) := Handle(setup, fx, e);
            && (Unmoved(fx, after) <==> !Effective(setup, fx, e))
            && (Effective(setup, fx, e) ==> |after.trail| > |fx.trail|)
            && (outcome == Failed <==> Throws(setup, fx, e))
  {
    hide DecideFlow, AppOf, CommandRequest, Gates.ProjectKeyOf, Gates.IsApprovalGate, Gates.RecordOf, Gates.SignalOf, GateReply;
    if Admitted(setup, e) && (e.command.Start? || e.command.Assign?) {
      IntakeMoves(setup, fx, CommandRequest(setup, e.ticket, if e.command.Assign? then Some(e.command.appId) else None, e.actor.value));
      CommandRequestIsExplicit(setup, e.ticket, if e.command.Assign? then Some(e.command.appId) else None, e.actor.value);
      hide Intake, Takes;
    }
  }

  lemma CommandRequestIsExplicit(setup: Setup, ticket: string, appId: Option<string>, actor: Actor)
    ensures CommandRequest(setup, ticket, appId, actor).explicit && CommandRequest(setup, ticket, appId, actor).ticket == ticket
  {
  }

  lemma IntakeMoves(setup: Setup, fx: Effects, r: IntakeRequest)
    ensures var (after, outcome) := Intake(setup, fx, r);
            && (r.explicit ==> (outcome.Taken? <==> Takes(setup, r)))
            && (outcome.Taken? && r.ticket !in fx.runs ==> |after.trail| == |fx.trail| + 1)
            && (!(outcome.Taken? && r.ticket !in fx.runs) ==> Unmoved(fx, after))
  {
    hide DecideFlow, Gates.ProjectKeyOf;
  }

  // ------------------------------------------------------------ the accounts

  function Inputs(starts: seq<Begun>): (r: seq<StartInput>)
    ensures |r| == |starts| && forall i | 0 <= i < |starts| :: r[i] == starts[i].input
  {
    seq(|starts|, i requires 0 <= i < |starts| => starts[i].input)
  }

  function StartRecords(trail: seq<Entry>): seq<StartInput> {
    if trail == [] then []
    else
      var last := trail[|trail| - 1];
      StartRecords(trail[..|trail| - 1]) + if last.RunStarted? then [last.input] else []
  }

  /** A signal points at its own record. */
  predicate SignedIn(trail: seq<Entry>, s: Gates.Signal) {
    && 1 <= s.signatureSeq <= |trail|
    && trail[s.signatureSeq - 1].GateClosed?
    && Gates.Records(trail[s.signatureSeq - 1].record, s)
  }

  ghost predicate Accounted(fx: Effects) {
    && StartRecords(fx.trail) == Inputs(fx.starts)
    && (forall t | t in fx.runs :: fx.runs[t].input.ticket == t && fx.runs[t].input in Inputs(fx.starts))
    && (forall i | 0 <= i < |fx.sent| && fx.sent[i].GateSignal? :: SignedIn(fx.trail, fx.sent[i].signal))
  }

  lemma RecordAppended(fx: Effects, e: Entry)
    requires Accounted(fx) && !e.RunStarted?
    ensures Accounted(fx.(trail := fx.trail + [e]))
  {
    var longer := fx.trail + [e];
    assert longer[..|longer| - 1] == fx.trail;
  }

  lemma RunAppended(fx: Effects, b: Begun, e: Entry, state: Gates.RunState)
    requires Accounted(fx) && e.RunStarted? && e.input == b.input
    ensures Accounted(fx.(trail := fx.trail + [e], starts := fx.starts + [b], runs := fx.runs[b.input.ticket := Live(state, b.input)]))
  {
    var longer := fx.trail + [e];
    assert longer[..|longer| - 1] == fx.trail;
    var inputs, more := Inputs(fx.starts), Inputs(fx.starts + [b]);
    assert more == inputs + [b.input];
    forall i | 0 <= i < |fx.sent| && fx.sent[i].GateSignal? ensures SignedIn(longer, fx.sent[i].signal) {
      assert SignedIn(fx.trail, fx.sent[i].signal);
    }
  }

  /** Replies and counters are not part of the accounts. */
  lemma NotesKeepAccounts(fx: Effects, noted: Effects)
    requires Accounted(fx)
    requires noted == fx.(comments := noted.comments, droppedUnbound := noted.droppedUnbound, droppedKillSwitch := noted.droppedKillSwitch)
    ensures Accounted(noted)
  {
  }

  lemma IntakeKeepsAccounts(setup: Setup, fx: Effects, r: IntakeRequest)
    requires Accounted(fx)
    ensures Accounted(Intake(setup, fx, r).0)
  {
    hide DecideFlow, Gates.ProjectKeyOf, Accounted, AppOf;
    if Verdict(setup, r).None? && r.ticket !in fx.runs {
      var input := InputOf(setup, r);
      var e, state := RunStarted(r.actor, input, DecideFlow(setup, r), r.appId.Some?), Gates.RunState("0", false);
      RunAppended(fx, Begun(r, setup, input), e, state);
      var begun := fx.(trail := fx.trail + [e], starts := fx.starts + [Begun(r, setup, input)], runs := fx.runs[r.ticket := Live(state, input)]);
      NotesKeepAccounts(begun, Intake(setup, fx, r).0);
    } else {
      NotesKeepAccounts(fx, Intake(setup, fx, r).0);
    }
  }

  lemma GateClosedKeepsAccounts(fx: Effects, record: Gates.GateRecord, signal: Gates.Signal)
    requires Accounted(fx) && Gates.Records(record, signal) && signal.signatureSeq == |fx.trail| + 1
    ensures Accounted(fx.(trail := fx.trail + [GateClosed(record)], sent := fx.sent + [GateSignal(signal)]))
  {
    RecordAppended(fx, GateClosed(record));
    var noted := fx.(trail := fx.trail + [GateClosed(record)]);
    var sent := fx.sent + [GateSignal(signal)];
    assert SignedIn(noted.trail, signal);
    hide StartRecords, SignedIn;
    forall i | 0 <= i < |sent| && sent[i].GateSignal? ensures SignedIn(noted.trail, sent[i].signal) {
      assert i < |fx.sent| ==> noted.sent[i] == sent[i];
    }
  }

  lemma GateCommandKeepsAccounts(setup: Setup, fx: Effects, q: Gates.Request)
    requires Accounted(fx)
    ensures Accounted(GateCommand(setup, fx, q).0)
  {
    hide Accounted, Gates.ProjectKeyOf, Gates.IsApprovalGate, GateReply;
    var (after, outcome) := Decide(setup, fx, q);
    if after != fx {
      GateClosedKeepsAccounts(fx, after.trail[|fx.trail|].record, after.sent[|fx.sent|].signal);
    }
    NotesKeepAccounts(after, GateCommand(setup, fx, q).0);
  }

  lemma ModeCommandKeepsAccounts(fx: Effects, ticket: string, mode: string, actor: Actor, command: string)
    requires Accounted(fx)
    ensures Accounted(ModeCommand(fx, ticket, mode, actor, command).0)
  {
    RecordAppended(fx, ModeChanged(actor, ticket, mode, command));
  }

  lemma IntakeCommandKeepsAccounts(setup: Setup, fx: Effects, ticket: string, appId: Option<string>, actor: Actor)
    requires Accounted(fx)
    ensures Accounted(IntakeCommand(setup, fx, ticket, appId, actor).0)
  {
    var r := CommandRequest(setup, ticket, appId, actor);
    IntakeKeepsAccounts(setup, fx, r);
    var after := Intake(setup, fx, r).0;
    hide Intake, Accounted, CommandRequest;
    if appId.Some? {
      RecordAppended(after, AssignApp(actor, ticket, appId.value));
      var noted := after.(trail := after.trail + [AssignApp(actor, ticket, appId.value)]);
      NotesKeepAccounts(noted, Replied(noted, ticket, CommandAccepted));
    }
    NotesKeepAccounts(after, Replied(after, ticket, CommandAccepted));
    NotesKeepAccounts(after, Replied(after, ticket, NotOptedInNote));
  }

  lemma HandleKeepsAccounts(setup: Setup, fx: Effects, e: Envelope)
    requires Accounted(fx)
    ensures Accounted(Handle(setup, fx, e).0)
  {
    hide GateCommand, ModeCommand, IntakeCommand, Accounted, Bound, GateRequest;
    if !Bound(setup, e.ticket) || (setup.level == All && !ClosesGates(e.command)) || e.actor.None? || e.command.Status? || e.command.Explain? {
      NotesKeepAccounts(fx, Handle(setup, fx, e).0);
    } else {
      var actor := e.actor.value;
      match e.command {
        case Approve => GateCommandKeepsAccounts(setup, fx, GateRequest(e, actor));
        case Reject(_) => GateCommandKeepsAccounts(setup, fx, GateRequest(e, actor));
        case ModeChange(mode) => ModeCommandKeepsAccounts(fx, e.ticket, mode, actor, "mode-change");
        case Takeover => ModeCommandKeepsAccounts(fx, e.ticket, "human_lead", actor, "ai-takeover");
        case Start => IntakeCommandKeepsAccounts(setup, fx, e.ticket, None, actor);
        case Assign(appId) => IntakeCommandKeepsAccounts(setup, fx, e.ticket, Some(appId), actor);
      }
    }
  }

  lemma MovesKeepAccounts(setup: Setup, fx: Effects, op: Op)
    requires Accounted(fx) && (op.Move? || op.End? || op.Configure?)
    ensures Accounted(Do(setup, fx, op).1)
  {
    hide StartRecords, SignedIn;
  }

  /**
   * Over any session the trail's start records are the runs that were started, in
   * order and no others; a run in progress is one of them; and every gate signal
   * points at its own record in the trail.
   */
  lemma {:induction false} SessionsAreAccounted(setup: Setup, fx: Effects, ops: seq<Op>)
    requires Accounted(fx)
    ensures Accounted(Session(setup, fx, ops).1)
    decreases ops
  {
    if ops != [] {
      var op := ops[0];
      hide Intake, Handle, Accounted;
      match op {
        case TakeIn(r) => IntakeKeepsAccounts(setup, fx, r);
        case Comment(e) => HandleKeepsAccounts(setup, fx, e);
        case _ => MovesKeepAccounts(setup, fx, op);
      }
      var (s, f) := Do(setup, fx, op);
      SessionsAreAccounted(s, f, ops[1..]);
    }
  }
}
