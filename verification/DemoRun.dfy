/**
 * The staged delivery run of apps/demo/src/run.ts with the webhooks that arrive
 * while it runs. A step is what happens between two awaits; a schedule says who
 * moves next and how the outside world answers.
 */
module DemoRun {
  import opened Wrappers

  const MAX_ENGINEER_ATTEMPTS := 3

  datatype Gate = Three | Eight // the steps "3" (analysis) and "8" (pull request) a waiter carries

  datatype Status = Waiting | Approved | Rejected

  /**
   * The promise behind `awaitApproval`. `run`, `pr` and `born` (the length of the
   * trace when it was made) are history no branch reads.
   */
  datatype Waiter = Waiter(run: nat, gate: Gate, status: Status, pr: nat, born: nat)

  datatype CiStatus = CiWaiting | Green | Red | TimedOut

  /** The promise behind `awaitCi`. */
  datatype CiWaiter = CiWaiter(pr: nat, status: CiStatus)

  /** What the run does next. */
  datatype Stage =
    | Idle
    | RecordStart
    | Analyse
    | OpenAnalysisGate
    | AwaitGate(waiter: nat)
    | Draft(attempt: nat)
    | RecordScan(attempt: nat, clean: bool)
    | Test(attempt: nat)
    | RecordTest(attempt: nat, passed: bool)
    | OpenPr(attempt: nat)
    | RecordPrOpened(attempt: nat, pr: nat)
    | ActivatePr(pr: nat)
    | AwaitCi(ci: nat)
    | AnnouncePr(pr: nat)
    | OpenPrGate(pr: nat)
    | Merge(pr: nat)
    | RecordMerged(pr: nat)
    | RecordClosed(pr: nat)

  /** How the awaited call answers: as hoped, with a finding or a red test, or by throwing. */
  datatype Answer = Good | Bad | Throws

  datatype Command = Approve | Reject | Other

  datatype Handler =
    | Verify(command: Command, author: string)              // the raw body's signature
    | CheckMembership(waiter: nat, author: string)
    | RecordApproval(waiter: nat, author: string, runId: nat, asked: nat)
    | ResolveGate(waiter: nat)
    | ParseBuild(pr: nat, succeeded: bool)
    | RecordCi(pr: nat, succeeded: bool)
    | ResolveCi(pr: nat, succeeded: bool)
    | Over

  /**
   * What an observer sees, in order: the audit records and the membership
   * answers, and where `start` took effect. `run` is the run that really did it;
   * `runId` on an approval is what the record carries, `this.runId` when it was
   * asked to be written, right after the membership answer at place `asked`.
   */
  datatype Event =
    | Began(run: nat)
    | RunStarted(run: nat)
    | GateOpened(run: nat, gate: Gate)
    | Member(handler: nat, author: string)
    | GateApproved(handler: nat, author: string, waiter: nat, runId: nat, asked: nat)
    | ScanPass(run: nat, attempt: nat)
    | ScanFail(run: nat, attempt: nat)
    | Tested(run: nat, attempt: nat, passed: bool)
    | PrOpened(run: nat, attempt: nat, pr: nat)
    | CiResult(pr: nat, succeeded: bool)
    | PrMerged(run: nat, pr: nat)
    | RunClosed(run: nat)

  datatype State = State(
    run: nat,                    // the run `start` was last called for, counted; `this.runId` is an id cut from its time
    stage: Stage,                // `Idle` exactly when `running` is false
    gate: Option<nat>,
    ciWaiter: Option<nat>,
    waiters: seq<Waiter>,
    cis: seq<CiWaiter>,
    handlers: seq<Handler>,
    trace: seq<Event>)

  datatype Action =
    | Start
    | RunOn(answer: Answer, pr: nat)   // `pr` is the id a new pull request gets
    | Jira(command: Command, author: string)
    | Ado(pr: nat, succeeded: bool)
    | HandlerOn(handler: nat, ok: bool)  // `ok`: the awaited call returned, and with a yes
    | CiTimeout

  function Init(): State {
    State(0, Idle, None, None, [], [], [], [])
  }

  // ---------------------------------------------------------------- the run

  function Log(s: State, e: Event, next: Stage): State {
    s.(trace := s.trace + [e], stage := next)
  }

  function AwaitApproval(s: State, gate: Gate, pr: nat): State {
    var w := |s.waiters|;
    s.(waiters := s.waiters + [Waiter(s.run, gate, Waiting, pr, |s.trace|)], gate := Some(w), stage := AwaitGate(w))
  }

  function Retry(s: State, attempt: nat): State {
    s.(stage := if attempt < MAX_ENGINEER_ATTEMPTS then Draft(attempt + 1) else Idle)
  }

  /** The run up to its next await; an exception ends it. */
  function RunStep(s: State, answer: Answer, pr: nat): State {
    var ok := answer.Good?;
    match s.stage
    case Idle => s
    case AwaitGate(w) =>
      if w >= |s.waiters| || s.waiters[w].status.Waiting? then s
      else if s.waiters[w].status.Rejected? then s.(stage := Idle)
      else if s.waiters[w].gate.Three? then s.(stage := Draft(1))
      else s.(stage := Merge(s.waiters[w].pr))
    case AwaitCi(c) =>
      if c >= |s.cis| || s.cis[c].status.CiWaiting? then s
      else if s.cis[c].status.Green? then s.(stage := AnnouncePr(s.cis[c].pr))
      else s.(stage := Idle)
    case RecordScan(n, clean) =>
      if !ok then s.(stage := Idle)
      else if clean then Log(s, ScanPass(s.run, n), Test(n))
      else Retry(s.(trace := s.trace + [ScanFail(s.run, n)]), n)
    case RecordTest(n, passed) =>
      if !ok then s.(stage := Idle)
      else if passed then Log(s, Tested(s.run, n, true), OpenPr(n))
      else Retry(s.(trace := s.trace + [Tested(s.run, n, false)]), n)
    case Draft(n) => s.(stage := if answer.Throws? then Idle else RecordScan(n, ok)) // the scan itself is not awaited
    case Test(n) => s.(stage := if answer.Throws? then Idle else RecordTest(n, ok))
    case RecordStart => if ok then Log(s, RunStarted(s.run), Analyse) else s.(stage := Idle)
    case Analyse => s.(stage := if ok then OpenAnalysisGate else Idle)
    case OpenAnalysisGate =>
      if ok then AwaitApproval(Log(s, GateOpened(s.run, Three), Idle), Three, 0) else s.(stage := Idle)
    case OpenPr(n) => s.(stage := if ok then RecordPrOpened(n, pr) else Idle)
    case RecordPrOpened(n, p) => if ok then Log(s, PrOpened(s.run, n, p), ActivatePr(p)) else s.(stage := Idle)
    case ActivatePr(p) =>
      if !ok then s.(stage := Idle)
      else s.(cis := s.cis + [CiWaiter(p, CiWaiting)], ciWaiter := Some(|s.cis|), stage := AwaitCi(|s.cis|))
    case AnnouncePr(p) => s.(stage := if ok then OpenPrGate(p) else Idle)
    case OpenPrGate(p) =>
      if ok then AwaitApproval(Log(s, GateOpened(s.run, Eight), Idle), Eight, p) else s.(stage := Idle)
    case Merge(p) => s.(stage := if ok then RecordMerged(p) else Idle)
    case RecordMerged(p) => if ok then Log(s, PrMerged(s.run, p), RecordClosed(p)) else s.(stage := Idle)
    case RecordClosed(p) => if ok then Log(s, RunClosed(s.run), Idle) else s.(stage := Idle)
  }

  // ----------------------------------------------------------- the webhooks

  /** A promise settles once; later calls of `resolve` and `reject` do nothing. */
  function Settle(waiters: seq<Waiter>, w: nat, status: Status): (r: seq<Waiter>)
    ensures |r| == |waiters|
  {
    if w < |waiters| && waiters[w].status.Waiting? then waiters[w := waiters[w].(status := status)] else waiters
  }

  function At(s: State, h: nat, next: Handler): State
    requires h < |s.handlers|
  {
    s.(handlers := s.handlers[h := next])
  }

  function HandlerStep(s: State, h: nat, ok: bool): State
    requires h < |s.handlers|
  {
    match s.handlers[h]
    case Over => s
    case Verify(command, author) =>
      if !ok || command.Other? then At(s, h, Over)
      else if command.Reject? then
        At(s, h, Over).(gate := None, waiters := if s.gate.Some? then Settle(s.waiters, s.gate.value, Rejected) else s.waiters)
      else if s.gate.None? then At(s, h, Over)
      else At(s, h, CheckMembership(s.gate.value, author))
    case CheckMembership(w, author) =>
      if ok then At(s, h, RecordApproval(w, author, s.run, |s.trace|)).(trace := s.trace + [Member(h, author)]) else At(s, h, Over)
    case RecordApproval(w, author, runId, asked) =>
      if ok then At(s, h, ResolveGate(w)).(trace := s.trace + [GateApproved(h, author, w, runId, asked)]) else At(s, h, Over)
    case ResolveGate(w) => At(s, h, Over).(gate := None, waiters := Settle(s.waiters, w, Approved))
    case ParseBuild(pr, succeeded) => At(s, h, if ok then RecordCi(pr, succeeded) else Over)
    case RecordCi(pr, succeeded) =>
      if ok then At(s, h, ResolveCi(pr, succeeded)).(trace := s.trace + [CiResult(pr, succeeded)]) else At(s, h, Over)
    case ResolveCi(pr, succeeded) =>
      if s.ciWaiter.Some? && s.ciWaiter.value < |s.cis| && s.cis[s.ciWaiter.value].pr == pr then
        At(s, h, Over).(ciWaiter := None, cis := SettleCi(s.cis, s.ciWaiter.value, if succeeded then Green else Red))
      else At(s, h, Over)
  }

  function SettleCi(cis: seq<CiWaiter>, c: nat, status: CiStatus): (r: seq<CiWaiter>)
    ensures |r| == |cis|
  {
    if c < |cis| && cis[c].status.CiWaiting? then cis[c := cis[c].(status := status)] else cis
  }

  function Step(s: State, a: Action): State {
    match a
    case Start => if s.stage.Idle? then s.(run := s.run + 1, stage := RecordStart, trace := s.trace + [Began(s.run + 1)]) else s
    case RunOn(answer, pr) => RunStep(s, answer, pr)
    case Jira(command, author) => s.(handlers := s.handlers + [Verify(command, author)])
    case Ado(pr, succeeded) => s.(handlers := s.handlers + [ParseBuild(pr, succeeded)])
    case HandlerOn(h, ok) => if h < |s.handlers| then HandlerStep(s, h, ok) else s
    case CiTimeout =>
      if s.stage.AwaitCi? && s.stage.ci < |s.cis| && s.cis[s.stage.ci].status.CiWaiting?
      then s.(ciWaiter := None, cis := SettleCi(s.cis, s.stage.ci, TimedOut))
      else s
  }

  function Run(s: State, schedule: seq<Action>): State
    decreases |schedule|
  {
    if schedule == [] then s else Run(Step(s, schedule[0]), schedule[1..])
  }

  // ---------------------------------------------------------------- evidence

  /** The waiters a predicate may still refer to later: only `status` ever changes, and only from waiting. */
  ghost predicate Later(before: seq<Waiter>, after: seq<Waiter>) {
    && |before| <= |after|
    && forall w | 0 <= w < |before| ::
         after[w] == before[w].(status := after[w].status) && (!before[w].status.Waiting? ==> after[w] == before[w])
  }

  /** At `i` an approval of that run's gate was recorded, by an author whose membership had just been confirmed. */
  ghost predicate ApprovalAt(t: seq<Event>, ws: seq<Waiter>, run: nat, gate: Gate, i: nat) {
    && i < |t| && t[i].GateApproved? && t[i].waiter < |ws|
    && ws[t[i].waiter].run == run && ws[t[i].waiter].gate == gate
    && exists k | 0 <= k < i :: t[k] == Member(t[i].handler, t[i].author)
  }

  ghost predicate AnalysisApproved(t: seq<Event>, ws: seq<Waiter>, run: nat) {
    exists a: nat :: ApprovalAt(t, ws, run, Three, a)
  }

  ghost predicate Scanned(t: seq<Event>, ws: seq<Waiter>, run: nat, attempt: nat) {
    1 <= attempt <= MAX_ENGINEER_ATTEMPTS
    && exists i: nat :: i < |t| && t[i] == ScanPass(run, attempt) && AnalysisApproved(t[..i], ws, run)
  }

  ghost predicate TestedGreen(t: seq<Event>, ws: seq<Waiter>, run: nat, attempt: nat) {
    exists i: nat :: i < |t| && t[i] == Tested(run, attempt, true) && Scanned(t[..i], ws, run, attempt)
  }

  ghost predicate Opened(t: seq<Event>, ws: seq<Waiter>, run: nat, pr: nat) {
    exists i: nat, attempt: nat :: i < |t| && t[i] == PrOpened(run, attempt, pr) && TestedGreen(t[..i], ws, run, attempt)
  }

  ghost predicate GreenPr(t: seq<Event>, ws: seq<Waiter>, run: nat, pr: nat) {
    Opened(t, ws, run, pr) && CiResult(pr, true) in t
  }

  /** Everything a merge needs behind it, in order. */
  ghost predicate ReadyToMerge(t: seq<Event>, ws: seq<Waiter>, run: nat, pr: nat) {
    exists i: nat :: i < |t| && ApprovalAt(t, ws, run, Eight, i) && GreenPr(t[..i], ws, run, pr)
  }

  lemma ApprovalKept(t: seq<Event>, u: seq<Event>, ws: seq<Waiter>, vs: seq<Waiter>, run: nat, gate: Gate, i: nat)
    requires t <= u && Later(ws, vs) && ApprovalAt(t, ws, run, gate, i)
    ensures ApprovalAt(u, vs, run, gate, i)
  {
    assert t[i] == u[i];
    var k :| 0 <= k < i && t[k] == Member(t[i].handler, t[i].author);
    assert u[k] == t[k];
  }

  lemma AnalysisKept(t: seq<Event>, u: seq<Event>, ws: seq<Waiter>, vs: seq<Waiter>, run: nat)
    requires t <= u && Later(ws, vs) && AnalysisApproved(t, ws, run)
    ensures AnalysisApproved(u, vs, run)
  {
    var a: nat :| ApprovalAt(t, ws, run, Three, a);
    ApprovalKept(t, u, ws, vs, run, Three, a);
  }

  lemma ScannedKept(t: seq<Event>, u: seq<Event>, ws: seq<Waiter>, vs: seq<Waiter>, run: nat, attempt: nat)
    requires t <= u && Later(ws, vs) && Scanned(t, ws, run, attempt)
    ensures Scanned(u, vs, run, attempt)
  {
    var i: nat :| i < |t| && t[i] == ScanPass(run, attempt) && AnalysisApproved(t[..i], ws, run);
    AnalysisKept(t[..i], u[..i], ws, vs, run);
    assert u[i] == t[i];
  }

  lemma TestedKept(t: seq<Event>, u: seq<Event>, ws: seq<Waiter>, vs: seq<Waiter>, run: nat, attempt: nat)
    requires t <= u && Later(ws, vs) && TestedGreen(t, ws, run, attempt)
    ensures TestedGreen(u, vs, run, attempt)
  {
    var i: nat :| i < |t| && t[i] == Tested(run, attempt, true) && Scanned(t[..i], ws, run, attempt);
    ScannedKept(t[..i], u[..i], ws, vs, run, attempt);
    assert u[i] == t[i];
  }

  lemma OpenedKept(t: seq<Event>, u: seq<Event>, ws: seq<Waiter>, vs: seq<Waiter>, run: nat, pr: nat)
    requires t <= u && Later(ws, vs) && Opened(t, ws, run, pr)
    ensures Opened(u, vs, run, pr)
  {
    var i: nat, attempt: nat :| i < |t| && t[i] == PrOpened(run, attempt, pr) && TestedGreen(t[..i], ws, run, attempt);
    TestedKept(t[..i], u[..i], ws, vs, run, attempt);
    assert u[i] == t[i];
  }

  lemma GreenKept(t: seq<Event>, u: seq<Event>, ws: seq<Waiter>, vs: seq<Waiter>, run: nat, pr: nat)
    requires t <= u && Later(ws, vs) && GreenPr(t, ws, run, pr)
    ensures GreenPr(u, vs, run, pr)
  {
    OpenedKept(t, u, ws, vs, run, pr);
    var k :| 0 <= k < |t| && t[k] == CiResult(pr, true);
    assert u[k] == t[k];
  }

  lemma ReadyKept(t: seq<Event>, u: seq<Event>, ws: seq<Waiter>, vs: seq<Waiter>, run: nat, pr: nat)
    requires t <= u && Later(ws, vs) && ReadyToMerge(t, ws, run, pr)
    ensures ReadyToMerge(u, vs, run, pr)
  {
    hide ApprovalAt, GreenPr, Later;
    var i: nat :| i < |t| && ApprovalAt(t, ws, run, Eight, i) && GreenPr(t[..i], ws, run, pr);
    ApprovalKept(t, u, ws, vs, run, Eight, i);
    GreenKept(t[..i], u[..i], ws, vs, run, pr);
  }

  // --------------------------------------------------------------- invariant

  ghost predicate StageHolds(s: State) {
    var t, ws, run := s.trace, s.waiters, s.run;
    match s.stage
    case AwaitGate(w) => w < |ws| && ws[w].run == run
    case Draft(n) => 1 <= n <= MAX_ENGINEER_ATTEMPTS && AnalysisApproved(t, ws, run)
    case RecordScan(n, _) => 1 <= n <= MAX_ENGINEER_ATTEMPTS && AnalysisApproved(t, ws, run)
    case Test(n) => Scanned(t, ws, run, n) && AnalysisApproved(t, ws, run)
    case RecordTest(n, _) => Scanned(t, ws, run, n) && AnalysisApproved(t, ws, run)
    case OpenPr(n) => TestedGreen(t, ws, run, n)
    case RecordPrOpened(n, _) => TestedGreen(t, ws, run, n)
    case ActivatePr(p) => Opened(t, ws, run, p)
    case AwaitCi(c) => c < |s.cis| && Opened(t, ws, run, s.cis[c].pr)
    case AnnouncePr(p) => GreenPr(t, ws, run, p)
    case OpenPrGate(p) => GreenPr(t, ws, run, p)
    case Merge(p) => ReadyToMerge(t, ws, run, p)
    case RecordMerged(p) => ReadyToMerge(t, ws, run, p)
    case _ => true
  }

  ghost predicate HandlerHolds(s: State, h: nat)
    requires h < |s.handlers|
  {
    match s.handlers[h]
    case CheckMembership(w, _) => w < |s.waiters|
    case RecordApproval(w, author, _, _) => w < |s.waiters| && Member(h, author) in s.trace
    case ResolveGate(w) => w < |s.waiters| && ApprovedAfter(s, w)
    case ResolveCi(pr, succeeded) => CiResult(pr, succeeded) in s.trace
    case _ => true
  }

  /** Waiter `w` has its approval on record, no earlier than the waiter itself. */
  ghost predicate ApprovedAfter(s: State, w: nat)
    requires w < |s.waiters|
  {
    exists i: nat :: s.waiters[w].born <= i && ApprovalAt(s.trace, s.waiters, s.waiters[w].run, s.waiters[w].gate, i)
                     && s.trace[i].waiter == w
  }

  ghost predicate WaiterHolds(s: State, w: nat)
    requires w < |s.waiters|
  {
    var x := s.waiters[w];
    && x.born <= |s.trace| && x.run <= s.run
    && (x.status.Approved? ==> ApprovedAfter(s, w))
    && (x.gate.Eight? ==> GreenPr(s.trace[..x.born], s.waiters, x.run, x.pr))
  }

  /** The merges already on record were each ready when recorded. */
  ghost predicate MergeHolds(s: State, m: nat)
    requires m < |s.trace|
  {
    s.trace[m].PrMerged? ==> ReadyToMerge(s.trace[..m], s.waiters, s.trace[m].run, s.trace[m].pr)
  }

  ghost predicate Inv(s: State) {
    && StageHolds(s)
    && (forall h | 0 <= h < |s.handlers| :: HandlerHolds(s, h))
    && (forall w | 0 <= w < |s.waiters| :: WaiterHolds(s, w))
    && (forall c | 0 <= c < |s.cis| :: s.cis[c].status.Green? ==> CiResult(s.cis[c].pr, true) in s.trace)
    && (s.gate.Some? ==> s.gate.value < |s.waiters|)
    && (forall m | 0 <= m < |s.trace| :: MergeHolds(s, m))
  }

  // ------------------------------------------------------- every step keeps it

  ghost predicate Grows(s: State, t: State) {
    && s.trace <= t.trace && Later(s.waiters, t.waiters) && s.run <= t.run
    && |s.cis| <= |t.cis| && |s.handlers| <= |t.handlers|
    && (forall c | 0 <= c < |s.cis| :: t.cis[c].pr == s.cis[c].pr)
  }

  lemma StepGrows(s: State, a: Action)
    ensures Grows(s, Step(s, a))
  {
  }

  lemma ApprovedAfterKept(s: State, t: State, w: nat)
    requires Grows(s, t) && w < |s.waiters| && ApprovedAfter(s, w)
    ensures ApprovedAfter(t, w)
  {
    var x := s.waiters[w];
    var i: nat :| x.born <= i && ApprovalAt(s.trace, s.waiters, x.run, x.gate, i) && s.trace[i].waiter == w;
    ApprovalKept(s.trace, t.trace, s.waiters, t.waiters, x.run, x.gate, i);
    assert t.trace[i] == s.trace[i];
  }

  lemma HandlerKept(s: State, t: State, h: nat)
    requires Grows(s, t) && h < |s.handlers| && HandlerHolds(s, h) && t.handlers[h] == s.handlers[h]
    ensures HandlerHolds(t, h)
  {
    match s.handlers[h]
    case RecordApproval(w, author, _, _) =>
      var k :| 0 <= k < |s.trace| && s.trace[k] == Member(h, author);
      assert t.trace[k] == s.trace[k];
    case ResolveGate(w) => ApprovedAfterKept(s, t, w);
    case ResolveCi(pr, succeeded) =>
      var k :| 0 <= k < |s.trace| && s.trace[k] == CiResult(pr, succeeded);
      assert t.trace[k] == s.trace[k];
    case _ =>
  }

  lemma StageKept(s: State, t: State)
    requires Grows(s, t) && StageHolds(s) && t.stage == s.stage && t.run == s.run
    ensures StageHolds(t)
  {
    var run := s.run;
    hide AnalysisApproved, Scanned, TestedGreen, Opened, GreenPr, ReadyToMerge;
    match s.stage
    case Draft(n) => AnalysisKept(s.trace, t.trace, s.waiters, t.waiters, run);
    case RecordScan(n, _) => AnalysisKept(s.trace, t.trace, s.waiters, t.waiters, run);
    case Test(n) =>
      AnalysisKept(s.trace, t.trace, s.waiters, t.waiters, run);
      ScannedKept(s.trace, t.trace, s.waiters, t.waiters, run, n);
    case RecordTest(n, _) =>
      AnalysisKept(s.trace, t.trace, s.waiters, t.waiters, run);
      ScannedKept(s.trace, t.trace, s.waiters, t.waiters, run, n);
    case OpenPr(n) => TestedKept(s.trace, t.trace, s.waiters, t.waiters, run, n);
    case RecordPrOpened(n, _) => TestedKept(s.trace, t.trace, s.waiters, t.waiters, run, n);
    case ActivatePr(p) => OpenedKept(s.trace, t.trace, s.waiters, t.waiters, run, p);
    case AwaitCi(c) => OpenedKept(s.trace, t.trace, s.waiters, t.waiters, run, s.cis[c].pr);
    case AnnouncePr(p) => GreenKept(s.trace, t.trace, s.waiters, t.waiters, run, p);
    case OpenPrGate(p) => GreenKept(s.trace, t.trace, s.waiters, t.waiters, run, p);
    case Merge(p) => ReadyKept(s.trace, t.trace, s.waiters, t.waiters, run, p);
    case RecordMerged(p) => ReadyKept(s.trace, t.trace, s.waiters, t.waiters, run, p);
    case _ =>
  }

  /** What a waiter has been through is enough for the stage behind its gate. */
  lemma GatePassed(s: State, w: nat)
    requires Inv(s) && w < |s.waiters| && s.waiters[w].status.Approved?
    ensures s.waiters[w].gate.Three? ==> AnalysisApproved(s.trace, s.waiters, s.waiters[w].run)
    ensures s.waiters[w].gate.Eight? ==> ReadyToMerge(s.trace, s.waiters, s.waiters[w].run, s.waiters[w].pr)
  {
    hide MergeHolds, StageHolds, HandlerHolds, GreenPr;
    var x := s.waiters[w];
    assert WaiterHolds(s, w);
    var i: nat :| x.born <= i && ApprovalAt(s.trace, s.waiters, x.run, x.gate, i) && s.trace[i].waiter == w;
    assert i < |s.trace|;
    hide Inv, WaiterHolds, ApprovedAfter, ApprovalAt;
    if x.gate.Eight? {
      GreenKept(s.trace[..x.born], s.trace[..i], s.waiters, s.waiters, x.run, x.pr);
    }
  }

  /** A record of the right kind on top of what was already evident is the next piece of evidence. */
  lemma EvidenceGrows(t: seq<Event>, ws: seq<Waiter>, run: nat, n: nat, pr: nat)
    ensures 1 <= n <= MAX_ENGINEER_ATTEMPTS && AnalysisApproved(t, ws, run) ==> Scanned(t + [ScanPass(run, n)], ws, run, n)
    ensures Scanned(t, ws, run, n) ==> TestedGreen(t + [Tested(run, n, true)], ws, run, n)
    ensures TestedGreen(t, ws, run, n) ==> Opened(t + [PrOpened(run, n, pr)], ws, run, pr)
  {
    hide AnalysisApproved;
    var i := |t|;
    assert (t + [ScanPass(run, n)])[..i] == t && (t + [ScanPass(run, n)])[i] == ScanPass(run, n);
    assert (t + [Tested(run, n, true)])[..i] == t && (t + [Tested(run, n, true)])[i] == Tested(run, n, true);
    assert (t + [PrOpened(run, n, pr)])[..i] == t && (t + [PrOpened(run, n, pr)])[i] == PrOpened(run, n, pr);
  }

  /** The scan and the test: forward with the evidence, or back to the engineer. */
  lemma CheckAdvances(s: State, answer: Answer, pr: nat)
    requires StageHolds(s) && (s.stage.RecordScan? || s.stage.RecordTest?)
    ensures StageHolds(RunStep(s, answer, pr))
  {
    hide AnalysisApproved, Scanned, TestedGreen;
    var n, t := s.stage.attempt, RunStep(s, answer, pr);
    assert s.trace <= t.trace;
    AnalysisKept(s.trace, t.trace, s.waiters, s.waiters, s.run);
    EvidenceGrows(s.trace, s.waiters, s.run, n, 0);
    if s.stage.RecordTest? {
      ScannedAttempt(s.trace, s.waiters, s.run, n);
    }
  }

  lemma GateAdvances(s: State, answer: Answer, pr: nat)
    requires Inv(s) && s.stage.AwaitGate?
    ensures StageHolds(RunStep(s, answer, pr))
  {
    hide HandlerHolds, WaiterHolds, MergeHolds, AnalysisApproved, ReadyToMerge;
    if s.waiters[s.stage.waiter].status.Approved? {
      GatePassed(s, s.stage.waiter);
    }
  }

  /** The run's own step arrives at a stage it is entitled to. */
  lemma RunStageHolds(s: State, answer: Answer, pr: nat)
    requires Inv(s)
    ensures StageHolds(RunStep(s, answer, pr))
  {
    hide AnalysisApproved, Scanned, TestedGreen, Opened, ReadyToMerge, Later;
    match s.stage
    case RecordScan(_, _) => CheckAdvances(s, answer, pr);
    case RecordTest(_, _) => CheckAdvances(s, answer, pr);
    case AwaitGate(_) => GateAdvances(s, answer, pr);
    case RecordPrOpened(n, p) => EvidenceGrows(s.trace, s.waiters, s.run, n, p);
    case AwaitCi(c) => hide HandlerHolds, WaiterHolds, MergeHolds;
    case _ => hide HandlerHolds, WaiterHolds, MergeHolds, GreenPr;
  }

  lemma ScannedAttempt(t: seq<Event>, ws: seq<Waiter>, run: nat, n: nat)
    requires Scanned(t, ws, run, n)
    ensures 1 <= n <= MAX_ENGINEER_ATTEMPTS
  {
  }

  /** What a step can have done to the trace and to the waiters. */
  lemma StepEffect(s: State, a: Action)
    ensures var t := Step(s, a);
            && |t.trace| <= |s.trace| + 1
            && (|t.trace| > |s.trace| && t.trace[|s.trace|].PrMerged? ==>
                  s.stage.RecordMerged? && t.trace[|s.trace|] == PrMerged(s.run, s.stage.pr))
            && (forall w | 0 <= w < |s.waiters| && t.waiters[w].status.Approved? && !s.waiters[w].status.Approved? ::
                  a.HandlerOn? && a.handler < |s.handlers| && s.handlers[a.handler] == ResolveGate(w))
            && |t.waiters| <= |s.waiters| + 1
            && (|t.waiters| > |s.waiters| ==>
                  var x := t.waiters[|s.waiters|];
                  && x.status.Waiting? && x.run == s.run == t.run && x.born == |t.trace|
                  && (x.gate.Eight? ==> s.stage.OpenPrGate? && x.pr == s.stage.pr))
  {
  }

  lemma RunStepLeavesHandlers(s: State, a: Action)
    ensures a.RunOn? ==> Step(s, a).handlers == s.handlers
  {
  }

  lemma HandlersHold(s: State, a: Action, h: nat)
    requires Inv(s) && h < |Step(s, a).handlers|
    ensures HandlerHolds(Step(s, a), h)
  {
    var t := Step(s, a);
    StepGrows(s, a);
    if h < |s.handlers| {
      HandlerMoves(s, a, h);
    } else {
      NewHandlerIsNew(s, a, h);
    }
    hide Step, StageHolds, WaiterHolds, MergeHolds, ApprovedAfter;
    if h < |s.handlers| && t.handlers[h] == s.handlers[h] {
      HandlerKept(s, t, h);
    } else if h < |s.handlers| && t.handlers[h].ResolveGate? {
      ResolveHolds(s, t, h);
    } else if h < |s.handlers| {
      assert HandlerHolds(s, h);
    }
  }

  lemma NewHandlerIsNew(s: State, a: Action, h: nat)
    requires |s.handlers| <= h < |Step(s, a).handlers|
    ensures Step(s, a).handlers[h].Verify? || Step(s, a).handlers[h].ParseBuild?
  {
    if a.RunOn? {
      RunStepLeavesHandlers(s, a);
    }
    hide RunStep;
  }

  /** How a handler moves on, and what is written then. */
  lemma HandlerMoves(s: State, a: Action, h: nat)
    requires h < |s.handlers| && (s.gate.Some? ==> s.gate.value < |s.waiters|)
    ensures var t, n := Step(s, a), |s.trace|;
            && h < |t.handlers|
            && (t.handlers[h] == s.handlers[h] ||
                match t.handlers[h]
                case CheckMembership(w, _) => w < |t.waiters|
                case RecordApproval(w, author, _, _) =>
                  s.handlers[h].CheckMembership? && s.handlers[h].waiter == w && t.trace == s.trace + [Member(h, author)] && |t.waiters| == |s.waiters|
                case ResolveGate(w) =>
                  && s.handlers[h].RecordApproval? && s.handlers[h].waiter == w && t.waiters == s.waiters
                  && t.trace == s.trace + [GateApproved(h, s.handlers[h].author, w, s.handlers[h].runId, s.handlers[h].asked)]
                case ResolveCi(pr, succeeded) => t.trace == s.trace + [CiResult(pr, succeeded)]
                case _ => true)
  {
    if a.RunOn? {
      RunStepLeavesHandlers(s, a);
    }
    hide RunStep, Settle, SettleCi;
  }

  lemma ResolveHolds(s: State, t: State, h: nat)
    requires Inv(s) && h < |s.handlers| && h < |t.handlers| && s.handlers[h].RecordApproval? && t.waiters == s.waiters
    requires t.handlers[h] == ResolveGate(s.handlers[h].waiter)
    requires t.trace == s.trace + [GateApproved(h, s.handlers[h].author, s.handlers[h].waiter, s.handlers[h].runId, s.handlers[h].asked)]
    ensures HandlerHolds(t, h)
  {
    var n, w, author := |s.trace|, s.handlers[h].waiter, s.handlers[h].author;
    assert HandlerHolds(s, h) && WaiterHolds(s, w);
    hide Inv, WaiterHolds;
    var k :| 0 <= k < n && s.trace[k] == Member(h, author);
    assert t.trace[k] == s.trace[k];
    assert ApprovalAt(t.trace, t.waiters, t.waiters[w].run, t.waiters[w].gate, n);
  }

  lemma WaitersHold(s: State, a: Action, w: nat)
    requires Inv(s) && w < |Step(s, a).waiters|
    ensures WaiterHolds(Step(s, a), w)
  {
    var t := Step(s, a);
    StepGrows(s, a);
    StepEffect(s, a);
    hide Step, GreenPr, MergeHolds, ApprovedAfter;
    if w < |s.waiters| {
      var x := s.waiters[w];
      assert WaiterHolds(s, w);
      assert t.trace[..x.born] == s.trace[..x.born];
      if x.gate.Eight? {
        GreenKept(s.trace[..x.born], t.trace[..x.born], s.waiters, t.waiters, x.run, x.pr);
      }
      if x.status.Approved? {
        ApprovedAfterKept(s, t, w);
      } else if t.waiters[w].status.Approved? {
        assert HandlerHolds(s, a.handler);
        ApprovedAfterKept(s, t, w);
      }
    } else {
      assert t.trace[..|t.trace|] == t.trace;
      if t.waiters[w].gate.Eight? {
        GreenKept(s.trace, t.trace, s.waiters, t.waiters, s.run, t.waiters[w].pr);
      }
    }
  }

  lemma MergesHold(s: State, a: Action, m: nat)
    requires Inv(s) && m < |Step(s, a).trace|
    ensures MergeHolds(Step(s, a), m)
  {
    var t := Step(s, a);
    StepGrows(s, a);
    StepEffect(s, a);
    hide Step, HandlerHolds, WaiterHolds, ReadyToMerge;
    if t.trace[m].PrMerged? {
      if m < |s.trace| {
        assert MergeHolds(s, m) && t.trace[..m] == s.trace[..m] && t.trace[m] == s.trace[m];
        ReadyKept(s.trace[..m], t.trace[..m], s.waiters, t.waiters, t.trace[m].run, t.trace[m].pr);
      } else {
        assert s.stage.RecordMerged? && t.trace[..m] == s.trace;
        ReadyKept(s.trace, t.trace[..m], s.waiters, t.waiters, t.trace[m].run, t.trace[m].pr);
      }
    }
  }

  lemma StepKeepsInv(s: State, a: Action)
    requires Inv(s)
    ensures Inv(Step(s, a))
  {
    var t := Step(s, a);
    StepGrows(s, a);
    if a.RunOn? {
      RunStageHolds(s, a.answer, a.pr);
    } else if !a.Start? {
      StageKept(s, t);
    }
    forall h: nat | h < |t.handlers| ensures HandlerHolds(t, h) { HandlersHold(s, a, h); }
    forall w: nat | w < |t.waiters| ensures WaiterHolds(t, w) { WaitersHold(s, a, w); }
    forall m: nat | m < |t.trace| ensures MergeHolds(t, m) { MergesHold(s, a, m); }
    CisHold(s, a);
    hide StageHolds, HandlerHolds, WaiterHolds, MergeHolds, RunStep;
  }

  lemma CisHold(s: State, a: Action)
    requires Inv(s)
    ensures var t := Step(s, a); forall c | 0 <= c < |t.cis| :: t.cis[c].status.Green? ==> CiResult(t.cis[c].pr, true) in t.trace
    ensures var t := Step(s, a); t.gate.Some? ==> t.gate.value < |t.waiters|
  {
    var t := Step(s, a);
    StepGrows(s, a);
    CisTurnGreen(s, a);
    hide Step, StageHolds, WaiterHolds, MergeHolds;
    forall c | 0 <= c < |t.cis| && t.cis[c].status.Green? ensures CiResult(t.cis[c].pr, true) in t.trace {
      if !(c < |s.cis| && s.cis[c].status.Green?) {
        assert HandlerHolds(s, a.handler);
      }
      var k :| 0 <= k < |s.trace| && s.trace[k] == CiResult(t.cis[c].pr, true);
      assert t.trace[k] == s.trace[k];
    }
  }

  /** A build promise turns green only by the handler of its pull request's succeeded build. */
  lemma CisTurnGreen(s: State, a: Action)
    requires s.gate.Some? ==> s.gate.value < |s.waiters|
    ensures var t := Step(s, a);
            && (t.gate.Some? ==> t.gate.value < |t.waiters|)
            && forall c | 0 <= c < |t.cis| && t.cis[c].status.Green? && !(c < |s.cis| && s.cis[c].status.Green?) ::
                 a.HandlerOn? && a.handler < |s.handlers| && s.handlers[a.handler] == ResolveCi(t.cis[c].pr, true)
  {
    if a.RunOn? {
      RunStepCis(s, a.answer, a.pr);
    }
    hide RunStep;
  }

  lemma RunStepCis(s: State, answer: Answer, pr: nat)
    requires s.gate.Some? ==> s.gate.value < |s.waiters|
    ensures var t := RunStep(s, answer, pr);
            && (t.gate.Some? ==> t.gate.value < |t.waiters|)
            && (t.cis == s.cis || (|t.cis| == |s.cis| + 1 && t.cis[..|s.cis|] == s.cis && t.cis[|s.cis|].status.CiWaiting?))
  {
  }

  lemma {:induction false} RunKeepsInv(s: State, schedule: seq<Action>)
    requires Inv(s)
    ensures Inv(Run(s, schedule))
    decreases |schedule|
  {
    hide Inv, Step;
    if schedule != [] {
      StepKeepsInv(s, schedule[0]);
      RunKeepsInv(Step(s, schedule[0]), schedule[1..]);
    }
  }

  lemma InitHolds()
    ensures Inv(Init())
  {
  }

  // ------------------------------------------------------------ main results

  /**
   * Behind every merge, under every interleaving of the webhooks with the run
   * and in this order: an approval of this very run's analysis gate (`a`), a
   * clean scan (`x`) and a green test (`y`) of one attempt `n` out of three, the
   * pull request opened from that attempt (`o`), and an approval of this run's
   * pull-request gate (`b`) recorded after a succeeded build of the same pull
   * request (`c`). Both approvals follow a confirmed membership of their author.
   */
  lemma EveryMergeIsEarned(schedule: seq<Action>, m: nat)
    returns (a: nat, x: nat, y: nat, o: nat, c: nat, b: nat, n: nat)
    requires m < |Run(Init(), schedule).trace| && Run(Init(), schedule).trace[m].PrMerged?
    ensures var s := Run(Init(), schedule);
            var run, pr := s.trace[m].run, s.trace[m].pr;
            && a < x < y < o < b < m && c < b && 1 <= n <= MAX_ENGINEER_ATTEMPTS
            && ApprovalAt(s.trace, s.waiters, run, Three, a)
            && s.trace[x] == ScanPass(run, n) && s.trace[y] == Tested(run, n, true) && s.trace[o] == PrOpened(run, n, pr)
            && s.trace[c] == CiResult(pr, true)
            && ApprovalAt(s.trace, s.waiters, run, Eight, b)
  {
    var s := Run(Init(), schedule);
    InitHolds();
    RunKeepsInv(Init(), schedule);
    hide Run, StageHolds, HandlerHolds, WaiterHolds, ReadyToMerge, ApprovalAt;
    assert MergeHolds(s, m);
    a, x, y, o, c, b, n := Earned(s.trace, s.waiters, s.trace[m].run, s.trace[m].pr, m);
  }

  lemma Earned(t: seq<Event>, ws: seq<Waiter>, run: nat, pr: nat, m: nat)
    returns (a: nat, x: nat, y: nat, o: nat, c: nat, b: nat, n: nat)
    requires m <= |t| && ReadyToMerge(t[..m], ws, run, pr)
    ensures a < x < y < o < b < m && c < b && 1 <= n <= MAX_ENGINEER_ATTEMPTS
    ensures ApprovalAt(t, ws, run, Three, a) && ApprovalAt(t, ws, run, Eight, b)
    ensures t[x] == ScanPass(run, n) && t[y] == Tested(run, n, true) && t[o] == PrOpened(run, n, pr) && t[c] == CiResult(pr, true)
  {
    hide ApprovalAt, GreenPr, Opened;
    b :| b < m && ApprovalAt(t[..m], ws, run, Eight, b) && GreenPr(t[..m][..b], ws, run, pr);
    assert t[..m][..b] == t[..b];
    ApprovalKept(t[..m], t, ws, ws, run, Eight, b);
    o, c, n := EarnedPr(t, ws, run, pr, b);
    a, x, y := EarnedBefore(t, ws, run, n, o);
  }

  lemma EarnedPr(t: seq<Event>, ws: seq<Waiter>, run: nat, pr: nat, b: nat) returns (o: nat, c: nat, n: nat)
    requires b <= |t| && GreenPr(t[..b], ws, run, pr)
    ensures o < b && c < b && t[o] == PrOpened(run, n, pr) && t[c] == CiResult(pr, true) && TestedGreen(t[..o], ws, run, n)
  {
    hide TestedGreen;
    c :| 0 <= c < b && t[..b][c] == CiResult(pr, true);
    o, n :| o < b && t[..b][o] == PrOpened(run, n, pr) && TestedGreen(t[..b][..o], ws, run, n);
    assert t[..b][..o] == t[..o];
  }

  lemma EarnedBefore(t: seq<Event>, ws: seq<Waiter>, run: nat, n: nat, o: nat) returns (a: nat, x: nat, y: nat)
    requires o <= |t| && TestedGreen(t[..o], ws, run, n)
    ensures a < x < y < o && 1 <= n <= MAX_ENGINEER_ATTEMPTS
    ensures ApprovalAt(t, ws, run, Three, a) && t[x] == ScanPass(run, n) && t[y] == Tested(run, n, true)
  {
    hide ApprovalAt;
    y :| y < o && t[..o][y] == Tested(run, n, true) && Scanned(t[..o][..y], ws, run, n);
    assert t[..o][..y] == t[..y];
    x :| x < y && t[..y][x] == ScanPass(run, n) && AnalysisApproved(t[..y][..x], ws, run);
    assert t[..y][..x] == t[..x];
    a :| ApprovalAt(t[..x], ws, run, Three, a);
    ApprovalIsInside(t[..x], ws, run, Three, a);
    ApprovalKept(t[..x], t, ws, ws, run, Three, a);
  }

  lemma ApprovalIsInside(t: seq<Event>, ws: seq<Waiter>, run: nat, gate: Gate, i: nat)
    requires ApprovalAt(t, ws, run, gate, i)
    ensures i < |t|
  {
  }

  // ------------------------------------------------ a gate that cannot close

  /** A webhook that has read waiter `w` and will still resolve it. */
  predicate Holds(h: Handler, w: nat) {
    match h
    case CheckMembership(v, _) => v == w
    case RecordApproval(v, _, _, _) => v == w
    case ResolveGate(v) => v == w
    case _ => false
  }

  /** The run waits at a gate which `this.gate` no longer names and no webhook under way remembers. */
  ghost predicate Stranded(s: State) {
    && s.stage.AwaitGate? && s.stage.waiter < |s.waiters| && s.waiters[s.stage.waiter].status.Waiting?
    && s.gate != Some(s.stage.waiter)
    && forall h | 0 <= h < |s.handlers| :: !Holds(s.handlers[h], s.stage.waiter)
  }

  lemma StrandedStays(s: State, a: Action)
    requires Stranded(s)
    ensures Stranded(Step(s, a)) && Step(s, a).stage == s.stage && Step(s, a).run == s.run
  {
    if a.HandlerOn? && a.handler < |s.handlers| {
      HandlerLeavesStranded(s, a.handler, a.ok);
      hide HandlerStep;
    }
    hide SettleCi;
  }

  lemma HandlerLeavesStranded(s: State, h: nat, ok: bool)
    requires Stranded(s) && h < |s.handlers|
    ensures Stranded(HandlerStep(s, h, ok)) && HandlerStep(s, h, ok).stage == s.stage && HandlerStep(s, h, ok).run == s.run
  {
    hide SettleCi;
  }

  /** Nothing that can happen, no approval and no rejection, ever moves a stranded run. */
  lemma {:induction false} StrandedForever(s: State, schedule: seq<Action>)
    requires Stranded(s)
    ensures Stranded(Run(s, schedule)) && Run(s, schedule).stage == s.stage
    decreases |schedule|
  {
    if schedule != [] {
      StrandedStays(s, schedule[0]);
      StrandedForever(Step(s, schedule[0]), schedule[1..]);
    }
  }

  /** Letting handler `h` finish with yes answers, then the run. */
  lemma HolderFinishes(s: State, h: nat) returns (schedule: seq<Action>)
    requires s.stage.AwaitGate? && s.stage.waiter < |s.waiters| && s.waiters[s.stage.waiter].status.Waiting?
    requires h < |s.handlers| && Holds(s.handlers[h], s.stage.waiter)
    ensures Run(s, schedule).stage != s.stage
    decreases if s.handlers[h].CheckMembership? then 2 else if s.handlers[h].RecordApproval? then 1 else 0
  {
    var t := Step(s, HandlerOn(h, true));
    if s.handlers[h].ResolveGate? {
      schedule := [HandlerOn(h, true), RunOn(Good, 0)];
      assert schedule[1..] == [RunOn(Good, 0)] && schedule[1..][1..] == [];
      assert Run(s, schedule) == Run(t, schedule[1..]) == Run(Step(t, RunOn(Good, 0)), []);
    } else {
      var rest := HolderFinishes(t, h);
      schedule := [HandlerOn(h, true)] + rest;
      assert schedule[1..] == rest;
    }
  }

  ghost predicate CanLeave(s: State) {
    exists schedule :: Run(s, schedule).stage != s.stage
  }

  lemma Leaves(s: State, schedule: seq<Action>)
    requires Run(s, schedule).stage != s.stage
    ensures CanLeave(s)
  {
  }

  /**
   * The exact condition under which a run waiting at a gate can still leave it:
   * it is not stranded. If it is not, an approval by a member is enough.
   */
  lemma WaitingRunCanLeaveUnlessStranded(s: State)
    requires Inv(s) && s.stage.AwaitGate?
    ensures CanLeave(s) <==> !Stranded(s)
  {
    hide WaiterHolds, HandlerHolds, MergeHolds;
    var w := s.stage.waiter;
    if Stranded(s) {
      forall schedule ensures Run(s, schedule).stage == s.stage {
        StrandedForever(s, schedule);
      }
    } else if !s.waiters[w].status.Waiting? {
      var schedule: seq<Action> := [RunOn(Good, 0)];
      assert schedule[1..] == [];
      assert Run(s, schedule) == Run(Step(s, RunOn(Good, 0)), []) == Step(s, RunOn(Good, 0));
      Leaves(s, schedule);
    } else if s.gate == Some(w) {
      var k := |s.handlers|;
      var t := Step(Step(s, Jira(Approve, "")), HandlerOn(k, true));
      var rest := HolderFinishes(t, k);
      var schedule := [Jira(Approve, ""), HandlerOn(k, true)] + rest;
      assert schedule[1..] == [HandlerOn(k, true)] + rest && schedule[1..][1..] == rest;
      assert Run(s, schedule) == Run(t, rest);
      Leaves(s, schedule);
    } else {
      var h :| 0 <= h < |s.handlers| && Holds(s.handlers[h], w);
      var schedule := HolderFinishes(s, h);
      Leaves(s, schedule);
    }
  }

  // ------------------------------------------- the overtaken approval

  /** The first run up to its analysis gate. */
  const TO_THE_GATE: seq<Action> := [Start, RunOn(Good, 0), RunOn(Good, 0), RunOn(Good, 0)]

  /**
   * An approval reads the first run's gate and asks for membership; a rejection
   * ends that run and a second one reaches its own gate; then the answer comes.
   */
  const OVERTAKEN: seq<Action> :=
    TO_THE_GATE
    + [Jira(Approve, "selin"), HandlerOn(0, true), Jira(Reject, "mert"), HandlerOn(1, true), RunOn(Good, 0)]
    + TO_THE_GATE
    + [HandlerOn(0, true), HandlerOn(0, true), HandlerOn(0, true)]

  lemma {:induction false} RunInParts(s: State, first: seq<Action>, second: seq<Action>)
    ensures Run(s, first + second) == Run(Run(s, first), second)
    decreases |first|
  {
    hide Step;
    if first == [] {
      assert first + second == second;
    } else {
      assert (first + second)[1..] == first[1..] + second;
      RunInParts(Step(s, first[0]), first[1..], second);
    }
  }

  lemma ReachesItsGate(s: State)
    requires s.stage.Idle?
    ensures var t, w := Run(s, TO_THE_GATE), |s.waiters|;
            t == s.(run := s.run + 1, stage := AwaitGate(w), gate := Some(w),
                    trace := s.trace + [Began(s.run + 1), RunStarted(s.run + 1), GateOpened(s.run + 1, Three)],
                    waiters := s.waiters + [Waiter(s.run + 1, Three, Waiting, 0, |s.trace| + 3)])
  {
    var e := TO_THE_GATE;
    var s1 := Step(s, e[0]);
    var s2 := Step(s1, e[1]);
    var s3 := Step(s2, e[2]);
    var s4 := Step(s3, e[3]);
    assert s.trace + [Began(s.run + 1)] + [RunStarted(s.run + 1)] + [GateOpened(s.run + 1, Three)] == s.trace + [Began(s.run + 1), RunStarted(s.run + 1), GateOpened(s.run + 1, Three)];
    hide Step;
    assert e[1..][1..] == e[2..] && e[2..][1..] == e[3..] && e[3..][1..] == [];
    assert Run(s, e) == Run(s1, e[1..]) == Run(s2, e[2..]) == Run(s3, e[3..]) == Run(s4, []);
  }

  /**
   * Two things the audit trail and the board must not be trusted for here: the
   * second run is stranded at its gate for good, and its `runId` stands on an
   * approval whose waiter belonged to the first run.
   */
  lemma OvertakenApprovalStrandsTheNextRun()
    ensures var s := Run(Init(), OVERTAKEN);
            && s.run == 2 && Stranded(s)
            && exists i | 0 <= i < |s.trace| ::
                 s.trace[i].GateApproved? && s.trace[i].runId == 2
                 && s.trace[i].waiter < |s.waiters| && s.waiters[s.trace[i].waiter].run == 1
  {
    var middle := [Jira(Approve, "selin"), HandlerOn(0, true), Jira(Reject, "mert"), HandlerOn(1, true), RunOn(Good, 0)];
    RunInParts(Init(), TO_THE_GATE + middle + TO_THE_GATE, LATE);
    RunInParts(Init(), TO_THE_GATE + middle, TO_THE_GATE);
    RunInParts(Init(), TO_THE_GATE, middle);
    ReachesItsGate(Init());
    var g := Run(Init(), TO_THE_GATE);
    var m := FirstRunIsRejected(g);
    ReachesItsGate(m);
    var n := Run(m, TO_THE_GATE);
    ApprovalLandsLate(n);
    hide Run, Step, Stranded;
    assert OVERTAKEN == TO_THE_GATE + middle + TO_THE_GATE + LATE;
    var s := Run(n, LATE);
    assert s.trace[|n.trace| + 1] == GateApproved(0, "selin", 0, 2, |n.trace|);
  }

  const LATE: seq<Action> := [HandlerOn(0, true), HandlerOn(0, true), HandlerOn(0, true)]

  lemma ApprovalLandsLate(n: State)
    requires n.run == 2 && n.stage == AwaitGate(1) && n.gate == Some(1) && n.handlers == [CheckMembership(0, "selin"), Over]
    requires |n.waiters| == 2 && n.waiters[1].status.Waiting? && n.waiters[0].run == 1
    ensures var s := Run(n, LATE);
            && s.run == 2 && Stranded(s)
            && s.trace == n.trace + [Member(0, "selin")] + [GateApproved(0, "selin", 0, 2, |n.trace|)]
            && |s.waiters| == 2 && s.waiters[0].run == 1
  {
    var l1 := Step(n, LATE[0]);
    var l2 := Step(l1, LATE[1]);
    var l3 := Step(l2, LATE[2]);
    hide Step;
    assert LATE[1..][1..] == LATE[2..] && LATE[2..][1..] == [];
    assert Run(n, LATE) == Run(l1, LATE[1..]) == Run(l2, LATE[2..]) == Run(l3, []);
  }

  lemma FirstRunIsRejected(g: State) returns (m: State)
    requires g.run == 1 && g.stage == AwaitGate(0) && g.gate == Some(0) && g.handlers == []
    requires g.waiters == [Waiter(1, Three, Waiting, 0, 3)]
    ensures m == Run(g, [Jira(Approve, "selin"), HandlerOn(0, true), Jira(Reject, "mert"), HandlerOn(1, true), RunOn(Good, 0)])
    ensures m == g.(stage := Idle, gate := None, handlers := [CheckMembership(0, "selin"), Over],
                    waiters := [Waiter(1, Three, Rejected, 0, 3)])
  {
    var e := [Jira(Approve, "selin"), HandlerOn(0, true), Jira(Reject, "mert"), HandlerOn(1, true), RunOn(Good, 0)];
    var m1 := Step(g, e[0]);
    var m2 := Step(m1, e[1]);
    var m3 := Step(m2, e[2]);
    var m4 := Step(m3, e[3]);
    m := Step(m4, e[4]);
    hide Step;
    assert e[1..][1..] == e[2..] && e[2..][1..] == e[3..] && e[3..][1..] == e[4..] && e[4..][1..] == [];
    assert Run(g, e) == Run(m1, e[1..]) == Run(m2, e[2..]) == Run(m3, e[3..]) == Run(m4, e[4..]) == Run(m, []);
  }
}
