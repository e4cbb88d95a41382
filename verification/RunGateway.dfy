/**
 * Starting a run for a ticket: apps/deploy/src/temporal-gateway.ts, with the rows
 * of apps/deploy/src/stores/run-context.ts. Any number of callers race; the engine
 * takes a start, a signal-with-start and a describe as single steps.
 */
module RunGateway {
  import opened Wrappers

  /** An execution; its run id is its place in the engine's history. */
  datatype Exec = Exec(ticket: string, open: bool)

  datatype RunRow = RunRow(id: string, ticket: string, live: bool)

  datatype Phase = Fresh | HasRead | Opening | Told(started: bool) | Failed

  /**
   * One `signalWithStart` call. `before` is its pre-read and `readAt` how many
   * executions there were then; `reached` is the execution it started or joined.
   */
  datatype Caller = Caller(
    ticket: string,
    signals: bool,
    phase: Phase,
    before: Option<nat>,
    readAt: nat,
    reached: nat,
    created: bool)

  datatype World = World(execs: seq<Exec>, rows: seq<RunRow>, callers: map<nat, Caller>)

  datatype Event =
    | Call(who: nat, ticket: string, signals: bool)
    | Advance(who: nat, fault: bool)
    | Close(exec: nat)
    | Finish(row: nat)

  // ---------------------------------------------------------------- the code

  function WorkflowIdFor(ticket: string): string {
    "maestro-" + ticket
  }

  /** The newest execution of a ticket, open or not. */
  function Latest(execs: seq<Exec>, ticket: string): (r: Option<nat>)
    ensures r.Some? ==> r.value < |execs| && execs[r.value].ticket == ticket
    ensures forall j | 0 <= j < |execs| && execs[j].ticket == ticket :: r.Some? && j <= r.value
  {
    if execs == [] then None
    else if execs[|execs| - 1].ticket == ticket then Some(|execs| - 1)
    else Latest(execs[..|execs| - 1], ticket)
  }

  function OpenExec(execs: seq<Exec>, ticket: string): Option<nat> {
    var latest := Latest(execs, ticket);
    if latest.Some? && execs[latest.value].open then latest else None
  }

  /** `PrismaRunContextStore.create`: a live row is left alone, and a unique violation is taken for one. */
  function OpenRow(rows: seq<RunRow>, ticket: string): seq<RunRow> {
    if exists r :: r in rows && r.ticket == ticket && r.live then rows
    else if exists r :: r in rows && r.id == WorkflowIdFor(ticket) then rows
    else rows + [RunRow(WorkflowIdFor(ticket), ticket, true)]
  }

  /** The caller reaches the open execution, or creates one. */
  function Reach(w: World, c: Caller): (Caller, seq<Exec>) {
    var open := OpenExec(w.execs, c.ticket);
    match open
    case Some(i) => (c.(reached := i, created := false), w.execs)
    case None => (c.(reached := |w.execs|, created := true), w.execs + [Exec(c.ticket, true)])
  }

  function Answered(c: Caller, started: bool): Caller {
    c.(phase := if started then Opening else Told(false))
  }

  function Turn(w: World, c: Caller, fault: bool): (Caller, seq<Exec>, seq<RunRow>) {
    match c.phase
    case Fresh =>
      if fault then (c.(phase := Failed), w.execs, w.rows)
      else if c.signals then (c.(phase := HasRead, before := Latest(w.execs, c.ticket), readAt := |w.execs|), w.execs, w.rows)
      else
        var (next, execs) := Reach(w, c);
        (Answered(next, next.created), execs, w.rows)
    case HasRead =>
      if fault then (c.(phase := Failed), w.execs, w.rows)
      else
        var (next, execs) := Reach(w, c);
        (Answered(next, next.before.None? || next.before.value != next.reached), execs, w.rows)
    case Opening =>
      if fault then (c.(phase := Failed), w.execs, w.rows)
      else (c.(phase := Told(true)), w.execs, OpenRow(w.rows, c.ticket))
    case _ => (c, w.execs, w.rows)
  }

  function Step(w: World, e: Event): World {
    match e
    case Call(who, ticket, signals) =>
      if who in w.callers then w
      else w.(callers := w.callers[who := Caller(ticket, signals, Fresh, None, 0, 0, false)])
    case Advance(who, fault) =>
      if who !in w.callers then w
      else
        var (c, execs, rows) := Turn(w, w.callers[who], fault);
        World(execs, rows, w.callers[who := c])
    case Close(exec) =>
      if exec < |w.execs| then w.(execs := w.execs[exec := w.execs[exec].(open := false)]) else w
    case Finish(row) =>
      if row < |w.rows| then w.(rows := w.rows[row := w.rows[row].(live := false)]) else w
  }

  function Run(w: World, schedule: seq<Event>): World
    decreases schedule
  {
    if schedule == [] then w else Run(Step(w, schedule[0]), schedule[1..])
  }

  const NOTHING: World := World([], [], map[])

  // -------------------------------------------------------------- invariants

  ghost predicate OneOpen(execs: seq<Exec>) {
    forall i, j | 0 <= i < j < |execs| && execs[i].ticket == execs[j].ticket :: !execs[i].open
  }

  predicate Started(c: Caller) {
    c.phase.Opening? || c.phase == Told(true)
  }

  predicate Landed(c: Caller) {
    c.phase.Opening? || c.phase.Told?
  }

  ghost predicate CallerInv(execs: seq<Exec>, c: Caller) {
    && (Landed(c) || c.created ==> c.reached < |execs| && execs[c.reached].ticket == c.ticket)
    && (c.phase.Fresh? || c.phase.HasRead? ==> !c.created)
    && (c.phase.HasRead? ==> c.signals && c.readAt <= |execs| && c.before == Latest(execs[..c.readAt], c.ticket))
    && (Landed(c) && !c.signals ==> (Started(c) <==> c.created))
    && (Landed(c) && c.signals ==> (Started(c) <==> c.reached >= c.readAt) && (c.created ==> c.reached >= c.readAt))
  }

  predicate Creator(w: World, who: nat, exec: nat) {
    who in w.callers && w.callers[who].created && w.callers[who].reached == exec
  }

  ghost predicate OneCreatorEach(w: World) {
    && (forall a: nat, b: nat, i: nat | Creator(w, a, i) && Creator(w, b, i) :: a == b)
    && (forall i: nat | i < |w.execs| :: WasCreated(w, i))
  }

  ghost predicate WasCreated(w: World, exec: nat) {
    exists a: nat :: Creator(w, a, exec)
  }

  ghost predicate RowsInv(rows: seq<RunRow>) {
    && (forall i | 0 <= i < |rows| :: rows[i].id == WorkflowIdFor(rows[i].ticket))
    && (forall i, j | 0 <= i < j < |rows| :: rows[i].ticket != rows[j].ticket)
  }

  ghost predicate Inv(w: World) {
    && OneOpen(w.execs)
    && (forall who | who in w.callers :: CallerInv(w.execs, w.callers[who]))
    && OneCreatorEach(w)
    && RowsInv(w.rows)
  }

  /** Histories only get longer, and executions keep their tickets. */
  ghost predicate Grown(execs: seq<Exec>, later: seq<Exec>) {
    |execs| <= |later| && forall i | 0 <= i < |execs| :: later[i].ticket == execs[i].ticket
  }

  lemma {:induction false} LatestDependsOnTickets(a: seq<Exec>, b: seq<Exec>, ticket: string)
    requires |a| == |b| && forall i | 0 <= i < |a| :: a[i].ticket == b[i].ticket
    ensures Latest(a, ticket) == Latest(b, ticket)
  {
  }

  lemma GrowthKeepsCaller(execs: seq<Exec>, later: seq<Exec>, c: Caller)
    requires Grown(execs, later) && CallerInv(execs, c)
    ensures CallerInv(later, c)
  {
    if c.phase.HasRead? {
      LatestDependsOnTickets(execs[..c.readAt], later[..c.readAt], c.ticket);
    }
  }

  /** What reaching does: joins the one open execution, or adds one where none is open. */
  lemma ReachEffect(w: World, c: Caller)
    requires OneOpen(w.execs)
    ensures var (next, execs) := Reach(w, c);
            && OneOpen(execs) && Grown(w.execs, execs)
            && next.reached < |execs| && execs[next.reached].ticket == c.ticket && execs[next.reached].open
            && (forall j | next.reached < j < |execs| :: execs[j].ticket != c.ticket)
            && (if next.created then next.reached == |w.execs| && |execs| == |w.execs| + 1 else execs == w.execs)
            && next == c.(reached := next.reached, created := next.created)
  {
  }

  /** The flag of the signal path says whether the execution reached is younger than the pre-read. */
  lemma FlagMeans(execs: seq<Exec>, readAt: nat, before: Option<nat>, reached: nat, ticket: string)
    requires readAt <= |execs| && before == Latest(execs[..readAt], ticket)
    requires reached < |execs| && execs[reached].ticket == ticket && forall j | reached < j < |execs| :: execs[j].ticket != ticket
    ensures before.None? || before.value != reached <==> reached >= readAt
  {
    if reached < readAt {
      assert execs[..readAt][reached].ticket == ticket;
    }
  }

  lemma TurnKeepsCaller(w: World, c: Caller, fault: bool)
    requires OneOpen(w.execs) && CallerInv(w.execs, c)
    ensures var (next, execs, rows) := Turn(w, c, fault);
            && CallerInv(execs, next) && OneOpen(execs) && Grown(w.execs, execs)
            && (if next.created && !c.created then next.reached == |w.execs| && |execs| == |w.execs| + 1
                else execs == w.execs && next.created == c.created && (c.created ==> next.reached == c.reached))
  {
    hide Reach, Latest;
    if !fault {
      if c.phase.Fresh? {
        if c.signals {
          assert w.execs[..|w.execs|] == w.execs;
        } else {
          ReachEffect(w, c);
        }
      }
      if c.phase.HasRead? {
        ReachEffect(w, c);
        var (next, execs) := Reach(w, c);
        LatestDependsOnTickets(w.execs[..c.readAt], execs[..c.readAt], c.ticket);
        FlagMeans(execs, c.readAt, c.before, next.reached, c.ticket);
      }
    }
  }

  lemma OpenRowKeeps(rows: seq<RunRow>, ticket: string)
    requires RowsInv(rows)
    ensures RowsInv(OpenRow(rows, ticket))
  {
    assert forall r | r in rows && r.ticket == ticket :: r.id == WorkflowIdFor(ticket);
  }

  lemma AdvanceKeepsInv(w: World, who: nat, fault: bool)
    requires Inv(w) && who in w.callers
    ensures Inv(Step(w, Advance(who, fault)))
  {
    var c, next := w.callers[who], Step(w, Advance(who, fault));
    TurnKeepsCaller(w, c, fault);
    OpenRowKeeps(w.rows, c.ticket);
    TurnRows(w, c, fault);
    hide CallerInv, OneOpen, RowsInv, Turn, Grown;
    forall a | a in next.callers ensures CallerInv(next.execs, next.callers[a]) {
      if a != who {
        GrowthKeepsCaller(w.execs, next.execs, w.callers[a]);
      }
    }
    CreatorsAfter(w, who, fault);
  }

  lemma TurnRows(w: World, c: Caller, fault: bool)
    ensures Turn(w, c, fault).2 in {w.rows, OpenRow(w.rows, c.ticket)}
  {
  }

  lemma CreatorsAfter(w: World, who: nat, fault: bool)
    requires Inv(w) && who in w.callers
    ensures OneCreatorEach(Step(w, Advance(who, fault)))
  {
    var c, next := w.callers[who], Step(w, Advance(who, fault));
    TurnKeepsCaller(w, c, fault);
    forall a: nat, i: nat | Creator(w, a, i) ensures i < |w.execs| {
      assert CallerInv(w.execs, w.callers[a]);
    }
    hide CallerInv, OneOpen, RowsInv, Turn, Grown;
    forall i: nat | i < |next.execs| ensures WasCreated(next, i) {
      if i == |w.execs| {
        assert Creator(next, who, i);
      } else {
        assert WasCreated(w, i);
        var a: nat :| Creator(w, a, i);
        assert Creator(next, a, i);
      }
    }
    forall a: nat, b: nat, i: nat | Creator(next, a, i) && Creator(next, b, i) ensures a == b {
      if i < |w.execs| {
        assert Creator(w, a, i) && Creator(w, b, i);
      }
    }
  }

  lemma SameCreators(w: World, next: World)
    requires OneCreatorEach(w) && |next.execs| == |w.execs|
    requires forall a | a in next.callers && next.callers[a].created :: a in w.callers && w.callers[a] == next.callers[a]
    requires forall a | a in w.callers :: a in next.callers && next.callers[a] == w.callers[a]
    ensures OneCreatorEach(next)
  {
    assert forall a: nat, i: nat :: Creator(next, a, i) <==> Creator(w, a, i);
    forall i: nat | i < |next.execs| ensures WasCreated(next, i) {
      assert WasCreated(w, i);
      var a: nat :| Creator(w, a, i);
      assert Creator(next, a, i);
    }
  }

  lemma StepKeepsInv(w: World, e: Event)
    requires Inv(w)
    ensures Inv(Step(w, e))
  {
    var next := Step(w, e);
    match e {
      case Call(who, ticket, signals) =>
        hide OneOpen, RowsInv;
        SameCreators(w, next);
      case Advance(who, fault) =>
        if who in w.callers {
          AdvanceKeepsInv(w, who, fault);
        }
      case Close(exec) =>
        hide RowsInv;
        forall a | a in next.callers ensures CallerInv(next.execs, next.callers[a]) {
          GrowthKeepsCaller(w.execs, next.execs, w.callers[a]);
        }
        SameCreators(w, next);
      case Finish(row) =>
        hide OneOpen, CallerInv;
        SameCreators(w, next);
    }
  }

  lemma {:induction false} RunKeepsInv(w: World, schedule: seq<Event>)
    requires Inv(w)
    ensures Inv(Run(w, schedule))
    decreases schedule
  {
    if schedule != [] {
      hide Inv, Step;
      StepKeepsInv(w, schedule[0]);
      RunKeepsInv(Step(w, schedule[0]), schedule[1..]);
    }
  }

  // ------------------------------------------------------------ main results

  /** However callers race, at most one execution of a ticket is open, and each was created by exactly one caller. */
  lemma OneOpenRunPerTicket(schedule: seq<Event>)
    ensures var w := Run(NOTHING, schedule);
            && (forall i, j | 0 <= i < |w.execs| && 0 <= j < |w.execs| && w.execs[i].open && w.execs[j].open && w.execs[i].ticket == w.execs[j].ticket :: i == j)
            && (forall i: nat | i < |w.execs| :: CreatedOnce(w, i))
  {
    hide Step;
    RunKeepsInv(NOTHING, schedule);
    hide Run, CallerInv, RowsInv;
    var w := Run(NOTHING, schedule);
    forall i: nat | i < |w.execs| ensures CreatedOnce(w, i) {
      assert WasCreated(w, i);
    }
  }

  ghost predicate CreatedOnce(w: World, exec: nat) {
    exists a: nat :: Creator(w, a, exec) && forall b: nat | Creator(w, b, exec) :: b == a
  }

  /**
   * What `started` is worth. On the plain path it is exactly "this call created
   * the run". With a signal a creator is always told so, and the flag says whether
   * the run reached is younger than the pre-read: a joiner is told it started one
   * exactly when its pre-read was stale.
   */
  lemma StartedIsTruthfulUnlessStale(schedule: seq<Event>, who: nat)
    requires var w := Run(NOTHING, schedule); who in w.callers && w.callers[who].phase.Told?
    ensures var w := Run(NOTHING, schedule);
            var c := w.callers[who];
            && c.reached < |w.execs| && w.execs[c.reached].ticket == c.ticket
            && (c.created ==> c.phase.started)
            && (!c.signals ==> (c.phase.started <==> c.created))
            && (c.signals ==> (c.phase.started <==> c.reached >= c.readAt))
  {
    hide Step;
    RunKeepsInv(NOTHING, schedule);
    assert CallerInv(Run(NOTHING, schedule).execs, Run(NOTHING, schedule).callers[who]);
  }

  ghost predicate HasLiveRow(rows: seq<RunRow>, ticket: string) {
    exists r :: r in rows && r.ticket == ticket && r.live
  }

  ghost predicate HasRow(rows: seq<RunRow>, ticket: string) {
    exists r :: r in rows && r.ticket == ticket
  }

  /** Opening a run's row leaves the ticket with a live one exactly when it had one already, or never had any. */
  lemma OpenRowWorksOnce(rows: seq<RunRow>, ticket: string)
    requires RowsInv(rows)
    ensures HasLiveRow(OpenRow(rows, ticket), ticket) <==> HasLiveRow(rows, ticket) || !HasRow(rows, ticket)
  {
    assert forall r | r in rows :: r.id == WorkflowIdFor(r.ticket);
    assert forall r | r in rows && r.id == WorkflowIdFor(ticket) :: r.ticket == ticket by {
      assert forall r | r in rows :: WorkflowIdFor(r.ticket)[8..] == r.ticket;
      assert WorkflowIdFor(ticket)[8..] == ticket;
    }
    var later := OpenRow(rows, ticket);
    if later != rows {
      assert later[|rows|] in later;
    }
  }

  ghost predicate Over(w: World, ticket: string) {
    Inv(w) && HasRow(w.rows, ticket) && !HasLiveRow(w.rows, ticket)
  }

  lemma StepStaysOver(w: World, e: Event, ticket: string)
    requires Over(w, ticket)
    ensures Over(Step(w, e), ticket)
  {
    StepKeepsInv(w, e);
    var next := Step(w, e);
    var kept :| kept in w.rows && kept.ticket == ticket;
    if e.Advance? && e.who in w.callers {
      var c := w.callers[e.who];
      TurnRows(w, c, e.fault);
      OpenRowWorksOnce(w.rows, ticket);
      hide Inv, Turn;
      if c.ticket != ticket {
        assert forall r | r in OpenRow(w.rows, c.ticket) :: r in w.rows || r.ticket == c.ticket;
      }
      assert kept in next.rows;
    } else if e.Finish? && e.row < |w.rows| {
      hide Inv;
      var i :| 0 <= i < |w.rows| && w.rows[i] == kept;
      assert next.rows[i] in next.rows && next.rows[i].ticket == ticket;
      forall r | r in next.rows && r.ticket == ticket ensures !r.live {
        var k :| 0 <= k < |next.rows| && next.rows[k] == r;
        assert w.rows[k] in w.rows;
      }
    }
  }

  /**
   * Row ids are workflow ids, so a ticket whose run has ended never has a live row
   * again, whatever runs are started for it afterwards.
   */
  lemma {:induction false} EndedTicketNeverLivesAgain(w: World, schedule: seq<Event>, ticket: string)
    requires Over(w, ticket)
    ensures !HasLiveRow(Run(w, schedule).rows, ticket)
    decreases schedule
  {
    if schedule != [] {
      hide Step;
      StepStaysOver(w, schedule[0], ticket);
      hide Over;
      EndedTicketNeverLivesAgain(Step(w, schedule[0]), schedule[1..], ticket);
    }
  }

  /** A ticket's run, started and ended. */
  function FirstRun(ticket: string): seq<Event> {
    [Call(0, ticket, false), Advance(0, false), Advance(0, false)] + [Close(0), Finish(0)]
  }

  function SecondRun(ticket: string): seq<Event> {
    [Call(1, ticket, false), Advance(1, false), Advance(1, false)]
  }

  /** A second start for an ended ticket is told it started a run, which is open, and has no live row. */
  lemma RerunIsStartedWithoutARow(ticket: string)
    ensures var w := Run(NOTHING, FirstRun(ticket) + SecondRun(ticket));
            && 1 in w.callers && w.callers[1].phase == Told(true)
            && w.execs == [Exec(ticket, false), Exec(ticket, true)]
            && w.rows == [RunRow(WorkflowIdFor(ticket), ticket, false)]
  {
    hide Turn, Run;
    var started := [Call(0, ticket, false), Advance(0, false), Advance(0, false)];
    RunOn(NOTHING, FirstRun(ticket), SecondRun(ticket));
    RunOn(NOTHING, started, [Close(0), Finish(0)]);
    StartsRun(NOTHING, 0, ticket);
    var w := Run(NOTHING, started);
    RunTwo(w, Close(0), Finish(0));
    var ended := Run(NOTHING, FirstRun(ticket));
    assert ended.execs == [Exec(ticket, false)] && ended.rows == [RunRow(WorkflowIdFor(ticket), ticket, false)] && 1 !in ended.callers;
    StartsRun(ended, 1, ticket);
    assert OpenRow(ended.rows, ticket) == ended.rows by {
      assert ended.rows[0] in ended.rows;
    }
  }

  lemma StartsRun(w: World, who: nat, ticket: string)
    requires who !in w.callers && OpenExec(w.execs, ticket).None?
    ensures var next := Run(w, [Call(who, ticket, false), Advance(who, false), Advance(who, false)]);
            && next.execs == w.execs + [Exec(ticket, true)] && next.rows == OpenRow(w.rows, ticket)
            && next.callers.Keys == w.callers.Keys + {who} && next.callers[who].phase == Told(true)
  {
    var call, turn := Call(who, ticket, false), Advance(who, false);
    RunOn(w, [call], [turn, turn]);
    assert [call] + [turn, turn] == [call, turn, turn];
    assert Run(w, [call]) == Step(w, call);
    RunTwo(Step(w, call), turn, turn);
    hide OpenRow, Run;
  }

  lemma {:induction false} RunOn(w: World, a: seq<Event>, b: seq<Event>)
    ensures Run(w, a + b) == Run(Run(w, a), b)
    decreases a
  {
    hide Step;
    if a == [] {
      assert a + b == b;
    } else {
      assert (a + b)[1..] == a[1..] + b;
      RunOn(Step(w, a[0]), a[1..], b);
    }
  }

  lemma RunTwo(w: World, a: Event, b: Event)
    ensures Run(w, [a, b]) == Step(Step(w, a), b)
  {
    hide Step;
    assert [a, b][1..] == [b] && [b][1..] == [];
    assert Run(w, [a, b]) == Run(Step(w, a), [b]) == Run(Step(Step(w, a), b), []);
  }

  // ---------------------------------------------------- the call on its own

  class Gateway {
    var execs: seq<Exec>
    var rows: seq<RunRow>

    constructor ()
      ensures execs == [] && rows == []
    {
      execs, rows := [], [];
    }

    ghost predicate Valid()
      reads this
    {
      OneOpen(execs) && RowsInv(rows)
    }

    method Start(ticket: string) returns (alreadyStarted: bool)
      modifies this`execs
      ensures alreadyStarted <==> OpenExec(old(execs), ticket).Some?
      ensures execs == if alreadyStarted then old(execs) else old(execs) + [Exec(ticket, true)]
    {
      alreadyStarted := OpenExec(execs, ticket).Some?;
      if !alreadyStarted {
        execs := execs + [Exec(ticket, true)];
      }
    }

    method EngineSignalWithStart(ticket: string) returns (signaled: nat)
      modifies this`execs
      ensures match OpenExec(old(execs), ticket)
              case Some(i) => signaled == i && execs == old(execs)
              case None => signaled == |old(execs)| && execs == old(execs) + [Exec(ticket, true)]
    {
      var open := OpenExec(execs, ticket);
      if open.Some? {
        signaled := open.value;
      } else {
        signaled := |execs|;
        execs := execs + [Exec(ticket, true)];
      }
    }

    method OpenRun(ticket: string, started: bool)
      modifies this`rows
      ensures rows == if started then OpenRow(old(rows), ticket) else old(rows)
    {
      if started {
        rows := OpenRow(rows, ticket);
      }
    }

    /** With nobody in between, `started` is exact on both paths. */
    method SignalWithStart(ticket: string, signals: bool) returns (workflowId: string, started: bool)
      requires Valid()
      modifies this
      ensures Valid() && workflowId == "maestro-" + ticket
      ensures started <==> forall i | 0 <= i < |old(execs)| && old(execs)[i].ticket == ticket :: !old(execs)[i].open
      ensures execs == if started then old(execs) + [Exec(ticket, true)] else old(execs)
      ensures rows == if started then OpenRow(old(rows), ticket) else old(rows)
    {
      OpenRowKeeps(rows, ticket);
      workflowId := WorkflowIdFor(ticket);
      if !signals {
        var already := Start(ticket);
        started := !already;
        OpenRun(ticket, started);
        return;
      }
      var before := Latest(execs, ticket);
      var signaled := EngineSignalWithStart(ticket);
      started := before.None? || before.value != signaled;
      OpenRun(ticket, started);
    }
  }
}
