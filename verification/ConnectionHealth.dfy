/**
 * Health rows for external connections: apps/bff/src/connection-health.ts. Polls
 * overlap freely; a verdict younger than the time to live is served from the row,
 * and an older one is renewed by one probe that everybody waits for.
 */
module ConnectionHealth {
  import opened Wrappers

  const FAMILIES: seq<(string, set<string>)> := [
    ("llm", {"openrouter", "anthropic", "openai_compat"}),
    ("jira", {"jira_cloud", "jira_dc"}),
    ("scm", {"github", "ado"})]

  /** A connection row; times are milliseconds. */
  datatype Conn = Conn(id: nat, kind: string, enabled: bool, isDefault: bool, testedAt: Option<int>, testOk: Option<bool>)

  datatype State = Healthy | Down | NotConfigured

  /**
   * Where a row's verdict came from: the listed row, or a probe, and then the time
   * of the verdict that probe had already reached when the poll joined it.
   */
  datatype Source = Nowhere | Listed(conn: nat) | Probed(probe: nat, reached: Option<int>)

  /** A health row; `source` is history. */
  datatype Row = Row(service: string, state: State, checkedAt: int, source: Source)

  /** A probe has its verdict (`Reached`) while the write of it is still awaited. */
  datatype Outcome = Pending | Reached(ok: bool, at: int) | Settled(ok: bool, at: int, doneAt: int) | Broke

  datatype Probe = Probe(conn: nat, startedAt: int, outcome: Outcome)

  datatype Stage = Listing | Working | Waiting(probe: nat, reached: Option<int>) | Answered | Threw

  /** One `services()` call: when it began, what it listed, and the rows it has so far. */
  datatype Poll = Poll(at: int, stage: Stage, listed: seq<Conn>, rows: seq<Row>)

  /** That a test of connection `conn` ended at `at` with result `ok`. */
  datatype Verdict = Verdict(conn: nat, at: int, ok: bool)

  datatype World = World(
    clock: int,
    store: seq<Conn>,
    inFlight: map<nat, nat>,
    probes: seq<Probe>,
    polls: map<nat, Poll>,
    verdicts: set<Verdict>)

  datatype Event =
    | Tick(ms: nat)
    | Open(who: nat)
    | Turn(who: nat)
    | Reach(probe: nat, ok: bool)
    | Write(probe: nat)
    | Finish(probe: nat)
    | Break(probe: nat)
    | PanelTest(place: nat, ok: bool)
    | Replace(conns: seq<Conn>)

  // ---------------------------------------------------------------- the code

  predicate Fresh(c: Conn, at: int, ttl: nat) {
    c.testedAt.Some? && c.testOk.Some? && at - c.testedAt.value <= ttl
  }

  function StateOf(ok: bool): State {
    if ok then Healthy else Down
  }

  predicate Candidate(c: Conn, kinds: set<string>) {
    c.enabled && c.kind in kinds
  }

  function First(listed: seq<Conn>, kinds: set<string>, defaultOnly: bool): (r: Option<Conn>)
    ensures r.Some? ==> r.value in listed && Candidate(r.value, kinds) && (defaultOnly ==> r.value.isDefault)
    ensures r.None? ==> forall c | c in listed && Candidate(c, kinds) :: defaultOnly && !c.isDefault
  {
    if listed == [] then None
    else if Candidate(listed[0], kinds) && (!defaultOnly || listed[0].isDefault) then Some(listed[0])
    else First(listed[1..], kinds, defaultOnly)
  }

  /** The family's default, or else its first enabled connection. */
  function Chosen(listed: seq<Conn>, kinds: set<string>): (r: Option<Conn>)
    ensures r.Some? ==> r.value in listed && Candidate(r.value, kinds)
    ensures r.None? <==> forall c | c in listed :: !Candidate(c, kinds)
    ensures r.Some? && !r.value.isDefault ==> forall c | c in listed && Candidate(c, kinds) :: !c.isDefault
  {
    var byDefault := First(listed, kinds, true);
    if byDefault.Some? then byDefault else First(listed, kinds, false)
  }

  /** A probe that has not ended: it waits for the test, or for the write of the verdict. */
  predicate Running(o: Outcome) {
    o.Pending? || o.Reached?
  }

  function VerdictOf(probes: seq<Probe>, probe: nat): Option<int> {
    if probe < |probes| && probes[probe].outcome.Reached? then Some(probes[probe].outcome.at) else None
  }

  function Push(p: Poll, row: Row): Poll {
    p.(stage := if |p.rows| + 1 == |FAMILIES| then Answered else Working, rows := p.rows + [row])
  }

  /** The next await of a poll. */
  function PollTurn(w: World, who: nat, ttl: nat): World
    requires who in w.polls
  {
    var p := w.polls[who];
    match p.stage
    case Listing => w.(polls := w.polls[who := p.(stage := Working, listed := w.store)])
    case Working =>
      if |p.rows| >= |FAMILIES| then w
      else
        var (service, kinds) := FAMILIES[|p.rows|];
        var chosen := Chosen(p.listed, kinds);
        if chosen.None? then w.(polls := w.polls[who := Push(p, Row(service, NotConfigured, p.at, Nowhere))])
        else
          var c := chosen.value;
          if Fresh(c, p.at, ttl) then
            w.(polls := w.polls[who := Push(p, Row(service, StateOf(c.testOk.value), c.testedAt.value, Listed(c.id)))])
          else if c.id in w.inFlight then w.(polls := w.polls[who := p.(stage := Waiting(w.inFlight[c.id], VerdictOf(w.probes, w.inFlight[c.id])))])
          else
            w.(inFlight := w.inFlight[c.id := |w.probes|],
               probes := w.probes + [Probe(c.id, w.clock, Pending)],
               polls := w.polls[who := p.(stage := Waiting(|w.probes|, None))])
    case Waiting(probe, reached) =>
      if probe >= |w.probes| || |p.rows| >= |FAMILIES| || Running(w.probes[probe].outcome) then w
      else if w.probes[probe].outcome.Settled? then
        var outcome := w.probes[probe].outcome;
        w.(polls := w.polls[who := Push(p, Row(FAMILIES[|p.rows|].0, StateOf(outcome.ok), outcome.at, Probed(probe, reached)))])
      else w.(polls := w.polls[who := p.(stage := Threw)])
    case _ => w
  }

  /** `recordTest`: the row that has the connection's id, if it is still there. */
  function Tested(store: seq<Conn>, id: nat, at: int, ok: bool): (r: seq<Conn>)
    ensures |r| == |store|
    ensures forall i | 0 <= i < |store| :: r[i] == if store[i].id == id then store[i].(testedAt := Some(at), testOk := Some(ok)) else store[i]
  {
    seq(|store|, i requires 0 <= i < |store| => if store[i].id == id then store[i].(testedAt := Some(at), testOk := Some(ok)) else store[i])
  }

  /** A probe ends, well or not, and leaves the in-flight map. */
  function EndProbe(w: World, probe: nat, outcome: Outcome): World
    requires probe < |w.probes|
  {
    w.(probes := w.probes[probe := w.probes[probe].(outcome := outcome)], inFlight := w.inFlight - {w.probes[probe].conn})
  }

  function Step(w: World, e: Event, ttl: nat): World {
    match e
    case Tick(ms) => w.(clock := w.clock + ms)
    case Open(who) => if who in w.polls then w else w.(polls := w.polls[who := Poll(w.clock, Listing, [], [])])
    case Turn(who) => if who in w.polls then PollTurn(w, who, ttl) else w
    case Reach(probe, ok) =>
      if probe >= |w.probes| || !w.probes[probe].outcome.Pending? then w
      else
        w.(probes := w.probes[probe := w.probes[probe].(outcome := Reached(ok, w.clock))],
           verdicts := w.verdicts + {Verdict(w.probes[probe].conn, w.clock, ok)})
    case Write(probe) =>
      if probe >= |w.probes| || !w.probes[probe].outcome.Reached? then w
      else w.(store := Tested(w.store, w.probes[probe].conn, w.probes[probe].outcome.at, w.probes[probe].outcome.ok))
    case Finish(probe) =>
      if probe >= |w.probes| || !w.probes[probe].outcome.Reached? then w
      else EndProbe(w, probe, Settled(w.probes[probe].outcome.ok, w.probes[probe].outcome.at, w.clock))
    case Break(probe) =>
      if probe >= |w.probes| || !w.probes[probe].outcome.Pending? then w else EndProbe(w, probe, Broke)
    case PanelTest(place, ok) =>
      if place >= |w.store| then w
      else
        var id := w.store[place].id;
        w.(store := Tested(w.store, id, w.clock, ok), verdicts := w.verdicts + {Verdict(id, w.clock, ok)})
    case Replace(conns) =>
      if forall c | c in conns :: Truthful(w.verdicts, c) then w.(store := conns) else w
  }

  function Run(w: World, schedule: seq<Event>, ttl: nat): World
    decreases schedule
  {
    if schedule == [] then w else Run(Step(w, schedule[0], ttl), schedule[1..], ttl)
  }

  // -------------------------------------------------------------- invariants

  /** A row's remembered verdict is one that was reached. */
  predicate Truthful(verdicts: set<Verdict>, c: Conn) {
    c.testedAt.Some? && c.testOk.Some? ==> Verdict(c.id, c.testedAt.value, c.testOk.value) in verdicts
  }

  /** The in-flight map holds exactly the running probes, under their connections. */
  ghost predicate SingleFlight(inFlight: map<nat, nat>, probes: seq<Probe>) {
    && (forall id | id in inFlight :: inFlight[id] < |probes| && probes[inFlight[id]].conn == id && Running(probes[inFlight[id]].outcome))
    && (forall p | 0 <= p < |probes| && Running(probes[p].outcome) :: probes[p].conn in inFlight && inFlight[probes[p].conn] == p)
  }

  predicate ProbeInv(clock: int, verdicts: set<Verdict>, p: Probe) {
    && p.startedAt <= clock
    && (p.outcome.Reached? || p.outcome.Settled? ==>
          p.startedAt <= p.outcome.at <= clock && Verdict(p.conn, p.outcome.at, p.outcome.ok) in verdicts)
  }

  ghost predicate ProbesInv(clock: int, verdicts: set<Verdict>, probes: seq<Probe>) {
    forall p | 0 <= p < |probes| :: ProbeInv(clock, verdicts, probes[p])
  }

  ghost predicate AllTruthful(verdicts: set<Verdict>, conns: seq<Conn>) {
    forall c | c in conns :: Truthful(verdicts, c)
  }

  /** What a poll begun at `at` knows of a probe it joined. */
  predicate Joined(probes: seq<Probe>, at: int, probe: nat, reached: Option<int>) {
    && probe < |probes|
    && var o := probes[probe].outcome;
    && (reached.None? && (o.Reached? || o.Settled?) ==> o.at >= at)
    && (reached.Some? ==> (o.Reached? || o.Settled?) && o.at == reached.value)
    && (o.Settled? ==> o.doneAt >= at)
  }

  /** A row of a poll begun at `at`: its verdict was reached then and there, and from where it was taken. */
  predicate RowInv(verdicts: set<Verdict>, probes: seq<Probe>, at: int, ttl: nat, row: Row) {
    match row.source
    case Nowhere => row.state.NotConfigured? && row.checkedAt == at
    case Listed(conn) => !row.state.NotConfigured? && Verdict(conn, row.checkedAt, row.state.Healthy?) in verdicts && at - row.checkedAt <= ttl
    case Probed(probe, reached) =>
      && Joined(probes, at, probe, reached)
      && probes[probe].outcome.Settled? && row.checkedAt == probes[probe].outcome.at && row.state == StateOf(probes[probe].outcome.ok)
      && Verdict(probes[probe].conn, row.checkedAt, row.state.Healthy?) in verdicts
  }

  ghost predicate PollInv(clock: int, verdicts: set<Verdict>, probes: seq<Probe>, p: Poll, ttl: nat) {
    && p.at <= clock && |p.rows| <= |FAMILIES|
    && (p.stage.Answered? ==> |p.rows| == |FAMILIES|)
    && AllTruthful(verdicts, p.listed)
    && (forall i | 0 <= i < |p.rows| :: p.rows[i].service == FAMILIES[i].0 && RowInv(verdicts, probes, p.at, ttl, p.rows[i]))
    && (p.stage.Waiting? ==> |p.rows| < |FAMILIES| && Joined(probes, p.at, p.stage.probe, p.stage.reached))
  }

  ghost predicate PollsInv(clock: int, verdicts: set<Verdict>, probes: seq<Probe>, polls: map<nat, Poll>, ttl: nat) {
    forall who | who in polls :: PollInv(clock, verdicts, probes, polls[who], ttl)
  }

  ghost predicate Inv(w: World, ttl: nat) {
    && SingleFlight(w.inFlight, w.probes)
    && ProbesInv(w.clock, w.verdicts, w.probes)
    && AllTruthful(w.verdicts, w.store)
    && PollsInv(w.clock, w.verdicts, w.probes, w.polls, ttl)
  }

  /** How a probe can go on after `clock`. */
  predicate GoesOn(clock: int, p: Probe, q: Probe) {
    && q.conn == p.conn && q.startedAt == p.startedAt
    && match p.outcome
       case Pending => q.outcome.Pending? || q.outcome.Broke? || (q.outcome.Reached? && q.outcome.at >= clock)
       case Reached(ok, at) => q.outcome == p.outcome || (q.outcome.Settled? && q.outcome.ok == ok && q.outcome.at == at && q.outcome.doneAt >= clock)
       case _ => q == p
  }

  ghost predicate Later(clock: int, probes: seq<Probe>, later: seq<Probe>) {
    |probes| <= |later| && forall p | 0 <= p < |probes| :: GoesOn(clock, probes[p], later[p])
  }

  lemma LaterKeepsPoll(clock: int, next: int, verdicts: set<Verdict>, more: set<Verdict>, probes: seq<Probe>, later: seq<Probe>, p: Poll, ttl: nat)
    requires clock <= next && verdicts <= more && Later(clock, probes, later) && PollInv(clock, verdicts, probes, p, ttl)
    ensures PollInv(next, more, later, p, ttl)
  {
    if p.stage.Waiting? {
      assert GoesOn(clock, probes[p.stage.probe], later[p.stage.probe]);
    }
    forall i | 0 <= i < |p.rows| ensures RowInv(more, later, p.at, ttl, p.rows[i]) {
      assert RowInv(verdicts, probes, p.at, ttl, p.rows[i]);
      if p.rows[i].source.Probed? {
        assert GoesOn(clock, probes[p.rows[i].source.probe], later[p.rows[i].source.probe]);
      }
    }
  }

  lemma LaterKeepsPolls(clock: int, next: int, verdicts: set<Verdict>, more: set<Verdict>, probes: seq<Probe>, later: seq<Probe>, polls: map<nat, Poll>, ttl: nat)
    requires clock <= next && verdicts <= more && Later(clock, probes, later) && PollsInv(clock, verdicts, probes, polls, ttl)
    ensures PollsInv(next, more, later, polls, ttl)
  {
    hide PollInv, Later;
    forall who | who in polls ensures PollInv(next, more, later, polls[who], ttl) {
      LaterKeepsPoll(clock, next, verdicts, more, probes, later, polls[who], ttl);
    }
  }

  lemma OnePollMoves(w: World, who: nat, p: Poll, ttl: nat)
    requires PollsInv(w.clock, w.verdicts, w.probes, w.polls, ttl) && PollInv(w.clock, w.verdicts, w.probes, p, ttl)
    ensures PollsInv(w.clock, w.verdicts, w.probes, w.polls[who := p], ttl)
  {
    hide PollInv;
  }

  /** A working poll starts a probe exactly when its own listing is stale and none is running for the connection. */
  lemma DialsExactlyWhen(w: World, who: nat, ttl: nat)
    requires who in w.polls && w.polls[who].stage.Working? && |w.polls[who].rows| < |FAMILIES|
    ensures var p, next := w.polls[who], Step(w, Turn(who), ttl);
            var chosen := Chosen(p.listed, FAMILIES[|p.rows|].1);
            && (|next.probes| != |w.probes| <==> chosen.Some? && !Fresh(chosen.value, p.at, ttl) && chosen.value.id !in w.inFlight)
            && (chosen.Some? && Fresh(chosen.value, p.at, ttl) ==> next == w.(polls := next.polls))
            && (|next.probes| != |w.probes| ==> next.probes == w.probes + [Probe(chosen.value.id, w.clock, Pending)])
  {
    hide First;
  }

  // ------------------------------------------------------------- the steps

  /** Starting a probe: the poll `p` of connection `id` waits for it. */
  lemma DialKeepsInv(w: World, who: nat, p: Poll, id: nat, ttl: nat)
    requires Inv(w, ttl) && id !in w.inFlight && PollInv(w.clock, w.verdicts, w.probes, p, ttl) && p.stage.Working? && |p.rows| < |FAMILIES|
    ensures Inv(w.(inFlight := w.inFlight[id := |w.probes|], probes := w.probes + [Probe(id, w.clock, Pending)],
                   polls := w.polls[who := p.(stage := Waiting(|w.probes|, None))]), ttl)
  {
    var probes := w.probes + [Probe(id, w.clock, Pending)];
    LaterKeepsPolls(w.clock, w.clock, w.verdicts, w.verdicts, w.probes, probes, w.polls, ttl);
    LaterKeepsPoll(w.clock, w.clock, w.verdicts, w.verdicts, w.probes, probes, p, ttl);
    var waiting := p.(stage := Waiting(|w.probes|, None));
    assert PollInv(w.clock, w.verdicts, probes, waiting, ttl);
    OnePollMoves(w.(probes := probes), who, waiting, ttl);
    hide PollInv, PollsInv, Truthful;
    forall q | 0 <= q < |probes| ensures ProbeInv(w.clock, w.verdicts, probes[q]) {
      assert q < |w.probes| ==> ProbeInv(w.clock, w.verdicts, w.probes[q]);
    }
    FlightOfOneMore(w.inFlight, w.probes, Probe(id, w.clock, Pending));
  }

  lemma FlightOfOneMore(inFlight: map<nat, nat>, probes: seq<Probe>, p: Probe)
    requires SingleFlight(inFlight, probes) && p.conn !in inFlight && Running(p.outcome)
    ensures SingleFlight(inFlight[p.conn := |probes|], probes + [p])
  {
  }

  /** A poll moves and nothing else does. */
  lemma MoveKeepsInv(w: World, who: nat, p: Poll, ttl: nat)
    requires Inv(w, ttl) && PollInv(w.clock, w.verdicts, w.probes, p, ttl)
    ensures Inv(w.(polls := w.polls[who := p]), ttl)
  {
    hide SingleFlight, ProbesInv, AllTruthful, PollInv, PollsInv;
    OnePollMoves(w, who, p, ttl);
  }

  lemma RowPushed(w: World, p: Poll, row: Row, ttl: nat)
    requires PollInv(w.clock, w.verdicts, w.probes, p, ttl) && |p.rows| < |FAMILIES|
    requires row.service == FAMILIES[|p.rows|].0 && RowInv(w.verdicts, w.probes, p.at, ttl, row)
    ensures PollInv(w.clock, w.verdicts, w.probes, Push(p, row), ttl)
  {
    hide RowInv, AllTruthful, Joined;
  }

  lemma TurnKeepsInv(w: World, who: nat, ttl: nat)
    requires Inv(w, ttl) && who in w.polls
    ensures Inv(PollTurn(w, who, ttl), ttl)
  {
    var p := w.polls[who];
    assert PollInv(w.clock, w.verdicts, w.probes, p, ttl);
    match p.stage {
      case Listing =>
        hide SingleFlight, ProbesInv, PollsInv, First, Chosen;
        MoveKeepsInv(w, who, p.(stage := Working, listed := w.store), ttl);
      case Working =>
        hide SingleFlight, ProbesInv, PollsInv, PollInv, First;
        if |p.rows| < |FAMILIES| {
          WorkKeepsInv(w, who, ttl);
        }
      case Waiting(probe, reached) =>
        hide SingleFlight, PollsInv, First, Chosen;
        if w.probes[probe].outcome.Settled? {
          assert ProbeInv(w.clock, w.verdicts, w.probes[probe]);
          var row := Row(FAMILIES[|p.rows|].0, StateOf(w.probes[probe].outcome.ok), w.probes[probe].outcome.at, Probed(probe, reached));
          RowPushed(w, p, row, ttl);
          MoveKeepsInv(w, who, Push(p, row), ttl);
        } else if w.probes[probe].outcome.Broke? {
          MoveKeepsInv(w, who, p.(stage := Threw), ttl);
        }
      case _ =>
    }
  }

  lemma WorkKeepsInv(w: World, who: nat, ttl: nat)
    requires Inv(w, ttl) && who in w.polls && w.polls[who].stage.Working? && |w.polls[who].rows| < |FAMILIES|
    ensures Inv(PollTurn(w, who, ttl), ttl)
  {
    var p := w.polls[who];
    assert PollInv(w.clock, w.verdicts, w.probes, p, ttl);
    var (service, kinds) := FAMILIES[|p.rows|];
    var chosen := Chosen(p.listed, kinds);
    hide First, Chosen, PollsInv;
    if chosen.None? {
      RowPushed(w, p, Row(service, NotConfigured, p.at, Nowhere), ttl);
      MoveKeepsInv(w, who, Push(p, Row(service, NotConfigured, p.at, Nowhere)), ttl);
    } else {
      var c := chosen.value;
      assert Truthful(w.verdicts, c);
      if Fresh(c, p.at, ttl) {
        var row := Row(service, StateOf(c.testOk.value), c.testedAt.value, Listed(c.id));
        RowPushed(w, p, row, ttl);
        MoveKeepsInv(w, who, Push(p, row), ttl);
      } else if c.id in w.inFlight {
        MoveKeepsInv(w, who, p.(stage := Waiting(w.inFlight[c.id], VerdictOf(w.probes, w.inFlight[c.id]))), ttl);
      } else {
        DialKeepsInv(w, who, p, c.id, ttl);
      }
    }
  }

  /** A probe goes on, in the map while it runs and out of it when it ends. */
  lemma ProbeStepKeepsInv(w: World, probe: nat, outcome: Outcome, next: World, ttl: nat)
    requires Inv(w, ttl) && probe < |w.probes| && Running(w.probes[probe].outcome)
    requires w.verdicts <= next.verdicts && AllTruthful(next.verdicts, next.store)
    requires GoesOn(w.clock, w.probes[probe], w.probes[probe].(outcome := outcome))
    requires ProbeInv(w.clock, next.verdicts, w.probes[probe].(outcome := outcome))
    requires next.probes == w.probes[probe := w.probes[probe].(outcome := outcome)] && next.polls == w.polls && next.clock == w.clock
    requires next.inFlight == if Running(outcome) then w.inFlight else w.inFlight - {w.probes[probe].conn}
    ensures Inv(next, ttl)
  {
    LaterKeepsPolls(w.clock, w.clock, w.verdicts, next.verdicts, w.probes, next.probes, w.polls, ttl);
    hide PollsInv, AllTruthful, GoesOn;
    forall q | 0 <= q < |next.probes| ensures ProbeInv(next.clock, next.verdicts, next.probes[q]) {
      assert ProbeInv(w.clock, w.verdicts, w.probes[q]);
    }
    hide ProbeInv;
    assert SingleFlight(next.inFlight, next.probes);
  }

  lemma TestedIsTruthful(store: seq<Conn>, id: nat, at: int, ok: bool, verdicts: set<Verdict>)
    requires AllTruthful(verdicts, store)
    ensures AllTruthful(verdicts + {Verdict(id, at, ok)}, Tested(store, id, at, ok))
  {
    var r := Tested(store, id, at, ok);
    forall c | c in r ensures Truthful(verdicts + {Verdict(id, at, ok)}, c) {
      var i :| 0 <= i < |r| && r[i] == c;
      assert store[i] in store;
    }
  }

  /** The store or the clock moves, and nothing else. */
  lemma OutsideKeepsInv(w: World, next: World, ttl: nat)
    requires Inv(w, ttl) && w.clock <= next.clock && w.verdicts <= next.verdicts && AllTruthful(next.verdicts, next.store)
    requires next.probes == w.probes && next.inFlight == w.inFlight && next.polls == w.polls
    ensures Inv(next, ttl)
  {
    assert Later(w.clock, w.probes, w.probes);
    LaterKeepsPolls(w.clock, next.clock, w.verdicts, next.verdicts, w.probes, w.probes, w.polls, ttl);
    hide PollsInv, SingleFlight, AllTruthful, Later;
    forall q | 0 <= q < |w.probes| ensures ProbeInv(next.clock, next.verdicts, w.probes[q]) {
      assert ProbeInv(w.clock, w.verdicts, w.probes[q]);
    }
  }

  lemma StepKeepsInv(w: World, e: Event, ttl: nat)
    requires Inv(w, ttl)
    ensures Inv(Step(w, e, ttl), ttl)
  {
    hide SingleFlight, PollsInv;
    var next := Step(w, e, ttl);
    match e {
      case Turn(who) =>
        hide ProbesInv, AllTruthful, PollTurn;
        if who in w.polls {
          TurnKeepsInv(w, who, ttl);
        }
      case Open(who) =>
        hide ProbesInv;
        if who !in w.polls {
          MoveKeepsInv(w, who, Poll(w.clock, Listing, [], []), ttl);
        }
      case Reach(probe, ok) =>
        if next != w {
          assert ProbeInv(w.clock, w.verdicts, w.probes[probe]);
          ProbeStepKeepsInv(w, probe, Reached(ok, w.clock), next, ttl);
        }
      case Write(probe) =>
        if next != w {
          assert ProbeInv(w.clock, w.verdicts, w.probes[probe]);
          var o := w.probes[probe].outcome;
          TestedIsTruthful(w.store, w.probes[probe].conn, o.at, o.ok, w.verdicts);
          assert w.verdicts + {Verdict(w.probes[probe].conn, o.at, o.ok)} == w.verdicts;
          OutsideKeepsInv(w, next, ttl);
        }
      case Finish(probe) =>
        if next != w {
          assert ProbeInv(w.clock, w.verdicts, w.probes[probe]);
          ProbeStepKeepsInv(w, probe, Settled(w.probes[probe].outcome.ok, w.probes[probe].outcome.at, w.clock), next, ttl);
        }
      case Break(probe) =>
        if next != w {
          assert ProbeInv(w.clock, w.verdicts, w.probes[probe]);
          ProbeStepKeepsInv(w, probe, Broke, next, ttl);
        }
      case PanelTest(place, ok) =>
        if place < |w.store| {
          TestedIsTruthful(w.store, w.store[place].id, w.clock, ok, w.verdicts);
          OutsideKeepsInv(w, next, ttl);
        }
      case Tick(_) => OutsideKeepsInv(w, next, ttl);
      case Replace(_) => OutsideKeepsInv(w, next, ttl);
    }
  }

  lemma {:induction false} RunKeepsInv(w: World, schedule: seq<Event>, ttl: nat)
    requires Inv(w, ttl)
    ensures Inv(Run(w, schedule, ttl), ttl)
    decreases schedule
  {
    if schedule != [] {
      hide Inv, Step;
      StepKeepsInv(w, schedule[0], ttl);
      RunKeepsInv(Step(w, schedule[0], ttl), schedule[1..], ttl);
    }
  }

  // ------------------------------------------------------------ main results

  /** A process that has just come up over a store whose verdicts were all reached. */
  ghost predicate CameUp(w: World) {
    w.inFlight == map[] && w.probes == [] && w.polls == map[] && AllTruthful(w.verdicts, w.store)
  }

  lemma CameUpHolds(w: World, ttl: nat)
    requires CameUp(w)
    ensures Inv(w, ttl)
  {
  }

  /**
   * At every point of every run: at most one probe per connection is running, and
   * a connection is in the in-flight map exactly while its probe is, whether
   * probes end well or break.
   */
  lemma OneProbePerConnection(w: World, schedule: seq<Event>, ttl: nat)
    requires CameUp(w)
    ensures var end := Run(w, schedule, ttl);
            && (forall p, q | 0 <= p < |end.probes| && 0 <= q < |end.probes| && Running(end.probes[p].outcome) && Running(end.probes[q].outcome)
                              && end.probes[p].conn == end.probes[q].conn :: p == q)
            && (forall id :: id in end.inFlight <==> exists p :: 0 <= p < |end.probes| && end.probes[p].conn == id && Running(end.probes[p].outcome))
  {
    CameUpHolds(w, ttl);
    hide Step, PollsInv, ProbesInv, Running;
    RunKeepsInv(w, schedule, ttl);
    hide Run;
    var end := Run(w, schedule, ttl);
    forall id ensures id in end.inFlight <==> exists p :: 0 <= p < |end.probes| && end.probes[p].conn == id && Running(end.probes[p].outcome) {
      if id in end.inFlight {
        assert end.probes[end.inFlight[id]].conn == id;
      }
    }
  }

  /** The row is older than the time to live allows for a poll begun at `at`. */
  predicate TooOld(at: int, ttl: nat, row: Row) {
    at - row.checkedAt > ttl
  }

  /**
   * An answered poll has one row per family, in order. A row is older than the
   * time to live exactly when the poll joined a probe that had reached its verdict
   * that long before the poll began and was still waiting for its write.
   */
  lemma RowsAreDated(w: World, schedule: seq<Event>, ttl: nat, who: nat)
    requires CameUp(w)
    requires var end := Run(w, schedule, ttl); who in end.polls && end.polls[who].stage.Answered?
    ensures var end := Run(w, schedule, ttl);
            var p := end.polls[who];
            && |p.rows| == |FAMILIES|
            && forall i | 0 <= i < |p.rows| ::
                 && p.rows[i].service == FAMILIES[i].0 && RowInv(end.verdicts, end.probes, p.at, ttl, p.rows[i])
                 && (TooOld(p.at, ttl, p.rows[i]) <==>
                       p.rows[i].source.Probed? && p.rows[i].source.reached.Some? && p.at - p.rows[i].source.reached.value > ttl)
  {
    CameUpHolds(w, ttl);
    RunKeepsInv(w, schedule, ttl);
    var end := Run(w, schedule, ttl);
    hide Step, SingleFlight, ProbesInv, Run, AllTruthful;
    assert PollInv(end.clock, end.verdicts, end.probes, end.polls[who], ttl);
  }

  /** So where every write finishes within the time to live of its verdict, no row is ever too old. */
  lemma PromptWritesKeepTheBound(w: World, schedule: seq<Event>, ttl: nat, who: nat)
    requires CameUp(w)
    requires var end := Run(w, schedule, ttl);
             && who in end.polls
             && forall p | p in end.probes && p.outcome.Settled? :: p.outcome.doneAt - p.outcome.at <= ttl
    ensures var end := Run(w, schedule, ttl); forall row | row in end.polls[who].rows :: !TooOld(end.polls[who].at, ttl, row)
  {
    CameUpHolds(w, ttl);
    RunKeepsInv(w, schedule, ttl);
    var end := Run(w, schedule, ttl);
    hide Step, SingleFlight, ProbesInv, Run, AllTruthful;
    var p := end.polls[who];
    assert PollInv(end.clock, end.verdicts, end.probes, p, ttl);
    forall row | row in p.rows ensures !TooOld(p.at, ttl, row) {
      var i :| 0 <= i < |p.rows| && p.rows[i] == row;
      assert RowInv(end.verdicts, end.probes, p.at, ttl, p.rows[i]);
      assert row.source.Probed? ==> end.probes[row.source.probe] in end.probes;
    }
  }

  // ------------------------------------------------------------- a slow write

  const UNTESTED: Conn := Conn(1, "openrouter", true, true, None, None)
  const FRESHLY_UP: World := World(0, [UNTESTED], map[], [], map[], {})

  /** A poll dials, and the test ends at once. */
  const TESTED_AT_ONCE: seq<Event> := [Open(0), Turn(0), Turn(0), Reach(0, true)]

  /** Too late for its time to live another poll comes, and only then the write finishes. */
  function JoinedLate(ttl: nat): seq<Event> {
    [Tick(ttl + 1), Open(1), Turn(1), Turn(1)] + [Finish(0), Turn(1)]
  }

  lemma RunFour(w: World, a: Event, b: Event, c: Event, d: Event, rest: seq<Event>, ttl: nat)
    ensures Run(w, [a, b, c, d] + rest, ttl) == Run(Step(Step(Step(Step(w, a, ttl), b, ttl), c, ttl), d, ttl), rest, ttl)
  {
    hide Step;
    var all := [a, b, c, d] + rest;
    assert all[1..] == [b, c, d] + rest && ([b, c, d] + rest)[1..] == [c, d] + rest;
    assert ([c, d] + rest)[1..] == [d] + rest && ([d] + rest)[1..] == rest;
    var w1 := Step(w, a, ttl);
    var w2 := Step(w1, b, ttl);
    var w3 := Step(w2, c, ttl);
    assert Run(w, all, ttl) == Run(w1, [b, c, d] + rest, ttl) == Run(w2, [c, d] + rest, ttl) == Run(w3, [d] + rest, ttl);
  }

  lemma RunTwo(w: World, a: Event, b: Event, ttl: nat)
    ensures Run(w, [a, b], ttl) == Step(Step(w, a, ttl), b, ttl)
  {
    hide Step;
    assert [a, b][1..] == [b] && [b][1..] == [];
    assert Run(w, [a, b], ttl) == Run(Step(w, a, ttl), [b], ttl) == Run(Step(Step(w, a, ttl), b, ttl), [], ttl);
  }

  lemma ChoosesTheOnlyOne()
    ensures Chosen([UNTESTED], FAMILIES[0].1) == Some(UNTESTED)
  {
    assert UNTESTED in [UNTESTED] && Candidate(UNTESTED, FAMILIES[0].1);
  }

  /** Whatever the time to live, a write that takes longer lets a poll show a verdict older than that. */
  lemma SlowWriteShowsAnOldVerdict(ttl: nat)
    ensures CameUp(FRESHLY_UP)
    ensures var end := Run(FRESHLY_UP, TESTED_AT_ONCE + JoinedLate(ttl), ttl);
            && 1 in end.polls && |end.polls[1].rows| == 1
            && end.polls[1].rows[0] == Row("llm", Healthy, 0, Probed(0, Some(0))) && TooOld(end.polls[1].at, ttl, end.polls[1].rows[0])
  {
    OnlyUntested();
    hide Step, Run, AllTruthful;
    RunFour(FRESHLY_UP, Open(0), Turn(0), Turn(0), Reach(0, true), JoinedLate(ttl), ttl);
    var tested := TestedAtOnce(ttl);
    RunFour(tested, Tick(ttl + 1), Open(1), Turn(1), Turn(1), [Finish(0), Turn(1)], ttl);
    var joined := Joins(tested, ttl);
    RunTwo(joined, Finish(0), Turn(1), ttl);
    Shows(joined, ttl);
  }

  lemma Shows(w: World, ttl: nat)
    requires w.probes == [Probe(1, 0, Reached(true, 0))] && 1 in w.polls && w.polls[1] == Poll(ttl + 1, Waiting(0, Some(0)), [UNTESTED], [])
    ensures var end := Step(Step(w, Finish(0), ttl), Turn(1), ttl);
            1 in end.polls && end.polls[1].at == ttl + 1 && end.polls[1].rows == [Row("llm", Healthy, 0, Probed(0, Some(0)))]
  {
    hide Chosen, First;
    assert Step(w, Finish(0), ttl).polls == w.polls;
  }

  lemma OnlyUntested()
    ensures AllTruthful({}, [UNTESTED])
  {
  }

  lemma TestedAtOnce(ttl: nat) returns (w: World)
    ensures w == Step(Step(Step(Step(FRESHLY_UP, Open(0), ttl), Turn(0), ttl), Turn(0), ttl), Reach(0, true), ttl)
    ensures w.clock == 0 && w.store == [UNTESTED] && w.inFlight == map[1 := 0] && w.probes == [Probe(1, 0, Reached(true, 0))] && 1 !in w.polls
  {
    ChoosesTheOnlyOne();
    hide Chosen, First;
    var w1 := Step(FRESHLY_UP, Open(0), ttl);
    var w2 := Step(w1, Turn(0), ttl);
    var w3 := Step(w2, Turn(0), ttl);
    assert w3.probes == [Probe(1, 0, Pending)];
    w := Step(w3, Reach(0, true), ttl);
  }

  lemma Joins(w: World, ttl: nat) returns (next: World)
    requires w.clock == 0 && w.store == [UNTESTED] && w.inFlight == map[1 := 0] && w.probes == [Probe(1, 0, Reached(true, 0))] && 1 !in w.polls
    ensures next == Step(Step(Step(Step(w, Tick(ttl + 1), ttl), Open(1), ttl), Turn(1), ttl), Turn(1), ttl)
    ensures next.probes == w.probes && 1 in next.polls && next.polls[1] == Poll(ttl + 1, Waiting(0, Some(0)), [UNTESTED], [])
  {
    ChoosesTheOnlyOne();
    hide Chosen, First;
    var w1 := Step(w, Tick(ttl + 1), ttl);
    var w2 := Step(w1, Open(1), ttl);
    var w3 := Step(w2, Turn(1), ttl);
    assert w3.polls[1] == Poll(ttl + 1, Working, [UNTESTED], []);
    next := Step(w3, Turn(1), ttl);
  }
}
