/**
 * Whose verdict a health row of apps/bff/src/connection-health.ts shows, and which
 * probes are started for it.
 */
module ConnectionHealthRows {
  import opened Wrappers
  import opened ConnectionHealth

  /** The world before step `n` of a schedule. */
  function Before(w: World, schedule: seq<Event>, n: nat, ttl: nat): World
    requires n <= |schedule|
  {
    Run(w, schedule[..n], ttl)
  }

  lemma {:induction false} RunOneMore(w: World, schedule: seq<Event>, e: Event, ttl: nat)
    ensures Run(w, schedule + [e], ttl) == Step(Run(w, schedule, ttl), e, ttl)
    decreases schedule
  {
    hide Step;
    if schedule == [] {
      assert schedule + [e] == [e] && [e][1..] == [];
    } else {
      assert (schedule + [e])[1..] == schedule[1..] + [e];
      RunOneMore(Step(w, schedule[0], ttl), schedule[1..], e, ttl);
    }
  }

  lemma NextWorld(w: World, schedule: seq<Event>, n: nat, ttl: nat)
    requires n < |schedule|
    ensures Before(w, schedule, n + 1, ttl) == Step(Before(w, schedule, n, ttl), schedule[n], ttl)
  {
    assert schedule[..n + 1] == schedule[..n] + [schedule[n]];
    RunOneMore(w, schedule[..n], schedule[n], ttl);
  }

  lemma FirstWorld(w: World, schedule: seq<Event>, ttl: nat)
    ensures Before(w, schedule, 0, ttl) == w
  {
    assert schedule[..0] == [];
  }

  // --------------------------------------------------------- each its own row

  /** The connection that stands for family `i` in this poll. */
  function ChosenFor(p: Poll, i: nat): Option<Conn>
    requires i < |FAMILIES|
  {
    Chosen(p.listed, FAMILIES[i].1)
  }

  /** An enabled connection of one of these kinds. */
  predicate Serves(c: Conn, kinds: set<string>) {
    c.enabled && c.kind in kinds
  }

  /** `listed[k]` stands for its family: the first default of it, or the first of all where none is a default. */
  predicate StandsFor(listed: seq<Conn>, kinds: set<string>, k: nat)
    requires k < |listed|
  {
    && Serves(listed[k], kinds)
    && if listed[k].isDefault then forall j | 0 <= j < k :: !(Serves(listed[j], kinds) && listed[j].isDefault)
       else (forall c | c in listed && Serves(c, kinds) :: !c.isDefault) && forall j | 0 <= j < k :: !Serves(listed[j], kinds)
  }

  /** Its last verdict is missing, or older than the time to live. */
  predicate Outdated(c: Conn, at: int, ttl: nat) {
    c.testedAt.None? || c.testOk.None? || at - c.testedAt.value > ttl
  }

  lemma FreshIs(c: Conn, at: int, ttl: nat)
    ensures Fresh(c, at, ttl) <==> !Outdated(c, at, ttl)
  {
  }

  lemma {:induction false} FirstIs(listed: seq<Conn>, kinds: set<string>, defaultOnly: bool)
    ensures var r := First(listed, kinds, defaultOnly);
            r.Some? ==> exists k :: 0 <= k < |listed| && listed[k] == r.value && Serves(r.value, kinds) && (defaultOnly ==> r.value.isDefault)
                                    && forall j | 0 <= j < k :: !(Serves(listed[j], kinds) && (defaultOnly ==> listed[j].isDefault))
  {
    if listed != [] && !(Candidate(listed[0], kinds) && (!defaultOnly || listed[0].isDefault)) {
      FirstIs(listed[1..], kinds, defaultOnly);
      var r := First(listed[1..], kinds, defaultOnly);
      if r.Some? {
        var k :| 0 <= k < |listed| - 1 && listed[1..][k] == r.value && Serves(r.value, kinds) && (defaultOnly ==> r.value.isDefault)
                 && forall j | 0 <= j < k :: !(Serves(listed[1..][j], kinds) && (defaultOnly ==> listed[1..][j].isDefault));
        assert listed[k + 1] == r.value;
        forall j | 0 <= j < k + 1 ensures !(Serves(listed[j], kinds) && (defaultOnly ==> listed[j].isDefault)) {
          assert j > 0 ==> listed[j] == listed[1..][j - 1];
        }
      }
    }
  }

  lemma ChosenStandsFor(listed: seq<Conn>, kinds: set<string>)
    ensures var chosen := Chosen(listed, kinds);
            && (chosen.Some? ==> exists k :: 0 <= k < |listed| && listed[k] == chosen.value && StandsFor(listed, kinds, k))
            && (chosen.None? <==> forall c | c in listed :: !Serves(c, kinds))
  {
    FirstIs(listed, kinds, true);
    FirstIs(listed, kinds, false);
    hide First;
    var chosen := Chosen(listed, kinds);
    if chosen.Some? {
      var onlyDefault := First(listed, kinds, true).Some?;
      var k :| 0 <= k < |listed| && listed[k] == chosen.value && Serves(chosen.value, kinds) && (onlyDefault ==> chosen.value.isDefault)
               && forall j | 0 <= j < k :: !(Serves(listed[j], kinds) && (onlyDefault ==> listed[j].isDefault));
      assert StandsFor(listed, kinds, k);
    }
  }

  /** A probe is one of the connection that stands for the family, whose listed verdict is too old. */
  predicate OwnProbe(probes: seq<Probe>, p: Poll, i: nat, probe: nat, ttl: nat)
    requires i < |FAMILIES|
  {
    var chosen := ChosenFor(p, i);
    chosen.Some? && !Fresh(chosen.value, p.at, ttl) && probe < |probes| && probes[probe].conn == chosen.value.id
  }

  predicate OwnRow(probes: seq<Probe>, p: Poll, i: nat, row: Row, ttl: nat)
    requires i < |FAMILIES|
  {
    var chosen := ChosenFor(p, i);
    match row.source
    case Nowhere => chosen.None? && row.checkedAt == p.at
    case Listed(conn) =>
      && chosen.Some? && Fresh(chosen.value, p.at, ttl) && conn == chosen.value.id
      && row.checkedAt == chosen.value.testedAt.value && row.state == StateOf(chosen.value.testOk.value)
    case Probed(probe, _) => OwnProbe(probes, p, i, probe, ttl)
  }

  ghost predicate OwnRows(probes: seq<Probe>, p: Poll, ttl: nat) {
    && |p.rows| <= |FAMILIES| && (|p.rows| == |FAMILIES| <==> p.stage.Answered?)
    && (p.stage.Listing? ==> p.rows == [])
    && (forall i | 0 <= i < |p.rows| :: OwnRow(probes, p, i, p.rows[i], ttl))
    && (p.stage.Waiting? ==> |p.rows| < |FAMILIES| && OwnProbe(probes, p, |p.rows|, p.stage.probe, ttl))
  }

  /** Probes keep their connections. */
  predicate SameConns(probes: seq<Probe>, later: seq<Probe>) {
    |probes| <= |later| && forall k | 0 <= k < |probes| :: later[k].conn == probes[k].conn
  }

  lemma OwnRowsStay(probes: seq<Probe>, later: seq<Probe>, p: Poll, ttl: nat)
    requires SameConns(probes, later) && OwnRows(probes, p, ttl)
    ensures OwnRows(later, p, ttl)
  {
    hide ChosenFor, Fresh;
    forall i | 0 <= i < |p.rows| ensures OwnRow(later, p, i, p.rows[i], ttl) {
      assert OwnRow(probes, p, i, p.rows[i], ttl);
    }
  }

  lemma StepKeepsConns(w: World, e: Event, ttl: nat)
    ensures SameConns(w.probes, Step(w, e, ttl).probes)
  {
    hide Chosen, First, Fresh, Tested;
  }

  /** Pushing a row, or moving on, keeps what the poll has. */
  lemma RowPushed(probes: seq<Probe>, p: Poll, row: Row, ttl: nat)
    requires OwnRows(probes, p, ttl) && |p.rows| < |FAMILIES| && !p.stage.Answered? && OwnRow(probes, p, |p.rows|, row, ttl)
    ensures OwnRows(probes, Push(p, row), ttl)
  {
    hide Chosen, Fresh, OwnProbe;
    var next := Push(p, row);
    assert next.rows == p.rows + [row];
    forall i | 0 <= i < |next.rows| ensures OwnRow(probes, next, i, next.rows[i], ttl) {
      SameFamily(probes, p, next, i, next.rows[i], ttl);
      assert i < |p.rows| ==> OwnRow(probes, p, i, p.rows[i], ttl);
    }
  }

  lemma SameFamily(probes: seq<Probe>, p: Poll, q: Poll, i: nat, row: Row, ttl: nat)
    requires i < |FAMILIES| && p.at == q.at && p.listed == q.listed
    ensures OwnRow(probes, p, i, row, ttl) == OwnRow(probes, q, i, row, ttl)
  {
    hide Chosen, Fresh;
  }

  lemma StageMoves(probes: seq<Probe>, p: Poll, stage: Stage, ttl: nat)
    requires OwnRows(probes, p, ttl) && !stage.Listing? && !stage.Answered? && |p.rows| < |FAMILIES|
    requires stage.Waiting? ==> |p.rows| < |FAMILIES| && OwnProbe(probes, p, |p.rows|, stage.probe, ttl)
    ensures OwnRows(probes, p.(stage := stage), ttl)
  {
    hide Chosen, Fresh, OwnProbe;
    var next := p.(stage := stage);
    forall i | 0 <= i < |p.rows| ensures OwnRow(probes, next, i, p.rows[i], ttl) {
      SameFamily(probes, p, next, i, p.rows[i], ttl);
      assert OwnRow(probes, p, i, p.rows[i], ttl);
    }
    assert stage.Waiting? ==> OwnProbe(probes, next, |p.rows|, stage.probe, ttl) by {
      if stage.Waiting? {
        SameFamily(probes, p, next, |p.rows|, Row("", Down, 0, Probed(stage.probe, None)), ttl);
      }
    }
  }

  lemma TurnKeepsOwn(w: World, who: nat, ttl: nat)
    requires who in w.polls && SingleFlight(w.inFlight, w.probes) && OwnRows(w.probes, w.polls[who], ttl)
    ensures var next := PollTurn(w, who, ttl); who in next.polls && OwnRows(next.probes, next.polls[who], ttl)
  {
    var p, next := w.polls[who], PollTurn(w, who, ttl);
    match p.stage {
      case Listing =>
        hide Chosen, Fresh;
      case Working =>
        if |p.rows| < |FAMILIES| {
          WorkKeepsOwn(w, who, ttl);
        }
      case Waiting(probe, reached) =>
        hide Chosen, Fresh;
        assert |p.rows| < |FAMILIES| && OwnProbe(w.probes, p, |p.rows|, probe, ttl);
        hide OwnRows;
        if w.probes[probe].outcome.Settled? {
          var o := w.probes[probe].outcome;
          RowPushed(w.probes, p, Row(FAMILIES[|p.rows|].0, StateOf(o.ok), o.at, Probed(probe, reached)), ttl);
        } else if w.probes[probe].outcome.Broke? {
          StageMoves(w.probes, p, Threw, ttl);
        }
      case _ =>
    }
  }

  lemma WorkKeepsOwn(w: World, who: nat, ttl: nat)
    requires who in w.polls && SingleFlight(w.inFlight, w.probes) && OwnRows(w.probes, w.polls[who], ttl)
    requires w.polls[who].stage.Working? && |w.polls[who].rows| < |FAMILIES|
    ensures var next := PollTurn(w, who, ttl); who in next.polls && OwnRows(next.probes, next.polls[who], ttl)
  {
    hide OwnRows, First, Chosen;
    var p := w.polls[who];
    var i := |p.rows|;
    var (service, kinds) := FAMILIES[i];
    var chosen := ChosenFor(p, i);
    if chosen.None? {
      RowPushed(w.probes, p, Row(service, NotConfigured, p.at, Nowhere), ttl);
    } else if Fresh(chosen.value, p.at, ttl) {
      RowPushed(w.probes, p, Row(service, StateOf(chosen.value.testOk.value), chosen.value.testedAt.value, Listed(chosen.value.id)), ttl);
    } else if chosen.value.id in w.inFlight {
      StageMoves(w.probes, p, Waiting(w.inFlight[chosen.value.id], VerdictOf(w.probes, w.inFlight[chosen.value.id])), ttl);
    } else {
      var probes := w.probes + [Probe(chosen.value.id, w.clock, Pending)];
      OwnRowsStay(w.probes, probes, p, ttl);
      StageMoves(probes, p, Waiting(|w.probes|, None), ttl);
    }
  }

  ghost predicate AllOwn(w: World, ttl: nat) {
    forall who | who in w.polls :: OwnRows(w.probes, w.polls[who], ttl)
  }

  lemma StepKeepsOwn(w: World, e: Event, ttl: nat)
    requires SingleFlight(w.inFlight, w.probes) && AllOwn(w, ttl)
    ensures AllOwn(Step(w, e, ttl), ttl)
  {
    var next := Step(w, e, ttl);
    StepKeepsConns(w, e, ttl);
    forall who | who in next.polls ensures OwnRows(next.probes, next.polls[who], ttl) {
      if e == Turn(who) && who in w.polls {
        TurnKeepsOwn(w, who, ttl);
      } else if who in w.polls {
        OthersWait(w, e, who, ttl);
        OwnRowsStay(w.probes, next.probes, w.polls[who], ttl);
      }
    }
  }

  lemma OthersWait(w: World, e: Event, who: nat, ttl: nat)
    requires who in w.polls && e != Turn(who)
    ensures who in Step(w, e, ttl).polls && Step(w, e, ttl).polls[who] == w.polls[who]
  {
    hide Chosen, Fresh, Tested;
  }

  lemma {:induction false} RunKeepsOwn(w: World, schedule: seq<Event>, ttl: nat)
    requires Inv(w, ttl) && AllOwn(w, ttl)
    ensures AllOwn(Run(w, schedule, ttl), ttl)
    decreases schedule
  {
    if schedule != [] {
      StepKeepsInv(w, schedule[0], ttl);
      StepKeepsOwn(w, schedule[0], ttl);
      hide Inv, AllOwn, Step;
      RunKeepsOwn(Step(w, schedule[0], ttl), schedule[1..], ttl);
    }
  }

  /** The row shows how this probe of connection `id` ended. */
  predicate ShowsOutcome(row: Row, probe: Probe, id: nat) {
    && probe.conn == id && probe.outcome.Settled?
    && row.checkedAt == probe.outcome.at && row.state == StateOf(probe.outcome.ok)
  }

  /**
   * An answered poll has one row per family, in order, and each row speaks for the
   * connection that stands for its family in what the poll listed. It says "not
   * configured" exactly when the family has no enabled connection there. Otherwise
   * its verdict was reached for that very connection at the time shown: the listed
   * one where that is fresh, and else that of a probe of it. A row is older than
   * the time to live exactly when the poll joined a probe that had reached its
   * verdict that long before the poll began and was still waiting for its write.
   */
  lemma RowsAreTruthful(w: World, schedule: seq<Event>, ttl: nat, who: nat)
    requires CameUp(w)
    requires var end := Run(w, schedule, ttl); who in end.polls && end.polls[who].stage.Answered?
    ensures var end := Run(w, schedule, ttl);
            var p := end.polls[who];
            && |p.rows| == |FAMILIES|
            && forall i | 0 <= i < |p.rows| ::
                 var row, chosen := p.rows[i], ChosenFor(p, i);
                 && row.service == FAMILIES[i].0
                 && (row.state.NotConfigured? <==> forall c | c in p.listed :: !Serves(c, FAMILIES[i].1))
                 && (chosen.Some? ==> exists k :: 0 <= k < |p.listed| && p.listed[k] == chosen.value && StandsFor(p.listed, FAMILIES[i].1, k))
                 && (chosen.None? ==> row.state.NotConfigured? && row.checkedAt == p.at)
                 && (chosen.Some? ==> Verdict(chosen.value.id, row.checkedAt, row.state.Healthy?) in end.verdicts)
                 && (chosen.Some? && !Outdated(chosen.value, p.at, ttl) ==>
                       row.checkedAt == chosen.value.testedAt.value && row.state == StateOf(chosen.value.testOk.value))
                 && (chosen.Some? && Outdated(chosen.value, p.at, ttl) ==>
                       row.source.Probed? && row.source.probe < |end.probes| && ShowsOutcome(row, end.probes[row.source.probe], chosen.value.id))
                 && (TooOld(p.at, ttl, row) <==> row.source.Probed? && row.source.reached.Some? && p.at - row.source.reached.value > ttl)
  {
    CameUpHolds(w, ttl);
    RunKeepsOwn(w, schedule, ttl);
    RowsAreDated(w, schedule, ttl, who);
    hide Run, CameUp, First;
    var end := Run(w, schedule, ttl);
    var p := end.polls[who];
    forall i | 0 <= i < |p.rows|
      ensures var row, chosen := p.rows[i], ChosenFor(p, i);
              && (row.state.NotConfigured? <==> chosen.None?) && (chosen.None? ==> row.checkedAt == p.at)
              && (chosen.None? <==> forall c | c in p.listed :: !Serves(c, FAMILIES[i].1))
              && (chosen.Some? ==> exists k :: 0 <= k < |p.listed| && p.listed[k] == chosen.value && StandsFor(p.listed, FAMILIES[i].1, k))
              && (chosen.Some? ==> Verdict(chosen.value.id, row.checkedAt, row.state.Healthy?) in end.verdicts)
              && (chosen.Some? && !Outdated(chosen.value, p.at, ttl) ==>
                    row.checkedAt == chosen.value.testedAt.value && row.state == StateOf(chosen.value.testOk.value))
              && (chosen.Some? && Outdated(chosen.value, p.at, ttl) ==>
                    row.source.Probed? && row.source.probe < |end.probes| && ShowsOutcome(row, end.probes[row.source.probe], chosen.value.id))
    {
      assert OwnRow(end.probes, p, i, p.rows[i], ttl) && RowInv(end.verdicts, end.probes, p.at, ttl, p.rows[i]);
      ChosenStandsFor(p.listed, FAMILIES[i].1);
      if ChosenFor(p, i).Some? {
        FreshIs(ChosenFor(p, i).value, p.at, ttl);
      }
      hide Chosen, StandsFor, Fresh, Outdated;
    }
  }

  /** A poll answers exactly when it has a row for every family; until then it goes on, or it threw. */
  lemma AnswersWhenComplete(w: World, schedule: seq<Event>, ttl: nat, who: nat)
    requires CameUp(w) && who in Run(w, schedule, ttl).polls
    ensures var p := Run(w, schedule, ttl).polls[who]; p.stage.Answered? <==> |p.rows| == |FAMILIES|
  {
    CameUpHolds(w, ttl);
    RunKeepsOwn(w, schedule, ttl);
    hide Run;
    assert OwnRows(Run(w, schedule, ttl).probes, Run(w, schedule, ttl).polls[who], ttl);
  }

  /** What a poll listed is what the store held at one of its own turns. */
  lemma {:induction false} ListedFromTheStore(w: World, schedule: seq<Event>, n: nat, ttl: nat, who: nat) returns (m: nat)
    requires w.polls == map[] && n <= |schedule|
    requires who in Before(w, schedule, n, ttl).polls && !Before(w, schedule, n, ttl).polls[who].stage.Listing?
    ensures m < n && schedule[m] == Turn(who) && who in Before(w, schedule, m, ttl).polls && Before(w, schedule, m, ttl).polls[who].stage.Listing?
    ensures Before(w, schedule, n, ttl).polls[who].listed == Before(w, schedule, m, ttl).store
    ensures Before(w, schedule, n, ttl).polls[who].at == Before(w, schedule, m, ttl).polls[who].at
    decreases n
  {
    m := 0;
    FirstWorld(w, schedule, ttl);
    if n > 0 {
      NextWorld(w, schedule, n - 1, ttl);
      var was := Before(w, schedule, n - 1, ttl);
      StepLists(was, schedule[n - 1], who, ttl);
      hide Before, Step;
      if was.polls[who].stage.Listing? {
        m := n - 1;
      } else {
        m := ListedFromTheStore(w, schedule, n - 1, ttl, who);
      }
    }
  }

  lemma StepLists(w: World, e: Event, who: nat, ttl: nat)
    requires var next := Step(w, e, ttl); who in next.polls && !next.polls[who].stage.Listing?
    ensures who in w.polls
    ensures var p, q := w.polls[who], Step(w, e, ttl).polls[who];
            && q.at == p.at && (if p.stage.Listing? then e == Turn(who) && q.listed == w.store else q.listed == p.listed)
  {
    hide Chosen, Fresh, Tested;
  }

  // ------------------------------------------------------- which probes start

  /** A poll is at a family whose connection has only an old verdict listed, and no probe of that connection is running. */
  ghost predicate Needed(w: World, e: Event, ttl: nat) {
    && e.Turn? && e.who in w.polls && w.polls[e.who].stage.Working? && |w.polls[e.who].rows| < |FAMILIES|
    && var p := w.polls[e.who];
    var chosen := ChosenFor(p, |p.rows|);
    && chosen.Some? && Outdated(chosen.value, p.at, ttl)
    && forall q | q in w.probes && Running(q.outcome) :: q.conn != chosen.value.id
  }

  lemma StepDials(w: World, e: Event, ttl: nat)
    requires SingleFlight(w.inFlight, w.probes)
    ensures Needed(w, e, ttl) <==> |Step(w, e, ttl).probes| != |w.probes|
    ensures Needed(w, e, ttl) ==>
              var p := w.polls[e.who];
              |Step(w, e, ttl).probes| == |w.probes| + 1 && Step(w, e, ttl).probes[|w.probes|] == Probe(ChosenFor(p, |p.rows|).value.id, w.clock, Pending)
  {
    hide Chosen, Fresh, Tested, First;
    if e.Turn? && e.who in w.polls && w.polls[e.who].stage.Working? && |w.polls[e.who].rows| < |FAMILIES| {
      var p := w.polls[e.who];
      DialsExactlyWhen(w, e.who, ttl);
      var chosen := ChosenFor(p, |p.rows|);
      if chosen.Some? {
        FreshIs(chosen.value, p.at, ttl);
      }
      if chosen.Some? && chosen.value.id in w.inFlight {
        assert w.probes[w.inFlight[chosen.value.id]] in w.probes;
      }
    }
  }

  /**
   * On every run a step starts a probe exactly when it is needed: the poll's own
   * listing of the family's connection is too old and no probe of it is running.
   * And every probe there is was started by such a step, for that connection.
   */
  lemma ProbesStartExactlyWhenNeeded(w: World, schedule: seq<Event>, ttl: nat, n: nat)
    requires CameUp(w) && n < |schedule|
    ensures var was := Before(w, schedule, n, ttl); |Before(w, schedule, n + 1, ttl).probes| != |was.probes| <==> Needed(was, schedule[n], ttl)
  {
    CameUpHolds(w, ttl);
    RunKeepsInv(w, schedule[..n], ttl);
    NextWorld(w, schedule, n, ttl);
    StepDials(Before(w, schedule, n, ttl), schedule[n], ttl);
    hide Step, Needed, Run;
  }

  lemma {:induction false} EveryProbeWasNeeded(w: World, schedule: seq<Event>, ttl: nat, n: nat, k: nat) returns (m: nat)
    requires CameUp(w) && n <= |schedule| && k < |Before(w, schedule, n, ttl).probes|
    ensures m < n && Needed(Before(w, schedule, m, ttl), schedule[m], ttl)
    ensures var was := Before(w, schedule, m, ttl);
            var p := was.polls[schedule[m].who];
            |was.probes| == k && Before(w, schedule, n, ttl).probes[k].conn == ChosenFor(p, |p.rows|).value.id
    decreases n
  {
    m := 0;
    FirstWorld(w, schedule, ttl);
    if n > 0 {
      var was := Before(w, schedule, n - 1, ttl);
      CameUpHolds(w, ttl);
      RunKeepsInv(w, schedule[..n - 1], ttl);
      NextWorld(w, schedule, n - 1, ttl);
      StepDials(was, schedule[n - 1], ttl);
      StepKeepsConns(was, schedule[n - 1], ttl);
      hide Step, Needed, Run, Before, Inv;
      if k < |was.probes| {
        m := EveryProbeWasNeeded(w, schedule, ttl, n - 1, k);
      } else {
        m := n - 1;
      }
    }
  }
}
