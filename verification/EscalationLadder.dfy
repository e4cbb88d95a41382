/**
 * The escalation ladder as the screen shows it: `ladderView` in
 * apps/bff/src/notify-service.ts. Steps are sorted, resolved to channels through
 * the routing map, and rungs of one hour and kind are merged.
 */
module EscalationLadder {
  import opened Sequences

  /** A channel stands for its place in the order `sort` gives channel names. */
  type Channel = nat

  datatype LadderStep = LadderStep(event: string, delegates: bool, channel: Channel, afterHours: int)

  datatype Routing = Routing(byEvent: map<string, seq<Channel>>, fallback: seq<Channel>)

  datatype Kind = Delegate | Notify | Report

  datatype Rung = Rung(afterHours: int, channels: seq<Channel>, kind: Kind)

  // ---------------------------------------------------------- specification

  predicate Sooner(a: LadderStep, b: LadderStep) {
    a.afterHours <= b.afterHours
  }

  predicate AtMost(a: Channel, b: Channel) {
    a <= b
  }

  /** `[...new Set(s)]`: first occurrences, in order. */
  function Distinct(s: seq<Channel>): (r: seq<Channel>)
    ensures forall c :: c in r <==> c in s
  {
    if s == [] then []
    else
      var rest := Distinct(s[..|s| - 1]);
      if s[|s| - 1] in rest then rest else rest + [s[|s| - 1]]
  }

  /** `[...new Set(s)].sort()`. */
  function Tidied(s: seq<Channel>): seq<Channel> {
    Sort(Distinct(s), AtMost)
  }

  /** Where a step is delivered: what its event is routed to, and the channel it names. */
  function Destinations(step: LadderStep, routing: Routing): seq<Channel> {
    (if step.event in routing.byEvent then routing.byEvent[step.event] else routing.fallback) + [step.channel]
  }

  function KindOf(steps: seq<LadderStep>, i: nat): Kind
    requires i < |steps|
  {
    if steps[i].delegates then Delegate else if i == |steps| - 1 then Report else Notify
  }

  ghost predicate Increasing(s: seq<Channel>) {
    forall i, j | 0 <= i < j < |s| :: s[i] < s[j]
  }

  lemma {:induction false} CountsOfDistinct(s: seq<Channel>, c: Channel)
    ensures multiset(Distinct(s))[c] <= 1
  {
    if s != [] {
      CountsOfDistinct(s[..|s| - 1], c);
      var rest := Distinct(s[..|s| - 1]);
      assert c in multiset(rest) <==> c in rest;
    }
  }

  /** A tidied list is strictly increasing and holds exactly what was in the list. */
  lemma TidiedMeans(s: seq<Channel>)
    ensures Increasing(Tidied(s)) && forall c :: c in Tidied(s) <==> c in s
  {
    var d, r := Distinct(s), Tidied(s);
    SortSorts(d, AtMost);
    SortKeeps(d, AtMost);
    forall c ensures c in r <==> c in s {
      SortMember(d, AtMost, c);
    }
    forall i, j | 0 <= i < j < |r| ensures r[i] < r[j] {
      CountsOfDistinct(s, r[i]);
      if r[i] == r[j] {
        TwiceCounts(r, i, j);
      }
    }
  }

  lemma TwiceCounts(r: seq<Channel>, i: nat, j: nat)
    requires i < j < |r| && r[i] == r[j]
    ensures multiset(r)[r[i]] >= 2
  {
    assert r == r[..j] + [r[j]] + r[j + 1..];
    assert r[i] in r[..j] && r[i] in multiset(r[..j]);
  }

  /** A rung as `steps[i]` gives it, with its steps already in order. */
  function RungAt(steps: seq<LadderStep>, routing: Routing, i: nat): Rung
    requires i < |steps|
  {
    Rung(steps[i].afterHours, Tidied(Destinations(steps[i], routing)), KindOf(steps, i))
  }

  /** What the rows must say of the first `n` steps in order. */
  ghost predicate Shows(rows: seq<Rung>, steps: seq<LadderStep>, routing: Routing, n: nat)
    requires n <= |steps|
  {
    && (forall i, j | 0 <= i < j < |rows| :: rows[i].afterHours <= rows[j].afterHours && (rows[i].afterHours != rows[j].afterHours || rows[i].kind != rows[j].kind))
    && (forall i | 0 <= i < |rows| :: Increasing(rows[i].channels))
    && (forall i, c | 0 <= i < |rows| :: c in rows[i].channels <==> Delivers(steps, routing, n, rows[i].afterHours, rows[i].kind, c))
    && (forall k | 0 <= k < n :: HasRow(rows, steps[k].afterHours, KindOf(steps, k)))
    && (forall i | 0 <= i < |rows| :: rows[i].channels != [])
    && (forall i | 0 <= i < |rows| - 1 :: !rows[i].kind.Report?)
  }

  ghost predicate Delivers(steps: seq<LadderStep>, routing: Routing, n: nat, hours: int, kind: Kind, c: Channel)
    requires n <= |steps|
  {
    exists k :: 0 <= k < n && steps[k].afterHours == hours && KindOf(steps, k) == kind && c in Destinations(steps[k], routing)
  }

  predicate HasRow(rows: seq<Rung>, hours: int, kind: Kind) {
    exists r :: r in rows && r.afterHours == hours && r.kind == kind
  }

  // ---------------------------------------------------------------- the code

  method Find(rows: seq<Rung>, hours: int, kind: Kind) returns (at: nat)
    ensures at <= |rows|
    ensures at < |rows| ==> rows[at].afterHours == hours && rows[at].kind == kind
    ensures forall i | 0 <= i < at :: rows[i].afterHours != hours || rows[i].kind != kind
  {
    at := 0;
    while at < |rows| && !(rows[at].afterHours == hours && rows[at].kind == kind)
      invariant at <= |rows|
      invariant forall i | 0 <= i < at :: rows[i].afterHours != hours || rows[i].kind != kind
    {
      at := at + 1;
    }
  }

  /** The merge loop over the sorted steps. */
  method LadderView(ladder: seq<LadderStep>, routing: Routing) returns (merged: seq<Rung>)
    ensures Shows(merged, Sort(ladder, Sooner), routing, |ladder|)
  {
    hide Tidied, Destinations, Sort, KindOf;
    var steps := Sort(ladder, Sooner);
    StepsInOrder(ladder);
    merged := [];
    for i := 0 to |steps|
      invariant Shows(merged, steps, routing, i)
      invariant forall r | r in merged :: exists k :: 0 <= k < i && r.afterHours == steps[k].afterHours
    {
      hide Shows, HasRow, Delivers, Increasing;
      var rung := RungAt(steps, routing, i);
      var at := Find(merged, rung.afterHours, rung.kind);
      if at == |merged| {
        forall r | r in merged ensures r.afterHours <= rung.afterHours {}
        Pushed(merged, steps, routing, i);
        merged := merged + [rung];
      } else {
        Merged(merged, steps, routing, i, at);
        merged := merged[at := merged[at].(channels := Tidied(merged[at].channels + rung.channels))];
      }
    }
  }

  lemma StepsInOrder(ladder: seq<LadderStep>)
    ensures var steps := Sort(ladder, Sooner); |steps| == |ladder| && forall i, j | 0 <= i < j < |steps| :: steps[i].afterHours <= steps[j].afterHours
  {
    SortSorts(ladder, Sooner);
  }

  lemma DeliversOneMore(steps: seq<LadderStep>, routing: Routing, n: nat, hours: int, kind: Kind, c: Channel)
    requires n < |steps|
    ensures Delivers(steps, routing, n + 1, hours, kind, c) <==>
            Delivers(steps, routing, n, hours, kind, c) || (steps[n].afterHours == hours && KindOf(steps, n) == kind && c in Destinations(steps[n], routing))
  {
  }

  lemma RungShows(steps: seq<LadderStep>, routing: Routing, n: nat)
    requires n < |steps|
    ensures var rung := RungAt(steps, routing, n);
            Increasing(rung.channels) && rung.channels != [] && forall c :: c in rung.channels <==> c in Destinations(steps[n], routing)
  {
    var all := Destinations(steps[n], routing);
    TidiedMeans(all);
    assert all[|all| - 1] in all;
  }

  lemma Pushed(rows: seq<Rung>, steps: seq<LadderStep>, routing: Routing, n: nat)
    requires n < |steps| && Shows(rows, steps, routing, n)
    requires var rung := RungAt(steps, routing, n);
             forall i | 0 <= i < |rows| :: rows[i].afterHours <= rung.afterHours && (rows[i].afterHours != rung.afterHours || rows[i].kind != rung.kind)
    ensures Shows(rows + [RungAt(steps, routing, n)], steps, routing, n + 1)
  {
    NoReportYet(rows, steps, routing, n);
    hide Tidied, Destinations, KindOf, Increasing;
    var rung := RungAt(steps, routing, n);
    var all := rows + [rung];
    RungShows(steps, routing, n);
    NoRowNoDelivery(rows, steps, routing, n, rung.afterHours, rung.kind);
    forall i, c | 0 <= i < |all| ensures c in all[i].channels <==> Delivers(steps, routing, n + 1, all[i].afterHours, all[i].kind, c) {
      DeliversOneMore(steps, routing, n, all[i].afterHours, all[i].kind, c);
    }
    RowsKept(rows, all, steps, n);
    assert all[|rows|] in all && HasRow(all, rung.afterHours, rung.kind);
  }

  /** Only the last step reports. */
  lemma NoReportYet(rows: seq<Rung>, steps: seq<LadderStep>, routing: Routing, n: nat)
    requires n < |steps| && Shows(rows, steps, routing, n)
    ensures forall i | 0 <= i < |rows| :: !rows[i].kind.Report?
  {
    hide Destinations, Increasing, HasRow;
    forall i | 0 <= i < |rows| ensures !rows[i].kind.Report? {
      assert Delivers(steps, routing, n, rows[i].afterHours, rows[i].kind, rows[i].channels[0]);
    }
  }

  lemma NoRowNoDelivery(rows: seq<Rung>, steps: seq<LadderStep>, routing: Routing, n: nat, hours: int, kind: Kind)
    requires n <= |steps| && !HasRow(rows, hours, kind)
    requires forall k | 0 <= k < n :: HasRow(rows, steps[k].afterHours, KindOf(steps, k))
    ensures forall c :: !Delivers(steps, routing, n, hours, kind, c)
  {
    hide HasRow, KindOf, Destinations;
  }

  lemma RowsKept(rows: seq<Rung>, all: seq<Rung>, steps: seq<LadderStep>, n: nat)
    requires n <= |steps| && |rows| <= |all| && forall i | 0 <= i < |rows| :: all[i].afterHours == rows[i].afterHours && all[i].kind == rows[i].kind
    requires forall k | 0 <= k < n :: HasRow(rows, steps[k].afterHours, KindOf(steps, k))
    ensures forall k | 0 <= k < n :: HasRow(all, steps[k].afterHours, KindOf(steps, k))
  {
    hide KindOf;
    forall k | 0 <= k < n ensures HasRow(all, steps[k].afterHours, KindOf(steps, k)) {
      var r :| r in rows && r.afterHours == steps[k].afterHours && r.kind == KindOf(steps, k);
      var i :| 0 <= i < |rows| && rows[i] == r;
      assert all[i] in all;
    }
  }

  lemma Merged(rows: seq<Rung>, steps: seq<LadderStep>, routing: Routing, n: nat, at: nat)
    requires n < |steps| && Shows(rows, steps, routing, n) && at < |rows|
    requires rows[at].afterHours == steps[n].afterHours && rows[at].kind == KindOf(steps, n)
    ensures Shows(rows[at := rows[at].(channels := Tidied(rows[at].channels + RungAt(steps, routing, n).channels))], steps, routing, n + 1)
  {
    hide Tidied, Destinations, KindOf, HasRow, Delivers, Increasing;
    NoReportYet(rows, steps, routing, n);
    var rung := RungAt(steps, routing, n);
    var channels := Tidied(rows[at].channels + rung.channels);
    UnionShows(rows[at].channels, steps, routing, n);
    var all := rows[at := rows[at].(channels := channels)];
    MergedContent(rows, steps, routing, n, at, channels);
    RowsKept(rows, all, steps, n);
    InRow(all, at);
  }

  lemma InRow(rows: seq<Rung>, at: nat)
    requires at < |rows|
    ensures HasRow(rows, rows[at].afterHours, rows[at].kind)
  {
    assert rows[at] in rows;
  }

  lemma UnionShows(channels: seq<Channel>, steps: seq<LadderStep>, routing: Routing, n: nat)
    requires n < |steps|
    ensures var both := Tidied(channels + RungAt(steps, routing, n).channels);
            Increasing(both) && both != [] && forall c :: c in both <==> c in channels || c in Destinations(steps[n], routing)
  {
    RungShows(steps, routing, n);
    var rung := RungAt(steps, routing, n);
    TidiedMeans(channels + rung.channels);
    hide Tidied, Destinations, KindOf, Increasing;
    assert rung.channels[0] in Tidied(channels + rung.channels);
  }

  lemma MergedContent(rows: seq<Rung>, steps: seq<LadderStep>, routing: Routing, n: nat, at: nat, channels: seq<Channel>)
    requires n < |steps| && Shows(rows, steps, routing, n) && at < |rows|
    requires rows[at].afterHours == steps[n].afterHours && rows[at].kind == KindOf(steps, n)
    requires forall c :: c in channels <==> c in rows[at].channels || c in Destinations(steps[n], routing)
    ensures var all := rows[at := rows[at].(channels := channels)];
            forall i, c | 0 <= i < |all| :: c in all[i].channels <==> Delivers(steps, routing, n + 1, all[i].afterHours, all[i].kind, c)
  {
    hide Destinations, KindOf, HasRow, Delivers, Increasing;
    var all := rows[at := rows[at].(channels := channels)];
    forall i, c | 0 <= i < |all| ensures c in all[i].channels <==> Delivers(steps, routing, n + 1, all[i].afterHours, all[i].kind, c) {
      DeliversOneMore(steps, routing, n, all[i].afterHours, all[i].kind, c);
      assert c in rows[i].channels <==> Delivers(steps, routing, n, rows[i].afterHours, rows[i].kind, c);
      assert i != at ==> rows[i].afterHours != rows[at].afterHours || rows[i].kind != rows[at].kind;
    }
  }

  // ------------------------------------------------------------ main results

  /** A step is delivered to the channel it names, and where its event is routed, or else to the fallback. */
  predicate Reaches(s: LadderStep, routing: Routing, c: Channel) {
    c == s.channel || c in (if s.event in routing.byEvent then routing.byEvent[s.event] else routing.fallback)
  }

  predicate Shown(rows: seq<Rung>, hours: int, delegates: bool, c: Channel) {
    exists r :: r in rows && r.afterHours == hours && r.kind.Delegate? == delegates && c in r.channels
  }

  predicate Due(ladder: seq<LadderStep>, routing: Routing, hours: int, delegates: bool, c: Channel) {
    exists s :: s in ladder && s.afterHours == hours && s.delegates == delegates && Reaches(s, routing, c)
  }

  /**
   * No delivery is lost and none invented: a channel is shown at an hour, as a
   * delegation or as a message, exactly when some step of the ladder at that hour
   * is one and reaches that channel.
   */
  lemma NothingLostOrInvented(ladder: seq<LadderStep>, routing: Routing, rows: seq<Rung>, hours: int, delegates: bool, c: Channel)
    requires Shows(rows, Sort(ladder, Sooner), routing, |ladder|)
    ensures Shown(rows, hours, delegates, c) <==> Due(ladder, routing, hours, delegates, c)
  {
    var steps := Sort(ladder, Sooner);
    StepsInOrder(ladder);
    hide Increasing, Shows, Sort, Reaches, HasRow;
    if Shown(rows, hours, delegates, c) {
      var r :| r in rows && r.afterHours == hours && r.kind.Delegate? == delegates && c in r.channels;
      var i :| 0 <= i < |rows| && rows[i] == r;
      var k := ShownIsDelivered(rows, steps, routing, i, c);
      SortMember(ladder, Sooner, steps[k]);
      assert Due(ladder, routing, hours, delegates, c);
    }
    if Due(ladder, routing, hours, delegates, c) {
      var s :| s in ladder && s.afterHours == hours && s.delegates == delegates && Reaches(s, routing, c);
      SortMember(ladder, Sooner, s);
      var k :| 0 <= k < |steps| && steps[k] == s;
      DeliveredIsShown(rows, steps, routing, k, c);
    }
  }

  lemma DestinationsAre(s: LadderStep, routing: Routing, c: Channel)
    ensures c in Destinations(s, routing) <==> Reaches(s, routing, c)
  {
  }

  lemma ShownIsDelivered(rows: seq<Rung>, steps: seq<LadderStep>, routing: Routing, i: nat, c: Channel) returns (k: nat)
    requires Shows(rows, steps, routing, |steps|) && i < |rows| && c in rows[i].channels
    ensures k < |steps| && steps[k].afterHours == rows[i].afterHours && steps[k].delegates == rows[i].kind.Delegate? && Reaches(steps[k], routing, c)
  {
    hide Destinations, Increasing, HasRow, Reaches;
    assert Delivers(steps, routing, |steps|, rows[i].afterHours, rows[i].kind, c);
    k :| 0 <= k < |steps| && steps[k].afterHours == rows[i].afterHours && KindOf(steps, k) == rows[i].kind && c in Destinations(steps[k], routing);
    DestinationsAre(steps[k], routing, c);
  }

  lemma DeliveredIsShown(rows: seq<Rung>, steps: seq<LadderStep>, routing: Routing, k: nat, c: Channel)
    requires Shows(rows, steps, routing, |steps|) && k < |steps| && Reaches(steps[k], routing, c)
    ensures Shown(rows, steps[k].afterHours, steps[k].delegates, c)
  {
    DestinationsAre(steps[k], routing, c);
    hide Destinations, Increasing, Reaches;
    assert HasRow(rows, steps[k].afterHours, KindOf(steps, k));
    var r :| r in rows && r.afterHours == steps[k].afterHours && r.kind == KindOf(steps, k);
    var i :| 0 <= i < |rows| && rows[i] == r;
    assert Delivers(steps, routing, |steps|, rows[i].afterHours, rows[i].kind, c);
  }

  /** There is a report row exactly when the last step is no delegation, and it is one row, the last. */
  lemma ReportIsLast(ladder: seq<LadderStep>, routing: Routing, rows: seq<Rung>)
    requires ladder != [] && Shows(rows, Sort(ladder, Sooner), routing, |ladder|)
    ensures var steps := Sort(ladder, Sooner);
            && rows != []
            && (forall i | 0 <= i < |rows| :: rows[i].kind.Report? <==> i == |rows| - 1 && !steps[|steps| - 1].delegates)
  {
    hide Destinations, Increasing;
    var steps := Sort(ladder, Sooner);
    StepsInOrder(ladder);
    var last := |steps| - 1;
    assert HasRow(rows, steps[last].afterHours, KindOf(steps, last));
    var r :| r in rows && r.afterHours == steps[last].afterHours && r.kind == KindOf(steps, last);
    var at :| 0 <= at < |rows| && rows[at] == r;
    forall i | 0 <= i < |rows| ensures rows[i].kind.Report? ==> !steps[last].delegates {
      assert rows[i].channels[0] in rows[i].channels;
      assert Delivers(steps, routing, |steps|, rows[i].afterHours, rows[i].kind, rows[i].channels[0]);
    }
  }
}
