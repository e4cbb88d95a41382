/**
 * Which flow a ticket runs: apps/bff/src/flow-decision.ts, with the phases a
 * flow means from apps/pilot/src/flow-plan.ts.
 */
module FlowDecision {
  import opened Wrappers
  import opened Sequences
  import opened Texts

  datatype FlowType = Analiz | Duzeltme | Gelistirme
  datatype MatchKind = Status | IssueType | Assigned
  type StatusMap = map<string, string>

  /** A rule id stands for its place in the `localeCompare` order of ids. */
  type RuleId = nat

  datatype Rule = Rule(
    ruleId: RuleId,
    projectKey: string,
    assignee: string,
    matchKind: MatchKind,
    matchValue: string,
    flowType: FlowType,
    priority: int,
    enabled: bool,
    analyst: Option<string>,
    engineer: Option<string>,
    statusMap: Option<StatusMap>)

  datatype Ticket = Ticket(projectKey: string, status: Option<string>, issueType: Option<string>, assignee: Option<string>)

  datatype Reason = ByRule | RuleConflict | Default | Unset

  datatype Decision = Decision(
    flow: Option<FlowType>,
    reason: Reason,
    ruleId: Option<RuleId>,
    conflicting: seq<RuleId>,
    statusMap: Option<StatusMap>)

  // ---------------------------------------------------------------- the code

  function Narrowness(f: FlowType): nat {
    match f case Analiz => 0 case Duzeltme => 1 case Gelistirme => 2
  }

  predicate Matches(r: Rule, t: Ticket) {
    && r.enabled
    && r.projectKey == t.projectKey
    && (Trim(r.assignee) == "" || Trim(r.assignee) == Trim(if t.assignee.Some? then t.assignee.value else ""))
    && match r.matchKind
       case Assigned => true
       case Status => t.status == Some(r.matchValue)
       case IssueType => t.issueType == Some(r.matchValue)
  }

  function Specificity(r: Rule): nat {
    if r.matchKind.Assigned? then 1 else 0
  }

  /** `rulesFor`'s comparator. */
  predicate Before(a: Rule, b: Rule) {
    if Specificity(a) != Specificity(b) then Specificity(a) < Specificity(b)
    else if a.priority != b.priority then a.priority < b.priority
    else a.ruleId <= b.ruleId
  }

  /** The conflict branch's comparator. */
  predicate Narrower(a: Rule, b: Rule) {
    if Narrowness(a.flowType) != Narrowness(b.flowType) then Narrowness(a.flowType) < Narrowness(b.flowType)
    else if a.priority != b.priority then a.priority < b.priority
    else a.ruleId <= b.ruleId
  }

  function RulesFor(rules: seq<Rule>, t: Ticket): seq<Rule> {
    Sort(Filter(rules, r => Matches(r, t)), Before)
  }

  function RuleFor(rules: seq<Rule>, t: Ticket): Option<Rule> {
    var matched := RulesFor(rules, t);
    if matched == [] then None else Some(matched[0])
  }

  /** `new Set(matched.map(flowType)).size === 1`. */
  predicate OneFlow(matched: seq<Rule>) {
    |set r | r in matched :: r.flowType| == 1
  }

  function Competing(all: seq<Rule>): seq<Rule>
    requires all != []
  {
    Filter(all, r => Specificity(r) == Specificity(all[0]))
  }

  /** Agreement, or the narrowest flow any of the competing rules asked for. */
  function DecideAmong(matched: seq<Rule>): Decision
    requires matched != []
  {
    if OneFlow(matched) then
      Decision(Some(matched[0].flowType), ByRule, Some(matched[0].ruleId), [], matched[0].statusMap)
    else
      var narrowest := Sort(matched, Narrower)[0];
      Decision(Some(narrowest.flowType), RuleConflict, Some(narrowest.ruleId), Map(matched, (r: Rule) => r.ruleId), narrowest.statusMap)
  }

  function FlowDecisionFor(rules: seq<Rule>, t: Ticket, defaultFlow: Option<FlowType>): Decision {
    var all := RulesFor(rules, t);
    if all == [] then
      if defaultFlow.None? then Decision(None, Unset, None, [], None)
      else Decision(defaultFlow, Default, None, [], None)
    else
      assert all[0] in Competing(all);
      DecideAmong(Competing(all))
  }

  datatype FlowPlan = FlowPlan(analysisGate: bool, engineering: bool)

  function PlanFor(flow: Option<FlowType>): FlowPlan {
    match flow
    case Some(Analiz) => FlowPlan(true, false)
    case Some(Duzeltme) => FlowPlan(false, true)
    case _ => FlowPlan(true, true)
  }

  // ------------------------------------------------------- what it means

  ghost predicate DistinctIds(rules: seq<Rule>) {
    forall i, j | 0 <= i < |rules| && 0 <= j < |rules| && rules[i].ruleId == rules[j].ruleId :: i == j
  }

  /** The rules that compete for a ticket: those that match it, of the best specificity among them. */
  ghost predicate Competes(rules: seq<Rule>, t: Ticket, r: Rule) {
    && r in rules && Matches(r, t)
    && forall q | q in rules && Matches(q, t) :: Specificity(r) <= Specificity(q)
  }

  /** First of the competing rules in operator order. */
  ghost predicate Heads(rules: seq<Rule>, t: Ticket, w: Rule) {
    Competes(rules, t, w) && forall r | Competes(rules, t, r) :: Before(w, r)
  }

  ghost predicate Narrowest(rules: seq<Rule>, t: Ticket, w: Rule) {
    Competes(rules, t, w) && forall r | Competes(rules, t, r) :: Narrower(w, r)
  }

  lemma Comparators()
    ensures Comparator(Before) && Comparator(Narrower)
  {
  }

  lemma SortedHead<T(!new)>(s: seq<T>, leq: (T, T) -> bool)
    requires Comparator(leq) && s != []
    ensures Sort(s, leq)[0] in s && forall x | x in s :: leq(Sort(s, leq)[0], x)
  {
    var sorted := Sort(s, leq);
    SortSorts(s, leq);
    SortMember(s, leq, sorted[0]);
    forall x | x in s ensures leq(sorted[0], x) {
      SortMember(s, leq, x);
      var i :| 0 <= i < |sorted| && sorted[i] == x;
      assert i == 0 || leq(sorted[0], sorted[i]);
    }
  }

  /** The sorted list holds the matching rules, and its most specific tier is the competing ones. */
  lemma CompetingMeans(rules: seq<Rule>, t: Ticket)
    ensures var all := RulesFor(rules, t);
            && (forall r :: r in all <==> r in rules && Matches(r, t))
            && (all != [] ==> Competing(all) != [] && Competing(all)[0] == all[0] && Heads(rules, t, all[0])
                              && forall r :: r in Competing(all) <==> Competes(rules, t, r))
  {
    var matching := Filter(rules, r => Matches(r, t));
    var all := RulesFor(rules, t);
    Comparators();
    forall r ensures r in all <==> r in rules && Matches(r, t) {
      SortMember(matching, Before, r);
    }
    if all != [] {
      SortedHead(matching, Before);
      assert forall r | r in all :: r in matching;
      forall r ensures r in Competing(all) <==> Competes(rules, t, r) {
        if Competes(rules, t, r) {
          assert Before(all[0], r) && Specificity(r) <= Specificity(all[0]);
        }
        if r in Competing(all) {
          assert forall q | q in rules && Matches(q, t) :: q in matching && Before(all[0], q);
        }
      }
    }
  }

  lemma OneFlowMeans(matched: seq<Rule>)
    requires matched != []
    ensures OneFlow(matched) <==> forall r | r in matched :: r.flowType == matched[0].flowType
  {
    var flows, f := set r | r in matched :: r.flowType, matched[0].flowType;
    assert f in flows;
    assert |flows - {f}| == |flows| - 1;
    if OneFlow(matched) {
      assert flows - {f} == {};
      forall r | r in matched ensures r.flowType == f {
        assert r.flowType in flows;
      }
    }
    if forall r | r in matched :: r.flowType == f {
      assert flows == {f};
    }
  }

  lemma AmongIsNarrowest(matched: seq<Rule>) returns (w: Rule)
    requires matched != [] && forall r | r in matched :: Specificity(r) == Specificity(matched[0]) && Before(matched[0], r)
    ensures w in matched && forall r | r in matched :: Narrower(w, r)
    ensures var d := DecideAmong(matched);
            && d.flow == Some(w.flowType) && d.ruleId == Some(w.ruleId) && d.statusMap == w.statusMap
            && (d.reason == ByRule ==> w == matched[0] && forall r | r in matched :: r.flowType == w.flowType)
            && (d.reason == RuleConflict ==> exists r | r in matched :: r.flowType != w.flowType)
            && d.reason in {ByRule, RuleConflict}
            && (d.reason == RuleConflict ==> d.conflicting == Map(matched, (r: Rule) => r.ruleId))
  {
    OneFlowMeans(matched);
    Comparators();
    SortedHead(matched, Narrower);
    w := if OneFlow(matched) then matched[0] else Sort(matched, Narrower)[0];
  }

  /**
   * The meaning of a decision, agreeing or conflicting: flow, rule id and status
   * map all come from one competing rule `w`, and no competing rule asked for
   * less. Agreement is reported exactly when all of them asked for the same, and
   * a conflict names exactly the rules that competed.
   */
  lemma DecisionIsTheNarrowest(rules: seq<Rule>, t: Ticket, defaultFlow: Option<FlowType>) returns (w: Rule)
    requires exists r :: r in rules && Matches(r, t)
    ensures Narrowest(rules, t, w)
    ensures var d := FlowDecisionFor(rules, t, defaultFlow);
            && d.flow == Some(w.flowType) && d.ruleId == Some(w.ruleId) && d.statusMap == w.statusMap
            && (d.reason == ByRule ==> Heads(rules, t, w) && forall r | Competes(rules, t, r) :: r.flowType == w.flowType)
            && (d.reason == RuleConflict ==> exists r :: Competes(rules, t, r) && r.flowType != w.flowType)
            && d.reason in {ByRule, RuleConflict}
            && (d.reason == RuleConflict ==>
                  forall id :: id in d.conflicting <==> exists r :: Competes(rules, t, r) && r.ruleId == id)
  {
    hide Matches, RulesFor, Competing, DecideAmong, Narrower, Filter, Sort, Specificity;
    var all := RulesFor(rules, t);
    CompetingMeans(rules, t);
    assert all != [] by {
      var r :| r in rules && Matches(r, t);
      assert r in all;
    }
    var matched := Competing(all);
    forall r | r in matched ensures Specificity(r) == Specificity(matched[0]) && Before(matched[0], r) {
      assert Competes(rules, t, r);
    }
    w := AmongIsNarrowest(matched);
    var d := FlowDecisionFor(rules, t, defaultFlow);
    if d.reason == RuleConflict {
      var ids := Map(matched, (r: Rule) => r.ruleId);
      forall id ensures id in d.conflicting <==> exists r :: Competes(rules, t, r) && r.ruleId == id {
        if id in ids {
          var i :| 0 <= i < |ids| && ids[i] == id;
          assert matched[i] in matched;
        }
        if r :| Competes(rules, t, r) && r.ruleId == id {
          var i :| 0 <= i < |matched| && matched[i] == r;
          assert ids[i] == id;
        }
      }
    }
  }

  lemma NoMatchIsNoRule(rules: seq<Rule>, t: Ticket)
    ensures RuleFor(rules, t).None? <==> forall r | r in rules :: !Matches(r, t)
  {
    hide Matches;
    CompetingMeans(rules, t);
    var all := RulesFor(rules, t);
    assert all != [] ==> all[0] in all;
  }

  lemma NoMatchIsDefault(rules: seq<Rule>, t: Ticket, defaultFlow: Option<FlowType>)
    ensures (forall r | r in rules :: !Matches(r, t)) <==> FlowDecisionFor(rules, t, defaultFlow).reason in {Default, Unset}
    ensures (forall r | r in rules :: !Matches(r, t)) ==>
              FlowDecisionFor(rules, t, defaultFlow) == Decision(defaultFlow, if defaultFlow == None then Unset else Default, None, [], None)
  {
    CompetingMeans(rules, t);
    var all := RulesFor(rules, t);
    if all != [] {
      assert all[0] in all;
      var _ := DecisionIsTheNarrowest(rules, t, defaultFlow);
    } else {
      forall r | r in rules ensures !Matches(r, t) {
        assert r !in all;
      }
    }
  }

  // ---------------------------------------------------- permutations, additions

  lemma DistinctInBoth(rules: seq<Rule>, others: seq<Rule>, x: Rule, y: Rule)
    requires DistinctIds(rules) && multiset(others) <= multiset(rules)
    requires x in others && y in others && x.ruleId == y.ruleId
    ensures x == y
  {
    assert x in multiset(others) && y in multiset(others);
    assert x in multiset(rules) && y in multiset(rules);
  }

  /** Sorting permuted selections of rules with distinct ids gives one and the same list. */
  lemma SortIgnoresOrder(rules: seq<Rule>, a: seq<Rule>, b: seq<Rule>)
    requires DistinctIds(rules) && multiset(a) <= multiset(rules) && multiset(a) == multiset(b)
    ensures Sort(a, Before) == Sort(b, Before)
  {
    Comparators();
    SortSorts(a, Before);
    SortSorts(b, Before);
    SortKeeps(a, Before);
    SortKeeps(b, Before);
    var sa, sb := Sort(a, Before), Sort(b, Before);
    forall x, y | x in sa && y in sa && Before(x, y) && Before(y, x) ensures x == y {
      DistinctInBoth(rules, sa, x, y);
    }
    SortedIsUnique(sa, sb, Before);
  }

  lemma FilterIsPart(s: seq<Rule>, p: Rule -> bool)
    ensures multiset(Filter(s, p)) <= multiset(s)
  {
    forall x ensures multiset(Filter(s, p))[x] <= multiset(s)[x] {
      FilterCounts(s, p, x);
    }
  }

  /** Whatever order the store hands the rows over in, the whole decision is the same. */
  lemma DecisionIgnoresOrder(rules: seq<Rule>, others: seq<Rule>, t: Ticket, defaultFlow: Option<FlowType>)
    requires DistinctIds(rules) && multiset(rules) == multiset(others)
    ensures FlowDecisionFor(rules, t, defaultFlow) == FlowDecisionFor(others, t, defaultFlow)
  {
    var p := (r: Rule) => Matches(r, t);
    FilterPermutes(rules, others, p);
    FilterIsPart(rules, p);
    SortIgnoresOrder(rules, Filter(rules, p), Filter(others, p));
  }

  /** With a conditioned match, the competing rules are the sorted conditioned matches. */
  lemma ConditionedTier(rules: seq<Rule>, t: Ticket)
    requires exists r :: r in rules && Matches(r, t) && Specificity(r) == 0
    ensures var all := RulesFor(rules, t);
            all != [] && Competing(all) == Sort(Filter(rules, r => Matches(r, t) && Specificity(r) == 0), Before)
  {
    var all := RulesFor(rules, t);
    var p, q, both := (r: Rule) => Matches(r, t), (r: Rule) => Specificity(r) == 0, (r: Rule) => Matches(r, t) && Specificity(r) == 0;
    CompetingMeans(rules, t);
    var c :| c in rules && Matches(c, t) && Specificity(c) == 0;
    assert c in all && Specificity(all[0]) == 0;
    Comparators();
    FilterSort(Filter(rules, p), q, Before);
    FilterFilter(rules, p, q, both);
    FilterIsTheSame(all, (r: Rule) => Specificity(r) == Specificity(all[0]), q);
    FilterIsTheSame(rules, both, r => Matches(r, t) && Specificity(r) == 0);
  }

  /** A catch-all rule, wherever it is inserted, changes nothing for a ticket a conditioned rule matches. */
  lemma CatchAllIsIgnored(rules: seq<Rule>, extra: Rule, more: seq<Rule>, t: Ticket, defaultFlow: Option<FlowType>)
    requires DistinctIds(more) && multiset(more) == multiset(rules) + multiset{extra} && extra.matchKind.Assigned?
    requires exists r :: r in rules && Matches(r, t) && Specificity(r) == 0
    ensures FlowDecisionFor(more, t, defaultFlow) == FlowDecisionFor(rules, t, defaultFlow)
  {
    hide Matches, RulesFor, Filter, Sort, Map, DecideAmong;
    var r :| r in rules && Matches(r, t) && Specificity(r) == 0;
    assert r in multiset(rules) && r in multiset(more) && r in more;
    ConditionedTier(rules, t);
    ConditionedTier(more, t);
    var both := (r: Rule) => Matches(r, t) && Specificity(r) == 0;
    forall x ensures multiset(Filter(rules, both))[x] == multiset(Filter(more, both))[x] {
      FilterCounts(rules, both, x);
      FilterCounts(more, both, x);
    }
    FilterIsPart(more, both);
    SortIgnoresOrder(more, Filter(more, both), Filter(rules, both));
  }

  /** What competes once a conditioned rule joins a set whose conditioned rules already match. */
  lemma CompetingAfterJoining(rules: seq<Rule>, extra: Rule, more: seq<Rule>, t: Ticket)
    requires multiset(more) == multiset(rules) + multiset{extra} && !extra.matchKind.Assigned?
    requires exists r :: r in rules && Matches(r, t) && Specificity(r) == 0
    ensures exists r :: r in rules && Matches(r, t)
    ensures exists r :: r in more && Matches(r, t)
    ensures forall r :: Competes(more, t, r) <==> Competes(rules, t, r) || (r == extra && Matches(extra, t))
  {
    hide Matches;
    assert forall x :: x in more <==> x in multiset(more);
    assert forall x :: x in rules <==> x in multiset(rules);
    assert forall x :: x in more <==> x in rules || x == extra;
    var c :| c in rules && Matches(c, t) && Specificity(c) == 0;
    assert c in more;
  }

  /** A further conditioned rule can only narrow the flow, and then to its own. */
  lemma ConditionedRuleOnlyNarrows(rules: seq<Rule>, extra: Rule, more: seq<Rule>, t: Ticket, defaultFlow: Option<FlowType>)
    requires multiset(more) == multiset(rules) + multiset{extra} && !extra.matchKind.Assigned?
    requires exists r :: r in rules && Matches(r, t) && Specificity(r) == 0
    ensures var was, now := FlowDecisionFor(rules, t, defaultFlow).flow, FlowDecisionFor(more, t, defaultFlow).flow;
            && was.Some? && now.Some?
            && now.value == if Matches(extra, t) && Narrowness(extra.flowType) < Narrowness(was.value) then extra.flowType else was.value
  {
    hide Matches, FlowDecisionFor, Competes, Specificity;
    CompetingAfterJoining(rules, extra, more, t);
    var was := DecisionIsTheNarrowest(rules, t, defaultFlow);
    var now := DecisionIsTheNarrowest(more, t, defaultFlow);
    assert Competes(more, t, was);
    if Matches(extra, t) {
      assert Competes(more, t, extra);
    }
  }

  /** Some rule that competes for the ticket asks for this flow. */
  ghost predicate Asked(rules: seq<Rule>, t: Ticket, f: FlowType) {
    exists r :: Competes(rules, t, r) && r.flowType == f
  }

  /**
   * The fail-closed answer, flow by flow: analysis as soon as one competing rule
   * asks for it; a fix when none does and one asks for a fix; full development
   * only when all of them ask for it. They conflict exactly when two flows are
   * asked for.
   */
  lemma FlowByFlow(rules: seq<Rule>, t: Ticket, defaultFlow: Option<FlowType>)
    requires exists r :: r in rules && Matches(r, t)
    ensures var d := FlowDecisionFor(rules, t, defaultFlow);
            && (d.flow == Some(Analiz) <==> Asked(rules, t, Analiz))
            && (d.flow == Some(Duzeltme) <==> !Asked(rules, t, Analiz) && Asked(rules, t, Duzeltme))
            && (d.flow == Some(Gelistirme) <==> forall r | Competes(rules, t, r) :: r.flowType == Gelistirme)
            && (d.reason == RuleConflict <==> exists f, g :: f != g && Asked(rules, t, f) && Asked(rules, t, g))
  {
    hide Competes, FlowDecisionFor;
    var w := DecisionIsTheNarrowest(rules, t, defaultFlow);
    var d := FlowDecisionFor(rules, t, defaultFlow);
    assert Asked(rules, t, w.flowType);
    forall r | Competes(rules, t, r) ensures Narrower(w, r) {}
    if d.reason == RuleConflict {
      var r :| Competes(rules, t, r) && r.flowType != w.flowType;
      assert Asked(rules, t, r.flowType);
    }
  }

  /** What such a decision has the run do, told from what the competing rules ask for. */
  lemma PlanByFlow(rules: seq<Rule>, t: Ticket, defaultFlow: Option<FlowType>)
    requires exists r :: r in rules && Matches(r, t)
    ensures var plan := PlanFor(FlowDecisionFor(rules, t, defaultFlow).flow);
            && (plan.engineering <==> !Asked(rules, t, Analiz))
            && (plan.analysisGate <==> Asked(rules, t, Analiz) || !Asked(rules, t, Duzeltme))
    ensures PlanFor(None) == FlowPlan(true, true)
  {
    FlowByFlow(rules, t, defaultFlow);
    var w := DecisionIsTheNarrowest(rules, t, defaultFlow);
    assert Asked(rules, t, w.flowType);
    hide Competes, FlowDecisionFor;
  }

  /** A rule competes when it applies, and a condition is only outdone by nothing, a catch-all by any condition. */
  lemma CompetingRules(rules: seq<Rule>, t: Ticket, r: Rule)
    ensures Competes(rules, t, r) <==>
              && r in rules && Matches(r, t)
              && (r.matchKind == Assigned ==> forall q | q in rules && Matches(q, t) :: q.matchKind == Assigned)
  {
  }

  /** Code is written only when every competing rule asks for a flow that writes code. */
  lemma EngineeringNeedsEveryRule(rules: seq<Rule>, t: Ticket, defaultFlow: Option<FlowType>)
    requires exists r :: r in rules && Matches(r, t)
    ensures PlanFor(FlowDecisionFor(rules, t, defaultFlow).flow).engineering <==>
            forall r | Competes(rules, t, r) :: PlanFor(Some(r.flowType)).engineering
  {
    var w := DecisionIsTheNarrowest(rules, t, defaultFlow);
    assert Competes(rules, t, w);
  }

  /**
   * `ruleFor` returns the first competing rule in operator order. The decision
   * names it exactly when no competing rule asks for a narrower flow than it does.
   */
  lemma RuleForAgreesExactly(rules: seq<Rule>, t: Ticket, defaultFlow: Option<FlowType>)
    requires DistinctIds(rules) && exists r :: r in rules && Matches(r, t)
    ensures var d, head := FlowDecisionFor(rules, t, defaultFlow), RuleFor(rules, t);
            && head.Some? && Heads(rules, t, head.value)
            && (Some(head.value.ruleId) == d.ruleId <==> forall r | Competes(rules, t, r) :: Narrowness(head.value.flowType) <= Narrowness(r.flowType))
            && (d.reason == ByRule ==> Some(head.value.ruleId) == d.ruleId && head.value.statusMap == d.statusMap)
  {
    CompetingMeans(rules, t);
    var w := DecisionIsTheNarrowest(rules, t, defaultFlow);
    var head := RulesFor(rules, t)[0];
    assert Competes(rules, t, head) && Competes(rules, t, w);
    if head.ruleId == w.ruleId || Narrowness(head.flowType) <= Narrowness(w.flowType) {
      assert head.ruleId == w.ruleId by {
        assert Before(head, w) && Narrower(w, head);
      }
      DistinctInBoth(rules, rules, head, w);
    }
  }

  const CONFLICTED: Ticket := Ticket("OPS", Some("To Do"), Some("Bug"), None)
  const WIDE: Rule := Rule(1, "OPS", "", Status, "To Do", Gelistirme, 10, true, None, None, None)
  const NARROW: Rule := Rule(2, "OPS", "", IssueType, "Bug", Analiz, 20, true, None, None, None)

  /** In a conflict the two can part: the rule `ruleFor` returns may ask for more than was decided. */
  lemma RuleForCanAskForMore()
    ensures FlowDecisionFor([WIDE, NARROW], CONFLICTED, None).flow == Some(Analiz)
    ensures RuleFor([WIDE, NARROW], CONFLICTED) == Some(WIDE)
  {
    var rules := [WIDE, NARROW];
    assert Matches(WIDE, CONFLICTED) && Matches(NARROW, CONFLICTED);
    hide Matches, RuleFor, FlowDecisionFor, Trim;
    assert rules[0] == WIDE && rules[1] == NARROW;
    assert Competes(rules, CONFLICTED, WIDE) && Competes(rules, CONFLICTED, NARROW);
    var w := DecisionIsTheNarrowest(rules, CONFLICTED, None);
    RuleForAgreesExactly(rules, CONFLICTED, None);
  }
}
