/**
 * The pilot's rule store, apps/pilot/src/listening.ts, and how it relates to the
 * platform's decision: sort when the rules are written and take the first match,
 * against filter, sort and take the head.
 */
module Listening {
  import opened Wrappers
  import opened Sequences
  import opened Texts
  import opened FlowDecision

  datatype PilotRule = PilotRule(
    projectKey: string,
    assignee: string,
    matchKind: MatchKind,
    matchValue: string,
    flowType: FlowType,
    priority: int,
    enabled: bool,
    analyst: Option<string>,
    engineer: Option<string>)

  datatype PilotTicket = PilotTicket(projectKey: string, status: Option<string>, issueType: Option<string>)

  /** One `(project = X AND status IN (...))` of the discovery query. */
  datatype Clause = Clause(project: string, statuses: seq<string>)

  function NormalizeVariantId(value: Option<string>): Option<string> {
    if value.None? || Trim(value.value) == "" then None else Some(Trim(value.value))
  }

  function Normalized(r: PilotRule): PilotRule {
    r.(analyst := NormalizeVariantId(r.analyst), engineer := NormalizeVariantId(r.engineer))
  }

  function Tier(r: PilotRule): nat {
    if r.matchKind.Assigned? then 1 else 0
  }

  /** The comparator of `set`, which knows no rule ids. */
  predicate Earlier(a: PilotRule, b: PilotRule) {
    if Tier(a) != Tier(b) then Tier(a) < Tier(b) else a.priority <= b.priority
  }

  predicate Enabled(r: PilotRule) {
    r.enabled
  }

  /** The enabled rules, with their agent variants normalised. */
  function Live(rules: seq<PilotRule>): seq<PilotRule> {
    Map(Filter(rules, Enabled), Normalized)
  }

  predicate ForBot(r: PilotRule, bot: string) {
    r.assignee == "" || r.assignee == Trim(bot)
  }

  predicate Classifies(r: PilotRule, bot: string, t: PilotTicket) {
    && r.projectKey == t.projectKey
    && ForBot(r, bot)
    && match r.matchKind
       case Assigned => true
       case Status => t.status == Some(r.matchValue)
       case IssueType => t.issueType == Some(r.matchValue)
  }

  function FirstMatch(rules: seq<PilotRule>, bot: string, t: PilotTicket): (r: Option<PilotRule>)
    ensures r.Some? ==> r.value in rules && Classifies(r.value, bot, t)
    ensures r.None? ==> forall q | q in rules :: !Classifies(q, bot, t)
  {
    if rules == [] then None
    else if Classifies(rules[0], bot, t) then Some(rules[0])
    else FirstMatch(rules[1..], bot, t)
  }

  /** The status rules that narrow discovery for `bot`. */
  predicate Narrows(r: PilotRule, bot: string) {
    r.matchKind.Status? && ForBot(r, bot)
  }

  ghost predicate Listed(clauses: seq<Clause>, project: string, status: string) {
    exists i :: 0 <= i < |clauses| && clauses[i].project == project && status in clauses[i].statuses
  }

  ghost predicate OneClausePerProject(clauses: seq<Clause>) {
    && (forall i, j | 0 <= i < j < |clauses| :: clauses[i].project != clauses[j].project)
    && (forall i | 0 <= i < |clauses| :: clauses[i].statuses != [] && NoDuplicates(clauses[i].statuses))
  }

  class ListeningRulesStore {
    var rules: seq<PilotRule>

    constructor (initial: seq<PilotRule>)
      ensures StablySorted(Live(initial), rules, Earlier)
    {
      new;
      Set(initial);
    }

    /** What the store holds after a write: the live rules and no others, earlier ones first, and equals as they came. */
    method Set(all: seq<PilotRule>)
      modifies this
      ensures StablySorted(Live(all), rules, Earlier)
    {
      var live := Filter(all, Enabled);
      rules := Sort(Map(live, Normalized), Earlier);
      PilotComparator();
      SortIsStable(Live(all), Earlier);
    }

    method RuleFor(bot: string, t: PilotTicket) returns (r: Option<PilotRule>)
      ensures r == FirstMatch(rules, bot, t)
    {
      var i := 0;
      while i < |rules|
        invariant 0 <= i <= |rules|
        invariant FirstMatch(rules, bot, t) == FirstMatch(rules[i..], bot, t)
      {
        var rule := rules[i];
        if rule.projectKey == t.projectKey && (rule.assignee == "" || rule.assignee == Trim(bot)) {
          if rule.matchKind.Assigned? {
            return Some(rule);
          }
          var field := if rule.matchKind.Status? then t.status else t.issueType;
          if field.Some? && field.value == rule.matchValue {
            return Some(rule);
          }
        }
        i := i + 1;
      }
      return None;
    }

    /**
     * The clauses of `discoveryJqlFor`; none at all stands for the fallback
     * query. They list exactly what the bot's status rules name, once each.
     */
    method DiscoveryClauses(bot: string) returns (clauses: seq<Clause>)
      ensures OneClausePerProject(clauses)
      ensures forall p, s :: Listed(clauses, p, s) <==> exists r :: r in rules && Narrows(r, bot) && r.projectKey == p && r.matchValue == s
    {
      clauses := [];
      var i := 0;
      while i < |rules|
        invariant 0 <= i <= |rules|
        invariant OneClausePerProject(clauses)
        invariant forall p, s :: Listed(clauses, p, s) <==> exists r :: r in rules[..i] && Narrows(r, bot) && r.projectKey == p && r.matchValue == s
      {
        var r := rules[i];
        assert rules[..i + 1] == rules[..i] + [r];
        if Narrows(r, bot) {
          var before := clauses;
          clauses := AddStatus(clauses, r.projectKey, r.matchValue);
          forall p, s
            ensures Listed(clauses, p, s) <==> exists q :: q in rules[..i + 1] && Narrows(q, bot) && q.projectKey == p && q.matchValue == s
          {
            assert Listed(clauses, p, s) <==> Listed(before, p, s) || (p == r.projectKey && s == r.matchValue);
          }
        }
        i := i + 1;
      }
      assert rules[..|rules|] == rules;
    }
  }

  /** `byProject.get(project) ?? new Set()`, then `add`, then `set`. */
  method AddStatus(clauses: seq<Clause>, project: string, status: string) returns (r: seq<Clause>)
    requires OneClausePerProject(clauses)
    ensures OneClausePerProject(r)
    ensures forall p, s :: Listed(r, p, s) <==> Listed(clauses, p, s) || (p == project && s == status)
  {
    hide OneClausePerProject;
    var i := 0;
    while i < |clauses| && clauses[i].project != project
      invariant 0 <= i <= |clauses|
      invariant forall j | 0 <= j < i :: clauses[j].project != project
    {
      i := i + 1;
    }
    if i == |clauses| {
      r := clauses + [Clause(project, [status])];
      ClauseAdded(clauses, project, status);
    } else if status in clauses[i].statuses {
      r := clauses;
      assert Listed(clauses, project, status);
    } else {
      r := clauses[i := Clause(project, clauses[i].statuses + [status])];
      StatusAdded(clauses, i, status);
    }
  }

  lemma ClauseAdded(clauses: seq<Clause>, project: string, status: string)
    requires OneClausePerProject(clauses) && forall j | 0 <= j < |clauses| :: clauses[j].project != project
    ensures var r := clauses + [Clause(project, [status])];
            OneClausePerProject(r) && forall p, s :: Listed(r, p, s) <==> Listed(clauses, p, s) || (p == project && s == status)
  {
    var r := clauses + [Clause(project, [status])];
    forall p, s ensures Listed(r, p, s) <==> Listed(clauses, p, s) || (p == project && s == status) {
      if p == project && s == status {
        assert r[|clauses|].project == p && r[|clauses|].statuses[0] == s;
      }
      if i :| 0 <= i < |clauses| && clauses[i].project == p && s in clauses[i].statuses {
        assert r[i] == clauses[i];
      }
    }
  }

  lemma StatusAdded(clauses: seq<Clause>, at: nat, status: string)
    requires OneClausePerProject(clauses) && at < |clauses| && status !in clauses[at].statuses
    ensures var c := Clause(clauses[at].project, clauses[at].statuses + [status]);
            var r := clauses[at := c];
            OneClausePerProject(r) && forall p, s :: Listed(r, p, s) <==> Listed(clauses, p, s) || (p == c.project && s == status)
  {
    var c := Clause(clauses[at].project, clauses[at].statuses + [status]);
    var r := clauses[at := c];
    forall p, s ensures Listed(r, p, s) <==> Listed(clauses, p, s) || (p == c.project && s == status) {
      if p == c.project && s == status {
        assert r[at].project == p && c.statuses[|c.statuses| - 1] == s;
      }
      if i :| 0 <= i < |clauses| && clauses[i].project == p && s in clauses[i].statuses {
        assert r[i].project == p && s in r[i].statuses;
      }
    }
  }

  /** An agent variant is kept without the white space around it, and not at all where it is absent or blank. */
  lemma VariantIsTrimmed(value: Option<string>) returns (before: string, after: string)
    ensures var kept := NormalizeVariantId(value);
            && (kept.None? <==> value.None? || AllSpace(value.value))
            && (kept.Some? ==>
                  && value == Some(before + kept.value + after) && AllSpace(before) && AllSpace(after)
                  && kept.value != "" && !IsSpace(kept.value[0]) && !IsSpace(kept.value[|kept.value| - 1]))
  {
    before, after := "", "";
    if value.Some? {
      BlankExactly(value.value);
      before, after := TrimMeans(value.value);
    }
  }

  /** What the store keeps of a rule that was posted: everything, but for its variants. */
  lemma KeptAsPosted(all: seq<PilotRule>, store: seq<PilotRule>, r: PilotRule)
    requires StablySorted(Live(all), store, Earlier) && r in store
    ensures exists q :: q in all && q.enabled && r == q.(analyst := NormalizeVariantId(q.analyst), engineer := NormalizeVariantId(q.engineer))
  {
    hide NormalizeVariantId;
    var live := Live(all);
    assert r in multiset(store) && r in multiset(live) && r in live;
    var i :| 0 <= i < |live| && live[i] == r;
    var q := Filter(all, Enabled)[i];
    assert live[i] == Normalized(q);
    assert q in Filter(all, Enabled);
  }

  // ------------------------------------------------- the two implementations

  /** A platform rule as the pilot is sent it. */
  function Mirrored(r: Rule): PilotRule {
    PilotRule(r.projectKey, r.assignee, r.matchKind, r.matchValue, r.flowType, r.priority, r.enabled, r.analyst, r.engineer)
  }

  function Stored(r: Rule): PilotRule {
    Normalized(Mirrored(r))
  }

  predicate EarlierRule(a: Rule, b: Rule) {
    Earlier(Stored(a), Stored(b))
  }

  lemma {:induction false} FirstMatchIsFilterHead(rules: seq<PilotRule>, bot: string, t: PilotTicket)
    ensures var kept := Filter(rules, r => Classifies(r, bot, t));
            FirstMatch(rules, bot, t) == if kept == [] then None else Some(kept[0])
  {
    if rules != [] {
      FirstMatchIsFilterHead(rules[1..], bot, t);
    }
  }

  /** Keeping, of the store's rules, those that classify gives the matching rules in the pilot's order, mirrored. */
  lemma StoreKeepsMatching(rules: seq<Rule>, store: seq<PilotRule>, bot: string, t: Ticket, seen: PilotTicket)
    requires StablySorted(Live(Map(rules, Mirrored)), store, Earlier)
    requires forall r | r in rules && r.enabled :: Classifies(Stored(r), bot, seen) == Matches(r, t)
    ensures Filter(store, r => Classifies(r, bot, seen)) == Map(Sort(Filter(rules, r => Matches(r, t)), EarlierRule), Stored)
  {
    hide Matches, Classifies, Normalized, Mirrored, Sort, Map, Filter;
    var on, matching, classifies := (r: Rule) => r.enabled, (r: Rule) => Matches(r, t), (r: PilotRule) => Classifies(r, bot, seen);
    var live := Filter(rules, on);
    LiveRules(rules, on);
    PilotComparator();
    StableSortIsUnique(Live(Map(rules, Mirrored)), store, Earlier);
    FilterSort(Map(live, Stored), classifies, Earlier);
    MapFilter(live, Stored, matching, classifies);
    Matching(rules, t, on, matching);
    MapSort(Filter(rules, matching), Stored, EarlierRule, Earlier);
  }

  lemma PilotComparator()
    ensures Comparator(Earlier)
  {
  }

  lemma Matching(rules: seq<Rule>, t: Ticket, on: Rule -> bool, matching: Rule -> bool)
    requires forall r :: on(r) == r.enabled && matching(r) == Matches(r, t)
    ensures Filter(Filter(rules, on), matching) == Filter(rules, matching)
  {
    FilterFilter(rules, on, matching, matching);
  }

  lemma LiveRules(rules: seq<Rule>, on: Rule -> bool)
    requires forall r :: on(r) == r.enabled
    ensures Live(Map(rules, Mirrored)) == Map(Filter(rules, on), Stored)
  {
    MapFilter(rules, Mirrored, on, Enabled);
    MapMap(Filter(rules, on));
  }

  lemma {:induction false} MapMap(rules: seq<Rule>)
    ensures Map(Map(rules, Mirrored), Normalized) == Map(rules, Stored)
  {
    if rules != [] {
      MapMap(rules[1..]);
      assert Map(rules, Mirrored)[1..] == Map(rules[1..], Mirrored);
    }
  }

  /** The rules that match and that no matching rule comes before, by tier and priority. */
  predicate Best(rules: seq<Rule>, t: Ticket, r: Rule) {
    r in rules && Matches(r, t) && forall q | q in rules && Matches(q, t) :: EarlierRule(r, q)
  }

  function FirstBest(rules: seq<Rule>, t: Ticket): Option<Rule> {
    var best := Filter(rules, r => Best(rules, t, r));
    if best == [] then None else Some(best[0])
  }

  ghost predicate LeastBest(rules: seq<Rule>, t: Ticket, r: Rule) {
    Best(rules, t, r) && forall q | Best(rules, t, q) :: r.ruleId <= q.ruleId
  }

  /** Both sides are asked about one ticket of the bot's, with rules whose assignees are trimmed. */
  ghost predicate SameQuestion(rules: seq<Rule>, bot: string, t: Ticket, seen: PilotTicket) {
    && (forall r | r in rules :: Trim(r.assignee) == r.assignee)
    && t.assignee.Some? && Trim(t.assignee.value) == Trim(bot)
    && seen == PilotTicket(t.projectKey, t.status, t.issueType)
  }

  lemma RuleComparator()
    ensures Comparator(EarlierRule)
  {
  }

  /** The pilot picks the best rule that arrived first. */
  lemma PilotTakesTheFirstBest(rules: seq<Rule>, store: seq<PilotRule>, bot: string, t: Ticket, seen: PilotTicket)
    requires StablySorted(Live(Map(rules, Mirrored)), store, Earlier) && SameQuestion(rules, bot, t, seen)
    ensures FirstMatch(store, bot, seen) == match FirstBest(rules, t) case None => None case Some(r) => Some(Stored(r))
  {
    forall r | r in rules && r.enabled ensures Classifies(Stored(r), bot, seen) == Matches(r, t) {
      SameTest(r, bot, t, seen);
    }
    hide Matches, Classifies, Stored, Live, StablySorted, EarlierRule;
    StoreKeepsMatching(rules, store, bot, t, seen);
    FirstMatchIsFilterHead(store, bot, seen);
    var matching, best := (r: Rule) => Matches(r, t), (r: Rule) => Best(rules, t, r);
    var kept := Filter(rules, matching);
    RuleComparator();
    FilterFilter(rules, matching, best, best);
    if kept != [] {
      SortHeadIsFirstLeast(kept, EarlierRule, best);
    } else {
      assert Filter(kept, best) == [];
    }
  }

  /** The platform picks the best rule of least id. */
  lemma PlatformTakesTheLeastBest(rules: seq<Rule>, t: Ticket, least: Rule)
    requires DistinctIds(rules) && LeastBest(rules, t, least)
    ensures RuleFor(rules, t) == Some(least)
  {
    hide Matches;
    CompetingMeans(rules, t);
    var all := RulesFor(rules, t);
    assert least in all;
    var head := all[0];
    assert head in rules && Matches(head, t) by {
      assert head in all;
    }
    HeadsBeforeAll(rules, t);
    assert Before(head, least);
    assert Best(rules, t, head);
    DistinctInBoth(rules, rules, head, least);
  }

  lemma HeadsBeforeAll(rules: seq<Rule>, t: Ticket)
    requires RulesFor(rules, t) != []
    ensures forall q | q in rules && Matches(q, t) :: Before(RulesFor(rules, t)[0], q)
  {
    hide Matches;
    Comparators();
    SortedHead(Filter(rules, r => Matches(r, t)), Before);
  }

  /**
   * The two implementations give the same rule exactly when, of the best matching
   * rules, the one that arrived first and the one of least id are stored alike.
   */
  lemma PilotAgreesExactly(rules: seq<Rule>, store: seq<PilotRule>, bot: string, t: Ticket, seen: PilotTicket, first: Rule, least: Rule)
    requires StablySorted(Live(Map(rules, Mirrored)), store, Earlier) && SameQuestion(rules, bot, t, seen) && DistinctIds(rules)
    requires FirstBest(rules, t) == Some(first) && LeastBest(rules, t, least)
    ensures FirstMatch(store, bot, seen) == Some(Stored(first)) && RuleFor(rules, t) == Some(least)
    ensures FirstMatch(store, bot, seen) == Some(Stored(RuleFor(rules, t).value)) <==> Stored(first) == Stored(least)
  {
    hide StablySorted, SameQuestion, FirstBest, LeastBest, FirstMatch, Stored, RuleFor;
    PilotTakesTheFirstBest(rules, store, bot, t, seen);
    PlatformTakesTheLeastBest(rules, t, least);
  }

  lemma SameTest(r: Rule, bot: string, t: Ticket, seen: PilotTicket)
    requires r.enabled && Trim(r.assignee) == r.assignee
    requires t.assignee.Some? && Trim(t.assignee.value) == Trim(bot)
    requires seen == PilotTicket(t.projectKey, t.status, t.issueType)
    ensures Classifies(Stored(r), bot, seen) == Matches(r, t)
  {
    hide Trim;
  }

  /**
   * What the pilot then runs: nothing exactly when the platform falls back, the
   * decided flow when the platform's rules agree and never a narrower one than
   * decided. It runs the decided flow exactly when no competing rule asks for a
   * narrower one than the best rule that arrived first.
   */
  lemma PilotRunsTheDecidedFlow(rules: seq<Rule>, store: seq<PilotRule>, bot: string, t: Ticket, seen: PilotTicket, defaultFlow: Option<FlowType>)
    requires StablySorted(Live(Map(rules, Mirrored)), store, Earlier) && SameQuestion(rules, bot, t, seen)
    ensures var d, mine, first := FlowDecisionFor(rules, t, defaultFlow), FirstMatch(store, bot, seen), FirstBest(rules, t);
            && (d.reason in {Default, Unset} <==> mine == None) && (mine.Some? <==> first.Some?)
            && (mine.Some? ==>
                  && d.flow.Some? && Narrowness(d.flow.value) <= Narrowness(mine.value.flowType)
                  && (d.reason == ByRule ==> mine.value.flowType == d.flow.value)
                  && (mine.value.flowType == d.flow.value <==>
                        forall r | Competes(rules, t, r) :: Narrowness(first.value.flowType) <= Narrowness(r.flowType))
                  && mine.value.flowType == first.value.flowType && Competes(rules, t, first.value)
                  && (d.flow == Some(Gelistirme) ==> mine.value.flowType == Gelistirme)
                  && (d.flow == Some(Duzeltme) ==> mine.value.flowType != Analiz)
                  && (mine.value.flowType != d.flow.value <==>
                        || (mine.value.flowType != Analiz && Asked(rules, t, Analiz))
                        || (mine.value.flowType == Gelistirme && Asked(rules, t, Duzeltme))))
  {
    PilotTakesTheFirstBest(rules, store, bot, t, seen);
    NoMatchIsDefault(rules, t, defaultFlow);
    FirstBestExists(rules, t);
    hide StablySorted, SameQuestion, FirstBest, FirstMatch, FlowDecisionFor, Matches, Best, Stored, Live;
    if exists r :: r in rules && Matches(r, t) {
      var first := FirstBest(rules, t).value;
      StoredKeepsFlow(first);
      BestCompetes(rules, t, first);
      var w := DecisionIsTheNarrowest(rules, t, defaultFlow);
      hide Competes, Heads;
      NarrowestFlow(rules, t, w, first);
      FlowByFlow(rules, t, defaultFlow);
      assert Asked(rules, t, first.flowType);
    }
  }

  lemma NarrowestFlow(rules: seq<Rule>, t: Ticket, w: Rule, first: Rule)
    requires Narrowest(rules, t, w) && Competes(rules, t, first)
    ensures Narrowness(w.flowType) <= Narrowness(first.flowType)
    ensures first.flowType == w.flowType <==> forall r | Competes(rules, t, r) :: Narrowness(first.flowType) <= Narrowness(r.flowType)
  {
    hide Competes;
    assert Narrower(w, first);
  }

  lemma BestCompetes(rules: seq<Rule>, t: Ticket, r: Rule)
    requires Best(rules, t, r)
    ensures Competes(rules, t, r)
  {
    hide Matches;
  }

  lemma HeadIsLeastBest(rules: seq<Rule>, t: Ticket)
    requires exists r :: r in rules && Matches(r, t)
    ensures RuleFor(rules, t).Some? && LeastBest(rules, t, RuleFor(rules, t).value)
  {
    hide Matches;
    NoMatchIsNoRule(rules, t);
    CompetingMeans(rules, t);
    HeadsBeforeAll(rules, t);
    var all := RulesFor(rules, t);
    assert all[0] in all;
  }

  lemma FirstBestExists(rules: seq<Rule>, t: Ticket)
    ensures FirstBest(rules, t).Some? <==> exists r :: r in rules && Matches(r, t)
    ensures FirstBest(rules, t).Some? ==> Best(rules, t, FirstBest(rules, t).value)
  {
    hide Matches, EarlierRule;
    var best := Filter(rules, r => Best(rules, t, r));
    assert best != [] ==> best[0] in best;
    if exists r :: r in rules && Matches(r, t) {
      HeadIsLeastBest(rules, t);
      assert RuleFor(rules, t).value in best;
    }
  }

  lemma StoredKeepsFlow(r: Rule)
    ensures Stored(r).flowType == r.flowType
  {
  }

  const BOTS: Ticket := CONFLICTED.(assignee := Some("bot"))
  const NINTH: Rule := WIDE.(ruleId := 9, assignee := "bot")
  const SECOND: Rule := NARROW.(priority := WIDE.priority, assignee := "bot")

  /** The store lists rules by project and priority only; on a ticket of the bot's, tied rules out of id order then part the two. */
  lemma OutOfIdOrderTheyPart(store: seq<PilotRule>)
    requires StablySorted(Live(Map([NINTH, SECOND], Mirrored)), store, Earlier)
    ensures SameQuestion([NINTH, SECOND], "bot", BOTS, PilotTicket(BOTS.projectKey, BOTS.status, BOTS.issueType))
    ensures RuleFor([NINTH, SECOND], BOTS) == Some(SECOND)
    ensures FirstMatch(store, "bot", PilotTicket(BOTS.projectKey, BOTS.status, BOTS.issueType)) == Some(Stored(NINTH))
    ensures Stored(NINTH).flowType != Stored(SECOND).flowType
  {
    hide StablySorted, Best, Before, Live, Stored, RuleFor, FirstMatch, LeastBest, SameQuestion, DistinctIds;
    var rules := [NINTH, SECOND];
    BothAreBest();
    OfTwo(NINTH, SECOND, r => Best(rules, BOTS, r), Mirrored, Before);
    PilotAgreesExactly(rules, store, "bot", BOTS, PilotTicket(BOTS.projectKey, BOTS.status, BOTS.issueType), NINTH, SECOND);
    StoredKeepsFlow(NINTH);
    StoredKeepsFlow(SECOND);
  }

  lemma BothAreBest()
    ensures var rules := [NINTH, SECOND];
            && Best(rules, BOTS, NINTH) && Best(rules, BOTS, SECOND) && LeastBest(rules, BOTS, SECOND) && DistinctIds(rules)
            && SameQuestion(rules, "bot", BOTS, PilotTicket(BOTS.projectKey, BOTS.status, BOTS.issueType))
  {
    BotIsTrimmed();
    var rules := [NINTH, SECOND];
    assert rules[0] == NINTH && rules[1] == SECOND;
    hide Trim;
    assert forall r | r in rules :: r == NINTH || r == SECOND;
    assert Matches(NINTH, BOTS) && Matches(SECOND, BOTS);
    hide Matches;
  }

  lemma BotIsTrimmed()
    ensures Trim("bot") == "bot"
  {
  }

  // ------------------------------------------------------------- discovery

  ghost predicate Found(clauses: seq<Clause>, t: PilotTicket) {
    t.status.Some? && Listed(clauses, t.projectKey, t.status.value)
  }

  /**
   * Of the bot's tickets, a query narrowed by status rules finds exactly those
   * that some status rule classifies. What it finds is always classified.
   */
  lemma FoundExactlyByStatusRules(rules: seq<PilotRule>, bot: string, clauses: seq<Clause>, t: PilotTicket)
    requires clauses != [] // none would stand for the fallback query
    requires forall p, s :: Listed(clauses, p, s) <==> exists r :: r in rules && Narrows(r, bot) && r.projectKey == p && r.matchValue == s
    ensures Found(clauses, t) <==> exists r :: r in rules && r.matchKind.Status? && Classifies(r, bot, t)
    ensures Found(clauses, t) ==> FirstMatch(rules, bot, t).Some?
  {
    if r :| r in rules && r.matchKind.Status? && Classifies(r, bot, t) {
      assert Narrows(r, bot) && r.projectKey == t.projectKey && r.matchValue == t.status.value;
    }
    if Found(clauses, t) {
      var r :| r in rules && Narrows(r, bot) && r.projectKey == t.projectKey && r.matchValue == t.status.value;
      assert Classifies(r, bot, t);
    }
  }
}
