/**
 * The default rules written when a project is connected:
 * apps/bff/src/listening-seed.ts, with several seeds racing over one store whose
 * unique index admits one rule per trigger.
 */
module ListeningSeed {
  import opened Wrappers
  import opened Sequences
  import opened Texts
  import opened FlowDecision

  datatype IssueTypeInfo = IssueTypeInfo(name: string, subtask: bool)

  /** What one seed is for: the project, and the account its rules listen for. */
  datatype Target = Target(project: string, assignee: string)

  /**
   * A running `seedDefaultRules`; `existing` is the list it read when it began.
   * `since` is history: how many rows had been taken away by then.
   */
  datatype Seeder = Seeder(
    at: Target,
    types: seq<IssueTypeInfo>,
    done: nat,
    existing: seq<Rule>,
    seen: set<string>,
    skipped: nat,
    created: seq<Rule>,
    failed: bool,
    since: nat)

  /**
   * `gone` and `made` are history no branch reads: the rows that were removed or
   * whose trigger was changed, and the ids an administrator has written.
   */
  datatype World = World(rows: seq<Rule>, seeders: map<nat, Seeder>, gone: seq<Rule>, made: set<RuleId>)

  /** A seed begins or takes its next turn; an administrator writes or removes a rule. */
  datatype Event =
    | Begin(who: nat, at: Target, types: seq<IssueTypeInfo>)
    | Next(who: nat, id: RuleId, fault: bool)
    | Write(record: Rule)
    | Remove(id: RuleId)

  // ---------------------------------------------------------------- the code

  /** `toLocaleLowerCase("tr-TR")`, as far as it can produce a bug-type name. */
  function LowerTr(s: string): string {
    if s == "" then ""
    else if s[0] == 'I' && |s| > 1 && s[1] == '\U{0307}' then "i" + LowerTr(s[2..])
    else [LowerTrChar(s[0])] + LowerTr(s[1..])
  }

  function LowerTrChar(c: char): char {
    if c == 'I' then '\U{0131}'
    else if c == '\U{0130}' then 'i'
    else if 'A' <= c <= 'Z' then c - 'A' + 'a'
    else c
  }

  predicate IsBugLike(name: string) {
    LowerTr(Trim(name)) in {"bug", "hata", "defect", "ar\U{0131}za", "ariza"}
  }

  predicate SameTrigger(a: Rule, b: Rule) {
    a.projectKey == b.projectKey && a.assignee == b.assignee && a.matchKind == b.matchKind && a.matchValue == b.matchValue
  }

  predicate HasTrigger(r: Rule, at: Target, name: string) {
    r.projectKey == at.project && r.assignee == at.assignee && r.matchKind.IssueType? && r.matchValue == name
  }

  predicate Taken(rows: seq<Rule>, at: Target, name: string) {
    exists r :: r in rows && HasTrigger(r, at, name)
  }

  function DefaultRule(at: Target, name: string, id: RuleId): Rule {
    var flow := if IsBugLike(name) then Duzeltme else Analiz;
    Rule(id, at.project, at.assignee, IssueType, name, flow, if flow.Duzeltme? then 50 else 100, true, None, None, None)
  }

  predicate Eligible(i: IssueTypeInfo) {
    Trim(i.name) != "" && !i.subtask
  }

  function Names(types: seq<IssueTypeInfo>): set<string> {
    set i | i in types && Eligible(i) :: Trim(i.name)
  }

  /** Where the rule of that id stands, or the length. */
  function IndexOf(rows: seq<Rule>, id: RuleId): (i: nat)
    ensures i <= |rows| && (i < |rows| ==> rows[i].ruleId == id) && forall k | 0 <= k < i :: rows[k].ruleId != id
  {
    if rows == [] || rows[0].ruleId == id then 0 else 1 + IndexOf(rows[1..], id)
  }

  /** `store.put`: create or replace by id, refused when another rule has the trigger. */
  function Put(rows: seq<Rule>, record: Rule): Option<seq<Rule>> {
    if exists r :: r in rows && SameTrigger(r, record) && r.ruleId != record.ruleId then None
    else
      var i := IndexOf(rows, record.ruleId);
      Some(if i < |rows| then rows[i := record] else rows + [record])
  }

  function Without(rows: seq<Rule>, id: RuleId): seq<Rule> {
    var i := IndexOf(rows, id);
    if i < |rows| then rows[..i] + rows[i + 1..] else rows
  }

  /** The row of that id, unless `record` keeps its trigger. */
  function Leaving(rows: seq<Rule>, id: RuleId, record: Option<Rule>): seq<Rule> {
    var i := IndexOf(rows, id);
    if i == |rows| || (record.Some? && SameTrigger(record.value, rows[i])) then [] else [rows[i]]
  }

  /** One turn of the loop. */
  function Advance(s: Seeder, rows: seq<Rule>, id: RuleId, fault: bool): (Seeder, seq<Rule>)
    requires s.done < |s.types|
  {
    var issueType := s.types[s.done];
    var name := Trim(issueType.name);
    var next := s.(done := s.done + 1);
    if name == "" || issueType.subtask || name in s.seen then (next, rows)
    else if Taken(s.existing, s.at, name) then (next.(seen := s.seen + {name}, skipped := s.skipped + 1), rows)
    else if fault then (s.(failed := true), rows)
    else
      var record := DefaultRule(s.at, name, id);
      match Put(rows, record)
      case None => (next.(seen := s.seen + {name}, skipped := s.skipped + 1), rows)
      case Some(more) => (next.(seen := s.seen + {name}, created := s.created + [record]), more)
  }

  predicate Running(s: Seeder) {
    !s.failed && s.done < |s.types|
  }

  predicate Finished(s: Seeder) {
    !s.failed && s.done == |s.types|
  }

  /** Random ids never repeat, so an event that would draw a used one is no step. */
  ghost predicate Drawn(w: World, id: RuleId) {
    exists r :: r in w.rows + w.gone && r.ruleId == id
  }

  ghost function Step(w: World, e: Event): World {
    match e
    case Begin(who, at, types) =>
      if who in w.seeders then w
      else w.(seeders := w.seeders[who := Started(at, types, w.rows, |w.gone|)])
    case Next(who, id, fault) =>
      if who !in w.seeders || !Running(w.seeders[who]) || Drawn(w, id) then w
      else
        var (s, rows) := Advance(w.seeders[who], w.rows, id, fault);
        w.(rows := rows, seeders := w.seeders[who := s])
    case Write(record) =>
      (match Put(w.rows, record)
       case None => w
       case Some(rows) =>
         w.(rows := rows, gone := w.gone + Leaving(w.rows, record.ruleId, Some(record)), made := w.made + {record.ruleId}))
    case Remove(id) => w.(rows := Without(w.rows, id), gone := w.gone + Leaving(w.rows, id, None))
  }

  function Started(at: Target, types: seq<IssueTypeInfo>, rows: seq<Rule>, since: nat): Seeder {
    Seeder(at, types, 0, rows, {}, 0, [], false, since)
  }

  ghost function Run(w: World, schedule: seq<Event>): World
    decreases schedule
  {
    if schedule == [] then w else Run(Step(w, schedule[0]), schedule[1..])
  }

  // -------------------------------------------------------------- invariants

  /** The unique index, and ids. */
  ghost predicate OnePerTrigger(rows: seq<Rule>) {
    forall i, j | 0 <= i < j < |rows| :: !SameTrigger(rows[i], rows[j]) && rows[i].ruleId != rows[j].ruleId
  }

  ghost predicate Holds(rows: seq<Rule>, record: Rule) {
    exists i :: 0 <= i < |rows| && rows[i].ruleId == record.ruleId && SameTrigger(rows[i], record)
  }

  /** `rows` went on to become `later`: every id and trigger in it can still be found. */
  ghost predicate Kept(rows: seq<Rule>, later: seq<Rule>) {
    forall r | r in rows :: Holds(later, r)
  }

  /** The rules there are, and those taken away since. */
  function Known(w: World, since: nat): seq<Rule> {
    w.rows + if since <= |w.gone| then w.gone[since..] else []
  }

  /** What there is, and what there was since any earlier time, can still be found. */
  ghost predicate Remembers(w: World, next: World) {
    && |w.gone| <= |next.gone|
    && forall since: nat | since <= |w.gone| :: Kept(Known(w, since), Known(next, since))
  }

  /** What a running seed may rely on, `rows` being the rules there are or were. */
  ghost predicate SeederInv(rows: seq<Rule>, s: Seeder) {
    && s.done <= |s.types|
    && s.seen == Names(s.types[..s.done])
    && |s.created| + s.skipped == |s.seen|
    && (forall n | n in s.seen :: Taken(rows, s.at, n))
    && (forall k | 0 <= k < |s.created| :: Holds(rows, s.created[k]))
    && (forall k | 0 <= k < |s.created| :: s.created[k].matchValue in s.seen && s.created[k] == DefaultRule(s.at, s.created[k].matchValue, s.created[k].ruleId))
    && (forall n | Taken(s.existing, s.at, n) :: Taken(rows, s.at, n))
  }

  /** No row was created by two seeds. */
  ghost predicate OneCreator(w: World) {
    forall a, b, j, k | a in w.seeders && b in w.seeders && 0 <= j < |w.seeders[a].created| && 0 <= k < |w.seeders[b].created|
                        && w.seeders[a].created[j].ruleId == w.seeders[b].created[k].ruleId :: a == b && j == k
  }

  /** Every row was there before, was created by a seed, or was written by an administrator. */
  ghost predicate Accounted(w: World, base: set<RuleId>) {
    forall r | r in w.rows :: r.ruleId in base || r.ruleId in w.made || Reported(w, r.ruleId)
  }

  ghost predicate Reported(w: World, id: RuleId) {
    exists a, k :: a in w.seeders && 0 <= k < |w.seeders[a].created| && w.seeders[a].created[k].ruleId == id
  }

  ghost predicate Inv(w: World) {
    && OnePerTrigger(w.rows)
    && (forall who | who in w.seeders :: w.seeders[who].since <= |w.gone| && SeederInv(Known(w, w.seeders[who].since), w.seeders[who]))
    && OneCreator(w)
  }

  lemma NamesGrow(types: seq<IssueTypeInfo>, k: nat)
    requires k < |types|
    ensures Names(types[..k + 1]) == Names(types[..k]) + if Eligible(types[k]) then {Trim(types[k].name)} else {}
  {
    hide Trim;
    assert types[..k + 1] == types[..k] + [types[k]];
  }

  lemma HoldsStays(rows: seq<Rule>, later: seq<Rule>, record: Rule)
    requires Kept(rows, later) && Holds(rows, record)
    ensures Holds(later, record)
  {
    var i :| 0 <= i < |rows| && rows[i].ruleId == record.ruleId && SameTrigger(rows[i], record);
    assert Holds(later, rows[i]);
    var j :| 0 <= j < |later| && later[j].ruleId == rows[i].ruleId && SameTrigger(later[j], rows[i]);
    assert later[j].ruleId == record.ruleId;
  }

  lemma TakenStays(rows: seq<Rule>, later: seq<Rule>, at: Target, n: string)
    requires Kept(rows, later) && Taken(rows, at, n)
    ensures Taken(later, at, n)
  {
    var r :| r in rows && HasTrigger(r, at, n);
    assert Holds(later, r);
    var j :| 0 <= j < |later| && later[j].ruleId == r.ruleId && SameTrigger(later[j], r);
    assert later[j] in later && HasTrigger(later[j], at, n);
  }

  lemma KeptKeeps(rows: seq<Rule>, later: seq<Rule>, s: Seeder)
    requires Kept(rows, later) && SeederInv(rows, s)
    ensures SeederInv(later, s)
  {
    hide Names, DefaultRule, Kept, Taken, Holds;
    forall n | Taken(rows, s.at, n) ensures Taken(later, s.at, n) {
      TakenStays(rows, later, s.at, n);
    }
    forall k | 0 <= k < |s.created| ensures Holds(later, s.created[k]) {
      HoldsStays(rows, later, s.created[k]);
    }
  }

  /** A row still there is found. */
  lemma StillHolds(rows: seq<Rule>, r: Rule)
    requires r in rows
    ensures Holds(rows, r)
  {
    var i :| 0 <= i < |rows| && rows[i] == r;
    assert rows[i].ruleId == r.ruleId;
  }

  lemma SupersetKeeps(rows: seq<Rule>, later: seq<Rule>)
    requires forall r | r in rows :: r in later
    ensures Kept(rows, later)
  {
    hide Holds;
    forall r | r in rows ensures Holds(later, r) {
      StillHolds(later, r);
    }
  }

  /** Writing a rule over the row of its id. */
  lemma WriteKeeps(rows: seq<Rule>, gone: seq<Rule>, record: Rule)
    requires OnePerTrigger(rows) && Put(rows, record).Some?
    ensures OnePerTrigger(Put(rows, record).value)
    ensures Kept(rows + gone, Put(rows, record).value + (gone + Leaving(rows, record.ruleId, Some(record))))
  {
    var i := IndexOf(rows, record.ruleId);
    var more := Put(rows, record).value;
    PutIsUnique(rows, record);
    var later := more + (gone + Leaving(rows, record.ruleId, Some(record)));
    hide OnePerTrigger, IndexOf, Put;
    forall r | r in rows + gone ensures Holds(later, r) {
      if i < |rows| && r == rows[i] && SameTrigger(record, r) {
        assert later[i] == record;
      } else {
        var k :| 0 <= k < |rows + gone| && (rows + gone)[k] == r && (i < |rows| && k == i ==> r == rows[i]);
        assert r in later by {
          StaysListed(rows, gone, record, r);
        }
        StillHolds(later, r);
      }
    }
  }

  lemma StaysListed(rows: seq<Rule>, gone: seq<Rule>, record: Rule, r: Rule)
    requires Put(rows, record).Some? && r in rows + gone
    requires var i := IndexOf(rows, record.ruleId); !(i < |rows| && r == rows[i] && SameTrigger(record, r))
    ensures r in Put(rows, record).value + (gone + Leaving(rows, record.ruleId, Some(record)))
  {
    var i, more := IndexOf(rows, record.ruleId), Put(rows, record).value;
    if r in rows {
      var k :| 0 <= k < |rows| && rows[k] == r;
      assert k == i || more[k] == r;
    }
  }

  lemma PutIsUnique(rows: seq<Rule>, record: Rule)
    requires OnePerTrigger(rows) && Put(rows, record).Some?
    ensures OnePerTrigger(Put(rows, record).value)
  {
    var i, more := IndexOf(rows, record.ruleId), Put(rows, record).value;
    hide IndexOf;
    forall a, b | 0 <= a < b < |more| ensures !SameTrigger(more[a], more[b]) && more[a].ruleId != more[b].ruleId {
      if a != i && b != i {
        assert !SameTrigger(rows[a], rows[b]) && rows[a].ruleId != rows[b].ruleId;
      } else {
        var other := if a == i then b else a;
        assert rows[other] in rows && rows[other].ruleId != record.ruleId by {
          if i < |rows| {
            assert rows[a].ruleId != rows[b].ruleId;
          }
        }
      }
    }
  }

  lemma RemoveKeeps(rows: seq<Rule>, gone: seq<Rule>, id: RuleId)
    requires OnePerTrigger(rows)
    ensures OnePerTrigger(Without(rows, id))
    ensures Kept(rows + gone, Without(rows, id) + (gone + Leaving(rows, id, None)))
  {
    var i, left := IndexOf(rows, id), Without(rows, id);
    var later := left + (gone + Leaving(rows, id, None));
    forall r | r in rows + gone ensures r in later {
      if r in rows {
        var k :| 0 <= k < |rows| && rows[k] == r;
        assert k == i || left[if k < i then k else k - 1] == r;
      }
    }
    SupersetKeeps(rows + gone, later);
  }

  /** What one turn does: nothing to the rows, or one default rule at a free trigger. */
  lemma AdvanceEffect(s: Seeder, rows: seq<Rule>, id: RuleId, fault: bool)
    requires s.done < |s.types| && s.seen == Names(s.types[..s.done]) && OnePerTrigger(rows)
    requires !exists r :: r in rows && r.ruleId == id
    ensures var (next, later) := Advance(s, rows, id, fault);
            var name := Trim(s.types[s.done].name);
            && next.at == s.at && next.types == s.types && next.existing == s.existing
            && OnePerTrigger(later)
            && next.seen == Names(s.types[..next.done]) && s.seen <= next.seen && next.done <= |s.types| && next.done >= s.done
            && ((later == rows && next.created == s.created && next.skipped - s.skipped == |next.seen| - |s.seen|
                 && forall n | n in next.seen && n !in s.seen :: Taken(s.existing, s.at, n) || Taken(rows, s.at, n))
                || (later == rows + [DefaultRule(s.at, name, id)] && next.created == s.created + [DefaultRule(s.at, name, id)]
                    && next.skipped == s.skipped && name !in s.seen && next.seen == s.seen + {name} && |next.seen| == |s.seen| + 1
                    && !Taken(rows, s.at, name) && !Taken(s.existing, s.at, name)))
  {
    hide Trim, Names, IsBugLike, OnePerTrigger, SameTrigger, HasTrigger, Taken, Put;
    NamesGrow(s.types, s.done);
    var name := Trim(s.types[s.done].name);
    if Eligible(s.types[s.done]) && name !in s.seen {
      assert |s.seen + {name}| == |s.seen| + 1;
      PutDefault(rows, s.at, name, id);
    } else if Eligible(s.types[s.done]) {
      assert s.seen + {name} == s.seen;
    }
  }

  lemma PutDefault(rows: seq<Rule>, at: Target, name: string, id: RuleId)
    requires OnePerTrigger(rows) && !exists r :: r in rows && r.ruleId == id
    ensures var record := DefaultRule(at, name, id);
            && (Put(rows, record).None? <==> Taken(rows, at, name))
            && (Put(rows, record).Some? ==> Put(rows, record).value == rows + [record] && OnePerTrigger(rows + [record]))
  {
    hide IsBugLike;
    var record := DefaultRule(at, name, id);
    assert forall r :: HasTrigger(r, at, name) <==> SameTrigger(r, record);
    assert IndexOf(rows, id) == |rows|;
  }

  lemma AdvanceKeepsSeeder(s: Seeder, rows: seq<Rule>, gone: seq<Rule>, id: RuleId, fault: bool)
    requires s.done < |s.types| && SeederInv(rows + gone, s) && OnePerTrigger(rows)
    requires !exists r :: r in rows && r.ruleId == id
    ensures var (next, later) := Advance(s, rows, id, fault);
            SeederInv(later + gone, next) && Kept(rows + gone, later + gone) && OnePerTrigger(later)
  {
    hide Trim, Names, IsBugLike, Advance, Taken, Holds, Kept;
    var (next, later) := Advance(s, rows, id, fault);
    AdvanceEffect(s, rows, id, fault);
    SupersetKeeps(rows + gone, later + gone);
    KeptKeeps(rows + gone, later + gone, s);
    if later != rows {
      AppendedHolds(rows, gone, s.at, Trim(s.types[s.done].name), id);
    }
    forall n | n in next.seen ensures Taken(later + gone, s.at, n) {
      if n !in s.seen && later == rows && Taken(rows, s.at, n) {
        SupersetKeeps(rows, rows + gone);
        TakenStays(rows, rows + gone, s.at, n);
      }
    }
  }

  lemma AppendedHolds(rows: seq<Rule>, gone: seq<Rule>, at: Target, name: string, id: RuleId)
    ensures var record := DefaultRule(at, name, id);
            Holds(rows + [record] + gone, record) && Taken(rows + [record] + gone, at, name)
  {
    hide IsBugLike;
    var record := DefaultRule(at, name, id);
    var later := rows + [record] + gone;
    assert later[|rows|] == record && record in later && HasTrigger(record, at, name);
  }

  lemma StepKeepsInv(w: World, e: Event)
    requires Inv(w)
    ensures Inv(Step(w, e)) && Remembers(w, Step(w, e))
  {
    match e
    case Begin(who, at, types) => BeginKeepsInv(w, who, at, types);
    case Next(who, id, fault) => NextKeepsInv(w, who, id, fault);
    case _ => EditKeepsInv(w, e);
  }

  lemma SameRowsRemember(w: World, next: World)
    requires next.rows == w.rows && next.gone == w.gone
    ensures Remembers(w, next)
  {
    forall since: nat | since <= |w.gone| ensures Kept(Known(w, since), Known(next, since)) {
      SupersetKeeps(Known(w, since), Known(next, since));
    }
  }

  lemma BeginKeepsInv(w: World, who: nat, at: Target, types: seq<IssueTypeInfo>)
    requires Inv(w)
    ensures var next := Step(w, Begin(who, at, types)); Inv(next) && Remembers(w, next)
  {
    StartedHolds(w.rows, at, types, |w.gone|);
    hide SeederInv, OnePerTrigger, Kept, Advance, Put, Without, Leaving, Drawn, OneCreator;
    var next := Step(w, Begin(who, at, types));
    SameRowsRemember(w, next);
    BeginAdds(w, who, at, types);
    hide Step, Remembers, Started;
    forall a | a in next.seeders ensures SeederInv(Known(next, next.seeders[a].since), next.seeders[a]) {
      if a !in w.seeders {
        assert w.rows + w.gone[|w.gone|..] == w.rows;
      }
    }
    BeginKeepsOneCreator(w, next);
  }

  lemma BeginAdds(w: World, who: nat, at: Target, types: seq<IssueTypeInfo>)
    ensures var next, begun := Step(w, Begin(who, at, types)), Started(at, types, w.rows, |w.gone|);
            && next.rows == w.rows && next.gone == w.gone && begun.created == [] && begun.since == |w.gone|
            && forall a | a in next.seeders :: (a in w.seeders && next.seeders[a] == w.seeders[a]) || (a !in w.seeders && next.seeders[a] == begun)
  {
    hide Advance, Put, Without, Leaving, Drawn;
  }

  lemma BeginKeepsOneCreator(w: World, next: World)
    requires OneCreator(w)
    requires forall a | a in next.seeders :: (a in w.seeders && next.seeders[a] == w.seeders[a]) || next.seeders[a].created == []
    ensures OneCreator(next)
  {
  }

  lemma StartedHolds(rows: seq<Rule>, at: Target, types: seq<IssueTypeInfo>, since: nat)
    ensures SeederInv(rows, Started(at, types, rows, since))
  {
    assert Names(types[..0]) == {};
  }

  lemma NextKeepsInv(w: World, who: nat, id: RuleId, fault: bool)
    requires Inv(w)
    ensures var next := Step(w, Next(who, id, fault)); Inv(next) && Remembers(w, next)
  {
    hide SeederInv, Advance, OnePerTrigger, Names, DefaultRule, Holds, Taken, OneCreator, Kept;
    var next := Step(w, Next(who, id, fault));
    if who in w.seeders && Running(w.seeders[who]) && !Drawn(w, id) {
      OfInv(w, who);
      assert forall r :: r in w.rows ==> r in w.rows + w.gone;
      var since := w.seeders[who].since;
      AdvanceKeepsSeeder(w.seeders[who], w.rows, w.gone[since..], id, fault);
      AdvanceKeepsSince(w.seeders[who], w.rows, id, fault);
      NextKeepsOneCreator(w, who, id, fault);
      AdvanceRemembers(w, next, who, id, fault);
      OthersKeep(w, next, who);
    } else {
      SameRowsRemember(w, next);
    }
  }

  lemma AdvanceKeepsSince(s: Seeder, rows: seq<Rule>, id: RuleId, fault: bool)
    requires s.done < |s.types|
    ensures Advance(s, rows, id, fault).0.since == s.since
  {
    hide Trim, IsBugLike, Put, Taken;
  }

  lemma AdvanceRemembers(w: World, next: World, who: nat, id: RuleId, fault: bool)
    requires who in w.seeders && w.seeders[who].done < |w.seeders[who].types|
    requires var s := w.seeders[who]; s.seen == Names(s.types[..s.done]) && OnePerTrigger(w.rows)
    requires !exists r :: r in w.rows && r.ruleId == id
    requires next.gone == w.gone && next.rows == Advance(w.seeders[who], w.rows, id, fault).1
    ensures Remembers(w, next)
  {
    hide Advance, OnePerTrigger, Kept, Names, Trim, Taken;
    AdvanceEffect(w.seeders[who], w.rows, id, fault);
    forall since: nat | since <= |w.gone| ensures Kept(Known(w, since), Known(next, since)) {
      SupersetKeeps(Known(w, since), Known(next, since));
    }
  }

  lemma OthersKeep(w: World, next: World, who: nat)
    requires Inv(w) && Remembers(w, next)
    requires forall a | a in next.seeders && a != who :: a in w.seeders && next.seeders[a] == w.seeders[a]
    ensures forall a | a in next.seeders && a != who ::
              next.seeders[a].since <= |next.gone| && SeederInv(Known(next, next.seeders[a].since), next.seeders[a])
  {
    hide SeederInv, Kept, OnePerTrigger, OneCreator, Known;
    forall a | a in next.seeders && a != who ensures SeederInv(Known(next, next.seeders[a].since), next.seeders[a]) {
      KeptKeeps(Known(w, w.seeders[a].since), Known(next, w.seeders[a].since), w.seeders[a]);
    }
  }

  lemma EditKeepsInv(w: World, e: Event)
    requires Inv(w) && (e.Write? || e.Remove?)
    ensures Inv(Step(w, e)) && Remembers(w, Step(w, e))
  {
    var next := Step(w, e);
    EditRemembers(w, e);
    if e.Remove? {
      RemoveKeeps(w.rows, [], e.id);
    } else if next != w {
      WriteKeeps(w.rows, [], e.record);
    }
    hide SeederInv, Put, Without, Leaving, OnePerTrigger, Kept, Known;
    forall a | a in next.seeders ensures SeederInv(Known(next, next.seeders[a].since), next.seeders[a]) {
      KeptKeeps(Known(w, w.seeders[a].since), Known(next, w.seeders[a].since), w.seeders[a]);
    }
  }

  lemma EditRemembers(w: World, e: Event)
    requires OnePerTrigger(w.rows) && (e.Write? || e.Remove?)
    ensures Remembers(w, Step(w, e))
  {
    hide Kept, OnePerTrigger, Put, Without, Leaving;
    var next := Step(w, e);
    if e.Write? && Put(w.rows, e.record).None? {
      SameRowsRemember(w, next);
    } else {
      forall since: nat | since <= |w.gone| ensures Kept(Known(w, since), Known(next, since)) {
        var more := next.gone[|w.gone|..];
        assert next.gone == w.gone + more;
        assert next.gone[since..] == w.gone[since..] + more;
        if e.Remove? {
          RemoveKeeps(w.rows, w.gone[since..], e.id);
        } else {
          WriteKeeps(w.rows, w.gone[since..], e.record);
        }
      }
    }
  }

  lemma NextKeepsOneCreator(w: World, who: nat, id: RuleId, fault: bool)
    requires Inv(w) && who in w.seeders && Running(w.seeders[who]) && !Drawn(w, id)
    ensures OneCreator(Step(w, Next(who, id, fault)))
  {
    hide Names, Advance, Taken, HasTrigger, IsBugLike, Kept, OnePerTrigger, SameTrigger;
    var next := Step(w, Next(who, id, fault));
    assert forall r :: r in w.rows ==> r in w.rows + w.gone;
    AdvanceEffect(w.seeders[who], w.rows, id, fault);
    forall a, k | a in w.seeders && 0 <= k < |w.seeders[a].created| ensures w.seeders[a].created[k].ruleId != id {
      var since := w.seeders[a].since;
      assert Holds(Known(w, since), w.seeders[a].created[k]);
      assert forall r :: r in Known(w, since) ==> r in w.rows + w.gone;
    }
  }

  lemma {:induction false} RunKeepsInv(w: World, schedule: seq<Event>)
    requires Inv(w)
    ensures Inv(Run(w, schedule)) && Remembers(w, Run(w, schedule))
    decreases schedule
  {
    hide Inv, Step, Remembers;
    if schedule != [] {
      StepKeepsInv(w, schedule[0]);
      RunKeepsInv(Step(w, schedule[0]), schedule[1..]);
      RemembersTwice(w, Step(w, schedule[0]), Run(w, schedule));
    } else {
      SameRowsRemember(w, w);
    }
  }

  lemma RemembersTwice(a: World, b: World, c: World)
    requires Remembers(a, b) && Remembers(b, c)
    ensures Remembers(a, c)
  {
    hide Kept, Known;
    forall since: nat | since <= |a.gone| ensures Kept(Known(a, since), Known(c, since)) {
      KeptTwice(Known(a, since), Known(b, since), Known(c, since));
    }
  }

  lemma KeptTwice(a: seq<Rule>, b: seq<Rule>, c: seq<Rule>)
    requires Kept(a, b) && Kept(b, c)
    ensures Kept(a, c)
  {
    hide Holds;
    forall r | r in a ensures Holds(c, r) {
      HoldsStays(b, c, r);
    }
  }

  lemma CreatedStays(w: World, e: Event, a: nat)
    requires Inv(w) && a in w.seeders
    ensures a in Step(w, e).seeders && w.seeders[a].created <= Step(w, e).seeders[a].created
  {
    hide Names, Advance, Taken, HasTrigger, IsBugLike, Trim, OnePerTrigger, OneCreator, Kept;
    if e.Next? && e.who == a {
      assert forall r :: r in w.rows ==> r in w.rows + w.gone;
      if Step(w, e) != w {
        AdvanceEffect(w.seeders[a], w.rows, e.id, e.fault);
      }
    } else {
      OthersLeaveAlone(w, e, a);
    }
  }

  lemma ReportsStay(w: World, e: Event)
    requires Inv(w)
    ensures forall id | Reported(w, id) :: Reported(Step(w, e), id)
  {
    var next := Step(w, e);
    hide Inv, Step;
    forall id | Reported(w, id) ensures Reported(next, id) {
      var a, k :| a in w.seeders && 0 <= k < |w.seeders[a].created| && w.seeders[a].created[k].ruleId == id;
      CreatedStays(w, e, a);
      assert next.seeders[a].created[k].ruleId == id;
    }
  }

  lemma NewRowIsReported(w: World, e: Event, r: Rule)
    requires Inv(w) && e.Next? && r in Step(w, e).rows && r !in w.rows
    ensures Reported(Step(w, e), r.ruleId)
  {
    hide Names, Advance, Taken, HasTrigger, IsBugLike, Trim, OnePerTrigger, OneCreator;
    assert forall q :: q in w.rows ==> q in w.rows + w.gone;
    AdvanceEffect(w.seeders[e.who], w.rows, e.id, e.fault);
    var mine := Step(w, e).seeders[e.who].created;
    assert mine[|w.seeders[e.who].created|].ruleId == r.ruleId;
  }

  lemma StepKeepsAccounted(w: World, e: Event, base: set<RuleId>)
    requires Inv(w) && Accounted(w, base)
    ensures Accounted(Step(w, e), base)
  {
    var next := Step(w, e);
    ReportsStay(w, e);
    hide Inv, Advance, Reported, SameTrigger;
    forall r | r in next.rows ensures r.ruleId in base || r.ruleId in next.made || Reported(next, r.ruleId) {
      if r in w.rows {
        assert r.ruleId in base || r.ruleId in w.made || Reported(w, r.ruleId);
      } else if e.Next? {
        NewRowIsReported(w, e, r);
      } else {
        assert e.Write? && r == e.record;
      }
    }
  }

  lemma {:induction false} RunKeepsAccounted(w: World, schedule: seq<Event>, base: set<RuleId>)
    requires Inv(w) && Accounted(w, base)
    ensures Accounted(Run(w, schedule), base)
    decreases schedule
  {
    if schedule != [] {
      hide Inv, Step, Accounted;
      StepKeepsInv(w, schedule[0]);
      StepKeepsAccounted(w, schedule[0], base);
      RunKeepsAccounted(Step(w, schedule[0]), schedule[1..], base);
    }
  }

  // ------------------------------------------------------------ main results

  /** A store that has seen nothing yet but these rows. */
  function Opened(rows: seq<Rule>): World {
    World(rows, map[], [], {})
  }

  function Ids(rows: seq<Rule>): set<RuleId> {
    set r | r in rows :: r.ruleId
  }

  /**
   * However seeds, their failures and an administrator's edits, retargetings and
   * removals interleave: a seed that finished has counted every distinct eligible
   * name exactly once, and each of those names has exactly one rule, unless an
   * administrator took a rule of that trigger away after step `n`, at which the
   * seed began. Every row was there before, is the administrator's, or was reported
   * as created, by one seed only.
   */
  lemma SeedsLeaveOneRulePerName(rows: seq<Rule>, schedule: seq<Event>, who: nat) returns (n: nat)
    requires OnePerTrigger(rows)
    requires var w := Run(Opened(rows), schedule); who in w.seeders && Finished(w.seeders[who])
    ensures n < |schedule| && schedule[n].Begin? && schedule[n].who == who
    ensures var w, began := Run(Opened(rows), schedule), |Run(Opened(rows), schedule[..n]).gone|;
            var s := w.seeders[who];
            && began <= |w.gone| && |s.created| + s.skipped == |Names(s.types)|
            && (forall name | name in Names(s.types) :: Taken(w.rows, s.at, name) || Taken(w.gone[began..], s.at, name))
            && (forall name, i, j | 0 <= i < |w.rows| && 0 <= j < |w.rows| && HasTrigger(w.rows[i], s.at, name) && HasTrigger(w.rows[j], s.at, name) :: i == j)
            && (forall k | 0 <= k < |s.created| :: s.created[k].matchValue in Names(s.types) && s.created[k].flowType in {Analiz, Duzeltme})
            && (forall k | 0 <= k < |s.created| :: Holds(w.rows, s.created[k]) || Holds(w.gone[began..], s.created[k]))
    ensures var w := Run(Opened(rows), schedule);
            OneCreator(w) && Accounted(w, Ids(rows)) && forall r | r in rows :: Holds(w.rows, r) || Holds(w.gone, r)
  {
    n := BeganAt(Opened(rows), schedule, who);
    OpenedHolds(rows);
    RunKeepsInv(Opened(rows), schedule);
    RunKeepsAccounted(Opened(rows), schedule, Ids(rows));
    var w := Run(Opened(rows), schedule);
    var s := w.seeders[who];
    assert s.types[..s.done] == s.types;
    OneRuleEach(w, s.at);
    hide Run, Names, IsBugLike, Accounted, OneCreator, OnePerTrigger, SameTrigger, HasTrigger;
    forall r | Holds(Known(w, s.since), r) ensures Holds(w.rows, r) || Holds(w.gone[s.since..], r) {
      HeldInEither(w.rows, w.gone[s.since..], r);
    }
    forall name | Taken(Known(w, s.since), s.at, name) ensures Taken(w.rows, s.at, name) || Taken(w.gone[s.since..], s.at, name) {
      var r :| r in Known(w, s.since) && HasTrigger(r, s.at, name);
    }
    assert Known(Opened(rows), 0) == rows && w.gone[0..] == w.gone;
    forall r | r in rows ensures Holds(w.rows, r) || Holds(w.gone, r) {
      assert Holds(Known(w, 0), r);
      HeldInEither(w.rows, w.gone, r);
    }
  }

  lemma StepKeepsTheTime(w: World, e: Event, who: nat)
    requires who in Step(w, e).seeders
    ensures var s := Step(w, e).seeders[who];
            if who in w.seeders then s.since == w.seeders[who].since
            else e.Begin? && e.who == who && s.since == |w.gone|
  {
    hide IsBugLike, Trim, Put, Taken, Drawn;
  }

  lemma SeedersStay(w: World, e: Event, who: nat)
    requires who in w.seeders
    ensures who in Step(w, e).seeders
  {
    hide Advance, Put, Drawn;
  }

  lemma {:induction false} TimeStays(w: World, schedule: seq<Event>, who: nat)
    requires who in w.seeders
    ensures who in Run(w, schedule).seeders && Run(w, schedule).seeders[who].since == w.seeders[who].since
    decreases schedule
  {
    if schedule != [] {
      SeedersStay(w, schedule[0], who);
      StepKeepsTheTime(w, schedule[0], who);
      hide Step;
      TimeStays(Step(w, schedule[0]), schedule[1..], who);
    }
  }

  /** The step at which a seed began, and what had been taken away by then. */
  lemma {:induction false} BeganAt(w: World, schedule: seq<Event>, who: nat) returns (n: nat)
    requires who !in w.seeders && who in Run(w, schedule).seeders
    ensures n < |schedule| && schedule[n].Begin? && schedule[n].who == who
    ensures Run(w, schedule).seeders[who].since == |Run(w, schedule[..n]).gone|
    decreases schedule
  {
    var next := Step(w, schedule[0]);
    if who in next.seeders {
      n := 0;
      assert schedule[..0] == [];
      StepKeepsTheTime(w, schedule[0], who);
      hide Step;
      TimeStays(next, schedule[1..], who);
    } else {
      hide Step;
      var m := BeganAt(next, schedule[1..], who);
      n := m + 1;
      assert schedule[..n][1..] == schedule[1..][..m];
    }
  }

  lemma OpenedHolds(rows: seq<Rule>)
    requires OnePerTrigger(rows)
    ensures Inv(Opened(rows)) && Accounted(Opened(rows), Ids(rows))
  {
  }

  lemma OneRuleEach(w: World, at: Target)
    requires OnePerTrigger(w.rows)
    ensures forall n, i, j | 0 <= i < |w.rows| && 0 <= j < |w.rows| && HasTrigger(w.rows[i], at, n) && HasTrigger(w.rows[j], at, n) :: i == j
  {
    forall n, i, j | 0 <= i < |w.rows| && 0 <= j < |w.rows| && HasTrigger(w.rows[i], at, n) && HasTrigger(w.rows[j], at, n) ensures i == j {
      assert SameTrigger(w.rows[i], w.rows[j]) && SameTrigger(w.rows[j], w.rows[i]);
    }
  }

  lemma HeldInEither(rows: seq<Rule>, gone: seq<Rule>, r: Rule)
    requires Holds(rows + gone, r)
    ensures Holds(rows, r) || Holds(gone, r)
  {
    var i :| 0 <= i < |rows + gone| && (rows + gone)[i].ruleId == r.ruleId && SameTrigger((rows + gone)[i], r);
    if i < |rows| {
      assert rows[i].ruleId == r.ruleId;
    } else {
      assert gone[i - |rows|].ruleId == r.ruleId;
    }
  }

  /** The names a seed is for: those of the types that are no subtasks, trimmed, where anything is left. */
  lemma NamesExactly(types: seq<IssueTypeInfo>, name: string)
    ensures name in Names(types) <==> name != "" && exists i :: 0 <= i < |types| && !types[i].subtask && Trim(types[i].name) == name
  {
    hide Trim;
    if i :| 0 <= i < |types| && !types[i].subtask && Trim(types[i].name) == name && name != "" {
      assert types[i] in types;
    }
  }

  /**
   * Every rule a seed created is the cautious default for its name: for the
   * target's project and account, enabled, a fix for a defect and an analysis for
   * anything else, never full development; and a defect's goes before the others.
   */
  lemma CreatedRulesAreCautious(rows: seq<Rule>, schedule: seq<Event>, who: nat, k: nat)
    requires OnePerTrigger(rows)
    requires var w := Run(Opened(rows), schedule); who in w.seeders && k < |w.seeders[who].created|
    ensures var s := Run(Opened(rows), schedule).seeders[who];
            var r := s.created[k];
            && r == Rule(r.ruleId, s.at.project, s.at.assignee, IssueType, r.matchValue,
                         if IsBugLike(r.matchValue) then Duzeltme else Analiz, if IsBugLike(r.matchValue) then 50 else 100, true, None, None, None)
            && r.matchValue in Names(s.types)
  {
    OpenedHolds(rows);
    RunKeepsInv(Opened(rows), schedule);
    hide Run, Names, IsBugLike, OnePerTrigger, OneCreator, Holds;
    var w := Run(Opened(rows), schedule);
    OfInv(w, who);
    var s := w.seeders[who];
    assert s.created[k] == DefaultRule(s.at, s.created[k].matchValue, s.created[k].ruleId) && s.created[k].matchValue in s.seen;
    NamesOfPart(s.types, s.done);
  }

  lemma NamesOfPart(types: seq<IssueTypeInfo>, n: nat)
    requires n <= |types|
    ensures Names(types[..n]) <= Names(types)
  {
    hide Trim;
    assert forall i | i in types[..n] :: i in types;
  }

  lemma {:induction false} LowerTrAppend(c: char, s: string)
    requires s == "" || s[0] != '\U{0307}'
    ensures LowerTr([c] + s) == [LowerTrChar(c)] + LowerTr(s)
  {
    assert ([c] + s)[1..] == s;
  }

  lemma Lowered(a: char, b: char, c: char, d: char)
    requires '\U{0307}' !in [a, b, c, d]
    ensures LowerTr([a, b, c, d]) == [LowerTrChar(a), LowerTrChar(b), LowerTrChar(c), LowerTrChar(d)]
    ensures LowerTr([a, b, c]) == [LowerTrChar(a), LowerTrChar(b), LowerTrChar(c)]
  {
    assert [d] == [d] + "" && [c, d] == [c] + [d] && [b, c, d] == [b] + [c, d] && [a, b, c, d] == [a] + [b, c, d];
    assert [c] == [c] + "" && [b, c] == [b] + [c] && [a, b, c] == [a] + [b, c];
    LowerTrAppend(d, "");
    LowerTrAppend(c, [d]);
    LowerTrAppend(b, [c, d]);
    LowerTrAppend(a, [b, c, d]);
    LowerTrAppend(c, "");
    LowerTrAppend(b, [c]);
    LowerTrAppend(a, [b, c]);
  }

  lemma LoweredIsBugLike(s: string, lower: string)
    requires Trim(s) == s && LowerTr(s) == lower
    ensures IsBugLike(s) <==> lower in ["bug", "hata", "defect", "ar\U{0131}za", "ariza"]
  {
    hide Trim, LowerTr;
  }

  /** Case is folded the Turkish way: `BUG` and `HATA` are defects, and a capital `I` becomes the letter without a dot. */
  lemma DefectNames()
    ensures IsBugLike("BUG") && IsBugLike("HATA")
    ensures LowerTrChar('I') == '\U{0131}' && LowerTrChar('\U{0130}') == 'i' && LowerTr("I\U{0307}") == "i"
  {
    Bug();
    Hata();
    hide IsBugLike;
    assert LowerTr("I\U{0307}") == "i" + LowerTr("");
  }

  lemma Bug()
    ensures IsBugLike("BUG")
  {
    NothingToTrim("BUG");
    Lowered('B', 'U', 'G', 'x');
    hide Trim, LowerTr;
    LoweredIsBugLike("BUG", "bug");
    assert ["bug", "hata", "defect", "ar\U{0131}za", "ariza"][0] == "bug";
  }

  lemma Hata()
    ensures IsBugLike("HATA")
  {
    NothingToTrim("HATA");
    Lowered('H', 'A', 'T', 'A');
    hide Trim, LowerTr;
    LoweredIsBugLike("HATA", "hata");
    assert ["bug", "hata", "defect", "ar\U{0131}za", "ariza"][1] == "hata";
  }

  /** A seed never rewrites a row: an administrator's edit survives every later seed. */
  lemma SeedingOnlyAppends(w: World, who: nat, id: RuleId, fault: bool)
    requires Inv(w)
    ensures w.rows <= Step(w, Next(who, id, fault)).rows && Step(w, Next(who, id, fault)).gone == w.gone
  {
    hide Names, Taken, IsBugLike, Holds, Advance, OnePerTrigger;
    if Step(w, Next(who, id, fault)) != w {
      assert forall r :: r in w.rows ==> r in w.rows + w.gone;
      AdvanceEffect(w.seeders[who], w.rows, id, fault);
    }
  }

  ghost predicate Covered(rows: seq<Rule>, at: Target, types: seq<IssueTypeInfo>) {
    forall n | n in Names(types) :: Taken(rows, at, n)
  }

  ghost predicate StillIdle(w: World, who: nat) {
    && Inv(w) && who in w.seeders
    && Covered(w.seeders[who].existing, w.seeders[who].at, w.seeders[who].types) && w.seeders[who].created == []
  }

  /** A seed that found all names covered when it began creates nothing in a turn. */
  lemma AdvanceCreatesNothing(s: Seeder, rows: seq<Rule>, id: RuleId, fault: bool)
    requires s.done < |s.types| && s.seen == Names(s.types[..s.done]) && OnePerTrigger(rows) && Covered(s.existing, s.at, s.types)
    requires !exists r :: r in rows && r.ruleId == id
    ensures var next := Advance(s, rows, id, fault).0;
            next.created == s.created && next.at == s.at && next.types == s.types && next.existing == s.existing
  {
    NameIsListed(s.types, s.done);
    NamesGrow(s.types, s.done);
    AdvanceEffect(s, rows, id, fault);
    hide Trim, Put, Taken, Names, IsBugLike;
  }

  lemma StepStaysIdle(w: World, e: Event, who: nat)
    requires StillIdle(w, who)
    ensures StillIdle(Step(w, e), who)
  {
    StepKeepsInv(w, e);
    hide Inv, Covered, Kept, Advance, Step;
    if e.Next? && e.who == who {
      OwnTurnStaysIdle(w, who, e.id, e.fault);
    } else {
      OthersLeaveAlone(w, e, who);
    }
  }

  lemma OthersLeaveAlone(w: World, e: Event, who: nat)
    requires who in w.seeders && !(e.Next? && e.who == who)
    ensures who in Step(w, e).seeders && Step(w, e).seeders[who] == w.seeders[who]
  {
    hide Advance;
  }

  lemma OwnTurnStaysIdle(w: World, who: nat, id: RuleId, fault: bool)
    requires Inv(w) && who in w.seeders && Covered(w.seeders[who].existing, w.seeders[who].at, w.seeders[who].types)
    ensures var next := Step(w, Next(who, id, fault));
            && who in next.seeders && next.seeders[who].at == w.seeders[who].at && next.seeders[who].types == w.seeders[who].types
            && next.seeders[who].existing == w.seeders[who].existing && next.seeders[who].created == w.seeders[who].created
  {
    OfInv(w, who);
    hide Inv, Covered, Advance, SeederInv, OnePerTrigger;
    if Running(w.seeders[who]) && !Drawn(w, id) {
      OfSeeder(Known(w, w.seeders[who].since), w.seeders[who]);
      assert forall r :: r in w.rows ==> r in w.rows + w.gone;
      AdvanceCreatesNothing(w.seeders[who], w.rows, id, fault);
    }
  }

  lemma OfInv(w: World, who: nat)
    requires Inv(w) && who in w.seeders
    ensures SeederInv(Known(w, w.seeders[who].since), w.seeders[who]) && w.seeders[who].since <= |w.gone| && OnePerTrigger(w.rows) && w.seeders[who].done <= |w.seeders[who].types|
  {
  }

  lemma NameIsListed(types: seq<IssueTypeInfo>, k: nat)
    requires k < |types|
    ensures Eligible(types[k]) ==> Trim(types[k].name) in Names(types)
  {
    hide Trim;
    assert types[k] in types;
  }

  lemma {:induction false} RunStaysIdle(w: World, schedule: seq<Event>, who: nat)
    requires StillIdle(w, who)
    ensures StillIdle(Run(w, schedule), who)
    decreases schedule
  {
    if schedule != [] {
      hide StillIdle, Step, Names, Taken;
      StepStaysIdle(w, schedule[0], who);
      RunStaysIdle(Step(w, schedule[0]), schedule[1..], who);
    }
  }

  /** Seeding is idempotent: a seed that begins when every name has a rule creates nothing, whatever runs beside it. */
  lemma ReseedingCreatesNothing(w: World, who: nat, at: Target, types: seq<IssueTypeInfo>, schedule: seq<Event>)
    requires Inv(w) && who !in w.seeders && Covered(w.rows, at, types)
    ensures var later := Run(Step(w, Begin(who, at, types)), schedule); who in later.seeders && later.seeders[who].created == []
  {
    StepKeepsInv(w, Begin(who, at, types));
    hide Inv, Covered, Names;
    assert StillIdle(Step(w, Begin(who, at, types)), who);
    RunStaysIdle(Step(w, Begin(who, at, types)), schedule, who);
  }

  // ---------------------------------------------------- the call on its own

  /** What `store.put` may do: write, refuse a taken trigger, or fail otherwise. */
  datatype PutResult = Written | UniqueViolation | Failed

  class ListeningStore {
    var rows: seq<Rule>

    constructor (initial: seq<Rule>)
      ensures rows == initial
    {
      rows := initial;
    }

    method PutRule(record: Rule, fault: bool) returns (result: PutResult)
      modifies this
      ensures result == if fault then Failed else if Put(old(rows), record).None? then UniqueViolation else Written
      ensures rows == if result.Written? then Put(old(rows), record).value else old(rows)
    {
      if fault {
        return Failed;
      }
      var put := Put(rows, record);
      if put.None? {
        return UniqueViolation;
      }
      rows := put.value;
      return Written;
    }
  }

  /** All turns of a seed that nothing interrupts, with the ids it draws and the writes that fail. */
  function Alone(s: Seeder, rows: seq<Rule>, ids: seq<RuleId>, faults: seq<bool>): (Seeder, seq<Rule>)
    requires s.done <= |s.types| == |ids| == |faults|
    decreases |s.types| - s.done
  {
    if s.done == |s.types| then (s, rows)
    else
      var (next, later) := Advance(s, rows, ids[s.done], faults[s.done]);
      if next.failed then (next, later) else Alone(next, later, ids, faults)
  }

  datatype SeedResult = SeedResult(created: nat, skipped: nat, rules: seq<Rule>)

  /** `seedDefaultRules`; no result where the store's error is thrown on. */
  method SeedDefaultRules(store: ListeningStore, at: Target, types: seq<IssueTypeInfo>, ids: seq<RuleId>, faults: seq<bool>)
    returns (result: Option<SeedResult>)
    requires |ids| == |types| == |faults|
    modifies store
    ensures var (s, rows) := Alone(Started(at, types, old(store.rows), 0), old(store.rows), ids, faults);
            && store.rows == rows
            && result == if s.failed then None else Some(SeedResult(|s.created|, s.skipped, s.created))
  {
    hide IsBugLike, Trim, Put;
    var existing, rules, skipped := store.rows, [], 0;
    var seen: set<string> := {};
    var i := 0;
    while i < |types|
      invariant 0 <= i <= |types|
      invariant Alone(Started(at, types, old(store.rows), 0), old(store.rows), ids, faults) ==
                Alone(Seeder(at, types, i, existing, seen, skipped, rules, false, 0), store.rows, ids, faults)
    {
      var name := Trim(types[i].name);
      if name == "" || types[i].subtask || name in seen {
        i := i + 1;
        continue;
      }
      seen := seen + {name};
      if Taken(existing, at, name) {
        skipped := skipped + 1;
      } else {
        var record := DefaultRule(at, name, ids[i]);
        var put := store.PutRule(record, faults[i]);
        match put
        case Failed => return None;
        case UniqueViolation => skipped := skipped + 1;
        case Written => rules := rules + [record];
      }
      i := i + 1;
    }
    return Some(SeedResult(|rules|, skipped, rules));
  }

  ghost predicate Fresh(ids: seq<RuleId>, done: nat, rows: seq<Rule>) {
    && (forall i, j | done <= i < j < |ids| :: ids[i] != ids[j])
    && (forall i, r | done <= i < |ids| && r in rows :: r.ruleId != ids[i])
  }

  /** The turns of one seed and nothing in between, from its turn `done` on. */
  function Turns(who: nat, ids: seq<RuleId>, faults: seq<bool>, done: nat): seq<Event>
    requires done <= |ids| == |faults|
    decreases |ids| - done
  {
    if done == |ids| then [] else [Next(who, ids[done], faults[done])] + Turns(who, ids, faults, done + 1)
  }

  lemma {:induction false} FailedStays(w: World, who: nat, ids: seq<RuleId>, faults: seq<bool>, done: nat)
    requires done <= |ids| == |faults| && who in w.seeders && w.seeders[who].failed
    ensures Run(w, Turns(who, ids, faults, done)) == w
    decreases |ids| - done
  {
    if done < |ids| {
      hide Advance, Drawn;
      FailedStays(w, who, ids, faults, done + 1);
      assert Turns(who, ids, faults, done)[1..] == Turns(who, ids, faults, done + 1);
    }
  }

  /** A seed that nothing interrupts takes all its turns, and leaves what they leave; so the call as a whole is one run of the seeds. */
  lemma {:induction false} UninterruptedTurnsAreAlone(w: World, who: nat, ids: seq<RuleId>, faults: seq<bool>)
    requires who in w.seeders && !w.seeders[who].failed
    requires var s := w.seeders[who]; s.done <= |s.types| == |ids| == |faults| && Fresh(ids, s.done, w.rows + w.gone)
    requires var s := w.seeders[who]; s.seen == Names(s.types[..s.done]) && OnePerTrigger(w.rows)
    ensures var (s, rows) := Alone(w.seeders[who], w.rows, ids, faults);
            Run(w, Turns(who, ids, faults, w.seeders[who].done)) == w.(rows := rows, seeders := w.seeders[who := s])
    decreases |ids| - w.seeders[who].done
  {
    hide Names, IsBugLike, Trim, Taken, Put, OnePerTrigger;
    var s := w.seeders[who];
    if s.done < |ids| {
      var id, fault := ids[s.done], faults[s.done];
      var turns := Turns(who, ids, faults, s.done);
      assert turns[0] == Next(who, id, fault) && turns[1..] == Turns(who, ids, faults, s.done + 1);
      assert !Drawn(w, id);
      assert forall r :: r in w.rows ==> r in w.rows + w.gone;
      var (next, later) := Advance(s, w.rows, id, fault);
      var after := w.(rows := later, seeders := w.seeders[who := next]);
      assert Step(w, turns[0]) == after;
      if next.failed {
        FailedStays(after, who, ids, faults, s.done + 1);
      } else {
        AdvanceEffect(s, w.rows, id, fault);
        TurnGoesOn(s, w.rows, id, fault);
        DefaultId(s.at, Trim(s.types[s.done].name), id);
        hide Advance, DefaultRule, Step;
        forall i, r | s.done + 1 <= i < |ids| && r in later + w.gone ensures r.ruleId != ids[i] {
          assert r in w.rows + w.gone || r.ruleId == id;
        }
        UninterruptedTurnsAreAlone(after, who, ids, faults);
        assert after.seeders[who := Alone(next, later, ids, faults).0] == w.seeders[who := Alone(next, later, ids, faults).0];
      }
    } else {
      assert w.seeders[who := s] == w.seeders;
    }
  }

  lemma TurnGoesOn(s: Seeder, rows: seq<Rule>, id: RuleId, fault: bool)
    requires s.done < |s.types|
    ensures var next := Advance(s, rows, id, fault).0; !next.failed ==> next.done == s.done + 1 && (s.failed <==> next.failed)
  {
    hide Trim, IsBugLike, Put, Taken;
  }

  /**
   * The uninterrupted seed meets the same promises. One that a failing store cut
   * short has kept what it created so far; without such a failure it finishes.
   */
  lemma {:induction false} AloneCountsEveryName(s: Seeder, rows: seq<Rule>, ids: seq<RuleId>, faults: seq<bool>)
    requires s.done <= |s.types| == |ids| == |faults| && !s.failed && Fresh(ids, s.done, rows)
    requires SeederInv(rows, s) && OnePerTrigger(rows)
    ensures var (end, later) := Alone(s, rows, ids, faults);
            && end.types == s.types && end.at == s.at && OnePerTrigger(later) && rows <= later
            && |later| - |rows| == |end.created| - |s.created|
            && (end.failed ==> exists k :: s.done <= k < |faults| && faults[k])
            && (!end.failed ==>
                  && Finished(end) && SeederInv(later, end)
                  && |end.created| + end.skipped == |Names(s.types)|
                  && Covered(later, s.at, s.types))
    decreases |s.types| - s.done
  {
    hide Names, Taken, IsBugLike, Trim, DefaultRule, SeederInv, OnePerTrigger, Kept, Put;
    if s.done == |s.types| {
      assert s.types[..s.done] == s.types;
      FinishedCovers(rows, s);
    } else {
      var (next, later) := Advance(s, rows, ids[s.done], faults[s.done]);
      OfSeeder(rows, s);
      AdvanceEffect(s, rows, ids[s.done], faults[s.done]);
      assert rows + [] == rows && later + [] == later;
      AdvanceKeepsSeeder(s, rows, [], ids[s.done], faults[s.done]);
      DefaultId(s.at, Trim(s.types[s.done].name), ids[s.done]);
      if !next.failed {
        AloneCountsEveryName(next, later, ids, faults);
      }
    }
  }

  lemma DefaultId(at: Target, name: string, id: RuleId)
    ensures DefaultRule(at, name, id).ruleId == id
  {
  }

  lemma OfSeeder(rows: seq<Rule>, s: Seeder)
    requires SeederInv(rows, s)
    ensures s.seen == Names(s.types[..s.done])
  {
  }

  lemma FinishedCovers(rows: seq<Rule>, s: Seeder)
    requires SeederInv(rows, s) && s.done == |s.types|
    ensures Covered(rows, s.at, s.types) && |s.created| + s.skipped == |Names(s.types)|
  {
    hide Names, Taken;
    assert s.types[..s.done] == s.types;
  }

  // --------------------------------------------- what the seeded rules decide

  /** A store that holds only rules as seeded, all for one account. */
  ghost predicate OnlySeeded(rows: seq<Rule>, assignee: string) {
    && OnePerTrigger(rows)
    && forall r | r in rows :: r == DefaultRule(Target(r.projectKey, assignee), r.matchValue, r.ruleId)
  }

  lemma OnlyOneSeededRuleMatches(rows: seq<Rule>, assignee: string, t: Ticket, a: Rule, b: Rule)
    requires OnlySeeded(rows, assignee) && a in rows && b in rows && Matches(a, t) && Matches(b, t)
    ensures a == b
  {
    hide IsBugLike, Trim;
    var i :| 0 <= i < |rows| && rows[i] == a;
    var j :| 0 <= j < |rows| && rows[j] == b;
    assert SameTrigger(a, b) && SameTrigger(b, a);
  }

  /**
   * On seeded rules alone no ticket is ever a conflict, none gets the flow that
   * was never handed out, and a rule decides exactly when the ticket's type names
   * one.
   */
  lemma SeededRulesNeverConflict(rows: seq<Rule>, assignee: string, t: Ticket, defaultFlow: Option<FlowType>)
    requires OnlySeeded(rows, assignee)
    ensures var d := FlowDecisionFor(rows, t, defaultFlow);
            && d.reason != RuleConflict
            && (d.reason == ByRule ==> d.flow in {Some(Analiz), Some(Duzeltme)})
            && (d.reason == ByRule <==> exists r :: r in rows && Matches(r, t))
            && (d.reason == ByRule ==> t.issueType.Some? && (d.flow == Some(Duzeltme) <==> IsBugLike(t.issueType.value)))
  {
    hide IsBugLike, FlowDecisionFor;
    NoMatchIsDefault(rows, t, defaultFlow);
    if exists r :: r in rows && Matches(r, t) {
      var w := DecisionIsTheNarrowest(rows, t, defaultFlow);
      forall r | Competes(rows, t, r) ensures r == w {
        OnlyOneSeededRuleMatches(rows, assignee, t, r, w);
      }
    }
  }
}
