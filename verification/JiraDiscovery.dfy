/**
 * One discovery round: `discoverOnce` in apps/deploy/src/jira-discovery.ts. Every
 * enabled rule is searched with, and what is new goes to intake, up to a cap.
 */
module JiraDiscovery {
  import opened Wrappers
  import opened Sequences

  /** What a rule's search comes back with; an issue may lack its key. */
  datatype Search = Broken | Page(keys: seq<Option<string>>)

  /** A rule, with what searching for it would return this round. */
  datatype Rule = Rule(enabled: bool, search: Search)

  // ---------------------------------------------------------- specification

  predicate Enabled(r: Rule) {
    r.enabled
  }

  /** The keys of a search, in order. */
  function KeysOf(keys: seq<Option<string>>): seq<string> {
    if keys == [] then [] else (if keys[0].Some? then [keys[0].value] else []) + KeysOf(keys[1..])
  }

  /** The keys of all searches that answer, one after the other. */
  function AllKeys(rules: seq<Rule>): seq<string> {
    if rules == [] then [] else (if rules[0].search.Page? then KeysOf(rules[0].search.keys) else []) + AllKeys(rules[1..])
  }

  /** First occurrences of what is not yet in `seen`. */
  function New(keys: seq<string>, seen: set<string>): seq<string> {
    if keys == [] then []
    else if keys[0] in seen then New(keys[1..], seen)
    else [keys[0]] + New(keys[1..], seen + {keys[0]})
  }

  /** As many as it takes to have `room` of them accepted. */
  function UpTo(keys: seq<string>, room: int, accepts: string -> bool): seq<string>
    decreases keys
  {
    if room <= 0 || keys == [] then []
    else [keys[0]] + UpTo(keys[1..], if accepts(keys[0]) then room - 1 else room, accepts)
  }

  /** The keys a round hands to intake, in order. */
  function Attempts(rules: seq<Rule>, known: set<string>, room: int, accepts: string -> bool): seq<string> {
    Ahead(AllKeys(Filter(rules, Enabled)), known, room, accepts)
  }

  // ---------------------------------------------------------------- the code

  datatype Status = Status(lastError: bool, rulesSearched: nat, lastStarted: nat)

  class Discovery {
    var status: Status
    /** Every key handed to intake, in order. */
    var attempted: seq<string>

    constructor ()
      ensures status == Status(false, 0, 0) && attempted == []
    {
      status, attempted := Status(false, 0, 0), [];
    }

    /**
     * `rules` and `known` are `None` when reading them fails; `accepts` is intake's
     * answer for a key.
     */
    method DiscoverOnce(rules: Option<seq<Rule>>, known: Option<set<string>>, cap: int, accepts: string -> bool) returns (started: seq<string>)
      modifies this
      ensures attempted == old(attempted) + (if rules.Some? then Attempts(rules.value, if known.Some? then known.value else {}, cap, accepts) else [])
      ensures started == (if rules.Some? then Filter(Attempts(rules.value, if known.Some? then known.value else {}, cap, accepts), accepts) else [])
      ensures status == Status(rules.None?, if rules.None? then 0 else |Filter(rules.value, Enabled)|, |started|)
    {
      if rules.None? {
        status := Status(true, 0, 0);
        return [];
      }
      var live := Filter(rules.value, Enabled);
      if live == [] {
        NoneAhead(live, if known.Some? then known.value else {}, cap, accepts);
        status := Status(false, 0, 0);
        return [];
      }
      var skip := if known.Some? then known.value else {};
      started := Sweep(live, skip, cap, accepts);
      status := Status(false, |live|, |started|);
    }

    /** Searches with every rule in turn, until the cap is reached. */
    method Sweep(live: seq<Rule>, skip: set<string>, cap: int, accepts: string -> bool) returns (started: seq<string>)
      modifies this`attempted
      ensures attempted == old(attempted) + Ahead(AllKeys(live), skip, cap, accepts)
      ensures started == Filter(Ahead(AllKeys(live), skip, cap, accepts), accepts)
    {
      hide Ahead, AllKeys, KeysOf, Filter;
      ghost var mine: seq<string> := [];
      var seen: set<string> := {};
      started := [];
      FilterNothing(accepts);
      var i := 0;
      assert live[0..] == live && skip + {} == skip;
      while i < |live|
        invariant 0 <= i <= |live|
        invariant attempted == old(attempted) + mine && started == Filter(mine, accepts)
        invariant Ahead(AllKeys(live), skip, cap, accepts) == mine + Ahead(AllKeys(live[i..]), skip + seen, cap - |started|, accepts)
      {
        if |started| >= cap {
          break;
        }
        var rule := live[i];
        ghost var later := AllKeys(live[i + 1..]);
        NextRule(live, i);
        i := i + 1;
        if rule.search.Broken? {
          continue;
        }
        ghost var one;
        started, seen, one := OfferKeys(KeysOf(rule.search.keys), skip, seen, started, cap, accepts, later);
        FilterConcat(mine, one, accepts);
        mine := mine + one;
      }
      NoneAhead(live[i..], skip + seen, cap - |started|, accepts);
      assert Ahead(AllKeys(live), skip, cap, accepts) == mine;
    }

    /** The keys of one search; `later` is what the searches after it will offer. */
    method OfferKeys(keys: seq<string>, skip: set<string>, seen: set<string>, started: seq<string>, cap: int, accepts: string -> bool, ghost later: seq<string>)
      returns (startedAfter: seq<string>, seenAfter: set<string>, ghost mine: seq<string>)
      modifies this`attempted
      ensures attempted == old(attempted) + mine
      ensures startedAfter == started + Filter(mine, accepts)
      ensures Ahead(keys + later, skip + seen, cap - |started|, accepts) == mine + Ahead(later, skip + seenAfter, cap - |startedAfter|, accepts)
    {
      hide Ahead, Filter;
      startedAfter, seenAfter, mine := started, seen, [];
      FilterNothing(accepts);
      var j := 0;
      assert keys[0..] == keys;
      while j < |keys|
        invariant 0 <= j <= |keys|
        invariant attempted == old(attempted) + mine && startedAfter == started + Filter(mine, accepts)
        invariant Ahead(keys + later, skip + seen, cap - |started|, accepts) == mine + Ahead(keys[j..] + later, skip + seenAfter, cap - |startedAfter|, accepts)
      {
        if |startedAfter| >= cap {
          Full(keys[j..] + later, skip + seenAfter, cap - |startedAfter|, accepts);
          Full(later, skip + seenAfter, cap - |startedAfter|, accepts);
          return;
        }
        var key := keys[j];
        NextKey(keys, j, later, skip + seenAfter, cap - |startedAfter|, accepts);
        j := j + 1;
        if key in skip || key in seenAfter {
          continue;
        }
        assert skip + (seenAfter + {key}) == skip + seenAfter + {key};
        seenAfter := seenAfter + {key};
        FilterAppend(mine, key, accepts);
        attempted := attempted + [key];
        mine := mine + [key];
        if accepts(key) {
          startedAfter := startedAfter + [key];
        }
      }
      assert keys[|keys|..] + later == later;
    }
  }

  /** What is still to be handed to intake, with `keys` to come and `room` left. */
  function Ahead(keys: seq<string>, seen: set<string>, room: int, accepts: string -> bool): seq<string> {
    UpTo(New(keys, seen), room, accepts)
  }

  lemma Full(keys: seq<string>, seen: set<string>, room: int, accepts: string -> bool)
    requires room <= 0
    ensures Ahead(keys, seen, room, accepts) == []
  {
  }

  lemma FilterNothing(p: string -> bool)
    ensures Filter([], p) == []
  {
  }

  lemma NoneAhead(rules: seq<Rule>, seen: set<string>, room: int, accepts: string -> bool)
    requires room <= 0 || rules == []
    ensures Ahead(AllKeys(rules), seen, room, accepts) == []
  {
  }

  lemma NextRule(rules: seq<Rule>, i: nat)
    requires i < |rules|
    ensures AllKeys(rules[i..]) == if rules[i].search.Page? then KeysOf(rules[i].search.keys) + AllKeys(rules[i + 1..]) else AllKeys(rules[i + 1..])
  {
    assert rules[i..][1..] == rules[i + 1..];
    assert rules[i].search.Broken? ==> [] + AllKeys(rules[i + 1..]) == AllKeys(rules[i + 1..]);
  }

  lemma NextKey(keys: seq<string>, j: nat, later: seq<string>, seen: set<string>, room: int, accepts: string -> bool)
    requires j < |keys| && room > 0
    ensures var key := keys[j];
            Ahead(keys[j..] + later, seen, room, accepts) ==
            if key in seen then Ahead(keys[j + 1..] + later, seen, room, accepts)
            else [key] + Ahead(keys[j + 1..] + later, seen + {key}, if accepts(key) then room - 1 else room, accepts)
  {
    assert (keys[j..] + later)[0] == keys[j] && (keys[j..] + later)[1..] == keys[j + 1..] + later;
  }

  lemma {:induction false} FilterAppend(s: seq<string>, x: string, p: string -> bool)
    ensures Filter(s + [x], p) == Filter(s, p) + if p(x) then [x] else []
  {
    if s == [] {
      assert s + [x] == [x] && [x][1..] == [];
    } else {
      assert (s + [x])[1..] == s[1..] + [x];
      FilterAppend(s[1..], x, p);
    }
  }

  // ------------------------------------------------------------ main results

  lemma {:induction false} NewMeans(keys: seq<string>, seen: set<string>)
    ensures NoDuplicates(New(keys, seen))
    ensures forall k :: k in New(keys, seen) <==> k in keys && k !in seen
  {
    if keys != [] {
      var rest := New(keys[1..], if keys[0] in seen then seen else seen + {keys[0]});
      NewMeans(keys[1..], if keys[0] in seen then seen else seen + {keys[0]});
      assert forall j | 0 <= j < |rest| :: rest[j] in rest;
    }
  }

  lemma {:induction false} UpToMeans(keys: seq<string>, room: int, accepts: string -> bool)
    ensures var taken := UpTo(keys, room, accepts);
            && taken <= keys
            && |Filter(taken, accepts)| <= (if room < 0 then 0 else room)
            && (|Filter(taken, accepts)| < room ==> taken == keys)
            && (taken != [] && taken != keys ==> accepts(taken[|taken| - 1]))
    decreases keys
  {
    if room > 0 && keys != [] {
      var left := if accepts(keys[0]) then room - 1 else room;
      UpToMeans(keys[1..], left, accepts);
      var rest := UpTo(keys[1..], left, accepts);
      assert ([keys[0]] + rest)[1..] == rest;
      assert keys == [keys[0]] + keys[1..];
      if rest == [] && keys[1..] != [] {
        assert left <= 0;
      }
    }
  }

  lemma {:induction false} AllKeysMeans(rules: seq<Rule>, k: string)
    ensures k in AllKeys(rules) <==> exists r :: r in rules && r.search.Page? && k in KeysOf(r.search.keys)
  {
    if rules != [] {
      AllKeysMeans(rules[1..], k);
      assert forall r :: r in rules <==> r == rules[0] || r in rules[1..];
    }
  }

  ghost predicate Offered(rules: seq<Rule>, k: string) {
    exists r :: r in rules && r.enabled && r.search.Page? && Some(k) in r.search.keys
  }

  lemma {:induction false} KeysAre(keys: seq<Option<string>>, k: string)
    ensures k in KeysOf(keys) <==> Some(k) in keys
  {
    if keys != [] {
      KeysAre(keys[1..], k);
    }
  }

  /**
   * What a round does, whatever its rules overlap in and whichever of them fail:
   * no key reaches intake twice, none is already known, each was offered by an
   * enabled rule's search; no more than `cap` are accepted; and unless that many
   * are, every new key that any search offered was tried.
   */
  lemma RoundIsFairAndCapped(rules: seq<Rule>, known: set<string>, cap: int, accepts: string -> bool)
    ensures var tried := Attempts(rules, known, cap, accepts);
            && NoDuplicates(tried)
            && (forall k | k in tried :: k !in known && Offered(rules, k))
            && |Filter(tried, accepts)| <= (if cap < 0 then 0 else cap)
            && (|Filter(tried, accepts)| < cap ==> forall k | Offered(rules, k) && k !in known :: k in tried)
            && NoDuplicates(Filter(tried, accepts))
  {
    var live := Filter(rules, Enabled);
    var all := New(AllKeys(live), known);
    var tried := UpTo(all, cap, accepts);
    NewMeans(AllKeys(live), known);
    UpToMeans(all, cap, accepts);
    FilterKeepsDistinct(tried, accepts);
    forall k ensures k in all <==> Offered(rules, k) && k !in known {
      AllKeysMeans(live, k);
      forall r | r in live && r.search.Page? ensures k in KeysOf(r.search.keys) <==> Some(k) in r.search.keys {
        KeysAre(r.search.keys, k);
      }
    }
    forall k | k in tried ensures k in all {
      var i :| 0 <= i < |tried| && tried[i] == k;
      assert all[i] == k;
    }
  }

  lemma {:induction false} FilterKeepsDistinct(s: seq<string>, p: string -> bool)
    requires NoDuplicates(s)
    ensures NoDuplicates(Filter(s, p))
  {
    if s != [] {
      FilterKeepsDistinct(s[1..], p);
      var rest := Filter(s[1..], p);
      forall j | 0 <= j < |rest| ensures rest[j] != s[0] {
        assert rest[j] in s[1..];
      }
    }
  }
}
