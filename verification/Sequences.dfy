/** `filter`, `map` and the stable `sort` of JavaScript arrays, and how they commute. */
module Sequences {
  function Filter<T>(s: seq<T>, p: T -> bool): (r: seq<T>)
    ensures forall x | x in r :: x in s && p(x)
    ensures forall x | x in s && p(x) :: x in r
  {
    if s == [] then []
    else if p(s[0]) then [s[0]] + Filter(s[1..], p)
    else Filter(s[1..], p)
  }

  function Map<T, U>(s: seq<T>, f: T -> U): (r: seq<U>)
    ensures |r| == |s|
    ensures forall i | 0 <= i < |s| :: r[i] == f(s[i])
  {
    if s == [] then [] else [f(s[0])] + Map(s[1..], f)
  }

  ghost predicate NoDuplicates<T>(s: seq<T>) {
    forall i, j | 0 <= i < j < |s| :: s[i] != s[j]
  }

  /** `leq` is a comparator: reflexive, total and transitive. */
  ghost predicate Comparator<T(!new)>(leq: (T, T) -> bool) {
    && (forall x, y :: leq(x, y) || leq(y, x))
    && (forall x, y, z :: leq(x, y) && leq(y, z) ==> leq(x, z))
  }

  ghost predicate Sorted<T>(s: seq<T>, leq: (T, T) -> bool) {
    forall i, j | 0 <= i < j < |s| :: leq(s[i], s[j])
  }

  /** `x`, which stood before all of `s`, goes ahead of everything it does not exceed. */
  function Insert<T>(x: T, s: seq<T>, leq: (T, T) -> bool): (r: seq<T>)
    ensures |r| == |s| + 1
  {
    if s == [] then [x]
    else if leq(x, s[0]) then [x] + s
    else [s[0]] + Insert(x, s[1..], leq)
  }

  /** The stable sort: elements that compare equal keep their order. */
  function Sort<T>(s: seq<T>, leq: (T, T) -> bool): (r: seq<T>)
    ensures |r| == |s|
  {
    if s == [] then [] else Insert(s[0], Sort(s[1..], leq), leq)
  }

  lemma {:induction false} InsertKeeps<T>(x: T, s: seq<T>, leq: (T, T) -> bool)
    ensures multiset(Insert(x, s, leq)) == multiset{x} + multiset(s)
  {
    if s != [] && !leq(x, s[0]) {
      InsertKeeps(x, s[1..], leq);
      assert s == [s[0]] + s[1..];
    }
  }

  lemma {:induction false} SortKeeps<T>(s: seq<T>, leq: (T, T) -> bool)
    ensures multiset(Sort(s, leq)) == multiset(s)
  {
    if s != [] {
      SortKeeps(s[1..], leq);
      InsertKeeps(s[0], Sort(s[1..], leq), leq);
      assert s == [s[0]] + s[1..];
    }
  }

  lemma SortMember<T>(s: seq<T>, leq: (T, T) -> bool, x: T)
    ensures x in Sort(s, leq) <==> x in s
  {
    SortKeeps(s, leq);
    assert x in Sort(s, leq) <==> x in multiset(Sort(s, leq));
    assert x in s <==> x in multiset(s);
  }

  lemma {:induction false} InsertSorts<T(!new)>(x: T, s: seq<T>, leq: (T, T) -> bool)
    requires Comparator(leq) && Sorted(s, leq)
    ensures Sorted(Insert(x, s, leq), leq)
  {
    if s != [] && !leq(x, s[0]) {
      InsertSorts(x, s[1..], leq);
      InsertKeeps(x, s[1..], leq);
      var r := Insert(x, s[1..], leq);
      forall j | 0 <= j < |r| ensures leq(s[0], r[j]) {
        assert r[j] in multiset(r);
      }
    }
  }

  lemma {:induction false} SortSorts<T(!new)>(s: seq<T>, leq: (T, T) -> bool)
    requires Comparator(leq)
    ensures Sorted(Sort(s, leq), leq)
  {
    if s != [] {
      SortSorts(s[1..], leq);
      InsertSorts(s[0], Sort(s[1..], leq), leq);
    }
  }

  /** Where no two different elements compare equal, sorted order is unique. */
  lemma {:induction false} SortedIsUnique<T(!new)>(s: seq<T>, t: seq<T>, leq: (T, T) -> bool)
    requires Sorted(s, leq) && Sorted(t, leq) && multiset(s) == multiset(t)
    requires forall x, y | x in s && y in s && leq(x, y) && leq(y, x) :: x == y
    ensures s == t
    decreases |s|
  {
    hide Sorted;
    MembersAgree(s, t);
    if s != [] {
      SameFirst(s, t, leq);
      TailsAgree(s, t);
      SortedTail(s, leq);
      SortedTail(t, leq);
      SortedIsUnique(s[1..], t[1..], leq);
      assert s == [s[0]] + s[1..] && t == [t[0]] + t[1..];
    }
  }

  lemma MembersAgree<T>(s: seq<T>, t: seq<T>)
    requires multiset(s) == multiset(t)
    ensures |s| == |t|
    ensures s != [] ==> t[0] in s && s[0] in t
  {
    assert |multiset(s)| == |s| && |multiset(t)| == |t|;
    if s != [] {
      assert s[0] in multiset(s) && t[0] in multiset(t);
    }
  }

  lemma SameFirst<T>(s: seq<T>, t: seq<T>, leq: (T, T) -> bool)
    requires Sorted(s, leq) && Sorted(t, leq) && s != [] && t != [] && t[0] in s && s[0] in t
    requires forall x, y | x in s && y in s && leq(x, y) && leq(y, x) :: x == y
    ensures s[0] == t[0]
  {
    var i :| 0 <= i < |s| && s[i] == t[0];
    var j :| 0 <= j < |t| && t[j] == s[0];
    assert (i == 0 || leq(s[0], s[i])) && (j == 0 || leq(t[0], t[j]));
  }

  lemma SortedTail<T>(s: seq<T>, leq: (T, T) -> bool)
    requires Sorted(s, leq) && s != []
    ensures Sorted(s[1..], leq)
    ensures forall y | y in s[1..] :: leq(s[0], y)
  {
    forall y | y in s[1..] ensures leq(s[0], y) {
      var i :| 0 <= i < |s[1..]| && s[1..][i] == y;
      assert s[i + 1] == y;
    }
  }

  lemma TailsAgree<T>(s: seq<T>, t: seq<T>)
    requires s != [] && t != [] && s[0] == t[0] && multiset(s) == multiset(t)
    ensures multiset(s[1..]) == multiset(t[1..])
    ensures forall x | x in s[1..] :: x in s
  {
    TailCounts(s);
    TailCounts(t);
  }

  lemma TailCounts<T>(s: seq<T>)
    requires s != []
    ensures multiset(s[1..]) == multiset(s) - multiset{s[0]}
  {
    assert s == [s[0]] + s[1..];
  }

  lemma {:induction false} FilterCounts<T>(s: seq<T>, p: T -> bool, x: T)
    ensures multiset(Filter(s, p))[x] == if p(x) then multiset(s)[x] else 0
  {
    if s != [] {
      FilterCounts(s[1..], p, x);
      assert s == [s[0]] + s[1..];
    }
  }

  /** Filtering permuted input gives permuted output. */
  lemma FilterPermutes<T(!new)>(s: seq<T>, t: seq<T>, p: T -> bool)
    requires multiset(s) == multiset(t)
    ensures multiset(Filter(s, p)) == multiset(Filter(t, p))
  {
    forall x ensures multiset(Filter(s, p))[x] == multiset(Filter(t, p))[x] {
      FilterCounts(s, p, x);
      FilterCounts(t, p, x);
    }
  }

  lemma {:induction false} FilterInsert<T(!new)>(x: T, s: seq<T>, p: T -> bool, leq: (T, T) -> bool)
    requires Comparator(leq) && Sorted(s, leq)
    ensures Filter(Insert(x, s, leq), p) == if p(x) then Insert(x, Filter(s, p), leq) else Filter(s, p)
  {
    if s != [] {
      hide Filter, Insert, Sorted;
      FilterCons(s[0], s[1..], p);
      assert s == [s[0]] + s[1..];
      SortedTail(s, leq);
      if leq(x, s[0]) {
        InsertInFront(x, s, leq);
        InsertInFront(x, Filter(s, p), leq);
        FilterCons(x, s, p);
      } else {
        InsertBehind(x, s, leq);
        FilterCons(s[0], Insert(x, s[1..], leq), p);
        FilterInsert(x, s[1..], p, leq);
        if p(s[0]) && p(x) {
          InsertBehind(x, Filter(s, p), leq);
          assert ([s[0]] + Filter(s[1..], p))[1..] == Filter(s[1..], p);
        }
      }
    }
  }

  lemma FilterCons<T>(x: T, s: seq<T>, p: T -> bool)
    ensures Filter([x] + s, p) == if p(x) then [x] + Filter(s, p) else Filter(s, p)
  {
    assert ([x] + s)[1..] == s;
  }

  lemma InsertInFront<T>(x: T, s: seq<T>, leq: (T, T) -> bool)
    requires forall y | y in s :: leq(x, y)
    ensures Insert(x, s, leq) == [x] + s
  {
  }

  lemma InsertBehind<T>(x: T, s: seq<T>, leq: (T, T) -> bool)
    requires s != [] && !leq(x, s[0])
    ensures Insert(x, s, leq) == [s[0]] + Insert(x, s[1..], leq)
  {
  }

  /** Sorting first or filtering first comes to the same. */
  lemma {:induction false} FilterSort<T(!new)>(s: seq<T>, p: T -> bool, leq: (T, T) -> bool)
    requires Comparator(leq)
    ensures Filter(Sort(s, leq), p) == Sort(Filter(s, p), leq)
  {
    if s != [] {
      FilterSort(s[1..], p, leq);
      SortSorts(s[1..], leq);
      FilterInsert(s[0], Sort(s[1..], leq), p, leq);
      if p(s[0]) {
        assert Filter(s, p)[1..] == Filter(s[1..], p);
      }
    }
  }

  lemma {:induction false} MapInsert<T, U>(x: T, s: seq<T>, f: T -> U, leq: (T, T) -> bool, below: (U, U) -> bool)
    requires forall y | y in s :: leq(x, y) == below(f(x), f(y))
    ensures Map(Insert(x, s, leq), f) == Insert(f(x), Map(s, f), below)
  {
    if s != [] {
      if leq(x, s[0]) {
        assert ([x] + s)[1..] == s;
      } else {
        var rest := Insert(x, s[1..], leq);
        assert ([s[0]] + rest)[1..] == rest;
        MapInsert(x, s[1..], f, leq, below);
        assert Map(s, f)[1..] == Map(s[1..], f);
      }
    }
  }

  /** A projection that keeps the sort keys can be taken before or after sorting. */
  lemma {:induction false} MapSort<T, U>(s: seq<T>, f: T -> U, leq: (T, T) -> bool, below: (U, U) -> bool)
    requires forall x, y | x in s && y in s :: leq(x, y) == below(f(x), f(y))
    ensures Map(Sort(s, leq), f) == Sort(Map(s, f), below)
  {
    if s != [] {
      var rest := Sort(s[1..], leq);
      forall y | y in rest ensures leq(s[0], y) == below(f(s[0]), f(y)) {
        SortMember(s[1..], leq, y);
      }
      MapSort(s[1..], f, leq, below);
      assert Map(s, f) == [f(s[0])] + Map(s[1..], f) && Map(s, f)[1..] == Map(s[1..], f);
      hide Map;
      MapInsert(s[0], rest, f, leq, below);
    }
  }

  lemma {:induction false} MapFilter<T, U>(s: seq<T>, f: T -> U, p: T -> bool, q: U -> bool)
    requires forall x | x in s :: p(x) == q(f(x))
    ensures Map(Filter(s, p), f) == Filter(Map(s, f), q)
  {
    if s != [] {
      MapFilter(s[1..], f, p, q);
      assert Map(s, f)[1..] == Map(s[1..], f);
      if p(s[0]) {
        assert Filter(s, p)[1..] == Filter(s[1..], p);
      }
    }
  }

  lemma {:induction false} FilterFilter<T>(s: seq<T>, p: T -> bool, q: T -> bool, both: T -> bool)
    requires forall x | x in s :: both(x) == (p(x) && q(x))
    ensures Filter(Filter(s, p), q) == Filter(s, both)
  {
    if s != [] {
      FilterFilter(s[1..], p, q, both);
      if p(s[0]) {
        assert Filter(s, p)[1..] == Filter(s[1..], p);
      }
    }
  }

  lemma {:induction false} FilterIsTheSame<T>(s: seq<T>, p: T -> bool, q: T -> bool)
    requires forall x | x in s :: p(x) == q(x)
    ensures Filter(s, p) == Filter(s, q)
  {
    if s != [] {
      FilterIsTheSame(s[1..], p, q);
    }
  }

  lemma {:induction false} FilterAll<T>(s: seq<T>, p: T -> bool)
    requires forall x | x in s :: p(x)
    ensures Filter(s, p) == s
  {
    if s != [] {
      FilterAll(s[1..], p);
    }
  }

  lemma {:induction false} FilterConcat<T>(s: seq<T>, t: seq<T>, p: T -> bool)
    ensures Filter(s + t, p) == Filter(s, p) + Filter(t, p)
  {
    if s == [] {
      assert s + t == t;
    } else {
      assert (s + t)[1..] == s[1..] + t;
      FilterConcat(s[1..], t, p);
    }
  }

  // --------------------------------------------------------------- stability

  /** What `leq` cannot tell from `x`. */
  function Ties<T>(x: T, leq: (T, T) -> bool): T -> bool {
    y => leq(x, y) && leq(y, x)
  }

  /** `r` holds what `s` holds, in order, and what compares equal as it stood in `s`. */
  ghost predicate StablySorted<T(!new)>(s: seq<T>, r: seq<T>, leq: (T, T) -> bool) {
    && multiset(r) == multiset(s) && Sorted(r, leq)
    && forall x :: Filter(r, Ties(x, leq)) == Filter(s, Ties(x, leq))
  }

  lemma {:induction false} SortOfTied<T(!new)>(s: seq<T>, leq: (T, T) -> bool)
    requires forall x, y | x in s && y in s :: leq(x, y)
    ensures Sort(s, leq) == s
  {
    if s != [] {
      SortOfTied(s[1..], leq);
    }
  }

  lemma SortIsStable<T(!new)>(s: seq<T>, leq: (T, T) -> bool)
    requires Comparator(leq)
    ensures StablySorted(s, Sort(s, leq), leq)
  {
    SortKeeps(s, leq);
    SortSorts(s, leq);
    forall x ensures Filter(Sort(s, leq), Ties(x, leq)) == Filter(s, Ties(x, leq)) {
      FilterSort(s, Ties(x, leq), leq);
      SortOfTied(Filter(s, Ties(x, leq)), leq);
    }
  }

  /** Being stably sorted leaves no choice. */
  lemma StableSortIsUnique<T(!new)>(s: seq<T>, r: seq<T>, leq: (T, T) -> bool)
    requires Comparator(leq) && StablySorted(s, r, leq)
    ensures r == Sort(s, leq)
  {
    SortIsStable(s, leq);
    SameClassesSameList(r, Sort(s, leq), leq);
  }

  lemma {:induction false} SameClassesSameList<T(!new)>(a: seq<T>, b: seq<T>, leq: (T, T) -> bool)
    requires Comparator(leq) && Sorted(a, leq) && Sorted(b, leq)
    requires forall x :: Filter(a, Ties(x, leq)) == Filter(b, Ties(x, leq))
    ensures a == b
    decreases |a|
  {
    if a == [] {
      if b != [] {
        SameHead(b, a, leq);
      }
    } else {
      var x := a[0];
      assert x in Filter(a, Ties(x, leq));
      SameHead(a, b, leq);
      forall z ensures Filter(a[1..], Ties(z, leq)) == Filter(b[1..], Ties(z, leq)) {
        assert Filter(a, Ties(z, leq)) == Filter(b, Ties(z, leq));
        assert Ties(z, leq)(x) ==> Filter(a, Ties(z, leq))[1..] == Filter(a[1..], Ties(z, leq)) && Filter(b, Ties(z, leq))[1..] == Filter(b[1..], Ties(z, leq));
      }
      SameClassesSameList(a[1..], b[1..], leq);
    }
  }

  lemma SameHead<T(!new)>(a: seq<T>, b: seq<T>, leq: (T, T) -> bool)
    requires Comparator(leq) && Sorted(a, leq) && Sorted(b, leq) && a != []
    requires forall x :: Filter(a, Ties(x, leq)) == Filter(b, Ties(x, leq))
    ensures b != [] && a[0] == b[0]
  {
    var x := a[0];
    assert x in Filter(a, Ties(x, leq));
    var i :| 0 <= i < |b| && b[i] == x;
    var y := b[0];
    assert y in Filter(b, Ties(y, leq));
    var j :| 0 <= j < |a| && a[j] == y;
    assert leq(y, x) && leq(x, y);
    assert Filter(a, Ties(x, leq))[0] == x && Filter(b, Ties(x, leq))[0] == y;
  }

  /** The stable sort starts with the first of the elements that nothing comes before. */
  lemma SortHeadIsFirstLeast<T(!new)>(s: seq<T>, leq: (T, T) -> bool, least: T -> bool)
    requires Comparator(leq) && s != []
    requires forall x | x in s :: least(x) <==> forall y | y in s :: leq(x, y)
    ensures Filter(s, least) != [] && Sort(s, leq)[0] == Filter(s, least)[0]
  {
    var sorted := Sort(s, leq);
    var h := sorted[0];
    SortSorts(s, leq);
    forall y | y in s ensures leq(h, y) {
      SortMember(s, leq, y);
      var i :| 0 <= i < |sorted| && sorted[i] == y;
      assert i == 0 || leq(sorted[0], sorted[i]);
    }
    SortMember(s, leq, h);
    SortIsStable(s, leq);
    FilterIsTheSame(s, least, Ties(h, leq));
    assert Filter(sorted, Ties(h, leq)) == Filter(s, Ties(h, leq));
  }

  /** The three operations on two elements that all pass. */
  lemma OfTwo<T, U>(a: T, b: T, p: T -> bool, f: T -> U, leq: (T, T) -> bool)
    requires p(a) && p(b)
    ensures Filter([a, b], p) == [a, b]
    ensures Map([a, b], f) == [f(a), f(b)]
    ensures Sort([a, b], leq) == if leq(a, b) then [a, b] else [b, a]
  {
    assert [a, b][1..] == [b] && [b][1..] == [];
    assert Filter([b], p) == [b] + Filter([b][1..], p);
    assert Filter([a, b], p) == [a] + Filter([a, b][1..], p);
    assert Sort([b], leq) == Insert(b, Sort([b][1..], leq), leq) == [b];
    assert Sort([a, b], leq) == Insert(a, Sort([a, b][1..], leq), leq);
    assert Insert(a, [b], leq) == if leq(a, b) then [a] + [b] else [b] + Insert(a, [b][1..], leq);
  }
}
