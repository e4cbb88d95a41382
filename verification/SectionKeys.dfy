/**
 * The keys of a template's sections, apps/bff/src/template-service.ts. Folding a
 * title (Turkish letters, lower case, accents) is a parameter; everything after
 * it is modelled.
 */
module SectionKeys {
  import opened Wrappers
  import opened Texts

  predicate Alnum(c: char) {
    'a' <= c <= 'z' || '0' <= c <= '9'
  }

  // --------------------------------------------------------------------- slugs

  /** `replace(/[^a-z0-9]+/g, "_")`; `inRun` is whether the character before was replaced. */
  function Collapse(s: string, inRun: bool): string {
    if s == "" then ""
    else if Alnum(s[0]) then [s[0]] + Collapse(s[1..], false)
    else (if inRun then "" else "_") + Collapse(s[1..], true)
  }

  function StripStart(s: string): string {
    if s != "" && s[0] == '_' then StripStart(s[1..]) else s
  }

  function StripEnd(s: string): string {
    if s != "" && s[|s| - 1] == '_' then StripEnd(s[..|s| - 1]) else s
  }

  /** `replace(/^_+|_+$/g, "")`. */
  function Strip(s: string): string {
    StripEnd(StripStart(s))
  }

  function Cut(s: string): string {
    if |s| <= 60 then s else s[..60]
  }

  /** `slugify` of a folded title. */
  function Slugify(folded: string): string {
    Cut(Strip(Collapse(folded, false)))
  }

  predicate KeyChars(s: string) {
    forall c | c in s :: Alnum(c) || c == '_'
  }

  predicate NoDoubled(s: string) {
    forall i | 0 < i < |s| :: !(s[i - 1] == '_' && s[i] == '_')
  }

  predicate NoLeading(s: string) {
    s != "" ==> s[0] != '_'
  }

  predicate NoTrailing(s: string) {
    s != "" ==> s[|s| - 1] != '_'
  }

  predicate IsSlug(s: string) {
    KeyChars(s) && NoDoubled(s) && NoLeading(s) && |s| <= 60 && (|s| < 60 ==> NoTrailing(s))
  }

  /** The letters and digits of a text, in order. */
  function Letters(s: string): string {
    if s == "" then "" else (if Alnum(s[0]) then [s[0]] else "") + Letters(s[1..])
  }

  lemma {:induction false} CollapseShape(s: string, inRun: bool)
    ensures var r := Collapse(s, inRun);
            KeyChars(r) && NoDoubled(r) && (inRun ==> NoLeading(r)) && Letters(r) == Letters(s)
  {
    if s != "" {
      CollapseShape(s[1..], !Alnum(s[0]));
      var rest := Collapse(s[1..], !Alnum(s[0]));
      if Alnum(s[0]) {
        assert ([s[0]] + rest)[1..] == rest;
      } else if !inRun {
        assert ("_" + rest)[1..] == rest;
      } else {
        assert "" + rest == rest;
      }
    }
  }

  lemma {:induction false} StripStartShape(s: string)
    ensures var r := StripStart(s); NoLeading(r) && Letters(r) == Letters(s) && (KeyChars(s) ==> KeyChars(r)) && (NoDoubled(s) ==> NoDoubled(r))
    ensures NoLeading(s) ==> StripStart(s) == s
  {
    if s != "" && s[0] == '_' {
      StripStartShape(s[1..]);
    }
  }

  lemma {:induction false} LettersAppend(s: string, c: char)
    ensures Letters(s + [c]) == Letters(s) + if Alnum(c) then [c] else ""
  {
    if s != "" {
      assert (s + [c])[1..] == s[1..] + [c];
      LettersAppend(s[1..], c);
    } else {
      assert [c][1..] == "";
    }
  }

  lemma {:induction false} StripEndShape(s: string)
    ensures var r := StripEnd(s);
            && NoTrailing(r) && r <= s && Letters(r) == Letters(s)
            && (KeyChars(s) ==> KeyChars(r)) && (NoDoubled(s) ==> NoDoubled(r)) && (NoLeading(s) ==> NoLeading(r))
    ensures NoTrailing(s) ==> StripEnd(s) == s
    ensures s != "" && NoDoubled(s) && s[|s| - 1] == '_' ==> StripEnd(s) == s[..|s| - 1]
  {
    if s != "" && s[|s| - 1] == '_' {
      StripEndShape(s[..|s| - 1]);
      LettersAppend(s[..|s| - 1], '_');
      assert s == s[..|s| - 1] + ['_'];
    }
  }

  lemma {:induction false} LettersOfPrefix(s: string, n: nat)
    requires n <= |s|
    ensures Letters(s[..n]) <= Letters(s)
  {
    if n > 0 {
      assert s[..n][1..] == s[1..][..n - 1];
      LettersOfPrefix(s[1..], n - 1);
    }
  }

  /**
   * A slug is over `[a-z0-9_]`, at most 60 long, has no leading and no doubled
   * underscore, and a trailing one only where the text was cut. Its letters are
   * the title's, in order, and all of them when nothing was cut.
   */
  lemma SlugIsASlug(folded: string)
    ensures IsSlug(Slugify(folded))
    ensures Letters(Slugify(folded)) <= Letters(folded)
    ensures |Slugify(folded)| < 60 ==> Letters(Slugify(folded)) == Letters(folded)
    ensures Slugify(folded) == "" <==> Letters(folded) == ""
  {
    var collapsed := Collapse(folded, false);
    CollapseShape(folded, false);
    StripStartShape(collapsed);
    StripEndShape(StripStart(collapsed));
    var whole := Strip(collapsed);
    if |whole| > 60 {
      LettersOfPrefix(whole, 60);
    }
    assert Slugify(folded) != "" ==> Alnum(Slugify(folded)[0]) by {
      assert Slugify(folded) != "" ==> Slugify(folded)[0] in Slugify(folded);
    }
  }

  lemma {:induction false} CollapseOfKeyText(s: string, inRun: bool)
    requires KeyChars(s) && NoDoubled(s) && (inRun ==> NoLeading(s))
    ensures Collapse(s, inRun) == s
  {
    if s != "" {
      assert s[0] in s;
      CollapseOfKeyText(s[1..], !Alnum(s[0]));
    }
  }

  /** Slugging a slug takes off the trailing underscore that cutting may have left, and nothing else. */
  lemma SlugTwice(slug: string)
    requires IsSlug(slug)
    ensures Slugify(slug) == if NoTrailing(slug) then slug else slug[..|slug| - 1]
  {
    CollapseOfKeyText(slug, false);
    StripStartShape(slug);
    StripEndShape(slug);
  }

  /** The words of a text: its longest stretches of `a` to `z` and `0` to `9`; `current` is the one being read. */
  function Words(s: string, current: string): seq<string> {
    var done := if current == "" then [] else [current];
    if s == "" then done
    else if 'a' <= s[0] <= 'z' || '0' <= s[0] <= '9' then Words(s[1..], current + [s[0]])
    else done + Words(s[1..], "")
  }

  function Joined(words: seq<string>): string {
    if words == [] then "" else if |words| == 1 then words[0] else words[0] + "_" + Joined(words[1..])
  }

  lemma {:induction false} StripEndAppend(a: string, x: string)
    ensures StripEnd(a + x) == if StripEnd(x) == "" then StripEnd(a) else a + StripEnd(x)
  {
    if x == "" {
      assert a + x == a;
    } else if x[|x| - 1] == '_' {
      assert (a + x)[..|a + x| - 1] == a + x[..|x| - 1];
      StripEndAppend(a, x[..|x| - 1]);
    }
  }

  lemma {:induction false} WordsAreWords(s: string, current: string)
    ensures forall w | w in Words(s, current) :: w != ""
    ensures current != "" ==> Words(s, current) != []
  {
    if s != "" {
      WordsAreWords(s[1..], current + [s[0]]);
      WordsAreWords(s[1..], "");
    }
  }

  lemma JoinedIsSomething(words: seq<string>)
    requires forall w | w in words :: w != ""
    ensures Joined(words) == "" <==> words == []
  {
    assert words != [] ==> words[0] in words;
  }

  /** Collapsed and stripped, the words stand one underscore apart. */
  lemma {:induction false} CollapsedWords(s: string, current: string)
    requires current != "" ==> Alnum(current[|current| - 1])
    ensures StripEnd(current + Collapse(s, current == "")) == Joined(Words(s, current))
    decreases |s|
  {
    hide StripEnd;
    if s == "" {
      assert current + "" == current;
      KeptAtEnd(current);
    } else if Alnum(s[0]) {
      var longer := current + [s[0]];
      assert current + Collapse(s, current == "") == longer + Collapse(s[1..], false);
      assert Words(s, current) == Words(s[1..], longer);
      hide Collapse, Words, Joined;
      CollapsedWords(s[1..], longer);
    } else {
      var rest, words := Collapse(s[1..], true), Words(s[1..], "");
      assert Collapse(s, current == "") == if current == "" then "" + rest else "_" + rest;
      assert Words(s, current) == (if current == "" then [] else [current]) + words;
      WordsAreWords(s[1..], "");
      JoinedIsSomething(words);
      assert current != "" ==> Joined([current] + words) == if words == [] then current else current + "_" + Joined(words) by {
        assert ([current] + words)[1..] == words;
      }
      hide Collapse, Words, Joined;
      CollapsedWords(s[1..], "");
      assert "" + rest == rest && [] + words == words;
      if current != "" {
        AfterWord(current, rest);
      }
    }
  }

  lemma KeptAtEnd(s: string)
    requires s != "" ==> Alnum(s[|s| - 1])
    ensures StripEnd(s) == s
  {
  }

  /** Behind a word, an underscore and what follows it is kept as far as anything is left of that. */
  lemma AfterWord(word: string, rest: string)
    requires word != "" && Alnum(word[|word| - 1])
    ensures StripEnd(word + ("_" + rest)) == if StripEnd(rest) == "" then word else word + "_" + StripEnd(rest)
  {
    StripEndAppend("_", rest);
    StripEndAppend(word, "_" + rest);
    KeptAtEnd(word);
    assert StripEnd("_") == "";
    hide StripEnd;
    assert word + ("_" + StripEnd(rest)) == word + "_" + StripEnd(rest);
  }

  lemma StartsWithAWord(s: string)
    ensures StripStart(Collapse(s, false)) == Collapse(s, true)
  {
    CollapseShape(s, true);
    StripStartShape(Collapse(s, true));
    if s != "" && !Alnum(s[0]) {
      var rest := Collapse(s[1..], true);
      assert Collapse(s, true) == "" + rest == rest;
      assert Collapse(s, false) == "_" + rest && ("_" + rest)[1..] == rest;
    }
  }

  /**
   * A slug is the words of the folded title, one underscore apart, cut after 60
   * characters.
   */
  lemma SlugJoinsWords(folded: string)
    ensures var whole := Joined(Words(folded, "")); Slugify(folded) == if |whole| <= 60 then whole else whole[..60]
  {
    CollapsedWords(folded, "");
    StartsWithAWord(folded);
    assert "" + Collapse(folded, true) == Collapse(folded, true);
    hide StripEnd, StripStart, Collapse, Words, Joined;
  }

  // --------------------------------------------------------------- unique keys

  function Candidate(seed: string, n: nat): string {
    seed + "_" + Digits(n)
  }

  function Seed(base: string): string {
    if base == "" then "bolum" else base
  }

  /** `seed` and `seed_2` up to `seed_(n-1)` are all taken. */
  ghost predicate AllTaken(seed: string, taken: set<string>, n: nat) {
    seed in taken && forall k | 2 <= k < n :: Candidate(seed, k) in taken
  }

  /** Pigeonhole: that many different candidates need that many taken keys. */
  lemma AllTakenIsBounded(seed: string, taken: set<string>, n: nat)
    requires n >= 2 && AllTaken(seed, taken, n)
    ensures n <= |taken| + 1
  {
    var used := CandidatesUpTo(seed, n);
    SubsetIsSmaller(used, taken);
  }

  lemma {:induction false} CandidatesUpTo(seed: string, n: nat) returns (used: set<string>)
    requires n >= 2
    ensures |used| == n - 1 && forall c | c in used :: c == seed || exists k :: 2 <= k < n && c == Candidate(seed, k)
  {
    used := {seed};
    for i := 2 to n
      invariant |used| == i - 1
      invariant forall c | c in used :: c == seed || exists k :: 2 <= k < i && c == Candidate(seed, k)
    {
      if Candidate(seed, i) in used {
        var k :| 2 <= k < i && Candidate(seed, i) == Candidate(seed, k);
        CandidatesAreDistinct(seed, i, k);
      }
      used := used + {Candidate(seed, i)};
    }
  }

  lemma CandidatesAreDistinct(seed: string, i: nat, k: nat)
    requires Candidate(seed, i) == Candidate(seed, k)
    ensures i == k
  {
    assert Candidate(seed, i)[|seed| + 1..] == Digits(i) && Candidate(seed, k)[|seed| + 1..] == Digits(k);
    DigitsAreDistinct(i, k);
  }

  lemma {:induction false} SubsetIsSmaller(a: set<string>, b: set<string>)
    requires a <= b
    ensures |a| <= |b|
  {
    if a != {} {
      var x :| x in a;
      SubsetIsSmaller(a - {x}, b - {x});
    }
  }

  /** `key` is what the search for a free key may return: the first candidate not taken. */
  ghost predicate FirstFree(seed: string, taken: set<string>, key: string) {
    && key !in taken
    && (key == seed || exists n :: 2 <= n <= |taken| + 1 && key == Candidate(seed, n) && AllTaken(seed, taken, n))
  }

  lemma FirstFreeIsUnique(seed: string, taken: set<string>, a: string, b: string)
    requires FirstFree(seed, taken, a) && FirstFree(seed, taken, b)
    ensures a == b
  {
    if a != seed && b != seed {
      var n :| 2 <= n <= |taken| + 1 && a == Candidate(seed, n) && AllTaken(seed, taken, n);
      var m :| 2 <= m <= |taken| + 1 && b == Candidate(seed, m) && AllTaken(seed, taken, m);
      assert n == m;
    }
  }

  /** A title's key, when it and its first repeats are taken: the next number, with an underscore before it. */
  lemma RepeatsAreNumbered(seed: string, taken: set<string>, key: string, n: nat)
    requires FirstFree(seed, taken, key) && n >= 2
    requires seed in taken && (forall k: nat | 2 <= k < n :: seed + "_" + Digits(k) in taken) && seed + "_" + Digits(n) !in taken
    ensures key == seed + "_" + Digits(n)
  {
    var m :| 2 <= m <= |taken| + 1 && key == Candidate(seed, m) && AllTaken(seed, taken, m);
    assert forall k: nat :: Candidate(seed, k) == seed + "_" + Digits(k);
    assert n < m ==> Candidate(seed, n) in taken;
  }

  /** The unbounded search ends, by the time it reaches `seed_(|taken| + 1)`. */
  method UniqueKey(base: string, taken: set<string>) returns (key: string)
    ensures FirstFree(Seed(base), taken, key)
  {
    var seed := if base == "" then "bolum" else base;
    if seed !in taken {
      return seed;
    }
    var n := 2;
    AllTakenIsBounded(seed, taken, n);
    key := seed + "_" + Digits(n);
    while key in taken
      invariant 2 <= n <= |taken| + 1 && AllTaken(seed, taken, n) && key == Candidate(seed, n)
      decreases |taken| + 2 - n
    {
      n := n + 1;
      AllTakenIsBounded(seed, taken, n);
      key := seed + "_" + Digits(n);
    }
  }

  // ------------------------------------------------------------------ sections

  datatype Format = FreeText | BulletList | Table | ImpactMatrix

  /** A posted section. A text field that is not a string is `None`, as is a format outside the four. */
  datatype Posted =
    | NotAnObject
    | Posted(title: Option<string>, format: Option<Format>, aiInstruction: Option<string>, required: bool,
             description: Option<string>, example: Option<string>)

  datatype Section = Section(key: string, title: string, description: string, aiInstruction: string, required: bool, format: Format, example: string)

  datatype Error =
    | SectionsRequired
    | TooManySections
    | SectionInvalid(index: nat)
    | TitleRequired(index: nat)
    | FormatInvalid(index: nat)
    | InstructionRequired(index: nat)

  datatype Normalized = Accepted(sections: seq<Section>) | Refused(error: Error)

  function Text(v: Option<string>): string {
    if v.Some? then Trim(v.value) else ""
  }

  function Fault(p: Posted, index: nat): Option<Error> {
    if p.NotAnObject? then Some(SectionInvalid(index))
    else if Text(p.title) == "" then Some(TitleRequired(index))
    else if p.format.None? then Some(FormatInvalid(index))
    else if Text(p.aiInstruction) == "" then Some(InstructionRequired(index))
    else None
  }

  /** Absent, or nothing but white space. */
  predicate Blank(v: Option<string>) {
    v.None? || AllSpace(v.value)
  }

  lemma TextIsBlank(v: Option<string>)
    ensures Text(v) == "" <==> Blank(v)
  {
    if v.Some? {
      BlankExactly(v.value);
    }
  }

  /** What is wrong with a posted section, each told from the section, and each only where the ones before are in order. */
  lemma FaultsExactly(p: Posted, i: nat)
    ensures Fault(p, i) == Some(SectionInvalid(i)) <==> p.NotAnObject?
    ensures Fault(p, i) == Some(TitleRequired(i)) <==> p.Posted? && Blank(p.title)
    ensures Fault(p, i) == Some(FormatInvalid(i)) <==> p.Posted? && !Blank(p.title) && p.format.None?
    ensures Fault(p, i) == Some(InstructionRequired(i)) <==> p.Posted? && !Blank(p.title) && p.format.Some? && Blank(p.aiInstruction)
    ensures Fault(p, i) == None <==> p.Posted? && !Blank(p.title) && p.format.Some? && !Blank(p.aiInstruction)
  {
    hide Blank, Text;
    if p.Posted? {
      TextIsBlank(p.title);
      TextIsBlank(p.aiInstruction);
    }
  }

  ghost predicate FirstFault(input: seq<Posted>, error: Error) {
    exists i :: 0 <= i < |input| && Fault(input[i], i) == Some(error) && forall j | 0 <= j < i :: Fault(input[j], j).None?
  }

  function KeysOf(sections: seq<Section>): set<string> {
    set s | s in sections :: s.key
  }

  /** Section `s` is posted section `p` with its texts trimmed. */
  predicate Carries(s: Section, p: Posted) {
    && p.Posted? && p.format == Some(s.format) && s.required == p.required
    && s.title == Text(p.title) && s.description == Text(p.description)
    && s.aiInstruction == Text(p.aiInstruction) && s.example == Text(p.example)
  }

  ghost predicate Keyed(sections: seq<Section>, fold: string -> string) {
    && (forall i, j | 0 <= i < j < |sections| :: sections[i].key != sections[j].key)
    && (forall i | 0 <= i < |sections| :: FirstFree(Seed(Slugify(fold(sections[i].title))), KeysOf(sections[..i]), sections[i].key))
  }

  method NormalizeSections(input: Option<seq<Posted>>, fold: string -> string) returns (r: Normalized)
    ensures r.Accepted? <==> input.Some? && 1 <= |input.value| <= 60 && forall i | 0 <= i < |input.value| :: Fault(input.value[i], i).None?
    ensures r.Accepted? ==>
              && |r.sections| == |input.value|
              && (forall i | 0 <= i < |r.sections| :: Carries(r.sections[i], input.value[i]))
              && Keyed(r.sections, fold)
    ensures r.Refused? ==>
              if input.None? || |input.value| == 0 then r.error == SectionsRequired
              else if |input.value| > 60 then r.error == TooManySections
              else FirstFault(input.value, r.error)
  {
    hide FirstFree, Slugify, Text, Keyed, KeysOf, Carries;
    if input.None? || |input.value| == 0 {
      return Refused(SectionsRequired);
    }
    if |input.value| > 60 {
      return Refused(TooManySections);
    }
    var posted := input.value;
    var taken: set<string> := {};
    var sections: seq<Section> := [];
    NothingKeyed(fold);
    for i := 0 to |posted|
      invariant |sections| == i && taken == KeysOf(sections)
      invariant forall j | 0 <= j < i :: Fault(posted[j], j).None? && Carries(sections[j], posted[j])
      invariant Keyed(sections, fold)
    {
      var p := posted[i];
      var fault := Fault(p, i);
      if fault.Some? {
        return Refused(fault.value);
      }
      var title := Text(p.title);
      var key := UniqueKey(Slugify(fold(title)), taken);
      var section := Section(key, title, Text(p.description), Text(p.aiInstruction), p.required, p.format.value, Text(p.example));
      CarriesAll(p, key);
      KeyedAppend(sections, section, fold);
      taken := taken + {key};
      sections := sections + [section];
    }
    return Accepted(sections);
  }

  lemma NothingKeyed(fold: string -> string)
    ensures Keyed([], fold) && KeysOf([]) == {}
  {
  }

  lemma CarriesAll(p: Posted, key: string)
    requires p.Posted? && p.format.Some?
    ensures Carries(Section(key, Text(p.title), Text(p.description), Text(p.aiInstruction), p.required, p.format.value, Text(p.example)), p)
  {
  }

  lemma KeyedAppend(sections: seq<Section>, s: Section, fold: string -> string)
    requires Keyed(sections, fold) && FirstFree(Seed(Slugify(fold(s.title))), KeysOf(sections), s.key)
    ensures Keyed(sections + [s], fold) && KeysOf(sections + [s]) == KeysOf(sections) + {s.key}
  {
    assert s.key !in KeysOf(sections);
    hide FirstFree, Slugify;
    var all := sections + [s];
    assert forall x :: x in all <==> x in sections || x == s;
    assert all[..|sections|] == sections;
    forall i | 0 <= i < |sections|
      ensures FirstFree(Seed(Slugify(fold(all[i].title))), KeysOf(all[..i]), all[i].key) && all[i].key != s.key
    {
      assert all[..i] == sections[..i] && sections[i] in sections;
    }
  }

  lemma {:induction false} KeysAreNoMoreThanSections(sections: seq<Section>)
    ensures |KeysOf(sections)| <= |sections|
  {
    if sections != [] {
      var rest, last := sections[..|sections| - 1], sections[|sections| - 1];
      KeysAreNoMoreThanSections(rest);
      assert sections == rest + [last];
      assert KeysOf(sections) == KeysOf(rest) + {last.key};
    }
  }

  /**
   * What that makes of the keys: short plain identifiers, which a title gets
   * unadorned unless an earlier section already holds it.
   */
  lemma KeysArePlain(sections: seq<Section>, fold: string -> string, i: nat)
    requires Keyed(sections, fold) && i < |sections| <= 60
    ensures var key, seed := sections[i].key, Seed(Slugify(fold(sections[i].title)));
            && KeyChars(key) && key != "" && NoLeading(key) && |key| <= 63
            && (key == seed <==> seed !in KeysOf(sections[..i]))
  {
    var key, folded := sections[i].key, fold(sections[i].title);
    SlugIsASlug(folded);
    SeedIsPlain(Slugify(folded));
    KeysAreNoMoreThanSections(sections[..i]);
    var seed, taken := Seed(Slugify(folded)), KeysOf(sections[..i]);
    hide Slugify, Seed, KeysOf, Keyed, IsSlug;
    KeyIsPlain(seed, taken, key) by {
      assert FirstFree(seed, taken, key) by { OfKeyed(sections, fold, i); }
    }
  }

  lemma OfKeyed(sections: seq<Section>, fold: string -> string, i: nat)
    requires Keyed(sections, fold) && i < |sections|
    ensures FirstFree(Seed(Slugify(fold(sections[i].title))), KeysOf(sections[..i]), sections[i].key)
  {
  }

  lemma SeedIsPlain(slug: string)
    requires IsSlug(slug)
    ensures var seed := Seed(slug); KeyChars(seed) && seed != "" && NoLeading(seed) && |seed| <= 60
  {
  }

  lemma KeyIsPlain(seed: string, taken: set<string>, key: string)
    requires FirstFree(seed, taken, key) && |taken| < 60
    requires KeyChars(seed) && seed != "" && NoLeading(seed) && |seed| <= 60
    ensures KeyChars(key) && key != "" && NoLeading(key) && |key| <= 63
    ensures key == seed <==> seed !in taken
  {
    if key != seed {
      var n :| 2 <= n <= |taken| + 1 && key == Candidate(seed, n) && AllTaken(seed, taken, n);
      TwoDigits(n);
    }
  }

  lemma TwoDigits(n: nat)
    requires n < 100
    ensures |Digits(n)| <= 2
  {
    assert n >= 10 ==> n / 10 < 10;
  }
}
