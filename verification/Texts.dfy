/** JavaScript's `trim`, and `String(n)` of a natural number. */
module Texts {
  predicate IsSpace(c: char) {
    c in " \t\n\r\U{000B}\U{000C}\U{00A0}\U{FEFF}\U{1680}\U{2028}\U{2029}\U{202F}\U{205F}\U{3000}" || '\U{2000}' <= c <= '\U{200A}'
  }

  function TrimStart(s: string): (t: string)
    ensures |t| <= |s|
  {
    if s != "" && IsSpace(s[0]) then TrimStart(s[1..]) else s
  }

  function TrimEnd(s: string): (t: string)
    ensures |t| <= |s|
  {
    if s != "" && IsSpace(s[|s| - 1]) then TrimEnd(s[..|s| - 1]) else s
  }

  /** JavaScript's `trim`. */
  function Trim(s: string): string {
    TrimEnd(TrimStart(s))
  }

  function Digits(n: nat): (s: string)
    ensures s != "" && forall c | c in s :: '0' <= c <= '9'
  {
    if n < 10 then ["0123456789"[n]] else Digits(n / 10) + ["0123456789"[n % 10]]
  }

  lemma {:induction false} DigitsAreDistinct(m: nat, n: nat)
    requires Digits(m) == Digits(n)
    ensures m == n
  {
    var dm, dn := Digits(m), Digits(n);
    assert dm[|dm| - 1] == "0123456789"[m % 10] && dn[|dn| - 1] == "0123456789"[n % 10];
    assert m % 10 == n % 10;
    if m >= 10 && n >= 10 {
      assert Digits(m / 10) == dm[..|dm| - 1] && Digits(n / 10) == dn[..|dn| - 1];
      DigitsAreDistinct(m / 10, n / 10);
    } else {
      assert |dm| == 1 <==> m < 10;
      assert |dn| == 1 <==> n < 10;
    }
  }

  predicate AllSpace(s: string) {
    forall c | c in s :: IsSpace(c)
  }

  /** Trimming takes white space off both ends, and nothing else. */
  lemma TrimMeans(s: string) returns (before: string, after: string)
    ensures s == before + Trim(s) + after && AllSpace(before) && AllSpace(after)
    ensures Trim(s) != "" ==> !IsSpace(Trim(s)[0]) && !IsSpace(Trim(s)[|Trim(s)| - 1])
  {
    hide IsSpace;
    before := TrimStartMeans(s);
    after := TrimEndMeans(TrimStart(s));
    assert TrimStart(s) == Trim(s) + after;
    assert s == before + (Trim(s) + after);
  }

  lemma {:induction false} TrimStartMeans(s: string) returns (before: string)
    ensures s == before + TrimStart(s) && AllSpace(before)
    ensures TrimStart(s) != "" ==> !IsSpace(TrimStart(s)[0])
  {
    hide IsSpace;
    before := "";
    if s != "" && IsSpace(s[0]) {
      var rest := TrimStartMeans(s[1..]);
      before := [s[0]] + rest;
      assert s == [s[0]] + s[1..];
    }
  }

  lemma {:induction false} TrimEndMeans(s: string) returns (after: string)
    ensures s == TrimEnd(s) + after && AllSpace(after)
    ensures TrimEnd(s) != "" ==> TrimEnd(s)[0] == s[0] && !IsSpace(TrimEnd(s)[|TrimEnd(s)| - 1])
  {
    hide IsSpace;
    after := "";
    if s != "" && IsSpace(s[|s| - 1]) {
      var rest := TrimEndMeans(s[..|s| - 1]);
      after := rest + [s[|s| - 1]];
      assert s == s[..|s| - 1] + [s[|s| - 1]];
    }
  }

  /** A text trims to nothing exactly when it is all white space. */
  lemma BlankExactly(s: string)
    ensures Trim(s) == "" <==> AllSpace(s)
  {
    hide IsSpace;
    var before, after := TrimMeans(s);
    if Trim(s) != "" {
      assert Trim(s)[0] in s;
    }
  }

  lemma NothingToTrim(s: string)
    requires s != "" && !IsSpace(s[0]) && !IsSpace(s[|s| - 1])
    ensures Trim(s) == s
  {
  }

  /** The number that decimal digits stand for. */
  function ValueOf(s: string): int {
    if s == "" then 0 else 10 * ValueOf(s[..|s| - 1]) + (s[|s| - 1] as int - '0' as int)
  }

  /** Digits are read back as the number, and carry no leading zero. */
  lemma {:induction false} DigitsMean(n: nat)
    ensures ValueOf(Digits(n)) == n && (n > 0 ==> Digits(n)[0] != '0') && (n == 0 ==> Digits(n) == "0")
  {
    assert forall d | 0 <= d < 10 :: "0123456789"[d] as int == '0' as int + d;
    if n >= 10 {
      DigitsMean(n / 10);
      assert Digits(n)[..|Digits(n)| - 1] == Digits(n / 10);
    } else {
      assert Digits(n)[..0] == "";
    }
  }
}
