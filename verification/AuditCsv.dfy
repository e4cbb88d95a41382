/**
 * The auditor's download: apps/bff/src/audit-filter.ts and its twin in
 * apps/pilot/src/audit-report.ts, against a reader for section 2 of RFC 4180
 * that also takes a bare line feed as a record end.
 */
module AuditCsv {
  import opened Wrappers
  import opened Sequences
  import opened Texts

  datatype AuditEvent = AuditEvent(seqNo: nat, at: string, actor: string, action: string, subject: string, hash: string)

  // --------------------------------------------------------------- the printer

  predicate Special(c: char) {
    c == ',' || c == '"' || c == '\n' || c == '\r'
  }

  predicate Plain(s: string) {
    forall c | c in s :: !Special(c)
  }

  /** `replace(/"/g, '""')`. */
  function Doubled(s: string): string {
    if s == "" then "" else (if s[0] == '"' then "\"\"" else [s[0]]) + Doubled(s[1..])
  }

  function CsvField(value: string): string {
    if Plain(value) then value else "\"" + Doubled(value) + "\""
  }

  function Join(parts: seq<string>, separator: string): string {
    if parts == [] then ""
    else if |parts| == 1 then parts[0]
    else parts[0] + separator + Join(parts[1..], separator)
  }

  const HEADER: seq<string> := ["seq", "at", "actor", "action", "subject", "hash"]

  function Fields(e: AuditEvent): seq<string> {
    [Digits(e.seqNo), e.at, CsvField(e.actor), CsvField(e.action), CsvField(e.subject), e.hash]
  }

  function Row(e: AuditEvent): string {
    Join(Fields(e), ",")
  }

  function Rows(events: seq<AuditEvent>): seq<string> {
    [Join(HEADER, ",")] + Map(events, Row)
  }

  method AuditEventsToCsv(events: seq<AuditEvent>) returns (csv: string)
    ensures csv == Csv(events)
  {
    hide Join, Digits, CsvField, Map, Terminated;
    var rows := [Join(HEADER, ",")];
    for i := 0 to |events|
      invariant rows == Rows(events[..i])
    {
      assert events[..i + 1] == events[..i] + [events[i]];
      RowsAppend(events[..i], events[i]);
      var e := events[i];
      rows := rows + [Join([Digits(e.seqNo), e.at, CsvField(e.actor), CsvField(e.action), CsvField(e.subject), e.hash], ",")];
    }
    assert events[..|events|] == events;
    csv := Join(rows, "\n") + "\n";
    JoinIsTerminated(rows);
  }

  lemma RowsAppend(events: seq<AuditEvent>, e: AuditEvent)
    ensures Rows(events + [e]) == Rows(events) + [Row(e)]
  {
    hide Row, Join;
  }

  /** Every row ended by a line feed. */
  function Terminated(rows: seq<string>): string {
    if rows == [] then "" else rows[0] + "\n" + Terminated(rows[1..])
  }

  function Csv(events: seq<AuditEvent>): string {
    Terminated(Rows(events))
  }

  lemma {:induction false} JoinIsTerminated(rows: seq<string>)
    requires rows != []
    ensures Join(rows, "\n") + "\n" == Terminated(rows)
  {
    if |rows| > 1 {
      JoinIsTerminated(rows[1..]);
      assert Join(rows, "\n") + "\n" == rows[0] + "\n" + (Join(rows[1..], "\n") + "\n");
    }
  }

  // ---------------------------------------------------------------- the reader

  datatype Read<T> = Read(value: T, rest: string)

  /** The inside of a quoted field, up to and past its closing quote. */
  function ReadQuoted(s: string): (r: Option<Read<string>>)
    ensures r.Some? ==> |r.value.rest| < |s|
  {
    if s == "" then None
    else if s[0] == '"' then
      if |s| > 1 && s[1] == '"' then
        match ReadQuoted(s[2..])
        case None => None
        case Some(Read(v, rest)) => Some(Read("\"" + v, rest))
      else Some(Read("", s[1..]))
    else
      match ReadQuoted(s[1..])
      case None => None
      case Some(Read(v, rest)) => Some(Read([s[0]] + v, rest))
  }

  function ReadBare(s: string): (r: Read<string>)
    ensures |r.rest| <= |s| && Plain(r.value)
  {
    if s == "" || Special(s[0]) then Read("", s)
    else
      var r := ReadBare(s[1..]);
      Read([s[0]] + r.value, r.rest)
  }

  function ReadField(s: string): (r: Option<Read<string>>)
    ensures r.Some? ==> |r.value.rest| <= |s|
  {
    if s != "" && s[0] == '"' then ReadQuoted(s[1..]) else Some(ReadBare(s))
  }

  /** Fields up to and past the record's end, LF or CRLF. */
  function ReadRecord(s: string): (r: Option<Read<seq<string>>>)
    ensures r.Some? ==> |r.value.rest| < |s|
    decreases |s|
  {
    match ReadField(s)
    case None => None
    case Some(Read(field, rest)) =>
      if rest == "" then None
      else if rest[0] == '\n' then Some(Read([field], rest[1..]))
      else if |rest| > 1 && rest[0] == '\r' && rest[1] == '\n' then Some(Read([field], rest[2..]))
      else if rest[0] == ',' then
        match ReadRecord(rest[1..])
        case None => None
        case Some(Read(fields, after)) => Some(Read([field] + fields, after))
      else None
  }

  function ReadAll(s: string): Option<seq<seq<string>>>
    decreases |s|
  {
    if s == "" then Some([])
    else
      match ReadRecord(s)
      case None => None
      case Some(Read(fields, rest)) =>
        match ReadAll(rest)
        case None => None
        case Some(records) => Some([fields] + records)
  }

  /** The six columns of an event, as text. */
  function Columns(e: AuditEvent): seq<string> {
    [Digits(e.seqNo), e.at, e.actor, e.action, e.subject, e.hash]
  }

  ghost predicate Tidy(e: AuditEvent) {
    Plain(e.at) && Plain(e.hash)
  }

  // ---------------------------------------------------------------- one field

  lemma {:induction false} ReadsBare(v: string, tail: string)
    requires Plain(v) && tail != "" && Special(tail[0])
    ensures ReadBare(v + tail) == Read(v, tail)
  {
    if v == "" {
      assert v + tail == tail;
    } else {
      assert v[0] in v;
      assert (v + tail)[1..] == v[1..] + tail;
      ReadsBare(v[1..], tail);
      assert v == [v[0]] + v[1..];
    }
  }

  lemma {:induction false} ReadsQuoted(v: string, tail: string)
    requires tail != "" && tail[0] != '"'
    ensures ReadQuoted(Doubled(v) + "\"" + tail) == Some(Read(v, tail))
  {
    var s := Doubled(v) + "\"" + tail;
    if v == "" {
      assert s == "\"" + tail;
    } else {
      ReadsQuoted(v[1..], tail);
      if v[0] == '"' {
        assert s[2..] == Doubled(v[1..]) + "\"" + tail;
      } else {
        assert s[1..] == Doubled(v[1..]) + "\"" + tail;
      }
      assert v == [v[0]] + v[1..];
    }
  }

  /** A printed field in front of a separator reads back as itself. */
  lemma ReadsField(v: string, tail: string)
    requires tail != "" && (tail[0] == ',' || tail[0] == '\n')
    ensures ReadField(CsvField(v) + tail) == Some(Read(v, tail))
  {
    hide Doubled, ReadBare, ReadQuoted;
    if Plain(v) {
      ReadsBare(v, tail);
      assert v != "" ==> v[0] in v;
    } else {
      var inside := Doubled(v) + "\"" + tail;
      assert CsvField(v) + tail == "\"" + inside;
      assert ("\"" + inside)[1..] == inside;
      ReadsQuoted(v, tail);
    }
  }

  ghost predicate Quotes(s: string, n: nat) {
    n <= |s| && forall i | 0 <= i < n :: s[i] == '"'
  }

  /** A quoted field whose value starts with n quotes was written with twice as many. */
  lemma {:induction false} QuotesAreDoubled(s: string, n: nat)
    requires ReadQuoted(s).Some? && Quotes(ReadQuoted(s).value.value, n)
    ensures Quotes(s, 2 * n)
  {
    if n > 0 {
      var v := ReadQuoted(s).value.value;
      assert v[0] == '"';
      assert s[0] == '"' && |s| > 1 && s[1] == '"';
      var inner := ReadQuoted(s[2..]).value.value;
      assert v == "\"" + inner;
      forall i | 0 <= i < n - 1 ensures inner[i] == '"' {
        assert v[i + 1] == '"';
      }
      QuotesAreDoubled(s[2..], n - 1);
      forall i | 0 <= i < 2 * n ensures s[i] == '"' {
        if i >= 2 {
          assert s[2..][i - 2] == '"';
        }
      }
    }
  }

  function LeadingQuotes(s: string): (n: nat)
    ensures Quotes(s, n) && (n < |s| ==> s[n] != '"')
  {
    if s == "" || s[0] != '"' then 0
    else
      var n := LeadingQuotes(s[1..]);
      assert forall i | 1 <= i < n + 1 :: s[i] == s[1..][i - 1];
      n + 1
  }

  lemma StrayQuoteIsLost(v: string, tail: string)
    requires v != "" && v[0] == '"' && tail != "" && tail[0] != '"'
    ensures ReadQuoted((v + tail)[1..]).Some? ==> ReadQuoted((v + tail)[1..]).value.value != v
  {
    var s, n := v + tail, LeadingQuotes(v);
    var read := ReadQuoted(s[1..]);
    assert s[1..][n - 1] == s[n] && s[n] != '"';
    if read.Some? && read.value.value == v {
      QuotesAreDoubled(s[1..], n);
    }
  }

  /** An unquoted column reads back as itself exactly when it is plain. */
  lemma RawFieldReadsExactly(v: string, tail: string)
    requires tail != "" && (tail[0] == ',' || tail[0] == '\n')
    ensures ReadField(v + tail).Some? && ReadField(v + tail).value.value == v <==> Plain(v)
    ensures Plain(v) ==> ReadField(v + tail) == Some(Read(v, tail))
  {
    hide ReadQuoted, ReadBare;
    if Plain(v) {
      ReadsBare(v, tail);
      assert v != "" ==> v[0] in v;
    } else if v[0] == '"' {
      StrayQuoteIsLost(v, tail);
    }
  }

  // -------------------------------------------------------------- one record

  /** A record written as `written` is read as `read` exactly when `ok`, and then to its very end. */
  ghost predicate ReadsAs(written: seq<string>, read: seq<string>, ok: bool, after: string) {
    var r := ReadRecord(Join(written, ",") + ("\n" + after));
    && (r.Some? && r.value.value == read <==> ok)
    && (ok ==> r == Some(Read(read, after)))
  }

  lemma JoinCons(v: string, parts: seq<string>, end: string)
    requires parts != []
    ensures Join([v] + parts, ",") + end == v + ("," + (Join(parts, ",") + end))
  {
    assert ([v] + parts)[1..] == parts;
  }

  lemma ReadsOn(written: string, parts: seq<string>, read: seq<string>, ok: bool, v: string, fits: bool, after: string)
    requires parts != [] && ReadsAs(parts, read, ok, after)
    requires forall tail | tail != "" && tail[0] == ',' ::
               && (ReadField(written + tail).Some? && ReadField(written + tail).value.value == v <==> fits)
               && (fits ==> ReadField(written + tail) == Some(Read(v, tail)))
    ensures ReadsAs([written] + parts, [v] + read, fits && ok, after)
  {
    hide Join, ReadField;
    var end := "\n" + after;
    JoinCons(written, parts, end);
    var tail := "," + (Join(parts, ",") + end);
    assert tail[1..] == Join(parts, ",") + end;
    var r := ReadRecord(written + tail);
    assert r.Some? && r.value.value == [v] + read ==> r.value.value[0] == v && r.value.value[1..] == read;
    var field := ReadField(written + tail);
    assert r.Some? ==> r.value.value[0] == field.value.value;
  }

  /** A column that is escaped always reads back. */
  lemma EscapedReadsOn(v: string, parts: seq<string>, read: seq<string>, ok: bool, after: string)
    requires parts != [] && ReadsAs(parts, read, ok, after)
    ensures ReadsAs([CsvField(v)] + parts, [v] + read, ok, after)
  {
    hide ReadsAs, ReadField, CsvField;
    forall tail | tail != "" && tail[0] == ',' ensures ReadField(CsvField(v) + tail) == Some(Read(v, tail)) {
      ReadsField(v, tail);
    }
    ReadsOn(CsvField(v), parts, read, ok, v, true, after);
  }

  /** A column that is not escaped reads back exactly when it is plain. */
  lemma RawReadsOn(v: string, parts: seq<string>, read: seq<string>, ok: bool, after: string)
    requires parts != [] && ReadsAs(parts, read, ok, after)
    ensures ReadsAs([v] + parts, [v] + read, Plain(v) && ok, after)
  {
    hide ReadsAs, ReadField, Plain;
    forall tail | tail != "" && tail[0] == ','
      ensures ReadField(v + tail).Some? && ReadField(v + tail).value.value == v <==> Plain(v)
      ensures Plain(v) ==> ReadField(v + tail) == Some(Read(v, tail))
    {
      RawFieldReadsExactly(v, tail);
    }
    ReadsOn(v, parts, read, ok, v, Plain(v), after);
  }

  /** The last column, and the end of the record. */
  lemma LastReadsOn(v: string, after: string)
    ensures ReadsAs([v], [v], Plain(v), after)
  {
    hide Plain, ReadField;
    var tail := "\n" + after;
    RawFieldReadsExactly(v, tail);
    assert Join([v], ",") == v && tail[1..] == after;
    var r, field := ReadRecord(v + tail), ReadField(v + tail);
    assert r.Some? ==> r.value.value[0] == field.value.value;
  }

  lemma DigitsPlain(n: nat)
    ensures Plain(Digits(n))
  {
  }

  /** A row is read back as its event's six columns exactly when `at` and `hash` are plain. */
  lemma ReadsRow(e: AuditEvent, after: string)
    ensures ReadsAs(Fields(e), Columns(e), Tidy(e), after)
  {
    hide Digits, CsvField, Plain, ReadsAs;
    LastReadsOn(e.hash, after);
    EscapedReadsOn(e.subject, [e.hash], [e.hash], Plain(e.hash), after);
    EscapedReadsOn(e.action, [CsvField(e.subject)] + [e.hash], [e.subject] + [e.hash], Plain(e.hash), after);
    var written, read := [CsvField(e.action)] + ([CsvField(e.subject)] + [e.hash]), [e.action] + ([e.subject] + [e.hash]);
    EscapedReadsOn(e.actor, written, read, Plain(e.hash), after);
    RawReadsOn(e.at, [CsvField(e.actor)] + written, [e.actor] + read, Plain(e.hash), after);
    RawReadsOn(Digits(e.seqNo), [e.at] + ([CsvField(e.actor)] + written), [e.at] + ([e.actor] + read), Tidy(e), after);
    DigitsPlain(e.seqNo);
    assert Fields(e) == [Digits(e.seqNo)] + ([e.at] + ([CsvField(e.actor)] + written));
    assert Columns(e) == [Digits(e.seqNo)] + ([e.at] + ([e.actor] + read));
  }

  // ------------------------------------------------------------- the whole file

  /** Records follow one another. */
  lemma ReadsAllOn(written: seq<string>, read: seq<string>, ok: bool, rest: string, records: seq<seq<string>>)
    requires ReadsAs(written, read, ok, rest)
    ensures ReadAll(Join(written, ",") + ("\n" + rest)) == Some([read] + records) <==> ok && ReadAll(rest) == Some(records)
  {
    hide Join, ReadRecord;
    var s := Join(written, ",") + ("\n" + rest);
    var r, all := ReadRecord(s), ReadAll(s);
    if all == Some([read] + records) {
      assert all.value[0] == r.value.value && all.value[0] == read && all.value[1..] == records;
    }
  }

  lemma {:induction false} ReadsEvents(events: seq<AuditEvent>)
    ensures ReadAll(Terminated(Map(events, Row))) == Some(Map(events, Columns)) <==> forall e | e in events :: Tidy(e)
  {
    if events != [] {
      var rest := events[1..];
      var tail := Terminated(Map(rest, Row));
      RowsFromFirst(events);
      hide ReadsAs, Join, Fields, Columns, Tidy, ReadAll, Map, Terminated, Digits, CsvField;
      ReadsEvents(rest);
      ReadsRow(events[0], tail);
      ReadsAllOn(Fields(events[0]), Columns(events[0]), Tidy(events[0]), tail, Map(rest, Columns));
      assert (forall e | e in events :: Tidy(e)) <==> Tidy(events[0]) && forall e | e in rest :: Tidy(e);
    }
  }

  lemma RowsFromFirst(events: seq<AuditEvent>)
    requires events != []
    ensures Terminated(Map(events, Row)) == Row(events[0]) + ("\n" + Terminated(Map(events[1..], Row)))
    ensures Map(events, Columns) == [Columns(events[0])] + Map(events[1..], Columns)
  {
    hide Join, Fields, Columns, Row;
    assert Map(events, Row) == [Row(events[0])] + Map(events[1..], Row);
    assert ([Row(events[0])] + Map(events[1..], Row))[1..] == Map(events[1..], Row);
  }

  lemma {:induction false} ReadsPlain(fields: seq<string>, after: string)
    requires fields != [] && forall f | f in fields :: Plain(f)
    ensures ReadsAs(fields, fields, true, after)
  {
    hide ReadsAs, Plain;
    if |fields| == 1 {
      LastReadsOn(fields[0], after);
      assert fields == [fields[0]];
    } else {
      ReadsPlain(fields[1..], after);
      RawReadsOn(fields[0], fields[1..], fields[1..], true, after);
      assert fields == [fields[0]] + fields[1..];
    }
  }

  /**
   * The file reads back as the header and the six columns of every event, in
   * order and whatever quotes, commas and line ends actor, action and subject
   * hold, exactly when no event has any of those in `at` or `hash`.
   */
  lemma ExportReadsBack(events: seq<AuditEvent>)
    ensures ReadAll(Csv(events)) == Some([HEADER] + Map(events, Columns)) <==> forall e | e in events :: Tidy(e)
  {
    hide Join, Map, ReadAll, Columns, Plain, Row;
    HeaderPlain();
    ReadsUnder(HEADER, events);
    assert Rows(events)[1..] == Map(events, Row);
  }

  lemma HeaderPlain()
    ensures forall f | f in HEADER :: Plain(f)
  {
  }

  lemma ReadsUnder(header: seq<string>, events: seq<AuditEvent>)
    requires header != [] && forall f | f in header :: Plain(f)
    ensures ReadAll(Join(header, ",") + "\n" + Terminated(Map(events, Row))) == Some([header] + Map(events, Columns)) <==>
            forall e | e in events :: Tidy(e)
  {
    hide ReadsAs, Join, Tidy, Map, ReadAll, Columns, Plain, Row, Terminated;
    var tail := Terminated(Map(events, Row));
    ReadsPlain(header, tail);
    ReadsEvents(events);
    ReadsAllOn(header, header, true, tail, Map(events, Columns));
    assert Join(header, ",") + "\n" + tail == Join(header, ",") + ("\n" + tail);
  }

  // -------------------------------------------------------------------- paging

  datatype Page = Page(total: nat, events: seq<AuditEvent>, offset: nat, limit: nat)

  /** `Math.floor(n) || other`; `None` is NaN, which the query string can produce. */
  function FloorOr(n: Option<real>, other: int): int {
    if n.None? || n.value.Floor == 0 then other else n.value.Floor
  }

  function Min(a: int, b: int): int {
    if a < b then a else b
  }

  function Max(a: int, b: int): int {
    if a < b then b else a
  }

  /** `slice(low, high)` for non-negative bounds. */
  function Slice<T>(s: seq<T>, low: nat, high: nat): seq<T> {
    if low >= |s| || high <= low then [] else s[low..Min(high, |s|)]
  }

  function PageAuditEvents(events: seq<AuditEvent>, keeps: AuditEvent -> bool, offset: Option<real>, limit: Option<real>): (p: Page)
    ensures 1 <= p.limit <= 500 && |p.events| <= p.limit && p.total == |Filter(events, keeps)|
  {
    var filtered := Filter(events, keeps);
    var safeLimit: nat := Min(500, Max(1, FloorOr(limit, 50)));
    var safeOffset: nat := Max(0, FloorOr(offset, 0));
    Page(|filtered|, Slice(filtered, safeOffset, safeOffset + safeLimit), safeOffset, safeLimit)
  }

  /**
   * The page that is given: at most 500 and at least one record long, fifty where no
   * limit is asked for, or one below a single record; from the offset asked for, or from the start; and of the
   * filtered window just the records there.
   */
  lemma PageIsAsAsked(events: seq<AuditEvent>, keeps: AuditEvent -> bool, offset: Option<real>, limit: Option<real>)
    ensures var p, window := PageAuditEvents(events, keeps, offset, limit), Filter(events, keeps);
            && p.total == |window|
            && (limit.None? || 0.0 <= limit.value < 1.0 ==> p.limit == 50) && (offset.None? ==> p.offset == 0)
            && (limit.Some? && limit.value < 0.0 ==> p.limit == 1) && (limit.Some? && limit.value >= 500.0 ==> p.limit == 500)
            && (limit.Some? && 1.0 <= limit.value < 500.0 ==> p.limit as real <= limit.value < (p.limit + 1) as real)
            && (offset.Some? && offset.value < 1.0 ==> p.offset == 0)
            && (offset.Some? && offset.value >= 0.0 ==> p.offset as real <= offset.value < (p.offset + 1) as real)
            && (p.offset >= |window| ==> p.events == [])
            && (p.offset < |window| ==> |p.events| == (if p.limit <= |window| - p.offset then p.limit else |window| - p.offset)
                                        && forall i | 0 <= i < |p.events| :: p.events[i] == window[p.offset + i])
  {
    hide Filter;
  }

  function PageFrom(events: seq<AuditEvent>, keeps: AuditEvent -> bool, offset: nat, limit: Option<real>): (p: Page)
    ensures 1 <= p.limit <= 500 && p.total == |Filter(events, keeps)|
  {
    PageAuditEvents(events, keeps, Some(offset as real), limit)
  }

  /** What a reader collects by asking for page after page from `offset` on. */
  function Walk(events: seq<AuditEvent>, keeps: AuditEvent -> bool, offset: nat, limit: Option<real>): seq<AuditEvent>
    decreases |Filter(events, keeps)| - offset
  {
    var p := PageFrom(events, keeps, offset, limit);
    if offset >= p.total then [] else p.events + Walk(events, keeps, offset + p.limit, limit)
  }

  /** Whatever limit is asked for, pages tile the filtered window: nothing twice, nothing left out. */
  lemma {:induction false} PagesTile(events: seq<AuditEvent>, keeps: AuditEvent -> bool, offset: nat, limit: Option<real>)
    requires offset <= |Filter(events, keeps)|
    ensures Walk(events, keeps, offset, limit) == Filter(events, keeps)[offset..]
    decreases |Filter(events, keeps)| - offset
  {
    hide Filter, PageFrom;
    PageAt(events, keeps, offset, limit);
    var p := PageFrom(events, keeps, offset, limit);
    if offset < p.total {
      var next := offset + p.limit;
      if next < p.total {
        PagesTile(events, keeps, next, limit);
        Split(Filter(events, keeps), offset, next);
      } else {
        WalkEnds(events, keeps, next, limit);
      }
    }
  }

  lemma WalkEnds(events: seq<AuditEvent>, keeps: AuditEvent -> bool, offset: nat, limit: Option<real>)
    requires offset >= |Filter(events, keeps)|
    ensures Walk(events, keeps, offset, limit) == []
  {
    hide Filter, PageFrom;
  }

  lemma Split(s: seq<AuditEvent>, low: nat, high: nat)
    requires low <= high <= |s|
    ensures s[low..] == s[low..high] + s[high..]
  {
  }

  lemma PageAt(events: seq<AuditEvent>, keeps: AuditEvent -> bool, offset: nat, limit: Option<real>)
    requires offset <= |Filter(events, keeps)|
    ensures var filtered, p := Filter(events, keeps), PageFrom(events, keeps, offset, limit);
            p.offset == offset && p.events == filtered[offset..Min(offset + p.limit, |filtered|)]
  {
    hide Filter;
  }

  /** What the pilot's download writes out: one page, as long as it thinks it can ask for. */
  function PilotExport(events: seq<AuditEvent>, keeps: AuditEvent -> bool): seq<AuditEvent> {
    PageAuditEvents(events, keeps, Some(0.0), Some((|events| + 1) as real)).events
  }

  lemma {:induction false} FilterShrinks(events: seq<AuditEvent>, keeps: AuditEvent -> bool)
    ensures |Filter(events, keeps)| <= |events|
  {
    if events != [] {
      FilterShrinks(events[1..], keeps);
    }
  }

  /** It is meant to be the whole window; it is, exactly up to 500 events, and the first 500 beyond. */
  lemma PilotExportIsWholeUpTo500(events: seq<AuditEvent>, keeps: AuditEvent -> bool)
    ensures PilotExport(events, keeps) == Filter(events, keeps) <==> |Filter(events, keeps)| <= 500
    ensures PilotExport(events, keeps) == Filter(events, keeps)[..Min(500, |Filter(events, keeps)|)]
  {
    FilterShrinks(events, keeps);
  }

  /** So the pilot's file holds every record of the window exactly up to 500 of them. */
  lemma PilotFileIsWholeUpTo500(events: seq<AuditEvent>, keeps: AuditEvent -> bool)
    requires forall e | e in events :: Tidy(e)
    ensures ReadAll(Csv(PilotExport(events, keeps))) == Some([HEADER] + Map(Filter(events, keeps), Columns)) <==> |Filter(events, keeps)| <= 500
  {
    PilotExportIsWholeUpTo500(events, keeps);
    hide PilotExport, ReadAll, Csv, Columns, Tidy;
    var window, out := Filter(events, keeps), PilotExport(events, keeps);
    forall e | e in out ensures Tidy(e) {
      assert e in window;
    }
    ExportReadsBack(out);
    assert |[HEADER] + Map(out, Columns)| == 1 + |out| && |[HEADER] + Map(window, Columns)| == 1 + |window|;
  }
}
