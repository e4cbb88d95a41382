/**
 * The zip reader of apps/bff/src/docx-zip.ts: the functions say what each part
 * of the archive means, the methods are the loops that compute it.
 */
module DocxZip {
  import opened Wrappers
  import opened Bytes

  const MAX_ENTRY_BYTES := 32 * 1024 * 1024
  const END_OF_CENTRAL_DIR := 0x06054b50
  const CENTRAL_FILE_HEADER := 0x02014b50
  const LOCAL_FILE_HEADER := 0x04034b50
  const MAX_COMMENT := 0xffff

  datatype ZipError =
    | NoEndRecord
    | DirectoryPastEnd
    | CountDoesNotFit
    | DirectoryCorrupt
    | NamePastEnd
    | EntryTooLarge
    | NoLocalHeader
    | DataPastEnd
    | UnsupportedCompression
    | NotInflatable

  datatype Result<+T> = Ok(value: T) | Refused(error: ZipError)

  datatype CentralEntry = CentralEntry(
    name: string,
    compression: nat,
    compressedSize: nat,
    uncompressedSize: nat,
    localHeaderOffset: nat)

  /** `inflateRawSync` as an unknown partial function; `None` is its exception. */
  type Inflater = seq<byte> -> Option<seq<byte>>

  // ---------------------------------------------------------------- meaning

  /** An end record the backward scan may stop at: no further back than the longest comment. */
  predicate IsEndRecord(b: seq<byte>, at: nat) {
    at + 22 <= |b| && |b| - 22 - MAX_COMMENT <= at && U32(b, at) == END_OF_CENTRAL_DIR
  }

  /** The last end record at or before `at`. */
  function EndRecordUpTo(b: seq<byte>, at: int): (r: Result<nat>)
    requires at + 22 <= |b|
    ensures r.Ok? ==> r.value <= at && IsEndRecord(b, r.value)
    ensures r.Ok? ==> forall k: nat | r.value < k <= at :: !IsEndRecord(b, k)
    ensures r.Refused? ==> r.error == NoEndRecord && forall k: nat | k <= at :: !IsEndRecord(b, k)
    decreases if at < 0 then 0 else at + 1
  {
    if at < 0 || at < |b| - 22 - MAX_COMMENT then Refused(NoEndRecord)
    else if IsEndRecord(b, at) then Ok(at)
    else EndRecordUpTo(b, at - 1)
  }

  function EndRecord(b: seq<byte>): (r: Result<nat>)
    ensures r.Ok? ==> r.value + 22 <= |b|
  {
    EndRecordUpTo(b, |b| - 22)
  }

  /** A central header: its signature, fixed part and name lie inside the file. */
  predicate Header(b: seq<byte>, h: nat) {
    h + 46 <= |b| && U32(b, h) == 0x02014b50 && h + 46 + U16(b, h + 28) <= |b|
  }

  function CentralEntryAt(b: seq<byte>, at: nat): CentralEntry
    requires Header(b, at)
  {
    CentralEntry(Latin1(b[at + 46..at + 46 + U16(b, at + 28)]), U16(b, at + 10),
                 U32(b, at + 20), U32(b, at + 24), U32(b, at + 42))
  }

  function NextHeader(b: seq<byte>, at: nat): nat
    requires Header(b, at)
  {
    at + 46 + U16(b, at + 28) + U16(b, at + 30) + U16(b, at + 32)
  }

  function Before(first: seq<CentralEntry>, r: Result<seq<CentralEntry>>): Result<seq<CentralEntry>> {
    if r.Ok? then Ok(first + r.value) else r
  }

  lemma BeforeIsAssociative(a: seq<CentralEntry>, b: seq<CentralEntry>, r: Result<seq<CentralEntry>>)
    ensures Before(a + b, r) == Before(a, Before(b, r))
    ensures Before([], r) == r
  {
    if r.Ok? {
      assert a + b + r.value == a + (b + r.value);
      assert [] + r.value == r.value;
    }
  }

  /** `count` central headers laid end to end from `at`. */
  function Entries(b: seq<byte>, at: nat, count: nat): Result<seq<CentralEntry>>
    decreases count
  {
    if count == 0 then Ok([])
    else if at + 46 > |b| || U32(b, at) != CENTRAL_FILE_HEADER then Refused(DirectoryCorrupt)
    else if at + 46 + U16(b, at + 28) > |b| then Refused(NamePastEnd)
    else
      Before([CentralEntryAt(b, at)], Entries(b, NextHeader(b, at), count - 1))
  }

  function Directory(b: seq<byte>): Result<seq<CentralEntry>> {
    match EndRecord(b)
    case Refused(e) => Refused(e)
    case Ok(end) =>
      var count, size, offset := U16(b, end + 10), U32(b, end + 12), U32(b, end + 16);
      if offset + size > |b| then Refused(DirectoryPastEnd)
      else if 46 * count > size + 46 then Refused(CountDoesNotFit) // count > size / 46 + 1 over the reals
      else Entries(b, offset, count)
  }

  /** Where an entry's data starts, by the LOCAL header's own name and extra lengths. */
  function DataStart(b: seq<byte>, header: nat): nat
    requires header + 30 <= |b|
  {
    header + 30 + U16(b, header + 26) + U16(b, header + 28)
  }

  function Contents(b: seq<byte>, e: CentralEntry, inflate: Inflater): Result<seq<byte>> {
    if e.uncompressedSize > MAX_ENTRY_BYTES then Refused(EntryTooLarge)
    else if e.localHeaderOffset + 30 > |b| || U32(b, e.localHeaderOffset) != LOCAL_FILE_HEADER then Refused(NoLocalHeader)
    else
      var start := DataStart(b, e.localHeaderOffset);
      if start + e.compressedSize > |b| then Refused(DataPastEnd)
      else
        var raw := b[start..start + e.compressedSize];
        if e.compression == 0 then Ok(raw)
        else if e.compression != 8 then Refused(UnsupportedCompression)
        else
          match inflate(raw)
          case None => Refused(NotInflatable)
          case Some(out) => if |out| > MAX_ENTRY_BYTES then Refused(NotInflatable) else Ok(out)
  }

  /** `entries.find(candidate => candidate.name === name)`. */
  function Find(entries: seq<CentralEntry>, name: string): (r: Option<CentralEntry>)
    ensures r.None? <==> forall e | e in entries :: e.name != name
    ensures r.Some? ==> exists i | 0 <= i < |entries| ::
                          entries[i] == r.value && r.value.name == name && forall j | 0 <= j < i :: entries[j].name != name
  {
    if entries == [] then None
    else if entries[0].name == name then Some(entries[0])
    else
      var r := Find(entries[1..], name);
      assert forall i | 0 < i < |entries| :: entries[i] == entries[1..][i - 1];
      r
  }

  function ReadEntry(b: seq<byte>, name: string, inflate: Inflater): Result<Option<seq<byte>>> {
    match Directory(b)
    case Refused(e) => Refused(e)
    case Ok(entries) =>
      match Find(entries, name)
      case None => Ok(None)
      case Some(entry) =>
        match Contents(b, entry, inflate)
        case Ok(out) => Ok(Some(out))
        case Refused(e) => Refused(e)
  }

  function Names(entries: seq<CentralEntry>): (names: seq<string>)
    ensures |names| == |entries|
    ensures forall i | 0 <= i < |entries| :: names[i] == entries[i].name
  {
    seq(|entries|, i requires 0 <= i < |entries| => entries[i].name)
  }

  function EntryNames(b: seq<byte>): Result<seq<string>> {
    match Directory(b)
    case Ok(entries) => Ok(Names(entries))
    case Refused(e) => Refused(e)
  }

  // ------------------------------------------------- what an answer says

  /** The last place of the file, no further back than the longest comment allows, that reads as an end record. */
  ghost predicate EndsAt(b: seq<byte>, end: nat) {
    && end + 22 <= |b| && |b| - 22 - 65535 <= end && U32(b, end) == 0x06054b50
    && forall k: nat | end < k && k + 22 <= |b| :: U32(b, k) != 0x06054b50
  }

  /** Headers laid end to end from `at`, each followed by its name, extra field and comment. */
  ghost predicate Laid(b: seq<byte>, at: nat, headers: seq<nat>) {
    && (forall i | 0 <= i < |headers| :: Header(b, headers[i]))
    && (headers != [] ==> headers[0] == at)
    && forall i | 0 < i < |headers| :: FollowsAt(b, headers, i)
  }

  /** `headers[i]` stands right behind the one before, with its name, extra field and comment. */
  predicate FollowsAt(b: seq<byte>, headers: seq<nat>, i: nat)
    requires 0 < i < |headers| && Header(b, headers[i - 1])
  {
    headers[i] == headers[i - 1] + 46 + U16(b, headers[i - 1] + 28) + U16(b, headers[i - 1] + 30) + U16(b, headers[i - 1] + 32)
  }

  /** Where the header after those laid from `at` would stand. */
  function Next(b: seq<byte>, at: nat, headers: seq<nat>): nat
    requires headers != [] ==> Header(b, headers[|headers| - 1])
  {
    if headers == [] then at
    else
      var h := headers[|headers| - 1];
      h + 46 + U16(b, h + 28) + U16(b, h + 30) + U16(b, h + 32)
  }

  /** The directory the end record at `end` speaks of lies inside the file, and its count fits its size. */
  predicate Fits(b: seq<byte>, end: nat)
    requires end + 22 <= |b|
  {
    U32(b, end + 16) + U32(b, end + 12) <= |b| && 46 * U16(b, end + 10) <= U32(b, end + 12) + 46
  }

  /** The archive's directory: as many central headers as its end record counts. */
  ghost predicate Listing(b: seq<byte>, headers: seq<nat>) {
    && (forall i | 0 <= i < |headers| :: Header(b, headers[i]))
    && exists end: nat :: EndsAt(b, end) && Fits(b, end) && |headers| == U16(b, end + 10) && Laid(b, U32(b, end + 16), headers)
  }

  function NameAt(b: seq<byte>, h: nat): string
    requires Header(b, h)
  {
    Latin1(b[h + 46..h + 46 + U16(b, h + 28)])
  }

  /** `h` is the first central header of that name. */
  ghost predicate FirstNamed(b: seq<byte>, name: string, h: nat) {
    exists headers :: Listing(b, headers) && FirstIn(b, headers, name, h)
  }

  predicate FirstIn(b: seq<byte>, headers: seq<nat>, name: string, h: nat)
    requires forall i | 0 <= i < |headers| :: Header(b, headers[i])
  {
    exists i | 0 <= i < |headers| ::
      headers[i] == h && NameAt(b, headers[i]) == name && forall j | 0 <= j < i :: NameAt(b, headers[j]) != name
  }

  /** It declares no more than the limit of 32 MiB. */
  predicate DeclaresLittle(b: seq<byte>, h: nat)
    requires Header(b, h)
  {
    U32(b, h + 24) <= 33554432
  }

  /** Where it says its local header is, one stands. */
  predicate HasLocal(b: seq<byte>, h: nat)
    requires Header(b, h)
  {
    var local := U32(b, h + 42);
    local + 30 <= |b| && U32(b, local) == 0x04034b50
  }

  /** Where the packed data starts: after the LOCAL header's name and extra field. */
  function DataAt(b: seq<byte>, h: nat): nat
    requires Header(b, h) && HasLocal(b, h)
  {
    var local := U32(b, h + 42);
    local + 30 + U16(b, local + 26) + U16(b, local + 28)
  }

  predicate DataInside(b: seq<byte>, h: nat) {
    Header(b, h) && HasLocal(b, h) && DataAt(b, h) + U32(b, h + 20) <= |b|
  }

  function Packed(b: seq<byte>, h: nat): seq<byte>
    requires DataInside(b, h)
  {
    b[DataAt(b, h)..DataAt(b, h) + U32(b, h + 20)]
  }

  /** The data of `h` comes out as `out`: stored as it is, or inflated to no more than the limit. */
  predicate Unpacks(b: seq<byte>, h: nat, inflate: Inflater, out: seq<byte>)
    requires DataInside(b, h)
  {
    || (U16(b, h + 10) == 0 && out == Packed(b, h))
    || (U16(b, h + 10) == 8 && inflate(Packed(b, h)) == Some(out) && |out| <= 33554432)
  }

  /** A look-up's answer, from the first header of the name: its data, or the first thing wrong with it. */
  predicate Tells(b: seq<byte>, h: nat, inflate: Inflater, r: Result<Option<seq<byte>>>)
    requires Header(b, h)
  {
    match r
    case Ok(None) => false
    case Ok(Some(out)) => DeclaresLittle(b, h) && DataInside(b, h) && Unpacks(b, h, inflate, out)
    case Refused(EntryTooLarge) => !DeclaresLittle(b, h)
    case Refused(NoLocalHeader) => DeclaresLittle(b, h) && !HasLocal(b, h)
    case Refused(DataPastEnd) => DeclaresLittle(b, h) && HasLocal(b, h) && !DataInside(b, h)
    case Refused(UnsupportedCompression) => DeclaresLittle(b, h) && DataInside(b, h) && U16(b, h + 10) != 0 && U16(b, h + 10) != 8
    case Refused(NotInflatable) =>
      && DeclaresLittle(b, h) && DataInside(b, h) && U16(b, h + 10) == 8
      && (inflate(Packed(b, h)).None? || |inflate(Packed(b, h)).value| > 33554432)
    case Refused(_) => false
  }

  /** The directory cannot be read, and `e` is the first thing wrong with it. */
  ghost predicate BrokenBy(b: seq<byte>, e: ZipError) {
    match e
    case NoEndRecord => forall k: nat | k + 22 <= |b| && |b| - 22 - 65535 <= k :: U32(b, k) != 0x06054b50
    case DirectoryPastEnd => exists end: nat :: EndsAt(b, end) && U32(b, end + 16) + U32(b, end + 12) > |b|
    case CountDoesNotFit =>
      exists end: nat :: EndsAt(b, end) && U32(b, end + 16) + U32(b, end + 12) <= |b| && 46 * U16(b, end + 10) > U32(b, end + 12) + 46
    case DirectoryCorrupt => exists headers, end: nat :: StopsAfter(b, end, headers, true)
    case NamePastEnd => exists headers, end: nat :: StopsAfter(b, end, headers, false)
    case _ => false
  }

  /** Fewer headers than counted can be laid, these being the first; behind them none begins, or one's name runs out of the file. */
  ghost predicate StopsAfter(b: seq<byte>, end: nat, headers: seq<nat>, noneBegins: bool) {
    && EndsAt(b, end) && Fits(b, end) && |headers| < U16(b, end + 10) && Laid(b, U32(b, end + 16), headers)
    && var p := Next(b, U32(b, end + 16), headers);
    !Header(b, p) && (noneBegins <==> NoHeaderAt(b, p))
  }

  predicate NoHeaderAt(b: seq<byte>, p: nat) {
    p + 46 > |b| || U32(b, p) != 0x02014b50
  }

  // ----------------------------------------------------- and that it says so

  lemma EndRecordIs(b: seq<byte>)
    ensures forall end: nat :: EndRecord(b) == Ok(end) <==> EndsAt(b, end)
    ensures EndRecord(b) == Refused(NoEndRecord) <==> BrokenBy(b, NoEndRecord)
    ensures EndRecord(b).Ok? || EndRecord(b) == Refused(NoEndRecord)
  {
    hide U32;
    var r := EndRecord(b);
    if |b| >= 22 {
      assert r == EndRecordUpTo(b, |b| - 22);
      hide EndRecordUpTo;
      if r.Ok? {
        forall k: nat | r.value < k && k + 22 <= |b| ensures U32(b, k) != 0x06054b50 {
          assert !IsEndRecord(b, k);
        }
      } else {
        forall k: nat | k + 22 <= |b| && |b| - 22 - 65535 <= k ensures U32(b, k) != 0x06054b50 {
          assert !IsEndRecord(b, k);
        }
      }
    }
    forall end: nat | EndsAt(b, end) ensures r == Ok(end) {
      assert IsEndRecord(b, end);
    }
  }

  function EntriesAt(b: seq<byte>, headers: seq<nat>): (entries: seq<CentralEntry>)
    requires forall i | 0 <= i < |headers| :: Header(b, headers[i])
    ensures |entries| == |headers| && forall i | 0 <= i < |headers| :: entries[i] == CentralEntryAt(b, headers[i])
  {
    seq(|headers|, i requires 0 <= i < |headers| => CentralEntryAt(b, headers[i]))
  }

  lemma LaidTail(b: seq<byte>, at: nat, headers: seq<nat>)
    requires Laid(b, at, headers) && headers != []
    ensures Header(b, at) && Laid(b, NextHeader(b, at), headers[1..]) && Next(b, NextHeader(b, at), headers[1..]) == Next(b, at, headers)
    ensures EntriesAt(b, headers) == [CentralEntryAt(b, at)] + EntriesAt(b, headers[1..])
  {
    RestIsLaid(b, at, headers);
    NextOfTail(b, at, headers);
    EntriesTail(b, headers);
  }

  lemma RestIsLaid(b: seq<byte>, at: nat, headers: seq<nat>)
    requires Laid(b, at, headers) && headers != []
    ensures headers[0] == at && Header(b, at) && Laid(b, NextHeader(b, at), headers[1..])
  {
    var rest := headers[1..];
    assert rest != [] ==> FollowsAt(b, headers, 1);
    assert rest != [] ==> rest[0] == NextHeader(b, at);
    hide U16, U32, Header, NextHeader;
    forall i | 0 < i < |rest| ensures FollowsAt(b, rest, i) {
      assert FollowsAt(b, headers, i + 1);
    }
  }

  lemma NextOfTail(b: seq<byte>, at: nat, headers: seq<nat>)
    requires headers != [] && headers[0] == at && Header(b, at) && Header(b, headers[|headers| - 1])
    ensures |headers| > 1 ==> Header(b, headers[1..][|headers| - 2])
    ensures Next(b, NextHeader(b, at), headers[1..]) == Next(b, at, headers)
  {
    hide U16, U32, Header;
    if |headers| > 1 {
      assert headers[1..][|headers| - 2] == headers[|headers| - 1];
    }
  }

  lemma EntriesTail(b: seq<byte>, headers: seq<nat>)
    requires headers != [] && forall i | 0 <= i < |headers| :: Header(b, headers[i])
    ensures EntriesAt(b, headers) == [CentralEntryAt(b, headers[0])] + EntriesAt(b, headers[1..])
  {
    hide CentralEntryAt, Header;
  }

  /** Headers laid from `at` are read as they stand; what follows them decides the rest. */
  lemma {:induction false} LaidAreRead(b: seq<byte>, at: nat, headers: seq<nat>, count: nat)
    requires Laid(b, at, headers) && |headers| <= count
    ensures Entries(b, at, count) == Before(EntriesAt(b, headers), Entries(b, Next(b, at, headers), count - |headers|))
    decreases headers
  {
    hide Entries, U16, U32, CentralEntryAt, NextHeader, Before;
    var rest := Entries(b, Next(b, at, headers), count - |headers|);
    if headers == [] {
      BeforeIsAssociative([], [], rest);
      assert EntriesAt(b, headers) == [];
    } else {
      LaidTail(b, at, headers);
      OneEntry(b, at, count);
      var next := NextHeader(b, at);
      hide Laid, Next, Header;
      LaidAreRead(b, next, headers[1..], count - 1);
      BeforeIsAssociative([CentralEntryAt(b, at)], EntriesAt(b, headers[1..]), rest);
    }
  }

  lemma BadEntry(b: seq<byte>, at: nat, count: nat)
    requires !Header(b, at) && count > 0
    ensures Entries(b, at, count) == Refused(if NoHeaderAt(b, at) then DirectoryCorrupt else NamePastEnd)
  {
    hide U16, U32;
  }

  lemma OneEntry(b: seq<byte>, at: nat, count: nat)
    requires Header(b, at) && count > 0
    ensures Entries(b, at, count) == Before([CentralEntryAt(b, at)], Entries(b, NextHeader(b, at), count - 1))
  {
  }

  /** The headers that can be laid from `at`, all of them or up to the first that cannot. */
  lemma {:induction false} HeadersFrom(b: seq<byte>, at: nat, count: nat) returns (headers: seq<nat>)
    ensures Laid(b, at, headers) && |headers| <= count
    ensures |headers| < count ==> !Header(b, Next(b, at, headers))
    decreases count
  {
    headers := [];
    if count > 0 && Header(b, at) {
      var next := NextHeader(b, at);
      var rest := HeadersFrom(b, next, count - 1);
      headers := [at] + rest;
      LaidBefore(b, at, rest);
    }
  }

  lemma LaidBefore(b: seq<byte>, at: nat, rest: seq<nat>)
    requires Header(b, at) && Laid(b, NextHeader(b, at), rest)
    ensures Laid(b, at, [at] + rest) && Next(b, at, [at] + rest) == Next(b, NextHeader(b, at), rest)
  {
    hide U16, U32;
    var headers := [at] + rest;
    forall i | 0 < i < |headers| ensures FollowsAt(b, headers, i) {
      assert i > 1 ==> FollowsAt(b, rest, i - 1);
    }
  }

  /** What the walk makes of headers that are as many as counted, or behind which none stands. */
  lemma WalkIs(b: seq<byte>, end: nat, headers: seq<nat>)
    requires EndsAt(b, end) && Fits(b, end) && |headers| <= U16(b, end + 10) && Laid(b, U32(b, end + 16), headers)
    requires |headers| < U16(b, end + 10) ==> !Header(b, Next(b, U32(b, end + 16), headers))
    ensures Directory(b) == if |headers| == U16(b, end + 10) then Ok(EntriesAt(b, headers))
                            else if NoHeaderAt(b, Next(b, U32(b, end + 16), headers)) then Refused(DirectoryCorrupt) else Refused(NamePastEnd)
  {
    hide EndRecord, Directory, Entries, U16, U32, Before, NoHeaderAt, BrokenBy;
    EndRecordIs(b);
    DirectorySteps(b);
    var at, count := U32(b, end + 16), U16(b, end + 10);
    var next := Next(b, at, headers);
    LaidAreRead(b, at, headers, count);
    BeforeKeeps(EntriesAt(b, headers));
    hide EndsAt, Laid, Next, Header;
    if |headers| < count {
      BadEntry(b, next, count - |headers|);
    } else {
      NoEntries(b, next);
    }
  }

  lemma ListedAreRead(b: seq<byte>, headers: seq<nat>)
    requires Listing(b, headers)
    ensures Directory(b) == Ok(EntriesAt(b, headers))
  {
    var end: nat :| EndsAt(b, end) && Fits(b, end) && |headers| == U16(b, end + 10) && Laid(b, U32(b, end + 16), headers);
    hide Laid;
    WalkIs(b, end, headers);
  }

  lemma StoppedIsRefused(b: seq<byte>, end: nat, headers: seq<nat>, noneBegins: bool)
    requires StopsAfter(b, end, headers, noneBegins)
    ensures Directory(b) == Refused(if noneBegins then DirectoryCorrupt else NamePastEnd)
  {
    hide Laid;
    WalkIs(b, end, headers);
  }

  /** What the directory of a file is, told from its end record. */
  lemma DirectoryIs(b: seq<byte>, end: nat) returns (headers: seq<nat>, noneBegins: bool)
    requires EndsAt(b, end) && Fits(b, end)
    ensures StopsAfter(b, end, headers, noneBegins) || Listing(b, headers)
  {
    headers := HeadersFrom(b, U32(b, end + 16), U16(b, end + 10));
    noneBegins := NoHeaderAt(b, Next(b, U32(b, end + 16), headers));
    hide Laid, U16, U32;
  }

  lemma NoDirectory(b: seq<byte>)
    requires EndRecord(b).Refused? || !Fits(b, EndRecord(b).value)
    ensures Directory(b) == match EndRecord(b)
                            case Refused(e) => Refused(e)
                            case Ok(end) => Refused(if U32(b, end + 16) + U32(b, end + 12) > |b| then DirectoryPastEnd else CountDoesNotFit)
  {
    hide Entries, U16, U32;
  }

  /** A directory is refused exactly for what is wrong with it first. */
  lemma DirectoryFault(b: seq<byte>, e: ZipError)
    ensures Directory(b) == Refused(e) <==> BrokenBy(b, e)
  {
    EndRecordIs(b);
    hide EndsAt, Entries, EndRecord, Directory, StopsAfter, Listing, U16, U32;
    var r := EndRecord(b);
    if r.Refused? || !Fits(b, r.value) {
      NoDirectory(b);
    } else {
      var headers, noneBegins := DirectoryIs(b, r.value);
      if StopsAfter(b, r.value, headers, noneBegins) {
        StoppedIsRefused(b, r.value, headers, noneBegins);
      } else {
        ListedAreRead(b, headers);
      }
    }
    forall headers, end: nat, noneBegins: bool | StopsAfter(b, end, headers, noneBegins)
      ensures Directory(b) == Refused(if noneBegins then DirectoryCorrupt else NamePastEnd) && r == Ok(end) && Fits(b, end)
    {
      StoppedIsRefused(b, end, headers, noneBegins);
      OfStopped(b, end, headers, noneBegins);
    }
  }

  lemma OfStopped(b: seq<byte>, end: nat, headers: seq<nat>, noneBegins: bool)
    requires StopsAfter(b, end, headers, noneBegins)
    ensures EndsAt(b, end) && Fits(b, end)
  {
  }

  lemma ListingExists(b: seq<byte>) returns (headers: seq<nat>)
    requires Directory(b).Ok?
    ensures Listing(b, headers) && (forall i | 0 <= i < |headers| :: Header(b, headers[i])) && Directory(b) == Ok(EntriesAt(b, headers))
  {
    EndRecordIs(b);
    var end := EndRecord(b).value;
    var noneBegins;
    headers, noneBegins := DirectoryIs(b, end);
    hide Entries, EndsAt, StopsAfter, Laid;
    if StopsAfter(b, end, headers, noneBegins) {
      StoppedIsRefused(b, end, headers, noneBegins);
    } else {
      ListedAreRead(b, headers);
    }
  }

  /** The first entry of a name is that of the first header of the name. */
  lemma FoundIsFirst(b: seq<byte>, headers: seq<nat>, name: string)
    requires forall i | 0 <= i < |headers| :: Header(b, headers[i])
    ensures forall h | FirstIn(b, headers, name, h) :: Header(b, h) && Find(EntriesAt(b, headers), name) == Some(CentralEntryAt(b, h))
    ensures Find(EntriesAt(b, headers), name).Some? ==> exists h: nat :: FirstIn(b, headers, name, h)
    ensures Find(EntriesAt(b, headers), name).None? <==> forall i | 0 <= i < |headers| :: NameAt(b, headers[i]) != name
  {
    hide U16, U32, Header, Latin1, Find;
    var entries := EntriesAt(b, headers);
    assert forall i | 0 <= i < |headers| :: entries[i].name == NameAt(b, headers[i]) && entries[i] == CentralEntryAt(b, headers[i]);
    hide CentralEntryAt, NameAt, EntriesAt;
    forall h | FirstIn(b, headers, name, h) ensures Find(entries, name) == Some(CentralEntryAt(b, h)) && Header(b, h) {
      var i :| 0 <= i < |headers| && headers[i] == h && NameAt(b, headers[i]) == name && forall j | 0 <= j < i :: NameAt(b, headers[j]) != name;
      FindsFirst(entries, name, i);
    }
    if Find(entries, name).Some? {
      var i :| 0 <= i < |entries| && entries[i] == Find(entries, name).value && entries[i].name == name && forall j | 0 <= j < i :: entries[j].name != name;
      assert FirstIn(b, headers, name, headers[i]);
    }
  }

  lemma FindsFirst(entries: seq<CentralEntry>, name: string, i: nat)
    requires i < |entries| && entries[i].name == name && forall j | 0 <= j < i :: entries[j].name != name
    ensures Find(entries, name) == Some(entries[i])
  {
    assert entries[i] in entries;
    hide Find;
    var k :| 0 <= k < |entries| && entries[k] == Find(entries, name).value && entries[k].name == name && forall j | 0 <= j < k :: entries[j].name != name;
    assert k == i;
  }

  /** No header of the archive's directory bears the name. */
  ghost predicate NowhereNamed(b: seq<byte>, name: string) {
    exists headers :: Listing(b, headers) && forall i | 0 <= i < |headers| :: NameAt(b, headers[i]) != name
  }

  /** A header with a name like no other before it. */
  lemma FirstNamedIsFound(b: seq<byte>, name: string, h: nat)
    requires FirstNamed(b, name, h)
    ensures Header(b, h) && Directory(b).Ok? && Find(Directory(b).value, name) == Some(CentralEntryAt(b, h))
  {
    var headers :| Listing(b, headers) && FirstIn(b, headers, name, h);
    ListedAreRead(b, headers);
    FoundIsFirst(b, headers, name);
    hide Directory;
  }

  lemma ContentsTell(b: seq<byte>, h: nat, inflate: Inflater, r: Result<Option<seq<byte>>>)
    requires Header(b, h)
    ensures Tells(b, h, inflate, r) <==>
            r == match Contents(b, CentralEntryAt(b, h), inflate) case Ok(out) => Ok(Some(out)) case Refused(e) => Refused(e)
  {
  }

  /**
   * For every byte array and name: a look-up answers "no such entry" exactly when
   * the directory is whole and no header in it bears the name; it refuses the
   * directory exactly for what is wrong with it first; and everything else it
   * answers is exactly what the first header of that name and the data behind it
   * say.
   */
  lemma ReadsExactly(b: seq<byte>, name: string, inflate: Inflater, r: Result<Option<seq<byte>>>)
    ensures ReadEntry(b, name, inflate) == r <==>
            match r
            case Ok(None) => NowhereNamed(b, name)
            case _ => (r.Refused? && BrokenBy(b, r.error)) || SaysFirst(b, name, inflate, r)
  {
    hide Entries, Listing, BrokenBy, Tells, Contents, FirstIn, Directory, CentralEntryAt;
    if Directory(b).Refused? {
      DirectoryFault(b, Directory(b).error);
    } else {
      var headers := ListingExists(b);
      FoundIsFirst(b, headers, name);
      if Find(EntriesAt(b, headers), name).Some? {
        var h: nat :| FirstIn(b, headers, name, h);
        assert FirstNamed(b, name, h);
        ContentsTell(b, h, inflate, ReadEntry(b, name, inflate));
        assert Tells(b, h, inflate, ReadEntry(b, name, inflate));
      }
    }
    ReadsAsSaid(b, name, inflate, r);
  }

  ghost predicate SaysFirst(b: seq<byte>, name: string, inflate: Inflater, r: Result<Option<seq<byte>>>) {
    exists h: nat :: FirstNamed(b, name, h) && Header(b, h) && Tells(b, h, inflate, r)
  }

  lemma ReadsAsSaid(b: seq<byte>, name: string, inflate: Inflater, r: Result<Option<seq<byte>>>)
    ensures SaysFirst(b, name, inflate, r) ==> ReadEntry(b, name, inflate) == r && r != Ok(None)
    ensures r.Refused? && BrokenBy(b, r.error) ==> ReadEntry(b, name, inflate) == r
    ensures NowhereNamed(b, name) ==> ReadEntry(b, name, inflate) == Ok(None)
  {
    hide Entries, Listing, BrokenBy, Contents, FirstIn, Directory, CentralEntryAt, FirstNamed;
    if SaysFirst(b, name, inflate, r) {
      var h: nat :| FirstNamed(b, name, h) && Header(b, h) && Tells(b, h, inflate, r);
      FirstNamedIsFound(b, name, h);
      ContentsTell(b, h, inflate, r);
    }
    hide Tells;
    if r.Refused? && BrokenBy(b, r.error) {
      DirectoryFault(b, r.error);
    }
    if NowhereNamed(b, name) {
      NowhereIsNone(b, name);
    }
  }

  lemma NowhereIsNone(b: seq<byte>, name: string)
    requires NowhereNamed(b, name)
    ensures Directory(b).Ok? && Find(Directory(b).value, name).None?
  {
    var headers :| Listing(b, headers) && forall i | 0 <= i < |headers| :: NameAt(b, headers[i]) != name;
    ListedAreRead(b, headers);
    FoundIsFirst(b, headers, name);
  }

  ghost predicate NamesOf(b: seq<byte>, headers: seq<nat>, names: seq<string>) {
    Listing(b, headers) && |names| == |headers| && forall i | 0 <= i < |headers| :: names[i] == NameAt(b, headers[i])
  }

  /** A listing gives exactly the names of the directory's headers, in order, or refuses for what is wrong with it first. */
  lemma ListsExactly(b: seq<byte>, names: seq<string>, e: ZipError)
    ensures EntryNames(b) == Ok(names) <==> exists headers :: NamesOf(b, headers, names)
    ensures EntryNames(b) == Refused(e) <==> BrokenBy(b, e)
  {
    hide Entries, Listing, BrokenBy, Directory, U16, U32;
    DirectoryFault(b, e);
    if Directory(b).Ok? {
      var headers := ListingExists(b);
      assert forall i | 0 <= i < |headers| :: EntriesAt(b, headers)[i].name == NameAt(b, headers[i]);
      assert NamesOf(b, headers, Names(Directory(b).value));
    }
    forall headers | NamesOf(b, headers, names) ensures EntryNames(b) == Ok(names) {
      NamesAreRead(b, headers, names);
    }
  }

  lemma NamesAreRead(b: seq<byte>, headers: seq<nat>, names: seq<string>)
    requires NamesOf(b, headers, names)
    ensures EntryNames(b) == Ok(names)
  {
    ListedAreRead(b, headers);
    hide Directory;
    assert forall i | 0 <= i < |headers| :: EntriesAt(b, headers)[i].name == NameAt(b, headers[i]);
    assert Names(EntriesAt(b, headers)) == names;
  }

  // ----------------------------------------------------------------- loops

  /** The backward scan; `looked` counts the positions it reads. */
  method FindEndRecord(bytes: seq<byte>) returns (r: Result<nat>, looked: nat)
    ensures r == EndRecord(bytes)
    ensures looked <= MAX_COMMENT + 1
  {
    var earliest := if |bytes| - 22 - MAX_COMMENT > 0 then |bytes| - 22 - MAX_COMMENT else 0;
    var at := |bytes| - 22;
    looked := 0;
    while at >= earliest
      invariant at <= |bytes| - 22
      invariant looked == |bytes| - 22 - at
      invariant at < |bytes| - 22 ==> at + 1 >= earliest
      invariant EndRecord(bytes) == EndRecordUpTo(bytes, at)
    {
      looked := looked + 1;
      if U32(bytes, at) == END_OF_CENTRAL_DIR {
        return Ok(at), looked;
      }
      at := at - 1;
    }
    r := Refused(NoEndRecord);
  }

  /** The directory walk: one header an iteration, `at` moving past each. */
  method CentralDirectory(bytes: seq<byte>) returns (r: Result<seq<CentralEntry>>)
    ensures r == Directory(bytes)
  {
    DirectorySteps(bytes);
    hide Directory, EndRecord, Entries, CentralEntryAt, U16, U32, Before;
    var found, _ := FindEndRecord(bytes);
    if found.Refused? {
      return Refused(found.error);
    }
    var end := found.value;
    var count, size, offset := U16(bytes, end + 10), U32(bytes, end + 12), U32(bytes, end + 16);
    if offset + size > |bytes| {
      return Refused(DirectoryPastEnd);
    }
    if 46 * count > size + 46 {
      return Refused(CountDoesNotFit);
    }
    var entries: seq<CentralEntry> := [];
    var at: nat := offset;
    var index := 0;
    BeforeIsAssociative([], [], Entries(bytes, offset, count));
    while index < count
      invariant index <= count
      invariant Entries(bytes, offset, count) == Before(entries, Entries(bytes, at, count - index))
    {
      if at + 46 > |bytes| || U32(bytes, at) != CENTRAL_FILE_HEADER {
        BadEntry(bytes, at, count - index);
        BeforeKeeps(entries);
        return Refused(DirectoryCorrupt);
      }
      var nameLength, extraLength, commentLength := U16(bytes, at + 28), U16(bytes, at + 30), U16(bytes, at + 32);
      var nameStart := at + 46;
      if nameStart + nameLength > |bytes| {
        BadEntry(bytes, at, count - index);
        BeforeKeeps(entries);
        return Refused(NamePastEnd);
      }
      OneEntry(bytes, at, count - index);
      var entry := CentralEntryAt(bytes, at);
      BeforeIsAssociative(entries, [entry], Entries(bytes, NextHeader(bytes, at), count - index - 1));
      entries := entries + [entry];
      at := nameStart + nameLength + extraLength + commentLength;
      index := index + 1;
    }
    NoEntries(bytes, at);
    BeforeKeeps(entries);
    r := Ok(entries);
  }

  lemma BeforeKeeps(entries: seq<CentralEntry>)
    ensures forall e :: Before(entries, Refused(e)) == Refused(e)
    ensures Before(entries, Ok([])) == Ok(entries)
  {
    assert entries + [] == entries;
  }

  lemma DirectorySteps(b: seq<byte>)
    ensures match EndRecord(b)
            case Refused(e) => Directory(b) == Refused(e)
            case Ok(end) =>
              Directory(b) == if U32(b, end + 16) + U32(b, end + 12) > |b| then Refused(DirectoryPastEnd)
                              else if 46 * U16(b, end + 10) > U32(b, end + 12) + 46 then Refused(CountDoesNotFit)
                              else Entries(b, U32(b, end + 16), U16(b, end + 10))
  {
    hide Entries, U16, U32, EndRecord;
  }

  lemma NoEntries(b: seq<byte>, at: nat)
    ensures Entries(b, at, 0) == Ok([])
  {
  }

  method ReadZipEntry(bytes: seq<byte>, entryName: string, inflate: Inflater) returns (r: Result<Option<seq<byte>>>)
    ensures r == ReadEntry(bytes, entryName, inflate)
  {
    var entries := CentralDirectory(bytes);
    if entries.Refused? {
      return Refused(entries.error);
    }
    var entry := Find(entries.value, entryName);
    if entry.None? {
      return Ok(None);
    }
    var out := Contents(bytes, entry.value, inflate);
    r := if out.Ok? then Ok(Some(out.value)) else Refused(out.error);
  }

  method ZipEntryNames(bytes: seq<byte>) returns (r: Result<seq<string>>)
    ensures r == EntryNames(bytes)
  {
    var entries := CentralDirectory(bytes);
    r := if entries.Ok? then Ok(Names(entries.value)) else Refused(entries.error);
  }

  // -------------------------------------------------- every byte array at all

  /** Each parsed entry stands at a central header of its own whose name is a run of the file's bytes. */
  lemma {:induction false} NameLiesInside(b: seq<byte>, at: nat, count: nat, i: nat) returns (h: nat)
    requires Entries(b, at, count).Ok? && i < count
    ensures |Entries(b, at, count).value| == count
    ensures Header(b, h) && at + 46 * i <= h
    ensures Entries(b, at, count).value[i] == CentralEntryAt(b, h)
    decreases count
  {
    var next := NextHeader(b, at);
    var rest := Entries(b, next, count - 1);
    assert Entries(b, at, count).value == [CentralEntryAt(b, at)] + rest.value;
    if count > 1 {
      h := NameLiesInside(b, next, count - 1, if i == 0 then 0 else i - 1);
    }
    if i == 0 {
      h := at;
    }
  }

  /**
   * The size limit on what comes back. An inflated entry never exceeds it; a
   * stored one is never copied or grown, it is a run of the upload's own bytes.
   */
  lemma ReadIsBounded(b: seq<byte>, name: string, inflate: Inflater)
    requires ReadEntry(b, name, inflate).Ok? && ReadEntry(b, name, inflate).value.Some?
    ensures var out := ReadEntry(b, name, inflate).value.value;
            |out| <= MAX_ENTRY_BYTES || exists i: nat, j: nat :: i <= j <= |b| && out == b[i..j]
  {
    var entry := Find(Directory(b).value, name).value;
    var start := DataStart(b, entry.localHeaderOffset);
    if entry.compression == 0 {
      assert ReadEntry(b, name, inflate).value.value == b[start..start + entry.compressedSize];
    }
  }
}
