/**
 * A reference zip writer, laid out as sections 4.3.7, 4.3.12 and 4.3.16 of
 * PKWARE APPNOTE.TXT say, and the proof that the reader gives back what was
 * written. Everything the reader never looks at is left to the writer's whim:
 * leading bytes, header fields, local names, extra fields, comments, gaps.
 */
module DocxZipRoundTrip {
  import opened Wrappers
  import opened Bytes
  import opened DocxZip

  /** One member: its packed bytes, and what unpacking them must give. */
  datatype Part = Part(
    name: seq<byte>,
    deflated: bool,
    packed: seq<byte>,
    declaredSize: nat,
    localFields: seq<byte>,  // version, flags, method, time, date, CRC and sizes of the local copy
    localName: seq<byte>,
    localExtra: seq<byte>,
    gap: seq<byte>,          // whatever follows the data, such as a data descriptor
    madeBy: seq<byte>,       // versions and flags of the central copy
    stamp: seq<byte>,        // time, date and CRC of the central copy
    attributes: seq<byte>,
    extra: seq<byte>,
    comment: seq<byte>)

  datatype Archive = Archive(
    lead: seq<byte>,
    parts: seq<Part>,
    middle: seq<byte>,       // between the directory and the end record
    disks: seq<byte>,        // the three disk-number fields of the end record
    comment: seq<byte>)

  // ---------------------------------------------------------------- writer

  /** Section 4.3.7, followed by the data. */
  function LocalHeader(p: Part): seq<byte> {
    Le32(LOCAL_FILE_HEADER) + p.localFields + Le16(|p.localName|) + Le16(|p.localExtra|)
  }

  function LocalRecord(p: Part): (r: seq<byte>)
    ensures |r| > |p.packed|
  {
    LocalHeader(p) + (p.localName + p.localExtra) + p.packed + p.gap
  }

  function Locals(parts: seq<Part>): seq<byte> {
    if parts == [] then [] else LocalRecord(parts[0]) + Locals(parts[1..])
  }

  /** Section 4.3.12. */
  function CentralHeader(p: Part, offset: nat): seq<byte> {
    Le32(CENTRAL_FILE_HEADER) + p.madeBy + Le16(if p.deflated then 8 else 0) + p.stamp
    + Le32(|p.packed|) + Le32(p.declaredSize)
    + Le16(|p.name|) + Le16(|p.extra|) + Le16(|p.comment|) + p.attributes + Le32(offset)
  }

  function CentralRecord(p: Part, offset: nat): (r: seq<byte>)
    ensures |r| >= 24 + |p.madeBy| + |p.stamp| + |p.attributes|
  {
    CentralHeader(p, offset) + p.name + (p.extra + p.comment)
  }

  function Central(parts: seq<Part>, offset: nat): seq<byte> {
    if parts == [] then []
    else CentralRecord(parts[0], offset) + Central(parts[1..], offset + |LocalRecord(parts[0])|)
  }

  /** Section 4.3.16, up to the comment. */
  function EndHeader(disks: seq<byte>, count: nat, size: nat, offset: nat, commentLength: nat): (r: seq<byte>)
    ensures |r| == 16 + |disks|
  {
    Le32(END_OF_CENTRAL_DIR) + disks + Le16(count) + Le32(size) + Le32(offset) + Le16(commentLength)
  }

  function DirectoryOffset(a: Archive): nat {
    |a.lead| + |Locals(a.parts)|
  }

  function DirectoryBytes(a: Archive): seq<byte> {
    Central(a.parts, |a.lead|)
  }

  function EndOffset(a: Archive): nat {
    DirectoryOffset(a) + |DirectoryBytes(a)| + |a.middle|
  }

  function EndBytes(a: Archive): seq<byte> {
    EndHeader(a.disks, |a.parts|, |DirectoryBytes(a)|, DirectoryOffset(a), |a.comment|)
  }

  function Written(a: Archive): seq<byte> {
    a.lead + Locals(a.parts) + DirectoryBytes(a) + a.middle + EndBytes(a) + a.comment
  }

  /** Field widths and the reader's own size limit: what the format itself asks of a writer. */
  ghost predicate WellFormedPart(p: Part, inflate: Inflater) {
    && |p.name| < 0x1_0000 && |p.extra| < 0x1_0000 && |p.comment| < 0x1_0000
    && |p.localName| < 0x1_0000 && |p.localExtra| < 0x1_0000
    && |p.localFields| == 22 && |p.madeBy| == 6 && |p.stamp| == 8 && |p.attributes| == 8
    && p.declaredSize <= MAX_ENTRY_BYTES
    && (p.deflated ==> inflate(p.packed).Some? && |inflate(p.packed).value| <= MAX_ENTRY_BYTES)
  }

  ghost predicate WellFormed(a: Archive, inflate: Inflater) {
    && |a.parts| < 0x1_0000 && |a.disks| == 6 && |a.comment| < 0x1_0000
    && EndOffset(a) + 22 + |a.comment| < 0x1_0000_0000
    && forall p | p in a.parts :: WellFormedPart(p, inflate)
  }

  /** No second end-record signature where the backward scan would meet it first. */
  ghost predicate NoLaterEndRecord(a: Archive) {
    forall at: nat | EndOffset(a) < at :: !IsEndRecord(Written(a), at)
  }

  /** The bytes a member stands for. */
  function Unpacked(p: Part, inflate: Inflater): seq<byte>
    requires p.deflated ==> inflate(p.packed).Some?
  {
    if p.deflated then inflate(p.packed).value else p.packed
  }

  // ---------------------------------------------------------------- headers

  lemma CentralHeaderFields(p: Part, offset: nat, inflate: Inflater)
    requires WellFormedPart(p, inflate) && offset < 0x1_0000_0000 && |p.packed| < 0x1_0000_0000
    ensures var h := CentralHeader(p, offset);
            && |h| == 46 && U32(h, 0) == CENTRAL_FILE_HEADER
            && U16(h, 10) == (if p.deflated then 8 else 0)
            && U32(h, 20) == |p.packed| && U32(h, 24) == p.declaredSize
            && U16(h, 28) == |p.name| && U16(h, 30) == |p.extra| && U16(h, 32) == |p.comment|
            && U32(h, 42) == offset
  {
    var h := CentralHeader(p, offset);
    Windows(h, 0, Le32(CENTRAL_FILE_HEADER));
    Windows(h, 10, Le16(if p.deflated then 8 else 0));
    Windows(h, 20, Le32(|p.packed|));
    Windows(h, 24, Le32(p.declaredSize));
    Windows(h, 28, Le16(|p.name|));
    Windows(h, 30, Le16(|p.extra|));
    Windows(h, 32, Le16(|p.comment|));
    Windows(h, 42, Le32(offset));
  }

  lemma LocalHeaderFields(p: Part, inflate: Inflater)
    requires WellFormedPart(p, inflate)
    ensures var h := LocalHeader(p);
            |h| == 30 && U32(h, 0) == LOCAL_FILE_HEADER && U16(h, 26) == |p.localName| && U16(h, 28) == |p.localExtra|
  {
    var h := LocalHeader(p);
    Windows(h, 0, Le32(LOCAL_FILE_HEADER));
    Windows(h, 26, Le16(|p.localName|));
    Windows(h, 28, Le16(|p.localExtra|));
  }

  lemma EndHeaderFields(disks: seq<byte>, count: nat, size: nat, offset: nat, commentLength: nat)
    requires |disks| == 6 && count < 0x1_0000 && size < 0x1_0000_0000 && offset < 0x1_0000_0000
    ensures var h := EndHeader(disks, count, size, offset, commentLength);
            && |h| == 22 && U32(h, 0) == END_OF_CENTRAL_DIR
            && U16(h, 10) == count && U32(h, 12) == size && U32(h, 16) == offset
  {
    var h := EndHeader(disks, count, size, offset, commentLength);
    Windows(h, 0, Le32(END_OF_CENTRAL_DIR));
    Windows(h, 10, Le16(count));
    Windows(h, 12, Le32(size));
    Windows(h, 16, Le32(offset));
  }

  // ---------------------------------------------------------------- records

  function EntryFor(p: Part, offset: nat): CentralEntry {
    CentralEntry(Latin1(p.name), if p.deflated then 8 else 0, |p.packed|, p.declaredSize, offset)
  }

  function EntriesFor(parts: seq<Part>, offset: nat): (r: seq<CentralEntry>)
    ensures |r| == |parts|
    ensures forall i | 0 <= i < |parts| :: r[i].name == Latin1(parts[i].name)
  {
    if parts == [] then []
    else [EntryFor(parts[0], offset)] + EntriesFor(parts[1..], offset + |LocalRecord(parts[0])|)
  }

  /** `w` stands in `b` at `at`. */
  ghost predicate StandsAt(b: seq<byte>, at: nat, w: seq<byte>) {
    at + |w| <= |b| && b[at..at + |w|] == w
  }

  lemma StandsApart(b: seq<byte>, at: nat, u: seq<byte>, v: seq<byte>)
    requires StandsAt(b, at, u + v)
    ensures StandsAt(b, at, u) && StandsAt(b, at + |u|, v)
  {
    assert b[at..at + |u|] == (u + v)[..|u|];
    assert b[at + |u|..at + |u| + |v|] == (u + v)[|u|..];
  }

  lemma ReadsCentralRecord(b: seq<byte>, at: nat, p: Part, offset: nat, inflate: Inflater)
    requires WellFormedPart(p, inflate) && offset < 0x1_0000_0000 && |p.packed| < 0x1_0000_0000
    requires StandsAt(b, at, CentralRecord(p, offset))
    ensures Header(b, at)
    ensures NextHeader(b, at) == at + |CentralRecord(p, offset)|
    ensures CentralEntryAt(b, at) == EntryFor(p, offset)
  {
    var h := CentralHeader(p, offset);
    CentralHeaderFields(p, offset, inflate);
    StandsApart(b, at, h + p.name, p.extra + p.comment);
    StandsApart(b, at, h, p.name);
    Windows(b, at, h);
    assert U16(b, at + 10) == U16(h, 10) && U16(b, at + 28) == U16(h, 28);
    assert U16(b, at + 30) == U16(h, 30) && U16(b, at + 32) == U16(h, 32);
    assert U32(b, at + 0) == U32(h, 0) && U32(b, at + 20) == U32(h, 20);
    assert U32(b, at + 24) == U32(h, 24) && U32(b, at + 42) == U32(h, 42);
  }

  lemma {:induction false} ReadsDirectory(b: seq<byte>, at: nat, parts: seq<Part>, offset: nat, inflate: Inflater)
    requires forall p | p in parts :: WellFormedPart(p, inflate)
    requires offset + |Locals(parts)| < 0x1_0000_0000
    requires StandsAt(b, at, Central(parts, offset))
    ensures Entries(b, at, |parts|) == Ok(EntriesFor(parts, offset))
    ensures |Central(parts, offset)| >= 46 * |parts|
    decreases |parts|
  {
    hide CentralHeader, CentralRecord, LocalHeader, LocalRecord, Header, CentralEntryAt, NextHeader;
    if parts != [] {
      var p, next := parts[0], offset + |LocalRecord(parts[0])|;
      StandsApart(b, at, CentralRecord(p, offset), Central(parts[1..], next));
      ReadsCentralRecord(b, at, p, offset, inflate);
      ReadsDirectory(b, at + |CentralRecord(p, offset)|, parts[1..], next, inflate);
    }
  }

  lemma ReadsContents(b: seq<byte>, at: nat, p: Part, inflate: Inflater)
    requires WellFormedPart(p, inflate) && StandsAt(b, at, LocalRecord(p))
    ensures Contents(b, EntryFor(p, at), inflate) == Ok(Unpacked(p, inflate))
  {
    var h := LocalHeader(p);
    LocalHeaderFields(p, inflate);
    StandsApart(b, at, h + (p.localName + p.localExtra) + p.packed, p.gap);
    StandsApart(b, at, h + (p.localName + p.localExtra), p.packed);
    StandsApart(b, at, h, p.localName + p.localExtra);
    Windows(b, at, h);
    assert U32(b, at + 0) == U32(h, 0) && U16(b, at + 26) == U16(h, 26) && U16(b, at + 28) == U16(h, 28);
  }

  /** The first member of that name, as the writer ordered them. */
  function Member(parts: seq<Part>, name: string): Option<Part> {
    if parts == [] then None
    else if Latin1(parts[0].name) == name then Some(parts[0])
    else Member(parts[1..], name)
  }

  /** Looking a name up in the directory and following its offset lands on the member of that name. */
  lemma {:induction false} FindsMember(b: seq<byte>, parts: seq<Part>, offset: nat, name: string, inflate: Inflater)
    requires forall p | p in parts :: WellFormedPart(p, inflate)
    requires StandsAt(b, offset, Locals(parts))
    ensures var found, member := Find(EntriesFor(parts, offset), name), Member(parts, name);
            && (member.None? <==> found.None?)
            && (member.Some? ==> WellFormedPart(member.value, inflate)
                                 && Contents(b, found.value, inflate) == Ok(Unpacked(member.value, inflate)))
    decreases |parts|
  {
    hide LocalHeader, LocalRecord, Contents;
    if parts != [] {
      var p, next := parts[0], offset + |LocalRecord(parts[0])|;
      StandsApart(b, offset, LocalRecord(p), Locals(parts[1..]));
      ReadsContents(b, offset, p, inflate);
      assert EntriesFor(parts, offset)[1..] == EntriesFor(parts[1..], next);
      FindsMember(b, parts[1..], next, name, inflate);
    }
  }

  // ------------------------------------------------------------ the archive

  lemma WrittenLayout(a: Archive)
    ensures var b := Written(a);
            && StandsAt(b, |a.lead|, Locals(a.parts))
            && StandsAt(b, DirectoryOffset(a), DirectoryBytes(a))
            && StandsAt(b, EndOffset(a), EndBytes(a))
            && |b| == EndOffset(a) + |EndBytes(a)| + |a.comment|
  {
    var b, l, d, e := Written(a), Locals(a.parts), DirectoryBytes(a), EndBytes(a);
    assert StandsAt(b, 0, b);
    StandsApart(b, 0, a.lead + l + d + a.middle + e, a.comment);
    StandsApart(b, 0, a.lead + l + d + a.middle, e);
    StandsApart(b, 0, a.lead + l + d, a.middle);
    StandsApart(b, 0, a.lead + l, d);
    StandsApart(b, 0, a.lead, l);
  }

  lemma ReadsEndFields(a: Archive, inflate: Inflater)
    requires WellFormed(a, inflate)
    ensures var b, end := Written(a), EndOffset(a);
            && end + 22 + |a.comment| == |b| && IsEndRecord(b, end)
            && U16(b, end + 10) == |a.parts| && U32(b, end + 12) == |DirectoryBytes(a)| && U32(b, end + 16) == DirectoryOffset(a)
  {
    hide Locals, Central, Written, EndHeader;
    var b, end, h := Written(a), EndOffset(a), EndBytes(a);
    WrittenLayout(a);
    EndHeaderFields(a.disks, |a.parts|, |DirectoryBytes(a)|, DirectoryOffset(a), |a.comment|);
    Windows(b, end, h);
    assert U32(b, end + 0) == U32(h, 0) && U16(b, end + 10) == U16(h, 10);
    assert U32(b, end + 12) == U32(h, 12) && U32(b, end + 16) == U32(h, 16);
  }

  /**
   * The scan stops at the record the writer wrote exactly when no later
   * signature stands in the comment; otherwise it stops at a later one.
   */
  lemma FindsItsEndRecord(a: Archive, inflate: Inflater)
    requires WellFormed(a, inflate)
    ensures EndRecord(Written(a)).Ok? && EndRecord(Written(a)).value >= EndOffset(a)
    ensures EndRecord(Written(a)) == Ok(EndOffset(a)) <==> NoLaterEndRecord(a)
  {
    hide Locals, Central, Written, EndHeader, EndRecordUpTo;
    ReadsEndFields(a, inflate);
  }

  lemma ReadsItsDirectory(a: Archive, inflate: Inflater)
    requires WellFormed(a, inflate) && NoLaterEndRecord(a)
    ensures Directory(Written(a)) == Ok(EntriesFor(a.parts, |a.lead|))
  {
    hide Locals, Central, EndHeader, Written, EndRecord, EndRecordUpTo, IsEndRecord, Entries, EntriesFor, Directory, U16, U32, WellFormedPart;
    FindsItsEndRecord(a, inflate);
    ReadsEndFields(a, inflate);
    WrittenLayout(a);
    DirectorySteps(Written(a));
    ReadsDirectory(Written(a), DirectoryOffset(a), a.parts, |a.lead|, inflate);
  }

  /** Round trip of the listing: the names written, in the order written. */
  lemma NamesRoundTrip(a: Archive, inflate: Inflater)
    requires WellFormed(a, inflate) && NoLaterEndRecord(a)
    ensures var names := EntryNames(Written(a));
            names.Ok? && |names.value| == |a.parts|
            && forall i | 0 <= i < |a.parts| :: names.value[i] == Latin1(a.parts[i].name)
  {
    ReadsItsDirectory(a, inflate);
  }

  /** Round trip of the contents: the first member of that name unpacked, or the answer that there is none. */
  lemma ContentsRoundTrip(a: Archive, name: string, inflate: Inflater)
    requires WellFormed(a, inflate) && NoLaterEndRecord(a)
    ensures Member(a.parts, name).None? ==> ReadEntry(Written(a), name, inflate) == Ok(None)
    ensures Member(a.parts, name).Some? ==>
              var p := Member(a.parts, name).value;
              WellFormedPart(p, inflate) && ReadEntry(Written(a), name, inflate) == Ok(Some(Unpacked(p, inflate)))
  {
    ReadsItsDirectory(a, inflate);
    WrittenLayout(a);
    FindsMember(Written(a), a.parts, |a.lead|, name, inflate);
  }

  /** What an empty archive consists of. */
  function EmptyArchive(): seq<byte> {
    EndHeader([0, 0, 0, 0, 0, 0], 0, 0, 0, 0)
  }

  lemma EmptyArchiveAtTheTail(b: seq<byte>, at: nat)
    requires at + 22 == |b| && StandsAt(b, at, EmptyArchive())
    ensures U32(b, at) == END_OF_CENTRAL_DIR && EntryNames(b) == Ok([])
  {
    EndHeaderFields([0, 0, 0, 0, 0, 0], 0, 0, 0, 0);
    Windows(b, at, EmptyArchive());
    assert U32(b, at + 0) == END_OF_CENTRAL_DIR && U16(b, at + 10) == 0;
    assert U32(b, at + 12) == 0 && U32(b, at + 16) == 0;
    hide EndHeader;
    assert EndRecord(b) == Ok(at);
    assert Directory(b) == Ok([]);
  }

  /**
   * Without `NoLaterEndRecord` the round trip fails: an archive whose comment
   * is itself an empty archive is read as the empty one, whatever it holds.
   */
  lemma CommentThatIsAnArchiveWins(a: Archive, inflate: Inflater)
    requires WellFormed(a, inflate) && a.comment == EmptyArchive()
    ensures !NoLaterEndRecord(a)
    ensures EntryNames(Written(a)) == Ok([])
  {
    hide Locals, Central, EndHeader, EndRecordUpTo, EntryNames;
    var b, at := Written(a), EndOffset(a) + 22;
    WrittenLayout(a);
    assert b[at..] == a.comment;
    EmptyArchiveAtTheTail(b, at);
    assert IsEndRecord(b, at);
  }
}
