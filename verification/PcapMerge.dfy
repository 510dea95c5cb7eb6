/** Merging capture files (mergePcapFiles in src/media-session-service.ts) and what it means for the packet
    records in them (draft-ietf-opsawg-pcap, section 4 for the file header and section 5 for the records). */
module PcapMerge {
  import opened Prelude

  type File = seq<Byte>

  const PCAP_HEADER_BYTES := 24

  datatype MergeError = NoSegments | InvalidSegment | IncompatibleHeaders

  // ----- the merge

  predicate Long(f: File) {
    |f| >= PCAP_HEADER_BYTES
  }

  predicate AllLong(files: seq<File>) {
    forall i :: 0 <= i < |files| ==> Long(files[i])
  }

  function Header(f: File): seq<Byte>
    requires Long(f)
  {
    f[..PCAP_HEADER_BYTES]
  }

  function Body(f: File): seq<Byte>
    requires Long(f)
  {
    f[PCAP_HEADER_BYTES..]
  }

  /** The bytes after the file headers, in order. */
  function Bodies(files: seq<File>): seq<Byte>
    requires AllLong(files)
  {
    if files == [] then [] else Bodies(files[..|files| - 1]) + Body(files[|files| - 1])
  }

  /** All segments have the header h. */
  predicate Headed(files: seq<File>, h: seq<Byte>) {
    forall i :: 0 <= i < |files| ==> Long(files[i]) && Header(files[i]) == h
  }

  predicate Mergeable(files: seq<File>) {
    files != [] && Long(files[0]) && Headed(files, Header(files[0]))
  }

  function Merged(files: seq<File>): File
    requires Mergeable(files)
  {
    Header(files[0]) + Bodies(files)
  }

  /** What is wrong with segment i in the eyes of the first one. */
  function Fault(files: seq<File>, i: nat): Option<MergeError>
    requires i < |files|
  {
    if !Long(files[i]) then Some(InvalidSegment)
    else if !Long(files[0]) || Header(files[i]) != Header(files[0]) then Some(IncompatibleHeaders)
    else None
  }

  /** The first faulty segment decides the error. */
  ghost predicate FirstFault(files: seq<File>, e: MergeError) {
    if files == [] then e == NoSegments
    else exists i :: 0 <= i < |files| && Fault(files, i) == Some(e) && forall j :: 0 <= j < i ==> Fault(files, j).None?
  }

  method ReadPcapHeader(file: File) returns (r: Result<seq<Byte>, MergeError>)
    ensures r == if Long(file) then Ok(Header(file)) else Err(InvalidSegment)
  {
    if |file| < PCAP_HEADER_BYTES { return Err(InvalidSegment); }
    return Ok(file[..PCAP_HEADER_BYTES]);
  }

  /** `files` are the contents of the segment files; the result is what the output file holds when it is closed. */
  method MergePcapFiles(files: seq<File>) returns (r: Result<File, MergeError>)
    ensures r.Ok? <==> Mergeable(files)
    ensures r.Ok? ==> r.value == Merged(files)
    ensures r.Err? ==> FirstFault(files, r.error)
    ensures r.Ok? <==> files != [] && (forall i :: 0 <= i < |files| ==> |files[i]| >= 24)
                       && forall i :: 0 <= i < |files| ==> files[i][..24] == files[0][..24]
    ensures r == Err(NoSegments) <==> files == []
    ensures r == Err(InvalidSegment) ==> exists i :: 0 <= i < |files| && |files[i]| < 24
    ensures r == Err(IncompatibleHeaders) ==>
              files != [] && |files[0]| >= 24 && exists i :: 0 <= i < |files| && |files[i]| >= 24 && files[i][..24] != files[0][..24]
  {
    if |files| == 0 { return Err(NoSegments); }
    var first := ReadPcapHeader(files[0]);
    if first.Err? {
      assert Fault(files, 0) == Some(InvalidSegment);
      return Err(first.error);
    }
    var output := first.value;
    for i := 0 to |files|
      invariant Headed(files[..i], first.value)
      invariant forall j :: 0 <= j < i ==> Fault(files, j).None?
      invariant output == first.value + Bodies(files[..i])
    {
      var header := ReadPcapHeader(files[i]);
      if header.Err? {
        assert Fault(files, i) == Some(InvalidSegment);
        return Err(header.error);
      }
      if header.value != first.value {
        assert Fault(files, i) == Some(IncompatibleHeaders);
        return Err(IncompatibleHeaders);
      }
      assert files[..i + 1][..i] == files[..i];
      output := output + files[i][PCAP_HEADER_BYTES..];
    }
    assert files[..|files|] == files;
    return Ok(output);
  }

  // ----- length and grouping

  function Total(files: seq<File>): int {
    if files == [] then 0 else Total(files[..|files| - 1]) + |files[|files| - 1]| - PCAP_HEADER_BYTES
  }

  lemma {:induction false} BodiesLength(files: seq<File>)
    requires AllLong(files)
    ensures |Bodies(files)| == Total(files)
    decreases |files|
  {
    if files == [] { return; }
    BodiesLength(files[..|files| - 1]);
  }

  /** The merged file is one header and the bodies: no byte is lost, none is repeated. */
  lemma MergedLength(files: seq<File>)
    requires Mergeable(files)
    ensures |Merged(files)| == PCAP_HEADER_BYTES + Total(files)
  {
    BodiesLength(files);
  }

  lemma BodiesSnoc(files: seq<File>, f: File)
    requires AllLong(files) && Long(f)
    ensures AllLong(files + [f]) && Bodies(files + [f]) == Bodies(files) + Body(f)
  {
    assert (files + [f])[..|files|] == files;
  }

  lemma {:induction false} BodiesConcat(a: seq<File>, b: seq<File>)
    requires AllLong(a) && AllLong(b)
    ensures AllLong(a + b) && Bodies(a + b) == Bodies(a) + Bodies(b)
    decreases |b|
  {
    if b == [] {
      assert a + b == a;
      return;
    }
    var init, last := b[..|b| - 1], b[|b| - 1];
    assert b == init + [last];
    BodiesConcat(a, init);
    BodiesSnoc(a + init, last);
    BodiesSnoc(init, last);
    assert a + b == (a + init) + [last];
    assert (Bodies(a) + Bodies(init)) + Body(last) == Bodies(a) + (Bodies(init) + Body(last));
  }

  function Flatten(groups: seq<seq<File>>): seq<File> {
    if groups == [] then [] else Flatten(groups[..|groups| - 1]) + groups[|groups| - 1]
  }

  /** Every group can be merged, and all have the header h. */
  predicate Agree(groups: seq<seq<File>>, h: seq<Byte>) {
    forall i :: 0 <= i < |groups| ==> groups[i] != [] && Headed(groups[i], h)
  }

  function MergeEach(groups: seq<seq<File>>, h: seq<Byte>): seq<File>
    requires Agree(groups, h)
  {
    if groups == [] then [] else MergeEach(groups[..|groups| - 1], h) + [Merged(groups[|groups| - 1])]
  }

  /** Segment i stands behind the file header and the bodies of the segments before it, byte for byte. */
  lemma {:induction false} SegmentStandsAt(files: seq<File>, i: nat)
    requires Mergeable(files) && i < |files|
    ensures var at := 24 + Total(files[..i]);
            && Merged(files)[..24] == files[0][..24]
            && 24 <= at && at + |files[i]| - 24 <= |Merged(files)|
            && Merged(files)[at..at + |files[i]| - 24] == files[i][24..]
  {
    BodyStandsAt(files, i);
    BodiesLength(files[..i]);
    BodiesLength(files);
    var at := Total(files[..i]);
    assert Merged(files)[24..] == Bodies(files);
    assert Merged(files)[24 + at..24 + at + |Body(files[i])|] == Merged(files)[24..][at..at + |Body(files[i])|];
  }

  lemma {:induction false} BodyStandsAt(files: seq<File>, i: nat)
    requires AllLong(files) && i < |files|
    ensures var at := |Bodies(files[..i])|;
            at + |Body(files[i])| <= |Bodies(files)| && Bodies(files)[at..at + |Body(files[i])|] == Body(files[i])
    decreases |files|
  {
    var init, last := files[..|files| - 1], files[|files| - 1];
    if i == |init| { return; }
    BodyStandsAt(init, i);
    assert init[..i] == files[..i];
    var at, body := |Bodies(files[..i])|, Body(files[i]);
    assert Bodies(files)[at..at + |body|] == Bodies(init)[at..at + |body|];
  }

  lemma MergedParts(files: seq<File>)
    requires Mergeable(files)
    ensures Long(Merged(files)) && Header(Merged(files)) == Header(files[0]) && Body(Merged(files)) == Bodies(files)
  {
  }

  lemma {:induction false} FlattenAgrees(groups: seq<seq<File>>, h: seq<Byte>)
    requires Agree(groups, h)
    ensures var each := MergeEach(groups, h);
            && Headed(Flatten(groups), h) && Headed(each, h) && |each| == |groups|
            && (groups != [] ==> Flatten(groups) != [])
            && Bodies(Flatten(groups)) == Bodies(each)
    decreases |groups|
  {
    if groups == [] { return; }
    var init, last := groups[..|groups| - 1], groups[|groups| - 1];
    FlattenAgrees(init, h);
    MergedParts(last);
    BodiesConcat(Flatten(init), last);
    BodiesConcat(MergeEach(init, h), [Merged(last)]);
    assert Bodies([Merged(last)]) == Body(Merged(last));
  }

  /** Merging is associative: merging groups first and then their results gives the merge of all files. */
  lemma MergeIsAssociative(groups: seq<seq<File>>, h: seq<Byte>)
    requires groups != [] && Agree(groups, h)
    ensures Mergeable(MergeEach(groups, h)) && Mergeable(Flatten(groups))
    ensures Merged(MergeEach(groups, h)) == Merged(Flatten(groups))
  {
    FlattenAgrees(groups, h);
  }

  // ----- packet records

  /** One packet record: the two halves of the timestamp, the original length and the captured data. */
  datatype Record = Record(seconds: nat, fraction: nat, originalLength: nat, data: seq<Byte>)

  const RECORD_HEADER_BYTES := 16

  /** The byte order that the magic number shows, for microsecond and nanosecond files alike. */
  function BigEndian(header: seq<Byte>): Option<bool>
    requires |header| >= 4
  {
    var magic := header[..4];
    if magic == [0xA1, 0xB2, 0xC3, 0xD4] || magic == [0xA1, 0xB2, 0x3C, 0x4D] then Some(true)
    else if magic == [0xD4, 0xC3, 0xB2, 0xA1] || magic == [0x4D, 0x3C, 0xB2, 0xA1] then Some(false)
    else None
  }

  function FourBytes(b3: int, b2: int, b1: int, b0: int): int {
    ((b3 * 256 + b2) * 256 + b1) * 256 + b0
  }

  function Word(big: bool, b: seq<Byte>, at: nat): (n: nat)
    requires at + 4 <= |b|
  {
    if big then FourBytes(b[at], b[at + 1], b[at + 2], b[at + 3]) else FourBytes(b[at + 3], b[at + 2], b[at + 1], b[at])
  }

  /** The first record of a body and where the next begins. */
  function First(big: bool, body: seq<Byte>): (r: Option<(Record, nat)>)
    ensures r.Some? ==> RECORD_HEADER_BYTES <= r.value.1 <= |body|
  {
    if |body| < RECORD_HEADER_BYTES then None
    else
      var end := RECORD_HEADER_BYTES + Word(big, body, 8);
      if |body| < end then None
      else Some((Record(Word(big, body, 0), Word(big, body, 4), Word(big, body, 12), body[RECORD_HEADER_BYTES..end]), end))
  }

  /** Walks the records of a body; a record cut short makes it malformed. */
  function Walk(big: bool, body: seq<Byte>): Option<seq<Record>>
    decreases |body|
  {
    if body == [] then Some([])
    else
      var first := First(big, body);
      if first.None? then None
      else
        var rest := Walk(big, body[first.value.1..]);
        if rest.None? then None else Some([first.value.0] + rest.value)
  }

  lemma WordConcat(big: bool, a: seq<Byte>, b: seq<Byte>, at: nat)
    requires at + 4 <= |a|
    ensures Word(big, a + b, at) == Word(big, a, at)
  {
    assert forall i :: at <= i < at + 4 ==> (a + b)[i] == a[i];
  }

  lemma FirstConcat(big: bool, a: seq<Byte>, b: seq<Byte>)
    requires First(big, a).Some?
    ensures First(big, a + b) == First(big, a)
  {
    WordConcat(big, a, b, 0);
    WordConcat(big, a, b, 4);
    WordConcat(big, a, b, 8);
    WordConcat(big, a, b, 12);
    var end := First(big, a).value.1;
    assert (a + b)[RECORD_HEADER_BYTES..end] == a[RECORD_HEADER_BYTES..end];
  }

  lemma WalkUnfolds(big: bool, body: seq<Byte>, first: Record, end: nat)
    requires body != [] && First(big, body) == Some((first, end))
    ensures var rest := Walk(big, body[end..]);
            Walk(big, body) == if rest.None? then None else Some([first] + rest.value)
  {
  }

  predicate WalksOn(big: bool, a: seq<Byte>, b: seq<Byte>)
    requires Walk(big, a).Some?
  {
    Walk(big, a + b) == if Walk(big, b).Some? then Some(Walk(big, a).value + Walk(big, b).value) else None
  }

  lemma WalksOnFromNothing(big: bool, b: seq<Byte>)
    ensures WalksOn(big, [], b)
  {
    assert [] + b == b;
    assert Walk(big, b).Some? ==> [] + Walk(big, b).value == Walk(big, b).value;
  }

  lemma WalkUnfoldsAppended(big: bool, a: seq<Byte>, b: seq<Byte>, first: Record, end: nat)
    requires a != [] && First(big, a) == Some((first, end))
    ensures var rest := Walk(big, a[end..] + b);
            Walk(big, a + b) == if rest.None? then None else Some([first] + rest.value)
  {
    FirstConcat(big, a, b);
    WalkUnfolds(big, a + b, first, end);
    assert (a + b)[end..] == a[end..] + b;
  }

  lemma Prepend(first: Record, x: seq<Record>, y: seq<Record>)
    ensures [first] + (x + y) == ([first] + x) + y
  {
  }

  lemma WalksOnStep(big: bool, a: seq<Byte>, b: seq<Byte>, first: Record, end: nat)
    requires a != [] && First(big, a) == Some((first, end)) && Walk(big, a[end..]).Some? && WalksOn(big, a[end..], b)
    ensures Walk(big, a).Some? && WalksOn(big, a, b)
  {
    WalkUnfolds(big, a, first, end);
    WalkUnfoldsAppended(big, a, b, first, end);
    if Walk(big, b).None? { return; }
    Prepend(first, Walk(big, a[end..]).value, Walk(big, b).value);
  }

  /** Walking is a homomorphism: a body that is followed by more bytes is walked first, then the rest. */
  lemma {:induction false} WalkConcat(big: bool, a: seq<Byte>, b: seq<Byte>)
    requires Walk(big, a).Some?
    ensures Walk(big, a + b) == if Walk(big, b).Some? then Some(Walk(big, a).value + Walk(big, b).value) else None
    decreases |a|
  {
    if a == [] {
      WalksOnFromNothing(big, b);
      return;
    }
    var (first, end) := First(big, a).value;
    WalkUnfolds(big, a, first, end);
    WalkConcat(big, a[end..], b);
    WalksOnStep(big, a, b, first, end);
  }

  /** The records of a capture file, if it is well formed. */
  function Records(file: File): Option<seq<Record>> {
    if !Long(file) then None
    else
      var big := BigEndian(Header(file));
      if big.None? then None else Walk(big.value, Body(file))
  }

  predicate WellFormed(files: seq<File>) {
    forall i :: 0 <= i < |files| ==> Records(files[i]).Some?
  }

  function AllRecords(files: seq<File>): seq<Record>
    requires WellFormed(files)
  {
    if files == [] then [] else AllRecords(files[..|files| - 1]) + Records(files[|files| - 1]).value
  }

  lemma {:induction false} WalkBodies(files: seq<File>, h: seq<Byte>, big: bool)
    requires |h| == PCAP_HEADER_BYTES && BigEndian(h) == Some(big) && Headed(files, h) && WellFormed(files)
    ensures Walk(big, Bodies(files)) == Some(AllRecords(files))
    decreases |files|
  {
    if files == [] { return; }
    var init, last := files[..|files| - 1], files[|files| - 1];
    WalkBodies(init, h, big);
    WalkConcat(big, Bodies(init), Body(last));
  }

  /** The merged file holds the records of the segments in order, and only those. */
  lemma MergedRecords(files: seq<File>)
    requires Mergeable(files) && WellFormed(files)
    ensures Records(Merged(files)) == Some(AllRecords(files))
  {
    var h := Header(files[0]);
    assert Records(files[0]).Some?;
    WalkBodies(files, h, BigEndian(h).value);
    MergedParts(files);
  }

  /** When all segments but the last are well formed, the merged file is well formed exactly when the last one is. */
  lemma LastSegmentDecides(files: seq<File>)
    requires Mergeable(files) && WellFormed(files[..|files| - 1]) && BigEndian(Header(files[0])).Some?
    ensures Records(Merged(files)).Some? <==> Records(files[|files| - 1]).Some?
  {
    var h := Header(files[0]);
    var init, last := files[..|files| - 1], files[|files| - 1];
    WalkBodies(init, h, BigEndian(h).value);
    WalkConcat(BigEndian(h).value, Bodies(init), Body(last));
    MergedParts(files);
  }

  // ----- the walk reads what a writer wrote

  predicate IsWord(n: nat) {
    n < 0x1_0000_0000
  }

  function WordBytes(big: bool, n: nat): (b: seq<Byte>)
    requires IsWord(n)
    ensures |b| == 4
  {
    var (b3, b2, b1, b0) := (n / 0x100_0000, n / 0x1_0000 % 256, n / 256 % 256, n % 256);
    if big then [b3, b2, b1, b0] else [b0, b1, b2, b3]
  }

  lemma WordOfBytes(big: bool, n: nat)
    requires IsWord(n)
    ensures Word(big, WordBytes(big, n), 0) == n
  {
    assert FourBytes(n / 0x100_0000, n / 0x1_0000 % 256, n / 256 % 256, n % 256) == n;
  }

  predicate Writable(r: Record) {
    IsWord(r.seconds) && IsWord(r.fraction) && IsWord(r.originalLength) && IsWord(|r.data|)
  }

  function RecordBytes(big: bool, r: Record): seq<Byte>
    requires Writable(r)
  {
    WordBytes(big, r.seconds) + WordBytes(big, r.fraction) + WordBytes(big, |r.data|) + WordBytes(big, r.originalLength) + r.data
  }

  function BodyBytes(big: bool, records: seq<Record>): seq<Byte>
    requires forall r | r in records :: Writable(r)
  {
    if records == [] then [] else RecordBytes(big, records[0]) + BodyBytes(big, records[1..])
  }

  lemma WordAt(big: bool, b: seq<Byte>, at: nat, n: nat)
    requires IsWord(n) && at + 4 <= |b| && b[at..at + 4] == WordBytes(big, n)
    ensures Word(big, b, at) == n
  {
    WordOfBytes(big, n);
    var w := b[at..at + 4];
    assert w[0] == b[at] && w[1] == b[at + 1] && w[2] == b[at + 2] && w[3] == b[at + 3];
  }

  lemma RecordRead(big: bool, r: Record, rest: seq<Byte>)
    requires Writable(r)
    ensures var b := RecordBytes(big, r) + rest;
            && |b| >= RECORD_HEADER_BYTES + |r.data|
            && Word(big, b, 0) == r.seconds && Word(big, b, 4) == r.fraction && Word(big, b, 8) == |r.data|
            && Word(big, b, 12) == r.originalLength
            && b[RECORD_HEADER_BYTES..RECORD_HEADER_BYTES + |r.data|] == r.data && b[RECORD_HEADER_BYTES + |r.data|..] == rest
  {
    var b := RecordBytes(big, r) + rest;
    WordAt(big, b, 0, r.seconds);
    WordAt(big, b, 4, r.fraction);
    WordAt(big, b, 8, |r.data|);
    WordAt(big, b, 12, r.originalLength);
  }

  lemma FirstOfWritten(big: bool, r: Record, rest: seq<Byte>)
    requires Writable(r)
    ensures First(big, RecordBytes(big, r) + rest) == Some((r, RECORD_HEADER_BYTES + |r.data|))
  {
    RecordRead(big, r, rest);
  }

  /** Reading back what a writer of either byte order wrote gives the same records. */
  lemma {:induction false} WalkOfWritten(big: bool, records: seq<Record>)
    requires forall r | r in records :: Writable(r)
    ensures Walk(big, BodyBytes(big, records)) == Some(records)
    decreases |records|
  {
    if records == [] { return; }
    WalkOfWritten(big, records[1..]);
    FirstOfWritten(big, records[0], BodyBytes(big, records[1..]));
    RecordRead(big, records[0], BodyBytes(big, records[1..]));
    assert records == [records[0]] + records[1..];
  }
}
