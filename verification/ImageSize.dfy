/** The JPEG branch of `get`: from marker to marker until a frame header (shutils/imagesize.py). */
module ImageSizes {

  type Byte = x: int | 0 <= x < 256

  datatype Result = Dimensions(width: int, height: int) | InvalidJpeg | OtherFormat

  // ---------------------------------------------------------------- the file

  /** An in-memory file: reading past the end gives fewer bytes, seeking may go anywhere from 0 on. */
  class File {
    const data: seq<Byte>
    var pos: nat
    var closed: bool

    constructor (data: seq<Byte>)
      ensures this.data == data && pos == 0 && !closed
    {
      this.data, pos, closed := data, 0, false;
    }

    method Read(n: nat) returns (bytes: seq<Byte>)
      requires !closed
      modifies this`pos
      ensures bytes == ReadAt(data, old(pos), n) && pos == old(pos) + |bytes|
    {
      bytes := ReadAt(data, pos, n);
      pos := pos + |bytes|;
    }

    method Seek(target: nat)
      requires !closed
      modifies this`pos
      ensures pos == target
    {
      pos := target;
    }

    method SeekBy(offset: int)
      requires !closed
      modifies this`pos
      ensures pos == Moved(old(pos), offset)
    {
      pos := Moved(pos, offset);
    }

    method Close()
      modifies this`closed
      ensures closed
    {
      closed := true;
    }
  }

  function ReadAt(data: seq<Byte>, pos: nat, n: nat): seq<Byte> {
    if pos >= |data| then [] else if pos + n <= |data| then data[pos..pos + n] else data[pos..]
  }

  function Moved(pos: nat, offset: int): nat {
    if pos + offset < 0 then 0 else pos + offset
  }

  function Word(hi: Byte, lo: Byte): int { hi * 256 + lo }

  /** Frame headers SOF0..SOF15; C4, C8 and CC are other markers. */
  predicate IsFrame(marker: Byte) {
    0xC0 <= marker <= 0xCF && marker != 0xC4 && marker != 0xC8 && marker != 0xCC
  }

  // ---------------------------------------------------------------- one round

  /** Where the first byte other than 0xFF is, from pos on. */
  function SkipFill(data: seq<Byte>, pos: nat): nat
    decreases |data| - pos
  {
    if pos < |data| && data[pos] == 0xFF then SkipFill(data, pos + 1) else pos
  }

  lemma {:induction false} SkipFillStops(data: seq<Byte>, pos: nat)
    requires pos <= |data|
    ensures pos <= SkipFill(data, pos) <= |data|
    ensures forall k :: pos <= k < SkipFill(data, pos) ==> data[k] == 0xFF
    ensures SkipFill(data, pos) < |data| ==> data[SkipFill(data, pos)] != 0xFF
    decreases |data| - pos
  {
    if pos < |data| && data[pos] == 0xFF {
      SkipFillStops(data, pos + 1);
    }
  }

  datatype Round = Marker(kind: Byte, pos: nat, size: int) | Broken

  /** Seek over the last segment, skip fill bytes, read a marker and its length field. */
  function NextMarker(data: seq<Byte>, pos: nat, size: int): Round {
    var k := SkipFill(data, Moved(pos, size));
    if k + 3 <= |data| then Marker(data[k], k + 3, Word(data[k + 1], data[k + 2]) - 2) else Broken
  }

  /** Each round nets at least one byte, even when a declared length of 0 or 1 makes the next seek go back. */
  lemma RoundAdvances(data: seq<Byte>, pos: nat, size: int)
    requires size >= -2 && NextMarker(data, pos, size).Marker?
    ensures var r := NextMarker(data, pos, size);
      pos < r.pos <= |data| && r.size >= -2 && Moved(pos, size) + 3 <= r.pos && r.kind == data[r.pos - 3]
  {
    if Moved(pos, size) <= |data| {
      SkipFillStops(data, Moved(pos, size));
    }
  }

  /** What the loop finds from a position on. */
  function Scan(data: seq<Byte>, pos: nat, size: int): Result
    requires size >= -2
    decreases |data| - pos
  {
    match NextMarker(data, pos, size)
    case Broken => InvalidJpeg
    case Marker(kind, next, size') =>
      RoundAdvances(data, pos, size);
      if IsFrame(kind) then Header(data, next) else Scan(data, next, size')
  }

  /** The frame header after its length field: a precision byte, height and width. */
  function Header(data: seq<Byte>, pos: nat): Result {
    if pos + 5 <= |data| then Dimensions(Word(data[pos + 3], data[pos + 4]), Word(data[pos + 1], data[pos + 2]))
    else InvalidJpeg
  }

  // ---------------------------------------------------------------- the method

  method FindMarker(file: File, size: int) returns (r: Round)
    requires !file.closed
    modifies file`pos
    ensures r == NextMarker(file.data, old(file.pos), size)
    ensures r.Marker? ==> file.pos == r.pos
  {
    file.SeekBy(size);
    ghost var start := file.pos;
    var byte := file.Read(1);
    while |byte| == 1 && byte[0] == 0xFF
      invariant start <= file.pos && (|byte| == 0 ==> file.pos >= |file.data|) && |byte| <= 1
      invariant |byte| == 1 ==> file.pos <= |file.data| && file.pos > start && byte[0] == file.data[file.pos - 1]
      invariant SkipFill(file.data, start) == SkipFill(file.data, file.pos - |byte|)
      decreases |file.data| - file.pos, |byte|
    {
      byte := file.Read(1);
    }
    if |byte| == 0 {
      return Broken;
    }
    var length := file.Read(2);
    if |length| < 2 {
      return Broken;
    }
    r := Marker(byte[0], file.pos, Word(length[0], length[1]) - 2);
  }

  /** `get` on an open file; the answer for a file that does not begin like a JPEG is not modelled. */
  method Get(file: File) returns (r: Result)
    requires !file.closed
    modifies file
    ensures file.closed
    ensures var head := ReadAt(file.data, old(file.pos), 31);
      r == if |head| >= 2 && head[0] == 0xFF && head[1] == 0xD8 then Scan(file.data, 0, 2) else OtherFormat
  {
    var head := file.Read(31);
    if !(|head| >= 2 && head[0] == 0xFF && head[1] == 0xD8) {
      file.Close();
      return OtherFormat;
    }
    file.Seek(0);
    var size := 2;
    var kind: Byte := 0;
    while !IsFrame(kind)
      invariant !file.closed && size >= -2
      invariant if IsFrame(kind) then Scan(file.data, 0, 2) == Header(file.data, file.pos)
                else Scan(file.data, 0, 2) == Scan(file.data, file.pos, size)
      invariant file.pos <= |file.data|
      decreases |file.data| - file.pos, if IsFrame(kind) then 0 else 1
    {
      ghost var before := file.pos;
      var found := FindMarker(file, size);
      if found.Broken? {
        file.Close();
        return InvalidJpeg;
      }
      RoundAdvances(file.data, before, size);
      kind, size := found.kind, found.size;
    }
    file.SeekBy(1);
    var field := file.Read(4);
    r := if |field| < 4 then InvalidJpeg else Dimensions(Word(field[2], field[3]), Word(field[0], field[1]));
    file.Close();
  }

  // ---------------------------------------------------------------- well-formed files

  /** A marker segment with its length field (ITU-T T.81, sections B.1.1.2 and B.1.1.4), and fill bytes before it. */
  datatype Segment = Segment(fill: nat, marker: Byte, payload: seq<Byte>)

  /** A frame header (ITU-T T.81, section B.2.2) up to the width. */
  datatype Frame = Frame(fill: nat, marker: Byte, lengthField: seq<Byte>, precision: Byte, height: nat, width: nat)

  predicate GoodSegment(s: Segment) {
    s.marker != 0xFF && !IsFrame(s.marker) && |s.payload| + 2 < 0x1_0000
  }

  predicate GoodFrame(f: Frame) {
    IsFrame(f.marker) && |f.lengthField| == 2 && f.height < 0x1_0000 && f.width < 0x1_0000
  }

  function Fills(n: nat): seq<Byte> { seq(n, _ => 0xFF) }

  function WordBytes(n: nat): (b: seq<Byte>)
    requires n < 0x1_0000
    ensures |b| == 2 && Word(b[0], b[1]) == n
  {
    [n / 256, n % 256]
  }

  function SegmentBytes(s: Segment): seq<Byte>
    requires GoodSegment(s)
  {
    Fills(s.fill + 1) + [s.marker] + WordBytes(|s.payload| + 2) + s.payload
  }

  function SegmentsBytes(ss: seq<Segment>): seq<Byte>
    requires forall s :: s in ss ==> GoodSegment(s)
  {
    if ss == [] then [] else SegmentBytes(ss[0]) + SegmentsBytes(ss[1..])
  }

  function FrameBytes(f: Frame): seq<Byte>
    requires GoodFrame(f)
  {
    Fills(f.fill + 1) + [f.marker] + f.lengthField + [f.precision] + WordBytes(f.height) + WordBytes(f.width)
  }

  lemma {:induction false} SkipFills(before: seq<Byte>, n: nat, after: seq<Byte>)
    requires after != [] && after[0] != 0xFF
    ensures SkipFill(before + Fills(n) + after, |before|) == |before| + n
    decreases n
  {
    if n > 0 {
      SkipFills(before + [0xFF], n - 1, after);
      assert before + [0xFF] + Fills(n - 1) + after == before + Fills(n) + after;
    }
  }

  /** One round over fill bytes, a marker and a length field. */
  lemma RoundReads(before: seq<Byte>, n: nat, kind: Byte, length: seq<Byte>, after: seq<Byte>, pos: nat, size: int)
    requires kind != 0xFF && |length| == 2 && pos + size == |before|
    ensures var data := before + Fills(n) + ([kind] + length + after);
      NextMarker(data, pos, size) == Marker(kind, |before| + n + 3, Word(length[0], length[1]) - 2)
  {
    SkipFills(before, n, [kind] + length + after);
  }

  /** One round of the scan passes over one segment, up to the seek over its payload. */
  lemma ScanOne(before: seq<Byte>, s: Segment, tail: seq<Byte>, pos: nat, size: int)
    requires GoodSegment(s) && pos + size == |before| && size >= -2
    ensures var data := before + SegmentBytes(s) + tail;
      Scan(data, pos, size) == Scan(data, |before| + s.fill + 4, |s.payload|)
  {
    SegmentLayout(before, s, tail);
    RoundReads(before, s.fill + 1, s.marker, WordBytes(|s.payload| + 2), s.payload + tail, pos, size);
  }

  lemma Regroup(a: seq<Byte>, b: seq<Byte>, c: seq<Byte>, d: seq<Byte>, e: seq<Byte>)
    ensures a + (b + c) + d + e == a + b + (c + d + e)
    ensures a + (b + c) + d + e == (a + b) + c + d + e
  {
  }

  lemma {:induction false} ScanSegments(before: seq<Byte>, ss: seq<Segment>, f: Frame, rest: seq<Byte>, pos: nat, size: int)
    requires (forall s :: s in ss ==> GoodSegment(s)) && GoodFrame(f)
    requires pos + size == |before| && size >= -2
    ensures Scan(before + SegmentsBytes(ss) + FrameBytes(f) + rest, pos, size) == Dimensions(f.width, f.height)
    decreases |ss|
  {
    hide SegmentBytes, FrameBytes, Scan, GoodSegment, GoodFrame;
    if ss == [] {
      ScanFrame(before, f, rest, pos, size);
      assert before + SegmentsBytes(ss) == before;
    } else {
      var s, tail := ss[0], SegmentsBytes(ss[1..]) + FrameBytes(f) + rest;
      SegmentLayout(before, s, tail);
      ScanOne(before, s, tail, pos, size);
      ScanSegments(before + SegmentBytes(s), ss[1..], f, rest, |before| + s.fill + 4, |s.payload|);
      Regroup(before, SegmentBytes(s), SegmentsBytes(ss[1..]), FrameBytes(f), rest);
    }
  }

  lemma SegmentLayout(before: seq<Byte>, s: Segment, tail: seq<Byte>)
    requires GoodSegment(s)
    ensures before + SegmentBytes(s) + tail
      == before + Fills(s.fill + 1) + ([s.marker] + WordBytes(|s.payload| + 2) + (s.payload + tail))
    ensures |SegmentBytes(s)| == s.fill + 4 + |s.payload|
  {
  }

  lemma ScanFrame(before: seq<Byte>, f: Frame, rest: seq<Byte>, pos: nat, size: int)
    requires GoodFrame(f) && pos + size == |before| && size >= -2
    ensures Scan(before + FrameBytes(f) + rest, pos, size) == Dimensions(f.width, f.height)
  {
    var body := [f.precision] + WordBytes(f.height) + WordBytes(f.width) + rest;
    var data := before + FrameBytes(f) + rest;
    assert data == before + Fills(f.fill + 1) + ([f.marker] + f.lengthField + body);
    RoundReads(before, f.fill + 1, f.marker, f.lengthField, body, pos, size);
    var at := |before| + f.fill + 4;
    assert data[at..] == body;
    assert forall i :: 0 <= i < 5 ==> data[at + i] == body[i];
  }

  /** SOI, any list of segments other than frame headers, each with any number of fill bytes, then a frame
      header and anything: `get` returns the width and height of that header. */
  lemma WellFormedIsMeasured(ss: seq<Segment>, f: Frame, rest: seq<Byte>)
    requires (forall s :: s in ss ==> GoodSegment(s)) && GoodFrame(f)
    ensures Scan([0xFF, 0xD8] + SegmentsBytes(ss) + FrameBytes(f) + rest, 0, 2) == Dimensions(f.width, f.height)
  {
    ScanSegments([0xFF, 0xD8], ss, f, rest, 0, 2);
  }

  /** r is what a frame header whose marker byte stands at k says. */
  predicate HeaderAt(data: seq<Byte>, k: nat, r: Result) {
    && k + 8 <= |data| && IsFrame(data[k])
    && r == Dimensions(Word(data[k + 6], data[k + 7]), Word(data[k + 4], data[k + 5]))
  }

  /** On any bytes: dimensions that are returned stand in the file behind a frame marker; otherwise the
      answer is the ValueError. */
  lemma {:induction false} FoundInFile(data: seq<Byte>, pos: nat, size: int)
    requires size >= -2
    ensures Scan(data, pos, size).InvalidJpeg? || exists k: nat :: HeaderAt(data, k, Scan(data, pos, size))
    decreases |data| - pos
  {
    match NextMarker(data, pos, size)
    case Broken =>
    case Marker(kind, next, size') =>
      RoundAdvances(data, pos, size);
      if !IsFrame(kind) {
        FoundInFile(data, next, size');
      } else if next + 5 <= |data| {
        assert HeaderAt(data, next - 3, Scan(data, pos, size));
      }
  }

  // ---------------------------------------------------------------- markers without a length field

  /** What can stand before the frame header: a segment with its length, or a marker that has none
      (ITU-T T.81, section B.1.1.3). */
  datatype Piece = Carrying(segment: Segment) | Standalone(fill: nat, marker: Byte)

  predicate GoodPiece(p: Piece) {
    match p
    case Carrying(s) => GoodSegment(s)
    case Standalone(_, marker) => marker != 0xFF && !IsFrame(marker)
  }

  function PieceBytes(p: Piece): seq<Byte>
    requires GoodPiece(p)
  {
    match p
    case Carrying(s) => SegmentBytes(s)
    case Standalone(fill, marker) => Fills(fill + 1) + [marker]
  }

  function PiecesBytes(ps: seq<Piece>): seq<Byte>
    requires forall p :: p in ps ==> GoodPiece(p)
  {
    if ps == [] then [] else PieceBytes(ps[0]) + PiecesBytes(ps[1..])
  }

  /** Whatever its size: behind a marker without a length the scan takes the next two bytes for one. As the first of
      them is 0xFF, it goes on 0xFF00 + x - 2 bytes further, x being the other. */
  lemma StandaloneJumps(before: seq<Byte>, p: Piece, tail: seq<Byte>, pos: nat, size: int)
    requires GoodPiece(p) && p.Standalone? && pos + size == |before| && size >= -2
    requires |tail| >= 2 && tail[0] == 0xFF
    ensures Scan(before + PieceBytes(p) + tail, pos, size)
         == Scan(before + PieceBytes(p) + tail, |before| + p.fill + 4, Word(0xFF, tail[1]) - 2)
  {
    assert before + PieceBytes(p) + tail == before + Fills(p.fill + 1) + ([p.marker] + tail[..2] + tail[2..]);
    RoundReads(before, p.fill + 1, p.marker, tail[..2], tail[2..], pos, size);
  }

  lemma BeyondTheEnd(data: seq<Byte>, pos: nat, size: int)
    requires size >= -2 && pos + size >= |data|
    ensures Scan(data, pos, size) == InvalidJpeg
  {
  }

  /** What follows a piece begins with 0xFF. */
  lemma TailBegins(ps: seq<Piece>, f: Frame, rest: seq<Byte>)
    requires (forall p :: p in ps ==> GoodPiece(p)) && GoodFrame(f)
    ensures var tail := PiecesBytes(ps) + FrameBytes(f) + rest; |tail| >= 2 && tail[0] == 0xFF
  {
    assert FrameBytes(f)[0] == 0xFF;
    if ps != [] {
      assert PieceBytes(ps[0])[0] == 0xFF;
    }
  }

  predicate AllCarrying(ps: seq<Piece>) { forall p :: p in ps ==> p.Carrying? }

  lemma {:induction false} ScanPieces(before: seq<Byte>, ps: seq<Piece>, f: Frame, rest: seq<Byte>, pos: nat, size: int)
    requires (forall p :: p in ps ==> GoodPiece(p)) && GoodFrame(f)
    requires pos + size == |before| >= 2 && size >= -2
    requires |before + PiecesBytes(ps) + FrameBytes(f) + rest| < 0xFF00
    ensures Scan(before + PiecesBytes(ps) + FrameBytes(f) + rest, pos, size)
         == if AllCarrying(ps) then Dimensions(f.width, f.height) else InvalidJpeg
    decreases |ps|
  {
    hide SegmentBytes, FrameBytes, Scan, GoodSegment, GoodFrame, PieceBytes;
    if ps == [] {
      ScanFrame(before, f, rest, pos, size);
      assert before + PiecesBytes(ps) == before;
    } else {
      var p, tail := ps[0], PiecesBytes(ps[1..]) + FrameBytes(f) + rest;
      assert ps == [p] + ps[1..];
      TailBegins(ps[1..], f, rest);
      Regroup(before, PieceBytes(p), PiecesBytes(ps[1..]), FrameBytes(f), rest);
      match p
      case Carrying(s) =>
        PieceOfSegment(before, s, tail, pos, size);
        ScanPieces(before + PieceBytes(p), ps[1..], f, rest, |before| + s.fill + 4, |s.payload|);
      case Standalone(fill, _) =>
        StandaloneJumps(before, p, tail, pos, size);
        BeyondTheEnd(before + PieceBytes(p) + tail, |before| + fill + 4, Word(0xFF, tail[1]) - 2);
    }
  }

  lemma PieceOfSegment(before: seq<Byte>, s: Segment, tail: seq<Byte>, pos: nat, size: int)
    requires GoodPiece(Carrying(s)) && pos + size == |before| && size >= -2
    ensures var data := before + PieceBytes(Carrying(s)) + tail;
      Scan(data, pos, size) == Scan(data, |before| + s.fill + 4, |s.payload|)
    ensures |PieceBytes(Carrying(s))| == s.fill + 4 + |s.payload|
  {
    SegmentLayout(before, s, tail);
    ScanOne(before, s, tail, pos, size);
  }

  /** SOI, pieces of either kind, a frame header and anything, in a file of fewer than 0xFF00 bytes: `get` returns the
      size in the header exactly when no piece lacks a length field, and raises ValueError otherwise. */
  lemma MeasuredIff(ps: seq<Piece>, f: Frame, rest: seq<Byte>)
    requires (forall p :: p in ps ==> GoodPiece(p)) && GoodFrame(f)
    requires |[0xFF, 0xD8] + PiecesBytes(ps) + FrameBytes(f) + rest| < 0xFF00
    ensures var r := Scan([0xFF, 0xD8] + PiecesBytes(ps) + FrameBytes(f) + rest, 0, 2);
      && (r == Dimensions(f.width, f.height) <==> AllCarrying(ps))
      && (r.InvalidJpeg? <==> !AllCarrying(ps))
  {
    ScanPieces([0xFF, 0xD8], ps, f, rest, 0, 2);
  }

  // ---------------------------------------------------------------- plain files

  /** The markers of ITU-T T.81, table B.1, that begin a frame: baseline, extended, progressive and lossless, then the
      differential ones, in Huffman and in arithmetic coding. */
  const FRAMES: set<Byte> := {0xC0, 0xC1, 0xC2, 0xC3, 0xC5, 0xC6, 0xC7, 0xC9, 0xCA, 0xCB, 0xCD, 0xCE, 0xCF}

  /** From SOI straight to a marker, a length and five more bytes: those are the answer for every marker of the table,
      whatever the length says and whatever follows; for any other marker whose segment fills the file there is none. */
  lemma PlainFile(marker: Byte, length: seq<Byte>, p: Byte, hHi: Byte, hLo: Byte, wHi: Byte, wLo: Byte, rest: seq<Byte>)
    requires marker != 0xFF && |length| == 2
    ensures var data := [0xFF, 0xD8, 0xFF, marker] + length + [p, hHi, hLo, wHi, wLo] + rest;
      && (marker in FRAMES ==> Scan(data, 0, 2) == Dimensions(256 * wHi + wLo, 256 * hHi + hLo))
      && (marker !in FRAMES && Word(length[0], length[1]) + 4 >= |data| ==> Scan(data, 0, 2) == InvalidJpeg)
  {
    var data, size := [0xFF, 0xD8, 0xFF, marker] + length + [p, hHi, hLo, wHi, wLo] + rest, Word(length[0], length[1]) - 2;
    assert SkipFill(data, 2) == SkipFill(data, 3) == 3;
    assert NextMarker(data, 0, 2) == Marker(marker, 6, size);
    if marker !in FRAMES && size + 6 >= |data| {
      assert SkipFill(data, 6 + size) == 6 + size;
      assert NextMarker(data, 6, size) == Broken;
    }
  }
}
