/** Finding the frame size in JPEG bytes (sections B.1.1 and B.2.2 of ITU-T T.81). */
module JpegHeader {
  import opened Bytes
  import opened Options

  datatype Size = Size(height: nat, width: nat)

  /** A two-byte number, most significant byte first. */
  datatype Word16 = Word16(high: Byte, low: Byte)

  function Value(w: Word16): nat {
    (w.high as int) * 256 + w.low as int
  }

  function WordAt(bytes: seq<Byte>, i: nat): Word16
    requires i + 1 < |bytes|
  {
    Word16(bytes[i], bytes[i + 1])
  }

  function Word(bytes: seq<Byte>, i: nat): nat
    requires i + 1 < |bytes|
  {
    Value(WordAt(bytes, i))
  }

  predicate Standalone(marker: Byte) {
    marker == 0x01 || 0xd0 <= marker <= 0xd7
  }

  predicate Ends(marker: Byte) {
    marker == 0xd9 || marker == 0xda
  }

  predicate StartOfFrame(marker: Byte) {
    0xc0 <= marker <= 0xcf && marker != 0xc4 && marker != 0xc8 && marker != 0xcc
  }

  /** The markers of Table B.1 of ITU-T T.81 that matter here: the thirteen frame headers SOF0 to SOF15 (there is
      no 4, 8 or 12: DHT, JPG and DAC stand there), those without a segment, TEM and RST0 to RST7, and those
      at which the scan gives up, EOI and SOS. */
  lemma MarkerTable(marker: Byte)
    ensures StartOfFrame(marker) <==>
      marker in [0xc0, 0xc1, 0xc2, 0xc3, 0xc5, 0xc6, 0xc7, 0xc9, 0xca, 0xcb, 0xcd, 0xce, 0xcf]
    ensures Standalone(marker) <==> marker in [0x01, 0xd0, 0xd1, 0xd2, 0xd3, 0xd4, 0xd5, 0xd6, 0xd7]
    ensures Ends(marker) <==> marker in [0xd9, 0xda]
  {
  }

  /** Words count up: from zero, and where the high bytes differ they decide. */
  lemma WordOrder(a: Word16, b: Word16)
    ensures Value(a) < Value(b) <==> a.high < b.high || (a.high == b.high && a.low < b.low)
    ensures Value(Word16(0, a.low)) == a.low as int && Value(a) < 0x1_0000
  {
  }

  // ---- the scan -------------------------------------------------------------------------------------------------

  /** The first position at or after `i` that is not a fill byte. */
  function SkipFill(bytes: seq<Byte>, i: nat): (j: nat)
    requires i <= |bytes|
    ensures i <= j <= |bytes| && (forall k :: i <= k < j ==> bytes[k] == 0xff)
    ensures j < |bytes| ==> bytes[j] != 0xff
    decreases |bytes| - i
  {
    if i < |bytes| && bytes[i] == 0xff then SkipFill(bytes, i + 1) else i
  }

  lemma SkipFillIs(bytes: seq<Byte>, i: nat, j: nat)
    requires i <= j <= |bytes| && forall k :: i <= k < j ==> bytes[k] == 0xff
    requires j < |bytes| ==> bytes[j] != 0xff
    ensures SkipFill(bytes, i) == j
  {
    var s := SkipFill(bytes, i);
    assert !(s < j) && !(j < s);
  }

  /** What the scan finds from an offset on. */
  function Scan(bytes: seq<Byte>, offset: nat): Option<Size>
    decreases |bytes| - offset
  {
    if offset + 3 >= |bytes| then None
    else
      var at := SkipFill(bytes, offset);
      if at == |bytes| || Ends(bytes[at]) then None
      else if Standalone(bytes[at]) then Scan(bytes, at + 1)
      else if at + 2 >= |bytes| then None
      else
        var length := Word(bytes, at + 1);
        if length < 2 || at + 1 + length > |bytes| then None
        else if StartOfFrame(bytes[at]) then
          if length < 7 then None else Some(Size(Word(bytes, at + 4), Word(bytes, at + 6)))
        else Scan(bytes, at + 1 + length)
  }

  /** The JPEG branch of `imageDimensions`: all reads are in bounds and it ends on every input. */
  method Dimensions(bytes: seq<Byte>) returns (size: Option<Size>)
    ensures size == if |bytes| >= 4 && bytes[0] == 0xff && bytes[1] == 0xd8 then Scan(bytes, 2) else None
  {
    if |bytes| < 4 || bytes[0] != 0xff || bytes[1] != 0xd8 { return None; }
    var offset := 2;
    while offset + 3 < |bytes|
      invariant 2 <= offset <= |bytes| && Scan(bytes, 2) == Scan(bytes, offset)
      decreases |bytes| - offset
    {
      ghost var start := offset;
      while offset < |bytes| && bytes[offset] == 0xff
        invariant start <= offset <= |bytes| && forall k :: start <= k < offset ==> bytes[k] == 0xff
      {
        offset := offset + 1;
      }
      SkipFillIs(bytes, start, offset);
      if offset == |bytes| { return None; }
      var marker := bytes[offset];
      offset := offset + 1;
      if marker == 0xd9 || marker == 0xda { return None; }
      if marker == 0x01 || (marker >= 0xd0 && marker <= 0xd7) { continue; }
      if offset + 1 >= |bytes| { return None; }
      var length := Word(bytes, offset);
      if length < 2 || offset + length > |bytes| { return None; }
      if StartOfFrame(marker) {
        if length < 7 { return None; }
        return Some(Size(Word(bytes, offset + 3), Word(bytes, offset + 5)));
      }
      offset := offset + length;
    }
    return None;
  }

  // ---- what the bytes say ---------------------------------------------------------------------------------------

  /** Something before the frame header: a standalone marker, or a marker segment with its payload.
      T.81 asks for at least one 0xFF before a marker code; the scan does without, so `fill` may be 0. */
  datatype Segment =
    | Bare(fill: nat, marker: Byte)
    | Sized(fill: nat, marker: Byte, length: Word16, payload: seq<Byte>)

  predicate WellFormed(s: Segment) {
    && s.marker != 0xff && !Ends(s.marker)
    && match s
       case Bare(_, marker) => Standalone(marker)
       case Sized(_, marker, length, payload) =>
         !Standalone(marker) && !StartOfFrame(marker) && Value(length) == |payload| + 2
  }

  function Fill(n: nat): (r: seq<Byte>)
    ensures |r| == n
  {
    seq(n, _ => 0xff)
  }

  function BigEndian(w: Word16): (r: seq<Byte>)
    ensures |r| == 2
  {
    [w.high, w.low]
  }

  function PrintHead(fill: nat, marker: Byte, length: Word16): (r: seq<Byte>)
    ensures |r| == fill + 3
  {
    Fill(fill) + [marker] + BigEndian(length)
  }

  function Print(s: Segment): seq<Byte>
    requires WellFormed(s)
  {
    match s
    case Bare(fill, marker) => Fill(fill) + [marker]
    case Sized(fill, marker, length, payload) => PrintHead(fill, marker, length) + payload
  }

  predicate AllWellFormed(segments: seq<Segment>) {
    forall k :: 0 <= k < |segments| ==> WellFormed(segments[k])
  }

  function PrintAll(segments: seq<Segment>): seq<Byte>
    requires AllWellFormed(segments)
  {
    if segments == [] then [] else Print(segments[0]) + PrintAll(segments[1..])
  }

  /** A frame header: precision, height and width, then whatever its length covers. */
  datatype Frame = Frame(
    fill: nat, marker: Byte, length: Word16, precision: Byte, height: Word16, width: Word16, components: seq<Byte>)

  predicate FrameOk(f: Frame) {
    StartOfFrame(f.marker) && Value(f.length) == |f.components| + 7
  }

  function SizeOf(f: Frame): Size {
    Size(Value(f.height), Value(f.width))
  }

  function PrintBody(f: Frame): (r: seq<Byte>)
    ensures |r| == 5 + |f.components|
  {
    [f.precision] + BigEndian(f.height) + BigEndian(f.width) + f.components
  }

  function PrintFrame(f: Frame): seq<Byte>
    requires FrameOk(f)
  {
    PrintHead(f.fill, f.marker, f.length) + PrintBody(f)
  }

  // ---- scanning printed bytes -----------------------------------------------------------------------------------

  /** The bytes `p` stand at `at`. */
  predicate Stands(bytes: seq<Byte>, at: nat, p: seq<Byte>) {
    at + |p| <= |bytes| && bytes[at..at + |p|] == p
  }

  lemma StandsParts(bytes: seq<Byte>, at: nat, p: seq<Byte>, q: seq<Byte>)
    ensures Stands(bytes, at, p + q) <==> Stands(bytes, at, p) && Stands(bytes, at + |p|, q)
  {
    if at + |p| + |q| <= |bytes| {
      var whole := bytes[at..at + |p| + |q|];
      assert whole == bytes[at..at + |p|] + bytes[at + |p|..at + |p| + |q|];
      assert (p + q)[..|p|] == p && (p + q)[|p|..] == q;
    }
  }

  lemma StandsWord(bytes: seq<Byte>, at: nat, w: Word16)
    ensures Stands(bytes, at, BigEndian(w)) <==> at + 2 <= |bytes| && WordAt(bytes, at) == w
  {
    if at + 2 <= |bytes| {
      var pair := bytes[at..at + 2];
      assert pair == [bytes[at], bytes[at + 1]];
    }
  }

  lemma StandsMarker(bytes: seq<Byte>, at: nat, fill: nat, marker: Byte)
    requires marker != 0xff && at <= |bytes|
    ensures Stands(bytes, at, Fill(fill) + [marker]) <==>
      at + fill < |bytes| && SkipFill(bytes, at) == at + fill && bytes[at + fill] == marker
  {
    StandsParts(bytes, at, Fill(fill), [marker]);
    if at + fill < |bytes| {
      assert Stands(bytes, at + fill, [marker]) <==> bytes[at + fill] == marker;
      if Stands(bytes, at, Fill(fill)) && bytes[at + fill] == marker {
        assert forall k :: at <= k < at + fill ==> bytes[k] == bytes[at..at + fill][k - at];
        SkipFillIs(bytes, at, at + fill);
      }
    }
  }

  /** Where a marker segment's head stands, and only there, the scan reads its marker and its length. */
  lemma StandsHead(bytes: seq<Byte>, at: nat, fill: nat, marker: Byte, length: Word16)
    requires marker != 0xff && at <= |bytes|
    ensures Stands(bytes, at, PrintHead(fill, marker, length)) <==>
      && at + fill + 2 < |bytes| && SkipFill(bytes, at) == at + fill && bytes[at + fill] == marker
      && WordAt(bytes, at + fill + 1) == length
  {
    StandsParts(bytes, at, Fill(fill) + [marker], BigEndian(length));
    StandsMarker(bytes, at, fill, marker);
    StandsWord(bytes, at + fill + 1, length);
  }

  /** Where a frame's body stands, and only there, its size can be read. */
  lemma StandsBody(bytes: seq<Byte>, at: nat, f: Frame)
    ensures Stands(bytes, at, PrintBody(f)) <==>
      && at + 4 < |bytes| && bytes[at] == f.precision && WordAt(bytes, at + 1) == f.height
      && WordAt(bytes, at + 3) == f.width && Stands(bytes, at + 5, f.components)
  {
    StandsParts(bytes, at, [f.precision] + BigEndian(f.height) + BigEndian(f.width), f.components);
    StandsParts(bytes, at, [f.precision] + BigEndian(f.height), BigEndian(f.width));
    StandsParts(bytes, at, [f.precision], BigEndian(f.height));
    StandsWord(bytes, at + 1, f.height);
    StandsWord(bytes, at + 3, f.width);
    if at < |bytes| { assert Stands(bytes, at, [f.precision]) <==> bytes[at] == f.precision; }
  }

  /** How many bytes a segment takes. */
  function Span(s: Segment): nat {
    if s.Bare? then s.fill + 1 else s.fill + 3 + |s.payload|
  }

  /** The marker of the segment, and its length if it has one, can be read off at `at`. */
  predicate Shows(bytes: seq<Byte>, at: nat, s: Segment) {
    at + Span(s) <= |bytes| && SkipFill(bytes, at) == at + s.fill && bytes[at + s.fill] == s.marker
    && (s.Sized? ==> WordAt(bytes, at + s.fill + 1) == s.length && Stands(bytes, at + s.fill + 3, s.payload))
  }

  /** Nothing but the bytes themselves is said about what is printed here. */
  lemma StandsAfter(bytes: seq<Byte>, at: nat, head: seq<Byte>, payload: seq<Byte>, size: nat)
    requires size == |head|
    ensures Stands(bytes, at, head + payload) <==> Stands(bytes, at, head) && Stands(bytes, at + size, payload)
  {
    StandsParts(bytes, at, head, payload);
  }

  lemma PrintShows(bytes: seq<Byte>, at: nat, s: Segment)
    requires WellFormed(s) && at <= |bytes|
    ensures |Print(s)| == Span(s) && (Stands(bytes, at, Print(s)) <==> Shows(bytes, at, s))
  {
    match s
    case Bare(fill, marker) => StandsMarker(bytes, at, fill, marker);
    case Sized(fill, marker, length, payload) =>
      StandsAfter(bytes, at, PrintHead(fill, marker, length), payload, fill + 3);
      StandsHead(bytes, at, fill, marker, length);
  }

  /** A frame header's marker, length and size can be read off at `at`. */
  predicate ShowsFrame(bytes: seq<Byte>, at: nat, f: Frame) {
    var m := at + f.fill;
    && m + 7 < |bytes| && SkipFill(bytes, at) == m && bytes[m] == f.marker && WordAt(bytes, m + 1) == f.length
    && bytes[m + 3] == f.precision && WordAt(bytes, m + 4) == f.height && WordAt(bytes, m + 6) == f.width
    && Stands(bytes, m + 8, f.components)
  }

  lemma PrintShowsFrame(bytes: seq<Byte>, at: nat, f: Frame)
    requires FrameOk(f) && at <= |bytes|
    ensures Stands(bytes, at, PrintFrame(f)) <==> ShowsFrame(bytes, at, f)
  {
    var m := at + f.fill;
    StandsAfter(bytes, at, PrintHead(f.fill, f.marker, f.length), PrintBody(f), f.fill + 3);
    StandsHead(bytes, at, f.fill, f.marker, f.length);
    StandsBody(bytes, m + 3, f);
  }

  /** At `at` the scan reads a marker segment or a frame header whose marker is at `m` and which ends at `end`. */
  predicate Turns(bytes: seq<Byte>, at: nat, m: nat, end: nat) {
    && at + 3 < |bytes| && SkipFill(bytes, at) == m && m + 2 < |bytes|
    && !Ends(bytes[m]) && !Standalone(bytes[m])
    && Word(bytes, m + 1) >= 2 && m + 1 + Word(bytes, m + 1) == end <= |bytes|
  }

  lemma ScanTurn(bytes: seq<Byte>, at: nat, m: nat, end: nat)
    requires Turns(bytes, at, m, end) && !StartOfFrame(bytes[m])
    ensures Scan(bytes, at) == Scan(bytes, end)
  {
  }

  lemma ScanStop(bytes: seq<Byte>, at: nat, m: nat, end: nat)
    requires Turns(bytes, at, m, end) && StartOfFrame(bytes[m]) && m + 8 <= end
    ensures Scan(bytes, at) == Some(Size(Word(bytes, m + 4), Word(bytes, m + 6)))
  {
  }

  lemma ScanBare(bytes: seq<Byte>, at: nat, m: nat)
    requires at + 3 < |bytes| && SkipFill(bytes, at) == m < |bytes|
    requires !Ends(bytes[m]) && Standalone(bytes[m])
    ensures Scan(bytes, at) == Scan(bytes, m + 1)
  {
  }

  lemma SizedTurns(bytes: seq<Byte>, at: nat, s: Segment)
    requires WellFormed(s) && s.Sized? && Shows(bytes, at, s) && at + Span(s) + 8 <= |bytes|
    ensures Turns(bytes, at, at + s.fill, at + Span(s)) && !StartOfFrame(bytes[at + s.fill])
  {
  }

  /** From `end` on the scan finds what it finds from `at` on. */
  predicate Skips(bytes: seq<Byte>, at: nat, end: nat) {
    Scan(bytes, at) == Scan(bytes, end)
  }

  lemma ScanSized(bytes: seq<Byte>, at: nat, m: nat, end: nat, s: Segment)
    requires WellFormed(s) && s.Sized? && Shows(bytes, at, s) && end + 8 <= |bytes|
    requires m == at + s.fill && end == at + Span(s)
    ensures Skips(bytes, at, end)
  {
    SizedTurns(bytes, at, s);
    ScanTurn(bytes, at, m, end);
  }

  lemma ScanUnsized(bytes: seq<Byte>, at: nat, m: nat, end: nat, s: Segment)
    requires WellFormed(s) && s.Bare? && Shows(bytes, at, s) && end + 8 <= |bytes|
    requires m == at + s.fill && end == at + Span(s)
    ensures Skips(bytes, at, end)
  {
    ScanBare(bytes, at, m);
  }

  /** Reading one segment at `at` moves past exactly its bytes. */
  lemma ScanSegment(bytes: seq<Byte>, at: nat, s: Segment)
    requires WellFormed(s) && Shows(bytes, at, s) && at + Span(s) + 8 <= |bytes|
    ensures Skips(bytes, at, at + Span(s))
  {
    var m, end := at + s.fill, at + Span(s);
    if s.Bare? { ScanUnsized(bytes, at, m, end, s); } else { ScanSized(bytes, at, m, end, s); }
  }

  lemma ScanFrame(bytes: seq<Byte>, at: nat, f: Frame)
    requires FrameOk(f) && at <= |bytes| && ShowsFrame(bytes, at, f)
    ensures Scan(bytes, at) == Some(SizeOf(f))
  {
    ScanStop(bytes, at, at + f.fill, at + f.fill + 8 + |f.components|);
  }

  /** From `at` on stand well-formed segments, then a frame header of this size. */
  ghost predicate Reads(bytes: seq<Byte>, at: nat, size: Size, segments: seq<Segment>, f: Frame) {
    && at <= |bytes| && AllWellFormed(segments) && FrameOk(f) && SizeOf(f) == size
    && Stands(bytes, at, PrintAll(segments) + PrintFrame(f))
  }

  lemma ReadsNone(bytes: seq<Byte>, at: nat, size: Size, f: Frame)
    requires at <= |bytes| && FrameOk(f) && SizeOf(f) == size
    ensures Reads(bytes, at, size, [], f) <==> ShowsFrame(bytes, at, f)
  {
    assert PrintAll([]) + PrintFrame(f) == PrintFrame(f);
    PrintShowsFrame(bytes, at, f);
  }

  lemma PrintAllSplit(s: Segment, more: seq<Segment>, rest: seq<Byte>)
    requires WellFormed(s) && AllWellFormed(more)
    ensures AllWellFormed([s] + more)
    ensures PrintAll([s] + more) + rest == Print(s) + (PrintAll(more) + rest)
  {
    assert ([s] + more)[1..] == more;
  }

  lemma StandsPrinted(bytes: seq<Byte>, at: nat, s: Segment, more: seq<Segment>, rest: seq<Byte>)
    requires WellFormed(s) && AllWellFormed(more)
    ensures AllWellFormed([s] + more)
    ensures Stands(bytes, at, PrintAll([s] + more) + rest) <==>
      Stands(bytes, at, Print(s)) && Stands(bytes, at + |Print(s)|, PrintAll(more) + rest)
  {
    PrintAllSplit(s, more, rest);
    StandsParts(bytes, at, Print(s), PrintAll(more) + rest);
  }

  lemma ReadsFirst(bytes: seq<Byte>, at: nat, size: Size, s: Segment, more: seq<Segment>, f: Frame, next: nat)
    requires WellFormed(s) && AllWellFormed(more) && Reads(bytes, at, size, [s] + more, f) && next == at + |Print(s)|
    ensures Stands(bytes, at, Print(s)) && Reads(bytes, next, size, more, f)
  {
    StandsPrinted(bytes, at, s, more, PrintFrame(f));
  }

  lemma ReadsPrepend(bytes: seq<Byte>, at: nat, size: Size, s: Segment, more: seq<Segment>, f: Frame)
    requires WellFormed(s) && Stands(bytes, at, Print(s)) && Reads(bytes, at + |Print(s)|, size, more, f)
    ensures Reads(bytes, at, size, [s] + more, f)
  {
    StandsPrinted(bytes, at, s, more, PrintFrame(f));
  }

  lemma ReadsRoom(bytes: seq<Byte>, at: nat, size: Size, segments: seq<Segment>, f: Frame)
    requires Reads(bytes, at, size, segments, f)
    ensures at + 8 <= |bytes|
  {
    assert |PrintFrame(f)| >= 8;
  }

  lemma ScanOne(bytes: seq<Byte>, at: nat, s: Segment, next: nat)
    requires WellFormed(s) && Stands(bytes, at, Print(s)) && next == at + |Print(s)| && next + 8 <= |bytes|
    ensures Skips(bytes, at, next)
  {
    PrintShows(bytes, at, s);
    ScanSegment(bytes, at, s);
  }

  lemma ScanFirst(bytes: seq<Byte>, at: nat, size: Size, s: Segment, more: seq<Segment>, f: Frame, next: nat)
    requires WellFormed(s) && AllWellFormed(more) && Reads(bytes, at, size, [s] + more, f) && next == at + |Print(s)|
    ensures Reads(bytes, next, size, more, f) && Skips(bytes, at, next)
  {
    ReadsFirst(bytes, at, size, s, more, f, next);
    ReadsRoom(bytes, next, size, more, f);
    ScanOne(bytes, at, s, next);
  }

  /** One segment further on, less of the print is left and the scan finds the same. */
  lemma ScanNext(bytes: seq<Byte>, at: nat, size: Size, segments: seq<Segment>, f: Frame)
    returns (next: nat, more: seq<Segment>)
    requires Reads(bytes, at, size, segments, f) && segments != []
    ensures Reads(bytes, next, size, more, f) && |more| < |segments| && Scan(bytes, at) == Scan(bytes, next)
  {
    next, more := at + |Print(segments[0])|, segments[1..];
    assert segments == [segments[0]] + more;
    ScanFirst(bytes, at, size, segments[0], more, f, next);
  }

  lemma ScanNone(bytes: seq<Byte>, at: nat, size: Size, f: Frame)
    requires Reads(bytes, at, size, [], f)
    ensures Scan(bytes, at) == Some(size)
  {
    ReadsNone(bytes, at, size, f);
    ScanFrame(bytes, at, f);
  }

  lemma {:induction false} ScanPrinted(bytes: seq<Byte>, at: nat, size: Size, segments: seq<Segment>, f: Frame)
    requires Reads(bytes, at, size, segments, f)
    ensures Scan(bytes, at) == Some(size)
    decreases |segments|
  {
    if segments == [] {
      ScanNone(bytes, at, size, f);
    } else {
      var next, more := ScanNext(bytes, at, size, segments, f);
      ScanPrinted(bytes, next, size, more, f);
    }
  }

  // ---- reading back what was scanned ----------------------------------------------------------------------------

  /** What a successful scan has seen at `at`. */
  lemma SawBare(bytes: seq<Byte>, at: nat, m: nat)
    requires at <= |bytes| && Scan(bytes, at).Some? && m == SkipFill(bytes, at) && m < |bytes| && Standalone(bytes[m])
    ensures !Ends(bytes[m]) && Scan(bytes, m + 1) == Scan(bytes, at)
  {
  }

  lemma SawMarker(bytes: seq<Byte>, at: nat)
    requires at <= |bytes| && Scan(bytes, at).Some?
    ensures SkipFill(bytes, at) < |bytes| && !Ends(bytes[SkipFill(bytes, at)])
  {
  }

  lemma SawSized(bytes: seq<Byte>, at: nat, m: nat)
    requires at <= |bytes| && Scan(bytes, at).Some? && m == SkipFill(bytes, at) && m < |bytes| && !Standalone(bytes[m])
    ensures m + 2 < |bytes| && Word(bytes, m + 1) >= 2 && m + 1 + Word(bytes, m + 1) <= |bytes|
    ensures StartOfFrame(bytes[m]) ==>
      Word(bytes, m + 1) >= 7 && Scan(bytes, at).value == Size(Word(bytes, m + 4), Word(bytes, m + 6))
    ensures !StartOfFrame(bytes[m]) ==> Scan(bytes, m + 1 + Word(bytes, m + 1)) == Scan(bytes, at)
  {
  }

  lemma ReadSized(bytes: seq<Byte>, at: nat, m: nat) returns (s: Segment)
    requires at <= |bytes| && m == SkipFill(bytes, at) && m + 2 < |bytes|
    requires !Ends(bytes[m]) && !Standalone(bytes[m]) && !StartOfFrame(bytes[m])
    requires Word(bytes, m + 1) >= 2 && m + 1 + Word(bytes, m + 1) <= |bytes|
    ensures WellFormed(s) && Shows(bytes, at, s) && at + Span(s) == m + 1 + Word(bytes, m + 1)
  {
    s := Sized(m - at, bytes[m], WordAt(bytes, m + 1), bytes[m + 3..m + 1 + Word(bytes, m + 1)]);
  }

  lemma ReadBare(bytes: seq<Byte>, at: nat, m: nat) returns (s: Segment)
    requires at <= |bytes| && m == SkipFill(bytes, at) && m < |bytes| && !Ends(bytes[m]) && Standalone(bytes[m])
    ensures WellFormed(s) && Shows(bytes, at, s) && at + Span(s) == m + 1
  {
    s := Bare(m - at, bytes[m]);
  }

  /** The segment a successful scan steps over. */
  lemma ReadSegment(bytes: seq<Byte>, at: nat) returns (s: Segment)
    requires at <= |bytes| && Scan(bytes, at).Some?
    requires SkipFill(bytes, at) < |bytes|
    requires Standalone(bytes[SkipFill(bytes, at)]) || !StartOfFrame(bytes[SkipFill(bytes, at)])
    ensures WellFormed(s) && Shows(bytes, at, s) && Scan(bytes, at + Span(s)) == Scan(bytes, at)
  {
    var m := SkipFill(bytes, at);
    SawMarker(bytes, at);
    if Standalone(bytes[m]) {
      SawBare(bytes, at, m);
      s := ReadBare(bytes, at, m);
    } else {
      SawSized(bytes, at, m);
      s := ReadSized(bytes, at, m);
    }
  }

  /** The frame header a successful scan stops at. */
  lemma ReadFrame(bytes: seq<Byte>, at: nat) returns (f: Frame)
    requires at <= |bytes| && Scan(bytes, at).Some?
    requires SkipFill(bytes, at) < |bytes|
    requires !Standalone(bytes[SkipFill(bytes, at)]) && StartOfFrame(bytes[SkipFill(bytes, at)])
    ensures FrameOk(f) && Some(SizeOf(f)) == Scan(bytes, at) && ShowsFrame(bytes, at, f)
  {
    var m := SkipFill(bytes, at);
    SawSized(bytes, at, m);
    f := Frame(m - at, bytes[m], WordAt(bytes, m + 1), bytes[m + 3], WordAt(bytes, m + 4), WordAt(bytes, m + 6),
               bytes[m + 8..m + 1 + Word(bytes, m + 1)]);
  }

  lemma ReadLast(bytes: seq<Byte>, at: nat, size: Size) returns (f: Frame)
    requires at <= |bytes| && Scan(bytes, at) == Some(size) && SkipFill(bytes, at) < |bytes|
    requires !Standalone(bytes[SkipFill(bytes, at)]) && StartOfFrame(bytes[SkipFill(bytes, at)])
    ensures Reads(bytes, at, size, [], f)
  {
    f := ReadFrame(bytes, at);
    ReadsNone(bytes, at, size, f);
  }

  lemma ReadOne(bytes: seq<Byte>, at: nat, size: Size, s: Segment, more: seq<Segment>, f: Frame)
    returns (segments: seq<Segment>)
    requires WellFormed(s) && Shows(bytes, at, s) && Reads(bytes, at + Span(s), size, more, f)
    ensures Reads(bytes, at, size, segments, f)
  {
    PrintShows(bytes, at, s);
    ReadsPrepend(bytes, at, size, s, more, f);
    segments := [s] + more;
  }

  lemma {:induction false} ScanIsPrinted(bytes: seq<Byte>, at: nat, size: Size)
    returns (segments: seq<Segment>, f: Frame)
    requires at <= |bytes| && Scan(bytes, at) == Some(size)
    ensures Reads(bytes, at, size, segments, f)
    decreases |bytes| - at
  {
    SawMarker(bytes, at);
    if Standalone(bytes[SkipFill(bytes, at)]) || !StartOfFrame(bytes[SkipFill(bytes, at)]) {
      var s := ReadSegment(bytes, at);
      var more;
      more, f := ScanIsPrinted(bytes, at + Span(s), size);
      segments := ReadOne(bytes, at, size, s, more, f);
    } else {
      f := ReadLast(bytes, at, size);
      segments := [];
    }
  }

  // ---- main result ----------------------------------------------------------------------------------------------

  const START_OF_IMAGE: seq<Byte> := [0xff, 0xd8]

  /** An image start, well-formed segments, and a first frame header of this size. */
  ghost predicate Describes(bytes: seq<Byte>, size: Size) {
    && START_OF_IMAGE <= bytes
    && exists segments, f :: Reads(bytes, 2, size, segments, f)
  }

  /** The scan returns a size exactly for the bytes that start with an image start, well-formed
      segments and a first frame header of that size; anything may follow. */
  method ReadDimensions(bytes: seq<Byte>) returns (size: Option<Size>)
    ensures forall s :: size == Some(s) <==> Describes(bytes, s)
  {
    size := Dimensions(bytes);
    forall s ensures size == Some(s) <==> Describes(bytes, s) { DimensionsExactly(bytes, s, size); }
  }

  lemma DimensionsExactly(bytes: seq<Byte>, s: Size, size: Option<Size>)
    requires size == if |bytes| >= 4 && bytes[0] == 0xff && bytes[1] == 0xd8 then Scan(bytes, 2) else None
    ensures size == Some(s) <==> Describes(bytes, s)
  {
    assert START_OF_IMAGE <= bytes <==> |bytes| >= 2 && bytes[0] == 0xff && bytes[1] == 0xd8;
    if size == Some(s) {
      var segments, f := ScanIsPrinted(bytes, 2, s);
    }
    if Describes(bytes, s) { DescribedIsFound(bytes, s); }
  }

  lemma DescribedIsFound(bytes: seq<Byte>, s: Size)
    requires Describes(bytes, s)
    ensures |bytes| >= 4 && Scan(bytes, 2) == Some(s)
  {
    var segments, f :| Reads(bytes, 2, s, segments, f);
    ScanPrinted(bytes, 2, s, segments, f);
  }
}
