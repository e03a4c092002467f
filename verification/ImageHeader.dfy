/** Reading the declared size of an encoded image from its header, without decoding it. */
module ImageHeader {
  import opened Wrappers
  import opened Tensors
  import TB = TensorBytes

  datatype Size = Size(width: int, height: int)

  const MAX_PIXELS := 64 * 1024 * 1024

  const PNG_SIGNATURE: seq<Byte> := [0x89, 0x50, 0x4E, 0x47, 0x0D, 0x0A, 0x1A, 0x0A]
  const IHDR: seq<Byte> := [0x49, 0x48, 0x44, 0x52]

  function Be16(s: seq<Byte>, i: nat): (n: nat)
    requires i + 2 <= |s|
    ensures n < 0x1_0000
  {
    var high: int := s[i]; 256 * high + s[i + 1]
  }

  function Be32(s: seq<Byte>, i: nat): (n: nat)
    requires i + 4 <= |s|
    ensures n < 0x1_0000_0000
  {
    0x1_0000 * Be16(s, i) + Be16(s, i + 2)
  }

  function Be16Bytes(n: nat): seq<Byte>
    requires n < 0x1_0000
  {
    [n / 256, n % 256]
  }

  function Be32Bytes(n: nat): seq<Byte>
    requires n < 0x1_0000_0000
  {
    Be16Bytes(n / 0x1_0000) + Be16Bytes(n % 0x1_0000)
  }

  // -------------------------------------------------------------------- PNG

  /** What the chunk walk finds in what follows the signature. */
  function PngRest(s: seq<Byte>): Option<Size> {
    if |s| < 12 then None
    else if s[4..8] == IHDR then if |s| < 16 then None else Some(Size(Be32(s, 8), Be32(s, 12)))
    else if 12 + Be32(s, 0) > |s| then None
    else PngRest(s[12 + Be32(s, 0)..])
  }

  /** A chunk other than IHDR: length, type, data and checksum. */
  datatype Chunk = Chunk(kind: seq<Byte>, data: seq<Byte>, crc: seq<Byte>)

  predicate IsSkipped(c: Chunk) {
    |c.kind| == 4 && c.kind != IHDR && |c.crc| == 4 && |c.data| < 0x1_0000_0000
  }

  function ChunkBytes(c: Chunk): seq<Byte>
    requires IsSkipped(c)
  {
    Be32Bytes(|c.data|) + c.kind + c.data + c.crc
  }

  /** The stream as section 5.3 of the PNG specification lays it out: any other chunks, then IHDR with the size. */
  ghost predicate IsPngOf(s: seq<Byte>, chunks: seq<Chunk>, size: Size)
    decreases chunks
  {
    if chunks == [] then
      && |s| >= 16 && s[4..8] == IHDR && 0 <= size.width < 0x1_0000_0000 && 0 <= size.height < 0x1_0000_0000
      && s[8..12] == Be32Bytes(size.width) && s[12..16] == Be32Bytes(size.height)
    else
      && IsSkipped(chunks[0]) && Starts(s, ChunkBytes(chunks[0]))
      && IsPngOf(s[|ChunkBytes(chunks[0])|..], chunks[1..], size)
  }

  predicate Starts(s: seq<Byte>, prefix: seq<Byte>) {
    |prefix| <= |s| && s[..|prefix|] == prefix
  }

  /** The most significant byte comes first. */
  lemma BigEndian(s: seq<Byte>, i: nat)
    requires i + 4 <= |s|
    ensures var a: int, b: int, c: int, d: int := s[i], s[i + 1], s[i + 2], s[i + 3];
      Be16(s, i) == 0x100 * a + b && Be32(s, i) == 0x100_0000 * a + 0x1_0000 * b + 0x100 * c + d
  {
  }

  lemma Be32Reads(s: seq<Byte>, i: nat, n: nat)
    requires n < 0x1_0000_0000 && i + 4 <= |s| && s[i..i + 4] == Be32Bytes(n)
    ensures Be32(s, i) == n
  {
    assert s[i] == s[i..i + 4][0] && s[i + 1] == s[i..i + 4][1] && s[i + 2] == s[i..i + 4][2] && s[i + 3] == s[i..i + 4][3];
  }

  lemma Be16Writes(s: seq<Byte>, i: nat)
    requires i + 2 <= |s|
    ensures Be16Bytes(Be16(s, i)) == s[i..i + 2]
  {
  }

  lemma Be32Writes(s: seq<Byte>, i: nat)
    requires i + 4 <= |s|
    ensures Be32Bytes(Be32(s, i)) == s[i..i + 4]
  {
    Be16Writes(s, i);
    Be16Writes(s, i + 2);
    assert Be32(s, i) / 0x1_0000 == Be16(s, i) && Be32(s, i) % 0x1_0000 == Be16(s, i + 2);
    assert s[i..i + 4] == s[i..i + 2] + s[i + 2..i + 4];
  }

  /** One chunk is stepped over. */
  lemma SkipsChunk(s: seq<Byte>, c: Chunk)
    requires IsSkipped(c) && Starts(s, ChunkBytes(c))
    ensures PngRest(s) == PngRest(s[|ChunkBytes(c)|..])
  {
    var head, n := ChunkBytes(c), |c.data|;
    assert s[0..4] == head[0..4] == Be32Bytes(n);
    Be32Reads(s, 0, n);
    assert s[4..8] == head[4..8] == c.kind;
  }

  /** Whatever chunks come before IHDR, the size it declares is found. */
  lemma {:induction false} PngFound(s: seq<Byte>, chunks: seq<Chunk>, size: Size)
    requires IsPngOf(s, chunks, size)
    ensures PngRest(s) == Some(size)
    decreases chunks
  {
    if chunks == [] {
      Be32Reads(s, 8, size.width);
      Be32Reads(s, 12, size.height);
    } else {
      SkipsChunk(s, chunks[0]);
      PngFound(s[|ChunkBytes(chunks[0])|..], chunks[1..], size);
    }
  }

  lemma FirstChunk(s: seq<Byte>) returns (chunk: Chunk)
    requires |s| >= 12 && s[4..8] != IHDR && 12 + Be32(s, 0) <= |s|
    ensures IsSkipped(chunk) && Starts(s, ChunkBytes(chunk)) && |ChunkBytes(chunk)| == 12 + Be32(s, 0)
  {
    var n := Be32(s, 0);
    chunk := Chunk(s[4..8], s[8..8 + n], s[8 + n..12 + n]);
    Be32Writes(s, 0);
  }

  /** And nothing else is: a size found is one an IHDR chunk declares, behind whole chunks. */
  lemma {:induction false} PngOnly(s: seq<Byte>, size: Size) returns (chunks: seq<Chunk>)
    requires PngRest(s) == Some(size)
    ensures IsPngOf(s, chunks, size)
  {
    if s[4..8] == IHDR {
      chunks := [];
      Be32Writes(s, 8);
      Be32Writes(s, 12);
    } else {
      var chunk := FirstChunk(s);
      var more := PngOnly(s[12 + Be32(s, 0)..], size);
      chunks := [chunk] + more;
    }
  }

  // ------------------------------------------------------------------- JPEG

  /** Drops leading fill bytes. */
  function SkipFill(s: seq<Byte>): (t: seq<Byte>)
    ensures |t| <= |s| && (t != [] ==> t[0] != 0xFF)
  {
    if s != [] && s[0] == 0xFF then SkipFill(s[1..]) else s
  }

  /** Markers with no payload. */
  predicate Standalone(marker: Byte) {
    marker == 0x01 || 0xD0 <= marker <= 0xD9
  }

  predicate StartsFrame(marker: Byte) {
    0xC0 <= marker <= 0xCF && marker != 0xC4 && marker != 0xC8 && marker != 0xCC
  }

  /** What a marker leads to: an end of the walk, or the distance to where it goes on. */
  datatype Walk = Stop(found: Option<Size>) | Go(distance: nat)

  function AtMarker(t: seq<Byte>): (w: Walk)
    requires t != []
    ensures w.Go? ==> w.distance > 0
  {
    if Standalone(t[0]) then Go(1)
    else if StartsFrame(t[0]) then Stop(if |t| < 8 then None else Some(Size(Be16(t, 6), Be16(t, 4))))
    else if |t| < 3 || Be16(t, 1) < 2 then Stop(None)
    else Go(1 + Be16(t, 1))
  }

  /** What the marker walk finds behind SOI; `first` until a marker has been read. */
  function JpegRest(s: seq<Byte>, first: bool): Option<Size>
    decreases |s|
  {
    if s == [] then None
    else if s[0] != 0xFF then if first then None else JpegRest(s[1..], false)
    else
      var t := SkipFill(s[1..]);
      if t == [] then None
      else
        match AtMarker(t)
        case Stop(found) => found
        case Go(distance) => if distance > |t| then None else JpegRest(t[distance..], false)
  }

  function JpegAll(s: seq<Byte>): Option<Size> {
    var t := SkipFill(s);
    if t == [] || t[0] != 0xD8 then None else JpegRest(t[1..], true)
  }

  /** A marker segment before the frame header: stray bytes, fill bytes, marker, and a payload unless it stands alone. */
  datatype Segment = Segment(junk: seq<Byte>, fill: nat, marker: Byte, payload: seq<Byte>)

  /** The start-of-frame markers and the markers without parameters of table B.1 of ITU-T T.81. */
  const FRAME_MARKERS: set<Byte> := {0xC0, 0xC1, 0xC2, 0xC3, 0xC5, 0xC6, 0xC7, 0xC9, 0xCA, 0xCB, 0xCD, 0xCE, 0xCF}
  const BARE_MARKERS: set<Byte> := {0x01, 0xD0, 0xD1, 0xD2, 0xD3, 0xD4, 0xD5, 0xD6, 0xD7, 0xD8, 0xD9}

  predicate IsSegment(g: Segment, first: bool) {
    && (forall b :: b in g.junk ==> b != 0xFF) && (first ==> g.junk == [])
    && g.marker != 0xFF && g.marker !in FRAME_MARKERS
    && (if g.marker in BARE_MARKERS then g.payload == [] else |g.payload| + 2 < 0x1_0000)
  }

  function Fill(n: nat): seq<Byte> {
    seq(n, _ => 0xFF)
  }

  function SegmentBytes(g: Segment): seq<Byte>
    requires IsSegment(g, false)
  {
    g.junk + Fill(g.fill + 1) + [g.marker] + if g.marker in BARE_MARKERS then [] else Be16Bytes(|g.payload| + 2) + g.payload
  }

  /** The frame header: stray and fill bytes, marker, length, precision, height and width (section B.2.2 of ITU-T T.81). */
  datatype Frame = Frame(junk: seq<Byte>, fill: nat, marker: Byte, length: seq<Byte>, precision: Byte, size: Size)

  predicate IsFrame(f: Frame, first: bool) {
    && (forall b :: b in f.junk ==> b != 0xFF) && (first ==> f.junk == [])
    && f.marker in FRAME_MARKERS && |f.length| == 2
    && 0 <= f.size.width < 0x1_0000 && 0 <= f.size.height < 0x1_0000
  }

  function FrameBytes(f: Frame): seq<Byte>
    requires IsFrame(f, false)
  {
    f.junk + Fill(f.fill + 1) + ([f.marker] + f.length + [f.precision] + Be16Bytes(f.size.height) + Be16Bytes(f.size.width))
  }

  /** Behind SOI come any segments and then the frame header (sections B.1.1.2 and B.2.2 of ITU-T T.81). */
  ghost predicate IsJpegOf(s: seq<Byte>, first: bool, segments: seq<Segment>, frame: Frame)
    decreases segments
  {
    if segments == [] then IsFrame(frame, first) && Starts(s, FrameBytes(frame))
    else
      && IsSegment(segments[0], first) && Starts(s, SegmentBytes(segments[0]))
      && IsJpegOf(s[|SegmentBytes(segments[0])|..], false, segments[1..], frame)
  }

  lemma {:induction false} SkipsFill(n: nat, t: seq<Byte>)
    requires t != [] ==> t[0] != 0xFF
    ensures SkipFill(Fill(n) + t) == t
  {
    if n > 0 {
      SkipsFill(n - 1, t);
      assert (Fill(n) + t)[1..] == Fill(n - 1) + t;
    } else {
      assert Fill(0) + t == t;
    }
  }

  lemma {:induction false} SkipsJunk(junk: seq<Byte>, t: seq<Byte>, first: bool)
    requires (forall b :: b in junk ==> b != 0xFF) && (first ==> junk == []) && t != [] && t[0] == 0xFF
    ensures JpegRest(junk + t, first) == JpegRest(t, false)
    decreases junk
  {
    if junk == [] {
      assert junk + t == t;
    } else {
      assert junk[0] in junk && forall b :: b in junk[1..] ==> b in junk;
      assert (junk + t)[0] == junk[0] && (junk + t)[1..] == junk[1..] + t;
      SkipsJunk(junk[1..], t, false);
    }
  }

  /** A marker is found behind any stray bytes and fill bytes. */
  lemma MarkerFound(junk: seq<Byte>, fill: nat, t: seq<Byte>, first: bool)
    requires (forall b :: b in junk ==> b != 0xFF) && (first ==> junk == []) && t != [] && t[0] != 0xFF
    ensures JpegRest(junk + Fill(fill + 1) + t, first) == JpegRest([0xFF] + t, false)
  {
    var u := Fill(fill + 1) + t;
    assert junk + Fill(fill + 1) + t == junk + u;
    SkipsJunk(junk, u, first);
    SkipsFill(fill, t);
    assert u[1..] == Fill(fill) + t;
    assert ([0xFF] + t)[1..] == t;
    assert JpegRest(u, false) == JpegRest([0xFF] + t, false);
  }

  /** What follows the marker of a segment. */
  function SegmentBody(g: Segment): seq<Byte>
    requires IsSegment(g, false)
  {
    if g.marker in BARE_MARKERS then [] else Be16Bytes(|g.payload| + 2) + g.payload
  }

  /** At the marker of a segment the walk goes on behind it. */
  lemma BodySkipped(g: Segment, rest: seq<Byte>)
    requires IsSegment(g, false)
    ensures JpegRest([0xFF] + ([g.marker] + SegmentBody(g) + rest), false) == JpegRest(rest, false)
  {
    var t := [g.marker] + SegmentBody(g) + rest;
    assert ([0xFF] + t)[1..] == t && SkipFill(t) == t;
    if Standalone(g.marker) {
      assert t[1..] == rest;
    } else {
      assert t[1] == (|g.payload| + 2) / 256 && t[2] == (|g.payload| + 2) % 256;
      assert t[1 + Be16(t, 1)..] == rest;
    }
  }

  lemma SegmentSplits(s: seq<Byte>, g: Segment)
    requires IsSegment(g, false) && Starts(s, SegmentBytes(g))
    ensures s == g.junk + Fill(g.fill + 1) + ([g.marker] + SegmentBody(g) + s[|SegmentBytes(g)|..])
  {
    var head := SegmentBytes(g);
    assert s == head + s[|head|..];
    assert head == g.junk + Fill(g.fill + 1) + [g.marker] + SegmentBody(g);
  }

  lemma SkipsSegment(s: seq<Byte>, g: Segment, first: bool)
    requires IsSegment(g, first) && Starts(s, SegmentBytes(g))
    ensures JpegRest(s, first) == JpegRest(s[|SegmentBytes(g)|..], false)
  {
    var rest := s[|SegmentBytes(g)|..];
    SegmentSplits(s, g);
    MarkerFound(g.junk, g.fill, [g.marker] + SegmentBody(g) + rest, first);
    BodySkipped(g, rest);
  }

  lemma FindsFrame(s: seq<Byte>, f: Frame, first: bool)
    requires IsFrame(f, first) && Starts(s, FrameBytes(f))
    ensures JpegRest(s, first) == Some(f.size)
  {
    var rest := s[|FrameBytes(f)|..];
    var t := [f.marker] + f.length + [f.precision] + Be16Bytes(f.size.height) + Be16Bytes(f.size.width) + rest;
    assert s == FrameBytes(f) + rest;
    assert s == f.junk + Fill(f.fill + 1) + t;
    MarkerFound(f.junk, f.fill, t, first);
    assert ([0xFF] + t)[1..] == t;
    assert t[4] == f.size.height / 256 && t[5] == f.size.height % 256 && t[6] == f.size.width / 256 && t[7] == f.size.width % 256;
  }

  /** Whatever segments, fill bytes and stray bytes come before the frame header, the size it declares is found. */
  lemma {:induction false} JpegFound(s: seq<Byte>, first: bool, segments: seq<Segment>, frame: Frame)
    requires IsJpegOf(s, first, segments, frame)
    ensures JpegRest(s, first) == Some(frame.size)
    decreases segments
  {
    if segments == [] {
      FindsFrame(s, frame, first);
    } else {
      SkipsSegment(s, segments[0], first);
      JpegFound(s[|SegmentBytes(segments[0])|..], false, segments[1..], frame);
    }
  }

  lemma {:induction false} FillBefore(s: seq<Byte>)
    ensures s == Fill(|s| - |SkipFill(s)|) + SkipFill(s)
  {
    if s != [] && s[0] == 0xFF {
      FillBefore(s[1..]);
      assert s == [s[0]] + s[1..];
    }
  }

  /** A stray byte more in front of the first marker. */
  lemma OneMoreJunk(s: seq<Byte>, segments: seq<Segment>, frame: Frame) returns (segments': seq<Segment>, frame': Frame)
    requires s != [] && s[0] != 0xFF && IsJpegOf(s[1..], false, segments, frame)
    ensures IsJpegOf(s, false, segments', frame') && frame'.size == frame.size
  {
    if segments == [] {
      segments', frame' := [], frame.(junk := [s[0]] + frame.junk);
      assert FrameBytes(frame') == [s[0]] + FrameBytes(frame);
    } else {
      var g := segments[0].(junk := [s[0]] + segments[0].junk);
      segments', frame' := [g] + segments[1..], frame;
      assert SegmentBytes(g) == [s[0]] + SegmentBytes(segments[0]);
      assert s[|SegmentBytes(g)|..] == s[1..][|SegmentBytes(segments[0])|..];
    }
  }

  lemma MarkerAhead(s: seq<Byte>, t: seq<Byte>) returns (fill: nat)
    requires s != [] && s[0] == 0xFF && t == SkipFill(s[1..])
    ensures s == Fill(fill + 1) + t
  {
    FillBefore(s[1..]);
    fill := |s| - 1 - |t|;
    assert s == [s[0]] + s[1..];
  }

  lemma PayloadBytes(t: seq<Byte>, n: nat)
    requires |t| >= 3 && n == Be16(t, 1) && 2 <= n && 1 + n <= |t|
    ensures t == [t[0]] + (Be16Bytes(|t[3..1 + n]| + 2) + t[3..1 + n]) + t[1 + n..]
  {
    assert Be16Bytes(n) == t[1..3];
  }

  lemma FrameFields(t: seq<Byte>)
    requires |t| >= 8
    ensures t == [t[0]] + t[1..3] + [t[3]] + Be16Bytes(Be16(t, 4)) + Be16Bytes(Be16(t, 6)) + t[8..]
  {
    assert Be16Bytes(Be16(t, 4)) == t[4..6] && Be16Bytes(Be16(t, 6)) == t[6..8];
  }

  lemma Regroup(fill: seq<Byte>, marker: seq<Byte>, body: seq<Byte>, rest: seq<Byte>)
    ensures var head := [] + fill + marker + body; var s := fill + (marker + body + rest);
      Starts(s, head) && s[|head|..] == rest
  {
    assert fill + (marker + body + rest) == [] + fill + marker + body + rest;
  }

  lemma StandaloneSegment(s: seq<Byte>, t: seq<Byte>) returns (g: Segment)
    requires s != [] && s[0] == 0xFF && t == SkipFill(s[1..]) && t != [] && Standalone(t[0])
    ensures IsSegment(g, true) && IsSegment(g, false) && Starts(s, SegmentBytes(g)) && s[|SegmentBytes(g)|..] == t[1..]
  {
    var fill := MarkerAhead(s, t);
    g := Segment([], fill, t[0], []);
    assert s == SegmentBytes(g) + t[1..];
  }

  lemma PayloadSegment(s: seq<Byte>, t: seq<Byte>) returns (g: Segment)
    requires s != [] && s[0] == 0xFF && t == SkipFill(s[1..]) && |t| >= 3 && !Standalone(t[0]) && !StartsFrame(t[0])
    requires Be16(t, 1) >= 2 && 1 + Be16(t, 1) <= |t|
    ensures IsSegment(g, true) && IsSegment(g, false) && Starts(s, SegmentBytes(g)) && s[|SegmentBytes(g)|..] == t[1 + Be16(t, 1)..]
  {
    var fill := MarkerAhead(s, t);
    var n := Be16(t, 1);
    g := Segment([], fill, t[0], t[3..1 + n]);
    PayloadBytes(t, n);
    var body := Be16Bytes(|g.payload| + 2) + g.payload;
    Regroup(Fill(fill + 1), [t[0]], body, t[1 + n..]);
    assert SegmentBytes(g) == [] + Fill(fill + 1) + [t[0]] + body;
  }

  lemma FrameHere(s: seq<Byte>, t: seq<Byte>) returns (f: Frame)
    requires s != [] && s[0] == 0xFF && t == SkipFill(s[1..]) && |t| >= 8 && StartsFrame(t[0])
    ensures IsFrame(f, true) && IsFrame(f, false) && Starts(s, FrameBytes(f)) && f.size == Size(Be16(t, 6), Be16(t, 4))
  {
    var fill := MarkerAhead(s, t);
    f := Frame([], fill, t[0], t[1..3], t[3], Size(Be16(t, 6), Be16(t, 4)));
    FrameFields(t);
    assert s == FrameBytes(f) + t[8..];
  }

  /** And nothing else is: a size found is one a frame header declares, behind whole segments. */
  lemma {:induction false} JpegOnly(s: seq<Byte>, first: bool, size: Size) returns (segments: seq<Segment>, frame: Frame)
    requires JpegRest(s, first) == Some(size)
    ensures IsJpegOf(s, first, segments, frame) && frame.size == size
    decreases |s|
  {
    if s[0] != 0xFF {
      segments, frame := JpegOnly(s[1..], false, size);
      segments, frame := OneMoreJunk(s, segments, frame);
    } else {
      var t := SkipFill(s[1..]);
      if StartsFrame(t[0]) {
        segments := [];
        frame := FrameHere(s, t);
      } else {
        var g: Segment;
        if Standalone(t[0]) {
          g := StandaloneSegment(s, t);
        } else {
          g := PayloadSegment(s, t);
        }
        segments, frame := JpegOnly(s[|SegmentBytes(g)|..], false, size);
        segments := [g] + segments;
      }
    }
  }

  // -------------------------------------------------------------------- BMP

  function Magnitude(x: int): int {
    if x < 0 then -x else x
  }

  function Le32(s: seq<Byte>, i: nat): nat
    requires i + 4 <= |s|
  {
    TB.FromBytes(s[i..i + 4])
  }

  function BmpSize(s: seq<Byte>): Option<Size> {
    if |s| < 18 || s[0] != 0x42 || s[1] != 0x4D then None
    else if Le32(s, 14) == 12 then
      if |s| < 22 then None else Some(Size(TB.FromBytes(s[18..20]), TB.FromBytes(s[20..22])))
    else if Le32(s, 14) == 40 || Le32(s, 14) == 56 || Le32(s, 14) == 108 || Le32(s, 14) == 124 then
      if |s| < 26 then None else Some(Size(Magnitude(TB.Signed(s[18..22])), Magnitude(TB.Signed(s[22..26]))))
    else None
  }

  /** Rows may be stored top-down with a negative height; the size is the magnitude, for the least 32-bit integer too. */
  lemma BmpFound(s: seq<Byte>, header: nat, width: int, height: int)
    requires |s| >= 26 && s[0] == 0x42 && s[1] == 0x4D && header in {40, 56, 108, 124}
    requires s[14..18] == TB.Scalar(header, 4) && s[18..22] == TB.Scalar(width, 4) && s[22..26] == TB.Scalar(height, 4)
    requires TB.InRange(width, 4) && TB.InRange(height, 4)
    ensures BmpSize(s) == Some(Size(Magnitude(width), Magnitude(height)))
  {
    TB.ScalarRoundTrip(width, 4);
    TB.ScalarRoundTrip(height, 4);
    assert TB.Pow256(4) == 0x1_0000_0000 by {
      assert TB.Pow256(2) == 0x1_0000;
    }
    TB.BytesRoundTrip(header, 4);
  }

  /**
   * A bitmap file: "BM", and at offset 14 the size of the header that follows, which says how wide the extents behind it are: 16 bits
   * unsigned in the core header, else 32 bits signed, of which the magnitude counts.
   */
  ghost predicate IsBmpOf(s: seq<Byte>, size: Size) {
    && |s| >= 22 && s[0] == 0x42 && s[1] == 0x4D
    && ((s[14..18] == TB.ToBytes(12, 4) && 0 <= size.width < 0x1_0000 && 0 <= size.height < 0x1_0000
         && s[18..20] == TB.ToBytes(size.width, 2) && s[20..22] == TB.ToBytes(size.height, 2))
        || (|s| >= 26 && (exists header: nat :: header in {40, 56, 108, 124} && s[14..18] == TB.ToBytes(header, 4))
            && exists x, y :: IsExtent(s[18..22], x) && IsExtent(s[22..26], y) && size == Size(if x < 0 then -x else x, if y < 0 then -y else y)))
  }

  predicate IsExtent(bytes: seq<Byte>, x: int) {
    TB.InRange(x, 4) && bytes == TB.Scalar(x, 4)
  }

  lemma ReadsNumber(bytes: seq<Byte>, n: nat)
    requires n < TB.Pow256(|bytes|)
    ensures bytes == TB.ToBytes(n, |bytes|) <==> TB.FromBytes(bytes) == n
  {
    TB.BytesRoundTrip(n, |bytes|);
    TB.BytesAreDigits(bytes);
  }

  lemma ReadsExtent(bytes: seq<Byte>)
    requires |bytes| == 4
    ensures IsExtent(bytes, TB.Signed(bytes)) && forall x :: IsExtent(bytes, x) ==> x == TB.Signed(bytes)
  {
    TB.BytesAreDigits(bytes);
    forall x | IsExtent(bytes, x) ensures x == TB.Signed(bytes) {
      TB.ScalarRoundTrip(x, 4);
    }
  }

  lemma Pow256Small()
    ensures TB.Pow256(2) == 0x1_0000 && TB.Pow256(4) == 0x1_0000_0000
  {
    assert TB.Pow256(1) == 0x100;
    assert TB.Pow256(3) == 0x100_0000;
  }

  /** The size read is exactly the one such a file declares. */
  lemma BmpExactly(s: seq<Byte>, size: Size)
    ensures BmpSize(s) == Some(size) <==> IsBmpOf(s, size)
  {
    Pow256Small();
    if |s| >= 22 && s[0] == 0x42 && s[1] == 0x4D {
      forall header: nat | header < 0x1_0000_0000 ensures s[14..18] == TB.ToBytes(header, 4) <==> Le32(s, 14) == header {
        ReadsNumber(s[14..18], header);
      }
      if Le32(s, 14) == 12 {
        CoreExtents(s, size);
      } else if |s| >= 26 {
        LongExtents(s, size);
      }
    }
  }

  lemma CoreExtents(s: seq<Byte>, size: Size)
    requires |s| >= 22 && s[0] == 0x42 && s[1] == 0x4D && Le32(s, 14) == 12
    requires forall header: nat :: header < 0x1_0000_0000 ==> (s[14..18] == TB.ToBytes(header, 4) <==> Le32(s, 14) == header)
    ensures BmpSize(s) == Some(size) <==> IsBmpOf(s, size)
  {
    Pow256Small();
    var width, height := s[18..20], s[20..22];
    TB.BytesAreDigits(width);
    TB.BytesAreDigits(height);
    assert s[14..18] == TB.ToBytes(12, 4);
    assert forall header: nat :: header in {40, 56, 108, 124} ==> s[14..18] != TB.ToBytes(header, 4);
    if 0 <= size.width < 0x1_0000 && 0 <= size.height < 0x1_0000 {
      ReadsNumber(width, size.width);
      ReadsNumber(height, size.height);
    }
  }

  lemma LongExtents(s: seq<Byte>, size: Size)
    requires |s| >= 26 && s[0] == 0x42 && s[1] == 0x4D && Le32(s, 14) != 12
    requires forall header: nat :: header < 0x1_0000_0000 ==> (s[14..18] == TB.ToBytes(header, 4) <==> Le32(s, 14) == header)
    ensures BmpSize(s) == Some(size) <==> IsBmpOf(s, size)
  {
    var a, b := s[18..22], s[22..26];
    ReadsExtent(a);
    ReadsExtent(b);
    var header := Le32(s, 14);
    TB.BytesAreDigits(s[14..18]);
    assert s[14..18] != TB.ToBytes(12, 4) && s[14..18] == TB.ToBytes(header, 4);
    assert (exists h: nat :: h in {40, 56, 108, 124} && s[14..18] == TB.ToBytes(h, 4)) <==> header in {40, 56, 108, 124};
    if IsBmpOf(s, size) {
      var x, y :| IsExtent(a, x) && IsExtent(b, y) && size == Size(if x < 0 then -x else x, if y < 0 then -y else y);
      assert x == TB.Signed(a) && y == TB.Signed(b);
    }
    if BmpSize(s) == Some(size) {
      assert IsExtent(a, TB.Signed(a)) && IsExtent(b, TB.Signed(b));
    }
  }

  // ------------------------------------------------------------- the reader

  function HeaderSize(s: seq<Byte>): Option<Size> {
    if |s| >= 8 && s[..8] == PNG_SIGNATURE then PngRest(s[8..])
    else if |s| >= 2 && s[0] == 0xFF then JpegAll(s)
    else BmpSize(s)
  }

  /** Every PNG with any chunks before IHDR gives its declared size. */
  lemma PngFileRead(s: seq<Byte>, chunks: seq<Chunk>, size: Size)
    requires Starts(s, PNG_SIGNATURE) && IsPngOf(s[8..], chunks, size)
    ensures HeaderSize(s) == Some(size)
  {
    PngFound(s[8..], chunks, size);
  }

  /** Every JPEG with any fill bytes, before SOI too, and any segments before the frame header gives its declared size. */
  lemma JpegFileRead(s: seq<Byte>, fill: nat, segments: seq<Segment>, frame: Frame)
    requires fill > 0 && Starts(s, Fill(fill) + [0xD8]) && IsJpegOf(s[fill + 1..], true, segments, frame)
    ensures HeaderSize(s) == Some(frame.size)
  {
    var t := [0xD8] + s[fill + 1..];
    assert s == Fill(fill) + t;
    SkipsFill(fill, t);
    assert t[1..] == s[fill + 1..] && s[0] == Fill(fill)[0];
    assert |s| >= 8 ==> s[..8][0] == 0xFF;
    JpegFound(s[fill + 1..], true, segments, frame);
  }

  ghost predicate IsPngFile(s: seq<Byte>, size: Size) {
    Starts(s, PNG_SIGNATURE) && exists chunks :: IsPngOf(s[8..], chunks, size)
  }

  /** Fill bytes, SOI, segments and the frame header. */
  ghost predicate IsJpegFile(s: seq<Byte>, size: Size) {
    exists fill: nat, segments, frame :: IsJpegAs(s, fill, segments, frame) && frame.size == size
  }

  ghost predicate IsJpegAs(s: seq<Byte>, fill: nat, segments: seq<Segment>, frame: Frame) {
    fill > 0 && Starts(s, Fill(fill) + [0xD8]) && IsJpegOf(s[fill + 1..], true, segments, frame)
  }

  /** A size is found exactly for a PNG, a JPEG or a bitmap that declares it. */
  lemma HeaderExactly(s: seq<Byte>, size: Size)
    ensures HeaderSize(s) == Some(size) <==> IsPngFile(s, size) || IsJpegFile(s, size) || IsBmpOf(s, size)
  {
    PngExactly(s, size);
    JpegExactly(s, size);
    BmpExactly(s, size);
    OneFormat(s, Some(size), if Starts(s, PNG_SIGNATURE) then PngRest(s[8..]) else None, JpegAll(s), BmpSize(s));
  }

  /** The first bytes tell the formats apart. */
  lemma OneFormat(s: seq<Byte>, found: Option<Size>, png: Option<Size>, jpeg: Option<Size>, bmp: Option<Size>)
    requires png == (if Starts(s, PNG_SIGNATURE) then PngRest(s[8..]) else None) && jpeg == JpegAll(s) && bmp == BmpSize(s) && found.Some?
    ensures HeaderSize(s) == found <==>
      (Starts(s, PNG_SIGNATURE) && png == found) || (|s| >= 2 && s[0] == 0xFF && jpeg == found) || bmp == found
  {
    if Starts(s, PNG_SIGNATURE) {
      assert s[0] == s[..8][0] == 0x89;
    }
  }

  lemma PngExactly(s: seq<Byte>, size: Size)
    ensures IsPngFile(s, size) <==> Starts(s, PNG_SIGNATURE) && PngRest(s[8..]) == Some(size)
  {
    if IsPngFile(s, size) {
      var chunks :| IsPngOf(s[8..], chunks, size);
      PngFound(s[8..], chunks, size);
    }
    if Starts(s, PNG_SIGNATURE) && PngRest(s[8..]) == Some(size) {
      var chunks := PngOnly(s[8..], size);
    }
  }

  lemma JpegExactly(s: seq<Byte>, size: Size)
    ensures IsJpegFile(s, size) <==> |s| >= 2 && s[0] == 0xFF && JpegAll(s) == Some(size)
  {
    if IsJpegFile(s, size) {
      var fill: nat, segments, frame :| IsJpegAs(s, fill, segments, frame) && frame.size == size;
      JpegFileRead(s, fill, segments, frame);
      assert s[0] == (Fill(fill) + [0xD8])[0] == 0xFF;
    }
    if |s| >= 2 && s[0] == 0xFF && JpegAll(s) == Some(size) {
      var fill, segments, frame := JpegFileOnly(s, size);
    }
  }

  lemma JpegFileOnly(s: seq<Byte>, size: Size) returns (fill: nat, segments: seq<Segment>, frame: Frame)
    requires s != [] && s[0] == 0xFF && JpegAll(s) == Some(size)
    ensures IsJpegAs(s, fill, segments, frame) && frame.size == size
  {
    var t := SkipFill(s);
    segments, frame := JpegOnly(t[1..], true, size);
    FillBefore(s);
    fill := |s| - |t|;
    SoiAt(s, fill, t);
  }

  lemma SoiAt(s: seq<Byte>, fill: nat, t: seq<Byte>)
    requires s == Fill(fill) + t && t != [] && t[0] == 0xD8
    ensures Starts(s, Fill(fill) + [0xD8]) && s[fill + 1..] == t[1..]
  {
    assert t == [0xD8] + t[1..];
    assert s == Fill(fill) + [0xD8] + t[1..];
  }

  method ReadPng(data: seq<Byte>) returns (size: Option<Size>)
    requires |data| >= 8
    ensures size == PngRest(data[8..])
  {
    var offset := 8;
    while offset + 12 <= |data|
      invariant 8 <= offset
      invariant PngRest(data[8..]) == if offset <= |data| then PngRest(data[offset..]) else None
    {
      ghost var s := data[offset..];
      assert data[offset + 4..offset + 8] == s[4..8];
      var length := Be32(data, offset);
      assert Be32(s, 0) == length;
      if data[offset + 4..offset + 8] == IHDR {
        if offset + 16 > |data| {
          return None;
        }
        return Some(Size(Be32(data, offset + 8), Be32(data, offset + 12)));
      }
      assert offset + 12 + length <= |data| ==> s[12 + length..] == data[offset + 12 + length..];
      offset := offset + 12 + length;
    }
    size := None;
  }

  method SkipFillBytes(data: seq<Byte>, start: nat) returns (offset: nat)
    requires start <= |data|
    ensures start <= offset <= |data| && data[offset..] == SkipFill(data[start..])
  {
    offset := start;
    while offset < |data| && data[offset] == 0xFF
      invariant start <= offset <= |data| && SkipFill(data[offset..]) == SkipFill(data[start..])
    {
      assert data[offset..][1..] == data[offset + 1..];
      offset := offset + 1;
    }
  }

  /** What the walk finds from a marker on. */
  lemma WalkFrom(data: seq<Byte>, offset: nat, code: nat, first: bool)
    requires offset < code < |data| && data[offset] == 0xFF && data[code..] == SkipFill(data[offset + 1..])
    ensures JpegRest(data[offset..], first) ==
      match AtMarker(data[code..])
      case Stop(found) => found
      case Go(distance) => if code + distance > |data| then None else JpegRest(data[code + distance..], false)
  {
    var t := data[code..];
    assert data[offset..][1..] == data[offset + 1..];
    assert forall d: nat :: code + d <= |data| ==> t[d..] == data[code + d..];
  }

  method ReadJpeg(data: seq<Byte>) returns (size: Option<Size>)
    ensures size == JpegAll(data)
  {
    var soi := SkipFillBytes(data, 0);
    assert data[0..] == data;
    if soi >= |data| || data[soi] != 0xD8 {
      return None;
    }
    assert data[soi..][1..] == data[soi + 1..];
    size := ReadMarkers(data, soi + 1);
  }

  method ReadMarkers(data: seq<Byte>, start: nat) returns (size: Option<Size>)
    requires start <= |data|
    ensures size == JpegRest(data[start..], true)
  {
    var offset := start;
    var first := true;
    while offset < |data|
      invariant 0 <= offset
      invariant JpegRest(data[start..], true) == if offset <= |data| then JpegRest(data[offset..], first) else None
      decreases |data| - offset
    {
      assert data[offset..][1..] == data[offset + 1..];
      if data[offset] != 0xFF {
        if first {
          return None;
        }
        offset := offset + 1;
        continue;
      }
      var code := SkipFillBytes(data, offset + 1);
      if code >= |data| {
        return None;
      }
      var walk := ReadMarker(data, code);
      WalkFrom(data, offset, code, first);
      first := false;
      if walk.Stop? {
        return walk.found;
      }
      offset := code + walk.distance;
    }
    size := None;
  }

  method ReadMarker(data: seq<Byte>, code: nat) returns (w: Walk)
    requires code < |data|
    ensures w == AtMarker(data[code..])
  {
    var marker := data[code];
    if marker == 0x01 || (marker >= 0xD0 && marker <= 0xD9) {
      return Go(1);
    }
    if marker >= 0xC0 && marker <= 0xCF && marker != 0xC4 && marker != 0xC8 && marker != 0xCC {
      if code + 7 >= |data| {
        return Stop(None);
      }
      return Stop(Some(Size(Be16(data, code + 6), Be16(data, code + 4))));
    }
    if code + 2 >= |data| {
      return Stop(None);
    }
    var length := Be16(data, code + 1);
    if length < 2 {
      return Stop(None);
    }
    w := Go(1 + length);
  }

  /** The declared size of a PNG, JPEG or BMP, if its header has one. */
  method DecodedImageDimensions(data: seq<Byte>) returns (size: Option<Size>)
    ensures size == HeaderSize(data)
  {
    if |data| >= 8 && data[..8] == PNG_SIGNATURE {
      size := ReadPng(data);
    } else if |data| >= 2 && data[0] == 0xFF {
      size := ReadJpeg(data);
    } else {
      size := BmpSize(data);
    }
  }

  /** The test the preprocess step makes, by division. */
  predicate OverCap(size: Size) {
    size.width > 0 && size.height > 0 && size.width > MAX_PIXELS / size.height
  }

  /** It is the product exceeding the cap, without computing the product. */
  lemma OverCapIsProduct(size: Size)
    requires size.width >= 0 && size.height >= 0
    ensures OverCap(size) <==> size.width * size.height > MAX_PIXELS
  {
    if size.height > 0 {
      DivisionTest(size.width, size.height, MAX_PIXELS);
    }
  }

  lemma DivisionTest(w: nat, h: nat, cap: nat)
    requires h > 0
    ensures w > cap / h <==> w * h > cap
  {
    var q := cap / h;
    if w > q {
      TimesGrows(q + 1, w, h);
      assert (q + 1) * h == q * h + h;
    } else {
      TimesGrows(w, q, h);
    }
  }

  lemma TimesGrows(a: nat, b: nat, h: nat)
    requires a <= b
    ensures a * h <= b * h
  {
    assert b * h == a * h + (b - a) * h;
  }
}
