/** The result envelope: fixed-length rows, and masks or polygons behind offset arrays. */
module PipelineEnvelope {
  import opened Wrappers
  import opened Tensors
  import opened TensorBytes
  import opened ScoreRanking

  const MAX_DETECTIONS: nat := 100

  datatype Point = Point(x: int, y: int)

  type Ring = seq<Point>

  datatype Polygon = Polygon(exterior: Ring, holes: seq<Ring>)

  /** The mask, cut to the box of its detection, and the outline; coordinates are truncated already. */
  datatype Segmentation = Segmentation(mask: seq<Byte>, polygons: seq<Polygon>)

  datatype Row = Row(x: Int32, y: Int32, width: Int32, height: Int32, score: Int32, classId: Int32)

  datatype Detection = Detection(row: Row, segmentation: Option<Segmentation>)

  /** A task result; kinds other than boxes and instances carry nothing the envelope holds. */
  datatype TaskResult = Found(detection: Detection) | OtherKind

  const ZERO_ROW := Row(0, 0, 0, 0, 0, 0)

  function FoundOnly(results: seq<TaskResult>): seq<Detection> {
    if results == [] then []
    else FoundOnly(results[..|results| - 1]) + if results[|results| - 1].Found? then [results[|results| - 1].detection] else []
  }

  function ScoresOf(all: seq<Detection>): seq<Int32> {
    seq(|all|, i requires 0 <= i < |all| => all[i].row.score)
  }

  function Picked(all: seq<Detection>, indices: seq<nat>): seq<Detection>
    requires forall i :: 0 <= i < |indices| ==> indices[i] < |all|
  {
    seq(|indices|, i requires 0 <= i < |indices| => all[indices[i]])
  }

  /** The detections the envelope carries: the best hundred, best first, ties in task order. */
  ghost predicate IsBest(results: seq<TaskResult>, best: seq<Detection>) {
    exists indices :: IsTop(ScoresOf(FoundOnly(results)), MAX_DETECTIONS, indices) && best == Picked(FoundOnly(results), indices)
  }

  method CollectDetections(results: seq<TaskResult>) returns (best: seq<Detection>)
    ensures IsBest(results, best) && |best| <= MAX_DETECTIONS
  {
    var all: seq<Detection> := [];
    for i := 0 to |results|
      invariant all == FoundOnly(results[..i])
    {
      assert results[..i + 1][..i] == results[..i];
      if results[i].Found? {
        all := all + [results[i].detection];
      }
    }
    assert results[..|results|] == results;
    var scores: seq<Int32> := [];
    for i := 0 to |all|
      invariant scores == ScoresOf(all)[..i]
    {
      scores := scores + [all[i].row.score];
    }
    assert scores == ScoresOf(all);
    var ranked := TopScoreIndices(scores, MAX_DETECTIONS);
    best := [];
    for i := 0 to |ranked|
      invariant best == Picked(all, ranked)[..i]
    {
      best := best + [all[ranked[i]]];
    }
    assert best == Picked(all, ranked);
  }

  /** `IsBest` admits one list only. */
  lemma BestUnique(results: seq<TaskResult>, a: seq<Detection>, b: seq<Detection>)
    requires IsBest(results, a) && IsBest(results, b)
    ensures a == b
  {
    var scores := ScoresOf(FoundOnly(results));
    var xs :| IsTop(scores, MAX_DETECTIONS, xs) && a == Picked(FoundOnly(results), xs);
    var ys :| IsTop(scores, MAX_DETECTIONS, ys) && b == Picked(FoundOnly(results), ys);
    TopUnique(scores, MAX_DETECTIONS, xs, ys, |xs|);
    assert xs[..|xs|] == xs && ys[..|ys|] == ys;
  }

  /** `places` are the positions of the results that hold a detection, in order, and `found` those detections. */
  ghost predicate Finds(results: seq<TaskResult>, places: seq<nat>, found: seq<Detection>) {
    && |places| == |found| && (forall i, j :: 0 <= i < j < |places| ==> places[i] < places[j])
    && (forall i :: 0 <= i < |places| ==> places[i] < |results| && results[places[i]] == Found(found[i]))
    && forall p: nat :: p < |results| && results[p].Found? ==> p in places
  }

  lemma {:induction false} FoundPlaces(results: seq<TaskResult>) returns (places: seq<nat>)
    ensures Finds(results, places, FoundOnly(results))
  {
    places := [];
    if results != [] {
      var last := |results| - 1;
      places := FoundPlaces(results[..last]);
      if results[last].Found? {
        assert FoundOnly(results) == FoundOnly(results[..last]) + [results[last].detection];
        places := places + [last];
      }
      assert forall p: nat :: p < last ==> results[..last][p] == results[p];
    }
  }

  /** What the envelope carries, told from the task results: which of them, and in what order. */
  predicate Carries(results: seq<TaskResult>, best: seq<Detection>, at: seq<nat>) {
    && |at| == |best| && (forall i :: 0 <= i < |at| ==> at[i] < |results| && results[at[i]] == Found(best[i]))
    && (forall i, j :: 0 <= i < j < |at| ==> MayPrecede(best[i].row.score, at[i], best[j].row.score, at[j]))
    && (forall p: nat :: p < |results| && results[p].Found? && p !in at ==>
          |best| == 100 && forall i :: 0 <= i < |at| ==> MayPrecede(best[i].row.score, at[i], results[p].detection.row.score, p))
  }

  /**
   * The detections of the envelope come from different results, stand in order of score, numbers first, equal ones in task order; and
   * a detection is left out only if there are a hundred others, none of which it may precede.
   */
  lemma BestAre(results: seq<TaskResult>, best: seq<Detection>) returns (at: seq<nat>)
    requires IsBest(results, best)
    ensures Carries(results, best, at) && |best| <= 100
  {
    var all := FoundOnly(results);
    var scores := ScoresOf(all);
    var ix :| IsTop(scores, MAX_DETECTIONS, ix) && best == Picked(all, ix);
    var places := FoundPlaces(results);
    at := seq(|ix|, i requires 0 <= i < |ix| => places[ix[i]]);
    KeptInOrder(results, best, ix, places, at);
    forall p: nat | p < |results| && results[p].Found? && p !in at
      ensures |best| == 100 && forall i :: 0 <= i < |at| ==> MayPrecede(best[i].row.score, at[i], results[p].detection.row.score, p)
    {
      LeftOut(results, best, ix, places, at, p);
    }
  }

  lemma KeptInOrder(results: seq<TaskResult>, best: seq<Detection>, ix: seq<nat>, places: seq<nat>, at: seq<nat>)
    requires var all := FoundOnly(results);
      Finds(results, places, all) && IsTop(ScoresOf(all), MAX_DETECTIONS, ix) && best == Picked(all, ix) && |at| == |ix|
    requires forall i :: 0 <= i < |ix| ==> at[i] == places[ix[i]]
    ensures forall i :: 0 <= i < |at| ==> at[i] < |results| && results[at[i]] == Found(best[i])
    ensures forall i, j :: 0 <= i < j < |at| ==> MayPrecede(best[i].row.score, at[i], best[j].row.score, at[j])
  {
    var scores := ScoresOf(FoundOnly(results));
    TopMeans(scores, MAX_DETECTIONS, ix);
    forall i, j | 0 <= i < j < |at| ensures MayPrecede(best[i].row.score, at[i], best[j].row.score, at[j]) {
      assert MayPrecede(scores[ix[i]], ix[i], scores[ix[j]], ix[j]);
    }
  }

  lemma LeftOut(results: seq<TaskResult>, best: seq<Detection>, ix: seq<nat>, places: seq<nat>, at: seq<nat>, p: nat)
    requires var all := FoundOnly(results);
      Finds(results, places, all) && IsTop(ScoresOf(all), MAX_DETECTIONS, ix) && best == Picked(all, ix) && |at| == |ix|
    requires forall i :: 0 <= i < |ix| ==> at[i] == places[ix[i]]
    requires p < |results| && results[p].Found? && p !in at
    ensures |best| == 100 && forall i :: 0 <= i < |at| ==> MayPrecede(best[i].row.score, at[i], results[p].detection.row.score, p)
  {
    var scores := ScoresOf(FoundOnly(results));
    var u: nat :| u < |places| && places[u] == p;
    forall i | 0 <= i < |ix| ensures ix[i] != u {
      assert at[i] in at;
    }
    LeftOutMeansFull(scores, ix, u);
    TopMeans(scores, MAX_DETECTIONS, ix);
    forall i | 0 <= i < |at| ensures MayPrecede(best[i].row.score, at[i], results[p].detection.row.score, p) {
      assert MayPrecede(scores[ix[i]], ix[i], scores[u], u);
    }
  }

  lemma LeftOutMeansFull(scores: seq<Int32>, ix: seq<nat>, u: nat)
    requires IsTop(scores, MAX_DETECTIONS, ix) && u < |scores| && u !in ix
    ensures |ix| == MAX_DETECTIONS
  {
    if |ix| == |scores| {
      AllIndices(ix, |scores|);
    }
  }

  function SetOf(xs: seq<nat>): set<nat> {
    set x | x in xs
  }

  function Below(n: nat): (s: set<nat>)
    ensures |s| == n && forall u: nat :: u in s <==> u < n
  {
    if n == 0 then {} else Below(n - 1) + {n - 1}
  }

  /** As many different numbers below `n` as there are is all of them. */
  lemma AllIndices(xs: seq<nat>, n: nat)
    requires Distinct(xs) && |xs| == n && forall i :: 0 <= i < |xs| ==> xs[i] < n
    ensures forall u: nat :: u < n ==> u in xs
  {
    DistinctSize(xs);
    var all, below := SetOf(xs), Below(n);
    SubsetFull(all, below);
    forall u: nat | u < n ensures u in xs {
      assert u in below;
    }
  }

  lemma {:induction false} DistinctSize(xs: seq<nat>)
    requires Distinct(xs)
    ensures |SetOf(xs)| == |xs|
    decreases |xs|
  {
    if xs != [] {
      var last := |xs| - 1;
      DistinctSize(xs[..last]);
      assert xs == xs[..last] + [xs[last]];
      assert SetOf(xs) == SetOf(xs[..last]) + {xs[last]};
    }
  }

  lemma SubsetFull(a: set<nat>, b: set<nat>)
    requires a <= b && |a| == |b|
    ensures a == b
  {
    if a != b {
      var x :| x in b && x !in a;
      SubsetSize(a, b - {x});
    }
  }

  lemma {:induction false} SubsetSize(a: set<nat>, b: set<nat>)
    requires a <= b
    ensures |a| <= |b|
    decreases a
  {
    if a != {} {
      var x :| x in a;
      SubsetSize(a - {x}, b - {x});
    }
  }

  // ------------------------------------------------------------------ rows

  datatype Envelope = Envelope(count: seq<Byte>, boxes: seq<Byte>, scores: seq<Byte>, classes: seq<Byte>)

  /** The rows of the detections, padded with zero rows to the full length. */
  function Padded(detections: seq<Detection>): seq<Row> {
    seq(MAX_DETECTIONS, i requires 0 <= i < MAX_DETECTIONS => if i < |detections| then detections[i].row else ZERO_ROW)
  }

  function BoxInts(rows: seq<Row>): seq<int> {
    if rows == [] then []
    else var r := rows[|rows| - 1]; BoxInts(rows[..|rows| - 1]) + [r.x] + [r.y] + [r.width] + [r.height]
  }

  function ScoreInts(rows: seq<Row>): seq<int> {
    seq(|rows|, i requires 0 <= i < |rows| => rows[i].score)
  }

  function ClassInts(rows: seq<Row>): seq<int> {
    seq(|rows|, i requires 0 <= i < |rows| => rows[i].classId)
  }

  method EncodeEnvelope(detections: seq<Detection>) returns (e: Envelope)
    requires |detections| <= MAX_DETECTIONS
    ensures e.count == Encoded([|detections|], 4)
    ensures e.boxes == Encoded(BoxInts(Padded(detections)), 4)
    ensures e.scores == Encoded(ScoreInts(Padded(detections)), 4)
    ensures e.classes == Encoded(ClassInts(Padded(detections)), 4)
  {
    var count := Scalar(|detections|, 4);
    assert count == Encoded([|detections|], 4) by {
      EncodedAppend([], |detections|, 4);
      assert [] + [|detections|] == [|detections|];
    }
    var boxes, scores, classes: seq<Byte> := [], [], [];
    ghost var rows := Padded(detections);
    for i := 0 to MAX_DETECTIONS
      invariant boxes == Encoded(BoxInts(rows[..i]), 4)
      invariant scores == Encoded(ScoreInts(rows[..i]), 4) && classes == Encoded(ClassInts(rows[..i]), 4)
    {
      var row := if i < |detections| then detections[i].row else ZERO_ROW;
      RowAppended(rows, i);
      boxes := boxes + Scalar(row.x, 4);
      boxes := boxes + Scalar(row.y, 4);
      boxes := boxes + Scalar(row.width, 4);
      boxes := boxes + Scalar(row.height, 4);
      scores := scores + Scalar(row.score, 4);
      classes := classes + Scalar(row.classId, 4);
    }
    assert rows[..MAX_DETECTIONS] == rows;
    e := Envelope(count, boxes, scores, classes);
  }

  lemma RowAppended(rows: seq<Row>, i: nat)
    requires i < |rows|
    ensures var r := rows[i];
      && Encoded(BoxInts(rows[..i + 1]), 4) == Encoded(BoxInts(rows[..i]), 4) + Scalar(r.x, 4) + Scalar(r.y, 4) + Scalar(r.width, 4) + Scalar(r.height, 4)
      && Encoded(ScoreInts(rows[..i + 1]), 4) == Encoded(ScoreInts(rows[..i]), 4) + Scalar(r.score, 4)
      && Encoded(ClassInts(rows[..i + 1]), 4) == Encoded(ClassInts(rows[..i]), 4) + Scalar(r.classId, 4)
  {
    var r, ints := rows[i], BoxInts(rows[..i]);
    assert rows[..i + 1][..i] == rows[..i];
    EncodedAppend(ints, r.x, 4);
    EncodedAppend(ints + [r.x], r.y, 4);
    EncodedAppend(ints + [r.x] + [r.y], r.width, 4);
    EncodedAppend(ints + [r.x] + [r.y] + [r.width], r.height, 4);
    assert ScoreInts(rows[..i + 1]) == ScoreInts(rows[..i]) + [r.score];
    EncodedAppend(ScoreInts(rows[..i]), r.score, 4);
    assert ClassInts(rows[..i + 1]) == ClassInts(rows[..i]) + [r.classId];
    EncodedAppend(ClassInts(rows[..i]), r.classId, 4);
  }

  lemma {:induction false} BoxIntsAt(rows: seq<Row>, i: nat)
    requires i < |rows|
    ensures |BoxInts(rows)| == 4 * |rows|
    ensures var r, ints := rows[i], BoxInts(rows);
      ints[4 * i] == r.x && ints[4 * i + 1] == r.y && ints[4 * i + 2] == r.width && ints[4 * i + 3] == r.height
    decreases |rows|
  {
    var last := |rows| - 1;
    if last > 0 {
      BoxIntsAt(rows[..last], if i < last then i else 0);
    }
  }

  lemma {:induction false} BoxIntsFit(rows: seq<Row>)
    ensures forall x :: x in BoxInts(rows) ==> InRange(x, 4)
  {
    Pow256Values();
    if rows != [] {
      BoxIntsFit(rows[..|rows| - 1]);
    }
  }

  lemma Pow256Values()
    ensures Pow256(4) == 0x1_0000_0000 && Pow256(8) == 0x1_0000_0000_0000_0000
  {
    assert Pow256(2) == 0x1_0000;
    assert Pow256(6) == 0x1_0000_0000_0000;
  }

  /** A consumer reading element by element finds the count and, row by row, the detections and then zero rows. */
  lemma EnvelopeReadsBack(detections: seq<Detection>, e: Envelope, i: nat)
    requires |detections| <= MAX_DETECTIONS && i < MAX_DETECTIONS
    requires e.count == Encoded([|detections|], 4) && e.boxes == Encoded(BoxInts(Padded(detections)), 4)
    requires e.scores == Encoded(ScoreInts(Padded(detections)), 4) && e.classes == Encoded(ClassInts(Padded(detections)), 4)
    ensures |e.count| == 4 && |e.boxes| == 1600 && |e.scores| == 400 && |e.classes| == 400
    ensures ScalarAt(e.count, 0, 4) == |detections|
    ensures var row := if i < |detections| then detections[i].row else ZERO_ROW;
      && ScalarAt(e.boxes, 4 * i, 4) == row.x && ScalarAt(e.boxes, 4 * i + 1, 4) == row.y
      && ScalarAt(e.boxes, 4 * i + 2, 4) == row.width && ScalarAt(e.boxes, 4 * i + 3, 4) == row.height
      && ScalarAt(e.scores, i, 4) == row.score && ScalarAt(e.classes, i, 4) == row.classId
  {
    var rows := Padded(detections);
    Pow256Values();
    EncodedLength([|detections|], 4);
    ScalarAtEncoded([|detections|], 0, 4);
    BoxIntsHold(rows, i);
    RowReads(BoxInts(rows), e.boxes, i, rows[i], |rows|);
    EncodedLength(ScoreInts(rows), 4);
    ScalarAtEncoded(ScoreInts(rows), i, 4);
    EncodedLength(ClassInts(rows), 4);
    ScalarAtEncoded(ClassInts(rows), i, 4);
  }

  /** A list of `n` rows of four 32-bit entries, with `r` as row `i`. */
  predicate HoldsRow(ints: seq<int>, i: nat, r: Row, n: nat) {
    && i < n && |ints| == 4 * n && (forall x :: x in ints ==> InRange(x, 4))
    && ints[4 * i] == r.x && ints[4 * i + 1] == r.y && ints[4 * i + 2] == r.width && ints[4 * i + 3] == r.height
  }

  lemma BoxIntsHold(rows: seq<Row>, i: nat)
    requires i < |rows|
    ensures HoldsRow(BoxInts(rows), i, rows[i], |rows|)
  {
    BoxIntsAt(rows, i);
    BoxIntsFit(rows);
  }

  lemma RowReads(ints: seq<int>, boxes: seq<Byte>, i: nat, r: Row, n: nat)
    requires HoldsRow(ints, i, r, n) && boxes == Encoded(ints, 4)
    ensures |boxes| == 16 * n
    ensures ScalarAt(boxes, 4 * i, 4) == r.x && ScalarAt(boxes, 4 * i + 1, 4) == r.y
    ensures ScalarAt(boxes, 4 * i + 2, 4) == r.width && ScalarAt(boxes, 4 * i + 3, 4) == r.height
  {
    EncodedLength(ints, 4);
    ScalarAtEncoded(ints, 4 * i, 4);
    ScalarAtEncoded(ints, 4 * i + 1, 4);
    ScalarAtEncoded(ints, 4 * i + 2, 4);
    ScalarAtEncoded(ints, 4 * i + 3, 4);
  }

  // ------------------------------------------------------------------ masks

  function MaskOf(d: Detection): seq<Byte> {
    if d.segmentation.Some? then d.segmentation.value.mask else []
  }

  /** One mask per row, empty where there is none. */
  function MaskParts(detections: seq<Detection>): seq<seq<Byte>> {
    seq(MAX_DETECTIONS, i requires 0 <= i < MAX_DETECTIONS => if i < |detections| then MaskOf(detections[i]) else [])
  }

  method EncodeMasks(detections: seq<Detection>) returns (offsets: seq<Byte>, data: seq<Byte>)
    ensures offsets == Encoded(Offsets(MaskParts(detections)), 8) && data == Concat(MaskParts(detections))
  {
    ghost var parts: seq<seq<Byte>> := [];
    var offset: int := 0;
    data := [];
    offsets := Scalar(offset, 8);
    NothingLaid();
    for i := 0 to MAX_DETECTIONS
      invariant |parts| == i && parts == MaskParts(detections)[..i]
      invariant Laid(parts, offset, data, offsets)
    {
      var mask := if i < |detections| then MaskOf(detections[i]) else [];
      LaidNext(parts, mask, offset, data, offsets);
      parts := parts + [mask];
      if mask != [] {
        data := data + mask;
        offset := offset + |mask|;
      }
      offsets := offsets + Scalar(offset, 8);
    }
    assert parts == MaskParts(detections);
  }

  /** Parts behind each other, the offset behind the last of them, and all offsets as bytes. */
  predicate Laid(parts: seq<seq<Byte>>, offset: int, data: seq<Byte>, offsets: seq<Byte>) {
    data == Concat(parts) && offset == |data| && offsets == Encoded(Offsets(parts), 8)
  }

  lemma NothingLaid()
    ensures Laid([], 0, [], Scalar(0, 8))
  {
    OneScalar(0, 8);
  }

  lemma LaidNext(parts: seq<seq<Byte>>, part: seq<Byte>, offset: int, data: seq<Byte>, offsets: seq<Byte>)
    requires Laid(parts, offset, data, offsets)
    ensures Laid(parts + [part], offset + |part|, data + part, offsets + Scalar(offset + |part|, 8))
    ensures part == [] ==> data + part == data
  {
    PartAppended(parts, part, parts + [part]);
  }

  /** One more part: the offset after it goes behind the others. */
  lemma OffsetAppended<T>(parts: seq<seq<T>>, i: nat)
    requires i < |parts|
    ensures Concat(parts[..i + 1]) == Concat(parts[..i]) + parts[i]
    ensures Encoded(Offsets(parts[..i + 1]), 8) == Encoded(Offsets(parts[..i]), 8) + Scalar(|Concat(parts[..i])| + |parts[i]|, 8)
  {
    assert parts[..i + 1] == parts[..i] + [parts[i]];
    OffsetsAppend(parts[..i], parts[i]);
    EncodedAppend(Offsets(parts[..i]), |Concat(parts[..i])| + |parts[i]|, 8);
  }

  lemma OneScalar(x: int, w: nat)
    ensures Encoded([x], w) == Scalar(x, w)
  {
    EncodedAppend([], x, w);
    assert [] + [x] == [x];
  }

  lemma OffsetsFit<T>(parts: seq<seq<T>>)
    requires 2 * |Concat(parts)| < Pow256(8)
    ensures forall x :: x in Offsets(parts) ==> InRange(x, 8)
  {
    OffsetsRise(parts);
  }

  /** The offset array has 101 entries, rises from 0 to the data's length, and cuts the data into the detections' masks. */
  lemma MasksReadBack(detections: seq<Detection>, offsets: seq<Byte>, data: seq<Byte>)
    requires offsets == Encoded(Offsets(MaskParts(detections)), 8) && data == Concat(MaskParts(detections))
    requires |data| < 0x8000_0000_0000_0000
    ensures var read := Decoded(offsets, 8);
      && |read| == MAX_DETECTIONS + 1 && IsOffsets(read, |data|)
      && forall i :: 0 <= i < MAX_DETECTIONS ==>
           Cut(data, read)[i] == if i < |detections| && detections[i].segmentation.Some? then detections[i].segmentation.value.mask else []
  {
    var parts := MaskParts(detections);
    Pow256Values();
    OffsetsFit(parts);
    EncodedRoundTrip(Offsets(parts), 8);
    FlattenCut(parts);
  }

  // --------------------------------------------------------------- polygons

  /** Rings that bound an area. */
  function Solid(rings: seq<Ring>): seq<Ring> {
    if rings == [] then []
    else Solid(rings[..|rings| - 1]) + if |rings[|rings| - 1]| >= 3 then [rings[|rings| - 1]] else []
  }

  function PolygonRings(polygons: seq<Polygon>): seq<Ring> {
    if polygons == [] then []
    else
      var p := polygons[|polygons| - 1];
      PolygonRings(polygons[..|polygons| - 1]) + Solid([p.exterior]) + Solid(p.holes)
  }

  function RingsOf(d: Detection): seq<Ring> {
    if d.segmentation.Some? then PolygonRings(d.segmentation.value.polygons) else []
  }

  /** The rings of each row, none where there is no detection. */
  function RingParts(detections: seq<Detection>): seq<seq<Ring>> {
    seq(MAX_DETECTIONS, i requires 0 <= i < MAX_DETECTIONS => if i < |detections| then RingsOf(detections[i]) else [])
  }

  function PointInts(points: seq<Point>): seq<int> {
    if points == [] then []
    else PointInts(points[..|points| - 1]) + [points[|points| - 1].x] + [points[|points| - 1].y]
  }

  function PointsFrom(ints: seq<int>): seq<Point> {
    if |ints| < 2 then [] else PointsFrom(ints[..|ints| - 2]) + [Point(ints[|ints| - 2], ints[|ints| - 1])]
  }

  lemma PointRead(ints: seq<int>, p: Point, all: seq<int>)
    requires all == ints + [p.x] + [p.y]
    ensures PointsFrom(all) == PointsFrom(ints) + [p]
  {
    assert all[..|all| - 2] == ints;
  }

  lemma {:induction false} PointsRoundTrip(points: seq<Point>)
    ensures PointsFrom(PointInts(points)) == points
  {
    if points != [] {
      var last := |points| - 1;
      PointsRoundTrip(points[..last]);
      PointRead(PointInts(points[..last]), points[last], PointInts(points));
      assert points[..last] + [points[last]] == points;
    }
  }

  lemma {:induction false} PointsFit(points: seq<Point>)
    requires forall p :: p in points ==> InRange(p.x, 4) && InRange(p.y, 4)
    ensures forall x :: x in PointInts(points) ==> InRange(x, 4)
  {
    if points != [] {
      PointsFit(points[..|points| - 1]);
    }
  }

  /** The buffers the polygon encoder appends to, with its two running counters. */
  class PolygonWriter {
    var points: seq<Byte>
    var ringOffsets: seq<Byte>
    var pointCount: int
    var ringCount: int
    ghost var rings: seq<Ring>

    ghost predicate Valid()
      reads this
    {
      && points == Encoded(PointInts(Concat(rings)), 4) && ringOffsets == Encoded(Offsets(rings), 8)
      && pointCount == |Concat(rings)| && ringCount == |rings|
    }

    constructor ()
      ensures Valid() && rings == []
    {
      points, ringOffsets, pointCount, ringCount, rings := [], Scalar(0, 8), 0, 0, [];
      OneScalar(0, 8);
      assert Offsets<Point>([]) == [0];
    }

    method AppendRing(ring: Ring)
      requires Valid()
      modifies this
      ensures Valid() && rings == old(rings) + Solid([ring])
    {
      if |ring| < 3 {
        return;
      }
      ghost var more := rings + [ring];
      PartAppended(rings, ring, more);
      SolidOne(ring);
      points := AppendPoints(points, ring, Concat(rings));
      pointCount := pointCount + |ring|;
      ringCount := ringCount + 1;
      ringOffsets := ringOffsets + Scalar(pointCount, 8);
      rings := more;
    }

    method AppendPoints(start: seq<Byte>, ring: Ring, ghost before: seq<Point>) returns (bytes: seq<Byte>)
      requires start == Encoded(PointInts(before), 4)
      ensures bytes == Encoded(PointInts(before + ring), 4)
    {
      bytes := start;
      assert before + ring[..0] == before;
      for k := 0 to |ring|
        invariant bytes == Encoded(PointInts(before + ring[..k]), 4)
      {
        PointAppended(before + ring[..k], ring[k]);
        assert before + ring[..k] + [ring[k]] == before + ring[..k + 1];
        bytes := bytes + Scalar(ring[k].x, 4);
        bytes := bytes + Scalar(ring[k].y, 4);
      }
      assert ring[..|ring|] == ring;
    }

    method AppendPolygon(polygon: Polygon)
      requires Valid()
      modifies this
      ensures Valid() && rings == old(rings) + Solid([polygon.exterior]) + Solid(polygon.holes)
    {
      AppendRing(polygon.exterior);
      ghost var start := rings;
      for h := 0 to |polygon.holes|
        invariant Valid() && rings == start + Solid(polygon.holes[..h])
      {
        SolidAppended(polygon.holes, h);
        AppendRing(polygon.holes[h]);
      }
      assert polygon.holes[..|polygon.holes|] == polygon.holes;
    }

    method AppendPolygons(polygons: seq<Polygon>)
      requires Valid()
      modifies this
      ensures Valid() && rings == old(rings) + PolygonRings(polygons)
    {
      ghost var start := rings;
      for i := 0 to |polygons|
        invariant Valid() && rings == start + PolygonRings(polygons[..i])
      {
        PolygonAppended(start, polygons, i, i + 1);
        AppendPolygon(polygons[i]);
      }
      assert polygons[..|polygons|] == polygons;
    }

    method AppendRow(detections: seq<Detection>, i: nat) returns (count: int)
      requires Valid() && i < MAX_DETECTIONS
      modifies this
      ensures Valid() && rings == old(rings) + RingParts(detections)[i] && count == |rings|
    {
      if i < |detections| && detections[i].segmentation.Some? {
        AppendPolygons(detections[i].segmentation.value.polygons);
      }
      count := ringCount;
    }
  }

  /** Rows `0..upto` written: their rings, and the offset after each of them. */
  ghost predicate Wrote(rings: seq<Ring>, instances: seq<Byte>, parts: seq<seq<Ring>>, upto: nat)
    requires upto <= |parts|
  {
    rings == Concat(parts[..upto]) && instances == Encoded(Offsets(parts[..upto]), 8)
  }

  lemma WroteRow(rings: seq<Ring>, instances: seq<Byte>, parts: seq<seq<Ring>>, i: nat, next: nat)
    requires i < |parts| && Wrote(rings, instances, parts, i) && next == i + 1
    ensures Wrote(rings + parts[i], instances + Scalar(|rings + parts[i]|, 8), parts, next)
  {
    OffsetAppended(parts, i);
  }

  lemma PointAppended(points: seq<Point>, p: Point)
    ensures Encoded(PointInts(points + [p]), 4) == Encoded(PointInts(points), 4) + Scalar(p.x, 4) + Scalar(p.y, 4)
  {
    assert (points + [p])[..|points|] == points;
    EncodedAppend(PointInts(points), p.x, 4);
    EncodedAppend(PointInts(points) + [p.x], p.y, 4);
  }

  lemma SolidOne(ring: Ring)
    requires |ring| >= 3
    ensures Solid([ring]) == [ring]
  {
    assert Solid([ring]) == Solid([]) + [ring];
  }

  lemma PartAppended<T>(parts: seq<seq<T>>, part: seq<T>, more: seq<seq<T>>)
    requires more == parts + [part]
    ensures Concat(more) == Concat(parts) + part
    ensures Encoded(Offsets(more), 8) == Encoded(Offsets(parts), 8) + Scalar(|Concat(parts)| + |part|, 8)
  {
    OffsetsAppend(parts, part);
    EncodedAppend(Offsets(parts), |Concat(parts)| + |part|, 8);
  }

  lemma PolygonAppended(start: seq<Ring>, polygons: seq<Polygon>, i: nat, next: nat)
    requires i < |polygons| && next == i + 1
    ensures start + PolygonRings(polygons[..next]) == start + PolygonRings(polygons[..i]) + Solid([polygons[i].exterior]) + Solid(polygons[i].holes)
  {
    assert polygons[..next][..i] == polygons[..i];
  }

  lemma SolidAppended(rings: seq<Ring>, h: nat)
    requires h < |rings|
    ensures Solid(rings[..h + 1]) == Solid(rings[..h]) + Solid([rings[h]])
  {
    assert rings[..h + 1][..h] == rings[..h];
    assert Solid([rings[h]]) == Solid([]) + if |rings[h]| >= 3 then [rings[h]] else [];
  }

  datatype PolygonTensors = PolygonTensors(instances: seq<Byte>, rings: seq<Byte>, points: seq<Byte>, ringShape: int, pointShape: int)

  ghost predicate EncodesPolygons(detections: seq<Detection>, t: PolygonTensors) {
    var parts := RingParts(detections);
    && t.instances == Encoded(Offsets(parts), 8)
    && t.rings == Encoded(Offsets(Concat(parts)), 8) && t.ringShape == |Concat(parts)| + 1
    && t.points == Encoded(PointInts(Concat(Concat(parts))), 4) && t.pointShape == |Concat(Concat(parts))|
  }

  method EncodePolygons(detections: seq<Detection>) returns (t: PolygonTensors)
    ensures EncodesPolygons(detections, t)
  {
    ghost var parts := RingParts(detections);
    var writer := new PolygonWriter();
    var instances := Scalar(0, 8);
    OneScalar(0, 8);
    assert Offsets(parts[..0]) == [0];
    for i := 0 to MAX_DETECTIONS
      invariant fresh(writer) && writer.Valid() && Wrote(writer.rings, instances, parts, i)
    {
      WroteRow(writer.rings, instances, parts, i, i + 1);
      var count := writer.AppendRow(detections, i);
      instances := instances + Scalar(count, 8);
    }
    assert parts[..MAX_DETECTIONS] == parts;
    t := PolygonTensors(instances, writer.ringOffsets, writer.points, writer.ringCount + 1, writer.pointCount);
  }

  /** A detection's rings, read back through both levels of offsets. */
  function ReadRings(t: PolygonTensors, i: nat): seq<Ring>
    requires var points := PointsFrom(Decoded(t.points, 4));
      && IsOffsets(Decoded(t.rings, 8), |points|) && IsOffsets(Decoded(t.instances, 8), |Decoded(t.rings, 8)| - 1)
      && i + 1 < |Decoded(t.instances, 8)|
  {
    Cut(Cut(PointsFrom(Decoded(t.points, 4)), Decoded(t.rings, 8)), Decoded(t.instances, 8))[i]
  }

  /** All rings of an outline: each polygon's exterior and then its holes. */
  function OutlineRings(polygons: seq<Polygon>): seq<Ring> {
    Concat(seq(|polygons|, i requires 0 <= i < |polygons| => [polygons[i].exterior] + polygons[i].holes))
  }

  /** `kept` holds the rings of at least three points among `all`, and no others, in order: `at` says where each of them stood. */
  ghost predicate KeepsSolid(all: seq<Ring>, kept: seq<Ring>, at: seq<nat>) {
    && |at| == |kept| && (forall i, j :: 0 <= i < j < |at| ==> at[i] < at[j])
    && (forall p: nat :: p in at <==> p < |all| && |all[p]| >= 3)
    && forall i :: 0 <= i < |at| ==> at[i] < |all| && kept[i] == all[at[i]]
  }

  function Shifted(d: nat, at: seq<nat>): seq<nat> {
    seq(|at|, i requires 0 <= i < |at| => d + at[i])
  }

  lemma KeepsBoth(a: seq<Ring>, keptA: seq<Ring>, atA: seq<nat>, b: seq<Ring>, keptB: seq<Ring>, atB: seq<nat>) returns (at: seq<nat>)
    requires KeepsSolid(a, keptA, atA) && KeepsSolid(b, keptB, atB)
    ensures KeepsSolid(a + b, keptA + keptB, at)
  {
    at := atA + Shifted(|a|, atB);
    forall i, j | 0 <= i < j < |at| ensures at[i] < at[j] {
      assert i < |atA| ==> atA[i] < |a|;
    }
    KeptBoth(a, keptA, atA, b, keptB, atB, at);
    forall p: nat ensures p in at <==> p < |a + b| && |(a + b)[p]| >= 3 {
      ShiftedHolds(a, atA, b, atB, p);
    }
  }

  lemma KeptBoth(a: seq<Ring>, keptA: seq<Ring>, atA: seq<nat>, b: seq<Ring>, keptB: seq<Ring>, atB: seq<nat>, at: seq<nat>)
    requires at == atA + Shifted(|a|, atB) && |atA| == |keptA| && |atB| == |keptB|
    requires forall i :: 0 <= i < |atA| ==> atA[i] < |a| && keptA[i] == a[atA[i]]
    requires forall i :: 0 <= i < |atB| ==> atB[i] < |b| && keptB[i] == b[atB[i]]
    ensures forall i :: 0 <= i < |at| ==> at[i] < |a + b| && (keptA + keptB)[i] == (a + b)[at[i]]
  {
  }

  lemma ShiftedHolds(a: seq<Ring>, atA: seq<nat>, b: seq<Ring>, atB: seq<nat>, p: nat)
    requires forall q: nat :: q in atA <==> q < |a| && |a[q]| >= 3
    requires forall q: nat :: q in atB <==> q < |b| && |b[q]| >= 3
    ensures p in atA + Shifted(|a|, atB) <==> p < |a + b| && |(a + b)[p]| >= 3
  {
    var moved := Shifted(|a|, atB);
    if p >= |a| && p - |a| in atB {
      var i :| 0 <= i < |atB| && atB[i] == p - |a|;
      assert moved[i] == p;
    }
    if p in moved {
      var i :| 0 <= i < |moved| && moved[i] == p;
      assert atB[i] in atB;
    }
  }

  lemma {:induction false} SolidKeeps(rings: seq<Ring>) returns (at: seq<nat>)
    ensures KeepsSolid(rings, Solid(rings), at)
  {
    if rings == [] {
      at := [];
    } else {
      var last := |rings| - 1;
      var before := SolidKeeps(rings[..last]);
      var one: seq<nat> := if |rings[last]| >= 3 then [0] else [];
      at := KeepsBoth(rings[..last], Solid(rings[..last]), before, [rings[last]], if |rings[last]| >= 3 then [rings[last]] else [], one);
      assert rings[..last] + [rings[last]] == rings;
    }
  }

  lemma {:induction false} PolygonsKeep(polygons: seq<Polygon>) returns (at: seq<nat>)
    ensures KeepsSolid(OutlineRings(polygons), PolygonRings(polygons), at)
  {
    if polygons == [] {
      at := [];
    } else {
      var p, rest := polygons[|polygons| - 1], polygons[..|polygons| - 1];
      var before := PolygonsKeep(rest);
      var exterior := SolidKeeps([p.exterior]);
      var holes := SolidKeeps(p.holes);
      var own := KeepsBoth([p.exterior], Solid([p.exterior]), exterior, p.holes, Solid(p.holes), holes);
      at := KeepsBoth(OutlineRings(rest), PolygonRings(rest), before, [p.exterior] + p.holes, Solid([p.exterior]) + Solid(p.holes), own);
      OutlineGrows(polygons);
      assert PolygonRings(rest) + (Solid([p.exterior]) + Solid(p.holes)) == PolygonRings(polygons);
    }
  }

  lemma OutlineGrows(polygons: seq<Polygon>)
    requires polygons != []
    ensures var last := |polygons| - 1;
      OutlineRings(polygons) == OutlineRings(polygons[..last]) + ([polygons[last].exterior] + polygons[last].holes)
  {
    var parts := seq(|polygons|, i requires 0 <= i < |polygons| => [polygons[i].exterior] + polygons[i].holes);
    var rest := polygons[..|polygons| - 1];
    assert parts[..|polygons| - 1] == seq(|rest|, i requires 0 <= i < |rest| => [rest[i].exterior] + rest[i].holes);
  }

  /** The rings written for a detection are those of its outline that have at least three points, in order; none without an outline. */
  lemma RingsAre(d: Detection) returns (at: seq<nat>)
    ensures KeepsSolid(if d.segmentation.Some? then OutlineRings(d.segmentation.value.polygons) else [], RingsOf(d), at)
  {
    at := [];
    if d.segmentation.Some? {
      at := PolygonsKeep(d.segmentation.value.polygons);
    }
  }

  lemma {:induction false} SolidRings(rings: seq<Ring>)
    ensures forall r :: r in Solid(rings) ==> |r| >= 3 && r in rings
    ensures forall r :: r in rings && |r| >= 3 ==> r in Solid(rings)
  {
    if rings != [] {
      SolidRings(rings[..|rings| - 1]);
    }
  }

  lemma {:induction false} ConcatShorter<T>(parts: seq<seq<T>>, atLeast: nat)
    requires atLeast > 0 && forall p :: p in parts ==> |p| >= atLeast
    ensures |parts| <= |Concat(parts)|
  {
    if parts != [] {
      ConcatShorter(parts[..|parts| - 1], atLeast);
    }
  }

  lemma {:induction false} PolygonRingsSolid(polygons: seq<Polygon>)
    ensures forall r :: r in PolygonRings(polygons) ==> |r| >= 3
  {
    if polygons != [] {
      var p := polygons[|polygons| - 1];
      PolygonRingsSolid(polygons[..|polygons| - 1]);
      SolidRings([p.exterior]);
      SolidRings(p.holes);
    }
  }

  lemma {:induction false} ConcatMembers<T>(parts: seq<seq<T>>, x: T)
    requires x in Concat(parts)
    ensures exists p :: p in parts && x in p
  {
    var last := |parts| - 1;
    if x !in parts[last] {
      ConcatMembers(parts[..last], x);
      var p :| p in parts[..last] && x in p;
      assert p in parts;
    }
  }

  lemma OffsetsReadBack<T>(parts: seq<seq<T>>, bytes: seq<Byte>)
    requires bytes == Encoded(Offsets(parts), 8) && |Concat(parts)| < 0x8000_0000_0000_0000
    ensures Decoded(bytes, 8) == Offsets(parts) && IsOffsets(Offsets(parts), |Concat(parts)|) && Cut(Concat(parts), Offsets(parts)) == parts
  {
    Pow256Values();
    OffsetsFit(parts);
    EncodedRoundTrip(Offsets(parts), 8);
    FlattenCut(parts);
  }

  lemma PointsReadBack(points: seq<Point>, bytes: seq<Byte>)
    requires bytes == Encoded(PointInts(points), 4) && forall p :: p in points ==> InRange(p.x, 4) && InRange(p.y, 4)
    ensures PointsFrom(Decoded(bytes, 4)) == points
  {
    PointsFit(points);
    EncodedRoundTrip(PointInts(points), 4);
    PointsRoundTrip(points);
  }

  lemma RingsFewerThanPoints(detections: seq<Detection>)
    ensures |Concat(RingParts(detections))| <= |Concat(Concat(RingParts(detections)))|
  {
    AllRingsSolid(detections);
    ConcatShorter(Concat(RingParts(detections)), 3);
  }

  /**
   * Both offset arrays rise from 0 to the length of what they index, the outer one with 101 entries; cutting twice recovers, for every
   * row, exactly the rings of at least three points of its detection, in order.
   */
  lemma PolygonsReadBack(detections: seq<Detection>, t: PolygonTensors)
    requires EncodesPolygons(detections, t)
    requires var points := Concat(Concat(RingParts(detections)));
      |points| < 0x8000_0000_0000_0000 && forall p :: p in points ==> InRange(p.x, 4) && InRange(p.y, 4)
    ensures var points := PointsFrom(Decoded(t.points, 4));
      && |points| == t.pointShape && |Decoded(t.rings, 8)| == t.ringShape
      && IsOffsets(Decoded(t.rings, 8), |points|) && IsOffsets(Decoded(t.instances, 8), |Decoded(t.rings, 8)| - 1)
      && |Decoded(t.instances, 8)| == MAX_DETECTIONS + 1
    ensures forall i :: 0 <= i < MAX_DETECTIONS ==> ReadRings(t, i) == if i < |detections| then RingsOf(detections[i]) else []
  {
    var parts := RingParts(detections);
    PolygonsDecode(detections, t, parts);
    TwoLevels(parts);
  }

  lemma TwoLevels<T>(parts: seq<seq<seq<T>>>)
    ensures IsOffsets(Offsets(Concat(parts)), |Concat(Concat(parts))|) && IsOffsets(Offsets(parts), |Concat(parts)|)
    ensures Cut(Cut(Concat(Concat(parts)), Offsets(Concat(parts))), Offsets(parts)) == parts
  {
    FlattenCut(Concat(parts));
    FlattenCut(parts);
  }

  lemma PolygonsDecode(detections: seq<Detection>, t: PolygonTensors, parts: seq<seq<Ring>>)
    requires EncodesPolygons(detections, t) && parts == RingParts(detections)
    requires var points := Concat(Concat(parts));
      |points| < 0x8000_0000_0000_0000 && forall p :: p in points ==> InRange(p.x, 4) && InRange(p.y, 4)
    ensures PointsFrom(Decoded(t.points, 4)) == Concat(Concat(parts))
    ensures Decoded(t.rings, 8) == Offsets(Concat(parts)) && Decoded(t.instances, 8) == Offsets(parts)
  {
    var rings := Concat(parts);
    PointsReadBack(Concat(rings), t.points);
    RingsFewerThanPoints(detections);
    OffsetsReadBack(rings, t.rings);
    OffsetsReadBack(parts, t.instances);
  }

  lemma AllRingsSolid(detections: seq<Detection>)
    ensures forall i :: 0 <= i < MAX_DETECTIONS ==> forall r :: r in RingParts(detections)[i] ==> |r| >= 3
    ensures forall r :: r in Concat(RingParts(detections)) ==> |r| >= 3
  {
    var parts := RingParts(detections);
    forall i | 0 <= i < MAX_DETECTIONS ensures forall r :: r in parts[i] ==> |r| >= 3 {
      if i < |detections| && detections[i].segmentation.Some? {
        PolygonRingsSolid(detections[i].segmentation.value.polygons);
      }
    }
    forall r | r in Concat(parts) ensures |r| >= 3 {
      ConcatMembers(parts, r);
      var p :| p in parts && r in p;
      var i :| 0 <= i < MAX_DETECTIONS && parts[i] == p;
    }
  }
}
