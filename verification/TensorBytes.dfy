/** Scalars in contiguous little-endian buffers, and offset arrays over flattened lists. */
module TensorBytes {
  import opened Tensors

  type Int32 = x: int | -0x8000_0000 <= x < 0x8000_0000

  predicate IsWidth(w: nat) {
    w == 1 || w == 2 || w == 4 || w == 8
  }

  function Pow256(w: nat): nat {
    if w == 0 then 1 else 256 * Pow256(w - 1)
  }

  function ToBytes(n: nat, w: nat): (r: seq<Byte>)
    ensures |r| == w
  {
    if w == 0 then [] else [n % 256] + ToBytes(n / 256, w - 1)
  }

  function FromBytes(bytes: seq<Byte>): nat {
    if bytes == [] then 0 else bytes[0] + 256 * FromBytes(bytes[1..])
  }

  lemma {:induction false} BytesRoundTrip(n: nat, w: nat)
    requires n < Pow256(w)
    ensures FromBytes(ToBytes(n, w)) == n
  {
    if w > 0 {
      BytesRoundTrip(n / 256, w - 1);
      assert ToBytes(n, w)[1..] == ToBytes(n / 256, w - 1);
    }
  }

  /** Bytes are the digits of the number they hold. */
  lemma {:induction false} BytesAreDigits(bytes: seq<Byte>)
    ensures FromBytes(bytes) < Pow256(|bytes|) && ToBytes(FromBytes(bytes), |bytes|) == bytes
  {
    if bytes != [] {
      BytesAreDigits(bytes[1..]);
    }
  }

  /** Byte `k` of an integer is its digit `k` in base 256: the least significant byte comes first. */
  lemma {:induction false} LittleEndian(n: nat, w: nat, k: nat)
    requires k < w
    ensures Pow256(k) > 0 && ToBytes(n, w)[k] == n / Pow256(k) % 256
    decreases k
  {
    if k > 0 {
      LittleEndian(n / 256, w - 1, k - 1);
      DivTwice(n, Pow256(k - 1));
    }
  }

  lemma DivTwice(n: nat, p: nat)
    requires p > 0
    ensures n / 256 / p == n / (256 * p)
  {
    var q, r := n / 256, n % 256;
    var a, b := q / p, q % p;
    assert q == a * p + b;
    assert n == 256 * (a * p + b) + r == (256 * p) * a + (256 * b + r);
    assert 256 * b + r < 256 * p;
    DivIs(n, 256 * p, a, 256 * b + r);
  }

  lemma DivIs(n: nat, d: nat, q: nat, r: nat)
    requires d > 0 && r < d && n == d * q + r
    ensures n / d == q
  {
    var e := n / d;
    if e < q {
      Multiples(d, e + 1, q);
    } else if e > q {
      Multiples(d, q + 1, e);
    }
  }

  lemma Multiples(d: nat, a: nat, b: nat)
    requires a <= b
    ensures d * a <= d * b && d * a == d * (a - 1) + d
  {
    assert d * b == d * a + d * (b - a);
    assert d * a == d * (a - 1) + d * 1;
  }

  /** The value fits a signed integer of `w` bytes. */
  predicate InRange(x: int, w: nat) {
    0 <= 2 * x + Pow256(w) && 2 * x < Pow256(w)
  }

  /** The bytes of one signed scalar, two's complement. */
  function Scalar(x: int, w: nat): (r: seq<Byte>)
    ensures |r| == w
  {
    ToBytes(if 0 <= x then x else if x + Pow256(w) >= 0 then x + Pow256(w) else 0, w)
  }

  function Signed(bytes: seq<Byte>): int {
    var n := FromBytes(bytes);
    if 2 * n >= Pow256(|bytes|) then n - Pow256(|bytes|) else n
  }

  lemma ScalarRoundTrip(x: int, w: nat)
    requires InRange(x, w)
    ensures Signed(Scalar(x, w)) == x
  {
    BytesRoundTrip(if 0 <= x then x else x + Pow256(w), w);
  }

  /** A list of scalars behind each other. */
  function Encoded(xs: seq<int>, w: nat): seq<Byte> {
    if xs == [] then [] else Scalar(xs[0], w) + Encoded(xs[1..], w)
  }

  function Decoded(bytes: seq<Byte>, w: nat): seq<int>
    requires w > 0
  {
    if |bytes| < w then [] else [Signed(bytes[..w])] + Decoded(bytes[w..], w)
  }

  /** Appending one scalar, as the encoders do. */
  lemma {:induction false} EncodedAppend(xs: seq<int>, x: int, w: nat)
    ensures Encoded(xs + [x], w) == Encoded(xs, w) + Scalar(x, w)
  {
    if xs == [] {
      assert Encoded([x], w) == Scalar(x, w) + Encoded([], w);
    } else {
      EncodedAppend(xs[1..], x, w);
      assert (xs + [x])[1..] == xs[1..] + [x];
    }
  }

  lemma {:induction false} EncodedRoundTrip(xs: seq<int>, w: nat)
    requires w > 0 && forall x :: x in xs ==> InRange(x, w)
    ensures Decoded(Encoded(xs, w), w) == xs
  {
    if xs != [] {
      ScalarRoundTrip(xs[0], w);
      EncodedRoundTrip(xs[1..], w);
      var bytes := Encoded(xs, w);
      assert bytes[..w] == Scalar(xs[0], w) && bytes[w..] == Encoded(xs[1..], w);
    }
  }

  lemma {:induction false} EncodedLength(xs: seq<int>, w: nat)
    requires IsWidth(w)
    ensures |Encoded(xs, w)| == |xs| * w
  {
    if xs != [] {
      EncodedLength(xs[1..], w);
    }
  }

  /** Element `i` of a buffer. */
  function ScalarAt(bytes: seq<Byte>, i: nat, w: nat): int
    requires IsWidth(w) && (i + 1) * w <= |bytes|
  {
    Signed(bytes[i * w..i * w + w])
  }

  /** Reading element `i` of an encoded list gives back element `i`. */
  lemma {:induction false} ScalarAtEncoded(xs: seq<int>, i: nat, w: nat)
    requires IsWidth(w) && i < |xs| && forall x :: x in xs ==> InRange(x, w)
    ensures (i + 1) * w <= |Encoded(xs, w)| && ScalarAt(Encoded(xs, w), i, w) == xs[i]
    decreases i
  {
    EncodedLength(xs, w);
    WithinList(i, |xs|, w);
    var bytes := Encoded(xs, w);
    ScalarRoundTrip(xs[0], w);
    if i == 0 {
      assert bytes[0..w] == Scalar(xs[0], w);
    } else {
      ScalarAtEncoded(xs[1..], i - 1, w);
      ShiftedSlice(bytes, Encoded(xs[1..], w), i, w);
    }
  }

  lemma WithinList(i: nat, n: nat, w: nat)
    requires IsWidth(w) && i < n
    ensures (i + 1) * w <= n * w
  {
  }

  lemma ShiftedSlice(bytes: seq<Byte>, rest: seq<Byte>, i: nat, w: nat)
    requires IsWidth(w) && i > 0 && w <= |bytes| && bytes[w..] == rest && i * w <= |rest|
    ensures (i + 1) * w <= |bytes| && ScalarAt(bytes, i, w) == ScalarAt(rest, i - 1, w)
  {
    var start := (i - 1) * w;
    RowsUp(i, w);
    SliceOfTail(bytes, w, start, start + w);
  }

  lemma SliceOfTail(bytes: seq<Byte>, w: nat, from: nat, to: nat)
    requires from <= to && w + to <= |bytes|
    ensures bytes[w..][from..to] == bytes[w + from..w + to]
  {
  }

  lemma RowsUp(i: nat, w: nat)
    requires i > 0
    ensures i * w == (i - 1) * w + w && (i + 1) * w == (i - 1) * w + w + w
  {
  }

  // -------------------------------------------------------------- offset arrays

  /** Starts at 0, never decreases and ends at the length of what it indexes. */
  predicate IsOffsets(offsets: seq<int>, length: nat) {
    && offsets != [] && offsets[0] == 0 && offsets[|offsets| - 1] == length
    && (forall i, j :: 0 <= i <= j < |offsets| ==> 0 <= offsets[i] <= offsets[j] <= length)
  }

  function Offsets<T>(parts: seq<seq<T>>): seq<int> {
    seq(|parts| + 1, i requires 0 <= i <= |parts| => |Concat(parts[..i])|)
  }

  /** Cuts a flat list at its offsets. */
  function Cut<T>(flat: seq<T>, offsets: seq<int>): seq<seq<T>>
    requires IsOffsets(offsets, |flat|)
  {
    seq(|offsets| - 1, i requires 0 <= i < |offsets| - 1 => flat[offsets[i]..offsets[i + 1]])
  }

  lemma {:induction false} OffsetsGrow<T>(parts: seq<seq<T>>, i: nat, j: nat)
    requires i <= j <= |parts|
    ensures |Concat(parts[..i])| <= |Concat(parts[..j])|
    decreases j
  {
    if i < j {
      OffsetsGrow(parts, i, j - 1);
      assert parts[..j][..j - 1] == parts[..j - 1];
    }
  }

  lemma OffsetsRise<T>(parts: seq<seq<T>>)
    ensures IsOffsets(Offsets(parts), |Concat(parts)|)
  {
    var offsets := Offsets(parts);
    assert parts[..0] == [] && parts[..|parts|] == parts;
    forall i, j | 0 <= i <= j < |offsets| ensures 0 <= offsets[i] <= offsets[j] <= |Concat(parts)| {
      OffsetsGrow(parts, i, j);
      OffsetsGrow(parts, j, |parts|);
    }
  }

  /** Flattening with offsets and cutting at them gives the parts back. */
  lemma FlattenCut<T>(parts: seq<seq<T>>)
    ensures IsOffsets(Offsets(parts), |Concat(parts)|) && Cut(Concat(parts), Offsets(parts)) == parts
  {
    OffsetsRise(parts);
    var pieces := Cut(Concat(parts), Offsets(parts));
    forall i | 0 <= i < |parts| ensures pieces[i] == parts[i] {
      PieceIs(parts, i, Concat(parts), Offsets(parts));
    }
  }

  lemma PieceIs<T>(parts: seq<seq<T>>, i: nat, flat: seq<T>, offsets: seq<int>)
    requires i < |parts| && flat == Concat(parts) && offsets == Offsets(parts)
    ensures 0 <= offsets[i] <= offsets[i + 1] <= |flat| && flat[offsets[i]..offsets[i + 1]] == parts[i]
  {
    ConcatPart(parts, i);
    OffsetStep(parts, i);
  }

  lemma OffsetStep<T>(parts: seq<seq<T>>, i: nat)
    requires i < |parts|
    ensures |Concat(parts[..i + 1])| == |Concat(parts[..i])| + |parts[i]|
  {
    assert parts[..i + 1][..i] == parts[..i];
  }

  /** One more part: one more offset. */
  lemma OffsetsAppend<T>(parts: seq<seq<T>>, part: seq<T>)
    ensures Concat(parts + [part]) == Concat(parts) + part
    ensures Offsets(parts + [part]) == Offsets(parts) + [|Concat(parts)| + |part|]
  {
    var more := parts + [part];
    assert more[..|parts|] == parts;
    assert forall i :: 0 <= i <= |parts| ==> more[..i] == parts[..i];
    assert more[..|more|] == more;
  }
}
