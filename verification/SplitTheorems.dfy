/** What splitting does to any batched response whose sizes are honest 64-bit values. */
module SplitTheorems {
  import opened Wrappers
  import opened Tensors
  import opened DynamicBatcher

  const HALF := 0x8000_0000_0000_0000

  /** Bytes of one batch row of an output. */
  function RowWidth(output: Tensor): int
    requires output.shape != []
  {
    Product(output.shape[1..]) * ElementSize(output.dtype)
  }

  /** An output of rank at least 1 with non-negative extents, whose true byte counts do not wrap. */
  predicate Fits(output: Tensor, sizes: seq<nat>) {
    && output.shape != [] && NonNegative(output.shape)
    && Sum(sizes) < HALF && output.shape[0] < HALF
    && Product(output.shape[1..]) < SIZE_LIMIT
    && RowWidth(output) < SIZE_LIMIT
    && output.shape[0] * RowWidth(output) < SIZE_LIMIT
    && output.shape[0] * Product(output.shape[1..]) < SIZE_LIMIT
  }

  /** The guard that rejects an output, which no request index enters into. */
  function EarlyError(output: Tensor, sizes: seq<nat>): Option<string>
    requires output.shape != []
  {
    if output.shape[0] != Sum(sizes) then Some("batched output batch dimension mismatch")
    else if ElementSize(output.dtype) == 0 || output.shape[0] * RowWidth(output) != |output.bytes| then Some("batched output data size mismatch")
    else if Product(output.shape[1..]) == 0 then Some("batched output slice size mismatch")
    else None
  }

  /** The byte counts of the requests' shares, and the shares themselves. */
  function ShareWidths(output: Tensor, sizes: seq<nat>): seq<nat>
    requires output.shape != [] && RowWidth(output) >= 0
  {
    Scaled(sizes, RowWidth(output))
  }

  function Shares(output: Tensor, sizes: seq<nat>): seq<seq<Byte>>
    requires output.shape != [] && RowWidth(output) >= 0 && Sum(ShareWidths(output, sizes)) == |output.bytes|
  {
    Pieces(output.bytes, ShareWidths(output, sizes))
  }

  lemma TailNonNegative(shape: seq<int>)
    requires shape != [] && NonNegative(shape)
    ensures NonNegative(shape[1..]) && Product(shape[1..]) >= 0 && Product(shape) == shape[0] * Product(shape[1..])
  {
  }

  /** Size arithmetic of one share: nothing wraps, and the range lies inside the buffer. */
  lemma ShareArithmetic(before: nat, mine: nat, total: nat, tail: nat, size: nat)
    requires before + mine <= total
    requires total * tail < SIZE_LIMIT && total * (tail * size) < SIZE_LIMIT
    ensures var w := tail * size;
            && Wrap(before * tail * size) == before * w
            && Wrap(before * w + mine * tail * size) == before * w + mine * w
            && before * w + mine * w <= total * w
            && Wrap(Wrap(mine * tail) * size) == mine * w
  {
    var w := tail * size;
    assert before * tail * size == before * w && mine * tail * size == mine * w;
    assert before * w + mine * w == (before + mine) * w;
    Monotone(before + mine, total, w);
    Monotone(before, before + mine, w);
    Monotone(mine, total, tail);
  }

  lemma Monotone(a: nat, b: nat, w: nat)
    requires a <= b
    ensures a * w <= b * w
  {
  }

  lemma WrapSmall(x: int)
    requires 0 <= x < SIZE_LIMIT
    ensures Wrap(x) == x
  {
  }

  lemma Associates(a: int, b: int, c: int)
    ensures a * b * c == a * (b * c)
  {
  }

  lemma ElementCounts(output: Tensor, sizes: seq<nat>)
    requires Fits(output, sizes)
    ensures var tail, size := Product(output.shape[1..]), ElementSize(output.dtype);
            && tail >= 0
            && SliceElementCount(output.shape) == tail
            && ShapeElementCount(output.shape) == output.shape[0] * tail
            && Wrap(output.shape[0] * tail * size) == output.shape[0] * RowWidth(output)
  {
    var rows, tail, size := output.shape[0], Product(output.shape[1..]), ElementSize(output.dtype);
    TailNonNegative(output.shape);
    Monotone(0, rows, tail);
    Monotone(0, tail, size);
    Monotone(0, rows, tail * size);
    WrapSmall(tail);
    WrapSmall(rows * tail);
    WrapSmall(rows * RowWidth(output));
    Associates(rows, tail, size);
    if |output.shape| == 1 {
      assert output.shape[1..] == [];
    }
  }

  /**
   * The two late size guards never fire. Whether and why an output is refused does not depend
   * on the request, and otherwise request `k` gets exactly its own share.
   */
  lemma LateGuardsNeverFire(output: Tensor, sizes: seq<nat>, k: nat)
    requires k < |sizes| && Fits(output, sizes)
    ensures EarlyError(output, sizes).Some? ==>
              SliceOutput(output, sizes, k) == SliceError(EarlyError(output, sizes).value)
    ensures EarlyError(output, sizes).None? ==>
              && RowWidth(output) >= 0 && Sum(ShareWidths(output, sizes)) == |output.bytes|
              && SliceOutput(output, sizes, k) == Sliced(Tensor(output.name, output.dtype, [sizes[k]] + output.shape[1..], Shares(output, sizes)[k], []))
  {
    if EarlyError(output, sizes).None? {
      AcceptedSlice(output, sizes, k);
    } else {
      RefusedSlice(output, sizes, k);
    }
  }

  lemma RefusedSlice(output: Tensor, sizes: seq<nat>, k: nat)
    requires k < |sizes| && Fits(output, sizes) && EarlyError(output, sizes).Some?
    ensures SliceOutput(output, sizes, k) == SliceError(EarlyError(output, sizes).value)
  {
    ElementCounts(output, sizes);
    assert Wrap(output.shape[0]) == output.shape[0] && Total(sizes) == Sum(sizes);
    assert Wrap(ShapeElementCount(output.shape) * ElementSize(output.dtype)) == output.shape[0] * RowWidth(output);
  }

  /** Where request `k`'s share lies, as the guards compute it. */
  lemma AcceptedRange(output: Tensor, sizes: seq<nat>, k: nat)
    requires k < |sizes| && Fits(output, sizes) && EarlyError(output, sizes).None?
    ensures var slice, size, w := SliceElementCount(output.shape), ElementSize(output.dtype), RowWidth(output);
            && w >= 0
            && Wrap(Sum(sizes[..k]) * slice * size) == Sum(sizes[..k]) * w
            && Wrap(Sum(sizes[..k]) * w + sizes[k] * slice * size) == Sum(sizes[..k]) * w + sizes[k] * w
            && Sum(sizes[..k]) * w + sizes[k] * w <= |output.bytes|
            && Wrap(Wrap(sizes[k] * slice) * size) == sizes[k] * w
  {
    ElementCounts(output, sizes);
    SumPrefix(sizes, k);
    ShareArithmetic(Sum(sizes[..k]), sizes[k], Sum(sizes), Product(output.shape[1..]), ElementSize(output.dtype));
  }

  /** The shape of a share and its element count. */
  lemma ShareShape(shape: seq<int>, mine: nat)
    requires shape != [] && mine < HALF
    ensures shape[0 := Signed(mine)] == [mine] + shape[1..]
    ensures ShapeElementCount(shape[0 := Signed(mine)]) == Wrap(mine * Product(shape[1..]))
  {
    var other := shape[0 := Signed(mine)];
    assert other[1..] == shape[1..];
  }

  lemma ScaledPrefix(sizes: seq<nat>, w: nat, k: nat)
    requires k <= |sizes|
    ensures Sum(Scaled(sizes, w)[..k]) == Sum(sizes[..k]) * w
  {
    ScaledSum(sizes[..k], w);
    assert Scaled(sizes, w)[..k] == Scaled(sizes[..k], w);
  }

  lemma PieceAt(whole: seq<Byte>, widths: seq<nat>, k: nat, from: nat, width: nat)
    requires Sum(widths) == |whole| && k < |widths| && from == Sum(widths[..k]) && width == widths[k] && from + width <= |whole|
    ensures Pieces(whole, widths)[k] == whole[from..from + width]
  {
  }

  lemma ShareIs(output: Tensor, sizes: seq<nat>, k: nat, w: nat)
    requires k < |sizes| && output.shape != [] && w == RowWidth(output) && Sum(sizes) * w == |output.bytes|
    ensures Sum(ShareWidths(output, sizes)) == |output.bytes|
    ensures Sum(sizes[..k]) * w + sizes[k] * w <= |output.bytes|
    ensures Shares(output, sizes)[k] == output.bytes[Sum(sizes[..k]) * w..Sum(sizes[..k]) * w + sizes[k] * w]
  {
    ScaledPrefix(sizes, w, k);
    ScaledSum(sizes, w);
    SumPrefix(Scaled(sizes, w), k);
    PieceAt(output.bytes, Scaled(sizes, w), k, Sum(sizes[..k]) * w, sizes[k] * w);
  }

  lemma AcceptedSlice(output: Tensor, sizes: seq<nat>, k: nat)
    requires k < |sizes| && Fits(output, sizes) && EarlyError(output, sizes).None?
    ensures RowWidth(output) >= 0 && Sum(ShareWidths(output, sizes)) == |output.bytes|
    ensures SliceOutput(output, sizes, k) == Sliced(Tensor(output.name, output.dtype, [sizes[k]] + output.shape[1..], Shares(output, sizes)[k], []))
  {
    ElementCounts(output, sizes);
    SumPrefix(sizes, k);
    AcceptedRange(output, sizes, k);
    ShareShape(output.shape, sizes[k]);
    ShareIs(output, sizes, k, RowWidth(output));
    WrapSmall(output.shape[0]);
    WrapSmall(Sum(sizes));
  }

  /** The shares of an accepted output are adjacent, disjoint and together the whole buffer. */
  lemma SharesPartitionOutput(output: Tensor, sizes: seq<nat>)
    requires Fits(output, sizes) && EarlyError(output, sizes).None?
    ensures RowWidth(output) >= 0 && Sum(ShareWidths(output, sizes)) == |output.bytes|
    ensures Concat(Shares(output, sizes)) == output.bytes
  {
    var widths := ShareWidths(output, sizes);
    TailNonNegative(output.shape);
    ScaledSum(sizes, RowWidth(output));
    PiecesConcat(output.bytes, widths, |widths|);
    assert widths[..|widths|] == widths;
    assert Shares(output, sizes)[..|widths|] == Shares(output, sizes);
  }

  lemma {:induction false} SameFirstError(outputs: seq<Tensor>, sizes: seq<nat>, i: nat, j: nat)
    requires i < |sizes| && j < |sizes|
    requires forall o :: o in outputs ==> Fits(o, sizes)
    ensures FirstSliceError(outputs, sizes, i) == FirstSliceError(outputs, sizes, j)
    decreases outputs
  {
    if outputs != [] {
      assert outputs[0] in outputs;
      LateGuardsNeverFire(outputs[0], sizes, i);
      LateGuardsNeverFire(outputs[0], sizes, j);
      SameFirstError(outputs[1..], sizes, i, j);
    }
  }

  /** Either every request of the batch gets its share of every output, or all get the same error. */
  lemma AllSucceedOrAllFailAlike(batched: Response, sizes: seq<nat>, i: nat, j: nat)
    requires i < |sizes| && j < |sizes|
    requires forall o :: o in batched.outputs ==> Fits(o, sizes)
    ensures var a, b := SplitOne(batched, sizes, i), SplitOne(batched, sizes, j);
            a.ok == b.ok && (!a.ok ==> a == b)
  {
    SameFirstError(batched.outputs, sizes, i, j);
  }

  predicate AllFit(outputs: seq<Tensor>, sizes: seq<nat>) {
    forall j :: 0 <= j < |outputs| ==> Fits(outputs[j], sizes)
  }

  /** Output `j` is the first that cannot be handed out, and `why` is the reason. */
  predicate FirstRefused(outputs: seq<Tensor>, sizes: seq<nat>, j: nat, why: string)
    requires AllFit(outputs, sizes)
  {
    && j < |outputs| && EarlyError(outputs[j], sizes) == Some(why)
    && forall i :: 0 <= i < j ==> EarlyError(outputs[i], sizes).None?
  }

  predicate NoneRefused(outputs: seq<Tensor>, sizes: seq<nat>)
    requires AllFit(outputs, sizes)
  {
    forall i :: 0 <= i < |outputs| ==> EarlyError(outputs[i], sizes).None?
  }

  /** The bytes behind those of the requests before request `k`, under its own number of rows. */
  predicate IsShare(output: Tensor, sizes: seq<nat>, k: nat, share: Tensor)
    requires k < |sizes| && output.shape != []
  {
    && share.name == output.name && share.dtype == output.dtype && share.shape == [sizes[k]] + output.shape[1..] && share.strings == []
    && var w := RowWidth(output);
       0 <= Sum(sizes[..k]) * w <= Sum(sizes[..k]) * w + sizes[k] * w <= |output.bytes|
       && share.bytes == output.bytes[Sum(sizes[..k]) * w..Sum(sizes[..k]) * w + sizes[k] * w]
  }

  /** What request `k` of a batch gets: the executor's failure as it is, or one naming why the first bad output cannot be handed out, or its share of every output. */
  lemma SplitMeans(batched: Response, sizes: seq<nat>, k: nat)
    requires k < |sizes| && AllFit(batched.outputs, sizes)
    ensures !batched.ok ==> SplitOne(batched, sizes, k) == batched
    ensures batched.ok ==> forall j: nat, why :: FirstRefused(batched.outputs, sizes, j, why) ==>
              SplitOne(batched, sizes, k) == Response(false, "BACKEND_ERROR", why, [])
    ensures batched.ok && NoneRefused(batched.outputs, sizes) ==>
              var r := SplitOne(batched, sizes, k);
              r.ok && |r.outputs| == |batched.outputs| && forall j :: 0 <= j < |r.outputs| ==> IsShare(batched.outputs[j], sizes, k, r.outputs[j])
  {
    if batched.ok {
      forall j: nat, why | FirstRefused(batched.outputs, sizes, j, why)
        ensures FirstSliceError(batched.outputs, sizes, k) == Some(why)
      {
        RefusalFound(batched.outputs, sizes, k, j, why);
      }
      if NoneRefused(batched.outputs, sizes) {
        SharesFound(batched, sizes, k);
      }
    }
  }

  lemma SharesFound(batched: Response, sizes: seq<nat>, k: nat)
    requires k < |sizes| && batched.ok && AllFit(batched.outputs, sizes) && NoneRefused(batched.outputs, sizes)
    ensures var r := SplitOne(batched, sizes, k);
      r.ok && |r.outputs| == |batched.outputs| && forall j :: 0 <= j < |r.outputs| ==> IsShare(batched.outputs[j], sizes, k, r.outputs[j])
  {
    forall j | 0 <= j < |batched.outputs|
      ensures SliceOutput(batched.outputs[j], sizes, k).Sliced?
      ensures IsShare(batched.outputs[j], sizes, k, SliceOutput(batched.outputs[j], sizes, k).tensor)
    {
      ShareFound(batched.outputs[j], sizes, k);
    }
  }

  lemma ShareFound(output: Tensor, sizes: seq<nat>, k: nat)
    requires k < |sizes| && Fits(output, sizes) && EarlyError(output, sizes).None?
    ensures SliceOutput(output, sizes, k).Sliced? && IsShare(output, sizes, k, SliceOutput(output, sizes, k).tensor)
  {
    AcceptedSlice(output, sizes, k);
    ElementCounts(output, sizes);
    ShareIs(output, sizes, k, RowWidth(output));
    Monotone(0, Sum(sizes[..k]), RowWidth(output));
    Monotone(0, sizes[k], RowWidth(output));
  }

  lemma {:induction false} RefusalFound(outputs: seq<Tensor>, sizes: seq<nat>, k: nat, j: nat, why: string)
    requires k < |sizes| && AllFit(outputs, sizes) && FirstRefused(outputs, sizes, j, why)
    ensures FirstSliceError(outputs, sizes, k) == Some(why)
    decreases j
  {
    LateGuardsNeverFire(outputs[0], sizes, k);
    if j > 0 {
      assert EarlyError(outputs[0], sizes).None?;
      assert forall i :: 0 <= i < |outputs| - 1 ==> outputs[1..][i] == outputs[i + 1];
      RefusalFound(outputs[1..], sizes, k, j - 1, why);
    }
  }
}
