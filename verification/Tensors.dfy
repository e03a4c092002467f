/** Tensors, requests and responses, and the sequence arithmetic the batcher and codec share. */
module Tensors {
  import opened Wrappers

  type Byte = b: int | 0 <= b < 256

  /** The datatype strings a tensor can carry; any string the runtime has no fixed-size element for is `Other`. */
  datatype DType =
    | BOOL | INT8 | UINT8 | INT16 | UINT16 | INT32 | UINT32 | INT64 | UINT64 | FP16 | FP32 | FP64
    | BYTES
    | Other(text: string)

  /** An input or output tensor. Fixed-size elements live in `bytes`, BYTES elements in `strings`. */
  datatype Tensor = Tensor(name: string, dtype: DType, shape: seq<int>, bytes: seq<Byte>, strings: seq<string>)

  /** An execution request, reduced to its tensors and the outputs asked for. The cancel token is not part of it. */
  datatype Request = Request(inputs: seq<Tensor>, outputs: seq<string>)

  datatype Response = Response(ok: bool, code: string, message: string, outputs: seq<Tensor>)

  const SIZE_LIMIT := 0x1_0000_0000_0000_0000

  /** The value a 64-bit `size_t` holds for an integer. */
  function Wrap(x: int): nat {
    x % SIZE_LIMIT
  }

  /** Bytes per element. FP16 is held widened to 32 bits; BYTES and unknown datatypes have no fixed size. */
  function ElementSize(dtype: DType): nat {
    match dtype
    case BOOL | INT8 | UINT8 => 1
    case INT16 | UINT16 => 2
    case INT32 | UINT32 | FP16 | FP32 => 4
    case INT64 | UINT64 | FP64 => 8
    case BYTES | Other(_) => 0
  }

  predicate NonNegative(shape: seq<int>) {
    forall i :: 0 <= i < |shape| ==> shape[i] >= 0
  }

  function Product(shape: seq<int>): (r: int)
    ensures NonNegative(shape) ==> r >= 0
  {
    if shape == [] then 1 else shape[0] * Product(shape[1..])
  }

  function Sum(ns: seq<nat>): nat {
    if ns == [] then 0 else Sum(ns[..|ns| - 1]) + ns[|ns| - 1]
  }

  function Concat<T>(parts: seq<seq<T>>): seq<T> {
    if parts == [] then [] else Concat(parts[..|parts| - 1]) + parts[|parts| - 1]
  }

  lemma {:induction false} SumPrefix(ns: seq<nat>, k: nat)
    requires k <= |ns|
    ensures Sum(ns[..k]) <= Sum(ns)
    ensures k < |ns| ==> Sum(ns[..k]) + ns[k] <= Sum(ns)
    decreases |ns|
  {
    if k == |ns| {
      assert ns[..k] == ns;
    } else {
      var most := ns[..|ns| - 1];
      assert most[..k] == ns[..k];
      if k < |most| {
        SumPrefix(most, k);
      }
    }
  }

  /** Part `k` of a concatenation sits behind the parts before it. */
  lemma {:induction false} ConcatPart<T>(parts: seq<seq<T>>, k: nat)
    requires k < |parts|
    ensures var start := |Concat(parts[..k])|;
            && start + |parts[k]| <= |Concat(parts)|
            && Concat(parts)[start..start + |parts[k]|] == parts[k]
    decreases |parts|
  {
    var most := parts[..|parts| - 1];
    if k < |most| {
      ConcatPart(most, k);
      assert most[..k] == parts[..k];
      var start := |Concat(parts[..k])|;
      assert Concat(parts)[start..start + |parts[k]|] == Concat(most)[start..start + |parts[k]|];
    } else {
      assert most == parts[..k];
    }
  }

  /** Parts of `counts[i] * width` elements make offsets that are multiples of `width`. */
  lemma {:induction false} ConcatLength<T>(parts: seq<seq<T>>, counts: seq<nat>, width: nat)
    requires |parts| == |counts|
    requires forall i :: 0 <= i < |parts| ==> |parts[i]| == counts[i] * width
    ensures |Concat(parts)| == Sum(counts) * width
    decreases |parts|
  {
    if parts != [] {
      var last := |parts| - 1;
      ConcatLength(parts[..last], counts[..last], width);
      assert Sum(counts) * width == Sum(counts[..last]) * width + counts[last] * width;
    }
  }

  /** Cuts a sequence into consecutive pieces of the given widths. */
  function Pieces<T>(whole: seq<T>, widths: seq<nat>): seq<seq<T>>
    requires Sum(widths) == |whole|
  {
    seq(|widths|, k requires 0 <= k < |widths| => SumPrefix(widths, k); whole[Sum(widths[..k])..Sum(widths[..k]) + widths[k]])
  }

  lemma {:induction false} PiecesConcat<T>(whole: seq<T>, widths: seq<nat>, n: nat)
    requires Sum(widths) == |whole| && n <= |widths|
    ensures Sum(widths[..n]) <= |whole|
    ensures Concat(Pieces(whole, widths)[..n]) == whole[..Sum(widths[..n])]
    decreases n
  {
    SumPrefix(widths, n);
    if n > 0 {
      PiecesConcat(whole, widths, n - 1);
      var pieces := Pieces(whole, widths);
      assert pieces[..n][..n - 1] == pieces[..n - 1];
      assert widths[..n][..n - 1] == widths[..n - 1];
    }
  }

  function Scaled(ns: seq<nat>, w: nat): seq<nat> {
    seq(|ns|, k requires 0 <= k < |ns| => ns[k] * w)
  }

  lemma {:induction false} ScaledSum(ns: seq<nat>, w: nat)
    ensures Sum(Scaled(ns, w)) == Sum(ns) * w
    decreases ns
  {
    if ns != [] {
      var last := |ns| - 1;
      ScaledSum(ns[..last], w);
      assert Scaled(ns, w)[..last] == Scaled(ns[..last], w);
      assert (Sum(ns[..last]) + ns[last]) * w == Sum(ns[..last]) * w + ns[last] * w;
    }
  }

  lemma {:induction false} WrapMul(a: int, b: int)
    ensures Wrap(Wrap(a) * b) == Wrap(a * b)
  {
    var q := a / SIZE_LIMIT;
    assert a * b == Wrap(a) * b + SIZE_LIMIT * (q * b) by {
      assert a == Wrap(a) + SIZE_LIMIT * q;
      assert (Wrap(a) + SIZE_LIMIT * q) * b == Wrap(a) * b + (SIZE_LIMIT * q) * b;
      assert (SIZE_LIMIT * q) * b == SIZE_LIMIT * (q * b);
    }
    WrapShift(Wrap(a) * b, q * b);
  }

  lemma WrapShift(x: int, k: int)
    ensures Wrap(x + SIZE_LIMIT * k) == Wrap(x)
  {
    var y := x + SIZE_LIMIT * k;
    var d := y / SIZE_LIMIT - x / SIZE_LIMIT - k;
    assert SIZE_LIMIT * d == Wrap(x) - Wrap(y);
    assert d == 0;
  }
}
