/**
 * Binary tensor framing (the Binary Tensor Data extension of the Open Inference Protocol): a header that names each
 * tensor with the size of its data, and the data of all tensors behind each other in one binary body.
 */
module BinaryCodec {
  import opened Wrappers
  import opened Tensors
  import opened Pipelines

  // ------------------------------------------------------------ element counts

  /** The extents before the first that is not positive. */
  function PositivePrefix(shape: seq<int>): (p: seq<int>)
    ensures |p| <= |shape| && p == shape[..|p|]
    ensures forall i :: 0 <= i < |p| ==> p[i] > 0
    ensures |p| < |shape| ==> shape[|p|] <= 0
  {
    if shape == [] || shape[0] <= 0 then [] else [shape[0]] + PositivePrefix(shape[1..])
  }

  datatype Count = Counted(elements: nat) | Overflowed

  /** The true element count, unless the extents counted so far leave 64 bits. */
  function ElementCount(shape: seq<int>): Count {
    var p := PositivePrefix(shape);
    if Product(p) >= SIZE_LIMIT then Overflowed else if p == shape then Counted(if Product(shape) >= 0 then Product(shape) else 0) else Counted(0)
  }

  lemma {:induction false} ProductAppend(a: seq<int>, b: seq<int>)
    ensures Product(a + b) == Product(a) * Product(b)
  {
    if a == [] {
      assert a + b == b;
    } else {
      ProductAppend(a[1..], b);
      assert (a + b)[1..] == a[1..] + b;
      Associates(a[0], Product(a[1..]), Product(b));
    }
  }

  lemma Associates(x: int, y: int, z: int)
    ensures x * (y * z) == x * y * z
  {
  }

  lemma {:induction false} ProductPositive(shape: seq<int>)
    requires forall i :: 0 <= i < |shape| ==> shape[i] > 0
    ensures Product(shape) >= 1
  {
    if shape != [] {
      ProductPositive(shape[1..]);
      TimesPositive(shape[0], Product(shape[1..]));
    }
  }

  lemma TimesPositive(x: int, y: int)
    requires x >= 1 && y >= 1
    ensures x * y >= 1 && x * y >= x
  {
    assert x * y == x + x * (y - 1);
    assert x * (y - 1) >= 0;
  }

  /** Positive extents only make the product grow. */
  lemma ProductGrows(shape: seq<int>, k: nat)
    requires k <= |shape| && forall i :: 0 <= i < |shape| ==> shape[i] > 0
    ensures Product(shape[..k]) <= Product(shape)
  {
    assert shape == shape[..k] + shape[k..];
    ProductAppend(shape[..k], shape[k..]);
    ProductPositive(shape[..k]);
    ProductPositive(shape[k..]);
    TimesPositive(Product(shape[..k]), Product(shape[k..]));
  }

  lemma ProductStep(shape: seq<int>, i: nat)
    requires i < |shape|
    ensures Product(shape[..i + 1]) == Product(shape[..i]) * shape[i]
  {
    assert shape[..i + 1] == shape[..i] + [shape[i]];
    ProductAppend(shape[..i], [shape[i]]);
    assert Product([shape[i]]) == shape[i] * Product([shape[i]][1..]);
  }

  /** The guard before a multiplication: the quotient is exceeded exactly when the product is. */
  lemma GuardIsExact(count: nat, extent: nat)
    requires extent > 0
    ensures count > (SIZE_LIMIT - 1) / extent <==> count * extent >= SIZE_LIMIT
  {
    var q := (SIZE_LIMIT - 1) / extent;
    if count > q {
      TimesMonotone(q + 1, count, extent);
      assert (q + 1) * extent == q * extent + extent;
    } else {
      TimesMonotone(count, q, extent);
    }
  }

  lemma TimesMonotone(a: nat, b: nat, x: nat)
    requires a <= b
    ensures a * x <= b * x
  {
    assert b * x == a * x + (b - a) * x;
  }

  method TensorElementCount(shape: seq<int>) returns (r: Count)
    ensures r == ElementCount(shape)
  {
    ghost var p := PositivePrefix(shape);
    var count: nat := 1;
    for i := 0 to |shape|
      invariant i <= |p| && count == Product(shape[..i]) && count < SIZE_LIMIT
    {
      if shape[i] <= 0 {
        assert i == |p|;
        return Counted(0);
      }
      assert i < |p|;
      ProductStep(shape, i);
      GuardIsExact(count, shape[i]);
      if count > (SIZE_LIMIT - 1) / shape[i] {
        assert p[..i + 1] == shape[..i + 1];
        ProductGrows(p, i + 1);
        return Overflowed;
      }
      count := count * shape[i];
    }
    assert p == shape && shape[..|shape|] == shape;
    r := Counted(count);
  }

  /** A count is never a wrapped product: with positive extents it is the product itself. */
  lemma CountIsTrue(shape: seq<int>, n: nat)
    requires NonNegative(shape) && ElementCount(shape) == Counted(n)
    ensures n == Product(shape)
  {
    var p := PositivePrefix(shape);
    if p != shape {
      ZeroProduct(shape, |p|);
    }
  }

  lemma {:induction false} ZeroProduct(shape: seq<int>, k: nat)
    requires k < |shape| && shape[k] == 0
    ensures Product(shape) == 0
    decreases k
  {
    if k > 0 {
      ZeroProduct(shape[1..], k - 1);
    }
  }

  // --------------------------------------------------------------- requests

  /** The `data` array of an input, as read for a BYTES and for a numeric tensor; absent where it does not read as one. */
  datatype Inline = Inline(strings: Option<seq<string>>, numbers: Option<seq<Byte>>)

  /** One input of the parsed header; `size` is its binary data size if it has one. */
  datatype Node = Node(name: string, dtype: DType, shape: Option<seq<int>>, size: Option<nat>, data: Option<Inline>)

  datatype Parsed = Accepted(inputs: seq<Tensor>) | Rejected(message: string)

  /** An extent the model leaves open is given as a negative number. */
  predicate ShapeMatches(shape: Option<seq<int>>, meta: TensorMeta) {
    && shape.Some? && |shape.value| == |meta.shape|
    && forall i :: 0 <= i < |meta.shape| ==> shape.value[i] >= 0 && (meta.shape[i] >= 0 ==> shape.value[i] == meta.shape[i])
  }

  /** Elements held by a buffer; a remainder is dropped. */
  function HeldElements(dtype: DType, bytes: nat): nat {
    if ElementSize(dtype) == 0 then 0 else bytes / ElementSize(dtype)
  }

  function Names(nodes: seq<Node>): seq<string> {
    seq(|nodes|, i requires 0 <= i < |nodes| => nodes[i].name)
  }

  /** Bytes of the binary body an input takes. */
  function Taken(node: Node): nat {
    if node.size.Some? && !node.dtype.BYTES? then node.size.value else 0
  }

  function Widths(nodes: seq<Node>): seq<nat> {
    seq(|nodes|, i requires 0 <= i < |nodes| => Taken(nodes[i]))
  }

  /** What is wrong with the data of an input of `expected` elements, `left` bytes of the body being still unread. */
  function DataError(node: Node, expected: nat, left: nat): Option<string> {
    if node.dtype.BYTES? then
      if node.size.Some? then Some("binary BYTES input is not supported: " + node.name)
      else if node.data.None? || node.data.value.strings.None? then Some("input data values must be strings for BYTES input: " + node.name)
      else
        var n := |node.data.value.strings.value|;
        if n != 0 && expected != 0 && n != expected then Some("input data element count mismatch for input: " + node.name) else None
    else if node.size.Some? then
      if node.size.value > left then Some("binary tensor data exceeds request body")
      else if expected != 0 && HeldElements(node.dtype, node.size.value) != expected then Some("input data element count mismatch for input: " + node.name)
      else None
    else if node.data.None? || node.data.value.numbers.None? then Some("input data values must be numbers for input: " + node.name)
    else
      var n := |node.data.value.numbers.value|;
      if n != 0 && expected != 0 && HeldElements(node.dtype, n) != expected then Some("input data element count mismatch for input: " + node.name)
      else None
  }

  function NodeError(metas: seq<TensorMeta>, seen: seq<string>, node: Node, left: nat): Option<string> {
    if node.size.None? && node.data.None? then Some("input data must be an array")
    else if node.name in seen then Some("duplicate input: " + node.name)
    else
      match FindMeta(metas, node.name)
      case None => Some("unknown input: " + node.name)
      case Some(meta) =>
        if node.dtype != meta.dtype then Some("unsupported datatype for input: " + node.name)
        else if !ShapeMatches(node.shape, meta) then Some("invalid shape for input: " + node.name)
        else
          match ElementCount(node.shape.value)
          case Overflowed => Some("input shape element count overflows for input: " + node.name)
          case Counted(expected) => DataError(node, expected, left)
  }

  function TensorFrom(node: Node, bytes: seq<Byte>): Tensor {
    var shape := node.shape.GetOr([]);
    if node.dtype.BYTES? then Tensor(node.name, node.dtype, shape, [], if node.data.Some? then node.data.value.strings.GetOr([]) else [])
    else if node.size.Some? then Tensor(node.name, node.dtype, shape, bytes, [])
    else Tensor(node.name, node.dtype, shape, if node.data.Some? then node.data.value.numbers.GetOr([]) else [], [])
  }

  function MissingError(metas: seq<TensorMeta>, names: seq<string>): Option<string> {
    if metas == [] then None
    else if metas[0].name !in names then Some("missing required input: " + metas[0].name)
    else MissingError(metas[1..], names)
  }

  /** The first complaint about inputs `i` onwards, with `offset` bytes of the body already taken. */
  function ErrorFrom(metas: seq<TensorMeta>, nodes: seq<Node>, length: nat, i: nat, offset: nat): Option<string>
    requires i <= |nodes| && offset <= length
    decreases |nodes| - i
  {
    if i == |nodes| then if offset != length then Some("unused binary tensor data in request body") else MissingError(metas, Names(nodes))
    else
      var error := NodeError(metas, Names(nodes[..i]), nodes[i], length - offset);
      if error.Some? then error else ErrorFrom(metas, nodes, length, i + 1, TakenFits(metas, nodes[i], Names(nodes[..i]), length, offset))
  }

  /** An input without complaint takes no more than there is. */
  function TakenFits(metas: seq<TensorMeta>, node: Node, seen: seq<string>, length: nat, offset: nat): (next: nat)
    requires offset <= length && NodeError(metas, seen, node, length - offset).None?
    ensures next == offset + Taken(node) <= length
  {
    offset + Taken(node)
  }

  function RequestError(metas: seq<TensorMeta>, nodes: seq<Node>, length: nat): Option<string> {
    if nodes == [] then Some("inputs must not be empty") else ErrorFrom(metas, nodes, length, 0, 0)
  }

  /** Input `i` with its part of the body: the bytes behind those of the inputs before it. */
  function InputAt(nodes: seq<Node>, blob: seq<Byte>, i: nat): Tensor
    requires i < |nodes| && Sum(Widths(nodes)) == |blob|
  {
    TensorFrom(nodes[i], Pieces(blob, Widths(nodes))[i])
  }

  lemma WidthStep(nodes: seq<Node>, i: nat)
    requires i < |nodes|
    ensures Sum(Widths(nodes)[..i + 1]) == Sum(Widths(nodes)[..i]) + Taken(nodes[i])
  {
    var w := Widths(nodes);
    assert w[..i + 1][..i] == w[..i];
  }

  lemma NamesStep(nodes: seq<Node>, i: nat)
    requires i < |nodes|
    ensures Names(nodes[..i + 1]) == Names(nodes[..i]) + [nodes[i].name]
  {
  }

  /** The checks on one input, in order, and what it takes of the body. */
  method CheckNode(metas: seq<TensorMeta>, seen: seq<string>, node: Node, left: nat) returns (error: Option<string>)
    ensures error == NodeError(metas, seen, node, left)
  {
    if node.size.None? && node.data.None? {
      return Some("input data must be an array");
    }
    if node.name in seen {
      return Some("duplicate input: " + node.name);
    }
    var found := FindMeta(metas, node.name);
    if found.None? {
      return Some("unknown input: " + node.name);
    }
    if node.dtype != found.value.dtype {
      return Some("unsupported datatype for input: " + node.name);
    }
    if !ShapeMatches(node.shape, found.value) {
      return Some("invalid shape for input: " + node.name);
    }
    var count := TensorElementCount(node.shape.value);
    if count.Overflowed? {
      return Some("input shape element count overflows for input: " + node.name);
    }
    error := DataError(node, count.elements, left);
  }

  /** What the input loop has read before input `i`. */
  predicate ReadSoFar(nodes: seq<Node>, blob: seq<Byte>, inputs: seq<Tensor>, i: nat)
    requires i <= |nodes|
  {
    |inputs| == i && forall j :: 0 <= j < i ==> SliceFits(Widths(nodes), blob, j) && inputs[j] == TensorFrom(nodes[j], SliceAt(Widths(nodes), blob, j))
  }

  /** Input `i` passes its checks when the inputs before it have taken their parts. */
  predicate Passed(metas: seq<TensorMeta>, nodes: seq<Node>, length: nat, i: nat)
    requires i < |nodes|
  {
    var offset := Sum(Widths(nodes)[..i]);
    offset <= length && NodeError(metas, Names(nodes[..i]), nodes[i], length - offset).None?
  }

  /** Input `i` is the first that does not. */
  predicate FailsAt(metas: seq<TensorMeta>, nodes: seq<Node>, length: nat, i: nat, error: Option<string>)
    requires i < |nodes|
  {
    var offset := Sum(Widths(nodes)[..i]);
    && offset <= length && error.Some? && NodeError(metas, Names(nodes[..i]), nodes[i], length - offset) == error
    && forall j :: 0 <= j < i ==> Passed(metas, nodes, length, j)
  }

  lemma PassedStep(metas: seq<TensorMeta>, nodes: seq<Node>, length: nat, i: nat, next: nat, offset: nat, after: nat)
    requires i < |nodes| && next == i + 1 && Passed(metas, nodes, length, i)
    requires offset == Sum(Widths(nodes)[..i]) && after == Sum(Widths(nodes)[..next])
    ensures offset <= length && after <= length
    ensures ErrorFrom(metas, nodes, length, i, offset) == ErrorFrom(metas, nodes, length, next, after)
  {
    var taken := TakenFits(metas, nodes[i], Names(nodes[..i]), length, offset);
    WidthStep(nodes, i);
  }

  /** Inputs that pass are stepped over. */
  lemma {:induction false} PassedSkip(metas: seq<TensorMeta>, nodes: seq<Node>, length: nat, k: nat, offset: nat)
    requires k <= |nodes| && offset == Sum(Widths(nodes)[..k])
    requires forall j :: 0 <= j < k ==> Passed(metas, nodes, length, j)
    ensures offset <= length && ErrorFrom(metas, nodes, length, 0, 0) == ErrorFrom(metas, nodes, length, k, offset)
    decreases k
  {
    if k == 0 {
      assert Widths(nodes)[..0] == [];
    } else {
      var before := Sum(Widths(nodes)[..k - 1]);
      PassedSkip(metas, nodes, length, k - 1, before);
      PassedStep(metas, nodes, length, k - 1, k, before, offset);
    }
  }

  lemma FailureIsVerdict(metas: seq<TensorMeta>, nodes: seq<Node>, length: nat, i: nat, error: Option<string>)
    requires i < |nodes| && FailsAt(metas, nodes, length, i, error)
    ensures RequestError(metas, nodes, length) == error
  {
    PassedSkip(metas, nodes, length, i, Sum(Widths(nodes)[..i]));
  }

  lemma AllPassedVerdict(metas: seq<TensorMeta>, nodes: seq<Node>, length: nat)
    requires nodes != [] && forall j :: 0 <= j < |nodes| ==> Passed(metas, nodes, length, j)
    ensures Sum(Widths(nodes)) <= length
    ensures RequestError(metas, nodes, length) ==
      if Sum(Widths(nodes)) != length then Some("unused binary tensor data in request body") else MissingError(metas, Names(nodes))
  {
    PassedSkip(metas, nodes, length, |nodes|, Sum(Widths(nodes)[..|nodes|]));
    assert Widths(nodes)[..|nodes|] == Widths(nodes);
  }

  lemma ReadOne(metas: seq<TensorMeta>, nodes: seq<Node>, blob: seq<Byte>, i: nat, next: nat, offset: nat)
    requires i < |nodes| && next == i + 1 && offset == Sum(Widths(nodes)[..i]) && Passed(metas, nodes, |blob|, i)
    ensures offset + Taken(nodes[i]) == Sum(Widths(nodes)[..next]) <= |blob|
    ensures SliceFits(Widths(nodes), blob, i) && SliceAt(Widths(nodes), blob, i) == blob[offset..offset + Taken(nodes[i])]
    ensures Names(nodes[..next]) == Names(nodes[..i]) + [nodes[i].name]
  {
    var after := TakenFits(metas, nodes[i], Names(nodes[..i]), |blob|, offset);
    WidthStep(nodes, i);
    NamesStep(nodes, i);
  }

  /** One turn of the input loop. */
  method ReadNode(metas: seq<TensorMeta>, nodes: seq<Node>, blob: seq<Byte>, i: nat, next: nat, offset: nat, seen: seq<string>)
    returns (error: Option<string>, tensor: Tensor)
    requires i < |nodes| && next == i + 1 && offset == Sum(Widths(nodes)[..i]) <= |blob| && seen == Names(nodes[..i])
    ensures error.None? ==> Passed(metas, nodes, |blob|, i) && seen + [nodes[i].name] == Names(nodes[..next])
    ensures error.None? ==> offset + Taken(nodes[i]) == Sum(Widths(nodes)[..next]) <= |blob|
    ensures error.None? ==> SliceFits(Widths(nodes), blob, i) && tensor == TensorFrom(nodes[i], SliceAt(Widths(nodes), blob, i))
    ensures error.Some? ==> (forall j :: 0 <= j < i ==> Passed(metas, nodes, |blob|, j)) ==> FailsAt(metas, nodes, |blob|, i, error)
  {
    tensor := TensorFrom(nodes[i], []);
    error := CheckNode(metas, seen, nodes[i], |blob| - offset);
    if error.None? {
      assert Passed(metas, nodes, |blob|, i);
      ReadOne(metas, nodes, blob, i, next, offset);
      tensor := TensorFrom(nodes[i], blob[offset..offset + Taken(nodes[i])]);
    }
  }

  /** What holds when the input loop reaches input `i`. */
  ghost predicate Reached(metas: seq<TensorMeta>, nodes: seq<Node>, blob: seq<Byte>, i: nat, offset: nat, seen: seq<string>, inputs: seq<Tensor>)
    requires i <= |nodes|
  {
    && offset == Sum(Widths(nodes)[..i]) <= |blob| && seen == Names(nodes[..i]) && ReadSoFar(nodes, blob, inputs, i)
    && PassedBefore(metas, nodes, |blob|, i)
  }

  predicate PassedBefore(metas: seq<TensorMeta>, nodes: seq<Node>, length: nat, i: nat)
    requires i <= |nodes|
  {
    forall j :: 0 <= j < i ==> Passed(metas, nodes, length, j)
  }

  lemma PassedNext(metas: seq<TensorMeta>, nodes: seq<Node>, length: nat, i: nat, next: nat)
    requires i < |nodes| && next == i + 1 && PassedBefore(metas, nodes, length, i) && Passed(metas, nodes, length, i)
    ensures PassedBefore(metas, nodes, length, next)
  {
  }

  lemma StartReached(metas: seq<TensorMeta>, nodes: seq<Node>, blob: seq<Byte>)
    ensures Reached(metas, nodes, blob, 0, 0, [], [])
  {
  }

  lemma NextReached(
      metas: seq<TensorMeta>, nodes: seq<Node>, blob: seq<Byte>, i: nat, next: nat, offset: nat, seen: seq<string>, inputs: seq<Tensor>, tensor: Tensor)
    requires i < |nodes| && next == i + 1 && Reached(metas, nodes, blob, i, offset, seen, inputs)
    requires Passed(metas, nodes, |blob|, i) && seen + [nodes[i].name] == Names(nodes[..next])
    requires offset + Taken(nodes[i]) == Sum(Widths(nodes)[..next]) <= |blob|
    requires SliceFits(Widths(nodes), blob, i) && tensor == TensorFrom(nodes[i], SliceAt(Widths(nodes), blob, i))
    ensures Reached(metas, nodes, blob, next, offset + Taken(nodes[i]), seen + [nodes[i].name], inputs + [tensor])
  {
    ReadMore(nodes, blob, inputs, i, next, tensor);
    PassedNext(metas, nodes, |blob|, i, next);
  }

  lemma ReadMore(nodes: seq<Node>, blob: seq<Byte>, inputs: seq<Tensor>, i: nat, next: nat, tensor: Tensor)
    requires i < |nodes| && next == i + 1 && ReadSoFar(nodes, blob, inputs, i)
    requires SliceFits(Widths(nodes), blob, i) && tensor == TensorFrom(nodes[i], SliceAt(Widths(nodes), blob, i))
    ensures ReadSoFar(nodes, blob, inputs + [tensor], next)
  {
    var widths := Widths(nodes);
    forall j | 0 <= j < next ensures SliceFits(widths, blob, j) && (inputs + [tensor])[j] == TensorFrom(nodes[j], SliceAt(widths, blob, j)) {
      if j < i {
        assert SliceFits(widths, blob, j) && inputs[j] == TensorFrom(nodes[j], SliceAt(widths, blob, j));
      }
    }
  }

  lemma EndReached(metas: seq<TensorMeta>, nodes: seq<Node>, blob: seq<Byte>, offset: nat, seen: seq<string>, inputs: seq<Tensor>)
    requires Reached(metas, nodes, blob, |nodes|, offset, seen, inputs)
    ensures offset == Sum(Widths(nodes)) <= |blob| && seen == Names(nodes)
  {
    assert Widths(nodes)[..|nodes|] == Widths(nodes) && nodes[..|nodes|] == nodes;
  }

  /** The input loop of `parseInferenceRequest`; `at` is where it stopped. */
  method ReadInputs(metas: seq<TensorMeta>, nodes: seq<Node>, blob: seq<Byte>)
    returns (error: Option<string>, inputs: seq<Tensor>, offset: nat, seen: seq<string>, ghost at: nat)
    ensures error.Some? ==> at < |nodes| && FailsAt(metas, nodes, |blob|, at, error)
    ensures error.None? ==> Reached(metas, nodes, blob, |nodes|, offset, seen, inputs)
  {
    offset, seen, inputs, at := 0, [], [], 0;
    StartReached(metas, nodes, blob);
    for i := 0 to |nodes|
      invariant Reached(metas, nodes, blob, i, offset, seen, inputs)
    {
      var tensor;
      error, tensor := ReadNode(metas, nodes, blob, i, i + 1, offset, seen);
      if error.Some? {
        at := i;
        return;
      }
      NextReached(metas, nodes, blob, i, i + 1, offset, seen, inputs, tensor);
      inputs := inputs + [tensor];
      seen := seen + [nodes[i].name];
      offset := offset + Taken(nodes[i]);
    }
    error := None;
  }

  /** The inputs of a request, or the first complaint about them. */
  method ParseInputs(metas: seq<TensorMeta>, nodes: seq<Node>, blob: seq<Byte>) returns (r: Parsed)
    ensures r.Rejected? <==> RequestError(metas, nodes, |blob|).Some?
    ensures r.Rejected? ==> r.message == RequestError(metas, nodes, |blob|).value
    ensures r.Accepted? ==> |r.inputs| == |nodes| && Sum(Widths(nodes)) == |blob|
    ensures r.Accepted? ==> forall i :: 0 <= i < |nodes| ==> r.inputs[i] == InputAt(nodes, blob, i)
  {
    if nodes == [] {
      return Rejected("inputs must not be empty");
    }
    var error, inputs, offset, seen, at := ReadInputs(metas, nodes, blob);
    if error.Some? {
      FailureIsVerdict(metas, nodes, |blob|, at, error);
      return Rejected(error.value);
    }
    EndReached(metas, nodes, blob, offset, seen, inputs);
    AllPassedVerdict(metas, nodes, |blob|);
    if offset != |blob| {
      return Rejected("unused binary tensor data in request body");
    }
    var missing := CheckPresent(metas, seen);
    r := if missing.Some? then Rejected(missing.value) else Accepted(inputs);
  }

  predicate SliceFits(widths: seq<nat>, blob: seq<Byte>, j: nat) {
    j < |widths| && Sum(widths[..j]) + widths[j] <= |blob|
  }

  function SliceAt(widths: seq<nat>, blob: seq<Byte>, j: nat): seq<Byte>
    requires SliceFits(widths, blob, j)
  {
    blob[Sum(widths[..j])..Sum(widths[..j]) + widths[j]]
  }

  method CheckPresent(metas: seq<TensorMeta>, names: seq<string>) returns (error: Option<string>)
    ensures error == MissingError(metas, names)
  {
    for i := 0 to |metas|
      invariant MissingError(metas, names) == MissingError(metas[i..], names)
    {
      assert metas[i..][0] == metas[i] && metas[i..][1..] == metas[i + 1..];
      if metas[i].name !in names {
        return Some("missing required input: " + metas[i].name);
      }
    }
    error := None;
  }

  // ------------------------------------------------- what an accepted request is

  predicate DistinctStrings(names: seq<string>) {
    forall i, j :: 0 <= i < j < |names| ==> names[i] != names[j]
  }

  lemma {:induction false} AllPassed(metas: seq<TensorMeta>, nodes: seq<Node>, length: nat, i: nat, offset: nat)
    requires i <= |nodes| && offset == Sum(Widths(nodes)[..i]) <= length && ErrorFrom(metas, nodes, length, i, offset).None?
    ensures forall j :: i <= j < |nodes| ==> Passed(metas, nodes, length, j)
    ensures Sum(Widths(nodes)) == length && MissingError(metas, Names(nodes)).None?
    decreases |nodes| - i
  {
    if i == |nodes| {
      assert Widths(nodes)[..i] == Widths(nodes);
    } else {
      NoErrorPasses(metas, nodes, length, i, offset);
      var after := Sum(Widths(nodes)[..i + 1]);
      PassedStep(metas, nodes, length, i, i + 1, offset, after);
      AllPassed(metas, nodes, length, i + 1, after);
    }
  }

  lemma NoErrorPasses(metas: seq<TensorMeta>, nodes: seq<Node>, length: nat, i: nat, offset: nat)
    requires i < |nodes| && offset == Sum(Widths(nodes)[..i]) <= length && ErrorFrom(metas, nodes, length, i, offset).None?
    ensures Passed(metas, nodes, length, i)
  {
  }

  lemma {:induction false} NoneMissing(metas: seq<TensorMeta>, names: seq<string>)
    requires MissingError(metas, names).None?
    ensures forall m :: m in metas ==> m.name in names
  {
    if metas != [] {
      NoneMissing(metas[1..], names);
    }
  }

  lemma {:induction false} FoundMeta(metas: seq<TensorMeta>, name: string)
    ensures FindMeta(metas, name).Some? ==> FindMeta(metas, name).value in metas && FindMeta(metas, name).value.name == name
  {
    if metas != [] {
      FoundMeta(metas[1..], name);
    }
  }

  /** An accepted request names every input of the model exactly once, and nothing else. */
  lemma AcceptedNamesInputs(metas: seq<TensorMeta>, nodes: seq<Node>, length: nat)
    requires RequestError(metas, nodes, length).None?
    ensures DistinctStrings(Names(nodes))
    ensures forall name :: name in Names(nodes) <==> exists m :: m in metas && m.name == name
  {
    assert Widths(nodes)[..0] == [];
    AllPassed(metas, nodes, length, 0, 0);
    NoneMissing(metas, Names(nodes));
    forall i | 0 <= i < |nodes| ensures nodes[i].name !in Names(nodes[..i]) && exists m :: m in metas && m.name == nodes[i].name {
      assert Passed(metas, nodes, length, i);
      FoundMeta(metas, nodes[i].name);
    }
    forall i, j | 0 <= i < j < |nodes| ensures Names(nodes)[i] != Names(nodes)[j] {
      assert Names(nodes[..j])[i] == nodes[i].name;
    }
  }

  /**
   * The parts of an accepted request partition its body in order, with nothing left over; a part of a binary tensor holds as
   * many whole elements as its shape, whose count is not a wrapped product.
   */
  lemma AcceptedPartitionsBody(metas: seq<TensorMeta>, nodes: seq<Node>, blob: seq<Byte>)
    requires RequestError(metas, nodes, |blob|).None?
    ensures Sum(Widths(nodes)) == |blob| && Concat(Pieces(blob, Widths(nodes))) == blob
    ensures forall i :: 0 <= i < |nodes| && Taken(nodes[i]) > 0 ==>
      && InputAt(nodes, blob, i).bytes == Pieces(blob, Widths(nodes))[i] && |InputAt(nodes, blob, i).bytes| == nodes[i].size.value
      && (Product(InputAt(nodes, blob, i).shape) != 0 ==>
            HeldElements(nodes[i].dtype, |InputAt(nodes, blob, i).bytes|) == Product(InputAt(nodes, blob, i).shape))
  {
    var widths := Widths(nodes);
    assert widths[..0] == [];
    AllPassed(metas, nodes, |blob|, 0, 0);
    PiecesConcat(blob, widths, |nodes|);
    assert widths[..|nodes|] == widths && Pieces(blob, widths)[..|nodes|] == Pieces(blob, widths);
    forall i | 0 <= i < |nodes| && Taken(nodes[i]) > 0
      ensures InputAt(nodes, blob, i).bytes == Pieces(blob, widths)[i] && |Pieces(blob, widths)[i]| == nodes[i].size.value
      ensures Product(InputAt(nodes, blob, i).shape) != 0 ==> HeldElements(nodes[i].dtype, nodes[i].size.value) == Product(InputAt(nodes, blob, i).shape)
    {
      assert Passed(metas, nodes, |blob|, i);
      PassedCount(metas, nodes, |blob|, i);
    }
  }

  /** The extents are those of the model input: as many, none negative, and equal to each one that is fixed. */
  predicate HasShape(node: Node, meta: TensorMeta) {
    && node.shape.Some? && |node.shape.value| == |meta.shape|
    && (forall i :: 0 <= i < |meta.shape| ==> node.shape.value[i] >= 0)
    && (forall i :: 0 <= i < |meta.shape| && meta.shape[i] >= 0 ==> node.shape.value[i] == meta.shape[i])
  }

  /** Element counts are taken in 64 bits; the extents up to the first zero must not leave them. */
  ghost predicate Countable(shape: seq<int>) {
    forall k :: 0 <= k <= |shape| && (forall i :: 0 <= i < k ==> shape[i] > 0) ==> Product(shape[..k]) < 0x1_0000_0000_0000_0000
  }

  /** As many bytes as `count` elements take, up to a part of one more; any number where the shape has no elements. */
  predicate HoldsCount(dtype: DType, bytes: nat, count: int) {
    count == 0 || count * ElementSize(dtype) <= bytes < (count + 1) * ElementSize(dtype)
  }

  /** The data of an input: strings for BYTES, else a binary part or a list of numbers. An empty list stands for any count. */
  predicate HasData(node: Node, count: int) {
    if node.dtype.BYTES? then
      && node.size.None? && node.data.Some? && node.data.value.strings.Some?
      && var n := |node.data.value.strings.value|; n == 0 || count == 0 || n == count
    else if node.size.Some? then HoldsCount(node.dtype, node.size.value, count)
    else
      && node.data.Some? && node.data.value.numbers.Some?
      && var n := |node.data.value.numbers.value|; n == 0 || HoldsCount(node.dtype, n, count)
  }

  ghost predicate Fits(metas: seq<TensorMeta>, node: Node) {
    exists m: nat :: Declares(metas, m, node.name) && node.dtype == metas[m].dtype && HasShape(node, metas[m])
                && Countable(node.shape.value) && HasData(node, Product(node.shape.value))
  }

  /**
   * Which requests are accepted: at least one input, none named twice, each one of the model's with its datatype, its shape and
   * data to match; every model input there; and binary parts that use up the body.
   */
  lemma AcceptedExactly(metas: seq<TensorMeta>, nodes: seq<Node>, length: nat)
    ensures RequestError(metas, nodes, length).None? <==>
      && nodes != [] && DistinctStrings(Names(nodes)) && (forall i :: 0 <= i < |nodes| ==> Fits(metas, nodes[i]))
      && (forall m :: m in metas ==> m.name in Names(nodes)) && Sum(Widths(nodes)) == length
  {
    if RequestError(metas, nodes, length).None? {
      AcceptedFits(metas, nodes, length);
    }
    if nodes != [] && DistinctStrings(Names(nodes)) && (forall i :: 0 <= i < |nodes| ==> Fits(metas, nodes[i]))
       && (forall m :: m in metas ==> m.name in Names(nodes)) && Sum(Widths(nodes)) == length {
      FittingAccepted(metas, nodes, length);
    }
  }

  lemma AcceptedFits(metas: seq<TensorMeta>, nodes: seq<Node>, length: nat)
    requires RequestError(metas, nodes, length).None?
    ensures nodes != [] && DistinctStrings(Names(nodes)) && Sum(Widths(nodes)) == length
    ensures forall i :: 0 <= i < |nodes| ==> Fits(metas, nodes[i])
    ensures forall m :: m in metas ==> m.name in Names(nodes)
  {
    assert Widths(nodes)[..0] == [];
    AllPassed(metas, nodes, length, 0, 0);
    AcceptedNamesInputs(metas, nodes, length);
    NoneMissing(metas, Names(nodes));
    forall i | 0 <= i < |nodes| ensures Fits(metas, nodes[i]) {
      assert Passed(metas, nodes, length, i);
      NodeFits(metas, Names(nodes[..i]), nodes[i], length - Sum(Widths(nodes)[..i]));
    }
  }

  lemma FittingAccepted(metas: seq<TensorMeta>, nodes: seq<Node>, length: nat)
    requires nodes != [] && DistinctStrings(Names(nodes)) && Sum(Widths(nodes)) == length
    requires forall i :: 0 <= i < |nodes| ==> Fits(metas, nodes[i])
    requires forall m :: m in metas ==> m.name in Names(nodes)
    ensures RequestError(metas, nodes, length).None?
  {
    forall i | 0 <= i < |nodes| ensures Passed(metas, nodes, length, i) {
      FittingPassed(metas, nodes, length, i);
    }
    AllPassedVerdict(metas, nodes, length);
    AllThere(metas, Names(nodes));
  }

  lemma FittingPassed(metas: seq<TensorMeta>, nodes: seq<Node>, length: nat, i: nat)
    requires DistinctStrings(Names(nodes)) && Sum(Widths(nodes)) == length && i < |nodes| && Fits(metas, nodes[i])
    ensures Passed(metas, nodes, length, i)
  {
    SumPrefix(Widths(nodes), i);
    var seen := Names(nodes[..i]);
    assert forall j :: 0 <= j < i ==> seen[j] == Names(nodes)[j];
    assert nodes[i].name == Names(nodes)[i] && nodes[i].name !in seen;
    NodeFits(metas, seen, nodes[i], length - Sum(Widths(nodes)[..i]));
  }

  lemma {:induction false} AllThere(metas: seq<TensorMeta>, names: seq<string>)
    requires forall m :: m in metas ==> m.name in names
    ensures MissingError(metas, names).None?
  {
    if metas != [] {
      AllThere(metas[1..], names);
    }
  }

  /** The checks on one input, apart from its place in the request, are what `Fits` says. */
  lemma NodeFits(metas: seq<TensorMeta>, seen: seq<string>, node: Node, left: nat)
    ensures NodeError(metas, seen, node, left).None? <==> Fits(metas, node) && node.name !in seen && Taken(node) <= left
  {
    if FindMeta(metas, node.name).Some? {
      var m := FirstIsFound(metas, node.name);
      FindIsFirst(metas, m, node.name);
      OnlyFirst(metas, m, node);
      var meta := metas[m];
      assert ShapeMatches(node.shape, meta) <==> HasShape(node, meta);
      if HasShape(node, meta) {
        CountableIsCounted(node.shape.value);
        if Countable(node.shape.value) {
          DataFits(node, Product(node.shape.value), left);
        }
      }
    } else if Fits(metas, node) {
      var m: nat :| Declares(metas, m, node.name);
      FindIsFirst(metas, m, node.name);
    }
  }

  lemma OnlyFirst(metas: seq<TensorMeta>, m: nat, node: Node)
    requires Declares(metas, m, node.name)
    ensures Fits(metas, node) <==>
      node.dtype == metas[m].dtype && HasShape(node, metas[m]) && Countable(node.shape.value) && HasData(node, Product(node.shape.value))
  {
    if Fits(metas, node) {
      var k: nat :| Declares(metas, k, node.name) && node.dtype == metas[k].dtype && HasShape(node, metas[k])
                    && Countable(node.shape.value) && HasData(node, Product(node.shape.value));
      assert k == m;
    }
  }

  lemma CountableIsCounted(shape: seq<int>)
    requires NonNegative(shape)
    ensures Countable(shape) <==> ElementCount(shape).Counted?
    ensures Countable(shape) ==> ElementCount(shape) == Counted(Product(shape))
  {
    PrefixDecides(shape, PositivePrefix(shape));
    if Countable(shape) {
      CountIsTrue(shape, ElementCount(shape).elements);
    }
  }

  lemma PrefixDecides(shape: seq<int>, p: seq<int>)
    requires p == PositivePrefix(shape)
    ensures Countable(shape) <==> Product(p) < SIZE_LIMIT
  {
    assert shape[..|p|] == p;
    if Product(p) < SIZE_LIMIT {
      forall k | 0 <= k <= |shape| && forall i :: 0 <= i < k ==> shape[i] > 0 ensures Product(shape[..k]) < SIZE_LIMIT {
        WithinPrefix(shape, p, k);
      }
    }
  }

  lemma WithinPrefix(shape: seq<int>, p: seq<int>, k: nat)
    requires p == PositivePrefix(shape) && k <= |shape| && forall i :: 0 <= i < k ==> shape[i] > 0
    ensures Product(shape[..k]) <= Product(p)
  {
    assert k <= |p|;
    assert p[..k] == shape[..k];
    ProductGrows(p, k);
  }

  lemma DataFits(node: Node, count: nat, left: nat)
    ensures DataError(node, count, left).None? <==>
      HasData(node, count) && (node.size.Some? && !node.dtype.BYTES? ==> node.size.value <= left)
    ensures HasData(node, count) ==> node.size.Some? || node.data.Some?
  {
    if node.size.Some? {
      HeldExactly(node.dtype, count, node.size.value);
    } else if node.data.Some? && node.data.value.numbers.Some? {
      HeldExactly(node.dtype, count, |node.data.value.numbers.value|);
    }
  }

  lemma HeldExactly(dtype: DType, count: nat, bytes: nat)
    ensures HoldsCount(dtype, bytes, count) <==> count == 0 || HeldElements(dtype, bytes) == count
  {
    if ElementSize(dtype) > 0 {
      CountAllowsRemainder(dtype, count, bytes);
    }
  }

  /** The complaint about an input whose model input is entry `m`: the first of these that applies. */
  lemma NodeComplaint(metas: seq<TensorMeta>, m: nat, seen: seq<string>, node: Node, left: nat)
    requires Declares(metas, m, node.name)
    ensures var e := NodeError(metas, seen, node, left);
      if node.size.None? && node.data.None? then e == Some("input data must be an array")
      else if node.name in seen then e == Some("duplicate input: " + node.name)
      else if node.dtype != metas[m].dtype then e == Some("unsupported datatype for input: " + node.name)
      else if !HasShape(node, metas[m]) then e == Some("invalid shape for input: " + node.name)
      else if !Countable(node.shape.value) then e == Some("input shape element count overflows for input: " + node.name)
      else if node.dtype.BYTES? && node.size.Some? then e == Some("binary BYTES input is not supported: " + node.name)
      else if node.dtype.BYTES? && (node.data.None? || node.data.value.strings.None?) then
        e == Some("input data values must be strings for BYTES input: " + node.name)
      else if !node.dtype.BYTES? && node.size.None? && (node.data.None? || node.data.value.numbers.None?) then
        e == Some("input data values must be numbers for input: " + node.name)
      else if node.size.Some? && node.size.value > left then e == Some("binary tensor data exceeds request body")
      else if !HasData(node, Product(node.shape.value)) then e == Some("input data element count mismatch for input: " + node.name)
      else e == None
  {
    FindIsFirst(metas, m, node.name);
    assert ShapeMatches(node.shape, metas[m]) <==> HasShape(node, metas[m]);
    if HasShape(node, metas[m]) {
      CountableIsCounted(node.shape.value);
      if Countable(node.shape.value) {
        DataFits(node, Product(node.shape.value), left);
      }
    }
  }

  lemma UnknownComplaint(metas: seq<TensorMeta>, seen: seq<string>, node: Node, left: nat)
    requires (node.size.Some? || node.data.Some?) && node.name !in seen && forall m :: m in metas ==> m.name != node.name
    ensures NodeError(metas, seen, node, left) == Some("unknown input: " + node.name)
  {
    FoundMeta(metas, node.name);
  }

  /** The complaint about a whole request: that of the first input there is one about, else the body left over, else the first model input missing. */
  lemma RequestComplaint(metas: seq<TensorMeta>, nodes: seq<Node>, length: nat, i: nat, m: nat)
    ensures nodes == [] ==> RequestError(metas, nodes, length) == Some("inputs must not be empty")
    ensures i < |nodes| && Passes(metas, nodes, length, i) && !Passes(metas, nodes, length, i + 1) ==>
      && Sum(Widths(nodes)[..i]) <= length
      && RequestError(metas, nodes, length) == NodeError(metas, Names(nodes[..i]), nodes[i], length - Sum(Widths(nodes)[..i]))
    ensures nodes != [] && Passes(metas, nodes, length, |nodes|) && Sum(Widths(nodes)) != length ==>
      RequestError(metas, nodes, length) == Some("unused binary tensor data in request body")
    ensures nodes != [] && Passes(metas, nodes, length, |nodes|) && Sum(Widths(nodes)) == length && FirstMissing(metas, Names(nodes), m) ==>
      RequestError(metas, nodes, length) == Some("missing required input: " + metas[m].name)
  {
    if i < |nodes| && Passes(metas, nodes, length, i) && !Passes(metas, nodes, length, i + 1) {
      FirstToFail(metas, nodes, length, i);
    }
    if nodes != [] && Passes(metas, nodes, length, |nodes|) {
      AllPassedVerdict(metas, nodes, length);
      if FirstMissing(metas, Names(nodes), m) {
        FirstMissingFound(metas, Names(nodes), m);
      }
    }
  }

  /** There is no complaint about the first `n` inputs. */
  predicate Passes(metas: seq<TensorMeta>, nodes: seq<Node>, length: nat, n: nat) {
    n <= |nodes| && forall j :: 0 <= j < n ==> Passed(metas, nodes, length, j)
  }

  predicate FirstMissing(metas: seq<TensorMeta>, names: seq<string>, m: nat) {
    m < |metas| && metas[m].name !in names && forall k :: 0 <= k < m ==> metas[k].name in names
  }

  lemma FirstToFail(metas: seq<TensorMeta>, nodes: seq<Node>, length: nat, i: nat)
    requires i < |nodes| && Passes(metas, nodes, length, i) && !Passes(metas, nodes, length, i + 1)
    ensures Sum(Widths(nodes)[..i]) <= length
    ensures RequestError(metas, nodes, length) == NodeError(metas, Names(nodes[..i]), nodes[i], length - Sum(Widths(nodes)[..i]))
  {
    var offset := Sum(Widths(nodes)[..i]);
    PassedSkip(metas, nodes, length, i, offset);
    assert !Passed(metas, nodes, length, i);
  }

  lemma {:induction false} FirstMissingFound(metas: seq<TensorMeta>, names: seq<string>, m: nat)
    requires FirstMissing(metas, names, m)
    ensures MissingError(metas, names) == Some("missing required input: " + metas[m].name)
    decreases m
  {
    if m > 0 {
      assert forall k :: 0 <= k < m ==> metas[1..][k] == metas[k + 1];
      FirstMissingFound(metas[1..], names, m - 1);
    }
  }

  /** The inputs of an accepted request are those of the header, in order, each with its own strings, its own numbers or its own part of the body. */
  lemma AcceptedInputs(metas: seq<TensorMeta>, nodes: seq<Node>, blob: seq<Byte>, i: nat)
    requires RequestError(metas, nodes, |blob|).None? && i < |nodes|
    ensures Sum(Widths(nodes)) == |blob|
    ensures var t, node := InputAt(nodes, blob, i), nodes[i];
      && t.name == node.name && t.dtype == node.dtype && node.shape == Some(t.shape)
      && (if node.dtype.BYTES? then t.bytes == [] && node.data.Some? && node.data.value.strings == Some(t.strings)
          else if node.size.Some? then t.strings == [] && t.bytes == Pieces(blob, Widths(nodes))[i] && Widths(nodes)[i] == node.size.value
          else t.strings == [] && node.data.Some? && node.data.value.numbers == Some(t.bytes) && Widths(nodes)[i] == 0)
  {
    AcceptedFits(metas, nodes, |blob|);
    assert Fits(metas, nodes[i]);
  }

  /**
   * The element count is compared after a division, so a part may run over its last element: `n` elements are accepted
   * exactly for `n` times the element size up to, not including, one element more.
   */
  lemma CountAllowsRemainder(dtype: DType, n: nat, bytes: nat)
    requires ElementSize(dtype) > 0
    ensures HeldElements(dtype, bytes) == n <==> n * ElementSize(dtype) <= bytes < (n + 1) * ElementSize(dtype)
  {
    var w, q := ElementSize(dtype), HeldElements(dtype, bytes);
    if n > q {
      TimesMonotone(q + 1, n, w);
    } else if n < q {
      TimesMonotone(n + 1, q, w);
    }
  }

  /** One FP32 element sent with seven bytes: the request is accepted and the tensor keeps the three stray ones. */
  lemma StrayBytesAccepted() returns (metas: seq<TensorMeta>, nodes: seq<Node>, blob: seq<Byte>)
    ensures RequestError(metas, nodes, |blob|).None? && Sum(Widths(nodes)) == |blob| && |nodes| == 1
    ensures var t := InputAt(nodes, blob, 0); |t.bytes| == 7 && Product(t.shape) * ElementSize(t.dtype) == 4
  {
    metas := [TensorMeta("x", FP32, [1])];
    nodes := [Node("x", FP32, Some([1]), Some(7), None)];
    blob := [0, 0, 0, 0, 1, 2, 3];
    assert [1][1..] == [] && Product([1]) == 1 && PositivePrefix([1]) == [1];
    assert ElementCount([1]) == Counted(1) && HeldElements(FP32, 7) == 1;
    assert Widths(nodes) == [7] && [7][..0] == [] && Sum([7]) == 7;
    assert nodes[..0] == [] && Names([]) == [] && Names(nodes) == ["x"];
    assert NodeError(metas, [], nodes[0], 7).None?;
    assert Passed(metas, nodes, 7, 0);
    AllPassedVerdict(metas, nodes, 7);
    assert metas[1..] == [];
  }

  lemma PassedCount(metas: seq<TensorMeta>, nodes: seq<Node>, length: nat, i: nat)
    requires i < |nodes| && Passed(metas, nodes, length, i) && Taken(nodes[i]) > 0
    ensures nodes[i].shape.Some? && NonNegative(nodes[i].shape.value)
    ensures var n := Product(nodes[i].shape.value); n != 0 ==> HeldElements(nodes[i].dtype, nodes[i].size.value) == n
  {
    var shape := nodes[i].shape.value;
    assert NonNegative(shape);
    CountIsTrue(shape, ElementCount(shape).elements);
  }

  // ------------------------------------------------------------- responses

  /** The header entry of an output: BYTES values inline, everything else by size. */
  function NodeOf(t: Tensor): Node {
    if t.dtype.BYTES? then Node(t.name, t.dtype, Some(t.shape), None, Some(Inline(Some(t.strings), None)))
    else Node(t.name, t.dtype, Some(t.shape), Some(|t.bytes|), None)
  }

  function NodesOf(tensors: seq<Tensor>): seq<Node> {
    seq(|tensors|, i requires 0 <= i < |tensors| => NodeOf(tensors[i]))
  }

  /** The part of the blob a tensor makes. */
  function Framed(t: Tensor): seq<Byte> {
    if t.dtype.BYTES? then [] else t.bytes
  }

  function FramedParts(tensors: seq<Tensor>): seq<seq<Byte>> {
    seq(|tensors|, i requires 0 <= i < |tensors| => Framed(tensors[i]))
  }

  /** The output loop of `inferenceResponseBinary`. */
  method EncodeOutputs(tensors: seq<Tensor>) returns (nodes: seq<Node>, blob: seq<Byte>)
    ensures nodes == NodesOf(tensors) && blob == Concat(FramedParts(tensors))
  {
    nodes, blob := [], [];
    for i := 0 to |tensors|
      invariant nodes == NodesOf(tensors)[..i] && blob == Concat(FramedParts(tensors)[..i])
    {
      var t := tensors[i];
      assert FramedParts(tensors)[..i + 1][..i] == FramedParts(tensors)[..i];
      if t.dtype.BYTES? {
        nodes := nodes + [Node(t.name, t.dtype, Some(t.shape), None, Some(Inline(Some(t.strings), None)))];
      } else {
        nodes := nodes + [Node(t.name, t.dtype, Some(t.shape), Some(|t.bytes|), None)];
        blob := blob + t.bytes;
      }
    }
    assert NodesOf(tensors)[..|tensors|] == NodesOf(tensors) && FramedParts(tensors)[..|tensors|] == FramedParts(tensors);
  }

  /** A tensor whose data and shape agree. */
  predicate Consistent(t: Tensor) {
    && NonNegative(t.shape) && Product(PositivePrefix(t.shape)) < SIZE_LIMIT
    && (if t.dtype.BYTES? then t.bytes == [] && (t.strings == [] || Product(t.shape) == 0 || |t.strings| == Product(t.shape))
        else t.strings == [] && (Product(t.shape) == 0 || HeldElements(t.dtype, |t.bytes|) == Product(t.shape)))
  }

  function MetasOf(tensors: seq<Tensor>): seq<TensorMeta> {
    seq(|tensors|, i requires 0 <= i < |tensors| => TensorMeta(tensors[i].name, tensors[i].dtype, tensors[i].shape))
  }

  predicate Sendable(tensors: seq<Tensor>) {
    && tensors != [] && (forall t :: t in tensors ==> Consistent(t))
    && forall i, j :: 0 <= i < j < |tensors| ==> tensors[i].name != tensors[j].name
  }

  lemma {:induction false} FindOwnMeta(tensors: seq<Tensor>, i: nat)
    requires i < |tensors| && forall i, j :: 0 <= i < j < |tensors| ==> tensors[i].name != tensors[j].name
    ensures FindMeta(MetasOf(tensors), tensors[i].name) == Some(MetasOf(tensors)[i])
    decreases |tensors|
  {
    assert MetasOf(tensors)[1..] == MetasOf(tensors[1..]);
    if i > 0 {
      FindOwnMeta(tensors[1..], i - 1);
      assert tensors[1..][i - 1] == tensors[i];
    }
  }

  lemma OwnNodePasses(t: Tensor, metas: seq<TensorMeta>, seen: seq<string>, left: nat)
    requires Consistent(t) && FindMeta(metas, t.name) == Some(TensorMeta(t.name, t.dtype, t.shape)) && t.name !in seen && |Framed(t)| <= left
    ensures NodeError(metas, seen, NodeOf(t), left).None?
  {
    var count := ElementCount(t.shape);
    assert count.Counted?;
    CountIsTrue(t.shape, count.elements);
  }

  lemma WidthsOfParts(tensors: seq<Tensor>, i: nat)
    requires i <= |tensors|
    ensures Sum(Widths(NodesOf(tensors))[..i]) == |Concat(FramedParts(tensors)[..i])|
    decreases i
  {
    if i > 0 {
      var w, parts := Widths(NodesOf(tensors)), FramedParts(tensors);
      WidthsOfParts(tensors, i - 1);
      assert w[..i][..i - 1] == w[..i - 1] && parts[..i][..i - 1] == parts[..i - 1];
    }
  }

  lemma OwnNodePassed(tensors: seq<Tensor>, length: nat, i: nat)
    requires Sendable(tensors) && i < |tensors| && length == |Concat(FramedParts(tensors))|
    ensures Passed(MetasOf(tensors), NodesOf(tensors), length, i)
  {
    var nodes, parts := NodesOf(tensors), FramedParts(tensors);
    WidthsOfParts(tensors, i);
    FindOwnMeta(tensors, i);
    ConcatPart(parts, i);
    assert tensors[i] in tensors;
    assert forall j :: 0 <= j < i ==> Names(nodes[..i])[j] == tensors[j].name;
    OwnNodePasses(tensors[i], MetasOf(tensors), Names(nodes[..i]), length - |Concat(parts[..i])|);
  }

  lemma OwnRequestAccepted(tensors: seq<Tensor>, length: nat)
    requires Sendable(tensors) && length == |Concat(FramedParts(tensors))| == Sum(Widths(NodesOf(tensors)))
    ensures RequestError(MetasOf(tensors), NodesOf(tensors), length).None?
  {
    forall j | 0 <= j < |tensors| ensures Passed(MetasOf(tensors), NodesOf(tensors), length, j) {
      OwnNodePassed(tensors, length, j);
    }
    AllPassedVerdict(MetasOf(tensors), NodesOf(tensors), length);
    OwnNamesPresent(tensors, MetasOf(tensors));
  }

  lemma {:induction false} OwnNamesPresent(tensors: seq<Tensor>, metas: seq<TensorMeta>)
    requires forall m :: m in metas ==> exists i :: 0 <= i < |tensors| && tensors[i].name == m.name
    ensures MissingError(metas, Names(NodesOf(tensors))).None?
  {
    if metas != [] {
      var i :| 0 <= i < |tensors| && tensors[i].name == metas[0].name;
      assert Names(NodesOf(tensors))[i] == metas[0].name;
      OwnNamesPresent(tensors, metas[1..]);
    }
  }

  /** Encoding tensors as sizes and a blob, and reading that as a request, gives the tensors back byte for byte. */
  lemma FramingRoundTrip(tensors: seq<Tensor>)
    requires Sendable(tensors)
    ensures var nodes, blob := NodesOf(tensors), Concat(FramedParts(tensors));
      && RequestError(MetasOf(tensors), nodes, |blob|).None? && Sum(Widths(nodes)) == |blob|
      && forall i :: 0 <= i < |tensors| ==> InputAt(nodes, blob, i) == tensors[i]
  {
    var nodes, parts := NodesOf(tensors), FramedParts(tensors);
    var blob := Concat(parts);
    assert parts[..0] == [] && parts[..|tensors|] == parts && Widths(nodes)[..|nodes|] == Widths(nodes);
    WidthsOfParts(tensors, |tensors|);
    OwnRequestAccepted(tensors, |blob|);
    forall i | 0 <= i < |tensors| ensures InputAt(nodes, blob, i) == tensors[i] {
      OwnInput(tensors, nodes, blob, i);
    }
  }

  lemma OwnInput(tensors: seq<Tensor>, nodes: seq<Node>, blob: seq<Byte>, i: nat)
    requires Sendable(tensors) && nodes == NodesOf(tensors) && blob == Concat(FramedParts(tensors)) && Sum(Widths(nodes)) == |blob| && i < |tensors|
    ensures InputAt(nodes, blob, i) == tensors[i]
  {
    WidthsOfParts(tensors, i);
    ConcatPart(FramedParts(tensors), i);
    assert Consistent(tensors[i]) && Pieces(blob, Widths(nodes))[i] == Framed(tensors[i]);
  }
}
