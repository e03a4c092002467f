/** Merging requests into one batch and splitting the batched response, with 64-bit size arithmetic. */
module DynamicBatcher {
  import opened Wrappers
  import opened Tensors
  import opened BatchCompatibility

  /** The `int64_t` a `size_t` converts to. */
  function Signed(x: nat): int {
    if x < 0x8000_0000_0000_0000 then x else x - SIZE_LIMIT
  }

  function ShapeElementCount(shape: seq<int>): nat {
    if shape == [] then 0 else Wrap(Product(shape))
  }

  function SliceElementCount(shape: seq<int>): nat {
    if |shape| <= 1 then 1 else Wrap(Product(shape[1..]))
  }

  lemma WrapStep(count: int, d: int, rest: int)
    ensures Wrap(Wrap(count * Wrap(d)) * rest) == Wrap(count * (d * rest))
  {
    WrapMul(count * Wrap(d), rest);
    WrapMul(d, count * rest);
    assert Wrap(d) * (count * rest) == count * Wrap(d) * rest;
    assert d * (count * rest) == count * (d * rest);
  }

  /** The counting loop of both: unsigned multiplication wraps at every step. */
  method CountElements(shape: seq<int>, from: nat) returns (count: nat)
    requires from <= |shape|
    ensures count == Wrap(Product(shape[from..]))
  {
    count := 1;
    var i := from;
    while i < |shape|
      invariant from <= i <= |shape|
      invariant Wrap(count * Product(shape[i..])) == Wrap(Product(shape[from..]))
      invariant count < SIZE_LIMIT
    {
      assert shape[i..][1..] == shape[i + 1..];
      WrapStep(count, shape[i], Product(shape[i + 1..]));
      count := Wrap(count * Wrap(shape[i]));
      i := i + 1;
    }
    assert shape[i..] == [];
  }

  // ------------------------------------------------------------------ merge

  datatype MergeResult = Merged(request: Request, sizes: seq<nat>) | MergeError(message: string)

  function SizesOf(requests: seq<Request>): seq<nat> {
    seq(|requests|, i requires 0 <= i < |requests| => Wrap(BatchSize(requests[i])))
  }

  function Total(sizes: seq<nat>): nat {
    Wrap(Sum(sizes))
  }

  function FirstCompatError(front: Request, others: seq<Request>): Option<string> {
    if others == [] then None
    else
      var e := CompatError(front, others[0]);
      if e.Some? then e else FirstCompatError(front, others[1..])
  }

  predicate Present(requests: seq<Request>, name: string) {
    forall r :: r in requests ==> FindInput(r.inputs, name).Some?
  }

  /** Every input the first request names is found, with a batch dimension in the first request. */
  predicate Aligned(requests: seq<Request>, references: seq<Tensor>)
    requires requests != []
  {
    forall t :: t in references ==> Present(requests, t.name) && FindInput(requests[0].inputs, t.name).value.shape != []
  }

  /** Input `name` of every request, in request order. */
  function Matching(requests: seq<Request>, name: string): seq<Tensor>
    requires Present(requests, name)
  {
    seq(|requests|, i requires 0 <= i < |requests| => FindInput(requests[i].inputs, name).value)
  }

  function BytesOf(tensors: seq<Tensor>): seq<seq<Byte>> {
    seq(|tensors|, i requires 0 <= i < |tensors| => tensors[i].bytes)
  }

  function MergeTensors(tensors: seq<Tensor>, sizes: seq<nat>): Tensor
    requires tensors != [] && tensors[0].shape != []
  {
    tensors[0].(shape := tensors[0].shape[0 := Signed(Total(sizes))], bytes := Concat(BytesOf(tensors)))
  }

  function MergeInputs(references: seq<Tensor>, requests: seq<Request>): seq<Tensor>
    requires requests != [] && Aligned(requests, references)
  {
    seq(|references|, i requires 0 <= i < |references| =>
      MergeTensors(Matching(requests, references[i].name), SizesOf(requests)))
  }

  /** What merging gives for a list that passes every check. */
  function MergeOf(requests: seq<Request>): MergeResult
    requires requests != [] && Aligned(requests, requests[0].inputs)
  {
    Merged(Request(MergeInputs(requests[0].inputs, requests), requests[0].outputs), SizesOf(requests))
  }

  lemma {:induction false} NoCompatError(front: Request, others: seq<Request>)
    ensures FirstCompatError(front, others).None? <==> forall r :: r in others ==> Compatible(front, r)
    decreases others
  {
    if others != [] {
      NoCompatError(front, others[1..]);
      assert forall r :: r in others <==> r == others[0] || r in others[1..];
      assert others[0] in others;
    }
  }

  /** Compatible requests have every input of the front one, with a batch dimension. */
  lemma CompatibleHasInputs(requests: seq<Request>)
    requires requests != [] && FirstCompatError(requests[0], requests[1..]).None?
    requires |requests| == 1 ==> Shaped(requests[0].inputs)
    ensures Aligned(requests, requests[0].inputs)
  {
    var front := requests[0];
    NoCompatError(front, requests[1..]);
    assert forall r :: r in requests ==> r == front || r in requests[1..];
    forall t | t in front.inputs ensures Present(requests, t.name) && FindInput(front.inputs, t.name).value.shape != [] {
      forall r | r in requests[1..] ensures FindInput(r.inputs, t.name).Some? && Shaped(front.inputs) {
        NoPairError(front.inputs, r);
      }
      if |requests| > 1 {
        assert requests[1] == requests[1..][0];
        assert Shaped(front.inputs);
      }
    }
  }

  method MergeInputTensors(tensors: seq<Tensor>, sizes: seq<nat>) returns (merged: Tensor)
    requires tensors != [] && tensors[0].shape != []
    ensures merged == MergeTensors(tensors, sizes)
  {
    var bytes: seq<Byte> := [];
    for i := 0 to |tensors|
      invariant bytes == Concat(BytesOf(tensors)[..i])
    {
      assert BytesOf(tensors)[..i + 1][..i] == BytesOf(tensors)[..i];
      bytes := bytes + tensors[i].bytes;
    }
    assert BytesOf(tensors)[..|tensors|] == BytesOf(tensors);
    merged := tensors[0].(shape := tensors[0].shape[0 := Signed(Total(sizes))], bytes := bytes);
  }

  function MergeSpec(requests: seq<Request>): MergeResult
    requires |requests| == 1 ==> Shaped(requests[0].inputs)
  {
    if requests == [] then MergeError("batch requires at least one request")
    else if exists q :: q in requests && q.inputs == [] then MergeError("request missing inputs")
    else
      var e := FirstCompatError(requests[0], requests[1..]);
      if e.Some? then MergeError(e.value)
      else
        CompatibleHasInputs(requests);
        MergeOf(requests)
  }

  method FindMatching(requests: seq<Request>, name: string) returns (found: seq<Tensor>)
    requires Present(requests, name)
    ensures found == Matching(requests, name)
  {
    found := [];
    for j := 0 to |requests|
      invariant found == Matching(requests, name)[..j]
    {
      assert requests[j] in requests;
      found := found + [FindInput(requests[j].inputs, name).value];
    }
  }

  method MergeAllInputs(requests: seq<Request>, sizes: seq<nat>) returns (inputs: seq<Tensor>)
    requires requests != [] && sizes == SizesOf(requests) && Aligned(requests, requests[0].inputs)
    ensures inputs == MergeInputs(requests[0].inputs, requests)
  {
    var references := requests[0].inputs;
    inputs := [];
    for i := 0 to |references|
      invariant inputs == MergeInputs(references, requests)[..i]
    {
      assert references[i] in references;
      var found := FindMatching(requests, references[i].name);
      var merged := MergeInputTensors(found, sizes);
      inputs := inputs + [merged];
    }
  }

  /** A lone request is not checked for a batch dimension, so its caller must know it has one. */
  method MergeExecutionRequests(requests: seq<Request>) returns (r: MergeResult)
    requires |requests| == 1 ==> Shaped(requests[0].inputs)
    ensures r == MergeSpec(requests)
  {
    if requests == [] {
      return MergeError("batch requires at least one request");
    }
    var sizes: seq<nat> := [];
    for i := 0 to |requests|
      invariant sizes == SizesOf(requests)[..i]
      invariant forall q :: q in requests[..i] ==> q.inputs != []
    {
      if requests[i].inputs == [] {
        assert requests[i] in requests;
        return MergeError("request missing inputs");
      }
      sizes := sizes + [Wrap(BatchSize(requests[i]))];
    }
    assert requests[..|requests|] == requests;
    for i := 1 to |requests|
      invariant FirstCompatError(requests[0], requests[1..]) == FirstCompatError(requests[0], requests[i..])
    {
      assert requests[i..][1..] == requests[i + 1..];
      var e := BatchCompatibilityError(requests[0], requests[i]);
      if e.Some? {
        return MergeError(e.value);
      }
    }
    CompatibleHasInputs(requests);
    var inputs := MergeAllInputs(requests, sizes);
    return Merged(Request(inputs, requests[0].outputs), sizes);
  }

  // ------------------------------------------------------------------ split

  datatype SliceResult = Sliced(tensor: Tensor) | SliceError(message: string)

  /**
   * The share of one batched output that belongs to request `k`, guard by guard. A range whose
   * end wraps below its start is undefined behaviour in the source; here it counts as oversized.
   */
  function SliceOutput(output: Tensor, sizes: seq<nat>, k: nat): SliceResult
    requires k < |sizes|
  {
    var size := ElementSize(output.dtype);
    var slice := SliceElementCount(output.shape);
    var start := Wrap(Sum(sizes[..k]) * slice * size);
    var end := Wrap(start + sizes[k] * slice * size);
    var shape := if output.shape == [] then [] else output.shape[0 := Signed(sizes[k])];
    if output.shape != [] && Wrap(output.shape[0]) != Total(sizes) then SliceError("batched output batch dimension mismatch")
    else if size == 0 || Wrap(ShapeElementCount(output.shape) * size) != |output.bytes| then SliceError("batched output data size mismatch")
    else if slice == 0 then SliceError("batched output slice size mismatch")
    else if start > |output.bytes| || end > |output.bytes| || start > end then SliceError("batched output size mismatch")
    else if Wrap(ShapeElementCount(shape) * size) != end - start then SliceError("batched output slice data size mismatch")
    else Sliced(Tensor(output.name, output.dtype, shape, output.bytes[start..end], []))
  }

  function FirstSliceError(outputs: seq<Tensor>, sizes: seq<nat>, k: nat): (r: Option<string>)
    requires k < |sizes|
    ensures r.None? <==> forall o :: o in outputs ==> SliceOutput(o, sizes, k).Sliced?
  {
    if outputs == [] then None
    else
      var first := SliceOutput(outputs[0], sizes, k);
      assert outputs[0] in outputs;
      assert forall o :: o in outputs <==> o == outputs[0] || o in outputs[1..];
      if first.SliceError? then Some(first.message) else FirstSliceError(outputs[1..], sizes, k)
  }

  function SplitOne(batched: Response, sizes: seq<nat>, k: nat): Response
    requires k < |sizes|
  {
    if !batched.ok then batched
    else
      var e := FirstSliceError(batched.outputs, sizes, k);
      if e.Some? then Response(false, "BACKEND_ERROR", e.value, [])
      else Response(true, "", "", seq(|batched.outputs|, j requires 0 <= j < |batched.outputs| =>
             SliceOutput(batched.outputs[j], sizes, k).tensor))
  }

  method SliceTensor(output: Tensor, sizes: seq<nat>, offset: nat, k: nat) returns (r: SliceResult)
    requires k < |sizes| && offset == Sum(sizes[..k])
    ensures r == SliceOutput(output, sizes, k)
  {
    var mine := sizes[k];
    var shape := output.shape;
    if shape != [] {
      shape := shape[0 := Signed(mine)];
    }
    if output.shape != [] && Wrap(output.shape[0]) != Total(sizes) {
      return SliceError("batched output batch dimension mismatch");
    }
    var size := ElementSize(output.dtype);
    var expected := 0;
    if output.shape != [] {
      expected := CountElements(output.shape, 0);
      assert output.shape[0..] == output.shape;
    }
    if size == 0 || Wrap(expected * size) != |output.bytes| {
      return SliceError("batched output data size mismatch");
    }
    var slice := 1;
    if |output.shape| > 1 {
      slice := CountElements(output.shape, 1);
    }
    if slice == 0 {
      return SliceError("batched output slice size mismatch");
    }
    var start := Wrap(offset * slice * size);
    var end := Wrap(start + mine * slice * size);
    if start > |output.bytes| || end > |output.bytes| || start > end {
      return SliceError("batched output size mismatch");
    }
    var bytes := output.bytes[start..end];
    var elements := 0;
    if shape != [] {
      elements := CountElements(shape, 0);
      assert shape[0..] == shape;
    }
    if Wrap(elements * size) != |bytes| {
      return SliceError("batched output slice data size mismatch");
    }
    return Sliced(Tensor(output.name, output.dtype, shape, bytes, []));
  }

  method SplitExecutionResponse(batched: Response, sizes: seq<nat>) returns (responses: seq<Response>)
    ensures |responses| == |sizes|
    ensures forall k :: 0 <= k < |sizes| ==> responses[k] == SplitOne(batched, sizes, k)
  {
    responses := [];
    for k := 0 to |sizes|
      invariant |responses| == k
      invariant forall i :: 0 <= i < k ==> responses[i] == SplitOne(batched, sizes, i)
    {
      if !batched.ok {
        responses := responses + [batched];
      } else {
        var response := SplitForRequest(batched, sizes, k);
        responses := responses + [response];
      }
    }
  }

  method SplitForRequest(batched: Response, sizes: seq<nat>, k: nat) returns (response: Response)
    requires batched.ok && k < |sizes|
    ensures response == SplitOne(batched, sizes, k)
  {
    var offset := RowsBefore(sizes, k);
    var error, outputs := SliceAll(batched.outputs, sizes, offset, k);
    if error.Some? {
      return Response(false, "BACKEND_ERROR", error.value, []);
    }
    assert outputs == SplitOne(batched, sizes, k).outputs;
    return Response(true, "", "", outputs);
  }

  method RowsBefore(sizes: seq<nat>, k: nat) returns (offset: nat)
    requires k <= |sizes|
    ensures offset == Sum(sizes[..k])
  {
    offset := 0;
    for prior := 0 to k
      invariant offset == Sum(sizes[..prior])
    {
      assert sizes[..prior + 1][..prior] == sizes[..prior];
      offset := offset + sizes[prior];
    }
  }

  /** What cutting each output comes to. */
  function Cuts(batched: seq<Tensor>, sizes: seq<nat>, k: nat): seq<SliceResult>
    requires k < |sizes|
  {
    seq(|batched|, i requires 0 <= i < |batched| => SliceOutput(batched[i], sizes, k))
  }

  function FirstError(cuts: seq<SliceResult>): Option<string> {
    if cuts == [] then None else if cuts[0].SliceError? then Some(cuts[0].message) else FirstError(cuts[1..])
  }

  lemma {:induction false} FirstErrorIs(batched: seq<Tensor>, sizes: seq<nat>, k: nat)
    requires k < |sizes|
    ensures FirstSliceError(batched, sizes, k) == FirstError(Cuts(batched, sizes, k))
    decreases |batched|
  {
    if batched != [] {
      FirstErrorIs(batched[1..], sizes, k);
      assert Cuts(batched, sizes, k)[1..] == Cuts(batched[1..], sizes, k);
    }
  }

  lemma {:induction false} NoErrorBefore(cuts: seq<SliceResult>, j: nat)
    requires j <= |cuts| && forall i :: 0 <= i < j ==> cuts[i].Sliced?
    ensures FirstError(cuts) == FirstError(cuts[j..])
    decreases j
  {
    if j == 0 {
      assert cuts[0..] == cuts;
    } else {
      NoErrorBefore(cuts[1..], j - 1);
      assert cuts[1..][j - 1..] == cuts[j..];
    }
  }

  method SliceAll(batched: seq<Tensor>, sizes: seq<nat>, offset: nat, k: nat) returns (error: Option<string>, outputs: seq<Tensor>)
    requires k < |sizes| && offset == Sum(sizes[..k])
    ensures error == FirstSliceError(batched, sizes, k)
    ensures error.None? ==> |outputs| == |batched| && forall i :: 0 <= i < |batched| ==> Cuts(batched, sizes, k)[i] == Sliced(outputs[i])
  {
    ghost var cuts := Cuts(batched, sizes, k);
    FirstErrorIs(batched, sizes, k);
    outputs := [];
    for j := 0 to |batched|
      invariant |outputs| == j && forall i :: 0 <= i < j ==> cuts[i] == Sliced(outputs[i])
    {
      NoErrorBefore(cuts, j);
      var sliced := SliceTensor(batched[j], sizes, offset, k);
      assert sliced == cuts[j];
      if sliced.SliceError? {
        return Some(sliced.message), outputs;
      }
      outputs := outputs + [sliced.tensor];
    }
    NoErrorBefore(cuts, |batched|);
    error := None;
  }

  /** When a growing batch is sent off; the loop over preferred sizes is a membership test. */
  predicate ShouldDispatch(merged: nat, maxBatch: nat, preferred: seq<nat>, delayElapsed: bool) {
    merged != 0 && (merged >= maxBatch || merged in preferred || delayElapsed)
  }

  /** Request `i` is the first that does not go with the front one. */
  predicate FirstMisfit(requests: seq<Request>, i: nat) {
    && 0 < i < |requests| && !Compatible(requests[0], requests[i])
    && forall j :: 0 < j < i ==> Compatible(requests[0], requests[j])
  }

  /** Merging fails exactly for an empty list, a request without inputs, or one that does not go with the front one, and says which. */
  lemma MergeFailsExactly(requests: seq<Request>)
    requires |requests| == 1 ==> Shaped(requests[0].inputs)
    ensures var bare := exists q :: q in requests && q.inputs == [];
      && (MergeSpec(requests).MergeError? <==> requests == [] || bare || exists i: nat :: FirstMisfit(requests, i))
      && (requests == [] ==> MergeSpec(requests) == MergeError("batch requires at least one request"))
      && (requests != [] && bare ==> MergeSpec(requests) == MergeError("request missing inputs"))
      && (requests != [] && !bare ==> forall i: nat :: FirstMisfit(requests, i) ==>
            MergeSpec(requests) == MergeError(CompatError(requests[0], requests[i]).value))
  {
    if requests != [] {
      forall i: nat | FirstMisfit(requests, i) ensures FirstCompatError(requests[0], requests[1..]) == CompatError(requests[0], requests[i]) {
        assert forall j :: 0 <= j < |requests| - 1 ==> requests[1..][j] == requests[j + 1];
        MisfitFound(requests[0], requests[1..], i - 1);
      }
      if FirstCompatError(requests[0], requests[1..]).Some? {
        var i := SomeMisfit(requests[0], requests[1..]);
        assert FirstMisfit(requests, i + 1);
      }
    }
  }

  lemma {:induction false} MisfitFound(front: Request, others: seq<Request>, i: nat)
    requires i < |others| && !Compatible(front, others[i]) && forall j :: 0 <= j < i ==> Compatible(front, others[j])
    ensures FirstCompatError(front, others) == CompatError(front, others[i])
    decreases i
  {
    if i > 0 {
      assert forall j :: 0 <= j < i ==> others[1..][j] == others[j + 1];
      MisfitFound(front, others[1..], i - 1);
    }
  }

  lemma {:induction false} SomeMisfit(front: Request, others: seq<Request>) returns (i: nat)
    requires FirstCompatError(front, others).Some?
    ensures i < |others| && !Compatible(front, others[i]) && forall j :: 0 <= j < i ==> Compatible(front, others[j])
  {
    if CompatError(front, others[0]).Some? {
      i := 0;
    } else {
      var k := SomeMisfit(front, others[1..]);
      i := k + 1;
      assert forall j :: 0 < j < |others| ==> others[j] == others[1..][j - 1];
    }
  }
}
