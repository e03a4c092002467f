/** When two requests may share one batch. */
module BatchCompatibility {
  import opened Wrappers
  import opened Tensors

  /** First input with the given name. */
  function FindInput(inputs: seq<Tensor>, name: string): (r: Option<Tensor>)
    ensures r.Some? ==> r.value in inputs && r.value.name == name
    ensures r.None? ==> forall t :: t in inputs ==> t.name != name
  {
    if inputs == [] then None
    else if inputs[0].name == name then Some(inputs[0])
    else FindInput(inputs[1..], name)
  }

  predicate DistinctNames(inputs: seq<Tensor>) {
    forall i, j :: 0 <= i < j < |inputs| ==> inputs[i].name != inputs[j].name
  }

  /** Batch dimension of a request: the leading extent of its first input, 1 when there is none. */
  function BatchSize(request: Request): int {
    if request.inputs == [] || request.inputs[0].shape == [] then 1 else request.inputs[0].shape[0]
  }

  function PairError(left: Tensor, right: Option<Tensor>): Option<string> {
    if right.None? then Some("input name mismatch")
    else if left.dtype != right.value.dtype then Some("input datatype mismatch")
    else if left.shape == [] || right.value.shape == [] then Some("input shape missing batch dimension")
    else if left.shape[1..] != right.value.shape[1..] then Some("input shape mismatch")
    else None
  }

  function FirstPairError(lefts: seq<Tensor>, right: Request): Option<string> {
    if lefts == [] then None
    else
      var e := PairError(lefts[0], FindInput(right.inputs, lefts[0].name));
      if e.Some? then e else FirstPairError(lefts[1..], right)
  }

  predicate HasBytes(inputs: seq<Tensor>) {
    exists t :: t in inputs && t.dtype.BYTES?
  }

  function CompatError(left: Request, right: Request): Option<string> {
    if HasBytes(left.inputs) || HasBytes(right.inputs) then Some("BYTES tensors are not batch-compatible")
    else if |left.inputs| != |right.inputs| then Some("input count mismatch")
    else if left.outputs != right.outputs then Some("requested output mismatch")
    else
      var e := FirstPairError(left.inputs, right);
      if e.Some? then e
      else if exists t :: t in right.inputs && FindInput(left.inputs, t.name).None? then Some("input name mismatch")
      else None
  }

  predicate Compatible(left: Request, right: Request) {
    CompatError(left, right).None?
  }

  method ShapesMatchExceptBatch(left: seq<int>, right: seq<int>) returns (ok: bool)
    ensures ok <==> |left| == |right| && (left == [] || left[1..] == right[1..])
  {
    if |left| != |right| {
      return false;
    }
    var i := 1;
    while i < |left|
      invariant 1 <= i && (left != [] ==> i <= |left|)
      invariant forall j :: 1 <= j < i && j < |left| ==> left[j] == right[j]
    {
      if left[i] != right[i] {
        assert left[1..][i - 1] != right[1..][i - 1];
        return false;
      }
      i := i + 1;
    }
    return true;
  }

  method BatchCompatibilityError(left: Request, right: Request) returns (error: Option<string>)
    ensures error == CompatError(left, right)
  {
    for i := 0 to |left.inputs|
      invariant !HasBytes(left.inputs[..i])
    {
      if left.inputs[i].dtype.BYTES? {
        assert left.inputs[i] in left.inputs;
        return Some("BYTES tensors are not batch-compatible");
      }
    }
    assert left.inputs[..|left.inputs|] == left.inputs;
    for i := 0 to |right.inputs|
      invariant !HasBytes(right.inputs[..i])
    {
      if right.inputs[i].dtype.BYTES? {
        assert right.inputs[i] in right.inputs;
        return Some("BYTES tensors are not batch-compatible");
      }
    }
    assert right.inputs[..|right.inputs|] == right.inputs;
    if |left.inputs| != |right.inputs| {
      return Some("input count mismatch");
    }
    if left.outputs != right.outputs {
      return Some("requested output mismatch");
    }
    for i := 0 to |left.inputs|
      invariant FirstPairError(left.inputs, right) == FirstPairError(left.inputs[i..], right)
    {
      var mine := left.inputs[i];
      var theirs := FindInput(right.inputs, mine.name);
      assert left.inputs[i..][1..] == left.inputs[i + 1..];
      if theirs.None? {
        return Some("input name mismatch");
      }
      if mine.dtype != theirs.value.dtype {
        return Some("input datatype mismatch");
      }
      if mine.shape == [] || theirs.value.shape == [] {
        return Some("input shape missing batch dimension");
      }
      var same := ShapesMatchExceptBatch(mine.shape, theirs.value.shape);
      if !same {
        return Some("input shape mismatch");
      }
      // The rank comparison that follows in the source repeats the length test just made.
    }
    for i := 0 to |right.inputs|
      invariant forall t :: t in right.inputs[..i] ==> FindInput(left.inputs, t.name).Some?
    {
      if FindInput(left.inputs, right.inputs[i].name).None? {
        assert right.inputs[i] in right.inputs;
        return Some("input name mismatch");
      }
    }
    return None;
  }

  // ---------------------------------------------------- what the test means

  /** Datatype and trailing extents of an input. */
  datatype InputKind = InputKind(dtype: DType, tail: seq<int>)

  predicate Shaped(inputs: seq<Tensor>) {
    forall t :: t in inputs ==> t.shape != []
  }

  function Names(inputs: seq<Tensor>): set<string> {
    set t | t in inputs :: t.name
  }

  function KindOf(t: Tensor): InputKind
    requires t.shape != []
  {
    InputKind(t.dtype, t.shape[1..])
  }

  /** The kind of every input, by name. */
  function Signature(inputs: seq<Tensor>): map<string, InputKind>
    requires Shaped(inputs)
  {
    map name | name in Names(inputs) :: KindOf(FindInput(inputs, name).value)
  }

  /** Two requests ask for the same outputs of inputs that differ in batch extent only. Symmetric and transitive on sight. */
  predicate SameKind(left: Request, right: Request) {
    && !HasBytes(left.inputs) && !HasBytes(right.inputs)
    && Shaped(left.inputs) && Shaped(right.inputs)
    && left.outputs == right.outputs
    && Signature(left.inputs) == Signature(right.inputs)
  }

  lemma {:induction false} FindsItself(inputs: seq<Tensor>, t: Tensor)
    requires DistinctNames(inputs) && t in inputs
    ensures FindInput(inputs, t.name) == Some(t)
    decreases inputs
  {
    if inputs[0] != t {
      var rest := inputs[1..];
      assert DistinctNames(rest) by {
        forall i, j | 0 <= i < j < |rest| ensures rest[i].name != rest[j].name {
          assert inputs[i + 1].name != inputs[j + 1].name;
        }
      }
      var k :| 0 <= k < |inputs| && inputs[k] == t;
      assert rest[k - 1] == t;
      FindsItself(rest, t);
    }
  }

  lemma {:induction false} NamesCount(inputs: seq<Tensor>)
    requires DistinctNames(inputs)
    ensures |Names(inputs)| == |inputs|
    decreases inputs
  {
    if inputs != [] {
      var last := |inputs| - 1;
      var most := inputs[..last];
      NamesCount(most);
      assert Names(inputs) == Names(most) + {inputs[last].name} by {
        assert forall t :: t in inputs <==> t in most || t == inputs[last];
      }
      assert inputs[last].name !in Names(most);
    }
  }

  lemma {:induction false} NoPairError(lefts: seq<Tensor>, right: Request)
    ensures FirstPairError(lefts, right).None? <==>
              forall t :: t in lefts ==> PairError(t, FindInput(right.inputs, t.name)).None?
    decreases lefts
  {
    if lefts != [] {
      NoPairError(lefts[1..], right);
      assert forall t :: t in lefts <==> t == lefts[0] || t in lefts[1..];
    }
  }

  /** The two search loops decide exactly whether the requests are of the same kind. */
  lemma CompatibleIsSameKind(left: Request, right: Request)
    requires DistinctNames(left.inputs) && DistinctNames(right.inputs)
    ensures Compatible(left, right) <==> SameKind(left, right)
  {
    NoPairError(left.inputs, right);
    if Compatible(left, right) {
      PairedIsSameKind(left, right);
    }
    if SameKind(left, right) {
      SameKindIsPaired(left, right);
    }
  }

  lemma PairedIsSameKind(left: Request, right: Request)
    requires DistinctNames(left.inputs) && DistinctNames(right.inputs)
    requires Compatible(left, right)
    requires forall t :: t in left.inputs ==> PairError(t, FindInput(right.inputs, t.name)).None?
    ensures SameKind(left, right)
  {
    forall t | t in right.inputs ensures t.shape != [] && t.name in Names(left.inputs) {
      var mine := FindInput(left.inputs, t.name).value;
      FindsItself(right.inputs, t);
    }
    forall name | name in Names(left.inputs)
      ensures name in Names(right.inputs)
      ensures KindOf(FindInput(left.inputs, name).value) == KindOf(FindInput(right.inputs, name).value)
    {
      var t :| t in left.inputs && t.name == name;
      FindsItself(left.inputs, t);
    }
  }

  lemma SameKindIsPaired(left: Request, right: Request)
    requires DistinctNames(left.inputs) && DistinctNames(right.inputs)
    requires SameKind(left, right)
    ensures |left.inputs| == |right.inputs|
    ensures forall t :: t in left.inputs ==> PairError(t, FindInput(right.inputs, t.name)).None?
    ensures forall t :: t in right.inputs ==> FindInput(left.inputs, t.name).Some?
  {
    assert Signature(left.inputs).Keys == Names(left.inputs) && Signature(right.inputs).Keys == Names(right.inputs);
    NamesCount(left.inputs);
    NamesCount(right.inputs);
    forall t | t in left.inputs ensures PairError(t, FindInput(right.inputs, t.name)).None? {
      assert t.name in Names(left.inputs);
      FindsItself(left.inputs, t);
      assert Signature(left.inputs)[t.name] == Signature(right.inputs)[t.name];
    }
    forall t | t in right.inputs ensures FindInput(left.inputs, t.name).Some? {
      assert t.name in Names(right.inputs);
      assert t.name in Names(left.inputs);
    }
  }

  /**
   * A formed batch stays mergeable whatever members expiry takes out of it, its front
   * included: if every request is compatible with the first one, any two members are
   * compatible with each other, in both directions.
   */
  lemma SurvivorsStayCompatible(batch: seq<Request>, i: nat, j: nat)
    requires i < |batch| && j < |batch| && i != j
    requires forall k :: 0 <= k < |batch| ==> DistinctNames(batch[k].inputs)
    requires forall k :: 0 < k < |batch| ==> Compatible(batch[0], batch[k])
    ensures Compatible(batch[i], batch[j])
  {
    forall k | 0 < k < |batch| ensures SameKind(batch[0], batch[k]) {
      CompatibleIsSameKind(batch[0], batch[k]);
    }
    assert SameKind(batch[i], batch[j]);
    CompatibleIsSameKind(batch[i], batch[j]);
  }

  /** Input `i` of the left request is the first that the right one does not match. */
  predicate FirstUnmatched(left: Request, right: Request, i: nat) {
    && i < |left.inputs| && PairError(left.inputs[i], FindInput(right.inputs, left.inputs[i].name)).Some?
    && forall j :: 0 <= j < i ==> PairError(left.inputs[j], FindInput(right.inputs, left.inputs[j].name)).None?
  }

  /** The complaint about two requests of different kinds: BYTES inputs, the number of inputs, the outputs asked for, or the first input that differs. */
  lemma ComplaintExactly(left: Request, right: Request, i: nat)
    ensures var e := CompatError(left, right);
      if (exists t :: (t in left.inputs || t in right.inputs) && t.dtype.BYTES?) then e == Some("BYTES tensors are not batch-compatible")
      else if |left.inputs| != |right.inputs| then e == Some("input count mismatch")
      else if left.outputs != right.outputs then e == Some("requested output mismatch")
      else FirstUnmatched(left, right, i) ==>
        var t, u := left.inputs[i], FindInput(right.inputs, left.inputs[i].name);
        e == Some(if u.None? then "input name mismatch" else if t.dtype != u.value.dtype then "input datatype mismatch"
                  else if t.shape == [] || u.value.shape == [] then "input shape missing batch dimension" else "input shape mismatch")
  {
    if FirstUnmatched(left, right, i) {
      FirstPairFound(left.inputs, right, i);
    }
  }

  lemma {:induction false} FirstPairFound(lefts: seq<Tensor>, right: Request, i: nat)
    requires i < |lefts| && PairError(lefts[i], FindInput(right.inputs, lefts[i].name)).Some?
    requires forall j :: 0 <= j < i ==> PairError(lefts[j], FindInput(right.inputs, lefts[j].name)).None?
    ensures FirstPairError(lefts, right) == PairError(lefts[i], FindInput(right.inputs, lefts[i].name))
    decreases i
  {
    if i > 0 {
      assert forall j :: 0 <= j < i ==> lefts[1..][j] == lefts[j + 1];
      FirstPairFound(lefts[1..], right, i - 1);
    }
  }
}
