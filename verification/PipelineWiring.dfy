/** What a pipeline that passes the load-time checks never does at run time, and what shape adoption keeps. */
module PipelineWiring {
  import opened Wrappers
  import opened Tensors
  import opened Pipelines
  import PipelineExecutor

  // ------------------------------------------------------- the availability check

  function ReadNames(step: Step): set<string> {
    set i | 0 <= i < |step.inputs| :: Read(step, i)
  }

  function OutputNames(step: Step): set<string> {
    set i | 0 <= i < |step.outputs| :: Mapped(step.outputMap, step.outputs[i].name)
  }

  /** The tensors the first step reads, and the declared outputs of the steps before `k`. */
  function Available(steps: seq<Step>, k: nat): set<string>
    requires k <= |steps|
  {
    if k == 0 then if steps == [] then {} else ReadNames(steps[0])
    else Available(steps, k - 1) + OutputNames(steps[k - 1])
  }

  /** Every step reads only what the request or an earlier step supplies. */
  predicate Wired(steps: seq<Step>) {
    forall k :: 0 <= k < |steps| ==> WiredAt(steps, k)
  }

  predicate WiredAt(steps: seq<Step>, k: nat)
    requires k < |steps|
  {
    ReadNames(steps[k]) <= Available(steps, k)
  }

  datatype Dangling = Dangling(step: nat, name: string)

  /** The check of `makePipelineExecutor`: the first dangling wire, as its step and tensor. */
  method CheckAvailability(steps: seq<Step>) returns (error: Option<Dangling>)
    requires steps != []
    ensures error.None? <==> Wired(steps)
    ensures error.Some? ==>
      var Dangling(k, name) := error.value;
      && k < |steps| && name in ReadNames(steps[k]) && name !in Available(steps, k)
      && forall j :: 0 <= j < k ==> WiredAt(steps, j)
  {
    var available := AddReads({}, steps[0]);
    for k := 0 to |steps|
      invariant available == Available(steps, k)
      invariant forall j :: 0 <= j < k ==> WiredAt(steps, j)
    {
      var dangling := FirstDangling(steps[k], available);
      if dangling.Some? {
        assert !WiredAt(steps, k);
        return Some(Dangling(k, dangling.value));
      }
      available := AddOutputs(available, steps[k]);
    }
    error := None;
  }

  method AddReads(start: set<string>, step: Step) returns (names: set<string>)
    ensures names == start + ReadNames(step)
  {
    names := start;
    for i := 0 to |step.inputs|
      invariant forall name :: name in names <==> name in start || exists j :: 0 <= j < i && Read(step, j) == name
    {
      names := names + {Read(step, i)};
    }
  }

  method FirstDangling(step: Step, available: set<string>) returns (name: Option<string>)
    ensures name.None? <==> ReadNames(step) <= available
    ensures name.Some? ==> name.value in ReadNames(step) && name.value !in available
  {
    for i := 0 to |step.inputs|
      invariant forall j :: 0 <= j < i ==> Read(step, j) in available
    {
      assert Read(step, i) in ReadNames(step);
      if Mapped(step.inputMap, step.inputs[i].name) !in available {
        return Some(Mapped(step.inputMap, step.inputs[i].name));
      }
    }
    name := None;
  }

  method AddOutputs(start: set<string>, step: Step) returns (names: set<string>)
    ensures names == start + OutputNames(step)
  {
    names := start;
    for i := 0 to |step.outputs|
      invariant forall name :: name in names <==> name in start || exists j :: 0 <= j < i && Mapped(step.outputMap, step.outputs[j].name) == name
    {
      names := names + {Mapped(step.outputMap, step.outputs[i].name)};
    }
  }

  // ------------------------------------------------------ never missing at run time

  /** The request carries every tensor the first step reads. */
  predicate Supplies(steps: seq<Step>, request: Request) {
    steps != [] ==> forall name :: name in ReadNames(steps[0]) ==> exists t :: t in request.inputs && t.name == name
  }

  predicate ProducesAll(step: Step, produced: seq<Tensor>) {
    forall i :: 0 <= i < |step.outputs| ==> exists t :: t in produced && t.name == step.outputs[i].name
  }

  /** A step that produces anything produces all its declared outputs. */
  ghost predicate KeepsPromises(steps: seq<Step>, run: Behaviour) {
    forall k, inputs :: 0 <= k < |steps| && run(k, inputs).Produced? ==> ProducesAll(steps[k], run(k, inputs).outputs)
  }

  lemma {:induction false} BindKeys(inputs: seq<Tensor>, t: Tensor)
    requires t in inputs
    ensures t.name in Bind(inputs)
  {
    var last := |inputs| - 1;
    if t != inputs[last] {
      assert t in inputs[..last];
      BindKeys(inputs[..last], t);
    }
  }

  lemma {:induction false} StoreKeys(step: Step, values: Values, produced: seq<Tensor>)
    ensures Store(step, values, produced).Keys == values.Keys + set t | t in produced :: Mapped(step.outputMap, t.name)
  {
    if produced != [] {
      var last := |produced| - 1;
      StoreKeys(step, values, produced[..last]);
      assert forall t :: t in produced <==> t in produced[..last] || t == produced[last];
    }
  }

  lemma {:induction false} GatherAll(step: Step, values: Values, i: nat)
    requires i <= |step.inputs| && forall j :: i <= j < |step.inputs| ==> Read(step, j) in values
    ensures Gather(step, values, i).Inputs?
    decreases |step.inputs| - i
  {
    if i < |step.inputs| {
      GatherAll(step, values, i + 1);
    }
  }

  lemma {:induction false} CollectAll(outputs: seq<TensorMeta>, requested: seq<string>, values: Values, i: nat)
    requires i <= |outputs| && forall j :: i <= j < |outputs| ==> outputs[j].name in values
    ensures Collect(outputs, requested, values, i).Inputs?
    decreases |outputs| - i
  {
    if i < |outputs| {
      CollectAll(outputs, requested, values, i + 1);
    }
  }

  lemma ProducedNames(step: Step, produced: seq<Tensor>)
    requires ProducesAll(step, produced)
    ensures OutputNames(step) <= set t | t in produced :: Mapped(step.outputMap, t.name)
  {
  }

  /** From any point of a wired pipeline, a run ends with every available tensor present, or with a failing step. */
  lemma {:induction false} WiredRuns(steps: seq<Step>, k: nat, values: Values, run: Behaviour)
    requires k <= |steps| && Wired(steps) && KeepsPromises(steps, run) && Available(steps, k) <= values.Keys
    ensures var end := RunFrom(steps, k, values, run);
      end.StepFailed? || (end.Finished? && Available(steps, |steps|) <= end.values.Keys)
    decreases |steps| - k
  {
    if k < |steps| {
      var step := steps[k];
      assert WiredAt(steps, k) && forall j :: 0 <= j < |step.inputs| ==> Read(step, j) in ReadNames(step);
      GatherAll(step, values, 0);
      var result := run(k, Fed(step, Gather(step, values, 0).tensors));
      if result.Produced? {
        StoreKeys(step, values, result.outputs);
        ProducedNames(step, result.outputs);
        WiredRuns(steps, k + 1, Store(step, values, result.outputs), run);
      }
    }
  }

  /**
   * A wired pipeline given its declared inputs, over steps that produce their declared outputs, never reports a missing
   * input or a missing output: it answers with all the outputs asked for, or passes on a step's own failure.
   */
  lemma WiredNeverMissing(steps: seq<Step>, request: Request, run: Behaviour)
    requires steps != [] && Wired(steps) && Supplies(steps, request) && KeepsPromises(steps, run)
    ensures var end := RunFrom(steps, 0, Bind(request.inputs), run);
      || end.StepFailed?
      || (end.Finished? && Collect(PipelineExecutor.Exposed(steps[|steps| - 1]), request.outputs, end.values, 0).Inputs?)
  {
    var values, last := Bind(request.inputs), |steps| - 1;
    forall name | name in ReadNames(steps[0]) ensures name in values {
      var t :| t in request.inputs && t.name == name;
      BindKeys(request.inputs, t);
    }
    WiredRuns(steps, 0, values, run);
    var end := RunFrom(steps, 0, values, run);
    if end.Finished? {
      var outputs := PipelineExecutor.Exposed(steps[last]);
      forall j | 0 <= j < |outputs| ensures outputs[j].name in end.values {
        assert outputs[j].name in OutputNames(steps[last]);
      }
      CollectAll(outputs, request.outputs, end.values, 0);
    }
  }

  /** Steps that produce exactly their declared outputs, on a request of exactly the declared inputs. */
  ghost predicate ProducesOnly(steps: seq<Step>, run: Behaviour) {
    forall k, inputs :: 0 <= k < |steps| && run(k, inputs).Produced? ==>
      forall t :: t in run(k, inputs).outputs ==> Mapped(steps[k].outputMap, t.name) in OutputNames(steps[k])
  }

  lemma {:induction false} UnwiredFrom(steps: seq<Step>, k: nat, values: Values, run: Behaviour, bad: nat)
    requires k <= bad < |steps| && ProducesOnly(steps, run) && values.Keys <= Available(steps, k)
    requires !WiredAt(steps, bad)
    ensures !RunFrom(steps, k, values, run).Finished?
    decreases |steps| - k
  {
    var step := steps[k];
    if k == bad {
      var name :| name in ReadNames(step) && name !in Available(steps, k);
      var j :| 0 <= j < |step.inputs| && Read(step, j) == name;
      GatherMisses(step, values, 0, j);
    } else if Gather(step, values, 0).Inputs? {
      var result := run(k, Fed(step, Gather(step, values, 0).tensors));
      if result.Produced? {
        StoreKeys(step, values, result.outputs);
        UnwiredFrom(steps, k + 1, Store(step, values, result.outputs), run, bad);
      }
    }
  }

  lemma {:induction false} GatherMisses(step: Step, values: Values, i: nat, j: nat)
    requires i <= j < |step.inputs| && Read(step, j) !in values
    ensures Gather(step, values, i).Missing?
    decreases j - i
  {
    if i < j {
      GatherMisses(step, values, i + 1, j);
    }
  }

  lemma {:induction false} BindOnly(inputs: seq<Tensor>, names: set<string>)
    requires forall t :: t in inputs ==> t.name in names
    ensures Bind(inputs).Keys <= names
  {
    if inputs != [] {
      BindOnly(inputs[..|inputs| - 1], names);
    }
  }

  /** The check refuses nothing that works: a pipeline it refuses finishes no request of exactly the declared tensors. */
  lemma UnwiredNeverFinishes(steps: seq<Step>, request: Request, run: Behaviour)
    requires steps != [] && !Wired(steps) && ProducesOnly(steps, run)
    requires forall t :: t in request.inputs ==> t.name in ReadNames(steps[0])
    ensures !RunFrom(steps, 0, Bind(request.inputs), run).Finished?
  {
    var bad :| 0 <= bad < |steps| && !WiredAt(steps, bad);
    BindOnly(request.inputs, ReadNames(steps[0]));
    UnwiredFrom(steps, 0, Bind(request.inputs), run, bad);
  }

  // -------------------------------------------------------------- shape adoption

  method TrimShape(shape: seq<int>) returns (r: seq<int>)
    ensures r == Trim(shape)
  {
    var begin := 0;
    while begin + 1 < |shape| && shape[begin] == 1
      invariant begin <= |shape| && Trim(shape[begin..]) == Trim(shape)
    {
      assert shape[begin..][1..] == shape[begin + 1..];
      begin := begin + 1;
    }
    r := shape[begin..];
  }

  method AdoptDeclaredShape(tensor: Tensor, metas: seq<TensorMeta>) returns (r: Tensor)
    ensures r == Adopted(metas, tensor)
  {
    for i := 0 to |metas|
      invariant FindMeta(metas, tensor.name) == FindMeta(metas[i..], tensor.name)
    {
      assert metas[i..][0] == metas[i] && metas[i..][1..] == metas[i + 1..];
      if metas[i].name == tensor.name {
        if metas[i].shape == tensor.shape {
          return tensor;
        }
        for d := 0 to |metas[i].shape|
          invariant forall e :: 0 <= e < d ==> metas[i].shape[e] >= 0
        {
          if metas[i].shape[d] < 0 {
            return tensor;
          }
        }
        var left := TrimShape(metas[i].shape);
        var right := TrimShape(tensor.shape);
        return if left == right then tensor.(shape := metas[i].shape) else tensor;
      }
    }
    r := tensor;
  }

  predicate OnesBefore(shape: seq<int>, k: nat) {
    k < |shape| && forall i :: 0 <= i < k ==> shape[i] == 1
  }

  lemma {:induction false} TrimSkips(shape: seq<int>, k: nat)
    requires OnesBefore(shape, k)
    ensures Trim(shape[k..]) == Trim(shape)
    decreases k
  {
    if k == 0 {
      assert shape[0..] == shape;
    } else {
      TrimSkips(shape[1..], k - 1);
      assert shape[1..][k - 1..] == shape[k..];
    }
  }

  lemma {:induction false} TrimDropsOnes(shape: seq<int>) returns (k: nat)
    requires shape != []
    ensures OnesBefore(shape, k) && Trim(shape) == shape[k..]
  {
    if |shape| > 1 && shape[0] == 1 {
      k := TrimDropsOnes(shape[1..]);
      assert shape[1..][k..] == shape[k + 1..];
      k := k + 1;
    } else {
      k := 0;
    }
  }

  /** Some leading ones dropped from one and some from the other leave the same extents, at least one of them. */
  ghost predicate DifferInLeadingOnes(a: seq<int>, b: seq<int>) {
    exists k: nat, m: nat :: OnesBefore(a, k) && OnesBefore(b, m) && a[k..] == b[m..]
  }

  /** The trimming test decides exactly that. */
  lemma TrimTestIsExact(a: seq<int>, b: seq<int>)
    requires a != [] && b != []
    ensures Trim(a) == Trim(b) <==> DifferInLeadingOnes(a, b)
  {
    if Trim(a) == Trim(b) {
      var k := TrimDropsOnes(a);
      var m := TrimDropsOnes(b);
      assert OnesBefore(a, k) && OnesBefore(b, m) && a[k..] == b[m..];
    }
    forall k: nat, m: nat | OnesBefore(a, k) && OnesBefore(b, m) && a[k..] == b[m..] ensures Trim(a) == Trim(b) {
      TrimSkips(a, k);
      TrimSkips(b, m);
    }
  }

  /** An index into a tensor: one coordinate per extent, within it. */
  predicate IsIndex(shape: seq<int>, index: seq<nat>) {
    |index| == |shape| && forall i :: 0 <= i < |shape| ==> index[i] < shape[i]
  }

  /** Row-major position of an element. */
  function Position(shape: seq<int>, index: seq<nat>): int
    requires |index| == |shape|
  {
    if shape == [] then 0 else index[0] * Product(shape[1..]) + Position(shape[1..], index[1..])
  }

  lemma {:induction false} TrimKeepsProduct(shape: seq<int>)
    ensures Product(Trim(shape)) == Product(shape)
  {
    if |shape| > 1 && shape[0] == 1 {
      TrimKeepsProduct(shape[1..]);
    }
  }

  /** The coordinates of an index that survive trimming; the dropped ones are all 0. */
  lemma {:induction false} TrimKeepsPosition(shape: seq<int>, index: seq<nat>)
    requires IsIndex(shape, index)
    ensures var kept := index[|shape| - |Trim(shape)|..];
      IsIndex(Trim(shape), kept) && Position(Trim(shape), kept) == Position(shape, index)
  {
    if |shape| > 1 && shape[0] == 1 {
      TrimKeepsPosition(shape[1..], index[1..]);
      assert index[1..][|shape| - 1 - |Trim(shape)|..] == index[|shape| - |Trim(shape)|..];
      assert index[0] == 0;
    }
  }

  /** Adoption changes nothing but the shape, and keeps the element count, for every tensor. */
  lemma AdoptionKeepsCount(metas: seq<TensorMeta>, t: Tensor)
    ensures Adopted(metas, t) == t.(shape := Adopted(metas, t).shape) && Product(Adopted(metas, t).shape) == Product(t.shape)
  {
    TrimKeepsProduct(t.shape);
    TrimKeepsProduct(Adopted(metas, t).shape);
  }

  /** The element with given trailing coordinates stays at the same row-major position. */
  lemma AdoptionKeepsElements(metas: seq<TensorMeta>, t: Tensor, before: seq<nat>, after: seq<nat>)
    requires var r := Adopted(metas, t);
      && IsIndex(t.shape, before) && IsIndex(r.shape, after)
      && (r.shape == t.shape ==> after == before)
      && (r.shape != t.shape ==> before[|t.shape| - |Trim(t.shape)|..] == after[|r.shape| - |Trim(r.shape)|..])
    ensures Position(Adopted(metas, t).shape, after) == Position(t.shape, before)
  {
    TrimKeepsPosition(t.shape, before);
    TrimKeepsPosition(Adopted(metas, t).shape, after);
  }
}
