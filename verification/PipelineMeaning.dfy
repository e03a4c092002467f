/**
 * What a pipeline answers, told without the interpreter: which tensors are there before each step, what each step is given, and which
 * tensors of the last of these states make the response.
 */
module PipelineMeaning {
  import opened Wrappers
  import opened Tensors
  import opened Pipelines
  import PipelineExecutor
  import opened PipelineWiring

  /** The graph's name for a tensor of a step. */
  function GraphName(names: map<string, string>, own: string): string {
    if own in names then names[own] else own
  }

  /** `t` is the first tensor of that name. */
  predicate FirstOf(tensors: seq<Tensor>, name: string, t: Tensor) {
    exists i :: 0 <= i < |tensors| && tensors[i] == t && t.name == name && forall j :: 0 <= j < i ==> tensors[j].name != name
  }

  predicate Has(tensors: seq<Tensor>, name: string) {
    exists i :: 0 <= i < |tensors| && tensors[i].name == name
  }

  /** Before the first step there are the request's inputs; the first of a name counts. */
  ghost predicate Starts(inputs: seq<Tensor>, values: Values) {
    forall name :: (name in values <==> Has(inputs, name)) && (name in values ==> FirstOf(inputs, name, values[name]))
  }

  /** A step is given, for each of its inputs, the tensor of that graph name under the input's own name. */
  predicate Feeds(step: Step, values: Values, given: seq<Tensor>) {
    && |given| == |step.inputs|
    && forall i :: 0 <= i < |given| ==>
         var name := GraphName(step.inputMap, step.inputs[i].name);
         name in values && given[i] == values[name].(name := step.inputs[i].name)
  }

  /** Input `i` is the first whose tensor is not there. */
  predicate Lacks(step: Step, values: Values, i: nat) {
    && i < |step.inputs| && GraphName(step.inputMap, step.inputs[i].name) !in values
    && forall j :: 0 <= j < i ==> GraphName(step.inputMap, step.inputs[j].name) in values
  }

  /** The tensor takes on the declared shape exactly where that is fully fixed and differs in leading ones only. */
  ghost predicate Adopts(metas: seq<TensorMeta>, t: Tensor, r: Tensor) {
    && r == t.(shape := r.shape)
    && (forall m: nat :: Declares(metas, m, t.name) ==>
          if (forall d :: 0 <= d < |metas[m].shape| ==> metas[m].shape[d] >= 0) && DifferInLeadingOnes(metas[m].shape, t.shape)
          then r.shape == metas[m].shape else r.shape == t.shape)
    && ((forall m :: 0 <= m < |metas| ==> metas[m].name != t.name) ==> r.shape == t.shape)
  }

  /** A model step adopts declared shapes; a built-in takes what it is given. */
  ghost predicate Adapts(step: Step, given: seq<Tensor>, fed: seq<Tensor>) {
    |fed| == |given| && forall i :: 0 <= i < |given| ==> if step.isModel then Adopts(step.inputs, given[i], fed[i]) else fed[i] == given[i]
  }

  /** Output `k` is the last that goes by that graph name. */
  predicate LastOf(step: Step, produced: seq<Tensor>, k: nat, name: string) {
    && k < |produced| && GraphName(step.outputMap, produced[k].name) == name
    && forall j :: k < j < |produced| ==> GraphName(step.outputMap, produced[j].name) != name
  }

  ghost predicate Lands(step: Step, produced: seq<Tensor>, name: string) {
    exists k: nat :: LastOf(step, produced, k, name)
  }

  /** A step's outputs replace what had their graph names, the last of a name counting; everything else is still there. */
  ghost predicate Follows(step: Step, before: Values, produced: seq<Tensor>, after: Values) {
    && (forall name, k: nat :: LastOf(step, produced, k, name) ==> name in after && after[name] == produced[k].(name := name))
    && (forall name :: !Lands(step, produced, name) ==> SameAt(after, before, name))
  }

  /** Step `k` runs between the two states. */
  ghost predicate Runs(steps: seq<Step>, run: Behaviour, k: nat, before: Values, after: Values)
    requires k < |steps|
  {
    exists given, fed ::
      Feeds(steps[k], before, given) && Adapts(steps[k], given, fed) && run(k, fed).Produced? && Follows(steps[k], before, run(k, fed).outputs, after)
  }

  /** The states before each step that was reached, and after the last if all have run. */
  ghost predicate Trace(steps: seq<Step>, inputs: seq<Tensor>, run: Behaviour, trace: seq<Values>) {
    0 < |trace| <= |steps| + 1 && Starts(inputs, trace[0]) && Linked(steps, run, trace)
  }

  ghost predicate Linked(steps: seq<Step>, run: Behaviour, trace: seq<Values>)
    requires |trace| <= |steps| + 1
  {
    forall k :: 0 <= k < |trace| - 1 ==> Runs(steps, run, k, trace[k], trace[k + 1])
  }

  predicate Asked(requested: seq<string>, name: string) {
    requested == [] || name in requested
  }

  /** All declared outputs that are asked for, all of them if none is named, in declared order. */
  ghost predicate Selects(outputs: seq<TensorMeta>, requested: seq<string>, values: Values, tensors: seq<Tensor>, at: seq<nat>) {
    && |at| == |tensors| && (forall i, j :: 0 <= i < j < |at| ==> at[i] < at[j])
    && (forall p: nat :: p in at <==> p < |outputs| && Asked(requested, outputs[p].name))
    && forall i :: 0 <= i < |at| ==>
         at[i] < |outputs| && outputs[at[i]].name in values && tensors[i] == values[outputs[at[i]].name] && tensors[i].name == outputs[at[i]].name
  }

  predicate LacksOutput(outputs: seq<TensorMeta>, requested: seq<string>, values: Values, i: nat) {
    && i < |outputs| && Asked(requested, outputs[i].name) && outputs[i].name !in values
    && forall j :: 0 <= j < i && Asked(requested, outputs[j].name) ==> outputs[j].name in values
  }

  /** All steps have run: the outputs asked for, or the name of the first that was never produced. */
  ghost predicate Concludes(outputs: seq<TensorMeta>, requested: seq<string>, values: Values, r: Response) {
    || (exists at :: Selects(outputs, requested, values, r.outputs, at) && r == Response(true, "", "", r.outputs))
    || (exists i: nat :: (LacksOutput(outputs, requested, values, i) &&
         r == Response(false, "INTERNAL", "pipeline produced no tensor named '" + outputs[i].name + "'", [])))
  }

  /** Step `k` is not passed: one of its inputs is missing, or it fails itself. */
  ghost predicate Halts(steps: seq<Step>, run: Behaviour, k: nat, values: Values, r: Response)
    requires k < |steps|
  {
    var step := steps[k];
    || (exists i: nat :: (Lacks(step, values, i) && r == Response(false, "INVALID_ARGUMENT",
         "pipeline step '" + step.name + "' is missing input tensor '" + GraphName(step.inputMap, step.inputs[i].name) + "'", [])))
    || (exists given, fed :: Feeds(step, values, given) && Adapts(step, given, fed) && run(k, fed) == Stopped(r))
  }

  // ------------------------------------------------------------------ values

  lemma {:induction false} BindStarts(inputs: seq<Tensor>)
    ensures Starts(inputs, Bind(inputs))
  {
    if inputs != [] {
      var last := |inputs| - 1;
      var rest := inputs[..last];
      BindStarts(rest);
      forall name ensures (name in Bind(inputs) <==> Has(inputs, name)) && (name in Bind(inputs) ==> FirstOf(inputs, name, Bind(inputs)[name])) {
        assert Has(inputs, name) <==> Has(rest, name) || inputs[last].name == name;
        if name in Bind(inputs) {
          FirstOfMore(inputs, last, name, Bind(inputs));
        }
      }
    }
  }

  lemma FirstOfMore(inputs: seq<Tensor>, last: nat, name: string, all: Values)
    requires last == |inputs| - 1 && name in all && Has(inputs, name)
    requires if Has(inputs[..last], name) then FirstOf(inputs[..last], name, all[name]) else all[name] == inputs[last] && inputs[last].name == name
    ensures FirstOf(inputs, name, all[name])
  {
    if Has(inputs[..last], name) {
      var i :| 0 <= i < last && inputs[..last][i] == all[name] && all[name].name == name && forall j :: 0 <= j < i ==> inputs[..last][j].name != name;
      assert inputs[i] == all[name];
    } else {
      assert forall j :: 0 <= j < last ==> inputs[..last][j].name == inputs[j].name;
    }
  }

  lemma {:induction false} StoreFollows(step: Step, before: Values, produced: seq<Tensor>)
    ensures Follows(step, before, produced, Store(step, before, produced))
  {
    if produced != [] {
      var last := |produced| - 1;
      StoreFollows(step, before, produced[..last]);
      StoreOneMore(step, before, produced, last, produced[..last]);
    }
  }

  lemma StoreOneMore(step: Step, before: Values, produced: seq<Tensor>, last: nat, rest: seq<Tensor>)
    requires last == |produced| - 1 && rest == produced[..last] && Follows(step, before, rest, Store(step, before, rest))
    ensures Follows(step, before, produced, Store(step, before, produced))
  {
    var after, own := Store(step, before, produced), GraphName(step.outputMap, produced[last].name);
    assert after == Store(step, before, rest)[own := produced[last].(name := own)];
    forall name, k: nat | LastOf(step, produced, k, name) ensures name in after && after[name] == produced[k].(name := name) {
      LastOfRest(step, produced, last, rest, k, name);
    }
    forall name | !Lands(step, produced, name) ensures SameAt(after, before, name) {
      NotLanding(step, produced, last, rest, name);
    }
  }

  lemma LastOfRest(step: Step, produced: seq<Tensor>, last: nat, rest: seq<Tensor>, k: nat, name: string)
    requires last == |produced| - 1 && rest == produced[..last] && LastOf(step, produced, k, name)
    ensures k == last || (LastOf(step, rest, k, name) && GraphName(step.outputMap, produced[last].name) != name)
  {
  }

  lemma NotLanding(step: Step, produced: seq<Tensor>, last: nat, rest: seq<Tensor>, name: string)
    requires last == |produced| - 1 && rest == produced[..last] && !Lands(step, produced, name)
    ensures GraphName(step.outputMap, produced[last].name) != name && !Lands(step, rest, name)
  {
    assert !LastOf(step, produced, last, name);
    forall k: nat ensures !LastOf(step, rest, k, name) {
      assert !LastOf(step, produced, k, name);
    }
  }

  lemma {:induction false} GatherMeans(step: Step, values: Values, i: nat) returns (missing: nat)
    requires i <= |step.inputs| && forall j :: 0 <= j < i ==> GraphName(step.inputMap, step.inputs[j].name) in values
    ensures match Gather(step, values, i)
      case Missing(name) => Lacks(step, values, missing) && name == GraphName(step.inputMap, step.inputs[missing].name)
      case Inputs(rest) => |rest| == |step.inputs| - i && forall j :: i <= j < |step.inputs| ==>
        var name := GraphName(step.inputMap, step.inputs[j].name);
        name in values && rest[j - i] == values[name].(name := step.inputs[j].name)
    decreases |step.inputs| - i
  {
    missing := i;
    if i < |step.inputs| && Read(step, i) in values {
      missing := GatherMeans(step, values, i + 1);
    }
  }

  lemma AdoptedMeans(metas: seq<TensorMeta>, t: Tensor)
    ensures Adopts(metas, t, Adopted(metas, t))
  {
    forall m: nat | Declares(metas, m, t.name) ensures FindMeta(metas, t.name) == Some(metas[m]) {
      FindIsFirst(metas, m, t.name);
    }
    if FindMeta(metas, t.name).Some? {
      var m := FirstIsFound(metas, t.name);
      SameTrims(metas[m].shape, t.shape);
    }
  }

  lemma SameTrims(a: seq<int>, b: seq<int>)
    ensures Trim(a) == Trim(b) <==> a == b || DifferInLeadingOnes(a, b)
  {
    if a != [] && b != [] {
      TrimTestIsExact(a, b);
    }
  }

  lemma FedAdapts(step: Step, given: seq<Tensor>)
    ensures Adapts(step, given, Fed(step, given))
  {
    forall i | 0 <= i < |given| && step.isModel ensures Adopts(step.inputs, given[i], Fed(step, given)[i]) {
      AdoptedMeans(step.inputs, given[i]);
    }
  }

  // ------------------------------------------------------------------- steps

  /** Every tensor goes by the name it is kept under. */
  ghost predicate WellNamed(values: Values) {
    forall name :: name in values ==> values[name].name == name
  }

  lemma FollowsNamed(step: Step, before: Values, produced: seq<Tensor>, after: Values)
    requires WellNamed(before) && Follows(step, before, produced, after)
    ensures WellNamed(after)
  {
    forall name | name in after ensures after[name].name == name {
      if Lands(step, produced, name) {
        var k: nat :| LastOf(step, produced, k, name);
      } else {
        assert SameAt(after, before, name);
      }
    }
  }

  lemma StepRuns(steps: seq<Step>, k: nat, values: Values, run: Behaviour, given: seq<Tensor>, fed: seq<Tensor>, after: Values)
    requires k < |steps| && WellNamed(values) && Feeds(steps[k], values, given) && Adapts(steps[k], given, fed)
    requires run(k, fed).Produced? && after == Store(steps[k], values, run(k, fed).outputs)
    ensures Runs(steps, run, k, values, after) && WellNamed(after)
  {
    StoreFollows(steps[k], values, run(k, fed).outputs);
    FollowsNamed(steps[k], values, run(k, fed).outputs, after);
  }

  /** All steps have run and the last state is what is left, or the step after the last state is what the failure is about. */
  ghost predicate EndsAs(steps: seq<Step>, run: Behaviour, trace: seq<Values>, end: Outcome) {
    && 0 < |trace| <= |steps| + 1
    && if |trace| == |steps| + 1 then end == Finished(trace[|steps|])
       else !end.Finished? && Halts(steps, run, |trace| - 1, trace[|trace| - 1], Respond(steps, [], [], end))
  }

  /** From step `k` on: the states reached, and how it ends. */
  lemma {:induction false} RunFromMeans(steps: seq<Step>, k: nat, values: Values, run: Behaviour, so: seq<Values>) returns (trace: seq<Values>)
    requires k <= |steps| && |so| == k + 1 && so[k] == values && WellNamed(values)
    requires Linked(steps, run, so)
    ensures |so| <= |trace| <= |steps| + 1 && trace[0] == so[0] && WellNamed(trace[|trace| - 1])
    ensures Linked(steps, run, trace)
    ensures EndsAs(steps, run, trace, RunFrom(steps, k, values, run))
    decreases |steps| - k
  {
    trace := so;
    if k < |steps| {
      var after := StepMeans(steps, k, values, run);
      if after.Some? {
        trace := RunFromMeans(steps, k + 1, after.value, run, so + [after.value]);
      }
    }
  }

  /** One step: it runs and the rest follows, or it halts. */
  lemma StepMeans(steps: seq<Step>, k: nat, values: Values, run: Behaviour) returns (after: Option<Values>)
    requires k < |steps| && WellNamed(values)
    ensures after.Some? ==>
      Runs(steps, run, k, values, after.value) && WellNamed(after.value) && RunFrom(steps, k, values, run) == RunFrom(steps, k + 1, after.value, run)
    ensures after.None? ==>
      !RunFrom(steps, k, values, run).Finished? && Halts(steps, run, k, values, Respond(steps, [], [], RunFrom(steps, k, values, run)))
  {
    var missing := GatherMeans(steps[k], values, 0);
    var gathered := Gather(steps[k], values, 0);
    after := None;
    if gathered.Inputs? {
      FedAdapts(steps[k], gathered.tensors);
      var fed := Fed(steps[k], gathered.tensors);
      assert Feeds(steps[k], values, gathered.tensors);
      if run(k, fed).Produced? {
        after := Some(Store(steps[k], values, run(k, fed).outputs));
        StepRuns(steps, k, values, run, gathered.tensors, fed, after.value);
      }
    }
  }

  lemma {:induction false} CollectMeans(outputs: seq<TensorMeta>, requested: seq<string>, values: Values, i: nat)
      returns (at: seq<nat>, missing: nat)
    requires i <= |outputs| && WellNamed(values)
    requires forall j :: 0 <= j < i && Asked(requested, outputs[j].name) ==> outputs[j].name in values
    ensures match Collect(outputs, requested, values, i)
      case Missing(name) => LacksOutput(outputs, requested, values, missing) && name == outputs[missing].name
      case Inputs(rest) => SelectsFrom(outputs, requested, values, rest, at, i)
    decreases |outputs| - i
  {
    at, missing := [], i;
    if i < |outputs| && (!Wanted(requested, outputs[i].name) || outputs[i].name in values) {
      var rest, lacking := CollectMeans(outputs, requested, values, i + 1);
      at, missing := if Wanted(requested, outputs[i].name) then [i] + rest else rest, lacking;
      var more := Collect(outputs, requested, values, i + 1);
      if more.Inputs? {
        SelectsOneMore(outputs, requested, values, more.tensors, rest, i, at);
      }
    }
  }

  lemma SelectsOneMore(
      outputs: seq<TensorMeta>, requested: seq<string>, values: Values, tensors: seq<Tensor>, rest: seq<nat>, i: nat, at: seq<nat>)
    requires i < |outputs| && WellNamed(values) && SelectsFrom(outputs, requested, values, tensors, rest, i + 1)
    requires at == if Asked(requested, outputs[i].name) then [i] + rest else rest
    requires Asked(requested, outputs[i].name) ==> outputs[i].name in values
    ensures SelectsFrom(outputs, requested, values, if Asked(requested, outputs[i].name) then [values[outputs[i].name]] + tensors else tensors, at, i)
  {
    if Asked(requested, outputs[i].name) {
      SelectsFirst(outputs, requested, values, tensors, rest, i, at, [values[outputs[i].name]] + tensors);
    }
  }

  lemma SelectsFirst(
      outputs: seq<TensorMeta>, requested: seq<string>, values: Values, tensors: seq<Tensor>, rest: seq<nat>, i: nat, at: seq<nat>, all: seq<Tensor>)
    requires i < |outputs| && WellNamed(values) && SelectsFrom(outputs, requested, values, tensors, rest, i + 1)
    requires Asked(requested, outputs[i].name) && outputs[i].name in values && at == [i] + rest && all == [values[outputs[i].name]] + tensors
    ensures SelectsFrom(outputs, requested, values, all, at, i)
  {
    forall j, k | 0 <= j < k < |at| ensures at[j] < at[k] {
      assert at[k] == rest[k - 1] && rest[k - 1] in rest;
    }
    forall j | 0 <= j < |at|
      ensures at[j] < |outputs| && outputs[at[j]].name in values && all[j] == values[outputs[at[j]].name] && all[j].name == outputs[at[j]].name
    {
      assert j > 0 ==> at[j] == rest[j - 1] && all[j] == tensors[j - 1];
    }
    assert forall p: nat :: p in at <==> p == i || p in rest;
  }

  /** As `Selects`, of the outputs from `i` on. */
  ghost predicate SelectsFrom(outputs: seq<TensorMeta>, requested: seq<string>, values: Values, tensors: seq<Tensor>, at: seq<nat>, i: nat) {
    && |at| == |tensors| && (forall j, k :: 0 <= j < k < |at| ==> at[j] < at[k])
    && (forall p: nat :: p in at <==> i <= p < |outputs| && Asked(requested, outputs[p].name))
    && forall j :: 0 <= j < |at| ==>
         at[j] < |outputs| && outputs[at[j]].name in values && tensors[j] == values[outputs[at[j]].name] && tensors[j].name == outputs[at[j]].name
  }

  /**
   * What a pipeline answers. There is a state of the tensors before each step that is reached: first the request's inputs, then after each step
   * its outputs in place of what had their names. If all steps run, the answer is all declared outputs that are asked for, or that one
   * was never produced; otherwise it says what stopped the first step that did not run.
   */
  lemma InferMeans(steps: seq<Step>, outputs: seq<TensorMeta>, request: Request, run: Behaviour) returns (trace: seq<Values>)
    ensures Trace(steps, request.inputs, run, trace)
    ensures var r, end := CopyingInfer(steps, outputs, request, run), trace[|trace| - 1];
      if |trace| == |steps| + 1 then Concludes(outputs, request.outputs, end, r) else Halts(steps, run, |trace| - 1, end, r)
  {
    var values := Bind(request.inputs);
    BindStarts(request.inputs);
    trace := RunFromMeans(steps, 0, values, run, [values]);
    if |trace| == |steps| + 1 {
      ConcludesWell(steps, outputs, request.outputs, trace[|steps|]);
    }
  }

  lemma ConcludesWell(steps: seq<Step>, outputs: seq<TensorMeta>, requested: seq<string>, values: Values)
    requires WellNamed(values)
    ensures Concludes(outputs, requested, values, Respond(steps, outputs, requested, Finished(values)))
  {
    var at, missing := CollectMeans(outputs, requested, values, 0);
    var collected := Collect(outputs, requested, values, 0);
    if collected.Inputs? {
      assert Selects(outputs, requested, values, collected.tensors, at);
    } else {
      assert LacksOutput(outputs, requested, values, missing);
    }
  }
}
