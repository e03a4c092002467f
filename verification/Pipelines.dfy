/** A pipeline as a chain of steps over named tensors, and its plain meaning: every lookup copies. */
module Pipelines {
  import opened Wrappers
  import opened Tensors

  datatype TensorMeta = TensorMeta(name: string, dtype: DType, shape: seq<int>)

  datatype Step = Step(
    name: string, isModel: bool, inputMap: map<string, string>, outputMap: map<string, string>,
    inputs: seq<TensorMeta>, outputs: seq<TensorMeta>)

  type Values = map<string, Tensor>

  /** What running one step on its inputs comes to. */
  datatype StepResult = Produced(outputs: seq<Tensor>) | Stopped(response: Response)

  /**
   * What each step of one request does with the inputs it is given. Steps run once each and in order, so a model
   * that is reloaded between requests, or answers differently each time, is covered.
   */
  type Behaviour = (nat, seq<Tensor>) -> StepResult

  /** An absent entry means the name itself. */
  function Mapped(names: map<string, string>, name: string): string {
    if name in names then names[name] else name
  }

  /** The graph tensor that input `i` of a step reads. */
  function Read(step: Step, i: nat): string
    requires i < |step.inputs|
  {
    Mapped(step.inputMap, step.inputs[i].name)
  }

  predicate Reads(step: Step, name: string) {
    exists i :: 0 <= i < |step.inputs| && Read(step, i) == name
  }

  predicate IsOutput(outputs: seq<TensorMeta>, name: string) {
    exists i :: 0 <= i < |outputs| && outputs[i].name == name
  }

  // ------------------------------------------------------ shapes between steps

  /** Drops leading extents of 1, keeping at least one extent. */
  function Trim(shape: seq<int>): (r: seq<int>)
    ensures |r| <= |shape| && (shape != [] ==> r != [])
  {
    if |shape| > 1 && shape[0] == 1 then Trim(shape[1..]) else shape
  }

  function FindMeta(metas: seq<TensorMeta>, name: string): Option<TensorMeta> {
    if metas == [] then None else if metas[0].name == name then Some(metas[0]) else FindMeta(metas[1..], name)
  }

  /** Entry `m` is the first of that name. */
  predicate Declares(metas: seq<TensorMeta>, m: nat, name: string) {
    m < |metas| && metas[m].name == name && forall k :: 0 <= k < m ==> metas[k].name != name
  }

  lemma {:induction false} FindIsFirst(metas: seq<TensorMeta>, m: nat, name: string)
    requires Declares(metas, m, name)
    ensures FindMeta(metas, name) == Some(metas[m])
  {
    if m > 0 {
      assert forall k :: 0 <= k < m - 1 ==> metas[1..][k] == metas[k + 1];
      FindIsFirst(metas[1..], m - 1, name);
    }
  }

  lemma {:induction false} FirstIsFound(metas: seq<TensorMeta>, name: string) returns (m: nat)
    requires FindMeta(metas, name).Some?
    ensures Declares(metas, m, name)
  {
    if metas[0].name == name {
      m := 0;
    } else {
      var k := FirstIsFound(metas[1..], name);
      m := k + 1;
      assert forall i :: 0 < i < m ==> metas[i] == metas[1..][i - 1];
    }
  }

  /** The tensor with the declared shape of its input, where the two differ in leading ones only. */
  function Adopted(metas: seq<TensorMeta>, t: Tensor): Tensor {
    match FindMeta(metas, t.name)
    case None => t
    case Some(m) => if NonNegative(m.shape) && Trim(m.shape) == Trim(t.shape) then t.(shape := m.shape) else t
  }

  /** The inputs as the step gets them: a model step adopts declared shapes, a built-in takes them as they are. */
  function Fed(step: Step, inputs: seq<Tensor>): seq<Tensor> {
    if step.isModel then seq(|inputs|, i requires 0 <= i < |inputs| => Adopted(step.inputs, inputs[i])) else inputs
  }

  // ------------------------------------------------------------ copying meaning

  datatype Gathered = Inputs(tensors: seq<Tensor>) | Missing(name: string)

  datatype Outcome = Finished(values: Values) | MissingInput(step: nat, name: string) | StepFailed(step: nat, response: Response)

  /** The request's inputs by name; the first of a name wins. */
  function Bind(inputs: seq<Tensor>): Values {
    if inputs == [] then map[]
    else
      var last := |inputs| - 1;
      var rest := Bind(inputs[..last]);
      if inputs[last].name in rest then rest else rest[inputs[last].name := inputs[last]]
  }

  /** Inputs `i` onwards of a step, or the first one that is missing. */
  function Gather(step: Step, values: Values, i: nat): Gathered
    requires i <= |step.inputs|
    decreases |step.inputs| - i
  {
    if i == |step.inputs| then Inputs([])
    else if Read(step, i) !in values then Missing(Read(step, i))
    else
      match Gather(step, values, i + 1)
      case Missing(name) => Missing(name)
      case Inputs(rest) => Inputs([values[Read(step, i)].(name := step.inputs[i].name)] + rest)
  }

  /** Outputs under their graph names; a later one of a name wins. */
  function Store(step: Step, values: Values, produced: seq<Tensor>): Values {
    if produced == [] then values
    else
      var last := |produced| - 1;
      var name := Mapped(step.outputMap, produced[last].name);
      Store(step, values, produced[..last])[name := produced[last].(name := name)]
  }

  function RunFrom(steps: seq<Step>, k: nat, values: Values, run: Behaviour): Outcome
    requires k <= |steps|
    decreases |steps| - k
  {
    if k == |steps| then Finished(values)
    else
      match Gather(steps[k], values, 0)
      case Missing(name) => MissingInput(k, name)
      case Inputs(tensors) =>
        match run(k, Fed(steps[k], tensors))
        case Stopped(response) => StepFailed(k, response)
        case Produced(outputs) => RunFrom(steps, k + 1, Store(steps[k], values, outputs), run)
  }

  function Failure(code: string, message: string): Response {
    Response(false, code, message, [])
  }

  function MissingInputFailure(step: string, name: string): Response {
    Failure("INVALID_ARGUMENT", "pipeline step '" + step + "' is missing input tensor '" + name + "'")
  }

  function MissingOutputFailure(name: string): Response {
    Failure("INTERNAL", "pipeline produced no tensor named '" + name + "'")
  }

  predicate Wanted(requested: seq<string>, name: string) {
    requested == [] || name in requested
  }

  /** Outputs `i` onwards that the request wants, or the first one never produced. */
  function Collect(outputs: seq<TensorMeta>, requested: seq<string>, values: Values, i: nat): Gathered
    requires i <= |outputs|
    decreases |outputs| - i
  {
    if i == |outputs| then Inputs([])
    else if !Wanted(requested, outputs[i].name) then Collect(outputs, requested, values, i + 1)
    else if outputs[i].name !in values then Missing(outputs[i].name)
    else
      match Collect(outputs, requested, values, i + 1)
      case Missing(name) => Missing(name)
      case Inputs(rest) => Inputs([values[outputs[i].name]] + rest)
  }

  function Respond(steps: seq<Step>, outputs: seq<TensorMeta>, requested: seq<string>, outcome: Outcome): Response {
    match outcome
    case MissingInput(k, name) => MissingInputFailure(if k < |steps| then steps[k].name else "", name)
    case StepFailed(_, response) => response
    case Finished(values) =>
      match Collect(outputs, requested, values, 0)
      case Missing(name) => MissingOutputFailure(name)
      case Inputs(tensors) => Response(true, "", "", tensors)
  }

  /** The reference: every step reads copies, and nothing is ever erased. */
  function CopyingInfer(steps: seq<Step>, outputs: seq<TensorMeta>, request: Request, run: Behaviour): Response {
    Respond(steps, outputs, request.outputs, RunFrom(steps, 0, Bind(request.inputs), run))
  }

  // ------------------------------------------------- what is still needed

  /** Some input from `(k, i)` on reads the tensor, or it leaves as an output of the pipeline. */
  predicate Needed(steps: seq<Step>, outputs: seq<TensorMeta>, k: nat, i: nat, name: string) {
    || IsOutput(outputs, name)
    || (k < |steps| && exists j :: i <= j < |steps[k].inputs| && Read(steps[k], j) == name)
    || exists m :: k < m < |steps| && Reads(steps[m], name)
  }

  predicate SameAt(a: Values, b: Values, name: string) {
    (name in a <==> name in b) && (name in a ==> a[name] == b[name])
  }

  /** The value map holds what the copying run holds, for every tensor still needed. */
  ghost predicate Agrees(steps: seq<Step>, outputs: seq<TensorMeta>, k: nat, i: nat, values: Values, full: Values) {
    forall name :: Needed(steps, outputs, k, i, name) ==> SameAt(values, full, name)
  }

  predicate ReadBefore(steps: seq<Step>, upto: nat, name: string)
    requires upto <= |steps|
  {
    exists k :: 0 <= k < upto && Reads(steps[k], name)
  }

  /** Step `k` is the last of the first `upto` to read the tensor. */
  predicate LastReader(steps: seq<Step>, upto: nat, k: nat, name: string)
    requires upto <= |steps|
  {
    k < upto && Reads(steps[k], name) && forall m :: k < m < upto ==> !Reads(steps[m], name)
  }

  /** The index of last uses over the first `upto` steps, for one tensor. */
  predicate Indexed(steps: seq<Step>, upto: nat, lastUse: map<string, nat>, name: string)
    requires upto <= |steps|
  {
    && (name in lastUse <==> ReadBefore(steps, upto, name))
    && (name in lastUse ==> LastReader(steps, upto, lastUse[name], name))
  }

  /** For each tensor that some step reads and that does not leave as an output, the last step reading it. */
  ghost predicate IsLastUse(steps: seq<Step>, outputs: seq<TensorMeta>, lastUse: map<string, nat>) {
    forall name ::
      && (name in lastUse <==> !IsOutput(outputs, name) && ReadBefore(steps, |steps|, name))
      && (name in lastUse ==> LastReader(steps, |steps|, lastUse[name], name))
  }

  lemma StoreSame(step: Step, a: Values, b: Values, produced: seq<Tensor>, name: string)
    requires SameAt(a, b, name)
    ensures SameAt(Store(step, a, produced), Store(step, b, produced), name)
    decreases |produced|
  {
    if produced != [] {
      StoreSame(step, a, b, produced[..|produced| - 1], name);
    }
  }

  lemma AgreesAfterStep(steps: seq<Step>, outputs: seq<TensorMeta>, k: nat, values: Values, full: Values, produced: seq<Tensor>)
    requires k < |steps| && Agrees(steps, outputs, k, |steps[k].inputs|, values, full)
    ensures Agrees(steps, outputs, k + 1, 0, Store(steps[k], values, produced), Store(steps[k], full, produced))
  {
    forall name | Needed(steps, outputs, k + 1, 0, name)
      ensures SameAt(Store(steps[k], values, produced), Store(steps[k], full, produced), name)
    {
      NeededEarlier(steps, outputs, k, name);
      StoreSame(steps[k], values, full, produced, name);
    }
  }

  lemma NeededEarlier(steps: seq<Step>, outputs: seq<TensorMeta>, k: nat, name: string)
    requires k < |steps| && Needed(steps, outputs, k + 1, 0, name)
    ensures Needed(steps, outputs, k, |steps[k].inputs|, name)
  {
    if !IsOutput(outputs, name) && !(exists m :: k + 1 < m < |steps| && Reads(steps[m], name)) {
      assert Reads(steps[k + 1], name);
    }
  }

  /** A tensor read for the last time, with no later input of the same step reading it, is not needed any more. */
  lemma LastUseIsLast(steps: seq<Step>, outputs: seq<TensorMeta>, lastUse: map<string, nat>, k: nat, i: nat)
    requires IsLastUse(steps, outputs, lastUse) && k < |steps| && i < |steps[k].inputs|
    requires var name := Read(steps[k], i);
      name in lastUse && lastUse[name] == k && forall j :: i < j < |steps[k].inputs| ==> Read(steps[k], j) != name
    ensures !Needed(steps, outputs, k, i + 1, Read(steps[k], i))
  {
  }

  /** What is true of the value map stays true when a tensor not needed any more is erased. */
  lemma AgreesErased(steps: seq<Step>, outputs: seq<TensorMeta>, k: nat, i: nat, values: Values, full: Values, gone: set<string>)
    requires k < |steps| && i < |steps[k].inputs| && Agrees(steps, outputs, k, i, values, full)
    requires forall name :: name in gone ==> !Needed(steps, outputs, k, i + 1, name)
    ensures Agrees(steps, outputs, k, i + 1, values - gone, full)
    ensures SameAt(values, full, Read(steps[k], i))
  {
    assert Needed(steps, outputs, k, i, Read(steps[k], i));
    forall name | Needed(steps, outputs, k, i + 1, name) ensures SameAt(values - gone, full, name) {
      assert Needed(steps, outputs, k, i, name);
    }
  }

  lemma NeededNow(steps: seq<Step>, outputs: seq<TensorMeta>, k: nat, i: nat, values: Values, full: Values)
    requires k < |steps| && i < |steps[k].inputs| && Agrees(steps, outputs, k, i, values, full)
    ensures SameAt(values, full, Read(steps[k], i))
  {
    AgreesErased(steps, outputs, k, i, values, full, {});
  }

  /** Moving a tensor out at its last use, and copying it otherwise, leaves everything still needed in the map. */
  lemma MoveOrCopy(
      steps: seq<Step>, outputs: seq<TensorMeta>, lastUse: map<string, nat>, k: nat, i: nat, values: Values, full: Values, moved: bool)
    requires IsLastUse(steps, outputs, lastUse) && k < |steps| && i < |steps[k].inputs| && Agrees(steps, outputs, k, i, values, full)
    requires var name := Read(steps[k], i);
      moved ==> name in lastUse && lastUse[name] == k && forall j :: i < j < |steps[k].inputs| ==> Read(steps[k], j) != name
    ensures Agrees(steps, outputs, k, i + 1, if moved then values - {Read(steps[k], i)} else values, full)
  {
    if moved {
      LastUseIsLast(steps, outputs, lastUse, k, i);
      AgreesErased(steps, outputs, k, i, values, full, {Read(steps[k], i)});
    } else {
      AgreesErased(steps, outputs, k, i, values, full, {});
      assert values - {} == values;
    }
  }

  lemma GatherOne(step: Step, full: Values, i: nat, taken: seq<Tensor>, tensor: Tensor)
    requires i < |step.inputs| && Read(step, i) in full && tensor == full[Read(step, i)].(name := step.inputs[i].name)
    ensures Prepend(taken, Gather(step, full, i)) == Prepend(taken + [tensor], Gather(step, full, i + 1))
  {
    assert Gather(step, full, i) == Prepend([tensor], Gather(step, full, i + 1));
    PrependOne(taken, tensor, Gather(step, full, i + 1));
  }

  function Prepend(xs: seq<Tensor>, g: Gathered): Gathered {
    match g
    case Missing(name) => Missing(name)
    case Inputs(rest) => Inputs(xs + rest)
  }

  lemma PrependOne(xs: seq<Tensor>, x: Tensor, g: Gathered)
    ensures Prepend(xs, Prepend([x], g)) == Prepend(xs + [x], g)
  {
    if g.Inputs? {
      assert xs + ([x] + g.tensors) == xs + [x] + g.tensors;
    }
  }

  lemma CollectSame(outputs: seq<TensorMeta>, requested: seq<string>, a: Values, b: Values, i: nat)
    requires i <= |outputs| && forall name :: IsOutput(outputs, name) ==> SameAt(a, b, name)
    ensures Collect(outputs, requested, a, i) == Collect(outputs, requested, b, i)
    decreases |outputs| - i
  {
    if i < |outputs| {
      assert IsOutput(outputs, outputs[i].name);
      CollectSame(outputs, requested, a, b, i + 1);
    }
  }
}
