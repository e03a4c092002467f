/** The pipeline executor as it runs: one value map updated in place, tensors moved out at their last use. */
module PipelineExecutor {
  import opened Wrappers
  import opened Tensors
  import opened Pipelines

  class Executor {
    const steps: seq<Step>
    const outputs: seq<TensorMeta>
    var lastUse: map<string, nat>

    /** The pipeline exposes the last step's outputs under their graph names. */
    constructor (steps: seq<Step>)
      requires steps != []
      ensures this.steps == steps && outputs == Exposed(steps[|steps| - 1])
      ensures IsLastUse(steps, outputs, lastUse)
    {
      this.steps := steps;
      this.outputs := Exposed(steps[|steps| - 1]);
      this.lastUse := map[];
      new;
      IndexLastUse();
    }

    /** The outer loop of `indexLastUse`, then the tensors that must survive to the response. */
    method IndexLastUse()
      requires lastUse == map[]
      modifies this
      ensures IsLastUse(steps, outputs, lastUse)
    {
      for k := 0 to |steps|
        invariant forall name :: Indexed(steps, k, lastUse, name)
      {
        ghost var before := lastUse;
        IndexStep(steps[k], k);
        IndexedNext(steps, k, k + 1, before, lastUse);
      }
      ghost var all := lastUse;
      for i := 0 to |outputs|
        invariant forall name :: name in lastUse <==> name in all && !OutputBefore(outputs, i, name)
        invariant forall name :: name in lastUse ==> lastUse[name] == all[name]
      {
        lastUse := lastUse - {outputs[i].name};
      }
      IndexedWithout(steps, outputs, all, lastUse);
    }

    /** Runs a request, moving each tensor out of the value map at its last use. */
    method Infer(request: Request, run: Behaviour) returns (response: Response)
      requires IsLastUse(steps, outputs, lastUse)
      ensures response == CopyingInfer(steps, outputs, request, run)
    {
      var values := BindInputs(request.inputs);
      var failed, left, full := RunSteps(values, run);
      if failed.Some? {
        return failed.value;
      }
      var collected := CollectOutputs(request.outputs, left, full);
      response := if collected.Missing? then MissingOutputFailure(collected.name) else Response(true, "", "", collected.tensors);
    }

    /** All steps in order; `full` is what the map would hold at the end had nothing been moved. */
    method RunSteps(start: Values, run: Behaviour) returns (failed: Option<Response>, values: Values, ghost full: Values)
      requires IsLastUse(steps, outputs, lastUse)
      ensures failed.Some? ==> Failing(steps, RunFrom(steps, 0, start, run)) == failed
      ensures failed.None? ==> RunFrom(steps, 0, start, run) == Finished(full) && Agrees(steps, outputs, |steps|, 0, values, full)
    {
      values, full := start, start;
      ghost var whole := RunFrom(steps, 0, start, run);
      for k := 0 to |steps|
        invariant Agrees(steps, outputs, k, 0, values, full)
        invariant RunFrom(steps, k, full, run) == whole
      {
        failed, values, full := RunStep(values, k, full, run);
        if failed.Some? {
          return;
        }
      }
      failed := None;
    }

    method RunStep(start: Values, k: nat, ghost before: Values, run: Behaviour)
      returns (failed: Option<Response>, values: Values, ghost full: Values)
      requires IsLastUse(steps, outputs, lastUse) && k < |steps| && Agrees(steps, outputs, k, 0, start, before)
      ensures failed.Some? ==> Failing(steps, RunFrom(steps, k, before, run)) == failed
      ensures failed.None? ==> RunFrom(steps, k, before, run) == RunFrom(steps, k + 1, full, run) && Agrees(steps, outputs, k + 1, 0, values, full)
    {
      full := before;
      var gathered, left := TakeInputs(start, k, before);
      values := left;
      RunUnfolds(steps, k, before, run, gathered);
      if gathered.Missing? {
        return Some(MissingInputFailure(steps[k].name, gathered.name)), values, full;
      }
      var result := run(k, Fed(steps[k], gathered.tensors));
      if result.Stopped? {
        return Some(result.response), values, full;
      }
      AgreesAfterStep(steps, outputs, k, values, before, result.outputs);
      values := StoreOutputs(steps[k], values, result.outputs);
      full := Store(steps[k], before, result.outputs);
      failed := None;
    }

    method BindInputs(inputs: seq<Tensor>) returns (values: Values)
      ensures values == Bind(inputs)
    {
      values := map[];
      for i := 0 to |inputs|
        invariant values == Bind(inputs[..i])
      {
        assert inputs[..i + 1][..i] == inputs[..i];
        if inputs[i].name !in values {
          values := values[inputs[i].name := inputs[i]];
        }
      }
      assert inputs[..|inputs|] == inputs;
    }

    /** The inputs of step `k`; `full` is what the map would hold had nothing been moved. */
    method TakeInputs(start: Values, k: nat, ghost full: Values) returns (gathered: Gathered, values: Values)
      requires IsLastUse(steps, outputs, lastUse) && k < |steps| && Agrees(steps, outputs, k, 0, start, full)
      ensures gathered == Gather(steps[k], full, 0)
      ensures gathered.Inputs? ==> Agrees(steps, outputs, k, |steps[k].inputs|, values, full)
      ensures gathered.Inputs? ==> forall i :: 0 <= i < |steps[k].inputs| && LastUsedAt(lastUse, k, Read(steps[k], i)) ==> Read(steps[k], i) !in values
    {
      var step := steps[k];
      values := start;
      var taken: seq<Tensor> := [];
      for i := 0 to |step.inputs|
        invariant Agrees(steps, outputs, k, i, values, full)
        invariant Gather(step, full, 0) == Prepend(taken, Gather(step, full, i))
        invariant MovedOut(step, lastUse, k, i, values)
      {
        var name := Mapped(step.inputMap, step.inputs[i].name);
        NeededNow(steps, outputs, k, i, values, full);
        if name !in values {
          return Missing(name), values;
        }
        var tensor := values[name].(name := step.inputs[i].name);
        var again := ReadAhead(step, i + 1, name);
        var moved := !again && LastUsedAt(lastUse, k, name);
        MoveOrCopy(steps, outputs, lastUse, k, i, values, full, moved);
        MovedOutNext(step, lastUse, k, i, i + 1, values, if moved then values - {name} else values);
        if moved {
          values := values - {name};
        }
        GatherOne(step, full, i, taken, tensor);
        taken := taken + [tensor];
      }
      gathered := Inputs(taken);
    }

    method ReadAhead(step: Step, start: nat, name: string) returns (found: bool)
      requires start <= |step.inputs|
      ensures found <==> ReadsFrom(step, start, name)
    {
      for j := start to |step.inputs|
        invariant forall m :: start <= m < j ==> Read(step, m) != name
      {
        if Mapped(step.inputMap, step.inputs[j].name) == name {
          assert Read(step, j) == name;
          return true;
        }
      }
      found := false;
    }

    method StoreOutputs(step: Step, start: Values, produced: seq<Tensor>) returns (values: Values)
      ensures values == Store(step, start, produced)
    {
      values := start;
      for i := 0 to |produced|
        invariant values == Store(step, start, produced[..i])
      {
        assert produced[..i + 1][..i] == produced[..i];
        var name := Mapped(step.outputMap, produced[i].name);
        values := values[name := produced[i].(name := name)];
      }
      assert produced[..|produced|] == produced;
    }

    method CollectOutputs(requested: seq<string>, values: Values, ghost full: Values) returns (collected: Gathered)
      requires Agrees(steps, outputs, |steps|, 0, values, full)
      ensures collected == Collect(outputs, requested, full, 0)
    {
      CollectSame(outputs, requested, values, full, 0);
      var found: seq<Tensor> := [];
      for i := 0 to |outputs|
        invariant Collect(outputs, requested, values, 0) == Prepend(found, Collect(outputs, requested, values, i))
      {
        var name := outputs[i].name;
        if requested == [] || name in requested {
          if name !in values {
            return Missing(name);
          }
          assert Collect(outputs, requested, values, i) == Prepend([values[name]], Collect(outputs, requested, values, i + 1));
          PrependOne(found, values[name], Collect(outputs, requested, values, i + 1));
          found := found + [values[name]];
        }
      }
      collected := Inputs(found);
    }

    method IndexStep(step: Step, k: nat)
      modifies this
      ensures forall name :: Rebound(step, |step.inputs|, k, old(lastUse), lastUse, name)
    {
      for i := 0 to |step.inputs|
        invariant forall name :: Rebound(step, i, k, old(lastUse), lastUse, name)
      {
        ghost var before := lastUse;
        lastUse := lastUse[Mapped(step.inputMap, step.inputs[i].name) := k];
        ReboundNext(step, i, i + 1, k, old(lastUse), before, lastUse);
      }
    }
  }

  /** The response of a run that did not finish. */
  function Failing(steps: seq<Step>, outcome: Outcome): Option<Response> {
    match outcome
    case Finished(_) => None
    case MissingInput(k, name) => Some(MissingInputFailure(if k < |steps| then steps[k].name else "", name))
    case StepFailed(_, response) => Some(response)
  }

  lemma RunUnfolds(steps: seq<Step>, k: nat, full: Values, run: Behaviour, gathered: Gathered)
    requires k < |steps| && gathered == Gather(steps[k], full, 0)
    ensures RunFrom(steps, k, full, run) ==
      match gathered
      case Missing(name) => MissingInput(k, name)
      case Inputs(tensors) =>
        match run(k, Fed(steps[k], tensors))
        case Stopped(response) => StepFailed(k, response)
        case Produced(produced) => RunFrom(steps, k + 1, Store(steps[k], full, produced), run)
  {
  }

  predicate LastUsedAt(lastUse: map<string, nat>, k: nat, name: string) {
    name in lastUse && lastUse[name] == k
  }

  predicate ReadsFrom(step: Step, start: nat, name: string) {
    exists j :: start <= j < |step.inputs| && Read(step, j) == name
  }

  /** Of the first `i` inputs of step `k`, those read for the last time have left the map. */
  predicate MovedOut(step: Step, lastUse: map<string, nat>, k: nat, i: nat, values: Values)
    requires i <= |step.inputs|
  {
    forall j :: 0 <= j < i && LastUsedAt(lastUse, k, Read(step, j)) && !ReadsFrom(step, i, Read(step, j)) ==> Read(step, j) !in values
  }

  lemma MovedOutNext(step: Step, lastUse: map<string, nat>, k: nat, i: nat, next: nat, before: Values, after: Values)
    requires i < |step.inputs| && next == i + 1 && MovedOut(step, lastUse, k, i, before)
    requires after.Keys <= before.Keys
    requires LastUsedAt(lastUse, k, Read(step, i)) && !ReadsFrom(step, next, Read(step, i)) ==> Read(step, i) !in after
    ensures MovedOut(step, lastUse, k, next, after)
  {
    forall j | 0 <= j < next && LastUsedAt(lastUse, k, Read(step, j)) && !ReadsFrom(step, next, Read(step, j)) ensures Read(step, j) !in after {
      if Read(step, j) != Read(step, i) {
        assert !ReadsFrom(step, i, Read(step, j));
      }
    }
  }

  predicate OutputBefore(outputs: seq<TensorMeta>, upto: nat, name: string)
    requires upto <= |outputs|
  {
    exists i :: 0 <= i < upto && outputs[i].name == name
  }

  predicate ReadsBefore(step: Step, upto: nat, name: string)
    requires upto <= |step.inputs|
  {
    exists i :: 0 <= i < upto && Read(step, i) == name
  }

  /** After the first `upto` inputs of step `k`, the tensors they read are marked `k` and the others are as before. */
  predicate Rebound(step: Step, upto: nat, k: nat, before: map<string, nat>, after: map<string, nat>, name: string)
    requires upto <= |step.inputs|
  {
    if ReadsBefore(step, upto, name) then name in after && after[name] == k
    else (name in after <==> name in before) && (name in after ==> after[name] == before[name])
  }

  lemma ReboundNext(step: Step, i: nat, next: nat, k: nat, start: map<string, nat>, before: map<string, nat>, after: map<string, nat>)
    requires i < |step.inputs| && next == i + 1 && after == before[Read(step, i) := k]
    requires forall name :: Rebound(step, i, k, start, before, name)
    ensures forall name :: Rebound(step, next, k, start, after, name)
  {
    forall name ensures Rebound(step, next, k, start, after, name) {
      assert Rebound(step, i, k, start, before, name);
      assert ReadsBefore(step, next, name) <==> ReadsBefore(step, i, name) || name == Read(step, i);
    }
  }

  lemma IndexedNext(steps: seq<Step>, k: nat, next: nat, before: map<string, nat>, after: map<string, nat>)
    requires k < |steps| && next == k + 1 && forall name :: Indexed(steps, k, before, name)
    requires forall name :: Rebound(steps[k], |steps[k].inputs|, k, before, after, name)
    ensures forall name :: Indexed(steps, next, after, name)
  {
    forall name ensures Indexed(steps, next, after, name) {
      assert Indexed(steps, k, before, name) && Rebound(steps[k], |steps[k].inputs|, k, before, after, name);
      assert ReadsBefore(steps[k], |steps[k].inputs|, name) <==> Reads(steps[k], name);
    }
  }

  lemma IndexedWithout(steps: seq<Step>, outputs: seq<TensorMeta>, all: map<string, nat>, lastUse: map<string, nat>)
    requires forall name :: Indexed(steps, |steps|, all, name)
    requires forall name :: name in lastUse <==> name in all && !OutputBefore(outputs, |outputs|, name)
    requires forall name :: name in lastUse ==> lastUse[name] == all[name]
    ensures IsLastUse(steps, outputs, lastUse)
  {
    forall name
      ensures name in lastUse <==> !IsOutput(outputs, name) && ReadBefore(steps, |steps|, name)
      ensures name in lastUse ==> LastReader(steps, |steps|, lastUse[name], name)
    {
      assert Indexed(steps, |steps|, all, name);
      assert OutputBefore(outputs, |outputs|, name) <==> IsOutput(outputs, name);
    }
  }

  function Exposed(step: Step): seq<TensorMeta> {
    seq(|step.outputs|, i requires 0 <= i < |step.outputs| => step.outputs[i].(name := Mapped(step.outputMap, step.outputs[i].name)))
  }
}
