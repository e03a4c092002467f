/**
 * One model handle through load, drain, unload and reload. `Handle` is the value a handle has
 * at rest; `ModelHandle` is the object the lifecycle methods update in place. Each method is
 * proved against a function on `Handle`.
 *
 * A scheduler object is identified by a number; whether it still accepts work is not part of
 * the handle, so a method that calls `stopAccepting` returns the scheduler it stopped.
 */
module ModelLifecycle {
  import opened Wrappers
  import opened ModelStates

  type SchedulerId = nat

  /** Model metadata. Tensor signatures play no part in the lifecycle and are omitted. */
  datatype Metadata = Metadata(name: string, versions: seq<string>, platform: string)

  const NO_METADATA := Metadata("", [], "")

  /** Runtime configuration, reduced to the fields these operations read or write. `rest` stands for all others. */
  datatype Config = Config(
    modelName: string, modelVersion: string, versionExplicit: bool, backend: string, instances: nat, rest: nat)

  datatype Handle = Handle(
    name: string, versions: seq<string>, state: ModelState, metadata: Metadata,
    scheduler: Option<SchedulerId>, loadError: Option<string>)

  const EMPTY_HANDLE := Handle("", [], Unloaded, NO_METADATA, None, None)

  /** What one call of the executor factory did. `Threw(None)` is an exception outside `std::exception`. */
  datatype Attempt = Made(metadata: Metadata) | Declined(error: string) | Threw(what: Option<string>)

  /** What constructing the scheduler did. */
  datatype SchedulerAttempt = Started(id: SchedulerId) | StartThrew(what: Option<string>)

  function FailureMessage(a: Attempt): string
    requires !a.Made?
  {
    match a
    case Declined(error) => if error == "" then "failed to create executor" else error
    case Threw(what) => what.GetOr("executor build threw")
  }

  function MarkLoadFailed(h: Handle, config: Config, message: string): Handle {
    h.(state := Advance(h.state, Failed),
       loadError := Some(message),
       metadata := Metadata(config.modelName, h.versions, "neuriplo_" + config.backend),
       scheduler := None)
  }

  /** Index of the first factory call among `from..n` that did not give an executor. */
  function FirstFailure(factory: nat -> Attempt, from: nat, n: nat): (r: Option<nat>)
    requires from <= n
    ensures r.Some? ==> from <= r.value < n && !factory(r.value).Made?
    ensures forall i: nat :: from <= i < (if r.Some? then r.value else n) ==> factory(i).Made?
    decreases n - from
  {
    if from == n then None
    else if !factory(from).Made? then Some(from)
    else FirstFailure(factory, from + 1, n)
  }

  function LoadSpec(h: Handle, config: Config, factory: nat -> Attempt, start: SchedulerAttempt,
                    versionOverride: Option<string>): Handle
  {
    if !h.state.Unloaded? then h
    else
      var begun := h.(name := config.modelName, versions := [versionOverride.GetOr("1")],
                      loadError := None, state := Loading);
      var failure := FirstFailure(factory, 0, config.instances);
      if failure.Some? then MarkLoadFailed(begun, config, FailureMessage(factory(failure.value)))
      else if config.instances == 0 then MarkLoadFailed(begun, config, "no executor instances configured")
      else ServeSpec(begun, config, factory(0).metadata, start, versionOverride)
  }

  function ServeSpec(h: Handle, config: Config, reported: Metadata, start: SchedulerAttempt, versionOverride: Option<string>): Handle {
    var metadata := if versionOverride.Some? then reported.(versions := [versionOverride.value]) else reported;
    var named := h.(metadata := metadata, name := metadata.name, versions := metadata.versions);
    match start
    case Started(id) => named.(scheduler := Some(id), state := Advance(h.state, Ready))
    case StartThrew(what) => MarkLoadFailed(named, config, what.GetOr("executor build threw"))
  }

  function BeginDrainSpec(h: Handle): (r: (bool, Handle)) {
    if h.scheduler.None? then (false, h)
    else (true, if h.state.Ready? then h.(state := Unloading) else h)
  }

  function CompleteUnloadSpec(h: Handle): (bool, Handle) {
    if !h.state.Unloading? then (false, h)
    else (true, h.(scheduler := None, metadata := NO_METADATA, versions := [], loadError := None, state := Unloaded))
  }

  function BeginReloadSpec(h: Handle): (bool, Handle) {
    match h.state
    case Loading => (false, h)
    case Ready => (true, h)
    case Unloading => CompleteUnloadSpec(h)
    case Failed => (true, h.(state := Unloaded))
    case Unavailable => (true, h.(state := Unloaded))
    case Unloaded => (true, h)
  }

  function FinishReloadSpec(h: Handle, next: Handle): (bool, Handle) {
    if !next.state.Ready? then
      (false, h.(loadError := next.loadError, state := if h.state.Unloaded? then Failed else h.state))
    else
      (true, h.(name := next.name, versions := next.versions, metadata := next.metadata,
                scheduler := next.scheduler, loadError := None,
                state := if h.state.Ready? then Ready
                         else Advance(Advance(Advance(h.state, Unloaded), Loading), Ready)))
  }

  class ModelHandle {
    var name: string
    var versions: seq<string>
    var state: ModelState
    var metadata: Metadata
    var scheduler: Option<SchedulerId>
    var loadError: Option<string>

    function View(): Handle
      reads this
    {
      Handle(name, versions, state, metadata, scheduler, loadError)
    }

    constructor (h: Handle)
      ensures View() == h
    {
      name, versions, state := h.name, h.versions, h.state;
      metadata, scheduler, loadError := h.metadata, h.scheduler, h.loadError;
    }

    method TransitionTo(next: ModelState) returns (ok: bool)
      modifies this`state
      ensures ok == IsValidTransition(old(state), next)
      ensures state == Advance(old(state), next)
    {
      if !IsValidTransition(state, next) {
        return false;
      }
      state := next;
      return true;
    }

    method Fail(config: Config, message: string)
      modifies this
      ensures View() == MarkLoadFailed(old(View()), config, message)
    {
      var _ := TransitionTo(Failed);
      loadError := Some(message);
      metadata := Metadata(config.modelName, versions, "neuriplo_" + config.backend);
      scheduler := None;
    }

    /** Builds one executor per configured instance and then the scheduler; any failure leaves the handle Failed. */
    method Load(config: Config, factory: nat -> Attempt, start: SchedulerAttempt, versionOverride: Option<string>)
      returns (executors: nat)
      modifies this
      ensures View() == LoadSpec(old(View()), config, factory, start, versionOverride)
      ensures old(state).Unloaded? && state.Ready? ==> executors == config.instances > 0
    {
      executors := 0;
      if !state.Unloaded? {
        return;
      }
      name := config.modelName;
      versions := [versionOverride.GetOr("1")];
      loadError := None;
      var _ := TransitionTo(Loading);
      ghost var begun := View();
      while executors < config.instances
        invariant executors <= config.instances
        invariant View() == begun
        invariant forall i: nat :: i < executors ==> factory(i).Made?
        invariant FirstFailure(factory, 0, config.instances) == FirstFailure(factory, executors, config.instances)
      {
        var attempt := factory(executors);
        if !attempt.Made? {
          Fail(config, FailureMessage(attempt));
          return;
        }
        executors := executors + 1;
      }
      if executors == 0 {
        Fail(config, "no executor instances configured");
        return;
      }
      Serve(config, factory(0).metadata, start, versionOverride);
    }

    /** All executors are made: takes over the metadata of the first and starts the scheduler. */
    method Serve(config: Config, reported: Metadata, start: SchedulerAttempt, versionOverride: Option<string>)
      modifies this
      ensures View() == ServeSpec(old(View()), config, reported, start, versionOverride)
    {
      metadata := reported;
      if versionOverride.Some? {
        metadata := metadata.(versions := [versionOverride.value]);
      }
      name := metadata.name;
      versions := metadata.versions;
      match start {
        case Started(id) =>
          scheduler := Some(id);
          var _ := TransitionTo(Ready);
        case StartThrew(what) =>
          Fail(config, what.GetOr("executor build threw"));
      }
    }

    method BeginDrain() returns (ok: bool, stopped: set<SchedulerId>)
      modifies this
      ensures (ok, View()) == BeginDrainSpec(old(View()))
      ensures stopped == if scheduler.Some? then {scheduler.value} else {}
    {
      stopped := {};
      if scheduler.None? {
        return false, stopped;
      }
      if state.Ready? {
        var _ := TransitionTo(Unloading);
      }
      stopped := {scheduler.value};
      return true, stopped;
    }

    method CompleteUnload() returns (ok: bool, retired: Option<SchedulerId>)
      modifies this
      ensures (ok, View()) == CompleteUnloadSpec(old(View()))
      ensures retired == if ok then old(scheduler) else None
    {
      retired := None;
      if !state.Unloading? {
        return false, retired;
      }
      if scheduler.Some? {
        retired := scheduler;
        scheduler := None;
      }
      metadata := NO_METADATA;
      versions := [];
      loadError := None;
      ok := TransitionTo(Unloaded);
    }

    method BeginReload() returns (ok: bool, stopped: set<SchedulerId>)
      modifies this
      ensures (ok, View()) == BeginReloadSpec(old(View()))
      ensures stopped == if old(state).Unloading? && old(scheduler).Some? then {old(scheduler).value} else {}
    {
      stopped := {};
      match state {
        case Loading => ok := false;
        case Ready => ok := true;
        case Unloading =>
          var dropped;
          ok, dropped := CompleteUnload();
          stopped := if dropped.Some? then {dropped.value} else {};
        case Failed | Unavailable =>
          var _ := TransitionTo(Unloaded);
          ok := true;
        case Unloaded => ok := true;
      }
    }

    method FinishReload(next: Handle) returns (ok: bool)
      modifies this
      ensures (ok, View()) == FinishReloadSpec(old(View()), next)
    {
      if !next.state.Ready? {
        loadError := next.loadError;
        if state.Unloaded? {
          var _ := TransitionTo(Loading);
          var _ := TransitionTo(Failed);
        }
        return false;
      }
      name, versions, metadata := next.name, next.versions, next.metadata;
      scheduler := next.scheduler;
      loadError := None;
      if !state.Ready? {
        if !state.Unloaded? {
          var _ := TransitionTo(Unloaded);
        }
        var _ := TransitionTo(Loading);
        var _ := TransitionTo(Ready);
      }
      return true;
    }
  }

  /** What a finished build can be: Ready on the new scheduler, or Failed without one. */
  predicate IsBuildResult(h: Handle, id: SchedulerId, versionOverride: Option<string>) {
    && h.versions == h.metadata.versions
    && (h.state.Ready? || h.state.Failed?)
    && (h.state.Ready? ==> h.scheduler == Some(id) && h.loadError.None?)
    && (h.state.Failed? ==> h.scheduler.None? && h.loadError.Some?)
    && (h.state.Ready? && versionOverride.Some? ==> h.versions == [versionOverride.value])
  }

  /**
   * A load of a fresh handle never ends half built, whatever the factory and the scheduler
   * constructor do, and it is Ready exactly when every configured executor was made.
   */
  lemma LoadNeverHalfBuilt(config: Config, factory: nat -> Attempt, start: SchedulerAttempt,
                           id: SchedulerId, versionOverride: Option<string>)
    requires start.Started? ==> start.id == id
    ensures var h := LoadSpec(EMPTY_HANDLE, config, factory, start, versionOverride);
            && IsBuildResult(h, id, versionOverride)
            && (h.state.Ready? <==>
                  config.instances > 0 && start.Started? && forall i: nat :: i < config.instances ==> factory(i).Made?)
  {
    var failure := FirstFailure(factory, 0, config.instances);
    if failure.Some? {
      assert !factory(failure.value).Made?;
    }
  }

  /** Call `k` of the factory is the first that gives no executor. */
  predicate FailsFirst(factory: nat -> Attempt, n: nat, k: nat) {
    k < n && !factory(k).Made? && forall i: nat :: i < k ==> factory(i).Made?
  }

  /**
   * What a load of a fresh handle comes to. If an executor is refused or throws, none is configured, or the scheduler throws, the handle is
   * Failed and says why; else it is Ready on the new scheduler and shows what the first executor reports of itself, under the
   * version asked for if there is one.
   */
  lemma LoadMeans(config: Config, factory: nat -> Attempt, start: SchedulerAttempt, version: Option<string>)
    ensures var h := LoadSpec(EMPTY_HANDLE, config, factory, start, version);
      var asked := if version.Some? then version.value else "1";
      var platform := "neuriplo_" + config.backend;
      && (forall k: nat :: FailsFirst(factory, config.instances, k) ==>
            var why := match factory(k)
              case Declined(error) => if error == "" then "failed to create executor" else error
              case Threw(what) => if what.Some? then what.value else "executor build threw"
              case Made(_) => "";
            h == Handle(config.modelName, [asked], Failed, Metadata(config.modelName, [asked], platform), None, Some(why)))
      && ((forall i: nat :: i < config.instances ==> factory(i).Made?) ==>
            if config.instances == 0 then
              h == Handle(config.modelName, [asked], Failed, Metadata(config.modelName, [asked], platform), None, Some("no executor instances configured"))
            else
              var reported := factory(0).metadata;
              var versions := if version.Some? then [version.value] else reported.versions;
              match start
              case Started(id) =>
                h == Handle(reported.name, versions, Ready, Metadata(reported.name, versions, reported.platform), Some(id), None)
              case StartThrew(what) =>
                h == Handle(reported.name, versions, Failed, Metadata(config.modelName, versions, platform), None,
                            Some(if what.Some? then what.value else "executor build threw")))
  {
    var failure := FirstFailure(factory, 0, config.instances);
    forall k: nat | FailsFirst(factory, config.instances, k) ensures failure == Some(k) {
      if failure.Some? {
        assert !factory(failure.value).Made?;
      }
    }
  }
}
