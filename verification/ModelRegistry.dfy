/** The registry object. Each method is one locked region, run on the mutable slot map. */
module ModelRegistry {
  import opened Wrappers
  import opened ModelStates
  import opened ModelLifecycle
  import opened RegistryRegions

  class Registry {
    var models: map<Name, Slot>
    var stopped: set<SchedulerId>
    var retired: seq<SchedulerId>

    function View(): Reg
      reads this
    {
      Reg(models, stopped, retired)
    }

    constructor ()
      ensures View() == Reg(map[], {}, [])
    {
      models, stopped, retired := map[], {}, [];
    }

    method EnterLoad(config: Config) returns (e: Entry)
      modifies this
      ensures (e, View()) == LoadEnter(old(View()), config)
    {
      var n := config.modelName;
      if n in models {
        if !models[n].handle.state.Loading? {
          return Return(false);
        }
        return JoinLoad;
      }
      var handle := new ModelHandle(EMPTY_HANDLE);
      handle.name := config.modelName;
      var _ := handle.TransitionTo(Loading);
      models := models[n := Publish(Slot(handle.View(), config, None, map[], false))];
      return Build;
    }

    method FinishLoad(config: Config, built: Handle) returns (found: bool)
      modifies this
      ensures (found, View()) == LoadFinish(old(View()), config, built)
    {
      var n := config.modelName;
      found := n in models;
      if found {
        var slot := models[n].(config := config);
        slot := slot.(handle := built);
        models := models[n := Publish(slot)];
      }
    }

    method AbortBuild(n: Name)
      modifies this
      ensures View() == GuardAbort(old(View()), n)
    {
      if n !in models {
        return;
      }
      var slot := models[n];
      var handle := new ModelHandle(slot.handle);
      if slot.handle.state.Loading? && !slot.reloadPending {
        var _ := handle.TransitionTo(Failed);
        handle.loadError := Some("executor build threw");
        models := models[n := Publish(slot.(handle := handle.View()))];
      } else if slot.reloadPending {
        handle.loadError := Some("executor build threw");
        models := models[n := Publish(slot.(reloadPending := false, handle := handle.View()))];
      }
    }

    method EnterReload(n: Name, op: Rebuild) returns (e: Entry)
      modifies this
      ensures (e, View()) == ReloadEnter(old(View()), n, op)
    {
      if n !in models {
        return Return(false);
      }
      var slot := models[n];
      if op.Switch? {
        var oldVersion := VersionOf(slot.active);
        if oldVersion == op.version && SnapshotReady(slot.active, stopped) {
          return Return(true);
        }
      }
      if slot.handle.state.Loading? && !slot.reloadPending {
        return JoinLoad;
      }
      if slot.reloadPending {
        return WaitReload;
      }
      var handle := new ModelHandle(slot.handle);
      var ok, halted := handle.BeginReload();
      if !ok {
        return Return(false);
      }
      stopped := stopped + halted;
      models := models[n := slot.(handle := handle.View(), reloadPending := true)];
      return Build;
    }

    method FinishReload(n: Name, op: Rebuild, next: Handle) returns (out: Swapped)
      modifies this
      ensures (out, View()) == ReloadFinish(old(View()), n, op, next)
    {
      if n !in models {
        return Swapped(false, None);
      }
      var slot := models[n].(reloadPending := false);
      var oldSnapshot := slot.active;
      var handle := new ModelHandle(slot.handle);
      var success := handle.FinishReload(next);
      slot := slot.(handle := handle.View());
      if !success {
        models := models[n := Publish(slot)];
        return Swapped(false, None);
      }
      slot := Publish(slot.(config := BuildConfig(n, op)));
      var ready := HandleReady(slot.handle, stopped);
      if op.Switch? {
        var versions := slot.versionSnapshots;
        if oldSnapshot.Some? && VersionOf(oldSnapshot) != "" {
          versions := versions[VersionOf(oldSnapshot) := oldSnapshot.value];
        }
        if VersionOf(slot.active) != "" {
          versions := versions[VersionOf(slot.active) := slot.active.value];
        }
        slot := slot.(versionSnapshots := versions);
        ready := SnapshotReady(slot.active, stopped);
      }
      models := models[n := slot];
      return Swapped(ready, SchedulerOf(oldSnapshot));
    }

    method EnterUnload(n: Name) returns (e: UnloadEntry)
      modifies this
      ensures (e, View()) == UnloadEnter(old(View()), n)
    {
      if n !in models {
        return Done(false);
      }
      var slot := models[n];
      if slot.reloadPending || slot.handle.state.Loading? {
        return Done(false);
      }
      if slot.handle.state.Failed? && slot.handle.scheduler.None? {
        models := models - {n};
        return Done(true);
      }
      return Proceed;
    }

    method BeginDrain(n: Name) returns (ok: bool)
      modifies this
      ensures (ok, View()) == DrainRegion(old(View()), n)
    {
      if n !in models || models[n].reloadPending {
        return false;
      }
      var slot := models[n];
      var handle := new ModelHandle(slot.handle);
      var halted;
      ok, halted := handle.BeginDrain();
      if !ok {
        return;
      }
      stopped := stopped + halted;
      models := models[n := Publish(slot.(handle := handle.View()))];
    }

    method CompleteUnload(n: Name) returns (ok: bool)
      modifies this
      ensures (ok, View()) == CompleteUnloadRegion(old(View()), n)
    {
      if n !in models {
        return false;
      }
      var slot := models[n];
      var handle := new ModelHandle(slot.handle);
      var dropped;
      ok, dropped := handle.CompleteUnload();
      if !ok {
        return;
      }
      if dropped.Some? {
        stopped := stopped + {dropped.value};
        retired := retired + [dropped.value];
      }
      assert stopped == old(stopped) + StopOf(slot.handle.scheduler);
      models := models - {n};
    }

    method RetireScheduler(s: SchedulerId)
      modifies this
      ensures View() == Retire(old(View()), s)
    {
      retired := retired + [s];
    }
  }
}
