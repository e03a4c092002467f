/** Runs of the registry in which a property that one would expect fails. */
module RegistryWitness {
  import opened Wrappers
  import opened ModelStates
  import opened ModelLifecycle
  import opened RegistryRegions
  import opened RegistryProtocol
  import opened RegistryTheorems
  import opened RegistryServing
  import W = RegistryWaking
  import C = RegistryConservation

  /** Some run ends in the state. */
  ghost predicate Reach(s: State) {
    exists states, events :: IsRun(states, events) && states[|events|] == s
  }

  lemma Begin()
    ensures Reach(INIT)
  {
    var states: seq<State>, events: seq<Event> := [INIT], [];
    assert IsRun(states, events) && states[|events|] == INIT;
  }

  lemma Extend(s: State, t: Tid, a: Action, s': State)
    requires Reach(s) && Enabled(s, t, a) && s' == Next(s, t, a)
    ensures Reach(s')
  {
    var states, events :| IsRun(states, events) && states[|events|] == s;
    var ss, ee := states + [s'], events + [Event(t, a)];
    forall i | 0 <= i < |ee| ensures StepAt(ss, ee, i) {
      assert i < |events| ==> StepAt(states, events, i);
    }
    assert IsRun(ss, ee) && ss[|ee|] == s';
  }

  function Configured(version: string): Config {
    Config("m", version, true, "stub", 1, 0)
  }

  /** What a build of "m" for a version makes, with scheduler `id`. */
  function Made(version: string, id: SchedulerId): Handle {
    Handle("m", [version], Ready, Metadata("m", [version], "stub"), Some(id), None)
  }

  /** Slot "m" holds and shows what was made, nobody but thread 0 is busy, and the schedulers so far are those below `below`. */
  predicate Shows(s: State, h: Handle, versions: map<Version, Snapshot>, below: nat) {
    && "m" in s.reg.models && s.reg.models["m"].handle == h && s.reg.models["m"].active == Some(FromHandle(h))
    && s.reg.models["m"].versionSnapshots == versions && !s.reg.models["m"].reloadPending
    && (forall x :: x in s.born ==> x < below)
  }

  lemma Loaded() returns (s: State)
    ensures Reach(s) && Shows(s, Made("1", 0), map[], 1) && s.reg.stopped == {} && At(s, 0) == Notifying(None, Some(true)) && forall t :: t != 0 ==> At(s, t) == Idle(None)
  {
    Begin();
    var config, built := Configured("1"), Made("1", 0);
    var s1 := LoadStarted(INIT, 0, config);
    Extend(INIT, 0, StartLoad(config), s1);
    var s2 := LoadBuildEnded(s1, 0, config, 0, built);
    Extend(s1, 0, EndLoadBuild(0, built), s2);
    s := LoadFinished(s2, 0, config, built);
    Extend(s2, 0, FinishLoad, s);
  }

  /** Thread 0 has notified after its load. */
  lemma LoadedQuietly() returns (s: State)
    ensures Reach(s) && Shows(s, Made("1", 0), map[], 1) && s.reg.stopped == {} && forall t :: At(s, t).Idle?
  {
    var before := Loaded();
    s := Notified(before, 0, None, Some(true));
    Extend(before, 0, Notify, s);
    forall t ensures At(s, t).Idle? {
      assert t != 0 ==> At(before, t) == Idle(None);
    }
  }

  /** An idle thread begins to rebuild the slot. */
  lemma Started(s: State, t: Tid, op: Rebuild) returns (s': State)
    requires Reach(s) && At(s, t).Idle? && "m" in s.reg.models && ReloadEnter(s.reg, "m", op).0.Build?
    ensures Reach(s') && s' == Goto(s.(reg := ReloadEnter(s.reg, "m", op).1, builder := s.builder["m" := t]), t, Rebuilding("m", op))
  {
    var s1 := Goto(s, t, Entering("m", op));
    Extend(s, t, StartReload("m", op), s1);
    s' := Entered(s1, t, "m", op);
    Extend(s1, t, Enter, s');
    assert s'.threads == s.threads[t := Rebuilding("m", op)];
  }

  /** The build ends with a new scheduler, or with none if it failed. */
  lemma Ended(s: State, t: Tid, op: Rebuild, id: SchedulerId, next: Handle) returns (s': State)
    requires Reach(s) && At(s, t) == Rebuilding("m", op) && id !in s.born && IsBuildResult(next, id, BuildVersion("m", op))
    ensures Reach(s') && s' == RebuildEnded(s, t, "m", op, id, next) && At(s', t) == Rebuilt("m", op, next) && s'.reg == s.reg
    ensures forall u :: u != t ==> At(s', u) == At(s, u)
  {
    s' := RebuildEnded(s, t, "m", op, id, next);
    Extend(s, t, EndRebuild(id, next), s');
  }

  // -------------------------------------------------------- broken exclusion

  /** A load of "m" whose final swap threw while publishing, with everyone else idle. */
  lemma LoadTornApart() returns (s: State)
    ensures Reach(s) && Serves(s, "m") && !s.reg.models["m"].reloadPending && At(s, 0) == Torn("m") && forall t :: t != 0 ==> At(s, t) == Idle(None)
  {
    Begin();
    var config, built := Configured("1"), Made("1", 0);
    var s1 := LoadStarted(INIT, 0, config);
    Extend(INIT, 0, StartLoad(config), s1);
    var s2 := LoadBuildEnded(s1, 0, config, 0, built);
    Extend(s1, 0, EndLoadBuild(0, built), s2);
    s := LoadTorn(s2, 0, config, built);
    Extend(s2, 0, TearLoad, s);
  }

  /**
   * When `publishSnapshot` throws inside the final swap of a load, the guard runs after the lock was released and finds the slot Ready.
   * If another thread has begun a reload by then, the guard clears that thread's pending mark, and a third thread can start a
   * second rebuild of the same slot.
   */
  lemma TornSwapBreaksExclusion() returns (s: State)
    ensures Reach(s) && Rebuilds(At(s, 1), "m") && Rebuilds(At(s, 2), "m")
  {
    var op := Reload(Configured("1"));
    var s0 := LoadTornApart();
    var s1 := Started(s0, 1, op);
    assert At(s1, 0) == At(s0, 0) && At(s1, 2) == At(s0, 2);
    var s2 := Aborted(s1, 0, "m");
    Extend(s1, 0, TornGuard, s2);
    assert At(s2, 1) == At(s1, 1) && At(s2, 2).Idle? && Serves(s2, "m") && !s2.reg.models["m"].reloadPending;
    s := Started(s2, 2, op);
    assert At(s, 1) == At(s2, 1);
  }

  // ------------------------------------------------------------ stale routing

  /** After a switch to version 2 the slot keeps a snapshot of it. */
  lemma Switched() returns (s: State)
    ensures Reach(s) && At(s, 2).Idle?
    ensures Shows(s, Made("2", 1), map["1" := FromHandle(Made("1", 0)), "2" := FromHandle(Made("2", 1))], 2)
  {
    var op := Switch("2", Configured("1"));
    var s0 := Loaded();
    assert VersionOf(s0.reg.models["m"].active) == "1";
    var s1 := Started(s0, 1, op);
    var s2 := Ended(s1, 1, op, 1, Made("2", 1));
    s := SwitchFinished(s2, Made("1", 0), op, Made("2", 1));
    assert At(s2, 2) == At(s0, 2);
  }

  lemma SwitchFinished(s: State, old': Handle, op: Rebuild, next: Handle) returns (s': State)
    requires Reach(s) && At(s, 1) == Rebuilt("m", op, next) && op.Switch? && old' == Made("1", 0) && next == Made("2", 1)
    requires "m" in s.reg.models && s.reg.models["m"].handle == old' && s.reg.models["m"].active == Some(FromHandle(old'))
    requires s.reg.models["m"].versionSnapshots == map[] && forall x :: x in s.born ==> x < 2
    ensures Reach(s') && Shows(s', next, map["1" := FromHandle(old'), "2" := FromHandle(next)], 2) && At(s', 2) == At(s, 2)
  {
    s' := RebuildFinished(s, 1, "m", op, next);
    Extend(s, 1, FinishRebuild, s');
  }

  /**
   * Load, switch to version 2, and reload version 2 explicitly: looking version 2 up now leads to the scheduler of the switch,
   * which the reload has replaced.
   */
  lemma StaleRoute() returns (s: State, s': State)
    ensures Reach(s) && Reach(s') && ReloadsKnownVersion(s, Event(2, FinishRebuild), "m")
    ensures "m" in s'.reg.models && !Routed(s'.reg, "m")
  {
    var op, next := Reload(Configured("2")), Made("2", 2);
    var s0 := Switched();
    var s1 := Started(s0, 2, op);
    assert s1.reg.models["m"].versionSnapshots == s0.reg.models["m"].versionSnapshots;
    s := Ended(s1, 2, op, 2, next);
    s' := RebuildFinished(s, 2, "m", op, next);
    Extend(s, 2, FinishRebuild, s');
    var slot := s'.reg.models["m"];
    assert slot.active == Some(FromHandle(next)) && slot.versionSnapshots["2"] == FromHandle(Made("2", 1));
  }

  // ------------------------------------------------------------- lost wake-up

  /** Thread 1 has rebuilt and thread 2 sleeps until it has finished. */
  lemma SleeperWaits() returns (s: State)
    ensures Reach(s) && At(s, 1) == Rebuilt("m", Reload(Configured("1")), Made("1", 1)) && At(s, 2) == Parked("m", Reload(Configured("1")), false)
    ensures "m" in s.reg.models && !W.Heralded(s)
  {
    var op := Reload(Configured("1"));
    var s0 := LoadedQuietly();
    var s1 := Started(s0, 1, op);
    assert At(s1, 2) == At(s0, 2);
    var s2 := FellAsleep(s1, 2, op);
    s := Ended(s2, 1, op, 1, Made("1", 1));
    assert forall t :: t != 1 && t != 2 ==> At(s, t) == At(s0, t);
  }

  lemma FellAsleep(s: State, t: Tid, op: Rebuild) returns (s': State)
    requires Reach(s) && At(s, t).Idle? && op.Reload? && "m" in s.reg.models && s.reg.models["m"].reloadPending
    ensures Reach(s') && s' == Goto(s, t, Parked("m", op, false))
  {
    var s1 := Goto(s, t, Entering("m", op));
    Extend(s, t, StartReload("m", op), s1);
    s' := Entered(s1, t, "m", op);
    Extend(s1, t, Enter, s');
    assert s'.threads == s.threads[t := Parked("m", op, false)];
  }

  /** The final swap of a rebuild throws while publishing: a thread waiting for it sleeps on, with nobody left to wake it. */
  lemma WakeupLost() returns (s: State)
    ensures Reach(s) && W.Overslept(s, 2) && !W.Heralded(s)
  {
    var before := SleeperWaits();
    s := Next(before, 1, TearRebuild);
    Extend(before, 1, TearRebuild, s);
    W.TornRebuildUnheralded(before, 1, s);
  }

  // ------------------------------------------------------- dropped scheduler

  lemma FailureDrops(s: State, t: Tid, n: Name, op: Rebuild, next: Handle)
    requires At(s, t) == Rebuilt(n, op, next) && !next.state.Ready? && n in s.reg.models
    requires s.reg.models[n].handle.scheduler.None? && SchedulerOf(s.reg.models[n].active).Some?
    ensures C.Drops(s, t, FinishRebuild)
  {
  }

  lemma DrainedAfterLoad() returns (s: State)
    ensures Reach(s) && At(s, 1).Idle? && "m" in s.reg.models && 1 !in s.born
    ensures s.reg.models["m"].handle.state.Unloading? && !s.reg.models["m"].reloadPending && SchedulerOf(s.reg.models["m"].active).Some?
  {
    var s0 := Loaded();
    s := Goto(Drain(s0, "m"), 3, Idle(Some(true)));
    Extend(s0, 3, StartDrain("m"), s);
    assert At(s, 1) == At(s0, 1);
  }

  /** A slot is drained, a reload of it begins and its build fails: the drained scheduler reaches no retire queue. */
  lemma DrainedSchedulerDropped() returns (s: State)
    ensures Reach(s) && C.Drops(s, 1, FinishRebuild) && Enabled(s, 1, FinishRebuild)
  {
    var op := Reload(Configured("1"));
    var failed := Made("1", 0).(state := Failed, scheduler := None, loadError := Some("no such file"));
    var s1 := DrainedAfterLoad();
    var s2 := Started(s1, 1, op);
    assert s2.reg.models["m"].handle.state.Unloaded? && s2.reg.models["m"].active == s1.reg.models["m"].active;
    s := Ended(s2, 1, op, 1, failed);
    FailureDrops(s, 1, "m", op, failed);
  }

  /** The final swap of a reload throws while publishing: the handle holds the new scheduler, the published snapshot the old one. */
  lemma TwoSchedulers() returns (s: State)
    ensures Reach(s) && At(s, 2).Idle? && "m" in s.reg.models && !s.reg.models["m"].reloadPending
    ensures s.reg.models["m"].handle.scheduler == Some(1) && SchedulerOf(s.reg.models["m"].active) == Some(0)
  {
    var op := Reload(Configured("1"));
    var s0 := LoadedQuietly();
    var s1 := Started(s0, 1, op);
    assert At(s1, 2) == At(s0, 2);
    var s2 := Ended(s1, 1, op, 1, Made("1", 1));
    s := RebuildTorn(s2, 1, "m", op, Made("1", 1));
    Extend(s2, 1, TearRebuild, s);
  }

  /** A drain of that slot publishes the handle: the old scheduler reaches no retire queue. */
  lemma ReplacedSchedulerDropped() returns (s: State)
    ensures Reach(s) && C.Drops(s, 2, StartDrain("m")) && Enabled(s, 2, StartDrain("m"))
  {
    s := TwoSchedulers();
  }
}
