/**
 * Who is responsible for a scheduler. In every run, torn builds and colliding guards included, each scheduler has one owner: the slot
 * that holds it, the thread that carries it, or its entry in the retire queue.
 */
module RegistryOwnership {
  import opened Wrappers
  import opened ModelStates
  import opened ModelLifecycle
  import opened RegistryRegions
  import opened RegistryProtocol
  import opened RegistryTheorems

  predicate ThreadOwns(s: State, t: Tid) {
    BelongsTo(s, Carried(At(s, t)), InThread(t))
  }

  predicate SlotOwns(s: State, n: Name) {
    n in s.reg.models ==>
      BelongsTo(s, s.reg.models[n].handle.scheduler, InSlot(n)) && BelongsTo(s, SchedulerOf(s.reg.models[n].active), InSlot(n))
  }

  ghost predicate Owned(s: State) {
    (forall t :: ThreadOwns(s, t)) && (forall n :: SlotOwns(s, n)) && (forall i :: QueueOk(s, i))
  }

  // ------------------------------------------------------------------ frames

  /** A scheduler passes on only from the thread that steps or the slot it works on. */
  predicate OwnerKept(s: State, s': State, t: Tid, n: Option<Name>, x: SchedulerId) {
    x in s.born ==>
      && x in s'.born
      && (s'.born[x].owner == s.born[x].owner || s.born[x].owner == InThread(t) || (n.Some? && s.born[x].owner == InSlot(n.value)))
  }

  predicate SameHolding(s: State, s': State, m: Name) {
    m in s'.reg.models ==> m in s.reg.models && s'.reg.models[m] == s.reg.models[m]
  }

  ghost predicate Passes(s: State, s': State, t: Tid, n: Option<Name>) {
    && (forall u :: u != t ==> Carried(At(s', u)) == Carried(At(s, u)))
    && (forall m :: Some(m) != n ==> SameHolding(s, s', m))
    && (forall x :: OwnerKept(s, s', t, n, x))
    && QueueGrows(s, s')
    && ThreadOwns(s', t) && (n.Some? ==> SlotOwns(s', n.value))
  }

  lemma PassesKeeps(s: State, s': State, t: Tid, n: Option<Name>)
    requires Owned(s) && Passes(s, s', t, n)
    ensures Owned(s')
  {
    forall u ensures ThreadOwns(s', u) {
      assert ThreadOwns(s, u);
      if u != t && Carried(At(s, u)).Some? {
        assert OwnerKept(s, s', t, n, Carried(At(s, u)).value);
      }
    }
    forall m ensures SlotOwns(s', m) {
      if Some(m) != n && m in s'.reg.models {
        assert SameHolding(s, s', m) && SlotOwns(s, m);
        SlotKept(s, s', t, n, m);
      }
    }
    forall i: nat ensures QueueOk(s', i) {
      if i < |s.reg.retired| {
        assert QueueOk(s, i) && s'.reg.retired[i] == s'.reg.retired[..|s.reg.retired|][i];
        assert OwnerKept(s, s', t, n, s.reg.retired[i]);
      }
    }
  }

  lemma SlotKept(s: State, s': State, t: Tid, n: Option<Name>, m: Name)
    requires SlotOwns(s, m) && SameHolding(s, s', m) && m in s'.reg.models && Some(m) != n && forall x :: OwnerKept(s, s', t, n, x)
    ensures SlotOwns(s', m)
  {
    var slot := s.reg.models[m];
    if slot.handle.scheduler.Some? {
      assert OwnerKept(s, s', t, n, slot.handle.scheduler.value);
    }
    if SchedulerOf(slot.active).Some? {
      assert OwnerKept(s, s', t, n, SchedulerOf(slot.active).value);
    }
  }

  // ------------------------------------------------------------------- steps

  predicate OwnsAt(s: State, t: Tid, n: Option<Name>) {
    ThreadOwns(s, t) && (n.Some? ==> SlotOwns(s, n.value))
  }

  lemma LoadStartedPasses(s: State, t: Tid, config: Config, s': State)
    requires At(s, t).Idle? && s' == LoadStarted(s, t, config) && SlotOwns(s, config.modelName)
    ensures Passes(s, s', t, Some(config.modelName))
  {
  }

  lemma LoadBuildEndedPasses(s: State, t: Tid, id: SchedulerId, built: Handle, s': State)
    requires At(s, t).Building? && id !in s.born && IsBuildResult(built, id, LoadVersion(At(s, t).config))
    requires s' == LoadBuildEnded(s, t, At(s, t).config, id, built) && SlotOwns(s, At(s, t).config.modelName)
    ensures Passes(s, s', t, Some(At(s, t).config.modelName))
  {
    BuiltPasses(s, t, id, built, At(s, t).config, Built(At(s, t).config, built), At(s, t).config.modelName, s');
  }

  /** A new scheduler belongs to the thread that built it. */
  lemma BuiltPasses(s: State, t: Tid, id: SchedulerId, built: Handle, config: Config, pc: Pc, n: Name, s': State)
    requires id !in s.born && (built.scheduler.Some? ==> built.scheduler == Some(id)) && SlotOwns(s, n)
    requires Carried(pc) == built.scheduler && s' == Goto(Bear(s, t, id, built, config), t, pc)
    ensures Passes(s, s', t, Some(n))
  {
  }

  lemma RebuildEndedPasses(s: State, t: Tid, id: SchedulerId, built: Handle, s': State)
    requires At(s, t).Rebuilding? && id !in s.born && IsBuildResult(built, id, BuildVersion(At(s, t).n, At(s, t).op))
    requires s' == RebuildEnded(s, t, At(s, t).n, At(s, t).op, id, built) && SlotOwns(s, At(s, t).n)
    ensures Passes(s, s', t, Some(At(s, t).n))
  {
    var pc := At(s, t);
    BuiltPasses(s, t, id, built, BuildConfig(pc.n, pc.op), Rebuilt(pc.n, pc.op, built), pc.n, s');
  }

  lemma LoadSwappedPasses(s: State, t: Tid, s': State)
    requires At(s, t).Built? && OwnsAt(s, t, Some(At(s, t).config.modelName))
    requires s' == LoadFinished(s, t, At(s, t).config, At(s, t).built) || s' == LoadTorn(s, t, At(s, t).config, At(s, t).built)
    ensures Passes(s, s', t, Some(At(s, t).config.modelName))
  {
  }

  lemma AbortedPasses(s: State, t: Tid, n: Name, s': State)
    requires s' == Aborted(s, t, n) && SlotOwns(s, n)
    ensures Passes(s, s', t, Some(n))
  {
  }

  lemma MovedPasses(s: State, t: Tid, pc: Pc, n: Option<Name>, s': State)
    requires Quiet(pc) && s' == Goto(s, t, pc) && (n.Some? ==> SlotOwns(s, n.value))
    ensures Passes(s, s', t, n)
  {
  }

  lemma EnteredPasses(s: State, t: Tid, n: Name, op: Rebuild, s': State)
    requires At(s, t) == Entering(n, op) && s' == Entered(s, t, n, op) && SlotOwns(s, n)
    ensures Passes(s, s', t, Some(n))
  {
    if ReloadEnter(s.reg, n, op).0.Build? {
      RebuildStartedPasses(s, t, n, op, s');
    } else {
      assert s'.reg == s.reg;
      MovedPasses(s, t, At(s', t), Some(n), s');
    }
  }

  lemma RebuildStartedPasses(s: State, t: Tid, n: Name, op: Rebuild, s': State)
    requires ReloadEnter(s.reg, n, op).0.Build? && SlotOwns(s, n)
    requires s' == Goto(s.(reg := ReloadEnter(s.reg, n, op).1, builder := s.builder[n := t]), t, Rebuilding(n, op))
    ensures Passes(s, s', t, Some(n))
  {
    assert s'.born == s.born && s'.reg.retired == s.reg.retired;
    assert forall m :: m != n ==> SameHolding(s, s', m);
  }

  lemma RebuildWonPasses(s: State, t: Tid, n: Name, op: Rebuild, next: Handle, s': State)
    requires At(s, t) == Rebuilt(n, op, next) && next.state.Ready? && s' == RebuildFinished(s, t, n, op, next) && OwnsAt(s, t, Some(n))
    ensures Passes(s, s', t, Some(n))
  {
    if n in s.reg.models && next.scheduler.Some? {
      assert SchedulerOf(s.reg.models[n].active) != next.scheduler;
    }
  }

  lemma RebuildLostPasses(s: State, t: Tid, n: Name, op: Rebuild, next: Handle, s': State)
    requires At(s, t) == Rebuilt(n, op, next) && !next.state.Ready? && s' == RebuildFinished(s, t, n, op, next) && OwnsAt(s, t, Some(n))
    ensures Passes(s, s', t, Some(n))
  {
  }

  lemma RebuildTornPasses(s: State, t: Tid, n: Name, op: Rebuild, next: Handle, s': State)
    requires At(s, t) == Rebuilt(n, op, next) && s' == RebuildTorn(s, t, n, op, next) && OwnsAt(s, t, Some(n))
    ensures Passes(s, s', t, Some(n))
  {
  }

  lemma NotifiedPasses(s: State, t: Tid, retire: Option<SchedulerId>, result: Option<bool>, s': State)
    requires At(s, t) == Notifying(retire, result) && ThreadOwns(s, t) && s' == Notified(s, t, retire, result)
    ensures Passes(s, s', t, None)
  {
  }

  lemma RetiredPasses(s: State, t: Tid, due: SchedulerId, result: Option<bool>, s': State)
    requires At(s, t) == Retiring(due, result) && ThreadOwns(s, t) && s' == RetiredOld(s, t, due, result)
    ensures Passes(s, s', t, None)
  {
  }

  lemma StopPasses(s: State, t: Tid, id: SchedulerId, s': State)
    requires At(s, t).Idle? && s' == Stop(s, id)
    ensures Passes(s, s', t, None)
  {
  }

  lemma UnloadPasses(s: State, t: Tid, n: Name, pc: Pc, s': State)
    requires Quiet(pc) && SlotOwns(s, n) && (s' == Goto(s.(reg := UnloadEnter(s.reg, n).1), t, pc) || s' == Goto(Drain(s, n), t, pc))
    ensures Passes(s, s', t, Some(n))
  {
  }

  lemma CompletePasses(s: State, t: Tid, n: Name, s': State)
    requires SlotOwns(s, n) && s' == Completed(s, t, n)
    ensures Passes(s, s', t, Some(n))
  {
  }

  lemma LoadPasses(s: State, t: Tid, a: Action, s': State)
    requires Enabled(s, t, a) && s' == Next(s, t, a) && OwnsAt(s, t, Touched(s, t, a)) && IsLoadAction(a)
    ensures Passes(s, s', t, Touched(s, t, a))
  {
    match a
    case StartLoad(config) => LoadStartedPasses(s, t, config, s');
    case EndLoadBuild(id, built) => LoadBuildEndedPasses(s, t, id, built, s');
    case FinishLoad => LoadSwappedPasses(s, t, s');
    case AbortLoad => AbortedPasses(s, t, At(s, t).config.modelName, s');
    case TearLoad => LoadSwappedPasses(s, t, s');
    case TornGuard => AbortedPasses(s, t, At(s, t).n, s');
  }

  lemma RebuildPasses(s: State, t: Tid, a: Action, s': State)
    requires Enabled(s, t, a) && s' == Next(s, t, a) && OwnsAt(s, t, Touched(s, t, a))
    requires a.StartReload? || a.Enter? || a.EndRebuild? || a.FinishRebuild? || a.AbortRebuild? || a.TearRebuild?
    ensures Passes(s, s', t, Touched(s, t, a))
  {
    var pc := At(s, t);
    match a
    case StartReload(n, op) => MovedPasses(s, t, Entering(n, op), None, s');
    case Enter => EnteredPasses(s, t, pc.n, pc.op, s');
    case EndRebuild(id, built) => RebuildEndedPasses(s, t, id, built, s');
    case FinishRebuild =>
      if pc.next.state.Ready? {
        RebuildWonPasses(s, t, pc.n, pc.op, pc.next, s');
      } else {
        RebuildLostPasses(s, t, pc.n, pc.op, pc.next, s');
      }
    case AbortRebuild => AbortedPasses(s, t, pc.n, s');
    case TearRebuild => RebuildTornPasses(s, t, pc.n, pc.op, pc.next, s');
  }

  lemma NotifyPasses(s: State, t: Tid, a: Action, s': State)
    requires Enabled(s, t, a) && s' == Next(s, t, a) && ThreadOwns(s, t) && (a.Wake? || a.Notify? || a.RetireOld? || a.RetireTask?)
    ensures Passes(s, s', t, Touched(s, t, a))
  {
    match a
    case Wake => MovedPasses(s, t, At(s', t), None, s');
    case Notify => NotifiedPasses(s, t, At(s, t).retire, At(s, t).result, s');
    case RetireOld => RetiredPasses(s, t, At(s, t).due, At(s, t).result, s');
    case RetireTask(id) => StopPasses(s, t, id, s');
  }

  lemma UnloadStepPasses(s: State, t: Tid, a: Action, s': State)
    requires Enabled(s, t, a) && s' == Next(s, t, a) && OwnsAt(s, t, Touched(s, t, a)) && IsUnloadAction(a)
    ensures Passes(s, s', t, Touched(s, t, a))
  {
    match a
    case StartUnload(n) => UnloadPasses(s, t, n, At(s', t), s');
    case UnloadDrain => UnloadPasses(s, t, At(s, t).n, At(s', t), s');
    case UnloadComplete => CompletePasses(s, t, At(s, t).n, s');
    case StartDrain(n) => UnloadPasses(s, t, n, At(s', t), s');
    case StartComplete(n) => CompletePasses(s, t, n, s');
  }

  lemma StepPasses(s: State, t: Tid, a: Action, s': State)
    requires Enabled(s, t, a) && s' == Next(s, t, a) && OwnsAt(s, t, Touched(s, t, a))
    ensures Passes(s, s', t, Touched(s, t, a))
  {
    if IsLoadAction(a) {
      LoadPasses(s, t, a, s');
    } else if a.StartReload? || a.Enter? || a.EndRebuild? || a.FinishRebuild? || a.AbortRebuild? || a.TearRebuild? {
      RebuildPasses(s, t, a, s');
    } else if IsUnloadAction(a) {
      UnloadStepPasses(s, t, a, s');
    } else {
      NotifyPasses(s, t, a, s');
    }
  }

  lemma OwnedStep(s: State, t: Tid, a: Action, s': State)
    requires Owned(s) && Enabled(s, t, a) && s' == Next(s, t, a)
    ensures Owned(s')
  {
    assert ThreadOwns(s, t) && (Touched(s, t, a).Some? ==> SlotOwns(s, Touched(s, t, a).value));
    StepPasses(s, t, a, s');
    PassesKeeps(s, s', t, Touched(s, t, a));
  }

  // --------------------------------------------------------------- whole runs

  lemma OwnedAlways(states: seq<State>, events: seq<Event>, k: nat)
    requires IsRun(states, events) && k < |states|
    ensures Owned(states[k])
  {
    forall s, e, s' | Steps(s, e, s') && Owned(s) ensures Owned(s') {
      OwnedStep(s, e.t, e.a, s');
    }
    RunInduction(states, events, s => Owned(s), k);
  }

  predicate NotRetired(r: Reg, x: Option<SchedulerId>) {
    x.Some? ==> x.value !in r.retired
  }

  lemma HeldNotQueued(s: State, n: Name, x: Option<SchedulerId>)
    requires Owned(s) && BelongsTo(s, x, InSlot(n))
    ensures NotRetired(s.reg, x)
  {
    forall j | 0 <= j < |s.reg.retired| ensures Some(s.reg.retired[j]) != x {
      assert QueueOk(s, j);
    }
  }

  /**
   * In every run a scheduler is handed to the retire queue at most once, and never while a slot holds it, in its handle or in its
   * published snapshot.
   */
  lemma RetiredOnceAndUnused(states: seq<State>, events: seq<Event>, k: nat)
    requires IsRun(states, events) && k < |states|
    ensures var r := states[k].reg;
      && (forall i, j :: 0 <= i < j < |r.retired| ==> r.retired[i] != r.retired[j])
      && (forall n :: n in r.models ==> NotRetired(r, r.models[n].handle.scheduler) && NotRetired(r, SchedulerOf(r.models[n].active)))
  {
    var s := states[k];
    OwnedAlways(states, events, k);
    forall i, j | 0 <= i < j < |s.reg.retired| ensures s.reg.retired[i] != s.reg.retired[j] {
      assert QueueOk(s, i) && QueueOk(s, j);
    }
    forall n | n in s.reg.models
      ensures NotRetired(s.reg, s.reg.models[n].handle.scheduler) && NotRetired(s.reg, SchedulerOf(s.reg.models[n].active))
    {
      assert SlotOwns(s, n);
      HeldNotQueued(s, n, s.reg.models[n].handle.scheduler);
      HeldNotQueued(s, n, SchedulerOf(s.reg.models[n].active));
    }
  }
}
