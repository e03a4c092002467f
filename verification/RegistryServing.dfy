/**
 * Serving in every run, torn builds included: what the schedulers of handles, builds and stored versions are like, and from that how
 * long a model stays Ready, what request threads see of it, and where its version leads.
 */
module RegistryServing {
  import opened Wrappers
  import opened ModelStates
  import opened ModelLifecycle
  import opened RegistryRegions
  import opened RegistryProtocol
  import opened RegistryTheorems
  import opened RegistryExclusion
  import opened RegistryOwnership

  // --------------------------------------------------------------- invariant

  /** A finished build not yet swapped in: Ready on a scheduler that no slot has held and nobody has stopped, or without one. */
  predicate FreshBuild(s: State, h: Handle, config: Config) {
    && Settles(h) && (h.state.Ready? <==> h.scheduler.Some?)
    && (h.scheduler.Some? ==>
          var x := h.scheduler.value;
          x in s.born && s.born[x].config == config && !s.born[x].served && x !in s.reg.stopped)
  }

  predicate ThreadLive(s: State, t: Tid) {
    var pc := At(s, t);
    (pc.Built? ==> FreshBuild(s, pc.built, pc.config)) && (pc.Rebuilt? ==> FreshBuild(s, pc.next, BuildConfig(pc.n, pc.op)))
  }

  /** The scheduler of a handle was built with the slot's configuration and, if the handle is Ready, is not stopped. */
  predicate HandleLive(s: State, slot: Slot) {
    && (slot.handle.state.Ready? ==> slot.handle.scheduler.Some? && slot.handle.scheduler.value !in s.reg.stopped)
    && (slot.handle.scheduler.Some? ==> slot.handle.scheduler.value in s.born && s.born[slot.handle.scheduler.value].config == slot.config)
  }

  predicate WasServed(s: State, x: Option<SchedulerId>) {
    x.Some? ==> x.value in s.born && s.born[x.value].served
  }

  predicate VersionsServed(s: State, slot: Slot) {
    && (forall v :: v in slot.versionSnapshots ==> WasServed(s, slot.versionSnapshots[v].scheduler))
    && (slot.handle.state.Loading? ==> slot.versionSnapshots == map[])
  }

  predicate SlotLive(s: State, n: Name) {
    n in s.reg.models ==> HandleLive(s, s.reg.models[n]) && VersionsServed(s, s.reg.models[n])
  }

  predicate HeldServed(s: State, x: SchedulerId) {
    x in s.born && s.born[x].owner.InSlot? ==> s.born[x].served
  }

  ghost predicate Live(s: State) {
    && Owned(s) && (forall t :: ThreadLive(s, t)) && (forall n :: SlotLive(s, n)) && (forall x :: HeldServed(s, x))
    && s.reg.stopped <= s.born.Keys
  }

  // ------------------------------------------------------------------ frames

  /** What a step of `t` on slot `n` leaves alone. */
  ghost predicate Leaves(s: State, s': State, t: Tid, n: Option<Name>) {
    && (forall u :: u != t ==> At(s', u) == At(s, u) || At(s', u) == Wakened(At(s, u)))
    && (forall m :: Some(m) != n ==> SlotUntouched(s, s', m))
    && (forall x :: SchedulerUntouched(s, s', t, n, x))
    && s'.reg.stopped <= s'.born.Keys
  }

  ghost predicate Lives(s: State, s': State, t: Tid, n: Option<Name>) {
    Leaves(s, s', t, n) && ThreadLive(s', t) && (n.Some? ==> SlotLive(s', n.value))
  }

  lemma OtherThreadLive(s: State, s': State, t: Tid, n: Option<Name>, u: Tid)
    requires Leaves(s, s', t, n) && ThreadLive(s, u) && ThreadOwns(s, u) && u != t
    ensures ThreadLive(s', u)
  {
    if Carried(At(s, u)).Some? {
      assert SchedulerUntouched(s, s', t, n, Carried(At(s, u)).value);
    }
  }

  lemma OtherSlotLive(s: State, s': State, t: Tid, n: Option<Name>, m: Name)
    requires Leaves(s, s', t, n) && SlotLive(s, m) && SlotOwns(s, m) && Some(m) != n
    ensures SlotLive(s', m)
  {
    assert SlotUntouched(s, s', m);
    if m in s'.reg.models {
      var slot := s.reg.models[m];
      if slot.handle.scheduler.Some? {
        assert SchedulerUntouched(s, s', t, n, slot.handle.scheduler.value);
      }
      forall v | v in slot.versionSnapshots ensures WasServed(s', slot.versionSnapshots[v].scheduler) {
        assert WasServed(s, slot.versionSnapshots[v].scheduler);
        if slot.versionSnapshots[v].scheduler.Some? {
          assert SchedulerUntouched(s, s', t, n, slot.versionSnapshots[v].scheduler.value);
        }
      }
    }
  }

  lemma LivesKeeps(s: State, s': State, t: Tid, n: Option<Name>)
    requires Live(s) && Owned(s') && (forall x :: HeldServed(s', x)) && Lives(s, s', t, n)
    ensures Live(s')
  {
    forall u ensures ThreadLive(s', u) {
      assert ThreadLive(s, u) && ThreadOwns(s, u);
      if u != t {
        OtherThreadLive(s, s', t, n, u);
      }
    }
    forall m ensures SlotLive(s', m) {
      assert SlotLive(s, m) && SlotOwns(s, m);
      if Some(m) != n {
        OtherSlotLive(s, s', t, n, m);
      }
    }
  }

  // ------------------------------------------------------------------- steps

  /** What a step may rely on: the invariant of its thread, its slot and the schedulers. */
  ghost predicate LiveAt(s: State, t: Tid, n: Option<Name>) {
    && OwnsAt(s, t, n) && ThreadLive(s, t) && (n.Some? ==> SlotLive(s, n.value))
    && (forall x :: HeldServed(s, x)) && s.reg.stopped <= s.born.Keys
  }

  lemma LoadStartedLives(s: State, t: Tid, config: Config, s': State)
    requires At(s, t).Idle? && s' == LoadStarted(s, t, config) && LiveAt(s, t, Some(config.modelName))
    ensures Lives(s, s', t, Some(config.modelName))
  {
    var n := config.modelName;
    if n in s.reg.models {
      MovedLives(s, t, At(s', t), Some(n), s');
    } else {
      assert forall m :: m != n ==> SlotUntouched(s, s', m);
      assert s'.born == s.born && s'.reg.stopped == s.reg.stopped;
    }
  }

  /** A build ends: nothing but the new scheduler comes into the world. */
  lemma BuiltLives(s: State, t: Tid, id: SchedulerId, built: Handle, config: Config, pc: Pc, n: Name, s': State)
    requires id !in s.born && Settles(built) && (built.state.Ready? <==> built.scheduler.Some?) && (built.scheduler.Some? ==> built.scheduler == Some(id))
    requires pc == Built(config, built) || (pc.Rebuilt? && pc.next == built && BuildConfig(pc.n, pc.op) == config)
    requires s' == Goto(Bear(s, t, id, built, config), t, pc) && LiveAt(s, t, Some(n))
    ensures Lives(s, s', t, Some(n))
  {
  }

  lemma LoadFinishedLives(s: State, t: Tid, s': State)
    requires At(s, t).Built? && s' == LoadFinished(s, t, At(s, t).config, At(s, t).built) && LiveAt(s, t, Some(At(s, t).config.modelName))
    ensures Lives(s, s', t, Some(At(s, t).config.modelName))
  {
  }

  lemma LoadTornLives(s: State, t: Tid, s': State)
    requires At(s, t).Built? && s' == LoadTorn(s, t, At(s, t).config, At(s, t).built) && LiveAt(s, t, Some(At(s, t).config.modelName))
    requires At(s, t).config.modelName in s.reg.models
    ensures Lives(s, s', t, Some(At(s, t).config.modelName))
  {
  }

  lemma AbortedLives(s: State, t: Tid, n: Name, s': State)
    requires s' == Aborted(s, t, n) && LiveAt(s, t, Some(n))
    ensures Lives(s, s', t, Some(n))
  {
  }

  lemma MovedLives(s: State, t: Tid, pc: Pc, n: Option<Name>, s': State)
    requires Quiet(pc) && s' == Goto(s, t, pc) && LiveAt(s, t, n)
    ensures Lives(s, s', t, n)
  {
  }

  lemma EnteredLives(s: State, t: Tid, n: Name, op: Rebuild, s': State)
    requires At(s, t) == Entering(n, op) && s' == Entered(s, t, n, op) && LiveAt(s, t, Some(n))
    ensures Lives(s, s', t, Some(n))
  {
    if ReloadEnter(s.reg, n, op).0.Build? {
      RebuildStartedLives(s, t, n, op, s');
    } else {
      assert s'.reg == s.reg;
      MovedLives(s, t, At(s', t), Some(n), s');
    }
  }

  lemma RebuildStartedLives(s: State, t: Tid, n: Name, op: Rebuild, s': State)
    requires ReloadEnter(s.reg, n, op).0.Build? && LiveAt(s, t, Some(n))
    requires s' == Goto(s.(reg := ReloadEnter(s.reg, n, op).1, builder := s.builder[n := t]), t, Rebuilding(n, op))
    ensures Lives(s, s', t, Some(n))
  {
    assert s'.born == s.born;
    assert forall m :: m != n ==> SlotUntouched(s, s', m);
  }

  lemma RebuildLostLives(s: State, t: Tid, n: Name, op: Rebuild, next: Handle, s': State)
    requires At(s, t) == Rebuilt(n, op, next) && !next.state.Ready? && LiveAt(s, t, Some(n))
    requires s' == RebuildFinished(s, t, n, op, next) || s' == RebuildTorn(s, t, n, op, next)
    ensures Lives(s, s', t, Some(n))
  {
    assert s'.born == s.born;
  }

  lemma RebuildWonLeaves(s: State, t: Tid, n: Name, op: Rebuild, next: Handle, s': State)
    requires At(s, t) == Rebuilt(n, op, next) && next.state.Ready? && LiveAt(s, t, Some(n))
    requires s' == RebuildFinished(s, t, n, op, next) || s' == RebuildTorn(s, t, n, op, next)
    ensures Leaves(s, s', t, Some(n)) && ThreadLive(s', t)
  {
    if n in s.reg.models {
      assert SchedulerOf(s.reg.models[n].active) != next.scheduler;
    }
  }

  lemma RebuildWonHandle(s: State, t: Tid, n: Name, op: Rebuild, next: Handle, s': State)
    requires At(s, t) == Rebuilt(n, op, next) && next.state.Ready? && LiveAt(s, t, Some(n)) && n in s.reg.models
    requires s' == RebuildFinished(s, t, n, op, next) || s' == RebuildTorn(s, t, n, op, next)
    ensures HandleLive(s', s'.reg.models[n])
  {
    assert SchedulerOf(s.reg.models[n].active) != next.scheduler;
  }

  lemma RebuildWonVersions(s: State, t: Tid, n: Name, op: Rebuild, next: Handle, s': State)
    requires At(s, t) == Rebuilt(n, op, next) && next.state.Ready? && LiveAt(s, t, Some(n)) && n in s.reg.models
    requires s' == RebuildFinished(s, t, n, op, next) || s' == RebuildTorn(s, t, n, op, next)
    ensures VersionsServed(s', s'.reg.models[n])
  {
    assert SchedulerOf(s.reg.models[n].active) != next.scheduler;
    if SchedulerOf(s.reg.models[n].active).Some? {
      assert HeldServed(s, SchedulerOf(s.reg.models[n].active).value);
    }
    assert WasServed(s', SchedulerOf(s.reg.models[n].active)) && WasServed(s', next.scheduler);
  }

  lemma RebuildSwappedLives(s: State, t: Tid, n: Name, op: Rebuild, next: Handle, s': State)
    requires At(s, t) == Rebuilt(n, op, next) && LiveAt(s, t, Some(n))
    requires s' == RebuildFinished(s, t, n, op, next) || s' == RebuildTorn(s, t, n, op, next)
    ensures Lives(s, s', t, Some(n))
  {
    if !next.state.Ready? {
      RebuildLostLives(s, t, n, op, next, s');
    } else {
      RebuildWonLeaves(s, t, n, op, next, s');
      if n in s.reg.models {
        RebuildWonHandle(s, t, n, op, next, s');
        RebuildWonVersions(s, t, n, op, next, s');
      }
    }
  }

  lemma NotifiedLives(s: State, t: Tid, retire: Option<SchedulerId>, result: Option<bool>, s': State)
    requires At(s, t) == Notifying(retire, result) && LiveAt(s, t, None) && s' == Notified(s, t, retire, result)
    ensures Lives(s, s', t, None)
  {
  }

  lemma RetiredLives(s: State, t: Tid, due: SchedulerId, result: Option<bool>, s': State)
    requires At(s, t) == Retiring(due, result) && LiveAt(s, t, None) && s' == RetiredOld(s, t, due, result)
    ensures Lives(s, s', t, None)
  {
  }

  lemma StopLives(s: State, t: Tid, j: nat, s': State)
    requires At(s, t).Idle? && j < |s.reg.retired| && QueueOk(s, j) && LiveAt(s, t, None) && s' == Stop(s, s.reg.retired[j])
    ensures Lives(s, s', t, None)
  {
  }

  lemma UnloadLives(s: State, t: Tid, n: Name, pc: Pc, s': State)
    requires Quiet(pc) && LiveAt(s, t, Some(n)) && (s' == Goto(s.(reg := UnloadEnter(s.reg, n).1), t, pc) || s' == Goto(Drain(s, n), t, pc))
    ensures Lives(s, s', t, Some(n))
  {
  }

  lemma CompleteLives(s: State, t: Tid, n: Name, s': State)
    requires LiveAt(s, t, Some(n)) && s' == Completed(s, t, n)
    ensures Lives(s, s', t, Some(n))
  {
  }

  lemma LoadStepLives(s: State, t: Tid, a: Action, s': State)
    requires Enabled(s, t, a) && s' == Next(s, t, a) && LiveAt(s, t, Touched(s, t, a)) && IsLoadAction(a)
    ensures Lives(s, s', t, Touched(s, t, a))
  {
    var pc := At(s, t);
    match a
    case StartLoad(config) => LoadStartedLives(s, t, config, s');
    case EndLoadBuild(id, built) => BuiltLives(s, t, id, built, pc.config, At(s', t), pc.config.modelName, s');
    case FinishLoad => LoadFinishedLives(s, t, s');
    case AbortLoad => AbortedLives(s, t, pc.config.modelName, s');
    case TearLoad => LoadTornLives(s, t, s');
    case TornGuard => AbortedLives(s, t, pc.n, s');
  }

  lemma RebuildStepLives(s: State, t: Tid, a: Action, s': State)
    requires Enabled(s, t, a) && s' == Next(s, t, a) && LiveAt(s, t, Touched(s, t, a))
    requires a.StartReload? || a.Enter? || a.EndRebuild? || a.FinishRebuild? || a.AbortRebuild? || a.TearRebuild?
    ensures Lives(s, s', t, Touched(s, t, a))
  {
    var pc := At(s, t);
    match a
    case StartReload(n, op) => MovedLives(s, t, Entering(n, op), None, s');
    case Enter => EnteredLives(s, t, pc.n, pc.op, s');
    case EndRebuild(id, built) => BuiltLives(s, t, id, built, BuildConfig(pc.n, pc.op), At(s', t), pc.n, s');
    case FinishRebuild => RebuildSwappedLives(s, t, pc.n, pc.op, pc.next, s');
    case AbortRebuild => AbortedLives(s, t, pc.n, s');
    case TearRebuild => RebuildSwappedLives(s, t, pc.n, pc.op, pc.next, s');
  }

  lemma UnloadStepLives(s: State, t: Tid, a: Action, s': State)
    requires Enabled(s, t, a) && s' == Next(s, t, a) && LiveAt(s, t, Touched(s, t, a)) && IsUnloadAction(a)
    ensures Lives(s, s', t, Touched(s, t, a))
  {
    match a
    case StartUnload(n) => UnloadLives(s, t, n, At(s', t), s');
    case UnloadDrain => UnloadLives(s, t, At(s, t).n, At(s', t), s');
    case UnloadComplete => CompleteLives(s, t, At(s, t).n, s');
    case StartDrain(n) => UnloadLives(s, t, n, At(s', t), s');
    case StartComplete(n) => CompleteLives(s, t, n, s');
  }

  lemma NotifyStepLives(s: State, t: Tid, a: Action, s': State)
    requires Enabled(s, t, a) && s' == Next(s, t, a) && LiveAt(s, t, None) && forall i :: QueueOk(s, i)
    requires a.Wake? || a.Notify? || a.RetireOld? || a.RetireTask?
    ensures Lives(s, s', t, None)
  {
    match a
    case Wake => MovedLives(s, t, At(s', t), None, s');
    case Notify => NotifiedLives(s, t, At(s, t).retire, At(s, t).result, s');
    case RetireOld => RetiredLives(s, t, At(s, t).due, At(s, t).result, s');
    case RetireTask(id) =>
      var j: nat :| j < |s.reg.retired| && s.reg.retired[j] == id;
      StopLives(s, t, j, s');
  }

  /** Passing a scheduler to a slot is what marks it as served. */
  lemma GiveServes(s: State, y: Option<SchedulerId>, owner: Owner, x: SchedulerId)
    requires HeldServed(s, x)
    ensures HeldServed(Give(s, y, owner), x)
  {
  }

  lemma ServedStep(s: State, t: Tid, a: Action, s': State, x: SchedulerId)
    requires HeldServed(s, x) && Enabled(s, t, a) && s' == Next(s, t, a)
    ensures HeldServed(s', x)
  {
    if a.FinishRebuild? {
      SwapServed(s, t, s', x);
    } else if IsUnloadAction(a) {
      UnloadServed(s, t, a, s', x);
    }
  }

  lemma SwapServed(s: State, t: Tid, s': State, x: SchedulerId)
    requires HeldServed(s, x) && At(s, t).Rebuilt? && s' == Next(s, t, FinishRebuild)
    ensures HeldServed(s', x)
  {
    GiveServes(s, Replacement(s, At(s, t).n, At(s, t).next), InSlot(At(s, t).n), x);
  }

  lemma UnloadServed(s: State, t: Tid, a: Action, s': State, x: SchedulerId)
    requires HeldServed(s, x) && Enabled(s, t, a) && s' == Next(s, t, a) && IsUnloadAction(a)
    ensures HeldServed(s', x)
  {
  }

  lemma LiveStep(s: State, t: Tid, a: Action, s': State)
    requires Live(s) && Enabled(s, t, a) && s' == Next(s, t, a)
    ensures Live(s') && Lives(s, s', t, Touched(s, t, a))
  {
    var n := Touched(s, t, a);
    assert ThreadOwns(s, t) && ThreadLive(s, t) && (n.Some? ==> SlotOwns(s, n.value) && SlotLive(s, n.value));
    if IsLoadAction(a) {
      LoadStepLives(s, t, a, s');
    } else if a.StartReload? || a.Enter? || a.EndRebuild? || a.FinishRebuild? || a.AbortRebuild? || a.TearRebuild? {
      RebuildStepLives(s, t, a, s');
    } else if IsUnloadAction(a) {
      UnloadStepLives(s, t, a, s');
    } else {
      NotifyStepLives(s, t, a, s');
    }
    OwnedStep(s, t, a, s');
    forall x ensures HeldServed(s', x) {
      assert HeldServed(s, x);
      ServedStep(s, t, a, s', x);
    }
    LivesKeeps(s, s', t, n);
  }

  lemma LiveAlways(states: seq<State>, events: seq<Event>, k: nat)
    requires IsRun(states, events) && k < |states|
    ensures Live(states[k])
  {
    forall s, e, s' | Steps(s, e, s') && Live(s) ensures Live(s') {
      LiveStep(s, e.t, e.a, s');
    }
    RunInduction(states, events, s => Live(s), k);
  }

  // ------------------------------------------------------ what is published

  /** Where no rebuild is pending, and during a rebuild of a Ready model, request threads see the handle. */
  predicate Shown(s: State, n: Name) {
    n in s.reg.models && (!s.reg.models[n].reloadPending || s.reg.models[n].handle.state.Ready?) ==>
      s.reg.models[n].active == Some(FromHandle(s.reg.models[n].handle))
  }

  /** The final swap of a build of `n` throws while publishing. */
  predicate TearsSlot(s: State, e: Event, n: Name) {
    Tears(e.a) && Target(s, e.t, e.a) == Some(n)
  }

  lemma UntouchedSame(s: State, e: Event, s': State, n: Name)
    requires Live(s) && Steps(s, e, s') && Touched(s, e.t, e.a) != Some(n)
    ensures SlotUntouched(s, s', n) && forall x :: SchedulerUntouched(s, s', e.t, Touched(s, e.t, e.a), x)
  {
    LiveStep(s, e.t, e.a, s');
  }

  lemma ShownBuildStep(s: State, e: Event, s': State, n: Name)
    requires Steps(s, e, s') && Shown(s, n) && Touched(s, e.t, e.a) == Some(n) && !Tears(e.a) && !IsUnloadAction(e.a)
    ensures Shown(s', n)
  {
  }

  lemma ShownUnloadStep(s: State, e: Event, s': State, n: Name)
    requires Steps(s, e, s') && Shown(s, n) && Touched(s, e.t, e.a) == Some(n) && IsUnloadAction(e.a)
    ensures Shown(s', n)
  {
  }

  /** Only a torn build of the name hides a handle. */
  lemma ShownStep(s: State, e: Event, s': State, n: Name)
    requires Live(s) && Steps(s, e, s') && Shown(s, n) && !TearsSlot(s, e, n)
    ensures Shown(s', n)
  {
    if Touched(s, e.t, e.a) != Some(n) {
      UntouchedSame(s, e, s', n);
    } else if IsUnloadAction(e.a) {
      ShownUnloadStep(s, e, s', n);
    } else {
      ShownBuildStep(s, e, s', n);
    }
  }

  lemma {:induction false} ShownUntil(states: seq<State>, events: seq<Event>, i: nat, j: nat, n: Name)
    requires IsRun(states, events) && i <= j < |states| && Shown(states[i], n)
    requires forall k :: i <= k < j ==> !TearsSlot(states[k], events[k], n)
    ensures Shown(states[j], n)
    decreases j
  {
    if i < j {
      ShownUntil(states, events, i, j - 1, n);
      LiveAlways(states, events, j - 1);
      assert StepAt(states, events, j - 1);
      ShownStep(states[j - 1], events[j - 1], states[j], n);
    }
  }

  /**
   * Which torn swaps hide a handle that was shown until then: those of loads and successful rebuilds always do; a failed rebuild of a
   * Ready model does exactly when its error is not the one already published.
   */
  lemma TornHides(s: State, e: Event, n: Name)
    requires Live(s) && Exclusive(s) && Enabled(s, e.t, e.a) && TearsSlot(s, e, n) && Shown(s, n)
    ensures e.a.TearLoad? || At(s, e.t).next.state.Ready? ==> Hides(s, e)
    ensures e.a.TearRebuild? && !At(s, e.t).next.state.Ready? && Serves(s, n) ==>
              (Hides(s, e) <==> At(s, e.t).next.loadError != s.reg.models[n].handle.loadError)
  {
    assert ThreadHolds(s, e.t) && SlotHeld(s, n) && ThreadOwns(s, e.t) && SlotOwns(s, n) && ThreadLive(s, e.t);
  }

  // ------------------------------------------------------ serving is not lost

  /** Request threads find a model that accepts work. */
  predicate Answers(s: State, n: Name) {
    SnapshotReady(FindHandle(s.reg, n), s.reg.stopped)
  }

  lemma AnswersBuildStep(s: State, e: Event, s': State, n: Name)
    requires Steps(s, e, s') && Serves(s, n) && Answers(s, n) && Touched(s, e.t, e.a) == Some(n) && !IsUnloadAction(e.a)
    requires ThreadHolds(s, e.t) && SlotHeld(s, n) && ThreadLive(s, e.t) && SlotLive(s, n) && !Collides(s, e.t, e.a)
    ensures Answers(s', n)
  {
  }

  lemma AnswersUnloadStep(s: State, e: Event, s': State, n: Name)
    requires Steps(s, e, s') && Serves(s, n) && Answers(s, n) && Touched(s, e.t, e.a) == Some(n) && IsUnloadAction(e.a)
    requires !DrainsSlot(s, e, n)
    ensures Answers(s', n)
  {
  }

  lemma AnswersStep(s: State, e: Event, s': State, n: Name)
    requires Live(s) && Exclusive(s) && Steps(s, e, s') && !Collides(s, e.t, e.a) && !DrainsSlot(s, e, n)
    requires Serves(s, n) && Answers(s, n)
    ensures Answers(s', n)
  {
    if Touched(s, e.t, e.a) != Some(n) {
      UntouchedSame(s, e, s', n);
      ReadyStep(s, e, n);
      assert SlotOwns(s, n) && SchedulerUntouched(s, s', e.t, Touched(s, e.t, e.a), SchedulerOf(s.reg.models[n].active).value);
    } else if IsUnloadAction(e.a) {
      AnswersUnloadStep(s, e, s', n);
    } else {
      assert ThreadHolds(s, e.t) && SlotHeld(s, n) && ThreadLive(s, e.t) && SlotLive(s, n);
      AnswersBuildStep(s, e, s', n);
    }
  }

  lemma {:induction false} AnswersUntilDrained(states: seq<State>, events: seq<Event>, i: nat, j: nat, n: Name)
    requires IsRun(states, events) && i <= j < |states| && Serves(states[i], n) && Answers(states[i], n)
    requires forall k :: 0 <= k < j ==> !CollidesAt(states, events, k)
    requires forall k :: i <= k < j ==> !DrainsSlot(states[k], events[k], n)
    ensures Answers(states[j], n)
    decreases j
  {
    if i < j {
      AnswersUntilDrained(states, events, i, j - 1, n);
      StaysReady(states, events, i, j - 1, n);
      LiveAlways(states, events, j - 1);
      ExclusiveUntil(states, events, j - 1);
      assert StepAt(states, events, j - 1) && !CollidesAt(states, events, j - 1);
      AnswersStep(states[j - 1], events[j - 1], states[j], n);
    }
  }

  /**
   * Once Ready, a model stays Ready until a drain of that name, whatever loads, reloads and version switches of any names start,
   * succeed, fail, abort or are torn meanwhile, as long as no guard collides. Its scheduler is neither stopped nor retired and was
   * built with the slot's stored configuration. If request threads found it accepting work, they do all that time, through torn
   * rebuilds as well; and what they see is the handle, unless a build of that name is torn.
   */
  lemma ReadyUntilDrained(states: seq<State>, events: seq<Event>, i: nat, j: nat, n: Name)
    requires IsRun(states, events) && i <= j < |states| && Serves(states[i], n)
    requires forall k :: 0 <= k < j ==> !CollidesAt(states, events, k)
    requires forall k :: i <= k < j ==> !DrainsSlot(states[k], events[k], n)
    ensures var s := states[j];
      && Serves(s, n)
      && var slot := s.reg.models[n];
      && HandleReady(slot.handle, s.reg.stopped) && NotRetired(s.reg, slot.handle.scheduler)
      && slot.handle.scheduler.value in s.born && s.born[slot.handle.scheduler.value].config == slot.config
      && (Answers(states[i], n) ==> Answers(s, n) && NotRetired(s.reg, SchedulerOf(slot.active)))
      && (Shown(states[i], n) && (forall k :: i <= k < j ==> !TearsSlot(states[k], events[k], n)) ==>
            slot.active == Some(FromHandle(slot.handle)))
  {
    StaysReady(states, events, i, j, n);
    LiveAlways(states, events, j);
    RetiredOnceAndUnused(states, events, j);
    assert SlotLive(states[j], n);
    if Answers(states[i], n) {
      AnswersUntilDrained(states, events, i, j, n);
    }
    if Shown(states[i], n) && forall k :: i <= k < j ==> !TearsSlot(states[k], events[k], n) {
      ShownUntil(states, events, i, j, n);
    }
  }

  // --------------------------------------------------------- version routing

  /** Looking the active version up by name leads to the active scheduler. */
  predicate Routed(r: Reg, n: Name)
    requires n in r.models
  {
    var v := VersionOf(r.models[n].active);
    v != "" ==> SchedulerOf(FindHandleVersion(r, n, v)) == SchedulerOf(r.models[n].active)
  }

  /** The event is the final swap of a plain reload of `n` that installs a version the slot already keeps a snapshot of. */
  predicate ReloadsKnownVersion(s: State, e: Event, n: Name) {
    var pc := At(s, e.t);
    && e.a.FinishRebuild? && pc.Rebuilt? && pc.n == n && pc.op.Reload? && pc.next.state.Ready?
    && n in s.reg.models
    && var v := VersionOf(Some(FromHandle(pc.next)));
       v != "" && v in s.reg.models[n].versionSnapshots
  }

  /**
   * The swap of a plain reload keeps version routing exactly when the slot keeps no snapshot
   * of the installed version. Otherwise the lookup finds the old snapshot, whose scheduler is
   * another one. Version snapshots are refreshed by version switches only.
   */
  lemma ReloadRoutesExactly(s: State, t: Tid, n: Name, config: Config, next: Handle)
    requires Live(s) && At(s, t) == Rebuilt(n, Reload(config), next) && next.state.Ready? && n in s.reg.models
    ensures var s' := Next(s, t, FinishRebuild);
            n in s'.reg.models && (Routed(s'.reg, n) <==> !ReloadsKnownVersion(s, Event(t, FinishRebuild), n))
  {
    assert ThreadLive(s, t) && SlotLive(s, n);
    var s' := Next(s, t, FinishRebuild);
    assert s'.reg.models[n].active == Some(FromHandle(s'.reg.models[n].handle));
    assert VersionOf(s'.reg.models[n].active) == VersionOf(Some(FromHandle(next)));
    var v := VersionOf(s'.reg.models[n].active);
    if v != "" && v in s.reg.models[n].versionSnapshots {
      assert WasServed(s, s.reg.models[n].versionSnapshots[v].scheduler);
    }
  }

  /** A first load and a version switch always leave the active version routed. */
  lemma InstallRoutes(s: State, e: Event, s': State, n: Name)
    requires Steps(s, e, s') && Touched(s, e.t, e.a) == Some(n) && ThreadHolds(s, e.t) && SlotLive(s, n)
    requires e.a.FinishLoad? || (e.a.FinishRebuild? && At(s, e.t).op.Switch? && At(s, e.t).next.state.Ready?)
    ensures n in s'.reg.models && Routed(s'.reg, n)
  {
  }

  /** Routing reads nothing that differs between the two states. */
  predicate SameRoute(s: State, s': State, n: Name) {
    && Serves(s, n) && n in s'.reg.models
    && s'.reg.models[n].versionSnapshots == s.reg.models[n].versionSnapshots
    && s.reg.models[n].active.Some? && s'.reg.models[n].active.Some?
    && s'.reg.models[n].active.value.(loadError := None) == s.reg.models[n].active.value.(loadError := None)
  }

  lemma RebuildStepsKeepRoute(s: State, e: Event, s': State, n: Name)
    requires Steps(s, e, s') && Touched(s, e.t, e.a) == Some(n) && ThreadHolds(s, e.t) && Shown(s, n) && Serves(s', n)
    requires e.a.Enter? || e.a.EndRebuild? || e.a.AbortRebuild? || (e.a.FinishRebuild? && !At(s, e.t).next.state.Ready?)
    ensures SameRoute(s, s', n)
  {
  }

  lemma LoadStepsKeepRoute(s: State, e: Event, s': State, n: Name)
    requires Steps(s, e, s') && Touched(s, e.t, e.a) == Some(n) && ThreadHolds(s, e.t) && Shown(s, n) && Serves(s', n)
    requires SlotHeld(s, n) && !Collides(s, e.t, e.a) && (e.a.StartLoad? || e.a.EndLoadBuild? || e.a.AbortLoad? || e.a.TornGuard?)
    ensures SameRoute(s, s', n)
  {
  }

  lemma UnloadStepsKeepRoute(s: State, e: Event, s': State, n: Name)
    requires Steps(s, e, s') && Touched(s, e.t, e.a) == Some(n) && IsUnloadAction(e.a) && SlotHeld(s, n) && Shown(s, n) && Serves(s', n)
    ensures SameRoute(s, s', n)
  {
  }

  lemma SameRouteRouted(s: State, s': State, n: Name)
    requires SameRoute(s, s', n) && Routed(s.reg, n)
    ensures Routed(s'.reg, n)
  {
    assert VersionOf(s'.reg.models[n].active) == VersionOf(s.reg.models[n].active);
  }

  lemma OtherStepsKeepRoute(s: State, e: Event, s': State, n: Name)
    requires Steps(s, e, s') && Touched(s, e.t, e.a) == Some(n) && !Tears(e.a) && !Collides(s, e.t, e.a)
    requires !e.a.FinishLoad? && (e.a.FinishRebuild? ==> !At(s, e.t).next.state.Ready?)
    requires ThreadHolds(s, e.t) && SlotHeld(s, n) && Shown(s, n) && Serves(s', n)
    ensures SameRoute(s, s', n)
  {
    if e.a.Enter? || e.a.EndRebuild? || e.a.AbortRebuild? || e.a.FinishRebuild? {
      RebuildStepsKeepRoute(s, e, s', n);
    } else if IsUnloadAction(e.a) {
      UnloadStepsKeepRoute(s, e, s', n);
    } else {
      LoadStepsKeepRoute(s, e, s', n);
    }
  }

  lemma RoutedStep(s: State, e: Event, s': State, n: Name)
    requires Live(s) && Exclusive(s) && Shown(s, n) && Steps(s, e, s') && !Collides(s, e.t, e.a)
    requires !TearsSlot(s, e, n) && !ReloadsKnownVersion(s, e, n)
    requires (Serves(s, n) ==> Routed(s.reg, n)) && Serves(s', n)
    ensures Routed(s'.reg, n)
  {
    var pc := At(s, e.t);
    assert ThreadHolds(s, e.t) && SlotHeld(s, n) && SlotLive(s, n);
    if Touched(s, e.t, e.a) != Some(n) {
      UntouchedSame(s, e, s', n);
    } else if e.a.FinishRebuild? && pc.next.state.Ready? && pc.op.Reload? {
      ReloadRoutesExactly(s, e.t, n, pc.op.config, pc.next);
    } else if e.a.FinishLoad? || (e.a.FinishRebuild? && pc.next.state.Ready?) {
      InstallRoutes(s, e, s', n);
    } else {
      OtherStepsKeepRoute(s, e, s', n);
      SameRouteRouted(s, s', n);
    }
  }

  lemma ShownBefore(states: seq<State>, events: seq<Event>, k: nat, n: Name)
    requires IsRun(states, events) && k < |states| && forall i :: 0 <= i < k ==> !TearsSlot(states[i], events[i], n)
    ensures Shown(states[k], n) && Live(states[k])
  {
    ShownUntil(states, events, 0, k, n);
    LiveAlways(states, events, k);
  }

  /** Nothing up to step `k` disturbs the routing of `n`: no colliding guard, torn build of `n` or plain reload of a version it keeps. */
  ghost predicate Undisturbed(states: seq<State>, events: seq<Event>, k: nat, n: Name)
    requires |states| == |events| + 1 && k <= |events|
  {
    forall i :: 0 <= i < k ==>
      !CollidesAt(states, events, i) && !TearsSlot(states[i], events[i], n) && !ReloadsKnownVersion(states[i], events[i], n)
  }

  predicate ServesRouted(s: State, n: Name) {
    Serves(s, n) ==> Routed(s.reg, n)
  }

  lemma RoutedNext(states: seq<State>, events: seq<Event>, k: nat, n: Name)
    requires IsRun(states, events) && k < |events| && Undisturbed(states, events, k + 1, n) && ServesRouted(states[k], n)
    ensures ServesRouted(states[k + 1], n)
  {
    assert StepAt(states, events, k) && !CollidesAt(states, events, k);
    ShownBefore(states, events, k, n);
    ExclusiveUntil(states, events, k);
    if Serves(states[k + 1], n) {
      RoutedStep(states[k], events[k], states[k + 1], n);
    }
  }

  /**
   * In every run in which no guard collides, no build of `n` is torn and plain reloads of `n` install only versions not kept, the
   * version of a Ready model always leads to its scheduler.
   */
  lemma {:induction false} VersionRoutingKept(states: seq<State>, events: seq<Event>, k: nat, n: Name)
    requires IsRun(states, events) && k < |states| && Undisturbed(states, events, k, n)
    ensures Serves(states[k], n) ==> Routed(states[k].reg, n)
    decreases k
  {
    if k > 0 {
      VersionRoutingKept(states, events, k - 1, n);
      RoutedNext(states, events, k - 1, n);
    }
  }
}
