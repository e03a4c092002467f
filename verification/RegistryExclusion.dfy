/**
 * Exclusion in every run, those included in which the final swap of a build throws while publishing: it holds exactly as long
 * as the guard of such a load does not meet a slot that another thread is building by then.
 */
module RegistryExclusion {
  import opened Wrappers
  import opened ModelStates
  import opened ModelLifecycle
  import opened RegistryRegions
  import opened RegistryProtocol
  import opened RegistryTheorems

  /** A build result: Ready or Failed. */
  predicate Settles(h: Handle) {
    h.state.Ready? || h.state.Failed?
  }

  /** A thread that builds a slot finds it marked, and is the one that marked it. */
  predicate ThreadHolds(s: State, t: Tid) {
    var pc := At(s, t);
    && (pc.Building? || pc.Built? ==>
          var n := pc.config.modelName;
          n in s.reg.models && s.reg.models[n].handle.state.Loading? && n in s.builder && s.builder[n] == t)
    && (pc.Rebuilding? || pc.Rebuilt? ==>
          pc.n in s.reg.models && s.reg.models[pc.n].reloadPending && pc.n in s.builder && s.builder[pc.n] == t)
    && (pc.Built? ==> Settles(pc.built)) && (pc.Rebuilt? ==> Settles(pc.next))
  }

  /** A marked slot has the thread that marked it at work. */
  predicate SlotHeld(s: State, n: Name) {
    n in s.reg.models ==>
      var slot := s.reg.models[n];
      && (slot.handle.state.Loading? ==> slot.handle.scheduler.None? && n in s.builder && Loads(At(s, s.builder[n]), n))
      && (slot.reloadPending ==>
            (slot.handle.state.Ready? || slot.handle.state.Unloaded?) && n in s.builder && Rebuilds(At(s, s.builder[n]), n))
  }

  ghost predicate Exclusive(s: State) {
    (forall t :: ThreadHolds(s, t)) && (forall n :: SlotHeld(s, n))
  }

  /** The guard of a load whose swap threw runs on a slot that is being built. */
  predicate Collides(s: State, t: Tid, a: Action) {
    && a.TornGuard? && At(s, t).Torn? && At(s, t).n in s.reg.models
    && (s.reg.models[At(s, t).n].handle.state.Loading? || s.reg.models[At(s, t).n].reloadPending)
  }

  // ------------------------------------------------------------------ frames

  ghost predicate Steady(s: State, s': State, t: Tid, n: Option<Name>) {
    && (forall u :: u != t ==> At(s', u) == At(s, u) || At(s', u) == Wakened(At(s, u)))
    && (forall m :: Some(m) != n ==> SlotUntouched(s, s', m))
    && (n.Some? ==> BuildUntouched(s, s', t, n.value))
    && (forall m :: Loads(At(s, t), m) || Rebuilds(At(s, t), m) ==> n == Some(m))
    && ThreadHolds(s', t) && (n.Some? ==> SlotHeld(s', n.value))
  }

  lemma OtherThread(s: State, s': State, t: Tid, n: Option<Name>, u: Tid)
    requires Steady(s, s', t, n) && ThreadHolds(s, u) && u != t
    ensures ThreadHolds(s', u)
  {
    var pc := At(s, u);
    if pc.Building? || pc.Built? {
      assert Some(pc.config.modelName) != n ==> SlotUntouched(s, s', pc.config.modelName);
    }
    if pc.Rebuilding? || pc.Rebuilt? {
      assert Some(pc.n) != n ==> SlotUntouched(s, s', pc.n);
    }
  }

  lemma OtherSlot(s: State, s': State, t: Tid, n: Option<Name>, m: Name)
    requires Steady(s, s', t, n) && SlotHeld(s, m) && Some(m) != n
    ensures SlotHeld(s', m)
  {
    assert SlotUntouched(s, s', m);
    if m in s.reg.models && m in s.builder {
      var u := s.builder[m];
      assert u != t ==> At(s', u) == At(s, u) || At(s', u) == Wakened(At(s, u));
    }
  }

  lemma SteadyKeeps(s: State, s': State, t: Tid, n: Option<Name>)
    requires Exclusive(s) && Steady(s, s', t, n)
    ensures Exclusive(s')
  {
    forall u ensures ThreadHolds(s', u) {
      if u != t {
        OtherThread(s, s', t, n, u);
      }
    }
    forall m ensures SlotHeld(s', m) {
      if Some(m) != n {
        OtherSlot(s, s', t, n, m);
      }
    }
  }

  // ------------------------------------------------------------------- steps

  predicate HeldAt(s: State, t: Tid, n: Option<Name>) {
    ThreadHolds(s, t) && (n.Some? ==> SlotHeld(s, n.value))
  }

  lemma LoadStartedSteady(s: State, t: Tid, config: Config, s': State)
    requires At(s, t).Idle? && s' == LoadStarted(s, t, config) && HeldAt(s, t, Some(config.modelName))
    ensures Steady(s, s', t, Some(config.modelName))
  {
    var n := config.modelName;
    if n in s.reg.models {
      QuietSteady(s, t, n, At(s', t), s');
    } else {
      assert forall m :: m != n ==> SlotUntouched(s, s', m);
    }
  }

  lemma LoadBuildEndedSteady(s: State, t: Tid, id: SchedulerId, built: Handle, s': State)
    requires At(s, t).Building? && Settles(built) && s' == LoadBuildEnded(s, t, At(s, t).config, id, built)
    requires HeldAt(s, t, Some(At(s, t).config.modelName))
    ensures Steady(s, s', t, Some(At(s, t).config.modelName))
  {
  }

  lemma LoadFinishedSteady(s: State, t: Tid, s': State)
    requires At(s, t).Built? && s' == LoadFinished(s, t, At(s, t).config, At(s, t).built) && HeldAt(s, t, Some(At(s, t).config.modelName))
    ensures Steady(s, s', t, Some(At(s, t).config.modelName))
  {
  }

  lemma TornSteady(s: State, t: Tid, s': State)
    requires At(s, t).Built? && HeldAt(s, t, Some(At(s, t).config.modelName)) && s' == LoadTorn(s, t, At(s, t).config, At(s, t).built)
    ensures Steady(s, s', t, Some(At(s, t).config.modelName))
  {
  }

  /** A guard on a slot its own thread builds, or on one nobody builds. */
  lemma AbortedSteady(s: State, t: Tid, n: Name, s': State)
    requires s' == Aborted(s, t, n) && HeldAt(s, t, Some(n)) && forall m :: BuildsSlot(s, t, m) ==> m == n
    requires BuildsSlot(s, t, n) || !(n in s.reg.models && (s.reg.models[n].handle.state.Loading? || s.reg.models[n].reloadPending))
    ensures Steady(s, s', t, Some(n))
  {
    forall m | Loads(At(s, t), m) || Rebuilds(At(s, t), m) ensures m == n {
      assert BuildsSlot(s, t, m);
    }
  }

  lemma LoadSteady(s: State, t: Tid, a: Action, s': State)
    requires Enabled(s, t, a) && s' == Next(s, t, a) && HeldAt(s, t, Touched(s, t, a)) && !Collides(s, t, a)
    requires a.StartLoad? || a.EndLoadBuild? || a.FinishLoad? || a.AbortLoad? || a.TearLoad? || a.TornGuard?
    ensures Steady(s, s', t, Touched(s, t, a))
  {
    match a
    case StartLoad(config) => LoadStartedSteady(s, t, config, s');
    case EndLoadBuild(id, built) => LoadBuildEndedSteady(s, t, id, built, s');
    case FinishLoad => LoadFinishedSteady(s, t, s');
    case AbortLoad => AbortedSteady(s, t, At(s, t).config.modelName, s');
    case TearLoad => TornSteady(s, t, s');
    case TornGuard => AbortedSteady(s, t, At(s, t).n, s');
  }

  lemma EnteredSteady(s: State, t: Tid, s': State)
    requires At(s, t).Entering? && s' == Entered(s, t, At(s, t).n, At(s, t).op) && HeldAt(s, t, Some(At(s, t).n))
    ensures Steady(s, s', t, Some(At(s, t).n))
  {
    var n, op := At(s, t).n, At(s, t).op;
    if ReloadEnter(s.reg, n, op).0.Build? {
      RebuildStarted(s, t, n, op, s');
    } else {
      assert s'.reg == s.reg;
      QuietSteady(s, t, n, At(s', t), s');
    }
  }

  lemma RebuildStarted(s: State, t: Tid, n: Name, op: Rebuild, s': State)
    requires At(s, t).Entering? && ReloadEnter(s.reg, n, op).0.Build? && HeldAt(s, t, Some(n))
    requires s' == Goto(s.(reg := ReloadEnter(s.reg, n, op).1, builder := s.builder[n := t]), t, Rebuilding(n, op))
    ensures Steady(s, s', t, Some(n))
  {
    var slot := s.reg.models[n];
    assert !slot.reloadPending && !slot.handle.state.Loading?;
  }

  lemma QuietSteady(s: State, t: Tid, n: Name, pc: Pc, s': State)
    requires Quiet(At(s, t)) && Quiet(pc) && s' == Goto(s, t, pc) && SlotHeld(s, n)
    ensures Steady(s, s', t, Some(n))
  {
  }

  lemma RebuildEndedSteady(s: State, t: Tid, id: SchedulerId, built: Handle, s': State)
    requires At(s, t).Rebuilding? && Settles(built) && s' == RebuildEnded(s, t, At(s, t).n, At(s, t).op, id, built)
    requires HeldAt(s, t, Some(At(s, t).n))
    ensures Steady(s, s', t, Some(At(s, t).n))
  {
  }

  lemma MovedSteady(s: State, t: Tid, pc: Pc, s': State)
    requires Quiet(At(s, t)) && Quiet(pc) && s' == Goto(s, t, pc)
    ensures Steady(s, s', t, None)
  {
  }

  lemma ReloadSteady(s: State, t: Tid, a: Action, s': State)
    requires Enabled(s, t, a) && s' == Next(s, t, a) && HeldAt(s, t, Touched(s, t, a))
    requires a.StartReload? || a.Enter? || a.EndRebuild? || a.AbortRebuild?
    ensures Steady(s, s', t, Touched(s, t, a))
  {
    match a
    case StartReload(n, op) => MovedSteady(s, t, Entering(n, op), s');
    case Enter => EnteredSteady(s, t, s');
    case EndRebuild(id, built) => RebuildEndedSteady(s, t, id, built, s');
    case AbortRebuild => AbortedSteady(s, t, At(s, t).n, s');
  }

  lemma SwapSteady(s: State, t: Tid, a: Action, s': State)
    requires Enabled(s, t, a) && s' == Next(s, t, a) && HeldAt(s, t, Touched(s, t, a)) && (a.FinishRebuild? || a.TearRebuild?)
    ensures Steady(s, s', t, Touched(s, t, a))
  {
  }

  lemma NotifiedSteady(s: State, t: Tid, retire: Option<SchedulerId>, result: Option<bool>, s': State)
    requires At(s, t) == Notifying(retire, result) && s' == Notified(s, t, retire, result)
    ensures Steady(s, s', t, None)
  {
  }

  lemma WakeSteady(s: State, t: Tid, a: Action, s': State)
    requires Enabled(s, t, a) && s' == Next(s, t, a) && HeldAt(s, t, Touched(s, t, a))
    requires a.Wake? || a.Notify? || a.RetireOld? || a.RetireTask?
    ensures Steady(s, s', t, Touched(s, t, a))
  {
    match a
    case Wake => MovedSteady(s, t, At(s', t), s');
    case Notify => NotifiedSteady(s, t, At(s, t).retire, At(s, t).result, s');
    case RetireOld => assert forall m :: SlotUntouched(s, s', m);
    case RetireTask(id) => assert forall m :: SlotUntouched(s, s', m);
  }

  lemma UnloadStartedSteady(s: State, t: Tid, n: Name, s': State)
    requires At(s, t).Idle? && s' == UnloadStarted(s, t, n) && HeldAt(s, t, Some(n))
    ensures Steady(s, s', t, Some(n))
  {
  }

  lemma DrainSteady(s: State, t: Tid, n: Name, pc: Pc, s': State)
    requires Quiet(At(s, t)) && Quiet(pc) && s' == Goto(Drain(s, n), t, pc) && HeldAt(s, t, Some(n))
    ensures Steady(s, s', t, Some(n))
  {
  }

  lemma CompleteSteady(s: State, t: Tid, n: Name, s': State)
    requires Quiet(At(s, t)) && s' == Completed(s, t, n) && HeldAt(s, t, Some(n))
    ensures Steady(s, s', t, Some(n))
  {
  }

  lemma UnloadSteady(s: State, t: Tid, a: Action, s': State)
    requires Enabled(s, t, a) && s' == Next(s, t, a) && HeldAt(s, t, Touched(s, t, a)) && IsUnloadAction(a)
    ensures Steady(s, s', t, Touched(s, t, a))
  {
    match a
    case StartUnload(n) => UnloadStartedSteady(s, t, n, s');
    case UnloadDrain => DrainSteady(s, t, At(s, t).n, At(s', t), s');
    case UnloadComplete => CompleteSteady(s, t, At(s, t).n, s');
    case StartDrain(n) => DrainSteady(s, t, n, At(s', t), s');
    case StartComplete(n) => CompleteSteady(s, t, n, s');
  }

  lemma StepSteady(s: State, t: Tid, a: Action, s': State)
    requires Enabled(s, t, a) && s' == Next(s, t, a) && HeldAt(s, t, Touched(s, t, a)) && !Collides(s, t, a)
    ensures Steady(s, s', t, Touched(s, t, a))
  {
    if a.StartLoad? || a.EndLoadBuild? || a.FinishLoad? || a.AbortLoad? || a.TearLoad? || a.TornGuard? {
      LoadSteady(s, t, a, s');
    } else if a.StartReload? || a.Enter? || a.EndRebuild? || a.AbortRebuild? {
      ReloadSteady(s, t, a, s');
    } else if a.FinishRebuild? || a.TearRebuild? {
      SwapSteady(s, t, a, s');
    } else if a.Wake? || a.Notify? || a.RetireOld? || a.RetireTask? {
      WakeSteady(s, t, a, s');
    } else {
      UnloadSteady(s, t, a, s');
    }
  }

  /** A colliding guard takes the mark from under the thread that set it. */
  lemma CollisionBreaks(s: State, t: Tid, a: Action, s': State)
    requires Exclusive(s) && Enabled(s, t, a) && s' == Next(s, t, a) && Collides(s, t, a)
    ensures !Exclusive(s')
  {
    var n := At(s, t).n;
    assert SlotHeld(s, n);
    var u := s.builder[n];
    assert u != t && At(s', u) == At(s, u);
    assert !ThreadHolds(s', u);
  }

  /** A step keeps exclusion exactly when it is not a colliding guard. */
  lemma ExclusionStep(s: State, t: Tid, a: Action)
    requires Exclusive(s) && Enabled(s, t, a)
    ensures Exclusive(Next(s, t, a)) <==> !Collides(s, t, a)
  {
    var s' := Next(s, t, a);
    if Collides(s, t, a) {
      CollisionBreaks(s, t, a, s');
    } else {
      assert ThreadHolds(s, t);
      assert Touched(s, t, a).Some? ==> SlotHeld(s, Touched(s, t, a).value);
      StepSteady(s, t, a, s');
      SteadyKeeps(s, s', t, Touched(s, t, a));
    }
  }

  // --------------------------------------------------------------- whole runs

  ghost predicate CollidesAt(states: seq<State>, events: seq<Event>, i: nat)
    requires i < |events| && |states| == |events| + 1
  {
    Collides(states[i], events[i].t, events[i].a)
  }

  lemma {:induction false} ExclusiveUntil(states: seq<State>, events: seq<Event>, k: nat)
    requires IsRun(states, events) && k < |states| && forall i :: 0 <= i < k ==> !CollidesAt(states, events, i)
    ensures Exclusive(states[k])
    decreases k
  {
    if k > 0 {
      ExclusiveUntil(states, events, k - 1);
      assert StepAt(states, events, k - 1) && !CollidesAt(states, events, k - 1);
      ExclusionStep(states[k - 1], events[k - 1].t, events[k - 1].a);
    }
  }

  /** Over any run, torn loads or not: exclusion holds throughout exactly when no guard collides. */
  lemma ExclusionExactly(states: seq<State>, events: seq<Event>)
    requires IsRun(states, events)
    ensures (forall k :: 0 <= k < |states| ==> Exclusive(states[k])) <==> forall i :: 0 <= i < |events| ==> !CollidesAt(states, events, i)
  {
    if forall i :: 0 <= i < |events| ==> !CollidesAt(states, events, i) {
      forall k | 0 <= k < |states| ensures Exclusive(states[k]) {
        ExclusiveUntil(states, events, k);
      }
    } else {
      var i :| 0 <= i < |events| && CollidesAt(states, events, i);
      assert StepAt(states, events, i);
      if Exclusive(states[i]) {
        ExclusionStep(states[i], events[i].t, events[i].a);
        assert !Exclusive(states[i + 1]);
      }
    }
  }

  /**
   * What exclusion is: a slot is Loading exactly when some thread does its first build and pending exactly when some thread
   * rebuilds it; never both, and never more than one thread at work on a slot.
   */
  lemma OneBuilderPerSlot(s: State, n: Name)
    requires Exclusive(s)
    ensures n in s.reg.models && s.reg.models[n].handle.state.Loading? <==> exists t :: Loads(At(s, t), n)
    ensures n in s.reg.models && s.reg.models[n].reloadPending <==> exists t :: Rebuilds(At(s, t), n)
    ensures n in s.reg.models ==> !(s.reg.models[n].handle.state.Loading? && s.reg.models[n].reloadPending)
    ensures forall t, u :: BuildsSlot(s, t, n) && BuildsSlot(s, u, n) ==> t == u
  {
    assert SlotHeld(s, n);
    forall t ensures BuildsSlot(s, t, n) ==> n in s.builder && s.builder[n] == t && n in s.reg.models {
      assert ThreadHolds(s, t);
    }
    forall t | Loads(At(s, t), n) ensures n in s.reg.models && s.reg.models[n].handle.state.Loading? {
      assert ThreadHolds(s, t);
    }
    forall t | Rebuilds(At(s, t), n) ensures n in s.reg.models && s.reg.models[n].reloadPending {
      assert ThreadHolds(s, t);
    }
  }

  /**
   * Nothing can take a slot from under a build: while a thread builds it, unload, drain and completion are refused, so the
   * region that ends the build always finds its slot.
   */
  lemma BuildKeepsItsSlot(s: State, t: Tid, n: Name)
    requires Exclusive(s) && BuildsSlot(s, t, n)
    ensures n in s.reg.models && UnloadEnter(s.reg, n) == (Done(false), s.reg)
    ensures DrainRegion(s.reg, n) == (false, s.reg) && CompleteUnloadRegion(s.reg, n) == (false, s.reg)
    ensures At(s, t).Built? ==> LoadFinish(s.reg, At(s, t).config, At(s, t).built).0
    ensures At(s, t).Rebuilt? ==> !(ReloadFinish(s.reg, n, At(s, t).op, At(s, t).next).1.models[n].reloadPending)
  {
    assert ThreadHolds(s, t) && SlotHeld(s, n);
  }

  // ------------------------------------------------------------ staying Ready

  lemma ReadyBuildStep(s: State, e: Event, n: Name)
    requires Exclusive(s) && Enabled(s, e.t, e.a) && !Collides(s, e.t, e.a) && Serves(s, n) && Touched(s, e.t, e.a) == Some(n)
    requires ThreadHolds(s, e.t) && SlotHeld(s, n) && !IsUnloadAction(e.a)
    ensures Serves(Next(s, e.t, e.a), n)
  {
  }

  lemma ReadyUnloadStep(s: State, e: Event, n: Name)
    requires Enabled(s, e.t, e.a) && Serves(s, n) && Touched(s, e.t, e.a) == Some(n) && IsUnloadAction(e.a) && !DrainsSlot(s, e, n)
    ensures Serves(Next(s, e.t, e.a), n)
  {
  }

  lemma ReadyStep(s: State, e: Event, n: Name)
    requires Exclusive(s) && Enabled(s, e.t, e.a) && !Collides(s, e.t, e.a) && Serves(s, n) && !DrainsSlot(s, e, n)
    ensures Serves(Next(s, e.t, e.a), n)
  {
    assert ThreadHolds(s, e.t) && SlotHeld(s, n);
    if Touched(s, e.t, e.a) != Some(n) {
      assert Touched(s, e.t, e.a).Some? ==> SlotHeld(s, Touched(s, e.t, e.a).value);
      StepSteady(s, e.t, e.a, Next(s, e.t, e.a));
      assert SlotUntouched(s, Next(s, e.t, e.a), n);
    } else if IsUnloadAction(e.a) {
      ReadyUnloadStep(s, e, n);
    } else {
      ReadyBuildStep(s, e, n);
    }
  }

  /**
   * Once Ready, a model stays Ready until a drain of that name, whatever loads, reloads and version switches of any names start,
   * succeed, fail, abort or are torn meanwhile, as long as no guard collides.
   */
  lemma {:induction false} StaysReady(states: seq<State>, events: seq<Event>, i: nat, j: nat, n: Name)
    requires IsRun(states, events) && i <= j < |states| && Serves(states[i], n)
    requires forall k :: 0 <= k < j ==> !CollidesAt(states, events, k)
    requires forall k :: i <= k < j ==> !DrainsSlot(states[k], events[k], n)
    ensures Serves(states[j], n)
    decreases j
  {
    if i < j {
      StaysReady(states, events, i, j - 1, n);
      ExclusiveUntil(states, events, j - 1);
      assert StepAt(states, events, j - 1) && !CollidesAt(states, events, j - 1);
      ReadyStep(states[j - 1], events[j - 1], n);
    }
  }

  // ------------------------------------------------- what a rebuild publishes

  predicate Pending(s: State, n: Name) {
    n in s.reg.models && s.reg.models[n].reloadPending
  }

  lemma FrozenUnloadStep(s: State, e: Event, n: Name)
    requires Enabled(s, e.t, e.a) && Touched(s, e.t, e.a) == Some(n) && IsUnloadAction(e.a) && SlotHeld(s, n)
    requires Pending(s, n) && Pending(Next(s, e.t, e.a), n)
    ensures FindHandle(Next(s, e.t, e.a).reg, n) == FindHandle(s.reg, n)
  {
  }

  lemma FrozenBuildStep(s: State, e: Event, n: Name)
    requires Enabled(s, e.t, e.a) && Touched(s, e.t, e.a) == Some(n) && !IsUnloadAction(e.a) && ThreadHolds(s, e.t) && SlotHeld(s, n)
    requires Pending(s, n) && Pending(Next(s, e.t, e.a), n)
    ensures FindHandle(Next(s, e.t, e.a).reg, n) == FindHandle(s.reg, n)
  {
  }

  lemma FrozenStep(s: State, e: Event, n: Name)
    requires Exclusive(s) && Enabled(s, e.t, e.a) && !Collides(s, e.t, e.a) && Pending(s, n) && Pending(Next(s, e.t, e.a), n)
    ensures FindHandle(Next(s, e.t, e.a).reg, n) == FindHandle(s.reg, n)
  {
    var m := Touched(s, e.t, e.a);
    assert ThreadHolds(s, e.t) && SlotHeld(s, n) && (m.Some? ==> SlotHeld(s, m.value));
    if m != Some(n) {
      StepSteady(s, e.t, e.a, Next(s, e.t, e.a));
      assert SlotUntouched(s, Next(s, e.t, e.a), n);
    } else if IsUnloadAction(e.a) {
      FrozenUnloadStep(s, e, n);
    } else {
      FrozenBuildStep(s, e, n);
    }
  }

  /**
   * Request threads see one and the same snapshot from the moment a rebuild starts until it ends, torn builds of any names or not, as
   * long as no guard collides.
   */
  lemma {:induction false} PublishedFrozenWhilePending(states: seq<State>, events: seq<Event>, i: nat, j: nat, n: Name)
    requires IsRun(states, events) && i <= j < |states| && forall k :: 0 <= k < j ==> !CollidesAt(states, events, k)
    requires forall k :: i <= k <= j ==> Pending(states[k], n)
    ensures FindHandle(states[j].reg, n) == FindHandle(states[i].reg, n)
    decreases j
  {
    if i < j {
      PublishedFrozenWhilePending(states, events, i, j - 1, n);
      ExclusiveUntil(states, events, j - 1);
      assert StepAt(states, events, j - 1) && !CollidesAt(states, events, j - 1);
      FrozenStep(states[j - 1], events[j - 1], n);
    }
  }
}
