/**
 * Wake-ups in every run of the registry, whatever builds are torn and whatever guards collide: they are lost exactly when
 * the final swap of a rebuild throws while publishing with a thread asleep on that slot and nobody about to notify.
 */
module RegistryWaking {
  import opened Wrappers
  import opened ModelStates
  import opened ModelLifecycle
  import opened RegistryRegions
  import opened RegistryProtocol
  import opened RegistryTheorems

  /** Thread `t` is asleep on slot `n` and was not notified. */
  predicate Asleep(s: State, t: Tid, n: Name) {
    var pc := At(s, t);
    (pc.Joining? || pc.Parked?) && !pc.woken && pc.n == n
  }

  /** What the thread waits for has happened already. */
  predicate Overslept(s: State, t: Tid) {
    var pc := At(s, t);
    || (pc.Joining? && !pc.woken && LoadSettled(s.reg, pc.n))
    || (pc.Parked? && !pc.woken && ReloadSettled(s.reg, pc.n))
  }

  /** The thread is about to notify all waiters, or its guard is about to run and then to notify them. */
  predicate IsHerald(pc: Pc) {
    pc.Notifying? || pc.Torn?
  }

  ghost predicate Heralded(s: State) {
    exists u :: IsHerald(At(s, u))
  }

  ghost predicate Wakeful(s: State) {
    forall t :: Overslept(s, t) ==> Heralded(s)
  }

  // ---------------------------------------------------------- builders are alive

  /** A build that has ended is Ready or Failed. */
  predicate Ended(pc: Pc) {
    && (pc.Built? ==> pc.built.state.Ready? || pc.built.state.Failed?)
    && (pc.Rebuilt? ==> pc.next.state.Ready? || pc.next.state.Failed?)
  }

  /** A marked slot has the thread that marked it last at work, and cannot be unloaded. */
  predicate Alive(s: State, n: Name) {
    n in s.reg.models ==>
      var slot := s.reg.models[n];
      && (slot.handle.state.Loading? ==> !slot.reloadPending && n in s.builder && Loads(At(s, s.builder[n]), n))
      && (slot.reloadPending ==> !slot.handle.state.Unloading? && n in s.builder && Rebuilds(At(s, s.builder[n]), n))
  }

  ghost predicate AllAlive(s: State) {
    (forall t :: Ended(At(s, t))) && (forall n :: Alive(s, n))
  }

  /** What a step of `t` on slot `n` leaves alone, and what it has to show of the two. */
  ghost predicate Careful(s: State, s': State, t: Tid, n: Option<Name>) {
    && (forall u :: u != t ==> At(s', u) == At(s, u) || At(s', u) == Wakened(At(s, u)))
    && (forall m :: Some(m) != n ==> SlotUntouched(s, s', m))
    && (forall m :: Loads(At(s, t), m) || Rebuilds(At(s, t), m) ==> n == Some(m))
    && Ended(At(s', t)) && (n.Some? ==> Alive(s', n.value))
  }

  lemma CarefulKeeps(s: State, s': State, t: Tid, n: Option<Name>)
    requires AllAlive(s) && Careful(s, s', t, n)
    ensures AllAlive(s')
  {
    forall u ensures Ended(At(s', u)) {
      assert u != t ==> At(s', u) == At(s, u) || At(s', u) == Wakened(At(s, u));
    }
    forall m ensures Alive(s', m) {
      if Some(m) != n {
        assert SlotUntouched(s, s', m) && Alive(s, m);
        if m in s.reg.models && m in s.builder {
          var u := s.builder[m];
          assert u != t ==> At(s', u) == At(s, u) || At(s', u) == Wakened(At(s, u));
        }
      }
    }
  }

  predicate Ready(s: State, t: Tid, n: Option<Name>) {
    Ended(At(s, t)) && (n.Some? ==> Alive(s, n.value))
  }

  lemma LoadStartedCareful(s: State, t: Tid, config: Config, s': State)
    requires At(s, t).Idle? && s' == LoadStarted(s, t, config) && Alive(s, config.modelName)
    ensures Careful(s, s', t, Some(config.modelName))
  {
    var n := config.modelName;
    assert forall m :: m != n ==> SlotUntouched(s, s', m);
  }

  lemma BuildEndedCareful(s: State, t: Tid, a: Action, s': State)
    requires Enabled(s, t, a) && s' == Next(s, t, a) && (a.EndLoadBuild? || a.EndRebuild?) && Ready(s, t, Touched(s, t, a))
    ensures Careful(s, s', t, Touched(s, t, a))
  {
  }

  lemma LoadFinishedCareful(s: State, t: Tid, s': State)
    requires At(s, t).Built? && s' == LoadFinished(s, t, At(s, t).config, At(s, t).built) && Ready(s, t, Some(At(s, t).config.modelName))
    ensures Careful(s, s', t, Some(At(s, t).config.modelName))
  {
  }

  lemma LoadTornCareful(s: State, t: Tid, s': State)
    requires At(s, t).Built? && s' == LoadTorn(s, t, At(s, t).config, At(s, t).built) && Ready(s, t, Some(At(s, t).config.modelName))
    ensures Careful(s, s', t, Some(At(s, t).config.modelName))
  {
  }

  lemma AbortedCareful(s: State, t: Tid, n: Name, s': State)
    requires s' == Aborted(s, t, n) && Alive(s, n) && forall m :: BuildsSlot(s, t, m) ==> m == n
    ensures Careful(s, s', t, Some(n))
  {
    forall m | Loads(At(s, t), m) || Rebuilds(At(s, t), m) ensures m == n {
      assert BuildsSlot(s, t, m);
    }
  }

  lemma EnteredCareful(s: State, t: Tid, s': State)
    requires At(s, t).Entering? && s' == Entered(s, t, At(s, t).n, At(s, t).op) && Alive(s, At(s, t).n)
    ensures Careful(s, s', t, Some(At(s, t).n))
  {
    var n, op := At(s, t).n, At(s, t).op;
    if ReloadEnter(s.reg, n, op).0.Build? {
      RebuildStartedCareful(s, t, n, op, s');
    } else {
      assert s'.reg == s.reg;
      QuietCareful(s, t, n, At(s', t), s');
    }
  }

  lemma RebuildStartedCareful(s: State, t: Tid, n: Name, op: Rebuild, s': State)
    requires At(s, t).Entering? && ReloadEnter(s.reg, n, op).0.Build? && Alive(s, n)
    requires s' == Goto(s.(reg := ReloadEnter(s.reg, n, op).1, builder := s.builder[n := t]), t, Rebuilding(n, op))
    ensures Careful(s, s', t, Some(n))
  {
    var slot := s.reg.models[n];
    assert !slot.reloadPending && !slot.handle.state.Loading?;
  }

  lemma QuietCareful(s: State, t: Tid, n: Name, pc: Pc, s': State)
    requires Quiet(At(s, t)) && Quiet(pc) && s' == Goto(s, t, pc) && Alive(s, n)
    ensures Careful(s, s', t, Some(n))
  {
  }

  lemma RebuildFinishedCareful(s: State, t: Tid, s': State)
    requires At(s, t).Rebuilt? && s' == RebuildFinished(s, t, At(s, t).n, At(s, t).op, At(s, t).next) && Ready(s, t, Some(At(s, t).n))
    ensures Careful(s, s', t, Some(At(s, t).n))
  {
  }

  lemma RebuildTornCareful(s: State, t: Tid, s': State)
    requires At(s, t).Rebuilt? && s' == RebuildTorn(s, t, At(s, t).n, At(s, t).op, At(s, t).next) && Ready(s, t, Some(At(s, t).n))
    ensures Careful(s, s', t, Some(At(s, t).n))
  {
  }

  lemma MovedCareful(s: State, t: Tid, pc: Pc, s': State)
    requires Quiet(At(s, t)) && Quiet(pc) && s' == Goto(s, t, pc)
    ensures Careful(s, s', t, None)
  {
  }

  lemma NotifiedCareful(s: State, t: Tid, retire: Option<SchedulerId>, result: Option<bool>, s': State)
    requires At(s, t) == Notifying(retire, result) && s' == Notified(s, t, retire, result)
    ensures Careful(s, s', t, None)
  {
  }

  lemma RetireCareful(s: State, t: Tid, a: Action, s': State)
    requires Enabled(s, t, a) && s' == Next(s, t, a) && (a.RetireOld? || a.RetireTask?)
    ensures Careful(s, s', t, None)
  {
    assert forall m :: SlotUntouched(s, s', m);
  }

  lemma UnloadStartedCareful(s: State, t: Tid, n: Name, s': State)
    requires At(s, t).Idle? && s' == UnloadStarted(s, t, n) && Alive(s, n)
    ensures Careful(s, s', t, Some(n))
  {
  }

  lemma DrainCareful(s: State, t: Tid, n: Name, pc: Pc, s': State)
    requires Quiet(At(s, t)) && Quiet(pc) && s' == Goto(Drain(s, n), t, pc) && Alive(s, n)
    ensures Careful(s, s', t, Some(n))
  {
  }

  lemma CompleteCareful(s: State, t: Tid, n: Name, s': State)
    requires Quiet(At(s, t)) && s' == Completed(s, t, n) && Alive(s, n)
    ensures Careful(s, s', t, Some(n))
  {
  }

  lemma BuildCareful(s: State, t: Tid, a: Action, s': State)
    requires Enabled(s, t, a) && s' == Next(s, t, a) && Ready(s, t, Touched(s, t, a))
    requires a.StartLoad? || a.EndLoadBuild? || a.FinishLoad? || a.AbortLoad? || a.TearLoad? || a.TornGuard?
    ensures Careful(s, s', t, Touched(s, t, a))
  {
    match a
    case StartLoad(config) => LoadStartedCareful(s, t, config, s');
    case EndLoadBuild(_, _) => BuildEndedCareful(s, t, a, s');
    case FinishLoad => LoadFinishedCareful(s, t, s');
    case AbortLoad => AbortedCareful(s, t, At(s, t).config.modelName, s');
    case TearLoad => LoadTornCareful(s, t, s');
    case TornGuard => AbortedCareful(s, t, At(s, t).n, s');
  }

  lemma RebuildCareful(s: State, t: Tid, a: Action, s': State)
    requires Enabled(s, t, a) && s' == Next(s, t, a) && Ready(s, t, Touched(s, t, a))
    requires a.StartReload? || a.Enter? || a.EndRebuild? || a.FinishRebuild? || a.AbortRebuild? || a.TearRebuild?
    ensures Careful(s, s', t, Touched(s, t, a))
  {
    match a
    case StartReload(n, op) => MovedCareful(s, t, Entering(n, op), s');
    case Enter => EnteredCareful(s, t, s');
    case EndRebuild(_, _) => BuildEndedCareful(s, t, a, s');
    case FinishRebuild => RebuildFinishedCareful(s, t, s');
    case AbortRebuild => AbortedCareful(s, t, At(s, t).n, s');
    case TearRebuild => RebuildTornCareful(s, t, s');
  }

  lemma NotifyCareful(s: State, t: Tid, a: Action, s': State)
    requires Enabled(s, t, a) && s' == Next(s, t, a) && (a.Wake? || a.Notify? || a.RetireOld? || a.RetireTask?)
    ensures Careful(s, s', t, Touched(s, t, a))
  {
    match a
    case Wake => MovedCareful(s, t, At(s', t), s');
    case Notify => NotifiedCareful(s, t, At(s, t).retire, At(s, t).result, s');
    case RetireOld => RetireCareful(s, t, a, s');
    case RetireTask(_) => RetireCareful(s, t, a, s');
  }

  lemma UnloadCareful(s: State, t: Tid, a: Action, s': State)
    requires Enabled(s, t, a) && s' == Next(s, t, a) && Ready(s, t, Touched(s, t, a)) && IsUnloadAction(a)
    ensures Careful(s, s', t, Touched(s, t, a))
  {
    match a
    case StartUnload(n) => UnloadStartedCareful(s, t, n, s');
    case UnloadDrain => DrainCareful(s, t, At(s, t).n, At(s', t), s');
    case UnloadComplete => CompleteCareful(s, t, At(s, t).n, s');
    case StartDrain(n) => DrainCareful(s, t, n, At(s', t), s');
    case StartComplete(n) => CompleteCareful(s, t, n, s');
  }

  lemma StepCareful(s: State, t: Tid, a: Action, s': State)
    requires Enabled(s, t, a) && s' == Next(s, t, a) && Ready(s, t, Touched(s, t, a))
    ensures Careful(s, s', t, Touched(s, t, a))
  {
    if a.StartLoad? || a.EndLoadBuild? || a.FinishLoad? || a.AbortLoad? || a.TearLoad? || a.TornGuard? {
      BuildCareful(s, t, a, s');
    } else if a.StartReload? || a.Enter? || a.EndRebuild? || a.FinishRebuild? || a.AbortRebuild? || a.TearRebuild? {
      RebuildCareful(s, t, a, s');
    } else if IsUnloadAction(a) {
      UnloadCareful(s, t, a, s');
    } else {
      NotifyCareful(s, t, a, s');
    }
  }

  lemma AliveStep(s: State, t: Tid, a: Action, s': State)
    requires AllAlive(s) && Enabled(s, t, a) && s' == Next(s, t, a)
    ensures AllAlive(s') && Careful(s, s', t, Touched(s, t, a))
  {
    assert Ended(At(s, t)) && (Touched(s, t, a).Some? ==> Alive(s, Touched(s, t, a).value));
    StepCareful(s, t, a, s');
    CarefulKeeps(s, s', t, Touched(s, t, a));
  }

  // --------------------------------------------------------- who settles, notifies

  /** A slot being built is still being built. */
  predicate Unsettled(s: State, s': State, n: Name) {
    (!LoadSettled(s.reg, n) ==> !LoadSettled(s'.reg, n)) && (!ReloadSettled(s.reg, n) ==> !ReloadSettled(s'.reg, n))
  }

  lemma EnteredLeaves(s: State, t: Tid, n: Name, op: Rebuild, s': State)
    requires s' == Entered(s, t, n, op) && Alive(s, n)
    ensures Unsettled(s, s', n)
  {
  }

  lemma UnloadLeaves(s: State, t: Tid, n: Name, pc: Pc, s': State)
    requires s' == UnloadStarted(s, t, n) || s' == Goto(Drain(s, n), t, pc) || s' == Goto(Complete(s, n), t, pc)
    requires Alive(s, n)
    ensures Unsettled(s, s', n)
  {
  }

  /** Only the end of a build settles its slot, and its thread then notifies, or its guard is about to run. */
  lemma SettlesLoudly(s: State, t: Tid, a: Action, s': State, n: Name)
    requires AllAlive(s) && Enabled(s, t, a) && s' == Next(s, t, a) && Careful(s, s', t, Touched(s, t, a)) && !a.TearRebuild?
    ensures IsHerald(At(s', t)) || Unsettled(s, s', n)
  {
    assert Alive(s, n);
    if Touched(s, t, a) != Some(n) {
      assert SlotUntouched(s, s', n);
    } else if a.Enter? {
      EnteredLeaves(s, t, n, At(s, t).op, s');
    } else if IsUnloadAction(a) {
      UnloadStepLeaves(s, t, a, s', n);
    } else {
      BuildEndsLoudly(s, t, a, s', n);
    }
  }

  lemma UnloadStepLeaves(s: State, t: Tid, a: Action, s': State, n: Name)
    requires Enabled(s, t, a) && s' == Next(s, t, a) && IsUnloadAction(a) && Touched(s, t, a) == Some(n) && Alive(s, n)
    ensures Unsettled(s, s', n)
  {
    UnloadLeaves(s, t, n, At(s', t), s');
  }

  lemma BuildEndsLoudly(s: State, t: Tid, a: Action, s': State, n: Name)
    requires Enabled(s, t, a) && s' == Next(s, t, a) && !a.TearRebuild? && !a.Enter? && !IsUnloadAction(a) && Touched(s, t, a) == Some(n)
    ensures IsHerald(At(s', t)) || Unsettled(s, s', n)
  {
  }

  lemma HeraldsStay(s: State, t: Tid, a: Action, s': State)
    requires Enabled(s, t, a) && s' == Next(s, t, a) && Careful(s, s', t, Touched(s, t, a)) && Heralded(s) && !a.Notify?
    ensures Heralded(s')
  {
    var u :| IsHerald(At(s, u));
    if u == t {
      assert a.TornGuard? && At(s', t).Notifying?;
    } else {
      assert IsHerald(At(s', u));
    }
  }

  lemma NotifyWakesAll(s: State, t: Tid, s': State, u: Tid)
    requires Enabled(s, t, Notify) && s' == Next(s, t, Notify)
    ensures !Overslept(s', u)
  {
  }

  /** A thread falls asleep only on a condition that does not hold. */
  lemma SleepsSoundly(s: State, t: Tid, a: Action, s': State)
    requires Enabled(s, t, a) && s' == Next(s, t, a)
    ensures !Overslept(s', t)
  {
  }

  /** The final swap of a rebuild throws with a thread asleep on its slot, whose wait it ends, and nobody about to notify. */
  ghost predicate LosesWakeup(s: State, t: Tid, a: Action) {
    && a.TearRebuild? && At(s, t).Rebuilt? && !Heralded(s)
    && exists u :: Asleep(s, u, At(s, t).n) && (At(s, u).Parked? || At(s, t).next.state.Ready?)
  }

  lemma TornRebuildOversleeps(s: State, t: Tid, s': State, u: Tid)
    requires AllAlive(s) && Wakeful(s) && Enabled(s, t, TearRebuild) && s' == Next(s, t, TearRebuild) && !Heralded(s) && u != t
    ensures Overslept(s', u) <==> Asleep(s, u, At(s, t).n) && (At(s, u).Parked? || At(s, t).next.state.Ready?)
  {
    assert !Overslept(s, u) && Alive(s, At(s, t).n) && Ended(At(s, t));
    assert At(s', u) == At(s, u);
  }

  lemma TornRebuildUnheralded(s: State, t: Tid, s': State)
    requires Enabled(s, t, TearRebuild) && s' == Next(s, t, TearRebuild) && !Heralded(s)
    ensures !Heralded(s')
  {
    forall u ensures !IsHerald(At(s', u)) {
      assert !IsHerald(At(s, u));
    }
  }

  /** A step keeps every sleeper's wake-up coming exactly when it is not such a swap. */
  lemma WakefulStep(s: State, t: Tid, a: Action, s': State)
    requires AllAlive(s) && Wakeful(s) && Enabled(s, t, a) && s' == Next(s, t, a)
    ensures AllAlive(s') && (Wakeful(s') <==> !LosesWakeup(s, t, a))
  {
    AliveStep(s, t, a, s');
    SleepsSoundly(s, t, a, s');
    if a.Notify? {
      forall u ensures !Overslept(s', u) {
        NotifyWakesAll(s, t, s', u);
      }
    } else if Heralded(s) {
      HeraldsStay(s, t, a, s');
    } else if a.TearRebuild? {
      TornRebuildUnheralded(s, t, s');
      forall u | u != t ensures Overslept(s', u) <==> Asleep(s, u, At(s, t).n) && (At(s, u).Parked? || At(s, t).next.state.Ready?) {
        TornRebuildOversleeps(s, t, s', u);
      }
      assert !Asleep(s, t, At(s, t).n);
    } else {
      forall u | Overslept(s', u) ensures Heralded(s') {
        assert u != t && At(s', u) == At(s, u) && !Overslept(s, u);
        SettlesLoudly(s, t, a, s', At(s, u).n);
        assert IsHerald(At(s', t));
      }
    }
  }

  // --------------------------------------------------------------- whole runs

  lemma AliveAlways(states: seq<State>, events: seq<Event>, k: nat)
    requires IsRun(states, events) && k < |states|
    ensures AllAlive(states[k])
  {
    forall s, e, s' | Steps(s, e, s') && AllAlive(s) ensures AllAlive(s') {
      AliveStep(s, e.t, e.a, s');
    }
    RunInduction(states, events, s => AllAlive(s), k);
  }

  ghost predicate LosesAt(states: seq<State>, events: seq<Event>, i: nat)
    requires i < |events| && |states| == |events| + 1
  {
    LosesWakeup(states[i], events[i].t, events[i].a)
  }

  lemma {:induction false} WakefulUntil(states: seq<State>, events: seq<Event>, k: nat)
    requires IsRun(states, events) && k < |states| && forall i :: 0 <= i < k ==> !LosesAt(states, events, i)
    ensures Wakeful(states[k])
    decreases k
  {
    if k > 0 {
      WakefulUntil(states, events, k - 1);
      AliveAlways(states, events, k - 1);
      assert StepAt(states, events, k - 1) && !LosesAt(states, events, k - 1);
      WakefulStep(states[k - 1], events[k - 1].t, events[k - 1].a, states[k]);
    }
  }

  /** Over any run: every thread that overslept has somebody about to notify it, throughout, exactly when no rebuild is torn in that way. */
  lemma WakeupsExactly(states: seq<State>, events: seq<Event>)
    requires IsRun(states, events)
    ensures (forall k :: 0 <= k < |states| ==> Wakeful(states[k])) <==> forall i :: 0 <= i < |events| ==> !LosesAt(states, events, i)
  {
    if forall i :: 0 <= i < |events| ==> !LosesAt(states, events, i) {
      forall k | 0 <= k < |states| ensures Wakeful(states[k]) {
        WakefulUntil(states, events, k);
      }
    } else {
      var i :| 0 <= i < |events| && LosesAt(states, events, i);
      assert StepAt(states, events, i);
      if Wakeful(states[i]) {
        AliveAlways(states, events, i);
        WakefulStep(states[i], events[i].t, events[i].a, states[i + 1]);
        assert !Wakeful(states[i + 1]);
      }
    }
  }

  /**
   * No lost wake-ups, whatever loads are torn and whatever guards collide: a thread asleep and not notified waits for a live builder,
   * or some thread is about to notify it, or is about to run a guard that does.
   */
  lemma SleepersAreWoken(states: seq<State>, events: seq<Event>, k: nat, t: Tid)
    requires IsRun(states, events) && k < |states| && forall i :: 0 <= i < k ==> !LosesAt(states, events, i)
    requires var pc := At(states[k], t); (pc.Joining? || pc.Parked?) && !pc.woken
    ensures Heralded(states[k]) || exists u :: u != t && BuildsSlot(states[k], u, At(states[k], t).n)
  {
    var s := states[k];
    AliveAlways(states, events, k);
    WakefulUntil(states, events, k);
    var n := At(s, t).n;
    if !Overslept(s, t) {
      assert Alive(s, n);
      assert BuildsSlot(s, s.builder[n], n);
    }
  }
}
