/**
 * No scheduler is lost, exactly when: in every run, each scheduler a slot has held is still in the slot's handle or its published
 * snapshot, due for retirement with a thread, or in the retire queue, as long as no step overwrites one of the two places of a slot
 * while the other holds another scheduler.
 */
module RegistryConservation {
  import opened Wrappers
  import opened ModelStates
  import opened ModelLifecycle
  import opened RegistryRegions
  import opened RegistryProtocol
  import opened RegistryTheorems
  import opened RegistryOwnership
  import opened RegistryServing

  // ------------------------------------------------------------ what is claimed

  predicate Holds(slot: Slot, x: SchedulerId) {
    slot.handle.scheduler == Some(x) || SchedulerOf(slot.active) == Some(x)
  }

  ghost predicate Held(s: State, x: SchedulerId) {
    exists n :: n in s.reg.models && Holds(s.reg.models[n], x)
  }

  ghost predicate Due(s: State, x: SchedulerId) {
    exists t :: MustRetire(At(s, t), x)
  }

  /** Every scheduler a slot has held is accounted for. */
  ghost predicate Conserved(s: State) {
    forall x :: x in s.born && s.born[x].served ==> Held(s, x) || Due(s, x) || x in s.reg.retired
  }

  // -------------------------------------------------------- what loses one

  /** A guard that acts, a rebuild that failed, a drain or the removal of the slot: the published snapshot goes and nobody retires its scheduler. */
  predicate Unpublishes(s: State, t: Tid, a: Action, n: Name)
    requires n in s.reg.models
  {
    var slot := s.reg.models[n];
    match a
    case AbortLoad => slot.handle.state.Loading? || slot.reloadPending
    case AbortRebuild => slot.handle.state.Loading? || slot.reloadPending
    case TornGuard => slot.handle.state.Loading? || slot.reloadPending
    case FinishRebuild => At(s, t).Rebuilt? && !At(s, t).next.state.Ready?
    case StartUnload(_) => UnloadEnter(s.reg, n).0 == Done(true)
    case UnloadDrain => DrainRegion(s.reg, n).0
    case StartDrain(_) => DrainRegion(s.reg, n).0
    case UnloadComplete => CompleteUnloadRegion(s.reg, n).0
    case StartComplete(_) => CompleteUnloadRegion(s.reg, n).0
    case _ => false
  }

  /** The handle gets another scheduler, or none, and nobody retires the one it had. */
  predicate Displaces(s: State, t: Tid, a: Action, n: Name)
    requires n in s.reg.models
  {
    match a
    case TearLoad => true
    case FinishRebuild => At(s, t).Rebuilt? && At(s, t).next.state.Ready?
    case TearRebuild => At(s, t).Rebuilt? && At(s, t).next.state.Ready?
    case Enter => At(s, t).Entering? && ReloadEnter(s.reg, n, At(s, t).op).0.Build? && s.reg.models[n].handle.state.Unloading?
    case _ => false
  }

  /** The step overwrites one place of its slot while the other holds another scheduler, or none. */
  predicate Drops(s: State, t: Tid, a: Action) {
    && Touched(s, t, a).Some? && Touched(s, t, a).value in s.reg.models
    && var n := Touched(s, t, a).value;
       var held, shown := s.reg.models[n].handle.scheduler, SchedulerOf(s.reg.models[n].active);
    || (Unpublishes(s, t, a, n) && shown.Some? && shown != held)
    || (Displaces(s, t, a, n) && held.Some? && held != shown)
    || (a.FinishLoad? && (held.Some? || shown.Some?))
  }

  /** A rebuild of a slot that was draining when it began, and still shows its scheduler, fails or aborts. */
  predicate FailsDrained(s: State, t: Tid, a: Action) {
    var pc := At(s, t);
    && ((a.AbortRebuild? && pc.Rebuilding?) || (a.FinishRebuild? && pc.Rebuilt? && !pc.next.state.Ready?))
    && pc.n in s.reg.models && s.reg.models[pc.n].handle.state.Unloaded? && SchedulerOf(s.reg.models[pc.n].active).Some?
  }

  /** Without torn builds nothing else drops a scheduler. */
  lemma UntornDrops(s: State, t: Tid, a: Action)
    requires Inv(s) && Enabled(s, t, a) && !Tears(a)
    ensures Drops(s, t, a) <==> FailsDrained(s, t, a)
  {
    assert ThreadOk(s, t);
    if Touched(s, t, a).Some? {
      assert SlotOk(s, Touched(s, t, a).value);
    }
  }

  // -------------------------------------------------------------- with owners

  /** The scheduler is where its last owner should have it. */
  predicate Accounted(s: State, x: SchedulerId)
    requires x in s.born
  {
    match s.born[x].owner
    case InSlot(n) => n in s.reg.models && Holds(s.reg.models[n], x)
    case InThread(t) => Carried(At(s, t)) == Some(x) && (At(s, t).Notifying? || At(s, t).Retiring?)
    case InQueue(i) => i < |s.reg.retired| && s.reg.retired[i] == x
  }

  ghost predicate Kept(s: State) {
    forall x :: x in s.born && s.born[x].served ==> Accounted(s, x)
  }

  lemma KeptIsConserved(s: State)
    requires Owned(s)
    ensures Kept(s) <==> Conserved(s)
  {
    forall x | x in s.born && s.born[x].served
      ensures Accounted(s, x) <==> Held(s, x) || Due(s, x) || x in s.reg.retired
    {
      PlacesAreOwners(s, x);
    }
  }

  lemma PlacesAreOwners(s: State, x: SchedulerId)
    requires Owned(s) && x in s.born
    ensures Accounted(s, x) <==> Held(s, x) || Due(s, x) || x in s.reg.retired
  {
    if Held(s, x) {
      var n :| n in s.reg.models && Holds(s.reg.models[n], x);
      assert SlotOwns(s, n);
    }
    if Due(s, x) {
      var t :| MustRetire(At(s, t), x);
      assert ThreadOwns(s, t);
    }
    if x in s.reg.retired {
      var i: nat :| i < |s.reg.retired| && s.reg.retired[i] == x;
      assert QueueOk(s, i);
    }
  }

  // ------------------------------------------------------------------- steps

  lemma AccountedFrame(s: State, s': State, t: Tid, n: Option<Name>, x: SchedulerId)
    requires Leaves(s, s', t, n) && QueueGrows(s, s') && x in s.born && Accounted(s, x)
    requires s.born[x].owner != InThread(t) && (n.Some? ==> s.born[x].owner != InSlot(n.value))
    ensures x in s'.born && Accounted(s', x)
  {
    assert SchedulerUntouched(s, s', t, n, x);
    match s.born[x].owner
    case InSlot(m) => assert SlotUntouched(s, s', m);
    case InThread(u) => assert At(s', u) == At(s, u) || At(s', u) == Wakened(At(s, u));
    case InQueue(i) => assert s'.reg.retired[i] == s'.reg.retired[..|s.reg.retired|][i];
  }

  predicate Near(s: State, t: Tid, n: Option<Name>, x: SchedulerId)
    requires x in s.born
  {
    s.born[x].owner == InThread(t) || (n.Some? && s.born[x].owner == InSlot(n.value))
  }

  /** What is known of a scheduler its slot or the stepping thread answers for. */
  predicate Known(s: State, t: Tid, n: Option<Name>, x: SchedulerId) {
    && x in s.born && Near(s, t, n, x) && (s.born[x].served ==> Accounted(s, x))
    && OwnsAt(s, t, n) && ThreadLive(s, t)
  }

  predicate StillKept(s': State, x: SchedulerId) {
    x in s'.born && (s'.born[x].served ==> Accounted(s', x))
  }

  lemma LoadAccounts(s: State, t: Tid, a: Action, s': State, x: SchedulerId)
    requires Enabled(s, t, a) && s' == Next(s, t, a) && (a.StartLoad? || a.EndLoadBuild?) && Known(s, t, Touched(s, t, a), x)
    ensures StillKept(s', x)
  {
  }

  lemma LoadSwapAccounts(s: State, t: Tid, a: Action, s': State, x: SchedulerId)
    requires Enabled(s, t, a) && s' == Next(s, t, a) && (a.FinishLoad? || a.TearLoad?) && !Drops(s, t, a) && Known(s, t, Touched(s, t, a), x)
    ensures StillKept(s', x)
  {
  }

  lemma GuardAccounts(s: State, t: Tid, a: Action, s': State, x: SchedulerId)
    requires Enabled(s, t, a) && s' == Next(s, t, a) && (a.AbortLoad? || a.AbortRebuild? || a.TornGuard?) && !Drops(s, t, a)
    requires Known(s, t, Touched(s, t, a), x)
    ensures StillKept(s', x)
  {
  }

  lemma EnterAccounts(s: State, t: Tid, a: Action, s': State, x: SchedulerId)
    requires Enabled(s, t, a) && s' == Next(s, t, a) && (a.StartReload? || a.Enter? || a.EndRebuild?) && !Drops(s, t, a)
    requires Known(s, t, Touched(s, t, a), x)
    ensures StillKept(s', x)
  {
  }

  lemma LostAccounts(s: State, t: Tid, a: Action, s': State, x: SchedulerId)
    requires Enabled(s, t, a) && s' == Next(s, t, a) && !Drops(s, t, a) && Known(s, t, Touched(s, t, a), x)
    requires (a.FinishRebuild? || a.TearRebuild?) && !At(s, t).next.state.Ready?
    ensures StillKept(s', x)
  {
  }

  lemma TornAccounts(s: State, t: Tid, s': State, x: SchedulerId)
    requires Enabled(s, t, TearRebuild) && s' == Next(s, t, TearRebuild) && !Drops(s, t, TearRebuild) && At(s, t).next.state.Ready?
    requires Known(s, t, Touched(s, t, TearRebuild), x)
    ensures StillKept(s', x)
  {
  }

  lemma WonAccounts(s: State, t: Tid, s': State, x: SchedulerId)
    requires Enabled(s, t, FinishRebuild) && s' == Next(s, t, FinishRebuild) && !Drops(s, t, FinishRebuild) && At(s, t).next.state.Ready?
    requires Known(s, t, Touched(s, t, FinishRebuild), x)
    ensures StillKept(s', x)
  {
    var n, next := At(s, t).n, At(s, t).next;
    assert n in s.reg.models ==> SchedulerOf(s.reg.models[n].active) != next.scheduler;
  }

  lemma NotifyAccounts(s: State, t: Tid, a: Action, s': State, x: SchedulerId)
    requires Enabled(s, t, a) && s' == Next(s, t, a) && (a.Wake? || a.Notify? || a.RetireOld? || a.RetireTask?)
    requires Known(s, t, None, x)
    ensures StillKept(s', x)
  {
  }

  lemma EraseAccounts(s: State, t: Tid, n: Name, s': State, x: SchedulerId)
    requires At(s, t).Idle? && s' == UnloadStarted(s, t, n) && !Drops(s, t, StartUnload(n)) && Known(s, t, Some(n), x)
    ensures StillKept(s', x)
  {
  }

  lemma DrainAccounts(s: State, t: Tid, a: Action, n: Name, s': State, x: SchedulerId)
    requires Quiet(At(s, t)) && !Drops(s, t, a) && (a.UnloadDrain? || a.StartDrain?) && Touched(s, t, a) == Some(n)
    requires Quiet(At(s', t)) && s' == Goto(Drain(s, n), t, At(s', t)) && Known(s, t, Some(n), x)
    ensures StillKept(s', x)
  {
  }

  lemma CompleteAccounts(s: State, t: Tid, a: Action, n: Name, s': State, x: SchedulerId)
    requires Quiet(At(s, t)) && !Drops(s, t, a) && (a.UnloadComplete? || a.StartComplete?) && Touched(s, t, a) == Some(n)
    requires s' == Completed(s, t, n) && Known(s, t, Some(n), x)
    ensures StillKept(s', x)
  {
    if CompleteUnloadRegion(s.reg, n).0 {
      var held := s.reg.models[n].handle.scheduler;
      assert s'.reg.retired == if held.Some? then s.reg.retired + [held.value] else s.reg.retired;
      assert s.born[x].served ==> Some(x) == held;
    }
  }

  lemma UnloadAccounts(s: State, t: Tid, a: Action, s': State, x: SchedulerId)
    requires Enabled(s, t, a) && s' == Next(s, t, a) && IsUnloadAction(a) && !Drops(s, t, a) && Known(s, t, Touched(s, t, a), x)
    ensures StillKept(s', x)
  {
    match a
    case StartUnload(n) => EraseAccounts(s, t, n, s', x);
    case UnloadDrain => DrainAccounts(s, t, a, At(s, t).n, s', x);
    case UnloadComplete => CompleteAccounts(s, t, a, At(s, t).n, s', x);
    case StartDrain(n) => DrainAccounts(s, t, a, n, s', x);
    case StartComplete(n) => CompleteAccounts(s, t, a, n, s', x);
  }

  lemma StepAccounts(s: State, t: Tid, a: Action, s': State, x: SchedulerId)
    requires Enabled(s, t, a) && s' == Next(s, t, a) && !Drops(s, t, a) && Known(s, t, Touched(s, t, a), x)
    ensures StillKept(s', x)
  {
    if a.StartLoad? || a.EndLoadBuild? {
      LoadAccounts(s, t, a, s', x);
    } else if a.FinishLoad? || a.TearLoad? {
      LoadSwapAccounts(s, t, a, s', x);
    } else if a.AbortLoad? || a.AbortRebuild? || a.TornGuard? {
      GuardAccounts(s, t, a, s', x);
    } else if a.StartReload? || a.Enter? || a.EndRebuild? {
      EnterAccounts(s, t, a, s', x);
    } else if a.FinishRebuild? || a.TearRebuild? {
      if !At(s, t).next.state.Ready? {
        LostAccounts(s, t, a, s', x);
      } else if a.TearRebuild? {
        TornAccounts(s, t, s', x);
      } else {
        WonAccounts(s, t, s', x);
      }
    } else if IsUnloadAction(a) {
      UnloadAccounts(s, t, a, s', x);
    } else {
      NotifyAccounts(s, t, a, s', x);
    }
  }

  lemma NewUnserved(s: State, t: Tid, a: Action, s': State, x: SchedulerId)
    requires Enabled(s, t, a) && s' == Next(s, t, a) && x in s'.born && x !in s.born
    ensures !s'.born[x].served
  {
  }

  /** The scheduler a dropping step lets go of. */
  function Dropped(s: State, t: Tid, a: Action): SchedulerId
    requires Drops(s, t, a)
  {
    var slot := s.reg.models[Touched(s, t, a).value];
    if Displaces(s, t, a, Touched(s, t, a).value) || (a.FinishLoad? && slot.handle.scheduler.Some?) then slot.handle.scheduler.value
    else SchedulerOf(slot.active).value
  }

  lemma LoadDropLoses(s: State, t: Tid, a: Action, s': State)
    requires Enabled(s, t, a) && s' == Next(s, t, a) && Drops(s, t, a) && OwnsAt(s, t, Touched(s, t, a)) && IsLoadAction(a)
    requires s.born[Dropped(s, t, a)].served
    ensures var x := Dropped(s, t, a); x in s'.born && s'.born[x].served && !Accounted(s', x)
  {
  }

  lemma RebuildDropLoses(s: State, t: Tid, a: Action, s': State)
    requires Enabled(s, t, a) && s' == Next(s, t, a) && Drops(s, t, a) && OwnsAt(s, t, Touched(s, t, a)) && (a.Enter? || a.AbortRebuild?)
    requires s.born[Dropped(s, t, a)].served
    ensures var x := Dropped(s, t, a); x in s'.born && s'.born[x].served && !Accounted(s', x)
  {
  }

  lemma SwapDropLoses(s: State, t: Tid, a: Action, s': State)
    requires Enabled(s, t, a) && s' == Next(s, t, a) && Drops(s, t, a) && OwnsAt(s, t, Touched(s, t, a)) && (a.FinishRebuild? || a.TearRebuild?)
    requires s.born[Dropped(s, t, a)].served
    ensures var x := Dropped(s, t, a); x in s'.born && s'.born[x].served && !Accounted(s', x)
  {
  }

  lemma UnloadDropLoses(s: State, t: Tid, a: Action, s': State)
    requires Enabled(s, t, a) && s' == Next(s, t, a) && Drops(s, t, a) && OwnsAt(s, t, Touched(s, t, a)) && IsUnloadAction(a)
    requires s.born[Dropped(s, t, a)].served
    ensures var x := Dropped(s, t, a); x in s'.born && s'.born[x].served && !Accounted(s', x)
  {
  }

  lemma DropLoses(s: State, t: Tid, a: Action, s': State)
    requires Live(s) && Enabled(s, t, a) && s' == Next(s, t, a) && Drops(s, t, a)
    ensures !Kept(s')
  {
    assert ThreadOwns(s, t) && SlotOwns(s, Touched(s, t, a).value) && HeldServed(s, Dropped(s, t, a));
    if IsUnloadAction(a) {
      UnloadDropLoses(s, t, a, s');
    } else if IsLoadAction(a) {
      LoadDropLoses(s, t, a, s');
    } else if a.Enter? || a.AbortRebuild? {
      RebuildDropLoses(s, t, a, s');
    } else {
      SwapDropLoses(s, t, a, s');
    }
  }

  /** A step keeps every scheduler accounted for exactly when it is not such an overwriting. */
  lemma KeptStep(s: State, t: Tid, a: Action, s': State)
    requires Live(s) && Kept(s) && Enabled(s, t, a) && s' == Next(s, t, a)
    ensures Kept(s') <==> !Drops(s, t, a)
  {
    if Drops(s, t, a) {
      DropLoses(s, t, a, s');
    } else {
      var n := Touched(s, t, a);
      LiveStep(s, t, a, s');
      assert ThreadOwns(s, t) && ThreadLive(s, t) && (n.Some? ==> SlotOwns(s, n.value));
      StepPasses(s, t, a, s');
      forall x | x in s'.born && s'.born[x].served ensures Accounted(s', x) {
        if x !in s.born {
          NewUnserved(s, t, a, s', x);
        } else if Near(s, t, n, x) {
          StepAccounts(s, t, a, s', x);
        } else {
          assert SchedulerUntouched(s, s', t, n, x);
          AccountedFrame(s, s', t, n, x);
        }
      }
    }
  }

  // --------------------------------------------------------------- whole runs

  predicate DropsAt(states: seq<State>, events: seq<Event>, i: nat)
    requires i < |events| && |states| == |events| + 1
  {
    Drops(states[i], events[i].t, events[i].a)
  }

  lemma {:induction false} KeptUntil(states: seq<State>, events: seq<Event>, k: nat)
    requires IsRun(states, events) && k < |states| && forall i :: 0 <= i < k ==> !DropsAt(states, events, i)
    ensures Kept(states[k])
    decreases k
  {
    if k > 0 {
      KeptUntil(states, events, k - 1);
      assert !DropsAt(states, events, k - 1);
      KeptNext(states, events, k - 1);
    }
  }

  lemma KeptNext(states: seq<State>, events: seq<Event>, i: nat)
    requires IsRun(states, events) && i < |events| && Kept(states[i]) && !DropsAt(states, events, i)
    ensures Kept(states[i + 1])
  {
    LiveAlways(states, events, i);
    assert StepAt(states, events, i);
    KeptStep(states[i], events[i].t, events[i].a, states[i + 1]);
  }

  /** Over every run, torn builds and colliding guards included: each scheduler a slot has held stays accounted for exactly when no step drops one. */
  lemma ConservedExactly(states: seq<State>, events: seq<Event>)
    requires IsRun(states, events)
    ensures (forall k :: 0 <= k < |states| ==> Conserved(states[k])) <==> forall i :: 0 <= i < |events| ==> !DropsAt(states, events, i)
  {
    forall k | 0 <= k < |states| ensures Kept(states[k]) <==> Conserved(states[k]) {
      OwnedAlways(states, events, k);
      KeptIsConserved(states[k]);
    }
    if forall i :: 0 <= i < |events| ==> !DropsAt(states, events, i) {
      forall k | 0 <= k < |states| ensures Conserved(states[k]) {
        KeptUntil(states, events, k);
      }
    } else {
      var i :| 0 <= i < |events| && DropsAt(states, events, i);
      LosesNext(states, events, i);
      assert !Conserved(states[i + 1]);
    }
  }

  lemma LosesNext(states: seq<State>, events: seq<Event>, i: nat)
    requires IsRun(states, events) && i < |events| && DropsAt(states, events, i)
    ensures !Kept(states[i + 1])
  {
    LiveAlways(states, events, i);
    assert StepAt(states, events, i);
    DropLoses(states[i], events[i].t, events[i].a, states[i + 1]);
  }

  /** Over every run without torn builds: exactly when no rebuild of a draining slot fails or aborts. */
  lemma ConservedUntorn(states: seq<State>, events: seq<Event>)
    requires IsRun(states, events) && Untorn(events)
    ensures (forall k :: 0 <= k < |states| ==> Conserved(states[k])) <==>
              forall i :: 0 <= i < |events| ==> !FailsDrained(states[i], events[i].t, events[i].a)
  {
    ConservedExactly(states, events);
    forall i | 0 <= i < |events| ensures DropsAt(states, events, i) <==> FailsDrained(states[i], events[i].t, events[i].a) {
      InvAlways(states, events, i);
      assert StepAt(states, events, i);
      UntornDrops(states[i], events[i].t, events[i].a);
    }
  }
}
