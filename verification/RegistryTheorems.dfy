/** What the registry promises over every run of the protocol. */
module RegistryTheorems {
  import opened Wrappers
  import opened ModelStates
  import opened ModelLifecycle
  import opened RegistryRegions
  import opened RegistryProtocol

  datatype Event = Event(t: Tid, a: Action)

  /** A run: states linked by steps of any threads in any order, from the empty registry. */
  ghost predicate IsRun(states: seq<State>, events: seq<Event>) {
    && |states| == |events| + 1
    && states[0] == INIT
    && forall i :: 0 <= i < |events| ==> StepAt(states, events, i)
  }

  ghost predicate StepAt(states: seq<State>, events: seq<Event>, i: nat)
    requires i < |events| && |states| == |events| + 1
  {
    && Enabled(states[i], events[i].t, events[i].a)
    && states[i + 1] == Next(states[i], events[i].t, events[i].a)
  }

  /** No build of the run had `publishSnapshot` throw in the middle of its final swap. */
  predicate Untorn(events: seq<Event>) {
    forall i :: 0 <= i < |events| ==> !Tears(events[i].a)
  }

  lemma {:induction false} InvAlways(states: seq<State>, events: seq<Event>, k: nat)
    requires IsRun(states, events) && Untorn(events) && k < |states|
    ensures Inv(states[k])
    decreases k
  {
    if k > 0 {
      InvAlways(states, events, k - 1);
      assert StepAt(states, events, k - 1);
      InvStep(states[k - 1], events[k - 1].t, events[k - 1].a);
    }
  }

  predicate Steps(s: State, e: Event, s': State) {
    Enabled(s, e.t, e.a) && s' == Next(s, e.t, e.a)
  }

  /** What holds of the empty registry and is kept by every step holds throughout every run. */
  lemma {:induction false} RunInduction(states: seq<State>, events: seq<Event>, P: State -> bool, k: nat)
    requires IsRun(states, events) && k < |states| && P(INIT)
    requires forall s, e, s' :: Steps(s, e, s') && P(s) ==> P(s')
    ensures P(states[k])
    decreases k
  {
    if k > 0 {
      RunInduction(states, events, P, k - 1);
      assert StepAt(states, events, k - 1);
      assert Steps(states[k - 1], events[k - 1], states[k]);
    }
  }

  ghost predicate BuildsSlot(s: State, t: Tid, n: Name) {
    Loads(At(s, t), n) || Rebuilds(At(s, t), n)
  }

  // ----------------------------------------------------- serving is never lost

  /** The event drains slot `n`, alone or as part of an unload. */
  predicate DrainsSlot(s: State, e: Event, n: Name) {
    (e.a.UnloadDrain? || e.a.StartDrain?) && Target(s, e.t, e.a) == Some(n)
  }

  predicate Serves(s: State, n: Name) {
    n in s.reg.models && s.reg.models[n].handle.state.Ready?
  }

  // -------------------------------------------------------------- retirement

  /** Thread `t` has still to retire scheduler `x`, or it is in the retire queue. */
  predicate Retires(s: State, t: Tid, x: SchedulerId) {
    MustRetire(At(s, t), x) || x in s.reg.retired
  }

  lemma RetiresStep(s: State, e: Event, t: Tid, x: SchedulerId)
    requires Enabled(s, e.t, e.a) && Retires(s, t, x)
    ensures Retires(Next(s, e.t, e.a), t, x)
  {
    if x in s.reg.retired {
      QueueKept(s, e);
    } else if e.t == t {
      assert e.a.Notify? || e.a.RetireOld?;
    } else {
      OthersStay(s, e, t);
    }
  }

  predicate IsLoadAction(a: Action) {
    a.StartLoad? || a.EndLoadBuild? || a.FinishLoad? || a.AbortLoad? || a.TearLoad? || a.TornGuard?
  }

  lemma LoadersStay(s: State, e: Event, t: Tid)
    requires Enabled(s, e.t, e.a) && e.t != t && IsLoadAction(e.a)
    ensures At(Next(s, e.t, e.a), t) == At(s, t)
  {
  }

  lemma ReloadersStay(s: State, e: Event, t: Tid)
    requires Enabled(s, e.t, e.a) && e.t != t && (IsReloadAction(e.a) || e.a.TearRebuild?)
    ensures At(Next(s, e.t, e.a), t) == At(s, t) || At(Next(s, e.t, e.a), t) == Wakened(At(s, t))
  {
  }

  lemma OthersStay(s: State, e: Event, t: Tid)
    requires Enabled(s, e.t, e.a) && e.t != t
    ensures At(Next(s, e.t, e.a), t) == At(s, t) || At(Next(s, e.t, e.a), t) == Wakened(At(s, t))
  {
    if IsLoadAction(e.a) {
      LoadersStay(s, e, t);
    } else if IsReloadAction(e.a) || e.a.TearRebuild? {
      ReloadersStay(s, e, t);
    }
  }

  lemma QueueKept(s: State, e: Event)
    requires Enabled(s, e.t, e.a)
    ensures forall x :: x in s.reg.retired ==> x in Next(s, e.t, e.a).reg.retired
  {
  }

  /** A rebuild that wins hands the replaced scheduler to its own thread, which does not forget it: it stays due until it is in the retire queue. */
  lemma {:induction false} ReplacedIsRetired(states: seq<State>, events: seq<Event>, i: nat, j: nat, n: Name)
    requires IsRun(states, events) && i < j < |states| && events[i].a.FinishRebuild?
    requires var pc := At(states[i], events[i].t); pc.Rebuilt? && pc.n == n && pc.next.state.Ready? && n in states[i].reg.models
    requires SchedulerOf(FindHandle(states[i].reg, n)).Some?
    ensures Retires(states[j], events[i].t, SchedulerOf(FindHandle(states[i].reg, n)).value)
    decreases j
  {
    if j == i + 1 {
      assert StepAt(states, events, i);
    } else {
      ReplacedIsRetired(states, events, i, j - 1, n);
      assert StepAt(states, events, j - 1);
      RetiresStep(states[j - 1], events[j - 1], events[i].t, SchedulerOf(FindHandle(states[i].reg, n)).value);
    }
  }

  /** Where no rebuild is pending, request threads see the handle. */
  predicate Mirrors(s: State, n: Name) {
    n in s.reg.models && !s.reg.models[n].reloadPending ==> FindHandle(s.reg, n) == Some(FromHandle(s.reg.models[n].handle))
  }

  /** A swap throws before publishing, and the snapshot published until then is not that of the handle it leaves behind. */
  predicate Hides(s: State, e: Event) {
    var pc := At(s, e.t);
    || (e.a.TearLoad? && pc.Built? && pc.config.modelName in s.reg.models && !s.reg.models[pc.config.modelName].reloadPending
        && s.reg.models[pc.config.modelName].active != Some(FromHandle(pc.built)))
    || (e.a.TearRebuild? && pc.Rebuilt? && pc.n in s.reg.models
        && s.reg.models[pc.n].active != Some(FromHandle(FinishReloadSpec(s.reg.models[pc.n].handle, pc.next).1)))
  }

  lemma LoadMirrors(s: State, e: Event, n: Name)
    requires Enabled(s, e.t, e.a) && Mirrors(s, n) && !Hides(s, e) && IsLoadAction(e.a)
    ensures Mirrors(Next(s, e.t, e.a), n)
  {
  }

  lemma ReloadMirrors(s: State, e: Event, n: Name)
    requires Enabled(s, e.t, e.a) && Mirrors(s, n) && !Hides(s, e) && (IsReloadAction(e.a) || e.a.TearRebuild?)
    ensures Mirrors(Next(s, e.t, e.a), n)
  {
  }

  lemma MirrorsStep(s: State, e: Event, n: Name)
    requires Enabled(s, e.t, e.a) && Mirrors(s, n) && !Hides(s, e)
    ensures Mirrors(Next(s, e.t, e.a), n)
  {
    if IsLoadAction(e.a) {
      LoadMirrors(s, e, n);
    } else if IsReloadAction(e.a) || e.a.TearRebuild? {
      ReloadMirrors(s, e, n);
    }
  }

  lemma {:induction false} MirrorsUntil(states: seq<State>, events: seq<Event>, k: nat, n: Name)
    requires IsRun(states, events) && k < |states| && forall i :: 0 <= i < k ==> !Hides(states[i], events[i])
    ensures Mirrors(states[k], n)
    decreases k
  {
    if k > 0 {
      MirrorsUntil(states, events, k - 1, n);
      assert StepAt(states, events, k - 1);
      MirrorsStep(states[k - 1], events[k - 1], n);
    }
  }

  lemma HidesUnmirrored(s: State, e: Event)
    requires Enabled(s, e.t, e.a) && Hides(s, e)
    ensures Target(s, e.t, e.a).Some? && !Mirrors(Next(s, e.t, e.a), Target(s, e.t, e.a).value)
  {
  }

  /** Over every run: the published snapshot mirrors the handle, for every name and throughout, exactly when no torn swap hides one. */
  lemma PublishedMirrorsHandle(states: seq<State>, events: seq<Event>)
    requires IsRun(states, events)
    ensures (forall k, n :: 0 <= k < |states| ==> Mirrors(states[k], n)) <==> forall i :: 0 <= i < |events| ==> !Hides(states[i], events[i])
  {
    if forall i :: 0 <= i < |events| ==> !Hides(states[i], events[i]) {
      forall k, n | 0 <= k < |states| ensures Mirrors(states[k], n) {
        MirrorsUntil(states, events, k, n);
      }
    } else {
      var i :| 0 <= i < |events| && Hides(states[i], events[i]);
      assert StepAt(states, events, i);
      HidesUnmirrored(states[i], events[i]);
      assert !Mirrors(states[i + 1], Target(states[i], events[i].t, events[i].a).value);
    }
  }
}
