/** What the registry's operations report, when, and what has then become of the slot; and what a lookup by version finds. */
module RegistryResults {
  import opened Wrappers
  import opened ModelStates
  import opened ModelLifecycle
  import opened RegistryRegions
  import opened RegistryProtocol
  import opened RegistryTheorems
  import opened RegistryExclusion
  import opened RegistryOwnership
  import opened RegistryServing

  predicate SameElsewhere(s: State, s': State, n: Name) {
    && s'.reg.models.Keys - {n} == s.reg.models.Keys - {n}
    && forall m :: m in s.reg.models && m != n ==> m in s'.reg.models && s'.reg.models[m] == s.reg.models[m]
  }

  predicate UnderBuild(s: State, n: Name) {
    n in s.reg.models && (s.reg.models[n].reloadPending || s.reg.models[n].handle.state.Loading?)
  }

  /** A failed load left the slot without a scheduler to drain. */
  predicate NothingToDrain(s: State, n: Name) {
    n in s.reg.models && !s.reg.models[n].reloadPending && s.reg.models[n].handle.state.Failed? && s.reg.models[n].handle.scheduler.None?
  }

  // -------------------------------------------------------------------- loads

  /** A load builds exactly where there is no slot, after reserving one that reads as Loading; it joins a first build and refuses any other slot. */
  lemma LoadDecides(s: State, t: Tid, config: Config, s': State)
    requires Enabled(s, t, StartLoad(config)) && s' == Next(s, t, StartLoad(config))
    ensures var n := config.modelName;
      && SameElsewhere(s, s', n) && s'.reg.stopped == s.reg.stopped && s'.reg.retired == s.reg.retired && s'.born == s.born
      && (At(s', t) == Building(config) <==> n !in s.reg.models)
      && (n !in s.reg.models ==>
            && n in s'.reg.models && s'.reg.models[n].config == config && !s'.reg.models[n].reloadPending
            && s'.reg.models[n].handle.state.Loading? && s'.reg.models[n].handle.scheduler.None? && s'.reg.models[n].versionSnapshots == map[]
            && s'.reg.models[n].active == Some(Snapshot(n, [], Loading, Metadata("", [], ""), None, None)))
      && (n in s.reg.models ==>
            && s'.reg == s.reg
            && At(s', t) == if s.reg.models[n].handle.state.Loading? then Joining(n, false) else Idle(Some(false)))
  {
  }

  /** Where no guard has collided, a load that ends finds its slot, installs and publishes its result, and reports success, whatever the build came to. */
  lemma LoadEnds(states: seq<State>, events: seq<Event>, i: nat)
    requires IsRun(states, events) && i < |events| && events[i].a.FinishLoad? && forall j :: 0 <= j < i ==> !CollidesAt(states, events, j)
    ensures var s, s', t := states[i], states[i + 1], events[i].t;
      && At(s, t).Built?
      && var config, built := At(s, t).config, At(s, t).built; var n := config.modelName;
      && n in s'.reg.models && At(s', t) == Notifying(None, Some(true)) && SameElsewhere(s, s', n)
      && s'.reg.models[n].handle == built && s'.reg.models[n].config == config
      && s'.reg.models[n].active == Some(Snapshot(built.name, built.versions, built.state, built.metadata, built.scheduler, built.loadError))
  {
    ExclusiveUntil(states, events, i);
    assert StepAt(states, events, i) && ThreadHolds(states[i], events[i].t);
  }

  /** A swap that finds no slot changes nothing in the registry and reports failure. */
  lemma LostSlot(s: State, t: Tid, a: Action, s': State)
    requires Enabled(s, t, a) && s' == Next(s, t, a) && (a.FinishLoad? || a.FinishRebuild?)
    requires Target(s, t, a).Some? && Target(s, t, a).value !in s.reg.models
    ensures s'.reg == s.reg && At(s', t) == Notifying(None, Some(false))
  {
  }

  /** The version a build is asked for: that of a switch, or one the configuration names explicitly. */
  function AskedVersion(pc: Pc): Option<Version>
    requires pc.Building? || pc.Rebuilding?
  {
    if pc.Rebuilding? && pc.op.Switch? then Some(pc.op.version)
    else
      var config := if pc.Building? then pc.config else pc.op.config;
      if config.versionExplicit && config.modelVersion != "" then Some(config.modelVersion) else None
  }

  /** How a build can end: Ready on a new scheduler under the version asked for, if one was, or Failed without a scheduler but with an error. */
  lemma BuildEndsAs(s: State, t: Tid, id: SchedulerId, built: Handle)
    requires At(s, t).Building? || At(s, t).Rebuilding?
    ensures Enabled(s, t, if At(s, t).Building? then EndLoadBuild(id, built) else EndRebuild(id, built)) <==>
      && id !in s.born && built.versions == built.metadata.versions
      && (|| (built.state.Ready? && built.scheduler == Some(id) && built.loadError.None?
              && (AskedVersion(At(s, t)).Some? ==> built.versions == [AskedVersion(At(s, t)).value]))
          || (built.state.Failed? && built.scheduler.None? && built.loadError.Some?))
  {
  }

  /** A thread that joined a build reports, once it has settled, whether the model is Ready on a scheduler that accepts work. */
  lemma JoinReports(s: State, t: Tid, s': State)
    requires Enabled(s, t, Wake) && At(s, t).Joining? && s' == Next(s, t, Wake)
    ensures var n := At(s, t).n; var settled := !(n in s.reg.models && s.reg.models[n].handle.state.Loading?);
      && s'.reg == s.reg && (At(s', t).Idle? <==> settled)
      && (settled ==> At(s', t) == Idle(Some(
            && n in s.reg.models && s.reg.models[n].handle.state.Ready?
            && s.reg.models[n].handle.scheduler.Some? && s.reg.models[n].handle.scheduler.value !in s.reg.stopped)))
      && (!settled ==> At(s', t) == Joining(n, false))
  {
  }

  // ------------------------------------------------------------------ rebuilds

  /** The version asked for is the one published, and it accepts work. */
  predicate AlreadyActive(s: State, n: Name, op: Rebuild) {
    && op.Switch? && n in s.reg.models && s.reg.models[n].active.Some?
    && var shown := s.reg.models[n].active.value;
    && op.version == (if shown.metadata.versions != [] then shown.metadata.versions[0] else if shown.versions != [] then shown.versions[0] else "")
    && shown.state.Ready? && shown.scheduler.Some? && shown.scheduler.value !in s.reg.stopped
  }

  /**
   * A reload or switch of a known slot is never refused: it reports success at once if the version is already active, waits for
   * another rebuild, joins a first build, or sets out itself. Until then nothing changes.
   */
  lemma ReloadDecides(s: State, t: Tid, s': State)
    requires Enabled(s, t, Enter) && s' == Next(s, t, Enter)
    ensures var n, op := At(s, t).n, At(s, t).op;
      && At(s', t) == (if n !in s.reg.models then Idle(Some(false))
                       else if AlreadyActive(s, n, op) then Idle(Some(true))
                       else if s.reg.models[n].reloadPending then Parked(n, op, false)
                       else if s.reg.models[n].handle.state.Loading? then Joining(n, false)
                       else Rebuilding(n, op))
      && (!At(s', t).Rebuilding? ==> s'.reg == s.reg)
  {
  }

  /** Setting out to rebuild marks the slot. A Ready model is left as it is; a draining one lets go of its scheduler, which is stopped. */
  lemma RebuildSetsOut(s: State, t: Tid, s': State)
    requires Enabled(s, t, Enter) && s' == Next(s, t, Enter) && At(s', t).Rebuilding?
    ensures var n := At(s, t).n;
      && n in s.reg.models && n in s'.reg.models && SameElsewhere(s, s', n) && s'.reg.retired == s.reg.retired
      && var before, after := s.reg.models[n], s'.reg.models[n];
      && after == before.(reloadPending := true, handle := after.handle)
      && (if before.handle.state.Unloading? then
            && after.handle.scheduler.None? && after.handle.state.Unloaded?
            && s'.reg.stopped == s.reg.stopped + (if before.handle.scheduler.Some? then {before.handle.scheduler.value} else {})
          else
            && s'.reg.stopped == s.reg.stopped
            && after.handle == before.handle.(state := if before.handle.state.Ready? then Ready else Unloaded))
  {
  }

  /**
   * Where no guard has collided, a rebuild reports success exactly when its build was Ready. Then the slot is Ready on the new
   * scheduler with the rebuild's configuration, and that is published; else it keeps its scheduler and configuration, and a Ready model stays Ready.
   */
  lemma RebuildEnds(states: seq<State>, events: seq<Event>, i: nat)
    requires IsRun(states, events) && i < |events| && events[i].a.FinishRebuild? && forall j :: 0 <= j < i ==> !CollidesAt(states, events, j)
    ensures var s, s', t := states[i], states[i + 1], events[i].t;
      && At(s, t).Rebuilt?
      && var n, op, next := At(s, t).n, At(s, t).op, At(s, t).next;
      && n in s.reg.models && n in s'.reg.models && SameElsewhere(s, s', n)
      && var before, after := s.reg.models[n], s'.reg.models[n];
      && At(s', t).Notifying? && At(s', t).result == Some(next.state.Ready?) && !after.reloadPending
      && At(s', t).retire == (if next.state.Ready? && before.active.Some? then before.active.value.scheduler else None)
      && after.active == Some(Snapshot(after.handle.name, after.handle.versions, after.handle.state, after.handle.metadata, after.handle.scheduler, after.handle.loadError))
      && (if next.state.Ready? then
            && after.handle == next.(loadError := None)
            && after.config == if op.Reload? then op.config else op.config.(modelName := n, modelVersion := op.version)
          else
            && after.handle.scheduler == before.handle.scheduler && after.config == before.config
            && after.handle.loadError == next.loadError && after.versionSnapshots == before.versionSnapshots
            && after.handle.state == if before.handle.state.Ready? then Ready else Failed)
  {
    ExclusiveUntil(states, events, i);
    LiveAlways(states, events, i);
    assert StepAt(states, events, i);
    var s, t := states[i], events[i].t;
    assert ThreadHolds(s, t) && ThreadLive(s, t) && SlotHeld(s, At(s, t).n);
  }

  /** A switch that succeeds stores the new version under its name, and the one published before under its own. */
  lemma SwitchStores(s: State, t: Tid, n: Name, version: Version, config: Config, next: Handle, s': State)
    requires At(s, t) == Rebuilt(n, Switch(version, config), next) && next.state.Ready? && n in s.reg.models && s' == Next(s, t, FinishRebuild)
    requires next.metadata.versions == [version] && version != ""
    ensures n in s'.reg.models
    ensures var before, after := s.reg.models[n], s'.reg.models[n];
      && version in after.versionSnapshots && Some(after.versionSnapshots[version]) == after.active
      && forall v :: v != version ==>
           (v in after.versionSnapshots <==> v in before.versionSnapshots || (v != "" && before.active.Some? && VersionOf(before.active) == v))
           && (v in after.versionSnapshots ==>
                 Some(after.versionSnapshots[v]) == if v != "" && before.active.Some? && VersionOf(before.active) == v then before.active else Some(before.versionSnapshots[v]))
  {
  }

  // ------------------------------------------------------------------- unloads

  /** The first region of an unload: which slots it erases, which it refuses, and which it goes on to drain. */
  lemma UnloadDecides(s: State, t: Tid, n: Name, s': State)
    requires Enabled(s, t, StartUnload(n)) && s' == Next(s, t, StartUnload(n))
    ensures SameElsewhere(s, s', n) && s'.reg.stopped == s.reg.stopped && s'.reg.retired == s.reg.retired
    ensures n in s.reg.models && n !in s'.reg.models <==> NothingToDrain(s, n)
    ensures n in s'.reg.models ==> n in s.reg.models && s'.reg.models[n] == s.reg.models[n]
    ensures At(s', t) == if NothingToDrain(s, n) then Idle(Some(true)) else if n !in s.reg.models || UnderBuild(s, n) then Idle(Some(false)) else Checked(n)
  {
  }

  /** A drain succeeds exactly where there is a scheduler and no rebuild; the scheduler is stopped, and a Ready model is Unloading for all to see. */
  lemma DrainDecides(s: State, t: Tid, n: Name, a: Action, s': State)
    requires Enabled(s, t, a) && s' == Next(s, t, a) && (a == StartDrain(n) || (a.UnloadDrain? && At(s, t).n == n))
    ensures SameElsewhere(s, s', n) && s'.reg.retired == s.reg.retired
    ensures var ok := n in s.reg.models && !s.reg.models[n].reloadPending && s.reg.models[n].handle.scheduler.Some?;
      && At(s', t) == (if !ok then Idle(Some(false)) else if a.StartDrain? then Idle(Some(true)) else Drained(n))
      && (!ok ==> s'.reg == s.reg)
      && (ok ==>
            && n in s'.reg.models && s'.reg.stopped == s.reg.stopped + {s.reg.models[n].handle.scheduler.value}
            && var slot, after := s.reg.models[n], s'.reg.models[n];
            && after == slot.(active := after.active, handle := slot.handle.(state := if slot.handle.state.Ready? then Unloading else slot.handle.state))
            && after.active.Some? && after.active.value.state == after.handle.state && after.active.value.scheduler == after.handle.scheduler)
  {
  }

  /** A completion succeeds exactly for an Unloading model: the slot goes, and its scheduler is stopped and in the retire queue. */
  lemma CompleteDecides(s: State, t: Tid, n: Name, a: Action, s': State)
    requires Enabled(s, t, a) && s' == Next(s, t, a) && (a == StartComplete(n) || (a.UnloadComplete? && At(s, t).n == n))
    ensures SameElsewhere(s, s', n)
    ensures var ok := n in s.reg.models && s.reg.models[n].handle.state.Unloading?;
      && At(s', t) == Idle(Some(ok))
      && (!ok ==> s'.reg == s.reg)
      && (ok ==>
            && n !in s'.reg.models
            && var x := s.reg.models[n].handle.scheduler;
               if x.Some? then s'.reg.retired == s.reg.retired + [x.value] && s'.reg.stopped == s.reg.stopped + {x.value}
               else s'.reg.retired == s.reg.retired && s'.reg.stopped == s.reg.stopped)
  {
  }

  /** A whole unload with nobody in between. */
  function UnloadAlone(s: State, t: Tid, n: Name): State
    requires Enabled(s, t, StartUnload(n))
  {
    var s1 := Next(s, t, StartUnload(n));
    if !At(s1, t).Checked? then s1
    else
      var s2 := Next(s1, t, UnloadDrain);
      if !At(s2, t).Drained? then s2 else Next(s2, t, UnloadComplete)
  }

  /**
   * A whole unload succeeds exactly for a settled slot that a failed load left without a scheduler, or that has one and is Ready or draining. Then
   * the name is free for a fresh load, and the scheduler, if any, is stopped and in the retire queue; else the slot is still there.
   */
  lemma UnloadSucceedsExactly(s: State, t: Tid, n: Name)
    requires At(s, t).Idle?
    ensures var e := UnloadAlone(s, t, n);
      var ok := n in s.reg.models && !UnderBuild(s, n) &&
        var h := s.reg.models[n].handle;
        if h.scheduler.None? then h.state.Failed? else h.state.Ready? || h.state.Unloading?;
      && At(e, t) == Idle(Some(ok)) && SameElsewhere(s, e, n)
      && (ok ==>
            && n !in e.reg.models
            && (forall config: Config :: config.modelName == n ==> At(Next(e, t, StartLoad(config)), t) == Building(config))
            && (s.reg.models[n].handle.scheduler.Some? ==>
                  var x := s.reg.models[n].handle.scheduler.value; x in e.reg.stopped && e.reg.retired == s.reg.retired + [x])
            && (s.reg.models[n].handle.scheduler.None? ==> e.reg.retired == s.reg.retired && e.reg.stopped == s.reg.stopped))
      && (!ok ==> e.reg.retired == s.reg.retired && (n in e.reg.models <==> n in s.reg.models))
  {
    var s1 := Next(s, t, StartUnload(n));
    UnloadDecides(s, t, n, s1);
    if At(s1, t).Checked? {
      assert s1.reg.models.Keys == s.reg.models.Keys && s1.reg.models[n] == s.reg.models[n];
      DrainThenComplete(s1, t, n, UnloadAlone(s, t, n));
    }
  }

  /** The second and third region of an unload with nobody in between. */
  lemma DrainThenComplete(s: State, t: Tid, n: Name, e: State)
    requires At(s, t) == Checked(n) && n in s.reg.models && !UnderBuild(s, n)
    requires var s2 := Next(s, t, UnloadDrain); e == if At(s2, t).Drained? then Next(s2, t, UnloadComplete) else s2
    ensures var h := s.reg.models[n].handle; var ok := h.scheduler.Some? && (h.state.Ready? || h.state.Unloading?);
      && At(e, t) == Idle(Some(ok)) && SameElsewhere(s, e, n)
      && (ok ==> n !in e.reg.models && h.scheduler.value in e.reg.stopped && e.reg.retired == s.reg.retired + [h.scheduler.value])
      && (!ok ==> n in e.reg.models && e.reg.retired == s.reg.retired)
  {
    var s2 := Next(s, t, UnloadDrain);
    DrainDecides(s, t, n, UnloadDrain, s2);
    if At(s2, t).Drained? {
      CompleteDecides(s2, t, n, UnloadComplete, e);
    }
  }

  // ------------------------------------------------------------------- lookups

  /** The versions a snapshot serves: those of the metadata, or of the handle where it lists none. */
  function Lists(shown: Snapshot): seq<Version> {
    if shown.metadata.versions == [] then shown.versions else shown.metadata.versions
  }

  /** Stored snapshots are stored under a version they serve. */
  predicate StoredUnderOwn(s: State, n: Name) {
    n in s.reg.models ==>
      forall v :: v in s.reg.models[n].versionSnapshots ==> v in Lists(s.reg.models[n].versionSnapshots[v])
  }

  lemma StoredStep(s: State, e: Event, s': State, n: Name)
    requires Live(s) && Steps(s, e, s') && StoredUnderOwn(s, n)
    ensures StoredUnderOwn(s', n)
  {
    if Touched(s, e.t, e.a) != Some(n) {
      UntouchedSame(s, e, s', n);
    } else if e.a.FinishRebuild? {
      StoredRebuild(s, e.t, s', n);
    } else if IsUnloadAction(e.a) {
      StoredUnload(s, e, s', n);
    } else {
      StoredOther(s, e, s', n);
    }
  }

  lemma StoredRebuild(s: State, t: Tid, s': State, n: Name)
    requires Enabled(s, t, FinishRebuild) && s' == Next(s, t, FinishRebuild) && At(s, t).n == n && StoredUnderOwn(s, n)
    ensures StoredUnderOwn(s', n)
  {
  }

  lemma StoredUnload(s: State, e: Event, s': State, n: Name)
    requires Steps(s, e, s') && IsUnloadAction(e.a) && Touched(s, e.t, e.a) == Some(n) && StoredUnderOwn(s, n)
    ensures StoredUnderOwn(s', n)
  {
  }

  lemma StoredOther(s: State, e: Event, s': State, n: Name)
    requires Steps(s, e, s') && !e.a.FinishRebuild? && !IsUnloadAction(e.a) && Touched(s, e.t, e.a) == Some(n) && StoredUnderOwn(s, n)
    ensures StoredUnderOwn(s', n)
  {
  }

  lemma {:induction false} StoredAlways(states: seq<State>, events: seq<Event>, k: nat, n: Name)
    requires IsRun(states, events) && k < |states|
    ensures StoredUnderOwn(states[k], n)
    decreases k
  {
    if k > 0 {
      StoredAlways(states, events, k - 1, n);
      LiveAlways(states, events, k - 1);
      assert StepAt(states, events, k - 1);
      StoredStep(states[k - 1], events[k - 1], states[k], n);
    }
  }

  /**
   * Over every run: a lookup by version finds something exactly for a stored version or one the published snapshot lists, a stored
   * one first; and what it finds serves that version. Every other version is not found.
   */
  lemma LookupFinds(states: seq<State>, events: seq<Event>, k: nat, n: Name, v: Version)
    requires IsRun(states, events) && k < |states|
    ensures var r := states[k].reg; var found := FindHandleVersion(r, n, v);
      && (found.Some? <==> n in r.models && (v in r.models[n].versionSnapshots || (r.models[n].active.Some? && v in Lists(r.models[n].active.value))))
      && (found.Some? ==>
            && v in Lists(found.value)
            && found == if v in r.models[n].versionSnapshots then Some(r.models[n].versionSnapshots[v]) else r.models[n].active)
  {
    StoredAlways(states, events, k, n);
  }

  // ------------------------------------------------------- guards and waiting

  /**
   * What a guard undoes: a first build is marked Failed, a rebuild loses its mark and its slot keeps everything but the error, both for all
   * to see; any other slot, or none, is left alone. The thread goes on to wake the waiters, with nothing to report.
   */
  lemma GuardUndoes(s: State, t: Tid, a: Action, s': State)
    requires Enabled(s, t, a) && s' == Next(s, t, a) && (a.AbortLoad? || a.AbortRebuild? || a.TornGuard?)
    ensures Touched(s, t, a).Some? && At(s', t) == Notifying(None, None) && SameElsewhere(s, s', Touched(s, t, a).value)
    ensures var n := Touched(s, t, a).value;
      && (n in s'.reg.models <==> n in s.reg.models) && s'.reg.stopped == s.reg.stopped && s'.reg.retired == s.reg.retired
      && (!UnderBuild(s, n) ==> s'.reg == s.reg)
      && (UnderBuild(s, n) ==>
            var before, after := s.reg.models[n], s'.reg.models[n];
            && !after.reloadPending && after.config == before.config && after.versionSnapshots == before.versionSnapshots
            && after.handle == before.handle.(loadError := Some("executor build threw"),
                 state := if before.reloadPending then before.handle.state else Failed)
            && after.active == Some(FromHandle(after.handle)))
  {
  }

  /** A final swap that throws while publishing changes the handle as it would have, and leaves what is published as it was. */
  lemma TornSwaps(s: State, t: Tid, a: Action, s': State)
    requires Enabled(s, t, a) && s' == Next(s, t, a) && Tears(a)
    ensures Target(s, t, a).Some? && Target(s, t, a).value in s.reg.models && Target(s, t, a).value in s'.reg.models
    ensures var n := Target(s, t, a).value; var before, after := s.reg.models[n], s'.reg.models[n];
      && SameElsewhere(s, s', n) && s'.reg.stopped == s.reg.stopped && s'.reg.retired == s.reg.retired
      && after.active == before.active && after.versionSnapshots == before.versionSnapshots
      && (a.TearLoad? ==>
            && At(s', t) == Torn(n) && after.handle == At(s, t).built && after.config == At(s, t).config && after.reloadPending == before.reloadPending)
      && (a.TearRebuild? ==>
            && At(s', t) == Idle(None) && !after.reloadPending
            && (if At(s, t).next.state.Ready? then
                  && after.handle == At(s, t).next.(loadError := None)
                  && after.config == if At(s, t).op.Reload? then At(s, t).op.config else At(s, t).op.config.(modelName := n, modelVersion := At(s, t).op.version)
                else
                  && after.config == before.config
                  && after.handle == before.handle.(loadError := At(s, t).next.loadError,
                       state := if before.handle.state.Unloaded? then Failed else before.handle.state)))
  {
  }

  /** A thread woken while it waits for a rebuild tries again once that has settled, and sleeps on until then. */
  lemma WaitEnds(s: State, t: Tid, s': State)
    requires Enabled(s, t, Wake) && At(s, t).Parked? && s' == Next(s, t, Wake)
    ensures var n := At(s, t).n;
      && s'.reg == s.reg
      && At(s', t) == if n in s.reg.models && s.reg.models[n].reloadPending then Parked(n, At(s, t).op, false) else Entering(n, At(s, t).op)
  {
  }

  /** A notification wakes every waiter of every name; the thread then retires what it owes, and reports. */
  lemma NotifyWakes(s: State, t: Tid, s': State)
    requires Enabled(s, t, Notify) && s' == Next(s, t, Notify)
    ensures s'.reg == s.reg
    ensures forall u :: u != t && (At(s, u).Joining? || At(s, u).Parked?) ==> At(s', u) == At(s, u).(woken := true)
    ensures forall u :: u != t && !(At(s, u).Joining? || At(s, u).Parked?) ==> At(s', u) == At(s, u)
    ensures At(s', t) == if At(s, t).retire.Some? then Retiring(At(s, t).retire.value, At(s, t).result) else Idle(At(s, t).result)
  {
  }

  /** A replaced scheduler goes to the end of the retire queue, and the operation reports; a queued one is stopped at any later time. */
  lemma RetireQueues(s: State, t: Tid, a: Action, s': State)
    requires Enabled(s, t, a) && s' == Next(s, t, a) && (a.RetireOld? || a.RetireTask?)
    ensures s'.reg.models == s.reg.models
    ensures a.RetireOld? ==>
      && s'.reg.retired == s.reg.retired + [At(s, t).due] && s'.reg.stopped == s.reg.stopped && At(s', t) == Idle(At(s, t).result)
    ensures a.RetireTask? ==> s'.reg.retired == s.reg.retired && s'.reg.stopped == s.reg.stopped + {a.s} && s'.threads == s.threads
  {
  }

  // ------------------------------------------------------------------ progress

  /** A thread can always go on, unless it sleeps and has not been woken. */
  lemma NeverStuck(s: State, t: Tid, id: SchedulerId)
    requires id !in s.born
    ensures (exists a :: Enabled(s, t, a)) <==> !((At(s, t).Joining? || At(s, t).Parked?) && !At(s, t).woken)
  {
    var pc := At(s, t);
    match pc {
      case Idle(_) => assert Enabled(s, t, StartDrain(""));
      case Building(_) => assert Enabled(s, t, AbortLoad);
      case Built(_, _) => assert Enabled(s, t, FinishLoad);
      case Joining(_, woken) => assert woken ==> Enabled(s, t, Wake);
      case Entering(_, _) => assert Enabled(s, t, Enter);
      case Parked(_, _, woken) => assert woken ==> Enabled(s, t, Wake);
      case Rebuilding(_, _) => assert Enabled(s, t, AbortRebuild);
      case Rebuilt(_, _, _) => assert Enabled(s, t, FinishRebuild);
      case Notifying(_, _) => assert Enabled(s, t, Notify);
      case Retiring(_, _) => assert Enabled(s, t, RetireOld);
      case Checked(_) => assert Enabled(s, t, UnloadDrain);
      case Drained(_) => assert Enabled(s, t, UnloadComplete);
      case Torn(_) => assert Enabled(s, t, TornGuard);
    }
  }

  /** Where an exception is allowed for, and that the retire queue may stop any of its schedulers at any time. */
  lemma ThrowsWhere(s: State, t: Tid, x: SchedulerId)
    ensures Enabled(s, t, AbortLoad) <==> At(s, t).Building? || At(s, t).Built?
    ensures Enabled(s, t, TearLoad) <==> At(s, t).Built? && At(s, t).config.modelName in s.reg.models
    ensures Enabled(s, t, AbortRebuild) <==> At(s, t).Rebuilding?
    ensures Enabled(s, t, TearRebuild) <==> At(s, t).Rebuilt? && At(s, t).n in s.reg.models
    ensures Enabled(s, t, RetireTask(x)) <==> At(s, t).Idle? && x in s.reg.retired
  {
  }
}
