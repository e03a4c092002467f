/**
 * The hot-reload protocol: any number of threads running the registry's operations, one step
 * per locked region. Builds run between regions with the lock released. A parked thread moves
 * only after a notification, so a lost wake-up would show as a thread asleep for ever.
 */
module RegistryProtocol {
  import opened Wrappers
  import opened ModelStates
  import opened ModelLifecycle
  import opened RegistryRegions

  type Tid = nat

  /** Where a thread is between two locked regions. */
  datatype Pc =
    | Idle(last: Option<bool>)                         // between operations; what the last one returned, if it did
    | Building(config: Config)                         // placeholder reserved, building
    | Built(config: Config, built: Handle)             // build done, not yet swapped in
    | Joining(n: Name, woken: bool)                    // asleep until a first build settles
    | Entering(n: Name, op: Rebuild)                   // at the top of the retry loop
    | Parked(n: Name, op: Rebuild, woken: bool)        // asleep until a rebuild settles
    | Rebuilding(n: Name, op: Rebuild)
    | Rebuilt(n: Name, op: Rebuild, next: Handle)
    | Notifying(retire: Option<SchedulerId>, result: Option<bool>)   // unlocked, about to notify all waiters
    | Retiring(due: SchedulerId, result: Option<bool>) // about to hand a scheduler to the retire queue
    | Checked(n: Name)                                 // unload passed its first region
    | Drained(n: Name)                                 // unload drained, about to complete
    | Torn(n: Name)                                    // a load's swap threw while publishing, guard about to run

  /** Who is responsible for a scheduler: the slot serving it, a thread, or one entry of the retire queue. */
  datatype Owner = InSlot(n: Name) | InThread(t: Tid) | InQueue(index: nat)

  /** History of one scheduler: the configuration it was built with, its last owner, and whether a slot ever held it. */
  datatype Birth = Birth(config: Config, owner: Owner, served: bool)

  /**
   * `born` and `builder` are history: what became of each scheduler, and which thread last set
   * out to build each slot. Steps write them and never read them, except that ids are fresh.
   */
  datatype State = State(
    reg: Reg, threads: map<Tid, Pc>, born: map<SchedulerId, Birth>, builder: map<Name, Tid>)

  datatype Action =
    | StartLoad(config: Config)
    | EndLoadBuild(id: SchedulerId, built: Handle)
    | FinishLoad
    | AbortLoad
    | TearLoad
    | TornGuard
    | StartReload(n: Name, op: Rebuild)
    | Enter
    | EndRebuild(id: SchedulerId, built: Handle)
    | FinishRebuild
    | AbortRebuild
    | TearRebuild
    | Wake
    | Notify
    | RetireOld
    | RetireTask(s: SchedulerId)
    | StartUnload(n: Name)
    | UnloadDrain
    | UnloadComplete
    | StartDrain(n: Name)
    | StartComplete(n: Name)

  const INIT := State(Reg(map[], {}, []), map[], map[], map[])

  function At(s: State, t: Tid): Pc {
    if t in s.threads then s.threads[t] else Idle(None)
  }

  function Goto(s: State, t: Tid, pc: Pc): State {
    s.(threads := s.threads[t := pc])
  }

  function Wakened(pc: Pc): Pc {
    if pc.Joining? || pc.Parked? then pc.(woken := true) else pc
  }

  /** A build by thread `t` ended; a Ready result brings a new scheduler into the world. */
  function Bear(s: State, t: Tid, id: SchedulerId, built: Handle, config: Config): State {
    if built.scheduler.Some? then s.(born := s.born[id := Birth(config, InThread(t), false)]) else s
  }

  /** Records that scheduler `x`, if there is one, passes to a new owner. */
  function Give(s: State, x: Option<SchedulerId>, owner: Owner): State {
    if x.Some? && x.value in s.born then s.(born := s.born[x.value := s.born[x.value].(owner := owner, served := s.born[x.value].served || owner.InSlot?)]) else s
  }

  predicate Enabled(s: State, t: Tid, a: Action) {
    var pc := At(s, t);
    match a
    case StartLoad(_) => pc.Idle?
    case EndLoadBuild(id, built) => pc.Building? && id !in s.born && IsBuildResult(built, id, LoadVersion(pc.config))
    case FinishLoad => pc.Built?
    case AbortLoad => pc.Building? || pc.Built?
    case TearLoad => pc.Built? && pc.config.modelName in s.reg.models
    case TornGuard => pc.Torn?
    case StartReload(_, _) => pc.Idle?
    case Enter => pc.Entering?
    case EndRebuild(id, built) => pc.Rebuilding? && id !in s.born && IsBuildResult(built, id, BuildVersion(pc.n, pc.op))
    case FinishRebuild => pc.Rebuilt?
    case AbortRebuild => pc.Rebuilding?
    case TearRebuild => pc.Rebuilt? && pc.n in s.reg.models
    case Wake => (pc.Joining? || pc.Parked?) && pc.woken
    case Notify => pc.Notifying?
    case RetireOld => pc.Retiring?
    case RetireTask(id) => pc.Idle? && id in s.reg.retired
    case StartUnload(_) => pc.Idle?
    case UnloadDrain => pc.Checked?
    case UnloadComplete => pc.Drained?
    case StartDrain(_) => pc.Idle?
    case StartComplete(_) => pc.Idle?
  }

  /** The final swap of a build throws while publishing. */
  predicate Tears(a: Action) {
    a.TearLoad? || a.TearRebuild?
  }

  // What each step does to the state.

  function LoadStarted(s: State, t: Tid, config: Config): State {
    var (e, reg) := LoadEnter(s.reg, config);
    match e
    case Build => Goto(s.(reg := reg, builder := s.builder[config.modelName := t]), t, Building(config))
    case JoinLoad => Goto(s.(reg := reg), t, Joining(config.modelName, false))
    case WaitReload => s
    case Return(result) => Goto(s.(reg := reg), t, Idle(Some(result)))
  }

  function LoadBuildEnded(s: State, t: Tid, config: Config, id: SchedulerId, built: Handle): State {
    Goto(Bear(s, t, id, built, config), t, Built(config, built))
  }

  function LoadFinished(s: State, t: Tid, config: Config, built: Handle): State {
    var installed := if config.modelName in s.reg.models then built.scheduler else None;
    Goto(Give(s, installed, InSlot(config.modelName)).(reg := LoadFinish(s.reg, config, built).1), t, Notifying(None, Some(LoadFinish(s.reg, config, built).0)))
  }

  function Aborted(s: State, t: Tid, n: Name): State {
    Goto(s.(reg := GuardAbort(s.reg, n)), t, Notifying(None, None))
  }

  /** The final swap of a load whose publication throws; the guard has still to run. */
  function LoadTorn(s: State, t: Tid, config: Config, built: Handle): State {
    Goto(Give(s, built.scheduler, InSlot(config.modelName)).(reg := LoadFinishUnpublished(s.reg, config, built)), t, Torn(config.modelName))
  }

  /** The scheduler a rebuild installs: that of a Ready result, if the slot is still there. */
  function Replacement(s: State, n: Name, next: Handle): Option<SchedulerId> {
    if n in s.reg.models && next.state.Ready? then next.scheduler else None
  }

  /** The final swap of a rebuild whose publication throws; its guard has been committed. */
  function RebuildTorn(s: State, t: Tid, n: Name, op: Rebuild, next: Handle): State {
    Goto(Give(s, Replacement(s, n, next), InSlot(n)).(reg := ReloadFinishUnpublished(s.reg, n, op, next)), t, Idle(None))
  }

  function Entered(s: State, t: Tid, n: Name, op: Rebuild): State {
    var (e, reg) := ReloadEnter(s.reg, n, op);
    match e
    case Return(result) => Goto(s.(reg := reg), t, Idle(Some(result)))
    case JoinLoad => Goto(s.(reg := reg), t, Joining(n, false))
    case WaitReload => Goto(s.(reg := reg), t, Parked(n, op, false))
    case Build => Goto(s.(reg := reg, builder := s.builder[n := t]), t, Rebuilding(n, op))
  }

  function RebuildEnded(s: State, t: Tid, n: Name, op: Rebuild, id: SchedulerId, built: Handle): State {
    Goto(Bear(s, t, id, built, BuildConfig(n, op)), t, Rebuilt(n, op, built))
  }

  function RebuildFinished(s: State, t: Tid, n: Name, op: Rebuild, next: Handle): State {
    var (out, reg) := ReloadFinish(s.reg, n, op, next);
    Goto(Give(Give(s, Replacement(s, n, next), InSlot(n)), out.retire, InThread(t)).(reg := reg), t, Notifying(out.retire, Some(out.result)))
  }

  function Woken(s: State, t: Tid): State
    requires At(s, t).Joining? || At(s, t).Parked?
  {
    var pc := At(s, t);
    if pc.Joining? then Goto(s, t, if LoadSettled(s.reg, pc.n) then Idle(Some(IsReady(s.reg, pc.n))) else Joining(pc.n, false))
    else Goto(s, t, if ReloadSettled(s.reg, pc.n) then Entering(pc.n, pc.op) else Parked(pc.n, pc.op, false))
  }

  function Notified(s: State, t: Tid, retire: Option<SchedulerId>, result: Option<bool>): State {
    Goto(s.(threads := map u | u in s.threads :: Wakened(s.threads[u])), t,
         if retire.Some? then Retiring(retire.value, result) else Idle(result))
  }

  function RetiredOld(s: State, t: Tid, due: SchedulerId, result: Option<bool>): State {
    Goto(Give(s, Some(due), InQueue(|s.reg.retired|)).(reg := Retire(s.reg, due)), t, Idle(result))
  }

  function Stop(s: State, id: SchedulerId): State {
    s.(reg := s.reg.(stopped := s.reg.stopped + {id}))
  }

  function UnloadStarted(s: State, t: Tid, n: Name): State {
    var (e, reg) := UnloadEnter(s.reg, n);
    Goto(s.(reg := reg), t, if e.Proceed? then Checked(n) else Idle(Some(e.result)))
  }

  function Drain(s: State, n: Name): State {
    s.(reg := DrainRegion(s.reg, n).1)
  }

  function Complete(s: State, n: Name): State {
    var (ok, reg) := CompleteUnloadRegion(s.reg, n);
    if ok then Give(s, s.reg.models[n].handle.scheduler, InQueue(|s.reg.retired|)).(reg := reg) else s
  }

  function Completed(s: State, t: Tid, n: Name): State {
    Goto(Complete(s, n), t, Idle(Some(CompleteUnloadRegion(s.reg, n).0)))
  }

  function Next(s: State, t: Tid, a: Action): State
    requires Enabled(s, t, a)
  {
    var pc := At(s, t);
    match a
    case StartLoad(config) => LoadStarted(s, t, config)
    case EndLoadBuild(id, built) => LoadBuildEnded(s, t, pc.config, id, built)
    case FinishLoad => LoadFinished(s, t, pc.config, pc.built)
    case AbortLoad => Aborted(s, t, pc.config.modelName)
    case TearLoad => LoadTorn(s, t, pc.config, pc.built)
    case TornGuard => Aborted(s, t, pc.n)
    case StartReload(n, op) => Goto(s, t, Entering(n, op))
    case Enter => Entered(s, t, pc.n, pc.op)
    case EndRebuild(id, built) => RebuildEnded(s, t, pc.n, pc.op, id, built)
    case FinishRebuild => RebuildFinished(s, t, pc.n, pc.op, pc.next)
    case AbortRebuild => Aborted(s, t, pc.n)
    case TearRebuild => RebuildTorn(s, t, pc.n, pc.op, pc.next)
    case Wake => Woken(s, t)
    case Notify => Notified(s, t, pc.retire, pc.result)
    case RetireOld => RetiredOld(s, t, pc.due, pc.result)
    case RetireTask(id) => Stop(s, id)
    case StartUnload(n) => UnloadStarted(s, t, n)
    case UnloadDrain => Goto(Drain(s, pc.n), t, if DrainRegion(s.reg, pc.n).0 then Drained(pc.n) else Idle(Some(false)))
    case UnloadComplete => Completed(s, t, pc.n)
    case StartDrain(n) => Goto(Drain(s, n), t, Idle(Some(DrainRegion(s.reg, n).0)))
    case StartComplete(n) => Completed(s, t, n)
  }

  // --------------------------------------------------------------- invariant

  predicate Loads(pc: Pc, n: Name) {
    (pc.Building? || pc.Built?) && pc.config.modelName == n
  }

  predicate Rebuilds(pc: Pc, n: Name) {
    (pc.Rebuilding? || pc.Rebuilt?) && pc.n == n
  }

  predicate HandleOk(h: Handle) {
    && h.versions == h.metadata.versions
    && !h.state.Unavailable?
    && (h.scheduler.Some? <==> h.state.Ready? || h.state.Unloading?)
  }

  predicate BelongsTo(s: State, x: Option<SchedulerId>, owner: Owner) {
    x.Some? ==> x.value in s.born && s.born[x.value].owner == owner
  }

  /** A build result not yet swapped in: Ready on a scheduler nobody stopped, or Failed. */
  predicate BuiltOk(s: State, h: Handle, config: Config, version: Option<Version>) {
    && HandleOk(h)
    && (h.state.Ready? || h.state.Failed?)
    && (h.state.Ready? ==>
          && h.scheduler.value in s.born && s.born[h.scheduler.value].config == config && !s.born[h.scheduler.value].served
          && h.scheduler.value !in s.reg.stopped
          && (version.Some? ==> h.versions == [version.value]))
  }

  /** The thread has still to hand scheduler `x` to the retire queue. */
  predicate MustRetire(pc: Pc, x: SchedulerId) {
    (pc.Notifying? && pc.retire == Some(x)) || (pc.Retiring? && pc.due == x)
  }

  /** The scheduler a thread is responsible for: one it built, or one it still has to retire. */
  function Carried(pc: Pc): Option<SchedulerId> {
    match pc
    case Built(_, built) => built.scheduler
    case Rebuilt(_, _, next) => next.scheduler
    case Notifying(retire, _) => retire
    case Retiring(due, _) => Some(due)
    case _ => None
  }

  predicate ThreadOk(s: State, t: Tid) {
    var pc := At(s, t);
    && !pc.Torn?
    && BelongsTo(s, Carried(pc), InThread(t))
    && (pc.Building? || pc.Built? ==>
          var n := pc.config.modelName;
          && n in s.reg.models && s.reg.models[n].handle.state.Loading?
          && n in s.builder && s.builder[n] == t)
    && (pc.Rebuilding? || pc.Rebuilt? ==>
          && pc.n in s.reg.models && s.reg.models[pc.n].reloadPending
          && pc.n in s.builder && s.builder[pc.n] == t)
    && (pc.Built? ==> BuiltOk(s, pc.built, pc.config, LoadVersion(pc.config)))
    && (pc.Rebuilt? ==> BuiltOk(s, pc.next, BuildConfig(pc.n, pc.op), BuildVersion(pc.n, pc.op)))
  }

  predicate SlotOk(s: State, n: Name) {
    n in s.reg.models ==>
      var slot := s.reg.models[n];
      var h := slot.handle;
      && HandleOk(h)
      && slot.active.Some?
      && BelongsTo(s, slot.active.value.scheduler, InSlot(n))
      && (slot.active.value.scheduler.Some? ==> s.born[slot.active.value.scheduler.value].served)
      && (slot.reloadPending ==> h.state.Ready? || h.state.Unloaded?)
      && (!slot.reloadPending || h.state.Ready? ==> slot.active.value == FromHandle(h))
      && (slot.reloadPending && h.state.Unloaded? ==> !slot.active.value.state.Ready?)
      && (h.scheduler.Some? ==> h.scheduler.value in s.born && s.born[h.scheduler.value].config == slot.config)
      && (h.state.Ready? ==> h.scheduler.value !in s.reg.stopped)
      && (h.state.Loading? ==> n in s.builder && Loads(At(s, s.builder[n]), n))
      && (slot.reloadPending ==> n in s.builder && Rebuilds(At(s, s.builder[n]), n))
      && (forall v :: v in slot.versionSnapshots && slot.versionSnapshots[v].scheduler.Some? ==>
            slot.versionSnapshots[v].scheduler.value in s.born && s.born[slot.versionSnapshots[v].scheduler.value].served)
      && (h.state.Loading? ==> slot.versionSnapshots == map[])
  }

  predicate QueueOk(s: State, i: nat) {
    i < |s.reg.retired| ==> BelongsTo(s, Some(s.reg.retired[i]), InQueue(i))
  }

  ghost predicate Inv(s: State) {
    && (forall t :: ThreadOk(s, t))
    && (forall n :: SlotOk(s, n))
    && (forall i :: QueueOk(s, i))
    && s.reg.stopped <= s.born.Keys
  }

  // ------------------------------------------------- every step keeps it
  //
  // A step moves one thread `t` and changes at most one slot `n`. What it leaves alone is
  // stated once, in `Local`; two frame lemmas carry the invariant of every other thread and
  // slot across, and one lemma per step looks at `t` and `n` only.

  predicate SlotUntouched(s: State, s': State, m: Name) {
    && (m in s.reg.models <==> m in s'.reg.models)
    && (m in s.reg.models ==> s'.reg.models[m] == s.reg.models[m])
    && (m in s.builder ==> m in s'.builder && s'.builder[m] == s.builder[m])
  }

  /** Another thread's build of a slot is not disturbed. */
  predicate BuildUntouched(s: State, s': State, t: Tid, n: Name) {
    (n in s.reg.models && n in s.builder && s.builder[n] != t
     && (s.reg.models[n].handle.state.Loading? || s.reg.models[n].reloadPending))
    ==> SlotUntouched(s, s', n)
  }

  /** A scheduler keeps its birth config, and its owner unless that was `t` or the slot `n`. It is stopped only from there or from the queue. */
  predicate SchedulerUntouched(s: State, s': State, t: Tid, n: Option<Name>, x: SchedulerId) {
    x in s.born ==>
      && x in s'.born && s'.born[x].config == s.born[x].config
      && (s.born[x].served ==> s'.born[x].served)
      && (s'.born[x].served ==> s.born[x].served || s.born[x].owner == InThread(t))
      && (s'.born[x].owner == s.born[x].owner || s.born[x].owner == InThread(t) || (n.Some? && s.born[x].owner == InSlot(n.value)))
      && (x in s'.reg.stopped ==>
            x in s.reg.stopped || s.born[x].owner.InQueue? || (n.Some? && s.born[x].owner == InSlot(n.value)))
  }

  ghost predicate Local(s: State, s': State, t: Tid, n: Option<Name>) {
    && (forall u :: u != t ==> At(s', u) == At(s, u) || At(s', u) == Wakened(At(s, u)))
    && (forall m :: Some(m) != n ==> SlotUntouched(s, s', m))
    && (n.Some? ==> BuildUntouched(s, s', t, n.value))
    && (forall m :: Loads(At(s, t), m) || Rebuilds(At(s, t), m) ==> n == Some(m))
    && (forall x :: SchedulerUntouched(s, s', t, n, x))
  }

  lemma ThreadFrame(s: State, s': State, t: Tid, n: Option<Name>, u: Tid)
    requires Local(s, s', t, n) && ThreadOk(s, u) && u != t
    ensures ThreadOk(s', u)
  {
    var pc := At(s, u);
    assert Carried(At(s', u)) == Carried(pc);
    if Carried(pc).Some? {
      assert SchedulerUntouched(s, s', t, n, Carried(pc).value);
    }
    if pc.Building? || pc.Built? {
      assert Some(pc.config.modelName) != n ==> SlotUntouched(s, s', pc.config.modelName);
    }
    if pc.Rebuilding? || pc.Rebuilt? {
      assert Some(pc.n) != n ==> SlotUntouched(s, s', pc.n);
    }
  }

  lemma SlotFrame(s: State, s': State, t: Tid, n: Option<Name>, m: Name)
    requires Local(s, s', t, n) && SlotOk(s, m) && Some(m) != n
    ensures SlotOk(s', m)
  {
    assert SlotUntouched(s, s', m);
    if m in s.reg.models {
      var slot := s.reg.models[m];
      if slot.active.value.scheduler.Some? {
        assert SchedulerUntouched(s, s', t, n, slot.active.value.scheduler.value);
      }
      forall v | v in slot.versionSnapshots && slot.versionSnapshots[v].scheduler.Some?
        ensures slot.versionSnapshots[v].scheduler.value in s'.born && s'.born[slot.versionSnapshots[v].scheduler.value].served
      {
        assert SchedulerUntouched(s, s', t, n, slot.versionSnapshots[v].scheduler.value);
      }
      if m in s.builder {
        assert At(s', s.builder[m]) == At(s, s.builder[m]) || At(s', s.builder[m]) == Wakened(At(s, s.builder[m])) || s.builder[m] == t;
      }
    }
  }

  /** The retire queue gains at most one entry, whose scheduler now belongs to it. */
  predicate QueueGrows(s: State, s': State) {
    && |s.reg.retired| <= |s'.reg.retired| <= |s.reg.retired| + 1
    && s'.reg.retired[..|s.reg.retired|] == s.reg.retired
    && QueueOk(s', |s.reg.retired|)
  }

  ghost predicate Keeps(s: State, s': State, t: Tid, n: Option<Name>) {
    && Local(s, s', t, n)
    && QueueGrows(s, s')
    && s'.reg.stopped <= s'.born.Keys
    && ThreadOk(s', t)
    && (n.Some? ==> SlotOk(s', n.value))
  }

  predicate Quiet(pc: Pc) {
    pc.Idle? || pc.Joining? || pc.Entering? || pc.Parked? || pc.Checked? || pc.Drained?
  }

  lemma MovedKeeps(s: State, t: Tid, pc: Pc, n: Option<Name>)
    requires Quiet(At(s, t)) && Quiet(pc)
    requires ThreadOk(s, t) && (n.Some? ==> SlotOk(s, n.value)) && s.reg.stopped <= s.born.Keys
    ensures Keeps(s, Goto(s, t, pc), t, n)
  {
    var s' := Goto(s, t, pc);
    MovedLocal(s, t, pc, n, s');
    if n.Some? {
      MovedSlot(s, t, pc, n.value, s');
    }
  }

  lemma MovedLocal(s: State, t: Tid, pc: Pc, n: Option<Name>, s': State)
    requires Quiet(At(s, t)) && Quiet(pc) && s' == Goto(s, t, pc)
    ensures Local(s, s', t, n) && QueueGrows(s, s') && ThreadOk(s', t)
  {
  }

  lemma MovedSlot(s: State, t: Tid, pc: Pc, n: Name, s': State)
    requires Quiet(At(s, t)) && Quiet(pc) && s' == Goto(s, t, pc) && SlotOk(s, n)
    ensures SlotOk(s', n)
  {
  }

  lemma LoadStartedKeeps(s: State, t: Tid, config: Config)
    requires At(s, t).Idle?
    requires ThreadOk(s, t) && SlotOk(s, config.modelName) && s.reg.stopped <= s.born.Keys
    ensures Keeps(s, LoadStarted(s, t, config), t, Some(config.modelName))
  {
    if config.modelName in s.reg.models {
      MovedKeeps(s, t, At(LoadStarted(s, t, config), t), Some(config.modelName));
    }
  }

  lemma LoadBuildEndedKeeps(s: State, t: Tid, config: Config, id: SchedulerId, built: Handle)
    requires At(s, t) == Building(config) && id !in s.born && IsBuildResult(built, id, LoadVersion(config))
    requires ThreadOk(s, t) && SlotOk(s, config.modelName) && s.reg.stopped <= s.born.Keys
    ensures Keeps(s, LoadBuildEnded(s, t, config, id, built), t, Some(config.modelName))
  {
  }

  lemma LoadFinishedKeeps(s: State, t: Tid, config: Config, built: Handle)
    requires At(s, t) == Built(config, built)
    requires ThreadOk(s, t) && SlotOk(s, config.modelName) && s.reg.stopped <= s.born.Keys
    ensures Keeps(s, LoadFinished(s, t, config, built), t, Some(config.modelName))
  {
  }

  lemma AbortedKeeps(s: State, t: Tid, n: Name)
    requires Loads(At(s, t), n) || Rebuilds(At(s, t), n)
    requires ThreadOk(s, t) && SlotOk(s, n) && s.reg.stopped <= s.born.Keys
    ensures Keeps(s, Aborted(s, t, n), t, Some(n))
  {
  }

  lemma EnteredKeeps(s: State, t: Tid, n: Name, op: Rebuild)
    requires At(s, t) == Entering(n, op)
    requires ThreadOk(s, t) && SlotOk(s, n) && s.reg.stopped <= s.born.Keys
    ensures Keeps(s, Entered(s, t, n, op), t, Some(n))
  {
    var e := ReloadEnter(s.reg, n, op).0;
    if e.Build? {
      RebuildStartedSlot(s, t, n, op, Entered(s, t, n, op));
      RebuildStartedLocal(s, t, n, op, Entered(s, t, n, op));
    } else {
      MovedKeeps(s, t, At(Entered(s, t, n, op), t), Some(n));
    }
  }

  lemma RebuildStartedSlot(s: State, t: Tid, n: Name, op: Rebuild, s': State)
    requires At(s, t) == Entering(n, op) && SlotOk(s, n) && ReloadEnter(s.reg, n, op).0.Build? && s' == Entered(s, t, n, op)
    ensures SlotOk(s', n) && ThreadOk(s', t)
  {
  }

  lemma RebuildStartedLocal(s: State, t: Tid, n: Name, op: Rebuild, s': State)
    requires At(s, t) == Entering(n, op) && SlotOk(s, n) && ReloadEnter(s.reg, n, op).0.Build? && s' == Entered(s, t, n, op)
    requires s.reg.stopped <= s.born.Keys
    ensures Local(s, s', t, Some(n)) && QueueGrows(s, s') && s'.reg.stopped <= s'.born.Keys
  {
    assert !s.reg.models[n].reloadPending && !s.reg.models[n].handle.state.Loading?;
    assert forall m :: m != n ==> SlotUntouched(s, s', m);
  }

  lemma RebuildEndedKeeps(s: State, t: Tid, n: Name, op: Rebuild, id: SchedulerId, built: Handle)
    requires At(s, t) == Rebuilding(n, op) && id !in s.born && IsBuildResult(built, id, BuildVersion(n, op))
    requires ThreadOk(s, t) && SlotOk(s, n) && s.reg.stopped <= s.born.Keys
    ensures Keeps(s, RebuildEnded(s, t, n, op, id, built), t, Some(n))
  {
  }

  lemma RebuildLostKeeps(s: State, t: Tid, n: Name, op: Rebuild, next: Handle)
    requires At(s, t) == Rebuilt(n, op, next) && !next.state.Ready?
    requires ThreadOk(s, t) && SlotOk(s, n) && s.reg.stopped <= s.born.Keys
    ensures Keeps(s, RebuildFinished(s, t, n, op, next), t, Some(n))
  {
    assert RebuildFinished(s, t, n, op, next) == Goto(s.(reg := ReloadFinish(s.reg, n, op, next).1), t, Notifying(None, Some(false)));
  }

  lemma RebuildWonSlot(s: State, t: Tid, n: Name, op: Rebuild, next: Handle, s': State)
    requires At(s, t) == Rebuilt(n, op, next) && next.state.Ready? && s' == RebuildFinished(s, t, n, op, next)
    requires ThreadOk(s, t) && SlotOk(s, n)
    ensures SlotOk(s', n)
  {
    var slot := s.reg.models[n];
    var after := ReloadFinish(s.reg, n, op, next).1.models[n];
    assert after.handle == slot.handle.(name := next.name, versions := next.versions, metadata := next.metadata,
                                        scheduler := next.scheduler, loadError := None, state := Ready);
  }

  lemma RebuildWonThread(s: State, t: Tid, n: Name, op: Rebuild, next: Handle, s': State)
    requires At(s, t) == Rebuilt(n, op, next) && next.state.Ready? && s' == RebuildFinished(s, t, n, op, next)
    requires ThreadOk(s, t) && SlotOk(s, n)
    ensures ThreadOk(s', t)
  {
    var slot := s.reg.models[n];
    assert slot.active.value.scheduler != next.scheduler;
  }

  lemma RebuildWonKeeps(s: State, t: Tid, n: Name, op: Rebuild, next: Handle)
    requires At(s, t) == Rebuilt(n, op, next) && next.state.Ready?
    requires ThreadOk(s, t) && SlotOk(s, n) && s.reg.stopped <= s.born.Keys
    ensures Keeps(s, RebuildFinished(s, t, n, op, next), t, Some(n))
  {
    var s' := RebuildFinished(s, t, n, op, next);
    RebuildWonSlot(s, t, n, op, next, s');
    RebuildWonThread(s, t, n, op, next, s');
    RebuildWonLocal(s, t, n, op, next, s');
  }

  lemma RebuildWonLocal(s: State, t: Tid, n: Name, op: Rebuild, next: Handle, s': State)
    requires At(s, t) == Rebuilt(n, op, next) && next.state.Ready? && s' == RebuildFinished(s, t, n, op, next)
    requires ThreadOk(s, t) && SlotOk(s, n) && s.reg.stopped <= s.born.Keys
    ensures Local(s, s', t, Some(n)) && QueueGrows(s, s') && s'.reg.stopped <= s'.born.Keys
  {
    assert s'.builder == s.builder && s'.reg.stopped == s.reg.stopped;
    assert forall m :: m != n ==> SlotUntouched(s, s', m);
    assert forall x :: SchedulerUntouched(s, s', t, Some(n), x);
  }

  lemma NotifiedKeeps(s: State, t: Tid, retire: Option<SchedulerId>, result: Option<bool>)
    requires At(s, t) == Notifying(retire, result)
    requires ThreadOk(s, t) && s.reg.stopped <= s.born.Keys
    ensures Keeps(s, Notified(s, t, retire, result), t, None)
  {
  }

  lemma RetiredOldKeeps(s: State, t: Tid, due: SchedulerId, result: Option<bool>)
    requires At(s, t) == Retiring(due, result)
    requires ThreadOk(s, t) && s.reg.stopped <= s.born.Keys
    ensures Keeps(s, RetiredOld(s, t, due, result), t, None)
  {
  }

  lemma StopKeeps(s: State, t: Tid, j: nat)
    requires At(s, t).Idle? && j < |s.reg.retired| && QueueOk(s, j)
    requires ThreadOk(s, t) && s.reg.stopped <= s.born.Keys
    ensures Keeps(s, Stop(s, s.reg.retired[j]), t, None)
  {
  }

  lemma UnloadStartedKeeps(s: State, t: Tid, n: Name)
    requires At(s, t).Idle?
    requires ThreadOk(s, t) && SlotOk(s, n) && s.reg.stopped <= s.born.Keys
    ensures Keeps(s, UnloadStarted(s, t, n), t, Some(n))
  {
  }

  lemma DrainKeeps(s: State, t: Tid, n: Name, pc: Pc)
    requires At(s, t).Idle? || At(s, t).Checked?
    requires pc.Idle? || pc.Drained?
    requires ThreadOk(s, t) && SlotOk(s, n) && s.reg.stopped <= s.born.Keys
    ensures Keeps(s, Goto(Drain(s, n), t, pc), t, Some(n))
  {
    if !DrainRegion(s.reg, n).0 {
      MovedKeeps(s, t, pc, Some(n));
    }
  }

  lemma CompleteKeeps(s: State, t: Tid, n: Name)
    requires At(s, t).Idle? || At(s, t).Drained?
    requires ThreadOk(s, t) && SlotOk(s, n) && s.reg.stopped <= s.born.Keys
    ensures Keeps(s, Completed(s, t, n), t, Some(n))
  {
    var s' := Completed(s, t, n);
    if CompleteUnloadRegion(s.reg, n).0 {
      CompletedLocal(s, t, n, s');
    } else {
      MovedKeeps(s, t, Idle(Some(false)), Some(n));
    }
  }

  lemma CompletedLocal(s: State, t: Tid, n: Name, s': State)
    requires (At(s, t).Idle? || At(s, t).Drained?) && SlotOk(s, n) && s.reg.stopped <= s.born.Keys
    requires CompleteUnloadRegion(s.reg, n).0 && s' == Completed(s, t, n)
    ensures Keeps(s, s', t, Some(n))
  {
    assert n !in s'.reg.models && s'.builder == s.builder;
    assert forall m :: m != n ==> SlotUntouched(s, s', m);
    assert forall x :: SchedulerUntouched(s, s', t, Some(n), x);
  }

  /** The slot a step works on. */
  function Target(s: State, t: Tid, a: Action): Option<Name> {
    match a
    case StartLoad(config) => Some(config.modelName)
    case StartUnload(n) => Some(n)
    case StartDrain(n) => Some(n)
    case StartComplete(n) => Some(n)
    case _ =>
      match At(s, t)
      case Building(config) => Some(config.modelName)
      case Built(config, _) => Some(config.modelName)
      case Entering(n, _) => Some(n)
      case Rebuilding(n, _) => Some(n)
      case Rebuilt(n, _, _) => Some(n)
      case Checked(n) => Some(n)
      case Drained(n) => Some(n)
      case _ => None
  }

  /** The same, the slot a guard looks at after a torn load included. */
  function Touched(s: State, t: Tid, a: Action): Option<Name> {
    if a.TornGuard? && At(s, t).Torn? then Some(At(s, t).n) else Target(s, t, a)
  }

  predicate IsReloadAction(a: Action) {
    a.StartReload? || a.Enter? || a.EndRebuild? || a.FinishRebuild? || a.AbortRebuild? || a.Wake? || a.Notify? || a.RetireOld?
  }

  predicate IsUnloadAction(a: Action) {
    a.StartUnload? || a.UnloadDrain? || a.UnloadComplete? || a.StartDrain? || a.StartComplete?
  }

  lemma RebuildStepKeeps(s: State, t: Tid, a: Action)
    requires Inv(s) && Enabled(s, t, a) && IsReloadAction(a)
    ensures Keeps(s, Next(s, t, a), t, Target(s, t, a))
  {
    assert ThreadOk(s, t);
    if a.Wake? || a.Notify? || a.RetireOld? || a.StartReload? {
      AfterRebuildKeeps(s, t, a);
    } else {
      DuringRebuildKeeps(s, t, a);
    }
  }

  lemma AfterRebuildKeeps(s: State, t: Tid, a: Action)
    requires Enabled(s, t, a) && (a.Wake? || a.Notify? || a.RetireOld? || a.StartReload?)
    requires ThreadOk(s, t) && s.reg.stopped <= s.born.Keys
    ensures Keeps(s, Next(s, t, a), t, Target(s, t, a))
  {
    match a {
      case StartReload(n, op) => MovedKeeps(s, t, Entering(n, op), None);
      case Wake => MovedKeeps(s, t, At(Woken(s, t), t), None);
      case Notify => NotifiedKeeps(s, t, At(s, t).retire, At(s, t).result);
      case RetireOld => RetiredOldKeeps(s, t, At(s, t).due, At(s, t).result);
    }
  }

  lemma DuringRebuildKeeps(s: State, t: Tid, a: Action)
    requires Inv(s) && Enabled(s, t, a) && (a.Enter? || a.EndRebuild? || a.FinishRebuild? || a.AbortRebuild?) && ThreadOk(s, t)
    ensures Keeps(s, Next(s, t, a), t, Target(s, t, a))
  {
    var pc := At(s, t);
    match a {
      case Enter => EnteredKeeps(s, t, pc.n, pc.op);
      case EndRebuild(id, built) => RebuildEndedKeeps(s, t, pc.n, pc.op, id, built);
      case FinishRebuild =>
        if pc.next.state.Ready? {
          RebuildWonKeeps(s, t, pc.n, pc.op, pc.next);
        } else {
          RebuildLostKeeps(s, t, pc.n, pc.op, pc.next);
        }
      case AbortRebuild => AbortedKeeps(s, t, pc.n);
    }
  }

  lemma StepKeeps(s: State, t: Tid, a: Action)
    requires Inv(s) && Enabled(s, t, a) && !Tears(a)
    ensures Keeps(s, Next(s, t, a), t, Target(s, t, a))
  {
    if IsReloadAction(a) {
      RebuildStepKeeps(s, t, a);
      return;
    }
    var pc := At(s, t);
    assert ThreadOk(s, t);
    match a {
      case StartLoad(config) => LoadStartedKeeps(s, t, config);
      case EndLoadBuild(id, built) => LoadBuildEndedKeeps(s, t, pc.config, id, built);
      case FinishLoad => LoadFinishedKeeps(s, t, pc.config, pc.built);
      case AbortLoad => AbortedKeeps(s, t, pc.config.modelName);
      case TornGuard => assert false;
      case RetireTask(id) =>
        var j :| 0 <= j < |s.reg.retired| && s.reg.retired[j] == id;
        StopKeeps(s, t, j);
      case StartUnload(n) => UnloadStartedKeeps(s, t, n);
      case UnloadDrain => DrainKeeps(s, t, pc.n, At(Next(s, t, a), t));
      case UnloadComplete => CompleteKeeps(s, t, pc.n);
      case StartDrain(n) => DrainKeeps(s, t, n, At(Next(s, t, a), t));
      case StartComplete(n) => CompleteKeeps(s, t, n);
    }
  }

  lemma QueueFrame(s: State, s': State, t: Tid, n: Option<Name>, i: nat)
    requires Keeps(s, s', t, n) && QueueOk(s, i)
    ensures QueueOk(s', i)
  {
    if i < |s.reg.retired| {
      assert s'.reg.retired[i] == s'.reg.retired[..|s.reg.retired|][i] == s.reg.retired[i];
      assert SchedulerUntouched(s, s', t, n, s.reg.retired[i]);
    }
  }

  lemma InvStep(s: State, t: Tid, a: Action)
    requires Inv(s) && Enabled(s, t, a) && !Tears(a)
    ensures Inv(Next(s, t, a))
  {
    var s' := Next(s, t, a);
    var n := Target(s, t, a);
    StepKeeps(s, t, a);
    forall i: nat ensures QueueOk(s', i) {
      QueueFrame(s, s', t, n, i);
    }
    forall u ensures ThreadOk(s', u) {
      if u != t {
        ThreadFrame(s, s', t, n, u);
      }
    }
    forall m ensures SlotOk(s', m) {
      if Some(m) != n {
        SlotFrame(s, s', t, n, m);
      }
    }
  }
}
