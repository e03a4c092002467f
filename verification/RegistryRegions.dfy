/**
 * The model registry, one function per locked region of the source. `Reg` is everything the
 * registry lock protects, plus the schedulers that were told to stop and those handed to the
 * retire queue. The concurrent protocol built from these regions is in RegistryProtocol.
 */
module RegistryRegions {
  import opened Wrappers
  import opened ModelStates
  import opened ModelLifecycle

  type Name = string
  type Version = string

  /** The immutable copy of a handle that request threads read. */
  datatype Snapshot = Snapshot(
    name: string, versions: seq<Version>, state: ModelState, metadata: Metadata,
    scheduler: Option<SchedulerId>, loadError: Option<string>)

  function FromHandle(h: Handle): Snapshot {
    Snapshot(h.name, h.versions, h.state, h.metadata, h.scheduler, h.loadError)
  }

  /** The version a snapshot is routed by; empty when it names none. */
  function VersionOf(s: Option<Snapshot>): Version {
    if s.None? then ""
    else if s.value.metadata.versions != [] then s.value.metadata.versions[0]
    else if s.value.versions != [] then s.value.versions[0]
    else ""
  }

  datatype Slot = Slot(
    handle: Handle, config: Config, active: Option<Snapshot>,
    versionSnapshots: map<Version, Snapshot>, reloadPending: bool)

  datatype Reg = Reg(models: map<Name, Slot>, stopped: set<SchedulerId>, retired: seq<SchedulerId>)

  predicate Accepts(scheduler: Option<SchedulerId>, stopped: set<SchedulerId>) {
    scheduler.Some? && scheduler.value !in stopped
  }

  predicate HandleReady(h: Handle, stopped: set<SchedulerId>) {
    h.state.Ready? && Accepts(h.scheduler, stopped)
  }

  predicate SnapshotReady(s: Option<Snapshot>, stopped: set<SchedulerId>) {
    s.Some? && s.value.state.Ready? && Accepts(s.value.scheduler, stopped)
  }

  function Publish(slot: Slot): Slot {
    slot.(active := Some(FromHandle(slot.handle)))
  }

  function StopOf(s: Option<SchedulerId>): set<SchedulerId> {
    if s.Some? then {s.value} else {}
  }

  // ------------------------------------------------------------------ load

  /** How the first locked region of a load, reload or version switch ends. */
  datatype Entry = Return(result: bool) | JoinLoad | WaitReload | Build

  function Placeholder(config: Config): Slot {
    Slot(EMPTY_HANDLE.(name := config.modelName, state := Loading), config, None, map[], false)
  }

  function LoadEnter(r: Reg, config: Config): (Entry, Reg) {
    var n := config.modelName;
    if n in r.models then
      (if r.models[n].handle.state.Loading? then JoinLoad else Return(false), r)
    else
      (Build, r.(models := r.models[n := Publish(Placeholder(config))]))
  }

  function LoadFinish(r: Reg, config: Config, built: Handle): (bool, Reg) {
    var n := config.modelName;
    if n !in r.models then (false, r)
    else (true, r.(models := r.models[n := Publish(r.models[n].(config := config, handle := built))]))
  }

  /** The final region of a load cut short by an exception from `publishSnapshot`: nothing is published. */
  function LoadFinishUnpublished(r: Reg, config: Config, built: Handle): Reg {
    var n := config.modelName;
    if n !in r.models then r
    else r.(models := r.models[n := r.models[n].(config := config, handle := built)])
  }

  /** The backstop for a build that threw past the lifecycle. */
  function GuardAbort(r: Reg, n: Name): Reg {
    if n !in r.models then r
    else
      var slot := r.models[n];
      if slot.handle.state.Loading? && !slot.reloadPending then
        r.(models := r.models[n := Publish(slot.(handle := slot.handle.(state := Failed, loadError := Some("executor build threw"))))])
      else if slot.reloadPending then
        r.(models := r.models[n := Publish(slot.(reloadPending := false, handle := slot.handle.(loadError := Some("executor build threw"))))])
      else r
  }

  predicate LoadSettled(r: Reg, n: Name) {
    n in r.models ==> !r.models[n].handle.state.Loading?
  }

  /** What a thread that joined a build reports once it has settled. */
  predicate IsReady(r: Reg, n: Name) {
    n in r.models && HandleReady(r.models[n].handle, r.stopped)
  }

  predicate ReloadSettled(r: Reg, n: Name) {
    n in r.models ==> !r.models[n].reloadPending
  }

  // ---------------------------------------------------------------- reload

  datatype Rebuild = Reload(config: Config) | Switch(version: Version, config: Config)

  /** The configuration a rebuild of slot `n` runs with. */
  function BuildConfig(n: Name, op: Rebuild): Config {
    match op
    case Reload(config) => config
    case Switch(version, config) => config.(modelName := n, modelVersion := version)
  }

  function BuildVersion(n: Name, op: Rebuild): Option<Version> {
    match op
    case Reload(config) => if config.versionExplicit && config.modelVersion != "" then Some(config.modelVersion) else None
    case Switch(version, _) => Some(version)
  }

  function LoadVersion(config: Config): Option<Version> {
    BuildVersion(config.modelName, Reload(config))
  }

  function ReloadEnter(r: Reg, n: Name, op: Rebuild): (Entry, Reg) {
    if n !in r.models then (Return(false), r)
    else
      var slot := r.models[n];
      if op.Switch? && VersionOf(slot.active) == op.version && SnapshotReady(slot.active, r.stopped) then (Return(true), r)
      else if slot.handle.state.Loading? && !slot.reloadPending then (JoinLoad, r)
      else if slot.reloadPending then (WaitReload, r)
      else
        var (ok, h) := BeginReloadSpec(slot.handle);
        if !ok then (Return(false), r)
        else (Build, r.(models := r.models[n := slot.(handle := h, reloadPending := true)],
                        stopped := r.stopped + if slot.handle.state.Unloading? then StopOf(slot.handle.scheduler) else {}))
  }

  /** Outcome of the region that swaps a replacement in: the result the caller reports and the scheduler it must retire. */
  datatype Swapped = Swapped(result: bool, retire: Option<SchedulerId>)

  function SchedulerOf(s: Option<Snapshot>): Option<SchedulerId> {
    if s.Some? then s.value.scheduler else None
  }

  function RecordVersions(slot: Slot, previous: Option<Snapshot>): map<Version, Snapshot> {
    var kept := if previous.Some? && VersionOf(previous) != "" then slot.versionSnapshots[VersionOf(previous) := previous.value] else slot.versionSnapshots;
    if slot.active.Some? && VersionOf(slot.active) != "" then kept[VersionOf(slot.active) := slot.active.value] else kept
  }

  function ReloadFinish(r: Reg, n: Name, op: Rebuild, next: Handle): (Swapped, Reg) {
    if n !in r.models then (Swapped(false, None), r)
    else
      var slot := r.models[n];
      var (ok, h) := FinishReloadSpec(slot.handle, next);
      var swapped := Publish(slot.(reloadPending := false, handle := h, config := if ok then BuildConfig(n, op) else slot.config));
      if !ok then (Swapped(false, None), r.(models := r.models[n := swapped]))
      else
        var recorded := if op.Switch? then swapped.(versionSnapshots := RecordVersions(swapped, slot.active)) else swapped;
        var ready := if op.Switch? then SnapshotReady(swapped.active, r.stopped) else HandleReady(h, r.stopped);
        (Swapped(ready, SchedulerOf(slot.active)), r.(models := r.models[n := recorded]))
  }

  /**
   * That region cut short by an exception from `publishSnapshot`: the handle is swapped and the mark cleared, nothing is
   * published or recorded, no waiter is notified and no scheduler retired.
   */
  function ReloadFinishUnpublished(r: Reg, n: Name, op: Rebuild, next: Handle): Reg {
    if n !in r.models then r
    else
      var slot := r.models[n];
      var (ok, h) := FinishReloadSpec(slot.handle, next);
      r.(models := r.models[n := slot.(reloadPending := false, handle := h, config := if ok then BuildConfig(n, op) else slot.config)])
  }

  function Retire(r: Reg, s: SchedulerId): Reg {
    r.(retired := r.retired + [s])
  }

  // ------------------------------------------------------- drain and unload

  /** Outcome of the first region of an unload: done with a result, or go on to drain. */
  datatype UnloadEntry = Done(result: bool) | Proceed

  function UnloadEnter(r: Reg, n: Name): (UnloadEntry, Reg) {
    if n !in r.models then (Done(false), r)
    else
      var slot := r.models[n];
      if slot.reloadPending || slot.handle.state.Loading? then (Done(false), r)
      else if slot.handle.state.Failed? && slot.handle.scheduler.None? then (Done(true), r.(models := r.models - {n}))
      else (Proceed, r)
  }

  function DrainRegion(r: Reg, n: Name): (bool, Reg) {
    if n !in r.models || r.models[n].reloadPending then (false, r)
    else
      var slot := r.models[n];
      var (ok, h) := BeginDrainSpec(slot.handle);
      if !ok then (false, r)
      else (true, r.(models := r.models[n := Publish(slot.(handle := h))],
                     stopped := r.stopped + StopOf(slot.handle.scheduler)))
  }

  function CompleteUnloadRegion(r: Reg, n: Name): (bool, Reg) {
    if n !in r.models then (false, r)
    else
      var slot := r.models[n];
      var (ok, _) := CompleteUnloadSpec(slot.handle);
      if !ok then (false, r)
      else
        var s := slot.handle.scheduler;
        (true, Reg(r.models - {n}, r.stopped + StopOf(s), if s.Some? then r.retired + [s.value] else r.retired))
  }

  // ---------------------------------------------------------------- lookups

  function FindHandle(r: Reg, n: Name): Option<Snapshot> {
    if n in r.models then r.models[n].active else None
  }

  function FindHandleVersion(r: Reg, n: Name, v: Version): Option<Snapshot> {
    if n !in r.models then None
    else
      var slot := r.models[n];
      if v in slot.versionSnapshots then Some(slot.versionSnapshots[v])
      else if slot.active.None? then None
      else
        var s := slot.active.value;
        var known := if s.metadata.versions == [] then s.versions else s.metadata.versions;
        if v in known then Some(s) else None
  }
}
