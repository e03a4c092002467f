/**
 * The tensor scheduler: submitters, a bounded queue, workers that form and run batches,
 * deadlines with cancellation, and drain. One step per locked region or per element of an
 * unlocked loop; any worker or submitter may take the next step; the clock never goes back.
 */
module SchedulerSteps {
  import opened Wrappers
  import opened Tensors
  import opened BatchCompatibility
  import opened DynamicBatcher
  import opened ExecutorPool
  import opened BatchMeaning

  type Rid = nat

  datatype Result = Timeout | Draining | Overloaded | Invalid(reason: string) | MemoryPressure | Reply(response: Response) | Failure(message: string)

  /** Who holds an accepted request. */
  datatype Place = Queued | With(w: Worker) | Done

  /**
   * A pending request. `sets` counts calls of `set_value` on its promise; a second one would
   * throw. `returned` is what its submitter got. `place` is history that no step reads.
   */
  datatype Pending = Pending(
    request: Request, deadline: int, cancelled: bool,
    promise: Option<Result>, sets: nat, returned: Option<Result>, place: Place)

  datatype Settings = Settings(
    maxQueue: nat, timeout: int, batching: bool, maxBatch: nat, maxDelay: int, preferred: seq<nat>,
    infer: Request -> Response)

  datatype Pc =
    | Popping
    | Forming(batch: seq<Rid>, until: int)
    | Expiring(batch: seq<Rid>, until: int, expired: Rid)       // took an expired request out of the queue
    | Sweeping(batch: seq<Rid>, i: nat, at: int)                // answering expired members
    | Filtering(batch: seq<Rid>, i: nat, active: seq<Rid>)      // keeping members still alive
    | Starting(active: seq<Rid>)
    | Running(active: seq<Rid>)                                 // inside an inference
    | Finishing(active: seq<Rid>, replies: seq<Result>, i: nat)
    | Exited

  datatype State = State(
    queue: seq<Rid>, reqs: map<Rid, Pending>, workers: map<Worker, Pc>, pool: PoolState, draining: bool, now: int)

  /**
   * What the codec lets through: distinct input names and, where the request could be batched at all
   * (every input has a shape and none is BYTES), inputs that hold the bytes their shapes say.
   */
  predicate Admissible(r: Request) {
    DistinctNames(r.inputs) && (HasBytes(r.inputs) || !Shaped(r.inputs) || WellFormed(r))
  }

  // ------------------------------------------------------------ small helpers

  function Put(s: State, r: Rid, p: Pending): State {
    s.(reqs := s.reqs[r := p])
  }

  /** `fulfillResult`: sets the promise unless the cancelled flag was seen. */
  function Fulfil(p: Pending, v: Result, saw: bool): Pending {
    if saw then p else p.(promise := Some(v), sets := p.sets + 1)
  }

  function Goto(s: State, w: Worker, pc: Pc): State {
    s.(workers := s.workers[w := pc])
  }

  function RequestsOf(s: State, rids: seq<Rid>): seq<Request>
    requires forall r :: r in rids ==> r in s.reqs
  {
    seq(|rids|, k requires 0 <= k < |rids| => s.reqs[rids[k]].request)
  }

  /** Merged batch dimension of a list of requests. */
  function Dimension(s: State, rids: seq<Rid>): nat
    requires forall r :: r in rids ==> r in s.reqs
  {
    Sum(SizesOf(RequestsOf(s, rids)))
  }

  function Without<T>(xs: seq<T>, i: nat): seq<T>
    requires i < |xs|
  {
    xs[..i] + xs[i + 1..]
  }

  function Ticked(s: State, elapsed: nat): State {
    s.(now := s.now + elapsed)
  }

  /** `stopAccepting`, and `beginDrain` before it joins the workers. */
  function Stopped(s: State): State {
    s.(draining := true)
  }

  // ---------------------------------------------------------------- submitters

  /** `submit` up to the wait: refused while draining or full, else queued with a deadline. */
  function Submitted(c: Settings, s: State, r: Rid, request: Request, at: int): State {
    var p := Pending(request, at + c.timeout, false, None, 0, None, Queued);
    if s.draining then Put(s, r, p.(returned := Some(Draining), place := Done))
    else if |s.queue| >= c.maxQueue then Put(s, r, p.(returned := Some(Overloaded), place := Done))
    else Put(s.(queue := s.queue + [r]), r, p)
  }

  /** `submit` after the wait: the promise's value if there is one, else a timeout that cancels the request. */
  function Returned(s: State, r: Rid): State
    requires r in s.reqs
  {
    var p := s.reqs[r];
    if p.promise.Some? then Put(s, r, p.(returned := p.promise))
    else Put(s, r, p.(cancelled := true, returned := Some(Timeout)))
  }

  // ------------------------------------------------------------- batch formation

  /** Moves queue entry `i` into worker `w`'s hands. */
  function TakenOut(s: State, w: Worker, i: nat, pc: Pc): State
    requires i < |s.queue| && s.queue[i] in s.reqs
  {
    var r := s.queue[i];
    Goto(Put(s.(queue := Without(s.queue, i)), r, s.reqs[r].(place := With(w))), w, pc)
  }

  /** `popNextPending` and the entry of `formBatch`. */
  function Popped(c: Settings, s: State, w: Worker): State
    requires s.queue != [] && s.queue[0] in s.reqs
  {
    TakenOut(s, w, 0, Forming([s.queue[0]], s.now + c.maxDelay))
  }

  /**
   * The formation loop may look for another member. Whether the scheduler is draining and whether the
   * delay has passed were read before the scan, so either may have changed by the time a member is taken.
   */
  predicate CanGrow(c: Settings, s: State, batch: seq<Rid>)
    requires forall r :: r in batch ==> r in s.reqs
  {
    && c.batching && c.maxBatch > 1
    && Dimension(s, batch) < c.maxBatch
    && !(ShouldDispatch(Dimension(s, batch), c.maxBatch, c.preferred, false) && |batch| > 1)
  }

  /** The scan can take request `r` into the batch. */
  predicate Takes(c: Settings, s: State, batch: seq<Rid>, r: Rid)
    requires batch != [] && r in s.reqs && forall q :: q in batch ==> q in s.reqs
  {
    && Compatible(s.reqs[batch[0]].request, s.reqs[r].request)
    && Dimension(s, batch) + Wrap(BatchSize(s.reqs[r].request)) <= c.maxBatch
  }

  /** The scan leaves every request before position `i` where it is. */
  predicate ScansTo(c: Settings, s: State, batch: seq<Rid>, i: nat)
    requires batch != [] && forall q :: q in batch ==> q in s.reqs
    requires i <= |s.queue| && forall q :: q in s.queue ==> q in s.reqs
  {
    forall j :: 0 <= j < i ==> !Takes(c, s, batch, s.queue[j])
  }

  /** Erases a queue entry whose submitter has given up. */
  function Dropped(s: State, i: nat): State
    requires i < |s.queue| && s.queue[i] in s.reqs
  {
    var r := s.queue[i];
    Put(s.(queue := Without(s.queue, i)), r, s.reqs[r].(place := Done))
  }

  /** Answers one request held by `w` and lets go of it. */
  function Answered(s: State, w: Worker, r: Rid, v: Result, saw: bool, pc: Pc): State
    requires r in s.reqs
  {
    Goto(Put(s, r, Fulfil(s.reqs[r], v, saw).(place := Done)), w, pc)
  }

  // ---------------------------------------------------------------- processing

  /** First loop of `processBatch`: an expired member is answered but stays in the list. */
  function Swept(s: State, w: Worker, batch: seq<Rid>, i: nat, at: int, saw: bool): State
    requires i <= |batch| && forall r :: r in batch ==> r in s.reqs
  {
    if i == |batch| then Goto(s, w, Filtering(batch, 0, []))
    else
      var r, next := batch[i], Sweeping(batch, i + 1, at);
      if !saw && at >= s.reqs[r].deadline then Goto(Put(s, r, Fulfil(s.reqs[r], Timeout, false)), w, next)
      else Goto(s, w, next)
  }

  /** Second loop: cancelled and expired members are left out. */
  function Filtered(s: State, w: Worker, batch: seq<Rid>, i: nat, active: seq<Rid>, saw: bool): State
    requires i <= |batch| && forall r :: r in batch ==> r in s.reqs
  {
    if i == |batch| then Goto(s, w, Starting(active))
    else
      var r := batch[i];
      if saw || s.now >= s.reqs[r].deadline then Goto(Put(s, r, s.reqs[r].(place := Done)), w, Filtering(batch, i + 1, active))
      else Goto(s, w, Filtering(batch, i + 1, active + [r]))
  }

  function Merge(s: State, active: seq<Rid>): MergeResult
    requires |active| > 1 && forall r :: r in active ==> r in s.reqs
  {
    MergeSpec(RequestsOf(s, active))
  }

  function Started(s: State, w: Worker, active: seq<Rid>, saw: bool): State
    requires forall r :: r in active ==> r in s.reqs
    requires s.pool.inflight != []
  {
    if active == [] then Goto(s, w, Popping)
    else if |active| == 1 && saw then Answered(s, w, active[0], Timeout, true, Popping)
    else if |active| == 1 && s.now >= s.reqs[active[0]].deadline then Answered(s, w, active[0], Timeout, false, Popping)
    else if |active| > 1 && Merge(s, active).MergeError? then
      Goto(s, w, Finishing(active, seq(|active|, _ => Failure(Merge(s, active).message)), 0))
    else Goto(s.(pool := Chosen(s.pool, w)), w, Running(active))
  }

  /** What the executor's answer means for member `k`: its share, or a timeout if the inference came back too late. */
  function ReplyFor(c: Settings, s: State, active: seq<Rid>, k: nat): Result
    requires k < |active| && forall r :: r in active ==> r in s.reqs
  {
    var p := s.reqs[active[k]];
    if s.now >= p.deadline then Timeout
    else if |active| == 1 then Reply(c.infer(p.request))
    else match Merge(s, active)
      case Merged(request, sizes) => if k < |sizes| then Reply(SplitOne(c.infer(request), sizes, k)) else Timeout
      case MergeError(message) => Failure(message)
  }

  function Ran(c: Settings, s: State, w: Worker, active: seq<Rid>): State
    requires forall r :: r in active ==> r in s.reqs
    requires w in s.pool.running && s.pool.running[w] < |s.pool.inflight|
  {
    var replies := seq(|active|, k requires 0 <= k < |active| => ReplyFor(c, s, active, k));
    Goto(s.(pool := Freed(s.pool, w)), w, Finishing(active, replies, 0))
  }

  function Finished(s: State, w: Worker, active: seq<Rid>, replies: seq<Result>, i: nat, saw: bool): State
    requires i <= |active| == |replies| && forall r :: r in active ==> r in s.reqs
  {
    if i == |active| then Goto(s, w, Popping)
    else Answered(s, w, active[i], replies[i], saw, Finishing(active, replies, i + 1))
  }

  // -------------------------------------------------------------------- drain

  /** `rejectQueuedRequests`, after every worker has been joined. */
  function RejectedAll(s: State): State
    requires forall r :: r in s.queue ==> r in s.reqs
  {
    s.(queue := [],
       reqs := map r | r in s.reqs :: if r in s.queue then Fulfil(s.reqs[r], Draining, false).(place := Done) else s.reqs[r])
  }
}
