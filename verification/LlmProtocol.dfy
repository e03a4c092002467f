/** The LLM scheduler as a protocol, its invariant, and what holds over every run. */
module LlmProtocol {
  import opened Wrappers
  import opened Tensors
  import opened ExecutorPool
  import opened SchedulerSteps
  import SP = SchedulerProtocol
  import SW = SchedulerWorkers
  import opened LlmSteps

  datatype LlmAction =
    | Tick(elapsed: nat)
    | Submit(r: Rid, request: Request, at: int, seen: nat)
    | Return(r: Rid)
    | Stop
    | Pop(w: Worker)
    | Exit(w: Worker)
    | Check(w: Worker, saw: bool)
    | Acquire(w: Worker)
    | Launch(w: Worker)
    | Decode(w: Worker, stopped: bool)
    | Release(w: Worker)
    | Answer(w: Worker, saw: bool)
    | RejectQueue

  function Held(pc: LlmPc): Option<Rid> {
    if pc.Idle? || pc.Gone? then None else Some(pc.r)
  }

  /** The worker is between `acquireDecodeSlot` and `releaseDecodeSlot`. */
  predicate UsesSlot(pc: LlmPc) {
    pc.Owning? || pc.Decoding? || pc.Releasing?
  }

  function SlotUsers(s: LlmState): set<Worker> {
    set w | w in s.workers && UsesSlot(s.workers[w])
  }

  /** Ids refer to requests; part of the invariant, so no reachable state is excluded. */
  predicate Closed(s: LlmState) {
    && (forall r :: r in s.queue ==> r in s.reqs)
    && (forall w :: w in s.workers ==> ClosedPc(s, w))
    && s.pool.inflight != []
  }

  predicate ClosedPc(s: LlmState, w: Worker)
    requires w in s.workers
  {
    && (Held(s.workers[w]).Some? ==> Held(s.workers[w]).value in s.reqs)
    && (s.workers[w].Decoding? ==> w in s.pool.running && s.pool.running[w] < |s.pool.inflight|)
  }

  predicate At(s: LlmState, w: Worker) {
    w in s.workers
  }

  predicate SawTruly(s: LlmState, w: Worker, saw: bool)
    requires w in s.workers
  {
    saw ==> Held(s.workers[w]).Some? && Held(s.workers[w]).value in s.reqs && s.reqs[Held(s.workers[w]).value].cancelled
  }

  predicate Enabled(c: LlmSettings, s: LlmState, a: LlmAction) {
    Closed(s) &&
    match a
    case Tick(_) => true
    case Submit(r, request, at, _) => r !in s.reqs && at <= s.now
    case Return(r) => r in s.reqs && s.reqs[r].returned.None? && (s.reqs[r].promise.Some? || s.now >= s.reqs[r].deadline)
    case Stop => true
    case Pop(w) => At(s, w) && s.workers[w].Idle? && s.queue != []
    case Exit(w) => At(s, w) && s.workers[w].Idle? && s.queue == [] && s.draining
    case Check(w, saw) => At(s, w) && s.workers[w].Holding? && SawTruly(s, w, saw)
    case Acquire(w) =>
      && At(s, w) && s.workers[w].Asking?
      && (s.draining || s.active < c.slots || s.now >= s.reqs[s.workers[w].r].deadline)
    case Launch(w) => At(s, w) && s.workers[w].Owning?
    case Decode(w, _) => At(s, w) && s.workers[w].Decoding?
    case Release(w) => At(s, w) && s.workers[w].Releasing?
    case Answer(w, saw) => At(s, w) && s.workers[w].Answering? && SawTruly(s, w, saw)
    case RejectQueue => s.draining && forall w :: w in s.workers ==> s.workers[w].Gone?
  }

  function Next(c: LlmSettings, s: LlmState, a: LlmAction): LlmState
    requires Enabled(c, s, a)
  {
    match a
    case Tick(elapsed) => LlmTicked(s, elapsed)
    case Submit(r, request, at, seen) => LlmSubmitted(c, s, r, request, at, seen)
    case Return(r) => LlmReturned(s, r)
    case Stop => LlmStopped(s)
    case Pop(w) => LlmPopped(s, w)
    case Exit(w) => Move(s, w, Gone)
    case Check(w, saw) => Checked(s, w, s.workers[w].r, saw)
    case Acquire(w) => Acquired(c, s, w, s.workers[w].r)
    case Launch(w) => Launched(s, w, s.workers[w].r)
    case Decode(w, stopped) => Decoded(c, s, w, s.workers[w].r, stopped)
    case Release(w) => Slotless(s, w, Answering(s.workers[w].r, s.workers[w].answer))
    case Answer(w, saw) => LlmAnswered(s, w, s.workers[w].r, s.workers[w].answer, saw)
    case RejectQueue => LlmRejectedAll(s)
  }

  // --------------------------------------------------------------- invariant

  /** An answer fit for a request: the executor's own, a timeout, or word that the scheduler is draining. */
  predicate Right(c: LlmSettings, request: Request, v: Result) {
    v.Timeout? || v.Draining? || v == Reply(c.infer(request))
  }

  predicate WorkerOk(c: LlmSettings, s: LlmState, w: Worker)
    requires w in s.workers
  {
    var pc := s.workers[w];
    && ClosedPc(s, w)
    && (Held(pc).Some? ==> s.reqs[Held(pc).value].place == With(w) && s.reqs[Held(pc).value].sets == 0)
    && (pc.Releasing? || pc.Answering? ==> Right(c, s.reqs[pc.r].request, pc.answer))
  }

  predicate Placed(s: LlmState, r: Rid)
    requires r in s.reqs
  {
    match s.reqs[r].place
    case Queued => r in s.queue
    case With(w) => w in s.workers && Held(s.workers[w]) == Some(r)
    case Done => true
  }

  /** Turned away by `submit`, never queued. */
  predicate Refused(p: Pending) {
    && p.place.Done? && p.sets == 0 && p.returned.Some?
    && (p.returned.value.Draining? || p.returned.value.Overloaded? || p.returned.value.Invalid? || p.returned.value.MemoryPressure?)
  }

  predicate PromiseOk(c: LlmSettings, now: int, p: Pending) {
    && p.sets <= 1 && (p.promise.Some? <==> p.sets == 1)
    && (p.promise.Some? ==> Right(c, p.request, p.promise.value))
    && (p.place.Queued? ==> p.sets == 0)
    && (p.returned.Some? ==> (p.returned.value.Timeout? && now >= p.deadline) || p.returned == p.promise || Refused(p))
    && (p.cancelled ==> now >= p.deadline)
    && (p.place.Done? && p.sets == 0 ==> Refused(p) || now >= p.deadline)
  }

  predicate QueueOk(c: LlmSettings, s: LlmState) {
    && SP.NoDuplicates(s.queue)
    && |s.queue| <= c.maxQueue
    && (forall r :: r in s.queue ==> r in s.reqs && s.reqs[r].place.Queued?)
  }

  ghost predicate PoolOk(s: LlmState) {
    && Balanced(s.pool, |s.workers|)
    && s.pool.running.Keys <= s.workers.Keys
    && (forall w :: w in s.workers ==> (w in s.pool.running <==> s.workers[w].Decoding?))
  }

  /** The counter is the number of workers holding a slot. */
  ghost predicate SlotsOk(c: LlmSettings, s: LlmState) {
    s.active == |SlotUsers(s)| && |s.workers| == c.slots
  }

  ghost predicate DrainOk(s: LlmState) {
    forall w :: w in s.workers && s.workers[w].Gone? ==> s.draining && s.queue == []
  }

  ghost predicate Shared(c: LlmSettings, s: LlmState) {
    QueueOk(c, s) && PoolOk(s) && SlotsOk(c, s) && DrainOk(s)
  }

  ghost predicate Inv(c: LlmSettings, s: LlmState) {
    && s.workers.Keys != {}
    && (forall w :: w in s.workers ==> WorkerOk(c, s, w))
    && (forall r :: r in s.reqs ==> Placed(s, r) && PromiseOk(c, s.now, s.reqs[r]))
    && Shared(c, s)
  }

  // --------------------------------------------------------- the counter of slots

  lemma SlotTaken(s: LlmState, s': LlmState, w: Worker)
    requires w in s.workers && w in s'.workers && s'.workers == s.workers[w := s'.workers[w]]
    ensures |SlotUsers(s')| == |SlotUsers(s)| + (if UsesSlot(s'.workers[w]) then 1 else 0) - (if UsesSlot(s.workers[w]) then 1 else 0)
  {
    var others := SlotUsers(s) - {w};
    assert SlotUsers(s) == if UsesSlot(s.workers[w]) then others + {w} else others;
    assert SlotUsers(s') == if UsesSlot(s'.workers[w]) then others + {w} else others;
  }

  /** A worker asking for a slot finds one free: at most all the others hold one. */
  lemma SlotFree(c: LlmSettings, s: LlmState, w: Worker)
    requires SlotsOk(c, s) && w in s.workers && !UsesSlot(s.workers[w])
    ensures s.active < c.slots
  {
    assert |s.workers| == |s.workers.Keys|;
    SW.Fewer(SlotUsers(s), s.workers.Keys, w);
  }

  // ---------------------------------------------------------- steps of one worker

  /** Worker `w` moves on; only request `r`, which it holds or takes off the queue, may change. */
  ghost predicate Moves(s: LlmState, s': LlmState, w: Worker, r: Rid) {
    && w in s.workers && w in s'.workers && s'.workers == s.workers[w := s'.workers[w]]
    && s'.now == s.now && s'.draining == s.draining && s'.reqs.Keys == s.reqs.Keys
    && r in s.reqs && (s.reqs[r].place.Queued? || s.reqs[r].place == With(w))
    && s'.reqs[r].request == s.reqs[r].request && s'.reqs[r].deadline == s.reqs[r].deadline
    && (forall q :: q in s.reqs && q != r ==> s'.reqs[q] == s.reqs[q])
    && (Held(s.workers[w]) == Some(r) || Held(s.workers[w]).None?)
    && (s'.queue == s.queue || (s.queue != [] && r == s.queue[0] && s'.queue == Without(s.queue, 0)))
    && (s.reqs[r].place.Queued? ==> s'.queue != s.queue)
  }

  ghost predicate SamePool(s: LlmState, s': LlmState, w: Worker) {
    && |s'.pool.inflight| == |s.pool.inflight|
    && (forall u :: u in s.pool.running && u != w ==> u in s'.pool.running && s'.pool.running[u] == s.pool.running[u])
  }

  lemma OthersOk(c: LlmSettings, s: LlmState, s': LlmState, w: Worker, r: Rid, u: Worker)
    requires Moves(s, s', w, r) && SamePool(s, s', w) && u in s.workers && u != w && WorkerOk(c, s, u)
    ensures u in s'.workers && WorkerOk(c, s', u)
  {
  }

  lemma RequestsOk(c: LlmSettings, s: LlmState, s': LlmState, w: Worker, r: Rid, q: Rid)
    requires Moves(s, s', w, r) && q in s.reqs && q != r && Placed(s, q) && PromiseOk(c, s.now, s.reqs[q])
    ensures Placed(s', q) && PromiseOk(c, s'.now, s'.reqs[q])
  {
    if s.reqs[q].place.Queued? && s'.queue != s.queue {
      SW.WithoutFacts(s.queue, 0);
    }
  }

  lemma MovedQueue(c: LlmSettings, s: LlmState, s': LlmState, w: Worker, r: Rid)
    requires Moves(s, s', w, r) && QueueOk(c, s) && DrainOk(s) && !s'.workers[w].Gone?
    ensures QueueOk(c, s') && DrainOk(s')
  {
    if s'.queue != s.queue {
      SW.WithoutFacts(s.queue, 0);
    }
  }

  lemma MovedIdlePool(s: LlmState, s': LlmState, w: Worker, r: Rid)
    requires Moves(s, s', w, r) && PoolOk(s) && s'.pool == s.pool && !s.workers[w].Decoding? && !s'.workers[w].Decoding?
    ensures PoolOk(s') && SamePool(s, s', w)
  {
    assert s'.workers.Keys == s.workers.Keys;
  }

  lemma MovedSlots(c: LlmSettings, s: LlmState, s': LlmState, w: Worker, r: Rid)
    requires Moves(s, s', w, r) && SlotsOk(c, s)
    requires s'.active == s.active + (if UsesSlot(s'.workers[w]) then 1 else 0) - (if UsesSlot(s.workers[w]) then 1 else 0)
    ensures SlotsOk(c, s')
  {
    SlotTaken(s, s', w);
    assert s'.workers.Keys == s.workers.Keys;
    assert |s'.workers| == |s'.workers.Keys| && |s.workers| == |s.workers.Keys|;
  }

  lemma MovedKeeps(c: LlmSettings, s: LlmState, s': LlmState, w: Worker, r: Rid)
    requires Inv(c, s) && Moves(s, s', w, r) && SamePool(s, s', w) && PoolOk(s') && SlotsOk(c, s') && !s'.workers[w].Gone?
    requires WorkerOk(c, s', w) && Placed(s', r) && PromiseOk(c, s'.now, s'.reqs[r])
    ensures Inv(c, s')
  {
    MovedQueue(c, s, s', w, r);
    forall u | u in s'.workers ensures WorkerOk(c, s', u) {
      if u != w {
        OthersOk(c, s, s', w, r, u);
      }
    }
    forall q | q in s'.reqs ensures Placed(s', q) && PromiseOk(c, s'.now, s'.reqs[q]) {
      if q != r {
        RequestsOk(c, s, s', w, r, q);
      }
    }
  }

  // -------------------------------------------------------- steps of the clients

  lemma TickInv(c: LlmSettings, s: LlmState, elapsed: nat)
    requires Inv(c, s)
    ensures Inv(c, LlmTicked(s, elapsed))
  {
    var s' := LlmTicked(s, elapsed);
    assert SlotUsers(s') == SlotUsers(s);
    assert forall r :: r in s'.reqs ==> PromiseOk(c, s.now, s.reqs[r]) && Placed(s, r);
    assert forall w :: w in s'.workers ==> WorkerOk(c, s, w);
  }

  lemma StopInv(c: LlmSettings, s: LlmState)
    requires Inv(c, s)
    ensures Inv(c, LlmStopped(s))
  {
    var s' := LlmStopped(s);
    assert SlotUsers(s') == SlotUsers(s);
    assert forall r :: r in s'.reqs ==> PromiseOk(c, s.now, s.reqs[r]) && Placed(s, r);
    assert forall w :: w in s'.workers ==> WorkerOk(c, s, w);
  }

  /** A new request appears, queued or refused. */
  ghost predicate Appears(s: LlmState, s': LlmState, r: Rid, p: Pending) {
    && r !in s.reqs && s' == PutRequest(s.(queue := if p.place.Queued? then s.queue + [r] else s.queue), r, p)
    && (p.place.Queued? || p.place.Done?)
  }

  lemma AppearedShared(c: LlmSettings, s: LlmState, s': LlmState, r: Rid, p: Pending)
    requires Shared(c, s) && Appears(s, s', r, p) && (p.place.Queued? ==> !s.draining && |s.queue| < c.maxQueue)
    ensures Shared(c, s')
  {
    assert SlotUsers(s') == SlotUsers(s);
  }

  lemma AppearedWorker(c: LlmSettings, s: LlmState, s': LlmState, r: Rid, p: Pending, w: Worker)
    requires Appears(s, s', r, p) && w in s.workers && WorkerOk(c, s, w)
    ensures WorkerOk(c, s', w)
  {
  }

  lemma AppearedRequest(c: LlmSettings, s: LlmState, s': LlmState, r: Rid, p: Pending, q: Rid)
    requires Appears(s, s', r, p) && q in s.reqs && Placed(s, q) && PromiseOk(c, s.now, s.reqs[q])
    ensures Placed(s', q) && PromiseOk(c, s'.now, s'.reqs[q])
  {
  }

  lemma AppearedInv(c: LlmSettings, s: LlmState, s': LlmState, r: Rid, p: Pending)
    requires Inv(c, s) && Appears(s, s', r, p) && PromiseOk(c, s.now, p)
    requires p.place.Queued? ==> !s.draining && |s.queue| < c.maxQueue
    ensures Inv(c, s')
  {
    AppearedShared(c, s, s', r, p);
    forall w | w in s'.workers ensures WorkerOk(c, s', w) {
      AppearedWorker(c, s, s', r, p, w);
    }
    forall q | q in s'.reqs ensures Placed(s', q) && PromiseOk(c, s'.now, s'.reqs[q]) {
      if q != r {
        AppearedRequest(c, s, s', r, p, q);
      }
    }
  }

  lemma SubmittedAppears(c: LlmSettings, s: LlmState, r: Rid, request: Request, at: int, seen: nat, s': LlmState) returns (p: Pending)
    requires r !in s.reqs && s' == LlmSubmitted(c, s, r, request, at, seen)
    ensures Appears(s, s', r, p) && PromiseOk(c, s.now, p) && (p.place.Queued? ==> !s.draining && |s.queue| < c.maxQueue)
  {
    p := s'.reqs[r];
  }

  lemma SubmittedInv(c: LlmSettings, s: LlmState, r: Rid, request: Request, at: int, seen: nat)
    requires Inv(c, s) && r !in s.reqs
    ensures Inv(c, LlmSubmitted(c, s, r, request, at, seen))
  {
    var s' := LlmSubmitted(c, s, r, request, at, seen);
    var p := SubmittedAppears(c, s, r, request, at, seen, s');
    AppearedInv(c, s, s', r, p);
  }

  lemma ReturnedInv(c: LlmSettings, s: LlmState, r: Rid)
    requires Inv(c, s) && r in s.reqs && s.reqs[r].returned.None? && (s.reqs[r].promise.Some? || s.now >= s.reqs[r].deadline)
    ensures Inv(c, LlmReturned(s, r))
  {
    var s' := LlmReturned(s, r);
    assert SlotUsers(s') == SlotUsers(s);
    assert forall w :: w in s'.workers ==> WorkerOk(c, s, w);
    forall q | q in s'.reqs ensures Placed(s', q) && PromiseOk(c, s'.now, s'.reqs[q]) {
      assert Placed(s, q) && PromiseOk(c, s.now, s.reqs[q]);
    }
  }

  lemma ExitInv(c: LlmSettings, s: LlmState, w: Worker)
    requires Inv(c, s) && w in s.workers && s.workers[w].Idle? && s.queue == [] && s.draining
    ensures Inv(c, Move(s, w, Gone))
  {
    var s' := Move(s, w, Gone);
    SlotTaken(s, s', w);
    assert s'.workers.Keys == s.workers.Keys;
    assert |s'.workers| == |s'.workers.Keys| && |s.workers| == |s.workers.Keys|;
    forall u | u in s'.workers ensures WorkerOk(c, s', u) {
      assert WorkerOk(c, s, u);
    }
    forall q | q in s'.reqs ensures Placed(s', q) && PromiseOk(c, s'.now, s'.reqs[q]) {
      assert Placed(s, q) && PromiseOk(c, s.now, s.reqs[q]);
    }
  }

  /** Once every worker has been joined there is nothing to reject. */
  lemma RejectInv(c: LlmSettings, s: LlmState)
    requires Inv(c, s) && forall w :: w in s.workers ==> s.workers[w].Gone?
    ensures s.queue == [] && LlmRejectedAll(s) == s
  {
    var w :| w in s.workers;
    assert LlmRejectedAll(s).reqs == s.reqs;
  }

  // -------------------------------------------------------- steps of the workers

  lemma PoppedInv(c: LlmSettings, s: LlmState, w: Worker)
    requires Inv(c, s) && w in s.workers && s.workers[w].Idle? && s.queue != [] && s.queue[0] in s.reqs
    ensures Inv(c, LlmPopped(s, w))
  {
    var s', r := LlmPopped(s, w), s.queue[0];
    assert r in s.queue && PromiseOk(c, s.now, s.reqs[r]);
    assert Moves(s, s', w, r);
    MovedIdlePool(s, s', w, r);
    MovedSlots(c, s, s', w, r);
    MovedKeeps(c, s, s', w, r);
  }

  /** A worker moves on with its request untouched, neither into nor out of an inference. */
  lemma WentInv(c: LlmSettings, s: LlmState, w: Worker, r: Rid, active: nat, next: LlmPc)
    requires Inv(c, s) && w in s.workers && Held(s.workers[w]) == Some(r) && Held(next) == Some(r)
    requires !s.workers[w].Decoding? && !next.Decoding? && r in s.reqs
    requires active == s.active + (if UsesSlot(next) then 1 else 0) - (if UsesSlot(s.workers[w]) then 1 else 0)
    requires next.Releasing? || next.Answering? ==> Right(c, s.reqs[r].request, next.answer)
    ensures Inv(c, Move(s.(active := active), w, next))
  {
    var s' := Move(s.(active := active), w, next);
    assert WorkerOk(c, s, w) && Placed(s, r) && PromiseOk(c, s.now, s.reqs[r]);
    assert Moves(s, s', w, r);
    MovedIdlePool(s, s', w, r);
    MovedSlots(c, s, s', w, r);
    MovedKeeps(c, s, s', w, r);
  }

  /** A worker lets go of its request, answered or past its deadline. */
  lemma LetGoInv(c: LlmSettings, s: LlmState, w: Worker, r: Rid, p: Pending)
    requires Inv(c, s) && w in s.workers && Held(s.workers[w]) == Some(r) && r in s.reqs
    requires !s.workers[w].Decoding? && !UsesSlot(s.workers[w])
    requires p.place == Done && PromiseOk(c, s.now, p) && p.request == s.reqs[r].request && p.deadline == s.reqs[r].deadline
    ensures Inv(c, Move(PutRequest(s, r, p), w, Idle))
  {
    var s' := Move(PutRequest(s, r, p), w, Idle);
    assert WorkerOk(c, s, w);
    assert Moves(s, s', w, r);
    MovedIdlePool(s, s', w, r);
    MovedSlots(c, s, s', w, r);
    MovedKeeps(c, s, s', w, r);
  }

  lemma HeldPromise(c: LlmSettings, s: LlmState, w: Worker, r: Rid)
    requires Inv(c, s) && w in s.workers && Held(s.workers[w]) == Some(r)
    ensures r in s.reqs && s.reqs[r].place == With(w) && s.reqs[r].sets == 0 && PromiseOk(c, s.now, s.reqs[r])
  {
    assert WorkerOk(c, s, w);
  }

  lemma CheckedInv(c: LlmSettings, s: LlmState, w: Worker, r: Rid, saw: bool)
    requires Inv(c, s) && w in s.workers && s.workers[w] == Holding(r) && r in s.reqs && (saw ==> s.reqs[r].cancelled)
    ensures Inv(c, Checked(s, w, r, saw))
  {
    HeldPromise(c, s, w, r);
    if saw {
      LetGoInv(c, s, w, r, s.reqs[r].(place := Done));
    } else {
      var next := if s.now >= s.reqs[r].deadline then Answering(r, Timeout) else Asking(r);
      WentInv(c, s, w, r, s.active, next);
      assert Checked(s, w, r, saw) == Move(s.(active := s.active), w, next);
    }
  }

  lemma AcquiredInv(c: LlmSettings, s: LlmState, w: Worker, r: Rid)
    requires Inv(c, s) && w in s.workers && s.workers[w] == Asking(r) && r in s.reqs
    ensures Inv(c, Acquired(c, s, w, r))
  {
    if !s.draining && s.active < c.slots {
      WentInv(c, s, w, r, s.active + 1, Owning(r));
    } else {
      WentInv(c, s, w, r, s.active, Answering(r, Timeout));
      assert Acquired(c, s, w, r) == Move(s.(active := s.active), w, Answering(r, Timeout));
    }
  }

  /** A worker holding a slot finds the counter positive, so giving it back never wraps. */
  lemma SlotHeld(c: LlmSettings, s: LlmState, w: Worker)
    requires SlotsOk(c, s) && w in s.workers && UsesSlot(s.workers[w])
    ensures s.active > 0
  {
    assert w in SlotUsers(s);
  }

  lemma SlotlessInv(c: LlmSettings, s: LlmState, w: Worker, r: Rid, v: Result)
    requires Inv(c, s) && w in s.workers && (s.workers[w].Owning? || s.workers[w].Releasing?) && s.workers[w].r == r && r in s.reqs
    requires Right(c, s.reqs[r].request, v)
    ensures Inv(c, Slotless(s, w, Answering(r, v)))
  {
    SlotHeld(c, s, w);
    WentInv(c, s, w, r, s.active - 1, Answering(r, v));
  }

  lemma StartedInv(c: LlmSettings, s: LlmState, w: Worker, r: Rid)
    requires Inv(c, s) && w in s.workers && s.workers[w] == Owning(r) && r in s.reqs && s.pool.inflight != []
    ensures Inv(c, Move(s.(pool := Chosen(s.pool, w)), w, Decoding(r)))
  {
    var s' := Move(s.(pool := Chosen(s.pool, w)), w, Decoding(r));
    HeldPromise(c, s, w, r);
    StartedPool(s, w, s');
    assert Moves(s, s', w, r);
    MovedSlots(c, s, s', w, r);
    MovedKeeps(c, s, s', w, r);
  }

  lemma StartedPool(s: LlmState, w: Worker, s': LlmState)
    requires PoolOk(s) && w in s.workers && !s.workers[w].Decoding?
    requires s'.pool == Chosen(s.pool, w) && w in s'.workers && s'.workers == s.workers[w := s'.workers[w]] && s'.workers[w].Decoding?
    ensures PoolOk(s') && SamePool(s, s', w)
  {
    assert |s.workers| == |s.workers.Keys| && |s.pool.running| == |s.pool.running.Keys|;
    SW.Fewer(s.pool.running.Keys, s.workers.Keys, w);
    ChosenKeeps(s.pool, w, |s.workers|);
    assert s'.workers.Keys == s.workers.Keys;
    assert |s'.workers| == |s'.workers.Keys|;
  }

  lemma LaunchedInv(c: LlmSettings, s: LlmState, w: Worker, r: Rid)
    requires Inv(c, s) && w in s.workers && s.workers[w] == Owning(r) && r in s.reqs && s.pool.inflight != []
    ensures Inv(c, Launched(s, w, r))
  {
    if s.draining {
      SlotlessInv(c, s, w, r, Draining);
    } else if s.now >= s.reqs[r].deadline {
      SlotlessInv(c, s, w, r, Timeout);
    } else {
      StartedInv(c, s, w, r);
    }
  }

  lemma FreedPool(s: LlmState, w: Worker, s': LlmState)
    requires PoolOk(s) && w in s.workers && s.workers[w].Decoding?
    requires w in s.pool.running && s.pool.running[w] < |s.pool.inflight| && s'.pool == Freed(s.pool, w)
    requires w in s'.workers && s'.workers == s.workers[w := s'.workers[w]] && !s'.workers[w].Decoding?
    ensures PoolOk(s') && SamePool(s, s', w)
  {
    FreedKeeps(s.pool, w, |s.workers|);
    assert s'.workers.Keys == s.workers.Keys;
    assert |s'.workers| == |s'.workers.Keys| && |s.workers| == |s.workers.Keys|;
  }

  lemma DecodedInv(c: LlmSettings, s: LlmState, w: Worker, r: Rid, stopped: bool)
    requires Inv(c, s) && w in s.workers && s.workers[w] == Decoding(r) && r in s.reqs
    requires w in s.pool.running && s.pool.running[w] < |s.pool.inflight|
    ensures Inv(c, Decoded(c, s, w, r, stopped))
  {
    var s' := Decoded(c, s, w, r, stopped);
    HeldPromise(c, s, w, r);
    FreedPool(s, w, s');
    assert Moves(s, s', w, r);
    MovedSlots(c, s, s', w, r);
    MovedKeeps(c, s, s', w, r);
  }

  lemma AnsweredInv(c: LlmSettings, s: LlmState, w: Worker, r: Rid, v: Result, saw: bool)
    requires Inv(c, s) && w in s.workers && s.workers[w] == Answering(r, v) && r in s.reqs && (saw ==> s.reqs[r].cancelled)
    ensures Inv(c, LlmAnswered(s, w, r, v, saw))
  {
    HeldPromise(c, s, w, r);
    assert WorkerOk(c, s, w);
    LetGoInv(c, s, w, r, Fulfil(s.reqs[r], v, saw).(place := Done));
  }

  /** Every step of every submitter, worker and drainer keeps the invariant. */
  lemma InvStep(c: LlmSettings, s: LlmState, a: LlmAction)
    requires Inv(c, s) && Enabled(c, s, a)
    ensures Inv(c, Next(c, s, a))
  {
    match a
    case Tick(elapsed) => TickInv(c, s, elapsed);
    case Submit(r, request, at, seen) => SubmittedInv(c, s, r, request, at, seen);
    case Return(r) => ReturnedInv(c, s, r);
    case Stop => StopInv(c, s);
    case Pop(w) => PoppedInv(c, s, w);
    case Exit(w) => ExitInv(c, s, w);
    case Check(w, saw) => CheckedInv(c, s, w, s.workers[w].r, saw);
    case Acquire(w) => AcquiredInv(c, s, w, s.workers[w].r);
    case Launch(w) => LaunchedInv(c, s, w, s.workers[w].r);
    case Decode(w, stopped) => DecodedInv(c, s, w, s.workers[w].r, stopped);
    case Release(w) => SlotlessInv(c, s, w, s.workers[w].r, s.workers[w].answer);
    case Answer(w, saw) => AnsweredInv(c, s, w, s.workers[w].r, s.workers[w].answer, saw);
    case RejectQueue => RejectInv(c, s);
  }
}
