/** The scheduler's invariant, kept by every step. */
module SchedulerProtocol {
  import opened Wrappers
  import opened Tensors
  import opened BatchCompatibility
  import opened DynamicBatcher
  import opened ExecutorPool
  import opened BatchMeaning
  import opened SplitTheorems
  import opened SchedulerSteps

  datatype Action =
    | Tick(elapsed: nat)
    | Submit(r: Rid, request: Request, at: int)
    | Return(r: Rid)
    | Stop
    | Pop(w: Worker)
    | Exit(w: Worker)
    | DropCancelled(w: Worker, i: nat)
    | Expire(w: Worker, i: nat)
    | AnswerExpired(w: Worker, saw: bool)
    | Take(w: Worker, i: nat)
    | EndForming(w: Worker)
    | Sweep(w: Worker, saw: bool)
    | Filter(w: Worker, saw: bool)
    | Start(w: Worker, saw: bool)
    | Run(w: Worker)
    | Finish(w: Worker, saw: bool)
    | RejectQueue

  /** Every request id a worker mentions. */
  function Mentioned(pc: Pc): set<Rid> {
    match pc
    case Popping => {}
    case Forming(batch, _) => set r | r in batch
    case Expiring(batch, _, expired) => (set r | r in batch) + {expired}
    case Sweeping(batch, _, _) => set r | r in batch
    case Filtering(batch, _, active) => (set r | r in batch) + (set r | r in active)
    case Starting(active) => set r | r in active
    case Running(active) => set r | r in active
    case Finishing(active, _, _) => set r | r in active
    case Exited => {}
  }

  /** Ids refer to requests and indices are in range; part of the invariant, so no reachable state is excluded. */
  predicate Closed(s: State) {
    && (forall r :: r in s.queue ==> r in s.reqs)
    && (forall w :: w in s.workers ==> ClosedPc(s, w))
    && s.pool.inflight != []
  }

  predicate ClosedPc(s: State, w: Worker)
    requires w in s.workers
  {
    var pc := s.workers[w];
    && Mentioned(pc) <= s.reqs.Keys
    && (pc.Forming? || pc.Expiring? ==> pc.batch != [])
    && (pc.Sweeping? || pc.Filtering? ==> pc.i <= |pc.batch|)
    && (pc.Finishing? ==> pc.i <= |pc.active| == |pc.replies|)
    && (pc.Running? ==> pc.active != [] && w in s.pool.running && s.pool.running[w] < |s.pool.inflight|)
  }

  predicate SawTruly(s: State, rids: seq<Rid>, i: nat, saw: bool) {
    saw ==> i < |rids| && rids[i] in s.reqs && s.reqs[rids[i]].cancelled
  }

  predicate Enabled(c: Settings, s: State, a: Action) {
    Closed(s) &&
    match a
    case Tick(_) => true
    case Submit(r, request, at) => r !in s.reqs && Admissible(request) && at <= s.now
    case Return(r) => r in s.reqs && s.reqs[r].returned.None? && (s.reqs[r].promise.Some? || s.now >= s.reqs[r].deadline)
    case Stop => true
    case Pop(w) => w in s.workers && s.workers[w].Popping? && s.queue != []
    case Exit(w) => w in s.workers && s.workers[w].Popping? && s.queue == [] && s.draining
    case DropCancelled(w, i) =>
      && w in s.workers && s.workers[w].Forming? && CanGrow(c, s, s.workers[w].batch)
      && i < |s.queue| && ScansTo(c, s, s.workers[w].batch, i) && s.reqs[s.queue[i]].cancelled
    case Expire(w, i) =>
      && w in s.workers && s.workers[w].Forming? && CanGrow(c, s, s.workers[w].batch)
      && i < |s.queue| && ScansTo(c, s, s.workers[w].batch, i) && s.now >= s.reqs[s.queue[i]].deadline
    case AnswerExpired(w, saw) =>
      w in s.workers && s.workers[w].Expiring? && (saw ==> s.reqs[s.workers[w].expired].cancelled)
    case Take(w, i) =>
      && w in s.workers && s.workers[w].Forming? && CanGrow(c, s, s.workers[w].batch)
      && i < |s.queue| && ScansTo(c, s, s.workers[w].batch, i)
      && s.now < s.reqs[s.queue[i]].deadline && Takes(c, s, s.workers[w].batch, s.queue[i])
    case EndForming(w) =>
      && w in s.workers && s.workers[w].Forming?
      && (!CanGrow(c, s, s.workers[w].batch) || s.draining || s.now >= s.workers[w].until)
    case Sweep(w, saw) => w in s.workers && s.workers[w].Sweeping? && SawTruly(s, s.workers[w].batch, s.workers[w].i, saw)
    case Filter(w, saw) => w in s.workers && s.workers[w].Filtering? && SawTruly(s, s.workers[w].batch, s.workers[w].i, saw)
    case Start(w, saw) => w in s.workers && s.workers[w].Starting? && SawTruly(s, s.workers[w].active, 0, saw)
    case Run(w) => w in s.workers && s.workers[w].Running?
    case Finish(w, saw) => w in s.workers && s.workers[w].Finishing? && SawTruly(s, s.workers[w].active, s.workers[w].i, saw)
    case RejectQueue => s.draining && forall w :: w in s.workers ==> s.workers[w].Exited?
  }

  function Next(c: Settings, s: State, a: Action): State
    requires Enabled(c, s, a)
  {
    match a
    case Tick(elapsed) => Ticked(s, elapsed)
    case Submit(r, request, at) => Submitted(c, s, r, request, at)
    case Return(r) => Returned(s, r)
    case Stop => Stopped(s)
    case Pop(w) => Popped(c, s, w)
    case Exit(w) => Goto(s, w, Exited)
    case DropCancelled(w, i) => Dropped(s, i)
    case Expire(w, i) => TakenOut(s, w, i, Expiring(s.workers[w].batch, s.workers[w].until, s.queue[i]))
    case AnswerExpired(w, saw) =>
      var pc := s.workers[w];
      Answered(s, w, pc.expired, Timeout, saw, Forming(pc.batch, pc.until))
    case Take(w, i) => TakenOut(s, w, i, Forming(s.workers[w].batch + [s.queue[i]], s.workers[w].until))
    case EndForming(w) => Goto(s, w, Sweeping(s.workers[w].batch, 0, s.now))
    case Sweep(w, saw) => var pc := s.workers[w]; Swept(s, w, pc.batch, pc.i, pc.at, saw)
    case Filter(w, saw) => var pc := s.workers[w]; Filtered(s, w, pc.batch, pc.i, pc.active, saw)
    case Start(w, saw) => Started(s, w, s.workers[w].active, saw)
    case Run(w) => Ran(c, s, w, s.workers[w].active)
    case Finish(w, saw) => var pc := s.workers[w]; Finished(s, w, pc.active, pc.replies, pc.i, saw)
    case RejectQueue => RejectedAll(s)
  }

  // --------------------------------------------------------------- invariant

  /** The requests a worker still owes an answer or a decision. */
  function Hand(pc: Pc): seq<Rid> {
    match pc
    case Popping => []
    case Forming(batch, _) => batch
    case Expiring(batch, _, expired) => batch + [expired]
    case Sweeping(batch, _, _) => batch
    case Filtering(batch, i, active) => if i <= |batch| then active + batch[i..] else active
    case Starting(active) => active
    case Running(active) => active
    case Finishing(active, _, i) => if i <= |active| then active[i..] else []
    case Exited => []
  }

  predicate NoDuplicates<T(==)>(xs: seq<T>) {
    forall i, j :: 0 <= i < j < |xs| ==> xs[i] != xs[j]
  }

  predicate Held(s: State, w: Worker, r: Rid) {
    r in s.reqs && s.reqs[r].place == With(w)
  }

  predicate Unset(s: State, r: Rid) {
    r in s.reqs && s.reqs[r].sets == 0
  }

  /** Answered already, and expired, so the next look at the clock leaves it out. */
  predicate UnsetOrExpired(s: State, r: Rid, at: int) {
    r in s.reqs && (s.reqs[r].sets == 0 || at >= s.reqs[r].deadline)
  }

  /** Requests that can run as one batch. */
  predicate Kin(c: Settings, s: State, h: seq<Rid>) {
    && (forall r :: r in h ==> r in s.reqs)
    && (|h| > 1 ==>
          && c.batching && Dimension(s, h) <= c.maxBatch
          && forall r, q :: r in h && q in h ==> SameKind(s.reqs[r].request, s.reqs[q].request))
  }

  /** The executor works row by row, and the batcher can hand out its answers, with byte counts that fit. */
  ghost predicate RowWise(c: Settings, e: RowExecutor) {
    && Implements(c.infer, e)
    && forall q :: Shareable(e, q) && OutputsFit(e, q, c.maxBatch)
  }

  ghost predicate IsRowWise(c: Settings) {
    exists e :: RowWise(c, e)
  }

  /** What request `k` of a list that was run together gets: the executor's answer if it ran alone, else its share of the batched answer. */
  ghost predicate ShareOf(c: Settings, requests: seq<Request>, k: nat, response: Response) {
    && k < |requests|
    && if |requests| == 1 then response == c.infer(requests[0])
       else
         && c.batching && Formed(requests) && Sum(SizesOf(requests)) <= c.maxBatch
         && MergeSpec(requests).Merged? && |MergeSpec(requests).sizes| == |requests|
         && response == SplitOne(c.infer(MergeSpec(requests).request), MergeSpec(requests).sizes, k)
  }

  /** The response is what some run of the executor gave for the request. */
  ghost predicate Answers(c: Settings, request: Request, response: Response) {
    exists requests, k: nat :: ShareOf(c, requests, k, response) && requests[k] == request
  }

  /** An answer fit for a request: a timeout once it is late, or what the executor gave for it. */
  ghost predicate RightAnswer(c: Settings, request: Request, late: bool, v: Result) {
    (v.Timeout? && late) || (v.Reply? && Answers(c, request, v.response))
  }

  predicate Late(now: int, p: Pending) {
    now >= p.deadline
  }

  /** The worker holds each request of its hand once, and nobody else does. */
  predicate HandOk(s: State, w: Worker)
    requires w in s.workers
  {
    var pc := s.workers[w];
    && ClosedPc(s, w)
    && NoDuplicates(Hand(pc))
    && (forall r :: r in Hand(pc) ==> Held(s, w, r))
  }

  /** The requests a worker has chosen to run together can run together. */
  predicate KinOk(c: Settings, s: State, w: Worker)
    requires w in s.workers
  {
    var pc := s.workers[w];
    && (pc.Expiring? ==> Kin(c, s, pc.batch))
    && (pc.Forming? || pc.Sweeping? || pc.Filtering? || pc.Starting? || pc.Running? ==> Kin(c, s, Hand(pc)))
  }

  /** No request the worker will answer has been answered, and one it took out as expired is. */
  predicate SetsOk(s: State, w: Worker)
    requires w in s.workers
  {
    var pc := s.workers[w];
    && (pc.Forming? || pc.Expiring? || pc.Starting? || pc.Running? || pc.Finishing? ==> forall r :: r in Hand(pc) ==> Unset(s, r))
    && (pc.Expiring? ==> pc.expired in s.reqs && Late(s.now, s.reqs[pc.expired]))
    && (pc.Sweeping? ==>
          && pc.i <= |pc.batch| && pc.at <= s.now
          && (forall k :: 0 <= k < pc.i ==> UnsetOrExpired(s, pc.batch[k], pc.at))
          && (forall k :: pc.i <= k < |pc.batch| ==> Unset(s, pc.batch[k])))
    && (pc.Filtering? ==>
          && pc.i <= |pc.batch|
          && (forall r :: r in pc.active ==> Unset(s, r))
          && (forall k :: pc.i <= k < |pc.batch| ==> UnsetOrExpired(s, pc.batch[k], s.now)))
  }

  ghost predicate ReplyOk(c: Settings, s: State, r: Rid, v: Result)
    requires r in s.reqs
  {
    RightAnswer(c, s.reqs[r].request, Late(s.now, s.reqs[r]), v)
  }

  /** The answers a worker is about to give are right. */
  ghost predicate AnswersOk(c: Settings, s: State, w: Worker)
    requires w in s.workers
  {
    var pc := s.workers[w];
    pc.Finishing? ==>
      && |pc.replies| == |pc.active|
      && forall k :: 0 <= k < |pc.active| ==> pc.active[k] in s.reqs && ReplyOk(c, s, pc.active[k], pc.replies[k])
  }

  ghost predicate WorkerOk(c: Settings, s: State, w: Worker)
    requires w in s.workers
  {
    HandOk(s, w) && KinOk(c, s, w) && SetsOk(s, w) && AnswersOk(c, s, w)
  }

  /** Where the books say a request is, it is. */
  predicate Placed(s: State, r: Rid)
    requires r in s.reqs
  {
    match s.reqs[r].place
    case Queued => r in s.queue
    case With(w) => w in s.workers && r in Hand(s.workers[w])
    case Done => true
  }

  predicate Refused(p: Pending) {
    p.place.Done? && p.sets == 0 && (p.returned == Some(Draining) || p.returned == Some(Overloaded))
  }

  /**
   * The promise was set at most once, with a right answer; the submitter got that answer, a timeout or
   * a refusal; and a request let go of unanswered was refused or is past its deadline.
   */
  ghost predicate PromiseOk(c: Settings, now: int, p: Pending) {
    && Admissible(p.request)
    && p.sets <= 1 && (p.promise.Some? <==> p.sets == 1)
    && (p.promise.Some? ==> RightAnswer(c, p.request, Late(now, p), p.promise.value))
    && (p.place.Queued? ==> p.sets == 0)
    && (p.returned.Some? ==>
          || (p.returned.value.Timeout? && Late(now, p))
          || p.returned == p.promise
          || Refused(p))
    && (p.cancelled ==> Late(now, p))
    && (p.place.Done? && p.sets == 0 ==> Refused(p) || Late(now, p))
  }

  predicate QueueOk(c: Settings, s: State) {
    && NoDuplicates(s.queue)
    && |s.queue| <= c.maxQueue
    && (forall r :: r in s.queue ==> r in s.reqs && s.reqs[r].place.Queued?)
  }

  ghost predicate PoolOk(s: State) {
    && Balanced(s.pool, |s.workers|)
    && s.pool.running.Keys <= s.workers.Keys
    && (forall w :: w in s.workers ==> (w in s.pool.running <==> s.workers[w].Running?))
  }

  /** Once a worker has left, the queue is empty and stays so. */
  ghost predicate DrainOk(s: State) {
    forall w :: w in s.workers && s.workers[w].Exited? ==> s.draining && s.queue == []
  }

  ghost predicate Inv(c: Settings, s: State) {
    && c.maxBatch < HALF && s.workers.Keys != {}
    && (forall w :: w in s.workers ==> WorkerOk(c, s, w))
    && (forall r :: r in s.reqs ==> Placed(s, r) && PromiseOk(c, s.now, s.reqs[r]))
    && QueueOk(c, s) && PoolOk(s) && DrainOk(s)
  }

  // ------------------------------------------------------------------ frames
  //
  // A step is one worker's, or nobody's. What it leaves alone is stated in `Local` and `Calm`;
  // `Assemble` carries the invariant of everything else across.

  predicate SameRequest(s: State, s': State, r: Rid) {
    r in s.reqs ==> r in s'.reqs && s'.reqs[r].request == s.reqs[r].request && s'.reqs[r].deadline == s.reqs[r].deadline
  }

  predicate SameProgress(s: State, s': State, r: Rid) {
    r in s.reqs ==>
      SameRequest(s, s', r) && s'.reqs[r].sets == s.reqs[r].sets && s'.reqs[r].place == s.reqs[r].place
  }

  predicate SameWorker(s: State, s': State, u: Worker) {
    u in s.workers ==>
      && u in s'.workers && s'.workers[u] == s.workers[u]
      && (u in s.pool.running ==> u in s'.pool.running && s'.pool.running[u] == s.pool.running[u])
  }

  ghost predicate Local(s: State, s': State, w: Option<Worker>) {
    && s'.workers.Keys == s.workers.Keys
    && |s'.pool.inflight| == |s.pool.inflight|
    && s.now <= s'.now
    && (forall u: Worker :: Some(u) != w ==> SameWorker(s, s', u))
    && (forall r :: SameRequest(s, s', r))
    && (forall r :: r in s.reqs && s.reqs[r].place.With? && Some(s.reqs[r].place.w) != w ==> SameProgress(s, s', r))
  }

  predicate Calm(s: State, s': State, r: Rid)
    requires r in s.reqs
  {
    r in s'.reqs && s'.reqs[r] == s.reqs[r] && (Placed(s, r) ==> Placed(s', r))
  }

  /** What a step by worker `w` that changes only the requests `touched` has to show. */
  ghost predicate StepOk(c: Settings, s: State, s': State, w: Option<Worker>, touched: set<Rid>) {
    && Local(s, s', w)
    && (w.Some? ==> w.value in s'.workers && WorkerOk(c, s', w.value))
    && s'.reqs.Keys <= s.reqs.Keys + touched
    && (forall r :: r in s.reqs && r !in touched ==> Calm(s, s', r))
    && (forall r :: r in touched && r in s'.reqs ==> Placed(s', r) && PromiseOk(c, s'.now, s'.reqs[r]))
    && QueueOk(c, s') && PoolOk(s') && DrainOk(s')
  }

  lemma RequestsFrame(s: State, s': State, h: seq<Rid>)
    requires forall r :: r in h ==> r in s.reqs && r in s'.reqs && SameRequest(s, s', r)
    ensures RequestsOf(s', h) == RequestsOf(s, h)
  {
  }

  lemma SameKinds(c: Settings, s: State, s': State, h: seq<Rid>)
    requires Kin(c, s, h) && forall r :: r in h ==> SameRequest(s, s', r)
    ensures Kin(c, s', h)
  {
    RequestsFrame(s, s', h);
  }

  /** Nothing happened to a worker or to the requests it mentions or holds. */
  ghost predicate Bystander(s: State, s': State, u: Worker) {
    && u in s.workers && SameWorker(s, s', u)
    && |s'.pool.inflight| == |s.pool.inflight| && s.now <= s'.now
    && (forall r :: r in Mentioned(s.workers[u]) ==> r in s.reqs && SameRequest(s, s', r))
    && (forall r :: r in Hand(s.workers[u]) ==> r in s.reqs && SameProgress(s, s', r) && Held(s', u, r))
  }

  lemma KinFrame(c: Settings, s: State, s': State, u: Worker)
    requires Bystander(s, s', u) && KinOk(c, s, u)
    ensures KinOk(c, s', u)
  {
    var pc := s.workers[u];
    if pc.Expiring? {
      SameKinds(c, s, s', pc.batch);
    } else if pc.Forming? || pc.Sweeping? || pc.Filtering? || pc.Starting? || pc.Running? {
      SameKinds(c, s, s', Hand(pc));
    }
  }

  lemma SetsFrame(s: State, s': State, u: Worker)
    requires Bystander(s, s', u) && SetsOk(s, u) && ClosedPc(s, u)
    ensures SetsOk(s', u)
  {
    var pc := s.workers[u];
    if pc.Sweeping? {
      assert forall k :: 0 <= k < |pc.batch| ==> pc.batch[k] in Hand(pc);
    } else if pc.Filtering? {
      assert forall k :: pc.i <= k < |pc.batch| ==> pc.batch[k] == Hand(pc)[|pc.active| + k - pc.i];
      assert forall r :: r in pc.active ==> r in Hand(pc);
    }
  }

  lemma AnswersFrame(c: Settings, s: State, s': State, u: Worker)
    requires Bystander(s, s', u) && AnswersOk(c, s, u)
    ensures AnswersOk(c, s', u)
  {
    var pc := s.workers[u];
    if pc.Finishing? {
      assert forall k :: 0 <= k < |pc.active| ==> pc.active[k] in Mentioned(pc);
    }
  }

  lemma WorkerFrame(c: Settings, s: State, s': State, w: Option<Worker>, u: Worker)
    requires u in s.workers && Some(u) != w && WorkerOk(c, s, u) && Local(s, s', w)
    ensures WorkerOk(c, s', u)
  {
    var pc := s.workers[u];
    assert SameWorker(s, s', u);
    forall r | r in Mentioned(pc) ensures r in s.reqs && r in s'.reqs && SameRequest(s, s', r) {
      assert r in s.reqs.Keys;
      assert SameRequest(s, s', r);
    }
    forall r | r in Hand(pc) ensures SameProgress(s, s', r) && Held(s', u, r) {
      assert Held(s, u, r);
    }
    KinFrame(c, s, s', u);
    SetsFrame(s, s', u);
    AnswersFrame(c, s, s', u);
  }

  lemma Assemble(c: Settings, s: State, s': State, w: Option<Worker>, touched: set<Rid>)
    requires Inv(c, s) && StepOk(c, s, s', w, touched)
    ensures Inv(c, s')
  {
    forall u | u in s'.workers ensures WorkerOk(c, s', u) {
      if Some(u) != w {
        WorkerFrame(c, s, s', w, u);
      }
    }
    forall r | r in s'.reqs ensures Placed(s', r) && PromiseOk(c, s'.now, s'.reqs[r]) {
      if r !in touched {
        assert Placed(s, r) && PromiseOk(c, s.now, s.reqs[r]) && Calm(s, s', r);
      }
    }
  }

  // -------------------------------------------------------------- the steps

  ghost predicate Shared(c: Settings, s: State) {
    QueueOk(c, s) && PoolOk(s) && DrainOk(s)
  }

  lemma TickKeeps(c: Settings, s: State, elapsed: nat)
    requires Shared(c, s)
    ensures StepOk(c, s, Ticked(s, elapsed), None, {})
  {
  }

  lemma StopKeeps(c: Settings, s: State)
    requires Shared(c, s)
    ensures StepOk(c, s, Stopped(s), None, {})
  {
  }

  lemma SubmittedQueue(c: Settings, s: State, r: Rid, request: Request, at: int)
    requires QueueOk(c, s) && r !in s.reqs
    ensures QueueOk(c, Submitted(c, s, r, request, at))
  {
  }

  lemma SubmittedLocal(c: Settings, s: State, r: Rid, request: Request, at: int)
    requires r !in s.reqs
    ensures Local(s, Submitted(c, s, r, request, at), None)
  {
  }

  lemma SubmittedCalm(c: Settings, s: State, r: Rid, request: Request, at: int, q: Rid)
    requires r !in s.reqs && q in s.reqs
    ensures Calm(s, Submitted(c, s, r, request, at), q)
  {
    assert forall x :: x in s.queue ==> x in Submitted(c, s, r, request, at).queue;
  }

  lemma SubmittedNew(c: Settings, s: State, r: Rid, request: Request, at: int)
    requires r !in s.reqs && Admissible(request)
    ensures var s' := Submitted(c, s, r, request, at); Placed(s', r) && PromiseOk(c, s'.now, s'.reqs[r])
  {
  }

  lemma SubmittedShared(c: Settings, s: State, r: Rid, request: Request, at: int)
    requires PoolOk(s) && DrainOk(s) && r !in s.reqs
    ensures var s' := Submitted(c, s, r, request, at); PoolOk(s') && DrainOk(s')
  {
  }

  lemma SubmittedKeeps(c: Settings, s: State, r: Rid, request: Request, at: int)
    requires Shared(c, s) && r !in s.reqs && Admissible(request)
    ensures StepOk(c, s, Submitted(c, s, r, request, at), None, {r})
  {
    SubmittedQueue(c, s, r, request, at);
    SubmittedLocal(c, s, r, request, at);
    SubmittedShared(c, s, r, request, at);
    SubmittedNew(c, s, r, request, at);
    forall q | q in s.reqs ensures Calm(s, Submitted(c, s, r, request, at), q) {
      SubmittedCalm(c, s, r, request, at, q);
    }
  }

  lemma ReturnedLocal(s: State, r: Rid)
    requires r in s.reqs
    ensures Local(s, Returned(s, r), None)
  {
  }

  lemma ReturnedSettles(c: Settings, s: State, r: Rid)
    requires r in s.reqs && Placed(s, r) && PromiseOk(c, s.now, s.reqs[r])
    requires s.reqs[r].returned.None? && (s.reqs[r].promise.Some? || s.now >= s.reqs[r].deadline)
    ensures Placed(Returned(s, r), r) && PromiseOk(c, s.now, Returned(s, r).reqs[r])
  {
  }

  lemma ReturnedKeeps(c: Settings, s: State, r: Rid)
    requires Shared(c, s) && r in s.reqs && Placed(s, r) && PromiseOk(c, s.now, s.reqs[r])
    requires s.reqs[r].returned.None? && (s.reqs[r].promise.Some? || s.now >= s.reqs[r].deadline)
    ensures StepOk(c, s, Returned(s, r), None, {r})
  {
    ReturnedLocal(s, r);
    ReturnedSettles(c, s, r);
    forall q | q in s.reqs && q != r ensures Calm(s, Returned(s, r), q) {
    }
  }

  // ----------------------------------------------------------- worker steps
  //
  // Every other step moves one worker on and changes only requests it holds or takes off the queue.

  ghost predicate Moves(s: State, s': State, w: Worker, touched: set<Rid>) {
    && w in s.workers && w in s'.workers && s'.workers == s.workers[w := s'.workers[w]]
    && s'.now == s.now && s'.draining == s.draining && s'.reqs.Keys == s.reqs.Keys
    && (forall r :: r in touched ==> r in s.reqs && SameRequest(s, s', r) && (s.reqs[r].place.With? ==> s.reqs[r].place.w == w))
    && (forall r :: r in s.reqs && r !in touched ==> s'.reqs[r] == s.reqs[r])
    && (forall r :: r in s.queue && r !in touched ==> r in s'.queue)
    && (forall r :: r in Hand(s.workers[w]) && r !in touched ==> r in Hand(s'.workers[w]))
  }

  predicate QueueShrinks(s: State, s': State, touched: set<Rid>) {
    && (NoDuplicates(s.queue) ==> NoDuplicates(s'.queue))
    && |s'.queue| <= |s.queue|
    && (forall r :: r in s'.queue ==> r in s.queue && r !in touched)
  }

  ghost predicate SamePool(s: State, s': State, w: Worker) {
    && |s'.pool.inflight| == |s.pool.inflight|
    && (forall u :: u in s.pool.running && u != w ==> u in s'.pool.running && s'.pool.running[u] == s.pool.running[u])
  }

  lemma MovesLocal(s: State, s': State, w: Worker, touched: set<Rid>)
    requires Moves(s, s', w, touched) && SamePool(s, s', w)
    ensures Local(s, s', Some(w))
  {
  }

  lemma MovesCalm(s: State, s': State, w: Worker, touched: set<Rid>, r: Rid)
    requires Moves(s, s', w, touched) && r in s.reqs && r !in touched
    ensures Calm(s, s', r)
  {
  }

  lemma MovesQueue(c: Settings, s: State, s': State, w: Worker, touched: set<Rid>)
    requires Moves(s, s', w, touched) && QueueShrinks(s, s', touched) && QueueOk(c, s)
    ensures QueueOk(c, s')
  {
  }

  lemma MovesDrain(s: State, s': State, w: Worker, touched: set<Rid>)
    requires Moves(s, s', w, touched) && QueueShrinks(s, s', touched) && DrainOk(s) && !s'.workers[w].Exited?
    ensures DrainOk(s')
  {
  }

  lemma MovesPool(s: State, s': State, w: Worker, touched: set<Rid>)
    requires Moves(s, s', w, touched) && PoolOk(s) && s'.pool == s.pool && !s.workers[w].Running? && !s'.workers[w].Running?
    ensures PoolOk(s') && SamePool(s, s', w)
  {
    assert s'.workers.Keys == s.workers.Keys;
  }

  ghost predicate Settled(c: Settings, s': State, touched: set<Rid>) {
    forall r :: r in touched && r in s'.reqs ==> Placed(s', r) && PromiseOk(c, s'.now, s'.reqs[r])
  }

  lemma MovesKeeps(c: Settings, s: State, s': State, w: Worker, touched: set<Rid>)
    requires Moves(s, s', w, touched) && QueueShrinks(s, s', touched)
    requires Shared(c, s) && SamePool(s, s', w) && PoolOk(s') && !s'.workers[w].Exited?
    requires WorkerOk(c, s', w) && Settled(c, s', touched)
    ensures StepOk(c, s, s', Some(w), touched)
  {
    MovesLocal(s, s', w, touched);
    MovesQueue(c, s, s', w, touched);
    MovesDrain(s, s', w, touched);
    forall r | r in s.reqs && r !in touched ensures Calm(s, s', r) {
      MovesCalm(s, s', w, touched, r);
    }
  }

  lemma ExitDrained(s: State, w: Worker, s': State)
    requires w in s.workers && s' == Goto(s, w, Exited) && s.queue == [] && s.draining
    ensures DrainOk(s')
  {
  }

  lemma ExitedWorker(c: Settings, s: State, w: Worker, s': State)
    requires w in s.workers && s' == Goto(s, w, Exited)
    ensures w in s'.workers && WorkerOk(c, s', w)
  {
  }

  lemma ExitMoves(s: State, w: Worker, s': State)
    requires w in s.workers && s.workers[w].Popping? && s' == Goto(s, w, Exited)
    ensures Moves(s, s', w, {}) && QueueShrinks(s, s', {})
  {
  }

  lemma ExitKeeps(c: Settings, s: State, w: Worker)
    requires Shared(c, s) && w in s.workers && s.workers[w].Popping? && s.queue == [] && s.draining
    ensures StepOk(c, s, Goto(s, w, Exited), Some(w), {})
  {
    var s' := Goto(s, w, Exited);
    ExitMoves(s, w, s');
    ExitDrained(s, w, s');
    ExitedWorker(c, s, w, s');
    MovesPool(s, s', w, {});
    MovesLocal(s, s', w, {});
    MovesQueue(c, s, s', w, {});
    forall r | r in s.reqs ensures Calm(s, s', r) {
      MovesCalm(s, s', w, {}, r);
    }
  }
}
