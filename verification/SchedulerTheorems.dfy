/** What every run of the tensor scheduler does, for any number of submitters, workers and executors. */
module SchedulerTheorems {
  import opened Wrappers
  import opened Tensors
  import opened BatchCompatibility
  import opened DynamicBatcher
  import opened ExecutorPool
  import opened BatchMeaning
  import opened SplitTheorems
  import opened SchedulerSteps
  import opened SchedulerProtocol
  import opened SchedulerWorkers

  // ------------------------------------------------------------ one step

  lemma TickInv(c: Settings, s: State, elapsed: nat)
    requires Inv(c, s)
    ensures Inv(c, Ticked(s, elapsed))
  {
    TickKeeps(c, s, elapsed);
    Assemble(c, s, Ticked(s, elapsed), None, {});
  }

  lemma StopInv(c: Settings, s: State)
    requires Inv(c, s)
    ensures Inv(c, Stopped(s))
  {
    StopKeeps(c, s);
    Assemble(c, s, Stopped(s), None, {});
  }

  lemma SubmittedInv(c: Settings, s: State, r: Rid, request: Request, at: int)
    requires Inv(c, s) && r !in s.reqs && Admissible(request)
    ensures Inv(c, Submitted(c, s, r, request, at))
  {
    SubmittedKeeps(c, s, r, request, at);
    Assemble(c, s, Submitted(c, s, r, request, at), None, {r});
  }

  lemma ReturnedInv(c: Settings, s: State, r: Rid)
    requires Inv(c, s) && r in s.reqs && s.reqs[r].returned.None?
    requires s.reqs[r].promise.Some? || s.now >= s.reqs[r].deadline
    ensures Inv(c, Returned(s, r))
  {
    ReturnedKeeps(c, s, r);
    Assemble(c, s, Returned(s, r), None, {r});
  }

  lemma ExitInv(c: Settings, s: State, w: Worker)
    requires Inv(c, s) && w in s.workers && s.workers[w].Popping? && s.queue == [] && s.draining
    ensures Inv(c, Goto(s, w, Exited))
  {
    ExitKeeps(c, s, w);
    Assemble(c, s, Goto(s, w, Exited), Some(w), {});
  }

  lemma PoppedInv(c: Settings, s: State, w: Worker)
    requires Inv(c, s) && w in s.workers && s.workers[w].Popping? && s.queue != [] && s.queue[0] in s.reqs
    ensures Inv(c, Popped(c, s, w))
  {
    PoppedKeeps(c, s, w);
    Assemble(c, s, Popped(c, s, w), Some(w), {s.queue[0]});
  }

  lemma DroppedInv(c: Settings, s: State, w: Worker, i: nat)
    requires Inv(c, s) && w in s.workers && s.workers[w].Forming? && i < |s.queue| && s.queue[i] in s.reqs
    requires s.reqs[s.queue[i]].cancelled
    ensures Inv(c, Dropped(s, i))
  {
    DroppedKeeps(c, s, w, i);
    Assemble(c, s, Dropped(s, i), Some(w), {s.queue[i]});
  }

  lemma ExpiredInv(c: Settings, s: State, w: Worker, i: nat, next: Pc)
    requires Inv(c, s) && w in s.workers && s.workers[w].Forming? && i < |s.queue| && s.queue[i] in s.reqs
    requires next == Expiring(s.workers[w].batch, s.workers[w].until, s.queue[i]) && Late(s.now, s.reqs[s.queue[i]])
    ensures Inv(c, TakenOut(s, w, i, next))
  {
    ExpiredKeeps(c, s, w, i);
    Assemble(c, s, TakenOut(s, w, i, next), Some(w), {s.queue[i]});
  }

  lemma TookInv(c: Settings, s: State, w: Worker, i: nat, next: Pc)
    requires Inv(c, s) && w in s.workers && s.workers[w].Forming? && i < |s.queue| && s.queue[i] in s.reqs
    requires s.workers[w].batch != [] && forall r :: r in s.workers[w].batch ==> r in s.reqs
    requires c.batching && Takes(c, s, s.workers[w].batch, s.queue[i])
    requires next == Forming(s.workers[w].batch + [s.queue[i]], s.workers[w].until)
    ensures Inv(c, TakenOut(s, w, i, next))
  {
    var r := s.queue[i];
    InHand(c, s, w, s.workers[w].batch[0]);
    TakesOneKind(c, s, s.workers[w].batch, r);
    TookKeeps(c, s, w, i);
    Assemble(c, s, TakenOut(s, w, i, next), Some(w), {r});
  }

  lemma AnsweredExpiredInv(c: Settings, s: State, w: Worker, saw: bool)
    requires Inv(c, s) && w in s.workers && s.workers[w].Expiring? && s.workers[w].expired in s.reqs
    requires saw ==> s.reqs[s.workers[w].expired].cancelled
    ensures var pc := s.workers[w]; Inv(c, Answered(s, w, pc.expired, Timeout, saw, Forming(pc.batch, pc.until)))
  {
    var pc := s.workers[w];
    assert Hand(pc)[|pc.batch|] == pc.expired;
    InHand(c, s, w, pc.expired);
    AnsweredExpiredKeeps(c, s, w, saw);
    Assemble(c, s, Answered(s, w, pc.expired, Timeout, saw, Forming(pc.batch, pc.until)), Some(w), {pc.expired});
  }

  lemma EndFormingInv(c: Settings, s: State, w: Worker)
    requires Inv(c, s) && w in s.workers && s.workers[w].Forming?
    ensures Inv(c, Goto(s, w, Sweeping(s.workers[w].batch, 0, s.now)))
  {
    EndFormingKeeps(c, s, w);
    Assemble(c, s, Goto(s, w, Sweeping(s.workers[w].batch, 0, s.now)), Some(w), {});
  }

  /** Once the drainer has joined every worker, nobody is left in the queue to reject. */
  lemma RejectInv(c: Settings, s: State)
    requires Inv(c, s) && forall w :: w in s.workers ==> s.workers[w].Exited?
    ensures s.queue == [] && RejectedAll(s) == s
  {
    var w :| w in s.workers;
    NothingToReject(s, w);
  }

  lemma ClientInvStep(c: Settings, s: State, a: Action)
    requires Inv(c, s) && Enabled(c, s, a) && (a.Tick? || a.Submit? || a.Return? || a.Stop?)
    ensures Inv(c, Next(c, s, a))
  {
    match a
    case Tick(elapsed) => TickInv(c, s, elapsed);
    case Submit(r, request, at) => SubmittedInv(c, s, r, request, at);
    case Return(r) => ReturnedInv(c, s, r);
    case Stop => StopInv(c, s);
  }

  lemma RejectInvStep(c: Settings, s: State)
    requires Inv(c, s) && Enabled(c, s, RejectQueue)
    ensures Next(c, s, RejectQueue) == s
  {
    RejectInv(c, s);
  }

  lemma FormInvStep(c: Settings, s: State, a: Action)
    requires Inv(c, s) && Enabled(c, s, a) && !(a.Sweep? || a.Filter? || a.Start? || a.Run? || a.Finish?)
    requires !(a.Tick? || a.Submit? || a.Return? || a.Stop? || a.RejectQueue?)
    ensures Inv(c, Next(c, s, a))
  {
    match a
    case Pop(w) => PoppedInv(c, s, w);
    case Exit(w) => ExitInv(c, s, w);
    case DropCancelled(w, i) => DroppedInv(c, s, w, i);
    case Expire(w, i) => ExpiredInv(c, s, w, i, Expiring(s.workers[w].batch, s.workers[w].until, s.queue[i]));
    case AnswerExpired(w, saw) => AnsweredExpiredInv(c, s, w, saw);
    case Take(w, i) => TookInv(c, s, w, i, Forming(s.workers[w].batch + [s.queue[i]], s.workers[w].until));
    case EndForming(w) => EndFormingInv(c, s, w);
  }

  lemma RunInvStep(c: Settings, s: State, a: Action)
    requires Inv(c, s) && Enabled(c, s, a) && (a.Sweep? || a.Filter? || a.Start? || a.Run? || a.Finish?)
    ensures Inv(c, Next(c, s, a))
  {
    match a
    case Sweep(w, saw) => SweptInv(c, s, w, saw);
    case Filter(w, saw) => FilteredInv(c, s, w, saw);
    case Start(w, saw) => StartedInv(c, s, w, saw);
    case Run(w) => RanInv(c, s, w);
    case Finish(w, saw) => FinishedInv(c, s, w, saw);
  }

  /** Every step of every submitter, worker and drainer keeps the invariant. */
  lemma InvStep(c: Settings, s: State, a: Action)
    requires Inv(c, s) && Enabled(c, s, a)
    ensures Inv(c, Next(c, s, a))
  {
    if a.RejectQueue? {
      RejectInvStep(c, s);
    } else if a.Tick? || a.Submit? || a.Return? || a.Stop? {
      ClientInvStep(c, s, a);
    } else if a.Sweep? || a.Filter? || a.Start? || a.Run? || a.Finish? {
      RunInvStep(c, s, a);
    } else {
      FormInvStep(c, s, a);
    }
  }

  // -------------------------------------------------------------- whole runs

  /** A scheduler just built: idle workers, idle executors, nothing submitted. */
  ghost predicate Initial(c: Settings, s: State) {
    && c.maxBatch < HALF && s.workers.Keys != {} && s.pool.inflight != []
    && s.queue == [] && s.reqs == map[] && !s.draining
    && (forall w :: w in s.workers ==> s.workers[w].Popping?)
    && s.pool.running == map[] && (forall i :: 0 <= i < |s.pool.inflight| ==> s.pool.inflight[i] == 0)
  }

  ghost predicate IsRun(c: Settings, states: seq<State>, actions: seq<Action>) {
    && |states| == |actions| + 1
    && Initial(c, states[0])
    && forall i :: 0 <= i < |actions| ==> StepAt(c, states, actions, i)
  }

  ghost predicate StepAt(c: Settings, states: seq<State>, actions: seq<Action>, i: nat)
    requires i < |actions| && |states| == |actions| + 1
  {
    Enabled(c, states[i], actions[i]) && states[i + 1] == Next(c, states[i], actions[i])
  }

  lemma {:induction false} ZerosSum(ns: seq<nat>)
    requires forall i :: 0 <= i < |ns| ==> ns[i] == 0
    ensures Sum(ns) == 0
  {
    if ns != [] {
      ZerosSum(ns[..|ns| - 1]);
    }
  }

  lemma InitialPool(s: State)
    requires s.pool.inflight != [] && s.pool.running == map[]
    requires forall i :: 0 <= i < |s.pool.inflight| ==> s.pool.inflight[i] == 0
    requires forall w :: w in s.workers ==> s.workers[w].Popping?
    ensures PoolOk(s)
  {
    ZerosSum(s.pool.inflight);
    forall i | 0 <= i < |s.pool.inflight| ensures CountsExecutor(s.pool, i) {
      assert On(s.pool, i) == {};
    }
  }

  lemma InitialInv(c: Settings, s: State)
    requires Initial(c, s)
    ensures Inv(c, s)
  {
    InitialPool(s);
  }

  lemma RunStep(c: Settings, states: seq<State>, actions: seq<Action>, k: nat)
    requires IsRun(c, states, actions) && 0 < k < |states|
    ensures Steps(c, states[k - 1], actions[k - 1], states[k])
  {
    assert StepAt(c, states, actions, k - 1);
  }

  ghost predicate Steps(c: Settings, s: State, a: Action, s': State) {
    Enabled(c, s, a) && s' == Next(c, s, a)
  }

  lemma InvCarries(c: Settings, s: State, a: Action, s': State)
    requires Steps(c, s, a, s') && Inv(c, s)
    ensures Inv(c, s')
  {
    InvStep(c, s, a);
  }

  /** What holds at the start and is kept by every step holds throughout a run. */
  lemma {:induction false} RunInduction(c: Settings, states: seq<State>, actions: seq<Action>, P: State -> bool, k: nat)
    requires IsRun(c, states, actions) && k < |states| && P(states[0])
    requires forall s, a, s' :: Steps(c, s, a, s') && P(s) ==> P(s')
    ensures P(states[k])
    decreases k
  {
    if k > 0 {
      RunInduction(c, states, actions, P, k - 1);
      RunStep(c, states, actions, k);
    }
  }

  lemma InvAlways(c: Settings, states: seq<State>, actions: seq<Action>, k: nat)
    requires IsRun(c, states, actions) && k < |states|
    ensures Inv(c, states[k])
  {
    InitialInv(c, states[0]);
    forall s, a, s' | Steps(c, s, a, s') && Inv(c, s) ensures Inv(c, s') {
      InvCarries(c, s, a, s');
    }
    RunInduction(c, states, actions, s => Inv(c, s), k);
  }

  /** The side condition of every step, that ids and indices are in range, holds throughout: it excludes no step of any run. */
  lemma AlwaysClosed(c: Settings, states: seq<State>, actions: seq<Action>, k: nat)
    requires IsRun(c, states, actions) && k < |states|
    ensures Closed(states[k])
  {
    InvAlways(c, states, actions, k);
  }

  // ------------------------------------------------------- who holds a request

  predicate InHandOf(s: State, w: Worker, r: Rid) {
    w in s.workers && r in Hand(s.workers[w])
  }

  /**
   * At any moment a request is in the queue once, in one worker's hand once, or finished; and a finished one
   * was answered, was refused by `submit`, or is past its deadline, where its submitter stops waiting by itself.
   */
  lemma ExactlyOnePlace(c: Settings, states: seq<State>, actions: seq<Action>, k: nat, r: Rid)
    requires IsRun(c, states, actions) && k < |states| && r in states[k].reqs
    ensures var s := states[k];
      && NoDuplicates(s.queue) && (forall w :: w in s.workers ==> NoDuplicates(Hand(s.workers[w])))
      && (r in s.queue ==> forall w: Worker :: !InHandOf(s, w, r))
      && (forall v, w :: InHandOf(s, v, r) && InHandOf(s, w, r) ==> v == w)
      && (r !in s.queue && (forall w: Worker :: !InHandOf(s, w, r)) ==>
            s.reqs[r].promise.Some? || Refused(s.reqs[r]) || s.now >= s.reqs[r].deadline)
  {
    InvAlways(c, states, actions, k);
    PlaceFacts(c, states[k], r);
  }

  lemma PlaceFacts(c: Settings, s: State, r: Rid)
    requires Inv(c, s) && r in s.reqs
    ensures r in s.queue <==> s.reqs[r].place.Queued?
    ensures forall w :: InHandOf(s, w, r) <==> s.reqs[r].place == With(w)
    ensures forall w :: w in s.workers ==> NoDuplicates(Hand(s.workers[w]))
    ensures s.reqs[r].place.Done? ==> s.reqs[r].promise.Some? || Refused(s.reqs[r]) || s.now >= s.reqs[r].deadline
  {
    assert Placed(s, r) && PromiseOk(c, s.now, s.reqs[r]);
    forall w | InHandOf(s, w, r) ensures s.reqs[r].place == With(w) {
      InHand(c, s, w, r);
    }
    forall w | w in s.workers ensures NoDuplicates(Hand(s.workers[w])) {
      assert WorkerOk(c, s, w);
    }
  }

  // ------------------------------------------------------------ one answer each

  /**
   * What any step may do to a request: set its promise once more, or record what a submitter that had not returned got,
   * which is the promise's value if there is one.
   */
  predicate Ages(p: Pending, p': Pending) {
    && p'.request == p.request && p'.deadline == p.deadline
    && ((p'.promise == p.promise && p'.sets == p.sets) || p'.sets == p.sets + 1)
    && (p.returned.Some? ==> p'.returned == p.returned)
    && (p.returned.None? && p'.returned.Some? ==> p'.returned == if p.promise.Some? then p.promise else Some(Timeout))
  }

  /** What any step keeps of the whole scheduler. */
  ghost predicate Evolves(s: State, s': State) {
    && s'.workers.Keys == s.workers.Keys && |s'.pool.inflight| == |s.pool.inflight|
    && (forall w :: w in s.workers && s.workers[w].Exited? ==> s'.workers[w].Exited?)
    && (forall r :: r in s.reqs ==> r in s'.reqs && Ages(s.reqs[r], s'.reqs[r]))
  }

  lemma ClientEvolves(c: Settings, s: State, a: Action)
    requires Enabled(c, s, a) && (a.Tick? || a.Submit? || a.Return? || a.Stop? || a.RejectQueue?)
    ensures Evolves(s, Next(c, s, a))
  {
  }

  lemma TakenEvolves(s: State, w: Worker, i: nat, pc: Pc)
    requires w in s.workers && !s.workers[w].Exited? && i < |s.queue| && s.queue[i] in s.reqs
    ensures Evolves(s, TakenOut(s, w, i, pc)) && Evolves(s, Dropped(s, i))
  {
  }

  lemma WentEvolves(s: State, w: Worker, pool: PoolState, pc: Pc)
    requires w in s.workers && !s.workers[w].Exited? && |pool.inflight| == |s.pool.inflight|
    ensures Evolves(s, Goto(s.(pool := pool), w, pc))
  {
  }

  lemma HandledEvolves(s: State, w: Worker, r: Rid, p: Pending, pc: Pc)
    requires w in s.workers && !s.workers[w].Exited? && r in s.reqs && Ages(s.reqs[r], p)
    ensures Evolves(s, Handled(s, w, r, p, pc))
  {
  }

  lemma AnsweredEvolves(s: State, w: Worker, r: Rid, v: Result, saw: bool, pc: Pc)
    requires w in s.workers && !s.workers[w].Exited? && r in s.reqs
    ensures Evolves(s, Answered(s, w, r, v, saw, pc))
  {
    HandledEvolves(s, w, r, Fulfil(s.reqs[r], v, saw).(place := Done), pc);
  }

  lemma FormEvolves(c: Settings, s: State, a: Action)
    requires Enabled(c, s, a)
    requires a.Pop? || a.Exit? || a.DropCancelled? || a.Expire? || a.Take? || a.AnswerExpired? || a.EndForming?
    ensures Evolves(s, Next(c, s, a))
  {
    match a
    case Pop(w) => TakenEvolves(s, w, 0, Forming([s.queue[0]], s.now + c.maxDelay));
    case Exit(w) => WentEvolves(s, w, s.pool, Exited);
    case DropCancelled(w, i) => TakenEvolves(s, w, i, Popping);
    case Expire(w, i) => TakenEvolves(s, w, i, Expiring(s.workers[w].batch, s.workers[w].until, s.queue[i]));
    case AnswerExpired(w, saw) =>
      AnsweredEvolves(s, w, s.workers[w].expired, Timeout, saw, Forming(s.workers[w].batch, s.workers[w].until));
    case Take(w, i) => TakenEvolves(s, w, i, Forming(s.workers[w].batch + [s.queue[i]], s.workers[w].until));
    case EndForming(w) => WentEvolves(s, w, s.pool, Sweeping(s.workers[w].batch, 0, s.now));
  }

  lemma SweptEvolves(s: State, w: Worker, batch: seq<Rid>, i: nat, at: int, saw: bool)
    requires w in s.workers && !s.workers[w].Exited? && i <= |batch| && forall r :: r in batch ==> r in s.reqs
    ensures Evolves(s, Swept(s, w, batch, i, at, saw))
  {
    WentEvolves(s, w, s.pool, Swept(s, w, batch, i, at, saw).workers[w]);
    if i < |batch| {
      HandledEvolves(s, w, batch[i], Fulfil(s.reqs[batch[i]], Timeout, false), Sweeping(batch, i + 1, at));
    }
  }

  lemma FilteredEvolves(s: State, w: Worker, batch: seq<Rid>, i: nat, active: seq<Rid>, saw: bool)
    requires w in s.workers && !s.workers[w].Exited? && i <= |batch| && forall r :: r in batch ==> r in s.reqs
    ensures Evolves(s, Filtered(s, w, batch, i, active, saw))
  {
    WentEvolves(s, w, s.pool, Filtered(s, w, batch, i, active, saw).workers[w]);
    if i < |batch| {
      HandledEvolves(s, w, batch[i], s.reqs[batch[i]].(place := Done), Filtering(batch, i + 1, active));
    }
  }

  lemma StartedEvolves(s: State, w: Worker, active: seq<Rid>, saw: bool)
    requires w in s.workers && !s.workers[w].Exited? && s.pool.inflight != [] && forall r :: r in active ==> r in s.reqs
    ensures Evolves(s, Started(s, w, active, saw))
  {
    var s' := Started(s, w, active, saw);
    if |active| == 1 && (saw || s.now >= s.reqs[active[0]].deadline) {
      AnsweredEvolves(s, w, active[0], Timeout, saw, Popping);
    } else {
      WentEvolves(s, w, s'.pool, s'.workers[w]);
    }
  }

  lemma FinishedEvolves(s: State, w: Worker, active: seq<Rid>, replies: seq<Result>, i: nat, saw: bool)
    requires w in s.workers && !s.workers[w].Exited? && i <= |active| == |replies| && forall r :: r in active ==> r in s.reqs
    ensures Evolves(s, Finished(s, w, active, replies, i, saw))
  {
    WentEvolves(s, w, s.pool, Popping);
    if i < |active| {
      AnsweredEvolves(s, w, active[i], replies[i], saw, Finishing(active, replies, i + 1));
    }
  }

  lemma ProcessEvolves(c: Settings, s: State, a: Action)
    requires Enabled(c, s, a) && (a.Sweep? || a.Filter? || a.Start? || a.Run? || a.Finish?)
    ensures Evolves(s, Next(c, s, a))
  {
    var pc := s.workers[a.w];
    assert ClosedPc(s, a.w);
    match a
    case Sweep(w, saw) => SweptEvolves(s, w, pc.batch, pc.i, pc.at, saw);
    case Filter(w, saw) => FilteredEvolves(s, w, pc.batch, pc.i, pc.active, saw);
    case Start(w, saw) => StartedEvolves(s, w, pc.active, saw);
    case Run(w) => WentEvolves(s, w, Freed(s.pool, w), Next(c, s, a).workers[w]);
    case Finish(w, saw) => FinishedEvolves(s, w, pc.active, pc.replies, pc.i, saw);
  }

  lemma StepEvolves(c: Settings, s: State, a: Action)
    requires Enabled(c, s, a)
    ensures Evolves(s, Next(c, s, a))
  {
    if a.Tick? || a.Submit? || a.Return? || a.Stop? || a.RejectQueue? {
      ClientEvolves(c, s, a);
    } else if a.Sweep? || a.Filter? || a.Start? || a.Run? || a.Finish? {
      ProcessEvolves(c, s, a);
    } else {
      FormEvolves(c, s, a);
    }
  }

  lemma RunEvolves(c: Settings, states: seq<State>, actions: seq<Action>, k: nat)
    requires IsRun(c, states, actions) && 0 < k < |states|
    ensures Evolves(states[k - 1], states[k])
  {
    RunStep(c, states, actions, k);
    StepEvolves(c, states[k - 1], actions[k - 1]);
  }

  lemma Promise(c: Settings, states: seq<State>, actions: seq<Action>, k: nat, r: Rid)
    requires IsRun(c, states, actions) && k < |states| && r in states[k].reqs
    ensures PromiseOk(c, states[k].now, states[k].reqs[r])
  {
    InvAlways(c, states, actions, k);
  }

  /** A promise is set at most once in a run and keeps its value; a submitter returns at most once. */
  lemma {:induction false} AnsweredOnce(c: Settings, states: seq<State>, actions: seq<Action>, i: nat, j: nat, r: Rid)
    requires IsRun(c, states, actions) && i <= j < |states| && r in states[i].reqs
    ensures r in states[j].reqs && states[j].reqs[r].sets <= 1
    ensures states[i].reqs[r].promise.Some? ==> states[j].reqs[r].promise == states[i].reqs[r].promise
    ensures states[i].reqs[r].returned.Some? ==> states[j].reqs[r].returned == states[i].reqs[r].returned
    decreases j
  {
    if i < j {
      AnsweredOnce(c, states, actions, i, j - 1, r);
      RunEvolves(c, states, actions, j);
      Promise(c, states, actions, j - 1, r);
    }
    Promise(c, states, actions, j, r);
  }

  /** A submitter still waiting when its promise is set returns that value, whenever it returns. */
  lemma {:induction false} AnswerDelivered(c: Settings, states: seq<State>, actions: seq<Action>, i: nat, j: nat, r: Rid)
    requires IsRun(c, states, actions) && i <= j < |states| && r in states[i].reqs
    requires states[i].reqs[r].promise.Some? && states[i].reqs[r].returned.None?
    ensures r in states[j].reqs && states[j].reqs[r].promise == states[i].reqs[r].promise
    ensures states[j].reqs[r].returned.Some? ==> states[j].reqs[r].returned == states[i].reqs[r].promise
    decreases j
  {
    AnsweredOnce(c, states, actions, i, j, r);
    if i < j {
      AnswerDelivered(c, states, actions, i, j - 1, r);
      RunEvolves(c, states, actions, j);
    }
  }

  /**
   * A submitter gets its promise's value, a timeout at or after its deadline, or, if it was never queued, a refusal. The promise's value
   * is a timeout at or after the deadline or an executor's reply, never a merge failure. A reply is the executor's answer to the request
   * alone or its share of a batch that fits; it is the answer to the request alone from a row-wise executor, and from any executor if
   * batching is off.
   */
  lemma RightAnswers(c: Settings, states: seq<State>, actions: seq<Action>, k: nat, r: Rid)
    requires IsRun(c, states, actions) && k < |states| && r in states[k].reqs
    ensures var s, p := states[k], states[k].reqs[r];
      && (p.returned.Some? ==> (p.returned == Some(Timeout) && s.now >= p.deadline) || p.returned == p.promise || Refused(p))
      && (p.promise.Some? ==> (p.promise.value.Timeout? && s.now >= p.deadline) || p.promise.value.Reply?)
      && (p.promise.Some? && p.promise.value.Reply? ==> Answers(c, p.request, p.promise.value.response))
      && (p.promise.Some? && p.promise.value.Reply? && (IsRowWise(c) || !c.batching) ==> p.promise.value.response == c.infer(p.request))
  {
    Promise(c, states, actions, k, r);
    var p := states[k].reqs[r];
    if p.promise.Some? && p.promise.value.Reply? && IsRowWise(c) {
      RowWiseAnswers(c, p.request, p.promise.value.response);
    }
  }

  /** Nobody is told of a timeout early: neither by the promise nor by what `submit` returns. */
  lemma NoEarlyTimeout(c: Settings, states: seq<State>, actions: seq<Action>, k: nat, r: Rid)
    requires IsRun(c, states, actions) && k < |states| && r in states[k].reqs && states[k].now < states[k].reqs[r].deadline
    ensures states[k].reqs[r].promise != Some(Timeout) && states[k].reqs[r].returned != Some(Timeout) && !states[k].reqs[r].cancelled
  {
    Promise(c, states, actions, k, r);
  }

  // ----------------------------------------------------------- batches and queue

  /** A batch of several requests inside an inference fits `max_batch_size` and merged without error. */
  lemma BatchesFit(c: Settings, states: seq<State>, actions: seq<Action>, k: nat, w: Worker)
    requires IsRun(c, states, actions) && k < |states|
    requires w in states[k].workers && states[k].workers[w].Running? && |states[k].workers[w].active| > 1
    ensures var s := states[k]; var active := s.workers[w].active;
      && (forall r :: r in active ==> r in s.reqs)
      && Dimension(s, active) <= c.maxBatch && Merge(s, active).Merged?
      && forall r, q :: r in active && q in active ==> Compatible(s.reqs[r].request, s.reqs[q].request)
  {
    InvAlways(c, states, actions, k);
    var s, active := states[k], states[k].workers[w].active;
    forall r | r in active ensures r in s.reqs && Admissible(s.reqs[r].request) {
      InHand(c, s, w, r);
    }
    assert WorkerOk(c, s, w);
    KinFormed(c, s, active);
    FormedMerges(RequestsOf(s, active));
    forall r, q | r in active && q in active ensures Compatible(s.reqs[r].request, s.reqs[q].request) {
      CompatibleIsSameKind(s.reqs[r].request, s.reqs[q].request);
    }
  }

  lemma QueueBounded(c: Settings, states: seq<State>, actions: seq<Action>, k: nat)
    requires IsRun(c, states, actions) && k < |states|
    ensures |states[k].queue| <= c.maxQueue
  {
    InvAlways(c, states, actions, k);
  }

  // -------------------------------------------------------------------- drain

  lemma Drained(c: Settings, states: seq<State>, actions: seq<Action>, k: nat)
    requires IsRun(c, states, actions) && k < |states|
    ensures DrainOk(states[k])
  {
    InvAlways(c, states, actions, k);
  }

  /** From the first worker's exit on, the queue is empty: no request is accepted any more and none waits. */
  lemma {:induction false} NoneQueuedAfterExit(c: Settings, states: seq<State>, actions: seq<Action>, i: nat, j: nat, w: Worker)
    requires IsRun(c, states, actions) && i <= j < |states|
    requires w in states[i].workers && states[i].workers[w].Exited?
    ensures states[j].queue == [] && states[j].draining && w in states[j].workers && states[j].workers[w].Exited?
    decreases j
  {
    if i < j {
      NoneQueuedAfterExit(c, states, actions, i, j - 1, w);
      RunEvolves(c, states, actions, j);
    }
    Drained(c, states, actions, j);
  }

  /**
   * Drain loses nothing: once every worker has been joined, rejecting the queue changes nothing and answers
   * nobody, and every request was answered, refused, or is past its deadline.
   */
  lemma DrainLosesNothing(c: Settings, states: seq<State>, actions: seq<Action>, k: nat)
    requires IsRun(c, states, actions) && k < |states|
    requires forall w :: w in states[k].workers ==> states[k].workers[w].Exited?
    ensures states[k].queue == [] && RejectedAll(states[k]) == states[k]
    ensures forall r :: r in states[k].reqs ==>
      states[k].reqs[r].promise.Some? || Refused(states[k].reqs[r]) || states[k].now >= states[k].reqs[r].deadline
  {
    var s := states[k];
    InvAlways(c, states, actions, k);
    RejectInv(c, s);
    forall r | r in s.reqs ensures s.reqs[r].promise.Some? || Refused(s.reqs[r]) || s.now >= s.reqs[r].deadline {
      PlaceFacts(c, s, r);
    }
  }

  // ---------------------------------------------------------------- executors

  lemma {:induction false} SameSizes(c: Settings, states: seq<State>, actions: seq<Action>, k: nat)
    requires IsRun(c, states, actions) && k < |states|
    ensures states[k].workers.Keys == states[0].workers.Keys
    ensures |states[k].pool.inflight| == |states[0].pool.inflight|
    decreases k
  {
    if k > 0 {
      SameSizes(c, states, actions, k - 1);
      RunEvolves(c, states, actions, k);
    }
  }

  /**
   * With W workers and N executors no executor ever runs more than ceil(W / N) inferences at once, its counter
   * being the true number; with as many executors as workers, no two workers are ever on the same one.
   */
  lemma ExecutorsShareFairly(c: Settings, states: seq<State>, actions: seq<Action>, k: nat)
    requires IsRun(c, states, actions) && k < |states|
    ensures var s := states[k]; var N := |states[0].pool.inflight|; var W := |states[0].workers|;
      && |s.pool.inflight| == N > 0
      && (forall i :: 0 <= i < N ==> CountsExecutor(s.pool, i) && s.pool.inflight[i] <= FairShare(W, N))
      && (forall w :: w in s.workers && s.workers[w].Running? ==> w in s.pool.running && s.pool.running[w] < N)
      && (W <= N ==> forall v, w :: v in s.pool.running && w in s.pool.running && s.pool.running[v] == s.pool.running[w] ==> v == w)
  {
    InvAlways(c, states, actions, k);
    SameSizes(c, states, actions, k);
    var s := states[k];
    assert |s.workers| == |s.workers.Keys|;
    assert |states[0].workers| == |states[0].workers.Keys|;
    if |s.workers| <= |s.pool.inflight| {
      forall v, w | v in s.pool.running && w in s.pool.running && s.pool.running[v] == s.pool.running[w] ensures v == w {
        NobodyShares(s.pool, |s.workers|, v, w);
      }
    }
  }
}
