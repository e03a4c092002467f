/** Whom the tensor scheduler admits, in what order it serves them, and which of them it batches, over every run. */
module SchedulerAdmission {
  import opened Wrappers
  import opened Tensors
  import opened BatchCompatibility
  import opened DynamicBatcher
  import opened ExecutorPool
  import opened BatchMeaning
  import opened SchedulerSteps
  import opened SchedulerProtocol
  import opened SchedulerWorkers
  import opened SchedulerTheorems
  import opened QueueOrder

  // --------------------------------------------------------------- admission

  /** Request `r` is submitted by step `i` of the run. */
  predicate SubmittedAt(actions: seq<Action>, i: nat, r: Rid) {
    i < |actions| && actions[i].Submit? && actions[i].r == r
  }

  /**
   * What `submit` does: told Draining exactly when draining, told Overloaded exactly when not draining and full, and otherwise put at the
   * end of the queue, with its deadline, while nothing else changes.
   */
  lemma SubmitDecides(c: Settings, states: seq<State>, actions: seq<Action>, i: nat, r: Rid)
    requires IsRun(c, states, actions) && SubmittedAt(actions, i, r)
    ensures var s, s' := states[i], states[i + 1];
      && r !in s.reqs && r !in s.queue && s'.reqs.Keys == s.reqs.Keys + {r} && (forall q :: q in s.reqs ==> s'.reqs[q] == s.reqs[q])
      && s'.workers == s.workers && s'.pool == s.pool && s'.draining == s.draining && s'.now == s.now
      && var p := s'.reqs[r];
      && p.request == actions[i].request && p.deadline == actions[i].at + c.timeout
      && p.promise.None? && p.sets == 0 && !p.cancelled
      && (p.returned == Some(Draining) <==> s.draining)
      && (p.returned == Some(Overloaded) <==> !s.draining && |s.queue| >= c.maxQueue)
      && (p.returned.None? <==> !s.draining && |s.queue| < c.maxQueue)
      && s'.queue == if !s.draining && |s.queue| < c.maxQueue then s.queue + [r] else s.queue
  {
    assert StepAt(c, states, actions, i);
  }

  /** What the submitter is told in the end: Draining or Overloaded exactly for the reason it was refused at once. */
  lemma {:induction false} RefusedExactly(c: Settings, states: seq<State>, actions: seq<Action>, i: nat, k: nat, r: Rid)
    requires IsRun(c, states, actions) && SubmittedAt(actions, i, r) && i < k < |states|
    ensures r in states[k].reqs && states[k].reqs[r].deadline == actions[i].at + c.timeout && states[k].reqs[r].request == actions[i].request
    ensures var told := states[k].reqs[r].returned;
      && (told == Some(Draining) <==> states[i].draining)
      && (told == Some(Overloaded) <==> !states[i].draining && |states[i].queue| >= c.maxQueue)
      && (told.Some? && (told.value.Draining? || told.value.Overloaded?) ==> states[k].reqs[r].promise.None?)
    decreases k
  {
    if k == i + 1 {
      SubmitDecides(c, states, actions, i, r);
    } else {
      RefusedExactly(c, states, actions, i, k - 1, r);
      RunEvolves(c, states, actions, k);
      Promise(c, states, actions, k - 1, r);
    }
    Promise(c, states, actions, k, r);
  }

  /** What `submit` does when its wait is over: it returns the promise's value, or a timeout, past the deadline, after which the request counts as cancelled. */
  lemma ReturnDecides(c: Settings, states: seq<State>, actions: seq<Action>, i: nat, r: Rid)
    requires IsRun(c, states, actions) && i < |actions| && actions[i] == Return(r)
    ensures var s, s' := states[i], states[i + 1];
      && r in s.reqs && s.reqs[r].returned.None? && (s.reqs[r].promise.Some? || s.now >= s.reqs[r].deadline)
      && s' == s.(reqs := s.reqs[r := if s.reqs[r].promise.Some? then s.reqs[r].(returned := s.reqs[r].promise)
                                      else s.reqs[r].(returned := Some(Timeout), cancelled := true)])
  {
    assert StepAt(c, states, actions, i);
  }

  // ------------------------------------------------------------------- order

  /** The requests of the first `k` steps in the order of their submission. */
  function Submissions(actions: seq<Action>, k: nat): seq<Rid>
    requires k <= |actions|
  {
    if k == 0 then []
    else Submissions(actions, k - 1) + Arrived(actions[k - 1])
  }

  lemma {:induction false} SubmissionsKnown(c: Settings, states: seq<State>, actions: seq<Action>, k: nat)
    requires IsRun(c, states, actions) && k < |states|
    ensures forall r :: r in Submissions(actions, k) <==> r in states[k].reqs
    decreases k
  {
    if k > 0 {
      SubmissionsKnown(c, states, actions, k - 1);
      RunStep(c, states, actions, k);
      KnownStep(c, states[k - 1], actions[k - 1], states[k]);
    }
  }

  lemma KnownStep(c: Settings, s: State, a: Action, s': State)
    requires Steps(c, s, a, s')
    ensures forall r :: r in s'.reqs <==> r in s.reqs || (a.Submit? && a.r == r)
  {
    if !a.Submit? {
      SameRequests(c, s, a, s');
    }
  }

  lemma SameRequests(c: Settings, s: State, a: Action, s': State)
    requires Steps(c, s, a, s') && !a.Submit?
    ensures s'.reqs.Keys == s.reqs.Keys
  {
    StepEvolves(c, s, a);
    assert s.reqs.Keys <= s'.reqs.Keys;
    if a.Sweep? || a.Filter? || a.Start? || a.Run? || a.Finish? || a.AnswerExpired? {
      SameInProcess(c, s, a, s');
    }
  }

  lemma SameInProcess(c: Settings, s: State, a: Action, s': State)
    requires Steps(c, s, a, s') && (a.Sweep? || a.Filter? || a.Start? || a.Run? || a.Finish? || a.AnswerExpired?)
    ensures s'.reqs.Keys <= s.reqs.Keys
  {
    assert ClosedPc(s, a.w);
  }

  function Arrived(a: Action): seq<Rid> {
    if a.Submit? then [a.r] else []
  }

  lemma QueueMoves(c: Settings, s: State, a: Action, s': State)
    requires Steps(c, s, a, s')
    ensures Shifts(s.queue, s'.queue, Arrived(a))
  {
    if a.Sweep? || a.Filter? || a.Start? || a.Run? || a.Finish? || a.AnswerExpired? {
      assert s'.queue == s.queue;
    }
  }

  /** The queue is always in the order of submission. */
  lemma {:induction false} QueueInOrder(c: Settings, states: seq<State>, actions: seq<Action>, k: nat)
    requires IsRun(c, states, actions) && k < |states|
    ensures InOrder(Submissions(actions, k), states[k].queue)
    decreases k
  {
    if k > 0 {
      QueueInOrder(c, states, actions, k - 1);
      SubmissionsKnown(c, states, actions, k - 1);
      RunStep(c, states, actions, k);
      OrderStep(c, states[k - 1], actions[k - 1], states[k], Submissions(actions, k - 1));
    }
  }

  lemma OrderStep(c: Settings, s: State, a: Action, s': State, order: seq<Rid>)
    requires Steps(c, s, a, s') && InOrder(order, s.queue) && forall r :: r in order <==> r in s.reqs
    ensures InOrder(order + Arrived(a), s'.queue)
  {
    QueueMoves(c, s, a, s');
    assert a.Submit? ==> a.r !in s.reqs;
    ShiftsKeeps(order, s.queue, s'.queue, Arrived(a));
  }

  /** A free worker takes the request that has waited longest, and forms a batch around it for at most the configured delay. */
  lemma PopTakesOldest(c: Settings, states: seq<State>, actions: seq<Action>, i: nat, w: Worker)
    requires IsRun(c, states, actions) && i < |actions| && actions[i] == Pop(w)
    ensures var s, s' := states[i], states[i + 1];
      && w in s.workers && s.workers[w].Popping? && s.queue != [] && w in s'.workers
      && var r := s.queue[0];
      && s'.workers[w] == Forming([r], s.now + c.maxDelay) && s'.queue == s.queue[1..]
      && forall q :: q in s'.queue ==> Earlier(Submissions(actions, i), r, q)
  {
    assert StepAt(c, states, actions, i);
    QueueInOrder(c, states, actions, i);
    HeadIsEarliest(Submissions(actions, i), states[i].queue);
  }

  // ---------------------------------------------------------------- batching

  /** The batch may still grow: batching is on, there is room, and a batch of several has not reached a preferred size. */
  predicate Open(c: Settings, s: State, batch: seq<Rid>)
    requires forall r :: r in batch ==> r in s.reqs
  {
    && c.batching && c.maxBatch > 1 && Dimension(s, batch) < c.maxBatch
    && (|batch| > 1 ==> Dimension(s, batch) == 0 || Dimension(s, batch) !in c.preferred)
  }

  /** The request is of the batch's kind and its rows fit beside those of the batch. */
  predicate FitsBatch(c: Settings, s: State, batch: seq<Rid>, r: Rid)
    requires batch != [] && r in s.reqs && forall q :: q in batch ==> q in s.reqs
  {
    && SameKind(s.reqs[batch[0]].request, s.reqs[r].request)
    && Dimension(s, batch) + BatchSize(s.reqs[r].request) % 0x1_0000_0000_0000_0000 <= c.maxBatch
  }

  /**
   * Which requests join a batch, and when it closes: the first in the queue that fits, alive, while the batch is open; and it closes
   * exactly when it is not open any more, its delay has passed, or the scheduler drains.
   */
  lemma BatchGrowsExactly(c: Settings, states: seq<State>, actions: seq<Action>, k: nat, w: Worker, i: nat)
    requires IsRun(c, states, actions) && k < |states| && w in states[k].workers && states[k].workers[w].Forming? && i < |states[k].queue|
    ensures var s, batch := states[k], states[k].workers[w].batch;
      && batch != [] && (forall r :: r in batch ==> r in s.reqs) && (forall r :: r in s.queue ==> r in s.reqs)
      && (Enabled(c, s, Take(w, i)) <==>
            && Open(c, s, batch) && FitsBatch(c, s, batch, s.queue[i]) && s.now < s.reqs[s.queue[i]].deadline
            && forall j :: 0 <= j < i ==> !FitsBatch(c, s, batch, s.queue[j]))
      && (Enabled(c, s, EndForming(w)) <==> !Open(c, s, batch) || s.draining || s.now >= s.workers[w].until)
  {
    InvAlways(c, states, actions, k);
    var s := states[k];
    assert ClosedPc(s, w) && WorkerOk(c, s, w);
    TakesFitting(c, s, w);
    TakeEnabled(c, s, w, i);
    CloseEnabled(c, s, w);
  }

  /** A worker forming a batch in a state whose ids are in range. */
  predicate FormsBatch(s: State, w: Worker) {
    && Closed(s) && w in s.workers && s.workers[w].Forming?
    && s.workers[w].batch != [] && (forall r :: r in s.workers[w].batch ==> r in s.reqs)
  }

  lemma TakesFitting(c: Settings, s: State, w: Worker)
    requires Inv(c, s) && FormsBatch(s, w)
    ensures forall r :: r in s.queue ==> (Takes(c, s, s.workers[w].batch, r) <==> FitsBatch(c, s, s.workers[w].batch, r))
  {
    var batch := s.workers[w].batch;
    assert batch[0] in batch && PromiseOk(c, s.now, s.reqs[batch[0]]);
    forall r | r in s.queue ensures Takes(c, s, batch, r) <==> FitsBatch(c, s, batch, r) {
      assert PromiseOk(c, s.now, s.reqs[r]);
      CompatibleIsSameKind(s.reqs[batch[0]].request, s.reqs[r].request);
    }
  }

  lemma TakeEnabled(c: Settings, s: State, w: Worker, i: nat)
    requires FormsBatch(s, w) && i < |s.queue|
    requires forall r :: r in s.queue ==> (Takes(c, s, s.workers[w].batch, r) <==> FitsBatch(c, s, s.workers[w].batch, r))
    ensures Enabled(c, s, Take(w, i)) <==>
      && Open(c, s, s.workers[w].batch) && FitsBatch(c, s, s.workers[w].batch, s.queue[i]) && s.now < s.reqs[s.queue[i]].deadline
      && forall j :: 0 <= j < i ==> !FitsBatch(c, s, s.workers[w].batch, s.queue[j])
  {
  }

  lemma CloseEnabled(c: Settings, s: State, w: Worker)
    requires FormsBatch(s, w)
    ensures Enabled(c, s, EndForming(w)) <==> !Open(c, s, s.workers[w].batch) || s.draining || s.now >= s.workers[w].until
  {
  }

  // ------------------------------------------------------ through the worker

  /** The next member of a batch to be looked at or answered is what a worker's step acts on; where it goes from there. */
  predicate GoesOn(c: Settings, s: State, a: Action, pc: Pc, next: Pc)
    requires Mentioned(pc) <= s.reqs.Keys
  {
    match pc
    case Popping => (a.Pop? && s.queue != [] && next == Forming([s.queue[0]], s.now + c.maxDelay)) || (a.Exit? && s.queue == [] && s.draining && next == Exited)
    case Forming(batch, until) =>
      || (a.Expire? && a.i < |s.queue| && next == Expiring(batch, until, s.queue[a.i]))
      || (a.Take? && a.i < |s.queue| && next == Forming(batch + [s.queue[a.i]], until))
      || (a.EndForming? && next == Sweeping(batch, 0, s.now))
    case Expiring(batch, until, _) => a.AnswerExpired? && next == Forming(batch, until)
    case Sweeping(batch, i, at) => a.Sweep? && next == if i >= |batch| then Filtering(batch, 0, []) else Sweeping(batch, i + 1, at)
    case Filtering(batch, i, active) =>
      && a.Filter?
      && next == if i >= |batch| then Starting(active)
                 else Filtering(batch, i + 1, if a.saw || s.now >= s.reqs[batch[i]].deadline then active else active + [batch[i]])
    case Starting(active) =>
      && a.Start?
      && (active == [] ==> next == Popping)
      && (|active| == 1 ==> next == if a.saw || s.now >= s.reqs[active[0]].deadline then Popping else Running(active))
      && (|active| > 1 ==> next == Running(active))
    case Running(active) => a.Run? && next.Finishing? && next.active == active && |next.replies| == |active| && next.i == 0
    case Finishing(active, replies, i) => a.Finish? && next == if i >= |active| then Popping else Finishing(active, replies, i + 1)
    case Exited => false
  }

  /**
   * A worker's next step, in any run: it takes up the oldest request, forms a batch, answers expired members, leaves out dead ones, runs what
   * is left and hands out the answers one by one; a batch of several always merges, so it always runs.
   */
  lemma WorkerDecides(c: Settings, states: seq<State>, actions: seq<Action>, i: nat, w: Worker)
    requires IsRun(c, states, actions) && i < |actions| && w in states[i].workers
    requires w in states[i + 1].workers && states[i + 1].workers[w] != states[i].workers[w]
    ensures Mentioned(states[i].workers[w]) <= states[i].reqs.Keys
    ensures GoesOn(c, states[i], actions[i], states[i].workers[w], states[i + 1].workers[w])
  {
    assert StepAt(c, states, actions, i);
    InvAlways(c, states, actions, i);
    var s, a := states[i], actions[i];
    assert ClosedPc(s, w) && WorkerOk(c, s, w);
    OwnStep(c, s, a, states[i + 1], w);
    if a.Start? && |s.workers[w].active| > 1 {
      BatchMerges(c, s, w);
    }
    if a.Sweep? || a.Filter? || a.Start? || a.Run? || a.Finish? {
      ProcessGoesOn(c, s, a, states[i + 1], w);
    } else {
      FormGoesOn(c, s, a, states[i + 1], w);
    }
  }

  lemma BatchMerges(c: Settings, s: State, w: Worker)
    requires Inv(c, s) && w in s.workers && s.workers[w].Starting? && |s.workers[w].active| > 1
    ensures (forall r :: r in s.workers[w].active ==> r in s.reqs) && Merge(s, s.workers[w].active).Merged?
  {
    var active := s.workers[w].active;
    forall r | r in active ensures r in s.reqs && Admissible(s.reqs[r].request) {
      InHand(c, s, w, r);
    }
    assert WorkerOk(c, s, w);
    KinFormed(c, s, active);
    FormedMerges(RequestsOf(s, active));
  }

  /** Nobody else moves a worker on. */
  lemma OwnStep(c: Settings, s: State, a: Action, s': State, w: Worker)
    requires Steps(c, s, a, s') && w in s.workers && w in s'.workers && s'.workers[w] != s.workers[w]
    ensures !(a.Tick? || a.Submit? || a.Return? || a.Stop? || a.RejectQueue? || a.DropCancelled?) && a.w == w
  {
    if a.Sweep? || a.Filter? {
      LoopItself(c, s, a, s', w);
    } else if a.Start? || a.Run? || a.Finish? {
      RunItself(c, s, a, s', w);
    }
  }

  lemma LoopItself(c: Settings, s: State, a: Action, s': State, u: Worker)
    requires Steps(c, s, a, s') && (a.Sweep? || a.Filter?) && u in s.workers && u in s'.workers && s'.workers[u] != s.workers[u]
    ensures u == a.w
  {
  }

  lemma RunItself(c: Settings, s: State, a: Action, s': State, u: Worker)
    requires Steps(c, s, a, s') && (a.Start? || a.Run? || a.Finish?) && u in s.workers && u in s'.workers && s'.workers[u] != s.workers[u]
    ensures u == a.w
  {
  }

  lemma FormGoesOn(c: Settings, s: State, a: Action, s': State, w: Worker)
    requires Steps(c, s, a, s') && (a.Pop? || a.Exit? || a.Expire? || a.Take? || a.AnswerExpired? || a.EndForming?) && a.w == w
    requires w in s.workers && w in s'.workers && Mentioned(s.workers[w]) <= s.reqs.Keys
    ensures GoesOn(c, s, a, s.workers[w], s'.workers[w])
  {
  }

  lemma ProcessGoesOn(c: Settings, s: State, a: Action, s': State, w: Worker)
    requires Steps(c, s, a, s') && (a.Sweep? || a.Filter? || a.Start? || a.Run? || a.Finish?) && a.w == w
    requires w in s.workers && w in s'.workers && Mentioned(s.workers[w]) <= s.reqs.Keys
    requires s.workers[w].Starting? && |s.workers[w].active| > 1 ==> Merge(s, s.workers[w].active).Merged?
    ensures GoesOn(c, s, a, s.workers[w], s'.workers[w])
  {
  }

  datatype Gift = Gift(r: Rid, v: Result)

  /** Which promise a worker's step sets, and to what: expired members get a timeout and run ones their reply, unless seen cancelled. */
  function Gives(s: State, a: Action, pc: Pc): Option<Gift>
    requires Mentioned(pc) <= s.reqs.Keys
  {
    match pc
    case Expiring(_, _, r) => if a.AnswerExpired? && !a.saw then Some(Gift(r, Timeout)) else None
    case Sweeping(batch, i, at) =>
      if a.Sweep? && i < |batch| && !a.saw && at >= s.reqs[batch[i]].deadline then Some(Gift(batch[i], Timeout)) else None
    case Starting(active) =>
      if a.Start? && |active| == 1 && !a.saw && s.now >= s.reqs[active[0]].deadline then Some(Gift(active[0], Timeout)) else None
    case Finishing(active, replies, i) => if a.Finish? && i < |active| == |replies| && !a.saw then Some(Gift(active[i], replies[i])) else None
    case _ => None
  }

  /** In any run a worker's step sets that promise and no other. */
  lemma StepAnswers(c: Settings, states: seq<State>, actions: seq<Action>, i: nat, w: Worker, q: Rid)
    requires IsRun(c, states, actions) && i < |actions| && w in states[i].workers && q in states[i].reqs
    requires w in states[i + 1].workers && states[i + 1].workers[w] != states[i].workers[w]
    ensures Mentioned(states[i].workers[w]) <= states[i].reqs.Keys && q in states[i + 1].reqs
    ensures var gift := Gives(states[i], actions[i], states[i].workers[w]);
      states[i + 1].reqs[q].promise == if gift.Some? && gift.value.r == q then Some(gift.value.v) else states[i].reqs[q].promise
  {
    assert StepAt(c, states, actions, i);
    InvAlways(c, states, actions, i);
    var s, a := states[i], actions[i];
    assert ClosedPc(s, w);
    OwnStep(c, s, a, states[i + 1], w);
    if a.Sweep? || a.Filter? {
      LoopGives(c, s, a, states[i + 1], w, q);
    } else if a.Start? || a.Run? || a.Finish? {
      RunGives(c, s, a, states[i + 1], w, q);
    } else {
      FormGives(c, s, a, states[i + 1], w, q);
    }
  }

  lemma FormGives(c: Settings, s: State, a: Action, s': State, w: Worker, q: Rid)
    requires Steps(c, s, a, s') && (a.Pop? || a.Exit? || a.Expire? || a.Take? || a.AnswerExpired? || a.EndForming?) && a.w == w
    requires w in s.workers && Mentioned(s.workers[w]) <= s.reqs.Keys && q in s.reqs
    ensures var gift := Gives(s, a, s.workers[w]);
      q in s'.reqs && s'.reqs[q].promise == if gift.Some? && gift.value.r == q then Some(gift.value.v) else s.reqs[q].promise
  {
  }

  lemma LoopGives(c: Settings, s: State, a: Action, s': State, w: Worker, q: Rid)
    requires Steps(c, s, a, s') && (a.Sweep? || a.Filter?) && a.w == w
    requires w in s.workers && Mentioned(s.workers[w]) <= s.reqs.Keys && q in s.reqs
    ensures var gift := Gives(s, a, s.workers[w]);
      q in s'.reqs && s'.reqs[q].promise == if gift.Some? && gift.value.r == q then Some(gift.value.v) else s.reqs[q].promise
  {
  }

  lemma RunGives(c: Settings, s: State, a: Action, s': State, w: Worker, q: Rid)
    requires Steps(c, s, a, s') && (a.Start? || a.Run? || a.Finish?) && a.w == w
    requires w in s.workers && Mentioned(s.workers[w]) <= s.reqs.Keys && q in s.reqs
    ensures var gift := Gives(s, a, s.workers[w]);
      q in s'.reqs && s'.reqs[q].promise == if gift.Some? && gift.value.r == q then Some(gift.value.v) else s.reqs[q].promise
  {
  }

  /** `rejectQueuedRequests`: every queued request is answered with Draining, and the others are left alone. */
  lemma RejectAnswers(s: State, r: Rid)
    requires (forall q :: q in s.queue ==> q in s.reqs) && r in s.reqs
    ensures RejectedAll(s).queue == [] && r in RejectedAll(s).reqs
    ensures r in s.queue ==> RejectedAll(s).reqs[r].promise == Some(Draining) && RejectedAll(s).reqs[r].sets == s.reqs[r].sets + 1
    ensures r !in s.queue ==> RejectedAll(s).reqs[r] == s.reqs[r]
  {
  }

  // ------------------------------------------------------------------ progress

  /** Some step of worker `w` is possible. */
  ghost predicate CanStep(c: Settings, s: State, w: Worker) {
    exists a :: Enabled(c, s, a) && !(a.Tick? || a.Submit? || a.Return? || a.Stop? || a.RejectQueue?) && a.w == w
  }

  /** The scan would do something about this queue entry: drop it, answer it, or take it. */
  predicate Stirs(c: Settings, s: State, batch: seq<Rid>, r: Rid)
    requires batch != [] && r in s.reqs && forall q :: q in batch ==> q in s.reqs
  {
    s.reqs[r].cancelled || s.now >= s.reqs[r].deadline || Takes(c, s, batch, r)
  }

  /**
   * When a worker has to wait, in any run: for work, while the queue is empty and nothing drains; and with a batch that is open, within its
   * delay, while every queued request is alive and none of them fits. At all other times it can go on, until it has left.
   */
  lemma WorkerWaitsExactly(c: Settings, states: seq<State>, actions: seq<Action>, k: nat, w: Worker)
    requires IsRun(c, states, actions) && k < |states| && w in states[k].workers
    ensures var s := states[k];
      && (forall r :: r in s.queue ==> r in s.reqs)
      && match s.workers[w]
         case Exited => !CanStep(c, s, w)
         case Popping => CanStep(c, s, w) <==> s.queue != [] || s.draining
         case Forming(batch, until) =>
           && batch != [] && (forall r :: r in batch ==> r in s.reqs)
           && (CanStep(c, s, w) <==> !Open(c, s, batch) || s.draining || s.now >= until || exists r :: r in s.queue && Stirs(c, s, batch, r))
         case _ => CanStep(c, s, w)
  {
    InvAlways(c, states, actions, k);
    var s := states[k];
    assert ClosedPc(s, w) && WorkerOk(c, s, w);
    if s.workers[w].Forming? {
      FormingWaits(c, s, w);
    } else if s.workers[w].Popping? || s.workers[w].Exited? {
      PoppingWaits(c, s, w);
    } else {
      BusySteps(c, s, w);
    }
  }

  lemma PoppingWaits(c: Settings, s: State, w: Worker)
    requires Closed(s) && w in s.workers && (s.workers[w].Popping? || s.workers[w].Exited?)
    ensures CanStep(c, s, w) <==> s.workers[w].Popping? && (s.queue != [] || s.draining)
  {
    if s.workers[w].Popping? {
      assert s.queue != [] ==> Enabled(c, s, Pop(w));
      assert s.queue == [] && s.draining ==> Enabled(c, s, Exit(w));
    }
  }

  lemma BusySteps(c: Settings, s: State, w: Worker)
    requires Closed(s) && w in s.workers && !s.workers[w].Forming? && !s.workers[w].Popping? && !s.workers[w].Exited?
    ensures CanStep(c, s, w)
  {
    var a := match s.workers[w]
      case Expiring(_, _, _) => AnswerExpired(w, false)
      case Sweeping(_, _, _) => Sweep(w, false)
      case Filtering(_, _, _) => Filter(w, false)
      case Starting(_) => Start(w, false)
      case Running(_) => Run(w)
      case _ => Finish(w, false);
    assert Enabled(c, s, a);
  }

  lemma FormingWaits(c: Settings, s: State, w: Worker)
    requires Inv(c, s) && FormsBatch(s, w)
    ensures CanStep(c, s, w) <==>
      || !Open(c, s, s.workers[w].batch) || s.draining || s.now >= s.workers[w].until
      || exists r :: r in s.queue && Stirs(c, s, s.workers[w].batch, r)
  {
    var batch := s.workers[w].batch;
    CloseEnabled(c, s, w);
    if !Open(c, s, batch) || s.draining || s.now >= s.workers[w].until {
      assert Enabled(c, s, EndForming(w));
    } else {
      if exists r :: r in s.queue && Stirs(c, s, batch, r) {
        var r :| r in s.queue && Stirs(c, s, batch, r);
        var j: nat :| j < |s.queue| && s.queue[j] == r;
        StirredSteps(c, s, w, j);
      }
      if CanStep(c, s, w) {
        var a :| Enabled(c, s, a) && !(a.Tick? || a.Submit? || a.Return? || a.Stop? || a.RejectQueue?) && a.w == w;
        StepStirs(c, s, w, a);
      }
    }
  }

  /** The first entry the scan would stop at is one a step can act on. */
  lemma {:induction false} StirredSteps(c: Settings, s: State, w: Worker, j: nat)
    requires FormsBatch(s, w) && Open(c, s, s.workers[w].batch) && j < |s.queue| && Stirs(c, s, s.workers[w].batch, s.queue[j])
    ensures CanStep(c, s, w)
    decreases j
  {
    var batch := s.workers[w].batch;
    if ScansTo(c, s, batch, j) {
      EntrySteps(c, s, w, j);
    } else {
      var i :| 0 <= i < j && Takes(c, s, batch, s.queue[i]);
      StirredSteps(c, s, w, i);
    }
  }

  lemma EntrySteps(c: Settings, s: State, w: Worker, j: nat)
    requires FormsBatch(s, w) && Open(c, s, s.workers[w].batch) && j < |s.queue| && Stirs(c, s, s.workers[w].batch, s.queue[j])
    requires ScansTo(c, s, s.workers[w].batch, j)
    ensures CanStep(c, s, w)
  {
    var p := s.reqs[s.queue[j]];
    assert p.cancelled ==> Enabled(c, s, DropCancelled(w, j));
    assert s.now >= p.deadline ==> Enabled(c, s, Expire(w, j));
    assert !p.cancelled && s.now < p.deadline ==> Enabled(c, s, Take(w, j));
  }

  lemma StepStirs(c: Settings, s: State, w: Worker, a: Action)
    requires FormsBatch(s, w) && Open(c, s, s.workers[w].batch) && !s.draining && s.now < s.workers[w].until
    requires Enabled(c, s, a) && !(a.Tick? || a.Submit? || a.Return? || a.Stop? || a.RejectQueue?) && a.w == w
    ensures exists r :: r in s.queue && Stirs(c, s, s.workers[w].batch, r)
  {
    assert a.DropCancelled? || a.Expire? || a.Take?;
    assert s.queue[a.i] in s.queue;
  }
}
