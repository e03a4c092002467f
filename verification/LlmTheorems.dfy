/** What every run of the LLM scheduler does, for any number of submitters, slots and executors. */
module LlmTheorems {
  import opened Wrappers
  import opened Tensors
  import opened ExecutorPool
  import opened SchedulerSteps
  import SP = SchedulerProtocol
  import SW = SchedulerWorkers
  import ST = SchedulerTheorems
  import opened LlmSteps
  import opened LlmProtocol

  /** A scheduler just built: one idle worker per decode slot. */
  ghost predicate Initial(c: LlmSettings, s: LlmState) {
    && c.slots > 0 && |s.workers| == c.slots && s.pool.inflight != []
    && s.queue == [] && s.reqs == map[] && !s.draining && s.active == 0
    && (forall w :: w in s.workers ==> s.workers[w].Idle?)
    && s.pool.running == map[] && (forall i :: 0 <= i < |s.pool.inflight| ==> s.pool.inflight[i] == 0)
  }

  ghost predicate Steps(c: LlmSettings, s: LlmState, a: LlmAction, s': LlmState) {
    Enabled(c, s, a) && s' == Next(c, s, a)
  }

  ghost predicate IsRun(c: LlmSettings, states: seq<LlmState>, actions: seq<LlmAction>) {
    && |states| == |actions| + 1
    && Initial(c, states[0])
    && forall i :: 0 <= i < |actions| ==> StepAt(c, states, actions, i)
  }

  ghost predicate StepAt(c: LlmSettings, states: seq<LlmState>, actions: seq<LlmAction>, i: nat)
    requires i < |actions| && |states| == |actions| + 1
  {
    Steps(c, states[i], actions[i], states[i + 1])
  }

  lemma RunStep(c: LlmSettings, states: seq<LlmState>, actions: seq<LlmAction>, k: nat)
    requires IsRun(c, states, actions) && 0 < k < |states|
    ensures Steps(c, states[k - 1], actions[k - 1], states[k])
  {
    assert StepAt(c, states, actions, k - 1);
  }

  lemma InitialInv(c: LlmSettings, s: LlmState)
    requires Initial(c, s)
    ensures Inv(c, s)
  {
    ST.ZerosSum(s.pool.inflight);
    forall i | 0 <= i < |s.pool.inflight| ensures CountsExecutor(s.pool, i) {
      assert On(s.pool, i) == {};
    }
    assert SlotUsers(s) == {};
    assert |s.workers| == |s.workers.Keys|;
  }

  lemma InvCarries(c: LlmSettings, s: LlmState, a: LlmAction, s': LlmState)
    requires Steps(c, s, a, s') && Inv(c, s)
    ensures Inv(c, s')
  {
    InvStep(c, s, a);
  }

  /** What holds at the start and is kept by every step holds throughout a run. */
  lemma {:induction false} RunInduction(c: LlmSettings, states: seq<LlmState>, actions: seq<LlmAction>, P: LlmState -> bool, k: nat)
    requires IsRun(c, states, actions) && k < |states| && P(states[0])
    requires forall s, a, s' :: Steps(c, s, a, s') && P(s) ==> P(s')
    ensures P(states[k])
    decreases k
  {
    if k > 0 {
      RunInduction(c, states, actions, P, k - 1);
      RunStep(c, states, actions, k);
    }
  }

  lemma InvAlways(c: LlmSettings, states: seq<LlmState>, actions: seq<LlmAction>, k: nat)
    requires IsRun(c, states, actions) && k < |states|
    ensures Inv(c, states[k])
  {
    InitialInv(c, states[0]);
    forall s, a, s' | Steps(c, s, a, s') && Inv(c, s) ensures Inv(c, s') {
      InvCarries(c, s, a, s');
    }
    RunInduction(c, states, actions, s => Inv(c, s), k);
  }

  /** Ids and indices are in range throughout, so the side condition of every step excludes nothing. */
  lemma AlwaysClosed(c: LlmSettings, states: seq<LlmState>, actions: seq<LlmAction>, k: nat)
    requires IsRun(c, states, actions) && k < |states|
    ensures Closed(states[k])
  {
    InvAlways(c, states, actions, k);
  }

  // ----------------------------------------------------------------- decode slots

  /**
   * The number of active decodes is always the number of workers between acquire and release, whichever way
   * they leave, and never exceeds the slots; a worker giving a slot back never wraps the counter.
   */
  lemma SlotsCounted(c: LlmSettings, states: seq<LlmState>, actions: seq<LlmAction>, k: nat)
    requires IsRun(c, states, actions) && k < |states|
    ensures var s := states[k];
      && s.active == |SlotUsers(s)| <= c.slots
      && (forall w :: w in s.workers && UsesSlot(s.workers[w]) ==> s.active > 0)
  {
    InvAlways(c, states, actions, k);
    var s := states[k];
    assert |s.workers| == |s.workers.Keys|;
    assert SlotUsers(s) <= s.workers.Keys;
    SW.Subset(SlotUsers(s), s.workers.Keys);
    forall w | w in s.workers && UsesSlot(s.workers[w]) ensures s.active > 0 {
      SlotHeld(c, s, w);
    }
  }

  /** A worker in `acquireDecodeSlot` never waits, and is turned away exactly when the scheduler is draining. */
  lemma AskingFindsSlot(c: LlmSettings, states: seq<LlmState>, actions: seq<LlmAction>, k: nat, w: Worker)
    requires IsRun(c, states, actions) && k < |states| && w in states[k].workers && states[k].workers[w].Asking?
    ensures states[k].active < c.slots && Enabled(c, states[k], Acquire(w))
    ensures var s' := Next(c, states[k], Acquire(w));
      w in s'.workers && s'.workers[w] == if states[k].draining then Answering(states[k].workers[w].r, Timeout) else Owning(states[k].workers[w].r)
  {
    InvAlways(c, states, actions, k);
    AlwaysClosed(c, states, actions, k);
    SlotFree(c, states[k], w);
  }

  // ------------------------------------------------------- requests and answers

  predicate InHandOf(s: LlmState, w: Worker, r: Rid) {
    w in s.workers && Held(s.workers[w]) == Some(r)
  }

  /** A request is in the queue once, with one worker, or finished: answered, refused, or past its deadline. */
  lemma ExactlyOnePlace(c: LlmSettings, states: seq<LlmState>, actions: seq<LlmAction>, k: nat, r: Rid)
    requires IsRun(c, states, actions) && k < |states| && r in states[k].reqs
    ensures var s := states[k];
      && SP.NoDuplicates(s.queue) && |s.queue| <= c.maxQueue
      && (r in s.queue ==> forall w: Worker :: !InHandOf(s, w, r))
      && (forall v, w :: InHandOf(s, v, r) && InHandOf(s, w, r) ==> v == w)
      && (r !in s.queue && (forall w: Worker :: !InHandOf(s, w, r)) ==>
            s.reqs[r].promise.Some? || Refused(s.reqs[r]) || s.now >= s.reqs[r].deadline)
  {
    InvAlways(c, states, actions, k);
    PlaceFacts(c, states[k], r);
  }

  lemma PlaceFacts(c: LlmSettings, s: LlmState, r: Rid)
    requires Inv(c, s) && r in s.reqs
    ensures r in s.queue <==> s.reqs[r].place.Queued?
    ensures forall w :: InHandOf(s, w, r) <==> s.reqs[r].place == With(w)
    ensures s.reqs[r].place.Done? ==> s.reqs[r].promise.Some? || Refused(s.reqs[r]) || s.now >= s.reqs[r].deadline
  {
    assert Placed(s, r) && PromiseOk(c, s.now, s.reqs[r]);
    forall w | InHandOf(s, w, r) ensures s.reqs[r].place == With(w) {
      HeldPromise(c, s, w, r);
    }
  }

  /** What any step keeps. */
  ghost predicate Evolves(s: LlmState, s': LlmState) {
    && s'.workers.Keys == s.workers.Keys && |s'.pool.inflight| == |s.pool.inflight|
    && (forall w :: w in s.workers && s.workers[w].Gone? ==> s'.workers[w].Gone?)
    && (forall r :: r in s.reqs ==> r in s'.reqs && ST.Ages(s.reqs[r], s'.reqs[r]))
  }

  lemma ClientEvolves(c: LlmSettings, s: LlmState, a: LlmAction)
    requires Enabled(c, s, a) && (a.Tick? || a.Submit? || a.Return? || a.Stop? || a.RejectQueue?)
    ensures Evolves(s, Next(c, s, a))
  {
  }

  lemma WorkerEvolves(c: LlmSettings, s: LlmState, a: LlmAction)
    requires Enabled(c, s, a) && !(a.Tick? || a.Submit? || a.Return? || a.Stop? || a.RejectQueue?)
    ensures Evolves(s, Next(c, s, a))
  {
  }

  lemma StepEvolves(c: LlmSettings, s: LlmState, a: LlmAction)
    requires Enabled(c, s, a)
    ensures Evolves(s, Next(c, s, a))
  {
    if a.Tick? || a.Submit? || a.Return? || a.Stop? || a.RejectQueue? {
      ClientEvolves(c, s, a);
    } else {
      WorkerEvolves(c, s, a);
    }
  }

  lemma RunEvolves(c: LlmSettings, states: seq<LlmState>, actions: seq<LlmAction>, k: nat)
    requires IsRun(c, states, actions) && 0 < k < |states|
    ensures Evolves(states[k - 1], states[k])
  {
    RunStep(c, states, actions, k);
    StepEvolves(c, states[k - 1], actions[k - 1]);
  }

  lemma Promise(c: LlmSettings, states: seq<LlmState>, actions: seq<LlmAction>, k: nat, r: Rid)
    requires IsRun(c, states, actions) && k < |states| && r in states[k].reqs
    ensures PromiseOk(c, states[k].now, states[k].reqs[r])
  {
    InvAlways(c, states, actions, k);
  }

  /** A promise is set at most once in a run and keeps its value; a submitter returns at most once. */
  lemma {:induction false} AnsweredOnce(c: LlmSettings, states: seq<LlmState>, actions: seq<LlmAction>, i: nat, j: nat, r: Rid)
    requires IsRun(c, states, actions) && i <= j < |states| && r in states[i].reqs
    ensures r in states[j].reqs && states[j].reqs[r].sets <= 1
    ensures states[i].reqs[r].promise.Some? ==> states[j].reqs[r].promise == states[i].reqs[r].promise
    ensures states[i].reqs[r].returned.Some? ==> states[j].reqs[r].returned == states[i].reqs[r].returned
    decreases j
  {
    if i < j {
      AnsweredOnce(c, states, actions, i, j - 1, r);
      RunEvolves(c, states, actions, j);
      Promise(c, states, actions, j - 1, r);
    }
    Promise(c, states, actions, j, r);
  }

  /** A submitter still waiting when its promise is set returns that value, whenever it returns. */
  lemma {:induction false} AnswerDelivered(c: LlmSettings, states: seq<LlmState>, actions: seq<LlmAction>, i: nat, j: nat, r: Rid)
    requires IsRun(c, states, actions) && i <= j < |states| && r in states[i].reqs
    requires states[i].reqs[r].promise.Some? && states[i].reqs[r].returned.None?
    ensures r in states[j].reqs && states[j].reqs[r].promise == states[i].reqs[r].promise
    ensures states[j].reqs[r].returned.Some? ==> states[j].reqs[r].returned == states[i].reqs[r].promise
    decreases j
  {
    AnsweredOnce(c, states, actions, i, j, r);
    if i < j {
      AnswerDelivered(c, states, actions, i, j - 1, r);
      RunEvolves(c, states, actions, j);
    }
  }

  // -------------------------------------------------------------------- drain

  lemma Drained(c: LlmSettings, states: seq<LlmState>, actions: seq<LlmAction>, k: nat)
    requires IsRun(c, states, actions) && k < |states|
    ensures DrainOk(states[k])
  {
    InvAlways(c, states, actions, k);
  }

  /** From the first worker's exit on, the queue is empty: no request is accepted any more and none waits. */
  lemma {:induction false} NoneQueuedAfterExit(c: LlmSettings, states: seq<LlmState>, actions: seq<LlmAction>, i: nat, j: nat, w: Worker)
    requires IsRun(c, states, actions) && i <= j < |states|
    requires w in states[i].workers && states[i].workers[w].Gone?
    ensures states[j].queue == [] && states[j].draining && w in states[j].workers && states[j].workers[w].Gone?
    decreases j
  {
    if i < j {
      NoneQueuedAfterExit(c, states, actions, i, j - 1, w);
      RunEvolves(c, states, actions, j);
    }
    Drained(c, states, actions, j);
  }

  /** Drain loses nothing: with every worker joined, rejecting the queue answers nobody and every request is finished. */
  lemma DrainLosesNothing(c: LlmSettings, states: seq<LlmState>, actions: seq<LlmAction>, k: nat)
    requires IsRun(c, states, actions) && k < |states|
    requires forall w :: w in states[k].workers ==> states[k].workers[w].Gone?
    ensures states[k].queue == [] && LlmRejectedAll(states[k]) == states[k]
    ensures forall r :: r in states[k].reqs ==>
      states[k].reqs[r].promise.Some? || Refused(states[k].reqs[r]) || states[k].now >= states[k].reqs[r].deadline
  {
    var s := states[k];
    InvAlways(c, states, actions, k);
    RejectInv(c, s);
    forall r | r in s.reqs ensures s.reqs[r].promise.Some? || Refused(s.reqs[r]) || s.now >= s.reqs[r].deadline {
      assert Placed(s, r) && PromiseOk(c, s.now, s.reqs[r]);
    }
  }

  // ---------------------------------------------------------------- executors

  lemma {:induction false} SameSizes(c: LlmSettings, states: seq<LlmState>, actions: seq<LlmAction>, k: nat)
    requires IsRun(c, states, actions) && k < |states|
    ensures |states[k].pool.inflight| == |states[0].pool.inflight|
    decreases k
  {
    if k > 0 {
      SameSizes(c, states, actions, k - 1);
      RunEvolves(c, states, actions, k);
    }
  }

  /** No executor runs more than ceil(slots / executors) decodes at once, and its counter is the true number. */
  lemma ExecutorsShareFairly(c: LlmSettings, states: seq<LlmState>, actions: seq<LlmAction>, k: nat)
    requires IsRun(c, states, actions) && k < |states|
    ensures var s := states[k]; var N := |states[0].pool.inflight|;
      && |s.pool.inflight| == N > 0
      && (forall i :: 0 <= i < N ==> CountsExecutor(s.pool, i) && s.pool.inflight[i] <= FairShare(c.slots, N))
      && (c.slots <= N ==> forall v, w :: v in s.pool.running && w in s.pool.running && s.pool.running[v] == s.pool.running[w] ==> v == w)
  {
    InvAlways(c, states, actions, k);
    SameSizes(c, states, actions, k);
    var s := states[k];
    if c.slots <= |s.pool.inflight| {
      forall v, w | v in s.pool.running && w in s.pool.running && s.pool.running[v] == s.pool.running[w] ensures v == w {
        NobodyShares(s.pool, c.slots, v, w);
      }
    }
  }
}
