/** Whom the LLM scheduler admits, in what order it serves them, and how a request leaves its worker, over every run. */
module LlmAdmission {
  import opened Wrappers
  import opened Tensors
  import opened ExecutorPool
  import opened SchedulerSteps
  import opened LlmSteps
  import opened LlmProtocol
  import opened LlmTheorems
  import ST = SchedulerTheorems
  import opened QueueOrder

  // --------------------------------------------------------------- admission

  predicate SubmittedAt(actions: seq<LlmAction>, i: nat, r: Rid) {
    i < |actions| && actions[i].Submit? && actions[i].r == r
  }

  /** Two bytes for each token of the prompt, for it and for as many decodes of that size as were seen under way; all in 64 bits. */
  function Footprint(tokens: nat, seen: nat): nat {
    (seen + 1) * (2 * tokens) % 0x1_0000_0000_0000_0000
  }

  lemma WrapAdd(a: int, b: int)
    ensures Wrap(Wrap(a) + b) == Wrap(a + b)
  {
    WrapShift(Wrap(a) + b, a / SIZE_LIMIT);
  }

  lemma FitsFootprint(c: LlmSettings, request: Request, seen: nat)
    ensures FitsMemory(c, request, seen) <==> c.memoryBudget == 0 || Footprint(c.tokens(request), seen) <= c.memoryBudget
  {
    var bytes := c.tokens(request) * 2;
    WrapMul(bytes, seen);
    assert Wrap(bytes) * seen == seen * Wrap(bytes);
    WrapAdd(seen * Wrap(bytes), Wrap(bytes));
    WrapAdd(bytes * seen, Wrap(bytes));
    WrapAdd(bytes, bytes * seen);
    assert bytes * seen + bytes == (seen + 1) * (2 * c.tokens(request));
  }

  /** Why a request is turned away, if it is: the first reason that applies. */
  predicate TurnedAway(c: LlmSettings, s: LlmState, request: Request, seen: nat, told: Option<Result>) {
    && (told.Some? && told.value.Invalid? <==> c.invalid(request).Some?)
    && (told.Some? && told.value.Invalid? ==> told == Some(Invalid(c.invalid(request).value)))
    && (told == Some(Draining) <==> c.invalid(request).None? && s.draining)
    && (told == Some(MemoryPressure) <==>
          c.invalid(request).None? && !s.draining && 0 < c.memoryBudget < Footprint(c.tokens(request), seen))
    && (told == Some(Overloaded) <==>
          && c.invalid(request).None? && !s.draining && |s.queue| >= c.maxQueue
          && (c.memoryBudget == 0 || Footprint(c.tokens(request), seen) <= c.memoryBudget))
    && (told.Some? ==> told.value.Invalid? || told.value.Draining? || told.value.MemoryPressure? || told.value.Overloaded?)
  }

  /** What `submit` does: a request not turned away goes to the end of the queue with its deadline; nothing else changes. */
  lemma SubmitDecides(c: LlmSettings, states: seq<LlmState>, actions: seq<LlmAction>, i: nat, r: Rid)
    requires IsRun(c, states, actions) && SubmittedAt(actions, i, r)
    ensures var s, s', request := states[i], states[i + 1], actions[i].request;
      && r !in s.reqs && r !in s.queue && s'.reqs.Keys == s.reqs.Keys + {r} && (forall q :: q in s.reqs ==> s'.reqs[q] == s.reqs[q])
      && s'.workers == s.workers && s'.pool == s.pool && s'.active == s.active && s'.draining == s.draining && s'.now == s.now
      && var p := s'.reqs[r];
      && p.request == request && p.deadline == actions[i].at + c.timeout && p.promise.None? && p.sets == 0 && !p.cancelled
      && TurnedAway(c, s, request, actions[i].seen, p.returned) && (p.returned.Some? <==> p.place.Done?)
      && s'.queue == if p.returned.None? then s.queue + [r] else s.queue
  {
    assert StepAt(c, states, actions, i);
    FitsFootprint(c, actions[i].request, actions[i].seen);
  }

  /** What the submitter of a request is told, given what it was told at once. */
  predicate Told(at: Option<Result>, p: Pending) {
    && (at.Some? ==> p.returned == at && p.promise.None? && p.place.Done?)
    && (at.None? && p.returned.Some? ==> p.returned.value.Timeout? || p.returned.value.Draining? || p.returned.value.Reply?)
  }

  lemma ToldStep(c: LlmSettings, at: Option<Result>, p: Pending, p': Pending)
    requires Told(at, p) && ST.Ages(p, p') && (p.promise.Some? ==> Right(c, p.request, p.promise.value))
    requires at.Some? ==> p'.promise == p.promise && p'.place.Done?
    ensures Told(at, p')
  {
  }

  /**
   * What the submitter is told in the end: the reason it was turned away for, if it was, and then it is never answered; otherwise an
   * answer, a timeout, or that the scheduler drains.
   */
  lemma {:induction false} RefusedExactly(c: LlmSettings, states: seq<LlmState>, actions: seq<LlmAction>, i: nat, k: nat, r: Rid)
    requires IsRun(c, states, actions) && SubmittedAt(actions, i, r) && i < k < |states|
    ensures r in states[i + 1].reqs && TurnedAway(c, states[i], actions[i].request, actions[i].seen, states[i + 1].reqs[r].returned)
    ensures r in states[k].reqs && Told(states[i + 1].reqs[r].returned, states[k].reqs[r])
    ensures states[k].reqs[r].deadline == actions[i].at + c.timeout && states[k].reqs[r].request == actions[i].request
    decreases k
  {
    SubmitDecides(c, states, actions, i, r);
    if k > i + 1 {
      RefusedExactly(c, states, actions, i, k - 1, r);
      RunEvolves(c, states, actions, k);
      Promise(c, states, actions, k - 1, r);
      if states[i + 1].reqs[r].returned.Some? {
        StaysUnanswered(c, states, actions, k, r);
      }
      ToldStep(c, states[i + 1].reqs[r].returned, states[k - 1].reqs[r], states[k].reqs[r]);
    }
  }

  lemma StaysUnanswered(c: LlmSettings, states: seq<LlmState>, actions: seq<LlmAction>, k: nat, r: Rid)
    requires IsRun(c, states, actions) && 0 < k < |states| && r in states[k - 1].reqs && states[k - 1].reqs[r].place.Done?
    ensures r in states[k].reqs && states[k].reqs[r].promise == states[k - 1].reqs[r].promise && states[k].reqs[r].place.Done?
  {
    RunStep(c, states, actions, k);
    DoneIsNowhere(c, states, actions, k - 1, r);
    UnheldKept(c, states[k - 1], actions[k - 1], states[k], r);
  }

  lemma DoneIsNowhere(c: LlmSettings, states: seq<LlmState>, actions: seq<LlmAction>, k: nat, r: Rid)
    requires IsRun(c, states, actions) && k < |states| && r in states[k].reqs && states[k].reqs[r].place.Done?
    ensures r !in states[k].queue && forall w :: !InHandOf(states[k], w, r)
  {
    InvAlways(c, states, actions, k);
    PlaceFacts(c, states[k], r);
  }

  lemma UnheldKept(c: LlmSettings, s: LlmState, a: LlmAction, s': LlmState, r: Rid)
    requires Steps(c, s, a, s') && r in s.reqs && s.reqs[r].place.Done? && r !in s.queue && forall w :: !InHandOf(s, w, r)
    ensures r in s'.reqs && s'.reqs[r].promise == s.reqs[r].promise && s'.reqs[r].place.Done?
  {
    if a.Tick? || a.Submit? || a.Return? || a.Stop? || a.RejectQueue? || a.Pop? {
      ClientKept(c, s, a, s', r);
    } else {
      WorkerKept(c, s, a, s', r);
    }
  }

  lemma ClientKept(c: LlmSettings, s: LlmState, a: LlmAction, s': LlmState, r: Rid)
    requires Steps(c, s, a, s') && (a.Tick? || a.Submit? || a.Return? || a.Stop? || a.RejectQueue? || a.Pop?)
    requires r in s.reqs && s.reqs[r].place.Done? && r !in s.queue
    ensures r in s'.reqs && s'.reqs[r].promise == s.reqs[r].promise && s'.reqs[r].place.Done?
  {
  }

  lemma WorkerKept(c: LlmSettings, s: LlmState, a: LlmAction, s': LlmState, r: Rid)
    requires Steps(c, s, a, s') && !(a.Tick? || a.Submit? || a.Return? || a.Stop? || a.RejectQueue? || a.Pop?)
    requires r in s.reqs && s.reqs[r].place.Done? && forall w :: !InHandOf(s, w, r)
    ensures r in s'.reqs && s'.reqs[r] == s.reqs[r]
  {
    assert !InHandOf(s, a.w, r);
  }

  /** What `submit` does when its wait is over: it returns the promise's value, or a timeout, past the deadline, after which the request counts as cancelled. */
  lemma ReturnDecides(c: LlmSettings, states: seq<LlmState>, actions: seq<LlmAction>, i: nat, r: Rid)
    requires IsRun(c, states, actions) && i < |actions| && actions[i] == Return(r)
    ensures var s, s' := states[i], states[i + 1];
      && r in s.reqs && s.reqs[r].returned.None? && (s.reqs[r].promise.Some? || s.now >= s.reqs[r].deadline)
      && s' == s.(reqs := s.reqs[r := if s.reqs[r].promise.Some? then s.reqs[r].(returned := s.reqs[r].promise)
                                      else s.reqs[r].(returned := Some(Timeout), cancelled := true)])
  {
    assert StepAt(c, states, actions, i);
  }

  // ------------------------------------------------------------------- order

  function Arrived(a: LlmAction): seq<Rid> {
    if a.Submit? then [a.r] else []
  }

  /** The requests of the first `k` steps in the order of their submission. */
  function Submissions(actions: seq<LlmAction>, k: nat): seq<Rid>
    requires k <= |actions|
  {
    if k == 0 then [] else Submissions(actions, k - 1) + Arrived(actions[k - 1])
  }

  lemma KnownStep(c: LlmSettings, s: LlmState, a: LlmAction, s': LlmState)
    requires Steps(c, s, a, s')
    ensures forall r :: r in s'.reqs <==> r in s.reqs || (a.Submit? && a.r == r)
  {
  }

  lemma {:induction false} SubmissionsKnown(c: LlmSettings, states: seq<LlmState>, actions: seq<LlmAction>, k: nat)
    requires IsRun(c, states, actions) && k < |states|
    ensures forall r :: r in Submissions(actions, k) <==> r in states[k].reqs
    decreases k
  {
    if k > 0 {
      SubmissionsKnown(c, states, actions, k - 1);
      RunStep(c, states, actions, k);
      KnownStep(c, states[k - 1], actions[k - 1], states[k]);
    }
  }

  lemma QueueMoves(c: LlmSettings, s: LlmState, a: LlmAction, s': LlmState)
    requires Steps(c, s, a, s')
    ensures Shifts(s.queue, s'.queue, Arrived(a))
  {
  }

  /** The queue is always in the order of submission. */
  lemma {:induction false} QueueInOrder(c: LlmSettings, states: seq<LlmState>, actions: seq<LlmAction>, k: nat)
    requires IsRun(c, states, actions) && k < |states|
    ensures InOrder(Submissions(actions, k), states[k].queue)
    decreases k
  {
    if k > 0 {
      QueueInOrder(c, states, actions, k - 1);
      SubmissionsKnown(c, states, actions, k - 1);
      RunStep(c, states, actions, k);
      var s, a, order := states[k - 1], actions[k - 1], Submissions(actions, k - 1);
      QueueMoves(c, s, a, states[k]);
      assert a.Submit? ==> a.r !in s.reqs;
      ShiftsKeeps(order, s.queue, states[k].queue, Arrived(a));
    }
  }

  /** A free worker takes the request that has waited longest. */
  lemma PopTakesOldest(c: LlmSettings, states: seq<LlmState>, actions: seq<LlmAction>, i: nat, w: Worker)
    requires IsRun(c, states, actions) && i < |actions| && actions[i] == Pop(w)
    ensures var s, s' := states[i], states[i + 1];
      && w in s.workers && s.workers[w].Idle? && s.queue != [] && w in s'.workers
      && s'.workers[w] == Holding(s.queue[0]) && s'.queue == s.queue[1..]
      && forall q :: q in s'.queue ==> Earlier(Submissions(actions, i), s.queue[0], q)
  {
    assert StepAt(c, states, actions, i);
    QueueInOrder(c, states, actions, i);
    HeadIsEarliest(Submissions(actions, i), states[i].queue);
  }

  // ------------------------------------------------------ through the worker

  /** What becomes of request `r` in the hands of a worker at its next step, whichever that is. */
  predicate GoesOn(c: LlmSettings, s: LlmState, a: LlmAction, pc: LlmPc, next: LlmPc, r: Rid)
    requires r in s.reqs
  {
    var late := s.now >= s.reqs[r].deadline;
    match pc
    case Holding(_) => a.Check? && next == if a.saw then Idle else if late then Answering(r, Timeout) else Asking(r)
    case Asking(_) => a.Acquire? && next == if s.draining || s.active >= c.slots then Answering(r, Timeout) else Owning(r)
    case Owning(_) => a.Launch? && next == if s.draining then Answering(r, Draining) else if late then Answering(r, Timeout) else Decoding(r)
    case Decoding(_) =>
      a.Decode? && next == Releasing(r, if a.stopped || late then Timeout else Reply(c.infer(s.reqs[r].request)))
    case Releasing(_, answer) => a.Release? && next == Answering(r, answer)
    case Answering(_, _) => a.Answer? && next == Idle
    case _ => false
  }

  /**
   * A worker's next step with a request, in any run: cancelled ones are let go, late ones answered with a timeout, a decode slot asked for,
   * the executor run and its answer given, unless the scheduler drains; the decode slot is taken and given back once, and the
   * answer is the one decided on.
   */
  lemma WorkerDecides(c: LlmSettings, states: seq<LlmState>, actions: seq<LlmAction>, i: nat, w: Worker)
    requires IsRun(c, states, actions) && i < |actions| && w in states[i].workers && Held(states[i].workers[w]).Some?
    requires w in states[i + 1].workers && states[i + 1].workers[w] != states[i].workers[w]
    ensures Decides(c, states[i], actions[i], states[i + 1], w)
  {
    assert StepAt(c, states, actions, i);
    InvAlways(c, states, actions, i);
    var s, a := states[i], actions[i];
    assert WorkerOk(c, s, w);
    if UsesSlot(s.workers[w]) {
      SlotsCounted(c, states, actions, i);
      assert w in SlotUsers(s);
    }
    OwnStep(c, s, a, states[i + 1], w);
    if a.Check? || a.Acquire? || a.Launch? {
      BeforeDecode(c, s, a, states[i + 1], w);
    } else {
      AfterDecode(c, s, a, states[i + 1], w);
    }
  }

  /** Nobody else moves a worker on. */
  lemma OwnStep(c: LlmSettings, s: LlmState, a: LlmAction, s': LlmState, w: Worker)
    requires Steps(c, s, a, s') && w in s.workers && w in s'.workers && s'.workers[w] != s.workers[w]
    ensures a.Pop? || a.Exit? || a.Check? || a.Acquire? || a.Launch? || a.Decode? || a.Release? || a.Answer?
    ensures a.w == w
  {
  }

  predicate Decides(c: LlmSettings, s: LlmState, a: LlmAction, s': LlmState, w: Worker)
    requires w in s.workers && Held(s.workers[w]).Some?
  {
    var r := Held(s.workers[w]).value;
    && r in s.reqs && r in s'.reqs && w in s'.workers && GoesOn(c, s, a, s.workers[w], s'.workers[w], r)
    && s'.active == s.active + (if UsesSlot(s'.workers[w]) then 1 else 0) - (if UsesSlot(s.workers[w]) then 1 else 0)
    && (s.workers[w].Answering? ==> s'.reqs[r].promise == if a.Answer? && a.saw then s.reqs[r].promise else Some(s.workers[w].answer))
    && (!s.workers[w].Answering? ==> s'.reqs[r].promise == s.reqs[r].promise)
  }

  lemma BeforeDecode(c: LlmSettings, s: LlmState, a: LlmAction, s': LlmState, w: Worker)
    requires Steps(c, s, a, s') && (a.Check? || a.Acquire? || a.Launch?) && a.w == w && w in s.workers && Held(s.workers[w]).Some?
    requires Held(s.workers[w]).value in s.reqs && (UsesSlot(s.workers[w]) ==> s.active > 0)
    ensures Decides(c, s, a, s', w)
  {
  }

  lemma AfterDecode(c: LlmSettings, s: LlmState, a: LlmAction, s': LlmState, w: Worker)
    requires Steps(c, s, a, s') && (a.Decode? || a.Release? || a.Answer?) && a.w == w && w in s.workers && Held(s.workers[w]).Some?
    requires Held(s.workers[w]).value in s.reqs && (UsesSlot(s.workers[w]) ==> s.active > 0)
    ensures Decides(c, s, a, s', w)
  {
  }

  /** Giving back a slot lowers the 64-bit counter by one, modulo its range. */
  lemma ReleaseLowers(s: LlmState, w: Worker, pc: LlmPc)
    requires s.active < 0x1_0000_0000_0000_0000
    ensures Slotless(s, w, pc).active == (s.active + 0xFFFF_FFFF_FFFF_FFFF) % 0x1_0000_0000_0000_0000
  {
  }

  /** `rejectQueuedRequests`: every queued request is answered with Draining, and the others are left alone. */
  lemma RejectAnswers(s: LlmState, r: Rid)
    requires (forall q :: q in s.queue ==> q in s.reqs) && r in s.reqs
    ensures LlmRejectedAll(s).queue == [] && r in LlmRejectedAll(s).reqs
    ensures r in s.queue ==> LlmRejectedAll(s).reqs[r].promise == Some(Draining) && LlmRejectedAll(s).reqs[r].sets == s.reqs[r].sets + 1
    ensures r !in s.queue ==> LlmRejectedAll(s).reqs[r] == s.reqs[r]
  {
  }

  // ------------------------------------------------------------------ progress

  /** Some step of worker `w` is possible. */
  ghost predicate CanStep(c: LlmSettings, s: LlmState, w: Worker) {
    exists a :: Enabled(c, s, a) && !(a.Tick? || a.Submit? || a.Return? || a.Stop? || a.RejectQueue?) && a.w == w
  }

  /** A worker waits only for work, in any run: with a request in hand it can always go on, for a decode slot too, until it has left. */
  lemma WorkerWaitsExactly(c: LlmSettings, states: seq<LlmState>, actions: seq<LlmAction>, k: nat, w: Worker)
    requires IsRun(c, states, actions) && k < |states| && w in states[k].workers
    ensures CanStep(c, states[k], w) <==>
      var pc := states[k].workers[w]; !pc.Gone? && (pc.Idle? ==> states[k].queue != [] || states[k].draining)
  {
    InvAlways(c, states, actions, k);
    var s := states[k];
    assert WorkerOk(c, s, w);
    if s.workers[w].Idle? || s.workers[w].Gone? {
      IdleWaits(c, s, w);
    } else {
      if s.workers[w].Asking? {
        AskingFindsSlot(c, states, actions, k, w);
      }
      BusySteps(c, s, w);
    }
  }

  lemma IdleWaits(c: LlmSettings, s: LlmState, w: Worker)
    requires Closed(s) && w in s.workers && (s.workers[w].Idle? || s.workers[w].Gone?)
    ensures CanStep(c, s, w) <==> s.workers[w].Idle? && (s.queue != [] || s.draining)
  {
    if s.workers[w].Idle? {
      assert s.queue != [] ==> Enabled(c, s, Pop(w));
      assert s.queue == [] && s.draining ==> Enabled(c, s, Exit(w));
    }
  }

  lemma BusySteps(c: LlmSettings, s: LlmState, w: Worker)
    requires Closed(s) && w in s.workers && !s.workers[w].Idle? && !s.workers[w].Gone?
    requires s.workers[w].Asking? ==> Enabled(c, s, Acquire(w))
    ensures CanStep(c, s, w)
  {
    var a := match s.workers[w]
      case Holding(_) => Check(w, false)
      case Asking(_) => Acquire(w)
      case Owning(_) => Launch(w)
      case Decoding(_) => Decode(w, false)
      case Releasing(_, _) => Release(w)
      case _ => Answer(w, false);
    assert Enabled(c, s, a);
  }

  /** Whenever its inference ends, a request may find its cancel token set. */
  lemma StopsAnyDecode(c: LlmSettings, s: LlmState, w: Worker, stopped: bool)
    requires Closed(s) && w in s.workers && s.workers[w].Decoding?
    ensures Enabled(c, s, Decode(w, stopped))
  {
  }
}
