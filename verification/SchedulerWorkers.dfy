/** Every worker step of the tensor scheduler keeps the scheduler's invariant. */
module SchedulerWorkers {
  import opened Wrappers
  import opened Tensors
  import opened BatchCompatibility
  import opened DynamicBatcher
  import opened ExecutorPool
  import opened BatchMeaning
  import opened SplitTheorems
  import opened SchedulerSteps
  import opened SchedulerProtocol

  // ------------------------------------------------------------- taking one off the queue

  lemma WithoutFacts<T>(xs: seq<T>, i: nat)
    requires i < |xs|
    ensures |Without(xs, i)| == |xs| - 1
    ensures NoDuplicates(xs) ==> NoDuplicates(Without(xs, i)) && xs[i] !in Without(xs, i)
    ensures forall x :: x in Without(xs, i) ==> x in xs
    ensures forall x :: x in xs && x != xs[i] ==> x in Without(xs, i)
  {
    var ys := Without(xs, i);
    forall x | x in xs && x != xs[i] ensures x in ys {
      var k :| 0 <= k < |xs| && xs[k] == x;
      assert ys[if k < i then k else k - 1] == x;
    }
  }

  /** The worker's next list holds its old one, and the request it took if it kept it. */
  lemma TakenMoves(s: State, w: Worker, i: nat, pc: Pc)
    requires w in s.workers && i < |s.queue| && s.queue[i] in s.reqs && s.reqs[s.queue[i]].place.Queued?
    requires NoDuplicates(s.queue)
    requires forall r :: r in Hand(s.workers[w]) ==> r in Hand(pc)
    ensures Moves(s, TakenOut(s, w, i, pc), w, {s.queue[i]}) && QueueShrinks(s, TakenOut(s, w, i, pc), {s.queue[i]})
  {
    WithoutFacts(s.queue, i);
  }

  lemma TakenKeeps(c: Settings, s: State, w: Worker, i: nat, pc: Pc)
    requires w in s.workers && i < |s.queue| && s.queue[i] in s.reqs && Shared(c, s) && PromiseOk(c, s.now, s.reqs[s.queue[i]])
    requires forall r :: r in Hand(s.workers[w]) ==> r in Hand(pc)
    requires s.queue[i] in Hand(pc)
    requires !s.workers[w].Running? && !pc.Running? && !pc.Exited?
    requires WorkerOk(c, TakenOut(s, w, i, pc), w)
    ensures StepOk(c, s, TakenOut(s, w, i, pc), Some(w), {s.queue[i]})
  {
    var s', r := TakenOut(s, w, i, pc), s.queue[i];
    assert r in s.queue;
    TakenMoves(s, w, i, pc);
    MovesPool(s, s', w, {r});
    TakenSettles(c, s, w, i, pc);
    MovesKeeps(c, s, s', w, {r});
  }

  lemma TakenSettles(c: Settings, s: State, w: Worker, i: nat, pc: Pc)
    requires i < |s.queue| && s.queue[i] in s.reqs && PromiseOk(c, s.now, s.reqs[s.queue[i]]) && s.reqs[s.queue[i]].place.Queued?
    requires s.queue[i] in Hand(pc)
    ensures Settled(c, TakenOut(s, w, i, pc), {s.queue[i]})
  {
  }

  /** The hand grows by the request taken; requests in hand keep their place. */
  lemma TakenHand(s: State, w: Worker, i: nat, pc: Pc, batch: seq<Rid>)
    requires w in s.workers && i < |s.queue| && s.queue[i] in s.reqs && s.reqs[s.queue[i]].place.Queued?
    requires NoDuplicates(batch) && forall r :: r in batch ==> Held(s, w, r)
    requires Hand(pc) == batch + [s.queue[i]]
    requires ClosedPc(TakenOut(s, w, i, pc), w)
    ensures HandOk(TakenOut(s, w, i, pc), w)
  {
    var s', r, h := TakenOut(s, w, i, pc), s.queue[i], Hand(pc);
    forall q | q in h ensures Held(s', w, q) {
      if q != r {
        assert q in batch;
      }
    }
    assert !Held(s, w, r);
  }

  lemma TakenClosed(s: State, w: Worker, i: nat, pc: Pc, batch: seq<Rid>)
    requires w in s.workers && i < |s.queue| && s.queue[i] in s.reqs
    requires forall r :: r in batch ==> r in s.reqs
    requires pc.Forming? || pc.Expiring?
    requires pc.Forming? ==> pc.batch == batch + [s.queue[i]]
    requires pc.Expiring? ==> batch != [] && pc.batch == batch && pc.expired == s.queue[i]
    ensures ClosedPc(TakenOut(s, w, i, pc), w) && Hand(pc) == batch + [s.queue[i]]
  {
  }

  lemma TakenSets(s: State, w: Worker, i: nat, pc: Pc, batch: seq<Rid>)
    requires w in s.workers && i < |s.queue| && s.queue[i] in s.reqs && s.reqs[s.queue[i]].sets == 0
    requires forall r :: r in batch ==> Unset(s, r)
    requires Hand(pc) == batch + [s.queue[i]] && (pc.Forming? || pc.Expiring?)
    requires pc.Expiring? ==> pc.expired in s.reqs && Late(s.now, s.reqs[pc.expired])
    ensures SetsOk(TakenOut(s, w, i, pc), w)
  {
  }

  lemma PoppedWorker(c: Settings, s: State, w: Worker)
    requires w in s.workers && s.queue != [] && s.queue[0] in s.reqs
    requires s.reqs[s.queue[0]].place.Queued? && s.reqs[s.queue[0]].sets == 0
    ensures WorkerOk(c, Popped(c, s, w), w)
  {
    var pc := Forming([s.queue[0]], s.now + c.maxDelay);
    assert [] + [s.queue[0]] == [s.queue[0]];
    TakenClosed(s, w, 0, pc, []);
    TakenHand(s, w, 0, pc, []);
    TakenSets(s, w, 0, pc, []);
  }

  lemma PoppedKeeps(c: Settings, s: State, w: Worker)
    requires Shared(c, s) && w in s.workers && s.workers[w].Popping? && s.queue != []
    requires s.queue[0] in s.reqs && PromiseOk(c, s.now, s.reqs[s.queue[0]])
    ensures StepOk(c, s, Popped(c, s, w), Some(w), {s.queue[0]})
  {
    assert s.queue[0] in s.queue;
    PoppedWorker(c, s, w);
    var pc := Forming([s.queue[0]], s.now + c.maxDelay);
    assert Popped(c, s, w) == TakenOut(s, w, 0, pc);
    TakenKeeps(c, s, w, 0, pc);
  }

  lemma ExpiredKeeps(c: Settings, s: State, w: Worker, i: nat)
    requires Shared(c, s) && w in s.workers && s.workers[w].Forming? && WorkerOk(c, s, w)
    requires i < |s.queue| && s.queue[i] in s.reqs && PromiseOk(c, s.now, s.reqs[s.queue[i]])
    requires Late(s.now, s.reqs[s.queue[i]])
    ensures StepOk(c, s, TakenOut(s, w, i, Expiring(s.workers[w].batch, s.workers[w].until, s.queue[i])), Some(w), {s.queue[i]})
  {
    var batch := s.workers[w].batch;
    var pc := Expiring(batch, s.workers[w].until, s.queue[i]);
    assert s.queue[i] in s.queue;
    assert forall r :: r in batch ==> Held(s, w, r);
    TakenClosed(s, w, i, pc, batch);
    TakenHand(s, w, i, pc, batch);
    TakenSets(s, w, i, pc, batch);
    SameKinds(c, s, TakenOut(s, w, i, pc), batch);
    TakenKeeps(c, s, w, i, pc);
  }

  // ---------------------------------------------------------------- growing a batch

  lemma DimensionAppend(s: State, h: seq<Rid>, r: Rid)
    requires r in s.reqs && forall q :: q in h ==> q in s.reqs
    ensures Dimension(s, h + [r]) == Dimension(s, h) + Wrap(BatchSize(s.reqs[r].request))
  {
    var all := SizesOf(RequestsOf(s, h + [r]));
    assert all[..|h|] == SizesOf(RequestsOf(s, h));
  }

  /** Being of one kind passes from the front to every member. */
  lemma GrownKin(c: Settings, s: State, batch: seq<Rid>, r: Rid)
    requires batch != [] && r in s.reqs && Kin(c, s, batch)
    requires SameKind(s.reqs[batch[0]].request, s.reqs[r].request) && SameKind(s.reqs[r].request, s.reqs[r].request)
    requires c.batching && Dimension(s, batch) + Wrap(BatchSize(s.reqs[r].request)) <= c.maxBatch
    ensures Kin(c, s, batch + [r])
  {
    DimensionAppend(s, batch, r);
    forall p, q | p in batch + [r] && q in batch + [r] ensures SameKind(s.reqs[p].request, s.reqs[q].request) {
      KindThroughFront(s, batch, r, p);
      KindThroughFront(s, batch, r, q);
    }
  }

  lemma KindThroughFront(s: State, batch: seq<Rid>, r: Rid, p: Rid)
    requires batch != [] && r in s.reqs && p in batch + [r] && forall q :: q in batch ==> q in s.reqs
    requires SameKind(s.reqs[batch[0]].request, s.reqs[r].request)
    requires |batch| > 1 ==> forall r, q :: r in batch && q in batch ==> SameKind(s.reqs[r].request, s.reqs[q].request)
    ensures p in s.reqs && SameKind(s.reqs[batch[0]].request, s.reqs[p].request)
  {
  }

  lemma TakesOneKind(c: Settings, s: State, batch: seq<Rid>, r: Rid)
    requires batch != [] && r in s.reqs && Kin(c, s, batch) && Takes(c, s, batch, r) && c.batching
    requires Admissible(s.reqs[batch[0]].request) && Admissible(s.reqs[r].request)
    ensures Kin(c, s, batch + [r])
  {
    FrontKind(s.reqs[batch[0]].request, s.reqs[r].request);
    GrownKin(c, s, batch, r);
  }

  lemma FrontKind(front: Request, next: Request)
    requires Admissible(front) && Admissible(next) && Compatible(front, next)
    ensures SameKind(front, next) && SameKind(next, next)
  {
    CompatibleIsSameKind(front, next);
  }

  lemma TookKeeps(c: Settings, s: State, w: Worker, i: nat)
    requires Shared(c, s) && w in s.workers && s.workers[w].Forming? && WorkerOk(c, s, w)
    requires i < |s.queue| && s.queue[i] in s.reqs && PromiseOk(c, s.now, s.reqs[s.queue[i]])
    requires Kin(c, s, s.workers[w].batch + [s.queue[i]])
    ensures StepOk(c, s, TakenOut(s, w, i, Forming(s.workers[w].batch + [s.queue[i]], s.workers[w].until)), Some(w), {s.queue[i]})
  {
    var batch := s.workers[w].batch;
    var pc := Forming(batch + [s.queue[i]], s.workers[w].until);
    assert s.queue[i] in s.queue;
    assert forall r :: r in batch ==> Held(s, w, r);
    TakenClosed(s, w, i, pc, batch);
    TakenHand(s, w, i, pc, batch);
    TakenSets(s, w, i, pc, batch);
    SameKinds(c, s, TakenOut(s, w, i, pc), batch + [s.queue[i]]);
    TakenKeeps(c, s, w, i, pc);
  }

  // -------------------------------------------------------------- dropping from the queue

  lemma DroppedMoves(s: State, w: Worker, i: nat)
    requires w in s.workers && i < |s.queue| && s.queue[i] in s.reqs && s.reqs[s.queue[i]].place.Queued?
    requires NoDuplicates(s.queue)
    ensures Moves(s, Dropped(s, i), w, {s.queue[i]}) && QueueShrinks(s, Dropped(s, i), {s.queue[i]})
  {
    WithoutFacts(s.queue, i);
  }

  lemma DroppedSettles(c: Settings, s: State, i: nat)
    requires i < |s.queue| && s.queue[i] in s.reqs && PromiseOk(c, s.now, s.reqs[s.queue[i]]) && s.reqs[s.queue[i]].place.Queued?
    requires s.reqs[s.queue[i]].cancelled
    ensures Settled(c, Dropped(s, i), {s.queue[i]})
  {
  }

  lemma DroppedWorker(c: Settings, s: State, w: Worker, i: nat)
    requires w in s.workers && i < |s.queue| && s.queue[i] in s.reqs && s.reqs[s.queue[i]].place.Queued?
    requires WorkerOk(c, s, w)
    ensures WorkerOk(c, Dropped(s, i), w)
  {
    assert Local(s, Dropped(s, i), None);
    WorkerFrame(c, s, Dropped(s, i), None, w);
  }

  lemma DroppedKeeps(c: Settings, s: State, w: Worker, i: nat)
    requires Shared(c, s) && w in s.workers && s.workers[w].Forming? && WorkerOk(c, s, w)
    requires i < |s.queue| && s.queue[i] in s.reqs && PromiseOk(c, s.now, s.reqs[s.queue[i]])
    requires s.reqs[s.queue[i]].cancelled
    ensures StepOk(c, s, Dropped(s, i), Some(w), {s.queue[i]})
  {
    var r := s.queue[i];
    assert r in s.queue;
    DroppedMoves(s, w, i);
    DroppedSettles(c, s, i);
    DroppedWorker(c, s, w, i);
    MovesPool(s, Dropped(s, i), w, {r});
    MovesKeeps(c, s, Dropped(s, i), w, {r});
  }

  // -------------------------------------------------------- moving on, queue untouched

  /** The worker moves on and no request changes. */
  lemma WentMoves(s: State, w: Worker, pc: Pc)
    requires w in s.workers && forall r :: r in Hand(s.workers[w]) ==> r in Hand(pc)
    ensures Moves(s, Goto(s, w, pc), w, {}) && QueueShrinks(s, Goto(s, w, pc), {})
  {
  }

  lemma WentKeeps(c: Settings, s: State, w: Worker, pc: Pc)
    requires w in s.workers && Shared(c, s)
    requires forall r :: r in Hand(s.workers[w]) ==> r in Hand(pc)
    requires !s.workers[w].Running? && !pc.Running? && !pc.Exited?
    requires WorkerOk(c, Goto(s, w, pc), w)
    ensures StepOk(c, s, Goto(s, w, pc), Some(w), {})
  {
    WentMoves(s, w, pc);
    MovesPool(s, Goto(s, w, pc), w, {});
    MovesKeeps(c, s, Goto(s, w, pc), w, {});
  }

  /** The worker moves on and request `r` of its hand becomes `p`. */
  function Handled(s: State, w: Worker, r: Rid, p: Pending, pc: Pc): State {
    Goto(Put(s, r, p), w, pc)
  }

  predicate Follows(p: Pending, p': Pending) {
    p'.request == p.request && p'.deadline == p.deadline
  }

  lemma HandledMoves(s: State, w: Worker, r: Rid, p: Pending, pc: Pc)
    requires w in s.workers && Held(s, w, r) && Follows(s.reqs[r], p)
    requires forall q :: q in Hand(s.workers[w]) && q != r ==> q in Hand(pc)
    requires r !in s.queue
    ensures Moves(s, Handled(s, w, r, p, pc), w, {r}) && QueueShrinks(s, Handled(s, w, r, p, pc), {r})
  {
  }

  lemma HandledKeeps(c: Settings, s: State, w: Worker, r: Rid, p: Pending, pc: Pc)
    requires w in s.workers && Held(s, w, r) && Follows(s.reqs[r], p) && Shared(c, s)
    requires forall q :: q in Hand(s.workers[w]) && q != r ==> q in Hand(pc)
    requires !s.workers[w].Running? && !pc.Running? && !pc.Exited?
    requires p.place == Done || (p.place == With(w) && r in Hand(pc))
    requires PromiseOk(c, s.now, p)
    requires WorkerOk(c, Handled(s, w, r, p, pc), w)
    ensures StepOk(c, s, Handled(s, w, r, p, pc), Some(w), {r})
  {
    var s' := Handled(s, w, r, p, pc);
    assert r !in s.queue;
    HandledMoves(s, w, r, p, pc);
    MovesPool(s, s', w, {r});
    assert Placed(s', r);
    MovesKeeps(c, s, s', w, {r});
  }

  /** Answering a request nobody has answered, with a right answer, and letting go of it. */
  lemma AnswerIsOk(c: Settings, now: int, p: Pending, v: Result, saw: bool)
    requires saw ==> p.cancelled
    requires PromiseOk(c, now, p) && p.place.With? && p.sets == 0 && RightAnswer(c, p.request, Late(now, p), v)
    ensures PromiseOk(c, now, Fulfil(p, v, saw)) && PromiseOk(c, now, Fulfil(p, v, saw).(place := Done))
  {
  }

  lemma AnsweredKeeps(c: Settings, s: State, w: Worker, r: Rid, v: Result, saw: bool, pc: Pc)
    requires w in s.workers && Held(s, w, r) && Shared(c, s)
    requires forall q :: q in Hand(s.workers[w]) && q != r ==> q in Hand(pc)
    requires !s.workers[w].Running? && !pc.Running? && !pc.Exited?
    requires PromiseOk(c, s.now, s.reqs[r]) && Unset(s, r) && ReplyOk(c, s, r, v) && (saw ==> s.reqs[r].cancelled)
    requires WorkerOk(c, Answered(s, w, r, v, saw, pc), w)
    ensures StepOk(c, s, Answered(s, w, r, v, saw, pc), Some(w), {r})
  {
    AnswerIsOk(c, s.now, s.reqs[r], v, saw);
    var p := Fulfil(s.reqs[r], v, saw).(place := Done);
    assert Answered(s, w, r, v, saw, pc) == Handled(s, w, r, p, pc);
    HandledKeeps(c, s, w, r, p, pc);
  }

  lemma HandledHand(s: State, w: Worker, r: Rid, p: Pending, pc: Pc)
    requires w in s.workers && HandOk(s, w) && ClosedPc(Handled(s, w, r, p, pc), w)
    requires NoDuplicates(Hand(pc))
    requires forall q :: q in Hand(pc) ==> q in Hand(s.workers[w]) && (q == r ==> p.place == With(w))
    ensures HandOk(Handled(s, w, r, p, pc), w)
  {
  }

  // ------------------------------------------------------------------ expired in the queue

  lemma NoDuplicatesPrefix<T>(xs: seq<T>, x: T)
    requires NoDuplicates(xs + [x])
    ensures NoDuplicates(xs) && x !in xs
  {
    assert forall i :: 0 <= i < |xs| ==> (xs + [x])[i] == xs[i];
    assert (xs + [x])[|xs|] == x;
  }

  lemma AnsweredExpiredWorker(c: Settings, s: State, w: Worker, saw: bool)
    requires w in s.workers && s.workers[w].Expiring? && WorkerOk(c, s, w)
    ensures var pc := s.workers[w];
      pc.expired in s.reqs && WorkerOk(c, Answered(s, w, pc.expired, Timeout, saw, Forming(pc.batch, pc.until)), w)
  {
    var pc := s.workers[w];
    var r, pc' := pc.expired, Forming(pc.batch, pc.until);
    assert Hand(pc)[|pc.batch|] == r;
    assert forall q :: q in pc.batch ==> q in Hand(pc);
    NoDuplicatesPrefix(pc.batch, r);
    var p := Fulfil(s.reqs[r], Timeout, saw).(place := Done);
    HandledHand(s, w, r, p, pc');
    SameKinds(c, s, Handled(s, w, r, p, pc'), pc.batch);
    assert forall q :: q in pc.batch ==> Unset(s, q);
  }

  lemma AnsweredExpiredKeeps(c: Settings, s: State, w: Worker, saw: bool)
    requires Shared(c, s) && w in s.workers && s.workers[w].Expiring? && WorkerOk(c, s, w)
    requires s.workers[w].expired in s.reqs && PromiseOk(c, s.now, s.reqs[s.workers[w].expired])
    requires saw ==> s.reqs[s.workers[w].expired].cancelled
    ensures var pc := s.workers[w];
      StepOk(c, s, Answered(s, w, pc.expired, Timeout, saw, Forming(pc.batch, pc.until)), Some(w), {pc.expired})
  {
    var pc := s.workers[w];
    var r := pc.expired;
    AnsweredExpiredWorker(c, s, w, saw);
    assert Hand(pc)[|pc.batch|] == r;
    assert Unset(s, r) && Held(s, w, r);
    AnsweredKeeps(c, s, w, r, Timeout, saw, Forming(pc.batch, pc.until));
  }

  // ------------------------------------------------------------------- sweeping expired members

  lemma WentHand(s: State, w: Worker, pc: Pc)
    requires w in s.workers && HandOk(s, w) && ClosedPc(Goto(s, w, pc), w) && Hand(pc) == Hand(s.workers[w])
    ensures HandOk(Goto(s, w, pc), w)
  {
    assert forall r :: r in Hand(pc) ==> Held(s, w, r);
  }

  lemma EndFormingKeeps(c: Settings, s: State, w: Worker)
    requires Shared(c, s) && w in s.workers && s.workers[w].Forming? && WorkerOk(c, s, w)
    ensures StepOk(c, s, Goto(s, w, Sweeping(s.workers[w].batch, 0, s.now)), Some(w), {})
  {
    var batch := s.workers[w].batch;
    var pc := Sweeping(batch, 0, s.now);
    WentHand(s, w, pc);
    SameKinds(c, s, Goto(s, w, pc), batch);
    EndFormingSets(s, w);
    WentKeeps(c, s, w, pc);
  }

  lemma EndFormingSets(s: State, w: Worker)
    requires w in s.workers && s.workers[w].Forming? && SetsOk(s, w)
    ensures SetsOk(Goto(s, w, Sweeping(s.workers[w].batch, 0, s.now)), w)
  {
    var batch := s.workers[w].batch;
    assert forall k :: 0 <= k < |batch| ==> batch[k] in Hand(s.workers[w]);
  }

  /** Moving on with the same hand, while still choosing whom to run. */
  lemma ChoosingKeeps(c: Settings, s: State, w: Worker, pc: Pc)
    requires Shared(c, s) && w in s.workers && WorkerOk(c, s, w) && (s.workers[w].Sweeping? || s.workers[w].Filtering?)
    requires pc.Sweeping? || pc.Filtering? || pc.Starting?
    requires ClosedPc(Goto(s, w, pc), w) && Hand(pc) == Hand(s.workers[w]) && SetsOk(Goto(s, w, pc), w)
    ensures StepOk(c, s, Goto(s, w, pc), Some(w), {})
  {
    WentHand(s, w, pc);
    SameKinds(c, s, Goto(s, w, pc), Hand(pc));
    WentKeeps(c, s, w, pc);
  }

  lemma SweptEndSets(s: State, w: Worker, next: Pc)
    requires w in s.workers && s.workers[w].Sweeping? && HandOk(s, w) && SetsOk(s, w)
    requires s.workers[w].i == |s.workers[w].batch| && next == Filtering(s.workers[w].batch, 0, [])
    ensures SetsOk(Goto(s, w, next), w)
  {
  }

  lemma SweptEndHand(s: State, w: Worker, next: Pc)
    requires w in s.workers && s.workers[w].Sweeping? && ClosedPc(s, w) && next == Filtering(s.workers[w].batch, 0, [])
    ensures Hand(next) == Hand(s.workers[w]) && ClosedPc(Goto(s, w, next), w)
  {
    assert s.workers[w].batch[0..] == s.workers[w].batch;
  }

  lemma SweptSkipSets(s: State, w: Worker, next: Pc)
    requires w in s.workers && s.workers[w].Sweeping? && HandOk(s, w) && SetsOk(s, w)
    requires var pc := s.workers[w]; pc.i < |pc.batch| && next == Sweeping(pc.batch, pc.i + 1, pc.at)
    ensures SetsOk(Goto(s, w, next), w)
  {
    var pc := s.workers[w];
    assert Unset(s, pc.batch[pc.i]);
  }

  lemma SweptAnswerSets(s: State, w: Worker)
    requires w in s.workers && s.workers[w].Sweeping? && HandOk(s, w) && SetsOk(s, w)
    requires var pc := s.workers[w]; pc.i < |pc.batch| && pc.batch[pc.i] in s.reqs && pc.at >= s.reqs[pc.batch[pc.i]].deadline
    ensures var pc := s.workers[w]; var r := pc.batch[pc.i];
      SetsOk(Handled(s, w, r, Fulfil(s.reqs[r], Timeout, false), Sweeping(pc.batch, pc.i + 1, pc.at)), w)
  {
    var pc := s.workers[w];
    var r := pc.batch[pc.i];
    var s' := Handled(s, w, r, Fulfil(s.reqs[r], Timeout, false), Sweeping(pc.batch, pc.i + 1, pc.at));
    assert NoDuplicates(pc.batch);
    assert UnsetOrExpired(s', r, pc.at);
    forall k | 0 <= k < |pc.batch| && k != pc.i ensures pc.batch[k] != r {
    }
  }

  lemma SweptAnswerWorker(c: Settings, s: State, w: Worker)
    requires w in s.workers && s.workers[w].Sweeping? && WorkerOk(c, s, w)
    requires var pc := s.workers[w]; pc.i < |pc.batch| && pc.batch[pc.i] in s.reqs && pc.at >= s.reqs[pc.batch[pc.i]].deadline
    ensures var pc := s.workers[w]; var r := pc.batch[pc.i];
      WorkerOk(c, Handled(s, w, r, Fulfil(s.reqs[r], Timeout, false), Sweeping(pc.batch, pc.i + 1, pc.at)), w)
  {
    var pc := s.workers[w];
    var r, pc' := pc.batch[pc.i], Sweeping(pc.batch, pc.i + 1, pc.at);
    var p := Fulfil(s.reqs[r], Timeout, false);
    assert r in Hand(pc) && Held(s, w, r);
    SweptAnswerSets(s, w);
    HandledHand(s, w, r, p, pc');
    SameKinds(c, s, Handled(s, w, r, p, pc'), pc.batch);
  }

  lemma SweptAnswerKeeps(c: Settings, s: State, w: Worker)
    requires Shared(c, s) && w in s.workers && s.workers[w].Sweeping? && WorkerOk(c, s, w)
    requires var pc := s.workers[w];
      pc.i < |pc.batch| && pc.batch[pc.i] in s.reqs && pc.at >= s.reqs[pc.batch[pc.i]].deadline && PromiseOk(c, s.now, s.reqs[pc.batch[pc.i]])
    ensures var pc := s.workers[w]; var r := pc.batch[pc.i];
      StepOk(c, s, Handled(s, w, r, Fulfil(s.reqs[r], Timeout, false), Sweeping(pc.batch, pc.i + 1, pc.at)), Some(w), {r})
  {
    var pc := s.workers[w];
    var r := pc.batch[pc.i];
    assert r in Hand(pc) && Held(s, w, r) && Unset(s, r);
    SweptAnswerWorker(c, s, w);
    AnswerIsOk(c, s.now, s.reqs[r], Timeout, false);
    HandledKeeps(c, s, w, r, Fulfil(s.reqs[r], Timeout, false), Sweeping(pc.batch, pc.i + 1, pc.at));
  }

  lemma SweptEndKeeps(c: Settings, s: State, w: Worker, next: Pc)
    requires Shared(c, s) && w in s.workers && s.workers[w].Sweeping? && WorkerOk(c, s, w)
    requires s.workers[w].i == |s.workers[w].batch| && next == Filtering(s.workers[w].batch, 0, [])
    ensures StepOk(c, s, Goto(s, w, next), Some(w), {})
  {
    SweptEndSets(s, w, next);
    SweptEndHand(s, w, next);
    ChoosingKeeps(c, s, w, next);
  }

  lemma SweptSkipKeeps(c: Settings, s: State, w: Worker, next: Pc)
    requires Shared(c, s) && w in s.workers && s.workers[w].Sweeping? && WorkerOk(c, s, w)
    requires var pc := s.workers[w]; pc.i < |pc.batch| && next == Sweeping(pc.batch, pc.i + 1, pc.at)
    ensures StepOk(c, s, Goto(s, w, next), Some(w), {})
  {
    SweptSkipSets(s, w, next);
    ChoosingKeeps(c, s, w, next);
  }

  lemma InHand(c: Settings, s: State, w: Worker, r: Rid)
    requires Inv(c, s) && w in s.workers && r in Hand(s.workers[w])
    ensures r in s.reqs && Held(s, w, r) && PromiseOk(c, s.now, s.reqs[r])
  {
  }

  lemma SweptInv(c: Settings, s: State, w: Worker, saw: bool)
    requires Inv(c, s) && w in s.workers && s.workers[w].Sweeping? && s.workers[w].i <= |s.workers[w].batch|
    requires forall r :: r in s.workers[w].batch ==> r in s.reqs
    ensures var pc := s.workers[w]; Inv(c, Swept(s, w, pc.batch, pc.i, pc.at, saw))
  {
    var pc := s.workers[w];
    var i, s' := pc.i, Swept(s, w, pc.batch, pc.i, pc.at, saw);
    if i == |pc.batch| {
      SweptEndKeeps(c, s, w, Filtering(pc.batch, 0, []));
      Assemble(c, s, s', Some(w), {});
    } else {
      var r := pc.batch[i];
      InHand(c, s, w, r);
      if !saw && pc.at >= s.reqs[r].deadline {
        SweptAnswerKeeps(c, s, w);
        Assemble(c, s, s', Some(w), {r});
      } else {
        SweptSkipKeeps(c, s, w, Sweeping(pc.batch, i + 1, pc.at));
        Assemble(c, s, s', Some(w), {});
      }
    }
  }

  // ------------------------------------------------------------------- filtering

  lemma {:induction false} SumWithout(ns: seq<nat>, i: nat)
    requires i < |ns|
    ensures Sum(Without(ns, i)) + ns[i] == Sum(ns)
  {
    var last := |ns| - 1;
    var fewer := Without(ns, i);
    if i < last {
      SumWithout(ns[..last], i);
      assert fewer[..|fewer| - 1] == Without(ns[..last], i);
    } else {
      assert fewer == ns[..last];
    }
  }

  lemma DimensionWithout(s: State, h: seq<Rid>, i: nat)
    requires i < |h| && forall r :: r in h ==> r in s.reqs
    ensures forall r :: r in Without(h, i) ==> r in s.reqs
    ensures Dimension(s, Without(h, i)) <= Dimension(s, h)
  {
    var sizes := SizesOf(RequestsOf(s, h));
    assert forall r :: r in Without(h, i) ==> r in h;
    SumWithout(sizes, i);
    assert SizesOf(RequestsOf(s, Without(h, i))) == Without(sizes, i);
  }

  lemma KinWithout(c: Settings, s: State, h: seq<Rid>, i: nat)
    requires i < |h| && Kin(c, s, h)
    ensures Kin(c, s, Without(h, i))
  {
    DimensionWithout(s, h, i);
    WithoutFacts(h, i);
  }

  lemma FilterHand(batch: seq<Rid>, i: nat, active: seq<Rid>)
    requires i < |batch|
    ensures var h := Hand(Filtering(batch, i, active));
      && h[|active|] == batch[i]
      && Hand(Filtering(batch, i + 1, active + [batch[i]])) == h
      && Hand(Filtering(batch, i + 1, active)) == Without(h, |active|)
  {
    var h := Hand(Filtering(batch, i, active));
    assert h[..|active|] == active && h[|active| + 1..] == batch[i + 1..];
  }

  lemma FilterEndKeeps(c: Settings, s: State, w: Worker, next: Pc)
    requires Shared(c, s) && w in s.workers && s.workers[w].Filtering? && WorkerOk(c, s, w)
    requires s.workers[w].i == |s.workers[w].batch| && next == Starting(s.workers[w].active)
    ensures StepOk(c, s, Goto(s, w, next), Some(w), {})
  {
    assert Hand(next) == Hand(s.workers[w]);
    ChoosingKeeps(c, s, w, next);
  }

  lemma FilterKeepSets(s: State, w: Worker, next: Pc)
    requires w in s.workers && s.workers[w].Filtering? && HandOk(s, w) && SetsOk(s, w)
    requires var pc := s.workers[w];
      && pc.i < |pc.batch| && pc.batch[pc.i] in s.reqs && s.now < s.reqs[pc.batch[pc.i]].deadline
      && next == Filtering(pc.batch, pc.i + 1, pc.active + [pc.batch[pc.i]])
    ensures SetsOk(Goto(s, w, next), w)
  {
    var pc := s.workers[w];
    assert UnsetOrExpired(s, pc.batch[pc.i], s.now);
  }

  lemma FilterKeepKeeps(c: Settings, s: State, w: Worker, next: Pc)
    requires Shared(c, s) && w in s.workers && s.workers[w].Filtering? && WorkerOk(c, s, w)
    requires var pc := s.workers[w];
      && pc.i < |pc.batch| && pc.batch[pc.i] in s.reqs && s.now < s.reqs[pc.batch[pc.i]].deadline
      && next == Filtering(pc.batch, pc.i + 1, pc.active + [pc.batch[pc.i]])
    ensures StepOk(c, s, Goto(s, w, next), Some(w), {})
  {
    var pc := s.workers[w];
    FilterKeepSets(s, w, next);
    FilterHand(pc.batch, pc.i, pc.active);
    ChoosingKeeps(c, s, w, next);
  }

  lemma FilterDropSets(s: State, w: Worker, r: Rid, next: Pc)
    requires w in s.workers && s.workers[w].Filtering? && SetsOk(s, w) && r in s.reqs
    requires var pc := s.workers[w]; pc.i < |pc.batch| && next == Filtering(pc.batch, pc.i + 1, pc.active)
    ensures SetsOk(Handled(s, w, r, s.reqs[r].(place := Done), next), w)
  {
  }

  lemma FilterDropWorker(c: Settings, s: State, w: Worker, r: Rid, next: Pc)
    requires w in s.workers && s.workers[w].Filtering? && WorkerOk(c, s, w) && r in s.reqs
    requires var pc := s.workers[w]; pc.i < |pc.batch| && r == pc.batch[pc.i] && next == Filtering(pc.batch, pc.i + 1, pc.active)
    ensures WorkerOk(c, Handled(s, w, r, s.reqs[r].(place := Done), next), w)
  {
    var pc, p := s.workers[w], s.reqs[r].(place := Done);
    FilterHand(pc.batch, pc.i, pc.active);
    FilterDropSets(s, w, r, next);
    WithoutFacts(Hand(pc), |pc.active|);
    KinWithout(c, s, Hand(pc), |pc.active|);
    HandledHand(s, w, r, p, next);
    SameKinds(c, s, Handled(s, w, r, p, next), Hand(next));
  }

  lemma FilterDropKeeps(c: Settings, s: State, w: Worker, r: Rid, next: Pc)
    requires Shared(c, s) && w in s.workers && s.workers[w].Filtering? && WorkerOk(c, s, w) && Held(s, w, r) && PromiseOk(c, s.now, s.reqs[r])
    requires var pc := s.workers[w]; pc.i < |pc.batch| && r == pc.batch[pc.i] && next == Filtering(pc.batch, pc.i + 1, pc.active)
    requires s.now >= s.reqs[r].deadline
    ensures StepOk(c, s, Handled(s, w, r, s.reqs[r].(place := Done), next), Some(w), {r})
  {
    var pc := s.workers[w];
    FilterHand(pc.batch, pc.i, pc.active);
    WithoutFacts(Hand(pc), |pc.active|);
    FilterDropWorker(c, s, w, r, next);
    HandledKeeps(c, s, w, r, s.reqs[r].(place := Done), next);
  }

  lemma FilteredInv(c: Settings, s: State, w: Worker, saw: bool)
    requires Inv(c, s) && w in s.workers && s.workers[w].Filtering? && s.workers[w].i <= |s.workers[w].batch|
    requires forall r :: r in s.workers[w].batch ==> r in s.reqs
    requires SawTruly(s, s.workers[w].batch, s.workers[w].i, saw)
    ensures var pc := s.workers[w]; Inv(c, Filtered(s, w, pc.batch, pc.i, pc.active, saw))
  {
    var pc := s.workers[w];
    var i, s' := pc.i, Filtered(s, w, pc.batch, pc.i, pc.active, saw);
    if i == |pc.batch| {
      FilterEndKeeps(c, s, w, Starting(pc.active));
      Assemble(c, s, s', Some(w), {});
    } else {
      var r := pc.batch[i];
      FilterHand(pc.batch, i, pc.active);
      InHand(c, s, w, r);
      if saw || s.now >= s.reqs[r].deadline {
        FilterDropKeeps(c, s, w, r, Filtering(pc.batch, i + 1, pc.active));
        Assemble(c, s, s', Some(w), {r});
      } else {
        FilterKeepKeeps(c, s, w, Filtering(pc.batch, i + 1, pc.active + [r]));
        Assemble(c, s, s', Some(w), {});
      }
    }
  }

  // ------------------------------------------------------- what a batch answers

  /** A batch as chosen can be merged. */
  lemma KinFormed(c: Settings, s: State, active: seq<Rid>)
    requires c.maxBatch < HALF && Kin(c, s, active) && |active| > 1
    requires forall r :: r in active ==> Admissible(s.reqs[r].request)
    ensures Formed(RequestsOf(s, active)) && Sum(SizesOf(RequestsOf(s, active))) <= c.maxBatch
  {
    var requests := RequestsOf(s, active);
    forall k | 0 <= k < |requests| ensures WellFormed(requests[k]) && Compatible(requests[0], requests[k]) {
      assert active[k] in active && active[0] in active;
      CompatibleIsSameKind(requests[0], requests[k]);
    }
  }

  lemma SpecFitsFewer(spec: OutputSpec, fewer: nat, total: nat)
    requires NonNegative(spec.tail) && SpecFits(spec, total) && fewer <= total
    ensures SpecFits(spec, fewer)
  {
    Monotone(fewer, total, Product(spec.tail));
    TimesNonNegative(Product(spec.tail), ElementSize(spec.dtype));
    Monotone(fewer, total, SpecWidth(spec));
  }

  lemma FewerFit(e: RowExecutor, q: Question, fewer: nat, total: nat)
    requires WellBehaved(e) && OutputsFit(e, q, total) && fewer <= total
    ensures OutputsFit(e, q, fewer)
  {
    var specs := e.specs(q);
    forall spec | e.refusal(q).None? && spec in specs ensures SpecFits(spec, fewer) {
      var j :| 0 <= j < |specs| && specs[j] == spec;
      assert NonNegative(specs[j].tail);
      SpecFitsFewer(spec, fewer, total);
    }
  }

  lemma TimesNonNegative(a: nat, b: nat)
    ensures a * b >= 0
  {
  }

  lemma BatchReply(c: Settings, e: RowExecutor, requests: seq<Request>)
    requires RowWise(c, e) && Formed(requests) && Sum(SizesOf(requests)) <= c.maxBatch
    ensures MergeSpec(requests).Merged? && |MergeSpec(requests).sizes| == |requests|
    ensures forall k :: 0 <= k < |requests| ==>
      SplitOne(c.infer(MergeSpec(requests).request), MergeSpec(requests).sizes, k) == c.infer(requests[k])
  {
    assert requests[0] in requests;
    FewerFit(e, QuestionOf(requests[0]), Sum(SizesOf(requests)), c.maxBatch);
    BatchingPreservesMeaning(c.infer, e, requests);
  }

  /** Every member of a finished run gets a timeout if it is late, else the executor's answer to it alone or its share of the batch. */
  lemma ReplyIsRight(c: Settings, s: State, active: seq<Rid>, k: nat)
    requires c.maxBatch < HALF && Kin(c, s, active) && k < |active|
    requires forall r :: r in active ==> Admissible(s.reqs[r].request)
    ensures ReplyOk(c, s, active[k], ReplyFor(c, s, active, k))
    ensures ReplyFor(c, s, active, k).Timeout? <==> Late(s.now, s.reqs[active[k]])
  {
    var requests := RequestsOf(s, active);
    assert requests[k] == s.reqs[active[k]].request;
    if |active| > 1 {
      KinFormed(c, s, active);
      FormedMerges(requests);
    }
    if !Late(s.now, s.reqs[active[k]]) {
      assert ShareOf(c, requests, k, ReplyFor(c, s, active, k).response);
    }
  }

  /** From a row-wise executor, whatever a request was run with, the answer is the one to it alone. */
  lemma RowWiseAnswers(c: Settings, request: Request, response: Response)
    requires IsRowWise(c) && Answers(c, request, response)
    ensures response == c.infer(request)
  {
    var e :| RowWise(c, e);
    var requests, k: nat :| ShareOf(c, requests, k, response) && requests[k] == request;
    RowWiseShare(c, e, requests, k, response);
  }

  lemma RowWiseShare(c: Settings, e: RowExecutor, requests: seq<Request>, k: nat, response: Response)
    requires RowWise(c, e) && ShareOf(c, requests, k, response)
    ensures response == c.infer(requests[k])
  {
    if |requests| > 1 {
      BatchReply(c, e, requests);
    }
  }

  // ------------------------------------------------------------ starting a run

  lemma ChosenPool(s: State, w: Worker, next: Pc)
    requires w in s.workers && !s.workers[w].Running? && PoolOk(s) && next.Running?
    ensures var s' := Goto(s.(pool := Chosen(s.pool, w)), w, next); PoolOk(s') && SamePool(s, s', w)
  {
    Fewer(s.pool.running.Keys, s.workers.Keys, w);
    ChosenKeeps(s.pool, w, |s.workers|);
    var s' := Goto(s.(pool := Chosen(s.pool, w)), w, next);
    assert s'.workers.Keys == s.workers.Keys;
  }

  lemma Fewer<T>(a: set<T>, b: set<T>, x: T)
    requires a <= b && x in b && x !in a
    ensures |a| < |b|
  {
    Subset(a + {x}, b);
  }

  lemma Subset<T>(a: set<T>, b: set<T>)
    requires a <= b
    ensures |a| <= |b|
  {
    assert a + (b - a) == b;
  }

  lemma StartedMoves(s: State, w: Worker, pool: PoolState, next: Pc)
    requires w in s.workers && forall r :: r in Hand(s.workers[w]) ==> r in Hand(next)
    ensures Moves(s, Goto(s.(pool := pool), w, next), w, {}) && QueueShrinks(s, Goto(s.(pool := pool), w, next), {})
  {
  }

  lemma StartedWorker(c: Settings, s: State, w: Worker, next: Pc)
    requires w in s.workers && s.workers[w].Starting? && WorkerOk(c, s, w) && s.workers[w].active != []
    requires s.pool.inflight != [] && next == Running(s.workers[w].active)
    ensures WorkerOk(c, Goto(s.(pool := Chosen(s.pool, w)), w, next), w)
  {
    var s' := Goto(s.(pool := Chosen(s.pool, w)), w, next);
    assert Hand(next) == Hand(s.workers[w]);
    assert forall r :: r in Hand(next) ==> Held(s, w, r) && Unset(s, r);
    SameKinds(c, s, s', next.active);
  }

  lemma StartedKeeps(c: Settings, s: State, w: Worker, next: Pc)
    requires Shared(c, s) && w in s.workers && s.workers[w].Starting? && WorkerOk(c, s, w) && s.workers[w].active != []
    requires s.pool.inflight != [] && next == Running(s.workers[w].active)
    ensures StepOk(c, s, Goto(s.(pool := Chosen(s.pool, w)), w, next), Some(w), {})
  {
    StartedMoves(s, w, Chosen(s.pool, w), next);
    StartedWorker(c, s, w, next);
    ChosenPool(s, w, next);
    MovesKeeps(c, s, Goto(s.(pool := Chosen(s.pool, w)), w, next), w, {});
  }

  lemma IdleKeeps(c: Settings, s: State, w: Worker)
    requires Shared(c, s) && w in s.workers && Hand(s.workers[w]) == [] && !s.workers[w].Running?
    ensures StepOk(c, s, Goto(s, w, Popping), Some(w), {})
  {
    WentKeeps(c, s, w, Popping);
  }

  lemma LoneAnsweredKeeps(c: Settings, s: State, w: Worker, r: Rid, saw: bool)
    requires Shared(c, s) && w in s.workers && s.workers[w] == Starting([r]) && WorkerOk(c, s, w)
    requires r in s.reqs && PromiseOk(c, s.now, s.reqs[r]) && (saw ==> s.reqs[r].cancelled) && Late(s.now, s.reqs[r])
    ensures StepOk(c, s, Answered(s, w, r, Timeout, saw, Popping), Some(w), {r})
  {
    assert r in Hand(s.workers[w]) && Held(s, w, r) && Unset(s, r);
    AnsweredKeeps(c, s, w, r, Timeout, saw, Popping);
  }

  lemma StartMerges(c: Settings, s: State, w: Worker)
    requires Inv(c, s) && w in s.workers && s.workers[w].Starting? && |s.workers[w].active| > 1
    requires forall r :: r in s.workers[w].active ==> r in s.reqs
    ensures Merge(s, s.workers[w].active).Merged?
  {
    var active := s.workers[w].active;
    forall r | r in active ensures Admissible(s.reqs[r].request) {
      InHand(c, s, w, r);
    }
    assert WorkerOk(c, s, w);
    KinFormed(c, s, active);
    FormedMerges(RequestsOf(s, active));
  }

  lemma StartedInv(c: Settings, s: State, w: Worker, saw: bool)
    requires Inv(c, s) && w in s.workers && s.workers[w].Starting? && s.pool.inflight != []
    requires forall r :: r in s.workers[w].active ==> r in s.reqs
    requires SawTruly(s, s.workers[w].active, 0, saw)
    ensures Inv(c, Started(s, w, s.workers[w].active, saw))
  {
    var active := s.workers[w].active;
    var s' := Started(s, w, active, saw);
    if active == [] {
      IdleKeeps(c, s, w);
      Assemble(c, s, s', Some(w), {});
    } else if |active| == 1 && (saw || s.now >= s.reqs[active[0]].deadline) {
      InHand(c, s, w, active[0]);
      assert active == [active[0]];
      LoneAnsweredKeeps(c, s, w, active[0], saw);
      Assemble(c, s, s', Some(w), {active[0]});
    } else {
      if |active| > 1 {
        StartMerges(c, s, w);
      }
      StartedKeeps(c, s, w, Running(active));
      Assemble(c, s, s', Some(w), {});
    }
  }

  // ---------------------------------------------------------------- running

  lemma FreedPool(s: State, w: Worker, next: Pc)
    requires w in s.workers && s.workers[w].Running? && PoolOk(s) && !next.Running?
    ensures w in s.pool.running && s.pool.running[w] < |s.pool.inflight|
    ensures var s' := Goto(s.(pool := Freed(s.pool, w)), w, next); PoolOk(s') && SamePool(s, s', w)
  {
    FreedKeeps(s.pool, w, |s.workers|);
    var s' := Goto(s.(pool := Freed(s.pool, w)), w, next);
    assert s'.workers.Keys == s.workers.Keys;
  }

  lemma RanWorker(c: Settings, s: State, w: Worker, pool: PoolState, next: Pc)
    requires w in s.workers && s.workers[w].Running? && WorkerOk(c, s, w)
    requires next.Finishing? && next.active == s.workers[w].active && next.i == 0 && |next.replies| == |next.active|
    requires forall k :: 0 <= k < |next.active| ==>
      next.active[k] in s.reqs && ReplyOk(c, s, next.active[k], next.replies[k])
    ensures WorkerOk(c, Goto(s.(pool := pool), w, next), w)
  {
    assert Hand(next) == Hand(s.workers[w]);
    assert forall r :: r in Hand(next) ==> Held(s, w, r) && Unset(s, r);
  }

  lemma RanKeeps(c: Settings, s: State, w: Worker, next: Pc)
    requires Shared(c, s) && w in s.workers && s.workers[w].Running? && WorkerOk(c, s, w)
    requires w in s.pool.running && s.pool.running[w] < |s.pool.inflight|
    requires next.Finishing? && next.active == s.workers[w].active && next.i == 0 && |next.replies| == |next.active|
    requires forall k :: 0 <= k < |next.active| ==>
      next.active[k] in s.reqs && ReplyOk(c, s, next.active[k], next.replies[k])
    ensures StepOk(c, s, Goto(s.(pool := Freed(s.pool, w)), w, next), Some(w), {})
  {
    var pool := Freed(s.pool, w);
    assert Hand(next) == Hand(s.workers[w]);
    StartedMoves(s, w, pool, next);
    RanWorker(c, s, w, pool, next);
    FreedPool(s, w, next);
    MovesKeeps(c, s, Goto(s.(pool := pool), w, next), w, {});
  }

  lemma RanInv(c: Settings, s: State, w: Worker)
    requires Inv(c, s) && w in s.workers && s.workers[w].Running?
    requires forall r :: r in s.workers[w].active ==> r in s.reqs
    requires w in s.pool.running && s.pool.running[w] < |s.pool.inflight|
    ensures Inv(c, Ran(c, s, w, s.workers[w].active))
  {
    var active := s.workers[w].active;
    forall r | r in active ensures Admissible(s.reqs[r].request) {
      InHand(c, s, w, r);
    }
    assert WorkerOk(c, s, w);
    var replies := seq(|active|, k requires 0 <= k < |active| => ReplyFor(c, s, active, k));
    forall k | 0 <= k < |active| ensures ReplyOk(c, s, active[k], replies[k]) {
      ReplyIsRight(c, s, active, k);
    }
    var next := Finishing(active, replies, 0);
    RanKeeps(c, s, w, next);
    assert Ran(c, s, w, active) == Goto(s.(pool := Freed(s.pool, w)), w, next);
    Assemble(c, s, Ran(c, s, w, active), Some(w), {});
  }

  // --------------------------------------------------------------- answering

  lemma FinishHand(active: seq<Rid>, replies: seq<Result>, i: nat)
    requires i < |active|
    ensures var h := Hand(Finishing(active, replies, i));
      h[0] == active[i] && Hand(Finishing(active, replies, i + 1)) == Without(h, 0)
  {
  }

  predicate FinishesOne(s: State, w: Worker, r: Rid, next: Pc) {
    && w in s.workers && s.workers[w].Finishing? && r in s.reqs
    && var pc := s.workers[w];
       pc.i < |pc.active| && r == pc.active[pc.i] && next == Finishing(pc.active, pc.replies, pc.i + 1)
  }

  lemma FinishedHand(s: State, w: Worker, r: Rid, p: Pending, next: Pc)
    requires FinishesOne(s, w, r, next) && HandOk(s, w)
    ensures HandOk(Handled(s, w, r, p, next), w)
  {
    var pc := s.workers[w];
    FinishHand(pc.active, pc.replies, pc.i);
    WithoutFacts(Hand(pc), 0);
    HandledHand(s, w, r, p, next);
  }

  lemma OneFewer(s: State, w: Worker, r: Rid, next: Pc)
    requires FinishesOne(s, w, r, next) && NoDuplicates(Hand(s.workers[w]))
    ensures forall q :: q in Hand(next) ==> q in Hand(s.workers[w]) && q != r
  {
    var pc := s.workers[w];
    FinishHand(pc.active, pc.replies, pc.i);
    WithoutFacts(Hand(pc), 0);
  }

  lemma FinishedSets(s: State, w: Worker, r: Rid, p: Pending, next: Pc)
    requires FinishesOne(s, w, r, next) && HandOk(s, w) && SetsOk(s, w)
    ensures SetsOk(Handled(s, w, r, p, next), w)
  {
    OneFewer(s, w, r, next);
    forall q | q in Hand(next) ensures Unset(Handled(s, w, r, p, next), q) {
      assert Unset(s, q);
    }
  }

  lemma FinishedAnswers(c: Settings, s: State, w: Worker, r: Rid, p: Pending, next: Pc)
    requires FinishesOne(s, w, r, next) && AnswersOk(c, s, w) && Follows(s.reqs[r], p)
    ensures AnswersOk(c, Handled(s, w, r, p, next), w)
  {
  }

  lemma FinishedWorker(c: Settings, s: State, w: Worker, r: Rid, p: Pending, next: Pc)
    requires FinishesOne(s, w, r, next) && WorkerOk(c, s, w) && Follows(s.reqs[r], p)
    ensures WorkerOk(c, Handled(s, w, r, p, next), w)
  {
    FinishedHand(s, w, r, p, next);
    FinishedSets(s, w, r, p, next);
    FinishedAnswers(c, s, w, r, p, next);
  }

  lemma FinishedKeeps(c: Settings, s: State, w: Worker, r: Rid, saw: bool, next: Pc)
    requires Shared(c, s) && w in s.workers && s.workers[w].Finishing? && WorkerOk(c, s, w) && Held(s, w, r) && PromiseOk(c, s.now, s.reqs[r])
    requires var pc := s.workers[w];
      && pc.i < |pc.active| == |pc.replies| && r == pc.active[pc.i]
      && next == Finishing(pc.active, pc.replies, pc.i + 1)
    requires saw ==> s.reqs[r].cancelled
    ensures StepOk(c, s, Answered(s, w, r, s.workers[w].replies[s.workers[w].i], saw, next), Some(w), {r})
  {
    var pc := s.workers[w];
    var v := pc.replies[pc.i];
    FinishHand(pc.active, pc.replies, pc.i);
    WithoutFacts(Hand(pc), 0);
    assert r in Hand(pc) && Unset(s, r);
    FinishedWorker(c, s, w, r, Fulfil(s.reqs[r], v, saw).(place := Done), next);
    assert ReplyOk(c, s, pc.active[pc.i], v);
    AnsweredKeeps(c, s, w, r, v, saw, next);
  }

  lemma FinishedInv(c: Settings, s: State, w: Worker, saw: bool)
    requires Inv(c, s) && w in s.workers && s.workers[w].Finishing? && s.workers[w].i <= |s.workers[w].active| == |s.workers[w].replies|
    requires forall r :: r in s.workers[w].active ==> r in s.reqs
    requires SawTruly(s, s.workers[w].active, s.workers[w].i, saw)
    ensures var pc := s.workers[w]; Inv(c, Finished(s, w, pc.active, pc.replies, pc.i, saw))
  {
    var pc := s.workers[w];
    var i, s' := pc.i, Finished(s, w, pc.active, pc.replies, pc.i, saw);
    if i == |pc.active| {
      IdleKeeps(c, s, w);
      Assemble(c, s, s', Some(w), {});
    } else {
      var r := pc.active[i];
      FinishHand(pc.active, pc.replies, i);
      InHand(c, s, w, r);
      FinishedKeeps(c, s, w, r, saw, Finishing(pc.active, pc.replies, i + 1));
      Assemble(c, s, s', Some(w), {r});
    }
  }

  // ------------------------------------------------------------------- drain

  /** After every worker has left there is nothing to reject. */
  lemma NothingToReject(s: State, w: Worker)
    requires DrainOk(s) && w in s.workers && s.workers[w].Exited?
    ensures s.queue == [] && RejectedAll(s) == s
  {
    assert RejectedAll(s).reqs == s.reqs;
  }
}
