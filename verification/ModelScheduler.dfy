/**
 * The scheduler object: fields changed in place, one method per locked region or loop. Each method is shown
 * to take exactly the steps of the protocol, so what holds over every run of steps holds of the object.
 */
module ModelScheduler {
  import opened Wrappers
  import opened Tensors
  import opened BatchCompatibility
  import opened DynamicBatcher
  import opened ExecutorPool
  import opened SchedulerSteps
  import opened SchedulerProtocol
  import opened SchedulerWorkers
  import opened SchedulerTheorems

  /** The actions `trace`, taken one after the other, lead from `s` to `t`. */
  ghost predicate Leads(c: Settings, s: State, trace: seq<Action>, t: State)
    decreases |trace|
  {
    if trace == [] then t == s else exists mid :: Leads(c, s, Front(trace), mid) && Steps(c, mid, Last(trace), t)
  }

  ghost function Front(trace: seq<Action>): (front: seq<Action>)
    requires trace != []
    ensures |front| < |trace|
  {
    trace[..|trace| - 1]
  }

  ghost function Last(trace: seq<Action>): Action
    requires trace != []
  {
    trace[|trace| - 1]
  }

  lemma LeadsOn(c: Settings, s: State, trace: seq<Action>, mid: State, a: Action, t: State)
    requires Leads(c, s, trace, mid) && Steps(c, mid, a, t)
    ensures Leads(c, s, trace + [a], t)
  {
    assert Front(trace + [a]) == trace && Last(trace + [a]) == a;
  }

  lemma GoesOn(c: Settings, s: State, trace: seq<Action>, mid: State, a: Action, t: State)
    requires Leads(c, s, trace, mid) && Steps(c, mid, a, t) && Inv(c, mid)
    ensures Leads(c, s, trace + [a], t) && Inv(c, t)
  {
    LeadsOn(c, s, trace, mid, a, t);
    InvCarries(c, mid, a, t);
  }

  lemma InvCloses(c: Settings, s: State)
    requires Inv(c, s)
    ensures Closed(s)
  {
  }

  lemma DropSteps(c: Settings, s: State, w: Worker, i: nat)
    requires Closed(s) && w in s.workers && s.workers[w].Forming? && CanGrow(c, s, s.workers[w].batch)
    requires i < |s.queue| && ScansTo(c, s, s.workers[w].batch, i) && s.reqs[s.queue[i]].cancelled
    ensures Steps(c, s, DropCancelled(w, i), Dropped(s, i))
  {
  }

  lemma ExpireSteps(c: Settings, s: State, w: Worker, i: nat)
    requires Closed(s) && w in s.workers && s.workers[w].Forming? && CanGrow(c, s, s.workers[w].batch)
    requires i < |s.queue| && ScansTo(c, s, s.workers[w].batch, i) && s.now >= s.reqs[s.queue[i]].deadline
    ensures Steps(c, s, Expire(w, i), TakenOut(s, w, i, Expiring(s.workers[w].batch, s.workers[w].until, s.queue[i])))
  {
  }

  lemma TakeSteps(c: Settings, s: State, w: Worker, i: nat)
    requires Closed(s) && w in s.workers && s.workers[w].Forming? && CanGrow(c, s, s.workers[w].batch)
    requires i < |s.queue| && ScansTo(c, s, s.workers[w].batch, i)
    requires s.now < s.reqs[s.queue[i]].deadline && Takes(c, s, s.workers[w].batch, s.queue[i])
    ensures Steps(c, s, Take(w, i), TakenOut(s, w, i, Forming(s.workers[w].batch + [s.queue[i]], s.workers[w].until)))
  {
  }

  /** Dropping a queue entry leaves the batch, its growth test and the scan before the entry as they were. */
  lemma DroppedScan(c: Settings, s: State, w: Worker, i: nat)
    requires Closed(s) && w in s.workers && s.workers[w].Forming? && CanGrow(c, s, s.workers[w].batch)
    requires i < |s.queue| && ScansTo(c, s, s.workers[w].batch, i)
    ensures var s' := Dropped(s, i);
      && (forall r :: r in s.workers[w].batch ==> r in s'.reqs) && (forall r :: r in s'.queue ==> r in s'.reqs)
      && CanGrow(c, s', s.workers[w].batch) && ScansTo(c, s', s.workers[w].batch, i)
  {
    var s', batch := Dropped(s, i), s.workers[w].batch;
    assert forall r :: r in batch ==> r in Mentioned(s.workers[w]);
    assert RequestsOf(s', batch) == RequestsOf(s, batch);
    assert forall r :: r in s'.queue ==> r in s.queue;
  }

  // --------------------------------------------------------- the scan of the queue

  datatype Scan = Nothing | FoundExpired | Joined

  predicate Scannable(s: State, w: Worker) {
    && w in s.workers && s.workers[w].Forming? && s.workers[w].batch != []
    && (forall r :: r in s.workers[w].batch ==> r in s.reqs) && (forall r :: r in s.queue ==> r in s.reqs)
  }

  /** What the scan from position `i` on does: drop cancelled entries until it finds one to answer or to take, if any. */
  function Scanned(c: Settings, s: State, w: Worker, i: nat): (State, Scan)
    requires Scannable(s, w) && i <= |s.queue|
    decreases |s.queue| - i
  {
    if i == |s.queue| then (s, Nothing)
    else
      var pc, r := s.workers[w], s.queue[i];
      if s.reqs[r].cancelled then Scanned(c, Dropped(s, i), w, i)
      else if s.now >= s.reqs[r].deadline then (TakenOut(s, w, i, Expiring(pc.batch, pc.until, r)), FoundExpired)
      else if Takes(c, s, pc.batch, r) then (TakenOut(s, w, i, Forming(pc.batch + [r], pc.until)), Joined)
      else Scanned(c, s, w, i + 1)
  }

  /** A worker in the middle of a scan, with everything before position `i` looked at and left. */
  predicate Scanning(c: Settings, s: State, w: Worker, i: nat) {
    && Scannable(s, w) && i <= |s.queue| && CanGrow(c, s, s.workers[w].batch) && ScansTo(c, s, s.workers[w].batch, i)
  }

  ghost predicate Reaches(c: Settings, s: State, t: State) {
    Inv(c, t) && exists trace :: Leads(c, s, trace, t)
  }

  lemma ReachesOn(c: Settings, s: State, mid: State, a: Action, t: State)
    requires Reaches(c, s, mid) && Steps(c, mid, a, t)
    ensures Reaches(c, s, t)
  {
    var trace :| Leads(c, s, trace, mid);
    GoesOn(c, s, trace, mid, a, t);
  }

  lemma DropReaches(c: Settings, s0: State, s: State, w: Worker, i: nat)
    requires Reaches(c, s0, s) && Scanning(c, s, w, i) && i < |s.queue| && s.reqs[s.queue[i]].cancelled
    ensures Reaches(c, s0, Dropped(s, i)) && Scanning(c, Dropped(s, i), w, i)
  {
    InvCloses(c, s);
    DropSteps(c, s, w, i);
    ReachesOn(c, s0, s, DropCancelled(w, i), Dropped(s, i));
    DroppedScan(c, s, w, i);
  }

  lemma ExpireReaches(c: Settings, s0: State, s: State, w: Worker, i: nat, next: Pc)
    requires Reaches(c, s0, s) && Scanning(c, s, w, i) && i < |s.queue| && s.now >= s.reqs[s.queue[i]].deadline
    requires next == Expiring(s.workers[w].batch, s.workers[w].until, s.queue[i])
    ensures Reaches(c, s0, TakenOut(s, w, i, next))
  {
    InvCloses(c, s);
    ExpireSteps(c, s, w, i);
    ReachesOn(c, s0, s, Expire(w, i), TakenOut(s, w, i, next));
  }

  lemma TakeReaches(c: Settings, s0: State, s: State, w: Worker, i: nat, next: Pc)
    requires Reaches(c, s0, s) && Scanning(c, s, w, i) && i < |s.queue|
    requires s.now < s.reqs[s.queue[i]].deadline && Takes(c, s, s.workers[w].batch, s.queue[i])
    requires next == Forming(s.workers[w].batch + [s.queue[i]], s.workers[w].until)
    ensures Reaches(c, s0, TakenOut(s, w, i, next))
  {
    InvCloses(c, s);
    TakeSteps(c, s, w, i);
    ReachesOn(c, s0, s, Take(w, i), TakenOut(s, w, i, next));
  }

  /** A scan is a sequence of protocol steps. */
  lemma {:induction false} ScanReaches(c: Settings, s0: State, s: State, w: Worker, i: nat, t: State)
    requires Reaches(c, s0, s) && Scanning(c, s, w, i) && t == Scanned(c, s, w, i).0
    ensures Reaches(c, s0, t)
    decreases |s.queue| - i
  {
    if i < |s.queue| {
      var pc, r := s.workers[w], s.queue[i];
      if s.reqs[r].cancelled {
        DropReaches(c, s0, s, w, i);
        ScanReaches(c, s0, Dropped(s, i), w, i, t);
      } else if s.now >= s.reqs[r].deadline {
        ExpireReaches(c, s0, s, w, i, Expiring(pc.batch, pc.until, r));
      } else if Takes(c, s, pc.batch, r) {
        TakeReaches(c, s0, s, w, i, Forming(pc.batch + [r], pc.until));
      } else {
        ScanReaches(c, s0, s, w, i + 1, t);
      }
    }
  }

  predicate Alive(s: State, r: Rid) {
    r in s.reqs && !s.reqs[r].cancelled && s.now < s.reqs[r].deadline
  }

  /** A scan that finds nothing has left only live entries, none of which fits the batch. */
  lemma {:induction false} NothingFound(c: Settings, s: State, w: Worker, i: nat)
    requires Scannable(s, w) && NoDuplicates(s.queue) && i <= |s.queue| && Scanned(c, s, w, i).1.Nothing?
    requires forall j :: 0 <= j < i ==> Alive(s, s.queue[j]) && !Takes(c, s, s.workers[w].batch, s.queue[j])
    ensures var t := Scanned(c, s, w, i).0;
      Scannable(t, w) && forall r :: r in t.queue ==> Alive(t, r) && !Takes(c, t, t.workers[w].batch, r)
    decreases |s.queue| - i
  {
    if i < |s.queue| {
      if s.reqs[s.queue[i]].cancelled {
        DroppedAlive(c, s, w, i);
        WithoutFacts(s.queue, i);
        NothingFound(c, Dropped(s, i), w, i);
      } else {
        NothingFound(c, s, w, i + 1);
      }
    }
  }

  lemma DroppedAlive(c: Settings, s: State, w: Worker, i: nat)
    requires Scannable(s, w) && NoDuplicates(s.queue) && i < |s.queue|
    requires forall j :: 0 <= j < i ==> Alive(s, s.queue[j]) && !Takes(c, s, s.workers[w].batch, s.queue[j])
    ensures var s' := Dropped(s, i);
      Scannable(s', w) && forall j :: 0 <= j < i ==> Alive(s', s'.queue[j]) && !Takes(c, s', s'.workers[w].batch, s'.queue[j])
  {
    var s', batch := Dropped(s, i), s.workers[w].batch;
    assert RequestsOf(s', batch) == RequestsOf(s, batch);
    assert forall r :: r in s'.queue ==> r in s.queue;
  }

  // --------------------------------------------------- the two loops of processBatch

  predicate Members(s: State, batch: seq<Rid>) {
    forall r :: r in batch ==> r in s.reqs
  }

  predicate CancelledAt(s: State, batch: seq<Rid>, i: nat) {
    i < |batch| && batch[i] in s.reqs && s.reqs[batch[i]].cancelled
  }

  /** The first loop from member `i` on. */
  function SweptAll(s: State, w: Worker, batch: seq<Rid>, i: nat, at: int): State
    requires i <= |batch| && Members(s, batch)
    decreases |batch| - i
  {
    var s' := Swept(s, w, batch, i, at, CancelledAt(s, batch, i));
    if i == |batch| then s' else SweptAll(s', w, batch, i + 1, at)
  }

  /** The second loop from member `i` on. */
  function FilteredAll(s: State, w: Worker, batch: seq<Rid>, i: nat, active: seq<Rid>): State
    requires i <= |batch| && Members(s, batch)
    decreases |batch| - i
  {
    var s' := Filtered(s, w, batch, i, active, CancelledAt(s, batch, i));
    if i == |batch| then s'
    else FilteredAll(s', w, batch, i + 1, if Alive(s, batch[i]) then active + [batch[i]] else active)
  }

  predicate Sweeps(s: State, w: Worker, batch: seq<Rid>, i: nat, at: int) {
    w in s.workers && s.workers[w] == Sweeping(batch, i, at) && i <= |batch| && Members(s, batch)
  }

  lemma SweepSteps(c: Settings, s: State, w: Worker, batch: seq<Rid>, i: nat, at: int, t: State)
    requires Closed(s) && Sweeps(s, w, batch, i, at) && t == Swept(s, w, batch, i, at, CancelledAt(s, batch, i))
    ensures Steps(c, s, Sweep(w, CancelledAt(s, batch, i)), t)
  {
  }

  lemma SweepReachesNext(c: Settings, s0: State, s: State, w: Worker, batch: seq<Rid>, i: nat, at: int) returns (t: State)
    requires Reaches(c, s0, s) && Sweeps(s, w, batch, i, at)
    ensures Reaches(c, s0, t) && t == Swept(s, w, batch, i, at, CancelledAt(s, batch, i))
  {
    t := Swept(s, w, batch, i, at, CancelledAt(s, batch, i));
    InvCloses(c, s);
    SweepSteps(c, s, w, batch, i, at, t);
    ReachesOn(c, s0, s, Sweep(w, CancelledAt(s, batch, i)), t);
  }

  lemma SweptOne(s: State, w: Worker, batch: seq<Rid>, i: nat, at: int, t: State)
    requires Sweeps(s, w, batch, i, at) && t == Swept(s, w, batch, i, at, CancelledAt(s, batch, i))
    ensures i < |batch| ==> Sweeps(t, w, batch, i + 1, at) && SweptAll(s, w, batch, i, at) == SweptAll(t, w, batch, i + 1, at)
    ensures i == |batch| ==> SweptAll(s, w, batch, i, at) == t
  {
  }

  /** The first loop is a sequence of protocol steps. */
  lemma {:induction false} SweepReaches(c: Settings, s0: State, s: State, w: Worker, batch: seq<Rid>, i: nat, at: int, end: State)
    requires Reaches(c, s0, s) && Sweeps(s, w, batch, i, at) && end == SweptAll(s, w, batch, i, at)
    ensures Reaches(c, s0, end)
    decreases |batch| - i
  {
    var t := SweepReachesNext(c, s0, s, w, batch, i, at);
    SweptOne(s, w, batch, i, at, t);
    if i < |batch| {
      SweepReaches(c, s0, t, w, batch, i + 1, at, end);
    }
  }

  predicate Filters(s: State, w: Worker, batch: seq<Rid>, i: nat, active: seq<Rid>) {
    w in s.workers && s.workers[w] == Filtering(batch, i, active) && i <= |batch| && Members(s, batch)
  }

  lemma FilterSteps(c: Settings, s: State, w: Worker, batch: seq<Rid>, i: nat, active: seq<Rid>, t: State)
    requires Closed(s) && Filters(s, w, batch, i, active) && t == Filtered(s, w, batch, i, active, CancelledAt(s, batch, i))
    ensures Steps(c, s, Filter(w, CancelledAt(s, batch, i)), t)
  {
  }

  lemma FilterReachesNext(c: Settings, s0: State, s: State, w: Worker, batch: seq<Rid>, i: nat, active: seq<Rid>) returns (t: State)
    requires Reaches(c, s0, s) && Filters(s, w, batch, i, active)
    ensures Reaches(c, s0, t) && t == Filtered(s, w, batch, i, active, CancelledAt(s, batch, i))
  {
    t := Filtered(s, w, batch, i, active, CancelledAt(s, batch, i));
    InvCloses(c, s);
    FilterSteps(c, s, w, batch, i, active, t);
    ReachesOn(c, s0, s, Filter(w, CancelledAt(s, batch, i)), t);
  }

  lemma FilteredOne(s: State, w: Worker, batch: seq<Rid>, i: nat, active: seq<Rid>, t: State)
    requires Filters(s, w, batch, i, active) && t == Filtered(s, w, batch, i, active, CancelledAt(s, batch, i))
    ensures i < |batch| ==>
      var kept := if Alive(s, batch[i]) then active + [batch[i]] else active;
      Filters(t, w, batch, i + 1, kept) && FilteredAll(s, w, batch, i, active) == FilteredAll(t, w, batch, i + 1, kept)
    ensures i == |batch| ==> FilteredAll(s, w, batch, i, active) == t
  {
  }

  /** So is the second. */
  lemma {:induction false} FilterReaches(c: Settings, s0: State, s: State, w: Worker, batch: seq<Rid>, i: nat, active: seq<Rid>, end: State)
    requires Reaches(c, s0, s) && Filters(s, w, batch, i, active) && end == FilteredAll(s, w, batch, i, active)
    ensures Reaches(c, s0, end)
    decreases |batch| - i
  {
    var t := FilterReachesNext(c, s0, s, w, batch, i, active);
    FilteredOne(s, w, batch, i, active, t);
    if i < |batch| {
      FilterReaches(c, s0, t, w, batch, i + 1, if Alive(s, batch[i]) then active + [batch[i]] else active, end);
    }
  }

  /** The first loop answers exactly the members that had expired when it began and were not cancelled, and touches nothing else. */
  lemma {:induction false} SweepAnswersExpired(s: State, w: Worker, batch: seq<Rid>, i: nat, at: int, r: Rid)
    requires i <= |batch| && Members(s, batch) && NoDuplicates(batch) && r in s.reqs
    ensures var t := SweptAll(s, w, batch, i, at);
      r in t.reqs && t.reqs[r] ==
        if r in batch[i..] && !s.reqs[r].cancelled && at >= s.reqs[r].deadline then Fulfil(s.reqs[r], Timeout, false) else s.reqs[r]
    decreases |batch| - i
  {
    if i < |batch| {
      SweepAnswersExpired(Swept(s, w, batch, i, at, CancelledAt(s, batch, i)), w, batch, i + 1, at, r);
      assert batch[i..] == [batch[i]] + batch[i + 1..];
    }
  }

  /** The second loop keeps exactly the members neither cancelled nor expired, in order. */
  lemma {:induction false} FilterKeepsAlive(s: State, w: Worker, batch: seq<Rid>, i: nat, active: seq<Rid>)
    requires i <= |batch| && Members(s, batch) && NoDuplicates(batch) && w in s.workers
    ensures var t := FilteredAll(s, w, batch, i, active);
      w in t.workers && t.workers[w] == Starting(active + AliveOf(s, batch[i..]))
    decreases |batch| - i
  {
    if i < |batch| {
      var s', r := Filtered(s, w, batch, i, active, CancelledAt(s, batch, i)), batch[i];
      var kept := if Alive(s, r) then active + [r] else active;
      FilterKeepsAlive(s', w, batch, i + 1, kept);
      assert batch[i..][0] == r && batch[i..][1..] == batch[i + 1..];
      SameAlive(s, s', batch[i + 1..], r);
      assert active + ([r] + AliveOf(s, batch[i + 1..])) == active + [r] + AliveOf(s, batch[i + 1..]);
    } else {
      assert active + [] == active;
    }
  }

  /** It lets go of all others, and changes nothing else. */
  lemma {:induction false} FilterLetsGo(s: State, w: Worker, batch: seq<Rid>, i: nat, active: seq<Rid>, r: Rid)
    requires i <= |batch| && Members(s, batch) && NoDuplicates(batch) && r in s.reqs
    ensures var t := FilteredAll(s, w, batch, i, active);
      r in t.reqs && t.reqs[r] == if r in batch[i..] && !Alive(s, r) then s.reqs[r].(place := Done) else s.reqs[r]
    decreases |batch| - i
  {
    if i < |batch| {
      var s' := Filtered(s, w, batch, i, active, CancelledAt(s, batch, i));
      FilterLetsGo(s', w, batch, i + 1, if Alive(s, batch[i]) then active + [batch[i]] else active, r);
      assert batch[i..] == [batch[i]] + batch[i + 1..];
    }
  }

  /**
   * The two loops together: a member is let go of unanswered exactly when the first saw it cancelled or not yet expired, and the second
   * saw it cancelled or expired. Between the loops other threads may have done anything that leaves the member with this worker.
   */
  lemma UnansweredExactly(s: State, w: Worker, batch: seq<Rid>, at: int, mid: State, r: Rid)
    requires Members(s, batch) && NoDuplicates(batch) && r in batch && s.reqs[r].sets == 0 && !s.reqs[r].place.Done?
    requires Members(mid, batch) && mid.reqs[r].deadline == s.reqs[r].deadline && !mid.reqs[r].place.Done?
    requires var swept := SweptAll(s, w, batch, 0, at); r in swept.reqs && mid.reqs[r].sets == swept.reqs[r].sets
    ensures var end, deadline := FilteredAll(mid, w, batch, 0, []), s.reqs[r].deadline;
      && r in end.reqs
      && (end.reqs[r].place.Done? && end.reqs[r].sets == 0 <==>
            (s.reqs[r].cancelled || at < deadline) && (mid.reqs[r].cancelled || deadline <= mid.now))
  {
    SweepAnswersExpired(s, w, batch, 0, at, r);
    FilterLetsGo(mid, w, batch, 0, [], r);
    assert batch[0..] == batch;
  }

  function AliveOf(s: State, rids: seq<Rid>): seq<Rid> {
    if rids == [] then [] else (if Alive(s, rids[0]) then [rids[0]] else []) + AliveOf(s, rids[1..])
  }

  lemma {:induction false} SameAlive(s: State, s': State, rids: seq<Rid>, r: Rid)
    requires s'.now == s.now && r !in rids && forall q :: q in rids ==> q in s.reqs && q in s'.reqs && s'.reqs[q] == s.reqs[q]
    ensures AliveOf(s', rids) == AliveOf(s, rids)
  {
    if rids != [] {
      SameAlive(s, s', rids[1..], r);
    }
  }

  class Scheduler {
    const c: Settings
    var queue: seq<Rid>
    var reqs: map<Rid, Pending>
    var workers: map<Worker, Pc>
    var pool: PoolState
    var draining: bool
    var now: int

    function View(): State
      reads this
    {
      State(queue, reqs, workers, pool, draining, now)
    }

    /** The locked region of `submit`. */
    method Submit(r: Rid, request: Request, at: int)
      requires r !in reqs
      modifies this
      ensures View() == Submitted(c, old(View()), r, request, at)
    {
      var p := Pending(request, at + c.timeout, false, None, 0, None, Queued);
      if draining {
        p := p.(returned := Some(Draining), place := Done);
      } else if |queue| >= c.maxQueue {
        p := p.(returned := Some(Overloaded), place := Done);
      } else {
        queue := queue + [r];
      }
      reqs := reqs[r := p];
    }

    /** The scan of `formBatch` over the queue, up to the first entry for which it lets go of the lock. */
    method ScanQueue(w: Worker) returns (found: Scan)
      requires Scannable(View(), w)
      modifies this
      ensures (View(), found) == Scanned(c, old(View()), w, 0)
    {
      var batch, until := workers[w].batch, workers[w].until;
      var i := 0;
      while i < |queue|
        invariant i <= |queue| && Scannable(View(), w) && workers == old(workers)
        invariant Scanned(c, View(), w, i) == Scanned(c, old(View()), w, 0)
        decreases |queue| - i
      {
        var r := queue[i];
        if reqs[r].cancelled {
          ghost var s := View();
          queue := Without(queue, i);
          reqs := reqs[r := reqs[r].(place := Done)];
          assert View() == Dropped(s, i);
        } else if now >= reqs[r].deadline {
          queue := Without(queue, i);
          reqs := reqs[r := reqs[r].(place := With(w))];
          workers := workers[w := Expiring(batch, until, r)];
          return FoundExpired;
        } else if !Takes(c, View(), batch, r) {
          i := i + 1;
        } else {
          queue := Without(queue, i);
          reqs := reqs[r := reqs[r].(place := With(w))];
          workers := workers[w := Forming(batch + [r], until)];
          return Joined;
        }
      }
      found := Nothing;
    }

    /** `popNextPending`, once its wait is over: the next request, or the end of the worker. */
    method PopNextPending(w: Worker) returns (got: bool)
      requires w in workers && (draining || queue != []) && forall r :: r in queue ==> r in reqs
      modifies this
      ensures got <==> old(queue) != []
      ensures View() == if got then Popped(c, old(View()), w) else Goto(old(View()), w, Exited)
    {
      if draining && queue == [] {
        workers := workers[w := Exited];
        return false;
      }
      var r := queue[0];
      queue := Without(queue, 0);
      reqs := reqs[r := reqs[r].(place := With(w))];
      workers := workers[w := Forming([r], now + c.maxDelay)];
      got := true;
    }

    /** The first loop of `processBatch`: answers the members that had expired when it began. */
    method SweepExpired(w: Worker, batch: seq<Rid>, at: int)
      requires Members(View(), batch)
      modifies this
      ensures View() == SweptAll(old(View()), w, batch, 0, at)
    {
      for i := 0 to |batch|
        invariant Members(View(), batch) && SweptAll(View(), w, batch, i, at) == SweptAll(old(View()), w, batch, 0, at)
      {
        ghost var s := View();
        var r := batch[i];
        if !reqs[r].cancelled && at >= reqs[r].deadline {
          reqs := reqs[r := Fulfil(reqs[r], Timeout, false)];
        }
        workers := workers[w := Sweeping(batch, i + 1, at)];
        assert View() == Swept(s, w, batch, i, at, CancelledAt(s, batch, i));
      }
      workers := workers[w := Filtering(batch, 0, [])];
    }

    /** The second loop of `processBatch`: keeps the members neither cancelled nor expired. */
    method KeepActive(w: Worker, batch: seq<Rid>) returns (active: seq<Rid>)
      requires Members(View(), batch)
      modifies this
      ensures View() == FilteredAll(old(View()), w, batch, 0, [])
      ensures w in workers && workers[w] == Starting(active)
    {
      active := [];
      for i := 0 to |batch|
        invariant Members(View(), batch)
        invariant FilteredAll(View(), w, batch, i, active) == FilteredAll(old(View()), w, batch, 0, [])
      {
        ghost var s := View();
        var r := batch[i];
        if reqs[r].cancelled || now >= reqs[r].deadline {
          reqs := reqs[r := reqs[r].(place := Done)];
          workers := workers[w := Filtering(batch, i + 1, active)];
          assert View() == Filtered(s, w, batch, i, active, CancelledAt(s, batch, i));
        } else {
          workers := workers[w := Filtering(batch, i + 1, active + [r])];
          assert View() == Filtered(s, w, batch, i, active, CancelledAt(s, batch, i));
          active := active + [r];
        }
      }
      workers := workers[w := Starting(active)];
    }

    /** `rejectQueuedRequests`: swaps the queue out and answers what was in it. */
    method RejectQueuedRequests()
      requires NoDuplicates(queue) && forall r :: r in queue ==> r in reqs
      modifies this
      ensures View() == RejectedAll(old(View()))
    {
      var pending := queue;
      queue := [];
      for i := 0 to |pending|
        invariant queue == [] && workers == old(workers) && pool == old(pool) && draining == old(draining) && now == old(now)
        invariant reqs.Keys == old(reqs).Keys
        invariant forall r :: r in reqs ==>
          reqs[r] == if r in pending[..i] then Fulfil(old(reqs)[r], Draining, false).(place := Done) else old(reqs)[r]
      {
        var r := pending[i];
        reqs := reqs[r := Fulfil(reqs[r], Draining, false).(place := Done)];
      }
      assert pending[..|pending|] == pending;
    }
  }
}
