/** The scheduler object, region by region. */
module LlmScheduler {
  import opened Wrappers
  import opened Tensors
  import opened ExecutorPool
  import opened SchedulerSteps
  import opened LlmSteps

  class Scheduler {
    const c: LlmSettings
    var queue: seq<Rid>
    var reqs: map<Rid, Pending>
    var workers: map<Worker, LlmPc>
    var pool: PoolState
    var active: nat
    var draining: bool
    var now: int

    function View(): LlmState
      reads this
    {
      LlmState(queue, reqs, workers, pool, active, draining, now)
    }

    method Submit(r: Rid, request: Request, at: int, seen: nat)
      requires r !in reqs
      modifies this
      ensures View() == LlmSubmitted(c, old(View()), r, request, at, seen)
    {
      var p := Pending(request, at + c.timeout, false, None, 0, None, Queued);
      var invalid := c.invalid(request);
      if invalid.Some? {
        reqs := reqs[r := p.(returned := Some(Invalid(invalid.value)), place := Done)];
        return;
      }
      if draining {
        reqs := reqs[r := p.(returned := Some(Draining), place := Done)];
        return;
      }
      if c.memoryBudget > 0 {
        var bytes := Wrap(c.tokens(request) * BYTES_PER_TOKEN);
        if Wrap(Wrap(seen * bytes) + bytes) > c.memoryBudget {
          reqs := reqs[r := p.(returned := Some(MemoryPressure), place := Done)];
          return;
        }
      }
      if |queue| >= c.maxQueue {
        reqs := reqs[r := p.(returned := Some(Overloaded), place := Done)];
        return;
      }
      queue := queue + [r];
      reqs := reqs[r := p];
    }

    method PopNextPending(w: Worker) returns (got: bool)
      requires w in workers && (draining || queue != []) && forall r :: r in queue ==> r in reqs
      modifies this
      ensures got <==> old(queue) != []
      ensures View() == if got then LlmPopped(old(View()), w) else Move(old(View()), w, Gone)
    {
      if draining && queue == [] {
        workers := workers[w := Gone];
        return false;
      }
      var r := queue[0];
      queue := Without(queue, 0);
      reqs := reqs[r := reqs[r].(place := With(w))];
      workers := workers[w := Holding(r)];
      got := true;
    }

    method AcquireDecodeSlot(w: Worker, r: Rid) returns (ok: bool)
      modifies this
      ensures ok <==> !old(draining) && old(active) < c.slots
      ensures View() == Acquired(c, old(View()), w, r)
    {
      if draining || active >= c.slots {
        workers := workers[w := Answering(r, Timeout)];
        return false;
      }
      active := active + 1;
      workers := workers[w := Owning(r)];
      ok := true;
    }

    method ReleaseDecodeSlot(w: Worker, next: LlmPc)
      modifies this
      ensures View() == Slotless(old(View()), w, next)
    {
      active := if active > 0 then active - 1 else SIZE_LIMIT - 1;
      workers := workers[w := next];
    }

    /** The checks between slot and inference, and the choice of an executor. */
    method Launch(w: Worker, r: Rid)
      requires r in reqs && pool.inflight != []
      modifies this
      ensures View() == Launched(old(View()), w, r)
    {
      if draining {
        ReleaseDecodeSlot(w, Answering(r, Draining));
      } else if now >= reqs[r].deadline {
        ReleaseDecodeSlot(w, Answering(r, Timeout));
      } else {
        var best, least := 0, pool.inflight[0];
        for index := 1 to |pool.inflight|
          invariant View() == old(View())
          invariant best == LeastLoaded(pool.inflight[..index]) && least == pool.inflight[best]
        {
          assert pool.inflight[..index + 1][..index] == pool.inflight[..index];
          if pool.inflight[index] < least {
            best, least := index, pool.inflight[index];
          }
        }
        assert pool.inflight[..|pool.inflight|] == pool.inflight;
        pool := PoolState(pool.inflight[best := pool.inflight[best] + 1], pool.running[w := best]);
        workers := workers[w := Decoding(r)];
      }
    }
  }
}
