/** A run in which a request leaves the tensor scheduler without an answer. */
module SchedulerWitness {
  import opened Wrappers
  import opened Tensors
  import opened ExecutorPool
  import opened SchedulerSteps
  import opened SchedulerProtocol
  import opened SchedulerTheorems

  /** A run that starts at `start` and ends in `end`. */
  ghost predicate Reach(c: Settings, start: State, end: State) {
    Closed(end) && exists states, actions :: IsRun(c, states, actions) && states[0] == start && states[|actions|] == end
  }

  lemma Begin(c: Settings, start: State)
    requires Initial(c, start)
    ensures Reach(c, start, start)
  {
    var states: seq<State>, actions: seq<Action> := [start], [];
    assert IsRun(c, states, actions) && states[0] == start && states[|actions|] == start;
    AlwaysClosed(c, states, actions, 0);
  }

  lemma Extend(c: Settings, start: State, s: State, a: Action, s': State)
    requires Reach(c, start, s) && Steps(c, s, a, s')
    ensures Reach(c, start, s')
  {
    var states, actions :| IsRun(c, states, actions) && states[0] == start && states[|actions|] == s;
    var ss, aa := states + [s'], actions + [a];
    forall i | 0 <= i < |aa| ensures StepAt(c, ss, aa, i) {
      assert i < |actions| ==> StepAt(c, states, actions, i);
    }
    assert IsRun(c, ss, aa) && ss[0] == start && ss[|aa|] == s';
    AlwaysClosed(c, ss, aa, |aa|);
  }

  /** The one request of this run, held by worker `w` at `pc`. */
  predicate Member(s: State, w: Worker, pc: Pc, deadline: int) {
    && w in s.workers && s.workers[w] == pc && 0 in s.reqs && s.reqs[0].deadline == deadline
    && s.reqs[0].sets == 0 && s.reqs[0].returned.None? && !s.reqs[0].cancelled
  }

  lemma Queue(c: Settings, start: State, request: Request) returns (s: State)
    requires Initial(c, start) && c.maxQueue > 0 && Admissible(request)
    ensures Reach(c, start, s) && s.queue == [0] && s.workers == start.workers && s.now == start.now
    ensures 0 in s.reqs && s.reqs[0] == Pending(request, start.now + c.timeout, false, None, 0, None, Queued)
  {
    Begin(c, start);
    s := Submitted(c, start, 0, request, start.now);
    Extend(c, start, start, Submit(0, request, start.now), s);
  }

  lemma TakeUp(c: Settings, start: State, w: Worker, s: State) returns (s': State)
    requires Reach(c, start, s) && s.queue == [0] && w in s.workers && s.workers[w].Popping? && 0 in s.reqs
    requires s.reqs[0].sets == 0 && s.reqs[0].returned.None? && !s.reqs[0].cancelled
    ensures Reach(c, start, s') && Member(s', w, Forming([0], s.now + c.maxDelay), s.reqs[0].deadline) && s'.now == s.now
  {
    s' := Popped(c, s, w);
    Extend(c, start, s, Pop(w), s');
  }

  lemma Pass(c: Settings, start: State, w: Worker, pc: Pc, deadline: int, s: State, elapsed: nat) returns (s': State)
    requires Reach(c, start, s) && Member(s, w, pc, deadline)
    ensures Reach(c, start, s') && Member(s', w, pc, deadline) && s'.now == s.now + elapsed
  {
    s' := Ticked(s, elapsed);
    Extend(c, start, s, Tick(elapsed), s');
  }

  lemma Form(c: Settings, start: State, w: Worker, deadline: int, s: State) returns (s': State)
    requires Reach(c, start, s) && Member(s, w, Forming([0], s.now), deadline)
    ensures Reach(c, start, s') && Member(s', w, Sweeping([0], 0, s.now), deadline) && s'.now == s.now
  {
    s' := Goto(s, w, Sweeping([0], 0, s.now));
    Extend(c, start, s, EndForming(w), s');
  }

  /** The first loop finds the member in time. */
  lemma SweepOnce(c: Settings, start: State, w: Worker, i: nat, at: int, deadline: int, s: State) returns (s': State)
    requires Reach(c, start, s) && i <= 1 && Member(s, w, Sweeping([0], i, at), deadline) && at < deadline
    ensures Reach(c, start, s') && s'.now == s.now
    ensures Member(s', w, if i == 0 then Sweeping([0], 1, at) else Filtering([0], 0, []), deadline)
  {
    s' := Swept(s, w, [0], i, at, false);
    Extend(c, start, s, Sweep(w, false), s');
  }

  lemma Drop(c: Settings, start: State, w: Worker, deadline: int, s: State) returns (s': State)
    requires Reach(c, start, s) && Member(s, w, Filtering([0], 0, []), deadline) && s.now >= deadline
    ensures Reach(c, start, s') && 0 in s'.reqs && s'.reqs[0] == s.reqs[0].(place := Done)
  {
    s' := Filtered(s, w, [0], 0, [], false);
    Extend(c, start, s, Filter(w, false), s');
  }

  /**
   * For any settings with room in the queue: a member that expires after the first loop of `processBatch` and before the second is
   * let go of with no answer to its promise, while its submitter has not returned.
   */
  lemma DroppedUnanswered(c: Settings, start: State, w: Worker, request: Request) returns (end: State)
    requires Initial(c, start) && w in start.workers && c.maxQueue > 0 && 0 <= c.maxDelay < c.timeout && Admissible(request)
    ensures Reach(c, start, end)
    ensures 0 in end.reqs && end.reqs[0].place == Done && end.reqs[0].sets == 0 && end.reqs[0].returned.None? && !end.reqs[0].cancelled
  {
    var deadline := start.now + c.timeout;
    var s := Queue(c, start, request);
    s := TakeUp(c, start, w, s);
    s := Pass(c, start, w, Forming([0], start.now + c.maxDelay), deadline, s, c.maxDelay);
    var at := s.now;
    s := Form(c, start, w, deadline, s);
    s := SweepOnce(c, start, w, 0, at, deadline, s);
    s := SweepOnce(c, start, w, 1, at, deadline, s);
    s := Pass(c, start, w, Filtering([0], 0, []), deadline, s, c.timeout);
    end := Drop(c, start, w, deadline, s);
  }
}
