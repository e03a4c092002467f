/** Runs in which the LLM scheduler answers with a timeout before the deadline. */
module LlmWitness {
  import opened Wrappers
  import opened Tensors
  import opened ExecutorPool
  import opened SchedulerSteps
  import opened LlmSteps
  import opened LlmProtocol
  import opened LlmTheorems

  /** A run that starts at `start` and ends in `end`. */
  ghost predicate Reach(c: LlmSettings, start: LlmState, end: LlmState) {
    Closed(end) && exists states, actions :: IsRun(c, states, actions) && states[0] == start && states[|actions|] == end
  }

  lemma Begin(c: LlmSettings, start: LlmState)
    requires Initial(c, start)
    ensures Reach(c, start, start)
  {
    var states: seq<LlmState>, actions: seq<LlmAction> := [start], [];
    assert IsRun(c, states, actions) && states[0] == start && states[|actions|] == start;
    AlwaysClosed(c, states, actions, 0);
  }

  lemma Extend(c: LlmSettings, start: LlmState, s: LlmState, a: LlmAction, s': LlmState)
    requires Reach(c, start, s) && Steps(c, s, a, s')
    ensures Reach(c, start, s')
  {
    var states, actions :| IsRun(c, states, actions) && states[0] == start && states[|actions|] == s;
    var ss, aa := states + [s'], actions + [a];
    forall i | 0 <= i < |aa| ensures StepAt(c, ss, aa, i) {
      assert i < |actions| ==> StepAt(c, states, actions, i);
    }
    assert IsRun(c, ss, aa) && ss[0] == start && ss[|aa|] == s';
    AlwaysClosed(c, ss, aa, |aa|);
  }

  /** Request 0 in the hands of worker `w`, before its deadline and not answered. */
  predicate InTime(s: LlmState, w: Worker, pc: LlmPc) {
    && w in s.workers && s.workers[w] == pc && 0 in s.reqs && s.now < s.reqs[0].deadline
    && s.reqs[0].promise.None? && s.reqs[0].returned.None? && !s.reqs[0].cancelled
  }

  predicate EarlyTimeout(s: LlmState) {
    0 in s.reqs && s.reqs[0].promise == Some(Timeout) && s.now < s.reqs[0].deadline
  }

  /** A fresh scheduler that takes the request. */
  ghost predicate HasRoom(c: LlmSettings, start: LlmState, w: Worker, request: Request) {
    && Initial(c, start) && w in start.workers && c.maxQueue > 0 && c.timeout > 0
    && c.invalid(request).None? && FitsMemory(c, request, 0)
  }

  lemma TakenUp(c: LlmSettings, start: LlmState, w: Worker, request: Request) returns (s: LlmState)
    requires HasRoom(c, start, w, request)
    ensures Reach(c, start, s) && InTime(s, w, Holding(0)) && !s.draining && s.active == 0
  {
    Begin(c, start);
    var queued := LlmSubmitted(c, start, 0, request, start.now, 0);
    Extend(c, start, start, Submit(0, request, start.now, 0), queued);
    assert queued.queue == [0];
    s := LlmPopped(queued, w);
    Extend(c, start, queued, Pop(w), s);
  }

  lemma Asked(c: LlmSettings, start: LlmState, w: Worker, s: LlmState) returns (s': LlmState)
    requires Reach(c, start, s) && InTime(s, w, Holding(0))
    ensures Reach(c, start, s') && InTime(s', w, Asking(0)) && s'.draining == s.draining && s'.active == s.active
  {
    s' := Checked(s, w, 0, false);
    Extend(c, start, s, Check(w, false), s');
  }

  /** While it drains, a queued request is answered with a timeout before its deadline. */
  lemma DrainAnswersTimeout(c: LlmSettings, start: LlmState, w: Worker, request: Request) returns (end: LlmState)
    requires HasRoom(c, start, w, request)
    ensures Reach(c, start, end) && EarlyTimeout(end) && end.draining
  {
    var s := TakenUp(c, start, w, request);
    var stopped := LlmStopped(s);
    Extend(c, start, s, Stop, stopped);
    s := Asked(c, start, w, stopped);
    var refused := Acquired(c, s, w, 0);
    Extend(c, start, s, Acquire(w), refused);
    end := LlmAnswered(refused, w, 0, Timeout, false);
    Extend(c, start, refused, Answer(w, false), end);
  }

  lemma Started(c: LlmSettings, start: LlmState, w: Worker, s: LlmState) returns (s': LlmState)
    requires Reach(c, start, s) && InTime(s, w, Asking(0)) && !s.draining && s.active < c.slots
    ensures Reach(c, start, s') && InTime(s', w, Decoding(0)) && !s'.draining
  {
    var owning := Acquired(c, s, w, 0);
    Extend(c, start, s, Acquire(w), owning);
    s' := Launched(owning, w, 0);
    Extend(c, start, owning, Launch(w), s');
  }

  lemma Stopped(c: LlmSettings, start: LlmState, w: Worker, s: LlmState) returns (s': LlmState)
    requires Reach(c, start, s) && InTime(s, w, Decoding(0)) && !s.draining
    ensures Reach(c, start, s') && InTime(s', w, Answering(0, Timeout)) && !s'.draining
  {
    assert ClosedPc(s, w);
    var releasing := Decoded(c, s, w, 0, true);
    Extend(c, start, s, Decode(w, true), releasing);
    s' := Slotless(releasing, w, Answering(0, Timeout));
    Extend(c, start, releasing, Release(w), s');
  }

  /** A caller that has set the cancel token it supplied gets a timeout before the deadline, with no drain. */
  lemma CallerStopsDecode(c: LlmSettings, start: LlmState, w: Worker, request: Request) returns (end: LlmState)
    requires HasRoom(c, start, w, request)
    ensures Reach(c, start, end) && EarlyTimeout(end) && !end.draining
  {
    var s := TakenUp(c, start, w, request);
    s := Asked(c, start, w, s);
    s := Started(c, start, w, s);
    s := Stopped(c, start, w, s);
    end := LlmAnswered(s, w, 0, Timeout, false);
    Extend(c, start, s, Answer(w, false), end);
  }
}
