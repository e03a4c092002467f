/**
 * The LLM scheduler: the tensor scheduler's queue and promises, one request per worker, and a decode slot
 * that a worker takes before an inference and gives back on every way out.
 */
module LlmSteps {
  import opened Wrappers
  import opened Tensors
  import opened ExecutorPool
  import opened SchedulerSteps

  datatype LlmSettings = LlmSettings(
    maxQueue: nat, timeout: int, slots: nat, memoryBudget: nat,
    tokens: Request -> nat, invalid: Request -> Option<string>, infer: Request -> Response)

  const BYTES_PER_TOKEN := 2

  datatype LlmPc =
    | Idle
    | Holding(r: Rid)                       // popped
    | Asking(r: Rid)                        // in `acquireDecodeSlot`
    | Owning(r: Rid)                        // slot taken, not yet running
    | Decoding(r: Rid)                      // inside an inference
    | Releasing(r: Rid, answer: Result)     // executor given back, slot not yet
    | Answering(r: Rid, answer: Result)
    | Gone

  datatype LlmState = LlmState(
    queue: seq<Rid>, reqs: map<Rid, Pending>, workers: map<Worker, LlmPc>, pool: PoolState,
    active: nat, draining: bool, now: int)

  function PutRequest(s: LlmState, r: Rid, p: Pending): LlmState {
    s.(reqs := s.reqs[r := p])
  }

  function Move(s: LlmState, w: Worker, pc: LlmPc): LlmState {
    s.(workers := s.workers[w := pc])
  }

  /** The prompt's own footprint, and that of the decodes under way, fit the memory budget. */
  predicate FitsMemory(c: LlmSettings, request: Request, seen: nat) {
    var bytes := Wrap(c.tokens(request) * BYTES_PER_TOKEN);
    c.memoryBudget > 0 ==> Wrap(Wrap(seen * bytes) + bytes) <= c.memoryBudget
  }

  /** Why `submit` turns a request away; `seen` is the number of active decodes it read. */
  function Refusal(c: LlmSettings, s: LlmState, request: Request, seen: nat): Option<Result> {
    if c.invalid(request).Some? then Some(Invalid(c.invalid(request).value))
    else if s.draining then Some(Draining)
    else if !FitsMemory(c, request, seen) then Some(MemoryPressure)
    else if |s.queue| >= c.maxQueue then Some(Overloaded)
    else None
  }

  function LlmSubmitted(c: LlmSettings, s: LlmState, r: Rid, request: Request, at: int, seen: nat): LlmState {
    var p := Pending(request, at + c.timeout, false, None, 0, None, Queued);
    var refusal := Refusal(c, s, request, seen);
    if refusal.Some? then PutRequest(s, r, p.(returned := refusal, place := Done))
    else PutRequest(s.(queue := s.queue + [r]), r, p)
  }

  function LlmTicked(s: LlmState, elapsed: nat): LlmState {
    s.(now := s.now + elapsed)
  }

  function LlmStopped(s: LlmState): LlmState {
    s.(draining := true)
  }

  function LlmReturned(s: LlmState, r: Rid): LlmState
    requires r in s.reqs
  {
    var p := s.reqs[r];
    if p.promise.Some? then PutRequest(s, r, p.(returned := p.promise))
    else PutRequest(s, r, p.(cancelled := true, returned := Some(Timeout)))
  }

  function LlmPopped(s: LlmState, w: Worker): LlmState
    requires s.queue != [] && s.queue[0] in s.reqs
  {
    var r := s.queue[0];
    Move(PutRequest(s.(queue := Without(s.queue, 0)), r, s.reqs[r].(place := With(w))), w, Holding(r))
  }

  /** `processSingle` before the slot. */
  function Checked(s: LlmState, w: Worker, r: Rid, saw: bool): LlmState
    requires r in s.reqs
  {
    if saw then Move(PutRequest(s, r, s.reqs[r].(place := Done)), w, Idle)
    else if s.now >= s.reqs[r].deadline then Move(s, w, Answering(r, Timeout))
    else Move(s, w, Asking(r))
  }

  /** `acquireDecodeSlot` once its wait is over; failing it is reported as a timeout. */
  function Acquired(c: LlmSettings, s: LlmState, w: Worker, r: Rid): LlmState {
    if !s.draining && s.active < c.slots then Move(s.(active := s.active + 1), w, Owning(r))
    else Move(s, w, Answering(r, Timeout))
  }

  /** `releaseDecodeSlot`. */
  function Slotless(s: LlmState, w: Worker, pc: LlmPc): LlmState {
    Move(s.(active := if s.active > 0 then s.active - 1 else SIZE_LIMIT - 1), w, pc)
  }

  function Launched(s: LlmState, w: Worker, r: Rid): LlmState
    requires r in s.reqs && s.pool.inflight != []
  {
    if s.draining then Slotless(s, w, Answering(r, Draining))
    else if s.now >= s.reqs[r].deadline then Slotless(s, w, Answering(r, Timeout))
    else Move(s.(pool := Chosen(s.pool, w)), w, Decoding(r))
  }

  /** The inference returns; `stopped` tells that the request's cancel token was set by then, by a timeout or by the caller who supplied it. */
  function Decoded(c: LlmSettings, s: LlmState, w: Worker, r: Rid, stopped: bool): LlmState
    requires r in s.reqs && w in s.pool.running && s.pool.running[w] < |s.pool.inflight|
  {
    var v := if stopped || s.now >= s.reqs[r].deadline then Timeout else Reply(c.infer(s.reqs[r].request));
    Move(s.(pool := Freed(s.pool, w)), w, Releasing(r, v))
  }

  function LlmAnswered(s: LlmState, w: Worker, r: Rid, v: Result, saw: bool): LlmState
    requires r in s.reqs
  {
    Move(PutRequest(s, r, Fulfil(s.reqs[r], v, saw).(place := Done)), w, Idle)
  }

  function LlmRejectedAll(s: LlmState): LlmState
    requires forall r :: r in s.queue ==> r in s.reqs
  {
    s.(queue := [],
       reqs := map r | r in s.reqs :: if r in s.queue then Fulfil(s.reqs[r], Draining, false).(place := Done) else s.reqs[r])
  }
}
