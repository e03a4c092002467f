/** When the LLM scheduler answers with a timeout or a drain notice, over every run. */
module LlmTimeouts {
  import opened Wrappers
  import opened Tensors
  import opened ExecutorPool
  import opened SchedulerSteps
  import opened LlmSteps
  import opened LlmProtocol
  import opened LlmTheorems
  import ST = SchedulerTheorems

  /** The step asks for a decode slot on behalf of request `r` while the scheduler drains. */
  predicate TurnsAway(s: LlmState, a: LlmAction, r: Rid) {
    a.Acquire? && a.w in s.workers && s.workers[a.w] == Asking(r) && s.draining
  }

  /** The step ends a decode of request `r` whose cancel token has been set. */
  predicate StopsDecode(s: LlmState, a: LlmAction, r: Rid) {
    a.Decode? && a.stopped && a.w in s.workers && s.workers[a.w] == Decoding(r)
  }

  /** The step cuts request `r` short, whatever its deadline. */
  predicate CutsShort(s: LlmState, a: LlmAction, r: Rid) {
    TurnsAway(s, a, r) || StopsDecode(s, a, r)
  }

  function CutShort(s: LlmState, a: LlmAction, cut: set<Rid>): set<Rid> {
    if (a.Acquire? || a.Decode?) && a.w in s.workers && Held(s.workers[a.w]).Some? && CutsShort(s, a, Held(s.workers[a.w]).value)
    then cut + {Held(s.workers[a.w]).value} else cut
  }

  // --------------------------------------------------------------- invariant

  predicate Late(s: LlmState, r: Rid)
    requires r in s.reqs
  {
    s.now >= s.reqs[r].deadline
  }

  /** An answer under way or given: a timeout is late or for a request cut short, a drain notice is given while draining. */
  predicate Timely(s: LlmState, cut: set<Rid>, r: Rid, v: Result)
    requires r in s.reqs
  {
    (v.Timeout? ==> Late(s, r) || r in cut) && (v.Draining? ==> s.draining)
  }

  predicate WorkerTimely(s: LlmState, cut: set<Rid>, w: Worker)
    requires w in s.workers
  {
    var pc := s.workers[w];
    pc.Releasing? || pc.Answering? ==> pc.r in s.reqs && Timely(s, cut, pc.r, pc.answer)
  }

  /** The worker is on its way to answer request `r` with a timeout. */
  predicate TimesOut(pc: LlmPc, r: Rid) {
    pc == Releasing(r, Timeout) || pc == Answering(r, Timeout)
  }

  /** A request cut short is answered with a timeout, or its worker is about to. */
  predicate CutOk(s: LlmState, r: Rid) {
    && r in s.reqs
    && (s.reqs[r].promise.Some? ==> s.reqs[r].promise == Some(Timeout))
    && (s.reqs[r].place.Done? ||
        (s.reqs[r].place.With? && s.reqs[r].place.w in s.workers && TimesOut(s.workers[s.reqs[r].place.w], r)))
  }

  predicate RequestTimely(s: LlmState, cut: set<Rid>, r: Rid)
    requires r in s.reqs
  {
    var p := s.reqs[r];
    && (p.promise.Some? ==> Timely(s, cut, r, p.promise.value))
    && (p.returned.Some? && p.returned.value.Draining? ==> s.draining)
    && (r in cut ==> CutOk(s, r))
  }

  ghost predicate AllTimely(s: LlmState, cut: set<Rid>) {
    && cut <= s.reqs.Keys
    && (forall w :: w in s.workers ==> WorkerTimely(s, cut, w))
    && (forall r :: r in s.reqs ==> RequestTimely(s, cut, r))
  }

  // ------------------------------------------------------------------ frames

  /** What a step leaves alone: everything but worker `w` and request `r`. */
  ghost predicate Apart(s: LlmState, s': LlmState, w: Option<Worker>, r: Option<Rid>) {
    && s'.workers.Keys == s.workers.Keys && s.now <= s'.now && (s.draining ==> s'.draining)
    && s.reqs.Keys <= s'.reqs.Keys
    && (forall u :: u in s.workers && Some(u) != w ==> s'.workers[u] == s.workers[u])
    && (forall q :: q in s.reqs ==> s'.reqs[q].deadline == s.reqs[q].deadline)
    && (forall q :: q in s.reqs && Some(q) != r ==> s'.reqs[q] == s.reqs[q])
    && (forall q :: q in s'.reqs && q !in s.reqs ==> Some(q) == r)
  }

  lemma TimelyGrows(s: LlmState, s': LlmState, w: Option<Worker>, r: Option<Rid>, cut: set<Rid>, cut': set<Rid>, q: Rid, v: Result)
    requires Apart(s, s', w, r) && cut <= cut' && q in s.reqs && Timely(s, cut, q, v)
    ensures Timely(s', cut', q, v)
  {
  }

  lemma ApartKeeps(s: LlmState, s': LlmState, w: Option<Worker>, r: Option<Rid>, cut: set<Rid>, cut': set<Rid>)
    requires AllTimely(s, cut) && Apart(s, s', w, r) && cut <= cut' && cut' <= s'.reqs.Keys
    requires forall q :: q in cut' && q !in cut ==> Some(q) == r
    requires forall q :: q in s.reqs && s.reqs[q].place.With? && Some(s.reqs[q].place.w) == w ==> Some(q) == r
    requires w.Some? && w.value in s'.workers ==> WorkerTimely(s', cut', w.value)
    requires r.Some? && r.value in s'.reqs ==> RequestTimely(s', cut', r.value)
    ensures AllTimely(s', cut')
  {
    forall u | u in s'.workers ensures WorkerTimely(s', cut', u) {
      if Some(u) != w && (s.workers[u].Releasing? || s.workers[u].Answering?) {
        assert WorkerTimely(s, cut, u);
        TimelyGrows(s, s', w, r, cut, cut', s.workers[u].r, s.workers[u].answer);
      }
    }
    forall q | q in s'.reqs ensures RequestTimely(s', cut', q) {
      if Some(q) != r {
        assert RequestTimely(s, cut, q);
        if s.reqs[q].promise.Some? {
          TimelyGrows(s, s', w, r, cut, cut', q, s.reqs[q].promise.value);
        }
      }
    }
  }

  // ------------------------------------------------------------------- steps

  lemma OnlyHeld(c: LlmSettings, s: LlmState, w: Worker, q: Rid)
    requires Inv(c, s) && q in s.reqs && s.reqs[q].place == With(w)
    ensures w in s.workers && Held(s.workers[w]) == Some(q)
  {
    assert Placed(s, q);
  }

  /** A worker's step with the request it holds or takes. */
  lemma WorkerKeeps(c: LlmSettings, s: LlmState, s': LlmState, w: Worker, r: Rid, cut: set<Rid>, cut': set<Rid>)
    requires Inv(c, s) && AllTimely(s, cut) && Apart(s, s', Some(w), Some(r)) && w in s.workers && r in s.reqs
    requires Held(s.workers[w]).Some? ==> Held(s.workers[w]) == Some(r)
    requires cut' == cut || cut' == cut + {r}
    requires WorkerTimely(s', cut', w) && RequestTimely(s', cut', r)
    ensures AllTimely(s', cut')
  {
    forall q | q in s.reqs && s.reqs[q].place == With(w) ensures q == r {
      OnlyHeld(c, s, w, q);
    }
    ApartKeeps(s, s', Some(w), Some(r), cut, cut');
  }

  /** A request in a worker's hand that is not being answered with a timeout has not been cut short. */
  lemma NotCut(c: LlmSettings, s: LlmState, w: Worker, r: Rid, cut: set<Rid>)
    requires Inv(c, s) && AllTimely(s, cut) && w in s.workers && Held(s.workers[w]) == Some(r)
    ensures r in s.reqs && s.reqs[r].place == With(w) && s.reqs[r].promise.None? && RequestTimely(s, cut, r)
    ensures !TimesOut(s.workers[w], r) ==> r !in cut
  {
    HeldPromise(c, s, w, r);
    assert RequestTimely(s, cut, r);
  }

  lemma TickTimely(s: LlmState, cut: set<Rid>, elapsed: nat)
    requires AllTimely(s, cut)
    ensures AllTimely(LlmTicked(s, elapsed), cut)
  {
    assert Apart(s, LlmTicked(s, elapsed), None, None);
    ApartKeeps(s, LlmTicked(s, elapsed), None, None, cut, cut);
  }

  lemma StopTimely(s: LlmState, cut: set<Rid>)
    requires AllTimely(s, cut)
    ensures AllTimely(LlmStopped(s), cut)
  {
    assert Apart(s, LlmStopped(s), None, None);
    ApartKeeps(s, LlmStopped(s), None, None, cut, cut);
  }

  lemma SubmitTimely(c: LlmSettings, s: LlmState, r: Rid, request: Request, at: int, seen: nat, cut: set<Rid>)
    requires AllTimely(s, cut) && r !in s.reqs
    ensures AllTimely(LlmSubmitted(c, s, r, request, at, seen), cut)
  {
    var s' := LlmSubmitted(c, s, r, request, at, seen);
    assert Apart(s, s', None, Some(r));
    ApartKeeps(s, s', None, Some(r), cut, cut);
  }

  lemma ReturnTimely(s: LlmState, r: Rid, cut: set<Rid>)
    requires AllTimely(s, cut) && r in s.reqs && s.reqs[r].returned.None?
    ensures AllTimely(LlmReturned(s, r), cut)
  {
    var s' := LlmReturned(s, r);
    assert Apart(s, s', None, Some(r)) && RequestTimely(s, cut, r);
    ApartKeeps(s, s', None, Some(r), cut, cut);
  }

  lemma PopTimely(c: LlmSettings, s: LlmState, w: Worker, cut: set<Rid>)
    requires Inv(c, s) && AllTimely(s, cut) && w in s.workers && s.workers[w].Idle? && s.queue != [] && s.queue[0] in s.reqs
    ensures AllTimely(LlmPopped(s, w), cut)
  {
    var r := s.queue[0];
    assert r in s.queue && RequestTimely(s, cut, r);
    WorkerKeeps(c, s, LlmPopped(s, w), w, r, cut, cut);
  }

  lemma ExitTimely(s: LlmState, w: Worker, cut: set<Rid>)
    requires AllTimely(s, cut) && w in s.workers && s.workers[w].Idle?
    ensures AllTimely(Move(s, w, Gone), cut)
  {
    var s' := Move(s, w, Gone);
    forall r | r in s.reqs ensures RequestTimely(s', cut, r) {
      assert RequestTimely(s, cut, r);
    }
    forall u | u in s'.workers && u != w ensures WorkerTimely(s', cut, u) {
      assert WorkerTimely(s, cut, u);
    }
  }

  lemma CheckTimely(c: LlmSettings, s: LlmState, w: Worker, r: Rid, saw: bool, cut: set<Rid>)
    requires Inv(c, s) && AllTimely(s, cut) && w in s.workers && s.workers[w] == Holding(r) && r in s.reqs
    ensures AllTimely(Checked(s, w, r, saw), cut)
  {
    NotCut(c, s, w, r, cut);
    WorkerKeeps(c, s, Checked(s, w, r, saw), w, r, cut, cut);
  }

  lemma AcquireTimely(c: LlmSettings, s: LlmState, w: Worker, r: Rid, cut: set<Rid>)
    requires Inv(c, s) && AllTimely(s, cut) && w in s.workers && s.workers[w] == Asking(r) && r in s.reqs
    ensures AllTimely(Acquired(c, s, w, r), CutShort(s, Acquire(w), cut))
  {
    NotCut(c, s, w, r, cut);
    SlotFree(c, s, w);
    WorkerKeeps(c, s, Acquired(c, s, w, r), w, r, cut, CutShort(s, Acquire(w), cut));
  }

  lemma LaunchTimely(c: LlmSettings, s: LlmState, w: Worker, r: Rid, cut: set<Rid>)
    requires Inv(c, s) && AllTimely(s, cut) && w in s.workers && s.workers[w] == Owning(r) && r in s.reqs && s.pool.inflight != []
    ensures AllTimely(Launched(s, w, r), cut)
  {
    NotCut(c, s, w, r, cut);
    WorkerKeeps(c, s, Launched(s, w, r), w, r, cut, cut);
  }

  lemma DecodeTimely(c: LlmSettings, s: LlmState, w: Worker, r: Rid, stopped: bool, cut: set<Rid>)
    requires Inv(c, s) && AllTimely(s, cut) && w in s.workers && s.workers[w] == Decoding(r) && r in s.reqs
    requires w in s.pool.running && s.pool.running[w] < |s.pool.inflight|
    ensures AllTimely(Decoded(c, s, w, r, stopped), CutShort(s, Decode(w, stopped), cut))
  {
    NotCut(c, s, w, r, cut);
    WorkerKeeps(c, s, Decoded(c, s, w, r, stopped), w, r, cut, CutShort(s, Decode(w, stopped), cut));
  }

  lemma ReleaseTimely(c: LlmSettings, s: LlmState, w: Worker, r: Rid, v: Result, cut: set<Rid>)
    requires Inv(c, s) && AllTimely(s, cut) && w in s.workers && s.workers[w] == Releasing(r, v)
    ensures AllTimely(Slotless(s, w, Answering(r, v)), cut)
  {
    NotCut(c, s, w, r, cut);
    assert WorkerTimely(s, cut, w);
    WorkerKeeps(c, s, Slotless(s, w, Answering(r, v)), w, r, cut, cut);
  }

  lemma AnswerTimely(c: LlmSettings, s: LlmState, w: Worker, r: Rid, v: Result, saw: bool, cut: set<Rid>)
    requires Inv(c, s) && AllTimely(s, cut) && w in s.workers && s.workers[w] == Answering(r, v) && r in s.reqs
    ensures AllTimely(LlmAnswered(s, w, r, v, saw), cut)
  {
    NotCut(c, s, w, r, cut);
    assert WorkerTimely(s, cut, w);
    WorkerKeeps(c, s, LlmAnswered(s, w, r, v, saw), w, r, cut, cut);
  }

  lemma StepTimely(c: LlmSettings, s: LlmState, a: LlmAction, cut: set<Rid>)
    requires Inv(c, s) && Enabled(c, s, a) && AllTimely(s, cut)
    ensures AllTimely(Next(c, s, a), CutShort(s, a, cut))
  {
    match a
    case Tick(elapsed) => TickTimely(s, cut, elapsed);
    case Submit(r, request, at, seen) => SubmitTimely(c, s, r, request, at, seen, cut);
    case Return(r) => ReturnTimely(s, r, cut);
    case Stop => StopTimely(s, cut);
    case Pop(w) => PopTimely(c, s, w, cut);
    case Exit(w) => ExitTimely(s, w, cut);
    case Check(w, saw) => CheckTimely(c, s, w, s.workers[w].r, saw, cut);
    case Acquire(w) => AcquireTimely(c, s, w, s.workers[w].r, cut);
    case Launch(w) => LaunchTimely(c, s, w, s.workers[w].r, cut);
    case Decode(w, stopped) => DecodeTimely(c, s, w, s.workers[w].r, stopped, cut);
    case Release(w) => ReleaseTimely(c, s, w, s.workers[w].r, s.workers[w].answer, cut);
    case Answer(w, saw) => AnswerTimely(c, s, w, s.workers[w].r, s.workers[w].answer, saw, cut);
    case RejectQueue => RejectInv(c, s);
  }

  // --------------------------------------------------------------- whole runs

  /** The requests cut short before state `k`. */
  function CutBefore(states: seq<LlmState>, actions: seq<LlmAction>, k: nat): set<Rid>
    requires k < |states| == |actions| + 1
  {
    if k == 0 then {} else CutShort(states[k - 1], actions[k - 1], CutBefore(states, actions, k - 1))
  }

  lemma {:induction false} CutIs(states: seq<LlmState>, actions: seq<LlmAction>, k: nat, r: Rid)
    requires k < |states| == |actions| + 1
    ensures r in CutBefore(states, actions, k) <==> exists i :: 0 <= i < k && CutsShort(states[i], actions[i], r)
    decreases k
  {
    if k > 0 {
      CutIs(states, actions, k - 1, r);
    }
  }

  ghost predicate Sound(c: LlmSettings, s: LlmState, cut: set<Rid>) {
    Inv(c, s) && AllTimely(s, cut)
  }

  lemma SoundStart(c: LlmSettings, s: LlmState)
    requires Initial(c, s)
    ensures Sound(c, s, {})
  {
    InitialInv(c, s);
  }

  lemma SoundCarries(c: LlmSettings, s: LlmState, a: LlmAction, s': LlmState, cut: set<Rid>)
    requires Steps(c, s, a, s') && Sound(c, s, cut)
    ensures Sound(c, s', CutShort(s, a, cut))
  {
    InvCarries(c, s, a, s');
    StepTimely(c, s, a, cut);
  }

  lemma {:induction false} CutInduction(
      c: LlmSettings, states: seq<LlmState>, actions: seq<LlmAction>, P: (LlmState, set<Rid>) -> bool, k: nat)
    requires IsRun(c, states, actions) && k < |states| && P(states[0], {})
    requires forall s, a, s', cut :: Steps(c, s, a, s') && P(s, cut) ==> P(s', CutShort(s, a, cut))
    ensures P(states[k], CutBefore(states, actions, k))
    decreases k
  {
    if k > 0 {
      CutInduction(c, states, actions, P, k - 1);
      RunStep(c, states, actions, k);
    }
  }

  lemma TimelyAlways(c: LlmSettings, states: seq<LlmState>, actions: seq<LlmAction>, k: nat)
    requires IsRun(c, states, actions) && k < |states|
    ensures AllTimely(states[k], CutBefore(states, actions, k))
  {
    SoundStart(c, states[0]);
    forall s, a, s', cut | Steps(c, s, a, s') && Sound(c, s, cut) ensures Sound(c, s', CutShort(s, a, cut)) {
      SoundCarries(c, s, a, s', cut);
    }
    CutInduction(c, states, actions, (s, cut) => Sound(c, s, cut), k);
  }

  /** In this run, before state `k`, `r` was cut short: its worker asked for a slot while draining, or its decode ended with its cancel token set. */
  ghost predicate WasCutShort(states: seq<LlmState>, actions: seq<LlmAction>, k: nat, r: Rid)
    requires k < |states| == |actions| + 1
  {
    exists i :: 0 <= i < k && CutsShort(states[i], actions[i], r)
  }

  /**
   * A submitter gets its promise's value, a timeout at or after its deadline, or a refusal. A promise holds the executor's reply to that
   * request, a drain notice, given only while draining, or a timeout, given at or after the deadline or to a request cut short.
   */
  lemma RightAnswers(c: LlmSettings, states: seq<LlmState>, actions: seq<LlmAction>, k: nat, r: Rid)
    requires IsRun(c, states, actions) && k < |states| && r in states[k].reqs
    ensures var s, p := states[k], states[k].reqs[r];
      && (p.returned.Some? ==> (p.returned == Some(Timeout) && s.now >= p.deadline) || p.returned == p.promise || Refused(p))
      && (p.returned == Some(Draining) ==> s.draining)
      && (p.promise.Some? ==>
            || (p.promise.value.Timeout? && (s.now >= p.deadline || WasCutShort(states, actions, k, r)))
            || (p.promise.value.Draining? && s.draining)
            || p.promise.value == Reply(c.infer(p.request)))
  {
    Promise(c, states, actions, k, r);
    TimelyAlways(c, states, actions, k);
    CutIs(states, actions, k, r);
    assert RequestTimely(states[k], CutBefore(states, actions, k), r);
  }

  /** Before its deadline, an answered request got a timeout exactly when it was cut short. */
  lemma EarlyTimeoutExactly(c: LlmSettings, states: seq<LlmState>, actions: seq<LlmAction>, k: nat, r: Rid)
    requires IsRun(c, states, actions) && k < |states| && r in states[k].reqs
    requires states[k].reqs[r].promise.Some? && states[k].now < states[k].reqs[r].deadline
    ensures states[k].reqs[r].promise == Some(Timeout) <==> WasCutShort(states, actions, k, r)
  {
    TimelyAlways(c, states, actions, k);
    CutIs(states, actions, k, r);
    assert RequestTimely(states[k], CutBefore(states, actions, k), r);
  }

  /** A request cut short can get no other answer, whenever it gets one. */
  lemma CutShortTimesOut(c: LlmSettings, states: seq<LlmState>, actions: seq<LlmAction>, k: nat, r: Rid)
    requires IsRun(c, states, actions) && k < |states| && WasCutShort(states, actions, k, r)
    ensures r in states[k].reqs && (states[k].reqs[r].promise.Some? ==> states[k].reqs[r].promise == Some(Timeout))
  {
    TimelyAlways(c, states, actions, k);
    CutIs(states, actions, k, r);
    assert r in states[k].reqs && RequestTimely(states[k], CutBefore(states, actions, k), r);
  }
}
