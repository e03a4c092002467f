/**
 * Least-loaded choice of an executor. Both schedulers use it: every worker picks an executor
 * before an inference and gives it back afterwards, in any interleaving.
 */
module ExecutorPool {
  import opened Tensors

  /** First index holding the smallest count. */
  function LeastLoaded(inflight: seq<nat>): (best: nat)
    requires inflight != []
    ensures best < |inflight|
    ensures forall j :: 0 <= j < |inflight| ==> inflight[best] <= inflight[j]
    ensures forall j :: 0 <= j < best ==> inflight[best] < inflight[j]
  {
    if |inflight| == 1 then 0
    else
      var last := |inflight| - 1;
      var best := LeastLoaded(inflight[..last]);
      if inflight[last] < inflight[best] then last else best
  }

  function Select(inflight: seq<nat>): seq<nat>
    requires inflight != []
  {
    var best := LeastLoaded(inflight);
    inflight[best := inflight[best] + 1]
  }

  function Release(inflight: seq<nat>, index: nat): seq<nat>
    requires index < |inflight|
  {
    if inflight[index] > 0 then inflight[index := inflight[index] - 1] else inflight
  }

  /** The pool object: a fixed array of in-flight counters. */
  class Pool {
    var inflight: array<nat>

    constructor (executors: nat)
      requires executors > 0
      ensures inflight[..] == seq(executors, _ => 0) && fresh(inflight)
    {
      inflight := new nat[executors](_ => 0);
      new;
      assert inflight[..] == seq(executors, _ => 0);
    }

    method SelectExecutor() returns (best: nat)
      requires inflight.Length > 0
      modifies inflight
      ensures best == LeastLoaded(old(inflight[..]))
      ensures inflight[..] == Select(old(inflight[..]))
    {
      best := 0;
      var least := inflight[0];
      for index := 1 to inflight.Length
        invariant inflight[..] == old(inflight[..])
        invariant best == LeastLoaded(inflight[..index]) && least == inflight[best]
      {
        assert inflight[..index + 1][..index] == inflight[..index];
        if inflight[index] < least {
          best := index;
          least := inflight[index];
        }
      }
      assert inflight[..inflight.Length] == inflight[..];
      inflight[best] := inflight[best] + 1;
    }

    method ReleaseExecutor(index: nat)
      requires index < inflight.Length
      modifies inflight
      ensures inflight[..] == Release(old(inflight[..]), index)
    {
      if inflight[index] > 0 {
        inflight[index] := inflight[index] - 1;
      }
    }

    method CurrentInFlight() returns (total: nat)
      ensures total == Sum(inflight[..])
    {
      total := 0;
      for i := 0 to inflight.Length
        invariant total == Sum(inflight[..i])
      {
        assert inflight[..i + 1][..i] == inflight[..i];
        total := total + inflight[i];
      }
      assert inflight[..inflight.Length] == inflight[..];
    }
  }

  // -------------------------------------------------- any interleaving of workers

  type Worker = nat

  /** The counters, and for every worker inside an inference the executor it runs on. */
  datatype PoolState = PoolState(inflight: seq<nat>, running: map<Worker, nat>)

  /** The workers running on executor `i`. */
  function On(p: PoolState, i: nat): set<Worker> {
    set w | w in p.running && p.running[w] == i
  }

  function Chosen(p: PoolState, w: Worker): PoolState
    requires p.inflight != []
  {
    PoolState(Select(p.inflight), p.running[w := LeastLoaded(p.inflight)])
  }

  function Freed(p: PoolState, w: Worker): PoolState
    requires w in p.running && p.running[w] < |p.inflight|
  {
    PoolState(Release(p.inflight, p.running[w]), p.running - {w})
  }

  /** Rounded-up share of `workers` over `executors`. */
  function FairShare(workers: nat, executors: nat): nat
    requires executors > 0
  {
    (workers + executors - 1) / executors
  }

  ghost predicate Balanced(p: PoolState, workers: nat) {
    && p.inflight != []
    && |p.running| <= workers
    && Sum(p.inflight) == |p.running|
    && (forall w :: w in p.running ==> p.running[w] < |p.inflight|)
    && (forall i :: 0 <= i < |p.inflight| ==> CountsExecutor(p, i) && p.inflight[i] <= FairShare(workers, |p.inflight|))
  }

  /** The counter is the true number of workers on the executor. */
  ghost predicate CountsExecutor(p: PoolState, i: nat)
    requires i < |p.inflight|
  {
    p.inflight[i] == |On(p, i)|
  }

  lemma {:induction false} SumUpdate(s: seq<nat>, i: nat, v: nat)
    requires i < |s|
    ensures Sum(s[i := v]) == Sum(s) - s[i] + v
    decreases s
  {
    var last := |s| - 1;
    if i == last {
      assert s[i := v][..last] == s[..last];
    } else {
      SumUpdate(s[..last], i, v);
      assert s[i := v][..last] == s[..last][i := v];
    }
  }

  lemma {:induction false} SumBound(s: seq<nat>, least: nat)
    requires forall j :: 0 <= j < |s| ==> least <= s[j]
    ensures |s| * least <= Sum(s)
    decreases s
  {
    if s != [] {
      var last := |s| - 1;
      SumBound(s[..last], least);
      assert |s| * least == last * least + least;
    }
  }

  lemma ShareBound(executors: nat, least: nat, workers: nat)
    requires executors > 0 && executors * least < workers
    ensures least + 1 <= FairShare(workers, executors)
  {
    assert executors * (least + 1) <= workers + executors - 1;
    DivAtLeast(workers + executors - 1, executors, least + 1);
  }

  lemma DivAtLeast(x: nat, d: nat, k: nat)
    requires d > 0 && d * k <= x
    ensures k <= x / d
  {
    var q := x / d;
    assert d * (q + 1) == d * q + d > x;
    if k > q {
      TimesGrows(d, q + 1, k);
    }
  }

  lemma TimesGrows(d: nat, a: nat, b: nat)
    requires a <= b
    ensures d * a <= d * b
  {
    assert d * b == d * a + d * (b - a);
  }

  lemma ShareOfOne(workers: nat, executors: nat)
    requires 0 < executors && workers <= executors
    ensures FairShare(workers, executors) <= 1
  {
  }

  /** A worker outside an inference takes the least-loaded executor: counters stay true and nobody exceeds the fair share. */
  lemma ChosenKeeps(p: PoolState, w: Worker, workers: nat)
    requires Balanced(p, workers) && w !in p.running && |p.running| < workers
    ensures Balanced(Chosen(p, w), workers)
  {
    var best, p' := LeastLoaded(p.inflight), Chosen(p, w);
    SumUpdate(p.inflight, best, p.inflight[best] + 1);
    SumBound(p.inflight, p.inflight[best]);
    ShareBound(|p.inflight|, p.inflight[best], workers);
    assert p'.running.Keys == p.running.Keys + {w};
    forall i | 0 <= i < |p.inflight| ensures CountsExecutor(p', i) {
      assert CountsExecutor(p, i);
      assert On(p', i) == if i == best then On(p, i) + {w} else On(p, i);
    }
  }

  lemma FreedKeeps(p: PoolState, w: Worker, workers: nat)
    requires Balanced(p, workers) && w in p.running
    ensures Balanced(Freed(p, w), workers)
    ensures Freed(p, w).inflight[p.running[w]] == p.inflight[p.running[w]] - 1
  {
    var index, p' := p.running[w], Freed(p, w);
    assert CountsExecutor(p, index);
    assert w in On(p, index);
    SumUpdate(p.inflight, index, p.inflight[index] - 1);
    assert p'.running.Keys == p.running.Keys - {w};
    forall i | 0 <= i < |p.inflight| ensures CountsExecutor(p', i) {
      assert CountsExecutor(p, i);
      assert On(p', i) == if i == index then On(p, i) - {w} else On(p, i);
    }
  }

  /** With at least as many executors as workers no two workers ever share one. */
  lemma NobodyShares(p: PoolState, workers: nat, v: Worker, w: Worker)
    requires Balanced(p, workers) && workers <= |p.inflight|
    requires v in p.running && w in p.running && p.running[v] == p.running[w]
    ensures v == w
  {
    var i := p.running[v];
    assert CountsExecutor(p, i);
    ShareOfOne(workers, |p.inflight|);
    OneMember(On(p, i), v, w);
  }

  lemma OneMember<T>(s: set<T>, v: T, w: T)
    requires |s| <= 1 && v in s && w in s
    ensures v == w
  {
    assert |s - {v}| == 0;
    assert w !in s - {v};
  }
}
