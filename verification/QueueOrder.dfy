/** Queues that grow at the end and lose entries anywhere: what is left stays in the order of arrival. */
module QueueOrder {
  import opened SchedulerSteps

  /** `x` stands before `y` in the order of arrival, wherever they stand there. */
  predicate Earlier(order: seq<Rid>, x: Rid, y: Rid) {
    x in order && y in order && forall i, j :: 0 <= i < |order| && 0 <= j < |order| && order[i] == x && order[j] == y ==> i < j
  }

  predicate InOrder(order: seq<Rid>, queue: seq<Rid>) {
    && (forall r :: r in queue ==> r in order)
    && forall i, j :: 0 <= i < j < |queue| ==> Earlier(order, queue[i], queue[j])
  }

  /** The queue after a step: the same, one entry more at the end, one less, or empty. */
  predicate Shifts(before: seq<Rid>, after: seq<Rid>, arrived: seq<Rid>) {
    || after == before
    || (arrived != [] && after == before + arrived)
    || (arrived == [] && exists i :: 0 <= i < |before| && after == Without(before, i))
    || after == []
  }

  lemma ShiftsKeeps(order: seq<Rid>, before: seq<Rid>, after: seq<Rid>, arrived: seq<Rid>)
    requires InOrder(order, before) && Shifts(before, after, arrived) && |arrived| <= 1 && forall r :: r in arrived ==> r !in order
    ensures InOrder(order + arrived, after)
  {
    MoreOrder(order, before, arrived);
    if arrived != [] && after == before + arrived {
      Appended(order, before, arrived[0]);
      assert arrived == [arrived[0]];
    } else if after != before && after != [] {
      var i :| 0 <= i < |before| && after == Without(before, i);
      assert forall j :: 0 <= j < |after| ==> after[j] == before[if j < i then j else j + 1];
      assert arrived == [] && order + arrived == order;
    }
  }

  lemma EarlierGrows(order: seq<Rid>, arrived: seq<Rid>, x: Rid, y: Rid)
    requires Earlier(order, x, y) && x !in arrived && y !in arrived
    ensures Earlier(order + arrived, x, y)
  {
    var all := order + arrived;
    forall i, j | 0 <= i < |all| && 0 <= j < |all| && all[i] == x && all[j] == y ensures i < j {
      assert i < |order| && j < |order|;
    }
  }

  lemma MoreOrder(order: seq<Rid>, queue: seq<Rid>, arrived: seq<Rid>)
    requires InOrder(order, queue) && forall r :: r in arrived ==> r !in order
    ensures InOrder(order + arrived, queue)
  {
    forall i, j | 0 <= i < j < |queue| ensures Earlier(order + arrived, queue[i], queue[j]) {
      EarlierGrows(order, arrived, queue[i], queue[j]);
    }
  }

  lemma Appended(order: seq<Rid>, queue: seq<Rid>, r: Rid)
    requires InOrder(order, queue) && r !in order
    ensures InOrder(order + [r], queue + [r])
  {
    MoreOrder(order, queue, [r]);
    var longer := queue + [r];
    forall i, j | 0 <= i < j < |longer| ensures Earlier(order + [r], longer[i], longer[j]) {
      if j == |queue| {
        assert (order + [r])[|order|] == r;
      }
    }
  }

  lemma HeadIsEarliest(order: seq<Rid>, queue: seq<Rid>)
    requires InOrder(order, queue) && queue != []
    ensures Without(queue, 0) == queue[1..] && forall q :: q in queue[1..] ==> Earlier(order, queue[0], q)
  {
    forall q | q in queue[1..] ensures Earlier(order, queue[0], q) {
      var j :| 0 <= j < |queue[1..]| && queue[1..][j] == q;
      assert queue[j + 1] == q;
    }
  }
}
