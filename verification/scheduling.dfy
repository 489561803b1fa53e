// Why the worklist runs dry, and what keeps it in step with the waiting frames.
module Scheduling {
  import opened Graphs
  import opened Frames

  // ---- work ----

  predicate Topped(rank: seq<nat>, top: nat) {
    forall n: nat | n < |rank| :: rank[n] < top
  }

  // The frames that one frame at node n can cause, itself included: one more per output, and what
  // those cause in turn.
  function Weight(r: Routing, rank: seq<nat>, top: nat, n: nat): (w: nat)
    requires WellRouted(r) && Ranked(r, rank) && Topped(rank, top) && n < |r|
    ensures 1 <= w
    decreases top - rank[n], |r[n]| + 1
  {
    1 + WeightOuts(r, rank, top, n, |r[n]|)
  }

  function WeightOuts(r: Routing, rank: seq<nat>, top: nat, n: nat, k: nat): nat
    requires WellRouted(r) && Ranked(r, rank) && Topped(rank, top) && n < |r| && k <= |r[n]|
    decreases top - rank[n], k
  {
    if k == 0 then 0
    else
      WeightOuts(r, rank, top, n, k - 1)
      + match r[n][k - 1] case None => 0 case Some(t) => Weight(r, rank, top, t)
  }

  datatype Plan = Plan(routing: Routing, rank: seq<nat>, top: nat)

  ghost predicate Acyclic(p: Plan) {
    WellRouted(p.routing) && Ranked(p.routing, p.rank) && Topped(p.rank, p.top)
  }

  function FrameWeight(p: Plan, n: nat): (w: nat)
    requires Acyclic(p) && n < |p.routing|
    ensures 1 <= w
  {
    Weight(p.routing, p.rank, p.top, n)
  }

  ghost function Work(p: Plan, lists: seq<seq<nat>>): nat
    requires Acyclic(p) && |lists| <= |p.routing|
  {
    if lists == [] then 0
    else Work(p, lists[..|lists| - 1]) + FrameWeight(p, |lists| - 1) * |lists[|lists| - 1]|
  }

  lemma {:induction false} WorkUpdate(p: Plan, lists: seq<seq<nat>>, n: nat, ids: seq<nat>)
    requires Acyclic(p) && |lists| <= |p.routing| && n < |lists|
    ensures Work(p, lists[n := ids]) + FrameWeight(p, n) * |lists[n]| == Work(p, lists) + FrameWeight(p, n) * |ids|
  {
    var k := |lists| - 1;
    if n == k {
      assert lists[n := ids][..k] == lists[..k];
    } else {
      assert lists[n := ids][..k] == lists[..k][n := ids];
      WorkUpdate(p, lists[..k], n, ids);
    }
  }

  // At most one more frame at node n.
  lemma WorkGrows(p: Plan, lists: seq<seq<nat>>, n: nat, ids: seq<nat>)
    requires Acyclic(p) && |lists| <= |p.routing| && n < |lists| && |ids| <= |lists[n]| + 1
    ensures Work(p, lists[n := ids]) <= Work(p, lists) + FrameWeight(p, n)
  {
    WorkUpdate(p, lists, n, ids);
    OneMoreAtMost(FrameWeight(p, n), |lists[n]|, |ids|);
  }

  lemma OneMoreAtMost(w: nat, a: nat, b: nat)
    requires b <= a + 1
    ensures w * b <= w * a + w
  {
    MulMonotone(w, b, a + 1);
    assert w * (a + 1) == w * a + w;
  }

  lemma MulMonotone(w: nat, a: nat, b: nat)
    requires a <= b
    ensures w * a <= w * b
  {
    assert w * b == w * a + w * (b - a);
    assert 0 <= w * (b - a);
  }

  // Emptying node n gives back its frames' full weight.
  lemma WorkEmptied(p: Plan, lists: seq<seq<nat>>, n: nat)
    requires Acyclic(p) && |lists| <= |p.routing| && n < |lists|
    ensures Work(p, lists[n := []]) + FrameWeight(p, n) * |lists[n]| == Work(p, lists)
  {
    WorkUpdate(p, lists, n, []);
  }

  // ---- the worklist ----

  // The queue lists, once each, exactly the scheduled nodes, and those are the nodes with frames.
  ghost predicate InStep(queue: seq<nat>, scheduled: seq<bool>, pending: seq<seq<nat>>) {
    && |scheduled| == |pending|
    && (forall n: nat :: Times(queue, n) == if n < |scheduled| && scheduled[n] then 1 else 0)
    && (forall n: nat | n < |pending| :: scheduled[n] <==> pending[n] != [])
  }

  lemma QueueEntry(queue: seq<nat>, scheduled: seq<bool>, k: nat)
    requires k < |queue| && forall n: nat :: Times(queue, n) == if n < |scheduled| && scheduled[n] then 1 else 0
    ensures queue[k] < |scheduled| && scheduled[queue[k]]
  {
    TimesPositive(queue, queue[k]);
  }

  lemma PopInStep(queue: seq<nat>, scheduled: seq<bool>, pending: seq<seq<nat>>)
    requires queue != [] && InStep(queue, scheduled, pending)
    ensures var n := queue[|queue| - 1];
      && n < |pending| && pending[n] != []
      && InStep(queue[..|queue| - 1], scheduled[n := false], pending[n := []])
  {
    var n := queue[|queue| - 1];
    QueueEntry(queue, scheduled, |queue| - 1);
    var rest, left := queue[..|queue| - 1], scheduled[n := false];
    assert queue == rest + [n];
    forall x: nat ensures Times(rest, x) == if x < |left| && left[x] then 1 else 0 {
      assert Times(queue, x) == Times(rest, x) + Times([n], x);
    }
  }

  function Scheduled(queue: seq<nat>, scheduled: seq<bool>, n: nat): seq<nat>
    requires n < |scheduled|
  {
    if scheduled[n] then queue else queue + [n]
  }

  lemma ScheduleInStep(queue: seq<nat>, scheduled: seq<bool>, pending: seq<seq<nat>>, n: nat, ids: seq<nat>)
    requires InStep(queue, scheduled, pending) && n < |pending| && ids != []
    ensures InStep(Scheduled(queue, scheduled, n), scheduled[n := true], pending[n := ids])
  {
    if !scheduled[n] {
      forall x: nat ensures Times(queue + [n], x) == if x < |scheduled| && scheduled[n := true][x] then 1 else 0 {
        assert Times(queue + [n], x) == Times(queue, x) + Times([n], x);
      }
    }
  }

  lemma EmptyQueueEmptyNodes(scheduled: seq<bool>, pending: seq<seq<nat>>)
    requires InStep([], scheduled, pending)
    ensures forall n: nat | n < |pending| :: pending[n] == []
  {
    forall n: nat | n < |pending| ensures pending[n] == [] {
      assert Times([], n) == 0;
    }
  }
}
