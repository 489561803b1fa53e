// The dispatcher's state while a node's outputs are being routed.
module RunSteps {
  import opened Net
  import opened Graphs
  import opened Frames
  import opened FrameSteps
  import opened Firing
  import opened Conservation
  import opened Scheduling

  // The frames and the worklist.
  datatype Desk = Desk(d: Store, queue: seq<nat>, scheduled: seq<bool>)

  // One node's answer to a frame: f holds the packets, dests where they go.
  datatype Answer = Answer(n: nat, f: seq<Token>, dests: seq<seq<nat>>)

  ghost predicate Answers(p: Plan, a: Answer) {
    && Acyclic(p) && a.n < |p.routing| && |a.dests| == |a.f|
    && forall o: nat | o < |p.routing[a.n]| :: OutCount(a.dests, o) <= BURST
  }

  // Few enough packets that no frame has to be added to the pool.
  ghost predicate Lean(p: Plan, desk: Desk, boxes: seq<seq<Token>>, a: Answer) {
    && AtMostOnce(a.dests) && Total(boxes) + |a.f| <= BURST
    && |desk.d.drain| <= 1 && |desk.d.frames| > |p.routing| + 1
  }

  function Now(p: Plan, boxes: seq<seq<Token>>, a: Answer, k: nat): (res: seq<seq<Token>>)
    requires WellRouted(p.routing) && a.n < |p.routing| && |a.dests| == |a.f| && |boxes| == |p.routing|
    requires k <= |p.routing[a.n]|
    ensures |res| == |p.routing|
  {
    Deliveries(p.routing, boxes, a.f, a.dests, a.n, k).boxes
  }

  // desk0 is the state before, boxes what was waiting then; k outputs have been routed.
  ghost predicate Midway(p: Plan, desk0: Desk, boxes: seq<seq<Token>>, a: Answer, k: nat, desk: Desk)
    requires Answers(p, a) && |boxes| == |p.routing| && k <= |p.routing[a.n]| && |desk0.d.pending| == |p.routing|
  {
    && Framed(p, desk0, desk)
    && (forall t: nat | t < |p.routing| :: Contents(desk.d, t) == Now(p, boxes, a, k)[t])
    && InStep(desk.queue, desk.scheduled, desk.d.pending)
    && Work(p, desk.d.pending) <= Work(p, desk0.d.pending) + WeightOuts(p.routing, p.rank, p.top, a.n, k)
    && (Lean(p, desk0, boxes, a) ==> |desk.d.frames| == |desk0.d.frames|)
    && Downhill(p, desk0, a.n, desk)
  }

  ghost predicate Framed(p: Plan, desk0: Desk, desk: Desk) {
    && StoreInv(desk.d) && |desk.d.pending| == |p.routing|
    && DrainSame(desk0.d, desk.d)
  }

  // Frames only appear at nodes of higher rank.
  ghost predicate Downhill(p: Plan, desk0: Desk, n: nat, desk: Desk)
    requires Acyclic(p) && n < |p.routing| && |desk0.d.pending| == |p.routing|
  {
    forall t: nat | t < |p.routing| && t < |desk.d.pending| && desk.d.pending[t] != [] && desk0.d.pending[t] == [] ::
      p.rank[n] < p.rank[t]
  }

  // What routing output k to its target does to the totals.
  lemma NowTotal(p: Plan, boxes: seq<seq<Token>>, a: Answer, k: nat)
    requires Answers(p, a) && |boxes| == |p.routing| && k <= |p.routing[a.n]| && AtMostOnce(a.dests)
    ensures Total(Now(p, boxes, a, k)) <= Total(boxes) + |a.f|
    ensures forall t: nat | t < |p.routing| :: |Now(p, boxes, a, k)[t]| <= Total(boxes) + |a.f|
  {
    DeliveriesTotal(p.routing, boxes, a.f, a.dests, a.n, k);
    forall t: nat | t < |p.routing| ensures |Now(p, boxes, a, k)[t]| <= Total(boxes) + |a.f| {
      BoxAtMostTotal(Now(p, boxes, a, k), t);
    }
  }

  lemma NowStep(p: Plan, boxes: seq<seq<Token>>, a: Answer, k: nat)
    requires Answers(p, a) && |boxes| == |p.routing| && k < |p.routing[a.n]|
    ensures var xs := Gather(a.f, a.dests, Edge(a.n, k)); var target := p.routing[a.n][k];
      && |xs| <= BURST
      && (target.None? || xs == [] ==> Now(p, boxes, a, k + 1) == Now(p, boxes, a, k))
      && (target.Some? ==>
            && target.value < |p.routing| && p.rank[a.n] < p.rank[target.value]
            && Now(p, boxes, a, k + 1) == Now(p, boxes, a, k)[target.value := Now(p, boxes, a, k)[target.value] + xs])
  {
    var xs := Gather(a.f, a.dests, Edge(a.n, k));
    GatherCount(a.f, a.dests, Edge(a.n, k));
    var target := p.routing[a.n][k];
    if target.Some? && xs == [] {
      var now := Now(p, boxes, a, k);
      assert now[target.value] + xs == now[target.value];
      assert now[target.value := now[target.value]] == now;
    }
  }

  // An output that is not wired, or receives nothing, is skipped.
  lemma SkipOutput(p: Plan, desk0: Desk, boxes: seq<seq<Token>>, a: Answer, k: nat, desk: Desk)
    requires Answers(p, a) && |boxes| == |p.routing| && k < |p.routing[a.n]| && |desk0.d.pending| == |p.routing|
    requires Midway(p, desk0, boxes, a, k, desk)
    requires p.routing[a.n][k].None? || Gather(a.f, a.dests, Edge(a.n, k)) == []
    ensures Midway(p, desk0, boxes, a, k + 1, desk)
  {
    NowStep(p, boxes, a, k);
  }

  lemma LeanFrameLeft(p: Plan, desk0: Desk, boxes: seq<seq<Token>>, a: Answer, k: nat, desk: Desk)
    requires Answers(p, a) && |boxes| == |p.routing| && k <= |p.routing[a.n]| && |desk0.d.pending| == |p.routing|
    requires Midway(p, desk0, boxes, a, k, desk) && Lean(p, desk0, boxes, a)
    ensures desk.d.free != []
  {
    NowTotal(p, boxes, a, k);
    forall n: nat | n < |desk.d.pending| ensures |desk.d.pending[n]| <= 1 {
      assert Contents(desk.d, n) == Now(p, boxes, a, k)[n];
      OneFrameEach(desk.d, n);
    }
    FrameLeft(desk.d);
  }

  lemma LeanRoom(p: Plan, boxes: seq<seq<Token>>, a: Answer, k: nat, t: nat)
    requires Answers(p, a) && |boxes| == |p.routing| && k < |p.routing[a.n]| && p.routing[a.n][k] == Some(t)
    requires t < |p.routing|
    requires AtMostOnce(a.dests) && Total(boxes) + |a.f| <= BURST
    ensures |Now(p, boxes, a, k)[t]| + |Gather(a.f, a.dests, Edge(a.n, k))| <= BURST
  {
    NowStep(p, boxes, a, k);
    NowTotal(p, boxes, a, k + 1);
    var xs := Gather(a.f, a.dests, Edge(a.n, k));
    assert Now(p, boxes, a, k + 1)[t] == Now(p, boxes, a, k)[t] + xs;
    assert |Now(p, boxes, a, k + 1)[t]| <= BURST;
  }

  // In a lean run the target has room, or the pool has a frame for it.
  lemma LeanSnug(p: Plan, desk0: Desk, boxes: seq<seq<Token>>, a: Answer, k: nat, desk: Desk, t: nat)
    requires Answers(p, a) && |boxes| == |p.routing| && k < |p.routing[a.n]| && |desk0.d.pending| == |p.routing|
    requires Midway(p, desk0, boxes, a, k, desk) && Lean(p, desk0, boxes, a) && p.routing[a.n][k] == Some(t)
    ensures t < |p.routing|
    ensures |Contents(desk.d, t)| + |Gather(a.f, a.dests, Edge(a.n, k))| <= BURST && desk.d.free != []
  {
    NowStep(p, boxes, a, k);
    LeanFrameLeft(p, desk0, boxes, a, k, desk);
    assert Contents(desk.d, t) == Now(p, boxes, a, k)[t];
    LeanRoom(p, boxes, a, k, t);
  }

  lemma RoutedContents(p: Plan, boxes: seq<seq<Token>>, a: Answer, k: nat, d: Store, t: nat, d': Store, snug: bool)
    requires Answers(p, a) && |boxes| == |p.routing| && k < |p.routing[a.n]| && |d.pending| == |p.routing|
    requires forall s: nat | s < |p.routing| :: Contents(d, s) == Now(p, boxes, a, k)[s]
    requires p.routing[a.n][k] == Some(t) && t < |p.routing|
    requires Filled(d, d', t, Gather(a.f, a.dests, Edge(a.n, k)), snug)
    ensures |d'.pending| == |d.pending|
    ensures forall s: nat | s < |p.routing| :: Contents(d', s) == Now(p, boxes, a, k + 1)[s]
  {
    NowStep(p, boxes, a, k);
    forall s: nat | s < |p.routing| ensures Contents(d', s) == Now(p, boxes, a, k + 1)[s] {
      assert Contents(d, s) == Now(p, boxes, a, k)[s];
    }
  }

  lemma OneOutputMore(p: Plan, n: nat, k: nat, t: nat)
    requires Acyclic(p) && n < |p.routing| && k < |p.routing[n]| && p.routing[n][k] == Some(t) && t < |p.routing|
    ensures WeightOuts(p.routing, p.rank, p.top, n, k + 1)
      == WeightOuts(p.routing, p.rank, p.top, n, k) + FrameWeight(p, t)
  {
  }

  // One more output adds at most its target's weight to the work.
  lemma RoutedWork(p: Plan, lists: seq<seq<nat>>, lists': seq<seq<nat>>, n: nat, k: nat, t: nat, work: nat)
    requires Acyclic(p) && n < |p.routing| && k < |p.routing[n]| && p.routing[n][k] == Some(t)
    requires |lists| == |p.routing| == |lists'| && t < |lists| && lists' == lists[t := lists'[t]]
    requires |lists'[t]| <= |lists[t]| + 1 && Work(p, lists) <= work + WeightOuts(p.routing, p.rank, p.top, n, k)
    ensures Work(p, lists') <= work + WeightOuts(p.routing, p.rank, p.top, n, k + 1)
  {
    WorkGrows(p, lists, t, lists'[t]);
    OneOutputMore(p, n, k, t);
  }

  // Routing an output and scheduling its target.
  lemma RouteOutput(p: Plan, desk0: Desk, boxes: seq<seq<Token>>, a: Answer, k: nat, desk: Desk, t: nat, d': Store,
                    snug: bool)
    requires Answers(p, a) && |boxes| == |p.routing| && k < |p.routing[a.n]| && |desk0.d.pending| == |p.routing|
    requires Midway(p, desk0, boxes, a, k, desk) && p.routing[a.n][k] == Some(t) && t < |p.routing|
    requires var xs := Gather(a.f, a.dests, Edge(a.n, k)); xs != [] && Filled(desk.d, d', t, xs, snug)
    requires Lean(p, desk0, boxes, a) ==> snug
    ensures var queue := Scheduled(desk.queue, desk.scheduled, t);
      Midway(p, desk0, boxes, a, k + 1, Desk(d', queue, desk.scheduled[t := true]))
  {
    var xs := Gather(a.f, a.dests, Edge(a.n, k));
    NowStep(p, boxes, a, k);
    FilledFrames(desk.d, d', t, xs, snug);
    ScheduleInStep(desk.queue, desk.scheduled, desk.d.pending, t, d'.pending[t]);
    RoutedWork(p, desk.d.pending, d'.pending, a.n, k, t, Work(p, desk0.d.pending));
    RoutedContents(p, boxes, a, k, desk.d, t, d', snug);
    var desk' := Desk(d', Scheduled(desk.queue, desk.scheduled, t), desk.scheduled[t := true]);
    RoutedDownhill(p, desk0, a.n, desk, t, desk');
    assert Framed(p, desk0, desk');
  }

  lemma RoutedDownhill(p: Plan, desk0: Desk, n: nat, desk: Desk, t: nat, desk': Desk)
    requires Acyclic(p) && n < |p.routing| == |desk0.d.pending| == |desk.d.pending| == |desk'.d.pending|
    requires t < |p.routing| && p.rank[n] < p.rank[t] && desk'.d.pending == desk.d.pending[t := desk'.d.pending[t]]
    requires Downhill(p, desk0, n, desk)
    ensures Downhill(p, desk0, n, desk')
  {
  }

  lemma StartMidway(p: Plan, desk: Desk, boxes: seq<seq<Token>>, a: Answer)
    requires Answers(p, a) && |boxes| == |p.routing| == |desk.d.pending| && StoreInv(desk.d)
    requires forall t: nat | t < |p.routing| :: Contents(desk.d, t) == boxes[t]
    requires InStep(desk.queue, desk.scheduled, desk.d.pending)
    ensures Midway(p, desk, boxes, a, 0, desk)
  {
  }

  // ---- all outputs of a node ----

  predicate Sized(p: Plan, desk: Desk) {
    |desk.d.pending| == |desk.scheduled| == |p.routing|
  }

  // The first k outputs routed in turn; one that is not wired or received nothing is skipped.
  function RouteAll(p: Plan, desk: Desk, a: Answer, k: nat): (desk': Desk)
    requires WellRouted(p.routing) && a.n < |p.routing| && |a.dests| == |a.f| && k <= |p.routing[a.n]| && Sized(p, desk)
    ensures Sized(p, desk')
  {
    if k == 0 then desk
    else
      var prev := RouteAll(p, desk, a, k - 1);
      var xs := Gather(a.f, a.dests, Edge(a.n, k - 1));
      match p.routing[a.n][k - 1]
      case None => prev
      case Some(t) =>
        if xs == [] then prev
        else Desk(FillAll(prev.d, t, xs), Scheduled(prev.queue, prev.scheduled, t), prev.scheduled[t := true])
  }

  lemma {:induction false} RouteAllMeets(p: Plan, desk: Desk, boxes: seq<seq<Token>>, a: Answer, k: nat)
    requires Answers(p, a) && |boxes| == |p.routing| && k <= |p.routing[a.n]| && Sized(p, desk)
    requires Midway(p, desk, boxes, a, 0, desk)
    ensures Midway(p, desk, boxes, a, k, RouteAll(p, desk, a, k))
  {
    if k > 0 {
      RouteAllMeets(p, desk, boxes, a, k - 1);
      RouteNext(p, desk, boxes, a, k - 1, RouteAll(p, desk, a, k - 1));
    }
  }

  lemma RouteNext(p: Plan, desk0: Desk, boxes: seq<seq<Token>>, a: Answer, k: nat, desk: Desk)
    requires Answers(p, a) && |boxes| == |p.routing| && k < |p.routing[a.n]| && Sized(p, desk0) && Sized(p, desk)
    requires Midway(p, desk0, boxes, a, k, desk) && desk == RouteAll(p, desk0, a, k)
    ensures Midway(p, desk0, boxes, a, k + 1, RouteAll(p, desk0, a, k + 1))
  {
    var xs := Gather(a.f, a.dests, Edge(a.n, k));
    var target := p.routing[a.n][k];
    if target.None? || xs == [] {
      SkipOutput(p, desk0, boxes, a, k, desk);
    } else {
      var t := target.value;
      var snug := |Contents(desk.d, t)| + |xs| <= BURST && (desk.d.free != [] || desk.d.pending[t] != []);
      if Lean(p, desk0, boxes, a) {
        LeanSnug(p, desk0, boxes, a, k, desk, t);
      }
      FillAllMeets(desk.d, t, xs, snug);
      RouteOutput(p, desk0, boxes, a, k, desk, t, FillAll(desk.d, t, xs), snug);
    }
  }
}
