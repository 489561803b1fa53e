// No packet is lost or duplicated by nodes that move each packet at most once.
module Conservation {
  import opened Net
  import opened Graphs
  import opened Frames
  import opened Firing

  // How often handle h occurs.
  function Count(xs: seq<Token>, h: nat): nat {
    if xs == [] then 0 else Count(xs[..|xs| - 1], h) + One(xs[|xs| - 1].handle == h)
  }

  lemma {:induction false} CountConcat(xs: seq<Token>, ys: seq<Token>, h: nat)
    ensures Count(xs + ys, h) == Count(xs, h) + Count(ys, h)
  {
    if ys == [] {
      assert xs + ys == xs;
    } else {
      assert (xs + ys)[..|xs + ys| - 1] == xs + ys[..|ys| - 1];
      CountConcat(xs, ys[..|ys| - 1], h);
    }
  }

  function CountBoxes(boxes: seq<seq<Token>>, h: nat): nat {
    if boxes == [] then 0 else CountBoxes(boxes[..|boxes| - 1], h) + Count(boxes[|boxes| - 1], h)
  }

  lemma {:induction false} CountBoxesAppend(boxes: seq<seq<Token>>, t: nat, xs: seq<Token>, h: nat)
    requires t < |boxes|
    ensures CountBoxes(boxes[t := boxes[t] + xs], h) == CountBoxes(boxes, h) + Count(xs, h)
  {
    var k := |boxes| - 1;
    CountConcat(boxes[t], xs, h);
    if t == k {
      assert boxes[t := boxes[t] + xs][..k] == boxes[..k];
    } else {
      assert boxes[t := boxes[t] + xs][..k] == boxes[..k][t := boxes[t] + xs];
      CountBoxesAppend(boxes[..k], t, xs, h);
    }
  }

  lemma {:induction false} CountBoxesEmpty(boxes: seq<seq<Token>>, h: nat)
    requires forall n: nat | n < |boxes| :: boxes[n] == []
    ensures CountBoxes(boxes, h) == 0
  {
    if boxes != [] {
      CountBoxesEmpty(boxes[..|boxes| - 1], h);
    }
  }

  // ---- one firing ----

  function SumGather(f: seq<Token>, dests: seq<seq<nat>>, n: nat, k: nat, h: nat): nat
    requires |dests| == |f|
  {
    if k == 0 then 0 else SumGather(f, dests, n, k - 1, h) + Count(Gather(f, dests, Edge(n, k - 1)), h)
  }

  lemma DeliverOneCount(prev: Routed, xs: seq<Token>, target: Option<nat>, h: nat)
    requires target.Some? ==> target.value < |prev.boxes|
    ensures var d := DeliverOne(prev, xs, target);
      CountBoxes(d.boxes, h) + Count(d.lost, h) == CountBoxes(prev.boxes, h) + Count(prev.lost, h) + Count(xs, h)
  {
    if target.None? {
      CountConcat(prev.lost, xs, h);
    } else {
      CountBoxesAppend(prev.boxes, target.value, xs, h);
    }
  }

  lemma DeliveriesCountStep(r: Routing, boxes: seq<seq<Token>>, f: seq<Token>, dests: seq<seq<nat>>, n: nat, k: nat,
                            h: nat)
    requires WellRouted(r) && |boxes| == |r| && n < |r| && 0 < k <= |r[n]| && |dests| == |f|
    ensures CountRouted(Deliveries(r, boxes, f, dests, n, k), h)
         == CountRouted(Deliveries(r, boxes, f, dests, n, k - 1), h) + Count(Gather(f, dests, Edge(n, k - 1)), h)
  {
    DeliveriesUnfold(r, boxes, f, dests, n, k);
    DeliverOneCount(Deliveries(r, boxes, f, dests, n, k - 1), Gather(f, dests, Edge(n, k - 1)), r[n][k - 1], h);
  }

  function CountRouted(x: Routed, h: nat): nat {
    CountBoxes(x.boxes, h) + Count(x.lost, h)
  }

  // What the first k outputs hold beyond what was sent there.
  function Surplus(r: Routing, boxes: seq<seq<Token>>, f: seq<Token>, dests: seq<seq<nat>>, n: nat, k: nat, h: nat): int
    requires WellRouted(r) && |boxes| == |r| && n < |r| && k <= |r[n]| && |dests| == |f|
  {
    CountRouted(Deliveries(r, boxes, f, dests, n, k), h) - SumGather(f, dests, n, k, h)
  }

  lemma SurplusNone(r: Routing, boxes: seq<seq<Token>>, f: seq<Token>, dests: seq<seq<nat>>, n: nat, h: nat)
    requires WellRouted(r) && |boxes| == |r| && n < |r| && |dests| == |f|
    ensures Surplus(r, boxes, f, dests, n, 0, h) == CountBoxes(boxes, h)
  {
  }

  lemma SurplusSame(r: Routing, boxes: seq<seq<Token>>, f: seq<Token>, dests: seq<seq<nat>>, n: nat, k: nat, h: nat)
    requires WellRouted(r) && |boxes| == |r| && n < |r| && 0 < k <= |r[n]| && |dests| == |f|
    ensures Surplus(r, boxes, f, dests, n, k, h) == Surplus(r, boxes, f, dests, n, k - 1, h)
  {
    DeliveriesCountStep(r, boxes, f, dests, n, k, h);
  }

  lemma {:induction false} DeliveriesCount(r: Routing, boxes: seq<seq<Token>>, f: seq<Token>, dests: seq<seq<nat>>,
                                           n: nat, k: nat, h: nat)
    requires WellRouted(r) && |boxes| == |r| && n < |r| && k <= |r[n]| && |dests| == |f|
    ensures Surplus(r, boxes, f, dests, n, k, h) == CountBoxes(boxes, h)
    decreases k
  {
    if k == 0 {
      SurplusNone(r, boxes, f, dests, n, h);
      return;
    }
    var j := k - 1;
    DeliveriesCount(r, boxes, f, dests, n, j, h);
    SurplusSame(r, boxes, f, dests, n, k, h);
    assert Surplus(r, boxes, f, dests, n, k, h) == Surplus(r, boxes, f, dests, n, j, h);
  }

  lemma {:induction false} SumGatherNone(n: nat, k: nat, h: nat)
    ensures SumGather([], [], n, k, h) == 0
  {
    if k > 0 {
      SumGatherNone(n, k - 1, h);
    }
  }

  // One more packet, moved at most once, adds one to the output it is moved to.
  lemma GatherStep(f: seq<Token>, dests: seq<seq<nat>>, e: Edge, h: nat)
    requires |dests| == |f| && f != [] && |dests[|f| - 1]| <= 1
    ensures var x, d := f[|f| - 1], dests[|f| - 1];
      Count(Gather(f, dests, e), h)
      == Count(Gather(f[..|f| - 1], dests[..|f| - 1], e), h) + One(x.handle == h && d != [] && d[0] == e.out)
  {
    var x, d := f[|f| - 1], dests[|f| - 1];
    CountConcat(Gather(f[..|f| - 1], dests[..|f| - 1], e), Copies(x, d, e), h);
    CopiesOnce(x, d, e, h);
  }

  lemma SumGatherGrows(f: seq<Token>, dests: seq<seq<nat>>, n: nat, k: nat, h: nat)
    requires |dests| == |f| && 0 < k
    ensures SumGather(f, dests, n, k, h)
         == SumGather(f, dests, n, k - 1, h) + Count(Gather(f, dests, Edge(n, k - 1)), h)
  {
  }

  // It adds one to the total if it is moved at all.
  lemma {:induction false} SumGatherStep(f: seq<Token>, dests: seq<seq<nat>>, n: nat, k: nat, h: nat)
    requires |dests| == |f| && f != [] && |dests[|f| - 1]| <= 1
    ensures var x, d := f[|f| - 1], dests[|f| - 1];
      SumGather(f, dests, n, k, h)
      == SumGather(f[..|f| - 1], dests[..|f| - 1], n, k, h) + One(x.handle == h && d != [] && d[0] < k)
    decreases k
  {
    if k > 0 {
      SumGatherStep(f, dests, n, k - 1, h);
      GatherStep(f, dests, Edge(n, k - 1), h);
      SumGatherGrows(f, dests, n, k, h);
      SumGatherGrows(f[..|f| - 1], dests[..|f| - 1], n, k, h);
    }
  }

  lemma CopiesOnce(x: Token, d: seq<nat>, e: Edge, h: nat)
    requires |d| <= 1
    ensures Count(Copies(x, d, e), h) == One(x.handle == h && d != [] && d[0] == e.out)
  {
    if d != [] {
      assert d[..0] == [] && Copies(x, [], e) == [];
    }
  }

  predicate AtMostOnce(dests: seq<seq<nat>>) {
    forall i: nat | i < |dests| :: |dests[i]| <= 1
  }

  // Every packet of the frame goes to one output or is kept.
  lemma {:induction false} Partition(f: seq<Token>, dests: seq<seq<nat>>, n: nat, k: nat, h: nat)
    requires |dests| == |f| && AtMostOnce(dests)
    requires forall i: nat, j: nat | i < |dests| && j < |dests[i]| :: dests[i][j] < k
    ensures SumGather(f, dests, n, k, h) + Count(Kept(f, dests), h) == Count(f, h)
  {
    if f == [] {
      SumGatherNone(n, k, h);
    } else {
      var x, d := f[|f| - 1], dests[|f| - 1];
      Partition(f[..|f| - 1], dests[..|f| - 1], n, k, h);
      SumGatherStep(f, dests, n, k, h);
      CountConcat(Kept(f[..|f| - 1], dests[..|f| - 1]), if d == [] then [x] else [], h);
    }
  }

  // ---- the ledger ----

  // Everything loaded is waiting, kept or lost.
  ghost predicate Balanced<W>(m: Machine<W>) {
    forall h: nat :: BalancedFor(m, h)
  }

  predicate BalancedFor<W>(m: Machine<W>, h: nat) {
    Count(m.loaded, h) == CountBoxes(m.boxes, h) + Count(m.rest, h) + Count(m.kept, h) + Count(m.lost, h)
  }

  lemma FireBalancesFor<W>(r: Routing, m: Machine<W>, n: nat, size: nat, em: Emission<W>, h: nat)
    requires MachineFits(r, m) && n < |r| && size <= |m.rest| && Fitting(r, n, size, em)
    requires AtMostOnce(em.dests) && BalancedFor(m, h)
    ensures BalancedFor(FireWith(r, m, n, size, em), h)
  {
    var frame, rest := m.rest[..size], m.rest[size..];
    var f := Input(frame, em, m.serial);
    var out := Deliveries(r, m.boxes, f, em.dests, n, |r[n]|);
    var dropped := if em.loaded.Some? then frame else [];
    assert Count(m.rest, h) == Count(frame, h) + Count(rest, h) by {
      assert m.rest == frame + rest;
      CountConcat(frame, rest, h);
    }
    assert CountBoxes(out.boxes, h) + Count(out.lost, h) + Count(Kept(f, em.dests), h)
      == CountBoxes(m.boxes, h) + Count(f, h) by {
      DeliveriesCount(r, m.boxes, f, em.dests, n, |r[n]|, h);
      Partition(f, em.dests, n, |r[n]|, h);
    }
    CountConcat(m.kept, Kept(f, em.dests), h);
    CountConcat(m.lost, dropped, h);
    CountConcat(m.lost + dropped, out.lost, h);
    CountConcat(m.loaded, if em.loaded.Some? then f else [], h);
  }

  // Firing a node that moves each packet at most once keeps the ledger balanced.
  lemma FireBalances<W>(r: Routing, m: Machine<W>, n: nat, size: nat, em: Emission<W>)
    requires MachineFits(r, m) && n < |r| && size <= |m.rest| && Fitting(r, n, size, em)
    requires AtMostOnce(em.dests) && Balanced(m)
    ensures Balanced(FireWith(r, m, n, size, em))
  {
    forall h: nat ensures BalancedFor(FireWith(r, m, n, size, em), h) {
      assert BalancedFor(m, h);
      FireBalancesFor(r, m, n, size, em, h);
    }
  }

  // A fully wired graph loses nothing at its outputs.
  lemma {:induction false} WiredLosesNothing(r: Routing, boxes: seq<seq<Token>>, f: seq<Token>, dests: seq<seq<nat>>,
                                             n: nat, k: nat)
    requires WellRouted(r) && FullyWired(r) && |boxes| == |r| && n < |r| && k <= |r[n]| && |dests| == |f|
    ensures Deliveries(r, boxes, f, dests, n, k).lost == []
  {
    if k > 0 {
      WiredLosesNothing(r, boxes, f, dests, n, k - 1);
    }
  }

  // ---- how many packets wait ----

  function Total(boxes: seq<seq<Token>>): nat {
    if boxes == [] then 0 else Total(boxes[..|boxes| - 1]) + |boxes[|boxes| - 1]|
  }

  lemma {:induction false} TotalAppend(boxes: seq<seq<Token>>, t: nat, xs: seq<Token>)
    requires t < |boxes|
    ensures Total(boxes[t := boxes[t] + xs]) == Total(boxes) + |xs|
  {
    var k := |boxes| - 1;
    if t == k {
      assert boxes[t := boxes[t] + xs][..k] == boxes[..k];
    } else {
      assert boxes[t := boxes[t] + xs][..k] == boxes[..k][t := boxes[t] + xs];
      TotalAppend(boxes[..k], t, xs);
    }
  }

  lemma {:induction false} BoxAtMostTotal(boxes: seq<seq<Token>>, t: nat)
    requires t < |boxes|
    ensures |boxes[t]| <= Total(boxes)
  {
    if t < |boxes| - 1 {
      BoxAtMostTotal(boxes[..|boxes| - 1], t);
    }
  }

  lemma DeliverOneTotal(prev: Routed, xs: seq<Token>, target: Option<nat>)
    requires target.Some? ==> target.value < |prev.boxes|
    ensures Total(DeliverOne(prev, xs, target).boxes) <= Total(prev.boxes) + |xs|
  {
    if target.Some? {
      TotalAppend(prev.boxes, target.value, xs);
    }
  }

  function TotalRouted(x: Routed): nat {
    Total(x.boxes)
  }

  lemma DeliveriesTotalStep(r: Routing, boxes: seq<seq<Token>>, f: seq<Token>, dests: seq<seq<nat>>, n: nat, k: nat)
    requires WellRouted(r) && |boxes| == |r| && n < |r| && 0 < k <= |r[n]| && |dests| == |f|
    ensures TotalRouted(Deliveries(r, boxes, f, dests, n, k))
         <= TotalRouted(Deliveries(r, boxes, f, dests, n, k - 1)) + |Gather(f, dests, Edge(n, k - 1))|
  {
    DeliveriesUnfold(r, boxes, f, dests, n, k);
    DeliverOneTotal(Deliveries(r, boxes, f, dests, n, k - 1), Gather(f, dests, Edge(n, k - 1)), r[n][k - 1]);
  }

  function SumSizes(f: seq<Token>, dests: seq<seq<nat>>, n: nat, k: nat): nat
    requires |dests| == |f|
  {
    if k == 0 then 0 else SumSizes(f, dests, n, k - 1) + |Gather(f, dests, Edge(n, k - 1))|
  }

  lemma SumSizesGrows(f: seq<Token>, dests: seq<seq<nat>>, n: nat, k: nat)
    requires |dests| == |f| && 0 < k
    ensures SumSizes(f, dests, n, k) == SumSizes(f, dests, n, k - 1) + |Gather(f, dests, Edge(n, k - 1))|
  {
  }

  lemma {:induction false} SumSizesNone(n: nat, k: nat)
    ensures SumSizes([], [], n, k) == 0
  {
    if k > 0 {
      SumSizesNone(n, k - 1);
    }
  }

  lemma CopiesSize(x: Token, d: seq<nat>, e: Edge)
    requires |d| <= 1
    ensures |Copies(x, d, e)| == One(d != [] && d[0] == e.out)
  {
    if d != [] {
      assert d[..0] == [] && Copies(x, [], e) == [];
    }
  }

  lemma {:induction false} SumSizesStep(f: seq<Token>, dests: seq<seq<nat>>, n: nat, k: nat)
    requires |dests| == |f| && f != [] && |dests[|f| - 1]| <= 1
    ensures var d := dests[|f| - 1];
      SumSizes(f, dests, n, k) == SumSizes(f[..|f| - 1], dests[..|f| - 1], n, k) + One(d != [] && d[0] < k)
    decreases k
  {
    if k > 0 {
      SumSizesStep(f, dests, n, k - 1);
      CopiesSize(f[|f| - 1], dests[|f| - 1], Edge(n, k - 1));
    }
  }

  lemma {:induction false} SumSizesAtMost(f: seq<Token>, dests: seq<seq<nat>>, n: nat, k: nat)
    requires |dests| == |f| && AtMostOnce(dests)
    ensures SumSizes(f, dests, n, k) <= |f|
    decreases |f|
  {
    if f == [] {
      SumSizesNone(n, k);
    } else {
      SumSizesAtMost(f[..|f| - 1], dests[..|f| - 1], n, k);
      SumSizesStep(f, dests, n, k);
    }
  }

  // How much the first k outputs hold beyond what was sent there.
  function SizeSurplus(r: Routing, boxes: seq<seq<Token>>, f: seq<Token>, dests: seq<seq<nat>>, n: nat, k: nat): int
    requires WellRouted(r) && |boxes| == |r| && n < |r| && k <= |r[n]| && |dests| == |f|
  {
    TotalRouted(Deliveries(r, boxes, f, dests, n, k)) - SumSizes(f, dests, n, k)
  }

  lemma SizeSurplusNone(r: Routing, boxes: seq<seq<Token>>, f: seq<Token>, dests: seq<seq<nat>>, n: nat)
    requires WellRouted(r) && |boxes| == |r| && n < |r| && |dests| == |f|
    ensures SizeSurplus(r, boxes, f, dests, n, 0) == Total(boxes)
  {
  }

  lemma SizeSurplusFalls(r: Routing, boxes: seq<seq<Token>>, f: seq<Token>, dests: seq<seq<nat>>, n: nat, k: nat)
    requires WellRouted(r) && |boxes| == |r| && n < |r| && 0 < k <= |r[n]| && |dests| == |f|
    ensures SizeSurplus(r, boxes, f, dests, n, k) <= SizeSurplus(r, boxes, f, dests, n, k - 1)
  {
    DeliveriesTotalStep(r, boxes, f, dests, n, k);
    SumSizesGrows(f, dests, n, k);
  }

  lemma {:induction false} DeliveriesSizes(r: Routing, boxes: seq<seq<Token>>, f: seq<Token>, dests: seq<seq<nat>>,
                                           n: nat, k: nat)
    requires WellRouted(r) && |boxes| == |r| && n < |r| && k <= |r[n]| && |dests| == |f|
    ensures SizeSurplus(r, boxes, f, dests, n, k) <= Total(boxes)
    decreases k
  {
    if k == 0 {
      SizeSurplusNone(r, boxes, f, dests, n);
      return;
    }
    var j := k - 1;
    DeliveriesSizes(r, boxes, f, dests, n, j);
    SizeSurplusFalls(r, boxes, f, dests, n, k);
    assert SizeSurplus(r, boxes, f, dests, n, k) <= SizeSurplus(r, boxes, f, dests, n, j);
  }

  // A firing that moves each packet at most once delivers no more packets than it took.
  lemma DeliveriesTotal(r: Routing, boxes: seq<seq<Token>>, f: seq<Token>, dests: seq<seq<nat>>, n: nat, k: nat)
    requires WellRouted(r) && |boxes| == |r| && n < |r| && k <= |r[n]| && |dests| == |f| && AtMostOnce(dests)
    ensures Total(Deliveries(r, boxes, f, dests, n, k).boxes) <= Total(boxes) + |f|
  {
    DeliveriesSizes(r, boxes, f, dests, n, k);
    SumSizesAtMost(f, dests, n, k);
  }
}
