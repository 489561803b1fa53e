// No overtaking: packets that took the same edges meet every node in their original order.
module Ordering {
  import opened Net
  import opened Graphs
  import opened Frames
  import opened Firing

  // Packets with the same trail come in the order of their serial numbers.
  predicate Ordered(xs: seq<Token>) {
    forall i: nat, j: nat | i < j < |xs| && xs[i].trail == xs[j].trail :: xs[i].serial < xs[j].serial
  }

  lemma OrderedAppend(xs: seq<Token>, x: Token)
    requires Ordered(xs) && Younger(xs, x)
    ensures Ordered(xs + [x])
  {
  }

  // ---- one output ----

  // The packet came in along edge e.
  predicate Via(x: Token, e: Edge) {
    x.trail != [] && x.trail[|x.trail| - 1] == e
  }

  function Parent(x: Token): Token
    requires x.trail != []
  {
    x.(trail := x.trail[..|x.trail| - 1])
  }

  // What came along e so far is older than what frame f may send along e.
  predicate Ahead(xs: seq<Token>, f: seq<Token>, e: Edge) {
    forall i: nat, j: nat | i < |xs| && j < |f| && Via(xs[i], e) && Parent(xs[i]).trail == f[j].trail ::
      xs[i].serial < f[j].serial
  }

  ghost predicate Unrepeated(dests: seq<seq<nat>>) {
    forall i: nat, o: nat | i < |dests| :: multiset(dests[i])[o] <= 1
  }

  lemma {:induction false} CopiesAre(x: Token, ds: seq<nat>, e: Edge)
    ensures forall i: nat | i < |Copies(x, ds, e)| :: Copies(x, ds, e)[i] == Along(x, e)
  {
    if ds != [] {
      CopiesAre(x, ds[..|ds| - 1], e);
    }
  }

  lemma AlongParent(x: Token, e: Edge)
    ensures Via(Along(x, e), e) && Parent(Along(x, e)) == x
  {
    assert (x.trail + [e])[..|x.trail|] == x.trail;
  }

  // Every packet sent along e is a packet of the frame, one edge further.
  lemma {:induction false} GatherAre(f: seq<Token>, dests: seq<seq<nat>>, e: Edge, i: nat)
    requires |dests| == |f| && i < |Gather(f, dests, e)|
    ensures var y := Gather(f, dests, e)[i]; Via(y, e) && Parent(y) in f
  {
    var n := |f| - 1;
    var front := Gather(f[..n], dests[..n], e);
    if i < |front| {
      GatherAre(f[..n], dests[..n], e, i);
      assert Parent(front[i]) in f[..n];
    } else {
      CopiesAre(f[n], dests[n], e);
      AlongParent(f[n], e);
    }
  }

  lemma {:induction false} GatherOrdered(xs: seq<Token>, f: seq<Token>, dests: seq<seq<nat>>, e: Edge)
    requires |dests| == |f| && Unrepeated(dests) && Ordered(xs) && Ordered(f) && Ahead(xs, f, e)
    ensures Ordered(xs + Gather(f, dests, e))
  {
    if f == [] {
      assert xs + [] == xs;
    } else {
      var n := |f| - 1;
      var front, back := Gather(f[..n], dests[..n], e), Copies(f[n], dests[n], e);
      GatherOrdered(xs, f[..n], dests[..n], e);
      assert xs + Gather(f, dests, e) == (xs + front) + back;
      LastSent(xs, f, dests, e);
      AppendCopies(xs + front, f[n], dests[n], e);
    }
  }

  // Packet x is younger than every packet with its trail.
  predicate Younger(ys: seq<Token>, x: Token) {
    forall i: nat | i < |ys| && ys[i].trail == x.trail :: ys[i].serial < x.serial
  }

  lemma AppendCopies(ys: seq<Token>, x: Token, ds: seq<nat>, e: Edge)
    requires Ordered(ys) && multiset(ds)[e.out] <= 1
    requires Younger(ys, Along(x, e))
    ensures Ordered(ys + Copies(x, ds, e))
  {
    var back := Copies(x, ds, e);
    CopiesCount(x, ds, e);
    CopiesAre(x, ds, e);
    if back == [] {
      assert ys + back == ys;
    } else {
      assert back == [Along(x, e)];
      OrderedAppend(ys, Along(x, e));
    }
  }

  // The last packet of the frame is younger than everything with its trail before it.
  lemma LastSent(xs: seq<Token>, f: seq<Token>, dests: seq<seq<nat>>, e: Edge)
    requires |dests| == |f| && f != [] && Ordered(f) && Ahead(xs, f, e)
    ensures var n := |f| - 1; Younger(xs + Gather(f[..n], dests[..n], e), Along(f[n], e))
  {
    var n := |f| - 1;
    var front := Gather(f[..n], dests[..n], e);
    var ys := xs + front;
    AlongParent(f[n], e);
    forall i: nat | i < |ys| && ys[i].trail == Along(f[n], e).trail ensures ys[i].serial < f[n].serial {
      assert Via(ys[i], e) && Parent(ys[i]).trail == f[n].trail;
      if i < |xs| {
        assert ys[i] == xs[i];
      } else {
        GatherAre(f[..n], dests[..n], e, i - |xs|);
        assert Parent(ys[i]) in f[..n];
      }
    }
  }

  // ---- all outputs ----

  // base[t] is what node t has processed or taken out; what follows waits in its box.
  function Inflow(base: seq<seq<Token>>, boxes: seq<seq<Token>>, t: nat): seq<Token>
    requires t < |base| == |boxes|
  {
    base[t] + boxes[t]
  }

  ghost predicate AllOrdered(base: seq<seq<Token>>, boxes: seq<seq<Token>>)
    requires |base| == |boxes|
  {
    forall t: nat | t < |base| :: Ordered(Inflow(base, boxes, t))
  }

  // What any node got along an output of n not routed yet is older than frame f.
  ghost predicate AllAhead(base: seq<seq<Token>>, boxes: seq<seq<Token>>, f: seq<Token>, n: nat, k: nat)
    requires |base| == |boxes|
  {
    forall t: nat, o: nat | t < |base| && k <= o :: Ahead(Inflow(base, boxes, t), f, Edge(n, o))
  }

  lemma DeliverOneOrdered(base: seq<seq<Token>>, prev: Routed, f: seq<Token>, dests: seq<seq<nat>>, n: nat, k: nat,
                          target: Option<nat>)
    requires |base| == |prev.boxes| && |dests| == |f| && Unrepeated(dests) && Ordered(f)
    requires 0 < k && (target.Some? ==> target.value < |base|)
    requires AllOrdered(base, prev.boxes) && AllAhead(base, prev.boxes, f, n, k - 1)
    ensures var d := DeliverOne(prev, Gather(f, dests, Edge(n, k - 1)), target);
      AllOrdered(base, d.boxes) && AllAhead(base, d.boxes, f, n, k)
  {
    var e := Edge(n, k - 1);
    var xs := Gather(f, dests, e);
    var d := DeliverOne(prev, xs, target);
    if target.Some? {
      var t := target.value;
      var before := Inflow(base, prev.boxes, t);
      assert Inflow(base, d.boxes, t) == before + xs;
      assert Ahead(before, f, e);
      GatherOrdered(before, f, dests, e);
      forall o: nat | k <= o ensures Ahead(before + xs, f, Edge(n, o)) {
        assert Ahead(before, f, Edge(n, o));
        forall i: nat | i < |xs| ensures !Via(xs[i], Edge(n, o)) {
          GatherAre(f, dests, e, i);
        }
      }
      forall s: nat | s < |base| && s != t ensures Inflow(base, d.boxes, s) == Inflow(base, prev.boxes, s) {
      }
    }
  }

  lemma {:induction false} DeliveriesOrdered(r: Routing, base: seq<seq<Token>>, boxes: seq<seq<Token>>, f: seq<Token>,
                                             dests: seq<seq<nat>>, n: nat, k: nat)
    requires WellRouted(r) && |boxes| == |base| == |r| && n < |r| && k <= |r[n]| && |dests| == |f|
    requires Unrepeated(dests) && Ordered(f) && AllOrdered(base, boxes) && AllAhead(base, boxes, f, n, 0)
    ensures var d := Deliveries(r, boxes, f, dests, n, k); AllOrdered(base, d.boxes) && AllAhead(base, d.boxes, f, n, k)
    decreases k
  {
    if k == 0 {
      assert Deliveries(r, boxes, f, dests, n, 0).boxes == boxes;
    } else {
      DeliveriesOrdered(r, base, boxes, f, dests, n, k - 1);
      var prev := Deliveries(r, boxes, f, dests, n, k - 1);
      DeliverOneOrdered(base, prev, f, dests, n, k, r[n][k - 1]);
      DeliveriesUnfold(r, boxes, f, dests, n, k);
    }
  }

  // ---- the machine ----

  // What each node has processed, plus, at the node being drained, what was taken out of it.
  function Base<W>(m: Machine<W>, cur: nat): (base: seq<seq<Token>>)
    requires cur < |m.arrived|
    ensures |base| == |m.arrived|
  {
    m.arrived[cur := m.arrived[cur] + m.rest]
  }

  // A packet that has taken edges was processed by the node it left last; one that has not carries
  // a serial number already given out.
  predicate Descended<W>(m: Machine<W>, x: Token) {
    if x.trail == [] then x.serial < m.serial
    else var e := x.trail[|x.trail| - 1]; e.node < |m.arrived| && Parent(x) in m.arrived[e.node]
  }

  ghost predicate AllDescended<W>(m: Machine<W>, cur: nat)
    requires cur < |m.arrived| == |m.boxes|
  {
    forall t: nat, i: nat | t < |m.boxes| && i < |Inflow(Base(m, cur), m.boxes, t)| ::
      Descended(m, Inflow(Base(m, cur), m.boxes, t)[i])
  }

  ghost predicate OrderInv<W>(m: Machine<W>, cur: nat)
    requires cur < |m.arrived| == |m.boxes|
  {
    AllOrdered(Base(m, cur), m.boxes) && AllDescended(m, cur)
  }

  lemma OrderedParts(xs: seq<Token>, ys: seq<Token>, zs: seq<Token>)
    requires Ordered(xs + ys + zs)
    ensures Ordered(ys)
    ensures forall i: nat, j: nat | i < |xs| && j < |ys| && xs[i].trail == ys[j].trail :: xs[i].serial < ys[j].serial
  {
    var all := xs + ys + zs;
    forall i: nat, j: nat | i < |xs| && j < |ys| && xs[i].trail == ys[j].trail ensures xs[i].serial < ys[j].serial {
      assert all[i] == xs[i] && all[|xs| + j] == ys[j];
    }
    forall i: nat, j: nat | i < j < |ys| && ys[i].trail == ys[j].trail ensures ys[i].serial < ys[j].serial {
      assert all[|xs| + i] == ys[i] && all[|xs| + j] == ys[j];
    }
  }

  // Frame f, next in line at node n, is younger than anything n has sent.
  lemma FrameBehind<W>(m: Machine<W>, n: nat, f: seq<Token>)
    requires n < |m.arrived| == |m.boxes| && OrderInv(m, n)
    requires forall i: nat, j: nat | i < |m.arrived[n]| && j < |f| && m.arrived[n][i].trail == f[j].trail
               :: m.arrived[n][i].serial < f[j].serial
    ensures AllAhead(Base(m, n), m.boxes, f, n, 0)
  {
    forall t: nat, o: nat | t < |m.boxes| ensures Ahead(Inflow(Base(m, n), m.boxes, t), f, Edge(n, o)) {
      var xs := Inflow(Base(m, n), m.boxes, t);
      forall i: nat, j: nat | i < |xs| && j < |f| && Via(xs[i], Edge(n, o)) && Parent(xs[i]).trail == f[j].trail
        ensures xs[i].serial < f[j].serial
      {
        assert Descended(m, xs[i]);
        var q: nat :| q < |m.arrived[n]| && m.arrived[n][q] == Parent(xs[i]);
      }
    }
  }

  // ---- one firing keeps the order ----

  // A waiting packet was waiting before or is a packet of the frame one edge further.
  lemma {:induction false} DeliveredFrom(r: Routing, boxes: seq<seq<Token>>, f: seq<Token>, dests: seq<seq<nat>>,
                                         n: nat, k: nat, t: nat, y: Token)
    requires WellRouted(r) && |boxes| == |r| && n < |r| && k <= |r[n]| && |dests| == |f| && t < |r|
    requires y in Deliveries(r, boxes, f, dests, n, k).boxes[t]
    ensures y in boxes[t] || (y.trail != [] && y.trail[|y.trail| - 1].node == n && Parent(y) in f)
  {
    if k > 0 {
      var prev := Deliveries(r, boxes, f, dests, n, k - 1);
      var xs := Gather(f, dests, Edge(n, k - 1));
      if y in prev.boxes[t] {
        DeliveredFrom(r, boxes, f, dests, n, k - 1, t, y);
      } else {
        var i: nat :| i < |xs| && xs[i] == y;
        GatherAre(f, dests, Edge(n, k - 1), i);
      }
    }
  }

  lemma DescendedStill<W>(m: Machine<W>, m': Machine<W>, x: Token)
    requires Descended(m, x) && m.serial <= m'.serial && |m'.arrived| == |m.arrived|
    requires forall t: nat | t < |m.arrived| :: m.arrived[t] <= m'.arrived[t]
    ensures Descended(m', x)
  {
    if x.trail != [] {
      var e := x.trail[|x.trail| - 1];
      var q: nat :| q < |m.arrived[e.node]| && m.arrived[e.node][q] == Parent(x);
      assert m'.arrived[e.node][q] == Parent(x);
    }
  }

  // Nothing changes at the draining node but where the line between done and to do lies.
  lemma BaseShifts<W>(m: Machine<W>, m': Machine<W>, n: nat, size: nat)
    requires n < |m.arrived| && size <= |m.rest|
    requires m'.arrived == m.arrived[n := m.arrived[n] + m.rest[..size]] && m'.rest == m.rest[size..]
    ensures Base(m', n) == Base(m, n)
  {
    assert m.rest == m.rest[..size] + m.rest[size..];
    assert m'.arrived[n] + m'.rest == m.arrived[n] + m.rest;
  }

  lemma RelayDescends<W>(r: Routing, m: Machine<W>, n: nat, size: nat, em: Emission<W>)
    requires MachineFits(r, m) && n < |r| && size <= |m.rest| && Fitting(r, n, size, em) && em.loaded.None?
    requires AllDescended(m, n)
    ensures AllDescended(FireWith(r, m, n, size, em), n)
  {
    var m' := FireWith(r, m, n, size, em);
    var f := m.rest[..size];
    BaseShifts(m, m', n, size);
    var base := Base(m, n);
    forall t: nat, i: nat | t < |m'.boxes| && i < |Inflow(base, m'.boxes, t)|
      ensures Descended(m', Inflow(base, m'.boxes, t)[i])
    {
      var y := Inflow(base, m'.boxes, t)[i];
      if i < |base[t]| {
        assert y == Inflow(base, m.boxes, t)[i];
        DescendedStill(m, m', y);
      } else {
        assert y in m'.boxes[t];
        DeliveredFrom(r, m.boxes, f, em.dests, n, |r[n]|, t, y);
        if y in m.boxes[t] {
          var j: nat :| j < |m.boxes[t]| && m.boxes[t][j] == y;
          assert Inflow(base, m.boxes, t)[|base[t]| + j] == y;
          DescendedStill(m, m', y);
        }
      }
    }
  }

  lemma RelayOrders<W>(r: Routing, m: Machine<W>, n: nat, size: nat, em: Emission<W>)
    requires MachineFits(r, m) && n < |r| && size <= |m.rest| && Fitting(r, n, size, em) && em.loaded.None?
    requires Unrepeated(em.dests) && OrderInv(m, n)
    ensures OrderInv(FireWith(r, m, n, size, em), n)
  {
    var f, later := m.rest[..size], m.rest[size..] + m.boxes[n];
    assert Ordered(Inflow(Base(m, n), m.boxes, n));
    assert Inflow(Base(m, n), m.boxes, n) == m.arrived[n] + f + later;
    OrderedParts(m.arrived[n], f, later);
    FrameBehind(m, n, f);
    DeliveriesOrdered(r, Base(m, n), m.boxes, f, em.dests, n, |r[n]|);
    BaseShifts(m, FireWith(r, m, n, size, em), n, size);
    RelayDescends(r, m, n, size, em);
  }

  // A receive node replaces its frame by new packets, at a time when it holds nothing else.
  function Reload<W>(m: Machine<W>, hs: seq<nat>): Machine<W> {
    m.(rest := Fresh(hs, m.serial), serial := m.serial + |hs|)
  }

  lemma ReloadOrdered(xs: seq<Token>, hs: seq<nat>, serial: nat)
    requires Ordered(xs) && forall i: nat | i < |xs| && xs[i].trail == [] :: xs[i].serial < serial
    ensures Ordered(xs + Fresh(hs, serial))
  {
  }

  lemma ReloadOrders<W>(m: Machine<W>, n: nat, hs: seq<nat>)
    requires n < |m.arrived| == |m.boxes| && OrderInv(m, n) && m.boxes[n] == []
    ensures OrderInv(Reload(m, hs), n)
  {
    var m' := Reload(m, hs);
    var f := m'.rest;
    var xs := m.arrived[n];
    var before := Inflow(Base(m, n), m.boxes, n);
    assert before == xs + m.rest;
    assert Ordered(xs) by {
      assert before == [] + xs + m.rest;
      OrderedParts([], xs, m.rest);
    }
    forall i: nat | i < |xs| && xs[i].trail == [] ensures xs[i].serial < m.serial {
      assert Descended(m, before[i]);
    }
    ReloadOrdered(xs, hs, m.serial);
    assert Inflow(Base(m', n), m'.boxes, n) == xs + f;
    forall t: nat | t < |m.boxes| && t != n ensures Inflow(Base(m', n), m'.boxes, t) == Inflow(Base(m, n), m.boxes, t) {
    }
    forall t: nat, i: nat | t < |m'.boxes| && i < |Inflow(Base(m', n), m'.boxes, t)|
      ensures Descended(m', Inflow(Base(m', n), m'.boxes, t)[i])
    {
      var y := Inflow(Base(m', n), m'.boxes, t)[i];
      if t == n && i >= |xs| {
        assert y == f[i - |xs|];
      } else {
        assert y == Inflow(Base(m, n), m.boxes, t)[i];
        DescendedStill(m, m', y);
      }
    }
  }

  // Two machines that only differ in their ledgers are ordered alike.
  lemma OrderOfParts<W>(m: Machine<W>, m': Machine<W>, n: nat)
    requires n < |m.arrived| == |m.boxes| && OrderInv(m, n)
    requires m'.boxes == m.boxes && m'.rest == m.rest && m'.arrived == m.arrived && m'.serial == m.serial
    ensures OrderInv(m', n)
  {
    forall t: nat, i: nat | t < |m'.boxes| && i < |Inflow(Base(m', n), m'.boxes, t)|
      ensures Descended(m', Inflow(Base(m', n), m'.boxes, t)[i])
    {
      assert Descended(m, Inflow(Base(m, n), m.boxes, t)[i]);
    }
  }

  lemma LoadOrders<W>(r: Routing, m: Machine<W>, n: nat, em: Emission<W>)
    requires MachineFits(r, m) && n < |r| && Fitting(r, n, |m.rest|, em) && em.loaded.Some? && m.boxes[n] == []
    requires Unrepeated(em.dests) && OrderInv(m, n)
    ensures OrderInv(FireWith(r, m, n, |m.rest|, em), n)
  {
    var hs := em.loaded.value;
    var m0, em0 := Reload(m, hs), em.(loaded := None);
    ReloadOrders(m, n, hs);
    assert Fitting(r, n, |hs|, em0);
    RelayOrders(r, m0, n, |hs|, em0);
    assert m0.rest[..|hs|] == Fresh(hs, m.serial) && m0.rest[|hs|..] == [] && m.rest[|m.rest|..] == [];
    OrderOfParts(FireWith(r, m0, n, |hs|, em0), FireWith(r, m, n, |m.rest|, em), n);
  }

  // A firing keeps packets in order: a node that relays its frame, always; one that loads its own
  // packets, when it holds nothing else.
  lemma FireOrders<W>(r: Routing, m: Machine<W>, n: nat, size: nat, em: Emission<W>)
    requires MachineFits(r, m) && n < |r| && size <= |m.rest| && Fitting(r, n, size, em)
    requires em.loaded.Some? ==> size == |m.rest| && m.boxes[n] == []
    requires Unrepeated(em.dests) && OrderInv(m, n)
    ensures OrderInv(FireWith(r, m, n, size, em), n)
  {
    if em.loaded.Some? {
      LoadOrders(r, m, n, em);
    } else {
      RelayOrders(r, m, n, size, em);
    }
  }

  // Between drains the order does not depend on which node comes next; taking a node's packets out
  // moves the line but not the packets.
  lemma TakeOutOrders<W>(m: Machine<W>, prev: nat, n: nat)
    requires prev < |m.arrived| == |m.boxes| && n < |m.boxes| && m.rest == [] && OrderInv(m, prev)
    ensures OrderInv(m.(boxes := m.boxes[n := []], rest := m.boxes[n]), n)
  {
    var m' := m.(boxes := m.boxes[n := []], rest := m.boxes[n]);
    assert m.arrived[prev] + [] == m.arrived[prev];
    forall t: nat | t < |m.boxes| ensures Inflow(Base(m', n), m'.boxes, t) == Inflow(Base(m, prev), m.boxes, t) {
    }
    forall t: nat, i: nat | t < |m'.boxes| && i < |Inflow(Base(m', n), m'.boxes, t)|
      ensures Descended(m', Inflow(Base(m', n), m'.boxes, t)[i])
    {
      assert Descended(m, Inflow(Base(m, prev), m.boxes, t)[i]);
    }
  }
}
