// What one run of a worker, or of the single-core dataplane, does to the balancer: it processes the
// received burst once, clients' packets first and backends' replies after them.
module PipelineRuns {
  import opened Net
  import opened LbSpec
  import opened LbRuns
  import opened Headers
  import opened Graphs
  import opened Frames
  import opened Firing
  import opened Scheduling
  import opened Stories
  import opened DrainSteps
  import opened LoopSteps
  import opened Dispatchers
  import opened Pipeline
  import opened RunInduction
  import Distributor

  // ---- graphs that start with receiving, parsing and balancing ----

  // Nodes 0, 1 and 2 receive, parse and balance; both of the parser's packet outputs lead to the
  // balancer, and nothing else leads to any of the three.
  ghost predicate Fronted(kinds: seq<Kind>, r: Routing) {
    && Manned(kinds, r) && WellRouted(r) && 3 <= |r|
    && kinds[0] == Receive && kinds[1] == Parse && kinds[2] == Balance
    && (forall n: nat | 3 <= n < |r| :: !kinds[n].Parse? && !kinds[n].Balance?)
    && r[0][0] == Some(1) && r[1][0] == Some(2) && r[1][1] == Some(2)
    && (forall o: nat | 2 <= o < |r[1]| :: Beyond(r[1][o]))
    && (forall n: nat | 2 <= n < |r| :: AllBeyond(r[n]))
  }

  predicate Beyond(target: Option<nat>) {
    target.Some? ==> 3 <= target.value
  }

  lemma WorkerFronted()
    ensures Fronted(WORKER_KINDS, RoutingOf(WORKER))
  {
    FourManned();
    WorkerSound();
  }

  lemma MonolithicFronted()
    ensures Fronted(MONOLITHIC_KINDS, RoutingOf(MONOLITHIC))
  {
    FourManned();
    MonolithicSound();
  }

  // ---- one firing ----

  lemma {:induction false} DeliverNothing(r: Routing, boxes: seq<seq<Token>>, n: nat, k: nat)
    requires WellRouted(r) && |boxes| == |r| && n < |r| && k <= |r[n]|
    ensures Deliveries(r, boxes, [], [], n, k) == Routed(boxes, [])
    decreases k
  {
    if k > 0 {
      DeliverNothing(r, boxes, n, k - 1);
      DeliveriesUnfold(r, boxes, [], [], n, k);
      var target := r[n][k - 1];
      if target.Some? {
        assert boxes[target.value] + [] == boxes[target.value];
        assert boxes[target.value := boxes[target.value]] == boxes;
      }
    }
  }

  // What a firing changes.
  lemma FiresAre(c: Cast<World>, m: Machine<World>, n: nat)
    requires MayFire(c, m, n)
    ensures var em := c.behave(n, m.world, Handles(m.boxes[n])); var m' := Fires(c, m, n);
      && Fitting(c.plan.routing, n, |m.boxes[n]|, em)
      && m'.rest == [] && m'.world == em.world
      && var f := Input(m.boxes[n], em, m.serial);
         && m'.arrived == m.arrived[n := m.arrived[n] + f]
         && m'.loaded == m.loaded + (if em.loaded.Some? then f else [])
         && m'.boxes == Deliveries(c.plan.routing, m.boxes[n := []], f, em.dests, n, |c.plan.routing[n]|).boxes
  {
    LegalAnswer(c, n, m.world, m.boxes[n], m.serial);
    assert Taken(m, n).rest[..|m.boxes[n]|] == m.boxes[n] && Taken(m, n).rest[|m.boxes[n]|..] == [];
  }

  // ---- what the parser sorts ----

  // The packets of class o, in order.
  function Picked(w: World, hs: seq<nat>, o: nat): seq<nat> {
    if hs == [] then []
    else
      var h := hs[|hs| - 1];
      Picked(w, hs[..|hs| - 1], o) + if OutOf(w.cfg, BufOf(w.bufs, h).hdr) == o then [h] else []
  }

  lemma {:induction false} PickedAre(w: World, hs: seq<nat>, o: nat, h: nat)
    requires h in Picked(w, hs, o)
    ensures h in hs && OutOf(w.cfg, BufOf(w.bufs, h).hdr) == o
  {
    if h in Picked(w, hs[..|hs| - 1], o) {
      PickedAre(w, hs[..|hs| - 1], o, h);
    }
  }

  lemma FreshHandles(hs: seq<nat>, serial: nat)
    ensures Handles(Fresh(hs, serial)) == hs
  {
  }

  lemma HandlesConcat(xs: seq<Token>, ys: seq<Token>)
    ensures Handles(xs + ys) == Handles(xs) + Handles(ys)
  {
  }

  // Each packet goes to one output; an output gets its packets in order.
  lemma {:induction false} GatherPicks(w: World, f: seq<Token>, dests: seq<seq<nat>>, e: Edge)
    requires |dests| == |f| && forall i: nat | i < |f| :: dests[i] == [OutOf(w.cfg, BufOf(w.bufs, f[i].handle).hdr)]
    ensures Handles(Gather(f, dests, e)) == Picked(w, Handles(f), e.out)
    decreases |f|
  {
    if f != [] {
      var n := |f| - 1;
      GatherPicks(w, f[..n], dests[..n], e);
      OneCopy(f[n], OutOf(w.cfg, BufOf(w.bufs, f[n].handle).hdr), e);
      HandlesConcat(Gather(f[..n], dests[..n], e), Copies(f[n], dests[n], e));
      assert Handles(f)[..n] == Handles(f[..n]);
    }
  }

  lemma OneCopy(x: Token, o: nat, e: Edge)
    ensures Handles(Copies(x, [o], e)) == if o == e.out then [x.handle] else []
  {
    assert [o][..0] == [] && Copies(x, [], e) == [];
  }

  // A receiving node passes its whole burst on.
  lemma {:induction false} GatherAll(f: seq<Token>, dests: seq<seq<nat>>, e: Edge)
    requires |dests| == |f| && e.out == 0 && forall i: nat | i < |f| :: dests[i] == [0]
    ensures Handles(Gather(f, dests, e)) == Handles(f)
    decreases |f|
  {
    if f != [] {
      var n := |f| - 1;
      GatherAll(f[..n], dests[..n], e);
      OneCopy(f[n], 0, e);
      HandlesConcat(Gather(f[..n], dests[..n], e), Copies(f[n], dests[n], e));
      assert Handles(f) == Handles(f[..n]) + [f[n].handle];
    }
  }

  // ---- what the parser writes ----

  lemma {:induction false} ParseAllMeets(cfg: Config, bufs: seq<Buf>, hs: seq<nat>, h: nat)
    requires h < |bufs|
    ensures var b := ParseAll(cfg, bufs, hs)[h];
      b.hdr == bufs[h].hdr && (h in hs && Transport(b.hdr) ==> b.meta == MetaOf(cfg, b.hdr))
    decreases |hs|
  {
    if hs != [] {
      ParseAllMeets(cfg, bufs, hs[..|hs| - 1], h);
      assert h in hs <==> h in hs[..|hs| - 1] || h == hs[|hs| - 1];
    }
  }

  // ---- the burst ----

  // The order in which the balancer gets the packets of a burst.
  function BurstOrder(w: World): seq<nat> {
    Picked(w, Burst(w), 0) + Picked(w, Burst(w), 1)
  }

  function ParsedMetas(w: World, hs: seq<nat>): (metas: seq<PacketMeta>)
    ensures |metas| == |hs| && forall i: nat | i < |hs| :: metas[i] == MetaOf(w.cfg, BufOf(w.bufs, hs[i]).hdr)
  {
    seq(|hs|, i requires 0 <= i < |hs| => MetaOf(w.cfg, BufOf(w.bufs, hs[i]).hdr))
  }

  // The events of the run: one pool, one clock reading, forward packets before replies.
  function BurstEvents(w: World): (evs: seq<Event>)
    requires Balancing(w)
    ensures |evs| == |BurstOrder(w)| && AllSound(evs)
  {
    FrameEvents(ParsedMetas(w, BurstOrder(w)), w.pool, w.now)
  }

  predicate Stocked(w: World) {
    Balancing(w) && forall i: nat | i < |w.incoming| :: w.incoming[i] < |w.bufs|
  }

  // ---- the phases of a run ----

  ghost predicate Launched(c: Cast<World>, kinds: seq<Kind>) {
    && Proper(c) && Fronted(kinds, c.plan.routing) && c == CastOf(kinds, c.plan, c.origin, [])
    && Stocked(c.origin)
  }

  ghost predicate Received(c: Cast<World>, m: Machine<World>) {
    && 3 <= |m.boxes| == |m.arrived| && m.world == WorldAfter(Receive, c.origin, []) && m.arrived[2] == []
      && Handles(m.boxes[1]) == Burst(c.origin)
    && forall n: nat | n < |m.boxes| && n != 1 :: m.boxes[n] == []
  }

  ghost predicate SameBase(v: World, w: World) {
    w.cfg == v.cfg && w.e == v.e && w.pool == v.pool && w.now == v.now && |w.bufs| == |v.bufs|
  }

  ghost predicate ParsedAll(c: Cast<World>, m: Machine<World>) {
    && 3 <= |m.boxes| == |m.arrived| && m.boxes[0] == [] && m.boxes[1] == [] && m.arrived[2] == []
      && Handles(m.boxes[2]) == BurstOrder(c.origin)
    && SameBase(c.origin, m.world) && m.world.lb == c.origin.lb
    && MetasOf(m.world.bufs, BurstOrder(c.origin)) == ParsedMetas(c.origin, BurstOrder(c.origin))
  }

  ghost predicate BalancedAll(c: Cast<World>, m: Machine<World>)
    requires Balancing(c.origin)
  {
    && 3 <= |m.boxes| == |m.arrived| && m.boxes[0] == [] && m.boxes[1] == [] && m.boxes[2] == []
      && Handles(m.arrived[2]) == BurstOrder(c.origin)
    && m.world.lb == After(c.origin.e, c.origin.lb, BurstEvents(c.origin))
  }

  ghost predicate Phase(c: Cast<World>, kinds: seq<Kind>, m: Machine<World>)
    requires Launched(c, kinds)
  {
    && MachineFits(c.plan.routing, m) && m.rest == []
    && ((AtRoot(c, Taken(m, 0)) && m.arrived[2] == []) || Underway(c, m))
  }

  // The root has fired, and one of the three stages is reached.
  ghost predicate Underway(c: Cast<World>, m: Machine<World>)
    requires Balancing(c.origin)
  {
    Handles(m.loaded) == Burst(c.origin) && (Received(c, m) || ParsedAll(c, m) || BalancedAll(c, m))
  }

  // ---- a node with nothing to do ----

  lemma IdleWorld(kind: Kind, w: World)
    requires !kind.Receive?
    ensures WorldAfter(kind, w, []) == w
  {
  }

  // With nothing waiting a node changes nothing.
  lemma EmptyFire(c: Cast<World>, kinds: seq<Kind>, m: Machine<World>, n: nat)
    requires Launched(c, kinds) && MayFire(c, m, n) && n != 0 && m.boxes[n] == []
    ensures Fires(c, m, n) == m
  {
    var r := c.plan.routing;
    IdleWorld(kinds[n], m.world);
    DeliverNothing(r, m.boxes, n, |r[n]|);
    assert Handles([]) == [] && DestsOf(kinds[n], m.world, []) == [];
    assert m.boxes[n := []] == m.boxes && Taken(m, n) == m;
    NothingFired(r, m, n, c.behave(n, m.world, []));
  }

  lemma NothingFired(r: Routing, m: Machine<World>, n: nat, em: Emission<World>)
    requires MachineFits(r, m) && n < |r| && m.rest == [] && em == Emission(m.world, None, [])
    requires Fitting(r, n, 0, em) && Deliveries(r, m.boxes, [], [], n, |r[n]|) == Routed(m.boxes, [])
    ensures FireWith(r, m, n, 0, em) == m
  {
    assert m.rest[..0] == [] && m.rest[0..] == [];
    assert m.arrived[n] + [] == m.arrived[n] && m.arrived[n := m.arrived[n]] == m.arrived;
    assert m.kept + [] == m.kept && m.lost + [] + [] == m.lost && m.loaded + [] == m.loaded;
  }

  // ---- the three nodes that matter ----

  // What the root hands on goes to the parser and nowhere else.
  lemma RootDelivers(r: Routing, boxes: seq<seq<Token>>, f: seq<Token>, dests: seq<seq<nat>>)
    requires WellRouted(r) && |boxes| == |r| >= 3 && |r[0]| == 1 && r[0][0] == Some(1) && |dests| == |f|
    requires forall n: nat | n < |boxes| :: boxes[n] == []
    ensures Deliveries(r, boxes, f, dests, 0, 1).boxes == boxes[1 := Gather(f, dests, Edge(0, 0))]
  {
    DeliveriesUnfold(r, boxes, f, dests, 0, 1);
    DeliverNone(r, boxes, f, dests, 0);
    assert [] + Gather(f, dests, Edge(0, 0)) == Gather(f, dests, Edge(0, 0));
  }

  lemma NothingWaits(c: Cast<World>, m: Machine<World>)
    requires 0 < |m.boxes| && AtRoot(c, Taken(m, 0)) && c.seeds == []
    ensures m.boxes[0] == [] && forall n: nat | n < |m.boxes| :: m.boxes[n] == []
  {
    assert m.boxes[0] == Fresh([], 0);
    forall n: nat | n < |m.boxes| ensures m.boxes[n] == [] {
      assert Taken(m, 0).boxes[n] == [];
    }
  }

  lemma RootFire(c: Cast<World>, kinds: seq<Kind>, m: Machine<World>)
    requires Launched(c, kinds) && MayFire(c, m, 0) && m.arrived[2] == [] && m.loaded == []
    ensures Received(c, Fires(c, m, 0)) && Handles(Fires(c, m, 0).loaded) == Burst(c.origin)
  {
    var w := c.origin;
    NothingWaits(c, m);
    FiresAre(c, m, 0);
    assert m.boxes[0 := []] == m.boxes && Handles(m.boxes[0]) == [];
    RootDelivers(c.plan.routing, m.boxes, Fresh(Burst(w), m.serial), DestsOf(Receive, w, Burst(w)));
    RootReceives(c, m, Fires(c, m, 0));
  }

  lemma RootReceives(c: Cast<World>, m: Machine<World>, m': Machine<World>)
    requires |m.boxes| == |m.arrived| >= 3 && m.arrived[2] == [] && m.loaded == []
    requires forall n: nat | n < |m.boxes| :: m.boxes[n] == []
    requires m'.world == WorldAfter(Receive, c.origin, [])
    requires var f := Fresh(Burst(c.origin), m.serial);
      && m'.arrived == m.arrived[0 := m.arrived[0] + f] && m'.loaded == m.loaded + f
      && m'.boxes == m.boxes[1 := Gather(f, DestsOf(Receive, c.origin, Burst(c.origin)), Edge(0, 0))]
    ensures Received(c, m') && Handles(m'.loaded) == Burst(c.origin)
  {
    var f, dests := Fresh(Burst(c.origin), m.serial), DestsOf(Receive, c.origin, Burst(c.origin));
    GatherAll(f, dests, Edge(0, 0));
    FreshHandles(Burst(c.origin), m.serial);
    assert m'.loaded == f;
  }

  lemma ParseFire(c: Cast<World>, kinds: seq<Kind>, m: Machine<World>)
    requires Launched(c, kinds) && MayFire(c, m, 1) && Received(c, m)
    ensures ParsedAll(c, Fires(c, m, 1))
  {
    FiresAre(c, m, 1);
    ParserSorts(c.origin, c.plan.routing, m.boxes, m.world);
    ParsedMetasMeet(c.origin, m.world, Burst(c.origin));
  }

  // The parser leads back to neither the root nor itself.
  lemma {:induction false} EarlierEmpty(r: Routing, boxes: seq<seq<Token>>, f: seq<Token>, dests: seq<seq<nat>>, k: nat)
    requires WellRouted(r) && |boxes| == |r| >= 3 && |r[1]| == 4 && |dests| == |f| && k <= 4
    requires r[1][0] == Some(2) && r[1][1] == Some(2) && Beyond(r[1][2]) && Beyond(r[1][3])
    ensures Box(Deliveries(r, boxes, f, dests, 1, k), 0) == boxes[0]
    ensures Box(Deliveries(r, boxes, f, dests, 1, k), 1) == boxes[1]
    decreases k
  {
    if k == 0 {
      DeliverNone(r, boxes, f, dests, 1);
      return;
    }
    var j := k - 1;
    EarlierEmpty(r, boxes, f, dests, j);
    BoxStep(r, boxes, f, dests, 1, k, 0);
    BoxStep(r, boxes, f, dests, 1, k, 1);
    assert r[1][j] != Some(0) && r[1][j] != Some(1);
  }

  lemma ParserSorts(w: World, r: Routing, all: seq<seq<Token>>, v: World)
    requires WellRouted(r) && |all| == |r| >= 3 && |r[1]| == 4 && v == WorldAfter(Receive, w, [])
    requires r[1][0] == Some(2) && r[1][1] == Some(2) && Beyond(r[1][2]) && Beyond(r[1][3])
    requires Handles(all[1]) == Burst(w) && all[0] == [] && all[2] == []
    ensures var out := Deliveries(r, all[1 := []], all[1], DestsOf(Parse, v, Handles(all[1])), 1, 4).boxes;
      Handles(out[2]) == BurstOrder(w) && out[0] == [] && out[1] == []
  {
    var f, boxes := all[1], all[1 := []];
    var dests := DestsOf(Parse, v, Handles(f));
    GatherPicks(w, f, dests, Edge(1, 0));
    GatherPicks(w, f, dests, Edge(1, 1));
    HandlesConcat(Gather(f, dests, Edge(1, 0)), Gather(f, dests, Edge(1, 1)));
    TwoOutputs(r, boxes, f, dests, 4);
    EarlierEmpty(r, boxes, f, dests, 4);
  }

  function Box(x: Routed, t: nat): seq<Token> {
    if t < |x.boxes| then x.boxes[t] else []
  }

  lemma BoxOne(prev: Routed, xs: seq<Token>, target: Option<nat>, t: nat)
    requires t < |prev.boxes| && (target.Some? ==> target.value < |prev.boxes|)
    ensures Box(DeliverOne(prev, xs, target), t) == if target == Some(t) then Box(prev, t) + xs else Box(prev, t)
  {
  }

  lemma BoxStep(r: Routing, boxes: seq<seq<Token>>, f: seq<Token>, dests: seq<seq<nat>>, n: nat, k: nat, t: nat)
    requires WellRouted(r) && |boxes| == |r| && n < |r| && 0 < k <= |r[n]| && |dests| == |f| && t < |r|
    ensures Box(Deliveries(r, boxes, f, dests, n, k), t)
         == Box(Deliveries(r, boxes, f, dests, n, k - 1), t)
            + if r[n][k - 1] == Some(t) then Gather(f, dests, Edge(n, k - 1)) else []
  {
    DeliveriesUnfold(r, boxes, f, dests, n, k);
    BoxOne(Deliveries(r, boxes, f, dests, n, k - 1), Gather(f, dests, Edge(n, k - 1)), r[n][k - 1], t);
    var prev := Box(Deliveries(r, boxes, f, dests, n, k - 1), t);
    assert prev + [] == prev;
  }

  // The parser's first two outputs, one after the other.
  lemma {:induction false} TwoOutputs(r: Routing, boxes: seq<seq<Token>>, f: seq<Token>, dests: seq<seq<nat>>, k: nat)
    requires WellRouted(r) && |boxes| == |r| >= 3 && |r[1]| == 4 && |dests| == |f| && boxes[2] == [] && k <= 4
    requires r[1][0] == Some(2) && r[1][1] == Some(2) && Beyond(r[1][2]) && Beyond(r[1][3])
    ensures Box(Deliveries(r, boxes, f, dests, 1, k), 2) == FirstTwo(f, dests, k)
    decreases k
  {
    if k == 0 {
      DeliverNone(r, boxes, f, dests, 1);
      return;
    }
    var j := k - 1;
    TwoOutputs(r, boxes, f, dests, j);
    BoxStep(r, boxes, f, dests, 1, k, 2);
    FirstTwoStep(f, dests, k);
    assert r[1][j] == Some(2) <==> j < 2;
  }

  // What outputs 0 and 1 got, of the first k.
  function FirstTwo(f: seq<Token>, dests: seq<seq<nat>>, k: nat): seq<Token>
    requires |dests| == |f|
  {
    if k == 0 then []
    else if k == 1 then Gather(f, dests, Edge(1, 0))
    else Gather(f, dests, Edge(1, 0)) + Gather(f, dests, Edge(1, 1))
  }

  lemma FirstTwoStep(f: seq<Token>, dests: seq<seq<nat>>, k: nat)
    requires |dests| == |f| && 0 < k
    ensures FirstTwo(f, dests, k)
         == FirstTwo(f, dests, k - 1) + if k - 1 < 2 then Gather(f, dests, Edge(1, k - 1)) else []
  {
    assert FirstTwo(f, dests, k) + [] == FirstTwo(f, dests, k);
    assert [] + Gather(f, dests, Edge(1, 0)) == Gather(f, dests, Edge(1, 0));
  }

  lemma ParsedMetasMeet(w: World, v: World, hs: seq<nat>)
    requires Stocked(w) && v == WorldAfter(Receive, w, []) && hs == Burst(w)
    ensures MetasOf(ParseAll(v.cfg, v.bufs, hs), BurstOrder(w)) == ParsedMetas(w, BurstOrder(w))
  {
    forall i: nat | i < |BurstOrder(w)|
      ensures BufOf(ParseAll(v.cfg, v.bufs, hs), BurstOrder(w)[i]).meta
        == MetaOf(w.cfg, BufOf(w.bufs, BurstOrder(w)[i]).hdr)
    {
      var h := BurstOrder(w)[i];
      SortedIs(w, h);
      ParseAllMeets(v.cfg, v.bufs, hs, h);
    }
  }

  lemma SortedIs(w: World, h: nat)
    requires Stocked(w) && h in BurstOrder(w)
    ensures h in Burst(w) && h < |w.bufs| && Transport(w.bufs[h].hdr)
  {
    if h in Picked(w, Burst(w), 0) {
      PickedAre(w, Burst(w), 0, h);
    } else {
      PickedAre(w, Burst(w), 1, h);
    }
  }

  lemma BalancerRuns(w: World, v: World)
    requires Stocked(w) && SameBase(w, v) && v.lb == w.lb
    requires MetasOf(v.bufs, BurstOrder(w)) == ParsedMetas(w, BurstOrder(w))
    ensures WorldAfter(Balance, v, BurstOrder(w)).lb == After(w.e, w.lb, BurstEvents(w))
  {
  }

  lemma BalanceFire(c: Cast<World>, kinds: seq<Kind>, m: Machine<World>)
    requires Launched(c, kinds) && MayFire(c, m, 2) && ParsedAll(c, m)
    ensures BalancedAll(c, Fires(c, m, 2))
  {
    var r, f := c.plan.routing, m.boxes[2];
    FiresAre(c, m, 2);
    var dests := DestsOf(Balance, m.world, Handles(f));
    FrontUntouched(r, m.boxes[2 := []], f, dests, 2, |r[2]|);
    BalancerRuns(c.origin, m.world);
    assert [] + f == f;
  }

  lemma DeliverNone(r: Routing, boxes: seq<seq<Token>>, f: seq<Token>, dests: seq<seq<nat>>, n: nat)
    requires WellRouted(r) && |boxes| == |r| && n < |r| && |dests| == |f|
    ensures Deliveries(r, boxes, f, dests, n, 0) == Routed(boxes, [])
  {
  }

  predicate AllBeyond(targets: seq<Option<nat>>) {
    forall o: nat | o < |targets| :: Beyond(targets[o])
  }

  // The boxes of the first three nodes.
  function Front(boxes: seq<seq<Token>>): (seq<Token>, seq<Token>, seq<Token>)
    requires 3 <= |boxes|
  {
    (boxes[0], boxes[1], boxes[2])
  }

  lemma FrontSkipped(prev: Routed, xs: seq<Token>, target: Option<nat>)
    requires 3 <= |prev.boxes| && (target.Some? ==> 3 <= target.value < |prev.boxes|)
    ensures Front(DeliverOne(prev, xs, target).boxes) == Front(prev.boxes)
  {
  }

  // Nodes that lead only beyond the first three feed none of them.
  lemma {:induction false} FrontUntouched(r: Routing, boxes: seq<seq<Token>>, f: seq<Token>, dests: seq<seq<nat>>,
                                          n: nat, k: nat)
    requires WellRouted(r) && |boxes| == |r| >= 3 && n < |r| && k <= |r[n]| && |dests| == |f| && AllBeyond(r[n])
    ensures Front(Deliveries(r, boxes, f, dests, n, k).boxes) == Front(boxes)
    decreases k
  {
    if k == 0 {
      DeliverNone(r, boxes, f, dests, n);
      return;
    }
    var j := k - 1;
    FrontUntouched(r, boxes, f, dests, n, j);
    DeliveriesUnfold(r, boxes, f, dests, n, k);
    assert Beyond(r[n][j]);
    FrontSkipped(Deliveries(r, boxes, f, dests, n, j), Gather(f, dests, Edge(n, j)), r[n][j]);
  }

  lemma LaterWorld(kind: Kind, w: World, hs: seq<nat>, picked: seq<nat>)
    requires !kind.Receive? && !kind.Parse? && !kind.Balance?
    ensures var v := WorldAfter(kind, w, hs);
      SameBase(w, v) && v.lb == w.lb && MetasOf(v.bufs, picked) == MetasOf(w.bufs, picked)
  {
  }

  lemma LaterFire(c: Cast<World>, kinds: seq<Kind>, m: Machine<World>, n: nat)
    requires Launched(c, kinds) && MayFire(c, m, n) && 3 <= n && (ParsedAll(c, m) || BalancedAll(c, m))
    ensures ParsedAll(c, m) ==> ParsedAll(c, Fires(c, m, n))
    ensures BalancedAll(c, m) ==> BalancedAll(c, Fires(c, m, n))
  {
    var f := m.boxes[n];
    FiresAre(c, m, n);
    var r := c.plan.routing;
    FrontUntouched(r, m.boxes[n := []], f, DestsOf(kinds[n], m.world, Handles(f)), n, |r[n]|);
    LaterWorld(kinds[n], m.world, Handles(f), BurstOrder(c.origin));
  }

  // Only the root loads.
  lemma LoadedStays(c: Cast<World>, kinds: seq<Kind>, m: Machine<World>, n: nat)
    requires Launched(c, kinds) && MayFire(c, m, n) && n != 0
    ensures Fires(c, m, n).loaded == m.loaded
  {
    FiresAre(c, m, n);
  }

  lemma UnderwayNext(c: Cast<World>, kinds: seq<Kind>, m: Machine<World>, n: nat)
    requires Launched(c, kinds) && MayFire(c, m, n) && Underway(c, m) && n != 0 && m.boxes[n] != []
    ensures Underway(c, Fires(c, m, n))
  {
    LoadedStays(c, kinds, m, n);
    if n == 1 {
      ParseFire(c, kinds, m);
    } else if n == 2 {
      BalanceFire(c, kinds, m);
    } else {
      LaterFire(c, kinds, m, n);
    }
  }

  // The root fires before anything has arrived.
  lemma RootBefore(c: Cast<World>, kinds: seq<Kind>, m: Machine<World>)
    requires Launched(c, kinds) && MayFire(c, m, 0) && Phase(c, kinds, m)
    ensures m.arrived[2] == [] && m.loaded == []
  {
    assert m.loaded == Fresh([], 0);
    if Underway(c, m) {
      assert Burst(c.origin) == [] by {
        assert Handles([]) == [];
      }
      assert BurstOrder(c.origin) == [];
    }
  }

  lemma PhaseNext(c: Cast<World>, kinds: seq<Kind>, m: Machine<World>, n: nat)
    requires Launched(c, kinds) && MayFire(c, m, n) && Phase(c, kinds, m)
    ensures Phase(c, kinds, Fires(c, m, n))
  {
    if n == 0 {
      RootBefore(c, kinds, m);
      RootFire(c, kinds, m);
    } else if m.boxes[n] == [] {
      EmptyFire(c, kinds, m, n);
    } else {
      if AtRoot(c, Taken(m, 0)) {
        NothingWaits(c, m);
      }
      UnderwayNext(c, kinds, m, n);
    }
  }

  // ---- the run ----

  // When nothing waits the balancer is done: if it never fired, there was nothing to balance.
  lemma Settles(c: Cast<World>, kinds: seq<Kind>, m: Machine<World>)
    requires Launched(c, kinds) && Phase(c, kinds, m) && Emptied(m) && Handles(m.loaded) == Burst(c.origin)
    ensures BalancedAll(c, m)
  {
    assert Handles([]) == [];
    if AtRoot(c, Taken(m, 0)) {
      assert m.loaded == Fresh([], 0);
    }
    if AtRoot(c, Taken(m, 0)) || Received(c, m) {
      assert Burst(c.origin) == [];
    }
    if AtRoot(c, Taken(m, 0)) || Received(c, m) || ParsedAll(c, m) {
      assert BurstOrder(c.origin) == [] && BurstEvents(c.origin) == [];
    }
  }

  lemma PhaseClosed(c: Cast<World>, kinds: seq<Kind>)
    requires Launched(c, kinds)
    ensures Closed(c, m => Launched(c, kinds) && Phase(c, kinds, m))
  {
    forall m: Machine<World>, n: nat | MayFire(c, m, n) && Phase(c, kinds, m) ensures Phase(c, kinds, Fires(c, m, n)) {
      PhaseNext(c, kinds, m, n);
    }
  }

  lemma PhaseStarts(c: Cast<World>, kinds: seq<Kind>)
    requires Launched(c, kinds)
    ensures Phase(c, kinds, SeededBy(c))
  {
    var m := Taken(SeededBy(c), 0);
    assert m.rest == Fresh([], 0);
  }

  lemma RunKeepsPhase(c: Cast<World>, kinds: seq<Kind>, d: Store)
    requires Launched(c, kinds) && Starts(c, d) && Single(c) && RootOnly(c)
    ensures Phase(c, kinds, RunOf(c, d).1)
  {
    var inv := (m: Machine<World>) => Launched(c, kinds) && Phase(c, kinds, m);
    PhaseStarts(c, kinds);
    PhaseClosed(c, kinds);
    FinishKeeps(c, LoopStart(c, ResetNodes(d, |d.pending|)), SeededBy(c), c.root, inv);
  }

  // One run of the dispatcher over such a graph is, for the balancer, the run of the received burst:
  // it is given the clients' packets in the order received, then the backends' replies in the order
  // received, all under one pool and one clock reading.
  lemma BalancerSees(kinds: seq<Kind>, plan: Plan, w: World, d: Store)
    requires Acyclic(plan) && Fronted(kinds, plan.routing) && Stocked(w)
    requires StoreInv(d) && |d.pending| == |plan.routing| && d.drain == []
    ensures Starts(CastOf(kinds, plan, w, []), d)
    ensures var (s, m) := RunOf(CastOf(kinds, plan, w, []), d);
      && |m.arrived| == |plan.routing| && Handles(m.arrived[2]) == BurstOrder(w)
      && s.world.lb == After(w.e, w.lb, BurstEvents(w))
  {
    var c := CastOf(kinds, plan, w, []);
    NodesQualify(kinds, plan, w, []);
    RunOfMeets(c, d);
    RunKeepsPhase(c, kinds, d);
    RunSettles(c, kinds, RunOf(c, d).1);
  }

  lemma RunSettles(c: Cast<World>, kinds: seq<Kind>, m: Machine<World>)
    requires Launched(c, kinds) && RootOnly(c) && Phase(c, kinds, m) && Emptied(m) && Accounted(c, m)
    ensures m.world.lb == After(c.origin.e, c.origin.lb, BurstEvents(c.origin))
    ensures |m.arrived| == |c.plan.routing| && Handles(m.arrived[2]) == BurstOrder(c.origin)
  {
    LoadedBurst(c, m);
    Settles(c, kinds, m);
  }

  lemma LoadedBurst(c: Cast<World>, m: Machine<World>)
    requires Inputs(c, m) && RootOnly(c) && c.seeds == [] && RootAnswer(c).loaded == Some(Burst(c.origin))
    ensures Handles(m.loaded) == Burst(c.origin)
  {
    assert Fresh([], 0) == [];
    FreshHandles(Burst(c.origin), 0);
    assert m.loaded == Fresh(Burst(c.origin), 0);
  }

  // ---- the distributor's workers ----

  function HeadersOf(w: World, hs: seq<nat>): (pkts: seq<Packet>)
    ensures |pkts| == |hs| && forall i: nat | i < |hs| :: pkts[i] == BufOf(w.bufs, hs[i]).hdr
  {
    seq(|hs|, i requires 0 <= i < |hs| => BufOf(w.bufs, hs[i]).hdr)
  }

  lemma {:induction false} SameSorting(w: World, hs: seq<nat>, next: Next, o: nat)
    requires forall p: Packet :: OutOf(w.cfg, p) == o <==> Classify(w.cfg, p) == next
    ensures HeadersOf(w, Picked(w, hs, o)) == Distributor.PacketsFor(w.cfg, HeadersOf(w, hs), next)
    decreases |hs|
  {
    if hs != [] {
      var front, h := hs[..|hs| - 1], hs[|hs| - 1];
      SameSorting(w, front, next, o);
      assert HeadersOf(w, hs)[..|hs| - 1] == HeadersOf(w, front);
      assert HeadersOf(w, Picked(w, front, o) + [h]) == HeadersOf(w, Picked(w, front, o)) + [BufOf(w.bufs, h).hdr];
      assert Picked(w, front, o) + [] == Picked(w, front, o);
    }
  }

  // What the distributor's workers do in one step is what a run of the worker graph does.
  lemma BurstIsWorkerStep(w: World)
    requires Balancing(w)
    ensures BurstEvents(w) == Distributor.BurstLog(w.cfg, HeadersOf(w, Burst(w)), w.pool, w.now)
  {
    SameSorting(w, Burst(w), NextFwd, 0);
    SameSorting(w, Burst(w), NextRev, 1);
    var fwd, rev := Picked(w, Burst(w), 0), Picked(w, Burst(w), 1);
    assert HeadersOf(w, fwd + rev) == HeadersOf(w, fwd) + HeadersOf(w, rev);
  }
}
