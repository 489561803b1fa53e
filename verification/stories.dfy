// What a whole run keeps, depending on how the nodes behave.
module Stories {
  import opened Graphs
  import opened Frames
  import opened Firing
  import opened Conservation
  import opened Ordering
  import opened Scheduling

  // No packet is moved to the same output twice.
  ghost predicate OncePerOutput<W(!new)>(r: Routing, behave: Behaviour<W>) {
    forall n: nat, w: W, hs: seq<nat> | n < |r| && |hs| <= BURST :: Unrepeated(behave(n, w, hs).dests)
  }

  // Only the root brings packets into the graph.
  ghost predicate OnlyRootLoads<W(!new)>(r: Routing, behave: Behaviour<W>, root: nat) {
    forall n: nat, w: W, hs: seq<nat> | n < |r| && |hs| <= BURST && n != root :: behave(n, w, hs).loaded.None?
  }

  // A graph, its nodes, and a run on the packets seeds from world origin.
  datatype Cast<!W> = Cast(plan: Plan, behave: Behaviour<W>, root: nat, origin: W, seeds: seq<nat>)

  ghost predicate Proper<W(!new)>(c: Cast<W>) {
    Acyclic(c.plan) && c.root < |c.plan.routing| && Legal(c.plan.routing, c.behave)
  }

  // Every packet is moved at most once.
  ghost predicate Single<W(!new)>(c: Cast<W>) {
    forall n: nat, w: W, hs: seq<nat> | n < |c.plan.routing| && |hs| <= BURST :: AtMostOnce(c.behave(n, w, hs).dests)
  }

  ghost predicate RootOnly<W(!new)>(c: Cast<W>) {
    OnlyRootLoads(c.plan.routing, c.behave, c.root)
  }

  // The ledger balances if packets are moved at most once; packets keep their order if none is
  // repeated and only the root loads; then also at most a burst of them is under way.
  ghost predicate Story<W(!new)>(c: Cast<W>, m: Machine<W>, cur: nat)
    requires Proper(c) && MachineFits(c.plan.routing, m) && cur < |c.plan.routing|
  {
    && (Single(c) ==> Balanced(m))
    && (OncePerOutput(c.plan.routing, c.behave) && RootOnly(c) ==> OrderInv(m, cur))
    && (Single(c) && RootOnly(c) ==> Total(m.boxes) + |m.rest| <= BURST)
  }

  // ---- what the root brings in ----

  // How the root answers the seeds, which it does before anything else happens.
  function RootAnswer<W>(c: Cast<W>): Emission<W> {
    c.behave(c.root, c.origin, c.seeds)
  }

  // The packets the root hands on: the seeds, or those it loads over them.
  function HandedOn<W>(c: Cast<W>): seq<Token> {
    Input(Fresh(c.seeds, 0), RootAnswer(c), |c.seeds|)
  }

  // The seeds, if the root loads packets over them.
  function Overwritten<W>(c: Cast<W>): seq<Token> {
    if RootAnswer(c).loaded.Some? then Fresh(c.seeds, 0) else []
  }

  // If only the root loads packets, those handed on and overwritten are all there ever were; with
  // every output wired, the overwritten ones are all that is lost.
  ghost predicate Inputs<W(!new)>(c: Cast<W>, m: Machine<W>) {
    RootOnly(c) ==>
      m.loaded == Overwritten(c) + HandedOn(c) && (FullyWired(c.plan.routing) ==> m.lost == Overwritten(c))
  }

  // Nothing has happened yet, and the root is about to answer the seeds.
  ghost predicate AtRoot<W(!new)>(c: Cast<W>, m: Machine<W>) {
    && m.rest == Fresh(c.seeds, 0) == m.loaded && m.lost == [] && m.world == c.origin && m.serial == |c.seeds|
    && forall t: nat | t < |m.boxes| :: m.boxes[t] == []
  }

  // The root fires first, on all the seeds.
  ghost predicate RootFirst<W(!new)>(c: Cast<W>, m: Machine<W>, n: nat, size: nat)
    requires MachineFits(c.plan.routing, m)
  {
    n == c.root ==> size == |m.rest| && AtRoot(c, m)
  }

  lemma FireInputs<W(!new)>(c: Cast<W>, m: Machine<W>, n: nat, size: nat)
    requires Proper(c) && MachineFits(c.plan.routing, m) && n < |c.plan.routing| && size <= |m.rest| && size <= BURST
    requires RootFirst(c, m, n, size) && (n != c.root ==> Inputs(c, m))
    ensures var em := c.behave(n, m.world, Handles(m.rest[..size]));
      Fitting(c.plan.routing, n, size, em) && Inputs(c, FireWith(c.plan.routing, m, n, size, em))
  {
    var r, frame := c.plan.routing, m.rest[..size];
    var em := c.behave(n, m.world, Handles(frame));
    assert Fitting(r, n, |Handles(frame)|, em);
    if n == c.root {
      assert frame == Fresh(c.seeds, 0) && Handles(frame) == c.seeds;
    }
    if FullyWired(r) {
      WiredLosesNothing(r, m.boxes, Input(frame, em, m.serial), em.dests, n, |r[n]|);
    }
  }

  lemma {:induction false} TotalEmpty(boxes: seq<seq<Token>>)
    requires forall t: nat | t < |boxes| :: boxes[t] == []
    ensures Total(boxes) == 0
  {
    if boxes != [] {
      TotalEmpty(boxes[..|boxes| - 1]);
    }
  }

  lemma FireTotal<W>(r: Routing, m: Machine<W>, n: nat, size: nat, em: Emission<W>)
    requires MachineFits(r, m) && n < |r| && size <= |m.rest| && Fitting(r, n, size, em) && AtMostOnce(em.dests)
    requires Total(m.boxes) + |m.rest| <= BURST
    requires em.loaded.Some? ==> size == |m.rest| && forall t: nat | t < |m.boxes| :: m.boxes[t] == []
    ensures var m' := FireWith(r, m, n, size, em); Total(m'.boxes) + |m'.rest| <= BURST
  {
    var f := Input(m.rest[..size], em, m.serial);
    DeliveriesTotal(r, m.boxes, f, em.dests, n, |r[n]|);
    if em.loaded.Some? {
      TotalEmpty(m.boxes);
    }
  }

  lemma FireStory<W(!new)>(c: Cast<W>, m: Machine<W>, n: nat, size: nat)
    requires Proper(c) && MachineFits(c.plan.routing, m) && n < |c.plan.routing| && size <= |m.rest| && size <= BURST
    requires Story(c, m, n) && RootFirst(c, m, n, size)
    ensures var em := c.behave(n, m.world, Handles(m.rest[..size]));
      Fitting(c.plan.routing, n, size, em) && Story(c, FireWith(c.plan.routing, m, n, size, em), n)
  {
    var r := c.plan.routing;
    var hs := Handles(m.rest[..size]);
    var em := c.behave(n, m.world, hs);
    assert Fitting(r, n, |hs|, em);
    if Single(c) {
      assert AtMostOnce(em.dests);
      FireBalances(r, m, n, size, em);
    }
    if RootOnly(c) {
      assert n != c.root ==> em.loaded.None?;
      if OncePerOutput(r, c.behave) {
        assert Unrepeated(em.dests);
        FireOrders(r, m, n, size, em);
      }
      if Single(c) {
        FireTotal(r, m, n, size, em);
      }
    }
  }

  // ---- taking a node's packets out ----

  function Taken<W>(m: Machine<W>, n: nat): Machine<W>
    requires n < |m.boxes|
  {
    m.(boxes := m.boxes[n := []], rest := m.boxes[n])
  }

  lemma {:induction false} EmptiedCount(boxes: seq<seq<Token>>, n: nat, h: nat)
    requires n < |boxes|
    ensures CountBoxes(boxes[n := []], h) + Count(boxes[n], h) == CountBoxes(boxes, h)
    ensures Total(boxes[n := []]) + |boxes[n]| == Total(boxes)
  {
    var k := |boxes| - 1;
    if n == k {
      assert boxes[n := []][..k] == boxes[..k];
    } else {
      assert boxes[n := []][..k] == boxes[..k][n := []];
      EmptiedCount(boxes[..k], n, h);
    }
  }

  lemma TakenStory<W(!new)>(c: Cast<W>, m: Machine<W>, prev: nat, n: nat)
    requires Proper(c) && MachineFits(c.plan.routing, m) && prev < |c.plan.routing| && n < |c.plan.routing|
    requires m.rest == [] && Story(c, m, prev)
    ensures MachineFits(c.plan.routing, Taken(m, n)) && Story(c, Taken(m, n), n)
  {
    var m' := Taken(m, n);
    EmptiedCount(m.boxes, n, 0);
    if Single(c) {
      forall h: nat ensures BalancedFor(m', h) {
        assert BalancedFor(m, h);
        EmptiedCount(m.boxes, n, h);
      }
    }
    if OncePerOutput(c.plan.routing, c.behave) && RootOnly(c) {
      TakeOutOrders(m, prev, n);
    }
  }

  // ---- the seeds ----

  // The machine as a run starts: the seeds wait at the root.
  function Seeded<W>(n: nat, world: W, root: nat, hs: seq<nat>): Machine<W>
    requires root < n
  {
    var f := Fresh(hs, 0);
    Machine(seq(n, t => if t == root then f else []), [], world, seq(n, _ => []), [], [], f, |hs|)
  }

  lemma {:induction false} OneBox(boxes: seq<seq<Token>>, root: nat, h: nat)
    requires forall t: nat | t < |boxes| && t != root :: boxes[t] == []
    ensures CountBoxes(boxes, h) == if root < |boxes| then Count(boxes[root], h) else 0
    ensures Total(boxes) == if root < |boxes| then |boxes[root]| else 0
  {
    if boxes != [] {
      OneBox(boxes[..|boxes| - 1], root, h);
    }
  }

  lemma SeededBalances<W(!new)>(n: nat, world: W, root: nat, hs: seq<nat>)
    requires root < n
    ensures var m := Seeded(n, world, root, hs); Balanced(m) && Total(m.boxes) == |hs|
  {
    var m := Seeded(n, world, root, hs);
    OneBox(m.boxes, root, 0);
    forall h: nat ensures BalancedFor(m, h) {
      OneBox(m.boxes, root, h);
    }
  }

  lemma SeededOrders<W(!new)>(n: nat, world: W, root: nat, hs: seq<nat>)
    requires root < n
    ensures OrderInv(Seeded(n, world, root, hs), root)
  {
    var m := Seeded(n, world, root, hs);
    forall t: nat | t < n ensures Inflow(Base(m, root), m.boxes, t) == if t == root then Fresh(hs, 0) else [] {
    }
  }

  function SeededBy<W>(c: Cast<W>): Machine<W>
    requires c.root < |c.plan.routing|
  {
    Seeded(|c.plan.routing|, c.origin, c.root, c.seeds)
  }

  lemma SeededStory<W(!new)>(c: Cast<W>)
    requires Proper(c) && |c.seeds| <= BURST
    ensures var m := SeededBy(c);
      MachineFits(c.plan.routing, m) && Story(c, m, c.root)
  {
    SeededBalances(|c.plan.routing|, c.origin, c.root, c.seeds);
    SeededOrders(|c.plan.routing|, c.origin, c.root, c.seeds);
  }

  // ---- the end ----

  // With nothing waiting, what was loaded was kept or lost, and every node saw its packets in order.
  lemma StoryEnds<W(!new)>(c: Cast<W>, m: Machine<W>, cur: nat)
    requires Proper(c) && MachineFits(c.plan.routing, m) && cur < |c.plan.routing| && Story(c, m, cur)
    requires m.rest == [] && forall t: nat | t < |m.boxes| :: m.boxes[t] == []
    ensures Single(c) ==> forall h: nat :: Count(m.loaded, h) == Count(m.kept, h) + Count(m.lost, h)
    ensures OncePerOutput(c.plan.routing, c.behave) && RootOnly(c) ==>
      forall t: nat | t < |m.arrived| :: Ordered(m.arrived[t])
  {
    if Single(c) {
      forall h: nat ensures Count(m.loaded, h) == Count(m.kept, h) + Count(m.lost, h) {
        assert BalancedFor(m, h);
        CountBoxesEmpty(m.boxes, h);
      }
    }
    if OncePerOutput(c.plan.routing, c.behave) && RootOnly(c) {
      forall t: nat | t < |m.arrived| ensures Ordered(m.arrived[t]) {
        assert Ordered(Inflow(Base(m, cur), m.boxes, t));
        assert Inflow(Base(m, cur), m.boxes, t) == m.arrived[t];
      }
    }
  }
}
