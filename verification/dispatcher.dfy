// The dispatcher: a last-in first-out worklist over the graph, packets batched into pooled frames.
module Dispatchers {
  import opened Graphs
  import opened Frames
  import opened FrameSteps
  import opened Firing
  import opened Conservation
  import opened Ordering
  import opened Scheduling
  import opened RunSteps
  import opened Stories
  import opened DrainSteps
  import opened LoopSteps

  // Frames are named by their index in the pool's storage.
  class FramePool {
    var frames: seq<seq<Token>>
    var free: seq<nat>

    constructor (reserve: nat)
      ensures |frames| == reserve && |free| == reserve
      ensures forall k: nat | k < reserve :: frames[k] == [] && free[k] == k
    {
      frames, free := [], [];
      new;
      for i := 0 to reserve
        invariant |frames| == i && |free| == i
        invariant forall k: nat | k < i :: frames[k] == [] && free[k] == k
      {
        frames := frames + [[]];
        free := free + [i];
      }
    }

    // A cleared frame from the free list, or a new one when the list is empty.
    method Acquire() returns (id: nat)
      requires free != [] ==> free[|free| - 1] < |frames|
      modifies this
      ensures old(free) == [] ==> id == |old(frames)| && free == [] && frames == old(frames) + [[]]
      ensures old(free) != [] ==>
        && id == old(free)[|old(free)| - 1] && free == old(free)[..|old(free)| - 1]
        && frames == old(frames)[id := []]
    {
      if free == [] {
        frames := frames + [[]];
        return |frames| - 1;
      }
      id := free[|free| - 1];
      free := free[..|free| - 1];
      frames := frames[id := []];
    }

    method Release(id: nat)
      requires id < |frames|
      modifies this
      ensures frames == old(frames)[id := []] && free == old(free) + [id]
    {
      frames := frames[id := []];
      free := free + [id];
    }

    // Push asserts that the frame has room.
    method Push(id: nat, x: Token)
      requires id < |frames| && |frames[id]| < BURST
      modifies this`frames
      ensures frames == old(frames)[id := old(frames)[id] + [x]]
    {
      frames := frames[id := frames[id] + [x]];
    }
  }

  class Dispatcher<W(!new)> {
    const plan: Plan
    const root: nat
    const behave: Behaviour<W>
    const pool: FramePool
    var world: W
    var pending: seq<seq<nat>>
    var scheduled: seq<bool>
    var queue: seq<nat>
    var drain: seq<nat>
    var serial: nat

    ghost function D(): Store
      reads this, pool
    {
      Store(pool.frames, pool.free, pending, drain)
    }

    ghost function TheDesk(): Desk
      reads this, pool
    {
      Desk(D(), queue, scheduled)
    }

    ghost function State(): Full<W>
      reads this, pool
    {
      Full(TheDesk(), world, serial)
    }

    // The run on packets hs from the world as it is.
    ghost function TheCast(hs: seq<nat>): Cast<W>
      reads this
    {
      Cast(plan, behave, root, world, hs)
    }

    ghost predicate Ours(c: Cast<W>)
    {
      c.plan == plan && c.behave == behave && c.root == root
    }

    // What a run relies on: the graph has no cycles and fits the scratch frames, and its nodes use
    // outputs that exist and put at most a burst of packets on each.
    ghost predicate Wired()
    {
      Acyclic(plan) && Narrow(plan.routing) && root < |plan.routing| && Legal(plan.routing, behave)
    }

    // What holds between runs: every frame is in one place and none is being drained.
    ghost predicate Valid()
      reads this, pool
    {
      Sized(plan, TheDesk()) && StoreInv(D()) && drain == []
    }

    // Takes any graph; the ranks in the plan are only used to show that runs end.
    constructor (plan: Plan, root: nat, behave: Behaviour<W>, world: W)
      ensures Valid() && fresh(pool)
      ensures this.plan == plan && this.root == root && this.behave == behave && this.world == world
      ensures |pool.frames| == |plan.routing| + MAX_FANOUT
    {
      this.plan, this.root, this.behave, this.world := plan, root, behave, world;
      pending := seq(|plan.routing|, _ => []);
      scheduled := seq(|plan.routing|, _ => false);
      queue, drain, serial := [], [], 0;
      pool := new FramePool(|plan.routing| + MAX_FANOUT);
      new;
      FreshStore(D());
    }

    // ---- routing ----

    method DeliverTo(t: nat, x: Token)
      requires StoreInv(D()) && t < |pending|
      modifies this`pending, pool
      ensures D() == Deliver(old(D()), t, x)
    {
      DeliverReady(D(), t);
      var ids := pending[t];
      if ids == [] || |pool.frames[ids[|ids| - 1]]| == BURST {
        var id := pool.Acquire();
        pending := pending[t := pending[t] + [id]];
      }
      ids := pending[t];
      pool.Push(ids[|ids| - 1], x);
    }

    // Appends xs to the packets waiting at node t, in frames taken from the pool as needed.
    method RouteInto(t: nat, xs: seq<Token>)
      requires StoreInv(D()) && t < |pending|
      modifies this`pending, pool
      ensures D() == FillAll(old(D()), t, xs)
    {
      ghost var d0 := D();
      for i := 0 to |xs|
        invariant D() == FillAll(d0, t, xs[..i])
      {
        FillAllMeets(d0, t, xs[..i], false);
        DeliverTo(t, xs[i]);
        FillOneMore(d0, t, xs, i);
      }
      assert xs[..|xs|] == xs;
    }

    method Schedule(n: nat)
      requires n < |scheduled|
      modifies this`scheduled, this`queue
      ensures queue == Scheduled(old(queue), old(scheduled), n) && scheduled == old(scheduled)[n := true]
    {
      if !scheduled[n] {
        scheduled := scheduled[n := true];
        queue := queue + [n];
      }
    }

    // ---- running a node ----

    // Routes what the node moved to output o; skips it if it is not wired or received nothing.
    method RouteOutput(ghost desk0: Desk, a: Answer, o: nat)
      requires Routable(plan, desk0, a) && o < |plan.routing[a.n]|
      requires TheDesk() == RouteAll(plan, desk0, a, o)
      modifies this`pending, this`scheduled, this`queue, pool
      ensures TheDesk() == RouteAll(plan, desk0, a, o + 1)
    {
      RouteAllSound(plan, desk0, a, o);
      var target := plan.routing[a.n][o];
      var xs := Gather(a.f, a.dests, Edge(a.n, o));
      if target.None? || xs == [] {
        return;
      }
      RouteInto(target.value, xs);
      Schedule(target.value);
    }

    method RouteOutputs(a: Answer)
      requires Routable(plan, TheDesk(), a)
      modifies this`pending, this`scheduled, this`queue, pool
      ensures Sized(plan, old(TheDesk())) && Answers(plan, a)
      ensures TheDesk() == RouteAll(plan, old(TheDesk()), a, |plan.routing[a.n]|)
    {
      ghost var desk0 := TheDesk();
      assert RouteAll(plan, desk0, a, 0) == desk0;
      var o := 0;
      while o < |plan.routing[a.n]|
        invariant o <= |plan.routing[a.n]| && TheDesk() == RouteAll(plan, desk0, a, o)
      {
        RouteOutput(desk0, a, o);
        o := o + 1;
      }
    }

    // Hands the first frame of the drain list to node n and routes its outputs.
    method RunNode(ghost c: Cast<W>, n: nat)
      requires Wired() && Ours(c) && n < |plan.routing| && HasFrame(c, State())
      requires StoreInv(D()) && InStep(queue, scheduled, pending)
      modifies this`world, this`serial, this`pending, this`scheduled, this`queue, pool
      ensures State() == DrainSteps.RunNode(c, old(State()), n)
    {
      var frame := pool.frames[drain[0]];
      LegalAnswer(c, n, world, frame, serial);
      var em := behave(n, world, Handles(frame));
      var a := Answer(n, Input(frame, em, serial), em.dests);
      RouteOutputs(a);
      world := em.world;
      if em.loaded.Some? {
        serial := serial + |a.f|;
      }
    }

    // Takes the frames of node n and runs them in order, releasing each when done.
    method DrainNode(ghost c: Cast<W>, ghost m: Machine<W>, n: nat)
      requires Wired() && Ours(c) && n < |plan.routing| && Sized(plan, TheDesk())
      requires DrainReady(c, TakenOut(State(), n), m, n)
      modifies this`world, this`serial, this`pending, this`scheduled, this`queue, this`drain, pool
      ensures State() == DrainAll(c, TakenOut(old(State()), n), n)
    {
      drain := pending[n];
      pending := pending[n := []];
      ghost var s0, mm := State(), m;
      while drain != []
        invariant Sized(plan, TheDesk()) && DrainReady(c, State(), mm, n)
        invariant DrainAll(c, State(), n) == DrainAll(c, s0, n)
        decreases |drain|
      {
        mm := DrainFrame(c, mm, n);
      }
    }

    method DrainFrame(ghost c: Cast<W>, ghost m: Machine<W>, n: nat) returns (ghost m': Machine<W>)
      requires Wired() && Ours(c) && n < |plan.routing|
      requires DrainReady(c, State(), m, n) && drain != []
      modifies this`world, this`serial, this`pending, this`scheduled, this`queue, this`drain, pool
      ensures |drain| < |old(drain)|
      ensures DrainReady(c, State(), m', n) && DrainAll(c, State(), n) == DrainAll(c, old(State()), n)
    {
      m' := FrameUnfolds(c, State(), m, n);
      RunFirst(c, n);
    }

    method RunFirst(ghost c: Cast<W>, n: nat)
      requires Wired() && Ours(c) && n < |plan.routing| && HasFrame(c, State())
      requires StoreInv(D()) && InStep(queue, scheduled, pending)
      requires var d := DrainSteps.RunNode(c, State(), n).desk.d; d.drain == drain && drain[0] < |d.frames|
      modifies this`world, this`serial, this`pending, this`scheduled, this`queue, this`drain, pool
      ensures State() == Released(DrainSteps.RunNode(c, old(State()), n))
    {
      RunNode(c, n);
      pool.Release(drain[0]);
      drain := drain[1..];
    }

    // ---- a run ----

    method ReleasePending(t: nat)
      requires StoreInv(D()) && drain == [] && t < |pending|
      modifies this`pending, pool
      ensures D() == ReleaseDrain(TakeOut(old(D()), t))
    {
      var ids := pending[t];
      ghost var d0 := TakeOut(D(), t);
      TakeOutMeets(D(), t);
      ghost var d := d0;
      for k := 0 to |ids|
        invariant pending == old(pending)
        invariant d == Store(pool.frames, pool.free, d0.pending, ids[k..])
        invariant StoreInv(d) && ReleaseDrain(d) == ReleaseDrain(d0)
      {
        ReleaseMeets(d);
        pool.Release(ids[k]);
        d := ReleaseFirst(d);
      }
      pending := pending[t := []];
    }

    method Reset()
      requires Valid()
      modifies this`pending, this`queue, this`scheduled, pool
      ensures D() == ResetNodes(old(D()), |old(pending)|)
      ensures queue == [] && scheduled == seq(|plan.routing|, _ => false)
    {
      ghost var d0 := D();
      for t := 0 to |pending|
        invariant |pending| == |d0.pending| && D() == ResetNodes(d0, t)
      {
        ResetMeets(d0, t);
        ReleasePending(t);
      }
      queue := [];
      scheduled := seq(|plan.routing|, _ => false);
    }

    // Fills a frame with the handles and leaves it waiting at the root.
    method Seed(hs: seq<nat>)
      requires StoreInv(D()) && |hs| <= BURST && root < |pending|
      modifies this`pending, this`serial, pool
      ensures D() == Planted(old(D()), root, Fresh(hs, 0)) && serial == |hs|
    {
      AcquireSafe(D());
      ghost var d1 := AcquireFor(D(), root);
      var seed := pool.Acquire();
      for i := 0 to |hs|
        invariant pending == old(pending) && drain == old(drain) && seed < |pool.frames| && pool.free == d1.free
        invariant pool.frames == d1.frames[seed := Fresh(hs[..i], 0)]
      {
        pool.Push(seed, Token(hs[i], i, []));
        assert Fresh(hs[..i], 0) + [Token(hs[i], i, [])] == Fresh(hs[..i + 1], 0);
      }
      assert hs[..|hs|] == hs;
      pending := pending[root := pending[root] + [seed]];
      serial := |hs|;
    }

    method Pop(ghost c: Cast<W>) returns (n: nat)
      requires Ours(c) && HasNode(c, State())
      modifies this`scheduled, this`queue
      ensures n == NextNode(c, old(State())) && |pending| == |old(pending)|
      ensures TakenOut(State(), n) == Popped(c, old(State()))
    {
      n := queue[|queue| - 1];
      queue := queue[..|queue| - 1];
      scheduled := scheduled[n := false];
    }

    method Turn(ghost c: Cast<W>, ghost m: Machine<W>, ghost cur: nat) returns (ghost m': Machine<W>, ghost cur': nat)
      requires Wired() && Ours(c) && Ready(c, State(), m, cur) && queue != []
      modifies this`world, this`serial, this`pending, this`scheduled, this`queue, this`drain, pool
      ensures Ready(c, State(), m', cur') && Finish(c, State(), m', cur') == old(Finish(c, State(), m, cur))
      ensures |pending| == |plan.routing| && Work(plan, pending) < old(Work(plan, pending))
    {
      m', cur' := TurnUnfolds(c, State(), m, cur);
      var n := Pop(c);
      DrainNode(c, Taken(m, n), n);
    }

    method Begin(hs: seq<nat>)
      requires Valid() && |hs| <= BURST && root < |plan.routing|
      modifies this`serial, this`pending, this`scheduled, this`queue, pool
      ensures State() == LoopStart(old(TheCast(hs)), ResetNodes(old(D()), |old(pending)|))
    {
      ResetMeets(D(), |pending|);
      Reset();
      Seed(hs);
      Schedule(root);
    }

    // The worklist loop.
    method Drive(ghost c: Cast<W>, ghost m: Machine<W>) returns (ghost run: Machine<W>)
      requires Wired() && Ours(c) && Ready(c, State(), m, root)
      modifies this`world, this`serial, this`pending, this`scheduled, this`queue, this`drain, pool
      ensures (State(), run) == old(Finish(c, State(), m, root))
    {
      ghost var cur: nat;
      run, cur := m, root;
      while queue != []
        invariant |pending| == |plan.routing| && Ready(c, State(), run, cur)
        invariant Finish(c, State(), run, cur) == old(Finish(c, State(), m, root))
        decreases Work(plan, pending)
      {
        run, cur := Turn(c, run, cur);
      }
    }

    // Runs the graph on a batch of packets. The run returned is its history: what each node was
    // given, and which packets were loaded, kept by a node, or lost.
    method RunOnce(hs: seq<nat>) returns (ghost run: Machine<W>)
      requires Valid() && Wired() && |hs| <= BURST
      modifies this`world, this`serial, this`pending, this`scheduled, this`queue, this`drain, pool
      ensures Valid() && Finished(old(TheCast(hs)), State())
      ensures Accounted(old(TheCast(hs)), run) && world == run.world
      ensures Starts(old(TheCast(hs)), old(D())) && (State(), run) == RunOf(old(TheCast(hs)), old(D()))
      ensures Single(old(TheCast(hs))) && RootOnly(old(TheCast(hs))) && |old(pool.frames)| > |plan.routing| + 1 ==>
        |pool.frames| == |old(pool.frames)|
    {
      ghost var c := TheCast(hs);
      RunOfMeets(c, D());
      Begin(hs);
      run := Drive(c, SeededBy(c));
    }
  }

  // A run from any state between runs: frames left over are released, then the loop runs.
  ghost predicate Starts<W(!new)>(c: Cast<W>, d: Store) {
    && Proper(c) && |d.pending| == |c.plan.routing|
    && Ready(c, LoopStart(c, ResetNodes(d, |d.pending|)), SeededBy(c), c.root)
  }

  ghost function RunOf<W(!new)>(c: Cast<W>, d: Store): (Full<W>, Machine<W>)
    requires Starts(c, d)
  {
    Finish(c, LoopStart(c, ResetNodes(d, |d.pending|)), SeededBy(c), c.root)
  }

  // For every acyclic graph, every legal behaviour of its nodes and every batch: the run ends, no
  // frame is left waiting, every packet is accounted for, and if no node replicates packets and
  // only the root loads any, a pool of more than one frame per node plus one does not grow.
  lemma RunOfMeets<W(!new)>(c: Cast<W>, d: Store)
    requires Proper(c) && StoreInv(d) && |d.pending| == |c.plan.routing| && d.drain == [] && |c.seeds| <= BURST
    ensures Starts(c, d)
    ensures var (s, m) := RunOf(c, d);
      && Finished(c, s) && Accounted(c, m) && Emptied(m) && s.world == m.world
      && (Single(c) && RootOnly(c) && |d.frames| > |c.plan.routing| + 1 ==> |s.desk.d.frames| == |d.frames|)
  {
    ResetMeets(d, |d.pending|);
    RunMeets(c, ResetNodes(d, |d.pending|));
  }

  lemma AtMostOnceUnrepeated(dests: seq<seq<nat>>)
    requires AtMostOnce(dests)
    ensures Unrepeated(dests)
  {
  }

  // In a ledger where the overwritten packets are all that is lost, the rest is kept.
  lemma KeptIsHandedOn<W(!new)>(c: Cast<W>, m: Machine<W>, h: nat)
    requires m.loaded == Overwritten(c) + HandedOn(c) && m.lost == Overwritten(c)
    requires Count(m.loaded, h) == Count(m.kept, h) + Count(m.lost, h)
    ensures Count(m.kept, h) == Count(HandedOn(c), h)
  {
    CountConcat(Overwritten(c), HandedOn(c), h);
  }

  lemma SingleIsOnce<W(!new)>(c: Cast<W>)
    requires Single(c)
    ensures OncePerOutput(c.plan.routing, c.behave)
  {
    forall n: nat, w: W, hs: seq<nat> | n < |c.plan.routing| && |hs| <= BURST
      ensures Unrepeated(c.behave(n, w, hs).dests)
    {
      AtMostOnceUnrepeated(c.behave(n, w, hs).dests);
    }
  }

  // A graph with no open outputs, such as each of the four of the dataplane, whose nodes move each
  // packet at most once and whose root alone may load packets, on any batch: every packet the root
  // hands on, the batch or what it loads over it, ends up exactly once at a node that sends, queues
  // or frees it; only a batch loaded over is lost; every node sees packets that came the same way in
  // the order they were brought in; and the pool keeps its size.
  lemma SoundGraphRuns<W(!new)>(c: Cast<W>, d: Store)
    requires Proper(c) && FullyWired(c.plan.routing) && Single(c) && RootOnly(c)
    requires StoreInv(d) && |d.pending| == |c.plan.routing| && d.drain == [] && |c.seeds| <= BURST
    ensures Starts(c, d)
    ensures var (s, m) := RunOf(c, d);
      && Finished(c, s) && s.world == m.world
      && (forall h: nat :: Count(m.kept, h) == Count(HandedOn(c), h)) && m.lost == Overwritten(c)
      && (forall n: nat | n < |m.arrived| :: Ordered(m.arrived[n]))
      && (|d.frames| > |c.plan.routing| + 1 ==> |s.desk.d.frames| == |d.frames|)
  {
    RunOfMeets(c, d);
    SingleIsOnce(c);
    var (s, m) := RunOf(c, d);
    forall h: nat ensures Count(m.kept, h) == Count(HandedOn(c), h) {
      KeptIsHandedOn(c, m, h);
    }
  }

  // The four graphs qualify.
  lemma SoundIsProper<W(!new)>(targets: seq<seq<nat>>, rank: seq<nat>, top: nat, behave: Behaviour<W>, world: W,
                               hs: seq<nat>)
    requires SoundWiring(targets, rank) && Topped(rank, top) && targets != [] && Legal(RoutingOf(targets), behave)
    ensures var c := Cast(Plan(RoutingOf(targets), rank, top), behave, 0, world, hs);
      Proper(c) && FullyWired(c.plan.routing)
  {
  }

  lemma TurnUnfolds<W(!new)>(c: Cast<W>, s: Full<W>, m: Machine<W>, cur: nat) returns (m': Machine<W>, cur': nat)
    requires Proper(c) && Ready(c, s, m, cur) && s.desk.queue != []
    ensures HasNode(c, s) && DrainReady(c, Popped(c, s), Taken(m, NextNode(c, s)), NextNode(c, s))
    ensures var s' := LoopSteps.Turn(c, s);
      && Ready(c, s', m', cur') && Finish(c, s', m', cur') == Finish(c, s, m, cur)
      && Work(c.plan, s'.desk.d.pending) < Work(c.plan, s.desk.d.pending)
  {
    PopReady(c, s, m, cur);
    TurnMeets(c, s, m, cur);
    m', cur' := TurnLog(c, s, m, cur), NextNode(c, s);
  }

  function TakenOut<W>(s: Full<W>, n: nat): Full<W>
    requires n < |s.desk.d.pending|
  {
    s.(desk := s.desk.(d := TakeOut(s.desk.d, n)))
  }

  lemma FrameUnfolds<W(!new)>(c: Cast<W>, s: Full<W>, m: Machine<W>, n: nat) returns (m': Machine<W>)
    requires Proper(c) && n < |c.plan.routing| && DrainReady(c, s, m, n) && s.desk.d.drain != []
    ensures HasFrame(c, s) && StoreInv(s.desk.d) && InStep(s.desk.queue, s.desk.scheduled, s.desk.d.pending)
    ensures var d := DrainSteps.RunNode(c, s, n).desk.d; d.drain == s.desk.d.drain && d.drain[0] < |d.frames|
    ensures var s' := Released(DrainSteps.RunNode(c, s, n));
      DrainReady(c, s', m', n) && DrainAll(c, s', n) == DrainAll(c, s, n) && s'.desk.d.drain == s.desk.d.drain[1..]
  {
    FrameStep(c, s, m, n);
    m' := Fired(c, m, n, |HeadFrame(c, s)|);
    DrainUnfolds(c, s, m, n);
    RunNodeMidway(c, s, m, n);
  }

  lemma DeliverReady(d: Store, t: nat)
    requires StoreInv(d) && t < |d.pending|
    ensures d.free != [] ==> d.free[|d.free| - 1] < |d.frames|
    ensures d.pending[t] != [] ==> LastFrame(d, t) < |d.frames| && |d.frames[LastFrame(d, t)]| <= BURST
  {
    AcquireSafe(d);
  }

  lemma FillOneMore(d: Store, t: nat, xs: seq<Token>, i: nat)
    requires i < |xs| && t < |d.pending|
    ensures FillAll(d, t, xs[..i + 1]) == Deliver(FillAll(d, t, xs[..i]), t, xs[i])
  {
    assert xs[..i + 1][..i] == xs[..i];
  }

  // The state in which a node's answer is routed.
  ghost predicate Routable(p: Plan, desk: Desk, a: Answer) {
    Answers(p, a) && Sized(p, desk) && StoreInv(desk.d) && InStep(desk.queue, desk.scheduled, desk.d.pending)
  }

  // Frames and worklist stay sound while outputs are routed.
  lemma RouteAllSound(p: Plan, desk: Desk, a: Answer, k: nat)
    requires Routable(p, desk, a) && k <= |p.routing[a.n]|
    ensures StoreInv(RouteAll(p, desk, a, k).d)
  {
    var boxes := seq(|p.routing|, t requires 0 <= t < |p.routing| => Contents(desk.d, t));
    StartMidway(p, desk, boxes, a);
    RouteAllMeets(p, desk, boxes, a, k);
  }

  lemma {:induction false} IdentityTimes(ids: seq<nat>, id: nat)
    requires forall k: nat | k < |ids| :: ids[k] == k
    ensures Times(ids, id) == if id < |ids| then 1 else 0
  {
    if ids != [] {
      var front := ids[..|ids| - 1];
      assert ids == front + [|ids| - 1];
      IdentityTimes(front, id);
    }
  }

  lemma {:induction false} NoTimes(lists: seq<seq<nat>>, id: nat)
    requires forall n: nat | n < |lists| :: lists[n] == []
    ensures TimesAll(lists, id) == 0
  {
    if lists != [] {
      NoTimes(lists[..|lists| - 1], id);
    }
  }

  lemma FreshStore(d: Store)
    requires d.drain == [] && |d.free| == |d.frames| && (forall k: nat | k < |d.free| :: d.free[k] == k)
    requires forall n: nat | n < |d.pending| :: d.pending[n] == []
    requires forall k: nat | k < |d.frames| :: d.frames[k] == []
    ensures StoreInv(d)
  {
    forall id: nat ensures Places(d, id) == if id < |d.frames| then 1 else 0 {
      IdentityTimes(d.free, id);
      NoTimes(d.pending, id);
    }
    NoneWaiting(d.pending);
  }
}
