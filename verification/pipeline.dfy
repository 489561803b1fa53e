// The nodes of the dataplane as the dispatcher sees them, and the four graphs made of them.
module Pipeline {
  import opened Net
  import opened NatSpec
  import opened BackendPools
  import opened LbSpec
  import opened LbRuns
  import opened Headers
  import opened Graphs
  import opened Frames
  import opened Firing
  import opened Conservation
  import opened Ordering
  import opened Scheduling
  import opened Stories
  import opened LoopSteps
  import opened Dispatchers

  // ---- nodes ----

  // Receiving from the port or a ring, parsing, balancing, address translation, Ethernet rewriting,
  // answering ARP, steering, and sending, queueing or freeing.
  datatype Kind = Receive | Parse | Balance | Translate | Ether | ArpReply | Steer | Sink

  function Outs(kind: Kind): nat {
    match kind
    case Receive => 1
    case Parse => 4
    case Balance => 2
    case Translate => 1
    case Ether => 1
    case ArpReply => 2
    case Steer => 1
    case Sink => 0
  }

  // A packet buffer; whether it is an ARP request for one of the node's own addresses is a fact of
  // its contents.
  datatype Buf = Buf(hdr: Packet, meta: PacketMeta, arpForUs: bool)

  // Everything the nodes of one lcore read and write: packets waiting to be received, buffers by
  // handle, the pool and clock of this run, and the balancer's state.
  datatype World = World(cfg: Config, e: Env, incoming: seq<nat>, bufs: seq<Buf>, pool: Option<Pool>, now: Millis,
                         lb: Lb)

  const NO_PACKET := Packet(OtherEther, 0, 0, 0, 0, 0, 0, 0, 0)
  const NO_META := PacketMeta(0, 0, 0, 0, 0, Forward, 0, 0, 0, 0, 0, 0, 0, 0)

  function BufOf(bufs: seq<Buf>, h: nat): Buf {
    if h < |bufs| then bufs[h] else Buf(NO_PACKET, NO_META, false)
  }

  function SetBuf(bufs: seq<Buf>, h: nat, b: Buf): (res: seq<Buf>)
    ensures |res| == |bufs|
  {
    if h < |bufs| then bufs[h := b] else bufs
  }

  function OutOf(cfg: Config, pkt: Packet): (out: nat)
    ensures out < 4
  {
    match Classify(cfg, pkt)
    case NextFwd => 0
    case NextRev => 1
    case NextDrop => 2
    case NextArp => 3
  }

  function Parsed(cfg: Config, b: Buf): Buf {
    if Transport(b.hdr) then b.(meta := MetaOf(cfg, b.hdr)) else b
  }

  function ParseAll(cfg: Config, bufs: seq<Buf>, hs: seq<nat>): (res: seq<Buf>)
    ensures |res| == |bufs|
  {
    if hs == [] then bufs
    else
      var prev, h := ParseAll(cfg, bufs, hs[..|hs| - 1]), hs[|hs| - 1];
      SetBuf(prev, h, Parsed(cfg, BufOf(prev, h)))
  }

  function MetasOf(bufs: seq<Buf>, hs: seq<nat>): (metas: seq<PacketMeta>)
    ensures |metas| == |hs| && forall i: nat | i < |hs| :: metas[i] == BufOf(bufs, hs[i]).meta
  {
    seq(|hs|, i requires 0 <= i < |hs| => BufOf(bufs, hs[i]).meta)
  }

  // The balancer's verdicts written back to the buffers.
  function WriteBack(bufs: seq<Buf>, hs: seq<nat>, outs: seq<Option<PacketMeta>>): (res: seq<Buf>)
    requires |outs| == |hs|
    ensures |res| == |bufs|
  {
    if hs == [] then bufs
    else
      var n := |hs| - 1;
      var prev := WriteBack(bufs, hs[..n], outs[..n]);
      match outs[n]
      case None => prev
      case Some(meta) => SetBuf(prev, hs[n], BufOf(prev, hs[n]).(meta := meta))
  }

  function Rewrite(w: World, kind: Kind, b: Buf): Buf {
    match kind
    case Translate => b.(hdr := Rewritten(w.cfg, b.meta, b.hdr))
    case Ether => b.(hdr := b.hdr.(dstMac := if b.meta.dir.Forward? then b.meta.backendMac else b.meta.clientMac))
    case ArpReply => if b.arpForUs then b.(hdr := b.hdr.(dstMac := b.hdr.srcMac)) else b
    case _ => b
  }

  // Nodes that only touch the headers leave the metadata alone.
  function RewriteAll(w: World, kind: Kind, bufs: seq<Buf>, hs: seq<nat>): (res: seq<Buf>)
    ensures |res| == |bufs| && forall i: nat | i < |bufs| :: res[i].meta == bufs[i].meta
  {
    if hs == [] then bufs
    else
      var prev, h := RewriteAll(w, kind, bufs, hs[..|hs| - 1]), hs[|hs| - 1];
      SetBuf(prev, h, Rewrite(w, kind, BufOf(prev, h)))
  }

  // What the balancer makes of a frame; without a valid state it passes nothing on.
  predicate Balancing(w: World) {
    LbShaped(w.lb) && (w.pool.Some? ==> Fits(w.pool.value))
  }

  function FrameOf(w: World, hs: seq<nat>): (evs: seq<Event>)
    requires Balancing(w)
    ensures |evs| == |hs| && AllSound(evs)
  {
    FrameEvents(MetasOf(w.bufs, hs), w.pool, w.now)
  }

  function Verdicts(w: World, hs: seq<nat>): (outs: seq<Option<PacketMeta>>)
    requires Balancing(w)
    ensures |outs| == |hs|
  {
    var evs := FrameOf(w, hs);
    seq(|hs|, k requires 0 <= k < |hs| => Verdict(w.e, w.lb, evs, k))
  }

  // Where one packet of the frame goes.
  function DestOf(kind: Kind, w: World, hs: seq<nat>, i: nat): (ds: seq<nat>)
    requires i < |hs|
    ensures |ds| <= 1 && forall j: nat | j < |ds| :: ds[j] < Outs(kind)
  {
    var b := BufOf(w.bufs, hs[i]);
    match kind
    case Receive => [0]
    case Parse => [OutOf(w.cfg, b.hdr)]
    case Balance => [if Balancing(w) && Verdicts(w, hs)[i].Some? then 0 else 1]
    case Translate => [0]
    case Ether => [0]
    case ArpReply => [if b.arpForUs then 0 else 1]
    case Steer => if Classify(w.cfg, b.hdr).NextArp? then [0] else []
    case Sink => []
  }

  function DestsOf(kind: Kind, w: World, hs: seq<nat>): (dests: seq<seq<nat>>)
    ensures |dests| == |hs| && forall i: nat | i < |hs| :: dests[i] == DestOf(kind, w, hs, i)
  {
    seq(|hs|, i requires 0 <= i < |hs| => DestOf(kind, w, hs, i))
  }

  // At most a burst is received.
  function Burst(w: World): (hs: seq<nat>)
    ensures |hs| <= BURST
  {
    if |w.incoming| <= BURST then w.incoming else w.incoming[..BURST]
  }

  function WorldAfter(kind: Kind, w: World, hs: seq<nat>): World {
    match kind
    case Receive => w.(incoming := w.incoming[|Burst(w)|..])
    case Parse => w.(bufs := ParseAll(w.cfg, w.bufs, hs))
    case Balance =>
      if Balancing(w) then w.(lb := After(w.e, w.lb, FrameOf(w, hs)), bufs := WriteBack(w.bufs, hs, Verdicts(w, hs)))
      else w
    case _ => w.(bufs := RewriteAll(w, kind, w.bufs, hs))
  }

  function Act(kind: Kind, w: World, hs: seq<nat>): Emission<World> {
    if kind.Receive? then Emission(WorldAfter(kind, w, hs), Some(Burst(w)), DestsOf(kind, w, Burst(w)))
    else Emission(WorldAfter(kind, w, hs), None, DestsOf(kind, w, hs))
  }

  function BehaviourOf(kinds: seq<Kind>): Behaviour<World> {
    (n: nat, w: World, hs: seq<nat>) => if n < |kinds| then Act(kinds[n], w, hs) else Act(Sink, w, hs)
  }

  // ---- what the dispatcher asks of nodes ----

  // The kinds match the fan-outs, and only the root receives.
  predicate Manned(kinds: seq<Kind>, r: Routing) {
    && |kinds| == |r| > 0
    && forall n: nat | n < |r| :: |r[n]| == Outs(kinds[n]) && (kinds[n].Receive? <==> n == 0)
  }

  lemma {:induction false} OutCountAtMost(dests: seq<seq<nat>>, o: nat)
    requires AtMostOnce(dests)
    ensures OutCount(dests, o) <= |dests|
  {
    if dests != [] {
      OutCountAtMost(dests[..|dests| - 1], o);
      var d := dests[|dests| - 1];
      assert d == [] || d == [d[0]];
    }
  }

  lemma ActFits(kinds: seq<Kind>, r: Routing, n: nat, w: World, hs: seq<nat>)
    requires Manned(kinds, r) && n < |r| && |hs| <= BURST
    ensures var em := BehaviourOf(kinds)(n, w, hs);
      && Fitting(r, n, |hs|, em) && AtMostOnce(em.dests) && (n != 0 ==> em.loaded.None?)
  {
    var em := BehaviourOf(kinds)(n, w, hs);
    forall o: nat | o < |r[n]| ensures OutCount(em.dests, o) <= BURST {
      OutCountAtMost(em.dests, o);
    }
  }

  function CastOf(kinds: seq<Kind>, plan: Plan, w: World, seeds: seq<nat>): Cast<World> {
    Cast(plan, BehaviourOf(kinds), 0, w, seeds)
  }

  // The nodes meet every condition the theorems about runs put on them.
  lemma NodesQualify(kinds: seq<Kind>, plan: Plan, w: World, seeds: seq<nat>)
    requires Manned(kinds, plan.routing)
    ensures var c := CastOf(kinds, plan, w, seeds);
      Legal(plan.routing, c.behave) && Single(c) && RootOnly(c)
  {
    var c := CastOf(kinds, plan, w, seeds);
    forall n: nat, v: World, hs: seq<nat> | n < |plan.routing| && |hs| <= BURST
      ensures Fitting(plan.routing, n, |hs|, c.behave(n, v, hs)) && AtMostOnce(c.behave(n, v, hs).dests)
      ensures n != 0 ==> c.behave(n, v, hs).loaded.None?
    {
      ActFits(kinds, plan.routing, n, v, hs);
    }
  }

  // ---- the four graphs ----

  const MONOLITHIC_KINDS: seq<Kind> := [Receive, Parse, Balance, Translate, Ether, Sink, Sink, ArpReply]
  const RECEIVE_KINDS: seq<Kind> := [Receive, Steer, ArpReply, Sink, Sink]
  const WORKER_KINDS: seq<Kind> := [Receive, Parse, Balance, Translate, Ether, Sink, Sink]
  const TRANSMIT_KINDS: seq<Kind> := [Receive, Sink]

  lemma FourManned()
    ensures Manned(MONOLITHIC_KINDS, RoutingOf(MONOLITHIC)) && Manned(RECEIVE_KINDS, RoutingOf(RECEIVE))
    ensures Manned(WORKER_KINDS, RoutingOf(WORKER)) && Manned(TRANSMIT_KINDS, RoutingOf(TRANSMIT))
  {
  }

  // One run of such a graph, from any world: every packet received ends up exactly once at a node
  // that sends, queues or frees it, none is lost, and packets that came the same way keep their order.
  lemma GraphRuns(kinds: seq<Kind>, targets: seq<seq<nat>>, rank: seq<nat>, top: nat, w: World, d: Store)
    requires SoundWiring(targets, rank) && Topped(rank, top) && Manned(kinds, RoutingOf(targets))
    requires StoreInv(d) && |d.pending| == |targets| && d.drain == []
    ensures var c := CastOf(kinds, Plan(RoutingOf(targets), rank, top), w, []);
      && Starts(c, d)
      && var (s, m) := RunOf(c, d);
         && Finished(c, s) && m.lost == []
         && (forall h: nat :: Count(m.kept, h) == Count(Fresh(Burst(w), 0), h))
         && (forall n: nat | n < |m.arrived| :: Ordered(m.arrived[n]))
  {
    var plan := Plan(RoutingOf(targets), rank, top);
    var c := CastOf(kinds, plan, w, []);
    NodesQualify(kinds, plan, w, []);
    SoundIsProper(targets, rank, top, c.behave, w, []);
    SoundGraphRuns(c, d);
    RootHandsBurst(kinds, plan, w);
  }

  lemma RootHandsBurst(kinds: seq<Kind>, plan: Plan, w: World)
    requires kinds != [] && kinds[0] == Receive
    ensures var c := CastOf(kinds, plan, w, []); HandedOn(c) == Fresh(Burst(w), 0) && Overwritten(c) == []
  {
    assert Fresh([], 0) == [];
  }
}
