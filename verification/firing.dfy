// What the graph does to packets, frames aside: a node takes a frame's packets and moves each of
// them to some of its outputs.
module Firing {
  import opened Net
  import opened Graphs
  import opened Frames

  // What a node does with a frame: it may first overwrite the frame with packets of its own (a
  // receive node), then walks the frame in order and moves packet i to the outputs dests[i].
  datatype Emission<W> = Emission(world: W, loaded: Option<seq<nat>>, dests: seq<seq<nat>>)

  // Nodes may keep state and depend on anything outside the graph; both are in the world.
  type Behaviour<!W> = (nat, W, seq<nat>) -> Emission<W>

  function Handles(f: seq<Token>): (hs: seq<nat>)
    ensures |hs| == |f| && forall i: nat | i < |f| :: hs[i] == f[i].handle
  {
    seq(|f|, i requires 0 <= i < |f| => f[i].handle)
  }

  function Fresh(hs: seq<nat>, serial: nat): (f: seq<Token>)
    ensures |f| == |hs| && forall i: nat | i < |hs| :: f[i] == Token(hs[i], serial + i, [])
  {
    seq(|hs|, i requires 0 <= i < |hs| => Token(hs[i], serial + i, []))
  }

  function Input<W>(f: seq<Token>, r: Emission<W>, serial: nat): seq<Token> {
    if r.loaded.Some? then Fresh(r.loaded.value, serial) else f
  }

  // ---- one output ----

  function Along(x: Token, e: Edge): Token {
    x.(trail := x.trail + [e])
  }

  function Copies(x: Token, ds: seq<nat>, e: Edge): seq<Token> {
    if ds == [] then []
    else Copies(x, ds[..|ds| - 1], e) + if ds[|ds| - 1] == e.out then [Along(x, e)] else []
  }

  // The packets moved to one output, in order.
  function Gather(f: seq<Token>, dests: seq<seq<nat>>, e: Edge): seq<Token>
    requires |dests| == |f|
  {
    if f == [] then []
    else Gather(f[..|f| - 1], dests[..|f| - 1], e) + Copies(f[|f| - 1], dests[|f| - 1], e)
  }

  // The packets moved nowhere: sent, queued on a ring, or freed by the node.
  function Kept(f: seq<Token>, dests: seq<seq<nat>>): seq<Token>
    requires |dests| == |f|
  {
    if f == [] then []
    else Kept(f[..|f| - 1], dests[..|f| - 1]) + if dests[|f| - 1] == [] then [f[|f| - 1]] else []
  }

  // ---- all outputs ----

  datatype Routed = Routed(boxes: seq<seq<Token>>, lost: seq<Token>)

  function DeliverOne(prev: Routed, xs: seq<Token>, target: Option<nat>): (res: Routed)
    requires target.Some? ==> target.value < |prev.boxes|
    ensures |res.boxes| == |prev.boxes|
  {
    match target
    case None => prev.(lost := prev.lost + xs)
    case Some(t) => prev.(boxes := prev.boxes[t := prev.boxes[t] + xs])
  }

  // The first k outputs of node n delivered; an unwired output loses its packets.
  function Deliveries(r: Routing, boxes: seq<seq<Token>>, f: seq<Token>, dests: seq<seq<nat>>, n: nat,
                      k: nat): (res: Routed)
    requires WellRouted(r) && |boxes| == |r| && n < |r| && k <= |r[n]| && |dests| == |f|
    ensures |res.boxes| == |r|
  {
    if k == 0 then Routed(boxes, [])
    else
      DeliverOne(Deliveries(r, boxes, f, dests, n, k - 1), Gather(f, dests, Edge(n, k - 1)), r[n][k - 1])
  }

  lemma DeliveriesUnfold(r: Routing, boxes: seq<seq<Token>>, f: seq<Token>, dests: seq<seq<nat>>, n: nat, k: nat)
    requires WellRouted(r) && |boxes| == |r| && n < |r| && 0 < k <= |r[n]| && |dests| == |f|
    ensures Deliveries(r, boxes, f, dests, n, k)
         == DeliverOne(Deliveries(r, boxes, f, dests, n, k - 1), Gather(f, dests, Edge(n, k - 1)), r[n][k - 1])
  {
  }

  // Packets waiting at each node; packets taken out of a node and not processed yet; and the
  // history: what each node processed, what was kept by nodes, lost, and loaded.
  datatype Machine<W> = Machine(
    boxes: seq<seq<Token>>, rest: seq<Token>, world: W,
    arrived: seq<seq<Token>>, kept: seq<Token>, lost: seq<Token>, loaded: seq<Token>, serial: nat)

  // The emission fits the graph: outputs exist and no output frame overflows.
  predicate Fitting<W>(r: Routing, n: nat, size: nat, em: Emission<W>)
    requires n < |r|
  {
    && (em.loaded.Some? ==> |em.loaded.value| <= BURST)
    && |em.dests| == (if em.loaded.Some? then |em.loaded.value| else size)
    && (forall i: nat, j: nat | i < |em.dests| && j < |em.dests[i]| :: em.dests[i][j] < |r[n]|)
    && (forall o: nat | o < |r[n]| :: OutCount(em.dests, o) <= BURST)
  }

  // How many packets an output receives.
  function OutCount(dests: seq<seq<nat>>, o: nat): nat {
    if dests == [] then 0 else OutCount(dests[..|dests| - 1], o) + multiset(dests[|dests| - 1])[o]
  }

  ghost predicate Legal<W(!new)>(r: Routing, behave: Behaviour<W>) {
    forall n: nat, w: W, hs: seq<nat> | n < |r| && |hs| <= BURST :: Fitting(r, n, |hs|, behave(n, w, hs))
  }

  predicate MachineFits<W>(r: Routing, m: Machine<W>) {
    WellRouted(r) && |m.boxes| == |m.arrived| == |r|
  }

  // The machine after node n answered the first size packets of the rest with em.
  function FireWith<W>(r: Routing, m: Machine<W>, n: nat, size: nat, em: Emission<W>): (m': Machine<W>)
    requires MachineFits(r, m) && n < |r| && size <= |m.rest| && Fitting(r, n, size, em)
    ensures MachineFits(r, m')
  {
    var frame := m.rest[..size];
    var f := Input(frame, em, m.serial);
    var out := Deliveries(r, m.boxes, f, em.dests, n, |r[n]|);
    Machine(out.boxes, m.rest[size..], em.world,
            m.arrived[n := m.arrived[n] + f], m.kept + Kept(f, em.dests),
            m.lost + (if em.loaded.Some? then frame else []) + out.lost,
            m.loaded + (if em.loaded.Some? then f else []),
            if em.loaded.Some? then m.serial + |f| else m.serial)
  }

  // ---- sizes ----

  lemma {:induction false} CopiesCount(x: Token, ds: seq<nat>, e: Edge)
    ensures |Copies(x, ds, e)| == multiset(ds)[e.out]
  {
    if ds != [] {
      assert ds == ds[..|ds| - 1] + [ds[|ds| - 1]];
      CopiesCount(x, ds[..|ds| - 1], e);
    }
  }

  lemma {:induction false} GatherCount(f: seq<Token>, dests: seq<seq<nat>>, e: Edge)
    requires |dests| == |f|
    ensures |Gather(f, dests, e)| == OutCount(dests, e.out)
  {
    if f != [] {
      GatherCount(f[..|f| - 1], dests[..|f| - 1], e);
      CopiesCount(f[|f| - 1], dests[|f| - 1], e);
    }
  }
}
