// The packet graph: nodes with numbered outputs, each wired to a node or left open.
module Graphs {
  import opened Net

  const MAX_FANOUT: nat := 8
  // Node numbers are 16 bits wide; the largest stands for "not wired".
  const NODE_NUMBERS: nat := 0x1_0000
  const INVALID_NODE: nat := 0xFFFF

  // routing[n][o] is the node output o of node n leads to, None while it is not wired.
  type Routing = seq<seq<Option<nat>>>

  predicate WellRouted(r: Routing) {
    forall n: nat, o: nat | n < |r| && o < |r[n]| && r[n][o].Some? :: r[n][o].value < |r|
  }

  // No node has more outputs than the dispatcher has scratch frames, and every node has a number.
  predicate Narrow(r: Routing) {
    |r| <= INVALID_NODE && forall n: nat | n < |r| :: |r[n]| <= MAX_FANOUT
  }

  predicate FullyWired(r: Routing) {
    forall n: nat, o: nat | n < |r| && o < |r[n]| :: r[n][o].Some?
  }

  // A rank that grows along every edge shows that the wiring has no cycle.
  predicate Ranked(r: Routing, rank: seq<nat>) {
    && |rank| == |r|
    && forall n: nat, o: nat | n < |r| && o < |r[n]| && r[n][o].Some? && r[n][o].value < |r| ::
      rank[n] < rank[r[n][o].value]
  }

  function TargetOf(dest: nat): Option<nat> {
    if dest == INVALID_NODE then None else Some(dest)
  }

  datatype Wiring = Wired | OutOfRange

  class Graph {
    var routing: Routing

    ghost predicate Valid()
      reads this
    {
      WellRouted(routing)
    }

    constructor ()
      ensures Valid() && routing == []
    {
      routing := [];
    }

    method AddNode(nextCount: nat) returns (id: nat)
      requires Valid()
      modifies this
      ensures Valid() && id == |old(routing)| % NODE_NUMBERS && routing == old(routing) + [seq(nextCount, _ => None)]
    {
      id := |routing| % NODE_NUMBERS;
      routing := routing + [seq(nextCount, _ => None)];
    }

    method Wire(from: nat, out: nat, dest: nat) returns (w: Wiring)
      requires Valid()
      modifies this
      ensures Valid()
      ensures w.Wired? <==> from < |old(routing)| && dest < |old(routing)| && out < |old(routing)[from]|
      ensures w.OutOfRange? ==> routing == old(routing)
      ensures w.Wired? ==> routing == old(routing)[from := old(routing)[from][out := TargetOf(dest)]]
    {
      if from >= |routing| || dest >= |routing| {
        return OutOfRange;
      }
      if out >= |routing[from]| {
        return OutOfRange;
      }
      routing := routing[from := routing[from][out := TargetOf(dest)]];
      return Wired;
    }
  }

  // ---- the four graphs of the dataplane ----

  // The node each output is wired to, node by node.
  // rx, parse, balance, dnat, ether, tx, drop, arp
  const MONOLITHIC: seq<seq<nat>> := [[1], [2, 2, 6, 7], [3, 6], [4], [5], [], [], [5, 6]]
  // rx, steer, arp, egress, drop
  const RECEIVE: seq<seq<nat>> := [[1], [2], [3, 4], [], []]
  // ring-rx, parse, balance, dnat, ether, egress, drop
  const WORKER: seq<seq<nat>> := [[1], [2, 2, 6, 6], [3, 6], [4], [5], [], []]
  // ring-rx, tx
  const TRANSMIT: seq<seq<nat>> := [[1], []]

  function Outputs(targets: seq<nat>): (outs: seq<Option<nat>>)
    ensures |outs| == |targets| && forall o: nat | o < |targets| :: outs[o] == Some(targets[o])
  {
    seq(|targets|, o requires 0 <= o < |targets| => Some(targets[o]))
  }

  function RoutingOf(targets: seq<seq<nat>>): (r: Routing)
    ensures |r| == |targets| && forall n: nat | n < |targets| :: r[n] == Outputs(targets[n])
  {
    seq(|targets|, n requires 0 <= n < |targets| => Outputs(targets[n]))
  }

  predicate Buildable(targets: seq<seq<nat>>) {
    && |targets| < INVALID_NODE
    && (forall n: nat | n < |targets| :: |targets[n]| <= MAX_FANOUT)
    && (forall n: nat, o: nat | n < |targets| && o < |targets[n]| :: targets[n][o] < |targets|)
  }

  method WireNode(g: Graph, n: nat, targets: seq<nat>)
    requires g.Valid() && n < |g.routing| <= INVALID_NODE && |g.routing[n]| == |targets|
    requires forall o: nat | o < |targets| :: targets[o] < |g.routing|
    modifies g
    ensures g.Valid() && g.routing == old(g.routing)[n := Outputs(targets)]
  {
    for o := 0 to |targets|
      invariant g.Valid() && |g.routing| == |old(g.routing)| && |g.routing[n]| == |targets|
      invariant g.routing == old(g.routing)[n := g.routing[n]]
      invariant forall k: nat | k < o :: g.routing[n][k] == Some(targets[k])
    {
      var w := g.Wire(n, o, targets[o]);
    }
    assert g.routing[n] == Outputs(targets);
  }

  // Adds the nodes and wires every output; no Wire call is out of range.
  method Build(targets: seq<seq<nat>>) returns (g: Graph, root: nat)
    requires Buildable(targets)
    ensures fresh(g) && g.Valid() && g.routing == RoutingOf(targets) && root == 0
  {
    g := new Graph();
    for n := 0 to |targets|
      invariant fresh(g) && g.Valid() && |g.routing| == n
      invariant forall k: nat | k < n :: |g.routing[k]| == |targets[k]|
    {
      var id := g.AddNode(|targets[n]|);
    }
    for n := 0 to |targets|
      invariant fresh(g) && g.Valid() && |g.routing| == |targets|
      invariant forall k: nat | k < |targets| :: |g.routing[k]| == |targets[k]|
      invariant forall k: nat | k < n :: g.routing[k] == Outputs(targets[k])
    {
      WireNode(g, n, targets[n]);
    }
    assert g.routing == RoutingOf(targets);
    root := 0;
  }

  const MONOLITHIC_RANK: seq<nat> := [0, 1, 2, 3, 4, 5, 5, 2]
  const RECEIVE_RANK: seq<nat> := [0, 1, 2, 3, 3]
  const WORKER_RANK: seq<nat> := [0, 1, 2, 3, 4, 5, 5]
  const TRANSMIT_RANK: seq<nat> := [0, 1]

  predicate SoundWiring(targets: seq<seq<nat>>, rank: seq<nat>) {
    var r := RoutingOf(targets);
    WellRouted(r) && Narrow(r) && FullyWired(r) && Ranked(r, rank)
  }

  // All four are acyclic and leave no output open, so no packet can be lost on an unwired output.
  lemma MonolithicSound()
    ensures Buildable(MONOLITHIC) && SoundWiring(MONOLITHIC, MONOLITHIC_RANK)
  {
  }

  lemma ReceiveSound()
    ensures Buildable(RECEIVE) && SoundWiring(RECEIVE, RECEIVE_RANK)
  {
  }

  lemma WorkerSound()
    ensures Buildable(WORKER) && SoundWiring(WORKER, WORKER_RANK)
  {
  }

  lemma TransmitSound()
    ensures Buildable(TRANSMIT) && SoundWiring(TRANSMIT, TRANSMIT_RANK)
  {
  }
}
