// The steering node: every packet of a frame goes to ARP, to its worker's ring, or is freed.
module SteerNodes {
  import opened Net
  import opened Headers

  datatype Steered = Steered(rings: seq<seq<Packet>>, arp: seq<Packet>, freed: seq<Packet>, dropped: nat)

  datatype Setup = Setup(cfg: Config, hash: Hasher, workers: nat, ringRoom: nat)

  predicate Fitting(u: Setup, st: Steered) {
    0 < u.workers == |st.rings|
  }

  function SteeringOf(u: Setup, pkt: Packet): Steering
    requires 0 < u.workers
  {
    ClassifyForSteer(u.cfg, u.hash, pkt, u.workers)
  }

  function SteerOne(u: Setup, st: Steered, pkt: Packet): (st': Steered)
    requires Fitting(u, st)
    ensures Fitting(u, st')
  {
    match SteeringOf(u, pkt)
    case SteerArp => st.(arp := st.arp + [pkt])
    case SteerDrop => st.(freed := st.freed + [pkt])
    case SteerTo(w) =>
      if |st.rings[w]| < u.ringRoom then st.(rings := st.rings[w := st.rings[w] + [pkt]])
      else st.(freed := st.freed + [pkt], dropped := st.dropped + 1)
  }

  function SteerAll(u: Setup, st: Steered, pkts: seq<Packet>): (st': Steered)
    requires Fitting(u, st)
    ensures Fitting(u, st')
  {
    if pkts == [] then st else SteerOne(u, SteerAll(u, st, pkts[..|pkts| - 1]), pkts[|pkts| - 1])
  }

  // ---- what becomes of the packets ----

  function RoutedTo(u: Setup, pkts: seq<Packet>, w: nat): seq<Packet>
    requires 0 < u.workers
  {
    if pkts == [] then []
    else
      RoutedTo(u, pkts[..|pkts| - 1], w)
      + if SteeringOf(u, pkts[|pkts| - 1]) == SteerTo(w) then [pkts[|pkts| - 1]] else []
  }

  function Upto(s: seq<Packet>, n: nat): seq<Packet> {
    if |s| <= n then s else s[..n]
  }

  // A ring receives, in order, the packets steered to it, as many as it has room for.
  lemma {:induction false} RingReceives(u: Setup, st: Steered, pkts: seq<Packet>, w: nat)
    requires Fitting(u, st) && w < u.workers && |st.rings[w]| <= u.ringRoom
    ensures SteerAll(u, st, pkts).rings[w] == Upto(st.rings[w] + RoutedTo(u, pkts, w), u.ringRoom)
  {
    if pkts == [] {
      assert st.rings[w] + [] == st.rings[w];
    } else {
      var prefix, pkt := pkts[..|pkts| - 1], pkts[|pkts| - 1];
      RingReceives(u, st, prefix, w);
      var before := st.rings[w] + RoutedTo(u, prefix, w);
      if SteeringOf(u, pkt) == SteerTo(w) {
        assert st.rings[w] + RoutedTo(u, pkts, w) == before + [pkt];
      }
    }
  }

  function Occurs(s: seq<Packet>, p: Packet): nat {
    multiset(s)[p]
  }

  function OccursInRings(rings: seq<seq<Packet>>, p: Packet): nat {
    if rings == [] then 0 else OccursInRings(rings[..|rings| - 1], p) + Occurs(rings[|rings| - 1], p)
  }

  lemma {:induction false} RingPush(rings: seq<seq<Packet>>, w: nat, pkt: Packet, p: Packet)
    requires w < |rings|
    ensures OccursInRings(rings[w := rings[w] + [pkt]], p) == OccursInRings(rings, p) + if pkt == p then 1 else 0
  {
    var n := |rings| - 1;
    if w == n {
      assert rings[w := rings[w] + [pkt]][..n] == rings[..n];
    } else {
      assert rings[w := rings[w] + [pkt]][..n] == rings[..n][w := rings[w] + [pkt]];
      RingPush(rings[..n], w, pkt, p);
    }
  }

  function Whereabouts(st: Steered, p: Packet): nat {
    OccursInRings(st.rings, p) + Occurs(st.arp, p) + Occurs(st.freed, p)
  }

  // Every packet of the frame ends up in exactly one place, full rings included.
  lemma {:induction false} SteerConserves(u: Setup, st: Steered, pkts: seq<Packet>, p: Packet)
    requires Fitting(u, st)
    ensures Whereabouts(SteerAll(u, st, pkts), p) == Whereabouts(st, p) + Occurs(pkts, p)
  {
    if pkts != [] {
      var prefix, pkt := pkts[..|pkts| - 1], pkts[|pkts| - 1];
      assert pkts == prefix + [pkt];
      SteerConserves(u, st, prefix, p);
      var mid := SteerAll(u, st, prefix);
      var r := SteeringOf(u, pkt);
      if r.SteerTo? {
        RingPush(mid.rings, r.worker, pkt, p);
      }
    }
  }

  class SteerNode {
    const u: Setup
    var rings: seq<seq<Packet>>
    var freed: seq<Packet>
    var dropped: nat

    ghost predicate Valid()
      reads this
    {
      0 < u.workers == |rings|
    }

    ghost function View(arp: seq<Packet>): Steered
      reads this
    {
      Steered(rings, arp, freed, dropped)
    }

    constructor (u: Setup)
      requires 0 < u.workers
      ensures Valid() && this.u == u && View([]) == Steered(seq(u.workers, _ => []), [], [], 0)
    {
      this.u := u;
      rings := seq(u.workers, _ => []);
      freed, dropped := [], 0;
    }

    method Process(frame: seq<Packet>) returns (arp: seq<Packet>)
      requires Valid()
      modifies this
      ensures Valid() && View(arp) == SteerAll(u, old(View([])), frame)
    {
      arp := [];
      for i := 0 to |frame|
        invariant Valid() && View(arp) == SteerAll(u, old(View([])), frame[..i])
      {
        assert frame[..i + 1][..i] == frame[..i];
        var pkt := frame[i];
        match ClassifyForSteer(u.cfg, u.hash, pkt, u.workers)
        case SteerArp =>
          arp := arp + [pkt];
        case SteerTo(w) =>
          if |rings[w]| < u.ringRoom {
            rings := rings[w := rings[w] + [pkt]];
          } else {
            freed := freed + [pkt];
            dropped := dropped + 1;
          }
        case SteerDrop =>
          freed := freed + [pkt];
      }
      assert frame[..|frame|] == frame;
    }
  }
}
