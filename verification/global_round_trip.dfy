// Full NAT across the distributor: steering brings a packet and its answer to the same worker, and
// the answer leaves as the reversal of the packet.
module GlobalRoundTrip {
  import opened Net
  import opened NatSpec
  import opened NatInsertion
  import opened PortPools
  import opened BackendPools
  import opened LbSpec
  import opened LbRuns
  import opened LbInvariants
  import opened LbHistory
  import opened LbTheorems
  import opened Headers
  import opened Distributor
  import opened RoundTrip

  // The events worker w has processed in a run.
  ghost function LogOf(d: Deployment, moves: seq<Move>, w: nat): (evs: seq<Event>)
    requires Equipped(d) && AllSoundMoves(moves) && w < d.workers
    ensures AllSound(evs)
  {
    RunSorted(d, moves);
    WorkerEntriesAtHome(d, RunMoves(d, moves), w);
    RunMoves(d, moves).logs[w]
  }

  ghost function FreshWorker(d: Deployment, w: nat): Lb
    requires Equipped(d)
  {
    Start(d.cap, WorkerPorts(w, d.workers))
  }

  // Packets were steered to the worker that processed them.
  lemma ProcessedWhereSteered(d: Deployment, moves: seq<Move>, w: nat, k: nat, pkt: Packet)
    requires Equipped(d) && AllSoundMoves(moves) && w < d.workers && k < |LogOf(d, moves, w)|
    requires Carries(d.cfg, LogOf(d, moves, w)[k], pkt)
    ensures Route(d, pkt) == SteerTo(w)
  {
    RunSorted(d, moves);
    assert BelongsTo(d, w, RunMoves(d, moves).logs[w][k]);
  }

  // A packet of a connection is sent on from a port of the worker's share.
  lemma SentFromShare(e: Env, cap: nat, init: seq<Port>, list: seq<Backend>, evs: seq<Event>, i: nat, j: nat)
    requires 0 < cap && GoodPorts(init) && DistinctBackends(list) && Deployed(evs, list) && i <= j < |evs|
    requires Opens(e, After(e, Start(cap, init), evs[..i]), evs[i]) && !HasFlag(evs[i].meta.tcpFlags, TCP_RST)
    requires SpareCell(e, After(e, Start(cap, init), evs[..i]).table, evs[i].now)
    requires j == i || (WithinLife(e, evs, FlowSeen(Verdict(e, Start(cap, init), evs, i).value), i, j)
      && evs[j].meta.dir.Forward?)
    ensures var sent := Verdict(e, Start(cap, init), evs, j);
      sent.Some? && sent.value.dir.Forward? && sent.value.snatPort in init
  {
    var f := Connection(e, cap, init, list, evs, i);
    if i < j {
      ForwardTranslated(e, cap, init, list, evs, i, j);
    }
  }

  // In every run of the distributor: event i of worker w opens a connection, event j carries a packet
  // p of it, and r answers p as sent on. Then steering sends p and r to w; whichever worker processes
  // r is w; and if it does so within the life of the connection, r leaves as the exact reversal of p.
  lemma DistributedRoundTrip(d: Deployment, moves: seq<Move>, list: seq<Backend>, w: nat, w': nat,
                             i: nat, j: nat, k: nat, p: Packet, r: Packet)
    requires Equipped(d) && AllSoundMoves(moves) && w < d.workers && w' < d.workers
    requires DistinctBackends(list) && Deployed(LogOf(d, moves, w), list)
    requires d.cfg.vip != d.cfg.selfIp || d.cfg.vipPort !in WorkerPorts(w, d.workers)
    requires i <= j < |LogOf(d, moves, w)| && k < |LogOf(d, moves, w')|
    requires var evs, start := LogOf(d, moves, w), FreshWorker(d, w);
      && Opens(d.e, After(d.e, start, evs[..i]), evs[i]) && !HasFlag(evs[i].meta.tcpFlags, TCP_RST)
      && SpareCell(d.e, After(d.e, start, evs[..i]).table, evs[i].now)
      && (j == i || WithinLife(d.e, evs, FlowSeen(Verdict(d.e, start, evs, i).value), i, j))
      && (var sent := Verdict(d.e, start, evs, j); sent.Some? ==> Answers(r, Rewritten(d.cfg, sent.value, p)))
    requires Classify(d.cfg, p).NextFwd? && Carries(d.cfg, LogOf(d, moves, w)[j], p)
    requires Carries(d.cfg, LogOf(d, moves, w')[k], r)
    ensures Route(d, p) == Route(d, r) == SteerTo(w) && w' == w
    ensures var evs, start := LogOf(d, moves, w), FreshWorker(d, w);
      j < k && WithinLife(d.e, evs, FlowSeen(Verdict(d.e, start, evs, i).value), i, k) ==>
        var back := Verdict(d.e, start, evs, k);
        back.Some? && TupleOfPacket(Rewritten(d.cfg, back.value, r)) == Reversal(TupleOfPacket(p))
  {
    var evs, start, init := LogOf(d, moves, w), FreshWorker(d, w), WorkerPorts(w, d.workers);
    WorkerPortsGood(w, d.workers);
    ProcessedWhereSteered(d, moves, w, j, p);
    ProcessedWhereSteered(d, moves, w', k, r);
    SentFromShare(d.e, d.cap, init, list, evs, i, j);
    var sent := Verdict(d.e, start, evs, j).value;
    AnswerParsed(d.cfg, p, sent, r);
    assert sent.snatPort % d.workers == w;
    if j < k && WithinLife(d.e, evs, FlowSeen(Verdict(d.e, start, evs, i).value), i, k) {
      FullNatRoundTrip(d.cfg, d.e, d.cap, init, list, evs, i, j, k, p, r);
    }
  }
}
