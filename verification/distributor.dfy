// The shared-nothing distributor: one steering core, n workers, a ring to each.
module Distributor {
  import opened Net
  import opened NatSpec
  import opened BackendPools
  import opened PortPools
  import opened LbSpec
  import opened LbRuns
  import opened LbInvariants
  import opened LbHistory
  import opened LbTheorems
  import opened Headers

  datatype Deployment = Deployment(cfg: Config, e: Env, cap: nat, workers: nat)

  predicate Equipped(d: Deployment) {
    0 < d.cap && 0 < d.workers
  }

  // Packets waiting on each worker's ring, and the events each worker has processed so far.
  datatype System = System(rings: seq<seq<Packet>>, logs: seq<seq<Event>>)

  function Boot(d: Deployment): System {
    System(seq(d.workers, _ => []), seq(d.workers, _ => []))
  }

  datatype Move =
    | Arrive(pkt: Packet, roomInRing: bool)
    | Work(worker: nat, pool: Option<Pool>, now: Millis)

  function Route(d: Deployment, pkt: Packet): Steering
    requires Equipped(d)
  {
    ClassifyForSteer(d.cfg, d.e.hash, pkt, d.workers)
  }

  predicate Formed(d: Deployment, sys: System) {
    |sys.rings| == |sys.logs| == d.workers
  }

  // ---- what a worker makes of a burst ----

  const WORKER_BURST: nat := 64

  function BurstSize(ring: seq<Packet>): (n: nat)
    ensures n <= |ring|
  {
    if |ring| <= WORKER_BURST then |ring| else WORKER_BURST
  }

  // The packets of a burst that the parser sends to one output, in order.
  function PacketsFor(cfg: Config, pkts: seq<Packet>, next: Next): seq<Packet> {
    if pkts == [] then []
    else
      var p := pkts[|pkts| - 1];
      PacketsFor(cfg, pkts[..|pkts| - 1], next) + if Classify(cfg, p) == next then [p] else []
  }

  function EventsFor(cfg: Config, pkts: seq<Packet>, pool: Option<Pool>, now: Millis): (evs: seq<Event>)
    ensures |evs| == |pkts| && forall i: nat | i < |pkts| :: evs[i] == Event(MetaOf(cfg, pkts[i]), pool, now)
  {
    seq(|pkts|, i requires 0 <= i < |pkts| => Event(MetaOf(cfg, pkts[i]), pool, now))
  }

  // The balancer is given the forward packets of a burst before its replies.
  function BurstLog(cfg: Config, pkts: seq<Packet>, pool: Option<Pool>, now: Millis): seq<Event> {
    EventsFor(cfg, PacketsFor(cfg, pkts, NextFwd) + PacketsFor(cfg, pkts, NextRev), pool, now)
  }

  lemma {:induction false} SortedAre(cfg: Config, pkts: seq<Packet>, next: Next, p: Packet)
    requires p in PacketsFor(cfg, pkts, next)
    ensures p in pkts && Classify(cfg, p) == next
  {
    if p in PacketsFor(cfg, pkts[..|pkts| - 1], next) {
      SortedAre(cfg, pkts[..|pkts| - 1], next, p);
    }
  }

  // A packet is steered to a ring, or lost if the ring is full; a worker takes a burst of the oldest
  // packets of its own ring, under whatever pool and clock it sees.
  function Advance(d: Deployment, sys: System, m: Move): (sys': System)
    requires Equipped(d) && Formed(d, sys)
    ensures Formed(d, sys')
  {
    match m
    case Arrive(pkt, room) =>
      var r := Route(d, pkt);
      if r.SteerTo? && room then sys.(rings := sys.rings[r.worker := sys.rings[r.worker] + [pkt]]) else sys
    case Work(w, pool, now) =>
      if w >= d.workers then sys
      else
        var ring := sys.rings[w];
        var n := BurstSize(ring);
        System(sys.rings[w := ring[n..]], sys.logs[w := sys.logs[w] + BurstLog(d.cfg, ring[..n], pool, now)])
  }

  predicate SoundMove(m: Move) {
    m.Work? && m.pool.Some? ==> Fits(m.pool.value)
  }

  function RunMoves(d: Deployment, moves: seq<Move>): (sys: System)
    requires Equipped(d)
    ensures Formed(d, sys)
  {
    if moves == [] then Boot(d) else Advance(d, RunMoves(d, moves[..|moves| - 1]), moves[|moves| - 1])
  }

  // ---- what every move keeps ----

  // The event is one that steering sends to worker w.
  predicate BelongsTo(d: Deployment, w: nat, ev: Event)
    requires Equipped(d)
  {
    && Sound(ev)
    && (ev.meta.dir.Forward? ==>
          && ev.meta.dstIp == d.cfg.vip && ev.meta.dstPort == d.cfg.vipPort
          && SteerWorker(d.e.hash, KeyOf(ev.meta), d.workers) == w)
    && (ev.meta.dir.Reverse? ==> ev.meta.dstIp == d.cfg.selfIp && ev.meta.dstPort % d.workers == w)
  }

  ghost predicate RingsSorted(d: Deployment, sys: System)
    requires Equipped(d) && Formed(d, sys)
  {
    forall w: nat, k: nat | w < d.workers && k < |sys.rings[w]| :: Route(d, sys.rings[w][k]) == SteerTo(w)
  }

  ghost predicate LogsSorted(d: Deployment, sys: System)
    requires Equipped(d) && Formed(d, sys)
  {
    forall w: nat, k: nat | w < d.workers && k < |sys.logs[w]| :: BelongsTo(d, w, sys.logs[w][k])
  }

  lemma SteeredEventBelongs(d: Deployment, pkt: Packet, w: nat, pool: Option<Pool>, now: Millis)
    requires Equipped(d) && Route(d, pkt) == SteerTo(w) && (pool.Some? ==> Fits(pool.value))
    ensures BelongsTo(d, w, Event(MetaOf(d.cfg, pkt), pool, now))
    ensures Classify(d.cfg, pkt).NextFwd? || Classify(d.cfg, pkt).NextRev?
  {
  }

  lemma AdvanceKeepsRings(d: Deployment, sys: System, m: Move)
    requires Equipped(d) && Formed(d, sys) && RingsSorted(d, sys)
    ensures RingsSorted(d, Advance(d, sys, m))
  {
  }

  // Every event of a burst belongs to the worker its packets were steered to.
  lemma BurstBelongs(d: Deployment, w: nat, pkts: seq<Packet>, pool: Option<Pool>, now: Millis, k: nat)
    requires Equipped(d) && (pool.Some? ==> Fits(pool.value)) && k < |BurstLog(d.cfg, pkts, pool, now)|
    requires forall i: nat | i < |pkts| :: Route(d, pkts[i]) == SteerTo(w)
    ensures BelongsTo(d, w, BurstLog(d.cfg, pkts, pool, now)[k])
  {
    var all := PacketsFor(d.cfg, pkts, NextFwd) + PacketsFor(d.cfg, pkts, NextRev);
    var p := all[k];
    if p in PacketsFor(d.cfg, pkts, NextFwd) {
      SortedAre(d.cfg, pkts, NextFwd, p);
    } else {
      SortedAre(d.cfg, pkts, NextRev, p);
    }
    SteeredEventBelongs(d, p, w, pool, now);
  }

  lemma AdvanceKeepsLogs(d: Deployment, sys: System, m: Move)
    requires Equipped(d) && Formed(d, sys) && RingsSorted(d, sys) && LogsSorted(d, sys) && SoundMove(m)
    ensures LogsSorted(d, Advance(d, sys, m))
  {
    if m.Work? && m.worker < d.workers {
      var ring, log := sys.rings[m.worker], sys.logs[m.worker];
      var pkts := ring[..BurstSize(ring)];
      forall k: nat | k < |Advance(d, sys, m).logs[m.worker]|
        ensures BelongsTo(d, m.worker, Advance(d, sys, m).logs[m.worker][k])
      {
        if k >= |log| {
          BurstBelongs(d, m.worker, pkts, m.pool, m.now, k - |log|);
        } else {
          assert Advance(d, sys, m).logs[m.worker][k] == sys.logs[m.worker][k];
        }
      }
    }
  }

  ghost predicate AllSoundMoves(moves: seq<Move>) {
    forall k | 0 <= k < |moves| :: SoundMove(moves[k])
  }

  lemma {:induction false} RunSorted(d: Deployment, moves: seq<Move>)
    requires Equipped(d) && AllSoundMoves(moves)
    ensures RingsSorted(d, RunMoves(d, moves)) && LogsSorted(d, RunMoves(d, moves))
  {
    if moves != [] {
      var prefix := moves[..|moves| - 1];
      RunSorted(d, prefix);
      AdvanceKeepsRings(d, RunMoves(d, prefix), moves[|moves| - 1]);
      AdvanceKeepsLogs(d, RunMoves(d, prefix), moves[|moves| - 1]);
    }
  }

  // ---- the workers' tables ----

  ghost predicate LogSound(d: Deployment, sys: System, w: nat)
    requires Equipped(d) && Formed(d, sys) && w < d.workers
  {
    AllSound(sys.logs[w])
  }

  // Worker w is the load-balancing node with w's share of the ports, after w's events.
  ghost function WorkerState(d: Deployment, sys: System, w: nat): Lb
    requires Equipped(d) && Formed(d, sys) && w < d.workers && LogSound(d, sys, w)
  {
    After(d.e, Start(d.cap, WorkerPorts(w, d.workers)), sys.logs[w])
  }

  // The entry may live on worker w.
  predicate AtHome(d: Deployment, w: nat, f: NatFlow)
    requires Equipped(d)
  {
    && f.fwdKey.dstIp == d.cfg.vip && f.fwdKey.dstPort == d.cfg.vipPort
    && SteerWorker(d.e.hash, f.fwdKey, d.workers) == w
  }

  lemma WorkerEntriesAtHome(d: Deployment, sys: System, w: nat)
    requires Equipped(d) && Formed(d, sys) && w < d.workers && LogsSorted(d, sys)
    ensures LogSound(d, sys, w)
    ensures LbInv(d.e, WorkerState(d, sys, w), WorkerPorts(w, d.workers))
    ensures AllEntries(WorkerState(d, sys, w).table, f => AtHome(d, w, f))
  {
    var log := sys.logs[w];
    forall k | 0 <= k < |log| ensures Sound(log[k]) {
      assert BelongsTo(d, w, sys.logs[w][k]);
    }
    var ports := WorkerPorts(w, d.workers);
    WorkerPortsGood(w, d.workers);
    StartInv(d.e, d.cap, ports);
    RunKeeps(d.e, Start(d.cap, ports), log, ports);
    ghost var P := (f: NatFlow) => AtHome(d, w, f);
    forall k: nat, f: NatFlow | k < |log| && Born(d.e, log[k], f) ensures P(f) {
      assert BelongsTo(d, w, sys.logs[w][k]);
      assert KeyOf(log[k].meta) == f.fwdKey;
    }
    RunEntries(d.e, Start(d.cap, ports), log, ports, P);
  }

  lemma PortOfShare(w: nat, workers: nat, p: Port)
    requires 0 < workers && p in WorkerPorts(w, workers)
    ensures p % workers == w
  {
    PortsDownExact(w, workers, EPHEMERAL_LOW, EPHEMERAL_HIGH, p);
    assert p in multiset(WorkerPorts(w, workers));
  }

  // The packet would be looked up as flow f: by key on its way in, by tuple on its way back.
  predicate IsFor(d: Deployment, pkt: Packet, f: NatFlow) {
    || (Classify(d.cfg, pkt).NextFwd? && KeyOf(MetaOf(d.cfg, pkt)) == f.fwdKey)
    || (Classify(d.cfg, pkt).NextRev? && ReplyTuple(MetaOf(d.cfg, pkt)) == TupleOf(f))
  }

  lemma RouteOfFlow(d: Deployment, pkt: Packet, f: NatFlow, w: nat)
    requires Equipped(d) && AtHome(d, w, f) && f.snatPort % d.workers == w && IsFor(d, pkt, f)
    ensures Route(d, pkt) == SteerTo(w)
  {
  }

  // No cross-core miss: in every run of the distributor, every packet of an open flow, in either
  // direction, is steered to the worker that holds the flow.
  lemma NoCrossCoreMiss(d: Deployment, moves: seq<Move>, w: nat, s: nat, pkt: Packet)
    requires Equipped(d) && AllSoundMoves(moves) && w < d.workers && s < d.cap
    ensures var sys := RunMoves(d, moves);
      && LogSound(d, sys, w)
      && var t := WorkerState(d, sys, w).table;
         && |t.slots| == d.cap
         && (Open(t.slots[s]) && IsFor(d, pkt, t.slots[s]) ==> Route(d, pkt) == SteerTo(w))
  {
    var sys := RunMoves(d, moves);
    RunSorted(d, moves);
    WorkerOfEntry(d, sys, w, s);
    var f := WorkerState(d, sys, w).table.slots[s];
    if Open(f) && IsFor(d, pkt, f) {
      RouteOfFlow(d, pkt, f, w);
    }
  }

  lemma CapacityKept(e: Env, st: Lb, evs: seq<Event>, init: seq<Port>)
    requires AllSound(evs) && st == Start(|st.table.slots|, init) && 0 < |st.table.slots| && 0 !in init
    ensures |After(e, st, evs).table.slots| == |st.table.slots|
  {
    StartInv(e, |st.table.slots|, init);
    RunEntries(e, st, evs, init, f => true);
  }

  // The union of the tables is one table: an open entry's key, and a held port of a backend, belong
  // to one worker and one slot of it.
  lemma GloballyUnique(d: Deployment, moves: seq<Move>, w1: nat, w2: nat, s1: nat, s2: nat)
    requires Equipped(d) && AllSoundMoves(moves) && w1 < d.workers && w2 < d.workers && s1 < d.cap && s2 < d.cap
    ensures var sys := RunMoves(d, moves);
      && LogSound(d, sys, w1) && LogSound(d, sys, w2)
      && var t1, t2 := WorkerState(d, sys, w1).table, WorkerState(d, sys, w2).table;
         && |t1.slots| == d.cap && |t2.slots| == d.cap
         && var f, g := t1.slots[s1], t2.slots[s2];
            && (Open(f) && Open(g) && f.fwdKey == g.fwdKey ==> w1 == w2 && s1 == s2)
            && (f.occupied && g.occupied && f.snatPort == g.snatPort != 0 && f.backendIdx == g.backendIdx ==>
              w1 == w2 && s1 == s2)
  {
    var sys := RunMoves(d, moves);
    RunSorted(d, moves);
    WorkerOfEntry(d, sys, w1, s1);
    WorkerOfEntry(d, sys, w2, s2);
    if w1 == w2 {
      var st := WorkerState(d, sys, w1);
      var f, g := st.table.slots[s1], st.table.slots[s2];
      if f.occupied && g.occupied && f.snatPort == g.snatPort != 0 && f.backendIdx == g.backendIdx {
        WorkerPortsGood(w1, d.workers);
        HolderUnique(st, WorkerPorts(w1, d.workers), f.backendIdx, f.snatPort, s1, s2);
      }
    }
  }

  // Everything one entry says about its worker.
  lemma WorkerOfEntry(d: Deployment, sys: System, w: nat, s: nat)
    requires Equipped(d) && Formed(d, sys) && w < d.workers && LogsSorted(d, sys) && s < d.cap
    ensures LogSound(d, sys, w)
    ensures var st := WorkerState(d, sys, w);
      && LbInv(d.e, st, WorkerPorts(w, d.workers)) && |st.table.slots| == d.cap
      && var f := st.table.slots[s];
         && (f.occupied ==> AtHome(d, w, f))
         && (f.occupied && f.snatPort != 0 ==> f.snatPort % d.workers == w)
  {
    WorkerEntriesAtHome(d, sys, w);
    WorkerPortsGood(w, d.workers);
    var st := WorkerState(d, sys, w);
    CapacityKept(d.e, Start(d.cap, WorkerPorts(w, d.workers)), sys.logs[w], WorkerPorts(w, d.workers));
    var f := st.table.slots[s];
    if f.occupied {
      assert AtHome(d, w, f);
      if f.snatPort != 0 {
        HeldPortGiven(st, WorkerPorts(w, d.workers), s);
        PortOfShare(w, d.workers, f.snatPort);
      }
    }
  }
}
