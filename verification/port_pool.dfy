// Per-backend free lists of source ports, partitioned among the workers by port % n.
module PortPools {
  import opened Net

  const EPHEMERAL_LOW: Port := 1024
  const EPHEMERAL_HIGH: Port := 65535

  // The ports of one worker from top down to low, in the order they are pushed.
  function PortsDown(worker: nat, workers: nat, low: Port, top: Port): (ports: seq<Port>)
    requires 0 < workers && 0 < low
    decreases top
  {
    if top < low then []
    else (if Owns(worker, workers, top) then [top] else []) + PortsDown(worker, workers, low, top - 1)
  }

  predicate Owns(worker: nat, workers: nat, port: Port)
    requires 0 < workers
  {
    port % workers == worker
  }

  function WorkerPorts(worker: nat, workers: nat): seq<Port>
    requires 0 < workers
  {
    PortsDown(worker, workers, EPHEMERAL_LOW, EPHEMERAL_HIGH)
  }

  // Each port of the range lands once in the list of the worker it is congruent to, and nowhere else.
  lemma {:induction false} PortsDownExact(worker: nat, workers: nat, low: Port, top: Port, p: Port)
    requires 0 < workers && 0 < low
    ensures multiset(PortsDown(worker, workers, low, top))[p]
         == if low <= p <= top && Owns(worker, workers, p) then 1 else 0
    decreases top
  {
    if top < low {
      assert PortsDown(worker, workers, low, top) == [];
    } else {
      PortsDownExact(worker, workers, low, top - 1, p);
      OnePortMore(worker, workers, top, PortsDown(worker, workers, low, top - 1), p);
    }
  }

  lemma OnePortMore(worker: nat, workers: nat, top: Port, rest: seq<Port>, p: Port)
    requires 0 < workers
    ensures multiset((if Owns(worker, workers, top) then [top] else []) + rest)[p]
         == multiset(rest)[p] + if p == top && Owns(worker, workers, p) then 1 else 0
  {
    if !Owns(worker, workers, top) {
      assert [] + rest == rest;
    }
  }

  class PortPool {
    var free: seq<Port>

    // The loop counts an unsigned variable down past low, so it ends only for a positive low.
    constructor (low: Port, high: Port)
      requires 0 < low <= high + 1
      ensures free == PortsDown(0, 1, low, high)
    {
      free := [];
      new;
      var port: int := high;
      while port >= low
        invariant 0 <= port
        invariant free + PortsDown(0, 1, low, port) == PortsDown(0, 1, low, high)
      {
        free := free + [port];
        port := port - 1;
      }
    }

    constructor ForWorker(worker: nat, workers: nat, low: Port, high: Port)
      requires 0 < workers && 0 < low <= high + 1
      ensures free == PortsDown(worker, workers, low, high)
    {
      free := [];
      new;
      var port: int := high;
      while port >= low
        invariant 0 <= port
        invariant free + PortsDown(worker, workers, low, port) == PortsDown(worker, workers, low, high)
      {
        if port % workers == worker {
          free := free + [port];
        }
        port := port - 1;
      }
    }

    // Zero means exhausted; no pool built above ever holds port zero.
    method Acquire() returns (port: Port)
      modifies this
      ensures old(free) == [] ==> port == 0 && free == []
      ensures old(free) != [] ==> free + [port] == old(free)
    {
      if free == [] {
        return 0;
      }
      port := free[|free| - 1];
      free := free[..|free| - 1];
    }

    method Release(port: Port)
      modifies this
      ensures free == old(free) + [port]
    {
      free := free + [port];
    }
  }
}
