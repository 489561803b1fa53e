// The load-balancing node as the program runs it: one table object, one pool object per backend slot.
module LbNodes {
  import opened Net
  import opened NatSpec
  import opened NatTables
  import opened PortPools
  import opened BackendPools
  import opened LbSpec
  import opened LbRuns

  class LbNode {
    const nat_: NatTable
    const portPools: seq<PortPool>
    var newFlows: nat
    var activeFlows: nat
    var backendFlows: seq<nat>

    ghost predicate Valid()
      reads this, nat_, nat_.slots, nat_.rev, portPools
    {
      Separate() && LbShaped(View())
    }

    // One pool object per backend slot.
    ghost predicate Separate() {
      && |portPools| == MAX_BACKENDS
      && forall i, j | 0 <= i < j < |portPools| :: portPools[i] != portPools[j]
    }

    ghost function View(): Lb
      reads this, nat_, nat_.slots, nat_.rev, portPools
    {
      Lb(nat_.View(), FreeLists(), newFlows, backendFlows)
    }

    ghost function FreeLists(): (lists: seq<seq<Port>>)
      reads portPools
      ensures |lists| == |portPools|
      ensures forall i | 0 <= i < |portPools| :: lists[i] == portPools[i].free
    {
      seq(|portPools|, i requires 0 <= i < |portPools| reads portPools => portPools[i].free)
    }

    static method FreshPools(worker: nat, workers: nat) returns (pools: seq<PortPool>)
      requires 0 < workers
      ensures |pools| == MAX_BACKENDS && fresh(pools)
      ensures forall j, k | 0 <= j < k < |pools| :: pools[j] != pools[k]
      ensures forall k | 0 <= k < |pools| :: pools[k].free == WorkerPorts(worker, workers)
    {
      pools := [];
      for i := 0 to MAX_BACKENDS
        invariant |pools| == i && fresh(pools)
        invariant forall j, k | 0 <= j < k < i :: pools[j] != pools[k]
        invariant forall k | 0 <= k < i :: pools[k].free == WorkerPorts(worker, workers)
      {
        var pool := new PortPool.ForWorker(worker, workers, EPHEMERAL_LOW, EPHEMERAL_HIGH);
        pools := pools + [pool];
      }
    }

    constructor (e: Env, capacity: nat, worker: nat, workers: nat)
      requires 0 < capacity && 0 < workers
      ensures Valid() && View() == Start(capacity, WorkerPorts(worker, workers)) && nat_.e == e
      ensures fresh(nat_) && fresh(nat_.slots) && fresh(nat_.rev) && fresh(portPools)
    {
      nat_ := new NatTable(e, capacity);
      var pools := FreshPools(worker, workers);
      portPools := pools;
      newFlows, activeFlows := 0, 0;
      backendFlows := seq(MAX_BACKENDS, _ => 0);
      new;
      assert FreeLists() == Start(capacity, WorkerPorts(worker, workers)).pools;
    }

    method ReleasePort(b: nat, port: Port)
      requires Separate() && (port != 0 ==> b < |portPools|)
      modifies portPools
      ensures FreeLists() == Release(old(FreeLists()), b, port)
    {
      if port != 0 {
        portPools[b].Release(port);
      }
    }

    method AcquirePort(b: nat) returns (port: Port)
      requires Separate() && b < |portPools|
      modifies portPools
      ensures var free := old(FreeLists())[b];
        && port == (if free == [] then 0 else free[|free| - 1])
        && FreeLists() == (if free == [] then old(FreeLists()) else old(FreeLists())[b := free[..|free| - 1]])
    {
      port := portPools[b].Acquire();
    }

    // Records a FIN and says whether the flow is to be closed.
    method NoteFinAt(s: nat, dir: Direction, flags: nat) returns (close: bool)
      requires s < nat_.slots.Length
      modifies nat_.slots
      ensures var f := old(nat_.slots[s]);
        && nat_.slots[..] == old(nat_.slots[..])[s := NoteFin(f, dir, flags)]
        && close == Closes(f, dir, flags)
    {
      close := HasFlag(flags, TCP_RST);
      if HasFlag(flags, TCP_FIN) {
        if dir.Forward? {
          nat_.slots[s] := nat_.slots[s].(finForward := true);
        } else {
          nat_.slots[s] := nat_.slots[s].(finReverse := true);
        }
        close := close || (nat_.slots[s].finForward && nat_.slots[s].finReverse);
      }
    }

    method MaybeTeardown(s: nat, dir: Direction, flags: nat)
      requires Valid() && s < nat_.slots.Length
      modifies nat_, nat_.slots, portPools
      ensures Valid() && View() == LbSpec.MaybeTeardown(old(View()), s, dir, flags)
    {
      var close := NoteFinAt(s, dir, flags);
      assert FreeLists() == old(FreeLists());
      if close {
        var releasedPort, backendIdx := nat_.Close(s);
        assert FreeLists() == old(FreeLists());
        ReleasePort(backendIdx, releasedPort);
      }
    }

    method InsertAndEvict(flow: NatFlow, now: Millis) returns (slot: Option<nat>)
      requires Valid()
      modifies nat_, nat_.slots, nat_.rev, portPools
      ensures var ins := Insert(nat_.e, old(nat_.View()), flow, now);
        && (ins.evictedPort != 0 ==> ins.evictedIdx < |portPools|)
        && nat_.View() == ins.table && slot == ins.slot
        && FreeLists() == Release(old(FreeLists()), ins.evictedIdx, ins.evictedPort)
    {
      var evictedPort, evictedIdx;
      slot, evictedPort, evictedIdx := nat_.Insert(flow, now);
      assert FreeLists() == old(FreeLists());
      ReleasePort(evictedIdx, evictedPort);
    }

    method Admit(flow: NatFlow, now: Millis) returns (slot: Option<nat>)
      requires Valid() && flow.backendIdx < MAX_BACKENDS && flow.snatPort != 0
      modifies this, nat_, nat_.slots, nat_.rev, portPools
      ensures Valid() && Outcome(View(), slot) == LbSpec.Admit(nat_.e, old(View()), flow, now)
      ensures activeFlows == old(activeFlows)
    {
      ghost var r := LbSpec.Admit(nat_.e, View(), flow, now);
      slot := InsertAndEvict(flow, now);
      if slot.None? {
        ReleasePort(flow.backendIdx, flow.snatPort);
      } else {
        newFlows := newFlows + 1;
        backendFlows := backendFlows[flow.backendIdx := backendFlows[flow.backendIdx] + 1];
      }
      assert View() == r.st;
    }

    method CreateFlow(meta: PacketMeta, pool: Pool, now: Millis) returns (slot: Option<nat>)
      requires Valid() && Fits(pool) && pool.active != []
      modifies this, nat_, nat_.slots, nat_.rev, portPools
      ensures Valid() && Outcome(View(), slot) == LbSpec.CreateFlow(nat_.e, old(View()), meta, pool, now)
      ensures activeFlows == old(activeFlows)
    {
      var b := Select(nat_.e.hash, pool, KeyOf(meta));
      ghost var st := View();
      var snatPort := AcquirePort(b);
      assert View() == if st.pools[b] == [] then st else TakePort(st, b);
      if snatPort == 0 {
        return None;
      }
      slot := Admit(NewFlow(meta, pool, b, snatPort), now);
    }

    method HandlePacket(meta: PacketMeta, pool: Pool, now: Millis) returns (out: Option<PacketMeta>)
      requires Valid() && Fits(pool) && pool.active != []
      modifies this, nat_, nat_.slots, nat_.rev, portPools
      ensures Valid() && Outcome(View(), out) == LbSpec.HandlePacket(nat_.e, old(View()), meta, pool, now)
      ensures activeFlows == old(activeFlows)
    {
      if meta.dir.Forward? {
        LookupShaped(nat_.e, View(), ByKey(KeyOf(meta)), now);
        var slot := nat_.LookupForward(KeyOf(meta), now);
        assert FreeLists() == old(FreeLists());
        if slot.None? {
          if meta.proto == PROTO_TCP && !HasFlag(meta.tcpFlags, TCP_SYN) {
            return None;
          }
          slot := CreateFlow(meta, pool, now);
          if slot.None? {
            return None;
          }
        }
        out := Some(TranslateForward(meta, nat_.slots[slot.value]));
        MaybeTeardown(slot.value, Forward, meta.tcpFlags);
      } else {
        LookupShaped(nat_.e, View(), ByTuple(ReplyTuple(meta)), now);
        var slot := nat_.LookupReverse(ReplyTuple(meta), now);
        assert FreeLists() == old(FreeLists());
        if slot.None? {
          return None;
        }
        out := Some(TranslateReverse(meta, nat_.slots[slot.value]));
        MaybeTeardown(slot.value, Reverse, meta.tcpFlags);
      }
    }

    method ProcessBurst(metas: seq<PacketMeta>, pool: Pool, now: Millis) returns (outs: seq<Option<PacketMeta>>)
      requires Valid() && Fits(pool) && pool.active != []
      modifies this, nat_, nat_.slots, nat_.rev, portPools
      ensures Valid() && |outs| == |metas| && activeFlows == old(activeFlows)
      ensures var evs := FrameEvents(metas, Some(pool), now);
        && View() == After(nat_.e, old(View()), evs)
        && forall k | 0 <= k < |metas| :: outs[k] == Verdict(nat_.e, old(View()), evs, k)
    {
      ghost var st0 := View();
      ghost var evs := FrameEvents(metas, Some(pool), now);
      outs := [];
      for k := 0 to |metas|
        invariant Valid() && |outs| == k && activeFlows == old(activeFlows)
        invariant View() == After(nat_.e, st0, evs[..k])
        invariant forall j | 0 <= j < k :: outs[j] == Verdict(nat_.e, st0, evs, j)
      {
        assert evs[..k + 1][..k] == evs[..k];
        var out := HandlePacket(metas[k], pool, now);
        assert Outcome(View(), out) == Step(nat_.e, After(nat_.e, st0, evs[..k]), evs[k]);
        outs := outs + [out];
      }
      assert evs[..|metas|] == evs;
    }

    // One frame, under one pool and one clock reading; each packet leaves translated or is dropped.
    method Process(metas: seq<PacketMeta>, pool: Option<Pool>, now: Millis) returns (outs: seq<Option<PacketMeta>>)
      requires Valid() && (pool.Some? ==> Fits(pool.value))
      modifies this, nat_, nat_.slots, nat_.rev, portPools
      ensures Valid() && |outs| == |metas|
      ensures var evs := FrameEvents(metas, pool, now);
        && View() == After(nat_.e, old(View()), evs)
        && forall k | 0 <= k < |metas| :: outs[k] == Verdict(nat_.e, old(View()), evs, k)
      ensures activeFlows == if pool.Some? && pool.value.active != [] then nat_.size else old(activeFlows)
    {
      if pool.None? || pool.value.active == [] {
        outs := seq(|metas|, _ => None);
        IdleFrame(nat_.e, View(), FrameEvents(metas, pool, now));
        return;
      }
      outs := ProcessBurst(metas, pool.value, now);
      activeFlows := nat_.size;
    }
  }
}
