// What the load-balancing node computes: connection table, port pools and counters, packet by packet.
module LbSpec {
  import opened Net
  import opened NatSpec
  import opened BackendPools

  datatype Direction = Forward | Reverse

  datatype PacketMeta = PacketMeta(
    srcIp: Ip, dstIp: Ip, srcPort: Port, dstPort: Port, proto: nat, dir: Direction,
    backendIp: Ip, backendMac: Mac, backendPort: Port, snatPort: Port,
    clientIp: Ip, clientMac: Mac, clientPort: Port, tcpFlags: nat)

  datatype Lb = Lb(table: Table, pools: seq<seq<Port>>, newFlows: nat, backendFlows: seq<nat>)

  predicate LbShaped(st: Lb) {
    && Shaped(st.table)
    && |st.pools| == MAX_BACKENDS == |st.backendFlows|
    && forall s: nat | s < |st.table.slots| && st.table.slots[s].occupied :: st.table.slots[s].backendIdx < MAX_BACKENDS
  }

  function Start(cap: nat, ports: seq<Port>): Lb {
    Lb(EmptyTable(cap), seq(MAX_BACKENDS, _ => ports), 0, seq(MAX_BACKENDS, _ => 0))
  }

  function KeyOf(meta: PacketMeta): FlowKey {
    FlowKey(meta.srcIp, meta.dstIp, meta.srcPort, meta.dstPort, meta.proto)
  }

  function ReplyTuple(meta: PacketMeta): RevTuple {
    RevTuple(meta.srcIp, meta.srcPort, meta.dstPort, meta.proto)
  }

  function Release(pools: seq<seq<Port>>, b: nat, port: Port): seq<seq<Port>>
    requires port != 0 ==> b < |pools|
  {
    if port != 0 then pools[b := pools[b] + [port]] else pools
  }

  function NewFlow(meta: PacketMeta, pool: Pool, b: nat, snatPort: Port): NatFlow
    requires b < |pool.slots|
  {
    NO_FLOW.(fwdKey := KeyOf(meta), clientMac := meta.clientMac,
             backendIp := pool.slots[b].ip, backendMac := pool.slots[b].mac,
             backendPort := pool.slots[b].port, snatPort := snatPort, backendIdx := b)
  }

  datatype Outcome<T> = Outcome(st: Lb, result: Option<T>)

  // Inserts a flow whose port has been taken; the evicted port, or the unused one, goes back.
  function Admit(e: Env, st: Lb, flow: NatFlow, now: Millis): (r: Outcome<nat>)
    requires LbShaped(st) && flow.backendIdx < MAX_BACKENDS
    ensures LbShaped(r.st) && |r.st.table.slots| == |st.table.slots|
    ensures r.result.Some? ==> r.result.value < |r.st.table.slots|
  {
    var ins := Insert(e, st.table, flow, now);
    var b := flow.backendIdx;
    var pools := Release(st.pools, ins.evictedIdx, ins.evictedPort);
    if ins.slot.None? then Outcome(Lb(ins.table, Release(pools, b, flow.snatPort), st.newFlows, st.backendFlows), None)
    else Outcome(Lb(ins.table, pools, st.newFlows + 1, st.backendFlows[b := st.backendFlows[b] + 1]), ins.slot)
  }

  function TopPort(st: Lb, b: nat): Port
    requires b < |st.pools| && st.pools[b] != []
  {
    st.pools[b][|st.pools[b]| - 1]
  }

  function TakePort(st: Lb, b: nat): (st': Lb)
    requires b < |st.pools| && st.pools[b] != []
  {
    st.(pools := st.pools[b := st.pools[b][..|st.pools[b]| - 1]])
  }

  function CreateFlow(e: Env, st: Lb, meta: PacketMeta, pool: Pool, now: Millis): (r: Outcome<nat>)
    requires LbShaped(st) && Fits(pool) && pool.active != []
    ensures LbShaped(r.st) && |r.st.table.slots| == |st.table.slots|
    ensures r.result.Some? ==> r.result.value < |r.st.table.slots|
  {
    var b := Select(e.hash, pool, KeyOf(meta));
    if st.pools[b] == [] then Outcome(st, None)
    else if TopPort(st, b) == 0 then Outcome(TakePort(st, b), None)
    else Admit(e, TakePort(st, b), NewFlow(meta, pool, b, TopPort(st, b)), now)
  }

  // Whether the packet ends the flow: a reset, or a FIN once both sides have sent one.
  predicate Closes(f: NatFlow, dir: Direction, flags: nat) {
    || HasFlag(flags, TCP_RST)
    || (HasFlag(flags, TCP_FIN) && (dir.Forward? || f.finForward) && (dir.Reverse? || f.finReverse))
  }

  function NoteFin(f: NatFlow, dir: Direction, flags: nat): NatFlow {
    if !HasFlag(flags, TCP_FIN) then f
    else if dir.Forward? then f.(finForward := true)
    else f.(finReverse := true)
  }

  function MaybeTeardown(st: Lb, s: nat, dir: Direction, flags: nat): (st': Lb)
    requires LbShaped(st) && s < |st.table.slots|
    ensures LbShaped(st') && |st'.table.slots| == |st.table.slots| && st'.table.rev == st.table.rev
  {
    var f := st.table.slots[s];
    var t := st.table.(slots := st.table.slots[s := NoteFin(f, dir, flags)]);
    if !Closes(f, dir, flags) then st.(table := t)
    else
      var c := Close(t, s);
      st.(table := c.table, pools := Release(st.pools, c.backendIdx, c.releasedPort))
  }

  function TranslateForward(meta: PacketMeta, f: NatFlow): PacketMeta {
    meta.(backendIp := f.backendIp, backendMac := f.backendMac, backendPort := f.backendPort, snatPort := f.snatPort)
  }

  function TranslateReverse(meta: PacketMeta, f: NatFlow): PacketMeta {
    meta.(clientIp := f.fwdKey.srcIp, clientPort := f.fwdKey.srcPort, clientMac := f.clientMac)
  }

  function HandleForward(e: Env, st: Lb, meta: PacketMeta, pool: Pool, now: Millis): (r: Outcome<PacketMeta>)
    requires LbShaped(st) && Fits(pool) && pool.active != []
    requires LbShaped(st.(table := Lookup(e, st.table, ByKey(KeyOf(meta)), now).table))
    ensures LbShaped(r.st)
  {
    var found := Lookup(e, st.table, ByKey(KeyOf(meta)), now);
    var st1 := st.(table := found.table);
    if found.slot.None? && meta.proto == PROTO_TCP && !HasFlag(meta.tcpFlags, TCP_SYN) then Outcome(st1, None)
    else
      var flow := if found.slot.Some? then Outcome(st1, found.slot) else CreateFlow(e, st1, meta, pool, now);
      if flow.result.None? then Outcome(flow.st, None)
      else
        var s := flow.result.value;
        Outcome(MaybeTeardown(flow.st, s, Forward, meta.tcpFlags),
                Some(TranslateForward(meta, flow.st.table.slots[s])))
  }

  function HandleReverse(e: Env, st: Lb, meta: PacketMeta, now: Millis): (r: Outcome<PacketMeta>)
    requires LbShaped(st)
    requires LbShaped(st.(table := Lookup(e, st.table, ByTuple(ReplyTuple(meta)), now).table))
    ensures LbShaped(r.st)
  {
    var found := Lookup(e, st.table, ByTuple(ReplyTuple(meta)), now);
    var st1 := st.(table := found.table);
    if found.slot.None? then Outcome(st1, None)
    else
      Outcome(MaybeTeardown(st1, found.slot.value, Reverse, meta.tcpFlags),
              Some(TranslateReverse(meta, found.table.slots[found.slot.value])))
  }

  // Lookups neither move nor retarget entries.
  lemma {:induction false} FindShaped(e: Env, st: Lb, q: Query, now: Millis, i: nat)
    requires LbShaped(st) && i <= |st.table.slots|
    ensures LbShaped(st.(table := Find(e, st.table, q, now, i).table))
    decreases |st.table.slots| - i
  {
    if i < |st.table.slots| && Probe(e, st.table, q, now, i).Passed? {
      FindShaped(e, st.(table := Probe(e, st.table, q, now, i).table), q, now, i + 1);
    }
  }

  lemma LookupShaped(e: Env, st: Lb, q: Query, now: Millis)
    requires LbShaped(st)
    ensures LbShaped(st.(table := Lookup(e, st.table, q, now).table))
  {
    FindShaped(e, st, q, now, 0);
  }

  function HandlePacket(e: Env, st: Lb, meta: PacketMeta, pool: Pool, now: Millis): (r: Outcome<PacketMeta>)
    requires LbShaped(st) && Fits(pool) && pool.active != []
    ensures LbShaped(r.st)
  {
    if meta.dir.Forward? then
      LookupShaped(e, st, ByKey(KeyOf(meta)), now);
      HandleForward(e, st, meta, pool, now)
    else
      LookupShaped(e, st, ByTuple(ReplyTuple(meta)), now);
      HandleReverse(e, st, meta, now)
  }
}
