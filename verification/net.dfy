// Machine integers, flow keys and circular probing shared by the conntrack modules.
module Net {

  const TWO32: nat := 0x1_0000_0000

  // Header fields and counters are naturals: nothing below computes on them except the clock
  // difference, which is reduced modulo 2^32 where the program subtracts two uint32 readings.
  type Ip = nat
  type Port = nat
  type Mac = nat
  type Millis = nat

  datatype Option<+T> = None | Some(value: T)

  datatype FlowKey = FlowKey(srcIp: Ip, dstIp: Ip, srcPort: Port, dstPort: Port, proto: nat)

  // Every hash is an arbitrary deterministic function of the key.
  type Hasher = FlowKey -> nat

  const PROTO_TCP: nat := 6
  const PROTO_UDP: nat := 17

  const TCP_FIN: nat := 1
  const TCP_SYN: nat := 2
  const TCP_RST: nat := 4

  // flags & mask != 0, for a mask with a single bit set.
  predicate HasFlag(flags: nat, mask: nat)
    requires mask != 0
  {
    (flags / mask) % 2 == 1
  }

  function One(c: bool): nat {
    if c then 1 else 0
  }

  // The worker a forward key is steered to.
  function SteerWorker(hash: Hasher, key: FlowKey, workers: nat): (w: nat)
    requires 0 < workers
    ensures w < workers
  {
    hash(key) % workers
  }

  // ---- circular probing over a table of cap cells ----

  // hash & (cap - 1) for a power-of-two cap.
  function Home(hash: Hasher, key: FlowKey, cap: nat): (start: nat)
    requires 0 < cap
    ensures start < cap
  {
    hash(key) % cap
  }

  // (start + i) & (cap - 1): the cell of the i-th probe.
  function Pos(start: nat, i: nat, cap: nat): (p: nat)
    requires start < cap && i < cap
    ensures p < cap
  {
    if start + i < cap then start + i else start + i - cap
  }

  // The probe that reaches cell p.
  function Dist(start: nat, p: nat, cap: nat): (i: nat)
    requires start < cap && p < cap
    ensures i < cap && Pos(start, i, cap) == p
    ensures forall j: nat | j < cap && Pos(start, j, cap) == p :: j == i
  {
    if start <= p then p - start else p + cap - start
  }

  // uint32 subtraction of two readings of one clock only depends on the clock, and gives the
  // elapsed time, even across wrap-around, when less than a full period went by.
  lemma ClockReadings(before: nat, now: nat)
    ensures (now % TWO32 - before % TWO32) % TWO32 == (now - before) % TWO32
    ensures before <= now < before + TWO32 ==> (now - before) % TWO32 == now - before
  {
    var a, b := now / TWO32, before / TWO32;
    assert now == a * TWO32 + now % TWO32;
    assert before == b * TWO32 + before % TWO32;
    assert now % TWO32 - before % TWO32 == now - before - (a - b) * TWO32;
  }
}
