// Backend pools: a slot list with stable indices and the indices new flows may use.
module BackendPools {
  import opened Net

  const MAX_BACKENDS: nat := 64

  datatype Backend = Backend(ip: Ip, port: Port, mac: Mac)

  datatype ControlBackend = ControlBackend(ip: Ip, port: Port, mac: Mac, enabled: nat)

  datatype Pool = Pool(slots: seq<Backend>, active: seq<nat>)

  // Indices are in range and the port pools and counters, one per slot, cover them.
  predicate Fits(pool: Pool) {
    |pool.slots| <= MAX_BACKENDS && forall i | 0 <= i < |pool.active| :: pool.active[i] < |pool.slots|
  }

  function EnabledBelow(src: seq<ControlBackend>, n: nat): (active: seq<nat>)
    requires n <= |src|
    ensures forall i | 0 <= i < |active| :: active[i] < n
    ensures forall b: nat | b < n :: b in active <==> src[b].enabled != 0
    ensures forall i, j | 0 <= i < j < |active| :: active[i] < active[j]
  {
    if n == 0 then []
    else EnabledBelow(src, n - 1) + if src[n - 1].enabled != 0 then [n - 1] else []
  }

  function PoolOf(src: seq<ControlBackend>): (pool: Pool) {
    Pool(seq(|src|, i requires 0 <= i < |src| => Backend(src[i].ip, src[i].port, src[i].mac)),
         EnabledBelow(src, |src|))
  }

  // The active list is built with a uint8 index, so the slots must number at most 255.
  method BuildPool(src: seq<ControlBackend>) returns (pool: Pool)
    requires |src| < 256
    ensures pool == PoolOf(src)
    ensures |src| <= MAX_BACKENDS ==> Fits(pool)
  {
    var slots: seq<Backend> := [];
    for i := 0 to |src|
      invariant |slots| == i
      invariant forall k | 0 <= k < i :: slots[k] == Backend(src[k].ip, src[k].port, src[k].mac)
    {
      slots := slots + [Backend(src[i].ip, src[i].port, src[i].mac)];
    }
    var active: seq<nat> := [];
    for i := 0 to |src|
      invariant active == EnabledBelow(src, i)
    {
      if src[i].enabled != 0 {
        active := active + [i];
      }
    }
    pool := Pool(slots, active);
  }

  // New flows go to enabled slots only.
  function Select(hash: Hasher, pool: Pool, key: FlowKey): (b: nat)
    requires pool.active != []
    ensures b in pool.active
  {
    pool.active[hash(key) % |pool.active|]
  }

  lemma SelectsEnabled(hash: Hasher, src: seq<ControlBackend>, key: FlowKey)
    requires PoolOf(src).active != []
    ensures var b := Select(hash, PoolOf(src), key); b < |src| && src[b].enabled != 0
  {
  }
}
