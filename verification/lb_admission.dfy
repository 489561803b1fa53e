// When a flow is opened, and the state from which none ever is again.
module LbAdmission {
  import opened Net
  import opened NatSpec
  import opened NatInvariants
  import opened NatInsertion
  import opened BackendPools
  import opened LbSpec
  import opened LbRuns
  import opened LbInvariants
  import opened LbFlows
  import opened LbHistory

  // ---- exactly when a packet opens a flow ----

  ghost predicate NoneLive(e: Env, t: Table, key: FlowKey, now: Millis) {
    forall s: nat | s < |t.slots| && t.slots[s].fwdKey == key :: !LiveAt(e, t.slots[s], now)
  }

  ghost predicate SlotToSpare(e: Env, t: Table, now: Millis) {
    exists s: nat :: s < |t.slots| && !LiveAt(e, t.slots[s], now)
  }

  // No live entry has the key, a TCP packet has SYN set, the backend chosen has a free port, and some
  // slot is not live.
  ghost predicate Admissible(e: Env, st: Lb, ev: Event)
    requires LbShaped(st) && Sound(ev)
  {
    && Active(ev) && ev.meta.dir.Forward? && NoneLive(e, st.table, KeyOf(ev.meta), ev.now)
    && (ev.meta.proto == PROTO_TCP ==> HasFlag(ev.meta.tcpFlags, TCP_SYN))
    && st.pools[Select(e.hash, ev.pool.value, KeyOf(ev.meta))] != []
    && SlotToSpare(e, st.table, ev.now)
  }

  lemma AgedToSpare(e: Env, t: Table, u: Table, now: Millis)
    requires Aged(e, t, u, now)
    ensures SlotToSpare(e, u, now) == SlotToSpare(e, t, now)
  {
    forall s: nat | s < |t.slots| ensures LiveAt(e, u.slots[s], now) == LiveAt(e, t.slots[s], now) {
      assert AgedSlot(e, t.slots[s], u.slots[s], now);
    }
  }

  lemma CreatesExactly(e: Env, st: Lb, meta: PacketMeta, pool: Pool, now: Millis, init: seq<Port>)
    requires LbInv(e, st, init) && Fits(pool) && pool.active != [] && NoneOpen(st.table, KeyOf(meta))
    ensures CreateFlow(e, st, meta, pool, now).result.Some?
            <==> st.pools[Select(e.hash, pool, KeyOf(meta))] != [] && SlotToSpare(e, st.table, now)
  {
    var b := Select(e.hash, pool, KeyOf(meta));
    if st.pools[b] != [] {
      PortFromPool(st, init, b);
      InsertMeets(e, st.table, NewFlow(meta, pool, b, TopPort(st, b)), now);
    }
  }

  // A packet without a live entry gets through if and only if it passes the SYN gate and a flow is
  // created for it.
  lemma MissGetsThrough(e: Env, st: Lb, ev: Event, init: seq<Port>)
    requires LbInv(e, st, init) && Sound(ev) && Active(ev) && ev.meta.dir.Forward?
    requires NoneLive(e, st.table, KeyOf(ev.meta), ev.now)
    ensures LbInv(e, AfterMiss(e, st, ev), init) && NoneOpen(AfterMiss(e, st, ev).table, KeyOf(ev.meta))
    ensures Step(e, st, ev).result.Some?
            <==> && (ev.meta.proto == PROTO_TCP ==> HasFlag(ev.meta.tcpFlags, TCP_SYN))
                 && CreateFlow(e, AfterMiss(e, st, ev), ev.meta, ev.pool.value, ev.now).result.Some?
  {
    LookupKeeps(e, st, ByKey(KeyOf(ev.meta)), ev.now, init);
    LookupForwardMeets(e, st.table, KeyOf(ev.meta), ev.now);
  }

  lemma MissToSpare(e: Env, st: Lb, ev: Event)
    requires Core(e, st) && NoneLive(e, st.table, KeyOf(ev.meta), ev.now)
    ensures SlotToSpare(e, AfterMiss(e, st, ev).table, ev.now) == SlotToSpare(e, st.table, ev.now)
  {
    LookupForwardMeets(e, st.table, KeyOf(ev.meta), ev.now);
    LookupMeets(e, st.table, ByKey(KeyOf(ev.meta)), ev.now);
    AgedToSpare(e, st.table, AfterMiss(e, st, ev).table, ev.now);
  }

  lemma OpensExactly(e: Env, st: Lb, ev: Event, init: seq<Port>)
    requires LbInv(e, st, init) && Sound(ev)
    ensures Opens(e, st, ev) <==> Admissible(e, st, ev)
  {
    if Active(ev) && ev.meta.dir.Forward? && NoneLive(e, st.table, KeyOf(ev.meta), ev.now) {
      MissGetsThrough(e, st, ev, init);
      MissToSpare(e, st, ev);
      CreatesExactly(e, AfterMiss(e, st, ev), ev.meta, ev.pool.value, ev.now, init);
    }
  }

  // ---- starvation ----

  // No entry is open, and the backends in bs have no free port: their ports are held by entries that
  // are reaped and give them back only when their slots are used again.
  ghost predicate Starved(st: Lb, bs: set<nat>) {
    && (forall s: nat | s < |st.table.slots| :: !Open(st.table.slots[s]))
    && (forall b: nat | b in bs && b < |st.pools| :: st.pools[b] == [])
  }

  // Only backends in bs are selectable.
  ghost predicate Confined(ev: Event, bs: set<nat>) {
    ev.pool.Some? ==> forall i: nat | i < |ev.pool.value.active| :: ev.pool.value.active[i] in bs
  }

  lemma NothingToFind(e: Env, t: Table, q: Query, now: Millis)
    requires TableInv(e, t) && forall s: nat | s < |t.slots| :: !Open(t.slots[s])
    ensures Lookup(e, t, q, now) == Search(t, None)
  {
    LookupMeets(e, t, q, now);
    var r := Lookup(e, t, q, now);
    forall s: nat | s < |t.slots| ensures r.table.slots[s] == t.slots[s] {
      assert AgedSlot(e, t.slots[s], r.table.slots[s], now);
    }
    assert r.table.slots == t.slots;
  }

  lemma StarvedStep(e: Env, st: Lb, ev: Event, bs: set<nat>)
    requires Core(e, st) && Sound(ev) && Starved(st, bs) && Confined(ev, bs)
    ensures Step(e, st, ev) == Outcome(st, None)
  {
    NothingToFind(e, st.table, ByKey(KeyOf(ev.meta)), ev.now);
    NothingToFind(e, st.table, ByTuple(ReplyTuple(ev.meta)), ev.now);
  }

  // Once starved, every packet of every run is dropped and nothing changes any more.
  lemma {:induction false} StarvedForever(e: Env, st: Lb, evs: seq<Event>, bs: set<nat>)
    requires Core(e, st) && Starved(st, bs) && AllSound(evs)
    requires forall k: nat | k < |evs| :: Confined(evs[k], bs)
    ensures After(e, st, evs) == st
    ensures forall k: nat | k < |evs| :: Verdict(e, st, evs, k) == None
  {
    if evs != [] {
      var prefix := evs[..|evs| - 1];
      StarvedForever(e, st, prefix, bs);
      StarvedStep(e, st, evs[|evs| - 1], bs);
      forall k: nat | k < |evs| ensures Verdict(e, st, evs, k) == None {
        if k < |prefix| {
          assert prefix[..k] == evs[..k];
          assert Verdict(e, st, prefix, k) == None;
        }
      }
    }
  }
}
