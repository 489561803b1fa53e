// What every packet keeps: table invariants, conserved ports, honest counters.
module LbInvariants {
  import opened Net
  import opened NatSpec
  import opened NatInvariants
  import opened NatInsertion
  import opened BackendPools
  import opened LbSpec
  import opened LbRuns

  // ---- ports held by table entries ----

  predicate HoldsPort(f: NatFlow, b: nat, p: Port) {
    f.occupied && f.backendIdx == b && f.snatPort == p
  }

  // How many entries hold port p of backend b.
  function Held(slots: seq<NatFlow>, b: nat, p: Port): nat {
    if slots == [] then 0
    else Held(slots[..|slots| - 1], b, p) + One(HoldsPort(slots[|slots| - 1], b, p))
  }

  lemma {:induction false} HeldUpdate(slots: seq<NatFlow>, s: nat, f: NatFlow, b: nat, p: Port)
    requires s < |slots|
    ensures Held(slots[s := f], b, p) + One(HoldsPort(slots[s], b, p)) == Held(slots, b, p) + One(HoldsPort(f, b, p))
  {
    var n := |slots| - 1;
    if s == n {
      assert slots[s := f][..n] == slots[..n];
    } else {
      assert slots[s := f][..n] == slots[..n][s := f];
      HeldUpdate(slots[..n], s, f, b, p);
    }
  }

  lemma {:induction false} HeldSame(xs: seq<NatFlow>, ys: seq<NatFlow>, b: nat, p: Port)
    requires |xs| == |ys| && forall s: nat | s < |xs| :: HoldsPort(xs[s], b, p) == HoldsPort(ys[s], b, p)
    ensures Held(xs, b, p) == Held(ys, b, p)
  {
    if xs != [] {
      HeldSame(xs[..|xs| - 1], ys[..|ys| - 1], b, p);
    }
  }

  lemma {:induction false} HeldNone(slots: seq<NatFlow>, b: nat, p: Port)
    requires forall s: nat | s < |slots| :: !HoldsPort(slots[s], b, p)
    ensures Held(slots, b, p) == 0
  {
    if slots != [] {
      HeldNone(slots[..|slots| - 1], b, p);
    }
  }

  lemma {:induction false} HolderCounts(slots: seq<NatFlow>, s: nat, b: nat, p: Port)
    requires s < |slots| && HoldsPort(slots[s], b, p)
    ensures Held(slots, b, p) >= 1
  {
    if s < |slots| - 1 {
      HolderCounts(slots[..|slots| - 1], s, b, p);
    }
  }

  lemma {:induction false} TwoHoldersCount(slots: seq<NatFlow>, s1: nat, s2: nat, b: nat, p: Port)
    requires s1 < s2 < |slots| && HoldsPort(slots[s1], b, p) && HoldsPort(slots[s2], b, p)
    ensures Held(slots, b, p) >= 2
  {
    if s2 < |slots| - 1 {
      TwoHoldersCount(slots[..|slots| - 1], s1, s2, b, p);
    } else {
      HolderCounts(slots[..|slots| - 1], s1, b, p);
    }
  }

  // ---- the invariant ----

  // Port p of backend b is as often free or held, up to copies in transit, as it was given out.
  ghost predicate ConservedFor(st: Lb, init: seq<Port>, b: nat, p: Port, transit: nat)
    requires b < |st.pools|
  {
    multiset(st.pools[b])[p] + Held(st.table.slots, b, p) + transit == multiset(init)[p]
  }

  ghost predicate Conserved(st: Lb, init: seq<Port>) {
    && (forall b: nat | b < |st.pools| :: 0 !in st.pools[b])
    && forall b: nat, p: Port | b < |st.pools| && p != 0 :: ConservedFor(st, init, b, p, 0)
  }

  ghost predicate OpenPorted(t: Table) {
    forall s: nat | s < |t.slots| && Open(t.slots[s]) :: t.slots[s].snatPort != 0
  }

  function Sum(ns: seq<nat>): nat {
    if ns == [] then 0 else Sum(ns[..|ns| - 1]) + ns[|ns| - 1]
  }

  lemma {:induction false} SumIncrement(ns: seq<nat>, b: nat)
    requires b < |ns|
    ensures Sum(ns[b := ns[b] + 1]) == Sum(ns) + 1
  {
    var n := |ns| - 1;
    if b == n {
      assert ns[b := ns[b] + 1][..n] == ns[..n];
    } else {
      assert ns[b := ns[b] + 1][..n] == ns[..n][b := ns[b] + 1];
      SumIncrement(ns[..n], b);
    }
  }

  lemma {:induction false} SumZero(ns: seq<nat>)
    requires forall b: nat | b < |ns| :: ns[b] == 0
    ensures Sum(ns) == 0
  {
    if ns != [] {
      SumZero(ns[..|ns| - 1]);
    }
  }

  // Flows opened so far: one per backend tally, and at least one per reverse cell in use.
  ghost predicate Tallied(st: Lb) {
    st.newFlows == Sum(st.backendFlows) && CountUsed(st.table.rev) <= st.newFlows
  }

  // Everything but the ports.
  ghost predicate Core(e: Env, st: Lb) {
    LbShaped(st) && TableInv(e, st.table) && OpenPorted(st.table) && Tallied(st)
  }

  ghost predicate LbInv(e: Env, st: Lb, init: seq<Port>) {
    Core(e, st) && Conserved(st, init)
  }

  // An initial pool: distinct ports, none of them zero.
  ghost predicate GoodPorts(init: seq<Port>) {
    0 !in init && forall p: Port :: multiset(init)[p] <= 1
  }

  lemma StartInv(e: Env, cap: nat, init: seq<Port>)
    requires 0 < cap && 0 !in init
    ensures LbInv(e, Start(cap, init), init)
  {
    var st := Start(cap, init);
    EmptyTableInv(e, cap);
    CountUsedNone(st.table.rev);
    SumZero(st.backendFlows);
    forall b: nat, p: Port | b < |st.pools| && p != 0 ensures ConservedFor(st, init, b, p, 0) {
      HeldNone(st.table.slots, b, p);
    }
  }

  // ---- lookups ----

  lemma LookupConserves(e: Env, st: Lb, q: Query, now: Millis, init: seq<Port>, b: nat, p: Port)
    requires LbShaped(st) && TableInv(e, st.table) && b < |st.pools| && ConservedFor(st, init, b, p, 0)
    ensures ConservedFor(st.(table := Lookup(e, st.table, q, now).table), init, b, p, 0)
  {
    LookupMeets(e, st.table, q, now);
    var r := Lookup(e, st.table, q, now);
    forall s: nat | s < |st.table.slots|
      ensures HoldsPort(r.table.slots[s], b, p) == HoldsPort(st.table.slots[s], b, p)
    {
      assert r.slot != Some(s) ==> AgedSlot(e, st.table.slots[s], r.table.slots[s], now);
    }
    HeldSame(r.table.slots, st.table.slots, b, p);
  }

  lemma LookupKeeps(e: Env, st: Lb, q: Query, now: Millis, init: seq<Port>)
    requires LbInv(e, st, init)
    ensures LbInv(e, st.(table := Lookup(e, st.table, q, now).table), init)
  {
    var r := Lookup(e, st.table, q, now);
    LookupShaped(e, st, q, now);
    LookupMeets(e, st.table, q, now);
    forall s: nat | s < |st.table.slots| && Open(r.table.slots[s]) ensures r.table.slots[s].snatPort != 0 {
      assert r.slot != Some(s) ==> AgedSlot(e, st.table.slots[s], r.table.slots[s], now);
    }
    forall b: nat, p: Port | b < |st.pools| && p != 0 ensures ConservedFor(st.(table := r.table), init, b, p, 0) {
      LookupConserves(e, st, q, now, init, b, p);
    }
  }

  // ---- admission ----

  function InTransit(flow: NatFlow, b: nat, p: Port): nat {
    One(flow.backendIdx == b && flow.snatPort == p)
  }

  ghost predicate FreshFlow(flow: NatFlow) {
    flow.snatPort != 0 && flow.backendIdx < MAX_BACKENDS && !flow.reaped
  }

  lemma ReleaseCounts(pools: seq<seq<Port>>, x: nat, port: Port, b: nat, p: Port)
    requires (port != 0 ==> x < |pools|) && b < |pools| && p != 0
    ensures |Release(pools, x, port)| == |pools|
    ensures multiset(Release(pools, x, port)[b])[p] == multiset(pools[b])[p] + One(x == b && port == p)
  {
  }

  lemma AdmitConserves(e: Env, st: Lb, flow: NatFlow, now: Millis, init: seq<Port>, b: nat, p: Port)
    requires LbShaped(st) && FreshFlow(flow) && b < |st.pools| && p != 0
    requires ConservedFor(st, init, b, p, InTransit(flow, b, p))
    ensures ConservedFor(Admit(e, st, flow, now).st, init, b, p, 0)
  {
    InsertWrites(e, st.table, flow, now);
    var ins := Insert(e, st.table, flow, now);
    ReleaseCounts(st.pools, ins.evictedIdx, ins.evictedPort, b, p);
    if ins.slot.Some? {
      var s := ins.slot.value;
      HeldUpdate(st.table.slots, s, flow.(occupied := true, lastSeenMs := now), b, p);
      assert HoldsPort(st.table.slots[s], b, p) == (ins.evictedIdx == b && ins.evictedPort == p);
    } else {
      ReleaseCounts(Release(st.pools, ins.evictedIdx, ins.evictedPort), flow.backendIdx, flow.snatPort, b, p);
    }
  }

  lemma AdmitTallies(e: Env, st: Lb, flow: NatFlow, now: Millis)
    requires LbShaped(st) && Tallied(st) && flow.backendIdx < MAX_BACKENDS
    ensures Tallied(Admit(e, st, flow, now).st)
  {
    InsertUses(e, st.table, flow, now);
    SumIncrement(st.backendFlows, flow.backendIdx);
  }

  lemma AdmitKeepsCore(e: Env, st: Lb, flow: NatFlow, now: Millis)
    requires Core(e, st) && FreshFlow(flow) && NoneOpen(st.table, flow.fwdKey)
    ensures Core(e, Admit(e, st, flow, now).st)
  {
    InsertMeets(e, st.table, flow, now);
    AdmitTallies(e, st, flow, now);
  }

  lemma PortFromPool(st: Lb, init: seq<Port>, b: nat)
    requires b < |st.pools| && Conserved(st, init) && st.pools[b] != []
    ensures TopPort(st, b) in init && TopPort(st, b) != 0
  {
    var p := TopPort(st, b);
    assert p in multiset(st.pools[b]);
    assert ConservedFor(st, init, b, p, 0);
    assert p in multiset(init);
  }

  lemma AcquireTransit(st: Lb, init: seq<Port>, b: nat, x: nat, p: Port, flow: NatFlow)
    requires b < |st.pools| && x < |st.pools| && ConservedFor(st, init, x, p, 0) && st.pools[b] != []
    requires flow.backendIdx == b && flow.snatPort == TopPort(st, b)
    ensures ConservedFor(TakePort(st, b), init, x, p, InTransit(flow, x, p))
  {
    var free := st.pools[b];
    assert free == free[..|free| - 1] + [free[|free| - 1]];
  }

  lemma AdmitNoZero(e: Env, st: Lb, flow: NatFlow, now: Millis)
    requires LbShaped(st) && FreshFlow(flow) && forall b: nat | b < |st.pools| :: 0 !in st.pools[b]
    ensures forall b: nat | b < |st.pools| :: 0 !in Admit(e, st, flow, now).st.pools[b]
  {
  }

  lemma AcquireAdmitConserves(e: Env, st: Lb, b: nat, flow: NatFlow, now: Millis, init: seq<Port>)
    requires LbShaped(st) && b < |st.pools| && Conserved(st, init) && st.pools[b] != []
    requires FreshFlow(flow) && flow.backendIdx == b && flow.snatPort == TopPort(st, b)
    ensures Conserved(Admit(e, TakePort(st, b), flow, now).st, init)
  {
    var st1 := TakePort(st, b);
    AdmitNoZero(e, st1, flow, now);
    forall x: nat, p: Port | x < |st.pools| && p != 0 ensures ConservedFor(Admit(e, st1, flow, now).st, init, x, p, 0) {
      assert ConservedFor(st, init, x, p, 0);
      AcquireTransit(st, init, b, x, p, flow);
      AdmitConserves(e, st1, flow, now, init, x, p);
    }
  }

  lemma CreateFlowKeeps(e: Env, st: Lb, meta: PacketMeta, pool: Pool, now: Millis, init: seq<Port>)
    requires LbInv(e, st, init) && Fits(pool) && pool.active != []
    requires NoneOpen(st.table, KeyOf(meta))
    ensures LbInv(e, CreateFlow(e, st, meta, pool, now).st, init)
  {
    var b := Select(e.hash, pool, KeyOf(meta));
    if st.pools[b] != [] {
      PortFromPool(st, init, b);
      var flow := NewFlow(meta, pool, b, TopPort(st, b));
      AdmitKeepsCore(e, TakePort(st, b), flow, now);
      AcquireAdmitConserves(e, st, b, flow, now, init);
    }
  }

  // ---- teardown ----

  lemma TeardownConserves(st: Lb, s: nat, dir: Direction, flags: nat, init: seq<Port>, b: nat, p: Port)
    requires LbShaped(st) && OpenPorted(st.table) && s < |st.table.slots| && b < |st.pools| && p != 0
    requires ConservedFor(st, init, b, p, 0)
    ensures ConservedFor(MaybeTeardown(st, s, dir, flags), init, b, p, 0)
  {
    var f := st.table.slots[s];
    var st' := MaybeTeardown(st, s, dir, flags);
    assert st'.table.slots == st.table.slots[s := st'.table.slots[s]];
    HeldUpdate(st.table.slots, s, st'.table.slots[s], b, p);
    if Open(f) {
      ReleaseCounts(st.pools, f.backendIdx, f.snatPort, b, p);
    }
  }

  lemma TeardownKeepsTable(e: Env, st: Lb, s: nat, dir: Direction, flags: nat)
    requires Core(e, st) && s < |st.table.slots|
    ensures Core(e, MaybeTeardown(st, s, dir, flags))
  {
    var st' := MaybeTeardown(st, s, dir, flags);
    var t, u := st.table, st'.table;
    assert u.slots == t.slots[s := u.slots[s]];
    CountOpenUpdate(t.slots, s, u.slots[s]);
    CountOpenPositive(t.slots, s);
    WeatheredKeeps(e, t, u);
  }

  // The size counter never has to be clamped at zero.
  lemma {:induction false} CountOpenPositive(slots: seq<NatFlow>, s: nat)
    requires s < |slots|
    ensures Open(slots[s]) ==> CountOpen(slots) > 0
  {
    if s < |slots| - 1 {
      CountOpenPositive(slots[..|slots| - 1], s);
    }
  }

  lemma TeardownKeeps(e: Env, st: Lb, s: nat, dir: Direction, flags: nat, init: seq<Port>)
    requires LbInv(e, st, init) && s < |st.table.slots|
    ensures LbInv(e, MaybeTeardown(st, s, dir, flags), init)
  {
    TeardownKeepsTable(e, st, s, dir, flags);
    forall b: nat, p: Port | b < |st.pools| && p != 0
      ensures ConservedFor(MaybeTeardown(st, s, dir, flags), init, b, p, 0)
    {
      TeardownConserves(st, s, dir, flags, init, b, p);
    }
  }

  // ---- packets and runs ----

  lemma HandleForwardKeeps(e: Env, st: Lb, meta: PacketMeta, pool: Pool, now: Millis, init: seq<Port>)
    requires LbInv(e, st, init) && Fits(pool) && pool.active != []
    requires LbShaped(st.(table := Lookup(e, st.table, ByKey(KeyOf(meta)), now).table))
    ensures LbInv(e, HandleForward(e, st, meta, pool, now).st, init)
  {
    var key := KeyOf(meta);
    var found := Lookup(e, st.table, ByKey(key), now);
    var st1 := st.(table := found.table);
    LookupKeeps(e, st, ByKey(key), now, init);
    if found.slot.Some? {
      TeardownKeeps(e, st1, found.slot.value, Forward, meta.tcpFlags, init);
    } else {
      LookupForwardMeets(e, st.table, key, now);
      CreateFlowKeeps(e, st1, meta, pool, now, init);
      var flow := CreateFlow(e, st1, meta, pool, now);
      if flow.result.Some? {
        TeardownKeeps(e, flow.st, flow.result.value, Forward, meta.tcpFlags, init);
      }
    }
  }

  lemma HandleReverseKeeps(e: Env, st: Lb, meta: PacketMeta, now: Millis, init: seq<Port>)
    requires LbInv(e, st, init)
    requires LbShaped(st.(table := Lookup(e, st.table, ByTuple(ReplyTuple(meta)), now).table))
    ensures LbInv(e, HandleReverse(e, st, meta, now).st, init)
  {
    var q := ByTuple(ReplyTuple(meta));
    var found := Lookup(e, st.table, q, now);
    LookupKeeps(e, st, q, now, init);
    if found.slot.Some? {
      TeardownKeeps(e, st.(table := found.table), found.slot.value, Reverse, meta.tcpFlags, init);
    }
  }

  lemma StepKeeps(e: Env, st: Lb, ev: Event, init: seq<Port>)
    requires LbInv(e, st, init) && Sound(ev)
    ensures LbInv(e, Step(e, st, ev).st, init)
  {
    if ev.pool.Some? && ev.pool.value.active != [] {
      if ev.meta.dir.Forward? {
        LookupShaped(e, st, ByKey(KeyOf(ev.meta)), ev.now);
        HandleForwardKeeps(e, st, ev.meta, ev.pool.value, ev.now, init);
      } else {
        LookupShaped(e, st, ByTuple(ReplyTuple(ev.meta)), ev.now);
        HandleReverseKeeps(e, st, ev.meta, ev.now, init);
      }
    }
  }

  // The invariant holds after every run, whatever the packets, the clock and the pools.
  lemma {:induction false} RunKeeps(e: Env, st: Lb, evs: seq<Event>, init: seq<Port>)
    requires LbInv(e, st, init) && AllSound(evs)
    ensures LbInv(e, After(e, st, evs), init)
  {
    if evs != [] {
      RunKeeps(e, st, evs[..|evs| - 1], init);
      StepKeeps(e, After(e, st, evs[..|evs| - 1]), evs[|evs| - 1], init);
    }
  }

  // Each port is in the free list exactly once and held by no entry, or not in it and held by
  // exactly one entry.
  ghost predicate FreeOnce(st: Lb, b: nat, p: Port)
    requires b < |st.pools|
  {
    && multiset(st.pools[b])[p] == 1
    && forall s: nat | s < |st.table.slots| :: !HoldsPort(st.table.slots[s], b, p)
  }

  ghost predicate HeldOnce(st: Lb, b: nat, p: Port)
    requires b < |st.pools|
  {
    && p !in st.pools[b]
    && (exists s: nat :: s < |st.table.slots| && HoldsPort(st.table.slots[s], b, p))
    && (forall s1: nat, s2: nat | s1 < |st.table.slots| && s2 < |st.table.slots|
          && HoldsPort(st.table.slots[s1], b, p) && HoldsPort(st.table.slots[s2], b, p) :: s1 == s2)
  }

  lemma HolderUnique(st: Lb, init: seq<Port>, b: nat, p: Port, s1: nat, s2: nat)
    requires b < |st.pools| && Conserved(st, init) && GoodPorts(init) && p != 0
    requires s1 < |st.table.slots| && s2 < |st.table.slots|
    requires HoldsPort(st.table.slots[s1], b, p) && HoldsPort(st.table.slots[s2], b, p)
    ensures s1 == s2
  {
    assert ConservedFor(st, init, b, p, 0);
    if s1 < s2 {
      TwoHoldersCount(st.table.slots, s1, s2, b, p);
    } else if s2 < s1 {
      TwoHoldersCount(st.table.slots, s2, s1, b, p);
    }
  }

  // A held port is one the pool was given.
  lemma HeldPortGiven(st: Lb, init: seq<Port>, s: nat)
    requires LbShaped(st) && Conserved(st, init) && s < |st.table.slots|
    requires st.table.slots[s].occupied && st.table.slots[s].snatPort != 0
    ensures st.table.slots[s].snatPort in init
  {
    var f := st.table.slots[s];
    assert ConservedFor(st, init, f.backendIdx, f.snatPort, 0);
    HolderCounts(st.table.slots, s, f.backendIdx, f.snatPort);
    assert multiset(init)[f.snatPort] > 0;
  }

  lemma PortFreeOrHeld(e: Env, st: Lb, init: seq<Port>, b: nat, p: Port)
    requires LbInv(e, st, init) && GoodPorts(init) && b < MAX_BACKENDS && p in init
    ensures FreeOnce(st, b, p) != HeldOnce(st, b, p)
  {
    assert ConservedFor(st, init, b, p, 0);
    assert p in multiset(init) && multiset(init)[p] == 1;
    if forall s: nat | s < |st.table.slots| :: !HoldsPort(st.table.slots[s], b, p) {
      HeldNone(st.table.slots, b, p);
    } else {
      var s: nat :| s < |st.table.slots| && HoldsPort(st.table.slots[s], b, p);
      HolderAlone(st, init, b, p, s);
    }
  }

  lemma HolderAlone(st: Lb, init: seq<Port>, b: nat, p: Port, s: nat)
    requires LbShaped(st) && Conserved(st, init) && GoodPorts(init) && b < MAX_BACKENDS && p in init
    requires s < |st.table.slots| && HoldsPort(st.table.slots[s], b, p)
    ensures HeldOnce(st, b, p) && !FreeOnce(st, b, p)
  {
    assert ConservedFor(st, init, b, p, 0);
    HolderCounts(st.table.slots, s, b, p);
    assert p !in multiset(st.pools[b]);
    forall s1: nat, s2: nat | s1 < |st.table.slots| && s2 < |st.table.slots|
        && HoldsPort(st.table.slots[s1], b, p) && HoldsPort(st.table.slots[s2], b, p) ensures s1 == s2 {
      HolderUnique(st, init, b, p, s1, s2);
    }
  }

  // Port conservation over every run.
  lemma PortConservation(e: Env, cap: nat, init: seq<Port>, evs: seq<Event>, b: nat, p: Port)
    requires 0 < cap && GoodPorts(init) && AllSound(evs) && b < MAX_BACKENDS && p in init
    ensures FreeOnce(After(e, Start(cap, init), evs), b, p) != HeldOnce(After(e, Start(cap, init), evs), b, p)
  {
    StartInv(e, cap, init);
    RunKeeps(e, Start(cap, init), evs, init);
    PortFreeOrHeld(e, After(e, Start(cap, init), evs), init, b, p);
  }
}
