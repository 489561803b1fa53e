// Where entries come from, and what therefore holds of all of them after every run.
module LbHistory {
  import opened Net
  import opened NatSpec
  import opened NatInvariants
  import opened NatInsertion
  import opened BackendPools
  import opened LbSpec
  import opened LbRuns
  import opened LbInvariants
  import opened LbFlows

  // ---- births ----

  // Flow f is what event ev would open.
  ghost predicate Born(e: Env, ev: Event, f: NatFlow)
    requires Sound(ev)
  {
    && Active(ev) && ev.meta.dir.Forward?
    && (ev.meta.proto == PROTO_TCP ==> HasFlag(ev.meta.tcpFlags, TCP_SYN))
    && var b := Select(e.hash, ev.pool.value, KeyOf(ev.meta));
       SameParties(NewFlow(ev.meta, ev.pool.value, b, 0), f)
  }

  // The same occupant as before, no more alive than before.
  predicate Inherited(f: NatFlow, g: NatFlow) {
    g.occupied == f.occupied && SameParties(f, g)
  }

  // ---- openings ----

  // A forward packet with no live entry gets through exactly by opening one.
  ghost predicate Opens(e: Env, st: Lb, ev: Event)
    requires LbShaped(st) && Sound(ev)
  {
    && Active(ev) && ev.meta.dir.Forward?
    && (forall s: nat | s < |st.table.slots| && st.table.slots[s].fwdKey == KeyOf(ev.meta) ::
      !LiveAt(e, st.table.slots[s], ev.now))
    && Step(e, st, ev).result.Some?
  }

  function AfterMiss(e: Env, st: Lb, ev: Event): Lb
    requires LbShaped(st)
  {
    st.(table := Lookup(e, st.table, ByKey(KeyOf(ev.meta)), ev.now).table)
  }

  lemma MissMeansNoneLive(e: Env, t: Table, key: FlowKey, now: Millis)
    requires TableInv(e, t)
    ensures Lookup(e, t, ByKey(key), now).slot.None?
            <==> forall s: nat | s < |t.slots| && t.slots[s].fwdKey == key :: !LiveAt(e, t.slots[s], now)
  {
    LookupForwardMeets(e, t, key, now);
    var r := Lookup(e, t, ByKey(key), now);
    if r.slot.Some? {
      assert t.slots[r.slot.value].fwdKey == key;
    }
  }

  // Event ev opens a flow and puts it into slot s.
  ghost predicate OpensIn(e: Env, st: Lb, ev: Event, s: nat)
    requires LbShaped(st) && Sound(ev)
  {
    && Opens(e, st, ev) && LbShaped(AfterMiss(e, st, ev))
    && CreateFlow(e, AfterMiss(e, st, ev), ev.meta, ev.pool.value, ev.now).result == Some(s)
  }

  // The same entry later: same parties, never revived, its port kept until it is given back.
  predicate Stays(f: NatFlow, g: NatFlow) {
    && Inherited(f, g) && (f.reaped ==> g.reaped)
    && (g.snatPort == f.snatPort || (g.reaped && g.snatPort == 0))
  }

  lemma LookupStays(e: Env, t: Table, q: Query, now: Millis, s: nat)
    requires TableInv(e, t) && s < |t.slots|
    ensures |Lookup(e, t, q, now).table.slots| == |t.slots| && Stays(t.slots[s], Lookup(e, t, q, now).table.slots[s])
  {
    LookupMeets(e, t, q, now);
    LookedUpSlot(e, t, Lookup(e, t, q, now), now, s);
    if Lookup(e, t, q, now).slot != Some(s) {
      assert AgedSlot(e, t.slots[s], Lookup(e, t, q, now).table.slots[s], now);
    }
  }

  lemma TeardownStays(st: Lb, x: nat, dir: Direction, flags: nat, s: nat)
    requires LbShaped(st) && x < |st.table.slots| && s < |st.table.slots|
    ensures Stays(st.table.slots[s], MaybeTeardown(st, x, dir, flags).table.slots[s])
  {
  }

  // A new flow changes the slot it is put into and no other.
  lemma CreateFlowElsewhere(e: Env, st: Lb, meta: PacketMeta, pool: Pool, now: Millis, s: nat)
    requires LbShaped(st) && Fits(pool) && pool.active != [] && s < |st.table.slots|
    ensures var r := CreateFlow(e, st, meta, pool, now);
      r.result != Some(s) ==> r.st.table.slots[s] == st.table.slots[s]
  {
    var b := Select(e.hash, pool, KeyOf(meta));
    if st.pools[b] != [] && TopPort(st, b) != 0 {
      InsertWrites(e, st.table, NewFlow(meta, pool, b, TopPort(st, b)), now);
    }
  }

  lemma CreateFlowThere(e: Env, st: Lb, meta: PacketMeta, pool: Pool, now: Millis)
    requires LbShaped(st) && Fits(pool) && pool.active != [] && CreateFlow(e, st, meta, pool, now).result.Some?
    ensures var r := CreateFlow(e, st, meta, pool, now); var g := r.st.table.slots[r.result.value];
      Open(g) && SameParties(NewFlow(meta, pool, Select(e.hash, pool, KeyOf(meta)), 0), g)
  {
    var b := Select(e.hash, pool, KeyOf(meta));
    InsertWrites(e, st.table, NewFlow(meta, pool, b, TopPort(st, b)), now);
  }

  // What a step leaves in slot s: the flow it opened there, or the entry that was there.
  ghost predicate StepLeaves(e: Env, st: Lb, ev: Event, s: nat, g: NatFlow)
    requires LbShaped(st) && Sound(ev) && s < |st.table.slots|
  {
    if OpensIn(e, st, ev, s) then g.occupied && Born(e, ev, g) else Stays(st.table.slots[s], g)
  }

  lemma MissLeaves(e: Env, st: Lb, ev: Event, s: nat)
    requires Core(e, st) && Sound(ev) && Active(ev) && ev.meta.dir.Forward? && s < |st.table.slots|
    requires LbShaped(AfterMiss(e, st, ev)) && Lookup(e, st.table, ByKey(KeyOf(ev.meta)), ev.now).slot.None?
    ensures var r := Step(e, st, ev);
      |r.st.table.slots| == |st.table.slots| && StepLeaves(e, st, ev, s, r.st.table.slots[s])
  {
    var st1 := AfterMiss(e, st, ev);
    LookupStays(e, st.table, ByKey(KeyOf(ev.meta)), ev.now, s);
    MissMeansNoneLive(e, st.table, KeyOf(ev.meta), ev.now);
    if ev.meta.proto != PROTO_TCP || HasFlag(ev.meta.tcpFlags, TCP_SYN) {
      var flow := CreateFlow(e, st1, ev.meta, ev.pool.value, ev.now);
      CreateFlowElsewhere(e, st1, ev.meta, ev.pool.value, ev.now, s);
      if flow.result.Some? {
        CreateFlowThere(e, st1, ev.meta, ev.pool.value, ev.now);
        TeardownStays(flow.st, flow.result.value, Forward, ev.meta.tcpFlags, s);
      }
    }
  }

  lemma HitLeaves(e: Env, st: Lb, ev: Event, s: nat)
    requires Core(e, st) && Sound(ev) && Active(ev) && ev.meta.dir.Forward? && s < |st.table.slots|
    requires LbShaped(AfterMiss(e, st, ev)) && Lookup(e, st.table, ByKey(KeyOf(ev.meta)), ev.now).slot.Some?
    ensures var r := HandleForward(e, st, ev.meta, ev.pool.value, ev.now);
      && |r.st.table.slots| == |st.table.slots| && Stays(st.table.slots[s], r.st.table.slots[s])
        && !OpensIn(e, st, ev, s)
  {
    var found := Lookup(e, st.table, ByKey(KeyOf(ev.meta)), ev.now);
    LookupStays(e, st.table, ByKey(KeyOf(ev.meta)), ev.now, s);
    MissMeansNoneLive(e, st.table, KeyOf(ev.meta), ev.now);
    TeardownStays(st.(table := found.table), found.slot.value, Forward, ev.meta.tcpFlags, s);
  }

  lemma ReverseLeaves(e: Env, st: Lb, meta: PacketMeta, now: Millis, s: nat)
    requires Core(e, st) && s < |st.table.slots|
    requires LbShaped(st.(table := Lookup(e, st.table, ByTuple(ReplyTuple(meta)), now).table))
    ensures var r := HandleReverse(e, st, meta, now);
      |r.st.table.slots| == |st.table.slots| && Stays(st.table.slots[s], r.st.table.slots[s])
  {
    var found := Lookup(e, st.table, ByTuple(ReplyTuple(meta)), now);
    LookupStays(e, st.table, ByTuple(ReplyTuple(meta)), now, s);
    if found.slot.Some? {
      TeardownStays(st.(table := found.table), found.slot.value, Reverse, meta.tcpFlags, s);
    }
  }

  lemma StepOpens(e: Env, st: Lb, ev: Event, s: nat)
    requires Core(e, st) && Sound(ev) && s < |st.table.slots|
    ensures |Step(e, st, ev).st.table.slots| == |st.table.slots|
    ensures StepLeaves(e, st, ev, s, Step(e, st, ev).st.table.slots[s])
  {
    if Active(ev) {
      if ev.meta.dir.Forward? {
        LookupShaped(e, st, ByKey(KeyOf(ev.meta)), ev.now);
        if Lookup(e, st.table, ByKey(KeyOf(ev.meta)), ev.now).slot.None? {
          MissLeaves(e, st, ev, s);
        } else {
          HitLeaves(e, st, ev, s);
        }
      } else {
        LookupShaped(e, st, ByTuple(ReplyTuple(ev.meta)), ev.now);
        ReverseLeaves(e, st, ev.meta, ev.now, s);
      }
    }
  }

  // ---- properties of every entry, over every run ----

  // P only looks at who the parties are.
  ghost predicate AboutParties(P: NatFlow -> bool) {
    forall f: NatFlow, g: NatFlow | SameParties(f, g) && P(f) :: P(g)
  }

  ghost predicate AllEntries(t: Table, P: NatFlow -> bool) {
    forall s: nat | s < |t.slots| && t.slots[s].occupied :: P(t.slots[s])
  }

  // What holds of every flow the events may open holds of every entry, ever.
  lemma {:induction false} RunEntries(e: Env, st: Lb, evs: seq<Event>, init: seq<Port>, P: NatFlow -> bool)
    requires LbInv(e, st, init) && AllSound(evs) && AboutParties(P) && AllEntries(st.table, P)
    requires forall k: nat, f: NatFlow | k < |evs| && Born(e, evs[k], f) :: P(f)
    ensures AllEntries(After(e, st, evs).table, P)
    ensures |After(e, st, evs).table.slots| == |st.table.slots|
  {
    if evs != [] {
      var prefix, ev := evs[..|evs| - 1], evs[|evs| - 1];
      assert forall k: nat, f: NatFlow | k < |prefix| && Born(e, prefix[k], f) :: P(f) by {
        forall k: nat, f: NatFlow | k < |prefix| && Born(e, prefix[k], f) ensures P(f) {
          assert prefix[k] == evs[k];
        }
      }
      RunEntries(e, st, prefix, init, P);
      RunKeeps(e, st, prefix, init);
      var mid := After(e, st, prefix);
      var t := After(e, st, evs).table;
      StepOpens(e, mid, ev, 0);
      forall s: nat | s < |t.slots| && t.slots[s].occupied ensures P(t.slots[s]) {
        StepOpens(e, mid, ev, s);
        if OpensIn(e, mid, ev, s) {
          assert Born(e, evs[|evs| - 1], t.slots[s]);
        } else {
          assert SameParties(mid.table.slots[s], t.slots[s]);
        }
      }
    }
  }

  // ---- reply tuples are unique ----

  // A pool that agrees with the fixed backend list, slot by slot, whatever is enabled.
  predicate Stable(list: seq<Backend>, pool: Pool) {
    && |pool.slots| <= |list|
    && forall i: nat | i < |pool.slots| :: pool.slots[i].ip == list[i].ip && pool.slots[i].port == list[i].port
  }

  predicate DistinctBackends(list: seq<Backend>) {
    forall i: nat, j: nat | i < |list| && j < |list| && list[i].ip == list[j].ip && list[i].port == list[j].port ::
      i == j
  }

  predicate Registered(list: seq<Backend>, f: NatFlow) {
    f.backendIdx < |list| && f.backendIp == list[f.backendIdx].ip && f.backendPort == list[f.backendIdx].port
  }

  lemma RegisteredTuplesUnique(e: Env, st: Lb, init: seq<Port>, list: seq<Backend>)
    requires LbInv(e, st, init) && GoodPorts(init) && DistinctBackends(list)
    requires AllEntries(st.table, f => Registered(list, f))
    ensures TuplesUnique(st.table)
  {
    var slots := st.table.slots;
    forall s1: nat, s2: nat | s1 < |slots| && s2 < |slots| && Open(slots[s1]) && Open(slots[s2])
      && TupleOf(slots[s1]) == TupleOf(slots[s2])
      ensures s1 == s2
    {
      var f, g := slots[s1], slots[s2];
      assert Registered(list, f) && Registered(list, g);
      assert f.backendIdx == g.backendIdx;
      HolderUnique(st, init, f.backendIdx, f.snatPort, s1, s2);
    }
  }

  // With a slot-stable list of distinct backends, no two open flows ever share a reply tuple.
  lemma ReverseTuplesUnique(e: Env, cap: nat, init: seq<Port>, evs: seq<Event>, list: seq<Backend>)
    requires 0 < cap && GoodPorts(init) && AllSound(evs) && DistinctBackends(list)
    requires forall k: nat | k < |evs| && evs[k].pool.Some? :: Stable(list, evs[k].pool.value)
    ensures AllEntries(After(e, Start(cap, init), evs).table, f => Registered(list, f))
    ensures TuplesUnique(After(e, Start(cap, init), evs).table)
  {
    StartInv(e, cap, init);
    ghost var P := (f: NatFlow) => Registered(list, f);
    forall k: nat, f: NatFlow | k < |evs| && Born(e, evs[k], f) ensures P(f) {
      assert Stable(list, evs[k].pool.value);
    }
    RunEntries(e, Start(cap, init), evs, init, P);
    RunKeeps(e, Start(cap, init), evs, init);
    RegisteredTuplesUnique(e, After(e, Start(cap, init), evs), init, list);
  }
}
