// Whole connections, from the packet that opens them to the one that ends them, over every run.
module LbTheorems {
  import opened Net
  import opened NatSpec
  import opened NatInvariants
  import opened NatInsertion
  import opened PortPools
  import opened BackendPools
  import opened LbSpec
  import opened LbRuns
  import opened LbInvariants
  import opened LbFlows
  import opened LbLifecycle
  import opened LbHistory

  lemma {:induction false} AfterConcat(e: Env, st: Lb, xs: seq<Event>, ys: seq<Event>)
    requires LbShaped(st) && AllSound(xs) && AllSound(ys)
    ensures AllSound(xs + ys) && After(e, st, xs + ys) == After(e, After(e, st, xs), ys)
  {
    if ys == [] {
      assert xs + ys == xs;
    } else {
      assert (xs + ys)[..|xs + ys| - 1] == xs + ys[..|ys| - 1];
      AfterConcat(e, st, xs, ys[..|ys| - 1]);
    }
  }

  // A worker's ports are distinct and non-zero.
  lemma WorkerPortsGood(worker: nat, workers: nat)
    requires 0 < workers
    ensures GoodPorts(WorkerPorts(worker, workers))
    ensures forall p: Port ::
      p in WorkerPorts(worker, workers) <==> EPHEMERAL_LOW <= p <= EPHEMERAL_HIGH && p % workers == worker
  {
    var ports: seq<Port> := WorkerPorts(worker, workers);
    var bag: multiset<Port> := multiset(ports);
    forall p: Port
      ensures bag[p] <= 1
      ensures p in ports <==> EPHEMERAL_LOW <= p <= EPHEMERAL_HIGH && p % workers == worker
    {
      PortsDownExact(worker, workers, EPHEMERAL_LOW, EPHEMERAL_HIGH, p);
      assert p in ports <==> p in bag;
    }
  }

  // ---- opening ----

  lemma OpensByCreating(e: Env, st: Lb, ev: Event, init: seq<Port>)
    requires LbInv(e, st, init) && Sound(ev) && Opens(e, st, ev)
    ensures LbShaped(AfterMiss(e, st, ev)) && LbInv(e, AfterMiss(e, st, ev), init)
    ensures Lookup(e, st.table, ByKey(KeyOf(ev.meta)), ev.now).slot.None?
    ensures NoneOpen(AfterMiss(e, st, ev).table, KeyOf(ev.meta))
    ensures var c := CreateFlow(e, AfterMiss(e, st, ev), ev.meta, ev.pool.value, ev.now);
      && c.result.Some?
      && Step(e, st, ev).st == MaybeTeardown(c.st, c.result.value, Forward, ev.meta.tcpFlags)
      && Step(e, st, ev).result == Some(TranslateForward(ev.meta, c.st.table.slots[c.result.value]))
  {
    LookupKeeps(e, st, ByKey(KeyOf(ev.meta)), ev.now, init);
    LookupForwardMeets(e, st.table, KeyOf(ev.meta), ev.now);
  }

  // The flow that CreateFlow stores: its parties are fixed by the packet and the pool, its port by
  // the free list, and replies reach it exactly when a reverse cell is spare.
  lemma CreateFlowStores(e: Env, st: Lb, meta: PacketMeta, pool: Pool, now: Millis, init: seq<Port>)
    requires LbInv(e, st, init) && Fits(pool) && pool.active != []
    requires NoneOpen(st.table, KeyOf(meta)) && CreateFlow(e, st, meta, pool, now).result.Some?
    ensures var c := CreateFlow(e, st, meta, pool, now); var s := c.result.value;
      var b := Select(e.hash, pool, KeyOf(meta));
      && st.pools[b] != [] && TopPort(st, b) in init && TopPort(st, b) != 0
      && c.st.table.slots[s] == NewFlow(meta, pool, b, TopPort(st, b)).(occupied := true, lastSeenMs := now)
      && (Reaches(e, c.st.table, ByTuple(TupleOf(c.st.table.slots[s])), s) <==> SpareCell(e, st.table, now))
  {
    var b := Select(e.hash, pool, KeyOf(meta));
    PortFromPool(st, init, b);
    var flow := NewFlow(meta, pool, b, TopPort(st, b));
    InsertWrites(e, st.table, flow, now);
    InsertReaches(e, st.table, flow, now);
  }

  lemma AgedCell(e: Env, t: Table, u: Table, now: Millis, c: nat)
    requires Shaped(t) && Shaped(u) && Aged(e, t, u, now) && c < |t.rev|
    ensures Reusable(e, u, c, now) == Reusable(e, t, c, now)
  {
    if t.rev[c] != 0 {
      assert AgedSlot(e, t.slots[t.rev[c] - 1], u.slots[t.rev[c] - 1], now);
    }
  }

  lemma AgedCells(e: Env, t: Table, u: Table, now: Millis)
    requires Shaped(t) && Shaped(u) && Aged(e, t, u, now)
    ensures SpareCell(e, u, now) == SpareCell(e, t, now)
  {
    forall c: nat | c < |t.rev| ensures Reusable(e, u, c, now) == Reusable(e, t, c, now) {
      AgedCell(e, t, u, now, c);
    }
  }

  // Missing a lookup does not change which cells are spare.
  lemma MissKeepsCells(e: Env, t: Table, q: Query, now: Millis)
    requires TableInv(e, t) && Lookup(e, t, q, now).slot.None?
    ensures SpareCell(e, Lookup(e, t, q, now).table, now) == SpareCell(e, t, now)
  {
    LookupMeets(e, t, q, now);
    AgedCells(e, t, Lookup(e, t, q, now).table, now);
  }

  // Opening a flow starts its life: replies find it from then on exactly when the reverse index
  // had room, which it always has for the first |slots| flows a node opens.
  lemma OpeningMirrors(e: Env, st: Lb, ev: Event, init: seq<Port>) returns (s: nat, f: NatFlow)
    requires LbInv(e, st, init) && Sound(ev) && Opens(e, st, ev)
    ensures var r := Step(e, st, ev);
      && s < |st.table.slots| && s < |r.st.table.slots|
      && Born(e, ev, f) && f.snatPort in init
      && r.result == Some(TranslateForward(ev.meta, f))
      && (st.newFlows < |st.table.slots| ==> SpareCell(e, st.table, ev.now))
      && (!HasFlag(ev.meta.tcpFlags, TCP_RST) ==>
            && SameFlow(f, r.st.table.slots[s])
            && InLife(r.st.table.slots[s], Alive(ev.now, HasFlag(ev.meta.tcpFlags, TCP_FIN), false))
            && (Mirrors(e, r.st.table, f, s, Alive(ev.now, HasFlag(ev.meta.tcpFlags, TCP_FIN), false))
                <==> SpareCell(e, st.table, ev.now)))
  {
    OpensByCreating(e, st, ev, init);
    var st1 := AfterMiss(e, st, ev);
    var c := CreateFlow(e, st1, ev.meta, ev.pool.value, ev.now);
    s := c.result.value;
    f := c.st.table.slots[s];
    CreateFlowStores(e, st1, ev.meta, ev.pool.value, ev.now, init);
    MissKeepsCells(e, st.table, ByKey(KeyOf(ev.meta)), ev.now);
    if st.newFlows < |st.table.slots| {
      UnusedCellSpare(e, st.table, ev.now);
    }
    OpeningTeardown(e, c.st, s, ev);
  }

  lemma OpeningTeardown(e: Env, st: Lb, s: nat, ev: Event)
    requires LbShaped(st) && s < |st.table.slots| && ev.meta.dir.Forward?
    requires var f := st.table.slots[s]; Open(f) && !f.finForward && !f.finReverse && f.lastSeenMs == ev.now
    ensures var f, u := st.table.slots[s], MaybeTeardown(st, s, Forward, ev.meta.tcpFlags).table;
      && s < |u.slots|
      && (!HasFlag(ev.meta.tcpFlags, TCP_RST) ==>
            && SameFlow(f, u.slots[s]) && InLife(u.slots[s], Alive(ev.now, HasFlag(ev.meta.tcpFlags, TCP_FIN), false))
            && (Reaches(e, u, ByTuple(TupleOf(f)), s) <==> Reaches(e, st.table, ByTuple(TupleOf(f)), s)))
  {
    var u := MaybeTeardown(st, s, Forward, ev.meta.tcpFlags).table;
    var q := ByTuple(TupleOf(st.table.slots[s]));
    assert SameShape(st.table, u) && SameShape(u, st.table);
    if Reaches(e, st.table, q, s) {
      SameReach(e, st.table, u, q, s);
    } else if Reaches(e, u, q, s) {
      SameReach(e, u, st.table, q, s);
    }
  }

  // ---- the rest of the life ----

  ghost predicate Deployed(evs: seq<Event>, list: seq<Backend>) {
    && AllSound(evs)
    && forall k: nat | k < |evs| && evs[k].pool.Some? :: Stable(list, evs[k].pool.value)
  }

  // A state of a node that has only ever seen pools agreeing with one list of distinct backends.
  ghost predicate Settled(e: Env, st: Lb, init: seq<Port>, list: seq<Backend>) {
    && LbInv(e, st, init) && GoodPorts(init) && DistinctBackends(list)
    && AllEntries(st.table, f => Registered(list, f))
  }

  lemma SettledRun(e: Env, st: Lb, init: seq<Port>, list: seq<Backend>, evs: seq<Event>)
    requires Settled(e, st, init, list) && Deployed(evs, list)
    ensures Settled(e, After(e, st, evs), init, list) && TuplesUnique(After(e, st, evs).table)
    ensures |After(e, st, evs).table.slots| == |st.table.slots|
  {
    ghost var P := (f: NatFlow) => Registered(list, f);
    forall k: nat, f: NatFlow | k < |evs| && Born(e, evs[k], f) ensures P(f) {
      assert Stable(list, evs[k].pool.value);
    }
    RunEntries(e, st, evs, init, P);
    RunKeeps(e, st, evs, init);
    RegisteredTuplesUnique(e, After(e, st, evs), init, list);
  }

  // While the automaton of flow f is alive, slot s holds f as the automaton says.
  lemma {:induction false} FlowMirrors(e: Env, st: Lb, init: seq<Port>, list: seq<Backend>, evs: seq<Event>,
                                       f: NatFlow, s: nat, life: Life)
    requires Settled(e, st, init, list) && Deployed(evs, list) && life.Alive? && Mirrors(e, st.table, f, s, life)
    ensures var life' := LifeAfter(e, f, life, evs);
      life'.Alive? ==> Mirrors(e, After(e, st, evs).table, f, s, life')
  {
    if evs != [] {
      var prefix := evs[..|evs| - 1];
      FlowMirrors(e, st, init, list, prefix, f, s, life);
      SettledRun(e, st, init, list, prefix);
      var mid := LifeAfter(e, f, life, prefix);
      if mid.Alive? {
        StepMirrors(e, After(e, st, prefix), evs[|evs| - 1], f, s, mid);
      }
    }
  }

  function Translate(meta: PacketMeta, f: NatFlow): PacketMeta {
    if meta.dir.Forward? then TranslateForward(meta, f) else TranslateReverse(meta, f)
  }

  lemma StepTranslates(e: Env, st: Lb, ev: Event, f: NatFlow, s: nat, life: Life)
    requires Core(e, st) && Sound(ev) && TuplesUnique(st.table) && life.Alive? && Mirrors(e, st.table, f, s, life)
    requires !TimedOut(e, life, ev.now) && Hits(ev, f)
    ensures Step(e, st, ev).result == Some(Translate(ev.meta, f))
  {
    MirrorsStands(e, st.table, f, s, life, ev.now);
    StepStands(e, st, ev, f, s, true);
  }

  // Every packet addressed to a flow that is alive and not timed out is translated by it, in both
  // directions: same backend and SNAT port, or the same client.
  lemma FlowTranslates(e: Env, st: Lb, init: seq<Port>, list: seq<Backend>, evs: seq<Event>, ev: Event,
                       f: NatFlow, s: nat, life: Life)
    requires Settled(e, st, init, list) && Deployed(evs, list) && life.Alive? && Mirrors(e, st.table, f, s, life)
    requires Sound(ev) && Hits(ev, f)
    requires var life' := LifeAfter(e, f, life, evs); life'.Alive? && !TimedOut(e, life', ev.now)
    ensures Step(e, After(e, st, evs), ev).result == Some(Translate(ev.meta, f))
  {
    FlowMirrors(e, st, init, list, evs, f, s, life);
    SettledRun(e, st, init, list, evs);
    StepTranslates(e, After(e, st, evs), ev, f, s, LifeAfter(e, f, life, evs));
  }

  // The life a flow has right after the event that opened it.
  function NewLife(ev: Event): Life {
    Alive(ev.now, HasFlag(ev.meta.tcpFlags, TCP_FIN), false)
  }

  // Event k of the run falls within the life of flow f, opened by event i, and is addressed to it.
  predicate WithinLife(e: Env, evs: seq<Event>, f: NatFlow, i: nat, k: nat)
    requires i < k < |evs|
  {
    var life := LifeAfter(e, f, NewLife(evs[i]), evs[i + 1..k]);
    life.Alive? && !TimedOut(e, life, evs[k].now) && Hits(evs[k], f)
  }

  lemma DeployedSlice(evs: seq<Event>, list: seq<Backend>, lo: nat, hi: nat)
    requires Deployed(evs, list) && lo <= hi <= |evs|
    ensures Deployed(evs[lo..hi], list)
  {
  }

  // A run up to event k, as the run up to event i and the rest.
  lemma RunSplits(e: Env, st: Lb, evs: seq<Event>, i: nat, k: nat)
    requires LbShaped(st) && AllSound(evs) && i < k < |evs|
    ensures AllSound(evs[..i + 1]) && AllSound(evs[i + 1..k]) && AllSound(evs[..k])
    ensures After(e, st, evs[..k]) == After(e, After(e, st, evs[..i + 1]), evs[i + 1..k])
  {
    assert evs[..i + 1] + evs[i + 1..k] == evs[..k];
    AfterConcat(e, st, evs[..i + 1], evs[i + 1..k]);
  }

  lemma ConnectionPacket(e: Env, st: Lb, init: seq<Port>, list: seq<Backend>, evs: seq<Event>, i: nat, k: nat,
                         f: NatFlow, s: nat)
    requires Settled(e, st, init, list) && Deployed(evs, list) && i < k < |evs| && WithinLife(e, evs, f, i, k)
    requires Mirrors(e, After(e, st, evs[..i + 1]).table, f, s, NewLife(evs[i]))
    ensures Verdict(e, st, evs, k) == Some(Translate(evs[k].meta, f))
  {
    DeployedSlice(evs, list, 0, i + 1);
    DeployedSlice(evs, list, i + 1, k);
    SettledRun(e, st, init, list, evs[..i + 1]);
    FlowTranslates(e, After(e, st, evs[..i + 1]), init, list, evs[i + 1..k], evs[k], f, s, NewLife(evs[i]));
    RunSplits(e, st, evs, i, k);
  }

  lemma ConnectionOpens(e: Env, st: Lb, init: seq<Port>, list: seq<Backend>, evs: seq<Event>,
                        i: nat) returns (f: NatFlow, s: nat)
    requires Settled(e, st, init, list) && Deployed(evs, list) && i < |evs|
    requires Opens(e, After(e, st, evs[..i]), evs[i]) && !HasFlag(evs[i].meta.tcpFlags, TCP_RST)
    requires SpareCell(e, After(e, st, evs[..i]).table, evs[i].now)
    ensures Born(e, evs[i], f) && f.snatPort in init
    ensures Verdict(e, st, evs, i) == Some(TranslateForward(evs[i].meta, f))
    ensures Mirrors(e, After(e, st, evs[..i + 1]).table, f, s, NewLife(evs[i]))
  {
    SettledRun(e, st, init, list, evs[..i]);
    s, f := OpeningMirrors(e, After(e, st, evs[..i]), evs[i], init);
    assert evs[..i + 1][..i] == evs[..i];
  }

  // A connection from its opening packet on: if event i opens a flow while the reverse index has
  // room, every later packet of either direction is translated by that flow until a reset, a FIN
  // from each side, or silence beyond the timeout, across any pool swaps.
  lemma Connection(e: Env, cap: nat, init: seq<Port>, list: seq<Backend>, evs: seq<Event>, i: nat) returns (f: NatFlow)
    requires 0 < cap && GoodPorts(init) && DistinctBackends(list) && Deployed(evs, list) && i < |evs|
    requires Opens(e, After(e, Start(cap, init), evs[..i]), evs[i]) && !HasFlag(evs[i].meta.tcpFlags, TCP_RST)
    requires SpareCell(e, After(e, Start(cap, init), evs[..i]).table, evs[i].now)
    ensures Born(e, evs[i], f) && f.snatPort in init
    ensures Verdict(e, Start(cap, init), evs, i) == Some(TranslateForward(evs[i].meta, f))
    ensures forall k: nat | i < k < |evs| && WithinLife(e, evs, f, i, k) ::
              Verdict(e, Start(cap, init), evs, k) == Some(Translate(evs[k].meta, f))
  {
    var start := Start(cap, init);
    StartInv(e, cap, init);
    var s;
    f, s := ConnectionOpens(e, start, init, list, evs, i);
    forall k: nat | i < k < |evs| && WithinLife(e, evs, f, i, k)
      ensures Verdict(e, start, evs, k) == Some(Translate(evs[k].meta, f))
    {
      ConnectionPacket(e, start, init, list, evs, i, k, f, s);
    }
  }
}
