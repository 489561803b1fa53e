// One flow seen from outside: an automaton driven only by the packets addressed to it and the clock.
// As long as the automaton is alive, the node's table holds the flow exactly as it says.
module LbLifecycle {
  import opened Net
  import opened NatSpec
  import opened NatInvariants
  import opened BackendPools
  import opened LbSpec
  import opened LbRuns
  import opened LbInvariants
  import opened LbFlows

  datatype Life = Ended | Alive(lastSeen: Millis, finForward: bool, finReverse: bool)

  predicate TimedOut(e: Env, life: Life, now: Millis)
    requires life.Alive?
  {
    (now - life.lastSeen) % TWO32 > e.timeoutMs
  }

  // The packet reaches the flow, given that the flow has not timed out.
  predicate Hits(ev: Event, f: NatFlow) {
    Active(ev) && Addresses(ev.meta, f)
  }

  // A reset, or a FIN from each side, ends the flow; so does silence beyond the timeout.
  function LifeOn(e: Env, life: Life, ev: Event, hit: bool): Life {
    if life.Ended? || TimedOut(e, life, ev.now) then Ended
    else if !hit then life
    else
      var fin := HasFlag(ev.meta.tcpFlags, TCP_FIN);
      var fwd := life.finForward || (fin && ev.meta.dir.Forward?);
      var rev := life.finReverse || (fin && ev.meta.dir.Reverse?);
      if HasFlag(ev.meta.tcpFlags, TCP_RST) || (fin && fwd && rev) then Ended
      else Alive(ev.now, fwd, rev)
  }

  // The life driven by every packet addressed to the flow.
  function LifeStep(e: Env, f: NatFlow, life: Life, ev: Event): Life {
    LifeOn(e, life, ev, Hits(ev, f))
  }

  function LifeAfter(e: Env, f: NatFlow, life: Life, evs: seq<Event>): Life {
    if evs == [] then life
    else LifeStep(e, f, LifeAfter(e, f, life, evs[..|evs| - 1]), evs[|evs| - 1])
  }

  // Slot s holds flow f as the automaton describes it, and replies find it.
  ghost predicate Mirrors(e: Env, t: Table, f: NatFlow, s: nat, life: Life)
    requires Shaped(t) && life.Alive?
  {
    && s < |t.slots|
    && SameFlow(f, t.slots[s]) && InLife(t.slots[s], life)
    && Reaches(e, t, ByTuple(TupleOf(f)), s)
  }

  predicate InLife(g: NatFlow, life: Life) {
    && Open(g) && life.Alive?
    && g.lastSeenMs == life.lastSeen && g.finForward == life.finForward && g.finReverse == life.finReverse
  }

  // ---- one packet ----

  // What becomes of slot s: stamped and torn down if the packet is for it, untouched otherwise.
  predicate Tracks(g: NatFlow, g': NatFlow, hit: bool, dir: Direction, flags: nat, now: Millis) {
    if !hit then g' == g
    else if Closes(g, dir, flags) then g'.reaped
    else g' == NoteFin(g.(lastSeenMs := now), dir, flags)
  }

  lemma LookupTracks(e: Env, t: Table, q: Query, s: nat, now: Millis)
    requires TableInv(e, t) && s < |t.slots| && LiveAt(e, t.slots[s], now)
    ensures var r := Lookup(e, t, q, now);
      r.table.slots[s] == if r.slot == Some(s) then t.slots[s].(lastSeenMs := now) else t.slots[s]
  {
    LookupMeets(e, t, q, now);
    var r := Lookup(e, t, q, now);
    if r.slot != Some(s) {
      assert AgedSlot(e, t.slots[s], r.table.slots[s], now);
    }
  }

  lemma TeardownTracks(st: Lb, x: nat, dir: Direction, flags: nat, s: nat, g: NatFlow, now: Millis)
    requires LbShaped(st) && x < |st.table.slots| && s < |st.table.slots| && Open(g)
    requires st.table.slots[s] == if x == s then g.(lastSeenMs := now) else g
    ensures Tracks(g, MaybeTeardown(st, x, dir, flags).table.slots[s], x == s, dir, flags, now)
  {
  }

  lemma ForwardTracks(e: Env, st: Lb, meta: PacketMeta, pool: Pool, f: NatFlow, s: nat, now: Millis)
    requires Core(e, st) && Fits(pool) && pool.active != [] && Stands(e, st.table, f, s, now, false)
    requires LbShaped(st.(table := Lookup(e, st.table, ByKey(KeyOf(meta)), now).table))
    ensures var r := HandleForward(e, st, meta, pool, now);
      && s < |r.st.table.slots|
      && Tracks(st.table.slots[s], r.st.table.slots[s], KeyOf(meta) == f.fwdKey, Forward, meta.tcpFlags, now)
  {
    var q := ByKey(KeyOf(meta));
    var found := Lookup(e, st.table, q, now);
    var st1 := st.(table := found.table);
    LookupTracks(e, st.table, q, s, now);
    LookupForwardMeets(e, st.table, KeyOf(meta), now);
    LookupMeets(e, st.table, q, now);
    if found.slot.Some? {
      assert found.slot == Some(s) <==> KeyOf(meta) == f.fwdKey;
      TeardownTracks(st1, found.slot.value, Forward, meta.tcpFlags, s, st.table.slots[s], now);
    } else {
      CreateFlowLeaves(e, st1, meta, pool, s, now);
      var flow := CreateFlow(e, st1, meta, pool, now);
      if flow.result.Some? {
        TeardownTracks(flow.st, flow.result.value, Forward, meta.tcpFlags, s, st.table.slots[s], now);
      }
    }
  }

  lemma CreateFlowLeaves(e: Env, st: Lb, meta: PacketMeta, pool: Pool, s: nat, now: Millis)
    requires LbShaped(st) && Fits(pool) && pool.active != [] && s < |st.table.slots|
    requires LiveAt(e, st.table.slots[s], now)
    ensures var r := CreateFlow(e, st, meta, pool, now);
      r.st.table.slots[s] == st.table.slots[s] && r.result != Some(s)
  {
    var r := CreateFlow(e, st, meta, pool, now);
    if r.result.Some? {
      NewSlotWasNotLive(e, st, meta, pool, now);
    }
  }

  // A reply that finds the entry is translated by it and stamps it or tears it down.
  lemma ReverseServes(e: Env, st: Lb, meta: PacketMeta, f: NatFlow, s: nat, now: Millis)
    requires Core(e, st) && Stands(e, st.table, f, s, now, false)
    requires LbShaped(st.(table := Lookup(e, st.table, ByTuple(ReplyTuple(meta)), now).table))
    ensures var r := HandleReverse(e, st, meta, now);
      var hit := Lookup(e, st.table, ByTuple(ReplyTuple(meta)), now).slot == Some(s);
      && (hit ==> ReplyTuple(meta) == TupleOf(f) && r.result == Some(TranslateReverse(meta, f)))
      && s < |r.st.table.slots| && Tracks(st.table.slots[s], r.st.table.slots[s], hit, Reverse, meta.tcpFlags, now)
  {
    var q := ByTuple(ReplyTuple(meta));
    var found := Lookup(e, st.table, q, now);
    LookupTracks(e, st.table, q, s, now);
    LookupMeets(e, st.table, q, now);
    if found.slot.Some? {
      TeardownTracks(st.(table := found.table), found.slot.value, Reverse, meta.tcpFlags, s, st.table.slots[s], now);
    }
  }

  lemma ReverseTracks(e: Env, st: Lb, meta: PacketMeta, f: NatFlow, s: nat, now: Millis)
    requires Core(e, st) && Stands(e, st.table, f, s, now, true) && TuplesUnique(st.table)
    requires LbShaped(st.(table := Lookup(e, st.table, ByTuple(ReplyTuple(meta)), now).table))
    ensures var r := HandleReverse(e, st, meta, now);
      && s < |r.st.table.slots|
      && Tracks(st.table.slots[s], r.st.table.slots[s], ReplyTuple(meta) == TupleOf(f), Reverse, meta.tcpFlags, now)
  {
    var q := ByTuple(ReplyTuple(meta));
    var found := Lookup(e, st.table, q, now);
    LookupTracks(e, st.table, q, s, now);
    LookupMeets(e, st.table, q, now);
    if found.slot.Some? {
      assert found.slot == Some(s) <==> ReplyTuple(meta) == TupleOf(f);
      TeardownTracks(st.(table := found.table), found.slot.value, Reverse, meta.tcpFlags, s, st.table.slots[s], now);
    }
  }

  lemma StepTracks(e: Env, st: Lb, ev: Event, f: NatFlow, s: nat)
    requires Core(e, st) && Sound(ev) && Stands(e, st.table, f, s, ev.now, true) && TuplesUnique(st.table)
    ensures var r := Step(e, st, ev);
      && s < |r.st.table.slots|
      && Tracks(st.table.slots[s], r.st.table.slots[s], Hits(ev, f), ev.meta.dir, ev.meta.tcpFlags, ev.now)
  {
    if Active(ev) {
      if ev.meta.dir.Forward? {
        LookupShaped(e, st, ByKey(KeyOf(ev.meta)), ev.now);
        ForwardTracks(e, st, ev.meta, ev.pool.value, f, s, ev.now);
      } else {
        LookupShaped(e, st, ByTuple(ReplyTuple(ev.meta)), ev.now);
        ReverseTracks(e, st, ev.meta, f, s, ev.now);
      }
    }
  }

  lemma TracksLife(e: Env, f: NatFlow, g: NatFlow, g': NatFlow, life: Life, ev: Event)
    requires InLife(g, life) && !TimedOut(e, life, ev.now)
    requires Tracks(g, g', Hits(ev, f), ev.meta.dir, ev.meta.tcpFlags, ev.now)
    ensures var life' := LifeStep(e, f, life, ev);
      if life'.Alive? then InLife(g', life') else g'.reaped
  {
  }

  lemma MirrorsNext(e: Env, t: Table, u: Table, ev: Event, f: NatFlow, s: nat, life: Life)
    requires Shaped(t) && Shaped(u) && life.Alive? && Mirrors(e, t, f, s, life) && !TimedOut(e, life, ev.now)
    requires s < |u.slots| && (u.slots[s].reaped || Stands(e, u, f, s, ev.now, true))
    requires Tracks(t.slots[s], u.slots[s], Hits(ev, f), ev.meta.dir, ev.meta.tcpFlags, ev.now)
    ensures var life' := LifeStep(e, f, life, ev);
      if life'.Alive? then Mirrors(e, u, f, s, life') else u.slots[s].reaped
  {
    TracksLife(e, f, t.slots[s], u.slots[s], life, ev);
  }

  lemma MirrorsStands(e: Env, t: Table, f: NatFlow, s: nat, life: Life, now: Millis)
    requires Shaped(t) && life.Alive? && Mirrors(e, t, f, s, life) && !TimedOut(e, life, now)
    ensures Stands(e, t, f, s, now, true)
  {
  }

  // Table and automaton move together; a packet that ends the flow leaves its entry reaped.
  lemma StepMirrors(e: Env, st: Lb, ev: Event, f: NatFlow, s: nat, life: Life)
    requires Core(e, st) && Sound(ev) && TuplesUnique(st.table) && life.Alive? && Mirrors(e, st.table, f, s, life)
    ensures var r := Step(e, st, ev); var life' := LifeStep(e, f, life, ev);
      && (life'.Alive? ==> Mirrors(e, r.st.table, f, s, life'))
      && (life'.Ended? && !TimedOut(e, life, ev.now) ==> s < |r.st.table.slots| && r.st.table.slots[s].reaped)
  {
    if !TimedOut(e, life, ev.now) {
      MirrorsStands(e, st.table, f, s, life, ev.now);
      StepStands(e, st, ev, f, s, true);
      StepTracks(e, st, ev, f, s);
      MirrorsNext(e, st.table, Step(e, st, ev).st.table, ev, f, s, life);
    }
  }
}
