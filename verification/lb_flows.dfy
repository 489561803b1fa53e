// The life of one flow: what stays fixed while it is live, and where entries come from.
module LbFlows {
  import opened Net
  import opened NatSpec
  import opened NatInvariants
  import opened NatInsertion
  import opened BackendPools
  import opened LbSpec
  import opened LbRuns
  import opened LbInvariants

  // ---- identity ----

  // The same connection and the same backend.
  predicate SameParties(f: NatFlow, g: NatFlow) {
    && g.fwdKey == f.fwdKey && g.clientMac == f.clientMac
    && g.backendIp == f.backendIp && g.backendMac == f.backendMac
    && g.backendPort == f.backendPort && g.backendIdx == f.backendIdx
  }

  predicate SameFlow(f: NatFlow, g: NatFlow) {
    SameParties(f, g) && g.snatPort == f.snatPort
  }

  // Slot s still holds flow f, live, and replies reach it if they did before.
  ghost predicate Stands(e: Env, t: Table, f: NatFlow, s: nat, now: Millis, indexed: bool) {
    && Shaped(t) && s < |t.slots|
    && SameFlow(f, t.slots[s]) && LiveAt(e, t.slots[s], now)
    && (indexed ==> Reaches(e, t, ByTuple(TupleOf(f)), s))
  }

  lemma LookupStands(e: Env, t: Table, q: Query, f: NatFlow, s: nat, now: Millis, indexed: bool)
    requires TableInv(e, t) && Stands(e, t, f, s, now, indexed)
    ensures Stands(e, Lookup(e, t, q, now).table, f, s, now, indexed)
  {
    LookupMeets(e, t, q, now);
    var r := Lookup(e, t, q, now);
    LookedUpSlot(e, t, r, now, s);
    if indexed {
      LookedUpShape(e, t, r, now);
      SameReach(e, t, r.table, ByTuple(TupleOf(f)), s);
    }
  }

  lemma AdmitStands(e: Env, st: Lb, flow: NatFlow, f: NatFlow, s: nat, now: Millis, indexed: bool)
    requires LbShaped(st) && flow.backendIdx < MAX_BACKENDS && Stands(e, st.table, f, s, now, indexed)
    ensures Stands(e, Admit(e, st, flow, now).st.table, f, s, now, indexed)
  {
    var ins := Insert(e, st.table, flow, now);
    if indexed {
      InsertKeepsReach(e, st.table, flow, now, s, TupleOf(f));
    } else {
      InsertWrites(e, st.table, flow, now);
      if ins.slot.Some? {
        var k := FindVictimFound(e, st.table, flow.fwdKey, now, 0);
      }
    }
  }

  lemma TeardownStands(e: Env, st: Lb, x: nat, dir: Direction, flags: nat, f: NatFlow, s: nat, now: Millis,
                       indexed: bool)
    requires LbShaped(st) && x < |st.table.slots| && Stands(e, st.table, f, s, now, indexed)
    ensures var u := MaybeTeardown(st, x, dir, flags).table;
      u.slots[s].reaped || Stands(e, u, f, s, now, indexed)
    ensures MaybeTeardown(st, x, dir, flags).table.slots[s].reaped ==> x == s && Closes(st.table.slots[s], dir, flags)
  {
    var u := MaybeTeardown(st, x, dir, flags).table;
    if indexed {
      SameReach(e, st.table, u, ByTuple(TupleOf(f)), s);
    }
  }

  lemma CreateFlowStands(e: Env, st: Lb, meta: PacketMeta, pool: Pool, f: NatFlow, s: nat, now: Millis, indexed: bool)
    requires LbShaped(st) && Fits(pool) && pool.active != [] && Stands(e, st.table, f, s, now, indexed)
    ensures Stands(e, CreateFlow(e, st, meta, pool, now).st.table, f, s, now, indexed)
  {
    var b := Select(e.hash, pool, KeyOf(meta));
    if st.pools[b] != [] && TopPort(st, b) != 0 {
      AdmitStands(e, TakePort(st, b), NewFlow(meta, pool, b, TopPort(st, b)), f, s, now, indexed);
    }
  }

  // ---- one packet ----

  // The packet is addressed to flow f: by its key, or by its reply tuple.
  predicate Addresses(meta: PacketMeta, f: NatFlow) {
    if meta.dir.Forward? then KeyOf(meta) == f.fwdKey else ReplyTuple(meta) == TupleOf(f)
  }

  predicate Active(ev: Event) {
    ev.pool.Some? && ev.pool.value.active != []
  }

  // No two open entries answer to the same reply tuple.
  ghost predicate TuplesUnique(t: Table) {
    forall s1: nat, s2: nat | s1 < |t.slots| && s2 < |t.slots| && Open(t.slots[s1]) && Open(t.slots[s2])
                              && TupleOf(t.slots[s1]) == TupleOf(t.slots[s2]) :: s1 == s2
  }

  lemma ForwardStands(e: Env, st: Lb, meta: PacketMeta, pool: Pool, f: NatFlow, s: nat, now: Millis, indexed: bool)
    requires Core(e, st) && Fits(pool) && pool.active != [] && Stands(e, st.table, f, s, now, indexed)
    requires LbShaped(st.(table := Lookup(e, st.table, ByKey(KeyOf(meta)), now).table))
    ensures var r := HandleForward(e, st, meta, pool, now);
      && s < |r.st.table.slots|
      && (r.st.table.slots[s].reaped || Stands(e, r.st.table, f, s, now, indexed))
      && (r.st.table.slots[s].reaped ==> KeyOf(meta) == f.fwdKey && Closes(st.table.slots[s], Forward, meta.tcpFlags))
      && (KeyOf(meta) == f.fwdKey ==> r.result == Some(TranslateForward(meta, f)))
  {
    var q := ByKey(KeyOf(meta));
    var found := Lookup(e, st.table, q, now);
    var st1 := st.(table := found.table);
    LookupStands(e, st.table, q, f, s, now, indexed);
    LookupForwardMeets(e, st.table, KeyOf(meta), now);
    LookupMeets(e, st.table, q, now);
    if found.slot.Some? {
      TeardownStands(e, st1, found.slot.value, Forward, meta.tcpFlags, f, s, now, indexed);
    } else {
      CreateFlowStands(e, st1, meta, pool, f, s, now, indexed);
      var flow := CreateFlow(e, st1, meta, pool, now);
      if flow.result.Some? {
        NewSlotWasNotLive(e, st1, meta, pool, now);
        TeardownStands(e, flow.st, flow.result.value, Forward, meta.tcpFlags, f, s, now, indexed);
      }
    }
  }

  lemma NewSlotWasNotLive(e: Env, st: Lb, meta: PacketMeta, pool: Pool, now: Millis)
    requires LbShaped(st) && Fits(pool) && pool.active != [] && CreateFlow(e, st, meta, pool, now).result.Some?
    ensures !LiveAt(e, st.table.slots[CreateFlow(e, st, meta, pool, now).result.value], now)
  {
    var k := FindVictimFound(e, st.table, KeyOf(meta), now, 0);
  }

  lemma ReverseStands(e: Env, st: Lb, meta: PacketMeta, f: NatFlow, s: nat, now: Millis, indexed: bool)
    requires Core(e, st) && Stands(e, st.table, f, s, now, indexed)
    requires LbShaped(st.(table := Lookup(e, st.table, ByTuple(ReplyTuple(meta)), now).table))
    ensures var r := HandleReverse(e, st, meta, now);
      && s < |r.st.table.slots|
      && (r.st.table.slots[s].reaped || Stands(e, r.st.table, f, s, now, indexed))
      && (r.st.table.slots[s].reaped ==>
            ReplyTuple(meta) == TupleOf(f) && Closes(st.table.slots[s], Reverse, meta.tcpFlags))
      && ((indexed && TuplesUnique(st.table) && ReplyTuple(meta) == TupleOf(f))
          ==> r.result == Some(TranslateReverse(meta, f)))
  {
    var q := ByTuple(ReplyTuple(meta));
    var found := Lookup(e, st.table, q, now);
    LookupStands(e, st.table, q, f, s, now, indexed);
    LookupMeets(e, st.table, q, now);
    if found.slot.Some? {
      TeardownStands(e, st.(table := found.table), found.slot.value, Reverse, meta.tcpFlags, f, s, now, indexed);
    }
  }

  // A live flow survives any packet that does not close it, whoever it is for; packets addressed
  // to it are translated by it.
  lemma StepStands(e: Env, st: Lb, ev: Event, f: NatFlow, s: nat, indexed: bool)
    requires Core(e, st) && Sound(ev) && Stands(e, st.table, f, s, ev.now, indexed)
    ensures var r := Step(e, st, ev);
      && s < |r.st.table.slots|
      && (r.st.table.slots[s].reaped || Stands(e, r.st.table, f, s, ev.now, indexed))
      && (r.st.table.slots[s].reaped ==>
            Active(ev) && Addresses(ev.meta, f) && Closes(st.table.slots[s], ev.meta.dir, ev.meta.tcpFlags))
      && (Active(ev) && ev.meta.dir.Forward? && Addresses(ev.meta, f) ==>
        r.result == Some(TranslateForward(ev.meta, f)))
      && ((Active(ev) && ev.meta.dir.Reverse? && Addresses(ev.meta, f) && indexed && TuplesUnique(st.table))
          ==> r.result == Some(TranslateReverse(ev.meta, f)))
  {
    if Active(ev) {
      if ev.meta.dir.Forward? {
        LookupShaped(e, st, ByKey(KeyOf(ev.meta)), ev.now);
        ForwardStands(e, st, ev.meta, ev.pool.value, f, s, ev.now, indexed);
      } else {
        LookupShaped(e, st, ByTuple(ReplyTuple(ev.meta)), ev.now);
        ReverseStands(e, st, ev.meta, f, s, ev.now, indexed);
      }
    }
  }
}
