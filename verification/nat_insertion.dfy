// What an insertion does to the table, to the probes and to the reverse index.
module NatInsertion {
  import opened Net
  import opened NatSpec
  import opened NatInvariants

  // ---- the victim ----

  lemma {:induction false} FindVictimFound(e: Env, t: Table, key: FlowKey, now: Millis, i: nat) returns (k: nat)
    requires Shaped(t) && i <= |t.slots| && Unbroken(e, t, ByKey(key), i)
    requires FindVictim(e, t, key, now, i).Some?
    ensures var s := FindVictim(e, t, key, now, i).value;
      && !LiveAt(e, t.slots[s], now) && k < |t.slots|
      && Pos(Home(e.hash, key, |t.slots|), k, |t.slots|) == s && Unbroken(e, t, ByKey(key), k)
    decreases |t.slots| - i
  {
    var s := Pos(Home(e.hash, key, |t.slots|), i, |t.slots|);
    if !t.slots[s].occupied || Expired(e, t.slots[s], now) {
      k := i;
    } else {
      assert Candidate(e, t, ByKey(key), i).Some?;
      k := FindVictimFound(e, t, key, now, i + 1);
    }
  }

  lemma {:induction false} FindVictimNone(e: Env, t: Table, key: FlowKey, now: Millis, i: nat, s: nat)
    requires Shaped(t) && i <= |t.slots| && s < |t.slots|
    requires i <= Dist(Home(e.hash, key, |t.slots|), s, |t.slots|)
    requires FindVictim(e, t, key, now, i).None?
    ensures LiveAt(e, t.slots[s], now)
    decreases |t.slots| - i
  {
    if i < Dist(Home(e.hash, key, |t.slots|), s, |t.slots|) {
      FindVictimNone(e, t, key, now, i + 1, s);
    }
  }

  // ---- the reverse cell ----

  lemma {:induction false} FindCellFound(e: Env, t: Table, tuple: RevTuple, now: Millis, i: nat) returns (k: nat)
    requires Shaped(t) && i <= |t.slots| && Unbroken(e, t, ByTuple(tuple), i)
    requires FindCell(e, t, tuple, now, i).Some?
    ensures var c := FindCell(e, t, tuple, now, i).value;
      && Reusable(e, t, c, now) && k < |t.slots|
      && Pos(Home(e.hash, RevKey(tuple), |t.slots|), k, |t.slots|) == c && Unbroken(e, t, ByTuple(tuple), k)
    decreases |t.slots| - i
  {
    var c := Pos(Home(e.hash, RevKey(tuple), |t.slots|), i, |t.slots|);
    if Reusable(e, t, c, now) {
      k := i;
    } else {
      assert Candidate(e, t, ByTuple(tuple), i).Some?;
      k := FindCellFound(e, t, tuple, now, i + 1);
    }
  }

  lemma {:induction false} FindCellNone(e: Env, t: Table, tuple: RevTuple, now: Millis, i: nat, c: nat)
    requires Shaped(t) && i <= |t.slots| && c < |t.rev|
    requires i <= Dist(Home(e.hash, RevKey(tuple), |t.slots|), c, |t.slots|)
    requires FindCell(e, t, tuple, now, i).None?
    ensures !Reusable(e, t, c, now)
    decreases |t.slots| - i
  {
    if i < Dist(Home(e.hash, RevKey(tuple), |t.slots|), c, |t.slots|) {
      FindCellNone(e, t, tuple, now, i + 1, c);
    }
  }

  // A cell is stored exactly when one may be taken over.
  lemma FindCellExact(e: Env, t: Table, tuple: RevTuple, now: Millis)
    requires Shaped(t)
    ensures FindCell(e, t, tuple, now, 0).Some? <==> exists c: nat :: c < |t.rev| && Reusable(e, t, c, now)
  {
    if FindCell(e, t, tuple, now, 0).Some? {
      var k := FindCellFound(e, t, tuple, now, 0);
      assert Reusable(e, t, FindCell(e, t, tuple, now, 0).value, now);
    } else {
      forall c: nat | c < |t.rev| ensures !Reusable(e, t, c, now) {
        FindCellNone(e, t, tuple, now, 0, c);
      }
    }
  }

  // ---- growth: more slots occupied and more cells in use never break a probe ----

  ghost predicate Grown(t: Table, u: Table) {
    && |u.slots| == |t.slots| && |u.rev| == |t.rev|
    && (forall s: nat | s < |t.slots| && t.slots[s].occupied :: u.slots[s].occupied)
    && (forall c: nat | c < |t.rev| && t.rev[c] != 0 :: u.rev[c] != 0)
  }

  lemma GrownUnbroken(e: Env, t: Table, u: Table, q: Query, n: nat)
    requires Shaped(t) && Shaped(u) && Grown(t, u) && n <= |t.slots| && Unbroken(e, t, q, n)
    ensures Unbroken(e, u, q, n)
  {
    forall j: nat | j < n ensures Candidate(e, u, q, j).Some? {
      assert Candidate(e, t, q, j).Some?;
    }
  }

  lemma GrownForward(e: Env, t: Table, u: Table, key: FlowKey, s: nat)
    requires Shaped(t) && Shaped(u) && Grown(t, u) && Reaches(e, t, ByKey(key), s)
    ensures Reaches(e, u, ByKey(key), s)
  {
    var k: nat :| ReachesAt(e, t, ByKey(key), s, k);
    GrownUnbroken(e, t, u, ByKey(key), k);
    assert ReachesAt(e, u, ByKey(key), s, k);
  }

  lemma GrownReverse(e: Env, t: Table, u: Table, tuple: RevTuple, s: nat)
    requires Shaped(t) && Shaped(u) && Grown(t, u) && Reaches(e, t, ByTuple(tuple), s)
    requires forall c: nat | c < |t.rev| && t.rev[c] == s + 1 :: u.rev[c] == s + 1
    ensures Reaches(e, u, ByTuple(tuple), s)
  {
    var k: nat :| ReachesAt(e, t, ByTuple(tuple), s, k);
    GrownUnbroken(e, t, u, ByTuple(tuple), k);
    assert ReachesAt(e, u, ByTuple(tuple), s, k);
  }

  // ---- placing an entry ----

  ghost predicate NoneOpen(t: Table, key: FlowKey) {
    forall s: nat | s < |t.slots| && t.slots[s].fwdKey == key :: !Open(t.slots[s])
  }

  lemma PlaceHonest(t: Table, s: nat, flow: NatFlow, now: Millis)
    requires Honest(t) && s < |t.slots| && !flow.reaped
    ensures Honest(PlaceAt(t, s, flow, now))
  {
    CountOpenUpdate(t.slots, s, flow.(occupied := true, lastSeenMs := now));
  }

  lemma PlaceKeepsUnique(t: Table, s: nat, flow: NatFlow, now: Millis)
    requires KeysUnique(t) && NoneOpen(t, flow.fwdKey) && s < |t.slots|
    ensures KeysUnique(PlaceAt(t, s, flow, now))
  {
  }

  lemma PlaceKeepsChained(e: Env, t: Table, s: nat, flow: NatFlow, now: Millis, k: nat)
    requires Shaped(t) && Chained(e, t) && s < |t.slots| && k < |t.slots|
    requires Pos(Home(e.hash, flow.fwdKey, |t.slots|), k, |t.slots|) == s && Unbroken(e, t, ByKey(flow.fwdKey), k)
    ensures Shaped(PlaceAt(t, s, flow, now)) && Chained(e, PlaceAt(t, s, flow, now))
  {
    var u := PlaceAt(t, s, flow, now);
    forall x: nat | x < |u.slots| && u.slots[x].occupied ensures Reaches(e, u, ByKey(u.slots[x].fwdKey), x) {
      if x == s {
        GrownUnbroken(e, t, u, ByKey(flow.fwdKey), k);
        assert ReachesAt(e, u, ByKey(flow.fwdKey), s, k);
      } else {
        assert u.slots[x] == t.slots[x];
        GrownForward(e, t, u, t.slots[x].fwdKey, x);
      }
    }
  }

  lemma PlaceKeepsRev(t: Table, s: nat, flow: NatFlow, now: Millis)
    requires Shaped(t) && RevOccupied(t) && s < |t.slots|
    ensures Shaped(PlaceAt(t, s, flow, now)) && RevOccupied(PlaceAt(t, s, flow, now))
  {
  }

  lemma PlaceKeeps(e: Env, t: Table, flow: NatFlow, now: Millis)
    requires TableInv(e, t) && NoneOpen(t, flow.fwdKey) && !flow.reaped
    requires FindVictim(e, t, flow.fwdKey, now, 0).Some?
    ensures TableInv(e, PlaceAt(t, FindVictim(e, t, flow.fwdKey, now, 0).value, flow, now))
  {
    var s := FindVictim(e, t, flow.fwdKey, now, 0).value;
    var k := FindVictimFound(e, t, flow.fwdKey, now, 0);
    PlaceHonest(t, s, flow, now);
    PlaceKeepsUnique(t, s, flow, now);
    PlaceKeepsRev(t, s, flow, now);
    PlaceKeepsChained(e, t, s, flow, now, k);
  }

  // ---- indexing ----

  lemma IndexGrows(e: Env, t: Table, s: nat, now: Millis)
    requires Shaped(t) && s < |t.slots|
    ensures Grown(t, IndexReverse(e, t, s, now)) && IndexReverse(e, t, s, now).slots == t.slots
  {
  }

  lemma IndexKeepsChained(e: Env, t: Table, s: nat, now: Millis)
    requires Shaped(t) && Chained(e, t) && s < |t.slots|
    ensures Chained(e, IndexReverse(e, t, s, now))
  {
    var u := IndexReverse(e, t, s, now);
    IndexGrows(e, t, s, now);
    forall x: nat | x < |u.slots| && u.slots[x].occupied ensures Reaches(e, u, ByKey(u.slots[x].fwdKey), x) {
      GrownForward(e, t, u, t.slots[x].fwdKey, x);
    }
  }

  lemma IndexKeepsOccupied(e: Env, t: Table, s: nat, now: Millis)
    requires Shaped(t) && RevOccupied(t) && s < |t.slots| && t.slots[s].occupied
    ensures RevOccupied(IndexReverse(e, t, s, now))
  {
  }

  lemma IndexKeeps(e: Env, t: Table, s: nat, now: Millis)
    requires TableInv(e, t) && s < |t.slots| && t.slots[s].occupied
    ensures TableInv(e, IndexReverse(e, t, s, now))
  {
    IndexKeepsChained(e, t, s, now);
    IndexKeepsOccupied(e, t, s, now);
  }

  // The entry is reachable for replies exactly when some cell could be taken over, or an
  // old cell of the same slot already names it.
  lemma IndexReaches(e: Env, t: Table, s: nat, now: Millis)
    requires Shaped(t) && s < |t.slots| && LiveAt(e, t.slots[s], now)
    ensures Reaches(e, IndexReverse(e, t, s, now), ByTuple(TupleOf(t.slots[s])), s)
            <==> exists c: nat :: c < |t.rev| && (Reusable(e, t, c, now) || t.rev[c] == s + 1)
  {
    var tuple := TupleOf(t.slots[s]);
    var q := ByTuple(tuple);
    var u := IndexReverse(e, t, s, now);
    FindCellExact(e, t, tuple, now);
    if FindCell(e, t, tuple, now, 0).Some? {
      var k := FindCellFound(e, t, tuple, now, 0);
      IndexGrows(e, t, s, now);
      GrownUnbroken(e, t, u, q, k);
      assert ReachesAt(e, u, q, s, k);
    } else {
      forall c: nat | c < |t.rev| ensures t.rev[c] != 0 {
        assert !Reusable(e, t, c, now);
      }
      forall c: nat | c < |t.rev| && t.rev[c] == s + 1 ensures Reaches(e, u, q, s) {
        assert ReachesAt(e, u, q, s, Dist(Home(e.hash, RevKey(tuple), |t.slots|), c, |t.slots|));
      }
      if Reaches(e, u, q, s) {
        var k: nat :| ReachesAt(e, u, q, s, k);
        var c := Pos(Home(e.hash, RevKey(tuple), |t.slots|), k, |t.slots|);
        assert t.rev[c] == s + 1;
      }
    }
  }

  // Taking a cell over never cuts off another live entry.
  lemma IndexKeepsReach(e: Env, t: Table, s: nat, now: Millis, x: nat, tuple: RevTuple)
    requires Shaped(t) && s < |t.slots| && x < |t.slots| && LiveAt(e, t.slots[x], now)
    requires Reaches(e, t, ByTuple(tuple), x)
    ensures Reaches(e, IndexReverse(e, t, s, now), ByTuple(tuple), x)
  {
    var u := IndexReverse(e, t, s, now);
    IndexGrows(e, t, s, now);
    var c := FindCell(e, t, TupleOf(t.slots[s]), now, 0);
    if c.Some? {
      var k := FindCellFound(e, t, TupleOf(t.slots[s]), now, 0);
    }
    GrownReverse(e, t, u, tuple, x);
  }

  // ---- insertion as a whole ----

  // Which slot changes, and what its previous entry hands back.
  lemma InsertWrites(e: Env, t: Table, flow: NatFlow, now: Millis)
    requires Shaped(t)
    ensures var r := Insert(e, t, flow, now);
      && (r.slot.None? ==> r.table == t && r.evictedPort == 0)
      && (r.slot.Some? ==> var s := r.slot.value;
            && r.table.slots == t.slots[s := flow.(occupied := true, lastSeenMs := now)]
            && r.evictedPort == (if t.slots[s].occupied then t.slots[s].snatPort else 0)
            && (t.slots[s].occupied ==> r.evictedIdx == t.slots[s].backendIdx))
  {
  }

  // Insertion fails exactly when every slot is live; otherwise it overwrites one slot that was not.
  lemma InsertMeets(e: Env, t: Table, flow: NatFlow, now: Millis)
    requires TableInv(e, t) && NoneOpen(t, flow.fwdKey) && !flow.reaped
    ensures var r := Insert(e, t, flow, now);
      && TableInv(e, r.table)
      && (r.slot.None? <==> forall s: nat | s < |t.slots| :: LiveAt(e, t.slots[s], now))
      && (r.slot.None? ==> r.table == t)
      && (r.slot.Some? ==>
            && !LiveAt(e, t.slots[r.slot.value], now)
            && r.table.slots == t.slots[r.slot.value := flow.(occupied := true, lastSeenMs := now)])
  {
    var v := FindVictim(e, t, flow.fwdKey, now, 0);
    if v.Some? {
      var k := FindVictimFound(e, t, flow.fwdKey, now, 0);
      PlaceKeeps(e, t, flow, now);
      IndexKeeps(e, PlaceAt(t, v.value, flow, now), v.value, now);
      IndexGrows(e, PlaceAt(t, v.value, flow, now), v.value, now);
    } else {
      forall s: nat | s < |t.slots| ensures LiveAt(e, t.slots[s], now) {
        FindVictimNone(e, t, flow.fwdKey, now, 0, s);
      }
    }
  }

  // An insertion leaves the replies of every other live entry where they were.
  lemma InsertKeepsReach(e: Env, t: Table, flow: NatFlow, now: Millis, x: nat, tuple: RevTuple)
    requires Shaped(t) && x < |t.slots| && LiveAt(e, t.slots[x], now) && Reaches(e, t, ByTuple(tuple), x)
    ensures var r := Insert(e, t, flow, now);
      r.table.slots[x] == t.slots[x] && Reaches(e, r.table, ByTuple(tuple), x)
  {
    var v := FindVictim(e, t, flow.fwdKey, now, 0);
    if v.Some? {
      var k := FindVictimFound(e, t, flow.fwdKey, now, 0);
      var u := PlaceAt(t, v.value, flow, now);
      GrownReverse(e, t, u, tuple, x);
      IndexKeepsReach(e, u, v.value, now, x, tuple);
      IndexGrows(e, u, v.value, now);
    }
  }

  // Some reverse cell was never used or points at an entry that is no longer live.
  ghost predicate SpareCell(e: Env, t: Table, now: Millis)
    requires Shaped(t)
  {
    exists c: nat :: c < |t.rev| && Reusable(e, t, c, now)
  }

  // Placing an entry makes live again the cells that name its slot, and no others.
  lemma PlacedCells(e: Env, t: Table, s: nat, flow: NatFlow, now: Millis)
    requires Shaped(t) && s < |t.slots| && !LiveAt(e, t.slots[s], now)
    ensures var u := PlaceAt(t, s, flow, now);
      && Shaped(u)
      && (SpareCell(e, t, now) <==> exists c: nat :: c < |u.rev| && (Reusable(e, u, c, now) || u.rev[c] == s + 1))
  {
    var u := PlaceAt(t, s, flow, now);
    forall c: nat | c < |t.rev| ensures Reusable(e, t, c, now) <==> Reusable(e, u, c, now) || u.rev[c] == s + 1 {
    }
  }

  // Replies find a new entry exactly when the reverse index had a spare cell before the insertion.
  lemma InsertReaches(e: Env, t: Table, flow: NatFlow, now: Millis)
    requires Shaped(t) && !flow.reaped && Insert(e, t, flow, now).slot.Some?
    ensures var r := Insert(e, t, flow, now);
      Reaches(e, r.table, ByTuple(TupleOf(flow)), r.slot.value) <==> SpareCell(e, t, now)
  {
    var s := FindVictim(e, t, flow.fwdKey, now, 0).value;
    var k := FindVictimFound(e, t, flow.fwdKey, now, 0);
    IndexReaches(e, PlaceAt(t, s, flow, now), s, now);
    PlacedCells(e, t, s, flow, now);
  }

  // ---- how many reverse cells are in use ----

  function CountUsed(rev: seq<nat>): (n: nat)
    ensures n <= |rev|
  {
    if rev == [] then 0
    else CountUsed(rev[..|rev| - 1]) + if rev[|rev| - 1] != 0 then 1 else 0
  }

  lemma {:induction false} CountUsedUpdate(rev: seq<nat>, c: nat, ptr: nat)
    requires c < |rev|
    ensures CountUsed(rev[c := ptr]) + (if rev[c] != 0 then 1 else 0) == CountUsed(rev) + (if ptr != 0 then 1 else 0)
  {
    var n := |rev| - 1;
    if c == n {
      assert rev[c := ptr][..n] == rev[..n];
    } else {
      assert rev[c := ptr][..n] == rev[..n][c := ptr];
      CountUsedUpdate(rev[..n], c, ptr);
    }
  }

  lemma {:induction false} CountUsedFull(rev: seq<nat>)
    requires forall c: nat | c < |rev| :: rev[c] != 0
    ensures CountUsed(rev) == |rev|
  {
    if rev != [] {
      CountUsedFull(rev[..|rev| - 1]);
    }
  }

  lemma {:induction false} CountUsedNone(rev: seq<nat>)
    requires forall c: nat | c < |rev| :: rev[c] == 0
    ensures CountUsed(rev) == 0
  {
    if rev != [] {
      CountUsedNone(rev[..|rev| - 1]);
    }
  }

  // An insertion puts at most one more cell to use and none out of use.
  lemma InsertUses(e: Env, t: Table, flow: NatFlow, now: Millis)
    requires Shaped(t)
    ensures var u := Insert(e, t, flow, now).table;
      && CountUsed(u.rev) <= CountUsed(t.rev) + 1
      && |u.rev| == |t.rev| && forall c: nat | c < |t.rev| && t.rev[c] != 0 :: u.rev[c] != 0
    ensures Insert(e, t, flow, now).slot.None? ==> CountUsed(Insert(e, t, flow, now).table.rev) == CountUsed(t.rev)
  {
    var v := FindVictim(e, t, flow.fwdKey, now, 0);
    if v.Some? {
      var u := PlaceAt(t, v.value, flow, now);
      var c := FindCell(e, u, TupleOf(u.slots[v.value]), now, 0);
      if c.Some? {
        CountUsedUpdate(u.rev, c.value, v.value + 1);
      }
    }
  }

  // While fewer cells are in use than there are, one is spare.
  lemma UnusedCellSpare(e: Env, t: Table, now: Millis)
    requires Shaped(t) && CountUsed(t.rev) < |t.rev|
    ensures SpareCell(e, t, now)
  {
    if forall c: nat | c < |t.rev| :: t.rev[c] != 0 {
      CountUsedFull(t.rev);
    } else {
      var c: nat :| c < |t.rev| && t.rev[c] == 0;
      assert Reusable(e, t, c, now);
    }
  }
}
