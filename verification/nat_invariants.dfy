// Invariants of the connection table, and what a lookup does in terms of them.
module NatInvariants {
  import opened Net
  import opened NatSpec

  // ---- reachability ----

  // The first n steps of the probe for q all look at some slot.
  predicate Unbroken(e: Env, t: Table, q: Query, n: nat)
    requires Shaped(t) && n <= |t.slots|
  {
    forall j: nat | j < n :: Candidate(e, t, q, j).Some?
  }

  // The probe for q looks at slot s in its i-th step.
  predicate ReachesAt(e: Env, t: Table, q: Query, s: nat, i: nat)
    requires Shaped(t)
  {
    i < |t.slots| && Candidate(e, t, q, i) == Some(s) && Unbroken(e, t, q, i)
  }

  ghost predicate Reaches(e: Env, t: Table, q: Query, s: nat)
    requires Shaped(t)
  {
    exists i: nat :: ReachesAt(e, t, q, s, i)
  }

  // Every entry lies on the probe of its own key.
  ghost predicate Chained(e: Env, t: Table)
    requires Shaped(t)
  {
    forall s: nat | s < |t.slots| && t.slots[s].occupied :: Reaches(e, t, ByKey(t.slots[s].fwdKey), s)
  }

  // Reverse cells only ever name occupied slots.
  predicate RevOccupied(t: Table)
    requires Shaped(t)
  {
    forall c: nat | c < |t.rev| && t.rev[c] != 0 :: t.slots[t.rev[c] - 1].occupied
  }

  // At most one open entry per forward key.
  ghost predicate KeysUnique(t: Table) {
    forall s1: nat, s2: nat | s1 < |t.slots| && s2 < |t.slots| && Open(t.slots[s1]) && Open(t.slots[s2])
                              && t.slots[s1].fwdKey == t.slots[s2].fwdKey :: s1 == s2
  }

  // ---- the size counter ----

  function CountOpen(slots: seq<NatFlow>): (n: nat)
    ensures n <= |slots|
  {
    if slots == [] then 0
    else CountOpen(slots[..|slots| - 1]) + if Open(slots[|slots| - 1]) then 1 else 0
  }

  lemma {:induction false} CountOpenUpdate(slots: seq<NatFlow>, s: nat, f: NatFlow)
    requires s < |slots|
    ensures CountOpen(slots[s := f]) + (if Open(slots[s]) then 1 else 0)
         == CountOpen(slots) + (if Open(f) then 1 else 0)
  {
    var n := |slots| - 1;
    if s == n {
      assert slots[s := f][..n] == slots[..n];
    } else {
      assert slots[s := f][..n] == slots[..n][s := f];
      CountOpenUpdate(slots[..n], s, f);
    }
  }

  lemma {:induction false} CountOpenNone(slots: seq<NatFlow>)
    requires forall s: nat | s < |slots| :: slots[s] == NO_FLOW
    ensures CountOpen(slots) == 0
  {
    if slots != [] {
      CountOpenNone(slots[..|slots| - 1]);
    }
  }

  ghost predicate Honest(t: Table) {
    t.size == CountOpen(t.slots)
  }

  ghost predicate TableInv(e: Env, t: Table) {
    && Shaped(t)
    && Chained(e, t)
    && RevOccupied(t)
    && KeysUnique(t)
    && Honest(t)
  }

  lemma EmptyTableInv(e: Env, cap: nat)
    requires 0 < cap
    ensures TableInv(e, EmptyTable(cap))
  {
    CountOpenNone(EmptyTable(cap).slots);
  }

  // ---- ageing: what a probe may do to the entries it passes ----

  // The same entry up to being marked reaped, which only happens to expired ones.
  predicate AgedSlot(e: Env, f: NatFlow, g: NatFlow, now: Millis) {
    g == f || (Expired(e, f, now) && g == f.(reaped := true))
  }

  ghost predicate Aged(e: Env, t: Table, u: Table, now: Millis) {
    && |u.slots| == |t.slots|
    && u.rev == t.rev
    && forall s: nat | s < |t.slots| :: AgedSlot(e, t.slots[s], u.slots[s], now)
  }

  lemma AgedTrans(e: Env, t: Table, u: Table, v: Table, now: Millis)
    requires Aged(e, t, u, now) && Aged(e, u, v, now)
    ensures Aged(e, t, v, now)
  {
    forall s: nat | s < |t.slots| ensures AgedSlot(e, t.slots[s], v.slots[s], now) {
      assert AgedSlot(e, t.slots[s], u.slots[s], now) && AgedSlot(e, u.slots[s], v.slots[s], now);
    }
  }

  lemma ReapAges(e: Env, t: Table, s: nat, now: Millis)
    requires Honest(t) && s < |t.slots| && Expired(e, t.slots[s], now)
    ensures Honest(ReapAt(t, s)) && Aged(e, t, ReapAt(t, s), now)
  {
    CountOpenUpdate(t.slots, s, t.slots[s].(reaped := true));
  }

  // Which slots are occupied, and the reverse cells, are all that probes depend on.
  predicate SameShape(t: Table, u: Table) {
    && |u.slots| == |t.slots|
    && u.rev == t.rev
    && forall s: nat | s < |t.slots| :: u.slots[s].occupied == t.slots[s].occupied
  }

  lemma SameCandidate(e: Env, t: Table, u: Table, q: Query, i: nat)
    requires Shaped(t) && SameShape(t, u) && i < |t.slots|
    ensures Candidate(e, u, q, i) == Candidate(e, t, q, i)
  {
  }

  lemma SameReachAt(e: Env, t: Table, u: Table, q: Query, s: nat, k: nat)
    requires Shaped(t) && SameShape(t, u) && ReachesAt(e, t, q, s, k)
    ensures ReachesAt(e, u, q, s, k)
  {
    SameCandidate(e, t, u, q, k);
    forall j: nat | j < k ensures Candidate(e, u, q, j).Some? {
      SameCandidate(e, t, u, q, j);
    }
  }

  lemma SameReach(e: Env, t: Table, u: Table, q: Query, s: nat)
    requires Shaped(t) && SameShape(t, u) && Reaches(e, t, q, s)
    ensures Reaches(e, u, q, s)
  {
    var k: nat :| ReachesAt(e, t, q, s, k);
    SameReachAt(e, t, u, q, s, k);
  }

  // Entries keep their keys and none is revived.
  predicate Weathered(f: NatFlow, g: NatFlow) {
    g.fwdKey == f.fwdKey && g.occupied == f.occupied && (Open(g) ==> Open(f))
  }

  lemma WeatheredKeysUnique(t: Table, u: Table)
    requires KeysUnique(t) && |u.slots| == |t.slots|
    requires forall s: nat | s < |t.slots| :: Weathered(t.slots[s], u.slots[s])
    ensures KeysUnique(u)
  {
    forall s1: nat, s2: nat | s1 < |u.slots| && s2 < |u.slots| && Open(u.slots[s1]) && Open(u.slots[s2])
                              && u.slots[s1].fwdKey == u.slots[s2].fwdKey
      ensures s1 == s2
    {
      assert Weathered(t.slots[s1], u.slots[s1]) && Weathered(t.slots[s2], u.slots[s2]);
    }
  }

  lemma WeatheredChained(e: Env, t: Table, u: Table)
    requires Shaped(t) && Chained(e, t) && SameShape(t, u)
    requires forall s: nat | s < |t.slots| :: Weathered(t.slots[s], u.slots[s])
    ensures Chained(e, u)
  {
    forall s: nat | s < |u.slots| && u.slots[s].occupied ensures Reaches(e, u, ByKey(u.slots[s].fwdKey), s) {
      assert Weathered(t.slots[s], u.slots[s]);
      SameReach(e, t, u, ByKey(t.slots[s].fwdKey), s);
    }
  }

  lemma WeatheredKeeps(e: Env, t: Table, u: Table)
    requires TableInv(e, t) && |u.slots| == |t.slots| && u.rev == t.rev && Honest(u)
    requires forall s: nat | s < |t.slots| :: Weathered(t.slots[s], u.slots[s])
    ensures TableInv(e, u)
  {
    assert SameShape(t, u);
    assert RevOccupied(u) by {
      forall c: nat | c < |u.rev| && u.rev[c] != 0 ensures u.slots[u.rev[c] - 1].occupied {
        assert t.slots[t.rev[c] - 1].occupied;
      }
    }
    WeatheredKeysUnique(t, u);
    WeatheredChained(e, t, u);
  }

  lemma AgedKeeps(e: Env, t: Table, u: Table, now: Millis)
    requires TableInv(e, t) && Aged(e, t, u, now) && Honest(u)
    ensures TableInv(e, u)
  {
    forall s: nat | s < |t.slots| ensures Weathered(t.slots[s], u.slots[s]) {
      assert AgedSlot(e, t.slots[s], u.slots[s], now);
    }
    WeatheredKeeps(e, t, u);
  }

  lemma TouchKeeps(e: Env, t: Table, s: nat, now: Millis)
    requires TableInv(e, t) && s < |t.slots|
    ensures TableInv(e, TouchAt(t, s, now))
  {
    CountOpenUpdate(t.slots, s, t.slots[s].(lastSeenMs := now));
    WeatheredKeeps(e, t, TouchAt(t, s, now));
  }

  // ---- lookups ----

  lemma ProbePasses(e: Env, t: Table, q: Query, now: Millis, i: nat)
    requires Shaped(t) && i < |t.slots| && Probe(e, t, q, now, i).Passed?
    ensures var u := Probe(e, t, q, now, i).table;
      Aged(e, t, u, now) && SameShape(t, u) && SameShape(u, t) && (Honest(t) ==> Honest(u))
  {
    var s := Candidate(e, t, q, i).value;
    if Expired(e, t.slots[s], now) && Honest(t) {
      ReapAges(e, t, s, now);
    }
  }

  lemma {:induction false} FindAges(e: Env, t: Table, q: Query, now: Millis, i: nat)
    requires Shaped(t) && Honest(t) && i <= |t.slots|
    ensures var r := Find(e, t, q, now, i); Honest(r.table) && Aged(e, t, r.table, now)
    decreases |t.slots| - i
  {
    if i < |t.slots| && Probe(e, t, q, now, i).Passed? {
      var u := Probe(e, t, q, now, i).table;
      ProbePasses(e, t, q, now, i);
      FindAges(e, u, q, now, i + 1);
      AgedTrans(e, t, u, Find(e, u, q, now, i + 1).table, now);
    }
  }

  // A hit is a live matching entry on the probe.
  lemma {:induction false} FindHit(e: Env, t: Table, q: Query, now: Millis, i: nat) returns (k: nat)
    requires Shaped(t) && i <= |t.slots| && Unbroken(e, t, q, i)
    requires Find(e, t, q, now, i).slot.Some?
    ensures var s := Find(e, t, q, now, i).slot.value;
      LiveAt(e, t.slots[s], now) && Matches(q, t.slots[s]) && ReachesAt(e, t, q, s, k)
    decreases |t.slots| - i
  {
    k := i;
    if Probe(e, t, q, now, i).Passed? {
      var u := Probe(e, t, q, now, i).table;
      var s := Find(e, u, q, now, i + 1).slot.value;
      ProbePasses(e, t, q, now, i);
      forall j: nat | j < i + 1 ensures Candidate(e, u, q, j).Some? {
        SameCandidate(e, t, u, q, j);
      }
      k := FindHit(e, u, q, now, i + 1);
      assert AgedSlot(e, t.slots[s], u.slots[s], now);
      SameReachAt(e, u, t, q, s, k);
    }
  }

  // Reaping never un-reaps.
  lemma {:induction false} FindReaped(e: Env, t: Table, q: Query, now: Millis, i: nat, s: nat)
    requires Shaped(t) && i <= |t.slots| && s < |t.slots| && t.slots[s].reaped
    ensures Find(e, t, q, now, i).table.slots[s].reaped
    decreases |t.slots| - i
  {
    if i < |t.slots| && Probe(e, t, q, now, i).Passed? {
      FindReaped(e, Probe(e, t, q, now, i).table, q, now, i + 1, s);
    }
  }

  // A search that finds nothing passes every candidate.
  lemma MissPasses(e: Env, t: Table, q: Query, now: Millis, i: nat)
    requires Shaped(t) && i < |t.slots| && Candidate(e, t, q, i).Some? && Find(e, t, q, now, i).slot.None?
    ensures Probe(e, t, q, now, i).Passed?
    ensures Find(e, t, q, now, i) == Find(e, Probe(e, t, q, now, i).table, q, now, i + 1)
  {
  }

  lemma PassedMatch(e: Env, t: Table, q: Query, now: Millis, i: nat, s: nat)
    requires Shaped(t) && i < |t.slots| && Candidate(e, t, q, i) == Some(s) && Probe(e, t, q, now, i).Passed?
    requires t.slots[s].occupied && Matches(q, t.slots[s])
    ensures Expired(e, t.slots[s], now) && Probe(e, t, q, now, i).table.slots[s].reaped
  {
  }

  // A miss has passed every matching entry on the probe: each had expired and is now reaped.
  lemma {:induction false} FindMiss(e: Env, t: Table, q: Query, now: Millis, i: nat, s: nat, k: nat)
    requires Shaped(t) && i <= k && s < |t.slots| && ReachesAt(e, t, q, s, k)
    requires t.slots[s].occupied && Matches(q, t.slots[s])
    requires Find(e, t, q, now, i).slot.None?
    ensures Expired(e, t.slots[s], now) && Find(e, t, q, now, i).table.slots[s].reaped
    decreases |t.slots| - i
  {
    assert Candidate(e, t, q, i).Some?;
    MissPasses(e, t, q, now, i);
    var u := Probe(e, t, q, now, i).table;
    if i == k {
      PassedMatch(e, t, q, now, i, s);
      FindReaped(e, u, q, now, i + 1, s);
    } else {
      MissGoesOn(e, t, q, now, i, s, k);
      FindMiss(e, u, q, now, i + 1, s, k);
    }
  }

  lemma MissGoesOn(e: Env, t: Table, q: Query, now: Millis, i: nat, s: nat, k: nat)
    requires Shaped(t) && i < k && s < |t.slots| && ReachesAt(e, t, q, s, k) && Probe(e, t, q, now, i).Passed?
    requires t.slots[s].occupied && Matches(q, t.slots[s])
    ensures var u := Probe(e, t, q, now, i).table;
      && ReachesAt(e, u, q, s, k) && u.slots[s].occupied && Matches(q, u.slots[s])
      && (Expired(e, u.slots[s], now) ==> Expired(e, t.slots[s], now))
  {
    var u := Probe(e, t, q, now, i).table;
    ProbePasses(e, t, q, now, i);
    assert AgedSlot(e, t.slots[s], u.slots[s], now);
    SameReachAt(e, t, u, q, s, k);
  }

  // What a lookup leaves behind: aged entries, and the entry found, if any, stamped with now.
  ghost predicate LookedUp(e: Env, t: Table, r: Search, now: Millis) {
    && |r.table.slots| == |t.slots|
    && r.table.rev == t.rev
    && (r.slot.Some? ==> r.slot.value < |t.slots| && LiveAt(e, t.slots[r.slot.value], now)
                         && r.table.slots[r.slot.value] == t.slots[r.slot.value].(lastSeenMs := now))
    && (forall s: nat | s < |t.slots| && r.slot != Some(s) :: AgedSlot(e, t.slots[s], r.table.slots[s], now))
  }

  // A lookup hits exactly when a live matching entry lies on its probe, and what it returns is one;
  // on a miss every matching entry of the probe is left reaped.
  lemma LookupMeets(e: Env, t: Table, q: Query, now: Millis)
    requires TableInv(e, t)
    ensures var r := Lookup(e, t, q, now);
      && TableInv(e, r.table) && LookedUp(e, t, r, now)
      && (r.slot.Some? ==> Matches(q, t.slots[r.slot.value]) && Reaches(e, t, q, r.slot.value))
      && (r.slot.None? ==> forall s: nat | s < |t.slots| && t.slots[s].occupied && Matches(q, t.slots[s])
        && Reaches(e, t, q, s)
                             :: Expired(e, t.slots[s], now) && r.table.slots[s].reaped)
  {
    FindAges(e, t, q, now, 0);
    var m := Find(e, t, q, now, 0);
    AgedKeeps(e, t, m.table, now);
    if m.slot.Some? {
      var k := FindHit(e, t, q, now, 0);
      assert AgedSlot(e, t.slots[m.slot.value], m.table.slots[m.slot.value], now);
      TouchKeeps(e, m.table, m.slot.value, now);
    } else {
      forall s: nat | s < |t.slots| && t.slots[s].occupied && Matches(q, t.slots[s]) && Reaches(e, t, q, s)
        ensures Expired(e, t.slots[s], now) && m.table.slots[s].reaped
      {
        var k: nat :| ReachesAt(e, t, q, s, k);
        FindMiss(e, t, q, now, 0, s, k);
      }
    }
  }

  // What a lookup does to one entry: it only ever changes the reaped mark and the time stamp.
  lemma LookedUpSlot(e: Env, t: Table, r: Search, now: Millis, s: nat)
    requires LookedUp(e, t, r, now) && s < |t.slots|
    ensures var f, g := t.slots[s], r.table.slots[s];
      && g == f.(reaped := g.reaped, lastSeenMs := g.lastSeenMs)
      && (f.reaped ==> g.reaped)
      && (LiveAt(e, f, now) ==> LiveAt(e, g, now))
  {
    if r.slot != Some(s) {
      assert AgedSlot(e, t.slots[s], r.table.slots[s], now);
    }
  }

  lemma LookedUpShape(e: Env, t: Table, r: Search, now: Millis)
    requires LookedUp(e, t, r, now)
    ensures SameShape(t, r.table)
  {
    forall s: nat | s < |t.slots| ensures r.table.slots[s].occupied == t.slots[s].occupied {
      LookedUpSlot(e, t, r, now, s);
    }
  }

  // The table refines a map from keys to live entries: for every clock value a forward lookup
  // returns slot s exactly when s holds the live entry of the key, and a miss leaves every entry
  // with the key reaped.
  lemma LookupForwardMeets(e: Env, t: Table, key: FlowKey, now: Millis)
    requires TableInv(e, t)
    ensures var r := Lookup(e, t, ByKey(key), now);
      && (forall s: nat | s < |t.slots| ::
            r.slot == Some(s) <==> LiveAt(e, t.slots[s], now) && t.slots[s].fwdKey == key)
      && (r.slot.None? ==> forall s: nat | s < |t.slots| && r.table.slots[s].occupied && r.table.slots[s].fwdKey == key
                             :: r.table.slots[s].reaped)
  {
    LookupMeets(e, t, ByKey(key), now);
    var r := Lookup(e, t, ByKey(key), now);
    forall s: nat | s < |t.slots| && t.slots[s].occupied && t.slots[s].fwdKey == key
      ensures Reaches(e, t, ByKey(key), s) && Matches(ByKey(key), t.slots[s])
    {
    }
    if r.slot.None? {
      forall s: nat | s < |t.slots| ensures AgedSlot(e, t.slots[s], r.table.slots[s], now) {
      }
    }
  }
}
