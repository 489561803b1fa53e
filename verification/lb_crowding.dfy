// Where the reverse index falls short, whatever the hash: one client that returns after its entry
// expired takes one more reverse cell each time, and once its slot owns them all the next client's
// flow is left without one.
module LbCrowding {
  import opened Net
  import opened NatSpec
  import opened NatInvariants
  import opened NatInsertion
  import opened BackendPools
  import opened LbSpec
  import opened LbRuns
  import opened LbInvariants
  import opened LbFlows
  import opened LbHistory
  import opened LbTheorems
  import opened LbAdmission

  // A node, a pool, and one packet each of two clients.
  datatype Scene = Scene(e: Env, cap: nat, init: seq<Port>, pool: Pool, first: PacketMeta, second: PacketMeta)

  predicate Plain(meta: PacketMeta) {
    meta.dir.Forward? && meta.proto == PROTO_UDP && meta.tcpFlags == 0
  }

  ghost predicate Staged(x: Scene) {
    && x.e.timeoutMs + 1 < TWO32 && 2 <= x.cap && GoodPorts(x.init) && 2 <= |x.init|
    && Fits(x.pool) && x.pool.active != []
    && Plain(x.first) && Plain(x.second) && KeyOf(x.first) != KeyOf(x.second)
  }

  // ---- the run ----

  // The clock when the first client comes for the j-th time, each time just beyond the timeout.
  function Tick(e: Env, j: nat): (now: Millis)
    ensures now < TWO32
  {
    if j == 0 then 0 else (Tick(e, j - 1) + e.timeoutMs + 1) % TWO32
  }

  lemma TickGap(e: Env, j: nat)
    requires e.timeoutMs + 1 < TWO32
    ensures (Tick(e, j + 1) - Tick(e, j)) % TWO32 == e.timeoutMs + 1
  {
    Elapsed(Tick(e, j), e.timeoutMs + 1);
  }

  lemma Elapsed(seen: nat, gap: nat)
    requires seen < TWO32 && gap < TWO32
    ensures ((seen + gap) % TWO32 - seen) % TWO32 == gap
  {
    ClockReadings(seen, seen + gap);
    assert seen % TWO32 == seen;
  }

  function Visit(x: Scene, j: nat): Event {
    Event(x.first, Some(x.pool), Tick(x.e, j))
  }

  function Visits(x: Scene, k: nat): (evs: seq<Event>)
    requires Fits(x.pool)
    ensures |evs| == k && AllSound(evs) && forall j: nat | j < k :: evs[j] == Visit(x, j + 1)
  {
    if k == 0 then [] else Visits(x, k - 1) + [Visit(x, k)]
  }

  function EmptyNode(x: Scene): Lb {
    Start(x.cap, x.init)
  }

  // The slot the first client's key hashes to.
  function HomeOf(x: Scene): (s: nat)
    requires 0 < x.cap
    ensures s < x.cap
  {
    Home(x.e.hash, KeyOf(x.first), x.cap)
  }

  // ---- what every visit keeps ----

  // Only the home slot is occupied, by the first client if at all; k cells are used and name it.
  ghost predicate Crowd(x: Scene, t: Table, k: nat)
    requires 0 < x.cap
  {
    var s := HomeOf(x);
    && Shaped(t) && |t.slots| == x.cap
    && (forall i: nat | i < x.cap && i != s :: !t.slots[i].occupied)
    && (forall c: nat | c < x.cap :: t.rev[c] == 0 || t.rev[c] == s + 1)
    && CountUsed(t.rev) == k
    && (t.slots[s].occupied ==> t.slots[s].fwdKey == KeyOf(x.first))
  }

  // After k visits, the last one at Tick(k).
  ghost predicate Crowded(x: Scene, st: Lb, k: nat)
    requires 0 < x.cap
  {
    && LbInv(x.e, st, x.init) && Crowd(x, st.table, k)
    && (st.table.slots[HomeOf(x)].occupied ==>
          Open(st.table.slots[HomeOf(x)]) && st.table.slots[HomeOf(x)].lastSeenMs == Tick(x.e, k))
    && (0 < k ==> st.table.slots[HomeOf(x)].occupied)
  }

  lemma TwoPorts(init: seq<Port>)
    requires GoodPorts(init) && 2 <= |init|
    ensures init[0] != init[1]
  {
    assert init == [init[0]] + ([init[1]] + init[2..]);
    assert multiset(init)[init[0]] >= 1 + multiset([init[1]])[init[0]];
  }

  lemma HeldAtHome(x: Scene, st: Lb, k: nat, b: nat, p: Port)
    requires Staged(x) && Crowded(x, st, k) && b < |st.pools| && HeldOnce(st, b, p)
    ensures st.table.slots[HomeOf(x)].snatPort == p
  {
    var s: nat :| s < x.cap && HoldsPort(st.table.slots[s], b, p);
    assert s == HomeOf(x);
  }

  // One entry holds one port, so no free list is empty.
  lemma PortLeft(x: Scene, st: Lb, k: nat, b: nat)
    requires Staged(x) && Crowded(x, st, k) && b < MAX_BACKENDS
    ensures st.pools[b] != []
  {
    TwoPorts(x.init);
    PortFreeOrHeld(x.e, st, x.init, b, x.init[0]);
    PortFreeOrHeld(x.e, st, x.init, b, x.init[1]);
    if HeldOnce(st, b, x.init[0]) {
      HeldAtHome(x, st, k, b, x.init[0]);
    }
    if HeldOnce(st, b, x.init[1]) {
      HeldAtHome(x, st, k, b, x.init[1]);
    }
  }

  lemma HomeExpired(x: Scene, st: Lb, k: nat)
    requires Staged(x) && Crowded(x, st, k)
    ensures !LiveAt(x.e, st.table.slots[HomeOf(x)], Tick(x.e, k + 1))
  {
    TickGap(x.e, k);
    JustExpired(x.e, st.table.slots[HomeOf(x)], Tick(x.e, k), Tick(x.e, k + 1));
  }

  lemma JustExpired(e: Env, f: NatFlow, seen: Millis, now: Millis)
    requires f.occupied ==> f.lastSeenMs == seen
    requires (now - seen) % TWO32 == e.timeoutMs + 1
    ensures !LiveAt(e, f, now)
  {
  }

  lemma JustSeen(e: Env, f: NatFlow, now: Millis)
    requires Open(f) && f.lastSeenMs == now
    ensures LiveAt(e, f, now)
  {
  }

  lemma VisitOpens(x: Scene, st: Lb, k: nat)
    requires Staged(x) && Crowded(x, st, k)
    ensures Opens(x.e, st, Visit(x, k + 1))
  {
    var ev := Visit(x, k + 1);
    HomeExpired(x, st, k);
    PortLeft(x, st, k, Select(x.e.hash, x.pool, KeyOf(x.first)));
    assert NoneLive(x.e, st.table, KeyOf(x.first), ev.now);
    assert SlotToSpare(x.e, st.table, ev.now);
    OpensExactly(x.e, st, ev, x.init);
  }

  // ---- a visit, in the table ----

  // A new entry in the home slot takes an unused cell.
  lemma CrowdGrows(x: Scene, t: Table, flow: NatFlow, now: Millis, k: nat)
    requires 0 < x.cap && Crowd(x, t, k) && k < x.cap && flow.fwdKey == KeyOf(x.first) && !flow.reaped
    requires !LiveAt(x.e, t.slots[HomeOf(x)], now)
    ensures var r := Insert(x.e, t, flow, now);
      r.slot == Some(HomeOf(x)) && Crowd(x, r.table, k + 1)
      && r.table.slots[HomeOf(x)] == flow.(occupied := true, lastSeenMs := now)
  {
    HomeIsVictim(x, t, flow.fwdKey, now);
    CrowdPlaced(x, t, flow, now, k);
    UnusedTaken(x, PlaceAt(t, HomeOf(x), flow, now), now, k);
    InsertWrites(x.e, t, flow, now);
  }

  lemma HomeIsVictim(x: Scene, t: Table, key: FlowKey, now: Millis)
    requires 0 < x.cap && Shaped(t) && |t.slots| == x.cap && key == KeyOf(x.first)
    requires !LiveAt(x.e, t.slots[HomeOf(x)], now)
    ensures FindVictim(x.e, t, key, now, 0) == Some(HomeOf(x))
  {
    assert Pos(HomeOf(x), 0, x.cap) == HomeOf(x);
  }

  lemma CrowdPlaced(x: Scene, t: Table, flow: NatFlow, now: Millis, k: nat)
    requires 0 < x.cap && Crowd(x, t, k) && flow.fwdKey == KeyOf(x.first) && !flow.reaped
    ensures var u := PlaceAt(t, HomeOf(x), flow, now); Crowd(x, u, k) && LiveAt(x.e, u.slots[HomeOf(x)], now)
  {
  }

  lemma UnusedTaken(x: Scene, u: Table, now: Millis, k: nat)
    requires 0 < x.cap && Crowd(x, u, k) && k < x.cap && LiveAt(x.e, u.slots[HomeOf(x)], now)
    ensures var v := IndexReverse(x.e, u, HomeOf(x), now);
      && (forall c: nat | c < x.cap :: v.rev[c] == 0 || v.rev[c] == HomeOf(x) + 1) && CountUsed(v.rev) == k + 1
  {
    var s := HomeOf(x);
    var c := UnusedFound(x, u, now, k);
    CountUsedUpdate(u.rev, c, s + 1);
  }

  // The only cells that may be taken over are unused ones.
  lemma UnusedFound(x: Scene, u: Table, now: Millis, k: nat) returns (c: nat)
    requires 0 < x.cap && Crowd(x, u, k) && k < x.cap && LiveAt(x.e, u.slots[HomeOf(x)], now)
    ensures c < x.cap && FindCell(x.e, u, TupleOf(u.slots[HomeOf(x)]), now, 0) == Some(c) && u.rev[c] == 0
  {
    var tuple := TupleOf(u.slots[HomeOf(x)]);
    UnusedCellSpare(x.e, u, now);
    FindCellExact(x.e, u, tuple, now);
    var i := FindCellFound(x.e, u, tuple, now, 0);
    c := FindCell(x.e, u, tuple, now, 0).value;
  }

  lemma CrowdAges(x: Scene, t: Table, u: Table, now: Millis, k: nat)
    requires 0 < x.cap && Crowd(x, t, k) && Aged(x.e, t, u, now)
    ensures Crowd(x, u, k)
  {
    forall i: nat | i < x.cap
      ensures u.slots[i].occupied == t.slots[i].occupied && u.slots[i].fwdKey == t.slots[i].fwdKey
    {
      assert AgedSlot(x.e, t.slots[i], u.slots[i], now);
    }
  }

  // ---- a visit, at the node ----

  // A packet without flags leaves the entry as the lookup or the insertion left it.
  lemma NoFlags(st: Lb, s: nat)
    requires LbShaped(st) && s < |st.table.slots|
    ensures MaybeTeardown(st, s, Forward, 0) == st
  {
    assert st.table.slots[s := st.table.slots[s]] == st.table.slots;
  }

  lemma HomeReaped(x: Scene, st: Lb, k: nat)
    requires Staged(x) && Crowded(x, st, k)
    ensures var st1 := AfterMiss(x.e, st, Visit(x, k + 1));
      Crowd(x, st1.table, k) && !LiveAt(x.e, st1.table.slots[HomeOf(x)], Tick(x.e, k + 1))
  {
    var now := Tick(x.e, k + 1);
    HomeExpired(x, st, k);
    LookupMeets(x.e, st.table, ByKey(KeyOf(x.first)), now);
    LookupForwardMeets(x.e, st.table, KeyOf(x.first), now);
    CrowdAges(x, st.table, AfterMiss(x.e, st, Visit(x, k + 1)).table, now, k);
    assert AgedSlot(x.e, st.table.slots[HomeOf(x)], AfterMiss(x.e, st, Visit(x, k + 1)).table.slots[HomeOf(x)], now);
  }

  lemma VisitInserts(x: Scene, st: Lb, k: nat)
    requires Staged(x) && Crowded(x, st, k) && k < x.cap
    ensures var t := Step(x.e, st, Visit(x, k + 1)).st.table;
      Crowd(x, t, k + 1) && Open(t.slots[HomeOf(x)]) && t.slots[HomeOf(x)].lastSeenMs == Tick(x.e, k + 1)
  {
    var ev := Visit(x, k + 1);
    VisitOpens(x, st, k);
    OpensByCreating(x.e, st, ev, x.init);
    var st1 := AfterMiss(x.e, st, ev);
    var b := Select(x.e.hash, x.pool, KeyOf(x.first));
    HomeReaped(x, st, k);
    CrowdGrows(x, st1.table, NewFlow(x.first, x.pool, b, TopPort(st1, b)), ev.now, k);
    NoFlags(CreateFlow(x.e, st1, x.first, x.pool, ev.now).st, HomeOf(x));
  }

  lemma VisitCrowds(x: Scene, st: Lb, k: nat)
    requires Staged(x) && 0 < k <= x.cap && Crowded(x, st, k - 1)
    ensures Crowded(x, Step(x.e, st, Visit(x, k)).st, k)
  {
    VisitInserts(x, st, k - 1);
    StepKeeps(x.e, st, Visit(x, k), x.init);
  }

  lemma VisitsUnfold(x: Scene, k: nat)
    requires Fits(x.pool) && 0 < x.cap && 0 < k
    ensures After(x.e, EmptyNode(x), Visits(x, k))
         == Step(x.e, After(x.e, EmptyNode(x), Visits(x, k - 1)), Visit(x, k)).st
  {
    assert Visits(x, k)[..k - 1] == Visits(x, k - 1);
  }

  lemma NobodyYet(x: Scene)
    requires Staged(x)
    ensures Crowded(x, EmptyNode(x), 0)
  {
    StartInv(x.e, x.cap, x.init);
    CountUsedNone(EmptyNode(x).table.rev);
  }

  // As many visits as there are slots leave every reverse cell naming the home slot.
  lemma {:induction false} VisitsCrowd(x: Scene, k: nat)
    requires Staged(x) && k <= x.cap
    ensures Crowded(x, After(x.e, EmptyNode(x), Visits(x, k)), k)
    decreases k
  {
    if k == 0 {
      NobodyYet(x);
    } else {
      VisitsCrowd(x, k - 1);
      VisitCrowds(x, After(x.e, EmptyNode(x), Visits(x, k - 1)), k);
      VisitsUnfold(x, k);
    }
  }

  // ---- the second client ----

  lemma {:induction false} AllUsed(rev: seq<nat>, c: nat)
    requires CountUsed(rev) == |rev| && c < |rev|
    ensures rev[c] != 0
  {
    if c < |rev| - 1 {
      AllUsed(rev[..|rev| - 1], c);
    }
  }

  lemma NoSpareCell(x: Scene, st: Lb)
    requires Staged(x) && Crowded(x, st, x.cap)
    ensures !SpareCell(x.e, st.table, Tick(x.e, x.cap))
  {
    var now := Tick(x.e, x.cap);
    JustSeen(x.e, st.table.slots[HomeOf(x)], now);
    forall c: nat | c < |st.table.rev| ensures !Reusable(x.e, st.table, c, now) {
      CellTaken(x, st.table, now, c);
    }
  }

  lemma CellTaken(x: Scene, t: Table, now: Millis, c: nat)
    requires 0 < x.cap && Crowd(x, t, x.cap) && LiveAt(x.e, t.slots[HomeOf(x)], now) && c < x.cap
    ensures !Reusable(x.e, t, c, now)
  {
    AllUsed(t.rev, c);
    assert t.rev[c] == HomeOf(x) + 1;
  }

  function SecondComes(x: Scene): Event {
    Event(x.second, Some(x.pool), Tick(x.e, x.cap))
  }

  lemma NoReset(meta: PacketMeta)
    requires Plain(meta)
    ensures !HasFlag(meta.tcpFlags, TCP_RST)
  {
  }

  // The first client's entry is not the second's, and one other slot at least is free.
  lemma SecondFits(x: Scene, st: Lb, now: Millis)
    requires Staged(x) && Crowded(x, st, x.cap)
    ensures NoneLive(x.e, st.table, KeyOf(x.second), now) && SlotToSpare(x.e, st.table, now)
  {
    var other := if HomeOf(x) == 0 then 1 else 0;
    assert !LiveAt(x.e, st.table.slots[other], now);
  }

  lemma SecondOpens(x: Scene, st: Lb)
    requires Staged(x) && Crowded(x, st, x.cap)
    ensures Opens(x.e, st, SecondComes(x)) && !HasFlag(SecondComes(x).meta.tcpFlags, TCP_RST)
  {
    PortLeft(x, st, x.cap, Select(x.e.hash, x.pool, KeyOf(x.second)));
    SecondFits(x, st, SecondComes(x).now);
    NoReset(x.second);
    OpensExactly(x.e, st, SecondComes(x), x.init);
  }

  // The run: as many visits of the first client as there are slots, then the second client.
  function CrowdedRun(x: Scene): (evs: seq<Event>)
    requires Fits(x.pool)
    ensures AllSound(evs) && |evs| == x.cap + 1 && evs[..x.cap] == Visits(x, x.cap) && evs[x.cap] == SecondComes(x)
  {
    Visits(x, x.cap) + [SecondComes(x)]
  }

  lemma TuplesStayUnique(x: Scene)
    requires Staged(x) && DistinctBackends(x.pool.slots)
    ensures TuplesUnique(After(x.e, EmptyNode(x), CrowdedRun(x)).table)
  {
    var evs := CrowdedRun(x);
    forall k: nat | k < |evs| && evs[k].pool.Some? ensures Stable(x.pool.slots, evs[k].pool.value) {
      if k < x.cap {
        assert evs[k] == evs[..x.cap][k];
      }
    }
    ReverseTuplesUnique(x.e, x.cap, x.init, evs, x.pool.slots);
  }

  // Slot s holds flow f, live, and a reply to f does not find it; if no other open entry shares f's
  // tuple it finds nothing.
  ghost predicate Unfound(e: Env, t: Table, f: NatFlow, s: nat, now: Millis) {
    && Shaped(t) && s < |t.slots| && SameFlow(f, t.slots[s]) && LiveAt(e, t.slots[s], now)
    && Lookup(e, t, ByTuple(TupleOf(f)), now).slot != Some(s)
    && (TuplesUnique(t) ==> Lookup(e, t, ByTuple(TupleOf(f)), now).slot == None)
  }

  // For every hash, every timeout that can pass, every table of two slots or more, every pool and any
  // two UDP clients: the second client's packet opens a flow and is translated, the flow's entry is
  // live, and a reply to it does not find the entry; with distinct backends it finds nothing.
  lemma SecondClientUnreachable(x: Scene) returns (f: NatFlow, s: nat)
    requires Staged(x)
    ensures Verdict(x.e, EmptyNode(x), CrowdedRun(x), x.cap) == Some(TranslateForward(x.second, f))
    ensures f.fwdKey == KeyOf(x.second)
    ensures var t := After(x.e, EmptyNode(x), CrowdedRun(x)).table;
      && Unfound(x.e, t, f, s, Tick(x.e, x.cap))
      && (DistinctBackends(x.pool.slots) ==> Lookup(x.e, t, ByTuple(TupleOf(f)), Tick(x.e, x.cap)).slot == None)
  {
    VisitsCrowd(x, x.cap);
    f, s := SecondStep(x, After(x.e, EmptyNode(x), Visits(x, x.cap)));
    CrowdedRunUnfolds(x);
    if DistinctBackends(x.pool.slots) {
      TuplesStayUnique(x);
    }
  }

  lemma SecondStep(x: Scene, st: Lb) returns (f: NatFlow, s: nat)
    requires Staged(x) && Crowded(x, st, x.cap)
    ensures Step(x.e, st, SecondComes(x)).result == Some(TranslateForward(x.second, f)) && f.fwdKey == KeyOf(x.second)
    ensures Unfound(x.e, Step(x.e, st, SecondComes(x)).st.table, f, s, Tick(x.e, x.cap))
  {
    var ev := SecondComes(x);
    SecondOpens(x, st);
    NoSpareCell(x, st);
    assert LbInv(x.e, st, x.init) && Sound(ev) && ev.now == Tick(x.e, x.cap);
    f, s := OpenedUnindexed(x.e, st, ev, x.init);
  }

  lemma CrowdedRunUnfolds(x: Scene)
    requires Fits(x.pool) && 0 < x.cap
    ensures var st := After(x.e, EmptyNode(x), Visits(x, x.cap));
      && After(x.e, EmptyNode(x), CrowdedRun(x)) == Step(x.e, st, SecondComes(x)).st
      && Verdict(x.e, EmptyNode(x), CrowdedRun(x), x.cap) == Step(x.e, st, SecondComes(x)).result
  {
  }

  // A flow opened while no reverse cell is spare is live, and its replies do not find it.
  lemma OpenedUnindexed(e: Env, st: Lb, ev: Event, init: seq<Port>) returns (f: NatFlow, s: nat)
    requires LbInv(e, st, init) && Sound(ev) && Opens(e, st, ev) && !HasFlag(ev.meta.tcpFlags, TCP_RST)
    requires !SpareCell(e, st.table, ev.now)
    ensures Step(e, st, ev).result == Some(TranslateForward(ev.meta, f)) && f.fwdKey == KeyOf(ev.meta)
    ensures Unfound(e, Step(e, st, ev).st.table, f, s, ev.now)
  {
    s, f := OpeningMirrors(e, st, ev, init);
    StepKeeps(e, st, ev, init);
    var t := Step(e, st, ev).st.table;
    JustSeen(e, t.slots[s], ev.now);
    LookupMeets(e, t, ByTuple(TupleOf(f)), ev.now);
  }
}
