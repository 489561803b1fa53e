// A run into starvation: as many clients as the backend has ports come once and go silent. Their
// entries expire, and when each has been looked up once more no flow is ever opened again, although
// every port could be reused.
module LbStarvation {
  import opened Net
  import opened NatSpec
  import opened NatInvariants
  import opened NatInsertion
  import opened BackendPools
  import opened LbSpec
  import opened LbRuns
  import opened LbInvariants
  import opened LbHistory
  import opened LbTheorems
  import opened LbAdmission
  import opened LbCrowding

  // A node, a pool with one active backend, and one packet of each client.
  datatype Famine = Famine(e: Env, cap: nat, init: seq<Port>, pool: Pool, metas: seq<PacketMeta>)

  ghost predicate Looming(x: Famine) {
    && x.e.timeoutMs + 1 < TWO32 && GoodPorts(x.init) && 0 < |x.init| <= x.cap
    && Fits(x.pool) && |x.pool.active| == 1
    && |x.metas| == |x.init| && (forall i: nat | i < |x.metas| :: Plain(x.metas[i]))
    && (forall i: nat, j: nat | i < j < |x.metas| :: KeyOf(x.metas[i]) != KeyOf(x.metas[j]))
  }

  function Only(x: Famine): nat
    requires |x.pool.active| == 1
  {
    x.pool.active[0]
  }

  lemma OnlyChoice(x: Famine, key: FlowKey)
    requires Looming(x)
    ensures Select(x.e.hash, x.pool, key) == Only(x) && Only(x) < MAX_BACKENDS
  {
    assert Select(x.e.hash, x.pool, key) in x.pool.active;
  }

  // Client i comes: in the first round at time 0, in the second just beyond the timeout.
  function Comes(x: Famine, i: nat, now: Millis): Event
    requires i < |x.metas|
  {
    Event(x.metas[i], Some(x.pool), now)
  }

  function Round(x: Famine, k: nat, now: Millis): (evs: seq<Event>)
    requires Fits(x.pool) && k <= |x.metas|
    ensures |evs| == k && AllSound(evs)
  {
    if k == 0 then [] else Round(x, k - 1, now) + [Comes(x, k - 1, now)]
  }

  lemma RoundUnfolds(x: Famine, st: Lb, j: nat, now: Millis)
    requires Fits(x.pool) && j < |x.metas| && LbShaped(st)
    ensures After(x.e, st, Round(x, j + 1, now)) == Step(x.e, After(x.e, st, Round(x, j, now)), Comes(x, j, now)).st
  {
    assert Round(x, j + 1, now)[..j] == Round(x, j, now);
  }

  // Some client below k has the key.
  ghost predicate Known(x: Famine, k: nat, key: FlowKey) {
    exists i: nat :: i < k && i < |x.metas| && KeyOf(x.metas[i]) == key
  }

  // ---- the first round ----

  // k clients have an entry each, seen at time 0, and k ports are gone.
  ghost predicate Filling(x: Famine, st: Lb, k: nat)
    requires Looming(x)
  {
    && LbInv(x.e, st, x.init) && |st.table.slots| == x.cap && Only(x) < |st.pools|
    && AllSeen(x, st.table.slots, k)
    && CountOpen(st.table.slots) == k && |st.pools[Only(x)]| == |x.init| - k
  }

  ghost predicate AllSeen(x: Famine, slots: seq<NatFlow>, k: nat) {
    forall s: nat | s < |slots| && slots[s].occupied :: Seen(x, slots[s], k)
  }

  ghost predicate Seen(x: Famine, f: NatFlow, k: nat) {
    Open(f) && f.lastSeenMs == 0 && Known(x, k, f.fwdKey)
  }

  lemma {:induction false} SomeClosed(slots: seq<NatFlow>) returns (s: nat)
    requires CountOpen(slots) < |slots|
    ensures s < |slots| && !Open(slots[s])
  {
    s := |slots| - 1;
    if Open(slots[s]) {
      s := SomeClosed(slots[..s]);
    }
  }

  // Nobody has come with the key of client k yet.
  lemma NewKey(x: Famine, t: Table, k: nat)
    requires Looming(x) && k < |x.metas| && AllSeen(x, t.slots, k)
    ensures NoneLive(x.e, t, KeyOf(x.metas[k]), 0)
  {
    Unknown(x, k);
    forall s: nat | s < |t.slots| && t.slots[s].fwdKey == KeyOf(x.metas[k]) ensures !t.slots[s].occupied {
      assert t.slots[s].occupied ==> Seen(x, t.slots[s], k);
    }
  }

  lemma Unknown(x: Famine, k: nat)
    requires Looming(x) && k < |x.metas|
    ensures !Known(x, k, KeyOf(x.metas[k]))
  {
  }

  lemma KnownNow(x: Famine, k: nat, key: FlowKey)
    requires k < |x.metas|
    ensures Known(x, k + 1, key) <==> Known(x, k, key) || key == KeyOf(x.metas[k])
  {
  }

  lemma FirstOpens(x: Famine, st: Lb, k: nat)
    requires Looming(x) && k < |x.metas| && Filling(x, st, k)
    ensures Opens(x.e, st, Comes(x, k, 0))
  {
    var ev := Comes(x, k, 0);
    OnlyChoice(x, KeyOf(x.metas[k]));
    var s := SomeClosed(st.table.slots);
    assert !LiveAt(x.e, st.table.slots[s], 0);
    NewKey(x, st.table, k);
    OpensExactly(x.e, st, ev, x.init);
  }

  // Entries that are all live are left alone.
  lemma AgedLive(x: Famine, t: Table, u: Table, k: nat)
    requires AllSeen(x, t.slots, k) && Aged(x.e, t, u, 0)
    ensures u.slots == t.slots
  {
    forall s: nat | s < |t.slots| ensures u.slots[s] == t.slots[s] {
      assert AgedSlot(x.e, t.slots[s], u.slots[s], 0);
      if t.slots[s].occupied {
        assert Seen(x, t.slots[s], k);
        JustSeen(x.e, t.slots[s], 0);
      }
    }
  }

  lemma FirstMiss(x: Famine, st: Lb, k: nat)
    requires Looming(x) && k < |x.metas| && Filling(x, st, k)
    ensures AfterMiss(x.e, st, Comes(x, k, 0)).table.slots == st.table.slots
  {
    var key := KeyOf(x.metas[k]);
    NewKey(x, st.table, k);
    LookupForwardMeets(x.e, st.table, key, 0);
    LookupMeets(x.e, st.table, ByKey(key), 0);
    AgedLive(x, st.table, AfterMiss(x.e, st, Comes(x, k, 0)).table, k);
  }

  // What is not live was never used.
  lemma VictimUnused(x: Famine, slots: seq<NatFlow>, k: nat, s: nat)
    requires AllSeen(x, slots, k) && s < |slots| && !LiveAt(x.e, slots[s], 0)
    ensures !slots[s].occupied
  {
    if slots[s].occupied {
      assert Seen(x, slots[s], k);
      JustSeen(x.e, slots[s], 0);
      assert false;
    }
  }

  lemma OneMoreSeen(x: Famine, slots: seq<NatFlow>, k: nat, s: nat, f: NatFlow)
    requires k < |x.metas| && AllSeen(x, slots, k) && s < |slots|
    requires Open(f) && f.lastSeenMs == 0 && f.fwdKey == KeyOf(x.metas[k])
    ensures AllSeen(x, slots[s := f], k + 1)
  {
    var now := slots[s := f];
    forall i: nat | i < |now| && now[i].occupied ensures Seen(x, now[i], k + 1) {
      KnownNow(x, k, now[i].fwdKey);
      assert i != s ==> Seen(x, slots[i], k);
    }
  }

  // A new entry goes into a slot never used, so it evicts nothing.
  lemma IntoUnused(x: Famine, t: Table, k: nat, flow: NatFlow)
    requires k < |x.metas| && TableInv(x.e, t) && AllSeen(x, t.slots, k)
    requires NoneOpen(t, flow.fwdKey) && !flow.reaped && flow.fwdKey == KeyOf(x.metas[k])
    ensures var r := Insert(x.e, t, flow, 0);
      r.slot.Some? ==>
        && r.evictedPort == 0 && |r.table.slots| == |t.slots| && AllSeen(x, r.table.slots, k + 1)
        && CountOpen(r.table.slots) == CountOpen(t.slots) + 1
  {
    InsertMeets(x.e, t, flow, 0);
    InsertWrites(x.e, t, flow, 0);
    var r := Insert(x.e, t, flow, 0);
    if r.slot.Some? {
      var s, f := r.slot.value, flow.(occupied := true, lastSeenMs := 0);
      VictimUnused(x, t.slots, k, s);
      CountOpenUpdate(t.slots, s, f);
      OneMoreSeen(x, t.slots, k, s, f);
    }
  }

  // It takes a port for good.
  lemma Created(x: Famine, st: Lb, k: nat)
    requires Looming(x) && k < |x.metas| && LbInv(x.e, st, x.init) && |st.table.slots| == x.cap
    requires AllSeen(x, st.table.slots, k) && NoneOpen(st.table, KeyOf(x.metas[k]))
    requires CreateFlow(x.e, st, x.metas[k], x.pool, 0).result.Some?
    ensures var u := CreateFlow(x.e, st, x.metas[k], x.pool, 0).st;
      && AllSeen(x, u.table.slots, k + 1) && |u.table.slots| == x.cap
      && CountOpen(u.table.slots) == CountOpen(st.table.slots) + 1
      && Only(x) < |u.pools| && |u.pools[Only(x)]| == |st.pools[Only(x)]| - 1
  {
    var meta := x.metas[k];
    OnlyChoice(x, KeyOf(meta));
    IntoUnused(x, st.table, k, NewFlow(meta, x.pool, Only(x), TopPort(st, Only(x))));
  }

  lemma FirstStep(x: Famine, st: Lb, k: nat)
    requires Looming(x) && k < |x.metas| && Filling(x, st, k)
    ensures Filling(x, Step(x.e, st, Comes(x, k, 0)).st, k + 1)
  {
    var ev := Comes(x, k, 0);
    FirstOpens(x, st, k);
    FirstMiss(x, st, k);
    OpensByCreating(x.e, st, ev, x.init);
    var st1 := AfterMiss(x.e, st, ev);
    Created(x, st1, k);
    var r := CreateFlow(x.e, st1, ev.meta, x.pool, 0);
    NoFlags(r.st, r.result.value);
    StepKeeps(x.e, st, ev, x.init);
  }

  lemma {:induction false} FirstRound(x: Famine, k: nat)
    requires Looming(x) && k <= |x.metas|
    ensures Filling(x, After(x.e, Start(x.cap, x.init), Round(x, k, 0)), k)
    decreases k
  {
    if k == 0 {
      StartInv(x.e, x.cap, x.init);
      OnlyChoice(x, NO_KEY);
      CountOpenNone(Start(x.cap, x.init).table.slots);
    } else {
      var j := k - 1;
      FirstRound(x, j);
      FirstStep(x, After(x.e, Start(x.cap, x.init), Round(x, j, 0)), j);
      RoundUnfolds(x, Start(x.cap, x.init), j, 0);
    }
  }

  // ---- the second round ----

  function Late(x: Famine): Millis {
    x.e.timeoutMs + 1
  }

  // No port is free, every entry was seen at time 0, and those of the first k clients are reaped.
  ghost predicate Withering(x: Famine, st: Lb, k: nat)
    requires Looming(x)
  {
    && LbInv(x.e, st, x.init) && |st.table.slots| == x.cap && Only(x) < |st.pools| && st.pools[Only(x)] == []
    && AllReaped(x, st.table, k)
  }

  ghost predicate AllReaped(x: Famine, t: Table, k: nat) {
    forall s: nat | s < |t.slots| && t.slots[s].occupied :: Withered(x, t.slots[s], k)
  }

  ghost predicate Withered(x: Famine, f: NatFlow, k: nat) {
    f.lastSeenMs == 0 && Known(x, |x.metas|, f.fwdKey) && (Known(x, k, f.fwdKey) ==> f.reaped)
  }

  lemma LateSlot(x: Famine, f: NatFlow, g: NatFlow, k: nat)
    requires k < |x.metas| && AgedSlot(x.e, f, g, Late(x)) && g.occupied && Withered(x, f, k)
    requires g.fwdKey == KeyOf(x.metas[k]) ==> g.reaped
    ensures Withered(x, g, k + 1)
  {
    KnownNow(x, k, g.fwdKey);
  }

  // Every entry is beyond the timeout.
  lemma NoneAlive(x: Famine, t: Table, k: nat, key: FlowKey)
    requires x.e.timeoutMs + 1 < TWO32 && TableInv(x.e, t) && AllReaped(x, t, k)
    ensures Lookup(x.e, t, ByKey(key), Late(x)).slot.None?
  {
    LookupMeets(x.e, t, ByKey(key), Late(x));
    var r := Lookup(x.e, t, ByKey(key), Late(x));
    if r.slot.Some? {
      assert t.slots[r.slot.value].occupied ==> Withered(x, t.slots[r.slot.value], k);
      LateExpired(x, t.slots[r.slot.value]);
      assert false;
    }
  }

  lemma LateExpired(x: Famine, f: NatFlow)
    requires x.e.timeoutMs + 1 < TWO32 && (f.occupied ==> f.lastSeenMs == 0)
    ensures !LiveAt(x.e, f, Late(x))
  {
    assert (Late(x) - 0) % TWO32 == x.e.timeoutMs + 1;
  }

  lemma LateMiss(x: Famine, st: Lb, k: nat)
    requires Looming(x) && k < |x.metas| && Withering(x, st, k)
    ensures Lookup(x.e, st.table, ByKey(KeyOf(x.metas[k])), Late(x)).slot.None?
    ensures AllReaped(x, AfterMiss(x.e, st, Comes(x, k, Late(x))).table, k + 1)
    ensures |AfterMiss(x.e, st, Comes(x, k, Late(x))).table.slots| == x.cap
  {
    var key := KeyOf(x.metas[k]);
    NoneAlive(x, st.table, k, key);
    LookupForwardMeets(x.e, st.table, key, Late(x));
    LookupMeets(x.e, st.table, ByKey(key), Late(x));
    var u := AfterMiss(x.e, st, Comes(x, k, Late(x))).table;
    forall s: nat | s < x.cap && u.slots[s].occupied ensures Withered(x, u.slots[s], k + 1) {
      assert AgedSlot(x.e, st.table.slots[s], u.slots[s], Late(x));
      LateSlot(x, st.table.slots[s], u.slots[s], k);
    }
  }

  // Without a free port the packet is dropped; all it does is to have its key's entry reaped.
  lemma SecondStep(x: Famine, st: Lb, k: nat)
    requires Looming(x) && k < |x.metas| && Withering(x, st, k)
    ensures Withering(x, Step(x.e, st, Comes(x, k, Late(x))).st, k + 1)
  {
    var ev := Comes(x, k, Late(x));
    LateMiss(x, st, k);
    OnlyChoice(x, KeyOf(x.metas[k]));
    StepKeeps(x.e, st, ev, x.init);
  }

  lemma FilledWithers(x: Famine, st: Lb)
    requires Looming(x) && Filling(x, st, |x.metas|)
    ensures Withering(x, st, 0)
  {
    forall s: nat | s < x.cap && st.table.slots[s].occupied ensures Withered(x, st.table.slots[s], 0) {
      assert Seen(x, st.table.slots[s], |x.metas|);
    }
  }

  lemma {:induction false} SecondRound(x: Famine, st: Lb, k: nat)
    requires Looming(x) && k <= |x.metas| && Withering(x, st, 0)
    ensures Withering(x, After(x.e, st, Round(x, k, Late(x))), k)
    decreases k
  {
    if k > 0 {
      var j := k - 1;
      SecondRound(x, st, j);
      SecondStep(x, After(x.e, st, Round(x, j, Late(x))), j);
      RoundUnfolds(x, st, j, Late(x));
    }
  }

  // ---- the run ----

  function StarvingRun(x: Famine): (evs: seq<Event>)
    requires Fits(x.pool)
    ensures AllSound(evs)
  {
    Round(x, |x.metas|, 0) + Round(x, |x.metas|, Late(x))
  }

  // For every hash, and every table with at least as many slots as the backend has ports: the run
  // leaves the node starved for that backend.
  lemma Starves(x: Famine)
    requires Looming(x)
    ensures var st := After(x.e, Start(x.cap, x.init), StarvingRun(x));
      Core(x.e, st) && Starved(st, {Only(x)})
  {
    var n := |x.metas|;
    FirstRound(x, n);
    var st := After(x.e, Start(x.cap, x.init), Round(x, n, 0));
    FilledWithers(x, st);
    SecondRound(x, st, n);
    WitheredStarves(x, After(x.e, st, Round(x, n, Late(x))));
    AfterConcat(x.e, Start(x.cap, x.init), Round(x, n, 0), Round(x, n, Late(x)));
  }

  lemma WitheredStarves(x: Famine, st: Lb)
    requires Looming(x) && Withering(x, st, |x.metas|)
    ensures Core(x.e, st) && Starved(st, {Only(x)})
  {
    forall s: nat | s < |st.table.slots| ensures !Open(st.table.slots[s]) {
      assert st.table.slots[s].occupied ==> Withered(x, st.table.slots[s], |x.metas|);
    }
  }

  // From then on, as long as no other backend is enabled, every packet of every run is dropped.
  lemma {:induction false} NeverAgain(x: Famine, evs: seq<Event>)
    requires Looming(x) && AllSound(evs) && forall k: nat | k < |evs| :: Confined(evs[k], {Only(x)})
    ensures var st := After(x.e, Start(x.cap, x.init), StarvingRun(x));
      After(x.e, st, evs) == st && forall k: nat | k < |evs| :: Verdict(x.e, st, evs, k) == None
  {
    Starves(x);
    StarvedForever(x.e, After(x.e, Start(x.cap, x.init), StarvingRun(x)), evs, {Only(x)});
  }
}
