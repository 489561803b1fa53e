// Frames of packets, recycled through a pool and owned by one list at a time.
module Frames {
  const BURST: nat := 64

  datatype Edge = Edge(node: nat, out: nat)

  // A packet handle. The serial number and the trail of edges taken are history: nothing that the
  // dispatcher or a node does depends on them.
  datatype Token = Token(handle: nat, serial: nat, trail: seq<Edge>)

  // ---- who owns a frame ----

  // Frames by index, as the pool stores them; the free list; the frames waiting at each node; and
  // the frames taken from a node that are not released yet.
  datatype Store = Store(frames: seq<seq<Token>>, free: seq<nat>, pending: seq<seq<nat>>, drain: seq<nat>)

  function Times(ids: seq<nat>, id: nat): nat {
    multiset(ids)[id]
  }

  function TimesAll(lists: seq<seq<nat>>, id: nat): nat {
    if lists == [] then 0 else TimesAll(lists[..|lists| - 1], id) + Times(lists[|lists| - 1], id)
  }

  lemma {:induction false} TimesAllUpdate(lists: seq<seq<nat>>, n: nat, ids: seq<nat>, id: nat)
    requires n < |lists|
    ensures TimesAll(lists[n := ids], id) + Times(lists[n], id) == TimesAll(lists, id) + Times(ids, id)
  {
    var k := |lists| - 1;
    if n == k {
      assert lists[n := ids][..k] == lists[..k];
    } else {
      assert lists[n := ids][..k] == lists[..k][n := ids];
      TimesAllUpdate(lists[..k], n, ids, id);
    }
  }

  lemma {:induction false} TimesAllAtLeast(lists: seq<seq<nat>>, n: nat, id: nat)
    requires n < |lists|
    ensures Times(lists[n], id) <= TimesAll(lists, id)
  {
    if n < |lists| - 1 {
      TimesAllAtLeast(lists[..|lists| - 1], n, id);
    }
  }

  lemma {:induction false} TimesAllTwo(lists: seq<seq<nat>>, n: nat, m: nat, id: nat)
    requires n < m < |lists|
    ensures Times(lists[n], id) + Times(lists[m], id) <= TimesAll(lists, id)
  {
    if m < |lists| - 1 {
      TimesAllTwo(lists[..|lists| - 1], n, m, id);
    } else {
      TimesAllAtLeast(lists[..|lists| - 1], n, id);
    }
  }

  lemma TimesPositive(ids: seq<nat>, id: nat)
    ensures id in ids <==> Times(ids, id) > 0
  {
    assert id in ids <==> id in multiset(ids);
  }

  function Places(d: Store, id: nat): nat {
    Times(d.free, id) + TimesAll(d.pending, id) + Times(d.drain, id)
  }

  // Every frame of the pool is in exactly one list, exactly once.
  ghost predicate Owned(d: Store) {
    forall id: nat :: Places(d, id) == if id < |d.frames| then 1 else 0
  }

  // Frames that are free, waiting or being drained make up the pool.
  function Tally(d: Store): nat {
    |d.free| + Waiting(d.pending) + |d.drain|
  }

  function Waiting(lists: seq<seq<nat>>): nat {
    if lists == [] then 0 else Waiting(lists[..|lists| - 1]) + |lists[|lists| - 1]|
  }

  lemma {:induction false} WaitingUpdate(lists: seq<seq<nat>>, n: nat, ids: seq<nat>)
    requires n < |lists|
    ensures Waiting(lists[n := ids]) + |lists[n]| == Waiting(lists) + |ids|
  {
    var k := |lists| - 1;
    if n == k {
      assert lists[n := ids][..k] == lists[..k];
    } else {
      assert lists[n := ids][..k] == lists[..k][n := ids];
      WaitingUpdate(lists[..k], n, ids);
    }
  }

  // ---- contents ----

  function Concat(frames: seq<seq<Token>>, ids: seq<nat>): seq<Token> {
    if ids == [] then []
    else
      Concat(frames, ids[..|ids| - 1]) + FrameOf(frames, ids[|ids| - 1])
  }

  lemma {:induction false} ConcatSame(fs: seq<seq<Token>>, gs: seq<seq<Token>>, ids: seq<nat>)
    requires |fs| <= |gs| && forall k: nat | k < |ids| :: ids[k] < |fs| && gs[ids[k]] == fs[ids[k]]
    ensures Concat(fs, ids) == Concat(gs, ids)
  {
    if ids != [] {
      ConcatSame(fs, gs, ids[..|ids| - 1]);
    }
  }

  function FrameOf(frames: seq<seq<Token>>, id: nat): seq<Token> {
    if id < |frames| then frames[id] else []
  }

  lemma ConcatGrows(frames: seq<seq<Token>>, ids: seq<nat>, front: seq<nat>)
    requires ids != [] && front == ids[..|ids| - 1]
    ensures Concat(frames, ids) == Concat(frames, front) + FrameOf(frames, ids[|ids| - 1])
  {
  }

  lemma {:induction false} ConcatFirst(frames: seq<seq<Token>>, ids: seq<nat>)
    requires ids != [] && ids[0] < |frames|
    ensures Concat(frames, ids) == frames[ids[0]] + Concat(frames, ids[1..])
  {
    if |ids| == 1 {
      assert ids[..0] == [] && ids[1..] == [];
    } else {
      var n := |ids| - 1;
      var front, rest := ids[..n], ids[1..];
      ConcatFirst(frames, front);
      assert front[1..] == rest[..n - 1] && front[0] == ids[0] && rest[n - 1] == ids[n];
      ConcatGrows(frames, ids, front);
      ConcatGrows(frames, rest, rest[..n - 1]);
    }
  }

  function Contents(d: Store, n: nat): seq<Token>
    requires n < |d.pending|
  {
    Concat(d.frames, d.pending[n])
  }

  predicate Bursts(frames: seq<seq<Token>>) {
    forall id: nat | id < |frames| :: |frames[id]| <= BURST
  }

  // Frames hold at most a burst; at each node all frames but the last are full, and of several
  // frames the last is not empty.
  predicate PackedList(frames: seq<seq<Token>>, ids: seq<nat>) {
    && (forall k: nat | k < |ids| :: ids[k] < |frames| && |frames[ids[k]]| <= BURST)
    && (forall k: nat | k + 1 < |ids| :: |frames[ids[k]]| == BURST)
    && (|ids| > 1 ==> frames[ids[|ids| - 1]] != [])
  }

  lemma {:induction false} FullLength(frames: seq<seq<Token>>, ids: seq<nat>)
    requires forall k: nat | k < |ids| :: ids[k] < |frames| && |frames[ids[k]]| == BURST
    ensures |Concat(frames, ids)| == BURST * |ids|
  {
    if ids != [] {
      FullLength(frames, ids[..|ids| - 1]);
    }
  }

  // The number of frames follows from the number of packets.
  lemma PackedLength(frames: seq<seq<Token>>, ids: seq<nat>)
    requires PackedList(frames, ids)
    ensures |Concat(frames, ids)| <= BURST * |ids|
    ensures |ids| > 1 ==> BURST * (|ids| - 1) < |Concat(frames, ids)|
  {
    if ids != [] {
      FullLength(frames, ids[..|ids| - 1]);
    }
  }

  // ---- ownership and contents under the pool's operations ----

  ghost predicate StoreInv(d: Store) {
    && Owned(d)
    && Tally(d) == |d.frames|
    && Bursts(d.frames)
    && forall n: nat | n < |d.pending| :: PackedList(d.frames, d.pending[n])
  }

  lemma PlaceOf(d: Store, n: nat, id: nat)
    requires Owned(d) && n < |d.pending| && id in d.pending[n]
    ensures id < |d.frames| && id !in d.free && id !in d.drain && Times(d.pending[n], id) == 1
    ensures forall m: nat | m < |d.pending| && m != n :: id !in d.pending[m]
  {
    assert Places(d, id) == if id < |d.frames| then 1 else 0;
    TimesPositive(d.pending[n], id);
    TimesPositive(d.free, id);
    TimesPositive(d.drain, id);
    TimesAllAtLeast(d.pending, n, id);
    forall m: nat | m < |d.pending| && m != n ensures id !in d.pending[m] {
      TimesPositive(d.pending[m], id);
      TimesAllTwo(d.pending, if n < m then n else m, if n < m then m else n, id);
    }
  }

  lemma PlaceOfFree(d: Store, id: nat)
    requires Owned(d) && id in d.free
    ensures id < |d.frames| && id !in d.drain && forall m: nat | m < |d.pending| :: id !in d.pending[m]
  {
    assert Places(d, id) == if id < |d.frames| then 1 else 0;
    TimesPositive(d.free, id);
    TimesPositive(d.drain, id);
    forall m: nat | m < |d.pending| ensures id !in d.pending[m] {
      TimesPositive(d.pending[m], id);
      TimesAllAtLeast(d.pending, m, id);
    }
  }

  lemma PlaceOfDrained(d: Store, id: nat)
    requires Owned(d) && id in d.drain
    ensures id < |d.frames| && id !in d.free && Times(d.drain, id) == 1
    ensures forall m: nat | m < |d.pending| :: id !in d.pending[m]
  {
    assert Places(d, id) == if id < |d.frames| then 1 else 0;
    TimesPositive(d.free, id);
    TimesPositive(d.drain, id);
    forall m: nat | m < |d.pending| ensures id !in d.pending[m] {
      TimesPositive(d.pending[m], id);
      TimesAllAtLeast(d.pending, m, id);
    }
  }

  // The frame Acquire hands out: a recycled one, cleared, or a new one.
  function AcquiredId(d: Store): nat {
    if d.free == [] then |d.frames| else d.free[|d.free| - 1]
  }

  function AcquireFor(d: Store, n: nat): (d': Store)
    requires n < |d.pending|
  {
    var id := AcquiredId(d);
    Store(if id < |d.frames| then d.frames[id := []] else d.frames + [[]],
          if d.free == [] then [] else d.free[..|d.free| - 1],
          d.pending[n := d.pending[n] + [id]], d.drain)
  }

  function LastFrame(d: Store, n: nat): nat
    requires n < |d.pending| && d.pending[n] != []
  {
    d.pending[n][|d.pending[n]| - 1]
  }

  function PushLast(d: Store, n: nat, x: Token): (d': Store)
    requires n < |d.pending| && d.pending[n] != []
  {
    var id := LastFrame(d, n);
    if id < |d.frames| then d.(frames := d.frames[id := d.frames[id] + [x]]) else d
  }

  // The frames being drained are the same and hold the same, the first of them in particular.
  predicate DrainSame(d: Store, d': Store) {
    && d'.drain == d.drain && Concat(d'.frames, d'.drain) == Concat(d.frames, d.drain)
    && (d.drain != [] && d.drain[0] < |d.frames| ==>
          d.drain[0] < |d'.frames| && d'.frames[d.drain[0]] == d.frames[d.drain[0]])
  }

  // Everything outside node n looks the same.
  ghost predicate OthersSame(d: Store, d': Store, n: nat) {
    && |d'.pending| == |d.pending| && DrainSame(d, d')
    && (forall m: nat | m < |d.pending| && m != n :: d'.pending[m] == d.pending[m] && Contents(d', m) == Contents(d, m))
  }

  // Touching one frame changes no list that does not hold it.
  lemma ListUntouched(d: Store, gs: seq<seq<Token>>, id: nat, ids: seq<nat>)
    requires |d.frames| <= |gs| && id !in ids && (forall k: nat | k < |ids| :: ids[k] < |d.frames|)
    requires forall j: nat | j < |d.frames| && j != id :: gs[j] == d.frames[j]
    ensures Concat(gs, ids) == Concat(d.frames, ids)
    ensures PackedList(d.frames, ids) ==> PackedList(gs, ids)
  {
    forall k: nat | k < |ids| ensures gs[ids[k]] == d.frames[ids[k]] {
      assert ids[k] in ids;
    }
    ConcatSame(d.frames, gs, ids);
  }

  lemma DrainInRange(d: Store)
    requires Owned(d)
    ensures forall k: nat | k < |d.drain| :: d.drain[k] < |d.frames|
  {
    forall k: nat | k < |d.drain| ensures d.drain[k] < |d.frames| {
      PlaceOfDrained(d, d.drain[k]);
    }
  }

  lemma AcquireOwned(d: Store, n: nat)
    requires Owned(d) && n < |d.pending|
    ensures Owned(AcquireFor(d, n))
  {
    AcquireSafe(d);
    var d' := AcquireFor(d, n);
    var id := AcquiredId(d);
    if d.free != [] {
      assert d.free == d'.free + [id];
    }
    forall x: nat ensures Places(d', x) == if x < |d'.frames| then 1 else 0 {
      assert Places(d, x) == if x < |d.frames| then 1 else 0;
      TimesAllUpdate(d.pending, n, d.pending[n] + [id], x);
    }
  }

  lemma AcquireTally(d: Store, n: nat)
    requires Owned(d) && Tally(d) == |d.frames| && n < |d.pending|
    ensures Tally(AcquireFor(d, n)) == |AcquireFor(d, n).frames|
  {
    AcquireSafe(d);
    WaitingUpdate(d.pending, n, d.pending[n] + [AcquiredId(d)]);
  }

  lemma AcquireSafe(d: Store)
    requires Owned(d)
    ensures d.free != [] ==> d.free[|d.free| - 1] < |d.frames|
    ensures AcquiredId(d) !in d.drain
    ensures forall m: nat | m < |d.pending| :: AcquiredId(d) !in d.pending[m]
  {
    if d.free != [] {
      PlaceOfFree(d, AcquiredId(d));
    } else {
      var id := |d.frames|;
      assert Places(d, id) == 0;
      TimesPositive(d.drain, id);
      forall m: nat | m < |d.pending| ensures id !in d.pending[m] {
        TimesPositive(d.pending[m], id);
        TimesAllAtLeast(d.pending, m, id);
      }
    }
  }

  lemma AcquireElsewhere(d: Store, n: nat, ids: seq<nat>)
    requires Owned(d) && n < |d.pending| && AcquiredId(d) !in ids && (forall k: nat | k < |ids| :: ids[k] < |d.frames|)
    ensures Concat(AcquireFor(d, n).frames, ids) == Concat(d.frames, ids)
    ensures PackedList(d.frames, ids) ==> PackedList(AcquireFor(d, n).frames, ids)
  {
    AcquireSafe(d);
    ListUntouched(d, AcquireFor(d, n).frames, AcquiredId(d), ids);
  }

  lemma AcquireLists(d: Store, n: nat)
    requires StoreInv(d) && n < |d.pending|
    ensures var d' := AcquireFor(d, n);
      && DrainSame(d, d')
      && forall m: nat | m < |d.pending| ::
           Concat(d'.frames, d.pending[m]) == Concat(d.frames, d.pending[m]) && PackedList(d'.frames, d.pending[m])
  {
    AcquireSafe(d);
    DrainInRange(d);
    AcquireElsewhere(d, n, d.drain);
    var d' := AcquireFor(d, n);
    forall m: nat | m < |d.pending|
      ensures Concat(d'.frames, d.pending[m]) == Concat(d.frames, d.pending[m]) && PackedList(d'.frames, d.pending[m])
    {
      AcquireElsewhere(d, n, d.pending[m]);
    }
  }

  lemma AcquiredFrame(d: Store, n: nat)
    requires Owned(d) && Bursts(d.frames) && n < |d.pending|
    ensures var d', id := AcquireFor(d, n), AcquiredId(d);
      && Bursts(d'.frames) && d'.pending[n] == d.pending[n] + [id] && id < |d'.frames| && d'.frames[id] == []
  {
    AcquireSafe(d);
  }

  lemma AcquiredContents(d: Store, n: nat)
    requires StoreInv(d) && n < |d.pending|
    ensures Contents(AcquireFor(d, n), n) == Contents(d, n)
  {
    AcquireLists(d, n);
    AcquiredFrame(d, n);
    var d' := AcquireFor(d, n);
    assert d'.pending[n][..|d'.pending[n]| - 1] == d.pending[n];
    ConcatGrows(d'.frames, d'.pending[n], d.pending[n]);
    assert Concat(d.frames, d.pending[n]) + [] == Concat(d.frames, d.pending[n]);
  }

  // Acquiring a frame for a node adds an empty one at its end.
  lemma AcquireMeets(d: Store, n: nat)
    requires StoreInv(d) && n < |d.pending|
    ensures d.free != [] ==> d.free[|d.free| - 1] < |d.frames|
    ensures var d' := AcquireFor(d, n);
      && Owned(d') && Tally(d') == |d'.frames| && Bursts(d'.frames)
      && OthersSame(d, d', n) && Contents(d', n) == Contents(d, n)
      && (forall m: nat | m < |d.pending| && m != n :: PackedList(d'.frames, d'.pending[m]))
      && d'.pending[n] == d.pending[n] + [AcquiredId(d)] && AcquiredId(d) < |d'.frames|
        && d'.frames[AcquiredId(d)] == []
      && PackedList(d'.frames, d.pending[n])
  {
    AcquireSafe(d);
    AcquireOwned(d, n);
    AcquireTally(d, n);
    AcquireLists(d, n);
    AcquiredFrame(d, n);
    AcquiredContents(d, n);
  }

  // Pushing onto the last frame of a node appends to that node's packets and to no other's.
  lemma PushMeets(d: Store, n: nat, x: Token)
    requires Owned(d) && n < |d.pending| && d.pending[n] != []
    requires forall m: nat | m < |d.pending| && m != n :: PackedList(d.frames, d.pending[m])
    ensures d.pending[n][|d.pending[n]| - 1] < |d.frames|
    ensures var d' := PushLast(d, n, x);
      && Owned(d') && OthersSame(d, d', n) && Contents(d', n) == Contents(d, n) + [x]
      && (forall m: nat | m < |d.pending| && m != n :: PackedList(d'.frames, d'.pending[m]))
  {
    var ids := d.pending[n];
    var last := |ids| - 1;
    var id := ids[last];
    PlaceOf(d, n, id);
    DrainInRange(d);
    var d' := PushLast(d, n, x);
    ListUntouched(d, d'.frames, id, d.drain);
    forall m: nat | m < |d.pending| && m != n
      ensures Contents(d', m) == Contents(d, m) && PackedList(d'.frames, d'.pending[m])
    {
      ListUntouched(d, d'.frames, id, d.pending[m]);
    }
    forall x: nat ensures Places(d', x) == if x < |d'.frames| then 1 else 0 {
      assert Places(d, x) == if x < |d.frames| then 1 else 0;
    }
    LastOnce(ids, id);
    forall k: nat | k < last ensures ids[..last][k] < |d.frames| {
      PlaceOf(d, n, ids[k]);
    }
    ListUntouched(d, d'.frames, id, ids[..last]);
  }

  lemma LastOnce(ids: seq<nat>, id: nat)
    requires ids != [] && ids[|ids| - 1] == id && Times(ids, id) == 1
    ensures id !in ids[..|ids| - 1]
  {
    var front := ids[..|ids| - 1];
    assert ids == front + [id];
    TimesPositive(front, id);
  }
}
