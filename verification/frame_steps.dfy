// The moves a frame makes: filled at a node, taken out for draining, released.
module FrameSteps {
  import opened Frames

  predicate NeedsFrame(d: Store, n: nat)
    requires n < |d.pending|
  {
    d.pending[n] == [] || (LastFrame(d, n) < |d.frames| && |d.frames[LastFrame(d, n)]| == BURST)
  }

  // One packet routed to node n.
  function Deliver(d: Store, n: nat, x: Token): (d': Store)
    requires n < |d.pending|
    ensures |d'.pending| == |d.pending|
  {
    PushLast(if NeedsFrame(d, n) then AcquireFor(d, n) else d, n, x)
  }

  lemma OthersSameTrans(a: Store, b: Store, c: Store, n: nat)
    requires OthersSame(a, b, n) && OthersSame(b, c, n)
    ensures OthersSame(a, c, n)
  {
  }

  // A packet appended to full frames, or to one with room, leaves the node's frames packed.
  lemma PushPacked(frames: seq<seq<Token>>, ids: seq<nat>, x: Token)
    requires ids != [] && forall k: nat | k < |ids| :: ids[k] < |frames|
    requires forall k: nat | k + 1 < |ids| :: |frames[ids[k]]| == BURST && ids[k] != ids[|ids| - 1]
    requires |frames[ids[|ids| - 1]]| < BURST
    ensures var id := ids[|ids| - 1]; PackedList(frames[id := frames[id] + [x]], ids)
  {
  }

  lemma LastDistinct(d: Store, n: nat)
    requires Owned(d) && n < |d.pending| && d.pending[n] != []
    ensures var ids := d.pending[n]; forall k: nat | k + 1 < |ids| :: ids[k] != ids[|ids| - 1]
  {
    var ids := d.pending[n];
    PlaceOf(d, n, ids[|ids| - 1]);
    LastOnce(ids, ids[|ids| - 1]);
    forall k: nat | k + 1 < |ids| ensures ids[k] != ids[|ids| - 1] {
      assert ids[k] in ids[..|ids| - 1];
    }
  }

  // The frames a node had stay full when one more is acquired for it.
  lemma AcquireKeepsFull(d: Store, n: nat, k: nat)
    requires StoreInv(d) && n < |d.pending| && NeedsFrame(d, n) && k < |d.pending[n]|
    ensures var a := AcquireFor(d, n); d.pending[n][k] < |a.frames| && |a.frames[d.pending[n][k]]| == BURST
  {
    AcquireSafe(d);
    assert d.pending[n][k] in d.pending[n];
    assert AcquireFor(d, n).frames[d.pending[n][k]] == d.frames[d.pending[n][k]];
  }

  lemma AcquiredFull(d: Store, n: nat)
    requires StoreInv(d) && n < |d.pending| && NeedsFrame(d, n)
    ensures var a := AcquireFor(d, n); var ids := a.pending[n];
      && ids != [] && (forall k: nat | k < |ids| :: ids[k] < |a.frames|)
      && (forall k: nat | k + 1 < |ids| :: |a.frames[ids[k]]| == BURST && ids[k] != ids[|ids| - 1])
      && |a.frames[ids[|ids| - 1]]| < BURST
  {
    AcquireOwned(d, n);
    AcquiredFrame(d, n);
    var a := AcquireFor(d, n);
    LastDistinct(a, n);
    forall k: nat | k < |d.pending[n]| ensures a.pending[n][k] < |a.frames| && |a.frames[a.pending[n][k]]| == BURST {
      assert a.pending[n][k] == d.pending[n][k];
      AcquireKeepsFull(d, n, k);
    }
  }

  lemma AcquiredPacked(d: Store, n: nat, x: Token)
    requires StoreInv(d) && n < |d.pending| && NeedsFrame(d, n)
    ensures PackedList(Deliver(d, n, x).frames, Deliver(d, n, x).pending[n])
  {
    AcquiredFull(d, n);
    PushPacked(AcquireFor(d, n).frames, AcquireFor(d, n).pending[n], x);
  }

  lemma DeliverKeepsPacked(d: Store, n: nat, x: Token)
    requires StoreInv(d) && n < |d.pending|
    ensures PackedList(Deliver(d, n, x).frames, Deliver(d, n, x).pending[n])
  {
    if NeedsFrame(d, n) {
      AcquiredPacked(d, n, x);
    } else {
      LastDistinct(d, n);
      PushPacked(d.frames, d.pending[n], x);
    }
  }

  lemma PushKeepsBursts(d: Store, n: nat, x: Token)
    requires Bursts(d.frames) && n < |d.pending| && d.pending[n] != []
    requires LastFrame(d, n) < |d.frames| ==> |d.frames[LastFrame(d, n)]| < BURST
    ensures Bursts(PushLast(d, n, x).frames)
  {
  }

  lemma DeliverKeepsBursts(d: Store, n: nat, x: Token)
    requires StoreInv(d) && n < |d.pending|
    ensures Bursts(Deliver(d, n, x).frames)
  {
    if NeedsFrame(d, n) {
      AcquireMeets(d, n);
      PushKeepsBursts(AcquireFor(d, n), n, x);
    } else {
      PushKeepsBursts(d, n, x);
    }
  }

  lemma DeliverAcquires(d: Store, n: nat, x: Token)
    requires StoreInv(d) && n < |d.pending| && NeedsFrame(d, n)
    ensures var d' := Deliver(d, n, x);
      && Owned(d') && Tally(d') == |d'.frames| && OthersSame(d, d', n) && Contents(d', n) == Contents(d, n) + [x]
      && (forall m: nat | m < |d.pending| && m != n :: PackedList(d'.frames, d'.pending[m]))
      && d'.pending[n] != [] && |d'.frames| == |d.frames| + (if d.free == [] then 1 else 0)
  {
    AcquireMeets(d, n);
    var a := AcquireFor(d, n);
    PushMeets(a, n, x);
    OthersSameTrans(d, a, PushLast(a, n, x), n);
  }

  // Routing one packet to node n appends it to n's packets, disturbs no other node, keeps every
  // frame in one place, and takes a frame from the pool only when n has none with room.
  lemma DeliverMeets(d: Store, n: nat, x: Token)
    requires StoreInv(d) && n < |d.pending|
    ensures var d' := Deliver(d, n, x);
      && StoreInv(d') && OthersSame(d, d', n) && Contents(d', n) == Contents(d, n) + [x]
      && d'.pending[n] != []
      && |d'.frames| == |d.frames| + (if NeedsFrame(d, n) && d.free == [] then 1 else 0)
  {
    DeliverKeepsPacked(d, n, x);
    DeliverKeepsBursts(d, n, x);
    if NeedsFrame(d, n) {
      DeliverAcquires(d, n, x);
    } else {
      PushMeets(d, n, x);
    }
  }

  // ---- draining ----

  function TakeOut(d: Store, n: nat): Store
    requires n < |d.pending|
  {
    d.(pending := d.pending[n := []], drain := d.pending[n])
  }

  lemma TakeOutMeets(d: Store, n: nat)
    requires StoreInv(d) && n < |d.pending| && d.drain == []
    ensures var d' := TakeOut(d, n);
      && StoreInv(d') && Contents(d', n) == [] && Concat(d'.frames, d'.drain) == Contents(d, n)
      && forall m: nat | m < |d.pending| && m != n :: Contents(d', m) == Contents(d, m)
  {
    var d' := TakeOut(d, n);
    WaitingUpdate(d.pending, n, []);
    forall id: nat ensures Places(d', id) == if id < |d'.frames| then 1 else 0 {
      assert Places(d, id) == if id < |d.frames| then 1 else 0;
      TimesAllUpdate(d.pending, n, [], id);
    }
  }

  // Clears the frame and gives it back.
  function ReleaseFirst(d: Store): Store
    requires d.drain != []
  {
    var id := d.drain[0];
    Store(if id < |d.frames| then d.frames[id := []] else d.frames, d.free + [id], d.pending, d.drain[1..])
  }

  lemma ReleaseMeets(d: Store)
    requires StoreInv(d) && d.drain != []
    ensures d.drain[0] < |d.frames|
    ensures var d' := ReleaseFirst(d);
      && StoreInv(d')
      && Concat(d.frames, d.drain) == d.frames[d.drain[0]] + Concat(d'.frames, d'.drain)
      && forall m: nat | m < |d.pending| :: Contents(d', m) == Contents(d, m)
  {
    var id := d.drain[0];
    PlaceOfDrained(d, id);
    DrainInRange(d);
    var d' := ReleaseFirst(d);
    assert d.drain == [id] + d.drain[1..];
    forall x: nat ensures Places(d', x) == if x < |d'.frames| then 1 else 0 {
      assert Places(d, x) == if x < |d.frames| then 1 else 0;
      assert Times(d.drain, x) == Times([id], x) + Times(d.drain[1..], x);
      assert Times(d'.free, x) == Times(d.free, x) + Times([id], x);
    }
    forall m: nat | m < |d.pending|
      ensures Contents(d', m) == Contents(d, m) && PackedList(d'.frames, d'.pending[m])
    {
      ListUntouched(d, d'.frames, id, d.pending[m]);
    }
    FirstOnce(d.drain, id);
    ListUntouched(d, d'.frames, id, d.drain[1..]);
    ConcatFirst(d.frames, d.drain);
  }

  lemma FirstOnce(ids: seq<nat>, id: nat)
    requires ids != [] && ids[0] == id && Times(ids, id) == 1
    ensures id !in ids[1..]
  {
    assert ids == [id] + ids[1..];
    assert Times(ids, id) == Times([id], id) + Times(ids[1..], id);
    TimesPositive(ids[1..], id);
  }

  // ---- a pool that is large enough never grows ----

  lemma {:induction false} WaitingAtMost(lists: seq<seq<nat>>)
    requires forall n: nat | n < |lists| :: |lists[n]| <= 1
    ensures Waiting(lists) <= |lists|
  {
    if lists != [] {
      WaitingAtMost(lists[..|lists| - 1]);
    }
  }

  // With at most one frame waiting per node and at most one being drained, a pool of more than
  // |pending| + 1 frames has a free one.
  lemma FrameLeft(d: Store)
    requires StoreInv(d) && |d.drain| <= 1 && |d.frames| > |d.pending| + 1
    requires forall n: nat | n < |d.pending| :: |d.pending[n]| <= 1
    ensures d.free != []
  {
    WaitingAtMost(d.pending);
  }

  // ---- routing a batch ----

  // A node with less than a burst of packets has room in its last frame.
  lemma RoomLeft(d: Store, t: nat)
    requires StoreInv(d) && t < |d.pending| && |Contents(d, t)| < BURST
    ensures NeedsFrame(d, t) ==> d.pending[t] == []
  {
    var ids := d.pending[t];
    if ids != [] {
      assert |Concat(d.frames, ids)| == |Concat(d.frames, ids[..|ids| - 1])| + |d.frames[ids[|ids| - 1]]|;
    }
  }

  // From d0 to d, node t received xs; a batch that fits one frame needs no new frame in the pool.
  ghost predicate Filled(d0: Store, d: Store, t: nat, xs: seq<Token>, snug: bool)
    requires t < |d0.pending|
  {
    && StoreInv(d) && OthersSame(d0, d, t) && Contents(d, t) == Contents(d0, t) + xs
    && (if xs == [] then d == d0 else d.pending[t] != [])
    && (snug ==> |d.frames| == |d0.frames|)
  }

  lemma FilledStep(d0: Store, d: Store, t: nat, front: seq<Token>, x: Token, xs: seq<Token>, snug: bool)
    requires t < |d0.pending| && Filled(d0, d, t, front, snug) && xs == front + [x]
    requires snug ==> |Contents(d0, t)| + |front| < BURST && (d0.free != [] || d0.pending[t] != [])
    ensures Filled(d0, Deliver(d, t, x), t, xs, snug)
  {
    DeliverMeets(d, t, x);
    if snug {
      RoomLeft(d, t);
    }
    OthersSameTrans(d0, d, Deliver(d, t, x), t);
    assert Contents(d0, t) + xs == Contents(d0, t) + front + [x];
  }

  // A batch routed packet by packet.
  function FillAll(d: Store, t: nat, xs: seq<Token>): (d': Store)
    requires t < |d.pending|
    ensures |d'.pending| == |d.pending|
  {
    if xs == [] then d else Deliver(FillAll(d, t, xs[..|xs| - 1]), t, xs[|xs| - 1])
  }

  lemma {:induction false} FillAllMeets(d: Store, t: nat, xs: seq<Token>, snug: bool)
    requires StoreInv(d) && t < |d.pending|
    requires snug ==> |Contents(d, t)| + |xs| <= BURST && (d.free != [] || d.pending[t] != [])
    ensures Filled(d, FillAll(d, t, xs), t, xs, snug)
    decreases |xs|
  {
    if xs == [] {
      assert Contents(d, t) + [] == Contents(d, t);
    } else {
      var front := xs[..|xs| - 1];
      FillAllMeets(d, t, front, snug);
      assert xs == front + [xs[|xs| - 1]];
      FilledStep(d, FillAll(d, t, front), t, front, xs[|xs| - 1], xs, snug);
    }
  }

  // A batch of at most a burst brings at most one more frame.
  lemma FilledFrames(d0: Store, d: Store, t: nat, xs: seq<Token>, snug: bool)
    requires StoreInv(d0) && t < |d0.pending| && Filled(d0, d, t, xs, snug) && |xs| <= BURST
    ensures d.pending == d0.pending[t := d.pending[t]] && |d.pending[t]| <= |d0.pending[t]| + 1
  {
    PackedLength(d0.frames, d0.pending[t]);
    PackedLength(d.frames, d.pending[t]);
  }

  // With little waiting in all, no node has two frames.
  lemma OneFrameEach(d: Store, n: nat)
    requires StoreInv(d) && n < |d.pending| && |Contents(d, n)| <= BURST
    ensures |d.pending[n]| <= 1
  {
    PackedLength(d.frames, d.pending[n]);
  }
}
