// The main loop: the node scheduled last is taken off the worklist and drained.
module LoopSteps {
  import opened Frames
  import opened FrameSteps
  import opened Firing
  import opened Conservation
  import opened Ordering
  import opened Scheduling
  import opened RunSteps
  import opened Stories
  import opened DrainSteps

  // ---- taking a node off the worklist ----

  predicate HasNode<W>(c: Cast<W>, s: Full<W>) {
    && Sized(c.plan, s.desk)
    && s.desk.queue != [] && s.desk.queue[|s.desk.queue| - 1] < |c.plan.routing|
  }

  function NextNode<W>(c: Cast<W>, s: Full<W>): (n: nat)
    requires HasNode(c, s)
    ensures n < |c.plan.routing|
  {
    s.desk.queue[|s.desk.queue| - 1]
  }

  function Popped<W>(c: Cast<W>, s: Full<W>): (s': Full<W>)
    requires HasNode(c, s)
    ensures Sized(c.plan, s'.desk)
  {
    var n := NextNode(c, s);
    var desk := s.desk;
    s.(desk := Desk(TakeOut(desk.d, n), desk.queue[..|desk.queue| - 1], desk.scheduled[n := false]))
  }

  lemma PopMeets<W(!new)>(c: Cast<W>, s: Full<W>, m: Machine<W>)
    requires Proper(c) && Good(c, s, m) && s.desk.queue != [] && s.desk.d.drain == []
    ensures HasNode(c, s) && m.rest == [] && s.desk.d.pending[NextNode(c, s)] != []
    ensures Good(c, Popped(c, s), Taken(m, NextNode(c, s)))
  {
    PopInStep(s.desk.queue, s.desk.scheduled, s.desk.d.pending);
    var n := NextNode(c, s);
    TakeOutMeets(s.desk.d, n);
    var s' := Popped(c, s);
    forall t: nat | t < |c.plan.routing| ensures Contents(s'.desk.d, t) == Taken(m, n).boxes[t] {
      assert Contents(s.desk.d, t) == m.boxes[t];
    }
  }

  // ---- the root goes first and never again ----

  // Only the root has a frame, which holds the seeds.
  ghost predicate RootHolds<W(!new)>(c: Cast<W>, s: Full<W>, m: Machine<W>)
    requires Proper(c) && Sized(c.plan, s.desk) && MachineFits(c.plan.routing, m)
  {
    && |s.desk.d.pending[c.root]| == 1 && AtRoot(c, Taken(m, c.root))
    && forall t: nat | t < |c.plan.routing| && t != c.root :: s.desk.d.pending[t] == []
  }

  // Frames wait only further down than the root.
  ghost predicate Below<W(!new)>(c: Cast<W>, s: Full<W>)
    requires Proper(c) && Sized(c.plan, s.desk)
  {
    forall t: nat | t < |c.plan.routing| && s.desk.d.pending[t] != [] :: c.plan.rank[c.root] < c.plan.rank[t]
  }

  ghost predicate Ready<W(!new)>(c: Cast<W>, s: Full<W>, m: Machine<W>, cur: nat)
    requires Proper(c)
  {
    && Good(c, s, m) && cur < |c.plan.routing| && Story(c, m, cur) && s.desk.d.drain == []
    && (RootHolds(c, s, m) || (Below(c, s) && Inputs(c, m)))
  }

  lemma PopReady<W(!new)>(c: Cast<W>, s: Full<W>, m: Machine<W>, cur: nat)
    requires Proper(c) && Ready(c, s, m, cur) && s.desk.queue != []
    ensures HasNode(c, s) && s.desk.d.pending[NextNode(c, s)] != []
    ensures DrainReady(c, Popped(c, s), Taken(m, NextNode(c, s)), NextNode(c, s))
  {
    PopMeets(c, s, m);
    TakenStory(c, m, cur, NextNode(c, s));
  }

  lemma DrainedBelow<W(!new)>(c: Cast<W>, s: Full<W>, m: Machine<W>, cur: nat, s': Full<W>)
    requires Proper(c) && Ready(c, s, m, cur) && HasNode(c, s) && s.desk.d.pending[NextNode(c, s)] != []
    requires Sized(c.plan, s'.desk) && Downhill(c.plan, Popped(c, s).desk, NextNode(c, s), s'.desk)
    ensures Below(c, s')
  {
    var n := NextNode(c, s);
    var before := Popped(c, s).desk.d.pending;
    forall t: nat | t < |c.plan.routing| && s'.desk.d.pending[t] != [] ensures c.plan.rank[c.root] < c.plan.rank[t] {
      assert before[t] == if t == n then [] else s.desk.d.pending[t];
    }
  }

  // A lean run finds at most one frame at each node.
  lemma PopLean<W(!new)>(c: Cast<W>, s: Full<W>, m: Machine<W>, cur: nat)
    requires Proper(c) && Ready(c, s, m, cur) && HasNode(c, s) && Single(c) && RootOnly(c)
    ensures |Popped(c, s).desk.d.drain| <= 1
  {
    var n := NextNode(c, s);
    BoxAtMostTotal(m.boxes, n);
    assert Contents(s.desk.d, n) == m.boxes[n];
    OneFrameEach(s.desk.d, n);
  }

  lemma WorkShrinks<W(!new)>(c: Cast<W>, s: Full<W>, s': Full<W>)
    requires Proper(c) && HasNode(c, s) && s.desk.d.pending[NextNode(c, s)] != [] && Sized(c.plan, s'.desk)
    requires Progress(c, Popped(c, s), s', NextNode(c, s), |Popped(c, s).desk.d.drain|)
    ensures Work(c.plan, s'.desk.d.pending) < Work(c.plan, s.desk.d.pending)
  {
    WorkEmptied(c.plan, s.desk.d.pending, NextNode(c, s));
  }

  // A lean run needs no more frames than the pool has.
  ghost predicate PoolSteady<W(!new)>(c: Cast<W>, s: Full<W>, s': Full<W>) {
    Single(c) && RootOnly(c) && |s.desk.d.frames| > |c.plan.routing| + 1 ==> |s'.desk.d.frames| == |s.desk.d.frames|
  }

  // One turn of the loop.
  ghost function Turn<W(!new)>(c: Cast<W>, s: Full<W>): (s': Full<W>)
    requires Proper(c) && HasNode(c, s)
    ensures Sized(c.plan, s'.desk)
  {
    DrainAll(c, Popped(c, s), NextNode(c, s))
  }

  ghost function TurnLog<W(!new)>(c: Cast<W>, s: Full<W>, m: Machine<W>, cur: nat): Machine<W>
    requires Proper(c) && Ready(c, s, m, cur) && s.desk.queue != []
  {
    PopReady(c, s, m, cur);
    DrainLog(c, Popped(c, s), Taken(m, NextNode(c, s)), NextNode(c, s))
  }

  // A turn keeps what is known of the run, leaves less work, and in a lean run adds no frame.
  lemma TurnMeets<W(!new)>(c: Cast<W>, s: Full<W>, m: Machine<W>, cur: nat)
    requires Proper(c) && Ready(c, s, m, cur) && s.desk.queue != []
    ensures HasNode(c, s) && Ready(c, Turn(c, s), TurnLog(c, s, m, cur), NextNode(c, s))
    ensures Work(c.plan, Turn(c, s).desk.d.pending) < Work(c.plan, s.desk.d.pending)
    ensures PoolSteady(c, s, Turn(c, s))
  {
    PopReady(c, s, m, cur);
    var n := NextNode(c, s);
    DrainAllMeets(c, Popped(c, s), Taken(m, n), n);
    WorkShrinks(c, s, Turn(c, s));
    DrainedBelow(c, s, m, cur, Turn(c, s));
    if Single(c) && RootOnly(c) {
      PopLean(c, s, m, cur);
    }
  }

  // ---- the whole loop ----

  // The state when the worklist is empty, and the history of the run. The work left bounds the
  // number of turns, so the loop ends for every acyclic graph, whatever its nodes do.
  ghost function Finish<W(!new)>(c: Cast<W>, s: Full<W>, m: Machine<W>, cur: nat): (Full<W>, Machine<W>)
    requires Proper(c) && Ready(c, s, m, cur)
    decreases Work(c.plan, s.desk.d.pending)
  {
    if s.desk.queue == [] then (s, m)
    else
      TurnMeets(c, s, m, cur);
      Finish(c, Turn(c, s), TurnLog(c, s, m, cur), NextNode(c, s))
  }

  // What is waiting when the worklist is empty: nothing.
  ghost predicate Finished<W(!new)>(c: Cast<W>, s: Full<W>)
  {
    && StoreInv(s.desk.d) && Sized(c.plan, s.desk) && s.desk.queue == [] && s.desk.d.drain == []
    && forall t: nat | t < |s.desk.d.pending| :: s.desk.d.pending[t] == []
  }

  // No packet is waiting.
  predicate Emptied<W>(m: Machine<W>) {
    m.rest == [] && forall t: nat | t < |m.boxes| :: m.boxes[t] == []
  }

  // What the history then says.
  ghost predicate Accounted<W(!new)>(c: Cast<W>, m: Machine<W>) {
    && (Single(c) ==> forall h: nat :: Count(m.loaded, h) == Count(m.kept, h) + Count(m.lost, h))
    && (OncePerOutput(c.plan.routing, c.behave) && RootOnly(c) ==>
      forall t: nat | t < |m.arrived| :: Ordered(m.arrived[t]))
    && Inputs(c, m)
  }

  lemma ReadyEnds<W(!new)>(c: Cast<W>, s: Full<W>, m: Machine<W>, cur: nat)
    requires Proper(c) && Ready(c, s, m, cur) && s.desk.queue == []
    ensures Finished(c, s) && Accounted(c, m) && Emptied(m) && s.world == m.world
  {
    EmptyQueueEmptyNodes(s.desk.scheduled, s.desk.d.pending);
    forall t: nat | t < |m.boxes| ensures m.boxes[t] == [] {
      assert Contents(s.desk.d, t) == m.boxes[t];
    }
    StoryEnds(c, m, cur);
  }

  // A run that starts well ends with nothing waiting and every packet accounted for.
  lemma {:induction false} FinishMeets<W(!new)>(c: Cast<W>, s: Full<W>, m: Machine<W>, cur: nat)
    requires Proper(c) && Ready(c, s, m, cur)
    ensures var (s', m') := Finish(c, s, m, cur);
      Finished(c, s') && Accounted(c, m') && Emptied(m') && s'.world == m'.world && PoolSteady(c, s, s')
    decreases Work(c.plan, s.desk.d.pending)
  {
    if s.desk.queue == [] {
      ReadyEnds(c, s, m, cur);
    } else {
      TurnMeets(c, s, m, cur);
      FinishMeets(c, Turn(c, s), TurnLog(c, s, m, cur), NextNode(c, s));
    }
  }

  // ---- the start ----

  // Frames left at a node from before are given back.
  function ReleaseDrain(d: Store): (d': Store)
    ensures |d'.pending| == |d.pending| && d'.drain == []
    decreases |d.drain|
  {
    if d.drain == [] then d else ReleaseDrain(ReleaseFirst(d))
  }

  function ResetNodes(d: Store, k: nat): (d': Store)
    requires k <= |d.pending|
    ensures |d'.pending| == |d.pending|
  {
    if k == 0 then d else ReleaseDrain(TakeOut(ResetNodes(d, k - 1), k - 1))
  }

  lemma {:induction false} ReleaseDrainMeets(d: Store)
    requires StoreInv(d)
    ensures StoreInv(ReleaseDrain(d)) && ReleaseDrain(d).pending == d.pending && |ReleaseDrain(d).frames| == |d.frames|
    decreases |d.drain|
  {
    if d.drain != [] {
      ReleaseMeets(d);
      ReleaseDrainMeets(ReleaseFirst(d));
    }
  }

  lemma ResetOne(d: Store, t: nat)
    requires StoreInv(d) && d.drain == [] && t < |d.pending|
    ensures var d' := ReleaseDrain(TakeOut(d, t));
      StoreInv(d') && |d'.frames| == |d.frames| && d'.pending == d.pending[t := []]
  {
    TakeOutMeets(d, t);
    ReleaseDrainMeets(TakeOut(d, t));
  }

  ghost predicate Cleared(d: Store, d': Store, k: nat) {
    StoreInv(d') && d'.drain == [] && |d'.frames| == |d.frames| && forall t: nat | t < k && t < |d'.pending| ::
      d'.pending[t] == []
  }

  lemma ClearedNext(d: Store, d1: Store, k: nat)
    requires 0 < k <= |d1.pending| && Cleared(d, d1, k - 1)
    ensures Cleared(d, ReleaseDrain(TakeOut(d1, k - 1)), k)
  {
    ResetOne(d1, k - 1);
  }

  // After a reset no frame waits, and none is gone.
  lemma {:induction false} ResetMeets(d: Store, k: nat)
    requires StoreInv(d) && d.drain == [] && k <= |d.pending|
    ensures Cleared(d, ResetNodes(d, k), k)
    decreases k
  {
    if k > 0 {
      ResetMeets(d, k - 1);
      ClearedNext(d, ResetNodes(d, k - 1), k);
      ResetUnfolds(d, k);
    }
  }

  lemma ResetUnfolds(d: Store, k: nat)
    requires 0 < k <= |d.pending|
    ensures ResetNodes(d, k) == ReleaseDrain(TakeOut(ResetNodes(d, k - 1), k - 1))
  {
  }

  // The seed frame, filled and waiting at the root.
  function Planted(d: Store, root: nat, f: seq<Token>): (d': Store)
    requires root < |d.pending|
    ensures |d'.pending| == |d.pending|
  {
    var d1 := AcquireFor(d, root);
    var id := AcquiredId(d);
    if id < |d1.frames| then d1.(frames := d1.frames[id := f]) else d1
  }

  lemma PlantedOwned(d: Store, root: nat, f: seq<Token>)
    requires StoreInv(d) && root < |d.pending|
    ensures Owned(Planted(d, root, f)) && Tally(Planted(d, root, f)) == |Planted(d, root, f).frames|
  {
    AcquireMeets(d, root);
    var d1, d' := AcquireFor(d, root), Planted(d, root, f);
    forall id: nat ensures Places(d', id) == if id < |d'.frames| then 1 else 0 {
      assert Places(d1, id) == if id < |d1.frames| then 1 else 0;
    }
  }

  lemma ConcatOne(frames: seq<seq<Token>>, id: nat)
    requires id < |frames|
    ensures Concat(frames, [id]) == frames[id]
  {
    assert [id][..0] == [] && [] + frames[id] == frames[id];
  }

  lemma PlantedContents(d: Store, root: nat, f: seq<Token>, t: nat)
    requires StoreInv(d) && root < |d.pending| && |f| <= BURST && t < |d.pending|
    requires d.pending[t] == []
    ensures var d' := Planted(d, root, f);
      Contents(d', t) == (if t == root then f else []) && PackedList(d'.frames, d'.pending[t])
  {
    AcquireMeets(d, root);
    if t == root {
      assert [] + [AcquiredId(d)] == [AcquiredId(d)];
      ConcatOne(Planted(d, root, f).frames, AcquiredId(d));
    }
  }

  lemma PlantedMeets(d: Store, root: nat, f: seq<Token>)
    requires StoreInv(d) && root < |d.pending| && |f| <= BURST && d.drain == []
    requires forall t: nat | t < |d.pending| :: d.pending[t] == []
    ensures var d' := Planted(d, root, f);
      && StoreInv(d') && d'.drain == [] && d'.pending == d.pending[root := [AcquiredId(d)]]
      && (forall t: nat | t < |d.pending| :: Contents(d', t) == if t == root then f else [])
      && |d'.frames| == |d.frames| + if d.free == [] then 1 else 0
  {
    PlantedOwned(d, root, f);
    forall t: nat | t < |d.pending|
      ensures var d' := Planted(d, root, f);
        Contents(d', t) == (if t == root then f else []) && PackedList(d'.frames, d'.pending[t])
    {
      PlantedContents(d, root, f, t);
    }
    PlantedShape(d, root, f);
  }

  lemma PlantedShape(d: Store, root: nat, f: seq<Token>)
    requires StoreInv(d) && root < |d.pending| && |f| <= BURST && d.pending[root] == []
    ensures var d' := Planted(d, root, f);
      && d'.drain == d.drain && d'.pending == d.pending[root := [AcquiredId(d)]] && Bursts(d'.frames)
      && |d'.frames| == |d.frames| + if d.free == [] then 1 else 0
  {
    AcquireMeets(d, root);
    assert [] + [AcquiredId(d)] == [AcquiredId(d)];
  }

  // The state in which the loop starts.
  function LoopStart<W>(c: Cast<W>, d: Store): (s: Full<W>)
    requires |d.pending| == |c.plan.routing| && c.root < |c.plan.routing|
    ensures Sized(c.plan, s.desk)
  {
    var none := seq(|c.plan.routing|, _ => false);
    Full(Desk(Planted(d, c.root, Fresh(c.seeds, 0)), [c.root], none[c.root := true]), c.origin, |c.seeds|)
  }

  // No frame waits and the batch fits one.
  ghost predicate Startable<W(!new)>(c: Cast<W>, d: Store) {
    && Proper(c) && StoreInv(d) && |d.pending| == |c.plan.routing| && d.drain == [] && |c.seeds| <= BURST
    && forall t: nat | t < |d.pending| :: d.pending[t] == []
  }

  lemma StartInStep<W(!new)>(c: Cast<W>, d: Store)
    requires Startable(c, d)
    ensures var desk := LoopStart(c, d).desk; InStep(desk.queue, desk.scheduled, desk.d.pending)
  {
    var none := seq(|c.plan.routing|, _ => false);
    PlantedMeets(d, c.root, Fresh(c.seeds, 0));
    FreshInStep(none, d.pending);
    ScheduleInStep([], none, d.pending, c.root, [AcquiredId(d)]);
    assert [] + [c.root] == [c.root];
  }

  lemma StartReady<W(!new)>(c: Cast<W>, d: Store)
    requires Startable(c, d)
    ensures Ready(c, LoopStart(c, d), SeededBy(c), c.root)
  {
    StartGood(c, d);
    SeededStory(c);
    StartHolds(c, d);
  }

  lemma StartHolds<W(!new)>(c: Cast<W>, d: Store)
    requires Startable(c, d)
    ensures MachineFits(c.plan.routing, SeededBy(c)) && RootHolds(c, LoopStart(c, d), SeededBy(c))
    ensures LoopStart(c, d).desk.d.drain == []
  {
    PlantedShape(d, c.root, Fresh(c.seeds, 0));
  }

  lemma StartGood<W(!new)>(c: Cast<W>, d: Store)
    requires Startable(c, d)
    ensures Good(c, LoopStart(c, d), SeededBy(c))
  {
    PlantedMeets(d, c.root, Fresh(c.seeds, 0));
    StartInStep(c, d);
  }

  lemma FreshInStep(scheduled: seq<bool>, pending: seq<seq<nat>>)
    requires |scheduled| == |pending| && (forall n: nat | n < |pending| :: !scheduled[n] && pending[n] == [])
    ensures InStep([], scheduled, pending)
  {
    forall n: nat ensures Times([], n) == 0 {
    }
  }

  // The dispatcher's run on a batch, for every acyclic graph and every legal behaviour of its nodes:
  // it ends with no frame waiting and every packet accounted for, and if no node replicates packets
  // and only the root loads any, the pool does not grow.
  lemma RunMeets<W(!new)>(c: Cast<W>, d: Store)
    requires Startable(c, d)
    ensures Ready(c, LoopStart(c, d), SeededBy(c), c.root)
    ensures var (s, m) := Finish(c, LoopStart(c, d), SeededBy(c), c.root);
      && Finished(c, s) && Accounted(c, m) && Emptied(m) && s.world == m.world
      && (Single(c) && RootOnly(c) && |d.frames| > |c.plan.routing| + 1 ==> |s.desk.d.frames| == |d.frames|)
  {
    StartReady(c, d);
    FinishMeets(c, LoopStart(c, d), SeededBy(c), c.root);
    if 0 < |d.frames| {
      StartFrames(c, d);
    }
  }

  // The seed takes a free frame if there is one.
  lemma StartFrames<W(!new)>(c: Cast<W>, d: Store)
    requires Startable(c, d) && 0 < |d.frames|
    ensures |LoopStart(c, d).desk.d.frames| == |d.frames|
  {
    PlantedShape(d, c.root, Fresh(c.seeds, 0));
    NoneWaiting(d.pending);
  }

  lemma {:induction false} NoneWaiting(lists: seq<seq<nat>>)
    requires forall t: nat | t < |lists| :: lists[t] == []
    ensures Waiting(lists) == 0
  {
    if lists != [] {
      NoneWaiting(lists[..|lists| - 1]);
    }
  }
}
