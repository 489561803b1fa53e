// Draining a node: its frames run one by one, in order, each released when done.
module DrainSteps {
  import opened Frames
  import opened FrameSteps
  import opened Firing
  import opened Conservation
  import opened Scheduling
  import opened RunSteps
  import opened Stories

  // The dispatcher as a whole.
  datatype Full<W> = Full(desk: Desk, world: W, serial: nat)

  function AnswerTo<W>(behave: Behaviour<W>, n: nat, world: W, frame: seq<Token>, serial: nat): Answer {
    var em := behave(n, world, Handles(frame));
    Answer(n, Input(frame, em, serial), em.dests)
  }

  lemma LegalAnswer<W(!new)>(c: Cast<W>, n: nat, world: W, frame: seq<Token>, serial: nat)
    requires Proper(c) && n < |c.plan.routing| && |frame| <= BURST
    ensures Answers(c.plan, AnswerTo(c.behave, n, world, frame, serial))
    ensures Fitting(c.plan.routing, n, |frame|, c.behave(n, world, Handles(frame)))
  {
    assert Fitting(c.plan.routing, n, |Handles(frame)|, c.behave(n, world, Handles(frame)));
  }

  // ---- one frame ----

  predicate HasFrame<W>(c: Cast<W>, s: Full<W>) {
    && Sized(c.plan, s.desk)
    && s.desk.d.drain != [] && s.desk.d.drain[0] < |s.desk.d.frames| && |s.desk.d.frames[s.desk.d.drain[0]]| <= BURST
  }

  function HeadFrame<W>(c: Cast<W>, s: Full<W>): seq<Token>
    requires HasFrame(c, s)
  {
    s.desk.d.frames[s.desk.d.drain[0]]
  }

  // RunNode on the first frame to be drained.
  ghost function RunNode<W(!new)>(c: Cast<W>, s: Full<W>, n: nat): (s': Full<W>)
    requires Proper(c) && n < |c.plan.routing| && HasFrame(c, s)
    ensures Sized(c.plan, s'.desk)
  {
    var frame := HeadFrame(c, s);
    var em := c.behave(n, s.world, Handles(frame));
    var a := AnswerTo(c.behave, n, s.world, frame, s.serial);
    LegalAnswer(c, n, s.world, frame, s.serial);
    Full(RouteAll(c.plan, s.desk, a, |c.plan.routing[n]|), em.world,
         if em.loaded.Some? then s.serial + |a.f| else s.serial)
  }

  function Released<W>(s: Full<W>): Full<W>
    requires s.desk.d.drain != []
  {
    s.(desk := s.desk.(d := ReleaseFirst(s.desk.d)))
  }

  // ---- the frames hold what the machine says ----

  ghost predicate Reflects<W(!new)>(c: Cast<W>, s: Full<W>, m: Machine<W>)
    requires Proper(c)
  {
    && MachineFits(c.plan.routing, m) && Sized(c.plan, s.desk)
    && (forall t: nat | t < |c.plan.routing| :: Contents(s.desk.d, t) == m.boxes[t])
    && Concat(s.desk.d.frames, s.desk.d.drain) == m.rest
    && s.world == m.world && s.serial == m.serial
  }

  ghost predicate Good<W(!new)>(c: Cast<W>, s: Full<W>, m: Machine<W>)
    requires Proper(c)
  {
    Reflects(c, s, m) && StoreInv(s.desk.d) && InStep(s.desk.queue, s.desk.scheduled, s.desk.d.pending)
  }

  lemma HeadOfRest(d: Store)
    requires StoreInv(d) && d.drain != []
    ensures d.drain[0] < |d.frames|
    ensures Concat(d.frames, d.drain) == d.frames[d.drain[0]] + Concat(d.frames, d.drain[1..])
  {
    DrainInRange(d);
    ConcatFirst(d.frames, d.drain);
  }

  lemma SameTail(xs: seq<Token>, ys: seq<Token>, zs: seq<Token>)
    requires xs + ys == xs + zs
    ensures ys == zs
  {
    assert ys == (xs + ys)[|xs|..] && zs == (xs + zs)[|xs|..];
  }

  // Routing leaves the frames being drained alone.
  lemma DrainFrameKept(d0: Store, d: Store)
    requires StoreInv(d0) && StoreInv(d) && d.drain != [] && DrainSame(d0, d)
    ensures Concat(d.frames, d.drain[1..]) == Concat(d0.frames, d0.drain[1..])
  {
    HeadOfRest(d0);
    HeadOfRest(d);
    SameTail(d.frames[d.drain[0]], Concat(d.frames, d.drain[1..]), Concat(d0.frames, d0.drain[1..]));
  }

  // After routing and releasing the frame, the frames hold what was routed and what is left.
  lemma FrameDone(p: Plan, desk0: Desk, boxes: seq<seq<Token>>, a: Answer, desk: Desk)
    requires Answers(p, a) && |boxes| == |p.routing| == |desk0.d.pending| && StoreInv(desk0.d) && desk0.d.drain != []
    requires Midway(p, desk0, boxes, a, |p.routing[a.n]|, desk)
    ensures desk.d.drain == desk0.d.drain
    ensures var d' := ReleaseFirst(desk.d);
      && StoreInv(d') && Concat(d'.frames, d'.drain) == Concat(desk0.d.frames, desk0.d.drain[1..])
      && forall t: nat | t < |p.routing| :: Contents(d', t) == Now(p, boxes, a, |p.routing[a.n]|)[t]
  {
    ReleaseMeets(desk.d);
    HeadOfRest(desk.d);
    DrainFrameKept(desk0.d, desk.d);
    var d' := ReleaseFirst(desk.d);
    SameTail(desk.d.frames[desk.d.drain[0]], Concat(d'.frames, d'.drain), Concat(desk.d.frames, desk.d.drain[1..]));
    forall t: nat | t < |p.routing| ensures Contents(d', t) == Now(p, boxes, a, |p.routing[a.n]|)[t] {
      assert Contents(desk.d, t) == Now(p, boxes, a, |p.routing[a.n]|)[t];
    }
  }

  // What firing on the first frame of the rest comes to.
  lemma FiredOn<W(!new)>(c: Cast<W>, m: Machine<W>, n: nat, frame: seq<Token>, rest: seq<Token>)
    requires Proper(c) && MachineFits(c.plan.routing, m) && n < |c.plan.routing|
    requires m.rest == frame + rest && |frame| <= BURST
    ensures var em := c.behave(n, m.world, Handles(frame)); var a := AnswerTo(c.behave, n, m.world, frame, m.serial);
      && m.rest[..|frame|] == frame && Fitting(c.plan.routing, n, |frame|, em) && Answers(c.plan, a)
      && var m' := FireWith(c.plan.routing, m, n, |frame|, em);
         && m'.rest == rest && m'.boxes == Now(c.plan, m.boxes, a, |c.plan.routing[n]|) && m'.world == em.world
         && m'.serial == if em.loaded.Some? then m.serial + |a.f| else m.serial
  {
    assert m.rest[..|frame|] == frame && m.rest[|frame|..] == rest;
    LegalAnswer(c, n, m.world, frame, m.serial);
  }

  // The machine after the first frame has run.
  ghost function Fired<W(!new)>(c: Cast<W>, m: Machine<W>, n: nat, size: nat): (m': Machine<W>)
    requires Proper(c) && MachineFits(c.plan.routing, m) && n < |c.plan.routing| && size <= |m.rest| && size <= BURST
    ensures MachineFits(c.plan.routing, m')
  {
    var em := c.behave(n, m.world, Handles(m.rest[..size]));
    LegalAnswer(c, n, m.world, m.rest[..size], m.serial);
    FireWith(c.plan.routing, m, n, size, em)
  }

  lemma RunNodeMidway<W(!new)>(c: Cast<W>, s: Full<W>, m: Machine<W>, n: nat)
    requires Proper(c) && n < |c.plan.routing| && Good(c, s, m) && HasFrame(c, s)
    ensures var a := AnswerTo(c.behave, n, s.world, HeadFrame(c, s), s.serial);
      Answers(c.plan, a) && Midway(c.plan, s.desk, m.boxes, a, |c.plan.routing[n]|, RunNode(c, s, n).desk)
  {
    var a := AnswerTo(c.behave, n, s.world, HeadFrame(c, s), s.serial);
    LegalAnswer(c, n, s.world, HeadFrame(c, s), s.serial);
    StartMidway(c.plan, s.desk, m.boxes, a);
    RouteAllMeets(c.plan, s.desk, m.boxes, a, |c.plan.routing[n]|);
  }

  // One frame: the state follows the machine, the work shrinks by at least one, frames appear only
  // further down, and a lean run adds none to the pool.
  lemma FrameRuns<W(!new)>(c: Cast<W>, s: Full<W>, m: Machine<W>, n: nat)
    requires Proper(c) && n < |c.plan.routing| && Good(c, s, m) && HasFrame(c, s)
    ensures var size := |HeadFrame(c, s)|;
      && size <= |m.rest| && RunNode(c, s, n).desk.d.drain == s.desk.d.drain
      && Reflects(c, Released(RunNode(c, s, n)), Fired(c, m, n, size))
  {
    var frame := HeadFrame(c, s);
    var a := AnswerTo(c.behave, n, s.world, frame, s.serial);
    HeadOfRest(s.desk.d);
    FiredOn(c, m, n, frame, Concat(s.desk.d.frames, s.desk.d.drain[1..]));
    RunNodeMidway(c, s, m, n);
    FrameDone(c.plan, s.desk, m.boxes, a, RunNode(c, s, n).desk);
  }

  lemma FrameRunsGood<W(!new)>(c: Cast<W>, s: Full<W>, m: Machine<W>, n: nat)
    requires Proper(c) && n < |c.plan.routing| && Good(c, s, m) && HasFrame(c, s)
    ensures RunNode(c, s, n).desk.d.drain == s.desk.d.drain
    ensures var s' := Released(RunNode(c, s, n)).desk;
      && StoreInv(s'.d) && InStep(s'.queue, s'.scheduled, s'.d.pending)
      && Work(c.plan, s'.d.pending) + 1 <= Work(c.plan, s.desk.d.pending) + FrameWeight(c.plan, n)
      && (Lean(c.plan, s.desk, m.boxes, AnswerTo(c.behave, n, s.world, HeadFrame(c, s), s.serial)) ==>
        |s'.d.frames| == |s.desk.d.frames|)
      && Downhill(c.plan, s.desk, n, s') && s'.d.drain == s.desk.d.drain[1..]
  {
    RunNodeMidway(c, s, m, n);
    var a := AnswerTo(c.behave, n, s.world, HeadFrame(c, s), s.serial);
    FrameDone(c.plan, s.desk, m.boxes, a, RunNode(c, s, n).desk);
  }

  lemma FrameReady<W(!new)>(c: Cast<W>, s: Full<W>, m: Machine<W>)
    requires Proper(c) && Good(c, s, m) && s.desk.d.drain != []
    ensures HasFrame(c, s) && |HeadFrame(c, s)| <= |m.rest|
  {
    HeadOfRest(s.desk.d);
  }

  // ---- all frames of a node ----

  ghost function DrainAll<W(!new)>(c: Cast<W>, s: Full<W>, n: nat): (s': Full<W>)
    requires Proper(c) && n < |c.plan.routing| && Sized(c.plan, s.desk)
    ensures Sized(c.plan, s'.desk)
    decreases |s.desk.d.drain|
  {
    if !HasFrame(c, s) then s
    else
      var ran := RunNode(c, s, n);
      if |ran.desk.d.drain| != |s.desk.d.drain| then s
      else DrainAll(c, Released(ran), n)
  }

  // What draining may rely on: the root is drained first and alone, holding the seeds in one frame.
  ghost predicate DrainReady<W(!new)>(c: Cast<W>, s: Full<W>, m: Machine<W>, n: nat)
    requires Proper(c) && n < |c.plan.routing|
  {
    && Good(c, s, m) && Story(c, m, n)
    && if n == c.root && s.desk.d.drain != [] then |s.desk.d.drain| == 1 && AtRoot(c, m) else Inputs(c, m)
  }

  ghost predicate PoolKept<W(!new)>(c: Cast<W>, d0: Store, d: Store) {
    Single(c) && RootOnly(c) && |d0.drain| <= 1 && |d0.frames| > |c.plan.routing| + 1 ==> |d.frames| == |d0.frames|
  }

  lemma FrameStory<W(!new)>(c: Cast<W>, s: Full<W>, m: Machine<W>, n: nat)
    requires Proper(c) && n < |c.plan.routing| && DrainReady(c, s, m, n) && s.desk.d.drain != []
    ensures HasFrame(c, s) && |HeadFrame(c, s)| <= |m.rest|
    ensures Story(c, Fired(c, m, n, |HeadFrame(c, s)|), n) && Inputs(c, Fired(c, m, n, |HeadFrame(c, s)|))
  {
    FrameReady(c, s, m);
    if n == c.root {
      HeadOfRest(s.desk.d);
      assert s.desk.d.drain[1..] == [];
    }
    FireStory(c, m, n, |HeadFrame(c, s)|);
    FireInputs(c, m, n, |HeadFrame(c, s)|);
  }

  lemma FrameLean<W(!new)>(c: Cast<W>, s: Full<W>, m: Machine<W>, n: nat)
    requires Proper(c) && n < |c.plan.routing| && DrainReady(c, s, m, n) && HasFrame(c, s)
    requires Single(c) && RootOnly(c) && |s.desk.d.drain| <= 1 && |s.desk.d.frames| > |c.plan.routing| + 1
    ensures Lean(c.plan, s.desk, m.boxes, AnswerTo(c.behave, n, s.world, HeadFrame(c, s), s.serial))
  {
    var frame := HeadFrame(c, s);
    LegalAnswer(c, n, s.world, frame, s.serial);
    FrameReady(c, s, m);
    if n == c.root {
      TotalEmpty(m.boxes);
    }
    assert AtMostOnce(c.behave(n, s.world, Handles(frame)).dests);
  }

  lemma FrameStep<W(!new)>(c: Cast<W>, s: Full<W>, m: Machine<W>, n: nat)
    requires Proper(c) && n < |c.plan.routing| && DrainReady(c, s, m, n) && s.desk.d.drain != []
    ensures HasFrame(c, s) && |HeadFrame(c, s)| <= |m.rest| && RunNode(c, s, n).desk.d.drain == s.desk.d.drain
    ensures var s' := Released(RunNode(c, s, n));
      && DrainReady(c, s', Fired(c, m, n, |HeadFrame(c, s)|), n) && s'.desk.d.drain == s.desk.d.drain[1..]
      && Progress(c, s, s', n, 1)
  {
    FrameStory(c, s, m, n);
    FrameRuns(c, s, m, n);
    FrameRunsGood(c, s, m, n);
    if Single(c) && RootOnly(c) && |s.desk.d.drain| <= 1 && |s.desk.d.frames| > |c.plan.routing| + 1 {
      FrameLean(c, s, m, n);
    }
  }

  // Work done, frames gone downhill and the pool unchanged, for k frames drained from s to s'.
  ghost predicate Progress<W(!new)>(c: Cast<W>, s: Full<W>, s': Full<W>, n: nat, k: nat)
    requires Proper(c) && n < |c.plan.routing| && Sized(c.plan, s.desk) && Sized(c.plan, s'.desk)
  {
    && Work(c.plan, s'.desk.d.pending) + k <= Work(c.plan, s.desk.d.pending) + FrameWeight(c.plan, n) * k
    && PoolKept(c, s.desk.d, s'.desk.d)
    && Downhill(c.plan, s.desk, n, s'.desk)
  }

  lemma ProgressChain<W(!new)>(c: Cast<W>, s: Full<W>, s1: Full<W>, s2: Full<W>, n: nat, k: nat)
    requires Proper(c) && n < |c.plan.routing| && Sized(c.plan, s.desk) && Sized(c.plan, s1.desk)
    requires Sized(c.plan, s2.desk)
    requires 1 <= |s.desk.d.drain| && s1.desk.d.drain == s.desk.d.drain[1..]
    requires Progress(c, s, s1, n, 1) && Progress(c, s1, s2, n, k)
    ensures Progress(c, s, s2, n, k + 1)
  {
    var w := FrameWeight(c.plan, n);
    assert w * (k + 1) == w * k + w && w * 1 == w;
  }

  lemma ProgressNone<W(!new)>(c: Cast<W>, s: Full<W>, n: nat)
    requires Proper(c) && n < |c.plan.routing| && Sized(c.plan, s.desk)
    ensures Progress(c, s, s, n, 0)
  {
    assert FrameWeight(c.plan, n) * 0 == 0;
  }

  // The machine's side of draining: node n fires once per frame.
  ghost function DrainLog<W(!new)>(c: Cast<W>, s: Full<W>, m: Machine<W>, n: nat): Machine<W>
    requires Proper(c) && n < |c.plan.routing| && DrainReady(c, s, m, n)
    decreases |s.desk.d.drain|
  {
    if s.desk.d.drain == [] then m
    else
      FrameStep(c, s, m, n);
      DrainLog(c, Released(RunNode(c, s, n)), Fired(c, m, n, |HeadFrame(c, s)|), n)
  }

  // Node n has been drained from s to s', with history m'.
  ghost predicate Drained<W(!new)>(c: Cast<W>, s: Full<W>, n: nat, s': Full<W>, m': Machine<W>)
    requires Proper(c) && n < |c.plan.routing| && Sized(c.plan, s.desk)
  {
    && Good(c, s', m') && Story(c, m', n) && Inputs(c, m') && s'.desk.d.drain == []
      && Progress(c, s, s', n, |s.desk.d.drain|)
  }

  lemma DrainedOneMore<W(!new)>(c: Cast<W>, s: Full<W>, s1: Full<W>, n: nat, s': Full<W>, m': Machine<W>)
    requires Proper(c) && n < |c.plan.routing| && Sized(c.plan, s.desk) && Sized(c.plan, s1.desk)
    requires s.desk.d.drain != [] && s1.desk.d.drain == s.desk.d.drain[1..]
    requires Progress(c, s, s1, n, 1) && Drained(c, s1, n, s', m')
    ensures Drained(c, s, n, s', m')
  {
    ProgressChain(c, s, s1, s', n, |s1.desk.d.drain|);
  }

  lemma {:induction false} DrainAllMeets<W(!new)>(c: Cast<W>, s: Full<W>, m: Machine<W>, n: nat)
    requires Proper(c) && n < |c.plan.routing| && DrainReady(c, s, m, n)
    ensures Drained(c, s, n, DrainAll(c, s, n), DrainLog(c, s, m, n))
    decreases |s.desk.d.drain|
  {
    if s.desk.d.drain == [] {
      ProgressNone(c, s, n);
    } else {
      FrameStep(c, s, m, n);
      var s1, m1 := Released(RunNode(c, s, n)), Fired(c, m, n, |HeadFrame(c, s)|);
      DrainAllMeets(c, s1, m1, n);
      DrainedOneMore(c, s, s1, n, DrainAll(c, s1, n), DrainLog(c, s1, m1, n));
      DrainUnfolds(c, s, m, n);
    }
  }

  lemma DrainUnfolds<W(!new)>(c: Cast<W>, s: Full<W>, m: Machine<W>, n: nat)
    requires Proper(c) && n < |c.plan.routing| && DrainReady(c, s, m, n) && s.desk.d.drain != []
    requires HasFrame(c, s) && |HeadFrame(c, s)| <= |m.rest|
    requires RunNode(c, s, n).desk.d.drain != []
    requires DrainReady(c, Released(RunNode(c, s, n)), Fired(c, m, n, |HeadFrame(c, s)|), n)
    ensures var s1, m1 := Released(RunNode(c, s, n)), Fired(c, m, n, |HeadFrame(c, s)|);
      DrainAll(c, s, n) == DrainAll(c, s1, n) && DrainLog(c, s, m, n) == DrainLog(c, s1, m1, n)
  {
    FrameStep(c, s, m, n);
  }
}
