// Induction over a run: what every firing keeps holds when the worklist is empty.
module RunInduction {
  import opened Frames
  import opened Firing
  import opened Conservation
  import opened Scheduling
  import opened Stories
  import opened DrainSteps
  import opened LoopSteps

  // Node n fires on all that waits for it.
  ghost function Fires<W(!new)>(c: Cast<W>, m: Machine<W>, n: nat): (m': Machine<W>)
    requires Proper(c) && MachineFits(c.plan.routing, m) && n < |c.plan.routing| && |m.boxes[n]| <= BURST
    ensures MachineFits(c.plan.routing, m')
  {
    Fired(c, Taken(m, n), n, |m.boxes[n]|)
  }

  // Between two turns, node n may be next.
  ghost predicate MayFire<W(!new)>(c: Cast<W>, m: Machine<W>, n: nat) {
    && Proper(c) && MachineFits(c.plan.routing, m) && n < |c.plan.routing| && m.rest == [] && |m.boxes[n]| <= BURST
    && (n == c.root ==> AtRoot(c, Taken(m, n)))
  }

  // If packets are not replicated and only the root loads any, a turn is one firing.
  lemma TurnIsFiring<W(!new)>(c: Cast<W>, s: Full<W>, m: Machine<W>, cur: nat)
    requires Proper(c) && Ready(c, s, m, cur) && s.desk.queue != [] && Single(c) && RootOnly(c)
    ensures HasNode(c, s) && MayFire(c, m, NextNode(c, s))
    ensures TurnLog(c, s, m, cur) == Fires(c, m, NextNode(c, s))
  {
    PopReady(c, s, m, cur);
    var n := NextNode(c, s);
    PopLean(c, s, m, cur);
    BoxAtMostTotal(m.boxes, n);
    TotalBound(c, m, cur, n);
    OneFrameLog(c, Popped(c, s), Taken(m, n), n);
  }

  lemma TotalBound<W(!new)>(c: Cast<W>, m: Machine<W>, cur: nat, n: nat)
    requires Proper(c) && MachineFits(c.plan.routing, m) && cur < |c.plan.routing| && n < |c.plan.routing|
    requires Story(c, m, cur) && Single(c) && RootOnly(c)
    ensures |m.boxes[n]| <= BURST
  {
    BoxAtMostTotal(m.boxes, n);
  }

  // One frame to drain means one firing, on all of the rest.
  lemma OneFrameLog<W(!new)>(c: Cast<W>, s: Full<W>, m: Machine<W>, n: nat)
    requires Proper(c) && n < |c.plan.routing| && DrainReady(c, s, m, n) && |s.desk.d.drain| == 1 && |m.rest| <= BURST
    ensures DrainLog(c, s, m, n) == Fired(c, m, n, |m.rest|)
  {
    FrameStep(c, s, m, n);
    HeadOfRest(s.desk.d);
    assert s.desk.d.drain[1..] == [];
    assert |HeadFrame(c, s)| == |m.rest|;
  }

  // What every firing keeps.
  ghost predicate Closed<W(!new)>(c: Cast<W>, inv: Machine<W> -> bool) {
    forall m: Machine<W>, n: nat | MayFire(c, m, n) && inv(m) :: inv(Fires(c, m, n))
  }

  lemma {:induction false} FinishKeeps<W(!new)>(c: Cast<W>, s: Full<W>, m: Machine<W>, cur: nat,
                                                inv: Machine<W> -> bool)
    requires Proper(c) && Ready(c, s, m, cur) && Single(c) && RootOnly(c) && Closed(c, inv) && inv(m)
    ensures inv(Finish(c, s, m, cur).1)
    decreases Work(c.plan, s.desk.d.pending)
  {
    if s.desk.queue != [] {
      TurnMeets(c, s, m, cur);
      TurnIsFiring(c, s, m, cur);
      FinishKeeps(c, LoopSteps.Turn(c, s), TurnLog(c, s, m, cur), NextNode(c, s), inv);
    }
  }
}
