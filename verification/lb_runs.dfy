// Runs of the node: any sequence of packets, clock readings and pool swaps.
module LbRuns {
  import opened Net
  import opened NatSpec
  import opened BackendPools
  import opened LbSpec

  // A packet, with the pool and the clock the node sees when it handles it.
  datatype Event = Event(meta: PacketMeta, pool: Option<Pool>, now: Millis)

  predicate Sound(ev: Event) {
    ev.pool.Some? ==> Fits(ev.pool.value)
  }

  function Step(e: Env, st: Lb, ev: Event): (r: Outcome<PacketMeta>)
    requires LbShaped(st) && Sound(ev)
    ensures LbShaped(r.st)
  {
    if ev.pool.None? || ev.pool.value.active == [] then Outcome(st, None)
    else HandlePacket(e, st, ev.meta, ev.pool.value, ev.now)
  }

  predicate AllSound(evs: seq<Event>) {
    forall k | 0 <= k < |evs| :: Sound(evs[k])
  }

  function After(e: Env, st: Lb, evs: seq<Event>): (st': Lb)
    requires LbShaped(st) && AllSound(evs)
    ensures LbShaped(st')
  {
    if evs == [] then st
    else Step(e, After(e, st, evs[..|evs| - 1]), evs[|evs| - 1]).st
  }

  // What happens to the k-th packet of a run.
  function Verdict(e: Env, st: Lb, evs: seq<Event>, k: nat): Option<PacketMeta>
    requires LbShaped(st) && AllSound(evs) && k < |evs|
  {
    Step(e, After(e, st, evs[..k]), evs[k]).result
  }

  function FrameEvents(metas: seq<PacketMeta>, pool: Option<Pool>, now: Millis): (evs: seq<Event>)
    ensures |evs| == |metas|
    ensures forall k | 0 <= k < |metas| :: evs[k] == Event(metas[k], pool, now)
  {
    seq(|metas|, k requires 0 <= k < |metas| => Event(metas[k], pool, now))
  }

  lemma {:induction false} IdleFrame(e: Env, st: Lb, evs: seq<Event>)
    requires LbShaped(st) && AllSound(evs)
    requires forall k | 0 <= k < |evs| :: evs[k].pool.None? || evs[k].pool.value.active == []
    ensures After(e, st, evs) == st
    ensures forall k | 0 <= k < |evs| :: Verdict(e, st, evs, k) == None
  {
    if evs != [] {
      var init := evs[..|evs| - 1];
      IdleFrame(e, st, init);
      forall k | 0 <= k < |evs| ensures Verdict(e, st, evs, k) == None {
        if k < |init| {
          assert init[..k] == evs[..k];
          assert Verdict(e, st, init, k) == None;
        }
      }
    }
  }
}
