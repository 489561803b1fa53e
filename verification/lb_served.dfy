// The life of a flow as the node itself sees it: every packet its entry translates counts, and no
// other. Nothing is assumed of the clock, the backends or the reverse index.
module LbServed {
  import opened Net
  import opened NatSpec
  import opened NatInvariants
  import opened LbSpec
  import opened LbRuns
  import opened LbInvariants
  import opened LbFlows
  import opened LbLifecycle
  import opened LbHistory
  import opened LbTheorems
  import opened LbSticky

  // What the packet is looked up by.
  function QueryOf(meta: PacketMeta): Query {
    if meta.dir.Forward? then ByKey(KeyOf(meta)) else ByTuple(ReplyTuple(meta))
  }

  // The packet finds the entry in slot s.
  predicate Serves(e: Env, st: Lb, ev: Event, s: nat)
    requires LbShaped(st)
  {
    Active(ev) && Lookup(e, st.table, QueryOf(ev.meta), ev.now).slot == Some(s)
  }

  // The life driven by the packets that the entry in slot s translates.
  function ServedAfter(e: Env, st: Lb, s: nat, life: Life, evs: seq<Event>): Life
    requires LbShaped(st) && AllSound(evs)
  {
    if evs == [] then life
    else
      var prefix, ev := evs[..|evs| - 1], evs[|evs| - 1];
      LifeOn(e, ServedAfter(e, st, s, life, prefix), ev, Serves(e, After(e, st, prefix), ev, s))
  }

  // Slot s holds flow f as its life says.
  predicate Keeps(t: Table, f: NatFlow, s: nat, life: Life) {
    s < |t.slots| && SameFlow(f, t.slots[s]) && InLife(t.slots[s], life)
  }

  lemma ServesTracks(e: Env, st: Lb, ev: Event, f: NatFlow, s: nat)
    requires Core(e, st) && Sound(ev) && Stands(e, st.table, f, s, ev.now, false)
    ensures Serves(e, st, ev, s) ==> Hits(ev, f)
    ensures Hits(ev, f) && ev.meta.dir.Forward? ==> Serves(e, st, ev, s)
    ensures var r := Step(e, st, ev);
      && s < |r.st.table.slots|
      && Tracks(st.table.slots[s], r.st.table.slots[s], Serves(e, st, ev, s), ev.meta.dir, ev.meta.tcpFlags, ev.now)
      && (Serves(e, st, ev, s) ==> r.result == Some(Translate(ev.meta, f)))
  {
    if Active(ev) {
      if ev.meta.dir.Forward? {
        ServesForward(e, st, ev, f, s);
      } else {
        ServesReverse(e, st, ev, f, s);
      }
    }
  }

  lemma ServesForward(e: Env, st: Lb, ev: Event, f: NatFlow, s: nat)
    requires Core(e, st) && Sound(ev) && Stands(e, st.table, f, s, ev.now, false) && Active(ev) && ev.meta.dir.Forward?
    ensures Serves(e, st, ev, s) <==> Hits(ev, f)
    ensures var r := Step(e, st, ev);
      && s < |r.st.table.slots|
      && Tracks(st.table.slots[s], r.st.table.slots[s], Serves(e, st, ev, s), Forward, ev.meta.tcpFlags, ev.now)
      && (Serves(e, st, ev, s) ==> r.result == Some(TranslateForward(ev.meta, f)))
  {
    LookupForwardMeets(e, st.table, KeyOf(ev.meta), ev.now);
    var hit := StepTouches(e, st, ev, f, s);
    StepStands(e, st, ev, f, s, false);
  }

  lemma ServesReverse(e: Env, st: Lb, ev: Event, f: NatFlow, s: nat)
    requires Core(e, st) && Sound(ev) && Stands(e, st.table, f, s, ev.now, false) && Active(ev) && ev.meta.dir.Reverse?
    ensures Serves(e, st, ev, s) ==> Hits(ev, f)
    ensures var r := Step(e, st, ev);
      && s < |r.st.table.slots|
      && Tracks(st.table.slots[s], r.st.table.slots[s], Serves(e, st, ev, s), Reverse, ev.meta.tcpFlags, ev.now)
      && (Serves(e, st, ev, s) ==> r.result == Some(TranslateReverse(ev.meta, f)))
  {
    LookupShaped(e, st, ByTuple(ReplyTuple(ev.meta)), ev.now);
    ReverseServes(e, st, ev.meta, f, s, ev.now);
  }

  lemma KeepsStands(e: Env, t: Table, f: NatFlow, s: nat, life: Life, now: Millis)
    requires Shaped(t) && life.Alive? && Keeps(t, f, s, life) && !TimedOut(e, life, now)
    ensures Stands(e, t, f, s, now, false)
  {
  }

  // The slot follows the life; a packet that ends it leaves the entry reaped.
  lemma KeepsNext(e: Env, t: Table, u: Table, ev: Event, f: NatFlow, s: nat, life: Life, hit: bool)
    requires life.Alive? && Keeps(t, f, s, life) && !TimedOut(e, life, ev.now) && s < |u.slots|
    requires Tracks(t.slots[s], u.slots[s], hit, ev.meta.dir, ev.meta.tcpFlags, ev.now)
    ensures var life' := LifeOn(e, life, ev, hit); if life'.Alive? then Keeps(u, f, s, life') else u.slots[s].reaped
  {
  }

  lemma StepServes(e: Env, st: Lb, ev: Event, f: NatFlow, s: nat, life: Life)
    requires Core(e, st) && Sound(ev) && life.Alive? && Keeps(st.table, f, s, life)
    ensures var r := Step(e, st, ev); var life' := LifeOn(e, life, ev, Serves(e, st, ev, s));
      && (life'.Alive? ==> Keeps(r.st.table, f, s, life'))
      && (!TimedOut(e, life, ev.now) ==>
            && (Serves(e, st, ev, s) ==> Hits(ev, f) && r.result == Some(Translate(ev.meta, f)))
            && (Hits(ev, f) && ev.meta.dir.Forward? ==> Serves(e, st, ev, s)))
  {
    if !TimedOut(e, life, ev.now) {
      KeepsStands(e, st.table, f, s, life, ev.now);
      ServesTracks(e, st, ev, f, s);
      KeepsNext(e, st.table, Step(e, st, ev).st.table, ev, f, s, life, Serves(e, st, ev, s));
    }
  }

  lemma {:induction false} RunServes(e: Env, st: Lb, init: seq<Port>, evs: seq<Event>, f: NatFlow, s: nat, life: Life)
    requires LbInv(e, st, init) && AllSound(evs) && life.Alive? && Keeps(st.table, f, s, life)
    ensures var life' := ServedAfter(e, st, s, life, evs); life'.Alive? ==> Keeps(After(e, st, evs).table, f, s, life')
  {
    if evs != [] {
      var prefix := evs[..|evs| - 1];
      RunServes(e, st, init, prefix, f, s, life);
      RunKeeps(e, st, prefix, init);
      var mid := ServedAfter(e, st, s, life, prefix);
      if mid.Alive? {
        StepServes(e, After(e, st, prefix), evs[|evs| - 1], f, s, mid);
      }
    }
  }

  // What a flow in slot s of state st does for event ev, evs later.
  lemma ServesAt(e: Env, st: Lb, init: seq<Port>, evs: seq<Event>, ev: Event, f: NatFlow, s: nat, life: Life)
    requires LbInv(e, st, init) && AllSound(evs) && Sound(ev) && life.Alive? && Keeps(st.table, f, s, life)
    requires var life' := ServedAfter(e, st, s, life, evs); life'.Alive? && !TimedOut(e, life', ev.now)
    ensures var mid := After(e, st, evs);
      && (Serves(e, mid, ev, s) ==> Step(e, mid, ev).result == Some(Translate(ev.meta, f)))
      && (Hits(ev, f) && ev.meta.dir.Forward? ==> Serves(e, mid, ev, s))
  {
    RunServes(e, st, init, evs, f, s, life);
    RunKeeps(e, st, evs, init);
    StepServes(e, After(e, st, evs), ev, f, s, ServedAfter(e, st, s, life, evs));
  }

  // The life, at event k, of the flow that event i put into slot s of the node.
  function LifeAt(e: Env, st: Lb, evs: seq<Event>, i: nat, k: nat, s: nat): Life
    requires LbShaped(st) && AllSound(evs) && i < k < |evs|
  {
    ServedAfter(e, After(e, st, evs[..i + 1]), s, NewLife(evs[i]), evs[i + 1..k])
  }

  lemma ServesAtEvent(e: Env, st: Lb, init: seq<Port>, evs: seq<Event>, i: nat, k: nat, f: NatFlow, s: nat)
    requires LbInv(e, st, init) && AllSound(evs) && i < k < |evs|
    requires Keeps(After(e, st, evs[..i + 1]).table, f, s, NewLife(evs[i]))
    requires LifeAt(e, st, evs, i, k, s).Alive? && !TimedOut(e, LifeAt(e, st, evs, i, k, s), evs[k].now)
    ensures var mid := After(e, st, evs[..k]);
      && (Serves(e, mid, evs[k], s) ==> Verdict(e, st, evs, k) == Some(Translate(evs[k].meta, f)))
      && (Hits(evs[k], f) && evs[k].meta.dir.Forward? ==> Serves(e, mid, evs[k], s))
  {
    RunSplits(e, st, evs, i, k);
    RunKeeps(e, st, evs[..i + 1], init);
    ServesAt(e, After(e, st, evs[..i + 1]), init, evs[i + 1..k], evs[k], f, s, NewLife(evs[i]));
  }

  // Whatever flow event i opens, under every clock and every backend list: until a reset, a FIN from
  // each side, or silence beyond the timeout, where every packet its entry translates counts as
  // activity, every forward packet of its key finds the entry, and every packet that finds the
  // entry, in either direction, is translated by it.
  lemma Served(e: Env, cap: nat, init: seq<Port>, evs: seq<Event>, i: nat) returns (f: NatFlow, s: nat)
    requires 0 < cap && 0 !in init && AllSound(evs) && i < |evs|
    requires Opens(e, After(e, Start(cap, init), evs[..i]), evs[i]) && !HasFlag(evs[i].meta.tcpFlags, TCP_RST)
    ensures Born(e, evs[i], f) && f.snatPort in init
    ensures Verdict(e, Start(cap, init), evs, i) == Some(TranslateForward(evs[i].meta, f))
    ensures forall k: nat | i < k < |evs| ::
      var life := LifeAt(e, Start(cap, init), evs, i, k, s);
      life.Alive? && !TimedOut(e, life, evs[k].now) ==>
        var mid := After(e, Start(cap, init), evs[..k]);
        && (Serves(e, mid, evs[k], s) ==> Verdict(e, Start(cap, init), evs, k) == Some(Translate(evs[k].meta, f)))
        && (Hits(evs[k], f) && evs[k].meta.dir.Forward? ==> Serves(e, mid, evs[k], s))
  {
    var start := Start(cap, init);
    StartInv(e, cap, init);
    f, s := OpeningHolds(e, start, init, evs, i);
    forall k: nat | i < k < |evs| && LifeAt(e, start, evs, i, k, s).Alive?
      && !TimedOut(e, LifeAt(e, start, evs, i, k, s), evs[k].now)
      ensures var mid := After(e, start, evs[..k]);
        && (Serves(e, mid, evs[k], s) ==> Verdict(e, start, evs, k) == Some(Translate(evs[k].meta, f)))
        && (Hits(evs[k], f) && evs[k].meta.dir.Forward? ==> Serves(e, mid, evs[k], s))
    {
      ServesAtEvent(e, start, init, evs, i, k, f, s);
    }
  }
}
