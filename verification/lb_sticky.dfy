// Stickiness of the forward direction, for every flow a node ever opens: whether or not replies can
// find it, whatever the backends, as long as the clock does not run backwards.
module LbSticky {
  import opened Net
  import opened NatSpec
  import opened LbSpec
  import opened LbRuns
  import opened LbInvariants
  import opened LbFlows
  import opened LbLifecycle
  import opened LbHistory
  import opened LbTheorems

  // As the life of a flow, except that replies, which may not find it, do not refresh it.
  function ForwardStep(e: Env, f: NatFlow, life: Life, ev: Event): Life {
    var next := LifeStep(e, f, life, ev);
    if life.Alive? && next.Alive? && ev.meta.dir.Reverse? then next.(lastSeen := life.lastSeen) else next
  }

  function ForwardAfter(e: Env, f: NatFlow, life: Life, evs: seq<Event>): Life {
    if evs == [] then life
    else ForwardStep(e, f, ForwardAfter(e, f, life, evs[..|evs| - 1]), evs[|evs| - 1])
  }

  // Slot s holds flow f, seen no earlier than the automaton says and no later than hi; FINs the
  // table has noted, the automaton has too.
  predicate Retains(t: Table, f: NatFlow, s: nat, life: Life, hi: Millis)
    requires life.Alive?
  {
    && s < |t.slots| && SameFlow(f, t.slots[s]) && Open(t.slots[s])
    && life.lastSeen <= t.slots[s].lastSeenMs <= hi
    && (t.slots[s].finForward ==> life.finForward) && (t.slots[s].finReverse ==> life.finReverse)
  }

  lemma StillLive(e: Env, f: NatFlow, life: Life, now: Millis)
    requires life.Alive? && Open(f) && life.lastSeen <= f.lastSeenMs <= now < TWO32 && !TimedOut(e, life, now)
    ensures LiveAt(e, f, now)
  {
    assert (now - f.lastSeenMs) % TWO32 == now - f.lastSeenMs && (now - life.lastSeen) % TWO32 == now - life.lastSeen;
  }

  // What one packet does to a live entry: stamped or torn down if it hit, untouched otherwise; a
  // forward packet of the key always hits, a reply only if it is addressed to the flow.
  lemma StepTouches(e: Env, st: Lb, ev: Event, f: NatFlow, s: nat) returns (hit: bool)
    requires Core(e, st) && Sound(ev) && Stands(e, st.table, f, s, ev.now, false)
    ensures hit ==> Hits(ev, f)
    ensures Hits(ev, f) && ev.meta.dir.Forward? ==> hit
    ensures var r := Step(e, st, ev);
      && s < |r.st.table.slots|
      && Tracks(st.table.slots[s], r.st.table.slots[s], hit, ev.meta.dir, ev.meta.tcpFlags, ev.now)
  {
    hit := false;
    if Active(ev) {
      if ev.meta.dir.Forward? {
        LookupShaped(e, st, ByKey(KeyOf(ev.meta)), ev.now);
        ForwardTracks(e, st, ev.meta, ev.pool.value, f, s, ev.now);
        hit := KeyOf(ev.meta) == f.fwdKey;
      } else {
        LookupShaped(e, st, ByTuple(ReplyTuple(ev.meta)), ev.now);
        ReverseServes(e, st, ev.meta, f, s, ev.now);
        hit := Lookup(e, st.table, ByTuple(ReplyTuple(ev.meta)), ev.now).slot == Some(s);
      }
    }
  }

  lemma TouchHolds(e: Env, t: Table, u: Table, f: NatFlow, s: nat, life: Life, hi: Millis, ev: Event, hit: bool)
    requires life.Alive? && Retains(t, f, s, life, hi) && hi <= ev.now && !TimedOut(e, life, ev.now) && s < |u.slots|
    requires Tracks(t.slots[s], u.slots[s], hit, ev.meta.dir, ev.meta.tcpFlags, ev.now)
    requires (hit ==> Hits(ev, f)) && (Hits(ev, f) && ev.meta.dir.Forward? ==> hit)
    ensures var life' := ForwardStep(e, f, life, ev); life'.Alive? ==> Retains(u, f, s, life', ev.now)
  {
  }

  lemma StepSticks(e: Env, st: Lb, ev: Event, f: NatFlow, s: nat, life: Life, hi: Millis)
    requires Core(e, st) && Sound(ev) && life.Alive? && Retains(st.table, f, s, life, hi) && hi <= ev.now < TWO32
    ensures var r := Step(e, st, ev); var life' := ForwardStep(e, f, life, ev);
      && (life'.Alive? ==> Retains(r.st.table, f, s, life', ev.now))
      && (!TimedOut(e, life, ev.now) && Hits(ev, f) && ev.meta.dir.Forward? ==>
        r.result == Some(TranslateForward(ev.meta, f)))
  {
    if !TimedOut(e, life, ev.now) {
      StillLive(e, st.table.slots[s], life, ev.now);
      var hit := StepTouches(e, st, ev, f, s);
      StepStands(e, st, ev, f, s, false);
      TouchHolds(e, st.table, Step(e, st, ev).st.table, f, s, life, hi, ev, hit);
    }
  }

  // Clock readings do not decrease and do not wrap.
  predicate Clocked(evs: seq<Event>) {
    && (forall k: nat | k < |evs| :: evs[k].now < TWO32)
    && forall j: nat, k: nat | j <= k < |evs| :: evs[j].now <= evs[k].now
  }

  // The clock at the last event, and no later event is before hi.
  predicate Later(evs: seq<Event>, hi: Millis) {
    Clocked(evs) && forall k: nat | k < |evs| :: hi <= evs[k].now
  }

  function Latest(evs: seq<Event>, hi: Millis): Millis {
    if evs == [] then hi else evs[|evs| - 1].now
  }

  lemma LaterPrefix(evs: seq<Event>, hi: Millis)
    requires evs != [] && Later(evs, hi)
    ensures Later(evs[..|evs| - 1], hi) && Latest(evs[..|evs| - 1], hi) <= evs[|evs| - 1].now < TWO32
  {
  }

  // The flow is held in its slot after every run within its life.
  lemma {:induction false} RunSticks(e: Env, st: Lb, init: seq<Port>, evs: seq<Event>, f: NatFlow, s: nat, life: Life,
                                     hi: Millis)
    requires LbInv(e, st, init) && AllSound(evs) && Later(evs, hi) && life.Alive? && Retains(st.table, f, s, life, hi)
    ensures var life' := ForwardAfter(e, f, life, evs);
      life'.Alive? ==> Retains(After(e, st, evs).table, f, s, life', Latest(evs, hi))
  {
    if evs != [] {
      var prefix := evs[..|evs| - 1];
      LaterPrefix(evs, hi);
      RunSticks(e, st, init, prefix, f, s, life, hi);
      RunKeeps(e, st, prefix, init);
      var mid := ForwardAfter(e, f, life, prefix);
      if mid.Alive? {
        StepSticks(e, After(e, st, prefix), evs[|evs| - 1], f, s, mid, Latest(prefix, hi));
      }
    }
  }

  lemma LaterSlice(evs: seq<Event>, i: nat, k: nat)
    requires Clocked(evs) && i < k < |evs|
    ensures Later(evs[i + 1..k], evs[i].now) && Latest(evs[i + 1..k], evs[i].now) <= evs[k].now < TWO32
  {
  }

  // Event k is a forward packet of the flow opened by event i, within its life.
  predicate InForwardLife(e: Env, evs: seq<Event>, f: NatFlow, i: nat, k: nat)
    requires i < k < |evs|
  {
    var life := ForwardAfter(e, f, NewLife(evs[i]), evs[i + 1..k]);
    life.Alive? && !TimedOut(e, life, evs[k].now) && Hits(evs[k], f) && evs[k].meta.dir.Forward?
  }

  lemma SticksAt(e: Env, st: Lb, init: seq<Port>, evs: seq<Event>, ev: Event, f: NatFlow, s: nat, life: Life,
                 hi: Millis)
    requires LbInv(e, st, init) && AllSound(evs) && Later(evs, hi) && life.Alive? && Retains(st.table, f, s, life, hi)
    requires Sound(ev) && Latest(evs, hi) <= ev.now < TWO32 && Hits(ev, f) && ev.meta.dir.Forward?
    requires var life' := ForwardAfter(e, f, life, evs); life'.Alive? && !TimedOut(e, life', ev.now)
    ensures Step(e, After(e, st, evs), ev).result == Some(TranslateForward(ev.meta, f))
  {
    RunSticks(e, st, init, evs, f, s, life, hi);
    RunKeeps(e, st, evs, init);
    StepSticks(e, After(e, st, evs), ev, f, s, ForwardAfter(e, f, life, evs), Latest(evs, hi));
  }

  lemma PacketSticks(e: Env, st: Lb, init: seq<Port>, evs: seq<Event>, i: nat, k: nat, f: NatFlow, s: nat)
    requires LbInv(e, st, init) && AllSound(evs) && Clocked(evs) && i < k < |evs| && InForwardLife(e, evs, f, i, k)
    requires Retains(After(e, st, evs[..i + 1]).table, f, s, NewLife(evs[i]), evs[i].now)
    ensures Verdict(e, st, evs, k) == Some(TranslateForward(evs[k].meta, f))
  {
    RunSplits(e, st, evs, i, k);
    RunKeeps(e, st, evs[..i + 1], init);
    LaterSlice(evs, i, k);
    SticksAt(e, After(e, st, evs[..i + 1]), init, evs[i + 1..k], evs[k], f, s, NewLife(evs[i]), evs[i].now);
  }

  lemma OpeningHolds(e: Env, st: Lb, init: seq<Port>, evs: seq<Event>, i: nat) returns (f: NatFlow, s: nat)
    requires LbInv(e, st, init) && AllSound(evs) && i < |evs|
    requires Opens(e, After(e, st, evs[..i]), evs[i]) && !HasFlag(evs[i].meta.tcpFlags, TCP_RST)
    ensures Born(e, evs[i], f) && f.snatPort in init
    ensures Verdict(e, st, evs, i) == Some(TranslateForward(evs[i].meta, f))
    ensures Retains(After(e, st, evs[..i + 1]).table, f, s, NewLife(evs[i]), evs[i].now)
    ensures InLife(After(e, st, evs[..i + 1]).table.slots[s], NewLife(evs[i]))
  {
    RunKeeps(e, st, evs[..i], init);
    s, f := OpeningMirrors(e, After(e, st, evs[..i]), evs[i], init);
    assert evs[..i + 1][..i] == evs[..i];
  }

  // Whatever flow event i opens, every later forward packet of its key gets the same backend and
  // SNAT port, across any pool swaps, until a reset, a FIN from each side, or silence beyond the
  // timeout.
  lemma Sticky(e: Env, cap: nat, init: seq<Port>, evs: seq<Event>, i: nat) returns (f: NatFlow)
    requires 0 < cap && 0 !in init && AllSound(evs) && Clocked(evs) && i < |evs|
    requires Opens(e, After(e, Start(cap, init), evs[..i]), evs[i]) && !HasFlag(evs[i].meta.tcpFlags, TCP_RST)
    ensures Born(e, evs[i], f) && f.snatPort in init
    ensures Verdict(e, Start(cap, init), evs, i) == Some(TranslateForward(evs[i].meta, f))
    ensures forall k: nat | i < k < |evs| && InForwardLife(e, evs, f, i, k) ::
              Verdict(e, Start(cap, init), evs, k) == Some(TranslateForward(evs[k].meta, f))
  {
    var start := Start(cap, init);
    StartInv(e, cap, init);
    var s;
    f, s := OpeningHolds(e, start, init, evs, i);
    forall k: nat | i < k < |evs| && InForwardLife(e, evs, f, i, k)
      ensures Verdict(e, start, evs, k) == Some(TranslateForward(evs[k].meta, f))
    {
      PacketSticks(e, start, init, evs, i, k, f, s);
    }
  }
}
