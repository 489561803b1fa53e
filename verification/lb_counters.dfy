// The statistics: how many flows were opened, per backend and in all, and how many are open now.
module LbCounters {
  import opened Net
  import opened NatSpec
  import opened NatInvariants
  import opened BackendPools
  import opened LbSpec
  import opened LbRuns
  import opened LbInvariants
  import opened LbFlows
  import opened LbHistory

  // The packets of a run that opened a flow: forward, without a live entry, and let through.
  ghost function OpenedCount(e: Env, st: Lb, evs: seq<Event>): nat
    requires LbShaped(st) && AllSound(evs)
  {
    if evs == [] then 0
    else
      var prefix := evs[..|evs| - 1];
      OpenedCount(e, st, prefix) + One(Opens(e, After(e, st, prefix), evs[|evs| - 1]))
  }

  lemma CreateFlowCounts(e: Env, st: Lb, meta: PacketMeta, pool: Pool, now: Millis)
    requires LbShaped(st) && Fits(pool) && pool.active != []
    ensures var r := CreateFlow(e, st, meta, pool, now); r.st.newFlows == st.newFlows + One(r.result.Some?)
  {
  }

  lemma ForwardCounts(e: Env, st: Lb, meta: PacketMeta, pool: Pool, now: Millis)
    requires Core(e, st) && Fits(pool) && pool.active != []
    requires LbShaped(st.(table := Lookup(e, st.table, ByKey(KeyOf(meta)), now).table))
    ensures var r := HandleForward(e, st, meta, pool, now);
      r.st.newFlows == st.newFlows + One(Lookup(e, st.table, ByKey(KeyOf(meta)), now).slot.None? && r.result.Some?)
  {
    CreateFlowCounts(e, st.(table := Lookup(e, st.table, ByKey(KeyOf(meta)), now).table), meta, pool, now);
  }

  lemma StepCounts(e: Env, st: Lb, ev: Event)
    requires Core(e, st) && Sound(ev)
    ensures Step(e, st, ev).st.newFlows == st.newFlows + One(Opens(e, st, ev))
  {
    if Active(ev) && ev.meta.dir.Forward? {
      LookupShaped(e, st, ByKey(KeyOf(ev.meta)), ev.now);
      ForwardCounts(e, st, ev.meta, ev.pool.value, ev.now);
      MissMeansNoneLive(e, st.table, KeyOf(ev.meta), ev.now);
    }
  }

  lemma {:induction false} RunCounts(e: Env, st: Lb, evs: seq<Event>, init: seq<Port>)
    requires LbInv(e, st, init) && AllSound(evs)
    ensures After(e, st, evs).newFlows == st.newFlows + OpenedCount(e, st, evs)
  {
    if evs != [] {
      var prefix := evs[..|evs| - 1];
      RunCounts(e, st, prefix, init);
      RunKeeps(e, st, prefix, init);
      StepCounts(e, After(e, st, prefix), evs[|evs| - 1]);
    }
  }

  // After every run the size is the number of open entries, and the opened-flow counter is both the
  // number of opening packets and the sum of the per-backend counters.
  lemma CountersHonest(e: Env, cap: nat, init: seq<Port>, evs: seq<Event>)
    requires 0 < cap && 0 !in init && AllSound(evs)
    ensures var st := After(e, Start(cap, init), evs);
      && st.table.size == CountOpen(st.table.slots)
      && st.newFlows == OpenedCount(e, Start(cap, init), evs) == Sum(st.backendFlows)
  {
    StartInv(e, cap, init);
    RunKeeps(e, Start(cap, init), evs, init);
    RunCounts(e, Start(cap, init), evs, init);
  }
}
