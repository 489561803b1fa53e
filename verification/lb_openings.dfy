// Where every entry comes from: the packet that opened it, and that it has stood in its slot since.
module LbOpenings {
  import opened Net
  import opened NatSpec
  import opened LbSpec
  import opened LbRuns
  import opened LbInvariants
  import opened LbHistory

  // ---- runs ----

  function SlotAt(e: Env, st: Lb, evs: seq<Event>, j: nat, s: nat): (f: NatFlow)
    requires LbShaped(st) && AllSound(evs) && j <= |evs|
  {
    var slots := After(e, st, evs[..j]).table.slots;
    if s < |slots| then slots[s] else NO_FLOW
  }

  // Event k put the flow into slot s, no later event put one there, and at all times since the slot
  // has held the entry it holds now.
  ghost predicate OpenedAt(e: Env, st: Lb, evs: seq<Event>, k: nat, s: nat)
    requires LbShaped(st) && AllSound(evs)
  {
    && k < |evs| && OpensEvent(e, st, evs, k, s) && Born(e, evs[k], SlotAt(e, st, evs, |evs|, s))
    && NoneSince(e, st, evs, k, s) && StoodSince(e, st, evs, k, s)
  }

  // Event j puts a flow into slot s.
  ghost predicate OpensEvent(e: Env, st: Lb, evs: seq<Event>, j: nat, s: nat)
    requires LbShaped(st) && AllSound(evs) && j < |evs|
  {
    OpensIn(e, After(e, st, evs[..j]), evs[j], s)
  }

  ghost predicate NoneSince(e: Env, st: Lb, evs: seq<Event>, k: nat, s: nat)
    requires LbShaped(st) && AllSound(evs)
  {
    forall j: nat | k < j < |evs| :: !OpensEvent(e, st, evs, j, s)
  }

  ghost predicate StoodSince(e: Env, st: Lb, evs: seq<Event>, k: nat, s: nat)
    requires LbShaped(st) && AllSound(evs)
  {
    forall j: nat | k < j <= |evs| :: Stays(SlotAt(e, st, evs, j, s), SlotAt(e, st, evs, |evs|, s))
  }

  lemma StaysTrans(f: NatFlow, g: NatFlow, h: NatFlow)
    requires Stays(f, g) && Stays(g, h)
    ensures Stays(f, h)
  {
  }

  lemma SlotAtPrefix(e: Env, st: Lb, evs: seq<Event>, j: nat, s: nat)
    requires LbShaped(st) && AllSound(evs) && evs != [] && j < |evs|
    ensures SlotAt(e, st, evs[..|evs| - 1], j, s) == SlotAt(e, st, evs, j, s)
  {
    assert evs[..|evs| - 1][..j] == evs[..j];
  }

  lemma OpensPrefix(e: Env, st: Lb, evs: seq<Event>, j: nat, s: nat)
    requires LbShaped(st) && AllSound(evs) && evs != [] && j < |evs| - 1
    ensures OpensEvent(e, st, evs[..|evs| - 1], j, s) == OpensEvent(e, st, evs, j, s)
  {
    assert evs[..|evs| - 1][..j] == evs[..j];
  }

  lemma NoneStill(e: Env, st: Lb, evs: seq<Event>, k: nat, s: nat)
    requires LbShaped(st) && AllSound(evs) && evs != []
    requires NoneSince(e, st, evs[..|evs| - 1], k, s) && !OpensEvent(e, st, evs, |evs| - 1, s)
    ensures NoneSince(e, st, evs, k, s)
  {
    forall j: nat | k < j < |evs| ensures !OpensEvent(e, st, evs, j, s) {
      if j < |evs| - 1 {
        OpensPrefix(e, st, evs, j, s);
        assert !OpensEvent(e, st, evs[..|evs| - 1], j, s);
      }
    }
  }

  lemma StoodOneMore(e: Env, st: Lb, evs: seq<Event>, s: nat, j: nat)
    requires LbShaped(st) && AllSound(evs) && j < |evs|
    requires var prefix := evs[..|evs| - 1]; Stays(SlotAt(e, st, prefix, j, s), SlotAt(e, st, prefix, |prefix|, s))
    requires Stays(SlotAt(e, st, evs, |evs| - 1, s), SlotAt(e, st, evs, |evs|, s))
    ensures Stays(SlotAt(e, st, evs, j, s), SlotAt(e, st, evs, |evs|, s))
  {
    SlotAtPrefix(e, st, evs, j, s);
    SlotAtPrefix(e, st, evs, |evs| - 1, s);
    StaysTrans(SlotAt(e, st, evs, j, s), SlotAt(e, st, evs, |evs| - 1, s), SlotAt(e, st, evs, |evs|, s));
  }

  lemma StoodStill(e: Env, st: Lb, evs: seq<Event>, k: nat, s: nat)
    requires LbShaped(st) && AllSound(evs) && evs != [] && StoodSince(e, st, evs[..|evs| - 1], k, s)
    requires Stays(SlotAt(e, st, evs, |evs| - 1, s), SlotAt(e, st, evs, |evs|, s))
    ensures StoodSince(e, st, evs, k, s)
  {
    forall j: nat | k < j <= |evs| ensures Stays(SlotAt(e, st, evs, j, s), SlotAt(e, st, evs, |evs|, s)) {
      if j < |evs| {
        StoodOneMore(e, st, evs, s, j);
      }
    }
  }

  // The run grew by an event that left the entry alone.
  lemma OpenedStill(e: Env, st: Lb, evs: seq<Event>, k: nat, s: nat)
    requires LbShaped(st) && AllSound(evs) && evs != [] && OpenedAt(e, st, evs[..|evs| - 1], k, s)
    requires !OpensEvent(e, st, evs, |evs| - 1, s)
    requires Stays(SlotAt(e, st, evs, |evs| - 1, s), SlotAt(e, st, evs, |evs|, s))
    ensures OpenedAt(e, st, evs, k, s)
  {
    OpensPrefix(e, st, evs, k, s);
    NoneStill(e, st, evs, k, s);
    StoodStill(e, st, evs, k, s);
    SlotAtPrefix(e, st, evs, |evs| - 1, s);
  }

  lemma OpenedJustNow(e: Env, st: Lb, evs: seq<Event>, s: nat)
    requires LbShaped(st) && AllSound(evs) && evs != [] && OpensEvent(e, st, evs, |evs| - 1, s)
    requires Born(e, evs[|evs| - 1], SlotAt(e, st, evs, |evs|, s))
    ensures OpenedAt(e, st, evs, |evs| - 1, s)
  {
  }

  lemma StepAt(e: Env, st: Lb, init: seq<Port>, evs: seq<Event>, s: nat)
    requires LbInv(e, st, init) && AllSound(evs) && evs != [] && s < |After(e, st, evs[..|evs| - 1]).table.slots|
    ensures StepLeaves(e, After(e, st, evs[..|evs| - 1]), evs[|evs| - 1], s, SlotAt(e, st, evs, |evs|, s))
    ensures SlotAt(e, st, evs, |evs| - 1, s) == After(e, st, evs[..|evs| - 1]).table.slots[s]
  {
    RunKeeps(e, st, evs[..|evs| - 1], init);
    StepOpens(e, After(e, st, evs[..|evs| - 1]), evs[|evs| - 1], s);
    assert evs[..|evs|] == evs;
  }

  lemma {:induction false} EntryOpened(e: Env, st: Lb, init: seq<Port>, evs: seq<Event>, s: nat) returns (k: nat)
    requires LbInv(e, st, init) && AllSound(evs)
    requires (forall x: nat | x < |st.table.slots| :: !st.table.slots[x].occupied)
    requires SlotAt(e, st, evs, |evs|, s).occupied
    ensures OpenedAt(e, st, evs, k, s)
    decreases |evs|
  {
    k := 0;
    if evs == [] {
      assert false;
    } else {
      var prefix := evs[..|evs| - 1];
      SlotsKept(e, st, init, evs);
      StepAt(e, st, init, evs, s);
      if OpensIn(e, After(e, st, prefix), evs[|evs| - 1], s) {
        k := |evs| - 1;
        OpenedJustNow(e, st, evs, s);
      } else {
        assert prefix[..|prefix|] == prefix;
        k := EntryOpened(e, st, init, prefix, s);
        OpenedStill(e, st, evs, k, s);
      }
    }
  }

  lemma SlotsKept(e: Env, st: Lb, init: seq<Port>, evs: seq<Event>)
    requires LbInv(e, st, init) && AllSound(evs) && evs != []
    ensures |After(e, st, evs[..|evs| - 1]).table.slots| == |After(e, st, evs[..|evs|]).table.slots|
  {
    RunKeeps(e, st, evs[..|evs| - 1], init);
    StepOpens(e, After(e, st, evs[..|evs| - 1]), evs[|evs| - 1], 0);
    assert evs[..|evs|] == evs;
  }

  // Every entry of the table was opened by a forward packet of its key, one with SYN set if it is a
  // TCP entry, and has stood in its slot ever since.
  lemma OpenedBySyn(e: Env, cap: nat, init: seq<Port>, evs: seq<Event>, s: nat) returns (k: nat)
    requires 0 < cap && 0 !in init && AllSound(evs) && SlotAt(e, Start(cap, init), evs, |evs|, s).occupied
    ensures OpenedAt(e, Start(cap, init), evs, k, s)
    ensures var f := SlotAt(e, Start(cap, init), evs, |evs|, s);
      && evs[k].meta.dir.Forward? && KeyOf(evs[k].meta) == f.fwdKey
      && (f.fwdKey.proto == PROTO_TCP ==> HasFlag(evs[k].meta.tcpFlags, TCP_SYN))
  {
    StartInv(e, cap, init);
    k := EntryOpened(e, Start(cap, init), init, evs, s);
  }
}
