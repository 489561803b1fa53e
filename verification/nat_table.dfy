// The connection table as the program keeps it: two arrays probed and updated in place.
module NatTables {
  import opened Net
  import opened NatSpec

  datatype Course = Onward | Stop(found: Option<nat>)

  // What a probe step means for the search: it goes on from the new table, or it is over, a hit
  // being stamped.
  predicate Stepped(e: Env, t: Table, q: Query, now: Millis, i: nat, u: Table, course: Course)
    requires Shaped(t) && Shaped(u) && i < |t.slots| == |u.slots|
  {
    var r := Find(e, t, q, now, i);
    if course.Onward? then r == Find(e, u, q, now, i + 1)
    else r.slot == course.found && u == if r.slot.Some? then TouchAt(r.table, r.slot.value, now) else r.table
  }

  class NatTable {
    const e: Env
    const slots: array<NatFlow>
    const rev: array<nat>
    var size: nat

    ghost predicate Valid()
      reads this, slots, rev
    {
      Shaped(View())
    }

    ghost function View(): Table
      reads this, slots, rev
    {
      Table(slots[..], rev[..], size)
    }

    constructor (e: Env, capacity: nat)
      requires 0 < capacity
      ensures Valid() && View() == EmptyTable(capacity) && this.e == e
      ensures fresh(slots) && fresh(rev)
    {
      this.e := e;
      slots := new NatFlow[capacity](_ => NO_FLOW);
      rev := new nat[capacity](_ => 0);
      size := 0;
    }

    method Reap(s: nat)
      requires Valid() && s < slots.Length
      modifies this, slots
      ensures Valid() && View() == ReapAt(old(View()), s)
    {
      if !slots[s].reaped {
        slots[s] := slots[s].(reaped := true);
        if size > 0 {
          size := size - 1;
        }
      }
    }

    method Touch(s: nat, now: Millis)
      requires Valid() && s < slots.Length
      modifies slots
      ensures Valid() && View() == TouchAt(old(View()), s, now)
    {
      slots[s] := slots[s].(lastSeenMs := now);
    }

    // Step i of the probe; stops at the end of the chain or at a match.
    method ProbeForward(key: FlowKey, now: Millis, i: nat) returns (course: Course)
      requires Valid() && i < slots.Length
      modifies this, slots
      ensures Valid() && View().rev == old(View().rev) && Stepped(e, old(View()), ByKey(key), now, i, View(), course)
    {
      var p := Pos(Home(e.hash, key, slots.Length), i, slots.Length);
      var s := p;
      if !slots[s].occupied {
        return Stop(None);
      }
      if Expired(e, slots[s], now) {
        Reap(s);
        return Onward;
      }
      if slots[s].fwdKey == key {
        Touch(s, now);
        return Stop(Some(s));
      }
      return Onward;
    }

    method LookupForward(key: FlowKey, now: Millis) returns (found: Option<nat>)
      requires Valid()
      modifies this, slots
      ensures Valid()
      ensures Search(View(), found) == Lookup(e, old(View()), ByKey(key), now)
    {
      ghost var goal := Find(e, View(), ByKey(key), now, 0);
      var i := 0;
      while i < slots.Length
        invariant 0 <= i <= slots.Length && Valid()
        invariant Find(e, View(), ByKey(key), now, i) == goal
      {
        var course := ProbeForward(key, now, i);
        if course.Stop? {
          return course.found;
        }
        i := i + 1;
      }
      return None;
    }

    // Step i of the probe; stops at the end of the chain or at a match.
    method ProbeReverse(tuple: RevTuple, now: Millis, i: nat) returns (course: Course)
      requires Valid() && i < slots.Length
      modifies this, slots
      ensures Valid() && View().rev == old(View().rev)
      ensures Stepped(e, old(View()), ByTuple(tuple), now, i, View(), course)
    {
      var p := Pos(Home(e.hash, RevKey(tuple), slots.Length), i, slots.Length);
      if rev[p] == 0 {
        return Stop(None);
      }
      var s := rev[p] - 1;
      if slots[s].occupied && Expired(e, slots[s], now) {
        Reap(s);
        return Onward;
      }
      if slots[s].occupied && TupleOf(slots[s]) == tuple {
        Touch(s, now);
        return Stop(Some(s));
      }
      return Onward;
    }

    method LookupReverse(tuple: RevTuple, now: Millis) returns (found: Option<nat>)
      requires Valid()
      modifies this, slots
      ensures Valid()
      ensures Search(View(), found) == Lookup(e, old(View()), ByTuple(tuple), now)
    {
      ghost var goal := Find(e, View(), ByTuple(tuple), now, 0);
      var i := 0;
      while i < slots.Length
        invariant 0 <= i <= slots.Length && Valid()
        invariant Find(e, View(), ByTuple(tuple), now, i) == goal
      {
        var course := ProbeReverse(tuple, now, i);
        if course.Stop? {
          return course.found;
        }
        i := i + 1;
      }
      return None;
    }

    method IndexReverse(s: nat, now: Millis)
      requires Valid() && s < slots.Length
      modifies rev
      ensures Valid() && View() == NatSpec.IndexReverse(e, old(View()), s, now)
    {
      var cap := slots.Length;
      var tuple := TupleOf(slots[s]);
      var start := Home(e.hash, RevKey(tuple), cap);
      var i := 0;
      while i < cap
        invariant 0 <= i <= cap && View() == old(View())
        invariant FindCell(e, View(), tuple, now, i) == FindCell(e, View(), tuple, now, 0)
      {
        var c := Pos(start, i, cap);
        var ptr := rev[c];
        if ptr == 0 || !slots[ptr - 1].occupied || Expired(e, slots[ptr - 1], now) {
          rev[c] := s + 1;
          return;
        }
        i := i + 1;
      }
    }

    method Insert(flow: NatFlow, now: Millis) returns (slot: Option<nat>, evictedPort: Port, evictedIdx: nat)
      requires Valid()
      modifies this, slots, rev
      ensures Valid()
      ensures Insertion(View(), slot, evictedPort, evictedIdx) == NatSpec.Insert(e, old(View()), flow, now)
    {
      evictedPort, evictedIdx := 0, 0;
      var cap := slots.Length;
      var start := Home(e.hash, flow.fwdKey, cap);
      var i := 0;
      while i < cap
        invariant 0 <= i <= cap && View() == old(View())
        invariant evictedPort == 0 && evictedIdx == 0
        invariant FindVictim(e, View(), flow.fwdKey, now, i) == FindVictim(e, View(), flow.fwdKey, now, 0)
      {
        var s := Pos(start, i, cap);
        var victim := slots[s];
        if !victim.occupied || Expired(e, victim, now) {
          if !victim.occupied {
            size := size + 1;
          } else {
            evictedPort, evictedIdx := victim.snatPort, victim.backendIdx;
            if victim.reaped {
              size := size + 1;
            }
          }
          slots[s] := flow.(occupied := true, lastSeenMs := now);
          assert View() == PlaceAt(old(View()), s, flow, now);
          IndexReverse(s, now);
          return Some(s), evictedPort, evictedIdx;
        }
        i := i + 1;
      }
      return None, 0, 0;
    }

    method Close(s: nat) returns (releasedPort: Port, backendIdx: nat)
      requires Valid() && s < slots.Length
      modifies this, slots
      ensures Valid()
      ensures Closing(View(), releasedPort, backendIdx) == NatSpec.Close(old(View()), s)
    {
      releasedPort, backendIdx := 0, 0;
      if !slots[s].occupied || slots[s].reaped {
        return;
      }
      Reap(s);
      releasedPort, backendIdx := slots[s].snatPort, slots[s].backendIdx;
      slots[s] := slots[s].(snatPort := 0);
    }
  }
}
