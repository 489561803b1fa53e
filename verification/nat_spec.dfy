// What the connection table computes, as functions on its contents.
module NatSpec {
  import opened Net

  datatype NatFlow = NatFlow(
    fwdKey: FlowKey,
    clientMac: Mac,
    backendIp: Ip,
    backendMac: Mac,
    backendPort: Port,
    snatPort: Port,
    backendIdx: nat,
    lastSeenMs: Millis,
    finForward: bool,
    finReverse: bool,
    reaped: bool,
    occupied: bool)

  const NO_KEY := FlowKey(0, 0, 0, 0, 0)
  const NO_FLOW := NatFlow(NO_KEY, 0, 0, 0, 0, 0, 0, 0, false, false, false, false)

  // What the replies of a backend identify a flow by.
  datatype RevTuple = RevTuple(backendIp: Ip, backendPort: Port, snatPort: Port, proto: nat)

  datatype Env = Env(hash: Hasher, timeoutMs: Millis)

  // rev holds 0 for "never used" and slot + 1 otherwise.
  datatype Table = Table(slots: seq<NatFlow>, rev: seq<nat>, size: nat)

  predicate Shaped(t: Table) {
    && 0 < |t.slots| == |t.rev|
    && forall c | 0 <= c < |t.rev| :: t.rev[c] <= |t.slots|
  }

  function EmptyTable(cap: nat): (t: Table) {
    Table(seq(cap, _ => NO_FLOW), seq(cap, _ => 0), 0)
  }

  function TupleOf(f: NatFlow): RevTuple {
    RevTuple(f.backendIp, f.backendPort, f.snatPort, f.fwdKey.proto)
  }

  function RevKey(r: RevTuple): FlowKey {
    FlowKey(r.backendIp, 0, r.backendPort, r.snatPort, r.proto)
  }

  predicate Expired(e: Env, f: NatFlow, now: Millis) {
    f.occupied && (f.reaped || (now - f.lastSeenMs) % TWO32 > e.timeoutMs)
  }

  // An occupied entry that still counts as a connection.
  predicate Open(f: NatFlow) {
    f.occupied && !f.reaped
  }

  predicate LiveAt(e: Env, f: NatFlow, now: Millis) {
    f.occupied && !Expired(e, f, now)
  }

  // ---- operations ----

  function ReapAt(t: Table, s: nat): Table
    requires s < |t.slots|
  {
    if t.slots[s].reaped then t
    else Table(t.slots[s := t.slots[s].(reaped := true)], t.rev, if t.size > 0 then t.size - 1 else 0)
  }

  function TouchAt(t: Table, s: nat, now: Millis): Table
    requires s < |t.slots|
  {
    t.(slots := t.slots[s := t.slots[s].(lastSeenMs := now)])
  }

  datatype Search = Search(table: Table, slot: Option<nat>)

  // A lookup asks for a forward key or for the tuple of a reply.
  datatype Query = ByKey(key: FlowKey) | ByTuple(tuple: RevTuple)

  function HashKey(q: Query): FlowKey {
    match q
    case ByKey(key) => key
    case ByTuple(tuple) => RevKey(tuple)
  }

  predicate Matches(q: Query, f: NatFlow) {
    match q
    case ByKey(key) => f.fwdKey == key
    case ByTuple(tuple) => TupleOf(f) == tuple
  }

  // The slot looked at by the i-th probe, or None when the probe ends there: a forward
  // probe walks the slots up to a free one, a reverse probe the cells up to an unused one.
  function Candidate(e: Env, t: Table, q: Query, i: nat): (s: Option<nat>)
    requires Shaped(t) && i < |t.slots|
    ensures s.Some? ==> s.value < |t.slots|
  {
    var p := Pos(Home(e.hash, HashKey(q), |t.slots|), i, |t.slots|);
    if q.ByKey? then
      if t.slots[p].occupied then Some(p) else None
    else
      if t.rev[p] == 0 then None else Some(t.rev[p] - 1)
  }

  datatype Probed = Stopped | Hit(slot: nat) | Passed(table: Table)

  // One step of a probe: an expired entry is reaped and passed, a match ends the search.
  function Probe(e: Env, t: Table, q: Query, now: Millis, i: nat): (r: Probed)
    requires Shaped(t) && i < |t.slots|
    ensures r.Hit? ==> r.slot < |t.slots|
    ensures r.Passed? ==> Shaped(r.table) && |r.table.slots| == |t.slots| && r.table.rev == t.rev
  {
    match Candidate(e, t, q, i)
    case None => Stopped
    case Some(s) =>
      if Expired(e, t.slots[s], now) then Passed(ReapAt(t, s))
      else if t.slots[s].occupied && Matches(q, t.slots[s]) then Hit(s)
      else Passed(t)
  }

  // The probe from its i-th step on.
  function Find(e: Env, t: Table, q: Query, now: Millis, i: nat): (r: Search)
    requires Shaped(t) && i <= |t.slots|
    ensures |r.table.slots| == |t.slots| && r.table.rev == t.rev
    ensures r.slot.Some? ==> r.slot.value < |t.slots|
    decreases |t.slots| - i
  {
    if i == |t.slots| then Search(t, None)
    else
      match Probe(e, t, q, now, i)
      case Stopped => Search(t, None)
      case Hit(s) => Search(t, Some(s))
      case Passed(u) => Find(e, u, q, now, i + 1)
  }

  // A hit is stamped with the time of the lookup.
  function Lookup(e: Env, t: Table, q: Query, now: Millis): (r: Search)
    requires Shaped(t)
    ensures Shaped(r.table) && |r.table.slots| == |t.slots| && r.table.rev == t.rev
    ensures r.slot.Some? ==> r.slot.value < |t.slots|
  {
    var r := Find(e, t, q, now, 0);
    if r.slot.Some? then Search(TouchAt(r.table, r.slot.value, now), r.slot) else r
  }

  // The first slot, from probe i on, that is free or expired.
  function FindVictim(e: Env, t: Table, key: FlowKey, now: Millis, i: nat): (s: Option<nat>)
    requires Shaped(t) && i <= |t.slots|
    ensures s.Some? ==> s.value < |t.slots|
    decreases |t.slots| - i
  {
    if i == |t.slots| then None
    else
      var s := Pos(Home(e.hash, key, |t.slots|), i, |t.slots|);
      if !t.slots[s].occupied || Expired(e, t.slots[s], now) then Some(s)
      else FindVictim(e, t, key, now, i + 1)
  }

  // A reverse cell that may be taken over.
  predicate Reusable(e: Env, t: Table, c: nat, now: Millis)
    requires Shaped(t) && c < |t.rev|
  {
    t.rev[c] == 0 || !t.slots[t.rev[c] - 1].occupied || Expired(e, t.slots[t.rev[c] - 1], now)
  }

  // The first reusable reverse cell from probe i on.
  function FindCell(e: Env, t: Table, tuple: RevTuple, now: Millis, i: nat): (c: Option<nat>)
    requires Shaped(t) && i <= |t.slots|
    ensures c.Some? ==> c.value < |t.rev|
    decreases |t.slots| - i
  {
    if i == |t.slots| then None
    else
      var c := Pos(Home(e.hash, RevKey(tuple), |t.slots|), i, |t.slots|);
      if Reusable(e, t, c, now) then Some(c)
      else FindCell(e, t, tuple, now, i + 1)
  }

  function IndexReverse(e: Env, t: Table, s: nat, now: Millis): (t': Table)
    requires Shaped(t) && s < |t.slots|
    ensures Shaped(t') && |t'.slots| == |t.slots|
  {
    var c := FindCell(e, t, TupleOf(t.slots[s]), now, 0);
    if c.Some? then t.(rev := t.rev[c.value := s + 1]) else t
  }

  // Overwriting slot s, before the reverse index learns of it.
  function PlaceAt(t: Table, s: nat, flow: NatFlow, now: Millis): (t': Table)
    requires s < |t.slots|
  {
    Table(t.slots[s := flow.(occupied := true, lastSeenMs := now)], t.rev,
          if !t.slots[s].occupied || t.slots[s].reaped then t.size + 1 else t.size)
  }

  datatype Insertion = Insertion(table: Table, slot: Option<nat>, evictedPort: Port, evictedIdx: nat)

  function Insert(e: Env, t: Table, flow: NatFlow, now: Millis): (r: Insertion)
    requires Shaped(t)
    ensures Shaped(r.table) && |r.table.slots| == |t.slots|
    ensures r.slot.Some? ==> r.slot.value < |t.slots|
  {
    var v := FindVictim(e, t, flow.fwdKey, now, 0);
    if v.None? then Insertion(t, None, 0, 0)
    else
      var s := v.value;
      var old_ := t.slots[s];
      Insertion(IndexReverse(e, PlaceAt(t, s, flow, now), s, now), v,
                if old_.occupied then old_.snatPort else 0,
                if old_.occupied then old_.backendIdx else 0)
  }

  datatype Closing = Closing(table: Table, releasedPort: Port, backendIdx: nat)

  function Close(t: Table, s: nat): (r: Closing)
    requires Shaped(t) && s < |t.slots|
    ensures Shaped(r.table) && |r.table.slots| == |t.slots| && r.table.rev == t.rev
  {
    var f := t.slots[s];
    if !f.occupied || f.reaped then Closing(t, 0, 0)
    else
      var u := ReapAt(t, s);
      Closing(u.(slots := u.slots[s := u.slots[s].(snatPort := 0)]), f.snatPort, f.backendIdx)
  }
}
