// Full NAT, end to end: a client's packet, the backend's answer, and the answer the client sees.
module RoundTrip {
  import opened Net
  import opened NatSpec
  import opened NatInsertion
  import opened BackendPools
  import opened LbSpec
  import opened LbRuns
  import opened LbInvariants
  import opened LbLifecycle
  import opened LbHistory
  import opened LbFlows
  import opened LbTheorems
  import opened LbAdmission
  import opened Headers

  // The flow as it can be told from its first packet after translation.
  function FlowSeen(meta: PacketMeta): NatFlow {
    NO_FLOW.(fwdKey := KeyOf(meta), backendIp := meta.backendIp, backendPort := meta.backendPort,
      snatPort := meta.snatPort)
  }

  // A life only depends on the key and the reply tuple of the flow.
  lemma {:induction false} LifeOfSeen(e: Env, f: NatFlow, g: NatFlow, life: Life, evs: seq<Event>)
    requires f.fwdKey == g.fwdKey && TupleOf(f) == TupleOf(g)
    ensures LifeAfter(e, f, life, evs) == LifeAfter(e, g, life, evs)
  {
    if evs != [] {
      LifeOfSeen(e, f, g, life, evs[..|evs| - 1]);
    }
  }

  // The answer to a translated packet is taken for a reply exactly when it cannot be mistaken for a
  // packet to the virtual address.
  lemma AnswerParsed(cfg: Config, p: Packet, meta: PacketMeta, r: Packet)
    requires Classify(cfg, p).NextFwd? && meta.dir.Forward? && Answers(r, Rewritten(cfg, meta, p))
    ensures Classify(cfg, r).NextRev? <==> !(cfg.selfIp == cfg.vip && meta.snatPort == cfg.vipPort)
    ensures ReplyTuple(MetaOf(cfg, r)) == RevTuple(meta.backendIp, meta.backendPort, meta.snatPort, p.proto)
  {
  }

  // Event k carries packet pkt as the parser hands it over.
  predicate Carries(cfg: Config, ev: Event, pkt: Packet) {
    ev.meta == MetaOf(cfg, pkt) && (Classify(cfg, pkt).NextFwd? || Classify(cfg, pkt).NextRev?)
  }

  lemma ReplyTranslated(e: Env, cap: nat, init: seq<Port>, list: seq<Backend>, evs: seq<Event>, i: nat, k: nat)
    requires 0 < cap && GoodPorts(init) && DistinctBackends(list) && Deployed(evs, list) && i < k < |evs|
    requires Opens(e, After(e, Start(cap, init), evs[..i]), evs[i]) && !HasFlag(evs[i].meta.tcpFlags, TCP_RST)
    requires SpareCell(e, After(e, Start(cap, init), evs[..i]).table, evs[i].now)
    requires WithinLife(e, evs, FlowSeen(Verdict(e, Start(cap, init), evs, i).value), i, k) && evs[k].meta.dir.Reverse?
    ensures var out := Verdict(e, Start(cap, init), evs, k);
      out.Some? && out.value.dir == Reverse && out.value.clientIp == evs[i].meta.srcIp
        && out.value.clientPort == evs[i].meta.srcPort
  {
    var f := Connection(e, cap, init, list, evs, i);
    var g := FlowSeen(Verdict(e, Start(cap, init), evs, i).value);
    assert f.fwdKey == g.fwdKey && TupleOf(f) == TupleOf(g);
    LifeOfSeen(e, f, g, NewLife(evs[i]), evs[i + 1..k]);
    assert WithinLife(e, evs, f, i, k);
  }

  // Every forward packet of the connection leaves on the same 5-tuple as the first.
  lemma ForwardTranslated(e: Env, cap: nat, init: seq<Port>, list: seq<Backend>, evs: seq<Event>, i: nat, j: nat)
    requires 0 < cap && GoodPorts(init) && DistinctBackends(list) && Deployed(evs, list) && i < j < |evs|
    requires Opens(e, After(e, Start(cap, init), evs[..i]), evs[i]) && !HasFlag(evs[i].meta.tcpFlags, TCP_RST)
    requires SpareCell(e, After(e, Start(cap, init), evs[..i]).table, evs[i].now)
    requires WithinLife(e, evs, FlowSeen(Verdict(e, Start(cap, init), evs, i).value), i, j) && evs[j].meta.dir.Forward?
    ensures var first, out := Verdict(e, Start(cap, init), evs, i).value, Verdict(e, Start(cap, init), evs, j);
      out.Some? && out.value.dir == Forward && FlowSeen(out.value) == FlowSeen(first)
  {
    var f := Connection(e, cap, init, list, evs, i);
    var g := FlowSeen(Verdict(e, Start(cap, init), evs, i).value);
    assert f.fwdKey == g.fwdKey && TupleOf(f) == TupleOf(g);
    LifeOfSeen(e, f, g, NewLife(evs[i]), evs[i + 1..j]);
    assert WithinLife(e, evs, f, i, j);
  }

  // The answer to any forward packet p of a connection comes out as the exact reversal of p, for as
  // long as the connection lives. Event i opens it, event j carries p, event k the answer.
  lemma FullNatRoundTrip(cfg: Config, e: Env, cap: nat, init: seq<Port>, list: seq<Backend>, evs: seq<Event>,
                         i: nat, j: nat, k: nat, p: Packet, r: Packet)
    requires 0 < cap && GoodPorts(init) && DistinctBackends(list) && Deployed(evs, list) && i <= j < k < |evs|
    requires cfg.vip != cfg.selfIp || cfg.vipPort !in init
    requires Opens(e, After(e, Start(cap, init), evs[..i]), evs[i]) && !HasFlag(evs[i].meta.tcpFlags, TCP_RST)
    requires SpareCell(e, After(e, Start(cap, init), evs[..i]).table, evs[i].now)
    requires Classify(cfg, p).NextFwd? && Carries(cfg, evs[j], p) && Carries(cfg, evs[k], r)
    requires var f := FlowSeen(Verdict(e, Start(cap, init), evs, i).value);
      (j == i || WithinLife(e, evs, f, i, j)) && WithinLife(e, evs, f, i, k)
    requires var sent := Verdict(e, Start(cap, init), evs, j); sent.Some? ==> Answers(r, Rewritten(cfg, sent.value, p))
    ensures var back := Verdict(e, Start(cap, init), evs, k);
      back.Some? && TupleOfPacket(Rewritten(cfg, back.value, r)) == Reversal(TupleOfPacket(p))
  {
    var f := Connection(e, cap, init, list, evs, i);
    if i < j {
      ForwardTranslated(e, cap, init, list, evs, i, j);
    }
    AnswerParsed(cfg, p, Verdict(e, Start(cap, init), evs, j).value, r);
    ReplyTranslated(e, cap, init, list, evs, i, k);
  }

  // ---- the configuration in which replies are misparsed ----

  // The first packet a node gets opens a flow, on the port on top of the free list.
  lemma FirstPacket(e: Env, cap: nat, init: seq<Port>, ev: Event)
    requires 0 < cap && 0 !in init && init != [] && Sound(ev) && Active(ev) && ev.meta.dir.Forward?
    requires ev.meta.proto == PROTO_TCP ==> HasFlag(ev.meta.tcpFlags, TCP_SYN)
    ensures var sent := Step(e, Start(cap, init), ev).result;
      sent.Some? && sent.value.dir.Forward? && sent.value.snatPort == init[|init| - 1]
  {
    var st := Start(cap, init);
    StartInv(e, cap, init);
    assert !LiveAt(e, st.table.slots[0], ev.now);
    OpensExactly(e, st, ev, init);
    OpensByCreating(e, st, ev, init);
    CreateFlowStores(e, AfterMiss(e, st, ev), ev.meta, ev.pool.value, ev.now, init);
  }

  // With one address for both roles and the virtual port on top of the free list, the very first
  // connection is sent on from the virtual port, every answer to it is taken for a client's packet,
  // and what becomes of it is at best another translation towards a backend.
  lemma RepliesMisparsed(cfg: Config, e: Env, cap: nat, init: seq<Port>, pool: Pool, p: Packet, r: Packet, now: Millis)
    requires cfg.vip == cfg.selfIp && 0 < cap && 0 !in init && init != [] && init[|init| - 1] == cfg.vipPort
    requires Fits(pool) && pool.active != [] && Classify(cfg, p).NextFwd?
    requires p.proto == PROTO_TCP ==> HasFlag(p.tcpFlags, TCP_SYN)
    requires var sent := Step(e, Start(cap, init), Event(MetaOf(cfg, p), Some(pool), now)).result;
      sent.Some? ==> Answers(r, Rewritten(cfg, sent.value, p))
    ensures var first, second := Event(MetaOf(cfg, p), Some(pool), now), Event(MetaOf(cfg, r), Some(pool), now);
      && Verdict(e, Start(cap, init), [first, second], 0).Some?
      && Classify(cfg, r).NextFwd?
      && var back := Verdict(e, Start(cap, init), [first, second], 1); back.Some? ==> back.value.dir.Forward?
  {
    var first, second := Event(MetaOf(cfg, p), Some(pool), now), Event(MetaOf(cfg, r), Some(pool), now);
    var evs := [first, second];
    FirstPacket(e, cap, init, first);
    AnswerParsed(cfg, p, Step(e, Start(cap, init), first).result.value, r);
    assert evs[..0] == [] && evs[..1] == [first];
  }
}
