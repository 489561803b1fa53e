// Packet headers: how the parser, the steering stage and the rewriter read and write them.
module Headers {
  import opened Net
  import opened LbSpec

  datatype EtherType = Arp | Ipv4 | OtherEther

  // The header fields the pipeline looks at. For UDP the flag field is whatever lies at that offset.
  datatype Packet = Packet(
    etherType: EtherType, srcMac: Mac, dstMac: Mac,
    srcIp: Ip, dstIp: Ip, proto: nat, srcPort: Port, dstPort: Port, tcpFlags: nat)

  datatype Config = Config(vip: Ip, vipPort: Port, selfIp: Ip)

  // ---- the parser ----

  datatype Next = NextFwd | NextRev | NextDrop | NextArp

  predicate Transport(pkt: Packet) {
    pkt.etherType.Ipv4? && (pkt.proto == PROTO_TCP || pkt.proto == PROTO_UDP)
  }

  function Classify(cfg: Config, pkt: Packet): Next {
    if pkt.etherType.Arp? then NextArp
    else if !Transport(pkt) then NextDrop
    else if pkt.dstIp == cfg.vip && pkt.dstPort == cfg.vipPort then NextFwd
    else if pkt.dstIp == cfg.selfIp then NextRev
    else NextDrop
  }

  function MetaOf(cfg: Config, pkt: Packet): PacketMeta {
    PacketMeta(pkt.srcIp, pkt.dstIp, pkt.srcPort, pkt.dstPort, pkt.proto,
               if Classify(cfg, pkt).NextRev? then Reverse else Forward,
               0, 0, 0, 0, 0, pkt.srcMac, 0, if pkt.proto == PROTO_TCP then pkt.tcpFlags else 0)
  }

  // ---- the rewriter ----

  function Rewritten(cfg: Config, meta: PacketMeta, pkt: Packet): Packet {
    if meta.dir.Forward? then
      pkt.(srcIp := cfg.selfIp, dstIp := meta.backendIp, srcPort := meta.snatPort, dstPort := meta.backendPort)
    else
      pkt.(srcIp := cfg.vip, dstIp := meta.clientIp, srcPort := cfg.vipPort, dstPort := meta.clientPort)
  }

  // A packet in memory: its headers and the metadata the nodes pass along.
  class Mbuf {
    var hdr: Packet
    var meta: PacketMeta

    constructor (hdr: Packet, meta: PacketMeta)
      ensures this.hdr == hdr && this.meta == meta
    {
      this.hdr, this.meta := hdr, meta;
    }

    method Parse(cfg: Config) returns (next: Next)
      modifies this`meta
      ensures next == Classify(cfg, hdr)
      ensures meta == if Transport(hdr) then MetaOf(cfg, hdr) else old(meta)
    {
      if hdr.etherType.Arp? {
        return NextArp;
      }
      if !hdr.etherType.Ipv4? {
        return NextDrop;
      }
      if hdr.proto != PROTO_TCP && hdr.proto != PROTO_UDP {
        return NextDrop;
      }
      meta := PacketMeta(hdr.srcIp, hdr.dstIp, hdr.srcPort, hdr.dstPort, hdr.proto, Forward, 0, 0, 0, 0, 0, 0, 0, 0);
      meta := meta.(tcpFlags := if hdr.proto == PROTO_TCP then hdr.tcpFlags else 0);
      meta := meta.(clientMac := hdr.srcMac);
      if hdr.dstIp == cfg.vip && hdr.dstPort == cfg.vipPort {
        meta := meta.(dir := Forward);
        return NextFwd;
      }
      if hdr.dstIp == cfg.selfIp {
        meta := meta.(dir := Reverse);
        return NextRev;
      }
      return NextDrop;
    }

    method Rewrite(cfg: Config)
      modifies this`hdr
      ensures hdr == Rewritten(cfg, meta, old(hdr))
    {
      if meta.dir.Forward? {
        hdr := hdr.(srcIp := cfg.selfIp);
        hdr := hdr.(dstIp := meta.backendIp);
        hdr := hdr.(srcPort := meta.snatPort, dstPort := meta.backendPort);
      } else {
        hdr := hdr.(srcIp := cfg.vip);
        hdr := hdr.(dstIp := meta.clientIp);
        hdr := hdr.(srcPort := cfg.vipPort, dstPort := meta.clientPort);
      }
    }
  }

  // ---- 5-tuples ----

  datatype FiveTuple = FiveTuple(srcIp: Ip, dstIp: Ip, srcPort: Port, dstPort: Port, proto: nat)

  function TupleOfPacket(pkt: Packet): FiveTuple {
    FiveTuple(pkt.srcIp, pkt.dstIp, pkt.srcPort, pkt.dstPort, pkt.proto)
  }

  function Reversal(t: FiveTuple): FiveTuple {
    FiveTuple(t.dstIp, t.srcIp, t.dstPort, t.srcPort, t.proto)
  }

  // Packet r travels back along the 5-tuple of packet p.
  predicate Answers(r: Packet, p: Packet) {
    r.etherType.Ipv4? && TupleOfPacket(r) == Reversal(TupleOfPacket(p))
  }

  // ---- steering ----

  datatype Steering = SteerArp | SteerDrop | SteerTo(worker: nat)

  function ClassifyForSteer(cfg: Config, hash: Hasher, pkt: Packet, workers: nat): (r: Steering)
    requires 0 < workers
    ensures r.SteerTo? ==> r.worker < workers
  {
    if pkt.etherType.Arp? then SteerArp
    else if !pkt.etherType.Ipv4? then SteerDrop
    else if pkt.proto != PROTO_TCP && pkt.proto != PROTO_UDP then SteerDrop
    else if pkt.dstIp == cfg.vip && pkt.dstPort == cfg.vipPort then
      SteerTo(SteerWorker(hash, FlowKey(pkt.srcIp, pkt.dstIp, pkt.srcPort, pkt.dstPort, pkt.proto), workers))
    else if pkt.dstIp == cfg.selfIp then SteerTo(pkt.dstPort % workers)
    else SteerDrop
  }

  // The stages agree: what is steered to a worker is what the worker's parser hands to the balancer.
  lemma SteeringAgreesWithParser(cfg: Config, hash: Hasher, pkt: Packet, workers: nat)
    requires 0 < workers
    ensures ClassifyForSteer(cfg, hash, pkt, workers).SteerTo?
      <==> Classify(cfg, pkt).NextFwd? || Classify(cfg, pkt).NextRev?
    ensures ClassifyForSteer(cfg, hash, pkt, workers).SteerArp? <==> Classify(cfg, pkt).NextArp?
  {
  }
}
