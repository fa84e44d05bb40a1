/**
 * Classification and enrichment in backend/app.py: `PROTO_MAP`,
 * `protocol_name` and the record `extract_packet` builds, as functions.
 * The record's vendor fields go through the vendor resolver, so enrichment
 * takes the vendor cache and returns it updated.
 */
module Enrich {
  import opened Options
  import opened Text
  import opened Frames
  import opened Vendor

  /** `PROTO_MAP.get(proto, f"IP-{proto}")` */
  function ProtoLabel(proto: Byte): (text: string)
    ensures proto == 1 ==> text == "ICMP"
    ensures proto == 6 ==> text == "TCP"
    ensures proto == 17 ==> text == "UDP"
    ensures proto !in {1, 6, 17} ==> text == "IP-" + Decimal(proto)
    ensures text in {"ICMP", "TCP", "UDP"} || (StartsWith(text, "IP-") && |text| > 3)
  {
    if proto == 1 then "ICMP"
    else if proto == 6 then "TCP"
    else if proto == 17 then "UDP"
    else "IP-" + Decimal(proto)
  }

  /** Reads a protocol label back to its number; labels outside the table's image give None. */
  function ParseProtoLabel(text: string): Option<Byte> {
    if StartsWith(text, "IP-") && |text| > 3 && AllDigits(text[3..]) && ParseDecimal(text[3..]) < 256 then
      Some(ParseDecimal(text[3..]))
    else if text == "ICMP" then Some(1)
    else if text == "TCP" then Some(6)
    else if text == "UDP" then Some(17)
    else None
  }

  /** Every label reads back to the number it was made from. */
  lemma ProtoLabelRoundTrip(proto: Byte)
    ensures ParseProtoLabel(ProtoLabel(proto)) == Some(proto)
  {
    var t := ProtoLabel(proto);
    if proto in {1, 6, 17} {
      assert t[1] != 'P';
    } else {
      assert t[3..] == Decimal(proto);
      ParseDecimalInverts(proto);
    }
  }

  /** The label determines the protocol number: no two numbers share one. */
  lemma ProtoLabelInjective(a: Byte, b: Byte)
    requires ProtoLabel(a) == ProtoLabel(b)
    ensures a == b
  {
    ProtoLabelRoundTrip(a);
    ProtoLabelRoundTrip(b);
  }

  /** True when the frame carries no layer `protocol_name` asks about before IP. */
  predicate OnlyIp(f: Frame) {
    f.arp.None? && f.tcp.None? && f.udp.None? && f.icmp.None? && f.ipv6.None?
  }

  /** `protocol_name`: first match of ARP, TCP, UDP, ICMP, IPv6, IP, else OTHER. */
  function ProtocolName(f: Frame): (name: string)
    // first match: ARP, then TCP, UDP, ICMP, IPv6, then IPv4 through the table
    ensures f.arp.Some? ==> name == "ARP"
    ensures f.arp.None? && f.tcp.Some? ==> name == "TCP"
    ensures f.arp.None? && f.tcp.None? && f.udp.Some? ==> name == "UDP"
    ensures f.arp.None? && f.tcp.None? && f.udp.None? && f.icmp.Some? ==> name == "ICMP"
    ensures f.arp.None? && f.tcp.None? && f.udp.None? && f.icmp.None? && f.ipv6.Some? ==> name == "IPv6"
    ensures name == "OTHER" <==> OnlyIp(f) && f.ip.None?
    ensures OnlyIp(f) && f.ip.Some? ==> name == ProtoLabel(f.ip.value.proto)
    ensures name in {"ARP", "TCP", "UDP", "ICMP", "IPv6", "OTHER"} || StartsWith(name, "IP-")
  {
    if f.arp.Some? then "ARP"
    else if f.tcp.Some? then "TCP"
    else if f.udp.Some? then "UDP"
    else if f.icmp.Some? then "ICMP"
    else if f.ipv6.Some? then "IPv6"
    else if f.ip.Some? then
      var t := ProtoLabel(f.ip.value.proto);
      assert t[0] != 'O';
      t
    else "OTHER"
  }

  /** Precedence: an ARP layer wins over any IP or transport layer. */
  lemma ArpWinsOverIp(f: Frame)
    requires f.arp.Some? && (f.ip.Some? || f.ipv6.Some? || f.tcp.Some? || f.udp.Some?)
    ensures ProtocolName(f) == "ARP"
  {
  }

  /**
   * An IPv4 frame with protocol number 6 is labelled "TCP" even when no TCP
   * layer was decoded, because `PROTO_MAP` maps 6 to "TCP".
   */
  lemma ProtoSixWithoutTcpLayerIsTcp(f: Frame)
    requires OnlyIp(f) && f.ip.Some? && f.ip.value.proto == 6
    ensures ProtocolName(f) == "TCP"
  {
  }

  /** For frames carrying only IPv4, the label tells the protocol numbers apart. */
  lemma IpOnlyLabelDeterminesProto(f: Frame, g: Frame)
    requires OnlyIp(f) && OnlyIp(g) && f.ip.Some? && g.ip.Some?
    requires ProtocolName(f) == ProtocolName(g)
    ensures f.ip.value.proto == g.ip.value.proto
  {
    ProtoLabelInjective(f.ip.value.proto, g.ip.value.proto);
  }

  /**
   * The steps of `extract_packet`'s try block, in order. An exception raised
   * while decoding a field is described by the step it interrupts.
   */
  datatype Step =
    | SrcMacStep | DstMacStep       // the `Ether` assignments
    | SrcIpStep | DstIpStep         // the `IP` / `IPv6` assignments
    | SrcPortStep | DstPortStep     // the `TCP` / `UDP` assignments
    | SourceVendorStep              // the source vendor lookup
    | DestVendorStep                // the destination vendor lookup
    | OwnershipStep                 // the `meant_for_me` tests

  function Rank(s: Step): nat {
    match s
    case SrcMacStep => 0
    case DstMacStep => 1
    case SrcIpStep => 2
    case DstIpStep => 3
    case SrcPortStep => 4
    case DstPortStep => 5
    case SourceVendorStep => 6
    case DestVendorStep => 7
    case OwnershipStep => 8
  }

  /** The step at which extraction raised, and the exception's text. */
  datatype Fault = Fault(step: Step, message: string)

  /** Whether step `s` runs to completion: no fault, or the fault comes at a later step. */
  predicate Runs(fault: Option<Fault>, s: Step) {
    fault.None? || Rank(s) < Rank(fault.value.step)
  }

  /** The JSON record `extract_packet` returns; `None` ports serialise as null. */
  datatype Record = Record(
    timeIso: string,
    srcIp: string,
    dstIp: string,
    srcPort: Option<Port>,
    dstPort: Option<Port>,
    srcMac: string,
    dstMac: string,
    srcVendor: string,
    dstVendor: string,
    protocol: string,
    sizeBytes: nat,
    summary: string,
    meantForMe: bool)

  /** Link-layer addresses: the Ether header's, else empty. */
  function LinkAddresses(f: Frame): (string, string) {
    if f.ether.Some? then (f.ether.value.src, f.ether.value.dst) else ("", "")
  }

  /** Network addresses: IPv4 preferred, then IPv6, else empty. */
  function NetworkAddresses(f: Frame): (string, string) {
    if f.ip.Some? then (f.ip.value.src, f.ip.value.dst)
    else if f.ipv6.Some? then (f.ipv6.value.src, f.ipv6.value.dst)
    else ("", "")
  }

  /** Ports: TCP preferred, then UDP, else none. */
  function TransportPorts(f: Frame): (Option<Port>, Option<Port>) {
    if f.tcp.Some? then (Some(f.tcp.value.sport), Some(f.tcp.value.dport))
    else if f.udp.Some? then (Some(f.udp.value.sport), Some(f.udp.value.dport))
    else (None, None)
  }

  /**
   * `meant_for_me`, decided in order: own MAC (case-insensitive), own IP,
   * both loopback; each test needs its inputs to be non-empty.
   */
  function MeantForMe(dstMac: string, dstIp: string, myIp: Option<string>, myMac: Option<string>): (mine: bool)
    // each of the three rules suffices ...
    ensures Truthy(myMac) && dstMac != "" && Lower(dstMac) == Lower(myMac.value) ==> mine
    ensures Truthy(myIp) && dstIp == myIp.value ==> mine
    ensures Truthy(myIp) && dstIp != "" && StartsWith(dstIp, "127.") && StartsWith(myIp.value, "127.") ==> mine
    // ... and when none applies the frame is not mine
    ensures !(Truthy(myMac) && dstMac != "" && Lower(dstMac) == Lower(myMac.value))
         && !(Truthy(myIp) && dstIp != "" && dstIp == myIp.value)
         && !(Truthy(myIp) && dstIp != "" && StartsWith(dstIp, "127.") && StartsWith(myIp.value, "127."))
         ==> !mine
    // so nothing is mine without a non-empty destination and a known own address
    ensures mine ==> dstMac != "" || dstIp != ""
    ensures mine ==> Truthy(myMac) || Truthy(myIp)
  {
    if Truthy(myMac) && dstMac != "" && Lower(dstMac) == Lower(myMac.value) then true
    else if Truthy(myIp) && dstIp != "" && dstIp == myIp.value then true
    else if Truthy(myIp) && dstIp != "" && StartsWith(dstIp, "127.") && StartsWith(myIp.value, "127.") then true
    else false
  }

  /** Own-MAC matching ignores letter case on both sides. */
  lemma MeantForMeIgnoresMacCase(dstMac: string, dstMac2: string, dstIp: string,
                                 myIp: Option<string>, myMac: Option<string>)
    requires Lower(dstMac) == Lower(dstMac2)
    ensures MeantForMe(dstMac, dstIp, myIp, myMac) == MeantForMe(dstMac2, dstIp, myIp, myMac)
  {
    if dstMac == "" {
      assert dstMac2 == [];
    } else {
      assert |dstMac2| == |dstMac|;
    }
  }

  /** The summary, with the exception text appended when extraction raised. */
  function Annotated(summary: string, fault: Option<Fault>): string {
    match fault
    case None => summary
    case Some(e) => summary + " [parse_err:" + e.message + "]"
  }

  /** The two vendor names, the vendor cache afterwards, and the keys the database was asked for. */
  datatype VendorPass = VendorPass(srcVendor: string, dstVendor: string, cache: map<string, string>, asked: set<string>)

  /**
   * The two vendor lookups of `extract_packet`: resolve the source, then the destination,
   * each step only if the fault comes later.
   */
  function ResolveBoth(fault: Option<Fault>, cache: map<string, string>, srcMac: string, srcIp: string,
                       dstMac: string, dstIp: string, lookup: Oracle): (p: VendorPass)
    // the keys added are exactly the keys the database was asked for, none of them cached before
    ensures p.cache.Keys == cache.Keys + p.asked
    ensures p.asked !! cache.Keys
    // each new entry holds the database's answer for its key
    ensures forall k :: k in p.asked ==> p.cache[k] == VendorName(lookup(k))
    // the source is resolved on the cache as it was, the destination on the cache the source left
    ensures Runs(fault, SourceVendorStep) ==> p.srcVendor == Resolve(cache, srcMac, srcIp, lookup).vendor
    ensures Runs(fault, DestVendorStep) ==>
      var after := Resolve(cache, srcMac, srcIp, lookup).cache;
      p.dstVendor == Resolve(after, dstMac, dstIp, lookup).vendor && p.cache == Resolve(after, dstMac, dstIp, lookup).cache
    // a fault between the two leaves the destination "Unknown" and the source's cache
    ensures Runs(fault, SourceVendorStep) && !Runs(fault, DestVendorStep) ==>
      p.dstVendor == UNKNOWN && p.cache == Resolve(cache, srcMac, srcIp, lookup).cache
    // a fault before both leaves both "Unknown" and the cache untouched
    ensures !Runs(fault, SourceVendorStep) ==> p == VendorPass(UNKNOWN, UNKNOWN, cache, {})
  {
    var src := if Runs(fault, SourceVendorStep) then Resolve(cache, srcMac, srcIp, lookup)
               else Resolution(UNKNOWN, cache, false);
    var dst := if Runs(fault, DestVendorStep) then Resolve(src.cache, dstMac, dstIp, lookup)
               else Resolution(UNKNOWN, src.cache, false);
    VendorPass(src.vendor, dst.vendor, dst.cache,
               (if src.consulted then {Lower(srcMac)} else {}) + (if dst.consulted then {Lower(dstMac)} else {}))
  }

  /** The record, the vendor cache afterwards, and the keys the database was asked for. */
  datatype Enrichment = Enrichment(record: Record, cache: map<string, string>, asked: set<string>)

  /** The link addresses once the try block has run up to `fault`; each is assigned by its own statement. */
  function MacsUpTo(f: Frame, fault: Option<Fault>): (string, string) {
    (if Runs(fault, SrcMacStep) then LinkAddresses(f).0 else "",
     if Runs(fault, DstMacStep) then LinkAddresses(f).1 else "")
  }

  /** The network addresses once the try block has run up to `fault`. */
  function IpsUpTo(f: Frame, fault: Option<Fault>): (string, string) {
    (if Runs(fault, SrcIpStep) then NetworkAddresses(f).0 else "",
     if Runs(fault, DstIpStep) then NetworkAddresses(f).1 else "")
  }

  /** The ports once the try block has run up to `fault`. */
  function PortsUpTo(f: Frame, fault: Option<Fault>): (Option<Port>, Option<Port>) {
    (if Runs(fault, SrcPortStep) then TransportPorts(f).0 else None,
     if Runs(fault, DstPortStep) then TransportPorts(f).1 else None)
  }

  /** The vendor lookups of the try block, on the addresses found before them. */
  function VendorsUpTo(f: Frame, fault: Option<Fault>, cache: map<string, string>, lookup: Oracle): VendorPass {
    ResolveBoth(fault, cache, MacsUpTo(f, fault).0, IpsUpTo(f, fault).0, MacsUpTo(f, fault).1, IpsUpTo(f, fault).1, lookup)
  }

  /**
   * `extract_packet(pkt, iface_my_ip, iface_my_mac)` when the vendor cache is
   * `cache`, the clock reads `timeIso` and decoding raises as `fault` says.
   */
  function Extract(f: Frame, fault: Option<Fault>, myIp: Option<string>, myMac: Option<string>,
                   timeIso: string, cache: map<string, string>, lookup: Oracle): (x: Enrichment)
    // the vendor cache only grows: old entries keep their value, and the new
    // keys are exactly the MACs the database was asked about, none cached before
    ensures forall k :: k in cache ==> k in x.cache && x.cache[k] == cache[k]
    ensures x.cache.Keys == cache.Keys + x.asked
    ensures x.asked !! cache.Keys
    // each new entry holds the database's answer for its key
    ensures forall k :: k in x.asked ==> x.cache[k] == VendorName(lookup(k))
  {
    var vendors := VendorsUpTo(f, fault, cache, lookup);
    Enrichment(
      Record(timeIso, IpsUpTo(f, fault).0, IpsUpTo(f, fault).1, PortsUpTo(f, fault).0, PortsUpTo(f, fault).1,
             MacsUpTo(f, fault).0, MacsUpTo(f, fault).1, vendors.srcVendor, vendors.dstVendor,
             ProtocolName(f), f.size, Annotated(f.summary, fault),
             Runs(fault, OwnershipStep) && MeantForMe(MacsUpTo(f, fault).1, IpsUpTo(f, fault).1, myIp, myMac)),
      vendors.cache, vendors.asked)
  }

  /**
   * Without a fault every field comes from its layer: IPv4 before IPv6, TCP
   * before UDP, defaults "" and null, the source vendor resolved on the cache
   * as it was and the destination vendor on the cache the source left, and
   * the summary is the decoder's.
   */
  lemma ExtractWithoutFault(f: Frame, myIp: Option<string>, myMac: Option<string>,
                            timeIso: string, cache: map<string, string>, lookup: Oracle)
    ensures var x := Extract(f, None, myIp, myMac, timeIso, cache, lookup);
            var r := x.record;
      && r.timeIso == timeIso && r.sizeBytes == f.size
      && (r.srcMac, r.dstMac) == LinkAddresses(f)
      && (r.srcIp, r.dstIp) == NetworkAddresses(f)
      && (r.srcPort, r.dstPort) == TransportPorts(f)
      && r.protocol == ProtocolName(f)
      && r.summary == f.summary
      && r.meantForMe == MeantForMe(r.dstMac, r.dstIp, myIp, myMac)
      && r.srcVendor == Resolve(cache, r.srcMac, r.srcIp, lookup).vendor
      && r.dstVendor == Resolve(Resolve(cache, r.srcMac, r.srcIp, lookup).cache, r.dstMac, r.dstIp, lookup).vendor
      && x.cache == Resolve(Resolve(cache, r.srcMac, r.srcIp, lookup).cache, r.dstMac, r.dstIp, lookup).cache
  {
  }

  /**
   * Ports are non-null only when a TCP or UDP layer is present, TCP's first;
   * both are set or neither, unless reading the destination port raised.
   */
  lemma ExtractPortsOnlyForTransport(f: Frame, fault: Option<Fault>, myIp: Option<string>, myMac: Option<string>,
                                     timeIso: string, cache: map<string, string>, lookup: Oracle)
    ensures var r := Extract(f, fault, myIp, myMac, timeIso, cache, lookup).record;
      && (r.dstPort.Some? ==> r.srcPort.Some?)
      && (fault.None? || fault.value.step != DstPortStep ==> (r.srcPort.Some? <==> r.dstPort.Some?))
      && (r.srcPort.Some? ==> f.tcp.Some? || f.udp.Some?)
      && (r.srcPort.Some? && f.tcp.Some? ==> r.srcPort.value == f.tcp.value.sport)
      && (r.dstPort.Some? && f.tcp.Some? ==> r.dstPort.value == f.tcp.value.dport)
  {
  }

  /**
   * An exception never loses the record: protocol, size and time stand, the
   * summary gains " [parse_err:<message>]", and ownership is not asserted.
   */
  lemma ExtractAbsorbsFault(f: Frame, e: Fault, myIp: Option<string>, myMac: Option<string>,
                            timeIso: string, cache: map<string, string>, lookup: Oracle)
    ensures var r := Extract(f, Some(e), myIp, myMac, timeIso, cache, lookup).record;
      && r.protocol == ProtocolName(f) && r.sizeBytes == f.size && r.timeIso == timeIso
      && r.summary == f.summary + " [parse_err:" + e.message + "]"
      && !r.meantForMe
  {
  }

  /**
   * The statements before the fault keep their effect and the later ones
   * leave their defaults: "" addresses, null ports, "Unknown" vendors, cache
   * untouched. Each address and port is its own statement, so a fault on the
   * destination keeps the source.
   */
  lemma ExtractStopsAtFault(f: Frame, e: Fault, myIp: Option<string>, myMac: Option<string>,
                            timeIso: string, cache: map<string, string>, lookup: Oracle)
    ensures var x := Extract(f, Some(e), myIp, myMac, timeIso, cache, lookup);
            var r := x.record;
      && r.srcMac == (if e.step == SrcMacStep then "" else LinkAddresses(f).0)
      && r.dstMac == (if Rank(e.step) <= Rank(DstMacStep) then "" else LinkAddresses(f).1)
      && r.srcIp == (if Rank(e.step) <= Rank(SrcIpStep) then "" else NetworkAddresses(f).0)
      && r.dstIp == (if Rank(e.step) <= Rank(DstIpStep) then "" else NetworkAddresses(f).1)
      && r.srcPort == (if Rank(e.step) <= Rank(SrcPortStep) then None else TransportPorts(f).0)
      && r.dstPort == (if Rank(e.step) <= Rank(DstPortStep) then None else TransportPorts(f).1)
      && (Rank(e.step) <= Rank(SourceVendorStep) ==>
            r.srcVendor == UNKNOWN && r.dstVendor == UNKNOWN && x.cache == cache && x.asked == {})
      // a fault after the source lookup keeps its vendor; one at the destination lookup leaves that "Unknown"
      && (Rank(e.step) > Rank(SourceVendorStep) ==> r.srcVendor == Resolve(cache, r.srcMac, r.srcIp, lookup).vendor)
      && (e.step == DestVendorStep ==>
            r.dstVendor == UNKNOWN && x.cache == Resolve(cache, r.srcMac, r.srcIp, lookup).cache)
      && (e.step == OwnershipStep ==>
            var after := Resolve(cache, r.srcMac, r.srcIp, lookup).cache;
            r.dstVendor == Resolve(after, r.dstMac, r.dstIp, lookup).vendor
            && x.cache == Resolve(after, r.dstMac, r.dstIp, lookup).cache)
  {
  }

  /**
   * A TCP frame whose destination MAC is the interface's own, in any case,
   * is TCP, meant for this host, and has both ports.
   */
  lemma TcpToOwnMacScenario(f: Frame, myIp: Option<string>, myMac: string,
                            timeIso: string, cache: map<string, string>, lookup: Oracle)
    requires f.arp.None? && f.tcp.Some? && f.ether.Some?
    requires myMac != "" && f.ether.value.dst != "" && Lower(f.ether.value.dst) == Lower(myMac)
    ensures var r := Extract(f, None, myIp, Some(myMac), timeIso, cache, lookup).record;
      r.protocol == "TCP" && r.meantForMe && r.srcPort.Some? && r.dstPort.Some?
  {
  }

  /** An ARP frame is "ARP" with null ports. */
  lemma ArpScenario(f: Frame, fault: Option<Fault>, myIp: Option<string>, myMac: Option<string>,
                    timeIso: string, cache: map<string, string>, lookup: Oracle)
    requires f.arp.Some? && f.tcp.None? && f.udp.None?
    ensures var r := Extract(f, fault, myIp, myMac, timeIso, cache, lookup).record;
      r.protocol == "ARP" && r.srcPort.None? && r.dstPort.None?
  {
  }
}
