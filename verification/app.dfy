/**
 * The module-level state of backend/app.py and the operations that change it:
 * the capture session (`sniffer`, `sniffer_iface`), the history (`captured`)
 * and the vendor cache (`vendor_cache`), with the route handlers' logic.
 * Each operation runs atomically here, as it does under `sniff_lock`.
 */
module App {
  import opened Options
  import opened Text
  import opened Frames
  import opened Vendor
  import opened Enrich
  import opened History
  import opened Interfaces

  /**
   * The capture started by `start_sniff`: its interface, the addresses its
   * `on_packet` closure captured (None where resolving failed), and whether
   * the capture thread still runs (`sniffer.running`).
   */
  datatype Session = Session(iface: string, myIp: Option<string>, myMac: Option<string>, running: bool)

  /** JSON bodies the routes send back. */
  datatype Body =
    | ErrorBody(error: string)
    | StatusBody(status: string)
    | StartedBody(status: string, iface: string)
    | NameList(names: seq<string>)
    | RecordList(records: seq<Record>)

  /** An HTTP status code with its JSON body. */
  datatype Reply = Reply(code: nat, body: Body)

  /**
   * What enumerating the host's interfaces gave: the names of the first
   * enumeration and of the second (the one asked whether "lo" exists), or
   * the text of the exception either raised.
   */
  datatype Listing = Listed(names: seq<string>, probe: seq<string>) | ListingFailed(message: string)

  /** `route_interfaces`: the ordered names, or a 500 error with the exception's text. */
  function RouteInterfaces(listing: Listing): (r: Reply)
    ensures r.code == 200 <==> listing.Listed?
    ensures listing.Listed? ==> r.body.NameList? && r.body.names == OrderInterfaces(listing.names, listing.probe)
    ensures listing.ListingFailed? ==> r.code == 500 && r.body == ErrorBody(listing.message)
  {
    match listing
    case Listed(names, probe) => Reply(200, NameList(OrderInterfaces(names, probe)))
    case ListingFailed(message) => Reply(500, ErrorBody(message))
  }

  class Backend {
    var sniffer: Option<Session>
    var snifferIface: Option<string>
    var captured: seq<Record>
    var vendorCache: map<string, string>
    /** Every key this process has sent to the vendor database. */
    ghost var asked: set<string>

    ghost predicate Valid()
      reads this
    {
      && |captured| <= MAX_STORE
      && snifferIface == (if sniffer.Some? then Some(sniffer.value.iface) else None)
      // cache keys are lower-case MACs and cached names are never empty
      && (forall k :: k in vendorCache ==> Lower(k) == k && vendorCache[k] != "")
      // the database's answer for every key it was asked about is kept
      && asked <= vendorCache.Keys
    }

    /** The state at import time. */
    constructor ()
      ensures Valid()
      ensures sniffer == None && snifferIface == None && captured == [] && vendorCache == map[] && asked == {}
    {
      sniffer := None;
      snifferIface := None;
      captured := [];
      vendorCache := map[];
      asked := {};
    }

    /** `safe_lookup_vendor(mac, ip_hint)` */
    method SafeLookupVendor(mac: string, ipHint: string, lookup: Oracle) returns (vendor: string)
      requires Valid()
      modifies this`vendorCache, this`asked
      ensures Valid()
      ensures var res := Resolve(old(vendorCache), mac, ipHint, lookup);
        && vendor == res.vendor
        && vendorCache == res.cache
        && asked == old(asked) + (if res.consulted then {Lower(mac)} else {})
      // the database is never asked twice about the same MAC
      ensures Resolve(old(vendorCache), mac, ipHint, lookup).consulted ==> Lower(mac) !in old(asked)
    {
      if ipHint != "" && (ipHint == "127.0.0.1" || StartsWith(ipHint, "127.")) {
        return LOCALHOST;
      }
      if mac == "" {
        return UNKNOWN;
      }
      var m := Lower(mac);
      if m in vendorCache {
        return vendorCache[m];
      }
      var reply := lookup(m);
      asked := asked + {m};
      match reply {
        case Answered(name) =>
          vendor := if name == "" then UNKNOWN else name;
        case Raised =>
          vendor := UNKNOWN;
      }
      LowerIdempotent(mac);
      vendorCache := vendorCache[m := vendor];
    }

    /**
     * `extract_packet(pkt, iface_my_ip, iface_my_mac)`: the try block's steps
     * in order, then the except clause's note on the summary.
     */
    method ExtractPacket(f: Frame, fault: Option<Fault>, myIp: Option<string>, myMac: Option<string>,
                         timeIso: string, lookup: Oracle) returns (info: Record)
      requires Valid()
      modifies this`vendorCache, this`asked
      ensures Valid()
      ensures var x := Extract(f, fault, myIp, myMac, timeIso, old(vendorCache), lookup);
        info == x.record && vendorCache == x.cache
    {
      // the try block
      var srcMac, dstMac, srcIp, dstIp, srcPort, dstPort := ReadLayers(f, fault);
      var srcVendor, dstVendor := LookupVendors(fault, srcMac, srcIp, dstMac, dstIp, lookup);
      var mine := IsMine(fault, dstMac, dstIp, myIp, myMac);
      // the except clause
      var summary := f.summary;
      if fault.Some? {
        summary := summary + " [parse_err:" + fault.value.message + "]";
      }
      info := Record(timeIso, srcIp, dstIp, srcPort, dstPort, srcMac, dstMac, srcVendor, dstVendor,
                     ProtocolName(f), f.size, summary, mine);
    }

    /** The address and port reads of `extract_packet`'s try block, up to `fault`. */
    static method ReadLayers(f: Frame, fault: Option<Fault>)
      returns (srcMac: string, dstMac: string, srcIp: string, dstIp: string, srcPort: Option<Port>, dstPort: Option<Port>)
      ensures (srcMac, dstMac) == MacsUpTo(f, fault)
      ensures (srcIp, dstIp) == IpsUpTo(f, fault)
      ensures (srcPort, dstPort) == PortsUpTo(f, fault)
    {
      srcMac, dstMac, srcIp, dstIp := "", "", "", "";
      srcPort, dstPort := None, None;
      if f.ether.Some? {
        if Runs(fault, SrcMacStep) { srcMac := f.ether.value.src; }
        if Runs(fault, DstMacStep) { dstMac := f.ether.value.dst; }
      }
      if f.ip.Some? {
        if Runs(fault, SrcIpStep) { srcIp := f.ip.value.src; }
        if Runs(fault, DstIpStep) { dstIp := f.ip.value.dst; }
      } else if f.ipv6.Some? {
        if Runs(fault, SrcIpStep) { srcIp := f.ipv6.value.src; }
        if Runs(fault, DstIpStep) { dstIp := f.ipv6.value.dst; }
      }
      if f.tcp.Some? {
        if Runs(fault, SrcPortStep) { srcPort := Some(f.tcp.value.sport); }
        if Runs(fault, DstPortStep) { dstPort := Some(f.tcp.value.dport); }
      } else if f.udp.Some? {
        if Runs(fault, SrcPortStep) { srcPort := Some(f.udp.value.sport); }
        if Runs(fault, DstPortStep) { dstPort := Some(f.udp.value.dport); }
      }
    }

    /** The two vendor lookups of `extract_packet`'s try block, source first, up to `fault`. */
    method LookupVendors(fault: Option<Fault>, srcMac: string, srcIp: string, dstMac: string, dstIp: string,
                         lookup: Oracle) returns (srcVendor: string, dstVendor: string)
      requires Valid()
      modifies this`vendorCache, this`asked
      ensures Valid()
      ensures var p := ResolveBoth(fault, old(vendorCache), srcMac, srcIp, dstMac, dstIp, lookup);
        srcVendor == p.srcVendor && dstVendor == p.dstVendor && vendorCache == p.cache
    {
      srcVendor, dstVendor := UNKNOWN, UNKNOWN;
      if Runs(fault, SourceVendorStep) {
        srcVendor := SafeLookupVendor(srcMac, srcIp, lookup);
      }
      if Runs(fault, DestVendorStep) {
        dstVendor := SafeLookupVendor(dstMac, dstIp, lookup);
      }
    }

    /** The ownership test of `extract_packet`'s try block, skipped when `fault` comes first. */
    static method IsMine(fault: Option<Fault>, dstMac: string, dstIp: string, myIp: Option<string>, myMac: Option<string>)
      returns (mine: bool)
      ensures mine == (Runs(fault, OwnershipStep) && MeantForMe(dstMac, dstIp, myIp, myMac))
    {
      mine := false;
      if Runs(fault, OwnershipStep) {
        if Truthy(myMac) && dstMac != "" && Lower(dstMac) == Lower(myMac.value) {
          mine := true;
        } else if Truthy(myIp) && dstIp != "" && dstIp == myIp.value {
          mine := true;
        } else if Truthy(myIp) && dstIp != "" && StartsWith(dstIp, "127.") && StartsWith(myIp.value, "127.") {
          mine := true;
        }
      }
    }

    /**
     * `start_sniff(interface)`, with the interface's address and hardware
     * address as resolved (None where resolving raised).
     */
    method StartSniff(iface: string, myIp: Option<string>, myMac: Option<string>) returns (ok: bool, msg: string)
      requires Valid()
      modifies this`sniffer, this`snifferIface
      ensures Valid()
      ensures ok <==> !(old(sniffer).Some? && old(sniffer).value.running)
      ensures !ok ==> msg == "already running" && sniffer == old(sniffer) && snifferIface == old(snifferIface)
      ensures ok ==> msg == "started" && sniffer == Some(Session(iface, myIp, myMac, true)) && snifferIface == Some(iface)
    {
      if sniffer.Some? && sniffer.value.running {
        return false, "already running";
      }
      sniffer := Some(Session(iface, myIp, myMac, true));
      snifferIface := Some(iface);
      return true, "started";
    }

    /**
     * The capture thread ends on its own (the capture source failed): the
     * session stays, but no longer counts as running.
     */
    method CaptureEnded()
      requires Valid()
      modifies this`sniffer
      ensures Valid()
      ensures sniffer == if old(sniffer).Some? then Some(old(sniffer).value.(running := false)) else None
    {
      if sniffer.Some? {
        sniffer := Some(sniffer.value.(running := false));
      }
    }

    /**
     * `on_packet(pkt)`, the closure `start_sniff` made over the interface's
     * addresses `myIp` and `myMac`: enrich, append, and evict the oldest record
     * beyond `MAX_STORE`. The addresses are the closure's own copies, not read
     * from `sniffer`: a frame still in flight after a stop, or after a restart
     * on another interface, is enriched with the addresses of the capture that
     * received it.
     */
    method OnPacket(f: Frame, fault: Option<Fault>, myIp: Option<string>, myMac: Option<string>,
                    timeIso: string, lookup: Oracle)
      requires Valid()
      modifies this`captured, this`vendorCache, this`asked
      ensures Valid()
      ensures var x := Extract(f, fault, myIp, myMac, timeIso, old(vendorCache), lookup);
        && captured == Admit(old(captured), x.record)
        && vendorCache == x.cache
    {
      var info := ExtractPacket(f, fault, myIp, myMac, timeIso, lookup);
      captured := captured + [info];
      if |captured| > MAX_STORE {
        captured := captured[1..];
      }
    }

    /** `stop_sniff()`: always succeeds and always leaves no session. */
    method StopSniff() returns (ok: bool, msg: string)
      requires Valid()
      modifies this`sniffer, this`snifferIface
      ensures Valid()
      ensures ok && msg == "stopped"
      ensures sniffer == None && snifferIface == None
    {
      if sniffer.Some? {
        sniffer := None;
        snifferIface := None;
      }
      return true, "stopped";
    }

    /** `route_start`: the interface name from the request body, if any. */
    method RouteStart(request: Option<string>, myIp: Option<string>, myMac: Option<string>) returns (r: Reply)
      requires Valid()
      modifies this`sniffer, this`snifferIface
      ensures Valid()
      ensures !Truthy(request) ==>
        r == Reply(400, ErrorBody("interface missing")) && sniffer == old(sniffer) && snifferIface == old(snifferIface)
      ensures Truthy(request) && old(sniffer).Some? && old(sniffer).value.running ==>
        r == Reply(400, ErrorBody("already running")) && sniffer == old(sniffer) && snifferIface == old(snifferIface)
      ensures Truthy(request) && !(old(sniffer).Some? && old(sniffer).value.running) ==>
        r == Reply(200, StartedBody("started", request.value)) && sniffer == Some(Session(request.value, myIp, myMac, true))
    {
      if !Truthy(request) {
        return Reply(400, ErrorBody("interface missing"));
      }
      var ok, msg := StartSniff(request.value, myIp, myMac);
      if !ok {
        return Reply(400, ErrorBody(msg));
      }
      return Reply(200, StartedBody("started", request.value));
    }

    /** `route_stop` */
    method RouteStop() returns (r: Reply)
      requires Valid()
      modifies this`sniffer, this`snifferIface
      ensures Valid()
      ensures r == Reply(200, StatusBody("stopped")) && sniffer == None
    {
      var ok, msg := StopSniff();
      return Reply(200, StatusBody(msg));
    }

    /** `route_clear`: empties the history and nothing else. */
    method RouteClear() returns (r: Reply)
      requires Valid()
      modifies this`captured
      ensures Valid()
      ensures r == Reply(200, StatusBody("cleared")) && captured == []
    {
      captured := [];
      return Reply(200, StatusBody("cleared"));
    }

    /** `route_packets`: the whole history, oldest first. */
    method RoutePackets() returns (r: Reply)
      requires Valid()
      ensures r.code == 200 && r.body.RecordList?
      ensures r.body.records == captured && |r.body.records| <= MAX_STORE
    {
      return Reply(200, RecordList(captured));
    }
  }
}
