/**
 * backend/packet_sniffer.py: the stand-alone `PacketSniffer`, a capture
 * session that throttles frames to one per 200 ms, numbers the ones it keeps
 * and hands each, described by its own classifier, to a callback.
 *
 * The clock is an input in integer milliseconds (`time.time()` scaled), the
 * wall-clock stamp `datetime.now().strftime(...)` an opaque string, and the
 * callback is recorded as the ghost log of what it was handed.
 */
module Sniffer {
  import opened Options
  import opened Text
  import opened Frames
  import Enrich

  /** `throttle_interval`, 0.2 s. */
  const THROTTLE_MS: nat := 200

  /** The placeholder of every field the frame does not fill. */
  const NA: string := "N/A"

  /**
   * The dict `extract_packet_info` builds; a port that stays 'N/A' is None.
   */
  datatype PacketInfo = PacketInfo(
    id: nat,
    timestamp: string,
    protocol: string,
    size: nat,
    srcIp: string,
    dstIp: string,
    srcPort: Option<Port>,
    dstPort: Option<Port>,
    srcMac: string,
    dstMac: string)

  /** The protocol text of an IPv4 frame with no TCP, UDP or ICMP layer. */
  function IpLabel(proto: Byte): (text: string)
    ensures |text| >= 6 && StartsWith(text, "IP (") && text[|text| - 1] == ')'
    // the number between the parentheses is written as `f"{n}"` writes it
    ensures text[4..|text| - 1] == Decimal(proto)
    // the number between the parentheses is the protocol number, in decimal
    ensures AllDigits(text[4..|text| - 1]) && ParseDecimal(text[4..|text| - 1]) == proto
  {
    var text := "IP (" + Decimal(proto) + ")";
    assert text[4..|text| - 1] == Decimal(proto);
    ParseDecimalInverts(proto);
    text
  }

  /** Two IPv4 frames labelled alike carry the same protocol number. */
  lemma IpLabelInjective(a: Byte, b: Byte)
    requires IpLabel(a) == IpLabel(b)
    ensures a == b
  {
  }

  /**
   * `extract_packet_info(packet)` with `packet_count` equal to `id` and the
   * clock's stamp `stamp`: IPv4 first (TCP, then UDP, then ICMP, then the
   * protocol number), ARP only when there is no IPv4 layer.
   */
  function Describe(f: Frame, id: nat, stamp: string): (info: PacketInfo)
    ensures info.id == id && info.timestamp == stamp && info.size == f.size
    ensures info.protocol in {"TCP", "UDP", "ICMP", "ARP", "Unknown"} || StartsWith(info.protocol, "IP (")
  {
    var macs := if f.ether.Some? then (f.ether.value.src, f.ether.value.dst) else (NA, NA);
    var base := PacketInfo(id, stamp, "Unknown", f.size, NA, NA, None, None, macs.0, macs.1);
    if f.ip.Some? then
      var ip := f.ip.value;
      var withIp := base.(srcIp := ip.src, dstIp := ip.dst);
      if f.tcp.Some? then
        withIp.(protocol := "TCP", srcPort := Some(f.tcp.value.sport), dstPort := Some(f.tcp.value.dport))
      else if f.udp.Some? then
        withIp.(protocol := "UDP", srcPort := Some(f.udp.value.sport), dstPort := Some(f.udp.value.dport))
      else if f.icmp.Some? then
        withIp.(protocol := "ICMP")
      else
        withIp.(protocol := IpLabel(ip.proto))
    else if f.arp.Some? then
      base.(protocol := "ARP", srcIp := f.arp.value.psrc, dstIp := f.arp.value.pdst)
    else
      base
  }

  /**
   * With an IPv4 layer the addresses are the IPv4 ones, whatever else the
   * frame holds, and the protocol is the first of TCP, UDP, ICMP present,
   * else the protocol number.
   */
  lemma DescribeIpFirst(f: Frame, id: nat, stamp: string)
    requires f.ip.Some?
    ensures var info := Describe(f, id, stamp);
      && info.srcIp == f.ip.value.src && info.dstIp == f.ip.value.dst
      && info.protocol == (if f.tcp.Some? then "TCP" else if f.udp.Some? then "UDP"
                           else if f.icmp.Some? then "ICMP" else IpLabel(f.ip.value.proto))
  {
  }

  /** A frame with both an IPv4 and an ARP layer is never described as ARP. */
  lemma IpShadowsArp(f: Frame, id: nat, stamp: string)
    requires f.ip.Some? && f.arp.Some?
    ensures Describe(f, id, stamp).protocol != "ARP"
  {
  }

  /** Without IPv4, an ARP frame's addresses are the ARP sender and target. */
  lemma DescribeArp(f: Frame, id: nat, stamp: string)
    requires f.ip.None? && f.arp.Some?
    ensures var info := Describe(f, id, stamp);
      && info.protocol == "ARP"
      && info.srcIp == f.arp.value.psrc && info.dstIp == f.arp.value.pdst
      && info.srcPort.None? && info.dstPort.None?
  {
  }

  /** "Unknown", with every address 'N/A', exactly when there is neither IPv4 nor ARP. */
  lemma DescribeUnknown(f: Frame, id: nat, stamp: string)
    ensures var info := Describe(f, id, stamp);
      && (info.protocol == "Unknown" <==> f.ip.None? && f.arp.None?)
      && (info.protocol == "Unknown" ==> info.srcIp == NA && info.dstIp == NA)
  {
    if f.ip.Some? && f.tcp.None? && f.udp.None? && f.icmp.None? {
      assert Describe(f, id, stamp).protocol[0] == 'I';
    }
  }

  /**
   * Ports stay 'N/A' unless an IPv4 frame carries TCP or UDP, TCP's taken
   * first; the hardware addresses stay 'N/A' unless there is an Ethernet layer.
   */
  lemma DescribePortsAndMacs(f: Frame, id: nat, stamp: string)
    ensures var info := Describe(f, id, stamp);
      && (info.srcPort.Some? <==> f.ip.Some? && (f.tcp.Some? || f.udp.Some?))
      && (info.dstPort.Some? <==> info.srcPort.Some?)
      && (info.srcPort.Some? && f.tcp.Some? ==> info.srcPort.value == f.tcp.value.sport && info.dstPort.value == f.tcp.value.dport)
      && (info.srcPort.Some? && f.tcp.None? ==> info.srcPort.value == f.udp.value.sport && info.dstPort.value == f.udp.value.dport)
      && (f.ether.Some? ==> info.srcMac == f.ether.value.src && info.dstMac == f.ether.value.dst)
      && (f.ether.None? ==> info.srcMac == NA && info.dstMac == NA)
  {
  }

  /**
   * The two classifiers of the backend agree on an IPv4 TCP or UDP frame
   * without ARP, and disagree where their precedences differ: ARP beside
   * IPv4, and TCP carried over IPv6 alone.
   */
  lemma ClassifiersCompared(f: Frame, id: nat, stamp: string)
    ensures f.arp.None? && f.ip.Some? && f.tcp.Some? ==>
      Describe(f, id, stamp).protocol == Enrich.ProtocolName(f) == "TCP"
    ensures f.arp.None? && f.ip.Some? && f.tcp.None? && f.udp.Some? ==>
      Describe(f, id, stamp).protocol == Enrich.ProtocolName(f) == "UDP"
    ensures f.arp.Some? && f.ip.Some? ==>
      Enrich.ProtocolName(f) == "ARP" && Describe(f, id, stamp).protocol != "ARP"
    ensures f.arp.None? && f.ip.None? && f.ipv6.Some? && f.tcp.Some? ==>
      Enrich.ProtocolName(f) == "TCP" && Describe(f, id, stamp).protocol == "Unknown"
  {
  }

  /** The fields of `PacketSniffer` that its methods change. */
  datatype Counters = Counters(running: bool, paused: bool, count: nat, last: int)

  /** `__init__`: stopped, not paused, nothing counted, last time 0. */
  const INITIAL: Counters := Counters(false, false, 0, 0)

  /** Whether `process_packet` keeps a frame arriving at `now`. */
  predicate Keeps(c: Counters, now: int) {
    c.running && !c.paused && now - c.last >= THROTTLE_MS
  }

  /** The counters after `process_packet` sees a frame at `now`. */
  function Process(c: Counters, now: int): (d: Counters)
    ensures d.running == c.running && d.paused == c.paused
    ensures d.count == c.count + (if Keeps(c, now) then 1 else 0)
    ensures d.last == (if Keeps(c, now) then now else c.last)
  {
    if !c.running || c.paused then c
    else if now - c.last < THROTTLE_MS then c
    else c.(last := now, count := c.count + 1)
  }

  /** The counters after frames arrive at the instants `times`, in order. */
  function ProcessAll(c: Counters, times: seq<int>): Counters
    decreases |times|
  {
    if |times| == 0 then c else ProcessAll(Process(c, times[0]), times[1..])
  }

  /** `a` is `b` with some elements left out, the rest in their order. */
  predicate Subsequence(a: seq<int>, b: seq<int>)
    decreases |b|
  {
    |a| == 0 || (|b| > 0 && ((a[0] == b[0] && Subsequence(a[1..], b[1..])) || Subsequence(a, b[1..])))
  }

  /** The instants, among `times`, of the frames that are kept. */
  function KeptAt(c: Counters, times: seq<int>): (kept: seq<int>)
    // the kept instants are arrivals, in arrival order
    ensures Subsequence(kept, times)
    ensures forall t :: t in kept ==> t in times
    decreases |times|
  {
    if |times| == 0 then []
    else
      var rest := KeptAt(Process(c, times[0]), times[1..]);
      if Keeps(c, times[0]) then
        assert ([times[0]] + rest)[1..] == rest;
        [times[0]] + rest
      else rest
  }

  /** Each instant of `ts` is at least one throttle interval after the one before, the first after `prev`. */
  predicate Spaced(prev: int, ts: seq<int>)
    decreases |ts|
  {
    |ts| == 0 || (ts[0] - prev >= THROTTLE_MS && Spaced(ts[0], ts[1..]))
  }

  /** The last of `ts`, or `prev` when there is none. */
  function LastOr(prev: int, ts: seq<int>): int {
    if |ts| == 0 then prev else ts[|ts| - 1]
  }

  /** Keeping one more instant, a throttle interval after the last, keeps the spacing. */
  lemma {:induction false} SpacedExtend(prev: int, ts: seq<int>, now: int)
    requires Spaced(prev, ts)
    requires now - LastOr(prev, ts) >= THROTTLE_MS
    ensures Spaced(prev, ts + [now])
    decreases |ts|
  {
    if |ts| > 0 {
      assert (ts + [now])[1..] == ts[1..] + [now];
      SpacedExtend(ts[0], ts[1..], now);
    }
  }

  /** The kept instants grow at least a throttle interval per frame. */
  lemma {:induction false} SpacedGap(prev: int, ts: seq<int>, i: nat, j: nat)
    requires Spaced(prev, ts)
    requires i <= j < |ts|
    ensures ts[j] - ts[i] >= THROTTLE_MS * (j - i)
    ensures ts[i] - prev >= THROTTLE_MS * (i + 1)
    decreases |ts|
  {
    if i > 0 {
      SpacedGap(ts[0], ts[1..], i - 1, j - 1);
    } else if j > 0 {
      SpacedGap(ts[0], ts[1..], 0, j - 1);
    }
  }

  /**
   * The rate bound the throttle gives: frames kept within a window of `span`
   * milliseconds number at most `span / 200 + 1`.
   */
  lemma SpacedRate(prev: int, ts: seq<int>, span: nat)
    requires Spaced(prev, ts)
    requires |ts| > 0 && ts[|ts| - 1] - ts[0] <= span
    ensures |ts| <= span / THROTTLE_MS + 1
  {
    SpacedGap(prev, ts, 0, |ts| - 1);
  }

  /**
   * The same bound over the arrivals themselves: when every frame arrives
   * within a window of `span` milliseconds, at most `span / 200 + 1` of them
   * are counted.
   */
  lemma ProcessAllRate(c: Counters, times: seq<int>, t0: int, span: nat)
    requires forall i :: 0 <= i < |times| ==> t0 <= times[i] <= t0 + span
    ensures ProcessAll(c, times).count - c.count <= span / THROTTLE_MS + 1
  {
    ProcessAllCounts(c, times);
    var kept := KeptAt(c, times);
    if |kept| > 0 {
      assert kept[0] in times && kept[|kept| - 1] in times;
      SpacedRate(c.last, kept, span);
    }
  }

  /**
   * Over any arrivals: the counter grows by exactly the number of frames kept,
   * the kept instants are spaced a throttle interval apart starting after the
   * previous last time, the last time is the last one kept, and the running
   * and paused flags never change.
   */
  lemma {:induction false} ProcessAllCounts(c: Counters, times: seq<int>)
    ensures var d := ProcessAll(c, times);
      && d.count == c.count + |KeptAt(c, times)|
      && Spaced(c.last, KeptAt(c, times))
      && d.last == LastOr(c.last, KeptAt(c, times))
      && d.running == c.running && d.paused == c.paused
    decreases |times|
  {
    if |times| > 0 {
      var c1 := Process(c, times[0]);
      ProcessAllCounts(c1, times[1..]);
      if !Keeps(c, times[0]) {
        assert KeptAt(c, times) == KeptAt(c1, times[1..]);
      }
    }
  }

  /** While stopped or paused, no arrival changes anything and none is kept. */
  lemma {:induction false} ProcessAllIdle(c: Counters, times: seq<int>)
    requires !c.running || c.paused
    ensures ProcessAll(c, times) == c && KeptAt(c, times) == []
    decreases |times|
  {
    if |times| > 0 {
      ProcessAllIdle(c, times[1..]);
    }
  }

  /**
   * `PacketSniffer`. `delivered` is what the callback has been handed, in
   * order; `keptAt` the clock readings of the frames kept.
   */
  class PacketSniffer {
    var isRunning: bool
    var isPaused: bool
    var packetCount: nat
    var lastPacketTime: int
    const throttleInterval: nat
    ghost var delivered: seq<PacketInfo>
    ghost var keptAt: seq<int>

    /** The counters as one value. */
    function State(): Counters
      reads this
    {
      Counters(isRunning, isPaused, packetCount, lastPacketTime)
    }

    ghost predicate Valid()
      reads this
    {
      && throttleInterval == THROTTLE_MS
      // `packet_count` is the number of frames kept
      && packetCount == |keptAt|
      // the callback was handed ids from 1 to `packet_count`, strictly increasing
      // (a frame whose description raised is counted but never handed over)
      && (forall i :: 0 <= i < |delivered| ==> 1 <= delivered[i].id <= packetCount)
      && (forall i, j :: 0 <= i < j < |delivered| ==> delivered[i].id < delivered[j].id)
      // kept frames are a throttle interval apart, the last one's time is recorded
      && Spaced(0, keptAt)
      && lastPacketTime == LastOr(0, keptAt)
    }

    /** `__init__(callback)` */
    constructor ()
      ensures Valid()
      ensures State() == INITIAL && delivered == []
    {
      isRunning, isPaused := false, false;
      packetCount, lastPacketTime := 0, 0;
      throttleInterval := THROTTLE_MS;
      delivered, keptAt := [], [];
    }

    /** The state changes of `start_capture()` before it hands over to the capture loop. */
    method StartCapture()
      requires Valid()
      modifies this`isRunning, this`isPaused
      ensures Valid()
      ensures State() == old(State()).(running := true, paused := false)
    {
      isRunning := true;
      isPaused := false;
    }

    /**
     * `process_packet(packet)` for a frame `f` seen at `now` while the wall
     * clock reads `stamp`; `describeRaises` says whether `extract_packet_info`
     * raises on it (the exception is printed and swallowed, after the count
     * has risen). `sent` is what the callback is handed, if anything.
     */
    method ProcessPacket(f: Frame, now: int, stamp: string, describeRaises: bool) returns (sent: Option<PacketInfo>)
      requires Valid()
      modifies this`lastPacketTime, this`packetCount, this`delivered, this`keptAt
      ensures Valid()
      ensures State() == Process(old(State()), now)
      ensures sent == (if Keeps(old(State()), now) && !describeRaises then Some(Describe(f, packetCount, stamp)) else None)
      ensures delivered == old(delivered) + (if sent.Some? then [sent.value] else [])
      ensures keptAt == old(keptAt) + (if Keeps(old(State()), now) then [now] else [])
    {
      if isPaused || !isRunning {
        return None;
      }
      if now - lastPacketTime < throttleInterval {
        return None;
      }
      SpacedExtend(0, keptAt, now);
      lastPacketTime := now;
      packetCount := packetCount + 1;
      keptAt := keptAt + [now];
      if describeRaises {
        return None;
      }
      var info := ExtractPacketInfo(f, stamp);
      sent := Some(info);
      delivered := delivered + [info];
    }

    /** `extract_packet_info(packet)`: the dict filled step by step, numbered with the current count. */
    method ExtractPacketInfo(f: Frame, stamp: string) returns (info: PacketInfo)
      ensures info == Describe(f, packetCount, stamp)
    {
      info := PacketInfo(packetCount, stamp, "Unknown", f.size, NA, NA, None, None, NA, NA);
      if f.ether.Some? {
        info := info.(srcMac := f.ether.value.src, dstMac := f.ether.value.dst);
      }
      if f.ip.Some? {
        var ip := f.ip.value;
        info := info.(srcIp := ip.src, dstIp := ip.dst);
        if f.tcp.Some? {
          info := info.(protocol := "TCP", srcPort := Some(f.tcp.value.sport), dstPort := Some(f.tcp.value.dport));
        } else if f.udp.Some? {
          info := info.(protocol := "UDP", srcPort := Some(f.udp.value.sport), dstPort := Some(f.udp.value.dport));
        } else if f.icmp.Some? {
          info := info.(protocol := "ICMP");
        } else {
          info := info.(protocol := IpLabel(ip.proto));
        }
      } else if f.arp.Some? {
        info := info.(protocol := "ARP", srcIp := f.arp.value.psrc, dstIp := f.arp.value.pdst);
      }
    }

    /** `pause()` */
    method Pause()
      requires Valid()
      modifies this`isPaused
      ensures Valid()
      ensures State() == old(State()).(paused := true)
    {
      isPaused := true;
    }

    /** `resume()` */
    method Resume()
      requires Valid()
      modifies this`isPaused
      ensures Valid()
      ensures State() == old(State()).(paused := false)
    {
      isPaused := false;
    }

    /** `stop()`: from here on every frame is dropped and the capture loop is told to end. */
    method Stop()
      requires Valid()
      modifies this`isRunning, this`isPaused
      ensures Valid()
      ensures State() == old(State()).(running := false, paused := true)
      ensures forall times: seq<int> :: ProcessAll(State(), times) == State()
    {
      isRunning := false;
      isPaused := true;
      forall times: seq<int> ensures ProcessAll(State(), times) == State() {
        ProcessAllIdle(State(), times);
      }
    }

    /** `should_stop(packet)`, the capture loop's stop filter. */
    method ShouldStop() returns (stop: bool)
      ensures stop <==> !isRunning
    {
      stop := !isRunning;
    }
  }
}
