# Packet sniffer backend, modelled in Dafny

The backend of this network packet sniffer captures frames on an interface.
It also enriches each frame into a JSON record with addresses, ports, a
protocol label, the vendors of both hardware addresses and a "meant for me"
flag, and it keeps the newest 2000 records for the web UI. A second,
stand-alone capture class throttles frames to one per 200 ms and hands each
one, classified its own way, to a callback.

The model has one Dafny module per concern:

| module | file | what it holds |
|---|---|---|
| `Options` | options.dfy | `Option`, and Python truthiness of an optional string |
| `Text` | text.dfy | `str.lower()` on ASCII, `str.startswith`, decimal rendering with its parser |
| `Frames` | frames.dfy | a decoded frame: one optional part per layer (Ether, IPv4, IPv6, TCP, UDP, ICMP, ARP), plus size and summary |
| `Vendor` | vendor.dfy | `safe_lookup_vendor` as a function from the cache before a call to the answer and the cache after it |
| `Enrich` | enrich.dfy | `PROTO_MAP`, `protocol_name`, the `meant_for_me` rule and the record `extract_packet` returns, as functions |
| `History` | history.dfy | the `MAX_STORE` ring of `on_packet` |
| `Interfaces` | interfaces.dfy | the interface ordering of `route_interfaces` |
| `App` | app.dfy | class `Backend`: the module globals of backend/app.py and the operations that change them |
| `Sniffer` | sniffer.dfy | class `PacketSniffer`, its classifier `Describe` and the throttle |

The source's imperative code is modelled as classes with methods:
- the globals `sniffer`, `sniffer_iface`, `captured` and `vendor_cache`;
- the fields of `PacketSniffer`.

The methods that resolve, enrich, append, describe or process a frame are
proved against a pure function (`Resolve`, `Extract`, `Admit`, `Describe` or
`Process`), and the lemmas state the source's promises about those
functions. The lifecycle methods (starting, stopping, pausing, resuming and
clearing) state their new state directly.

`extract_packet` wraps its decoding in one `try`. The model gives it a
`fault` argument that names the statement that raises and the exception's
text. The statements are, in order:
- `SrcMacStep`, `DstMacStep`: the two MAC assignments;
- `SrcIpStep`, `DstIpStep`: the two IP address assignments;
- `SrcPortStep`, `DstPortStep`: the two port assignments;
- `SourceVendorStep`, `DestVendorStep`: the two vendor lookups;
- `OwnershipStep`: the ownership test.

The statements before the fault keep their effect. The later ones leave
their defaults, and the summary gains ` [parse_err:<text>]`.

The MAC-vendor database is an oracle `string -> LookupReply`: a name, which
may be empty, or an exception.

`PROTO_MAP` maps 6 to `"TCP"` (backend/app.py:24, 36). So an IPv4 frame
with protocol 6 but no decoded TCP layer is labelled `"TCP"`, not `"IP-6"`;
see `Enrich.ProtoSixWithoutTcpLayerIsTcp`.

## Model

| member | source | states |
|---|---|---|
| `Text.Lower` | backend/app.py:45 | `mac.lower()`: the same length, no capital left, each ASCII capital becomes its small letter and every other character is unchanged |
| `Text.LowerIdempotent` | backend/app.py:45-47 | a key that is already lower-cased is lower-cased to itself, so cache keys are stable |
| `Text.Decimal` | backend/app.py:36 | the rendering of a protocol number is non-empty and all digits, with no leading zero except for 0 itself |
| `Text.ParseDecimalInverts` | backend/app.py:36 | the rendered number reads back as the same number |
| `Text.DecimalInjective` | backend/app.py:36 | different numbers render differently |
| `Vendor.LoopbackHintIsPrefix` | backend/app.py:41 | the loopback test amounts to "the hint starts with 127." (the `127.0.0.1` case is subsumed) |
| `Vendor.VendorName` | backend/app.py:48-52 | a raised or empty database answer becomes exactly "Unknown"; a non-empty name passes through unchanged; the result is never empty |
| `Vendor.Resolve` | backend/app.py:39-54 | a loopback hint gives "Localhost" and an empty MAC gives "Unknown", both with the cache untouched; otherwise the lower-cased MAC ends up cached with the returned name; a hit serves the cached name; only a miss consults the database; at most one entry is added and none is changed |
| `Vendor.ResolveKeepsNamesPresent` | backend/app.py:48-53 | no empty name is ever cached or returned |
| `Vendor.ResolveIsIdempotent` | backend/app.py:45-47 | a second lookup of the same MAC, in any letter case, returns the same name, leaves the cache as it is and never consults the database, whatever the database would now answer, also when it comes with a different IP hint that is loopback exactly when the first was |
| `Enrich.ProtoLabel` | backend/app.py:24-36 | protocol 1, 6 and 17 are "ICMP", "TCP" and "UDP"; any other n is "IP-" followed by n in decimal |
| `Enrich.ProtoLabelRoundTrip` | backend/app.py:36 | every label reads back to the protocol number it came from |
| `Enrich.ProtoLabelInjective` | backend/app.py:24-36 | no two protocol numbers share a label |
| `Enrich.ProtocolName` | backend/app.py:29-37 | first match, one clause per rung: ARP, then TCP, UDP, ICMP, IPv6; an IPv4-only frame gets the table label of its protocol number; "OTHER" exactly when none of these layers is present |
| `Enrich.ArpWinsOverIp` | backend/app.py:30 | a frame with ARP beside an IP or transport layer is "ARP" |
| `Enrich.ProtoSixWithoutTcpLayerIsTcp` | backend/app.py:35-36 | an IPv4-only frame with protocol 6 is "TCP" although no TCP layer was decoded |
| `Enrich.IpOnlyLabelDeterminesProto` | backend/app.py:35-36 | for IPv4-only frames, equal labels mean equal protocol numbers |
| `Enrich.MeantForMe` | backend/app.py:99-105 | each rule suffices (own MAC compared without case, own IP, both loopback), and when none applies the frame is not mine; nothing is mine without a non-empty destination and a known own address |
| `Enrich.MeantForMeIgnoresMacCase` | backend/app.py:99 | destination MACs that differ only in letter case are decided alike |
| `Enrich.ResolveBoth` | backend/app.py:95-96 | the source vendor is `Resolve` on the cache as it was; the destination vendor and the final cache are `Resolve` on the cache the source lookup left; a fault between them leaves the destination "Unknown"; a fault before both leaves both "Unknown" and the cache untouched; the keys added are exactly the MACs the database was asked about, none cached before, and each new entry holds the database's answer for its key |
| `Enrich.Extract` | backend/app.py:56-111 | `extract_packet` as a function of the frame, the fault, the own addresses, the clock and the cache; its contract states that the cache only grows (old entries keep their value, the new keys are exactly the MACs asked about, each holding the database's answer for it); the record's fields are stated by `ExtractWithoutFault`, `ExtractStopsAtFault`, `ExtractAbsorbsFault` and `ExtractPortsOnlyForTransport` |
| `Enrich.ExtractWithoutFault` | backend/app.py:57-105 | without a fault: the clock's time and the frame's size; MACs from Ether; IPv4 addresses before IPv6; TCP ports before UDP; defaults "" and null; the source vendor resolved on the cache as it was and the destination vendor on the cache the source left; the decoder's summary; ownership by the three rules; the cache is the one the two lookups leave |
| `Enrich.ExtractPortsOnlyForTransport` | backend/app.py:87-92 | ports are set only with a TCP or UDP layer, TCP's when TCP is present; a destination port implies a source port; both are set or neither unless reading the destination port raised |
| `Enrich.ExtractAbsorbsFault` | backend/app.py:107-109 | an exception still yields a record: protocol, size and time stand, the summary gains " [parse_err:<text>]" and the frame is not claimed as mine |
| `Enrich.ExtractStopsAtFault` | backend/app.py:73-109 | each address and port is set exactly when the fault comes after its own assignment, so a fault on the destination keeps the source; a fault before the vendor lookups leaves both "Unknown", the cache untouched and nothing asked; a fault after the source lookup keeps its vendor; a fault at the destination lookup leaves that vendor "Unknown" and the cache as the source lookup left it; a fault at the ownership test keeps both vendors and the cache of both lookups |
| `Enrich.TcpToOwnMacScenario` | backend/app.py:87-100 | a TCP frame to the interface's own MAC, in any case, is "TCP", mine, and has both ports |
| `Enrich.ArpScenario` | backend/app.py:56-92 | an ARP frame without TCP or UDP is "ARP" with null ports, whatever the fault |
| `History.Admit` | backend/app.py:133-135 | the new record is last; below capacity nothing is evicted; at capacity exactly the oldest goes; the length never exceeds `MAX_STORE` |
| `History.AdmitAllKeepsNewest` | backend/app.py:130-135 | after any run of `on_packet` calls the history is exactly the newest 2000 of everything held and appended, in capture order |
| `Interfaces.WithoutLoopback` | backend/app.py:160 | the filter removes every "lo" and keeps every other name as often as it occurred |
| `Interfaces.WithoutLoopbackAppend` | backend/app.py:160 | the filter keeps relative order (it distributes over concatenation) |
| `Interfaces.WithoutLoopbackKeepsOthers` | backend/app.py:160 | a list without "lo" passes the filter unchanged |
| `Interfaces.OrderInterfaces` | backend/app.py:160 | "lo" is listed iff the second enumeration has it, at most once, and only last; every other name keeps its count, and they come first in the order of the first enumeration |
| `Interfaces.OrderInterfacesMovesLoopbackLast` | backend/app.py:159-160 | when both enumerations agree, "lo" moves to the end and the other names keep their order |
| `App.RouteInterfaces` | backend/app.py:155-163 | 200 with the ordered names, or 500 with the exception's text |
| `App.Backend.constructor` | backend/app.py:16-21 | no session, empty history, empty cache |
| `App.Backend.SafeLookupVendor` | backend/app.py:39-54 | the name and the new cache are those of `Resolve`; the database is never asked twice about the same MAC |
| `App.Backend.ExtractPacket` | backend/app.py:56-111 | the record and the new cache are those of `Extract` on the cache before the call |
| `App.Backend.ReadLayers` | backend/app.py:73-92 | the addresses and ports read before the fault, IPv4 before IPv6 and TCP before UDP |
| `App.Backend.LookupVendors` | backend/app.py:95-96 | source then destination vendor, with the cache threaded through both lookups |
| `App.Backend.IsMine` | backend/app.py:99-105 | the if/elif chain computes `MeantForMe`, or false when a fault comes first |
| `App.Backend.StartSniff` | backend/app.py:114-140 | refused with "already running" and no state change iff a session is running; otherwise a running session on the interface with its addresses, and `sniffer_iface` set |
| `App.Backend.CaptureEnded` | backend/app.py:117 | a session whose thread ended stays but no longer counts as running, so a new start is accepted |
| `App.Backend.OnPacket` | backend/app.py:130-135 | the history becomes `Admit` of the enriched record, the cache that of `Extract`, and the bound holds |
| `App.Backend.StopSniff` | backend/app.py:142-152 | always (True, "stopped") and no session afterwards, so stopping is idempotent |
| `App.Backend.RouteStart` | backend/app.py:165-174 | a missing or empty interface gives 400 "interface missing"; a running session gives 400 "already running"; neither changes state; otherwise 200 with the interface, and a running session |
| `App.Backend.RouteStop` | backend/app.py:176-179 | always 200 "stopped", with no session afterwards |
| `App.Backend.RouteClear` | backend/app.py:181-185 | the history is empty afterwards and nothing else changes |
| `App.Backend.RoutePackets` | backend/app.py:187-191 | the whole history, oldest first, at most 2000 records |
| `Sniffer.IpLabel` | backend/packet_sniffer.py:89 | the label is "IP (" + digits + ")", the digits being the protocol number's decimal rendering (no leading zero), which reads back as the protocol number |
| `Sniffer.IpLabelInjective` | backend/packet_sniffer.py:89 | equal "IP (n)" labels mean equal protocol numbers |
| `Sniffer.Describe` | backend/packet_sniffer.py:48-97 | the id is the current count, the stamp and size are carried over, and the protocol is one of the fixed labels or "IP (…)" |
| `Sniffer.DescribeIpFirst` | backend/packet_sniffer.py:70-89 | with IPv4, the addresses are IPv4's whatever else is present, and the protocol is the first of TCP, UDP, ICMP, else "IP (n)" |
| `Sniffer.IpShadowsArp` | backend/packet_sniffer.py:70-91 | a frame with IPv4 and ARP is never described as ARP |
| `Sniffer.DescribeArp` | backend/packet_sniffer.py:91-95 | without IPv4, an ARP frame is "ARP" with the ARP sender and target addresses and no ports |
| `Sniffer.DescribeUnknown` | backend/packet_sniffer.py:50-97 | "Unknown" exactly when there is neither IPv4 nor ARP, and then both addresses are 'N/A' |
| `Sniffer.DescribePortsAndMacs` | backend/packet_sniffer.py:57-85 | ports are set iff an IPv4 frame has TCP or UDP, TCP's first; MACs are 'N/A' unless there is an Ethernet layer |
| `Sniffer.ClassifiersCompared` | backend/packet_sniffer.py:69-95 | both classifiers agree on IPv4 TCP and UDP frames without ARP, and differ on ARP beside IPv4 and on TCP over IPv6 alone |
| `Sniffer.Process` | backend/packet_sniffer.py:28-39 | the flags never change; the count rises by one and the last time becomes `now` exactly when the frame is kept (running, not paused, at least 200 ms after the last) |
| `Sniffer.KeptAt` | backend/packet_sniffer.py:28-39 | the kept instants are arrivals, in arrival order (a subsequence of the arrivals) |
| `Sniffer.SpacedExtend` | backend/packet_sniffer.py:35-38 | keeping a frame 200 ms or more after the last keeps all kept frames 200 ms apart |
| `Sniffer.SpacedGap` | backend/packet_sniffer.py:35-39 | the k-th kept frame after another comes at least k·200 ms later |
| `Sniffer.SpacedRate` | backend/packet_sniffer.py:13-36 | within any window of T ms at most T/200 + 1 frames are kept |
| `Sniffer.ProcessAllRate` | backend/packet_sniffer.py:28-39 | when every frame arrives within a window of T ms, the counter rises by at most T/200 + 1 |
| `Sniffer.ProcessAllCounts` | backend/packet_sniffer.py:28-39 | over any arrivals the counter grows by exactly the number of frames kept; the kept times are 200 ms apart; the last time is the last kept; the flags never change |
| `Sniffer.ProcessAllIdle` | backend/packet_sniffer.py:30-31 | while stopped or paused no arrival changes anything and none is kept |
| `Sniffer.PacketSniffer.constructor` | backend/packet_sniffer.py:7-13 | not running, not paused, count 0, last time 0, nothing delivered |
| `Sniffer.PacketSniffer.StartCapture` | backend/packet_sniffer.py:15-18 | running and not paused, count and last time untouched |
| `Sniffer.PacketSniffer.ProcessPacket` | backend/packet_sniffer.py:28-46 | the counters follow `Process`, also when `extract_packet_info` raises; a kept frame whose description succeeds is handed to the callback as `Describe` with the new count as its id; a raising description hands over nothing; the ids handed over are strictly increasing and between 1 and the count; the kept times grow by `now` exactly when the frame is kept, and stay 200 ms apart |
| `Sniffer.PacketSniffer.ExtractPacketInfo` | backend/packet_sniffer.py:48-97 | the dict filled step by step equals `Describe` with the current count |
| `Sniffer.PacketSniffer.Pause` | backend/packet_sniffer.py:99-102 | only the paused flag is set |
| `Sniffer.PacketSniffer.Resume` | backend/packet_sniffer.py:104-107 | only the paused flag is cleared; running is untouched |
| `Sniffer.PacketSniffer.Stop` | backend/packet_sniffer.py:109-113 | not running and paused, and every later run of arrivals changes nothing |
| `Sniffer.PacketSniffer.ShouldStop` | backend/packet_sniffer.py:115-117 | the stop filter is true exactly when the session is not running |

## Left out

- The packet decoder (scapy) is not modelled. The frame arrives already decoded, and `len(pkt)` and `pkt.summary()` are carried as given. The `AsyncSniffer` thread, `sniffer.start()` / `sniffer.stop()` (whose exceptions `stop_sniff` swallows), `sniff(...)` and `get_if_list` are outside the model. The interface's address and hardware address are inputs, None where resolving raised.
- Locks and threads (`sniff_lock`, the capture threads) are not modelled. Every operation is atomic and they run one after another.
- Flask transport is not modelled: JSON parsing, `jsonify`, CORS, `app.run`. `route_start` receives the request's "interface" value as an optional string; a non-string value is not modelled.
- The MAC-vendor database is an oracle. A `None` answer is treated like an empty one: both are falsy and give "Unknown".
- Clocks: `datetime.now()` / `now_iso()` / `strftime` stamps are opaque strings. `time.time()` is integer milliseconds, so the 0.2 s throttle is 200. Sub-millisecond float comparisons are not modelled.
- The `print` logging of packet_sniffer.py is not modelled.
- `start_capture`'s blocking `sniff` call and its exception handler are outside the model. What `sniff` does per frame is `ProcessPacket`, followed by `ShouldStop` as its stop filter. `ProcessAll` is the specification of a run of arrivals.
- The callback handed to `PacketSniffer` is recorded as a ghost log of what it received. A callback that raises is swallowed at backend/packet_sniffer.py:45-46 and does not change the counters; the model has nothing to swallow. Whether `extract_packet_info` raises is an input of `ProcessPacket`; which field raised is not modelled.
- An exception outside `extract_packet`'s `try` is not modelled. Such an exception would come from decoding in `protocol_name`, `len` or `summary`.
- The frontend files, including the UI's keep-last-1000 slice, are not modelled.
- Text.Lower: lowers ASCII capitals only, because hardware addresses are ASCII hex; Python's Unicode case mapping is not modelled.
- Sniffer.PacketSniffer.ProcessPacket: the check `if packet_info:` is always true for the dict built, so it is not modelled as a branch.
