/**
 * A decoded frame as the capture library hands it over: one optional part per
 * layer the backend asks about. `X in pkt` / `pkt.haslayer(X)` becomes a test
 * of the matching field, `pkt[X].field` a read of it.
 */
module Frames {
  import opened Options

  /** An IP protocol number, one octet on the wire. */
  type Byte = x: int | 0 <= x < 256

  /** A TCP or UDP port number. */
  type Port = x: int | 0 <= x < 65536

  datatype EtherLayer = EtherLayer(src: string, dst: string)
  datatype IpLayer = IpLayer(src: string, dst: string, proto: Byte)
  datatype Ipv6Layer = Ipv6Layer(src: string, dst: string)
  datatype TransportLayer = TransportLayer(sport: Port, dport: Port)
  datatype IcmpLayer = IcmpLayer(icmpType: Byte, code: Byte)
  datatype ArpLayer = ArpLayer(psrc: string, pdst: string)

  /**
   * `size` is `len(pkt)` and `summary` is `pkt.summary()`; both are computed by
   * the decoder and carried here as given.
   */
  datatype Frame = Frame(
    ether: Option<EtherLayer>,
    ip: Option<IpLayer>,
    ipv6: Option<Ipv6Layer>,
    tcp: Option<TransportLayer>,
    udp: Option<TransportLayer>,
    icmp: Option<IcmpLayer>,
    arp: Option<ArpLayer>,
    size: nat,
    summary: string)
}
