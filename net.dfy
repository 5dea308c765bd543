/** Socket addresses, the key by which an address filter decides. */
module Net {

  newtype Byte = x: int | 0 <= x < 0x100
  newtype Port = x: int | 0 <= x < 0x1_0000
  newtype U32 = x: int | 0 <= x < 0x1_0000_0000

  /** The 128 bits of an IPv6 address, as eight 16-bit segments. */
  type Ipv6Segments = s: seq<Port> | |s| == 8 witness [0, 0, 0, 0, 0, 0, 0, 0]

  /**
   * The remote peer of an inbound connection. Equality is structural and
   * covers the whole address: the IP, the port and, for IPv6, the flow
   * information and scope id, which is what membership in a set of socket
   * addresses compares.
   */
  datatype SocketAddr =
    | V4(a: Byte, b: Byte, c: Byte, d: Byte, port: Port)
    | V6(segments: Ipv6Segments, port: Port, flowInfo: U32, scopeId: U32)
}
