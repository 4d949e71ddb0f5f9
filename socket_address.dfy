/** Decoding the sender of a received datagram: `getEndpointFromSocketAddress`
    dispatches on the address family and turns the stored port back into a
    host-order integer. The text `inet_ntop` renders for the address bytes is
    opaque here; the model records which address field it is taken from. */
module SocketAddress {
  import opened ByteOrder

  /** Address family constants of Darwin's `<sys/socket.h>`. */
  const AF_INET: int := 2
  const AF_INET6: int := 30

  datatype Option<T> = None | Some(value: T)

  /** A `sockaddr_storage` filled in by `recvfrom`, reduced to what the
      decoder reads: the family, the 16-bit port field as stored (network
      byte order; `sin_port` and `sin6_port` share one offset), and the text
      `inet_ntop` renders for the `sin_addr` and for the `sin6_addr` bytes. */
  datatype StoredAddress = StoredAddress(family: int, storedPort: uint16, inetText: string, inet6Text: string)

  /** The `(host, port)` pair handed to the receive handler. */
  datatype Endpoint = Endpoint(host: string, port: int)

  /** The port decode of lines 218 and 226: `Int(UInt16(sin_port).byteSwapped)`.
      On a little-endian host the stored bytes are read as network order. */
  function DecodePort(storedPort: uint16): (port: int)
    ensures 0 <= port < 0x1_0000
    ensures NetworkBytes(port) == InMemory(LittleEndian, storedPort)
  {
    ByteSwapped(storedPort)
  }

  /** `getEndpointFromSocketAddress`: IPv4 and IPv6 senders decode, every other
      family gives `nil`. */
  function GetEndpointFromSocketAddress(a: StoredAddress): (r: Option<Endpoint>)
    ensures r.None? <==> a.family != AF_INET && a.family != AF_INET6
    ensures r.Some? ==> 0 <= r.value.port < 0x1_0000
    ensures r.Some? ==> NetworkBytes(r.value.port) == InMemory(LittleEndian, a.storedPort)
    ensures r.Some? && a.family == AF_INET ==> r.value.host == a.inetText
    ensures r.Some? && a.family == AF_INET6 ==> r.value.host == a.inet6Text
  {
    if a.family == AF_INET then
      Some(Endpoint(a.inetText, DecodePort(a.storedPort)))
    else if a.family == AF_INET6 then
      Some(Endpoint(a.inet6Text, DecodePort(a.storedPort)))
    else
      None
  }

  /** A sender on a little-endian host that stored its port with `htonsPort`
      is decoded with that same port, whichever of the two families it uses. */
  lemma DecodedPortRoundTrip(a: StoredAddress, port: uint16)
    requires a.family == AF_INET || a.family == AF_INET6
    requires a.storedPort == HtonsPort(LittleEndian, port)
    ensures GetEndpointFromSocketAddress(a) == Some(Endpoint(
      if a.family == AF_INET then a.inetText else a.inet6Text, port))
  {
    ByteSwappedUndoesHtons(LittleEndian, port);
  }
}
