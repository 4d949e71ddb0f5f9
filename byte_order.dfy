/** Byte-order helpers of UDPBroadcastConnection: the host-to-network port
    conversion applied once at construction, the 16-bit swap `ntohs`, and
    Swift's `UInt16.byteSwapped`, which the endpoint decoder uses.

    A 16-bit value is described by its two bytes; `InMemory` says in which
    order a host keeps them, `NetworkBytes` is the order the wire expects
    (most significant byte first). */
module ByteOrder {

  type uint8 = x: int | 0 <= x < 0x100
  type uint16 = x: int | 0 <= x < 0x1_0000

  /** The byte order of the host, as `OSHostByteOrder()` reports it. */
  datatype Endianness = LittleEndian | BigEndian

  function HighByte(v: uint16): uint8 { v / 0x100 }

  function LowByte(v: uint16): uint8 { v % 0x100 }

  /** The 16-bit value with the given most and least significant bytes. */
  function FromBytes(hi: uint8, lo: uint8): (v: uint16)
    ensures HighByte(v) == hi && LowByte(v) == lo
  {
    hi * 0x100 + lo
  }

  /** A value is determined by its two bytes. */
  lemma BytesDetermineValue(v: uint16, w: uint16)
    requires HighByte(v) == HighByte(w) && LowByte(v) == LowByte(w)
    ensures v == w
  {
    assert v == HighByte(v) * 0x100 + LowByte(v);
    assert w == HighByte(w) * 0x100 + LowByte(w);
  }

  /** The two bytes of `v` in the order a host of the given byte order stores them. */
  function InMemory(order: Endianness, v: uint16): seq<uint8>
  {
    match order
    case LittleEndian => [LowByte(v), HighByte(v)]
    case BigEndian => [HighByte(v), LowByte(v)]
  }

  /** The two bytes of `v` in network byte order (most significant first). */
  function NetworkBytes(v: uint16): seq<uint8>
  {
    [HighByte(v), LowByte(v)]
  }

  /** Swift's `UInt16.byteSwapped` and `_OSSwapInt16`: exchange the two bytes. */
  function ByteSwapped(v: uint16): (r: uint16)
    ensures HighByte(r) == LowByte(v) && LowByte(r) == HighByte(v)
  {
    FromBytes(LowByte(v), HighByte(v))
  }

  /** `value << 8` on a UInt16: Swift's shift discards the bits shifted out. */
  function ShiftLeft8(v: uint16): uint16
  {
    (v * 0x100) % 0x1_0000
  }

  /** `value >> 8` on a UInt16. */
  function ShiftRight8(v: uint16): uint16
  {
    v / 0x100
  }

  /** The sum in `(value << 8) + (value >> 8)`, taken over the integers.
      Swift's `+` on UInt16 traps when this leaves the 16-bit range. */
  function NtohsSum(v: uint16): int
  {
    ShiftLeft8(v) + ShiftRight8(v)
  }

  /** The addition in `ntohs` never overflows: the shifted-left half has a
      zero low byte and the shifted-right half is below 256. */
  lemma NtohsNoOverflow(v: uint16)
    ensures 0 <= NtohsSum(v) < 0x1_0000
    ensures NtohsSum(v) == LowByte(v) * 0x100 + HighByte(v)
  {
    var lo: int, hi: int := LowByte(v), HighByte(v);
    assert v == hi * 0x100 + lo;
    assert v * 0x100 == hi * 0x1_0000 + lo * 0x100;
    assert ShiftLeft8(v) == lo * 0x100;
  }

  /** `ntohs(value:)`: `(value << 8) + (value >> 8)` on UInt16. It is the byte swap. */
  function Ntohs(v: uint16): (r: uint16)
    ensures HighByte(r) == LowByte(v) && LowByte(r) == HighByte(v)
  {
    NtohsNoOverflow(v);
    NtohsSum(v)
  }

  /** `ntohs` and `byteSwapped` agree on every value. */
  lemma NtohsIsByteSwapped(v: uint16)
    ensures Ntohs(v) == ByteSwapped(v)
  {
    BytesDetermineValue(Ntohs(v), ByteSwapped(v));
  }

  /** `htonsPort(port:)`: swap the bytes on a little-endian host, keep the
      value on a big-endian one. Either way the host stores the result in
      network byte order. */
  function HtonsPort(order: Endianness, port: uint16): (r: uint16)
    ensures InMemory(order, r) == NetworkBytes(port)
  {
    if order == LittleEndian then ByteSwapped(port) else port
  }

  /** Swapping twice gives the original value back. */
  lemma ByteSwapInvolution(v: uint16)
    ensures ByteSwapped(ByteSwapped(v)) == v
  {
    BytesDetermineValue(ByteSwapped(ByteSwapped(v)), v);
  }

  /** Converting twice gives the original port back, on either host. */
  lemma HtonsPortInvolution(order: Endianness, port: uint16)
    ensures HtonsPort(order, HtonsPort(order, port)) == port
  {
    if order == LittleEndian {
      ByteSwapInvolution(port);
    }
  }

  /** A port converted to network order and read back with `ntohs` is the
      original port on a little-endian host. */
  lemma NtohsUndoesHtonsOnLittleEndian(port: uint16)
    ensures Ntohs(HtonsPort(LittleEndian, port)) == port
  {
    NtohsIsByteSwapped(HtonsPort(LittleEndian, port));
    ByteSwapInvolution(port);
  }

  /** The unconditional `byteSwapped` that decodes received ports undoes
      `htonsPort` on a little-endian host only: on a big-endian host it gives
      the port back exactly when its two bytes are equal. */
  lemma ByteSwappedUndoesHtons(order: Endianness, port: uint16)
    ensures order == LittleEndian ==> ByteSwapped(HtonsPort(order, port)) == port
    ensures order == BigEndian ==>
      (ByteSwapped(HtonsPort(order, port)) == port <==> HighByte(port) == LowByte(port))
  {
    if order == LittleEndian {
      ByteSwapInvolution(port);
    } else if HighByte(port) == LowByte(port) {
      BytesDetermineValue(ByteSwapped(port), port);
    }
  }
}
