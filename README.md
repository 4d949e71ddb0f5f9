# UDPBroadcastConnection in Dafny

A model of `UDPBroadcastConnection`, the Swift class that sends UDP broadcast
datagrams on a fixed port and hands each datagram it receives back to a
caller-supplied closure together with the sender's host and port.

The model has four modules:

- `ByteOrder` (`byte_order.dfy`) covers the port conversions. `htonsPort`
  swaps the two bytes of the port only on a little-endian host. `ntohs` is
  the expression `(value << 8) + (value >> 8)` on `UInt16`. `byteSwapped`
  is the swap the endpoint decoder uses. A 16-bit value is described by its
  two bytes. `InMemory` says how a host of either byte order stores them.
  `NetworkBytes` gives network byte order.
- `SocketAddress` (`socket_address.dfy`) covers `getEndpointFromSocketAddress`.
  It dispatches on the address family and decodes the stored port.
- `UDPBroadcast` (`udp_broadcast_connection.dfy`) covers the connection.
  A `ConnectionState` value holds the class's three fields: `address`,
  `handler` and `responseSource`. `responseSource` is present exactly while
  the socket is open. The state also records what the connection does to
  the outside world:
  - `openDescriptors`: the descriptor it holds through its dispatch source;
  - `leakedDescriptors`: descriptors it opened and neither closed nor kept;
  - `transmissions`: every `sendto` call;
  - `handlerCalls`: every call to the receive handler.

  `Consistent` says that `openDescriptors` is exactly the current dispatch
  source's descriptor, so at most one descriptor is held through a live
  source. A cancelled source's descriptor counts as closed at once. In the
  code it stays open until the source's cancel handler runs on the main
  queue, so it can briefly sit beside the descriptor of a new source (see
  "## Left out"). Each operation is
  specified by a step function on this state: `Initial`, `CreateSocketStep`,
  `SendStep`, `CloseStep` and `ReadEventStep`. The read event handler's
  guards are the pure function `DecideReceive`. The class
  `UDPBroadcastConnection` updates its fields in place, keeping the three
  records in ghost fields. Each of its methods is proved to move its state
  exactly as the matching step function does.
- `ConnectionRuns` (`connection_runs.dfy`) covers any sequence of calls: sends,
  closes and read events, each with any system call results. It proves what
  holds across them.

The results of `socket`, `setsockopt`, `sendto` and `recvfrom` are method
parameters. So are the sender address and the datagram that `recvfrom`
fills in. The host byte order (`OSHostByteOrder()`) is a parameter of the
constructor. The family constants are Darwin's: `AF_INET` = 2 and
`AF_INET6` = 30.

The model keeps these details of the code:

- The handler receives the whole 4096-byte buffer, whatever `bytesRead`
  is (`ResponseBuffer`).
- A failure is reported to no one: a failed open, send or read only closes
  the connection (or leaves it closed).
- `sendBroadcast` returns nothing. The model's `SendOutcome` only names the
  branch taken, which the code distinguishes in its log.
- `setsockopt` counts as failed only when it returns exactly -1.
- A `socket` result of 0 counts as a failure.
- On a successful read, `recvfrom` returns `min(|datagram|, 4096)`. The
  model takes `bytesRead` and `datagram` as independent parameters and does
  not impose that relation. The handler's buffer depends only on
  `datagram`, and the decision only on `bytesRead`.

A defect in the code: `socket()` reports an error as -1, so a result of 0 is
a real descriptor. The guard `newSocket > 0` (line 72) rejects descriptor 0
without closing it, so it leaks. `CreateSocketStep` adds it to
`leakedDescriptors`, and `DescriptorZeroLeaks` exhibits the leak.
`OnlyDescriptorZeroLeaks` shows that no other descriptor can leak.

Received ports are decoded with an unconditional `byteSwapped`.
`ByteSwappedUndoesHtons` shows that this undoes `htonsPort` on a
little-endian host. On a big-endian host it does so only for ports whose
two bytes are equal. Every host the code is built for (Darwin) is
little-endian.

## Model

| member | source | states |
|---|---|---|
| `ByteOrder.HtonsPort` | UDPBroadcast/UDPBroadcastConnection.swift:243-246 | on either host, the converted port is stored in network byte order (most significant byte first) |
| `ByteOrder.ByteSwapped` | UDPBroadcast/UDPBroadcastConnection.swift:218 | the result's high byte is the input's low byte and its low byte is the input's high byte |
| `ByteOrder.NtohsNoOverflow` | UDPBroadcast/UDPBroadcastConnection.swift:249 | `(v << 8) + (v >> 8)` with a truncating shift stays within UInt16, so the trapping addition never overflows, and it equals low byte times 256 plus high byte |
| `ByteOrder.Ntohs` | UDPBroadcast/UDPBroadcastConnection.swift:248-250 | `ntohs` exchanges the two bytes of its argument |
| `ByteOrder.NtohsIsByteSwapped` | UDPBroadcast/UDPBroadcastConnection.swift:248-250 | `ntohs` and `byteSwapped` agree on every 16-bit value |
| `ByteOrder.ByteSwapInvolution` | UDPBroadcast/UDPBroadcastConnection.swift:218 | swapping twice returns the original value |
| `ByteOrder.HtonsPortInvolution` | UDPBroadcast/UDPBroadcastConnection.swift:243-246 | converting a port twice returns it, on either host |
| `ByteOrder.NtohsUndoesHtonsOnLittleEndian` | UDPBroadcast/UDPBroadcastConnection.swift:243-250 | on a little-endian host `ntohs(htonsPort(p)) == p` |
| `ByteOrder.ByteSwappedUndoesHtons` | UDPBroadcast/UDPBroadcastConnection.swift:243-246 | the decoder's `byteSwapped` undoes `htonsPort` on a little-endian host; on a big-endian host it does so if and only if the port's two bytes are equal |
| `SocketAddress.DecodePort` | UDPBroadcast/UDPBroadcastConnection.swift:218 | the decoded port lies in 0..65535 and, read as network order, has the bytes the little-endian host stored |
| `SocketAddress.GetEndpointFromSocketAddress` | UDPBroadcast/UDPBroadcastConnection.swift:209-232 | the result is `nil` if and only if the family is neither AF_INET nor AF_INET6; otherwise the port is in range and decoded from network order, and the host is the text of the IPv4 or IPv6 address field matching the family |
| `SocketAddress.DecodedPortRoundTrip` | UDPBroadcast/UDPBroadcastConnection.swift:209-231 | an IPv4 or IPv6 sender whose port was stored with `htonsPort` on a little-endian host decodes to that same port |
| `UDPBroadcast.BroadcastDestination` | UDPBroadcast/UDPBroadcastConnection.swift:42-52 | the destination has family AF_INET, address 0xffffffff and length 16; its port is stored in network byte order, so it is byte-swapped on a little-endian host and unchanged on a big-endian one |
| `UDPBroadcast.DecideReceive` | UDPBroadcast/UDPBroadcastConnection.swift:99-129 | a closed connection ignores the event; it closes if and only if it is open and the read failed, returned 0, or the sender's family is neither IPv4 nor IPv6; it delivers in every other open case |
| `UDPBroadcast.ResponseBuffer` | UDPBroadcast/UDPBroadcastConnection.swift:103-107 | the buffer passed on always has 4096 bytes: the datagram's bytes up to the capacity, then zeros |
| `UDPBroadcast.CallsFor` | UDPBroadcast/UDPBroadcastConnection.swift:134 | a delivered datagram makes exactly one handler call with the endpoint and buffer when a handler is set, and none otherwise |
| `UDPBroadcast.Initial` | UDPBroadcast/UDPBroadcastConnection.swift:42-52 | construction stores the broadcast destination and the handler, leaves `responseSource` nil, holds no descriptor and has sent nothing |
| `UDPBroadcast.CreateSocketStep` | UDPBroadcast/UDPBroadcastConnection.swift:68-141 | it succeeds if and only if `socket` returned more than 0 and `setsockopt` did not return -1; on success the source holds the new descriptor and nothing else changes; on failure the connection stays closed and a descriptor opened before the `setsockopt` failure is closed again; a `socket` result of 0 is rejected without being closed and is recorded as leaked |
| `UDPBroadcast.CloseStep` | UDPBroadcast/UDPBroadcastConnection.swift:193-198 | it always ends with `responseSource` nil and no descriptor held; on a closed connection it changes nothing, so a second call is a no-op |
| `UDPBroadcast.SendStep` | UDPBroadcast/UDPBroadcastConnection.swift:157-188 | a closed connection opens first, and if that fails nothing is sent and the connection stays closed (only a `socket` result of 0 is recorded as leaked); otherwise exactly one datagram goes to the fixed destination, on the existing socket or on the new one, never a second socket; a `sendto` result of 0 or less closes the connection; any positive result keeps it open, and only a count equal to the payload length is a full send |
| `UDPBroadcast.ReadEventStep` | UDPBroadcast/UDPBroadcastConnection.swift:98-135 | an ignored event changes nothing; a closing event closes the connection without calling the handler; a delivered event keeps the connection open and appends exactly the handler calls `CallsFor` gives for the decoded endpoint and the full buffer |
| `UDPBroadcast.UDPBroadcastConnection.constructor` | UDPBroadcast/UDPBroadcastConnection.swift:42-52 | the new object's state is `Initial(port, handler, hostOrder)` |
| `UDPBroadcast.UDPBroadcastConnection.CreateSocket` | UDPBroadcast/UDPBroadcastConnection.swift:68-141 | the object's new state and result are those of `CreateSocketStep` |
| `UDPBroadcast.UDPBroadcastConnection.SendBroadcast` | UDPBroadcast/UDPBroadcastConnection.swift:157-188 | the object's new state is that of `SendStep` |
| `UDPBroadcast.UDPBroadcastConnection.CloseConnection` | UDPBroadcast/UDPBroadcastConnection.swift:193-198 | the object's new state is that of `CloseStep` |
| `UDPBroadcast.UDPBroadcastConnection.HandleReadEvent` | UDPBroadcast/UDPBroadcastConnection.swift:98-135 | the object's new state is that of `ReadEventStep` |
| `ConnectionRuns.Run` | UDPBroadcast/UDPBroadcastConnection.swift:19-30 | after any sequence of calls the connection holds at most one descriptor through a live dispatch source, and its destination and handler are unchanged |
| `ConnectionRuns.RunOnlyAppends` | UDPBroadcast/UDPBroadcastConnection.swift:165-173 | the sent and handled histories only grow; every datagram sent goes to the stored destination; every handler call goes to the stored handler with a 4096-byte buffer |
| `ConnectionRuns.SentOnlyToBroadcastDestination` | UDPBroadcast/UDPBroadcastConnection.swift:43-49 | every datagram a connection ever sends goes to IPv4 address 0xffffffff on the configured port, stored in network byte order |
| `ConnectionRuns.NoSendNoSocket` | UDPBroadcast/UDPBroadcastConnection.swift:157-163 | without a send a closed connection opens no socket: closes and read events leave it exactly as it was |
| `ConnectionRuns.OpenConnectionKeepsItsSocket` | UDPBroadcast/UDPBroadcastConnection.swift:158-166 | while sends succeed, an open connection creates no new socket and sends every datagram on the one it has |
| `ConnectionRuns.ReopenAfterReceiveError` | UDPBroadcast/UDPBroadcastConnection.swift:110-116 | a failed read closes the connection, and the next send opens a new socket and sends on it |
| `ConnectionRuns.DescriptorZeroLeaks` | UDPBroadcast/UDPBroadcastConnection.swift:71-72 | a send on a closed connection whose `socket` call returns descriptor 0 sends nothing and stays closed, and descriptor 0 is left open with no reference to it |
| `ConnectionRuns.OnlyDescriptorZeroLeaks` | UDPBroadcast/UDPBroadcastConnection.swift:71-81 | over any sequence of calls, descriptor 0 is the only one that can be added to the leaked descriptors |

## Left out

- The system calls `socket`, `setsockopt`, `sendto`, `recvfrom`, `shutdown` and `close` are operating-system I/O. Their results are parameters. Their effect on descriptors is recorded in ghost fields: held through the source, or leaked (descriptor 0).
- The `DispatchSource`, the main queue and the moment the cancel handler runs are about concurrency and event delivery. Cancelling a source is modelled as closing its descriptor at once.
- `ConnectionRuns.Run`: bounds the descriptors held through a live dispatch source, not all open descriptors. The code closes a cancelled source's descriptor only when its cancel handler runs on the main queue. So after a failed `sendto` closes the connection, a second `sendBroadcast` in the same turn of the main queue opens a new descriptor while the old one is still open. The model counts the old descriptor as closed at the cancel.
- `deinit` is not modelled: Dafny has no destructors. It cancels the source, which releases the descriptor the way `CloseConnection` does.
- `sendBroadcast(_ message: String)` is not modelled. It only encodes the text as UTF-8, a library call, and forwards it to `SendBroadcast`.
- `inet_ntop`, `strerror` and `String(cString:)` are foreign library calls. The host text of a received address is an opaque field of `StoredAddress`.
- `setNoSigPipe` is not modelled because its result is ignored. All `print` logging is left out.
- `UDPBroadcast.CreateSocketStep` and `UDPBroadcast.UDPBroadcastConnection.CreateSocket`: require a closed connection. Its only caller, `sendBroadcast`, calls it only then. Called on an open connection, the code would drop the old source without cancelling it.
- The example app (`UDPBroadcastExample/`), `Package.swift`, `send.py` and `receive.py` are UI, configuration, build manifest and standalone socket scripts.
