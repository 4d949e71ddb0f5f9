/** The UDP broadcast connection: a fixed broadcast destination and an
    optional dispatch source whose presence means the socket is open.

    The results of `socket`, `setsockopt`, `sendto` and `recvfrom` are
    parameters of the operations that make those calls. Besides the
    connection's own fields, its state records what it does to the outside
    world: the descriptors it holds through its dispatch source, the
    descriptors it opened and then lost track of without closing, the
    datagrams it hands to `sendto`, and the calls it makes to the receive
    handler.

    Each operation is specified by a function on `ConnectionState`; the class
    `UDPBroadcastConnection` updates its fields in place and is proved to
    follow those functions. */
module UDPBroadcast {
  import opened ByteOrder
  import opened SocketAddress

  /** `INADDR_BROADCAST`: all 32 address bits set. */
  const INADDR_BROADCAST: int := 0xffff_ffff

  /** `MemoryLayout<sockaddr_in>.size`, stored in `sin_len`. */
  const SOCKADDR_IN_SIZE: int := 16

  /** Capacity of the buffer each read event receives into. */
  const RESPONSE_CAPACITY: int := 4096

  /** The destination `sockaddr_in`; `port` is kept as the host stores it. */
  datatype SockAddrIn = SockAddrIn(len: int, family: int, port: uint16, addr: int)

  /** The caller's closure, known only by identity. */
  datatype Handler = Handler(name: string)

  /** A read dispatch source on a socket descriptor. */
  datatype DispatchSource = DispatchSource(handle: int)

  /** One invocation of the receive handler. */
  datatype HandlerCall = HandlerCall(handler: Handler, host: string, port: int, response: seq<uint8>)

  /** One `sendto` call: descriptor, payload and destination. */
  datatype Transmission = Transmission(handle: int, payload: seq<uint8>, destination: SockAddrIn)

  /** What a read event does. */
  datatype ReceiveDecision = Ignore | Close | Deliver

  /** Which branch `sendBroadcast` took (the code tells them apart only in its
      log). `SentAll` is a `sendto` count equal to the payload length;
      `SentPartly` is any other positive count, including one larger than
      the payload, which `sendto` never returns. */
  datatype SendOutcome = OpenFailed | SendFailed | SentPartly | SentAll

  /** The destination built by `init`: IPv4, broadcast address, port in network order. */
  function BroadcastDestination(order: Endianness, port: uint16): (d: SockAddrIn)
    ensures d.family == AF_INET && d.addr == INADDR_BROADCAST && d.len == SOCKADDR_IN_SIZE
    ensures InMemory(order, d.port) == NetworkBytes(port)
    ensures order == BigEndian ==> d.port == port
    ensures order == LittleEndian ==> HighByte(d.port) == LowByte(port) && LowByte(d.port) == HighByte(port)
  {
    SockAddrIn(SOCKADDR_IN_SIZE, AF_INET, HtonsPort(order, port), INADDR_BROADCAST)
  }

  /** The guards of the read event handler, in their order: a closed
      connection ignores the event; an error, an end of file or a sender
      that does not decode closes it; anything else is delivered. */
  function DecideReceive(isOpen: bool, bytesRead: int, sender: StoredAddress): (d: ReceiveDecision)
    ensures d == Ignore <==> !isOpen
    ensures d == Close <==>
      isOpen && (bytesRead <= 0 || (sender.family != AF_INET && sender.family != AF_INET6))
    ensures d == Deliver <==>
      isOpen && bytesRead > 0 && (sender.family == AF_INET || sender.family == AF_INET6)
  {
    if !isOpen then Ignore
    else if bytesRead < 0 then Close
    else if bytesRead == 0 then Close
    else if GetEndpointFromSocketAddress(sender).None? then Close
    else Deliver
  }

  /** The 4096-byte receive buffer after `recvfrom` has copied the pending
      datagram into it: the datagram's bytes, cut at the capacity, then the
      zeros the buffer was created with. */
  function ResponseBuffer(datagram: seq<uint8>): (b: seq<uint8>)
    ensures |b| == RESPONSE_CAPACITY
    ensures forall i :: 0 <= i < |b| ==> b[i] == if i < |datagram| then datagram[i] else 0
  {
    if |datagram| >= RESPONSE_CAPACITY then datagram[..RESPONSE_CAPACITY]
    else datagram + seq(RESPONSE_CAPACITY - |datagram|, _ => 0)
  }

  /** The handler calls one delivered datagram causes: one call if a handler is set, none otherwise. */
  function CallsFor(handler: Option<Handler>, e: Endpoint, response: seq<uint8>): (calls: seq<HandlerCall>)
    ensures |calls| == if handler.Some? then 1 else 0
    ensures handler.Some? ==> calls[0] == HandlerCall(handler.value, e.host, e.port, response)
  {
    if handler.Some? then [HandlerCall(handler.value, e.host, e.port, response)] else []
  }

  /** The whole state of a connection: its three fields, then the
      descriptor its dispatch source holds, the descriptors it opened and
      never closed nor kept, every `sendto` call and every handler call made
      so far, in order. */
  datatype ConnectionState = ConnectionState(
    address: SockAddrIn,
    handler: Option<Handler>,
    responseSource: Option<DispatchSource>,
    openDescriptors: set<int>,
    leakedDescriptors: set<int>,
    transmissions: seq<Transmission>,
    handlerCalls: seq<HandlerCall>)

  /** The connection holds exactly the descriptor of its current dispatch
      source, so never more than one through a live source. A cancelled
      source's descriptor is counted as closed at once; the code closes it
      later, when the cancel handler runs on the main queue. */
  predicate Consistent(s: ConnectionState)
    ensures Consistent(s) ==> |s.openDescriptors| <= 1
  {
    match s.responseSource
    case None => s.openDescriptors == {}
    case Some(source) => source.handle > 0 && s.openDescriptors == {source.handle}
  }

  /** `init(port:handler:)`: the destination and the handler are stored and
      no socket is opened. */
  function Initial(port: uint16, handler: Option<Handler>, hostOrder: Endianness): (s: ConnectionState)
    ensures Consistent(s) && s.responseSource == None && s.openDescriptors == {}
    ensures s.address == BroadcastDestination(hostOrder, port) && s.handler == handler
    ensures s.leakedDescriptors == {} && s.transmissions == [] && s.handlerCalls == []
  {
    ConnectionState(BroadcastDestination(hostOrder, port), handler, None, {}, {}, [], [])
  }

  /** `createSocket()` on a closed connection: `socket` yields `socketResult`,
      `setsockopt(SO_BROADCAST)` yields `setsockoptResult`. The flag says
      whether the socket was created. A `socket` result of 0 is a real
      descriptor that the `> 0` guard rejects without closing: it leaks. */
  function CreateSocketStep(s: ConnectionState, socketResult: int, setsockoptResult: int): (r: (ConnectionState, bool))
    requires Consistent(s) && s.responseSource == None
    ensures Consistent(r.0)
    ensures r.1 <==> socketResult > 0 && setsockoptResult != -1
    ensures r.0.leakedDescriptors == if socketResult == 0 then s.leakedDescriptors + {0} else s.leakedDescriptors
    ensures r.1 ==> r.0 == s.(responseSource := Some(DispatchSource(socketResult)), openDescriptors := {socketResult})
    ensures !r.1 ==> r.0 == s.(leakedDescriptors := r.0.leakedDescriptors)
  {
    if socketResult < 0 then (s, false)
    else if socketResult == 0 then (s.(leakedDescriptors := s.leakedDescriptors + {0}), false)
    else
      var withSocket := s.(openDescriptors := s.openDescriptors + {socketResult});
      if setsockoptResult == -1 then
        // close(newSocket)
        (withSocket.(openDescriptors := withSocket.openDescriptors - {socketResult}), false)
      else
        (withSocket.(responseSource := Some(DispatchSource(socketResult))), true)
  }

  /** `closeConnection()`: cancelling the source shuts down and closes its
      descriptor. A closed connection is left as it is. */
  function CloseStep(s: ConnectionState): (t: ConnectionState)
    ensures t.responseSource == None
    ensures Consistent(s) ==> Consistent(t) && t.openDescriptors == {}
    ensures s.responseSource == None ==> t == s
    ensures t.address == s.address && t.handler == s.handler
    ensures t.leakedDescriptors == s.leakedDescriptors
    ensures t.transmissions == s.transmissions && t.handlerCalls == s.handlerCalls
  {
    match s.responseSource
    case None => s
    case Some(source) =>
      // source.cancel(): the cancel handler shuts down and closes the descriptor
      s.(openDescriptors := s.openDescriptors - {source.handle}, responseSource := None)
  }

  /** `sendBroadcast(_ data:)`: opens the socket if the connection is closed
      (the `socket` and `setsockopt` results matter only then), then hands
      `data` to `sendto`, which returns `sent`. */
  function SendStep(s: ConnectionState, data: seq<uint8>, socketResult: int, setsockoptResult: int, sent: int)
    : (r: (ConnectionState, SendOutcome))
    requires Consistent(s)
    ensures Consistent(r.0)
    ensures r.0.address == s.address && r.0.handler == s.handler && r.0.handlerCalls == s.handlerCalls
    // only an attempted open that gets descriptor 0 leaks it
    ensures r.0.leakedDescriptors ==
      if s.responseSource == None && socketResult == 0 then s.leakedDescriptors + {0} else s.leakedDescriptors
    // opening fails: nothing is sent and the connection stays closed
    ensures s.responseSource == None && !(socketResult > 0 && setsockoptResult != -1) ==>
      r.1 == OpenFailed && r.0 == s.(leakedDescriptors := r.0.leakedDescriptors)
    // otherwise exactly one datagram goes to the fixed destination, on the
    // socket already open or else on the one just created
    ensures s.responseSource.Some? || (socketResult > 0 && setsockoptResult != -1) ==>
      var handle := if s.responseSource.Some? then s.responseSource.value.handle else socketResult;
      r.0.transmissions == s.transmissions + [Transmission(handle, data, s.address)] &&
      (sent <= 0 ==> r.1 == SendFailed && r.0.responseSource == None && r.0.openDescriptors == {}) &&
      (sent > 0 ==> r.1 == (if sent == |data| then SentAll else SentPartly) &&
                    r.0.responseSource == Some(DispatchSource(handle)) && r.0.openDescriptors == {handle})
  {
    var (withSocket, isOpen) :=
      if s.responseSource == None then CreateSocketStep(s, socketResult, setsockoptResult) else (s, true);
    if !isOpen then (withSocket, OpenFailed)
    else
      var source := withSocket.responseSource.value;
      var attempted := withSocket.(transmissions := withSocket.transmissions + [Transmission(source.handle, data, withSocket.address)]);
      if sent <= 0 then (CloseStep(attempted), SendFailed)
      else (attempted, if sent == |data| then SentAll else SentPartly)
  }

  /** The read event handler set up by `createSocket`: `recvfrom` returns
      `bytesRead`, fills in `sender` and copies the pending `datagram` into
      the receive buffer. */
  function ReadEventStep(s: ConnectionState, bytesRead: int, sender: StoredAddress, datagram: seq<uint8>)
    : (t: ConnectionState)
    ensures Consistent(s) ==> Consistent(t)
    ensures t.address == s.address && t.handler == s.handler && t.transmissions == s.transmissions
    ensures t.leakedDescriptors == s.leakedDescriptors
    ensures DecideReceive(s.responseSource.Some?, bytesRead, sender) == Ignore ==> t == s
    ensures DecideReceive(s.responseSource.Some?, bytesRead, sender) == Close ==>
      t.responseSource == None && t.handlerCalls == s.handlerCalls && (Consistent(s) ==> t.openDescriptors == {})
    ensures DecideReceive(s.responseSource.Some?, bytesRead, sender) == Deliver ==>
      t.responseSource == s.responseSource && t.openDescriptors == s.openDescriptors &&
      t.handlerCalls == s.handlerCalls +
        CallsFor(s.handler, GetEndpointFromSocketAddress(sender).value, ResponseBuffer(datagram))
  {
    if s.responseSource == None then s
    else
      var response := ResponseBuffer(datagram);
      if bytesRead < 0 then CloseStep(s)
      else if bytesRead == 0 then CloseStep(s)
      else
        var endpoint := GetEndpointFromSocketAddress(sender);
        if endpoint == None then CloseStep(s)
        else s.(handlerCalls := s.handlerCalls + CallsFor(s.handler, endpoint.value, response))
  }

  class UDPBroadcastConnection {
    /** The broadcast destination, fixed by `init`. */
    var address: SockAddrIn
    /** The receive handler, if any. */
    var handler: Option<Handler>
    /** Present exactly while the socket is open. */
    var responseSource: Option<DispatchSource>

    /** Descriptors this connection holds open through its dispatch source. */
    ghost var openDescriptors: set<int>
    /** Descriptors this connection opened and neither closed nor kept. */
    ghost var leakedDescriptors: set<int>
    /** Every `sendto` call made, in order. */
    ghost var transmissions: seq<Transmission>
    /** Every receive handler call made, in order. */
    ghost var handlerCalls: seq<HandlerCall>

    ghost function State(): ConnectionState
      reads this
    {
      ConnectionState(address, handler, responseSource, openDescriptors, leakedDescriptors, transmissions, handlerCalls)
    }

    ghost predicate Valid()
      reads this
    {
      Consistent(State())
    }

    constructor (port: uint16, handler: Option<Handler>, hostOrder: Endianness)
      ensures Valid() && State() == Initial(port, handler, hostOrder)
    {
      address := BroadcastDestination(hostOrder, port);
      this.handler := handler;
      responseSource := None;
      openDescriptors := {};
      leakedDescriptors := {};
      transmissions := [];
      handlerCalls := [];
    }

    /** Its one caller runs it only on a closed connection. */
    method CreateSocket(socketResult: int, setsockoptResult: int) returns (created: bool)
      requires Valid() && responseSource == None
      modifies this
      ensures Valid() && (State(), created) == CreateSocketStep(old(State()), socketResult, setsockoptResult)
    {
      if socketResult <= 0 {
        if socketResult == 0 {
          // descriptor 0 was opened but is never closed
          leakedDescriptors := leakedDescriptors + {0};
        }
        return false;
      }
      var newSocket := socketResult;
      openDescriptors := openDescriptors + {newSocket};
      if setsockoptResult == -1 {
        // close(newSocket)
        openDescriptors := openDescriptors - {newSocket};
        return false;
      }
      responseSource := Some(DispatchSource(newSocket));
      return true;
    }

    method CloseConnection()
      requires Valid()
      modifies this
      ensures Valid() && State() == CloseStep(old(State()))
    {
      if responseSource.Some? {
        var source := responseSource.value;
        // source.cancel(): the cancel handler shuts down and closes the descriptor
        openDescriptors := openDescriptors - {source.handle};
        responseSource := None;
      }
    }

    method SendBroadcast(data: seq<uint8>, socketResult: int, setsockoptResult: int, sent: int)
      returns (outcome: SendOutcome)
      requires Valid()
      modifies this
      ensures Valid() && (State(), outcome) == SendStep(old(State()), data, socketResult, setsockoptResult, sent)
    {
      if responseSource == None {
        var created := CreateSocket(socketResult, setsockoptResult);
        if !created {
          return OpenFailed;
        }
      }
      var source := responseSource.value;
      transmissions := transmissions + [Transmission(source.handle, data, address)];
      if sent <= 0 {
        CloseConnection();
        return SendFailed;
      }
      outcome := if sent == |data| then SentAll else SentPartly;
    }

    method HandleReadEvent(bytesRead: int, sender: StoredAddress, datagram: seq<uint8>)
      requires Valid()
      modifies this
      ensures Valid() && State() == ReadEventStep(old(State()), bytesRead, sender, datagram)
    {
      if responseSource == None {
        return;
      }
      var response := ResponseBuffer(datagram);
      if bytesRead < 0 {
        CloseConnection();
        return;
      }
      if bytesRead == 0 {
        CloseConnection();
        return;
      }
      var endpoint := GetEndpointFromSocketAddress(sender);
      if endpoint == None {
        CloseConnection();
        return;
      }
      handlerCalls := handlerCalls + CallsFor(handler, endpoint.value, response);
    }
  }
}
