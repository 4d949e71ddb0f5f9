/** What holds over any sequence of calls a client and the event source make
    on one connection: `sendBroadcast`, `closeConnection` and read events,
    each with whatever the operating system answers. */
module ConnectionRuns {
  import opened ByteOrder
  import opened SocketAddress
  import opened UDPBroadcast

  /** One call on the connection, with the system call results it meets. */
  datatype Call =
    | Send(data: seq<uint8>, socketResult: int, setsockoptResult: int, sent: int)
    | CloseCall
    | ReadEvent(bytesRead: int, sender: StoredAddress, datagram: seq<uint8>)

  function Apply(s: ConnectionState, c: Call): (t: ConnectionState)
    requires Consistent(s)
    ensures Consistent(t) && t.address == s.address && t.handler == s.handler
  {
    match c
    case Send(data, socketResult, setsockoptResult, sent) => SendStep(s, data, socketResult, setsockoptResult, sent).0
    case CloseCall => CloseStep(s)
    case ReadEvent(bytesRead, sender, datagram) => ReadEventStep(s, bytesRead, sender, datagram)
  }

  /** The state after the calls, in order. Every state reached holds at most
      one descriptor through a live dispatch source and keeps the destination
      and the handler. */
  function Run(s: ConnectionState, calls: seq<Call>): (t: ConnectionState)
    requires Consistent(s)
    ensures Consistent(t) && |t.openDescriptors| <= 1
    ensures t.address == s.address && t.handler == s.handler
    decreases |calls|
  {
    if calls == [] then s else Run(Apply(s, calls[0]), calls[1..])
  }

  predicate IsSend(c: Call) { c.Send? }

  /** The histories only grow: every datagram ever sent goes to the fixed
      destination, and every handler call goes to the stored handler with a
      full 4096-byte buffer. */
  lemma {:induction false} RunOnlyAppends(s: ConnectionState, calls: seq<Call>)
    requires Consistent(s)
    ensures var t := Run(s, calls);
      |s.transmissions| <= |t.transmissions| && t.transmissions[..|s.transmissions|] == s.transmissions &&
      |s.handlerCalls| <= |t.handlerCalls| && t.handlerCalls[..|s.handlerCalls|] == s.handlerCalls
    ensures var t := Run(s, calls);
      forall i :: |s.transmissions| <= i < |t.transmissions| ==> t.transmissions[i].destination == s.address
    ensures var t := Run(s, calls);
      forall i :: |s.handlerCalls| <= i < |t.handlerCalls| ==>
        s.handler == Some(t.handlerCalls[i].handler) && |t.handlerCalls[i].response| == RESPONSE_CAPACITY
    decreases |calls|
  {
    if calls != [] {
      var u := Apply(s, calls[0]);
      RunOnlyAppends(u, calls[1..]);
      var t := Run(s, calls);
      assert t == Run(u, calls[1..]);
      assert u.transmissions[..|s.transmissions|] == s.transmissions;
      assert u.handlerCalls[..|s.handlerCalls|] == s.handlerCalls;
      forall i | |s.transmissions| <= i < |t.transmissions|
        ensures t.transmissions[i].destination == s.address
      {
        if i < |u.transmissions| {
          assert t.transmissions[i] == u.transmissions[i];
        }
      }
      forall i | |s.handlerCalls| <= i < |t.handlerCalls|
        ensures s.handler == Some(t.handlerCalls[i].handler) && |t.handlerCalls[i].response| == RESPONSE_CAPACITY
      {
        if i < |u.handlerCalls| {
          assert t.handlerCalls[i] == u.handlerCalls[i];
        }
      }
    }
  }

  /** Every datagram a connection ever sends goes to the broadcast address on
      the configured port, stored in network byte order. */
  lemma SentOnlyToBroadcastDestination(port: uint16, handler: Option<Handler>, hostOrder: Endianness, calls: seq<Call>)
    ensures var t := Run(Initial(port, handler, hostOrder), calls);
      forall x :: x in t.transmissions ==>
        x.destination.family == AF_INET && x.destination.addr == INADDR_BROADCAST &&
        InMemory(hostOrder, x.destination.port) == NetworkBytes(port)
  {
    var s := Initial(port, handler, hostOrder);
    RunOnlyAppends(s, calls);
  }

  /** Without a send the connection never opens a socket: closing and read
      events leave a closed connection exactly as it was. */
  lemma {:induction false} NoSendNoSocket(s: ConnectionState, calls: seq<Call>)
    requires Consistent(s) && s.responseSource == None
    requires forall i :: 0 <= i < |calls| ==> !IsSend(calls[i])
    ensures Run(s, calls) == s
    decreases |calls|
  {
    if calls != [] {
      assert !IsSend(calls[0]);
      NoSendNoSocket(Apply(s, calls[0]), calls[1..]);
    }
  }

  /** While sends keep succeeding, an open connection keeps its one socket:
      no new socket is created and every datagram goes out on it. */
  lemma {:induction false} OpenConnectionKeepsItsSocket(s: ConnectionState, calls: seq<Call>)
    requires Consistent(s) && s.responseSource.Some?
    requires forall i :: 0 <= i < |calls| ==> IsSend(calls[i]) && calls[i].sent > 0
    ensures var t := Run(s, calls);
      t.responseSource == s.responseSource && t.openDescriptors == s.openDescriptors &&
      |t.transmissions| == |s.transmissions| + |calls| &&
      forall i :: |s.transmissions| <= i < |t.transmissions| ==>
        t.transmissions[i].handle == s.responseSource.value.handle
    decreases |calls|
  {
    if calls != [] {
      var u := Apply(s, calls[0]);
      assert IsSend(calls[0]) && calls[0].sent > 0;
      assert forall i :: 0 <= i < |calls[1..]| ==> calls[1..][i] == calls[i + 1];
      OpenConnectionKeepsItsSocket(u, calls[1..]);
      var t := Run(s, calls);
      assert t == Run(u, calls[1..]);
      forall i | |s.transmissions| <= i < |t.transmissions|
        ensures t.transmissions[i].handle == s.responseSource.value.handle
      {
        RunOnlyAppends(u, calls[1..]);
        if i < |u.transmissions| {
          assert t.transmissions[i] == u.transmissions[i];
        }
      }
    }
  }

  /** A failed read closes the connection, and the next send opens a fresh
      socket and sends on it. */
  lemma ReopenAfterReceiveError(s: ConnectionState, sender: StoredAddress, errorResult: int,
                                data: seq<uint8>, socketResult: int, setsockoptResult: int, sent: int)
    requires Consistent(s) && s.responseSource.Some?
    requires errorResult < 0 && socketResult > 0 && setsockoptResult != -1 && sent > 0
    ensures var t := Run(s, [ReadEvent(errorResult, sender, []), Send(data, socketResult, setsockoptResult, sent)]);
      t.responseSource == Some(DispatchSource(socketResult)) && t.openDescriptors == {socketResult} &&
      t.transmissions == s.transmissions + [Transmission(socketResult, data, s.address)] &&
      t.handlerCalls == s.handlerCalls
  {
    var calls := [ReadEvent(errorResult, sender, []), Send(data, socketResult, setsockoptResult, sent)];
    var closed := Apply(s, calls[0]);
    assert closed.responseSource == None;
    assert calls[1..][1..] == [];
    assert Run(s, calls) == Run(closed, calls[1..]) == Apply(closed, calls[1]);
  }

  /** A send on a closed connection whose `socket` call returns descriptor 0
      sends nothing, stays closed, and leaves descriptor 0 open with no
      reference to it. */
  lemma DescriptorZeroLeaks(s: ConnectionState, data: seq<uint8>, setsockoptResult: int, sent: int)
    requires Consistent(s) && s.responseSource == None
    ensures var r := SendStep(s, data, 0, setsockoptResult, sent);
      r.1 == OpenFailed && r.0.responseSource == None && 0 !in r.0.openDescriptors &&
      0 in r.0.leakedDescriptors && r.0.transmissions == s.transmissions
  {
  }

  /** Descriptor 0 is the only one a connection can leak: every other
      descriptor it opens is either closed again or held by its source. */
  lemma {:induction false} OnlyDescriptorZeroLeaks(s: ConnectionState, calls: seq<Call>)
    requires Consistent(s)
    ensures Run(s, calls).leakedDescriptors <= s.leakedDescriptors + {0}
    decreases |calls|
  {
    if calls != [] {
      var u := Apply(s, calls[0]);
      assert u.leakedDescriptors <= s.leakedDescriptors + {0};
      OnlyDescriptorZeroLeaks(u, calls[1..]);
    }
  }
}
