/**
 * The connection multiplexer (OuterspaceClient): one socket carries every
 * request of a warp. An outbound request is framed with an 8-byte header,
 * the request id and the payload length as two little-endian 32-bit words;
 * an inbound frame carries the request id, a one-byte send kind and the
 * payload. Responses are routed to the request waiting under their id,
 * pushed messages to the message handler.
 *
 * The socket is an abstract sink that records the frames it was given;
 * whether it is ready to send is its own state. The message handler is
 * modelled by the log of payloads it was called with, and resolving a
 * waiting request by the log of (request id, payload) completions.
 */
module Outerspace {
  import opened Wrappers

  newtype byte = x: int | 0 <= x < 256

  /** HEADER_SIZE_BYTES of an outbound frame. */
  const HeaderSize: nat := 8
  /** The payload of an inbound frame starts after the request id and the send kind. */
  const PayloadOffset: nat := 5
  const TwoTo32: nat := 0x1_0000_0000

  // ---------------------------------------------------------------------
  // 32-bit little-endian words.

  /** A number stored in a Uint32Array cell: reduced modulo 2^32, least significant byte first. */
  function Uint32LE(x: nat): (b: seq<byte>)
    ensures |b| == 4
  {
    var w := x % TwoTo32;
    [(w % 0x100) as byte, (w / 0x100 % 0x100) as byte, (w / 0x1_0000 % 0x100) as byte, (w / 0x100_0000) as byte]
  }

  /** DataView.getUint32(offset, true) on the first four bytes. */
  function ReadUint32LE(b: seq<byte>): (x: nat)
    requires |b| >= 4
    ensures x < TwoTo32
  {
    b[0] as nat + b[1] as nat * 0x100 + b[2] as nat * 0x1_0000 + b[3] as nat * 0x100_0000
  }

  /** Writing a word and reading it back gives the number modulo 2^32. */
  lemma Uint32RoundTrip(x: nat)
    ensures ReadUint32LE(Uint32LE(x)) == x % TwoTo32
  {
    var w := x % TwoTo32;
    var b := Uint32LE(x);
    assert b[0] as nat == w % 0x100;
    assert b[1] as nat == w / 0x100 % 0x100;
    assert b[2] as nat == w / 0x1_0000 % 0x100;
    assert b[3] as nat == w / 0x100_0000;
    assert w / 0x100 == (w / 0x100) / 0x100 * 0x100 + w / 0x100 % 0x100;
    assert w / 0x1_0000 == (w / 0x100) / 0x100;
    assert w / 0x1_0000 == (w / 0x1_0000) / 0x100 * 0x100 + w / 0x1_0000 % 0x100;
    assert w / 0x100_0000 == (w / 0x1_0000) / 0x100;
  }

  /** Every word is read back from its own four bytes only. */
  lemma ReadUint32Prefix(b: seq<byte>, rest: seq<byte>)
    requires |b| == 4
    ensures ReadUint32LE(b + rest) == ReadUint32LE(b)
  {
    assert (b + rest)[..4] == b;
  }

  // ---------------------------------------------------------------------
  // Outbound frames.

  /**
   * bundleRequest's buffer: word 0 is the request id, word 1 the payload's
   * length, and the payload is copied from byte 8 on. The header is
   * written through a `Uint32Array` over the whole buffer, which refuses a
   * buffer whose length is not a whole number of 4-byte words.
   */
  function Bundle(requestId: nat, request: seq<byte>): (r: Result<seq<byte>>)
    ensures r.Ok? <==> |request| % 4 == 0
    ensures r.Err? ==> r.error == TypedArrayLength
    ensures r.Ok? ==>
      var frame := r.value;
      |frame| == HeaderSize + |request| && (HeaderSize + |request|) % 4 == 0 &&
      ReadUint32LE(frame) == requestId % TwoTo32 && ReadUint32LE(frame[4..]) == |request| % TwoTo32 &&
      frame[HeaderSize..] == request
  {
    if (HeaderSize + |request|) % 4 != 0 then Err(TypedArrayLength)
    else
      var frame := Uint32LE(requestId) + Uint32LE(|request|) + request;
      Uint32RoundTrip(requestId);
      Uint32RoundTrip(|request|);
      ReadUint32Prefix(Uint32LE(requestId), Uint32LE(|request|) + request);
      assert frame[4..] == Uint32LE(|request|) + request;
      ReadUint32Prefix(Uint32LE(|request|), request);
      Ok(frame)
  }

  // ---------------------------------------------------------------------
  // Inbound frames.

  /** SendKind: 0 Invalid, 1 Response, 2 Message. */
  const InvalidKind: byte := 0
  const ResponseKind: byte := 1
  const MessageKind: byte := 2

  datatype Header = Header(requestId: nat, sendKind: byte, payloadOffset: nat)

  /**
   * parseHeader: the request id is the little-endian word at offset 0 and
   * the send kind the byte at offset 4; the payload starts at offset 5. A
   * buffer too short for the header makes the DataView reads throw.
   */
  function ParseHeader(buffer: seq<byte>): (r: Result<Header>)
    ensures r.Ok? <==> |buffer| >= PayloadOffset
    ensures r.Err? ==> r.error == HeaderOutOfRange
    ensures r.Ok? ==> r.value.requestId == ReadUint32LE(buffer) && r.value.sendKind == buffer[4] &&
                      r.value.payloadOffset == PayloadOffset
  {
    if |buffer| < PayloadOffset then Err(HeaderOutOfRange)
    else Ok(Header(ReadUint32LE(buffer), buffer[4], PayloadOffset))
  }

  /** What the socket hands to onmessage: no data, data that is not an ArrayBuffer, or an ArrayBuffer. */
  datatype Inbound = NoData | OtherData | Buffer(bytes: seq<byte>)

  /** Where an inbound frame goes. */
  datatype Route = ToWaiting(requestId: nat, payload: seq<byte>) | ToHandler(payload: seq<byte>)

  /**
   * onMessage's decision: missing data, data that is not an ArrayBuffer,
   * an unreadable header, the Invalid kind and an unknown kind all throw;
   * a Response goes to the request waiting under its id, a Message to the
   * message handler, each with the bytes after the header.
   */
  function Classify(m: Inbound): (r: Result<Route>)
    ensures m.NoData? ==> r == Err(EmptyMessage)
    ensures m.OtherData? ==> r == Err(NotAnArrayBuffer)
    ensures m.Buffer? && |m.bytes| < PayloadOffset ==> r == Err(HeaderOutOfRange)
    ensures m.Buffer? && |m.bytes| >= PayloadOffset ==>
      var b := m.bytes;
      (b[4] == InvalidKind ==> r == Err(InvalidSendKind)) &&
      (b[4] == ResponseKind ==> r == Ok(ToWaiting(ReadUint32LE(b), b[PayloadOffset..]))) &&
      (b[4] == MessageKind ==> r == Ok(ToHandler(b[PayloadOffset..]))) &&
      (b[4] > MessageKind ==> r == Err(UnknownSendKind))
  {
    match m
    case NoData => Err(EmptyMessage)
    case OtherData => Err(NotAnArrayBuffer)
    case Buffer(bytes) =>
      match ParseHeader(bytes)
      case Err(e) => Err(e)
      case Ok(header) =>
        var payload := bytes[header.payloadOffset..];
        if header.sendKind == InvalidKind then Err(InvalidSendKind)
        else if header.sendKind == ResponseKind then Ok(ToWaiting(header.requestId, payload))
        else if header.sendKind == MessageKind then Ok(ToHandler(payload))
        else Err(UnknownSendKind)
  }

  /** An inbound frame as the platform writes it: id word, send kind, payload. */
  function Framed(requestId: nat, sendKind: byte, payload: seq<byte>): (frame: seq<byte>)
  {
    Uint32LE(requestId) + [sendKind] + payload
  }

  /** A response frame the platform writes for a request id reaches the request with that id, with its payload intact. */
  lemma ResponseRoutedToItsRequest(requestId: nat, payload: seq<byte>)
    requires requestId < TwoTo32
    ensures Classify(Buffer(Framed(requestId, ResponseKind, payload))) == Ok(ToWaiting(requestId, payload))
  {
    var frame := Framed(requestId, ResponseKind, payload);
    Uint32RoundTrip(requestId);
    ReadUint32Prefix(Uint32LE(requestId), [ResponseKind] + payload);
    assert frame == Uint32LE(requestId) + ([ResponseKind] + payload);
    assert frame[4] == ResponseKind;
    assert frame[PayloadOffset..] == payload;
  }

  /** A message frame reaches the message handler, whatever id it carries, and never a waiting request. */
  lemma MessageRoutedToHandler(requestId: nat, payload: seq<byte>)
    ensures Classify(Buffer(Framed(requestId, MessageKind, payload))) == Ok(ToHandler(payload))
  {
    var frame := Framed(requestId, MessageKind, payload);
    assert frame == Uint32LE(requestId) + ([MessageKind] + payload);
    assert frame[4] == MessageKind;
    assert frame[PayloadOffset..] == payload;
  }

  // ---------------------------------------------------------------------
  // The socket and the client.

  /** The underlying socket: whether it is ready to send, every frame it was given, and whether it was told to close. */
  class Socket {
    var ready: bool
    var sent: seq<seq<byte>>
    var closeRequested: bool

    constructor(ready: bool)
      ensures this.ready == ready && sent == [] && !closeRequested
    {
      this.ready := ready;
      sent := [];
      closeRequested := false;
    }

    method Close()
      modifies this`closeRequested
      ensures closeRequested
    {
      closeRequested := true;
    }

    method Send(frame: seq<byte>)
      modifies this`sent
      ensures sent == old(sent) + [frame]
    {
      sent := sent + [frame];
    }
  }

  /** A waiting request was resolved with a payload. */
  datatype Completion = Completion(requestId: nat, payload: seq<byte>)

  class OuterspaceClient {
    const socket: Socket
    var nextRequestId: nat
    var isOpen: bool
    /** _waitingRequests: the ids of the requests still waiting for their response. */
    var waiting: set<nat>
    /** Every waiting request resolved, in order. */
    var completions: seq<Completion>
    /** Every payload handed to the message handler, in order. */
    var handled: seq<seq<byte>>

    /** Request ids are handed out from 1 upwards, so every waiting id is below the next one. */
    ghost predicate Valid()
      reads this
    {
      nextRequestId >= 1 && forall id :: id in waiting ==> 1 <= id < nextRequestId
    }

    constructor(socket: Socket)
      ensures Valid() && this.socket == socket
      ensures nextRequestId == 1 && isOpen && waiting == {} && completions == [] && handled == []
    {
      this.socket := socket;
      nextRequestId := 1;
      isOpen := true;
      waiting := {};
      completions := [];
      handled := [];
    }

    /**
     * bundleRequest: the frame for the next request id, which is consumed
     * even when the frame cannot be written.
     */
    method BundleRequest(request: seq<byte>) returns (buffer: Result<seq<byte>>, requestId: nat)
      requires Valid()
      modifies this`nextRequestId
      ensures Valid()
      ensures requestId == old(nextRequestId) && nextRequestId == old(nextRequestId) + 1
      ensures requestId !in waiting
      ensures buffer == Bundle(requestId, request)
    {
      requestId := nextRequestId;
      nextRequestId := nextRequestId + 1;
      buffer := Bundle(requestId, request);
    }

    /**
     * sendRequestAsync. A closed client refuses before an id is consumed;
     * a payload whose frame cannot be written, and then a socket that is
     * not ready, refuse after the id has been consumed, with nothing sent
     * and nothing waiting; otherwise the frame is sent and exactly one
     * request waits under the fresh id, which is returned.
     */
    method SendRequest(request: seq<byte>) returns (r: Result<nat>)
      requires Valid()
      modifies this`nextRequestId, this`waiting, socket`sent
      ensures Valid()
      ensures !old(isOpen) ==>
        r == Err(SocketNotOpen) && nextRequestId == old(nextRequestId) && waiting == old(waiting) && socket.sent == old(socket.sent)
      ensures old(isOpen) ==> nextRequestId == old(nextRequestId) + 1
      ensures old(isOpen) && |request| % 4 != 0 ==>
        r == Err(TypedArrayLength) && waiting == old(waiting) && socket.sent == old(socket.sent)
      ensures old(isOpen) && |request| % 4 == 0 && !socket.ready ==>
        r == Err(SocketNotReady) && waiting == old(waiting) && socket.sent == old(socket.sent)
      ensures old(isOpen) && |request| % 4 == 0 && socket.ready ==>
        r == Ok(old(nextRequestId)) && old(nextRequestId) !in old(waiting) &&
        waiting == old(waiting) + {old(nextRequestId)} &&
        socket.sent == old(socket.sent) + [Bundle(old(nextRequestId), request).value]
    {
      if !isOpen {
        return Err(SocketNotOpen);
      }
      var buffer, requestId := BundleRequest(request);
      if buffer.Err? {
        return Err(buffer.error);
      }
      if !socket.ready {
        return Err(SocketNotReady);
      }
      waiting := waiting + {requestId};
      socket.Send(buffer.value);
      r := Ok(requestId);
    }

    /**
     * handleResponse: the request waiting under the id stops waiting and
     * is resolved once with the payload; an id nobody waits for is only
     * logged.
     */
    method HandleResponse(requestId: nat, payload: seq<byte>)
      requires Valid()
      modifies this`waiting, this`completions
      ensures Valid()
      ensures requestId in old(waiting) ==>
        waiting == old(waiting) - {requestId} && completions == old(completions) + [Completion(requestId, payload)]
      ensures requestId !in old(waiting) ==> waiting == old(waiting) && completions == old(completions)
    {
      if requestId !in waiting {
        return;
      }
      waiting := waiting - {requestId};
      completions := completions + [Completion(requestId, payload)];
    }

    /**
     * onmessage: the frame is classified; a response is handled against
     * the waiting requests, a message goes to the handler and leaves them
     * alone, and anything else throws with nothing changed.
     */
    method OnMessage(m: Inbound) returns (r: Outcome)
      requires Valid()
      modifies this`waiting, this`completions, this`handled
      ensures Valid()
      ensures Classify(m).Err? ==>
        r == Fail(Classify(m).error) &&
        waiting == old(waiting) && completions == old(completions) && handled == old(handled)
      ensures Classify(m).Ok? && Classify(m).value.ToHandler? ==>
        r == Pass && waiting == old(waiting) && completions == old(completions) &&
        handled == old(handled) + [Classify(m).value.payload]
      ensures Classify(m).Ok? && Classify(m).value.ToWaiting? ==>
        var id := Classify(m).value.requestId;
        r == Pass && handled == old(handled) &&
        (id in old(waiting) ==>
          waiting == old(waiting) - {id} && completions == old(completions) + [Completion(id, Classify(m).value.payload)]) &&
        (id !in old(waiting) ==> waiting == old(waiting) && completions == old(completions))
    {
      var routed := Classify(m);
      match routed {
        case Err(e) =>
          r := Fail(e);
        case Ok(ToWaiting(requestId, payload)) =>
          HandleResponse(requestId, payload);
          r := Pass;
        case Ok(ToHandler(payload)) =>
          handled := handled + [payload];
          r := Pass;
      }
    }

    /** shutdown: the socket is told to close when the client is open; nothing else changes. */
    method Shutdown()
      modifies socket`closeRequested
      ensures socket.closeRequested == (old(socket.closeRequested) || isOpen)
    {
      if isOpen {
        socket.Close();
      }
    }
  }

  /**
   * Two requests sent one after the other wait under distinct ids, and a
   * response to the second reaches the second even when it arrives first:
   * the first keeps waiting for its own.
   */
  method TwoRequestsNotSwapped(c: OuterspaceClient, first: seq<byte>, second: seq<byte>, reply: seq<byte>)
    returns (a: Result<nat>, b: Result<nat>)
    requires c.Valid() && c.isOpen && c.socket.ready
    requires |first| % 4 == 0 && |second| % 4 == 0
    modifies c, c.socket
    ensures a.Ok? && b.Ok? && a.value != b.value
    ensures c.completions == old(c.completions) + [Completion(b.value, reply)]
    ensures a.value in c.waiting && b.value !in c.waiting
  {
    a := c.SendRequest(first);
    assert a.Ok? && a.value in c.waiting && c.Valid() && c.isOpen && c.socket.ready;
    b := c.SendRequest(second);
    assert b.Ok? && b.value == a.value + 1 && a.value in c.waiting;
    c.HandleResponse(b.value, reply);
  }
}
