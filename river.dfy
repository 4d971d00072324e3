/**
 * The river client: one connection per warp to the platform, the pairing
 * of each request with the response type it expects, the check that a
 * pushed message is addressed to this client's warp, the dispatch of
 * pushed messages, and the per-warp connection cache.
 *
 * The platform itself is not part of this model. It is a scripted remote
 * end: the connection attempts it will accept and the replies it will
 * give, in order, with a log of every request sent to it.
 */
module River {
  import opened Wrappers
  import opened Unsigned
  import opened Keys
  import opened Wire
  import opened Registry
  import opened Responses

  // ---------------------------------------------------------------------
  // Replies as the platform encodes them: every 64-bit number on the wire
  // is two signed 32-bit halves.

  predicate DeltasWellFormed(deltas: seq<Option<DataDelta>>)
  {
    forall i :: 0 <= i < |deltas| && deltas[i].Some? ==> ValidLong(deltas[i].value.version)
  }

  predicate MessageWellFormed(m: UserMessage)
  {
    (m.DataUpdateMessage? || m.MessageMessage?) ==> DeltasWellFormed(m.deltas)
  }

  predicate SnapshotsWellFormed(data: seq<Option<DataSnapshot>>)
  {
    forall i :: 0 <= i < |data| && data[i].Some? ==> ValidLong(data[i].value.version)
  }

  predicate BodyWellFormed(b: OkBody)
  {
    b.GetDataBody? ==> SnapshotsWellFormed(b.data)
  }

  predicate ReplyWellFormed(resp: RiverUserResponse)
  {
    (forall i :: 0 <= i < |resp.messages| && resp.messages[i].Some? ==> MessageWellFormed(resp.messages[i].value)) &&
    (resp.response.Some? && resp.response.value.Some? && resp.response.value.value.OkResponse? ==>
      BodyWellFormed(resp.response.value.value.body))
  }

  predicate ResponseWellFormed(u: UserResponse)
  {
    (u.response.Some? ==> BodyWellFormed(u.response.value)) &&
    (u.messages.Some? ==> forall i :: 0 <= i < |u.messages.value| ==> MessageWellFormed(u.messages.value[i]))
  }

  predicate PushWellFormed(m: RiverUserMessage)
  {
    ValidLong(m.warpId) && ValidLong(m.warpVersion) && (m.message.Some? ==> MessageWellFormed(m.message.value))
  }

  // ---------------------------------------------------------------------
  // The remote end.

  class Platform {
    /** The replies still to come, one per request, in order. */
    var replies: seq<RiverUserResponse>
    /** Whether each coming connection attempt will open, in order. */
    var accepts: seq<bool>
    /** The user key of every connection attempt made. */
    var attempts: seq<string>
    /** The number of connections opened; a connection is named by its number. */
    var connections: nat
    /** Every request sent, with the connection it went over. */
    var sent: seq<(nat, Request)>

    ghost predicate Valid()
      reads this
    {
      forall i :: 0 <= i < |replies| ==> ReplyWellFormed(replies[i])
    }

    constructor(replies: seq<RiverUserResponse>, accepts: seq<bool>)
      requires forall i :: 0 <= i < |replies| ==> ReplyWellFormed(replies[i])
      ensures Valid()
      ensures this.replies == replies && this.accepts == accepts
      ensures attempts == [] && connections == 0 && sent == []
    {
      this.replies := replies;
      this.accepts := accepts;
      attempts := [];
      connections := 0;
      sent := [];
    }

    /**
     * openOuterspaceConnectionAsync: an empty user key is refused before
     * any socket exists; otherwise the socket either opens, giving a new
     * connection, or closes, and the attempt fails.
     */
    method Open(userKey: string) returns (r: Result<nat>)
      modifies this
      ensures userKey == "" ==> r == Err(Falsy("userKey")) && attempts == old(attempts) && accepts == old(accepts)
      ensures userKey != "" ==>
        attempts == old(attempts) + [userKey] &&
        accepts == (if old(accepts) == [] then [] else old(accepts)[1..]) &&
        (r.Ok? <==> old(accepts) != [] && old(accepts)[0])
      ensures r.Ok? ==> r.value == old(connections) && connections == old(connections) + 1
      ensures r.Err? ==> connections == old(connections)
      ensures r.Err? && userKey != "" ==> r.error == ConnectionFailed
      ensures replies == old(replies) && sent == old(sent)
    {
      if userKey == "" {
        return Err(Falsy("userKey"));
      }
      attempts := attempts + [userKey];
      var opens := accepts != [] && accepts[0];
      if accepts != [] {
        accepts := accepts[1..];
      }
      if !opens {
        return Err(ConnectionFailed);
      }
      r := Ok(connections);
      connections := connections + 1;
    }

    /** sendRequestAsync: the request goes out and the next reply comes back; with none left the send fails. */
    method Send(connection: nat, request: Request) returns (r: Result<RiverUserResponse>)
      requires Valid()
      modifies this
      ensures Valid()
      ensures old(replies) == [] ==> r == Err(TransportFailure) && replies == old(replies) && sent == old(sent)
      ensures old(replies) != [] ==>
        r == Ok(old(replies)[0]) && replies == old(replies)[1..] && sent == old(sent) + [(connection, request)]
      ensures r.Ok? ==> ReplyWellFormed(r.value)
      ensures accepts == old(accepts) && attempts == old(attempts) && connections == old(connections)
    {
      if replies == [] {
        return Err(TransportFailure);
      }
      r := Ok(replies[0]);
      replies := replies[1..];
      sent := sent + [(connection, request)];
    }
  }

  // ---------------------------------------------------------------------
  // Request/response pairing.

  /** The response type each request is read against. */
  function ExpectedKind(body: RequestBody): OkKind
  {
    match body
    case CallServiceMethodRequest(_, _, _, _, _) => CallServiceMethodKind
    case GetDataRequest(_, _) => GetDataKind
    case SaveDataRequest(_) => SaveDataKind
    case SubscribeMessageRequest(_, _) => SubscribeMessageKind
    case UnsubscribeMessageRequest(_, _) => UnsubscribeMessageKind
    case SubscribeDataUpdatesRequest(_) => SubscribeDataUpdatesKind
    case UnsubscribeDataUpdatesRequest(_) => UnsubscribeDataUpdatesKind
  }

  /** Whether the reply to a request may carry companion messages. */
  predicate AcceptsMessages(kind: OkKind)
  {
    kind == CallServiceMethodKind || kind == SaveDataKind
  }

  lemma ReadKeepsWellFormed(resp: RiverUserResponse, expected: OkKind, acceptMessages: bool)
    requires ReplyWellFormed(resp) && ReadResponse(resp, expected, acceptMessages).Ok?
    ensures ResponseWellFormed(ReadResponse(resp, expected, acceptMessages).value)
  {
    var u := ReadResponse(resp, expected, acceptMessages).value;
    if u.messages.Some? {
      assert AllPresent(resp.messages);
      forall i | 0 <= i < |u.messages.value| ensures MessageWellFormed(u.messages.value[i]) {
        assert resp.messages[i] == Some(u.messages.value[i]);
      }
    }
  }

  /**
   * One RiverClient operation: the request is sent once over the client's
   * connection and the reply is read against the request's own response
   * type, accepting companion messages only for a service call or a save.
   */
  method Exchange(platform: Platform, client: RiverClient, request: Request) returns (r: Result<UserResponse>)
    requires platform.Valid()
    modifies platform
    ensures platform.Valid()
    ensures old(platform.replies) == [] ==>
      r == Err(TransportFailure) && platform.replies == old(platform.replies) && platform.sent == old(platform.sent)
    ensures old(platform.replies) != [] ==>
      platform.sent == old(platform.sent) + [(client.connection, request)] &&
      platform.replies == old(platform.replies)[1..] &&
      r == ReadResponse(old(platform.replies)[0], ExpectedKind(request.body), AcceptsMessages(ExpectedKind(request.body)))
    ensures r.Ok? ==> |platform.replies| < |old(platform.replies)|
    ensures r.Ok? && r.value.response.Some? ==>
      KindOf(r.value.response.value) == ExpectedKind(request.body) &&
      old(platform.replies)[0].response == Some(Some(OkResponse(r.value.response.value)))
    ensures r.Ok? && r.value.messages.Some? ==> request.body.CallServiceMethodRequest? || request.body.SaveDataRequest?
    ensures r.Ok? ==> ResponseWellFormed(r.value)
    ensures platform.accepts == old(platform.accepts) && platform.attempts == old(platform.attempts)
    ensures platform.connections == old(platform.connections)
  {
    var reply := platform.Send(client.connection, request);
    if reply.Err? {
      return Err(reply.error);
    }
    var kind := ExpectedKind(request.body);
    r := ReadResponse(reply.value, kind, AcceptsMessages(kind));
    if r.Ok? {
      ReadKeepsWellFormed(reply.value, kind, AcceptsMessages(kind));
    }
  }

  // ---------------------------------------------------------------------
  // validateWarpTarget.

  /** Where a pushed message is addressed, relative to the client's own warp. */
  datatype Verdict =
    | SameWarp        // this very warp and version
    | OutOfDate       // this warp at another version: the client must be regenerated
    | OtherRegistered // another registered warp
    | UnknownWarp     // a warp id nobody registered
    | OtherVersion    // a registered warp id at a version not registered

  function Classify(wreg: WarpRegistry, expected: WarpKey, other: WarpKey): (v: Verdict)
    reads wreg, wreg.registrations, wreg.riverClients
    ensures v == SameWarp <==> WarpKeyEquals(expected, Some(other))
  {
    if WarpKeyEquals(expected, Some(other)) then SameWarp
    else if expected.warpId == other.warpId then OutOfDate
    else if wreg.IsRegistered(other) then OtherRegistered
    else if wreg.TryGetWarpKeyByWarpId(Unsigned(other.warpId)).None? then UnknownWarp
    else OtherVersion
  }

  /**
   * What each verdict means in terms of the registered warps: an unknown
   * warp is one whose id no registered key has, and a warp at another
   * version is one whose id is registered, but not at that version.
   */
  lemma {:induction false} VerdictMeaning(wreg: WarpRegistry, expected: WarpKey, other: WarpKey)
    requires wreg.Valid()
    ensures Classify(wreg, expected, other) == OutOfDate <==>
      other.warpId == expected.warpId && other.warpVersion != expected.warpVersion
    ensures Classify(wreg, expected, other) == OtherRegistered <==>
      other.warpId != expected.warpId && wreg.IsRegistered(other)
    ensures Classify(wreg, expected, other) == UnknownWarp <==>
      other.warpId != expected.warpId && forall k :: wreg.IsRegistered(k) ==> k.warpId != other.warpId
    ensures Classify(wreg, expected, other) == OtherVersion <==>
      other.warpId != expected.warpId && !wreg.IsRegistered(other) &&
      exists k :: wreg.IsRegistered(k) && k.warpId == other.warpId && k.warpVersion != other.warpVersion
  {
    var found := wreg.TryGetWarpKeyByWarpId(Unsigned(other.warpId));
    if found.Some? {
      var k := found.value;
      assert wreg.IsRegistered(k) && k.warpId == other.warpId;
      if !wreg.IsRegistered(other) {
        assert k.warpVersion != other.warpVersion;
      }
    } else {
      forall k | wreg.IsRegistered(k) ensures k.warpId != other.warpId {
        var reg := wreg.registrations.entries[WarpKeyValue(k)].warpKey;
        WarpKeyValueInjective(reg, k);
      }
    }
    if other.warpId != expected.warpId && !wreg.IsRegistered(other) &&
       exists k :: wreg.IsRegistered(k) && k.warpId == other.warpId && k.warpVersion != other.warpVersion {
      var k :| wreg.IsRegistered(k) && k.warpId == other.warpId && k.warpVersion != other.warpVersion;
      var reg := wreg.registrations.entries[WarpKeyValue(k)].warpKey;
      WarpKeyValueInjective(reg, k);
    }
  }

  /**
   * validateWarpTarget: a message for this warp passes; any other fails
   * with a reason naming the warps involved. The expected warp's name is
   * looked up for the first two verdicts, so an unregistered expected key
   * fails there with the registry's missing-value error.
   */
  function ValidateWarpTarget(wreg: WarpRegistry, expected: WarpKey, other: WarpKey, what: string): (r: Outcome)
    requires wreg.Valid()
    reads wreg, wreg.registrations, wreg.riverClients
    ensures r.Pass? <==> other == expected
    ensures var v := Classify(wreg, expected, other);
      (v == UnknownWarp || v == OtherVersion) ==> r.Fail? && r.error.WrongWarp?
    ensures var v := Classify(wreg, expected, other);
      (v == OutOfDate || v == OtherRegistered) ==>
        r.Fail? && (wreg.IsRegistered(expected) ==> r.error.WrongWarp?) && (!wreg.IsRegistered(expected) ==> r.error == MissingValue)
  {
    match Classify(wreg, expected, other)
    case SameWarp => Pass
    case OutOfDate =>
      (match wreg.GetName(expected)
       case Err(e) => Fail(e)
       case Ok(name) => Fail(WrongWarp(OutOfDateReason(name))))
    case OtherRegistered =>
      (match wreg.GetName(expected)
       case Err(e) => Fail(e)
       case Ok(name) => Fail(WrongWarp(OtherWarpReason(what, wreg.GetName(other).value, name))))
    case UnknownWarp =>
      Fail(WrongWarp(UnknownWarpReason(what, other)))
    case OtherVersion =>
      var k := wreg.TryGetWarpKeyByWarpId(Unsigned(other.warpId)).value;
      Fail(WrongWarp(OtherVersionReason(what, wreg.GetName(k).value)))
  }

  function OutOfDateReason(name: string): string
  {
    "The warp client for " + name + " is out of date and must be re-generated."
  }

  function OtherWarpReason(what: string, otherName: string, name: string): string
  {
    "Unexpectedly received " + what + " destined for the warp " + otherName + " when " + name + " was expected."
  }

  function UnknownWarpReason(what: string, other: WarpKey): string
  {
    "Unexpectedly received " + what + " destined for unknown warp " + WarpKeyValue(other) + "."
  }

  function OtherVersionReason(what: string, otherName: string): string
  {
    "Unexpectedly received " + what + " destined for the warp " + otherName + "."
  }

  // ---------------------------------------------------------------------
  // Push dispatch.

  /** A pushed message accepted for this warp, with the handler it goes to. */
  datatype Push =
    | UpdatePush(logContext: string, warpKey: WarpKey, deltas: seq<Option<DataDelta>>)
    | EventPush(logContext: string, warpKey: WarpKey, event: Option<MessageEvent>, deltas: seq<Option<DataDelta>>)

  /** The warp key a pushed message names; a zero id or version is refused. */
  function PushWarpKey(m: RiverUserMessage): (r: Result<WarpKey>)
    requires ValidLong(m.warpId) && ValidLong(m.warpVersion)
    ensures r.Ok? <==> FromLong(m.warpId).value > 0 && FromLong(m.warpVersion).value > 0
    ensures r.Ok? ==> r.value == WarpKey(FromLong(m.warpId).value, FromLong(m.warpVersion).value)
  {
    NewWarpKey(Some(FromLong(m.warpId)), Some(FromLong(m.warpVersion)))
  }

  /**
   * The message handler of openRiverClientAsync: the log context must be
   * non-empty, the message present, of a known kind and addressed to this
   * client's warp; the handler is then given the client's own key.
   */
  function Dispatch(wreg: WarpRegistry, own: WarpKey, m: RiverUserMessage): (r: Result<Push>)
    requires wreg.Valid() && ValidLong(m.warpId) && ValidLong(m.warpVersion)
    reads wreg, wreg.registrations, wreg.riverClients
    ensures r.Ok? <==>
      m.logContext != "" && PushWarpKey(m) == Ok(own) && m.message.Some? && !m.message.value.NoMessage?
    ensures m.logContext == "" ==> r == Err(EmptyLogContext)
    ensures m.logContext != "" && PushWarpKey(m).Ok? && m.message.None? ==> r == Err(EmptyMessage)
    ensures m.logContext != "" && PushWarpKey(m).Ok? && m.message == Some(NoMessage) ==> r == Err(UnknownMessageType)
    ensures r.Ok? ==> r.value.logContext == m.logContext && r.value.warpKey == own
    ensures r.Ok? && m.message.value.DataUpdateMessage? ==> r.value == UpdatePush(m.logContext, own, m.message.value.deltas)
    ensures r.Ok? && m.message.value.MessageMessage? ==>
      r.value == EventPush(m.logContext, own, m.message.value.event, m.message.value.deltas)
  {
    if m.logContext == "" then Err(EmptyLogContext)
    else
      match PushWarpKey(m)
      case Err(e) => Err(e)
      case Ok(other) =>
        if m.message.None? then Err(EmptyMessage)
        else
          match m.message.value
          case DataUpdateMessage(deltas) =>
            (match ValidateWarpTarget(wreg, own, other, "an object update")
             case Fail(e) => Err(e)
             case Pass => Ok(UpdatePush(m.logContext, own, deltas)))
          case MessageMessage(event, deltas) =>
            (match ValidateWarpTarget(wreg, own, other, "an event")
             case Fail(e) => Err(e)
             case Pass => Ok(EventPush(m.logContext, own, event, deltas)))
          case NoMessage => Err(UnknownMessageType)
  }

  /** A message for this warp of a known kind is dispatched, and one for any other warp is refused as misaddressed. */
  lemma MisaddressedRefused(wreg: WarpRegistry, own: WarpKey, m: RiverUserMessage)
    requires wreg.Valid() && ValidLong(m.warpId) && ValidLong(m.warpVersion) && wreg.IsRegistered(own)
    requires m.logContext != "" && PushWarpKey(m).Ok? && PushWarpKey(m).value != own
    requires m.message.Some? && !m.message.value.NoMessage?
    ensures Dispatch(wreg, own, m).Err? && Dispatch(wreg, own, m).error.WrongWarp?
  {
  }

  // ---------------------------------------------------------------------
  // getRiverClientAsync.

  /**
   * getRiverClientAsync: a cached client is returned as it is; an
   * unregistered warp fails before any connection is attempted; otherwise
   * a connection is opened with the warp's user key and, if it opens,
   * stored for the warp. A failed attempt stores nothing.
   */
  method GetRiverClient(wreg: WarpRegistry, platform: Platform, warpKey: WarpKey) returns (r: Result<RiverClient>)
    requires wreg.Valid()
    modifies wreg.riverClients, platform
    ensures wreg.Valid()
    ensures !wreg.IsRegistered(warpKey) ==>
      r == Err(NotRegistered) && wreg.riverClients.entries == old(wreg.riverClients.entries) &&
      platform.attempts == old(platform.attempts)
    ensures old(wreg.TryGetRiverClient(warpKey)).Ok? && old(wreg.TryGetRiverClient(warpKey)).value.Some? ==>
      r == Ok(old(wreg.TryGetRiverClient(warpKey)).value.value) &&
      wreg.riverClients.entries == old(wreg.riverClients.entries) && platform.attempts == old(platform.attempts)
    ensures old(wreg.TryGetRiverClient(warpKey)) == Ok(None) ==>
      var userKey := wreg.GetUserKey(warpKey).value;
      (r.Ok? <==> userKey != "" && old(platform.accepts) != [] && old(platform.accepts)[0]) &&
      (userKey != "" ==> platform.attempts == old(platform.attempts) + [userKey]) &&
      (r.Err? ==> r.error == ConnectionFailed && wreg.riverClients.entries == old(wreg.riverClients.entries)) &&
      (r.Ok? ==> r == Ok(RiverClient(old(platform.connections))) &&
                 wreg.riverClients.entries == old(wreg.riverClients.entries)[WarpKeyValue(warpKey) := r.value])
    ensures r.Ok? ==> wreg.TryGetRiverClient(warpKey) == Ok(Some(r.value))
    ensures platform.replies == old(platform.replies) && platform.sent == old(platform.sent)
    ensures platform.Valid() == old(platform.Valid())
  {
    var cached := wreg.TryGetRiverClient(warpKey);
    if cached.Err? {
      return Err(cached.error);
    }
    if cached.value.Some? {
      return Ok(cached.value.value);
    }
    var userKey := wreg.GetUserKey(warpKey).value;
    var connection := platform.Open(userKey);
    if connection.Err? {
      return Err(ConnectionFailed);
    }
    var client := RiverClient(connection.value);
    var stored := wreg.SetRiverClient(warpKey, client);
    r := Ok(client);
  }
}
