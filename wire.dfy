/**
 * The records exchanged with the platform, as datatypes rather than byte
 * layouts. A table field the sender may leave out is an `Option`; a string
 * field left out reads as the empty string, which every reader treats as
 * missing.
 */
module Wire {
  import opened Wrappers
  import opened Unsigned

  /** The kind tag of an encoded value (the value union's member). */
  datatype ValueTag =
    | UndefinedTag | NullTag | BooleanTag | NumberTag | StringTag | ObjectTag
    | ArrayTag | DataReferenceTag | ServiceReferenceTag | MapTag | SetTag | DateTag

  /** An encoded value. `NoValue` is a value whose union tag is NONE. */
  datatype Value =
    | NoValue
    | UndefinedValue
    | NullValue
    | BooleanValue(b: bool)
    | NumberValue(n: int)
    | StringValue(s: string)
    | ObjectValue(properties: seq<Property>)
    | ArrayValue(items: seq<ArrayItem>)
    | DataReferenceValue(classId: int, primaryKey: string)
    | ServiceReferenceValue(classId: int, primaryKey: string)
    | MapValue(entries: seq<MapItem>)
    | SetValue(members: seq<Value>)
    | DateValue(time: int)

  /** A named property; the name is empty and the value absent when the sender left them out. */
  datatype Property = Property(name: string, value: Option<Value>)

  /** An array element with the index it is to be stored at. */
  datatype ArrayItem = ArrayItem(index: nat, value: Option<Value>)

  datatype MapItem = MapItem(key: Option<Value>, value: Option<Value>)

  /** The union member of a value; NONE has none. */
  function TagOf(v: Value): (t: Option<ValueTag>)
    ensures t.None? <==> v.NoValue?
  {
    match v
    case NoValue => None
    case UndefinedValue => Some(UndefinedTag)
    case NullValue => Some(NullTag)
    case BooleanValue(_) => Some(BooleanTag)
    case NumberValue(_) => Some(NumberTag)
    case StringValue(_) => Some(StringTag)
    case ObjectValue(_) => Some(ObjectTag)
    case ArrayValue(_) => Some(ArrayTag)
    case DataReferenceValue(_, _) => Some(DataReferenceTag)
    case ServiceReferenceValue(_, _) => Some(ServiceReferenceTag)
    case MapValue(_) => Some(MapTag)
    case SetValue(_) => Some(SetTag)
    case DateValue(_) => Some(DateTag)
  }

  // ---------------------------------------------------------------------
  // Requests.

  /** A property of a Data object as sent to the platform: a name and its encoded value. */
  datatype NestedProperty = NestedProperty(name: string, value: Value)

  /** The state of one Data object sent along with a request. */
  datatype InboundDataDelta = InboundDataDelta(
    classId: int, version: Long, primaryKey: string,
    properties: seq<NestedProperty>, deletedProperties: seq<string>)

  /** A reference to a Data or Service instance by class id and primary key. */
  datatype Reference = Reference(classId: int, primaryKey: string)

  datatype SourceReference = DataSourceReference(ref: Reference) | ServiceSourceReference(ref: Reference)

  datatype RequestBody =
    | CallServiceMethodRequest(classId: int, primaryKey: string, methodId: int,
                               arguments: seq<Value>, referencedDataDeltas: seq<InboundDataDelta>)
    | GetDataRequest(classId: int, primaryKey: string)
    | SaveDataRequest(dataDeltas: seq<InboundDataDelta>)
    | SubscribeMessageRequest(messageClassId: int, source: SourceReference)
    | UnsubscribeMessageRequest(messageClassId: int, source: SourceReference)
    | SubscribeDataUpdatesRequest(references: seq<Reference>)
    | UnsubscribeDataUpdatesRequest(references: seq<Reference>)

  datatype Request = Request(logContext: string, warpId: Long, warpVersion: Long, body: RequestBody)

  // ---------------------------------------------------------------------
  // Data sent by the platform.

  /** A change to one Data object. */
  datatype DataDelta = DataDelta(
    classId: int, primaryKey: string, version: Long, deleted: bool,
    properties: seq<Property>, deletedProperties: seq<string>)

  /** The full state of one Data object. */
  datatype DataSnapshot = DataSnapshot(
    classId: int, primaryKey: string, version: Long, deleted: bool,
    properties: seq<Property>)

  datatype EventSource = FromData(ref: Reference) | FromService(ref: Reference) | NoSource

  /** A Message instance raised by a warp. */
  datatype MessageEvent = MessageEvent(classId: int, source: EventSource, properties: seq<Property>)

  /**
   * A message bundled with a response or pushed by the platform. A delta or
   * an event whose bytes are missing is `None`.
   */
  datatype UserMessage =
    | DataUpdateMessage(deltas: seq<Option<DataDelta>>)
    | MessageMessage(event: Option<MessageEvent>, deltas: seq<Option<DataDelta>>)
    | NoMessage

  /** A message pushed by the platform outside any request. */
  datatype RiverUserMessage = RiverUserMessage(
    logContext: string, warpId: Long, warpVersion: Long, message: Option<UserMessage>)

  // ---------------------------------------------------------------------
  // Responses.

  datatype LogEntry = LogEntry(error: bool, message: string)

  datatype ConsoleLog = ConsoleLog(entries: seq<Option<LogEntry>>)

  /** The kinds of successful response, one per request kind. */
  datatype OkKind =
    | CallServiceMethodKind | GetDataKind | SaveDataKind | SubscribeMessageKind
    | SubscribeDataUpdatesKind | UnsubscribeMessageKind | UnsubscribeDataUpdatesKind

  datatype OkBody =
    | CallServiceMethodBody(returnValue: Option<Value>)
    | GetDataBody(data: seq<Option<DataSnapshot>>)
    | SaveDataBody
    | SubscribeMessageBody
    | SubscribeDataUpdatesBody
    | UnsubscribeMessageBody
    | UnsubscribeDataUpdatesBody

  function KindOf(b: OkBody): OkKind
  {
    match b
    case CallServiceMethodBody(_) => CallServiceMethodKind
    case GetDataBody(_) => GetDataKind
    case SaveDataBody => SaveDataKind
    case SubscribeMessageBody => SubscribeMessageKind
    case SubscribeDataUpdatesBody => SubscribeDataUpdatesKind
    case UnsubscribeMessageBody => UnsubscribeMessageKind
    case UnsubscribeDataUpdatesBody => UnsubscribeDataUpdatesKind
  }

  /** The response union; `NoneResponse` is the tag NONE. */
  datatype ResponseUnion =
    | NoneResponse
    | ErrorCodeResponse(errorCode: int)
    | ExceptionResponse(stack: string, message: string)
    | OkResponse(body: OkBody)

  /**
   * The envelope of every reply. The console log and the response are each
   * a bytes field holding a nested record: the outer `Option` is the field,
   * the inner one its byte array. A bundled message whose bytes are missing
   * is `None`.
   */
  datatype RiverUserResponse = RiverUserResponse(
    consoleLog: Option<Option<ConsoleLog>>,
    response: Option<Option<ResponseUnion>>,
    messages: seq<Option<UserMessage>>)
}
