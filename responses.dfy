/**
 * Reading a reply: the platform answers every request with an error code,
 * a script exception, or a successful response of the expected kind, the
 * latter possibly with bundled messages.
 */
module Responses {
  import opened Wrappers
  import opened Wire
  import Codes

  /** A platform error; both fields must be truthy. */
  datatype PlatformException = PlatformException(code: int, codeString: string)

  /** An exception thrown by warp code; both fields must be truthy. */
  datatype ScriptException = ScriptException(stack: string, message: string)

  datatype UserResponse = UserResponse(
    platformException: Option<PlatformException>,
    exception: Option<ScriptException>,
    response: Option<OkBody>,
    messages: Option<seq<UserMessage>>,
    consoleLog: Option<ConsoleLog>)

  function NewPlatformException(code: int, codeString: string): (r: Result<PlatformException>)
    ensures r.Ok? <==> code != 0 && codeString != ""
    ensures r.Ok? ==> r.value.code == code && r.value.codeString == codeString
    ensures r.Err? ==> r.error == (if code == 0 then Falsy("code") else Falsy("codeString"))
  {
    if code == 0 then Err(Falsy("code"))
    else if codeString == "" then Err(Falsy("codeString"))
    else Ok(PlatformException(code, codeString))
  }

  function NewScriptException(stack: string, message: string): (r: Result<ScriptException>)
    ensures r.Ok? <==> stack != "" && message != ""
    ensures r.Ok? ==> r.value.stack == stack && r.value.message == message
  {
    if stack == "" then Err(Falsy("stack"))
    else if message == "" then Err(Falsy("message"))
    else Ok(ScriptException(stack, message))
  }

  /** Exactly one of the error, the exception and the response is set. */
  predicate ExactlyOne(u: UserResponse)
  {
    (if u.platformException.Some? then 1 else 0) +
    (if u.exception.Some? then 1 else 0) +
    (if u.response.Some? then 1 else 0) == 1
  }

  function CreateOk(body: OkBody, messages: Option<seq<UserMessage>>, log: Option<ConsoleLog>): (u: UserResponse)
    ensures ExactlyOne(u) && u.response == Some(body) && u.messages == messages && u.consoleLog == log
  {
    UserResponse(None, None, Some(body), messages, log)
  }

  /** Only a successful response carries messages. */
  function CreateScriptException(e: ScriptException, log: Option<ConsoleLog>): (u: UserResponse)
    ensures ExactlyOne(u) && u.exception == Some(e) && u.messages.None? && u.consoleLog == log
  {
    UserResponse(None, Some(e), None, None, log)
  }

  function CreatePlatformException(e: PlatformException, log: Option<ConsoleLog>): (u: UserResponse)
    ensures ExactlyOne(u) && u.platformException == Some(e) && u.messages.None? && u.consoleLog == log
  {
    UserResponse(Some(e), None, None, None, log)
  }

  /** A missing stack or message reads as "<empty>". */
  function OrEmpty(s: string): (r: string)
    ensures r != ""
    ensures s != "" ==> r == s
  {
    if s == "" then "<empty>" else s
  }

  /** The console log, when both its field and its bytes are present; a missing byte array is only logged. */
  function LogOf(resp: RiverUserResponse): Option<ConsoleLog>
  {
    if resp.consoleLog.Some? && resp.consoleLog.value.Some? then Some(resp.consoleLog.value.value) else None
  }

  predicate AllPresent(messages: seq<Option<UserMessage>>)
  {
    forall i :: 0 <= i < |messages| ==> messages[i].Some?
  }

  function Unwrapped(messages: seq<Option<UserMessage>>): (r: seq<UserMessage>)
    requires AllPresent(messages)
    ensures |r| == |messages| && forall i :: 0 <= i < |r| ==> messages[i] == Some(r[i])
  {
    if |messages| == 0 then [] else [messages[0].value] + Unwrapped(messages[1..])
  }

  /**
   * readResponse. `expected` is the kind the request calls for;
   * `acceptMessages` says whether bundled messages are allowed.
   */
  function ReadResponse(resp: RiverUserResponse, expected: OkKind, acceptMessages: bool): (r: Result<UserResponse>)
    ensures resp.response.None? ==> r == Err(MissingResponse)
    ensures resp.response == Some(None) ==> r == Err(EmptyResponseBytes)
    ensures resp.response == Some(Some(NoneResponse)) ==> r == Err(NoneResponseType)
    ensures r.Ok? ==> ExactlyOne(r.value) && r.value.consoleLog == LogOf(resp)
    ensures r.Ok? && r.value.response.Some? ==> resp.response == Some(Some(OkResponse(r.value.response.value)))
    ensures forall c :: resp.response == Some(Some(ErrorCodeResponse(c))) ==>
      (r.Ok? <==> c != 0) &&
      (r.Ok? ==> r.value.platformException == Some(PlatformException(c, Codes.GetCodeName(c))))
    ensures forall s, m :: resp.response == Some(Some(ExceptionResponse(s, m))) ==>
      r.Ok? && r.value.exception == Some(ScriptException(OrEmpty(s), OrEmpty(m)))
    ensures forall b :: resp.response == Some(Some(OkResponse(b))) ==>
      (r.Ok? <==> KindOf(b) == expected &&
                  (if acceptMessages then AllPresent(resp.messages) else |resp.messages| == 0)) &&
      (KindOf(b) != expected ==> r == Err(UnexpectedResponseType)) &&
      (KindOf(b) == expected && !acceptMessages && |resp.messages| > 0 ==> r == Err(UnexpectedMessages)) &&
      (r.Ok? ==> r.value.response == Some(b) &&
                 r.value.messages == if |resp.messages| == 0 then None else Some(Unwrapped(resp.messages)))
  {
    var log := LogOf(resp);
    if resp.response.None? then Err(MissingResponse)
    else if resp.response.value.None? then Err(EmptyResponseBytes)
    else
      match resp.response.value.value
      case NoneResponse => Err(NoneResponseType)
      case ErrorCodeResponse(code) =>
        Codes.CodeNameNonEmpty(code);
        (match NewPlatformException(code, Codes.GetCodeName(code))
         case Err(e) => Err(e)
         case Ok(pe) => Ok(CreatePlatformException(pe, log)))
      case ExceptionResponse(stack, message) =>
        Ok(CreateScriptException(ScriptException(OrEmpty(stack), OrEmpty(message)), log))
      case OkResponse(body) =>
        if KindOf(body) != expected then Err(UnexpectedResponseType)
        else if !acceptMessages then
          if |resp.messages| > 0 then Err(UnexpectedMessages) else Ok(CreateOk(body, None, log))
        else if |resp.messages| > 0 then
          if !AllPresent(resp.messages) then Err(InvalidMessageBytes)
          else Ok(CreateOk(body, Some(Unwrapped(resp.messages)), log))
        else Ok(CreateOk(body, None, log))
  }

  /** getErrorForNotOkResponse: the error a caller throws for a response that is not OK. */
  function GetErrorForNotOkResponse(u: UserResponse): (e: Fault)
    ensures u.platformException.Some? ==> e == Platform(u.platformException.value.codeString)
    ensures u.platformException.None? && u.exception.Some? ==>
      e == Script(u.exception.value.message, u.exception.value.stack)
    ensures e == NotOkWithoutError <==> u.platformException.None? && u.exception.None?
  {
    if u.platformException.Some? then Platform(u.platformException.value.codeString)
    else if u.exception.Some? then Script(u.exception.value.message, u.exception.value.stack)
    else NotOkWithoutError
  }

  /**
   * Every response readResponse accepts is either OK or carries its error:
   * a caller never has to report a response that is neither.
   */
  lemma ReadNotOkCarriesError(resp: RiverUserResponse, expected: OkKind, acceptMessages: bool)
    requires ReadResponse(resp, expected, acceptMessages).Ok?
    ensures var u := ReadResponse(resp, expected, acceptMessages).value;
      u.response.None? ==> GetErrorForNotOkResponse(u) != NotOkWithoutError
  {
  }

  /**
   * An error code read from a reply becomes a platform error named by the
   * code table; any code but 0 is accepted, the names being non-empty.
   */
  lemma ErrorCodeBecomesPlatformError(resp: RiverUserResponse, expected: OkKind, acceptMessages: bool, c: int)
    requires resp.response == Some(Some(ErrorCodeResponse(c))) && c != 0
    ensures ReadResponse(resp, expected, acceptMessages).Ok?
    ensures GetErrorForNotOkResponse(ReadResponse(resp, expected, acceptMessages).value) == Platform(Codes.GetCodeName(c))
  {
  }
}
