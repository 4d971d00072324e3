/**
 * The errors the tools' account and deployment service reports: the
 * decoding of an error body into a code error or a script error, and the
 * text shown for each.
 */
module JayneErrors {
  import opened Wrappers
  import opened ToolText

  /** A decoded service error; the fields keep the JSON values the body carried. */
  datatype JayneError =
    | CodeError(category: Json, error: Json)
    | ScriptError(message: Json, stack: Json)

  const EmptyStackTrace := "<<empty stack trace>>"

  /** The ScriptError constructor: message, then stack, must be truthy. */
  function NewScriptError(message: Json, stack: Json): (r: Result<JayneError>)
    ensures r.Ok? <==> Truthy(message) && Truthy(stack)
    ensures r.Ok? ==> r.value == ScriptError(message, stack)
    ensures r.Err? ==> r.error == Falsy(if Truthy(message) then "stack" else "message")
  {
    if !Truthy(message) then Err(Falsy("message"))
    else if !Truthy(stack) then Err(Falsy("stack"))
    else Ok(ScriptError(message, stack))
  }

  /** The CodeError constructor: error, then category, must be truthy. */
  function NewCodeError(category: Json, error: Json): (r: Result<JayneError>)
    ensures r.Ok? <==> Truthy(error) && Truthy(category)
    ensures r.Ok? ==> r.value == CodeError(category, error)
    ensures r.Err? ==> r.error == Falsy(if Truthy(error) then "category" else "error")
  {
    if !Truthy(error) then Err(Falsy("error"))
    else if !Truthy(category) then Err(Falsy("category"))
    else Ok(CodeError(category, error))
  }

  /**
   * ScriptError.fromJson: the body must be truthy and own "message" and
   * "stack"; a falsy stack is replaced by a fixed placeholder.
   */
  function ScriptFromJson(obj: Json): (r: Result<JayneError>)
    ensures !Truthy(obj) ==> r == Err(BadErrorObject("empty"))
    ensures Truthy(obj) && !HasOwn(obj, "message") ==> r == Err(BadErrorObject("message"))
    ensures HasOwn(obj, "message") && !HasOwn(obj, "stack") ==> r == Err(BadErrorObject("stack"))
    ensures r.Ok? <==> HasOwn(obj, "message") && HasOwn(obj, "stack") && Truthy(obj.fields["message"])
    ensures r.Ok? ==> r.value.ScriptError? && r.value.message == obj.fields["message"]
                      && Truthy(r.value.stack)
                      && (Truthy(obj.fields["stack"]) ==> r.value.stack == obj.fields["stack"])
                      && (!Truthy(obj.fields["stack"]) ==> r.value.stack == JStr(EmptyStackTrace))
  {
    if !Truthy(obj) then Err(BadErrorObject("empty"))
    else if !HasOwn(obj, "message") then Err(BadErrorObject("message"))
    else if !HasOwn(obj, "stack") then Err(BadErrorObject("stack"))
    else
      var stack := obj.fields["stack"];
      NewScriptError(obj.fields["message"], if Truthy(stack) then stack else JStr(EmptyStackTrace))
  }

  /** CodeError.fromJson: the body must be truthy and own "error" and "category". */
  function CodeFromJson(obj: Json): (r: Result<JayneError>)
    ensures !Truthy(obj) ==> r == Err(BadErrorObject("empty"))
    ensures Truthy(obj) && !HasOwn(obj, "error") ==> r == Err(BadErrorObject("code"))
    ensures HasOwn(obj, "error") && !HasOwn(obj, "category") ==> r == Err(BadErrorObject("category"))
    ensures r.Ok? <==> HasOwn(obj, "error") && HasOwn(obj, "category")
                       && Truthy(obj.fields["error"]) && Truthy(obj.fields["category"])
    ensures r.Ok? ==> r.value == CodeError(obj.fields["category"], obj.fields["error"])
  {
    if !Truthy(obj) then Err(BadErrorObject("empty"))
    else if !HasOwn(obj, "error") then Err(BadErrorObject("code"))
    else if !HasOwn(obj, "category") then Err(BadErrorObject("category"))
    else NewCodeError(obj.fields["category"], obj.fields["error"])
  }

  /**
   * parseError: the body must be truthy and own "type"; "code" and
   * "script_exception" select the decoder, any other type is refused.
   */
  function ParseError(obj: Json): (r: Result<JayneError>)
    ensures !Truthy(obj) ==> r == Err(Falsy("response_obj"))
    ensures Truthy(obj) && !HasOwn(obj, "type") ==> r == Err(BadErrorObject("type"))
    ensures HasOwn(obj, "type") && obj.fields["type"] == JStr("code") ==> r == CodeFromJson(obj)
    ensures HasOwn(obj, "type") && obj.fields["type"] == JStr("script_exception") ==> r == ScriptFromJson(obj)
    ensures HasOwn(obj, "type") && obj.fields["type"] !in {JStr("code"), JStr("script_exception")}
            ==> r == Err(BadErrorObject("unknown type"))
    ensures r.Ok? ==> (r.value.CodeError? <==> obj.fields["type"] == JStr("code"))
  {
    if !Truthy(obj) then Err(Falsy("response_obj"))
    else if !HasOwn(obj, "type") then Err(BadErrorObject("type"))
    else if obj.fields["type"] == JStr("code") then CodeFromJson(obj)
    else if obj.fields["type"] == JStr("script_exception") then ScriptFromJson(obj)
    else Err(BadErrorObject("unknown type"))
  }

  /** ScriptError.getMessage: the message, a line break, then the stack. */
  function ScriptMessage(message: Json, stack: Json): string
  {
    Text(message) + "\n" + Text(stack)
  }

  /** The text up to the first line break. */
  function FirstLine(t: string): string
  {
    if |t| == 0 || t[0] == '\n' then "" else [t[0]] + FirstLine(t[1..])
  }

  /** The text after the first line break. */
  function AfterFirstLine(t: string): string
  {
    if |t| == 0 then "" else if t[0] == '\n' then t[1..] else AfterFirstLine(t[1..])
  }

  /** A one-line message and its stack can be read back from the combined text. */
  lemma {:induction false} ScriptMessageSplits(message: Json, stack: Json)
    requires forall i :: 0 <= i < |Text(message)| ==> Text(message)[i] != '\n'
    ensures FirstLine(ScriptMessage(message, stack)) == Text(message)
    ensures AfterFirstLine(ScriptMessage(message, stack)) == Text(stack)
  {
    LineSplits(Text(message), Text(stack));
  }

  lemma {:induction false} LineSplits(line: string, rest: string)
    requires forall i :: 0 <= i < |line| ==> line[i] != '\n'
    ensures FirstLine(line + "\n" + rest) == line
    ensures AfterFirstLine(line + "\n" + rest) == rest
  {
    if |line| > 0 {
      LineSplits(line[1..], rest);
      assert (line + "\n" + rest)[1..] == line[1..] + "\n" + rest;
    } else {
      assert line + "\n" + rest == "\n" + rest;
    }
  }

  /** The categories getMessage knows. */
  const Categories: set<string> := {"Platform", "BusinessLogic", "External", "CodeParse"}

  // The fixed texts; `channel` is the name of the service-notices channel.

  function MaxWarpLimitText(channel: string): string
  {
    "The total warp limit has been reached. See the " + channel
    + " channel for when the limit will be increased."
  }

  const UserWarpLimitText :=
    "The maximum number of warps already exist on your account. You must delete an existing warp before you can boot a new one."

  function CreationDisabledText(channel: string): string
  {
    "Account creation has been temporarily disabled. See the " + channel
    + " channel for when new accounts can be created again."
  }

  const GoogleIdentityText := "An underlying error prevented the account from being created."
  const DatabaseText := "An internal error prevented the account from being created."
  const DuplicateWarpNameText := "A warp already exists with that name."
  const WarpNotFoundText := "A warp by that name was not found."
  const UserNotFoundText := "The specified user was not found."
  const UserExistsText := "A user with that email already exists."
  const UserDisabledText := "The user is disabled."
  const EmailUnverifiedText := "The email is not yet verified."
  const CreationTokenText :=
    "Invalid account creation token. Retry creating an account the re-running the command."

  /** The fixed texts of the known Platform errors. */
  function PlatformTexts(channel: string): map<string, string>
  {
    map[
      "MaxWarpLimitReached" := MaxWarpLimitText(channel),
      "UserWarpLimitReached" := UserWarpLimitText,
      "AccountCreationTemporarilyDisabled" := CreationDisabledText(channel),
      "FailedToCreateAccountWithGoogleIdentity" := GoogleIdentityText,
      "FailedToCreateAccountInDatabase" := DatabaseText
    ]
  }

  /** The fixed texts of the known BusinessLogic errors. */
  const BusinessTexts: map<string, string> :=
    map[
      "DuplicateWarpName" := DuplicateWarpNameText,
      "WarpNotFoundByName" := WarpNotFoundText,
      "UserNotFound" := UserNotFoundText,
      "UserAlreadyExists" := UserExistsText,
      "UserDisabled" := UserDisabledText,
      "EmailUnverified" := EmailUnverifiedText,
      "InvalidAccountCreationToken" := CreationTokenText
    ]

  /** The fixed texts of one category; External and CodeParse have none. */
  function KnownTexts(channel: string, category: string): map<string, string>
  {
    if category == "Platform" then PlatformTexts(channel)
    else if category == "BusinessLogic" then BusinessTexts
    else map[]
  }

  /** The prefix put before an error the category does not know. */
  function CategoryPrefix(category: string): string
  {
    if category == "Platform" then "Platform error: "
    else if category == "BusinessLogic" then "Business logic error: "
    else if category == "External" then "Stackless internal error: "
    else "Warp compilation error: "
  }

  /** The inner switch of getMessage for the Platform category. */
  function PlatformMessage(channel: string, error: Json): string
  {
    if error.JStr? && error.s == "MaxWarpLimitReached" then MaxWarpLimitText(channel)
    else if error.JStr? && error.s == "UserWarpLimitReached" then UserWarpLimitText
    else if error.JStr? && error.s == "AccountCreationTemporarilyDisabled" then CreationDisabledText(channel)
    else if error.JStr? && error.s == "FailedToCreateAccountWithGoogleIdentity" then GoogleIdentityText
    else if error.JStr? && error.s == "FailedToCreateAccountInDatabase" then DatabaseText
    else "Platform error: " + Text(error)
  }

  /** The inner switch of getMessage for the BusinessLogic category. */
  function BusinessMessage(error: Json): string
  {
    if error.JStr? && error.s == "DuplicateWarpName" then DuplicateWarpNameText
    else if error.JStr? && error.s == "WarpNotFoundByName" then WarpNotFoundText
    else if error.JStr? && error.s == "UserNotFound" then UserNotFoundText
    else if error.JStr? && error.s == "UserAlreadyExists" then UserExistsText
    else if error.JStr? && error.s == "UserDisabled" then UserDisabledText
    else if error.JStr? && error.s == "EmailUnverified" then EmailUnverifiedText
    else if error.JStr? && error.s == "InvalidAccountCreationToken" then CreationTokenText
    else "Business logic error: " + Text(error)
  }

  /** CodeError.getMessage: a fixed text, a prefixed error, or nothing for an unknown category. */
  function CodeMessage(channel: string, category: Json, error: Json): Option<string>
  {
    if category == JStr("Platform") then Some(PlatformMessage(channel, error))
    else if category == JStr("BusinessLogic") then Some(BusinessMessage(error))
    else if category == JStr("External") then Some("Stackless internal error: " + Text(error))
    else if category == JStr("CodeParse") then Some("Warp compilation error: " + Text(error))
    else None
  }

  /** getMessage gives no text exactly for a category it does not know. */
  lemma CodeMessageNone(channel: string, category: Json, error: Json)
    ensures CodeMessage(channel, category, error).None? <==> !(category.JStr? && category.s in Categories)
  {
  }

  /** A known (category, error) pair gets the fixed text of the table. */
  lemma CodeMessageKnown(channel: string, category: string, error: string)
    requires error in KnownTexts(channel, category)
    ensures CodeMessage(channel, JStr(category), JStr(error)) == Some(KnownTexts(channel, category)[error])
  {
    if category == "Platform" {
      PlatformKnown(channel, error);
    } else {
      BusinessKnown(error);
    }
  }

  lemma PlatformKnown(channel: string, error: string)
    requires error in PlatformTexts(channel)
    ensures PlatformMessage(channel, JStr(error)) == PlatformTexts(channel)[error]
  {
  }

  lemma BusinessKnown(error: string)
    requires error in BusinessTexts
    ensures BusinessMessage(JStr(error)) == BusinessTexts[error]
  {
  }

  /** Any other error of a known category gets that category's prefix. */
  lemma CodeMessageUnknownError(channel: string, category: string, error: Json)
    requires category in Categories
    requires !(error.JStr? && error.s in KnownTexts(channel, category))
    ensures CodeMessage(channel, JStr(category), error) == Some(CategoryPrefix(category) + Text(error))
  {
    if !error.JStr? {
      NonStringError(channel, error);
    } else if category == "Platform" {
      NotPlatformError(channel, error.s);
      PlatformOtherName(channel, error.s);
    } else if category == "BusinessLogic" {
      NotBusinessError(error.s);
      BusinessOtherName(error.s);
    }
  }

  /** A non-string error never matches a fixed case. */
  lemma NonStringError(channel: string, error: Json)
    requires !error.JStr?
    ensures PlatformMessage(channel, error) == "Platform error: " + Text(error)
    ensures BusinessMessage(error) == "Business logic error: " + Text(error)
  {
  }

  lemma NotPlatformError(channel: string, e: string)
    requires e !in PlatformTexts(channel)
    ensures e != "MaxWarpLimitReached" && e != "UserWarpLimitReached"
            && e != "AccountCreationTemporarilyDisabled"
            && e != "FailedToCreateAccountWithGoogleIdentity" && e != "FailedToCreateAccountInDatabase"
  {
  }

  lemma PlatformOtherName(channel: string, e: string)
    requires e != "MaxWarpLimitReached" && e != "UserWarpLimitReached"
             && e != "AccountCreationTemporarilyDisabled"
             && e != "FailedToCreateAccountWithGoogleIdentity" && e != "FailedToCreateAccountInDatabase"
    ensures PlatformMessage(channel, JStr(e)) == "Platform error: " + e
  {
  }

  lemma NotBusinessError(e: string)
    requires e !in BusinessTexts
    ensures e != "DuplicateWarpName" && e != "WarpNotFoundByName" && e != "UserNotFound"
            && e != "UserAlreadyExists" && e != "UserDisabled" && e != "EmailUnverified"
            && e != "InvalidAccountCreationToken"
  {
  }

  lemma BusinessOtherName(e: string)
    requires e != "DuplicateWarpName" && e != "WarpNotFoundByName" && e != "UserNotFound"
             && e != "UserAlreadyExists" && e != "UserDisabled" && e != "EmailUnverified"
             && e != "InvalidAccountCreationToken"
    ensures BusinessMessage(JStr(e)) == "Business logic error: " + e
  {
  }
}
