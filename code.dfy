/**
 * Platform result codes and their display names.
 */
module Codes {
  import opened Wrappers
  import Unsigned

  /** The numeric values the `Code` enumeration defines: 1-26, 29, 31-41, 44-49, 52-56, 58, 59 and 61. */
  predicate IsDefined(code: int)
  {
    1 <= code <= 26 || code == 29 || 31 <= code <= 41 || 44 <= code <= 49 ||
    52 <= code <= 56 || code == 58 || code == 59 || code == 61
  }

  /** getCodeName: the enumeration member's name, or `InternalError(<code>)` for any other number. */
  function GetCodeName(code: int): (name: string)
    ensures !IsDefined(code) ==> name == InternalErrorName(code)
  {
    if IsDefined(code) then MemberName(code) else InternalErrorName(code)
  }

  /** The enumeration's member names. */
  function MemberName(code: int): string
    requires IsDefined(code)
  {
    match code
    case 1 => "Ok"
    case 2 => "InvalidRequest"
    case 3 => "InvalidLogContext"
    case 4 => "ScriptEngine_ClassNotFound"
    case 5 => "ScriptEngine_MethodNotFound"
    case 6 => "ScriptEngine_NoCode"
    case 7 => "ScriptEngine_BadFileId"
    case 8 => "ScriptEngine_FailedToCompileModuleUnknownReason"
    case 9 => "ScriptEngine_FailedToInstanciateModuleUnknownReason"
    case 10 => "ScriptEngine_FailedToEvaluateModuleUnknownReason"
    case 11 => "ScriptEngine_UnableToGetMethod"
    case 12 => "ScriptEngine_UnableToGetMethodBecauseItWasNotAFunction"
    case 13 => "ScriptEngine_UnableToCallMethod"
    case 14 => "ScriptEngine_UnknownFunctionCallFailure"
    case 15 => "ScriptEngine_DuplicateModuleName"
    case 16 => "ScriptEngine_UnsupportedValueType"
    case 17 => "ScriptEngine_UnableToSetArrayValue"
    case 18 => "ScriptEngine_UnableToSetObjectValue"
    case 19 => "Datastore_UnsavedChanges"
    case 20 => "Datastore_TypeMismatch"
    case 21 => "Datastore_ObjectDeleted"
    case 22 => "Datastore_WriteConflictTryAgain"
    case 23 => "Datastore_ObjectNotFound"
    case 24 => "Datastore_Unknown"
    case 25 => "Datastore_MustGetLatestObject"
    case 26 => "Datastore_DuplicateObject"
    case 29 => "Datastore_ClientHasVersionInvalid"
    case 31 => "Datastore_MustGetLatestWarp"
    case 32 => "Datastore_EngineSourceCorrupted"
    case 33 => "Datastore_WarpIndexNotFound"
    case 34 => "Datastore_EngineSourceNotFound"
    case 35 => "Datastore_UnableToOpen"
    case 36 => "Datastore_UnableToCreateDirectory"
    case 37 => "Datastore_UnknownSystemError"
    case 38 => "Datastore_DeletedFlagExists"
    case 39 => "Datastore_DeletedFileExists"
    case 40 => "Datastore_WarpVersionCorrupted"
    case 41 => "Datastore_FailedToSetInitialWarpVersion"
    case 44 => "Validator_ClientMustUpgrade"
    case 45 => "Validator_InvalidFlatbuffer"
    case 46 => "Validator_Forbidden"
    case 47 => "Validator_PrimaryKeyTooLarge"
    case 48 => "Validator_PrimaryKeyTooSmall"
    case 49 => "Validator_InvalidRequest"
    case 52 => "Innerspace_ConnectionFault"
    case 53 => "Innerspace_RequestTooLarge"
    case 54 => "Innerspace_Shutdown"
    case 55 => "Innerspace_UnableToResolveHostPort"
    case 56 => "Innerspace_NoEndpoints"
    case 58 => "Launcher_TimedOutWhileGettingWarpSpace"
    case 59 => "Launcher_FailedToSpawnWarpSpace"
    case _ => "WarpSpace_WarpDeleted"
  }

  /** The name given to a number outside the enumeration: `InternalError(<code>)`. */
  function InternalErrorName(code: int): (name: string)
    ensures |name| > 14 && name[..14] == "InternalError("
  {
    "InternalError(" + Unsigned.IntText(code) + ")"
  }

  /**
   * The inverse of the name table: the code a member name stands for. It
   * decides by the name's length and, among names of equal length, by a
   * character where they differ, then confirms the whole name.
   */
  function CodeOfName(name: string): (code: Option<int>)
  {
    match |name|
    case 2 =>
      if name == "Ok" then Some(1) else None
    case 14 =>
      if name == "InvalidRequest" then Some(2) else None
    case 17 =>
      if name[0] == 'I' then
        if name == "InvalidLogContext" then Some(3) else None
      else if name[0] == 'D' then
        if name == "Datastore_Unknown" then Some(24) else None
      else None
    case 19 =>
      if name[0] == 'S' then
        if name == "ScriptEngine_NoCode" then Some(6) else None
      else if name[0] == 'V' then
        if name == "Validator_Forbidden" then Some(46) else None
      else if name[0] == 'I' then
        if name == "Innerspace_Shutdown" then Some(54) else None
      else None
    case 21 =>
      if name == "WarpSpace_WarpDeleted" then Some(61) else None
    case 22 =>
      if name[10] == 'n' then
        if name == "ScriptEngine_BadFileId" then Some(7) else None
      else if name[10] == 'T' then
        if name == "Datastore_TypeMismatch" then Some(20) else None
      else if name[10] == 'U' then
        if name == "Datastore_UnableToOpen" then Some(35) else None
      else if name[10] == '_' then
        if name == "Innerspace_NoEndpoints" then Some(56) else None
      else None
    case 23 =>
      if name == "Datastore_ObjectDeleted" then Some(21) else None
    case 24 =>
      if name[10] == 'U' then
        if name == "Datastore_UnsavedChanges" then Some(19) else None
      else if name[10] == 'O' then
        if name == "Datastore_ObjectNotFound" then Some(23) else None
      else if name[10] == 'I' then
        if name == "Validator_InvalidRequest" then Some(49) else None
      else None
    case 25 =>
      if name == "Datastore_DuplicateObject" then Some(26) else None
    case 26 =>
      if name[11] == 'e' then
        if name == "ScriptEngine_ClassNotFound" then Some(4) else None
      else if name[11] == 'C' then
        if name == "Innerspace_ConnectionFault" then Some(52) else None
      else if name[11] == 'R' then
        if name == "Innerspace_RequestTooLarge" then Some(53) else None
      else None
    case 27 =>
      if name[10] == 'n' then
        if name == "ScriptEngine_MethodNotFound" then Some(5) else None
      else if name[10] == 'M' then
        if name == "Datastore_MustGetLatestWarp" then Some(31) else None
      else if name[10] == 'W' then
        if name == "Datastore_WarpIndexNotFound" then Some(33) else None
      else if name[10] == 'D' then
        if name[18] == 'l' then
          if name == "Datastore_DeletedFlagExists" then Some(38) else None
        else if name[18] == 'i' then
          if name == "Datastore_DeletedFileExists" then Some(39) else None
        else None
      else if name[10] == 'C' then
        if name == "Validator_ClientMustUpgrade" then Some(44) else None
      else if name[10] == 'I' then
        if name == "Validator_InvalidFlatbuffer" then Some(45) else None
      else None
    case 28 =>
      if name[23] == 'E' then
        if name == "Datastore_UnknownSystemError" then Some(37) else None
      else if name[23] == 'L' then
        if name == "Validator_PrimaryKeyTooLarge" then Some(47) else None
      else if name[23] == 'S' then
        if name == "Validator_PrimaryKeyTooSmall" then Some(48) else None
      else None
    case 29 =>
      if name == "Datastore_MustGetLatestObject" then Some(25) else None
    case 30 =>
      if name[10] == 'n' then
        if name == "ScriptEngine_UnableToGetMethod" then Some(11) else None
      else if name[10] == 'E' then
        if name == "Datastore_EngineSourceNotFound" then Some(34) else None
      else if name[10] == 'W' then
        if name == "Datastore_WarpVersionCorrupted" then Some(40) else None
      else None
    case 31 =>
      if name[10] == 'n' then
        if name == "ScriptEngine_UnableToCallMethod" then Some(13) else None
      else if name[10] == 'W' then
        if name == "Datastore_WriteConflictTryAgain" then Some(22) else None
      else if name[10] == 'E' then
        if name == "Datastore_EngineSourceCorrupted" then Some(32) else None
      else if name[10] == 'a' then
        if name == "Launcher_FailedToSpawnWarpSpace" then Some(59) else None
      else None
    case 32 =>
      if name == "ScriptEngine_DuplicateModuleName" then Some(15) else None
    case 33 =>
      if name[10] == 'n' then
        if name == "ScriptEngine_UnsupportedValueType" then Some(16) else None
      else if name[10] == 'C' then
        if name == "Datastore_ClientHasVersionInvalid" then Some(29) else None
      else if name[10] == 'U' then
        if name == "Datastore_UnableToCreateDirectory" then Some(36) else None
      else None
    case 34 =>
      if name[0] == 'S' then
        if name == "ScriptEngine_UnableToSetArrayValue" then Some(17) else None
      else if name[0] == 'I' then
        if name == "Innerspace_UnableToResolveHostPort" then Some(55) else None
      else None
    case 35 =>
      if name == "ScriptEngine_UnableToSetObjectValue" then Some(18) else None
    case 38 =>
      if name == "Launcher_TimedOutWhileGettingWarpSpace" then Some(58) else None
    case 39 =>
      if name[0] == 'S' then
        if name == "ScriptEngine_UnknownFunctionCallFailure" then Some(14) else None
      else if name[0] == 'D' then
        if name == "Datastore_FailedToSetInitialWarpVersion" then Some(41) else None
      else None
    case 47 =>
      if name == "ScriptEngine_FailedToCompileModuleUnknownReason" then Some(8) else None
    case 48 =>
      if name == "ScriptEngine_FailedToEvaluateModuleUnknownReason" then Some(10) else None
    case 51 =>
      if name == "ScriptEngine_FailedToInstanciateModuleUnknownReason" then Some(9) else None
    case 54 =>
      if name == "ScriptEngine_UnableToGetMethodBecauseItWasNotAFunction" then Some(12) else None
    case _ => None
  }

  /** Each defined code's name leads back to that code. */
  lemma DefinedNameRoundTrip(code: int)
    requires IsDefined(code)
    ensures CodeOfName(GetCodeName(code)) == Some(code)
  {
    if code == 1 { RoundTripCode1(); }
    else if code == 2 { RoundTripCode2(); }
    else if code == 3 { RoundTripCode3(); }
    else if code == 4 { RoundTripCode4(); }
    else if code == 5 { RoundTripCode5(); }
    else if code == 6 { RoundTripCode6(); }
    else if code == 7 { RoundTripCode7(); }
    else if code == 8 { RoundTripCode8(); }
    else if code == 9 { RoundTripCode9(); }
    else if code == 10 { RoundTripCode10(); }
    else if code == 11 { RoundTripCode11(); }
    else if code == 12 { RoundTripCode12(); }
    else if code == 13 { RoundTripCode13(); }
    else if code == 14 { RoundTripCode14(); }
    else if code == 15 { RoundTripCode15(); }
    else if code == 16 { RoundTripCode16(); }
    else if code == 17 { RoundTripCode17(); }
    else if code == 18 { RoundTripCode18(); }
    else if code == 19 { RoundTripCode19(); }
    else if code == 20 { RoundTripCode20(); }
    else if code == 21 { RoundTripCode21(); }
    else if code == 22 { RoundTripCode22(); }
    else if code == 23 { RoundTripCode23(); }
    else if code == 24 { RoundTripCode24(); }
    else if code == 25 { RoundTripCode25(); }
    else if code == 26 { RoundTripCode26(); }
    else if code == 29 { RoundTripCode29(); }
    else if code == 31 { RoundTripCode31(); }
    else if code == 32 { RoundTripCode32(); }
    else if code == 33 { RoundTripCode33(); }
    else if code == 34 { RoundTripCode34(); }
    else if code == 35 { RoundTripCode35(); }
    else if code == 36 { RoundTripCode36(); }
    else if code == 37 { RoundTripCode37(); }
    else if code == 38 { RoundTripCode38(); }
    else if code == 39 { RoundTripCode39(); }
    else if code == 40 { RoundTripCode40(); }
    else if code == 41 { RoundTripCode41(); }
    else if code == 44 { RoundTripCode44(); }
    else if code == 45 { RoundTripCode45(); }
    else if code == 46 { RoundTripCode46(); }
    else if code == 47 { RoundTripCode47(); }
    else if code == 48 { RoundTripCode48(); }
    else if code == 49 { RoundTripCode49(); }
    else if code == 52 { RoundTripCode52(); }
    else if code == 53 { RoundTripCode53(); }
    else if code == 54 { RoundTripCode54(); }
    else if code == 55 { RoundTripCode55(); }
    else if code == 56 { RoundTripCode56(); }
    else if code == 58 { RoundTripCode58(); }
    else if code == 59 { RoundTripCode59(); }
    else { RoundTripCode61(); }
  }

  // One lemma per member: the name is spelled out first, so the inverse is
  // evaluated on a literal.

  lemma RoundTripCode1()
    ensures CodeOfName(GetCodeName(1)) == Some(1)
  {
    var name := "Ok";
    assert GetCodeName(1) == name;
  }

  lemma RoundTripCode2()
    ensures CodeOfName(GetCodeName(2)) == Some(2)
  {
    var name := "InvalidRequest";
    assert GetCodeName(2) == name;
  }

  lemma RoundTripCode3()
    ensures CodeOfName(GetCodeName(3)) == Some(3)
  {
    var name := "InvalidLogContext";
    assert GetCodeName(3) == name;
  }

  lemma RoundTripCode4()
    ensures CodeOfName(GetCodeName(4)) == Some(4)
  {
    var name := "ScriptEngine_ClassNotFound";
    assert GetCodeName(4) == name;
  }

  lemma RoundTripCode5()
    ensures CodeOfName(GetCodeName(5)) == Some(5)
  {
    var name := "ScriptEngine_MethodNotFound";
    assert GetCodeName(5) == name;
  }

  lemma RoundTripCode6()
    ensures CodeOfName(GetCodeName(6)) == Some(6)
  {
    var name := "ScriptEngine_NoCode";
    assert GetCodeName(6) == name;
  }

  lemma RoundTripCode7()
    ensures CodeOfName(GetCodeName(7)) == Some(7)
  {
    var name := "ScriptEngine_BadFileId";
    assert GetCodeName(7) == name;
  }

  lemma RoundTripCode8()
    ensures CodeOfName(GetCodeName(8)) == Some(8)
  {
    var name := "ScriptEngine_FailedToCompileModuleUnknownReason";
    assert GetCodeName(8) == name;
  }

  lemma RoundTripCode9()
    ensures CodeOfName(GetCodeName(9)) == Some(9)
  {
    var name := "ScriptEngine_FailedToInstanciateModuleUnknownReason";
    assert GetCodeName(9) == name;
  }

  lemma RoundTripCode10()
    ensures CodeOfName(GetCodeName(10)) == Some(10)
  {
    var name := "ScriptEngine_FailedToEvaluateModuleUnknownReason";
    assert GetCodeName(10) == name;
  }

  lemma RoundTripCode11()
    ensures CodeOfName(GetCodeName(11)) == Some(11)
  {
    var name := "ScriptEngine_UnableToGetMethod";
    assert GetCodeName(11) == name;
  }

  lemma RoundTripCode12()
    ensures CodeOfName(GetCodeName(12)) == Some(12)
  {
    var name := "ScriptEngine_UnableToGetMethodBecauseItWasNotAFunction";
    assert GetCodeName(12) == name;
  }

  lemma RoundTripCode13()
    ensures CodeOfName(GetCodeName(13)) == Some(13)
  {
    var name := "ScriptEngine_UnableToCallMethod";
    assert GetCodeName(13) == name;
  }

  lemma RoundTripCode14()
    ensures CodeOfName(GetCodeName(14)) == Some(14)
  {
    var name := "ScriptEngine_UnknownFunctionCallFailure";
    assert GetCodeName(14) == name;
  }

  lemma RoundTripCode15()
    ensures CodeOfName(GetCodeName(15)) == Some(15)
  {
    var name := "ScriptEngine_DuplicateModuleName";
    assert GetCodeName(15) == name;
  }

  lemma RoundTripCode16()
    ensures CodeOfName(GetCodeName(16)) == Some(16)
  {
    var name := "ScriptEngine_UnsupportedValueType";
    assert GetCodeName(16) == name;
  }

  lemma RoundTripCode17()
    ensures CodeOfName(GetCodeName(17)) == Some(17)
  {
    var name := "ScriptEngine_UnableToSetArrayValue";
    assert GetCodeName(17) == name;
  }

  lemma RoundTripCode18()
    ensures CodeOfName(GetCodeName(18)) == Some(18)
  {
    var name := "ScriptEngine_UnableToSetObjectValue";
    assert GetCodeName(18) == name;
  }

  lemma RoundTripCode19()
    ensures CodeOfName(GetCodeName(19)) == Some(19)
  {
    var name := "Datastore_UnsavedChanges";
    assert GetCodeName(19) == name;
  }

  lemma RoundTripCode20()
    ensures CodeOfName(GetCodeName(20)) == Some(20)
  {
    var name := "Datastore_TypeMismatch";
    assert GetCodeName(20) == name;
  }

  lemma RoundTripCode21()
    ensures CodeOfName(GetCodeName(21)) == Some(21)
  {
    var name := "Datastore_ObjectDeleted";
    assert GetCodeName(21) == name;
  }

  lemma RoundTripCode22()
    ensures CodeOfName(GetCodeName(22)) == Some(22)
  {
    var name := "Datastore_WriteConflictTryAgain";
    assert GetCodeName(22) == name;
  }

  lemma RoundTripCode23()
    ensures CodeOfName(GetCodeName(23)) == Some(23)
  {
    var name := "Datastore_ObjectNotFound";
    assert GetCodeName(23) == name;
  }

  lemma RoundTripCode24()
    ensures CodeOfName(GetCodeName(24)) == Some(24)
  {
    var name := "Datastore_Unknown";
    assert GetCodeName(24) == name;
  }

  lemma RoundTripCode25()
    ensures CodeOfName(GetCodeName(25)) == Some(25)
  {
    var name := "Datastore_MustGetLatestObject";
    assert GetCodeName(25) == name;
  }

  lemma RoundTripCode26()
    ensures CodeOfName(GetCodeName(26)) == Some(26)
  {
    var name := "Datastore_DuplicateObject";
    assert GetCodeName(26) == name;
  }

  lemma RoundTripCode29()
    ensures CodeOfName(GetCodeName(29)) == Some(29)
  {
    var name := "Datastore_ClientHasVersionInvalid";
    assert GetCodeName(29) == name;
  }

  lemma RoundTripCode31()
    ensures CodeOfName(GetCodeName(31)) == Some(31)
  {
    var name := "Datastore_MustGetLatestWarp";
    assert GetCodeName(31) == name;
  }

  lemma RoundTripCode32()
    ensures CodeOfName(GetCodeName(32)) == Some(32)
  {
    var name := "Datastore_EngineSourceCorrupted";
    assert GetCodeName(32) == name;
  }

  lemma RoundTripCode33()
    ensures CodeOfName(GetCodeName(33)) == Some(33)
  {
    var name := "Datastore_WarpIndexNotFound";
    assert GetCodeName(33) == name;
  }

  lemma RoundTripCode34()
    ensures CodeOfName(GetCodeName(34)) == Some(34)
  {
    var name := "Datastore_EngineSourceNotFound";
    assert GetCodeName(34) == name;
  }

  lemma RoundTripCode35()
    ensures CodeOfName(GetCodeName(35)) == Some(35)
  {
    var name := "Datastore_UnableToOpen";
    assert GetCodeName(35) == name;
  }

  lemma RoundTripCode36()
    ensures CodeOfName(GetCodeName(36)) == Some(36)
  {
    var name := "Datastore_UnableToCreateDirectory";
    assert GetCodeName(36) == name;
  }

  lemma RoundTripCode37()
    ensures CodeOfName(GetCodeName(37)) == Some(37)
  {
    var name := "Datastore_UnknownSystemError";
    assert GetCodeName(37) == name;
  }

  lemma RoundTripCode38()
    ensures CodeOfName(GetCodeName(38)) == Some(38)
  {
    var name := "Datastore_DeletedFlagExists";
    assert GetCodeName(38) == name;
  }

  lemma RoundTripCode39()
    ensures CodeOfName(GetCodeName(39)) == Some(39)
  {
    var name := "Datastore_DeletedFileExists";
    assert GetCodeName(39) == name;
  }

  lemma RoundTripCode40()
    ensures CodeOfName(GetCodeName(40)) == Some(40)
  {
    var name := "Datastore_WarpVersionCorrupted";
    assert GetCodeName(40) == name;
  }

  lemma RoundTripCode41()
    ensures CodeOfName(GetCodeName(41)) == Some(41)
  {
    var name := "Datastore_FailedToSetInitialWarpVersion";
    assert GetCodeName(41) == name;
  }

  lemma RoundTripCode44()
    ensures CodeOfName(GetCodeName(44)) == Some(44)
  {
    var name := "Validator_ClientMustUpgrade";
    assert GetCodeName(44) == name;
  }

  lemma RoundTripCode45()
    ensures CodeOfName(GetCodeName(45)) == Some(45)
  {
    var name := "Validator_InvalidFlatbuffer";
    assert GetCodeName(45) == name;
  }

  lemma RoundTripCode46()
    ensures CodeOfName(GetCodeName(46)) == Some(46)
  {
    var name := "Validator_Forbidden";
    assert GetCodeName(46) == name;
  }

  lemma RoundTripCode47()
    ensures CodeOfName(GetCodeName(47)) == Some(47)
  {
    var name := "Validator_PrimaryKeyTooLarge";
    assert GetCodeName(47) == name;
  }

  lemma RoundTripCode48()
    ensures CodeOfName(GetCodeName(48)) == Some(48)
  {
    var name := "Validator_PrimaryKeyTooSmall";
    assert GetCodeName(48) == name;
  }

  lemma RoundTripCode49()
    ensures CodeOfName(GetCodeName(49)) == Some(49)
  {
    var name := "Validator_InvalidRequest";
    assert GetCodeName(49) == name;
  }

  lemma RoundTripCode52()
    ensures CodeOfName(GetCodeName(52)) == Some(52)
  {
    var name := "Innerspace_ConnectionFault";
    assert GetCodeName(52) == name;
  }

  lemma RoundTripCode53()
    ensures CodeOfName(GetCodeName(53)) == Some(53)
  {
    var name := "Innerspace_RequestTooLarge";
    assert GetCodeName(53) == name;
  }

  lemma RoundTripCode54()
    ensures CodeOfName(GetCodeName(54)) == Some(54)
  {
    var name := "Innerspace_Shutdown";
    assert GetCodeName(54) == name;
  }

  lemma RoundTripCode55()
    ensures CodeOfName(GetCodeName(55)) == Some(55)
  {
    var name := "Innerspace_UnableToResolveHostPort";
    assert GetCodeName(55) == name;
  }

  lemma RoundTripCode56()
    ensures CodeOfName(GetCodeName(56)) == Some(56)
  {
    var name := "Innerspace_NoEndpoints";
    assert GetCodeName(56) == name;
  }

  lemma RoundTripCode58()
    ensures CodeOfName(GetCodeName(58)) == Some(58)
  {
    var name := "Launcher_TimedOutWhileGettingWarpSpace";
    assert GetCodeName(58) == name;
  }

  lemma RoundTripCode59()
    ensures CodeOfName(GetCodeName(59)) == Some(59)
  {
    var name := "Launcher_FailedToSpawnWarpSpace";
    assert GetCodeName(59) == name;
  }

  lemma RoundTripCode61()
    ensures CodeOfName(GetCodeName(61)) == Some(61)
  {
    var name := "WarpSpace_WarpDeleted";
    assert GetCodeName(61) == name;
  }

  /** Every code has a non-empty name, so a platform error can always be built from it. */
  lemma CodeNameNonEmpty(code: int)
    ensures |GetCodeName(code)| > 0
  {
    if IsDefined(code) {
      DefinedNameRoundTrip(code);
    }
  }

  /** Distinct defined codes have distinct names: the mapping is injective on the enumeration. */
  lemma DefinedNamesDistinct(a: int, b: int)
    requires IsDefined(a) && IsDefined(b) && a != b
    ensures GetCodeName(a) != GetCodeName(b)
  {
    DefinedNameRoundTrip(a);
    DefinedNameRoundTrip(b);
  }

  /** Numbers outside the enumeration get pairwise distinct `InternalError(<code>)` names. */
  lemma UndefinedNamesDistinct(a: int, b: int)
    requires !IsDefined(a) && !IsDefined(b) && a != b
    ensures GetCodeName(a) != GetCodeName(b)
  {
    var na, nb := GetCodeName(a), GetCodeName(b);
    if na == nb {
      var ta, tb := Unsigned.IntText(a), Unsigned.IntText(b);
      assert na == "InternalError(" + ta + ")";
      assert nb == "InternalError(" + tb + ")";
      assert ta == na[14..|na| - 1];
      assert tb == nb[14..|nb| - 1];
      Unsigned.IntTextInjective(a, b);
    }
  }
}
