/**
 * The input validators of the command-line tools: warp names, passwords
 * and e-mail addresses.
 */
module Validators {
  import opened ToolText

  /** The characters of the class `[A-Za-z0-9\-_]`. */
  predicate NameChar(c: char)
  {
    'A' <= c <= 'Z' || 'a' <= c <= 'z' || '0' <= c <= '9' || c == '-' || c == '_'
  }

  /** Whether every character may appear in a warp name, scanning from the left. */
  function AllNameChars(s: string): (r: bool)
    ensures r <==> forall i :: 0 <= i < |s| ==> NameChar(s[i])
  {
    |s| == 0 || (NameChar(s[0]) && AllNameChars(s[1..]))
  }

  /**
   * warpNameValidatorAsync: the string form of the input is 3 to 50
   * characters, each a letter, a digit, '-' or '_'.
   */
  function WarpNameValid(input: Json): (r: bool)
    ensures r <==> 3 <= |Text(input)| <= 50
                   && forall i :: 0 <= i < |Text(input)| ==> NameChar(Text(input)[i])
  {
    var s := Text(input);
    3 <= |s| <= 50 && AllNameChars(s)
  }

  /** validateWarpNameOrErrorAsync: the validator's verdict on the name, unchanged. */
  function ValidateWarpNameOrError(warpName: string): (r: bool)
    ensures r <==> 3 <= |warpName| <= 50
                   && forall i :: 0 <= i < |warpName| ==> NameChar(warpName[i])
  {
    WarpNameValid(JStr(warpName))
  }

  /**
   * passwordValidatorAsync: a falsy or non-string input fails, otherwise at
   * least 8 UTF-16 code units, so four characters above U+FFFF suffice.
   */
  function PasswordValid(input: Json): (r: bool)
    ensures r <==> input.JStr? && Utf16Length(input.s) >= 8
    ensures input.JStr? && |input.s| >= 8 ==> r
  {
    if !Truthy(input) then false
    else if !input.JStr? then false
    else Utf16Length(input.s) >= 8
  }

  /**
   * emailValidatorAsync: the address pattern, given as `matches`, applied
   * to the lower-cased string form of the input.
   */
  function EmailValid(matches: string -> bool, input: Json): bool
  {
    matches(Lower(Text(input)))
  }

  /** The e-mail check does not depend on the case of ASCII letters. */
  lemma EmailIgnoresCase(matches: string -> bool, address: string)
    ensures EmailValid(matches, JStr(address)) == EmailValid(matches, JStr(Lower(address)))
  {
    LowerIdempotent(address);
  }

  /** Two addresses that differ only in letter case get the same verdict. */
  lemma EmailSameVerdict(matches: string -> bool, a: string, b: string)
    requires Lower(a) == Lower(b)
    ensures EmailValid(matches, JStr(a)) == EmailValid(matches, JStr(b))
  {
  }
}
