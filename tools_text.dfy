/**
 * The values the command-line tools work on: parsed JSON documents, and
 * the JavaScript rules the tools rely on when they inspect them
 * (truthiness, own properties, string conversion, lower-casing,
 * whitespace, substring tests and path joining).
 */
module ToolText {
  import Unsigned

  /** A value produced by `JSON.parse`. JSON numbers are kept as integers. */
  datatype Json =
    | JNull
    | JBool(b: bool)
    | JNum(n: int)
    | JStr(s: string)
    | JArr(items: seq<Json>)
    | JObj(fields: map<string, Json>)

  /**
   * A string's `.length`: the number of UTF-16 code units, two for a
   * character above U+FFFF and one for any other.
   */
  function Utf16Length(s: string): (n: nat)
    ensures |s| <= n <= 2 * |s|
    ensures (forall i :: 0 <= i < |s| ==> s[i] as int <= 0xFFFF) ==> n == |s|
  {
    if s == [] then 0 else (if s[0] as int > 0xFFFF then 2 else 1) + Utf16Length(s[1..])
  }

  /** Lengths add up over concatenation. */
  lemma {:induction false} Utf16LengthAppend(a: string, b: string)
    ensures Utf16Length(a + b) == Utf16Length(a) + Utf16Length(b)
  {
    if a != [] {
      assert (a + b)[1..] == a[1..] + b;
      Utf16LengthAppend(a[1..], b);
    } else {
      assert a + b == b;
    }
  }

  /** JavaScript truthiness: null, false, 0 and "" are falsy; arrays and objects are truthy. */
  predicate Truthy(j: Json)
  {
    match j
    case JNull => false
    case JBool(b) => b
    case JNum(n) => n != 0
    case JStr(s) => s != ""
    case JArr(_) => true
    case JObj(_) => true
  }

  /**
   * `hasOwnProperty(key)` for the named keys the tools ask about. Those keys
   * are never "length" or an array index, so only objects own them.
   */
  predicate HasOwn(j: Json, key: string)
  {
    j.JObj? && key in j.fields
  }

  /** `String(j)`: the text JavaScript's string conversion produces. */
  function Text(j: Json): string
    decreases j
  {
    match j
    case JNull => "null"
    case JBool(b) => if b then "true" else "false"
    case JNum(n) => Unsigned.IntText(n)
    case JStr(s) => s
    case JArr(items) => Joined(items)
    case JObj(_) => "[object Object]"
  }

  /** `items.join(",")`, where a null element contributes the empty string. */
  function Joined(items: seq<Json>): string
    decreases items
  {
    if |items| == 0 then ""
    else
      (if items[0].JNull? then "" else Text(items[0]))
      + (if |items| == 1 then "" else "," + Joined(items[1..]))
  }

  /** `toLowerCase` on one character; only the ASCII letters are mapped. */
  function LowerChar(c: char): char
  {
    if 'A' <= c <= 'Z' then (c as int + 32) as char else c
  }

  function Lower(s: string): string
  {
    seq(|s|, i requires 0 <= i < |s| => LowerChar(s[i]))
  }

  /** Lower-casing twice changes nothing more than lower-casing once. */
  lemma LowerIdempotent(s: string)
    ensures Lower(Lower(s)) == Lower(s)
  {
    forall i | 0 <= i < |s|
      ensures Lower(Lower(s))[i] == Lower(s)[i]
    {
      assert Lower(s)[i] == LowerChar(s[i]);
    }
  }

  /** Lower-casing keeps the length and maps each character on its own. */
  lemma LowerAt(s: string, i: int)
    requires 0 <= i < |s|
    ensures |Lower(s)| == |s| && Lower(s)[i] == LowerChar(s[i])
  {
  }

  /** The characters the regular-expression class `\s` matches. */
  predicate JsSpace(c: char)
  {
    c == '\t' || c == '\n' || c == '\U{B}' || c == '\U{C}' || c == '\r' || c == ' '
    || c == '\U{A0}' || c == '\U{1680}' || ('\U{2000}' <= c <= '\U{200A}')
    || c == '\U{2028}' || c == '\U{2029}' || c == '\U{202F}' || c == '\U{205F}'
    || c == '\U{3000}' || c == '\U{FEFF}'
  }

  /** The characters after which `^` matches in a multi-line regular expression. */
  predicate LineTerminator(c: char)
  {
    c == '\n' || c == '\r' || c == '\U{2028}' || c == '\U{2029}'
  }

  /** `s.includes(part)`. */
  predicate Contains(s: string, part: string)
  {
    exists i :: 0 <= i <= |s| - |part| && OccursAt(s, part, i)
  }

  predicate OccursAt(s: string, part: string, i: int)
  {
    0 <= i <= |s| - |part| && s[i..i + |part|] == part
  }

  /** `s.endsWith(part)`. */
  predicate EndsWith(s: string, part: string)
  {
    |part| <= |s| && s[|s| - |part|..] == part
  }

  /** A string contains its own prefix. */
  lemma ContainsPrefix(s: string, part: string)
    requires |part| <= |s| && s[..|part|] == part
    ensures Contains(s, part)
  {
    assert OccursAt(s, part, 0);
  }

  /**
   * `path.join(dir, name)` for a plain relative name: the empty directory
   * contributes nothing and exactly one '/' separates the two.
   */
  function Join(dir: string, name: string): (p: string)
    ensures EndsWith(p, name)
  {
    if dir == "" then name
    else if dir[|dir| - 1] == '/' then dir + name
    else dir + "/" + name
  }
}
