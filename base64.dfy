/**
 * Base64 text with the standard alphabet and '=' padding, the form in
 * which the warp configuration file stores the warp identity.
 */
module Base64 {
  import opened Wrappers

  type Byte = b: int | 0 <= b < 256

  /** The character for a 6-bit value: 'A'-'Z', 'a'-'z', '0'-'9', '+', '/'. */
  function Sym(v: int): (c: char)
    requires 0 <= v < 64
    ensures c != '='
  {
    if v < 26 then ('A' as int + v) as char
    else if v < 52 then ('a' as int + (v - 26)) as char
    else if v < 62 then ('0' as int + (v - 52)) as char
    else if v == 62 then '+'
    else '/'
  }

  predicate IsSym(c: char)
  {
    'A' <= c <= 'Z' || 'a' <= c <= 'z' || '0' <= c <= '9' || c == '+' || c == '/'
  }

  /** The 6-bit value of an alphabet character. */
  function Val(c: char): (v: int)
    requires IsSym(c)
    ensures 0 <= v < 64
  {
    if 'A' <= c <= 'Z' then c as int - 'A' as int
    else if 'a' <= c <= 'z' then c as int - 'a' as int + 26
    else if '0' <= c <= '9' then c as int - '0' as int + 52
    else if c == '+' then 62
    else 63
  }

  lemma SymVal(v: int)
    requires 0 <= v < 64
    ensures IsSym(Sym(v)) && Val(Sym(v)) == v
  {
  }

  /** Three bytes as four characters. */
  function Quad(a: Byte, b: Byte, c: Byte): string
  {
    [Sym(a / 4), Sym(a % 4 * 16 + b / 16), Sym(b % 16 * 4 + c / 64), Sym(c % 64)]
  }

  /** `Buffer.toString("base64")`. */
  function Encode(bytes: seq<Byte>): (s: string)
    ensures |s| == (|bytes| + 2) / 3 * 4
  {
    if |bytes| == 0 then ""
    else if |bytes| == 1 then [Sym(bytes[0] / 4), Sym(bytes[0] % 4 * 16)] + "=="
    else if |bytes| == 2 then
      [Sym(bytes[0] / 4), Sym(bytes[0] % 4 * 16 + bytes[1] / 16), Sym(bytes[1] % 16 * 4)] + "="
    else Quad(bytes[0], bytes[1], bytes[2]) + Encode(bytes[3..])
  }

  /** Four alphabet characters back to three bytes. */
  function Unquad(q: string): Option<seq<Byte>>
    requires |q| == 4
  {
    if IsSym(q[0]) && IsSym(q[1]) && IsSym(q[2]) && IsSym(q[3]) then
      var v0, v1, v2, v3 := Val(q[0]), Val(q[1]), Val(q[2]), Val(q[3]);
      Some([v0 * 4 + v1 / 16, v1 % 16 * 16 + v2 / 4, v2 % 4 * 64 + v3])
    else None
  }

  /** The final group, which may carry one or two padding characters. */
  function UnquadLast(q: string): Option<seq<Byte>>
    requires |q| == 4
  {
    if q[2] == '=' && q[3] == '=' then
      if IsSym(q[0]) && IsSym(q[1]) then Some([Val(q[0]) * 4 + Val(q[1]) / 16]) else None
    else if q[3] == '=' then
      if IsSym(q[0]) && IsSym(q[1]) && IsSym(q[2]) then
        var v0, v1, v2 := Val(q[0]), Val(q[1]), Val(q[2]);
        Some([v0 * 4 + v1 / 16, v1 % 16 * 16 + v2 / 4])
      else None
    else Unquad(q)
  }

  /**
   * `Buffer.from(s, "base64")` on canonical text; any other text is
   * refused.
   */
  function Decode(s: string): Option<seq<Byte>>
    decreases |s|
  {
    if |s| == 0 then Some([])
    else if |s| % 4 != 0 then None
    else if |s| == 4 then UnquadLast(s)
    else Prepend(Unquad(s[..4]), Decode(s[4..]))
  }

  /** The bytes of a group followed by the bytes of the rest, when both decode. */
  function Prepend(head: Option<seq<Byte>>, tail: Option<seq<Byte>>): Option<seq<Byte>>
  {
    if head.Some? && tail.Some? then Some(head.value + tail.value) else None
  }

  lemma Split16(hi: int, lo: int)
    requires 0 <= lo < 16
    ensures (hi * 16 + lo) / 16 == hi && (hi * 16 + lo) % 16 == lo
  {
  }

  lemma Split4(hi: int, lo: int)
    requires 0 <= lo < 4
    ensures (hi * 4 + lo) / 4 == hi && (hi * 4 + lo) % 4 == lo
  {
  }

  lemma QuadRoundTrip(a: Byte, b: Byte, c: Byte)
    ensures Unquad(Quad(a, b, c)) == Some([a, b, c])
  {
    var v0, v1, v2, v3 := a / 4, a % 4 * 16 + b / 16, b % 16 * 4 + c / 64, c % 64;
    SymVal(v0);
    SymVal(v1);
    SymVal(v2);
    SymVal(v3);
    Split16(a % 4, b / 16);
    Split4(b % 16, c / 64);
    assert v0 * 4 + v1 / 16 == a;
    assert v1 % 16 * 16 + v2 / 4 == b;
    assert v2 % 4 * 64 + v3 == c;
  }

  lemma PairRoundTrip(a: Byte, b: Byte)
    ensures UnquadLast([Sym(a / 4), Sym(a % 4 * 16 + b / 16), Sym(b % 16 * 4)] + "=")
      == Some([a, b])
  {
    var v0, v1, v2 := a / 4, a % 4 * 16 + b / 16, b % 16 * 4;
    SymVal(v0);
    SymVal(v1);
    SymVal(v2);
    Split16(a % 4, b / 16);
    Split4(b % 16, 0);
    assert v0 * 4 + v1 / 16 == a;
    assert v1 % 16 * 16 + v2 / 4 == b;
  }

  lemma SingleRoundTrip(a: Byte)
    ensures UnquadLast([Sym(a / 4), Sym(a % 4 * 16)] + "==") == Some([a])
  {
    SymVal(a / 4);
    SymVal(a % 4 * 16);
    Split16(a % 4, 0);
  }

  /** A text of at least one full group decodes as its first group followed by the rest. */
  lemma DecodeGroups(q: string, rest: string)
    requires |q| == 4 && |rest| > 0 && |rest| % 4 == 0
    ensures Decode(q + rest) == Prepend(Unquad(q), Decode(rest))
  {
    var t := q + rest;
    assert |t| == |rest| + 4;
    assert |t| % 4 == 0 && |t| != 4;
    assert t[..4] == q && t[4..] == rest;
  }

  /** Decoding the encoding of any bytes gives those bytes back. */
  lemma {:induction false} DecodeEncode(bytes: seq<Byte>)
    ensures Decode(Encode(bytes)) == Some(bytes)
  {
    if |bytes| == 1 {
      SingleRoundTrip(bytes[0]);
      assert bytes == [bytes[0]];
    } else if |bytes| == 2 {
      PairRoundTrip(bytes[0], bytes[1]);
      assert bytes == [bytes[0], bytes[1]];
    } else if |bytes| == 3 {
      LastGroupRoundTrip(bytes);
    } else if |bytes| > 3 {
      DecodeEncode(bytes[3..]);
      GroupThenRest(bytes);
    }
  }

  /** Three bytes encode to one unpadded group, which decodes back. */
  lemma LastGroupRoundTrip(bytes: seq<Byte>)
    requires |bytes| == 3
    ensures Decode(Encode(bytes)) == Some(bytes)
  {
    var q := Quad(bytes[0], bytes[1], bytes[2]);
    QuadRoundTrip(bytes[0], bytes[1], bytes[2]);
    assert Encode(bytes[3..]) == "";
    assert Encode(bytes) == q + "";
    assert q + "" == q;
    assert q[2] != '=' && q[3] != '=';
    assert UnquadLast(q) == Unquad(q);
    assert bytes == [bytes[0], bytes[1], bytes[2]];
  }

  /** More than three bytes: the first group decodes back, followed by the rest. */
  lemma GroupThenRest(bytes: seq<Byte>)
    requires |bytes| > 3
    requires Decode(Encode(bytes[3..])) == Some(bytes[3..])
    ensures Decode(Encode(bytes)) == Some(bytes)
  {
    var q, rest := Quad(bytes[0], bytes[1], bytes[2]), Encode(bytes[3..]);
    var k := (|bytes| - 1) / 3;
    assert |rest| == k * 4 && k >= 1;
    assert Encode(bytes) == q + rest;
    QuadRoundTrip(bytes[0], bytes[1], bytes[2]);
    DecodeGroups(q, rest);
    FirstThree(bytes);
  }

  lemma FirstThree(bytes: seq<Byte>)
    requires |bytes| >= 3
    ensures [bytes[0], bytes[1], bytes[2]] + bytes[3..] == bytes
  {
  }
}
