/**
 * Unsigned 64-bit identifiers (warp ids, warp versions, object versions) and
 * their conversion to and from the wire's `Long`, a pair of signed 32-bit
 * halves.
 */
module Unsigned {
  import opened Wrappers

  const TwoTo31: nat := 0x8000_0000
  const TwoTo32: nat := 0x1_0000_0000
  const TwoTo64: nat := 0x1_0000_0000_0000_0000

  /** An arbitrary-precision value that is never negative. */
  datatype Unsigned = Unsigned(value: nat)

  const Zero := Unsigned(0)
  const One := Unsigned(1)

  /** The wire's 64-bit integer: two halves, each a signed 32-bit number. */
  datatype Long = Long(low: int, high: int)

  predicate IsInt32(x: int) { -(TwoTo31 as int) <= x < TwoTo31 }

  predicate ValidLong(l: Long) { IsInt32(l.low) && IsInt32(l.high) }

  /** `x | 0` for a number in [0, 2^32): the same 32 bits read as a signed number. */
  function AsInt32(x: nat): (r: int)
    requires x < TwoTo32
    ensures IsInt32(r) && (r < 0 <==> x >= TwoTo31)
    ensures r % TwoTo32 == x
  {
    if x < TwoTo31 then x else x - TwoTo32
  }

  /** A signed 32-bit half read back as unsigned: `h < 0 ? h + UINT_MAX + 1 : h`. */
  function AsUint32(h: int): (r: nat)
    requires IsInt32(h)
    ensures r < TwoTo32 && r % TwoTo32 == h % TwoTo32
  {
    if h < 0 then h + TwoTo32 else h
  }

  /** The constructor over a big integer: a negative value is refused. */
  function FromBigInt(v: int): (r: Result<Unsigned>)
    ensures r.Ok? <==> v >= 0
    ensures r.Ok? ==> r.value.value == v
    ensures r.Err? ==> r.error == InvalidNegativeValue
  {
    if v < 0 then Err(InvalidNegativeValue) else Ok(Unsigned(v))
  }

  function Equals(a: Unsigned, b: Unsigned): bool { a.value == b.value }

  /**
   * toLong: the high half is bits 32..63 (`(v & 0xFFFFFFFF00000000) >> 32`),
   * the low half bits 0..31 (`v & 0xFFFFFFFF`); bits above 63 are dropped,
   * and each half is stored as a signed 32-bit number.
   */
  function ToLong(u: Unsigned): (l: Long)
    ensures ValidLong(l)
    ensures AsUint32(l.low) == u.value % TwoTo32
    ensures AsUint32(l.high) == (u.value / TwoTo32) % TwoTo32
  {
    Long(AsInt32(u.value % TwoTo32), AsInt32((u.value / TwoTo32) % TwoTo32))
  }

  /**
   * fromLong: each negative half is shifted up by 2^32 and the value is
   * `high << 32 | low`, which is `high * 2^32 + low` because `low < 2^32`.
   */
  function FromLong(l: Long): (u: Unsigned)
    requires ValidLong(l)
    ensures u.value < TwoTo64
  {
    Unsigned(AsUint32(l.high) * TwoTo32 + AsUint32(l.low))
  }

  lemma SplitAt32(v: nat)
    ensures ((v / TwoTo32) % TwoTo32) * TwoTo32 + v % TwoTo32 == v % TwoTo64
  {
    var q := v / TwoTo32;
    var r := v % TwoTo32;
    assert v == q * TwoTo32 + r;
    var qh := q / TwoTo32;
    var ql := q % TwoTo32;
    assert q == qh * TwoTo32 + ql;
    assert v == qh * TwoTo64 + (ql * TwoTo32 + r);
    assert 0 <= ql * TwoTo32 + r < TwoTo64;
  }

  /** Any value survives toLong then fromLong modulo 2^64. */
  lemma ToLongTruncates(u: Unsigned)
    ensures FromLong(ToLong(u)).value == u.value % TwoTo64
  {
    SplitAt32(u.value);
  }

  /** The round trip of the unit test: every value below 2^64 survives toLong then fromLong. */
  lemma LongRoundTrip(u: Unsigned)
    requires u.value < TwoTo64
    ensures FromLong(ToLong(u)) == u
  {
    ToLongTruncates(u);
  }

  /** The other direction: a well-formed Long survives fromLong then toLong. */
  lemma UnsignedRoundTrip(l: Long)
    requires ValidLong(l)
    ensures ToLong(FromLong(l)) == l
  {
    var h, lo := AsUint32(l.high), AsUint32(l.low);
    var v := h * TwoTo32 + lo;
    assert v % TwoTo32 == lo;
    assert v / TwoTo32 == h;
  }

  // ---------------------------------------------------------------------
  // Decimal text: `toString()` and the string form of the constructor.

  predicate IsDigit(c: char) { '0' <= c <= '9' }

  predicate AllDigits(s: string) { forall i :: 0 <= i < |s| ==> IsDigit(s[i]) }

  function DigitChar(d: nat): (c: char)
    requires d < 10
    ensures IsDigit(c) && c as int - '0' as int == d
  {
    (d + '0' as int) as char
  }

  /** The decimal form of a natural number, most significant digit first, no leading zeros. */
  function Decimal(n: nat): (s: string)
    ensures |s| > 0 && AllDigits(s)
    ensures n < 10 <==> |s| == 1
  {
    if n < 10 then [DigitChar(n)] else Decimal(n / 10) + [DigitChar(n % 10)]
  }

  /** The value of a string of decimal digits. */
  function DigitsValue(s: string): nat
    requires AllDigits(s)
  {
    if s == [] then 0 else 10 * DigitsValue(s[..|s| - 1]) + (s[|s| - 1] as int - '0' as int)
  }

  lemma {:induction false} DecimalValue(n: nat)
    ensures DigitsValue(Decimal(n)) == n
  {
    var s := Decimal(n);
    if n >= 10 {
      assert s[..|s| - 1] == Decimal(n / 10);
      DecimalValue(n / 10);
    }
  }

  /** Two numbers have the same decimal text only if they are equal. */
  lemma DecimalInjective(a: nat, b: nat)
    requires Decimal(a) == Decimal(b)
    ensures a == b
  {
    DecimalValue(a);
    DecimalValue(b);
  }

  /** The decimal text of an integer, with a leading '-' when negative. */
  function IntText(x: int): (s: string)
    ensures |s| > 0
    ensures x < 0 <==> s[0] == '-'
  {
    if x < 0 then "-" + Decimal(-x) else Decimal(x)
  }

  lemma IntTextInjective(a: int, b: int)
    requires IntText(a) == IntText(b)
    ensures a == b
  {
    if a < 0 {
      assert IntText(a)[1..] == Decimal(-a);
      assert IntText(b)[1..] == Decimal(-b);
      DecimalInjective(-a, -b);
    } else {
      DecimalInjective(a, b);
    }
  }

  /** A digit's value in radixes up to 36: 0-9, then a/A = 10 onwards; anything else is 36. */
  function DigitVal(c: char): (d: nat)
    ensures d <= 36
    ensures IsDigit(c) ==> d == c as int - '0' as int
  {
    if IsDigit(c) then c as int - '0' as int
    else if 'a' <= c <= 'z' then c as int - 'a' as int + 10
    else if 'A' <= c <= 'Z' then c as int - 'A' as int + 10
    else 36
  }

  predicate InRadix(s: string, radix: nat) { forall i :: 0 <= i < |s| ==> DigitVal(s[i]) < radix }

  /** The value of a string of digits in `radix`, most significant first. */
  function RadixValue(s: string, radix: nat): nat
    requires InRadix(s, radix)
  {
    if s == [] then 0 else radix * RadixValue(s[..|s| - 1], radix) + DigitVal(s[|s| - 1])
  }

  /** The radix a `0x`, `0o` or `0b` prefix selects (either case), 0 for any other letter. */
  function PrefixRadix(c: char): (radix: nat)
    ensures radix in {0, 2, 8, 16}
  {
    if c == 'x' || c == 'X' then 16
    else if c == 'o' || c == 'O' then 8
    else if c == 'b' || c == 'B' then 2
    else 0
  }

  /** The white space and line terminators a numeric string may be surrounded by. */
  predicate IsJsSpace(c: char)
  {
    var n := c as int;
    n == 0x09 || n == 0x0A || n == 0x0B || n == 0x0C || n == 0x0D || n == 0x20 || n == 0xA0 ||
    n == 0x1680 || (0x2000 <= n <= 0x200A) || n == 0x2028 || n == 0x2029 || n == 0x202F ||
    n == 0x205F || n == 0x3000 || n == 0xFEFF
  }

  predicate AllSpace(s: string) { forall i :: 0 <= i < |s| ==> IsJsSpace(s[i]) }

  /** Neither end of `t` is white space. */
  predicate Trimmed(t: string) { t == [] || (!IsJsSpace(t[0]) && !IsJsSpace(t[|t| - 1])) }

  /** Leading white space dropped. */
  function TrimStart(s: string): (r: string)
    ensures |r| <= |s| && r == s[|s| - |r|..] && AllSpace(s[..|s| - |r|])
    ensures r == [] || !IsJsSpace(r[0])
  {
    if s != [] && IsJsSpace(s[0]) then TrimStart(s[1..]) else s
  }

  /** Trailing white space dropped. */
  function TrimEnd(s: string): (r: string)
    ensures |r| <= |s| && r == s[..|r|] && AllSpace(s[|r|..])
    ensures r == [] || !IsJsSpace(r[|r| - 1])
  {
    if s != [] && IsJsSpace(s[|s| - 1]) then TrimEnd(s[..|s| - 1]) else s
  }

  /** Surrounding white space dropped, as `StringToBigInt` does first. */
  function Trim(s: string): (r: string)
    ensures |r| <= |s| && Trimmed(r)
  {
    var a := TrimStart(s);
    var r := TrimEnd(a);
    assert r != [] ==> r[0] == a[0];
    r
  }

  /** A decimal integer: digits, with one optional leading sign. */
  predicate SignedDecimal(t: string)
  {
    (|t| > 0 && AllDigits(t)) || (|t| > 1 && (t[0] == '+' || t[0] == '-') && AllDigits(t[1..]))
  }

  /** A binary, octal or hexadecimal integer: `0`, the radix letter, one or more digits, and no sign. */
  predicate NonDecimal(t: string)
  {
    |t| > 2 && t[0] == '0' && PrefixRadix(t[1]) != 0 && InRadix(t[2..], PrefixRadix(t[1]))
  }

  /**
   * The integer literal a trimmed text spells: 0 when empty, a decimal
   * integer with an optional sign, or a binary, octal or hexadecimal
   * integer without one; anything else is a syntax error.
   */
  function ParseLiteral(t: string): (r: Result<int>)
    ensures r.Ok? <==> t == [] || SignedDecimal(t) || NonDecimal(t)
    ensures r.Err? ==> r.error == BigIntSyntax
    ensures r.Ok? && r.value < 0 ==> t != [] && t[0] == '-'
    ensures NonDecimal(t) ==> r == Ok(RadixValue(t[2..], PrefixRadix(t[1])))
    ensures t == [] ==> r == Ok(0)
    ensures |t| > 0 && AllDigits(t) ==> r == Ok(DigitsValue(t))
    ensures |t| > 1 && (t[0] == '+' || t[0] == '-') && AllDigits(t[1..]) ==>
      r == Ok(if t[0] == '-' then 0 - DigitsValue(t[1..]) as int else DigitsValue(t[1..]))
  {
    if t == [] then Ok(0)
    else if NonDecimal(t) then Ok(RadixValue(t[2..], PrefixRadix(t[1])))
    else if (t[0] == '-' || t[0] == '+') && |t| > 1 && AllDigits(t[1..]) then
      Ok(if t[0] == '-' then 0 - DigitsValue(t[1..]) as int else DigitsValue(t[1..]))
    else if AllDigits(t) then Ok(DigitsValue(t))
    else Err(BigIntSyntax)
  }

  /** `BigInt(text)`: the literal left once surrounding white space is trimmed. */
  function ParseBigInt(s: string): (r: Result<int>)
    ensures r.Ok? <==> (var t := Trim(s); t == [] || SignedDecimal(t) || NonDecimal(t))
    ensures r.Err? ==> r.error == BigIntSyntax
    ensures r.Ok? && r.value < 0 ==> Trim(s) != [] && Trim(s)[0] == '-'
    ensures r == ParseLiteral(Trim(s))
  {
    ParseLiteral(Trim(s))
  }

  /** Dropping leading white space from `a + u`, where `u` does not start with any, leaves `u`. */
  lemma {:induction false} TrimStartPadded(a: string, u: string)
    requires AllSpace(a) && (u == [] || !IsJsSpace(u[0]))
    ensures TrimStart(a + u) == u
  {
    if a != [] {
      assert (a + u)[1..] == a[1..] + u;
      TrimStartPadded(a[1..], u);
    } else {
      assert a + u == u;
    }
  }

  /** Dropping trailing white space from `u + b`, where `u` does not end with any, leaves `u`. */
  lemma {:induction false} TrimEndPadded(u: string, b: string)
    requires AllSpace(b) && (u == [] || !IsJsSpace(u[|u| - 1]))
    ensures TrimEnd(u + b) == u
  {
    if b != [] {
      assert (u + b)[..|u + b| - 1] == u + b[..|b| - 1];
      TrimEndPadded(u, b[..|b| - 1]);
    } else {
      assert u + b == u;
    }
  }

  /** Trimming takes exactly the white space around a text that has none at either end. */
  lemma TrimPadded(a: string, t: string, b: string)
    requires AllSpace(a) && AllSpace(b) && Trimmed(t)
    ensures Trim(a + t + b) == t
  {
    assert a + t + b == a + (t + b);
    if t == [] {
      assert a + t + b == (a + b) + [];
      assert AllSpace(a + b);
      TrimStartPadded(a + b, []);
    } else {
      assert (t + b)[0] == t[0];
      TrimStartPadded(a, t + b);
      TrimEndPadded(t, b);
    }
  }

  /** White space around a number does not change what it parses to. */
  lemma PaddedParse(a: string, t: string, b: string)
    requires AllSpace(a) && AllSpace(b) && Trimmed(t)
    ensures ParseBigInt(a + t + b) == ParseBigInt(t)
  {
    TrimPadded(a, t, b);
    TrimPadded([], t, []);
    assert [] + t + [] == t;
  }

  /** A text parses as itself when neither end is white space. */
  lemma ParseTrimmed(t: string)
    requires Trimmed(t)
    ensures Trim(t) == t
  {
    TrimPadded([], t, []);
    assert [] + t + [] == t;
  }

  /** `0x`, `0o` and `0b` texts parse to their digits' value. */
  lemma PrefixedParse(p: char, d: string)
    requires PrefixRadix(p) != 0 && |d| > 0 && InRadix(d, PrefixRadix(p))
    ensures ParseBigInt(['0', p] + d) == Ok(RadixValue(d, PrefixRadix(p)))
  {
    var t := ['0', p] + d;
    assert t[2..] == d && t[|t| - 1] == d[|d| - 1];
    assert NonDecimal(t);
    assert ParseLiteral(t) == Ok(RadixValue(d, PrefixRadix(p)));
    assert DigitVal(d[|d| - 1]) < PrefixRadix(p);
    ParseTrimmed(t);
  }

  /** A sign before a `0x`, `0o` or `0b` prefix is a syntax error. */
  lemma SignedPrefixRefused(t: string)
    requires |t| > 3 && (t[0] == '-' || t[0] == '+') && t[1] == '0'
    requires PrefixRadix(t[2]) != 0 && InRadix(t[3..], PrefixRadix(t[2]))
    ensures ParseBigInt(t).Err?
  {
    assert !IsDigit(t[1..][1]);
    assert ParseLiteral(t).Err?;
    assert DigitVal(t[3..][|t| - 4]) < PrefixRadix(t[2]);
    ParseTrimmed(t);
  }

  /** `new Unsigned(text)`: parse, then refuse a negative value. */
  function FromString(s: string): (r: Result<Unsigned>)
    ensures r.Ok? ==> ParseBigInt(s) == Ok(r.value.value)
    ensures r.Err? ==> (ParseBigInt(s).Err? || ParseBigInt(s).value < 0)
  {
    match ParseBigInt(s)
    case Err(e) => Err(e)
    case Ok(v) => FromBigInt(v)
  }

  function ToString(u: Unsigned): string { Decimal(u.value) }

  /** toString then the string constructor gives back the same value. */
  lemma StringRoundTrip(u: Unsigned)
    ensures FromString(ToString(u)) == Ok(u)
  {
    var s := ToString(u);
    DecimalValue(u.value);
    assert IsDigit(s[0]) && IsDigit(s[|s| - 1]);
    ParseTrimmed(s);
  }

  /** Equality of values and equality of their texts coincide. */
  lemma EqualsIffSameText(a: Unsigned, b: Unsigned)
    ensures Equals(a, b) <==> ToString(a) == ToString(b)
  {
    if ToString(a) == ToString(b) {
      DecimalInjective(a.value, b.value);
    }
  }
}
