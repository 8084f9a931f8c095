/**
 * The text JSON.stringify produces for a string value: the characters wrapped in
 * double quotes, with '"', '\' and the control characters below U+0020 escaped.
 * The state tracker uses it to normalise query keys; its injectivity is what makes
 * two different query keys land in two different histories.
 */
module JsonString {

  /** Lower-case hexadecimal digit, as used in a \u00XX escape. */
  function HexDigit(n: nat): (c: char)
    requires n < 16
    ensures ('0' <= c <= '9') || ('a' <= c <= 'f')
    ensures n < 10 <==> c <= '9'
  {
    if n < 10 then (48 + n) as char else (87 + n) as char
  }

  lemma HexDigitInjective(m: nat, n: nat)
    requires m < 16 && n < 16
    requires HexDigit(m) == HexDigit(n)
    ensures m == n
  {
    assert HexDigit(m) as int == HexDigit(n) as int;
  }

  /** True for the characters JSON.stringify writes with a backslash escape. */
  predicate IsEscaped(c: char) {
    c == '"' || c == '\\' || c < ' '
  }

  /** The text one character of a string contributes to its JSON form. */
  function EscapeChar(c: char): (r: string)
    ensures 1 <= |r| <= 6
    ensures r[0] == '\\' <==> IsEscaped(c)
    ensures !IsEscaped(c) ==> r == [c]
  {
    var n := c as int;
    if n == 0x22 then ['\\', '"']
    else if n == 0x5C then ['\\', '\\']
    else if n == 0x08 then ['\\', 'b']
    else if n == 0x09 then ['\\', 't']
    else if n == 0x0A then ['\\', 'n']
    else if n == 0x0C then ['\\', 'f']
    else if n == 0x0D then ['\\', 'r']
    else if n < 0x20 then ['\\', 'u', '0', '0', HexDigit(n / 16), HexDigit(n % 16)]
    else [c]
  }

  /** The escaped body of a JSON string literal: text needing no escape is kept as it is. */
  function Escape(s: string): (r: string)
    ensures |s| <= |r| <= 6 * |s|
    ensures (forall i :: 0 <= i < |s| ==> !IsEscaped(s[i])) ==> r == s
  {
    if s == [] then [] else EscapeChar(s[0]) + Escape(s[1..])
  }

  /** JSON.stringify of a string: the escaped text between double quotes. */
  function Quote(s: string): (r: string)
    ensures |r| >= 2 && r[0] == '"' && r[|r| - 1] == '"'
  {
    ['"'] + Escape(s) + ['"']
  }

  /** No character's escape is a proper prefix of another's, so the first escape is decodable. */
  lemma EscapeCharPrefixFree(a: char, b: char, s: string, t: string)
    requires EscapeChar(a) + s == EscapeChar(b) + t
    ensures a == b && s == t
  {
    var ra, rb := EscapeChar(a), EscapeChar(b);
    assert (ra + s)[0] == ra[0] && (rb + t)[0] == rb[0];
    if !IsEscaped(a) {
      assert ra[0] == a;
      assert !IsEscaped(b);
    } else {
      assert IsEscaped(b);
      assert |ra| >= 2 && |rb| >= 2;
      assert (ra + s)[1] == ra[1] && (rb + t)[1] == rb[1];
      var m, n := a as int, b as int;
      if ra[1] == 'u' {
        assert |ra| == 6 && |rb| == 6;
        assert (ra + s)[4] == ra[4] && (rb + t)[4] == rb[4];
        assert (ra + s)[5] == ra[5] && (rb + t)[5] == rb[5];
        HexDigitInjective(m / 16, n / 16);
        HexDigitInjective(m % 16, n % 16);
        assert m == n;
      } else {
        assert m == n;
      }
    }
    assert |ra| == |rb|;
    assert s == (ra + s)[|ra|..];
    assert t == (rb + t)[|rb|..];
  }

  lemma {:induction false} EscapeInjective(a: string, b: string)
    requires Escape(a) == Escape(b)
    ensures a == b
  {
    if a != [] && b != [] {
      EscapeCharPrefixFree(a[0], b[0], Escape(a[1..]), Escape(b[1..]));
      EscapeInjective(a[1..], b[1..]);
      assert a == [a[0]] + a[1..] && b == [b[0]] + b[1..];
    }
  }

  /** Distinct strings have distinct JSON texts. */
  lemma QuoteInjective(a: string, b: string)
    requires Quote(a) == Quote(b)
    ensures a == b
  {
    var qa, qb := Quote(a), Quote(b);
    assert Escape(a) == qa[1..|qa| - 1];
    assert Escape(b) == qb[1..|qb| - 1];
    EscapeInjective(a, b);
  }
}
