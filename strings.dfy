/**
 * The few .NET string operations the core relies on: ordinal
 * `String.Contains(string)`, `long.ToString()` for epoch seconds, and
 * `Encoding.ASCII.GetBytes` for the signing secret.
 */
module Strings {

  newtype byte = x: int | 0 <= x < 256

  // ---------------------------------------------------------------------
  // String.Contains (ordinal)
  // ---------------------------------------------------------------------

  /** `sub` occurs in `s` starting at index `i`. */
  ghost predicate OccursAt(s: string, sub: string, i: int)
  {
    0 <= i && i + |sub| <= |s| && s[i..i + |sub|] == sub
  }

  /** Ordinal `s.Contains(sub)`: scans for `sub` as a prefix of each suffix of `s`. */
  function Contains(s: string, sub: string): (r: bool)
    ensures r <==> exists i :: OccursAt(s, sub, i)
    decreases |s|
  {
    if sub <= s then
      assert OccursAt(s, sub, 0);
      true
    else if s == [] then
      false
    else
      OccursShift(s, sub);
      Contains(s[1..], sub)
  }

  /** Occurrences in `s[1..]` are the occurrences in `s` after its first position. */
  lemma OccursShift(s: string, sub: string)
    requires s != [] && !(sub <= s)
    ensures (exists i :: OccursAt(s, sub, i)) <==> (exists i :: OccursAt(s[1..], sub, i))
  {
    if i :| OccursAt(s, sub, i) {
      assert s[1..][i - 1..i - 1 + |sub|] == s[i..i + |sub|];
      assert OccursAt(s[1..], sub, i - 1);
    }
    if i :| OccursAt(s[1..], sub, i) {
      assert s[i + 1..i + 1 + |sub|] == s[1..][i..i + |sub|];
      assert OccursAt(s, sub, i + 1);
    }
  }

  /** Whatever surrounds it, a string contains each of its infixes. */
  lemma ContainsInfix(before: string, sub: string, after: string)
    ensures Contains(before + sub + after, sub)
  {
    var s := before + sub + after;
    assert s[|before|..|before| + |sub|] == sub;
    assert OccursAt(s, sub, |before|);
  }

  /** A string that lacks the first character of a non-empty `sub` cannot contain `sub`. */
  lemma NotContainsWithoutFirstChar(s: string, sub: string)
    requires sub != [] && sub[0] !in s
    ensures !Contains(s, sub)
  {
  }

  // ---------------------------------------------------------------------
  // long.ToString() and its inverse
  // ---------------------------------------------------------------------

  predicate IsDigit(c: char) { '0' <= c <= '9' }

  predicate AllDigits(s: string) { forall i :: 0 <= i < |s| ==> IsDigit(s[i]) }

  /** A decimal numeral as `long.ToString()` writes it: an optional minus sign, then digits. */
  predicate IsNumeral(s: string)
  {
    if |s| > 0 && s[0] == '-' then |s| > 1 && AllDigits(s[1..]) else |s| > 0 && AllDigits(s)
  }

  function DigitChar(d: nat): (c: char)
    requires d < 10
    ensures IsDigit(c) && c as int - '0' as int == d
  {
    (d + '0' as int) as char
  }

  function DigitValue(c: char): nat
    requires IsDigit(c)
  {
    c as int - '0' as int
  }

  /** Decimal digits of `n`, most significant first, with no leading zero. */
  function NatToString(n: nat): (s: string)
    ensures |s| > 0 && AllDigits(s)
    ensures s[0] == '0' ==> n == 0
    decreases n
  {
    if n < 10 then [DigitChar(n)] else NatToString(n / 10) + [DigitChar(n % 10)]
  }

  /**
   * `long.ToString()`: decimal digits, with `-` taken as the negative sign
   * (the current culture could choose another for instants before 1970).
   */
  function IntToString(n: int): (s: string)
    ensures IsNumeral(s)
    ensures s[0] == '-' <==> n < 0
  {
    if n < 0 then "-" + NatToString(-n) else NatToString(n)
  }

  function ParseNat(s: string): nat
    requires AllDigits(s)
    decreases |s|
  {
    if s == [] then 0 else ParseNat(s[..|s| - 1]) * 10 + DigitValue(s[|s| - 1])
  }

  /** Reads back a numeral written by `IntToString`. */
  function ParseInt(s: string): int
    requires IsNumeral(s)
  {
    if s[0] == '-' then -(ParseNat(s[1..]) as int) else ParseNat(s)
  }

  lemma {:induction false} ParseNatToString(n: nat)
    ensures ParseNat(NatToString(n)) == n
    decreases n
  {
    if n >= 10 {
      var s := NatToString(n);
      assert s[..|s| - 1] == NatToString(n / 10);
      ParseNatToString(n / 10);
    }
  }

  /** Every epoch-seconds value survives formatting and parsing unchanged. */
  lemma IntToStringRoundTrip(n: int)
    ensures ParseInt(IntToString(n)) == n
  {
    if n < 0 {
      assert IntToString(n)[1..] == NatToString(-n);
      ParseNatToString(-n);
    } else {
      ParseNatToString(n);
    }
  }

  /** Formatting is injective: distinct instants give distinct claim values. */
  lemma IntToStringInjective(m: int, n: int)
    requires m != n
    ensures IntToString(m) != IntToString(n)
  {
    IntToStringRoundTrip(m);
    IntToStringRoundTrip(n);
  }

  // ---------------------------------------------------------------------
  // Encoding.ASCII.GetBytes
  // ---------------------------------------------------------------------

  predicate IsAscii(s: string) { forall i :: 0 <= i < |s| ==> s[i] as int < 128 }

  /** One character through the ASCII encoder: itself below 128, otherwise '?'. */
  function AsciiByte(c: char): byte
  {
    if c as int < 128 then c as int as byte else '?' as int as byte
  }

  /** `Encoding.ASCII.GetBytes(s)`: one byte per character, non-ASCII replaced by '?'. */
  function AsciiBytes(s: string): (b: seq<byte>)
  {
    seq(|s|, i requires 0 <= i < |s| => AsciiByte(s[i]))
  }

  /** `Encoding.ASCII.GetString(b)` on bytes below 128. */
  function AsciiString(b: seq<byte>): string
  {
    seq(|b|, i requires 0 <= i < |b| => b[i] as int as char)
  }

  /** The signing key is exactly the secret's characters iff the secret is plain ASCII. */
  lemma AsciiRoundTrip(s: string)
    ensures |AsciiBytes(s)| == |s|
    ensures AsciiString(AsciiBytes(s)) == s <==> IsAscii(s)
  {
    if !IsAscii(s) {
      var i :| 0 <= i < |s| && s[i] as int >= 128;
      assert AsciiString(AsciiBytes(s))[i] == '?';
    } else {
      assert AsciiString(AsciiBytes(s)) == s;
    }
  }
}
