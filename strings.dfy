/**
 * The text renderings that `StringBuilder.append` performs while a request URL
 * is built: a possibly-null `String` and a 32-bit `Integer`.
 */
module Strings {
  import opened Wrappers

  /** Java's `int`, the range of a non-null `Integer`. */
  newtype int32 = x: int | -0x8000_0000 <= x < 0x8000_0000

  /** `StringBuilder.append(String)` appends the four letters `null` for a null reference. */
  function Show(s: Option<string>): (r: string)
  {
    match s
    case None => "null"
    case Some(v) => v
  }

  // ---------------------------------------------------------------------------
  // Integer.toString, as `StringBuilder.append(Integer)` renders `size`
  // ---------------------------------------------------------------------------

  predicate IsDigit(c: char)
  {
    '0' <= c <= '9'
  }

  function DigitChar(d: nat): (c: char)
    requires d < 10
    ensures IsDigit(c)
  {
    ('0' as int + d) as char
  }

  function DigitValue(c: char): (d: nat)
  {
    if IsDigit(c) then c as int - '0' as int else 0
  }

  /** Decimal digits of `n`, most significant first, with no leading zero. */
  function NatToString(n: nat): (r: string)
    ensures |r| > 0
    ensures forall i :: 0 <= i < |r| ==> IsDigit(r[i])
    ensures r[0] == '0' ==> n == 0
    decreases n
  {
    if n < 10 then [DigitChar(n)] else NatToString(n / 10) + [DigitChar(n % 10)]
  }

  /** Java's `Integer.toString`: a minus sign before the digits of a negative value. */
  function IntToString(n: int): (r: string)
  {
    if n < 0 then "-" + NatToString(-n) else NatToString(n)
  }

  /** The value of a string of decimal digits. */
  function ParseNat(s: string): (n: nat)
  {
    if s == [] then 0 else ParseNat(s[..|s| - 1]) * 10 + DigitValue(s[|s| - 1])
  }

  /** The value of an optionally signed decimal numeral, the reading `Integer.parseInt` gives. */
  function ParseInt(s: string): (n: int)
  {
    if |s| > 0 && s[0] == '-' then -(ParseNat(s[1..]) as int) else ParseNat(s)
  }

  lemma {:induction false} ParseNatToString(n: nat)
    ensures ParseNat(NatToString(n)) == n
    decreases n
  {
    if n >= 10 {
      var r := NatToString(n);
      ParseNatToString(n / 10);
      assert r[..|r| - 1] == NatToString(n / 10);
    }
  }

  /** The rendered size reads back as the same number, holds only a sign and digits, and never a separator. */
  lemma IntToStringRoundTrip(n: int)
    ensures ParseInt(IntToString(n)) == n
    ensures forall i :: 0 <= i < |IntToString(n)| ==> IsDigit(IntToString(n)[i]) || (i == 0 && n < 0 && IntToString(n)[i] == '-')
    ensures '&' !in IntToString(n) && '=' !in IntToString(n)
  {
    if n < 0 {
      ParseNatToString(-n);
      assert IntToString(n)[1..] == NatToString(-n);
    } else {
      ParseNatToString(n);
    }
  }

  /** The size the request tests set is rendered as its two digits. */
  lemma IntToStringExample()
    ensures IntToString(35) == "35"
  {
    assert NatToString(3) == "3";
    assert NatToString(35) == NatToString(3) + [DigitChar(5)];
  }
}
