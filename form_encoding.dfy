/**
 * The form encoding the query text goes through before it is placed after
 * `text=`: the application/x-www-form-urlencoded byte serializer of section
 * 5.2 of the WHATWG URL Standard, which is also what
 * `java.net.URLEncoder.encode(text, "UTF-8")` writes. ASCII letters, digits
 * and `*-._` are kept; a space becomes `+`; every other character becomes
 * the `%XX` escapes of its UTF-8 bytes, with upper-case hexadecimal digits.
 * A decoder reads such a text back.
 */
module FormEncoding {
  import opened Wrappers

  type byte = b: int | 0 <= b < 0x100

  /** The characters the encoder leaves as they are. */
  predicate Unreserved(c: char)
  {
    || 'a' <= c <= 'z' || 'A' <= c <= 'Z' || '0' <= c <= '9'
    || c == '*' || c == '-' || c == '.' || c == '_'
  }

  /** A text made only of characters the encoder keeps. */
  predicate Plain(s: string)
  {
    forall i :: 0 <= i < |s| ==> Unreserved(s[i])
  }

  /** What the encoder writes: a kept character, the `+` of a space, or an escape's `%` and digits. */
  predicate EncodedChar(c: char)
  {
    Unreserved(c) || c == '+' || c == '%'
  }

  // ---------------------------------------------------------------------------
  // Encoding
  // ---------------------------------------------------------------------------

  /** The UTF-8 bytes of a Unicode scalar value (section 3 of RFC 3629). */
  function Utf8(c: char): (bs: seq<byte>)
    ensures 1 <= |bs| <= 4
  {
    var n := c as int;
    if n < 0x80 then [n]
    else if n < 0x800 then [0xC0 + n / 0x40, 0x80 + n % 0x40]
    else if n < 0x1_0000 then [0xE0 + n / 0x1000, 0x80 + n / 0x40 % 0x40, 0x80 + n % 0x40]
    else [0xF0 + n / 0x4_0000, 0x80 + n / 0x1000 % 0x40, 0x80 + n / 0x40 % 0x40, 0x80 + n % 0x40]
  }

  /** An upper-case hexadecimal digit. */
  function HexDigit(d: nat): (c: char)
    requires d < 16
    ensures Unreserved(c)
  {
    if d < 10 then ('0' as int + d) as char else ('A' as int + d - 10) as char
  }

  /** `%` and the two hexadecimal digits of a byte. */
  function Escape(b: byte): (r: string)
    ensures |r| == 3 && r[0] == '%'
    ensures forall i :: 0 <= i < 3 ==> EncodedChar(r[i])
  {
    ['%', HexDigit(b / 16), HexDigit(b % 16)]
  }

  function EscapeAll(bs: seq<byte>): (r: string)
    ensures |r| == 3 * |bs|
    ensures forall i :: 0 <= i < |r| ==> EncodedChar(r[i])
  {
    if bs == [] then [] else Escape(bs[0]) + EscapeAll(bs[1..])
  }

  /** One character as the encoder writes it: one character when kept or a space, three per byte otherwise. */
  function EncodeChar(c: char): (r: string)
    ensures |r| == 1 <==> Unreserved(c) || c == ' '
    ensures |r| > 0 && forall i :: 0 <= i < |r| ==> EncodedChar(r[i])
  {
    if Unreserved(c) then [c] else if c == ' ' then "+" else EscapeAll(Utf8(c))
  }

  /** The text as it is placed after `text=`: it never holds a space, nor a `&` or `=` of its own. */
  function FormEncode(s: string): (r: string)
    ensures |r| >= |s|
    ensures forall i :: 0 <= i < |r| ==> EncodedChar(r[i])
    ensures ' ' !in r && '&' !in r && '=' !in r
  {
    if s == [] then [] else EncodeChar(s[0]) + FormEncode(s[1..])
  }

  // ---------------------------------------------------------------------------
  // Decoding
  // ---------------------------------------------------------------------------

  function HexValue(c: char): (r: Option<nat>)
    ensures r.Some? ==> r.value < 16
  {
    if '0' <= c <= '9' then Some(c as int - '0' as int)
    else if 'A' <= c <= 'F' then Some(c as int - 'A' as int + 10)
    else if 'a' <= c <= 'f' then Some(c as int - 'a' as int + 10)
    else None
  }

  /** The byte of a `%XX` escape at the front of `t`, with digits of either case. */
  function EscapedByte(t: string): (r: Option<byte>)
    ensures r.Some? ==> |t| >= 3 && t[0] == '%'
  {
    if |t| >= 3 && t[0] == '%' && HexValue(t[1]).Some? && HexValue(t[2]).Some? then
      Some(HexValue(t[1]).value * 16 + HexValue(t[2]).value)
    else None
  }

  /** The bytes of `n` escapes in a row at the front of `t`. */
  function EscapedBytes(t: string, n: nat): (r: Option<seq<byte>>)
    ensures r.Some? ==> |r.value| == n && 3 * n <= |t|
  {
    if n == 0 then Some([])
    else match EscapedByte(t)
      case None => None
      case Some(b) =>
        match EscapedBytes(t[3..], n - 1)
        case None => None
        case Some(rest) => Some([b] + rest)
  }

  /** The length of the UTF-8 sequence a byte opens, or 0 when no sequence opens with it. */
  function SequenceLength(b: byte): (n: nat)
    ensures n <= 4
  {
    if b < 0x80 then 1
    else if 0xC0 <= b < 0xE0 then 2
    else if 0xE0 <= b < 0xF0 then 3
    else if 0xF0 <= b < 0xF8 then 4
    else 0
  }

  predicate Continuation(b: byte)
  {
    0x80 <= b < 0xC0
  }

  /** The character with code point `n`, when there is one. */
  function Scalar(n: int): (r: Option<char>)
    ensures r.Some? <==> 0 <= n < 0xD800 || 0xE000 <= n < 0x11_0000
    ensures r.Some? ==> r.value as int == n
  {
    if 0 <= n < 0xD800 || 0xE000 <= n < 0x11_0000 then Some(n as char) else None
  }

  /** The character a whole UTF-8 sequence stands for. */
  function Utf8Decode(bs: seq<byte>): (r: Option<char>)
  {
    if |bs| == 0 || SequenceLength(bs[0]) != |bs| then None
    else if |bs| == 1 then Scalar(bs[0])
    else if |bs| == 2 && Continuation(bs[1]) then
      Scalar((bs[0] as int - 0xC0) * 0x40 + (bs[1] as int - 0x80))
    else if |bs| == 3 && Continuation(bs[1]) && Continuation(bs[2]) then
      Scalar((bs[0] as int - 0xE0) * 0x1000 + (bs[1] as int - 0x80) * 0x40 + (bs[2] as int - 0x80))
    else if |bs| == 4 && Continuation(bs[1]) && Continuation(bs[2]) && Continuation(bs[3]) then
      Scalar((bs[0] as int - 0xF0) * 0x4_0000 + (bs[1] as int - 0x80) * 0x1000 + (bs[2] as int - 0x80) * 0x40 + (bs[3] as int - 0x80))
    else None
  }

  /** The character whose UTF-8 escapes open `t`, and how many characters of `t` they take. */
  function DecodeEscapes(t: string): (r: Option<(char, nat)>)
    ensures r.Some? ==> 3 <= r.value.1 <= |t|
  {
    match EscapedByte(t)
    case None => None
    case Some(lead) =>
      var n := SequenceLength(lead);
      if n == 0 then None
      else match EscapedBytes(t, n)
        case None => None
        case Some(bs) =>
          match Utf8Decode(bs)
          case None => None
          case Some(c) => Some((c, 3 * n))
  }

  function Cons(c: char, r: Option<string>): (s: Option<string>)
  {
    if r.Some? then Some([c] + r.value) else None
  }

  /** Reads an encoded text back: `+` is a space, escapes are the UTF-8 bytes of a character, the rest is kept. */
  function FormDecode(t: string): (r: Option<string>)
    decreases |t|
  {
    if t == [] then Some([])
    else if t[0] == '+' then Cons(' ', FormDecode(t[1..]))
    else if t[0] == '%' then
      match DecodeEscapes(t)
      case None => None
      case Some((c, k)) => Cons(c, FormDecode(t[k..]))
    else Cons(t[0], FormDecode(t[1..]))
  }

  // ---------------------------------------------------------------------------
  // Lemmas
  // ---------------------------------------------------------------------------

  lemma EscapedByteOf(b: byte, rest: string)
    ensures EscapedByte(Escape(b) + rest) == Some(b)
  {
    var t := Escape(b) + rest;
    assert t[1] == HexDigit(b / 16) && t[2] == HexDigit(b % 16);
  }

  lemma {:induction false} EscapedBytesOf(bs: seq<byte>, rest: string)
    ensures EscapedBytes(EscapeAll(bs) + rest, |bs|) == Some(bs)
    decreases |bs|
  {
    if bs != [] {
      var tail := EscapeAll(bs[1..]) + rest;
      var t := EscapeAll(bs) + rest;
      assert t == Escape(bs[0]) + tail;
      EscapedByteOf(bs[0], tail);
      assert t[3..] == tail;
      EscapedBytesOf(bs[1..], rest);
      assert [bs[0]] + bs[1..] == bs;
    }
  }

  /** Decoding the UTF-8 bytes of a character gives the character back, and its first byte gives their number. */
  lemma Utf8RoundTrip(c: char)
    ensures SequenceLength(Utf8(c)[0]) == |Utf8(c)|
    ensures Utf8Decode(Utf8(c)) == Some(c)
  {
    var n := c as int;
    if n < 0x80 {
    } else if n < 0x800 {
      assert (n / 0x40) * 0x40 + n % 0x40 == n;
    } else if n < 0x1_0000 {
      assert n / 0x1000 == n / 0x40 / 0x40;
      assert (n / 0x40) * 0x40 + n % 0x40 == n;
      assert (n / 0x40 / 0x40) * 0x40 + n / 0x40 % 0x40 == n / 0x40;
    } else {
      assert n / 0x4_0000 == n / 0x1000 / 0x40;
      assert n / 0x1000 == n / 0x40 / 0x40;
      assert (n / 0x40) * 0x40 + n % 0x40 == n;
      assert (n / 0x40 / 0x40) * 0x40 + n / 0x40 % 0x40 == n / 0x40;
      assert (n / 0x1000 / 0x40) * 0x40 + n / 0x1000 % 0x40 == n / 0x1000;
    }
  }

  lemma DecodeEscapesOf(c: char, rest: string)
    ensures DecodeEscapes(EscapeAll(Utf8(c)) + rest) == Some((c, 3 * |Utf8(c)|))
  {
    var bs := Utf8(c);
    Utf8RoundTrip(c);
    EscapedBytesOf(bs, rest);
    assert EscapeAll(bs) + rest == Escape(bs[0]) + (EscapeAll(bs[1..]) + rest);
    EscapedByteOf(bs[0], EscapeAll(bs[1..]) + rest);
  }

  /** Decoding reads one encoded character back and goes on with what follows it. */
  lemma DecodeEncodeChar(c: char, rest: string)
    ensures FormDecode(EncodeChar(c) + rest) == Cons(c, FormDecode(rest))
  {
    var t := EncodeChar(c) + rest;
    if Unreserved(c) || c == ' ' {
      assert t[1..] == rest;
    } else {
      DecodeEscapesOf(c, rest);
      assert t[3 * |Utf8(c)|..] == rest;
    }
  }

  /** Decoding undoes encoding, for every text. */
  lemma {:induction false} FormRoundTrip(s: string)
    ensures FormDecode(FormEncode(s)) == Some(s)
    decreases |s|
  {
    if s != [] {
      DecodeEncodeChar(s[0], FormEncode(s[1..]));
      FormRoundTrip(s[1..]);
      assert [s[0]] + s[1..] == s;
    }
  }

  lemma {:induction false} FormEncodePlain(s: string)
    requires Plain(s)
    ensures FormEncode(s) == s
    decreases |s|
  {
    if s != [] {
      FormEncodePlain(s[1..]);
      assert [s[0]] + s[1..] == s;
    }
  }

  lemma {:induction false} FormEncodeChanges(s: string)
    requires !Plain(s)
    ensures FormEncode(s) != s
    decreases |s|
  {
    var r := FormEncode(s);
    if Unreserved(s[0]) {
      var i :| 0 <= i < |s| && !Unreserved(s[i]);
      assert !Plain(s[1..]) by { assert s[1..][i - 1] == s[i]; }
      FormEncodeChanges(s[1..]);
      assert r[1..] == FormEncode(s[1..]);
    } else if s[0] == ' ' {
      assert r[0] == '+';
    } else {
      assert |r| >= 3 + |s| - 1;
    }
  }

  /** Encoding leaves a text as it is exactly when every character is one the encoder keeps. */
  lemma FormEncodeIdentity(s: string)
    ensures FormEncode(s) == s <==> Plain(s)
  {
    if Plain(s) {
      FormEncodePlain(s);
    } else {
      FormEncodeChanges(s);
    }
  }

  /** Encoding works character by character, so it distributes over concatenation. */
  lemma {:induction false} FormEncodeConcat(a: string, b: string)
    ensures FormEncode(a + b) == FormEncode(a) + FormEncode(b)
    decreases |a|
  {
    if a == [] {
      assert a + b == b;
    } else {
      assert (a + b)[0] == a[0];
      assert (a + b)[1..] == a[1..] + b;
      FormEncodeConcat(a[1..], b);
    }
  }

  lemma SpaceEncoded()
    ensures FormEncode(" ") == "+"
  {
    assert FormEncode(" ") == EncodeChar(' ') + FormEncode([]);
  }

  /** Two plain words around one space come out joined by `+`. */
  lemma FormEncodeTwoWords(a: string, b: string)
    requires Plain(a) && Plain(b)
    ensures FormEncode(a + " " + b) == a + "+" + b
  {
    calc {
      FormEncode(a + " " + b);
      { FormEncodeConcat(a + " ", b); }
      FormEncode(a + " ") + FormEncode(b);
      { FormEncodeConcat(a, " "); }
      FormEncode(a) + FormEncode(" ") + FormEncode(b);
      { FormEncodePlain(a); FormEncodePlain(b); SpaceEncoded(); }
      a + "+" + b;
    }
  }
}
