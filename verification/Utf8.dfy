/** Text as characters and as UTF-8 bytes. */
module Utf8Text {
  import opened Options

  type Byte = b: int | 0 <= b < 256

  function Utf8Char(c: char): (r: seq<Byte>)
    ensures 1 <= |r| <= 4 && (|r| == 1 <==> IsAscii(c)) && (IsAscii(c) ==> r == [c as int])
  {
    var n := c as int;
    if n < 0x80 then [n]
    else if n < 0x800 then [0xC0 + n / 0x40, 0x80 + n % 0x40]
    else if n < 0x10000 then [0xE0 + n / 0x1000, 0x80 + n / 0x40 % 0x40, 0x80 + n % 0x40]
    else [0xF0 + n / 0x40000, 0x80 + n / 0x1000 % 0x40, 0x80 + n / 0x40 % 0x40, 0x80 + n % 0x40]
  }

  function Utf8(s: string): seq<Byte> {
    if s == "" then [] else Utf8Char(s[0]) + Utf8(s[1..])
  }

  predicate IsAscii(c: char) {
    c as int < 0x80
  }

  predicate AllAscii(s: string) {
    forall i :: 0 <= i < |s| ==> IsAscii(s[i])
  }

  lemma Utf8Next(c: char, s: string)
    ensures Utf8([c] + s) == Utf8Char(c) + Utf8(s)
  {
    hide Utf8Char;
    assert ([c] + s)[1..] == s;
  }

  lemma {:induction false} Utf8Append(a: string, b: string)
    ensures Utf8(a + b) == Utf8(a) + Utf8(b)
  {
    hide Utf8Char;
    if a == "" {
      assert a + b == b;
    } else {
      assert (a + b)[1..] == a[1..] + b;
      Utf8Append(a[1..], b);
    }
  }

  // ---- Decoding ----

  predicate IsScalar(n: int) {
    0 <= n < 0xD800 || 0xE000 <= n < 0x110000
  }

  /** How many bytes the lead byte asks for, and the number its bytes stand for. */
  function Width(lead: int): nat {
    if lead < 0x80 then 1 else if lead < 0xE0 then 2 else if lead < 0xF0 then 3 else 4
  }

  function Number(k: nat, b0: int, b1: int, b2: int, b3: int): int {
    if k == 1 then b0
    else if k == 2 then (b0 - 0xC0) * 0x40 + (b1 - 0x80)
    else if k == 3 then (b0 - 0xE0) * 0x1000 + (b1 - 0x80) * 0x40 + (b2 - 0x80)
    else (b0 - 0xF0) * 0x40000 + (b1 - 0x80) * 0x1000 + (b2 - 0x80) * 0x40 + (b3 - 0x80)
  }

  function At(bytes: seq<Byte>, i: nat): Byte {
    if i < |bytes| then bytes[i] else 0
  }

  /** The first character and how many bytes it takes. Only its shortest form is accepted. */
  function FirstChar(bytes: seq<Byte>): (r: Option<(char, nat)>)
    ensures r.Some? ==> 0 < r.value.1 <= |bytes| && Utf8Char(r.value.0) == bytes[..r.value.1]
  {
    var k := Width(At(bytes, 0));
    if k > |bytes| then None
    else
      var n := Number(k, At(bytes, 0), At(bytes, 1), At(bytes, 2), At(bytes, 3));
      if IsScalar(n) && Utf8Char(n as char) == bytes[..k] then Some((n as char, k)) else None
  }

  /** The text, if the bytes are valid UTF-8. */
  function Decode(bytes: seq<Byte>): Option<string>
    decreases |bytes|
  {
    if bytes == [] then Some("")
    else
      match FirstChar(bytes)
      case None => None
      case Some((c, k)) =>
        match Decode(bytes[k..])
        case None => None
        case Some(rest) => Some([c] + rest)
  }

  lemma TwoParts(n: nat)
    ensures n == n / 0x40 * 0x40 + n % 0x40
    ensures n / 0x1000 == n / 0x40 / 0x40 && n / 0x40000 == n / 0x1000 / 0x40
  {
  }

  lemma NumberOfParts(n: nat)
    ensures n == n / 0x1000 * 0x1000 + n / 0x40 % 0x40 * 0x40 + n % 0x40
    ensures n == n / 0x40000 * 0x40000 + n / 0x1000 % 0x40 * 0x1000 + n / 0x40 % 0x40 * 0x40 + n % 0x40
  {
    TwoParts(n);
    TwoParts(n / 0x40);
    TwoParts(n / 0x1000);
  }

  lemma NumberOfChar(c: char)
    ensures var u := Utf8Char(c);
            Width(At(u, 0)) == |u| && Number(|u|, At(u, 0), At(u, 1), At(u, 2), At(u, 3)) == c as int && IsScalar(c as int)
  {
    var n := c as int;
    TwoParts(n);
    NumberOfParts(n);
    if n < 0x80 {
    } else if n < 0x800 {
      assert n / 0x40 < 0x20;
    } else if n < 0x10000 {
      assert n / 0x1000 < 0x10;
    } else {
      assert n / 0x40000 < 5;
    }
  }

  lemma NumberOfPrefix(u: seq<Byte>, rest: seq<Byte>)
    requires 0 < |u| <= 4
    ensures var bytes := u + rest;
            && At(bytes, 0) == At(u, 0)
            && Number(|u|, At(bytes, 0), At(bytes, 1), At(bytes, 2), At(bytes, 3)) == Number(|u|, At(u, 0), At(u, 1), At(u, 2), At(u, 3))
            && bytes[..|u|] == u
  {
  }

  lemma FirstCharOfEncoded(c: char, rest: seq<Byte>)
    ensures FirstChar(Utf8Char(c) + rest) == Some((c, |Utf8Char(c)|))
  {
    hide Utf8Char, Number, Width, At;
    NumberOfChar(c);
    NumberOfPrefix(Utf8Char(c), rest);
  }

  /** Decoding gives a text exactly for the UTF-8 of that text. */
  lemma {:induction false} DecodeOfUtf8(s: string)
    ensures Decode(Utf8(s)) == Some(s)
  {
    hide Utf8Char, FirstChar;
    if s != "" {
      DecodeOfUtf8(s[1..]);
      FirstCharOfEncoded(s[0], Utf8(s[1..]));
      assert Utf8(s)[|Utf8Char(s[0])|..] == Utf8(s[1..]);
      assert s == [s[0]] + s[1..];
    }
  }

  lemma {:induction false} Utf8OfDecoded(bytes: seq<Byte>)
    ensures Decode(bytes).Some? ==> Utf8(Decode(bytes).value) == bytes
    decreases |bytes|
  {
    hide Utf8Char;
    if Decode(bytes).Some? && bytes != [] {
      var k := FirstChar(bytes).value.1;
      Utf8OfDecoded(bytes[k..]);
      Utf8Next(FirstChar(bytes).value.0, Decode(bytes[k..]).value);
      assert bytes == bytes[..k] + bytes[k..];
    }
  }
}
