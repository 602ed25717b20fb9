/**
 Base64 as in section 4 of RFC 4648: the encoder of the editor's data URLs and the decoder of the
 attachment cache. The reference is the RFC's group of 24 bits; the methods work with the shifts and
 masks of single bytes.
 */
module Base64 {
  import opened Options
  import opened Sequences

  type Byte = bv8

  const PAD: Byte := 61

  datatype Result = Decoded(bytes: seq<Byte>) | InvalidData | BadLength | BadPadding

  predicate IsSpace(c: Byte) {
    c == 32 || c == 9 || c == 10 || c == 12 || c == 13
  }

  /** The letters A to Z and a to z, the digits, plus and slash, in this order. */
  function Digit(v: Byte): Byte {
    if v < 26 then v + 65 else if v < 52 then v + 71 else if v < 62 then v - 4 else if v == 62 then 43 else 47
  }

  function DigitValue(c: Byte): Option<Byte> {
    if 65 <= c && c <= 90 then Some(c - 65)
    else if 97 <= c && c <= 122 then Some(c - 97 + 26)
    else if 48 <= c && c <= 57 then Some(c - 48 + 52)
    else if c == 43 then Some(62)
    else if c == 47 then Some(63)
    else None
  }

  predicate IsKnown(c: Byte) {
    DigitValue(c).Some? || c == PAD
  }

  /** Padding is read as zero bits. */
  function ValueOf(c: Byte): Byte {
    DigitValue(c).UnwrapOr(0)
  }

  // ---- Groups of 24 bits ----

  function Group(b0: Byte, b1: Byte, b2: Byte): bv32 {
    ((b0 as bv32) << 16) | ((b1 as bv32) << 8) | (b2 as bv32)
  }

  function Sextet(n: bv32, shift: bv6): (v: Byte)
    requires shift <= 18
    ensures v < 64
  {
    ((n >> shift) & 0x3F) as Byte
  }

  function Joined(v0: Byte, v1: Byte, v2: Byte, v3: Byte): bv32 {
    ((v0 as bv32) << 18) | ((v1 as bv32) << 12) | ((v2 as bv32) << 6) | (v3 as bv32)
  }

  function Octet(n: bv32, shift: bv6): Byte
    requires shift <= 16
  {
    ((n >> shift) & 0xFF) as Byte
  }

  lemma SextetsJoin(b0: Byte, b1: Byte, b2: Byte)
    ensures var n := Group(b0, b1, b2);
            && Joined(Sextet(n, 18), Sextet(n, 12), Sextet(n, 6), Sextet(n, 0)) == n
            && Octet(n, 16) == b0 && Octet(n, 8) == b1 && Octet(n, 0) == b2
            && (b1 == 0 && b2 == 0 ==> Sextet(n, 6) == 0) && (b2 == 0 ==> Sextet(n, 0) == 0)
  {
  }

  lemma ShiftsAreSextets(b0: Byte, b1: Byte, b2: Byte)
    ensures var n := Group(b0, b1, b2);
            && b0 >> 2 == Sextet(n, 18)
            && ((b0 & 3) << 4) | (b1 >> 4) == Sextet(n, 12)
            && ((b1 & 15) << 2) | (b2 >> 6) == Sextet(n, 6)
            && b2 & 63 == Sextet(n, 0)
  {
  }

  lemma OctetsSplit(v0: Byte, v1: Byte, v2: Byte, v3: Byte)
    requires v0 < 64 && v1 < 64 && v2 < 64 && v3 < 64
    ensures var n := Joined(v0, v1, v2, v3);
            && Group(Octet(n, 16), Octet(n, 8), Octet(n, 0)) == n
            && Sextet(n, 18) == v0 && Sextet(n, 12) == v1 && Sextet(n, 6) == v2 && Sextet(n, 0) == v3
  {
  }

  lemma DigitsAreValues(v: Byte)
    ensures v < 64 ==> DigitValue(Digit(v)) == Some(v) && !IsSpace(Digit(v)) && Digit(v) != PAD
    ensures DigitValue(v).Some? ==> DigitValue(v).value < 64 && Digit(DigitValue(v).value) == v
    ensures ValueOf(v) < 64 && ValueOf(PAD) == 0
  {
  }

  // ---- Texts ----

  function At(bytes: seq<Byte>, i: nat): Byte {
    if i < |bytes| then bytes[i] else 0
  }

  function Rest(s: seq<Byte>, n: nat): (r: seq<Byte>)
    ensures |r| == if |s| > n then |s| - n else 0
  {
    if |s| > n then s[n..] else []
  }

  function Encode(bytes: seq<Byte>): seq<Byte>
    decreases |bytes|
  {
    if bytes == [] then [] else Quad(bytes) + Encode(Rest(bytes, 3))
  }

  /** The four characters of the first group. */
  function Quad(bytes: seq<Byte>): (q: seq<Byte>)
    ensures |q| == 4
  {
    var n := Group(At(bytes, 0), At(bytes, 1), At(bytes, 2));
    [Digit(Sextet(n, 18)), Digit(Sextet(n, 12)),
     if |bytes| > 1 then Digit(Sextet(n, 6)) else PAD,
     if |bytes| > 2 then Digit(Sextet(n, 0)) else PAD]
  }

  function Strip(input: seq<Byte>): seq<Byte> {
    if input == [] then []
    else Strip(input[..|input| - 1]) + if IsSpace(input[|input| - 1]) then [] else [input[|input| - 1]]
  }

  function Pads(text: seq<Byte>): (n: nat)
    ensures n <= |text|
  {
    if text == [] then 0 else Pads(text[..|text| - 1]) + if text[|text| - 1] == PAD then 1 else 0
  }

  predicate AllKnown(text: seq<Byte>) {
    forall i :: 0 <= i < |text| ==> IsKnown(text[i])
  }

  function Values(text: seq<Byte>): (values: seq<Byte>)
    ensures |values| == |text|
    ensures forall i :: 0 <= i < |text| ==> values[i] == ValueOf(text[i])
  {
    if text == [] then [] else Values(text[..|text| - 1]) + [ValueOf(text[|text| - 1])]
  }

  function Octets(values: seq<Byte>): (bytes: seq<Byte>)
    ensures |bytes| == |values| / 4 * 3
  {
    if |values| < 4 then []
    else
      var n := Joined(values[0], values[1], values[2], values[3]);
      [Octet(n, 16), Octet(n, 8), Octet(n, 0)] + Octets(values[4..])
  }

  function Decode(input: seq<Byte>): Result {
    DecodeText(Strip(input))
  }

  function DecodeText(text: seq<Byte>): (r: Result)
    ensures r.Decoded? ==> |r.bytes| == |text| / 4 * 3 - Pads(text)
  {
    if !AllKnown(text) then InvalidData
    else if |text| % 4 != 0 then BadLength
    else if Pads(text) > 2 then BadPadding
    else
      var bytes := Octets(Values(text));
      Decoded(bytes[..|bytes| - Pads(text)])
  }

  method EncodeBase64(bytes: seq<Byte>) returns (output: seq<Byte>)
    ensures output == Encode(bytes)
  {
    hide Digit, Sextet, Encode;
    output := [];
    var i := 0;
    EncodeNext(bytes, 0);
    while i < |bytes|
      invariant 0 <= i
      invariant output + Encode(Rest(bytes, i)) == Encode(bytes)
    {
      ghost var rest := Rest(bytes, i);
      var more, most := i + 1 < |bytes|, i + 2 < |bytes|;
      var b0 := bytes[i];
      var b1 := if more then bytes[i + 1] else 0;
      var b2 := if most then bytes[i + 2] else 0;
      ShiftsAreSextets(b0, b1, b2);
      var chunk := [Digit(b0 >> 2), Digit(((b0 & 3) << 4) | (b1 >> 4)),
                    if more then Digit(((b1 & 15) << 2) | (b2 >> 6)) else PAD,
                    if most then Digit(b2 & 63) else PAD];
      assert chunk == Quad(rest);
      EncodeNext(bytes, i);
      Regroup(output, chunk, Encode(Rest(bytes, i + 3)));
      output := output + chunk;
      i := i + 3;
    }
    EncodeNext(bytes, i);
    assert output + [] == output;
  }

  lemma EncodeNext(bytes: seq<Byte>, i: nat)
    ensures Rest(bytes, 0) == bytes
    ensures Encode(Rest(bytes, i)) == if i < |bytes| then Quad(Rest(bytes, i)) + Encode(Rest(bytes, i + 3)) else []
  {
    hide Quad;
    if i < |bytes| { assert Rest(Rest(bytes, i), 3) == Rest(bytes, i + 3); }
  }

  /** The values of the characters that are not white space, up to the first unknown one. */
  method ReadValues(input: seq<Byte>) returns (ok: bool, values: seq<Byte>, padding: nat)
    ensures ok == AllKnown(Strip(input))
    ensures ok ==> values == Values(Strip(input)) && padding == Pads(Strip(input))
  {
    hide DigitValue, IsSpace, Strip, AllKnown, Values, Pads, IsKnown;
    ok, values, padding := true, [], 0;
    ghost var text := [];
    EmptyText();
    for k := 0 to |input|
      invariant text == Strip(input[..k]) && AllKnown(text)
      invariant values == Values(text) && padding == Pads(text)
    {
      var c := input[k];
      StripNext(input, k);
      if !IsSpace(c) {
        if !IsKnown(c) {
          UnknownStays(input, k);
          return false, values, padding;
        }
        TextPush(text, c);
        text := text + [c];
        values := values + [ValueOf(c)];
        padding := padding + if c == PAD then 1 else 0;
      }
    }
    assert input[..|input|] == input;
  }

  lemma EmptyText()
    ensures Strip([]) == [] && AllKnown([]) && Values([]) == [] && Pads([]) == 0
  {
  }

  lemma StripNext(input: seq<Byte>, k: nat)
    requires k < |input|
    ensures Strip(input[..k + 1]) == if IsSpace(input[k]) then Strip(input[..k]) else Strip(input[..k]) + [input[k]]
  {
    assert input[..k + 1][..k] == input[..k];
  }

  lemma TextPush(text: seq<Byte>, c: Byte)
    ensures AllKnown(text + [c]) == (AllKnown(text) && IsKnown(c))
    ensures Values(text + [c]) == Values(text) + [ValueOf(c)]
    ensures Pads(text + [c]) == Pads(text) + if c == PAD then 1 else 0
  {
    hide IsKnown, ValueOf;
    var pushed := text + [c];
    assert pushed[..|text|] == text;
    assert pushed[|text|] == c;
    assert forall i :: 0 <= i < |text| ==> pushed[i] == text[i];
  }

  lemma UnknownStays(input: seq<Byte>, k: nat)
    requires k < |input| && !IsSpace(input[k]) && !IsKnown(input[k])
    ensures !AllKnown(Strip(input))
  {
    hide IsSpace, IsKnown;
    StripKeeps(input, k);
    var i :| 0 <= i < |Strip(input)| && Strip(input)[i] == input[k];
    assert !IsKnown(Strip(input)[i]);
  }

  method JoinGroups(values: seq<Byte>) returns (output: seq<Byte>)
    requires |values| % 4 == 0
    ensures output == Octets(values)
  {
    hide Joined, Octet, Octets;
    output := [];
    var i := 0;
    while i < |values|
      invariant 0 <= i <= |values| && i % 4 == 0
      invariant output + Octets(values[i..]) == Octets(values)
    {
      var n := Joined(values[i], values[i + 1], values[i + 2], values[i + 3]);
      NextOctets(values, i);
      assert output + Octets(values[i..]) == (output + [Octet(n, 16), Octet(n, 8), Octet(n, 0)]) + Octets(values[i + 4..]);
      output := output + [Octet(n, 16), Octet(n, 8), Octet(n, 0)];
      i := i + 4;
    }
    assert values[i..] == [];
    NoOctets();
  }

  lemma NextOctets(values: seq<Byte>, i: nat)
    requires i + 4 <= |values|
    ensures var n := Joined(values[i], values[i + 1], values[i + 2], values[i + 3]);
            Octets(values[i..]) == [Octet(n, 16), Octet(n, 8), Octet(n, 0)] + Octets(values[i + 4..])
  {
    hide Joined, Octet;
    assert values[i..][4..] == values[i + 4..];
  }

  method DecodeBase64(input: seq<Byte>) returns (r: Result)
    ensures r == Decode(input)
  {
    hide Strip, Pads, Values, Octets, AllKnown;
    var ok, values, padding := ReadValues(input);
    if !ok {
      return InvalidData;
    }
    if |values| % 4 != 0 {
      return BadLength;
    }
    if padding > 2 {
      return BadPadding;
    }
    var output := JoinGroups(values);
    ghost var whole := output;
    for popped := 0 to padding
      invariant output == whole[..|whole| - popped]
    {
      output := output[..|output| - 1];
    }
    r := Decoded(output);
  }

  // ---- Pieces ----

  lemma {:induction false} StripAppend(a: seq<Byte>, b: seq<Byte>)
    ensures Strip(a + b) == Strip(a) + Strip(b)
  {
    if b == [] {
      assert a + b == a;
    } else {
      assert (a + b)[..|a + b| - 1] == a + b[..|b| - 1];
      StripAppend(a, b[..|b| - 1]);
    }
  }

  lemma {:induction false} PadsAppend(a: seq<Byte>, b: seq<Byte>)
    ensures Pads(a + b) == Pads(a) + Pads(b)
  {
    if b == [] {
      assert a + b == a;
    } else {
      assert (a + b)[..|a + b| - 1] == a + b[..|b| - 1];
      PadsAppend(a, b[..|b| - 1]);
    }
  }

  /** What is not white space stays. */
  lemma StripKeeps(input: seq<Byte>, k: nat)
    requires k < |input| && !IsSpace(input[k])
    ensures input[k] in Strip(input)
  {
    assert input == input[..k] + [input[k]] + input[k + 1..];
    StripAppend(input[..k] + [input[k]], input[k + 1..]);
    StripAppend(input[..k], [input[k]]);
    assert [input[k]][..0] == [];
    assert Strip([input[k]]) == [input[k]];
  }

  lemma {:induction false} StripOfClean(text: seq<Byte>)
    requires forall i :: 0 <= i < |text| ==> !IsSpace(text[i])
    ensures Strip(text) == text
  {
    if text != [] { StripOfClean(text[..|text| - 1]); }
  }

  lemma PadsOfFour(q: seq<Byte>)
    requires |q| == 4
    ensures Pads(q) == (if q[0] == PAD then 1 else 0) + (if q[1] == PAD then 1 else 0)
                       + (if q[2] == PAD then 1 else 0) + (if q[3] == PAD then 1 else 0)
  {
    assert q == [q[0]] + [q[1]] + [q[2]] + [q[3]];
    PadsAppend([q[0]] + [q[1]] + [q[2]], [q[3]]);
    PadsAppend([q[0]] + [q[1]], [q[2]]);
    PadsAppend([q[0]], [q[1]]);
  }

  // ---- Round trip ----

  lemma QuadIsClean(bytes: seq<Byte>)
    requires bytes != []
    ensures var q := Quad(bytes);
            && AllKnown(q) && Pads(q) == (if |bytes| >= 3 then 0 else PadCount(|bytes|))
            && forall i :: 0 <= i < 4 ==> !IsSpace(q[i])
  {
    hide Sextet, Pads;
    var n := Group(At(bytes, 0), At(bytes, 1), At(bytes, 2));
    DigitsAreValues(Sextet(n, 18));
    DigitsAreValues(Sextet(n, 12));
    DigitsAreValues(Sextet(n, 6));
    DigitsAreValues(Sextet(n, 0));
    PadsOfFour(Quad(bytes));
  }

  lemma QuadDecodes(bytes: seq<Byte>)
    requires bytes != []
    ensures Octets(Values(Quad(bytes))) == [At(bytes, 0), At(bytes, 1), At(bytes, 2)]
  {
    hide Sextet, Octet, Digit, Joined, Group, DigitValue;
    var n := Group(At(bytes, 0), At(bytes, 1), At(bytes, 2));
    DigitsAreValues(Sextet(n, 18));
    DigitsAreValues(Sextet(n, 12));
    DigitsAreValues(Sextet(n, 6));
    DigitsAreValues(Sextet(n, 0));
    SextetsJoin(At(bytes, 0), At(bytes, 1), At(bytes, 2));
    var v := Values(Quad(bytes));
    assert v[4..] == [];
    assert Joined(v[0], v[1], v[2], v[3]) == n;
  }

  predicate IsClean(text: seq<Byte>) {
    forall i :: 0 <= i < |text| ==> !IsSpace(text[i]) && IsKnown(text[i])
  }

  lemma {:induction false} EncodeIsClean(bytes: seq<Byte>)
    ensures IsClean(Encode(bytes))
    decreases |bytes|
  {
    if bytes != [] {
      hide Quad, IsSpace, IsKnown, Pads;
      EncodeIsClean(Rest(bytes, 3));
      QuadIsClean(bytes);
    }
  }

  lemma {:induction false} EncodedLength(bytes: seq<Byte>)
    ensures |Encode(bytes)| == (|bytes| + 2) / 3 * 4
    decreases |bytes|
  {
    if bytes != [] {
      hide Quad;
      EncodedLength(Rest(bytes, 3));
    }
  }

  function PadCount(length: nat): nat {
    if length % 3 == 0 then 0 else if length % 3 == 1 then 2 else 1
  }

  lemma {:induction false} PadsOfEncode(bytes: seq<Byte>)
    ensures Pads(Encode(bytes)) == PadCount(|bytes|)
    decreases |bytes|
  {
    hide Quad, IsSpace, IsKnown, AllKnown;
    if bytes != [] {
      PadsOfEncode(Rest(bytes, 3));
      QuadIsClean(bytes);
      PadsAppend(Quad(bytes), Encode(Rest(bytes, 3)));
    }
  }

  /** The zeros that fill up the last group. */
  function Fill(length: nat): seq<Byte> {
    if length % 3 == 0 then [] else if length % 3 == 1 then [0, 0] else [0]
  }

  /** Decoding the groups gives the bytes, filled up with zeros. */
  lemma {:induction false} OctetsOfEncode(bytes: seq<Byte>)
    ensures Octets(Values(Encode(bytes))) == bytes + Fill(|bytes|)
    decreases |bytes|
  {
    hide Quad, ValueOf, Octets, Values, Fill, At;
    if bytes != [] {
      OctetsOfEncode(Rest(bytes, 3));
      QuadDecodes(bytes);
      OctetsOfFour(Quad(bytes), Encode(Rest(bytes, 3)));
      FirstThree(bytes);
    } else {
      NoOctets();
    }
  }

  lemma NoOctets()
    ensures Octets([]) == [] && Values([]) == [] && Fill(0) == []
  {
  }

  lemma OctetsOfFour(q: seq<Byte>, rest: seq<Byte>)
    requires |q| == 4
    ensures Octets(Values(q + rest)) == Octets(Values(q)) + Octets(Values(rest))
  {
    hide Joined, Octet, ValueOf, Values;
    assert Values(q + rest)[4..] == Values(rest);
    assert Values(q)[4..] == [];
    var empty: seq<Byte> := [];
    assert Octets(empty) == [];
  }

  lemma FirstThree(bytes: seq<Byte>)
    requires bytes != []
    ensures [At(bytes, 0), At(bytes, 1), At(bytes, 2)] + (Rest(bytes, 3) + Fill(|Rest(bytes, 3)|)) == bytes + Fill(|bytes|)
  {
    if |bytes| >= 3 {
      assert bytes == [bytes[0], bytes[1], bytes[2]] + bytes[3..];
    } else if |bytes| == 2 {
      assert bytes == [bytes[0], bytes[1]];
    } else {
      assert bytes == [bytes[0]];
    }
  }

  /** Every byte sequence comes back, and its encoding has four characters for every three bytes
      begun. */
  lemma DecodeOfEncode(bytes: seq<Byte>)
    ensures Decode(Encode(bytes)) == Decoded(bytes)
    ensures |Encode(bytes)| == (|bytes| + 2) / 3 * 4
  {
    hide Encode, Strip, Octets, Values, Pads, IsKnown, IsSpace;
    EncodeIsClean(bytes);
    StripOfClean(Encode(bytes));
    EncodedLength(bytes);
    PadsOfEncode(bytes);
    OctetsOfEncode(bytes);
    var text, all := Encode(bytes), bytes + Fill(|bytes|);
    assert Octets(Values(text)) == all;
    assert all[..|all| - PadCount(|bytes|)] == bytes;
    assert AllKnown(text);
    assert Pads(text) <= 2;
    assert |text| % 4 == 0;
  }

  /** White space may stand anywhere. */
  lemma WhiteSpaceDoesNotMatter(a: seq<Byte>, space: Byte, b: seq<Byte>)
    requires IsSpace(space)
    ensures Decode(a + [space] + b) == Decode(a + b)
  {
    hide DecodeText, IsSpace;
    StripAppend(a + [space], b);
    StripAppend(a, [space]);
    StripAppend(a, b);
    assert [space][..0] == [];
    assert Strip([space]) == [];
    assert Strip(a) + [] == Strip(a);
  }

  // ---- The decoder is lenient ----

  predicate IsFull(q: seq<Byte>) {
    |q| == 4 && forall i :: 0 <= i < 4 ==> DigitValue(q[i]).Some?
  }

  /** A last group: full, or with one or two characters of padding and no bits left over. */
  predicate IsLast(q: seq<Byte>) {
    || IsFull(q)
    || (&& |q| == 4 && DigitValue(q[0]).Some? && DigitValue(q[1]).Some? && q[3] == PAD
        && ((DigitValue(q[2]).Some? && ValueOf(q[2]) & 3 == 0) || (q[2] == PAD && ValueOf(q[1]) & 15 == 0)))
  }

  predicate IsCanonical(text: seq<Byte>)
    decreases |text|
  {
    if |text| > 4 then IsFull(text[..4]) && IsCanonical(text[4..]) else text == [] || IsLast(text)
  }

  lemma LeftoverBits(b0: Byte, b1: Byte, v0: Byte, v1: Byte, v2: Byte)
    requires v0 < 64 && v1 < 64 && v2 < 64
    ensures Sextet(Group(b0, 0, 0), 12) & 15 == 0 && Sextet(Group(b0, b1, 0), 6) & 3 == 0
    ensures v1 & 15 == 0 ==> Octet(Joined(v0, v1, 0, 0), 8) == 0
    ensures v2 & 3 == 0 ==> Octet(Joined(v0, v1, v2, 0), 0) == 0
    ensures Octet(Joined(v0, v1, 0, 0), 0) == 0
  {
  }

  lemma QuadIsLast(bytes: seq<Byte>)
    requires bytes != []
    ensures IsLast(Quad(bytes)) && (|bytes| >= 3 ==> IsFull(Quad(bytes)))
  {
    hide Sextet, Group, DigitValue, Digit;
    var n := Group(At(bytes, 0), At(bytes, 1), At(bytes, 2));
    DigitsAreValues(Sextet(n, 18));
    DigitsAreValues(Sextet(n, 12));
    DigitsAreValues(Sextet(n, 6));
    DigitsAreValues(Sextet(n, 0));
    LeftoverBits(At(bytes, 0), At(bytes, 1), 0, 0, 0);
  }

  lemma {:induction false} EncodeIsCanonical(bytes: seq<Byte>)
    ensures IsCanonical(Encode(bytes))
    decreases |bytes|
  {
    hide Quad, IsFull, IsLast;
    if bytes != [] {
      var rest := Rest(bytes, 3);
      QuadIsLast(bytes);
      EncodeIsCanonical(rest);
      EncodedLength(rest);
      assert Encode(bytes)[..4] == Quad(bytes) && Encode(bytes)[4..] == Encode(rest);
      if rest == [] { assert Encode(bytes) == Quad(bytes); }
    }
  }

  /** A last group gives the bytes that encode to it. */
  lemma LastQuadBack(q: seq<Byte>)
    requires IsLast(q)
    ensures Pads(q) <= 2 && AllKnown(q) && Quad(Octets(Values(q))[..3 - Pads(q)]) == q
    ensures IsFull(q) ==> Pads(q) == 0
  {
    hide Sextet, Octet, Group, Joined, Digit, Pads;
    var v := Values(q);
    assert v[4..] == [];
    DigitsAreValues(q[0]);
    DigitsAreValues(q[1]);
    DigitsAreValues(q[2]);
    DigitsAreValues(q[3]);
    OctetsSplit(v[0], v[1], v[2], v[3]);
    LeftoverBits(0, 0, v[0], v[1], v[2]);
    PadsOfFour(q);
  }

  lemma {:induction false} CanonicalBack(text: seq<Byte>)
    requires IsCanonical(text)
    ensures |text| % 4 == 0 && AllKnown(text) && Pads(text) <= 2
    ensures Pads(text) <= |Octets(Values(text))| && Encode(Octets(Values(text))[..|Octets(Values(text))| - Pads(text)]) == text
    decreases |text|
  {
    hide IsFull, IsLast, Quad, Octets, Values, Pads, IsKnown;
    if |text| > 4 {
      var q, rest := text[..4], text[4..];
      assert text == q + rest;
      CanonicalBack(rest);
      FullIsLast(q);
      LastQuadBack(q);
      PadsAppend(q, rest);
      OctetsOfFour(q, rest);
      EncodeFromThree(Octets(Values(q)), Octets(Values(rest))[..|Octets(Values(rest))| - Pads(rest)]);
      var all := Octets(Values(text));
      assert all[..|all| - Pads(text)] == Octets(Values(q)) + Octets(Values(rest))[..|Octets(Values(rest))| - Pads(rest)];
      assert Octets(Values(q))[..3] == Octets(Values(q));
    } else if text != [] {
      assert |text| == 4 by { LastHasFour(text); }
      LastQuadBack(text);
      var bytes := Octets(Values(text))[..3 - Pads(text)];
      EncodeSmall(bytes);
    } else {
      NoOctets();
      EmptyText();
    }
  }

  lemma FullIsLast(q: seq<Byte>)
    requires IsFull(q)
    ensures IsLast(q)
  {
  }

  lemma LastHasFour(q: seq<Byte>)
    requires IsLast(q)
    ensures |q| == 4
  {
  }

  lemma EncodeFromThree(three: seq<Byte>, rest: seq<Byte>)
    requires |three| == 3
    ensures Encode(three + rest) == Quad(three) + Encode(rest)
  {
    hide Sextet, Group, Digit;
    assert Rest(three + rest, 3) == rest;
    assert Quad(three + rest) == Quad(three);
  }

  lemma EncodeSmall(bytes: seq<Byte>)
    requires 0 < |bytes| <= 3
    ensures Encode(bytes) == Quad(bytes)
  {
    hide Quad;
    assert Rest(bytes, 3) == [];
    assert Encode([]) == [];
  }

  /** What the decoder accepts is encoded again to the same text exactly when its padding is at the
      end and no bits are left over; it accepts other texts, too. */
  lemma ReencodesExactlyTheCanonical(input: seq<Byte>)
    ensures Decode(input).Decoded? && Encode(Decode(input).bytes) == Strip(input) <==> IsCanonical(Strip(input))
  {
    hide IsCanonical, Encode, Octets, Values, Strip, Pads, IsKnown;
    if IsCanonical(Strip(input)) {
      CanonicalBack(Strip(input));
    } else if Decode(input).Decoded? {
      EncodeIsCanonical(Decode(input).bytes);
    }
  }

  /** `QQ==` and `QR==` are both read as the letter A, and padding may even come first. */
  lemma SpellingsAreNotUnique()
    ensures Decode([81, 81, 61, 61]) == Decode([81, 82, 61, 61]) == Decoded([65])
    ensures Decode([61, 65, 65, 65]).Decoded? && !IsCanonical([61, 65, 65, 65])
  {
    hide Decode, Octet, Joined;
    DecodeFour(81, 81, 61, 61);
    DecodeFour(81, 82, 61, 61);
    DecodeFour(61, 65, 65, 65);
    FourOfQ();
  }

  lemma FourOfQ()
    ensures Octet(Joined(16, 16, 0, 0), 16) == 65 && Octet(Joined(16, 17, 0, 0), 16) == 65
  {
  }

  function PadsAmong(a: Byte, b: Byte, c: Byte, d: Byte): nat {
    (if a == PAD then 1 else 0) + (if b == PAD then 1 else 0) + (if c == PAD then 1 else 0) + (if d == PAD then 1 else 0)
  }

  lemma DecodeFour(a: Byte, b: Byte, c: Byte, d: Byte)
    requires IsKnown(a) && IsKnown(b) && IsKnown(c) && IsKnown(d) && PadsAmong(a, b, c, d) <= 2
    ensures var n := Joined(ValueOf(a), ValueOf(b), ValueOf(c), ValueOf(d));
            Decode([a, b, c, d]) == Decoded([Octet(n, 16), Octet(n, 8), Octet(n, 0)][..3 - PadsAmong(a, b, c, d)])
  {
    hide Joined, Octet, Pads, ValueOf, IsKnown, IsSpace, Octets, Values;
    var q := [a, b, c, d];
    KnownIsNoSpace(a);
    KnownIsNoSpace(b);
    KnownIsNoSpace(c);
    KnownIsNoSpace(d);
    StripOfClean(q);
    PadsOfFour(q);
    QuadOctets(q);
  }

  lemma QuadOctets(q: seq<Byte>)
    requires |q| == 4
    ensures var n := Joined(ValueOf(q[0]), ValueOf(q[1]), ValueOf(q[2]), ValueOf(q[3]));
            Octets(Values(q)) == [Octet(n, 16), Octet(n, 8), Octet(n, 0)]
  {
    hide Joined, Octet, ValueOf;
    assert Values(q)[4..] == [];
  }

  lemma KnownIsNoSpace(c: Byte)
    requires IsKnown(c)
    ensures !IsSpace(c)
  {
  }
}
