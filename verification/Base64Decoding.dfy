/** What the decoder answers for every input: which error, and which bytes. */
module Base64Decoding {
  import opened Options
  import opened Base64

  /** Spaces and the control characters from 9 to 13 but the vertical tab. */
  predicate IsBlank(c: Byte) {
    c == 32 || (9 <= c && c <= 13 && c != 11)
  }

  /** How many characters are not white space, and how many are padding. */
  function Characters(input: seq<Byte>): nat {
    if input == [] then 0 else Characters(input[..|input| - 1]) + if IsBlank(input[|input| - 1]) then 0 else 1
  }

  function Padding(input: seq<Byte>): nat {
    if input == [] then 0 else Padding(input[..|input| - 1]) + if input[|input| - 1] == PAD then 1 else 0
  }

  predicate HasUnknown(input: seq<Byte>) {
    exists k :: 0 <= k < |input| && !IsBlank(input[k]) && !IsKnown(input[k])
  }

  /** Every padding character as the letter A, wherever it stands. */
  function Unpadded(input: seq<Byte>): (r: seq<Byte>)
    ensures |r| == |input| && forall i :: 0 <= i < |r| ==> r[i] == if input[i] == PAD then 65 else input[i]
  {
    if input == [] then []
    else Unpadded(input[..|input| - 1]) + [if input[|input| - 1] == PAD then 65 else input[|input| - 1]]
  }

  lemma StripLast(input: seq<Byte>)
    requires input != []
    ensures var init, c := input[..|input| - 1], input[|input| - 1];
            Strip(input) == if IsBlank(c) then Strip(init) else Strip(init) + [c]
  {
    hide IsKnown;
    assert Strip(input[..|input| - 1]) + [] == Strip(input[..|input| - 1]);
  }

  lemma {:induction false} StripCounts(input: seq<Byte>)
    ensures |Strip(input)| == Characters(input) && Pads(Strip(input)) == Padding(input)
  {
    hide IsSpace, IsKnown, IsBlank, Pads, Strip;
    EmptyText();
    PadIsNoSpace();
    if input != [] {
      var init, c := input[..|input| - 1], input[|input| - 1];
      StripCounts(init);
      StripLast(input);
      TextPush(Strip(init), c);
    }
  }

  lemma {:induction false} StripKeepsUnknown(input: seq<Byte>)
    ensures AllKnown(Strip(input)) <==> !HasUnknown(input)
  {
    hide IsSpace, IsKnown, IsBlank, AllKnown, HasUnknown, Strip;
    EmptyText();
    NothingUnknown();
    if input != [] {
      var init, c := input[..|input| - 1], input[|input| - 1];
      StripKeepsUnknown(init);
      StripLast(input);
      TextPush(Strip(init), c);
      UnknownPush(init, c);
      assert init + [c] == input;
    }
  }

  lemma UnknownPush(init: seq<Byte>, c: Byte)
    ensures HasUnknown(init + [c]) <==> HasUnknown(init) || (!IsBlank(c) && !IsKnown(c))
  {
    hide IsBlank, IsKnown;
    var input := init + [c];
    assert input[|init|] == c;
    assert forall k :: 0 <= k < |init| ==> input[k] == init[k];
  }

  lemma NothingUnknown()
    ensures !HasUnknown([])
  {
  }

  lemma PadIsNoSpace()
    ensures !IsSpace(PAD) && !IsBlank(PAD) && !IsSpace(65) && IsKnown(PAD) && IsKnown(65) && ValueOf(65) == ValueOf(PAD)
  {
  }

  lemma {:induction false} UnpaddedStrips(input: seq<Byte>)
    ensures Strip(Unpadded(input)) == Unpadded(Strip(input))
  {
    hide IsSpace;
    PadIsNoSpace();
    if input != [] {
      var init, c := input[..|input| - 1], input[|input| - 1];
      UnpaddedStrips(init);
      assert Unpadded(input)[..|init|] == Unpadded(init);
      assert (Strip(init) + [c])[..|Strip(init)|] == Strip(init);
    }
  }

  lemma {:induction false} UnpaddedPads(text: seq<Byte>)
    ensures Pads(Unpadded(text)) == 0
  {
    if text != [] {
      UnpaddedPads(text[..|text| - 1]);
      assert Unpadded(text)[..|text| - 1] == Unpadded(text[..|text| - 1]);
    }
  }

  lemma UnpaddedReadsTheSame(text: seq<Byte>)
    ensures Values(Unpadded(text)) == Values(text)
    ensures AllKnown(Unpadded(text)) <==> AllKnown(text)
  {
    hide IsKnown, ValueOf, Unpadded;
    PadIsNoSpace();
    var plain := Unpadded(text);
    assert AllKnown(text) <==> forall i :: 0 <= i < |plain| ==> IsKnown(text[i]);
  }

  lemma {:induction false} FullGroupsAreCanonical(text: seq<Byte>)
    requires |text| % 4 == 0 && forall i :: 0 <= i < |text| ==> DigitValue(text[i]).Some?
    ensures IsCanonical(text)
    decreases |text|
  {
    hide DigitValue;
    if |text| > 4 { FullGroupsAreCanonical(text[4..]); }
  }

  /** The error is that of the first condition that fails: known characters only, whole groups of four, at most
      two padding characters. Otherwise padding counts as the letter A, wherever it stands: the text with these
      letters is the encoding of some bytes, and of these, one fewer for each padding character is the answer. */
  lemma DecodesExactly(input: seq<Byte>)
    ensures Decode(input) == InvalidData <==> HasUnknown(input)
    ensures Decode(input) == BadLength <==> !HasUnknown(input) && Characters(input) % 4 != 0
    ensures Decode(input) == BadPadding <==> !HasUnknown(input) && Characters(input) % 4 == 0 && Padding(input) > 2
    ensures Decode(input).Decoded? ==>
              var r := Decode(Unpadded(input));
              && r.Decoded? && Encode(r.bytes) == Strip(Unpadded(input))
              && Padding(input) <= |r.bytes| && Decode(input).bytes == r.bytes[..|r.bytes| - Padding(input)]
  {
    hide Strip, IsKnown, AllKnown, Values, Octets, Pads, Unpadded, HasUnknown, Characters, Padding, IsCanonical, Encode;
    StripCounts(input);
    StripKeepsUnknown(input);
    if Decode(input).Decoded? {
      var text := Strip(input);
      var plain := Unpadded(text);
      UnpaddedStrips(input);
      UnpaddedPads(text);
      UnpaddedReadsTheSame(text);
      OnlyDigits(plain);
      FullGroupsAreCanonical(plain);
      ReencodesExactlyTheCanonical(Unpadded(input));
    }
  }

  lemma {:induction false} OnlyDigits(text: seq<Byte>)
    requires AllKnown(text) && Pads(text) == 0
    ensures forall i :: 0 <= i < |text| ==> DigitValue(text[i]).Some?
  {
    hide DigitValue;
    if text != [] {
      var init := text[..|text| - 1];
      assert forall i :: 0 <= i < |init| ==> IsKnown(text[i]);
      OnlyDigits(init);
      assert text[|text| - 1] != PAD && IsKnown(text[|text| - 1]);
    }
  }
}
