/**
 `file://` URIs: printing a path and reading it back. Text is a sequence of characters; the
 percent-encoding works on its UTF-8 bytes (section 2.1 of RFC 3986), and the decoder pushes each
 decoded byte as a character of that number.
 */
module FileUri {
  import opened Options
  import opened Sequences
  import opened Utf8Text
  import opened Text

  // ---- Text and bytes ----

  /** Every byte as the character of that number. */
  function Chars(bytes: seq<Byte>): (s: string)
    ensures |s| == |bytes|
    ensures forall i :: 0 <= i < |s| ==> s[i] == bytes[i] as char
  {
    if bytes == [] then "" else [bytes[0] as char] + Chars(bytes[1..])
  }

  // ---- Printing ----

  predicate IsLetter(b: Byte) {
    65 <= b <= 90 || 97 <= b <= 122
  }

  /** Letters, digits and `-`, `_`, `.`, `~`, `:` stand for themselves. */
  predicate IsPlain(b: Byte) {
    IsLetter(b) || 48 <= b <= 57 || b == 45 || b == 95 || b == 46 || b == 126 || b == 58
  }

  function HexDigit(v: int): Byte
    requires 0 <= v < 16
  {
    if v < 10 then 48 + v else 55 + v
  }

  function EncodedByte(b: Byte): seq<Byte> {
    if IsPlain(b) then [b] else [37, HexDigit(b / 16), HexDigit(b % 16)]
  }

  function PercentEncode(bytes: seq<Byte>): seq<Byte> {
    if bytes == [] then [] else PercentEncode(bytes[..|bytes| - 1]) + EncodedByte(bytes[|bytes| - 1])
  }

  /** The parts between the slashes. */
  function Split(s: string): (parts: seq<string>)
    ensures parts != []
  {
    if s == "" then [""]
    else
      var rest := Split(s[1..]);
      if s[0] == '/' then [""] + rest else [[s[0]] + rest[0]] + rest[1..]
  }

  function JoinEncoded(parts: seq<string>): seq<Byte>
    requires parts != []
  {
    PercentEncode(Utf8(parts[0])) + if |parts| == 1 then [] else [47] + JoinEncoded(parts[1..])
  }

  function PercentEncodePath(path: string): seq<Byte> {
    JoinEncoded(Split(path))
  }

  function ForwardSlashes(s: string): (r: string)
    ensures |r| == |s|
    ensures forall i :: 0 <= i < |s| ==> r[i] == if s[i] == '\\' then '/' else s[i]
  {
    if s == "" then "" else [if s[0] == '\\' then '/' else s[0]] + ForwardSlashes(s[1..])
  }

  predicate StartsWithSlash(s: string) {
    s != "" && s[0] == '/'
  }

  /** The URI of an absolute path. */
  function UriOf(path: string): string {
    var normalized := ForwardSlashes(path);
    (if StartsWithSlash(normalized) then "file://" else "file:///") + Chars(PercentEncodePath(normalized))
  }

  // ---- Reading ----

  function HexValue(b: Byte): Option<int> {
    if 48 <= b <= 57 then Some(b - 48)
    else if 97 <= b <= 102 then Some(b - 97 + 10)
    else if 65 <= b <= 70 then Some(b - 65 + 10)
    else None
  }

  predicate IsEscape(bytes: seq<Byte>) {
    |bytes| > 2 && bytes[0] == 37 && HexValue(bytes[1]).Some? && HexValue(bytes[2]).Some?
  }

  function EscapedByte(hi: Byte, lo: Byte): Byte
    requires HexValue(hi).Some? && HexValue(lo).Some?
  {
    HexValue(hi).value * 16 + HexValue(lo).value
  }

  function PercentDecode(bytes: seq<Byte>): seq<Byte> {
    if bytes == [] then []
    else if IsEscape(bytes) then [EscapedByte(bytes[1], bytes[2])] + PercentDecode(bytes[3..])
    else [bytes[0]] + PercentDecode(bytes[1..])
  }

  function WithoutScheme(s: string): string {
    if "file://" <= s then s[7..] else if "file:" <= s then s[5..] else s
  }

  predicate IsLetterChar(c: char) {
    'A' <= c <= 'Z' || 'a' <= c <= 'z'
  }

  /** A drive, as in `D:/path`. */
  predicate StartsWithDrive(s: string) {
    |s| >= 2 && IsLetterChar(s[0]) && s[1] == ':'
  }

  function LocalPath(uri: string): Option<string> {
    var trimmed := Trim(uri);
    if trimmed == "" then None
    else
      var normalized := ForwardSlashes(Chars(PercentDecode(Utf8(WithoutScheme(trimmed)))));
      var path := if StartsWithSlash(normalized) && StartsWithDrive(normalized[1..]) then normalized[1..] else normalized;
      if path == "" then None else Some(path)
  }

  // ---- The loops ----

  method EncodeSegment(value: string) returns (encoded: seq<Byte>)
    ensures encoded == PercentEncode(Utf8(value))
  {
    var bytes := Utf8(value);
    encoded := [];
    for i := 0 to |bytes|
      invariant encoded == PercentEncode(bytes[..i])
    {
      assert bytes[..i + 1][..i] == bytes[..i];
      if IsPlain(bytes[i]) {
        encoded := encoded + [bytes[i]];
      } else {
        encoded := encoded + [37, HexDigit(bytes[i] / 16), HexDigit(bytes[i] % 16)];
      }
    }
    assert bytes[..|bytes|] == bytes;
  }

  method DecodePath(path: string) returns (out: string)
    ensures out == Chars(PercentDecode(Utf8(path)))
  {
    hide HexValue, EscapedByte, PercentDecode, Chars;
    var bytes := Utf8(path);
    ghost var done: seq<Byte> := [];
    out := "";
    var index := 0;
    while index < |bytes|
      invariant 0 <= index <= |bytes|
      invariant done + PercentDecode(bytes[index..]) == PercentDecode(bytes)
      invariant out == Chars(done)
    {
      var next, at := bytes[index], index;
      index := index + 1;
      if next == 37 && at + 2 < |bytes| && HexValue(bytes[at + 1]).Some? && HexValue(bytes[at + 2]).Some? {
        next := EscapedByte(bytes[at + 1], bytes[at + 2]);
        index := at + 3;
      }
      DecodeNext(bytes, at);
      assert PercentDecode(bytes[at..]) == [next] + PercentDecode(bytes[index..]) by {
        IsEscapeAt(bytes, at);
      }
      Regroup(done, [next], PercentDecode(bytes[index..]));
      CharsPush(done, next);
      done := done + [next];
      out := out + [next as char];
    }
    assert bytes[index..] == [] && done + [] == done;
    DecodeEnd();
  }

  lemma CharsPush(bytes: seq<Byte>, b: Byte)
    ensures Chars(bytes + [b]) == Chars(bytes) + [b as char]
  {
    hide Chars;
  }

  lemma DecodeEnd()
    ensures PercentDecode([]) == []
  {
  }

  lemma IsEscapeAt(bytes: seq<Byte>, index: nat)
    requires index < |bytes|
    ensures IsEscape(bytes[index..])
            <==> bytes[index] == 37 && index + 2 < |bytes| && HexValue(bytes[index + 1]).Some? && HexValue(bytes[index + 2]).Some?
  {
    hide HexValue;
  }

  lemma DecodeNext(bytes: seq<Byte>, index: nat)
    requires index < |bytes|
    ensures PercentDecode(bytes[index..])
            == if IsEscape(bytes[index..]) then [EscapedByte(bytes[index + 1], bytes[index + 2])] + PercentDecode(bytes[index + 3..])
               else [bytes[index]] + PercentDecode(bytes[index + 1..])
  {
    hide HexValue, EscapedByte;
    if |bytes[index..]| > 2 { assert bytes[index..][3..] == bytes[index + 3..]; }
    assert bytes[index..][1..] == bytes[index + 1..];
  }

  // ---- Encoding and decoding bytes ----

  /** Encoding as one piece: slashes stay, everything else byte by byte. */
  function EncodeAll(bytes: seq<Byte>): seq<Byte> {
    if bytes == [] then [] else (if bytes[0] == 47 then [47] else EncodedByte(bytes[0])) + EncodeAll(bytes[1..])
  }

  lemma {:induction false} PercentEncodeAppend(a: seq<Byte>, b: seq<Byte>)
    ensures PercentEncode(a + b) == PercentEncode(a) + PercentEncode(b)
  {
    if b == [] {
      assert a + b == a;
    } else {
      assert (a + b)[..|a + b| - 1] == a + b[..|b| - 1];
      PercentEncodeAppend(a, b[..|b| - 1]);
    }
  }

  lemma {:induction false} EncodeAllAppend(a: seq<Byte>, b: seq<Byte>)
    ensures EncodeAll(a + b) == EncodeAll(a) + EncodeAll(b)
  {
    hide EncodedByte;
    if a == [] {
      assert a + b == b;
    } else {
      assert (a + b)[1..] == a[1..] + b;
      EncodeAllAppend(a[1..], b);
    }
  }

  lemma {:induction false} PercentEncodeIsEncodeAll(bytes: seq<Byte>)
    requires forall i :: 0 <= i < |bytes| ==> bytes[i] != 47
    ensures PercentEncode(bytes) == EncodeAll(bytes)
  {
    hide EncodedByte;
    if bytes != [] {
      var last := |bytes| - 1;
      PercentEncodeIsEncodeAll(bytes[..last]);
      assert bytes == bytes[..last] + [bytes[last]];
      EncodeAllAppend(bytes[..last], [bytes[last]]);
      assert EncodeAll([bytes[last]]) == EncodedByte(bytes[last]);
    }
  }

  lemma NoSlashBytes(c: char)
    requires c != '/'
    ensures forall i :: 0 <= i < |Utf8Char(c)| ==> Utf8Char(c)[i] != 47
  {
  }

  lemma JoinAfterSlash(parts: seq<string>)
    requires parts != []
    ensures JoinEncoded([""] + parts) == [47] + JoinEncoded(parts)
  {
    hide PercentEncode, Utf8;
    EmptyEncodings();
    assert ([""] + parts)[1..] == parts;
  }

  lemma JoinAfterChar(c: char, parts: seq<string>)
    requires parts != []
    ensures JoinEncoded([[c] + parts[0]] + parts[1..]) == PercentEncode(Utf8Char(c)) + JoinEncoded(parts)
  {
    hide PercentEncode, Utf8Char, Utf8, JoinEncoded;
    var longer := [[c] + parts[0]] + parts[1..];
    assert longer[1..] == parts[1..];
    Utf8Next(c, parts[0]);
    PercentEncodeAppend(Utf8Char(c), Utf8(parts[0]));
    Regroup(PercentEncode(Utf8Char(c)), PercentEncode(Utf8(parts[0])), if |parts| == 1 then [] else [47] + JoinEncoded(parts[1..]));
    JoinUnfolds(longer);
    JoinUnfolds(parts);
  }

  lemma JoinUnfolds(parts: seq<string>)
    requires parts != []
    ensures JoinEncoded(parts) == PercentEncode(Utf8(parts[0])) + if |parts| == 1 then [] else [47] + JoinEncoded(parts[1..])
  {
    hide PercentEncode, Utf8;
  }

  /** Splitting at the slashes, encoding the parts and joining them leaves just the slashes alone. */
  lemma {:induction false} EncodePathIsEncodeAll(path: string)
    ensures PercentEncodePath(path) == EncodeAll(Utf8(path))
  {
    hide EncodedByte, Utf8Char, PercentEncode, EncodeAll, JoinEncoded;
    EmptyEncodings();
    if path != "" {
      EncodePathIsEncodeAll(path[1..]);
      EncodeAllAppend(Utf8Char(path[0]), Utf8(path[1..]));
      if path[0] == '/' {
        SlashEncodes();
        JoinAfterSlash(Split(path[1..]));
      } else {
        NoSlashBytes(path[0]);
        PercentEncodeIsEncodeAll(Utf8Char(path[0]));
        JoinAfterChar(path[0], Split(path[1..]));
      }
    }
  }

  lemma EmptyEncodings()
    ensures PercentEncode([]) == [] && EncodeAll([]) == [] && Utf8("") == [] && JoinEncoded([""]) == []
  {
  }

  lemma SlashEncodes()
    ensures Utf8Char('/') == [47] && EncodeAll([47]) == [47]
  {
  }

  lemma HexRoundTrip(b: Byte)
    ensures HexValue(HexDigit(b / 16)) == Some(b / 16) && HexValue(HexDigit(b % 16)) == Some(b % 16)
  {
  }

  lemma DecodeEncodedByte(b: Byte, rest: seq<Byte>)
    ensures PercentDecode((if b == 47 then [47] else EncodedByte(b)) + rest) == [b] + PercentDecode(rest)
  {
    hide HexValue, HexDigit;
    HexRoundTrip(b);
    var text := (if b == 47 then [47] else EncodedByte(b)) + rest;
    if b == 47 || IsPlain(b) {
      assert text[1..] == rest;
    } else {
      assert text[3..] == rest;
    }
  }

  lemma {:induction false} DecodeOfEncodeAll(bytes: seq<Byte>)
    ensures PercentDecode(EncodeAll(bytes)) == bytes
  {
    hide EncodedByte;
    if bytes != [] {
      DecodeOfEncodeAll(bytes[1..]);
      DecodeEncodedByte(bytes[0], EncodeAll(bytes[1..]));
    }
  }

  /** For every path: read as bytes, what is decoded is the UTF-8 of the path that was encoded. */
  lemma DecodeInvertsEncode(path: string)
    ensures PercentDecode(PercentEncodePath(path)) == Utf8(path)
  {
    hide PercentDecode, PercentEncodePath, Utf8, EncodeAll;
    EncodePathIsEncodeAll(path);
    DecodeOfEncodeAll(Utf8(path));
  }

  // ---- Round trip of paths ----

  lemma {:induction false} EncodeAllIsPrintable(bytes: seq<Byte>)
    ensures forall i :: 0 <= i < |EncodeAll(bytes)| ==> 37 <= EncodeAll(bytes)[i] < 127
  {
    if bytes != [] { EncodeAllIsPrintable(bytes[1..]); }
  }

  lemma {:induction false} Utf8OfAscii(s: string)
    ensures |Utf8(s)| >= |s|
    ensures |Utf8(s)| == |s| <==> AllAscii(s)
    ensures AllAscii(s) ==> Chars(Utf8(s)) == s
  {
    hide Utf8Char;
    if s != "" {
      Utf8OfAscii(s[1..]);
      assert AllAscii(s) <==> IsAscii(s[0]) && AllAscii(s[1..]);
      assert s == [s[0]] + s[1..];
    }
  }

  /** Read as characters, the UTF-8 of a text is the text again exactly when the text is ASCII. */
  lemma CharsOfUtf8(s: string)
    ensures Chars(Utf8(s)) == s <==> AllAscii(s)
  {
    hide Utf8, Chars;
    Utf8OfAscii(s);
  }

  lemma {:induction false} Utf8OfChars(bytes: seq<Byte>)
    requires forall i :: 0 <= i < |bytes| ==> bytes[i] < 128
    ensures Utf8(Chars(bytes)) == bytes
  {
    hide Utf8Char;
    if bytes != [] {
      Utf8OfChars(bytes[1..]);
      assert Chars(bytes)[1..] == Chars(bytes[1..]);
    }
  }

  /** What `LocalPath` decodes from a printed URI, before it looks for a drive. */
  function ReadBack(path: string): string {
    var n := ForwardSlashes(path);
    (if StartsWithSlash(n) then "" else "/") + Chars(Utf8(n))
  }

  lemma UriIsTrimmed(path: string)
    ensures Trim(UriOf(path)) == UriOf(path)
    ensures WithoutScheme(UriOf(path))
            == (if StartsWithSlash(ForwardSlashes(path)) then "" else "/") + Chars(PercentEncodePath(ForwardSlashes(path)))
  {
    hide PercentEncodePath, EncodeAll, Utf8, Chars, ForwardSlashes;
    var n := ForwardSlashes(path);
    EncodePathIsEncodeAll(n);
    EncodeAllIsPrintable(Utf8(n));
    var uri := UriOf(path);
    assert uri[0] == 'f';
    assert uri[|uri| - 1] as int >= 37 && uri[|uri| - 1] as int < 127;
    if !StartsWithSlash(n) { assert uri[7..] == "/" + Chars(PercentEncodePath(n)); }
  }

  lemma UriDecodes(path: string)
    ensures Chars(PercentDecode(Utf8(WithoutScheme(UriOf(path))))) == ReadBack(path)
  {
    hide PercentEncodePath, EncodeAll, PercentDecode, Utf8, Chars, UriOf, WithoutScheme;
    var n := ForwardSlashes(path);
    var enc := PercentEncodePath(n);
    UriIsTrimmed(path);
    EncodePathIsEncodeAll(n);
    EncodeAllIsPrintable(Utf8(n));
    Utf8OfChars(enc);
    DecodeInvertsEncode(n);
    if !StartsWithSlash(n) {
      Utf8Append("/", Chars(enc));
      Utf8OfSlash();
      DecodeSlash(enc);
      assert Utf8("/" + Chars(enc)) == [47] + enc;
      assert PercentDecode([47] + enc) == [47] + Utf8(n);
      assert ReadBack(path) == "/" + Chars(Utf8(n));
    } else {
      assert "" + Chars(enc) == Chars(enc);
      assert "" + Chars(Utf8(n)) == Chars(Utf8(n));
    }
  }

  lemma Utf8OfSlash()
    ensures Utf8("/") == [47]
  {
    assert "/"[1..] == "";
  }

  lemma DecodeSlash(rest: seq<Byte>)
    ensures PercentDecode([47] + rest) == [47] + PercentDecode(rest)
    ensures Chars([47] + PercentDecode(rest)) == "/" + Chars(PercentDecode(rest))
  {
    hide HexValue;
    assert ([47] + rest)[1..] == rest;
    assert ([47] + PercentDecode(rest))[1..] == PercentDecode(rest);
    assert 47 as char == '/';
  }

  predicate HasBackslash(s: string) {
    exists i :: 0 <= i < |s| && s[i] == '\\'
  }

  lemma NoBackslashBytes(c: char)
    requires c != '\\'
    ensures forall i :: 0 <= i < |Utf8Char(c)| ==> Utf8Char(c)[i] != 92
  {
  }

  lemma {:induction false} Utf8WithoutBackslash(s: string)
    requires forall i :: 0 <= i < |s| ==> s[i] != '\\'
    ensures forall i :: 0 <= i < |Utf8(s)| ==> Utf8(s)[i] != 92
  {
    hide Utf8Char;
    if s != "" {
      NoBackslashBytes(s[0]);
      Utf8WithoutBackslash(s[1..]);
    }
  }

  lemma ReadBackHasNoBackslash(path: string)
    ensures ForwardSlashes(ReadBack(path)) == ReadBack(path)
  {
    hide Utf8, Chars, ForwardSlashes;
    var n := ForwardSlashes(path);
    Utf8WithoutBackslash(n);
    var back := ReadBack(path);
    assert forall i :: 0 <= i < |Utf8(n)| ==> Chars(Utf8(n))[i] != '\\';
    assert forall i :: 0 <= i < |back| ==> back[i] != '\\';
  }

  /** Reading a printed path gives its decoded text, without the slash before a drive. */
  lemma ReadingAPrintedPath(path: string)
    ensures var back := ReadBack(path);
            && back != "" && back[0] == '/'
            && LocalPath(UriOf(path)) == Some(if StartsWithDrive(back[1..]) then back[1..] else back)
  {
    hide PercentEncodePath, EncodeAll, PercentDecode, Chars, WithoutScheme, ForwardSlashes, Trim;
    UriIsTrimmed(path);
    UriDecodes(path);
    ReadBackHasNoBackslash(path);
    SlashComesFirst(ForwardSlashes(path));
    assert UriOf(path) != "";
    var back := ReadBack(path);
    assert StartsWithSlash(back);
  }

  lemma SlashComesFirst(n: string)
    ensures StartsWithSlash(n) ==> Utf8(n) != [] && Utf8(n)[0] == 47
  {
  }

  predicate ReadsBack(n: string) {
    AllAscii(n) && if StartsWithSlash(n) then !StartsWithDrive(n[1..]) else StartsWithDrive(n)
  }

  /** Printing and reading a path gives the path with forward slashes exactly when it is ASCII and
      either starts with a slash that no drive follows or starts with a drive. */
  lemma RoundTripWithForwardSlashes(path: string)
    ensures LocalPath(UriOf(path)) == Some(ForwardSlashes(path)) <==> ReadsBack(ForwardSlashes(path))
  {
    hide PercentEncodePath, Utf8, Chars, ForwardSlashes, LocalPath, UriOf, AllAscii;
    var n := ForwardSlashes(path);
    ReadingAPrintedPath(path);
    CharsOfUtf8(n);
    var back := ReadBack(path);
    assert StartsWithSlash(n) ==> back == Chars(Utf8(n));
    assert !StartsWithSlash(n) ==> back[1..] == Chars(Utf8(n));
  }

  /** The path itself comes back exactly when, besides, it has no backslash. */
  lemma RoundTrip(path: string)
    ensures LocalPath(UriOf(path)) == Some(path) <==> ReadsBack(path) && !HasBackslash(path)
  {
    hide LocalPath, UriOf, ReadsBack, ReadBack;
    RoundTripWithForwardSlashes(path);
    assert !HasBackslash(path) ==> ForwardSlashes(path) == path;
    if HasBackslash(path) {
      ReadPathsHaveNoBackslash(path);
    }
  }

  lemma ReadPathsHaveNoBackslash(path: string)
    ensures LocalPath(UriOf(path)).Some? && !HasBackslash(LocalPath(UriOf(path)).value)
  {
    hide LocalPath, UriOf;
    ReadingAPrintedPath(path);
    ReadBackHasNoBackslash(path);
    var back := ReadBack(path);
    assert forall i :: 0 <= i < |back| ==> back[i] == ForwardSlashes(back)[i];
  }
}
