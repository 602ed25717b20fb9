/** Reading texts that were not printed here: plain paths, the short scheme, spaces around, odd escapes. */
module FileUriReading {
  import opened Options
  import opened Utf8Text
  import opened Text
  import opened FileUri

  // ---- Spaces around a text ----

  lemma {:induction false} TrimStartCuts(s: string) returns (n: nat)
    ensures n <= |s| && TrimStart(s) == s[n..] && IsBlank(s[..n])
  {
    n := 0;
    if s != "" && IsWhitespace(s[0]) {
      n := TrimStartCuts(s[1..]);
      n := n + 1;
      assert s[..n] == [s[0]] + s[1..][..n - 1];
    }
  }

  lemma {:induction false} TrimEndCuts(s: string) returns (n: nat)
    ensures n <= |s| && TrimEnd(s) == s[..n] && IsBlank(s[n..])
    ensures n > 0 ==> !IsWhitespace(s[n - 1])
  {
    n := |s|;
    if s != "" && IsWhitespace(s[|s| - 1]) {
      n := TrimEndCuts(s[..|s| - 1]);
      assert s[n..] == s[..|s| - 1][n..] + [s[|s| - 1]];
    }
  }

  /** Trimming takes away blanks on both sides, and all of them. */
  lemma TrimExactly(s: string) returns (i: nat, j: nat)
    ensures i <= j <= |s| && Trim(s) == s[i..j] && IsBlank(s[..i]) && IsBlank(s[j..])
    ensures i < j ==> !IsWhitespace(s[i]) && !IsWhitespace(s[j - 1])
  {
    hide IsWhitespace;
    i := TrimStartCuts(s);
    var n := TrimEndCuts(s[i..]);
    j := i + n;
    assert s[i..][..n] == s[i..j] && s[i..][n..] == s[j..];
    if n > 0 { assert s[i] == TrimStart(s)[0] && s[j - 1] == s[i..][n - 1]; }
  }

  // ---- No path ----

  lemma DecodedStaysNonEmpty(s: string)
    ensures Chars(PercentDecode(Utf8(s))) == "" <==> s == ""
  {
    hide HexValue, EscapedByte, Utf8Char;
    assert Utf8(s) == [] <==> s == "";
    assert PercentDecode(Utf8(s)) == [] <==> Utf8(s) == [];
  }

  /** There is no path exactly when nothing, or just the scheme, is given. */
  lemma NoPathExactly(uri: string)
    ensures LocalPath(uri).None? <==> Trim(uri) == "" || Trim(uri) == "file:" || Trim(uri) == "file://"
  {
    hide Trim, Utf8, PercentDecode, Chars;
    var stripped := WithoutScheme(Trim(uri));
    DecodedStaysNonEmpty(stripped);
    assert stripped == "" <==> Trim(uri) == "" || Trim(uri) == "file:" || Trim(uri) == "file://";
  }

  // ---- Plain paths ----

  predicate NoEscapes(bytes: seq<Byte>) {
    forall i :: 0 <= i < |bytes| ==> bytes[i] != 37
  }

  lemma {:induction false} NothingToDecode(bytes: seq<Byte>)
    requires NoEscapes(bytes)
    ensures PercentDecode(bytes) == bytes
  {
    hide HexValue, EscapedByte;
    if bytes != [] { NothingToDecode(bytes[1..]); }
  }

  lemma {:induction false} AsciiWithoutPercent(s: string)
    requires AllAscii(s) && '%' !in s
    ensures NoEscapes(Utf8(s))
  {
    hide Utf8Char;
    if s != "" {
      assert s[0] != '%' && '%' as int == 37 && IsAscii(s[0]);
      AsciiWithoutPercent(s[1..]);
    }
  }

  /** The path meant by a decoded text: forward slashes, and no slash before a drive. */
  function Meant(s: string): string {
    var normalized := ForwardSlashes(s);
    if |s| > 0 && normalized[0] == '/' && StartsWithDrive(normalized[1..]) then normalized[1..] else normalized
  }

  /** An ASCII path without percent signs stands for itself, with or without either spelling of the scheme. */
  lemma PlainPathsExactly(path: string)
    requires AllAscii(path) && '%' !in path && path != "" && Trim(path) == path && !("file:" <= path)
    ensures LocalPath(path) == Some(Meant(path)) == LocalPath("file://" + path)
    ensures !("//" <= path) ==> LocalPath("file:" + path) == Some(Meant(path))
  {
    hide Trim, Utf8, PercentDecode, Chars, ForwardSlashes;
    AsciiWithoutPercent(path);
    NothingToDecode(Utf8(path));
    CharsOfUtf8(path);
    TrimWithScheme("file://", path);
    TrimWithScheme("file:", path);
    assert ("file://" + path)[7..] == path && ("file:" + path)[5..] == path;
    if "file://" <= "file:" + path {
      assert ("file:" + path)[5..7] == "//";
      assert path[..2] == "//";
    }
  }

  lemma TrimWithScheme(scheme: string, path: string)
    requires path != "" && Trim(path) == path && scheme != "" && !IsWhitespace(scheme[0])
    ensures Trim(scheme + path) == scheme + path
  {
    hide IsWhitespace;
    var i, j := TrimExactly(path);
    assert i < j && path[0] == Trim(path)[0] == path[i] && path[|path| - 1] == Trim(path)[|Trim(path)| - 1] == path[j - 1];
    var s := scheme + path;
    assert s[|s| - 1] == path[|path| - 1] && s[0] == scheme[0];
    assert TrimStart(s) == s && TrimEnd(s) == s;
  }

  // ---- Escapes ----

  function LowerHex(v: int): Byte
    requires 0 <= v < 16
  {
    if v < 10 then 48 + v else 87 + v
  }

  lemma HexDigitsExactly(v: int)
    requires 0 <= v < 16
    ensures HexValue(HexDigit(v)) == Some(v) && HexValue(LowerHex(v)) == Some(v)
  {
  }

  /** An escape is a percent sign and two hexadecimal digits of either case; it stands for its byte. */
  lemma EscapesExactly(b: Byte, lower: bool, after: seq<Byte>)
    ensures var hi, lo := b / 16, b % 16;
            PercentDecode([37, if lower then LowerHex(hi) else HexDigit(hi), if lower then LowerHex(lo) else HexDigit(lo)] + after)
            == [b] + PercentDecode(after)
  {
    hide HexValue, HexDigit, LowerHex;
    var hi, lo := b / 16, b % 16;
    HexDigitsExactly(hi);
    HexDigitsExactly(lo);
    var escape := [37, if lower then LowerHex(hi) else HexDigit(hi), if lower then LowerHex(lo) else HexDigit(lo)];
    assert (escape + after)[3..] == after;
  }

  predicate IsHex(b: Byte) {
    exists v :: 0 <= v < 16 && (b == LowerHex(v) || b == HexDigit(v))
  }

  /** A percent sign without two such digits after it stands for itself. */
  lemma OtherPercentSigns(after: seq<Byte>)
    requires !(|after| >= 2 && IsHex(after[0]) && IsHex(after[1]))
    ensures PercentDecode([37] + after) == [37] + PercentDecode(after)
  {
    hide HexValue, HexDigit, LowerHex, EscapedByte;
    assert ([37] + after)[1..] == after;
    if |after| >= 2 {
      OnlyHexDigits(after[0]);
      OnlyHexDigits(after[1]);
    }
  }

  lemma OnlyHexDigits(b: Byte)
    ensures HexValue(b).Some? ==> 0 <= HexValue(b).value < 16 && (b == LowerHex(HexValue(b).value) || b == HexDigit(HexValue(b).value))
  {
  }

  /** Both, wherever in a text it stands: what has no percent sign before it stays. */
  lemma {:induction false} DecodeAfterPlain(plain: seq<Byte>, rest: seq<Byte>)
    requires NoEscapes(plain)
    ensures PercentDecode(plain + rest) == plain + PercentDecode(rest)
  {
    hide HexValue, EscapedByte;
    if plain == [] {
      assert plain + rest == rest;
    } else {
      assert (plain + rest)[1..] == plain[1..] + rest;
      DecodeAfterPlain(plain[1..], rest);
    }
  }

  // ---- The printed form ----

  predicate IsUnreserved(c: char) {
    'a' <= c <= 'z' || 'A' <= c <= 'Z' || '0' <= c <= '9' || c in "-_.~:/"
  }

  lemma UnreservedByte(c: char)
    requires IsUnreserved(c)
    ensures IsAscii(c) && EncodeAll(Utf8Char(c)) == [c as int] && (c as int) as char == c
  {
    hide HexDigit;
    PlainIsUnreserved(c as int);
    assert [c as int][1..] == [];
  }

  /** The unreserved characters and the slash are printed as they are. */
  lemma {:induction false} UnreservedIsKept(s: string)
    requires forall i :: 0 <= i < |s| ==> IsUnreserved(s[i])
    ensures Chars(EncodeAll(Utf8(s))) == s
  {
    hide Utf8Char, EncodeAll, Chars, IsUnreserved;
    EmptyEncodings();
    if s != "" {
      UnreservedIsKept(s[1..]);
      UnreservedByte(s[0]);
      EncodeAllAppend(Utf8Char(s[0]), Utf8(s[1..]));
      assert Chars([s[0] as int] + EncodeAll(Utf8(s[1..]))) == s;
    }
  }

  /** A URI is printable: only those characters and escapes with capital digits stand in it. */
  lemma {:induction false} EscapesOnly(bytes: seq<Byte>, k: nat)
    requires k < |EncodeAll(bytes)|
    ensures var uri := EncodeAll(bytes);
            || IsUnreserved(uri[k] as char)
            || (uri[k] == 37 && k + 2 < |uri| && IsHex(uri[k + 1]) && IsHex(uri[k + 2]) && !('a' <= uri[k + 1] as char) && !('a' <= uri[k + 2] as char))
  {
    hide LowerHex, HexDigit, IsUnreserved;
    var first := if bytes[0] == 47 then [47] else EncodedByte(bytes[0]);
    var uri := EncodeAll(bytes);
    assert uri == first + EncodeAll(bytes[1..]);
    PlainIsUnreserved(bytes[0]);
    if k >= |first| {
      EscapesOnly(bytes[1..], k - |first|);
    } else {
      CapitalDigits(bytes[0] / 16);
      CapitalDigits(bytes[0] % 16);
    }
  }

  lemma PlainIsUnreserved(b: Byte)
    ensures IsPlain(b) || b == 47 <==> IsUnreserved(b as char)
  {
  }

  lemma CapitalDigits(v: int)
    requires 0 <= v < 16
    ensures IsHex(HexDigit(v)) && HexDigit(v) < 97 && IsUnreserved(HexDigit(v) as char)
  {
  }

  /** A path of such characters is its own URI, after the scheme. */
  lemma UnreservedPathsExactly(path: string)
    requires forall i :: 0 <= i < |path| ==> IsUnreserved(path[i])
    ensures UriOf(path) == (if StartsWithSlash(path) then "file://" else "file:///") + path
  {
    hide PercentEncodePath, EncodeAll, Utf8, Chars;
    assert ForwardSlashes(path) == path;
    EncodePathIsEncodeAll(path);
    UnreservedIsKept(path);
  }
}
