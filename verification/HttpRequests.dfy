/**
 A request as a client prints it, and that the reader understands it: whatever method, path and body
 were printed are what is read, however the bytes are split into reads.
 */
module HttpRequests {
  import opened Options
  import opened Utf8Text
  import opened Text
  import opened HttpReader

  /** Printable ASCII, as in tokens and request targets. */
  predicate IsPlainChar(c: char) {
    '!' <= c <= '~'
  }

  predicate IsPlain(s: string) {
    forall i :: 0 <= i < |s| ==> IsPlainChar(s[i])
  }

  /** A method that would not be taken for the length field. */
  predicate IsVerb(s: string) {
    s != "" && IsPlain(s) && !(LENGTH_FIELD <= Lower(s))
  }

  predicate IsTarget(s: string) {
    s != "" && IsPlain(s)
  }

  predicate NoBreaks(s: string) {
    forall i :: 0 <= i < |s| ==> s[i] != '\r' && s[i] != '\n' && IsAscii(s[i])
  }

  /** Any other header field. */
  predicate IsField(line: string) {
    line != "" && NoBreaks(line) && !(LENGTH_FIELD <= Lower(line))
  }

  predicate AreFields(fields: seq<string>) {
    forall i :: 0 <= i < |fields| ==> IsField(fields[i])
  }

  lemma {:induction false} DecimalHasDigits(n: nat)
    ensures Decimal(n) != "" && forall i :: 0 <= i < |Decimal(n)| ==> '0' <= Decimal(n)[i] <= '9'
  {
    if n >= 10 { DecimalHasDigits(n / 10); }
  }

  const CRLF: string := "\r\n"

  function RequestLine(verb: string, path: string): string {
    verb + (" " + (path + " HTTP/1.1"))
  }

  function LengthLine(n: nat): string {
    "Content-Length: " + Decimal(n)
  }

  function HeadLines(verb: string, target: string, fields: seq<string>, n: nat): seq<string> {
    [RequestLine(verb, target)] + (fields + [LengthLine(n)])
  }

  function Joined(lines: seq<string>): string {
    if lines == [] then "" else lines[0] + CRLF + Joined(lines[1..])
  }

  function PrintedHead(verb: string, target: string, fields: seq<string>, n: nat): string {
    Joined(HeadLines(verb, target, fields, n)) + CRLF
  }

  function Printed(verb: string, target: string, fields: seq<string>, body: seq<Byte>): seq<Byte> {
    Utf8(PrintedHead(verb, target, fields, |body|)) + body
  }

  // ---- Numbers ----

  lemma DigitsPush(s: string, d: nat)
    requires d < 10 && Digits(s).Some?
    ensures Digits(s + [Digit(d)]) == Some(Digits(s).value * 10 + d)
  {
    var longer := s + [Digit(d)];
    assert longer[..|longer| - 1] == s;
  }

  lemma {:induction false} DigitsOfDecimal(n: nat)
    ensures Digits(Decimal(n)) == Some(n)
  {
    hide Digits, Digit;
    LastDigit(n);
    NoDigits();
    if n >= 10 {
      DigitsOfDecimal(n / 10);
      DigitsPush(Decimal(n / 10), n % 10);
    } else {
      DigitsPush("", n);
      assert "" + [Digit(n)] == [Digit(n)];
    }
  }

  lemma NoDigits()
    ensures Digits("") == Some(0)
  {
  }

  lemma LastDigit(n: nat)
    ensures n == n / 10 * 10 + n % 10 && (n < 10 ==> n % 10 == n)
  {
  }

  lemma LengthIsParsed(n: nat)
    requires n < 0x1_0000_0000_0000_0000
    ensures ParseLength(Trim(" " + Decimal(n))) == Some(n)
  {
    hide Decimal, Digits;
    DigitsOfDecimal(n);
    DecimalHasDigits(n);
    var s := Decimal(n);
    assert (" " + s)[1..] == s;
    assert IsWhitespace(' ') && !IsWhitespace(s[0]) && !IsWhitespace(s[|s| - 1]);
    assert TrimStart(" " + s) == TrimStart(s) == s && TrimEnd(s) == s;
  }

  // ---- Lines ----

  lemma {:induction false} IndexOfFirst(s: string, c: char, rest: string)
    requires forall i :: 0 <= i < |s| ==> s[i] != c
    ensures IndexOf(s + [c] + rest, c) == |s| && IndexOf(s, c) == |s|
  {
    if s != "" {
      assert (s + [c] + rest)[1..] == s[1..] + [c] + rest;
      IndexOfFirst(s[1..], c, rest);
    }
  }

  lemma NextLine(line: string, rest: string)
    requires forall i :: 0 <= i < |line| ==> line[i] != '\n'
    ensures Lines(line + CRLF + rest) == [line] + Lines(rest)
  {
    var withCr := line + ['\r'];
    var s := line + CRLF + rest;
    assert s == withCr + ['\n'] + rest;
    IndexOfFirst(withCr, '\n', rest);
    assert s[..|withCr|] == withCr && s[|withCr| + 1..] == rest;
    assert WithoutCr(withCr) == line;
  }

  ghost predicate AreLines(lines: seq<string>) {
    forall i :: 0 <= i < |lines| ==> lines[i] != "" && NoBreaks(lines[i])
  }

  lemma HeadLinesAreLines(verb: string, target: string, fields: seq<string>, n: nat)
    requires IsVerb(verb) && IsTarget(target) && AreFields(fields)
    ensures AreLines(HeadLines(verb, target, fields, n))
  {
    hide Decimal, Lower;
    DecimalHasDigits(n);
    assert NoBreaks(RequestLine(verb, target)) && NoBreaks(LengthLine(n));
    var lines := HeadLines(verb, target, fields, n);
    forall i | 0 <= i < |lines|
      ensures lines[i] != "" && NoBreaks(lines[i])
    {
      if 0 < i < |lines| - 1 { assert lines[i] == fields[i - 1] && IsField(fields[i - 1]); }
    }
  }

  lemma {:induction false} LinesOfJoined(lines: seq<string>)
    requires AreLines(lines)
    ensures Lines(Joined(lines) + CRLF) == lines + [""]
  {
    hide Lines;
    NoLines();
    if lines == [] {
      assert "" + CRLF + "" == Joined(lines) + CRLF;
      NextLine("", "");
    } else {
      LinesOfJoined(lines[1..]);
      assert Joined(lines) + CRLF == lines[0] + CRLF + (Joined(lines[1..]) + CRLF);
      NextLine(lines[0], Joined(lines[1..]) + CRLF);
      assert lines == [lines[0]] + lines[1..];
    }
  }

  lemma NoLines()
    ensures Lines("") == []
  {
  }

  // ---- The request line ----

  lemma {:induction false} WordEndsAtSpace(word: string, rest: string)
    requires IsPlain(word)
    ensures WordLength(word + (" " + rest)) == |word|
  {
    var s := word + (" " + rest);
    if word != "" {
      assert s[1..] == word[1..] + (" " + rest);
      WordEndsAtSpace(word[1..], rest);
    }
  }

  lemma FirstWord(word: string, rest: string)
    requires word != "" && IsPlain(word)
    ensures Word(word + (" " + rest)) == (word, " " + rest) && Word(" " + (word + (" " + rest))) == (word, " " + rest)
  {
    var s := word + (" " + rest);
    WordEndsAtSpace(word, rest);
    assert s[..|word|] == word && s[|word|..] == " " + rest;
    assert (" " + s)[1..] == s;
    assert TrimStart(s) == s && TrimStart(" " + s) == s;
  }

  lemma RequestLineIsRead(verb: string, target: string)
    requires IsVerb(verb) && IsTarget(target)
    ensures var (v, rest) := Word(RequestLine(verb, target));
            v == verb && Word(rest).0 == target
  {
    hide Word, Lower;
    FirstWord(verb, target + " HTTP/1.1");
    assert target + " HTTP/1.1" == target + (" " + "HTTP/1.1");
    FirstWord(target, "HTTP/1.1");
  }

  // ---- The length ----

  /** A request line is taken for the length field exactly when its method already looks like it. */
  lemma RequestLineIsNoLength(verb: string, target: string)
    requires IsPlain(verb)
    ensures LENGTH_FIELD <= Lower(RequestLine(verb, target)) <==> LENGTH_FIELD <= Lower(verb)
  {
    var s := RequestLine(verb, target);
    var lower := Lower(s);
    assert forall i :: 0 <= i < |verb| ==> lower[i] == Lower(verb)[i];
    if |verb| < |LENGTH_FIELD| {
      assert lower[|verb|] == ' ' && LENGTH_FIELD[|verb|] != ' ';
    } else {
      assert lower[..|LENGTH_FIELD|] == Lower(verb)[..|LENGTH_FIELD|];
    }
  }

  lemma LengthLineIsRead(n: nat)
    ensures var lower := Lower(LengthLine(n));
            LENGTH_FIELD <= lower && lower[|LENGTH_FIELD|..] == " " + Decimal(n)
  {
    hide Decimal;
    DecimalHasDigits(n);
    var s := LengthLine(n);
    var lower := Lower(s);
    var name := "Content-Length:";
    assert forall i :: 0 <= i < 15 ==> s[i] == name[i];
    assert forall i :: 0 <= i < 15 ==> LowerChar(name[i]) == LENGTH_FIELD[i];
    assert lower[..15] == LENGTH_FIELD;
    assert s[15..] == " " + Decimal(n);
    assert forall i :: 15 <= i < |s| ==> LowerChar(s[i]) == s[i];
  }

  lemma {:induction false} LengthIsFound(fields: seq<string>, n: nat)
    requires n < 0x1_0000_0000_0000_0000
    requires forall i :: 0 <= i < |fields| ==> !(LENGTH_FIELD <= Lower(fields[i]))
    ensures ContentLength(fields + [LengthLine(n), ""]) == n
  {
    hide LengthLine, Lower, ParseLength, Trim;
    var lines := fields + [LengthLine(n), ""];
    if fields == [] {
      LengthLineIsRead(n);
      LengthIsParsed(n);
    } else {
      LengthIsFound(fields[1..], n);
      assert lines[1..] == fields[1..] + [LengthLine(n), ""];
      assert lines[0] == fields[0];
    }
  }

  // ---- Where the head ends ----

  lemma {:induction false} AsciiBytes(s: string)
    requires forall i :: 0 <= i < |s| ==> IsAscii(s[i])
    ensures |Utf8(s)| == |s| && forall i :: 0 <= i < |s| ==> Utf8(s)[i] == s[i] as int
  {
    hide Utf8Char;
    if s != "" { AsciiBytes(s[1..]); }
  }

  /** Before its end, the joined text has no line break directly followed by another. */
  lemma {:induction false} NoEmptyLineInside(lines: seq<string>, rest: string, j: nat)
    requires AreLines(lines) && lines != [] && j < |Joined(lines)| - 2
    ensures var s := Joined(lines) + CRLF + rest;
            !(s[j] == '\r' && s[j + 2] == '\r')
  {
    var first, more := lines[0], lines[1..];
    var s := Joined(lines) + CRLF + rest;
    var tail := Joined(more) + CRLF + rest;
    assert s == first + CRLF + tail;
    if j < |first| {
      assert s[j] == first[j];
    } else if j == |first| {
      assert more != [] && tail[0] == more[0][0] && s[j + 2] == tail[0];
    } else if j == |first| + 1 {
      assert s[j] == '\n';
    } else {
      NoEmptyLineInside(more, rest, j - |first| - 2);
      assert s[j] == tail[j - |first| - 2] && s[j + 2] == tail[j - |first|];
    }
  }

  lemma {:induction false} JoinedIsAscii(lines: seq<string>)
    requires AreLines(lines)
    ensures forall i :: 0 <= i < |Joined(lines)| ==> IsAscii(Joined(lines)[i])
    ensures lines != [] ==> |Joined(lines)| > 2 && Joined(lines)[|Joined(lines)| - 2..] == CRLF
  {
    if lines != [] {
      JoinedIsAscii(lines[1..]);
      if lines[1..] != [] {
        assert Joined(lines)[|Joined(lines)| - 2..] == Joined(lines[1..])[|Joined(lines[1..])| - 2..];
      }
    }
  }

  lemma HeadEndsThere(lines: seq<string>, body: seq<Byte>)
    requires AreLines(lines) && lines != []
    ensures var head := Utf8(Joined(lines) + CRLF);
            |head| == |Joined(lines) + CRLF| && HeadEnd(head + body) == Some(|head|)
  {
    hide Utf8, Joined, AreLines;
    JoinedIsAscii(lines);
    var h := Joined(lines) + CRLF;
    var last := |h| - 4;
    AsciiBytes(h);
    var all := Utf8(h) + body;
    assert h[last..] == "\r\n\r\n" by { assert Joined(lines)[|Joined(lines)| - 2..] == CRLF; }
    assert all[last..last + 4] == TERMINATOR;
    assert EndsAt(all, last);
    forall j | 0 <= j < last
      ensures !EndsAt(all, j)
    {
      NoEmptyLineInside(lines, "", j);
      assert Joined(lines) + CRLF + "" == h;
      EndsInReturns(all, j);
    }
    assert FindFrom(all, 0) == Some(last);
  }

  lemma EndsInReturns(s: seq<Byte>, j: nat)
    ensures EndsAt(s, j) ==> j + 4 <= |s| && s[j] == 13 && s[j + 2] == 13
  {
    if EndsAt(s, j) { assert s[j] == s[j..j + 4][0] && s[j + 2] == s[j..j + 4][2]; }
  }

  lemma HeadIsRead(verb: string, target: string, fields: seq<string>, n: nat)
    requires IsVerb(verb) && IsTarget(target) && AreFields(fields) && n < 0x1_0000_0000_0000_0000
    ensures ParseHead(Utf8(PrintedHead(verb, target, fields, n))) == Head(verb, target[..IndexOf(target, '?')], n)
  {
    hide RequestLine, LengthLine, Utf8, Decode, Lines, Word, ContentLength, Joined, Lower, AreLines;
    var lines := HeadLines(verb, target, fields, n);
    DecodeOfUtf8(PrintedHead(verb, target, fields, n));
    HeadLinesAreLines(verb, target, fields, n);
    LinesOfJoined(lines);
    RequestLineIsRead(verb, target);
    RequestLineIsNoLength(verb, target);
    var before := [RequestLine(verb, target)] + fields;
    forall i | 0 <= i < |before|
      ensures !(LENGTH_FIELD <= Lower(before[i]))
    {
      if i > 0 { assert IsField(fields[i - 1]); }
    }
    LengthIsFound(before, n);
    assert lines + [""] == before + [LengthLine(n), ""];
  }

  /** Printed and read: whenever the head fits, every split of the bytes gives back the method, the path
      (the target up to its query) and the body, whatever other fields the head has. */
  lemma PrintedRequestsAreRead(verb: string, target: string, fields: seq<string>, body: seq<Byte>, pieces: seq<seq<Byte>>, end: End)
    requires IsVerb(verb) && IsTarget(target) && AreFields(fields) && |body| < 0x1_0000_0000_0000_0000
    requires Concat(pieces) == Printed(verb, target, fields, body) && |PrintedHead(verb, target, fields, |body|)| <= MAX_HEAD + 1
    ensures Received(pieces, end) == Request(verb, target[..IndexOf(target, '?')], body)
  {
    hide Joined, HeadLines, Utf8, Concat, HeadEnd, ParseHead, Received, Lower, AreLines;
    var head := Utf8(PrintedHead(verb, target, fields, |body|));
    HeadLinesAreLines(verb, target, fields, |body|);
    SomeLines(verb, target, fields, |body|);
    HeadEndsThere(HeadLines(verb, target, fields, |body|), body);
    HeadIsRead(verb, target, fields, |body|);
    EarlyHeadIgnoresTheSplit(pieces, end);
    assert (head + body)[..|head|] == head && (head + body)[|head|..|head| + |body|] == body;
  }

  lemma SomeLines(verb: string, target: string, fields: seq<string>, n: nat)
    ensures HeadLines(verb, target, fields, n) != []
  {
  }
}
