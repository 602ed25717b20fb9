/** Requests that do not arrive whole, or are more than was announced, and heads with other length fields. */
module HttpOutcomes {
  import opened Options
  import opened Utf8Text
  import opened Text
  import opened HttpReader
  import opened HttpRequests

  // ---- What was sent ----

  /** A printed head that announces `n` bytes, and then whatever was sent: at most the announced bytes are read;
      when fewer come, the peer's end gives what there is and silence gives nothing. */
  lemma AnnouncedBodiesExactly(verb: string, target: string, fields: seq<string>, n: nat, sent: seq<Byte>, pieces: seq<seq<Byte>>, end: End)
    requires IsVerb(verb) && IsTarget(target) && AreFields(fields) && n < 0x1_0000_0000_0000_0000
    requires Concat(pieces) == Utf8(PrintedHead(verb, target, fields, n)) + sent && |PrintedHead(verb, target, fields, n)| <= MAX_HEAD + 1
    ensures Received(pieces, end)
            == if |sent| >= n then Request(verb, target[..IndexOf(target, '?')], sent[..n])
               else if end.Closed? then Request(verb, target[..IndexOf(target, '?')], sent) else Timeout
  {
    hide Joined, HeadLines, Utf8, Concat, HeadEnd, ParseHead, Received, Lower, AreLines;
    var head := Utf8(PrintedHead(verb, target, fields, n));
    HeadLinesAreLines(verb, target, fields, n);
    SomeLines(verb, target, fields, n);
    HeadEndsThere(HeadLines(verb, target, fields, n), sent);
    HeadIsRead(verb, target, fields, n);
    EarlyHeadIgnoresTheSplit(pieces, end);
    var all := head + sent;
    assert all[..|head|] == head;
    forall k: nat | k <= |sent| ensures all[|head|..|head| + k] == sent[..k] {}
  }

  /** A stream that ends within a printed head is no request: the reader says whether the peer has closed, or
      that the head is too large. */
  lemma HalfHeadsAreRefused(verb: string, target: string, fields: seq<string>, n: nat, k: nat, pieces: seq<seq<Byte>>, end: End)
    requires IsVerb(verb) && IsTarget(target) && AreFields(fields) && k < |Utf8(PrintedHead(verb, target, fields, n))|
    requires Concat(pieces) == Utf8(PrintedHead(verb, target, fields, n))[..k]
    ensures Received(pieces, end) == if k > MAX_HEAD then TooLarge else if end.Closed? then ClosedBeforeHeaders else Timeout
  {
    hide Joined, HeadLines, Utf8, Concat, HeadEnd, ParseHead, Lower, AreLines;
    var head := Utf8(PrintedHead(verb, target, fields, n));
    HeadLinesAreLines(verb, target, fields, n);
    SomeLines(verb, target, fields, n);
    HeadEndsThere(HeadLines(verb, target, fields, n), []);
    assert head + [] == head;
    HeadEndOfPrefix(head[..k], head);
  }

  /** In general: a stream without an empty line is no request, and one with an empty line is one or is answered
      with silence or a refusal, never as closed. */
  lemma NoEmptyLineNoRequest(pieces: seq<seq<Byte>>, end: End)
    ensures var all, r := Concat(pieces), Received(pieces, end);
            if forall i: nat :: !EndsAt(all, i) then
              r == if |all| > MAX_HEAD then TooLarge else if end.Closed? then ClosedBeforeHeaders else Timeout
            else r != ClosedBeforeHeaders && (r == Timeout ==> end.Silent?)
  {
    hide Concat, ParseHead, EndsAt, Overruns;
    var all := Concat(pieces);
    if FindFrom(all, 0).Some? { assert EndsAt(all, FindFrom(all, 0).value); }
  }

  /** A head that is not UTF-8 is read as one without method, path and length. */
  lemma UndecodableHeadsAreEmpty(pieces: seq<seq<Byte>>, end: End)
    requires var all := Concat(pieces); HeadEnd(all).Some? && HeadEnd(all).value <= MAX_HEAD + 1 && Decode(all[..HeadEnd(all).value]).None?
    ensures Received(pieces, end) == Request("", "", [])
  {
    hide Concat, HeadEnd, Decode, Received;
    EarlyHeadIgnoresTheSplit(pieces, end);
    assert Lines("") == [] && Word("") == ("", "") && ContentLength([]) == 0;
  }

  // ---- Length fields ----

  predicate SaysLength(line: string, n: nat) {
    LENGTH_FIELD <= Lower(line) && ParseLength(Trim(Lower(line)[|LENGTH_FIELD|..])) == Some(n)
  }

  /** The first line with a readable length decides, and without one the length is zero. */
  lemma {:induction false} FirstReadableLengthDecides(before: seq<string>, line: string, after: seq<string>, n: nat)
    requires forall i, m :: 0 <= i < |before| ==> !SaysLength(before[i], m)
    ensures ContentLength(before) == 0
    ensures SaysLength(line, n) ==> ContentLength(before + [line] + after) == n
  {
    hide ParseLength, Lower, Trim;
    var lines := before + [line] + after;
    if before != [] {
      if LENGTH_FIELD <= Lower(before[0]) {
        assert !SaysLength(before[0], ParseLength(Trim(Lower(before[0])[|LENGTH_FIELD|..])).UnwrapOr(0));
      }
      FirstReadableLengthDecides(before[1..], line, after, n);
      assert lines[1..] == before[1..] + [line] + after && lines[0] == before[0];
    } else {
      assert lines[0] == line;
    }
  }

  predicate AllDigits(s: string) {
    forall i :: 0 <= i < |s| ==> '0' <= s[i] <= '9'
  }

  lemma {:induction false} OnlyDigitsHaveValues(s: string)
    ensures Digits(s).Some? <==> AllDigits(s)
  {
    if s != "" {
      OnlyDigitsHaveValues(s[..|s| - 1]);
      assert AllDigits(s) <==> AllDigits(s[..|s| - 1]) && '0' <= s[|s| - 1] <= '9';
    }
  }

  /** A length is a decimal number of 64 bits: zeros before it and one plus sign do not matter, and nothing else
      may stand there. */
  lemma LengthsExactly(s: string)
    ensures ParseLength(s).Some? ==> var digits := if s[0] == '+' then s[1..] else s; digits != "" && AllDigits(digits)
    ensures s != "" && s[0] != '+' ==> ParseLength("0" + s) == ParseLength(s) == ParseLength("+" + s)
    ensures s != "" && AllDigits(s) && |s| <= 19 ==> ParseLength(s).Some?
  {
    hide Digits;
    var digits := if s != "" && s[0] == '+' then s[1..] else s;
    OnlyDigitsHaveValues(digits);
    OnlyDigitsHaveValues(s);
    assert ("+" + s)[1..] == s;
    LeadingZero(s);
    FewDigits(s);
  }

  lemma {:induction false} LeadingZero(s: string)
    ensures Digits("0" + s) == Digits(s)
  {
    if s != "" {
      LeadingZero(s[..|s| - 1]);
      assert ("0" + s)[..|s|] == "0" + s[..|s| - 1];
    } else {
      assert "0"[..0] == "";
    }
  }

  function Power(n: nat): nat {
    if n == 0 then 1 else 10 * Power(n - 1)
  }

  lemma {:induction false} DigitsAreBounded(s: string)
    ensures Digits(s).Some? ==> Digits(s).value < Power(|s|)
  {
    if s != "" { DigitsAreBounded(s[..|s| - 1]); }
  }

  lemma {:induction false} PowerGrows(n: nat, m: nat)
    requires n <= m
    ensures Power(n) <= Power(m)
  {
    if n < m { PowerGrows(n, m - 1); }
  }

  lemma FewDigits(s: string)
    ensures Digits(s).Some? && |s| <= 19 ==> Digits(s).value < 0x1_0000_0000_0000_0000
  {
    hide Digits;
    DigitsAreBounded(s);
    if |s| <= 19 {
      PowerGrows(|s|, 19);
      assert Power(5) == 100_000 && Power(10) == 100_000 * Power(5) && Power(15) == 100_000 * Power(10) && Power(19) == 10_000 * Power(15);
    }
  }
}
