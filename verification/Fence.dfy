/**
 The Markdown fence around tool output: it is made longer than any run of backticks that starts a
 line of the text. The reader is that of section 4.5 of CommonMark, with the indentation of a closing
 fence (there up to three spaces) as a parameter.
 */
module Fence {
  import opened Options

  const TICK: char := '`'

  // ---- Scanning a text ----

  /** The backticks from position `i` on. */
  function Run(s: string, i: nat): (n: nat)
    ensures i <= |s| ==> i + n <= |s|
    ensures forall j :: i <= j < i + n ==> j < |s| && s[j] == TICK
    decreases |s| - i
  {
    if i < |s| && s[i] == TICK then 1 + Run(s, i + 1) else 0
  }

  function Spaces(s: string, i: nat): (n: nat)
    ensures i <= |s| ==> i + n <= |s|
    decreases |s| - i
  {
    if i < |s| && s[i] == ' ' then 1 + Spaces(s, i + 1) else 0
  }

  /** Only spaces and tabs up to the end of the line. */
  predicate BlankToEnd(s: string, i: nat)
    decreases |s| - i
  {
    i >= |s| || s[i] == '\n' || s[i] == '\r' || ((s[i] == ' ' || s[i] == '\t') && BlankToEnd(s, i + 1))
  }

  // ---- Printing ----

  /** Where the pattern's line anchor matches. */
  predicate AnchorAt(s: string, i: nat) {
    i == 0 || (i <= |s| && (s[i - 1] == '\n' || s[i - 1] == '\r' || s[i - 1] == '\U{2028}' || s[i - 1] == '\U{2029}'))
  }

  /** The lengths of the matches from position `i` on: runs of three or more at an anchor. */
  function Matches(s: string, i: nat): seq<nat>
    decreases |s| - i
  {
    if i >= |s| then []
    else if AnchorAt(s, i) && Run(s, i) >= 3 then [Run(s, i)] + Matches(s, i + Run(s, i))
    else Matches(s, i + 1)
  }

  function Longer(matches: seq<nat>): (n: nat)
    ensures n >= 3
    ensures forall i :: 0 <= i < |matches| ==> matches[i] < n
    ensures n == 3 || exists i :: 0 <= i < |matches| && n == matches[i] + 1
  {
    if matches == [] then 3
    else
      var n := Longer(matches[..|matches| - 1]);
      if matches[|matches| - 1] >= n then matches[|matches| - 1] + 1 else n
  }

  function FenceLength(text: string): nat {
    Longer(Matches(text, 0))
  }

  function Ticks(n: nat): (s: string)
    ensures |s| == n && forall i :: 0 <= i < n ==> s[i] == TICK
  {
    if n == 0 then "" else Ticks(n - 1) + [TICK]
  }

  /** The text with a newline at its end. */
  function Body(text: string): (body: string)
    ensures body != "" && body[|body| - 1] == '\n' && text <= body
  {
    if text != "" && text[|text| - 1] == '\n' then text else text + "\n"
  }

  function Fenced(text: string): string {
    Ticks(FenceLength(text)) + "\n" + Body(text) + Ticks(FenceLength(text))
  }

  lemma LongerNext(matches: seq<nat>, k: nat)
    requires k < |matches|
    ensures var n := Longer(matches[..k]); Longer(matches[..k + 1]) == if matches[k] >= n then matches[k] + 1 else n
  {
    assert matches[..k + 1][..k] == matches[..k];
  }

  /** The inner loop: longer than one match. */
  method Extend(fence: string, m: nat) returns (escape: string)
    requires fence == Ticks(|fence|)
    ensures escape == Ticks(if m >= |fence| then m + 1 else |fence|)
  {
    escape := fence;
    while m >= |escape|
      invariant escape == Ticks(|escape|)
      invariant |fence| <= |escape| && (|escape| > |fence| ==> |escape| <= m + 1)
    {
      escape := escape + [TICK];
    }
  }

  method MarkdownEscape(text: string) returns (block: string)
    ensures block == Fenced(text)
  {
    hide Run, Matches, AnchorAt;
    var escape, matches := Ticks(3), Matches(text, 0);
    for k := 0 to |matches|
      invariant escape == Ticks(Longer(matches[..k]))
    {
      LongerNext(matches, k);
      escape := Extend(escape, matches[k]);
    }
    assert matches[..|matches|] == matches;
    block := escape + "\n" + text + (if text != "" && text[|text| - 1] == '\n' then "" else "\n") + escape;
  }

  // ---- Reading ----

  /** A line starts after a newline, and after a carriage return that no newline follows. */
  predicate LineStart(s: string, i: nat) {
    i == 0 || (i <= |s| && (s[i - 1] == '\n' || (s[i - 1] == '\r' && (i == |s| || s[i] != '\n'))))
  }

  /** The line at `i` closes a block whose fence has `n` backticks. */
  predicate Closes(s: string, i: nat, n: nat, maxIndent: nat) {
    && LineStart(s, i) && Spaces(s, i) <= maxIndent
    && Run(s, i + Spaces(s, i)) >= n && BlankToEnd(s, i + Spaces(s, i) + Run(s, i + Spaces(s, i)))
  }

  /** The end of the content: the first closing line, or the end of the document. */
  function ContentEnd(s: string, i: nat, n: nat, maxIndent: nat): (e: nat)
    requires i <= |s|
    ensures i <= e <= |s|
    ensures forall j :: i <= j < e ==> !Closes(s, j, n, maxIndent)
    ensures e < |s| ==> Closes(s, e, n, maxIndent)
    decreases |s| - i
  {
    if i == |s| || Closes(s, i, n, maxIndent) then i else ContentEnd(s, i + 1, n, maxIndent)
  }

  /** The content of a document that begins with a fence without an info string. */
  function ReadBlock(doc: string, maxIndent: nat): Option<string> {
    var n := Run(doc, 0);
    if n < 3 || n >= |doc| || doc[n] != '\n' then None
    else Some(doc[n + 1..ContentEnd(doc, n + 1, n, maxIndent)])
  }

  // ---- The fence is longer than any run at a line start, and no longer than that needs ----

  lemma {:induction false} MatchesCoverAnchors(s: string, i: nat, p: nat)
    requires i <= p < |s| && AnchorAt(s, p) && Run(s, p) >= 3
    ensures Run(s, p) in Matches(s, i)
    decreases |s| - i
  {
    if AnchorAt(s, i) && Run(s, i) >= 3 {
      if p > i {
        assert s[p - 1] != TICK;
        MatchesCoverAnchors(s, i + Run(s, i), p);
      }
    } else {
      MatchesCoverAnchors(s, i + 1, p);
    }
  }

  lemma {:induction false} MatchesAreRuns(s: string, i: nat, k: nat) returns (p: nat)
    requires k < |Matches(s, i)|
    ensures p < |s| && AnchorAt(s, p) && Run(s, p) == Matches(s, i)[k] >= 3
    decreases |s| - i
  {
    if AnchorAt(s, i) && Run(s, i) >= 3 {
      if k == 0 { p := i; } else { p := MatchesAreRuns(s, i + Run(s, i), k - 1); }
    } else {
      p := MatchesAreRuns(s, i + 1, k);
    }
  }

  predicate RunOneShorter(text: string, p: nat, n: nat) {
    p < |text| && AnchorAt(text, p) && Run(text, p) + 1 == n
  }

  /** The fence has three backticks, or one more than the longest run that starts a line. */
  lemma FenceIsExactlyLonger(text: string)
    ensures FenceLength(text) >= 3
    ensures forall p :: 0 <= p < |text| && AnchorAt(text, p) ==> Run(text, p) < FenceLength(text)
    ensures FenceLength(text) == 3 || exists p: nat :: RunOneShorter(text, p, FenceLength(text))
  {
    var matches := Matches(text, 0);
    forall p | 0 <= p < |text| && AnchorAt(text, p)
      ensures Run(text, p) < FenceLength(text)
    {
      if Run(text, p) >= 3 { MatchesCoverAnchors(text, 0, p); }
    }
    if FenceLength(text) != 3 {
      var k :| 0 <= k < |matches| && FenceLength(text) == matches[k] + 1;
      var p := MatchesAreRuns(text, 0, k);
      assert RunOneShorter(text, p, FenceLength(text));
    }
  }

  // ---- Reading the block back ----

  lemma {:induction false} ScansStayInside(a: string, body: string, b: string, i: nat)
    requires i < |body| && body[|body| - 1] == '\n'
    ensures var doc := a + body + b;
            && Run(doc, |a| + i) == Run(body, i) && Spaces(doc, |a| + i) == Spaces(body, i)
            && (BlankToEnd(doc, |a| + i) <==> BlankToEnd(body, i))
            && Spaces(body, i) < |body| - i && Run(body, i) < |body| - i
    decreases |body| - i
  {
    var doc := a + body + b;
    assert doc[|a| + i] == body[i];
    if i + 1 < |body| {
      ScansStayInside(a, body, b, i + 1);
    }
  }

  lemma LinesStayInside(a: string, body: string, b: string, i: nat)
    requires i < |body| && a != "" && a[|a| - 1] == '\n'
    ensures LineStart(a + body + b, |a| + i) <==> LineStart(body, i)
  {
    var doc := a + body + b;
    assert doc[|a| + i] == body[i];
    if i > 0 { assert doc[|a| + i - 1] == body[i - 1]; } else { assert doc[|a| - 1] == '\n'; }
  }

  lemma ClosesInside(a: string, body: string, b: string, i: nat, n: nat, maxIndent: nat)
    requires i < |body| && body[|body| - 1] == '\n' && a != "" && a[|a| - 1] == '\n'
    ensures Closes(a + body + b, |a| + i, n, maxIndent) <==> Closes(body, i, n, maxIndent)
  {
    hide Run, Spaces, BlankToEnd, LineStart;
    LinesStayInside(a, body, b, i);
    ScansStayInside(a, body, b, i);
    var k := i + Spaces(body, i);
    ScansStayInside(a, body, b, k);
    ScansStayInside(a, body, b, k + Run(body, k));
  }

  /** A line of the body that is an indented fence: one to three spaces, enough backticks, and then
      only spaces and tabs. */
  predicate IndentedFence(s: string, i: nat, n: nat) {
    LineStart(s, i) && 1 <= Spaces(s, i) <= 3
    && Run(s, i + Spaces(s, i)) >= n && BlankToEnd(s, i + Spaces(s, i) + Run(s, i + Spaces(s, i)))
  }

  /** No line that starts with its backticks closes the block. */
  lemma BodyHasNoFence(text: string, i: nat)
    requires i < |Body(text)| && LineStart(Body(text), i)
    ensures Run(Body(text), i) < FenceLength(text)
  {
    hide FenceLength;
    var body := Body(text);
    FenceIsExactlyLonger(text);
    if i < |text| {
      RunOfBody(text, i);
      assert AnchorAt(text, i);
    }
  }

  lemma {:induction false} RunOfBody(text: string, i: nat)
    requires i <= |text|
    ensures Run(Body(text), i) == Run(text, i)
    decreases |text| - i
  {
    if i < |text| { RunOfBody(text, i + 1); }
  }

  lemma {:induction false} RunOfTicks(n: nat, rest: string, i: nat)
    requires i <= n && (rest != "" ==> rest[0] != TICK)
    ensures Run(Ticks(n) + rest, i) == n - i
    decreases n - i
  {
    var s := Ticks(n) + rest;
    if i < n { RunOfTicks(n, rest, i + 1); } else if rest != "" { assert s[n] == rest[0]; }
  }

  lemma FinalFenceCloses(a: string, n: nat, maxIndent: nat)
    requires n > 0 && a != "" && a[|a| - 1] == '\n'
    ensures Closes(a + Ticks(n), |a|, n, maxIndent)
  {
    var doc := a + Ticks(n);
    assert doc[|a|] == TICK && doc[|a| - 1] == '\n';
    TicksAtEnd(a, n, 0);
  }

  lemma {:induction false} TicksAtEnd(a: string, n: nat, i: nat)
    requires i <= n
    ensures Run(a + Ticks(n), |a| + i) == n - i
    decreases n - i
  {
    if i < n {
      assert (a + Ticks(n))[|a| + i] == TICK;
      TicksAtEnd(a, n, i + 1);
    }
  }

  lemma FencedReads(text: string, maxIndent: nat)
    ensures var n, doc := FenceLength(text), Fenced(text);
            && |doc| == n + 1 + |Body(text)| + n && doc[n + 1..n + 1 + |Body(text)|] == Body(text)
            && ReadBlock(doc, maxIndent) == Some(doc[n + 1..ContentEnd(doc, n + 1, n, maxIndent)])
  {
    hide Run, FenceLength, Body, ContentEnd, Ticks;
    FenceIsExactlyLonger(text);
    FencedShape(FenceLength(text), Body(text), Fenced(text));
    FencedRun(FenceLength(text), Body(text), Fenced(text));
  }

  lemma FencedShape(n: nat, body: string, doc: string)
    requires doc == Ticks(n) + "\n" + body + Ticks(n)
    ensures |doc| == n + 1 + |body| + n && doc[n] == '\n' && doc[n + 1..n + 1 + |body|] == body
  {
    hide Ticks;
  }

  lemma FencedRun(n: nat, body: string, doc: string)
    requires doc == Ticks(n) + "\n" + body + Ticks(n)
    ensures Run(doc, 0) == n
  {
    hide Ticks, Run;
    var rest := "\n" + body + Ticks(n);
    assert doc == Ticks(n) + rest;
    RunOfTicks(n, rest, 0);
  }

  lemma FencedCloses(text: string, maxIndent: nat)
    ensures var n, body, doc := FenceLength(text), Body(text), Fenced(text);
            && Closes(doc, n + 1 + |body|, n, maxIndent)
            && forall j :: n + 1 <= j < n + 1 + |body| ==> (Closes(doc, j, n, maxIndent) <==> Closes(body, j - (n + 1), n, maxIndent))
  {
    hide Closes, FenceLength, Body;
    var n, body, doc := FenceLength(text), Body(text), Fenced(text);
    FenceIsExactlyLonger(text);
    var a := Ticks(n) + "\n";
    assert doc == a + body + Ticks(n);
    FinalFenceCloses(a + body, n, maxIndent);
    forall j | n + 1 <= j < n + 1 + |body|
      ensures Closes(doc, j, n, maxIndent) <==> Closes(body, j - (n + 1), n, maxIndent)
    {
      ClosesInside(a, body, Ticks(n), j - (n + 1), n, maxIndent);
    }
  }

  /** The content read back is the body up to its first closing line. */
  lemma ReadsUpToTheFirstCloser(text: string, maxIndent: nat)
    ensures ReadBlock(Fenced(text), maxIndent) == Some(Body(text))
            <==> forall i :: 0 <= i < |Body(text)| ==> !Closes(Body(text), i, FenceLength(text), maxIndent)
  {
    hide Closes, FenceLength, Body, Fenced, ReadBlock, ContentEnd;
    var n, body, doc := FenceLength(text), Body(text), Fenced(text);
    FencedReads(text, maxIndent);
    FencedCloses(text, maxIndent);
    FirstCloserIs(doc, n + 1, |body|, n, maxIndent);
    ShiftedCloser(doc, body, n + 1, n, maxIndent);
  }

  lemma FirstCloserIs(doc: string, start: nat, length: nat, n: nat, maxIndent: nat)
    requires start + length <= |doc| && Closes(doc, start + length, n, maxIndent)
    ensures ContentEnd(doc, start, n, maxIndent) <= start + length
    ensures ContentEnd(doc, start, n, maxIndent) == start + length
            <==> forall j :: start <= j < start + length ==> !Closes(doc, j, n, maxIndent)
  {
    hide Closes;
  }

  lemma ShiftedCloser(doc: string, body: string, start: nat, n: nat, maxIndent: nat)
    requires forall j :: start <= j < start + |body| ==> (Closes(doc, j, n, maxIndent) <==> Closes(body, j - start, n, maxIndent))
    ensures (forall j :: start <= j < start + |body| ==> !Closes(doc, j, n, maxIndent))
            <==> forall i :: 0 <= i < |body| ==> !Closes(body, i, n, maxIndent)
  {
    hide Closes;
    if forall j :: start <= j < start + |body| ==> !Closes(doc, j, n, maxIndent) {
      forall i | 0 <= i < |body| ensures !Closes(body, i, n, maxIndent) {
        assert !Closes(doc, start + i, n, maxIndent);
      }
    }
  }

  /** With fences in the first column, the text with a final newline always comes back. */
  lemma ColumnZeroRoundTrip(text: string)
    ensures ReadBlock(Fenced(text), 0) == Some(Body(text))
  {
    hide FenceLength, ReadBlock, Fenced, LineStart, BlankToEnd;
    ReadsUpToTheFirstCloser(text, 0);
    forall i | 0 <= i < |Body(text)|
      ensures !Closes(Body(text), i, FenceLength(text), 0)
    {
      if LineStart(Body(text), i) { BodyHasNoFence(text, i); }
    }
  }

  /** A CommonMark reader gets the text back exactly when no line of it is an indented fence that is
      long enough: the fence is only measured against runs in the first column. */
  lemma CommonMarkRoundTrip(text: string)
    ensures ReadBlock(Fenced(text), 3) == Some(Body(text))
            <==> forall i :: 0 <= i < |Body(text)| ==> !IndentedFence(Body(text), i, FenceLength(text))
  {
    hide FenceLength, ReadBlock, Fenced, LineStart, BlankToEnd, Run, Spaces;
    ReadsUpToTheFirstCloser(text, 3);
    forall i | 0 <= i < |Body(text)|
      ensures Closes(Body(text), i, FenceLength(text), 3) <==> IndentedFence(Body(text), i, FenceLength(text))
    {
      if LineStart(Body(text), i) { BodyHasNoFence(text, i); }
    }
  }

  /** One such text: a single line, a space and three backticks. */
  lemma IndentedFenceEscapes()
    ensures ReadBlock(Fenced(" ```"), 3) != Some(Body(" ```"))
  {
    var text := " ```";
    assert Matches(text, 4) == [] && Matches(text, 3) == [] && Matches(text, 2) == [] && Matches(text, 1) == [];
    assert FenceLength(text) == 3;
    assert Run(Body(text), 4) == 0 && Run(Body(text), 3) == 1 && Run(Body(text), 2) == 2;
    assert IndentedFence(Body(text), 0, 3);
    CommonMarkRoundTrip(text);
  }
}
