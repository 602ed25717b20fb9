/**
 The request reader of the login endpoint. The bytes arrive in reads of up to 4096; the head ends
 with an empty line and the body's length comes from the head (framing as in section 6 of RFC 9112).
 */
module HttpReader {
  import opened Options
  import opened Sequences
  import opened Utf8Text
  import opened Text

  const READ_SIZE: nat := 4096
  const MAX_HEAD: nat := 65_536
  const TERMINATOR: seq<Byte> := [13, 10, 13, 10]

  /** What comes when all reads are used up: the peer has closed, or the reader's time runs out. */
  datatype End = Closed | Silent

  datatype Result =
    | Request(verb: string, path: string, body: seq<Byte>)
    | ClosedBeforeHeaders
    | Timeout
    | TooLarge

  // ---- The head ----

  function IndexOf(s: string, c: char): (i: nat)
    ensures i <= |s| && (i < |s| ==> s[i] == c)
  {
    if s == "" || s[0] == c then 0 else 1 + IndexOf(s[1..], c)
  }

  function WithoutCr(line: string): string {
    if line != "" && line[|line| - 1] == '\r' then line[..|line| - 1] else line
  }

  function Lines(s: string): seq<string>
    decreases |s|
  {
    if s == "" then []
    else
      var i := IndexOf(s, '\n');
      if i == |s| then [s] else [WithoutCr(s[..i])] + Lines(s[i + 1..])
  }

  /** The first word and what follows it; empty when there is none. */
  function Word(s: string): (string, string) {
    var rest := TrimStart(s);
    (rest[..WordLength(rest)], rest[WordLength(rest)..])
  }

  function Digits(s: string): Option<nat> {
    if s == "" then Some(0)
    else if !('0' <= s[|s| - 1] <= '9') then None
    else
      match Digits(s[..|s| - 1])
      case None => None
      case Some(n) => Some(n * 10 + (s[|s| - 1] as int - '0' as int))
  }

  /** A 64-bit unsigned number, with an optional plus sign. */
  function ParseLength(s: string): Option<nat> {
    var digits := if s != "" && s[0] == '+' then s[1..] else s;
    if digits == "" then None
    else
      match Digits(digits)
      case Some(n) => if n < 0x1_0000_0000_0000_0000 then Some(n) else None
      case None => None
  }

  const LENGTH_FIELD: string := "content-length:"

  /** The first line that holds a length that can be read. */
  function ContentLength(lines: seq<string>): nat {
    if lines == [] then 0
    else
      var lower := Lower(lines[0]);
      var length := if LENGTH_FIELD <= lower then ParseLength(Trim(lower[|LENGTH_FIELD|..])) else None;
      if length.Some? then length.value else ContentLength(lines[1..])
  }

  datatype Head = Head(verb: string, path: string, contentLength: nat)

  /** A head that is not UTF-8 reads as an empty one. */
  function ParseHead(bytes: seq<Byte>): Head {
    var head := Decode(bytes).UnwrapOr("");
    var lines := Lines(head);
    var requestLine := if lines == [] then "" else lines[0];
    var (verb, rest) := Word(requestLine);
    var (rawPath, _) := Word(rest);
    Head(verb, rawPath[..IndexOf(rawPath, '?')], ContentLength(lines))
  }

  // ---- Reading the bytes at once ----

  predicate EndsAt(s: seq<Byte>, i: nat) {
    i + 4 <= |s| && s[i..i + 4] == TERMINATOR
  }

  function FindFrom(s: seq<Byte>, i: nat): (r: Option<nat>)
    ensures r.Some? ==> i <= r.value && EndsAt(s, r.value) && forall j :: i <= j < r.value ==> !EndsAt(s, j)
    ensures r.None? ==> forall j :: i <= j ==> !EndsAt(s, j)
    decreases |s| - i
  {
    if i + 4 > |s| then None else if EndsAt(s, i) then Some(i) else FindFrom(s, i + 1)
  }

  /** Where the first empty line ends. */
  function HeadEnd(s: seq<Byte>): (r: Option<nat>)
    ensures r.Some? ==> 4 <= r.value <= |s|
  {
    match FindFrom(s, 0)
    case Some(i) => Some(i + 4)
    case None => None
  }

  function Min(a: nat, b: nat): nat {
    if a < b then a else b
  }

  function OneShot(all: seq<Byte>, end: End): Result {
    match HeadEnd(all)
    case None => if |all| > MAX_HEAD then TooLarge else if end.Closed? then ClosedBeforeHeaders else Timeout
    case Some(e) =>
      var head := ParseHead(all[..e]);
      if |all| - e < head.contentLength && end.Silent? then Timeout
      else Request(head.verb, head.path, all[e..e + Min(|all| - e, head.contentLength)])
  }

  // ---- Reading them piece by piece ----

  function Concat(pieces: seq<seq<Byte>>): seq<Byte> {
    if pieces == [] then [] else Concat(pieces[..|pieces| - 1]) + pieces[|pieces| - 1]
  }

  predicate IsSplit(pieces: seq<seq<Byte>>) {
    forall k :: 0 <= k < |pieces| ==> 0 < |pieces[k]| <= READ_SIZE
  }

  /** After the `k`-th read there are more than 65536 bytes and the head has not ended. */
  predicate OverAt(pieces: seq<seq<Byte>>, k: nat, e: nat) {
    k <= |pieces| && MAX_HEAD < |Concat(pieces[..k])| < e
  }

  ghost predicate Overruns(pieces: seq<seq<Byte>>, e: nat) {
    exists k: nat :: OverAt(pieces, k, e)
  }

  ghost function Received(pieces: seq<seq<Byte>>, end: End): Result {
    var all := Concat(pieces);
    if HeadEnd(all).Some? && Overruns(pieces, HeadEnd(all).value) then TooLarge else OneShot(all, end)
  }

  lemma {:induction false} ConcatPrefix(pieces: seq<seq<Byte>>, k: nat)
    requires k <= |pieces|
    ensures Concat(pieces[..k]) <= Concat(pieces)
    decreases |pieces|
  {
    if k == |pieces| {
      assert pieces[..k] == pieces;
    } else {
      ConcatPrefix(pieces[..|pieces| - 1], k);
      assert pieces[..|pieces| - 1][..k] == pieces[..k];
    }
  }

  lemma ConcatNext(pieces: seq<seq<Byte>>, k: nat)
    requires k < |pieces|
    ensures Concat(pieces[..k + 1]) == Concat(pieces[..k]) + pieces[k]
  {
    assert pieces[..k + 1][..k] == pieces[..k];
  }

  lemma PrefixEndsAt(p: seq<Byte>, s: seq<Byte>, i: nat)
    requires p <= s
    ensures i + 4 <= |p| ==> (EndsAt(p, i) <==> EndsAt(s, i))
  {
    if i + 4 <= |p| { assert p[i..i + 4] == s[i..i + 4]; }
  }

  /** A prefix shows the head's end exactly when it holds all of the head. */
  lemma HeadEndOfPrefix(p: seq<Byte>, s: seq<Byte>)
    requires p <= s
    ensures HeadEnd(p) == if HeadEnd(s).Some? && HeadEnd(s).value <= |p| then HeadEnd(s) else None
  {
    hide EndsAt;
    var i, j := FindFrom(p, 0), FindFrom(s, 0);
    if i.Some? { PrefixEndsAt(p, s, i.value); EndIsInside(p, i.value); }
    if j.Some? { PrefixEndsAt(p, s, j.value); EndIsInside(s, j.value); }
  }

  lemma EndIsInside(s: seq<Byte>, i: nat)
    requires EndsAt(s, i)
    ensures i + 4 <= |s|
  {
  }

  method FindSubsequence(haystack: seq<Byte>) returns (r: Option<nat>)
    ensures r == FindFrom(haystack, 0)
  {
    var i := 0;
    while i + 4 <= |haystack|
      invariant FindFrom(haystack, i) == FindFrom(haystack, 0)
    {
      if haystack[i..i + 4] == TERMINATOR {
        return Some(i);
      }
      i := i + 1;
    }
    r := None;
  }

  /** The bytes up to and with the head, or why there is no head. `k` counts the reads used. */
  method ReadHead(pieces: seq<seq<Byte>>, end: End) returns (buf: seq<Byte>, headEnd: nat, k: nat, failure: Option<Result>)
    requires IsSplit(pieces)
    ensures k <= |pieces| && buf == Concat(pieces[..k])
    ensures failure.Some? ==> failure.value == Received(pieces, end)
    ensures failure.None? ==> HeadEnd(buf) == HeadEnd(Concat(pieces)) == Some(headEnd) && !Overruns(pieces, headEnd)
  {
    hide HeadEnd, ParseHead, IsSplit, Concat;
    buf, headEnd, k, failure := [], 0, 0, None;
    EmptyReads();
    assert pieces[..0] == [];
    while true
      invariant k <= |pieces| && buf == Concat(pieces[..k]) && HeadEnd(buf) == None
      invariant forall j: nat :: j <= k ==> |Concat(pieces[..j])| <= MAX_HEAD
      decreases |pieces| - k
    {
      if k == |pieces| {
        assert pieces[..k] == pieces;
        return buf, 0, k, Some(if end.Closed? then ClosedBeforeHeaders else Timeout);
      }
      ConcatNext(pieces, k);
      buf := buf + pieces[k];
      k := k + 1;
      ConcatPrefix(pieces, k);
      HeadEndOfPrefix(buf, Concat(pieces));
      var found := FindSubsequence(buf);
      if found.Some? {
        headEnd := found.value + 4;
        FoundIsHeadEnd(buf, headEnd);
        NoOverrun(pieces, k, headEnd);
        return buf, headEnd, k, None;
      }
      NotFoundIsNoHeadEnd(buf);
      if |buf| > MAX_HEAD {
        OverrunFails(pieces, k, end);
        return buf, 0, k, Some(TooLarge);
      }
    }
  }

  lemma EmptyReads()
    ensures Concat([]) == [] && HeadEnd([]) == None
  {
  }

  lemma FoundIsHeadEnd(buf: seq<Byte>, e: nat)
    requires FindFrom(buf, 0).Some? && e == FindFrom(buf, 0).value + 4
    ensures HeadEnd(buf) == Some(e) && e <= |buf|
  {
  }

  lemma NotFoundIsNoHeadEnd(buf: seq<Byte>)
    requires FindFrom(buf, 0).None?
    ensures HeadEnd(buf) == None
  {
  }

  lemma NoOverrun(pieces: seq<seq<Byte>>, k: nat, e: nat)
    requires 0 < k <= |pieces| && e <= |Concat(pieces[..k])|
    requires forall j: nat :: j <= k - 1 ==> |Concat(pieces[..j])| <= MAX_HEAD
    ensures !Overruns(pieces, e)
  {
    hide Concat;
    forall j: nat
      ensures !OverAt(pieces, j, e)
    {
      if k <= j <= |pieces| {
        ConcatPrefix(pieces[..j], k);
        assert pieces[..j][..k] == pieces[..k];
      }
    }
  }

  lemma OverrunFails(pieces: seq<seq<Byte>>, k: nat, end: End)
    requires k <= |pieces| && |Concat(pieces[..k])| > MAX_HEAD && HeadEnd(Concat(pieces[..k])) == None
    ensures Received(pieces, end) == TooLarge
  {
    hide Concat, HeadEnd, ParseHead;
    ConcatPrefix(pieces, k);
    HeadEndOfPrefix(Concat(pieces[..k]), Concat(pieces));
    if HeadEnd(Concat(pieces)).Some? {
      assert OverAt(pieces, k, HeadEnd(Concat(pieces)).value);
    }
  }

  /** The reader: head first, then as many reads as the body needs. */
  method ReadRequest(pieces: seq<seq<Byte>>, end: End) returns (r: Result)
    requires IsSplit(pieces)
    ensures r == Received(pieces, end)
  {
    hide HeadEnd, ParseHead, IsSplit, Concat, Overruns;
    var buf, headEnd, k, failure := ReadHead(pieces, end);
    if failure.Some? {
      return failure.value;
    }
    ghost var all := Concat(pieces);
    ConcatPrefix(pieces, k);
    var head := ParseHead(buf[..headEnd]);
    assert buf[..headEnd] == all[..headEnd];
    var body := buf[headEnd..];
    while |body| < head.contentLength
      invariant k <= |pieces| && headEnd <= |Concat(pieces[..k])| && body == Concat(pieces[..k])[headEnd..]
      decreases |pieces| - k
    {
      if k == |pieces| {
        assert pieces[..k] == pieces;
        if end.Silent? {
          return Timeout;
        }
        break;
      }
      ConcatNext(pieces, k);
      SuffixPush(Concat(pieces[..k]), pieces[k], headEnd);
      body := body + pieces[k];
      k := k + 1;
    }
    ConcatPrefix(pieces, k);
    assert k == |pieces| ==> pieces[..k] == pieces;
    var take := Min(|body|, head.contentLength);
    r := Request(head.verb, head.path, body[..take]);
    assert body[..take] == all[headEnd..headEnd + take];
    assert take == Min(|all| - headEnd, head.contentLength);
  }

  // ---- When the split matters ----

  /** A head that ends within the limit, or one byte after it, is read the same however it is split. */
  lemma EarlyHeadIgnoresTheSplit(pieces: seq<seq<Byte>>, end: End)
    requires HeadEnd(Concat(pieces)).Some? ==> HeadEnd(Concat(pieces)).value <= MAX_HEAD + 1
    ensures Received(pieces, end) == OneShot(Concat(pieces), end)
  {
    hide HeadEnd, OneShot, Concat;
  }

  /** A head that ends more than a whole read after the limit is refused however it is split. */
  lemma LateHeadIsRefused(pieces: seq<seq<Byte>>, end: End)
    requires IsSplit(pieces) && HeadEnd(Concat(pieces)).Some? && HeadEnd(Concat(pieces)).value > MAX_HEAD + READ_SIZE
    ensures Received(pieces, end) == TooLarge
  {
    hide HeadEnd, OneShot, Concat;
    var k := FirstOver(pieces);
    assert OverAt(pieces, k, HeadEnd(Concat(pieces)).value);
  }

  lemma {:induction false} FirstOver(pieces: seq<seq<Byte>>) returns (k: nat)
    requires IsSplit(pieces) && |Concat(pieces)| > MAX_HEAD
    ensures k <= |pieces| && MAX_HEAD < |Concat(pieces[..k])| <= MAX_HEAD + READ_SIZE
  {
    var last := |pieces| - 1;
    if |Concat(pieces[..last])| > MAX_HEAD {
      k := FirstOver(pieces[..last]);
      assert pieces[..last][..k] == pieces[..k];
    } else {
      k := |pieces|;
      assert pieces[..k] == pieces;
    }
  }

  /** Whole reads from the front; the last one may be shorter. */
  function Cut(all: seq<Byte>): seq<seq<Byte>>
    decreases |all|
  {
    if all == [] then []
    else
      var start := (|all| - 1) / READ_SIZE * READ_SIZE;
      Cut(all[..start]) + [all[start..]]
  }

  lemma {:induction false} CutIsASplit(all: seq<Byte>)
    ensures IsSplit(Cut(all)) && Concat(Cut(all)) == all
    ensures |Cut(all)| == (|all| + READ_SIZE - 1) / READ_SIZE
    decreases |all|
  {
    if all != [] {
      var start := (|all| - 1) / READ_SIZE * READ_SIZE;
      CutIsASplit(all[..start]);
      assert Cut(all)[..|Cut(all)| - 1] == Cut(all[..start]);
      assert all == all[..start] + all[start..];
    }
  }

  /** Every read but the last fills a multiple of the read size. */
  lemma {:induction false} CutFillsReads(all: seq<Byte>, k: nat)
    requires k <= |Cut(all)|
    ensures |Concat(Cut(all)[..k])| == Min(k * READ_SIZE, |all|)
    decreases |all|
  {
    hide IsSplit, Concat;
    CutIsASplit(all);
    var cut := Cut(all);
    if k == |cut| {
      assert cut[..k] == cut;
    } else {
      var start := (|all| - 1) / READ_SIZE * READ_SIZE;
      CutFillsReads(all[..start], k);
      assert cut[..k] == Cut(all[..start])[..k];
      CutIsASplit(all[..start]);
    }
  }

  lemma ConcatPush(pieces: seq<seq<Byte>>, piece: seq<Byte>)
    ensures Concat(pieces + [piece]) == Concat(pieces) + piece
  {
    assert (pieces + [piece])[..|pieces|] == pieces;
  }

  lemma {:induction false} ConcatFront(piece: seq<Byte>, pieces: seq<seq<Byte>>)
    ensures Concat([piece] + pieces) == piece + Concat(pieces)
  {
    hide Concat;
    if pieces == [] {
      EmptyReads();
      ConcatPush([], piece);
      assert [piece] + pieces == [] + [piece];
    } else {
      var before, last := pieces[..|pieces| - 1], pieces[|pieces| - 1];
      ConcatFront(piece, before);
      ConcatPush([piece] + before, last);
      ConcatPush(before, last);
      assert ([piece] + before) + [last] == [piece] + pieces && before + [last] == pieces;
      Regroup(piece, Concat(before), last);
    }
  }

  /** The two ways to cut: whole reads, or a single byte first. */
  function ByteFirst(all: seq<Byte>): seq<seq<Byte>>
    requires all != []
  {
    [all[..1]] + Cut(all[1..])
  }

  /** A head that ends in between is read when it comes in whole reads and refused when a single byte
      comes first: there the same bytes are answered differently. */
  lemma InBetweenTheSplitDecides(all: seq<Byte>, end: End)
    requires HeadEnd(all).Some? && MAX_HEAD + 1 < HeadEnd(all).value <= MAX_HEAD + READ_SIZE
    ensures IsSplit(Cut(all)) && Concat(Cut(all)) == all && Received(Cut(all), end) == OneShot(all, end) != TooLarge
    ensures IsSplit(ByteFirst(all)) && Concat(ByteFirst(all)) == all && Received(ByteFirst(all), end) == TooLarge
  {
    hide HeadEnd, Concat, Cut, ParseHead;
    var e := HeadEnd(all).value;
    CutIsASplit(all);
    forall k: nat
      ensures !OverAt(Cut(all), k, e)
    {
      if k <= |Cut(all)| { CutFillsReads(all, k); }
    }
    var rest := all[1..];
    CutIsASplit(rest);
    ConcatFront(all[..1], Cut(rest));
    assert all == all[..1] + rest;
    var k := MAX_HEAD / READ_SIZE;
    CutFillsReads(rest, k);
    ConcatFront(all[..1], Cut(rest)[..k]);
    assert ByteFirst(all)[..k + 1] == [all[..1]] + Cut(rest)[..k];
    assert OverAt(ByteFirst(all), k + 1, e);
  }
}
