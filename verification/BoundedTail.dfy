/**
 The bounded tool log: each streamed chunk is appended and the text is cut to its tail, header and
 all. Although later cuts also count the previous header, what follows the header is always
 exactly the tail of everything that was ever streamed.
 */
module BoundedTail {
  import opened Text

  const MAX_TOOL_DETAIL_CHARS: nat := 32 * 1024

  function AppendChunk(detail: string, chunk: string): string {
    CapTail(detail + chunk, MAX_TOOL_DETAIL_CHARS)
  }

  function Stream(chunks: seq<string>): string {
    if chunks == [] then "" else AppendChunk(Stream(chunks[..|chunks| - 1]), chunks[|chunks| - 1])
  }

  function Whole(chunks: seq<string>): string {
    if chunks == [] then "" else Whole(chunks[..|chunks| - 1]) + chunks[|chunks| - 1]
  }

  /** The number the header shows once the text was cut: the first cut counts what was really
      omitted, every later cut counts the old header and the new chunk. */
  function ShownCount(chunks: seq<string>): nat {
    if chunks == [] then 0
    else
      var before := chunks[..|chunks| - 1];
      if |Whole(before)| <= MAX_TOOL_DETAIL_CHARS
      then if |Whole(chunks)| <= MAX_TOOL_DETAIL_CHARS then 0 else |Whole(chunks)| - MAX_TOOL_DETAIL_CHARS
      else |TailHeader(ShownCount(before))| + |chunks[|chunks| - 1]|
  }

  lemma LastOfConcat(a: string, b: string, n: nat)
    requires |a| >= n
    ensures Last(a + b, n) == Last(Last(a, n) + b, n)
  {
    assert a == a[..|a| - n] + Last(a, n);
    assert a + b == a[..|a| - n] + (Last(a, n) + b);
    LastAfterPrefix(a[..|a| - n], Last(a, n) + b, n);
  }

  lemma LastAfterPrefix(p: string, t: string, n: nat)
    requires |t| >= n
    ensures Last(p + t, n) == Last(t, n)
  {
    assert (p + t)[|p|..] == t;
    assert (p + t)[|p + t| - n..] == (p + t)[|p|..][|t| - n..];
  }

  /** What the bounded text is, for a given whole text. */
  function Shown(chunks: seq<string>): string {
    if |Whole(chunks)| <= MAX_TOOL_DETAIL_CHARS then Whole(chunks)
    else TailHeader(ShownCount(chunks)) + Last(Whole(chunks), MAX_TOOL_DETAIL_CHARS)
  }

  lemma ShownNext(before: seq<string>, chunk: string)
    ensures Shown(before + [chunk]) == AppendChunk(Shown(before), chunk)
  {
    hide TailHeader, Last;
    assert (before + [chunk])[..|before|] == before;
    if |Whole(before)| > MAX_TOOL_DETAIL_CHARS {
      HeaderIsThere(ShownCount(before));
      CutAgain(Whole(before), TailHeader(ShownCount(before)), chunk);
    }
  }

  lemma HeaderIsThere(n: nat)
    ensures TailHeader(n) != ""
  {
  }

  /** The bounded text refines the whole stream, for every sequence of chunks. */
  lemma {:induction false} StreamIsTheTail(chunks: seq<string>)
    ensures Stream(chunks) ==
            if |Whole(chunks)| <= MAX_TOOL_DETAIL_CHARS then Whole(chunks)
            else TailHeader(ShownCount(chunks)) + Last(Whole(chunks), MAX_TOOL_DETAIL_CHARS)
  {
    hide TailHeader, Last, AppendChunk;
    if chunks != [] {
      var before, chunk := chunks[..|chunks| - 1], chunks[|chunks| - 1];
      StreamIsTheTail(before);
      ShownNext(before, chunk);
      assert chunks == before + [chunk];
    }
    assert Stream(chunks) == Shown(chunks);
  }

  /** Cutting a text that starts with an old header: the header is dropped and counted. */
  lemma CutAgain(whole: string, header: string, chunk: string)
    requires |whole| > MAX_TOOL_DETAIL_CHARS && header != ""
    ensures AppendChunk(header + Last(whole, MAX_TOOL_DETAIL_CHARS), chunk) ==
            TailHeader(|header| + |chunk|) + Last(whole + chunk, MAX_TOOL_DETAIL_CHARS)
  {
    hide TailHeader;
    var tail := Last(whole, MAX_TOOL_DETAIL_CHARS);
    assert header + tail + chunk == header + (tail + chunk);
    LastOfConcat(whole, chunk, MAX_TOOL_DETAIL_CHARS);
    LastAfterPrefix(header, tail + chunk, MAX_TOOL_DETAIL_CHARS);
  }

  /** Cutting a stream into chunks differently changes nothing but the number in the header. */
  lemma TailIgnoresChunking(xs: seq<string>, ys: seq<string>)
    requires Whole(xs) == Whole(ys)
    ensures |Whole(xs)| <= MAX_TOOL_DETAIL_CHARS ==> Stream(xs) == Stream(ys)
    ensures Last(Stream(xs), MAX_TOOL_DETAIL_CHARS) == Last(Stream(ys), MAX_TOOL_DETAIL_CHARS)
  {
    StreamIsTheTail(xs);
    StreamIsTheTail(ys);
    if |Whole(xs)| > MAX_TOOL_DETAIL_CHARS {
      LastAfterPrefix(TailHeader(ShownCount(xs)), Last(Whole(xs), MAX_TOOL_DETAIL_CHARS), MAX_TOOL_DETAIL_CHARS);
      LastAfterPrefix(TailHeader(ShownCount(ys)), Last(Whole(ys), MAX_TOOL_DETAIL_CHARS), MAX_TOOL_DETAIL_CHARS);
    }
  }

  /** The number is honest exactly as long as only one cut was made: the next empty chunk already
      replaces the true count by the length of the old header. */
  lemma ShownCountIsHonestOnce(chunks: seq<string>, chunk: string)
    ensures |Whole(chunks)| <= MAX_TOOL_DETAIL_CHARS < |Whole(chunks + [chunk])| ==>
              ShownCount(chunks + [chunk]) == |Whole(chunks + [chunk])| - MAX_TOOL_DETAIL_CHARS
    ensures |Whole(chunks)| > MAX_TOOL_DETAIL_CHARS ==>
              (ShownCount(chunks + [chunk]) == |Whole(chunks + [chunk])| - MAX_TOOL_DETAIL_CHARS
               <==> |TailHeader(ShownCount(chunks))| == |Whole(chunks)| - MAX_TOOL_DETAIL_CHARS)
  {
    assert (chunks + [chunk])[..|chunks|] == chunks;
  }
}
