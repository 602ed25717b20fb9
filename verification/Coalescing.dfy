/**
 `coalesce_ready_events`: neighbouring text chunks of one stream become one chunk. The result is
 a normal form, so coalescing again, or coalescing batch by batch, changes nothing.
 */
module Coalescing {
  import opened Events

  predicate Mergeable(prev: ClientEvent, next: ClientEvent) {
    || (prev.MessageChunk? && next.MessageChunk? && prev.role == next.role)
    || (prev.ToolMessageChunk? && next.ToolMessageChunk? && prev.id == next.id)
    || (prev.ToolProgress? && next.ToolProgress? && prev.id == next.id)
  }

  function Merge(prev: ClientEvent, next: ClientEvent): ClientEvent
    requires Mergeable(prev, next)
  {
    prev.(content := prev.content + next.content)
  }

  function Append(out: seq<ClientEvent>, e: ClientEvent): seq<ClientEvent> {
    if out != [] && Mergeable(out[|out| - 1], e)
    then out[..|out| - 1] + [Merge(out[|out| - 1], e)]
    else out + [e]
  }

  function AppendAll(out: seq<ClientEvent>, es: seq<ClientEvent>): seq<ClientEvent> {
    if es == [] then out else Append(AppendAll(out, es[..|es| - 1]), es[|es| - 1])
  }

  function Coalesce(es: seq<ClientEvent>): seq<ClientEvent> {
    AppendAll([], es)
  }

  method CoalesceReadyEvents(events: seq<ClientEvent>) returns (coalesced: seq<ClientEvent>)
    ensures coalesced == Coalesce(events)
    ensures NormalForm(coalesced) && Atoms(coalesced) == Atoms(events) && |coalesced| <= |events|
  {
    coalesced := [];
    for i := 0 to |events|
      invariant coalesced == Coalesce(events[..i])
    {
      assert events[..i + 1][..i] == events[..i];
      coalesced := PushOrExtend(coalesced, events[i]);
    }
    assert events[..|events|] == events;
    CoalesceIsNormal(events);
    CoalesceConserves(events);
  }

  /** The body of the loop: extend the last element in place, or push. */
  method PushOrExtend(coalesced: seq<ClientEvent>, event: ClientEvent) returns (r: seq<ClientEvent>)
    ensures r == Append(coalesced, event)
  {
    if coalesced != [] {
      var init, last := coalesced[..|coalesced| - 1], coalesced[|coalesced| - 1];
      if event.MessageChunk? && last.MessageChunk? && last.role == event.role {
        return init + [MessageChunk(last.role, last.content + event.content)];
      } else if event.ToolMessageChunk? && last.ToolMessageChunk? && last.id == event.id {
        return init + [ToolMessageChunk(last.id, last.content + event.content)];
      } else if event.ToolProgress? && last.ToolProgress? && last.id == event.id {
        return init + [ToolProgress(last.id, last.content + event.content)];
      }
    }
    r := coalesced + [event];
  }

  // ---- Normal form ----

  /** No two neighbours can be merged. */
  ghost predicate NormalForm(es: seq<ClientEvent>) {
    |es| <= 1 || (NormalForm(es[..|es| - 1]) && !Mergeable(es[|es| - 2], es[|es| - 1]))
  }

  lemma {:induction false} NormalFormMeansNoMergeableNeighbours(es: seq<ClientEvent>)
    ensures NormalForm(es) <==> forall i, j :: 0 <= i < |es| && j == i + 1 < |es| ==> !Mergeable(es[i], es[j])
  {
    if |es| > 1 {
      var init := es[..|es| - 1];
      NormalFormMeansNoMergeableNeighbours(init);
      assert forall i :: 0 <= i < |init| ==> init[i] == es[i];
    }
  }

  lemma {:induction false} CoalesceIsNormal(es: seq<ClientEvent>)
    ensures NormalForm(Coalesce(es)) && |Coalesce(es)| <= |es|
  {
    if es != [] {
      CoalesceIsNormal(es[..|es| - 1]);
      AppendKeepsNormalForm(Coalesce(es[..|es| - 1]), es[|es| - 1]);
    }
  }

  lemma AppendKeepsNormalForm(out: seq<ClientEvent>, e: ClientEvent)
    requires NormalForm(out)
    ensures NormalForm(Append(out, e))
  {
    if out != [] {
      var init, l := out[..|out| - 1], out[|out| - 1];
      if Mergeable(l, e) {
        assert (init + [Merge(l, e)])[..|init|] == init;
      } else {
        assert (out + [e])[..|out|] == out;
      }
    }
  }

  lemma {:induction false} NormalFormsAreFixed(es: seq<ClientEvent>)
    requires NormalForm(es)
    ensures Coalesce(es) == es
  {
    if es != [] {
      NormalFormsAreFixed(es[..|es| - 1]);
      assert es == es[..|es| - 1] + [es[|es| - 1]];
    }
  }

  lemma CoalesceIsIdempotent(es: seq<ClientEvent>)
    ensures Coalesce(Coalesce(es)) == Coalesce(es)
  {
    CoalesceIsNormal(es);
    NormalFormsAreFixed(Coalesce(es));
  }

  lemma {:induction false} AppendAllConcat(out: seq<ClientEvent>, a: seq<ClientEvent>, b: seq<ClientEvent>)
    ensures AppendAll(out, a + b) == AppendAll(AppendAll(out, a), b)
  {
    if b == [] {
      assert a + b == a;
    } else {
      AppendAllConcat(out, a, b[..|b| - 1]);
      assert (a + b)[..|a + b| - 1] == a + b[..|b| - 1];
    }
  }

  lemma MergeIsAssociative(out: seq<ClientEvent>, l: ClientEvent, e: ClientEvent)
    requires Mergeable(l, e)
    ensures Append(Append(out, l), e) == Append(out, Merge(l, e))
  {
    if out != [] && Mergeable(out[|out| - 1], l) {
      var o := out[|out| - 1];
      assert o.content + l.content + e.content == o.content + (l.content + e.content);
    }
  }

  lemma {:induction false} AppendCoalesced(out: seq<ClientEvent>, es: seq<ClientEvent>)
    ensures AppendAll(out, Coalesce(es)) == AppendAll(out, es)
  {
    if es != [] {
      var before, e := es[..|es| - 1], es[|es| - 1];
      AppendCoalesced(out, before);
      var done := Coalesce(before);
      if done != [] && Mergeable(done[|done| - 1], e) {
        var init, l := done[..|done| - 1], done[|done| - 1];
        MergeIsAssociative(AppendAll(out, init), l, e);
        assert (init + [Merge(l, e)])[..|init|] == init;
      } else {
        assert (done + [e])[..|done|] == done;
      }
    }
  }

  /** Coalescing the two halves first makes no difference. */
  lemma CoalesceConcat(a: seq<ClientEvent>, b: seq<ClientEvent>)
    ensures Coalesce(a + b) == Coalesce(Coalesce(a) + Coalesce(b))
  {
    AppendAllConcat([], a, b);
    AppendAllConcat([], Coalesce(a), Coalesce(b));
    CoalesceIsIdempotent(a);
    AppendCoalesced(Coalesce(a), b);
  }

  // ---- Nothing is lost ----

  /** An event list taken to its smallest pieces: single characters of a stream, and the other
      events whole. */
  datatype Atom = Char(stream: ClientEvent, c: char) | Whole(e: ClientEvent)

  predicate IsChunk(e: ClientEvent) {
    e.MessageChunk? || e.ToolMessageChunk? || e.ToolProgress?
  }

  function AtomsOf(e: ClientEvent): seq<Atom> {
    if IsChunk(e) then CharsOf(e.(content := ""), e.content) else [Whole(e)]
  }

  function CharsOf(stream: ClientEvent, text: string): seq<Atom> {
    seq(|text|, i requires 0 <= i < |text| => Char(stream, text[i]))
  }

  function Atoms(es: seq<ClientEvent>): seq<Atom> {
    if es == [] then [] else Atoms(es[..|es| - 1]) + AtomsOf(es[|es| - 1])
  }

  /** Every character stays in its stream and in its place among all other events. */
  lemma {:induction false} CoalesceConserves(es: seq<ClientEvent>)
    ensures Atoms(Coalesce(es)) == Atoms(es)
  {
    if es != [] {
      CoalesceConserves(es[..|es| - 1]);
      AppendConserves(Coalesce(es[..|es| - 1]), es[|es| - 1]);
    }
  }

  lemma AtomsPush(es: seq<ClientEvent>, e: ClientEvent)
    ensures Atoms(es + [e]) == Atoms(es) + AtomsOf(e)
  {
    assert (es + [e])[..|es|] == es;
  }

  lemma AppendConserves(out: seq<ClientEvent>, e: ClientEvent)
    ensures Atoms(Append(out, e)) == Atoms(out) + AtomsOf(e)
  {
    if out != [] && Mergeable(out[|out| - 1], e) {
      var init, l := out[..|out| - 1], out[|out| - 1];
      calc {
        Atoms(Append(out, e));
        { AtomsPush(init, Merge(l, e)); }
        Atoms(init) + AtomsOf(Merge(l, e));
        { MergeConserves(l, e); }
        Atoms(init) + (AtomsOf(l) + AtomsOf(e));
        Atoms(init) + AtomsOf(l) + AtomsOf(e);
      }
    } else {
      AtomsPush(out, e);
    }
  }

  lemma MergeConserves(l: ClientEvent, e: ClientEvent)
    requires Mergeable(l, e)
    ensures AtomsOf(Merge(l, e)) == AtomsOf(l) + AtomsOf(e)
  {
    var stream := l.(content := "");
    assert IsChunk(e) && IsChunk(Merge(l, e));
    assert e.(content := "") == stream && Merge(l, e).(content := "") == stream;
    assert CharsOf(stream, l.content + e.content) == CharsOf(stream, l.content) + CharsOf(stream, e.content);
  }

  // ---- The normal form is unique ----

  ghost predicate NoEmptyChunk(es: seq<ClientEvent>) {
    forall e :: e in es && IsChunk(e) ==> e.content != ""
  }

  function LastAtom(e: ClientEvent): Atom
    requires IsChunk(e) ==> e.content != ""
  {
    if IsChunk(e) then Char(e.(content := ""), e.content[|e.content| - 1]) else Whole(e)
  }

  lemma AtomsOfOne(e: ClientEvent)
    requires IsChunk(e) ==> e.content != ""
    ensures AtomsOf(e) != [] && AtomsOf(e)[|AtomsOf(e)| - 1] == LastAtom(e)
  {}

  lemma AtomsOfLast(es: seq<ClientEvent>)
    requires es != [] && NoEmptyChunk(es)
    ensures AtomsOf(es[|es| - 1]) != [] && Atoms(es) != []
    ensures Atoms(es)[|Atoms(es)| - 1] == LastAtom(es[|es| - 1])
  {
    hide AtomsOf, LastAtom;
    assert es[|es| - 1] in es;
    AtomsOfOne(es[|es| - 1]);
  }

  /** Only one list has given atoms, no two mergeable neighbours and no empty chunk: whatever else
      computes such a list from `es` computes `Coalesce(es)`. */
  lemma {:induction false} NormalFormsAreUnique(xs: seq<ClientEvent>, ys: seq<ClientEvent>)
    requires NormalForm(xs) && NormalForm(ys) && NoEmptyChunk(xs) && NoEmptyChunk(ys)
    requires Atoms(xs) == Atoms(ys)
    ensures xs == ys
  {
    hide AtomsOf, LastAtom, Mergeable;
    if xs == [] || ys == [] {
      if xs != [] { AtomsOfLast(xs); }
      if ys != [] { AtomsOfLast(ys); }
    } else {
      var x, y := xs[|xs| - 1], ys[|ys| - 1];
      var xi, yi := xs[..|xs| - 1], ys[..|ys| - 1];
      AtomsOfLast(xs);
      AtomsOfLast(ys);
      LastSizesAgree(xs, ys);
      LastSizesAgree(ys, xs);
      SplitEqual(Atoms(xi), AtomsOf(x), Atoms(yi), AtomsOf(y));
      NormalFormsAreUnique(xi, yi);
      AtomsDetermineEvent(x, y);
      assert xs == xi + [x] && ys == yi + [y];
    }
  }

  lemma AtomsDetermineEvent(x: ClientEvent, y: ClientEvent)
    requires AtomsOf(x) == AtomsOf(y) != []
    ensures x == y
  {
    assert AtomsOf(x)[0] == AtomsOf(y)[0];
    if IsChunk(x) {
      var stream := x.(content := "");
      assert stream == y.(content := "");
      forall i | 0 <= i < |x.content|
        ensures x.content[i] == y.content[i]
      {
        assert AtomsOf(x)[i] == AtomsOf(y)[i];
      }
      assert |AtomsOf(x)| == |x.content| && |AtomsOf(y)| == |y.content|;
      assert x.content == y.content;
      assert x == stream.(content := x.content) && y == stream.(content := y.content);
    }
  }

  lemma SplitEqual<T>(a: seq<T>, b: seq<T>, c: seq<T>, d: seq<T>)
    requires a + b == c + d && |b| == |d|
    ensures a == c && b == d
  {
    assert a == (a + b)[..|a|] && c == (c + d)[..|c|];
    assert b == (a + b)[|a|..] && d == (c + d)[|c|..];
  }

  lemma LastSizesAgree(xs: seq<ClientEvent>, ys: seq<ClientEvent>)
    requires xs != [] && ys != [] && NormalForm(xs) && NoEmptyChunk(xs) && NoEmptyChunk(ys)
    requires Atoms(xs) == Atoms(ys)
    ensures |AtomsOf(xs[|xs| - 1])| >= |AtomsOf(ys[|ys| - 1])|
  {
    hide AtomsOf, Atoms, NoEmptyChunk, Mergeable;
    if |AtomsOf(xs[|xs| - 1])| < |AtomsOf(ys[|ys| - 1])| {
      ShorterLastEventMerges(xs, ys);
    }
  }

  /** A last event with fewer atoms than the other list's last event has a mergeable neighbour. */
  lemma ShorterLastEventMerges(xs: seq<ClientEvent>, ys: seq<ClientEvent>)
    requires xs != [] && ys != [] && NoEmptyChunk(xs) && NoEmptyChunk(ys)
    requires Atoms(xs) == Atoms(ys)
    requires |AtomsOf(xs[|xs| - 1])| < |AtomsOf(ys[|ys| - 1])|
    ensures |xs| > 1 && Mergeable(xs[|xs| - 2], xs[|xs| - 1])
  {
    var x, y := xs[|xs| - 1], ys[|ys| - 1];
    var xi, yi := xs[..|xs| - 1], ys[..|ys| - 1];
    assert |xs| > 1 && NoEmptyChunk(xi) && LastAtom(x) == LastAtom(y) by {
      hide LastAtom, AtomsOf;
      AtomsOfLast(xs);
      AtomsOfLast(ys);
      assert forall e :: e in xi ==> e in xs;
      assert Atoms(xs) == Atoms(xi) + AtomsOf(x) && Atoms(ys) == Atoms(yi) + AtomsOf(y);
    }
    AtomsOfLast(xi);
    assert xi[|xi| - 1] == xs[|xs| - 2] && y in ys && x in xs && xs[|xs| - 2] in xs;
    TailAtom(Atoms(xi), AtomsOf(x), Atoms(yi), AtomsOf(y));
    SameStreamMerges(xs[|xs| - 2], x, y);
  }

  lemma TailAtom<T>(a: seq<T>, b: seq<T>, c: seq<T>, d: seq<T>)
    requires a + b == c + d && |b| < |d|
    ensures a != [] && a[|a| - 1] in d
  {
    assert (a + b)[|a| - 1] == a[|a| - 1];
    assert (c + d)[|a| - 1] == d[|a| - 1 - |c|];
  }

  lemma SameStreamMerges(p: ClientEvent, x: ClientEvent, y: ClientEvent)
    requires (IsChunk(p) ==> p.content != "") && (IsChunk(x) ==> x.content != "") && (IsChunk(y) ==> y.content != "")
    requires LastAtom(p) in AtomsOf(y) && LastAtom(x) == LastAtom(y) && |AtomsOf(x)| < |AtomsOf(y)|
    ensures Mergeable(p, x)
  {}
}
