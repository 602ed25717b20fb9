/** How many of the times in a list, one for each event, fall into an interval. */
module Counting {
  function CountIn(times: seq<int>, from: int, to: int): nat {
    if times == [] then 0
    else CountIn(times[..|times| - 1], from, to) + if from <= times[|times| - 1] <= to then 1 else 0
  }

  /** How many of the latest times are at or after `from`, all times being in order. */
  function CountSince(times: seq<int>, from: int): nat {
    if times == [] then 0 else CountSince(times[..|times| - 1], from) + if from <= times[|times| - 1] then 1 else 0
  }

  function CountWithin(times: seq<int>, from: int, length: nat): nat {
    CountIn(times, from, from + length)
  }

  // ---- Counting ----

  lemma {:induction false} CountInSplit(times: seq<int>, from: int, to: int, at: int)
    ensures CountIn(times, from, to) <= CountIn(times, from, at - 1) + CountSince(times, at)
  {
    if times != [] { CountInSplit(times[..|times| - 1], from, to, at); }
  }

  lemma {:induction false} CountInWider(times: seq<int>, from: int, to: int, from': int, to': int)
    requires from' <= from && to <= to'
    ensures CountIn(times, from, to) <= CountIn(times, from', to')
  {
    if times != [] { CountInWider(times[..|times| - 1], from, to, from', to'); }
  }

  lemma {:induction false} CountInSince(times: seq<int>, from: int, to: int)
    ensures CountIn(times, from, to) <= CountSince(times, from)
  {
    if times != [] { CountInSince(times[..|times| - 1], from, to); }
  }

  lemma {:induction false} CountSinceLater(times: seq<int>, from: int, later: int)
    requires from <= later
    ensures CountSince(times, later) <= CountSince(times, from)
  {
    if times != [] { CountSinceLater(times[..|times| - 1], from, later); }
  }

  lemma {:induction false} CountSincePast(times: seq<int>, from: int)
    requires forall i :: 0 <= i < |times| ==> times[i] < from
    ensures CountSince(times, from) == 0
  {
    if times != [] {
      CountSincePast(times[..|times| - 1], from);
    }
  }

  lemma CountPush(times: seq<int>, t: int, from: int, to: int)
    ensures CountIn(times + [t], from, to) == CountIn(times, from, to) + if from <= t <= to then 1 else 0
    ensures CountSince(times + [t], from) == CountSince(times, from) + if from <= t then 1 else 0
  {
    assert (times + [t])[..|times|] == times;
  }
}
