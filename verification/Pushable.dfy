/**
 The pushable async iterable behind the prompt input: items are pushed, readers call `next` and
 may have to wait. Calls of `next` are numbered; the answer to each call is recorded.
 */
module Pushables {
  datatype Answer<T> = Value(value: T) | Done

  /** The values that the first `n` calls were answered with, in call order. */
  function Values<T>(answers: map<nat, Answer<T>>, n: nat): seq<T> {
    if n == 0 then []
    else
      var before := Values(answers, n - 1);
      if n - 1 in answers && answers[n - 1].Value? then before + [answers[n - 1].value] else before
  }

  lemma {:induction false} ValuesFrame<T>(answers: map<nat, Answer<T>>, call: nat, answer: Answer<T>, n: nat)
    requires n <= call
    ensures Values(answers[call := answer], n) == Values(answers, n)
  {
    if n > 0 {
      ValuesFrame(answers, call, answer, n - 1);
    }
  }

  /** Calls that are still waiting add nothing. */
  lemma {:induction false} ValuesOfWaiting<T>(answers: map<nat, Answer<T>>, from: nat, n: nat)
    requires from <= n && forall k :: k in answers ==> k < from
    ensures Values(answers, n) == Values(answers, from)
  {
    if from < n {
      ValuesOfWaiting(answers, from, n - 1);
    }
  }

  class Pushable<T> {
    var queue: seq<T>
    var resolvers: seq<nat>
    var done: bool
    var calls: nat
    var answers: map<nat, Answer<T>>
    ghost var pushed: seq<T>

    /** The waiting calls are the latest ones, they wait in order, and nobody waits while something
        is queued; what was delivered, followed by the queue, is what was pushed. */
    ghost predicate Valid()
      reads this
    {
      && |resolvers| <= calls
      && (forall i :: 0 <= i < |resolvers| ==> resolvers[i] == calls - |resolvers| + i)
      && (forall k: nat :: k in answers <==> k < calls - |resolvers|)
      && (resolvers != [] ==> queue == [] && !done)
      && Values(answers, calls) + queue == pushed
    }

    constructor ()
      ensures Valid() && pushed == [] && calls == 0
    {
      queue, resolvers, done, calls, answers := [], [], false, 0, map[];
      pushed := [];
    }

    method Answered(call: nat, answer: Answer<T>)
      requires Valid() && resolvers != [] && call == resolvers[0]
      modifies this`answers, this`resolvers
      ensures answers == old(answers)[call := answer] && resolvers == old(resolvers)[1..]
      ensures Values(answers, calls) == old(Values(answers, calls)) + if answer.Value? then [answer.value] else []
    {
      ValuesOfWaiting(answers, call, calls);
      ValuesFrame(answers, call, answer, call);
      answers := answers[call := answer];
      resolvers := resolvers[1..];
      ValuesOfWaiting(answers, call + 1, calls);
    }

    method Push(item: T)
      requires Valid()
      modifies this
      ensures Valid() && pushed == old(pushed) + [item] && calls == old(calls) && done == old(done)
      ensures forall k :: k in old(answers) ==> k in answers && answers[k] == old(answers)[k]
      ensures old(resolvers) != [] ==> answers == old(answers)[old(resolvers)[0] := Value(item)] && queue == []
    {
      if |resolvers| > 0 {
        Answered(resolvers[0], Value(item));
      } else {
        queue := queue + [item];
      }
      pushed := pushed + [item];
    }

    /** Every waiting reader is told that nothing more will come. */
    method End()
      requires Valid()
      modifies this
      ensures Valid() && done && pushed == old(pushed) && queue == old(queue) && calls == old(calls) && resolvers == []
      ensures forall k :: k in old(answers) ==> k in answers && answers[k] == old(answers)[k]
      ensures forall k: nat :: k < calls && k !in old(answers) ==> k in answers && answers[k] == Done
    {
      while |resolvers| > 0
        invariant Valid() && pushed == old(pushed) && queue == old(queue) && calls == old(calls) && done == old(done)
        invariant forall k :: k in old(answers) ==> k in answers && answers[k] == old(answers)[k]
        invariant forall k :: k in answers && k !in old(answers) ==> answers[k] == Done
        decreases |resolvers|
      {
        Answered(resolvers[0], Done);
      }
      done := true;
    }

    /** `next()`: answered at once, or left waiting. */
    method Next() returns (call: nat)
      requires Valid()
      modifies this
      ensures Valid() && call == old(calls) && calls == old(calls) + 1 && pushed == old(pushed) && done == old(done)
      ensures forall k :: k in old(answers) ==> k in answers && answers[k] == old(answers)[k]
      ensures if old(queue) != [] then answers == old(answers)[call := Value(old(queue)[0])] && queue == old(queue)[1..]
              else if done then answers == old(answers)[call := Done]
              else call !in answers && resolvers == old(resolvers) + [call]
    {
      call := calls;
      calls := calls + 1;
      if |queue| > 0 {
        var value := queue[0];
        queue := queue[1..];
        ValuesFrame(answers, call, Value(value), call);
        answers := answers[call := Value(value)];
        return;
      }
      if done {
        ValuesFrame(answers, call, Done, call);
        answers := answers[call := Done];
        return;
      }
      resolvers := resolvers + [call];
    }
  }
}
