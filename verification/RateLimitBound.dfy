/**
 How many guarded attempts the rate limiter admits: one window's worth in its window, and up to
 twice that in an interval of the same length that spans the turn of a window.
 */
module RateLimitBound {
  import opened RateLimiters
  import opened Counting

  // ---- Guarded attempts ----

  /** What happens to the limiter: an attempt asks at `asked` and, when allowed, is recorded at
      `recorded`; other keys' traffic, questions that are not followed up, and resets come between. */
  datatype Event =
    | Attempt(key: string, asked: int, recorded: int)
    | Question(key: string, at: int)
    | Reset(key: string)

  /** The admitted attempts of one key, by the time they were recorded, in order. */
  datatype Run = Run(table: Table, admitted: seq<int>, clock: int)

  predicate Timely(r: Run, e: Event) {
    match e
    case Attempt(_, asked, recorded) => r.clock <= asked <= recorded
    case Question(_, at) => r.clock <= at
    case Reset(_) => true
  }

  function Step(limits: Limits, key: string, r: Run, e: Event): Run {
    match e
    case Attempt(k, asked, recorded) =>
      if IsAllowed(limits, r.table, k, asked) then
        Run(Recorded(limits, Touched(limits, r.table, k, asked), k, recorded),
            if k == key then r.admitted + [recorded] else r.admitted, recorded)
      else Run(Touched(limits, r.table, k, asked), r.admitted, asked)
    case Question(k, at) => Run(Touched(limits, r.table, k, at), r.admitted, at)
    case Reset(k) => r.(table := r.table - {k})
  }

  function Runs(limits: Limits, key: string, start: int, es: seq<Event>): Run {
    if es == [] then Run(map[], [], start) else Step(limits, key, Runs(limits, key, start, es[..|es| - 1]), es[|es| - 1])
  }

  /** Times never go back, and `key` is never reset. */
  ghost predicate Admissible(limits: Limits, key: string, start: int, es: seq<Event>) {
    es == []
    || (Admissible(limits, key, start, es[..|es| - 1]) && es[|es| - 1] != Reset(key)
        && Timely(Runs(limits, key, start, es[..|es| - 1]), es[|es| - 1]))
  }

  // ---- What every step keeps ----

  /** The window that starts at `start` has counted exactly the attempts admitted since; within a
      window length before it no more than one window's worth was admitted. */
  ghost predicate WindowInv(limits: Limits, e: Entry, admitted: seq<int>) {
    && e.count == CountSince(admitted, e.start) <= limits.maxFailures
    && CountIn(admitted, e.start - limits.windowMs, e.start - 1) <= limits.maxFailures
    && (forall i :: 0 <= i < |admitted| ==> admitted[i] <= e.start + limits.windowMs)
  }

  ghost predicate Bounded(limits: Limits, admitted: seq<int>) {
    forall from :: CountWithin(admitted, from, limits.windowMs) <= 2 * limits.maxFailures
  }

  ghost predicate Inv(limits: Limits, key: string, table: Table, admitted: seq<int>, clock: int) {
    && (key !in table ==> admitted == [])
    && (key in table ==> table[key].start <= clock && WindowInv(limits, table[key], admitted))
    && (forall i :: 0 <= i < |admitted| ==> admitted[i] <= clock)
    && Bounded(limits, admitted)
  }

  /** Looking at the entry later keeps the invariant, also when that starts a new window. */
  lemma CurrentKeepsInv(limits: Limits, key: string, table: Table, admitted: seq<int>, clock: int, now: int)
    requires Inv(limits, key, table, admitted, clock) && clock <= now
    ensures WindowInv(limits, Current(limits, table, key, now), admitted)
    ensures now <= Current(limits, table, key, now).start + limits.windowMs && Current(limits, table, key, now).start <= now
  {
    if key !in table {
    } else if now - table[key].start > limits.windowMs {
      CountSincePast(admitted, now);
      CountInSince(admitted, now - limits.windowMs, now - 1);
      CountSinceLater(admitted, table[key].start, now - limits.windowMs);
    }
  }

  /** Admitting one more attempt into a window that is not full. */
  lemma AdmitKeepsBounds(limits: Limits, e: Entry, admitted: seq<int>, t: int)
    requires WindowInv(limits, e, admitted) && Bounded(limits, admitted) && e.count < limits.maxFailures
    requires e.start <= t <= e.start + limits.windowMs
    ensures WindowInv(limits, e.(count := e.count + 1), admitted + [t]) && Bounded(limits, admitted + [t])
  {
    CountPush(admitted, t, e.start - limits.windowMs, e.start - 1);
    CountPush(admitted, t, e.start, e.start);
    forall from
      ensures CountWithin(admitted + [t], from, limits.windowMs) <= 2 * limits.maxFailures
    {
      CountPush(admitted, t, from, from + limits.windowMs);
      assert CountWithin(admitted, from, limits.windowMs) <= 2 * limits.maxFailures;
      if from <= t <= from + limits.windowMs {
        if e.start <= from {
          CountInSince(admitted, from, from + limits.windowMs);
          CountSinceLater(admitted, e.start, from);
        } else {
          CountInSplit(admitted, from, from + limits.windowMs, e.start);
          CountInWider(admitted, from, e.start - 1, e.start - limits.windowMs, e.start - 1);
        }
      }
    }
  }

  lemma AttemptKeepsInv(limits: Limits, key: string, r: Run, e: Event)
    requires Inv(limits, key, r.table, r.admitted, r.clock) && Timely(r, e) && e.Attempt? && e.key == key
    ensures var r' := Step(limits, key, r, e); Inv(limits, key, r'.table, r'.admitted, r'.clock)
  {
    hide WindowInv, Bounded;
    CurrentKeepsInv(limits, key, r.table, r.admitted, r.clock, e.asked);
    if IsAllowed(limits, r.table, key, e.asked) {
      var touched := Touched(limits, r.table, key, e.asked);
      assert Inv(limits, key, touched, r.admitted, e.asked);
      CurrentKeepsInv(limits, key, touched, r.admitted, e.asked, e.recorded);
      AdmitKeepsBounds(limits, Current(limits, touched, key, e.recorded), r.admitted, e.recorded);
    }
  }

  lemma StepKeepsInv(limits: Limits, key: string, r: Run, e: Event)
    requires Inv(limits, key, r.table, r.admitted, r.clock) && Timely(r, e) && e != Reset(key)
    ensures var r' := Step(limits, key, r, e); Inv(limits, key, r'.table, r'.admitted, r'.clock)
  {
    hide WindowInv, Bounded;
    if e.Attempt? && e.key == key {
      AttemptKeepsInv(limits, key, r, e);
    } else if e.Question? && e.key == key {
      CurrentKeepsInv(limits, key, r.table, r.admitted, r.clock, e.at);
    }
  }

  /** For every timed sequence of guarded attempts without a reset: at most `maxFailures` are
      admitted in the current window, whichever that is, and at most twice as many in any interval
      of the length of a window. */
  lemma {:induction false} AdmittedIsBounded(limits: Limits, key: string, start: int, es: seq<Event>)
    requires Admissible(limits, key, start, es)
    ensures var r := Runs(limits, key, start, es);
            && Inv(limits, key, r.table, r.admitted, r.clock)
            && (key in r.table ==> CountSince(r.admitted, r.table[key].start) <= limits.maxFailures)
            && forall from :: CountWithin(r.admitted, from, limits.windowMs) <= 2 * limits.maxFailures
  {
    if es != [] {
      hide Step, Timely, CountIn, CountSince;
      AdmittedIsBounded(limits, key, start, es[..|es| - 1]);
      StepKeepsInv(limits, key, Runs(limits, key, start, es[..|es| - 1]), es[|es| - 1]);
    }
  }

  // ---- The bound is reached ----

  /** A question opens the window, `n` attempts come as it ends and `m` right after it has. */
  function AroundTheTurn(limits: Limits, key: string, n: nat, m: nat): seq<Event> {
    if m > 0 then AroundTheTurn(limits, key, n, m - 1) + [Attempt(key, limits.windowMs + 1, limits.windowMs + 1)]
    else if n > 0 then AroundTheTurn(limits, key, n - 1, 0) + [Attempt(key, limits.windowMs, limits.windowMs)]
    else [Question(key, 0)]
  }

  lemma RunsPush(limits: Limits, key: string, start: int, es: seq<Event>, e: Event)
    ensures Runs(limits, key, start, es + [e]) == Step(limits, key, Runs(limits, key, start, es), e)
    ensures Admissible(limits, key, start, es) && e != Reset(key) && Timely(Runs(limits, key, start, es), e)
            ==> Admissible(limits, key, start, es + [e])
  {
    hide Step, Timely;
    assert (es + [e])[..|es|] == es;
  }

  lemma AttemptGetsIn(limits: Limits, key: string, r: Run, t: int)
    requires IsAllowed(limits, r.table, key, t)
    ensures var e := Current(limits, r.table, key, t);
            Step(limits, key, r, Attempt(key, t, t)) == Run(r.table[key := e.(count := e.count + 1)], r.admitted + [t], t)
  {
    var e := Current(limits, r.table, key, t);
    assert Current(limits, r.table[key := e], key, t) == e;
    assert r.table[key := e][key := e.(count := e.count + 1)] == r.table[key := e.(count := e.count + 1)];
  }

  ghost predicate TurnReached(limits: Limits, key: string, n: nat, m: nat) {
    var es := AroundTheTurn(limits, key, n, m);
    var r := Runs(limits, key, 0, es);
    && Admissible(limits, key, 0, es)
    && r.table == map[key := if m > 0 then Entry(m, limits.windowMs + 1) else Entry(n, 0)]
    && r.clock == (if m > 0 then limits.windowMs + 1 else if n > 0 then limits.windowMs else 0)
    && CountWithin(r.admitted, 1, limits.windowMs) == n + m
  }

  lemma TurnStep(limits: Limits, key: string, before: seq<Event>, t: int)
    requires Admissible(limits, key, 0, before) && 1 <= t <= 1 + limits.windowMs
    requires var r := Runs(limits, key, 0, before); r.clock <= t && IsAllowed(limits, r.table, key, t)
    ensures var r, r' := Runs(limits, key, 0, before), Runs(limits, key, 0, before + [Attempt(key, t, t)]);
            var e := Current(limits, r.table, key, t);
            && Admissible(limits, key, 0, before + [Attempt(key, t, t)])
            && r'.table == r.table[key := e.(count := e.count + 1)] && r'.clock == t
            && CountWithin(r'.admitted, 1, limits.windowMs) == CountWithin(r.admitted, 1, limits.windowMs) + 1
  {
    hide Runs, Admissible, CountIn, Step, IsAllowed, Current;
    var r := Runs(limits, key, 0, before);
    RunsPush(limits, key, 0, before, Attempt(key, t, t));
    AttemptGetsIn(limits, key, r, t);
    CountPush(r.admitted, t, 1, 1 + limits.windowMs);
  }

  lemma TurnStart(limits: Limits, key: string)
    ensures TurnReached(limits, key, 0, 0)
  {
    var q := Question(key, 0);
    assert [] + [q] == [q];
    RunsPush(limits, key, 0, [], q);
    assert Runs(limits, key, 0, [q]) == Run(map[key := Entry(0, 0)], [], 0);
  }

  lemma {:induction false} EndAdmits(limits: Limits, key: string, n: nat)
    requires n <= limits.maxFailures && limits.windowMs > 0
    ensures TurnReached(limits, key, n, 0)
  {
    hide Runs, Admissible, CountWithin;
    if n == 0 {
      TurnStart(limits, key);
    } else {
      EndAdmits(limits, key, n - 1);
      TurnStep(limits, key, AroundTheTurn(limits, key, n - 1, 0), limits.windowMs);
    }
  }

  /** All of them get in, so `2 * maxFailures` within one window length is the exact bound. */
  lemma {:induction false} TurnAdmitsTwice(limits: Limits, key: string, n: nat, m: nat)
    requires n <= limits.maxFailures && m <= limits.maxFailures && limits.windowMs > 0
    ensures TurnReached(limits, key, n, m)
  {
    hide Runs, Admissible, CountWithin;
    if m == 0 {
      EndAdmits(limits, key, n);
    } else {
      TurnAdmitsTwice(limits, key, n, m - 1);
      TurnStep(limits, key, AroundTheTurn(limits, key, n, m - 1), limits.windowMs + 1);
    }
  }

  // ---- When the limit holds for every interval ----

  /** The starts of the key's windows, as they are after each step. */
  function Starts(limits: Limits, key: string, start: int, es: seq<Event>): set<int> {
    var table := Runs(limits, key, start, es).table;
    (if es == [] then {} else Starts(limits, key, start, es[..|es| - 1])) + if key in table then {table[key].start} else {}
  }

  predicate NoneInside(starts: set<int>, from: int, to: int) {
    forall s :: s in starts ==> !(from < s <= to)
  }

  ghost predicate FewBetween(limits: Limits, starts: set<int>, admitted: seq<int>) {
    forall from, to :: NoneInside(starts, from, to) ==> CountIn(admitted, from, to) <= limits.maxFailures
  }

  lemma StepAdmitsNow(limits: Limits, key: string, r: Run, e: Event)
    ensures var r' := Step(limits, key, r, e);
            r'.admitted == r.admitted || (r'.admitted == r.admitted + [r'.clock] && key in r'.table)
  {
  }

  /** One more admitted attempt: an interval that it falls into lies in its window, or that window
      starts inside the interval. */
  lemma AdmitKeepsFewBetween(limits: Limits, starts: set<int>, e: Entry, admitted: seq<int>, t: int)
    requires FewBetween(limits, starts, admitted) && e.start <= t && CountSince(admitted + [t], e.start) <= limits.maxFailures
    ensures FewBetween(limits, starts + {e.start}, admitted + [t])
  {
    forall from, to | NoneInside(starts + {e.start}, from, to)
      ensures CountIn(admitted + [t], from, to) <= limits.maxFailures
    {
      CountPush(admitted, t, from, to);
      assert NoneInside(starts, from, to);
      if from <= t <= to {
        assert e.start in starts + {e.start} && e.start <= from;
        CountInSince(admitted + [t], from, to);
        CountSinceLater(admitted + [t], e.start, from);
      }
    }
  }

  lemma MoreStartsKeepFewBetween(limits: Limits, starts: set<int>, more: set<int>, admitted: seq<int>)
    requires FewBetween(limits, starts, admitted)
    ensures FewBetween(limits, starts + more, admitted)
  {
    forall from, to | NoneInside(starts + more, from, to)
      ensures CountIn(admitted, from, to) <= limits.maxFailures
    {
      assert NoneInside(starts, from, to);
    }
  }

  /** An interval, of whatever length, holds more admitted attempts than the limit only if a window
      starts inside it, after its first instant. */
  lemma {:induction false} OverTheLimitAcrossAStart(limits: Limits, key: string, start: int, es: seq<Event>)
    requires Admissible(limits, key, start, es)
    ensures FewBetween(limits, Starts(limits, key, start, es), Runs(limits, key, start, es).admitted)
  {
    hide Step, Timely, CountIn, CountSince, FewBetween, Bounded;
    AdmittedIsBounded(limits, key, start, es);
    if es == [] {
      NothingAdmitted(limits, Starts(limits, key, start, es));
    } else {
      var before := es[..|es| - 1];
      OverTheLimitAcrossAStart(limits, key, start, before);
      var r, r' := Runs(limits, key, start, before), Runs(limits, key, start, es);
      StepAdmitsNow(limits, key, r, es[|es| - 1]);
      if r'.admitted == r.admitted {
        MoreStartsKeepFewBetween(limits, Starts(limits, key, start, before), Starts(limits, key, start, es), r.admitted);
        assert Starts(limits, key, start, before) + Starts(limits, key, start, es) == Starts(limits, key, start, es);
      } else {
        AdmitKeepsFewBetween(limits, Starts(limits, key, start, before), r'.table[key], r.admitted, r'.clock);
      }
    }
  }

  lemma NothingAdmitted(limits: Limits, starts: set<int>)
    ensures FewBetween(limits, starts, [])
  {
  }

  /** The promise of a rolling window, over every admissible run and every interval. */
  ghost predicate RollingWindowHolds(limits: Limits, key: string) {
    forall start: int, es: seq<Event>, from: int :: Admissible(limits, key, start, es) ==>
      CountWithin(Runs(limits, key, start, es).admitted, from, limits.windowMs) <= limits.maxFailures
  }

  lemma NeverOverTheLimit(limits: Limits, key: string, start: int, es: seq<Event>, from: int)
    requires Admissible(limits, key, start, es) && (limits.maxFailures == 0 || limits.windowMs == 0)
    ensures CountWithin(Runs(limits, key, start, es).admitted, from, limits.windowMs) <= limits.maxFailures
  {
    hide Runs, CountIn, Starts;
    AdmittedIsBounded(limits, key, start, es);
    OverTheLimitAcrossAStart(limits, key, start, es);
    if limits.windowMs == 0 {
      assert NoneInside(Starts(limits, key, start, es), from, from);
    }
  }

  /** The limit holds for every interval as long as a window exactly when it is trivial: nothing is ever
      allowed, or windows have no length. */
  lemma RollingWindowExactly(limits: Limits, key: string)
    ensures RollingWindowHolds(limits, key) <==> limits.maxFailures == 0 || limits.windowMs == 0
  {
    hide Runs, Admissible, CountWithin, AroundTheTurn;
    if limits.maxFailures == 0 || limits.windowMs == 0 {
      forall start: int, es: seq<Event>, from: int | Admissible(limits, key, start, es)
        ensures CountWithin(Runs(limits, key, start, es).admitted, from, limits.windowMs) <= limits.maxFailures
      {
        NeverOverTheLimit(limits, key, start, es, from);
      }
    } else {
      TurnAdmitsTwice(limits, key, limits.maxFailures, limits.maxFailures);
      var es := AroundTheTurn(limits, key, limits.maxFailures, limits.maxFailures);
      assert Admissible(limits, key, 0, es);
      assert CountWithin(Runs(limits, key, 0, es).admitted, 1, limits.windowMs) > limits.maxFailures;
    }
  }
}
