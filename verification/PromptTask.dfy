/**
 `PromptTask`: pulls events from the session channel in batches of at most 32 and hands each batch
 out coalesced. Whatever the timing of the channel, no event is lost or reordered, and the prompt is
 finished exactly when a terminal event was handed out.
 */
module PromptTasks {
  import opened Options
  import opened Events
  import opened Coalescing

  const MAX_READY_EVENTS_PER_COLLECT: nat := 32
  const EXIT_REASON := "ACP subprocess exited unexpectedly"

  /** The interruption a collect makes up when the sender is gone. */
  function MadeUp(lastError: Option<string>): ClientEvent {
    Interrupted(lastError.UnwrapOr(EXIT_REASON))
  }

  /** What one poll of the channel finds. */
  datatype Poll = Ready(event: ClientEvent) | NotYet

  /** The receiving end: `feed` lists what the coming polls will find; once it is used up the
      sender is gone and every poll reports a disconnect. */
  class SessionHandle {
    var feed: seq<Poll>
    var lastError: Option<string>

    method TryRecv() returns (poll: Option<Poll>)
      modifies this`feed
      ensures poll == if old(feed) == [] then None else Some(old(feed)[0])
      ensures feed == if old(feed) == [] then [] else old(feed)[1..]
    {
      if feed == [] {
        return None;
      }
      poll, feed := Some(feed[0]), feed[1..];
    }

    /** Blocks over the polls that find nothing. */
    method Recv() returns (event: Option<ClientEvent>)
      modifies this`feed
      ensures (event, feed) == Await(old(feed))
    {
      while feed != []
        invariant Await(feed) == Await(old(feed))
        decreases |feed|
      {
        var poll := feed[0];
        feed := feed[1..];
        if poll.Ready? {
          return Some(poll.event);
        }
      }
      event := None;
    }
  }

  function Await(feed: seq<Poll>): (Option<ClientEvent>, seq<Poll>) {
    if feed == [] then (None, [])
    else if feed[0].Ready? then (Some(feed[0].event), feed[1..])
    else Await(feed[1..])
  }

  // ---- One collect, as a function ----

  /** The pending events, the finished flag and the rest of the feed. */
  datatype Pump = Pump(events: seq<ClientEvent>, finished: bool, feed: seq<Poll>)

  function Take(p: Pump, event: ClientEvent, rest: seq<Poll>): Pump {
    Pump(p.events + [event], p.finished || IsTerminal(event), rest)
  }

  function FirstPoll(p: Pump, lastError: Option<string>): Pump {
    if p.finished then p
    else if p.feed == [] then
      Pump(p.events + [MadeUp(lastError)], true, [])
    else if p.feed[0].Ready? then Take(p, p.feed[0].event, p.feed[1..])
    else p.(feed := p.feed[1..])
  }

  function Drain(p: Pump): Pump
    decreases |p.feed|
  {
    if |p.events| >= MAX_READY_EVENTS_PER_COLLECT || p.feed == [] then p
    else if p.feed[0].Ready? then Drain(Take(p, p.feed[0].event, p.feed[1..]))
    else p.(feed := p.feed[1..])
  }

  function Collected(p: Pump, lastError: Option<string>): Pump {
    Drain(FirstPoll(p, lastError))
  }

  class PromptTask {
    var events: seq<ClientEvent>
    var finished: bool

    constructor ()
      ensures events == [] && !finished
    {
      events, finished := [], false;
    }

    /** `None` when the channel closed before any event came. */
    method WaitForEvents(session: SessionHandle) returns (batch: Option<seq<ClientEvent>>)
      modifies this, session`feed
      ensures var first := if !old(finished) && old(events) == [] then Await(old(session.feed)) else (None, old(session.feed));
              var waits := !old(finished) && old(events) == [];
              if waits && first.0.None? then
                batch.None? && events == [] && !finished && session.feed == first.1
              else
                var before := if waits then Take(Pump([], false, []), first.0.value, first.1)
                              else Pump(old(events), old(finished), old(session.feed));
                var after := Collected(before, session.lastError);
                && batch == Some(Coalesce(after.events))
                && events == [] && finished == after.finished && session.feed == after.feed
    {
      if !finished && events == [] {
        var event := session.Recv();
        if event.None? {
          return None;
        }
        finished := IsTerminal(event.value);
        events := events + [event.value];
        assert events == [event.value];
      }
      var ready := CollectReadyEvents(session);
      batch := Some(ready);
    }

    method CollectReadyEvents(session: SessionHandle) returns (batch: seq<ClientEvent>)
      modifies this, session`feed
      ensures var after := Collected(Pump(old(events), old(finished), old(session.feed)), session.lastError);
              && batch == Coalesce(after.events)
              && events == [] && finished == after.finished && session.feed == after.feed
    {
      if !finished {
        var poll := session.TryRecv();
        match poll {
          case Some(Ready(event)) =>
            finished := IsTerminal(event);
            events := events + [event];
          case Some(NotYet) =>
          case None =>
            events := events + [Interrupted(session.lastError.UnwrapOr(EXIT_REASON))];
            finished := true;
        }
      }
      while |events| < MAX_READY_EVENTS_PER_COLLECT
        invariant Drain(Pump(events, finished, session.feed)) ==
                  Collected(Pump(old(events), old(finished), old(session.feed)), session.lastError)
        invariant session.lastError == old(session.lastError)
        decreases |session.feed|
      {
        var poll := session.TryRecv();
        if poll.None? || poll.value.NotYet? {
          break;
        }
        finished := finished || IsTerminal(poll.value.event);
        events := events + [poll.value.event];
      }
      batch := CoalesceReadyEvents(events);
      events := [];
    }
  }

  // ---- Runs of calls ----

  datatype Call = Wait | Collect

  /** A task between two calls, with the raw batches it has handed out so far. */
  datatype Run = Run(finished: bool, feed: seq<Poll>, raw: seq<seq<ClientEvent>>)

  /** What a call has pending when it starts to collect: a wait first blocks for one event, and
      fails when the channel closes instead. */
  function Before(r: Run, call: Call): Option<Pump> {
    if call.Collect? || r.finished then Some(Pump([], r.finished, r.feed))
    else
      match Await(r.feed)
      case (None, _) => None
      case (Some(event), rest) => Some(Take(Pump([], false, []), event, rest))
  }

  /** One call, as the contracts of the two methods above state it. */
  function DoCall(r: Run, call: Call, lastError: Option<string>): Run {
    match Before(r, call)
    case None => r.(feed := [])
    case Some(before) =>
      var after := Collected(before, lastError);
      Run(after.finished, after.feed, r.raw + [after.events])
  }

  function DoCalls(r: Run, calls: seq<Call>, lastError: Option<string>): Run {
    if calls == [] then r else DoCall(DoCalls(r, calls[..|calls| - 1], lastError), calls[|calls| - 1], lastError)
  }

  function Start(feed: seq<Poll>): Run { Run(false, feed, []) }

  function Concat(batches: seq<seq<ClientEvent>>): seq<ClientEvent> {
    if batches == [] then [] else Concat(batches[..|batches| - 1]) + batches[|batches| - 1]
  }

  function HandedOut(batches: seq<seq<ClientEvent>>): seq<seq<ClientEvent>> {
    seq(|batches|, i requires 0 <= i < |batches| => Coalesce(batches[i]))
  }

  function Sent(feed: seq<Poll>): seq<ClientEvent> {
    if feed == [] then []
    else (if feed[0].Ready? then [feed[0].event] else []) + Sent(feed[1..])
  }

  ghost predicate SeenTerminal(es: seq<ClientEvent>) {
    exists e :: e in es && IsTerminal(e)
  }

  /** Putting the coalesced batches together and coalescing again is coalescing everything. */
  lemma {:induction false} BatchesCoalesce(batches: seq<seq<ClientEvent>>)
    ensures Coalesce(Concat(HandedOut(batches))) == Coalesce(Concat(batches))
  {
    if batches != [] {
      hide Coalesce;
      var init, last := batches[..|batches| - 1], batches[|batches| - 1];
      BatchesCoalesce(init);
      assert HandedOut(batches)[..|init|] == HandedOut(init);
      CoalesceConcat(Concat(HandedOut(init)), Coalesce(last));
      CoalesceIsIdempotent(last);
      CoalesceConcat(Concat(init), last);
    }
  }

  /** Between the pump's start and end the events move from the feed to the batch in order. */
  lemma {:induction false} DrainMoves(p: Pump)
    requires SeenTerminal(p.events) ==> p.finished
    ensures var q := Drain(p);
            && q.events + Sent(q.feed) == p.events + Sent(p.feed)
            && (q.finished <==> p.finished || SeenTerminal(q.events))
            && p.events <= q.events
            && (|p.events| <= MAX_READY_EVENTS_PER_COLLECT ==> |q.events| <= MAX_READY_EVENTS_PER_COLLECT)
    decreases |p.feed|
  {
    if |p.events| < MAX_READY_EVENTS_PER_COLLECT && p.feed != [] && p.feed[0].Ready? {
      TakeMoves(p, p.feed[0].event, p.feed[1..]);
      DrainMoves(Take(p, p.feed[0].event, p.feed[1..]));
    }
  }

  lemma TakeMoves(p: Pump, event: ClientEvent, rest: seq<Poll>)
    requires SeenTerminal(p.events) ==> p.finished
    ensures var q := Take(p, event, rest);
            && (SeenTerminal(q.events) ==> q.finished)
            && (q.finished ==> p.finished || SeenTerminal(q.events))
            && q.events + Sent(rest) == p.events + ([event] + Sent(rest))
  {
    assert event in Take(p, event, rest).events;
  }

  lemma AwaitMoves(feed: seq<Poll>)
    ensures var (event, rest) := Await(feed);
            Sent(feed) == (if event.Some? then [event.value] else []) + Sent(rest)
            && (event.None? ==> rest == [])
  {}

  /** What one collect adds: the next events of the feed, or the interruption made up for a
      disconnect, which can only come once the feed is used up. */
  lemma CollectMoves(p: Pump, lastError: Option<string>)
    requires |p.events| <= 1
    requires SeenTerminal(p.events) ==> p.finished
    ensures var q := Collected(p, lastError);
            && (if !p.finished && p.feed == [] then q == Pump(p.events + [MadeUp(lastError)], true, [])
                else q.events + Sent(q.feed) == p.events + Sent(p.feed))
            && p.events <= q.events && |q.events| <= MAX_READY_EVENTS_PER_COLLECT
            && (q.finished <==> p.finished || SeenTerminal(q.events))
  {
    var f := FirstPoll(p, lastError);
    if p.finished {
      DrainMoves(p);
    } else if p.feed == [] {
      assert MadeUp(lastError) in f.events;
    } else {
      if p.feed[0].Ready? {
        TakeMoves(p, p.feed[0].event, p.feed[1..]);
      }
      DrainMoves(f);
    }
  }

  /** `raw` batches handed out and `rest` still in the feed account for what was sent. */
  ghost predicate Accounted(out: seq<ClientEvent>, rest: seq<Poll>, feed: seq<Poll>, madeUp: ClientEvent) {
    || out + Sent(rest) == Sent(feed)
    || (rest == [] && out == Sent(feed) + [madeUp])
  }

  ghost predicate RunInv(r: Run, feed: seq<Poll>, madeUp: ClientEvent) {
    && (forall b :: b in r.raw ==> |b| <= MAX_READY_EVENTS_PER_COLLECT)
    && (r.finished <==> SeenTerminal(Concat(r.raw)))
    && Accounted(Concat(r.raw), r.feed, feed, madeUp)
    && (!r.finished ==> Concat(r.raw) + Sent(r.feed) == Sent(feed))
  }

  lemma SeenTerminalConcat(a: seq<ClientEvent>, b: seq<ClientEvent>)
    ensures SeenTerminal(a + b) <==> SeenTerminal(a) || SeenTerminal(b)
  {
    forall e | e in a || e in b
      ensures e in a + b
    {}
  }

  lemma AccountMore(out: seq<ClientEvent>, rest: seq<Poll>, feed: seq<Poll>, madeUp: ClientEvent, finished: bool, before: Pump, after: Pump)
    requires Accounted(out, rest, feed, madeUp)
    requires !finished ==> out + Sent(rest) == Sent(feed)
    requires before.events + Sent(before.feed) == Sent(rest)
    requires finished ==> before.events == []
    requires || after.events + Sent(after.feed) == before.events + Sent(before.feed)
             || (!finished && before.feed == [] && after == Pump(before.events + [madeUp], true, []))
    requires rest == [] ==> before.feed == [] && before.events == []
    requires finished && rest == [] ==> after.events == [] && after.feed == []
    ensures Accounted(out + after.events, after.feed, feed, madeUp)
    ensures !after.finished && !finished ==> out + after.events + Sent(after.feed) == Sent(feed)
  {
    assert out + after.events + Sent(after.feed) == out + (after.events + Sent(after.feed));
    if before.feed == [] && after == Pump(before.events + [madeUp], true, []) {
      assert Sent(before.feed) == [];
      assert before.events + Sent(before.feed) == before.events;
      assert out + after.events == out + before.events + [madeUp];
    } else if finished && rest == [] {
      assert out + after.events == out;
    }
  }

  lemma BeforeMoves(r: Run, call: Call)
    ensures match Before(r, call)
            case None => !r.finished && Sent(r.feed) == []
            case Some(p) =>
              && p.events + Sent(p.feed) == Sent(r.feed) && |p.events| <= 1
              && (p.finished <==> r.finished || SeenTerminal(p.events))
              && (r.finished ==> p == Pump([], true, r.feed))
              && (r.feed == [] ==> p.feed == [] && p.events == [])
  {
    AwaitMoves(r.feed);
    if Before(r, call).Some? && Before(r, call).value.events != [] {
      assert Before(r, call).value.events[0] in Before(r, call).value.events;
    }
  }

  lemma BatchKeepsInv(r: Run, feed: seq<Poll>, madeUp: ClientEvent, before: Pump, after: Pump)
    requires RunInv(r, feed, madeUp)
    requires before.events + Sent(before.feed) == Sent(r.feed)
    requires before.finished <==> r.finished || SeenTerminal(before.events)
    requires r.finished ==> before == Pump([], true, r.feed)
    requires r.feed == [] ==> before.feed == [] && before.events == []
    requires || after.events + Sent(after.feed) == before.events + Sent(before.feed)
             || (!r.finished && before.feed == [] && after == Pump(before.events + [madeUp], true, []))
    requires before.events <= after.events && |after.events| <= MAX_READY_EVENTS_PER_COLLECT
    requires after.finished <==> before.finished || SeenTerminal(after.events)
    requires r.finished && r.feed == [] ==> after.events == [] && after.feed == []
    ensures RunInv(Run(after.finished, after.feed, r.raw + [after.events]), feed, madeUp)
  {
    assert (r.raw + [after.events])[..|r.raw|] == r.raw;
    SeenTerminalConcat(Concat(r.raw), after.events);
    assert SeenTerminal(before.events) ==> SeenTerminal(after.events);
    AccountMore(Concat(r.raw), r.feed, feed, madeUp, r.finished, before, after);
  }

  lemma CallKeepsInv(r: Run, call: Call, lastError: Option<string>, feed: seq<Poll>)
    requires RunInv(r, feed, MadeUp(lastError))
    ensures RunInv(DoCall(r, call, lastError), feed, MadeUp(lastError))
  {
    BeforeMoves(r, call);
    if Before(r, call).Some? {
      var before := Before(r, call).value;
      CollectMoves(before, lastError);
      BatchKeepsInv(r, feed, MadeUp(lastError), before, Collected(before, lastError));
    } else {
      assert Concat(r.raw) + [] == Concat(r.raw);
    }
  }

  /** Over every timing of the channel and every sequence of calls: batches are bounded, the prompt
      is finished exactly when a terminal event was handed out, re-coalescing all batches gives
      the coalesced stream, and the stream is what was sent, followed by at most one made-up
      interruption after everything else. */
  lemma {:induction false} EveryRun(feed: seq<Poll>, calls: seq<Call>, lastError: Option<string>)
    ensures var r := DoCalls(Start(feed), calls, lastError);
            && RunInv(r, feed, MadeUp(lastError))
            && Coalesce(Concat(HandedOut(r.raw))) == Coalesce(Concat(r.raw))
  {
    BatchesCoalesce(DoCalls(Start(feed), calls, lastError).raw);
    if calls != [] {
      EveryRun(feed, calls[..|calls| - 1], lastError);
      CallKeepsInv(DoCalls(Start(feed), calls[..|calls| - 1], lastError), calls[|calls| - 1], lastError, feed);
    }
  }

  // ---- When an interruption is made up ----

  /** The channel is closed at the first poll of the collect, and no terminal event came before: for a
      collect, nothing is left; for a wait, just one event was left and that is not a terminal one. */
  predicate MakesUp(r: Run, call: Call) {
    && !r.finished
    && match call
       case Collect => r.feed == []
       case Wait => Await(r.feed).0.Some? && !IsTerminal(Await(r.feed).0.value) && Await(r.feed).1 == []
  }

  /** Exactly then a call adds something to what was sent, and exactly one interruption. */
  lemma MadeUpExactly(r: Run, call: Call, lastError: Option<string>)
    ensures var after := DoCall(r, call, lastError);
            Concat(after.raw) + Sent(after.feed)
            == Concat(r.raw) + Sent(r.feed) + if MakesUp(r, call) then [MadeUp(lastError)] else []
  {
    BeforeMoves(r, call);
    if Before(r, call).Some? {
      var p := Before(r, call).value;
      var q := Collected(p, lastError);
      CollectMoves(p, lastError);
      assert MakesUp(r, call) <==> !p.finished && p.feed == [];
      assert (r.raw + [q.events])[..|r.raw|] == r.raw;
      assert Concat(r.raw) + q.events + Sent(q.feed) == Concat(r.raw) + (q.events + Sent(q.feed));
    }
  }

  /** A call finishes the prompt exactly by handing out a terminal event, received or made up: meeting
      the closed channel later in the call does not count. */
  lemma FinishedExactly(r: Run, call: Call, lastError: Option<string>)
    ensures var after := DoCall(r, call, lastError);
            && r.raw <= after.raw
            && (after.finished <==> r.finished || SeenTerminal(Concat(after.raw[|r.raw|..])))
            && (MakesUp(r, call) ==> after.finished && after.feed == [])
  {
    hide Collected, Concat, MadeUp;
    BeforeMoves(r, call);
    if Before(r, call).Some? {
      var p := Before(r, call).value;
      CollectMoves(p, lastError);
      var batch := Collected(p, lastError).events;
      ConcatOne(batch);
      assert (r.raw + [batch])[|r.raw|..] == [batch];
      assert SeenTerminal(p.events) ==> SeenTerminal(batch);
      assert MakesUp(r, call) ==> !p.finished && p.feed == [];
    } else {
      assert r.raw[|r.raw|..] == [];
      ConcatNone();
    }
  }

  lemma ConcatOne(batch: seq<ClientEvent>)
    ensures Concat([batch]) == batch
  {
    assert [batch][..0] == [] && [] + batch == batch;
  }

  lemma ConcatNone()
    ensures Concat([]) == [] && !SeenTerminal([])
  {
  }

  /** A last event that is not terminal: a collect hands it out, meets the closed channel in its loop
      and leaves the prompt unfinished; a wait hands it out together with the interruption. */
  lemma LastEventDecides(e: ClientEvent, lastError: Option<string>)
    requires !IsTerminal(e)
    ensures DoCall(Start([Ready(e)]), Collect, lastError) == Run(false, [], [[e]])
    ensures DoCall(Start([Ready(e)]), Wait, lastError) == Run(true, [], [[e, MadeUp(lastError)]])
  {
    hide MadeUp;
    var feed := [Ready(e)];
    assert feed[1..] == [];
    assert Take(Pump([], false, []), e, []) == Pump([e], false, []);
    assert Collected(Pump([], false, feed), lastError) == Pump([e], false, []);
    assert Collected(Pump([e], false, []), lastError) == Pump([e] + [MadeUp(lastError)], true, []);
    assert [e] + [MadeUp(lastError)] == [e, MadeUp(lastError)];
    assert [] + [[e]] == [[e]] && [] + [[e, MadeUp(lastError)]] == [[e, MadeUp(lastError)]];
  }

  function Waits(n: nat): seq<Call> {
    if n == 0 then [] else Waits(n - 1) + [Wait]
  }

  lemma ClosedChannelCalls(lastError: Option<string>)
    ensures DoCall(Start([]), Wait, lastError) == Start([])
    ensures DoCall(Start([]), Collect, lastError) == Run(true, [], [[MadeUp(lastError)]])
  {
    assert Collected(Pump([], false, []), lastError) == Pump([MadeUp(lastError)], true, []);
    assert [] + [[MadeUp(lastError)]] == [[MadeUp(lastError)]];
  }

  /** With nothing sent at all, a wait on the closed channel fails and leaves the prompt unfinished,
      however often it is repeated. */
  lemma {:induction false} WaitingOnAClosedChannelNeverFinishes(n: nat, lastError: Option<string>)
    ensures DoCalls(Start([]), Waits(n), lastError) == Start([])
    ensures DoCalls(Start([]), Waits(n) + [Collect], lastError) == Run(true, [], [[MadeUp(lastError)]])
  {
    hide DoCall, MadeUp;
    ClosedChannelCalls(lastError);
    if n > 0 {
      WaitingOnAClosedChannelNeverFinishes(n - 1, lastError);
      assert Waits(n)[..|Waits(n)| - 1] == Waits(n - 1);
    }
    assert (Waits(n) + [Collect])[..|Waits(n)|] == Waits(n);
  }
}
