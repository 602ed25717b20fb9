/** What a call takes from the channel: everything that is ready, up to a full batch. */
module PromptBatches {
  import opened Options
  import opened Events
  import opened PromptTasks

  /** The first `n` polls were taken into a batch of `size` events, and rightly no more: it is full, the
      feed is used up, or the last poll found nothing. Only the first poll of an unfinished prompt may
      find nothing without ending the batch. */
  predicate StopsRightly(feed: seq<Poll>, finished: bool, n: nat, size: nat) {
    && n <= |feed|
    && (forall i :: 0 <= i < n && feed[i].NotYet? ==> i == n - 1 || (i == 0 && !finished))
    && (|| size == MAX_READY_EVENTS_PER_COLLECT || n == |feed|
        || (n > 0 && feed[n - 1].NotYet? && (finished || n > 1)))
  }

  lemma SentPush(feed: seq<Poll>, n: nat)
    requires 0 < n <= |feed|
    ensures Sent(feed[..n]) == (if feed[0].Ready? then [feed[0].event] else []) + Sent(feed[1..][..n - 1])
  {
    assert feed[..n][1..] == feed[1..][..n - 1];
  }

  lemma {:induction false} DrainTakes(p: Pump) returns (n: nat)
    requires |p.events| <= MAX_READY_EVENTS_PER_COLLECT
    ensures n <= |p.feed|
    ensures Drain(p).feed == p.feed[n..] && Drain(p).events == p.events + Sent(p.feed[..n])
    ensures StopsRightly(p.feed, true, n, |Drain(p).events|)
    decreases |p.feed|
  {
    if |p.events| >= MAX_READY_EVENTS_PER_COLLECT || p.feed == [] {
      n := 0;
      assert p.events + Sent(p.feed[..0]) == p.events;
    } else if p.feed[0].Ready? {
      var next := Take(p, p.feed[0].event, p.feed[1..]);
      var m := DrainTakes(next);
      n := m + 1;
      SentPush(p.feed, n);
      assert p.feed[1..][m..] == p.feed[n..];
      assert p.events + [p.feed[0].event] + Sent(p.feed[1..][..m]) == p.events + ([p.feed[0].event] + Sent(p.feed[1..][..m]));
      forall i | 0 <= i < n && p.feed[i].NotYet?
        ensures i == n - 1
      {
        assert p.feed[1..][i - 1] == p.feed[i];
      }
      assert m > 0 ==> p.feed[1..][m - 1] == p.feed[m];
    } else {
      n := 1;
      SentPush(p.feed, 1);
      assert p.events + Sent(p.feed[..1]) == p.events;
    }
  }

  lemma CollectTakes(p: Pump, lastError: Option<string>) returns (n: nat)
    requires |p.events| <= 1 && (p.finished || p.feed != [])
    ensures n <= |p.feed|
    ensures Collected(p, lastError).feed == p.feed[n..] && Collected(p, lastError).events == p.events + Sent(p.feed[..n])
    ensures StopsRightly(p.feed, p.finished, n, |Collected(p, lastError).events|)
  {
    if p.finished {
      n := DrainTakes(p);
    } else {
      var first := FirstPoll(p, lastError);
      var m := DrainTakes(first);
      n := m + 1;
      SentPush(p.feed, n);
      assert p.feed[1..][m..] == p.feed[n..];
      forall i | 0 <= i < n && p.feed[i].NotYet?
        ensures i == n - 1 || i == 0
      {
        assert i > 0 ==> p.feed[1..][i - 1] == p.feed[i];
      }
      assert m > 0 ==> p.feed[1..][m - 1] == p.feed[m];
      assert p.events + [] == p.events;
      if p.feed[0].Ready? {
        assert p.events + [p.feed[0].event] + Sent(p.feed[1..][..m]) == p.events + ([p.feed[0].event] + Sent(p.feed[1..][..m]));
      }
    }
  }

  /** A collect takes all that is ready. On an unfinished prompt whose feed is used up it hands out the
      made-up interruption instead. */
  lemma CollectIsMaximal(r: Run, lastError: Option<string>) returns (n: nat)
    requires r.finished || r.feed != []
    ensures n <= |r.feed|
    ensures var after := DoCall(r, Collect, lastError);
            && after.raw == r.raw + [Sent(r.feed[..n])] && after.feed == r.feed[n..]
            && StopsRightly(r.feed, r.finished, n, |Sent(r.feed[..n])|)
  {
    n := CollectTakes(Pump([], r.finished, r.feed), lastError);
    assert [] + Sent(r.feed[..n]) == Sent(r.feed[..n]);
  }

  lemma {:induction false} AwaitFinds(feed: seq<Poll>) returns (m: nat)
    ensures m <= |feed| && forall i :: 0 <= i < m ==> feed[i].NotYet?
    ensures m < |feed| ==> feed[m].Ready? && Await(feed) == (Some(feed[m].event), feed[m + 1..])
    ensures m == |feed| ==> Await(feed) == (None, [])
  {
    if feed == [] {
      m := 0;
    } else if feed[0].Ready? {
      m := 0;
    } else {
      var k := AwaitFinds(feed[1..]);
      m := k + 1;
      forall i | 0 <= i < m
        ensures feed[i].NotYet?
      {
        assert i > 0 ==> feed[1..][i - 1] == feed[i];
      }
      if m < |feed| {
        assert feed[1..][k] == feed[m] && feed[1..][k + 1..] == feed[m + 1..];
      }
    }
  }

  /** A wait blocks until the first event, which it takes together with all that is ready behind it. */
  lemma WaitIsMaximal(r: Run, lastError: Option<string>) returns (m: nat, n: nat)
    requires !r.finished
    ensures m <= |r.feed| && forall i :: 0 <= i < m ==> r.feed[i].NotYet?
    ensures m == |r.feed| ==> DoCall(r, Wait, lastError) == r.(feed := [])
    ensures m < |r.feed| ==>
      && r.feed[m].Ready?
      && var after, e, rest := DoCall(r, Wait, lastError), r.feed[m].event, r.feed[m + 1..];
         if !IsTerminal(e) && rest == [] then after == Run(true, [], r.raw + [[e, MadeUp(lastError)]])
         else
           && n <= |rest| && after.raw == r.raw + [[e] + Sent(rest[..n])] && after.feed == rest[n..]
           && StopsRightly(rest, IsTerminal(e), n, 1 + |Sent(rest[..n])|)
  {
    n := 0;
    m := AwaitFinds(r.feed);
    if m < |r.feed| {
      var e, rest := r.feed[m].event, r.feed[m + 1..];
      var p := Take(Pump([], false, []), e, rest);
      assert p == Pump([e], IsTerminal(e), rest);
      if !IsTerminal(e) && rest == [] {
        assert [e] + [MadeUp(lastError)] == [e, MadeUp(lastError)];
      } else {
        n := CollectTakes(p, lastError);
      }
    }
  }

  predicate AllReady(feed: seq<Poll>) {
    forall i :: 0 <= i < |feed| ==> feed[i].Ready?
  }

  lemma {:induction false} SentOfReady(feed: seq<Poll>, n: nat)
    requires AllReady(feed) && n <= |feed|
    ensures |Sent(feed)| == |feed| && Sent(feed[..n]) == Sent(feed)[..n]
  {
    if feed != [] {
      SentOfReady(feed[1..], if n > 0 then n - 1 else 0);
      if n > 0 { SentPush(feed, n); }
    }
  }

  /** When all events are there, a collect hands out the first 32 of them, or all if they are fewer. */
  lemma CollectTakesTheFirst(feed: seq<Poll>, raw: seq<seq<ClientEvent>>, lastError: Option<string>)
    requires AllReady(feed) && feed != []
    ensures var k := if |feed| <= 32 then |feed| else 32;
            var after := DoCall(Run(false, feed, raw), Collect, lastError);
            |Sent(feed)| == |feed| && after.raw == raw + [Sent(feed)[..k]] && after.feed == feed[k..]
  {
    hide DoCall;
    var n := CollectIsMaximal(Run(false, feed, raw), lastError);
    SentOfReady(feed, n);
    BatchLimit(Run(false, feed, raw), lastError);
  }

  lemma BatchLimit(r: Run, lastError: Option<string>)
    requires r.finished || r.feed != []
    ensures var after := DoCall(r, Collect, lastError);
            |after.raw| == |r.raw| + 1 && |after.raw[|r.raw|]| <= MAX_READY_EVENTS_PER_COLLECT
  {
    CollectMoves(Pump([], r.finished, r.feed), lastError);
  }
}
