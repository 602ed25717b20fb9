/** The rest of the usage ledger: the current turn, peaks and titles, and which row an event goes to. */
module UsageEffects {
  import opened Options
  import opened Events
  import opened Usage
  import opened Reducer
  import opened UsageRuns
  import Text

  // ---- The turn ----

  /** What the last turn delta reported. */
  function LastDelta(es: seq<UsageEvent>): TokenBreakdown {
    if es == [] then NO_TOKENS
    else if es[|es| - 1].scope.TurnDelta? then es[|es| - 1].tokens else LastDelta(es[..|es| - 1])
  }

  lemma {:induction false} CurrentTurnExactly(es: seq<UsageEvent>)
    ensures RecordAll(es).currentTurn == LastDelta(es)
  {
    hide UpdateRows, HasTokens, AddTokens;
    if es != [] { CurrentTurnExactly(es[..|es| - 1]); }
  }

  /** A report is empty exactly when it says nothing on any axis. */
  lemma EmptyReportsExactly(b: TokenBreakdown)
    ensures HasTokens(b) <==> exists a :: On(b, a).Some?
    ensures (forall a :: On(b, a).None?) <==> b == NO_TOKENS
  {
    assert b.input == On(b, Input) && b.output == On(b, Output) && b.cacheRead == On(b, CacheRead);
    assert b.cacheWrite == On(b, CacheWrite) && b.reasoning == On(b, Reasoning) && b.total == On(b, Total);
  }

  // ---- Rows ----

  /** The largest occupancy among events, if any reports one. */
  ghost predicate IsPeak(peak: Option<U64>, es: seq<UsageEvent>) {
    && (forall e :: e in es && e.contextUsed.Some? ==> peak.Some? && e.contextUsed.value <= peak.value)
    && (peak.Some? ==> exists e :: e in es && e.contextUsed == peak)
  }

  ghost predicate RowShows(r: Row, es: seq<UsageEvent>) {
    IsPeak(r.contextPeak, es) && r.title == r.key.model.UnwrapOr(r.key.agentCli.UnwrapOr("Unknown model"))
  }

  lemma NewRowShows(e: UsageEvent)
    ensures RowShows(NewRow(e), [])
  {
  }

  lemma RowShowsStep(r: Row, es: seq<UsageEvent>, e: UsageEvent)
    requires RowShows(r, es)
    ensures RowShows(UpdateRow(r, e), es + [e])
  {
    hide AddTokens, HasTokens;
    var r' := UpdateRow(r, e);
    assert r'.title == r.title;
    assert e in es + [e];
    if r.contextPeak.Some? {
      var x :| x in es && x.contextUsed == r.contextPeak;
      assert x in es + [e];
    }
  }

  ghost predicate RowsShow(rows: seq<Row>, es: seq<UsageEvent>) {
    forall r :: r in rows ==> RowShows(r, ForKey(es, r.key))
  }

  lemma RowsShowStep(rows: seq<Row>, es: seq<UsageEvent>, e: UsageEvent)
    requires RowsMean(rows, es) && RowsShow(rows, es)
    ensures RowsShow(UpdateRows(rows, e), es + [e])
  {
    hide RowMeans, RowShows, UpdateRow, FindRow;
    var i, es' := FindRow(rows, KeyOf(e)), es + [e];
    assert es'[..|es|] == es;
    if i == |rows| {
      forall x | x in es
        ensures KeyOf(x) != KeyOf(e)
      {
        assert FindRow(rows, KeyOf(x)) < |rows|;
      }
      ForKeyEmpty(es, KeyOf(e));
      NewRowShows(e);
      RowShowsStep(NewRow(e), [], e);
      assert [] + [e] == [e];
    } else {
      assert rows[i] in rows;
      RowShowsStep(rows[i], ForKey(es, rows[i].key), e);
    }
    var rows' := UpdateRows(rows, e);
    forall r | r in rows'
      ensures RowShows(r, ForKey(es', r.key))
    {
      var j :| 0 <= j < |rows'| && rows'[j] == r;
      if j != i { assert r == rows[j] && r in rows && r.key != KeyOf(e); }
    }
  }

  /** Every row shows the peak of its own events, and is called by its model, or else its agent. */
  lemma {:induction false} RowsShowExactly(es: seq<UsageEvent>)
    ensures RowsShow(RecordAll(es).byModel, es)
  {
    hide RowsShow, RowsMean, UpdateRows, UpdateSession;
    if es != [] {
      var before, e := es[..|es| - 1], es[|es| - 1];
      RowsMeaning(before);
      RowsShowExactly(before);
      RowsShowStep(RecordAll(before).byModel, before, e);
      assert es == before + [e];
    } else {
      NoRowsShow();
    }
  }

  lemma NoRowsShow()
    ensures RowsShow([], [])
  {
  }

  /** Two events are in the same row exactly when they agree on model, provider and agent. */
  lemma SameRowExactly(es: seq<UsageEvent>, x: UsageEvent, y: UsageEvent)
    requires x in es && y in es
    ensures var rows := RecordAll(es).byModel;
            var i, j := FindRow(rows, KeyOf(x)), FindRow(rows, KeyOf(y));
            i < |rows| && j < |rows| && (i == j <==> x.model == y.model && x.provider == y.provider && x.agentCli == y.agentCli)
  {
    hide RecordAll, RowMeans, FindRow;
    RowsMeaning(es);
  }

  // ---- In a session ----

  /** A usage event of a session that names no model counts for the session's model, unless that is blank, and
      one that names no agent for the session's agent. Its row counts it; all other rows stay as they are. */
  lemma UsageGoesToItsRow(env: Env, ui: Ui, u: UsageEvent)
    ensures var key := Key(if u.model.Some? then u.model else if Text.IsBlank(ui.sessionModel) then None else Some(ui.sessionModel),
                           u.provider, if u.agentCli.Some? then u.agentCli else ui.sessionCli);
            var rows, rows' := ui.usage.byModel, Apply(env, ui, UsageUpdated(u)).usage.byModel;
            var i := FindRow(rows, key);
            && i < |rows'| && rows'[i].key == key && |rows'| == (if i < |rows| then |rows| else |rows| + 1)
            && rows'[i].eventCount == (if i < |rows| then rows[i].eventCount else 0) + 1
            && rows'[i].requestCount == (if i < |rows| then rows[i].requestCount else 0) + (if u.scope.TurnDelta? then 1 else 0)
            && forall j :: 0 <= j < |rows| && j != i ==> rows'[j] == rows[j]
  {
    hide FindRow, Apply, UpdateSession, RowTokens, Text.IsBlank;
    UsageIsRecorded(env, ui, UsageUpdated(u));
  }
}
