/** The usage laws for whole runs of the reducer, from a new session on. */
module UsageRuns {
  import opened Options
  import opened Events
  import opened Usage
  import opened Reducer
  import opened ReducerRuns
  import Text

  /** The usage events of a run, each completed from the session as it was when the event came. */
  function UsageOf(env: Env, ui: Ui, es: seq<ClientEvent>): seq<UsageEvent> {
    if es == [] then []
    else
      var before, e := UsageOf(env, ui, es[..|es| - 1]), es[|es| - 1];
      if e.UsageUpdated? then before + [Enrich(ApplyAll(env, ui, es[..|es| - 1]), e.usage)] else before
  }

  // ---- No other event touches the ledger ----

  lemma HelpersKeepUsage(ui: Ui, id: string, parent: Option<string>, name: string, kind: string, isSubagent: bool)
    ensures EnsureTool(ui, id, parent, name, kind, isSubagent).usage == ui.usage
    ensures FinishChildrenOf(ui, parent, id).usage == ui.usage && FinishChildren(ui, id, None).usage == ui.usage
  {
    hide FinishChild;
  }

  lemma StreamingKeepsUsage(env: Env, ui: Ui, e: ClientEvent, id: string, text: string)
    ensures e.ToolMessageChunk? ==> OnToolChunk(ui, e).usage == ui.usage
    ensures e.ToolStarted? ==> OnToolStarted(env, ui, e).usage == ui.usage
    ensures e.ToolUpdated? ==> OnToolUpdated(env, ui, e).usage == ui.usage
    ensures OnToolProgress(ui, id, text).usage == ui.usage && OnEdit(ui, id, text).usage == ui.usage
  {
    hide EnsureTool, FinishChildrenOf, FinishChildren, StreamChunk, StartTool, UpdateFields, ReportProgress, Editing;
    forall ui0: Ui, callId: string, p: Option<string>, name: string, kind: string, isSubagent: bool
      ensures EnsureTool(ui0, callId, p, name, kind, isSubagent).usage == ui0.usage
    {
      HelpersKeepUsage(ui0, callId, p, name, kind, isSubagent);
    }
    if IsToolEvent(e) { HelpersKeepUsage(ui, e.id, if e.ToolStarted? || e.ToolUpdated? then e.parentId else None, "", "", false); }
  }

  lemma ResultsKeepUsage(env: Env, ui: Ui, e: ClientEvent, id: string, text: string, canStop: bool, stopKind: Option<string>)
    ensures e.ToolCompleted? ==> OnToolCompleted(env, ui, e).usage == ui.usage
    ensures e.ToolFailed? ==> OnToolFailed(ui, e).usage == ui.usage
    ensures e.ToolPermissionRequest? ==> OnPermissionRequest(ui, e).usage == ui.usage
    ensures OnPermissionResolved(ui, id, text).usage == ui.usage && OnToolStopped(ui, id, text).usage == ui.usage
    ensures OnStopAvailability(ui, id, canStop, stopKind).usage == ui.usage
  {
    hide EnsureTool, CompleteTool, FailTool, RequestPermission, ResolvePermission, OfferStop, StopTool, NormalizeOutcome, IsOpen;
    forall ui0: Ui, callId: string, p: Option<string>, name: string, kind: string, isSubagent: bool
      ensures EnsureTool(ui0, callId, p, name, kind, isSubagent).usage == ui0.usage
    {
      HelpersKeepUsage(ui0, callId, p, name, kind, isSubagent);
    }
  }

  lemma ToolEventKeepsUsage(env: Env, ui: Ui, e: ClientEvent)
    requires IsToolEvent(e)
    ensures Apply(env, ui, e).usage == ui.usage
  {
    hide Text.StartsWith, OnToolChunk, OnToolStarted, OnToolUpdated, OnToolProgress, OnToolCompleted, OnToolFailed, OnPermissionRequest,
      OnPermissionResolved, OnStopAvailability, OnToolStopped, OnEdit;
    if e.ToolCompleted? || e.ToolFailed? || e.ToolPermissionRequest? {
      ResultsKeepUsage(env, ui, e, e.id, "", false, None);
    } else {
      match e
      case ToolPermissionResolved(id, outcome) => ResultsKeepUsage(env, ui, e, id, outcome, false, None);
      case ToolStopped(id, outcome) => ResultsKeepUsage(env, ui, e, id, outcome, false, None);
      case ToolStopAvailability(id, canStop, stopKind) => ResultsKeepUsage(env, ui, e, id, "", canStop, stopKind);
      case ToolProgress(id, content) => StreamingKeepsUsage(env, ui, e, id, content);
      case ToolDiff(id, path, _) => StreamingKeepsUsage(env, ui, e, id, path);
      case ToolDiffPreview(id, path, _) => StreamingKeepsUsage(env, ui, e, id, path);
      case _ => StreamingKeepsUsage(env, ui, e, "", "");
    }
  }

  lemma SessionEventKeepsUsage(env: Env, ui: Ui, e: ClientEvent)
    requires !IsToolEvent(e) && !e.UsageUpdated?
    ensures Apply(env, ui, e).usage == ui.usage
  {
    hide NewMessageContent, LastMessage, IsCompactionNotice, IsInternalMetadata, FinishOpen, InterruptOpen, CompactedNotice, CompactionStartedNotice;
    LastMessageIsIndex(ui);
  }

  lemma UsageIsRecorded(env: Env, ui: Ui, e: ClientEvent)
    requires e.UsageUpdated?
    ensures Apply(env, ui, e).usage == Record(ui.usage, Enrich(ui, e.usage))
  {
    hide Record, Enrich;
  }

  lemma EventUsage(env: Env, ui: Ui, e: ClientEvent)
    ensures Apply(env, ui, e).usage == if e.UsageUpdated? then Record(ui.usage, Enrich(ui, e.usage)) else ui.usage
  {
    hide Apply, Record, Enrich;
    if e.UsageUpdated? {
      UsageIsRecorded(env, ui, e);
    } else if IsToolEvent(e) {
      ToolEventKeepsUsage(env, ui, e);
    } else {
      SessionEventKeepsUsage(env, ui, e);
    }
  }

  /** The ledger of a run is the ledger of the completed usage events, whatever else happens. */
  lemma {:induction false} LedgerOfARun(env: Env, ui: Ui, es: seq<ClientEvent>)
    requires ui.usage == EMPTY_LEDGER
    ensures ApplyAll(env, ui, es).usage == RecordAll(UsageOf(env, ui, es))
  {
    hide Apply, Record, Enrich;
    if es != [] {
      var before, e := es[..|es| - 1], es[|es| - 1];
      LedgerOfARun(env, ui, before);
      EventUsage(env, ApplyAll(env, ui, before), e);
      var us := UsageOf(env, ui, before);
      if e.UsageUpdated? {
        assert (us + [Enrich(ApplyAll(env, ui, before), e.usage)])[..|us|] == us;
      }
    }
  }

  // ---- The laws, for every session ----

  /** The usage events as they were sent. */
  function SentUsage(es: seq<ClientEvent>): seq<UsageEvent> {
    if es == [] then []
    else
      var before, e := SentUsage(es[..|es| - 1]), es[|es| - 1];
      if e.UsageUpdated? then before + [e.usage] else before
  }

  /** Completing the events changes only to which row they belong. */
  lemma {:induction false} CompletionKeepsMeaning(env: Env, ui: Ui, es: seq<ClientEvent>, a: Axis)
    ensures var us, sent := UsageOf(env, ui, es), SentUsage(es);
            && |us| == |sent| && Deltas(us) == Deltas(sent) && LastTotal(us) == LastTotal(sent) && ExactSum(us, a) == ExactSum(sent, a)
  {
    hide Apply, On;
    if es != [] {
      var before, e := es[..|es| - 1], es[|es| - 1];
      CompletionKeepsMeaning(env, ui, before, a);
      var us, sent := UsageOf(env, ui, before), SentUsage(before);
      if e.UsageUpdated? {
        var u := Enrich(ApplyAll(env, ui, before), e.usage);
        assert (us + [u])[..|us|] == us && (sent + [e.usage])[..|sent|] == sent;
        assert u.scope == e.usage.scope && u.tokens == e.usage.tokens;
      }
    }
  }

  /** In every session, after every list of events: the session total is the last non-empty total that
      was sent, or the saturated sum of all turn deltas; each row means the same for its own events;
      the counts add up; and without totals the rows sum to the session total, exactly unless a sum
      saturated. */
  lemma UsageOfEverySession(env: Env, welcome: string, model: string, es: seq<ClientEvent>, a: Axis)
    ensures var ui := Bootstrap(welcome, model);
            var ledger, us, sent := ApplyAll(env, ui, es).usage, UsageOf(env, ui, es), SentUsage(es);
            && On(ledger.sessionTotal, a) == Meaning(sent, a)
            && RowsMean(ledger.byModel, us)
            && Sum(ledger.byModel, EventCount) == |sent| && Sum(ledger.byModel, RequestCount) == Deltas(sent)
            && (DeltasOnly(sent) ==> Clamp(Sum(ledger.byModel, Tokens(a))) == On(ledger.sessionTotal, a).UnwrapOr(0))
            && (DeltasOnly(sent) && ExactSum(sent, a).UnwrapOr(0) <= U64_MAX ==>
                  Sum(ledger.byModel, Tokens(a)) == On(ledger.sessionTotal, a).UnwrapOr(0) == ExactSum(sent, a).UnwrapOr(0))
  {
    hide RecordAll, RowsMean, Sum, On, ExactSum, Deltas, LastTotal, ApplyAll;
    var ui := Bootstrap(welcome, model);
    var us := UsageOf(env, ui, es);
    LedgerOfARun(env, ui, es);
    CompletionKeepsMeaning(env, ui, es, a);
    SessionTotalMeaning(us, a);
    RowsMeaning(us);
    CountsAddUp(us);
    if DeltasOnly(us) {
      RowsAddUpToSession(us, a);
      if ExactSum(us, a).UnwrapOr(0) <= U64_MAX { RowsAddUpExactly(us, a); }
    }
  }
}
