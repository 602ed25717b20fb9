/** The reducer follows the table of `ToolStatus`, for every event and over every run. */
module ToolStatusRuns {
  import opened Options
  import opened Events
  import opened Text
  import opened Reducer
  import opened ReducerRuns
  import opened ToolLife
  import opened ToolStatus

  // ---- Tool events ----

  lemma ChunkFollows(env: Env, ui: Ui, e: ClientEvent, callId: string)
    requires e.ToolMessageChunk?
    ensures Follows(env, ui, e, OnToolChunk(ui, e), callId)
  {
    hide Follows, SetAside, EnsureTool, StreamChunk, FinishChildren, SetTool, ToolOf;
    ChildrenSetAside(ui, e);
    EnsuredFollows(env, ui, FinishChildren(ui, e.id, None), e, false, callId);
  }

  lemma StartedFollows(env: Env, ui: Ui, e: ClientEvent, callId: string)
    requires e.ToolStarted? && !FinishedAlready(ui, e.id)
    ensures Follows(env, ui, e, OnToolStarted(env, ui, e), callId)
  {
    hide Follows, SetAside, EnsureTool, StartTool, FinishChildrenOf, SetTool, ToolOf;
    ChildrenSetAside(ui, e);
    EnsuredFollows(env, ui, FinishChildrenOf(ui, e.parentId, e.id), e, false, callId);
  }

  lemma UpdatedFollows(env: Env, ui: Ui, e: ClientEvent, callId: string)
    requires e.ToolUpdated?
    ensures Follows(env, ui, e, OnToolUpdated(env, ui, e), callId)
  {
    hide Follows, SetAside, EnsureTool, UpdateFields, FinishChildrenOf, SetTool, ToolOf;
    ChildrenSetAside(ui, e);
    EnsuredFollows(env, ui, FinishChildrenOf(ui, e.parentId, e.id), e, false, callId);
  }

  lemma ProgressFollows(env: Env, ui: Ui, e: ClientEvent, callId: string)
    requires e.ToolProgress?
    ensures Follows(env, ui, e, OnToolProgress(ui, e.id, e.content), callId)
  {
    hide Follows, SetAside, EnsureTool, ReportProgress, SetTool, ToolOf;
    NothingAside(ui, e);
    EnsuredFollows(env, ui, ui, e, false, callId);
  }

  lemma EditFollows(env: Env, ui: Ui, e: ClientEvent, callId: string)
    requires e.ToolDiff? || e.ToolDiffPreview?
    ensures Follows(env, ui, e, OnEdit(ui, e.id, e.path), callId)
  {
    hide Follows, SetAside, EnsureTool, Editing, SetTool, ToolOf;
    NothingAside(ui, e);
    EnsuredFollows(env, ui, ui, e, false, callId);
  }

  lemma ResultFollows(env: Env, ui: Ui, e: ClientEvent, callId: string)
    requires (e.ToolCompleted? || e.ToolFailed?) && !FinishedAlready(ui, e.id)
    ensures e.ToolCompleted? ==> Follows(env, ui, e, OnToolCompleted(env, ui, e), callId)
    ensures e.ToolFailed? ==> Follows(env, ui, e, OnToolFailed(ui, e), callId)
  {
    hide Follows, SetAside, EnsureTool, CompleteTool, FailTool, SetTool, ToolOf, Refresh;
    NothingAside(ui, e);
    EnsuredFollows(env, ui, ui, e, false, callId);
  }

  lemma RequestFollows(env: Env, ui: Ui, e: ClientEvent, callId: string)
    requires e.ToolPermissionRequest?
    ensures Follows(env, ui, e, OnPermissionRequest(ui, e), callId)
  {
    hide Follows, SetAside, EnsureTool, RequestPermission, SetTool;
    NothingAside(ui, e);
    var i := FindTool(ui.tools, e.id);
    var asked := i < |ui.tools| && ui.tools[i].kind != "permission";
    EnsureToolOf(ui, e.id, None, e.name, "permission", false, e.id);
    EnsuredFollows(env, ui, ui, e, asked, callId);
  }

  lemma ExistingFollows(env: Env, ui: Ui, e: ClientEvent, callId: string)
    requires (e.ToolPermissionResolved? || e.ToolStopAvailability? || e.ToolStopped?) && ToolOf(ui, e.id).Some?
    ensures var t' := Change(env, e, TheTool(ui, e.id), TheTool(ui, e.id).kind != "permission");
            && Follows(env, ui, e, SetTool(ui, e.id, t'), callId) && Follows(env, ui, e, Refresh(SetTool(ui, e.id, t')), callId)
  {
    hide Change, Own, SetTool, Refresh, Aside, StandOf, Placed, Fresh;
    var t := TheTool(ui, e.id);
    var t' := Change(env, e, t, t.kind != "permission");
    ChangeKeepsId(env, t, e, t.kind != "permission");
    SetToolOf(ui, e.id, t', callId);
    StatusOnly(SetTool(ui, e.id, t'), Streaming, callId);
    ChangeStands(env, t, e);
    NothingPlaced(e, StandOf(t));
    if ToolOf(ui, callId).Some? { AsideStands(ToolOf(ui, callId).value, e); ToolOfHasId(ui, callId); }
  }

  lemma AnswerFollows(env: Env, ui: Ui, e: ClientEvent, callId: string)
    requires (e.ToolPermissionResolved? || e.ToolStopAvailability? || e.ToolStopped?) && ToolOf(ui, e.id).Some?
    ensures e.ToolPermissionResolved? ==> Follows(env, ui, e, OnPermissionResolved(ui, e.id, e.outcome), callId)
    ensures e.ToolStopAvailability? ==> Follows(env, ui, e, OnStopAvailability(ui, e.id, e.canStop, e.stopKind), callId)
    ensures e.ToolStopped? ==> Follows(env, ui, e, OnToolStopped(ui, e.id, e.outcome), callId)
  {
    hide Follows, ResolvePermission, StopTool, OfferStop, NormalizeOutcome, Refresh, SetTool;
    ExistingFollows(env, ui, e, callId);
  }

  /** Every tool event that is not ignored follows the table. */
  lemma ToolEventFollows(env: Env, ui: Ui, e: ClientEvent, callId: string)
    requires IsToolEvent(e) && !Ignored(ui, e)
    ensures Follows(env, ui, e, Apply(env, ui, e), callId)
  {
    hide Follows, StartsWith, OnToolChunk, OnToolStarted, OnToolUpdated, OnToolProgress, OnToolCompleted, OnToolFailed,
      OnPermissionRequest, OnPermissionResolved, OnStopAvailability, OnToolStopped, OnEdit;
    match e
    case ToolMessageChunk(_, _) => ChunkFollows(env, ui, e, callId);
    case ToolStarted(_, _, _, _, _, _, _) => StartedFollows(env, ui, e, callId);
    case ToolUpdated(_, _, _, _, _, _, _, _, _, _) => UpdatedFollows(env, ui, e, callId);
    case ToolProgress(_, _) => ProgressFollows(env, ui, e, callId);
    case ToolCompleted(_, _, _, _, _) => ResultFollows(env, ui, e, callId);
    case ToolFailed(_, _, _, _, _) => ResultFollows(env, ui, e, callId);
    case ToolDiff(_, _, _) => EditFollows(env, ui, e, callId);
    case ToolDiffPreview(_, _, _) => EditFollows(env, ui, e, callId);
    case ToolPermissionRequest(_, _, _, _, _) => RequestFollows(env, ui, e, callId);
    case _ => AnswerFollows(env, ui, e, callId);
  }

  // ---- Session events ----

  lemma TurnEndFollows(ui: Ui, reason: string, callId: string)
    ensures var before, after := ToolOf(ui, callId), ToolOf(OnTurnFinished(ui, reason), callId);
            (after.Some? <==> before.Some?) && (before.Some? ==> StandOf(after.value) == AtTurnEnd(StandOf(before.value), reason))
    ensures var before, after := ToolOf(ui, callId), ToolOf(OnInterrupted(ui, reason), callId);
            (after.Some? <==> before.Some?) && (before.Some? ==> StandOf(after.value) == AtInterruption(StandOf(before.value), reason))
  {
    hide FinishOpen, InterruptOpen, StandOf, AtTurnEnd, AtInterruption;
    forall t
      ensures FinishOpen(t, reason).callId == t.callId && InterruptOpen(t, reason).callId == t.callId
      ensures StandOf(FinishOpen(t, reason)) == AtTurnEnd(StandOf(t), reason)
      ensures StandOf(InterruptOpen(t, reason)) == AtInterruption(StandOf(t), reason)
    {
      ClosingPasses(t, "", None, reason);
      TurnEndStands(t, reason);
      InterruptionStands(t, reason);
    }
    MapToolOf(ui, t => FinishOpen(t, reason), callId);
    MapToolOf(ui, t => InterruptOpen(t, reason), callId);
  }

  lemma OtherEventsKeepTools(env: Env, ui: Ui, e: ClientEvent)
    requires !IsToolEvent(e) && !e.TurnFinished? && !e.Interrupted?
    ensures Apply(env, ui, e).tools == ui.tools
  {
    hide NewMessageContent, LastMessage, IsCompactionNotice, IsInternalMetadata, CompactedNotice, CompactionStartedNotice;
    LastMessageIsIndex(ui);
  }

  // ---- The whole table ----

  lemma WithoutTraceIsIgnored(ui: Ui, m: Stands, e: ClientEvent)
    requires Stood(ui, m) && IsToolEvent(e)
    ensures WithoutTrace(m, e) <==> Ignored(ui, e)
  {
    hide StartsWith;
    assert e.id in m <==> ToolOf(ui, e.id).Some?;
  }

  lemma ToolEventSteps(env: Env, ui: Ui, m: Stands, e: ClientEvent)
    requires Stood(ui, m) && IsToolEvent(e)
    ensures Stood(Apply(env, ui, e), Next(env, m, e))
  {
    hide Apply, ToolOf, Ignored, WithoutTrace, Own, Aside, StandOf, Fresh, NamedParent, Placed;
    WithoutTraceIsIgnored(ui, m, e);
    if Ignored(ui, e) {
      IgnoredChangesNothing(env, ui, e);
    } else {
      var m', ui' := Next(env, m, e), Apply(env, ui, e);
      forall id
        ensures (id in m' <==> ToolOf(ui', id).Some?) && (id in m' ==> m'[id] == StandOf(ToolOf(ui', id).value))
      {
        ToolEventFollows(env, ui, e, id);
        assert id in m <==> ToolOf(ui, id).Some?;
      }
    }
  }

  lemma SessionEventSteps(env: Env, ui: Ui, m: Stands, e: ClientEvent)
    requires Stood(ui, m) && !IsToolEvent(e)
    ensures Stood(Apply(env, ui, e), Next(env, m, e))
  {
    hide Apply, AtTurnEnd, AtInterruption, StandOf, OnTurnFinished, OnInterrupted;
    if e.TurnFinished? || e.Interrupted? {
      TurnEnds(env, ui, e);
      var m', ui' := Next(env, m, e), Apply(env, ui, e);
      forall id
        ensures (id in m' <==> ToolOf(ui', id).Some?) && (id in m' ==> m'[id] == StandOf(ToolOf(ui', id).value))
      {
        TurnEndFollows(ui, if e.TurnFinished? then e.stopReason else e.reason, id);
        assert id in m <==> ToolOf(ui, id).Some?;
      }
    } else {
      OtherEventsKeepTools(env, ui, e);
      forall id
        ensures ToolOf(Apply(env, ui, e), id) == ToolOf(ui, id)
      {
      }
    }
  }

  /** The status law of one event, for all tools at once. */
  lemma EventFollowsTheTable(env: Env, ui: Ui, m: Stands, e: ClientEvent)
    requires Stood(ui, m)
    ensures Stood(Apply(env, ui, e), Next(env, m, e))
  {
    hide Apply, Next, Stood;
    if IsToolEvent(e) { ToolEventSteps(env, ui, m, e); } else { SessionEventSteps(env, ui, m, e); }
  }

  /** Over every run: which tools there are and how each of them stands is the fold of the table over the
      events. */
  lemma {:induction false} RunsFollowTheTable(env: Env, ui: Ui, m: Stands, es: seq<ClientEvent>)
    requires Stood(ui, m)
    ensures Stood(ApplyAll(env, ui, es), NextAll(env, m, es))
  {
    hide Apply, Next, Stood;
    if es != [] {
      RunsFollowTheTable(env, ui, m, es[..|es| - 1]);
      EventFollowsTheTable(env, ApplyAll(env, ui, es[..|es| - 1]), NextAll(env, m, es[..|es| - 1]), es[|es| - 1]);
    }
  }

  /** A session starts with its scan tool pending. */
  lemma BootstrapStands(welcome: string, model: string)
    ensures Stood(Bootstrap(welcome, model),
                  map["workspace.scan" := Stand(Pending, None, None, "workspace.scan", "system", "准备检查 ACP 和 Git 活动", None, false, None,
                                                  None, [], None, None, None, None, "", false,
                                                  [ToolLogEntry("就绪", "等待第一个 ACP 工具调用")])])
  {
    var ui := Bootstrap(welcome, model);
    forall id
      ensures ToolOf(ui, id) == if id == "workspace.scan" then Some(ui.tools[0]) else None
    {
      assert ui.tools[1..] == [];
    }
  }
}
