/**
 The life of one tool under the reducer: which events can touch it, when a finished tool is opened
 again, and what its log text is after any run.
 */
module ToolLife {
  import opened Options
  import opened Events
  import opened Text
  import opened Reducer
  import BoundedTail

  function ToolOf(ui: Ui, callId: string): Option<Tool> {
    var i := FindTool(ui.tools, callId);
    if i < |ui.tools| then Some(ui.tools[i]) else None
  }

  function DetailOf(ui: Ui, callId: string): string {
    if ToolOf(ui, callId).Some? then ToolOf(ui, callId).value.detailText else ""
  }

  // ---- Building blocks ----

  lemma FindToolPush(tools: seq<Tool>, t: Tool, callId: string)
    ensures FindTool(tools + [t], callId) ==
            if FindTool(tools, callId) < |tools| then FindTool(tools, callId)
            else if t.callId == callId then |tools| else |tools| + 1
  {
    if tools == [] {
      assert tools + [t] == [t];
    } else {
      assert (tools + [t])[1..] == tools[1..] + [t];
      FindToolPush(tools[1..], t, callId);
    }
  }

  lemma SetToolOf(ui: Ui, id: string, t: Tool, callId: string)
    requires FindTool(ui.tools, id) < |ui.tools| && t.callId == id
    ensures ToolOf(SetTool(ui, id, t), callId) == if callId == id then Some(t) else ToolOf(ui, callId)
  {
    SameCallIds(ui.tools, SetTool(ui, id, t).tools, callId);
  }

  lemma EnsureToolOf(ui: Ui, id: string, parent: Option<string>, name: string, kind: string, isSubagent: bool, callId: string)
    ensures var ui' := EnsureTool(ui, id, parent, name, kind, isSubagent);
            && (callId != id ==> ToolOf(ui', callId) == ToolOf(ui, callId))
            && ToolOf(ui', id) == Some(TheTool(ui', id))
            && (match ToolOf(ui, id)
                case None => TheTool(ui', id) == NewTool(ui.nextId, id, parent, name, kind, isSubagent)
                case Some(t) => TheTool(ui', id) == t.(parentCallId := if parent.Some? then parent else t.parentCallId,
                                                       isSubagent := isSubagent || t.isSubagent))
  {
    var i := FindTool(ui.tools, id);
    if i < |ui.tools| {
      var t := ui.tools[i];
      var t' := t.(parentCallId := if parent.Some? then parent else t.parentCallId, isSubagent := isSubagent || t.isSubagent);
      SetToolOf(ui, id, t', callId);
      SetToolOf(ui, id, t', id);
    } else {
      FindToolPush(ui.tools, NewTool(ui.nextId, id, parent, name, kind, isSubagent), callId);
      FindToolPush(ui.tools, NewTool(ui.nextId, id, parent, name, kind, isSubagent), id);
    }
  }

  lemma MapToolOf(ui: Ui, f: Tool -> Tool, callId: string)
    requires forall t :: f(t).callId == t.callId
    ensures ToolOf(ui.(tools := MapTools(ui.tools, f)), callId) ==
            if ToolOf(ui, callId).Some? then Some(f(ToolOf(ui, callId).value)) else None
  {
    SameCallIds(ui.tools, MapTools(ui.tools, f), callId);
  }

  lemma EnsureAndSetOf(ui: Ui, id: string, parent: Option<string>, name: string, kind: string, isSubagent: bool, t: Tool, callId: string)
    requires t.callId == id
    ensures ToolOf(SetTool(EnsureTool(ui, id, parent, name, kind, isSubagent), id, t), callId) ==
            if callId == id then Some(t) else ToolOf(ui, callId)
  {
    hide EnsureTool, ToolOf, SetTool;
    EnsureToolOf(ui, id, parent, name, kind, isSubagent, callId);
    SetToolOf(EnsureTool(ui, id, parent, name, kind, isSubagent), id, t, callId);
  }

  // ---- Tools that an event does not address ----

  /** What may happen to a tool in passing: an open one may be closed, a finished one stays as it is. */
  predicate InPassing(t: Tool, t': Tool) {
    t'.callId == t.callId && t'.detailText == t.detailText && (IsFinished(t) ==> t' == t)
  }

  predicate Passed(before: Option<Tool>, after: Option<Tool>) {
    (before.None? && after.None?) || (before.Some? && after.Some? && InPassing(before.value, after.value))
  }

  function Addressee(e: ClientEvent): Option<string> {
    if IsToolEvent(e) then Some(e.id) else None
  }

  lemma ClosingPasses(t: Tool, parent: string, except: Option<string>, reason: string)
    ensures InPassing(t, FinishChild(t, parent, except))
    ensures InPassing(t, FinishOpen(t, reason)) && InPassing(t, InterruptOpen(t, reason))
  {
    hide PushEntry, IsBlank, StartsWith;
  }

  lemma FinishChildrenPass(ui: Ui, parent: string, except: Option<string>, callId: string)
    ensures Passed(ToolOf(ui, callId), ToolOf(FinishChildren(ui, parent, except), callId))
  {
    hide FinishChild, ToolOf;
    forall t ensures InPassing(t, FinishChild(t, parent, except)) { ClosingPasses(t, parent, except, ""); }
    MapToolOf(ui, t => FinishChild(t, parent, except), callId);
  }

  lemma FinishChildrenOfPass(ui: Ui, parent: Option<string>, except: string, callId: string)
    ensures Passed(ToolOf(ui, callId), ToolOf(FinishChildrenOf(ui, parent, except), callId))
  {
    hide FinishChildren;
    if parent.Some? {
      FinishChildrenPass(ui, parent.value, Some(except), callId);
    }
  }

  lemma TurnEndPasses(ui: Ui, reason: string, callId: string)
    ensures Passed(ToolOf(ui, callId), ToolOf(OnTurnFinished(ui, reason), callId))
    ensures Passed(ToolOf(ui, callId), ToolOf(OnInterrupted(ui, reason), callId))
  {
    hide FinishOpen, InterruptOpen;
    forall t
      ensures InPassing(t, FinishOpen(t, reason)) && InPassing(t, InterruptOpen(t, reason))
    {
      ClosingPasses(t, "", None, reason);
    }
    MapToolOf(ui, t => FinishOpen(t, reason), callId);
    MapToolOf(ui, t => InterruptOpen(t, reason), callId);
  }

  /** The tool that an event works on, after any children were closed and the tool was made sure
      to exist. */
  predicate Ensured(before: Option<Tool>, t: Tool, callId: string) {
    && t.callId == callId
    && (if before.None? then t.detailText == "" && !IsFinished(t)
        else
          && t.detailText == before.value.detailText
          && (IsFinished(before.value) ==> t == before.value.(parentCallId := t.parentCallId, isSubagent := t.isSubagent)))
  }

  lemma EnsuredTool(ui: Ui, ui0: Ui, id: string, parent: Option<string>, name: string, kind: string, isSubagent: bool)
    requires Passed(ToolOf(ui, id), ToolOf(ui0, id))
    ensures Ensured(ToolOf(ui, id), TheTool(EnsureTool(ui0, id, parent, name, kind, isSubagent), id), id)
  {
    hide EnsureTool, ToolOf;
    EnsureToolOf(ui0, id, parent, name, kind, isSubagent, id);
  }

  lemma NoChangePasses(ui: Ui, callId: string)
    ensures Passed(ToolOf(ui, callId), ToolOf(ui, callId))
  {}

  // ---- What each event makes of its own tool ----

  /** How an event changes the tool it addresses. */
  function Change(env: Env, e: ClientEvent, t: Tool, wasExecution: bool): Tool
    requires Addressee(e).Some?
  {
    match e
    case ToolMessageChunk(_, content) => StreamChunk(t, content)
    case ToolStarted(_, _, _, _, _, _, _) => StartTool(env, t, e)
    case ToolUpdated(_, _, _, _, _, _, _, _, _, _) => UpdateFields(env, t, e)
    case ToolProgress(_, content) => ReportProgress(t, content)
    case ToolCompleted(_, _, _, _, _) => CompleteTool(env, t, e)
    case ToolFailed(_, _, _, _, _) => FailTool(t, e)
    case ToolDiff(_, path, _) => Editing(t, path)
    case ToolDiffPreview(_, path, _) => Editing(t, path)
    case ToolPermissionRequest(_, _, _, _, _) => RequestPermission(t, wasExecution, e)
    case ToolPermissionResolved(_, outcome) => ResolvePermission(t, NormalizeOutcome(outcome))
    case ToolStopAvailability(_, canStop, stopKind) => OfferStop(t, canStop, stopKind)
    case ToolStopped(_, outcome) => StopTool(t, outcome)
  }

  predicate Ignored(ui: Ui, e: ClientEvent) {
    || ((e.ToolStarted? || e.ToolCompleted? || e.ToolFailed?) && FinishedAlready(ui, e.id))
    || (e.ToolDiff? && StartsWith(e.id, "fs_write:"))
    || ((e.ToolPermissionResolved? || e.ToolStopAvailability? || e.ToolStopped?) && ToolOf(ui, e.id).None?)
  }

  lemma StreamingKeepsCallId(t: Tool, text: string)
    ensures StreamChunk(t, text).callId == t.callId && ReportProgress(t, text).callId == t.callId
    ensures Editing(t, text).callId == t.callId && StopTool(t, text).callId == t.callId
  {
    hide PushEntry, BoundedTail.AppendChunk;
  }

  lemma ResultsKeepCallId(env: Env, t: Tool, e: ClientEvent, wasExecution: bool)
    ensures e.ToolStarted? ==> StartTool(env, t, e).callId == t.callId
    ensures e.ToolUpdated? ==> UpdateFields(env, t, e).callId == t.callId
    ensures e.ToolCompleted? ==> CompleteTool(env, t, e).callId == t.callId
    ensures e.ToolFailed? ==> FailTool(t, e).callId == t.callId
    ensures e.ToolPermissionRequest? ==> RequestPermission(t, wasExecution, e).callId == t.callId
  {
    hide PushEntry, CapOptional, IsBlank, JoinLabels;
  }

  lemma ResolvingKeepsCallId(t: Tool, outcome: string)
    ensures ResolvePermission(t, outcome).callId == t.callId
  {
    hide PushEntry, KeepsLocalReject, AllowsExecution, IsControlSuccess;
  }

  /** What an event does to the tool `callId`, whether it addresses it or not. */
  ghost predicate Acts(env: Env, ui: Ui, e: ClientEvent, ui': Ui, callId: string, t: Tool, wasExecution: bool)
    requires Addressee(e).Some?
  {
    if callId != e.id then Passed(ToolOf(ui, callId), ToolOf(ui', callId))
    else Ensured(ToolOf(ui, callId), t, callId) && ToolOf(ui', callId) == Some(Change(env, e, t, wasExecution))
  }

  lemma StatusOnly(ui: Ui, status: SessionStatus, callId: string)
    ensures ToolOf(ui.(sessionStatus := status), callId) == ToolOf(ui, callId)
    ensures ToolOf(Refresh(ui), callId) == ToolOf(ui, callId)
  {}

  /** Events that work on an ensured tool. */
  lemma EnsuredActs(env: Env, ui: Ui, ui0: Ui, e: ClientEvent, parent: Option<string>, name: string, kind: string, isSubagent: bool,
                    callId: string, wasExecution: bool) returns (t: Tool)
    requires Addressee(e).Some?
    requires Passed(ToolOf(ui, e.id), ToolOf(ui0, e.id)) && Passed(ToolOf(ui, callId), ToolOf(ui0, callId))
    requires forall t :: Change(env, e, t, wasExecution).callId == t.callId
    ensures t == TheTool(EnsureTool(ui0, e.id, parent, name, kind, isSubagent), e.id)
    ensures var ui' := SetTool(EnsureTool(ui0, e.id, parent, name, kind, isSubagent), e.id, Change(env, e, t, wasExecution));
            && Acts(env, ui, e, ui', callId, t, wasExecution)
            && Acts(env, ui, e, ui'.(sessionStatus := WaitingForTool), callId, t, wasExecution)
            && Acts(env, ui, e, Refresh(ui'), callId, t, wasExecution)
  {
    hide Change, EnsureTool, ToolOf, Refresh, SetTool, Passed, Ensured;
    var ui1 := EnsureTool(ui0, e.id, parent, name, kind, isSubagent);
    t := TheTool(ui1, e.id);
    EnsuredTool(ui, ui0, e.id, parent, name, kind, isSubagent);
    EnsureAndSetOf(ui0, e.id, parent, name, kind, isSubagent, Change(env, e, t, wasExecution), callId);
    StatusOnly(SetTool(ui1, e.id, Change(env, e, t, wasExecution)), WaitingForTool, callId);
  }

  lemma ChunkActs(env: Env, ui: Ui, e: ClientEvent, callId: string) returns (t: Tool)
    requires e.ToolMessageChunk?
    ensures Acts(env, ui, e, OnToolChunk(ui, e), callId, t, false)
  {
    hide StreamChunk, EnsureTool, ToolOf, Passed, Ensured;
    forall t ensures StreamChunk(t, e.content).callId == t.callId { StreamingKeepsCallId(t, e.content); }
    FinishChildrenPass(ui, e.id, None, e.id);
    FinishChildrenPass(ui, e.id, None, callId);
    t := EnsuredActs(env, ui, FinishChildren(ui, e.id, None), e, None, "tool", "tool", false, callId, false);
  }

  lemma StartedActs(env: Env, ui: Ui, e: ClientEvent, callId: string) returns (t: Tool)
    requires e.ToolStarted? && !FinishedAlready(ui, e.id)
    ensures Acts(env, ui, e, OnToolStarted(env, ui, e), callId, t, false)
  {
    hide StartTool, EnsureTool, ToolOf, Passed, Ensured, FinishChildrenOf;
    forall t ensures StartTool(env, t, e).callId == t.callId { ResultsKeepCallId(env, t, e, false); }
    FinishChildrenOfPass(ui, e.parentId, e.id, e.id);
    FinishChildrenOfPass(ui, e.parentId, e.id, callId);
    t := EnsuredActs(env, ui, FinishChildrenOf(ui, e.parentId, e.id), e, e.parentId, e.name, e.kind, e.isSubagent, callId, false);
  }

  lemma UpdatedActs(env: Env, ui: Ui, e: ClientEvent, callId: string) returns (t: Tool)
    requires e.ToolUpdated?
    ensures Acts(env, ui, e, OnToolUpdated(env, ui, e), callId, t, false)
  {
    hide UpdateFields, EnsureTool, ToolOf, Passed, Ensured, FinishChildrenOf;
    forall t ensures UpdateFields(env, t, e).callId == t.callId { ResultsKeepCallId(env, t, e, false); }
    FinishChildrenOfPass(ui, e.parentId, e.id, e.id);
    FinishChildrenOfPass(ui, e.parentId, e.id, callId);
    t := EnsuredActs(env, ui, FinishChildrenOf(ui, e.parentId, e.id), e, e.parentId, "tool", "tool", e.isSubagent, callId, false);
  }

  lemma ProgressActs(env: Env, ui: Ui, e: ClientEvent, callId: string) returns (t: Tool)
    requires e.ToolProgress?
    ensures Acts(env, ui, e, OnToolProgress(ui, e.id, e.content), callId, t, false)
  {
    hide ReportProgress, EnsureTool, ToolOf, Passed, Ensured;
    forall t ensures ReportProgress(t, e.content).callId == t.callId { StreamingKeepsCallId(t, e.content); }
    NoChangePasses(ui, e.id);
    NoChangePasses(ui, callId);
    t := EnsuredActs(env, ui, ui, e, None, "tool", "tool", false, callId, false);
  }

  lemma EditActs(env: Env, ui: Ui, e: ClientEvent, callId: string) returns (t: Tool)
    requires e.ToolDiff? || e.ToolDiffPreview?
    ensures Acts(env, ui, e, OnEdit(ui, e.id, e.path), callId, t, false)
  {
    hide Editing, EnsureTool, ToolOf, Passed, Ensured;
    forall t ensures Editing(t, e.path).callId == t.callId { StreamingKeepsCallId(t, e.path); }
    NoChangePasses(ui, e.id);
    NoChangePasses(ui, callId);
    t := EnsuredActs(env, ui, ui, e, None, "Edit", "edit", false, callId, false);
  }

  lemma ResultActs(env: Env, ui: Ui, e: ClientEvent, callId: string) returns (t: Tool)
    requires (e.ToolCompleted? || e.ToolFailed?) && !FinishedAlready(ui, e.id)
    ensures Acts(env, ui, e, if e.ToolCompleted? then OnToolCompleted(env, ui, e) else OnToolFailed(ui, e), callId, t, false)
  {
    hide CompleteTool, FailTool, EnsureTool, ToolOf, Passed, Ensured, Refresh;
    forall t
      ensures Change(env, e, t, false).callId == t.callId
    {
      ResultsKeepCallId(env, t, e, false);
    }
    NoChangePasses(ui, e.id);
    NoChangePasses(ui, callId);
    t := EnsuredActs(env, ui, ui, e, None, e.newName.UnwrapOr("tool"), "tool", false, callId, false);
  }

  lemma RequestActs(env: Env, ui: Ui, e: ClientEvent, callId: string) returns (t: Tool, wasExecution: bool)
    requires e.ToolPermissionRequest?
    ensures Acts(env, ui, e, OnPermissionRequest(ui, e), callId, t, wasExecution)
  {
    hide RequestPermission, EnsureTool, ToolOf, Passed, Ensured;
    var i := FindTool(ui.tools, e.id);
    wasExecution := i < |ui.tools| && ui.tools[i].kind != "permission";
    forall t
      ensures RequestPermission(t, wasExecution, e).callId == t.callId
    {
      ResultsKeepCallId(env, t, e, wasExecution);
    }
    NoChangePasses(ui, e.id);
    NoChangePasses(ui, callId);
    t := EnsuredActs(env, ui, ui, e, None, e.name, "permission", false, callId, wasExecution);
  }

  lemma ExistingKeepsCallId(env: Env, e: ClientEvent, t: Tool)
    requires e.ToolPermissionResolved? || e.ToolStopAvailability? || e.ToolStopped?
    ensures Change(env, e, t, false).callId == t.callId
  {
    hide ResolvePermission, StopTool, NormalizeOutcome;
    if e.ToolPermissionResolved? {
      ResolvingKeepsCallId(t, NormalizeOutcome(e.outcome));
    } else if e.ToolStopped? {
      StreamingKeepsCallId(t, e.outcome);
    }
  }

  lemma ExistingActs(env: Env, ui: Ui, e: ClientEvent, callId: string) returns (t: Tool)
    requires (e.ToolPermissionResolved? || e.ToolStopAvailability? || e.ToolStopped?) && ToolOf(ui, e.id).Some?
    ensures e.ToolPermissionResolved? ==> Acts(env, ui, e, OnPermissionResolved(ui, e.id, e.outcome), callId, t, false)
    ensures e.ToolStopAvailability? ==> Acts(env, ui, e, OnStopAvailability(ui, e.id, e.canStop, e.stopKind), callId, t, false)
    ensures e.ToolStopped? ==> Acts(env, ui, e, OnToolStopped(ui, e.id, e.outcome), callId, t, false)
  {
    hide ResolvePermission, StopTool, OfferStop, NormalizeOutcome, Refresh, SetTool, Acts;
    t := TheTool(ui, e.id);
    var ui' := SetTool(ui, e.id, Change(env, e, t, false));
    assert Acts(env, ui, e, ui', callId, t, false) && Acts(env, ui, e, Refresh(ui'), callId, t, false) by {
      ExistingKeepsCallId(env, e, t);
      SetActs(env, ui, e, callId, t);
    }
  }

  lemma SetActs(env: Env, ui: Ui, e: ClientEvent, callId: string, t: Tool)
    requires Addressee(e).Some? && ToolOf(ui, e.id) == Some(t) && Change(env, e, t, false).callId == t.callId == e.id
    ensures var ui' := SetTool(ui, e.id, Change(env, e, t, false));
            Acts(env, ui, e, ui', callId, t, false) && Acts(env, ui, e, Refresh(ui'), callId, t, false)
  {
    hide Change, Refresh, SetTool;
    SetToolOf(ui, e.id, Change(env, e, t, false), callId);
    StatusOnly(SetTool(ui, e.id, Change(env, e, t, false)), Streaming, callId);
  }

  lemma Addressed(env: Env, ui: Ui, e: ClientEvent, callId: string) returns (t: Tool, wasExecution: bool)
    requires Addressee(e).Some? && !Ignored(ui, e)
    ensures Acts(env, ui, e, Apply(env, ui, e), callId, t, wasExecution)
  {
    hide Acts, StartsWith, OnToolChunk, OnToolStarted, OnToolUpdated, OnToolProgress, OnToolCompleted, OnToolFailed,
      OnPermissionRequest, OnPermissionResolved, OnStopAvailability, OnToolStopped, OnEdit;
    wasExecution := false;
    match e
    case ToolMessageChunk(_, _) => t := ChunkActs(env, ui, e, callId);
    case ToolStarted(_, _, _, _, _, _, _) => t := StartedActs(env, ui, e, callId);
    case ToolUpdated(_, _, _, _, _, _, _, _, _, _) => t := UpdatedActs(env, ui, e, callId);
    case ToolProgress(_, _) => t := ProgressActs(env, ui, e, callId);
    case ToolCompleted(_, _, _, _, _) => t := ResultActs(env, ui, e, callId);
    case ToolFailed(_, _, _, _, _) => t := ResultActs(env, ui, e, callId);
    case ToolDiff(_, _, _) => t := EditActs(env, ui, e, callId);
    case ToolDiffPreview(_, _, _) => t := EditActs(env, ui, e, callId);
    case ToolPermissionRequest(_, _, _, _, _) => t, wasExecution := RequestActs(env, ui, e, callId);
    case _ => t := ExistingActs(env, ui, e, callId);
  }

  // ---- Re-delivery ----

  /** Delivering the start or the result of a finished tool again changes nothing at all. */
  lemma RedeliveryChangesNothing(env: Env, ui: Ui, e: ClientEvent)
    requires e.ToolStarted? || e.ToolCompleted? || e.ToolFailed?
    requires ToolOf(ui, e.id).Some? && IsFinished(ToolOf(ui, e.id).value)
    ensures Apply(env, ui, e) == ui
  {
    hide EnsureTool, StartTool, CompleteTool, FailTool, FinishChildrenOf, Refresh;
  }

  lemma IgnoredChangesNothing(env: Env, ui: Ui, e: ClientEvent)
    requires Addressee(e).Some? && Ignored(ui, e)
    ensures Apply(env, ui, e) == ui
  {
    hide EnsureTool, StartTool, CompleteTool, FailTool, FinishChildrenOf, Refresh, OnEdit, SetTool, ResolvePermission, StopTool,
      OfferStop, NormalizeOutcome, OnToolChunk, OnToolUpdated, OnToolProgress, OnPermissionRequest, IsFinished;
  }

  // ---- Other tools ----

  lemma MessagesPass(ui: Ui, role: MessageRole, content: string)
    ensures OnMessageChunk(ui, role, content).tools == ui.tools
    ensures PushCompactionNotice(ui, content).tools == ui.tools
    ensures ReplaceCompactionNotice(ui, content).tools == ui.tools
  {
    hide LastMessage, NewMessageContent, IsCompactionNotice, IsInternalMetadata;
    assert LastMessage(ui).Some? ==> LastMessage(ui).value < |ui.messages| by { LastMessageIsIndex(ui); }
  }

  lemma SessionEventPasses(env: Env, ui: Ui, e: ClientEvent, callId: string)
    requires Addressee(e).None?
    ensures Passed(ToolOf(ui, callId), ToolOf(Apply(env, ui, e), callId))
  {
    hide OnMessageChunk, PushCompactionNotice, ReplaceCompactionNotice, OnTurnFinished, OnInterrupted, Passed,
      CompactionStartedNotice, CompactedNotice, ToolOf;
    match e
    case TurnFinished(stopReason) => TurnEndPasses(ui, stopReason, callId);
    case Interrupted(reason) => TurnEndPasses(ui, reason, callId);
    case MessageChunk(role, content) =>
      MessagesPass(ui, role, content);
      SameToolsPass(ui, OnMessageChunk(ui, role, content), callId);
    case ContextCompactionStarted(message) =>
      MessagesPass(ui, System, CompactionStartedNotice(message));
      SameToolsPass(ui, PushCompactionNotice(ui, CompactionStartedNotice(message)), callId);
    case ContextCompacted(message) =>
      MessagesPass(ui, System, CompactedNotice(message));
      SameToolsPass(ui, ReplaceCompactionNotice(ui, CompactedNotice(message)), callId);
    case _ => SameToolsPass(ui, Apply(env, ui, e), callId);
  }

  lemma SameToolsPass(ui: Ui, ui': Ui, callId: string)
    requires ui'.tools == ui.tools
    ensures Passed(ToolOf(ui, callId), ToolOf(ui', callId))
  {}

  /** An event leaves the tools it does not address alone, except that it may close open ones. */
  lemma OtherToolsPass(env: Env, ui: Ui, e: ClientEvent, callId: string)
    requires Addressee(e) != Some(callId)
    ensures Passed(ToolOf(ui, callId), ToolOf(Apply(env, ui, e), callId))
  {
    hide Apply, Passed, ToolOf, Ignored;
    if Addressee(e).None? {
      SessionEventPasses(env, ui, e, callId);
    } else if Ignored(ui, e) {
      IgnoredChangesNothing(env, ui, e);
      NoChangePasses(ui, callId);
    } else {
      var _, _ := Addressed(env, ui, e, callId);
    }
  }

  // ---- Finished tools ----

  /** Exactly the events that take a finished tool out of its final state. */
  predicate Reopens(t: Tool, e: ClientEvent) {
    && Addressee(e) == Some(t.callId)
    && match e
       case ToolMessageChunk(_, _) => true
       case ToolProgress(_, _) => true
       case ToolPermissionRequest(_, _, _, _, _) => true
       case ToolStopped(_, _) => true
       case ToolPermissionResolved(_, outcome) =>
         var o := NormalizeOutcome(outcome);
         && t.kind != "permission" && !KeepsLocalReject(t.permissionDecision, o) && t.stopStatus != Some("stopped")
         && !AllowsExecution(o) && !IsControlSuccess(o)
       case _ => false
  }

  lemma ResolvingReopens(t: Tool, outcome: string)
    requires IsFinished(t)
    ensures IsFinished(ResolvePermission(t, outcome)) <==>
            !(&& t.kind != "permission" && !KeepsLocalReject(t.permissionDecision, outcome) && t.stopStatus != Some("stopped")
              && !AllowsExecution(outcome) && !IsControlSuccess(outcome))
  {
    hide PushEntry, KeepsLocalReject, AllowsExecution, IsControlSuccess;
  }

  lemma StreamingReopens(t: Tool, text: string)
    requires IsFinished(t)
    ensures !IsFinished(StreamChunk(t, text)) && !IsFinished(ReportProgress(t, text)) && !IsFinished(StopTool(t, text))
    ensures IsFinished(Editing(t, text))
  {
    hide PushEntry, BoundedTail.AppendChunk;
  }

  lemma UpdateKeepsFinished(env: Env, t: Tool, e: ClientEvent, wasExecution: bool)
    requires IsFinished(t)
    ensures e.ToolUpdated? ==> IsFinished(UpdateFields(env, t, e))
    ensures e.ToolPermissionRequest? ==> !IsFinished(RequestPermission(t, wasExecution, e))
  {
    hide PushEntry, CapOptional, IsBlank, JoinLabels;
  }

  lemma ChangeReopens(env: Env, e: ClientEvent, t: Tool, wasExecution: bool)
    requires Addressee(e) == Some(t.callId) && IsFinished(t) && !e.ToolStarted? && !e.ToolCompleted? && !e.ToolFailed?
    ensures IsFinished(Change(env, e, t, wasExecution)) <==> !Reopens(t, e)
  {
    hide IsFinished, StreamChunk, ReportProgress, StopTool, Editing, UpdateFields, RequestPermission, ResolvePermission,
      NormalizeOutcome, KeepsLocalReject, AllowsExecution, IsControlSuccess;
    match e
    case ToolMessageChunk(_, content) => StreamingReopens(t, content);
    case ToolProgress(_, content) => StreamingReopens(t, content);
    case ToolStopped(_, outcome) => StreamingReopens(t, outcome);
    case ToolDiff(_, path, _) => StreamingReopens(t, path);
    case ToolDiffPreview(_, path, _) => StreamingReopens(t, path);
    case ToolUpdated(_, _, _, _, _, _, _, _, _, _) => UpdateKeepsFinished(env, t, e, wasExecution);
    case ToolPermissionRequest(_, _, _, _, _) => UpdateKeepsFinished(env, t, e, wasExecution);
    case ToolPermissionResolved(_, outcome) => ResolvingReopens(t, NormalizeOutcome(outcome));
    case ToolStopAvailability(_, canStop, stopKind) => OfferKeepsFinished(t, canStop, stopKind);
  }

  lemma OfferKeepsFinished(t: Tool, canStop: bool, stopKind: Option<string>)
    ensures IsFinished(OfferStop(t, canStop, stopKind)) <==> IsFinished(t)
  {}

  lemma SameForReopening(t: Tool, t': Tool, e: ClientEvent)
    requires t' == t.(parentCallId := t'.parentCallId, isSubagent := t'.isSubagent)
    ensures Reopens(t, e) <==> Reopens(t', e)
  {
    hide NormalizeOutcome, KeepsLocalReject, AllowsExecution, IsControlSuccess;
  }

  lemma ToolOfHasCallId(ui: Ui, callId: string)
    ensures ToolOf(ui, callId).Some? ==> ToolOf(ui, callId).value.callId == callId
  {}

  /** A finished tool stays finished under an event if and only if the event is not one of the five
      that reopen it; an event addressed elsewhere does not touch it at all. */
  lemma FinishedStaysFinished(env: Env, ui: Ui, e: ClientEvent, callId: string)
    requires ToolOf(ui, callId).Some? && IsFinished(ToolOf(ui, callId).value)
    ensures var after := ToolOf(Apply(env, ui, e), callId);
            && after.Some?
            && (IsFinished(after.value) <==> !Reopens(ToolOf(ui, callId).value, e))
            && (Addressee(e) != Some(callId) ==> after == ToolOf(ui, callId))
  {
    hide Apply, ToolOf, Change, IsFinished;
    var before := ToolOf(ui, callId).value;
    ToolOfHasCallId(ui, callId);
    if Addressee(e) != Some(callId) {
      OtherToolsPass(env, ui, e, callId);
    } else if Ignored(ui, e) {
      IgnoredNeverReopens(ui, e, before);
      IgnoredChangesNothing(env, ui, e);
    } else {
      var t, wasExecution := Addressed(env, ui, e, callId);
      FinishedNotRestarted(ui, e);
      SameForReopening(before, t, e);
      assert IsFinished(t) by { SameStatus(before, t); }
      ChangeReopens(env, e, t, wasExecution);
    }
  }

  lemma SameStatus(t: Tool, t': Tool)
    requires t.status == t'.status
    ensures IsFinished(t) <==> IsFinished(t')
  {}

  lemma IgnoredNeverReopens(ui: Ui, e: ClientEvent, t: Tool)
    requires Addressee(e).Some? && Ignored(ui, e) && ToolOf(ui, e.id) == Some(t)
    ensures !Reopens(t, e)
  {}

  lemma FinishedNotRestarted(ui: Ui, e: ClientEvent)
    requires Addressee(e).Some? && !Ignored(ui, e) && ToolOf(ui, e.id).Some? && IsFinished(ToolOf(ui, e.id).value)
    ensures !e.ToolStarted? && !e.ToolCompleted? && !e.ToolFailed?
  {}

  // ---- The log text of a tool over whole runs ----

  /** A permission request with details replaces the log text. */
  predicate ReplacesDetail(e: ClientEvent, callId: string) {
    e.ToolPermissionRequest? && e.id == callId && e.details.Some? && !IsBlank(e.details.value)
  }

  lemma StreamingKeepsDetail(t: Tool, text: string)
    ensures StreamChunk(t, text).detailText == BoundedTail.AppendChunk(t.detailText, text)
    ensures ReportProgress(t, text).detailText == t.detailText && StopTool(t, text).detailText == t.detailText
    ensures Editing(t, text).detailText == t.detailText
  {
    hide PushEntry, BoundedTail.AppendChunk;
  }

  lemma ResultsKeepDetail(env: Env, t: Tool, e: ClientEvent, wasExecution: bool)
    ensures e.ToolStarted? ==> StartTool(env, t, e).detailText == t.detailText
    ensures e.ToolUpdated? ==> UpdateFields(env, t, e).detailText == t.detailText
    ensures e.ToolCompleted? ==> CompleteTool(env, t, e).detailText == t.detailText
    ensures e.ToolFailed? ==> FailTool(t, e).detailText == t.detailText
    ensures e.ToolPermissionRequest? && (e.details.None? || IsBlank(e.details.value)) ==>
              RequestPermission(t, wasExecution, e).detailText == t.detailText
  {
    hide PushEntry, CapOptional, IsBlank, JoinLabels;
  }

  lemma ResolvingKeepsDetail(t: Tool, outcome: string)
    ensures ResolvePermission(t, outcome).detailText == t.detailText
  {
    hide PushEntry, KeepsLocalReject, AllowsExecution, IsControlSuccess;
  }

  lemma ChangeKeepsDetail(env: Env, e: ClientEvent, t: Tool, wasExecution: bool)
    requires Addressee(e) == Some(t.callId) && !ReplacesDetail(e, t.callId)
    ensures Change(env, e, t, wasExecution).detailText ==
            if e.ToolMessageChunk? then BoundedTail.AppendChunk(t.detailText, e.content) else t.detailText
  {
    hide StreamChunk, ReportProgress, StopTool, Editing, UpdateFields, RequestPermission, ResolvePermission, StartTool,
      CompleteTool, FailTool, NormalizeOutcome, BoundedTail.AppendChunk, IsBlank;
    match e
    case ToolMessageChunk(_, content) => StreamingKeepsDetail(t, content);
    case ToolProgress(_, content) => StreamingKeepsDetail(t, content);
    case ToolStopped(_, outcome) => StreamingKeepsDetail(t, outcome);
    case ToolDiff(_, path, _) => StreamingKeepsDetail(t, path);
    case ToolDiffPreview(_, path, _) => StreamingKeepsDetail(t, path);
    case ToolPermissionResolved(_, outcome) => ResolvingKeepsDetail(t, NormalizeOutcome(outcome));
    case ToolStopAvailability(_, _, _) =>
    case _ => ResultsKeepDetail(env, t, e, wasExecution);
  }

  function ChunksFor(es: seq<ClientEvent>, callId: string): seq<string> {
    if es == [] then []
    else
      var before, e := ChunksFor(es[..|es| - 1], callId), es[|es| - 1];
      if e.ToolMessageChunk? && e.id == callId then before + [e.content] else before
  }

  lemma DetailStep(env: Env, ui: Ui, e: ClientEvent, callId: string)
    requires !ReplacesDetail(e, callId)
    ensures DetailOf(Apply(env, ui, e), callId) ==
            if e.ToolMessageChunk? && e.id == callId then BoundedTail.AppendChunk(DetailOf(ui, callId), e.content)
            else DetailOf(ui, callId)
  {
    hide Apply, ToolOf, Change, ReplacesDetail, IsFinished, Ignored;
    if Addressee(e) != Some(callId) {
      OtherToolsPass(env, ui, e, callId);
    } else if Ignored(ui, e) {
      ChunksAreNotIgnored(ui, e);
      IgnoredChangesNothing(env, ui, e);
    } else {
      var t, wasExecution := Addressed(env, ui, e, callId);
      ChangeKeepsDetail(env, e, t, wasExecution);
    }
  }

  lemma ChunksAreNotIgnored(ui: Ui, e: ClientEvent)
    requires Addressee(e).Some? && Ignored(ui, e)
    ensures !e.ToolMessageChunk?
  {}

  /** Over every run that never replaces it, a tool's log text is the bounded stream of the chunks
      addressed to it: the whole text while it fits, and then exactly its tail. */
  lemma {:induction false} DetailIsBoundedStream(env: Env, ui: Ui, es: seq<ClientEvent>, callId: string)
    requires ToolOf(ui, callId).None?
    requires forall e :: e in es ==> !ReplacesDetail(e, callId)
    ensures DetailOf(ApplyAll(env, ui, es), callId) == BoundedTail.Stream(ChunksFor(es, callId))
    ensures var whole := BoundedTail.Whole(ChunksFor(es, callId));
            var detail := DetailOf(ApplyAll(env, ui, es), callId);
            if |whole| <= BoundedTail.MAX_TOOL_DETAIL_CHARS then detail == whole
            else detail == TailHeader(BoundedTail.ShownCount(ChunksFor(es, callId))) + Last(whole, BoundedTail.MAX_TOOL_DETAIL_CHARS)
  {
    hide Apply, ReplacesDetail, BoundedTail.AppendChunk, TailHeader, BoundedTail.ShownCount;
    if es != [] {
      var init, e := es[..|es| - 1], es[|es| - 1];
      DetailIsBoundedStream(env, ui, init, callId);
      DetailStep(env, ApplyAll(env, ui, init), e, callId);
      var before := ChunksFor(init, callId);
      if e.ToolMessageChunk? {
        assert (before + [e.content])[..|before|] == before;
      }
    }
    BoundedTail.StreamIsTheTail(ChunksFor(es, callId));
  }
}
