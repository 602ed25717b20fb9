/**
 What every run of the reducer keeps: unique tool calls, a timeline in the order of the lists,
 bounded logs without repetition, no running tool in an idle session, and finished tools that only
 five kinds of event can touch again.
 */
module ReducerRuns {
  import opened Options
  import opened Events
  import opened Text
  import opened Reducer
  import BoundedTail

  // ---- The invariant ----

  function MessageIds(timeline: seq<TimelineItem>): seq<nat> {
    if timeline == [] then []
    else
      var before, item := MessageIds(timeline[..|timeline| - 1]), timeline[|timeline| - 1];
      if item.MessageItem? then before + [item.id] else before
  }

  function ToolIds(timeline: seq<TimelineItem>): seq<nat> {
    if timeline == [] then []
    else
      var before, item := ToolIds(timeline[..|timeline| - 1]), timeline[|timeline| - 1];
      if item.ToolItem? then before + [item.id] else before
  }

  ghost predicate UniqueTools(tools: seq<Tool>) {
    forall i, j :: 0 <= i < j < |tools| ==> tools[i].callId != tools[j].callId && tools[i].id < tools[j].id
  }

  ghost predicate OrderedMessages(messages: seq<ChatMessage>) {
    forall i, j :: 0 <= i < j < |messages| ==> messages[i].id < messages[j].id
  }

  ghost predicate Lists(ids: seq<nat>, messages: seq<ChatMessage>) {
    |ids| == |messages| && forall i :: 0 <= i < |ids| ==> ids[i] == messages[i].id
  }

  ghost predicate ListsTools(ids: seq<nat>, tools: seq<Tool>, from: nat) {
    |ids| + from == |tools| && forall i :: 0 <= i < |ids| ==> ids[i] == tools[from + i].id
  }

  /** `scanned` is the number of tools that the session started with; they are in no timeline. */
  ghost predicate Shape(ui: Ui, scanned: nat) {
    && UniqueTools(ui.tools) && OrderedMessages(ui.messages)
    && (forall t :: t in ui.tools ==> t.id < ui.nextId && BoundedLogs(t.logs))
    && (forall m :: m in ui.messages ==> m.id < ui.nextId)
    && Lists(MessageIds(ui.timeline), ui.messages)
    && ListsTools(ToolIds(ui.timeline), ui.tools, scanned)
  }

  ghost predicate NoneRunning(tools: seq<Tool>) {
    forall t :: t in tools ==> !t.status.Running?
  }

  ghost predicate Calm(ui: Ui) {
    ui.sessionStatus.Idle? || ui.sessionStatus.SessionInterrupted? ==> NoneRunning(ui.tools)
  }

  ghost predicate RunInv(ui: Ui, scanned: nat) {
    Shape(ui, scanned) && Calm(ui)
  }

  // ---- Building blocks ----

  /** A change of one tool that the invariant does not notice. */
  ghost predicate Keeps(t: Tool, t': Tool) {
    t'.id == t.id && t'.callId == t.callId && (BoundedLogs(t.logs) ==> BoundedLogs(t'.logs))
  }

  lemma SetToolShape(ui: Ui, callId: string, t: Tool, scanned: nat)
    requires Shape(ui, scanned) && FindTool(ui.tools, callId) < |ui.tools|
    requires Keeps(TheTool(ui, callId), t)
    ensures Shape(SetTool(ui, callId, t), scanned)
  {
    hide BoundedLogs;
    var i, ui' := FindTool(ui.tools, callId), SetTool(ui, callId, t);
    assert forall j :: 0 <= j < |ui.tools| ==> ui'.tools[j].id == ui.tools[j].id && ui'.tools[j].callId == ui.tools[j].callId;
    assert ui.tools[i] in ui.tools;
  }

  lemma EnsureToolShape(ui: Ui, callId: string, parent: Option<string>, name: string, kind: string, isSubagent: bool, scanned: nat)
    requires Shape(ui, scanned)
    ensures Shape(EnsureTool(ui, callId, parent, name, kind, isSubagent), scanned)
  {
    hide Shape;
    var i := FindTool(ui.tools, callId);
    if i < |ui.tools| {
      var t := ui.tools[i];
      SetToolShape(ui, callId, t.(parentCallId := if parent.Some? then parent else t.parentCallId,
                                  isSubagent := isSubagent || t.isSubagent), scanned);
    } else {
      NewToolShape(ui, NewTool(ui.nextId, callId, parent, name, kind, isSubagent), scanned);
    }
  }

  lemma NewToolShape(ui: Ui, t: Tool, scanned: nat)
    requires Shape(ui, scanned) && FindTool(ui.tools, t.callId) == |ui.tools|
    requires t.id == ui.nextId && BoundedLogs(t.logs)
    ensures Shape(ui.(nextId := ui.nextId + 1, tools := ui.tools + [t], timeline := ui.timeline + [ToolItem(t.id)]), scanned)
  {
    hide BoundedLogs;
    assert (ui.timeline + [ToolItem(t.id)])[..|ui.timeline|] == ui.timeline;
    assert forall j :: 0 <= j < |ui.tools| ==> ui.tools[j] in ui.tools;
  }

  lemma MapToolsShape(ui: Ui, f: Tool -> Tool, scanned: nat)
    requires Shape(ui, scanned)
    requires forall t :: t in ui.tools ==> Keeps(t, f(t))
    ensures Shape(ui.(tools := MapTools(ui.tools, f)), scanned)
  {
    var tools := MapTools(ui.tools, f);
    assert forall j :: 0 <= j < |tools| ==> tools[j] == f(ui.tools[j]) && ui.tools[j] in ui.tools;
  }

  lemma FinishChildrenShape(ui: Ui, parent: Option<string>, except: string, scanned: nat)
    requires Shape(ui, scanned)
    ensures Shape(FinishChildrenOf(ui, parent, except), scanned)
  {
    if parent.Some? {
      hide FinishChild, Keeps, Shape;
      forall t
        ensures Keeps(t, FinishChild(t, parent.value, Some(except)))
      {
        FinishChildKeeps(t, parent.value, Some(except));
      }
      MapToolsShape(ui, t => FinishChild(t, parent.value, Some(except)), scanned);
    }
  }

  lemma PushStandaloneShape(ui: Ui, role: MessageRole, content: string, scanned: nat)
    requires Shape(ui, scanned)
    ensures Shape(PushStandalone(ui, role, content), scanned)
  {
    var ui' := PushStandalone(ui, role, content);
    if ui' != ui {
      assert ui'.timeline[..|ui.timeline|] == ui.timeline;
      assert forall j :: 0 <= j < |ui.messages| ==> ui.messages[j] in ui.messages;
    }
  }

  lemma EditMessageShape(ui: Ui, i: nat, body: string, scanned: nat)
    requires Shape(ui, scanned) && i < |ui.messages|
    ensures Shape(ui.(messages := ui.messages[i := ui.messages[i].(body := body)]), scanned)
  {
    var messages := ui.messages[i := ui.messages[i].(body := body)];
    assert forall j :: 0 <= j < |messages| ==> messages[j].id == ui.messages[j].id;
    assert ui.messages[i] in ui.messages;
  }

  lemma PushMessageShape(ui: Ui, role: MessageRole, content: string, scanned: nat)
    requires Shape(ui, scanned)
    ensures Shape(PushMessage(ui, role, content), scanned)
  {
    PushStandaloneShape(ui, role, content, scanned);
    var last := LastMessage(ui);
    if last.Some? {
      EditMessageShape(ui, last.value, ui.messages[last.value].body + content, scanned);
    }
  }

  // ---- One event ----

  lemma StartToolKeeps(env: Env, t: Tool, e: ClientEvent)
    requires e.ToolStarted?
    ensures Keeps(t, StartTool(env, t, e))
  {
    hide PushEntry, BoundedLogs;
  }

  lemma UpdateFieldsKeeps(env: Env, t: Tool, e: ClientEvent)
    requires e.ToolUpdated?
    ensures Keeps(t, UpdateFields(env, t, e))
  {
    hide PushEntry, BoundedLogs;
  }

  lemma RequestPermissionKeeps(t: Tool, isExecution: bool, e: ClientEvent)
    requires e.ToolPermissionRequest?
    ensures Keeps(t, RequestPermission(t, isExecution, e))
  {
    hide PushEntry, BoundedLogs;
  }

  lemma ResolvePermissionKeeps(t: Tool, outcome: string)
    ensures Keeps(t, ResolvePermission(t, outcome))
  {
    hide PushEntry, BoundedLogs, KeepsLocalReject, AllowsExecution, IsControlSuccess;
  }

  lemma FinishOpenKeeps(t: Tool, stopReason: string)
    ensures Keeps(t, FinishOpen(t, stopReason)) && !FinishOpen(t, stopReason).status.Running?
  {
    hide PushEntry, BoundedLogs, IsBlank, StartsWith;
  }

  lemma InterruptOpenKeeps(t: Tool, reason: string)
    ensures Keeps(t, InterruptOpen(t, reason)) && !InterruptOpen(t, reason).status.Running?
  {
    hide PushEntry, BoundedLogs;
  }

  lemma SimpleChangesKeep(t: Tool, text: string)
    ensures Keeps(t, StreamChunk(t, text)) && Keeps(t, ReportProgress(t, text))
    ensures Keeps(t, StopTool(t, text)) && Keeps(t, Editing(t, text))
  {
    hide PushEntry, BoundedLogs, CollapseWhitespace, BoundedTail.AppendChunk;
  }

  lemma ResultChangesKeep(env: Env, t: Tool, e: ClientEvent)
    ensures e.ToolCompleted? ==> Keeps(t, CompleteTool(env, t, e))
    ensures e.ToolFailed? ==> Keeps(t, FailTool(t, e))
  {
    hide PushEntry, BoundedLogs, SummarizeCompletion, CapOptional;
  }

  lemma FinishChildKeeps(t: Tool, parent: string, except: Option<string>)
    ensures Keeps(t, FinishChild(t, parent, except))
    ensures FinishChild(t, parent, except).status.Running? ==> t.status.Running?
  {
    hide PushEntry, BoundedLogs;
  }

  /** A tool event that makes sure the tool exists and then changes it. */
  lemma EnsureAndSetShape(ui: Ui, callId: string, parent: Option<string>, name: string, kind: string, isSubagent: bool,
                          t: Tool, status: SessionStatus, scanned: nat)
    requires Shape(ui, scanned)
    requires Keeps(TheTool(EnsureTool(ui, callId, parent, name, kind, isSubagent), callId), t)
    ensures var ui' := SetTool(EnsureTool(ui, callId, parent, name, kind, isSubagent), callId, t);
            Shape(ui', scanned) && Shape(ui'.(sessionStatus := status), scanned) && Shape(Refresh(ui'), scanned)
  {
    hide Keeps, EnsureTool;
    EnsureToolShape(ui, callId, parent, name, kind, isSubagent, scanned);
    SetToolShape(EnsureTool(ui, callId, parent, name, kind, isSubagent), callId, t, scanned);
  }

  lemma ToolChunkShape(ui: Ui, e: ClientEvent, scanned: nat)
    requires Shape(ui, scanned) && e.ToolMessageChunk?
    ensures Shape(OnToolChunk(ui, e), scanned)
  {
    hide Shape, Keeps, StreamChunk, FinishChild, EnsureTool;
    forall t
      ensures Keeps(t, FinishChild(t, e.id, None))
    {
      FinishChildKeeps(t, e.id, None);
    }
    MapToolsShape(ui, t => FinishChild(t, e.id, None), scanned);
    var ui0 := FinishChildren(ui, e.id, None);
    var t := TheTool(EnsureTool(ui0, e.id, None, "tool", "tool", false), e.id);
    SimpleChangesKeep(t, e.content);
    EnsureAndSetShape(ui0, e.id, None, "tool", "tool", false, StreamChunk(t, e.content), WaitingForTool, scanned);
  }

  lemma ToolStartedShape(env: Env, ui: Ui, e: ClientEvent, scanned: nat)
    requires Shape(ui, scanned) && e.ToolStarted?
    ensures Shape(OnToolStarted(env, ui, e), scanned)
  {
    hide Shape, Keeps, StartTool, FinishChildrenOf, EnsureTool;
    FinishChildrenShape(ui, e.parentId, e.id, scanned);
    var ui0 := FinishChildrenOf(ui, e.parentId, e.id);
    var t := TheTool(EnsureTool(ui0, e.id, e.parentId, e.name, e.kind, e.isSubagent), e.id);
    StartToolKeeps(env, t, e);
    EnsureAndSetShape(ui0, e.id, e.parentId, e.name, e.kind, e.isSubagent, StartTool(env, t, e), WaitingForTool, scanned);
  }

  lemma ToolUpdatedShape(env: Env, ui: Ui, e: ClientEvent, scanned: nat)
    requires Shape(ui, scanned) && e.ToolUpdated?
    ensures Shape(OnToolUpdated(env, ui, e), scanned)
  {
    hide Shape, Keeps, UpdateFields, FinishChildrenOf, EnsureTool;
    FinishChildrenShape(ui, e.parentId, e.id, scanned);
    var ui0 := FinishChildrenOf(ui, e.parentId, e.id);
    var t := TheTool(EnsureTool(ui0, e.id, e.parentId, "tool", "tool", e.isSubagent), e.id);
    UpdateFieldsKeeps(env, t, e);
    EnsureAndSetShape(ui0, e.id, e.parentId, "tool", "tool", e.isSubagent, UpdateFields(env, t, e), WaitingForTool, scanned);
  }

  lemma ToolProgressShape(ui: Ui, id: string, content: string, scanned: nat)
    requires Shape(ui, scanned)
    ensures Shape(OnToolProgress(ui, id, content), scanned)
  {
    hide Shape, Keeps, ReportProgress, EnsureTool;
    var t := TheTool(EnsureTool(ui, id, None, "tool", "tool", false), id);
    SimpleChangesKeep(t, content);
    EnsureAndSetShape(ui, id, None, "tool", "tool", false, ReportProgress(t, content), WaitingForTool, scanned);
  }

  lemma ToolResultShape(env: Env, ui: Ui, e: ClientEvent, scanned: nat)
    requires Shape(ui, scanned) && (e.ToolCompleted? || e.ToolFailed?)
    ensures Shape(if e.ToolCompleted? then OnToolCompleted(env, ui, e) else OnToolFailed(ui, e), scanned)
  {
    hide Shape, Keeps, CompleteTool, FailTool, EnsureTool, Refresh;
    var t := TheTool(EnsureTool(ui, e.id, None, e.newName.UnwrapOr("tool"), "tool", false), e.id);
    ResultChangesKeep(env, t, e);
    EnsureAndSetShape(ui, e.id, None, e.newName.UnwrapOr("tool"), "tool", false,
                      if e.ToolCompleted? then CompleteTool(env, t, e) else FailTool(t, e), Streaming, scanned);
  }

  lemma PermissionRequestShape(ui: Ui, e: ClientEvent, scanned: nat)
    requires Shape(ui, scanned) && e.ToolPermissionRequest?
    ensures Shape(OnPermissionRequest(ui, e), scanned)
  {
    hide Shape, Keeps, RequestPermission, EnsureTool;
    var i := FindTool(ui.tools, e.id);
    var isExecution := i < |ui.tools| && ui.tools[i].kind != "permission";
    var t := TheTool(EnsureTool(ui, e.id, None, e.name, "permission", false), e.id);
    RequestPermissionKeeps(t, isExecution, e);
    EnsureAndSetShape(ui, e.id, None, e.name, "permission", false, RequestPermission(t, isExecution, e), WaitingForTool, scanned);
  }

  lemma EditShape(ui: Ui, id: string, path: string, scanned: nat)
    requires Shape(ui, scanned)
    ensures Shape(OnEdit(ui, id, path), scanned)
  {
    hide Shape, Keeps, Editing, EnsureTool;
    var t := TheTool(EnsureTool(ui, id, None, "Edit", "edit", false), id);
    SimpleChangesKeep(t, path);
    EnsureAndSetShape(ui, id, None, "Edit", "edit", false, Editing(t, path), WaitingForTool, scanned);
  }

  lemma SetStatusShape(ui: Ui, callId: string, t: Tool, scanned: nat)
    requires Shape(ui, scanned) && FindTool(ui.tools, callId) < |ui.tools|
    requires Keeps(TheTool(ui, callId), t)
    ensures Shape(SetTool(ui, callId, t), scanned) && Shape(Refresh(SetTool(ui, callId, t)), scanned)
  {
    hide Keeps, BoundedLogs;
    SetToolShape(ui, callId, t, scanned);
    SameLists(SetTool(ui, callId, t), Refresh(SetTool(ui, callId, t)), scanned);
  }

  lemma ExistingToolShape(ui: Ui, id: string, outcome: string, canStop: bool, stopKind: Option<string>, scanned: nat)
    requires Shape(ui, scanned)
    ensures Shape(OnPermissionResolved(ui, id, outcome), scanned)
    ensures Shape(OnStopAvailability(ui, id, canStop, stopKind), scanned)
    ensures Shape(OnToolStopped(ui, id, outcome), scanned)
  {
    hide Shape, Refresh, SetTool, ResolvePermission, StopTool, NormalizeOutcome, BoundedLogs;
    if FindTool(ui.tools, id) < |ui.tools| {
      var t := TheTool(ui, id);
      ResolvePermissionKeeps(t, NormalizeOutcome(outcome));
      SetStatusShape(ui, id, ResolvePermission(t, NormalizeOutcome(outcome)), scanned);
      SimpleChangesKeep(t, outcome);
      SetStatusShape(ui, id, StopTool(t, outcome), scanned);
      SetStatusShape(ui, id, OfferStop(t, canStop, stopKind), scanned);
    }
  }

  /** The end of a turn closes every open tool, so that idle sessions have no running tool. */
  lemma TurnFinishedShape(ui: Ui, stopReason: string, scanned: nat)
    requires Shape(ui, scanned)
    ensures Shape(OnTurnFinished(ui, stopReason), scanned)
    ensures forall t :: t in OnTurnFinished(ui, stopReason).tools ==> !t.status.Running?
  {
    hide FinishOpen, BoundedLogs, Shape, Keeps;
    forall t
      ensures Keeps(t, FinishOpen(t, stopReason)) && !FinishOpen(t, stopReason).status.Running?
    {
      FinishOpenKeeps(t, stopReason);
    }
    MapToolsShape(ui, t => FinishOpen(t, stopReason), scanned);
    SameLists(ui.(tools := MapTools(ui.tools, t => FinishOpen(t, stopReason))), OnTurnFinished(ui, stopReason), scanned);
  }

  lemma InterruptedShape(ui: Ui, reason: string, scanned: nat)
    requires Shape(ui, scanned)
    ensures Shape(OnInterrupted(ui, reason), scanned)
    ensures forall t :: t in OnInterrupted(ui, reason).tools ==> !t.status.Running?
  {
    hide InterruptOpen, BoundedLogs, Shape, Keeps;
    forall t
      ensures Keeps(t, InterruptOpen(t, reason)) && !InterruptOpen(t, reason).status.Running?
    {
      InterruptOpenKeeps(t, reason);
    }
    MapToolsShape(ui, t => InterruptOpen(t, reason), scanned);
    SameLists(ui.(tools := MapTools(ui.tools, t => InterruptOpen(t, reason))), OnInterrupted(ui, reason), scanned);
  }

  lemma MessageShape(ui: Ui, role: MessageRole, content: string, scanned: nat)
    requires Shape(ui, scanned)
    ensures Shape(OnMessageChunk(ui, role, content), scanned)
  {
    hide BoundedLogs, PushMessage, IsInternalMetadata;
    var ui1 := if !role.Assistant? then ui
               else ui.(thinkingStatus := if ui.thinkingStatus == Some(Active) then Some(Completed) else ui.thinkingStatus,
                        sessionStatus := Streaming);
    PushMessageShape(ui1, role, content, scanned);
  }

  lemma CompactionShape(ui: Ui, content: string, scanned: nat)
    requires Shape(ui, scanned)
    ensures Shape(PushCompactionNotice(ui, content), scanned)
    ensures Shape(ReplaceCompactionNotice(ui, content), scanned)
  {
    hide Shape, PushStandalone, IsCompactionNotice, LastMessage;
    PushStandaloneShape(ui, System, content, scanned);
    var last := LastMessage(ui);
    if last.Some? {
      assert last.value < |ui.messages| by { LastMessageIsIndex(ui); }
      EditMessageShape(ui, last.value, content, scanned);
    }
  }

  lemma ThinkingShape(ui: Ui, active: bool, scanned: nat)
    requires Shape(ui, scanned)
    ensures Shape(OnThinking(ui, active), scanned)
  {
    hide BoundedLogs;
    assert (ui.timeline + [Thinking])[..|ui.timeline|] == ui.timeline;
  }

  lemma SameLists(ui: Ui, ui': Ui, scanned: nat)
    requires Shape(ui, scanned)
    requires ui'.nextId == ui.nextId && ui'.messages == ui.messages && ui'.timeline == ui.timeline && ui'.tools == ui.tools
    ensures Shape(ui', scanned)
  {}

  lemma ToolEventKeepsShape(env: Env, ui: Ui, e: ClientEvent, scanned: nat)
    requires Shape(ui, scanned) && IsToolEvent(e)
    ensures Shape(Apply(env, ui, e), scanned)
  {
    hide Shape, OnToolChunk, OnToolStarted, OnToolUpdated, OnToolProgress, OnToolCompleted, OnToolFailed,
      OnPermissionRequest, OnPermissionResolved, OnStopAvailability, OnToolStopped, OnEdit, StartsWith;
    match e
    case ToolMessageChunk(_, _) => ToolChunkShape(ui, e, scanned);
    case ToolStarted(_, _, _, _, _, _, _) => ToolStartedShape(env, ui, e, scanned);
    case ToolUpdated(_, _, _, _, _, _, _, _, _, _) => ToolUpdatedShape(env, ui, e, scanned);
    case ToolProgress(id, content) => ToolProgressShape(ui, id, content, scanned);
    case ToolCompleted(_, _, _, _, _) => ToolResultShape(env, ui, e, scanned);
    case ToolFailed(_, _, _, _, _) => ToolResultShape(env, ui, e, scanned);
    case ToolDiff(id, path, _) => EditShape(ui, id, path, scanned);
    case ToolDiffPreview(id, path, _) => EditShape(ui, id, path, scanned);
    case ToolPermissionRequest(_, _, _, _, _) => PermissionRequestShape(ui, e, scanned);
    case ToolPermissionResolved(id, outcome) => ExistingToolShape(ui, id, outcome, false, None, scanned);
    case ToolStopAvailability(id, canStop, stopKind) => ExistingToolShape(ui, id, "", canStop, stopKind, scanned);
    case ToolStopped(id, outcome) => ExistingToolShape(ui, id, outcome, false, None, scanned);
  }

  lemma SessionEventKeepsShape(env: Env, ui: Ui, e: ClientEvent, scanned: nat)
    requires Shape(ui, scanned) && !IsToolEvent(e)
    ensures Shape(Apply(env, ui, e), scanned)
  {
    hide Shape, OnMessageChunk, PushCompactionNotice, ReplaceCompactionNotice, OnThinking, OnTurnFinished, OnInterrupted,
      CompactionStartedNotice, CompactedNotice;
    match e
    case MessageChunk(role, content) => MessageShape(ui, role, content, scanned);
    case ContextCompactionStarted(message) => CompactionShape(ui, CompactionStartedNotice(message), scanned);
    case ContextCompacted(message) => CompactionShape(ui, CompactedNotice(message), scanned);
    case TurnFinished(stopReason) => TurnFinishedShape(ui, stopReason, scanned);
    case Interrupted(reason) => InterruptedShape(ui, reason, scanned);
    case ThinkingActivity(active) => ThinkingShape(ui, active, scanned);
    case _ => SameLists(ui, Apply(env, ui, e), scanned);
  }

  lemma EventKeepsShape(env: Env, ui: Ui, e: ClientEvent, scanned: nat)
    requires Shape(ui, scanned)
    ensures Shape(Apply(env, ui, e), scanned)
  {
    hide Shape, Apply;
    if IsToolEvent(e) {
      ToolEventKeepsShape(env, ui, e, scanned);
    } else {
      SessionEventKeepsShape(env, ui, e, scanned);
    }
  }

  // ---- No running tool in an idle session ----

  lemma SetToolRunning(ui: Ui, callId: string, t: Tool)
    requires NoneRunning(ui.tools) && FindTool(ui.tools, callId) < |ui.tools| && !t.status.Running?
    ensures NoneRunning(SetTool(ui, callId, t).tools)
  {}

  lemma EnsureToolRunning(ui: Ui, callId: string, parent: Option<string>, name: string, kind: string, isSubagent: bool)
    requires NoneRunning(ui.tools)
    ensures NoneRunning(EnsureTool(ui, callId, parent, name, kind, isSubagent).tools)
    ensures !TheTool(EnsureTool(ui, callId, parent, name, kind, isSubagent), callId).status.Running?
  {
    var i := FindTool(ui.tools, callId);
    if i < |ui.tools| {
      assert !ui.tools[i].status.Running?;
    }
  }

  lemma FinishChildrenRunning(ui: Ui, parent: Option<string>, except: string)
    requires NoneRunning(ui.tools)
    ensures NoneRunning(FinishChildrenOf(ui, parent, except).tools)
  {
    if parent.Some? {
      hide FinishChild;
      forall t | t in ui.tools
        ensures !FinishChild(t, parent.value, Some(except)).status.Running?
      {
        FinishChildKeeps(t, parent.value, Some(except));
      }
    }
  }

  lemma PartialUpdateRunning(env: Env, ui: Ui, e: ClientEvent)
    requires NoneRunning(ui.tools) && e.ToolUpdated? && e.isPartial
    ensures NoneRunning(OnToolUpdated(env, ui, e).tools)
  {
    hide NoneRunning, FinishChildrenOf, EnsureTool, PushLog, CapOptional;
    FinishChildrenRunning(ui, e.parentId, e.id);
    var ui0 := FinishChildrenOf(ui, e.parentId, e.id);
    EnsureToolRunning(ui0, e.id, e.parentId, "tool", "tool", e.isSubagent);
    var ui1 := EnsureTool(ui0, e.id, e.parentId, "tool", "tool", e.isSubagent);
    PartialUpdateKeepsStatus(env, TheTool(ui1, e.id), e);
    SetToolRunning(ui1, e.id, UpdateFields(env, TheTool(ui1, e.id), e));
  }

  lemma PartialUpdateKeepsStatus(env: Env, t: Tool, e: ClientEvent)
    requires e.ToolUpdated? && e.isPartial
    ensures UpdateFields(env, t, e).status == t.status
  {
    hide PushEntry;
  }

  predicate Awake(ui: Ui) { ui.sessionStatus.Streaming? || ui.sessionStatus.WaitingForTool? }

  /** A step that either wakes the session up or neither puts it to rest nor starts a tool. */
  ghost predicate CalmStep(ui: Ui, ui': Ui) {
    Awake(ui') || (ui'.sessionStatus == ui.sessionStatus && (NoneRunning(ui.tools) ==> NoneRunning(ui'.tools)))
  }

  ghost predicate SameStatuses(tools: seq<Tool>, tools': seq<Tool>) {
    |tools| == |tools'| && forall i :: 0 <= i < |tools| ==> tools[i].status == tools'[i].status
  }

  /** A step that either wakes the session up or leaves its status and those of all tools. */
  ghost predicate RestStep(ui: Ui, ui': Ui) {
    Awake(ui') || (ui'.sessionStatus == ui.sessionStatus && SameStatuses(ui.tools, ui'.tools))
  }

  lemma NoStep(ui: Ui)
    ensures RestStep(ui, ui)
  {}

  lemma RestIsCalm(ui: Ui, ui': Ui)
    requires RestStep(ui, ui')
    ensures CalmStep(ui, ui')
  {
    if !Awake(ui') && NoneRunning(ui.tools) {
      forall i | 0 <= i < |ui'.tools|
        ensures !ui'.tools[i].status.Running?
      {
        assert ui.tools[i] in ui.tools;
      }
    }
  }

  lemma ToolEventsWake(env: Env, ui: Ui, e: ClientEvent, id: string, text: string)
    ensures e.ToolMessageChunk? ==> RestStep(ui, OnToolChunk(ui, e))
    ensures e.ToolStarted? ==> RestStep(ui, OnToolStarted(env, ui, e))
    ensures e.ToolPermissionRequest? ==> RestStep(ui, OnPermissionRequest(ui, e))
    ensures RestStep(ui, OnToolProgress(ui, id, text)) && RestStep(ui, OnEdit(ui, id, text))
  {
    hide EnsureTool, FinishChildrenOf, FinishChildren, StreamChunk, StartTool, RequestPermission, ReportProgress, Editing;
  }

  lemma ToolResultsWake(env: Env, ui: Ui, e: ClientEvent)
    ensures e.ToolCompleted? ==> RestStep(ui, OnToolCompleted(env, ui, e))
    ensures e.ToolFailed? ==> RestStep(ui, OnToolFailed(ui, e))
  {
    hide EnsureTool, CompleteTool, FailTool;
  }

  lemma ExistingToolEventsWake(ui: Ui, id: string, text: string, canStop: bool, stopKind: Option<string>)
    ensures RestStep(ui, OnPermissionResolved(ui, id, text))
    ensures RestStep(ui, OnToolStopped(ui, id, text))
    ensures RestStep(ui, OnStopAvailability(ui, id, canStop, stopKind))
  {
    hide ResolvePermission, StopTool, NormalizeOutcome;
    if FindTool(ui.tools, id) < |ui.tools| {
      assert TheTool(ui, id) in ui.tools;
    }
  }

  lemma UpdateWakes(env: Env, ui: Ui, e: ClientEvent)
    requires e.ToolUpdated?
    ensures CalmStep(ui, OnToolUpdated(env, ui, e))
  {
    hide NoneRunning, UpdateFields, EnsureTool, FinishChildrenOf;
    if e.isPartial && NoneRunning(ui.tools) {
      PartialUpdateRunning(env, ui, e);
    }
    EnsureToolStatus(FinishChildrenOf(ui, e.parentId, e.id), e.id, e.parentId, "tool", "tool", e.isSubagent);
    FinishChildrenStatus(ui, e.parentId, e.id);
  }

  lemma EnsureToolStatus(ui: Ui, callId: string, parent: Option<string>, name: string, kind: string, isSubagent: bool)
    ensures EnsureTool(ui, callId, parent, name, kind, isSubagent).sessionStatus == ui.sessionStatus
  {}

  lemma FinishChildrenStatus(ui: Ui, parent: Option<string>, except: string)
    ensures FinishChildrenOf(ui, parent, except).sessionStatus == ui.sessionStatus
  {}

  lemma MessagesWake(ui: Ui, role: MessageRole, content: string)
    ensures RestStep(ui, OnMessageChunk(ui, role, content))
    ensures RestStep(ui, PushCompactionNotice(ui, content))
    ensures RestStep(ui, ReplaceCompactionNotice(ui, content))
  {
    hide LastMessage, NewMessageContent, IsCompactionNotice, IsInternalMetadata;
    LastMessageIsIndex(ui);
  }

  lemma TurnEndsRunning(ui: Ui, reason: string)
    ensures NoneRunning(OnTurnFinished(ui, reason).tools) && NoneRunning(OnInterrupted(ui, reason).tools)
  {
    hide FinishOpen, InterruptOpen;
    forall t
      ensures !FinishOpen(t, reason).status.Running? && !InterruptOpen(t, reason).status.Running?
    {
      FinishOpenKeeps(t, reason);
      InterruptOpenKeeps(t, reason);
    }
  }

  lemma ToolEventRests(env: Env, ui: Ui, e: ClientEvent)
    requires IsToolEvent(e) && !e.ToolUpdated?
    ensures RestStep(ui, Apply(env, ui, e))
  {
    hide RestStep, StartsWith, OnToolChunk, OnToolStarted, OnToolUpdated, OnToolProgress, OnToolCompleted, OnToolFailed,
      OnPermissionRequest, OnPermissionResolved, OnStopAvailability, OnToolStopped, OnEdit;
    match e
    case ToolProgress(id, content) => ToolEventsWake(env, ui, e, id, content);
    case ToolDiff(id, path, _) => ToolEventsWake(env, ui, e, id, path); NoStep(ui);
    case ToolDiffPreview(id, path, _) => ToolEventsWake(env, ui, e, id, path);
    case ToolPermissionResolved(id, outcome) => ExistingToolEventsWake(ui, id, outcome, false, None);
    case ToolStopped(id, outcome) => ExistingToolEventsWake(ui, id, outcome, false, None);
    case ToolStopAvailability(id, canStop, stopKind) => ExistingToolEventsWake(ui, id, "", canStop, stopKind);
    case ToolCompleted(_, _, _, _, _) => ToolResultsWake(env, ui, e);
    case ToolFailed(_, _, _, _, _) => ToolResultsWake(env, ui, e);
    case _ => ToolEventsWake(env, ui, e, "", "");
  }

  lemma SessionEventRests(env: Env, ui: Ui, e: ClientEvent)
    requires !IsToolEvent(e) && !e.TurnFinished? && !e.Interrupted?
    ensures RestStep(ui, Apply(env, ui, e))
  {
    hide CompactedNotice, CompactionStartedNotice, OnMessageChunk, PushCompactionNotice, ReplaceCompactionNotice;
    match e
    case MessageChunk(role, content) => MessagesWake(ui, role, content);
    case ContextCompactionStarted(message) => MessagesWake(ui, System, CompactionStartedNotice(message));
    case ContextCompacted(message) => MessagesWake(ui, System, CompactedNotice(message));
    case _ =>
  }

  lemma EventSteps(env: Env, ui: Ui, e: ClientEvent)
    requires !e.TurnFinished? && !e.Interrupted?
    ensures CalmStep(ui, Apply(env, ui, e))
    ensures !e.ToolUpdated? ==> RestStep(ui, Apply(env, ui, e))
  {
    hide Apply, RestStep, CalmStep;
    if e.ToolUpdated? {
      UpdateWakes(env, ui, e);
      assert Apply(env, ui, e) == OnToolUpdated(env, ui, e) by { UpdateApplies(env, ui, e); }
    } else {
      if IsToolEvent(e) { ToolEventRests(env, ui, e); } else { SessionEventRests(env, ui, e); }
      RestIsCalm(ui, Apply(env, ui, e));
    }
  }

  lemma UpdateApplies(env: Env, ui: Ui, e: ClientEvent)
    requires e.ToolUpdated?
    ensures Apply(env, ui, e) == OnToolUpdated(env, ui, e)
  {
    hide OnToolUpdated;
  }

  lemma TurnEnds(env: Env, ui: Ui, e: ClientEvent)
    requires e.TurnFinished? || e.Interrupted?
    ensures Apply(env, ui, e) == if e.TurnFinished? then OnTurnFinished(ui, e.stopReason) else OnInterrupted(ui, e.reason)
    ensures !Awake(Apply(env, ui, e))
  {
  }

  lemma EventKeepsCalm(env: Env, ui: Ui, e: ClientEvent)
    requires Calm(ui)
    ensures Calm(Apply(env, ui, e))
  {
    hide NoneRunning, OnTurnFinished, OnInterrupted, Apply;
    if e.TurnFinished? || e.Interrupted? {
      TurnEnds(env, ui, e);
      TurnEndsRunning(ui, if e.TurnFinished? then e.stopReason else e.reason);
    } else {
      EventSteps(env, ui, e);
    }
  }

  /** The run invariant, from any session that satisfies it and over every event sequence. */
  lemma {:induction false} EveryRun(env: Env, ui: Ui, es: seq<ClientEvent>, scanned: nat)
    requires RunInv(ui, scanned)
    ensures RunInv(ApplyAll(env, ui, es), scanned)
  {
    hide Apply, Shape, Calm;
    if es != [] {
      var before := ApplyAll(env, ui, es[..|es| - 1]);
      EveryRun(env, ui, es[..|es| - 1], scanned);
      EventKeepsShape(env, before, es[|es| - 1], scanned);
      EventKeepsCalm(env, before, es[|es| - 1]);
    }
  }

  /** A new session: a welcome message and the workspace scan tool, which no timeline lists. */
  function Bootstrap(welcome: string, model: string): Ui {
    Ui(2, Idle, model, None, "新 ACP 会话", None, "", [ChatMessage(0, System, welcome)], [MessageItem(0)],
       [NewTool(1, "workspace.scan", None, "workspace.scan", "system", false).(
          summary := "准备检查 ACP 和 Git 活动", logs := [ToolLogEntry("就绪", "等待第一个 ACP 工具调用")])],
       Usage.EMPTY_LEDGER)
  }

  lemma EverySession(env: Env, welcome: string, model: string, es: seq<ClientEvent>)
    ensures RunInv(ApplyAll(env, Bootstrap(welcome, model), es), 1)
  {
    var ui := Bootstrap(welcome, model);
    assert MessageIds(ui.timeline[..0]) == [] && ToolIds(ui.timeline[..0]) == [];
    EveryRun(env, ui, es, 1);
  }
}
