/**
 Where every tool stands after each event: its status, its error, what it waits for, what it is
 called, what it shows and what it notes. The table of transitions below is independent of how the reducer computes them.
 */
module ToolStatus {
  import opened Options
  import opened Events
  import opened Text
  import opened Reducer
  import opened ToolLife
  import BoundedTail

  const WAITING := "等待活动"
  const DONE := "已完成"

  datatype Stand = Stand(
    status: ToolStatus, error: Option<string>, parent: Option<string>, name: string, kind: string, summary: string,
    decision: Option<string>, canStop: bool, stopKind: Option<string>, stopStatus: Option<string>,
    options: seq<string>, request: Option<string>, input: Option<string>, output: Option<string>, terminal: Option<string>,
    detail: string, isSubagent: bool, logs: seq<ToolLogEntry>)

  function StandOf(t: Tool): Stand {
    Stand(t.status, t.error, t.parentCallId, t.name, t.kind, t.summary, t.permissionDecision, t.canStop, t.stopKind, t.stopStatus,
          t.permissionOptions, t.permissionInput, t.rawInput, t.rawOutput, t.terminalOutput, t.detailText, t.isSubagent, t.logs)
  }

  predicate Open(s: Stand) { s.status.Pending? || s.status.Running? }
  predicate Finished(s: Stand) { s.status.Succeeded? || s.status.Failed? }

  function Unstoppable(s: Stand): Stand { s.(canStop := false, stopKind := None, stopStatus := None) }

  function Note(s: Stand, title: string, text: string): Stand { s.(logs := PushEntry(s.logs, title, text)) }

  // ---- The table ----

  /** How a tool stands that an event makes. */
  function Fresh(e: ClientEvent): Stand {
    var (name, kind) :=
      match e
      case ToolStarted(_, _, name, kind, _, _, _) => (name, kind)
      case ToolCompleted(_, newName, _, _, _) => (newName.UnwrapOr("tool"), "tool")
      case ToolFailed(_, newName, _, _, _) => (newName.UnwrapOr("tool"), "tool")
      case ToolDiff(_, _, _) => ("Edit", "edit")
      case ToolDiffPreview(_, _, _) => ("Edit", "edit")
      case ToolPermissionRequest(_, name, _, _, _) => (name, "permission")
      case _ => ("tool", "tool");
    Stand(Pending, None, None, name, kind, WAITING, None, false, None, None, [], None, None, None, None, "", false, [])
  }

  /** The parent that an event names, if any. */
  function NamedParent(e: ClientEvent): Option<string> {
    if e.ToolStarted? || e.ToolUpdated? then e.parentId else None
  }

  /** Only starts and updates place a tool: under the parent they name, and as a subagent if they say so. */
  function NamesSubagent(e: ClientEvent): bool {
    (e.ToolStarted? || e.ToolUpdated?) && e.isSubagent
  }

  function Placed(e: ClientEvent, s: Stand): Stand {
    s.(parent := if NamedParent(e).Some? then NamedParent(e) else s.parent, isSubagent := NamesSubagent(e) || s.isSubagent)
  }

  /** Whose open children an event closes, and which of them it leaves out. */
  function ClosedFamily(e: ClientEvent): Option<string> {
    if e.ToolMessageChunk? then Some(e.id) else NamedParent(e)
  }

  function Closed(s: Stand): Stand {
    Note(Unstoppable(s).(status := Succeeded, summary := if IsBlank(s.summary) || s.summary == WAITING then DONE else s.summary),
         DONE, "根据后续父活动推断")
  }

  /** What an event does to a tool in passing: the open children of the named parent, the addressee of a start
      or an update left out, succeed. */
  function Aside(e: ClientEvent, callId: string, s: Stand): Stand {
    if ClosedFamily(e).Some? && s.parent == ClosedFamily(e) && Open(s) && (e.ToolMessageChunk? || callId != e.id) then
      Closed(s)
    else s
  }

  function Resolved(s: Stand, outcome: string): Stand {
    if KeepsLocalReject(s.decision, outcome) then Note(s, "Decision", outcome)
    else if s.stopStatus == Some("stopped") then Note(s.(decision := Some(outcome), options := [], request := None), "Decision", outcome)
    else
      var decided := Note(Unstoppable(s).(decision := Some(outcome), options := [], request := None), "Decision", outcome);
      if s.kind == "permission" then decided.(summary := outcome, status := Succeeded, error := None)
      else if AllowsExecution(outcome) then
        decided.(summary := "权限已通过，等待工具执行", status := if Finished(s) then s.status else Running, error := None)
      else if IsControlSuccess(outcome) then decided.(summary := outcome, status := Succeeded, error := None)
      else decided.(summary := outcome, status := ToolInterrupted, error := Some(outcome))
  }

  /** At most 32768 characters of an output are kept. */
  function Kept(output: Option<string>): Option<string> {
    if output.Some? then Some(CapString(output.value, 32 * 1024)) else None
  }

  predicate EndsLine(text: string) { text != "" && text[|text| - 1] == '\n' }

  function Edited(s: Stand, path: string): Stand {
    Note(s.(status := if Finished(s) then s.status else Running, error := None, summary := "正在编辑 " + path), "编辑", path)
  }

  /** What an update says replaces what was there; a whole update notes its summary. */
  function Relabelled(env: Env, e: ClientEvent, s: Stand): Stand
    requires e.ToolUpdated?
  {
    var s1 := s.(name := e.newName.UnwrapOr(s.name), kind := e.newKind.UnwrapOr(s.kind), isSubagent := e.isSubagent || s.isSubagent);
    if e.newSummary.None? then s1
    else
      var s2 := s1.(summary := env.displaySummary(e.newSummary.value));
      if e.isPartial then s2 else Note(s2, "Update", s2.summary)
  }

  function Reloaded(env: Env, e: ClientEvent, s: Stand): Stand
    requires e.ToolUpdated?
  {
    s.(input := if e.rawInput.Some? then Some(env.capRawInput(e.rawInput.value)) else s.input,
       output := if e.rawOutput.Some? then Kept(e.rawOutput) else s.output,
       terminal := if e.terminalOutput.Some? then Kept(e.terminalOutput) else s.terminal)
  }

  /** What an event does to the tool it addresses. */
  function Own(env: Env, e: ClientEvent, s: Stand): Stand {
    match e
    case ToolMessageChunk(_, content) =>
      var heard := s.(status := Running, detail := BoundedTail.AppendChunk(s.detail, content));
      if EndsLine(heard.detail) then heard else Note(heard, "Agent", CollapseWhitespace(content))
    case ToolStarted(_, _, name, kind, summary, _, input) =>
      Note(Unstoppable(s).(status := Running, error := None, name := name, kind := kind, summary := env.displaySummary(summary),
                           input := if input.Some? then Some(env.capRawInput(input.value)) else None, output := None, terminal := None,
                           isSubagent := e.isSubagent),
           "Requested", env.displaySummary(summary))
    case ToolUpdated(_, _, _, _, _, _, _, _, _, isPartial) =>
      Reloaded(env, e, Relabelled(env, e, s)).(status := if isPartial || Finished(s) then s.status else Running)
    case ToolProgress(_, content) => Note(s.(status := Running, error := None, summary := content), "Progress", content)
    case ToolCompleted(_, newName, outcome, output, terminal) =>
      Note(Unstoppable(s).(status := Succeeded, error := None, name := newName.UnwrapOr(s.name),
                           output := Kept(output), terminal := Kept(terminal),
                           summary := env.displaySummary(SummarizeCompletion(outcome))),
           DONE, outcome)
    case ToolFailed(_, newName, reason, output, terminal) =>
      Note(Unstoppable(s).(status := Failed, error := Some(reason), name := newName.UnwrapOr(s.name), summary := "工具失败",
                           output := Kept(output), terminal := Kept(terminal)),
           "错误", reason)
    case ToolDiff(_, path, _) => Edited(s, path)
    case ToolDiffPreview(_, path, _) => Edited(s, path)
    case ToolPermissionRequest(_, name, options, details, request) =>
      var told := details.Some? && !IsBlank(details.value);
      var summary := if options == [] then "等待权限" else "等待权限 | " + JoinLabels(options);
      var s1 := if told then Note(s, "Plan", CollapseWhitespace(details.value)) else s;
      Note(Unstoppable(s1).(status := Running, error := None, decision := None, options := options, request := request,
                           detail := if told then details.value else s.detail,
                           input := if told && (s.kind == "permission" || s.input.None?) then details else s.input,
                           summary := summary, name := if s.kind == "permission" then name else s.name),
           "Permission", summary)
    case ToolPermissionResolved(_, outcome) => Resolved(s, NormalizeOutcome(outcome))
    case ToolStopAvailability(_, canStop, stopKind) => s.(canStop := canStop, stopKind := stopKind, stopStatus := if canStop then None else s.stopStatus)
    case ToolStopped(_, outcome) =>
      Note(s.(status := ToolInterrupted, summary := outcome, error := Some(outcome), canStop := false, stopKind := None,
              stopStatus := Some("stopped")),
           "已停止", outcome)
    case _ => s
  }

  /** The end of a turn: an open tool fails with the error it has, succeeds when the turn ended well, and is
      interrupted otherwise. */
  function AtTurnEnd(s: Stand, reason: string): Stand {
    if !Open(s) then s
    else if s.error.Some? then Unstoppable(s).(status := Failed)
    else
      var well, cancelled := reason == "end_turn", reason == "cancelled";
      var label' := if cancelled then "已取消" else if well then DONE else "已中断";
      Note(Unstoppable(s).(
        status := if well then Succeeded else ToolInterrupted,
        error := if well then None else Some("轮次异常结束：" + reason),
        summary := if IsBlank(s.summary) || s.summary == WAITING || StartsWith(s.summary, "等待权限")
                   then if cancelled then "已取消" else if well then DONE else "异常结束：" + reason
                   else s.summary,
        options := if s.kind == "permission" then [] else s.options,
        decision := if s.kind == "permission" && s.decision.None?
                    then Some(label') else s.decision),
        label', "轮次结束：" + reason)
  }

  function AtInterruption(s: Stand, reason: string): Stand {
    if !Open(s) then s
    else Note(Unstoppable(s).(status := ToolInterrupted, summary := reason, error := Some(reason)), "已中断", reason)
  }

  type Stands = map<string, Stand>

  /** Events that pass without a trace: a start or a result for a finished tool, an answer or a stop for an
      unknown one, and diffs of the file writer. */
  predicate WithoutTrace(m: Stands, e: ClientEvent) {
    || ((e.ToolStarted? || e.ToolCompleted? || e.ToolFailed?) && e.id in m && Finished(m[e.id]))
    || ((e.ToolPermissionResolved? || e.ToolStopAvailability? || e.ToolStopped?) && e.id !in m)
    || (e.ToolDiff? && StartsWith(e.id, "fs_write:"))
  }

  function Next(env: Env, m: Stands, e: ClientEvent): Stands {
    if IsToolEvent(e) then
      if WithoutTrace(m, e) then m
      else
        var aside := map id | id in m :: Aside(e, id, m[id]);
        var s := if e.id in aside then aside[e.id] else Fresh(e);
        aside[e.id := Own(env, e, Placed(e, s))]
    else if e.TurnFinished? then map id | id in m :: AtTurnEnd(m[id], e.stopReason)
    else if e.Interrupted? then map id | id in m :: AtInterruption(m[id], e.reason)
    else m
  }

  function NextAll(env: Env, m: Stands, es: seq<ClientEvent>): Stands {
    if es == [] then m else Next(env, NextAll(env, m, es[..|es| - 1]), es[|es| - 1])
  }

  /** What a note leaves: a text that is empty or repeats the last one is dropped; otherwise it comes last, and
      as many of the latest notes before it stay as make twelve. */
  lemma NoteExactly(s: Stand, title: string, text: string)
    ensures var before, after, body := s.logs, Note(s, title, text).logs, CapString(text, 4096);
            && (text == "" || (before != [] && before[|before| - 1].body == body) ==> after == before)
            && (text != "" && (before == [] || before[|before| - 1].body != body) ==>
                  && after != [] && after[|after| - 1] == ToolLogEntry(title, body)
                  && after[..|after| - 1] == before[|before| - (|after| - 1)..]
                  && |after| == if |before| < 12 then |before| + 1 else 12)
  {
    hide CapString;
    OnlyNothingCapsToNothing(text);
  }

  lemma OnlyNothingCapsToNothing(text: string)
    ensures CapString(text, MAX_TOOL_LOG_CHARS) == "" <==> text == ""
  {
    hide Decimal;
  }

  // ---- The reducer follows it ----

  /** The tools of a session, by call id, as they stand. */
  ghost predicate Stood(ui: Ui, m: Stands) {
    forall id :: (id in m <==> ToolOf(ui, id).Some?) && (id in m ==> m[id] == StandOf(ToolOf(ui, id).value))
  }

  lemma ClosedStands(t: Tool, parent: string, except: Option<string>)
    ensures StandOf(FinishChild(t, parent, except))
            == if t.parentCallId == Some(parent) && IsOpen(t) && except != Some(t.callId) then Closed(StandOf(t)) else StandOf(t)
  {
    hide PushEntry, IsBlank;
  }

  lemma AsideStands(t: Tool, e: ClientEvent)
    requires IsToolEvent(e)
    ensures e.ToolMessageChunk? ==> StandOf(FinishChild(t, e.id, None)) == Aside(e, t.callId, StandOf(t))
    ensures NamedParent(e).Some? ==> StandOf(FinishChild(t, NamedParent(e).value, Some(e.id))) == Aside(e, t.callId, StandOf(t))
    ensures ClosedFamily(e).None? ==> Aside(e, t.callId, StandOf(t)) == StandOf(t)
  {
    hide FinishChild, Closed;
    ClosedStands(t, e.id, None);
    ClosedStands(t, NamedParent(e).UnwrapOr(""), Some(e.id));
  }

  lemma StreamingStands(env: Env, t: Tool, e: ClientEvent)
    ensures e.ToolMessageChunk? ==> StandOf(StreamChunk(t, e.content)) == Own(env, e, StandOf(t))
    ensures e.ToolProgress? ==> StandOf(ReportProgress(t, e.content)) == Own(env, e, StandOf(t))
  {
    hide PushEntry, BoundedTail.AppendChunk, CollapseWhitespace;
  }

  lemma EditingStands(env: Env, t: Tool, e: ClientEvent, path: string)
    ensures StandOf(Editing(t, path)) == Edited(StandOf(t), path)
    ensures e.ToolStopped? ==> StandOf(StopTool(t, e.outcome)) == Own(env, e, StandOf(t))
  {
    hide PushEntry;
  }

  lemma StartStands(env: Env, t: Tool, e: ClientEvent)
    requires e.ToolStarted?
    ensures StandOf(StartTool(env, t, e)) == Own(env, e, StandOf(t))
  {
    hide PushEntry, CapString;
  }

  lemma LabelsStand(env: Env, t: Tool, e: ClientEvent)
    requires e.ToolUpdated?
    ensures StandOf(UpdateLabels(env, t, e)) == Relabelled(env, e, StandOf(t))
    ensures Relabelled(env, e, StandOf(t)).status == t.status
  {
    hide PushEntry;
  }

  lemma PayloadStands(env: Env, t: Tool, e: ClientEvent)
    requires e.ToolUpdated?
    ensures StandOf(UpdatePayload(env, t, e)) == Reloaded(env, e, StandOf(t))
    ensures UpdatePayload(env, t, e).status == t.status
  {
    hide PushEntry, CapString;
  }

  lemma UpdateStands(env: Env, t: Tool, e: ClientEvent)
    requires e.ToolUpdated?
    ensures StandOf(UpdateFields(env, t, e)) == Own(env, e, StandOf(t))
  {
    hide UpdateLabels, UpdatePayload, PushEntry, Relabelled, Reloaded;
    LabelsStand(env, t, e);
    PayloadStands(env, UpdateLabels(env, t, e), e);
  }

  lemma ResultsStand(env: Env, t: Tool, e: ClientEvent)
    ensures e.ToolCompleted? ==> StandOf(CompleteTool(env, t, e)) == Own(env, e, StandOf(t))
    ensures e.ToolFailed? ==> StandOf(FailTool(t, e)) == Own(env, e, StandOf(t))
  {
    hide PushEntry, CapString, SummarizeCompletion;
  }

  lemma RequestStands(env: Env, t: Tool, e: ClientEvent)
    requires e.ToolPermissionRequest?
    ensures StandOf(RequestPermission(t, t.kind != "permission", e)) == Own(env, e, StandOf(t))
  {
    hide PushEntry, JoinLabels, IsBlank, CollapseWhitespace;
  }

  lemma RequestDecided(t: Tool, outcome: string)
    requires !KeepsLocalReject(t.permissionDecision, outcome) && t.stopStatus != Some("stopped") && t.kind == "permission"
    ensures StandOf(ResolvePermission(t, outcome)) == Resolved(StandOf(t), outcome)
  {
    hide PushEntry, KeepsLocalReject, AllowsExecution, IsControlSuccess;
  }

  lemma ExecutionAllowed(t: Tool, outcome: string)
    requires !KeepsLocalReject(t.permissionDecision, outcome) && t.stopStatus != Some("stopped") && t.kind != "permission" && AllowsExecution(outcome)
    ensures StandOf(ResolvePermission(t, outcome)) == Resolved(StandOf(t), outcome)
  {
    hide PushEntry, KeepsLocalReject, AllowsExecution, IsControlSuccess;
  }

  lemma ExecutionControlled(t: Tool, outcome: string)
    requires !KeepsLocalReject(t.permissionDecision, outcome) && t.stopStatus != Some("stopped")
    requires t.kind != "permission" && !AllowsExecution(outcome) && IsControlSuccess(outcome)
    ensures StandOf(ResolvePermission(t, outcome)) == Resolved(StandOf(t), outcome)
  {
    hide PushEntry, KeepsLocalReject, AllowsExecution, IsControlSuccess;
  }

  lemma ExecutionRefused(t: Tool, outcome: string)
    requires !KeepsLocalReject(t.permissionDecision, outcome) && t.stopStatus != Some("stopped")
    requires t.kind != "permission" && !AllowsExecution(outcome) && !IsControlSuccess(outcome)
    ensures StandOf(ResolvePermission(t, outcome)) == Resolved(StandOf(t), outcome)
  {
    hide PushEntry, KeepsLocalReject, AllowsExecution, IsControlSuccess;
  }

  lemma ResolvingStands(t: Tool, outcome: string)
    ensures StandOf(ResolvePermission(t, outcome)) == Resolved(StandOf(t), outcome)
  {
    hide PushEntry, KeepsLocalReject, AllowsExecution, IsControlSuccess;
    if KeepsLocalReject(t.permissionDecision, outcome) {
      assert StandOf(PushLog(t, "Decision", outcome)) == Note(StandOf(t), "Decision", outcome);
    } else if t.stopStatus == Some("stopped") {
      assert StandOf(ResolvePermission(t, outcome))
             == Note(StandOf(t).(decision := Some(outcome), options := [], request := None), "Decision", outcome);
    } else if t.kind == "permission" {
      RequestDecided(t, outcome);
    } else if AllowsExecution(outcome) {
      ExecutionAllowed(t, outcome);
    } else if IsControlSuccess(outcome) {
      ExecutionControlled(t, outcome);
    } else {
      ExecutionRefused(t, outcome);
    }
  }

  lemma StreamChangeStands(env: Env, t: Tool, e: ClientEvent, asked: bool)
    requires e.ToolMessageChunk? || e.ToolProgress?
    ensures StandOf(Change(env, e, t, asked)) == Own(env, e, StandOf(t))
  {
    hide StreamChunk, ReportProgress, Editing, StopTool, Resolved, NormalizeOutcome, SummarizeCompletion, JoinLabels;
    StreamingStands(env, t, e);
  }

  lemma StopChangeStands(env: Env, t: Tool, e: ClientEvent, asked: bool)
    requires e.ToolStopped? || e.ToolStopAvailability?
    ensures StandOf(Change(env, e, t, asked)) == Own(env, e, StandOf(t))
  {
    hide StreamChunk, ReportProgress, Editing, StopTool, Resolved, NormalizeOutcome, SummarizeCompletion, JoinLabels;
    if e.ToolStopped? { EditingStands(env, t, e, ""); }
  }

  lemma EditChangeStands(env: Env, t: Tool, e: ClientEvent, asked: bool)
    requires e.ToolDiff? || e.ToolDiffPreview?
    ensures StandOf(Change(env, e, t, asked)) == Own(env, e, StandOf(t))
  {
    hide StreamChunk, ReportProgress, Editing, StopTool, Resolved, NormalizeOutcome, SummarizeCompletion, JoinLabels;
    EditingStands(env, t, e, e.path);
  }

  lemma ResolvedOwn(env: Env, e: ClientEvent, s: Stand)
    requires e.ToolPermissionResolved?
    ensures Own(env, e, s) == Resolved(s, NormalizeOutcome(e.outcome))
  {
    hide Resolved, NormalizeOutcome;
  }

  lemma ChangeStands(env: Env, t: Tool, e: ClientEvent)
    requires IsToolEvent(e)
    ensures StandOf(Change(env, e, t, t.kind != "permission")) == Own(env, e, StandOf(t))
  {
    hide Own, StandOf, StartTool, UpdateFields, CompleteTool, FailTool, RequestPermission, ResolvePermission, Resolved, NormalizeOutcome,
      StreamChunk, ReportProgress, Editing, StopTool, OfferStop;
    match e
    case ToolStarted(_, _, _, _, _, _, _) => StartStands(env, t, e);
    case ToolUpdated(_, _, _, _, _, _, _, _, _, _) => UpdateStands(env, t, e);
    case ToolCompleted(_, _, _, _, _) => ResultsStand(env, t, e);
    case ToolFailed(_, _, _, _, _) => ResultsStand(env, t, e);
    case ToolPermissionRequest(_, _, _, _, _) => RequestStands(env, t, e);
    case ToolPermissionResolved(_, outcome) => ResolvingStands(t, NormalizeOutcome(outcome)); ResolvedOwn(env, e, StandOf(t));
    case ToolDiff(_, _, _) => EditChangeStands(env, t, e, t.kind != "permission");
    case ToolDiffPreview(_, _, _) => EditChangeStands(env, t, e, t.kind != "permission");
    case ToolStopped(_, _) => StopChangeStands(env, t, e, t.kind != "permission");
    case ToolStopAvailability(_, _, _) => StopChangeStands(env, t, e, t.kind != "permission");
    case _ => StreamChangeStands(env, t, e, t.kind != "permission");
  }

  lemma ClosedAtTurnEnd(t: Tool, reason: string)
    requires IsOpen(t) && t.error.None?
    ensures StandOf(FinishOpen(t, reason)) == AtTurnEnd(StandOf(t), reason)
  {
    hide PushEntry, IsBlank, StartsWith;
  }

  lemma TurnEndStands(t: Tool, reason: string)
    ensures StandOf(FinishOpen(t, reason)) == AtTurnEnd(StandOf(t), reason)
  {
    hide PushEntry, IsBlank, StartsWith;
    if !IsOpen(t) {
      assert FinishOpen(t, reason) == t;
    } else if t.error.Some? {
      assert FinishOpen(t, reason) == ClearStop(t.(status := Failed));
    } else {
      ClosedAtTurnEnd(t, reason);
    }
  }

  lemma InterruptionStands(t: Tool, reason: string)
    ensures StandOf(InterruptOpen(t, reason)) == AtInterruption(StandOf(t), reason)
  {
    hide PushEntry;
  }

  // ---- One event ----

  /** What an event leaves of a tool: the addressee is changed after it was set aside and made to exist, all
      others are only set aside. */
  ghost predicate Follows(env: Env, ui: Ui, e: ClientEvent, ui': Ui, callId: string)
    requires IsToolEvent(e)
  {
    var before, after := ToolOf(ui, callId), ToolOf(ui', callId);
    if callId != e.id then
      (after.Some? <==> before.Some?) && (before.Some? ==> StandOf(after.value) == Aside(e, callId, StandOf(before.value)))
    else
      var s := if before.Some? then Aside(e, callId, StandOf(before.value)) else Fresh(e);
      after.Some? && StandOf(after.value) == Own(env, e, Placed(e, s))
  }

  /** The tools of `ui0` are those of `ui`, set aside. */
  ghost predicate SetAside(ui: Ui, e: ClientEvent, ui0: Ui) {
    forall id :: (ToolOf(ui0, id).Some? <==> ToolOf(ui, id).Some?)
      && (ToolOf(ui, id).Some? ==> StandOf(ToolOf(ui0, id).value) == Aside(e, id, StandOf(ToolOf(ui, id).value)))
  }

  lemma ToolOfHasId(ui: Ui, id: string)
    ensures ToolOf(ui, id).Some? ==> ToolOf(ui, id).value.callId == id
  {
  }

  lemma ChildrenSetAside(ui: Ui, e: ClientEvent)
    requires IsToolEvent(e)
    ensures e.ToolMessageChunk? ==> SetAside(ui, e, FinishChildren(ui, e.id, None))
    ensures !e.ToolMessageChunk? ==> SetAside(ui, e, FinishChildrenOf(ui, NamedParent(e), e.id))
  {
    hide FinishChild, Aside, StandOf, ToolOf;
    var parent := if e.ToolMessageChunk? then e.id else NamedParent(e).UnwrapOr("");
    var except := if e.ToolMessageChunk? then None else Some(e.id);
    forall t ensures FinishChild(t, parent, except).callId == t.callId { ChildKeepsId(t, parent, except); }
    forall id
      ensures ToolOf(ui, id).Some? ==> ToolOf(ui, id).value.callId == id
      ensures ToolOf(FinishChildren(ui, parent, except), id)
              == if ToolOf(ui, id).Some? then Some(FinishChild(ToolOf(ui, id).value, parent, except)) else None
      ensures ToolOf(ui, id).Some? && ClosedFamily(e).None? ==> Aside(e, id, StandOf(ToolOf(ui, id).value)) == StandOf(ToolOf(ui, id).value)
      ensures ToolOf(ui, id).Some? && ClosedFamily(e).Some?
              ==> StandOf(FinishChild(ToolOf(ui, id).value, parent, except)) == Aside(e, id, StandOf(ToolOf(ui, id).value))
    {
      MapToolOf(ui, t => FinishChild(t, parent, except), id);
      ToolOfHasId(ui, id);
      if ToolOf(ui, id).Some? { AsideStands(ToolOf(ui, id).value, e); }
    }
  }

  lemma ChildKeepsId(t: Tool, parent: string, except: Option<string>)
    ensures FinishChild(t, parent, except).callId == t.callId
  {
    hide PushEntry, IsBlank;
  }

  lemma NewToolStands(id: nat, e: ClientEvent, name: string, kind: string)
    requires IsToolEvent(e) && name == Fresh(e).name && kind == Fresh(e).kind
    ensures StandOf(NewTool(id, e.id, NamedParent(e), name, kind, NamesSubagent(e))) == Placed(e, Fresh(e))
  {
  }

  /** An ensured tool stands as it did, or as a fresh one, where the event places it. */
  lemma EnsuredStands(ui0: Ui, e: ClientEvent)
    requires IsToolEvent(e)
    ensures var ui1 := EnsureTool(ui0, e.id, NamedParent(e), Fresh(e).name, Fresh(e).kind, NamesSubagent(e));
            var s := if ToolOf(ui0, e.id).Some? then StandOf(ToolOf(ui0, e.id).value) else Fresh(e);
            StandOf(TheTool(ui1, e.id)) == Placed(e, s)
  {
    hide EnsureTool, Fresh, NamedParent, NamesSubagent, ToolOf;
    EnsureToolOf(ui0, e.id, NamedParent(e), Fresh(e).name, Fresh(e).kind, NamesSubagent(e), e.id);
    NewToolStands(ui0.nextId, e, Fresh(e).name, Fresh(e).kind);
  }

  lemma NothingPlaced(e: ClientEvent, s: Stand)
    requires !e.ToolStarted? && !e.ToolUpdated?
    ensures Placed(e, s) == s
  {
  }

  lemma ChangeKeepsId(env: Env, t: Tool, e: ClientEvent, asked: bool)
    requires IsToolEvent(e)
    ensures Change(env, e, t, asked).callId == t.callId
  {
    hide StreamChunk, ReportProgress, Editing, StopTool, StartTool, UpdateFields, CompleteTool, FailTool, RequestPermission,
      ResolvePermission, NormalizeOutcome;
    match e
    case ToolMessageChunk(_, content) => StreamingKeepsCallId(t, content);
    case ToolProgress(_, content) => StreamingKeepsCallId(t, content);
    case ToolDiff(_, path, _) => StreamingKeepsCallId(t, path);
    case ToolDiffPreview(_, path, _) => StreamingKeepsCallId(t, path);
    case ToolStopped(_, outcome) => StreamingKeepsCallId(t, outcome);
    case ToolPermissionResolved(_, outcome) => ResolvingKeepsCallId(t, NormalizeOutcome(outcome));
    case ToolStopAvailability(_, _, _) =>
    case _ => ResultsKeepCallId(env, t, e, asked);
  }

  /** A tool that an event changes after its relatives were set aside and it was made to exist. */
  lemma EnsuredFollows(env: Env, ui: Ui, ui0: Ui, e: ClientEvent, asked: bool, callId: string)
    requires IsToolEvent(e) && SetAside(ui, e, ui0)
    requires e.ToolPermissionRequest? ==>
               asked == (TheTool(EnsureTool(ui0, e.id, NamedParent(e), Fresh(e).name, Fresh(e).kind, NamesSubagent(e)), e.id).kind != "permission")
    ensures var ui1 := EnsureTool(ui0, e.id, NamedParent(e), Fresh(e).name, Fresh(e).kind, NamesSubagent(e));
            var ui' := SetTool(ui1, e.id, Change(env, e, TheTool(ui1, e.id), asked));
            && Follows(env, ui, e, ui', callId)
            && Follows(env, ui, e, ui'.(sessionStatus := WaitingForTool), callId)
            && Follows(env, ui, e, Refresh(ui'), callId)
  {
    hide EnsureTool, Fresh, NamedParent, NamesSubagent, Placed, ToolOf, Change, Own, Aside, StandOf, SetTool, Refresh;
    var ui1 := EnsureTool(ui0, e.id, NamedParent(e), Fresh(e).name, Fresh(e).kind, NamesSubagent(e));
    var t := TheTool(ui1, e.id);
    var t' := Change(env, e, t, asked);
    EnsuredStands(ui0, e);
    ChangeKeepsId(env, t, e, asked);
    EnsureAndSetOf(ui0, e.id, NamedParent(e), Fresh(e).name, Fresh(e).kind, NamesSubagent(e), t', callId);
    StatusOnly(SetTool(ui1, e.id, t'), WaitingForTool, callId);
    AskedOnly(env, t, e, asked);
    ChangeStands(env, t, e);
    ToolOfHasId(ui, e.id);
  }

  /** Only a permission request looks at whether the tool is one of its own. */
  lemma AskedOnly(env: Env, t: Tool, e: ClientEvent, asked: bool)
    requires IsToolEvent(e) && (e.ToolPermissionRequest? ==> asked == (t.kind != "permission"))
    ensures Change(env, e, t, asked) == Change(env, e, t, t.kind != "permission")
  {
    hide StreamChunk, ReportProgress, Editing, StopTool, StartTool, UpdateFields, CompleteTool, FailTool, RequestPermission,
      ResolvePermission, NormalizeOutcome, OfferStop;
  }

  lemma NothingAside(ui: Ui, e: ClientEvent)
    requires IsToolEvent(e) && ClosedFamily(e).None?
    ensures SetAside(ui, e, ui)
  {
  }
}
