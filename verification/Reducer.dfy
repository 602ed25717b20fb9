/**
 The UI reducer as a function: `Apply` is what one client event does to the session view. The
 imperative form over a mutable snapshot is class `UiSnapshot`; it is proved equal to this one.
 */
module Reducer {
  import opened Options
  import opened Events
  import opened Text
  import opened Usage
  import BoundedTail

  const MAX_TOOL_RAW_OUTPUT_CHARS: nat := 32 * 1024
  const MAX_TOOL_LOG_CHARS: nat := 4 * 1024
  const MAX_TOOL_LOGS: nat := 12

  datatype SessionStatus = Idle | Streaming | WaitingForTool | SessionInterrupted
  datatype ThinkingStatus = Active | Completed
  datatype ToolStatus = Pending | Running | Succeeded | Failed | ToolInterrupted
  datatype TimelineItem = MessageItem(id: nat) | ToolItem(id: nat) | Thinking
  datatype ChatMessage = ChatMessage(id: nat, role: MessageRole, body: string)
  datatype ToolLogEntry = ToolLogEntry(title: string, body: string)

  datatype Tool = Tool(
    id: nat, callId: string, parentCallId: Option<string>, name: string, kind: string, summary: string,
    status: ToolStatus, isSubagent: bool, detailText: string, logs: seq<ToolLogEntry>,
    rawInput: Option<string>, rawOutput: Option<string>, terminalOutput: Option<string>,
    error: Option<string>, permissionOptions: seq<string>, permissionInput: Option<string>,
    permissionDecision: Option<string>, canStop: bool, stopKind: Option<string>, stopStatus: Option<string>)

  /** UUIDs are a fresh counter, `nextId`. */
  datatype Ui = Ui(
    nextId: nat, sessionStatus: SessionStatus, sessionModel: string, sessionCli: Option<string>, title: string,
    thinkingStatus: Option<ThinkingStatus>, thinkingText: string,
    messages: seq<ChatMessage>, timeline: seq<TimelineItem>, tools: seq<Tool>, usage: Ledger)

  /** What the reducer takes from code outside the model: the display form of a tool summary, which
      depends on the workspace root, and the size cap of structured tool input. */
  datatype Env = Env(displaySummary: string -> string, capRawInput: string -> string)

  // ---- Tools ----

  predicate IsOpen(t: Tool) { t.status.Pending? || t.status.Running? }
  predicate IsFinished(t: Tool) { t.status.Succeeded? || t.status.Failed? }

  /** Index of the first tool with the call id, or the number of tools. */
  function FindTool(tools: seq<Tool>, callId: string): (i: nat)
    ensures i <= |tools|
    ensures i < |tools| ==> tools[i].callId == callId
    ensures forall j :: 0 <= j < i ==> tools[j].callId != callId
  {
    if tools == [] || tools[0].callId == callId then 0 else 1 + FindTool(tools[1..], callId)
  }

  lemma SameCallIds(tools: seq<Tool>, tools': seq<Tool>, callId: string)
    requires |tools| == |tools'| && forall i :: 0 <= i < |tools| ==> tools[i].callId == tools'[i].callId
    ensures FindTool(tools, callId) == FindTool(tools', callId)
  {}

  /** At most 12 entries, and no two neighbours with the same text. */
  ghost predicate BoundedLogs(logs: seq<ToolLogEntry>) {
    && |logs| <= MAX_TOOL_LOGS
    && forall i, j :: 0 <= i < |logs| && j == i + 1 < |logs| ==> logs[i].body != logs[j].body
  }

  function PushEntry(logs: seq<ToolLogEntry>, title: string, text: string): (r: seq<ToolLogEntry>)
    ensures BoundedLogs(logs) ==> BoundedLogs(r)
  {
    var body := CapString(text, MAX_TOOL_LOG_CHARS);
    if body == "" || (logs != [] && logs[|logs| - 1].body == body) then logs
    else
      var longer := logs + [ToolLogEntry(title, body)];
      if |longer| > MAX_TOOL_LOGS then longer[|longer| - MAX_TOOL_LOGS..] else longer
  }

  function PushLog(t: Tool, title: string, text: string): Tool {
    t.(logs := PushEntry(t.logs, title, text))
  }

  function ClearStop(t: Tool): Tool {
    t.(canStop := false, stopKind := None, stopStatus := None)
  }

  function NewTool(id: nat, callId: string, parent: Option<string>, name: string, kind: string, isSubagent: bool): Tool {
    Tool(id, callId, parent, name, kind, "等待活动", Pending, isSubagent, "", [], None, None, None, None, [], None, None,
         false, None, None)
  }

  function EnsureTool(ui: Ui, callId: string, parent: Option<string>, name: string, kind: string, isSubagent: bool): (r: Ui)
    ensures FindTool(r.tools, callId) < |r.tools|
  {
    var i := FindTool(ui.tools, callId);
    if i < |ui.tools| then
      var t := ui.tools[i];
      var t' := t.(parentCallId := if parent.Some? then parent else t.parentCallId,
                   isSubagent := isSubagent || t.isSubagent);
      var r := ui.(tools := ui.tools[i := t']);
      assert r.tools[i].callId == callId;
      r
    else
      var r := ui.(nextId := ui.nextId + 1,
                   tools := ui.tools + [NewTool(ui.nextId, callId, parent, name, kind, isSubagent)],
                   timeline := ui.timeline + [ToolItem(ui.nextId)]);
      assert r.tools[|ui.tools|].callId == callId;
      r
  }

  function TheTool(ui: Ui, callId: string): Tool
    requires FindTool(ui.tools, callId) < |ui.tools|
  {
    ui.tools[FindTool(ui.tools, callId)]
  }

  function SetTool(ui: Ui, callId: string, t: Tool): Ui
    requires FindTool(ui.tools, callId) < |ui.tools|
  {
    ui.(tools := ui.tools[FindTool(ui.tools, callId) := t])
  }

  function Refresh(ui: Ui): Ui {
    ui.(sessionStatus := if exists t <- ui.tools :: IsOpen(t) then WaitingForTool else Streaming)
  }

  function FinishChild(t: Tool, parent: string, except: Option<string>): Tool {
    if t.parentCallId != Some(parent) || !IsOpen(t) || except == Some(t.callId) then t
    else
      var t1 := ClearStop(t.(status := Succeeded));
      var t2 := if IsBlank(t1.summary) || t1.summary == "等待活动" then t1.(summary := "已完成") else t1;
      PushLog(t2, "已完成", "根据后续父活动推断")
  }

  function MapTools(tools: seq<Tool>, f: Tool -> Tool): seq<Tool> {
    seq(|tools|, i requires 0 <= i < |tools| => f(tools[i]))
  }

  function FinishChildren(ui: Ui, parent: string, except: Option<string>): Ui {
    ui.(tools := MapTools(ui.tools, t => FinishChild(t, parent, except)))
  }

  function FinishChildrenOf(ui: Ui, parent: Option<string>, except: string): Ui {
    if parent.Some? then FinishChildren(ui, parent.value, Some(except)) else ui
  }

  function FinishOpen(t: Tool, stopReason: string): Tool {
    var normal, cancelled := stopReason == "end_turn", stopReason == "cancelled";
    if !IsOpen(t) then t
    else if t.error.Some? then ClearStop(t.(status := Failed))
    else
      var t1 := ClearStop(t.(status := if normal then Succeeded else ToolInterrupted));
      var t2 := if IsBlank(t1.summary) || t1.summary == "等待活动" || StartsWith(t1.summary, "等待权限")
                then t1.(summary := if cancelled then "已取消" else if normal then "已完成" else "异常结束：" + stopReason)
                else t1;
      var label' := if cancelled then "已取消" else if normal then "已完成" else "已中断";
      var t3 := if t2.kind != "permission" then t2
                else t2.(permissionOptions := [],
                         permissionDecision := if t2.permissionDecision.None? then Some(label') else t2.permissionDecision);
      var t4 := if normal then t3 else t3.(error := Some("轮次异常结束：" + stopReason));
      PushLog(t4, label', "轮次结束：" + stopReason)
  }

  function InterruptOpen(t: Tool, reason: string): Tool {
    if !IsOpen(t) then t
    else PushLog(ClearStop(t.(status := ToolInterrupted, summary := reason, error := Some(reason))), "已中断", reason)
  }

  function CapOptional(value: Option<string>, max: nat): Option<string> {
    if value.Some? then Some(CapString(value.value, max)) else None
  }

  function CapInput(env: Env, value: Option<string>): Option<string> {
    if value.Some? then Some(env.capRawInput(value.value)) else None
  }

  function SummarizeCompletion(outcome: string): string {
    var compact := CollapseWhitespace(outcome);
    if compact == "" then "已完成" else if |compact| > 120 then compact[..117] + "..." else compact
  }

  // ---- Messages ----

  /** Index of the first message with the id, or the number of messages. */
  function FindMessage(messages: seq<ChatMessage>, id: nat): (i: nat)
    ensures i <= |messages|
    ensures i < |messages| ==> messages[i].id == id
    ensures forall j :: 0 <= j < i ==> messages[j].id != id
  {
    if messages == [] || messages[0].id == id then 0 else 1 + FindMessage(messages[1..], id)
  }

  /** Index of the message that the timeline ends with, if it ends with one. */
  function LastMessage(ui: Ui): Option<nat> {
    if ui.timeline == [] || !ui.timeline[|ui.timeline| - 1].MessageItem? then None
    else
      var i := FindMessage(ui.messages, ui.timeline[|ui.timeline| - 1].id);
      if i < |ui.messages| then Some(i) else None
  }

  lemma LastMessageIsIndex(ui: Ui)
    ensures LastMessage(ui).Some? ==> LastMessage(ui).value < |ui.messages|
  {}

  function NewMessageContent(role: MessageRole, content: string): Option<string> {
    if role.User? then Some(content) else if IsBlank(content) then None else Some(TrimLineBreaks(content))
  }

  function PushStandalone(ui: Ui, role: MessageRole, content: string): Ui {
    match NewMessageContent(role, content)
    case None => ui
    case Some(body) =>
      ui.(nextId := ui.nextId + 1,
          timeline := ui.timeline + [MessageItem(ui.nextId)],
          messages := ui.messages + [ChatMessage(ui.nextId, role, body)])
  }

  function PushMessage(ui: Ui, role: MessageRole, content: string): Ui {
    var last := LastMessage(ui);
    if last.Some? && ui.messages[last.value].role == role && !role.User? then
      var m := ui.messages[last.value];
      ui.(messages := ui.messages[last.value := m.(body := m.body + content)])
    else PushStandalone(ui, role, content)
  }

  predicate IsInternalMetadata(content: string) {
    var text := Trim(content);
    StartsWith(text, "ACP capabilities:") || StartsWith(text, "Connected to ACP workspace ")
  }

  function CompactedNotice(message: string): string {
    if Trim(message) == "" then "上下文已自动压缩" else Trim(message)
  }

  function CompactionStartedNotice(message: string): string {
    if Trim(message) == "" then "正在压缩上下文" else Trim(message)
  }

  predicate IsCompactionNotice(body: string) {
    || Trim(body) == "正在压缩上下文" || StartsWith(Trim(body), "正在压缩上下文（")
    || body == "上下文已压缩" || body == "上下文已自动压缩"
    || StartsWith(body, "上下文压缩未完成：") || StartsWith(body, "上下文压缩完成：") || StartsWith(body, "上下文压缩失败：")
  }

  function PushCompactionNotice(ui: Ui, content: string): Ui {
    if ui.messages != [] && ui.messages[|ui.messages| - 1].role.System?
       && IsCompactionNotice(ui.messages[|ui.messages| - 1].body)
    then ui else PushStandalone(ui, System, content)
  }

  function ReplaceCompactionNotice(ui: Ui, content: string): Ui {
    var last := LastMessage(ui);
    if last.Some? && ui.messages[last.value].role.System? && IsCompactionNotice(ui.messages[last.value].body)
    then ui.(messages := ui.messages[last.value := ui.messages[last.value].(body := content)])
    else PushStandalone(ui, System, content)
  }

  // ---- Permissions ----

  function NormalizeOutcome(outcome: string): string {
    if Lower(Trim(outcome)) == Lower("Permission selected: No, provide feedback") then "编辑已拒绝" else outcome
  }

  predicate KeepsLocalReject(decision: Option<string>, outcome: string) {
    && decision.Some?
    && (Contains(Lower(decision.value), "reject") || Contains(Lower(decision.value), "deny"))
    && Contains(Lower(outcome), "permission resolved")
    && (Contains(Lower(outcome), "allow") || Contains(Lower(outcome), "default"))
  }

  predicate AllowsExecution(outcome: string) {
    var o := Lower(outcome);
    && (Contains(o, "allow") || Contains(o, "approved") || Contains(o, "default")
        || StartsWith(Trim(o), "permission selected: yes"))
    && !Contains(o, "reject") && !Contains(o, "deny") && !Contains(o, "cancel")
  }

  predicate IsControlSuccess(outcome: string) {
    var o := Trim(outcome);
    StartsWith(o, "继续规划") || StartsWith(o, "计划已终止") || StartsWith(o, "编辑已拒绝")
  }

  function JoinLabels(labels: seq<string>): string {
    if labels == [] then "" else if |labels| == 1 then labels[0]
    else JoinLabels(labels[..|labels| - 1]) + " / " + labels[|labels| - 1]
  }

  function RequestPermission(t: Tool, isExecution: bool, e: ClientEvent): Tool
    requires e.ToolPermissionRequest?
  {
    var summary := if e.options == [] then "等待权限" else "等待权限 | " + JoinLabels(e.options);
    var t1 := if isExecution then t else t.(name := e.name, kind := "permission");
    var t2 := t1.(summary := summary, status := Running, error := None, permissionOptions := e.options,
                  permissionInput := e.request, permissionDecision := None,
                  canStop := false, stopKind := None, stopStatus := None);
    var t3 := if e.details.None? || IsBlank(e.details.value) then t2
              else
                var d := t2.(detailText := e.details.value,
                             rawInput := if !isExecution || t2.rawInput.None? then e.details else t2.rawInput);
                PushLog(d, "Plan", CollapseWhitespace(e.details.value));
    PushLog(t3, "Permission", summary)
  }

  function ResolvePermission(t: Tool, outcome: string): Tool {
    var isExecution := t.kind != "permission";
    if KeepsLocalReject(t.permissionDecision, outcome) then PushLog(t, "Decision", outcome)
    else if t.stopStatus == Some("stopped") then
      PushLog(t.(permissionOptions := [], permissionInput := None, permissionDecision := Some(outcome)), "Decision", outcome)
    else
      var t1 :=
        if isExecution && AllowsExecution(outcome) then
          t.(summary := "权限已通过，等待工具执行", status := if IsFinished(t) then t.status else Running)
        else if isExecution && IsControlSuccess(outcome) then t.(summary := outcome, status := Succeeded, error := None)
        else if isExecution then t.(summary := outcome, status := ToolInterrupted, error := Some(outcome))
        else t.(summary := outcome, status := Succeeded);
      var t2 := ClearStop(t1.(permissionOptions := [], permissionInput := None, permissionDecision := Some(outcome)));
      var t3 := if !isExecution || AllowsExecution(outcome) || IsControlSuccess(outcome) then t2.(error := None) else t2;
      PushLog(t3, "Decision", outcome)
  }

  // ---- Usage ----

  /** Fills in what the event leaves out from the session. */
  function Enrich(ui: Ui, e: UsageEvent): UsageEvent {
    e.(model := if e.model.None? && !IsBlank(ui.sessionModel) then Some(ui.sessionModel) else e.model,
       agentCli := if e.agentCli.None? then ui.sessionCli else e.agentCli)
  }

  // ---- Events ----

  function UpdateLabels(env: Env, t: Tool, e: ClientEvent): Tool
    requires e.ToolUpdated?
  {
    var t1 := t.(name := e.newName.UnwrapOr(t.name), kind := e.newKind.UnwrapOr(t.kind), isSubagent := e.isSubagent || t.isSubagent);
    if e.newSummary.None? then t1
    else
      var summary := env.displaySummary(e.newSummary.value);
      if e.isPartial then t1.(summary := summary) else PushLog(t1.(summary := summary), "Update", summary)
  }

  function UpdatePayload(env: Env, t: Tool, e: ClientEvent): Tool
    requires e.ToolUpdated?
  {
    t.(rawInput := if e.rawInput.Some? then CapInput(env, e.rawInput) else t.rawInput,
       rawOutput := if e.rawOutput.Some? then CapOptional(e.rawOutput, MAX_TOOL_RAW_OUTPUT_CHARS) else t.rawOutput,
       terminalOutput := if e.terminalOutput.Some? then CapOptional(e.terminalOutput, MAX_TOOL_RAW_OUTPUT_CHARS) else t.terminalOutput)
  }

  function UpdateFields(env: Env, t: Tool, e: ClientEvent): Tool
    requires e.ToolUpdated?
  {
    var t1 := UpdatePayload(env, UpdateLabels(env, t, e), e);
    if e.isPartial || IsFinished(t1) then t1 else t1.(status := Running)
  }

  function Editing(t: Tool, path: string): Tool {
    var t1 := t.(summary := "正在编辑 " + path, status := if IsFinished(t) then t.status else Running, error := None);
    PushLog(t1, "编辑", path)
  }

  predicate FinishedAlready(ui: Ui, callId: string) {
    var i := FindTool(ui.tools, callId);
    i < |ui.tools| && IsFinished(ui.tools[i])
  }

  function StreamChunk(t: Tool, content: string): Tool {
    var t1 := t.(status := Running, detailText := BoundedTail.AppendChunk(t.detailText, content));
    if t1.detailText != "" && t1.detailText[|t1.detailText| - 1] == '\n' then t1
    else PushLog(t1, "Agent", CollapseWhitespace(content))
  }

  function OnToolChunk(ui: Ui, e: ClientEvent): Ui
    requires e.ToolMessageChunk?
  {
    var ui1 := EnsureTool(FinishChildren(ui, e.id, None), e.id, None, "tool", "tool", false);
    SetTool(ui1, e.id, StreamChunk(TheTool(ui1, e.id), e.content)).(sessionStatus := WaitingForTool)
  }

  function StartTool(env: Env, t: Tool, e: ClientEvent): Tool
    requires e.ToolStarted?
  {
    var summary := env.displaySummary(e.summary);
    PushLog(ClearStop(t.(
      name := e.name, kind := e.kind, summary := summary, status := Running, isSubagent := e.isSubagent,
      rawInput := CapInput(env, e.rawInput), rawOutput := None, terminalOutput := None, error := None)),
      "Requested", summary)
  }

  function OnToolStarted(env: Env, ui: Ui, e: ClientEvent): Ui
    requires e.ToolStarted?
  {
    if FinishedAlready(ui, e.id) then ui
    else
      var ui1 := EnsureTool(FinishChildrenOf(ui, e.parentId, e.id), e.id, e.parentId, e.name, e.kind, e.isSubagent);
      SetTool(ui1, e.id, StartTool(env, TheTool(ui1, e.id), e)).(sessionStatus := WaitingForTool)
  }

  function OnToolUpdated(env: Env, ui: Ui, e: ClientEvent): Ui
    requires e.ToolUpdated?
  {
    var ui1 := EnsureTool(FinishChildrenOf(ui, e.parentId, e.id), e.id, e.parentId, "tool", "tool", e.isSubagent);
    var ui2 := SetTool(ui1, e.id, UpdateFields(env, TheTool(ui1, e.id), e));
    if e.isPartial then ui2 else ui2.(sessionStatus := WaitingForTool)
  }

  function CompleteTool(env: Env, t: Tool, e: ClientEvent): Tool
    requires e.ToolCompleted?
  {
    PushLog(ClearStop(t.(
      name := e.newName.UnwrapOr(t.name), summary := env.displaySummary(SummarizeCompletion(e.outcome)),
      status := Succeeded, rawOutput := CapOptional(e.rawOutput, MAX_TOOL_RAW_OUTPUT_CHARS),
      terminalOutput := CapOptional(e.terminalOutput, MAX_TOOL_RAW_OUTPUT_CHARS), error := None)),
      "已完成", e.outcome)
  }

  function OnToolCompleted(env: Env, ui: Ui, e: ClientEvent): Ui
    requires e.ToolCompleted?
  {
    if FinishedAlready(ui, e.id) then ui
    else
      var ui1 := EnsureTool(ui, e.id, None, e.newName.UnwrapOr("tool"), "tool", false);
      Refresh(SetTool(ui1, e.id, CompleteTool(env, TheTool(ui1, e.id), e)))
  }

  function FailTool(t: Tool, e: ClientEvent): Tool
    requires e.ToolFailed?
  {
    PushLog(ClearStop(t.(
      name := e.newName.UnwrapOr(t.name), summary := "工具失败", status := Failed,
      rawOutput := CapOptional(e.rawOutput, MAX_TOOL_RAW_OUTPUT_CHARS),
      terminalOutput := CapOptional(e.terminalOutput, MAX_TOOL_RAW_OUTPUT_CHARS), error := Some(e.reason))),
      "错误", e.reason)
  }

  function OnToolFailed(ui: Ui, e: ClientEvent): Ui
    requires e.ToolFailed?
  {
    if FinishedAlready(ui, e.id) then ui
    else
      var ui1 := EnsureTool(ui, e.id, None, e.newName.UnwrapOr("tool"), "tool", false);
      Refresh(SetTool(ui1, e.id, FailTool(TheTool(ui1, e.id), e)))
  }

  function ReportProgress(t: Tool, content: string): Tool {
    PushLog(t.(summary := content, status := Running, error := None), "Progress", content)
  }

  function StopTool(t: Tool, outcome: string): Tool {
    PushLog(ClearStop(t.(status := ToolInterrupted, summary := outcome, error := Some(outcome))).(stopStatus := Some("stopped")),
            "已停止", outcome)
  }

  function OnPermissionRequest(ui: Ui, e: ClientEvent): Ui
    requires e.ToolPermissionRequest?
  {
    var i := FindTool(ui.tools, e.id);
    var isExecution := i < |ui.tools| && ui.tools[i].kind != "permission";
    var ui1 := EnsureTool(ui, e.id, None, e.name, "permission", false);
    SetTool(ui1, e.id, RequestPermission(TheTool(ui1, e.id), isExecution, e)).(sessionStatus := WaitingForTool)
  }

  function OnToolProgress(ui: Ui, id: string, content: string): Ui {
    var ui1 := EnsureTool(ui, id, None, "tool", "tool", false);
    SetTool(ui1, id, ReportProgress(TheTool(ui1, id), content)).(sessionStatus := WaitingForTool)
  }

  function OnPermissionResolved(ui: Ui, id: string, outcome: string): Ui {
    if FindTool(ui.tools, id) == |ui.tools| then ui
    else Refresh(SetTool(ui, id, ResolvePermission(TheTool(ui, id), NormalizeOutcome(outcome))))
  }

  function OfferStop(t: Tool, canStop: bool, stopKind: Option<string>): Tool {
    t.(canStop := canStop, stopKind := stopKind, stopStatus := if canStop then None else t.stopStatus)
  }

  function OnStopAvailability(ui: Ui, id: string, canStop: bool, stopKind: Option<string>): Ui {
    if FindTool(ui.tools, id) == |ui.tools| then ui
    else SetTool(ui, id, OfferStop(TheTool(ui, id), canStop, stopKind))
  }

  function OnToolStopped(ui: Ui, id: string, outcome: string): Ui {
    if FindTool(ui.tools, id) == |ui.tools| then ui
    else Refresh(SetTool(ui, id, StopTool(TheTool(ui, id), outcome)))
  }

  function OnTurnFinished(ui: Ui, stopReason: string): Ui {
    ui.(tools := MapTools(ui.tools, t => FinishOpen(t, stopReason)),
        thinkingStatus := None, thinkingText := "", sessionStatus := Idle)
  }

  function OnInterrupted(ui: Ui, reason: string): Ui {
    ui.(tools := MapTools(ui.tools, t => InterruptOpen(t, reason)),
        thinkingText := "", sessionStatus := SessionInterrupted)
  }

  function OnEdit(ui: Ui, id: string, path: string): Ui {
    var ui1 := EnsureTool(ui, id, None, "Edit", "edit", false);
    SetTool(ui1, id, Editing(TheTool(ui1, id), path)).(sessionStatus := WaitingForTool)
  }

  function OnMessageChunk(ui: Ui, role: MessageRole, content: string): Ui {
    if role.System? && IsInternalMetadata(content) then ui
    else
      var ui1 := if !role.Assistant? then ui
                 else ui.(thinkingStatus := if ui.thinkingStatus == Some(Active) then Some(Completed) else ui.thinkingStatus,
                          sessionStatus := Streaming);
      PushMessage(ui1, role, content)
  }

  function OnThinking(ui: Ui, active: bool): Ui {
    if !active then ui.(thinkingStatus := Some(Completed))
    else
      (if ui.thinkingStatus == Some(Active) then ui
       else ui.(thinkingText := "", timeline := ui.timeline + [Thinking])).(thinkingStatus := Some(Active))
  }

  function LastLabel(labels: seq<string>, model: string): string {
    if labels == [] then model else labels[|labels| - 1]
  }

  predicate IsToolEvent(e: ClientEvent) {
    e.ToolMessageChunk? || e.ToolStarted? || e.ToolUpdated? || e.ToolProgress? || e.ToolCompleted? || e.ToolFailed?
    || e.ToolDiff? || e.ToolDiffPreview? || e.ToolPermissionRequest? || e.ToolPermissionResolved?
    || e.ToolStopAvailability? || e.ToolStopped?
  }

  function Apply(env: Env, ui: Ui, e: ClientEvent): Ui {
    match e
    case SessionStarted(_) => ui
    case MessageChunk(role, content) => OnMessageChunk(ui, role, content)
    case ContextCompactionStarted(message) => PushCompactionNotice(ui, CompactionStartedNotice(message))
    case ContextCompacted(message) => ReplaceCompactionNotice(ui, CompactedNotice(message))
    case ToolMessageChunk(_, _) => OnToolChunk(ui, e)
    case ToolStarted(_, _, _, _, _, _, _) => OnToolStarted(env, ui, e)
    case ToolUpdated(_, _, _, _, _, _, _, _, _, _) => OnToolUpdated(env, ui, e)
    case ToolProgress(id, content) => OnToolProgress(ui, id, content)
    case ToolCompleted(_, _, _, _, _) => OnToolCompleted(env, ui, e)
    case ToolFailed(_, _, _, _, _) => OnToolFailed(ui, e)
    case ToolDiff(id, path, _) => if StartsWith(id, "fs_write:") then ui else OnEdit(ui, id, path)
    case ToolDiffPreview(id, path, _) => OnEdit(ui, id, path)
    case ToolPermissionRequest(_, _, _, _, _) => OnPermissionRequest(ui, e)
    case ToolPermissionResolved(id, outcome) => OnPermissionResolved(ui, id, outcome)
    case ToolStopAvailability(id, canStop, stopKind) => OnStopAvailability(ui, id, canStop, stopKind)
    case ToolStopped(id, outcome) => OnToolStopped(ui, id, outcome)
    case SessionConfigUpdated(labels, _) => ui.(sessionModel := LastLabel(labels, ui.sessionModel))
    case PromptCapabilitiesUpdated(_) => ui
    case AvailableCommandsUpdated(_) => ui
    case SessionTitleUpdated(title) => ui.(title := title)
    case SessionConfigValueChanged(labels, _) => ui.(sessionModel := LastLabel(labels, ui.sessionModel))
    case PlanUpdated(_) => ui
    case ThinkingActivity(active) => OnThinking(ui, active)
    case ThinkingChunk(text) => ui.(thinkingText := ui.thinkingText + text)
    case UsageUpdated(usage) => ui.(usage := Record(ui.usage, Enrich(ui, usage)))
    case TurnFinished(stopReason) => OnTurnFinished(ui, stopReason)
    case Interrupted(reason) => OnInterrupted(ui, reason)
  }

  function ApplyAll(env: Env, ui: Ui, es: seq<ClientEvent>): Ui {
    if es == [] then ui else Apply(env, ApplyAll(env, ui, es[..|es| - 1]), es[|es| - 1])
  }
}
