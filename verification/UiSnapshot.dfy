/**
 The session view as the source has it: one mutable snapshot that `ApplyEvent` updates in place.
 Every method is proved to do to the snapshot what its function in `Reducer` does to a value.
 */
module UiSnapshots {
  import opened Options
  import opened Events
  import opened Text
  import opened Reducer
  import opened Usage
  import BoundedTail

  class UiSnapshot {
    const env: Env
    var nextId: nat
    var sessionStatus: SessionStatus
    var sessionModel: string
    var sessionCli: Option<string>
    var title: string
    var thinkingStatus: Option<ThinkingStatus>
    var thinkingText: string
    var messages: seq<ChatMessage>
    var timeline: seq<TimelineItem>
    var tools: seq<Tool>
    var usage: Ledger

    constructor (env: Env, ui: Ui)
      ensures this.env == env && View() == ui
    {
      this.env := env;
      nextId, sessionStatus, sessionModel, sessionCli, title := ui.nextId, ui.sessionStatus, ui.sessionModel, ui.sessionCli, ui.title;
      thinkingStatus, thinkingText := ui.thinkingStatus, ui.thinkingText;
      messages, timeline, tools, usage := ui.messages, ui.timeline, ui.tools, ui.usage;
    }

    ghost function View(): Ui
      reads this
    {
      Ui(nextId, sessionStatus, sessionModel, sessionCli, title, thinkingStatus, thinkingText, messages, timeline, tools, usage)
    }

    // ---- Tools ----

    method Position(callId: string) returns (i: nat)
      ensures i == FindTool(tools, callId)
    {
      i := 0;
      while i < |tools| && tools[i].callId != callId
        invariant i <= |tools|
        invariant forall j :: 0 <= j < i ==> tools[j].callId != callId
      {
        i := i + 1;
      }
      FirstIndex(tools, callId, i);
    }

    lemma FirstIndex(tools: seq<Tool>, callId: string, i: nat)
      requires i <= |tools| && (i < |tools| ==> tools[i].callId == callId)
      requires forall j :: 0 <= j < i ==> tools[j].callId != callId
      ensures FindTool(tools, callId) == i
    {}

    method PushToolLog(i: nat, title: string, text: string)
      requires i < |tools|
      modifies this`tools
      ensures tools == old(tools)[i := PushLog(old(tools)[i], title, text)]
    {
      var body := CapString(text, MAX_TOOL_LOG_CHARS);
      var logs := tools[i].logs;
      if body == "" || (logs != [] && logs[|logs| - 1].body == body) {
        assert tools[i].(logs := logs) == tools[i];
        return;
      }
      logs := logs + [ToolLogEntry(title, body)];
      if |logs| > MAX_TOOL_LOGS {
        var keepFrom := |logs| - MAX_TOOL_LOGS;
        logs := logs[keepFrom..];
      }
      tools := tools[i := tools[i].(logs := logs)];
    }

    /** The index stands for the reference to the tool that the source returns. */
    method EnsureTool(callId: string, parent: Option<string>, name: string, kind: string, isSubagent: bool) returns (i: nat)
      modifies this`tools, this`timeline, this`nextId
      ensures View() == Reducer.EnsureTool(old(View()), callId, parent, name, kind, isSubagent)
      ensures i == FindTool(tools, callId) < |tools|
    {
      i := Position(callId);
      if i < |tools| {
        var tool := tools[i];
        if parent.Some? {
          tool := tool.(parentCallId := parent);
        }
        if isSubagent {
          tool := tool.(isSubagent := true);
        }
        tools := tools[i := tool];
      } else {
        tools := tools + [NewTool(nextId, callId, parent, name, kind, isSubagent)];
        timeline := timeline + [ToolItem(nextId)];
        nextId := nextId + 1;
      }
      assert tools[i].callId == callId;
      FirstIndex(tools, callId, i);
    }

    method RefreshSessionStatus()
      modifies this`sessionStatus
      ensures View() == Refresh(old(View()))
    {
      var open := false;
      for i := 0 to |tools|
        invariant open <==> exists t <- tools[..i] :: IsOpen(t)
      {
        assert tools[..i + 1] == tools[..i] + [tools[i]];
        open := open || IsOpen(tools[i]);
      }
      assert tools[..|tools|] == tools;
      sessionStatus := if open then WaitingForTool else Streaming;
    }

    method FinalizeRunningChildren(parent: string, except: Option<string>)
      modifies this`tools
      ensures View() == FinishChildren(old(View()), parent, except)
    {
      for i := 0 to |tools|
        invariant |tools| == |old(tools)|
        invariant forall j :: 0 <= j < i ==> tools[j] == FinishChild(old(tools)[j], parent, except)
        invariant forall j :: i <= j < |tools| ==> tools[j] == old(tools)[j]
      {
        var tool := tools[i];
        if tool.parentCallId == Some(parent) && IsOpen(tool) && except != Some(tool.callId) {
          tool := ClearStop(tool.(status := Succeeded));
          if IsBlank(tool.summary) || tool.summary == "等待活动" {
            tool := tool.(summary := "已完成");
          }
          tools := tools[i := tool];
          PushToolLog(i, "已完成", "根据后续父活动推断");
        }
      }
      assert tools == MapTools(old(tools), t => FinishChild(t, parent, except));
    }

    method FinalizeOpenTools(stopReason: string)
      modifies this`tools
      ensures tools == MapTools(old(tools), t => FinishOpen(t, stopReason))
    {
      for i := 0 to |tools|
        invariant |tools| == |old(tools)|
        invariant forall j :: 0 <= j < i ==> tools[j] == FinishOpen(old(tools)[j], stopReason)
        invariant forall j :: i <= j < |tools| ==> tools[j] == old(tools)[j]
      {
        FinalizeOpenTool(i, stopReason);
      }
    }

    method FinalizeOpenTool(i: nat, stopReason: string)
      requires i < |tools|
      modifies this`tools
      ensures tools == old(tools)[i := FinishOpen(old(tools)[i], stopReason)]
    {
      var normalFinish, cancelled := stopReason == "end_turn", stopReason == "cancelled";
      var tool := tools[i];
      if !IsOpen(tool) {
        return;
      }
      if tool.error.Some? {
        tools := tools[i := ClearStop(tool.(status := Failed))];
        return;
      }
      tool := ClearStop(tool.(status := if normalFinish then Succeeded else ToolInterrupted));
      if IsBlank(tool.summary) || tool.summary == "等待活动" || StartsWith(tool.summary, "等待权限") {
        tool := tool.(summary := if cancelled then "已取消" else if normalFinish then "已完成" else "异常结束：" + stopReason);
      }
      var decision := if cancelled then "已取消" else if normalFinish then "已完成" else "已中断";
      if tool.kind == "permission" {
        tool := tool.(permissionOptions := []);
        if tool.permissionDecision.None? {
          tool := tool.(permissionDecision := Some(decision));
        }
      }
      if !normalFinish {
        tool := tool.(error := Some("轮次异常结束：" + stopReason));
      }
      tools := tools[i := tool];
      PushToolLog(i, decision, "轮次结束：" + stopReason);
    }

    method InterruptOpenTools(reason: string)
      modifies this`tools
      ensures tools == MapTools(old(tools), t => InterruptOpen(t, reason))
    {
      for i := 0 to |tools|
        invariant |tools| == |old(tools)|
        invariant forall j :: 0 <= j < i ==> tools[j] == InterruptOpen(old(tools)[j], reason)
        invariant forall j :: i <= j < |tools| ==> tools[j] == old(tools)[j]
      {
        if IsOpen(tools[i]) {
          tools := tools[i := ClearStop(tools[i].(status := ToolInterrupted, summary := reason, error := Some(reason)))];
          PushToolLog(i, "已中断", reason);
        }
      }
    }

    // ---- Messages ----

    method PushStandaloneMessage(role: MessageRole, content: string)
      modifies this`messages, this`timeline, this`nextId
      ensures View() == PushStandalone(old(View()), role, content)
    {
      var body := NewMessageContent(role, content);
      if body.None? {
        return;
      }
      timeline := timeline + [MessageItem(nextId)];
      messages := messages + [ChatMessage(nextId, role, body.value)];
      nextId := nextId + 1;
    }

    method LastMessageIndex() returns (last: Option<nat>)
      ensures last == LastMessage(View())
    {
      if timeline == [] || !timeline[|timeline| - 1].MessageItem? {
        return None;
      }
      var id, i := timeline[|timeline| - 1].id, 0;
      while i < |messages| && messages[i].id != id
        invariant i <= |messages|
        invariant forall j :: 0 <= j < i ==> messages[j].id != id
      {
        i := i + 1;
      }
      FirstMessage(messages, id, i);
      last := if i < |messages| then Some(i) else None;
    }

    lemma FirstMessage(messages: seq<ChatMessage>, id: nat, i: nat)
      requires i <= |messages| && (i < |messages| ==> messages[i].id == id)
      requires forall j :: 0 <= j < i ==> messages[j].id != id
      ensures FindMessage(messages, id) == i
    {}

    method PushMessage(role: MessageRole, content: string)
      modifies this`messages, this`timeline, this`nextId
      ensures View() == Reducer.PushMessage(old(View()), role, content)
    {
      var last := LastMessageIndex();
      if last.Some? && messages[last.value].role == role && !role.User? {
        var m := messages[last.value];
        messages := messages[last.value := m.(body := m.body + content)];
        return;
      }
      PushStandaloneMessage(role, content);
    }

    method PushOrReplaceCompactionNotice(content: string)
      modifies this`messages, this`timeline, this`nextId
      ensures View() == ReplaceCompactionNotice(old(View()), content)
    {
      var last := LastMessageIndex();
      if last.Some? && messages[last.value].role.System? && IsCompactionNotice(messages[last.value].body) {
        messages := messages[last.value := messages[last.value].(body := content)];
        return;
      }
      PushStandaloneMessage(System, content);
    }

    method PushCompactionNotice(content: string)
      modifies this`messages, this`timeline, this`nextId
      ensures View() == Reducer.PushCompactionNotice(old(View()), content)
    {
      if messages != [] && messages[|messages| - 1].role.System? && IsCompactionNotice(messages[|messages| - 1].body) {
        return;
      }
      PushStandaloneMessage(System, content);
    }

    // ---- Usage ----

    method ApplyUsageUpdate(event: UsageEvent)
      modifies this`usage
      ensures View() == old(View()).(usage := Record(old(usage), Enrich(old(View()), event)))
    {
      var e := event;
      if e.model.None? && !IsBlank(sessionModel) {
        e := e.(model := Some(sessionModel));
      }
      if e.agentCli.None? {
        e := e.(agentCli := sessionCli);
      }
      match e.scope {
        case TurnDelta =>
          usage := usage.(currentTurn := e.tokens);
          if !usage.hasSessionTotal && HasTokens(e.tokens) {
            usage := usage.(sessionTotal := AddTokens(usage.sessionTotal, e.tokens));
          }
        case SessionTotal =>
          if HasTokens(e.tokens) {
            usage := usage.(sessionTotal := e.tokens, hasSessionTotal := true);
          }
        case ContextSnapshot =>
      }
      UpdateUsageModelSummary(e);
    }

    method UpdateUsageModelSummary(e: UsageEvent)
      modifies this`usage
      ensures usage == old(usage).(byModel := UpdateRows(old(usage).byModel, e))
    {
      var rows, i := usage.byModel, 0;
      while i < |rows| && rows[i].key != KeyOf(e)
        invariant i <= |rows|
        invariant forall j :: 0 <= j < i ==> rows[j].key != KeyOf(e)
      {
        i := i + 1;
      }
      FirstRow(rows, KeyOf(e), i);
      if i == |rows| {
        rows := rows + [NewRow(e)];
      }
      var row := rows[i];
      row := row.(eventCount := row.eventCount + 1);
      if e.scope.TurnDelta? {
        row := row.(requestCount := row.requestCount + 1);
      }
      if e.contextUsed.Some? {
        row := row.(contextPeak := Some(Max(row.contextPeak.UnwrapOr(0), e.contextUsed.value)));
      }
      match e.scope {
        case TurnDelta =>
          if !row.hasSessionTotal {
            row := row.(tokens := AddTokens(row.tokens, e.tokens));
          }
        case SessionTotal =>
          if HasTokens(e.tokens) {
            row := row.(tokens := e.tokens, hasSessionTotal := true);
          }
        case ContextSnapshot =>
      }
      assert row == UpdateRow(rows[i], e);
      usage := usage.(byModel := rows[i := row]);
    }

    lemma FirstRow(rows: seq<Row>, key: Key, i: nat)
      requires i <= |rows| && (i < |rows| ==> rows[i].key == key)
      requires forall j :: 0 <= j < i ==> rows[j].key != key
      ensures FindRow(rows, key) == i
    {}

    // ---- Events ----

    method FinalizeChildrenOf(parent: Option<string>, except: string)
      modifies this`tools
      ensures View() == FinishChildrenOf(old(View()), parent, except)
    {
      if parent.Some? {
        FinalizeRunningChildren(parent.value, Some(except));
      }
    }

    method ToolIsFinished(callId: string) returns (finished: bool)
      ensures finished == FinishedAlready(View(), callId)
    {
      var i := Position(callId);
      finished := i < |tools| && IsFinished(tools[i]);
    }

    method StreamInto(i: nat, content: string)
      requires i < |tools|
      modifies this`tools
      ensures tools == old(tools)[i := StreamChunk(old(tools)[i], content)]
    {
      var tool := tools[i];
      tool := tool.(status := Running);
      tool := tool.(detailText := tool.detailText + content);
      tool := tool.(detailText := CapTail(tool.detailText, BoundedTail.MAX_TOOL_DETAIL_CHARS));
      tools := tools[i := tool];
      if tool.detailText == "" || tool.detailText[|tool.detailText| - 1] != '\n' {
        PushToolLog(i, "Agent", CollapseWhitespace(content));
      }
    }

    method OnToolMessageChunk(e: ClientEvent)
      requires e.ToolMessageChunk?
      modifies this
      ensures View() == OnToolChunk(old(View()), e)
    {
      hide StreamChunk, FinishChildren, Reducer.EnsureTool;
      FinalizeRunningChildren(e.id, None);
      var i := EnsureTool(e.id, None, "tool", "tool", false);
      StreamInto(i, e.content);
      sessionStatus := WaitingForTool;
    }

    method StartToolAt(i: nat, e: ClientEvent, displaySummary: string)
      requires i < |tools| && e.ToolStarted? && displaySummary == env.displaySummary(e.summary)
      modifies this`tools
      ensures tools == old(tools)[i := StartTool(env, old(tools)[i], e)]
    {
      var tool := tools[i];
      tool := tool.(name := e.name, kind := e.kind, summary := displaySummary, status := Running, isSubagent := e.isSubagent);
      tool := tool.(rawInput := CapInput(env, e.rawInput), rawOutput := None, terminalOutput := None, error := None);
      tools := tools[i := ClearStop(tool)];
      PushToolLog(i, "Requested", displaySummary);
    }

    method OnToolStarted(e: ClientEvent)
      requires e.ToolStarted?
      modifies this
      ensures View() == Reducer.OnToolStarted(env, old(View()), e)
    {
      hide StartTool, FinishChildrenOf, Reducer.EnsureTool;
      var finished := ToolIsFinished(e.id);
      if finished {
        return;
      }
      FinalizeChildrenOf(e.parentId, e.id);
      var displaySummary := env.displaySummary(e.summary);
      var i := EnsureTool(e.id, e.parentId, e.name, e.kind, e.isSubagent);
      StartToolAt(i, e, displaySummary);
      sessionStatus := WaitingForTool;
    }

    method UpdateLabelsAt(i: nat, e: ClientEvent)
      requires i < |tools| && e.ToolUpdated?
      modifies this`tools
      ensures tools == old(tools)[i := UpdateLabels(env, old(tools)[i], e)]
    {
      hide PushEntry;
      var tool := tools[i];
      if e.newName.Some? { tool := tool.(name := e.newName.value); }
      if e.newKind.Some? { tool := tool.(kind := e.newKind.value); }
      if e.isSubagent { tool := tool.(isSubagent := true); }
      if e.newSummary.Some? {
        var summary := env.displaySummary(e.newSummary.value);
        tools := tools[i := tool.(summary := summary)];
        if !e.isPartial {
          PushToolLog(i, "Update", summary);
        }
      } else {
        tools := tools[i := tool];
      }
    }

    method UpdateToolAt(i: nat, e: ClientEvent)
      requires i < |tools| && e.ToolUpdated?
      modifies this`tools
      ensures tools == old(tools)[i := UpdateFields(env, old(tools)[i], e)]
    {
      hide UpdateLabels, CapOptional;
      UpdateLabelsAt(i, e);
      var tool := tools[i];
      if e.rawInput.Some? { tool := tool.(rawInput := CapInput(env, e.rawInput)); }
      if e.rawOutput.Some? { tool := tool.(rawOutput := CapOptional(e.rawOutput, MAX_TOOL_RAW_OUTPUT_CHARS)); }
      if e.terminalOutput.Some? { tool := tool.(terminalOutput := CapOptional(e.terminalOutput, MAX_TOOL_RAW_OUTPUT_CHARS)); }
      assert tool == UpdatePayload(env, tools[i], e);
      if !e.isPartial && !IsFinished(tool) {
        tool := tool.(status := Running);
      }
      tools := tools[i := tool];
    }

    method OnToolUpdated(e: ClientEvent)
      requires e.ToolUpdated?
      modifies this
      ensures View() == Reducer.OnToolUpdated(env, old(View()), e)
    {
      hide UpdateFields, FinishChildrenOf, Reducer.EnsureTool;
      FinalizeChildrenOf(e.parentId, e.id);
      var i := EnsureTool(e.id, e.parentId, "tool", "tool", e.isSubagent);
      UpdateToolAt(i, e);
      if !e.isPartial {
        sessionStatus := WaitingForTool;
      }
    }

    method OnToolProgress(id: string, content: string)
      modifies this
      ensures View() == Reducer.OnToolProgress(old(View()), id, content)
    {
      hide PushEntry, Reducer.EnsureTool;
      var i := EnsureTool(id, None, "tool", "tool", false);
      tools := tools[i := tools[i].(summary := content, status := Running, error := None)];
      PushToolLog(i, "Progress", content);
      sessionStatus := WaitingForTool;
    }

    method CompleteToolAt(i: nat, e: ClientEvent, displaySummary: string)
      requires i < |tools| && e.ToolCompleted? && displaySummary == env.displaySummary(SummarizeCompletion(e.outcome))
      modifies this`tools
      ensures tools == old(tools)[i := CompleteTool(env, old(tools)[i], e)]
    {
      var tool := tools[i];
      if e.newName.Some? { tool := tool.(name := e.newName.value); }
      tool := tool.(summary := displaySummary, status := Succeeded,
                    rawOutput := CapOptional(e.rawOutput, MAX_TOOL_RAW_OUTPUT_CHARS),
                    terminalOutput := CapOptional(e.terminalOutput, MAX_TOOL_RAW_OUTPUT_CHARS), error := None);
      tools := tools[i := ClearStop(tool)];
      PushToolLog(i, "已完成", e.outcome);
    }

    method OnToolCompleted(e: ClientEvent)
      requires e.ToolCompleted?
      modifies this
      ensures View() == Reducer.OnToolCompleted(env, old(View()), e)
    {
      hide CompleteTool, Reducer.EnsureTool, Refresh;
      var finished := ToolIsFinished(e.id);
      if finished {
        return;
      }
      var displaySummary := env.displaySummary(SummarizeCompletion(e.outcome));
      var i := EnsureTool(e.id, None, e.newName.UnwrapOr("tool"), "tool", false);
      CompleteToolAt(i, e, displaySummary);
      RefreshSessionStatus();
    }

    method FailToolAt(i: nat, e: ClientEvent)
      requires i < |tools| && e.ToolFailed?
      modifies this`tools
      ensures tools == old(tools)[i := FailTool(old(tools)[i], e)]
    {
      var tool := tools[i];
      if e.newName.Some? { tool := tool.(name := e.newName.value); }
      tool := tool.(summary := "工具失败", status := Failed,
                    rawOutput := CapOptional(e.rawOutput, MAX_TOOL_RAW_OUTPUT_CHARS),
                    terminalOutput := CapOptional(e.terminalOutput, MAX_TOOL_RAW_OUTPUT_CHARS), error := Some(e.reason));
      tools := tools[i := ClearStop(tool)];
      PushToolLog(i, "错误", e.reason);
    }

    method OnToolFailed(e: ClientEvent)
      requires e.ToolFailed?
      modifies this
      ensures View() == Reducer.OnToolFailed(old(View()), e)
    {
      hide FailTool, Reducer.EnsureTool, Refresh;
      var finished := ToolIsFinished(e.id);
      if finished {
        return;
      }
      var i := EnsureTool(e.id, None, e.newName.UnwrapOr("tool"), "tool", false);
      FailToolAt(i, e);
      RefreshSessionStatus();
    }

    method RequestPermissionAt(i: nat, isExistingExecutionTool: bool, e: ClientEvent)
      requires i < |tools| && e.ToolPermissionRequest?
      modifies this`tools
      ensures tools == old(tools)[i := RequestPermission(old(tools)[i], isExistingExecutionTool, e)]
    {
      hide PushEntry, IsBlank;
      var summary := if e.options == [] then "等待权限" else "等待权限 | " + JoinLabels(e.options);
      var tool := tools[i];
      if !isExistingExecutionTool {
        tool := tool.(name := e.name, kind := "permission");
      }
      tool := tool.(summary := summary, status := Running, error := None, permissionOptions := e.options,
                    permissionInput := e.request, permissionDecision := None, canStop := false, stopKind := None, stopStatus := None);
      if e.details.Some? && !IsBlank(e.details.value) {
        tool := tool.(detailText := e.details.value);
        if !isExistingExecutionTool || tool.rawInput.None? {
          tool := tool.(rawInput := e.details);
        }
        tools := tools[i := tool];
        PushToolLog(i, "Plan", CollapseWhitespace(e.details.value));
      } else {
        tools := tools[i := tool];
      }
      PushToolLog(i, "Permission", summary);
    }

    method OnPermissionRequest(e: ClientEvent)
      requires e.ToolPermissionRequest?
      modifies this
      ensures View() == Reducer.OnPermissionRequest(old(View()), e)
    {
      hide RequestPermission, Reducer.EnsureTool;
      var k := Position(e.id);
      var isExistingExecutionTool := k < |tools| && tools[k].kind != "permission";
      var i := EnsureTool(e.id, None, e.name, "permission", false);
      RequestPermissionAt(i, isExistingExecutionTool, e);
      sessionStatus := WaitingForTool;
    }

    method OnPermissionResolved(id: string, rawOutcome: string)
      modifies this
      ensures View() == Reducer.OnPermissionResolved(old(View()), id, rawOutcome)
    {
      hide ResolvePermission, Refresh, NormalizeOutcome;
      var outcome := NormalizeOutcome(rawOutcome);
      var i := Position(id);
      if i == |tools| {
        return;
      }
      ResolveTool(i, outcome);
      RefreshSessionStatus();
    }

    method ResolveTool(i: nat, outcome: string)
      requires i < |tools|
      modifies this`tools
      ensures tools == old(tools)[i := ResolvePermission(old(tools)[i], outcome)]
    {
      var tool := tools[i];
      if KeepsLocalReject(tool.permissionDecision, outcome) {
        PushToolLog(i, "Decision", outcome);
        return;
      }
      if tool.stopStatus == Some("stopped") {
        tools := tools[i := tool.(permissionOptions := [], permissionInput := None, permissionDecision := Some(outcome))];
        PushToolLog(i, "Decision", outcome);
        return;
      }
      var isExecutionTool := tool.kind != "permission";
      var allows, control := AllowsExecution(outcome), IsControlSuccess(outcome);
      if isExecutionTool && allows {
        tool := tool.(summary := "权限已通过，等待工具执行");
        if !IsFinished(tool) {
          tool := tool.(status := Running);
        }
      } else if isExecutionTool && control {
        tool := tool.(summary := outcome, status := Succeeded, error := None);
      } else if isExecutionTool {
        tool := tool.(summary := outcome, status := ToolInterrupted, error := Some(outcome));
      } else {
        tool := tool.(summary := outcome, status := Succeeded);
      }
      tool := ClearStop(tool.(permissionOptions := [], permissionInput := None, permissionDecision := Some(outcome)));
      if !isExecutionTool || allows || control {
        tool := tool.(error := None);
      }
      tools := tools[i := tool];
      PushToolLog(i, "Decision", outcome);
    }

    method OnStopAvailability(id: string, canStop: bool, stopKind: Option<string>)
      modifies this
      ensures View() == Reducer.OnStopAvailability(old(View()), id, canStop, stopKind)
    {
      var i := Position(id);
      if i < |tools| {
        var tool := tools[i].(canStop := canStop, stopKind := stopKind);
        if canStop {
          tool := tool.(stopStatus := None);
        }
        tools := tools[i := tool];
      }
    }

    method StopToolAt(i: nat, outcome: string)
      requires i < |tools|
      modifies this`tools
      ensures tools == old(tools)[i := StopTool(old(tools)[i], outcome)]
    {
      hide PushEntry;
      var tool := ClearStop(tools[i].(status := ToolInterrupted, summary := outcome, error := Some(outcome)));
      tools := tools[i := tool.(stopStatus := Some("stopped"))];
      PushToolLog(i, "已停止", outcome);
    }

    method OnToolStopped(id: string, outcome: string)
      modifies this
      ensures View() == Reducer.OnToolStopped(old(View()), id, outcome)
    {
      hide StopTool, Refresh;
      var i := Position(id);
      if i == |tools| {
        return;
      }
      StopToolAt(i, outcome);
      RefreshSessionStatus();
    }

    method EditAt(i: nat, path: string)
      requires i < |tools|
      modifies this`tools
      ensures tools == old(tools)[i := Editing(old(tools)[i], path)]
    {
      hide PushEntry;
      var tool := tools[i].(summary := "正在编辑 " + path);
      if !IsFinished(tool) {
        tool := tool.(status := Running);
      }
      tools := tools[i := tool.(error := None)];
      PushToolLog(i, "编辑", path);
    }

    method OnEdit(id: string, path: string)
      modifies this
      ensures View() == Reducer.OnEdit(old(View()), id, path)
    {
      hide Editing, Reducer.EnsureTool;
      var i := EnsureTool(id, None, "Edit", "edit", false);
      EditAt(i, path);
      sessionStatus := WaitingForTool;
    }

    method OnMessageChunk(role: MessageRole, content: string)
      modifies this
      ensures View() == Reducer.OnMessageChunk(old(View()), role, content)
    {
      if role.System? && IsInternalMetadata(content) {
        return;
      }
      if role.Assistant? {
        if thinkingStatus == Some(Active) {
          thinkingStatus := Some(Completed);
        }
        sessionStatus := Streaming;
      }
      PushMessage(role, content);
    }

    method OnThinkingActivity(active: bool)
      modifies this
      ensures View() == OnThinking(old(View()), active)
    {
      if active {
        if thinkingStatus != Some(Active) {
          thinkingText := "";
          timeline := timeline + [Thinking];
        }
        thinkingStatus := Some(Active);
      } else {
        thinkingStatus := Some(Completed);
      }
    }

    method OnModelLabels(labels: seq<string>)
      modifies this`sessionModel
      ensures sessionModel == LastLabel(labels, old(sessionModel))
    {
      for i := 0 to |labels|
        invariant sessionModel == LastLabel(labels[..i], old(sessionModel))
      {
        sessionModel := labels[i];
      }
      assert labels[..|labels|] == labels;
    }

    method OnTurnFinished(stopReason: string)
      modifies this
      ensures View() == Reducer.OnTurnFinished(old(View()), stopReason)
    {
      hide FinishOpen;
      FinalizeOpenTools(stopReason);
      thinkingStatus, thinkingText := None, "";
      sessionStatus := Idle;
    }

    method OnInterrupted(reason: string)
      modifies this
      ensures View() == Reducer.OnInterrupted(old(View()), reason)
    {
      hide InterruptOpen;
      thinkingText := "";
      sessionStatus := SessionInterrupted;
      InterruptOpenTools(reason);
    }

    method ApplyToolActivity(e: ClientEvent)
      requires e.ToolMessageChunk? || e.ToolStarted? || e.ToolUpdated? || e.ToolProgress? || e.ToolCompleted? || e.ToolFailed?
      modifies this
      ensures View() == Apply(env, old(View()), e)
    {
      hide OnToolChunk, Reducer.OnToolStarted, Reducer.OnToolUpdated, Reducer.OnToolProgress, Reducer.OnToolCompleted,
        Reducer.OnToolFailed, Reducer.OnPermissionRequest, Reducer.OnPermissionResolved, Reducer.OnStopAvailability,
        Reducer.OnToolStopped, Reducer.OnEdit, StartsWith, Reducer.OnMessageChunk, Reducer.PushCompactionNotice,
        ReplaceCompactionNotice, OnThinking, CompactionStartedNotice, CompactedNotice, Reducer.OnTurnFinished,
        Reducer.OnInterrupted, Record, Enrich;
      match e {
        case ToolMessageChunk(_, _) => OnToolMessageChunk(e);
        case ToolStarted(_, _, _, _, _, _, _) => OnToolStarted(e);
        case ToolUpdated(_, _, _, _, _, _, _, _, _, _) => OnToolUpdated(e);
        case ToolProgress(id, content) => OnToolProgress(id, content);
        case ToolCompleted(_, _, _, _, _) => OnToolCompleted(e);
        case ToolFailed(_, _, _, _, _) => OnToolFailed(e);
      }
    }

    method ApplyToolControl(e: ClientEvent)
      requires e.ToolDiff? || e.ToolDiffPreview? || e.ToolPermissionRequest? || e.ToolPermissionResolved?
               || e.ToolStopAvailability? || e.ToolStopped?
      modifies this
      ensures View() == Apply(env, old(View()), e)
    {
      hide OnToolChunk, Reducer.OnToolStarted, Reducer.OnToolUpdated, Reducer.OnToolProgress, Reducer.OnToolCompleted,
        Reducer.OnToolFailed, Reducer.OnPermissionRequest, Reducer.OnPermissionResolved, Reducer.OnStopAvailability,
        Reducer.OnToolStopped, Reducer.OnEdit, StartsWith, Reducer.OnMessageChunk, Reducer.PushCompactionNotice,
        ReplaceCompactionNotice, OnThinking, CompactionStartedNotice, CompactedNotice, Reducer.OnTurnFinished,
        Reducer.OnInterrupted, Record, Enrich;
      match e {
        case ToolPermissionRequest(_, _, _, _, _) => OnPermissionRequest(e);
        case ToolPermissionResolved(id, outcome) => OnPermissionResolved(id, outcome);
        case ToolStopAvailability(id, canStop, stopKind) => OnStopAvailability(id, canStop, stopKind);
        case ToolStopped(id, outcome) => OnToolStopped(id, outcome);
        case ToolDiff(id, path, _) =>
          if !StartsWith(id, "fs_write:") {
            OnEdit(id, path);
          }
        case ToolDiffPreview(id, path, _) => OnEdit(id, path);
      }
    }

    method ApplyConversation(e: ClientEvent)
      requires e.MessageChunk? || e.ContextCompactionStarted? || e.ContextCompacted? || e.ThinkingActivity? || e.ThinkingChunk?
      modifies this
      ensures View() == Apply(env, old(View()), e)
    {
      hide OnToolChunk, Reducer.OnToolStarted, Reducer.OnToolUpdated, Reducer.OnToolProgress, Reducer.OnToolCompleted,
        Reducer.OnToolFailed, Reducer.OnPermissionRequest, Reducer.OnPermissionResolved, Reducer.OnStopAvailability,
        Reducer.OnToolStopped, Reducer.OnEdit, StartsWith, Reducer.OnMessageChunk, Reducer.PushCompactionNotice,
        ReplaceCompactionNotice, OnThinking, CompactionStartedNotice, CompactedNotice, Reducer.OnTurnFinished,
        Reducer.OnInterrupted, Record, Enrich;
      match e {
        case ThinkingActivity(active) => OnThinkingActivity(active);
        case ThinkingChunk(text) => thinkingText := thinkingText + text;
        case MessageChunk(role, content) => OnMessageChunk(role, content);
        case ContextCompactionStarted(message) => PushCompactionNotice(CompactionStartedNotice(message));
        case ContextCompacted(message) => PushOrReplaceCompactionNotice(CompactedNotice(message));
      }
    }

    method ApplyTurnEvent(e: ClientEvent)
      requires e.UsageUpdated? || e.TurnFinished? || e.Interrupted?
      modifies this
      ensures View() == Apply(env, old(View()), e)
    {
      hide OnToolChunk, Reducer.OnToolStarted, Reducer.OnToolUpdated, Reducer.OnToolProgress, Reducer.OnToolCompleted,
        Reducer.OnToolFailed, Reducer.OnPermissionRequest, Reducer.OnPermissionResolved, Reducer.OnStopAvailability,
        Reducer.OnToolStopped, Reducer.OnEdit, StartsWith, Reducer.OnMessageChunk, Reducer.PushCompactionNotice,
        ReplaceCompactionNotice, OnThinking, CompactionStartedNotice, CompactedNotice, Reducer.OnTurnFinished,
        Reducer.OnInterrupted, Record, Enrich;
      match e {
        case UsageUpdated(event) => ApplyUsageUpdate(event);
        case TurnFinished(stopReason) => OnTurnFinished(stopReason);
        case Interrupted(reason) => OnInterrupted(reason);
      }
    }

    lemma SessionEventApplies(env: Env, ui: Ui, e: ClientEvent)
      ensures e.SessionStarted? || e.PromptCapabilitiesUpdated? || e.AvailableCommandsUpdated? || e.PlanUpdated? ==> Apply(env, ui, e) == ui
      ensures e.SessionTitleUpdated? ==> Apply(env, ui, e) == ui.(title := e.title)
      ensures e.SessionConfigUpdated? || e.SessionConfigValueChanged?
              ==> Apply(env, ui, e) == ui.(sessionModel := LastLabel(e.modelLabels, ui.sessionModel))
    {
    }

    method ApplySessionEvent(e: ClientEvent)
      requires e.SessionStarted? || e.SessionConfigUpdated? || e.SessionConfigValueChanged? || e.SessionTitleUpdated?
               || e.PromptCapabilitiesUpdated? || e.AvailableCommandsUpdated? || e.PlanUpdated?
      modifies this
      ensures View() == Apply(env, old(View()), e)
    {
      hide Apply;
      SessionEventApplies(env, View(), e);
      match e {
        case SessionStarted(_) =>
        case SessionConfigUpdated(labels, _) => OnModelLabels(labels);
        case PromptCapabilitiesUpdated(_) =>
        case AvailableCommandsUpdated(_) =>
        case SessionTitleUpdated(newTitle) => title := newTitle;
        case SessionConfigValueChanged(labels, _) => OnModelLabels(labels);
        case PlanUpdated(_) =>
      }
    }

    /** A batch of events, one after the other. */
    method ApplyEvents(es: seq<ClientEvent>)
      modifies this
      ensures View() == ApplyAll(env, old(View()), es)
    {
      hide Apply;
      for k := 0 to |es|
        invariant View() == ApplyAll(env, old(View()), es[..k])
      {
        assert es[..k + 1][..k] == es[..k];
        ApplyEvent(es[k]);
      }
      assert es[..|es|] == es;
    }

    /** The reducer itself; the source's one match is split over five methods. */
    method ApplyEvent(e: ClientEvent)
      modifies this
      ensures View() == Apply(env, old(View()), e)
    {
      hide Apply;
      if e.ToolMessageChunk? || e.ToolStarted? || e.ToolUpdated? || e.ToolProgress? || e.ToolCompleted? || e.ToolFailed? {
        ApplyToolActivity(e);
      } else if IsToolEvent(e) {
        ApplyToolControl(e);
      } else if e.MessageChunk? || e.ContextCompactionStarted? || e.ContextCompacted? || e.ThinkingActivity? || e.ThinkingChunk? {
        ApplyConversation(e);
      } else if e.UsageUpdated? || e.TurnFinished? || e.Interrupted? {
        ApplyTurnEvent(e);
      } else {
        ApplySessionEvent(e);
      }
    }
  }
}
