/** What an event does to the session itself: its status, its thinking, its messages and its timeline. */
module SessionView {
  import opened Options
  import opened Events
  import opened Text
  import opened Reducer
  import opened ToolLife
  import Usage

  // ---- Session status ----

  predicate SomeOpen(ui: Ui) {
    exists i :: 0 <= i < |ui.tools| && IsOpen(ui.tools[i])
  }

  /** Results, answers and stops: the session waits as long as a tool is open. */
  predicate Settles(e: ClientEvent) {
    e.ToolCompleted? || e.ToolFailed? || e.ToolPermissionResolved? || e.ToolStopped?
  }

  /** Activity of a tool makes the session wait for it. */
  predicate MakesWait(e: ClientEvent) {
    e.ToolMessageChunk? || e.ToolStarted? || (e.ToolUpdated? && !e.isPartial) || e.ToolProgress?
    || e.ToolDiff? || e.ToolDiffPreview? || e.ToolPermissionRequest?
  }

  function StatusAfter(ui: Ui, e: ClientEvent, someOpen: bool): SessionStatus {
    if IsToolEvent(e) then
      if Ignored(ui, e) then ui.sessionStatus
      else if MakesWait(e) then WaitingForTool
      else if Settles(e) then if someOpen then WaitingForTool else Streaming
      else ui.sessionStatus
    else
      match e
      case MessageChunk(role, _) => if role.Assistant? then Streaming else ui.sessionStatus
      case TurnFinished(_) => Idle
      case Interrupted(_) => SessionInterrupted
      case _ => ui.sessionStatus
  }

  lemma WaitingEvents(env: Env, ui: Ui, e: ClientEvent)
    requires MakesWait(e) && !Ignored(ui, e)
    ensures Apply(env, ui, e).sessionStatus == WaitingForTool
  {
    hide EnsureTool, FinishChildrenOf, FinishChildren, StreamChunk, StartTool, UpdateFields, ReportProgress, RequestPermission, Editing,
      StartsWith;
  }

  lemma SettlingEvents(env: Env, ui: Ui, e: ClientEvent)
    requires Settles(e) && !Ignored(ui, e)
    ensures Apply(env, ui, e).sessionStatus == if SomeOpen(Apply(env, ui, e)) then WaitingForTool else Streaming
  {
    hide EnsureTool, CompleteTool, FailTool, ResolvePermission, StopTool, NormalizeOutcome, IsOpen;
    forall ui1: Ui
      ensures Refresh(ui1).sessionStatus == if SomeOpen(Refresh(ui1)) then WaitingForTool else Streaming
    {
      RefreshLooks(ui1);
    }
  }

  lemma RefreshLooks(ui: Ui)
    ensures Refresh(ui).sessionStatus == if SomeOpen(Refresh(ui)) then WaitingForTool else Streaming
  {
    hide IsOpen;
    if exists t <- ui.tools :: IsOpen(t) {
      var t :| t in ui.tools && IsOpen(t);
      var i :| 0 <= i < |ui.tools| && ui.tools[i] == t;
      assert IsOpen(ui.tools[i]);
    }
  }

  lemma QuietToolEvents(env: Env, ui: Ui, e: ClientEvent)
    requires IsToolEvent(e) && !Ignored(ui, e) && !MakesWait(e) && !Settles(e)
    ensures Apply(env, ui, e).sessionStatus == ui.sessionStatus
  {
    hide UpdateFields, OfferStop, StartsWith;
  }

  lemma SessionEvents(env: Env, ui: Ui, e: ClientEvent)
    requires !IsToolEvent(e)
    ensures Apply(env, ui, e).sessionStatus == StatusAfter(ui, e, false)
  {
    hide NewMessageContent, LastMessage, IsCompactionNotice, IsInternalMetadata, FinishOpen, InterruptOpen, CompactedNotice,
      CompactionStartedNotice, Usage.Record, Enrich;
    LastMessageIsIndex(ui);
  }

  /** The status law, for every event and every session. */
  lemma StatusExactly(env: Env, ui: Ui, e: ClientEvent)
    ensures Apply(env, ui, e).sessionStatus == StatusAfter(ui, e, SomeOpen(Apply(env, ui, e)))
  {
    hide Apply, Ignored, SomeOpen;
    if !IsToolEvent(e) {
      SessionEvents(env, ui, e);
    } else if Ignored(ui, e) {
      IgnoredChangesNothing(env, ui, e);
    } else if MakesWait(e) {
      WaitingEvents(env, ui, e);
    } else if Settles(e) {
      SettlingEvents(env, ui, e);
    } else {
      QuietToolEvents(env, ui, e);
    }
  }

  // ---- Thinking, title and model ----

  datatype Heading = Heading(title: string, model: string, cli: Option<string>, thinking: Option<ThinkingStatus>, thoughts: string)

  function HeadingOf(ui: Ui): Heading {
    Heading(ui.title, ui.sessionModel, ui.sessionCli, ui.thinkingStatus, ui.thinkingText)
  }

  /** A spoken chunk ends the thinking; thoughts add up until a new thinking phase or the end of the turn. */
  function NextHeading(h: Heading, e: ClientEvent): Heading {
    match e
    case MessageChunk(role, _) =>
      if role.Assistant? && h.thinking == Some(Active) then h.(thinking := Some(Completed)) else h
    case ThinkingActivity(active) =>
      if !active then h.(thinking := Some(Completed))
      else h.(thinking := Some(Active), thoughts := if h.thinking == Some(Active) then h.thoughts else "")
    case ThinkingChunk(text) => h.(thoughts := h.thoughts + text)
    case TurnFinished(_) => h.(thinking := None, thoughts := "")
    case Interrupted(_) => h.(thoughts := "")
    case SessionTitleUpdated(title) => h.(title := title)
    case SessionConfigUpdated(labels, _) => if labels == [] then h else h.(model := labels[|labels| - 1])
    case SessionConfigValueChanged(labels, _) => if labels == [] then h else h.(model := labels[|labels| - 1])
    case _ => h
  }

  // ---- Messages and timeline ----

  /** One message more, at the end of the messages and of the timeline. */
  predicate Said(ui: Ui, ui': Ui, role: MessageRole, body: string) {
    && ui'.messages == ui.messages + [ChatMessage(ui.nextId, role, body)]
    && ui'.timeline == ui.timeline + [MessageItem(ui.nextId)] && ui'.nextId == ui.nextId + 1
  }

  predicate NothingSaid(ui: Ui, ui': Ui) {
    ui'.messages == ui.messages && ui'.timeline == ui.timeline && ui'.nextId == ui.nextId
  }

  /** The timeline ends with message `i`, which is one of `role`. */
  predicate EndsWithMessage(ui: Ui, i: nat, role: MessageRole) {
    && i < |ui.messages| && ui.messages[i].role == role && ui.timeline != []
    && ui.timeline[|ui.timeline| - 1] == MessageItem(ui.messages[i].id)
    && forall j :: 0 <= j < i ==> ui.messages[j].id != ui.messages[i].id
  }

  predicate Extended(ui: Ui, ui': Ui, i: nat, body: string)
    requires i < |ui.messages|
  {
    && ui'.messages == ui.messages[i := ui.messages[i].(body := body)]
    && ui'.timeline == ui.timeline && ui'.nextId == ui.nextId
  }

  lemma LastMessageExactly(ui: Ui, i: nat, role: MessageRole)
    ensures EndsWithMessage(ui, i, role) <==> LastMessage(ui) == Some(i) && i < |ui.messages| && ui.messages[i].role == role
  {
    if EndsWithMessage(ui, i, role) {
      assert FindMessage(ui.messages, ui.messages[i].id) == i;
    }
  }

  ghost predicate EndsWithRole(ui: Ui, role: MessageRole) {
    exists i: nat :: EndsWithMessage(ui, i, role)
  }

  lemma RoleOfLast(ui: Ui, role: MessageRole)
    ensures EndsWithRole(ui, role) <==> LastMessage(ui).Some? && ui.messages[LastMessage(ui).value].role == role
  {
    hide FindMessage;
    LastMessageIsIndex(ui);
    if LastMessage(ui).Some? { LastMessageExactly(ui, LastMessage(ui).value, role); }
    if EndsWithRole(ui, role) {
      var i: nat :| EndsWithMessage(ui, i, role);
      LastMessageExactly(ui, i, role);
    }
  }

  /** A chunk of the agent or the system extends the message that the timeline ends with when it has the same
      role, and otherwise starts one, without leading line breaks, unless it is blank. What a user says
      always stands alone. Internal metadata is dropped. */
  lemma ChunkExactly(env: Env, ui: Ui, role: MessageRole, content: string, i: nat)
    ensures var ui' := Apply(env, ui, MessageChunk(role, content));
            && (role.System? && IsInternalMetadata(content) ==> ui' == ui)
            && (role.User? ==> Said(ui, ui', User, content))
            && (!role.User? && !(role.System? && IsInternalMetadata(content)) ==>
                  && (EndsWithMessage(ui, i, role) ==> Extended(ui, ui', i, ui.messages[i].body + content))
                  && (!EndsWithRole(ui, role) ==>
                        if IsBlank(content) then NothingSaid(ui, ui') else Said(ui, ui', role, TrimLineBreaks(content))))
  {
    hide IsBlank, TrimLineBreaks, IsInternalMetadata, LastMessage, EndsWithMessage;
    LastMessageExactly(ui, i, role);
    RoleOfLast(ui, role);
    SpeakingKeepsLast(ui);
  }

  lemma SpeakingKeepsLast(ui: Ui)
    ensures forall thinking, status :: LastMessage(ui.(thinkingStatus := thinking, sessionStatus := status)) == LastMessage(ui)
  {
  }

  /** A started compaction is noted unless the last message already is such a notice. */
  lemma CompactionStartExactly(env: Env, ui: Ui, message: string)
    ensures var ui' := Apply(env, ui, ContextCompactionStarted(message));
            var n := |ui.messages|;
            var notice := if Trim(message) == "" then "正在压缩上下文" else Trim(message);
            if n > 0 && ui.messages[n - 1].role.System? && IsCompactionNotice(ui.messages[n - 1].body) then ui' == ui
            else if IsBlank(notice) then NothingSaid(ui, ui')
            else Said(ui, ui', System, TrimLineBreaks(notice))
  {
    hide IsBlank, TrimLineBreaks, IsCompactionNotice, Trim;
  }

  /** A finished compaction replaces the notice that the timeline ends with, or is noted. */
  lemma CompactionEndExactly(env: Env, ui: Ui, message: string, i: nat)
    ensures var ui' := Apply(env, ui, ContextCompacted(message));
            var notice := if Trim(message) == "" then "上下文已自动压缩" else Trim(message);
            && (EndsWithMessage(ui, i, System) && IsCompactionNotice(ui.messages[i].body) ==> Extended(ui, ui', i, notice))
            && (!EndsWithRole(ui, System) || (EndsWithMessage(ui, i, System) && !IsCompactionNotice(ui.messages[i].body)) ==>
                  if IsBlank(notice) then NothingSaid(ui, ui') else Said(ui, ui', System, TrimLineBreaks(notice)))
  {
    hide IsBlank, TrimLineBreaks, IsCompactionNotice, Trim, LastMessage, EndsWithMessage;
    LastMessageExactly(ui, i, System);
    RoleOfLast(ui, System);
  }

  // ---- Tool events and the rest of the session ----

  /** `ui'` differs from `ui` in its tools and its status only, and lists a new tool if `more` says so. */
  predicate OnlyTools(ui: Ui, ui': Ui, more: bool) {
    && HeadingOf(ui') == HeadingOf(ui) && ui'.messages == ui.messages
    && ui'.timeline == (if more then ui.timeline + [ToolItem(ui.nextId)] else ui.timeline)
    && ui'.nextId == (if more then ui.nextId + 1 else ui.nextId)
  }

  lemma HelpersOnlyTools(ui: Ui, id: string, parent: Option<string>, name: string, kind: string, isSubagent: bool)
    ensures OnlyTools(ui, EnsureTool(ui, id, parent, name, kind, isSubagent), FindTool(ui.tools, id) == |ui.tools|)
    ensures OnlyTools(ui, FinishChildrenOf(ui, parent, id), false) && OnlyTools(ui, FinishChildren(ui, id, None), false)
    ensures FindTool(FinishChildrenOf(ui, parent, id).tools, id) == FindTool(ui.tools, id)
    ensures FindTool(FinishChildren(ui, id, None).tools, id) == FindTool(ui.tools, id)
    ensures |FinishChildrenOf(ui, parent, id).tools| == |ui.tools| && |FinishChildren(ui, id, None).tools| == |ui.tools|
  {
    hide FinishChild;
    forall t, p, x ensures FinishChild(t, p, x).callId == t.callId { ClosingPasses(t, p, x, ""); }
    SameCallIds(ui.tools, FinishChildren(ui, id, None).tools, id);
    SameCallIds(ui.tools, FinishChildrenOf(ui, parent, id).tools, id);
  }

  lemma ChunkOnlyTools(ui: Ui, e: ClientEvent)
    requires e.ToolMessageChunk?
    ensures OnlyTools(ui, OnToolChunk(ui, e), ToolOf(ui, e.id).None?)
  {
    hide EnsureTool, FinishChildren, StreamChunk;
    HelpersOnlyTools(ui, e.id, None, "", "", false);
    HelpersOnlyTools(FinishChildren(ui, e.id, None), e.id, None, "tool", "tool", false);
  }

  lemma StartOnlyTools(env: Env, ui: Ui, e: ClientEvent)
    requires e.ToolStarted? && !FinishedAlready(ui, e.id)
    ensures OnlyTools(ui, OnToolStarted(env, ui, e), ToolOf(ui, e.id).None?)
  {
    hide EnsureTool, FinishChildrenOf, StartTool;
    HelpersOnlyTools(ui, e.id, e.parentId, "", "", false);
    HelpersOnlyTools(FinishChildrenOf(ui, e.parentId, e.id), e.id, e.parentId, e.name, e.kind, e.isSubagent);
  }

  lemma UpdateOnlyTools(env: Env, ui: Ui, e: ClientEvent)
    requires e.ToolUpdated?
    ensures OnlyTools(ui, OnToolUpdated(env, ui, e), ToolOf(ui, e.id).None?)
  {
    hide EnsureTool, FinishChildrenOf, UpdateFields;
    HelpersOnlyTools(ui, e.id, e.parentId, "", "", false);
    HelpersOnlyTools(FinishChildrenOf(ui, e.parentId, e.id), e.id, e.parentId, "tool", "tool", e.isSubagent);
  }

  lemma FamilyEventsOnlyTools(env: Env, ui: Ui, e: ClientEvent)
    requires (e.ToolMessageChunk? || e.ToolStarted? || e.ToolUpdated?) && !Ignored(ui, e)
    ensures OnlyTools(ui, Apply(env, ui, e), ToolOf(ui, e.id).None?)
  {
    hide OnlyTools, OnToolChunk, OnToolStarted, OnToolUpdated, ToolOf, StartsWith;
    if e.ToolMessageChunk? { ChunkOnlyTools(ui, e); }
    else if e.ToolStarted? { StartOnlyTools(env, ui, e); }
    else { UpdateOnlyTools(env, ui, e); }
  }

  /** A tool that is made to exist and then changed. */
  lemma EnsuredOnlyTools(ui: Ui, id: string, name: string, kind: string, t: Tool)
    ensures var ui', more := SetTool(EnsureTool(ui, id, None, name, kind, false), id, t), ToolOf(ui, id).None?;
            OnlyTools(ui, ui'.(sessionStatus := WaitingForTool), more) && OnlyTools(ui, Refresh(ui'), more)
  {
    hide EnsureTool, IsOpen;
    HelpersOnlyTools(ui, id, None, name, kind, false);
  }

  lemma ActivityOnlyTools(ui: Ui, id: string, text: string)
    ensures OnlyTools(ui, OnToolProgress(ui, id, text), ToolOf(ui, id).None?)
    ensures OnlyTools(ui, OnEdit(ui, id, text), ToolOf(ui, id).None?)
  {
    hide OnlyTools, ToolOf, SetTool, EnsureTool, ReportProgress, Editing, Refresh;
    EnsuredOnlyTools(ui, id, "tool", "tool", ReportProgress(TheTool(EnsureTool(ui, id, None, "tool", "tool", false), id), text));
    EnsuredOnlyTools(ui, id, "Edit", "edit", Editing(TheTool(EnsureTool(ui, id, None, "Edit", "edit", false), id), text));
  }

  lemma RequestOnlyTools(ui: Ui, e: ClientEvent)
    requires e.ToolPermissionRequest?
    ensures OnlyTools(ui, OnPermissionRequest(ui, e), ToolOf(ui, e.id).None?)
  {
    hide OnlyTools, ToolOf, SetTool, EnsureTool, RequestPermission, Refresh;
    var i, ui1 := FindTool(ui.tools, e.id), EnsureTool(ui, e.id, None, e.name, "permission", false);
    var isExecution := i < |ui.tools| && ui.tools[i].kind != "permission";
    EnsuredOnlyTools(ui, e.id, e.name, "permission", RequestPermission(TheTool(ui1, e.id), isExecution, e));
  }

  lemma ResultsOnlyTools(env: Env, ui: Ui, e: ClientEvent)
    requires (e.ToolCompleted? || e.ToolFailed?) && !FinishedAlready(ui, e.id)
    ensures e.ToolCompleted? ==> OnlyTools(ui, OnToolCompleted(env, ui, e), ToolOf(ui, e.id).None?)
    ensures e.ToolFailed? ==> OnlyTools(ui, OnToolFailed(ui, e), ToolOf(ui, e.id).None?)
  {
    hide OnlyTools, ToolOf, SetTool, EnsureTool, CompleteTool, FailTool, Refresh;
    var name := e.newName.UnwrapOr("tool");
    var t := TheTool(EnsureTool(ui, e.id, None, name, "tool", false), e.id);
    EnsuredOnlyTools(ui, e.id, name, "tool", if e.ToolCompleted? then CompleteTool(env, t, e) else FailTool(t, e));
  }

  lemma OtherEventsOnlyTools(env: Env, ui: Ui, e: ClientEvent)
    requires e.ToolProgress? || e.ToolDiff? || e.ToolDiffPreview? || e.ToolPermissionRequest? || e.ToolCompleted? || e.ToolFailed?
    requires !Ignored(ui, e)
    ensures OnlyTools(ui, Apply(env, ui, e), ToolOf(ui, e.id).None?)
  {
    hide OnlyTools, ToolOf, OnToolProgress, OnEdit, OnPermissionRequest, OnToolCompleted, OnToolFailed, StartsWith;
    match e
    case ToolProgress(id, content) => ActivityOnlyTools(ui, id, content);
    case ToolDiff(id, path, _) => ActivityOnlyTools(ui, id, path);
    case ToolDiffPreview(id, path, _) => ActivityOnlyTools(ui, id, path);
    case ToolPermissionRequest(_, _, _, _, _) => RequestOnlyTools(ui, e);
    case _ => ResultsOnlyTools(env, ui, e);
  }

  lemma AnswersOnlyTools(env: Env, ui: Ui, e: ClientEvent)
    requires (e.ToolPermissionResolved? || e.ToolStopAvailability? || e.ToolStopped?) && !Ignored(ui, e)
    ensures OnlyTools(ui, Apply(env, ui, e), ToolOf(ui, e.id).None?)
  {
    hide ResolvePermission, OfferStop, StopTool, NormalizeOutcome, IsOpen;
  }

  /** Tool events touch neither the messages nor the heading; the timeline gains the tool exactly when the
      event is not ignored and the tool is new. */
  lemma ToolEventsOnlyTools(env: Env, ui: Ui, e: ClientEvent)
    requires IsToolEvent(e)
    ensures OnlyTools(ui, Apply(env, ui, e), !Ignored(ui, e) && ToolOf(ui, e.id).None?)
  {
    hide Apply, OnlyTools, Ignored;
    if Ignored(ui, e) {
      IgnoredChangesNothing(env, ui, e);
      assert OnlyTools(ui, ui, false) by { NothingMore(ui); }
    } else if e.ToolMessageChunk? || e.ToolStarted? || e.ToolUpdated? {
      FamilyEventsOnlyTools(env, ui, e);
    } else {
      if e.ToolPermissionResolved? || e.ToolStopAvailability? || e.ToolStopped? { AnswersOnlyTools(env, ui, e); }
      else { OtherEventsOnlyTools(env, ui, e); }
    }
  }

  lemma NothingMore(ui: Ui)
    ensures OnlyTools(ui, ui, false)
  {
  }

  lemma SpokenHeading(env: Env, ui: Ui, e: ClientEvent)
    requires e.MessageChunk? || e.ContextCompactionStarted? || e.ContextCompacted?
    ensures HeadingOf(Apply(env, ui, e)) == NextHeading(HeadingOf(ui), e)
  {
    hide NewMessageContent, LastMessage, IsCompactionNotice, IsInternalMetadata, CompactedNotice, CompactionStartedNotice;
    LastMessageIsIndex(ui);
  }

  lemma PlainHeading(env: Env, ui: Ui, e: ClientEvent)
    requires !IsToolEvent(e) && !e.MessageChunk? && !e.ContextCompactionStarted? && !e.ContextCompacted?
    ensures HeadingOf(Apply(env, ui, e)) == NextHeading(HeadingOf(ui), e)
    ensures Apply(env, ui, e).messages == ui.messages
    ensures Apply(env, ui, e).timeline
            == if e == ThinkingActivity(true) && ui.thinkingStatus != Some(Active) then ui.timeline + [Thinking] else ui.timeline
  {
    hide FinishOpen, InterruptOpen, Usage.Record, Enrich;
  }

  /** The law of title, model and thinking, for every event. */
  lemma HeadingExactly(env: Env, ui: Ui, e: ClientEvent)
    ensures HeadingOf(Apply(env, ui, e)) == NextHeading(HeadingOf(ui), e)
  {
    hide Apply, HeadingOf, Ignored;
    if IsToolEvent(e) {
      ToolEventsOnlyTools(env, ui, e);
    } else if e.MessageChunk? || e.ContextCompactionStarted? || e.ContextCompacted? {
      SpokenHeading(env, ui, e);
    } else {
      PlainHeading(env, ui, e);
    }
  }

  /** ... and of a run. */
  function NextHeadings(h: Heading, es: seq<ClientEvent>): Heading {
    if es == [] then h else NextHeading(NextHeadings(h, es[..|es| - 1]), es[|es| - 1])
  }

  lemma {:induction false} HeadingOfARun(env: Env, ui: Ui, es: seq<ClientEvent>)
    ensures HeadingOf(ApplyAll(env, ui, es)) == NextHeadings(HeadingOf(ui), es)
  {
    hide Apply, HeadingOf, NextHeading;
    if es != [] {
      HeadingOfARun(env, ui, es[..|es| - 1]);
      HeadingExactly(env, ApplyAll(env, ui, es[..|es| - 1]), es[|es| - 1]);
    }
  }
}
