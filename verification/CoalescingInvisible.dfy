/**
 Coalescing is invisible to the reducer: folding the reducer over the coalesced events gives the
 same session view as folding it over the events as they were sent, and exactly when for a pair.
 */
module CoalescingInvisible {
  import opened Options
  import opened Events
  import opened Text
  import opened Coalescing
  import opened Reducer
  import ReducerRuns

  /** Text that the reducer either keeps, or drops together with the line breaks it would trim. */
  predicate Clean(content: string) {
    !IsBlank(content) || forall c <- content :: IsLineBreak(c)
  }

  /** Event streams whose only text chunks are clean assistant chunks. */
  predicate Plain(e: ClientEvent) {
    !e.ToolMessageChunk? && !e.ToolProgress? && (e.MessageChunk? ==> e.role.Assistant? && Clean(e.content))
  }

  predicate Fresh(ui: Ui) {
    forall m <- ui.messages :: m.id < ui.nextId
  }

  predicate EndsWith(ui: Ui, role: MessageRole) {
    LastMessage(ui).Some? && ui.messages[LastMessage(ui).value].role == role
  }

  predicate EndsWithAssistant(ui: Ui) {
    EndsWith(ui, MessageRole.Assistant)
  }

  // ---- Trimming ----

  lemma TrimConcat(a: string, b: string)
    ensures TrimLineBreaks(a + b) ==
            if forall c <- a :: IsLineBreak(c) then TrimLineBreaks(b) else TrimLineBreaks(a) + b
  {
    if a == "" {
      assert a + b == b;
    } else {
      assert (a + b)[1..] == a[1..] + b;
      if IsLineBreak(a[0]) {
        TrimConcat(a[1..], b);
        assert a == [a[0]] + a[1..];
      }
    }
  }

  lemma TrimLength(a: string)
    ensures |TrimLineBreaks(a)| <= |a| && ((exists c <- a :: !IsLineBreak(c)) ==> TrimLineBreaks(a) != "")
  {
    if a != "" && IsLineBreak(a[0]) {
      TrimLength(a[1..]);
      assert a == [a[0]] + a[1..];
    }
  }

  lemma BlankConcat(a: string, b: string)
    ensures IsBlank(a + b) <==> IsBlank(a) && IsBlank(b)
  {
    assert forall c :: c in a + b <==> c in a || c in b;
  }

  // ---- Two chunks ----

  lemma FindMessagePush(messages: seq<ChatMessage>, m: ChatMessage)
    requires forall x <- messages :: x.id != m.id
    ensures FindMessage(messages + [m], m.id) == |messages|
  {
    if messages == [] {
      assert messages + [m] == [m];
    } else {
      assert (messages + [m])[1..] == messages[1..] + [m];
      assert messages[0] in messages;
      FindMessagePush(messages[1..], m);
    }
  }

  lemma FindMessageSame(messages: seq<ChatMessage>, messages': seq<ChatMessage>, id: nat)
    requires |messages| == |messages'| && forall i :: 0 <= i < |messages| ==> messages[i].id == messages'[i].id
    ensures FindMessage(messages, id) == FindMessage(messages', id)
  {}

  function Assistant(content: string): ClientEvent { MessageChunk(MessageRole.Assistant, content) }

  /** After a chunk that was kept as a new message, the next one extends that message. */
  lemma PushTwiceNew(ui: Ui, role: MessageRole, a: string, b: string)
    requires Fresh(ui) && !role.User? && !EndsWith(ui, role) && !IsBlank(a)
    ensures PushMessage(PushMessage(ui, role, a), role, b) ==
            ui.(nextId := ui.nextId + 1, timeline := ui.timeline + [MessageItem(ui.nextId)],
                messages := ui.messages + [ChatMessage(ui.nextId, role, TrimLineBreaks(a) + b)])
  {
    var m := ChatMessage(ui.nextId, role, TrimLineBreaks(a));
    var ui1 := PushMessage(ui, role, a);
    assert ui1.messages == ui.messages + [m] && ui1.timeline == ui.timeline + [MessageItem(ui.nextId)];
    FindMessagePush(ui.messages, m);
    assert LastMessage(ui1) == Some(|ui.messages|);
    assert ui1.messages[|ui.messages| := m.(body := m.body + b)] == ui.messages + [m.(body := m.body + b)];
  }

  /** After a chunk that extended the last message, the next one extends it again. */
  lemma PushTwiceSame(ui: Ui, role: MessageRole, a: string, b: string)
    requires !role.User? && EndsWith(ui, role)
    ensures PushMessage(PushMessage(ui, role, a), role, b) == PushMessage(ui, role, a + b)
  {
    var i := LastMessage(ui).value;
    var m := ui.messages[i];
    var ui1 := PushMessage(ui, role, a);
    FindMessageSame(ui.messages, ui1.messages, ui.timeline[|ui.timeline| - 1].id);
    assert LastMessage(ui1) == Some(i);
    assert m.body + a + b == m.body + (a + b);
    assert ui1.messages[i := m.(body := m.body + (a + b))] == ui.messages[i := m.(body := m.body + (a + b))];
  }

  lemma PushNew(ui: Ui, role: MessageRole, a: string)
    requires !role.User? && !EndsWith(ui, role)
    ensures PushMessage(ui, role, a) ==
            if IsBlank(a) then ui
            else ui.(nextId := ui.nextId + 1, timeline := ui.timeline + [MessageItem(ui.nextId)],
                     messages := ui.messages + [ChatMessage(ui.nextId, role, TrimLineBreaks(a))])
  {}

  /** Exactly when two chunks of the agent or the system may be pushed as one: only a blank chunk that starts a new
      message and holds more than line breaks, before a chunk with text, makes a difference. */
  lemma PushPair(ui: Ui, role: MessageRole, a: string, b: string)
    requires Fresh(ui) && !role.User?
    ensures PushMessage(PushMessage(ui, role, a), role, b) == PushMessage(ui, role, a + b)
            <==> EndsWith(ui, role) || Clean(a) || IsBlank(b)
  {
    if EndsWith(ui, role) {
      PushTwiceSame(ui, role, a, b);
    } else {
      TrimConcat(a, b);
      BlankConcat(a, b);
      PushNew(ui, role, a);
      PushNew(ui, role, b);
      PushNew(ui, role, a + b);
      if !IsBlank(a) {
        PushTwiceNew(ui, role, a, b);
        assert !(forall c <- a :: IsLineBreak(c)) by { NonBlankHasText(a); }
      } else if !Clean(a) && !IsBlank(b) {
        TrimLength(a);
        TrimLength(b);
        DifferentBodies(ui, role, TrimLineBreaks(b), TrimLineBreaks(a) + b);
      }
    }
  }

  lemma NonBlankHasText(a: string)
    requires !IsBlank(a)
    ensures exists c <- a :: !IsLineBreak(c)
  {
    var c :| c in a && !IsWhitespace(c);
  }

  lemma DifferentBodies(ui: Ui, role: MessageRole, x: string, y: string)
    requires |x| != |y|
    ensures ui.messages + [ChatMessage(ui.nextId, role, x)] != ui.messages + [ChatMessage(ui.nextId, role, y)]
  {
    var p, q := ChatMessage(ui.nextId, role, x), ChatMessage(ui.nextId, role, y);
    assert (ui.messages + [p])[|ui.messages|] == p && (ui.messages + [q])[|ui.messages|] == q;
  }

  /** The session fields that every assistant chunk sets. */
  function Speaking(ui: Ui): Ui {
    ui.(thinkingStatus := if ui.thinkingStatus == Some(Active) then Some(Completed) else ui.thinkingStatus,
        sessionStatus := Streaming)
  }

  lemma SpeakingCommutes(ui: Ui, a: string)
    ensures Speaking(PushMessage(Speaking(ui), MessageRole.Assistant, a)) == PushMessage(Speaking(ui), MessageRole.Assistant, a)
    ensures EndsWithAssistant(Speaking(ui)) <==> EndsWithAssistant(ui)
    ensures Fresh(Speaking(ui)) <==> Fresh(ui)
  {
    hide IsBlank, TrimLineBreaks;
  }

  /** Merging two neighbouring assistant chunks, as the reducer sees it. */
  lemma MergePair(env: Env, ui: Ui, a: string, b: string)
    requires Fresh(ui)
    ensures Apply(env, Apply(env, ui, Assistant(a)), Assistant(b)) == Apply(env, ui, Assistant(a + b))
            <==> EndsWithAssistant(ui) || Clean(a) || IsBlank(b)
  {
    hide PushMessage, Clean, IsBlank, EndsWith;
    SpeakingCommutes(ui, a);
    PushPair(Speaking(ui), MessageRole.Assistant, a, b);
  }

  /** The same law for system chunks, as long as none is internal metadata, which the reducer drops. */
  lemma MergeSystemPair(env: Env, ui: Ui, a: string, b: string)
    requires Fresh(ui) && !IsInternalMetadata(a) && !IsInternalMetadata(b) && !IsInternalMetadata(a + b)
    ensures Apply(env, Apply(env, ui, MessageChunk(System, a)), MessageChunk(System, b)) == Apply(env, ui, MessageChunk(System, a + b))
            <==> EndsWith(ui, System) || Clean(a) || IsBlank(b)
  {
    hide PushMessage, Clean, IsBlank, EndsWith, IsInternalMetadata;
    PushPair(ui, System, a, b);
  }

  lemma ProgressSummary(ui: Ui, id: string, content: string)
    ensures var after := OnToolProgress(ui, id, content);
            && FindTool(after.tools, id) < |after.tools|
            && TheTool(after, id).summary == content
  {
    hide PushEntry;
    var ui1 := EnsureTool(ui, id, None, "tool", "tool", false);
    var t := ReportProgress(TheTool(ui1, id), content);
    assert t.callId == id && t.summary == content;
    SameCallIds(ui1.tools, SetTool(ui1, id, t).tools, id);
  }

  /** Two progress notes of a tool may be merged exactly when the first is empty. */
  lemma MergeProgressPair(env: Env, ui: Ui, id: string, a: string, b: string)
    ensures Apply(env, Apply(env, ui, ToolProgress(id, a)), ToolProgress(id, b)) == Apply(env, ui, ToolProgress(id, a + b))
            <==> a == ""
  {
    hide OnToolProgress;
    ProgressSummary(OnToolProgress(ui, id, a), id, b);
    ProgressSummary(ui, id, a + b);
    if a == "" {
      assert a + b == b;
      EmptyProgressFirst(ui, id, b);
    } else {
      assert |a + b| != |b|;
    }
  }

  lemma EmptyProgressFirst(ui: Ui, id: string, b: string)
    ensures OnToolProgress(OnToolProgress(ui, id, ""), id, b) == OnToolProgress(ui, id, b)
  {
    hide CapString;
    EmptyEntry();
    var ui1 := EnsureTool(ui, id, None, "tool", "tool", false);
    var t := TheTool(ui1, id);
    var first := ReportProgress(t, "");
    assert first == t.(summary := "", status := Running, error := None);
    var ui2 := OnToolProgress(ui, id, "");
    SameCallIds(ui1.tools, ui2.tools, id);
    var i := FindTool(ui1.tools, id);
    assert ui2.tools == ui1.tools[i := first];
    var ui3 := EnsureTool(ui2, id, None, "tool", "tool", false);
    assert ui3.tools == ui2.tools;
    assert ReportProgress(first, b) == ReportProgress(t, b);
    assert ui1.tools[i := first][i := ReportProgress(first, b)] == ui1.tools[i := ReportProgress(t, b)];
  }

  lemma EmptyEntry()
    ensures CapString("", MAX_TOOL_LOG_CHARS) == ""
  {
  }

  // ---- Whole streams ----

  lemma PlainMerge(l: ClientEvent, e: ClientEvent)
    requires Plain(l) && Plain(e) && Mergeable(l, e)
    ensures l == Assistant(l.content) && e == Assistant(e.content) && Merge(l, e) == Assistant(l.content + e.content)
    ensures Plain(Merge(l, e))
  {
    BlankConcat(l.content, e.content);
    if !IsBlank(l.content) || !IsBlank(e.content) {
    } else {
      assert forall c :: c in l.content + e.content <==> c in l.content || c in e.content;
    }
  }

  ghost predicate PlainStream(es: seq<ClientEvent>) {
    forall e :: e in es ==> Plain(e)
  }

  lemma {:induction false} CoalesceStaysPlain(es: seq<ClientEvent>)
    requires PlainStream(es)
    ensures PlainStream(Coalesce(es))
  {
    if es != [] {
      hide Plain, Merge;
      var done, e := Coalesce(es[..|es| - 1]), es[|es| - 1];
      CoalesceStaysPlain(es[..|es| - 1]);
      if done != [] && Mergeable(done[|done| - 1], e) {
        PlainMerge(done[|done| - 1], e);
      }
    }
  }

  lemma FreshRun(env: Env, ui: Ui, es: seq<ClientEvent>, scanned: nat)
    requires ReducerRuns.RunInv(ui, scanned)
    ensures Fresh(ApplyAll(env, ui, es))
  {
    ReducerRuns.EveryRun(env, ui, es, scanned);
  }

  /** Coalescing is invisible: for every session that a run can reach and every plain stream. */
  lemma {:induction false} CoalescingIsInvisible(env: Env, ui: Ui, es: seq<ClientEvent>, scanned: nat)
    requires ReducerRuns.RunInv(ui, scanned)
    requires PlainStream(es)
    ensures ApplyAll(env, ui, Coalesce(es)) == ApplyAll(env, ui, es)
  {
    if es != [] {
      hide Apply, Plain, Merge, ReducerRuns.RunInv, Fresh, Mergeable, EndsWithAssistant, Clean;
      var init, e := es[..|es| - 1], es[|es| - 1];
      CoalescingIsInvisible(env, ui, init, scanned);
      CoalesceStaysPlain(init);
      var done := Coalesce(init);
      if done != [] && Mergeable(done[|done| - 1], e) {
        var front, l := done[..|done| - 1], done[|done| - 1];
        PlainMerge(l, e);
        FreshRun(env, ui, front, scanned);
        MergePair(env, ApplyAll(env, ui, front), l.content, e.content);
        assert Clean(l.content) by { PlainIsClean(l); }
        assert (front + [Merge(l, e)])[..|front|] == front;
      } else {
        assert (done + [e])[..|done|] == done;
      }
    }
  }

  lemma PlainIsClean(e: ClientEvent)
    requires Plain(e) && e.MessageChunk?
    ensures Clean(e.content)
  {}

  // ---- Why the hypotheses are needed ----

  lemma UserChunk(env: Env, ui: Ui, a: string)
    ensures Apply(env, ui, MessageChunk(User, a)).messages == ui.messages + [ChatMessage(ui.nextId, User, a)]
  {}

  /** Two user chunks always make two messages, a merged one makes one. */
  lemma UserChunksAreVisible(env: Env, ui: Ui, a: string, b: string)
    ensures Coalesce([MessageChunk(User, a), MessageChunk(User, b)]) == [MessageChunk(User, a + b)]
    ensures |Apply(env, Apply(env, ui, MessageChunk(User, a)), MessageChunk(User, b)).messages| == |ui.messages| + 2
    ensures |Apply(env, ui, MessageChunk(User, a + b)).messages| == |ui.messages| + 1
  {
    hide Apply;
    assert Coalesce([MessageChunk(User, a), MessageChunk(User, b)]) == [MessageChunk(User, a + b)] by {
      assert [MessageChunk(User, a), MessageChunk(User, b)][..1] == [MessageChunk(User, a)];
      assert AppendAll([], [MessageChunk(User, a)]) == [MessageChunk(User, a)] by {
        assert [MessageChunk(User, a)][..0] == [];
      }
    }
    UserChunk(env, ui, a);
    UserChunk(env, Apply(env, ui, MessageChunk(User, a)), b);
    UserChunk(env, ui, a + b);
  }
}
