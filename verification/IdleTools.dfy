/**
 When a resting session has no open tool: exactly as long as no partial update names a tool that the
 session does not know.
 */
module IdleTools {
  import opened Options
  import opened Events
  import opened Reducer
  import opened ReducerRuns
  import Text

  ghost predicate NoneOpen(tools: seq<Tool>) {
    forall t :: t in tools ==> !IsOpen(t)
  }

  /** A session that is idle or interrupted has no pending and no running tool. */
  ghost predicate Quiet(ui: Ui) {
    !Awake(ui) ==> NoneOpen(ui.tools)
  }

  /** A partial update of an unknown tool, in a resting session. */
  predicate OpensAtRest(ui: Ui, e: ClientEvent) {
    !Awake(ui) && e.ToolUpdated? && e.isPartial && FindTool(ui.tools, e.id) == |ui.tools|
  }

  lemma RestKeepsQuiet(ui: Ui, ui': Ui)
    requires Quiet(ui) && RestStep(ui, ui')
    ensures Quiet(ui')
  {
    if !Awake(ui') {
      forall i | 0 <= i < |ui'.tools|
        ensures !IsOpen(ui'.tools[i])
      {
        assert ui.tools[i] in ui.tools;
      }
    }
  }

  lemma TurnEndsOpen(ui: Ui, reason: string)
    ensures NoneOpen(OnTurnFinished(ui, reason).tools) && NoneOpen(OnInterrupted(ui, reason).tools)
  {
    hide FinishOpen, InterruptOpen;
    forall t
      ensures !IsOpen(FinishOpen(t, reason)) && !IsOpen(InterruptOpen(t, reason))
    {
      ClosedTool(t, reason);
    }
  }

  lemma ClosedTool(t: Tool, reason: string)
    ensures !IsOpen(FinishOpen(t, reason)) && !IsOpen(InterruptOpen(t, reason))
  {
    hide PushEntry, Text.StartsWith, Text.IsBlank;
  }

  lemma FinishChildrenOpen(ui: Ui, parent: Option<string>, except: string)
    requires NoneOpen(ui.tools)
    ensures FinishChildrenOf(ui, parent, except) == ui
  {
    if parent.Some? {
      assert forall t :: t in ui.tools ==> FinishChild(t, parent.value, Some(except)) == t;
      assert FinishChildren(ui, parent.value, Some(except)).tools == ui.tools;
    }
  }

  /** A partial update of a known tool leaves everything closed; one of an unknown tool leaves it
      pending. */
  lemma PartialUpdateAtRest(env: Env, ui: Ui, e: ClientEvent)
    requires NoneOpen(ui.tools) && e.ToolUpdated? && e.isPartial
    ensures OnToolUpdated(env, ui, e).sessionStatus == ui.sessionStatus
    ensures NoneOpen(OnToolUpdated(env, ui, e).tools) <==> FindTool(ui.tools, e.id) < |ui.tools|
  {
    hide FinishChildrenOf, UpdateFields;
    FinishChildrenOpen(ui, e.parentId, e.id);
    var i := FindTool(ui.tools, e.id);
    var ui1 := EnsureTool(ui, e.id, e.parentId, "tool", "tool", e.isSubagent);
    assert FindTool(ui1.tools, e.id) == i by { EnsuredIsFound(ui, e.id, e.parentId, e.isSubagent); }
    PartialUpdateKeepsStatus(env, ui1.tools[i], e);
    var after := OnToolUpdated(env, ui, e);
    assert after.tools == ui1.tools[i := UpdateFields(env, ui1.tools[i], e)];
    if i < |ui.tools| {
      assert ui.tools[i] in ui.tools;
      assert forall t :: t in after.tools ==> t in ui.tools || t == UpdateFields(env, ui1.tools[i], e);
    } else {
      assert after.tools[i] in after.tools;
    }
  }

  lemma EnsuredIsFound(ui: Ui, callId: string, parent: Option<string>, isSubagent: bool)
    ensures var ui1 := EnsureTool(ui, callId, parent, "tool", "tool", isSubagent);
            FindTool(ui1.tools, callId) == FindTool(ui.tools, callId)
  {
    var ui1 := EnsureTool(ui, callId, parent, "tool", "tool", isSubagent);
    var i := FindTool(ui.tools, callId);
    assert forall j :: 0 <= j < i ==> ui1.tools[j].callId != callId;
    assert ui1.tools[i].callId == callId;
  }

  /** The exact law of one event: a resting session without open tools stays so, and a waking one leaves
      none behind, unless a partial update of an unknown tool comes at rest. */
  lemma QuietExactly(env: Env, ui: Ui, e: ClientEvent)
    requires Quiet(ui)
    ensures Quiet(Apply(env, ui, e)) <==> !OpensAtRest(ui, e)
  {
    hide Apply, NoneOpen, RestStep, OnTurnFinished, OnInterrupted, OnToolUpdated;
    if e.TurnFinished? || e.Interrupted? {
      TurnEnds(env, ui, e);
      TurnEndsOpen(ui, if e.TurnFinished? then e.stopReason else e.reason);
    } else if e.ToolUpdated? {
      UpdateApplies(env, ui, e);
      if !e.isPartial {
        FullUpdateWakes(env, ui, e);
      } else if Awake(ui) {
        UpdateKeepsAwake(env, ui, e);
      } else {
        PartialUpdateAtRest(env, ui, e);
      }
    } else {
      EventSteps(env, ui, e);
      RestKeepsQuiet(ui, Apply(env, ui, e));
    }
  }

  lemma FullUpdateWakes(env: Env, ui: Ui, e: ClientEvent)
    requires e.ToolUpdated? && !e.isPartial
    ensures Awake(OnToolUpdated(env, ui, e))
  {
    hide EnsureTool, UpdateFields, FinishChildrenOf;
  }

  lemma UpdateKeepsAwake(env: Env, ui: Ui, e: ClientEvent)
    requires e.ToolUpdated? && Awake(ui)
    ensures Awake(OnToolUpdated(env, ui, e))
  {
    hide EnsureTool, UpdateFields, FinishChildrenOf;
    FinishChildrenStatus(ui, e.parentId, e.id);
    EnsureToolStatus(FinishChildrenOf(ui, e.parentId, e.id), e.id, e.parentId, "tool", "tool", e.isSubagent);
  }

  ghost predicate AlwaysQuiet(env: Env, ui: Ui, es: seq<ClientEvent>) {
    Quiet(ApplyAll(env, ui, es)) && (es == [] || AlwaysQuiet(env, ui, es[..|es| - 1]))
  }

  predicate NeverOpensAtRest(env: Env, ui: Ui, es: seq<ClientEvent>) {
    es == []
    || (NeverOpensAtRest(env, ui, es[..|es| - 1]) && !OpensAtRest(ApplyAll(env, ui, es[..|es| - 1]), es[|es| - 1]))
  }

  /** ... and of a run. */
  lemma {:induction false} QuietRuns(env: Env, ui: Ui, es: seq<ClientEvent>)
    requires Quiet(ui)
    ensures AlwaysQuiet(env, ui, es) <==> NeverOpensAtRest(env, ui, es)
  {
    hide Apply, Quiet, OpensAtRest;
    if es != [] {
      QuietRuns(env, ui, es[..|es| - 1]);
      if AlwaysQuiet(env, ui, es[..|es| - 1]) {
        QuietExactly(env, ApplyAll(env, ui, es[..|es| - 1]), es[|es| - 1]);
      }
    }
  }

  /** A new session is not quiet: it is idle and its scan tool is pending. The first end of a turn makes
      any session quiet. */
  lemma QuietFromTheFirstTurnOn(env: Env, welcome: string, model: string, ui: Ui, e: ClientEvent)
    ensures !Quiet(Bootstrap(welcome, model))
    ensures e.TurnFinished? || e.Interrupted? ==> Quiet(Apply(env, ui, e))
  {
    hide Apply, OnTurnFinished, OnInterrupted;
    assert Bootstrap(welcome, model).tools[0] in Bootstrap(welcome, model).tools;
    if e.TurnFinished? || e.Interrupted? {
      TurnEnds(env, ui, e);
      TurnEndsOpen(ui, if e.TurnFinished? then e.stopReason else e.reason);
    }
  }

  /** The input that is not quiet: a partial update after the end of a turn. */
  lemma PendingToolInIdleSession(env: Env, ui: Ui, stopReason: string, e: ClientEvent)
    requires e.ToolUpdated? && e.isPartial && FindTool(ui.tools, e.id) == |ui.tools|
    ensures !Quiet(ApplyAll(env, ui, [TurnFinished(stopReason), e]))
  {
    hide Apply, OnTurnFinished, Quiet, Bootstrap;
    var turn, es := TurnFinished(stopReason), [TurnFinished(stopReason), e];
    assert es[..1] == [turn] && [turn][..0] == [];
    var idle := Apply(env, ui, turn);
    TurnEnds(env, ui, turn);
    QuietFromTheFirstTurnOn(env, "", "", ui, turn);
    SameIdsAfterTurn(ui, stopReason, e.id);
    QuietExactly(env, idle, e);
    assert ApplyAll(env, ui, []) == ui && ApplyAll(env, ui, [turn]) == idle;
  }

  lemma SameIdsAfterTurn(ui: Ui, stopReason: string, callId: string)
    ensures FindTool(OnTurnFinished(ui, stopReason).tools, callId) == FindTool(ui.tools, callId)
    ensures |OnTurnFinished(ui, stopReason).tools| == |ui.tools|
  {
    hide FinishOpen;
    forall t ensures FinishOpen(t, stopReason).callId == t.callId { FinishOpenKeeps(t, stopReason); }
    SameCallIds(ui.tools, OnTurnFinished(ui, stopReason).tools, callId);
  }
}
