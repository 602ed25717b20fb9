/** What each step tells the client, by the history of the tool alone. */
module ToolTraceEffects {
  import opened Options
  import opened ToolTrace

  /** What the last step told. */
  function LastTold(steps: seq<Step>): seq<Notification>
    requires steps != []
  {
    Next(After(steps[..|steps| - 1]), steps[|steps| - 1]).1
  }

  lemma ToldGrows(steps: seq<Step>, step: Step)
    ensures Told(steps + [step]) == Told(steps) + LastTold(steps + [step])
    ensures LastTold(steps + [step]) == Next(After(steps), step).1
  {
    assert (steps + [step])[..|steps|] == steps;
  }

  /** A use of a shown tool is told as a call the first time its id appears and as an update every other time;
      the to-do list shows in the plan, when there is one; tasks show nothing. */
  lemma UseExactly(steps: seq<Step>, id: string, name: string, hasTodos: bool, settings: Settings)
    ensures var steps' := steps + [Chunked(ToolUse(id, name, hasTodos), settings)];
            Told(steps') == Told(steps)
              + if name == "TodoWrite" then (if hasTodos then [Plan] else [])
                else if name in {"TaskCreate", "TaskUpdate", "TaskList", "TaskGet"} then []
                else if FirstName(steps, id).None? then [ToolCall(id, name)] else [Refined(id, name)]
  {
    hide Told, After, FirstName, LastName, ToldInv;
    ToldGrows(steps, Chunked(ToolUse(id, name, hasTodos), settings));
    EveryRun(steps, id);
  }

  /** A result is told under the name the tool was last used by: a created or updated task in the plan unless it
      failed, a shown tool as finished or failed, a shell command with its terminal unless an error has
      content; a tool never used, a to-do list and the other tasks tell nothing. */
  lemma ResultExactly(steps: seq<Step>, id: string, isError: bool, hasContent: bool, settings: Settings)
    ensures var steps', name := steps + [Chunked(ToolResult(id, isError, hasContent), settings)], LastName(steps, id);
            Told(steps') == Told(steps)
              + match name
                case None => []
                case Some("TodoWrite") => []
                case Some("TaskList") => []
                case Some("TaskGet") => []
                case Some("TaskCreate") => if isError then [] else [Plan]
                case Some("TaskUpdate") => if isError then [] else [Plan]
                case Some("Bash") =>
                  if settings.terminals && (!isError || !hasContent) then [TerminalOutput(id), Finished(id, "Bash", isError, true)]
                  else [Finished(id, "Bash", isError, false)]
                case Some(other) => [Finished(id, other, isError, false)]
  {
    hide Told, After, FirstName, LastName, ToldInv;
    ToldGrows(steps, Chunked(ToolResult(id, isError, hasContent), settings));
    EveryRun(steps, id);
  }

  /** A hook waits from the first use, if that shows the tool and hooks are registered then, until it ran. */
  predicate HookWaits(steps: seq<Step>, id: string) {
    if steps == [] then false
    else
      var before, step := steps[..|steps| - 1], steps[|steps| - 1];
      if step == ToolRan(id) then false
      else if UsesTool(step, id) && FirstName(before, id).None? && IsShown(step.chunk.name) && step.settings.registerHooks then true
      else HookWaits(before, id)
  }

  lemma HookStep(s: State, step: Step, first: Option<string>, last: Option<string>, id: string)
    requires CacheInv(s, first, last, id)
    ensures id in Next(s, step).0.hooks
            <==> if step == ToolRan(id) then false
                 else if UsesTool(step, id) && first.None? && IsShown(step.chunk.name) && step.settings.registerHooks then true
                 else id in s.hooks
  {
  }

  lemma {:induction false} WaitingHooks(steps: seq<Step>, id: string)
    ensures HookWaits(steps, id) <==> id in After(steps).hooks
  {
    hide Next, CacheInv, ToldInv, IsShown, UsesTool;
    if steps != [] {
      var before := steps[..|steps| - 1];
      WaitingHooks(before, id);
      EveryRun(before, id);
      HookStep(After(before), steps[|steps| - 1], FirstName(before, id), LastName(before, id), id);
    }
  }

  /** A tool that ran is reported by its waiting hook, under its last name, and by nothing else. */
  lemma HookExactly(steps: seq<Step>, id: string)
    ensures Told(steps + [ToolRan(id)])
            == Told(steps) + if HookWaits(steps, id) then [HookUpdate(id, LastName(steps, id).UnwrapOr(""))] else []
    ensures HookWaits(steps, id) ==> LastName(steps, id).Some?
    ensures !HookWaits(steps + [ToolRan(id)], id)
  {
    hide Told, After, FirstName, LastName, ToldInv;
    ToldGrows(steps, ToolRan(id));
    EveryRun(steps, id);
    WaitingHooks(steps, id);
  }

  /** A message is told as itself, and what is neither text nor a tool is not told. */
  lemma OtherChunksExactly(steps: seq<Step>, settings: Settings)
    ensures Told(steps + [Chunked(Spoken, settings)]) == Told(steps) + [Message]
    ensures Told(steps + [Chunked(Skipped, settings)]) == Told(steps)
  {
    hide Told, After;
    ToldGrows(steps, Chunked(Spoken, settings));
    ToldGrows(steps, Chunked(Skipped, settings));
  }
}
