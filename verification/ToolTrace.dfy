/**
 What the client is told about tools: chunks of the model's stream become notifications, with a
 cache of the tool uses seen so far and a hook per tool that runs after it. Plan entries, raw inputs
 and rendered content are not looked at, so a notification keeps only which tool it is about, the
 tool's name and its status.
 */
module ToolTrace {
  import opened Options

  datatype Chunk =
    | Spoken
    | ToolUse(id: string, name: string, hasTodos: bool)
    | ToolResult(id: string, isError: bool, hasContent: bool)
    | Skipped

  datatype Notification =
    | Message
    | Plan
    | ToolCall(id: string, name: string)
    | Refined(id: string, name: string)
    | TerminalOutput(id: string)
    | Finished(id: string, name: string, failed: bool, terminalExit: bool)
    | HookUpdate(id: string, name: string)

  /** Whether hooks are registered (not on replay), and whether the client shows terminals. */
  datatype Settings = Settings(registerHooks: bool, terminals: bool)

  datatype State = State(cache: map<string, string>, hooks: set<string>)

  const EMPTY := State(map[], {})

  datatype Step = Chunked(chunk: Chunk, settings: Settings) | ToolRan(id: string)

  predicate IsTask(name: string) {
    name == "TaskCreate" || name == "TaskUpdate" || name == "TaskList" || name == "TaskGet"
  }

  /** Tools with a notification of their own; the others only show in the plan. */
  predicate IsShown(name: string) {
    name != "TodoWrite" && !IsTask(name)
  }

  function Used(s: State, c: Chunk, settings: Settings): (State, seq<Notification>)
    requires c.ToolUse?
  {
    var known := c.id in s.cache;
    var cached := s.(cache := s.cache[c.id := c.name]);
    if c.name == "TodoWrite" then (cached, if c.hasTodos then [Plan] else [])
    else if IsTask(c.name) then (cached, [])
    else if known then (cached, [Refined(c.id, c.name)])
    else (cached.(hooks := if settings.registerHooks then s.hooks + {c.id} else s.hooks), [ToolCall(c.id, c.name)])
  }

  /** A terminal's output is reported unless the result is an error with content. */
  predicate ReportsTerminal(name: string, c: Chunk, settings: Settings)
    requires c.ToolResult?
  {
    !(c.isError && c.hasContent) && name == "Bash" && settings.terminals
  }

  function Resulted(s: State, c: Chunk, settings: Settings): seq<Notification>
    requires c.ToolResult?
  {
    if c.id !in s.cache then []
    else
      var name := s.cache[c.id];
      if IsTask(name) then
        if !c.isError && (name == "TaskCreate" || name == "TaskUpdate") then [Plan] else []
      else if name == "TodoWrite" then []
      else
        var terminal := ReportsTerminal(name, c, settings);
        (if terminal then [TerminalOutput(c.id)] else []) + [Finished(c.id, name, c.isError, terminal)]
  }

  function Converted(s: State, c: Chunk, settings: Settings): (State, seq<Notification>) {
    match c
    case Spoken => (s, [Message])
    case ToolUse(_, _, _) => Used(s, c, settings)
    case ToolResult(_, _, _) => (s, Resulted(s, c, settings))
    case Skipped => (s, [])
  }

  /** The hook of a tool runs once; it reports only a tool that is in the cache. */
  function Hooked(s: State, id: string): (State, seq<Notification>) {
    (s.(hooks := s.hooks - {id}), if id in s.hooks && id in s.cache then [HookUpdate(id, s.cache[id])] else [])
  }

  function Next(s: State, step: Step): (State, seq<Notification>) {
    match step
    case Chunked(chunk, settings) => Converted(s, chunk, settings)
    case ToolRan(id) => Hooked(s, id)
  }

  /** The state after a run, and everything the client was told, in order. */
  function Run(steps: seq<Step>): (State, seq<Notification>) {
    if steps == [] then (EMPTY, [])
    else
      var (s, told) := Run(steps[..|steps| - 1]);
      var (s', more) := Next(s, steps[|steps| - 1]);
      (s', told + more)
  }

  function After(steps: seq<Step>): State { Run(steps).0 }

  function Told(steps: seq<Step>): seq<Notification> { Run(steps).1 }

  /** All chunks of one message, one after the other. */
  function ConvertedAll(s: State, content: seq<Chunk>, settings: Settings): (State, seq<Notification>) {
    if content == [] then (s, [])
    else
      var (s', told) := ConvertedAll(s, content[..|content| - 1], settings);
      var (s'', more) := Converted(s', content[|content| - 1], settings);
      (s'', told + more)
  }

  class ToolNotifier {
    var toolUseCache: map<string, string>
    var callbacks: set<string>

    constructor ()
      ensures Current() == EMPTY
    {
      toolUseCache, callbacks := map[], {};
    }

    function Current(): State
      reads this
    {
      State(toolUseCache, callbacks)
    }

    method HandleToolUse(c: Chunk, settings: Settings) returns (update: seq<Notification>)
      requires c.ToolUse?
      modifies this
      ensures (Current(), update) == Used(old(Current()), c, settings)
    {
      var alreadyCached := c.id in toolUseCache;
      toolUseCache := toolUseCache[c.id := c.name];
      update := [];
      if c.name == "TodoWrite" {
        if c.hasTodos {
          update := [Plan];
        }
      } else if !IsTask(c.name) {
        if settings.registerHooks && !alreadyCached {
          callbacks := callbacks + {c.id};
        }
        update := if alreadyCached then [Refined(c.id, c.name)] else [ToolCall(c.id, c.name)];
      }
    }

    method HandleToolResult(c: Chunk, settings: Settings) returns (output: seq<Notification>)
      requires c.ToolResult?
      ensures output == Resulted(Current(), c, settings)
    {
      output := [];
      if c.id !in toolUseCache {
        return;
      }
      var name := toolUseCache[c.id];
      if IsTask(name) {
        if !c.isError && (name == "TaskCreate" || name == "TaskUpdate") {
          output := [Plan];
        }
      } else if name != "TodoWrite" {
        var exits := false;
        if ReportsTerminal(name, c, settings) {
          output := [TerminalOutput(c.id)];
          exits := true;
        }
        output := output + [Finished(c.id, name, c.isError, exits)];
      }
    }

    method ToAcpNotifications(content: seq<Chunk>, settings: Settings) returns (output: seq<Notification>)
      modifies this
      ensures (Current(), output) == ConvertedAll(old(Current()), content, settings)
    {
      output := [];
      for k := 0 to |content|
        invariant (Current(), output) == ConvertedAll(old(Current()), content[..k], settings)
      {
        assert content[..k + 1][..k] == content[..k];
        match content[k] {
          case Spoken => output := output + [Message];
          case ToolUse(_, _, _) =>
            var update := HandleToolUse(content[k], settings);
            output := output + update;
          case ToolResult(_, _, _) =>
            var updates := HandleToolResult(content[k], settings);
            output := output + updates;
          case Skipped =>
            assert output + [] == output;
        }
      }
      assert content[..|content|] == content;
    }

    method PostToolUse(id: string) returns (output: seq<Notification>)
      modifies this`callbacks
      ensures (Current(), output) == Hooked(old(Current()), id)
    {
      output := [];
      if id in callbacks && id in toolUseCache {
        output := [HookUpdate(id, toolUseCache[id])];
      }
      callbacks := callbacks - {id};
    }
  }

  /** A message's chunks are the same as one step for each. */
  lemma {:induction false} BatchesAreSteps(steps: seq<Step>, content: seq<Chunk>, settings: Settings)
    ensures var (s, told) := ConvertedAll(After(steps), content, settings);
            Run(steps + AsSteps(content, settings)) == (s, Told(steps) + told)
  {
    hide Converted;
    if content == [] {
      assert steps + [] == steps;
      assert Told(steps) + [] == Told(steps);
    } else {
      var before := content[..|content| - 1];
      var all := steps + AsSteps(content, settings);
      BatchesAreSteps(steps, before, settings);
      assert all[..|all| - 1] == steps + AsSteps(before, settings);
      var (s, told) := ConvertedAll(After(steps), before, settings);
      var more := Converted(s, content[|content| - 1], settings).1;
      assert (Told(steps) + told) + more == Told(steps) + (told + more);
    }
  }

  function AsSteps(content: seq<Chunk>, settings: Settings): (r: seq<Step>)
    ensures |r| == |content|
  {
    if content == [] then [] else AsSteps(content[..|content| - 1], settings) + [Chunked(content[|content| - 1], settings)]
  }

  // ---- The history of a tool ----

  predicate UsesTool(step: Step, id: string) {
    step.Chunked? && step.chunk.ToolUse? && step.chunk.id == id
  }

  /** The name under which a tool was seen first. */
  function FirstName(steps: seq<Step>, id: string): Option<string> {
    if steps == [] then None
    else if FirstName(steps[..|steps| - 1], id).Some? then FirstName(steps[..|steps| - 1], id)
    else if UsesTool(steps[|steps| - 1], id) then Some(steps[|steps| - 1].chunk.name)
    else None
  }

  function LastName(steps: seq<Step>, id: string): Option<string> {
    if steps == [] then None
    else if UsesTool(steps[|steps| - 1], id) then Some(steps[|steps| - 1].chunk.name)
    else LastName(steps[..|steps| - 1], id)
  }

  predicate StartsShown(steps: seq<Step>, id: string) {
    FirstName(steps, id).Some? && IsShown(FirstName(steps, id).value)
  }

  predicate IsUpdate(n: Notification, id: string) {
    match n
    case Refined(i, _) => i == id
    case TerminalOutput(i) => i == id
    case Finished(i, _, _, _) => i == id
    case HookUpdate(i, _) => i == id
    case _ => false
  }

  predicate IsCall(n: Notification, id: string) {
    n.ToolCall? && n.id == id
  }

  predicate IsHook(n: Notification, id: string) {
    n.HookUpdate? && n.id == id
  }

  function Calls(told: seq<Notification>, id: string): nat {
    if told == [] then 0 else Calls(told[..|told| - 1], id) + if IsCall(told[|told| - 1], id) then 1 else 0
  }

  function Hooks(told: seq<Notification>, id: string): nat {
    if told == [] then 0 else Hooks(told[..|told| - 1], id) + if IsHook(told[|told| - 1], id) then 1 else 0
  }

  /** Every update of a tool comes after the tool's call. */
  predicate UpdatesFollowCall(told: seq<Notification>, id: string) {
    forall p :: 0 <= p < |told| && IsUpdate(told[p], id) ==> Calls(told[..p], id) > 0
  }

  predicate Mentions(told: seq<Notification>, id: string) {
    exists p :: 0 <= p < |told| && (IsUpdate(told[p], id) || IsCall(told[p], id))
  }

  lemma {:induction false} CallsAppend(a: seq<Notification>, b: seq<Notification>, id: string)
    ensures Calls(a + b, id) == Calls(a, id) + Calls(b, id)
  {
    if b == [] {
      assert a + b == a;
    } else {
      assert (a + b)[..|a + b| - 1] == a + b[..|b| - 1];
      CallsAppend(a, b[..|b| - 1], id);
    }
  }

  lemma {:induction false} HooksAppend(a: seq<Notification>, b: seq<Notification>, id: string)
    ensures Hooks(a + b, id) == Hooks(a, id) + Hooks(b, id)
  {
    if b == [] {
      assert a + b == a;
    } else {
      assert (a + b)[..|a + b| - 1] == a + b[..|b| - 1];
      HooksAppend(a, b[..|b| - 1], id);
    }
  }

  lemma FollowsAppend(a: seq<Notification>, b: seq<Notification>, id: string)
    requires UpdatesFollowCall(a, id)
    requires Calls(a, id) > 0 || forall p :: 0 <= p < |b| ==> !IsUpdate(b[p], id)
    ensures UpdatesFollowCall(a + b, id)
  {
    forall p | 0 <= p < |a + b| && IsUpdate((a + b)[p], id)
      ensures Calls((a + b)[..p], id) > 0
    {
      if p < |a| {
        assert (a + b)[..p] == a[..p];
      } else {
        assert (a + b)[..p] == a + b[..p - |a|];
        CallsAppend(a, b[..p - |a|], id);
      }
    }
  }

  lemma CountsOfFew(more: seq<Notification>, id: string)
    requires |more| <= 2
    ensures Calls(more, id) == (if |more| > 0 && IsCall(more[0], id) then 1 else 0) + (if |more| > 1 && IsCall(more[1], id) then 1 else 0)
    ensures Hooks(more, id) == (if |more| > 0 && IsHook(more[0], id) then 1 else 0) + (if |more| > 1 && IsHook(more[1], id) then 1 else 0)
  {
    if |more| == 1 {
      assert more == [] + [more[0]] && more[..0] == [];
    } else if |more| == 2 {
      var one := [more[0]];
      assert more[..1] == one && one[..0] == [];
      assert Calls(one, id) == if IsCall(more[0], id) then 1 else 0;
      assert Hooks(one, id) == if IsHook(more[0], id) then 1 else 0;
    }
  }

  /** At most two notifications come of a step; which are about `id`. */
  lemma CountsOfStep(s: State, step: Step, id: string)
    ensures var more := Next(s, step).1;
            && Calls(more, id) == (if UsesTool(step, id) && id !in s.cache && IsShown(step.chunk.name) then 1 else 0)
            && Hooks(more, id) == (if step == ToolRan(id) && id in s.hooks && id in s.cache then 1 else 0)
            && (id !in s.cache ==> forall p :: 0 <= p < |more| ==> !IsUpdate(more[p], id))
  {
    hide Calls, Hooks;
    var more := Next(s, step).1;
    CountsOfFew(more, id);
  }

  // ---- What every run keeps ----

  ghost predicate CacheInv(s: State, first: Option<string>, last: Option<string>, id: string) {
    (if id in s.cache then first.Some? && last == Some(s.cache[id]) else first.None? && last.None? && id !in s.hooks)
  }

  ghost predicate ToldInv(s: State, told: seq<Notification>, first: Option<string>, id: string) {
    && Calls(told, id) == (if first.Some? && IsShown(first.value) then 1 else 0)
    && Hooks(told, id) <= (if id in s.hooks then 0 else 1)
    && (id in s.hooks || Hooks(told, id) == 1 ==> Calls(told, id) == 1)
    && (Calls(told, id) > 0 ==> UpdatesFollowCall(told, id))
    && (first.None? ==> forall p :: 0 <= p < |told| ==> !IsUpdate(told[p], id))
  }

  function FirstAfter(first: Option<string>, step: Step, id: string): Option<string> {
    if first.None? && UsesTool(step, id) then Some(step.chunk.name) else first
  }

  function LastAfter(last: Option<string>, step: Step, id: string): Option<string> {
    if UsesTool(step, id) then Some(step.chunk.name) else last
  }

  lemma StepKeepsCache(s: State, first: Option<string>, last: Option<string>, step: Step, id: string)
    requires CacheInv(s, first, last, id)
    ensures CacheInv(Next(s, step).0, FirstAfter(first, step, id), LastAfter(last, step, id), id)
  {
  }

  /** A hook is only registered together with the tool's call, and runs once. */
  lemma StepKeepsHooks(s: State, step: Step, id: string)
    ensures id in Next(s, step).0.hooks ==>
              step != ToolRan(id) && (id in s.hooks || (UsesTool(step, id) && id !in s.cache && IsShown(step.chunk.name)))
  {
  }

  lemma StepKeepsTold(s: State, told: seq<Notification>, first: Option<string>, last: Option<string>, step: Step, id: string)
    requires CacheInv(s, first, last, id) && ToldInv(s, told, first, id)
    ensures ToldInv(Next(s, step).0, told + Next(s, step).1, FirstAfter(first, step, id), id)
  {
    hide Next, Calls, Hooks, IsUpdate, IsCall, IsHook, IsShown, UpdatesFollowCall;
    var more := Next(s, step).1;
    CountsOfStep(s, step, id);
    StepKeepsHooks(s, step, id);
    CallsAppend(told, more, id);
    HooksAppend(told, more, id);
    if Calls(told, id) > 0 {
      FollowsAppend(told, more, id);
    } else if first.None? {
      NothingFollows(told, id);
      FollowsAppend(told, more, id);
    }
  }

  lemma NothingFollows(told: seq<Notification>, id: string)
    requires forall p :: 0 <= p < |told| ==> !IsUpdate(told[p], id)
    ensures UpdatesFollowCall(told, id)
  {
    hide IsUpdate;
  }

  lemma {:induction false} EveryRun(steps: seq<Step>, id: string)
    ensures CacheInv(After(steps), FirstName(steps, id), LastName(steps, id), id)
    ensures ToldInv(After(steps), Told(steps), FirstName(steps, id), id)
  {
    hide Next, CacheInv, ToldInv;
    if steps != [] {
      var before, step := steps[..|steps| - 1], steps[|steps| - 1];
      EveryRun(before, id);
      StepKeepsCache(After(before), FirstName(before, id), LastName(before, id), step, id);
      StepKeepsTold(After(before), Told(before), FirstName(before, id), LastName(before, id), step, id);
    } else {
      EmptyRun(id);
    }
  }

  lemma EmptyRun(id: string)
    ensures CacheInv(EMPTY, None, None, id) && ToldInv(EMPTY, [], None, id)
  {
  }

  /** A tool gets its one call exactly when the name it was first seen under is shown; otherwise it
      never gets one. */
  lemma OneCallPerTool(steps: seq<Step>, id: string)
    ensures Calls(Told(steps), id) == if StartsShown(steps, id) then 1 else 0
  {
    hide Told, After, Calls, Hooks, IsShown;
    EveryRun(steps, id);
  }

  /** Every update of a tool that starts shown comes after its call. */
  lemma CallComesFirst(steps: seq<Step>, id: string)
    requires StartsShown(steps, id)
    ensures UpdatesFollowCall(Told(steps), id)
  {
    hide Told, After, Hooks, UpdatesFollowCall, IsShown, Calls;
    EveryRun(steps, id);
  }

  lemma {:induction false} NoCallsNoCall(told: seq<Notification>, id: string)
    requires Calls(told, id) == 0
    ensures forall p :: 0 <= p < |told| ==> !IsCall(told[p], id)
  {
    if told != [] { NoCallsNoCall(told[..|told| - 1], id); }
  }

  /** Results and hooks of a tool that never appeared are dropped. */
  lemma UnseenToolsAreSilent(steps: seq<Step>, id: string)
    requires FirstName(steps, id).None?
    ensures !Mentions(Told(steps), id)
  {
    hide Told, After, Hooks, IsShown, IsUpdate, IsCall;
    EveryRun(steps, id);
    NoCallsNoCall(Told(steps), id);
  }

  ghost predicate AlwaysHidden(steps: seq<Step>, id: string) {
    forall k :: 0 <= k < |steps| && UsesTool(steps[k], id) ==> !IsShown(steps[k].chunk.name)
  }

  lemma {:induction false} HiddenNames(steps: seq<Step>, id: string)
    requires AlwaysHidden(steps, id)
    ensures !StartsShown(steps, id)
    ensures LastName(steps, id).Some? ==> !IsShown(LastName(steps, id).value)
  {
    hide IsShown, UsesTool;
    if steps != [] { HiddenNames(steps[..|steps| - 1], id); }
  }

  lemma HiddenStep(s: State, step: Step, id: string)
    requires id in s.cache ==> !IsShown(s.cache[id])
    requires UsesTool(step, id) ==> !IsShown(step.chunk.name)
    requires id !in s.hooks
    ensures forall p :: 0 <= p < |Next(s, step).1| ==> !IsUpdate(Next(s, step).1[p], id) && !IsCall(Next(s, step).1[p], id)
  {
  }

  /** A tool that only ever appears under hidden names has no notification at all. */
  lemma {:induction false} HiddenToolsAreSilent(steps: seq<Step>, id: string)
    requires AlwaysHidden(steps, id)
    ensures !Mentions(Told(steps), id)
  {
    hide Next, IsShown, UsesTool, Calls, Hooks, IsCall, IsUpdate, FirstName, LastName, UpdatesFollowCall;
    if steps != [] {
      var before, step := steps[..|steps| - 1], steps[|steps| - 1];
      HiddenToolsAreSilent(before, id);
      HiddenNames(before, id);
      EveryRun(before, id);
      HiddenStep(After(before), step, id);
    }
  }

  lemma ShownUseUpdates(s: State, step: Step, id: string)
    requires id in s.cache && UsesTool(step, id) && IsShown(step.chunk.name)
    ensures |Next(s, step).1| == 1 && IsUpdate(Next(s, step).1[0], id)
  {
  }

  /** A tool that starts hidden and is shown later is updated then, and that update has no call. */
  lemma {:induction false} ShownLaterHasNoCall(steps: seq<Step>, id: string)
    requires !StartsShown(steps, id) && !AlwaysHidden(steps, id)
    ensures exists p :: 0 <= p < |Told(steps)| && IsUpdate(Told(steps)[p], id)
  {
    hide Next, IsShown, UsesTool, Calls, Hooks, IsCall, IsUpdate, UpdatesFollowCall;
    var before, step := steps[..|steps| - 1], steps[|steps| - 1];
    if !AlwaysHidden(before, id) {
      ShownLaterHasNoCall(before, id);
      var p :| 0 <= p < |Told(before)| && IsUpdate(Told(before)[p], id);
      assert Told(steps)[p] == Told(before)[p];
    } else {
      EveryRun(before, id);
      ShownUseUpdates(After(before), step, id);
      assert Told(steps)[|Told(before)|] == Next(After(before), step).1[0];
    }
  }

  /** The exact law on the stream: a tool's updates all follow its call if and only if it first appears
      under a shown name or only ever appears under hidden ones. */
  lemma UpdatesFollowCallsExactly(steps: seq<Step>, id: string)
    ensures UpdatesFollowCall(Told(steps), id) <==> StartsShown(steps, id) || AlwaysHidden(steps, id)
  {
    hide Told, After, Hooks, IsShown, IsUpdate, StartsShown, AlwaysHidden, Calls;
    if StartsShown(steps, id) {
      CallComesFirst(steps, id);
    } else if AlwaysHidden(steps, id) {
      HiddenToolsAreSilent(steps, id);
    } else {
      ShownLaterHasNoCall(steps, id);
      OneCallPerTool(steps, id);
      var told := Told(steps);
      var p :| 0 <= p < |told| && IsUpdate(told[p], id);
      CallsAppend(told[..p], told[p..], id);
      assert told == told[..p] + told[p..];
    }
  }

  /** The hook reports at most once for each tool, and only for one with a call. */
  lemma HooksReportOnce(steps: seq<Step>, id: string)
    ensures Hooks(Told(steps), id) <= 1
    ensures Hooks(Told(steps), id) == 1 ==> StartsShown(steps, id)
  {
    hide Told, After, IsShown, IsUpdate, IsCall;
    EveryRun(steps, id);
  }

  // ---- Terminals ----

  /** A terminal's exit directly follows the terminal's output, and the output is never left alone. */
  predicate PairedAt(told: seq<Notification>, p: nat)
    requires p < |told|
  {
    && (told[p].Finished? && told[p].terminalExit ==> p > 0 && told[p - 1] == TerminalOutput(told[p].id))
    && (told[p].TerminalOutput? ==>
          p + 1 < |told| && told[p + 1].Finished? && told[p + 1].id == told[p].id && told[p + 1].terminalExit)
  }

  predicate TerminalsPaired(told: seq<Notification>) {
    forall p :: 0 <= p < |told| ==> PairedAt(told, p)
  }

  lemma StepPairsTerminals(s: State, step: Step)
    ensures TerminalsPaired(Next(s, step).1)
  {
  }

  lemma PairsAppend(a: seq<Notification>, b: seq<Notification>)
    requires TerminalsPaired(a) && TerminalsPaired(b)
    ensures TerminalsPaired(a + b)
  {
    forall p | 0 <= p < |a + b|
      ensures PairedAt(a + b, p)
    {
      if p < |a| { assert PairedAt(a, p); } else { assert PairedAt(b, p - |a|); }
    }
  }

  /** In every run. */
  lemma {:induction false} TerminalOutputComesRightBeforeExit(steps: seq<Step>)
    ensures TerminalsPaired(Told(steps))
  {
    hide Next, TerminalsPaired;
    if steps != [] {
      var before := steps[..|steps| - 1];
      TerminalOutputComesRightBeforeExit(before);
      StepPairsTerminals(After(before), steps[|steps| - 1]);
      PairsAppend(Told(before), Next(After(before), steps[|steps| - 1]).1);
    } else {
      NoTerminals();
    }
  }

  lemma NoTerminals()
    ensures TerminalsPaired([])
  {
  }

  // ---- A tool that changes its name ----

  /** When a tool first appears as a task and then under a shown name, its updates have no call. */
  lemma RenamedToolHasNoCall(id: string, settings: Settings)
    ensures var steps := [Chunked(ToolUse(id, "TaskGet", false), settings), Chunked(ToolUse(id, "Read", false), settings)];
            Told(steps) == [Refined(id, "Read")] && !UpdatesFollowCall(Told(steps), id)
  {
    var first := Chunked(ToolUse(id, "TaskGet", false), settings);
    var steps := [first, Chunked(ToolUse(id, "Read", false), settings)];
    assert steps[..1] == [first] && [first][..0] == [];
    assert Run([]) == (EMPTY, []);
    assert Run([first]).0 == State(map[id := "TaskGet"], {});
    assert Run([first]).1 == [];
    assert Calls(Told(steps)[..0], id) == 0;
    assert IsUpdate(Told(steps)[0], id);
  }
}
