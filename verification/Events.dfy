/** The events an agent session sends to the user interface. Payloads that no modelled code
    looks into are kept as opaque text. */
module Events {
  import opened Options

  const U64_MAX: nat := 0xFFFF_FFFF_FFFF_FFFF
  type U64 = n: nat | n <= U64_MAX

  datatype MessageRole = User | Assistant | System

  datatype TokenBreakdown = TokenBreakdown(
    input: Option<U64>, output: Option<U64>, cacheRead: Option<U64>,
    cacheWrite: Option<U64>, reasoning: Option<U64>, total: Option<U64>)

  datatype UsageScope = ContextSnapshot | TurnDelta | SessionTotal

  datatype UsageEvent = UsageEvent(
    scope: UsageScope, model: Option<string>, provider: Option<string>, agentCli: Option<string>,
    tokens: TokenBreakdown, contextUsed: Option<U64>)

  datatype ClientEvent =
    | SessionStarted(sessionId: string)
    | MessageChunk(role: MessageRole, content: string)
    | ContextCompactionStarted(message: string)
    | ContextCompacted(message: string)
    | ToolMessageChunk(id: string, content: string)
    | ToolStarted(id: string, parentId: Option<string>, name: string, kind: string, summary: string,
                  isSubagent: bool, rawInput: Option<string>)
    | ToolUpdated(id: string, parentId: Option<string>, newName: Option<string>, newKind: Option<string>,
                  newSummary: Option<string>, isSubagent: bool, rawInput: Option<string>,
                  rawOutput: Option<string>, terminalOutput: Option<string>, isPartial: bool)
    | ToolProgress(id: string, content: string)
    | ToolCompleted(id: string, newName: Option<string>, outcome: string, rawOutput: Option<string>,
                    terminalOutput: Option<string>)
    | ToolFailed(id: string, newName: Option<string>, reason: string, rawOutput: Option<string>,
                 terminalOutput: Option<string>)
    | ToolDiff(id: string, path: string, diff: string)
    | ToolDiffPreview(id: string, path: string, diff: string)
    | ToolPermissionRequest(id: string, name: string, options: seq<string>, details: Option<string>,
                            request: Option<string>)
    | ToolPermissionResolved(id: string, outcome: string)
    | ToolStopAvailability(id: string, canStop: bool, stopKind: Option<string>)
    | ToolStopped(id: string, outcome: string)
    | SessionConfigUpdated(modelLabels: seq<string>, body: string)
    | PromptCapabilitiesUpdated(body: string)
    | AvailableCommandsUpdated(body: string)
    | SessionTitleUpdated(title: string)
    | SessionConfigValueChanged(modelLabels: seq<string>, body: string)
    | PlanUpdated(body: string)
    | ThinkingActivity(active: bool)
    | ThinkingChunk(text: string)
    | UsageUpdated(usage: UsageEvent)
    | TurnFinished(stopReason: string)
    | Interrupted(reason: string)

  predicate IsTerminal(e: ClientEvent) {
    e.TurnFinished? || e.Interrupted?
  }
}
