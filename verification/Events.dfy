/** The append-only event log of a session and the projections that are read back from it. */
module Events {
  import opened Options
  import opened Cost

  datatype ToolUse = ToolUse(callId: string, name: string, input: string)

  datatype Block = Text(text: string) | Use(tool: ToolUse)

  /** A tool's output; `loaded` is present when the output has `ok: true` and a list of names. */
  datatype Output = Output(json: string, loaded: Option<seq<string>>)

  datatype CallResult = CallResult(callId: string, toolName: string, output: Output)

  datatype Result = Result(
    subtype: Subtype, usage: Usage, numTurns: nat, usd: Option<real>,
    output: string, structured: Option<string>, callId: Option<string>)

  datatype Body =
    | RunStarted
    | User(text: string)
    | Assistant(content: seq<Block>, partial: bool)
    | ToolResult(result: CallResult)
    | Suspension(callId: string)
    | Compaction
    | TerminalResult(runId: nat, terminal: Result)

  datatype Meta = Meta(usage: Usage, modelId: Option<string>, costUsd: Option<real>)

  /** Sequence numbers are unique in a session, so they also serve as event ids. */
  datatype Event = Event(seqNo: nat, body: Body, meta: Option<Meta>)

  type Log = seq<Event>

  datatype Message =
    | System(text: string)
    | FromUser(text: string)
    | FromAssistant(content: seq<Block>)
    | FromTool(result: CallResult)

  function Uses(content: seq<Block>): seq<ToolUse> {
    if content == [] then []
    else if content[0].Use? then [content[0].tool] + Uses(content[1..])
    else Uses(content[1..])
  }

  function Ids(calls: seq<ToolUse>): set<string> {
    set k | 0 <= k < |calls| :: calls[k].callId
  }

  function UsesOf(b: Body): seq<ToolUse> {
    if b.Assistant? then Uses(b.content) else []
  }

  // ---- replay into the model window -----------------------------------------------------------------------------

  /** The message an event contributes to the window; audit and run-state markers contribute none. */
  function Replay(b: Body): seq<Message> {
    match b
    case User(text) => [FromUser(text)]
    case Assistant(content, _) => [FromAssistant(content)]
    case ToolResult(result) => [FromTool(result)]
    case _ => []
  }

  function ReplayAll(log: Log): seq<Message> {
    if log == [] then [] else ReplayAll(log[..|log| - 1]) + Replay(log[|log| - 1].body)
  }

  // ---- tool calls -----------------------------------------------------------------------------------------------

  function UseIds(log: Log): set<string> {
    if log == [] then {} else UseIds(log[..|log| - 1]) + Ids(UsesOf(log[|log| - 1].body))
  }

  function AnswerIds(log: Log): set<string> {
    if log == [] then {}
    else
      var b := log[|log| - 1].body;
      AnswerIds(log[..|log| - 1]) + if b.ToolResult? then {b.result.callId} else {}
  }

  /** Tool calls issued since the latest `run_started`. */
  function RunUseIds(log: Log): set<string> {
    if log == [] || log[|log| - 1].body.RunStarted? then {}
    else RunUseIds(log[..|log| - 1]) + Ids(UsesOf(log[|log| - 1].body))
  }

  /** The tool_use blocks of the last assistant event, whatever follows it. */
  function LastUses(log: Log): seq<ToolUse> {
    if log == [] then []
    else if log[|log| - 1].body.Assistant? then UsesOf(log[|log| - 1].body)
    else LastUses(log[..|log| - 1])
  }

  function Unanswered(calls: seq<ToolUse>, answered: set<string>): seq<ToolUse> {
    if calls == [] then []
    else if calls[0].callId in answered then Unanswered(calls[1..], answered)
    else [calls[0]] + Unanswered(calls[1..], answered)
  }

  /** What resumption dispatches again before it calls the model. */
  function PendingCalls(log: Log): seq<ToolUse> {
    Unanswered(LastUses(log), AnswerIds(log))
  }

  // ---- spend ----------------------------------------------------------------------------------------------------

  /** Assistant events that carry the usage of a model response; interrupted ones do not. */
  predicate Metered(e: Event) {
    e.body.Assistant? && e.meta.Some?
  }

  function Weight(e: Event): Usage {
    if Metered(e) then e.meta.value.usage else ZeroUsage()
  }

  function LogUsage(log: Log): Usage {
    if log == [] then ZeroUsage() else AddUsage(LogUsage(log[..|log| - 1]), Weight(log[|log| - 1]))
  }

  // ---- runs -----------------------------------------------------------------------------------------------------

  /** Index of the latest `run_started`, or 0 when there is none. */
  function LastRun(log: Log): (first: nat)
    ensures first <= |log|
  {
    if log == [] then 0
    else if log[|log| - 1].body.RunStarted? then |log| - 1
    else LastRun(log[..|log| - 1])
  }

  function CurrentRunId(log: Log): Option<nat> {
    if log == [] then None
    else if log[|log| - 1].body.RunStarted? then Some(log[|log| - 1].seqNo)
    else CurrentRunId(log[..|log| - 1])
  }

  /** The latest terminal result recorded for `runId`. */
  function PersistedTerminal(log: Log, runId: nat): Option<Result> {
    if log == [] then None
    else
      var b := log[|log| - 1].body;
      if b.TerminalResult? && b.runId == runId then Some(b.terminal)
      else PersistedTerminal(log[..|log| - 1], runId)
  }

  /** Exactly one query was ever started, and nothing precedes it. */
  ghost predicate OneQuery(log: Log) {
    && log != []
    && forall k :: 0 <= k < |log| ==> (log[k].body.RunStarted? <==> k == 0)
  }

  // ---- lazily loaded tools --------------------------------------------------------------------------------------

  function LoadedBy(result: CallResult): set<string> {
    if result.toolName == "load_tool" && result.output.loaded.Some?
    then set k | 0 <= k < |result.output.loaded.value| :: result.output.loaded.value[k]
    else {}
  }

  function LoadedNames(log: Log, eager: set<string>): set<string> {
    if log == [] then eager
    else
      var b := log[|log| - 1].body;
      LoadedNames(log[..|log| - 1], eager) + if b.ToolResult? then LoadedBy(b.result) else {}
  }
}
