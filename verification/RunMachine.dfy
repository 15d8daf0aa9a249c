/** The durable run protocol as a step system.

    `Step` is one atomic piece of the protocol: at most one append to the event log or one
    checkpoint write, with the in-memory updates up to the next suspension point. Model replies,
    tool batches, storage failures, aborts and clock readings are oracle values carried by the
    input, and a crash may be the next input in every phase. An input that does not fit the
    current phase leaves the state unchanged, so a run of the system is any sequence of inputs. */
module RunMachine {
  import opened Options
  import opened Cost
  import opened Events
  import opened ReplayHash

  datatype Config = Config(
    durable: bool, policy: Policy, prices: PriceTable, modelId: Option<string>,
    eager: set<string>, schema: bool, outputRetries: nat)

  /** Spend of the sub-agents, as accumulated in the shared tree budget. */
  datatype Spend = Spend(tokens: nat, usd: real)

  /** A model response together with the pricing facts about it. */
  datatype Reply = Reply(content: seq<Block>, usage: Usage, modelId: Option<string>, providerCost: Option<real>)

  datatype Verdict = Accepted(value: string) | Rejected(corrective: string)

  datatype Phase =
    | Idle
    | QueryUser(started: Event)
    | QuerySeed(started: Event, user: Event)
    | Redispatch(calls: seq<ToolUse>)
    | Appending(results: seq<CallResult>)
    | Head
    | Preflight
    | Calling
    | Replied(content: seq<Block>)
    | PostCheck(content: seq<Block>)
    | Dispatching(calls: seq<ToolUse>)
    | SuspendCheckpoint(callId: string)
    | AbortCheckpoint
    | Finish(result: Result)
    | TerminalCheckpoint(result: Result)

  /** Phases in which `runLoop` is alive and keeps a rolling hash. */
  predicate InLoop(p: Phase) {
    || p.Redispatch? || p.Appending? || p.Head? || p.Preflight? || p.Calling? || p.Replied?
    || p.PostCheck? || p.Dispatching? || p.SuspendCheckpoint? || p.AbortCheckpoint?
  }

  datatype Out = Note | Emit(result: Result)

  datatype Outcome = Running | Ended | Crashed

  /** The model window. `base` is what the messages were at the last rebuild or compaction, when
      the log had `at` events; `pristine` says that nothing rewrote the window since it was built
      from `prefix`. These four are history variables: no step reads them. */
  datatype Window = Window(
    messages: seq<Message>, injected: bool,
    prefix: seq<Message>, base: seq<Message>, at: nat, pristine: bool)

  /** Spend of this process; the history variable `base` says from which event usage is counted. */
  datatype Meter = Meter(usage: Usage, turn: nat, usd: Option<real>, child: Spend, base: nat)

  /** The rolling hash; the history variable `base` says from which event it is counted. */
  datatype Rolling = Rolling(hash: Hash, base: nat)

  /** The memory of one process. */
  datatype Live = Live(
    phase: Phase, outcome: Outcome, emitted: seq<Out>, nextSeq: nat, runId: nat, retries: nat,
    window: Window, meter: Meter, rolling: Rolling, loaded: set<string>)

  /** A written checkpoint; `at` and `base` are history: the log had `at` events, and the rolling
      hash was counted from event `base`. */
  datatype Written = Written(cp: Checkpoint, at: nat, base: nat)

  datatype State = State(log: Log, cps: seq<Written>, live: Live)

  datatype Input =
    | Crash
    | StartQuery(child: Spend, ok: bool)
    | Guarded(blocked: bool, text: string, ok: bool)
    | Seeded(prefix: seq<Message>)
    | StartResume(child: Spend, prefix: seq<Message>, blocked: bool, patch: Option<string>, verdict: Verdict)
    | Suspends(callId: string, ok: bool)
    | Dispatched(results: seq<CallResult>, child: Spend)
    | Persist(ok: bool)
    | Checkpointed(ok: bool)
    | AtHead(aborted: bool, compacted: Option<seq<Message>>, ok: bool)
    | Gate(injection: Option<string>, elapsedMs: nat)
    | ModelReply(reply: Reply, aborted: bool, blocked: bool, ok: bool)
    | ModelFails(partial: string, aborted: bool, limited: Option<Reply>, ok: bool)
    | AfterCall(elapsedMs: nat, verdict: Verdict, ok: bool)

  // ---- reconstruction from the log ------------------------------------------------------------------------------

  function EventCost(c: Config, m: Meta): Option<real> {
    if m.costUsd.Some? && m.costUsd.value >= 0.0 then m.costUsd
    else UsdFor(m.usage, c.prices, if m.modelId.Some? then m.modelId else c.modelId)
  }

  predicate CostsKnown(c: Config, log: Log) {
    forall k :: 0 <= k < |log| && Metered(log[k])
      ==> EventCost(c, log[k].meta.value).Some?
  }

  predicate HasPriced(c: Config, log: Log) {
    exists k :: 0 <= k < |log| && Metered(log[k])
      && EventCost(c, log[k].meta.value).Some?
  }

  function PricedSum(c: Config, log: Log): real {
    if log == [] then 0.0
    else
      var e := log[|log| - 1];
      var before := PricedSum(c, log[..|log| - 1]);
      if Metered(e) then before + EventCost(c, e.meta.value).GetOr(0.0) else before
  }

  function ResumedUsd(c: Config, log: Log): Option<real> {
    if CostsKnown(c, log) && HasPriced(c, log) then Some(PricedSum(c, log))
    else UsdFor(LogUsage(log), c.prices, c.modelId)
  }

  /** `lastCheckpoint`: the one with the highest sequence number, the newest among equals. */
  function LastCheckpoint(cps: seq<Written>): Option<Written> {
    if cps == [] then None
    else
      var before := LastCheckpoint(cps[..|cps| - 1]);
      var w := cps[|cps| - 1];
      if before.Some? && before.value.cp.seqNo > w.cp.seqNo then before else Some(w)
  }

  function HasUser(messages: seq<Message>): bool {
    exists k :: 0 <= k < |messages| && messages[k].FromUser?
  }

  function PatchLastUser(messages: seq<Message>, text: string): seq<Message> {
    if messages == [] then []
    else if messages[|messages| - 1].FromUser? then messages[..|messages| - 1] + [FromUser(text)]
    else PatchLastUser(messages[..|messages| - 1], text) + [messages[|messages| - 1]]
  }

  // ---- building blocks of the steps -----------------------------------------------------------------------------

  /** What one step does to durable storage, and the memory it leaves. */
  datatype Effect = Only(live: Live) | Appends(event: Event, live: Live) | Writes(written: Written, live: Live)

  function Apply(s: State, e: Effect): State {
    match e
    case Only(live) => s.(live := live)
    case Appends(event, live) => State(s.log + [event], s.cps, live)
    case Writes(written, live) => State(s.log, s.cps + [written], live)
  }

  function Append(l: Live, body: Body, meta: Option<Meta>): Effect {
    Appends(Event(l.nextSeq, body, meta), l.(nextSeq := l.nextSeq + 1))
  }

  /** Append, and chain the event onto the rolling hash. */
  function Record(l: Live, body: Body, meta: Option<Meta>): Effect {
    Append(l.(rolling := l.rolling.(hash := Chain(l.rolling.hash, body))), body, meta)
  }

  /** Record, and extend the window with what the event replays to. */
  function RecordMessage(l: Live, body: Body, meta: Option<Meta>): Effect {
    Record(Say(l, Replay(body)), body, meta)
  }

  function Say(l: Live, messages: seq<Message>): Live {
    l.(window := l.window.(messages := l.window.messages + messages))
  }

  function EndWith(l: Live, result: Result): Live {
    l.(phase := Idle, outcome := Ended, emitted := l.emitted + [Emit(result)])
  }

  function CrashOf(l: Live): Live {
    l.(phase := Idle, outcome := Crashed)
  }

  function Terminal(l: Live, subtype: Subtype, output: string): Result {
    Result(subtype, l.meter.usage, l.meter.turn, TreeUsd(l.meter.usd, l.meter.child.usd), output, None, None)
  }

  function SuspendedOn(l: Live, callId: string): Result {
    Terminal(l, Suspended, "").(callId := Some(callId))
  }

  function PersistenceFailed(l: Live): Result {
    Result(Error, l.meter.usage, l.meter.turn, None, "event persistence failed", None, None)
  }

  function TerminalFailed(r: Result): Result {
    Result(Error, r.usage, r.numTurns, r.usd, "terminal result persistence failed", None, None)
  }

  /** A failed append consumes a sequence number, and its error becomes the terminal. */
  function FailAppend(l: Live): Live {
    l.(nextSeq := l.nextSeq + 1, phase := Finish(PersistenceFailed(l)))
  }

  /** Writes a checkpoint when the run is durable. */
  function WriteCheckpoint(c: Config, log: Log, hash: Hash, base: nat, l: Live): Effect {
    if c.durable then Writes(Written(Checkpoint(l.nextSeq, hash), |log|, base), l) else Only(l)
  }

  /** Checkpoints the rolling hash and moves on; a throwing store ends the process. */
  function RollingCheckpoint(c: Config, s: State, ok: bool, next: Phase): Effect {
    if ok then WriteCheckpoint(c, s.log, s.live.rolling.hash, s.live.rolling.base, s.live.(phase := next))
    else Only(CrashOf(s.live))
  }

  predicate ResultsFor(results: seq<CallResult>, calls: seq<ToolUse>) {
    && |results| == |calls|
    && forall k :: 0 <= k < |calls| ==>
         results[k].callId == calls[k].callId && results[k].toolName == calls[k].name
  }

  predicate Distinct(calls: seq<ToolUse>) {
    forall j, k :: 0 <= j < k < |calls| ==> calls[j].callId != calls[k].callId
  }

  /** The assumption on model providers: call ids are new to the session. */
  predicate FreshCalls(log: Log, calls: seq<ToolUse>) {
    Distinct(calls) && Ids(calls) !! UseIds(log)
  }

  predicate Grows(a: Spend, b: Spend) {
    a.tokens <= b.tokens && a.usd <= b.usd
  }

  /** A fresh process memory for the session. */
  function Boot(c: Config, log: Log, child: Spend): Live {
    Live(Idle, Running, [Note], NextSeq(log), 0, 0, Window([], false, [], [], 0, false),
         Meter(ZeroUsage(), 0, UsdFor(ZeroUsage(), c.prices, c.modelId), child, 0), Rolling(Seed, 0), {})
  }

  /** `runLoop` is entered with a rebuilt window. */
  function EnterLoop(c: Config, log: Log, l: Live, prefix: seq<Message>, messages: seq<Message>, pristine: bool,
                     usage: Usage, usd: Option<real>, hash: Hash, hashBase: nat, usageBase: nat): Live {
    l.(window := if pristine then Window(messages, false, prefix, prefix, 0, true)
                 else Window(messages, false, prefix, messages, |log|, false),
       meter := Meter(usage, 0, if usd.Some? then usd else UsdFor(usage, c.prices, c.modelId),
                      l.meter.child, usageBase),
       rolling := Rolling(hash, hashBase), retries := c.outputRetries, loaded := LoadedNames(log, c.eager))
  }

  /** The abort subtype, if any, of a ceiling check in the current state. */
  function Ceiling(c: Config, m: Meter, elapsedMs: nat): Option<Subtype> {
    PreflightAbort(c.policy, Tokens(m.usage) + m.child.tokens, m.turn, elapsedMs, TreeUsd(m.usd, m.child.usd))
  }

  function ReplyModel(c: Config, r: Reply): Option<string> {
    if r.modelId.Some? then r.modelId else c.modelId
  }

  function ReplyCost(c: Config, r: Reply): Option<real> {
    CallUsd(r.providerCost, UsdFor(r.usage, c.prices, ReplyModel(c, r)))
  }

  /** Usage, money and turn after a response was received. */
  function Charge(c: Config, m: Meter, r: Reply): Meter {
    Meter(AddUsage(m.usage, r.usage), m.turn + 1, AddCost(m.usd, ReplyCost(c, r)), m.child, m.base)
  }

  /** Takes the per-turn reminder off the window again. */
  function DropInjection(w: Window): Window {
    if w.injected && w.messages != []
    then w.(messages := w.messages[..|w.messages| - 1], injected := false)
    else w
  }

  /** What a closed run re-emits; with an output schema a stored text-only success is validated. */
  function ReEmitted(c: Config, r: Result, verdict: Verdict): Result {
    if r.subtype.Success? && c.schema && r.structured.None? then
      match verdict
      case Accepted(value) => r.(structured := Some(value))
      case Rejected(why) => Result(Error, r.usage, r.numTurns, r.usd, why, None, None)
    else r
  }

  // ---- the steps, phase by phase --------------------------------------------------------------------------------

  function PlanQuery(c: Config, s: State, i: Input): Effect
    requires i.StartQuery?
  {
    var l := Boot(c, s.log, i.child);
    if i.ok then
      Append(l.(runId := l.nextSeq, phase := QueryUser(Event(l.nextSeq, RunStarted, None))), RunStarted, None)
    else Only(EndWith(l, PersistenceFailed(l)))
  }

  function PlanGuarded(c: Config, s: State, i: Input): Effect
    requires i.Guarded? && s.live.phase.QueryUser?
  {
    var l := s.live;
    if i.blocked then
      var usd := TreeUsd(UsdFor(ZeroUsage(), c.prices, c.modelId), l.meter.child.usd);
      Only(l.(phase := Finish(Result(Guardrail, ZeroUsage(), 0, usd, i.text, None, None))))
    else if i.ok then
      var user := Event(l.nextSeq, User(i.text), None);
      Append(l.(phase := QuerySeed(l.phase.started, user)), User(i.text), None)
    else Only(EndWith(l, PersistenceFailed(l)))
  }

  function PlanSeeded(c: Config, s: State, i: Input): Effect
    requires i.Seeded? && s.live.phase.QuerySeed?
  {
    var p := s.live.phase;
    var hash, base := Chain(Chain(Seed, p.started.body), p.user.body), LastRun(s.log);
    var l := EnterLoop(c, s.log, s.live, i.prefix, i.prefix + ReplayAll(s.log), true,
                       ZeroUsage(), None, hash, base, base);
    WriteCheckpoint(c, s.log, hash, base, l.(phase := Head))
  }

  /** The checkpoint a resumed run starts from. */
  function ResumePoint(c: Config, s: State): Option<Written> {
    if c.durable then LastCheckpoint(s.cps) else None
  }

  function ResumeFrom(c: Config, s: State): Hash {
    var last := ResumePoint(c, s);
    ResumeHash(if last.Some? then Some(last.value.cp) else None, s.log)
  }

  function ResumeBase(c: Config, s: State): nat {
    var last := ResumePoint(c, s);
    if last.Some? then last.value.base else 0
  }

  function PlanReopen(c: Config, s: State, i: Input, runId: nat): Live
    requires i.StartResume?
  {
    var rebuilt := i.prefix + ReplayAll(s.log);
    var patched := i.patch.Some? && HasUser(rebuilt);
    var messages := if patched then PatchLastUser(rebuilt, i.patch.value) else rebuilt;
    var l := EnterLoop(c, s.log, Boot(c, s.log, i.child).(runId := runId), i.prefix, messages, !patched,
                       LogUsage(s.log), ResumedUsd(c, s.log), ResumeFrom(c, s), ResumeBase(c, s), 0);
    if i.blocked then l.(phase := Finish(Terminal(l, Guardrail, "input blocked on resume")))
    else if PendingCalls(s.log) != [] then l.(phase := Redispatch(PendingCalls(s.log)))
    else l.(phase := Head)
  }

  function PlanResume(c: Config, s: State, i: Input): Effect
    requires i.StartResume?
  {
    var l := Boot(c, s.log, i.child);
    if s.log == [] then
      var usd := TreeUsd(UsdFor(ZeroUsage(), c.prices, c.modelId), i.child.usd);
      Only(EndWith(l, Result(Error, ZeroUsage(), 0, usd, "resume: session has no events", None, None)))
    else if CurrentRunId(s.log).None? then Only(s.live)
    else
      var runId := CurrentRunId(s.log).value;
      var stored := PersistedTerminal(s.log, runId);
      if stored.Some? && !stored.value.subtype.Suspended?
      then Only(EndWith(l, ReEmitted(c, stored.value, i.verdict)))
      else Only(PlanReopen(c, s, i, runId))
  }

  function PlanIdle(c: Config, s: State, i: Input): Effect {
    if i.StartQuery? && i.child.usd >= 0.0 then PlanQuery(c, s, i)
    else if i.StartResume? && i.child.usd >= 0.0 then PlanResume(c, s, i)
    else Only(s.live)
  }

  function PlanDispatch(s: State, i: Input): Effect
    requires s.live.phase.Redispatch? || s.live.phase.Dispatching?
  {
    var l := s.live;
    match i
    case Dispatched(results, child) =>
      Only(if ResultsFor(results, l.phase.calls) && Grows(l.meter.child, child)
           then l.(meter := l.meter.(child := child), phase := Appending(results)) else l)
    case Suspends(callId, ok) =>
      if callId !in Ids(l.phase.calls) then Only(l)
      else if l.phase.Redispatch? then Only(l.(phase := Finish(SuspendedOn(l, callId))))
      else if ok then Record(l.(phase := SuspendCheckpoint(callId)), Suspension(callId), None)
      else Only(FailAppend(l))
    case _ => Only(l)
  }

  function PlanAppending(c: Config, s: State, i: Input): Effect
    requires s.live.phase.Appending?
  {
    var l, results := s.live, s.live.phase.results;
    if i.Persist? && results != [] then
      if i.ok then
        RecordMessage(l.(loaded := l.loaded + LoadedBy(results[0]), phase := Appending(results[1..])),
                      ToolResult(results[0]), None)
      else Only(FailAppend(l))
    else if i.Checkpointed? && results == [] then RollingCheckpoint(c, s, i.ok, Head)
    else Only(l)
  }

  function PlanHead(s: State, i: Input): Effect
    requires i.AtHead?
  {
    var l := s.live;
    if i.aborted then Only(l.(phase := AbortCheckpoint))
    else if i.compacted.None? then Only(l.(phase := Preflight))
    else if i.ok then
      Record(l.(window := Window(i.compacted.value, false, l.window.prefix, i.compacted.value, |s.log| + 1, false),
                phase := Preflight), Compaction, None)
    else Only(FailAppend(l))
  }

  function PlanGate(c: Config, s: State, i: Input): Effect
    requires i.Gate?
  {
    var extra := if i.injection.Some? then [FromUser(i.injection.value)] else [];
    var w := s.live.window;
    var l := s.live.(window := w.(messages := w.messages + extra, injected := i.injection.Some?));
    var stop := Ceiling(c, l.meter, i.elapsedMs);
    Only(l.(phase := if stop.Some? then Finish(Terminal(l, stop.value, "")) else Calling))
  }

  function PlanReply(c: Config, s: State, i: Input): Effect
    requires i.ModelReply?
  {
    var r := i.reply;
    if !FreshCalls(s.log, Uses(r.content)) then Only(s.live)
    else
      var l := s.live.(meter := Charge(c, s.live.meter, r), window := DropInjection(s.live.window));
      if i.aborted then Only(l.(phase := AbortCheckpoint))
      else if Uses(r.content) == [] && i.blocked then
        Only(l.(phase := Finish(Terminal(l, Guardrail, "output blocked"))))
      else if !i.ok then Only(FailAppend(l))
      else
        RecordMessage(l.(phase := Replied(r.content)), Assistant(r.content, false),
                      Some(Meta(r.usage, ReplyModel(c, r), ReplyCost(c, r))))
  }

  function AfterFailure(c: Config, l: Live, i: Input): Live
    requires i.ModelFails?
  {
    if i.aborted then l.(phase := AbortCheckpoint)
    else
      var u := if i.limited.Some? then l.(meter := Charge(c, l.meter, i.limited.value)) else l;
      u.(phase := Finish(Terminal(u, Error, "model error")))
  }

  function PlanFails(c: Config, s: State, i: Input): Effect
    requires i.ModelFails?
  {
    if i.partial == "" then Only(AfterFailure(c, s.live, i))
    else if i.ok then Record(AfterFailure(c, s.live, i), Assistant([Text(i.partial)], true), None)
    else Only(FailAppend(s.live))
  }

  function PlanCalling(c: Config, s: State, i: Input): Effect {
    if i.ModelReply? then PlanReply(c, s, i)
    else if i.ModelFails? then PlanFails(c, s, i)
    else Only(s.live)
  }

  function PlanAfter(c: Config, s: State, i: Input): Effect
    requires i.AfterCall? && s.live.phase.PostCheck?
  {
    var l, calls := s.live, Uses(s.live.phase.content);
    var stop := Ceiling(c, l.meter, i.elapsedMs);
    if stop.Some? then Only(l.(phase := Finish(Terminal(l, stop.value, ""))))
    else if calls != [] then Only(l.(phase := Dispatching(calls)))
    else if !c.schema then Only(l.(phase := Finish(Terminal(l, Success, ""))))
    else
      match i.verdict
      case Accepted(value) => Only(l.(phase := Finish(Terminal(l, Success, "").(structured := Some(value)))))
      case Rejected(corrective) =>
        if l.retries == 0 then Only(l.(phase := Finish(Terminal(l, Error, corrective))))
        else
          var m := l.(retries := l.retries - 1);
          if i.ok then RecordMessage(m.(phase := Head), User(corrective), None) else Only(FailAppend(m))
  }

  /** `persistAndYieldTerminal`: the terminal is stored before it is emitted. */
  function PlanFinish(c: Config, s: State, i: Input): Effect
    requires i.Persist? && s.live.phase.Finish?
  {
    var l, r := s.live, s.live.phase.result;
    if !i.ok then Only(EndWith(l, TerminalFailed(r)))
    else Append(if c.durable then l.(phase := TerminalCheckpoint(r)) else EndWith(l, r),
                TerminalResult(l.runId, r), None)
  }

  function PlanCheckpoint(c: Config, s: State, i: Input): Effect
    requires i.Checkpointed?
  {
    var l := s.live;
    match l.phase
    case Replied(content) => RollingCheckpoint(c, s, i.ok, PostCheck(content))
    case SuspendCheckpoint(callId) => RollingCheckpoint(c, s, i.ok, Finish(SuspendedOn(l, callId)))
    case AbortCheckpoint => RollingCheckpoint(c, s, i.ok, Finish(Terminal(l, Aborted, "")))
    case TerminalCheckpoint(r) =>
      if i.ok then WriteCheckpoint(c, s.log, Replayed(s.log), 0, EndWith(l, r))
      else Only(EndWith(l, TerminalFailed(r)))
    case _ => Only(l)
  }

  function Plan(c: Config, s: State, i: Input): Effect {
    if i.Crash? then Only(if s.live.phase.Idle? then s.live else CrashOf(s.live))
    else
      match s.live.phase
      case Idle => PlanIdle(c, s, i)
      case QueryUser(_) => if i.Guarded? then PlanGuarded(c, s, i) else Only(s.live)
      case QuerySeed(_, _) => if i.Seeded? then PlanSeeded(c, s, i) else Only(s.live)
      case Redispatch(_) => PlanDispatch(s, i)
      case Dispatching(_) => PlanDispatch(s, i)
      case Appending(_) => PlanAppending(c, s, i)
      case Head => if i.AtHead? then PlanHead(s, i) else Only(s.live)
      case Preflight => if i.Gate? then PlanGate(c, s, i) else Only(s.live)
      case Calling => PlanCalling(c, s, i)
      case PostCheck(_) => if i.AfterCall? then PlanAfter(c, s, i) else Only(s.live)
      case Finish(_) => if i.Persist? then PlanFinish(c, s, i) else Only(s.live)
      case _ => if i.Checkpointed? then PlanCheckpoint(c, s, i) else Only(s.live)
  }

  function Step(c: Config, s: State, i: Input): State {
    Apply(s, Plan(c, s, i))
  }

  const NEW_SESSION := State([], [],
    Live(Idle, Running, [Note], 0, 0, 0, Window([], false, [], [], 0, false),
         Meter(ZeroUsage(), 0, None, Spend(0, 0.0), 0), Rolling(Seed, 0), {}))

  /** The state reached from a new session by a sequence of inputs. */
  function Run(c: Config, inputs: seq<Input>): State {
    if inputs == [] then NEW_SESSION
    else Step(c, Run(c, inputs[..|inputs| - 1]), inputs[|inputs| - 1])
  }

  lemma RunSnoc(c: Config, inputs: seq<Input>, i: Input)
    ensures Run(c, inputs + [i]) == Step(c, Run(c, inputs), i)
  {
    assert (inputs + [i])[..|inputs|] == inputs;
  }
}
