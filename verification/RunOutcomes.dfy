/** What each answer makes of a run, told from the response, the results and the counters alone. */
module RunOutcomes {
  import opened Options
  import opened Cost
  import opened Events
  import opened ReplayHash
  import opened RunMachine
  import EventLaws
  import Picking
  import RunRebuild

  // ---- the figures ----------------------------------------------------------------------------------------------

  /** The money of a run and its sub-agents; there is no figure when the run has none and they spent none. */
  predicate TreeMoney(m: Meter, usd: Option<real>) {
    match usd
    case None => m.usd.None? && m.child.usd <= 0.0
    case Some(total) =>
      if m.usd.Some? then total == m.usd.value + m.child.usd else total == m.child.usd && total > 0.0
  }

  /** The first ceiling, if any, that the run and its sub-agents have reached. */
  ghost predicate StopsRun(c: Config, m: Meter, elapsedMs: nat, stop: Option<Subtype>) {
    forall usd :: TreeMoney(m, usd) ==>
      StopsAt(c.policy, stop, m.usage.inputTokens + m.usage.outputTokens + m.child.tokens, m.turn, elapsedMs, usd)
  }

  lemma StopsOnce(policy: Policy, a: Option<Subtype>, b: Option<Subtype>,
                  tokens: nat, turn: nat, elapsedMs: nat, usd: Option<real>)
    requires StopsAt(policy, a, tokens, turn, elapsedMs, usd) && StopsAt(policy, b, tokens, turn, elapsedMs, usd)
    ensures a == b
  {
  }

  lemma StopIsCeiling(c: Config, m: Meter, elapsedMs: nat, stop: Option<Subtype>)
    requires StopsRun(c, m, elapsedMs, stop)
    ensures stop == Ceiling(c, m, elapsedMs)
  {
    var usd, tokens := TreeUsd(m.usd, m.child.usd), m.usage.inputTokens + m.usage.outputTokens + m.child.tokens;
    assert TreeMoney(m, usd) && Tokens(m.usage) + m.child.tokens == tokens;
    PreflightStops(c.policy, tokens, m.turn, elapsedMs, usd);
    StopsOnce(c.policy, stop, PreflightAbort(c.policy, tokens, m.turn, elapsedMs, usd),
              tokens, m.turn, elapsedMs, usd);
  }

  /** There always is one verdict of the governor. */
  lemma CeilingStops(c: Config, m: Meter, elapsedMs: nat)
    ensures StopsRun(c, m, elapsedMs, Ceiling(c, m, elapsedMs))
  {
    var usd, tokens := TreeUsd(m.usd, m.child.usd), m.usage.inputTokens + m.usage.outputTokens + m.child.tokens;
    assert Tokens(m.usage) + m.child.tokens == tokens;
    PreflightStops(c.policy, tokens, m.turn, elapsedMs, usd);
  }

  /** What a response costs: the larger of the provider's figure, if valid, and tokens times rates, if its
      model has a price. */
  predicate Costs(c: Config, r: Reply, cost: Option<real>) {
    var table := RunRebuild.Dollared(c, r.usage, if r.modelId.Some? then r.modelId else c.modelId);
    var valid := r.providerCost.Some? && r.providerCost.value >= 0.0;
    if table.None? && !valid then cost.None?
    else
      && cost.Some?
      && (table.Some? ==> cost.value >= table.value) && (valid ==> cost.value >= r.providerCost.value)
      && ((table.Some? && cost == table) || (valid && cost == r.providerCost))
  }

  lemma ReplyCosts(c: Config, r: Reply)
    ensures Costs(c, r, ReplyCost(c, r))
  {
    var model := if r.modelId.Some? then r.modelId else c.modelId;
    TokensTimesRates(r.usage, c.prices, model);
    CallCosts(r.providerCost, UsdFor(r.usage, c.prices, model));
  }

  /** One more response on the meter. */
  ghost predicate Charged(c: Config, before: Meter, r: Reply, after: Meter) {
    && after.usage.inputTokens == before.usage.inputTokens + r.usage.inputTokens
    && after.usage.outputTokens == before.usage.outputTokens + r.usage.outputTokens
    && after.usage.cachedInputTokens == before.usage.cachedInputTokens + r.usage.cachedInputTokens
    && after.turn == before.turn + 1 && after.child == before.child && after.base == before.base
    && exists cost ::
         && Costs(c, r, cost)
         && after.usd == if cost.Some? then Some(before.usd.GetOr(0.0) + cost.value) else before.usd
  }

  lemma ChargeIsCharged(c: Config, m: Meter, r: Reply)
    ensures Charged(c, m, r, Charge(c, m, r))
  {
    ReplyCosts(c, r);
  }

  // ---- how a run goes on ----------------------------------------------------------------------------------------

  /** The run is about to end with this result, which reports what it has used; nothing else changes. */
  predicate EndsAs(before: Live, after: Live, subtype: Subtype) {
    && after.phase.Finish? && after == before.(phase := after.phase)
    && var r := after.phase.result;
       && r.subtype == subtype && r.usage == before.meter.usage && r.numTurns == before.meter.turn
       && TreeMoney(before.meter, r.usd)
  }

  /** A failed append uses up a sequence number, and the run ends without a figure of money. */
  predicate NotStored(before: Live, after: Live) {
    && after.phase.Finish?
    && after == before.(phase := after.phase, nextSeq := before.nextSeq + 1)
    && var r := after.phase.result;
       && r.subtype.Error? && r.usage == before.meter.usage && r.numTurns == before.meter.turn && r.usd.None?
       && r.output == "event persistence failed"
  }

  /** One event is stored under the next number and chained onto the rolling hash. */
  predicate Stored(s: State, t: State, body: Body, meta: Option<Meta>) {
    && t.log == s.log + [Event(s.live.nextSeq, body, meta)] && t.cps == s.cps
    && t.live.nextSeq == s.live.nextSeq + 1
    && t.live.rolling == Rolling(Chain(s.live.rolling.hash, body), s.live.rolling.base)
    && t.live.outcome == s.live.outcome && t.live.emitted == s.live.emitted && t.live.runId == s.live.runId
  }

  /** The window grows by these messages; when they were said is not rewritten. */
  predicate Says(before: Window, after: Window, messages: seq<Message>) {
    after == before.(messages := before.messages + messages)
  }

  // ---- the turn -------------------------------------------------------------------------------------------------

  /** Before a model call the reminder, if any, is said last; then the first ceiling that is reached ends the
      run, and otherwise the model is called. */
  lemma GateOutcome(c: Config, s: State, injection: Option<string>, elapsedMs: nat, stop: Option<Subtype>)
    requires s.live.phase.Preflight? && StopsRun(c, s.live.meter, elapsedMs, stop)
    ensures
      var t, l := Step(c, s, Gate(injection, elapsedMs)), s.live;
      && t.log == s.log && t.cps == s.cps
      && t.live.window.messages == l.window.messages + (if injection.Some? then [FromUser(injection.value)] else [])
      && (t.live.window.injected <==> injection.Some?)
      && var said := l.(window := l.window.(messages := t.live.window.messages, injected := t.live.window.injected));
         if stop.None? then t.live == said.(phase := Calling) else EndsAs(said, t.live, stop.value)
  {
    StopIsCeiling(c, s.live.meter, elapsedMs, stop);
  }

  /** Whether the response has a tool call. */
  predicate Calls(content: seq<Block>) {
    exists k :: 0 <= k < |content| && content[k].Use?
  }

  lemma CallsAreUses(content: seq<Block>)
    ensures Calls(content) <==> Uses(content) != []
  {
    EventLaws.UsesOfBlocks(content);
    var ks :| Picking.Picks(content, Uses(content), EventLaws.IsUse, EventLaws.Holds, ks);
    if k :| 0 <= k < |content| && content[k].Use? { assert EventLaws.IsUse(content[k]) && k in ks; }
    if Uses(content) != [] { assert EventLaws.IsUse(content[ks[0]]); }
  }

  /** After a response a ceiling that is now reached ends the run before anything else. Otherwise its calls are
      dispatched, in order; and without calls the run succeeds, unless its answer is to be validated. */
  lemma DecideOutcome(c: Config, s: State, elapsedMs: nat, verdict: Verdict, ok: bool, stop: Option<Subtype>)
    requires s.live.phase.PostCheck? && StopsRun(c, s.live.meter, elapsedMs, stop)
    ensures
      var t, l, content := Step(c, s, AfterCall(elapsedMs, verdict, ok)), s.live, s.live.phase.content;
      if stop.Some? then t.log == s.log && t.cps == s.cps && EndsAs(l, t.live, stop.value)
      else if Calls(content) then
        && t.log == s.log && t.cps == s.cps
        && t.live.phase.Dispatching? && t.live == l.(phase := t.live.phase)
        && Picking.Selects(content, t.live.phase.calls, EventLaws.IsUse, EventLaws.Holds)
      else if !c.schema then
        && t.log == s.log && t.cps == s.cps
        && EndsAs(l, t.live, Success) && t.live.phase.result.structured.None?
      else Validated(s, t, verdict, ok)
  {
    StopIsCeiling(c, s.live.meter, elapsedMs, stop);
    CallsAreUses(s.live.phase.content);
    EventLaws.UsesOfBlocks(s.live.phase.content);
  }

  /** An answer that fits the schema is the result. One that does not is sent back with what is wrong with it,
      as often as there are retries, and then ends the run. */
  predicate Validated(s: State, t: State, verdict: Verdict, ok: bool) {
    var l := s.live;
    match verdict
    case Accepted(value) =>
      && t.log == s.log && t.cps == s.cps
      && EndsAs(l, t.live, Success) && t.live.phase.result.structured == Some(value)
    case Rejected(why) =>
      if l.retries == 0 then
        t.log == s.log && t.cps == s.cps && EndsAs(l, t.live, Error) && t.live.phase.result.output == why
      else if ok then
        && Stored(s, t, User(why), None) && Says(l.window, t.live.window, [FromUser(why)])
        && t.live.phase.Head? && t.live.retries == l.retries - 1
        && t.live.meter == l.meter && t.live.loaded == l.loaded
      else t.log == s.log && t.cps == s.cps && NotStored(l.(retries := l.retries - 1), t.live)
  }

  /** What the window is without the reminder of the turn. */
  predicate Undone(before: Window, after: Window) {
    if before.injected && before.messages != [] then
      && !after.injected && |after.messages| == |before.messages| - 1 && after.messages < before.messages
      && after == before.(messages := after.messages, injected := false)
    else after == before
  }

  /** A response is charged whatever becomes of it, and the reminder is taken back. Then an abort ends the run;
      blocked output ends it, if there are no calls; else the response is stored with what it cost. */
  lemma ReplyOutcome(c: Config, s: State, r: Reply, aborted: bool, blocked: bool, ok: bool)
    requires s.live.phase.Calling? && FreshCalls(s.log, Uses(r.content))
    ensures
      var t, l := Step(c, s, ModelReply(r, aborted, blocked, ok)), s.live;
      && Charged(c, l.meter, r, t.live.meter)
      && exists w ::
           && Undone(l.window, w)
           && ReplyTaken(c, s, l.(meter := t.live.meter, window := w), t, r, aborted, blocked, ok)
  {
    ChargeIsCharged(c, s.live.meter, r);
    ReplyCosts(c, r);
    CallsAreUses(r.content);
    var w := DropInjection(s.live.window);
    var t := Step(c, s, ModelReply(r, aborted, blocked, ok));
    assert Undone(s.live.window, w);
    assert ReplyTaken(c, s, s.live.(meter := t.live.meter, window := w), t, r, aborted, blocked, ok);
  }

  ghost predicate ReplyTaken(c: Config, s: State, l: Live, t: State, r: Reply, aborted: bool, blocked: bool, ok: bool) {
    if aborted then t == s.(live := l.(phase := AbortCheckpoint))
    else if blocked && !Calls(r.content) then t.log == s.log && t.cps == s.cps && EndsAs(l, t.live, Guardrail)
    else if !ok then t.log == s.log && t.cps == s.cps && NotStored(l, t.live)
    else exists meta: Meta ::
      && Stored(s, t, Assistant(r.content, false), Some(meta))
      && meta.usage == r.usage && meta.modelId == (if r.modelId.Some? then r.modelId else c.modelId)
      && Costs(c, r, meta.costUsd)
      && Says(l.window, t.live.window, [FromAssistant(r.content)])
      && t.live.phase == Replied(r.content) && t.live.retries == l.retries && t.live.loaded == l.loaded
  }

  /** A call that failed: what was streamed is stored as a partial turn that has no usage; then an abort ends
      the run, or it ends with an error, and only a response over its limit is charged. */
  lemma FailOutcome(c: Config, s: State, partial: string, aborted: bool, limited: Option<Reply>, ok: bool)
    requires s.live.phase.Calling?
    ensures
      var t, l := Step(c, s, ModelFails(partial, aborted, limited, ok)), s.live;
      if partial != "" && !ok then t.log == s.log && t.cps == s.cps && NotStored(l, t.live)
      else
        && (if partial == "" then
              t.log == s.log && t.cps == s.cps && t.live.nextSeq == l.nextSeq && t.live.rolling == l.rolling
            else Stored(s, t, Assistant([Text(partial)], true), None))
        && t.live.window == l.window && t.live.retries == l.retries && t.live.loaded == l.loaded
        && (if !aborted && limited.Some? then Charged(c, l.meter, limited.value, t.live.meter)
            else t.live.meter == l.meter)
        && (if aborted then t.live.phase.AbortCheckpoint?
            else EndsAs(t.live, t.live, Error) && t.live.phase.result.output == "model error")
  {
    if limited.Some? { ChargeIsCharged(c, s.live.meter, limited.value); }
  }

  /** At the head of a turn an abort ends the run; a compacted window replaces the old one, once its event is
      stored; and nothing else touches the window. */
  lemma HeadOutcome(c: Config, s: State, aborted: bool, compacted: Option<seq<Message>>, ok: bool)
    requires s.live.phase.Head?
    ensures
      var t, l := Step(c, s, AtHead(aborted, compacted, ok)), s.live;
      if aborted then t == s.(live := l.(phase := AbortCheckpoint))
      else if compacted.None? then t == s.(live := l.(phase := Preflight))
      else if !ok then t.log == s.log && t.cps == s.cps && NotStored(l, t.live)
      else
        && Stored(s, t, Compaction, None) && t.live.phase.Preflight?
        && t.live.window.messages == compacted.value && !t.live.window.injected
        && t.live.meter == l.meter && t.live.retries == l.retries && t.live.loaded == l.loaded
  {
  }

  // ---- a batch --------------------------------------------------------------------------------------------------

  /** A batch is taken when it answers the calls one by one and in order, and the sub-agents' spend has not
      shrunk; it changes nothing but that spend. */
  lemma BatchOutcome(c: Config, s: State, results: seq<CallResult>, child: Spend)
    requires s.live.phase.Redispatch? || s.live.phase.Dispatching?
    ensures
      var t, l, calls := Step(c, s, Dispatched(results, child)), s.live, s.live.phase.calls;
      if && |results| == |calls|
         && (forall k :: 0 <= k < |calls| ==>
               results[k].callId == calls[k].callId && results[k].toolName == calls[k].name)
         && l.meter.child.tokens <= child.tokens && l.meter.child.usd <= child.usd
      then t == s.(live := l.(phase := Appending(results), meter := l.meter.(child := child)))
      else t == s
  {
  }

  /** A call of the batch suspends the run. A first dispatch stores that before the run ends; a repeated one
      finds it stored. */
  lemma SuspendOutcome(c: Config, s: State, callId: string, ok: bool)
    requires s.live.phase.Redispatch? || s.live.phase.Dispatching?
    ensures
      var t, l, calls := Step(c, s, Suspends(callId, ok)), s.live, s.live.phase.calls;
      if forall k :: 0 <= k < |calls| ==> calls[k].callId != callId then t == s
      else if l.phase.Redispatch? then
        && t.log == s.log && t.cps == s.cps
        && EndsAs(l, t.live, Suspended) && t.live.phase.result.callId == Some(callId)
      else if ok then
        && Stored(s, t, Suspension(callId), None) && t.live.phase == SuspendCheckpoint(callId)
        && t.live.window == l.window && t.live.meter == l.meter
        && t.live.retries == l.retries && t.live.loaded == l.loaded
      else t.log == s.log && t.cps == s.cps && NotStored(l, t.live)
  {
  }

  /** The results are stored first to last, each said to the model, and the tools that a `load_tool` result
      names are loaded from then on. */
  lemma ResultOutcome(c: Config, s: State, ok: bool)
    requires s.live.phase.Appending? && s.live.phase.results != []
    ensures
      var t, l, results := Step(c, s, Persist(ok)), s.live, s.live.phase.results;
      if ok then
        && Stored(s, t, ToolResult(results[0]), None) && Says(l.window, t.live.window, [FromTool(results[0])])
        && t.live.phase.Appending? && results == [results[0]] + t.live.phase.results
        && (forall name :: name in t.live.loaded <==>
              name in l.loaded || EventLaws.Loads(ToolResult(results[0]), name))
        && t.live.meter == l.meter && t.live.retries == l.retries
      else t.log == s.log && t.cps == s.cps && NotStored(l, t.live)
  {
    var first := s.live.phase.results[0];
    forall name ensures name in LoadedBy(first) <==> EventLaws.Loads(ToolResult(first), name) {
      EventLaws.NamesLoaded(first, name);
    }
  }

  // ---- checkpoints and the end ----------------------------------------------------------------------------------

  /** A checkpoint holds the next number and this hash. Without durability none is written, and a store that
      throws ends the process where it stands. */
  predicate Checkpoints(c: Config, s: State, t: State, hash: Hash, ok: bool) {
    && t.log == s.log
    && if ok && c.durable then
         && |t.cps| == |s.cps| + 1 && t.cps[..|s.cps|] == s.cps
         && t.cps[|s.cps|].cp == Checkpoint(s.live.nextSeq, hash)
       else t.cps == s.cps
  }

  /** After a batch, a response, a suspension or an abort the rolling hash is checkpointed, and the run goes on:
      to the head of the next turn, to the ceilings, or to its end as suspended or aborted. */
  lemma CheckpointOutcome(c: Config, s: State, ok: bool)
    requires
      var p := s.live.phase;
      (p.Appending? && p.results == []) || p.Replied? || p.SuspendCheckpoint? || p.AbortCheckpoint?
    ensures
      var t, l, p := Step(c, s, Checkpointed(ok)), s.live, s.live.phase;
      && Checkpoints(c, s, t, l.rolling.hash, ok)
      && if !ok then t.live == l.(phase := Idle, outcome := Crashed)
         else if p.Appending? then t.live == l.(phase := Head)
         else if p.Replied? then t.live == l.(phase := PostCheck(p.content))
         else if p.SuspendCheckpoint? then
           EndsAs(l, t.live, Suspended) && t.live.phase.result.callId == Some(p.callId)
         else EndsAs(l, t.live, Aborted)
  {
  }

  /** The result is stored under the run's id, and told: at once, or when the closing checkpoint is written. If
      either fails, an error with the same figures is told instead. */
  lemma EndOutcome(c: Config, s: State, ok: bool)
    requires s.live.phase.Finish?
    ensures
      var t, l, r := Step(c, s, Persist(ok)), s.live, s.live.phase.result;
      && t.cps == s.cps
      && if ok then
           && t.log == s.log + [Event(l.nextSeq, TerminalResult(l.runId, r), None)]
           && if c.durable then t.live == l.(phase := TerminalCheckpoint(r), nextSeq := l.nextSeq + 1)
              else Told(l.(nextSeq := l.nextSeq + 1), t.live, r)
         else t.log == s.log && exists told :: ToldAsFailed(r, told) && Told(l, t.live, told)
  {
    assert ToldAsFailed(s.live.phase.result, TerminalFailed(s.live.phase.result));
  }

  predicate Told(before: Live, after: Live, r: Result) {
    after == before.(phase := Idle, outcome := Ended, emitted := before.emitted + [Emit(r)])
  }

  predicate ToldAsFailed(r: Result, told: Result) {
    told == Result(Error, r.usage, r.numTurns, r.usd, "terminal result persistence failed", None, None)
  }

  lemma CloseOutcome(c: Config, s: State, ok: bool)
    requires s.live.phase.TerminalCheckpoint?
    ensures
      var t, l, r := Step(c, s, Checkpointed(ok)), s.live, s.live.phase.result;
      && Checkpoints(c, s, t, Replayed(s.log), ok)
      && if ok then Told(l, t.live, r) else exists told :: ToldAsFailed(r, told) && Told(l, t.live, told)
  {
    assert ToldAsFailed(s.live.phase.result, TerminalFailed(s.live.phase.result));
  }

  // ---- a new process --------------------------------------------------------------------------------------------

  /** Nothing is counted yet; with a price for the agent's own model the money is known to be zero. */
  predicate Fresh(c: Config, m: Meter, child: Spend) {
    && m.usage.inputTokens == m.usage.outputTokens == m.usage.cachedInputTokens == 0 && m.turn == 0
    && m.child == child
    && m.usd == if HasPrice(c.prices, c.modelId) then Some(0.0) else None
  }

  lemma NothingCosts(c: Config)
    ensures UsdFor(ZeroUsage(), c.prices, c.modelId)
         == if HasPrice(c.prices, c.modelId) then Some(0.0) else None
  {
    TokensTimesRates(ZeroUsage(), c.prices, c.modelId);
    if HasPrice(c.prices, c.modelId) { NoDollars(c.prices[c.modelId.value]); }
  }

  lemma NoDollars(p: Price)
    ensures Dollars(0, 0, 0, p) == 0.0
  {
    AMillion(p.input);
    AMillion(p.output);
    AMillion(if p.cachedInput.Some? then p.cachedInput.value else p.input);
  }

  /** The number after the last one in the log. */
  predicate Follows(log: Log, n: nat) {
    n == if log == [] then 0 else log[|log| - 1].seqNo + 1
  }

  /** The process told one thing after its note, and ended; nothing is stored. */
  predicate EndsAtOnce(s: State, t: State, r: Result) {
    && t.log == s.log && t.cps == s.cps
    && t.live.phase.Idle? && t.live.outcome.Ended? && t.live.emitted == [Note, Emit(r)]
  }

  /** A query takes the next number as its id, and stores that it starts, before anything else. */
  lemma QueryOutcome(c: Config, s: State, child: Spend, ok: bool)
    requires s.live.phase.Idle? && child.usd >= 0.0
    ensures
      var t := Step(c, s, StartQuery(child, ok));
      if ok then
        && t.cps == s.cps && |t.log| == |s.log| + 1 && t.log[..|s.log|] == s.log
        && var e := t.log[|s.log|];
           && Follows(s.log, e.seqNo) && e.body == RunStarted && e.meta.None?
           && t.live.runId == e.seqNo && t.live.nextSeq == e.seqNo + 1 && t.live.phase == QueryUser(e)
           && t.live.outcome.Running? && t.live.emitted == [Note] && Fresh(c, t.live.meter, child)
      else exists r: Result :: EndsAtOnce(s, t, r) && r.subtype.Error? && r.usd.None? && r.numTurns == 0
  {
    NothingCosts(c);
    var t := Step(c, s, StartQuery(child, ok));
    if !ok { assert EndsAtOnce(s, t, PersistenceFailed(Boot(c, s.log, child))); }
  }

  /** Blocked input ends the run as it is, with what blocked it; else the input is stored. */
  lemma GuardOutcome(c: Config, s: State, blocked: bool, text: string, ok: bool)
    requires s.live.phase.QueryUser?
    ensures
      var t, l := Step(c, s, Guarded(blocked, text, ok)), s.live;
      && t.cps == s.cps
      && if blocked then
           && t.log == s.log && t.live.phase.Finish? && t.live == l.(phase := t.live.phase)
           && t.live.phase.result.subtype.Guardrail? && t.live.phase.result.output == text
           && t.live.phase.result.numTurns == 0
         else if ok then
           var e := Event(l.nextSeq, User(text), None);
           t.log == s.log + [e] && t.live == l.(nextSeq := l.nextSeq + 1, phase := QuerySeed(l.phase.started, e))
         else t.log == s.log && exists r: Result :: r.subtype.Error? && r.usd.None? && Told(l, t.live, r)
  {
    assert PersistenceFailed(s.live).subtype.Error?;
  }

  /** The loop is entered with the conversation of the whole log after the prefix, a hash over the query's own
      two events, and the tools that are always loaded or were loaded in the session. */
  lemma SeedOutcome(c: Config, s: State, prefix: seq<Message>)
    requires s.live.phase.QuerySeed?
    ensures
      var t, l := Step(c, s, Seeded(prefix)), s.live;
      && Entered(c, s.log, t.live, prefix) && t.live.phase.Head?
      && t.live.nextSeq == l.nextSeq && t.live.runId == l.runId && t.live.emitted == l.emitted
      && t.live.rolling.hash == Chain(Chain(Seed, l.phase.started.body), l.phase.user.body)
      && Fresh(c, t.live.meter, l.meter.child)
      && Checkpoints(c, s, t, t.live.rolling.hash, true)
      && exists messages :: EventLaws.Conversation(s.log, messages) && t.live.window.messages == prefix + messages
  {
    NothingCosts(c);
    EnteredLoaded(c, s.log);
    EventLaws.ReplayIsConversation(s.log);
  }

  /** No reminder stands in the window, every retry is left, and the loaded tools are those of the session. */
  ghost predicate Entered(c: Config, log: Log, l: Live, prefix: seq<Message>) {
    && !l.window.injected && l.window.prefix == prefix && l.retries == c.outputRetries && l.meter.turn == 0
    && forall name :: name in l.loaded <==>
         name in c.eager || EventLaws.Somewhere(log, 0, EventLaws.Loads, name)
  }

  lemma EnteredLoaded(c: Config, log: Log)
    ensures forall name :: name in LoadedNames(log, c.eager) <==>
      name in c.eager || EventLaws.Somewhere(log, 0, EventLaws.Loads, name)
  {
    forall name ensures name in LoadedNames(log, c.eager) <==>
      name in c.eager || EventLaws.Somewhere(log, 0, EventLaws.Loads, name)
    {
      EventLaws.LoadedAre(log, c.eager, name);
    }
  }

  /** Without events there is nothing to resume, and without a started run nothing happens. */
  lemma NothingToResume(c: Config, s: State, i: Input)
    requires s.live.phase.Idle? && i.StartResume? && i.child.usd >= 0.0
    requires EventLaws.Never(s.log, EventLaws.IsStart)
    ensures
      var t := Step(c, s, i);
      if s.log == [] then exists r: Result :: EndsAtOnce(s, t, r) && r.subtype.Error? && r.numTurns == 0
      else t == s
  {
    EventLaws.LatestRun(s.log);
    if s.log == [] {
      var usd := TreeUsd(UsdFor(ZeroUsage(), c.prices, c.modelId), i.child.usd);
      var told := Result(Error, ZeroUsage(), 0, usd, "resume: session has no events", None, None);
      assert EndsAtOnce(s, Step(c, s, i), told);
    }
  }

  /** A run whose latest stored result is not a suspension is closed: that result is told again. A success
      without the structured output that a schema asks for is validated first. */
  lemma ClosedOutcome(c: Config, s: State, i: Input, first: nat, last: nat)
    requires s.live.phase.Idle? && i.StartResume? && i.child.usd >= 0.0
    requires EventLaws.Latest(s.log, first, EventLaws.IsStart)
    requires EventLaws.LatestTerminal(s.log, s.log[first].seqNo, last)
    requires !s.log[last].body.terminal.subtype.Suspended?
    ensures
      var t, r := Step(c, s, i), s.log[last].body.terminal;
      exists told: Result :: EndsAtOnce(s, t, told) &&
        if !r.subtype.Success? || !c.schema || r.structured.Some? then told == r
        else if i.verdict.Accepted? then told == r.(structured := Some(i.verdict.value))
        else told.subtype.Error? && told.output == i.verdict.corrective
             && told.usage == r.usage && told.numTurns == r.numTurns && told.usd == r.usd
  {
    EventLaws.LatestRun(s.log);
    LatestOnce(s.log, first, LastRun(s.log));
    EventLaws.TerminalIsLatest(s.log, s.log[first].seqNo, last);
    assert EndsAtOnce(s, Step(c, s, i), ReEmitted(c, s.log[last].body.terminal, i.verdict));
  }

  lemma LatestOnce(log: Log, j: nat, k: nat)
    requires EventLaws.Latest(log, j, EventLaws.IsStart) && EventLaws.Latest(log, k, EventLaws.IsStart)
    ensures j == k
  {
  }

  /** The prefix and the conversation, but for the newest user message when the guardrails rewrite it. */
  ghost predicate Patched(log: Log, prefix: seq<Message>, patch: Option<string>, messages: seq<Message>) {
    exists rebuilt: seq<Message> ::
      && (exists said :: EventLaws.Conversation(log, said) && rebuilt == prefix + said)
      && (patch.None? ==> messages == rebuilt)
      && ((forall j :: 0 <= j < |rebuilt| ==> !rebuilt[j].FromUser?) ==> messages == rebuilt)
      && (patch.Some? ==>
            forall k: nat :: RunRebuild.LastFromUser(rebuilt, k) ==> messages == rebuilt[k := FromUser(patch.value)])
  }

  lemma {:induction false} PatchedIs(messages: seq<Message>, text: string, k: nat)
    requires RunRebuild.LastFromUser(messages, k)
    ensures PatchLastUser(messages, text) == messages[k := FromUser(text)]
    decreases |messages|
  {
    var n: nat := |messages| - 1;
    var front := messages[..n];
    if k < n {
      assert RunRebuild.LastFromUser(front, k);
      PatchedIs(front, text, k);
    }
    assert messages == front + [messages[n]];
  }

  lemma PatchedWindow(log: Log, prefix: seq<Message>, patch: Option<string>, messages: seq<Message>)
    requires
      var rebuilt := prefix + ReplayAll(log);
      messages == if patch.Some? && HasUser(rebuilt) then PatchLastUser(rebuilt, patch.value) else rebuilt
    ensures Patched(log, prefix, patch, messages)
  {
    EventLaws.ReplayIsConversation(log);
    var rebuilt := prefix + ReplayAll(log);
    if patch.Some? {
      forall k: nat | RunRebuild.LastFromUser(rebuilt, k) ensures messages == rebuilt[k := FromUser(patch.value)] {
        PatchedIs(rebuilt, patch.value, k);
      }
    }
  }

  lemma ReopenedIs(c: Config, s: State, i: Input, first: nat)
    requires s.live.phase.Idle? && i.StartResume? && i.child.usd >= 0.0
    requires EventLaws.Latest(s.log, first, EventLaws.IsStart)
    requires forall k: nat :: EventLaws.LatestTerminal(s.log, s.log[first].seqNo, k) ==>
      s.log[k].body.terminal.subtype.Suspended?
    ensures Step(c, s, i) == s.(live := PlanReopen(c, s, i, s.log[first].seqNo))
  {
    EventLaws.LatestRun(s.log);
    LatestOnce(s.log, first, LastRun(s.log));
    var id := s.log[first].seqNo;
    if PersistedTerminal(s.log, id).Some? {
      var k := StoredTerminal(s.log, id);
      EventLaws.TerminalIsLatest(s.log, id, k);
    }
  }

  lemma {:induction false} StoredTerminal(log: Log, runId: nat) returns (k: nat)
    requires PersistedTerminal(log, runId).Some?
    ensures EventLaws.LatestTerminal(log, runId, k)
  {
    k := |log| - 1;
    if !(log[k].body.TerminalResult? && log[k].body.runId == runId) {
      var front := log[..k];
      var last := k;
      k := StoredTerminal(front, runId);
      assert front[k] == log[k] && forall j :: k < j < last ==> front[j] == log[j];
    }
  }

  /** What a resume restores of a run, whatever it does first. */
  ghost predicate Reopened(c: Config, log: Log, child: Spend, prefix: seq<Message>, patch: Option<string>,
                           first: nat, l: Live)
    requires first < |log|
  {
    && l.runId == log[first].seqNo && Follows(log, l.nextSeq) && l.outcome.Running? && l.emitted == [Note]
    && Entered(c, log, l, prefix) && l.meter.child == child
    && EventLaws.SumsUsage(log, l.meter.usage) && RunRebuild.Restores(c, log, l.meter.usage, l.meter.usd)
    && Patched(log, prefix, patch, l.window.messages)
  }

  lemma ReopenedLoop(c: Config, log: Log, child: Spend, prefix: seq<Message>, patch: Option<string>, first: nat,
                     messages: seq<Message>, pristine: bool, hash: Hash, base: nat, l: Live)
    requires first < |log| && l == Boot(c, log, child).(runId := log[first].seqNo)
    requires
      var rebuilt := prefix + ReplayAll(log);
      messages == if patch.Some? && HasUser(rebuilt) then PatchLastUser(rebuilt, patch.value) else rebuilt
    ensures Reopened(c, log, child, prefix, patch, first,
      EnterLoop(c, log, l, prefix, messages, pristine, LogUsage(log), ResumedUsd(c, log), hash, base, 0))
  {
    EventLaws.LogUsageSums(log);
    RunRebuild.ResumedUsdRestores(c, log);
    TokensTimesRates(LogUsage(log), c.prices, c.modelId);
    EnteredLoaded(c, log);
    PatchedWindow(log, prefix, patch, messages);
  }

  lemma WhateverFirst(c: Config, log: Log, child: Spend, prefix: seq<Message>, patch: Option<string>, first: nat,
                      l: Live, phase: Phase)
    requires first < |log| && Reopened(c, log, child, prefix, patch, first, l)
    ensures Reopened(c, log, child, prefix, patch, first, l.(phase := phase))
  {
  }

  /** The phase in which a reopened run goes on. */
  predicate GoesOn(phase: Phase, blocked: bool, pending: seq<ToolUse>) {
    if blocked then phase.Finish? && phase.result.subtype.Guardrail?
    else if pending == [] then phase.Head? else phase == Redispatch(pending)
  }

  lemma PlanReopens(c: Config, s: State, i: Input, first: nat)
    requires i.StartResume? && first < |s.log|
    ensures
      var l := PlanReopen(c, s, i, s.log[first].seqNo);
      && Reopened(c, s.log, i.child, i.prefix, i.patch, first, l)
      && GoesOn(l.phase, i.blocked, PendingCalls(s.log))
  {
    var rebuilt := i.prefix + ReplayAll(s.log);
    var patched := i.patch.Some? && HasUser(rebuilt);
    var messages := if patched then PatchLastUser(rebuilt, i.patch.value) else rebuilt;
    var booted := Boot(c, s.log, i.child).(runId := s.log[first].seqNo);
    ReopenedLoop(c, s.log, i.child, i.prefix, i.patch, first, messages, !patched,
                 ResumeFrom(c, s), ResumeBase(c, s), booted);
    var l := EnterLoop(c, s.log, booted, i.prefix, messages, !patched, LogUsage(s.log), ResumedUsd(c, s.log),
                       ResumeFrom(c, s), ResumeBase(c, s), 0);
    WhateverFirst(c, s.log, i.child, i.prefix, i.patch, first, l, PlanReopen(c, s, i, s.log[first].seqNo).phase);
  }

  /** Any other run is opened again under its id, with all that the log gives: the usage and the money of its
      responses, its conversation after the prefix, the newest user message as the guardrails now leave it, and
      the calls of its latest turn that no result answers, which are dispatched first. */
  lemma ReopenOutcome(c: Config, s: State, i: Input, first: nat)
    requires s.live.phase.Idle? && i.StartResume? && i.child.usd >= 0.0
    requires EventLaws.Latest(s.log, first, EventLaws.IsStart)
    requires forall k: nat :: EventLaws.LatestTerminal(s.log, s.log[first].seqNo, k) ==>
      s.log[k].body.terminal.subtype.Suspended?
    ensures
      var t := Step(c, s, i);
      && t.log == s.log && t.cps == s.cps && Reopened(c, s.log, i.child, i.prefix, i.patch, first, t.live)
      && exists pending :: EventLaws.Pending(s.log, pending) && GoesOn(t.live.phase, i.blocked, pending)
  {
    ReopenedIs(c, s, i, first);
    PlanReopens(c, s, i, first);
    EventLaws.PendingAre(s.log);
  }
}
