/** What `resumeTurn` reads back from the log: one loop for each thing it restores. */
module RunRebuild {
  import opened Options
  import opened Cost
  import opened Events
  import opened RunMachine
  import opened EventLaws
  import Picking

  /** The loop over `appendEventToMessages`. */
  method RebuildMessages(log: Log) returns (messages: seq<Message>)
    ensures messages == ReplayAll(log)
    ensures Conversation(log, messages)
  {
    messages := [];
    for k := 0 to |log|
      invariant messages == ReplayAll(log[..k])
    {
      assert log[..k + 1][..k] == log[..k];
      messages := messages + Replay(log[k].body);
    }
    assert log[..|log|] == log;
    ReplayIsConversation(log);
  }

  method PriorUsage(log: Log) returns (usage: Usage)
    ensures usage == LogUsage(log)
    ensures SumsUsage(log, usage)
  {
    usage := ZeroUsage();
    for k := 0 to |log|
      invariant usage == LogUsage(log[..k])
    {
      assert log[..k + 1][..k] == log[..k];
      if Metered(log[k]) { usage := AddUsage(usage, log[k].meta.value.usage); }
    }
    assert log[..|log|] == log;
    LogUsageSums(log);
  }

  lemma CostsSoFar(c: Config, log: Log, k: nat)
    requires k < |log|
    ensures CostsKnown(c, log[..k + 1])
      <==> CostsKnown(c, log[..k]) && (Metered(log[k]) ==> EventCost(c, log[k].meta.value).Some?)
    ensures HasPriced(c, log[..k + 1])
      <==> HasPriced(c, log[..k]) || (Metered(log[k]) && EventCost(c, log[k].meta.value).Some?)
    ensures PricedSum(c, log[..k + 1])
      == PricedSum(c, log[..k]) + if Metered(log[k]) then EventCost(c, log[k].meta.value).GetOr(0.0) else 0.0
  {
    var before, after := log[..k], log[..k + 1];
    assert after[..k] == before && after[k] == log[k];
    assert forall j :: 0 <= j < k ==> after[j] == before[j];
  }

  // ---- what a logged response cost --------------------------------------------------------------------------------

  function ModelOf(c: Config, m: Meta): Option<string> {
    if m.modelId.Some? then m.modelId else c.modelId
  }

  /** Tokens times rates, when the model has a price. */
  function Dollared(c: Config, u: Usage, modelId: Option<string>): Option<real> {
    if HasPrice(c.prices, modelId)
    then Some(Dollars(u.inputTokens - Cached(u), Cached(u), u.outputTokens, c.prices[modelId.value])) else None
  }

  /** The logged figure, or tokens times rates where there is no valid one. */
  function Figure(c: Config, m: Meta): Option<real> {
    if m.costUsd.Some? && m.costUsd.value >= 0.0 then m.costUsd else Dollared(c, m.usage, ModelOf(c, m))
  }

  ghost function CostsThis(c: Config): (Event, real) -> bool {
    (e: Event, usd: real) => e.meta.Some? && Figure(c, e.meta.value) == Some(usd)
  }

  function TotalUsd(costs: seq<real>): real {
    if costs == [] then 0.0 else TotalUsd(costs[..|costs| - 1]) + costs[|costs| - 1]
  }

  lemma TotalUsdSnoc(costs: seq<real>, usd: real)
    ensures TotalUsd(costs + [usd]) == TotalUsd(costs) + usd
  {
    assert (costs + [usd])[..|costs|] == costs;
  }

  ghost predicate CostsSum(c: Config, log: Log, costs: seq<real>, usd: real) {
    Picking.Selects(log, costs, Bears, CostsThis(c)) && TotalUsd(costs) == usd
  }

  /** The sum of what the responses cost that the log bears. */
  ghost predicate SumsUsd(c: Config, log: Log, usd: real) {
    exists costs :: CostsSum(c, log, costs, usd)
  }

  lemma FigureIsCost(c: Config, m: Meta)
    ensures EventCost(c, m) == Figure(c, m)
  {
    TokensTimesRates(m.usage, c.prices, ModelOf(c, m));
  }

  lemma OneMoreCost(c: Config, front: Log, e: Event, costs: seq<real>, a: real, usd: real, b: real)
    requires CostsSum(c, front, costs, a) && Bears(e) && Figure(c, e.meta.value) == Some(usd) && b == a + usd
    ensures CostsSum(c, front + [e], costs + [usd], b)
  {
    Picking.SelectsSnoc(front, costs, e, usd, Bears, CostsThis(c));
    TotalUsdSnoc(costs, usd);
  }

  lemma SumsUsdNext(c: Config, front: Log, e: Event, log: Log, a: real, b: real)
    requires SumsUsd(c, front, a) && log == front + [e]
    requires if Bears(e) then Figure(c, e.meta.value).Some? && b == a + Figure(c, e.meta.value).value else b == a
    ensures SumsUsd(c, log, b)
  {
    var costs :| CostsSum(c, front, costs, a);
    if Bears(e) {
      OneMoreCost(c, front, e, costs, a, Figure(c, e.meta.value).value, b);
    } else {
      Picking.SelectsSnoc(front, costs, e, 0.0, Bears, CostsThis(c));
      assert CostsSum(c, log, costs, b);
    }
  }

  lemma SumsUsdNone(c: Config, log: Log)
    requires log == []
    ensures SumsUsd(c, log, 0.0)
  {
    Picking.SelectsNone<Event, real>(log, [], Bears, CostsThis(c));
    assert CostsSum(c, log, [], 0.0);
  }

  lemma {:induction false} PricedSumSums(c: Config, log: Log)
    requires forall k :: 0 <= k < |log| && Bears(log[k]) ==> Figure(c, log[k].meta.value).Some?
    ensures SumsUsd(c, log, PricedSum(c, log))
  {
    if log == [] {
      SumsUsdNone(c, log);
    } else {
      var front, e := log[..|log| - 1], log[|log| - 1];
      assert forall k :: 0 <= k < |front| ==> front[k] == log[k];
      PricedSumSums(c, front);
      if Bears(e) { FigureIsCost(c, e.meta.value); }
      SumsUsdNext(c, front, e, log, PricedSum(c, front), PricedSum(c, log));
    }
  }

  /** The restored money. When the cost of every response in the log is known it is their sum; when some cost
      is not, or there is no response, all tokens are priced again at the rates of the agent's own model. */
  ghost predicate Restores(c: Config, log: Log, usage: Usage, usd: Option<real>) {
    if && (forall k :: 0 <= k < |log| && Bears(log[k]) ==> Figure(c, log[k].meta.value).Some?)
       && (exists k :: 0 <= k < |log| && Bears(log[k]))
    then usd.Some? && SumsUsd(c, log, usd.value)
    else usd == Dollared(c, usage, c.modelId)
  }

  lemma ResumedUsdRestores(c: Config, log: Log)
    ensures Restores(c, log, LogUsage(log), ResumedUsd(c, log))
  {
    forall k | 0 <= k < |log| && Bears(log[k])
      ensures EventCost(c, log[k].meta.value) == Figure(c, log[k].meta.value)
    {
      FigureIsCost(c, log[k].meta.value);
    }
    TokensTimesRates(LogUsage(log), c.prices, c.modelId);
    if CostsKnown(c, log) { PricedSumSums(c, log); }
  }

  /** Money is restored only when every logged cost is known; otherwise tokens are priced again. */
  method PriorUsd(c: Config, log: Log, usage: Usage) returns (usd: Option<real>)
    requires usage == LogUsage(log)
    ensures usd == ResumedUsd(c, log)
    ensures Restores(c, log, usage, usd)
  {
    ResumedUsdRestores(c, log);
    var sum, priced, known := 0.0, false, true;
    for k := 0 to |log|
      invariant sum == PricedSum(c, log[..k])
      invariant priced <==> HasPriced(c, log[..k])
      invariant known <==> CostsKnown(c, log[..k])
    {
      CostsSoFar(c, log, k);
      if Metered(log[k]) {
        var cost := EventCost(c, log[k].meta.value);
        if cost.None? { known := false; } else { priced, sum := true, sum + cost.value; }
      }
    }
    assert log[..|log|] == log;
    usd := if known && priced then Some(sum) else UsdFor(usage, c.prices, c.modelId);
  }

  method AnsweredCalls(log: Log) returns (answered: set<string>)
    ensures answered == AnswerIds(log)
    ensures forall id :: id in answered <==> Somewhere(log, 0, Answers, id)
  {
    answered := {};
    for k := 0 to |log|
      invariant answered == AnswerIds(log[..k])
    {
      assert log[..k + 1][..k] == log[..k];
      if log[k].body.ToolResult? { answered := answered + {log[k].body.result.callId}; }
    }
    assert log[..|log|] == log;
    forall id ensures id in AnswerIds(log) <==> Somewhere(log, 0, Answers, id) { AnswerIdsAre(log, id); }
  }

  lemma {:induction false} UnansweredSnoc(calls: seq<ToolUse>, call: ToolUse, answered: set<string>)
    ensures Unanswered(calls + [call], answered)
      == Unanswered(calls, answered) + if call.callId in answered then [] else [call]
  {
    if calls == [] {
      assert calls + [call] == [call];
    } else {
      assert (calls + [call])[1..] == calls[1..] + [call];
      UnansweredSnoc(calls[1..], call, answered);
    }
  }

  method DropAnswered(uses: seq<ToolUse>, answered: set<string>) returns (pending: seq<ToolUse>)
    ensures pending == Unanswered(uses, answered)
  {
    pending := [];
    for k := 0 to |uses|
      invariant pending == Unanswered(uses[..k], answered)
    {
      UnansweredSnoc(uses[..k], uses[k], answered);
      assert uses[..k] + [uses[k]] == uses[..k + 1];
      if uses[k].callId !in answered { pending := pending + [uses[k]]; }
    }
    assert uses[..|uses|] == uses;
  }

  /** The calls of the last assistant event that no tool result answers. */
  method FindPending(log: Log) returns (pending: seq<ToolUse>)
    ensures pending == PendingCalls(log)
    ensures Pending(log, pending)
  {
    PendingAre(log);
    pending := [];
    var n: nat := |log|;
    assert log[..n] == log;
    while n > 0 && !log[n - 1].body.Assistant?
      invariant n <= |log| && LastUses(log) == LastUses(log[..n])
    {
      assert log[..n][..n - 1] == log[..n - 1];
      n := n - 1;
    }
    if n == 0 { return; }
    var uses := Uses(log[n - 1].body.content);
    assert log[..n][n - 1] == log[n - 1];
    var answered := AnsweredCalls(log);
    pending := DropAnswered(uses, answered);
  }

  method FindRun(log: Log) returns (runId: Option<nat>)
    ensures runId == CurrentRunId(log)
    ensures runId.None? ==> Never(log, IsStart)
    ensures runId.Some? ==> exists k: nat :: Latest(log, k, IsStart) && runId == Some(log[k].seqNo)
  {
    LatestRun(log);
    var n: nat := |log|;
    assert log[..n] == log;
    while n > 0 && !log[n - 1].body.RunStarted?
      invariant n <= |log| && CurrentRunId(log) == CurrentRunId(log[..n])
    {
      assert log[..n][..n - 1] == log[..n - 1];
      n := n - 1;
    }
    return if n == 0 then None else Some(log[n - 1].seqNo);
  }

  method FindLastRun(log: Log) returns (at: nat)
    ensures at == LastRun(log)
    ensures Latest(log, at, IsStart) || (at == 0 && Never(log, IsStart))
  {
    LatestRun(log);
    at := |log|;
    assert log[..at] == log;
    while at > 0 && !log[at - 1].body.RunStarted?
      invariant at <= |log| && LastRun(log) == LastRun(log[..at])
    {
      assert log[..at][..at - 1] == log[..at - 1];
      at := at - 1;
    }
    if at > 0 { at := at - 1; }
  }

  lemma TerminalFound(log: Log, runId: nat)
    ensures forall k: nat :: LatestTerminal(log, runId, k) ==>
      PersistedTerminal(log, runId) == Some(log[k].body.terminal)
    ensures PersistedTerminal(log, runId).None?
       <==> forall k :: 0 <= k < |log| && log[k].body.TerminalResult? ==> log[k].body.runId != runId
  {
    forall k: nat | LatestTerminal(log, runId, k)
      ensures PersistedTerminal(log, runId) == Some(log[k].body.terminal)
    {
      TerminalIsLatest(log, runId, k);
    }
    if PersistedTerminal(log, runId).None? { NoneStored(log, runId); }
    else if forall k :: 0 <= k < |log| && log[k].body.TerminalResult? ==> log[k].body.runId != runId {
      NoTerminal(log, runId);
    }
  }

  lemma {:induction false} NoneStored(log: Log, runId: nat)
    requires PersistedTerminal(log, runId).None?
    ensures forall k :: 0 <= k < |log| && log[k].body.TerminalResult? ==> log[k].body.runId != runId
  {
    if log != [] {
      var front := log[..|log| - 1];
      NoneStored(front, runId);
      assert forall k :: 0 <= k < |front| ==> log[k] == front[k];
    }
  }

  method FindTerminal(log: Log, runId: nat) returns (stored: Option<Result>)
    ensures stored == PersistedTerminal(log, runId)
    ensures forall k: nat :: LatestTerminal(log, runId, k) ==> stored == Some(log[k].body.terminal)
    ensures stored.None? <==> forall k :: 0 <= k < |log| && log[k].body.TerminalResult? ==> log[k].body.runId != runId
  {
    stored := ScanTerminals(log, runId);
    TerminalFound(log, runId);
  }

  method ScanTerminals(log: Log, runId: nat) returns (stored: Option<Result>)
    ensures stored == PersistedTerminal(log, runId)
  {
    var n: nat := |log|;
    assert log[..n] == log;
    while n > 0
      invariant n <= |log| && PersistedTerminal(log, runId) == PersistedTerminal(log[..n], runId)
    {
      assert log[..n][..n - 1] == log[..n - 1];
      var body := log[n - 1].body;
      if body.TerminalResult? && body.runId == runId { return Some(body.terminal); }
      n := n - 1;
    }
    return None;
  }

  /** The newest user message of the window. */
  predicate LastFromUser(messages: seq<Message>, k: nat) {
    && k < |messages| && messages[k].FromUser?
    && forall j :: k < j < |messages| ==> !messages[j].FromUser?
  }

  /** The user message a guardrail rewrote, patched at its last index. */
  method PatchWindow(messages: seq<Message>, text: string) returns (patched: seq<Message>)
    ensures patched == if HasUser(messages) then PatchLastUser(messages, text) else messages
    ensures (forall j :: 0 <= j < |messages| ==> !messages[j].FromUser?) ==> patched == messages
    ensures forall k: nat :: LastFromUser(messages, k) ==> patched == messages[k := FromUser(text)]
  {
    var n: nat := |messages|;
    assert messages[..n] == messages && messages[n..] == [];
    while n > 0 && !messages[n - 1].FromUser?
      invariant n <= |messages| && (HasUser(messages) <==> HasUser(messages[..n]))
      invariant PatchLastUser(messages, text) == PatchLastUser(messages[..n], text) + messages[n..]
      invariant forall j :: n <= j < |messages| ==> !messages[j].FromUser?
    {
      PatchFurther(messages, text, n);
      n := n - 1;
    }
    if n == 0 { return messages; }
    assert messages[..n][n - 1] == messages[n - 1] && messages[..n][..n - 1] == messages[..n - 1];
    patched := messages[n - 1 := FromUser(text)];
    assert patched == messages[..n - 1] + [FromUser(text)] + messages[n..];
  }

  lemma PatchFurther(messages: seq<Message>, text: string, n: nat)
    requires 0 < n <= |messages| && !messages[n - 1].FromUser?
    ensures HasUser(messages[..n]) <==> HasUser(messages[..n - 1])
    ensures PatchLastUser(messages[..n], text) + messages[n..]
         == PatchLastUser(messages[..n - 1], text) + messages[n - 1..]
  {
    var longer, shorter := messages[..n], messages[..n - 1];
    assert longer[..n - 1] == shorter && messages[n - 1..] == [messages[n - 1]] + messages[n..];
    assert forall k :: 0 <= k < n - 1 ==> longer[k] == shorter[k];
  }

  /** No checkpoint has a higher sequence number, and none after `k` has the same. */
  predicate Highest(checkpoints: seq<Written>, k: nat) {
    && k < |checkpoints|
    && (forall j :: 0 <= j < k ==> checkpoints[j].cp.seqNo <= checkpoints[k].cp.seqNo)
    && (forall j :: k < j < |checkpoints| ==> checkpoints[j].cp.seqNo < checkpoints[k].cp.seqNo)
  }

  lemma {:induction false} LastIsHighest(checkpoints: seq<Written>) returns (k: nat)
    requires checkpoints != []
    ensures Highest(checkpoints, k) && LastCheckpoint(checkpoints) == Some(checkpoints[k])
  {
    var n := |checkpoints| - 1;
    k := n;
    if n > 0 {
      var j := LastIsHighest(checkpoints[..n]);
      assert forall i :: 0 <= i < n ==> checkpoints[..n][i] == checkpoints[i];
      if checkpoints[j].cp.seqNo > checkpoints[n].cp.seqNo { k := j; }
    }
  }

  /** The checkpoint with the highest sequence number, the newest among equals. */
  method LastWritten(checkpoints: seq<Written>) returns (last: Option<Written>)
    ensures last == LastCheckpoint(checkpoints)
    ensures last.None? <==> checkpoints == []
    ensures forall k: nat :: Highest(checkpoints, k) ==> last == Some(checkpoints[k])
  {
    if checkpoints != [] {
      ghost var highest := LastIsHighest(checkpoints);
      forall k: nat | Highest(checkpoints, k) ensures k == highest {}
    }
    last := None;
    for k := 0 to |checkpoints|
      invariant last == LastCheckpoint(checkpoints[..k])
    {
      assert checkpoints[..k + 1][..k] == checkpoints[..k];
      if last.None? || last.value.cp.seqNo <= checkpoints[k].cp.seqNo { last := Some(checkpoints[k]); }
    }
    assert checkpoints[..|checkpoints|] == checkpoints;
  }
}
