/** What is read back from the event log, said of the events themselves. */
module EventLaws {
  import opened Options
  import opened Cost
  import opened Events
  import Picking

  // ---- the conversation -------------------------------------------------------------------------------------------

  predicate Spoken(e: Event) {
    e.body.User? || e.body.Assistant? || e.body.ToolResult?
  }

  /** The message says what the event says, with the role that goes with its kind. */
  predicate Tells(e: Event, m: Message) {
    match m
    case System(_) => false
    case FromUser(text) => e.body == User(text)
    case FromAssistant(content) => e.body.Assistant? && e.body.content == content
    case FromTool(result) => e.body == ToolResult(result)
  }

  /** One message for each user, assistant and tool result event, in order, and for no other event. */
  ghost predicate Conversation(log: Log, messages: seq<Message>) {
    Picking.Selects(log, messages, Spoken, Tells)
  }

  lemma ConversationNone(log: Log)
    requires log == []
    ensures Conversation(log, [])
  {
    Picking.SelectsNone<Event, Message>(log, [], Spoken, Tells);
  }

  lemma ConversationSnoc(log: Log, messages: seq<Message>, e: Event)
    requires Conversation(log, messages)
    ensures Conversation(log + [e], messages + Replay(e.body))
  {
    if Spoken(e) {
      Picking.SelectsSnoc(log, messages, e, Replay(e.body)[0], Spoken, Tells);
      assert Replay(e.body) == [Replay(e.body)[0]];
    } else {
      Picking.SelectsSnoc(log, messages, e, System(""), Spoken, Tells);
      assert messages + [] == messages;
    }
  }

  lemma {:induction false} ReplayIsConversation(log: Log)
    ensures Conversation(log, ReplayAll(log))
  {
    if log == [] {
      ConversationNone(log);
    } else {
      var front, last := log[..|log| - 1], log[|log| - 1];
      ReplayIsConversation(front);
      ConversationSnoc(front, ReplayAll(front), last);
      assert log == front + [last];
    }
  }

  // ---- tool calls -------------------------------------------------------------------------------------------------

  predicate IsUse(b: Block) {
    b.Use?
  }

  predicate Holds(b: Block, call: ToolUse) {
    b == Use(call)
  }

  /** The calls of a response: its tool_use blocks, in order. */
  lemma {:induction false} UsesOfBlocks(content: seq<Block>)
    ensures Picking.Selects(content, Uses(content), IsUse, Holds)
  {
    if content == [] {
      Picking.SelectsNone<Block, ToolUse>(content, [], IsUse, Holds);
    } else {
      var b, rest := content[0], content[1..];
      UsesOfBlocks(rest);
      Picking.SelectsCons(b, if b.Use? then b.tool else ToolUse("", "", ""), rest, Uses(rest), IsUse, Holds);
      assert content == [b] + rest;
    }
  }

  /** The event is an assistant turn with a call of this id. */
  predicate Issues(b: Body, id: string) {
    b.Assistant? && exists j :: 0 <= j < |b.content| && b.content[j].Use? && b.content[j].tool.callId == id
  }

  predicate Answers(b: Body, id: string) {
    b.ToolResult? && b.result.callId == id
  }

  lemma IssuedIds(b: Body, id: string)
    ensures id in Ids(UsesOf(b)) <==> Issues(b, id)
  {
    if b.Assistant? {
      var content, calls := b.content, Uses(b.content);
      UsesOfBlocks(content);
      var ks :| Picking.Picks(content, calls, IsUse, Holds, ks);
      if j :| 0 <= j < |content| && content[j].Use? && content[j].tool.callId == id {
        assert IsUse(content[j]) && j in ks;
        var i :| 0 <= i < |ks| && ks[i] == j;
        assert Holds(content[j], calls[i]) && calls[i].callId == id;
      }
      if id in Ids(calls) {
        var i :| 0 <= i < |calls| && calls[i].callId == id;
        assert Holds(content[ks[i]], calls[i]);
      }
    }
  }

  /** Some event before `n` and not before `from` satisfies the test for `id`. */
  ghost predicate Somewhere(log: Log, from: nat, at: (Body, string) -> bool, id: string) {
    exists k :: from <= k < |log| && at(log[k].body, id)
  }

  lemma SomewhereSnoc(log: Log, from: nat, at: (Body, string) -> bool, id: string)
    requires log != [] && from < |log|
    ensures Somewhere(log, from, at, id)
       <==> Somewhere(log[..|log| - 1], from, at, id) || at(log[|log| - 1].body, id)
  {
    var front := log[..|log| - 1];
    if k :| from <= k < |log| && at(log[k].body, id) {
      if k < |front| { assert at(front[k].body, id); }
    }
    if k :| from <= k < |front| && at(front[k].body, id) { assert at(log[k].body, id); }
    if at(log[|log| - 1].body, id) { assert Somewhere(log, from, at, id); }
  }

  lemma {:induction false} UseIdsAre(log: Log, id: string)
    ensures id in UseIds(log) <==> Somewhere(log, 0, Issues, id)
  {
    if log != [] {
      UseIdsAre(log[..|log| - 1], id);
      IssuedIds(log[|log| - 1].body, id);
      SomewhereSnoc(log, 0, Issues, id);
    }
  }

  lemma {:induction false} AnswerIdsAre(log: Log, id: string)
    ensures id in AnswerIds(log) <==> Somewhere(log, 0, Answers, id)
  {
    if log != [] {
      AnswerIdsAre(log[..|log| - 1], id);
      SomewhereSnoc(log, 0, Answers, id);
    }
  }

  // ---- runs -------------------------------------------------------------------------------------------------------

  /** The latest event of a kind, if there is one. */
  ghost predicate Latest(log: Log, k: nat, kind: Body -> bool) {
    k < |log| && kind(log[k].body) && forall j :: k < j < |log| ==> !kind(log[j].body)
  }

  ghost predicate Never(log: Log, kind: Body -> bool) {
    forall j :: 0 <= j < |log| ==> !kind(log[j].body)
  }

  predicate IsStart(b: Body) {
    b.RunStarted?
  }

  predicate IsTurn(b: Body) {
    b.Assistant?
  }

  /** `LastRun` and `CurrentRunId` are about the latest started run. */
  lemma {:induction false} LatestRun(log: Log)
    ensures CurrentRunId(log).None? <==> Never(log, IsStart)
    ensures CurrentRunId(log).Some? ==>
      Latest(log, LastRun(log), IsStart) && CurrentRunId(log) == Some(log[LastRun(log)].seqNo)
    ensures CurrentRunId(log).None? ==> LastRun(log) == 0
  {
    if log != [] {
      var front := log[..|log| - 1];
      LatestRun(front);
      assert forall j :: 0 <= j < |front| ==> front[j] == log[j];
      if log[|log| - 1].body.RunStarted? { assert IsStart(log[|log| - 1].body); }
    }
  }

  lemma {:induction false} RunUseIdsAre(log: Log, id: string)
    ensures id in RunUseIds(log) <==> Somewhere(log, LastRun(log), Issues, id)
  {
    if log != [] {
      if log[|log| - 1].body.RunStarted? {
        assert !Issues(log[|log| - 1].body, id);
      } else {
        RunUseIdsAre(log[..|log| - 1], id);
        IssuedIds(log[|log| - 1].body, id);
        SomewhereSnoc(log, LastRun(log), Issues, id);
      }
    }
  }

  lemma {:induction false} LatestTurn(log: Log, k: nat)
    requires Latest(log, k, IsTurn)
    ensures LastUses(log) == Uses(log[k].body.content)
  {
    if k < |log| - 1 {
      var front := log[..|log| - 1];
      assert forall j :: 0 <= j < |front| ==> front[j] == log[j];
      assert !IsTurn(log[|log| - 1].body);
      LatestTurn(front, k);
    }
  }

  lemma {:induction false} NoTurn(log: Log)
    requires Never(log, IsTurn)
    ensures LastUses(log) == []
  {
    if log != [] {
      var front := log[..|log| - 1];
      assert forall j :: 0 <= j < |front| ==> front[j] == log[j];
      assert !IsTurn(log[|log| - 1].body);
      NoTurn(front);
    }
  }

  /** `k` holds the latest terminal that was stored for the run. */
  ghost predicate LatestTerminal(log: Log, runId: nat, k: nat) {
    && k < |log| && log[k].body.TerminalResult? && log[k].body.runId == runId
    && forall j :: k < j < |log| && log[j].body.TerminalResult? ==> log[j].body.runId != runId
  }

  lemma {:induction false} TerminalIsLatest(log: Log, runId: nat, k: nat)
    requires LatestTerminal(log, runId, k)
    ensures PersistedTerminal(log, runId) == Some(log[k].body.terminal)
  {
    if k < |log| - 1 {
      var front := log[..|log| - 1];
      assert forall j :: 0 <= j < |front| ==> front[j] == log[j];
      TerminalIsLatest(front, runId, k);
    }
  }

  lemma {:induction false} NoTerminal(log: Log, runId: nat)
    requires forall j :: 0 <= j < |log| && log[j].body.TerminalResult? ==> log[j].body.runId != runId
    ensures PersistedTerminal(log, runId).None?
  {
    if log != [] {
      var front := log[..|log| - 1];
      assert forall j :: 0 <= j < |front| ==> front[j] == log[j];
      NoTerminal(front, runId);
    }
  }

  // ---- pending calls ----------------------------------------------------------------------------------------------

  /** The calls without a result. */
  ghost function Unmet(log: Log): ToolUse -> bool {
    (call: ToolUse) => !Somewhere(log, 0, Answers, call.callId)
  }

  lemma {:induction false} UnansweredAre(log: Log, calls: seq<ToolUse>)
    ensures Picking.Selects(calls, Unanswered(calls, AnswerIds(log)), Unmet(log), Picking.Same)
  {
    if calls == [] {
      Picking.SelectsNone<ToolUse, ToolUse>(calls, [], Unmet(log), Picking.Same);
    } else {
      var call, rest := calls[0], calls[1..];
      UnansweredAre(log, rest);
      AnswerIdsAre(log, call.callId);
      Picking.SelectsCons(call, call, rest, Unanswered(rest, AnswerIds(log)), Unmet(log), Picking.Same);
      assert calls == [call] + rest;
    }
  }

  /** The pending calls are, in order, those of the latest assistant event without a result; without
      an assistant event there are none. */
  ghost predicate Pending(log: Log, pending: seq<ToolUse>) {
    && (Never(log, IsTurn) ==> pending == [])
    && forall k: nat :: Latest(log, k, IsTurn) ==>
         exists calls: seq<ToolUse> ::
           && Picking.Selects(log[k].body.content, calls, IsUse, Holds)
           && Picking.Selects(calls, pending, Unmet(log), Picking.Same)
  }

  lemma PendingAre(log: Log)
    ensures Pending(log, PendingCalls(log))
  {
    if Never(log, IsTurn) { NoTurn(log); }
    forall k: nat | Latest(log, k, IsTurn)
      ensures
        var calls := Uses(log[k].body.content);
        && Picking.Selects(log[k].body.content, calls, IsUse, Holds)
        && Picking.Selects(calls, PendingCalls(log), Unmet(log), Picking.Same)
    {
      LatestTurn(log, k);
      UsesOfBlocks(log[k].body.content);
      UnansweredAre(log, LastUses(log));
    }
  }

  // ---- loaded tools -----------------------------------------------------------------------------------------------

  /** A successful `load_tool` result that names the tool. */
  predicate Loads(b: Body, name: string) {
    && b.ToolResult? && b.result.toolName == "load_tool" && b.result.output.loaded.Some?
    && name in b.result.output.loaded.value
  }

  lemma NamesLoaded(result: CallResult, name: string)
    ensures name in LoadedBy(result) <==> Loads(ToolResult(result), name)
  {
    if Loads(ToolResult(result), name) {
      var k :| 0 <= k < |result.output.loaded.value| && result.output.loaded.value[k] == name;
    }
  }

  lemma {:induction false} LoadedAre(log: Log, eager: set<string>, name: string)
    ensures name in LoadedNames(log, eager) <==> name in eager || Somewhere(log, 0, Loads, name)
  {
    if log != [] {
      LoadedAre(log[..|log| - 1], eager, name);
      SomewhereSnoc(log, 0, Loads, name);
      var b := log[|log| - 1].body;
      if b.ToolResult? { NamesLoaded(b.result, name); }
    }
  }

  // ---- spend ------------------------------------------------------------------------------------------------------

  /** An assistant event that came with the usage of a response. */
  predicate Bears(e: Event) {
    e.body.Assistant? && e.meta.Some?
  }

  predicate BearsThis(e: Event, u: Usage) {
    e.meta.Some? && e.meta.value.usage == u
  }

  function InputOf(u: Usage): nat { u.inputTokens }

  function OutputOf(u: Usage): nat { u.outputTokens }

  function CachedOf(u: Usage): nat { u.cachedInputTokens }

  function Total(usages: seq<Usage>, part: Usage -> nat): nat {
    if usages == [] then 0 else Total(usages[..|usages| - 1], part) + part(usages[|usages| - 1])
  }

  predicate Totals(usages: seq<Usage>, u: Usage) {
    && u.inputTokens == Total(usages, InputOf) && u.outputTokens == Total(usages, OutputOf)
    && u.cachedInputTokens == Total(usages, CachedOf)
  }

  /** The usage is summed, class by class, over exactly the assistant events that bear one. */
  ghost predicate SumsUsage(log: Log, total: Usage) {
    exists usages :: Picking.Selects(log, usages, Bears, BearsThis) && Totals(usages, total)
  }

  lemma TotalSnoc(usages: seq<Usage>, u: Usage, part: Usage -> nat)
    ensures Total(usages + [u], part) == Total(usages, part) + part(u)
  {
    assert (usages + [u])[..|usages|] == usages;
  }

  lemma TotalsSnoc(usages: seq<Usage>, u: Usage, a: Usage, b: Usage)
    requires Totals(usages, a) && b == AddUsage(a, u)
    ensures Totals(usages + [u], b)
  {
    TotalSnoc(usages, u, InputOf);
    TotalSnoc(usages, u, OutputOf);
    TotalSnoc(usages, u, CachedOf);
  }

  lemma SumsNext(front: Log, e: Event, log: Log, a: Usage, b: Usage)
    requires SumsUsage(front, a) && log == front + [e] && b == AddUsage(a, Weight(e))
    ensures SumsUsage(log, b)
  {
    var usages :| Picking.Selects(front, usages, Bears, BearsThis) && Totals(usages, a);
    if Bears(e) {
      Picking.SelectsSnoc(front, usages, e, e.meta.value.usage, Bears, BearsThis);
      TotalsSnoc(usages, e.meta.value.usage, a, b);
    } else {
      Picking.SelectsSnoc(front, usages, e, ZeroUsage(), Bears, BearsThis);
      assert Totals(usages, b);
    }
  }

  lemma SumsNone(log: Log)
    requires log == []
    ensures SumsUsage(log, ZeroUsage())
  {
    Picking.SelectsNone<Event, Usage>(log, [], Bears, BearsThis);
    assert Totals([], ZeroUsage());
  }

  lemma {:induction false} LogUsageSums(log: Log)
    ensures SumsUsage(log, LogUsage(log))
  {
    if log == [] {
      SumsNone(log);
    } else {
      var front, e := log[..|log| - 1], log[|log| - 1];
      LogUsageSums(front);
      SumsNext(front, e, log, LogUsage(front), LogUsage(log));
    }
  }
}
