/** Tokens, money and turns over every run of the protocol. */
module RunBudget {
  import opened Options
  import opened Cost
  import opened Events
  import opened RunMachine
  import opened RunWindow
  import opened RunHash
  import opened ReplayHash

  /** Tokens logged since the latest `run_started`. */
  function RunTokens(log: Log): nat {
    if log == [] || log[|log| - 1].body.RunStarted? then 0
    else
      RunTokens(log[..|log| - 1]) + Tokens(Weight(log[|log| - 1]))
  }

  /** Tokens of the last response logged in the current run. */
  function LastResponseTokens(log: Log): nat {
    if log == [] || log[|log| - 1].body.RunStarted? then 0
    else if Metered(log[|log| - 1]) then Tokens(log[|log| - 1].meta.value.usage)
    else LastResponseTokens(log[..|log| - 1])
  }

  /** Money logged since the latest `run_started`. */
  function RunSpent(c: Config, log: Log): Option<real> {
    if log == [] || log[|log| - 1].body.RunStarted? then UsdFor(ZeroUsage(), c.prices, c.modelId)
    else
      var e := log[|log| - 1];
      var before := RunSpent(c, log[..|log| - 1]);
      if Metered(e) then AddCost(before, EventCost(c, e.meta.value)) else before
  }

  /** No price is negative. */
  predicate FairPrices(prices: PriceTable) {
    forall id :: id in prices ==>
      prices[id].input >= 0.0 && prices[id].output >= 0.0 && prices[id].cachedInput.GetOr(0.0) >= 0.0
  }

  /** Foreground money as a process that lived through the whole log would count it. */
  function Spent(c: Config, log: Log): Option<real> {
    if log == [] then UsdFor(ZeroUsage(), c.prices, c.modelId)
    else
      var e := log[|log| - 1];
      var before := Spent(c, log[..|log| - 1]);
      if Metered(e) then AddCost(before, EventCost(c, e.meta.value)) else before
  }

  predicate BelowCost(p: Policy, usd: Option<real>) {
    p.maxCostUsd.Some? && usd.Some? ==> usd.value < p.maxCostUsd.value
  }

  predicate BelowTokens(p: Policy, tokens: nat) {
    p.maxTokens.Some? ==> tokens < p.maxTokens.value
  }

  /** The run's money is part of what a resumed process starts from. */
  ghost predicate MoneyCounts(c: Config, log: Log) {
    CostsKnown(c, log) && (OneQuery(log) || FairPrices(c.prices))
  }

  /** Each response was asked for while the run's logged tokens, and its logged money where costs
      are known, were below the ceilings; and each success is below them all. */
  ghost predicate Governed(c: Config, log: Log) {
    log == [] ||
    var before, e := log[..|log| - 1], log[|log| - 1];
    && Governed(c, before)
    && (Metered(e) ==> BelowTokens(c.policy, RunTokens(before)))
    && (Metered(e) && MoneyCounts(c, before) ==> BelowCost(c.policy, RunSpent(c, before)))
    && (e.body.TerminalResult? ==> ResultOk(c, e.body.terminal, 0))
  }

  /** A success is strictly under the ceilings, `others` tokens of sub-agents included. */
  predicate ResultOk(c: Config, r: Result, others: nat) {
    && r.numTurns <= c.policy.maxTurns
    && (r.subtype.Success? ==> Under(c.policy, Tokens(r.usage) + others, r.numTurns, r.usd))
  }

  ghost predicate MeterOk(c: Config, log: Log, m: Meter) {
    && m.base <= |log| && BaseOk(log, m.base)
    && m.usage == LogUsage(log[m.base..])
    && (CostsKnown(c, log) ==> m.usd == Spent(c, log[m.base..]))
  }

  ghost predicate BudgetInv(c: Config, s: State) {
    var p, m := s.live.phase, s.live.meter;
    && Governed(c, s.log)
    && m.child.usd >= 0.0
    && m.turn <= c.policy.maxTurns
    && (p.QueryUser? || p.QuerySeed? ==> m.turn == 0)
    && (InTurn(p) || p.SuspendCheckpoint? ==> MeterOk(c, s.log, m))
    && (p.Calling? ==> (BelowTokens(c.policy, Tokens(m.usage)) && BelowCost(c.policy, m.usd)
          && m.turn < c.policy.maxTurns))
    && (p.Finish? ==> ResultOk(c, p.result, m.child.tokens))
  }

  // ---- facts about the log --------------------------------------------------------------------------------------

  lemma AppendUsage(log: Log, e: Event, base: nat)
    requires base <= |log|
    ensures LogUsage((log + [e])[base..]) == AddUsage(LogUsage(log[base..]), Weight(e))
    ensures !Metered(e) ==> LogUsage((log + [e])[base..]) == LogUsage(log[base..])
  {
    assert (log + [e])[base..] == log[base..] + [e];
    assert (log[base..] + [e])[..|log[base..]|] == log[base..];
    UsageSums(LogUsage(log[base..]), ZeroUsage(), ZeroUsage());
  }

  lemma AppendSpent(c: Config, log: Log, e: Event, base: nat)
    requires base <= |log|
    ensures Spent(c, (log + [e])[base..])
         == if Metered(e) then AddCost(Spent(c, log[base..]), EventCost(c, e.meta.value)) else Spent(c, log[base..])
    ensures CostsKnown(c, log + [e])
       ==> CostsKnown(c, log) && (Metered(e) ==> EventCost(c, e.meta.value).Some?)
  {
    assert (log + [e])[base..] == log[base..] + [e];
    assert (log[base..] + [e])[..|log[base..]|] == log[base..];
    if CostsKnown(c, log + [e]) {
      assert (log + [e])[|log|] == e;
      forall k | 0 <= k < |log| && Metered(log[k]) ensures EventCost(c, log[k].meta.value).Some? {
        assert (log + [e])[k] == log[k];
      }
    }
  }

  lemma AppendGoverned(c: Config, log: Log, e: Event)
    ensures Governed(c, log + [e]) <==>
      && Governed(c, log)
      && (Metered(e) ==> BelowTokens(c.policy, RunTokens(log)))
      && (Metered(e) && MoneyCounts(c, log) ==> BelowCost(c.policy, RunSpent(c, log)))
      && (e.body.TerminalResult? ==> ResultOk(c, e.body.terminal, 0))
  {
    assert (log + [e])[..|log|] == log;
  }

  lemma AppendUnmetered(c: Config, log: Log, e: Event)
    requires Governed(c, log) && !Metered(e) && (e.body.TerminalResult? ==> ResultOk(c, e.body.terminal, 0))
    ensures Governed(c, log + [e])
  {
    AppendGoverned(c, log, e);
  }

  lemma AppendRunTokens(log: Log, e: Event)
    ensures RunTokens(log + [e]) == if e.body.RunStarted? then 0 else RunTokens(log) + Tokens(Weight(e))
  {
    assert (log + [e])[..|log|] == log;
  }

  lemma {:induction false} RunTokensBound(log: Log, base: nat)
    requires base <= |log| && BaseOk(log, base)
    ensures RunTokens(log) <= Tokens(LogUsage(log[base..]))
  {
    if log != [] && !log[|log| - 1].body.RunStarted? {
      var front, e := log[..|log| - 1], log[|log| - 1];
      assert front + [e] == log;
      RunTokensBound(front, base);
      AppendRunTokens(front, e);
      AppendUsage(front, e, base);
    }
  }

  lemma NoNegativeProduct(tokens: nat, price: real)
    requires price >= 0.0
    ensures tokens as real * price >= 0.0
  {
  }

  lemma FairCost(c: Config, m: Meta)
    requires FairPrices(c.prices)
    ensures EventCost(c, m).GetOr(0.0) >= 0.0
  {
    var id := if m.modelId.Some? then m.modelId else c.modelId;
    if HasPrice(c.prices, id) {
      var p, u := c.prices[id.value], m.usage;
      var cached := if u.cachedInputTokens < u.inputTokens then u.cachedInputTokens else u.inputTokens;
      NoNegativeProduct(u.inputTokens - cached, p.input);
      NoNegativeProduct(cached, p.cachedInput.GetOr(p.input));
      NoNegativeProduct(u.outputTokens, p.output);
    }
  }

  /** At most the other figure, when there is one. */
  predicate AtMost(a: Option<real>, b: Option<real>) {
    a.Some? ==> b.Some? && a.value <= b.value
  }

  lemma {:induction false} SpentFair(c: Config, log: Log)
    requires FairPrices(c.prices)
    ensures AtMost(UsdFor(ZeroUsage(), c.prices, c.modelId), Spent(c, log)) && Spent(c, log).GetOr(0.0) >= 0.0
  {
    if log != [] {
      var n := |log| - 1;
      SpentFair(c, log[..n]);
      if Metered(log[n]) { FairCost(c, log[n].meta.value); }
    }
  }

  lemma {:induction false} OnlyRunSpent(c: Config, log: Log)
    requires OneQuery(log)
    ensures RunSpent(c, log) == Spent(c, log)
  {
    var n := |log| - 1;
    if n == 0 {
      assert log[..n] == [];
    } else {
      assert OneQuery(log[..n]);
      OnlyRunSpent(c, log[..n]);
    }
  }

  /** The money of the run is at most what a process counts that counts from an earlier event. */
  lemma {:induction false} RunSpentBound(c: Config, log: Log, base: nat)
    requires base <= |log| && BaseOk(log, base) && FairPrices(c.prices)
    ensures AtMost(RunSpent(c, log), Spent(c, log[base..]))
  {
    if log == [] || log[|log| - 1].body.RunStarted? {
      SpentFair(c, log[base..]);
    } else {
      var n := |log| - 1;
      RunSpentBound(c, log[..n], base);
      SpentFair(c, log[..n][base..]);
      AppendSpent(c, log[..n], log[n], base);
      assert log[..n] + [log[n]] == log;
    }
  }

  lemma {:induction false} UsageConcat(a: Log, b: Log)
    ensures LogUsage(a + b) == AddUsage(LogUsage(a), LogUsage(b))
  {
    if b == [] {
      assert a + b == a;
      UsageSums(LogUsage(a), ZeroUsage(), ZeroUsage());
    } else {
      var n := |b| - 1;
      UsageConcat(a, b[..n]);
      assert (a + b)[..|a + b| - 1] == a + b[..n];
      UsageSums(LogUsage(a), LogUsage(b[..n]), Weight(b[n]));
    }
  }

  /** The cost stored with a response is recovered by resumption. */
  lemma CostRecovered(c: Config, r: Reply)
    ensures EventCost(c, Meta(r.usage, ReplyModel(c, r), ReplyCost(c, r))) == ReplyCost(c, r)
  {
  }

  lemma {:induction false} SpentAndSum(c: Config, log: Log)
    requires CostsKnown(c, log)
    ensures HasPriced(c, log) ==> Spent(c, log) == Some(PricedSum(c, log))
    ensures !HasPriced(c, log) ==>
      && Spent(c, log) == UsdFor(ZeroUsage(), c.prices, c.modelId)
      && PricedSum(c, log) == 0.0 && LogUsage(log) == ZeroUsage()
  {
    if log != [] {
      var n := |log| - 1;
      var a, e := log[..n], log[n];
      assert a + [e] == log;
      AppendSpent(c, a, e, 0);
      SpentAndSum(c, a);
      assert log[0..] == log && a[0..] == a;
      ZeroIsFree(c);
      PricedSnoc(c, a, e);
    }
  }

  lemma PricedSnoc(c: Config, a: Log, e: Event)
    ensures HasPriced(c, a + [e]) <==> HasPriced(c, a) || (Metered(e) && EventCost(c, e.meta.value).Some?)
  {
    if HasPriced(c, a) {
      var k :| 0 <= k < |a| && Metered(a[k]) && EventCost(c, a[k].meta.value).Some?;
      assert (a + [e])[k] == a[k];
    }
    assert (a + [e])[|a|] == e;
  }

  lemma ZeroIsFree(c: Config)
    ensures UsdFor(ZeroUsage(), c.prices, c.modelId).GetOr(0.0) == 0.0
  {
  }

  /** With every logged cost known, resumption restores the money exactly; what it then starts from
      when no figure is known is the price of no tokens, which is the same. */
  lemma MoneyRestored(c: Config, log: Log)
    requires CostsKnown(c, log)
    ensures ResumedUsd(c, log) == Spent(c, log)
    ensures ResumedUsd(c, log).None? ==> UsdFor(LogUsage(log), c.prices, c.modelId).None?
  {
    SpentAndSum(c, log);
  }

  // ---- the invariant, step by step ------------------------------------------------------------------------------

  lemma ReopenKeeps(c: Config, s: State, i: Input, runId: nat)
    requires Governed(c, s.log) && i.StartResume? && i.child.usd >= 0.0
    ensures BudgetInv(c, s.(live := PlanReopen(c, s, i, runId)))
  {
    assert s.log[0..] == s.log;
    if CostsKnown(c, s.log) { MoneyRestored(c, s.log); }
  }

  lemma QueryKeeps(c: Config, s: State, i: Input)
    requires BudgetInv(c, s) && i.StartQuery? && i.child.usd >= 0.0
    ensures BudgetInv(c, Apply(s, PlanQuery(c, s, i)))
  {
    if i.ok { AppendUnmetered(c, s.log, Event(NextSeq(s.log), RunStarted, None)); }
  }

  lemma ResumeKeeps(c: Config, s: State, i: Input)
    requires BudgetInv(c, s) && s.live.phase.Idle? && i.StartResume? && i.child.usd >= 0.0
    ensures BudgetInv(c, Apply(s, PlanResume(c, s, i)))
  {
    if CurrentRunId(s.log).Some? { ReopenKeeps(c, s, i, CurrentRunId(s.log).value); }
  }

  /** Outside a turn only the log and the turn counter are at stake. */
  lemma QuietKeeps(c: Config, s: State, t: State)
    requires BudgetInv(c, s) && Governed(c, t.log)
    requires t.live.meter.child == s.live.meter.child && t.live.meter.turn <= c.policy.maxTurns
    requires
      var p := t.live.phase;
      || p.Idle? || p.AbortCheckpoint? || p.TerminalCheckpoint?
      || (p.Finish? && ResultOk(c, p.result, t.live.meter.child.tokens))
      || (p.QuerySeed? && t.live.meter.turn == 0)
    ensures BudgetInv(c, t)
  {
  }

  lemma GuardedKeeps(c: Config, s: State, i: Input)
    requires BudgetInv(c, s) && s.live.phase.QueryUser? && i.Guarded?
    ensures BudgetInv(c, Apply(s, PlanGuarded(c, s, i)))
  {
    var e := PlanGuarded(c, s, i);
    if e.Appends? { AppendUnmetered(c, s.log, e.event); }
    QuietKeeps(c, s, Apply(s, e));
  }

  /** The two events that open a query carry no spend. */
  lemma OpeningUsesNothing(started: Event, user: Event)
    requires !Metered(started) && !Metered(user)
    ensures LogUsage([started, user]) == ZeroUsage()
  {
    var one, both := [started], [started, user];
    assert one[..0] == [] && both[..1] == one;
    assert LogUsage(one) == ZeroUsage();
  }

  lemma OpeningIsFree(c: Config, started: Event, user: Event)
    requires !Metered(started) && !Metered(user)
    ensures Spent(c, [started, user]) == UsdFor(ZeroUsage(), c.prices, c.modelId)
  {
    var one, both := [started], [started, user];
    assert one[..0] == [] && both[..1] == one;
    assert Spent(c, one) == UsdFor(ZeroUsage(), c.prices, c.modelId);
  }

  lemma SeededKeeps(c: Config, s: State, i: Input)
    requires BudgetInv(c, s) && HashInv(s) && s.live.phase.QuerySeed? && i.Seeded?
    ensures BudgetInv(c, Apply(s, PlanSeeded(c, s, i)))
  {
    var n, p := |s.log|, s.live.phase;
    QuerySeedHash(s);
    assert s.log[n - 2..] == [p.started, p.user];
    OpeningUsesNothing(p.started, p.user);
    OpeningIsFree(c, p.started, p.user);
    assert BaseOk(s.log, n - 2);
  }

  /** Steps that log nothing about money and charge nothing. */
  lemma FreeKeeps(c: Config, s: State, e: Effect)
    requires BudgetInv(c, s) && InLoop(s.live.phase) && !s.live.phase.AbortCheckpoint?
    requires e.live.meter == s.live.meter.(child := e.live.meter.child) && e.live.meter.child.usd >= 0.0
    requires e.Appends? ==> !Metered(e.event) && !e.event.body.TerminalResult?
    requires !e.live.phase.Calling? && !e.live.phase.QueryUser? && !e.live.phase.QuerySeed?
    requires e.live.phase.Finish? ==> ResultOk(c, e.live.phase.result, e.live.meter.child.tokens)
    ensures BudgetInv(c, Apply(s, e))
  {
    if e.Appends? {
      AppendUnmetered(c, s.log, e.event);
      if s.live.meter.base <= |s.log| {
        AppendUsage(s.log, e.event, s.live.meter.base);
        AppendSpent(c, s.log, e.event, s.live.meter.base);
      }
    }
  }

  lemma ToolsKeep(c: Config, s: State, i: Input)
    requires BudgetInv(c, s) && !i.Crash?
    requires s.live.phase.Redispatch? || s.live.phase.Dispatching? || s.live.phase.Appending? || s.live.phase.Head?
    ensures BudgetInv(c, Apply(s, Plan(c, s, i)))
  {
    FreeKeeps(c, s, Plan(c, s, i));
  }

  lemma GateKeeps(c: Config, s: State, i: Input)
    requires BudgetInv(c, s) && s.live.phase.Preflight? && i.Gate?
    ensures BudgetInv(c, Apply(s, PlanGate(c, s, i)))
  {
  }

  lemma AfterKeeps(c: Config, s: State, i: Input)
    requires BudgetInv(c, s) && s.live.phase.PostCheck? && i.AfterCall?
    ensures BudgetInv(c, Apply(s, PlanAfter(c, s, i)))
  {
    FreeKeeps(c, s, PlanAfter(c, s, i));
  }

  lemma ChargedOk(c: Config, log: Log, m: Meter, r: Reply, e: Event)
    requires MeterOk(c, log, m)
    requires e.body.Assistant? && e.meta == Some(Meta(r.usage, ReplyModel(c, r), ReplyCost(c, r)))
    ensures MeterOk(c, log + [e], Charge(c, m, r))
  {
    CostRecovered(c, r);
    AppendUsage(log, e, m.base);
    AppendSpent(c, log, e, m.base);
  }

  lemma ReplyGoverned(c: Config, s: State, e: Event)
    requires BudgetInv(c, s) && s.live.phase.Calling? && !e.body.TerminalResult?
    ensures Governed(c, s.log + [e])
  {
    AppendGoverned(c, s.log, e);
    RunTokensBound(s.log, s.live.meter.base);
    if OneQuery(s.log) {
      OnlyRunSpent(c, s.log);
      assert s.live.meter.base == 0 && s.log[0..] == s.log;
    } else if FairPrices(c.prices) {
      RunSpentBound(c, s.log, s.live.meter.base);
    }
  }

  lemma FailsKeeps(c: Config, s: State, i: Input)
    requires BudgetInv(c, s) && s.live.phase.Calling? && i.ModelFails?
    ensures BudgetInv(c, Apply(s, PlanFails(c, s, i)))
  {
    var e := PlanFails(c, s, i);
    if e.Appends? { AppendUnmetered(c, s.log, e.event); }
    QuietKeeps(c, s, Apply(s, e));
  }

  lemma RepliedKeeps(c: Config, t: State)
    requires Governed(c, t.log) && MeterOk(c, t.log, t.live.meter) && t.live.phase.Replied?
    requires t.live.meter.child.usd >= 0.0 && t.live.meter.turn <= c.policy.maxTurns
    ensures BudgetInv(c, t)
  {
  }

  lemma ReplyKeeps(c: Config, s: State, i: Input)
    requires BudgetInv(c, s) && s.live.phase.Calling? && i.ModelReply?
    ensures BudgetInv(c, Apply(s, PlanReply(c, s, i)))
  {
    var e := PlanReply(c, s, i);
    var t := Apply(s, e);
    if e.Appends? {
      ReplyGoverned(c, s, e.event);
      ChargedOk(c, s.log, s.live.meter, i.reply, e.event);
      RepliedKeeps(c, t);
    } else if !FreshCalls(s.log, Uses(i.reply.content)) {
      assert t == s;
    } else {
      QuietKeeps(c, s, t);
    }
  }

  lemma FinishKeeps(c: Config, s: State, i: Input)
    requires BudgetInv(c, s) && s.live.phase.Finish? && i.Persist?
    ensures BudgetInv(c, Apply(s, PlanFinish(c, s, i)))
  {
    var e := PlanFinish(c, s, i);
    if e.Appends? {
      FewerTokens(c, s.live.phase.result, s.live.meter.child.tokens);
      EndKeeps(c, s, e);
    }
  }

  lemma FewerTokens(c: Config, r: Result, others: nat)
    requires ResultOk(c, r, others)
    ensures ResultOk(c, r, 0)
  {
  }

  lemma EndKeeps(c: Config, s: State, e: Effect)
    requires BudgetInv(c, s) && e.Appends? && e.live.meter == s.live.meter
    requires e.live.phase.Idle? || e.live.phase.TerminalCheckpoint?
    requires e.event.body.TerminalResult? && ResultOk(c, e.event.body.terminal, 0)
    ensures BudgetInv(c, Apply(s, e))
  {
    AppendUnmetered(c, s.log, e.event);
    QuietKeeps(c, s, Apply(s, e));
  }

  lemma CheckpointKeeps(c: Config, s: State, i: Input)
    requires BudgetInv(c, s) && i.Checkpointed?
    requires || s.live.phase.Replied? || s.live.phase.SuspendCheckpoint? || s.live.phase.AbortCheckpoint?
             || s.live.phase.TerminalCheckpoint?
    ensures BudgetInv(c, Apply(s, PlanCheckpoint(c, s, i)))
  {
  }

  lemma OpeningKeeps(c: Config, s: State, i: Input)
    requires BudgetInv(c, s) && HashInv(s) && !i.Crash?
    requires s.live.phase.Idle? || s.live.phase.QueryUser? || s.live.phase.QuerySeed?
    ensures BudgetInv(c, Step(c, s, i))
  {
    match s.live.phase
    case Idle =>
      if i.StartQuery? && i.child.usd >= 0.0 { QueryKeeps(c, s, i); }
      else if i.StartResume? && i.child.usd >= 0.0 { ResumeKeeps(c, s, i); }
    case QueryUser(_) => if i.Guarded? { GuardedKeeps(c, s, i); }
    case QuerySeed(_, _) => if i.Seeded? { SeededKeeps(c, s, i); }
  }

  lemma CallingKeeps(c: Config, s: State, i: Input)
    requires BudgetInv(c, s) && s.live.phase.Calling?
    ensures BudgetInv(c, Apply(s, PlanCalling(c, s, i)))
  {
    if i.ModelReply? { ReplyKeeps(c, s, i); }
    else if i.ModelFails? { FailsKeeps(c, s, i); }
    else { assert Apply(s, PlanCalling(c, s, i)) == s; }
  }

  lemma StepKeepsBudget(c: Config, s: State, i: Input)
    requires BudgetInv(c, s) && HashInv(s)
    ensures BudgetInv(c, Step(c, s, i))
  {
    if !i.Crash? {
      match s.live.phase
      case Idle => OpeningKeeps(c, s, i);
      case QueryUser(_) => OpeningKeeps(c, s, i);
      case QuerySeed(_, _) => OpeningKeeps(c, s, i);
      case Redispatch(_) => ToolsKeep(c, s, i);
      case Dispatching(_) => ToolsKeep(c, s, i);
      case Appending(_) => ToolsKeep(c, s, i);
      case Head => ToolsKeep(c, s, i);
      case Preflight => if i.Gate? { GateKeeps(c, s, i); }
      case Calling => CallingKeeps(c, s, i);
      case PostCheck(_) => if i.AfterCall? { AfterKeeps(c, s, i); }
      case Finish(_) => if i.Persist? { FinishKeeps(c, s, i); }
      case _ => if i.Checkpointed? { CheckpointKeeps(c, s, i); }
    }
  }

  lemma {:induction false} BudgetInvAlways(c: Config, inputs: seq<Input>)
    ensures BudgetInv(c, Run(c, inputs))
  {
    if inputs != [] {
      BudgetInvAlways(c, inputs[..|inputs| - 1]);
      HashInvAlways(c, inputs[..|inputs| - 1]);
      StepKeepsBudget(c, Run(c, inputs[..|inputs| - 1]), inputs[|inputs| - 1]);
    }
  }

  // ---- main results ---------------------------------------------------------------------------------------------

  lemma {:induction false} GovernedAt(c: Config, log: Log, k: nat)
    requires Governed(c, log) && k < |log|
    ensures Metered(log[k]) ==> BelowTokens(c.policy, RunTokens(log[..k]))
    ensures Metered(log[k]) && MoneyCounts(c, log[..k]) ==> BelowCost(c.policy, RunSpent(c, log[..k]))
    ensures log[k].body.TerminalResult? ==> ResultOk(c, log[k].body.terminal, 0)
  {
    if k < |log| - 1 {
      GovernedAt(c, log[..|log| - 1], k);
      assert log[..|log| - 1][..k] == log[..k];
    }
  }

  /** Over any queries, crashes and resumes, with or without sub-agents: each logged response was
      asked for while its run's logged tokens were below `maxTokens`. */
  lemma TokensBelowBeforeEachCall(c: Config, inputs: seq<Input>, k: nat)
    requires k < |Run(c, inputs).log| && Metered(Run(c, inputs).log[k]) && c.policy.maxTokens.Some?
    ensures RunTokens(Run(c, inputs).log[..k]) < c.policy.maxTokens.value
  {
    BudgetInvAlways(c, inputs);
    GovernedAt(c, Run(c, inputs).log, k);
  }

  lemma {:induction false} OvershootBound(c: Config, log: Log)
    requires Governed(c, log) && c.policy.maxTokens.Some?
    ensures RunTokens(log) == 0 || RunTokens(log) < c.policy.maxTokens.value + LastResponseTokens(log)
  {
    if log != [] { OvershootBound(c, log[..|log| - 1]); }
  }

  /** So a run's logged tokens exceed the ceiling by less than its last response. */
  lemma OvershootIsOneResponse(c: Config, inputs: seq<Input>)
    requires c.policy.maxTokens.Some?
    ensures
      var log := Run(c, inputs).log;
      RunTokens(log) == 0 || RunTokens(log) < c.policy.maxTokens.value + LastResponseTokens(log)
  {
    BudgetInvAlways(c, inputs);
    OvershootBound(c, Run(c, inputs).log);
  }

  /** Any queries, with known costs: the money a run had logged before each of its responses was
      below `maxCostUsd`, across all crashes and resumes. Only prices below zero could break this,
      and only on a session with several queries. */
  lemma MoneyBelowBeforeEachCall(c: Config, inputs: seq<Input>, k: nat)
    requires
      var log := Run(c, inputs).log;
      k < |log| && Metered(log[k]) && CostsKnown(c, log[..k]) && (OneQuery(log) || FairPrices(c.prices))
    ensures BelowCost(c.policy, RunSpent(c, Run(c, inputs).log[..k]))
  {
    BudgetInvAlways(c, inputs);
    var log := Run(c, inputs).log;
    GovernedAt(c, log, k);
    if OneQuery(log) { assert k > 0 && OneQuery(log[..k]); }
  }

  /** Where the restoration of money stops: when the agent's own model has no price, it is right
      exactly when all logged costs are known or none is. */
  lemma ResumedUsdExact(c: Config, log: Log)
    requires !HasPrice(c.prices, c.modelId)
    ensures ResumedUsd(c, log) == Spent(c, log) <==> CostsKnown(c, log) || !HasPriced(c, log)
  {
    if CostsKnown(c, log) { MoneyRestored(c, log); } else { SpentWhenPriced(c, log); }
  }

  lemma {:induction false} SpentWhenPriced(c: Config, log: Log)
    requires !HasPrice(c.prices, c.modelId)
    ensures Spent(c, log).Some? <==> HasPriced(c, log)
  {
    if log != [] {
      var n := |log| - 1;
      SpentWhenPriced(c, log[..n]);
      PricedSnoc(c, log[..n], log[n]);
      assert log[..n] + [log[n]] == log;
    }
  }

  /** The step at which an event was stored. */
  lemma {:induction false} StoredAt(c: Config, inputs: seq<Input>, k: nat) returns (n: nat)
    requires k < |Run(c, inputs).log|
    ensures n < |inputs| && Run(c, inputs[..n]).log == Run(c, inputs).log[..k]
    ensures Step(c, Run(c, inputs[..n]), inputs[n]).log == Run(c, inputs).log[..k + 1]
  {
    n := |inputs| - 1;
    var s := Run(c, inputs[..n]);
    var e := Plan(c, s, inputs[n]);
    if k < |s.log| {
      var m := StoredAt(c, inputs[..n], k);
      assert inputs[..n][..m] == inputs[..m] && inputs[..n][m] == inputs[m];
      n := m;
    }
  }

  lemma StoresResult(c: Config, s: State, i: Input)
    requires |Step(c, s, i).log| > |s.log| && Step(c, s, i).log[|s.log|].body.TerminalResult?
    ensures s.live.phase.Finish? && Step(c, s, i).log[|s.log|].body.terminal == s.live.phase.result
  {
  }

  /** A success is stored only strictly under every ceiling, the tokens of the process's sub-agents
      included; and no stored terminal has more turns than allowed. */
  lemma SuccessIsUnder(c: Config, inputs: seq<Input>, k: nat) returns (n: nat)
    requires k < |Run(c, inputs).log| && Run(c, inputs).log[k].body.TerminalResult?
    ensures n < |inputs| && Run(c, inputs[..n]).log == Run(c, inputs).log[..k]
    ensures
      var r, m := Run(c, inputs).log[k].body.terminal, Run(c, inputs[..n]).live.meter;
      && r.numTurns <= c.policy.maxTurns
      && (r.subtype.Success? ==> Under(c.policy, Tokens(r.usage) + m.child.tokens, r.numTurns, r.usd))
  {
    n := StoredAt(c, inputs, k);
    BudgetInvAlways(c, inputs[..n]);
    StoresResult(c, Run(c, inputs[..n]), inputs[n]);
  }

  /** No segment takes more turns than allowed, and a model is called only with a turn to spare. */
  lemma TurnsBounded(c: Config, inputs: seq<Input>)
    ensures
      var l := Run(c, inputs).live;
      l.meter.turn <= c.policy.maxTurns && (l.phase.Calling? ==> l.meter.turn < c.policy.maxTurns)
  {
    BudgetInvAlways(c, inputs);
  }
}
