/** What a resume restores of the tokens and the money that the process before it had counted. */
module RunSpend {
  import opened Options
  import opened Cost
  import opened Events
  import opened RunMachine
  import opened RunCalls
  import opened RunBudget
  import opened RunTerminal
  import RunRebuild

  // ---- what the answers tell about the process ------------------------------------------------------------------

  /** The response that this answer makes the process charge although it does not get into the log:
      the run is aborted, the output blocked, or the event not storable; or every candidate failed
      and the last one's response was over its limit. */
  function Missed(s: State, i: Input): Option<Reply> {
    if i.ModelReply? then
      if FreshCalls(s.log, Uses(i.reply.content)) && (i.aborted || (Uses(i.reply.content) == [] && i.blocked) || !i.ok)
      then Some(i.reply) else None
    else if i.ModelFails? && !i.aborted && (i.partial == "" || i.ok) then i.limited
    else None
  }

  /** How the current process was started, and the response that it charged and did not store. */
  datatype Past = Past(resumed: bool, missed: Option<Reply>)

  function Remember(s: State, i: Input, past: Past): Past {
    match s.live.phase
    case Idle => Past(i.StartResume?, None)
    case Calling => past.(missed := Missed(s, i))
    case _ => past
  }

  function History(c: Config, inputs: seq<Input>): Past {
    if inputs == [] then Past(false, None)
    else
      var earlier, last := inputs[..|inputs| - 1], inputs[|inputs| - 1];
      Remember(Run(c, earlier), last, History(c, earlier))
  }

  function MissedUsage(past: Past): Usage {
    if past.missed.Some? then past.missed.value.usage else ZeroUsage()
  }

  function MissedCost(c: Config, past: Past): Option<real> {
    if past.missed.Some? then ReplyCost(c, past.missed.value) else None
  }

  /** A resumed process counts from the start of the session, any other from the start of its run. */
  function Start(log: Log, past: Past): (first: nat)
    ensures first <= |log|
  {
    if past.resumed then 0 else LastRun(log)
  }

  // ---- the invariant --------------------------------------------------------------------------------------------

  /** Tokens and, where costs are known, money are the sums of two parts. */
  predicate Sums(usage: Usage, usd: Option<real>, known: bool, a: Usage, b: Option<real>, u: Usage, k: Option<real>) {
    usage == AddUsage(a, u) && (known ==> usd == AddCost(b, k))
  }

  /** The meter is the logged spend since the start and the missed response. */
  ghost predicate Accounted(c: Config, log: Log, usage: Usage, usd: Option<real>, past: Past) {
    var counted := log[Start(log, past)..];
    Sums(usage, usd, CostsKnown(c, log), LogUsage(counted), Spent(c, counted), MissedUsage(past), MissedCost(c, past))
  }

  /** Nothing was counted yet by this process. */
  predicate Unused(c: Config, m: Meter, past: Past) {
    && m.usage == ZeroUsage() && m.usd == UsdFor(ZeroUsage(), c.prices, c.modelId)
    && past == Past(false, None)
  }

  ghost predicate SpendInv(c: Config, s: State, past: Past) {
    var p := s.live.phase;
    && (!p.Idle? ==> Accounted(c, s.log, s.live.meter.usage, s.live.meter.usd, past))
    && (p.QueryUser? || p.QuerySeed? ==> Unused(c, s.live.meter, past))
    && (past.missed.Some? ==> Over(p))
  }

  lemma AppendRun(log: Log, e: Event)
    ensures LastRun(log + [e]) == if e.body.RunStarted? then |log| else LastRun(log)
  {
    assert (log + [e])[..|log|] == log;
  }

  lemma SumNothing(u: Usage)
    ensures AddUsage(u, ZeroUsage()) == u
  {
  }

  /** Only a terminal, or the crash of the process, comes after. */
  predicate Over(p: Phase) {
    p.Idle? || p.AbortCheckpoint? || p.Finish? || p.TerminalCheckpoint?
  }

  /** A step that charges nothing and stores no response. */
  predicate Quiet(s: State, e: Effect) {
    var p, q := s.live.phase, e.live.phase;
    && e.live.meter.usage == s.live.meter.usage && e.live.meter.usd == s.live.meter.usd
    && (e.Appends? ==> !Metered(e.event) && !e.event.body.RunStarted?)
    && (q.QueryUser? || q.QuerySeed? ==> p.QueryUser? || p.QuerySeed?)
    && (Over(p) ==> Over(q))
  }

  lemma QuietKeeps(c: Config, s: State, e: Effect, past: Past)
    requires SpendInv(c, s, past) && !s.live.phase.Idle? && Quiet(s, e)
    ensures SpendInv(c, Apply(s, e), past)
  {
    if e.Appends? { QuietAppend(c, s.log, s.live.meter.usage, s.live.meter.usd, e.event, past); }
  }

  lemma CountedGrows(c: Config, log: Log, e: Event, past: Past)
    requires !e.body.RunStarted?
    ensures (log + [e])[Start(log + [e], past)..] == log[Start(log, past)..] + [e]
    ensures CostsKnown(c, log + [e]) ==> CostsKnown(c, log) && (Metered(e) ==> EventCost(c, e.meta.value).Some?)
  {
    AppendRun(log, e);
    assert (log + [e])[|log|] == e;
    assert forall k :: 0 <= k < |log| ==> (log + [e])[k] == log[k];
  }

  lemma FreeEvent(c: Config, counted: Log, e: Event)
    requires !Metered(e)
    ensures LogUsage(counted + [e]) == LogUsage(counted) && Spent(c, counted + [e]) == Spent(c, counted)
  {
    assert (counted + [e])[..|counted|] == counted;
    SumNothing(LogUsage(counted));
  }

  lemma PaidEvent(c: Config, counted: Log, e: Event, r: Reply)
    requires e.body.Assistant? && e.meta == Some(Meta(r.usage, ReplyModel(c, r), ReplyCost(c, r)))
    ensures LogUsage(counted + [e]) == AddUsage(LogUsage(counted), r.usage)
    ensures Spent(c, counted + [e]) == AddCost(Spent(c, counted), ReplyCost(c, r))
  {
    assert (counted + [e])[..|counted|] == counted;
    CostRecovered(c, r);
  }

  lemma QuietAppend(c: Config, log: Log, usage: Usage, usd: Option<real>, e: Event, past: Past)
    requires Accounted(c, log, usage, usd, past) && !Metered(e) && !e.body.RunStarted?
    ensures Accounted(c, log + [e], usage, usd, past)
  {
    CountedGrows(c, log, e, past);
    FreeEvent(c, log[Start(log, past)..], e);
  }

  lemma OneFreeEvent(c: Config, log: Log)
    requires |log| == 1 && !Metered(log[0])
    ensures LogUsage(log) == ZeroUsage() && Spent(c, log) == UsdFor(ZeroUsage(), c.prices, c.modelId)
  {
    assert log[..0] == [];
  }

  lemma NothingMissed(c: Config, a: Usage, b: Option<real>, known: bool, usage: Usage, usd: Option<real>, past: Past)
    requires past.missed.None? && usage == a && (known ==> usd == b)
    ensures Sums(usage, usd, known, a, b, MissedUsage(past), MissedCost(c, past))
  {
  }

  lemma AllLogged(c: Config, log: Log, usage: Usage, usd: Option<real>, past: Past)
    requires past.missed.None?
    requires
      var counted := log[Start(log, past)..];
      usage == LogUsage(counted) && (CostsKnown(c, log) ==> usd == Spent(c, counted))
    ensures Accounted(c, log, usage, usd, past)
  {
    var counted := log[Start(log, past)..];
    NothingMissed(c, LogUsage(counted), Spent(c, counted), CostsKnown(c, log), usage, usd, past);
  }

  lemma StartedAccount(c: Config, log: Log, m: Meter, past: Past)
    requires log != [] && log[|log| - 1].body.RunStarted? && Unused(c, m, past)
    ensures Accounted(c, log, m.usage, m.usd, past)
  {
    OneFreeEvent(c, log[|log| - 1..]);
    AllLogged(c, log, m.usage, m.usd, past);
  }

  lemma ReopenedAccount(c: Config, s: State, i: Input, runId: nat)
    requires i.StartResume?
    ensures
      var m := PlanReopen(c, s, i, runId).meter;
      Accounted(c, s.log, m.usage, m.usd, Past(true, None))
  {
    assert s.log[0..] == s.log;
    if CostsKnown(c, s.log) { MoneyRestored(c, s.log); }
    var m := PlanReopen(c, s, i, runId).meter;
    AllLogged(c, s.log, m.usage, m.usd, Past(true, None));
  }

  lemma StartKeeps(c: Config, s: State, i: Input)
    requires s.live.phase.Idle? && !i.Crash?
    ensures SpendInv(c, Apply(s, PlanIdle(c, s, i)), Past(i.StartResume?, None))
  {
    var e := PlanIdle(c, s, i);
    if e.Appends? {
      StartedAccount(c, s.log + [e.event], e.live.meter, Past(false, None));
    } else if !e.live.phase.Idle? {
      ReopenedAccount(c, s, i, CurrentRunId(s.log).value);
    }
  }

  /** One more figure on top of a sum with nothing. */
  lemma SumOne(m: Meter, known: bool, a: Usage, b: Option<real>, u: Usage, k: Option<real>)
    requires Sums(m.usage, m.usd, known, a, b, ZeroUsage(), None)
    ensures Sums(AddUsage(m.usage, u), AddCost(m.usd, k), known, a, b, u, k)
    ensures Sums(AddUsage(m.usage, u), AddCost(m.usd, k), known, AddUsage(a, u), AddCost(b, k), ZeroUsage(), None)
  {
  }

  lemma StoredReply(c: Config, log: Log, m: Meter, r: Reply, e: Event, past: Past)
    requires Accounted(c, log, m.usage, m.usd, past) && past.missed.None?
    requires e.body.Assistant? && e.meta == Some(Meta(r.usage, ReplyModel(c, r), ReplyCost(c, r)))
    ensures Accounted(c, log + [e], Charge(c, m, r).usage, Charge(c, m, r).usd, past)
  {
    CountedGrows(c, log, e, past);
    var counted := log[Start(log, past)..];
    PaidEvent(c, counted, e, r);
    SumOne(m, CostsKnown(c, log), LogUsage(counted), Spent(c, counted), r.usage, ReplyCost(c, r));
  }

  lemma MissedReply(c: Config, log: Log, m: Meter, r: Reply, past: Past)
    requires Accounted(c, log, m.usage, m.usd, past) && past.missed.None?
    ensures Accounted(c, log, Charge(c, m, r).usage, Charge(c, m, r).usd, past.(missed := Some(r)))
  {
    var counted := log[Start(log, past)..];
    SumOne(m, CostsKnown(c, log), LogUsage(counted), Spent(c, counted), r.usage, ReplyCost(c, r));
  }

  /** A response is charged; it is in the log afterwards, or the run is over. */
  predicate Charges(c: Config, s: State, e: Effect, r: Reply) {
    && e.live.meter.usage == Charge(c, s.live.meter, r).usage && e.live.meter.usd == Charge(c, s.live.meter, r).usd
    && if e.Appends? then
         && e.event.body.Assistant? && e.event.meta == Some(Meta(r.usage, ReplyModel(c, r), ReplyCost(c, r)))
         && e.live.phase.Replied?
       else Over(e.live.phase)
  }

  lemma ReplyCharges(c: Config, s: State, i: Input)
    requires i.ModelReply? && FreshCalls(s.log, Uses(i.reply.content))
    ensures Charges(c, s, PlanReply(c, s, i), i.reply)
    ensures Missed(s, i) == if PlanReply(c, s, i).Appends? then None else Some(i.reply)
  {
  }

  lemma AccountedAfter(c: Config, t: State, past: Past)
    requires Accounted(c, t.log, t.live.meter.usage, t.live.meter.usd, past)
    requires (t.live.phase.Replied? && past.missed.None?) || Over(t.live.phase)
    ensures SpendInv(c, t, past)
  {
  }

  lemma ChargeKeeps(c: Config, s: State, e: Effect, r: Reply, past: Past)
    requires Accounted(c, s.log, s.live.meter.usage, s.live.meter.usd, past) && past.missed.None? && !e.Writes?
    requires Charges(c, s, e, r)
    ensures SpendInv(c, Apply(s, e), past.(missed := if e.Appends? then None else Some(r)))
  {
    if e.Appends? {
      StoredReply(c, s.log, s.live.meter, r, e.event, past);
      AccountedAfter(c, Apply(s, e), past);
      assert past.(missed := None) == past;
    } else {
      MissedReply(c, s.log, s.live.meter, r, past);
      AccountedAfter(c, Apply(s, e), past.(missed := Some(r)));
    }
  }

  lemma ReplyKeeps(c: Config, s: State, i: Input, past: Past)
    requires SpendInv(c, s, past) && s.live.phase.Calling? && i.ModelReply?
    ensures SpendInv(c, Apply(s, PlanReply(c, s, i)), past.(missed := Missed(s, i)))
  {
    var e := PlanReply(c, s, i);
    if FreshCalls(s.log, Uses(i.reply.content)) {
      ReplyCharges(c, s, i);
      ChargeKeeps(c, s, e, i.reply, past);
    }
  }

  lemma FailsKeeps(c: Config, s: State, i: Input, past: Past)
    requires SpendInv(c, s, past) && s.live.phase.Calling? && i.ModelFails?
    ensures SpendInv(c, Apply(s, PlanFails(c, s, i)), past.(missed := Missed(s, i)))
  {
    var e := PlanFails(c, s, i);
    var t := Apply(s, e);
    if e.Appends? { QuietAppend(c, s.log, s.live.meter.usage, s.live.meter.usd, e.event, past); }
    if Missed(s, i).Some? { MissedReply(c, t.log, s.live.meter, i.limited.value, past); }
  }

  lemma CallingKeeps(c: Config, s: State, i: Input, past: Past)
    requires SpendInv(c, s, past) && s.live.phase.Calling?
    ensures SpendInv(c, Apply(s, PlanCalling(c, s, i)), past.(missed := Missed(s, i)))
  {
    if i.ModelReply? { ReplyKeeps(c, s, i, past); }
    else if i.ModelFails? { FailsKeeps(c, s, i, past); }
    else { assert Apply(s, PlanCalling(c, s, i)) == s; }
  }

  lemma OpeningQuiet(c: Config, s: State, i: Input)
    requires s.live.phase.QueryUser? && !i.Crash?
    ensures Quiet(s, Plan(c, s, i))
  {
  }

  lemma SeededQuiet(c: Config, s: State, i: Input, past: Past)
    requires s.live.phase.QuerySeed? && Unused(c, s.live.meter, past) && !i.Crash?
    ensures Quiet(s, Plan(c, s, i))
  {
  }

  lemma SeededKeeps(c: Config, s: State, i: Input, past: Past)
    requires SpendInv(c, s, past) && s.live.phase.QuerySeed? && !i.Crash?
    ensures SpendInv(c, Step(c, s, i), past)
  {
    SeededQuiet(c, s, i, past);
    QuietKeeps(c, s, Plan(c, s, i), past);
  }

  lemma ToolsQuiet(c: Config, s: State, i: Input)
    requires s.live.phase.Redispatch? || s.live.phase.Dispatching? || s.live.phase.Appending?
    requires !i.Crash?
    ensures Quiet(s, Plan(c, s, i))
  {
  }

  lemma TurnQuiet(c: Config, s: State, i: Input)
    requires s.live.phase.Head? || s.live.phase.Preflight? || s.live.phase.PostCheck?
    requires !i.Crash?
    ensures Quiet(s, Plan(c, s, i))
  {
  }

  lemma EndQuiet(c: Config, s: State, i: Input)
    requires
      var p := s.live.phase;
      || p.Replied? || p.SuspendCheckpoint? || p.AbortCheckpoint? || p.Finish? || p.TerminalCheckpoint?
    requires !i.Crash?
    ensures Quiet(s, Plan(c, s, i))
  {
  }

  lemma RestKeeps(c: Config, s: State, i: Input, past: Past)
    requires SpendInv(c, s, past) && !i.Crash?
    requires !s.live.phase.Idle? && !s.live.phase.QuerySeed? && !s.live.phase.Calling?
    ensures SpendInv(c, Step(c, s, i), past)
  {
    match s.live.phase {
      case QueryUser(_) => OpeningQuiet(c, s, i);
      case Redispatch(_) => ToolsQuiet(c, s, i);
      case Dispatching(_) => ToolsQuiet(c, s, i);
      case Appending(_) => ToolsQuiet(c, s, i);
      case Head => TurnQuiet(c, s, i);
      case Preflight => TurnQuiet(c, s, i);
      case PostCheck(_) => TurnQuiet(c, s, i);
      case _ => EndQuiet(c, s, i);
    }
    QuietKeeps(c, s, Plan(c, s, i), past);
  }

  lemma StepKeepsSpend(c: Config, s: State, i: Input, past: Past)
    requires SpendInv(c, s, past)
    ensures SpendInv(c, Step(c, s, i), Remember(s, i, past))
  {
    if !i.Crash? {
      match s.live.phase
      case Idle => StartKeeps(c, s, i);
      case QuerySeed(_, _) => SeededKeeps(c, s, i, past);
      case Calling => CallingKeeps(c, s, i, past);
      case _ => RestKeeps(c, s, i, past);
    }
  }

  lemma {:induction false} SpendInvAlways(c: Config, inputs: seq<Input>)
    ensures SpendInv(c, Run(c, inputs), History(c, inputs))
  {
    if inputs != [] {
      var earlier, last := inputs[..|inputs| - 1], inputs[|inputs| - 1];
      SpendInvAlways(c, earlier);
      StepKeepsSpend(c, Run(c, earlier), last, History(c, earlier));
    }
  }

  // ---- main results ---------------------------------------------------------------------------------------------

  /** What this process does not count: for one that was not resumed, the events before its run. */
  function Older(log: Log, past: Past): Log {
    log[..Start(log, past)]
  }

  lemma UsageSplit(log: Log, n: nat)
    requires n <= |log|
    ensures LogUsage(log) == AddUsage(LogUsage(log[..n]), LogUsage(log[n..]))
  {
    assert log[..n] + log[n..] == log;
    UsageConcat(log[..n], log[n..]);
  }

  lemma SameRest(a: Usage, b: Usage, c: Usage)
    ensures AddUsage(a, b) == AddUsage(b, c) <==> a == c
  {
  }

  /** In every state of every process, up to its end: a resume would restore the live usage exactly
      when the events that the process does not count used as much as the response it missed. */
  lemma UsageRestoredExactly(c: Config, inputs: seq<Input>)
    requires !Run(c, inputs).live.phase.Idle?
    ensures
      var s, past := Run(c, inputs), History(c, inputs);
      LogUsage(s.log) == s.live.meter.usage <==> LogUsage(Older(s.log, past)) == MissedUsage(past)
  {
    SpendInvAlways(c, inputs);
    var s, past := Run(c, inputs), History(c, inputs);
    var n := Start(s.log, past);
    UsageSplit(s.log, n);
    SameRest(LogUsage(s.log[..n]), LogUsage(s.log[n..]), MissedUsage(past));
  }

  /** A sum of two figures, of which either may be missing. */
  function Both(a: Option<real>, b: Option<real>): real {
    a.GetOr(0.0) + b.GetOr(0.0)
  }

  lemma {:induction false} SpentConcat(c: Config, a: Log, b: Log)
    ensures Spent(c, a + b).GetOr(0.0) == Both(Spent(c, a), Spent(c, b))
  {
    if b == [] {
      assert a + b == a;
      ZeroIsFree(c);
    } else {
      var front, e := b[..|b| - 1], b[|b| - 1];
      SpentConcat(c, a, front);
      assert (a + b)[..|a + b| - 1] == a + front;
    }
  }

  lemma SpentSplit(c: Config, log: Log, n: nat)
    requires n <= |log|
    ensures Spent(c, log).GetOr(0.0) == Both(Spent(c, log[..n]), Spent(c, log[n..]))
  {
    assert log[..n] + log[n..] == log;
    SpentConcat(c, log[..n], log[n..]);
  }

  lemma SameRestOfMoney(a: Option<real>, b: Option<real>, k: Option<real>)
    ensures Both(a, b) == AddCost(b, k).GetOr(0.0) <==> a.GetOr(0.0) == k.GetOr(0.0)
  {
  }

  /** The same of money, when the logged costs are known: a figure that is missing is no money. */
  lemma MoneyRestoredExactly(c: Config, inputs: seq<Input>)
    requires !Run(c, inputs).live.phase.Idle? && CostsKnown(c, Run(c, inputs).log)
    ensures
      var s, past := Run(c, inputs), History(c, inputs);
      (ResumedUsd(c, s.log).GetOr(0.0) == s.live.meter.usd.GetOr(0.0)
       <==> Spent(c, Older(s.log, past)).GetOr(0.0) == MissedCost(c, past).GetOr(0.0))
  {
    SpendInvAlways(c, inputs);
    var s, past := Run(c, inputs), History(c, inputs);
    var n := Start(s.log, past);
    SpentSplit(c, s.log, n);
    MoneyRestored(c, s.log);
    SameRestOfMoney(Spent(c, s.log[..n]), Spent(c, s.log[n..]), MissedCost(c, past));
  }

  /** The process counts from the start of the session: it was resumed, or it has the only query. */
  ghost predicate CountsAll(log: Log, past: Past) {
    past.resumed || OneQuery(log)
  }

  lemma {:induction false} OnlyRunIsFirst(log: Log)
    requires OneQuery(log)
    ensures LastRun(log) == 0
  {
    if |log| > 1 {
      assert OneQuery(log[..|log| - 1]);
      OnlyRunIsFirst(log[..|log| - 1]);
    }
  }

  /** A process that counts everything: the live usage is what a resume would restore and the missed
      response, so tokens are lost exactly when that response used any; and with known costs its
      money, no more and no less, is what the restored money lacks. */
  lemma SpendRestored(c: Config, inputs: seq<Input>)
    requires !Run(c, inputs).live.phase.Idle? && CountsAll(Run(c, inputs).log, History(c, inputs))
    ensures
      var s, past := Run(c, inputs), History(c, inputs);
      && s.live.meter.usage == AddUsage(LogUsage(s.log), MissedUsage(past))
      && (s.live.meter.usage == LogUsage(s.log) <==> Nothing(MissedUsage(past)))
      && (CostsKnown(c, s.log) ==> s.live.meter.usd == AddCost(ResumedUsd(c, s.log), MissedCost(c, past)))
  {
    SpendInvAlways(c, inputs);
    var s, past := Run(c, inputs), History(c, inputs);
    if !past.resumed { OnlyRunIsFirst(s.log); }
    assert s.log[Start(s.log, past)..] == s.log;
    if CostsKnown(c, s.log) { MoneyRestored(c, s.log); }
  }

  /** Of the answers to a model call, only those that `Missed` names make the two differ: the guard
      is read off the answer. */
  lemma BranchDecides(c: Config, inputs: seq<Input>, i: Input)
    requires Run(c, inputs).live.phase.Calling? && !i.Crash?
    requires CountsAll(Run(c, inputs).log, History(c, inputs))
    ensures
      var s := Run(c, inputs);
      var t, missed := Step(c, s, i), Missed(s, i);
      && !t.live.phase.Idle?
      && (t.live.meter.usage == LogUsage(t.log) <==> missed.None? || Nothing(missed.value.usage))
  {
    var s := Run(c, inputs);
    RunSnoc(c, inputs, i);
    assert (inputs + [i])[..|inputs|] == inputs;
    AnswerGoesOn(c, s, i);
    SpendRestored(c, inputs + [i]);
  }

  lemma AnswerGoesOn(c: Config, s: State, i: Input)
    requires s.live.phase.Calling? && !i.Crash?
    ensures !Step(c, s, i).live.phase.Idle?
    ensures OneQuery(s.log) ==> OneQuery(Step(c, s, i).log)
  {
    var e := PlanCalling(c, s, i);
  }

  /** The process ends before its terminal was stored: the next one goes on without the missed
      response, as if its tokens had not been used. */
  lemma MissedIsForgotten(c: Config, inputs: seq<Input>, i: Input)
    requires !Run(c, inputs).live.phase.Idle? && !Run(c, inputs).live.phase.TerminalCheckpoint?
    requires CountsAll(Run(c, inputs).log, History(c, inputs))
    requires i.StartResume? && i.child.usd >= 0.0
    ensures
      var s := Run(c, inputs);
      var t := Step(c, Step(c, s, Crash), i);
      && !t.live.phase.Idle? && t.live.meter.usage == LogUsage(s.log)
      && s.live.meter.usage == AddUsage(t.live.meter.usage, MissedUsage(History(c, inputs)))
  {
    SpendRestored(c, inputs);
    UnendedReopens(c, inputs);
    ReopenedUsage(c, Step(c, Run(c, inputs), Crash), i);
  }

  lemma ReopenedUsage(c: Config, s: State, i: Input)
    requires s.live.phase.Idle? && Reopens(s.log) && i.StartResume? && i.child.usd >= 0.0
    ensures !Step(c, s, i).live.phase.Idle? && Step(c, s, i).live.meter.usage == LogUsage(s.log)
  {
    assert PlanIdle(c, s, i) == Only(PlanReopen(c, s, i, CurrentRunId(s.log).value));
  }

  // ---- money is tokens times rates --------------------------------------------------------------------------------

  /** What the tokens of a response cost at the rates of its model; nothing without a price. */
  function MetaDollars(c: Config, m: Meta): real {
    RunRebuild.Dollared(c, m.usage, RunRebuild.ModelOf(c, m)).GetOr(0.0)
  }

  /** The response was charged by the table: its model has a price, and no provider figure exceeded it. */
  predicate Rated(c: Config, e: Event) {
    Metered(e) ==>
      var m := e.meta.value;
      && RunRebuild.Dollared(c, m.usage, RunRebuild.ModelOf(c, m)).Some?
      && (m.costUsd.None? || m.costUsd == Some(MetaDollars(c, m)))
  }

  function LogDollars(c: Config, log: Log): real {
    if log == [] then 0.0
    else
      var e := log[|log| - 1];
      LogDollars(c, log[..|log| - 1]) + if Metered(e) then MetaDollars(c, e.meta.value) else 0.0
  }

  lemma RatedCost(c: Config, e: Event)
    requires Metered(e) && Rated(c, e)
    ensures EventCost(c, e.meta.value) == Some(MetaDollars(c, e.meta.value))
  {
    TokensTimesRates(e.meta.value.usage, c.prices, RunRebuild.ModelOf(c, e.meta.value));
  }

  lemma {:induction false} SpentIsDollars(c: Config, log: Log)
    requires forall k :: 0 <= k < |log| ==> Rated(c, log[k])
    ensures Spent(c, log).GetOr(0.0) == LogDollars(c, log)
  {
    if log == [] {
      ZeroIsFree(c);
    } else {
      var e := log[|log| - 1];
      SpentIsDollars(c, log[..|log| - 1]);
      if Metered(e) { RatedCost(c, e); }
    }
  }

  /** Responses charged by the table: the live money of a process is, over the responses it counts,
      the sum of tokens times rates. */
  lemma MoneyIsTokensTimesRates(c: Config, inputs: seq<Input>)
    requires !Run(c, inputs).live.phase.Idle? && History(c, inputs).missed.None?
    requires forall k :: 0 <= k < |Run(c, inputs).log| ==> Rated(c, Run(c, inputs).log[k])
    ensures
      var s, past := Run(c, inputs), History(c, inputs);
      s.live.meter.usd.GetOr(0.0) == LogDollars(c, s.log[Start(s.log, past)..])
  {
    SpendInvAlways(c, inputs);
    var s, past := Run(c, inputs), History(c, inputs);
    RatedIsKnown(c, s.log);
    SpentIsDollars(c, s.log[Start(s.log, past)..]);
  }

  lemma RatedIsKnown(c: Config, log: Log)
    requires forall k :: 0 <= k < |log| ==> Rated(c, log[k])
    ensures CostsKnown(c, log)
  {
    forall k | 0 <= k < |log| && Metered(log[k]) ensures EventCost(c, log[k].meta.value).Some? {
      RatedCost(c, log[k]);
    }
  }
}
