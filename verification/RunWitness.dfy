/** Concrete runs that show where the one-query promises stop. */
module RunWitness {
  import opened Options
  import opened Cost
  import opened Events
  import opened RunMachine
  import opened RunCalls
  import opened RunBudget
  import opened RunTerminal
  import opened RunSpend

  ghost predicate Reachable(c: Config, s: State) {
    exists inputs :: Run(c, inputs) == s
  }

  lemma ReachableStep(c: Config, s: State, i: Input)
    requires Reachable(c, s)
    ensures Reachable(c, Step(c, s, i))
  {
    var inputs :| Run(c, inputs) == s;
    RunSnoc(c, inputs, i);
  }

  lemma ReachableQuery(c: Config, s: State, o: Opening)
    requires Reachable(c, s)
    ensures Reachable(c, QueryUpToCall(c, s, o))
  {
    var s1 := Step(c, s, StartQuery(o.child, true));
    var s2 := Step(c, s1, Guarded(false, o.text, true));
    var s3 := Step(c, s2, Seeded(o.prefix));
    var s4 := Step(c, s3, AtHead(false, o.compacted, true));
    ReachableStep(c, s, StartQuery(o.child, true));
    ReachableStep(c, s1, Guarded(false, o.text, true));
    ReachableStep(c, s2, Seeded(o.prefix));
    ReachableStep(c, s3, AtHead(false, o.compacted, true));
    ReachableStep(c, s4, Gate(o.injection, o.elapsedMs));
  }

  /** A query with nothing spent, compacted or injected. */
  function Plain(text: string): Opening {
    Opening(Spend(0, 0.0), text, [], None, None, 0)
  }

  /** A durable store, one token of budget, no prices, sixteen turns. */
  const TIGHT := Config(true, Policy(None, Some(1), None, 16), map[], None, {}, false, 0)

  const ASK := Reply([Use(ToolUse("call", "tool", ""))], Usage(1, 1, 0), None, None)

  /** Nothing has been spent in this process. */
  predicate Unspent(m: Meter) {
    Tokens(m.usage) == 0 && m.turn == 0 && m.child.tokens == 0
  }

  lemma FirstGateOpen(m: Meter)
    requires Unspent(m)
    ensures Ceiling(TIGHT, m, 0) == None
  {
    var p := TIGHT.policy;
    assert p.maxTokens == Some(1) && p.maxCostUsd.None? && p.maxWallClockMs.None? && p.maxTurns == 16;
  }

  lemma UnspentAtHead(c: Config, s: State, text: string, child: Spend)
    requires s.live.phase.Idle? && child.tokens == 0 && child.usd >= 0.0
    ensures
      var s1 := Step(c, s, StartQuery(child, true));
      var s3 := Step(c, Step(c, s1, Guarded(false, text, true)), Seeded([]));
      s3.live.phase.Head? && Unspent(s3.live.meter)
  {
    var s1 := Step(c, s, StartQuery(child, true));
    assert s1.live.phase.QueryUser? && s1.live.meter.child == child;
    var s2 := Step(c, s1, Guarded(false, text, true));
    assert s2.live.phase.QuerySeed? && s2.live.meter.child == child;
  }

  lemma GatePasses(s: State)
    requires s.live.phase.Head? && Unspent(s.live.meter)
    ensures
      var t := Step(TIGHT, Step(TIGHT, s, AtHead(false, None, true)), Gate(None, 0));
      t.live.phase.Calling? && Unspent(t.live.meter)
  {
    var t := Step(TIGHT, s, AtHead(false, None, true));
    assert t.live.phase.Preflight? && t.live.meter == s.live.meter;
    FirstGateOpen(t.live.meter);
  }

  lemma QueryReachesCall(s: State, text: string)
    requires s.live.phase.Idle?
    ensures
      var t := QueryUpToCall(TIGHT, s, Plain(text));
      t.live.phase.Calling? && Unspent(t.live.meter)
  {
    UnspentAtHead(TIGHT, s, text, Spend(0, 0.0));
    var s2 := Step(TIGHT, Step(TIGHT, s, StartQuery(Spend(0, 0.0), true)), Guarded(false, text, true));
    GatePasses(Step(TIGHT, s2, Seeded([])));
  }

  lemma AskIsPersisted(s: State)
    requires s.live.phase.Calling? && "call" !in UseIds(s.log)
    ensures
      var t := Step(TIGHT, s, ModelReply(ASK, false, false, true));
      t.live.phase == Replied(ASK.content) && t.live.meter == Charge(TIGHT, s.live.meter, ASK)
  {
    assert Uses(ASK.content) == [ASK.content[0].tool] + Uses([]);
    assert FreshCalls(s.log, Uses(ASK.content));
  }

  lemma AskBreaksCeiling(s: State)
    requires s.live.phase.Calling? && Unspent(s.live.meter) && "call" !in UseIds(s.log)
    ensures
      var t := Step(TIGHT, s, ModelReply(ASK, false, false, true));
      var u := Step(TIGHT, t, Checkpointed(true));
      u.live.phase == PostCheck(ASK.content) && Ceiling(TIGHT, u.live.meter, 0).Some?
  {
    AskIsPersisted(s);
    var m := Charge(TIGHT, s.live.meter, ASK);
    assert Tokens(m.usage) >= 2;
    var p := TIGHT.policy;
    assert p.maxTokens == Some(1);
    assert PreflightAbort(p, Tokens(m.usage) + m.child.tokens, m.turn, 0, TreeUsd(m.usd, m.child.usd)).Some?;
  }

  /** A second query calls the model while a call of the first query is still unanswered. */
  lemma SecondQueryWitness() returns (s: State)
    ensures Reachable(TIGHT, s) && s.live.phase.Calling?
    ensures "call" in UseIds(s.log) - AnswerIds(s.log)
  {
    assert Run(TIGHT, []) == NEW_SESSION;
    QueryReachesCall(NEW_SESSION, "hi");
    ReachableQuery(TIGHT, NEW_SESSION, Plain("hi"));
    CallInvAlways(TIGHT, []);
    FirstCallSeesOpenCalls(TIGHT, NEW_SESSION, Plain("hi"));
    s := QueryUpToCall(TIGHT, NEW_SESSION, Plain("hi"));
    s := AskAndStop(s);
    QueryReachesCall(s, "again");
    ReachableQuery(TIGHT, s, Plain("again"));
    FirstCallSeesOpenCalls(TIGHT, s, Plain("again"));
    s := QueryUpToCall(TIGHT, s, Plain("again"));
  }

  lemma AskAndStop(s: State) returns (u: State)
    requires Reachable(TIGHT, s) && s.live.phase.Calling? && "call" !in UseIds(s.log)
    requires Unspent(s.live.meter)
    ensures Reachable(TIGHT, u) && u.live.phase.Idle? && CallInv(u)
    ensures "call" in UseIds(u.log) - AnswerIds(u.log)
  {
    AskBreaksCeiling(s);
    u := Step(TIGHT, s, ModelReply(ASK, false, false, true));
    ReachableStep(TIGHT, s, ModelReply(ASK, false, false, true));
    ReachableStep(TIGHT, u, Checkpointed(true));
    u := Step(TIGHT, u, Checkpointed(true));
    var inputs :| Run(TIGHT, inputs) == u;
    CallInvAlways(TIGHT, inputs);
    AbandonLeavesCallsOpen(TIGHT, u, AfterCall(0, Accepted(""), true));
    StepKeepsCalls(TIGHT, u, AfterCall(0, Accepted(""), true));
    StoredKeepsCalls(TIGHT, Step(TIGHT, u, AfterCall(0, Accepted(""), true)));
    assert Uses(ASK.content)[0].callId == "call";
    ReachableStep(TIGHT, u, AfterCall(0, Accepted(""), true));
    u := Step(TIGHT, u, AfterCall(0, Accepted(""), true));
    ReachableStep(TIGHT, u, Persist(true));
    u := Step(TIGHT, u, Persist(true));
    ReachableStep(TIGHT, u, Checkpointed(true));
    u := Step(TIGHT, u, Checkpointed(true));
  }

  // ---- spend that a resume does not restore ---------------------------------------------------------------------

  const GO_ON := StartResume(Spend(0, 0.0), [], false, None, Accepted(""))

  lemma PlainCallLog(s: State) returns (started: Event, user: Event)
    requires s.live.phase.Idle?
    ensures QueryUpToCall(TIGHT, s, Plain("hi")).log == s.log + [started] + [user]
    ensures started.body.RunStarted? && user.body.User?
  {
    var t := QueryAtHead(TIGHT, s, Plain("hi"));
    started, user := QueryLogs(TIGHT, s, Plain("hi"));
    var u := Step(TIGHT, t, AtHead(false, None, true));
    assert u.log == t.log && Step(TIGHT, u, Gate(None, 0)).log == u.log;
  }

  lemma OpeningHasNothing(none: Log, started: Event, user: Event)
    requires none == [] && started.body.RunStarted? && user.body.User?
    ensures
      var log := none + [started] + [user];
      "call" !in UseIds(log) && LogUsage(log) == ZeroUsage() && PendingCalls(log) == []
  {
    AppendCalls(none, started);
    AppendCalls(none + [started], user);
    OpeningUsesNothing(started, user);
    assert none + [started] + [user] == [started, user];
  }

  /** The first query of a session, up to its first call: nothing is in the log but the query. */
  lemma OnlyQueryLogged() returns (s: State)
    ensures Reachable(TIGHT, s) && s.live.phase.Calling? && Unspent(s.live.meter) && Reopens(s.log)
    ensures "call" !in UseIds(s.log) && LogUsage(s.log) == ZeroUsage() && PendingCalls(s.log) == []
  {
    assert Run(TIGHT, []) == NEW_SESSION;
    var started, user := PlainCallLog(NEW_SESSION);
    OpeningHasNothing(NEW_SESSION.log, started, user);
    QueryReachesCall(NEW_SESSION, "hi");
    ReachableQuery(TIGHT, NEW_SESSION, Plain("hi"));
    s := QueryUpToCall(TIGHT, NEW_SESSION, Plain("hi"));
    ReachableReopens(s);
  }

  lemma ReachableReopens(s: State)
    requires Reachable(TIGHT, s) && s.live.phase.Calling?
    ensures Reopens(s.log)
  {
    var inputs :| Run(TIGHT, inputs) == s;
    UnendedReopens(TIGHT, inputs);
  }

  /** The process is aborted after a response of two tokens, and its checkpoint cannot be written.
      The resumed process has used nothing, so it calls the model again, over a ceiling of one token. */
  lemma AbortedSpendWitness() returns (s: State, t: State, u: State)
    ensures Reachable(TIGHT, s) && s.live.phase.AbortCheckpoint? && Tokens(s.live.meter.usage) == 2
    ensures t == Step(TIGHT, Step(TIGHT, s, Checkpointed(false)), GO_ON)
    ensures t.live.phase.Head? && t.live.meter.usage == ZeroUsage()
    ensures u == Step(TIGHT, Step(TIGHT, t, AtHead(false, None, true)), Gate(None, 0)) && u.live.phase.Calling?
  {
    var called := OnlyQueryLogged();
    s := Step(TIGHT, called, ModelReply(ASK, true, false, true));
    ReachableStep(TIGHT, called, ModelReply(ASK, true, false, true));
    AskAborted(called);
    var crashed := Step(TIGHT, s, Checkpointed(false));
    t := Step(TIGHT, crashed, GO_ON);
    ReopenedUsage(TIGHT, crashed, GO_ON);
    GoesOn(crashed);
    u := Step(TIGHT, Step(TIGHT, t, AtHead(false, None, true)), Gate(None, 0));
    GatePasses(t);
  }

  lemma AskAborted(s: State)
    requires s.live.phase.Calling? && Unspent(s.live.meter) && "call" !in UseIds(s.log)
    ensures
      var t := Step(TIGHT, s, ModelReply(ASK, true, false, true));
      && t.live.phase.AbortCheckpoint? && Tokens(t.live.meter.usage) == 2 && t.log == s.log
      && Step(TIGHT, t, Checkpointed(false)).live.phase.Idle? && Step(TIGHT, t, Checkpointed(false)).log == s.log
  {
    assert Uses(ASK.content) == [ASK.content[0].tool] + Uses([]);
    assert FreshCalls(s.log, Uses(ASK.content));
    assert Step(TIGHT, s, ModelReply(ASK, true, false, true)).live.meter == Charge(TIGHT, s.live.meter, ASK);
  }

  lemma GoesOn(s: State)
    requires s.live.phase.Idle? && Reopens(s.log) && PendingCalls(s.log) == []
    ensures
      var t := Step(TIGHT, s, GO_ON);
      t.live.phase.Head? && t.live.meter.turn == 0 && t.live.meter.child.tokens == 0
  {
    assert PlanIdle(TIGHT, s, GO_ON) == Only(PlanReopen(TIGHT, s, GO_ON, CurrentRunId(s.log).value));
  }
}
