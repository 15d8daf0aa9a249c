/** What each step of the protocol owes to the session it is taken in.

    The predicates relate the state before a step to the state after it, without saying how the
    step gets there. The lemmas show that the steps meet them whenever everything that was proved
    about runs held before, and that it holds again after. */
module RunDuties {
  import opened Options
  import opened Cost
  import opened Events
  import opened ReplayHash
  import opened RunMachine
  import opened RunHash
  import opened RunCalls
  import opened RunWindow
  import opened RunBudget
  import opened RunTerminal

  datatype Topic = Hashes | Calls | Windows | Budgets | Terminals

  ghost predicate Holds(c: Config, s: State, topic: Topic) {
    match topic
    case Hashes => HashInv(s)
    case Calls => CallInv(s)
    case Windows => WindowInv(c, s)
    case Budgets => BudgetInv(c, s)
    case Terminals => TerminalInv(c, s)
  }

  /** All invariants of a session together. */
  ghost predicate Sound(c: Config, s: State) {
    forall topic :: Holds(c, s, topic)
  }

  lemma NewSessionSound(c: Config)
    ensures Sound(c, NEW_SESSION)
  {
    assert Run(c, []) == NEW_SESSION;
    HashInvAlways(c, []);
    CallInvAlways(c, []);
    WindowInvAlways(c, []);
    BudgetInvAlways(c, []);
    TerminalInvAlways(c, []);
  }

  lemma TerminalsKept(c: Config, s: State, i: Input)
    requires Holds(c, s, Hashes) && Holds(c, s, Terminals)
    ensures Holds(c, Step(c, s, i), Terminals)
  {
    StepKeepsTerminal(c, s, i);
  }

  lemma StepKeepsSound(c: Config, s: State, i: Input)
    requires Sound(c, s)
    ensures Sound(c, Step(c, s, i))
  {
    forall topic ensures Holds(c, Step(c, s, i), topic) {
      assert Holds(c, s, topic);
      match topic
      case Hashes => StepKeepsHash(c, s, i);
      case Calls => StepKeepsCalls(c, s, i);
      case Windows => StepKeepsWindow(c, s, i);
      case Budgets => StepKeepsBudget(c, s, i);
      case Terminals => assert Holds(c, s, Hashes); TerminalsKept(c, s, i);
    }
  }

  /** At most one event or one checkpoint is added, and nothing stored is ever changed. */
  predicate Extends(s: State, t: State) {
    s.log <= t.log && s.cps <= t.cps && |t.log| + |t.cps| <= |s.log| + |s.cps| + 1
  }

  lemma StepExtends(c: Config, s: State, i: Input)
    ensures Extends(s, Step(c, s, i))
  {
    var e := Plan(c, s, i);
  }

  /** The event that a step added. */
  function Added(s: State, t: State): Option<Event> {
    if |t.log| > |s.log| then Some(t.log[|s.log|]) else None
  }

  /** The calls and the results in the log are what they were. */
  predicate SameCalls(s: State, t: State) {
    UseIds(t.log) == UseIds(s.log) && AnswerIds(t.log) == AnswerIds(s.log)
  }

  lemma AddsNoCalls(log: Log, e: Event)
    requires !e.body.Assistant? && !e.body.ToolResult?
    ensures UseIds(log + [e]) == UseIds(log) && AnswerIds(log + [e]) == AnswerIds(log)
  {
    AppendCalls(log, e);
    assert Ids([]) == {};
  }

  /** Calls that have no result. */
  function Open(s: State): set<string> {
    UseIds(s.log) - AnswerIds(s.log)
  }

  // ---- runTurn --------------------------------------------------------------------------------------------------

  /** A started query has a run id above every number in the log, hence of no stored terminal; one
      that could not be stored is told, and leaves no trace. */
  ghost predicate Starts(s: State, t: State) {
    match Added(s, t)
    case Some(e) =>
      && e.body.RunStarted? && t.live.runId == e.seqNo && CurrentRunId(t.log) == Some(e.seqNo)
      && (forall k :: 0 <= k < |s.log| ==> s.log[k].seqNo < e.seqNo)
      && PersistedTerminal(t.log, e.seqNo).None?
    case None => OneResultLast(t.live.emitted)
  }

  lemma FreshRun(s: State, t: State, e: Event)
    requires Increasing(s.log) && Orderly(s.log) && e.body.RunStarted? && e.seqNo == NextSeq(s.log)
    requires t.log == s.log + [e] && t.live.runId == e.seqNo
    ensures Starts(s, t)
  {
    assert t.log[..|s.log|] == s.log;
    NoTerminalYet(s.log, e.seqNo);
  }

  lemma OrderlyLog(c: Config, s: State)
    requires Sound(c, s)
    ensures Increasing(s.log) && Orderly(s.log)
  {
    assert Holds(c, s, Hashes) && Holds(c, s, Terminals);
  }

  lemma QueryFresh(c: Config, s: State, i: Input)
    requires Sound(c, s) && i.StartQuery?
    ensures Starts(s, Apply(s, PlanQuery(c, s, i)))
  {
    OrderlyLog(c, s);
    if i.ok { FreshRun(s, Apply(s, PlanQuery(c, s, i)), Event(NextSeq(s.log), RunStarted, None)); }
  }

  lemma QueryStarts(c: Config, s: State, i: Input)
    requires Sound(c, s) && s.live.phase.Idle? && i.StartQuery? && i.child.usd >= 0.0
    ensures Sound(c, Apply(s, PlanQuery(c, s, i)))
    ensures Starts(s, Apply(s, PlanQuery(c, s, i)))
  {
    StepKeepsSound(c, s, i);
    QueryFresh(c, s, i);
  }

  /** Blocked input is not stored and ends the run; what is stored is what the guardrails let through. */
  ghost predicate Guards(s: State, t: State, blocked: bool, text: string) {
    && SameCalls(s, t)
    && (blocked ==> t.log == s.log && t.live.phase.Finish? && t.live.phase.result.subtype.Guardrail?)
    && (Added(s, t).Some? ==> Added(s, t).value.body == User(text))
    && (t.live.phase.QuerySeed? <==> Added(s, t).Some?)
  }

  lemma UserLogged(c: Config, s: State, i: Input)
    requires Sound(c, s) && s.live.phase.QueryUser? && i.Guarded?
    ensures Sound(c, Apply(s, PlanGuarded(c, s, i)))
    ensures Guards(s, Apply(s, PlanGuarded(c, s, i)), i.blocked, i.text)
  {
    StepKeepsSound(c, s, i);
    var e := PlanGuarded(c, s, i);
    if e.Appends? { AddsNoCalls(s.log, e.event); }
  }

  /** The seed of a query: the fold of the query's own events, as the newest checkpoint says too. */
  lemma SeedWritten(c: Config, s: State, i: Input)
    requires Sound(c, s) && s.live.phase.QuerySeed? && i.Seeded?
    ensures Sound(c, Apply(s, PlanSeeded(c, s, i)))
    ensures Saves(s, Apply(s, PlanSeeded(c, s, i)))
  {
    StepKeepsSound(c, s, i);
    var t := Apply(s, PlanSeeded(c, s, i));
    assert Holds(c, s, Hashes);
    LastRunIsRun(s.log);
    QuerySeedHash(s);
  }

  // ---- resumeTurn -----------------------------------------------------------------------------------------------

  /** A resume stores nothing. It reopens the current run unless that is closed; the calls it
      dispatches again are open, each once, and they are all that the run has open. */
  ghost predicate Resumes(c: Config, s: State, t: State) {
    && t.log == s.log && t.cps == s.cps
    && (Closed(s.log) ==> t.live.phase.Idle? && OneResultLast(t.live.emitted))
    && (s.log != [] && !Closed(s.log) ==> !t.live.phase.Idle? && CurrentRunId(s.log) == Some(t.live.runId))
    && (t.live.phase.Head? ==> OpenRun(t.log) == {})
    && (t.live.phase.Redispatch? ==>
          Distinct(t.live.phase.calls) && OpenRun(t.log) <= Ids(t.live.phase.calls) <= Open(t))
  }

  lemma SessionResumed(c: Config, s: State, i: Input)
    requires Sound(c, s) && s.live.phase.Idle? && i.StartResume? && i.child.usd >= 0.0
    ensures Sound(c, Apply(s, PlanResume(c, s, i)))
    ensures Resumes(c, s, Apply(s, PlanResume(c, s, i)))
  {
    StepKeepsSound(c, s, i);
    ResumedRun(c, s, i);
    ResumedCalls(c, s, i);
  }

  lemma ResumedRun(c: Config, s: State, i: Input)
    requires Sound(c, s) && s.live.phase.Idle? && i.StartResume?
    ensures
      var t := Apply(s, PlanResume(c, s, i));
      && t.log == s.log && t.cps == s.cps
      && (Closed(s.log) ==> t.live.phase.Idle? && OneResultLast(t.live.emitted))
      && (s.log != [] && !Closed(s.log) ==> !t.live.phase.Idle? && CurrentRunId(s.log) == Some(t.live.runId))
  {
    assert Holds(c, s, Hashes) && Holds(c, s, Terminals);
    if s.log != [] {
      StartedRun(s.log);
      ClosedIsStored(s.log, CurrentRunId(s.log).value);
    }
  }

  lemma {:induction false} StartedRun(log: Log)
    requires log != [] && log[0].body.RunStarted?
    ensures CurrentRunId(log).Some?
  {
    if |log| > 1 { StartedRun(log[..|log| - 1]); }
  }

  lemma ResumedCalls(c: Config, s: State, i: Input)
    requires Sound(c, s) && s.live.phase.Idle? && i.StartResume?
    ensures
      var t := Apply(s, PlanResume(c, s, i));
      && (t.live.phase.Head? ==> OpenRun(t.log) == {})
      && (t.live.phase.Redispatch? ==>
            Distinct(t.live.phase.calls) && OpenRun(t.log) <= Ids(t.live.phase.calls) <= Open(t))
  {
    assert Holds(c, s, Calls);
    PendingOwed(s.log);
  }

  // ---- runLoop: a batch of tool results -------------------------------------------------------------------------

  /** Taking a batch answers nothing yet, and each result in it is for another open call. */
  ghost predicate TakesBatchOf(s: State, t: State) {
    && SameCalls(s, t)
    && (t.live.phase.Appending? ==>
          DistinctResults(t.live.phase.results) && ResultIds(t.live.phase.results) <= Open(t))
  }

  lemma BatchTaken(c: Config, s: State, i: Input)
    requires Sound(c, s) && !i.Crash? && (s.live.phase.Redispatch? || s.live.phase.Dispatching?)
    ensures Sound(c, Apply(s, PlanDispatch(s, i)))
    ensures TakesBatchOf(s, Apply(s, PlanDispatch(s, i)))
  {
    StepKeepsSound(c, s, i);
    assert Holds(c, s, Calls);
    var e := PlanDispatch(s, i);
    if e.Appends? { AddsNoCalls(s.log, e.event); }
    if e.live.phase.Appending? { ResultsCoverCalls(e.live.phase.results, s.live.phase.calls); }
  }

  /** A stored result answers a call that was open, and no other. */
  ghost predicate Answers(s: State, t: State) {
    && UseIds(t.log) == UseIds(s.log)
    && match Added(s, t)
       case Some(e) =>
         && e.body.ToolResult? && e.body.result.callId in Open(s)
         && Open(t) == Open(s) - {e.body.result.callId}
       case None => AnswerIds(t.log) == AnswerIds(s.log)
  }

  lemma ResultClosesCall(log: Log, e: Event)
    requires e.body.ToolResult?
    ensures UseIds(log + [e]) == UseIds(log)
    ensures UseIds(log + [e]) - AnswerIds(log + [e]) == UseIds(log) - AnswerIds(log) - {e.body.result.callId}
  {
    AppendCalls(log, e);
  }

  lemma FirstIsOpen(c: Config, s: State)
    requires Sound(c, s) && s.live.phase.Appending? && s.live.phase.results != []
    ensures s.live.phase.results[0].callId in Open(s)
  {
    assert Holds(c, s, Calls);
    TakeResult(s.live.phase.results);
  }

  lemma ResultAnswers(c: Config, s: State, i: Input)
    requires Sound(c, s) && s.live.phase.Appending?
    ensures Answers(s, Apply(s, PlanAppending(c, s, i)))
  {
    var e := PlanAppending(c, s, i);
    if e.Appends? {
      FirstIsOpen(c, s);
      ResultClosesCall(s.log, e.event);
    }
  }

  lemma ResultStored(c: Config, s: State, i: Input)
    requires Sound(c, s) && !i.Crash? && s.live.phase.Appending?
    ensures Sound(c, Apply(s, PlanAppending(c, s, i)))
    ensures Answers(s, Apply(s, PlanAppending(c, s, i)))
  {
    StepKeepsSound(c, s, i);
    ResultAnswers(c, s, i);
  }

  // ---- runLoop: one turn ----------------------------------------------------------------------------------------

  /** A compaction marker changes no call and nothing that a resume replays. */
  ghost predicate Compacts(s: State, t: State) {
    && SameCalls(s, t) && ReplayAll(t.log) == ReplayAll(s.log)
    && (Added(s, t).Some? ==> Added(s, t).value.body.Compaction?)
  }

  lemma HeadPassed(c: Config, s: State, i: Input)
    requires Sound(c, s) && s.live.phase.Head? && i.AtHead?
    ensures Sound(c, Apply(s, PlanHead(s, i)))
    ensures Compacts(s, Apply(s, PlanHead(s, i)))
  {
    StepKeepsSound(c, s, i);
    var e := PlanHead(s, i);
    if e.Appends? {
      AddsNoCalls(s.log, e.event);
      assert (s.log + [e.event])[..|s.log|] == s.log;
    }
  }

  /** The model is called only strictly under the ceilings, with a turn to spare and no call of the
      run open; and its window is the one before, but for the reminder. */
  ghost predicate Opens(c: Config, s: State, t: State) {
    && t.log == s.log
    && (t.live.phase.Calling? ==>
          && BelowTokens(c.policy, Tokens(t.live.meter.usage)) && BelowCost(c.policy, t.live.meter.usd)
          && t.live.meter.turn < c.policy.maxTurns && OpenRun(t.log) == {}
          && DropInjection(t.live.window).messages == s.live.window.messages)
  }

  lemma GatePassed(c: Config, s: State, i: Input)
    requires Sound(c, s) && s.live.phase.Preflight? && i.Gate?
    ensures Sound(c, Apply(s, PlanGate(c, s, i)))
    ensures Opens(c, s, Apply(s, PlanGate(c, s, i)))
  {
    StepKeepsSound(c, s, i);
    var t := Apply(s, PlanGate(c, s, i));
    assert Holds(c, s, Calls);
    GateCharged(c, s, i);
    GateWindow(c, s, i);
  }

  lemma GateCharged(c: Config, s: State, i: Input)
    requires Sound(c, s) && s.live.phase.Preflight? && i.Gate?
    ensures var m, p := s.live.meter, c.policy;
      (PlanGate(c, s, i).live.phase.Calling? ==>
        BelowTokens(p, Tokens(m.usage)) && BelowCost(p, m.usd) && m.turn < p.maxTurns)
  {
    assert Holds(c, s, Budgets);
    RunBudget.GateKeeps(c, s, i);
  }

  lemma GateWindow(c: Config, s: State, i: Input)
    requires Sound(c, s) && s.live.phase.Preflight? && i.Gate?
    ensures DropInjection(PlanGate(c, s, i).live.window).messages == s.live.window.messages
  {
    assert Holds(c, s, Windows);
    var w := PlanGate(c, s, i).live.window;
    if i.injection.Some? { assert w.messages[..|w.messages| - 1] == s.live.window.messages; }
  }

  /** A stored response is charged to the log once, its calls are new and all open, and the reminder
      is gone from the window: what a crash would now replay is what the next turn starts from. */
  ghost predicate Hears(c: Config, s: State, t: State, reply: Reply) {
    && AnswerIds(t.log) == AnswerIds(s.log)
    && (Added(s, t).Some? ==>
          && LogUsage(t.log) == AddUsage(LogUsage(s.log), reply.usage)
          && Ids(Uses(reply.content)) !! UseIds(s.log) && Ids(Uses(reply.content)) <= Open(t)
          && OpenRun(t.log) <= Ids(Uses(reply.content))
          && WindowOk(t.log, t.live.phase, t.live.window) && !t.live.window.injected)
  }

  lemma ReplyCharged(c: Config, s: State, i: Input)
    requires i.ModelReply? && PlanReply(c, s, i).Appends?
    ensures LogUsage(Apply(s, PlanReply(c, s, i)).log) == AddUsage(LogUsage(s.log), i.reply.usage)
  {
    var e := PlanReply(c, s, i);
    assert (s.log + [e.event])[..|s.log|] == s.log;
  }

  lemma TurnOpens(log: Log, e: Event, ids: set<string>)
    requires CallsOk(log) && OpenRun(log) == {} && e.body.Assistant?
    requires FreshCalls(log, UsesOf(e.body)) && ids == Ids(UsesOf(e.body))
    ensures AnswerIds(log + [e]) == AnswerIds(log) && ids !! UseIds(log)
    ensures ids <= UseIds(log + [e]) - AnswerIds(log + [e]) && OpenRun(log + [e]) <= ids
  {
    AppendCalls(log, e);
    AnswersAreUses(log);
  }

  lemma CallingIsAnswered(c: Config, s: State)
    requires Sound(c, s) && s.live.phase.Calling?
    ensures CallsOk(s.log) && OpenRun(s.log) == {}
  {
    assert Holds(c, s, Calls);
  }

  lemma ReplyCalls(c: Config, s: State, i: Input)
    requires Sound(c, s) && s.live.phase.Calling? && i.ModelReply? && PlanReply(c, s, i).Appends?
    ensures
      var t, ids := Apply(s, PlanReply(c, s, i)), Ids(Uses(i.reply.content));
      && AnswerIds(t.log) == AnswerIds(s.log)
      && ids !! UseIds(s.log) && ids <= Open(t) && OpenRun(t.log) <= ids
  {
    CallingIsAnswered(c, s);
    TurnOpens(s.log, PlanReply(c, s, i).event, Ids(Uses(i.reply.content)));
  }

  lemma ReplyWindow(c: Config, s: State, i: Input)
    requires Sound(c, s) && s.live.phase.Calling? && i.ModelReply? && PlanReply(c, s, i).Appends?
    ensures
      var t := Apply(s, PlanReply(c, s, i));
      WindowOk(t.log, t.live.phase, t.live.window) && !t.live.window.injected
  {
    assert Holds(c, s, Windows);
    RunWindow.CallingKeeps(c, s, i);
  }

  lemma ReplyHeard(c: Config, s: State, i: Input)
    requires Sound(c, s) && s.live.phase.Calling? && i.ModelReply?
    ensures Hears(c, s, Apply(s, PlanReply(c, s, i)), i.reply)
  {
    if PlanReply(c, s, i).Appends? {
      ReplyCharged(c, s, i);
      ReplyCalls(c, s, i);
      ReplyWindow(c, s, i);
    }
  }

  lemma ReplyStored(c: Config, s: State, i: Input)
    requires Sound(c, s) && s.live.phase.Calling? && i.ModelReply?
    ensures Sound(c, Apply(s, PlanReply(c, s, i)))
    ensures Hears(c, s, Apply(s, PlanReply(c, s, i)), i.reply)
  {
    StepKeepsSound(c, s, i);
    ReplyHeard(c, s, i);
  }

  /** An interrupted turn is stored without calls and without usage. */
  ghost predicate Interrupts(s: State, t: State, partial: string) {
    && SameCalls(s, t) && LogUsage(t.log) == LogUsage(s.log)
    && (Added(s, t).Some? ==> partial != "" && Added(s, t).value.body == Assistant([Text(partial)], true))
    && (t.live.phase.Finish? ==> t.live.phase.result.subtype.Error?)
  }

  lemma FailureStored(c: Config, s: State, i: Input)
    requires Sound(c, s) && s.live.phase.Calling? && i.ModelFails?
    ensures Sound(c, Apply(s, PlanFails(c, s, i)))
    ensures Interrupts(s, Apply(s, PlanFails(c, s, i)), i.partial)
  {
    StepKeepsSound(c, s, i);
    var e := PlanFails(c, s, i);
    if e.Appends? {
      NoUses(i.partial);
      assert Ids([]) == {};
      AppendCalls(s.log, e.event);
      AppendUsage(s.log, e.event, 0);
      assert s.log[0..] == s.log && (s.log + [e.event])[0..] == s.log + [e.event];
    }
  }

  /** A run is decided a success only strictly under its ceilings and with all its calls answered;
      what is dispatched instead is open, each call once. */
  ghost predicate Decides(c: Config, s: State, t: State) {
    && SameCalls(s, t)
    && (t.live.phase.Finish? && t.live.phase.result.subtype.Success? ==>
          var r := t.live.phase.result;
          Under(c.policy, Tokens(r.usage) + t.live.meter.child.tokens, r.numTurns, r.usd) && OpenRun(t.log) == {})
    && (t.live.phase.Dispatching? ==> Distinct(t.live.phase.calls) && Ids(t.live.phase.calls) <= Open(t))
  }

  lemma DecidedAdds(c: Config, s: State, i: Input)
    requires s.live.phase.PostCheck? && i.AfterCall?
    ensures SameCalls(s, Apply(s, PlanAfter(c, s, i)))
  {
    var e := PlanAfter(c, s, i);
    if e.Appends? { AddsNoCalls(s.log, e.event); }
  }

  lemma DecidedPhase(c: Config, s: State, i: Input)
    requires PhaseOk(s.log, s.live.phase) && s.live.phase.PostCheck? && i.AfterCall?
    ensures
      var t := Apply(s, PlanAfter(c, s, i));
      && (t.live.phase.Finish? && t.live.phase.result.subtype.Success? ==> OpenRun(t.log) == {})
      && (t.live.phase.Dispatching? ==> Distinct(t.live.phase.calls) && Ids(t.live.phase.calls) <= Open(t))
  {
    TurnQuiet(c, s, i);
    assert Plan(c, s, i) == PlanAfter(c, s, i);
  }

  lemma DecidedCalls(c: Config, s: State, i: Input)
    requires Sound(c, s) && s.live.phase.PostCheck? && i.AfterCall?
    ensures
      var t := Apply(s, PlanAfter(c, s, i));
      && (t.live.phase.Finish? && t.live.phase.result.subtype.Success? ==> OpenRun(t.log) == {})
      && (t.live.phase.Dispatching? ==> Distinct(t.live.phase.calls) && Ids(t.live.phase.calls) <= Open(t))
  {
    assert Holds(c, s, Calls);
    DecidedPhase(c, s, i);
  }

  lemma DecidedUnder(c: Config, s: State, i: Input)
    requires Sound(c, s) && s.live.phase.PostCheck? && i.AfterCall?
    ensures
      var p := PlanAfter(c, s, i).live.phase;
      (p.Finish? && p.result.subtype.Success? ==> ResultOk(c, p.result, s.live.meter.child.tokens))
  {
    assert Holds(c, s, Budgets);
    RunBudget.AfterKeeps(c, s, i);
  }

  lemma DecidedSound(c: Config, s: State, i: Input)
    requires Sound(c, s) && s.live.phase.PostCheck? && i.AfterCall?
    ensures Sound(c, Apply(s, PlanAfter(c, s, i)))
  {
    StepKeepsSound(c, s, i);
  }

  lemma Decided(c: Config, s: State, i: Input)
    requires Sound(c, s) && s.live.phase.PostCheck? && i.AfterCall?
    ensures Sound(c, Apply(s, PlanAfter(c, s, i)))
    ensures Decides(c, s, Apply(s, PlanAfter(c, s, i)))
  {
    DecidedSound(c, s, i);
    DecidedAdds(c, s, i);
    DecidedCalls(c, s, i);
    DecidedUnder(c, s, i);
  }

  // ---- checkpoints and the terminal -----------------------------------------------------------------------------

  /** What is told is told once, in last place, and unless it is an error it was stored before. A
      stored terminal is found by every later resume, and closes the run unless it is a suspension. */
  ghost predicate Concludes(c: Config, s: State, t: State, result: Result) {
    && SameCalls(s, t)
    && (t.live.phase.Idle? ==> Told(c, t))
    && (Added(s, t).Some? ==>
          && PersistedTerminal(t.log, s.live.runId) == Some(result)
          && (Closed(t.log) <==> !result.subtype.Suspended?))
    && (Added(s, t).None? ==> t.live.phase.Idle?)
  }

  lemma TerminalTold(c: Config, s: State, i: Input)
    requires Sound(c, s) && s.live.phase.Finish? && i.Persist?
    ensures
      var t := Apply(s, PlanFinish(c, s, i));
      && (t.live.phase.Idle? ==> Told(c, t))
      && (i.ok ==> PersistedTerminal(t.log, s.live.runId) == Some(s.live.phase.result)
                   && (Closed(t.log) <==> !s.live.phase.result.subtype.Suspended?))
  {
    assert Holds(c, s, Terminals);
    var e := PlanFinish(c, s, i);
    RunTerminal.FinishKeeps(c, s, i);
    if e.Appends? { AppendTerminal(s.log, e.event); }
  }

  lemma TerminalAdds(c: Config, s: State, i: Input)
    requires s.live.phase.Finish? && i.Persist?
    ensures SameCalls(s, Apply(s, PlanFinish(c, s, i)))
  {
    var e := PlanFinish(c, s, i);
    if e.Appends? { AddsNoCalls(s.log, e.event); }
  }

  lemma TerminalConcludes(c: Config, s: State, i: Input)
    requires Sound(c, s) && s.live.phase.Finish? && i.Persist?
    ensures Concludes(c, s, Apply(s, PlanFinish(c, s, i)), s.live.phase.result)
  {
    TerminalTold(c, s, i);
    TerminalAdds(c, s, i);
  }

  lemma TerminalSound(c: Config, s: State, i: Input)
    requires Sound(c, s) && s.live.phase.Finish? && i.Persist?
    ensures Sound(c, Apply(s, PlanFinish(c, s, i)))
  {
    StepKeepsSound(c, s, i);
  }

  lemma TerminalStored(c: Config, s: State, i: Input)
    requires Sound(c, s) && s.live.phase.Finish? && i.Persist?
    ensures Sound(c, Apply(s, PlanFinish(c, s, i)))
    ensures Concludes(c, s, Apply(s, PlanFinish(c, s, i)), s.live.phase.result)
  {
    TerminalSound(c, s, i);
    TerminalConcludes(c, s, i);
  }

  /** A checkpoint names the next sequence number and holds the fold of its segment of the log; the
      closing one holds the fold of the whole log. */
  ghost predicate Saves(s: State, t: State) {
    && t.log == s.log
    && (|t.cps| > |s.cps| ==>
          var w := t.cps[|s.cps|];
          && w.base < w.at == |t.log| && w.cp.hash == Replayed(t.log[w.base..])
          && w.cp.seqNo == NextSeq(t.log) && (s.live.phase.TerminalCheckpoint? ==> w.base == 0))
  }

  lemma CheckpointWritten(c: Config, s: State, i: Input)
    requires Sound(c, s) && i.Checkpointed?
    requires
      var p := s.live.phase;
      p.Replied? || p.SuspendCheckpoint? || p.AbortCheckpoint? || p.TerminalCheckpoint?
    ensures Sound(c, Apply(s, PlanCheckpoint(c, s, i)))
    ensures Saves(s, Apply(s, PlanCheckpoint(c, s, i)))
  {
    StepKeepsSound(c, s, i);
    assert Holds(c, s, Hashes);
    var t := Apply(s, PlanCheckpoint(c, s, i));
    assert s.log[0..] == s.log;
  }
}
