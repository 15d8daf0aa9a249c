/** Tool calls and their results over every run of the protocol. */
module RunCalls {
  import opened Options
  import opened Cost
  import opened Events
  import opened RunMachine

  /** Terminals that close a run only when its calls have been answered. */
  predicate ClosesClean(r: Result) {
    r.subtype.Success? || r.subtype.Aborted?
  }

  /** Every result answers an earlier, still unanswered call; call ids are never reused; and the
      model was only heard, and a run only succeeded, when all its calls had been answered. */
  ghost predicate CallsOk(log: Log) {
    log == [] ||
    var before, b := log[..|log| - 1], log[|log| - 1].body;
    && CallsOk(before)
    && (b.Assistant? ==> FreshCalls(before, UsesOf(b)) && RunUseIds(before) <= AnswerIds(before))
    && (b.ToolResult? ==> b.result.callId in UseIds(before) - AnswerIds(before))
    && (b.TerminalResult? && ClosesClean(b.terminal) ==> RunUseIds(before) <= AnswerIds(before))
  }

  /** The calls of the current run that have no result yet. */
  function OpenRun(log: Log): set<string> {
    RunUseIds(log) - AnswerIds(log)
  }

  function ResultIds(results: seq<CallResult>): set<string> {
    set k | 0 <= k < |results| :: results[k].callId
  }

  predicate DistinctResults(results: seq<CallResult>) {
    forall j, k :: 0 <= j < k < |results| ==> results[j].callId != results[k].callId
  }

  /** `ids` can all be answered now, and answering them leaves no call of this run open. */
  ghost predicate Owed(log: Log, ids: set<string>) {
    && OpenRun(log) <= ids
    && ids <= UseIds(log) - AnswerIds(log)
  }

  ghost predicate PhaseOk(log: Log, p: Phase) {
    match p
    case QueryUser(_) => OpenRun(log) == {}
    case QuerySeed(_, _) => OpenRun(log) == {}
    case Head => OpenRun(log) == {}
    case Preflight => OpenRun(log) == {}
    case Calling => OpenRun(log) == {}
    case Replied(content) => Distinct(Uses(content)) && Owed(log, Ids(Uses(content)))
    case PostCheck(content) => Distinct(Uses(content)) && Owed(log, Ids(Uses(content)))
    case Dispatching(calls) => Distinct(calls) && Owed(log, Ids(calls))
    case Redispatch(calls) => Distinct(calls) && Owed(log, Ids(calls))
    case AbortCheckpoint => OpenRun(log) == {}
    case Finish(result) => ClosesClean(result) ==> OpenRun(log) == {}
    case Appending(results) => DistinctResults(results) && Owed(log, ResultIds(results))
    case _ => true
  }

  ghost predicate CallInv(s: State) {
    && CallsOk(s.log)
    && OpenRun(s.log) <= Ids(LastUses(s.log))
    && PhaseOk(s.log, s.live.phase)
  }

  /** How the projections of the log change when an event is appended. */
  lemma AppendCalls(log: Log, e: Event)
    ensures UseIds(log + [e]) == UseIds(log) + Ids(UsesOf(e.body))
    ensures AnswerIds(log + [e]) == AnswerIds(log) + if e.body.ToolResult? then {e.body.result.callId} else {}
    ensures RunUseIds(log + [e]) == if e.body.RunStarted? then {} else RunUseIds(log) + Ids(UsesOf(e.body))
    ensures LastUses(log + [e]) == if e.body.Assistant? then UsesOf(e.body) else LastUses(log)
    ensures CallsOk(log + [e]) <==>
      && CallsOk(log)
      && (e.body.Assistant? ==> FreshCalls(log, UsesOf(e.body)) && RunUseIds(log) <= AnswerIds(log))
      && (e.body.ToolResult? ==> e.body.result.callId in UseIds(log) - AnswerIds(log))
      && (e.body.TerminalResult? && ClosesClean(e.body.terminal) ==> RunUseIds(log) <= AnswerIds(log))
  {
    assert (log + [e])[..|log|] == log;
  }

  lemma {:induction false} AnswersAreUses(log: Log)
    requires CallsOk(log)
    ensures AnswerIds(log) <= UseIds(log)
    ensures RunUseIds(log) <= UseIds(log)
    ensures Distinct(LastUses(log)) && Ids(LastUses(log)) <= UseIds(log)
  {
    if log != [] { AnswersAreUses(log[..|log| - 1]); }
  }

  lemma {:induction false} UnansweredIds(calls: seq<ToolUse>, answered: set<string>)
    ensures Ids(Unanswered(calls, answered)) == Ids(calls) - answered
    ensures Distinct(calls) ==> Distinct(Unanswered(calls, answered))
  {
    if calls != [] {
      UnansweredIds(calls[1..], answered);
      var rest := Unanswered(calls[1..], answered);
      assert calls == [calls[0]] + calls[1..];
      IdsCons(calls[0], calls[1..]);
      IdsCons(calls[0], rest);
      if calls[0].callId !in answered && Distinct(calls) {
        forall k | 0 <= k < |rest| ensures rest[k].callId != calls[0].callId {
          assert rest[k].callId in Ids(rest) && rest[k].callId in Ids(calls[1..]);
        }
      }
    }
  }

  lemma IdsCons(call: ToolUse, calls: seq<ToolUse>)
    ensures Ids([call] + calls) == {call.callId} + Ids(calls)
  {
    var all := [call] + calls;
    forall id | id in {call.callId} + Ids(calls) ensures id in Ids(all) {
      if id == call.callId { assert all[0].callId == id; }
      else { var k :| 0 <= k < |calls| && calls[k].callId == id; assert all[k + 1].callId == id; }
    }
  }

  lemma ResultsCoverCalls(results: seq<CallResult>, calls: seq<ToolUse>)
    requires ResultsFor(results, calls) && Distinct(calls)
    ensures ResultIds(results) == Ids(calls) && DistinctResults(results)
  {
    forall id | id in Ids(calls) ensures id in ResultIds(results) {
      var k :| 0 <= k < |calls| && calls[k].callId == id;
      assert results[k].callId == id;
    }
  }

  lemma TakeResult(results: seq<CallResult>)
    requires results != [] && DistinctResults(results)
    ensures ResultIds(results) == {results[0].callId} + ResultIds(results[1..])
    ensures results[0].callId !in ResultIds(results[1..]) && DistinctResults(results[1..])
  {
    var rest := results[1..];
    forall id | id in ResultIds(results) ensures id in {results[0].callId} + ResultIds(rest) {
      var k :| 0 <= k < |results| && results[k].callId == id;
      if k > 0 { assert rest[k - 1].callId == id; }
    }
    forall id | id in ResultIds(rest) ensures id in ResultIds(results) && id != results[0].callId {
      var k :| 0 <= k < |rest| && rest[k].callId == id;
      assert results[k + 1].callId == id;
    }
  }

  // ---- the invariant, step by step ------------------------------------------------------------------------------

  lemma PendingOwed(log: Log)
    requires CallsOk(log) && OpenRun(log) <= Ids(LastUses(log))
    ensures PendingCalls(log) == [] ==> OpenRun(log) == {}
    ensures Distinct(PendingCalls(log)) && Owed(log, Ids(PendingCalls(log)))
  {
    AnswersAreUses(log);
    UnansweredIds(LastUses(log), AnswerIds(log));
    assert OpenRun(log) <= Ids(PendingCalls(log));
    if PendingCalls(log) == [] { assert Ids(PendingCalls(log)) == {}; }
  }

  lemma QueryKeeps(s: State, e: Effect)
    requires CallInv(s) && e.Appends? && e.event.body.RunStarted? && e.live.phase.QueryUser?
    ensures CallInv(Apply(s, e))
  {
    AppendCalls(s.log, e.event);
  }

  /** How a resume can go on: with the pending calls, or without any. */
  predicate GoesOn(s: State, p: Phase) {
    || p.Idle? || p == Redispatch(PendingCalls(s.log)) || (p.Head? && PendingCalls(s.log) == [])
    || (p.Finish? && !ClosesClean(p.result))
  }

  lemma ResumeGoesOn(c: Config, s: State, i: Input)
    requires s.live.phase.Idle? && i.StartResume?
    ensures PlanResume(c, s, i).Only? && GoesOn(s, PlanResume(c, s, i).live.phase)
  {
  }

  lemma ResumeKeeps(s: State, e: Effect)
    requires CallInv(s) && e.Only? && GoesOn(s, e.live.phase)
    ensures CallInv(Apply(s, e))
  {
    PendingOwed(s.log);
  }

  lemma IdleKeeps(c: Config, s: State, i: Input)
    requires CallInv(s) && s.live.phase.Idle? && !i.Crash?
    ensures CallInv(Step(c, s, i))
  {
    var e := Plan(c, s, i);
    if e.Appends? {
      QueryKeeps(s, e);
    } else {
      if i.StartResume? { ResumeGoesOn(c, s, i); }
      ResumeKeeps(s, e);
    }
  }

  /** Events other than assistant turns, results and run starts do not touch the calls. */
  ghost predicate Quiet(s: State, e: Effect) {
    && (e.Appends? ==>
          && !e.event.body.Assistant? && !e.event.body.ToolResult? && !e.event.body.RunStarted?
          && (e.event.body.TerminalResult? && ClosesClean(e.event.body.terminal) ==> OpenRun(s.log) == {}))
    && PhaseOk(s.log, e.live.phase)
  }

  lemma QuietKeeps(s: State, e: Effect)
    requires CallInv(s) && Quiet(s, e)
    ensures CallInv(Apply(s, e))
  {
    if e.Appends? { AppendCalls(s.log, e.event); }
  }

  lemma ToolsQuiet(s: State, i: Input)
    requires PhaseOk(s.log, s.live.phase) && (s.live.phase.Redispatch? || s.live.phase.Dispatching?)
    ensures Quiet(s, PlanDispatch(s, i))
  {
    var e := PlanDispatch(s, i);
    if e.live.phase.Appending? { ResultsCoverCalls(e.live.phase.results, s.live.phase.calls); }
  }

  lemma TurnQuiet(c: Config, s: State, i: Input)
    requires PhaseOk(s.log, s.live.phase) && !i.Crash?
    requires s.live.phase.Head? || s.live.phase.Preflight? || s.live.phase.PostCheck?
    ensures Quiet(s, Plan(c, s, i))
  {
  }

  lemma EndsQuiet(c: Config, s: State, i: Input)
    requires PhaseOk(s.log, s.live.phase) && !i.Crash?
    requires s.live.phase.QueryUser? || s.live.phase.QuerySeed? || s.live.phase.Finish?
    ensures Quiet(s, Plan(c, s, i))
  {
  }

  lemma CheckpointQuiet(c: Config, s: State, i: Input)
    requires PhaseOk(s.log, s.live.phase) && !i.Crash?
    requires s.live.phase.Replied? || s.live.phase.SuspendCheckpoint? || s.live.phase.AbortCheckpoint?
             || s.live.phase.TerminalCheckpoint?
    ensures Quiet(s, Plan(c, s, i))
  {
  }

  /** A stored result closes its call. */
  lemma AnswerKeeps(s: State, e: Effect)
    requires CallInv(s) && s.live.phase.Appending? && s.live.phase.results != []
    requires e.Appends? && e.event.body == ToolResult(s.live.phase.results[0])
    requires e.live.phase == Appending(s.live.phase.results[1..])
    ensures CallInv(Apply(s, e))
  {
    TakeResult(s.live.phase.results);
    AppendCalls(s.log, e.event);
  }

  lemma AppendingQuiet(c: Config, s: State, i: Input)
    requires PhaseOk(s.log, s.live.phase) && s.live.phase.Appending? && !PlanAppending(c, s, i).Appends?
    ensures Quiet(s, PlanAppending(c, s, i))
  {
    if s.live.phase.results == [] { assert ResultIds(s.live.phase.results) == {}; }
  }

  lemma AppendingKeeps(c: Config, s: State, i: Input)
    requires CallInv(s) && s.live.phase.Appending? && !i.Crash?
    ensures CallInv(Step(c, s, i))
  {
    var e := Plan(c, s, i);
    if e.Appends? {
      AnswerKeeps(s, e);
    } else {
      AppendingQuiet(c, s, i);
      QuietKeeps(s, e);
    }
  }

  lemma NoUses(text: string)
    ensures Uses([Text(text)]) == []
  {
  }

  /** An assistant turn opens the calls in it. */
  lemma TurnStored(s: State, e: Effect, calls: seq<ToolUse>)
    requires CallInv(s) && OpenRun(s.log) == {} && e.Appends? && e.event.body.Assistant?
    requires calls == UsesOf(e.event.body) && FreshCalls(s.log, calls)
    requires
      var p := e.live.phase;
      (p.Replied? && Uses(p.content) == calls) || (calls == [] && (p.AbortCheckpoint? || p.Finish?))
    ensures CallInv(Apply(s, e))
  {
    AppendCalls(s.log, e.event);
    AnswersAreUses(s.log);
    if calls == [] { assert Ids(calls) == {}; }
  }

  lemma CallingQuiet(c: Config, s: State, i: Input)
    requires PhaseOk(s.log, s.live.phase) && s.live.phase.Calling? && !PlanCalling(c, s, i).Appends?
    ensures Quiet(s, PlanCalling(c, s, i))
  {
  }

  lemma CallingKeeps(c: Config, s: State, i: Input)
    requires CallInv(s) && s.live.phase.Calling? && !i.Crash?
    ensures CallInv(Step(c, s, i))
  {
    var e := Plan(c, s, i);
    if !e.Appends? {
      CallingQuiet(c, s, i);
      QuietKeeps(s, e);
    } else if i.ModelReply? {
      TurnStored(s, e, Uses(i.reply.content));
    } else {
      NoUses(i.partial);
      TurnStored(s, e, []);
    }
  }

  lemma RestKeeps(c: Config, s: State, i: Input)
    requires CallInv(s) && !i.Crash?
    requires !s.live.phase.Idle? && !s.live.phase.Appending? && !s.live.phase.Calling?
    ensures CallInv(Step(c, s, i))
  {
    match s.live.phase {
      case Redispatch(_) => ToolsQuiet(s, i);
      case Dispatching(_) => ToolsQuiet(s, i);
      case Head => TurnQuiet(c, s, i);
      case Preflight => TurnQuiet(c, s, i);
      case PostCheck(_) => TurnQuiet(c, s, i);
      case QueryUser(_) => EndsQuiet(c, s, i);
      case QuerySeed(_, _) => EndsQuiet(c, s, i);
      case Finish(_) => EndsQuiet(c, s, i);
      case _ => CheckpointQuiet(c, s, i);
    }
    QuietKeeps(s, Plan(c, s, i));
  }

  lemma CrashStep(c: Config, s: State)
    requires CallInv(s)
    ensures CallInv(Step(c, s, Crash))
  {
  }

  lemma StepKeepsCalls(c: Config, s: State, i: Input)
    requires CallInv(s)
    ensures CallInv(Step(c, s, i))
  {
    if i.Crash? {
      CrashStep(c, s);
    } else {
      match s.live.phase
      case Idle => IdleKeeps(c, s, i);
      case Appending(_) => AppendingKeeps(c, s, i);
      case Calling => CallingKeeps(c, s, i);
      case _ => RestKeeps(c, s, i);
    }
  }

  lemma {:induction false} CallInvAlways(c: Config, inputs: seq<Input>)
    ensures CallInv(Run(c, inputs))
  {
    if inputs != [] {
      CallInvAlways(c, inputs[..|inputs| - 1]);
      StepKeepsCalls(c, Run(c, inputs[..|inputs| - 1]), inputs[|inputs| - 1]);
    }
  }

  // ---- main results ---------------------------------------------------------------------------------------------

  lemma {:induction false} AnsweredOnce(log: Log, j: nat, k: nat)
    requires CallsOk(log) && j < k < |log| && log[j].body.ToolResult? && log[k].body.ToolResult?
    ensures log[j].body.result.callId != log[k].body.result.callId
  {
    if k == |log| - 1 {
      AnswerRecorded(log[..k], j);
    } else {
      AnsweredOnce(log[..|log| - 1], j, k);
    }
  }

  lemma {:induction false} AnswerRecorded(log: Log, j: nat)
    requires j < |log| && log[j].body.ToolResult?
    ensures log[j].body.result.callId in AnswerIds(log)
  {
    if j < |log| - 1 { AnswerRecorded(log[..|log| - 1], j); }
  }

  lemma {:induction false} AnswerFound(log: Log, id: string) returns (j: nat)
    requires id in AnswerIds(log)
    ensures j < |log| && log[j].body.ToolResult? && log[j].body.result.callId == id
  {
    var n := |log| - 1;
    if log[n].body.ToolResult? && log[n].body.result.callId == id { j := n; } else { j := AnswerFound(log[..n], id); }
  }

  lemma {:induction false} OneQueryRun(log: Log)
    requires OneQuery(log)
    ensures RunUseIds(log) == UseIds(log)
  {
    if |log| > 1 {
      OneQueryRun(log[..|log| - 1]);
    } else {
      assert log[0].body.RunStarted? && UseIds(log[..0]) == {} && Ids([]) == {};
    }
  }

  /** However calls, crashes, suspensions and resumes interleave, in any number of queries, no
      call id ever gets two results. */
  lemma NoDoubleAnswer(c: Config, inputs: seq<Input>, j: nat, k: nat)
    requires
      var log := Run(c, inputs).log;
      j < k < |log| && log[j].body.ToolResult? && log[k].body.ToolResult?
    ensures
      var log := Run(c, inputs).log;
      log[j].body.result.callId != log[k].body.result.callId
  {
    CallInvAlways(c, inputs);
    AnsweredOnce(Run(c, inputs).log, j, k);
  }

  /** At every model call of a one-query session each call in the log has exactly one result. */
  lemma AnsweredAtModelCall(c: Config, inputs: seq<Input>, id: string)
    requires Run(c, inputs).live.phase.Calling? && OneQuery(Run(c, inputs).log)
    requires id in UseIds(Run(c, inputs).log)
    ensures
      var log := Run(c, inputs).log;
      exists k :: 0 <= k < |log| && log[k].body.ToolResult? && log[k].body.result.callId == id
        && forall j :: 0 <= j < |log| && log[j].body.ToolResult? && log[j].body.result.callId == id ==> j == k
  {
    CallInvAlways(c, inputs);
    var log := Run(c, inputs).log;
    OneQueryRun(log);
    var k := AnswerFound(log, id);
    forall j | 0 <= j < |log| && log[j].body.ToolResult? && log[j].body.result.callId == id ensures j == k {
      if j < k { AnsweredOnce(log, j, k); } else if k < j { AnsweredOnce(log, k, j); }
    }
  }

  /** In a session of any number of queries the unanswered calls that a model call can see were all
      issued before the current run started. */
  lemma OpenCallsAreOlder(c: Config, inputs: seq<Input>)
    requires Run(c, inputs).live.phase.Calling?
    ensures RunUseIds(Run(c, inputs).log) <= AnswerIds(Run(c, inputs).log)
  {
    CallInvAlways(c, inputs);
  }

  /** One query: wherever the process died, what resumption dispatches again is exactly the set of
      unanswered calls, each once. */
  lemma PendingExact(c: Config, inputs: seq<Input>)
    requires OneQuery(Run(c, inputs).log)
    ensures
      var log := Run(c, inputs).log;
      && Ids(PendingCalls(log)) == UseIds(log) - AnswerIds(log)
      && Distinct(PendingCalls(log))
  {
    CallInvAlways(c, inputs);
    var log := Run(c, inputs).log;
    OneQueryRun(log);
    AnswersAreUses(log);
    UnansweredIds(LastUses(log), AnswerIds(log));
  }

  lemma {:induction false} RunsSplit(log: Log)
    ensures LastRun(log) <= |log| && UseIds(log) == UseIds(log[..LastRun(log)]) + RunUseIds(log)
  {
    if log != [] {
      var n := |log| - 1;
      if log[n].body.RunStarted? {
        assert Ids(UsesOf(log[n].body)) == {};
      } else {
        RunsSplit(log[..n]);
        assert log[..n][..LastRun(log[..n])] == log[..LastRun(log)];
      }
    }
  }

  /** Any number of queries, crashes and resumes: a model call sees every call of the session
      answered exactly when every call issued before the current run has been answered by then. */
  lemma OpenCallsExactly(c: Config, inputs: seq<Input>)
    requires Run(c, inputs).live.phase.Calling?
    ensures
      var log := Run(c, inputs).log;
      && LastRun(log) <= |log|
      && (UseIds(log) <= AnswerIds(log) <==> UseIds(log[..LastRun(log)]) <= AnswerIds(log))
  {
    OpenCallsAreOlder(c, inputs);
    RunsSplit(Run(c, inputs).log);
  }

  lemma {:induction false} CleanTerminal(log: Log, k: nat)
    requires CallsOk(log) && k < |log| && log[k].body.TerminalResult? && ClosesClean(log[k].body.terminal)
    ensures RunUseIds(log[..k]) <= AnswerIds(log[..k])
  {
    if k < |log| - 1 {
      CleanTerminal(log[..|log| - 1], k);
      assert log[..|log| - 1][..k] == log[..k];
    }
  }

  /** A run that is stored as a success or as aborted has left none of its calls unanswered. */
  lemma SuccessIsAnswered(c: Config, inputs: seq<Input>, k: nat)
    requires
      var log := Run(c, inputs).log;
      k < |log| && log[k].body.TerminalResult? && ClosesClean(log[k].body.terminal)
    ensures RunUseIds(Run(c, inputs).log[..k]) <= AnswerIds(Run(c, inputs).log[..k])
  {
    CallInvAlways(c, inputs);
    CleanTerminal(Run(c, inputs).log, k);
  }

  // ---- where the promise stops: a second query on the session ---------------------------------------------------

  /** The calls that a run is about to dispatch, or whose results it is about to store. */
  function Waiting(s: State): set<string> {
    match s.live.phase
    case PostCheck(content) => Ids(Uses(content))
    case Dispatching(calls) => Ids(calls)
    case Redispatch(calls) => Ids(calls)
    case Appending(results) => ResultIds(results)
    case Idle => Ids(PendingCalls(s.log))
    case _ => {}
  }

  /** The inputs that end a run with its waiting calls unanswered: a ceiling hit by a response that
      asks for tools, a result or a suspension that cannot be stored, and a resume that the input
      guardrail blocks. */
  predicate Abandons(c: Config, s: State, i: Input) {
    match s.live.phase
    case PostCheck(_) => i.AfterCall? && Ceiling(c, s.live.meter, i.elapsedMs).Some?
    case Appending(results) => i.Persist? && !i.ok && results != []
    case Dispatching(calls) => i.Suspends? && !i.ok && i.callId in Ids(calls)
    case Idle => i.StartResume? && i.child.usd >= 0.0 && i.blocked && Reopens(s.log)
    case _ => false
  }

  /** The latest run can be resumed: it has no terminal, or its latest one is a suspension. */
  predicate Reopens(log: Log) {
    && log != [] && CurrentRunId(log).Some?
    && var stored := PersistedTerminal(log, CurrentRunId(log).value);
       stored.None? || stored.value.subtype.Suspended?
  }

  /** The terminal of an ended run is stored, and closed with a checkpoint when the run is durable. */
  function Stored(c: Config, s: State): State {
    var t := Step(c, s, Persist(true));
    if c.durable then Step(c, t, Checkpointed(true)) else t
  }

  lemma StoringLogs(c: Config, s: State)
    requires s.live.phase.Finish?
    ensures
      var t := Step(c, s, Persist(true));
      && t.log == s.log + [Event(s.live.nextSeq, TerminalResult(s.live.runId, s.live.phase.result), None)]
      && (if c.durable then t.live.phase.TerminalCheckpoint? else t.live.phase.Idle?)
  {
  }

  lemma ClosingLogs(c: Config, t: State)
    requires t.live.phase.TerminalCheckpoint?
    ensures Step(c, t, Checkpointed(true)).log == t.log && Step(c, t, Checkpointed(true)).live.phase.Idle?
  {
  }

  lemma StoredLogs(c: Config, s: State)
    requires s.live.phase.Finish?
    ensures
      var u := Stored(c, s);
      && u.live.phase.Idle?
      && u.log == s.log + [Event(s.live.nextSeq, TerminalResult(s.live.runId, s.live.phase.result), None)]
  {
    StoringLogs(c, s);
    if c.durable { ClosingLogs(c, Step(c, s, Persist(true))); }
  }

  lemma StoredKeepsInv(c: Config, s: State)
    requires CallInv(s)
    ensures CallInv(Stored(c, s))
  {
    StepKeepsCalls(c, s, Persist(true));
    if c.durable { StepKeepsCalls(c, Step(c, s, Persist(true)), Checkpointed(true)); }
  }

  lemma StoredKeepsCalls(c: Config, s: State)
    requires CallInv(s) && s.live.phase.Finish?
    ensures
      var u := Stored(c, s);
      && u.live.phase.Idle? && CallInv(u) && |u.log| == |s.log| + 1
      && u.log[|s.log|].body == TerminalResult(s.live.runId, s.live.phase.result)
      && UseIds(u.log) == UseIds(s.log) && AnswerIds(u.log) == AnswerIds(s.log)
  {
    StoredKeepsInv(c, s);
    StoredLogs(c, s);
    AppendCalls(s.log, Event(s.live.nextSeq, TerminalResult(s.live.runId, s.live.phase.result), None));
  }

  /** Each of these inputs ends the run with all its waiting calls unanswered and not suspended, so
      that resuming this run never dispatches them again. */
  lemma AbandonLeavesCallsOpen(c: Config, s: State, i: Input)
    requires CallInv(s) && Abandons(c, s, i)
    ensures
      var t := Step(c, s, i);
      var u := Stored(c, t);
      && t.live.phase.Finish? && !t.live.phase.result.subtype.Suspended? && u.live.phase.Idle?
      && Waiting(s) <= UseIds(u.log) - AnswerIds(u.log)
  {
    var t := Step(c, s, i);
    StepKeepsCalls(c, s, i);
    PendingOwed(s.log);
    AbandonEnds(c, s, i);
    StoredKeepsCalls(c, t);
  }

  lemma AbandonEnds(c: Config, s: State, i: Input)
    requires Abandons(c, s, i)
    ensures
      var t := Step(c, s, i);
      t.live.phase.Finish? && !t.live.phase.result.subtype.Suspended? && t.log == s.log
  {
    match s.live.phase
    case PostCheck(_) => assert PlanAfter(c, s, i).Only?;
    case Appending(_) => assert PlanAppending(c, s, i) == Only(FailAppend(s.live));
    case Dispatching(_) => assert PlanDispatch(s, i) == Only(FailAppend(s.live));
    case Idle => assert PlanIdle(c, s, i) == Only(PlanReopen(c, s, i, CurrentRunId(s.log).value));
  }

  /** A run has ended, not suspended. */
  predicate Failed(s: State) {
    s.live.phase.Finish? && !s.live.phase.result.subtype.Suspended?
  }

  lemma ToolsOnlyAbandon(c: Config, s: State, i: Input)
    requires s.live.phase.Redispatch? || s.live.phase.Dispatching? || s.live.phase.Appending?
    requires Failed(Step(c, s, i))
    ensures Abandons(c, s, i)
  {
  }

  lemma DecisionOnlyAbandons(c: Config, s: State, i: Input)
    requires PhaseOk(s.log, s.live.phase) && s.live.phase.PostCheck? && Failed(Step(c, s, i))
    ensures Abandons(c, s, i) || OpenRun(s.log) == {}
    ensures Step(c, s, i).log == s.log
  {
    if Uses(s.live.phase.content) == [] { assert Ids(Uses(s.live.phase.content)) == {}; }
  }

  lemma ResumeOnlyAbandons(c: Config, s: State, i: Input)
    requires s.live.phase.Idle? && Failed(Step(c, s, i))
    ensures Abandons(c, s, i)
  {
    var e := PlanIdle(c, s, i);
    assert i.StartResume? && s.log != [] && CurrentRunId(s.log).Some?;
  }

  /** Elsewhere a run that ends has no call of its own open. */
  lemma RestIsAnswered(c: Config, s: State, i: Input)
    requires PhaseOk(s.log, s.live.phase) && Failed(Step(c, s, i))
    requires
      var p := s.live.phase;
      || p.QueryUser? || p.QuerySeed? || p.Head? || p.Preflight? || p.Replied? || p.SuspendCheckpoint?
      || p.AbortCheckpoint? || p.TerminalCheckpoint?
    ensures OpenRun(s.log) == {} && Step(c, s, i).log == s.log
  {
  }

  lemma CallIsAnswered(c: Config, s: State, i: Input)
    requires PhaseOk(s.log, s.live.phase) && s.live.phase.Calling? && Failed(Step(c, s, i))
    ensures OpenRun(Step(c, s, i).log) == {}
  {
    var e := PlanCalling(c, s, i);
    if e.Appends? {
      NoUses(i.partial);
      AppendCalls(s.log, e.event);
    }
  }

  /** And there is no other way: when a run ends not suspended and one of its own calls is
      unanswered, one of these inputs has just been met. */
  lemma OnlyAbandonsLeaveCallsOpen(c: Config, s: State, i: Input)
    requires CallInv(s) && !s.live.phase.Finish? && Failed(Step(c, s, i)) && OpenRun(Step(c, s, i).log) != {}
    ensures Abandons(c, s, i)
  {
    match s.live.phase
    case Redispatch(_) => ToolsOnlyAbandon(c, s, i);
    case Dispatching(_) => ToolsOnlyAbandon(c, s, i);
    case Appending(_) => ToolsOnlyAbandon(c, s, i);
    case PostCheck(_) => DecisionOnlyAbandons(c, s, i);
    case Idle => ResumeOnlyAbandons(c, s, i);
    case Calling => CallIsAnswered(c, s, i);
    case _ => RestIsAnswered(c, s, i);
  }

  /** How a query gets to its first model call: what it starts from, what is compacted and injected. */
  datatype Opening = Opening(
    child: Spend, text: string, prefix: seq<Message>, compacted: Option<seq<Message>>,
    injection: Option<string>, elapsedMs: nat)

  /** The three steps that store a query and enter the loop. */
  function QueryAtHead(c: Config, s: State, o: Opening): State {
    Step(c, Step(c, Step(c, s, StartQuery(o.child, true)), Guarded(false, o.text, true)), Seeded(o.prefix))
  }

  function QueryUpToCall(c: Config, s: State, o: Opening): State {
    Step(c, Step(c, QueryAtHead(c, s, o), AtHead(false, o.compacted, true)), Gate(o.injection, o.elapsedMs))
  }

  /** Storing a query appends its start and the user's message. */
  lemma QueryLogs(c: Config, s: State, o: Opening) returns (started: Event, user: Event)
    requires s.live.phase.Idle? && o.child.usd >= 0.0
    ensures
      var t := QueryAtHead(c, s, o);
      t.log == s.log + [started] + [user] && t.live.phase.Head? && t.live.meter.child == o.child
    ensures started.body.RunStarted? && user.body.User?
  {
    var s1 := Step(c, s, StartQuery(o.child, true));
    assert s1.live.phase.QueryUser? && s1.live.meter.child == o.child;
    var s2 := Step(c, s1, Guarded(false, o.text, true));
    assert s2.live.phase.QuerySeed? && s2.live.meter.child == o.child;
    started, user := s1.log[|s.log|], s2.log[|s1.log|];
    assert Step(c, s2, Seeded(o.prefix)).log == s2.log;
  }

  lemma QueryKeepsCalls(c: Config, s: State, o: Opening)
    requires s.live.phase.Idle? && o.child.usd >= 0.0
    ensures
      var t := QueryAtHead(c, s, o);
      && UseIds(t.log) == UseIds(s.log) && AnswerIds(t.log) == AnswerIds(s.log) && LastUses(t.log) == LastUses(s.log)
  {
    var started, user := QueryLogs(c, s, o);
    AppendCalls(s.log, started);
    AppendCalls(s.log + [started], user);
  }

  /** A new query's first model call sees every call answered exactly when the session had no
      unanswered call before the query. */
  lemma FirstCallSeesOpenCalls(c: Config, s: State, o: Opening)
    requires s.live.phase.Idle? && o.child.usd >= 0.0
    ensures
      var t := QueryUpToCall(c, s, o);
      && UseIds(t.log) == UseIds(s.log) && AnswerIds(t.log) == AnswerIds(s.log)
      && (UseIds(t.log) <= AnswerIds(t.log) <==> UseIds(s.log) <= AnswerIds(s.log))
  {
    QueryKeepsCalls(c, s, o);
    var started, user := QueryLogs(c, s, o);
    GateKeepsCalls(c, QueryAtHead(c, s, o), o);
  }

  lemma GateKeepsCalls(c: Config, t: State, o: Opening)
    requires t.live.phase.Head?
    ensures
      var u := Step(c, Step(c, t, AtHead(false, o.compacted, true)), Gate(o.injection, o.elapsedMs));
      UseIds(u.log) == UseIds(t.log) && AnswerIds(u.log) == AnswerIds(t.log)
  {
    var u := Step(c, t, AtHead(false, o.compacted, true));
    if o.compacted.Some? { AppendCalls(t.log, u.log[|t.log|]); }
    assert Step(c, u, Gate(o.injection, o.elapsedMs)).log == u.log;
  }
}
