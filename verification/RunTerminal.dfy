/** How runs end: stored terminals, what the consumer is told, and termination. */
module RunTerminal {
  import opened Options
  import opened Cost
  import opened Events
  import opened ReplayHash
  import opened RunMachine
  import opened RunHash
  import opened RunWindow
  import opened RunBudget
  import opened RunCalls

  /** The current run has a terminal that is not a suspension. */
  predicate Closed(log: Log) {
    if log == [] || log[|log| - 1].body.RunStarted? then false
    else
      var b := log[|log| - 1].body;
      (b.TerminalResult? && !b.terminal.subtype.Suspended?) || Closed(log[..|log| - 1])
  }

  /** Nothing but a new run follows a closing terminal, and terminals name their own run. */
  ghost predicate Orderly(log: Log) {
    log == [] ||
    var before, b := log[..|log| - 1], log[|log| - 1].body;
    && Orderly(before)
    && (b.RunStarted? || (before != [] && !Closed(before)))
    && (b.TerminalResult? ==> CurrentRunId(before) == Some(b.runId))
  }

  ghost predicate Quiet(emitted: seq<Out>) {
    forall k :: 0 <= k < |emitted| ==> emitted[k].Note?
  }

  /** Exactly one result, in last place. */
  ghost predicate OneResultLast(emitted: seq<Out>) {
    && emitted != [] && emitted[|emitted| - 1].Emit?
    && Quiet(emitted[..|emitted| - 1])
  }

  /** A stored result, or one that an output schema has validated on re-emission: a success that
      was stored without a structured value is told with one, and otherwise as it is. */
  predicate Vouches(c: Config, stored: Result, told: Result) {
    || told == stored
    || (c.schema && stored.subtype.Success? && stored.structured.None?
        && told == stored.(structured := told.structured))
  }

  ghost predicate Told(c: Config, s: State) {
    && OneResultLast(s.live.emitted)
    && var r := s.live.emitted[|s.live.emitted| - 1].result;
       (!r.subtype.Error? ==>
          && CurrentRunId(s.log).Some?
          && var stored := PersistedTerminal(s.log, CurrentRunId(s.log).value);
             stored.Some? && Vouches(c, stored.value, r))
  }

  ghost predicate TerminalInv(c: Config, s: State) {
    var p, l := s.live.phase, s.live;
    && Orderly(s.log)
    && (!p.Idle? ==> s.log != [] && CurrentRunId(s.log) == Some(l.runId) && Quiet(l.emitted))
    && (!p.Idle? && !p.TerminalCheckpoint? ==> !Closed(s.log))
    && (p.TerminalCheckpoint? ==> PersistedTerminal(s.log, l.runId) == Some(p.result))
    && (p.Idle? ==>
          match l.outcome
          case Running => s.log == [] && l.emitted == [Note]
          case Ended => Told(c, s)
          case Crashed => Quiet(l.emitted))
  }

  lemma AppendTerminal(log: Log, e: Event)
    ensures Closed(log + [e]) ==
      (!e.body.RunStarted? && ((e.body.TerminalResult? && !e.body.terminal.subtype.Suspended?) || Closed(log)))
    ensures Orderly(log + [e]) <==>
      && Orderly(log)
      && (e.body.RunStarted? || (log != [] && !Closed(log)))
      && (e.body.TerminalResult? ==> CurrentRunId(log) == Some(e.body.runId))
    ensures CurrentRunId(log + [e]) == if e.body.RunStarted? then Some(e.seqNo) else CurrentRunId(log)
    ensures e.body.TerminalResult? ==> PersistedTerminal(log + [e], e.body.runId) == Some(e.body.terminal)
  {
    assert (log + [e])[..|log|] == log;
  }

  lemma {:induction false} RunIdIsOld(log: Log)
    requires Increasing(log)
    ensures CurrentRunId(log).Some? ==> CurrentRunId(log).value < NextSeq(log)
  {
    if log != [] { RunIdIsOld(log[..|log| - 1]); }
  }

  lemma {:induction false} NoTerminalYet(log: Log, runId: nat)
    requires Increasing(log) && Orderly(log) && runId >= NextSeq(log)
    ensures PersistedTerminal(log, runId) == None
  {
    if log != [] {
      RunIdIsOld(log[..|log| - 1]);
      NoTerminalYet(log[..|log| - 1], runId);
    }
  }

  /** The backwards search of resumption finds a closing terminal exactly when the run is closed. */
  lemma {:induction false} ClosedIsStored(log: Log, runId: nat)
    requires Increasing(log) && Orderly(log) && CurrentRunId(log) == Some(runId)
    ensures
      var stored := PersistedTerminal(log, runId);
      Closed(log) <==> stored.Some? && !stored.value.subtype.Suspended?
  {
    var n := |log| - 1;
    if log[n].body.RunStarted? {
      NoTerminalYet(log[..n], runId);
    } else if !log[n].body.TerminalResult? {
      ClosedIsStored(log[..n], runId);
    }
  }

  // ---- the invariant, step by step ------------------------------------------------------------------------------

  lemma QueryKeeps(c: Config, s: State, i: Input)
    requires TerminalInv(c, s) && s.live.phase.Idle? && i.StartQuery?
    ensures TerminalInv(c, Apply(s, PlanQuery(c, s, i)))
  {
    if i.ok { AppendTerminal(s.log, Event(NextSeq(s.log), RunStarted, None)); }
  }

  lemma ReopenKeeps(c: Config, s: State, i: Input, runId: nat)
    requires Orderly(s.log) && i.StartResume? && s.log != [] && CurrentRunId(s.log) == Some(runId) && !Closed(s.log)
    ensures TerminalInv(c, s.(live := PlanReopen(c, s, i, runId)))
  {
  }

  lemma ResumeKeeps(c: Config, s: State, i: Input)
    requires TerminalInv(c, s) && Increasing(s.log) && s.live.phase.Idle? && i.StartResume?
    ensures TerminalInv(c, Apply(s, PlanResume(c, s, i)))
  {
    if CurrentRunId(s.log).Some? {
      var runId := CurrentRunId(s.log).value;
      ClosedIsStored(s.log, runId);
      if !Closed(s.log) { ReopenKeeps(c, s, i, runId); }
    }
  }

  /** Inside a run: any event but a terminal or a run start. */
  lemma InsideKeeps(c: Config, s: State, e: Effect)
    requires TerminalInv(c, s) && !s.live.phase.Idle? && !s.live.phase.TerminalCheckpoint?
    requires e.Appends? ==> !e.event.body.TerminalResult? && !e.event.body.RunStarted?
    requires e.live.runId == s.live.runId && !e.live.phase.TerminalCheckpoint?
    requires e.live.phase.Idle? ==>
      (e.live.outcome.Crashed? && e.live.emitted == s.live.emitted)
      || (e.Only? && e.live.outcome.Ended?
          && exists r: Result :: r.subtype.Error? && e.live.emitted == s.live.emitted + [Emit(r)])
    requires !e.live.phase.Idle? ==> e.live.emitted == s.live.emitted
    ensures TerminalInv(c, Apply(s, e))
  {
    if e.Appends? { AppendTerminal(s.log, e.event); }
    if e.live.phase.Idle? && e.live.outcome.Ended? {
      assert e.live.emitted[..|s.live.emitted|] == s.live.emitted;
    }
  }

  lemma OutsideLoopKeeps(c: Config, s: State, i: Input)
    requires TerminalInv(c, s) && !i.Crash?
    requires s.live.phase.QueryUser? || s.live.phase.QuerySeed?
    ensures TerminalInv(c, Apply(s, Plan(c, s, i)))
  {
    InsideKeeps(c, s, Plan(c, s, i));
  }

  lemma ToolsKeep(c: Config, s: State, i: Input)
    requires TerminalInv(c, s) && !i.Crash?
    requires s.live.phase.Redispatch? || s.live.phase.Dispatching? || s.live.phase.Appending?
    ensures TerminalInv(c, Apply(s, Plan(c, s, i)))
  {
    InsideKeeps(c, s, Plan(c, s, i));
  }

  lemma TurnKeeps(c: Config, s: State, i: Input)
    requires TerminalInv(c, s) && !i.Crash?
    requires s.live.phase.Head? || s.live.phase.Preflight? || s.live.phase.PostCheck?
    ensures TerminalInv(c, Apply(s, Plan(c, s, i)))
  {
    InsideKeeps(c, s, Plan(c, s, i));
  }

  lemma CallingKeeps(c: Config, s: State, i: Input)
    requires TerminalInv(c, s) && s.live.phase.Calling?
    ensures TerminalInv(c, Apply(s, PlanCalling(c, s, i)))
  {
    InsideKeeps(c, s, PlanCalling(c, s, i));
  }

  lemma CheckpointKeeps(c: Config, s: State, i: Input)
    requires TerminalInv(c, s) && i.Checkpointed?
    requires s.live.phase.Replied? || s.live.phase.SuspendCheckpoint? || s.live.phase.AbortCheckpoint?
    ensures TerminalInv(c, Apply(s, PlanCheckpoint(c, s, i)))
  {
    InsideKeeps(c, s, PlanCheckpoint(c, s, i));
  }

  lemma FinishKeeps(c: Config, s: State, i: Input)
    requires TerminalInv(c, s) && s.live.phase.Finish? && i.Persist?
    ensures TerminalInv(c, Apply(s, PlanFinish(c, s, i)))
  {
    var e := PlanFinish(c, s, i);
    if e.Appends? { AppendTerminal(s.log, e.event); }
    if e.live.phase.Idle? { assert e.live.emitted[..|s.live.emitted|] == s.live.emitted; }
  }

  lemma ClosingKeeps(c: Config, s: State, i: Input)
    requires TerminalInv(c, s) && s.live.phase.TerminalCheckpoint? && i.Checkpointed?
    ensures TerminalInv(c, Apply(s, PlanCheckpoint(c, s, i)))
  {
    var e := PlanCheckpoint(c, s, i);
    assert e.live.emitted[..|s.live.emitted|] == s.live.emitted;
  }

  lemma StartKeeps(c: Config, s: State, i: Input)
    requires TerminalInv(c, s) && HashInv(s) && !i.Crash? && s.live.phase.Idle?
    ensures TerminalInv(c, Step(c, s, i))
  {
    if i.StartQuery? && i.child.usd >= 0.0 {
      QueryKeeps(c, s, i);
    } else if i.StartResume? && i.child.usd >= 0.0 {
      ResumeKeeps(c, s, i);
    } else {
      assert Step(c, s, i) == s;
    }
  }

  lemma StepKeepsTerminal(c: Config, s: State, i: Input)
    requires TerminalInv(c, s) && HashInv(s)
    ensures TerminalInv(c, Step(c, s, i))
  {
    if !i.Crash? {
      match s.live.phase
      case Idle => StartKeeps(c, s, i);
      case QueryUser(_) => OutsideLoopKeeps(c, s, i);
      case QuerySeed(_, _) => OutsideLoopKeeps(c, s, i);
      case Redispatch(_) => ToolsKeep(c, s, i);
      case Dispatching(_) => ToolsKeep(c, s, i);
      case Appending(_) => ToolsKeep(c, s, i);
      case Head => TurnKeeps(c, s, i);
      case Preflight => TurnKeeps(c, s, i);
      case PostCheck(_) => TurnKeeps(c, s, i);
      case Calling => CallingKeeps(c, s, i);
      case Finish(_) => if i.Persist? { FinishKeeps(c, s, i); }
      case TerminalCheckpoint(_) => if i.Checkpointed? { ClosingKeeps(c, s, i); }
      case _ => if i.Checkpointed? { CheckpointKeeps(c, s, i); }
    }
  }

  lemma {:induction false} TerminalInvAlways(c: Config, inputs: seq<Input>)
    ensures TerminalInv(c, Run(c, inputs))
  {
    if inputs != [] {
      TerminalInvAlways(c, inputs[..|inputs| - 1]);
      HashInvAlways(c, inputs[..|inputs| - 1]);
      StepKeepsTerminal(c, Run(c, inputs[..|inputs| - 1]), inputs[|inputs| - 1]);
    }
  }

  // ---- main results ---------------------------------------------------------------------------------------------

  lemma {:induction false} OrderlyPrefix(log: Log, k: nat)
    requires Orderly(log) && k <= |log|
    ensures Orderly(log[..k])
    ensures k < |log| && !log[k].body.RunStarted? ==> k > 0 && !Closed(log[..k])
    ensures k < |log| && log[k].body.TerminalResult? ==> CurrentRunId(log[..k]) == Some(log[k].body.runId)
  {
    if k < |log| - 1 {
      OrderlyPrefix(log[..|log| - 1], k);
      assert log[..|log| - 1][..k] == log[..k];
    } else if k == |log| {
      assert log[..k] == log;
    }
  }

  /** While its run is the current one, a closing terminal stays the last event. */
  lemma {:induction false} ClosingIsLast(log: Log, j: nat)
    requires Increasing(log) && Orderly(log) && j < |log|
    requires log[j].body.TerminalResult? && !log[j].body.terminal.subtype.Suspended?
    requires CurrentRunId(log) == Some(log[j].body.runId)
    ensures j == |log| - 1 && Closed(log)
  {
    var n := |log| - 1;
    if j < n {
      OrderlyPrefix(log, j);
      RunIdIsOld(log[..j]);
      if !log[n].body.RunStarted? { ClosingIsLast(log[..n], j); }
    }
  }

  /** The terminals of one run are suspensions followed by at most one other value. */
  lemma TerminalsOfARun(c: Config, inputs: seq<Input>, j: nat, k: nat)
    requires
      var log := Run(c, inputs).log;
      && j < k < |log| && log[j].body.TerminalResult? && log[k].body.TerminalResult?
      && log[j].body.runId == log[k].body.runId
    ensures Run(c, inputs).log[j].body.terminal.subtype.Suspended?
  {
    TerminalInvAlways(c, inputs);
    HashInvAlways(c, inputs);
    var log := Run(c, inputs).log;
    OrderlyPrefix(log, k);
    if !log[j].body.terminal.subtype.Suspended? { ClosingIsLast(log[..k], j); }
  }

  /** With an output schema a success carries the value that was validated. */
  predicate Validated(c: Config, r: Result) {
    c.schema && r.subtype.Success? ==> r.structured.Some?
  }

  ghost predicate AllValidated(c: Config, s: State) {
    && (forall k :: 0 <= k < |s.log| && s.log[k].body.TerminalResult? ==> Validated(c, s.log[k].body.terminal))
    && (s.live.phase.Finish? ==> Validated(c, s.live.phase.result))
  }

  lemma DecisionIsValidated(c: Config, s: State, i: Input)
    requires s.live.phase.PostCheck? && i.AfterCall? && PlanAfter(c, s, i).live.phase.Finish?
    ensures Validated(c, PlanAfter(c, s, i).live.phase.result)
  {
  }

  /** Only a decision after a response ends a run with success. */
  lemma OpeningFails(c: Config, s: State, i: Input)
    requires !i.Crash? && (s.live.phase.Idle? || s.live.phase.QueryUser? || s.live.phase.QuerySeed?)
    requires Plan(c, s, i).live.phase.Finish?
    ensures !Plan(c, s, i).live.phase.result.subtype.Success?
  {
    if s.live.phase.Idle? { assert i.StartResume?; }
  }

  lemma OthersFail(c: Config, s: State, i: Input)
    requires !i.Crash? && !s.live.phase.PostCheck? && !s.live.phase.Finish?
    requires !s.live.phase.Idle? && !s.live.phase.QueryUser? && !s.live.phase.QuerySeed?
    requires Plan(c, s, i).live.phase.Finish?
    ensures !Plan(c, s, i).live.phase.result.subtype.Success?
  {
  }

  lemma FinishIsValidated(c: Config, s: State, i: Input)
    requires Step(c, s, i).live.phase.Finish? && (s.live.phase.Finish? ==> Validated(c, s.live.phase.result))
    ensures Validated(c, Step(c, s, i).live.phase.result)
  {
    if s.live.phase.PostCheck? { DecisionIsValidated(c, s, i); }
    else if s.live.phase.Idle? || s.live.phase.QueryUser? || s.live.phase.QuerySeed? { OpeningFails(c, s, i); }
    else if !s.live.phase.Finish? { OthersFail(c, s, i); }
  }

  lemma StepKeepsValidated(c: Config, s: State, i: Input)
    requires AllValidated(c, s)
    ensures AllValidated(c, Step(c, s, i))
  {
    var t := Step(c, s, i);
    if t.live.phase.Finish? { FinishIsValidated(c, s, i); }
    if |t.log| > |s.log| && t.log[|s.log|].body.TerminalResult? { StoresResult(c, s, i); }
    forall k | 0 <= k < |t.log| && t.log[k].body.TerminalResult? ensures Validated(c, t.log[k].body.terminal) {
      if k < |s.log| { assert t.log[k] == s.log[k]; }
    }
  }

  lemma {:induction false} ValidatedAlways(c: Config, inputs: seq<Input>)
    ensures AllValidated(c, Run(c, inputs))
  {
    if inputs != [] {
      ValidatedAlways(c, inputs[..|inputs| - 1]);
      StepKeepsValidated(c, Run(c, inputs[..|inputs| - 1]), inputs[|inputs| - 1]);
    }
  }

  lemma {:induction false} StoredIsLogged(log: Log, runId: nat) returns (k: nat)
    requires PersistedTerminal(log, runId).Some?
    ensures k < |log| && log[k].body == TerminalResult(runId, PersistedTerminal(log, runId).value)
  {
    k := |log| - 1;
    if log[k].body != TerminalResult(runId, PersistedTerminal(log, runId).value) {
      k := StoredIsLogged(log[..k], runId);
    }
  }

  /** What a process has told, last and alone. */
  function LastTold(s: State): Option<Result> {
    if s.live.emitted != [] && s.live.emitted[|s.live.emitted| - 1].Emit?
    then Some(s.live.emitted[|s.live.emitted| - 1].result) else None
  }

  /** A run that ended without an exception told its consumer exactly one result, last; and a
      result that is not an error is the one stored before, with or without an output schema. A
      crashed one told none. */
  lemma ToldOnce(c: Config, inputs: seq<Input>)
    requires Run(c, inputs).live.phase.Idle?
    ensures
      var s := Run(c, inputs);
      && (s.live.outcome.Ended? ==>
            && OneResultLast(s.live.emitted)
            && (LastTold(s).Some? && !LastTold(s).value.subtype.Error? ==>
                  CurrentRunId(s.log).Some? && PersistedTerminal(s.log, CurrentRunId(s.log).value) == LastTold(s)))
      && (s.live.outcome.Crashed? ==> Quiet(s.live.emitted))
  {
    TerminalInvAlways(c, inputs);
    ValidatedAlways(c, inputs);
    var s := Run(c, inputs);
    if CurrentRunId(s.log).Some? && PersistedTerminal(s.log, CurrentRunId(s.log).value).Some? {
      var k := StoredIsLogged(s.log, CurrentRunId(s.log).value);
    }
  }

  /** Resuming a closed run stores nothing and tells exactly the stored terminal again. */
  lemma ResumeClosed(c: Config, inputs: seq<Input>, i: Input)
    requires Run(c, inputs).live.phase.Idle? && Closed(Run(c, inputs).log)
    requires i.StartResume? && i.child.usd >= 0.0
    ensures
      var s := Run(c, inputs);
      var t := Step(c, s, i);
      && t.log == s.log && t.cps == s.cps && t.live.phase.Idle? && CurrentRunId(s.log).Some?
      && var stored := PersistedTerminal(s.log, CurrentRunId(s.log).value);
         stored.Some? && t.live.emitted == [Note, Emit(ReEmitted(c, stored.value, i.verdict))]
         && (!c.schema ==> t.live.emitted == [Note, Emit(stored.value)])
  {
    TerminalInvAlways(c, inputs);
    HashInvAlways(c, inputs);
    var s := Run(c, inputs);
    LastRunIsRun(s.log);
    ClosedIsStored(s.log, CurrentRunId(s.log).value);
    assert PlanIdle(c, s, i) == PlanResume(c, s, i);
  }

  lemma ClosedStays(c: Config, earlier: seq<Input>, i: Input, inputs: seq<Input>)
    requires Run(c, earlier).live.phase.Idle? && Closed(Run(c, earlier).log)
    requires !i.StartQuery? && inputs == earlier + [i]
    ensures Run(c, inputs).log == Run(c, earlier).log && Run(c, inputs).live.phase.Idle?
  {
    RunSnoc(c, earlier, i);
    if i.StartResume? && i.child.usd >= 0.0 { ResumeClosed(c, earlier, i); }
  }

  /** Only a new query can add to the log of a closed run, whatever else is tried. */
  lemma {:induction false} ClosedForever(c: Config, inputs: seq<Input>, more: seq<Input>)
    requires Run(c, inputs).live.phase.Idle? && Closed(Run(c, inputs).log)
    requires forall k :: 0 <= k < |more| ==> !more[k].StartQuery?
    ensures Run(c, inputs + more).log == Run(c, inputs).log && Run(c, inputs + more).live.phase.Idle?
  {
    if more == [] {
      assert inputs + more == inputs;
    } else {
      var front, last := more[..|more| - 1], more[|more| - 1];
      ClosedForever(c, inputs, front);
      assert inputs + more == inputs + front + [last];
      ClosedStays(c, inputs + front, last, inputs + more);
    }
  }

  /** What resumption does with the log of an open run. */
  lemma Reopened(c: Config, s: State, i: Input)
    requires s.live.phase.Idle? && Reopens(s.log)
    requires i.StartResume? && i.child.usd >= 0.0 && !i.blocked && i.patch.None?
    ensures
      var t := Step(c, s, i);
      && t.log == s.log && t.live.window.messages == i.prefix + ReplayAll(s.log)
      && t.live.phase == if PendingCalls(s.log) != [] then Redispatch(PendingCalls(s.log)) else Head
  {
    assert PlanIdle(c, s, i) == Only(PlanReopen(c, s, i, CurrentRunId(s.log).value));
  }

  /** Until its terminal has been stored a run can be reopened. */
  lemma UnendedReopens(c: Config, inputs: seq<Input>)
    requires !Run(c, inputs).live.phase.Idle? && !Run(c, inputs).live.phase.TerminalCheckpoint?
    ensures Reopens(Run(c, inputs).log)
  {
    TerminalInvAlways(c, inputs);
    HashInvAlways(c, inputs);
    var s := Run(c, inputs);
    ClosedIsStored(s.log, s.live.runId);
  }

  lemma PristineWindow(c: Config, inputs: seq<Input>)
    requires InTurn(Run(c, inputs).live.phase) && Run(c, inputs).live.window.pristine
    ensures
      var s := Run(c, inputs);
      DropInjection(s.live.window).messages == s.live.window.prefix + ReplayAll(s.log)
  {
    WindowInvAlways(c, inputs);
    var s := Run(c, inputs);
    assert s.log[0..] == s.log;
  }

  /** Any queries, and a crash in any phase before a terminal was stored: the resumed run starts
      with the calls that are still pending, or else at the loop head, and its window is its own
      prefix and the replay of the whole log. In a turn with an unrewritten window that is exactly
      the conversation the crashed process had, without the reminder. */
  lemma ResumeRebuildsWindow(c: Config, inputs: seq<Input>, i: Input)
    requires !Run(c, inputs).live.phase.Idle? && !Run(c, inputs).live.phase.TerminalCheckpoint?
    requires i.StartResume? && i.child.usd >= 0.0 && !i.blocked && i.patch.None?
    ensures
      var s := Run(c, inputs);
      var t := Step(c, Step(c, s, Crash), i);
      var kept := ReplayAll(s.log);
      && t.log == s.log && t.live.window.messages == i.prefix + kept
      && t.live.phase == (if PendingCalls(s.log) != [] then Redispatch(PendingCalls(s.log)) else Head)
      && (InTurn(s.live.phase) && s.live.window.pristine ==>
            DropInjection(s.live.window).messages == s.live.window.prefix + kept)
  {
    var s := Run(c, inputs);
    UnendedReopens(c, inputs);
    if InTurn(s.live.phase) && s.live.window.pristine { PristineWindow(c, inputs); }
    Reopened(c, Step(c, s, Crash), i);
  }

  /** A crash before the first response of a new query lets the resume dispatch the open calls of
      an earlier run again: the last assistant event is looked up across runs. */
  lemma CrashRedispatchesOlder(c: Config, inputs: seq<Input>, o: Opening, i: Input)
    requires Run(c, inputs).live.phase.Idle? && PendingCalls(Run(c, inputs).log) != [] && o.child.usd >= 0.0
    requires i.StartResume? && i.child.usd >= 0.0 && !i.blocked && i.patch.None?
    ensures
      var s := Run(c, inputs);
      Step(c, Step(c, QueryAtHead(c, s, o), Crash), i).live.phase == Redispatch(PendingCalls(s.log))
  {
    var s := Run(c, inputs);
    QueryKeepsCalls(c, s, o);
    var started, user := QueryLogs(c, s, o);
    var more := QueryInputs(c, inputs, o);
    ResumeRebuildsWindow(c, more, i);
  }

  /** The inputs that bring a session to the head of a new query. */
  lemma QueryInputs(c: Config, inputs: seq<Input>, o: Opening) returns (more: seq<Input>)
    ensures Run(c, more) == QueryAtHead(c, Run(c, inputs), o)
  {
    var a := inputs + [StartQuery(o.child, true)];
    var b := a + [Guarded(false, o.text, true)];
    more := b + [Seeded(o.prefix)];
    RunSnoc(c, inputs, StartQuery(o.child, true));
    RunSnoc(c, a, Guarded(false, o.text, true));
    RunSnoc(c, b, Seeded(o.prefix));
  }

  // ---- every segment ends ---------------------------------------------------------------------------------------

  function Rank(p: Phase): nat {
    match p
    case QueryUser(_) => 14
    case QuerySeed(_, _) => 13
    case Redispatch(_) => 12
    case Replied(_) => 11
    case PostCheck(_) => 10
    case Dispatching(_) => 9
    case Appending(_) => 8
    case Head => 7
    case Preflight => 6
    case Calling => 5
    case SuspendCheckpoint(_) => 4
    case AbortCheckpoint => 4
    case Finish(_) => 3
    case TerminalCheckpoint(_) => 2
    case Idle => 0
  }

  function TurnsLeft(c: Config, s: State): nat {
    if s.live.phase.Idle? || s.live.meter.turn > c.policy.maxTurns then 0 else c.policy.maxTurns - s.live.meter.turn
  }

  function BatchLeft(s: State): nat {
    if s.live.phase.Appending? then |s.live.phase.results| else 0
  }

  /** A turn is used up, or the step moves on within the turn, or within the batch of results. */
  predicate Descends(c: Config, s: State, t: State) {
    || TurnsLeft(c, t) < TurnsLeft(c, s)
    || (TurnsLeft(c, t) == TurnsLeft(c, s) && Rank(t.live.phase) < Rank(s.live.phase))
    || (TurnsLeft(c, t) == TurnsLeft(c, s) && Rank(t.live.phase) == Rank(s.live.phase) && BatchLeft(t) < BatchLeft(s))
  }

  lemma CallingDescends(c: Config, s: State, i: Input)
    requires BudgetInv(c, s) && s.live.phase.Calling?
    ensures
      var t := Apply(s, PlanCalling(c, s, i));
      t == s || Descends(c, s, t)
  {
  }

  lemma ToolsDescend(c: Config, s: State, i: Input)
    requires s.live.phase.Redispatch? || s.live.phase.Dispatching? || s.live.phase.Appending?
    requires !i.Crash?
    ensures Step(c, s, i) == s || Descends(c, s, Step(c, s, i))
  {
  }

  lemma TurnDescends(c: Config, s: State, i: Input)
    requires s.live.phase.Head? || s.live.phase.Preflight? || s.live.phase.PostCheck?
    requires !i.Crash?
    ensures Step(c, s, i) == s || Descends(c, s, Step(c, s, i))
  {
  }

  lemma OpeningDescends(c: Config, s: State, i: Input)
    requires s.live.phase.QueryUser? || s.live.phase.QuerySeed?
    requires !i.Crash? && BudgetInv(c, s)
    ensures Step(c, s, i) == s || Descends(c, s, Step(c, s, i))
  {
  }

  lemma RestDescends(c: Config, s: State, i: Input)
    requires
      var p := s.live.phase;
      p.Replied? || p.SuspendCheckpoint? || p.AbortCheckpoint? || p.Finish? || p.TerminalCheckpoint?
    requires !i.Crash?
    ensures Step(c, s, i) == s || Descends(c, s, Step(c, s, i))
  {
  }

  lemma StepDescends(c: Config, s: State, i: Input)
    requires BudgetInv(c, s) && !s.live.phase.Idle?
    ensures Step(c, s, i) == s || Descends(c, s, Step(c, s, i))
  {
    var p := s.live.phase;
    if i.Crash? {
    } else if p.Calling? {
      CallingDescends(c, s, i);
    } else if p.Redispatch? || p.Dispatching? || p.Appending? {
      ToolsDescend(c, s, i);
    } else if p.Head? || p.Preflight? || p.PostCheck? {
      TurnDescends(c, s, i);
    } else if p.QueryUser? || p.QuerySeed? {
      OpeningDescends(c, s, i);
    } else {
      RestDescends(c, s, i);
    }
  }

  /** The state after `n` inputs of an environment. */
  function After(c: Config, s: State, env: nat -> Input, n: nat): State {
    if n == 0 then s else Step(c, After(c, s, env, n - 1), env(n - 1))
  }

  /** Each input of the environment fits the phase it meets, so it makes a step. */
  ghost predicate Fits(c: Config, s: State, env: nat -> Input) {
    forall m: nat ::
      !After(c, s, env, m).live.phase.Idle? ==> Step(c, After(c, s, env, m), env(m)) != After(c, s, env, m)
  }

  lemma {:induction false} EndsFrom(c: Config, s: State, env: nat -> Input, n: nat) returns (k: nat)
    requires BudgetInv(c, After(c, s, env, n)) && HashInv(After(c, s, env, n))
    requires Fits(c, s, env)
    ensures After(c, s, env, k).live.phase.Idle?
    decreases TurnsLeft(c, After(c, s, env, n)), Rank(After(c, s, env, n).live.phase), BatchLeft(After(c, s, env, n))
  {
    k := n;
    var t := After(c, s, env, n);
    if !t.live.phase.Idle? {
      StepDescends(c, t, env(n));
      StepKeepsBudget(c, t, env(n));
      StepKeepsHash(c, t, env(n));
      assert After(c, s, env, n + 1) == Step(c, t, env(n));
      k := EndsFrom(c, s, env, n + 1);
    }
  }

  /** Every segment terminates: as long as each input fits the phase it meets, whatever models,
      tools and storage answer, the segment is over after finitely many steps. */
  lemma SegmentEnds(c: Config, inputs: seq<Input>, env: nat -> Input) returns (k: nat)
    requires Fits(c, Run(c, inputs), env)
    ensures After(c, Run(c, inputs), env, k).live.phase.Idle?
  {
    BudgetInvAlways(c, inputs);
    HashInvAlways(c, inputs);
    var s := Run(c, inputs);
    assert After(c, s, env, 0) == s;
    k := EndsFrom(c, s, env, 0);
  }
}
