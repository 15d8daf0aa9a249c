/** `runTurn`, `resumeTurn` and `runLoop` as a process that updates its variables in place.

    `phase` says where the process is suspended. Each method is what the process does with the
    answer it was waiting for, up to the next suspension point. It is proved to do to the fields
    exactly what the step system does to its state, to keep everything that is proved about runs
    (`Valid`), and to meet its duty to the session. `Drive` goes on for any sequence of answers. */
module RunProcess {
  import opened Options
  import opened Cost
  import opened Events
  import opened ReplayHash
  import opened RunMachine
  import opened RunRebuild
  import opened RunWindow
  import opened RunDuties

  class Process {
    const c: Config

    // durable storage
    var log: Log
    var checkpoints: seq<Written>

    // memory of the current process
    var phase: Phase
    var outcome: Outcome
    var emitted: seq<Out>
    var nextSeq: nat
    var runId: nat
    var retries: nat
    var window: Window
    var meter: Meter
    var rolling: Rolling
    var loaded: set<string>

    /** The state of the step system that the fields stand for. */
    function Now(): State
      reads this
    {
      State(log, checkpoints, Live(phase, outcome, emitted, nextSeq, runId, retries, window, meter, rolling, loaded))
    }

    /** Everything that is proved about runs holds of the fields. */
    ghost predicate Valid()
      reads this
    {
      Sound(c, Now())
    }

    constructor (config: Config)
      ensures c == config && Now() == NEW_SESSION && Valid()
    {
      NewSessionSound(config);
      c := config;
      log, checkpoints := [], [];
      phase, outcome, emitted, nextSeq, runId, retries := Idle, Running, [Note], 0, 0, 0;
      window := Window([], false, [], [], 0, false);
      meter := Meter(ZeroUsage(), 0, None, Spend(0, 0.0), 0);
      rolling, loaded := Rolling(Seed, 0), {};
    }

    // ---- the pieces that the methods share ----------------------------------------------------------------------

    function Ending(subtype: Subtype, output: string): Result
      reads this
    {
      Result(subtype, meter.usage, meter.turn, TreeUsd(meter.usd, meter.child.usd), output, None, None)
    }

    method AppendEvent(body: Body, meta: Option<Meta>)
      modifies `log, `nextSeq
      ensures log == old(log) + [Event(old(nextSeq), body, meta)] && nextSeq == old(nextSeq) + 1
    {
      log := log + [Event(nextSeq, body, meta)];
      nextSeq := nextSeq + 1;
    }

    method AppendFails()
      modifies `nextSeq, `phase
      ensures nextSeq == old(nextSeq) + 1
      ensures phase == Finish(Result(Error, meter.usage, meter.turn, None, "event persistence failed", None, None))
    {
      phase := Finish(Result(Error, meter.usage, meter.turn, None, "event persistence failed", None, None));
      nextSeq := nextSeq + 1;
    }

    method WriteCheckpoint(hash: Hash, base: nat)
      modifies `checkpoints
      ensures checkpoints
        == if c.durable then old(checkpoints) + [Written(Checkpoint(nextSeq, hash), |log|, base)] else old(checkpoints)
    {
      if c.durable { checkpoints := checkpoints + [Written(Checkpoint(nextSeq, hash), |log|, base)]; }
    }

    method End(result: Result)
      modifies `phase, `outcome, `emitted
      ensures phase == Idle && outcome == Ended && emitted == old(emitted) + [Emit(result)]
    {
      phase, outcome, emitted := Idle, Ended, emitted + [Emit(result)];
    }

    method Crash()
      modifies `phase, `outcome
      ensures Now() == old(Now()).(live := CrashOf(old(Now().live)))
    {
      phase, outcome := Idle, Crashed;
    }

    /** A new process for the session starts. */
    method Boot(child: Spend)
      modifies this
      ensures log == old(log) && checkpoints == old(checkpoints) && Now().live == RunMachine.Boot(c, log, child)
    {
      phase, outcome, emitted, runId, retries := Idle, Running, [Note], 0, 0;
      nextSeq := if log == [] then 0 else log[|log| - 1].seqNo + 1;
      window := Window([], false, [], [], 0, false);
      meter := Meter(ZeroUsage(), 0, UsdFor(ZeroUsage(), c.prices, c.modelId), child, 0);
      rolling, loaded := Rolling(Seed, 0), {};
    }

    /** `runLoop` is entered: the loaded set is scanned once, the counters start from what was restored. */
    method Enter(prefix: seq<Message>, messages: seq<Message>, pristine: bool, usage: Usage, usd: Option<real>,
                 hash: Hash, hashBase: nat, usageBase: nat)
      modifies `window, `meter, `rolling, `retries, `loaded
      ensures Now().live
           == EnterLoop(c, log, old(Now().live), prefix, messages, pristine, usage, usd, hash, hashBase, usageBase)
    {
      loaded := LoadedToolNames(log, c.eager);
      var start := if usd.Some? then usd else UsdFor(usage, c.prices, c.modelId);
      window := if pristine then Window(messages, false, prefix, prefix, 0, true)
                else Window(messages, false, prefix, messages, |log|, false);
      meter := Meter(usage, 0, start, meter.child, usageBase);
      rolling, retries := Rolling(hash, hashBase), c.outputRetries;
    }

    /** Append, and chain onto the rolling hash. */
    method Record(body: Body)
      modifies `log, `nextSeq, `rolling
      ensures Now() == Apply(old(Now()), RunMachine.Record(old(Now()).live, body, None))
    {
      AppendEvent(body, None);
      rolling := rolling.(hash := Chain(rolling.hash, body));
    }

    /** Append, chain and extend the window. */
    method RecordMessage(body: Body, meta: Option<Meta>)
      modifies `log, `nextSeq, `rolling, `window
      ensures Now() == Apply(old(Now()), RunMachine.RecordMessage(old(Now()).live, body, meta))
    {
      AppendEvent(body, meta);
      window := window.(messages := window.messages + Replay(body));
      rolling := rolling.(hash := Chain(rolling.hash, body));
    }

    /** `messages.pop()` after the call, when a reminder was pushed before it. */
    method PopReminder()
      modifies `window
      ensures window == DropInjection(old(window))
    {
      if window.injected && window.messages != [] {
        window := window.(messages := window.messages[..|window.messages| - 1], injected := false);
      }
    }

    // ---- runTurn ------------------------------------------------------------------------------------------------

    method StartQuery(i: Input)
      requires Valid() && phase.Idle? && i.StartQuery? && i.child.usd >= 0.0
      modifies this
      ensures Valid() && Starts(old(Now()), Now())
      ensures Now() == Apply(old(Now()), PlanQuery(c, old(Now()), i))
    {
      QueryStarts(c, Now(), i);
      Boot(i.child);
      if i.ok {
        runId, phase := nextSeq, QueryUser(Event(nextSeq, RunStarted, None));
        AppendEvent(RunStarted, None);
      } else {
        End(Result(Error, meter.usage, meter.turn, None, "event persistence failed", None, None));
      }
    }

    method LogUser(i: Input)
      requires Valid() && phase.QueryUser? && i.Guarded?
      modifies this
      ensures Valid() && Guards(old(Now()), Now(), i.blocked, i.text)
      ensures Now() == Apply(old(Now()), PlanGuarded(c, old(Now()), i))
    {
      ghost var s := Now();
      if i.blocked {
        var usd := TreeUsd(UsdFor(ZeroUsage(), c.prices, c.modelId), meter.child.usd);
        phase := Finish(Result(Guardrail, ZeroUsage(), 0, usd, i.text, None, None));
      } else if i.ok {
        phase := QuerySeed(phase.started, Event(nextSeq, User(i.text), None));
        AppendEvent(User(i.text), None);
      } else {
        End(Result(Error, meter.usage, meter.turn, None, "event persistence failed", None, None));
      }
      UserLogged(c, s, i);
    }

    /** The hash of a query starts from the empty hash and chains the query's own two events. */
    method EnterQuery(i: Input)
      requires Valid() && i.Seeded? && phase.QuerySeed?
      modifies this
      ensures Valid() && Saves(old(Now()), Now())
      ensures Now() == Apply(old(Now()), PlanSeeded(c, old(Now()), i))
    {
      SeedWritten(c, Now(), i);
      var messages := RebuildMessages(log);
      var hash := Chain(Chain(Seed, phase.started.body), phase.user.body);
      var at := FindLastRun(log);
      Enter(i.prefix, i.prefix + messages, true, ZeroUsage(), None, hash, at, at);
      WriteCheckpoint(hash, at);
      phase := Head;
    }

    // ---- resumeTurn ---------------------------------------------------------------------------------------------

    /** The window of the whole log, with the last user message as the guardrails now leave it. */
    method RebuildWindow(i: Input) returns (messages: seq<Message>, patched: bool)
      requires i.StartResume?
      ensures patched <==> i.patch.Some? && HasUser(i.prefix + ReplayAll(log))
      ensures var rebuilt := i.prefix + ReplayAll(log);
              messages == if patched then PatchLastUser(rebuilt, i.patch.value) else rebuilt
    {
      messages := RebuildMessages(log);
      messages := i.prefix + messages;
      patched := i.patch.Some? && exists k :: 0 <= k < |messages| && messages[k].FromUser?;
      if patched { messages := PatchWindow(messages, i.patch.value); }
    }

    /** The rolling hash, from the last checkpoint on. */
    method SeedHash() returns (hash: Hash, base: nat)
      ensures hash == ResumeFrom(c, Now()) && base == ResumeBase(c, Now())
    {
      var last := None;
      if c.durable { last := LastWritten(checkpoints); }
      hash := SeedResume(if last.Some? then Some(last.value.cp) else None, log);
      base := if last.Some? then last.value.base else 0;
    }

    /** What the run has used and spent, as far as the log tells. */
    method RestoreSpend() returns (usage: Usage, usd: Option<real>)
      ensures usage == LogUsage(log) && usd == ResumedUsd(c, log)
    {
      usage := PriorUsage(log);
      usd := PriorUsd(c, log, usage);
    }

    method RestorePending() returns (pending: seq<ToolUse>)
      ensures pending == PendingCalls(log)
    {
      pending := FindPending(log);
    }

    /** Everything is read back from the log. */
    method Reopen(i: Input, current: nat)
      requires i.StartResume?
      modifies this
      ensures Now() == old(Now()).(live := PlanReopen(c, old(Now()), i, current))
    {
      var hash, base := SeedHash();
      Boot(i.child);
      runId := current;
      var usage, usd := RestoreSpend();
      var pending := RestorePending();
      var messages, patched := RebuildWindow(i);
      Enter(i.prefix, messages, !patched, usage, usd, hash, base, 0);
      phase := if i.blocked then Finish(Ending(Guardrail, "input blocked on resume"))
               else if pending != [] then Redispatch(pending) else Head;
    }

    method Resume(i: Input)
      requires Valid() && phase.Idle? && i.StartResume? && i.child.usd >= 0.0
      modifies this
      ensures Valid() && Resumes(c, old(Now()), Now())
      ensures Now() == Apply(old(Now()), PlanResume(c, old(Now()), i))
    {
      SessionResumed(c, Now(), i);
      if log == [] {
        Boot(i.child);
        var usd := TreeUsd(UsdFor(ZeroUsage(), c.prices, c.modelId), i.child.usd);
        End(Result(Error, ZeroUsage(), 0, usd, "resume: session has no events", None, None));
        return;
      }
      var current := FindRun(log);
      if current.None? { return; }
      var stored := FindTerminal(log, current.value);
      if stored.Some? && !stored.value.subtype.Suspended? {
        Boot(i.child);
        End(ReEmitted(c, stored.value, i.verdict));
      } else {
        Reopen(i, current.value);
      }
    }

    // ---- runLoop: a batch of tool results -----------------------------------------------------------------------

    /** A tool suspends the batch: during re-dispatch the suspension is in the log already. */
    method Suspend(callId: string, ok: bool)
      requires (phase.Redispatch? || phase.Dispatching?) && callId in Ids(phase.calls)
      modifies this
      ensures Now() == Apply(old(Now()), PlanDispatch(old(Now()), Suspends(callId, ok)))
    {
      if phase.Redispatch? {
        phase := Finish(Ending(Suspended, "").(callId := Some(callId)));
      } else if ok {
        phase := SuspendCheckpoint(callId);
        Record(Suspension(callId));
      } else {
        AppendFails();
      }
    }

    method TakeBatch(i: Input)
      requires Valid() && !i.Crash? && (phase.Redispatch? || phase.Dispatching?)
      modifies this
      ensures Valid() && TakesBatchOf(old(Now()), Now())
      ensures Now() == Apply(old(Now()), PlanDispatch(old(Now()), i))
    {
      BatchTaken(c, Now(), i);
      if i.Suspends? {
        if i.callId in Ids(phase.calls) { Suspend(i.callId, i.ok); }
      } else if i.Dispatched? && ResultsFor(i.results, phase.calls) && Grows(meter.child, i.child) {
        meter, phase := meter.(child := i.child), Appending(i.results);
      }
    }

    method AppendResult(i: Input)
      requires Valid() && !i.Crash? && phase.Appending?
      modifies this
      ensures Valid() && Answers(old(Now()), Now())
      ensures Now() == Apply(old(Now()), PlanAppending(c, old(Now()), i))
    {
      ResultStored(c, Now(), i);
      var results := phase.results;
      if i.Persist? && results != [] {
        if i.ok {
          loaded, phase := loaded + LoadedBy(results[0]), Appending(results[1..]);
          RecordMessage(ToolResult(results[0]), None);
        } else {
          AppendFails();
        }
      } else if i.Checkpointed? && results == [] {
        if i.ok { WriteCheckpoint(rolling.hash, rolling.base); phase := Head; } else { Crash(); }
      }
    }

    // ---- runLoop: one turn --------------------------------------------------------------------------------------

    /** The abort boundary and compaction. */
    method TurnHead(i: Input)
      requires Valid() && phase.Head? && i.AtHead?
      modifies this
      ensures Valid() && Compacts(old(Now()), Now())
      ensures Now() == Apply(old(Now()), PlanHead(old(Now()), i))
    {
      ghost var s := Now();
      if i.aborted {
        phase := AbortCheckpoint;
      } else if i.compacted.None? {
        phase := Preflight;
      } else if i.ok {
        window := Window(i.compacted.value, false, window.prefix, i.compacted.value, |log| + 1, false);
        phase := Preflight;
        Record(Compaction);
      } else {
        AppendFails();
      }
      HeadPassed(c, s, i);
    }

    /** The per-turn reminder and the cost governor's preflight. */
    method PassGate(i: Input)
      requires Valid() && phase.Preflight? && i.Gate?
      modifies this
      ensures Valid() && Opens(c, old(Now()), Now())
      ensures Now() == Apply(old(Now()), PlanGate(c, old(Now()), i))
    {
      GatePassed(c, Now(), i);
      var extra := if i.injection.Some? then [FromUser(i.injection.value)] else [];
      window := window.(messages := window.messages + extra, injected := i.injection.Some?);
      var stop := Ceiling(c, meter, i.elapsedMs);
      phase := if stop.Some? then Finish(Ending(stop.value, "")) else Calling;
    }

    /** What is done with a response, before it is clear whether the run goes on. */
    method TakeReply(i: Input)
      requires i.ModelReply? && FreshCalls(log, Uses(i.reply.content))
      modifies this
      ensures Now() == Apply(old(Now()), PlanReply(c, old(Now()), i))
    {
      var r := i.reply;
      meter := Charge(c, meter, r);
      PopReminder();
      if i.aborted {
        phase := AbortCheckpoint;
      } else if Uses(r.content) == [] && i.blocked {
        phase := Finish(Ending(Guardrail, "output blocked"));
      } else if !i.ok {
        AppendFails();
      } else {
        phase := Replied(r.content);
        RecordMessage(Assistant(r.content, false), Some(Meta(r.usage, ReplyModel(c, r), ReplyCost(c, r))));
      }
    }

    /** A response: it is charged, the reminder is popped, and the event is persisted. */
    method Receive(i: Input)
      requires Valid() && phase.Calling? && i.ModelReply?
      modifies this
      ensures Valid() && Hears(c, old(Now()), Now(), i.reply)
      ensures Now() == Apply(old(Now()), PlanReply(c, old(Now()), i))
    {
      ReplyStored(c, Now(), i);
      if FreshCalls(log, Uses(i.reply.content)) { TakeReply(i); }
    }

    method AfterFailing(i: Input)
      requires i.ModelFails?
      modifies `meter, `phase
      ensures Now().live == AfterFailure(c, old(Now().live), i)
    {
      if i.aborted {
        phase := AbortCheckpoint;
      } else {
        if i.limited.Some? { meter := Charge(c, meter, i.limited.value); }
        phase := Finish(Ending(Error, "model error"));
      }
    }

    method StorePartial(i: Input)
      requires i.ModelFails? && i.partial != ""
      modifies this
      ensures Now() == Apply(old(Now()), PlanFails(c, old(Now()), i))
    {
      if i.ok {
        Record(Assistant([Text(i.partial)], true));
        AfterFailing(i);
      } else {
        AppendFails();
      }
    }

    /** All candidates failed: what was streamed is persisted as a partial assistant event. */
    method FailCall(i: Input)
      requires Valid() && phase.Calling? && i.ModelFails?
      modifies this
      ensures Valid() && Interrupts(old(Now()), Now(), i.partial)
      ensures Now() == Apply(old(Now()), PlanFails(c, old(Now()), i))
    {
      FailureStored(c, Now(), i);
      if i.partial == "" { AfterFailing(i); } else { StorePartial(i); }
    }

    /** The answer of a run with an output schema is validated, and asked for again while retries are left. */
    method Validate(i: Input)
      requires i.AfterCall? && phase.PostCheck? && c.schema
      requires Ceiling(c, meter, i.elapsedMs).None? && Uses(phase.content) == []
      modifies this
      ensures Now() == Apply(old(Now()), PlanAfter(c, old(Now()), i))
    {
      if i.verdict.Accepted? {
        phase := Finish(Ending(Success, "").(structured := Some(i.verdict.value)));
      } else if retries == 0 {
        phase := Finish(Ending(Error, i.verdict.corrective));
      } else {
        retries := retries - 1;
        if i.ok {
          phase := Head;
          RecordMessage(User(i.verdict.corrective), None);
        } else {
          AppendFails();
        }
      }
    }

    /** The ceilings again, then tools, validation or success. */
    method Decide(i: Input)
      requires Valid() && phase.PostCheck? && i.AfterCall?
      modifies this
      ensures Valid() && Decides(c, old(Now()), Now())
      ensures Now() == Apply(old(Now()), PlanAfter(c, old(Now()), i))
    {
      Decided(c, Now(), i);
      var calls := Uses(phase.content);
      var stop := Ceiling(c, meter, i.elapsedMs);
      if stop.Some? {
        phase := Finish(Ending(stop.value, ""));
      } else if calls != [] {
        phase := Dispatching(calls);
      } else if !c.schema {
        phase := Finish(Ending(Success, ""));
      } else {
        Validate(i);
      }
    }

    // ---- checkpoints and the terminal ---------------------------------------------------------------------------

    method StoreTerminal(i: Input)
      requires phase.Finish? && i.Persist?
      modifies this
      ensures Now() == Apply(old(Now()), PlanFinish(c, old(Now()), i))
    {
      var r := phase.result;
      if !i.ok {
        End(Result(Error, r.usage, r.numTurns, r.usd, "terminal result persistence failed", None, None));
      } else {
        AppendEvent(TerminalResult(runId, r), None);
        if c.durable { phase := TerminalCheckpoint(r); } else { End(r); }
      }
    }

    /** `persistAndYieldTerminal` up to its checkpoint. */
    method PersistTerminal(i: Input)
      requires Valid() && phase.Finish? && i.Persist?
      modifies this
      ensures Valid() && Concludes(c, old(Now()), Now(), old(phase.result))
      ensures Now() == Apply(old(Now()), PlanFinish(c, old(Now()), i))
    {
      TerminalStored(c, Now(), i);
      StoreTerminal(i);
    }

    method RollingCheckpoint(ok: bool, next: Phase)
      modifies this
      ensures Now() == Apply(old(Now()), RunMachine.RollingCheckpoint(c, old(Now()), ok, next))
    {
      if ok { WriteCheckpoint(rolling.hash, rolling.base); phase := next; } else { Crash(); }
    }

    /** The closing checkpoint hashes the whole log again. */
    method CloseCheckpoint(ok: bool)
      requires phase.TerminalCheckpoint?
      modifies this
      ensures Now() == Apply(old(Now()), PlanCheckpoint(c, old(Now()), Checkpointed(ok)))
    {
      var r := phase.result;
      if ok {
        var hash := ReplayHash.ReplayHash(log);
        WriteCheckpoint(hash, 0);
        End(r);
      } else {
        End(Result(Error, r.usage, r.numTurns, r.usd, "terminal result persistence failed", None, None));
      }
    }

    method SaveCheckpoint(i: Input)
      requires Valid() && i.Checkpointed?
      requires phase.Replied? || phase.SuspendCheckpoint? || phase.AbortCheckpoint? || phase.TerminalCheckpoint?
      modifies this
      ensures Valid() && Saves(old(Now()), Now())
      ensures Now() == Apply(old(Now()), PlanCheckpoint(c, old(Now()), i))
    {
      CheckpointWritten(c, Now(), i);
      match phase
      case Replied(content) => RollingCheckpoint(i.ok, PostCheck(content));
      case SuspendCheckpoint(callId) => RollingCheckpoint(i.ok, Finish(Ending(Suspended, "").(callId := Some(callId))));
      case AbortCheckpoint => RollingCheckpoint(i.ok, Finish(Ending(Aborted, "")));
      case TerminalCheckpoint(_) => CloseCheckpoint(i.ok);
    }

    // ---- the whole process --------------------------------------------------------------------------------------

    method OpenQuery(i: Input)
      requires phase.Idle? || phase.QueryUser? || phase.QuerySeed?
      requires Valid() && !i.Crash?
      modifies this
      ensures Now() == Step(c, old(Now()), i)
    {
      match phase
      case Idle =>
        if i.StartQuery? && i.child.usd >= 0.0 { StartQuery(i); }
        else if i.StartResume? && i.child.usd >= 0.0 { Resume(i); }
      case QueryUser(_) => if i.Guarded? { LogUser(i); }
      case QuerySeed(_, _) => if i.Seeded? { EnterQuery(i); }
    }

    method Continue(i: Input)
      requires !phase.Idle? && !phase.QueryUser? && !phase.QuerySeed?
      requires Valid() && !i.Crash?
      modifies this
      ensures Now() == Step(c, old(Now()), i)
    {
      if phase.Redispatch? || phase.Dispatching? { TakeBatch(i); }
      else if phase.Appending? { AppendResult(i); }
      else if phase.Head? { if i.AtHead? { TurnHead(i); } }
      else if phase.Preflight? { if i.Gate? { PassGate(i); } }
      else if phase.Calling? { if i.ModelReply? { Receive(i); } else if i.ModelFails? { FailCall(i); } }
      else if phase.PostCheck? { if i.AfterCall? { Decide(i); } }
      else if phase.Finish? { if i.Persist? { PersistTerminal(i); } }
      else if i.Checkpointed? { SaveCheckpoint(i); }
    }

    /** Whatever is answered: one step, which keeps all that holds and only ever adds to the stores. */
    method Advance(i: Input)
      requires Valid()
      modifies this
      ensures Valid() && Extends(old(Now()), Now())
      ensures Now() == Step(c, old(Now()), i)
    {
      StepKeepsSound(c, Now(), i);
      StepExtends(c, Now(), i);
      if i.Crash? {
        if !phase.Idle? { Crash(); }
      } else if phase.Idle? || phase.QueryUser? || phase.QuerySeed? {
        OpenQuery(i);
      } else {
        Continue(i);
      }
    }

    /** Any number of queries, crashes and resumes from a new session on. */
    method Drive(inputs: seq<Input>)
      requires Valid() && Now() == NEW_SESSION
      modifies this
      ensures Valid() && Now() == Run(c, inputs)
    {
      for k := 0 to |inputs|
        invariant Valid() && Now() == Run(c, inputs[..k])
      {
        RunSnoc(c, inputs[..k], inputs[k]);
        assert inputs[..k + 1] == inputs[..k] + [inputs[k]];
        Advance(inputs[k]);
      }
      assert inputs[..|inputs|] == inputs;
    }
  }
}
