/** Checkpoints and the rolling hash over every run of the protocol. */
module RunHash {
  import opened Options
  import opened Cost
  import opened Events
  import opened ReplayHash
  import opened RunMachine

  /** A position from which hashes are counted: the start of the log or a `run_started` event. */
  predicate BaseOk(log: Log, base: nat) {
    base == 0 || (base < |log| && log[base].body.RunStarted?)
  }

  ghost predicate WrittenOk(log: Log, w: Written) {
    && 0 < w.at <= |log| && w.base < w.at && BaseOk(log, w.base)
    && w.cp.seqNo == log[w.at - 1].seqNo + 1
    && w.cp.hash == Replayed(log[w.base..w.at])
  }

  ghost predicate StoreInv(s: State) {
    && Increasing(s.log)
    && (forall k :: 0 <= k < |s.cps| ==> WrittenOk(s.log, s.cps[k]))
    && (forall j, k :: 0 <= j < k < |s.cps| ==> s.cps[j].at <= s.cps[k].at)
    && (s.log != [] ==> s.log[0].body.RunStarted?)
  }

  ghost predicate RollingOk(s: State) {
    && s.live.rolling.base < |s.log| && BaseOk(s.log, s.live.rolling.base)
    && s.live.rolling.hash == Replayed(s.log[s.live.rolling.base..])
  }

  ghost predicate MemoryInv(s: State) {
    var p := s.live.phase;
    && (!p.Idle? ==> s.log != [] && s.live.nextSeq >= NextSeq(s.log))
    && (!p.Idle? && !p.Finish? ==> s.live.nextSeq == NextSeq(s.log))
    && (p.QueryUser? ==> p.started.body.RunStarted? && s.log[|s.log| - 1] == p.started)
    && (p.QuerySeed? ==> (
          && p.started.body.RunStarted? && p.user.body.User? && |s.log| >= 2
          && s.log[|s.log| - 2] == p.started && s.log[|s.log| - 1] == p.user))
    && (InLoop(p) ==> RollingOk(s))
  }

  ghost predicate HashInv(s: State) {
    StoreInv(s) && MemoryInv(s)
  }

  /** What makes an effect safe for the store. */
  ghost predicate EffectOk(s: State, e: Effect) {
    match e
    case Only(_) => true
    case Appends(event, _) => event.seqNo >= NextSeq(s.log) && (s.log == [] ==> event.body.RunStarted?)
    case Writes(w, _) => w.at == |s.log| && WrittenOk(s.log, w)
  }

  lemma ApplyStore(s: State, e: Effect)
    requires StoreInv(s) && EffectOk(s, e)
    ensures StoreInv(Apply(s, e))
  {
    var log := Apply(s, e).log;
    forall k | 0 <= k < |s.cps| ensures WrittenOk(log, s.cps[k]) && s.cps[k].at <= |s.log| {
      var w := s.cps[k];
      assert WrittenOk(s.log, w);
      assert log[w.base..w.at] == s.log[w.base..w.at];
    }
  }

  lemma AppendFold(log: Log, e: Event, base: nat)
    requires base <= |log|
    ensures Replayed((log + [e])[base..]) == Chain(Replayed(log[base..]), e.body)
  {
    assert (log + [e])[base..] == log[base..] + [e];
    FoldSnoc(Seed, log[base..], e);
  }

  lemma {:induction false} LastRunIsRun(log: Log)
    requires log != [] && log[0].body.RunStarted?
    ensures LastRun(log) < |log| && log[LastRun(log)].body.RunStarted?
    ensures forall k :: LastRun(log) < k < |log| ==> !log[k].body.RunStarted?
    ensures CurrentRunId(log) == Some(log[LastRun(log)].seqNo)
  {
    if !log[|log| - 1].body.RunStarted? { LastRunIsRun(log[..|log| - 1]); }
  }

  lemma {:induction false} LastCheckpointIsLast(s: State, cps: seq<Written>)
    requires StoreInv(s) && cps <= s.cps
    ensures LastCheckpoint(cps) == if cps == [] then None else Some(cps[|cps| - 1])
  {
    if |cps| >= 2 {
      var n := |cps| - 1;
      LastCheckpointIsLast(s, cps[..n]);
      assert cps[n - 1] == s.cps[n - 1] && cps[n] == s.cps[n];
      assert WrittenOk(s.log, s.cps[n - 1]) && WrittenOk(s.log, s.cps[n]);
      assert s.cps[n - 1].at <= s.cps[n].at;
    }
  }

  /** The seed of a resumed run is right for the base of the checkpoint it starts from. */
  lemma ResumeSeed(c: Config, s: State)
    requires StoreInv(s) && s.log != []
    ensures ResumeBase(c, s) < |s.log| && BaseOk(s.log, ResumeBase(c, s))
    ensures ResumeFrom(c, s) == Replayed(s.log[ResumeBase(c, s)..])
  {
    LastCheckpointIsLast(s, s.cps);
    if c.durable && s.cps != [] {
      var w := s.cps[|s.cps| - 1];
      assert WrittenOk(s.log, w);
      SeedFromCheckpoint(s.log, w.at, w.base, w.cp);
    } else {
      SeedFromScratch(s.log);
      assert s.log[0..] == s.log;
    }
  }

  lemma QuerySeedHash(s: State)
    requires HashInv(s) && s.live.phase.QuerySeed?
    ensures LastRun(s.log) == |s.log| - 2
    ensures Chain(Chain(Seed, s.live.phase.started.body), s.live.phase.user.body) == Replayed(s.log[LastRun(s.log)..])
  {
    LastRunIsRun(s.log);
    var n := |s.log|;
    var started, user := s.live.phase.started, s.live.phase.user;
    assert s.log[n - 2..] == [] + [started] + [user];
    FoldSnoc(Seed, [], started);
    FoldSnoc(Seed, [] + [started], user);
  }

  ghost predicate Keeps(s: State, e: Effect) {
    EffectOk(s, e) && MemoryInv(Apply(s, e))
  }

  lemma ReopenKeeps(c: Config, s: State, i: Input, runId: nat)
    requires StoreInv(s) && s.log != [] && i.StartResume?
    ensures MemoryInv(s.(live := PlanReopen(c, s, i, runId)))
  {
    ResumeSeed(c, s);
  }

  lemma QueryKeeps(c: Config, s: State, i: Input)
    requires HashInv(s) && s.live.phase.Idle? && i.StartQuery?
    ensures Keeps(s, PlanQuery(c, s, i))
  {
  }

  lemma EndsAtOnceKeeps(s: State, e: Effect)
    requires HashInv(s) && e.Only? && (e.live == s.live || (e.live.phase.Idle? && e.live.nextSeq == NextSeq(s.log)))
    requires s.live.phase.Idle?
    ensures Keeps(s, e)
  {
  }

  lemma ResumeKeeps(c: Config, s: State, i: Input)
    requires HashInv(s) && s.live.phase.Idle? && i.StartResume?
    ensures Keeps(s, PlanResume(c, s, i))
  {
    var e := PlanResume(c, s, i);
    if s.log == [] || CurrentRunId(s.log).None? {
      EndsAtOnceKeeps(s, e);
    } else {
      var runId := CurrentRunId(s.log).value;
      var stored := PersistedTerminal(s.log, runId);
      if stored.Some? && !stored.value.subtype.Suspended? {
        EndsAtOnceKeeps(s, e);
      } else {
        ReopenKeeps(c, s, i, runId);
      }
    }
  }

  lemma IdleKeeps(c: Config, s: State, i: Input)
    requires HashInv(s) && s.live.phase.Idle?
    ensures Keeps(s, PlanIdle(c, s, i))
  {
    if i.StartQuery? && i.child.usd >= 0.0 {
      QueryKeeps(c, s, i);
    } else if i.StartResume? && i.child.usd >= 0.0 {
      ResumeKeeps(c, s, i);
    } else {
      EndsAtOnceKeeps(s, Only(s.live));
    }
  }

  lemma GuardedKeeps(c: Config, s: State, i: Input)
    requires MemoryInv(s) && s.live.phase.QueryUser? && i.Guarded?
    ensures Keeps(s, PlanGuarded(c, s, i))
  {
  }

  lemma SeededKeeps(c: Config, s: State, i: Input)
    requires HashInv(s) && s.live.phase.QuerySeed? && i.Seeded?
    ensures Keeps(s, PlanSeeded(c, s, i))
  {
    QuerySeedHash(s);
    assert s.log[LastRun(s.log)..|s.log|] == s.log[LastRun(s.log)..];
  }

  lemma RecordKeeps(s: State, e: Effect)
    requires MemoryInv(s) && InLoop(s.live.phase) && e.Appends?
    requires e.event.seqNo == s.live.nextSeq && e.live.nextSeq == s.live.nextSeq + 1
    requires e.live.rolling.hash == Chain(s.live.rolling.hash, e.event.body)
    requires e.live.rolling.base == s.live.rolling.base
    requires InLoop(e.live.phase) || e.live.phase.Finish?
    ensures Keeps(s, e)
  {
    AppendFold(s.log, e.event, s.live.rolling.base);
  }

  lemma RollingKeeps(s: State, e: Effect)
    requires MemoryInv(s) && InLoop(s.live.phase) && e.Writes?
    requires e.live == s.live.(phase := e.live.phase) && (InLoop(e.live.phase) || e.live.phase.Finish?)
    requires e.written == Written(Checkpoint(s.live.nextSeq, s.live.rolling.hash), |s.log|, s.live.rolling.base)
    ensures Keeps(s, e)
  {
    assert s.log[s.live.rolling.base..|s.log|] == s.log[s.live.rolling.base..];
  }

  lemma ToolsKeep(c: Config, s: State, i: Input)
    requires MemoryInv(s) && !i.Crash?
    requires s.live.phase.Redispatch? || s.live.phase.Dispatching? || s.live.phase.Appending?
    ensures Keeps(s, Plan(c, s, i))
  {
    var e := Plan(c, s, i);
    match e
    case Appends(_, _) => RecordKeeps(s, e);
    case Writes(_, _) => RollingKeeps(s, e);
    case Only(_) =>
  }

  lemma TurnKeeps(c: Config, s: State, i: Input)
    requires MemoryInv(s) && !i.Crash?
    requires s.live.phase.Head? || s.live.phase.Preflight? || s.live.phase.PostCheck?
    ensures Keeps(s, Plan(c, s, i))
  {
    var e := Plan(c, s, i);
    match e
    case Appends(_, _) => RecordKeeps(s, e);
    case Writes(_, _) => RollingKeeps(s, e);
    case Only(_) =>
  }

  lemma CallingKeeps(c: Config, s: State, i: Input)
    requires MemoryInv(s) && !i.Crash?
    requires s.live.phase.Calling?
    ensures Keeps(s, Plan(c, s, i))
  {
    var e := Plan(c, s, i);
    match e
    case Appends(_, _) => RecordKeeps(s, e);
    case Writes(_, _) => RollingKeeps(s, e);
    case Only(_) =>
  }

  lemma CheckpointKeeps(c: Config, s: State, i: Input)
    requires MemoryInv(s) && !i.Crash?
    requires s.live.phase.Replied? || s.live.phase.SuspendCheckpoint? || s.live.phase.AbortCheckpoint?
    ensures Keeps(s, Plan(c, s, i))
  {
    var e := Plan(c, s, i);
    match e
    case Appends(_, _) => RecordKeeps(s, e);
    case Writes(_, _) => RollingKeeps(s, e);
    case Only(_) =>
  }

  lemma FinishKeeps(c: Config, s: State, i: Input)
    requires MemoryInv(s) && s.live.phase.Finish? && i.Persist?
    ensures Keeps(s, PlanFinish(c, s, i))
  {
  }

  lemma ClosingKeeps(c: Config, s: State, i: Input)
    requires MemoryInv(s) && s.live.phase.TerminalCheckpoint? && i.Checkpointed?
    ensures Keeps(s, PlanCheckpoint(c, s, i))
  {
    assert s.log[0..|s.log|] == s.log;
  }

  lemma StepKeepsHash(c: Config, s: State, i: Input)
    requires HashInv(s)
    ensures HashInv(Step(c, s, i))
  {
    if !i.Crash? {
      match s.live.phase
      case Idle => IdleKeeps(c, s, i);
      case QueryUser(_) => if i.Guarded? { GuardedKeeps(c, s, i); }
      case QuerySeed(_, _) => if i.Seeded? { SeededKeeps(c, s, i); }
      case Redispatch(_) => ToolsKeep(c, s, i);
      case Dispatching(_) => ToolsKeep(c, s, i);
      case Appending(_) => ToolsKeep(c, s, i);
      case Head => TurnKeeps(c, s, i);
      case Preflight => TurnKeeps(c, s, i);
      case PostCheck(_) => TurnKeeps(c, s, i);
      case Calling => CallingKeeps(c, s, i);
      case Finish(_) => if i.Persist? { FinishKeeps(c, s, i); }
      case TerminalCheckpoint(_) => if i.Checkpointed? { ClosingKeeps(c, s, i); }
      case _ => CheckpointKeeps(c, s, i);
    }
    ApplyStore(s, Plan(c, s, i));
  }

  lemma {:induction false} HashInvAlways(c: Config, inputs: seq<Input>)
    ensures HashInv(Run(c, inputs))
  {
    if inputs != [] {
      HashInvAlways(c, inputs[..|inputs| - 1]);
      StepKeepsHash(c, Run(c, inputs[..|inputs| - 1]), inputs[|inputs| - 1]);
    }
  }

  // ---- main results ---------------------------------------------------------------------------------------------

  /** The events numbered below `n`, which is what a checkpoint with that number covers. */
  function Before(log: Log, n: nat): Log {
    if log == [] || log[|log| - 1].seqNo < n then log else Before(log[..|log| - 1], n)
  }

  lemma {:induction false} BeforeIsPrefix(log: Log, at: nat)
    requires Increasing(log) && 0 < at <= |log|
    ensures Before(log, log[at - 1].seqNo + 1) == log[..at]
  {
    if at < |log| {
      BeforeIsPrefix(log[..|log| - 1], at);
      assert log[..|log| - 1][..at] == log[..at];
    } else {
      assert log[..at] == log;
    }
  }

  /** Any number of queries, crashes and resumes: a checkpoint holds the replay hash of the events
      it covers exactly when it was counted from the start of the session. */
  lemma CheckpointExact(c: Config, inputs: seq<Input>, k: nat)
    requires k < |Run(c, inputs).cps|
    ensures
      var s := Run(c, inputs);
      s.cps[k].cp.hash == Replayed(Before(s.log, s.cps[k].cp.seqNo)) <==> s.cps[k].base == 0
  {
    HashInvAlways(c, inputs);
    var s := Run(c, inputs);
    var w := s.cps[k];
    assert WrittenOk(s.log, w);
    BeforeIsPrefix(s.log, w.at);
    FoldGrows(Seed, s.log[..w.at]);
    FoldGrows(Seed, s.log[w.base..w.at]);
    if w.base == 0 { assert s.log[0..w.at] == s.log[..w.at]; }
  }

  /** One query, any number of crashes and resumes: every checkpoint holds the replay hash of
      exactly the events below its sequence number. */
  lemma CheckpointsFaithful(c: Config, inputs: seq<Input>, k: nat)
    requires OneQuery(Run(c, inputs).log) && k < |Run(c, inputs).cps|
    ensures
      var s := Run(c, inputs);
      s.cps[k].cp.hash == Replayed(Before(s.log, s.cps[k].cp.seqNo))
  {
    HashInvAlways(c, inputs);
    assert WrittenOk(Run(c, inputs).log, Run(c, inputs).cps[k]);
    CheckpointExact(c, inputs, k);
  }

  /** One query: while the loop is alive its rolling hash is the replay hash of the whole log. */
  lemma RollingFaithful(c: Config, inputs: seq<Input>)
    requires OneQuery(Run(c, inputs).log) && InLoop(Run(c, inputs).live.phase)
    ensures Run(c, inputs).live.rolling.hash == Replayed(Run(c, inputs).log)
  {
    HashInvAlways(c, inputs);
    var s := Run(c, inputs);
    assert s.log[0..] == s.log;
  }

  lemma ResumeAtZero(c: Config, s: State)
    requires StoreInv(s) && s.log != []
    requires c.durable && s.cps != [] ==> s.cps[|s.cps| - 1].base == 0
    ensures ResumeFrom(c, s) == Replayed(s.log)
  {
    ResumeSeed(c, s);
    LastCheckpointIsLast(s, s.cps);
    assert s.log[0..] == s.log;
  }

  /** One query: chaining the delta onto the last checkpoint equals rehashing the whole log, in
      whatever state the crash left the session. */
  lemma ResumeFaithful(c: Config, inputs: seq<Input>)
    requires OneQuery(Run(c, inputs).log)
    ensures ResumeFrom(c, Run(c, inputs)) == Replayed(Run(c, inputs).log)
  {
    HashInvAlways(c, inputs);
    var s := Run(c, inputs);
    if s.cps != [] { assert WrittenOk(s.log, s.cps[|s.cps| - 1]); }
    ResumeAtZero(c, s);
  }

  /** A query's own seed is the replay hash exactly when the session was empty before the query:
      on any later query of the session the seeded hash leaves the earlier events out. */
  lemma QuerySeedExact(c: Config, inputs: seq<Input>, prefix: seq<Message>)
    requires Run(c, inputs).live.phase.QuerySeed?
    ensures
      var s := Run(c, inputs);
      var t := Step(c, s, Seeded(prefix));
      t.live.rolling.hash == Replayed(t.log) <==> |s.log| == 2
  {
    HashInvAlways(c, inputs);
    var s := Run(c, inputs);
    QuerySeedHash(s);
    FoldGrows(Seed, s.log);
    FoldGrows(Seed, s.log[LastRun(s.log)..]);
    if |s.log| == 2 { assert s.log[0..] == s.log; }
  }

  /** The closing checkpoint of a run covers the whole log, so a session whose last run ended
      normally is always seeded correctly, however many queries it has had. */
  lemma ClosingCheckpointFaithful(c: Config, s: State)
    requires HashInv(s) && c.durable && s.live.phase.TerminalCheckpoint?
    ensures ResumeFrom(c, Step(c, s, Checkpointed(true))) == Replayed(s.log)
  {
    var t := Step(c, s, Checkpointed(true));
    assert t.log == s.log && |t.cps| == |s.cps| + 1 && t.cps[|s.cps|].base == 0;
    assert StoreInv(t) by { StepKeepsHash(c, s, Checkpointed(true)); }
    ResumeAtZero(c, t);
  }
}
