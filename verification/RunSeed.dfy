/** How far the seed of a query reaches: what is counted from it, until when, and when that is right. */
module RunSeed {
  import opened Options
  import opened Events
  import opened ReplayHash
  import opened RunMachine
  import opened RunHash

  /** From event `from` on no new query was started, and no terminal stored unless terminals are let through. */
  ghost predicate Undisturbed(log: Log, from: nat, terminals: bool) {
    forall k :: from <= k < |log| ==> !log[k].body.RunStarted? && (log[k].body.TerminalResult? ==> terminals)
  }

  /** All checkpoints from the `m`-th on, and the rolling hash, are counted from `base`. */
  ghost predicate CountedFrom(s: State, base: nat, m: nat) {
    var p := s.live.phase;
    && m < |s.cps| && (forall k :: m <= k < |s.cps| ==> s.cps[k].base == base)
    && (InLoop(p) ==> s.live.rolling.base == base)
    && !p.QueryUser? && !p.QuerySeed? && (p.TerminalCheckpoint? ==> base == 0)
  }

  lemma StartLogs(c: Config, s: State, i: Input)
    ensures
      var e := PlanIdle(c, s, i);
      e.Appends? ==> Apply(s, e).log[|s.log|].body.RunStarted?
  {
  }

  lemma StartKeeps(c: Config, s: State, i: Input, base: nat, m: nat)
    requires StoreInv(s) && c.durable && CountedFrom(s, base, m) && s.live.phase.Idle?
    requires Undisturbed(Apply(s, PlanIdle(c, s, i)).log, |s.log|, base == 0)
    ensures CountedFrom(Apply(s, PlanIdle(c, s, i)), base, m)
  {
    LastCheckpointIsLast(s, s.cps);
    StartLogs(c, s, i);
  }

  lemma LoopKeeps(c: Config, s: State, i: Input, base: nat, m: nat)
    requires CountedFrom(s, base, m) && InLoop(s.live.phase) && !i.Crash?
    ensures CountedFrom(Step(c, s, i), base, m)
  {
  }

  lemma EndKeeps(c: Config, s: State, i: Input, base: nat, m: nat)
    requires CountedFrom(s, base, m) && (s.live.phase.Finish? || s.live.phase.TerminalCheckpoint?) && !i.Crash?
    requires Undisturbed(Step(c, s, i).log, |s.log|, base == 0)
    ensures CountedFrom(Step(c, s, i), base, m)
  {
    var t := Step(c, s, i);
    if |t.log| > |s.log| { assert t.log[|s.log|].body.TerminalResult?; }
  }

  lemma StepKeepsCount(c: Config, s: State, i: Input, base: nat, m: nat)
    requires StoreInv(s) && c.durable && CountedFrom(s, base, m)
    requires Undisturbed(Step(c, s, i).log, |s.log|, base == 0)
    ensures CountedFrom(Step(c, s, i), base, m)
  {
    if i.Crash? {
    } else if s.live.phase.Idle? {
      StartKeeps(c, s, i, base, m);
    } else if InLoop(s.live.phase) {
      LoopKeeps(c, s, i, base, m);
    } else {
      EndKeeps(c, s, i, base, m);
    }
  }

  lemma StepKeepsLog(c: Config, s: State, i: Input)
    ensures s.log <= Step(c, s, i).log
  {
  }

  lemma {:induction false} CountLasts(c: Config, inputs: seq<Input>, more: seq<Input>, from: nat, base: nat, m: nat)
    requires c.durable && CountedFrom(Run(c, inputs), base, m) && from <= |Run(c, inputs).log|
    requires Undisturbed(Run(c, inputs + more).log, from, base == 0)
    ensures CountedFrom(Run(c, inputs + more), base, m) && from <= |Run(c, inputs + more).log|
    decreases |more|
  {
    if more == [] {
      assert inputs + more == inputs;
    } else {
      var n := |more| - 1;
      var before, s := inputs + more[..n], Run(c, inputs + more[..n]);
      assert inputs + more == before + [more[n]];
      RunSnoc(c, before, more[n]);
      StepKeepsLog(c, s, more[n]);
      CountLasts(c, inputs, more[..n], from, base, m);
      HashInvAlways(c, before);
      StepKeepsCount(c, s, more[n], base, m);
    }
  }

  // ---- what a count is worth ------------------------------------------------------------------------------------

  lemma CountExact(log: Log, base: nat)
    requires base <= |log|
    ensures Replayed(log[base..]) == Replayed(log) <==> base == 0
  {
    FoldGrows(Seed, log);
    FoldGrows(Seed, log[base..]);
    if base == 0 { assert log[0..] == log; }
  }

  /** A resume is seeded with the replay hash exactly when its seed is counted from the start. */
  lemma ResumeExact(c: Config, inputs: seq<Input>)
    requires Run(c, inputs).log != []
    ensures
      var s := Run(c, inputs);
      ResumeFrom(c, s) == Replayed(s.log) <==> ResumeBase(c, s) == 0
  {
    HashInvAlways(c, inputs);
    ResumeSeed(c, Run(c, inputs));
    CountExact(Run(c, inputs).log, ResumeBase(c, Run(c, inputs)));
  }

  /** The checkpoints from the `m`-th on, the next resume and the rolling hash are all right, or all wrong. */
  ghost predicate HashesRight(c: Config, u: State, m: nat, right: bool) {
    && (forall k :: m <= k < |u.cps| ==>
          (u.cps[k].cp.hash == Replayed(Before(u.log, u.cps[k].cp.seqNo)) <==> right))
    && (ResumeFrom(c, u) == Replayed(u.log) <==> right)
    && (InLoop(u.live.phase) ==> (u.live.rolling.hash == Replayed(u.log) <==> right))
  }

  lemma CountedExact(c: Config, inputs: seq<Input>, base: nat, m: nat)
    requires c.durable && CountedFrom(Run(c, inputs), base, m)
    ensures HashesRight(c, Run(c, inputs), m, base == 0)
  {
    var u := Run(c, inputs);
    HashInvAlways(c, inputs);
    forall k | m <= k < |u.cps|
      ensures u.cps[k].cp.hash == Replayed(Before(u.log, u.cps[k].cp.seqNo)) <==> base == 0
    {
      CheckpointExact(c, inputs, k);
    }
    assert WrittenOk(u.log, u.cps[m]);
    LastCheckpointIsLast(u, u.cps);
    ResumeExact(c, inputs);
    if InLoop(u.live.phase) { CountExact(u.log, base); }
  }

  // ---- main results ---------------------------------------------------------------------------------------------

  /** A durable query has just written its seed checkpoint. Until another query is started, and
      until a terminal closes or suspends the run, every checkpoint written since, every resume
      seed and the rolling hash are right exactly when the session was empty before the query,
      whatever calls, crashes and resumes there were. On an empty session no terminal matters. */
  lemma SeedDecides(c: Config, inputs: seq<Input>, prefix: seq<Message>, more: seq<Input>)
    requires c.durable && Run(c, inputs).live.phase.QuerySeed?
    requires
      var n := |Run(c, inputs).log|;
      Undisturbed(Run(c, inputs + [Seeded(prefix)] + more).log, n, n == 2)
    ensures
      var s := Run(c, inputs);
      HashesRight(c, Run(c, inputs + [Seeded(prefix)] + more), |s.cps|, |s.log| == 2)
  {
    var s := Run(c, inputs);
    HashInvAlways(c, inputs);
    QuerySeedHash(s);
    RunSnoc(c, inputs, Seeded(prefix));
    CountLasts(c, inputs + [Seeded(prefix)], more, |s.log|, |s.log| - 2, |s.cps|);
    CountedExact(c, inputs + [Seeded(prefix)] + more, |s.log| - 2, |s.cps|);
  }

  /** After a closing checkpoint all of them are right until another query is started, also when
      the run was suspended and goes on. */
  lemma ClosingDecides(c: Config, inputs: seq<Input>, more: seq<Input>)
    requires c.durable && Run(c, inputs).live.phase.TerminalCheckpoint?
    requires Undisturbed(Run(c, inputs + [Checkpointed(true)] + more).log, |Run(c, inputs).log|, true)
    ensures
      HashesRight(c, Run(c, inputs + [Checkpointed(true)] + more), |Run(c, inputs).cps|, true)
  {
    var s := Run(c, inputs);
    RunSnoc(c, inputs, Checkpointed(true));
    CountLasts(c, inputs + [Checkpointed(true)], more, |s.log|, 0, |s.cps|);
    CountedExact(c, inputs + [Checkpointed(true)] + more, 0, |s.cps|);
  }
}
