/** The model window and the set of loaded tools over every run of the protocol. */
module RunWindow {
  import opened Options
  import opened Cost
  import opened Events
  import opened RunMachine
  import opened EventLaws
  import Picking

  /** Phases of `runLoop` in which the window is about to be used again. */
  predicate InTurn(p: Phase) {
    || p.Redispatch? || p.Appending? || p.Head? || p.Preflight? || p.Calling? || p.Replied?
    || p.PostCheck? || p.Dispatching?
  }

  /** The window without a reminder: what it was at its base, then the replay of the newer events. */
  function Tail(log: Log, w: Window): seq<Message>
    requires w.at <= |log|
  {
    w.base + ReplayAll(log[w.at..])
  }

  ghost predicate WindowOk(log: Log, p: Phase, w: Window) {
    && w.at <= |log|
    && (w.pristine ==> w.base == w.prefix && w.at == 0)
    && (w.injected ==> p.Calling?)
    && (if w.injected then w.messages != [] && w.messages[..|w.messages| - 1] == Tail(log, w)
        else w.messages == Tail(log, w))
  }

  ghost predicate WindowInv(c: Config, s: State) {
    && (InTurn(s.live.phase) ==> WindowOk(s.log, s.live.phase, s.live.window))
    && (InLoop(s.live.phase) ==> s.live.loaded == LoadedNames(s.log, c.eager))
  }

  lemma AppendReplay(log: Log, e: Event, at: nat)
    requires at <= |log|
    ensures ReplayAll((log + [e])[at..]) == ReplayAll(log[at..]) + Replay(e.body)
  {
    assert (log + [e])[at..] == log[at..] + [e];
    assert (log[at..] + [e])[..|log[at..]|] == log[at..];
  }

  lemma AppendLoaded(log: Log, e: Event, eager: set<string>)
    ensures LoadedNames(log + [e], eager)
         == LoadedNames(log, eager) + if e.body.ToolResult? then LoadedBy(e.body.result) else {}
  {
    assert (log + [e])[..|log|] == log;
  }

  /** The window after a step says nothing new, or exactly what the appended event replays to. */
  predicate Tells(w: Window, v: Window, e: Effect) {
    && !v.injected
    && v == DropInjection(w).(messages := v.messages)
    && v.messages == DropInjection(w).messages + if e.Appends? then Replay(e.event.body) else []
  }

  lemma TailGrows(log: Log, e: Event, w: Window)
    requires w.at <= |log|
    ensures Tail(log + [e], w) == Tail(log, w) + Replay(e.body)
  {
    AppendReplay(log, e, w.at);
  }

  lemma TellingWindow(s: State, e: Effect)
    requires WindowOk(s.log, s.live.phase, s.live.window) && Tells(s.live.window, e.live.window, e)
    ensures WindowOk(Apply(s, e).log, e.live.phase, e.live.window)
  {
    var w, v := s.live.window, e.live.window;
    assert Tail(s.log, v) == Tail(s.log, w) == DropInjection(w).messages;
    if e.Appends? { TailGrows(s.log, e.event, v); }
  }

  lemma TellingKeeps(c: Config, s: State, e: Effect)
    requires WindowInv(c, s) && InLoop(s.live.phase)
    requires InTurn(e.live.phase) ==> InTurn(s.live.phase) && Tells(s.live.window, e.live.window, e)
    requires InLoop(e.live.phase) ==> (e.live.loaded == s.live.loaded
               + if e.Appends? && e.event.body.ToolResult? then LoadedBy(e.event.body.result) else {})
    ensures WindowInv(c, Apply(s, e))
  {
    if e.Appends? { AppendLoaded(s.log, e.event, c.eager); }
    if InTurn(e.live.phase) { TellingWindow(s, e); }
  }

  lemma ResumeKeeps(c: Config, s: State, i: Input)
    requires s.live.phase.Idle? && i.StartResume?
    ensures WindowInv(c, Apply(s, PlanResume(c, s, i)))
  {
    assert s.log[0..] == s.log && s.log[|s.log|..] == [];
    var e := PlanResume(c, s, i);
    if InTurn(e.live.phase) {
      assert e.live.window.messages == e.live.window.base + ReplayAll(s.log[e.live.window.at..]);
    }
  }

  lemma SeededKeeps(c: Config, s: State, i: Input)
    requires s.live.phase.QuerySeed? && i.Seeded?
    ensures WindowInv(c, Apply(s, PlanSeeded(c, s, i)))
  {
    assert s.log[0..] == s.log;
  }

  /** Before the loop is entered there is no window yet. */
  lemma OpeningKeeps(c: Config, s: State, i: Input)
    requires !i.Crash? && !i.Seeded?
    requires s.live.phase.QueryUser? || s.live.phase.QuerySeed? || (s.live.phase.Idle? && !i.StartResume?)
    ensures WindowInv(c, Apply(s, Plan(c, s, i)))
  {
  }

  lemma ToolsKeep(c: Config, s: State, i: Input)
    requires WindowInv(c, s) && !i.Crash?
    requires s.live.phase.Redispatch? || s.live.phase.Dispatching? || s.live.phase.Appending?
    ensures WindowInv(c, Apply(s, Plan(c, s, i)))
  {
    TellingKeeps(c, s, Plan(c, s, i));
  }

  lemma HeadKeeps(c: Config, s: State, i: Input)
    requires WindowInv(c, s) && s.live.phase.Head? && i.AtHead?
    ensures WindowInv(c, Apply(s, PlanHead(s, i)))
  {
    var e := PlanHead(s, i);
    if e.Appends? {
      AppendLoaded(s.log, e.event, c.eager);
      assert (s.log + [e.event])[|s.log| + 1..] == [];
    } else {
      TellingKeeps(c, s, e);
    }
  }

  lemma GateKeeps(c: Config, s: State, i: Input)
    requires WindowInv(c, s) && s.live.phase.Preflight? && i.Gate?
    ensures WindowInv(c, Apply(s, PlanGate(c, s, i)))
  {
    var w := PlanGate(c, s, i).live.window;
    if i.injection.Some? { assert w.messages[..|w.messages| - 1] == s.live.window.messages; }
  }

  lemma CallingKeeps(c: Config, s: State, i: Input)
    requires WindowInv(c, s) && s.live.phase.Calling?
    ensures WindowInv(c, Apply(s, PlanCalling(c, s, i)))
  {
    var e := PlanCalling(c, s, i);
    if e.live.phase.Calling? { assert Apply(s, e) == s; } else { TellingKeeps(c, s, e); }
  }

  lemma AfterKeeps(c: Config, s: State, i: Input)
    requires WindowInv(c, s) && s.live.phase.PostCheck? && i.AfterCall?
    ensures WindowInv(c, Apply(s, PlanAfter(c, s, i)))
  {
    TellingKeeps(c, s, PlanAfter(c, s, i));
  }

  lemma CheckpointKeeps(c: Config, s: State, i: Input)
    requires WindowInv(c, s) && i.Checkpointed?
    requires s.live.phase.Replied? || s.live.phase.SuspendCheckpoint? || s.live.phase.AbortCheckpoint?
    ensures WindowInv(c, Apply(s, PlanCheckpoint(c, s, i)))
  {
    TellingKeeps(c, s, PlanCheckpoint(c, s, i));
  }

  lemma StepKeepsWindow(c: Config, s: State, i: Input)
    requires WindowInv(c, s)
    ensures WindowInv(c, Step(c, s, i))
  {
    if !i.Crash? {
      match s.live.phase
      case Idle =>
        if i.StartResume? { ResumeKeeps(c, s, i); } else if !i.Seeded? { OpeningKeeps(c, s, i); }
      case QueryUser(_) => if !i.Seeded? { OpeningKeeps(c, s, i); }
      case QuerySeed(_, _) => if i.Seeded? { SeededKeeps(c, s, i); } else { OpeningKeeps(c, s, i); }
      case Redispatch(_) => ToolsKeep(c, s, i);
      case Dispatching(_) => ToolsKeep(c, s, i);
      case Appending(_) => ToolsKeep(c, s, i);
      case Head => if i.AtHead? { HeadKeeps(c, s, i); }
      case Preflight => if i.Gate? { GateKeeps(c, s, i); }
      case Calling => CallingKeeps(c, s, i);
      case PostCheck(_) => if i.AfterCall? { AfterKeeps(c, s, i); }
      case Finish(_) =>
      case TerminalCheckpoint(_) =>
      case _ => if i.Checkpointed? { CheckpointKeeps(c, s, i); }
    }
  }

  lemma {:induction false} WindowInvAlways(c: Config, inputs: seq<Input>)
    ensures WindowInv(c, Run(c, inputs))
  {
    if inputs != [] {
      WindowInvAlways(c, inputs[..|inputs| - 1]);
      StepKeepsWindow(c, Run(c, inputs[..|inputs| - 1]), inputs[|inputs| - 1]);
    }
  }

  // ---- main results ---------------------------------------------------------------------------------------------

  /** The messages are a prefix and then the conversation of these events. */
  ghost predicate Follows(messages: seq<Message>, prefix: seq<Message>, log: Log) {
    prefix <= messages && Conversation(log, messages[|prefix|..])
  }

  lemma ReplayFollows(prefix: seq<Message>, log: Log)
    ensures Follows(prefix + ReplayAll(log), prefix, log)
  {
    ReplayIsConversation(log);
    assert (prefix + ReplayAll(log))[|prefix|..] == ReplayAll(log);
  }

  /** Unless it was compacted or rewritten by a guardrail, the window at a loop head is its prefix
      followed by the conversation of the whole event log: each user, assistant and tool result event
      as one message, no reminder of an earlier turn and no audit event. */
  lemma WindowIsReplay(c: Config, inputs: seq<Input>)
    requires
      var s := Run(c, inputs);
      (s.live.phase.Head? || s.live.phase.Preflight?) && s.live.window.pristine
    ensures
      var s := Run(c, inputs);
      && s.live.window.messages == s.live.window.prefix + ReplayAll(s.log)
      && Follows(s.live.window.messages, s.live.window.prefix, s.log)
  {
    WindowInvAlways(c, inputs);
    var s := Run(c, inputs);
    assert s.log[0..] == s.log;
    ReplayFollows(s.live.window.prefix, s.log);
  }

  /** After a compaction or a rewrite the window is what that left, followed by the conversation of
      exactly the events persisted since. */
  lemma WindowSinceRewrite(c: Config, inputs: seq<Input>)
    requires Run(c, inputs).live.phase.Head? || Run(c, inputs).live.phase.Preflight?
    ensures
      var s := Run(c, inputs);
      var w := s.live.window;
      && w.at <= |s.log| && w.messages == w.base + ReplayAll(s.log[w.at..])
      && Follows(w.messages, w.base, s.log[w.at..])
  {
    WindowInvAlways(c, inputs);
    var s := Run(c, inputs);
    ReplayFollows(s.live.window.base, s.log[s.live.window.at..]);
  }

  /** The model sees the replayed window, with at most one reminder, at its end. */
  lemma ModelSeesReplay(c: Config, inputs: seq<Input>)
    requires Run(c, inputs).live.phase.Calling? && Run(c, inputs).live.window.pristine
    ensures
      var s := Run(c, inputs);
      var w := s.live.window;
      var replay := w.prefix + ReplayAll(s.log);
      && replay <= w.messages && |w.messages| <= |replay| + 1
      && Follows(replay, w.prefix, s.log)
  {
    WindowInvAlways(c, inputs);
    var s := Run(c, inputs);
    assert s.log[0..] == s.log;
    ReplayFollows(s.live.window.prefix, s.log);
  }

  /** The incrementally maintained set equals a rescan of the log, also after pending calls were
      dispatched again by a resumed run. */
  lemma LoadedIsRescan(c: Config, inputs: seq<Input>)
    requires InLoop(Run(c, inputs).live.phase)
    ensures Run(c, inputs).live.loaded == LoadedNames(Run(c, inputs).log, c.eager)
  {
    WindowInvAlways(c, inputs);
  }

  lemma {:induction false} LogOnlyGrows(c: Config, inputs: seq<Input>, more: seq<Input>)
    ensures Run(c, inputs).log <= Run(c, inputs + more).log
  {
    if more == [] {
      assert inputs + more == inputs;
    } else {
      var n := |more| - 1;
      LogOnlyGrows(c, inputs, more[..n]);
      RunSnoc(c, inputs + more[..n], more[n]);
      assert inputs + more == inputs + more[..n] + [more[n]];
    }
  }

  lemma {:induction false} LoadedOnlyGrows(a: Log, b: Log, eager: set<string>)
    requires a <= b
    ensures eager <= LoadedNames(a, eager) <= LoadedNames(b, eager)
  {
    if |a| < |b| {
      LoadedOnlyGrows(a, b[..|b| - 1], eager);
    } else if a != [] {
      assert a == b;
      LoadedOnlyGrows(a[..|a| - 1], a[..|a| - 1], eager);
    }
  }

  // ---- the manifest ---------------------------------------------------------------------------------------------

  datatype Schema = Schema(name: string, description: string)

  /** `lazyManifest` behind the threshold test of `buildManifest`. */
  function Manifest(schemas: seq<Schema>, lazy: bool, threshold: nat, eager: set<string>, loaded: set<string>)
      : seq<Schema>
  {
    if lazy && |schemas| > threshold then Filter(schemas, eager + loaded) else schemas
  }

  function Filter(schemas: seq<Schema>, keep: set<string>): seq<Schema> {
    if schemas == [] then []
    else if schemas[0].name in keep then [schemas[0]] + Filter(schemas[1..], keep)
    else Filter(schemas[1..], keep)
  }

  ghost function Named(keep: set<string>): Schema -> bool {
    (s: Schema) => s.name in keep
  }

  lemma {:induction false} FilterSelects(schemas: seq<Schema>, keep: set<string>)
    ensures Picking.Selects(schemas, Filter(schemas, keep), Named(keep), Picking.Same)
  {
    if schemas == [] {
      Picking.SelectsNone<Schema, Schema>(schemas, [], Named(keep), Picking.Same);
    } else {
      var s, rest := schemas[0], schemas[1..];
      FilterSelects(rest, keep);
      Picking.SelectsCons(s, s, rest, Filter(rest, keep), Named(keep), Picking.Same);
      assert schemas == [s] + rest;
    }
  }

  /** At any point of a run the model is shown, in order, exactly the tools that are always loaded or
      that a `load_tool` result named; or all of them, when lazy loading is off or they are few. */
  lemma ManifestExactly(c: Config, inputs: seq<Input>, schemas: seq<Schema>, lazy: bool, threshold: nat)
    requires InLoop(Run(c, inputs).live.phase)
    ensures
      var s := Run(c, inputs);
      var shown := Manifest(schemas, lazy, threshold, c.eager, s.live.loaded);
      if lazy && |schemas| > threshold then
        exists keep: set<string> ::
          && Picking.Selects(schemas, shown, Named(keep), Picking.Same)
          && forall name :: name in keep <==> name in c.eager || Somewhere(s.log, 0, Loads, name)
      else shown == schemas
  {
    LoadedIsRescan(c, inputs);
    var s := Run(c, inputs);
    var keep := c.eager + LoadedNames(s.log, c.eager);
    FilterSelects(schemas, keep);
    forall name ensures name in LoadedNames(s.log, c.eager) <==> name in c.eager || Somewhere(s.log, 0, Loads, name) {
      LoadedAre(s.log, c.eager, name);
    }
  }

  ghost predicate Subsequence(a: seq<Schema>, b: seq<Schema>)
    decreases |b|
  {
    if a == [] then true
    else b != [] && ((a[0] == b[0] && Subsequence(a[1..], b[1..])) || Subsequence(a, b[1..]))
  }

  lemma {:induction false} FilterGrows(schemas: seq<Schema>, keep: set<string>, wider: set<string>)
    requires keep <= wider
    ensures Subsequence(Filter(schemas, keep), Filter(schemas, wider))
  {
    if schemas != [] {
      var s := schemas[0];
      var a, b := Filter(schemas[1..], keep), Filter(schemas[1..], wider);
      FilterGrows(schemas[1..], keep, wider);
      if s.name in keep {
        assert ([s] + a)[1..] == a && ([s] + b)[1..] == b;
      } else if s.name in wider {
        assert ([s] + b)[1..] == b && [] + a == a;
      } else {
        assert [] + a == a && [] + b == b;
      }
    }
  }

  /** While the schema list is unchanged a later manifest, before or after any crash, keeps every
      tool of an earlier one in the same order; and it is the filter by the rescanned log. */
  lemma ManifestOnlyGrows(c: Config, inputs: seq<Input>, more: seq<Input>,
                          schemas: seq<Schema>, lazy: bool, threshold: nat)
    requires InLoop(Run(c, inputs).live.phase) && InLoop(Run(c, inputs + more).live.phase)
    ensures
      var a := Manifest(schemas, lazy, threshold, c.eager, Run(c, inputs).live.loaded);
      var b := Manifest(schemas, lazy, threshold, c.eager, Run(c, inputs + more).live.loaded);
      && Subsequence(a, b)
      && b == Manifest(schemas, lazy, threshold, c.eager, LoadedNames(Run(c, inputs + more).log, c.eager))
  {
    LoadedIsRescan(c, inputs);
    LoadedIsRescan(c, inputs + more);
    LogOnlyGrows(c, inputs, more);
    var a, b := Run(c, inputs).log, Run(c, inputs + more).log;
    LoadedOnlyGrows(a, b, c.eager);
    FilterGrows(schemas, c.eager + LoadedNames(a, c.eager), c.eager + LoadedNames(b, c.eager));
    SubsequenceOfItself(schemas);
  }

  lemma {:induction false} SubsequenceOfItself(s: seq<Schema>)
    ensures Subsequence(s, s)
  {
    if s != [] { SubsequenceOfItself(s[1..]); }
  }

  /** `loadedToolNames`. */
  method LoadedToolNames(events: Log, eager: set<string>) returns (loaded: set<string>)
    ensures loaded == LoadedNames(events, eager)
    ensures forall name :: name in loaded <==> name in eager || Somewhere(events, 0, Loads, name)
  {
    loaded := eager;
    for k := 0 to |events|
      invariant loaded == LoadedNames(events[..k], eager)
    {
      assert events[..k + 1] == events[..k] + [events[k]];
      AppendLoaded(events[..k], events[k], eager);
      var b := events[k].body;
      if b.ToolResult? && b.result.toolName == "load_tool" && b.result.output.loaded.Some? {
        var names := b.result.output.loaded.value;
        var before := loaded;
        for j := 0 to |names|
          invariant loaded == before + set n | 0 <= n < j :: names[n]
        {
          loaded := loaded + {names[j]};
        }
      }
    }
    assert events[..|events|] == events;
    forall name ensures name in LoadedNames(events, eager) <==> name in eager || Somewhere(events, 0, Loads, name) {
      LoadedAre(events, eager, name);
    }
  }
}
