/** Spend accounting over trees of sub-agents that share one budget object. */
module SpawnTree {
  import opened Options
  import opened Cost

  datatype Limits = Limits(maxCostUsd: Option<real>, maxTokens: Option<nat>)

  /** How a run ends: with a full result event; on a failed append, whose result event carries
      usage but no USD figure; or by an exception, as when a checkpoint cannot be written, and then
      nothing is reported at all. */
  datatype Ending = Reports | NoUsd | Throws

  /** What an agent run does, in order, up to its end. `priced` says that its own model has a price. */
  datatype Agent = Agent(priced: bool, limits: Limits, actions: seq<Action>, ending: Ending)

  datatype Action =
    | Respond(usage: Usage, cost: Option<real>)
    | Spawn(child: Agent)
    | Refused

  /** The result event of an agent run: its own foreground usage and its tree-aware USD. */
  datatype Reported = Reported(usage: Usage, usd: Option<real>)

  /** The accumulator shared by a whole spawn tree. */
  class TreeBudget {
    var usage: Usage
    var usd: real

    constructor ()
      ensures usage == ZeroUsage() && usd == 0.0
    {
      usage, usd := ZeroUsage(), 0.0;
    }
  }

  // ---- what was spent, read off the tree of what ran ------------------------------------------------------------

  function OwnUsd(priced: bool, actions: seq<Action>): Option<real> {
    if actions == [] then (if priced then Some(0.0) else None)
    else
      var before, a := OwnUsd(priced, actions[..|actions| - 1]), actions[|actions| - 1];
      if a.Respond? then AddCost(before, a.cost) else before
  }

  function OwnUsage(actions: seq<Action>): Usage {
    if actions == [] then ZeroUsage()
    else
      var before, a := OwnUsage(actions[..|actions| - 1]), actions[|actions| - 1];
      if a.Respond? then AddUsage(before, a.usage) else before
  }

  /** Own foreground USD of an agent, 0 when nothing had a price. */
  function OwnSpend(a: Agent): real {
    OwnUsd(a.priced, a.actions).GetOr(0.0)
  }

  /** The own spend of every descendant, each counted once. */
  function DescendantUsd(actions: seq<Action>): real {
    if actions == [] then 0.0
    else DescendantUsd(actions[..|actions| - 1]) + SubtreeUsd(actions[|actions| - 1])
  }

  function SubtreeUsd(a: Action): real {
    match a
    case Spawn(child) => DescendantUsd(child.actions) + OwnSpend(child)
    case _ => 0.0
  }

  /** The part of it that descendants did not report. */
  function LostUsd(actions: seq<Action>): real {
    if actions == [] then 0.0
    else LostUsd(actions[..|actions| - 1]) + SubtreeLost(actions[|actions| - 1])
  }

  function SubtreeLost(a: Action): real {
    match a
    case Spawn(child) => LostUsd(child.actions) + if child.ending.Reports? then 0.0 else OwnSpend(child)
    case _ => 0.0
  }

  function DescendantUsage(actions: seq<Action>): Usage {
    if actions == [] then ZeroUsage()
    else AddUsage(DescendantUsage(actions[..|actions| - 1]), SubtreeUsage(actions[|actions| - 1]))
  }

  function SubtreeUsage(a: Action): Usage {
    match a
    case Spawn(child) => AddUsage(DescendantUsage(child.actions), OwnUsage(child.actions))
    case _ => ZeroUsage()
  }

  function LostUsage(actions: seq<Action>): Usage {
    if actions == [] then ZeroUsage()
    else AddUsage(LostUsage(actions[..|actions| - 1]), SubtreeLostUsage(actions[|actions| - 1]))
  }

  function SubtreeLostUsage(a: Action): Usage {
    match a
    case Spawn(child) =>
      AddUsage(LostUsage(child.actions), if child.ending.Throws? then OwnUsage(child.actions) else ZeroUsage())
    case _ => ZeroUsage()
  }

  /** Providers and price tables charge no negative amounts. */
  predicate NonNegative(actions: seq<Action>) {
    forall k :: 0 <= k < |actions| ==> Fair(actions[k])
  }

  predicate Fair(a: Action) {
    match a
    case Respond(_, cost) => cost.GetOr(0.0) >= 0.0
    case Spawn(child) => NonNegative(child.actions)
    case Refused => true
  }

  /** `ran` is `plan` with some spawns refused, at any depth. */
  predicate RanFrom(plan: seq<Action>, ran: seq<Action>) {
    && |ran| == |plan|
    && forall k :: 0 <= k < |plan| ==> Happened(plan[k], ran[k])
  }

  predicate Happened(plan: Action, ran: Action) {
    match plan
    case Respond(_, _) => ran == plan
    case Refused => ran == plan
    case Spawn(child) =>
      ran.Refused? || (ran.Spawn? && ran.child == child.(actions := ran.child.actions)
                       && RanFrom(child.actions, ran.child.actions))
  }

  // ---- the run --------------------------------------------------------------------------------------------------

  predicate OverBudget(limits: Limits, usage: Usage, usd: real) {
    || (limits.maxCostUsd.Some? && usd >= limits.maxCostUsd.value)
    || (limits.maxTokens.Some? && Tokens(usage) >= limits.maxTokens.value)
  }

  lemma {:induction false} OwnNonNegative(priced: bool, actions: seq<Action>)
    requires NonNegative(actions)
    ensures OwnUsd(priced, actions).GetOr(0.0) >= 0.0
  {
    if actions != [] { OwnNonNegative(priced, actions[..|actions| - 1]); }
  }

  lemma RanNonNegative(plan: seq<Action>, ran: seq<Action>)
    requires NonNegative(plan) && RanFrom(plan, ran)
    ensures NonNegative(ran)
    decreases plan
  {
    forall k | 0 <= k < |ran| ensures Fair(ran[k]) { HappenedFair(plan[k], ran[k]); }
  }

  lemma HappenedFair(plan: Action, ran: Action)
    requires Fair(plan) && Happened(plan, ran)
    ensures Fair(ran)
    decreases plan
  {
    if ran.Spawn? { RanNonNegative(plan.child.actions, ran.child.actions); }
  }

  /** What a budget went from and to, and what was spent and lost on the way. */
  predicate Conserves(before: Usage, after: Usage, spent: Usage, lost: Usage) {
    AddUsage(after, lost) == AddUsage(before, spent)
  }

  lemma ConservesMore(a: Usage, b: Usage, c: Usage, spent: Usage, lost: Usage, moreSpent: Usage, moreLost: Usage)
    requires Conserves(a, b, spent, lost) && Conserves(b, c, moreSpent, moreLost)
    ensures Conserves(a, c, AddUsage(spent, moreSpent), AddUsage(lost, moreLost))
  {
  }

  /** How the sums over a run grow with one more action. */
  lemma AccrueUsd(priced: bool, ran: seq<Action>, done: Action)
    ensures DescendantUsd(ran + [done]) == DescendantUsd(ran) + SubtreeUsd(done)
    ensures LostUsd(ran + [done]) == LostUsd(ran) + SubtreeLost(done)
    ensures OwnUsd(priced, ran + [done])
         == if done.Respond? then AddCost(OwnUsd(priced, ran), done.cost) else OwnUsd(priced, ran)
  {
    assert (ran + [done])[..|ran|] == ran;
  }

  lemma AccrueOwnUsd(priced: bool, ran: seq<Action>, done: Action)
    ensures OwnUsd(priced, ran + [done])
         == if done.Respond? then AddCost(OwnUsd(priced, ran), done.cost) else OwnUsd(priced, ran)
  {
    AccrueUsd(priced, ran, done);
  }

  lemma AccrueUsage(ran: seq<Action>, done: Action)
    ensures DescendantUsage(ran + [done]) == AddUsage(DescendantUsage(ran), SubtreeUsage(done))
    ensures LostUsage(ran + [done]) == AddUsage(LostUsage(ran), SubtreeLostUsage(done))
    ensures OwnUsage(ran + [done])
         == if done.Respond? then AddUsage(OwnUsage(ran), done.usage) else OwnUsage(ran)
  {
    assert (ran + [done])[..|ran|] == ran;
  }

  lemma RanSnoc(plan: seq<Action>, k: nat, ran: seq<Action>, done: Action)
    requires k < |plan| && RanFrom(plan[..k], ran) && Happened(plan[k], done)
    ensures RanFrom(plan[..k + 1], ran + [done])
  {
    forall j | 0 <= j <= k ensures Happened(plan[..k + 1][j], (ran + [done])[j]) {
      if j < k { assert Happened(plan[..k][j], ran[j]); }
    }
  }

  // ---- when a spawn is launched, read off the tree of what ran ---------------------------------------------------

  /** Input and output tokens; cached tokens are among the input tokens. */
  function InOut(u: Usage): int {
    u.inputTokens + u.outputTokens
  }

  /** Strictly below every ceiling that is set. */
  predicate Under(limits: Limits, tokens: int, usd: real) {
    && (limits.maxCostUsd.Some? ==> usd < limits.maxCostUsd.value)
    && (limits.maxTokens.Some? ==> tokens < limits.maxTokens.value)
  }

  /** What a subtree adds to the budget: what its runs used or spent, less what was lost of it. */
  function FoldedTokens(a: Action): int {
    InOut(SubtreeUsage(a)) - InOut(SubtreeLostUsage(a))
  }

  function FoldedUsd(a: Action): real {
    SubtreeUsd(a) - SubtreeLost(a)
  }

  /** The tokens in the budget before action `k`, and the money. */
  function TokensBefore(entry: int, ran: seq<Action>, k: nat): int
    requires k <= |ran|
  {
    if k == 0 then entry else TokensBefore(entry, ran, k - 1) + FoldedTokens(ran[k - 1])
  }

  function UsdBefore(entry: real, ran: seq<Action>, k: nat): real
    requires k <= |ran|
  {
    if k == 0 then entry else UsdBefore(entry, ran, k - 1) + FoldedUsd(ran[k - 1])
  }

  /** Every planned spawn was launched if what was in the budget before it was below the ceilings of
      the agent, and refused if not; and so in every run that was launched. */
  predicate Gated(limits: Limits, plan: seq<Action>, ran: seq<Action>, tokens: int, usd: real)
    decreases ran
  {
    && |plan| == |ran|
    && forall k :: 0 <= k < |ran| ==>
         GatedAt(limits, plan[k], ran[k], TokensBefore(tokens, ran, k), UsdBefore(usd, ran, k))
  }

  predicate GatedAt(limits: Limits, plan: Action, done: Action, tokens: int, usd: real)
    decreases done
  {
    plan.Spawn? ==>
      if Under(limits, tokens, usd)
      then done.Spawn? && Gated(plan.child.limits, plan.child.actions, done.child.actions, tokens, usd)
      else done.Refused?
  }

  /** The money before `k` is a sum over the whole forest `front` that ran before, and so are the tokens. */
  predicate UsdSums(usd: real, ran: seq<Action>, k: nat, front: seq<Action>) {
    k <= |ran| && UsdBefore(usd, ran, k) == usd + DescendantUsd(front) - LostUsd(front)
  }

  predicate TokenSums(tokens: int, ran: seq<Action>, k: nat, front: seq<Action>) {
    k <= |ran| && TokensBefore(tokens, ran, k) == tokens + InOut(DescendantUsage(front)) - InOut(LostUsage(front))
  }

  lemma UsdSumsNext(usd: real, ran: seq<Action>, j: nat, k: nat, front: seq<Action>, done: Action, upTo: seq<Action>)
    requires j + 1 == k <= |ran| && ran[j] == done && upTo == front + [done] && UsdSums(usd, ran, j, front)
    ensures UsdSums(usd, ran, k, upTo)
  {
    assert k - 1 == j;
    AccrueUsd(true, front, done);
  }

  lemma TokenSumsNext(tokens: int, ran: seq<Action>, j: nat, k: nat, front: seq<Action>, done: Action,
                      upTo: seq<Action>)
    requires j + 1 == k <= |ran| && ran[j] == done && upTo == front + [done] && TokenSums(tokens, ran, j, front)
    ensures TokenSums(tokens, ran, k, upTo)
  {
    assert k - 1 == j;
    AccrueUsage(front, done);
  }

  lemma {:induction false} UsdBeforeIsSum(usd: real, ran: seq<Action>, k: nat, upTo: seq<Action>)
    requires k <= |ran| && upTo == ran[..k]
    ensures UsdSums(usd, ran, k, upTo)
    decreases k
  {
    if k > 0 {
      var j: nat := k - 1;
      var front := ran[..j];
      UsdBeforeIsSum(usd, ran, j, front);
      assert upTo == front + [ran[j]];
      UsdSumsNext(usd, ran, j, k, front, ran[j], upTo);
    }
  }

  lemma NothingYet(none: seq<Action>)
    requires none == []
    ensures InOut(DescendantUsage(none)) == 0 && InOut(LostUsage(none)) == 0
  {
  }

  lemma TokenSumsNone(tokens: int, ran: seq<Action>, k: nat, none: seq<Action>, spent: int, lost: int)
    requires k == 0 && spent == InOut(DescendantUsage(none)) == 0 && lost == InOut(LostUsage(none)) == 0
    ensures TokenSums(tokens, ran, k, none)
  {
    assert TokensBefore(tokens, ran, k) == tokens;
  }

  lemma {:induction false} TokensBeforeIsSum(tokens: int, ran: seq<Action>, k: nat, upTo: seq<Action>)
    requires k <= |ran| && upTo == ran[..k]
    ensures TokenSums(tokens, ran, k, upTo)
    decreases k
  {
    if k == 0 {
      NothingYet(upTo);
      TokenSumsNone(tokens, ran, k, upTo, 0, 0);
    } else {
      var j: nat := k - 1;
      var front := ran[..j];
      TokensBeforeIsSum(tokens, ran, j, front);
      assert upTo == front + [ran[j]];
      TokenSumsNext(tokens, ran, j, k, front, ran[j], upTo);
    }
  }

  lemma {:induction false} BeforeStays(tokens: int, usd: real, ran: seq<Action>, done: Action, k: nat)
    requires k <= |ran|
    ensures TokensBefore(tokens, ran + [done], k) == TokensBefore(tokens, ran, k)
    ensures UsdBefore(usd, ran + [done], k) == UsdBefore(usd, ran, k)
    decreases k
  {
    if k > 0 { BeforeStays(tokens, usd, ran, done, k - 1); }
  }

  lemma GatedSnoc(limits: Limits, plan: seq<Action>, k: nat, ran: seq<Action>, done: Action, tokens: int, usd: real)
    requires k == |ran| < |plan| && Gated(limits, plan[..k], ran, tokens, usd)
    requires GatedAt(limits, plan[k], done, TokensBefore(tokens, ran, k), UsdBefore(usd, ran, k))
    ensures Gated(limits, plan[..k + 1], ran + [done], tokens, usd)
  {
    var more, upTo := ran + [done], plan[..k + 1];
    forall j: nat | j < |more|
      ensures GatedAt(limits, upTo[j], more[j], TokensBefore(tokens, more, j), UsdBefore(usd, more, j))
    {
      BeforeStays(tokens, usd, ran, done, j);
      if j < k { assert upTo[j] == plan[..k][j] && more[j] == ran[j]; }
    }
  }

  /** Conserved usage is conserved tokens. */
  lemma TokensConserved(before: Usage, after: Usage, a: Action)
    requires Conserves(before, after, SubtreeUsage(a), SubtreeLostUsage(a))
    ensures InOut(after) == InOut(before) + FoldedTokens(a)
  {
  }

  /** The same, from what a budget held at entry. */
  predicate GatedFrom(limits: Limits, plan: seq<Action>, ran: seq<Action>, entry: Usage, usd: real) {
    forall tokens :: tokens == InOut(entry) ==> Gated(limits, plan, ran, tokens, usd)
  }

  predicate GatedOnce(limits: Limits, plan: Action, done: Action, entry: Usage, usd: real) {
    forall tokens :: tokens == InOut(entry) ==> GatedAt(limits, plan, done, tokens, usd)
  }

  /** What a budget holds when action `k` starts. */
  predicate Holds(usage: Usage, usd: real, ran: seq<Action>, k: nat, entry: Usage, entryUsd: real) {
    k <= |ran| && InOut(usage) == TokensBefore(InOut(entry), ran, k) && usd == UsdBefore(entryUsd, ran, k)
  }

  lemma HoldsNext(ran: seq<Action>, done: Action, k: nat, entry: Usage, entryUsd: real,
                  before: Usage, usd: real, after: Usage, usdAfter: real)
    requires k == |ran| && Holds(before, usd, ran, k, entry, entryUsd)
    requires Conserves(before, after, SubtreeUsage(done), SubtreeLostUsage(done))
    requires usdAfter == usd + SubtreeUsd(done) - SubtreeLost(done)
    ensures Holds(after, usdAfter, ran + [done], k + 1, entry, entryUsd)
  {
    TokensConserved(before, after, done);
    BeforeStays(InOut(entry), entryUsd, ran, done, k);
    assert (ran + [done])[k] == done;
  }

  lemma GatedNext(limits: Limits, plan: seq<Action>, ran: seq<Action>, done: Action, k: nat,
                  entry: Usage, entryUsd: real, before: Usage, usd: real)
    requires k == |ran| < |plan| && GatedFrom(limits, plan[..k], ran, entry, entryUsd)
    requires Holds(before, usd, ran, k, entry, entryUsd) && GatedOnce(limits, plan[k], done, before, usd)
    ensures GatedFrom(limits, plan[..k + 1], ran + [done], entry, entryUsd)
  {
    var upTo, more := plan[..k + 1], ran + [done];
    forall tokens | tokens == InOut(entry) ensures Gated(limits, upTo, more, tokens, entryUsd) {
      assert TokensBefore(tokens, ran, k) == InOut(before);
      GatedSnoc(limits, plan, k, ran, done, tokens, entryUsd);
    }
  }

  /** So a planned spawn was launched exactly when what the budget held at entry, with all that ran before
      it folded in, was below every ceiling that is set. */
  lemma SpawnsExactly(limits: Limits, plan: seq<Action>, ran: seq<Action>, entry: Usage, entryUsd: real,
                      k: nat, before: seq<Action>)
    requires k < |plan| && k < |ran| && GatedFrom(limits, plan, ran, entry, entryUsd)
    requires plan[k].Spawn? && before == ran[..k]
    ensures ran[k].Spawn? || ran[k].Refused?
    ensures ran[k].Spawn? <==>
      Under(limits, InOut(entry) + InOut(DescendantUsage(before)) - InOut(LostUsage(before)),
            entryUsd + DescendantUsd(before) - LostUsd(before))
  {
    SpawnGated(limits, plan, ran, entry, entryUsd, k, InOut(entry));
    TokensBeforeIsSum(InOut(entry), ran, k, before);
    UsdBeforeIsSum(entryUsd, ran, k, before);
    SameUnder(limits, TokensBefore(InOut(entry), ran, k), UsdBefore(entryUsd, ran, k),
              InOut(entry) + InOut(DescendantUsage(before)) - InOut(LostUsage(before)),
              entryUsd + DescendantUsd(before) - LostUsd(before));
  }

  lemma SpawnGated(limits: Limits, plan: seq<Action>, ran: seq<Action>, entry: Usage, entryUsd: real,
                   k: nat, tokens: int)
    requires k < |plan| && k < |ran| && GatedFrom(limits, plan, ran, entry, entryUsd) && plan[k].Spawn?
    requires tokens == InOut(entry)
    ensures ran[k].Spawn? || ran[k].Refused?
    ensures ran[k].Spawn? <==> Under(limits, TokensBefore(tokens, ran, k), UsdBefore(entryUsd, ran, k))
  {
    assert Gated(limits, plan, ran, tokens, entryUsd);
  }

  lemma SameUnder(limits: Limits, tokens: int, usd: real, sameTokens: int, sameUsd: real)
    requires tokens == sameTokens && usd == sameUsd
    ensures Under(limits, tokens, usd) <==> Under(limits, sameTokens, sameUsd)
  {
  }

  /** `spawn_agent`: refuse at or over the budget, else run the child and fold what it reported. A
      child that throws is not folded; what its own descendants folded stays. */
  method SpawnAgent(limits: Limits, child: Agent, budget: TreeBudget) returns (ran: Action)
    requires NonNegative(child.actions) && budget.usd >= 0.0
    modifies budget
    ensures GatedOnce(limits, Spawn(child), ran, old(budget.usage), old(budget.usd))
    ensures Happened(Spawn(child), ran)
    ensures budget.usd == old(budget.usd) + SubtreeUsd(ran) - SubtreeLost(ran)
    ensures Conserves(old(budget.usage), budget.usage, SubtreeUsage(ran), SubtreeLostUsage(ran))
    ensures budget.usd >= old(budget.usd)
    decreases child, 1
  {
    if OverBudget(limits, budget.usage, budget.usd) { return Refused; }
    var reported, actions := RunAgent(child, budget);
    ran := Spawn(child.(actions := actions));
    RanNonNegative(child.actions, actions);
    OwnNonNegative(child.priced, actions);
    if reported.None? { return; }
    var usdAfterChild := budget.usd;
    budget.usage := AddUsage(budget.usage, reported.value.usage);
    if reported.value.usd.Some? {
      var own := reported.value.usd.value - usdAfterChild;
      budget.usd := budget.usd + if own > 0.0 then own else 0.0;
    }
  }

  /** One action of a run: a response costs the budget nothing, a spawn folds its subtree in. */
  method Perform(limits: Limits, action: Action, budget: TreeBudget) returns (done: Action)
    requires Fair(action) && budget.usd >= 0.0
    modifies budget
    ensures Happened(action, done)
    ensures GatedOnce(limits, action, done, old(budget.usage), old(budget.usd))
    ensures budget.usd == old(budget.usd) + SubtreeUsd(done) - SubtreeLost(done)
    ensures Conserves(old(budget.usage), budget.usage, SubtreeUsage(done), SubtreeLostUsage(done))
    ensures budget.usd >= old(budget.usd)
    decreases action, 2
  {
    if action.Spawn? {
      done := SpawnAgent(limits, action.child, budget);
    } else {
      done := action;
    }
  }

  /** Before action `k` of a run: what the budget holds, and the run's own usage and money. */
  predicate Underway(a: Agent, k: nat, ran: seq<Action>, entry: Usage, entryUsd: real,
                     held: Usage, heldUsd: real, own: Usage, ownUsd: Option<real>)
    requires k <= |a.actions|
  {
    && RanFrom(a.actions[..k], ran)
    && GatedFrom(a.limits, a.actions[..k], ran, entry, entryUsd)
    && Holds(held, heldUsd, ran, k, entry, entryUsd)
    && Conserves(entry, held, DescendantUsage(ran), LostUsage(ran))
    && own == OwnUsage(ran) && ownUsd == OwnUsd(a.priced, ran)
  }

  lemma UnderwayNext(a: Agent, k: nat, ran: seq<Action>, done: Action, entry: Usage, entryUsd: real,
                     held: Usage, heldUsd: real, own: Usage, ownUsd: Option<real>, after: Usage, afterUsd: real)
    requires k < |a.actions| && Underway(a, k, ran, entry, entryUsd, held, heldUsd, own, ownUsd)
    requires Happened(a.actions[k], done) && GatedOnce(a.limits, a.actions[k], done, held, heldUsd)
    requires Conserves(held, after, SubtreeUsage(done), SubtreeLostUsage(done))
    requires afterUsd == heldUsd + SubtreeUsd(done) - SubtreeLost(done)
    ensures Underway(a, k + 1, ran + [done], entry, entryUsd, after, afterUsd,
                     if done.Respond? then AddUsage(own, done.usage) else own,
                     if done.Respond? then AddCost(ownUsd, done.cost) else ownUsd)
  {
    AccrueOwnUsd(a.priced, ran, done);
    AccrueUsage(ran, done);
    ConservesMore(entry, held, after, DescendantUsage(ran), LostUsage(ran), SubtreeUsage(done), SubtreeLostUsage(done));
    RanSnoc(a.actions, k, ran, done);
    GatedNext(a.limits, a.actions, ran, done, k, entry, entryUsd, held, heldUsd);
    HoldsNext(ran, done, k, entry, entryUsd, held, heldUsd, after, afterUsd);
  }

  /** One agent run; the budget is shared with every run below it. */
  method RunAgent(a: Agent, budget: TreeBudget) returns (r: Option<Reported>, ran: seq<Action>)
    requires NonNegative(a.actions) && budget.usd >= 0.0
    modifies budget
    ensures RanFrom(a.actions, ran)
    ensures GatedFrom(a.limits, a.actions, ran, old(budget.usage), old(budget.usd))
    ensures budget.usd == old(budget.usd) + DescendantUsd(ran) - LostUsd(ran)
    ensures budget.usd >= old(budget.usd)
    ensures Conserves(old(budget.usage), budget.usage, DescendantUsage(ran), LostUsage(ran))
    ensures r.None? <==> a.ending.Throws?
    ensures r.Some? ==> r.value.usage == OwnUsage(ran)
    ensures r.Some? ==>
      r.value.usd == if a.ending.NoUsd? then None else TreeUsd(OwnUsd(a.priced, ran), budget.usd)
    decreases a, 0
  {
    var usage, foregroundUsd := ZeroUsage(), if a.priced then Some(0.0) else None;
    ran := [];
    for k := 0 to |a.actions|
      invariant budget.usd >= old(budget.usd)
      invariant Underway(a, k, ran, old(budget.usage), old(budget.usd), budget.usage, budget.usd, usage, foregroundUsd)
    {
      assert Fair(a.actions[k]);
      ghost var held, heldUsd, own, ownUsd := budget.usage, budget.usd, usage, foregroundUsd;
      var done := Perform(a.limits, a.actions[k], budget);
      if done.Respond? {
        usage := AddUsage(usage, done.usage);
        foregroundUsd := AddCost(foregroundUsd, done.cost);
      }
      UnderwayNext(a, k, ran, done, old(budget.usage), old(budget.usd), held, heldUsd, own, ownUsd,
                   budget.usage, budget.usd);
      ran := ran + [done];
    }
    assert a.actions[..|a.actions|] == a.actions && ran[..|ran|] == ran;
    UsdBeforeIsSum(old(budget.usd), ran, |ran|, ran);
    if a.ending.Throws? { return None, ran; }
    r := Some(Reported(usage, if a.ending.NoUsd? then None else TreeUsd(foregroundUsd, budget.usd)));
  }

  // ---- main results ---------------------------------------------------------------------------------------------

  /** Own spend over the whole tree below and including an agent. */
  function WholeTree(priced: bool, actions: seq<Action>): real {
    OwnUsd(priced, actions).GetOr(0.0) + DescendantUsd(actions)
  }

  /** At any depth, a run without a USD figure or without a result spent no money itself. */
  predicate NoUsdHidden(actions: seq<Action>) {
    forall k :: 0 <= k < |actions| ==> UsdShown(actions[k])
  }

  predicate UsdShown(a: Action) {
    match a
    case Spawn(child) => NoUsdHidden(child.actions) && (child.ending.Reports? || OwnSpend(child) == 0.0)
    case _ => true
  }

  /** At any depth, a run that threw used no tokens itself. */
  predicate NoUsageHidden(actions: seq<Action>) {
    forall k :: 0 <= k < |actions| ==> UsageShown(actions[k])
  }

  predicate UsageShown(a: Action) {
    match a
    case Spawn(child) => NoUsageHidden(child.actions) && (!child.ending.Throws? || Nothing(OwnUsage(child.actions)))
    case _ => true
  }

  lemma {:induction false} LostExactly(actions: seq<Action>)
    requires NonNegative(actions)
    ensures LostUsd(actions) >= 0.0
    ensures LostUsd(actions) == 0.0 <==> NoUsdHidden(actions)
  {
    if actions != [] {
      var n := |actions| - 1;
      LostExactly(actions[..n]);
      SubtreeExactly(actions[n]);
      assert NoUsdHidden(actions) <==> NoUsdHidden(actions[..n]) && UsdShown(actions[n]) by {
        assert forall k :: 0 <= k < n ==> actions[..n][k] == actions[k];
      }
    }
  }

  lemma SubtreeExactly(a: Action)
    requires Fair(a)
    ensures SubtreeLost(a) >= 0.0
    ensures SubtreeLost(a) == 0.0 <==> UsdShown(a)
  {
    if a.Spawn? {
      LostExactly(a.child.actions);
      OwnNonNegative(a.child.priced, a.child.actions);
    }
  }

  predicate Within(u: Usage, v: Usage) {
    u.inputTokens <= v.inputTokens && u.outputTokens <= v.outputTokens && u.cachedInputTokens <= v.cachedInputTokens
  }

  lemma SumWithin(a: Usage, b: Usage)
    ensures Within(a, AddUsage(a, b)) && Within(b, AddUsage(a, b))
  {
  }

  lemma NothingSums(a: Usage, b: Usage)
    requires Nothing(a)
    ensures AddUsage(a, b) == b == AddUsage(b, a)
  {
  }

  lemma EqualSums(a: Usage, b: Usage, c: Usage)
    requires AddUsage(a, b) == c && a == c
    ensures Nothing(b)
  {
  }

  lemma {:induction false} PartOfLost(actions: seq<Action>, k: nat)
    requires k < |actions|
    ensures Within(SubtreeLostUsage(actions[k]), LostUsage(actions))
    decreases |actions|
  {
    var n := |actions| - 1;
    assert actions == actions[..n] + [actions[n]];
    AccrueUsage(actions[..n], actions[n]);
    SumWithin(LostUsage(actions[..n]), SubtreeLostUsage(actions[n]));
    if k < n { PartOfLost(actions[..n], k); }
  }

  lemma {:induction false} ThrownUsageLost(actions: seq<Action>)
    requires !NoUsageHidden(actions)
    ensures !Nothing(LostUsage(actions))
  {
    var k :| 0 <= k < |actions| && !UsageShown(actions[k]);
    ThrownSubtreeLost(actions[k]);
    PartOfLost(actions, k);
  }

  lemma ThrownSubtreeLost(a: Action)
    requires !UsageShown(a)
    ensures !Nothing(SubtreeLostUsage(a))
  {
    var own := if a.child.ending.Throws? then OwnUsage(a.child.actions) else ZeroUsage();
    SumWithin(LostUsage(a.child.actions), own);
    if !NoUsageHidden(a.child.actions) { ThrownUsageLost(a.child.actions); }
  }

  lemma {:induction false} ShownUsageKept(actions: seq<Action>)
    requires NoUsageHidden(actions)
    ensures Nothing(LostUsage(actions))
  {
    if actions != [] {
      var n := |actions| - 1;
      ShownUsageKept(actions[..n]);
      ShownSubtreeKept(actions[n]);
      NothingSums(LostUsage(actions[..n]), SubtreeLostUsage(actions[n]));
    }
  }

  lemma ShownSubtreeKept(a: Action)
    requires UsageShown(a)
    ensures Nothing(SubtreeLostUsage(a))
  {
    if a.Spawn? {
      ShownUsageKept(a.child.actions);
      var own := if a.child.ending.Throws? then OwnUsage(a.child.actions) else ZeroUsage();
      NothingSums(LostUsage(a.child.actions), own);
    }
  }

  /** No usage is missing exactly when no run that threw had used any. */
  lemma LostUsageExactly(actions: seq<Action>)
    ensures Nothing(LostUsage(actions)) <==> NoUsageHidden(actions)
  {
    if NoUsageHidden(actions) { ShownUsageKept(actions); } else { ThrownUsageLost(actions); }
  }

  /** The shared budget holds every descendant's own usage, once, exactly when no run that threw had
      used any, and every descendant's own money exactly when no run without a USD figure had spent
      any. The root reports the money of the whole tree under the same condition, if it reports. */
  method RunRoot(a: Agent) returns (r: Option<Reported>, ran: seq<Action>, budget: TreeBudget)
    requires NonNegative(a.actions)
    ensures fresh(budget) && RanFrom(a.actions, ran)
    ensures GatedFrom(a.limits, a.actions, ran, ZeroUsage(), 0.0)
    ensures AddUsage(budget.usage, LostUsage(ran)) == DescendantUsage(ran)
    ensures budget.usd + LostUsd(ran) == DescendantUsd(ran)
    ensures budget.usage == DescendantUsage(ran) <==> NoUsageHidden(ran)
    ensures budget.usd == DescendantUsd(ran) <==> NoUsdHidden(ran)
    ensures r.None? <==> a.ending.Throws?
    ensures r.Some? ==> r.value.usage == OwnUsage(ran) && r.value.usd.GetOr(0.0) <= WholeTree(a.priced, ran)
    ensures r.Some? ==> (r.value.usd.GetOr(0.0) == WholeTree(a.priced, ran)
      <==> if a.ending.Reports? then NoUsdHidden(ran) else WholeTree(a.priced, ran) == 0.0)
  {
    budget := new TreeBudget();
    r, ran := RunAgent(a, budget);
    RanNonNegative(a.actions, ran);
    LostExactly(ran);
    LostUsageExactly(ran);
    if NoUsageHidden(ran) { NothingSums(LostUsage(ran), budget.usage); }
    if budget.usage == DescendantUsage(ran) { EqualSums(budget.usage, LostUsage(ran), DescendantUsage(ran)); }
    OwnNonNegative(a.priced, ran);
  }

  // ---- where the promise stops ----------------------------------------------------------------------------------

  /** A child that is charged for one response and then throws, whatever the response: its tokens
      and its money are in no figure of its parent. */
  method ThrownSpendWitness(respond: Action) returns (r: Option<Reported>, ran: seq<Action>, budget: TreeBudget)
    requires respond.Respond? && respond.cost.Some? && respond.cost.value > 0.0 && !Nothing(respond.usage)
    ensures fresh(budget) && r.Some?
    ensures DescendantUsage(ran) == respond.usage && budget.usage != DescendantUsage(ran)
    ensures DescendantUsd(ran) == respond.cost.value && budget.usd == 0.0
    ensures WholeTree(true, ran) == respond.cost.value && r.value.usd.GetOr(0.0) < respond.cost.value
  {
    var child := Agent(true, Limits(None, None), [respond], Throws);
    var root := Agent(true, Limits(None, None), [Spawn(child)], Reports);
    assert Fair(respond) && NonNegative(child.actions) && Fair(root.actions[0]);
    r, ran, budget := RunRoot(root);
    OnlyRan(child, respond, ran, 0, 0.0);
    OneResponseUsd(child.priced, [], respond);
    NoSpawn([], respond);
    OneResponseUsage([], child, respond);
    ThrownChildUsd([], child, ran[0]);
    ThrownChildUsage([], child, ran[0]);
    assert [] + [ran[0]] == ran && [] + [respond] == child.actions && UsageShown(ran[0]) == NoUsageHidden(ran);
  }

  /** What ran of a plan with one child that gives one response. */
  lemma OnlyRan(child: Agent, respond: Action, ran: seq<Action>, tokens: int, usd: real)
    requires child.actions == [respond] && respond.Respond? && RanFrom([Spawn(child)], ran)
    requires Gated(Limits(None, None), [Spawn(child)], ran, tokens, usd)
    ensures ran == [Spawn(child)]
  {
    var plan := [Spawn(child)];
    assert plan[0].Spawn? && Happened(plan[0], ran[0]) && Under(Limits(None, None), tokens, usd);
    SameResponses(child.actions, ran[0].child.actions, respond);
  }

  lemma SameResponses(plan: seq<Action>, ran: seq<Action>, respond: Action)
    requires plan == [respond] && respond.Respond? && RanFrom(plan, ran)
    ensures ran == plan
  {
    assert Happened(plan[0], ran[0]);
  }

  lemma OneResponseUsd(priced: bool, none: seq<Action>, respond: Action)
    requires none == [] && priced && respond.Respond? && respond.cost.Some?
    ensures OwnUsd(priced, none + [respond]) == respond.cost
  {
    AccrueUsd(priced, none, respond);
    FirstCost(OwnUsd(priced, none), respond.cost);
  }

  lemma FirstCost(own: Option<real>, cost: Option<real>)
    requires own == Some(0.0) && cost.Some?
    ensures AddCost(own, cost) == cost
  {
  }

  lemma NoSpawn(none: seq<Action>, respond: Action)
    requires none == [] && respond.Respond?
    ensures DescendantUsd(none + [respond]) == 0.0 && LostUsd(none + [respond]) == 0.0
  {
    AccrueUsd(true, none, respond);
  }

  lemma OneResponseUsage(none: seq<Action>, a: Agent, respond: Action)
    requires none == [] && a.actions == none + [respond] && respond.Respond?
    ensures OwnUsage(a.actions) == respond.usage
    ensures Nothing(DescendantUsage(a.actions)) && Nothing(LostUsage(a.actions))
  {
    AccrueUsage(none, respond);
    NothingSums(OwnUsage(none), respond.usage);
  }

  lemma ThrownChildUsd(none: seq<Action>, child: Agent, a: Action)
    requires none == [] && a.Spawn? && a.child == child && child.ending.Throws?
    requires DescendantUsd(child.actions) == 0.0 && LostUsd(child.actions) == 0.0
    ensures DescendantUsd(none + [a]) == LostUsd(none + [a]) == OwnSpend(child)
    ensures OwnUsd(true, none + [a]) == Some(0.0)
  {
    AccrueUsd(true, none, a);
  }

  lemma ThrownChildUsage(none: seq<Action>, child: Agent, a: Action)
    requires none == [] && a.Spawn? && a.child == child && child.ending.Throws?
    requires Nothing(DescendantUsage(child.actions)) && Nothing(LostUsage(child.actions))
    ensures DescendantUsage(none + [a]) == OwnUsage(child.actions)
  {
    AccrueUsage(none, a);
    NothingSums(DescendantUsage(child.actions), OwnUsage(child.actions));
    NothingSums(DescendantUsage(none), SubtreeUsage(a));
  }
}
