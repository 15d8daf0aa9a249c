/** Token and USD accounting, and the ceilings that are checked around every model call.
    USD amounts are exact reals: floating-point rounding is not modelled. */
module Cost {
  import opened Options

  /** An absent `cachedInputTokens` counts as 0, as it does wherever the source reads it. */
  datatype Usage = Usage(inputTokens: nat, outputTokens: nat, cachedInputTokens: nat)

  predicate Nothing(u: Usage) {
    u.inputTokens == 0 && u.outputTokens == 0 && u.cachedInputTokens == 0
  }

  function ZeroUsage(): Usage {
    Usage(0, 0, 0)
  }

  /** Described by its parts and not built from them, so that sums of constants are not evaluated in proofs. */
  function AddUsage(a: Usage, b: Usage): (u: Usage)
    ensures u.inputTokens == a.inputTokens + b.inputTokens
    ensures u.outputTokens == a.outputTokens + b.outputTokens
    ensures u.cachedInputTokens == a.cachedInputTokens + b.cachedInputTokens
  {
    assert Usage(a.inputTokens + b.inputTokens, a.outputTokens + b.outputTokens,
                 a.cachedInputTokens + b.cachedInputTokens).inputTokens == a.inputTokens + b.inputTokens;
    var u: Usage :|
      && u.inputTokens == a.inputTokens + b.inputTokens
      && u.outputTokens == a.outputTokens + b.outputTokens
      && u.cachedInputTokens == a.cachedInputTokens + b.cachedInputTokens;
    u
  }

  lemma UsageSums(a: Usage, b: Usage, c: Usage)
    ensures AddUsage(AddUsage(a, b), c) == AddUsage(a, AddUsage(b, c))
    ensures AddUsage(a, ZeroUsage()) == a == AddUsage(ZeroUsage(), a)
  {
  }

  function Tokens(u: Usage): nat {
    u.inputTokens + u.outputTokens
  }

  /** USD per million tokens. */
  datatype Price = Price(input: real, output: real, cachedInput: Option<real>)

  type PriceTable = map<string, Price>

  /** The table has a price for the model; an empty id is no model. */
  predicate HasPrice(prices: PriceTable, modelId: Option<string>) {
    modelId.Some? && modelId.value != "" && modelId.value in prices
  }

  function UsdFor(u: Usage, prices: PriceTable, modelId: Option<string>): Option<real> {
    if modelId.None? || modelId.value == "" || modelId.value !in prices then None
    else
      var p := prices[modelId.value];
      var cached := if u.cachedInputTokens < u.inputTokens then u.cachedInputTokens else u.inputTokens;
      var uncached := u.inputTokens - cached;
      Some(Bill(uncached, cached, u.outputTokens, p))
  }

  function Bill(uncached: nat, cached: nat, output: nat, p: Price): real {
    (uncached as real * p.input + cached as real * p.cachedInput.GetOr(p.input) + output as real * p.output) / 1000000.0
  }

  /** The cost charged for one response: the larger of a valid provider figure and the table figure. */
  function CallUsd(provider: Option<real>, table: Option<real>): Option<real> {
    if provider.None? || provider.value < 0.0 then table
    else if table.Some? && table.value > provider.value then table
    else provider
  }

  /** Foreground spend after a response; a response of unknown cost leaves it unchanged. */
  function AddCost(own: Option<real>, call: Option<real>): Option<real> {
    if call.None? then own else Some(own.GetOr(0.0) + call.value)
  }

  /** Own spend plus the spend of the sub-agents, as reported and as weighed by the ceilings. */
  function TreeUsd(own: Option<real>, childrenUsd: real): Option<real> {
    if own.Some? then Some(own.value + childrenUsd)
    else if childrenUsd > 0.0 then Some(childrenUsd)
    else None
  }

  datatype Policy = Policy(
    maxCostUsd: Option<real>, maxTokens: Option<nat>, maxWallClockMs: Option<nat>, maxTurns: nat)

  datatype Subtype =
    | Success | MaxCost | MaxTokens | MaxWallClock | MaxTurns
    | Aborted | Suspended | Guardrail | Error

  function PreflightAbort(policy: Policy, tokens: nat, turn: nat, elapsedMs: nat, usd: Option<real>): Option<Subtype> {
    if policy.maxCostUsd.Some? && usd.Some? && usd.value >= policy.maxCostUsd.value then Some(MaxCost)
    else if policy.maxTokens.Some? && tokens >= policy.maxTokens.value then Some(MaxTokens)
    else if policy.maxWallClockMs.Some? && elapsedMs >= policy.maxWallClockMs.value then Some(MaxWallClock)
    else if turn >= policy.maxTurns then Some(MaxTurns)
    else None
  }

  /** Strictly under every token, USD and turn ceiling. */
  predicate Under(policy: Policy, tokens: nat, turn: nat, usd: Option<real>) {
    && (policy.maxCostUsd.Some? && usd.Some? ==> usd.value < policy.maxCostUsd.value)
    && (policy.maxTokens.Some? ==> tokens < policy.maxTokens.value)
    && turn < policy.maxTurns
  }

  // ---- what a response costs --------------------------------------------------------------------------------------

  /** Input tokens that were read from the cache; more of them than input tokens cannot be. */
  function Cached(u: Usage): nat {
    if u.cachedInputTokens <= u.inputTokens then u.cachedInputTokens else u.inputTokens
  }

  /** Each token costs a millionth of its rate. */
  function Dollars(uncached: nat, cached: nat, output: nat, p: Price): real {
    uncached as real * (p.input / 1000000.0)
    + cached as real * ((if p.cachedInput.Some? then p.cachedInput.value else p.input) / 1000000.0)
    + output as real * (p.output / 1000000.0)
  }

  lemma Millionth(tokens: real, rate: real)
    ensures tokens * rate / 1000000.0 == tokens * (rate / 1000000.0)
  {
    var each := rate / 1000000.0;
    assert rate == each * 1000000.0;
    Regroup(tokens, each, 1000000.0);
  }

  lemma Regroup(a: real, b: real, c: real)
    ensures a * (b * c) == (a * b) * c
  {
  }

  lemma Millionths(x: real, y: real, z: real)
    ensures (x + y + z) / 1000000.0 == x / 1000000.0 + y / 1000000.0 + z / 1000000.0
  {
  }

  lemma Scaled(a: real, x: real, b: real, y: real, c: real, z: real)
    ensures (a * x + b * y + c * z) / 1000000.0
         == a * (x / 1000000.0) + b * (y / 1000000.0) + c * (z / 1000000.0)
  {
    Millionth(a, x);
    Millionth(b, y);
    Millionth(c, z);
    Millionths(a * x, b * y, c * z);
  }

  lemma Billed(uncached: nat, cached: nat, output: nat, p: Price)
    ensures Dollars(uncached, cached, output, p) == Bill(uncached, cached, output, p)
  {
    Scaled(uncached as real, p.input, cached as real, p.cachedInput.GetOr(p.input), output as real, p.output);
  }

  /** There is a figure exactly when the model has a price, and then it is tokens times rates; cached
      tokens beyond the input tokens count as input tokens only. */
  lemma TokensTimesRates(u: Usage, prices: PriceTable, modelId: Option<string>)
    ensures UsdFor(u, prices, modelId).Some? <==> HasPrice(prices, modelId)
    ensures HasPrice(prices, modelId) ==>
      UsdFor(u, prices, modelId)
        == Some(Dollars(u.inputTokens - Cached(u), Cached(u), u.outputTokens, prices[modelId.value]))
  {
    if HasPrice(prices, modelId) {
      Billed(u.inputTokens - Cached(u), Cached(u), u.outputTokens, prices[modelId.value]);
    }
  }

  lemma AMillion(rate: real)
    ensures (1000000 as real) * (rate / 1000000.0) == rate && (0 as real) * (rate / 1000000.0) == 0.0
  {
    assert (1000000 as real) == 1000000.0;
  }

  lemma MillionDollars(p: Price)
    ensures Dollars(1000000, 0, 0, p) == p.input && Dollars(0, 0, 1000000, p) == p.output
    ensures Dollars(0, 1000000, 0, p) == if p.cachedInput.Some? then p.cachedInput.value else p.input
  {
    AMillion(p.input);
    AMillion(p.output);
    AMillion(if p.cachedInput.Some? then p.cachedInput.value else p.input);
  }

  /** A million tokens of one class cost the rate of that class. */
  lemma RatePerMillion(prices: PriceTable, id: string)
    requires id != "" && id in prices
    ensures
      var p, model := prices[id], Some(id);
      && UsdFor(Usage(1000000, 0, 0), prices, model) == Some(p.input)
      && UsdFor(Usage(0, 1000000, 0), prices, model) == Some(p.output)
      && UsdFor(Usage(1000000, 0, 1000000), prices, model)
           == Some(if p.cachedInput.Some? then p.cachedInput.value else p.input)
  {
    TokensTimesRates(Usage(1000000, 0, 0), prices, Some(id));
    TokensTimesRates(Usage(0, 1000000, 0), prices, Some(id));
    TokensTimesRates(Usage(1000000, 0, 1000000), prices, Some(id));
    MillionDollars(prices[id]);
  }

  lemma Distribute(m: real, n: real, price: real)
    ensures (m + n) * price == m * price + n * price
  {
  }

  lemma SumTimes(m: nat, n: nat, price: real)
    ensures (m + n) as real * price == m as real * price + n as real * price
  {
    assert (m + n) as real == m as real + n as real;
    Distribute(m as real, n as real, price);
  }

  lemma DollarsAdd(a: nat, b: nat, c: nat, x: nat, y: nat, z: nat, p: Price)
    ensures Dollars(a + x, b + y, c + z, p) == Dollars(a, b, c, p) + Dollars(x, y, z, p)
  {
    SumTimes(a, x, p.input / 1000000.0);
    SumTimes(b, y, (if p.cachedInput.Some? then p.cachedInput.value else p.input) / 1000000.0);
    SumTimes(c, z, p.output / 1000000.0);
  }

  /** Costs add up in each class of tokens. */
  lemma CostAdds(u: Usage, v: Usage, prices: PriceTable, id: string)
    requires id != "" && id in prices && u.cachedInputTokens <= u.inputTokens && v.cachedInputTokens <= v.inputTokens
    ensures
      var a, b := UsdFor(u, prices, Some(id)), UsdFor(v, prices, Some(id));
      a.Some? && b.Some? && UsdFor(AddUsage(u, v), prices, Some(id)) == Some(a.value + b.value)
  {
    var p, w := prices[id], AddUsage(u, v);
    TokensTimesRates(u, prices, Some(id));
    TokensTimesRates(v, prices, Some(id));
    TokensTimesRates(w, prices, Some(id));
    assert Cached(w) == Cached(u) + Cached(v);
    DollarsAdd(u.inputTokens - Cached(u), Cached(u), u.outputTokens,
               v.inputTokens - Cached(v), Cached(v), v.outputTokens, p);
  }

  /** What is charged is the largest of the valid figures, and nothing without one. */
  lemma CallCosts(provider: Option<real>, table: Option<real>)
    ensures
      var r, valid := CallUsd(provider, table), provider.Some? && provider.value >= 0.0;
      && (r.None? <==> !valid && table.None?)
      && (r.Some? ==> (valid && r == provider) || r == table)
      && (valid ==> r.value >= provider.value)
      && (table.Some? ==> r.value >= table.value)
  {
  }

  // ---- which ceiling stops a run ----------------------------------------------------------------------------------

  /** The ceiling is set, and reached by these figures. */
  predicate Reached(policy: Policy, s: Subtype, tokens: nat, turn: nat, elapsedMs: nat, usd: Option<real>) {
    match s
    case MaxCost => policy.maxCostUsd.Some? && usd.Some? && policy.maxCostUsd.value <= usd.value
    case MaxTokens => policy.maxTokens.Some? && policy.maxTokens.value <= tokens
    case MaxWallClock => policy.maxWallClockMs.Some? && policy.maxWallClockMs.value <= elapsedMs
    case MaxTurns => policy.maxTurns <= turn
    case _ => false
  }

  const CEILINGS: seq<Subtype> := [MaxCost, MaxTokens, MaxWallClock, MaxTurns]

  /** `stop` is the first ceiling in the documented order that is reached. */
  ghost predicate StopsAt(policy: Policy, stop: Option<Subtype>,
                          tokens: nat, turn: nat, elapsedMs: nat, usd: Option<real>)
  {
    match stop
    case None => forall k :: 0 <= k < |CEILINGS| ==> !Reached(policy, CEILINGS[k], tokens, turn, elapsedMs, usd)
    case Some(s) =>
      exists k :: 0 <= k < |CEILINGS| && CEILINGS[k] == s && Reached(policy, s, tokens, turn, elapsedMs, usd)
        && forall j :: 0 <= j < k ==> !Reached(policy, CEILINGS[j], tokens, turn, elapsedMs, usd)
  }

  lemma PreflightStops(policy: Policy, tokens: nat, turn: nat, elapsedMs: nat, usd: Option<real>)
    ensures StopsAt(policy, PreflightAbort(policy, tokens, turn, elapsedMs, usd), tokens, turn, elapsedMs, usd)
  {
    assert CEILINGS[0] == MaxCost && CEILINGS[1] == MaxTokens && CEILINGS[2] == MaxWallClock && CEILINGS[3] == MaxTurns;
    var stop := PreflightAbort(policy, tokens, turn, elapsedMs, usd);
    if stop.Some? {
      var k := match stop.value case MaxCost => 0 case MaxTokens => 1 case MaxWallClock => 2 case _ => 3;
      assert CEILINGS[k] == stop.value && Reached(policy, stop.value, tokens, turn, elapsedMs, usd);
    }
  }
}
