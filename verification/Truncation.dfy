/** The arithmetic of first-in-first-out truncation: which messages survive, from their sizes alone.
    `may` says which messages may be dropped; estimates are quarters, rounded up. */
module Truncation {

  /** About four characters a token, rounded up. */
  function Quarter(chars: nat): (tokens: nat)
    ensures chars <= 4 * tokens < chars + 4
  {
    (chars + 3) / 4
  }

  /** A message size, and whether the message may be dropped. */
  datatype Item = Item(size: nat, may: bool)

  /** The characters from an index on. */
  function Rest(items: seq<Item>, i: nat): nat
    requires i <= |items|
    decreases |items| - i
  {
    if i == |items| then 0 else items[i].size + Rest(items, i + 1)
  }

  /** The budget guard for what survived and the rest, estimated apart. */
  predicate Fits(items: seq<Item>, max: nat, kept: nat, i: nat)
    requires i <= |items|
  {
    Quarter(kept) + Quarter(Rest(items, i)) <= max
  }

  /** The characters that survived when the loop reaches `i`. */
  function Kept(items: seq<Item>, max: nat, i: nat): nat
    requires i <= |items|
  {
    if i == 0 then 0
    else
      var kept := Kept(items, max, i - 1);
      if Fits(items, max, kept, i - 1) || !items[i - 1].may then kept + items[i - 1].size else kept
  }

  /** Whether the guard holds when the loop reaches `i`. */
  predicate Guard(items: seq<Item>, max: nat, i: nat)
    requires i <= |items|
  {
    Fits(items, max, Kept(items, max, i), i)
  }

  predicate Survives(items: seq<Item>, max: nat, i: nat)
    requires i < |items|
  {
    Guard(items, max, i) || !items[i].may
  }

  // ---- sums, and what is left of a list -------------------------------------------------------------------------

  function Sum(sizes: seq<nat>): nat {
    if sizes == [] then 0 else Sum(sizes[..|sizes| - 1]) + sizes[|sizes| - 1]
  }

  lemma SumSnoc(sizes: seq<nat>, n: nat)
    ensures Sum(sizes + [n]) == Sum(sizes) + n
  {
    assert (sizes + [n])[..|sizes|] == sizes;
  }

  lemma {:induction false} SumCons(n: nat, sizes: seq<nat>)
    ensures Sum([n] + sizes) == n + Sum(sizes)
    decreases |sizes|
  {
    if sizes == [] {
      assert [n] + sizes == sizes + [n];
      SumSnoc(sizes, n);
    } else {
      var front, last := sizes[..|sizes| - 1], sizes[|sizes| - 1];
      SumCons(n, front);
      assert [n] + sizes == ([n] + front) + [last] && sizes == front + [last];
      SumSnoc([n] + front, last);
      SumSnoc(front, last);
    }
  }

  /** Which messages survive. */
  function Alive(items: seq<Item>, max: nat): (alive: seq<bool>)
    ensures |alive| == |items| && forall k :: 0 <= k < |items| ==> (alive[k] <==> Survives(items, max, k))
  {
    seq(|items|, k requires 0 <= k < |items| => Survives(items, max, k))
  }

  /** The elements before `i` that are alive. */
  function Select<T>(xs: seq<T>, alive: seq<bool>, i: nat): seq<T>
    requires i <= |xs| == |alive|
  {
    if i == 0 then []
    else if alive[i - 1] then Select(xs, alive, i - 1) + [xs[i - 1]]
    else Select(xs, alive, i - 1)
  }

  /** And their indices. */
  function Indices(alive: seq<bool>, i: nat): seq<nat>
    requires i <= |alive|
  {
    if i == 0 then [] else if alive[i - 1] then Indices(alive, i - 1) + [i - 1] else Indices(alive, i - 1)
  }

  predicate InRange(n: nat, ks: seq<nat>) {
    forall j :: 0 <= j < |ks| ==> ks[j] < n
  }

  ghost predicate StrictlyIncreasing(ks: seq<nat>) {
    forall i, j :: 0 <= i < j < |ks| ==> ks[i] < ks[j]
  }

  /** The elements at the given indices. */
  function Pick<T>(xs: seq<T>, ks: seq<nat>): seq<T>
    requires InRange(|xs|, ks)
  {
    if ks == [] then [] else Pick(xs, ks[..|ks| - 1]) + [xs[ks[|ks| - 1]]]
  }

  lemma {:induction false} IndicesRight(alive: seq<bool>, i: nat)
    requires i <= |alive|
    ensures
      var ks := Indices(alive, i);
      && InRange(i, ks) && StrictlyIncreasing(ks) && forall j :: j in ks <==> 0 <= j < i && alive[j]
    decreases i
  {
    if i > 0 {
      var j: nat := i - 1;
      IndicesRight(alive, j);
      var ks := Indices(alive, j);
      assert forall k :: k in ks + [j] <==> k in ks || k == j;
    }
  }

  lemma {:induction false} SelectIsPick<T>(xs: seq<T>, alive: seq<bool>, i: nat)
    requires i <= |xs| == |alive|
    ensures InRange(|xs|, Indices(alive, i)) && Select(xs, alive, i) == Pick(xs, Indices(alive, i))
    decreases i
  {
    IndicesRight(alive, i);
    if i > 0 {
      var j: nat := i - 1;
      SelectIsPick(xs, alive, j);
      if alive[j] { assert Indices(alive, i)[..|Indices(alive, j)|] == Indices(alive, j); }
    }
  }

  lemma {:induction false} PickAt<T>(xs: seq<T>, ks: seq<nat>)
    requires InRange(|xs|, ks)
    ensures |Pick(xs, ks)| == |ks| && forall j :: 0 <= j < |ks| ==> Pick(xs, ks)[j] == xs[ks[j]]
    decreases |ks|
  {
    if ks != [] { PickAt(xs, ks[..|ks| - 1]); }
  }

  // ---- the total only shrinks -----------------------------------------------------------------------------------

  /** The characters that survived so far and those still to come. */
  function Total(items: seq<Item>, max: nat, i: nat): nat
    requires i <= |items|
  {
    Kept(items, max, i) + Rest(items, i)
  }

  lemma {:induction false} TotalDescends(items: seq<Item>, max: nat, g: nat, i: nat)
    requires g <= i <= |items|
    ensures Total(items, max, i) <= Total(items, max, g)
    decreases i
  {
    if g < i { TotalDescends(items, max, g, i - 1); }
  }

  /** Once the guard has held, dropping goes on only to shrink: the total stays within the budget
      even where the two rounded estimates later exceed it by one. */
  lemma FitsFromThenOn(items: seq<Item>, max: nat, g: nat, i: nat)
    requires g <= i <= |items| && Guard(items, max, g)
    ensures Total(items, max, i) <= 4 * max
  {
    TotalDescends(items, max, g, i);
  }

  /** With one token to spare the guard keeps holding: two roundings add no more than that. */
  lemma SlackKeepsGuard(items: seq<Item>, max: nat, g: nat, i: nat)
    requires g <= i <= |items| && max > 0 && Fits(items, max - 1, Kept(items, max, g), g)
    ensures Guard(items, max, i)
  {
    TotalDescends(items, max, g, i);
  }

  // ---- from the part that may not be dropped --------------------------------------------------------------------

  /** The characters before `i` that may not be dropped. */
  function Held(items: seq<Item>, i: nat): nat
    requires i <= |items|
  {
    if i == 0 then 0 else Held(items, i - 1) + if items[i - 1].may then 0 else items[i - 1].size
  }

  /** The first index, if any, where the held part and the rest fit; a caller can compute it without
      running the loop. */
  predicate FirstFit(items: seq<Item>, max: nat, g: nat) {
    && g <= |items| && (g < |items| ==> Fits(items, max, Held(items, g), g))
    && forall k :: 0 <= k < g ==> !Fits(items, max, Held(items, k), k)
  }

  /** There is such an index: the search from `g` on, when nothing before it fits. */
  function FindFirstFit(items: seq<Item>, max: nat, g: nat): (found: nat)
    requires g <= |items| && forall k :: 0 <= k < g ==> !Fits(items, max, Held(items, k), k)
    ensures FirstFit(items, max, found)
    decreases |items| - g
  {
    if g == |items| || Fits(items, max, Held(items, g), g) then g else FindFirstFit(items, max, g + 1)
  }

  /** As long as nothing fitted, exactly the held messages survived. */
  lemma {:induction false} OnlyHeld(items: seq<Item>, max: nat, g: nat, i: nat)
    requires FirstFit(items, max, g) && i <= g
    ensures Kept(items, max, i) == Held(items, i)
    decreases i
  {
    if i > 0 { OnlyHeld(items, max, g, i - 1); }
  }

  /** So the guard first holds where the held part and the rest first fit. */
  lemma GuardStartsAt(items: seq<Item>, max: nat, g: nat, i: nat)
    requires FirstFit(items, max, g) && i <= g && i < |items|
    ensures Guard(items, max, i) <==> i == g
  {
    OnlyHeld(items, max, g, i);
  }

  /** And with a token to spare there, it holds exactly from there on. */
  lemma GuardFrom(items: seq<Item>, max: nat, g: nat, i: nat)
    requires FirstFit(items, max, g) && i < |items|
    requires g == |items| || (max > 0 && Fits(items, max - 1, Held(items, g), g))
    ensures Guard(items, max, i) <==> g <= i
  {
    if i <= g {
      GuardStartsAt(items, max, g, i);
    } else {
      OnlyHeld(items, max, g, g);
      SlackKeepsGuard(items, max, g, i);
    }
  }

  lemma {:induction false} HeldAtLeast(items: seq<Item>, i: nat, j: nat)
    requires i <= j <= |items|
    ensures Held(items, j) + Rest(items, j) <= Held(items, i) + Rest(items, i)
    decreases j
  {
    if i < j { HeldAtLeast(items, i, j - 1); }
  }

  /** A held part that alone exceeds the budget: nothing ever fits. */
  lemma HeldTooLarge(items: seq<Item>, max: nat)
    requires Quarter(Held(items, |items|)) > max
    ensures FirstFit(items, max, |items|)
  {
    forall k | 0 <= k < |items| ensures !Fits(items, max, Held(items, k), k) { HeldAtLeast(items, k, |items|); }
  }
}
