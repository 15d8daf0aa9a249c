/** Selecting from a sequence by position: what is wanted, all of it, and in order. */
module Picking {

  ghost predicate Ascending(ks: seq<nat>) {
    forall i, j :: 0 <= i < j < |ks| ==> ks[i] < ks[j]
  }

  /** At these indices stand wanted elements, and `ys` says what they are. */
  ghost predicate Right<A, B>(xs: seq<A>, ys: seq<B>, wanted: A -> bool, says: (A, B) -> bool, ks: seq<nat>) {
    && |ks| == |ys|
    && forall j :: 0 <= j < |ks| ==> ks[j] < |xs| && wanted(xs[ks[j]]) && says(xs[ks[j]], ys[j])
  }

  /** And nowhere else. */
  ghost predicate Complete<A>(xs: seq<A>, wanted: A -> bool, ks: seq<nat>) {
    forall k :: 0 <= k < |xs| && wanted(xs[k]) ==> k in ks
  }

  /** `ks` are in order exactly the indices of the wanted elements, and `ys` says what stands there. */
  ghost predicate Picks<A, B>(xs: seq<A>, ys: seq<B>, wanted: A -> bool, says: (A, B) -> bool, ks: seq<nat>) {
    Ascending(ks) && Right(xs, ys, wanted, says, ks) && Complete(xs, wanted, ks)
  }

  ghost predicate Selects<A, B>(xs: seq<A>, ys: seq<B>, wanted: A -> bool, says: (A, B) -> bool) {
    exists ks :: Picks(xs, ys, wanted, says, ks)
  }

  predicate Same<A(==)>(x: A, y: A) {
    x == y
  }

  lemma SelectsNone<A, B>(xs: seq<A>, ys: seq<B>, wanted: A -> bool, says: (A, B) -> bool)
    requires xs == [] && ys == []
    ensures Selects(xs, ys, wanted, says)
  {
    assert Picks(xs, ys, wanted, says, []);
  }

  // ---- one more element at the end --------------------------------------------------------------------------------

  lemma CompleteSnoc<A>(xs: seq<A>, x: A, n: nat, wanted: A -> bool, ks: seq<nat>, more: seq<nat>)
    requires Complete(xs, wanted, ks) && n == |xs| && (more == ks + [n] || (more == ks && !wanted(x)))
    ensures Complete(xs + [x], wanted, more)
  {
    var all := xs + [x];
    forall k | 0 <= k < |all| && wanted(all[k]) ensures k in more {
      if k < |xs| { assert all[k] == xs[k]; } else { assert more[|ks|] == k; }
    }
  }

  lemma AscendingSnoc(ks: seq<nat>, n: nat)
    requires Ascending(ks) && forall j :: 0 <= j < |ks| ==> ks[j] < n
    ensures Ascending(ks + [n])
  {
  }

  lemma RightSnoc<A, B>(xs: seq<A>, ys: seq<B>, x: A, y: B, n: nat,
                        wanted: A -> bool, says: (A, B) -> bool, ks: seq<nat>)
    requires Right(xs, ys, wanted, says, ks) && n == |xs|
    ensures Right(xs + [x], ys, wanted, says, ks)
    ensures wanted(x) && says(x, y) ==> Right(xs + [x], ys + [y], wanted, says, ks + [n])
  {
    forall j | 0 <= j < |ks| ensures (xs + [x])[ks[j]] == xs[ks[j]] {}
  }

  lemma PassPicks<A, B>(xs: seq<A>, ys: seq<B>, x: A, y: B, wanted: A -> bool, says: (A, B) -> bool, ks: seq<nat>)
    requires Picks(xs, ys, wanted, says, ks) && !wanted(x)
    ensures Picks(xs + [x], ys, wanted, says, ks)
  {
    CompleteSnoc(xs, x, |xs|, wanted, ks, ks);
    RightSnoc(xs, ys, x, y, |xs|, wanted, says, ks);
  }

  lemma SnocPicks<A, B>(xs: seq<A>, ys: seq<B>, x: A, y: B, n: nat,
                        wanted: A -> bool, says: (A, B) -> bool, ks: seq<nat>)
    requires Picks(xs, ys, wanted, says, ks) && wanted(x) && says(x, y) && n == |xs|
    ensures Picks(xs + [x], ys + [y], wanted, says, ks + [n])
  {
    CompleteSnoc(xs, x, n, wanted, ks, ks + [n]);
    RightSnoc(xs, ys, x, y, n, wanted, says, ks);
    AscendingSnoc(ks, n);
  }

  lemma SelectsSnoc<A, B>(xs: seq<A>, ys: seq<B>, x: A, y: B, wanted: A -> bool, says: (A, B) -> bool)
    requires Selects(xs, ys, wanted, says)
    ensures !wanted(x) ==> Selects(xs + [x], ys, wanted, says)
    ensures wanted(x) && says(x, y) ==> Selects(xs + [x], ys + [y], wanted, says)
  {
    var ks :| Picks(xs, ys, wanted, says, ks);
    if !wanted(x) {
      PassPicks(xs, ys, x, y, wanted, says, ks);
    } else if says(x, y) {
      SnocPicks(xs, ys, x, y, |xs|, wanted, says, ks);
    }
  }

  // ---- one more element in front ----------------------------------------------------------------------------------

  /** The same indices, one further on. */
  function Shifted(ks: seq<nat>): (moved: seq<nat>)
    ensures |moved| == |ks| && forall j :: 0 <= j < |ks| ==> moved[j] == ks[j] + 1
  {
    seq(|ks|, j requires 0 <= j < |ks| => ks[j] + 1)
  }

  lemma ShiftedHas(ks: seq<nat>, k: nat)
    requires k in ks
    ensures k + 1 in Shifted(ks)
  {
    var j :| 0 <= j < |ks| && ks[j] == k;
    assert Shifted(ks)[j] == k + 1;
  }

  lemma CompleteCons<A>(x: A, xs: seq<A>, wanted: A -> bool, ks: seq<nat>, more: seq<nat>)
    requires Complete(xs, wanted, ks) && (more == [0] + Shifted(ks) || (more == Shifted(ks) && !wanted(x)))
    ensures Complete([x] + xs, wanted, more)
  {
    var all := [x] + xs;
    forall k | 0 <= k < |all| && wanted(all[k]) ensures k in more {
      if k > 0 {
        assert all[k] == xs[k - 1];
        ShiftedHas(ks, k - 1);
      } else {
        assert more[0] == 0;
      }
    }
  }

  lemma RightShifted<A, B>(x: A, xs: seq<A>, ys: seq<B>, wanted: A -> bool, says: (A, B) -> bool, ks: seq<nat>)
    requires Right(xs, ys, wanted, says, ks)
    ensures Right([x] + xs, ys, wanted, says, Shifted(ks))
  {
    forall j | 0 <= j < |ks| ensures ([x] + xs)[Shifted(ks)[j]] == xs[ks[j]] {}
  }

  lemma RightCons<A, B>(x: A, y: B, xs: seq<A>, ys: seq<B>, wanted: A -> bool, says: (A, B) -> bool, ks: seq<nat>)
    requires Right(xs, ys, wanted, says, ks) && wanted(x) && says(x, y)
    ensures Right([x] + xs, [y] + ys, wanted, says, [0] + Shifted(ks))
  {
    RightShifted(x, xs, ys, wanted, says, ks);
  }

  lemma AscendingShifted(ks: seq<nat>)
    requires Ascending(ks)
    ensures Ascending(Shifted(ks)) && Ascending([0] + Shifted(ks))
  {
  }

  lemma SkipPicks<A, B>(x: A, xs: seq<A>, ys: seq<B>, wanted: A -> bool, says: (A, B) -> bool, ks: seq<nat>)
    requires Picks(xs, ys, wanted, says, ks) && !wanted(x)
    ensures Picks([x] + xs, ys, wanted, says, Shifted(ks))
  {
    CompleteCons(x, xs, wanted, ks, Shifted(ks));
    RightShifted(x, xs, ys, wanted, says, ks);
    AscendingShifted(ks);
  }

  lemma ConsPicks<A, B>(x: A, y: B, xs: seq<A>, ys: seq<B>, wanted: A -> bool, says: (A, B) -> bool, ks: seq<nat>)
    requires Picks(xs, ys, wanted, says, ks) && wanted(x) && says(x, y)
    ensures Picks([x] + xs, [y] + ys, wanted, says, [0] + Shifted(ks))
  {
    CompleteCons(x, xs, wanted, ks, [0] + Shifted(ks));
    RightCons(x, y, xs, ys, wanted, says, ks);
    AscendingShifted(ks);
  }

  lemma SelectsCons<A, B>(x: A, y: B, xs: seq<A>, ys: seq<B>, wanted: A -> bool, says: (A, B) -> bool)
    requires Selects(xs, ys, wanted, says)
    ensures !wanted(x) ==> Selects([x] + xs, ys, wanted, says)
    ensures wanted(x) && says(x, y) ==> Selects([x] + xs, [y] + ys, wanted, says)
  {
    var ks :| Picks(xs, ys, wanted, says, ks);
    if !wanted(x) {
      SkipPicks(x, xs, ys, wanted, says, ks);
    } else if says(x, y) {
      ConsPicks(x, y, xs, ys, wanted, says, ks);
    }
  }
}
