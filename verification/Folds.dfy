/** Consecutive blocks of positions, and splits whose test part is a choice of blocks. */
module Folds {
  import opened Combinations

  datatype Split = Split(test: seq<int>, train: seq<int>)

  function Range(lo: int, hi: int): seq<int> { seq(if hi > lo then hi - lo else 0, i => lo + i) }

  lemma InRangeOf(lo: int, hi: int)
    ensures forall i :: i in Range(lo, hi) <==> lo <= i < hi
  {
    forall i | lo <= i < hi ensures i in Range(lo, hi) { assert Range(lo, hi)[i - lo] == i; }
  }

  method Select(n: nat, keep: int -> bool) returns (s: seq<int>)
    ensures Increasing(s) && forall j :: j in s <==> 0 <= j < n && keep(j)
  {
    s := [];
    for i := 0 to n
      invariant Increasing(s) && forall j :: j in s <==> 0 <= j < i && keep(j)
    {
      assert forall k :: 0 <= k < |s| ==> s[k] in s;
      if keep(i) { s := s + [i]; }
    }
  }

  // --- near-equal blocks ---------------------------------------------------------------------------

  function Size(n: nat, groups: nat, g: nat): nat requires groups > 0 {
    n / groups + if g < n % groups then 1 else 0
  }

  /** Where block g of n positions starts: the first n % groups blocks take one position more. */
  function Bound(n: nat, groups: nat, g: nat): nat requires groups > 0 {
    if g == 0 then 0 else Bound(n, groups, g - 1) + Size(n, groups, g - 1)
  }

  lemma {:induction false} BoundClosed(n: nat, groups: nat, g: nat)
    requires groups > 0
    ensures Bound(n, groups, g) == n / groups * g + if g < n % groups then g else n % groups
  {
    if g == 0 {
    } else {
      BoundClosed(n, groups, g - 1);
      Plus(n / groups, g);
    }
  }

  /** The blocks cover all positions, and are as equal as they can be, the larger ones first. */
  lemma BlocksCover(n: nat, groups: nat)
    requires groups > 0
    ensures Bound(n, groups, groups) == n
    ensures forall g, h :: 0 <= g < h < groups ==> 0 <= Size(n, groups, g) - Size(n, groups, h) <= 1
  {
    BoundClosed(n, groups, groups);
    assert n == groups * (n / groups) + n % groups;
  }

  lemma {:induction false} BoundMonotone(n: nat, groups: nat, a: nat, b: nat)
    requires groups > 0 && a <= b
    ensures Bound(n, groups, a) <= Bound(n, groups, b)
  {
    if a == b {
    } else {
      BoundMonotone(n, groups, a, b - 1);
    }
  }

  /** Blocks are non-empty exactly when there are no more of them than positions. */
  lemma BlockEmpty(n: nat, groups: nat, g: nat)
    requires g < groups
    ensures Size(n, groups, g) == 0 <==> g >= n
  {
    if n >= groups {
      assert n / groups >= 1;
    } else {
      assert n / groups == 0 && n % groups == n;
    }
  }

  predicate InBlock(n: nat, groups: nat, g: nat, i: int) requires groups > 0 {
    Bound(n, groups, g) <= i < Bound(n, groups, g + 1)
  }

  lemma {:induction false} Owner(n: nat, groups: nat, i: nat, hi: nat) returns (g: nat)
    requires groups > 0 && i < Bound(n, groups, hi)
    ensures g < hi && InBlock(n, groups, g, i)
  {
    if i >= Bound(n, groups, hi - 1) { g := hi - 1; } else { g := Owner(n, groups, i, hi - 1); }
  }

  lemma OwnerUnique(n: nat, groups: nat, i: nat, a: nat, b: nat)
    requires groups > 0 && InBlock(n, groups, a, i) && InBlock(n, groups, b, i)
    ensures a == b
  {
    if a < b {
      BoundMonotone(n, groups, a + 1, b);
    } else if b < a {
      BoundMonotone(n, groups, b + 1, a);
    }
  }

  // --- chosen blocks -------------------------------------------------------------------------------

  predicate Covers(n: nat, groups: nat, g: nat, reach: nat, i: int)
    requires groups > 0
  {
    Bound(n, groups, g) <= i < Bound(n, groups, g + 1) + reach
  }

  /** Position i is in a chosen block, or in the `reach` positions after one. */
  ghost predicate Near(combo: seq<int>, n: nat, groups: nat, reach: nat, i: int)
    requires groups > 0 && forall p :: 0 <= p < |combo| ==> combo[p] >= 0
  {
    exists p :: 0 <= p < |combo| && Covers(n, groups, combo[p], reach, i)
  }

  lemma Chosen(combo: seq<int>, p: nat, n: nat, groups: nat, reach: nat)
    requires groups > 0 && p < |combo| && forall q :: 0 <= q < |combo| ==> combo[q] >= 0
    ensures forall i :: Near(combo[..p + 1], n, groups, reach, i) <==>
              Near(combo[..p], n, groups, reach, i)
              || Covers(n, groups, combo[p], reach, i)
  {
    var a, b := combo[..p + 1], combo[..p];
    forall i | Near(b, n, groups, reach, i) ensures Near(a, n, groups, reach, i) {
      var q :| 0 <= q < p && Covers(n, groups, b[q], reach, i);
      assert a[q] == b[q];
    }
    forall i | Covers(n, groups, combo[p], reach, i) ensures Near(a, n, groups, reach, i) {
      assert a[p] == combo[p];
    }
    forall i | Near(a, n, groups, reach, i) && !Covers(n, groups, combo[p], reach, i)
      ensures Near(b, n, groups, reach, i)
    {
      var q :| 0 <= q <= p && Covers(n, groups, a[q], reach, i);
      assert a[q] == b[q];
    }
  }

  lemma InRange(combo: seq<int>, n: nat, groups: nat)
    requires groups > 0 && Choice(combo, 0, groups, |combo|)
    ensures forall i :: Near(combo, n, groups, 0, i) ==> 0 <= i < n
  {
    forall i | Near(combo, n, groups, 0, i) ensures 0 <= i < n {
      var p :| 0 <= p < |combo| && Covers(n, groups, combo[p], 0, i);
      BoundMonotone(n, groups, combo[p] + 1, groups);
      BlocksCover(n, groups);
    }
  }

  ghost predicate TestsChoice(sp: Split, combo: seq<int>, n: nat, groups: nat, k: nat)
    requires groups > 0
  {
    && Choice(combo, 0, groups, k)
    && Increasing(sp.test)
    && forall i :: i in sp.test <==> Near(combo, n, groups, 0, i)
  }

  function HeldOut(splits: seq<Split>, i: int): nat {
    if splits == [] then 0 else HeldOut(splits[..|splits| - 1], i) + if i in splits[|splits| - 1].test then 1 else 0
  }

  lemma {:induction false} HeldOutAsChosen(splits: seq<Split>, combos: seq<seq<int>>, i: int, g: int)
    requires |splits| == |combos|
    requires forall c :: 0 <= c < |splits| ==> (i in splits[c].test <==> g in combos[c])
    ensures HeldOut(splits, i) == Holding(combos, g)
  {
    if splits == [] {
    } else {
      var m := |splits| - 1;
      HeldOutAsChosen(splits[..m], combos[..m], i, g);
      assert combos == combos[..m] + [combos[m]];
      HoldingAppend(combos[..m], [combos[m]], g);
      assert [combos[m]][1..] == [];
    }
  }

  lemma HeldOutInBlock(combo: seq<int>, n: nat, groups: nat, i: nat, g: nat)
    requires groups > 0 && Choice(combo, 0, groups, |combo|) && InBlock(n, groups, g, i)
    ensures Near(combo, n, groups, 0, i) <==> g in combo
  {
    if Near(combo, n, groups, 0, i) {
      var p :| 0 <= p < |combo| && Covers(n, groups, combo[p], 0, i);
      OwnerUnique(n, groups, i, combo[p], g);
    }
    if g in combo {
      var p :| 0 <= p < |combo| && combo[p] == g;
      assert Covers(n, groups, combo[p], 0, i);
    }
  }

  /** However train is chosen: if split c holds out the blocks of choice c, each position is held out equally often. */
  lemma HeldOutEqually(splits: seq<Split>, n: nat, groups: nat, k: nat, i: nat)
    requires groups >= 1 && k >= 1 && i < n && |splits| == |Choices(0, groups, k)|
    requires forall c :: 0 <= c < |splits| ==> TestsChoice(splits[c], Choices(0, groups, k)[c], n, groups, k)
    ensures HeldOut(splits, i) == Binom(groups, k) * k / groups == Binom(groups - 1, k - 1)
    ensures Binom(groups, k) * k % groups == 0
  {
    var combos := Choices(0, groups, k);
    BlocksCover(n, groups);
    var g := Owner(n, groups, i, groups);
    forall c | 0 <= c < |splits| ensures i in splits[c].test <==> g in combos[c] {
      assert TestsChoice(splits[c], combos[c], n, groups, k);
      HeldOutInBlock(combos[c], n, groups, i, g);
    }
    HeldOutAsChosen(splits, combos, i, g);
    EachHeldEqually(0, groups, k, g);
    PathsExact(groups, k);
  }
}
