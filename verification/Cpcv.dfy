/** backtest/cpcv.py: combinatorial splits of a back-test with an embargo after each test block. */
module Cpcv {
  import opened Numbers
  import opened Combinations
  import opened Folds

  method MakeGroups(n: nat, count: nat) returns (groups: seq<seq<int>>)
    requires count > 0
    ensures |groups| == count
    ensures forall g :: 0 <= g < count ==> groups[g] == Range(Bound(n, count, g), Bound(n, count, g + 1))
    ensures Bound(n, count, count) == n
  {
    var base, rem := n / count, n % count;
    var start := 0;
    groups := [];
    for i := 0 to count
      invariant start == Bound(n, count, i) && |groups| == i
      invariant forall g :: 0 <= g < i ==> groups[g] == Range(Bound(n, count, g), Bound(n, count, g + 1))
    {
      var size := base + if i < rem then 1 else 0;
      groups := groups + [Range(start, start + size)];
      start := start + size;
    }
    BlocksCover(n, count);
  }

  predicate Degenerate(n: int, groups: int, k: int) { groups < 2 || !(1 <= k < groups) || n < groups }

  function BacktestPaths(groups: int, k: int): (paths: nat)
    ensures groups < 2 || k < 1 || k >= groups ==> paths == 0
  {
    if groups < 2 || !(1 <= k < groups) then 0 else Binom(groups, k) * k / groups
  }

  /** Test is the chosen blocks; train is everything else that lies outside their embargo. */
  ghost predicate SplitFor(sp: Split, combo: seq<int>, n: nat, groups: nat, reach: nat)
    requires groups > 0 && forall p :: 0 <= p < |combo| ==> combo[p] >= 0
  {
    && TestsChoice(sp, combo, n, groups, |combo|)
    && Increasing(sp.train)
    && forall i :: i in sp.train <==> 0 <= i < n && !Near(combo, n, groups, reach, i)
  }

  ghost predicate SplitOf(sp: Split, combo: seq<int>, n: nat, groups: nat, k: nat, reach: nat) requires groups > 0 {
    Choice(combo, 0, groups, k) && SplitFor(sp, combo, n, groups, reach)
  }

  function Reach(embargo: int): nat { if embargo > 0 then embargo else 0 }

  /** The held-out positions of a choice, and the positions its embargo takes. */
  method Mark(n: nat, groups: seq<seq<int>>, combo: seq<int>, embargo: int)
    returns (testSet: set<int>, embargoed: set<int>)
    requires 1 <= |groups| <= n && Choice(combo, 0, |groups|, |combo|)
    requires forall g :: 0 <= g < |groups| ==> groups[g] == Range(Bound(n, |groups|, g), Bound(n, |groups|, g + 1))
    ensures forall i :: i in testSet <==> Near(combo, n, |groups|, 0, i)
    ensures forall i :: i < n ==> (i in testSet || i in embargoed <==> Near(combo, n, |groups|, Reach(embargo), i))
  {
    testSet, embargoed := {}, {};
    for p := 0 to |combo|
      invariant forall i :: i in testSet <==> Near(combo[..p], n, |groups|, 0, i)
      invariant forall i :: i < n ==>
                  (i in testSet || i in embargoed <==> Near(combo[..p], n, |groups|, Reach(embargo), i))
    {
      var g := combo[p];
      ghost var lo, hi := Bound(n, |groups|, g), Bound(n, |groups|, g + 1);
      InRangeOf(lo, hi);
      BlockEmpty(n, |groups|, g);
      var last := groups[g][|groups[g]| - 1];
      var block := set i | i in groups[g];
      var after := AfterBlock(n, last, embargo);
      assert forall i :: i in block <==> Covers(n, |groups|, g, 0, i);
      assert forall i :: i < n ==> (i in block || i in after <==> Covers(n, |groups|, g, Reach(embargo), i));
      Chosen(combo, p, n, |groups|, 0);
      Chosen(combo, p, n, |groups|, Reach(embargo));
      testSet, embargoed := testSet + block, embargoed + after;
    }
    assert combo[..|combo|] == combo;
  }

  function AfterBlock(n: nat, last: int, embargo: int): (r: set<int>)
    ensures forall i :: i in r <==> i < n && last < i <= last + embargo
  {
    if embargo > 0 then
      var hi := MinI(n, last + 1 + embargo);
      InRangeOf(last + 1, hi);
      var taken := Range(last + 1, hi);
      set i | i in taken
    else {}
  }

  method OneSplit(n: nat, groups: seq<seq<int>>, combo: seq<int>, embargo: int) returns (sp: Split)
    requires 1 <= |groups| <= n && Choice(combo, 0, |groups|, |combo|)
    requires forall g :: 0 <= g < |groups| ==> groups[g] == Range(Bound(n, |groups|, g), Bound(n, |groups|, g + 1))
    ensures SplitFor(sp, combo, n, |groups|, Reach(embargo))
  {
    var testSet, embargoed := Mark(n, groups, combo, embargo);
    InRange(combo, n, |groups|);
    var test := Select(n, i => i in testSet);
    var train := Select(n, i => i !in testSet && i !in embargoed);
    sp := Split(test, train);
  }

  /** One split per choice of k blocks, in order; each observation is held out in exactly `BacktestPaths` of them. */
  method CpcvSplits(n: nat, count: int, k: int, embargo: int) returns (splits: seq<Split>)
    ensures Degenerate(n, count, k) ==> splits == []
    ensures !Degenerate(n, count, k) ==>
              && |splits| == |Choices(0, count, k)| == Binom(count, k)
              && (forall c :: 0 <= c < |splits| ==>
                    SplitOf(splits[c], Choices(0, count, k)[c], n, count, k, Reach(embargo)))
    ensures !Degenerate(n, count, k) ==>
              forall i :: 0 <= i < n ==> HeldOut(splits, i) == BacktestPaths(count, k)
    ensures forall c :: 0 <= c < |splits| ==> TrainsClear(splits[c], n, embargo)
  {
    splits := [];
    if count < 2 || !(1 <= k < count) || n < count { return; }
    var groups := MakeGroups(n, count);
    var combos := Choices(0, count, k);
    EachIsChoice(0, count, k);
    ChoicesCounted(0, count, k);
    for c := 0 to |combos|
      invariant |splits| == c
      invariant forall d :: 0 <= d < c ==> SplitOf(splits[d], combos[d], n, count, k, Reach(embargo))
    {
      assert combos[c] in combos;
      var sp := OneSplit(n, groups, combos[c], embargo);
      splits := splits + [sp];
    }
    AllHeldOut(splits, n, count, k, Reach(embargo));
    AllClear(splits, n, count, k, embargo);
  }

  lemma AllClear(splits: seq<Split>, n: nat, count: nat, k: nat, embargo: int)
    requires !Degenerate(n, count, k) && |splits| == |Choices(0, count, k)|
    requires forall c :: 0 <= c < |splits| ==> SplitOf(splits[c], Choices(0, count, k)[c], n, count, k, Reach(embargo))
    ensures forall c :: 0 <= c < |splits| ==> TrainsClear(splits[c], n, embargo)
  {
    forall c | 0 <= c < |splits| ensures TrainsClear(splits[c], n, embargo) {
      assert SplitOf(splits[c], Choices(0, count, k)[c], n, count, k, Reach(embargo));
      EmbargoHeld(splits[c], Choices(0, count, k)[c], n, count, embargo);
    }
  }

  /** Training on j leaks what is tested at i: they are the same, or j follows i within the embargo. */
  predicate Leaks(i: int, j: int, embargo: int) { i == j || (i <= j && j - i <= embargo) }

  /** Train is every observation that leaks nothing of the test. */
  ghost predicate TrainsClear(sp: Split, n: nat, embargo: int) {
    forall j :: j in sp.train <==> 0 <= j < n && forall i :: i in sp.test ==> !Leaks(i, j, embargo)
  }

  lemma EmbargoHeld(sp: Split, combo: seq<int>, n: nat, groups: nat, embargo: int)
    requires 1 <= groups <= n && Choice(combo, 0, groups, |combo|) && SplitFor(sp, combo, n, groups, Reach(embargo))
    ensures TrainsClear(sp, n, embargo)
  {
    var reach := Reach(embargo);
    assert forall i, j :: Leaks(i, j, embargo) <==> i <= j <= i + reach;
    forall j ensures j in sp.train <==> 0 <= j < n && forall i :: i in sp.test ==> !Leaks(i, j, embargo) {
      TrainIsEmbargoed(sp, combo, n, groups, reach, j);
    }
  }

  lemma AllHeldOut(splits: seq<Split>, n: nat, count: nat, k: nat, reach: nat)
    requires !Degenerate(n, count, k) && |splits| == |Choices(0, count, k)|
    requires forall c :: 0 <= c < |splits| ==> SplitOf(splits[c], Choices(0, count, k)[c], n, count, k, reach)
    ensures forall i :: 0 <= i < n ==> HeldOut(splits, i) == BacktestPaths(count, k)
  {
    forall c | 0 <= c < |splits| ensures TestsChoice(splits[c], Choices(0, count, k)[c], n, count, k) {
      assert SplitOf(splits[c], Choices(0, count, k)[c], n, count, k, reach);
    }
    forall i | 0 <= i < n ensures HeldOut(splits, i) == BacktestPaths(count, k) {
      HeldOutEqually(splits, n, count, k, i);
    }
  }

  /** An observation trains exactly when neither it nor any of the `reach` before it is held out. */
  lemma TrainIsEmbargoed(sp: Split, combo: seq<int>, n: nat, groups: nat, reach: nat, j: int)
    requires 1 <= groups <= n && Choice(combo, 0, groups, |combo|) && SplitFor(sp, combo, n, groups, reach)
    ensures j in sp.train <==> 0 <= j < n && forall i :: i in sp.test ==> !(i <= j <= i + reach)
  {
    InRange(combo, n, groups);
    if 0 <= j < n && Near(combo, n, groups, reach, j) {
      var p :| 0 <= p < |combo| && Covers(n, groups, combo[p], reach, j);
      var lo, hi := Bound(n, groups, combo[p]), Bound(n, groups, combo[p] + 1);
      BlockEmpty(n, groups, combo[p]);
      var i := MinI(j, hi - 1);
      assert Covers(n, groups, combo[p], 0, i);
      assert Near(combo, n, groups, 0, i);
      assert i in sp.test;
    }
  }
}
