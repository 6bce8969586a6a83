/** ml/cv.py: cross-validation that purges training labels overlapping a test block. */
module PurgedCv {
  import opened Numbers
  import opened Options
  import opened Combinations
  import opened Folds

  datatype Error = Misaligned | BadArgument | EmptyBlock | NothingChosen

  /** The whole part of this share of n. */
  function EmbargoBars(n: nat, pct: real): (emb: nat)
    requires pct >= 0.0
    ensures emb as real <= n as real * pct < emb as real + 1.0
  {
    (n as real * pct).Floor
  }

  /** Label j covers the time from starts[j] to ends[j]. */
  datatype Labels = Labels(starts: seq<int>, ends: seq<int>) {
    predicate Valid() {
      |starts| == |ends| && forall i, j :: 0 <= i < j < |starts| ==> starts[i] <= starts[j]
    }
  }

  /** pandas' left searchsorted: how many entries come before v. */
  function SearchSorted(s: seq<int>, v: int): (r: nat)
    ensures r <= |s| && (forall i :: 0 <= i < r ==> s[i] < v) && (r < |s| ==> s[r] >= v)
  {
    if s == [] || s[0] >= v then 0 else 1 + SearchSorted(s[1..], v)
  }

  function LastEnd(ends: seq<int>, lo: nat, hi: nat): (r: int)
    requires lo < hi <= |ends|
    ensures (exists i :: lo <= i < hi && ends[i] == r) && forall i :: lo <= i < hi ==> ends[i] <= r
  {
    if lo + 1 == hi then ends[lo]
    else
      var r := LastEnd(ends, lo, hi - 1);
      if ends[hi - 1] >= r then ends[hi - 1] else r
  }

  /** Where training may resume after block lo..hi. */
  function Resume(l: Labels, emb: nat, lo: nat, hi: nat): int
    requires lo < hi <= |l.ends|
  {
    MinI(SearchSorted(l.starts, LastEnd(l.ends, lo, hi)) + emb, |l.starts|)
  }

  /** The label `emb` places before j starts once every label of the block has ended. */
  predicate After(l: Labels, emb: nat, lo: nat, hi: nat, j: int)
    requires l.Valid() && lo < hi <= |l.ends| && 0 <= j < |l.ends|
  {
    j >= emb && forall i :: lo <= i < hi ==> l.ends[i] <= l.starts[j - emb]
  }

  lemma ResumeIsAfter(l: Labels, emb: nat, lo: nat, hi: nat, j: int)
    requires l.Valid() && lo < hi <= |l.ends| && 0 <= j < |l.ends|
    ensures j >= Resume(l, emb, lo, hi) <==> After(l, emb, lo, hi, j)
  {
    var v := LastEnd(l.ends, lo, hi);
    var loc := SearchSorted(l.starts, v);
    if j >= loc + emb {
      assert l.starts[loc] <= l.starts[j - emb];
    }
    if After(l, emb, lo, hi, j) {
      var i :| lo <= i < hi && l.ends[i] == v;
      assert l.ends[i] <= l.starts[j - emb];
    }
  }

  // --- sequential folds ----------------------------------------------------------------------------

  /** One block is held out; a label trains when it ends by the block's first start, or comes after the block. */
  predicate FoldFor(f: Split, l: Labels, emb: nat, lo: nat, hi: nat)
    requires l.Valid() && lo < hi <= |l.ends|
  {
    && f.test == Range(lo, hi) && Increasing(f.train)
    && (forall j :: j in f.train ==> 0 <= j < |l.ends|)
    && forall j :: 0 <= j < |l.ends| ==>
         (j in f.train <==> !(lo <= j < hi) && (l.ends[j] <= l.starts[lo] || After(l, emb, lo, hi, j)))
  }

  predicate FoldAt(f: Split, l: Labels, emb: nat, splits: nat, g: nat)
    requires l.Valid() && splits > 0
  {
    var lo, hi := Bound(|l.ends|, splits, g), Bound(|l.ends|, splits, g + 1);
    lo < hi <= |l.ends| && FoldFor(f, l, emb, lo, hi)
  }

  method PurgedKFold(n: nat, l: Labels, splits: int, pct: real) returns (folds: seq<Split>, error: Option<Error>)
    requires l.Valid() && pct >= 0.0
    ensures n != |l.ends| ==> folds == [] && error == Some(Misaligned)
    ensures n == |l.ends| && splits <= 0 ==> folds == [] && error == Some(BadArgument)
    ensures n == |l.ends| && splits > 0 ==>
              && |folds| == MinI(splits, n)
              && error == (if splits <= n then None else Some(EmptyBlock))
              && Bound(n, splits, splits) == n
              && forall g :: 0 <= g < |folds| ==> FoldAt(folds[g], l, EmbargoBars(n, pct), splits, g)
  {
    folds, error := [], None;
    if n != |l.ends| { return [], Some(Misaligned); }
    var emb := EmbargoBars(n, pct);
    if splits <= 0 { return [], Some(BadArgument); }
    BlocksCover(n, splits);
    for g := 0 to splits
      invariant |folds| == g <= n
      invariant forall h :: 0 <= h < g ==> FoldAt(folds[h], l, emb, splits, h)
    {
      var lo, hi := Bound(n, splits, g), Bound(n, splits, g + 1);
      BlockEmpty(n, splits, g);
      if lo == hi { return folds, Some(EmptyBlock); }
      BoundMonotone(n, splits, g + 1, splits);
      var fold := OneFold(n, l, emb, lo, hi);
      assert FoldAt(fold, l, emb, splits, g);
      folds := folds + [fold];
    }
  }

  method OneFold(n: nat, l: Labels, emb: nat, lo: nat, hi: nat) returns (fold: Split)
    requires l.Valid() && n == |l.ends| && lo < hi <= n
    ensures FoldFor(fold, l, emb, lo, hi)
  {
    var tLo, resume := l.starts[lo], Resume(l, emb, lo, hi);
    var train := Select(n, j => 0 <= j < |l.ends| && (l.ends[j] <= tLo || j >= resume) && !(lo <= j < hi));
    forall j | 0 <= j < n ensures j >= resume <==> After(l, emb, lo, hi, j) { ResumeIsAfter(l, emb, lo, hi, j); }
    fold := Split(Range(lo, hi), train);
  }

  /** No label in train shares time with one in test. */
  lemma FoldNeverLeaks(f: Split, l: Labels, emb: nat, lo: nat, hi: nat, i: int, j: int)
    requires l.Valid() && lo < hi <= |l.ends| && FoldFor(f, l, emb, lo, hi)
    requires i in f.test && j in f.train
    ensures 0 <= i < |l.ends| && 0 <= j < |l.ends|
    ensures l.ends[j] <= l.starts[i] || (l.ends[i] <= l.starts[j] && l.ends[i] <= l.starts[j - emb])
  {
    InRangeOf(lo, hi);
    if After(l, emb, lo, hi, j) {
      assert l.starts[j - emb] <= l.starts[j];
    } else {
      assert l.starts[lo] <= l.starts[i];
    }
  }

  /** j comes before every label of the block, or so far after all of them that the one `emb` places before it does. */
  ghost predicate Apart(l: Labels, emb: nat, block: seq<int>, j: int, before: (int, int) -> bool)
    requires 0 <= j < |l.ends| == |l.starts| && forall i :: i in block ==> 0 <= i < |l.ends|
  {
    || (forall i :: i in block ==> before(l.ends[j], l.starts[i]))
    || (j >= emb && forall i :: i in block ==> l.ends[i] <= l.starts[j - emb])
  }

  /** A label trains exactly if it is not held out and lies apart from all labels that are. */
  lemma FoldTrainsIff(f: Split, l: Labels, emb: nat, lo: nat, hi: nat, j: int)
    requires l.Valid() && lo < hi <= |l.ends| && FoldFor(f, l, emb, lo, hi)
    ensures forall i :: i in f.test ==> 0 <= i < |l.ends|
    ensures j in f.train <==>
              0 <= j < |l.ends| && j !in f.test && Apart(l, emb, f.test, j, (end, start) => end <= start)
  {
    InRangeOf(lo, hi);
    if 0 <= j < |l.ends| {
      assert lo in f.test;
      assert forall i :: i in f.test ==> l.starts[lo] <= l.starts[i];
    }
  }

  // --- combinations of blocks ----------------------------------------------------------------------

  /** As `FoldFor`, but a label ending exactly when the block starts is purged too. */
  predicate ClearOf(l: Labels, emb: nat, lo: nat, hi: nat, j: int)
    requires l.Valid() && lo < hi <= |l.ends| && 0 <= j < |l.ends|
  {
    l.ends[j] < l.starts[lo] || After(l, emb, lo, hi, j)
  }

  predicate Blocks(combo: seq<int>, n: nat, groups: nat, k: nat) {
    1 <= groups && Choice(combo, 0, groups, k) && forall p :: 0 <= p < |combo| ==> combo[p] < n
  }

  lemma BlockInside(n: nat, groups: nat, g: nat)
    requires g < groups && g < n
    ensures Bound(n, groups, g) < Bound(n, groups, g + 1) <= n
  {
    BlockEmpty(n, groups, g);
    BoundMonotone(n, groups, g + 1, groups);
    BlocksCover(n, groups);
  }

  /** j is clear of block g, if there is such a block with anything in it. */
  predicate Clear(l: Labels, emb: nat, groups: nat, g: int, j: int)
    requires l.Valid() && 0 <= j < |l.ends|
  {
    0 <= g < groups && g < |l.ends| ==>
      (BlockInside(|l.ends|, groups, g);
       ClearOf(l, emb, Bound(|l.ends|, groups, g), Bound(|l.ends|, groups, g + 1), j))
  }

  ghost predicate ComboFor(f: Split, l: Labels, emb: nat, groups: nat, k: nat, combo: seq<int>)
    requires l.Valid() && Blocks(combo, |l.ends|, groups, k)
  {
    && TestsChoice(f, combo, |l.ends|, groups, k)
    && Increasing(f.train)
    && (forall j :: j in f.train ==> 0 <= j < |l.ends|)
    && forall j :: 0 <= j < |l.ends| ==>
         (j in f.train <==> j !in f.test && forall p :: 0 <= p < |combo| ==> Clear(l, emb, groups, combo[p], j))
  }

  /** One block against the training set so far. */
  method Purge(l: Labels, emb: nat, lo: nat, hi: nat, train: seq<int>) returns (keep: seq<int>)
    requires l.Valid() && lo < hi <= |l.ends|
    requires Increasing(train) && forall j :: j in train ==> 0 <= j < |l.ends|
    ensures Increasing(keep)
    ensures forall j :: j in keep <==> j in train && 0 <= j < |l.ends| && ClearOf(l, emb, lo, hi, j)
  {
    var resume := Resume(l, emb, lo, hi);
    keep := [];
    for m := 0 to |train|
      invariant Increasing(keep)
      invariant forall j :: j in keep <==> j in train[..m] && 0 <= j < |l.ends| && ClearOf(l, emb, lo, hi, j)
    {
      var j := train[m];
      assert j in train && train[..m + 1] == train[..m] + [j];
      assert forall q :: 0 <= q < |keep| ==> keep[q] in keep;
      ResumeIsAfter(l, emb, lo, hi, j);
      if l.ends[j] < l.starts[lo] || j >= resume { keep := keep + [j]; }
    }
    assert train[..|train|] == train;
  }

  method OneCombo(l: Labels, emb: nat, groups: nat, k: nat, combo: seq<int>) returns (f: Split)
    requires l.Valid() && Blocks(combo, |l.ends|, groups, k)
    ensures ComboFor(f, l, emb, groups, k, combo)
  {
    var n := |l.ends|;
    var testSet: set<int> := {};
    for p := 0 to |combo|
      invariant forall i :: i in testSet <==> Near(combo[..p], n, groups, 0, i)
    {
      var lo, hi := Bound(n, groups, combo[p]), Bound(n, groups, combo[p] + 1);
      var block := Range(lo, hi);
      InRangeOf(lo, hi);
      assert forall i :: i in block <==> Covers(n, groups, combo[p], 0, i);
      Chosen(combo, p, n, groups, 0);
      testSet := testSet + set i | i in block;
    }
    assert combo[..|combo|] == combo;
    InRange(combo, n, groups);
    var test := Select(n, i => i in testSet);
    var train := Select(n, i => i !in testSet);
    for p := 0 to |combo|
      invariant Increasing(train) && forall j :: j in train ==> 0 <= j < n
      invariant forall j :: 0 <= j < n ==>
                  (j in train <==> j !in test && forall q :: 0 <= q < p ==> Clear(l, emb, groups, combo[q], j))
    {
      BlockInside(n, groups, combo[p]);
      train := Purge(l, emb, Bound(n, groups, combo[p]), Bound(n, groups, combo[p] + 1), train);
    }
    f := Split(test, train);
  }

  /** One fold per combination, up to the first with an empty block. */
  method HoldOutInTurn(l: Labels, emb: nat, groups: int, k: int, combos: seq<seq<int>>)
    returns (folds: seq<Split>, error: Option<Error>)
    requires l.Valid() && groups > 0 && k > 0 && forall c :: c in combos ==> Choice(c, 0, groups, k)
    ensures |folds| <= |combos|
    ensures forall c :: 0 <= c < |folds| ==>
              Blocks(combos[c], |l.ends|, groups, k) && ComboFor(folds[c], l, emb, groups, k, combos[c])
    ensures if error.None? then |folds| == |combos|
            else error == Some(EmptyBlock) && |folds| < |combos| && !Blocks(combos[|folds|], |l.ends|, groups, k)
    ensures groups <= |l.ends| ==> error.None?
  {
    folds, error := [], None;
    for c := 0 to |combos|
      invariant |folds| == c
      invariant forall d :: 0 <= d < c ==>
                  Blocks(combos[d], |l.ends|, groups, k) && ComboFor(folds[d], l, emb, groups, k, combos[d])
    {
      assert combos[c] in combos;
      if exists p :: 0 <= p < k && combos[c][p] >= |l.ends| { return folds, Some(EmptyBlock); }
      var f := OneCombo(l, emb, groups, k, combos[c]);
      folds := folds + [f];
    }
  }

  /** Every choice in order, until one holds an empty block. */
  method CombinatorialPurgedCv(n: nat, l: Labels, groups: int, k: int, pct: real)
    returns (folds: seq<Split>, error: Option<Error>)
    requires l.Valid() && pct >= 0.0
    ensures n != |l.ends| ==> folds == [] && error == Some(Misaligned)
    ensures n == |l.ends| && (groups <= 0 || k < 0) ==> folds == [] && error == Some(BadArgument)
    ensures n == |l.ends| && groups > 0 && k == 0 ==> folds == [] && error == Some(NothingChosen)
    ensures n == |l.ends| && groups > 0 && k > 0 ==>
              var combos, emb := Choices(0, groups, k), EmbargoBars(n, pct);
              && |folds| <= |combos|
              && (forall c :: 0 <= c < |folds| ==>
                    Blocks(combos[c], n, groups, k) && ComboFor(folds[c], l, emb, groups, k, combos[c]))
              && (if error.None? then |folds| == |combos|
                  else error == Some(EmptyBlock) && |folds| < |combos| && !Blocks(combos[|folds|], n, groups, k))
              && (groups <= n ==> error.None?)
  {
    folds, error := [], None;
    if n != |l.ends| { return [], Some(Misaligned); }
    if groups <= 0 || k < 0 { return [], Some(BadArgument); }
    if k == 0 { return [], Some(NothingChosen); }
    var combos := Choices(0, groups, k);
    EachIsChoice(0, groups, k);
    folds, error := HoldOutInTurn(l, EmbargoBars(n, pct), groups, k, combos);
  }

  /** Across every held-out block: no label in train shares time with one in test. */
  lemma CombosNeverLeak(f: Split, l: Labels, emb: nat, groups: nat, k: nat, combo: seq<int>, i: int, j: int)
    requires l.Valid() && Blocks(combo, |l.ends|, groups, k) && ComboFor(f, l, emb, groups, k, combo)
    requires i in f.test && j in f.train
    ensures 0 <= i < |l.ends| && 0 <= j < |l.ends|
    ensures l.ends[j] < l.starts[i] || (l.ends[i] <= l.starts[j] && l.ends[i] <= l.starts[j - emb])
  {
    var n := |l.ends|;
    InRange(combo, n, groups);
    var p :| 0 <= p < |combo| && Covers(n, groups, combo[p], 0, i);
    BlockInside(n, groups, combo[p]);
    assert Clear(l, emb, groups, combo[p], j);
    var lo, hi := Bound(n, groups, combo[p]), Bound(n, groups, combo[p] + 1);
    if After(l, emb, lo, hi, j) {
      assert l.starts[j - emb] <= l.starts[j];
    } else {
      assert l.starts[lo] <= l.starts[i];
    }
  }

  /** A label trains exactly if it is not held out and lies apart from each of the chosen blocks. */
  lemma ComboTrainsIff(f: Split, l: Labels, emb: nat, groups: nat, k: nat, combo: seq<int>, j: int)
    requires l.Valid() && Blocks(combo, |l.ends|, groups, k) && ComboFor(f, l, emb, groups, k, combo)
    ensures forall p, i :: 0 <= p < |combo| && i in BlockOf(|l.ends|, groups, combo[p]) ==> 0 <= i < |l.ends|
    ensures j in f.train <==>
              && 0 <= j < |l.ends| && j !in f.test
              && forall p :: 0 <= p < |combo| ==>
                   Apart(l, emb, BlockOf(|l.ends|, groups, combo[p]), j, (end, start) => end < start)
  {
    var n := |l.ends|;
    forall p | 0 <= p < |combo|
      ensures forall i :: i in BlockOf(n, groups, combo[p]) ==> 0 <= i < n
      ensures 0 <= j < n ==>
                (Clear(l, emb, groups, combo[p], j)
                 <==> Apart(l, emb, BlockOf(n, groups, combo[p]), j, (end, start) => end < start))
    {
      BlockInside(n, groups, combo[p]);
      if 0 <= j < n { ClearIsApart(l, emb, Bound(n, groups, combo[p]), Bound(n, groups, combo[p] + 1), j); }
      InRangeOf(Bound(n, groups, combo[p]), Bound(n, groups, combo[p] + 1));
    }
  }

  function BlockOf(n: nat, groups: nat, g: nat): seq<int> requires groups > 0 {
    Range(Bound(n, groups, g), Bound(n, groups, g + 1))
  }

  lemma ClearIsApart(l: Labels, emb: nat, lo: nat, hi: nat, j: int)
    requires l.Valid() && lo < hi <= |l.ends| && 0 <= j < |l.ends|
    ensures forall i :: i in Range(lo, hi) ==> 0 <= i < |l.ends|
    ensures ClearOf(l, emb, lo, hi, j) <==> Apart(l, emb, Range(lo, hi), j, (end, start) => end < start)
  {
    InRangeOf(lo, hi);
    assert lo in Range(lo, hi);
    assert forall i :: i in Range(lo, hi) ==> l.starts[lo] <= l.starts[i];
  }

  function NumCpcvPaths(groups: nat, k: nat): nat requires groups > 0 { Binom(groups, k) * k / groups }

  /** Every index is held out in as many folds as there are paths. */
  lemma HeldOutOncePerPath(folds: seq<Split>, l: Labels, emb: nat, groups: nat, k: nat, i: nat)
    requires l.Valid() && i < |l.ends| && groups > 0 && k > 0
    requires var combos := Choices(0, groups, k);
             && |folds| == |combos|
             && forall c :: 0 <= c < |folds| ==> Blocks(combos[c], |l.ends|, groups, k)
                                                 && ComboFor(folds[c], l, emb, groups, k, combos[c])
    ensures HeldOut(folds, i) == NumCpcvPaths(groups, k)
  {
    HeldOutEqually(folds, |l.ends|, groups, k, i);
  }
}
