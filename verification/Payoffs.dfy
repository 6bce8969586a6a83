/** fno_backtest/instruments.py: option legs, their expiry payoff, and the scan for the worst one. */
module Payoffs {
  import opened Numbers

  datatype OptType = CE | PE | FUT

  datatype Side = BUY | SELL

  datatype Leg = Leg(opt: OptType, strike: real, side: Side, qty: int, entry: real)

  datatype Family = BullCallDebit | BearPutDebit | BullPutCredit | BearCallCredit | IronCondor

  datatype Structure = Structure(name: Family, legs: seq<Leg>)

  function Intrinsic(o: OptType, strike: real, spot: real): real {
    match o
    case CE => MaxR(spot - strike, 0.0)
    case PE => MaxR(strike - spot, 0.0)
    case FUT => spot
  }

  /** What one unit of the leg makes. */
  function PerUnit(l: Leg, spot: real): real {
    var val := Intrinsic(l.opt, l.strike, spot);
    if l.side.BUY? then val - l.entry else l.entry - val
  }

  function LegPayoff(l: Leg, spot: real): real { PerUnit(l, spot) * l.qty as real }

  function SumOf(f: Leg -> real, legs: seq<Leg>): real {
    if legs == [] then 0.0 else SumOf(f, legs[..|legs| - 1]) + f(legs[|legs| - 1])
  }

  function AtSpot(spot: real): Leg -> real { (l: Leg) => LegPayoff(l, spot) }

  function PayoffAt(legs: seq<Leg>, spot: real): real { SumOf(AtSpot(spot), legs) }

  lemma SumOfTwo(f: Leg -> real, ls: seq<Leg>)
    requires |ls| == 2
    ensures SumOf(f, ls) == f(ls[0]) + f(ls[1])
  {
    assert ls[..1][..0] == [];
    assert SumOf(f, ls[..1]) == f(ls[0]);
  }

  lemma SumOfFour(f: Leg -> real, ls: seq<Leg>)
    requires |ls| == 4
    ensures SumOf(f, ls) == f(ls[0]) + f(ls[1]) + (f(ls[2]) + f(ls[3]))
  {
    SumOfTwo(f, ls[..2]);
    assert ls[..3][..2] == ls[..2];
    assert SumOf(f, ls[..3]) == SumOf(f, ls[..2]) + f(ls[2]);
  }

  // --- premium -------------------------------------------------------------------------------------

  function Sign(l: Leg): real { if l.side.BUY? then 1.0 else -1.0 }

  function Premium(legs: seq<Leg>): real {
    if legs == [] then 0.0
    else
      var l := legs[|legs| - 1];
      Premium(legs[..|legs| - 1]) + if l.opt.FUT? then 0.0 else l.entry * l.qty as real * Sign(l)
  }

  method NetPremium(s: Structure) returns (prem: real)
    ensures prem == Premium(s.legs)
  {
    prem := 0.0;
    for n := 0 to |s.legs|
      invariant prem == Premium(s.legs[..n])
    {
      assert s.legs[..n + 1][..n] == s.legs[..n];
      var leg := s.legs[n];
      if !leg.opt.FUT? {
        prem := prem + leg.entry * leg.qty as real * Sign(leg);
      }
    }
    assert s.legs[..|s.legs|] == s.legs;
  }

  function IntrinsicAt(legs: seq<Leg>, spot: real): real {
    if legs == [] then 0.0
    else
      var l := legs[|legs| - 1];
      IntrinsicAt(legs[..|legs| - 1], spot) + Sign(l) * l.qty as real * Intrinsic(l.opt, l.strike, spot)
  }

  /** An options-only structure settles at what its options are worth less the premium paid. */
  lemma {:induction false} PayoffLessPremium(legs: seq<Leg>, spot: real)
    requires forall n :: 0 <= n < |legs| ==> !legs[n].opt.FUT?
    ensures PayoffAt(legs, spot) == IntrinsicAt(legs, spot) - Premium(legs)
  {
    if legs == [] {
    } else {
      PayoffLessPremium(legs[..|legs| - 1], spot);
    }
  }

  // --- scaling -------------------------------------------------------------------------------------

  function ScaledLeg(l: Leg, lots: int): Leg { l.(qty := l.qty * lots) }

  function ScaledLegs(legs: seq<Leg>, lots: int): seq<Leg> {
    seq(|legs|, n requires 0 <= n < |legs| => ScaledLeg(legs[n], lots))
  }

  lemma LegScales(l: Leg, lots: int, spot: real)
    ensures LegPayoff(ScaledLeg(l, lots), spot) == LegPayoff(l, spot) * lots as real
  {
    var v := PerUnit(l, spot);
    assert (l.qty * lots) as real == l.qty as real * lots as real;
    Associate(v, l.qty as real, lots as real);
  }

  lemma Associate(a: real, b: real, c: real)
    ensures a * (b * c) == a * b * c
  {
  }

  lemma {:induction false} SumScales(f: Leg -> real, legs: seq<Leg>, lots: int, c: real)
    requires forall n :: 0 <= n < |legs| ==> f(ScaledLeg(legs[n], lots)) == f(legs[n]) * c
    ensures SumOf(f, ScaledLegs(legs, lots)) == SumOf(f, legs) * c
  {
    if legs == [] {
    } else {
      var m := |legs| - 1;
      var init, l := legs[..m], legs[m];
      var scaled := ScaledLegs(legs, lots);
      assert scaled[..m] == ScaledLegs(init, lots) && scaled[m] == ScaledLeg(l, lots);
      SumScales(f, init, lots, c);
      assert f(ScaledLeg(l, lots)) == f(l) * c;
      AddScaled(SumOf(f, scaled[..m]), f(scaled[m]), SumOf(f, init), f(l), c);
    }
  }

  lemma AddScaled(p': real, l': real, p: real, l: real, c: real)
    requires p' == p * c && l' == l * c
    ensures p' + l' == (p + l) * c
  {
  }

  lemma EachScales(f: Leg -> real, legs: seq<Leg>, lots: int, spot: real)
    requires f == AtSpot(spot)
    ensures forall n :: 0 <= n < |legs| ==> f(ScaledLeg(legs[n], lots)) == f(legs[n]) * lots as real
  {
    forall n | 0 <= n < |legs| ensures f(ScaledLeg(legs[n], lots)) == f(legs[n]) * lots as real {
      LegScales(legs[n], lots, spot);
    }
  }

  lemma PayoffScales(legs: seq<Leg>, lots: int, spot: real, c: real)
    requires c == lots as real
    ensures PayoffAt(ScaledLegs(legs, lots), spot) == PayoffAt(legs, spot) * c
  {
    EachScales(AtSpot(spot), legs, lots, spot);
    ScalesBy(AtSpot(spot), legs, lots, c);
  }

  lemma ScalesBy(f: Leg -> real, legs: seq<Leg>, lots: int, c: real)
    requires c == lots as real
    requires forall n :: 0 <= n < |legs| ==> f(ScaledLeg(legs[n], lots)) == f(legs[n]) * lots as real
    ensures SumOf(f, ScaledLegs(legs, lots)) == SumOf(f, legs) * c
  {
    SumScales(f, legs, lots, c);
  }

  // --- the scan ------------------------------------------------------------------------------------

  function Along(lo: real, d: real, t: real): real { lo + d * t }

  /** Point i of numpy's linspace with n points. */
  function Point(lo: real, hi: real, n: nat, i: nat): real requires n >= 2 {
    Along(lo, hi - lo, i as real / (n - 1) as real)
  }

  lemma AlongBetween(lo: real, d: real, t: real)
    requires d >= 0.0 && 0.0 <= t <= 1.0
    ensures lo <= Along(lo, d, t) <= lo + d
  {
    assert d * t >= 0.0 && d * (1.0 - t) >= 0.0;
  }

  lemma Fraction(i: real, m: real)
    requires m > 0.0 && 0.0 <= i <= m
    ensures 0.0 <= i / m <= 1.0 && m / m == 1.0 && 0.0 / m == 0.0
  {
    assert i == i / m * m;
  }

  lemma PointInside(lo: real, hi: real, n: nat, i: nat)
    requires n >= 2 && i < n && lo <= hi
    ensures lo <= Point(lo, hi, n, i) <= hi
  {
    var t := i as real / (n - 1) as real;
    assert 0.0 <= t <= 1.0 by { Fraction(i as real, (n - 1) as real); }
    AlongBetween(lo, hi - lo, t);
  }

  lemma PointEnds(lo: real, hi: real, n: nat)
    requires n >= 2
    ensures Point(lo, hi, n, 0) == lo && Point(lo, hi, n, n - 1) == hi
  {
    var m := (n - 1) as real;
    Fraction(m, m);
    assert Point(lo, hi, n, 0) == lo + (hi - lo) * (0.0 / m);
    assert Point(lo, hi, n, n - 1) == lo + (hi - lo) * (m / m);
  }

  function Linspace(lo: real, hi: real, n: nat): seq<real> requires n >= 2 {
    seq(n, i requires 0 <= i < n => Point(lo, hi, n, i))
  }

  ghost predicate Spans(spots: seq<real>, lo: real, hi: real) {
    && |spots| >= 2 && spots[0] == lo && spots[|spots| - 1] == hi
    && forall i :: 0 <= i < |spots| ==> lo <= spots[i] <= hi
  }

  lemma LinspaceSpans(lo: real, hi: real, n: nat)
    requires n >= 2 && lo <= hi
    ensures Spans(Linspace(lo, hi, n), lo, hi)
  {
    forall i | 0 <= i < n ensures lo <= Linspace(lo, hi, n)[i] <= hi { PointInside(lo, hi, n, i); }
    PointEnds(lo, hi, n);
  }

  function ScanMin(pay: real -> real, spots: seq<real>): (r: real)
    requires spots != []
    ensures exists i :: 0 <= i < |spots| && r == pay(spots[i])
    ensures forall i :: 0 <= i < |spots| ==> r <= pay(spots[i])
    decreases |spots|
  {
    var p := pay(spots[|spots| - 1]);
    if |spots| == 1 then p else MinR(ScanMin(pay, spots[..|spots| - 1]), p)
  }

  const POINTS: nat := 600

  /** `max_loss` of `profile`. */
  function ProfileMin(pay: real -> real, lo: real, hi: real): real { ScanMin(pay, Linspace(lo, hi, POINTS)) }

  function PayoffOf(legs: seq<Leg>): real -> real { s => PayoffAt(legs, s) }

  /** No settlement price, in a scanned range or outside it, loses more than `total`. */
  ghost predicate LossWithin(legs: seq<Leg>, total: real) { forall s :: PayoffAt(legs, s) >= -total }

  // --- defined risk --------------------------------------------------------------------------------

  function Clamp(x: real, w: real): real { if x <= 0.0 then 0.0 else if x >= w then w else x }

  /** A structure that keeps `k` between a and c, and gives up at most a-b below and d-c above. */
  datatype Tent = Tent(k: real, b: real, a: real, c: real, d: real) {
    predicate Ordered() { b <= a <= c <= d }

    function Value(s: real): real { k - Clamp(a - s, a - b) - Clamp(s - c, d - c) }

    function Worst(): real { k - MaxR(a - b, d - c) }
  }

  lemma WorstIsLeast(t: Tent, s: real)
    requires t.Ordered()
    ensures t.Value(s) >= t.Worst() && MinR(t.Value(t.b), t.Value(t.d)) == t.Worst()
  {
  }

  lemma EndsAreLeast(t: Tent, lo: real, s: real, hi: real)
    requires t.Ordered() && lo <= s <= hi
    ensures t.Value(s) >= MinR(t.Value(lo), t.Value(hi))
  {
  }

  /** The range reaches the outer strike of the wider wing. */
  predicate Reaches(t: Tent, lo: real, hi: real) {
    || MaxR(t.a - t.b, t.d - t.c) == 0.0
    || (t.a - t.b >= t.d - t.c && lo <= t.b)
    || (t.d - t.c >= t.a - t.b && hi >= t.d)
  }

  lemma EndsExactlyWhenReached(t: Tent, lo: real, hi: real)
    requires t.Ordered() && lo <= hi
    ensures MinR(t.Value(lo), t.Value(hi)) == t.Worst() <==> Reaches(t, lo, hi)
  {
  }

  ghost predicate Growing(f: real -> real) { forall x, y :: x < y ==> f(x) < f(y) }

  /** Up to a growing change of units, the payoff is the tent. */
  ghost predicate HasShape(pay: real -> real, units: real -> real, t: Tent) {
    Growing(units) && t.Ordered() && forall s :: pay(s) == units(t.Value(s))
  }

  function Least(pay: real -> real, lo: real, hi: real): real { MinR(pay(lo), pay(hi)) }

  lemma LeastBetween(pay: real -> real, units: real -> real, t: Tent, lo: real, s: real, hi: real)
    requires HasShape(pay, units, t) && lo <= s <= hi
    ensures pay(s) >= Least(pay, lo, hi)
  {
    EndsAreLeast(t, lo, s, hi);
  }

  lemma ScanFindsEnd(pay: real -> real, spots: seq<real>, lo: real, hi: real)
    requires Spans(spots, lo, hi) && forall s :: lo <= s <= hi ==> pay(s) >= Least(pay, lo, hi)
    ensures ScanMin(pay, spots) == Least(pay, lo, hi)
  {
    var r := ScanMin(pay, spots);
    assert r <= pay(spots[0]) && r <= pay(spots[|spots| - 1]);
  }

  lemma ScanIsAnEnd(pay: real -> real, units: real -> real, t: Tent, lo: real, hi: real)
    requires HasShape(pay, units, t) && lo <= hi
    ensures ProfileMin(pay, lo, hi) == Least(pay, lo, hi)
  {
    LinspaceSpans(lo, hi, POINTS);
    forall s | lo <= s <= hi ensures pay(s) >= Least(pay, lo, hi) { LeastBetween(pay, units, t, lo, s, hi); }
    ScanFindsEnd(pay, Linspace(lo, hi, POINTS), lo, hi);
  }

  ghost predicate IsMinimum(r: real, pay: real -> real) {
    (forall s :: pay(s) >= r) && exists s :: pay(s) == r
  }

  lemma WorstIsMinimum(pay: real -> real, units: real -> real, t: Tent)
    requires HasShape(pay, units, t)
    ensures IsMinimum(units(t.Worst()), pay)
  {
    WorstIsLeast(t, t.b);
    var at := if t.Value(t.b) <= t.Value(t.d) then t.b else t.d;
    assert pay(at) == units(t.Worst());
    forall s ensures pay(s) >= units(t.Worst()) { WorstIsLeast(t, s); }
  }

  /** The 600-point scan finds the least payoff over every spot exactly when it reaches the losing strike. */
  lemma ScanExactIff(pay: real -> real, units: real -> real, t: Tent, lo: real, hi: real)
    requires HasShape(pay, units, t) && lo <= hi
    ensures IsMinimum(ProfileMin(pay, lo, hi), pay) <==> Reaches(t, lo, hi)
  {
    ScanIsAnEnd(pay, units, t, lo, hi);
    WorstIsMinimum(pay, units, t);
    EndsExactlyWhenReached(t, lo, hi);
    WorstIsLeast(t, lo);
    WorstIsLeast(t, hi);
  }
}
