/** features/options.py: the settlement at which option holders are paid least. */
module MaxPain {
  import opened Numbers
  import opened Options
  import opened Payoffs

  datatype Row = Row(opt: OptType, strike: real, oi: real)

  /** numpy's unique: each strike once, ascending. */
  function Unique(chain: seq<Row>): seq<real> {
    if chain == [] then [] else Insert(Unique(chain[..|chain| - 1]), chain[|chain| - 1].strike)
  }

  function Insert(ks: seq<real>, k: real): seq<real> {
    if ks == [] || k < ks[0] then [k] + ks
    else if k == ks[0] then ks
    else [ks[0]] + Insert(ks[1..], k)
  }

  predicate Ascending(ks: seq<real>) { forall i, j :: 0 <= i < j < |ks| ==> ks[i] < ks[j] }

  lemma {:induction false} InsertKeeps(ks: seq<real>, k: real)
    requires Ascending(ks)
    ensures Ascending(Insert(ks, k)) && forall x :: x in Insert(ks, k) <==> x in ks || x == k
  {
    if ks == [] || k <= ks[0] {
    } else {
      InsertKeeps(ks[1..], k);
      var rest := Insert(ks[1..], k);
      forall j | 0 <= j < |rest| ensures ks[0] < rest[j] { assert rest[j] in rest; }
      assert forall x :: x in ks <==> x == ks[0] || x in ks[1..];
    }
  }

  lemma {:induction false} UniqueIs(chain: seq<Row>)
    ensures Ascending(Unique(chain)) && (chain != [] ==> Unique(chain) != [])
    ensures forall n :: 0 <= n < |chain| ==> chain[n].strike in Unique(chain)
    ensures forall k :: k in Unique(chain) ==> exists n :: 0 <= n < |chain| && chain[n].strike == k
  {
    if chain == [] {
    } else {
      var m := |chain| - 1;
      UniqueIs(chain[..m]);
      InsertKeeps(Unique(chain[..m]), chain[m].strike);
      assert chain[m].strike in Unique(chain);
      forall n | 0 <= n < m ensures chain[n].strike in Unique(chain) { assert chain[..m][n] == chain[n]; }
      forall k | k in Unique(chain) ensures exists n :: 0 <= n < |chain| && chain[n].strike == k {
        if k in Unique(chain[..m]) {
          var n :| 0 <= n < m && chain[..m][n].strike == k;
          assert chain[n].strike == k;
        }
      }
    }
  }

  // --- what holders are paid -----------------------------------------------------------------------

  function PaidOn(r: Row, s: real): real {
    match r.opt
    case CE => MaxR(s - r.strike, 0.0) * r.oi
    case PE => MaxR(r.strike - s, 0.0) * r.oi
    case FUT => 0.0
  }

  /** Total payout when the underlying settles at s. */
  function Pain(chain: seq<Row>, s: real): real { Sum(PaidAt(s), chain) }

  function PaidAt(s: real): Row -> real { (r: Row) => PaidOn(r, s) }

  function Sum(f: Row -> real, chain: seq<Row>): real {
    if chain == [] then 0.0 else Sum(f, chain[..|chain| - 1]) + f(chain[|chain| - 1])
  }

  method MaxPain(chain: seq<Row>) returns (best: Option<real>)
    ensures best.None? <==> chain == []
    ensures best.Some? ==>
              && LeastListed(chain, best.value)
              && forall k :: k in Unique(chain) && k < best.value ==> Pain(chain, best.value) < Pain(chain, k)
  {
    UniqueIs(chain);
    var strikes := Unique(chain);
    best := None;
    var bestPain := 0.0;
    for i := 0 to |strikes|
      invariant best.None? <==> i == 0
      invariant best.Some? ==> best.value in strikes[..i] && bestPain == Pain(chain, best.value)
      invariant best.Some? ==> forall j :: 0 <= j < i ==>
                  && bestPain <= Pain(chain, strikes[j])
                  && (strikes[j] < best.value ==> bestPain < Pain(chain, strikes[j]))
    {
      var k := strikes[i];
      var pain := Pain(chain, k);
      if best.None? || pain < bestPain {
        bestPain, best := pain, Some(k);
      }
    }
  }

  // --- linear between strikes ----------------------------------------------------------------------

  function Step(r: Row, s: real): real {
    match r.opt
    case CE => if r.strike <= s then r.oi else 0.0
    case PE => if r.strike > s then -r.oi else 0.0
    case FUT => 0.0
  }

  function StepAt(s: real): Row -> real { (r: Row) => Step(r, s) }

  /** How fast the payout grows just above s. */
  function Slope(chain: seq<Row>, s: real): real { Sum(StepAt(s), chain) }

  function Run(slope: real, d: real): real { slope * d }

  lemma RunAdds(m: real, n: real, d: real)
    ensures Run(m, d) + Run(n, d) == Run(m + n, d)
  {
  }

  predicate NoStrikeBetween(chain: seq<Row>, a: real, b: real) {
    forall n :: 0 <= n < |chain| ==> !(a < chain[n].strike < b)
  }

  lemma PaidLinear(r: Row, a: real, s: real)
    requires a <= s && !(a < r.strike < s)
    ensures PaidOn(r, s) == PaidOn(r, a) + Run(Step(r, a), s - a)
  {
    match r.opt
    case CE => Distribute(MaxR(a - r.strike, 0.0), s - a, r.oi);
    case PE => Distribute(MaxR(r.strike - s, 0.0), s - a, r.oi);
    case FUT =>
  }

  lemma Distribute(x: real, y: real, q: real)
    ensures (x + y) * q == x * q + y * q && y * q == q * y && -q * y == -(q * y)
  {
  }

  lemma {:induction false} SumLinear(f: Row -> real, g: Row -> real, h: Row -> real, d: real, chain: seq<Row>)
    requires forall n :: 0 <= n < |chain| ==> f(chain[n]) == g(chain[n]) + Run(h(chain[n]), d)
    ensures Sum(f, chain) == Sum(g, chain) + Run(Sum(h, chain), d)
  {
    if chain == [] {
    } else {
      var m := |chain| - 1;
      SumLinear(f, g, h, d, chain[..m]);
      RunAdds(Sum(h, chain[..m]), h(chain[m]), d);
    }
  }

  lemma PainLinear(chain: seq<Row>, a: real, s: real)
    requires a <= s && NoStrikeBetween(chain, a, s)
    ensures Pain(chain, s) == Pain(chain, a) + Run(Slope(chain, a), s - a)
  {
    forall n | 0 <= n < |chain| ensures PaidAt(s)(chain[n]) == PaidAt(a)(chain[n]) + Run(StepAt(a)(chain[n]), s - a) {
      PaidLinear(chain[n], a, s);
    }
    SumLinear(PaidAt(s), PaidAt(a), StepAt(a), s - a, chain);
  }

  function OiIf(o: OptType): Row -> real { (r: Row) => if r.opt == o then r.oi else 0.0 }

  function OpenInterest(chain: seq<Row>, o: OptType): real { Sum(OiIf(o), chain) }

  lemma {:induction false} SumSame(f: Row -> real, g: Row -> real, chain: seq<Row>, c: real)
    requires (c == 1.0 || c == -1.0) && forall n :: 0 <= n < |chain| ==> f(chain[n]) == c * g(chain[n])
    ensures Sum(f, chain) == c * Sum(g, chain)
  {
    if chain == [] {
    } else {
      SumSame(f, g, chain[..|chain| - 1], c);
    }
  }

  // --- the minimum ---------------------------------------------------------------------------------

  lemma Tilted(m: real, x: real, d: real)
    requires 0.0 <= x <= d
    ensures m >= 0.0 ==> Run(m, x) >= 0.0
    ensures m <= 0.0 ==> Run(m, x) >= Run(m, d)
    ensures Run(-m, x) == -Run(m, x)
  {
    assert m <= 0.0 ==> m * (d - x) <= 0.0;
  }

  lemma AboveAll(chain: seq<Row>, top: real, s: real)
    requires (forall n :: 0 <= n < |chain| ==> chain[n].strike <= top) && top <= s
    ensures Pain(chain, s) == Pain(chain, top) + Run(OpenInterest(chain, CE), s - top)
  {
    PainLinear(chain, top, s);
    SumSame(StepAt(top), OiIf(CE), chain, 1.0);
  }

  lemma BelowAll(chain: seq<Row>, low: real, s: real)
    requires (forall n :: 0 <= n < |chain| ==> chain[n].strike >= low) && s < low
    ensures Pain(chain, s) == Pain(chain, low) + Run(OpenInterest(chain, PE), low - s)
  {
    PainLinear(chain, s, low);
    SumSame(StepAt(s), OiIf(PE), chain, -1.0);
    Tilted(OpenInterest(chain, PE), low - s, low - s);
  }

  lemma BetweenTwo(chain: seq<Row>, a: real, b: real, s: real)
    requires a <= s <= b && NoStrikeBetween(chain, a, b)
    ensures Pain(chain, s) >= MinR(Pain(chain, a), Pain(chain, b))
  {
    PainLinear(chain, a, s);
    PainLinear(chain, a, b);
    Tilted(Slope(chain, a), s - a, b - a);
  }

  lemma {:induction false} Bracket(ks: seq<real>, s: real) returns (i: nat)
    requires ks != [] && ks[0] <= s
    ensures i < |ks| && ks[i] <= s && (i + 1 < |ks| ==> s < ks[i + 1])
  {
    i := 0;
    if |ks| == 1 || ks[1] > s {
    } else {
      var j := Bracket(ks[1..], s);
      i := j + 1;
    }
  }

  ghost predicate GlobalMinimum(chain: seq<Row>, k: real) { forall s :: Pain(chain, k) <= Pain(chain, s) }

  ghost predicate LeastListed(chain: seq<Row>, k: real) {
    k in Unique(chain) && forall k' :: k' in Unique(chain) ==> Pain(chain, k) <= Pain(chain, k')
  }

  lemma LeastBelow(chain: seq<Row>, low: real, s: real)
    requires OpenInterest(chain, PE) >= 0.0 && s < low && forall n :: 0 <= n < |chain| ==> chain[n].strike >= low
    ensures Pain(chain, low) <= Pain(chain, s)
  {
    BelowAll(chain, low, s);
    LeastOutside(Pain(chain, low), OpenInterest(chain, PE), low - s);
  }

  lemma LeastAbove(chain: seq<Row>, top: real, s: real)
    requires OpenInterest(chain, CE) >= 0.0 && top <= s && forall n :: 0 <= n < |chain| ==> chain[n].strike <= top
    ensures Pain(chain, top) <= Pain(chain, s)
  {
    AboveAll(chain, top, s);
    LeastOutside(Pain(chain, top), OpenInterest(chain, CE), s - top);
  }

  lemma LeastEverywhere(chain: seq<Row>, k: real, s: real)
    requires LeastListed(chain, k) && OpenInterest(chain, CE) >= 0.0 && OpenInterest(chain, PE) >= 0.0
    ensures Pain(chain, k) <= Pain(chain, s)
  {
    var ks := Unique(chain);
    UniqueIs(chain);
    if s < ks[0] {
      LeastBelow(chain, ks[0], s);
    } else {
      var i := Bracket(ks, s);
      assert ks[i] in ks;
      if i + 1 < |ks| {
        assert ks[i + 1] in ks;
        BetweenTwo(chain, ks[i], ks[i + 1], s);
      } else {
        LeastAbove(chain, ks[i], s);
      }
    }
  }

  lemma LeastOutside(p: real, slope: real, d: real)
    requires slope >= 0.0 && d >= 0.0
    ensures p <= p + Run(slope, d)
  {
    Tilted(slope, d, d);
  }

  /** How far to go down a falling line to end below any level. */
  lemma FallsBelow(p: real, m: real, level: real) returns (d: real)
    requires m < 0.0
    ensures d >= 1.0 && p + Run(m, d) < level
  {
    var q := (p - level) / (-m);
    d := if q > 0.0 then q + 1.0 else 1.0;
    Divided(p - level, -m, q);
    assert Run(m, q) == level - p;
    Distribute(q, 1.0, m);
    Sign(m, q);
  }

  lemma Divided(a: real, n: real, q: real)
    requires n > 0.0 && q == a / n
    ensures q * n == a && Run(-n, q) == -a
  {
  }

  lemma Sign(m: real, q: real)
    requires m < 0.0
    ensures q <= 0.0 ==> Run(m, q) >= 0.0
  {
  }

  /** The strike found among those listed is the least over every settlement price exactly when neither the calls nor
      the puts are net short of open interest. */
  lemma MaxPainIsGlobalIff(chain: seq<Row>, k: real)
    requires LeastListed(chain, k)
    ensures GlobalMinimum(chain, k) <==> OpenInterest(chain, CE) >= 0.0 && OpenInterest(chain, PE) >= 0.0
  {
    var ks := Unique(chain);
    UniqueIs(chain);
    if OpenInterest(chain, CE) < 0.0 {
      var top := ks[|ks| - 1];
      var d := FallsBelow(Pain(chain, top), OpenInterest(chain, CE), Pain(chain, k));
      AboveAll(chain, top, top + d);
      assert Pain(chain, top + d) < Pain(chain, k);
    } else if OpenInterest(chain, PE) < 0.0 {
      var d := FallsBelow(Pain(chain, ks[0]), OpenInterest(chain, PE), Pain(chain, k));
      BelowAll(chain, ks[0], ks[0] - d);
      assert Pain(chain, ks[0] - d) < Pain(chain, k);
    } else {
      forall s ensures Pain(chain, k) <= Pain(chain, s) { LeastEverywhere(chain, k, s); }
    }
  }

  lemma {:induction false} NonNegativeOi(chain: seq<Row>, o: OptType)
    requires forall n :: 0 <= n < |chain| ==> chain[n].oi >= 0.0
    ensures OpenInterest(chain, o) >= 0.0
  {
    if chain == [] {
    } else {
      NonNegativeOi(chain[..|chain| - 1], o);
    }
  }
}
