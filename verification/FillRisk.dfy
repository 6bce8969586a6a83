/** execution/structures.py: the risk of a multi-leg structure as it was filled. */
module FillRisk {
  import opened Numbers
  import opened Payoffs

  datatype Plan =
    | Vertical(opt: OptType, longLeg: real, shortLeg: real)
    | Condor(shortCall: real, shortPut: real, longCall: real, longPut: real)
  {
    predicate Wellformed() {
      match this
      case Vertical(opt, _, _) => opt != FUT
      case Condor(sc, sp, lc, lp) => lp <= sp <= sc <= lc
    }

    /** Pays when it is opened: the long strike is nearer the money than the short one. */
    predicate Debit() { Vertical? && if opt.CE? then longLeg <= shortLeg else longLeg >= shortLeg }

    /** Both sides of a condor equally wide. */
    predicate Symmetric() { Condor? ==> longCall - shortCall == shortPut - longPut }
  }

  function StructureWidth(p: Plan): real {
    match p
    case Vertical(_, long, short) => AbsR(short - long)
    case Condor(sc, _, lc, _) => AbsR(sc - lc)
  }

  function LegsFromStructure(p: Plan): seq<(OptType, real, Side)> {
    match p
    case Vertical(opt, long, short) => [(opt, long, BUY), (opt, short, SELL)]
    case Condor(sc, sp, lc, lp) => [(CE, sc, SELL), (CE, lc, BUY), (PE, sp, SELL), (PE, lp, BUY)]
  }

  /** The legs of a plan, each filled for q units at its price. */
  function Filled(p: Plan, q: int, prices: seq<real>): seq<Leg>
    requires |prices| == |LegsFromStructure(p)|
  {
    seq(|prices|, n requires 0 <= n < |prices| =>
      var l := LegsFromStructure(p)[n]; Leg(l.0, l.1, l.2, q, prices[n]))
  }

  function Cash(l: Leg): real { if l.side.SELL? then l.entry * l.qty as real else -l.entry * l.qty as real }

  function NetPremiumReceived(legs: seq<Leg>): real { SumOf(Cash, legs) }

  datatype Risk = Risk(net: real, maxLoss: real, maxProfit: real)

  function FillBasedRisk(p: Plan, legs: seq<Leg>): Risk { RiskOf(NetPremiumReceived(legs), WidthValue(p, legs)) }

  function WidthValue(p: Plan, legs: seq<Leg>): real {
    if legs == [] then 0.0 else StructureWidth(p) * legs[0].qty as real
  }

  function RiskOf(net: real, width: real): Risk {
    if net >= 0.0 then Risk(net, MaxR(0.01, width - net), MaxR(0.01, net))
    else Risk(net, MaxR(0.01, -net), MaxR(0.01, width + net))
  }

  // --- the payoff at expiry ------------------------------------------------------------------------

  function UnitCash(l: Leg): real { if l.side.SELL? then l.entry else -l.entry }

  function UnitNet(legs: seq<Leg>): real requires |legs| == 2 || |legs| == 4 {
    if |legs| == 2 then UnitCash(legs[0]) + UnitCash(legs[1])
    else UnitCash(legs[0]) + UnitCash(legs[1]) + (UnitCash(legs[2]) + UnitCash(legs[3]))
  }

  /** What one unit pays, opened for a net n. */
  function TentOf(p: Plan, n: real): Tent {
    match p
    case Vertical(opt, long, short) =>
      if p.Debit() then
        if opt.CE? then Tent(n + short - long, long, short, short, short)
        else Tent(n + long - short, short, short, short, long)
      else if opt.CE? then Tent(n, short, short, short, long) else Tent(n, long, short, short, short)
    case Condor(sc, sp, lc, lp) => Tent(n, lp, sp, sc, lc)
  }

  function Rupees(x: real, q: nat): real { x * q as real }

  lemma RupeesAdd(a: real, b: real, q: nat)
    ensures Rupees(a, q) + Rupees(b, q) == Rupees(a + b, q)
  {
    Distribute(a, b, q as real);
  }

  lemma Distribute(a: real, b: real, q: real)
    ensures a * q + b * q == (a + b) * q
  {
  }

  lemma RupeesGrow(a: real, b: real, q: nat)
    requires a <= b
    ensures Rupees(a, q) <= Rupees(b, q)
  {
    Grow(a, b, q as real);
  }

  lemma Grow(a: real, b: real, q: real)
    requires a <= b && q >= 0.0
    ensures a * q <= b * q
  {
  }

  lemma LegInRupees(l: Leg, s: real, q: nat)
    requires l.qty == q
    ensures LegPayoff(l, s) == Rupees(PerUnit(l, s), q) && Cash(l) == Rupees(UnitCash(l), q)
  {
    Negated(l.entry, q as real);
  }

  lemma Negated(a: real, q: real)
    ensures -a * q == -(a * q)
  {
  }

  /** A sum of amounts for q units each is the sum per unit, times q. */
  lemma SumPerUnit(f: Leg -> real, g: Leg -> real, ls: seq<Leg>, q: nat) returns (u: real)
    requires |ls| == 2 || |ls| == 4
    requires forall n :: 0 <= n < |ls| ==> f(ls[n]) == Rupees(g(ls[n]), q)
    ensures u == if |ls| == 2 then g(ls[0]) + g(ls[1]) else g(ls[0]) + g(ls[1]) + (g(ls[2]) + g(ls[3]))
    ensures SumOf(f, ls) == Rupees(u, q)
  {
    RupeesAdd(g(ls[0]), g(ls[1]), q);
    if |ls| == 2 {
      SumOfTwo(f, ls);
      u := g(ls[0]) + g(ls[1]);
    } else {
      SumOfFour(f, ls);
      RupeesAdd(g(ls[2]), g(ls[3]), q);
      RupeesAdd(g(ls[0]) + g(ls[1]), g(ls[2]) + g(ls[3]), q);
      u := g(ls[0]) + g(ls[1]) + (g(ls[2]) + g(ls[3]));
    }
  }

  lemma TentPerUnit(p: Plan, q: nat, prices: seq<real>, s: real)
    requires p.Wellformed() && |prices| == |LegsFromStructure(p)|
    ensures var ls := Filled(p, q, prices);
            TentOf(p, UnitNet(ls)).Value(s) ==
            if |ls| == 2 then PerUnit(ls[0], s) + PerUnit(ls[1], s)
            else PerUnit(ls[0], s) + PerUnit(ls[1], s) + (PerUnit(ls[2], s) + PerUnit(ls[3], s))
  {
  }

  lemma FilledPayoff(p: Plan, q: nat, prices: seq<real>, s: real)
    requires p.Wellformed() && |prices| == |LegsFromStructure(p)|
    ensures var ls := Filled(p, q, prices);
            PayoffAt(ls, s) == Rupees(TentOf(p, UnitNet(ls)).Value(s), q)
  {
    var ls := Filled(p, q, prices);
    var g := (l: Leg) => PerUnit(l, s);
    forall n | 0 <= n < |ls| ensures AtSpot(s)(ls[n]) == Rupees(g(ls[n]), q) { LegInRupees(ls[n], s, q); }
    var u := SumPerUnit(AtSpot(s), g, ls, q);
    TentPerUnit(p, q, prices, s);
  }

  lemma FilledNet(p: Plan, q: nat, prices: seq<real>)
    requires |prices| == |LegsFromStructure(p)|
    ensures var ls := Filled(p, q, prices);
            NetPremiumReceived(ls) == Rupees(UnitNet(ls), q) && WidthValue(p, ls) == Rupees(StructureWidth(p), q)
  {
    var ls := Filled(p, q, prices);
    forall n | 0 <= n < |ls| ensures Cash(ls[n]) == Rupees(UnitCash(ls[n]), q) { LegInRupees(ls[n], 0.0, q); }
    var u := SumPerUnit(Cash, UnitCash, ls, q);
  }

  // --- enclosure -----------------------------------------------------------------------------------

  lemma TentBest(t: Tent, s: real)
    requires t.Ordered()
    ensures t.Value(s) <= t.k && t.Value(t.a) == t.k
  {
  }

  /** The wider wing, in rupees. */
  function Wide(p: Plan, q: nat): real {
    match p
    case Vertical(_, long, short) => Rupees(AbsR(short - long), q)
    case Condor(sc, sp, lc, lp) => Rupees(MaxR(sp - lp, lc - sc), q)
  }

  function Worst(p: Plan, q: nat, net: real): real { if p.Debit() then net else net - Wide(p, q) }

  function Best(p: Plan, q: nat, net: real): real { if p.Debit() then net + Wide(p, q) else net }

  lemma ExtremesInRupees(p: Plan, q: nat, n: real)
    requires p.Wellformed()
    ensures var t := TentOf(p, n);
            && t.Ordered()
            && Rupees(t.Worst(), q) == Worst(p, q, Rupees(n, q)) && Rupees(t.k, q) == Best(p, q, Rupees(n, q))
  {
    var w := if p.Vertical? then AbsR(p.shortLeg - p.longLeg)
             else MaxR(p.shortPut - p.longPut, p.longCall - p.shortCall);
    var t := TentOf(p, n);
    assert t.Ordered() && Wide(p, q) == Rupees(w, q);
    RupeesAdd(n, w, q);
    RupeesAdd(n - w, w, q);
    assert n - w + w == n;
    if p.Debit() {
      assert t.k == n + w && t.Worst() == n;
    } else {
      assert t.k == n && t.Worst() == n - w;
    }
  }

  /** Over every settlement price the filled structure pays between these two, and pays each somewhere. */
  lemma ExpiryRange(p: Plan, q: nat, prices: seq<real>) returns (low: real, high: real)
    requires p.Wellformed() && |prices| == |LegsFromStructure(p)|
    ensures var ls := Filled(p, q, prices);
            var net := NetPremiumReceived(ls);
            && (forall s :: Worst(p, q, net) <= PayoffAt(ls, s) <= Best(p, q, net))
            && PayoffAt(ls, low) == Worst(p, q, net) && PayoffAt(ls, high) == Best(p, q, net)
  {
    var ls := Filled(p, q, prices);
    var net := NetPremiumReceived(ls);
    var t := TentOf(p, UnitNet(ls));
    FilledNet(p, q, prices);
    ExtremesInRupees(p, q, UnitNet(ls));
    forall s ensures Worst(p, q, net) <= PayoffAt(ls, s) <= Best(p, q, net) {
      FilledPayoff(p, q, prices, s);
      WorstIsLeast(t, s);
      TentBest(t, s);
      RupeesGrow(t.Worst(), t.Value(s), q);
      RupeesGrow(t.Value(s), t.k, q);
    }
    low, high := if t.Value(t.b) <= t.Value(t.d) then t.b else t.d, t.a;
    WorstIsLeast(t, low);
    TentBest(t, high);
    FilledPayoff(p, q, prices, low);
    FilledPayoff(p, q, prices, high);
  }

  ghost predicate Encloses(r: Risk, legs: seq<Leg>) { forall s :: -r.maxLoss <= PayoffAt(legs, s) <= r.maxProfit }

  lemma EnclosesExtremes(p: Plan, q: nat, prices: seq<real>, r: Risk)
    requires p.Wellformed() && |prices| == |LegsFromStructure(p)|
    ensures var ls := Filled(p, q, prices);
            var net := NetPremiumReceived(ls);
            Encloses(r, ls) <==> -r.maxLoss <= Worst(p, q, net) && Best(p, q, net) <= r.maxProfit
  {
    var low, high := ExpiryRange(p, q, prices);
  }

  /** What the one-paisa floors leave room for. */
  function Slack(net: real): real { MaxR(0.0, 0.01 - AbsR(net)) }

  lemma RiskOfEncloses(net: real, width: real, wide: real)
    requires width >= 0.0
    ensures var r := RiskOf(net, width);
            && (-r.maxLoss <= net - wide && net <= r.maxProfit <==> wide <= net + r.maxLoss)
            && (-r.maxLoss <= net - width && net <= r.maxProfit <==> net >= 0.0 || width <= Slack(net))
            && (-r.maxLoss <= net && net + width <= r.maxProfit <==> net < 0.0 || width <= Slack(net))
  {
  }

  lemma WideIsWidth(p: Plan, q: nat, prices: seq<real>)
    requires p.Wellformed() && |prices| == |LegsFromStructure(p)|
    ensures WidthValue(p, Filled(p, q, prices)) >= 0.0
    ensures p.Symmetric() ==> Wide(p, q) == WidthValue(p, Filled(p, q, prices))
  {
    FilledNet(p, q, prices);
    RupeesGrow(0.0, StructureWidth(p), q);
  }

  /** Verticals and symmetric condors: every settlement pays within [-max loss, max profit] exactly when a credit
      structure was filled for a credit, or a debit one for a debit (or the width is lost in the paisa floors). */
  lemma FillRiskEnclosesIff(p: Plan, q: nat, prices: seq<real>)
    requires p.Wellformed() && p.Symmetric() && |prices| == |LegsFromStructure(p)|
    ensures var ls := Filled(p, q, prices);
            var net := NetPremiumReceived(ls);
            Encloses(FillBasedRisk(p, ls), ls)
            <==> (if p.Debit() then net < 0.0 else net >= 0.0) || WidthValue(p, ls) <= Slack(net)
  {
    var ls := Filled(p, q, prices);
    EnclosesExtremes(p, q, prices, FillBasedRisk(p, ls));
    WideIsWidth(p, q, prices);
    RiskOfEncloses(NetPremiumReceived(ls), WidthValue(p, ls), Wide(p, q));
  }

  /** How wide a structure the recorded loss covers. */
  lemma CoverIs(net: real, width: real)
    ensures net + RiskOf(net, width).maxLoss == MaxR(net + 0.01, if net >= 0.0 then width else 0.0)
  {
  }

  /** A condor of any shape: exactly when its wider side is no wider than its call side (filled for a credit) or than
      the one-paisa floor (filled for a debit), up to that floor. */
  lemma CondorEnclosesIff(p: Plan, q: nat, prices: seq<real>)
    requires p.Condor? && p.Wellformed() && |prices| == 4
    ensures var ls := Filled(p, q, prices);
            var net := NetPremiumReceived(ls);
            Encloses(FillBasedRisk(p, ls), ls)
            <==> Wide(p, q) <= MaxR(net + 0.01, if net >= 0.0 then WidthValue(p, ls) else 0.0)
  {
    var ls := Filled(p, q, prices);
    var net := NetPremiumReceived(ls);
    EnclosesExtremes(p, q, prices, FillBasedRisk(p, ls));
    WideIsWidth(p, q, prices);
    RiskOfEncloses(net, WidthValue(p, ls), Wide(p, q));
    CoverIs(net, WidthValue(p, ls));
  }

  /** A condor with calls 50 apart and puts 100 apart, 75 units filled for 20 each: recorded as risking 2250, it loses
      6000 at the long put. */
  lemma LopsidedCondor()
    ensures var p, prices := Condor(1100.0, 1000.0, 1150.0, 900.0), [20.0, 10.0, 20.0, 10.0];
            var ls := Filled(p, 75, prices);
            && p.Wellformed() && FillBasedRisk(p, ls).maxLoss == 2250.0 && PayoffAt(ls, 900.0) == -6000.0
            && !Encloses(FillBasedRisk(p, ls), ls)
  {
    var p, prices := Condor(1100.0, 1000.0, 1150.0, 900.0), [20.0, 10.0, 20.0, 10.0];
    FilledNet(p, 75, prices);
    FilledPayoff(p, 75, prices, 900.0);
  }

  /** Where the paisa floors do not bite, the worst and best settlements are exactly the recorded ones. */
  lemma FillRiskIsTight(p: Plan, q: nat, prices: seq<real>) returns (low: real, high: real)
    requires p.Wellformed() && p.Symmetric() && |prices| == |LegsFromStructure(p)|
    requires Encloses(FillBasedRisk(p, Filled(p, q, prices)), Filled(p, q, prices))
    requires var r := FillBasedRisk(p, Filled(p, q, prices)); r.maxLoss > 0.01 && r.maxProfit > 0.01
    ensures var ls := Filled(p, q, prices);
            var r := FillBasedRisk(p, ls);
            PayoffAt(ls, low) == -r.maxLoss && PayoffAt(ls, high) == r.maxProfit
  {
    low, high := ExpiryRange(p, q, prices);
    WideIsWidth(p, q, prices);
    FillRiskEnclosesIff(p, q, prices);
  }

  // --- the overrun gate ----------------------------------------------------------------------------

  /** `open_structure` keeps what it filled, rather than unwinding it. */
  predicate Kept(maxLoss: real, modeled: real, overrun: real): (kept: bool)
    ensures kept <==> modeled <= 0.0 || maxLoss <= modeled * overrun
  {
    !(modeled > 0.0 && maxLoss > modeled * overrun)
  }

  /** A kept structure of any shape, filled at any prices, loses at most the allowed overrun of its modelled loss
      exactly when its family pays to open it, or its wider side less what was received fits that overrun. */
  lemma KeptLossBoundedIff(p: Plan, q: nat, prices: seq<real>, modeled: real, overrun: real)
    requires p.Wellformed() && |prices| == |LegsFromStructure(p)| && modeled > 0.0
    requires Kept(FillBasedRisk(p, Filled(p, q, prices)).maxLoss, modeled, overrun)
    ensures var ls := Filled(p, q, prices);
            var net := NetPremiumReceived(ls);
            && (LossWithin(ls, modeled * overrun) <==> p.Debit() || Wide(p, q) - net <= modeled * overrun)
            && (p.Symmetric() ==>
                  (LossWithin(ls, modeled * overrun)
                   <==> p.Debit() || net >= 0.0 || WidthValue(p, ls) - net <= modeled * overrun))
  {
    var low, high := ExpiryRange(p, q, prices);
    WideIsWidth(p, q, prices);
    GateAt(NetPremiumReceived(Filled(p, q, prices)), WidthValue(p, Filled(p, q, prices)), modeled * overrun);
  }

  /** What the gate lets through, `limit` being the overrun of a positive modelled loss. */
  lemma GateAt(net: real, width: real, limit: real)
    requires RiskOf(net, width).maxLoss <= limit
    ensures limit > 0.0 && net >= -limit && (net >= 0.0 ==> width - net <= limit)
  {
  }

  /** A credit spread filled for a debit: 75 units wide 50, modelled at 2000, recorded as risking 75, loses 3825. */
  lemma CreditFilledForDebit()
    ensures var p, prices := Vertical(PE, 100.0, 150.0), [11.0, 10.0];
            var ls := Filled(p, 75, prices);
            && !p.Debit() && FillBasedRisk(p, ls).maxLoss == 75.0 && Kept(75.0, 2000.0, 1.25)
            && PayoffAt(ls, 100.0) == -3825.0
  {
    var p, prices := Vertical(PE, 100.0, 150.0), [11.0, 10.0];
    FilledNet(p, 75, prices);
    FilledPayoff(p, 75, prices, 100.0);
  }
}
