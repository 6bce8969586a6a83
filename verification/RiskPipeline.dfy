/** fno_signals: sizing.py, risk.py, regime.py and pipeline.py - from a view to a sized, defined-risk structure. */
module RiskPipeline {
  import opened Numbers
  import opened Options
  import opened Payoffs
  import opened StructureChoice

  // --- sizing --------------------------------------------------------------------------------------

  datatype Sizing = Sizing(capital: real, riskPct: real, maxLots: int)

  function FullR(cfg: Sizing): real { cfg.capital * cfg.riskPct / 100.0 }

  function EffectiveR(cfg: Sizing, confidence: real): real { Share(FullR(cfg), MinR(MaxR(confidence, 0.0), 1.0)) }

  function Share(whole: real, c: real): real { whole * c }

  /** Confidence shrinks the budget, in proportion, and never inflates it. */
  lemma EffectiveRBounded(cfg: Sizing, confidence: real)
    requires FullR(cfg) >= 0.0
    ensures 0.0 <= EffectiveR(cfg, confidence) <= FullR(cfg)
    ensures confidence <= 0.0 ==> EffectiveR(cfg, confidence) == 0.0
    ensures confidence >= 1.0 ==> EffectiveR(cfg, confidence) == cfg.capital * cfg.riskPct / 100.0
    ensures 0.0 <= confidence <= 1.0 ==> EffectiveR(cfg, confidence) == cfg.capital * cfg.riskPct / 100.0 * confidence
  {
    Part(FullR(cfg), MinR(MaxR(confidence, 0.0), 1.0));
  }

  lemma Part(whole: real, c: real)
    requires whole >= 0.0 && 0.0 <= c <= 1.0
    ensures 0.0 <= Share(whole, c) <= whole
  {
    assert whole * (1.0 - c) >= 0.0;
  }

  function SizeLots(effR: real, maxLoss: real, cfg: Sizing, remaining: Option<real>): int {
    if maxLoss <= 0.0 then 0
    else
      var lots := MinI((effR / maxLoss).Floor, cfg.maxLots);
      var capped := if remaining.None? then lots else MinI(lots, (MaxR(remaining.value, 0.0) / maxLoss).Floor);
      if capped >= 0 then capped else 0
  }

  lemma FloorCounts(budget: real, each: real, n: int)
    requires each > 0.0
    ensures n <= (budget / each).Floor <==> each * n as real <= budget
  {
    var r, x := budget / each, n as real;
    Quotient(budget, each, r);
    assert n <= r.Floor <==> x <= r;
    Ordered(x, r, each);
  }

  lemma Quotient(budget: real, each: real, r: real)
    requires each > 0.0 && r == budget / each
    ensures each * r == budget
  {
  }

  lemma Ordered(x: real, r: real, each: real)
    requires each > 0.0
    ensures x <= r <==> each * x <= each * r
  {
    Scaled(x, r, each);
    Scaled(r, x, each);
  }

  lemma Scaled(a: real, b: real, q: real)
    requires q > 0.0
    ensures a <= b ==> q * a <= q * b && a * q <= b * q
    ensures a < b ==> q * a < q * b && a * q < b * q
  {
  }

  predicate Affordable(n: int, effR: real, maxLoss: real, cfg: Sizing, remaining: Option<real>) {
    && n <= cfg.maxLots && maxLoss * n as real <= effR
    && (remaining.Some? ==> maxLoss * n as real <= MaxR(remaining.value, 0.0))
  }

  /** The lots taken are the most whose worst case fits every budget. */
  lemma LotsAreMost(effR: real, maxLoss: real, cfg: Sizing, remaining: Option<real>, n: int)
    requires maxLoss > 0.0 && n >= 1
    ensures n <= SizeLots(effR, maxLoss, cfg, remaining) <==> Affordable(n, effR, maxLoss, cfg, remaining)
  {
    FloorCounts(effR, maxLoss, n);
    if remaining.Some? { FloorCounts(MaxR(remaining.value, 0.0), maxLoss, n); }
  }

  // --- routing and the meta filter -----------------------------------------------------------------

  datatype Direction = Bullish | Bearish | Neutral

  datatype Regime = Low | Mid | High

  function IvRegime(rank: real): (r: Regime)
    ensures (r.Low? <==> rank < 30.0) && (r.High? <==> rank > 60.0)
  {
    if rank < 30.0 then Low else if rank > 60.0 then High else Mid
  }

  predicate Credit(f: Family) { f.BullPutCredit? || f.BearCallCredit? || f.IronCondor? }

  function Route(d: Direction, r: Regime, spiking: bool): Option<Family> {
    var family := match d
      case Bullish => if r.High? then BullPutCredit else BullCallDebit
      case Bearish => if r.High? then BearCallCredit else BearPutDebit
      case Neutral => IronCondor;
    if spiking && Credit(family) then None else Some(family)
  }

  function SizeMultiplier(p: real, veto: real, neutral: real): real {
    if p < veto then 0.0 else if p >= neutral then 1.0 else (p - veto) / (neutral - veto)
  }

  /** The confidence scales the size from nothing at the veto to all of it at the neutral mark, in proportion. */
  lemma SizeMultiplierRamps(p: real, veto: real, neutral: real)
    ensures p < veto ==> SizeMultiplier(p, veto, neutral) == 0.0
    ensures veto <= p && neutral <= p ==> SizeMultiplier(p, veto, neutral) == 1.0
    ensures veto <= p < neutral ==>
              && 0.0 <= SizeMultiplier(p, veto, neutral) < 1.0
              && SizeMultiplier(p, veto, neutral) * (neutral - veto) == p - veto
  {
    if veto <= p < neutral { Fractional(p - veto, neutral - veto, SizeMultiplier(p, veto, neutral)); }
  }

  lemma Fractional(x: real, y: real, q: real)
    requires 0.0 <= x < y && q == x / y
    ensures q * y == x && 0.0 <= q < 1.0
  {
    Quotient(x, y, q);
    Ordered(0.0, q, y);
    Ordered(1.0, q, y);
  }

  // --- the decision --------------------------------------------------------------------------------

  datatype RiskState = RiskState(capital: real, dayPnl: real, openR: real, openPositions: int,
                                 dailyLossPct: real, portfolioPct: real, maxConcurrent: int)
  {
    predicate KillSwitch() { dayPnl <= -capital * dailyLossPct / 100.0 }

    function RemainingR(): real { MaxR(0.0, capital * portfolioPct / 100.0 - openR) }

    predicate CanAdd() { openPositions < maxConcurrent }
  }

  /** What the signal and gate steps have found, with the market it was found in. */
  datatype Context = Context(direction: Direction, strength: real, gatesPassed: bool, ivRank: real, spot: real,
                             chain: seq<Quote>, lotSize: nat, step: real)

  datatype Config = Config(sizing: Sizing, widthSteps: int, wingSteps: int, veto: real, neutral: real, buffer: real)

  datatype Reason = Gated | MetaVeto | RouteBlocked | Unavailable | NoLoss | TooSmall | KillSwitch | TooMany | Scenario

  datatype Decision =
    | Rejected(reason: Reason)
    | Accepted(family: Family, structure: Structure, oneLot: Structure, lots: int, qty: int, maxLoss: real,
               confidence: real, sizedR: real)

  function Width(ctx: Context, cfg: Config): real { cfg.widthSteps as real * ctx.step }

  function Wing(ctx: Context, cfg: Config): real { cfg.wingSteps as real * ctx.step }

  function Selector(ctx: Context, cfg: Config): Family -> Option<Structure> {
    (f: Family) => SelectStructure(f, ctx.chain, ctx.spot, ctx.lotSize, Width(ctx, cfg), Wing(ctx, cfg))
  }

  /** `worst` values the scenario grid; its pricing is not part of this model. */
  function Decide(ctx: Context, cfg: Config, risk: RiskState, meta: Option<real>, spiking: bool,
                  worst: Structure -> real): Decision
  {
    DecideWith(ctx, cfg, risk, meta, spiking, worst, Selector(ctx, cfg))
  }

  function DecideWith(ctx: Context, cfg: Config, risk: RiskState, meta: Option<real>, spiking: bool,
                      worst: Structure -> real, select: Family -> Option<Structure>): Decision
  {
    if !ctx.gatesPassed then Rejected(Gated)
    else
      var p := Confidence(ctx, meta);
      if SizeMultiplier(p, cfg.veto, cfg.neutral) <= 0.0 then Rejected(MetaVeto)
      else
        match Route(ctx.direction, IvRegime(ctx.ivRank), spiking)
        case None => Rejected(RouteBlocked)
        case Some(family) =>
          match select(family)
          case None => Rejected(Unavailable)
          case Some(one) =>
            Sized(ctx, cfg, risk, p, EffectiveR(cfg.sizing, Shrunk(p, cfg)), family, one,
                  OneLotMaxLoss(one, ctx.spot), worst)
  }

  function Shrunk(p: real, cfg: Config): real { p * SizeMultiplier(p, cfg.veto, cfg.neutral) }

  function Sized(ctx: Context, cfg: Config, risk: RiskState, p: real, effR: real, family: Family, one: Structure,
                 loss: real, worst: Structure -> real): Decision
  {
    var lots := SizeLots(effR, loss, cfg.sizing, Some(risk.RemainingR()));
    var scaled := Scale(one, lots);
    if loss <= 0.0 then Rejected(NoLoss)
    else if lots < 1 then Rejected(TooSmall)
    else if risk.KillSwitch() then Rejected(KillSwitch)
    else if !risk.CanAdd() then Rejected(TooMany)
    else if Breaches(worst, one, lots, loss, cfg.buffer) then Rejected(Scenario)
    else Accepted(family, scaled, one, lots, ctx.lotSize * lots, loss * lots as real, p, effR)
  }

  /** Some scenario loses more than the buffered worst case. */
  predicate Breaches(worst: Structure -> real, one: Structure, lots: int, loss: real, buffer: real) {
    worst(Scale(one, lots)) < -AbsR(loss * lots as real * buffer)
  }

  function Scale(s: Structure, lots: int): Structure { Structure(s.name, ScaledLegs(s.legs, lots)) }

  // --- the risk bound ------------------------------------------------------------------------------

  predicate Sane(ctx: Context, cfg: Config) {
    && ctx.spot >= 0.0
    && (ctx.direction.Neutral? ==> SameStrikes(ctx.chain) && Width(ctx, cfg) > 0.0 && Wing(ctx, cfg) >= 0.0)
  }

  ghost predicate InBudget(d: Decision, ctx: Context, risk: RiskState) {
    && d.Accepted? && WellBuilt(d.oneLot, d.family, ctx.lotSize) && d.qty == ctx.lotSize * d.lots
    && SizedFrom(d, OneLotMaxLoss(d.oneLot, ctx.spot), risk)
  }

  /** `loss` is the worst case of one lot. */
  ghost predicate SizedFrom(d: Decision, loss: real, risk: RiskState) {
    && d.Accepted? && d.structure == Scale(d.oneLot, d.lots) && d.lots >= 1
    && loss > 0.0 && d.maxLoss == loss * d.lots as real
    && d.maxLoss <= d.sizedR && d.maxLoss <= risk.RemainingR()
  }

  lemma SizedFits(ctx: Context, cfg: Config, risk: RiskState, p: real, effR: real, family: Family, one: Structure,
                  loss: real, worst: Structure -> real)
    requires Sized(ctx, cfg, risk, p, effR, family, one, loss, worst).Accepted?
    ensures var d := Sized(ctx, cfg, risk, p, effR, family, one, loss, worst);
            && SizedFrom(d, loss, risk) && d.oneLot == one && d.family == family && d.sizedR == effR
            && d.confidence == p
            && d.qty == ctx.lotSize * d.lots
  {
    var d := Sized(ctx, cfg, risk, p, effR, family, one, loss, worst);
    LotsAreMost(effR, loss, cfg.sizing, Some(risk.RemainingR()), d.lots);
    FitsBudgets(d.lots, effR, loss, cfg.sizing, risk.RemainingR());
  }

  lemma FitsBudgets(n: int, effR: real, loss: real, cfg: Sizing, left: real)
    requires Affordable(n, effR, loss, cfg, Some(left)) && left >= 0.0
    ensures loss * n as real <= effR && loss * n as real <= left
  {
  }

  lemma AcceptedWasSized(ctx: Context, cfg: Config, risk: RiskState, meta: Option<real>, spiking: bool,
                         worst: Structure -> real, select: Family -> Option<Structure>)
    returns (p: real, confidence: real, family: Family, one: Structure)
    requires DecideWith(ctx, cfg, risk, meta, spiking, worst, select).Accepted?
    ensures p == (if meta.Some? then meta.value else ctx.strength) && confidence == Shrunk(p, cfg)
    ensures select(family) == Some(one)
    ensures DecideWith(ctx, cfg, risk, meta, spiking, worst, select)
         == Sized(ctx, cfg, risk, p, EffectiveR(cfg.sizing, confidence), family, one,
                  OneLotMaxLoss(one, ctx.spot), worst)
    ensures family.IronCondor? <==> ctx.direction.Neutral?
  {
    p := Confidence(ctx, meta);
    confidence := Shrunk(p, cfg);
    family := Route(ctx.direction, IvRegime(ctx.ivRank), spiking).value;
    one := select(family).value;
  }

  /** What the portfolio has left is the rest of its share of capital, and nothing once that is used up. */
  lemma PortfolioLeft(risk: RiskState)
    ensures risk.RemainingR() >= 0.0
    ensures risk.RemainingR() > 0.0 ==> risk.openR + risk.RemainingR() == risk.capital * risk.portfolioPct / 100.0
    ensures risk.RemainingR() == 0.0 ==> risk.openR >= risk.capital * risk.portfolioPct / 100.0
  {
  }

  /** Every accepted decision: a well-formed defined-risk structure whose recorded worst case is never more than the
      effective R nor than what the portfolio has left. */
  lemma AcceptedInBudget(ctx: Context, cfg: Config, risk: RiskState, meta: Option<real>, spiking: bool,
                         worst: Structure -> real)
    requires Sane(ctx, cfg) && Decide(ctx, cfg, risk, meta, spiking, worst).Accepted?
    ensures InBudget(Decide(ctx, cfg, risk, meta, spiking, worst), ctx, risk)
  {
    var p, confidence, family, one := AcceptedWasSized(ctx, cfg, risk, meta, spiking, worst, Selector(ctx, cfg));
    SelectedIsOrdered(family, ctx.chain, ctx.spot, ctx.lotSize, Width(ctx, cfg), Wing(ctx, cfg));
    SizedFits(ctx, cfg, risk, p, EffectiveR(cfg.sizing, confidence), family, one, OneLotMaxLoss(one, ctx.spot), worst);
  }

  lemma NoUnitsNoPayoff(s: Structure, family: Family, spot: real)
    requires WellBuilt(s, family, 0)
    ensures PayoffAt(s.legs, spot) == 0.0
  {
    PayoffIsTent(s, 0, spot);
  }

  lemma OneLotWorst(s: Structure, family: Family, q: nat, spot: real)
    requires WellBuilt(s, family, q) && spot >= 0.0 && OneLotMaxLoss(s, spot) > 0.0
    ensures IsMinimum(-OneLotMaxLoss(s, spot), PayoffOf(s.legs)) <==> ScanSuffices(s, q, spot)
    ensures exists x :: PayoffAt(s.legs, x) == -OneLotMaxLoss(s, spot)
  {
    var pay, spots := PayoffOf(s.legs), Linspace(ScanLow(spot), ScanHigh(spot), POINTS);
    var r := ScanMin(pay, spots);
    var i :| 0 <= i < |spots| && r == pay(spots[i]);
    assert r == PayoffAt(s.legs, spots[i]);
    if q == 0 { NoUnitsNoPayoff(s, family, spots[i]); }
    ScanExact(s, q, spot);
  }

  lemma LossScales(legs: seq<Leg>, lots: int, loss: real, spot: real)
    requires lots >= 1
    ensures PayoffAt(ScaledLegs(legs, lots), spot) >= -(loss * lots as real) <==> PayoffAt(legs, spot) >= -loss
    ensures PayoffAt(legs, spot) == -loss ==> PayoffAt(ScaledLegs(legs, lots), spot) == -(loss * lots as real)
  {
    var c, p := lots as real, PayoffAt(legs, spot);
    PayoffScales(legs, lots, spot, c);
    Compare(p, loss, c);
  }

  lemma Compare(p: real, loss: real, c: real)
    requires c > 0.0
    ensures p * c >= -(loss * c) <==> p >= -loss
    ensures p == -loss ==> p * c == -(loss * c)
  {
    Scaled(-loss, p, c);
    Scaled(p, -loss, c);
    assert (-loss) * c == -(loss * c);
  }

  lemma WorstScales(legs: seq<Leg>, lots: int, loss: real)
    requires lots >= 1 && exists s :: PayoffAt(legs, s) == -loss
    ensures (forall s :: PayoffAt(ScaledLegs(legs, lots), s) >= -(loss * lots as real))
            <==> IsMinimum(-loss, PayoffOf(legs))
    ensures exists s :: PayoffAt(ScaledLegs(legs, lots), s) == -(loss * lots as real)
  {
    var pay, scaled, total := PayoffOf(legs), PayoffOf(ScaledLegs(legs, lots)), loss * lots as real;
    assert forall s :: (scaled(s) >= -total <==> pay(s) >= -loss) && (pay(s) == -loss ==> scaled(s) == -total) by {
      forall s
        ensures (scaled(s) >= -total <==> pay(s) >= -loss) && (pay(s) == -loss ==> scaled(s) == -total)
      {
        LossScales(legs, lots, loss, s);
      }
    }
    var at :| PayoffAt(legs, at) == -loss;
    assert pay(at) == -loss;
    assert PayoffAt(ScaledLegs(legs, lots), at) == scaled(at);
    assert forall s :: PayoffAt(ScaledLegs(legs, lots), s) == scaled(s);
  }

  ghost predicate Covered(s: Structure, total: real) { LossWithin(s.legs, total) }

  ghost predicate Attained(s: Structure, total: real) { exists x :: PayoffAt(s.legs, x) == -total }

  lemma ScaledWorst(one: Structure, family: Family, q: nat, spot: real, lots: int, loss: real, total: real)
    requires WellBuilt(one, family, q) && spot >= 0.0 && loss == OneLotMaxLoss(one, spot) > 0.0
    requires lots >= 1 && total == loss * lots as real
    ensures Covered(Scale(one, lots), total) <==> ScanSuffices(one, q, spot)
    ensures Attained(Scale(one, lots), total)
  {
    OneLotWorst(one, family, q, spot);
    WorstScales(one.legs, lots, loss);
  }

  /** The recorded worst case is the true one, over every settlement price, exactly when the scan of 0.85-1.15 of spot
      reaches the losing strike. */
  lemma RecordedWorstIsTrueIff(d: Decision, ctx: Context, risk: RiskState)
    requires InBudget(d, ctx, risk) && ctx.spot >= 0.0
    ensures Covered(d.structure, d.maxLoss) <==> ScanSuffices(d.oneLot, ctx.lotSize, ctx.spot)
    ensures Attained(d.structure, d.maxLoss)
  {
    ScaledWorst(d.oneLot, d.family, ctx.lotSize, ctx.spot, d.lots, OneLotMaxLoss(d.oneLot, ctx.spot), d.maxLoss);
  }

  /** What a lot pays at its worst settlement, from its strikes and its premium. */
  function TentWorst(s: Structure, q: nat): real requires Built(s, q) { Units(q)(TentOf(s, q).Worst()) }

  lemma LotWorst(s: Structure, family: Family, q: nat)
    requires WellBuilt(s, family, q)
    ensures IsMinimum(TentWorst(s, q), PayoffOf(s.legs))
  {
    var t, pay := TentOf(s, q), PayoffOf(s.legs);
    forall x ensures pay(x) == Units(q)(t.Value(x)) { PayoffIsTent(s, q, x); }
    if q > 0 {
      UnitsGrow(q);
      WorstIsMinimum(pay, Units(q), t);
    } else {
      assert pay(0.0) == TentWorst(s, q);
    }
  }

  function AllLots(x: real, lots: int): real { x * lots as real }

  lemma PaysScaled(one: Structure, lots: int, least: real, x: real)
    requires lots >= 1
    ensures var scaled := PayoffAt(Scale(one, lots).legs, x);
            && (PayoffAt(one.legs, x) >= least ==> scaled >= AllLots(least, lots))
            && (PayoffAt(one.legs, x) == least ==> scaled == AllLots(least, lots))
  {
    PayoffScales(one.legs, lots, x, lots as real);
    Scaled(least, PayoffAt(one.legs, x), lots as real);
  }

  lemma LeastScaled(one: Structure, lots: int, least: real, budget: real)
    requires lots >= 1 && IsMinimum(least, PayoffOf(one.legs))
    ensures Covered(Scale(one, lots), budget) <==> AllLots(least, lots) >= -budget
  {
    forall x ensures PayoffAt(Scale(one, lots).legs, x) >= AllLots(least, lots) {
      assert PayoffOf(one.legs)(x) >= least;
      PaysScaled(one, lots, least, x);
    }
    var at :| PayoffOf(one.legs)(at) == least;
    PaysScaled(one, lots, least, at);
  }

  /** An accepted decision keeps within a budget at every settlement, exactly when the worst its strikes and premium
      allow, for all its lots, does. */
  lemma BudgetHeldIff(d: Decision, ctx: Context, risk: RiskState, budget: real)
    requires InBudget(d, ctx, risk)
    ensures Covered(d.structure, budget) <==> AllLots(TentWorst(d.oneLot, ctx.lotSize), d.lots) >= -budget
  {
    LotWorst(d.oneLot, d.family, ctx.lotSize);
    LeastScaled(d.oneLot, d.lots, TentWorst(d.oneLot, ctx.lotSize), budget);
  }

  predicate StrikesInScan(s: Structure, spot: real) {
    forall n :: 0 <= n < |s.legs| ==> spot * 0.85 <= s.legs[n].strike <= spot * 1.15
  }

  /** Every accepted decision whose strikes lie within 0.85-1.15 of spot: settlement anywhere, even far outside that
      range, loses no more than the effective R and no more than the portfolio's remaining R. */
  lemma SettlementInBudget(ctx: Context, cfg: Config, risk: RiskState, meta: Option<real>, spiking: bool,
                           worst: Structure -> real, settle: real)
    requires Sane(ctx, cfg) && Decide(ctx, cfg, risk, meta, spiking, worst).Accepted?
    requires StrikesInScan(Decide(ctx, cfg, risk, meta, spiking, worst).structure, ctx.spot)
    ensures var d := Decide(ctx, cfg, risk, meta, spiking, worst);
            PayoffAt(d.structure.legs, settle) >= -d.sizedR && PayoffAt(d.structure.legs, settle) >= -risk.RemainingR()
  {
    var d := Decide(ctx, cfg, risk, meta, spiking, worst);
    AcceptedInBudget(ctx, cfg, risk, meta, spiking, worst);
    RecordedWorstIsTrueIff(d, ctx, risk);
    InScanSuffices(d.oneLot, d.family, ctx.lotSize, d.lots, ctx.spot);
  }

  lemma InScanSuffices(s: Structure, family: Family, q: nat, lots: int, spot: real)
    requires WellBuilt(s, family, q) && StrikesInScan(Scale(s, lots), spot)
    ensures ScanSuffices(s, q, spot)
  {
    forall n | 0 <= n < |s.legs| ensures spot * 0.85 <= s.legs[n].strike <= spot * 1.15 {
      assert Scale(s, lots).legs[n].strike == s.legs[n].strike;
    }
  }

  // --- why a trade was refused ---------------------------------------------------------------------

  function Confidence(ctx: Context, meta: Option<real>): real { if meta.Some? then meta.value else ctx.strength }

  /** The order in which the reasons are looked for. */
  function Rank(r: Reason): nat {
    match r
    case Gated => 0
    case MetaVeto => 1
    case RouteBlocked => 2
    case Unavailable => 3
    case NoLoss => 4
    case TooSmall => 5
    case KillSwitch => 6
    case TooMany => 7
    case Scenario => 8
  }

  /** What is asked, of a market and a portfolio. */
  datatype Ask = Ask(ctx: Context, cfg: Config, risk: RiskState, meta: Option<real>, spiking: bool,
                     worst: Structure -> real)
  {
    function Answer(): Decision { Decide(ctx, cfg, risk, meta, spiking, worst) }

    /** The confidence is below the veto, or at it with no neutral band above. */
    predicate Vetoed() {
      var p := if meta.Some? then meta.value else ctx.strength;
      p < cfg.veto || (p == cfg.veto && p < cfg.neutral)
    }

    /** While volatility spikes nothing is sold: neither a condor nor a vertical in a high regime. */
    predicate Blocked() { spiking && (ctx.direction.Neutral? || ctx.ivRank > 60.0) }

    function Routed(): Family requires !Blocked() { Route(ctx.direction, IvRegime(ctx.ivRank), spiking).value }

    predicate Unbuildable() requires !Blocked() {
      || Unlisted(Routed(), ctx.chain)
      || WingsCollapse(Routed(), ctx.chain, ctx.spot, Width(ctx, cfg), Wing(ctx, cfg))
    }

    function One(): Structure requires !Blocked() && !Unbuildable() {
      SelectFailsIff(Routed(), ctx.chain, ctx.spot, ctx.lotSize, Width(ctx, cfg), Wing(ctx, cfg));
      SelectStructure(Routed(), ctx.chain, ctx.spot, ctx.lotSize, Width(ctx, cfg), Wing(ctx, cfg)).value
    }

    function Loss(): real requires !Blocked() && !Unbuildable() { OneLotMaxLoss(One(), ctx.spot) }

    function Budget(): real { EffectiveR(cfg.sizing, Shrunk(Confidence(ctx, meta), cfg)) }

    /** So many lots fit the effective R, the portfolio's remaining R and the cap. */
    predicate Fits(n: int) requires !Blocked() && !Unbuildable() {
      Affordable(n, Budget(), Loss(), cfg.sizing, Some(risk.RemainingR()))
    }

    /** The most lots that fit breach the scenario limit. */
    ghost predicate BreachesGrid() requires !Blocked() && !Unbuildable() {
      exists n: int :: MostFits(n) && TooDeep(n)
    }

    predicate MostFits(n: int) requires !Blocked() && !Unbuildable() { n >= 1 && Fits(n) && !Fits(n + 1) }

    predicate TooDeep(n: int) requires !Blocked() && !Unbuildable() {
      Breaches(worst, One(), n, Loss(), cfg.buffer)
    }

    /** Each reason on its own, said of the market and the portfolio. */
    ghost predicate Fails(r: Reason) {
      match r
      case Gated => !ctx.gatesPassed
      case MetaVeto => Vetoed()
      case RouteBlocked => Blocked()
      case Unavailable => !Blocked() && Unbuildable()
      case NoLoss => !Blocked() && !Unbuildable() && NeverLoses(One().legs, ctx.spot)
      case TooSmall => !Blocked() && !Unbuildable() && !Fits(1)
      case KillSwitch => risk.dayPnl <= -risk.capital * risk.dailyLossPct / 100.0
      case TooMany => risk.openPositions >= risk.maxConcurrent
      case Scenario => !Blocked() && !Unbuildable() && BreachesGrid()
    }
  }

  /** No scanned settlement loses. */
  ghost predicate NeverLoses(legs: seq<Leg>, spot: real) {
    forall x :: x in Linspace(ScanLow(spot), ScanHigh(spot), POINTS) ==> PayoffAt(legs, x) >= 0.0
  }

  lemma NoLossIff(s: Structure, spot: real)
    ensures OneLotMaxLoss(s, spot) <= 0.0 <==> NeverLoses(s.legs, spot)
  {
    var pay, spots := PayoffOf(s.legs), Linspace(ScanLow(spot), ScanHigh(spot), POINTS);
    var r := ScanMin(pay, spots);
    var i :| 0 <= i < |spots| && r == pay(spots[i]);
    assert spots[i] in spots && pay(spots[i]) == PayoffAt(s.legs, spots[i]);
    forall x | x in spots ensures r <= PayoffAt(s.legs, x) {
      var j :| 0 <= j < |spots| && spots[j] == x;
      assert r <= pay(spots[j]);
    }
  }

  lemma VetoedIff(p: real, veto: real, neutral: real)
    ensures SizeMultiplier(p, veto, neutral) <= 0.0 <==> p < veto || (p == veto && p < neutral)
  {
    if veto <= p < neutral { Part01(p - veto, neutral - veto); }
  }

  lemma Part01(x: real, y: real)
    requires x >= 0.0 && y > 0.0
    ensures x / y <= 0.0 <==> x == 0.0
  {
    Quotient(x, y, x / y);
  }

  lemma MostThatFit(effR: real, loss: real, cfg: Sizing, left: Option<real>, n: nat)
    requires loss > 0.0 && n >= 1
    ensures Affordable(n, effR, loss, cfg, left) && !Affordable(n + 1, effR, loss, cfg, left)
            <==> n == SizeLots(effR, loss, cfg, left)
  {
    LotsAreMost(effR, loss, cfg, left, n);
    LotsAreMost(effR, loss, cfg, left, n + 1);
  }

  /** The decision names the first of these that holds. */
  predicate NamesFirst(d: Decision, fails: Reason -> bool) {
    if fails(Gated) then d == Rejected(Gated)
    else if fails(MetaVeto) then d == Rejected(MetaVeto)
    else if fails(RouteBlocked) then d == Rejected(RouteBlocked)
    else if fails(Unavailable) then d == Rejected(Unavailable)
    else NamesFirstOfSizing(d, fails)
  }

  predicate NamesFirstOfSizing(d: Decision, fails: Reason -> bool) {
    if fails(NoLoss) then d == Rejected(NoLoss)
    else if fails(TooSmall) then d == Rejected(TooSmall)
    else if fails(KillSwitch) then d == Rejected(KillSwitch)
    else if fails(TooMany) then d == Rejected(TooMany)
    else if fails(Scenario) then d == Rejected(Scenario)
    else d.Accepted?
  }

  lemma FirstIsLeast(d: Decision, fails: Reason -> bool, r: Reason)
    requires NamesFirst(d, fails)
    ensures d == Rejected(r) <==> fails(r) && forall e :: Rank(e) < Rank(r) ==> !fails(e)
    ensures d.Accepted? <==> forall e :: !fails(e)
  {
    if d.Rejected? {
      assert fails(d.reason);
      forall e | Rank(e) < Rank(d.reason) ensures !fails(e) {}
      if Rank(d.reason) == Rank(r) { assert d.reason == r; }
    } else {
      forall e ensures !fails(e) {
        match e
        case Gated =>
        case MetaVeto =>
        case RouteBlocked =>
        case Unavailable =>
        case NoLoss =>
        case TooSmall =>
        case KillSwitch =>
        case TooMany =>
        case Scenario =>
      }
    }
  }

  ghost predicate Failing(a: Ask, fails: Reason -> bool) { forall r :: fails(r) <==> a.Fails(r) }

  lemma UpToSizing(a: Ask, fails: Reason -> bool)
    requires Failing(a, fails)
    requires a.Fails(Gated) || a.Fails(MetaVeto) || a.Fails(RouteBlocked) || a.Fails(Unavailable)
    ensures NamesFirst(a.Answer(), fails)
  {
    VetoedIff(Confidence(a.ctx, a.meta), a.cfg.veto, a.cfg.neutral);
    if !a.Blocked() {
      SelectFailsIff(a.Routed(), a.ctx.chain, a.ctx.spot, a.ctx.lotSize, Width(a.ctx, a.cfg), Wing(a.ctx, a.cfg));
    }
  }

  lemma ReachesSizing(a: Ask, effR: real)
    requires a.ctx.gatesPassed && !a.Vetoed() && !a.Blocked() && !a.Unbuildable() && effR == a.Budget()
    ensures a.Answer() == Sized(a.ctx, a.cfg, a.risk, Confidence(a.ctx, a.meta), effR, a.Routed(), a.One(), a.Loss(),
                                a.worst)
  {
    VetoedIff(Confidence(a.ctx, a.meta), a.cfg.veto, a.cfg.neutral);
    SelectFailsIff(a.Routed(), a.ctx.chain, a.ctx.spot, a.ctx.lotSize, Width(a.ctx, a.cfg), Wing(a.ctx, a.cfg));
  }

  lemma LotsThatFit(a: Ask, effR: real, loss: real, left: Option<real>, lots: int)
    requires !a.Blocked() && !a.Unbuildable() && effR == a.Budget() && loss == a.Loss() > 0.0
    requires left == Some(a.risk.RemainingR()) && lots == SizeLots(effR, loss, a.cfg.sizing, left)
    ensures a.Fits(1) <==> lots >= 1
    ensures forall n :: a.MostFits(n) <==> n == lots >= 1
  {
    LotsAreMost(effR, loss, a.cfg.sizing, left, 1);
    forall n ensures a.MostFits(n) <==> n == lots >= 1 {
      if n >= 1 { MostThatFit(effR, loss, a.cfg.sizing, left, n); }
    }
  }

  /** What `fails` says of the sizing, the portfolio and the grid. */
  predicate SizingRead(fails: Reason -> bool, risk: RiskState, one: Structure, loss: real, worst: Structure -> real,
                       lots: int, buffer: real)
  {
    && (fails(NoLoss) <==> loss <= 0.0) && (loss > 0.0 ==> (fails(TooSmall) <==> lots < 1))
    && (fails(KillSwitch) <==> risk.KillSwitch()) && (fails(TooMany) <==> !risk.CanAdd())
    && (loss > 0.0 && lots >= 1 ==> (fails(Scenario) <==> Breaches(worst, one, lots, loss, buffer)))
  }

  lemma SizedNames(ctx: Context, cfg: Config, risk: RiskState, p: real, effR: real, family: Family, one: Structure,
                   loss: real, worst: Structure -> real, lots: int, fails: Reason -> bool)
    requires lots == SizeLots(effR, loss, cfg.sizing, Some(risk.RemainingR()))
    requires SizingRead(fails, risk, one, loss, worst, lots, cfg.buffer)
    ensures NamesFirstOfSizing(Sized(ctx, cfg, risk, p, effR, family, one, loss, worst), fails)
  {
  }

  lemma NoLossFails(a: Ask, loss: real)
    requires !a.Blocked() && !a.Unbuildable() && loss == a.Loss()
    ensures a.Fails(NoLoss) <==> loss <= 0.0
  {
    NoLossIff(a.One(), a.ctx.spot);
  }

  lemma SizingFails(a: Ask, effR: real, loss: real, left: Option<real>, lots: int)
    requires !a.Blocked() && !a.Unbuildable() && effR == a.Budget() && loss == a.Loss() > 0.0
    requires left == Some(a.risk.RemainingR()) && lots == SizeLots(effR, loss, a.cfg.sizing, left)
    ensures a.Fails(TooSmall) <==> lots < 1
    ensures lots >= 1 ==> (a.Fails(Scenario) <==> Breaches(a.worst, a.One(), lots, loss, a.cfg.buffer))
  {
    LotsThatFit(a, effR, loss, left, lots);
    if lots >= 1 {
      assert a.MostFits(lots);
      assert a.BreachesGrid() <==> a.TooDeep(lots);
    }
  }

  lemma PortfolioFails(a: Ask)
    ensures (a.Fails(KillSwitch) <==> a.risk.KillSwitch()) && (a.Fails(TooMany) <==> !a.risk.CanAdd())
  {
  }

  /** `fails` is read only where a structure was chosen and sized. */
  lemma SizingIsRead(a: Ask, fails: Reason -> bool, effR: real, loss: real, lots: int)
    requires !a.Blocked() && !a.Unbuildable() && Failing(a, fails) && effR == a.Budget() && loss == a.Loss()
    requires lots == SizeLots(effR, loss, a.cfg.sizing, Some(a.risk.RemainingR()))
    ensures SizingRead(fails, a.risk, a.One(), loss, a.worst, lots, a.cfg.buffer)
  {
    assert fails(NoLoss) <==> loss <= 0.0 by { NoLossFails(a, loss); }
    assert (fails(KillSwitch) <==> a.risk.KillSwitch()) && (fails(TooMany) <==> !a.risk.CanAdd()) by {
      PortfolioFails(a);
    }
    if loss > 0.0 {
      SizingFails(a, effR, loss, Some(a.risk.RemainingR()), lots);
      assert (fails(TooSmall) <==> a.Fails(TooSmall)) && (fails(Scenario) <==> a.Fails(Scenario));
    }
  }

  lemma AtSizing(a: Ask, fails: Reason -> bool)
    requires a.ctx.gatesPassed && !a.Vetoed() && !a.Blocked() && !a.Unbuildable() && Failing(a, fails)
    ensures NamesFirstOfSizing(a.Answer(), fails)
  {
    var effR, loss := a.Budget(), a.Loss();
    var lots := SizeLots(effR, loss, a.cfg.sizing, Some(a.risk.RemainingR()));
    SizingIsRead(a, fails, effR, loss, lots);
    ReachesSizing(a, effR);
    SizedNames(a.ctx, a.cfg, a.risk, Confidence(a.ctx, a.meta), effR, a.Routed(), a.One(), loss, a.worst, lots, fails);
  }

  /** An asked trade is refused for a reason exactly when that reason holds and none before it does, and accepted
      exactly when none holds. */
  lemma DecisionsAreExplained(a: Ask, r: Reason)
    ensures a.Answer() == Rejected(r) <==> a.Fails(r) && forall e :: Rank(e) < Rank(r) ==> !a.Fails(e)
    ensures a.Answer().Accepted? <==> forall e :: !a.Fails(e)
  {
    var fails := (e: Reason) => a.Fails(e);
    assert Failing(a, fails);
    if a.Fails(Gated) || a.Fails(MetaVeto) || a.Fails(RouteBlocked) || a.Fails(Unavailable) {
      UpToSizing(a, fails);
    } else {
      AtSizing(a, fails);
    }
    FirstIsLeast(a.Answer(), fails, r);
  }

  lemma SizedRIs(ctx: Context, cfg: Config, risk: RiskState, meta: Option<real>, spiking: bool,
                 worst: Structure -> real, select: Family -> Option<Structure>) returns (confidence: real)
    requires DecideWith(ctx, cfg, risk, meta, spiking, worst, select).Accepted?
    ensures var d := DecideWith(ctx, cfg, risk, meta, spiking, worst, select);
            d.sizedR == EffectiveR(cfg.sizing, confidence) && d.maxLoss <= d.sizedR
  {
    var p, c, family, one := AcceptedWasSized(ctx, cfg, risk, meta, spiking, worst, select);
    SizedFits(ctx, cfg, risk, p, EffectiveR(cfg.sizing, c), family, one, OneLotMaxLoss(one, ctx.spot), worst);
    confidence := c;
  }

  /** Whatever the confidence, one trade risks no more than its share of capital. */
  lemma TradeShareOfCapital(ctx: Context, cfg: Config, risk: RiskState, meta: Option<real>, spiking: bool,
                            worst: Structure -> real)
    requires Decide(ctx, cfg, risk, meta, spiking, worst).Accepted?
    requires FullR(cfg.sizing) >= 0.0
    ensures Decide(ctx, cfg, risk, meta, spiking, worst).maxLoss <= FullR(cfg.sizing)
  {
    var confidence := SizedRIs(ctx, cfg, risk, meta, spiking, worst, Selector(ctx, cfg));
    EffectiveRBounded(cfg.sizing, confidence);
  }

  // --- when the scan falls short -------------------------------------------------------------------

  // At a spot of 1000 the default wing of four 50-point steps lies below the scanned 850.
  const CHAIN := [Quote(CE, 1000.0, 30.0), Quote(PE, 900.0, 20.0), Quote(PE, 800.0, 5.0)]
  const LOW_WING := Structure(BullPutCredit, [Leg(PE, 900.0, SELL, 1, 20.0), Leg(PE, 800.0, BUY, 1, 5.0)])

  lemma LowWingStrikes()
    ensures Strikes(CHAIN, CE) == [1000.0] && Strikes(CHAIN, PE) == [900.0, 800.0]
  {
    assert CHAIN[..2] == [CHAIN[0], CHAIN[1]] && CHAIN[..2][..1] == [CHAIN[0]] && CHAIN[..2][..1][..0] == [];
    assert Strikes(CHAIN[..2][..1], CE) == [1000.0] && Strikes(CHAIN[..2][..1], PE) == [];
    assert Strikes(CHAIN[..2], CE) == [1000.0] && Strikes(CHAIN[..2], PE) == [900.0];
  }

  lemma LowWingPicked()
    ensures Pick(CHAIN, PE, 900.0) == Some((900.0, 20.0)) && Pick(CHAIN, PE, 800.0) == Some((800.0, 5.0))
  {
    LowWingStrikes();
    var pes := [900.0, 800.0];
    assert Nearest(pes, 900.0) == 900.0 by { NearestListed(pes, 900.0); assert pes[0] == 900.0; }
    assert Nearest(pes, 800.0) == 800.0 by { NearestListed(pes, 800.0); assert pes[1] == 800.0; }
    assert CHAIN[1..] == [CHAIN[1], CHAIN[2]] && CHAIN[1..][1..] == [CHAIN[2]];
    assert Price(CHAIN[1..], PE, 900.0) == Some(20.0);
    assert Price(CHAIN[1..][1..], PE, 800.0) == Some(5.0);
    assert Price(CHAIN[1..], PE, 800.0) == Some(5.0);
  }

  lemma LowWingSelected()
    ensures SelectStructure(BullPutCredit, CHAIN, 1000.0, 1, 100.0, 100.0) == Some(LOW_WING)
  {
    LowWingStrikes();
    assert Nearest([1000.0], 1000.0) == 1000.0;
    LowWingPicked();
  }

  lemma LowWingPays(x: real)
    ensures WellBuilt(LOW_WING, BullPutCredit, 1) && TentOf(LOW_WING, 1) == Tent(15.0, 800.0, 900.0, 900.0, 900.0)
    ensures PayoffAt(LOW_WING.legs, x) == Units(1)(Tent(15.0, 800.0, 900.0, 900.0, 900.0).Value(x))
  {
    PayoffIsTent(LOW_WING, 1, x);
  }

  lemma LowWingLoss()
    ensures WellBuilt(LOW_WING, BullPutCredit, 1) && OneLotMaxLoss(LOW_WING, 1000.0) == 35.0
    ensures PayoffAt(LOW_WING.legs, 800.0) == -85.0
  {
    var lo, hi, pay := ScanLow(1000.0), ScanHigh(1000.0), PayoffOf(LOW_WING.legs);
    var t := Tent(15.0, 800.0, 900.0, 900.0, 900.0);
    assert ProfileMin(pay, lo, hi) == Least(pay, lo, hi) by {
      UnitsGrow(1);
      forall x ensures pay(x) == Units(1)(t.Value(x)) { LowWingPays(x); }
      ScanIsAnEnd(pay, Units(1), t, lo, hi);
    }
    LowWingPays(800.0);
    LowWingPays(lo);
    LowWingPays(hi);
  }

  const MARKET := Context(Bullish, 1.0, true, 80.0, 1000.0, CHAIN, 1, 50.0)
  const DEFAULTS := Config(Sizing(3500.0, 1.0, 20), 2, 2, 0.4, 0.6, 2.0)
  const FLAT := RiskState(3500.0, 0.0, 0.0, 0, 3.0, 1.0, 5)

  lemma LowWingSized()
    ensures var d := Sized(MARKET, DEFAULTS, FLAT, 1.0, 35.0, BullPutCredit, LOW_WING, 35.0, s => 0.0);
            d.Accepted? && d.sizedR == 35.0 && d.structure == Scale(LOW_WING, 1)
  {
    assert FLAT.RemainingR() == 35.0;
    LotsAreMost(35.0, 35.0, DEFAULTS.sizing, Some(35.0), 1);
    LotsAreMost(35.0, 35.0, DEFAULTS.sizing, Some(35.0), 2);
    assert SizeLots(35.0, 35.0, DEFAULTS.sizing, Some(35.0)) == 1;
  }

  /** Accepted within budgets of 35, it loses 85 at a settlement of 800. */
  lemma ScanFallsShort()
    ensures Sane(MARKET, DEFAULTS) && FLAT.RemainingR() == 35.0
    ensures var d := Decide(MARKET, DEFAULTS, FLAT, None, false, s => 0.0);
            d.Accepted? && d.sizedR == 35.0 && PayoffAt(d.structure.legs, 800.0) == -85.0
  {
    LowWingSelected();
    LowWingLoss();
    assert Selector(MARKET, DEFAULTS)(BullPutCredit) == Some(LOW_WING);
    assert EffectiveR(DEFAULTS.sizing, Shrunk(1.0, DEFAULTS)) == 35.0;
    LowWingSized();
    PayoffScales(LOW_WING.legs, 1, 800.0, 1.0);
  }
}
