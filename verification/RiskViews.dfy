/** What an accepted decision of fno_signals/pipeline.py bets on: the view it was asked for, and which way its premium
    goes. */
module RiskViews {
  import opened Numbers
  import opened Options
  import opened Payoffs
  import opened RiskPipeline
  import opened StructureChoice

  // --- which way a structure pays ------------------------------------------------------------------

  predicate Bull(f: Family) { f.BullCallDebit? || f.BullPutCredit? }

  predicate Bear(f: Family) { f.BearPutDebit? || f.BearCallCredit? }

  lemma UnitsKeepOrder(q: nat, x: real, y: real)
    requires x <= y
    ensures Units(q)(x) <= Units(q)(y)
  {
    TimesKeepsOrder(x, y, q as real);
  }

  lemma TimesKeepsOrder(x: real, y: real, c: real)
    requires x <= y && c >= 0.0
    ensures x * c <= y * c
  {
  }

  lemma OneLotFollows(s: Structure, q: nat, x: real, y: real)
    requires WellBuilt(s, s.name, q) && TentOf(s, q).Value(x) <= TentOf(s, q).Value(y)
    ensures PayoffAt(s.legs, x) <= PayoffAt(s.legs, y)
  {
    PayoffIsTent(s, q, x);
    PayoffIsTent(s, q, y);
    UnitsKeepOrder(q, TentOf(s, q).Value(x), TentOf(s, q).Value(y));
  }

  lemma LotsFollow(legs: seq<Leg>, lots: int, x: real, y: real)
    requires lots >= 1 && PayoffAt(legs, x) <= PayoffAt(legs, y)
    ensures PayoffAt(ScaledLegs(legs, lots), x) <= PayoffAt(ScaledLegs(legs, lots), y)
  {
    var c := lots as real;
    PayoffScales(legs, lots, x, c);
    PayoffScales(legs, lots, y, c);
    TimesKeepsOrder(PayoffAt(legs, x), PayoffAt(legs, y), c);
  }

  /** One lot pays no less at y than at x, and so do all of them. */
  lemma AllLotsFollow(d: Decision, q: nat, x: real, y: real)
    requires d.Accepted? && WellBuilt(d.oneLot, d.family, q) && d.structure == Scale(d.oneLot, d.lots) && d.lots >= 1
    requires TentOf(d.oneLot, q).Value(x) <= TentOf(d.oneLot, q).Value(y)
    ensures PayoffAt(d.structure.legs, x) <= PayoffAt(d.structure.legs, y)
  {
    OneLotFollows(d.oneLot, q, x, y);
    LotsFollow(d.oneLot.legs, d.lots, x, y);
  }

  lemma TentFollows(s: Structure, q: nat, x: real, y: real)
    requires WellBuilt(s, s.name, q)
    ensures Bull(s.name) && x <= y ==> TentOf(s, q).Value(x) <= TentOf(s, q).Value(y)
    ensures Bear(s.name) && y <= x ==> TentOf(s, q).Value(x) <= TentOf(s, q).Value(y)
    ensures s.name.IronCondor? && s.legs[1].strike <= y <= s.legs[2].strike ==>
              TentOf(s, q).Value(x) <= TentOf(s, q).Value(y)
  {
    match s.name
    case BullCallDebit =>
    case BearPutDebit =>
    case BullPutCredit =>
    case BearCallCredit =>
    case IronCondor =>
  }

  // --- the view it follows -------------------------------------------------------------------------

  lemma AcceptedIsRouted(a: Ask, d: Decision)
    requires d == a.Answer() && d.Accepted?
    ensures Route(a.ctx.direction, IvRegime(a.ctx.ivRank), a.spiking) == Some(d.family)
    ensures Selector(a.ctx, a.cfg)(d.family) == Some(d.oneLot)
  {
    var select := Selector(a.ctx, a.cfg);
    var family := Route(a.ctx.direction, IvRegime(a.ctx.ivRank), a.spiking).value;
    var one := select(family).value;
    var p := Confidence(a.ctx, a.meta);
    SizedFits(a.ctx, a.cfg, a.risk, p, EffectiveR(a.cfg.sizing, Shrunk(p, a.cfg)), family, one,
              OneLotMaxLoss(one, a.ctx.spot), a.worst);
  }

  predicate Suits(f: Family, d: Direction) {
    match d
    case Bullish => Bull(f)
    case Bearish => Bear(f)
    case Neutral => f.IronCondor?
  }

  lemma RouteSuits(d: Direction, rank: real, spiking: bool)
    ensures var f := Route(d, IvRegime(rank), spiking);
            f.Some? ==> Suits(f.value, d) && (Credit(f.value) <==> d.Neutral? || rank > 60.0)
  {
  }

  /** The family of an accepted decision suits its view, and takes premium in for a neutral one or a high IV rank. */
  lemma AcceptedFamily(a: Ask, d: Decision)
    requires d == a.Answer() && d.Accepted?
    ensures Suits(d.family, a.ctx.direction) && (Credit(d.family) <==> a.ctx.direction.Neutral? || a.ctx.ivRank > 60.0)
  {
    AcceptedIsRouted(a, d);
    RouteSuits(a.ctx.direction, a.ctx.ivRank, a.spiking);
  }

  lemma PaysAsViewed(d: Decision, q: nat, view: Direction, x: real, y: real)
    requires d.Accepted? && WellBuilt(d.oneLot, d.family, q) && d.structure == Scale(d.oneLot, d.lots) && d.lots >= 1
    requires Suits(d.family, view)
    ensures PaysFor(d.structure.legs, view, x, y)
  {
    TentFollows(d.oneLot, q, x, y);
    TentFollows(d.oneLot, q, y, x);
    match view
    case Bullish => if x <= y { AllLotsFollow(d, q, x, y); }
    case Bearish => if x <= y { AllLotsFollow(d, q, y, x); }
    case Neutral => if d.oneLot.legs[1].strike <= y <= d.oneLot.legs[2].strike { AllLotsFollow(d, q, x, y); }
  }

  /** Settling at y instead of x helps as the view has it: a bullish one at the higher price, a bearish one at the
      lower, a neutral one between the short strikes. */
  predicate PaysFor(legs: seq<Leg>, view: Direction, x: real, y: real) {
    match view
    case Bullish => x <= y ==> PayoffAt(legs, x) <= PayoffAt(legs, y)
    case Bearish => x <= y ==> PayoffAt(legs, x) >= PayoffAt(legs, y)
    case Neutral =>
      && |legs| == 4 && legs[1].side.SELL? && legs[2].side.SELL? && legs[1].strike <= legs[2].strike
      && (legs[1].strike <= y <= legs[2].strike ==> PayoffAt(legs, x) <= PayoffAt(legs, y))
  }

  /** A structure accepted for a bullish view never pays less at a higher settlement, one for a bearish view never
      more, and one for a neutral view pays its most between its short strikes. */
  lemma PayoffFollowsView(a: Ask, x: real, y: real)
    requires Sane(a.ctx, a.cfg) && a.Answer().Accepted?
    ensures PaysFor(a.Answer().structure.legs, a.ctx.direction, x, y)
  {
    AcceptedInBudget(a.ctx, a.cfg, a.risk, a.meta, a.spiking, a.worst);
    AcceptedFamily(a, a.Answer());
    PaysAsViewed(a.Answer(), a.ctx.lotSize, a.ctx.direction, x, y);
  }

  /** Every leg is the chain's quote nearest to where its family aims it, from the call strike nearest to spot. */
  predicate AimedFrom(s: Structure, ctx: Context, w: real, wing: real) {
    && Strikes(ctx.chain, CE) != [] && |s.legs| == |Pattern(s.name)|
    && forall n :: 0 <= n < |s.legs| ==>
         Aimed(ctx.chain, s.legs[n], Targets(s.name, Nearest(Strikes(ctx.chain, CE), ctx.spot), w, wing)[n])
  }

  /** What an accepted decision takes its legs from is aimed, in widths and wings of whole steps. */
  lemma SelectedInSteps(ctx: Context, cfg: Config, family: Family, one: Structure, w: real, wing: real)
    requires Selector(ctx, cfg)(family) == Some(one)
    requires w == cfg.widthSteps as real * ctx.step && wing == cfg.wingSteps as real * ctx.step
    ensures one.name == family && AimedFrom(one, ctx, w, wing)
  {
    InSteps(ctx, cfg, w, wing);
    SelectedIsAimed(family, ctx.chain, ctx.spot, ctx.lotSize, w, wing);
  }

  lemma InSteps(ctx: Context, cfg: Config, w: real, wing: real)
    requires w == cfg.widthSteps as real * ctx.step && wing == cfg.wingSteps as real * ctx.step
    ensures Width(ctx, cfg) == w && Wing(ctx, cfg) == wing
  {
  }

  // --- what it leaves of the limits ----------------------------------------------------------------

  /** With what is open already, an accepted decision risks no more than the portfolio's share of capital; it is
      never taken with the day's loss limit reached or the book full, nor if some scenario loses more than the
      buffered worst case. */
  lemma LimitsHold(a: Ask, d: Decision)
    requires d == a.Answer() && d.Accepted?
    ensures Within(d, a.cfg, a.risk, a.worst)
  {
    var p, confidence, family, one :=
      AcceptedWasSized(a.ctx, a.cfg, a.risk, a.meta, a.spiking, a.worst, Selector(a.ctx, a.cfg));
    SizedWithin(a.ctx, a.cfg, a.risk, p, EffectiveR(a.cfg.sizing, confidence), family, one,
                OneLotMaxLoss(one, a.ctx.spot), a.worst, d);
  }

  lemma SizedWithin(ctx: Context, cfg: Config, risk: RiskState, p: real, effR: real, family: Family, one: Structure,
                    loss: real, worst: Structure -> real, d: Decision)
    requires d == Sized(ctx, cfg, risk, p, effR, family, one, loss, worst) && d.Accepted?
    ensures Within(d, cfg, risk, worst)
  {
    SizedFits(ctx, cfg, risk, p, effR, family, one, loss, worst);
    LossPositive(loss, d.lots, d.maxLoss);
    PortfolioLeft(risk);
  }

  /** The R an accepted decision was sized from is that of its confidence, shrunk; the confidence is the
      meta-model's where there is one, and else the strength of the view. */
  lemma SizedFromConfidence(a: Ask, d: Decision, p: real)
    requires d == a.Answer() && d.Accepted? && p == if a.meta.Some? then a.meta.value else a.ctx.strength
    ensures d.sizedR == EffectiveR(a.cfg.sizing, Shrunk(p, a.cfg)) && d.confidence == p
  {
    var p', confidence, family, one :=
      AcceptedWasSized(a.ctx, a.cfg, a.risk, a.meta, a.spiking, a.worst, Selector(a.ctx, a.cfg));
    SizedFits(a.ctx, a.cfg, a.risk, p', EffectiveR(a.cfg.sizing, confidence), family, one,
              OneLotMaxLoss(one, a.ctx.spot), a.worst);
  }

  /** A confidence counts for nothing below the veto, in full from the neutral mark on, and in between for the part
      of the way it has come. */
  lemma ConfidenceShrinks(p: real, cfg: Config)
    ensures p < cfg.veto ==> Shrunk(p, cfg) == 0.0
    ensures cfg.veto <= p && cfg.neutral <= p ==> Shrunk(p, cfg) == p
    ensures cfg.veto <= p < cfg.neutral ==> Shrunk(p, cfg) * (cfg.neutral - cfg.veto) == p * (p - cfg.veto)
  {
    var m := SizeMultiplier(p, cfg.veto, cfg.neutral);
    SizeMultiplierRamps(p, cfg.veto, cfg.neutral);
    Regroup(p, m, cfg.neutral - cfg.veto);
  }

  lemma Regroup(p: real, m: real, w: real)
    ensures p * m * w == p * (m * w)
  {
  }

  predicate Within(d: Decision, cfg: Config, risk: RiskState, worst: Structure -> real) requires d.Accepted? {
    && risk.openR + d.maxLoss <= risk.capital * risk.portfolioPct / 100.0
    && risk.dayPnl > -risk.capital * risk.dailyLossPct / 100.0 && risk.openPositions < risk.maxConcurrent
    && worst(d.structure) >= -AbsR(d.maxLoss * cfg.buffer)
  }

  lemma LossPositive(loss: real, lots: int, total: real)
    requires loss > 0.0 && lots >= 1 && total == loss * lots as real
    ensures total > 0.0
  {
  }

  /** A sizing that the grid refuses is one that some scenario takes below the buffered worst case of its lots. */
  lemma GridRefuses(ctx: Context, cfg: Config, risk: RiskState, p: real, effR: real, family: Family, one: Structure,
                    loss: real, worst: Structure -> real, lots: int, total: real)
    requires Sized(ctx, cfg, risk, p, effR, family, one, loss, worst) == Rejected(Scenario)
    requires lots == SizeLots(effR, loss, cfg.sizing, Some(risk.RemainingR())) && total == loss * lots as real
    ensures worst(Scale(one, lots)) < -AbsR(total * cfg.buffer)
  {
  }

  // --- which way its premium goes ------------------------------------------------------------------

  /** No quote of a type costs as much as one deeper in the money, and one strike has one price. */
  predicate PricesOrdered(chain: seq<Quote>) {
    forall x, y :: x in chain && y in chain && x.opt == y.opt ==>
      && (x.strike == y.strike ==> x.close == y.close)
      && (x.strike < y.strike ==> if x.opt.CE? then x.close > y.close else x.close < y.close)
  }

  lemma PremiumOfTwo(legs: seq<Leg>)
    requires |legs| == 2 && !legs[0].opt.FUT? && !legs[1].opt.FUT?
    ensures Premium(legs) == Sign(legs[0]) * legs[0].entry * legs[0].qty as real
                             + Sign(legs[1]) * legs[1].entry * legs[1].qty as real
  {
    assert legs[..1][..0] == [];
    assert Premium(legs[..1]) == legs[0].entry * legs[0].qty as real * Sign(legs[0]);
  }

  lemma PremiumOfFour(legs: seq<Leg>)
    requires |legs| == 4 && forall n :: 0 <= n < 4 ==> !legs[n].opt.FUT?
    ensures Premium(legs) == Premium(legs[..2]) + Sign(legs[2]) * legs[2].entry * legs[2].qty as real
                             + Sign(legs[3]) * legs[3].entry * legs[3].qty as real
  {
    assert legs[..3][..2] == legs[..2];
  }

  /** What one unit pays to open. */
  function UnitCost(s: Structure): real requires |s.legs| == |Pattern(s.name)| {
    if s.name.IronCondor? then s.legs[0].entry - s.legs[1].entry - s.legs[2].entry + s.legs[3].entry
    else Sign(s.legs[0]) * s.legs[0].entry + Sign(s.legs[1]) * s.legs[1].entry
  }

  lemma PremiumIsUnits(s: Structure, q: nat)
    requires Built(s, q)
    ensures Premium(s.legs) == Units(q)(UnitCost(s))
  {
    var ls := s.legs;
    PremiumOfTwo(ls[..2]);
    if s.name.IronCondor? {
      PremiumOfFour(ls);
      FourUnits(ls[0].entry, ls[1].entry, ls[2].entry, ls[3].entry, q as real);
    } else {
      assert ls[..2] == ls;
      TwoUnits(Sign(ls[0]) * ls[0].entry, Sign(ls[1]) * ls[1].entry, q as real);
    }
  }

  lemma TwoUnits(a: real, b: real, q: real)
    ensures a * q + b * q == (a + b) * q
  {
  }

  lemma FourUnits(a: real, b: real, c: real, d: real, q: real)
    ensures 1.0 * a * q + -1.0 * b * q + -1.0 * c * q + 1.0 * d * q == (a - b - c + d) * q
  {
  }

  lemma CostFollowsFamily(s: Structure, q: nat, chain: seq<Quote>)
    requires WellBuilt(s, s.name, q) && PricesOrdered(chain)
    requires forall n :: 0 <= n < |s.legs| ==> Listed(chain, s.legs[n])
    requires !s.name.IronCondor? ==> s.legs[0].strike != s.legs[1].strike
    ensures if Credit(s.name) then UnitCost(s) <= 0.0 else UnitCost(s) > 0.0
  {
    var ls := s.legs;
    assert Listed(chain, ls[0]) && Listed(chain, ls[1]);
    if s.name.IronCondor? { assert Listed(chain, ls[2]) && Listed(chain, ls[3]); }
  }

  /** A vertical is built on two strikes. */
  lemma StrikesApart(family: Family, chain: seq<Quote>, spot: real, q: nat, w: real, wing: real)
    requires SelectStructure(family, chain, spot, q, w, wing).Some? && !family.IronCondor?
    ensures var s := SelectStructure(family, chain, spot, q, w, wing).value;
            s.name == family && |s.legs| == 2 && s.legs[0].strike != s.legs[1].strike
  {
  }

  lemma ZeroUnits(s: Structure, family: Family, q: nat, spot: real)
    requires WellBuilt(s, family, q) && OneLotMaxLoss(s, spot) > 0.0
    ensures q > 0
  {
    if q == 0 {
      forall x ensures PayoffAt(s.legs, x) == 0.0 { PayoffIsTent(s, 0, x); }
      NoLossIff(s, spot);
    }
  }

  lemma OneLotCost(d: Decision, chain: seq<Quote>, q: nat)
    requires d.Accepted? && WellBuilt(d.oneLot, d.family, q) && q > 0 && PricesOrdered(chain)
    requires forall n :: 0 <= n < |d.oneLot.legs| ==> Listed(chain, d.oneLot.legs[n])
    requires !d.family.IronCondor? ==> d.oneLot.legs[0].strike != d.oneLot.legs[1].strike
    ensures Premium(d.oneLot.legs) <= 0.0 <==> Credit(d.family)
  {
    CostFollowsFamily(d.oneLot, q, chain);
    PremiumIsUnits(d.oneLot, q);
    SignOfUnits(UnitCost(d.oneLot), q as real);
  }

  lemma AcceptedIsListed(a: Ask, d: Decision)
    requires d == a.Answer() && d.Accepted?
    ensures forall n :: 0 <= n < |d.oneLot.legs| ==> Listed(a.ctx.chain, d.oneLot.legs[n])
    ensures !d.family.IronCondor? ==> |d.oneLot.legs| == 2 && d.oneLot.legs[0].strike != d.oneLot.legs[1].strike
  {
    var w, wing := Width(a.ctx, a.cfg), Wing(a.ctx, a.cfg);
    AcceptedIsRouted(a, d);
    SelectedIsAimed(d.family, a.ctx.chain, a.ctx.spot, a.ctx.lotSize, w, wing);
    if !d.family.IronCondor? { StrikesApart(d.family, a.ctx.chain, a.ctx.spot, a.ctx.lotSize, w, wing); }
  }

  /** On a chain whose prices are ordered, an accepted structure takes premium in exactly for a neutral view or an
      IV rank above 60, and else pays it. */
  lemma PremiumFollowsRegime(a: Ask)
    requires Sane(a.ctx, a.cfg) && a.Answer().Accepted? && PricesOrdered(a.ctx.chain)
    ensures Premium(a.Answer().oneLot.legs) <= 0.0 <==> a.ctx.direction.Neutral? || a.ctx.ivRank > 60.0
  {
    var d := a.Answer();
    AcceptedInBudget(a.ctx, a.cfg, a.risk, a.meta, a.spiking, a.worst);
    AcceptedFamily(a, d);
    AcceptedIsListed(a, d);
    ZeroUnits(d.oneLot, d.family, a.ctx.lotSize, a.ctx.spot);
    OneLotCost(d, a.ctx.chain, a.ctx.lotSize);
  }

  lemma SignOfUnits(x: real, q: real)
    requires q > 0.0
    ensures x * q <= 0.0 <==> x <= 0.0
  {
    if x > 0.0 { assert x * q > 0.0; } else { TimesKeepsOrder(x, 0.0, q); }
  }
}
