/** What crossing the book costs a structure that is closed against it, and where its guard books, cuts and holds. */
module StructureExits {
  import opened Money
  import opened Options
  import opened StructureRegistry
  import P = Payoffs
  import FillRisk

  // --- crossing ------------------------------------------------------------------------------------

  predicate TwoSided(t: Top) { 0.0 < t.bid <= t.ask }

  /** A long is sold for what the bid leaves after slippage, and a short bought back for what it adds to the ask:
      never better than the touch, exactly at it without slippage, and worse with every bit of it. */
  lemma ExitIsAtOrBeyondTouch(t: Top, slip: real)
    requires TwoSided(t) && 0.0 <= slip <= 1.0
    ensures 0.0 <= ExitPrice(P.BUY, t, slip) <= t.bid && t.ask <= ExitPrice(P.SELL, t, slip)
    ensures slip == 0.0 ==> ExitPrice(P.BUY, t, slip) == t.bid && ExitPrice(P.SELL, t, slip) == t.ask
    ensures t.bid - ExitPrice(P.BUY, t, slip) == slip * t.bid && ExitPrice(P.SELL, t, slip) - t.ask == slip * t.ask
  {
    ShareOf(slip, t.bid);
    ShareOf(slip, t.ask);
  }

  lemma ShareOf(slip: real, price: real)
    requires 0.0 <= slip <= 1.0 && price > 0.0
    ensures 0.0 <= price * (1.0 - slip) == price - slip * price <= price <= price * (1.0 + slip) == price + slip * price
  {
    assert slip * price >= 0.0 && (1.0 - slip) * price >= 0.0;
  }

  lemma MoreSlipNeverHelps(t: Top, slip: real, more: real)
    requires TwoSided(t) && 0.0 <= slip < more <= 1.0
    ensures ExitPrice(P.BUY, t, more) < ExitPrice(P.BUY, t, slip)
    ensures ExitPrice(P.SELL, t, slip) < ExitPrice(P.SELL, t, more)
  {
    Strictly(1.0 - more, 1.0 - slip, t.bid);
    Strictly(1.0 + slip, 1.0 + more, t.ask);
  }

  lemma Strictly(x: real, y: real, price: real)
    requires x < y && price > 0.0
    ensures price * x < price * y
  {
    Rises(price, y - x);
    assert price * y == price * x + price * (y - x);
  }

  lemma Rises(a: real, b: real)
    requires a > 0.0 && b > 0.0
    ensures a * b > 0.0
  {
  }

  /** At its entry a leg makes nothing; from there a long gains what its price rises for each unit, and a short what
      its price falls. */
  lemma PnlFromEntry(l: Leg, rise: real)
    ensures LegPnl(l, l.entry) == 0.0
    ensures LegPnl(l, l.entry + rise) == if l.side.BUY? then rise * l.qty as real else -(rise * l.qty as real)
  {
    PnlMoves(l, l.entry, rise);
  }

  lemma BetterPrice(l: Leg, a: real, b: real)
    requires l.qty >= 0 && (if l.side.BUY? then a <= b else b <= a)
    ensures LegPnl(l, a) <= LegPnl(l, b)
  {
    if l.side.BUY? {
      TimesQty(a - l.entry, b - l.entry, l.qty as real);
    } else {
      TimesQty(l.entry - a, l.entry - b, l.qty as real);
    }
  }

  lemma TimesQty(x: real, y: real, q: real)
    requires x <= y && q >= 0.0
    ensures x * q <= y * q
  {
  }

  /** What each leg is worth at the middle of its book. */
  function MidValue(tops: string -> Top): Leg -> real { (l: Leg) => LegPnl(l, Mid(tops(l.symbol))) }

  lemma LegCrossesForLess(l: Leg, tops: string -> Top, slip: real)
    requires TwoSided(tops(l.symbol)) && 0.0 <= slip <= 1.0 && l.qty >= 0
    ensures ExitValue(tops, slip)(l) <= MidValue(tops)(l)
  {
    var t := tops(l.symbol);
    ExitIsAtOrBeyondTouch(t, slip);
    BetterPrice(l, ExitPrice(l.side, t, slip), Mid(t));
  }

  lemma {:induction false} SumAtMost(f: Leg -> real, g: Leg -> real, legs: seq<Leg>)
    requires forall n :: 0 <= n < |legs| ==> f(legs[n]) <= g(legs[n])
    ensures Sum(f, legs) <= Sum(g, legs)
  {
    if legs == [] {
    } else {
      var m := |legs| - 1;
      assert forall n :: 0 <= n < m ==> legs[..m][n] == legs[n];
      SumAtMost(f, g, legs[..m]);
    }
  }

  predicate SoundLegs(g: Guard) { forall n :: 0 <= n < |g.legs| ==> g.legs[n].qty >= 0 }

  /** An exit that was checked crosses for no more than the structure is worth at the middle of its books, and so is
      never allowed where that is already below the cap on the defined loss. */
  lemma CheckedCrossesForLess(g: Guard, exits: Exits, tops: string -> Top, slip: real)
    requires SaneBook(g, exits, tops, slip) && 0.0 <= slip <= 1.0 && SoundLegs(g)
    ensures Sum(ExitValue(tops, slip), g.legs) <= Sum(MidValue(tops), g.legs)
    ensures g.maxLoss > 0.0 ==> Sum(MidValue(tops), g.legs) >= -(g.maxLoss * OrDefault(exits.lossCap, 1.15))
  {
    forall n | 0 <= n < |g.legs| ensures ExitValue(tops, slip)(g.legs[n]) <= MidValue(tops)(g.legs[n]) {
      assert Tradeable(tops(g.legs[n].symbol), exits.maxSpread);
      LegCrossesForLess(g.legs[n], tops, slip);
    }
    SumAtMost(ExitValue(tops, slip), MidValue(tops), g.legs);
  }

  // --- when the book may be crossed ----------------------------------------------------------------

  /** A book is sane exactly if each leg is two-sided with its touch no further apart than the allowed percentage of
      its middle, and the crossing costs no more than the cap on the defined loss, where there is one. */
  lemma SaneBookIff(g: Guard, exits: Exits, tops: string -> Top, slip: real)
    ensures SaneBook(g, exits, tops, slip) <==>
              && (forall n :: 0 <= n < |g.legs| ==> Narrow(tops(g.legs[n].symbol), exits.maxSpread))
              && (g.maxLoss > 0.0 ==>
                    Sum(ExitValue(tops, slip), g.legs) >= -(g.maxLoss * OrDefault(exits.lossCap, 1.15)))
  {
    forall n | 0 <= n < |g.legs|
      ensures Tradeable(tops(g.legs[n].symbol), exits.maxSpread) <==> Narrow(tops(g.legs[n].symbol), exits.maxSpread)
    {
      NarrowIsTradeable(tops(g.legs[n].symbol), exits.maxSpread);
    }
  }

  predicate Narrow(t: Top, percent: real) {
    0.0 < t.bid <= t.ask && (t.ask - t.bid) * 100.0 <= percent * ((t.bid + t.ask) / 2.0)
  }

  lemma NarrowIsTradeable(t: Top, percent: real)
    ensures Tradeable(t, percent) <==> Narrow(t, percent)
  {
    if 0.0 < t.bid <= t.ask { Percent(t.ask - t.bid, (t.bid + t.ask) / 2.0, percent); }
  }

  lemma Percent(gap: real, mid: real, percent: real)
    requires mid > 0.0
    ensures gap / mid * 100.0 <= percent <==> gap * 100.0 <= percent * mid
  {
    var q := gap / mid;
    assert q * mid == gap;
    if q * 100.0 < percent { Strictly(q * 100.0, percent, mid); }
    if q * 100.0 > percent { Strictly(percent, q * 100.0, mid); }
  }

  /** While its books are not sane an exit that is not forced waits, as often as it is allowed to, and then goes
      ahead. */
  lemma WaitsForRetries(g: Guard, exits: Exits, quotes: Option<string -> Top>, bps: real)
    requires exits.maxSpread > 0.0 && !Checks(g, exits, quotes, bps, false)
    ensures Crossable(g, exits, quotes, bps, false) <==> g.exitRetries >= exits.maxRetries
  {
  }

  // --- what is booked ------------------------------------------------------------------------------

  /** What is booked for a leg is its P&L at the price it closed at, less the fees of both its trades, to half a
      paisa. */
  lemma BookedIsPnlLessFees(l: Leg, price: real, m: Market)
    ensures var pnl := LegPnl(l, price) - l.fees - m.fees(l, price);
            pnl - 0.005 <= BookedPnl(l, price, m) <= pnl + 0.005
  {
    CentsKeepOrder(LegPnl(l, price) - l.fees - m.fees(l, price), LegPnl(l, price) - l.fees - m.fees(l, price));
  }

  /** A leg closes at the price asked for if there is one, else at a live quote, else at its mark, and where there
      is none of them at its entry. */
  lemma ClosesAtFirstPrice(l: Leg, px: map<int, real>, m: Market)
    ensures var asked, mark := l.token in px && px[l.token] != 0.0, l.token in m.marks && m.marks[l.token] != 0.0;
            && (asked ==> ClosedAt(l, px, m) == px[l.token])
            && (!asked && m.quote(l) != 0.0 ==> ClosedAt(l, px, m) == m.quote(l))
            && (!asked && m.quote(l) == 0.0 && mark ==> ClosedAt(l, px, m) == m.marks[l.token])
            && (!asked && m.quote(l) == 0.0 && !mark ==> ClosedAt(l, px, m) == l.entry)
  {
  }

  /** An exit that was not checked closes a marked leg at its mark. */
  lemma UncheckedClosesAtMarks(g: Guard, exits: Exits, quotes: Option<string -> Top>, bps: real, force: bool, m: Market,
                               l: Leg)
    requires !Checks(g, exits, quotes, bps, force) && l.token in m.marks && m.marks[l.token] != 0.0
    ensures ClosedAt(l, AskedPrices(g, exits, quotes, bps, force, m), m) == m.marks[l.token]
  {
  }

  // --- what a guard's bounds mean ------------------------------------------------------------------

  /** What the legs of a plan make if the underlying settles at s. */
  function SettledPnl(legs: seq<Leg>, p: FillRisk.Plan, s: real): real
    requires |legs| <= |FillRisk.LegsFromStructure(p)|
  {
    if legs == [] then 0.0
    else
      var n := |legs| - 1;
      SettledPnl(legs[..n], p, s) + LegPnl(legs[n], SettlesAt(p, n, s))
  }

  function SettlesAt(p: FillRisk.Plan, n: nat, s: real): real requires n < |FillRisk.LegsFromStructure(p)| {
    P.Intrinsic(FillRisk.LegsFromStructure(p)[n].0, FillRisk.LegsFromStructure(p)[n].1, s)
  }

  /** The first n legs of an order settle for what they pay at expiry. */
  lemma {:induction false} SettlesAsPaid(o: Order, market: seq<LegQuote>, first: nat, s: real, n: nat)
    requires AllQuoted(market) && |market| == |FillRisk.LegsFromStructure(o.plan)| && n <= |market|
    ensures SettledPnl(LegsFor(o, market, first)[..n], o.plan, s)
            == P.PayoffAt(FillRisk.Filled(o.plan, o.lots * o.lotSize, Prices(market))[..n], s)
  {
    if n == 0 {
    } else {
      var legs, paid := LegsFor(o, market, first), FillRisk.Filled(o.plan, o.lots * o.lotSize, Prices(market));
      SettlesAsPaid(o, market, first, s, n - 1);
      assert legs[..n][..n - 1] == legs[..n - 1] && paid[..n][..n - 1] == paid[..n - 1];
      LegSettles(legs[n - 1], paid[n - 1], SettlesAt(o.plan, n - 1, s), s);
    }
  }

  lemma LegSettles(l: Leg, paid: P.Leg, price: real, s: real)
    requires l.side == paid.side && l.qty == paid.qty && l.entry == paid.entry
    requires price == P.Intrinsic(paid.opt, paid.strike, s)
    ensures LegPnl(l, price) == P.AtSpot(s)(paid)
  {
  }

  /** The premium received for an order, as filled. */
  function NetFilled(o: Order, market: seq<LegQuote>): real
    requires AllQuoted(market) && |market| == |FillRisk.LegsFromStructure(o.plan)|
  {
    FillRisk.NetPremiumReceived(FillRisk.Filled(o.plan, o.lots * o.lotSize, Prices(market)))
  }

  /** The guard of a structure that was filled as its family has it - a credit one for a credit, a debit one for a
      debit - names the most its own legs can lose and make: they settle within its maximum loss and profit at every
      price. */
  lemma GuardBoundsItsLegs(o: Order, exits: Exits, market: seq<LegQuote>, first: nat, s: real)
    requires AllQuoted(market) && |market| == |FillRisk.LegsFromStructure(o.plan)|
    requires o.plan.Wellformed() && o.plan.Symmetric()
    requires if o.plan.Debit() then NetFilled(o, market) < 0.0 else NetFilled(o, market) >= 0.0
    ensures var g := GuardFor(o, exits, market, first);
            |g.legs| == |market| && -g.maxLoss <= SettledPnl(g.legs, o.plan, s) <= g.maxProfit
  {
    var g := GuardFor(o, exits, market, first);
    var q: nat := o.lots * o.lotSize;
    var paid := FillRisk.Filled(o.plan, q, Prices(market));
    FillRisk.FillRiskEnclosesIff(o.plan, q, Prices(market));
    assert -g.maxLoss <= P.PayoffAt(paid, s) <= g.maxProfit;
    SettlesAsPaid(o, market, first, s, |market|);
    assert g.legs[..|market|] == g.legs && paid[..|market|] == paid;
  }

  /** A fully quoted order is kept unless it was modelled to lose something and was filled for more than that and its
      overrun; unless configured the overrun is a quarter, and target and stop are half. */
  lemma KeptWithinOverrun(o: Order, exits: Exits, market: seq<LegQuote>, first: nat)
    requires |market| == |FillRisk.LegsFromStructure(o.plan)|
    ensures Acceptable(o, exits, market) <==>
              && AllQuoted(market)
              && (o.lossPerLot * o.lots as real <= 0.0
                  || GuardFor(o, exits, market, first).maxLoss
                     <= o.lossPerLot * o.lots as real * (if exits.overrun == 0.0 then 1.25 else exits.overrun))
    ensures AllQuoted(market) ==>
              var g := GuardFor(o, exits, market, first);
              && g.target == (if exits.target == 0.0 then 0.5 else exits.target)
              && g.stop == (if exits.stop == 0.0 then 0.5 else exits.stop)
  {
  }

  // --- the verdict ---------------------------------------------------------------------------------

  function Pnl(g: Guard, prices: map<int, real>): real { Sum(Marked(prices), g.legs) - g.entryFees }

  /** A fully priced structure books from its share of the maximum profit on, cuts from its share of the maximum
      loss on unless it books, and holds in between; any other gets no verdict. */
  lemma VerdictIff(g: Guard, prices: map<int, real>)
    ensures Decide(g, prices) == Some(Target) <==>
              Priced(g.legs, prices) && Pnl(g, prices) >= g.target * g.maxProfit
    ensures Decide(g, prices) == Some(Stop) <==>
              Priced(g.legs, prices) && Pnl(g, prices) < g.target * g.maxProfit
              && Pnl(g, prices) + g.stop * g.maxLoss <= 0.0
    ensures Decide(g, prices) == Some(Hold) <==>
              Priced(g.legs, prices) && Pnl(g, prices) < g.target * g.maxProfit
              && Pnl(g, prices) + g.stop * g.maxLoss > 0.0
  {
    SharesNegate(g.stop, g.maxLoss);
  }

  lemma SharesNegate(x: real, y: real)
    ensures -x * y == -(x * y)
  {
  }

  function Rank(v: Verdict): int {
    match v
    case Stop => 0
    case Hold => 1
    case Target => 2
  }

  /** Every leg is marked at least as well. */
  predicate MarkedBetter(legs: seq<Leg>, prices: map<int, real>, better: map<int, real>)
    requires Priced(legs, prices) && Priced(legs, better)
  {
    forall l :: l in legs ==>
      l.qty >= 0
      && if l.side.BUY? then prices[l.token] <= better[l.token] else better[l.token] <= prices[l.token]
  }

  /** Better marks never turn a hold into a cut or a booking into either. */
  lemma BetterMarksBetterVerdict(g: Guard, prices: map<int, real>, better: map<int, real>)
    requires Priced(g.legs, prices) && Priced(g.legs, better) && MarkedBetter(g.legs, prices, better)
    ensures Decide(g, prices).Some? && Decide(g, better).Some?
    ensures Rank(Decide(g, prices).value) <= Rank(Decide(g, better).value)
  {
    forall n | 0 <= n < |g.legs| ensures Marked(prices)(g.legs[n]) <= Marked(better)(g.legs[n]) {
      assert g.legs[n] in g.legs;
      BetterPrice(g.legs[n], prices[g.legs[n].token], better[g.legs[n].token]);
    }
    SumAtMost(Marked(prices), Marked(better), g.legs);
    VerdictIff(g, prices);
    VerdictIff(g, better);
  }
}
