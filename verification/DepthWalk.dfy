/** execution/simulator.py and fno_backtest/fills.py: filling an order by walking the visible book. */
module DepthWalk {
  import opened Money
  import opened Numbers
  import opened Options
  import opened Payoffs

  datatype Level = Level(price: real, qty: int)

  predicate Visible(levels: seq<Level>) { forall i :: 0 <= i < |levels| ==> levels[i].price > 0.0 && levels[i].qty > 0 }

  /** No level owes quantity. */
  predicate Sized(levels: seq<Level>) { forall i :: 0 <= i < |levels| ==> levels[i].qty >= 0 }

  /** `quote_depth` keeps only levels with a price and a quantity. */
  function Crossable(raw: seq<Level>): (r: seq<Level>)
    ensures Visible(r)
    ensures Visible(raw) ==> r == raw
  {
    if raw == [] then []
    else
      var l := raw[|raw| - 1];
      Crossable(raw[..|raw| - 1]) + if l.price > 0.0 && l.qty > 0 then [l] else []
  }

  /** Every level with a price and a quantity is kept, as often as it is listed, and no other. */
  lemma {:induction false} CrossableKeeps(raw: seq<Level>, l: Level)
    ensures multiset(Crossable(raw))[l] == if l.price > 0.0 && l.qty > 0 then multiset(raw)[l] else 0
  {
    if raw == [] {
    } else {
      var init, last := raw[..|raw| - 1], raw[|raw| - 1];
      CrossableKeeps(init, l);
      assert raw == init + [last];
      OneMoreListed(init, last, l);
      if last.price > 0.0 && last.qty > 0 { OneMoreListed(Crossable(init), last, l); }
    }
  }

  lemma OneMoreListed(levels: seq<Level>, last: Level, l: Level)
    ensures multiset(levels + [last])[l] == multiset(levels)[l] + if last == l then 1 else 0
  {
  }

  /** a is crossed before b. */
  predicate Before(side: Side, a: Level, b: Level) { if side.BUY? then a.price <= b.price else a.price >= b.price }

  lemma {:induction false} CrossableFrom(raw: seq<Level>)
    ensures forall l :: l in Crossable(raw) ==> l in raw
  {
    if raw == [] {
    } else {
      CrossableFrom(raw[..|raw| - 1]);
    }
  }

  lemma SortedAppend(side: Side, levels: seq<Level>, l: Level)
    requires Sorted(side, levels) && forall x :: x in levels ==> Before(side, x, l)
    ensures Sorted(side, levels + [l])
  {
    forall i, j | 0 <= i < j < |levels| + 1 ensures Before(side, (levels + [l])[i], (levels + [l])[j]) {
      if j == |levels| { assert levels[i] in levels; }
    }
  }

  lemma {:induction false} CrossableSorted(side: Side, raw: seq<Level>)
    requires Sorted(side, raw)
    ensures Sorted(side, Crossable(raw))
    ensures forall l :: l in Crossable(raw) ==> l in raw
  {
    CrossableFrom(raw);
    if raw == [] {
    } else {
      var m := |raw| - 1;
      var kept := Crossable(raw[..m]);
      CrossableSorted(side, raw[..m]);
      forall x | x in kept ensures Before(side, x, raw[m]) {
        CrossableFrom(raw[..m]);
        var i :| 0 <= i < m && raw[i] == x;
        assert Before(side, raw[i], raw[m]);
      }
      SortedAppend(side, kept, raw[m]);
    }
  }

  // --- what each unit costs ------------------------------------------------------------------------

  /** The price of unit u: its level's, or `beyond` past the last level. */
  function UnitPrice(levels: seq<Level>, u: int, beyond: real): real {
    if levels == [] then beyond
    else if u < levels[0].qty then levels[0].price
    else UnitPrice(levels[1..], u - levels[0].qty, beyond)
  }

  function Total(levels: seq<Level>, q: nat, beyond: real): real {
    if q == 0 then 0.0 else Total(levels, q - 1, beyond) + UnitPrice(levels, q - 1, beyond)
  }

  function Times(n: int, p: real): real { n as real * p }

  function Depth(levels: seq<Level>): int { if levels == [] then 0 else levels[0].qty + Depth(levels[1..]) }

  lemma {:induction false} DepthGrows(levels: seq<Level>)
    requires Sized(levels)
    ensures Depth(levels) >= 0
  {
    if levels == [] {
    } else {
      DepthGrows(levels[1..]);
    }
  }

  lemma {:induction false} DepthSplit(levels: seq<Level>, i: nat)
    requires i < |levels|
    ensures Depth(levels[..i + 1]) == Depth(levels[..i]) + levels[i].qty
  {
    if i > 0 {
      DepthSplit(levels[1..], i - 1);
      assert levels[..i + 1][1..] == levels[1..][..i] && levels[..i][1..] == levels[1..][..i - 1];
    } else {
      assert levels[..1][1..] == [] && levels[..0] == [];
    }
  }

  lemma {:induction false} UnitInLevel(levels: seq<Level>, i: nat, j: nat, beyond: real)
    requires Sized(levels) && i < |levels| && j < levels[i].qty
    ensures UnitPrice(levels, Depth(levels[..i]) + j, beyond) == levels[i].price
  {
    if i == 0 {
    } else {
      assert levels[..i][1..] == levels[1..][..i - 1];
      DepthGrows(levels[..i][1..]);
      UnitInLevel(levels[1..], i - 1, j, beyond);
    }
  }

  lemma {:induction false} UnitBeyond(levels: seq<Level>, u: int, beyond: real)
    requires Sized(levels) && u >= Depth(levels)
    ensures UnitPrice(levels, u, beyond) == beyond
  {
    if levels == [] {
    } else {
      DepthGrows(levels[1..]);
      UnitBeyond(levels[1..], u - levels[0].qty, beyond);
    }
  }

  lemma {:induction false} LevelRun(levels: seq<Level>, i: nat, take: nat, beyond: real)
    requires Sized(levels) && i < |levels| && take <= levels[i].qty && Depth(levels[..i]) >= 0
    ensures var before := Depth(levels[..i]);
            Total(levels, before + take, beyond) == Total(levels, before, beyond) + Times(take, levels[i].price)
  {
    if take == 0 {
    } else {
      LevelRun(levels, i, take - 1, beyond);
      UnitInLevel(levels, i, take - 1, beyond);
      OneMore(take, levels[i].price);
    }
  }

  lemma {:induction false} BeyondRun(levels: seq<Level>, rest: nat, beyond: real)
    requires Sized(levels) && Depth(levels) >= 0
    ensures Total(levels, Depth(levels) + rest, beyond) == Total(levels, Depth(levels), beyond) + Times(rest, beyond)
  {
    if rest == 0 {
    } else {
      BeyondRun(levels, rest - 1, beyond);
      UnitBeyond(levels, Depth(levels) + rest - 1, beyond);
      OneMore(rest, beyond);
    }
  }

  lemma OneMore(n: nat, p: real)
    requires n > 0
    ensures Times(n, p) == Times(n - 1, p) + p
  {
    assert n as real == (n - 1) as real + 1.0;
  }

  // --- the two implementations ---------------------------------------------------------------------

  function Impact(worst: real, bps: real, penalty: real): real { worst * bps * penalty / 10000.0 }

  /** What a unit past the visible book pays. */
  function Beyond(side: Side, worst: real, bps: real, penalty: real): real {
    if side.BUY? then worst + Impact(worst, bps, penalty) else worst - Impact(worst, bps, penalty)
  }

  function Slipped(side: Side, px: real, bps: real): real {
    var slip := px * bps / 10000.0;
    if side.BUY? then px + slip else px - slip
  }

  /** Slippage takes so many ten-thousandths of the price, against the side that crosses; a unit past the book pays
      `penalty` times that on the worst price seen. */
  lemma SlippageCosts(side: Side, px: real, bps: real, penalty: real)
    ensures (Slipped(side, px, bps) - px) * 10000.0 == (if side.BUY? then px * bps else -(px * bps))
    ensures Beyond(side, px, bps, penalty) - px == (Slipped(side, px, bps) - px) * penalty
  {
    var slip := px * bps / 10000.0;
    assert slip * 10000.0 == px * bps;
    Commutes(px * bps, penalty, slip);
    if side.SELL? { assert (-slip) * penalty == -(slip * penalty); }
  }

  lemma Commutes(x: real, penalty: real, slip: real)
    requires slip == x / 10000.0
    ensures x * penalty / 10000.0 == slip * penalty
  {
  }

  function AtLeastOne(q: int): nat { if q >= 1 then q else 1 }

  /** The average price of q units, at least one. */
  function Average(levels: seq<Level>, q: int, beyond: real): real {
    Total(levels, AtLeastOne(q), beyond) / AtLeastOne(q) as real
  }

  function FillAt(side: Side, levels: seq<Level>, q: int, bps: real, penalty: real): real
    requires levels != []
  {
    Slipped(side, Average(levels, q, Beyond(side, levels[|levels| - 1].price, bps, penalty)), bps)
  }

  const BEYOND_BOOK_PENALTY := 5.0

  function BeyondOf(side: Side, bps: real, penalty: real): real -> real {
    (worst: real) => Beyond(side, worst, bps, penalty)
  }

  /** execution/simulator.py; every unit of the order is filled, at a price rounded to paise. */
  method FillPrice(side: Side, raw: seq<Level>, last: Option<real>, qty: int, bps: real) returns (px: Option<real>)
    ensures Crossable(raw) != [] ==> px == Some(Cents(FillAt(side, Crossable(raw), qty, bps, 5.0)))
    ensures Crossable(raw) == [] ==>
              px == if last.None? || last.value == 0.0 then None else Some(Cents(Slipped(side, last.value, bps)))
  {
    var levels := Crossable(raw);
    var average: real;
    if levels == [] {
      if last.None? || last.value == 0.0 { return None; }
      average := last.value;
    } else {
      var notional, filled := Walk(levels, AtLeastOne(qty), BeyondOf(side, bps, BEYOND_BOOK_PENALTY));
      average := notional / filled as real;
    }
    px := Some(Cents(Slipped(side, average, bps)));
  }

  /** Level after level, and what is left over at a price found from the worst level. */
  method Walk(levels: seq<Level>, qty: nat, beyondOf: real -> real) returns (notional: real, filled: int)
    requires Visible(levels) && levels != [] && qty >= 1
    ensures filled == qty && notional == Total(levels, qty, beyondOf(levels[|levels| - 1].price))
  {
    ghost var beyond := beyondOf(levels[|levels| - 1].price);
    var remaining: int := qty;
    var i := 0;
    notional, filled := 0.0, 0;
    while i < |levels| && remaining > 0
      invariant 0 <= i <= |levels| && filled >= 0 && remaining >= 0 && filled + remaining == qty
      invariant remaining > 0 ==> filled == Depth(levels[..i])
      invariant notional == Total(levels, filled, beyond)
    {
      var take := MinI(remaining, levels[i].qty);
      LevelRun(levels, i, take, beyond);
      DepthSplit(levels, i);
      notional := notional + Times(take, levels[i].price);
      filled := filled + take;
      remaining := remaining - take;
      i := i + 1;
    }
    if remaining > 0 {
      var worst := levels[|levels| - 1].price;
      assert levels[..i] == levels;
      BeyondRun(levels, remaining, beyond);
      notional := notional + Times(remaining, beyondOf(worst));
      filled := filled + remaining;
    }
  }

  /** fno_backtest/fills.py; an empty book fills at nothing, and no units are priced at the first level. */
  method BookVwapFill(side: Side, book: seq<Level>, qty: int, bps: real, penalty: real) returns (px: real)
    requires Sized(book)
    ensures book != [] && qty >= 1 ==> px == FillAt(side, book, qty, bps, penalty)
    ensures book != [] && qty <= 0 ==> px == Slipped(side, book[0].price, bps)
    ensures book == [] ==> px == 0.0
  {
    var vwap := 0.0;
    if book != [] {
      var cost, taken, worst := Cross(book, qty, BeyondOf(side, bps, penalty));
      vwap := if taken != 0 then cost / taken as real else worst;
      if taken < 0 { SameEach(taken, worst); }
    } else {
      FreeFill(side, bps, penalty);
    }
    px := Slipped(side, vwap, bps);
  }

  method Cross(book: seq<Level>, qty: int, beyondOf: real -> real) returns (cost: real, taken: int, worst: real)
    requires Sized(book) && book != []
    ensures taken == qty
    ensures qty > 0 ==> cost == Total(book, qty, beyondOf(book[|book| - 1].price))
    ensures qty <= 0 ==> cost == Times(qty, book[0].price) && worst == book[0].price
  {
    ghost var beyond := beyondOf(book[|book| - 1].price);
    var remaining: int := qty;
    var i := 0;
    cost, taken, worst := 0.0, 0, book[0].price;
    while i < |book|
      invariant 0 <= i <= |book| && remaining + taken == qty
      invariant i > 0 ==> worst == book[i - 1].price
      invariant i == 0 ==> taken == 0 && cost == 0.0 && worst == book[0].price
      invariant qty <= 0 ==> i == 0
      invariant qty > 0 ==> taken >= 0 && remaining > 0
                            && cost == Total(book, taken, beyond) && taken == Depth(book[..i])
    {
      var take := MinI(remaining, book[i].qty);
      if qty > 0 {
        LevelRun(book, i, take, beyond);
        DepthSplit(book, i);
      }
      cost := cost + Times(take, book[i].price);
      taken := taken + take;
      remaining := remaining - take;
      worst := book[i].price;
      i := i + 1;
      if remaining <= 0 { break; }
    }
    if remaining > 0 {
      assert book[..i] == book;
      BeyondRun(book, remaining, beyond);
      cost := cost + Times(remaining, beyondOf(worst));
      taken := taken + remaining;
    }
  }

  lemma FreeFill(side: Side, bps: real, penalty: real)
    ensures Slipped(side, 0.0, bps) == 0.0 && Beyond(side, 0.0, bps, penalty) == 0.0
  {
  }

  lemma SameEach(n: int, p: real)
    requires n != 0
    ensures Times(n, p) / n as real == p
  {
  }

  lemma FirstUnit(book: seq<Level>, beyond: real)
    requires Visible(book) && book != []
    ensures Average(book, 0, beyond) == book[0].price
  {
    assert Total(book, 1, beyond) == book[0].price;
  }

  // --- average cost --------------------------------------------------------------------------------

  /** Best level first for a buyer, and nothing past the book cheaper than its worst level. */
  predicate Rising(levels: seq<Level>, beyond: real) {
    && (forall i, j :: 0 <= i < j < |levels| ==> levels[i].price <= levels[j].price)
    && forall i :: 0 <= i < |levels| ==> levels[i].price <= beyond
  }

  lemma {:induction false} UnitsFromWorse(levels: seq<Level>, u: int, beyond: real, p: real)
    requires p <= beyond && forall i :: 0 <= i < |levels| ==> p <= levels[i].price
    ensures p <= UnitPrice(levels, u, beyond)
  {
    if levels == [] {
    } else {
      UnitsFromWorse(levels[1..], u - levels[0].qty, beyond, p);
    }
  }

  lemma {:induction false} UnitsRise(levels: seq<Level>, u: int, v: int, beyond: real)
    requires Rising(levels, beyond) && u <= v
    ensures UnitPrice(levels, u, beyond) <= UnitPrice(levels, v, beyond)
  {
    if levels == [] {
    } else {
      var rest := levels[1..];
      if u >= levels[0].qty {
        UnitsRise(rest, u - levels[0].qty, v - levels[0].qty, beyond);
      } else {
        UnitsFromWorse(rest, v - levels[0].qty, beyond, levels[0].price);
      }
    }
  }

  lemma {:induction false} TotalUnder(levels: seq<Level>, q: nat, v: int, beyond: real)
    requires Rising(levels, beyond) && q <= v + 1
    ensures Total(levels, q, beyond) <= Times(q, UnitPrice(levels, v, beyond))
  {
    if q == 0 {
    } else {
      TotalUnder(levels, q - 1, v, beyond);
      UnitsRise(levels, q - 1, v, beyond);
      OneMore(q, UnitPrice(levels, v, beyond));
    }
  }

  lemma AverageStep(total: real, q: nat, next: real)
    requires q >= 1 && total <= Times(q, next)
    ensures total / q as real <= (total + next) / (q + 1) as real
  {
    var n := q as real;
    CrossMultiply(total, n, total + next, n + 1.0);
  }

  lemma CrossMultiply(a: real, n: real, b: real, m: real)
    requires n > 0.0 && m > 0.0 && a * m <= b * n
    ensures a / n <= b / m
  {
    var x, y := a / n, b / m;
    Quotient(a, n, m, x);
    Quotient(b, m, n, y);
    if x > y { Larger(x, y, n * m); }
  }

  lemma Quotient(a: real, n: real, m: real, x: real)
    requires n > 0.0 && x == a / n
    ensures a * m == x * (n * m)
  {
    assert a == x * n;
  }

  lemma Larger(x: real, y: real, c: real)
    requires x > y && c > 0.0
    ensures x * c > y * c
  {
  }

  /** On a rising book the average unit never gets cheaper with size. */
  lemma {:induction false} AverageRises(levels: seq<Level>, q: int, q': int, beyond: real)
    requires Rising(levels, beyond) && q <= q'
    ensures Average(levels, q, beyond) <= Average(levels, q', beyond)
    decreases q' - q
  {
    if 1 <= q < q' {
      AverageRises(levels, q, q' - 1, beyond);
      TotalUnder(levels, q' - 1, q' - 1, beyond);
      AverageStep(Total(levels, q' - 1, beyond), q' - 1, UnitPrice(levels, q' - 1, beyond));
    } else if q < 1 < q' {
      AverageRises(levels, 1, q', beyond);
    }
  }

  // --- sellers are mirrored buyers -----------------------------------------------------------------

  function Mirror(levels: seq<Level>): seq<Level> {
    seq(|levels|, i requires 0 <= i < |levels| => Level(-levels[i].price, levels[i].qty))
  }

  lemma {:induction false} UnitMirrored(levels: seq<Level>, u: int, beyond: real)
    ensures UnitPrice(Mirror(levels), u, -beyond) == -UnitPrice(levels, u, beyond)
  {
    if levels == [] {
    } else {
      assert Mirror(levels)[1..] == Mirror(levels[1..]);
      UnitMirrored(levels[1..], u - levels[0].qty, beyond);
    }
  }

  lemma {:induction false} TotalMirrored(levels: seq<Level>, q: nat, beyond: real)
    ensures Total(Mirror(levels), q, -beyond) == -Total(levels, q, beyond)
  {
    if q == 0 {
    } else {
      TotalMirrored(levels, q - 1, beyond);
      UnitMirrored(levels, q - 1, beyond);
    }
  }

  lemma AverageMirrored(levels: seq<Level>, q: int, beyond: real)
    ensures Average(Mirror(levels), q, -beyond) == -Average(levels, q, beyond)
  {
    TotalMirrored(levels, AtLeastOne(q), beyond);
    Negate(Total(levels, AtLeastOne(q), beyond), AtLeastOne(q) as real);
  }

  lemma Negate(a: real, n: real)
    requires n > 0.0
    ensures (-a) / n == -(a / n)
  {
    var x := a / n;
    assert (-x) * n == -a;
  }

  lemma AverageFalls(levels: seq<Level>, q: int, q': int, beyond: real)
    requires Rising(Mirror(levels), -beyond) && q <= q'
    ensures Average(levels, q', beyond) <= Average(levels, q, beyond)
  {
    AverageRises(Mirror(levels), q, q', -beyond);
    AverageMirrored(levels, q, beyond);
    AverageMirrored(levels, q', beyond);
  }

  // --- the fill ------------------------------------------------------------------------------------

  /** Best level first, for the side that crosses it. */
  predicate Sorted(side: Side, levels: seq<Level>) {
    forall i, j :: 0 <= i < j < |levels| ==> Before(side, levels[i], levels[j])
  }

  lemma ImpactNonNegative(worst: real, bps: real, penalty: real)
    requires worst >= 0.0 && bps >= 0.0 && penalty >= 0.0
    ensures Impact(worst, bps, penalty) >= 0.0
  {
    assert worst * bps >= 0.0;
    Product(worst * bps, penalty);
  }

  lemma Product(a: real, b: real)
    requires a >= 0.0 && b >= 0.0
    ensures a * b >= 0.0
  {
  }

  function BeyondBook(side: Side, levels: seq<Level>, bps: real, penalty: real): real requires levels != [] {
    Beyond(side, levels[|levels| - 1].price, bps, penalty)
  }

  lemma SortedRises(side: Side, levels: seq<Level>, bps: real, penalty: real)
    requires Visible(levels) && levels != [] && Sorted(side, levels) && bps >= 0.0 && penalty >= 0.0
    ensures var beyond := BeyondBook(side, levels, bps, penalty);
            if side.BUY? then Rising(levels, beyond) else Rising(Mirror(levels), -beyond)
  {
    ImpactNonNegative(levels[|levels| - 1].price, bps, penalty);
  }

  /** Buyers' slippage keeps the order of prices; sellers' does so up to all of the price, and reverses it beyond. */
  lemma SlippedOrdered(side: Side, x: real, y: real, bps: real)
    requires x <= y && bps >= 0.0
    ensures side.BUY? || bps <= 10000.0 ==> Slipped(side, x, bps) <= Slipped(side, y, bps)
    ensures side.SELL? && bps > 10000.0 ==> Slipped(side, y, bps) <= Slipped(side, x, bps)
    ensures side.SELL? && bps > 10000.0 && x < y ==> Slipped(side, y, bps) < Slipped(side, x, bps)
  {
    var f := bps / 10000.0;
    SlipFactor(x, bps, f);
    SlipFactor(y, bps, f);
    if side.BUY? {
      Product(y - x, f);
    } else if bps <= 10000.0 {
      Product(y - x, 1.0 - f);
    } else if x < y {
      PositiveProduct(y - x, f - 1.0);
    }
  }

  lemma PositiveProduct(a: real, b: real)
    requires a > 0.0 && b > 0.0
    ensures a * b > 0.0
  {
  }

  lemma SlipFactor(x: real, bps: real, f: real)
    requires f == bps / 10000.0
    ensures x * bps / 10000.0 == x * f
  {
  }

  /** A larger buy never pays less per unit; a larger sale never earns more per unit, as long as slippage takes no
      more than the whole price or the two sizes average the same. Rounding keeps that. */
  lemma SizeCosts(side: Side, levels: seq<Level>, q: int, q': int, bps: real, penalty: real)
    requires Visible(levels) && levels != [] && Sorted(side, levels) && q <= q'
    requires bps >= 0.0 && penalty >= 0.0
    ensures var less, more, beyond := FillAt(side, levels, q, bps, penalty), FillAt(side, levels, q', bps, penalty),
                                      BeyondBook(side, levels, bps, penalty);
            && (side.BUY? ==> less <= more && Cents(less) <= Cents(more))
            && (side.SELL? ==>
                  && (more <= less <==> bps <= 10000.0 || Average(levels, q, beyond) == Average(levels, q', beyond))
                  && (more <= less ==> Cents(more) <= Cents(less)))
  {
    var beyond := BeyondBook(side, levels, bps, penalty);
    var less, more := FillAt(side, levels, q, bps, penalty), FillAt(side, levels, q', bps, penalty);
    SortedRises(side, levels, bps, penalty);
    if side.BUY? {
      AverageRises(levels, q, q', beyond);
      SlippedOrdered(side, Average(levels, q, beyond), Average(levels, q', beyond), bps);
      CentsKeepOrder(less, more);
    } else {
      AverageFalls(levels, q, q', beyond);
      SlippedOrdered(side, Average(levels, q', beyond), Average(levels, q, beyond), bps);
      if more <= less { CentsKeepOrder(more, less); }
    }
  }

  // --- two orders in a row -------------------------------------------------------------------------

  /** The book after q units are taken from it. */
  function Consumed(levels: seq<Level>, q: nat): seq<Level> {
    if levels == [] || q == 0 then levels
    else if q < levels[0].qty then [levels[0].(qty := levels[0].qty - q)] + levels[1..]
    else if levels[0].qty >= 0 then Consumed(levels[1..], q - levels[0].qty) else levels
  }

  lemma {:induction false} UnitAfter(levels: seq<Level>, q: nat, u: nat, beyond: real)
    requires Visible(levels)
    ensures UnitPrice(levels, q + u, beyond) == UnitPrice(Consumed(levels, q), u, beyond)
  {
    if levels == [] || q == 0 {
    } else {
      if q < levels[0].qty {
        assert Consumed(levels, q)[1..] == levels[1..];
      } else {
        UnitAfter(levels[1..], q - levels[0].qty, u, beyond);
      }
    }
  }

  /** Walking q and then q' more units costs what walking q + q' does. */
  lemma {:induction false} WalkSplits(levels: seq<Level>, q: nat, q': nat, beyond: real)
    requires Visible(levels)
    ensures Total(levels, q + q', beyond) == Total(levels, q, beyond) + Total(Consumed(levels, q), q', beyond)
  {
    if q' == 0 {
    } else {
      WalkSplits(levels, q, q' - 1, beyond);
      UnitAfter(levels, q, q' - 1, beyond);
    }
  }

  lemma {:induction false} ConsumedSorted(side: Side, levels: seq<Level>, q: nat)
    requires Sorted(side, levels)
    ensures Sorted(side, Consumed(levels, q))
  {
    if levels == [] || q == 0 || q < levels[0].qty || levels[0].qty < 0 {
    } else {
      ConsumedSorted(side, levels[1..], q - levels[0].qty);
    }
  }

  lemma {:induction false} ConsumedDepth(levels: seq<Level>, q: nat)
    requires Visible(levels) && q < Depth(levels)
    ensures var rest := Consumed(levels, q);
            && rest != [] && Visible(rest) && Depth(rest) == Depth(levels) - q
            && rest[|rest| - 1].price == levels[|levels| - 1].price
  {
    if q == 0 {
    } else {
      if q < levels[0].qty {
        assert Consumed(levels, q)[1..] == levels[1..];
      } else {
        ConsumedDepth(levels[1..], q - levels[0].qty);
      }
    }
  }

  /** While some of the book is left it is still sorted, and the price past it is the same. */
  lemma ConsumedBook(side: Side, levels: seq<Level>, q: nat, bps: real, penalty: real)
    requires Visible(levels) && Sorted(side, levels) && q < Depth(levels)
    ensures var rest := Consumed(levels, q);
            && rest != [] && Visible(rest) && Sorted(side, rest) && Depth(rest) == Depth(levels) - q
            && BeyondBook(side, rest, bps, penalty) == BeyondBook(side, levels, bps, penalty)
  {
    ConsumedSorted(side, levels, q);
    ConsumedDepth(levels, q);
  }

  // --- buying and selling back ---------------------------------------------------------------------

  lemma FirstIsBest(levels: seq<Level>, q: int, beyond: real)
    requires Visible(levels) && levels != []
    ensures Rising(levels, beyond) ==> levels[0].price <= Average(levels, q, beyond)
    ensures Rising(Mirror(levels), -beyond) ==> Average(levels, q, beyond) <= levels[0].price
  {
    FirstUnit(levels, beyond);
    if Rising(levels, beyond) { AverageRises(levels, MinI(q, 0), q, beyond); }
    if Rising(Mirror(levels), -beyond) { AverageFalls(levels, MinI(q, 0), q, beyond); }
  }

  /** No size bought and sold back gains per unit. */
  ghost predicate NoProfit(asks: seq<Level>, bids: seq<Level>, bps: real, penalty: real)
    requires asks != [] && bids != []
  {
    forall q, q' :: FillAt(SELL, bids, q', bps, penalty) <= FillAt(BUY, asks, q, bps, penalty)
  }

  /** A sale so large that it averages within e of the price past the book. */
  lemma {:induction false} LargeSale(levels: seq<Level>, beyond: real, e: real) returns (q: nat)
    requires Visible(levels) && e > 0.0
    ensures q >= 1 && Average(levels, q, beyond) <= beyond + e
  {
    DepthGrows(levels);
    var d: nat := Depth(levels);
    var extra := Total(levels, d, beyond) - Times(d, beyond);
    var n: int := (extra / e).Floor + 1;
    q := if n > d then n else d + 1;
    BeyondRun(levels, q - d, beyond);
    TimesAdd(d, q - d, beyond);
    assert Total(levels, q, beyond) == Times(q, beyond) + extra;
    ExtraSpread(extra, e, q);
    AverageOf(Total(levels, q, beyond), beyond, e, q);
  }

  lemma TimesAdd(m: int, n: int, p: real)
    ensures Times(m, p) + Times(n, p) == Times(m + n, p)
  {
    Distribute(m as real, n as real, p);
  }

  lemma Distribute(a: real, b: real, p: real)
    ensures a * p + b * p == (a + b) * p
  {
  }

  lemma ExtraSpread(extra: real, e: real, q: nat)
    requires e > 0.0 && q >= (extra / e).Floor + 1
    ensures extra <= Times(q, e)
  {
    var x := extra / e;
    assert x * e == extra && x <= q as real;
    if x < q as real { PositiveProduct(q as real - x, e); }
  }

  lemma AverageOf(total: real, p: real, e: real, q: nat)
    requires q >= 1 && total <= Times(q, p) + Times(q, e)
    ensures total / q as real <= p + e
  {
    var x, n := total / q as real, q as real;
    assert x * n == total;
    if x > p + e { Larger(x, p + e, n); }
  }

  /** A sale never averages less than the price past the book. */
  lemma LeastSale(bids: seq<Level>, q: int, bps: real, penalty: real)
    requires Visible(bids) && bids != [] && Sorted(SELL, bids) && bps >= 0.0 && penalty >= 0.0
    ensures var beyond := BeyondBook(SELL, bids, bps, penalty);
            beyond <= Average(bids, q, beyond) <= bids[0].price
  {
    var beyond, n := BeyondBook(SELL, bids, bps, penalty), AtLeastOne(q);
    SortedRises(SELL, bids, bps, penalty);
    FirstIsBest(bids, q, beyond);
    MirroredUnder(bids, n, beyond);
    AtLeastEach(Total(bids, n, beyond), beyond, n);
  }

  lemma AtLeastEach(total: real, p: real, q: nat)
    requires q >= 1 && Times(q, p) <= total
    ensures p <= total / q as real
  {
    var x, n := total / q as real, q as real;
    assert x * n == total;
    if x < p { Larger(p, x, n); }
  }

  lemma MirroredUnder(bids: seq<Level>, q: nat, beyond: real)
    requires Visible(bids) && Rising(Mirror(bids), -beyond)
    ensures Times(q, beyond) <= Total(bids, q, beyond)
  {
    var far := MaxDepth(bids, q);
    TotalUnder(Mirror(bids), q, far, -beyond);
    TotalMirrored(bids, q, beyond);
    UnitMirrored(bids, far, beyond);
    UnitBeyond(bids, far, beyond);
    assert Times(q, -beyond) == -Times(q, beyond);
  }

  /** A unit past the book and past the first q. */
  function MaxDepth(levels: seq<Level>, q: nat): int { if Depth(levels) > q then Depth(levels) else q }

  /** On an uncrossed book no size bought and sold back gains per unit exactly when the price past the bids, slipped,
      stays under the best ask, slipped; as long as slippage takes no more than the whole price it does. */
  lemma NoRoundTripProfit(asks: seq<Level>, bids: seq<Level>, bps: real, penalty: real)
    requires Visible(asks) && asks != [] && Sorted(BUY, asks) && Visible(bids) && bids != [] && Sorted(SELL, bids)
    requires bids[0].price <= asks[0].price && bps >= 0.0 && penalty >= 0.0
    ensures NoProfit(asks, bids, bps, penalty)
            <==> Slipped(SELL, BeyondBook(SELL, bids, bps, penalty), bps) <= Slipped(BUY, asks[0].price, bps)
    ensures bps <= 10000.0 ==> NoProfit(asks, bids, bps, penalty)
  {
    var dear, cheap := BeyondBook(BUY, asks, bps, penalty), BeyondBook(SELL, bids, bps, penalty);
    var edge, best := Slipped(SELL, cheap, bps), Slipped(BUY, asks[0].price, bps);
    SortedRises(BUY, asks, bps, penalty);
    LeastSale(bids, 1, bps, penalty);
    SpreadOnly(asks[0].price, cheap, bps);
    if edge <= best {
      forall q, q' ensures FillAt(SELL, bids, q', bps, penalty) <= FillAt(BUY, asks, q, bps, penalty) {
        FirstIsBest(asks, q, dear);
        LeastSale(bids, q', bps, penalty);
        SlippedOrdered(BUY, asks[0].price, Average(asks, q, dear), bps);
        SlippedOrdered(SELL, cheap, Average(bids, q', cheap), bps);
        SpreadOnly(Average(asks, q, dear), Average(bids, q', cheap), bps);
      }
    } else {
      var q := ProfitableSale(bids, cheap, edge - best, bps);
      FirstUnit(asks, dear);
      assert FillAt(SELL, bids, q, bps, penalty) > FillAt(BUY, asks, 0, bps, penalty);
    }
  }

  /** Where slippage takes more than the whole price, some sale comes within e of the slipped price past the book. */
  lemma ProfitableSale(bids: seq<Level>, beyond: real, e: real, bps: real) returns (q: nat)
    requires Visible(bids) && e > 0.0 && bps > 10000.0
    ensures Slipped(SELL, Average(bids, q, beyond), bps) > Slipped(SELL, beyond, bps) - e
  {
    var f := bps / 10000.0;
    var near := e / (2.0 * (f - 1.0));
    assert near * (f - 1.0) == e / 2.0;
    q := LargeSale(bids, beyond, near);
    SlippedOrdered(SELL, Average(bids, q, beyond), beyond + near, bps);
    SlipFactor(beyond + near, bps, f);
    SlipFactor(beyond, bps, f);
    Distribute(beyond, near, f);
  }

  lemma SpreadOnly(bought: real, sold: real, bps: real)
    requires sold <= bought && bought >= 0.0 && bps >= 0.0
    ensures bps <= 10000.0 ==> Slipped(SELL, sold, bps) <= Slipped(BUY, bought, bps)
  {
    SlippedOrdered(SELL, sold, bought, bps);
    Product(bought, bps);
  }

  /** With the same penalty the two implementations agree, to the paisa the first rounds to, on every quantity of
      every visible book; without one, the first falls back to the last price and the second fills at nothing. */
  method Agree(side: Side, book: seq<Level>, last: Option<real>, qty: int, bps: real) returns (a: Option<real>, b: real)
    requires Visible(book)
    ensures book != [] ==> a == Some(Cents(b))
    ensures book == [] ==> b == 0.0 && (a.None? <==> last.None? || last.value == 0.0)
  {
    a := FillPrice(side, book, last, qty, bps);
    b := BookVwapFill(side, book, qty, bps, BEYOND_BOOK_PENALTY);
    if book != [] && qty <= 0 {
      FirstUnit(book, BeyondBook(side, book, bps, BEYOND_BOOK_PENALTY));
    }
  }
}
