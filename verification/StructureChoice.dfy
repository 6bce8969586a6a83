/** fno_signals/structures.py: a routed family and the live chain become a one-lot structure. */
module StructureChoice {
  import opened Numbers
  import opened Options
  import opened Payoffs

  datatype Quote = Quote(opt: OptType, strike: real, close: real)

  /** The strikes of one option type, in the chain's order. */
  function Strikes(chain: seq<Quote>, opt: OptType): seq<real> {
    if chain == [] then []
    else
      var q := chain[|chain| - 1];
      Strikes(chain[..|chain| - 1], opt) + if q.opt == opt then [q.strike] else []
  }

  lemma {:induction false} StrikeFromRow(chain: seq<Quote>, opt: OptType, k: real) returns (n: nat)
    requires k in Strikes(chain, opt)
    ensures n < |chain| && chain[n].opt == opt && chain[n].strike == k
  {
    n := |chain| - 1;
    if chain[n].opt == opt && chain[n].strike == k {
    } else {
      n := StrikeFromRow(chain[..n], opt, k);
    }
  }

  /** numpy's argmin of the distance. */
  function ArgNearest(ks: seq<real>, x: real): (i: nat)
    requires ks != []
    ensures i < |ks|
  {
    var m := |ks| - 1;
    if m == 0 then 0
    else
      var i := ArgNearest(ks[..m], x);
      if AbsR(ks[m] - x) < AbsR(ks[i] - x) then m else i
  }

  function Away(k: real, x: real): real { AbsR(k - x) }

  predicate FirstLeast(ks: seq<real>, x: real, i: nat) {
    && i < |ks| && (forall j :: 0 <= j < |ks| ==> Away(ks[i], x) <= Away(ks[j], x))
    && forall j :: 0 <= j < i ==> Away(ks[i], x) < Away(ks[j], x)
  }

  lemma FirstLeastOf(ks: seq<real>, x: real, i: nat, k: real, all: seq<real>)
    requires FirstLeast(ks, x, i) && all == ks + [k]
    ensures FirstLeast(all, x, if Away(k, x) < Away(ks[i], x) then |ks| else i)
  {
  }

  /** The first of the nearest. */
  lemma {:induction false} ArgNearestIsFirstLeast(ks: seq<real>, x: real)
    requires ks != []
    ensures FirstLeast(ks, x, ArgNearest(ks, x))
  {
    var m := |ks| - 1;
    if m == 0 {
    } else {
      var i := ArgNearest(ks[..m], x);
      ArgNearestIsFirstLeast(ks[..m], x);
      FirstLeastOf(ks[..m], x, i, ks[m], ks);
      assert ArgNearest(ks, x) == if Away(ks[m], x) < Away(ks[i], x) then m else i;
    }
  }

  function Nearest(ks: seq<real>, x: real): real requires ks != [] { ks[ArgNearest(ks, x)] }

  lemma NearestListed(ks: seq<real>, x: real)
    requires ks != []
    ensures Nearest(ks, x) in ks && forall k :: k in ks ==> AbsR(Nearest(ks, x) - x) <= AbsR(k - x)
  {
    ArgNearestIsFirstLeast(ks, x);
  }

  /** A farther target never picks a nearer strike; ties between lists in different order need distinct targets. */
  lemma NearestMonotone(ks: seq<real>, ks': seq<real>, x: real, y: real)
    requires ks != [] && ks' != [] && forall k :: k in ks <==> k in ks'
    requires x < y || (x == y && ks == ks')
    ensures Nearest(ks, x) <= Nearest(ks', y)
  {
    if x < y {
      NearestListed(ks, x);
      NearestListed(ks', y);
    }
  }

  function Price(chain: seq<Quote>, opt: OptType, strike: real): Option<real>
    decreases |chain|
  {
    if chain == [] then None
    else if chain[0].opt == opt && chain[0].strike == strike then Some(chain[0].close)
    else Price(chain[1..], opt, strike)
  }

  lemma {:induction false} ListedIsPriced(chain: seq<Quote>, opt: OptType, n: nat)
    requires n < |chain| && chain[n].opt == opt
    ensures Price(chain, opt, chain[n].strike).Some?
    decreases |chain|
  {
    if n == 0 {
    } else {
      ListedIsPriced(chain[1..], opt, n - 1);
    }
  }

  /** Of several quotes for one strike the first names its price. */
  lemma {:induction false} FirstQuotePrices(chain: seq<Quote>, opt: OptType, n: nat)
    requires n < |chain| && chain[n].opt == opt
    requires forall m :: 0 <= m < n ==> chain[m].opt != opt || chain[m].strike != chain[n].strike
    ensures Price(chain, opt, chain[n].strike) == Some(chain[n].close)
    decreases |chain|
  {
    if n == 0 {
    } else {
      assert chain[0].opt != opt || chain[0].strike != chain[n].strike;
      FirstQuotePrices(chain[1..], opt, n - 1);
    }
  }

  /** Strikes keep the order of the chain, which decides ties. */
  lemma {:induction false} StrikesAppend(a: seq<Quote>, b: seq<Quote>, opt: OptType)
    ensures Strikes(a + b, opt) == Strikes(a, opt) + Strikes(b, opt)
  {
    if b == [] {
      assert a + b == a;
    } else {
      assert (a + b)[..|a + b| - 1] == a + b[..|b| - 1];
      StrikesAppend(a, b[..|b| - 1], opt);
    }
  }

  /** Strike and price nearest a target. */
  function Pick(chain: seq<Quote>, opt: OptType, target: real): Picked {
    var ks := Strikes(chain, opt);
    if ks == [] then None
    else
      var k := Nearest(ks, target);
      match Price(chain, opt, k)
      case None => None
      case Some(p) => Some((k, p))
  }

  lemma PickFailsOnlyWhenEmpty(chain: seq<Quote>, opt: OptType, target: real)
    ensures Pick(chain, opt, target).None? <==> Strikes(chain, opt) == []
  {
    var ks := Strikes(chain, opt);
    if ks != [] {
      var k := Nearest(ks, target);
      assert k in ks;
      var n := StrikeFromRow(chain, opt, k);
      ListedIsPriced(chain, opt, n);
    }
  }

  function Vertical(name: Family, opt: OptType, first: Side, near: (real, real), far: (real, real), q: nat): Structure {
    var second := if first.BUY? then SELL else BUY;
    Structure(name, [Leg(opt, near.0, first, q, near.1), Leg(opt, far.0, second, q, far.1)])
  }

  function Condor(pl: (real, real), ps: (real, real), cs: (real, real), cl: (real, real), q: nat): Structure {
    Structure(IronCondor, [Leg(PE, pl.0, BUY, q, pl.1), Leg(PE, ps.0, SELL, q, ps.1),
                           Leg(CE, cs.0, SELL, q, cs.1), Leg(CE, cl.0, BUY, q, cl.1)])
  }

  type Picked = Option<(real, real)>

  function CondorFrom(ps: Picked, pl: Picked, cs: Picked, cl: Picked, q: nat): Option<Structure> {
    if ps.None? || pl.None? || cs.None? || cl.None? then None
    else Some(Condor(pl.value, ps.value, cs.value, cl.value, q))
  }

  /** `ce` and `pe` find the strike and price nearest a target; `w` and `wing` are the width and wing in points. */
  function SelectCondor(ce: real -> Picked, pe: real -> Picked, atm: real, q: nat, w: real, wing: real)
    : Option<Structure>
  {
    CondorFrom(pe(atm - w), pe(atm - w - wing), ce(atm + w), ce(atm + w + wing), q)
  }

  function SelectVertical(family: Family, ce: real -> Picked, pe: real -> Picked, atm: real, q: nat, w: real,
                          wing: real): Option<Structure>
    requires !family.IronCondor?
  {
    match family
    case BullCallDebit => (
      match (ce(atm), ce(atm + w))
      case (Some(lo), Some(hi)) => if hi.0 <= lo.0 then None else Some(Vertical(family, CE, BUY, lo, hi, q))
      case _ => None)
    case BearPutDebit => (
      match (pe(atm), pe(atm - w))
      case (Some(hi), Some(lo)) => if lo.0 >= hi.0 then None else Some(Vertical(family, PE, BUY, hi, lo, q))
      case _ => None)
    case BullPutCredit => (
      match (pe(atm - w), pe(atm - w - wing))
      case (Some(s), Some(l)) => if l.0 >= s.0 then None else Some(Vertical(family, PE, SELL, s, l, q))
      case _ => None)
    case BearCallCredit => (
      match (ce(atm + w), ce(atm + w + wing))
      case (Some(s), Some(l)) => if l.0 <= s.0 then None else Some(Vertical(family, CE, SELL, s, l, q))
      case _ => None)
  }

  function Picker(chain: seq<Quote>, opt: OptType): real -> Picked { (x: real) => Pick(chain, opt, x) }

  function SelectFrom(family: Family, ce: real -> Picked, pe: real -> Picked, atm: real, q: nat, w: real, wing: real)
    : Option<Structure>
  {
    if family.IronCondor? then SelectCondor(ce, pe, atm, q, w, wing)
    else SelectVertical(family, ce, pe, atm, q, w, wing)
  }

  function SelectStructure(family: Family, chain: seq<Quote>, spot: real, q: nat, w: real, wing: real)
    : Option<Structure>
  {
    if Strikes(chain, CE) == [] then None
    else SelectFrom(family, Picker(chain, CE), Picker(chain, PE), Nearest(Strikes(chain, CE), spot), q, w, wing)
  }

  // --- what was built ------------------------------------------------------------------------------

  function Pattern(f: Family): seq<(OptType, Side)> {
    match f
    case BullCallDebit => [(CE, BUY), (CE, SELL)]
    case BearPutDebit => [(PE, BUY), (PE, SELL)]
    case BullPutCredit => [(PE, SELL), (PE, BUY)]
    case BearCallCredit => [(CE, SELL), (CE, BUY)]
    case IronCondor => [(PE, BUY), (PE, SELL), (CE, SELL), (CE, BUY)]
  }

  /** Legs as the family has them, q units each. */
  predicate Built(s: Structure, q: nat) {
    && |s.legs| == |Pattern(s.name)|
    && forall n :: 0 <= n < |s.legs| ==> (s.legs[n].opt, s.legs[n].side) == Pattern(s.name)[n] && s.legs[n].qty == q
  }

  /** Its payoff per unit. */
  function TentOf(s: Structure, q: nat): Tent requires Built(s, q) {
    var ls := s.legs;
    match s.name
    case BullCallDebit =>
      Tent(ls[1].strike - ls[0].strike - ls[0].entry + ls[1].entry,
           ls[0].strike, ls[1].strike, ls[1].strike, ls[1].strike)
    case BearPutDebit =>
      Tent(ls[0].strike - ls[1].strike - ls[0].entry + ls[1].entry,
           ls[1].strike, ls[1].strike, ls[1].strike, ls[0].strike)
    case BullPutCredit =>
      Tent(ls[0].entry - ls[1].entry, ls[1].strike, ls[0].strike, ls[0].strike, ls[0].strike)
    case BearCallCredit =>
      Tent(ls[0].entry - ls[1].entry, ls[0].strike, ls[0].strike, ls[0].strike, ls[1].strike)
    case IronCondor =>
      Tent(ls[1].entry + ls[2].entry - ls[0].entry - ls[3].entry,
           ls[0].strike, ls[1].strike, ls[2].strike, ls[3].strike)
  }

  /** Legs as the family has them, with their strikes in order. */
  predicate WellBuilt(s: Structure, family: Family, q: nat) {
    s.name == family && Built(s, q) && TentOf(s, q).Ordered()
  }

  function Units(q: nat): real -> real { (x: real) => x * q as real }

  lemma Sum2(a: real, b: real, q: real)
    ensures a * q + b * q == (a + b) * q
  {
  }

  lemma TentIsPerUnit(st: Structure, q: nat, s: real)
    requires Built(st, q) && TentOf(st, q).Ordered()
    ensures TentOf(st, q).Value(s) ==
            if |st.legs| == 2 then PerUnit(st.legs[0], s) + PerUnit(st.legs[1], s)
            else PerUnit(st.legs[0], s) + PerUnit(st.legs[1], s) + (PerUnit(st.legs[2], s) + PerUnit(st.legs[3], s))
  {
    match st.name
    case BullCallDebit =>
    case BearPutDebit =>
    case BullPutCredit =>
    case BearCallCredit =>
    case IronCondor =>
  }

  lemma LegIsPerUnit(l: Leg, s: real, q: nat)
    requires l.qty == q
    ensures AtSpot(s)(l) == Units(q)(PerUnit(l, s))
  {
  }

  lemma UnitsAdd(q: nat, a: real, b: real)
    ensures Units(q)(a) + Units(q)(b) == Units(q)(a + b)
  {
    Sum2(a, b, q as real);
  }

  lemma PayoffIsTent(st: Structure, q: nat, s: real)
    requires Built(st, q) && TentOf(st, q).Ordered()
    ensures PayoffAt(st.legs, s) == Units(q)(TentOf(st, q).Value(s))
  {
    var ls := st.legs;
    TentIsPerUnit(st, q, s);
    LegIsPerUnit(ls[0], s, q);
    LegIsPerUnit(ls[1], s, q);
    UnitsAdd(q, PerUnit(ls[0], s), PerUnit(ls[1], s));
    if |ls| == 2 {
      SumOfTwo(AtSpot(s), ls);
    } else {
      SumOfFour(AtSpot(s), ls);
      LegIsPerUnit(ls[2], s, q);
      LegIsPerUnit(ls[3], s, q);
      UnitsAdd(q, PerUnit(ls[2], s), PerUnit(ls[3], s));
      UnitsAdd(q, PerUnit(ls[0], s) + PerUnit(ls[1], s), PerUnit(ls[2], s) + PerUnit(ls[3], s));
    }
  }

  lemma UnitsGrow(q: nat)
    requires q > 0
    ensures Growing(Units(q))
  {
    forall x: real, y: real | x < y ensures Units(q)(x) < Units(q)(y) { MoreUnits(q as real, x, y); }
  }

  lemma MoreUnits(q: real, x: real, y: real)
    requires q > 0.0 && x < y
    ensures x * q < y * q
  {
  }

  /** Both option types list the same strikes. */
  predicate SameStrikes(chain: seq<Quote>) {
    forall k :: k in Strikes(chain, CE) + Strikes(chain, PE) ==> k in Strikes(chain, CE) && k in Strikes(chain, PE)
  }

  predicate AtMost(a: Picked, b: Picked) { a.Some? && b.Some? ==> a.value.0 <= b.value.0 }

  lemma WingOrdered(chain: seq<Quote>, opt: OptType, pick: real -> Picked, x: real, y: real)
    requires x <= y && pick == Picker(chain, opt)
    ensures AtMost(pick(x), pick(y))
  {
    var ks := Strikes(chain, opt);
    if ks != [] { NearestMonotone(ks, ks, x, y); }
  }

  lemma BodyOrdered(chain: seq<Quote>, ce: real -> Picked, pe: real -> Picked, x: real, y: real)
    requires x < y && SameStrikes(chain) && ce == Picker(chain, CE) && pe == Picker(chain, PE)
    ensures AtMost(pe(x), ce(y))
  {
    var pes, ces := Strikes(chain, PE), Strikes(chain, CE);
    if pes != [] && ces != [] {
      assert forall k :: k in pes <==> k in ces;
      NearestMonotone(pes, ces, x, y);
    }
  }

  lemma CondorOrdered(ps: Picked, pl: Picked, cs: Picked, cl: Picked, q: nat)
    requires CondorFrom(ps, pl, cs, cl, q).Some? && AtMost(pl, ps) && AtMost(ps, cs) && AtMost(cs, cl)
    ensures WellBuilt(CondorFrom(ps, pl, cs, cl, q).value, IronCondor, q)
  {
  }

  lemma VerticalOrdered(family: Family, ce: real -> Picked, pe: real -> Picked, atm: real, q: nat, w: real, wing: real)
    requires !family.IronCondor? && SelectVertical(family, ce, pe, atm, q, w, wing).Some?
    ensures WellBuilt(SelectVertical(family, ce, pe, atm, q, w, wing).value, family, q)
  {
  }

  lemma CondorAtMost(chain: seq<Quote>, ce: real -> Picked, pe: real -> Picked, a: real, b: real, c: real, d: real)
    requires ce == Picker(chain, CE) && pe == Picker(chain, PE) && SameStrikes(chain) && a <= b < c <= d
    ensures AtMost(pe(a), pe(b)) && AtMost(pe(b), ce(c)) && AtMost(ce(c), ce(d))
  {
    WingOrdered(chain, PE, pe, a, b);
    WingOrdered(chain, CE, ce, c, d);
    BodyOrdered(chain, ce, pe, b, c);
  }

  lemma PickedOrdered(chain: seq<Quote>, ce: real -> Picked, pe: real -> Picked, atm: real, q: nat, w: real, wing: real)
    requires ce == Picker(chain, CE) && pe == Picker(chain, PE) && SelectCondor(ce, pe, atm, q, w, wing).Some?
    requires SameStrikes(chain) && w > 0.0 && wing >= 0.0
    ensures WellBuilt(SelectCondor(ce, pe, atm, q, w, wing).value, IronCondor, q)
  {
    CondorAtMost(chain, ce, pe, atm - w - wing, atm - w, atm + w, atm + w + wing);
    CondorOrdered(pe(atm - w), pe(atm - w - wing), ce(atm + w), ce(atm + w + wing), q);
  }

  lemma FromOrdered(chain: seq<Quote>, family: Family, ce: real -> Picked, pe: real -> Picked, atm: real, q: nat,
                    w: real, wing: real)
    requires ce == Picker(chain, CE) && pe == Picker(chain, PE) && SelectFrom(family, ce, pe, atm, q, w, wing).Some?
    requires family.IronCondor? ==> SameStrikes(chain) && w > 0.0 && wing >= 0.0
    ensures WellBuilt(SelectFrom(family, ce, pe, atm, q, w, wing).value, family, q)
  {
    if family.IronCondor? {
      PickedOrdered(chain, ce, pe, atm, q, w, wing);
    } else {
      VerticalOrdered(family, ce, pe, atm, q, w, wing);
    }
  }

  /** What is selected is as its family has it, and its wings are ordered: by the code's own test for the verticals,
      by monotone strike selection for the condor. */
  lemma SelectedIsOrdered(family: Family, chain: seq<Quote>, spot: real, q: nat, w: real, wing: real)
    requires SelectStructure(family, chain, spot, q, w, wing).Some?
    requires family.IronCondor? ==> SameStrikes(chain) && w > 0.0 && wing >= 0.0
    ensures WellBuilt(SelectStructure(family, chain, spot, q, w, wing).value, family, q)
  {
    FromOrdered(chain, family, Picker(chain, CE), Picker(chain, PE), Nearest(Strikes(chain, CE), spot), q, w, wing);
  }

  /** Where each leg is aimed, in the order of `Pattern`. */
  function Targets(f: Family, atm: real, w: real, wing: real): (ts: seq<real>)
    ensures |ts| == |Pattern(f)|
  {
    match f
    case BullCallDebit => [atm, atm + w]
    case BearPutDebit => [atm, atm - w]
    case BullPutCredit => [atm - w, atm - w - wing]
    case BearCallCredit => [atm + w, atm + w + wing]
    case IronCondor => [atm - w - wing, atm - w, atm + w, atm + w + wing]
  }

  predicate Listed(chain: seq<Quote>, l: Leg) { Quote(l.opt, l.strike, l.entry) in chain }

  /** A leg is a quote of the chain, of its type, and none of that type is nearer its target. */
  predicate Aimed(chain: seq<Quote>, l: Leg, target: real) {
    Listed(chain, l) && forall q :: q in chain && q.opt == l.opt ==> AbsR(l.strike - target) <= AbsR(q.strike - target)
  }

  lemma {:induction false} PricedIsListed(chain: seq<Quote>, opt: OptType, k: real)
    requires Price(chain, opt, k).Some?
    ensures Quote(opt, k, Price(chain, opt, k).value) in chain
    decreases |chain|
  {
    if chain[0].opt == opt && chain[0].strike == k {
    } else {
      PricedIsListed(chain[1..], opt, k);
    }
  }

  lemma {:induction false} RowIsStrike(chain: seq<Quote>, q: Quote)
    requires q in chain
    ensures q.strike in Strikes(chain, q.opt)
  {
    var m := |chain| - 1;
    if chain[m] == q {
    } else {
      assert q in chain[..m];
      RowIsStrike(chain[..m], q);
    }
  }

  lemma PickIsAimed(chain: seq<Quote>, l: Leg, target: real)
    requires Pick(chain, l.opt, target) == Some((l.strike, l.entry))
    ensures Aimed(chain, l, target)
  {
    var ks := Strikes(chain, l.opt);
    PricedIsListed(chain, l.opt, l.strike);
    NearestListed(ks, target);
    forall q | q in chain && q.opt == l.opt ensures AbsR(l.strike - target) <= AbsR(q.strike - target) {
      RowIsStrike(chain, q);
    }
  }

  predicate Holds(l: Leg, p: Picked) { p == Some((l.strike, l.entry)) }

  predicate PickedAt(ce: real -> Picked, pe: real -> Picked, st: Structure, q: nat, ts: seq<real>) {
    Built(st, q) && |st.legs| == |ts|
    && forall n :: 0 <= n < |ts| ==> Holds(st.legs[n], (if st.legs[n].opt.CE? then ce else pe)(ts[n]))
  }

  lemma PickedIsAimed(chain: seq<Quote>, ce: real -> Picked, pe: real -> Picked, st: Structure, q: nat, ts: seq<real>,
                      n: nat)
    requires ce == Picker(chain, CE) && pe == Picker(chain, PE) && PickedAt(ce, pe, st, q, ts) && n < |ts|
    ensures Aimed(chain, st.legs[n], ts[n])
  {
    assert Holds(st.legs[n], Pick(chain, st.legs[n].opt, ts[n]));
    PickIsAimed(chain, st.legs[n], ts[n]);
  }

  lemma PicksWhereAimed(family: Family, ce: real -> Picked, pe: real -> Picked, atm: real, q: nat, w: real, wing: real)
    requires SelectFrom(family, ce, pe, atm, q, w, wing).Some?
    ensures var st := SelectFrom(family, ce, pe, atm, q, w, wing).value;
            st.name == family && PickedAt(ce, pe, st, q, Targets(family, atm, w, wing))
  {
    match family
    case IronCondor =>
    case BullCallDebit =>
    case BearPutDebit =>
    case BullPutCredit =>
    case BearCallCredit =>
  }

  /** Every leg of a selected structure is the chain's quote nearest to where its family aims it. */
  lemma SelectedIsAimed(family: Family, chain: seq<Quote>, spot: real, q: nat, w: real, wing: real)
    requires SelectStructure(family, chain, spot, q, w, wing).Some?
    ensures Strikes(chain, CE) != []
    ensures var st := SelectStructure(family, chain, spot, q, w, wing).value;
            var ts := Targets(family, Nearest(Strikes(chain, CE), spot), w, wing);
            st.name == family && Built(st, q) && forall n :: 0 <= n < |ts| ==> Aimed(chain, st.legs[n], ts[n])
  {
    var st, atm := SelectStructure(family, chain, spot, q, w, wing).value, Nearest(Strikes(chain, CE), spot);
    var ts := Targets(family, atm, w, wing);
    PicksWhereAimed(family, Picker(chain, CE), Picker(chain, PE), atm, q, w, wing);
    forall n | 0 <= n < |ts| ensures Aimed(chain, st.legs[n], ts[n]) {
      PickedIsAimed(chain, Picker(chain, CE), Picker(chain, PE), st, q, ts, n);
    }
  }

  // --- when nothing can be built -------------------------------------------------------------------

  predicate Absent(chain: seq<Quote>, opt: OptType) { forall q :: q in chain ==> q.opt != opt }

  /** The calls, which name the strike at the money, or the type of the family's first leg are missing. */
  predicate Unlisted(f: Family, chain: seq<Quote>) { Absent(chain, CE) || Absent(chain, Pattern(f)[0].0) }

  /** The far strike of a vertical is not beyond the near one. */
  predicate Collapses(near: real, far: real, opt: OptType) { if opt.CE? then far <= near else far >= near }

  predicate WingsCollapse(f: Family, chain: seq<Quote>, spot: real, w: real, wing: real)
    requires !Unlisted(f, chain)
  {
    StrikesAbsentIff(chain, CE);
    StrikesAbsentIff(chain, Pattern(f)[0].0);
    var opt, ts := Pattern(f)[0].0, Targets(f, Nearest(Strikes(chain, CE), spot), w, wing);
    !f.IronCondor? && Collapses(Nearest(Strikes(chain, opt), ts[0]), Nearest(Strikes(chain, opt), ts[1]), opt)
  }

  lemma StrikesAbsentIff(chain: seq<Quote>, opt: OptType)
    ensures Strikes(chain, opt) == [] <==> Absent(chain, opt)
  {
    var ks := Strikes(chain, opt);
    if ks != [] { var n := StrikeFromRow(chain, opt, ks[0]); }
    forall q | q in chain && q.opt == opt ensures ks != [] { RowIsStrike(chain, q); }
  }

  lemma PickedIs(chain: seq<Quote>, opt: OptType, x: real)
    requires !Absent(chain, opt)
    ensures Strikes(chain, opt) != [] && Pick(chain, opt, x).Some?
    ensures Pick(chain, opt, x).value.0 == Nearest(Strikes(chain, opt), x)
  {
    StrikesAbsentIff(chain, opt);
    PickFailsOnlyWhenEmpty(chain, opt, x);
  }

  predicate Apart(near: Picked, far: Picked, opt: OptType) {
    near.Some? && far.Some? && !Collapses(near.value.0, far.value.0, opt)
  }

  lemma VerticalFailsIff(family: Family, ce: real -> Picked, pe: real -> Picked, atm: real, q: nat, w: real,
                         wing: real)
    requires !family.IronCondor?
    ensures var opt, ts := Pattern(family)[0].0, Targets(family, atm, w, wing);
            SelectVertical(family, ce, pe, atm, q, w, wing).Some?
            <==> if opt.CE? then Apart(ce(ts[0]), ce(ts[1]), opt) else Apart(pe(ts[0]), pe(ts[1]), opt)
  {
    var ts := Targets(family, atm, w, wing);
    match family
    case BullCallDebit => assert ts[0] == atm && ts[1] == atm + w;
    case BearPutDebit => assert ts[0] == atm && ts[1] == atm - w;
    case BullPutCredit => assert ts[0] == atm - w && ts[1] == atm - w - wing;
    case BearCallCredit => assert ts[0] == atm + w && ts[1] == atm + w + wing;
  }

  lemma CondorFailsIff(chain: seq<Quote>, atm: real, q: nat, w: real, wing: real)
    requires !Absent(chain, CE)
    ensures SelectCondor(Picker(chain, CE), Picker(chain, PE), atm, q, w, wing).None? <==> Absent(chain, PE)
  {
    PickedIs(chain, CE, atm + w);
    PickedIs(chain, CE, atm + w + wing);
    if Absent(chain, PE) {
      StrikesAbsentIff(chain, PE);
    } else {
      PickedIs(chain, PE, atm - w);
      PickedIs(chain, PE, atm - w - wing);
    }
  }

  /** No structure is built exactly when a quote it needs is missing or a vertical's two legs collapse. */
  lemma SelectFailsIff(family: Family, chain: seq<Quote>, spot: real, q: nat, w: real, wing: real)
    ensures SelectStructure(family, chain, spot, q, w, wing).None?
            <==> Unlisted(family, chain) || WingsCollapse(family, chain, spot, w, wing)
  {
    StrikesAbsentIff(chain, CE);
    if !Absent(chain, CE) {
      var atm := Nearest(Strikes(chain, CE), spot);
      if family.IronCondor? {
        CondorFailsIff(chain, atm, q, w, wing);
      } else {
        var opt, ts := Pattern(family)[0].0, Targets(family, atm, w, wing);
        VerticalFailsIff(family, Picker(chain, CE), Picker(chain, PE), atm, q, w, wing);
        if Absent(chain, opt) {
          StrikesAbsentIff(chain, opt);
        } else {
          PickedIs(chain, opt, ts[0]);
          PickedIs(chain, opt, ts[1]);
        }
      }
    }
  }

  /** With widths that do not point inwards, they collapse exactly when one strike is nearest to both targets. */
  lemma CollapseIsOneStrike(f: Family, chain: seq<Quote>, spot: real, w: real, wing: real)
    requires !Unlisted(f, chain) && !f.IronCondor? && w >= 0.0 && wing >= 0.0
    ensures Strikes(chain, CE) != [] && Strikes(chain, Pattern(f)[0].0) != []
    ensures var ks, ts := Strikes(chain, Pattern(f)[0].0), Targets(f, Nearest(Strikes(chain, CE), spot), w, wing);
            WingsCollapse(f, chain, spot, w, wing) <==> Nearest(ks, ts[0]) == Nearest(ks, ts[1])
  {
    StrikesAbsentIff(chain, CE);
    StrikesAbsentIff(chain, Pattern(f)[0].0);
    var ks, ts := Strikes(chain, Pattern(f)[0].0), Targets(f, Nearest(Strikes(chain, CE), spot), w, wing);
    if Pattern(f)[0].0.CE? { NearestMonotone(ks, ks, ts[0], ts[1]); } else { NearestMonotone(ks, ks, ts[1], ts[0]); }
  }

  // --- the worst case of a lot ---------------------------------------------------------------------

  function ScanLow(spot: real): real { spot * 0.85 }

  function ScanHigh(spot: real): real { spot * 1.15 }

  function OneLotMaxLoss(s: Structure, spot: real): real {
    AbsR(MinR(ProfileMin(PayoffOf(s.legs), ScanLow(spot), ScanHigh(spot)), 0.0))
  }

  /** The scan, of 0.85-1.15 of spot, sees the losing strike of a vertical, or of a condor's wider wing. */
  predicate ScanSuffices(s: Structure, q: nat, spot: real) requires Built(s, q) {
    Reaches(TentOf(s, q), spot * 0.85, spot * 1.15)
  }

  lemma ScanExact(s: Structure, q: nat, spot: real)
    requires Built(s, q) && TentOf(s, q).Ordered() && q > 0 && spot >= 0.0
    ensures IsMinimum(ProfileMin(PayoffOf(s.legs), ScanLow(spot), ScanHigh(spot)), PayoffOf(s.legs))
            <==> ScanSuffices(s, q, spot)
  {
    UnitsGrow(q);
    forall x ensures PayoffOf(s.legs)(x) == Units(q)(TentOf(s, q).Value(x)) { PayoffIsTent(s, q, x); }
    ScanExactIff(PayoffOf(s.legs), Units(q), TentOf(s, q), ScanLow(spot), ScanHigh(spot));
  }
}
