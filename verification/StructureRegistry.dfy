/** execution/structures.py: open structures, the rows they are persisted in, and the cold-start rebuild. */
module StructureRegistry {
  import opened Money
  import opened Options
  import P = Payoffs
  import FillRisk

  type Corr = string

  datatype Leg = Leg(positionId: nat, token: int, symbol: string, side: P.Side, qty: int, entry: real, fees: real)

  datatype Guard = Guard(corr: Corr, name: string, stype: string, legs: seq<Leg>, maxLoss: real, maxProfit: real,
                         entryFees: real, target: real, stop: real, expiry: Option<int>, openedOn: Option<int>,
                         exitRetries: nat)

  /** The blob written onto every leg of a structure. */
  datatype Meta = Meta(name: string, stype: string, maxLoss: real, maxProfit: real, entryFees: real,
                       target: real, stop: real, expiry: Option<int>, openedOn: Option<int>)

  /** A row of the positions table; its id is its index. */
  datatype Row = Row(corr: Corr, fno: bool, isOpen: bool, token: int, symbol: string, side: P.Side, qty: int,
                     price: real, fees: real, meta: Option<Meta>)

  type Registry = map<Corr, Guard>

  function OrDefault(x: real, d: real): real { if x == 0.0 then d else x }

  function Tokens(g: Guard): set<int> { set l | l in g.legs :: l.token }

  lemma TokensByIndex(g: Guard)
    ensures forall t :: t in Tokens(g) <==> exists m :: 0 <= m < |g.legs| && g.legs[m].token == t
  {
    forall t | t in Tokens(g) ensures exists m :: 0 <= m < |g.legs| && g.legs[m].token == t {
      var l :| l in g.legs && l.token == t;
      var m :| 0 <= m < |g.legs| && g.legs[m] == l;
    }
    forall m | 0 <= m < |g.legs| ensures g.legs[m].token in Tokens(g) { assert g.legs[m] in g.legs; }
  }

  function MetaOf(g: Guard): Meta {
    Meta(g.name, g.stype, Cents(g.maxLoss), Cents(g.maxProfit), Cents(g.entryFees), g.target, g.stop,
         g.expiry, g.openedOn)
  }

  function LegOf(rows: seq<Row>, i: nat): Leg requires i < |rows| {
    var r := rows[i];
    Leg(i, r.token, r.symbol, r.side, r.qty, r.price, r.fees)
  }

  function FromMeta(corr: Corr, m: Meta, legs: seq<Leg>): Guard {
    Guard(corr, m.name, m.stype, legs, m.maxLoss, m.maxProfit, m.entryFees, OrDefault(m.target, 0.5),
          OrDefault(m.stop, 0.5), m.expiry, m.openedOn, 0)
  }

  // --- the manager ---------------------------------------------------------------------------------

  class StructureManager {
    var byCorr: Registry
    var byToken: map<int, set<Corr>>

    function Ids(token: int): set<Corr>
      reads this
    {
      if token in byToken then byToken[token] else {}
    }

    /** The index names, for each token, exactly the structures with a leg in it. */
    ghost predicate Exact()
      reads this
    {
      && (forall c :: c in byCorr ==> byCorr[c].corr == c)
      && forall t: int, c: Corr :: c in Ids(t) <==> c in byCorr && t in Tokens(byCorr[c])
    }

    constructor ()
      ensures byCorr == map[] && Exact()
    {
      byCorr, byToken := map[], map[];
    }

    /** Registering an id again with other tokens would leave it indexed under the old ones. */
    method Register(g: Guard)
      modifies this
      ensures byCorr == old(byCorr)[g.corr := g]
      ensures old(Exact()) ==> (Exact() <==> (g.corr in old(byCorr) ==> Tokens(old(byCorr)[g.corr]) <= Tokens(g)))
    {
      byCorr := byCorr[g.corr := g];
      ghost var done: set<int> := {};
      for n := 0 to |g.legs|
        invariant byCorr == old(byCorr)[g.corr := g]
        invariant forall t :: t in done <==> exists m :: 0 <= m < n && g.legs[m].token == t
        invariant forall t: int, c: Corr :: c in Ids(t) <==> c in old(Ids(t)) || (c == g.corr && t in done)
      {
        var t := g.legs[n].token;
        byToken := byToken[t := Ids(t) + {g.corr}];
        done := done + {t};
      }
      TokensByIndex(g);
      if old(Exact()) && g.corr in old(byCorr) && !(Tokens(old(byCorr)[g.corr]) <= Tokens(g)) {
        var t :| t in Tokens(old(byCorr)[g.corr]) && t !in Tokens(g);
        assert g.corr in old(Ids(t));
        assert g.corr in Ids(t) && t !in Tokens(byCorr[g.corr]);
      }
    }

    method Unregister(corr: Corr)
      modifies this
      ensures byCorr == old(byCorr) - {corr}
      ensures old(Exact()) ==> Exact()
    {
      if corr in byCorr {
        var g := byCorr[corr];
        byCorr := byCorr - {corr};
        ghost var done: set<int> := {};
        for n := 0 to |g.legs|
          invariant byCorr == old(byCorr) - {corr}
          invariant forall t :: t in done <==> exists m :: 0 <= m < n && g.legs[m].token == t
          invariant forall t: int, c: Corr :: c in Ids(t) <==> c in old(Ids(t)) && !(c == corr && t in done)
        {
          var t := g.legs[n].token;
          if t in byToken {
            byToken := byToken[t := byToken[t] - {corr}];
          }
          done := done + {t};
        }
        TokensByIndex(g);
      }
    }

    /** One more cycle of waiting for a sane book. */
    method CountRetry(corr: Corr)
      requires corr in byCorr
      modifies this
      ensures byCorr == old(byCorr)[corr := old(byCorr)[corr].(exitRetries := old(byCorr)[corr].exitRetries + 1)]
      ensures old(Exact()) ==> Exact()
    {
      var g := byCorr[corr];
      byCorr := byCorr[corr := g.(exitRetries := g.exitRetries + 1)];
      assert Tokens(byCorr[corr]) == Tokens(g);
      assert forall c :: c in byCorr ==> Tokens(byCorr[c]) == Tokens(old(byCorr)[c]);
      assert forall t :: Ids(t) == old(Ids(t));
    }

    method ForToken(token: int) returns (gs: set<Guard>)
      ensures Exact() ==> forall g :: g in gs <==> g.corr in byCorr && byCorr[g.corr] == g && token in Tokens(g)
    {
      gs := set c | c in Ids(token) && c in byCorr :: byCorr[c];
    }
  }

  // --- rows and registry ---------------------------------------------------------------------------

  predicate Live(rows: seq<Row>, i: nat) { i < |rows| && rows[i].isOpen && rows[i].fno }

  /** The guard's legs are the live rows of its structure, and each of them carries its blob. */
  ghost predicate Backed(rows: seq<Row>, g: Guard) {
    && g.legs != [] && g.target != 0.0 && g.stop != 0.0
    && (forall m, n :: 0 <= m < n < |g.legs| ==> g.legs[m].positionId != g.legs[n].positionId)
    && (forall n :: 0 <= n < |g.legs| ==> LegBacked(rows, g, g.legs[n]))
  }

  ghost predicate LegBacked(rows: seq<Row>, g: Guard, l: Leg) {
    var i := l.positionId;
    Live(rows, i) && rows[i].corr == g.corr && rows[i].meta == Some(MetaOf(g)) && LegOf(rows, i) == l
  }

  /** Between operations: every guard is backed, and a live row belongs to a guard or to no structure at all. */
  ghost predicate Reflects(rows: seq<Row>, reg: Registry) {
    && (forall c :: c in reg ==> reg[c].corr == c && Backed(rows, reg[c]))
    && forall i: nat :: Live(rows, i) ==>
         if rows[i].corr in reg then LegOf(rows, i) in reg[rows[i].corr].legs else rows[i].meta.None?
  }

  /** The same guard as persisted: money in whole paise, legs in any order, the retry counter at zero. */
  ghost predicate Restored(g': Guard, g: Guard) {
    && g' == g.(maxLoss := Cents(g.maxLoss), maxProfit := Cents(g.maxProfit), entryFees := Cents(g.entryFees),
                legs := g'.legs, exitRetries := 0)
    && (forall m, n :: 0 <= m < n < |g'.legs| ==> g'.legs[m].positionId != g'.legs[n].positionId)
    && forall l :: l in g'.legs <==> l in g.legs
  }

  // --- opening and closing -------------------------------------------------------------------------

  function PositionIds(legs: seq<Leg>): set<nat> { set l | l in legs :: l.positionId }

  function Shut(rows: seq<Row>, ids: set<nat>): seq<Row> {
    seq(|rows|, i requires 0 <= i < |rows| => if i in ids then rows[i].(isOpen := false) else rows[i])
  }

  function WithMeta(rows: seq<Row>, ids: set<nat>, m: Meta): seq<Row> {
    seq(|rows|, i requires 0 <= i < |rows| => if i in ids then rows[i].(meta := Some(m)) else rows[i])
  }

  /** `rows` is `base` with one live row more for each leg. */
  ghost predicate Appended(rows: seq<Row>, base: seq<Row>, legs: seq<Leg>, corr: Corr, m: Option<Meta>) {
    && |rows| == |base| + |legs| && rows[..|base|] == base
    && forall n :: 0 <= n < |legs| ==> RowFor(rows, |base| + n, legs[n], corr, m)
  }

  ghost predicate RowFor(rows: seq<Row>, i: nat, l: Leg, corr: Corr, m: Option<Meta>) {
    Live(rows, i) && rows[i].corr == corr && rows[i].meta == m && LegOf(rows, i) == l
  }

  ghost predicate Unused(corr: Corr, rows: seq<Row>, reg: Registry) {
    corr !in reg && forall i: nat :: Live(rows, i) ==> rows[i].corr != corr
  }

  lemma AppendOne(rows: seq<Row>, base: seq<Row>, legs: seq<Leg>, corr: Corr, r: Row, l: Leg)
    requires Appended(rows, base, legs, corr, r.meta) && r.isOpen && r.fno && r.corr == corr
    requires l == Leg(|rows|, r.token, r.symbol, r.side, r.qty, r.price, r.fees)
    ensures Appended(rows + [r], base, legs + [l], corr, r.meta)
  {
    var rows', legs' := rows + [r], legs + [l];
    assert rows'[..|base|] == rows[..|base|];
    forall n | 0 <= n < |legs'| ensures RowFor(rows', |base| + n, legs'[n], corr, r.meta) {
      if n < |legs| { assert RowFor(rows, |base| + n, legs[n], corr, r.meta); }
    }
  }

  lemma StampedAppended(rows: seq<Row>, base: seq<Row>, legs: seq<Leg>, corr: Corr, m: Meta)
    requires Appended(rows, base, legs, corr, None)
    ensures Appended(WithMeta(rows, PositionIds(legs), m), base, legs, corr, Some(m))
  {
    var rows' := WithMeta(rows, PositionIds(legs), m);
    AppendedIds(rows, base, legs, corr, None);
    assert forall i :: 0 <= i < |base| ==> rows'[i] == rows[..|base|][i];
    assert rows'[..|base|] == base;
    forall n | 0 <= n < |legs| ensures RowFor(rows', |base| + n, legs[n], corr, Some(m)) {
      assert RowFor(rows, |base| + n, legs[n], corr, None);
    }
  }

  lemma AppendedIds(rows: seq<Row>, base: seq<Row>, legs: seq<Leg>, corr: Corr, m: Option<Meta>)
    requires Appended(rows, base, legs, corr, m)
    ensures forall i: nat :: i in PositionIds(legs) <==> |base| <= i < |rows|
    ensures forall n :: 0 <= n < |legs| ==> legs[n].positionId == |base| + n
  {
    forall n | 0 <= n < |legs| ensures legs[n].positionId == |base| + n && legs[n] in legs {
      assert RowFor(rows, |base| + n, legs[n], corr, m);
    }
    forall i: nat | |base| <= i < |rows| ensures i in PositionIds(legs) { assert legs[i - |base|].positionId == i; }
  }

  lemma BackedByPrefix(rows: seq<Row>, base: seq<Row>, g: Guard)
    requires Backed(base, g) && |rows| >= |base| && rows[..|base|] == base
    ensures Backed(rows, g)
  {
    forall n | 0 <= n < |g.legs| ensures LegBacked(rows, g, g.legs[n]) {
      var i := g.legs[n].positionId;
      assert LegBacked(base, g, g.legs[n]);
      assert rows[i] == base[i];
    }
  }

  lemma RejectedKeeps(base: seq<Row>, rows: seq<Row>, legs: seq<Leg>, corr: Corr, m: Option<Meta>, reg: Registry)
    requires Reflects(base, reg) && Appended(rows, base, legs, corr, m)
    ensures var after := Shut(rows, PositionIds(legs));
            && Reflects(after, reg) && after[..|base|] == base
            && forall i: nat :: |base| <= i ==> !Live(after, i)
  {
    var after := Shut(rows, PositionIds(legs));
    AppendedIds(rows, base, legs, corr, m);
    assert forall i :: 0 <= i < |base| ==> after[i] == rows[..|base|][i];
    assert after[..|base|] == base;
    forall c | c in reg ensures Backed(after, reg[c]) { BackedByPrefix(after, base, reg[c]); }
    forall i: nat | Live(after, i)
      ensures if after[i].corr in reg then LegOf(after, i) in reg[after[i].corr].legs else after[i].meta.None?
    {
      assert Live(base, i) && after[i] == base[i];
    }
  }

  lemma OpenedKeeps(base: seq<Row>, rows: seq<Row>, reg: Registry, g: Guard)
    requires Reflects(base, reg) && Unused(g.corr, base, reg)
    requires Appended(rows, base, g.legs, g.corr, Some(MetaOf(g))) && g.legs != [] && g.target != 0.0 && g.stop != 0.0
    ensures Reflects(rows, reg[g.corr := g])
  {
    var after := reg[g.corr := g];
    AppendedIds(rows, base, g.legs, g.corr, Some(MetaOf(g)));
    forall n | 0 <= n < |g.legs| ensures LegBacked(rows, g, g.legs[n]) {
      assert RowFor(rows, |base| + n, g.legs[n], g.corr, Some(MetaOf(g)));
    }
    forall c | c in after ensures after[c].corr == c && Backed(rows, after[c]) {
      if c != g.corr { BackedByPrefix(rows, base, reg[c]); }
    }
    forall i: nat | Live(rows, i)
      ensures if rows[i].corr in after then LegOf(rows, i) in after[rows[i].corr].legs else rows[i].meta.None?
    {
      if i < |base| {
        assert rows[i] == rows[..|base|][i];
        assert Live(base, i);
      } else {
        assert RowFor(rows, |base| + (i - |base|), g.legs[i - |base|], g.corr, Some(MetaOf(g)));
      }
    }
  }

  lemma ClosedKeeps(rows: seq<Row>, reg: Registry, corr: Corr)
    requires Reflects(rows, reg) && corr in reg
    ensures Reflects(Shut(rows, PositionIds(reg[corr].legs)), reg - {corr})
    ensures forall i: nat :: i < |rows| ==>
              Live(Shut(rows, PositionIds(reg[corr].legs)), i) == (Live(rows, i) && rows[i].corr != corr)
  {
    var ids := PositionIds(reg[corr].legs);
    var after, left := Shut(rows, ids), reg - {corr};
    forall i: nat | Live(rows, i) ensures i in ids <==> rows[i].corr == corr {
      if i in ids {
        var l :| l in reg[corr].legs && l.positionId == i;
        assert LegBacked(rows, reg[corr], l);
      }
      if rows[i].corr == corr { assert LegOf(rows, i) in reg[corr].legs; }
    }
    forall c | c in left ensures Backed(after, left[c]) {
      forall n | 0 <= n < |left[c].legs| ensures LegBacked(after, left[c], left[c].legs[n]) {
        var i := left[c].legs[n].positionId;
        assert LegBacked(rows, reg[c], left[c].legs[n]);
        assert Live(rows, i) && rows[i].corr == c;
        assert after[i] == rows[i];
      }
    }
    forall i: nat | Live(after, i)
      ensures if after[i].corr in left then LegOf(after, i) in left[after[i].corr].legs else after[i].meta.None?
    {
      assert Live(rows, i) && after[i] == rows[i] && rows[i].corr != corr;
    }
  }

  lemma RetryKeeps(rows: seq<Row>, reg: Registry, corr: Corr)
    requires Reflects(rows, reg) && corr in reg
    ensures Reflects(rows, reg[corr := reg[corr].(exitRetries := reg[corr].exitRetries + 1)])
  {
    var g := reg[corr];
    var g' := g.(exitRetries := g.exitRetries + 1);
    assert MetaOf(g') == MetaOf(g);
    forall n | 0 <= n < |g'.legs| ensures LegBacked(rows, g', g'.legs[n]) { assert LegBacked(rows, g, g.legs[n]); }
  }

  // --- regrouping ----------------------------------------------------------------------------------

  predicate Lists(order: seq<nat>, rows: seq<Row>) {
    && (forall m, n :: 0 <= m < n < |order| ==> order[m] != order[n])
    && (forall n :: 0 <= n < |order| ==> Live(rows, order[n]))
    && forall i: nat :: i < |rows| && Live(rows, i) ==> i in order
  }

  /** The rows of one structure, in the order they are read. */
  function Group(rows: seq<Row>, order: seq<nat>, c: Corr): (ids: seq<nat>)
    requires forall n :: 0 <= n < |order| ==> order[n] < |rows|
    ensures forall n :: 0 <= n < |ids| ==> ids[n] < |rows|
  {
    if order == [] then []
    else
      var m := |order| - 1;
      Group(rows, order[..m], c) + if rows[order[m]].corr == c then [order[m]] else []
  }

  lemma {:induction false} GroupIs(rows: seq<Row>, order: seq<nat>, c: Corr)
    requires forall n :: 0 <= n < |order| ==> order[n] < |rows|
    requires forall m, n :: 0 <= m < n < |order| ==> order[m] != order[n]
    ensures var ids := Group(rows, order, c);
            && (forall i :: i in ids <==> i in order && rows[i].corr == c)
            && forall m, n :: 0 <= m < n < |ids| ==> ids[m] != ids[n]
  {
    if order == [] {
    } else {
      var m := |order| - 1;
      GroupIs(rows, order[..m], c);
      assert order == order[..m] + [order[m]];
      var ids := Group(rows, order[..m], c);
      assert forall n :: 0 <= n < |ids| ==> ids[n] in ids;
    }
  }

  function LegsOf(rows: seq<Row>, ids: seq<nat>): seq<Leg>
    requires forall n :: 0 <= n < |ids| ==> ids[n] < |rows|
  {
    seq(|ids|, n requires 0 <= n < |ids| => LegOf(rows, ids[n]))
  }

  /** The first blob found among the rows. */
  function FirstMeta(rows: seq<Row>, ids: seq<nat>): Option<Meta>
    requires forall n :: 0 <= n < |ids| ==> ids[n] < |rows|
  {
    if ids == [] then None
    else
      var m := |ids| - 1;
      var before := FirstMeta(rows, ids[..m]);
      if before.Some? then before else rows[ids[m]].meta
  }

  lemma {:induction false} FirstMetaOfAgreeing(rows: seq<Row>, ids: seq<nat>, m: Option<Meta>)
    requires ids != [] && forall n :: 0 <= n < |ids| ==> ids[n] < |rows| && rows[ids[n]].meta == m
    ensures FirstMeta(rows, ids) == m
  {
    if |ids| == 1 {
    } else {
      FirstMetaOfAgreeing(rows, ids[..|ids| - 1], m);
    }
  }

  function Rebuilt(rows: seq<Row>, corr: Corr, ids: seq<nat>): Option<Guard>
    requires forall n :: 0 <= n < |ids| ==> ids[n] < |rows|
  {
    match FirstMeta(rows, ids)
    case None => None
    case Some(m) => Some(FromMeta(corr, m, LegsOf(rows, ids)))
  }

  /** The rows of group `ids` are exactly the live rows of structure c. */
  ghost predicate Gathered(rows: seq<Row>, c: Corr, ids: seq<nat>) {
    && (forall n :: 0 <= n < |ids| ==> Live(rows, ids[n]) && rows[ids[n]].corr == c)
    && (forall m, n :: 0 <= m < n < |ids| ==> ids[m] != ids[n])
    && forall i: nat :: Live(rows, i) && rows[i].corr == c ==> i in ids
  }

  lemma GroupGathers(rows: seq<Row>, order: seq<nat>, c: Corr)
    requires Lists(order, rows)
    ensures Gathered(rows, c, Group(rows, order, c))
  {
    var ids := Group(rows, order, c);
    GroupIs(rows, order, c);
    forall n | 0 <= n < |ids| ensures Live(rows, ids[n]) && rows[ids[n]].corr == c { assert ids[n] in ids; }
  }

  lemma RegisteredRestores(rows: seq<Row>, reg: Registry, c: Corr, ids: seq<nat>)
    requires Reflects(rows, reg) && Gathered(rows, c, ids) && c in reg
    ensures Rebuilt(rows, c, ids).Some? && Restored(Rebuilt(rows, c, ids).value, reg[c])
  {
    var g := reg[c];
    assert LegBacked(rows, g, g.legs[0]);
    assert ids != [];
    forall n | 0 <= n < |ids| ensures LegOf(rows, ids[n]) in g.legs && rows[ids[n]].meta == Some(MetaOf(g)) {
      var l := LegOf(rows, ids[n]);
      assert Live(rows, ids[n]) && l in g.legs;
      assert LegBacked(rows, g, l);
    }
    FirstMetaOfAgreeing(rows, ids, Some(MetaOf(g)));
    SameLegs(rows, g, ids);
  }

  lemma UnregisteredIgnored(rows: seq<Row>, reg: Registry, c: Corr, ids: seq<nat>)
    requires Reflects(rows, reg) && Gathered(rows, c, ids) && c !in reg
    ensures Rebuilt(rows, c, ids).None?
  {
    if ids != [] {
      forall n | 0 <= n < |ids| ensures rows[ids[n]].meta == None { assert Live(rows, ids[n]); }
      FirstMetaOfAgreeing(rows, ids, None);
    }
  }

  /** Regrouping finds exactly the registered structures, each restored from what was persisted. */
  lemma RegroupingRestores(rows: seq<Row>, reg: Registry, order: seq<nat>, c: Corr)
    requires Reflects(rows, reg) && Lists(order, rows)
    ensures var g := Rebuilt(rows, c, Group(rows, order, c));
            (g.Some? <==> c in reg) && (g.Some? ==> Restored(g.value, reg[c]))
  {
    GroupGathers(rows, order, c);
    if c in reg {
      RegisteredRestores(rows, reg, c, Group(rows, order, c));
    } else {
      UnregisteredIgnored(rows, reg, c, Group(rows, order, c));
    }
  }

  lemma OneGroup(rows: seq<Row>, reg: Registry, order: seq<nat>, c: Corr, ids: seq<nat>)
    requires Reflects(rows, reg) && Lists(order, rows) && ids == Group(rows, order, c)
    ensures var g := Rebuilt(rows, c, ids);
            (g.Some? <==> c in reg) && (g.Some? ==> Restored(g.value, reg[c]) && g.value.corr == c)
    ensures forall i: nat :: i in ids <==> Live(rows, i) && rows[i].corr == c
  {
    RegroupingRestores(rows, reg, order, c);
    GroupGathers(rows, order, c);
  }

  lemma SameLegs(rows: seq<Row>, g: Guard, ids: seq<nat>)
    requires Backed(rows, g) && forall n :: 0 <= n < |ids| ==> ids[n] < |rows| && LegOf(rows, ids[n]) in g.legs
    requires forall i: nat :: Live(rows, i) && rows[i].corr == g.corr ==> i in ids
    ensures forall l :: l in LegsOf(rows, ids) <==> l in g.legs
  {
    forall l | l in g.legs ensures l in LegsOf(rows, ids) {
      assert LegBacked(rows, g, l);
      var n :| 0 <= n < |ids| && ids[n] == l.positionId;
      assert LegsOf(rows, ids)[n] == l;
    }
  }

  lemma RestoredIsBacked(rows: seq<Row>, g: Guard, g': Guard)
    requires Backed(rows, g) && Restored(g', g)
    ensures Backed(rows, g') && Tokens(g') == Tokens(g)
  {
    CentsAgain(g.maxLoss);
    CentsAgain(g.maxProfit);
    CentsAgain(g.entryFees);
    assert MetaOf(g') == MetaOf(g);
    assert g.legs[0] in g'.legs;
    forall n | 0 <= n < |g'.legs| ensures LegBacked(rows, g', g'.legs[n]) {
      assert g'.legs[n] in g.legs;
      assert LegBacked(rows, g, g'.legs[n]);
    }
  }

  /** With amounts in whole paise nothing is lost but the order of the legs and the retry count. */
  lemma RestoredExactly(g': Guard, g: Guard, loss: int, profit: int, fees: int)
    requires Restored(g', g)
    requires g.maxLoss == FromPaise(loss) && g.maxProfit == FromPaise(profit) && g.entryFees == FromPaise(fees)
    ensures g' == g.(legs := g'.legs, exitRetries := 0)
  {
    WholePaise(loss);
    WholePaise(profit);
    WholePaise(fees);
  }

  // --- marking -------------------------------------------------------------------------------------

  function LegPnl(l: Leg, price: real): real {
    if l.side.BUY? then (price - l.entry) * l.qty as real else (l.entry - price) * l.qty as real
  }

  predicate Priced(legs: seq<Leg>, prices: map<int, real>) { forall l :: l in legs ==> l.token in prices }

  function Sum(f: Leg -> real, legs: seq<Leg>): real {
    if legs == [] then 0.0 else Sum(f, legs[..|legs| - 1]) + f(legs[|legs| - 1])
  }

  function Marked(prices: map<int, real>): Leg -> real {
    (l: Leg) => if l.token in prices then LegPnl(l, prices[l.token]) else 0.0
  }

  /** Nothing unless every leg is priced. */
  method CombinedPnl(g: Guard, prices: map<int, real>) returns (pnl: Option<real>)
    ensures pnl == if Priced(g.legs, prices) then Some(Sum(Marked(prices), g.legs) - g.entryFees) else None
  {
    var total := 0.0;
    for n := 0 to |g.legs|
      invariant total == Sum(Marked(prices), g.legs[..n]) && Priced(g.legs[..n], prices)
    {
      var leg := g.legs[n];
      assert leg in g.legs && g.legs[..n + 1] == g.legs[..n] + [leg];
      if leg.token !in prices { return None; }
      total := total + LegPnl(leg, prices[leg.token]);
    }
    assert g.legs[..|g.legs|] == g.legs;
    pnl := Some(total - g.entryFees);
  }

  datatype Verdict = Target | Stop | Hold

  function Decide(g: Guard, prices: map<int, real>): Option<Verdict> {
    if !Priced(g.legs, prices) then None
    else
      var pnl := Sum(Marked(prices), g.legs) - g.entryFees;
      Some(if pnl >= g.target * g.maxProfit then Target else if pnl <= -g.stop * g.maxLoss then Stop else Hold)
  }

  predicate Distinct(legs: seq<Leg>) {
    forall m, n :: 0 <= m < n < |legs| ==> legs[m].positionId != legs[n].positionId
  }

  lemma {:induction false} SumWithout(f: Leg -> real, legs: seq<Leg>, k: nat)
    requires k < |legs|
    ensures Sum(f, legs) == Sum(f, legs[..k] + legs[k + 1..]) + f(legs[k])
  {
    var m := |legs| - 1;
    if k == m {
      assert legs[..k] + legs[k + 1..] == legs[..m];
    } else {
      SumWithout(f, legs[..m], k);
      assert (legs[..k] + legs[k + 1..])[..m - 1] == legs[..m][..k] + legs[..m][k + 1..];
    }
  }

  lemma WithoutOne(legs: seq<Leg>, k: nat)
    requires Distinct(legs) && k < |legs|
    ensures var rest := legs[..k] + legs[k + 1..];
            Distinct(rest) && forall l :: l in rest <==> l in legs && l != legs[k]
  {
    var rest := legs[..k] + legs[k + 1..];
    forall l | l in rest ensures l in legs && l != legs[k] {
      var j :| 0 <= j < |rest| && rest[j] == l;
      assert l == legs[if j < k then j else j + 1];
    }
    forall l | l in legs && l != legs[k] ensures l in rest {
      var j :| 0 <= j < |legs| && legs[j] == l;
      assert l == rest[if j < k then j else j - 1];
    }
  }

  lemma FirstListed(legs: seq<Leg>)
    ensures legs != [] ==> legs[0] in legs
  {
  }

  /** The same distinct legs in any order add up to the same. */
  lemma {:induction false} SumPermuted(f: Leg -> real, a: seq<Leg>, b: seq<Leg>)
    requires Distinct(a) && Distinct(b) && forall l :: l in a <==> l in b
    ensures Sum(f, a) == Sum(f, b)
  {
    if a != [] {
      var m := |a| - 1;
      assert a[m] in b;
      var k :| 0 <= k < |b| && b[k] == a[m];
      WithoutOne(a, m);
      assert a[..m] + a[m + 1..] == a[..m];
      WithoutOne(b, k);
      SumWithout(f, b, k);
      SumPermuted(f, a[..m], b[..k] + b[k + 1..]);
    } else {
      FirstListed(b);
    }
  }

  /** A restored guard books, stops and holds exactly where the original would have. */
  lemma RestoredDecidesAlike(rows: seq<Row>, g': Guard, g: Guard, loss: int, profit: int, fees: int,
                             prices: map<int, real>)
    requires Restored(g', g) && Backed(rows, g)
    requires g.maxLoss == FromPaise(loss) && g.maxProfit == FromPaise(profit) && g.entryFees == FromPaise(fees)
    ensures Decide(g', prices) == Decide(g, prices)
  {
    RestoredExactly(g', g, loss, profit, fees);
    SumPermuted(Marked(prices), g'.legs, g.legs);
  }

  /** Rebuilding, with the groups in `left` still to come. */
  ghost predicate RestoredUpTo(reg': Registry, reg: Registry, left: set<Corr>) {
    && (forall c :: c in reg' <==> c in reg && c !in left)
    && forall c :: c in reg' ==> Restored(reg'[c], reg[c])
  }

  ghost predicate Covers(covered: set<nat>, rows: seq<Row>, reg: Registry) {
    forall i: nat :: i in covered <==> Live(rows, i) && rows[i].corr in reg
  }

  lemma OneMoreGroup(rows: seq<Row>, reg: Registry, order: seq<nat>, reg': Registry, left: set<Corr>, covered: set<nat>,
                     c: Corr, ids: seq<nat>)
    requires Reflects(rows, reg) && Lists(order, rows) && ids == Group(rows, order, c) && c in left
    requires RestoredUpTo(reg', reg, left) && Covers(covered, rows, reg')
    ensures var g := Rebuilt(rows, c, ids);
            if g.None? then RestoredUpTo(reg', reg, left - {c})
            else RestoredUpTo(reg'[c := g.value], reg, left - {c}) && g.value.corr == c
                 && Covers(covered + (set i | i in ids), rows, reg'[c := g.value])
  {
    OneGroup(rows, reg, order, c, ids);
  }

  ghost predicate RestoredAll(reg': Registry, reg: Registry) {
    reg'.Keys == reg.Keys && forall c :: c in reg ==> Restored(reg'[c], reg[c])
  }

  lemma RestoredReflects(rows: seq<Row>, reg: Registry, reg': Registry)
    requires Reflects(rows, reg) && RestoredAll(reg', reg)
    ensures Reflects(rows, reg')
  {
    forall c | c in reg' ensures reg'[c].corr == c && Backed(rows, reg'[c]) { RestoredIsBacked(rows, reg[c], reg'[c]); }
    forall i: nat | Live(rows, i)
      ensures if rows[i].corr in reg' then LegOf(rows, i) in reg'[rows[i].corr].legs else rows[i].meta.None?
    {
      assert rows[i].corr in reg' <==> rows[i].corr in reg;
    }
  }

  // --- the desk ------------------------------------------------------------------------------------

  /** What the market answers for one leg of a plan. */
  datatype LegQuote = Unresolved | NoQuote | Quoted(token: int, symbol: string, price: real, fees: real)

  datatype Order = Order(name: string, stype: string, plan: FillRisk.Plan, lots: nat, lotSize: nat, corr: Corr,
                         expiry: Option<int>, today: int, lossPerLot: real)

  predicate AllQuoted(market: seq<LegQuote>) { forall n :: 0 <= n < |market| ==> market[n].Quoted? }

  function Prices(market: seq<LegQuote>): seq<real> requires AllQuoted(market) {
    seq(|market|, n requires 0 <= n < |market| => market[n].price)
  }

  function RiskAsFilled(o: Order, market: seq<LegQuote>): FillRisk.Risk
    requires AllQuoted(market) && |market| == |FillRisk.LegsFromStructure(o.plan)|
  {
    FillRisk.FillBasedRisk(o.plan, FillRisk.Filled(o.plan, o.lots * o.lotSize, Prices(market)))
  }

  predicate Acceptable(o: Order, exits: Exits, market: seq<LegQuote>)
    requires |market| == |FillRisk.LegsFromStructure(o.plan)|
  {
    && AllQuoted(market)
    && FillRisk.Kept(RiskAsFilled(o, market).maxLoss, o.lossPerLot * o.lots as real, OrDefault(exits.overrun, 1.25))
  }

  /** The legs a fully quoted order becomes, as rows from id `first` on. */
  function LegsFor(o: Order, market: seq<LegQuote>, first: nat): seq<Leg>
    requires AllQuoted(market) && |market| == |FillRisk.LegsFromStructure(o.plan)|
  {
    seq(|market|, n requires 0 <= n < |market| => LegAt(o, market, first, n))
  }

  function LegAt(o: Order, market: seq<LegQuote>, first: nat, n: nat): Leg
    requires n < |market| == |FillRisk.LegsFromStructure(o.plan)| && market[n].Quoted?
  {
    var q := market[n];
    Leg(first + n, q.token, q.symbol, FillRisk.LegsFromStructure(o.plan)[n].2, o.lots * o.lotSize, q.price, q.fees)
  }

  function TotalFees(market: seq<LegQuote>): real requires AllQuoted(market) {
    if market == [] then 0.0 else TotalFees(market[..|market| - 1]) + market[|market| - 1].fees
  }

  predicate LegsSoFar(legs: seq<Leg>, o: Order, market: seq<LegQuote>, first: nat)
    requires |market| == |FillRisk.LegsFromStructure(o.plan)|
  {
    |legs| <= |market| && forall m :: 0 <= m < |legs| ==> market[m].Quoted? && legs[m] == LegAt(o, market, first, m)
  }

  lemma OneMoreQuote(market: seq<LegQuote>, n: nat)
    requires n < |market| && AllQuoted(market[..n]) && market[n].Quoted?
    ensures AllQuoted(market[..n + 1]) && Prices(market[..n + 1]) == Prices(market[..n]) + [market[n].price]
    ensures TotalFees(market[..n + 1]) == TotalFees(market[..n]) + market[n].fees
  {
    assert market[..n + 1][..n] == market[..n];
  }

  /** The guard of a structure that was kept. */
  function GuardFor(o: Order, exits: Exits, market: seq<LegQuote>, first: nat): Guard
    requires AllQuoted(market) && |market| == |FillRisk.LegsFromStructure(o.plan)|
  {
    var risk := RiskAsFilled(o, market);
    Guard(o.corr, o.name, o.stype, LegsFor(o, market, first), risk.maxLoss, risk.maxProfit, TotalFees(market),
          OrDefault(exits.target, 0.5), OrDefault(exits.stop, 0.5), o.expiry, Some(o.today), 0)
  }

  /** `fno.exits`; `lossCap` is the multiple of the defined loss a close may cost. */
  datatype Exits = Exits(target: real, stop: real, overrun: real, maxSpread: real, maxRetries: int, lossCap: real)

  /** The top of a leg's book; a missing side reads zero. */
  datatype Top = Top(bid: real, ask: real)

  function Mid(t: Top): real { (t.bid + t.ask) / 2.0 }

  /** In percent of the middle. */
  function Spread(t: Top): real requires Mid(t) > 0.0 { (t.ask - t.bid) / Mid(t) * 100.0 }

  /** Two-sided, and not wider than the allowed share of its middle. */
  predicate Tradeable(t: Top, maxSpread: real) { t.bid > 0.0 && t.ask >= t.bid && Spread(t) <= maxSpread }

  /** A long sells at the bid, a short buys back at the ask. */
  function ExitPrice(side: P.Side, t: Top, slip: real): real {
    if side.SELL? then t.ask * (1.0 + slip) else t.bid * (1.0 - slip)
  }

  /** What each leg gains or loses when its exit crosses the book. */
  function ExitValue(tops: string -> Top, slip: real): Leg -> real {
    (l: Leg) => LegPnl(l, ExitPrice(l.side, tops(l.symbol), slip))
  }

  function LossCap(g: Guard, exits: Exits): real { g.maxLoss * OrDefault(exits.lossCap, 1.15) }

  /** Every leg can be crossed, and together they lose no more than the cap on the defined loss. */
  predicate SaneBook(g: Guard, exits: Exits, tops: string -> Top, slip: real) {
    && (forall n :: 0 <= n < |g.legs| ==> Tradeable(tops(g.legs[n].symbol), exits.maxSpread))
    && (g.maxLoss > 0.0 ==> Sum(ExitValue(tops, slip), g.legs) >= -LossCap(g, exits))
  }

  /** Forced, unchecked, sane, or out of retries. */
  predicate Crossable(g: Guard, exits: Exits, quotes: Option<string -> Top>, bps: real, force: bool) {
    force || exits.maxSpread <= 0.0 || (quotes.Some? && SaneBook(g, exits, quotes.value, bps / 10000.0))
    || g.exitRetries + 1 > exits.maxRetries
  }

  /** The rounded exit price of each token; of two legs in one token the later decides. */
  function Crossing(legs: seq<Leg>, tops: string -> Top, slip: real): map<int, real> {
    if legs == [] then map[]
    else
      var l := legs[|legs| - 1];
      Crossing(legs[..|legs| - 1], tops, slip)[l.token := Cents(ExitPrice(l.side, tops(l.symbol), slip))]
  }

  method CheckBook(g: Guard, exits: Exits, tops: string -> Top, bps: real) returns (sane: bool, px: map<int, real>)
    ensures sane <==> SaneBook(g, exits, tops, bps / 10000.0)
    ensures sane ==> px == Crossing(g.legs, tops, bps / 10000.0)
  {
    var slip := bps / 10000.0;
    ghost var value := ExitValue(tops, slip);
    var implied := 0.0;
    px := map[];
    for n := 0 to |g.legs|
      invariant forall m :: 0 <= m < n ==> Tradeable(tops(g.legs[m].symbol), exits.maxSpread)
      invariant implied == Sum(value, g.legs[..n]) && px == Crossing(g.legs[..n], tops, slip)
    {
      var l := g.legs[n];
      var top := tops(l.symbol);
      if top.bid <= 0.0 || top.ask < top.bid || Mid(top) <= 0.0 || Spread(top) > exits.maxSpread {
        assert !Tradeable(tops(g.legs[n].symbol), exits.maxSpread);
        return false, px;
      }
      assert g.legs[..n + 1][..n] == g.legs[..n];
      px := px[l.token := Cents(ExitPrice(l.side, top, slip))];
      implied := implied + LegPnl(l, ExitPrice(l.side, top, slip));
    }
    assert g.legs[..|g.legs|] == g.legs;
    sane := !(g.maxLoss > 0.0 && implied < -LossCap(g, exits));
  }

  /** What a close can be priced from: the marks, a live quote for a leg and the cost model; zero is no price. */
  datatype Market = Market(marks: map<int, real>, quote: Leg -> real, fees: (Leg, real) -> real)

  function Mark(prices: map<int, real>, token: int): real { if token in prices then prices[token] else 0.0 }

  /** The price asked for, else a live quote, else the mark, else the entry. */
  function ClosedAt(l: Leg, px: map<int, real>, m: Market): real {
    OrDefault(Mark(px, l.token), OrDefault(m.quote(l), OrDefault(Mark(m.marks, l.token), l.entry)))
  }

  /** For an unwound open, whose P&L nobody reads. */
  const UNPRICED := Market(map[], l => 0.0, (l, price) => 0.0)

  /** The P&L booked for a leg closed at a price. */
  function BookedPnl(l: Leg, price: real, m: Market): real { Cents(LegPnl(l, price) - l.fees - m.fees(l, price)) }

  function Realised(px: map<int, real>, m: Market): Leg -> real { (l: Leg) => BookedPnl(l, ClosedAt(l, px, m), m) }

  predicate Checks(g: Guard, exits: Exits, quotes: Option<string -> Top>, bps: real, force: bool) {
    !force && exits.maxSpread > 0.0 && quotes.Some? && SaneBook(g, exits, quotes.value, bps / 10000.0)
  }

  /** A checked exit crosses the books it was checked against; any other asks for the marks. */
  function AskedPrices(g: Guard, exits: Exits, quotes: Option<string -> Top>, bps: real, force: bool, m: Market)
    : map<int, real>
  {
    if Checks(g, exits, quotes, bps, force) then Crossing(g.legs, quotes.value, bps / 10000.0) else m.marks
  }

  predicate AllOpen(rows: seq<Row>, legs: seq<Leg>) {
    forall n :: 0 <= n < |legs| ==>
      legs[n].positionId < |rows| && rows[legs[n].positionId].isOpen && LegOf(rows, legs[n].positionId) == legs[n]
  }

  lemma ShutOneMore(rows: seq<Row>, legs: seq<Leg>, n: nat)
    requires n < |legs| && legs[n].positionId < |rows|
    ensures var i, now := legs[n].positionId, Shut(rows, PositionIds(legs[..n]));
            && now[i := now[i].(isOpen := false)] == Shut(rows, PositionIds(legs[..n + 1]))
            && (Distinct(legs) ==> now[i] == rows[i])
  {
    assert legs[..n + 1] == legs[..n] + [legs[n]];
    assert PositionIds(legs[..n + 1]) == PositionIds(legs[..n]) + {legs[n].positionId};
    assert Distinct(legs) ==> legs[n].positionId !in PositionIds(legs[..n]);
  }

  lemma SumOneMore(f: Leg -> real, legs: seq<Leg>, n: nat)
    requires n < |legs|
    ensures Sum(f, legs[..n + 1]) == Sum(f, legs[..n]) + f(legs[n])
  {
    assert legs[..n + 1][..n] == legs[..n];
  }

  // --- what a checked exit can lose ----------------------------------------------------------------

  predicate OwnTokens(legs: seq<Leg>) { forall m, n :: 0 <= m < n < |legs| ==> legs[m].token != legs[n].token }

  lemma {:induction false} CrossedAt(legs: seq<Leg>, tops: string -> Top, slip: real, n: nat)
    requires OwnTokens(legs) && n < |legs|
    ensures legs[n].token in Crossing(legs, tops, slip)
    ensures Crossing(legs, tops, slip)[legs[n].token] == Cents(ExitPrice(legs[n].side, tops(legs[n].symbol), slip))
  {
    var m := |legs| - 1;
    if n == m {
    } else {
      CrossedAt(legs[..m], tops, slip, n);
    }
  }

  lemma {:induction false} SumAtLeast(f: Leg -> real, g: Leg -> real, h: Leg -> real, legs: seq<Leg>)
    requires forall n :: 0 <= n < |legs| ==> f(legs[n]) >= g(legs[n]) - h(legs[n])
    ensures Sum(f, legs) >= Sum(g, legs) - Sum(h, legs)
  {
    if legs == [] {
    } else {
      var m := |legs| - 1;
      assert forall n :: 0 <= n < m ==> legs[..m][n] == legs[n];
      SumAtLeast(f, g, h, legs[..m]);
    }
  }

  /** Fees of a leg's round trip at a price, and half a paisa for each unit and for the leg. */
  function ExitCost(px: map<int, real>, m: Market): Leg -> real {
    (l: Leg) => l.fees + m.fees(l, ClosedAt(l, px, m)) + 0.005 * (AbsQty(l) + 1.0)
  }

  function AbsQty(l: Leg): real { (if l.qty >= 0 then l.qty else -l.qty) as real }

  lemma RoundedPnl(l: Leg, price: real)
    ensures LegPnl(l, Cents(price)) >= LegPnl(l, price) - 0.005 * AbsQty(l)
  {
    CentsKeepOrder(price, price);
    var d, q := Cents(price) - price, l.qty as real;
    PnlMoves(l, price, d);
    Bounded(d, q);
  }

  lemma PnlMoves(l: Leg, price: real, d: real)
    ensures LegPnl(l, price + d) == LegPnl(l, price) + if l.side.BUY? then d * l.qty as real else -(d * l.qty as real)
  {
  }

  lemma Bounded(d: real, q: real)
    requires -0.005 <= d <= 0.005
    ensures -(0.005 * (if q >= 0.0 then q else -q)) <= d * q <= 0.005 * (if q >= 0.0 then q else -q)
  {
    if q >= 0.0 {
      NotNegative(0.005 - d, q);
      NotNegative(d + 0.005, q);
    } else {
      NotNegative(0.005 - d, -q);
      NotNegative(d + 0.005, -q);
    }
  }

  lemma NotNegative(a: real, q: real)
    requires a >= 0.0 && q >= 0.0
    ensures a * q >= 0.0
  {
  }

  lemma BookedAtLeast(l: Leg, tops: string -> Top, slip: real, px: map<int, real>, m: Market)
    requires l.token in px && px[l.token] == Cents(ExitPrice(l.side, tops(l.symbol), slip)) != 0.0
    ensures Realised(px, m)(l) >= ExitValue(tops, slip)(l) - ExitCost(px, m)(l)
  {
    var asked := ExitPrice(l.side, tops(l.symbol), slip);
    RoundedPnl(l, asked);
    CentsKeepOrder(LegPnl(l, Cents(asked)) - l.fees - m.fees(l, Cents(asked)),
                   LegPnl(l, Cents(asked)) - l.fees - m.fees(l, Cents(asked)));
  }

  /** An exit that was checked, each leg with a token of its own and a price that does not round to nothing,
      realises no less than the cap on the defined loss allows, up to fees and rounding. */
  lemma CheckedExitIsCapped(g: Guard, exits: Exits, quotes: Option<string -> Top>, bps: real, m: Market)
    requires Checks(g, exits, quotes, bps, false) && g.maxLoss > 0.0 && OwnTokens(g.legs)
    requires forall n :: 0 <= n < |g.legs| ==>
               Cents(ExitPrice(g.legs[n].side, quotes.value(g.legs[n].symbol), bps / 10000.0)) != 0.0
    ensures var px := AskedPrices(g, exits, quotes, bps, false, m);
            Sum(Realised(px, m), g.legs) >= -LossCap(g, exits) - Sum(ExitCost(px, m), g.legs)
  {
    var px, slip := AskedPrices(g, exits, quotes, bps, false, m), bps / 10000.0;
    var f, v, c := Realised(px, m), ExitValue(quotes.value, slip), ExitCost(px, m);
    forall n | 0 <= n < |g.legs| ensures f(g.legs[n]) >= v(g.legs[n]) - c(g.legs[n]) {
      CrossedAt(g.legs, quotes.value, slip, n);
      BookedAtLeast(g.legs[n], quotes.value, slip, px, m);
    }
    SumAtLeast(f, v, c, g.legs);
  }

  /** The positions table and the registry kept over it; structures are filled by the simulator. */
  class Desk {
    var rows: seq<Row>
    var structures: StructureManager

    ghost predicate Valid()
      reads this, structures
    {
      structures.Exact() && Reflects(rows, structures.byCorr)
    }

    constructor ()
      ensures Valid() && rows == [] && structures.byCorr == map[] && fresh(structures)
    {
      rows := [];
      structures := new StructureManager();
    }

    /** Closes each leg at the first price to be had for it, and adds up what was booked. */
    method CloseLegs(legs: seq<Leg>, px: map<int, real>, m: Market) returns (realized: real)
      requires forall n :: 0 <= n < |legs| ==> legs[n].positionId < |rows|
      modifies `rows
      ensures rows == Shut(old(rows), PositionIds(legs))
      ensures AllOpen(old(rows), legs) && Distinct(legs) ==> realized == Sum(Realised(px, m), legs)
    {
      realized := 0.0;
      ghost var was, value := rows, Realised(px, m);
      for n := 0 to |legs|
        invariant rows == Shut(was, PositionIds(legs[..n]))
        invariant AllOpen(was, legs) && Distinct(legs) ==> realized == Sum(value, legs[..n])
      {
        var i := legs[n].positionId;
        ShutOneMore(was, legs, n);
        SumOneMore(value, legs, n);
        if rows[i].isOpen {
          var l := LegOf(rows, i);
          realized := realized + BookedPnl(l, ClosedAt(l, px, m), m);
        }
        rows := rows[i := rows[i].(isOpen := false)];
      }
      assert legs[..|legs|] == legs;
    }

    method OpenLeg(corr: Corr, side: P.Side, qty: int, q: LegQuote, ghost base: seq<Row>, ghost legs: seq<Leg>)
      returns (leg: Leg)
      requires q.Quoted? && Appended(rows, base, legs, corr, None)
      modifies `rows
      ensures leg == Leg(|base| + |legs|, q.token, q.symbol, side, qty, q.price, q.fees)
      ensures Appended(rows, base, legs + [leg], corr, None)
    {
      leg := Leg(|rows|, q.token, q.symbol, side, qty, q.price, q.fees);
      var row := Row(corr, true, true, q.token, q.symbol, side, qty, q.price, q.fees, None);
      AppendOne(rows, base, legs, corr, row, leg);
      rows := rows + [row];
    }

    /** One leg after another, until one cannot be had. */
    method FillLegs(o: Order, market: seq<LegQuote>) returns (legs: seq<Leg>, prices: seq<real>, fees: real)
      requires |market| == |FillRisk.LegsFromStructure(o.plan)|
      modifies `rows
      ensures Appended(rows, old(rows), legs, o.corr, None)
      ensures |prices| == |legs| <= |market|
      ensures |legs| == |market| <==> AllQuoted(market)
      ensures AllQuoted(market) ==> legs == LegsFor(o, market, |old(rows)|) && prices == Prices(market)
                                    && fees == TotalFees(market)
    {
      var plan := FillRisk.LegsFromStructure(o.plan);
      legs, prices, fees := [], [], 0.0;
      for n := 0 to |market|
        invariant Appended(rows, old(rows), legs, o.corr, None) && |prices| == |legs| == n
        invariant AllQuoted(market[..n]) && prices == Prices(market[..n]) && fees == TotalFees(market[..n])
        invariant LegsSoFar(legs, o, market, |old(rows)|)
      {
        if !market[n].Quoted? { return; }
        OneMoreQuote(market, n);
        var q := market[n];
        var leg := OpenLeg(o.corr, plan[n].2, o.lots * o.lotSize, q, old(rows), legs);
        fees := fees + q.fees;
        assert leg == LegAt(o, market, |old(rows)|, n);
        legs, prices := legs + [leg], prices + [q.price];
      }
      assert market[..|market|] == market;
    }

    /** Either the whole structure is registered at no more than the allowed risk, or nothing of it stays open. */
    method OpenStructure(o: Order, exits: Exits, market: seq<LegQuote>) returns (taken: bool)
      requires Valid() && |market| == |FillRisk.LegsFromStructure(o.plan)| && Unused(o.corr, rows, structures.byCorr)
      modifies this, structures
      ensures Valid() && structures == old(structures)
      ensures taken <==> Acceptable(o, exits, market)
      ensures taken ==> structures.byCorr == old(structures.byCorr)[o.corr := GuardFor(o, exits, market, |old(rows)|)]
      ensures |rows| >= |old(rows)| && rows[..|old(rows)|] == old(rows) && (taken ==> |rows| == |old(rows)| + |market|)
      ensures !taken ==>
                && structures.byCorr == old(structures.byCorr)
                && forall i: nat :: Live(rows, i) <==> old(Live(rows, i))
    {
      ghost var base := rows;
      var legs, prices, fees := FillLegs(o, market);
      if |legs| < |market| {
        Unwind(base, legs, o.corr);
        return false;
      }
      var risk := FillRisk.FillBasedRisk(o.plan, FillRisk.Filled(o.plan, o.lots * o.lotSize, prices));
      if !FillRisk.Kept(risk.maxLoss, o.lossPerLot * o.lots as real, OrDefault(exits.overrun, 1.25)) {
        Unwind(base, legs, o.corr);
        return false;
      }
      Keep(base, o, exits, legs, risk, fees);
      taken := true;
    }

    /** The blob on every leg, and the guard in the registry. */
    method Keep(ghost base: seq<Row>, o: Order, exits: Exits, legs: seq<Leg>, risk: FillRisk.Risk, fees: real)
      requires structures.Exact() && Reflects(base, structures.byCorr) && Unused(o.corr, base, structures.byCorr)
      requires Appended(rows, base, legs, o.corr, None) && legs != []
      modifies `rows, structures
      ensures Valid() && |rows| == |base| + |legs| && rows[..|base|] == base
      ensures structures.byCorr == old(structures.byCorr)[o.corr :=
                Guard(o.corr, o.name, o.stype, legs, risk.maxLoss, risk.maxProfit, fees, OrDefault(exits.target, 0.5),
                      OrDefault(exits.stop, 0.5), o.expiry, Some(o.today), 0)]
    {
      var g := Guard(o.corr, o.name, o.stype, legs, risk.maxLoss, risk.maxProfit, fees, OrDefault(exits.target, 0.5),
                     OrDefault(exits.stop, 0.5), o.expiry, Some(o.today), 0);
      StampedAppended(rows, base, legs, o.corr, MetaOf(g));
      rows := WithMeta(rows, PositionIds(legs), MetaOf(g));
      OpenedKeeps(base, rows, structures.byCorr, g);
      structures.Register(g);
    }

    method Unwind(ghost base: seq<Row>, legs: seq<Leg>, corr: Corr)
      requires structures.Exact() && Reflects(base, structures.byCorr) && Appended(rows, base, legs, corr, None)
      modifies `rows
      ensures Valid() && forall i: nat :: Live(rows, i) <==> Live(base, i)
      ensures |rows| >= |base| && rows[..|base|] == base
    {
      AppendedIds(rows, base, legs, corr, None);
      RejectedKeeps(base, rows, legs, corr, None, structures.byCorr);
      ghost var before := rows;
      var _ := CloseLegs(legs, map[], UNPRICED);
      assert forall i :: 0 <= i < |base| ==> rows[i] == rows[..|base|][i] == base[i];
    }

    /** Where the book may not be crossed, or no quotes came, the exit counts as tried and waits, up to the allowed
        retries. */
    method MayClose(corr: Corr, exits: Exits, quotes: Option<string -> Top>, bps: real, force: bool, m: Market)
      returns (ok: bool, px: map<int, real>)
      requires Valid() && corr in structures.byCorr
      modifies structures
      ensures Valid() && ok == Crossable(old(structures.byCorr)[corr], exits, quotes, bps, force)
      ensures px == AskedPrices(old(structures.byCorr)[corr], exits, quotes, bps, force, m)
      ensures var g := old(structures.byCorr)[corr];
              structures.byCorr == old(structures.byCorr) ||
              structures.byCorr == old(structures.byCorr)[corr := g.(exitRetries := g.exitRetries + 1)]
      ensures !ok ==> structures.byCorr[corr].exitRetries == old(structures.byCorr)[corr].exitRetries + 1
    {
      var g := structures.byCorr[corr];
      px := m.marks;
      if force || exits.maxSpread <= 0.0 { return true, px; }
      if quotes.Some? {
        var sane, crossing := CheckBook(g, exits, quotes.value, bps);
        if sane { return true, crossing; }
      }
      RetryKeeps(rows, structures.byCorr, corr);
      structures.CountRetry(corr);
      ok := g.exitRetries + 1 > exits.maxRetries;
    }

    /** A bad book postpones the exit, up to the allowed retries; otherwise every leg is closed and its P&L booked. */
    method CloseStructure(corr: Corr, exits: Exits, quotes: Option<string -> Top>, bps: real, force: bool, m: Market)
      returns (closed: bool, realized: real)
      requires Valid() && corr in structures.byCorr
      modifies this, structures
      ensures Valid() && structures == old(structures)
      ensures closed == Crossable(old(structures.byCorr)[corr], exits, quotes, bps, force)
      ensures closed ==>
                && structures.byCorr == old(structures.byCorr) - {corr}
                && forall i: nat :: Live(rows, i) <==> old(Live(rows, i)) && old(rows)[i].corr != corr
      ensures closed ==>
                var g := old(structures.byCorr)[corr];
                && realized == Sum(Realised(AskedPrices(g, exits, quotes, bps, force, m), m), g.legs)
                && rows == Shut(old(rows), PositionIds(g.legs))
      ensures !closed ==>
                && rows == old(rows)
                && structures.byCorr == old(structures.byCorr)[corr := old(structures.byCorr)[corr].(
                     exitRetries := old(structures.byCorr)[corr].exitRetries + 1)]
    {
      var px;
      realized := 0.0;
      closed, px := MayClose(corr, exits, quotes, bps, force, m);
      if !closed { return; }
      realized := CloseAll(corr, px, m);
    }

    /** Every leg of a registered structure, and then its guard. */
    method CloseAll(corr: Corr, px: map<int, real>, m: Market) returns (realized: real)
      requires Valid() && corr in structures.byCorr
      modifies this`rows, structures
      ensures Valid() && structures.byCorr == old(structures.byCorr) - {corr}
      ensures forall i: nat :: Live(rows, i) <==> old(Live(rows, i)) && old(rows)[i].corr != corr
      ensures realized == Sum(Realised(px, m), old(structures.byCorr)[corr].legs)
      ensures rows == Shut(old(rows), PositionIds(old(structures.byCorr)[corr].legs))
    {
      var g := structures.byCorr[corr];
      ghost var reg := structures.byCorr;
      ClosedKeeps(rows, reg, corr);
      forall n | 0 <= n < |g.legs|
        ensures g.legs[n].positionId < |rows| && rows[g.legs[n].positionId].isOpen
        ensures LegOf(rows, g.legs[n].positionId) == g.legs[n]
      {
        assert LegBacked(rows, g, g.legs[n]);
      }
      realized := CloseLegs(g.legs, px, m);
      structures.Unregister(corr);
    }

    /** Cold start, with the live rows read in any order: the same registry comes back, guard for guard, and the same
        token index; `covered` is every row managed by a structure. */
    method RebuildStructures(order: seq<nat>) returns (covered: set<nat>)
      requires Valid() && Lists(order, rows)
      modifies this
      ensures Valid() && fresh(structures) && rows == old(rows)
      ensures RestoredAll(structures.byCorr, old(structures.byCorr))
      ensures forall t :: structures.Ids(t) == old(structures.Ids(t))
      ensures Covers(covered, rows, structures.byCorr)
    {
      ghost var reg := structures.byCorr;
      var groups := Regroup(order);
      forall c | c in reg ensures c in groups { RegroupingRestores(rows, reg, order, c); }
      var manager;
      manager, covered := Reregister(groups, order, reg);
      RestoredReflects(rows, reg, manager.byCorr);
      forall c | c in reg ensures Tokens(manager.byCorr[c]) == Tokens(reg[c]) {
        RestoredIsBacked(rows, reg[c], manager.byCorr[c]);
      }
      forall t ensures manager.Ids(t) == structures.Ids(t) {
        forall c ensures c in manager.Ids(t) <==> c in structures.Ids(t) {
          assert c in manager.byCorr <==> c in reg;
        }
      }
      structures := manager;
    }

    method Reregister(groups: map<Corr, seq<nat>>, ghost order: seq<nat>, ghost reg: Registry)
      returns (manager: StructureManager, covered: set<nat>)
      requires Reflects(rows, reg) && Lists(order, rows)
      requires forall c :: Group(rows, order, c) == (if c in groups then groups[c] else [])
      requires forall c :: c in reg ==> c in groups
      ensures fresh(manager) && manager.Exact() && RestoredAll(manager.byCorr, reg)
      ensures Covers(covered, rows, manager.byCorr)
    {
      manager := new StructureManager();
      covered := {};
      var left := groups.Keys;
      while left != {}
        invariant left <= groups.Keys && fresh(manager) && manager.Exact()
        invariant RestoredUpTo(manager.byCorr, reg, left) && Covers(covered, rows, manager.byCorr)
        decreases left
      {
        var c :| c in left;
        assert groups[c] == Group(rows, order, c);
        covered := RestoreGroup(manager, c, groups[c], covered, order, reg, left);
        left := left - {c};
      }
    }

    /** One more group of the rows, with the groups in `left` still to come. */
    method RestoreGroup(manager: StructureManager, c: Corr, ids: seq<nat>, before: set<nat>, ghost order: seq<nat>,
                        ghost reg: Registry, ghost left: set<Corr>) returns (covered: set<nat>)
      requires Reflects(rows, reg) && Lists(order, rows) && ids == Group(rows, order, c) && c in left
      requires manager.Exact() && RestoredUpTo(manager.byCorr, reg, left) && Covers(before, rows, manager.byCorr)
      modifies manager
      ensures manager.Exact() && RestoredUpTo(manager.byCorr, reg, left - {c})
      ensures Covers(covered, rows, manager.byCorr)
    {
      OneMoreGroup(rows, reg, order, manager.byCorr, left, before, c, ids);
      var more := RegisterGroup(manager, c, ids);
      covered := before + more;
    }

    method RegisterGroup(manager: StructureManager, c: Corr, ids: seq<nat>) returns (covered: set<nat>)
      requires forall n :: 0 <= n < |ids| ==> ids[n] < |rows|
      requires manager.Exact() && c !in manager.byCorr
      modifies manager
      ensures manager.Exact()
      ensures var g := Rebuilt(rows, c, ids);
              manager.byCorr == if g.Some? then old(manager.byCorr)[c := g.value] else old(manager.byCorr)
      ensures covered == if Rebuilt(rows, c, ids).Some? then set i | i in ids else {}
    {
      covered := {};
      var g := Rebuilt(rows, c, ids);
      if g.Some? {
        manager.Register(g.value);
        covered := set i | i in ids;
      }
    }

    method Regroup(order: seq<nat>) returns (groups: map<Corr, seq<nat>>)
      requires Lists(order, rows)
      ensures forall c :: Group(rows, order, c) == (if c in groups then groups[c] else [])
      ensures forall c :: c in groups ==> groups[c] != []
    {
      groups := map[];
      for n := 0 to |order|
        invariant forall c :: Group(rows, order[..n], c) == (if c in groups then groups[c] else [])
        invariant forall c :: c in groups ==> groups[c] != []
      {
        assert order[..n + 1][..n] == order[..n];
        var c := rows[order[n]].corr;
        groups := groups[c := (if c in groups then groups[c] else []) + [order[n]]];
      }
      assert order[..|order|] == order;
    }
  }
}
