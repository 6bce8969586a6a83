/** broker/mock_broker.py, and the governed calls through which the executor reaches it. */
module Broker {
  import opened OrderPolicy
  import opened Options

  datatype Scenario = FillsWhole | PartialThenComplete | PartialThenStuck | Rejects | NeverFills

  /** What one order shows: the parts of a mock order its API reveals. */
  datatype Row = Row(token: int, buy: bool, order: Order, scenario: Scenario, polls: nat)

  /** Half of the quantity, rounded down, but at least one of it. */
  function Half(qty: nat): (h: nat)
    ensures h <= qty && (qty > 1 ==> qty - 1 <= 2 * h <= qty) && (qty == 1 ==> h == 1)
  {
    if qty == 0 then 0 else if qty / 2 > 1 then qty / 2 else 1
  }

  function At(r: Row, filled: nat, status: Status): Row {
    r.(order := Order(r.order.qty, filled, status), polls := r.polls + 1)
  }

  /** One step of the scripted lifecycle. */
  function Advanced(r: Row): Row {
    if Terminal(r.order.status) then r
    else match r.scenario
      case FillsWhole => At(r, r.order.qty, Complete)
      case Rejects => At(r, 0, Rejected(false))
      case NeverFills => At(r, 0, Working)
      case PartialThenStuck => At(r, Half(r.order.qty), Working)
      case PartialThenComplete =>
        if r.polls == 0 then At(r, Half(r.order.qty), Working) else At(r, r.order.qty, Complete)
  }

  function CancelledRow(r: Row): Row {
    if Terminal(r.order.status) then r else r.(order := r.order.(status := Cancelled))
  }

  function Placed(token: int, buy: bool, qty: nat, scenario: Scenario): Row {
    Row(token, buy, Order(qty, 0, Working), scenario, 0)
  }

  function PolledTimes(r: Row, n: nat): Row { if n == 0 then r else Advanced(PolledTimes(r, n - 1)) }

  /** A fresh order after n polls, by its script. */
  lemma {:induction false} ScriptPlays(token: int, buy: bool, qty: nat, scenario: Scenario, n: nat)
    requires n > 0
    ensures PolledTimes(Placed(token, buy, qty, scenario), n).order ==
            match scenario
            case FillsWhole => Order(qty, qty, Complete)
            case PartialThenComplete => if n == 1 then Order(qty, Half(qty), Working) else Order(qty, qty, Complete)
            case PartialThenStuck => Order(qty, Half(qty), Working)
            case Rejects => Order(qty, 0, Rejected(false))
            case NeverFills => Order(qty, 0, Working)
    ensures var r := PolledTimes(Placed(token, buy, qty, scenario), n);
            r.scenario == scenario && (r.order.status.Working? ==> r.polls == n)
  {
    if n > 1 {
      ScriptPlays(token, buy, qty, scenario, n - 1);
    } else {
      assert PolledTimes(Placed(token, buy, qty, scenario), 0).polls == 0;
    }
  }

  /** Rows the mock can be in: the script decides the fill. */
  predicate OnScript(r: Row) {
    && WellFormed(r.order)
    && (r.order.status.Working? ==>
          r.order.filled == if r.polls == 0 || r.scenario.NeverFills? then 0 else Half(r.order.qty))
    && (r.order.status.Working? && r.polls > 0 ==> !r.scenario.FillsWhole? && !r.scenario.Rejects?)
    && (r.order.status.Working? && r.polls > 1 ==> !r.scenario.PartialThenComplete?)
    && (r.order.status.Rejected? ==> r.order.filled == 0)
  }

  /** The mock keeps the broker's contract, and after two unanswered polls its fill is final. */
  lemma MockKeepsContract(r: Row)
    requires OnScript(r)
    ensures OnScript(Advanced(r)) && BrokerMay(r.order, Advanced(r).order)
    ensures OnScript(CancelledRow(r)) && BrokerMay(r.order, CancelledRow(r).order)
    ensures r.polls >= 2 ==> Advanced(r).order == r.order
    ensures r.order.status.Working? ==> CancelledRow(r).order == Order(r.order.qty, r.order.filled, Cancelled)
  {
    assert Half(r.order.qty) <= r.order.qty;
  }

  /** The same order at a later time. */
  predicate Later(r: Row, r': Row) {
    && r'.token == r.token && r'.buy == r.buy && r'.scenario == r.scenario && r.polls <= r'.polls
    && OnScript(r') && BrokerMay(r.order, r'.order)
  }

  lemma StaysLater(was: Row, r: Row)
    requires Later(was, r)
    ensures Later(was, Advanced(r)) && Later(was, CancelledRow(r))
    ensures CancelledRow(r).order.filled == r.order.filled
    ensures r.polls >= 2 ==> Advanced(r).order.filled == r.order.filled
  {
    MockKeepsContract(r);
  }

  /** The same order at a later time, with its fill final if it was polled twice before. */
  predicate Holds(was: Row, r: Row) { Later(was, r) && (was.polls >= 2 ==> r.order.filled == was.order.filled) }

  lemma StaysHeld(was: Row, r: Row)
    requires Holds(was, r)
    ensures Holds(was, Advanced(r)) && Holds(was, CancelledRow(r))
  {
    StaysLater(was, r);
  }

  /** An order whose fill is final: over, or polled twice without being filled. */
  predicate Settled(r: Row) { OnScript(r) && (Terminal(r.order.status) || r.polls >= 2) }

  lemma SettledStays(r: Row)
    requires Settled(r)
    ensures Settled(Advanced(r)) && Advanced(r).order == r.order
    ensures Settled(CancelledRow(r)) && Terminal(CancelledRow(r).order.status)
  {
    MockKeepsContract(r);
  }

  lemma StillHeld(a: Row, b: Row, c: Row)
    requires Holds(a, b) && Holds(b, c)
    ensures Holds(a, c)
  {
  }

  predicate AllLater(rows: seq<Row>, rows': seq<Row>) {
    |rows'| == |rows| && forall k :: 0 <= k < |rows| ==> Later(rows[k], rows'[k])
  }

  lemma AllStillLater(rows: seq<Row>, rows': seq<Row>, rows'': seq<Row>)
    requires AllLater(rows, rows') && AllLater(rows', rows'')
    ensures AllLater(rows, rows'')
  {
    forall k | 0 <= k < |rows| ensures Later(rows[k], rows''[k]) {
      assert Later(rows[k], rows'[k]) && Later(rows'[k], rows''[k]);
    }
  }

  class MockOrder {
    const token: int
    const buy: bool
    const qty: nat
    const scenario: Scenario
    var status: Status
    var filled: nat
    var polls: nat
    var history: seq<Order>

    ghost function View(): Row reads this { Row(token, buy, Order(qty, filled, status), scenario, polls) }

    /** The last history row is the order's present state. */
    ghost predicate Valid() reads this {
      history != [] && history[|history| - 1] == Order(qty, filled, status) && OnScript(View())
    }

    constructor (token: int, buy: bool, qty: nat, scenario: Scenario)
      ensures Valid() && View() == Placed(token, buy, qty, scenario)
    {
      this.token, this.buy, this.qty, this.scenario := token, buy, qty, scenario;
      status, filled, polls := Working, 0, 0;
      history := [Order(qty, 0, Working)];
    }

    method Snapshot()
      modifies `history
      ensures history == old(history) + [Order(qty, filled, status)]
    {
      history := history + [Order(qty, filled, status)];
    }

    method Advance()
      requires Valid()
      modifies this
      ensures Valid() && View() == Advanced(old(View())) && old(history) <= history
    {
      MockKeepsContract(View());
      if Terminal(status) {
        return;
      }
      polls := polls + 1;
      var half := if qty == 0 then 0 else if qty / 2 > 1 then qty / 2 else 1;
      match scenario {
        case FillsWhole => status, filled := Complete, qty;
        case Rejects => status, filled := Rejected(false), 0;
        case NeverFills => status, filled := Working, 0;
        case PartialThenStuck => status, filled := Working, half;
        case PartialThenComplete =>
          if polls == 1 { status, filled := Working, half; } else { status, filled := Complete, qty; }
      }
      Snapshot();
    }

    method Cancel()
      requires Valid()
      modifies this
      ensures Valid() && View() == CancelledRow(old(View())) && old(history) <= history
    {
      MockKeepsContract(View());
      if !Terminal(status) {
        status := Cancelled;
        Snapshot();
      }
    }
  }

  /** The broker's net position on an instrument. */
  function Net(rows: seq<Row>, token: int): int {
    if rows == [] then 0
    else
      var r := rows[|rows| - 1];
      Net(rows[..|rows| - 1], token) + if r.token == token then Signed(r.buy, r.order.filled) else 0
  }

  lemma {:induction false} NetAppend(rows: seq<Row>, more: seq<Row>, token: int)
    ensures Net(rows + more, token) == Net(rows, token) + Net(more, token)
  {
    if more == [] {
      assert rows + more == rows;
    } else {
      assert (rows + more)[..|rows + more| - 1] == rows + more[..|more| - 1];
      NetAppend(rows, more[..|more| - 1], token);
    }
  }

  lemma {:induction false} NetUpdate(rows: seq<Row>, k: nat, r: Row, token: int)
    requires k < |rows| && r.token == rows[k].token && r.buy == rows[k].buy
    ensures Net(rows[k := r], token)
            == Net(rows, token) + if r.token == token then Signed(r.buy, r.order.filled - rows[k].order.filled) else 0
  {
    var n := |rows| - 1;
    if k == n {
      assert rows[k := r][..n] == rows[..n];
    } else {
      assert rows[k := r][..n] == rows[..n][k := r];
      NetUpdate(rows[..n], k, r, token);
    }
  }

  /** Every one of these calls was carried out and answered. */
  predicate Answered(replies: nat -> Reply, from: nat, to: nat) {
    forall k :: from <= k < to ==> replies(k).Delivered?
  }

  /** At least one of these calls was carried out and answered. */
  ghost predicate SomeAnswered(replies: nat -> Reply, from: nat, to: nat) {
    exists k :: from <= k < to && replies(k).Delivered?
  }

  /** MockBroker behind the rate governor: any call may be lost on the way there or on the way back. */
  class Gateway {
    var orders: seq<MockOrder>       // keyed by id: ids count up
    var gtts: map<nat, nat>          // resting OCO -> quantity of its legs
    var nextGtt: nat
    var calls: nat
    const replies: nat -> Reply
    const scenarios: nat -> Scenario

    ghost predicate Valid() reads this, orders {
      && (forall i, j :: 0 <= i < j < |orders| ==> orders[i] != orders[j])
      && (forall i :: 0 <= i < |orders| ==> orders[i].Valid())
      && (forall g :: g in gtts ==> g < nextGtt)
    }

    ghost function Table(): seq<Row> reads this, orders {
      seq(|orders|, i requires 0 <= i < |orders| reads this, orders => orders[i].View())
    }

    constructor (replies: nat -> Reply, scenarios: nat -> Scenario)
      ensures Valid() && orders == [] && gtts == map[] && calls == 0
    {
      this.replies, this.scenarios := replies, scenarios;
      orders, gtts, nextGtt, calls := [], map[], 0, 0;
    }

    method Place(token: int, buy: bool, qty: nat) returns (oid: Option<nat>)
      requires Valid()
      modifies this`orders, this`calls
      ensures Valid() && calls == old(calls) + 1
      ensures old(orders) <= orders && |orders| <= |old(orders)| + 1
      ensures forall i :: |old(orders)| <= i < |orders| ==> fresh(orders[i])
      ensures Table() == old(Table()) + if replies(old(calls)).Lost? then []
                         else [Placed(token, buy, qty, scenarios(|old(orders)|))]
      ensures oid == if replies(old(calls)).Delivered? then Some(|old(orders)|) else None
    {
      var reply := replies(calls);
      calls := calls + 1;
      if reply.Lost? {
        return None;
      }
      var o := new MockOrder(token, buy, qty, scenarios(|orders|));
      oid := if reply.Delivered? then Some(|orders|) else None;
      orders := orders + [o];
    }

    method History(oid: nat) returns (hist: Option<seq<Order>>)
      requires Valid() && oid < |orders|
      modifies this`calls, orders[oid]
      ensures Valid() && calls == old(calls) + 1
      ensures Table() == if replies(old(calls)).Lost? then old(Table())
                         else old(Table())[oid := Advanced(old(Table())[oid])]
      ensures hist.Some? <==> replies(old(calls)).Delivered?
      ensures hist.Some? ==> hist.value != [] && hist.value[|hist.value| - 1] == Table()[oid].order
    {
      var reply := replies(calls);
      calls := calls + 1;
      if reply.Lost? {
        return None;
      }
      orders[oid].Advance();
      hist := if reply.Delivered? then Some(orders[oid].history) else None;
    }

    method Cancel(oid: nat) returns (done: bool)
      requires Valid() && oid < |orders|
      modifies this`calls, orders[oid]
      ensures Valid() && calls == old(calls) + 1
      ensures Table() == if replies(old(calls)).Lost? then old(Table())
                         else old(Table())[oid := CancelledRow(old(Table())[oid])]
    {
      var reply := replies(calls);
      calls := calls + 1;
      if !reply.Lost? { orders[oid].Cancel(); }
      done := reply.Delivered?;
    }

    /** The broker's net quantity of an instrument, or nothing when it cannot be had. */
    method NetQuantity(token: int) returns (net: Option<int>)
      requires Valid()
      modifies this`calls
      ensures Valid() && calls == old(calls) + 1
      ensures Table() == old(Table())
      ensures net == if replies(old(calls)).Delivered? then Some(Net(Table(), token)) else None
    {
      var reply := replies(calls);
      calls := calls + 1;
      if !reply.Delivered? {
        return None;
      }
      ghost var rows := Table();
      var total: int := 0;
      for k := 0 to |orders|
        invariant total == Net(rows[..k], token)
      {
        assert rows[..k + 1][..k] == rows[..k] && rows[k] == orders[k].View();
        var o := orders[k];
        if o.token == token && o.filled > 0 {
          total := total + Signed(o.buy, o.filled);
        }
      }
      assert rows[..|orders|] == rows;
      net := Some(total);
    }

    method PlaceOco(qty: nat) returns (gtt: Option<nat>)
      requires Valid()
      modifies this`gtts, this`nextGtt, this`calls
      ensures Valid() && calls == old(calls) + 1
      ensures Table() == old(Table())
      ensures gtts == if replies(old(calls)).Lost? then old(gtts) else old(gtts)[old(nextGtt) := qty]
      ensures gtt == if replies(old(calls)).Delivered? then Some(old(nextGtt)) else None
      ensures nextGtt >= old(nextGtt)
    {
      var reply := replies(calls);
      calls := calls + 1;
      if reply.Lost? {
        return None;
      }
      gtts := gtts[nextGtt := qty];
      gtt := if reply.Delivered? then Some(nextGtt) else None;
      nextGtt := nextGtt + 1;
    }

    method DeleteGtt(gtt: nat)
      requires Valid()
      modifies this`gtts, this`calls
      ensures Valid() && calls == old(calls) + 1
      ensures Table() == old(Table())
      ensures gtts == if replies(old(calls)).Lost? then old(gtts) else old(gtts) - {gtt}
    {
      var reply := replies(calls);
      calls := calls + 1;
      if !reply.Lost? { gtts := gtts - {gtt}; }
    }
  }
}
