/** The live entry and exit protocol as a transition system: one step per `await` of
    `_execute_live`, `create_bracket`, `close`, `resolve_pending_closes` and `reconcile_brackets`,
    interleaved in any order with each other and with a broker that fills, kills and triggers
    orders whenever it likes.

    The broker's order table is kept grouped by the trade an order belongs to: the clips of the
    entry, the leg of the resting OCO once it has fired, and the market exits. */
module TradeProtocol {
  import opened OrderPolicy
  import opened Options

  // --- state -------------------------------------------------------------------------------

  /** A clip sent to the broker, the fill booked for it, and the status its last poll read, if that has been. */
  datatype Clip = Clip(order: Order, observed: nat, seen: Option<Status>)

  datatype EntryPc =
    | Place                      // about to place the next clip
    | Poll(left: nat)            // polling the last clip
    | Cancel                     // about to cancel its remainder
    | Confirm(left: nat)         // polling for the cancel
    | Book                       // about to insert the position
    | Arm                        // about to arm the guard
    | PlaceOco                   // about to place the GTT-OCO
    | Finish                     // about to classify and flag
    | Ended(outcome: EntryOutcome)

  /** `known`: the position knows the OCO's id. `listed`: its bracket row is still active. */
  datatype Bracket = NoBracket | Resting(known: bool, listed: bool) | Fired(leg: Order) | Removed

  datatype PositionStatus = NoPosition | Open | ClosePending(exit: Option<nat>) | Closed

  datatype ClosePc =
    | DeleteOco(knew: bool)      // the row read at the start named the OCO
    | AskNet
    | SendExit
    | PollExit(exit: nat, left: nat)
    | BookExit
    | ParkExit(ref: Option<nat>)
    | Returned

  /** `guarded`: a guard has been armed; a close disarms it, and that is not recorded here. */
  datatype Trade = Trade(
    token: int, long: bool,
    clips: seq<nat>, placed: seq<Clip>, dealt: bool, pc: EntryPc,
    status: PositionStatus, qty: nat, guarded: bool, bracket: Bracket,
    closes: seq<ClosePc>, exits: seq<Order>, settling: bool)

  datatype State = State(trades: seq<Trade>, blocked: bool)

  // --- moves -------------------------------------------------------------------------------

  datatype OrderRef = ClipRef(k: nat) | LegRef | ExitRef(k: nat)

  datatype Move =
    | DoPlace(reply: Reply) | DoPoll(answered: bool) | DoCancel | DoConfirm(answered: bool)
    | DoBook | DoArm(configured: bool, wantsOco: bool) | DoPlaceOco(reply: Reply) | DoFinish
    | StartClose | DoDeleteOco(c: nat, done: bool) | DoAskNet(c: nat, answered: bool)
    | DoSendExit(c: nat, reply: Reply) | DoPollExit(c: nat, answered: bool)
    | DoBookExit(c: nat) | DoPark(c: nat)
    | DoReadPending | DoSettlePending | DoReconcileBracket(done: bool)
    | BrokerMoves(ref: OrderRef, now: Order) | OcoFires

  datatype Action = NewTrade(token: int, long: bool, clips: seq<nat>) | At(t: nat, move: Move)

  function Observed(cs: seq<Clip>): nat {
    if cs == [] then 0 else Observed(cs[..|cs| - 1]) + cs[|cs| - 1].observed
  }

  function ClipFills(cs: seq<Clip>): nat {
    if cs == [] then 0 else ClipFills(cs[..|cs| - 1]) + cs[|cs| - 1].order.filled
  }

  function ExitFills(os: seq<Order>): nat {
    if os == [] then 0 else ExitFills(os[..|os| - 1]) + os[|os| - 1].filled
  }

  function LegFill(b: Bracket): nat { if b.Fired? then b.leg.filled else 0 }

  /** What market exits and the bracket leg have executed against the position. */
  function Exited(tr: Trade): nat { ExitFills(tr.exits) + LegFill(tr.bracket) }

  /** The trade's part of the broker's net quantity. */
  function Exposure(tr: Trade): int { Signed(tr.long, ClipFills(tr.placed) - Exited(tr)) }

  function SumOver(ts: seq<Trade>, f: Trade -> int): int {
    if ts == [] then 0 else SumOver(ts[..|ts| - 1], f) + f(ts[|ts| - 1])
  }

  function Only(token: int, f: Trade -> int): Trade -> int {
    (tr: Trade) => if tr.token == token then f(tr) else 0
  }

  /** mock_broker.net_quantity: the broker's signed net position on an instrument. */
  function Net(s: State, token: int): int {
    SumOver(s.trades, Only(token, Exposure))
  }

  function LastClip(tr: Trade): Clip requires tr.placed != [] { tr.placed[|tr.placed| - 1] }

  function SetLast(tr: Trade, c: Clip): seq<Clip> requires tr.placed != [] {
    tr.placed[|tr.placed| - 1 := c]
  }

  predicate Resolves(tr: Trade, ref: OrderRef) {
    match ref
    case ClipRef(k) => k < |tr.placed|
    case LegRef => tr.bracket.Fired?
    case ExitRef(k) => k < |tr.exits|
  }

  function Resolve(tr: Trade, ref: OrderRef): Order requires Resolves(tr, ref) {
    match ref
    case ClipRef(k) => tr.placed[k].order
    case LegRef => tr.bracket.leg
    case ExitRef(k) => tr.exits[k]
  }

  predicate AtClose(tr: Trade, c: nat) { c < |tr.closes| }

  /** Whether a task of the trade, or the broker, can make this move now. */
  predicate Can(tr: Trade, m: Move) {
    match m
    case DoPlace(_) => tr.pc.Place? && |tr.placed| < |tr.clips|
    case DoPoll(_) => tr.pc.Poll? && tr.pc.left > 0 && tr.placed != []
    case DoCancel => tr.pc.Cancel?
    case DoConfirm(_) => tr.pc.Confirm? && tr.pc.left > 0 && tr.placed != []
    case DoBook => tr.pc.Book?
    case DoArm(_, _) => tr.pc.Arm?
    case DoPlaceOco(_) => tr.pc.PlaceOco?
    case DoFinish => tr.pc.Finish?
    case StartClose => tr.status.Open?
    case DoDeleteOco(c, _) => AtClose(tr, c) && tr.closes[c].DeleteOco?
    case DoAskNet(c, _) => AtClose(tr, c) && tr.closes[c].AskNet?
    case DoSendExit(c, _) => AtClose(tr, c) && tr.closes[c].SendExit?
    case DoPollExit(c, _) =>
      && AtClose(tr, c) && tr.closes[c].PollExit?
      && tr.closes[c].left > 0 && tr.closes[c].exit < |tr.exits|
    case DoBookExit(c) => AtClose(tr, c) && tr.closes[c].BookExit?
    case DoPark(c) => AtClose(tr, c) && tr.closes[c].ParkExit?
    case DoReadPending =>
      && tr.status.ClosePending? && tr.status.exit.Some? && tr.status.exit.value < |tr.exits|
    case DoSettlePending => tr.settling
    case DoReconcileBracket(_) => tr.bracket.Resting? && tr.bracket.listed && !tr.status.Open?
    case BrokerMoves(ref, now) => Resolves(tr, ref) && BrokerMay(Resolve(tr, ref), now)
    case OcoFires => tr.bracket.Resting?
  }

  const FRESH_STATUS := Working

  function Sent(qty: nat): Order { Order(qty, 0, FRESH_STATUS) }

  /** One poll of the clip being worked; `_poll_order` followed by the branch it leads to. */
  function AfterPoll(tr: Trade, answered: bool): Trade requires Can(tr, DoPoll(answered)) {
    var o := LastClip(tr).order;
    var seen := SetLast(tr, Clip(o, o.filled, Some(o.status)));
    if !answered then
      tr.(dealt := false, pc := Book)
    else if !Terminal(o.status) && tr.pc.left > 1 then
      tr.(pc := Poll(tr.pc.left - 1))
    else if o.status.Complete? then
      tr.(placed := seen, pc := if |tr.placed| < |tr.clips| then Place else Book)
    else if o.status.Rejected? && !o.status.transient then
      tr.(placed := seen, pc := Book)
    else
      tr.(placed := seen, pc := if o.filled < o.qty then Cancel else Book)
  }

  function AfterExitPoll(tr: Trade, c: nat, answered: bool): ClosePc
    requires Can(tr, DoPollExit(c, answered))
  {
    var k := tr.closes[c].exit;
    var o := tr.exits[k];
    if !answered then ParkExit(None)
    else if !Terminal(o.status) && tr.closes[c].left > 1 then PollExit(k, tr.closes[c].left - 1)
    else if o.status.Complete? && o.filled >= tr.qty then BookExit
    else ParkExit(Some(k))
  }

  function WithClose(tr: Trade, c: nat, pc: ClosePc): Trade requires c < |tr.closes| {
    tr.(closes := tr.closes[c := pc])
  }

  function MoveOrder(tr: Trade, ref: OrderRef, now: Order): Trade requires Resolves(tr, ref) {
    match ref
    case ClipRef(k) => tr.(placed := tr.placed[k := tr.placed[k].(order := now)])
    case LegRef => tr.(bracket := Fired(now))
    case ExitRef(k) => tr.(exits := tr.exits[k := now])
  }

  predicate OfEntry(m: Move) {
    m.DoPlace? || m.DoPoll? || m.DoCancel? || m.DoConfirm? || m.DoBook? || m.DoArm? || m.DoPlaceOco? || m.DoFinish?
  }

  predicate OfBroker(m: Move) { m.BrokerMoves? || m.OcoFires? }

  /** A step of `_execute_live` or `create_bracket`. */
  function AfterEntry(tr: Trade, m: Move): Trade requires OfEntry(m) && Can(tr, m) {
    match m
    case DoPlace(reply) =>
      var placed := if reply.Lost? then tr.placed
                    else tr.placed + [Clip(Sent(tr.clips[|tr.placed|]), 0, None)];
      if reply.Delivered? then tr.(placed := placed, pc := Poll(POLL_ATTEMPTS))
      else tr.(placed := placed, dealt := false, pc := Book)
    case DoPoll(answered) => AfterPoll(tr, answered)
    case DoCancel => tr.(pc := Confirm(CONFIRM_ATTEMPTS))
    case DoConfirm(answered) =>
      if answered && Terminal(LastClip(tr).order.status) then tr.(pc := Book)
      else if tr.pc.left > 1 then tr.(pc := Confirm(tr.pc.left - 1))
      else tr.(dealt := false, pc := Book)
    case DoBook =>
      if Observed(tr.placed) > 0 then tr.(status := Open, qty := Observed(tr.placed), pc := Arm)
      else tr.(pc := Finish)
    case DoArm(configured, wantsOco) =>
      if !configured then tr.(pc := Finish)
      else tr.(guarded := true, pc := if wantsOco then PlaceOco else Finish)
    case DoPlaceOco(reply) =>
      tr.(bracket := if reply.Lost? then tr.bracket else Resting(reply.Delivered?, reply.Delivered?), pc := Finish)
    case DoFinish => tr.(pc := Ended(Outcome(Observed(tr.placed), tr.dealt, tr.guarded)))
  }

  /** A step of `close`, `_do_live_exit`, `resolve_pending_closes` or `reconcile_brackets`; `net` is
      what the broker reports for the instrument. */
  function AfterExit(tr: Trade, m: Move, net: int): Trade
    requires !OfEntry(m) && !OfBroker(m) && Can(tr, m)
  {
    match m
    case StartClose => tr.(closes := tr.closes + [DeleteOco(Knows(tr.bracket))])
    case DoDeleteOco(c, done) =>
      WithClose(tr.(bracket := AfterDelete(tr.bracket, tr.closes[c].knew && done)), c, AskNet)
    case DoAskNet(c, answered) =>
      WithClose(tr, c, if answered && net == 0 then ParkExit(None) else SendExit)
    case DoSendExit(c, reply) =>
      var tr' := if reply.Lost? then tr else tr.(exits := tr.exits + [Sent(tr.qty)]);
      WithClose(tr', c, if reply.Delivered? then PollExit(|tr.exits|, POLL_ATTEMPTS) else ParkExit(None))
    case DoPollExit(c, answered) => WithClose(tr, c, AfterExitPoll(tr, c, answered))
    case DoBookExit(c) => WithClose(tr.(status := Finalised(tr.status)), c, Returned)
    case DoPark(c) => WithClose(tr.(status := ClosePending(tr.closes[c].ref)), c, Returned)
    case DoReadPending => tr.(settling := tr.settling || tr.exits[tr.status.exit.value].status.Complete?)
    case DoSettlePending => tr.(settling := false, status := Finalised(tr.status))
    case DoReconcileBracket(done) => tr.(bracket := AfterDelete(tr.bracket, done))
  }

  predicate Knows(b: Bracket) { b.Resting? && b.known }

  /** The deletion of a resting OCO, which may not be asked for, or fail. Its row is marked cancelled all the same. */
  function AfterDelete(b: Bracket, done: bool): Bracket {
    if !b.Resting? then b else if b.known && done then Removed else Resting(b.known, false)
  }

  /** position_book.close_position: only an open or parked row is closed. */
  function Finalised(p: PositionStatus): PositionStatus {
    if p.Open? || p.ClosePending? then Closed else p
  }

  /** The broker moving an order, or the resting OCO triggering one of its legs. */
  function AfterBroker(tr: Trade, m: Move): Trade requires OfBroker(m) && Can(tr, m) {
    match m
    case BrokerMoves(ref, now) => MoveOrder(tr, ref, now)
    case OcoFires => tr.(bracket := Fired(Sent(tr.qty)))
  }

  function After(tr: Trade, m: Move, net: int): Trade requires Can(tr, m) {
    if OfEntry(m) then AfterEntry(tr, m)
    else if OfBroker(m) then AfterBroker(tr, m)
    else AfterExit(tr, m, net)
  }

  const IDLE := Trade(0, true, [], [], true, Place, NoPosition, 0, false, NoBracket, [], [], false)

  predicate Enabled(s: State, a: Action) {
    match a
    case NewTrade(_, _, clips) => !s.blocked && clips != []
    case At(t, m) => t < |s.trades| && Can(s.trades[t], m)
  }

  function Next(s: State, a: Action): State requires Enabled(s, a) {
    match a
    case NewTrade(token, long, clips) =>
      s.(trades := s.trades + [IDLE.(token := token, long := long, clips := clips)])
    case At(t, m) =>
      var tr' := After(s.trades[t], m, Net(s, s.trades[t].token));
      State(s.trades[t := tr'], s.blocked || (m.DoFinish? && Unsafe(tr'.pc.outcome)))
  }

  const START := State([], false)
}
