/** The broker's order vocabulary and the decisions taken on it: execution/policy.py and
    execution/order_lifecycle.py. */
module OrderPolicy {

  /** The last row of an order history. A rejection carries whether its message reads as transient. */
  datatype Status = Working | Complete | Rejected(transient: bool) | Cancelled

  predicate Terminal(s: Status) { !s.Working? }

  /** One order as the broker holds it. */
  datatype Order = Order(qty: nat, filled: nat, status: Status)

  /** What every broker report satisfies: never over-filled, and COMPLETE means all of it. */
  predicate WellFormed(o: Order) {
    o.filled <= o.qty && (o.status.Complete? ==> o.filled == o.qty)
  }

  /** Nothing of the order can still execute. */
  predicate NothingPending(o: Order) {
    Terminal(o.status) || o.filled == o.qty
  }

  /** A quantity with the sign of its side. */
  function Signed(long: bool, q: int): int { if long then q else -q }

  /** The contract of a broker between two observations: fills only grow, terminal is final. */
  predicate BrokerMay(o: Order, o': Order) {
    && o'.qty == o.qty && o.filled <= o'.filled
    && WellFormed(o')
    && (Terminal(o.status) ==> o' == o)
  }

  /** How a broker request ends: carried out and answered, never arrived, or the answer was lost. */
  datatype Reply = Delivered | Lost | AnswerLost

  /** How often an order is polled for its end, and for its cancel. */
  const POLL_ATTEMPTS: nat := 12
  const CONFIRM_ATTEMPTS: nat := 8

  datatype EntryOutcome = Protected | Unprotected | ReconcileRequired | NoFill

  /** order_lifecycle.entry_outcome (NoFill is its REJECTED). */
  function Outcome(filled: int, remainderDealtWith: bool, bracketOk: bool): (o: EntryOutcome)
    ensures o.ReconcileRequired? <==> !remainderDealtWith
    ensures o.Protected? <==> remainderDealtWith && filled > 0 && bracketOk
    ensures o.NoFill? <==> remainderDealtWith && filled <= 0
    ensures Unsafe(o) <==> !remainderDealtWith || (filled > 0 && !bracketOk)
  {
    if filled <= 0 then
      if remainderDealtWith then NoFill else ReconcileRequired
    else if !remainderDealtWith then ReconcileRequired
    else if bracketOk then Protected else Unprotected
  }

  predicate Unsafe(o: EntryOutcome) { o.Unprotected? || o.ReconcileRequired? }
}
