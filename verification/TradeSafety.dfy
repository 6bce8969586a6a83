/** What every run of the protocol keeps: entries end protected or block new ones, exits never
    outrun entries, and the book agrees with the broker up to three named sums. */
module TradeSafety {
  import opened Options
  import opened OrderPolicy
  import opened TradeProtocol

  // --- runs and rules ------------------------------------------------------------------------

  /** Assumptions a run may be held to; each can be switched on by itself. */
  datatype Rules = Rules(
    frozen: bool,      // no fill on a clip after its last poll
    serial: bool,      // one close of a position in flight
    afterEntry: bool,  // no close before the entry is done with its OCO
    cancels: bool,     // cancelling the bracket leaves nothing resting
    answers: bool,     // the broker's net quantity is available to close
    settled: bool,     // a bracket leg that fired has filled, or died unfilled, before the net quantity is read
    alone: bool)       // nothing else moves the instrument's net quantity

  /** The entry has nothing left to place. */
  predicate EntryPast(pc: EntryPc) { pc.Finish? || pc.Ended? }

  /** A bracket leg that has executed in full, or never will. */
  predicate LegSettled(leg: Order) { leg.filled == leg.qty || (Terminal(leg.status) && leg.filled == 0) }

  predicate AllReturned(cs: seq<ClosePc>) { forall k :: 0 <= k < |cs| ==> cs[k].Returned? }

  /** The rules on one move of a trade whose instrument has broker net quantity `net`. */
  predicate Allowed(r: Rules, tr: Trade, m: Move, net: int) requires Can(tr, m) {
    match m
    case BrokerMoves(ClipRef(k), now) =>
      r.frozen && tr.placed[k].seen.Some? ==> now.filled == tr.placed[k].order.filled
    case StartClose =>
      && (r.serial ==> AllReturned(tr.closes))
      && (r.afterEntry ==> EntryPast(tr.pc))
    case DoDeleteOco(c, done) => r.cancels ==> !AfterDelete(tr.bracket, tr.closes[c].knew && done).Resting?
    case DoAskNet(_, answered) =>
      && (r.answers ==> answered)
      && (r.settled && tr.bracket.Fired? ==> LegSettled(tr.bracket.leg))
      && (r.alone ==> net == Signed(tr.long, tr.qty - Exited(tr)))
    case _ => true
  }

  predicate Obeys(r: Rules, s: State, a: Action) requires Enabled(s, a) {
    a.At? ==> Allowed(r, s.trades[a.t], a.move, Net(s, s.trades[a.t].token))
  }

  predicate Runs(r: Rules, s: State, run: seq<Action>)
    decreases |run|
  {
    run == [] || (Enabled(s, run[0]) && Obeys(r, s, run[0]) && Runs(r, Next(s, run[0]), run[1..]))
  }

  function End(r: Rules, s: State, run: seq<Action>): State
    requires Runs(r, s, run)
    decreases |run|
  {
    if run == [] then s else End(r, Next(s, run[0]), run[1..])
  }

  // --- sums over clips -----------------------------------------------------------------------

  lemma {:induction false} ObservedSame(a: seq<Clip>, b: seq<Clip>)
    requires |a| == |b| && forall k :: 0 <= k < |a| ==> a[k].observed == b[k].observed
    ensures Observed(a) == Observed(b)
  {
    if a == [] {
    } else {
      ObservedSame(a[..|a| - 1], b[..|b| - 1]);
    }
  }

  lemma {:induction false} ObservedAtMostFills(cs: seq<Clip>)
    requires forall k :: 0 <= k < |cs| ==> cs[k].observed <= cs[k].order.filled
    ensures Observed(cs) <= ClipFills(cs)
  {
    if cs == [] {
    } else {
      ObservedAtMostFills(cs[..|cs| - 1]);
    }
  }

  lemma {:induction false} ObservedIsFills(cs: seq<Clip>)
    requires forall k :: 0 <= k < |cs| ==> cs[k].observed == cs[k].order.filled
    ensures Observed(cs) == ClipFills(cs)
  {
    if cs == [] {
    } else {
      ObservedIsFills(cs[..|cs| - 1]);
    }
  }

  // --- the entry -----------------------------------------------------------------------------

  predicate ClipDone(c: Clip) { c.order.status.Complete? && c.observed == c.order.qty && c.seen == Some(Complete) }

  predicate ClipOf(c: Clip, size: nat) {
    c.order.qty == size && WellFormed(c.order) && c.observed <= c.order.filled
  }

  /** Clips are sent in order, each only after the one before it is COMPLETE. */
  predicate ClipsFollow(clips: seq<nat>, placed: seq<Clip>) {
    && |placed| <= |clips|
    && (forall k :: 0 <= k < |placed| ==> ClipOf(placed[k], clips[k]))
    && (forall k :: 0 <= k < |placed| - 1 ==> ClipDone(placed[k]))
  }

  predicate LastDead(placed: seq<Clip>) {
    placed != [] && placed[|placed| - 1].seen.Some? && NothingPending(placed[|placed| - 1].order)
  }

  /** The last poll of the last clip read COMPLETE. */
  predicate LastSeenComplete(placed: seq<Clip>) { placed != [] && placed[|placed| - 1].seen == Some(Complete) }

  predicate LastSeenOther(placed: seq<Clip>) {
    placed != [] && placed[|placed| - 1].seen.Some? && !placed[|placed| - 1].seen.value.Complete?
  }

  /** Where `_execute_live` is, and what it knows there. Only running out of clips ends the clip loop after a clip
      that was seen COMPLETE. */
  predicate AtPc(clips: seq<nat>, placed: seq<Clip>, dealt: bool, pc: EntryPc) {
    match pc
    case Place => dealt && |placed| < |clips| && (placed != [] ==> ClipDone(placed[|placed| - 1]))
    case Poll(left) => dealt && left > 0 && placed != [] && placed[|placed| - 1].seen.None?
    case Cancel => dealt && LastSeenOther(placed)
    case Confirm(left) => dealt && left > 0 && LastSeenOther(placed)
    case _ =>
      && (dealt ==> LastDead(placed))
      && (dealt && LastSeenComplete(placed) ==> |placed| == |clips| && ClipDone(placed[|placed| - 1]))
  }

  predicate NotBooked(tr: Trade) {
    tr.status.NoPosition? && tr.qty == 0 && !tr.guarded && tr.bracket.NoBracket? && tr.closes == []
  }

  predicate IsBooked(tr: Trade) {
    !tr.status.NoPosition? && tr.qty > 0 && tr.qty == Observed(tr.placed)
  }

  predicate AtPosition(tr: Trade) {
    match tr.pc
    case Arm => IsBooked(tr) && !tr.guarded && tr.bracket.NoBracket?
    case PlaceOco => IsBooked(tr) && tr.guarded && tr.bracket.NoBracket?
    case Finish => IsBooked(tr) || (NotBooked(tr) && Observed(tr.placed) == 0)
    case Ended(outcome) =>
      && (IsBooked(tr) || (NotBooked(tr) && Observed(tr.placed) == 0))
      && outcome == Outcome(Observed(tr.placed), tr.dealt, tr.guarded)
    case _ => NotBooked(tr)
  }

  predicate LegOk(tr: Trade) {
    tr.bracket.Fired? ==> WellFormed(tr.bracket.leg) && tr.bracket.leg.qty == tr.qty
  }

  predicate EntryInv(tr: Trade) {
    && ClipsFollow(tr.clips, tr.placed)
    && AtPc(tr.clips, tr.placed, tr.dealt, tr.pc)
    && AtPosition(tr)
    && LegOk(tr)
  }

  lemma ClipsStep(tr: Trade, m: Move)
    requires EntryInv(tr) && Can(tr, m) && OfEntry(m)
    ensures var tr' := AfterEntry(tr, m);
            ClipsFollow(tr'.clips, tr'.placed) && AtPc(tr'.clips, tr'.placed, tr'.dealt, tr'.pc)
  {
    match m
    case DoPlace(reply) => PlaceStep(tr, reply);
    case DoPoll(answered) => PollStep(tr, answered);
    case _ => LaterStep(tr, m);
  }

  /** The steps that neither send nor read a clip. */
  lemma LaterStep(tr: Trade, m: Move)
    requires EntryInv(tr) && Can(tr, m) && OfEntry(m) && !m.DoPlace? && !m.DoPoll?
    ensures var tr' := AfterEntry(tr, m);
            ClipsFollow(tr'.clips, tr'.placed) && AtPc(tr'.clips, tr'.placed, tr'.dealt, tr'.pc)
  {
    var tr' := AfterEntry(tr, m);
    assert tr'.placed == tr.placed && tr'.clips == tr.clips && (tr'.dealt ==> tr.dealt);
  }

  lemma PlaceStep(tr: Trade, reply: Reply)
    requires EntryInv(tr) && Can(tr, DoPlace(reply))
    ensures var tr' := AfterEntry(tr, DoPlace(reply));
            ClipsFollow(tr'.clips, tr'.placed) && AtPc(tr'.clips, tr'.placed, tr'.dealt, tr'.pc)
  {
    var tr' := AfterEntry(tr, DoPlace(reply));
    assert forall k :: 0 <= k < |tr.placed| ==> tr'.placed[k] == tr.placed[k];
  }

  lemma PollStep(tr: Trade, answered: bool)
    requires EntryInv(tr) && Can(tr, DoPoll(answered))
    ensures var tr' := AfterEntry(tr, DoPoll(answered));
            ClipsFollow(tr'.clips, tr'.placed) && AtPc(tr'.clips, tr'.placed, tr'.dealt, tr'.pc)
  {
    var o := LastClip(tr).order;
    if !answered || (!Terminal(o.status) && tr.pc.left > 1) {
    } else {
      LastPollStep(tr);
    }
  }

  /** The poll that ends the polling of a clip. */
  lemma LastPollStep(tr: Trade)
    requires EntryInv(tr) && Can(tr, DoPoll(true)) && (Terminal(LastClip(tr).order.status) || tr.pc.left <= 1)
    ensures var tr' := AfterPoll(tr, true);
            ClipsFollow(tr'.clips, tr'.placed) && AtPc(tr'.clips, tr'.placed, tr'.dealt, tr'.pc)
  {
    var n, tr' := |tr.placed| - 1, AfterPoll(tr, true);
    SeenFollow(tr.clips, tr.placed);
    var o := tr.placed[n].order;
    assert tr'.placed == tr.placed[n := Clip(o, o.filled, Some(o.status))];
    assert tr'.dealt && tr'.clips == tr.clips;
    PollEndsAt(tr.clips, tr'.placed, tr'.pc);
  }

  /** Where the clip loop goes once it has read the last clip. */
  lemma PollEndsAt(clips: seq<nat>, placed: seq<Clip>, pc: EntryPc)
    requires ClipsFollow(clips, placed) && placed != []
    requires var c := placed[|placed| - 1];
             && c.seen == Some(c.order.status) && (c.order.status.Complete? ==> ClipDone(c))
             && pc == if c.order.status.Complete? then (if |placed| < |clips| then Place else Book)
                      else if c.order.status == Rejected(false) then Book
                      else if c.order.filled < c.order.qty then Cancel else Book
    ensures AtPc(clips, placed, true, pc)
  {
  }

  /** Reading the last clip's fill keeps the clips in order. */
  lemma SeenFollow(clips: seq<nat>, placed: seq<Clip>)
    requires ClipsFollow(clips, placed) && placed != []
    ensures var n := |placed| - 1;
            var c := Clip(placed[n].order, placed[n].order.filled, Some(placed[n].order.status));
            var seen := placed[n := c];
            && ClipsFollow(clips, seen) && seen[|seen| - 1] == c
            && (c.order.status.Complete? ==> ClipDone(c))
  {
    var n := |placed| - 1;
    var seen := placed[n := Clip(placed[n].order, placed[n].order.filled, Some(placed[n].order.status))];
    assert forall k :: 0 <= k < n ==> seen[k] == placed[k];
  }

  lemma PositionStep(tr: Trade, m: Move)
    requires EntryInv(tr) && Can(tr, m) && OfEntry(m)
    ensures AtPosition(AfterEntry(tr, m)) && LegOk(AfterEntry(tr, m))
  {
    if m.DoPlace? || m.DoPoll? || m.DoCancel? || m.DoConfirm? {
      ClipsOnly(tr, m);
    } else {
      BookingStep(tr, m);
    }
  }

  /** Working the clips touches nothing of the position. */
  lemma ClipsOnly(tr: Trade, m: Move)
    requires Can(tr, m) && (m.DoPlace? || m.DoPoll? || m.DoCancel? || m.DoConfirm?)
    ensures var tr' := AfterEntry(tr, m);
            && tr'.status == tr.status && tr'.qty == tr.qty && tr'.guarded == tr.guarded
            && tr'.bracket == tr.bracket && tr'.closes == tr.closes
            && (tr'.pc.Place? || tr'.pc.Poll? || tr'.pc.Cancel? || tr'.pc.Confirm? || tr'.pc.Book?)
  {
    if m.DoPoll? { PollOnly(tr, m.answered); }
  }

  lemma PollOnly(tr: Trade, answered: bool)
    requires Can(tr, DoPoll(answered))
    ensures var tr' := AfterPoll(tr, answered);
            tr' == tr.(placed := tr'.placed, dealt := tr'.dealt, pc := tr'.pc)
            && (tr'.pc.Place? || tr'.pc.Poll? || tr'.pc.Cancel? || tr'.pc.Book?)
  {
  }

  lemma BookingStep(tr: Trade, m: Move)
    requires EntryInv(tr) && Can(tr, m) && (m.DoBook? || m.DoArm? || m.DoPlaceOco? || m.DoFinish?)
    ensures AtPosition(AfterEntry(tr, m)) && LegOk(AfterEntry(tr, m))
  {
    match m
    case DoBook =>
    case DoArm(configured, wantsOco) =>
    case DoPlaceOco(reply) =>
    case DoFinish =>
  }

  /** Exits do not touch what the entry recorded. */
  lemma ExitFrame(tr: Trade, m: Move, net: int)
    requires Can(tr, m) && !OfEntry(m) && !OfBroker(m)
    ensures var tr' := AfterExit(tr, m, net);
            && tr'.clips == tr.clips && tr'.placed == tr.placed && tr'.dealt == tr.dealt && tr'.pc == tr.pc
            && tr'.qty == tr.qty && tr'.guarded == tr.guarded
            && (tr'.bracket == tr.bracket || (tr.bracket.Resting? && (tr'.bracket.Removed? || tr'.bracket.Resting?)))
  {
    match m
    case StartClose =>
    case DoDeleteOco(c, done) =>
    case DoAskNet(c, answered) =>
    case DoSendExit(c, reply) =>
    case DoPollExit(c, answered) =>
    case DoBookExit(c) =>
    case DoPark(c) =>
    case DoReadPending =>
    case DoSettlePending =>
    case DoReconcileBracket(done) =>
  }

  lemma StatusFrame(tr: Trade, m: Move, net: int)
    requires EntryInv(tr) && Can(tr, m) && !OfEntry(m) && !OfBroker(m)
    ensures NotBooked(tr) ==> AfterExit(tr, m, net) == tr.(settling := false)
    ensures AfterExit(tr, m, net).status.NoPosition? == tr.status.NoPosition?
  {
  }

  lemma EntryStepOfExit(tr: Trade, m: Move, net: int)
    requires EntryInv(tr) && Can(tr, m) && !OfEntry(m) && !OfBroker(m)
    ensures EntryInv(AfterExit(tr, m, net))
  {
    ExitFrame(tr, m, net);
    StatusFrame(tr, m, net);
  }

  lemma ClipMoves(clips: seq<nat>, placed: seq<Clip>, dealt: bool, pc: EntryPc, k: nat, now: Order)
    requires k < |placed| && BrokerMay(placed[k].order, now)
    requires ClipsFollow(clips, placed) && AtPc(clips, placed, dealt, pc)
    ensures var placed' := placed[k := placed[k].(order := now)];
            && ClipsFollow(clips, placed') && AtPc(clips, placed', dealt, pc)
            && Observed(placed') == Observed(placed)
  {
    ObservedSame(placed, placed[k := placed[k].(order := now)]);
  }

  lemma EntryStepOfOrder(tr: Trade, ref: OrderRef, now: Order)
    requires EntryInv(tr) && Can(tr, BrokerMoves(ref, now))
    ensures EntryInv(MoveOrder(tr, ref, now))
  {
    match ref
    case ClipRef(k) => ClipMoves(tr.clips, tr.placed, tr.dealt, tr.pc, k, now);
    case LegRef =>
    case ExitRef(k) =>
  }

  lemma EntryStepOfBroker(tr: Trade, m: Move)
    requires EntryInv(tr) && Can(tr, m) && OfBroker(m)
    ensures EntryInv(AfterBroker(tr, m))
  {
    match m
    case OcoFires =>
    case BrokerMoves(ref, now) => EntryStepOfOrder(tr, ref, now);
  }

  /** Fills stop once a clip has been read for the last time. */
  predicate FrozenInv(tr: Trade) {
    forall k :: 0 <= k < |tr.placed| ==>
      tr.placed[k].seen.Some? ==> tr.placed[k].observed == tr.placed[k].order.filled
  }

  // --- the exit ------------------------------------------------------------------------------

  /** No bracket order can execute any more, and none has. */
  predicate BracketDead(b: Bracket) {
    b.NoBracket? || b.Removed? || (b.Fired? && Terminal(b.leg.status) && b.leg.filled == 0)
  }

  /** Exit orders are for the whole position, and there are none before there is one. */
  predicate ExitsOk(tr: Trade) {
    && (forall k :: 0 <= k < |tr.exits| ==> tr.exits[k].qty == tr.qty && WellFormed(tr.exits[k]))
    && (tr.status.NoPosition? ==> tr.exits == [])
  }

  lemma ExitsOkStep(tr: Trade, m: Move, net: int)
    requires EntryInv(tr) && ExitsOk(tr) && Can(tr, m)
    ensures ExitsOk(After(tr, m, net))
  {
    if OfEntry(m) {
      ExitsOkOfEntry(tr, m);
    } else if OfBroker(m) {
      ExitsOkOfBroker(tr, m);
    } else {
      ExitsOkOfExit(tr, m, net);
    }
  }

  lemma ExitsOkOfBroker(tr: Trade, m: Move)
    requires EntryInv(tr) && ExitsOk(tr) && Can(tr, m) && OfBroker(m)
    ensures ExitsOk(AfterBroker(tr, m))
  {
    match m
    case OcoFires =>
    case BrokerMoves(ref, now) =>
      match ref {
        case ClipRef(k) =>
        case LegRef =>
        case ExitRef(k) =>
      }
  }

  lemma ExitsOkOfEntry(tr: Trade, m: Move)
    requires EntryInv(tr) && ExitsOk(tr) && Can(tr, m) && OfEntry(m)
    ensures ExitsOk(AfterEntry(tr, m))
  {
    if m.DoPlace? || m.DoPoll? || m.DoCancel? || m.DoConfirm? {
      ClipsOnly(tr, m);
      assert AfterEntry(tr, m).exits == tr.exits;
    }
  }

  lemma ExitsOkOfExit(tr: Trade, m: Move, net: int)
    requires EntryInv(tr) && ExitsOk(tr) && Can(tr, m) && !OfEntry(m) && !OfBroker(m)
    ensures ExitsOk(AfterExit(tr, m, net))
  {
    ExitFrame(tr, m, net);
    StatusFrame(tr, m, net);
  }

  predicate ExitInv(tr: Trade) {
    && |tr.closes| <= 1 && |tr.exits| <= 1
    && (tr.exits != [] ==>
          && tr.closes != [] && BracketDead(tr.bracket)
          && tr.exits[0].qty == tr.qty && WellFormed(tr.exits[0]))
    && (tr.settling ==> tr.exits != [] && tr.exits[0].status.Complete? && tr.closes == [Returned])
    && if tr.closes == [] then
         tr.status.NoPosition? || tr.status.Open?
       else
         && EntryPast(tr.pc)
         && match tr.closes[0]
            case DeleteOco(_) => tr.status.Open? && tr.exits == []
            case AskNet => tr.status.Open? && tr.exits == [] && !tr.bracket.Resting?
            case SendExit => tr.status.Open? && tr.exits == [] && BracketDead(tr.bracket)
            case PollExit(k, _) => tr.status.Open? && tr.exits != [] && k == 0
            case BookExit => tr.status.Open? && tr.exits != [] && tr.exits[0].status.Complete?
            case ParkExit(ref) =>
              tr.status.Open? && !tr.bracket.Resting? && (ref.Some? ==> ref.value == 0 && tr.exits != [])
            case Returned =>
              && !tr.bracket.Resting?
              && match tr.status
                 case ClosePending(ref) => ref.Some? ==> ref.value == 0 && tr.exits != []
                 case Closed => tr.exits != [] && tr.exits[0].status.Complete?
                 case _ => false
  }

  predicate Serialised(r: Rules) {
    r.serial && r.afterEntry && r.cancels && r.answers && r.settled && r.alone
  }

  lemma ExitStep(r: Rules, tr: Trade, m: Move, net: int)
    requires Serialised(r) && Can(tr, m) && Allowed(r, tr, m, net)
    requires EntryInv(tr) && ExitInv(tr)
    ensures ExitInv(After(tr, m, net))
  {
    if OfEntry(m) {
      ExitStepOfEntry(tr, m);
    } else if OfBroker(m) {
      ExitStepOfBroker(tr, m);
    } else {
      ExitStepOfExit(r, tr, m, net);
    }
  }

  lemma ExitStepOfEntry(tr: Trade, m: Move)
    requires EntryInv(tr) && ExitInv(tr) && Can(tr, m) && OfEntry(m)
    ensures ExitInv(AfterEntry(tr, m))
  {
    var tr' := AfterEntry(tr, m);
    assert tr'.closes == tr.closes && tr'.exits == tr.exits && tr'.settling == tr.settling;
    assert tr.closes != [] ==> m.DoFinish?;
  }

  lemma ExitStepOfBroker(tr: Trade, m: Move)
    requires EntryInv(tr) && ExitInv(tr) && Can(tr, m) && OfBroker(m)
    ensures ExitInv(AfterBroker(tr, m))
  {
    match m
    case OcoFires => assert tr.exits == [];
    case BrokerMoves(ref, now) =>
      match ref {
        case ClipRef(k) =>
        case LegRef =>
        case ExitRef(k) => assert k == 0;
      }
  }

  lemma ExitStepOfExit(r: Rules, tr: Trade, m: Move, net: int)
    requires EntryInv(tr) && ExitInv(tr) && Can(tr, m) && !OfEntry(m) && !OfBroker(m)
    requires Serialised(r) && Allowed(r, tr, m, net)
    ensures ExitInv(AfterExit(tr, m, net))
  {
    match m
    case StartClose => ExitStepOfStart(r, tr, net);
    case DoDeleteOco(c, done) => ExitStepOfDelete(r, tr, c, done, net);
    case DoAskNet(c, answered) => ExitStepOfAsk(r, tr, c, answered, net);
    case DoSendExit(c, reply) => ExitStepOfSend(tr, c, reply, net);
    case DoPollExit(c, answered) => ExitStepOfPoll(tr, c, answered, net);
    case DoBookExit(c) => ExitStepOfBooking(tr, m, c, net);
    case DoPark(c) => ExitStepOfBooking(tr, m, c, net);
    case DoReadPending => ExitStepOfPending(tr, m, net);
    case DoSettlePending => ExitStepOfPending(tr, m, net);
    case DoReconcileBracket(done) => ExitStepOfPending(tr, m, net);
  }

  lemma ExitStepOfStart(r: Rules, tr: Trade, net: int)
    requires ExitInv(tr) && Can(tr, StartClose) && Serialised(r) && Allowed(r, tr, StartClose, net)
    ensures ExitInv(AfterExit(tr, StartClose, net))
  {
  }

  lemma ExitStepOfDelete(r: Rules, tr: Trade, c: nat, done: bool, net: int)
    requires ExitInv(tr) && Can(tr, DoDeleteOco(c, done)) && Serialised(r) && Allowed(r, tr, DoDeleteOco(c, done), net)
    ensures ExitInv(AfterExit(tr, DoDeleteOco(c, done), net))
  {
  }

  /** Past the query, a position the bracket has not sold is one it never will. */
  lemma ExitStepOfAsk(r: Rules, tr: Trade, c: nat, answered: bool, net: int)
    requires EntryInv(tr) && ExitInv(tr) && Can(tr, DoAskNet(c, answered))
    requires Serialised(r) && Allowed(r, tr, DoAskNet(c, answered), net)
    ensures ExitInv(AfterExit(tr, DoAskNet(c, answered), net))
  {
  }

  lemma ExitStepOfSend(tr: Trade, c: nat, reply: Reply, net: int)
    requires ExitInv(tr) && Can(tr, DoSendExit(c, reply))
    ensures ExitInv(AfterExit(tr, DoSendExit(c, reply), net))
  {
  }

  lemma ExitStepOfPoll(tr: Trade, c: nat, answered: bool, net: int)
    requires ExitInv(tr) && Can(tr, DoPollExit(c, answered))
    ensures ExitInv(AfterExit(tr, DoPollExit(c, answered), net))
  {
  }

  lemma ExitStepOfBooking(tr: Trade, m: Move, c: nat, net: int)
    requires ExitInv(tr) && Can(tr, m) && (m == DoBookExit(c) || m == DoPark(c))
    ensures ExitInv(AfterExit(tr, m, net))
  {
  }

  lemma ExitStepOfPending(tr: Trade, m: Move, net: int)
    requires ExitInv(tr) && Can(tr, m) && (m.DoReadPending? || m.DoSettlePending? || m.DoReconcileBracket?)
    ensures ExitInv(AfterExit(tr, m, net))
  {
  }

  /** Everything a run under the rules keeps, trade by trade. */
  predicate TradeInv(r: Rules, tr: Trade) {
    && EntryInv(tr) && ExitsOk(tr)
    && (r.frozen ==> FrozenInv(tr))
    && (Serialised(r) ==> ExitInv(tr))
  }

  predicate Inv(r: Rules, s: State) {
    && (forall t :: 0 <= t < |s.trades| ==> TradeInv(r, s.trades[t]))
    && (forall t :: 0 <= t < |s.trades| ==>
          s.trades[t].pc.Ended? && Unsafe(s.trades[t].pc.outcome) ==> s.blocked)
  }

  lemma EntryStep(tr: Trade, m: Move, net: int)
    requires EntryInv(tr) && Can(tr, m)
    ensures EntryInv(After(tr, m, net))
  {
    if OfEntry(m) {
      ClipsStep(tr, m);
      PositionStep(tr, m);
    } else if OfBroker(m) {
      EntryStepOfBroker(tr, m);
    } else {
      EntryStepOfExit(tr, m, net);
    }
  }

  lemma FrozenStep(tr: Trade, m: Move, net: int)
    requires EntryInv(tr) && FrozenInv(tr) && Can(tr, m)
    requires m.BrokerMoves? && m.ref.ClipRef? && tr.placed[m.ref.k].seen.Some? ==>
               m.now.filled == tr.placed[m.ref.k].order.filled
    ensures FrozenInv(After(tr, m, net))
  {
    if OfEntry(m) {
      FrozenEntry(tr, m);
    } else if OfBroker(m) {
      FrozenBroker(tr, m);
    } else {
      ExitFrame(tr, m, net);
    }
  }

  lemma FrozenEntry(tr: Trade, m: Move)
    requires EntryInv(tr) && FrozenInv(tr) && Can(tr, m) && OfEntry(m)
    ensures FrozenInv(AfterEntry(tr, m))
  {
    match m
    case DoPlace(reply) =>
    case DoPoll(answered) => FrozenPoll(tr, answered);
    case _ => assert AfterEntry(tr, m).placed == tr.placed;
  }

  lemma FrozenPoll(tr: Trade, answered: bool)
    requires FrozenInv(tr) && Can(tr, DoPoll(answered))
    ensures FrozenInv(AfterPoll(tr, answered))
  {
    var n := |tr.placed| - 1;
    var o := tr.placed[n].order;
    assert AfterPoll(tr, answered).placed in {tr.placed, tr.placed[n := Clip(o, o.filled, Some(o.status))]};
  }

  lemma FrozenBroker(tr: Trade, m: Move)
    requires FrozenInv(tr) && Can(tr, m) && OfBroker(m)
    requires m.BrokerMoves? && m.ref.ClipRef? && tr.placed[m.ref.k].seen.Some? ==>
               m.now.filled == tr.placed[m.ref.k].order.filled
    ensures FrozenInv(AfterBroker(tr, m))
  {
  }

  lemma TradeKeeps(r: Rules, tr: Trade, m: Move, net: int)
    requires Can(tr, m) && Allowed(r, tr, m, net) && TradeInv(r, tr)
    ensures TradeInv(r, After(tr, m, net))
  {
    EntryStep(tr, m, net);
    ExitsOkStep(tr, m, net);
    if r.frozen { FrozenStep(tr, m, net); }
    if Serialised(r) { ExitStep(r, tr, m, net); }
  }

  /** Only the last step of `_execute_live` ends an entry. */
  lemma EndsByFinish(tr: Trade, m: Move, net: int)
    requires Can(tr, m) && After(tr, m, net).pc.Ended?
    ensures m.DoFinish? || After(tr, m, net).pc == tr.pc
  {
    if m.DoPlace? || m.DoPoll? || m.DoCancel? || m.DoConfirm? {
      ClipsOnly(tr, m);
    } else if !OfEntry(m) && !OfBroker(m) {
      ExitFrame(tr, m, net);
    }
  }

  lemma StepKeeps(r: Rules, s: State, a: Action)
    requires Inv(r, s) && Enabled(s, a) && Obeys(r, s, a)
    ensures Inv(r, Next(s, a))
  {
    match a
    case NewTrade(token, long, clips) => assert TradeInv(r, IDLE.(token := token, long := long, clips := clips));
    case At(t, m) =>
      var net := Net(s, s.trades[t].token);
      var tr' := After(s.trades[t], m, net);
      TradeKeeps(r, s.trades[t], m, net);
      if tr'.pc.Ended? { EndsByFinish(s.trades[t], m, net); }
      StateKeeps(r, s, t, tr', s.blocked || (m.DoFinish? && Unsafe(tr'.pc.outcome)));
  }

  lemma StateKeeps(r: Rules, s: State, t: nat, tr': Trade, blocked: bool)
    requires Inv(r, s) && t < |s.trades| && TradeInv(r, tr')
    requires s.blocked ==> blocked
    requires tr'.pc.Ended? && Unsafe(tr'.pc.outcome) ==> blocked
    ensures Inv(r, State(s.trades[t := tr'], blocked))
  {
  }

  lemma {:induction false} RunKeeps(r: Rules, s: State, run: seq<Action>)
    requires Inv(r, s) && Runs(r, s, run)
    ensures Inv(r, End(r, s, run))
    decreases |run|
  {
    if run == [] {
    } else {
      StepKeeps(r, s, run[0]);
      RunKeeps(r, Next(s, run[0]), run[1..]);
    }
  }
}
