/** Exactly when one more market exit can sell what is no longer there. */
module TradeExits {
  import opened Options
  import opened OrderPolicy
  import opened TradeProtocol
  import opened TradeSafety
  import opened TradeTheorems

  /** The most an order can still come to. */
  function MostOfOrder(o: Order): nat { if Terminal(o.status) then o.filled else o.qty }

  function MostOfExits(os: seq<Order>): nat {
    if os == [] then 0 else MostOfExits(os[..|os| - 1]) + MostOfOrder(os[|os| - 1])
  }

  predicate OcoToCome(pc: EntryPc) { pc.Arm? || pc.PlaceOco? }

  function MostOfBracket(tr: Trade): nat {
    if OcoToCome(tr.pc) then tr.qty
    else
      match tr.bracket
      case NoBracket => 0
      case Resting(_, _) => tr.qty
      case Fired(leg) => MostOfOrder(leg)
      case Removed => 0
  }

  /** The most that the exits out and the bracket, placed or to come, can take off the position. */
  function MostOut(tr: Trade): nat { MostOfExits(tr.exits) + MostOfBracket(tr) }

  predicate OverExited(tr: Trade) { Exited(tr) > ClipFills(tr.placed) }

  // --- no step but a send adds to what is out ------------------------------------------------------

  lemma {:induction false} ExitsWithin(os: seq<Order>)
    requires forall k :: 0 <= k < |os| ==> WellFormed(os[k])
    ensures ExitFills(os) <= MostOfExits(os)
  {
    if os == [] {
    } else {
      ExitsWithin(os[..|os| - 1]);
    }
  }

  lemma ExitedWithin(tr: Trade)
    requires EntryInv(tr) && ExitsOk(tr)
    ensures Exited(tr) <= MostOut(tr)
  {
    ExitsWithin(tr.exits);
  }

  lemma {:induction false} ExitMoved(os: seq<Order>, k: nat, now: Order)
    requires k < |os| && BrokerMay(os[k], now)
    ensures MostOfExits(os[k := now]) <= MostOfExits(os)
    ensures MostOfOrder(now) == MostOfOrder(os[k]) ==> MostOfExits(os[k := now]) == MostOfExits(os)
  {
    var n := |os| - 1;
    if k < n {
      assert os[k := now][..n] == os[..n][k := now];
      ExitMoved(os[..n], k, now);
    } else {
      assert os[k := now][..n] == os[..n];
    }
  }

  lemma {:induction false} ClipMoved(cs: seq<Clip>, k: nat, c: Clip)
    requires k < |cs| && cs[k].order.filled <= c.order.filled
    ensures ClipFills(cs) <= ClipFills(cs[k := c])
    ensures cs[k].order.filled == c.order.filled ==> ClipFills(cs) == ClipFills(cs[k := c])
  {
    var n := |cs| - 1;
    if k < n {
      assert cs[k := c][..n] == cs[..n][k := c];
      ClipMoved(cs[..n], k, c);
    } else {
      assert cs[k := c][..n] == cs[..n];
    }
  }

  predicate Reaches(m: Move) { m.DoSendExit? && !m.reply.Lost? }

  /** More can be out than was bought only by a send. */
  lemma NoMoreOut(tr: Trade, m: Move, net: int)
    requires EntryInv(tr) && ExitsOk(tr) && Can(tr, m) && !Reaches(m) && MostOut(tr) <= ClipFills(tr.placed)
    ensures MostOut(After(tr, m, net)) <= ClipFills(After(tr, m, net).placed)
  {
    if OfEntry(m) {
      NoMoreOfEntry(tr, m);
    } else if OfBroker(m) {
      NoMoreOfBroker(tr, m);
    } else {
      ExitFrame(tr, m, net);
      assert AfterExit(tr, m, net).exits == tr.exits;
    }
  }

  lemma NoMoreOfEntry(tr: Trade, m: Move)
    requires EntryInv(tr) && ExitsOk(tr) && Can(tr, m) && OfEntry(m) && MostOut(tr) <= ClipFills(tr.placed)
    ensures MostOut(AfterEntry(tr, m)) <= ClipFills(AfterEntry(tr, m).placed)
  {
    if m.DoPlace? || m.DoPoll? || m.DoCancel? || m.DoConfirm? {
      NoMoreOfClips(tr, m);
    } else {
      NoMoreOfBooking(tr, m);
    }
  }

  lemma NoMoreOfClips(tr: Trade, m: Move)
    requires Can(tr, m) && (m.DoPlace? || m.DoPoll? || m.DoCancel? || m.DoConfirm?)
    ensures MostOut(AfterEntry(tr, m)) == MostOut(tr) && ClipFills(AfterEntry(tr, m).placed) == ClipFills(tr.placed)
  {
    assert AfterEntry(tr, m).exits == tr.exits by { if m.DoPoll? { PollOnly(tr, m.answered); } }
    ClipsOnly(tr, m);
    ClipsFilledAlike(tr, m);
  }

  lemma ClipsFilledAlike(tr: Trade, m: Move)
    requires Can(tr, m) && (m.DoPlace? || m.DoPoll? || m.DoCancel? || m.DoConfirm?)
    ensures ClipFills(AfterEntry(tr, m).placed) == ClipFills(tr.placed)
  {
    if m.DoPlace? {
      var c := Clip(Sent(tr.clips[|tr.placed|]), 0, None);
      assert (tr.placed + [c])[..|tr.placed|] == tr.placed;
    } else if m.DoPoll? {
      PollFills(tr, m.answered);
    }
  }

  lemma NoMoreOfBooking(tr: Trade, m: Move)
    requires EntryInv(tr) && ExitsOk(tr) && Can(tr, m) && MostOut(tr) <= ClipFills(tr.placed)
    requires m.DoBook? || m.DoArm? || m.DoPlaceOco? || m.DoFinish?
    ensures MostOut(AfterEntry(tr, m)) <= ClipFills(AfterEntry(tr, m).placed)
  {
    if m.DoBook? { BookedIsWithin(tr); } else { ProtectingAddsNothing(tr, m); }
  }

  lemma BookedIsWithin(tr: Trade)
    requires EntryInv(tr) && ExitsOk(tr) && Can(tr, DoBook)
    ensures MostOut(AfterEntry(tr, DoBook)) <= ClipFills(tr.placed) == ClipFills(AfterEntry(tr, DoBook).placed)
  {
    ObservedAtMostFills(tr.placed);
    assert tr.exits == [];
  }

  lemma ProtectingAddsNothing(tr: Trade, m: Move)
    requires EntryInv(tr) && Can(tr, m) && (m.DoArm? || m.DoPlaceOco? || m.DoFinish?)
    ensures var tr' := AfterEntry(tr, m);
            tr'.exits == tr.exits && tr'.placed == tr.placed && MostOfBracket(tr') <= MostOfBracket(tr)
  {
    match m
    case DoArm(configured, wantsOco) =>
    case DoPlaceOco(reply) =>
    case DoFinish =>
  }

  lemma PollFills(tr: Trade, answered: bool)
    requires Can(tr, DoPoll(answered))
    ensures ClipFills(AfterPoll(tr, answered).placed) == ClipFills(tr.placed)
  {
    var c := LastClip(tr);
    ClipMoved(tr.placed, |tr.placed| - 1, Clip(c.order, c.order.filled, Some(c.order.status)));
  }

  lemma NoMoreOfBroker(tr: Trade, m: Move)
    requires EntryInv(tr) && ExitsOk(tr) && Can(tr, m) && OfBroker(m) && MostOut(tr) <= ClipFills(tr.placed)
    ensures MostOut(AfterBroker(tr, m)) <= ClipFills(AfterBroker(tr, m).placed)
  {
    match m
    case OcoFires =>
    case BrokerMoves(ref, now) => NoMoreOfOrder(tr, ref, now);
  }

  lemma NoMoreOfOrder(tr: Trade, ref: OrderRef, now: Order)
    requires EntryInv(tr) && ExitsOk(tr) && Can(tr, BrokerMoves(ref, now)) && MostOut(tr) <= ClipFills(tr.placed)
    ensures MostOut(MoveOrder(tr, ref, now)) <= ClipFills(MoveOrder(tr, ref, now).placed)
  {
    match ref
    case ClipRef(k) => ClipMoved(tr.placed, k, tr.placed[k].(order := now));
    case LegRef =>
    case ExitRef(k) => ExitMoved(tr.exits, k, now);
  }

  lemma SendAdds(tr: Trade, c: nat, reply: Reply, net: int)
    requires Can(tr, DoSendExit(c, reply))
    ensures var tr' := After(tr, DoSendExit(c, reply), net);
            && tr'.placed == tr.placed
            && MostOut(tr') == MostOut(tr) + if reply.Lost? then 0 else tr.qty
  {
    assert (tr.exits + [Sent(tr.qty)])[..|tr.exits|] == tr.exits;
  }

  // --- a guarded run -------------------------------------------------------------------------------

  /** There is room for one more exit of the whole position. */
  predicate RoomFor(tr: Trade) { MostOut(tr) + tr.qty <= ClipFills(tr.placed) }

  predicate Guarded(r: Rules, s: State, run: seq<Action>)
    requires Runs(r, s, run)
    decreases |run|
  {
    run == []
    || (&& (run[0].At? && Reaches(run[0].move) ==> RoomFor(s.trades[run[0].t]))
        && Guarded(r, Next(s, run[0]), run[1..]))
  }

  predicate AllCovered(s: State) {
    forall t :: 0 <= t < |s.trades| ==> MostOut(s.trades[t]) <= ClipFills(s.trades[t].placed)
  }

  lemma StepCovered(r: Rules, s: State, a: Action)
    requires Inv(r, s) && AllCovered(s) && Enabled(s, a) && Obeys(r, s, a)
    requires a.At? && Reaches(a.move) ==> RoomFor(s.trades[a.t])
    ensures AllCovered(Next(s, a))
  {
    match a
    case NewTrade(token, long, clips) =>
      assert MostOut(IDLE.(token := token, long := long, clips := clips)) == 0;
    case At(t, m) =>
      var tr, net := s.trades[t], Net(s, s.trades[t].token);
      assert TradeInv(r, tr);
      if m.DoSendExit? { SendAdds(tr, m.c, m.reply, net); } else { NoMoreOut(tr, m, net); }
  }

  lemma {:induction false} GuardedCovers(r: Rules, s: State, run: seq<Action>)
    requires Inv(r, s) && AllCovered(s) && Runs(r, s, run) && Guarded(r, s, run)
    ensures AllCovered(End(r, s, run)) && Inv(r, End(r, s, run))
    decreases |run|
  {
    if run == [] {
    } else {
      StepCovered(r, s, run[0]);
      StepKeeps(r, s, run[0]);
      GuardedCovers(r, Next(s, run[0]), run[1..]);
    }
  }

  /** Under no assumption on the broker or on concurrency: if every exit is sent only where there is room for it, no
      run ever exits more than was entered. */
  lemma GuardedNeverOverExits(r: Rules, run: seq<Action>, t: nat)
    requires Runs(r, START, run) && Guarded(r, START, run) && t < |End(r, START, run).trades|
    ensures !OverExited(End(r, START, run).trades[t])
  {
    GuardedCovers(r, START, run);
    assert TradeInv(r, End(r, START, run).trades[t]);
    ExitedWithin(End(r, START, run).trades[t]);
  }

  // --- an unguarded send ---------------------------------------------------------------------------

  /** Only steps of trade t's own entry and of the broker on its orders. */
  predicate Unaided(run: seq<Action>, t: nat) {
    forall k :: 0 <= k < |run| ==> run[k].At? && run[k].t == t && (OfEntry(run[k].move) || OfBroker(run[k].move))
  }

  /** `s'` follows from `s` with no further step of any exit. */
  ghost predicate Follows(r: Rules, s: State, t: nat, s': State) {
    exists run :: Runs(r, s, run) && Unaided(run, t) && End(r, s, run) == s'
  }

  /** Without another exit being sent, more may yet be sold than was bought. */
  ghost predicate OverExitFollows(r: Rules, s: State, t: nat) {
    exists s' :: Follows(r, s, t, s') && t < |s'.trades| && OverExited(s'.trades[t])
  }

  lemma {:induction false} UnaidedCovers(r: Rules, s: State, run: seq<Action>, t: nat)
    requires Inv(r, s) && t < |s.trades| && MostOut(s.trades[t]) <= ClipFills(s.trades[t].placed)
    requires Runs(r, s, run) && Unaided(run, t)
    ensures var e := End(r, s, run);
            t < |e.trades| && Inv(r, e) && MostOut(e.trades[t]) <= ClipFills(e.trades[t].placed)
    decreases |run|
  {
    if run == [] {
    } else {
      var a := run[0];
      assert TradeInv(r, s.trades[t]);
      NoMoreOut(s.trades[t], a.move, Net(s, s.trades[t].token));
      StepKeeps(r, s, a);
      assert forall k :: 0 <= k < |run| - 1 ==> run[1..][k] == run[k + 1];
      UnaidedCovers(r, Next(s, a), run[1..], t);
    }
  }

  lemma FollowsItself(r: Rules, s: State, t: nat)
    ensures Follows(r, s, t, s)
  {
    assert Runs(r, s, []) && End(r, s, []) == s;
  }

  /** A move of trade t from `tr`, in a state that differs from `s` in trade t and the flag alone. */
  lemma FollowOn(r: Rules, s: State, t: nat, at: State, m: Move) returns (next: State)
    requires Follows(r, s, t, at) && t < |at.trades| && Can(at.trades[t], m) && (OfEntry(m) || OfBroker(m))
    requires Allowed(r, at.trades[t], m, Net(at, at.trades[t].token))
    ensures Follows(r, s, t, next) && t < |next.trades|
    ensures next.trades[t] == After(at.trades[t], m, Net(at, at.trades[t].token))
  {
    var run :| Runs(r, s, run) && Unaided(run, t) && End(r, s, run) == at;
    var a := At(t, m);
    Grows(r, s, run, a);
    next := Next(at, a);
    assert Unaided(run + [a], t);
  }

  /** As far as over-exiting goes, nothing has been lost on the way from `tr` to `tr'`. */
  predicate Kept(tr: Trade, tr': Trade) {
    tr'.placed == tr.placed && tr'.exits == tr.exits && MostOfBracket(tr') == MostOfBracket(tr)
  }

  lemma OcoArmed(r: Rules, s: State, t: nat, at: State) returns (next: State)
    requires Follows(r, s, t, at) && t < |at.trades| && EntryInv(at.trades[t])
    ensures Follows(r, s, t, next) && t < |next.trades| && Kept(at.trades[t], next.trades[t])
    ensures !next.trades[t].pc.Arm? && (next.trades[t].pc.PlaceOco? ==> next.trades[t].bracket.NoBracket?)
  {
    next := at;
    if at.trades[t].pc.Arm? { next := FollowOn(r, s, t, at, DoArm(true, true)); }
  }

  lemma OcoRests(r: Rules, s: State, t: nat, at: State) returns (next: State)
    requires Follows(r, s, t, at) && t < |at.trades| && !at.trades[t].pc.Arm?
    requires at.trades[t].pc.PlaceOco? ==> at.trades[t].bracket.NoBracket?
    ensures Follows(r, s, t, next) && t < |next.trades| && Kept(at.trades[t], next.trades[t])
    ensures !OcoToCome(next.trades[t].pc)
  {
    next := at;
    if at.trades[t].pc.PlaceOco? { next := FollowOn(r, s, t, at, DoPlaceOco(Delivered)); }
  }

  /** The OCO still to come is placed. */
  lemma OcoPlaced(r: Rules, s: State, t: nat) returns (at: State)
    requires CanReach(r, s) && t < |s.trades|
    ensures Follows(r, s, t, at) && t < |at.trades| && Kept(s.trades[t], at.trades[t]) && !OcoToCome(at.trades[t].pc)
  {
    Reached(r, s);
    assert EntryInv(s.trades[t]) by { assert TradeInv(r, s.trades[t]); }
    FollowsItself(r, s, t);
    var armed := OcoArmed(r, s, t, s);
    at := OcoRests(r, s, t, armed);
  }

  lemma BracketFires(r: Rules, s: State, t: nat) returns (at: State)
    requires CanReach(r, s) && t < |s.trades|
    ensures Follows(r, s, t, at) && t < |at.trades| && Kept(s.trades[t], at.trades[t])
    ensures !OcoToCome(at.trades[t].pc) && !at.trades[t].bracket.Resting?
  {
    at := OcoPlaced(r, s, t);
    if at.trades[t].bracket.Resting? { at := FollowOn(r, s, t, at, OcoFires); }
  }

  lemma LegFills(r: Rules, s: State, t: nat, at: State) returns (next: State)
    requires Follows(r, s, t, at) && t < |at.trades| && !OcoToCome(at.trades[t].pc) && !at.trades[t].bracket.Resting?
    ensures Follows(r, s, t, next) && t < |next.trades|
    ensures var tr, tr' := at.trades[t], next.trades[t];
            tr'.placed == tr.placed && tr'.exits == tr.exits && LegFill(tr'.bracket) >= MostOfBracket(tr)
  {
    next := at;
    var b := at.trades[t].bracket;
    if b.Fired? && !Terminal(b.leg.status) && b.leg.filled <= b.leg.qty {
      next := FollowOn(r, s, t, at, BrokerMoves(LegRef, Order(b.leg.qty, b.leg.qty, Complete)));
    } else if b.Fired? && !Terminal(b.leg.status) {
      assert b.leg.filled >= b.leg.qty;
    }
  }

  lemma {:induction false} ExitsFill(r: Rules, s: State, t: nat, at: State, n: nat) returns (next: State)
    requires Follows(r, s, t, at) && t < |at.trades| && n <= |at.trades[t].exits|
    requires forall k :: 0 <= k < n ==> WellFormed(at.trades[t].exits[k])
    ensures Follows(r, s, t, next) && t < |next.trades|
    ensures var tr, tr' := at.trades[t], next.trades[t];
            && tr'.placed == tr.placed && tr'.bracket == tr.bracket
            && |tr'.exits| == |tr.exits| && tr'.exits[n..] == tr.exits[n..]
            && ExitFills(tr'.exits[..n]) == MostOfExits(tr.exits[..n])
  {
    if n == 0 {
      next := at;
    } else {
      var mid := ExitsFill(r, s, t, at, n - 1);
      next := mid;
      var o := at.trades[t].exits[n - 1];
      assert mid.trades[t].exits[n - 1..][0] == at.trades[t].exits[n - 1..][0] == o;
      if !Terminal(o.status) {
        next := FollowOn(r, s, t, mid, BrokerMoves(ExitRef(n - 1), Order(o.qty, o.qty, Complete)));
      }
      OneExitFilled(at.trades[t].exits, mid.trades[t].exits, next.trades[t].exits, n);
    }
  }

  lemma OneExitFilled(was: seq<Order>, mid: seq<Order>, now: seq<Order>, n: nat)
    requires 1 <= n <= |was| == |mid| && mid[n - 1..] == was[n - 1..]
    requires ExitFills(mid[..n - 1]) == MostOfExits(was[..n - 1])
    requires now == if Terminal(was[n - 1].status) then mid
                    else mid[n - 1 := Order(was[n - 1].qty, was[n - 1].qty, Complete)]
    ensures now[n..] == was[n..] && ExitFills(now[..n]) == MostOfExits(was[..n])
  {
    assert mid[n - 1] == mid[n - 1..][0] == was[n - 1..][0] == was[n - 1];
    assert mid[n..] == mid[n - 1..][1..] == was[n - 1..][1..] == was[n..];
    assert now[..n][..n - 1] == mid[..n - 1] && was[..n][..n - 1] == was[..n - 1];
  }

  lemma OverExitFollowsWhenMore(r: Rules, s: State, t: nat)
    requires CanReach(r, s) && t < |s.trades| && MostOut(s.trades[t]) > ClipFills(s.trades[t].placed)
    ensures OverExitFollows(r, s, t)
  {
    Reached(r, s);
    assert TradeInv(r, s.trades[t]);
    var fired := BracketFires(r, s, t);
    var sold := LegFills(r, s, t, fired);
    var n := |s.trades[t].exits|;
    var end := ExitsFill(r, s, t, sold, n);
    assert end.trades[t].exits[..n] == end.trades[t].exits && s.trades[t].exits[..n] == s.trades[t].exits;
    assert OverExited(end.trades[t]);
  }

  /** The exact guard, in every reachable state and under any of the rules: once a market exit has been sent, the
      orders already out can over-exit the position if and only if there was no room for it. */
  lemma SendOverExitsIff(r: Rules, s: State, t: nat, c: nat)
    requires CanReach(r, s) && t < |s.trades| && Can(s.trades[t], DoSendExit(c, Delivered))
    ensures OverExitFollows(r, Next(s, At(t, DoSendExit(c, Delivered))), t) <==> !RoomFor(s.trades[t])
  {
    var a := At(t, DoSendExit(c, Delivered));
    var s' := Next(s, a);
    Push(r, s, a);
    SendAdds(s.trades[t], c, Delivered, Net(s, s.trades[t].token));
    if RoomFor(s.trades[t]) {
      Reached(r, s');
      if OverExitFollows(r, s', t) {
        var e :| Follows(r, s', t, e) && t < |e.trades| && OverExited(e.trades[t]);
        var run :| Runs(r, s', run) && Unaided(run, t) && End(r, s', run) == e;
        UnaidedCovers(r, s', run, t);
        assert TradeInv(r, e.trades[t]);
        ExitedWithin(e.trades[t]);
      }
    } else {
      OverExitFollowsWhenMore(r, s', t);
    }
  }

  predicate OrderDead(o: Order) { Terminal(o.status) && o.filled == 0 }

  lemma {:induction false} NothingFromExits(os: seq<Order>)
    requires forall k :: 0 <= k < |os| ==> WellFormed(os[k]) && os[k].qty > 0
    ensures MostOfExits(os) == 0 <==> forall k :: 0 <= k < |os| ==> OrderDead(os[k])
  {
    if os == [] {
    } else {
      var n := |os| - 1;
      NothingFromExits(os[..n]);
      assert (forall k :: 0 <= k < |os| ==> OrderDead(os[k])) <==>
             (forall k :: 0 <= k < n ==> OrderDead(os[..n][k])) && OrderDead(os[n]);
    }
  }

  /** For a position whose entry fills are all booked there is room exactly when every exit sent before died unfilled,
      no OCO is still to be placed, and the bracket is gone or its leg died unfilled. */
  lemma RoomForBooked(r: Rules, s: State, t: nat)
    requires CanReach(r, s) && t < |s.trades|
    requires s.trades[t].qty > 0 && s.trades[t].qty == ClipFills(s.trades[t].placed)
    ensures var tr := s.trades[t];
            RoomFor(tr) <==>
              && (forall k :: 0 <= k < |tr.exits| ==> OrderDead(tr.exits[k]))
              && !OcoToCome(tr.pc) && BracketDead(tr.bracket)
  {
    Reached(r, s);
    assert TradeInv(r, s.trades[t]);
    NothingFromExits(s.trades[t].exits);
  }

  /** Under the six rules every market exit is sent where there is room for it. */
  lemma RulesLeaveRoom(r: Rules, s: State, t: nat, c: nat, reply: Reply)
    requires Serialised(r) && CanReach(r, s) && t < |s.trades| && Can(s.trades[t], DoSendExit(c, reply))
    ensures RoomFor(s.trades[t])
  {
    Reached(r, s);
    var tr := s.trades[t];
    assert TradeInv(r, tr);
    ObservedAtMostFills(tr.placed);
    assert tr.closes[0].SendExit?;
  }
}
