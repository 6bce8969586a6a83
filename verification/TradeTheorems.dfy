/** The main results about whole runs of the protocol, from the empty state. */
module TradeTheorems {
  import opened Options
  import opened OrderPolicy
  import opened TradeProtocol
  import opened TradeSafety

  /** Some run obeying the rules leads from the empty state to `s`. */
  ghost predicate CanReach(r: Rules, s: State) {
    exists run :: Runs(r, START, run) && End(r, START, run) == s
  }

  lemma Reached(r: Rules, s: State)
    requires CanReach(r, s)
    ensures Inv(r, s)
  {
    var run :| Runs(r, START, run) && End(r, START, run) == s;
    RunKeeps(r, START, run);
  }

  // --- protected or blocked --------------------------------------------------------------------

  /** An entry that has returned without blocking new ones left nothing working at the broker, booked
      the fills it observed and armed a guard over them. */
  predicate EntryHandled(tr: Trade) {
    && (forall k :: 0 <= k < |tr.placed| ==> NothingPending(tr.placed[k].order))
    && tr.qty == Observed(tr.placed) <= ClipFills(tr.placed)
    && (tr.qty > 0 ==> tr.guarded && !tr.status.NoPosition?)
  }

  lemma EntryEndsProtectedOrBlocked(r: Rules, s: State, t: nat)
    requires CanReach(r, s) && t < |s.trades|
    ensures var tr := s.trades[t];
            && (tr.pc.Ended? ==> if Unsafe(tr.pc.outcome) then s.blocked else EntryHandled(tr))
            && (tr.pc.Ended? && r.frozen && !Unsafe(tr.pc.outcome) ==> tr.qty == ClipFills(tr.placed))
            && |tr.placed| <= |tr.clips|
            && (forall k :: 0 <= k < |tr.placed| ==> tr.placed[k].order.qty == tr.clips[k])
            && (forall k :: 0 <= k < |tr.placed| - 1 ==> tr.placed[k].order.status.Complete?)
  {
    Reached(r, s);
    var tr := s.trades[t];
    assert TradeInv(r, tr);
    ObservedAtMostFills(tr.placed);
    if tr.pc.Ended? && !Unsafe(tr.pc.outcome) && r.frozen { ReadEverywhere(tr); }
  }

  lemma ReadEverywhere(tr: Trade)
    requires EntryInv(tr) && FrozenInv(tr) && LastDead(tr.placed)
    ensures Observed(tr.placed) == ClipFills(tr.placed)
  {
    ObservedIsFills(tr.placed);
  }

  // --- no double exit --------------------------------------------------------------------------

  predicate ExitsBounded(tr: Trade) { |tr.exits| <= 1 && Exited(tr) <= ClipFills(tr.placed) }

  ghost predicate NeverOverExits(r: Rules) {
    forall s, t :: CanReach(r, s) && 0 <= t < |s.trades| ==> ExitsBounded(s.trades[t])
  }

  lemma OneExit(tr: Trade)
    requires ExitInv(tr)
    ensures ExitFills(tr.exits) == if tr.exits == [] then 0 else tr.exits[0].filled
  {
    if tr.exits != [] { assert tr.exits == [tr.exits[0]]; assert tr.exits[..0] == []; }
  }

  lemma NoDoubleExit(r: Rules, s: State, t: nat)
    requires Serialised(r) && CanReach(r, s) && t < |s.trades|
    ensures ExitsBounded(s.trades[t])
  {
    Reached(r, s);
    var tr := s.trades[t];
    assert TradeInv(r, tr);
    ObservedAtMostFills(tr.placed);
    OneExit(tr);
  }

  // --- conservation ------------------------------------------------------------------------------

  function BookOpen(tr: Trade): int { if tr.status.Open? then Signed(tr.long, tr.qty) else 0 }

  function PendingRemainder(tr: Trade): int {
    if tr.status.ClosePending? then Signed(tr.long, tr.qty - Exited(tr)) else 0
  }

  /** Entry fills no position stands for. */
  function Unbooked(tr: Trade): int { Signed(tr.long, ClipFills(tr.placed) - tr.qty) }

  /** Exit fills of a position the book still calls open. */
  function ExitsInFlight(tr: Trade): int { if tr.status.Open? then Signed(tr.long, Exited(tr)) else 0 }

  function Total(s: State, token: int, f: Trade -> int): int { SumOver(s.trades, Only(token, f)) }

  lemma {:induction false} SumSplits(ts: seq<Trade>, e: Trade -> int, a: Trade -> int, b: Trade -> int,
                                     c: Trade -> int, d: Trade -> int, o: Trade -> int)
    requires forall k :: 0 <= k < |ts| ==> e(ts[k]) == a(ts[k]) + b(ts[k]) + c(ts[k]) - d(ts[k]) - o(ts[k])
    ensures SumOver(ts, e)
            == SumOver(ts, a) + SumOver(ts, b) + SumOver(ts, c) - SumOver(ts, d) - SumOver(ts, o)
  {
    if ts == [] {
    } else {
      SumSplits(ts[..|ts| - 1], e, a, b, c, d, o);
    }
  }

  /** What a closed position was exited beyond its quantity, or short of it. */
  function ClosedOver(tr: Trade): int { if tr.status.Closed? then Signed(tr.long, Exited(tr) - tr.qty) else 0 }

  /** What the book accounts for on an instrument, with the three named sums that it leaves open. */
  function Accounted(s: State, token: int): int {
    Total(s, token, BookOpen) + Total(s, token, PendingRemainder) + Total(s, token, Unbooked)
    - Total(s, token, ExitsInFlight)
  }

  lemma TradeBalances(tr: Trade)
    requires EntryInv(tr) && ExitsOk(tr)
    ensures Exposure(tr) == BookOpen(tr) + PendingRemainder(tr) + Unbooked(tr) - ExitsInFlight(tr) - ClosedOver(tr)
  {
    if tr.status.NoPosition? { assert NotBooked(tr) || tr.pc.Ended? || tr.pc.Finish?; }
  }

  /** Broker net quantity against the book, per instrument, in every reachable state and under any rules: they
      differ by what closed positions were exited beyond their quantity, and so balance exactly when that cancels
      out. */
  lemma Conservation(r: Rules, s: State, token: int)
    requires CanReach(r, s)
    ensures Net(s, token) == Accounted(s, token) - Total(s, token, ClosedOver)
    ensures Net(s, token) == Accounted(s, token) <==> Total(s, token, ClosedOver) == 0
    ensures forall t :: 0 <= t < |s.trades| ==> UnbookedIsFlagged(r, s.trades[t])
  {
    Reached(r, s);
    forall t | 0 <= t < |s.trades|
      ensures Exposure(s.trades[t]) == BookOpen(s.trades[t]) + PendingRemainder(s.trades[t]) + Unbooked(s.trades[t])
                                       - ExitsInFlight(s.trades[t]) - ClosedOver(s.trades[t])
      ensures UnbookedIsFlagged(r, s.trades[t])
    {
      assert TradeInv(r, s.trades[t]);
      TradeBalances(s.trades[t]);
      if r.frozen && s.trades[t].pc.Ended? && s.trades[t].dealt { ReadEverywhere(s.trades[t]); }
    }
    SumSplits(s.trades, Only(token, Exposure), Only(token, BookOpen), Only(token, PendingRemainder),
              Only(token, Unbooked), Only(token, ExitsInFlight), Only(token, ClosedOver));
  }

  /** Under the six rules a closed position was exited exactly. */
  lemma ClosedExactly(tr: Trade)
    requires EntryInv(tr) && ExitInv(tr)
    ensures ClosedOver(tr) == 0
  {
    OneExit(tr);
  }

  /** Under the six rules book and broker balance in every reachable state. */
  lemma RulesBalance(r: Rules, s: State, token: int)
    requires Serialised(r) && CanReach(r, s)
    ensures Net(s, token) == Accounted(s, token)
  {
    Reached(r, s);
    forall t | 0 <= t < |s.trades| ensures Only(token, ClosedOver)(s.trades[t]) == 0 {
      assert TradeInv(r, s.trades[t]);
      ClosedExactly(s.trades[t]);
    }
    SumOfNone(s.trades, Only(token, ClosedOver));
    Conservation(r, s, token);
  }

  /** With fills frozen after the last poll, only an entry flagged for reconciliation leaves any. */
  predicate UnbookedIsFlagged(r: Rules, tr: Trade) {
    r.frozen && tr.pc.Ended? && Unbooked(tr) != 0 ==> tr.pc.outcome.ReconcileRequired?
  }

  /** No other trade on the instrument is unfinished, and this one's entry fills are all booked. */
  predicate OnePosition(s: State, t: nat) requires t < |s.trades| {
    && Unbooked(s.trades[t]) == 0
    && forall u :: 0 <= u < |s.trades| && u != t && s.trades[u].token == s.trades[t].token ==>
         && (s.trades[u].status.NoPosition? || s.trades[u].status.Closed?)
         && Unbooked(s.trades[u]) == 0
  }

  lemma {:induction false} SumOfOne(ts: seq<Trade>, t: nat, f: Trade -> int)
    requires t < |ts| && forall u :: 0 <= u < |ts| && u != t ==> f(ts[u]) == 0
    ensures SumOver(ts, f) == f(ts[t])
  {
    if t < |ts| - 1 {
      SumOfOne(ts[..|ts| - 1], t, f);
    } else {
      SumOfNone(ts[..|ts| - 1], f);
    }
  }

  lemma {:induction false} SumOfNone(ts: seq<Trade>, f: Trade -> int)
    requires forall u :: 0 <= u < |ts| ==> f(ts[u]) == 0
    ensures SumOver(ts, f) == 0
  {
    if ts == [] {
    } else {
      SumOfNone(ts[..|ts| - 1], f);
    }
  }

  /** One not-yet-closed position per instrument is what makes the broker's net quantity its own. */
  lemma OnePositionIsAlone(r: Rules, s: State, t: nat)
    requires Serialised(r) && CanReach(r, s) && t < |s.trades| && OnePosition(s, t)
    ensures Net(s, s.trades[t].token) == Signed(s.trades[t].long, s.trades[t].qty - Exited(s.trades[t]))
  {
    Reached(r, s);
    var f := Only(s.trades[t].token, Exposure);
    forall u | 0 <= u < |s.trades| && u != t ensures f(s.trades[u]) == 0 {
      assert TradeInv(r, s.trades[u]);
      TradeBalances(s.trades[u]);
      ClosedExactly(s.trades[u]);
    }
    SumOfOne(s.trades, t, f);
  }

  /** With no exit executing, a comparison of book and broker is silent on an instrument exactly when what parked
      positions have not exited, what entries have not booked and what closed positions exited beyond their quantity
      cancel out. */
  lemma ReconcileSilentIff(r: Rules, s: State, token: int)
    requires CanReach(r, s)
    requires forall t :: 0 <= t < |s.trades| && s.trades[t].token == token && s.trades[t].status.Open? ==>
               Exited(s.trades[t]) == 0
    ensures Net(s, token) == Total(s, token, BookOpen)
            <==> Total(s, token, PendingRemainder) + Total(s, token, Unbooked) - Total(s, token, ClosedOver) == 0
    ensures Serialised(r) ==> Total(s, token, ClosedOver) == 0
  {
    Conservation(r, s, token);
    if Serialised(r) { RulesBalance(r, s, token); }
    forall t | 0 <= t < |s.trades| ensures Only(token, ExitsInFlight)(s.trades[t]) == 0 {
      assert ExitsInFlight(s.trades[t]) == 0 || s.trades[t].token != token;
    }
    SumOfNone(s.trades, Only(token, ExitsInFlight));
  }

  /** At every query of the run, the position asked about is the only one on its instrument. */
  predicate OneAtQueries(r: Rules, s: State, run: seq<Action>)
    requires Runs(r, s, run)
    decreases |run|
  {
    run == []
    || (&& (run[0].At? && run[0].move.DoAskNet? ==> OnePosition(s, run[0].t))
        && OneAtQueries(r, Next(s, run[0]), run[1..]))
  }

  lemma {:induction false} OneAtQueriesIsAlone(r: Rules, s: State, run: seq<Action>)
    requires !r.alone && Serialised(r.(alone := true)) && CanReach(r.(alone := true), s)
    requires Runs(r, s, run) && OneAtQueries(r, s, run)
    ensures Runs(r.(alone := true), s, run) && CanReach(r.(alone := true), End(r, s, run))
    ensures End(r.(alone := true), s, run) == End(r, s, run)
    decreases |run|
  {
    var r' := r.(alone := true);
    if run == [] {
    } else {
      var a := run[0];
      if a.At? && a.move.DoAskNet? { OnePositionIsAlone(r', s, a.t); }
      assert Obeys(r', s, a);
      Push(r', s, a);
      OneAtQueriesIsAlone(r, Next(s, a), run[1..]);
    }
  }

  /** Structurally: five rules, and one unfinished, fully booked position per instrument whenever one is asked about,
      bound every exit of the run. */
  lemma OnePositionNoDoubleExit(r: Rules, run: seq<Action>, t: nat)
    requires !r.alone && Serialised(r.(alone := true))
    requires Runs(r, START, run) && OneAtQueries(r, START, run) && t < |End(r, START, run).trades|
    ensures Runs(r.(alone := true), START, run)
    ensures ExitsBounded(End(r, START, run).trades[t])
  {
    StartReached(r.(alone := true));
    OneAtQueriesIsAlone(r, START, run);
    NoDoubleExit(r.(alone := true), End(r, START, run), t);
  }

  /** What the book alone can tell: every entry on the instrument is done and dealt with its remainder, and no other
      position of it is unfinished. */
  predicate BookSaysOne(s: State, t: nat) requires t < |s.trades| {
    && EntryPast(s.trades[t].pc) && s.trades[t].dealt
    && forall u :: 0 <= u < |s.trades| && u != t && s.trades[u].token == s.trades[t].token ==>
         && EntryPast(s.trades[u].pc) && s.trades[u].dealt
         && (s.trades[u].status.NoPosition? || s.trades[u].status.Closed?)
  }

  lemma BookSaysOneIsRight(r: Rules, s: State, t: nat)
    requires r.frozen && CanReach(r, s) && t < |s.trades| && BookSaysOne(s, t)
    ensures OnePosition(s, t)
  {
    Reached(r, s);
    forall u | 0 <= u < |s.trades| && s.trades[u].token == s.trades[t].token ensures Unbooked(s.trades[u]) == 0 {
      assert TradeInv(r, s.trades[u]);
      assert EntryPast(s.trades[u].pc) && s.trades[u].dealt;
      ReadEverywhere(s.trades[u]);
    }
  }

  // --- what nothing undoes -------------------------------------------------------------------------

  predicate NoDeletionDue(cs: seq<ClosePc>) { forall c :: 0 <= c < |cs| ==> !cs[c].DeleteOco? }

  /** Still resting, its row retired, and no close left that would delete it. */
  predicate Stranded(tr: Trade) {
    && tr.bracket.Resting? && !tr.bracket.listed && !tr.status.Open? && !tr.status.NoPosition?
    && NoDeletionDue(tr.closes)
  }

  /** A bracket whose deletion failed rests until it fires: no task tries again. */
  lemma StrandedRests(tr: Trade, m: Move, net: int)
    requires EntryInv(tr) && Stranded(tr) && Can(tr, m)
    ensures m == OcoFires || Stranded(After(tr, m, net))
  {
    if OfEntry(m) {
      StrandedThroughEntry(tr, m);
    } else if OfBroker(m) {
      StrandedThroughBroker(tr, m);
    } else {
      StrandedThroughExit(tr, m, net);
    }
  }

  lemma StrandedThroughBroker(tr: Trade, m: Move)
    requires Stranded(tr) && Can(tr, m) && OfBroker(m)
    ensures m == OcoFires || Stranded(AfterBroker(tr, m))
  {
  }

  lemma StrandedThroughExit(tr: Trade, m: Move, net: int)
    requires Stranded(tr) && Can(tr, m) && !OfEntry(m) && !OfBroker(m)
    ensures Stranded(AfterExit(tr, m, net))
  {
    assert !m.StartClose? && !m.DoDeleteOco? && !m.DoReconcileBracket?;
  }

  lemma StrandedThroughEntry(tr: Trade, m: Move)
    requires EntryInv(tr) && Stranded(tr) && Can(tr, m) && OfEntry(m)
    ensures Stranded(AfterEntry(tr, m))
  {
    assert m.DoFinish?;
  }

  /** A deletion that failed, in `reconcile_brackets` or in a close that then booked or parked its exit, strands. */
  lemma FailedDeletionStrands(tr: Trade, m: Move, net: int)
    requires EntryInv(tr) && Can(tr, m) && NoDeletionDue(tr.closes)
    requires m == DoReconcileBracket(false)
             || ((m.DoBookExit? || m.DoPark?) && tr.bracket.Resting? && !tr.bracket.listed)
    ensures Stranded(After(tr, m, net))
  {
    assert !tr.status.NoPosition?;
  }

  /** On every run, under any rules, a stranded bracket rests until it fires. */
  lemma {:induction false} StrandedUntilFired(r: Rules, s: State, run: seq<Action>, t: nat)
    requires Inv(r, s) && t < |s.trades| && Stranded(s.trades[t]) && Runs(r, s, run) && At(t, OcoFires) !in run
    ensures t < |End(r, s, run).trades| && Stranded(End(r, s, run).trades[t])
    decreases |run|
  {
    if run == [] {
    } else {
      var a := run[0];
      assert TradeInv(r, s.trades[t]) && a in run;
      if a.At? && a.t == t { StrandedRests(s.trades[t], a.move, Net(s, s.trades[t].token)); }
      StepKeeps(r, s, a);
      assert At(t, OcoFires) !in run[1..];
      StrandedUntilFired(r, Next(s, a), run[1..], t);
    }
  }

  /** Parked with no exit order to ask about, and no close still running. */
  predicate ParkedForGood(tr: Trade) {
    tr.status == ClosePending(None) && AllReturned(tr.closes) && !tr.settling
  }

  lemma ParkedStays(tr: Trade, m: Move, net: int)
    requires EntryInv(tr) && ParkedForGood(tr) && Can(tr, m)
    ensures ParkedForGood(After(tr, m, net))
  {
    if OfEntry(m) {
      if m.DoPlace? || m.DoPoll? || m.DoCancel? || m.DoConfirm? { ClipsOnly(tr, m); }
    } else if !OfBroker(m) {
      assert m.DoReconcileBracket?;
    }
  }

  /** A position parked without an exit order - the broker was already flat - is never resolved, on any run. */
  lemma {:induction false} ParkedForever(r: Rules, s: State, run: seq<Action>, t: nat)
    requires Inv(r, s) && t < |s.trades| && ParkedForGood(s.trades[t]) && Runs(r, s, run)
    ensures t < |End(r, s, run).trades| && ParkedForGood(End(r, s, run).trades[t])
    decreases |run|
  {
    if run == [] {
    } else {
      var a := run[0];
      assert TradeInv(r, s.trades[t]);
      if a.At? && a.t == t { ParkedStays(s.trades[t], a.move, Net(s, s.trades[t].token)); }
      StepKeeps(r, s, a);
      ParkedForever(r, Next(s, a), run[1..], t);
    }
  }

  // --- each rule is needed -----------------------------------------------------------------------

  /** Book and broker balance in every reachable state. */
  ghost predicate AlwaysBalances(r: Rules) {
    forall s, token :: CanReach(r, s) ==> Net(s, token) == Accounted(s, token)
  }

  /** Some run exits too much, and some run leaves book and broker out of balance. */
  ghost predicate Breaks(r: Rules) { !NeverOverExits(r) && !AlwaysBalances(r) }

  predicate ExactElsewhere(s: State, t: nat) {
    forall u :: 0 <= u < |s.trades| && u != t ==> ClosedOver(s.trades[u]) == 0
  }

  lemma ClosedBeyond(r: Rules, s: State, t: nat)
    requires t < |s.trades| && CanReach(r, s) && ClosedOver(s.trades[t]) != 0 && ExactElsewhere(s, t)
    ensures !AlwaysBalances(r)
  {
    var token := s.trades[t].token;
    SumOfOne(s.trades, t, Only(token, ClosedOver));
    Conservation(r, s, token);
  }

  lemma {:induction false} Grows(r: Rules, s: State, run: seq<Action>, a: Action)
    requires Runs(r, s, run) && Enabled(End(r, s, run), a) && Obeys(r, End(r, s, run), a)
    ensures Runs(r, s, run + [a]) && End(r, s, run + [a]) == Next(End(r, s, run), a)
    decreases |run|
  {
    if run == [] {
      assert run + [a] == [a];
    } else {
      Grows(r, Next(s, run[0]), run[1..], a);
      assert (run + [a])[1..] == run[1..] + [a];
    }
  }

  lemma StartReached(r: Rules)
    ensures CanReach(r, START)
  {
    assert Runs(r, START, []) && End(r, START, []) == START;
  }

  lemma Push(r: Rules, s: State, a: Action)
    requires CanReach(r, s) && Enabled(s, a) && Obeys(r, s, a)
    ensures CanReach(r, Next(s, a))
  {
    var run :| Runs(r, START, run) && End(r, START, run) == s;
    Grows(r, START, run, a);
  }

  lemma NetOfOne(tr: Trade, blocked: bool)
    ensures Net(State([tr], blocked), tr.token) == Exposure(tr)
  {
    var f := Only(tr.token, Exposure);
    assert SumOver([tr], f) == SumOver([tr][..0], f) + f(tr);
    assert [tr][..0] == [];
  }

  /** A move of the only trade there is. */
  lemma Moves(r: Rules, tr: Trade, m: Move, tr': Trade)
    requires CanReach(r, State([tr], false)) && Can(tr, m) && After(tr, m, Exposure(tr)) == tr'
    requires Allowed(r, tr, m, Exposure(tr)) && (m.DoFinish? ==> !Unsafe(tr'.pc.outcome))
    ensures CanReach(r, State([tr'], false))
  {
    NetOfOne(tr, false);
    Push(r, State([tr], false), At(0, m));
    assert [tr][0 := tr'] == [tr'];
  }

  const FULL := Order(10, 10, Complete)

  const BOUGHT := Trade(7, true, [10], [Clip(FULL, 10, Some(Complete))], true, Arm, Open, 10, false, NoBracket,
                        [], [], false)
  const ARMED := BOUGHT.(pc := PlaceOco, guarded := true)
  const PROTECTED := ARMED.(pc := Ended(Protected), bracket := Resting(true, true))

  const ASKED := IDLE.(token := 7, clips := [10])

  lemma Asks(r: Rules)
    ensures CanReach(r, State([ASKED], false))
  {
    StartReached(r);
    Push(r, START, NewTrade(7, true, [10]));
    assert Next(START, NewTrade(7, true, [10])).trades == [ASKED];
  }

  const SENT := ASKED.(placed := [Clip(Sent(10), 0, None)], pc := Poll(POLL_ATTEMPTS))

  const FILLED := ASKED.(placed := [Clip(FULL, 0, None)], pc := Poll(POLL_ATTEMPTS))

  lemma Sends(r: Rules)
    ensures CanReach(r, State([SENT], false))
  {
    Asks(r);
    assert After(ASKED, DoPlace(Delivered), 0) == SENT;
    Moves(r, ASKED, DoPlace(Delivered), SENT);
  }

  lemma Fills(r: Rules)
    ensures CanReach(r, State([FILLED], false))
  {
    Sends(r);
    assert After(SENT, BrokerMoves(ClipRef(0), FULL), 0) == FILLED;
    Moves(r, SENT, BrokerMoves(ClipRef(0), FULL), FILLED);
  }

  /** Ten bought in one clip. */
  lemma Buys(r: Rules)
    ensures CanReach(r, State([BOUGHT], false))
  {
    Fills(r);
    Reads(r, FILLED);
  }

  lemma Reads(r: Rules, full: Trade)
    requires full == ASKED.(placed := [Clip(FULL, 0, None)], pc := Poll(POLL_ATTEMPTS))
    requires CanReach(r, State([full], false))
    ensures CanReach(r, State([BOUGHT], false))
  {
    var read := ASKED.(placed := BOUGHT.placed, pc := Book);
    assert CanReach(r, State([read], false)) by { Moves(r, full, DoPoll(true), read); }
    BoughtTen();
    Moves(r, read, DoBook, BOUGHT);
  }

  lemma Opens(r: Rules)
    ensures CanReach(r, State([PROTECTED], false))
  {
    Buys(r);
    BoughtTen();
    assert CanReach(r, State([ARMED], false)) by { Moves(r, BOUGHT, DoArm(true, true), ARMED); }
    var resting := ARMED.(pc := Finish, bracket := Resting(true, true));
    assert CanReach(r, State([resting], false)) by { Moves(r, ARMED, DoPlaceOco(Delivered), resting); }
    assert CanReach(r, State([PROTECTED], false)) by { Moves(r, resting, DoFinish, PROTECTED); }
  }

  /** The state with one trade replaced. */
  function Put(s: State, t: nat, tr: Trade): State requires t < |s.trades| { s.(trades := s.trades[t := tr]) }

  /** A move that neither reads the net quantity nor ends an entry. */
  lemma MovesIn(r: Rules, s: State, t: nat, tr: Trade, m: Move, tr': Trade)
    requires t < |s.trades| && CanReach(r, Put(s, t, tr))
    requires !m.DoFinish? && !m.DoAskNet? && Can(tr, m) && Allowed(r, tr, m, 0) && After(tr, m, 0) == tr'
    ensures CanReach(r, Put(s, t, tr'))
  {
    Push(r, Put(s, t, tr), At(t, m));
    assert s.trades[t := tr][t := tr'] == s.trades[t := tr'];
  }

  lemma BoughtTen()
    ensures Observed(BOUGHT.placed) == ClipFills(BOUGHT.placed) == 10 && ExitFills([FULL]) == 10
  {
    assert BOUGHT.placed[..0] == [] && [FULL][..0] == [];
  }

  /** Once a market exit is due while the bracket can still sell, ten bought can become twenty sold. */
  lemma SoldTwice(r: Rules, s: State, t: nat, tr: Trade)
    requires t < |s.trades| && CanReach(r, Put(s, t, tr))
    requires tr.closes == [SendExit] && tr.exits == [] && tr.qty == 10 && tr.placed == BOUGHT.placed
    requires tr.status.Open? && ExactElsewhere(s, t)
    requires tr.bracket.Resting? || (tr.bracket.Fired? && BrokerMay(tr.bracket.leg, FULL))
    ensures Breaks(r)
  {
    LegSells(r, s, t, tr);
    ExitSells(r, s, t, tr.(bracket := Fired(FULL)));
  }

  lemma LegSells(r: Rules, s: State, t: nat, tr: Trade)
    requires t < |s.trades| && CanReach(r, Put(s, t, tr)) && tr.qty == 10
    requires tr.bracket.Resting? || (tr.bracket.Fired? && BrokerMay(tr.bracket.leg, FULL))
    ensures CanReach(r, Put(s, t, tr.(bracket := Fired(FULL))))
  {
    var fired := if tr.bracket.Fired? then tr else tr.(bracket := Fired(Sent(10)));
    if tr.bracket.Resting? { MovesIn(r, s, t, tr, OcoFires, fired); }
    MovesIn(r, s, t, fired, BrokerMoves(LegRef, FULL), tr.(bracket := Fired(FULL)));
  }

  lemma ExitSells(r: Rules, s: State, t: nat, tr: Trade)
    requires t < |s.trades| && CanReach(r, Put(s, t, tr)) && tr.qty == 10 && tr.placed == BOUGHT.placed
    requires tr.closes == [SendExit] && tr.exits == [] && tr.bracket == Fired(FULL)
    requires tr.status.Open? && ExactElsewhere(s, t)
    ensures Breaks(r)
  {
    var sent := tr.(closes := [PollExit(0, POLL_ATTEMPTS)], exits := [Sent(10)]);
    assert After(tr, DoSendExit(0, Delivered), 0) == sent;
    MovesIn(r, s, t, tr, DoSendExit(0, Delivered), sent);
    ExitFillsToo(r, s, t, sent);
  }

  lemma ExitFillsToo(r: Rules, s: State, t: nat, tr: Trade)
    requires t < |s.trades| && CanReach(r, Put(s, t, tr)) && tr.placed == BOUGHT.placed && tr.qty == 10
    requires tr.closes == [PollExit(0, POLL_ATTEMPTS)] && tr.exits == [Sent(10)] && tr.bracket == Fired(FULL)
    requires tr.status.Open? && ExactElsewhere(s, t)
    ensures Breaks(r)
  {
    var twice := tr.(exits := [FULL]);
    assert [Sent(10)][0 := FULL] == [FULL];
    MovesIn(r, s, t, tr, BrokerMoves(ExitRef(0), FULL), twice);
    BoughtTen();
    assert !ExitsBounded(Put(s, t, twice).trades[t]);
    SecondSaleBooks(r, s, t, twice);
  }

  lemma SecondSaleBooks(r: Rules, s: State, t: nat, tr: Trade)
    requires t < |s.trades| && CanReach(r, Put(s, t, tr)) && tr.qty == 10 && ExactElsewhere(s, t)
    requires tr.closes == [PollExit(0, POLL_ATTEMPTS)] && tr.exits == [FULL] && tr.bracket == Fired(FULL)
    requires tr.status.Open?
    ensures !AlwaysBalances(r)
  {
    var booking, closed := tr.(closes := [BookExit]), tr.(closes := [Returned], status := Closed);
    assert [PollExit(0, POLL_ATTEMPTS)][0 := BookExit] == [BookExit] && [BookExit][0 := Returned] == [Returned];
    MovesIn(r, s, t, tr, DoPollExit(0, true), booking);
    MovesIn(r, s, t, booking, DoBookExit(0), closed);
    BoughtTen();
    ClosedBeyond(r, Put(s, t, closed), t);
  }

  /** With one trade open, the broker's net quantity is that trade's own. */
  lemma OwnNet(tr: Trade)
    requires tr.placed == BOUGHT.placed && tr.qty == 10
    ensures Exposure(tr) == Signed(tr.long, tr.qty - Exited(tr))
  {
    BoughtTen();
  }

  /** A close of the only position that gets as far as sending a market exit. */
  lemma ClosesTo(r: Rules, tr: Trade, answered: bool)
    requires CanReach(r, State([tr], false)) && tr.placed == BOUGHT.placed && tr.qty == 10
    requires tr.status.Open? && tr.closes == [] && (r.afterEntry ==> EntryPast(tr.pc))
    requires r.cancels ==> !tr.bracket.Resting?
    requires (r.answers ==> answered) && (answered ==> Exposure(tr) != 0)
    requires r.settled && tr.bracket.Fired? ==> LegSettled(tr.bracket.leg)
    ensures CanReach(r, State([tr.(closes := [SendExit], bracket := AfterDelete(tr.bracket, false))], false))
  {
    StartsAsking(r, tr);
    var asking := tr.(closes := [AskNet], bracket := AfterDelete(tr.bracket, false));
    OwnNet(asking);
    Moves(r, asking, DoAskNet(0, answered), asking.(closes := [SendExit]));
  }

  lemma StartsAsking(r: Rules, tr: Trade)
    requires CanReach(r, State([tr], false)) && tr.status.Open? && tr.closes == []
    requires (r.afterEntry ==> EntryPast(tr.pc)) && (r.cancels ==> !tr.bracket.Resting?)
    ensures CanReach(r, State([tr.(closes := [AskNet], bracket := AfterDelete(tr.bracket, false))], false))
  {
    var deleting := tr.(closes := [DeleteOco(Knows(tr.bracket))]);
    assert CanReach(r, State([deleting], false)) by { Moves(r, tr, StartClose, deleting); }
    Moves(r, deleting, DoDeleteOco(0, false), tr.(closes := [AskNet], bracket := AfterDelete(tr.bracket, false)));
  }

  lemma WithoutAnswers(r: Rules)
    requires !r.answers
    ensures Breaks(r)
  {
    var fired, sold := PROTECTED.(bracket := Fired(Sent(10))), PROTECTED.(bracket := Fired(FULL));
    Opens(r);
    assert CanReach(r, State([fired], false)) by { Moves(r, PROTECTED, OcoFires, fired); }
    assert CanReach(r, State([sold], false)) by { Moves(r, fired, BrokerMoves(LegRef, FULL), sold); }
    var sending := sold.(closes := [SendExit]);
    ClosesTo(r, sold, false);
    assert Put(State([PROTECTED], false), 0, sending).trades == [sending];
    SoldTwice(r, State([PROTECTED], false), 0, sending);
  }

  lemma WithoutSettled(r: Rules)
    requires !r.settled
    ensures Breaks(r)
  {
    var fired := PROTECTED.(bracket := Fired(Sent(10)));
    Opens(r);
    assert CanReach(r, State([fired], false)) by { Moves(r, PROTECTED, OcoFires, fired); }
    var sending := fired.(closes := [SendExit]);
    BoughtTen();
    ClosesTo(r, fired, true);
    assert Put(State([PROTECTED], false), 0, sending).trades == [sending];
    SoldTwice(r, State([PROTECTED], false), 0, sending);
  }

  lemma WithoutCancels(r: Rules)
    requires !r.cancels
    ensures Breaks(r)
  {
    Opens(r);
    var sending := PROTECTED.(closes := [SendExit], bracket := Resting(true, false));
    BoughtTen();
    ClosesTo(r, PROTECTED, true);
    assert Put(State([PROTECTED], false), 0, sending).trades == [sending];
    SoldTwice(r, State([PROTECTED], false), 0, sending);
  }

  /** The guard is armed before the OCO is placed: a tick in between closes a position whose bracket is
      still to come. */
  lemma WithoutAfterEntry(r: Rules)
    requires !r.afterEntry
    ensures Breaks(r)
  {
    Buys(r);
    assert CanReach(r, State([ARMED], false)) by { Moves(r, BOUGHT, DoArm(true, true), ARMED); }
    var sending := ARMED.(closes := [SendExit]);
    BoughtTen();
    ClosesTo(r, ARMED, true);
    var bracketed := sending.(pc := Finish, bracket := Resting(true, true));
    assert CanReach(r, State([bracketed], false)) by {
      Moves(r, sending, DoPlaceOco(Delivered), bracketed);
    }
    assert Put(State([PROTECTED], false), 0, bracketed).trades == [bracketed];
    SoldTwice(r, State([PROTECTED], false), 0, bracketed);
  }

  /** Two closes that both read the row while it was open. */
  lemma WithoutSerial(r: Rules)
    requires !r.serial
    ensures Breaks(r)
  {
    Opens(r);
    BoughtTen();
    var c1 := PROTECTED.(closes := [DeleteOco(true)]);
    var c2 := PROTECTED.(closes := [DeleteOco(true), DeleteOco(true)]);
    assert CanReach(r, State([c1], false)) by { Moves(r, PROTECTED, StartClose, c1); }
    assert CanReach(r, State([c2], false)) by { Moves(r, c1, StartClose, c2); }
    BothDelete(r, c2);
  }

  lemma BothDelete(r: Rules, tr: Trade)
    requires CanReach(r, State([tr], false)) && tr == PROTECTED.(closes := [DeleteOco(true), DeleteOco(true)])
    ensures Breaks(r)
  {
    var one := tr.(bracket := Removed, closes := [AskNet, DeleteOco(true)]);
    var two := tr.(bracket := Removed, closes := [AskNet, AskNet]);
    assert CanReach(r, State([one], false)) by { Moves(r, tr, DoDeleteOco(0, true), one); }
    assert CanReach(r, State([two], false)) by { Moves(r, one, DoDeleteOco(1, true), two); }
    BothAsk(r, two);
  }

  lemma BothAsk(r: Rules, tr: Trade)
    requires CanReach(r, State([tr], false)) && tr.closes == [AskNet, AskNet] && tr.exits == []
    requires tr.placed == BOUGHT.placed && tr.qty == 10 && tr.bracket.Removed? && tr.status.Open?
    ensures Breaks(r)
  {
    var one, two := tr.(closes := [SendExit, AskNet]), tr.(closes := [SendExit, SendExit]);
    BoughtTen();
    assert CanReach(r, State([one], false)) by { Moves(r, tr, DoAskNet(0, true), one); }
    assert CanReach(r, State([two], false)) by { Moves(r, one, DoAskNet(1, true), two); }
    BothSend(r, two);
  }

  lemma BothSend(r: Rules, tr: Trade)
    requires CanReach(r, State([tr], false)) && tr.closes == [SendExit, SendExit] && tr.exits == []
    requires tr.qty == 10 && tr.bracket.Removed? && tr.status.Open?
    ensures Breaks(r)
  {
    var one := tr.(closes := [PollExit(0, POLL_ATTEMPTS), SendExit], exits := [Sent(10)]);
    assert CanReach(r, State([one], false)) by { Moves(r, tr, DoSendExit(0, Delivered), one); }
    SecondSends(r, one);
  }

  lemma SecondSends(r: Rules, tr: Trade)
    requires CanReach(r, State([tr], false)) && tr.closes == [PollExit(0, POLL_ATTEMPTS), SendExit]
    requires tr.exits == [Sent(10)] && tr.qty == 10 && tr.bracket.Removed? && tr.status.Open?
    ensures Breaks(r)
  {
    var two := tr.(closes := [PollExit(0, POLL_ATTEMPTS), PollExit(1, POLL_ATTEMPTS)], exits := [Sent(10), Sent(10)]);
    assert CanReach(r, State([two], false)) by {
      assert After(tr, DoSendExit(1, Delivered), 0) == two;
      Moves(r, tr, DoSendExit(1, Delivered), two);
    }
    assert !ExitsBounded(State([two], false).trades[0]);
    BothFill(r, two);
  }

  /** Two exits of ten, each still polled for. */
  predicate BothOut(tr: Trade, first: Order, second: Order) {
    && tr.closes == [PollExit(0, POLL_ATTEMPTS), PollExit(1, POLL_ATTEMPTS)] && tr.exits == [first, second]
    && tr.qty == 10 && tr.bracket.Removed? && tr.status.Open?
  }

  lemma BothFill(r: Rules, tr: Trade)
    requires CanReach(r, State([tr], false)) && BothOut(tr, Sent(10), Sent(10))
    ensures !AlwaysBalances(r)
  {
    var one, two := tr.(exits := [FULL, Sent(10)]), tr.(exits := [FULL, FULL]);
    assert tr.exits[0 := FULL] == one.exits && one.exits[1 := FULL] == two.exits;
    assert CanReach(r, State([one], false)) by { Moves(r, tr, BrokerMoves(ExitRef(0), FULL), one); }
    assert CanReach(r, State([two], false)) by { Moves(r, one, BrokerMoves(ExitRef(1), FULL), two); }
    FirstBooks(r, two);
  }

  lemma FirstBooks(r: Rules, tr: Trade)
    requires CanReach(r, State([tr], false)) && BothOut(tr, FULL, FULL)
    ensures !AlwaysBalances(r)
  {
    var closes := [BookExit, PollExit(1, POLL_ATTEMPTS)];
    var booking := tr.(closes := closes);
    assert tr.closes[0 := BookExit] == closes;
    assert CanReach(r, State([booking], false)) by { Moves(r, tr, DoPollExit(0, true), booking); }
    FirstCloses(r, booking);
  }

  lemma FirstCloses(r: Rules, tr: Trade)
    requires CanReach(r, State([tr], false)) && tr.closes == [BookExit, PollExit(1, POLL_ATTEMPTS)]
    requires tr.exits == [FULL, FULL] && tr.qty == 10 && tr.bracket.Removed? && tr.status.Open?
    ensures !AlwaysBalances(r)
  {
    var closed := tr.(closes := [Returned, PollExit(1, POLL_ATTEMPTS)], status := Closed);
    assert CanReach(r, State([closed], false)) by {
      assert tr.closes[0 := Returned] == closed.closes;
      Moves(r, tr, DoBookExit(0), closed);
    }
    assert ClosedOver(closed) != 0 by { TwentyOut(); }
    assert State([closed], false).trades[0] == closed;
    ClosedBeyond(r, State([closed], false), 0);
  }

  lemma TwentyOut()
    ensures ExitFills([FULL, FULL]) == 20
  {
    BoughtTen();
    assert [FULL, FULL][..1] == [FULL];
  }

  /** Another position on the instrument hides that the bracket already sold this one. */
  lemma WithoutAlone(r: Rules)
    requires !r.alone
    ensures Breaks(r)
  {
    var fired, sold := PROTECTED.(bracket := Fired(Sent(10))), PROTECTED.(bracket := Fired(FULL));
    Opens(r);
    assert CanReach(r, State([fired], false)) by { Moves(r, PROTECTED, OcoFires, fired); }
    assert CanReach(r, State([sold], false)) by { Moves(r, fired, BrokerMoves(LegRef, FULL), sold); }
    assert CanReach(r, State([sold.(closes := [AskNet])], false)) by { StartsAsking(r, sold); }
    AnotherBuys(r, sold.(closes := [AskNet]));
  }

  const OTHER := IDLE.(token := 7, clips := [5], placed := [Clip(Sent(5), 0, None)], pc := Poll(POLL_ATTEMPTS))

  lemma AnotherBuys(r: Rules, tr: Trade)
    requires !r.alone && CanReach(r, State([tr], false)) && tr.closes == [AskNet] && tr.exits == []
    requires tr.token == 7 && tr.placed == BOUGHT.placed && tr.qty == 10 && tr.bracket == Fired(FULL) && tr.status.Open?
    ensures Breaks(r)
  {
    var idle := IDLE.(token := 7, clips := [5]);
    Push(r, State([tr], false), NewTrade(7, true, [5]));
    var s := State([tr, idle], false);
    assert Next(State([tr], false), NewTrade(7, true, [5])) == s && Put(s, 1, idle) == s;
    assert CanReach(r, Put(s, 1, OTHER)) by { MovesIn(r, s, 1, idle, DoPlace(Delivered), OTHER); }
    assert [Clip(Sent(5), 0, None)][0 := Clip(Order(5, 5, Complete), 0, None)] == OTHER_FULL.placed;
    MovesIn(r, s, 1, OTHER, BrokerMoves(ClipRef(0), Order(5, 5, Complete)), OTHER_FULL);
    assert Put(s, 1, OTHER_FULL).trades == [tr, OTHER_FULL];
    AsksAmongTwo(r, tr);
  }

  const OTHER_FULL := OTHER.(placed := [Clip(Order(5, 5, Complete), 0, None)])

  lemma AsksAmongTwo(r: Rules, tr: Trade)
    requires !r.alone && CanReach(r, State([tr, OTHER_FULL], false)) && tr.closes == [AskNet] && tr.exits == []
    requires tr.token == 7 && tr.placed == BOUGHT.placed && tr.qty == 10 && tr.bracket == Fired(FULL) && tr.status.Open?
    ensures Breaks(r)
  {
    NetOfTwo(tr, OTHER_FULL);
    var pair := State([tr, OTHER_FULL], false);
    Push(r, pair, At(0, DoAskNet(0, true)));
    assert tr.closes[0 := SendExit] == [SendExit];
    assert Next(pair, At(0, DoAskNet(0, true))) == Put(pair, 0, tr.(closes := [SendExit]));
    SoldTwice(r, pair, 0, tr.(closes := [SendExit]));
  }

  lemma NetOfTwo(a: Trade, b: Trade)
    requires a.token == b.token == 7 && a.placed == BOUGHT.placed && a.bracket == Fired(FULL) && a.exits == []
    requires b == OTHER_FULL
    ensures Net(State([a, b], false), 7) == 5
  {
    BoughtTen();
    var f := Only(7, Exposure);
    assert [a, b][..1] == [a] && [a][..0] == [] && b.placed[..0] == [];
    assert SumOver([a], f) == SumOver([], f) + f(a) == 0;
    assert SumOver([a, b], f) == SumOver([a], f) + f(b);
    assert ClipFills(b.placed) == ClipFills([]) + 5;
  }

  /** The exits stay bounded on every run, and book and broker balance on every run, each exactly when all six rules
      are enforced. */
  lemma ExactlyTheRules(r: Rules)
    ensures NeverOverExits(r) <==> Serialised(r)
    ensures AlwaysBalances(r) <==> Serialised(r)
  {
    if Serialised(r) {
      forall s, t | CanReach(r, s) && 0 <= t < |s.trades| ensures ExitsBounded(s.trades[t]) {
        NoDoubleExit(r, s, t);
      }
      forall s, token | CanReach(r, s) ensures Net(s, token) == Accounted(s, token) { RulesBalance(r, s, token); }
    } else if !r.serial {
      WithoutSerial(r);
    } else if !r.afterEntry {
      WithoutAfterEntry(r);
    } else if !r.cancels {
      WithoutCancels(r);
    } else if !r.answers {
      WithoutAnswers(r);
    } else if !r.settled {
      WithoutSettled(r);
    } else {
      WithoutAlone(r);
    }
  }

  // --- the cancel window -------------------------------------------------------------------------

  predicate EndedSafely(tr: Trade) { tr.pc.Ended? && !Unsafe(tr.pc.outcome) }

  /** Returned entries that do not block new ones have booked everything the broker filled. */
  ghost predicate BooksEveryFill(r: Rules) {
    forall s, t :: CanReach(r, s) && 0 <= t < |s.trades| && EndedSafely(s.trades[t]) ==>
      s.trades[t].qty == ClipFills(s.trades[t].placed)
  }

  const PART := Order(10, 4, Working)
  const POLLED := IDLE.(token := 7, clips := [10], placed := [Clip(PART, 0, None)])

  lemma {:induction false} PollsOut(r: Rules, left: nat)
    requires 1 <= left && CanReach(r, State([POLLED.(pc := Poll(left))], false))
    ensures CanReach(r, State([POLLED.(placed := [Clip(PART, 4, Some(Working))], pc := Cancel)], false))
  {
    var tr := POLLED.(pc := Poll(left));
    if left > 1 {
      Moves(r, tr, DoPoll(true), POLLED.(pc := Poll(left - 1)));
      PollsOut(r, left - 1);
    } else {
      Moves(r, tr, DoPoll(true), POLLED.(placed := [Clip(PART, 4, Some(Working))], pc := Cancel));
    }
  }

  /** The fill that arrives between the last poll and the cancel is confirmed away, not booked. */
  lemma CancelWindow(r: Rules)
    requires !r.frozen
    ensures !BooksEveryFill(r)
  {
    Sends(r);
    assert CanReach(r, State([POLLED.(pc := Poll(POLL_ATTEMPTS))], false)) by {
      Moves(r, ASKED.(placed := [Clip(Sent(10), 0, None)], pc := Poll(POLL_ATTEMPTS)),
            BrokerMoves(ClipRef(0), PART), POLLED.(pc := Poll(POLL_ATTEMPTS)));
    }
    PollsOut(r, POLL_ATTEMPTS);
    LateFill(r, POLLED.(placed := [Clip(PART, 4, Some(Working))], pc := Cancel));
  }

  lemma LateFill(r: Rules, tr: Trade)
    requires !r.frozen && CanReach(r, State([tr], false))
    requires tr == POLLED.(placed := [Clip(PART, 4, Some(Working))], pc := Cancel)
    ensures !BooksEveryFill(r)
  {
    var waiting := tr.(pc := Confirm(CONFIRM_ATTEMPTS));
    var filled := waiting.(placed := [Clip(FULL, 4, Some(Working))]);
    assert CanReach(r, State([waiting], false)) by { Moves(r, tr, DoCancel, waiting); }
    assert CanReach(r, State([filled], false)) by {
      assert tr.placed[0 := Clip(FULL, 4, Some(Working))] == filled.placed;
      Moves(r, waiting, BrokerMoves(ClipRef(0), FULL), filled);
    }
    assert CanReach(r, State([filled.(pc := Book)], false)) by {
      Moves(r, filled, DoConfirm(true), filled.(pc := Book));
    }
    BooksShort(r, filled.(pc := Book));
  }

  lemma BooksShort(r: Rules, tr: Trade)
    requires CanReach(r, State([tr], false)) && tr.placed == [Clip(FULL, 4, Some(Working))] && tr.dealt
    requires tr == POLLED.(placed := tr.placed, pc := Book)
    ensures !BooksEveryFill(r)
  {
    assert tr.placed[..0] == [];
    assert Observed(tr.placed) == Observed([]) + 4 && ClipFills(tr.placed) == ClipFills([]) + 10;
    var open := tr.(status := Open, qty := 4, pc := Arm);
    assert CanReach(r, State([open], false)) by { Moves(r, tr, DoBook, open); }
    EndsShort(r, open);
  }

  lemma EndsShort(r: Rules, tr: Trade)
    requires CanReach(r, State([tr], false)) && tr.pc.Arm? && tr.dealt
    requires tr.qty == Observed(tr.placed) == 4 && ClipFills(tr.placed) == 10
    ensures !BooksEveryFill(r)
  {
    var armed := tr.(guarded := true, pc := Finish);
    var ended := armed.(pc := Ended(Protected));
    assert CanReach(r, State([armed], false)) by { Moves(r, tr, DoArm(true, false), armed); }
    assert CanReach(r, State([ended], false)) by { Moves(r, armed, DoFinish, ended); }
    assert State([ended], false).trades[0] == ended;
  }

  lemma ExactlyFrozen(r: Rules)
    ensures BooksEveryFill(r) <==> r.frozen
  {
    if r.frozen {
      forall s, t | CanReach(r, s) && 0 <= t < |s.trades| && EndedSafely(s.trades[t])
        ensures s.trades[t].qty == ClipFills(s.trades[t].placed)
      {
        EntryEndsProtectedOrBlocked(r, s, t);
      }
    } else {
      CancelWindow(r);
    }
  }
}
