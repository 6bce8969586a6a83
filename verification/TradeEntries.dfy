/** What becomes of an entry over a whole run: how far it gets, when its remainder counts as dealt with, what blocks
    new ones, and that it ends. */
module TradeEntries {
  import opened Options
  import opened OrderPolicy
  import opened TradeProtocol
  import opened TradeSafety
  import opened TradeTheorems

  // --- how far an entry gets -----------------------------------------------------------------------

  function Asked(clips: seq<nat>): nat { if clips == [] then 0 else Asked(clips[..|clips| - 1]) + clips[|clips| - 1] }

  lemma {:induction false} DoneFillAll(clips: seq<nat>, placed: seq<Clip>)
    requires |placed| == |clips| && forall k :: 0 <= k < |placed| ==> ClipOf(placed[k], clips[k]) && ClipDone(placed[k])
    ensures Observed(placed) == Asked(clips)
  {
    if placed == [] {
    } else {
      var n := |placed| - 1;
      DoneFillAll(clips[..n], placed[..n]);
    }
  }

  /** Every placement and every poll of trade t in the run was answered. */
  predicate EntryAnswered(run: seq<Action>, t: nat) {
    forall k :: 0 <= k < |run| && run[k].At? && run[k].t == t ==>
      && (run[k].move.DoPlace? ==> run[k].move.reply.Delivered?)
      && (run[k].move.DoPoll? ==> run[k].move.answered)
  }

  predicate OnTrack(tr: Trade) { tr.dealt || LastSeenOther(tr.placed) }

  lemma StaysOnTrack(tr: Trade, m: Move, net: int)
    requires EntryInv(tr) && Can(tr, m) && OnTrack(tr)
    requires (m.DoPlace? ==> m.reply.Delivered?) && (m.DoPoll? ==> m.answered)
    ensures OnTrack(After(tr, m, net))
  {
    if m.DoPoll? {
      TrackOfPoll(tr, m.answered);
    } else if OfEntry(m) {
      TrackOfEntry(tr, m);
    } else if OfBroker(m) {
      SameSeen(tr, m);
    } else {
      ExitFrame(tr, m, net);
    }
  }

  lemma TrackOfPoll(tr: Trade, answered: bool)
    requires EntryInv(tr) && Can(tr, DoPoll(answered)) && answered
    ensures OnTrack(AfterPoll(tr, answered))
  {
    assert AfterPoll(tr, answered).dealt == tr.dealt;
  }

  lemma TrackOfEntry(tr: Trade, m: Move)
    requires EntryInv(tr) && Can(tr, m) && OfEntry(m) && !m.DoPoll? && OnTrack(tr)
    requires m.DoPlace? ==> m.reply.Delivered?
    ensures OnTrack(AfterEntry(tr, m))
  {
    var tr' := AfterEntry(tr, m);
    assert !m.DoPlace? ==> tr'.placed == tr.placed;
  }

  /** The broker changes no reading. */
  lemma SameSeen(tr: Trade, m: Move)
    requires Can(tr, m) && OfBroker(m)
    ensures var tr' := AfterBroker(tr, m);
            && tr'.dealt == tr.dealt && tr'.pc == tr.pc && tr'.clips == tr.clips && |tr'.placed| == |tr.placed|
            && forall k :: 0 <= k < |tr.placed| ==> tr'.placed[k].seen == tr.placed[k].seen
  {
  }

  /** A trade that is there already, or yet to come. */
  predicate IfThere(s: State, t: nat, f: Trade -> bool) { t < |s.trades| ==> f(s.trades[t]) }

  lemma {:induction false} AnsweredIsOnTrack(r: Rules, s: State, run: seq<Action>, t: nat)
    requires Inv(r, s) && Runs(r, s, run) && EntryAnswered(run, t) && IfThere(s, t, OnTrack)
    ensures IfThere(End(r, s, run), t, OnTrack)
    decreases |run|
  {
    if run == [] {
    } else {
      var a := run[0];
      if a.At? && a.t == t {
        assert TradeInv(r, s.trades[t]);
        StaysOnTrack(s.trades[t], a.move, Net(s, s.trades[t].token));
      }
      StepKeeps(r, s, a);
      assert forall k :: 0 <= k < |run| - 1 ==> run[1..][k] == run[k + 1];
      AnsweredIsOnTrack(r, Next(s, a), run[1..], t);
    }
  }

  /** An entry whose calls are all answered and whose clips were all seen COMPLETE has sent every clip and booked all
      that was asked for; it is safe exactly if a guard is armed over that. */
  lemma WholeEntry(r: Rules, run: seq<Action>, t: nat)
    requires Runs(r, START, run) && EntryAnswered(run, t) && t < |End(r, START, run).trades|
    ensures var tr := End(r, START, run).trades[t];
            tr.pc.Ended? && LastSeenComplete(tr.placed) ==>
              && |tr.placed| == |tr.clips| && tr.qty == Asked(tr.clips)
              && (Asked(tr.clips) > 0 ==> tr.pc.outcome == if tr.guarded then Protected else Unprotected)
  {
    var s := End(r, START, run);
    AnsweredIsOnTrack(r, START, run, t);
    RunKeeps(r, START, run);
    var tr := s.trades[t];
    assert TradeInv(r, tr);
    if tr.pc.Ended? && LastSeenComplete(tr.placed) { DoneFillAll(tr.clips, tr.placed); }
  }

  /** An entry stops short of its last clip only on an unanswered call or a clip it did not see COMPLETE. */
  lemma AllClipsSent(r: Rules, s: State, t: nat)
    requires CanReach(r, s) && t < |s.trades| && EntryPast(s.trades[t].pc)
    ensures var tr := s.trades[t];
            && (tr.dealt && |tr.placed| < |tr.clips| ==> LastSeenOther(tr.placed))
            && (tr.dealt && |tr.placed| < |tr.clips| ==> Observed(tr.placed) <= Asked(tr.clips[..|tr.placed|]))
            && (tr.dealt && LastSeenComplete(tr.placed) ==> Observed(tr.placed) == Asked(tr.clips))
  {
    Reached(r, s);
    var tr := s.trades[t];
    assert TradeInv(r, tr);
    if tr.dealt && LastSeenComplete(tr.placed) { DoneFillAll(tr.clips, tr.placed); }
    SeenWithinAsked(tr.clips, tr.placed);
  }

  lemma {:induction false} SeenWithinAsked(clips: seq<nat>, placed: seq<Clip>)
    requires |placed| <= |clips| && forall k :: 0 <= k < |placed| ==> ClipOf(placed[k], clips[k])
    ensures Observed(placed) <= Asked(clips[..|placed|])
  {
    if placed == [] {
    } else {
      var n := |placed| - 1;
      SeenWithinAsked(clips, placed[..n]);
      assert clips[..n + 1][..n] == clips[..n];
    }
  }

  // --- when the remainder counts as dealt with -----------------------------------------------------

  /** A step that leaves nothing unknown behind: the placement or poll is answered, and the last poll for a cancelled
      clip finds it over. */
  predicate Smooth(tr: Trade, m: Move) requires Can(tr, m) {
    match m
    case DoPlace(reply) => reply.Delivered?
    case DoPoll(answered) => answered
    case DoConfirm(answered) => (answered && Terminal(LastClip(tr).order.status)) || tr.pc.left > 1
    case _ => true
  }

  lemma DealtStep(tr: Trade, m: Move, net: int)
    requires Can(tr, m)
    ensures After(tr, m, net).dealt <==> tr.dealt && Smooth(tr, m)
  {
    if m.DoPlace? || m.DoPoll? || m.DoConfirm? {
    } else if OfEntry(m) {
      assert AfterEntry(tr, m).dealt == tr.dealt;
    } else if OfBroker(m) {
      SameSeen(tr, m);
    } else {
      ExitFrame(tr, m, net);
    }
  }

  predicate SmoothRun(r: Rules, s: State, run: seq<Action>, t: nat)
    requires Runs(r, s, run)
    decreases |run|
  {
    run == []
    || (&& (run[0].At? && run[0].t == t ==> Smooth(s.trades[t], run[0].move))
        && SmoothRun(r, Next(s, run[0]), run[1..], t))
  }

  predicate Dealt(s: State, t: nat) { t < |s.trades| ==> s.trades[t].dealt }

  lemma {:induction false} DealtIffSmooth(r: Rules, s: State, run: seq<Action>, t: nat)
    requires Runs(r, s, run)
    ensures Dealt(End(r, s, run), t) <==> Dealt(s, t) && SmoothRun(r, s, run, t)
    decreases |run|
  {
    if run == [] {
    } else {
      var a := run[0];
      if a.At? && a.t == t { DealtStep(s.trades[t], a.move, Net(s, s.trades[t].token)); }
      DealtIffSmooth(r, Next(s, a), run[1..], t);
    }
  }

  /** An entry has to be reconciled exactly when some placement or poll of it went unanswered, or the last poll
      after its cancel did not find the clip over. */
  lemma ReconcileIff(r: Rules, run: seq<Action>, t: nat)
    requires Runs(r, START, run) && t < |End(r, START, run).trades| && End(r, START, run).trades[t].pc.Ended?
    ensures End(r, START, run).trades[t].pc.outcome.ReconcileRequired? <==> !SmoothRun(r, START, run, t)
  {
    DealtIffSmooth(r, START, run, t);
    RunKeeps(r, START, run);
    assert TradeInv(r, End(r, START, run).trades[t]);
  }

  // --- what blocks new entries ---------------------------------------------------------------------

  predicate EndedUnsafe(tr: Trade) { tr.pc.Ended? && Unsafe(tr.pc.outcome) }

  ghost predicate SomeUnsafe(s: State) { exists t :: 0 <= t < |s.trades| && EndedUnsafe(s.trades[t]) }

  lemma EndedStays(tr: Trade, m: Move, net: int)
    requires Can(tr, m) && tr.pc.Ended?
    ensures After(tr, m, net).pc == tr.pc
  {
    if OfBroker(m) {
      SameSeen(tr, m);
    } else {
      ExitFrame(tr, m, net);
    }
  }

  lemma UnsafeStays(s: State, a: Action)
    requires Enabled(s, a) && (s.blocked ==> SomeUnsafe(s))
    ensures Next(s, a).blocked ==> SomeUnsafe(Next(s, a))
  {
    var s' := Next(s, a);
    if s.blocked {
      var t :| 0 <= t < |s.trades| && EndedUnsafe(s.trades[t]);
      if a.At? && a.t == t { EndedStays(s.trades[t], a.move, Net(s, s.trades[t].token)); }
      assert EndedUnsafe(s'.trades[t]);
    } else if s'.blocked {
      assert EndedUnsafe(s'.trades[a.t]);
    }
  }

  lemma {:induction false} BlockedByUnsafe(r: Rules, s: State, run: seq<Action>)
    requires Runs(r, s, run) && (s.blocked ==> SomeUnsafe(s))
    ensures End(r, s, run).blocked ==> SomeUnsafe(End(r, s, run))
    decreases |run|
  {
    if run == [] {
    } else {
      UnsafeStays(s, run[0]);
      BlockedByUnsafe(r, Next(s, run[0]), run[1..]);
    }
  }

  /** New entries are blocked exactly when some entry ended unsafely. */
  lemma BlockedIff(r: Rules, s: State)
    requires CanReach(r, s)
    ensures s.blocked <==> SomeUnsafe(s)
  {
    Reached(r, s);
    var run :| Runs(r, START, run) && End(r, START, run) == s;
    BlockedByUnsafe(r, START, run);
  }

  /** And then none is ever started again. */
  lemma {:induction false} BlockedForGood(r: Rules, s: State, run: seq<Action>)
    requires s.blocked && Runs(r, s, run)
    ensures End(r, s, run).blocked && |End(r, s, run).trades| == |s.trades|
    decreases |run|
  {
    if run == [] {
    } else {
      BlockedForGood(r, Next(s, run[0]), run[1..]);
    }
  }

  // --- entries end ---------------------------------------------------------------------------------

  /** How many steps an entry can still take. */
  function EntryLeft(tr: Trade): nat {
    var more := if |tr.placed| < |tr.clips| then 13 * (|tr.clips| - |tr.placed|) else 0;
    match tr.pc
    case Place => more + 13
    case Poll(left) => more + left + 13
    case Cancel => 13
    case Confirm(left) => left + 4
    case Book => 4
    case Arm => 3
    case PlaceOco => 2
    case Finish => 1
    case Ended(_) => 0
  }

  lemma EntryAdvances(tr: Trade, m: Move)
    requires EntryInv(tr) && Can(tr, m) && OfEntry(m)
    ensures EntryLeft(AfterEntry(tr, m)) < EntryLeft(tr) && AfterEntry(tr, m).clips == tr.clips
  {
    match m
    case DoPlace(reply) => PlaceAdvances(tr, reply);
    case DoPoll(answered) => PollAdvances(tr, answered);
    case _ => LaterAdvances(tr, m);
  }

  lemma PlaceAdvances(tr: Trade, reply: Reply)
    requires EntryInv(tr) && Can(tr, DoPlace(reply))
    ensures var tr' := AfterEntry(tr, DoPlace(reply));
            EntryLeft(tr') < EntryLeft(tr) && tr'.clips == tr.clips
  {
  }

  lemma LaterAdvances(tr: Trade, m: Move)
    requires EntryInv(tr) && Can(tr, m) && OfEntry(m) && !m.DoPlace? && !m.DoPoll?
    ensures EntryLeft(AfterEntry(tr, m)) < EntryLeft(tr) && AfterEntry(tr, m).clips == tr.clips
  {
  }

  lemma PollAdvances(tr: Trade, answered: bool)
    requires EntryInv(tr) && Can(tr, DoPoll(answered))
    ensures EntryLeft(AfterPoll(tr, answered)) < EntryLeft(tr) && AfterPoll(tr, answered).clips == tr.clips
  {
    PollOnly(tr, answered);
    assert |AfterPoll(tr, answered).placed| == |tr.placed|;
  }

  /** No other task moves an entry on. */
  lemma EntryWaits(tr: Trade, m: Move, net: int)
    requires Can(tr, m) && !OfEntry(m)
    ensures EntryLeft(After(tr, m, net)) == EntryLeft(tr) && After(tr, m, net).clips == tr.clips
  {
    if OfBroker(m) {
      SameSeen(tr, m);
    } else {
      ExitFrame(tr, m, net);
    }
  }

  function EntrySteps(run: seq<Action>, t: nat): nat {
    if run == [] then 0
    else EntrySteps(run[1..], t) + if run[0].At? && run[0].t == t && OfEntry(run[0].move) then 1 else 0
  }

  lemma {:induction false} StepsWithin(r: Rules, s: State, run: seq<Action>, t: nat)
    requires Inv(r, s) && Runs(r, s, run) && t < |s.trades|
    ensures t < |End(r, s, run).trades| && End(r, s, run).trades[t].clips == s.trades[t].clips
    ensures EntrySteps(run, t) + EntryLeft(End(r, s, run).trades[t]) <= EntryLeft(s.trades[t])
    decreases |run|
  {
    if run == [] {
    } else {
      var a := run[0];
      if a.At? && a.t == t {
        assert TradeInv(r, s.trades[t]);
        if OfEntry(a.move) { EntryAdvances(s.trades[t], a.move); }
        else { EntryWaits(s.trades[t], a.move, Net(s, s.trades[t].token)); }
      }
      StepKeeps(r, s, a);
      StepsWithin(r, Next(s, a), run[1..], t);
    }
  }

  /** An entry of n clips takes at most 13 n + 13 steps, on any run. */
  lemma {:induction false} EntryIsShort(r: Rules, s: State, run: seq<Action>, t: nat)
    requires Inv(r, s) && Runs(r, s, run) && |s.trades| <= t < |End(r, s, run).trades|
    ensures EntrySteps(run, t) + EntryLeft(End(r, s, run).trades[t]) <= 13 * |End(r, s, run).trades[t].clips| + 13
    decreases |run|
  {
    if run == [] {
    } else {
      var s' := Next(s, run[0]);
      StepKeeps(r, s, run[0]);
      if t < |s'.trades| {
        StartsWithin(s, run[0], t);
        StepsWithin(r, s', run[1..], t);
      } else {
        EntryIsShort(r, s', run[1..], t);
      }
    }
  }

  lemma StartsWithin(s: State, a: Action, t: nat)
    requires Enabled(s, a) && |s.trades| <= t < |Next(s, a).trades|
    ensures a.NewTrade? && EntryLeft(Next(s, a).trades[t]) == 13 * |Next(s, a).trades[t].clips| + 13
  {
  }

  /** Until it has ended, an entry always has a step to take. */
  lemma EntryCanMove(r: Rules, s: State, t: nat) returns (m: Move)
    requires CanReach(r, s) && t < |s.trades| && !s.trades[t].pc.Ended?
    ensures OfEntry(m) && Can(s.trades[t], m) && Allowed(r, s.trades[t], m, Net(s, s.trades[t].token))
  {
    Reached(r, s);
    assert TradeInv(r, s.trades[t]);
    m := match s.trades[t].pc
      case Place => DoPlace(Delivered)
      case Poll(_) => DoPoll(true)
      case Cancel => DoCancel
      case Confirm(_) => DoConfirm(true)
      case Book => DoBook
      case Arm => DoArm(true, true)
      case PlaceOco => DoPlaceOco(Delivered)
      case _ => DoFinish;
  }

  // --- closes end ----------------------------------------------------------------------------------

  /** How many steps a close can still take. */
  function CloseLeft(pc: ClosePc): nat {
    match pc
    case DeleteOco(_) => 16
    case AskNet => 15
    case SendExit => 14
    case PollExit(_, left) => left + 1
    case BookExit => 1
    case ParkExit(_) => 1
    case Returned => 0
  }

  /** The move is a step of the c-th close. */
  predicate OfClose(m: Move, c: nat) {
    match m
    case DoDeleteOco(k, _) => k == c
    case DoAskNet(k, _) => k == c
    case DoSendExit(k, _) => k == c
    case DoPollExit(k, _) => k == c
    case DoBookExit(k) => k == c
    case DoPark(k) => k == c
    case _ => false
  }

  /** What a close polls for is there, and a position one close has returned from is closed or parked. */
  predicate ClosesInv(tr: Trade) {
    && (forall c :: 0 <= c < |tr.closes| && tr.closes[c].PollExit? ==>
          tr.closes[c].left > 0 && tr.closes[c].exit < |tr.exits|)
    && (tr.status.NoPosition? ==> tr.closes == [])
    && (tr.status.Open? ==> forall c :: 0 <= c < |tr.closes| ==> !tr.closes[c].Returned?)
  }

  /** Each of its steps brings a close nearer to its end, and no other step touches it. */
  lemma CloseAdvances(tr: Trade, m: Move, net: int, c: nat)
    requires Can(tr, m) && c < |tr.closes|
    ensures var tr' := After(tr, m, net);
            && c < |tr'.closes|
            && if OfClose(m, c) then CloseLeft(tr'.closes[c]) < CloseLeft(tr.closes[c])
               else tr'.closes[c] == tr.closes[c]
  {
    if OfEntry(m) {
      ClosesOfEntry(tr, m);
    } else if OfBroker(m) {
    } else {
      ClosesOfExit(tr, m, net, c);
    }
  }

  lemma ClosesOfEntry(tr: Trade, m: Move)
    requires Can(tr, m) && OfEntry(m)
    ensures AfterEntry(tr, m).closes == tr.closes && AfterEntry(tr, m).exits == tr.exits
  {
    if m.DoPoll? { PollOnly(tr, m.answered); }
  }

  lemma ClosesOfExit(tr: Trade, m: Move, net: int, c: nat)
    requires Can(tr, m) && !OfEntry(m) && !OfBroker(m) && c < |tr.closes|
    ensures var tr' := AfterExit(tr, m, net);
            && c < |tr'.closes|
            && if OfClose(m, c) then CloseLeft(tr'.closes[c]) < CloseLeft(tr.closes[c])
               else tr'.closes[c] == tr.closes[c]
  {
    match m
    case StartClose =>
    case DoDeleteOco(k, done) =>
    case DoAskNet(k, answered) =>
    case DoSendExit(k, reply) =>
    case DoPollExit(k, answered) =>
    case DoBookExit(k) =>
    case DoPark(k) =>
    case _ =>
  }

  lemma ClosesKept(tr: Trade, m: Move, net: int)
    requires EntryInv(tr) && ClosesInv(tr) && Can(tr, m)
    ensures ClosesInv(After(tr, m, net))
  {
    if OfEntry(m) {
      ClosesOfEntry(tr, m);
      ClosesKeptByEntry(tr, m);
    } else if OfBroker(m) {
      ClosesKeptByBroker(tr, m);
    } else {
      StatusFrame(tr, m, net);
      ClosesKeptByExit(tr, m, net);
    }
  }

  lemma ClosesKeptByEntry(tr: Trade, m: Move)
    requires EntryInv(tr) && ClosesInv(tr) && Can(tr, m) && OfEntry(m)
    requires AfterEntry(tr, m).closes == tr.closes && AfterEntry(tr, m).exits == tr.exits
    ensures ClosesInv(AfterEntry(tr, m))
  {
    if m.DoPlace? || m.DoPoll? || m.DoCancel? || m.DoConfirm? { ClipsOnly(tr, m); }
  }

  lemma ClosesKeptByBroker(tr: Trade, m: Move)
    requires ClosesInv(tr) && Can(tr, m) && OfBroker(m)
    ensures ClosesInv(AfterBroker(tr, m))
  {
    assert AfterBroker(tr, m).closes == tr.closes && AfterBroker(tr, m).status == tr.status;
  }

  lemma ClosesKeptByExit(tr: Trade, m: Move, net: int)
    requires ClosesInv(tr) && Can(tr, m) && !OfEntry(m) && !OfBroker(m)
    ensures ClosesInv(AfterExit(tr, m, net))
  {
    if m.DoSendExit? || m.DoPollExit? {
      ClosesKeptByOrder(tr, m, net);
    } else if m.DoBookExit? || m.DoPark? {
      ClosesKeptByBooking(tr, m, net);
    } else {
      match m
      case StartClose =>
      case DoDeleteOco(c, done) =>
      case DoAskNet(c, answered) =>
      case _ =>
    }
  }

  lemma ClosesKeptByOrder(tr: Trade, m: Move, net: int)
    requires ClosesInv(tr) && Can(tr, m) && (m.DoSendExit? || m.DoPollExit?)
    ensures ClosesInv(AfterExit(tr, m, net))
  {
    assert AfterExit(tr, m, net).status == tr.status && |AfterExit(tr, m, net).exits| >= |tr.exits|;
  }

  lemma ClosesKeptByBooking(tr: Trade, m: Move, net: int)
    requires ClosesInv(tr) && Can(tr, m) && (m.DoBookExit? || m.DoPark?)
    ensures ClosesInv(AfterExit(tr, m, net))
  {
    assert AfterExit(tr, m, net).exits == tr.exits;
  }

  lemma {:induction false} ClosesKeptByRun(r: Rules, s: State, run: seq<Action>, t: nat)
    requires Inv(r, s) && Runs(r, s, run) && IfThere(s, t, ClosesInv)
    ensures IfThere(End(r, s, run), t, ClosesInv)
    decreases |run|
  {
    if run == [] {
    } else {
      var a := run[0];
      if a.At? && a.t == t {
        assert TradeInv(r, s.trades[t]);
        ClosesKept(s.trades[t], a.move, Net(s, s.trades[t].token));
      }
      StepKeeps(r, s, a);
      ClosesKeptByRun(r, Next(s, a), run[1..], t);
    }
  }

  /** In every reachable state a close that has not returned has a step to take, and a position from whose close one
      has returned is closed or parked. */
  lemma CloseCanMove(r: Rules, s: State, t: nat, c: nat)
    requires CanReach(r, s) && t < |s.trades| && c < |s.trades[t].closes|
    ensures if s.trades[t].closes[c].Returned? then s.trades[t].status.Closed? || s.trades[t].status.ClosePending?
            else exists m :: OfClose(m, c) && Can(s.trades[t], m)
  {
    var run :| Runs(r, START, run) && End(r, START, run) == s;
    ClosesKeptByRun(r, START, run, t);
    var tr := s.trades[t];
    var m := match tr.closes[c]
      case DeleteOco(_) => DoDeleteOco(c, true)
      case AskNet => DoAskNet(c, true)
      case SendExit => DoSendExit(c, Delivered)
      case PollExit(_, _) => DoPollExit(c, true)
      case BookExit => DoBookExit(c)
      case _ => DoPark(c);
    assert tr.closes[c].Returned? || (OfClose(m, c) && Can(tr, m));
  }

  // --- parked exits ----------------------------------------------------------------------------

  /** A parked position, with no close of it running and none of its exits being settled. */
  predicate AtRest(tr: Trade) { tr.status.ClosePending? && AllReturned(tr.closes) && !tr.settling }

  /** Its exit order is known, and COMPLETE or still working. */
  predicate MayComplete(tr: Trade) requires tr.status.ClosePending? {
    && tr.status.exit.Some? && tr.status.exit.value < |tr.exits|
    && (tr.exits[tr.status.exit.value].status.Complete? || tr.exits[tr.status.exit.value].status.Working?)
  }

  predicate NeverResolved(tr: Trade) { AtRest(tr) && !MayComplete(tr) }

  lemma NeverResolvedStays(tr: Trade, m: Move, net: int)
    requires EntryInv(tr) && NeverResolved(tr) && Can(tr, m)
    ensures NeverResolved(After(tr, m, net))
  {
    if OfEntry(m) {
      ClosesOfEntry(tr, m);
      if m.DoPlace? || m.DoPoll? || m.DoCancel? || m.DoConfirm? { ClipsOnly(tr, m); }
    } else if OfBroker(m) {
      NeverResolvedByBroker(tr, m);
    } else {
      assert m.DoReadPending? || m.DoReconcileBracket?;
    }
  }

  lemma NeverResolvedByBroker(tr: Trade, m: Move)
    requires NeverResolved(tr) && Can(tr, m) && OfBroker(m)
    ensures NeverResolved(AfterBroker(tr, m))
  {
    match m
    case OcoFires =>
    case BrokerMoves(ref, now) =>
      match ref {
        case ClipRef(k) =>
        case LegRef =>
        case ExitRef(k) =>
      }
  }

  lemma {:induction false} NeverResolvedOnRun(r: Rules, s: State, run: seq<Action>, t: nat)
    requires Inv(r, s) && t < |s.trades| && NeverResolved(s.trades[t]) && Runs(r, s, run)
    ensures t < |End(r, s, run).trades| && NeverResolved(End(r, s, run).trades[t])
    decreases |run|
  {
    if run == [] {
    } else {
      var a := run[0];
      assert TradeInv(r, s.trades[t]);
      if a.At? && a.t == t { NeverResolvedStays(s.trades[t], a.move, Net(s, s.trades[t].token)); }
      StepKeeps(r, s, a);
      NeverResolvedOnRun(r, Next(s, a), run[1..], t);
    }
  }

  ghost predicate CanClose(r: Rules, s: State, t: nat) {
    exists run :: Runs(r, s, run) && t < |End(r, s, run).trades| && End(r, s, run).trades[t].status.Closed?
  }

  lemma ClosesAfter(r: Rules, s: State, a: Action, t: nat)
    requires Enabled(s, a) && Obeys(r, s, a) && CanClose(r, Next(s, a), t)
    ensures CanClose(r, s, t)
  {
    var run :| Runs(r, Next(s, a), run) && t < |End(r, Next(s, a), run).trades|
               && End(r, Next(s, a), run).trades[t].status.Closed?;
    assert ([a] + run)[1..] == run;
    assert Runs(r, s, [a] + run) && End(r, s, [a] + run) == End(r, Next(s, a), run);
  }

  lemma ClosedAlready(r: Rules, s: State, t: nat)
    requires t < |s.trades| && s.trades[t].status.Closed?
    ensures CanClose(r, s, t)
  {
    assert Runs(r, s, []) && End(r, s, []) == s;
  }

  /** A COMPLETE exit is resolved in two steps. */
  lemma CompleteResolves(r: Rules, s: State, t: nat)
    requires t < |s.trades| && s.trades[t].status.ClosePending? && s.trades[t].status.exit.Some?
    requires var tr := s.trades[t];
             tr.status.exit.value < |tr.exits| && tr.exits[tr.status.exit.value].status.Complete?
    ensures CanClose(r, s, t)
  {
    var read := Next(s, At(t, DoReadPending));
    assert read.trades[t] == s.trades[t].(settling := true);
    var done := Next(read, At(t, DoSettlePending));
    ClosedAlready(r, done, t);
    ClosesAfter(r, read, At(t, DoSettlePending), t);
    ClosesAfter(r, s, At(t, DoReadPending), t);
  }

  /** A parked position with no close running can still be closed, by some run, exactly if its exit order is known and
      neither rejected nor cancelled; under no rule does any run close it otherwise. */
  lemma ParkedClosesIff(r: Rules, s: State, t: nat)
    requires CanReach(r, s) && t < |s.trades| && AtRest(s.trades[t])
    ensures CanClose(r, s, t) <==> MayComplete(s.trades[t])
  {
    Reached(r, s);
    var tr := s.trades[t];
    assert TradeInv(r, tr);
    if !MayComplete(tr) {
      if CanClose(r, s, t) {
        var run :| Runs(r, s, run) && t < |End(r, s, run).trades| && End(r, s, run).trades[t].status.Closed?;
        NeverResolvedOnRun(r, s, run, t);
      }
    } else if tr.exits[tr.status.exit.value].status.Complete? {
      CompleteResolves(r, s, t);
    } else {
      WorkingResolves(r, s, t);
    }
  }

  lemma WorkingResolves(r: Rules, s: State, t: nat)
    requires t < |s.trades| && s.trades[t].status.ClosePending? && MayComplete(s.trades[t]) && ExitsOk(s.trades[t])
    requires s.trades[t].exits[s.trades[t].status.exit.value].status.Working?
    ensures CanClose(r, s, t)
  {
    var k := s.trades[t].status.exit.value;
    var o := s.trades[t].exits[k];
    var a := At(t, BrokerMoves(ExitRef(k), Order(o.qty, o.qty, Complete)));
    assert Next(s, a).trades[t].exits[k].status.Complete?;
    CompleteResolves(r, Next(s, a), t);
    ClosesAfter(r, s, a, t);
  }

  /** A close parks its position without an order exactly where a call of it was not answered; on an answered poll
      it books a COMPLETE exit of the whole position, and parks any other that has ended, or outlasted its polls,
      with its id. */
  lemma ExitPollLeads(tr: Trade, c: nat, answered: bool, net: int)
    requires Can(tr, DoPollExit(c, answered))
    ensures var k, now := tr.closes[c].exit, After(tr, DoPollExit(c, answered), net).closes[c];
            && (now == ParkExit(None) <==> !answered)
            && (now == BookExit <==> answered && tr.exits[k].status.Complete? && tr.exits[k].filled >= tr.qty)
            && (answered && now != BookExit ==>
                  if !Terminal(tr.exits[k].status) && tr.closes[c].left > 1
                  then now == PollExit(k, tr.closes[c].left - 1)
                  else now == ParkExit(Some(k)))
  {
  }

  /** An exit whose order outlasts its polls is parked so that it can still be resolved. */
  lemma OutlastedIsParkedWithId(tr: Trade, c: nat, net: int, net': int)
    requires Can(tr, DoPollExit(c, true)) && tr.exits[tr.closes[c].exit].status.Working? && tr.closes[c].left == 1
    ensures var polled := After(tr, DoPollExit(c, true), net);
            && Can(polled, DoPark(c))
            && After(polled, DoPark(c), net').status == ClosePending(Some(tr.closes[c].exit))
            && MayComplete(After(polled, DoPark(c), net'))
  {
    ExitPollLeads(tr, c, true, net);
  }

  // --- an OCO whose id was lost ----------------------------------------------------------------------

  const UNKNOWN := Resting(false, false)

  lemma UnknownRests(tr: Trade, m: Move, net: int)
    requires EntryInv(tr) && tr.bracket == UNKNOWN && Can(tr, m)
    ensures m == OcoFires || After(tr, m, net).bracket == UNKNOWN
  {
    if OfEntry(m) {
      if m.DoPlace? || m.DoPoll? || m.DoCancel? || m.DoConfirm? { ClipsOnly(tr, m); }
    } else if OfBroker(m) {
      UnknownThroughBroker(tr, m);
    } else {
      UnknownThroughExit(tr, m, net);
    }
  }

  lemma UnknownThroughBroker(tr: Trade, m: Move)
    requires tr.bracket == UNKNOWN && Can(tr, m) && OfBroker(m)
    ensures m == OcoFires || AfterBroker(tr, m).bracket == UNKNOWN
  {
  }

  lemma UnknownThroughExit(tr: Trade, m: Move, net: int)
    requires tr.bracket == UNKNOWN && Can(tr, m) && !OfEntry(m) && !OfBroker(m)
    ensures AfterExit(tr, m, net).bracket == UNKNOWN
  {
    if !m.DoDeleteOco? && !m.DoReconcileBracket? { assert AfterExit(tr, m, net).bracket == tr.bracket; }
  }

  lemma {:induction false} UnknownOnRun(r: Rules, s: State, run: seq<Action>, t: nat)
    requires Inv(r, s) && t < |s.trades| && s.trades[t].bracket == UNKNOWN
    requires Runs(r, s, run) && At(t, OcoFires) !in run
    ensures t < |End(r, s, run).trades| && End(r, s, run).trades[t].bracket == UNKNOWN
    decreases |run|
  {
    if run == [] {
    } else {
      var a := run[0];
      assert TradeInv(r, s.trades[t]) && a in run;
      if a.At? && a.t == t { UnknownRests(s.trades[t], a.move, Net(s, s.trades[t].token)); }
      StepKeeps(r, s, a);
      assert At(t, OcoFires) !in run[1..];
      UnknownOnRun(r, Next(s, a), run[1..], t);
    }
  }

  /** An OCO that was placed but whose answer was lost is known to nobody: on no run is it ever removed, and it
      rests until it fires. */
  lemma LostOcoRests(r: Rules, s: State, run: seq<Action>, t: nat)
    requires CanReach(r, s) && t < |s.trades| && Can(s.trades[t], DoPlaceOco(AnswerLost))
    requires Runs(r, Next(s, At(t, DoPlaceOco(AnswerLost))), run) && At(t, OcoFires) !in run
    ensures var e := End(r, Next(s, At(t, DoPlaceOco(AnswerLost))), run);
            t < |e.trades| && e.trades[t].bracket.Resting? && !e.trades[t].bracket.known
  {
    var a := At(t, DoPlaceOco(AnswerLost));
    Push(r, s, a);
    Reached(r, Next(s, a));
    UnknownOnRun(r, Next(s, a), run, t);
  }
}
