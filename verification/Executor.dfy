/** execution/executor.py over the mock broker, one call at a time: what `_execute_live`, `close`,
    `resolve_pending_closes` and `reconcile_brackets` leave behind, whichever requests fail. */
module Executor {
  import opened Options
  import opened OrderPolicy
  import opened Broker
  import opened Guards
  import opened PositionBook
  import opened Settlement

  function Repeat(clip: int, n: nat): seq<int> { if n == 0 then [] else Repeat(clip, n - 1) + [clip] }

  /** `_slice`: whole clips, then what is left. */
  function Slice(quantity: int, clip: int): seq<int> {
    if clip <= 0 || quantity <= clip then [quantity]
    else Repeat(clip, quantity / clip) + if quantity % clip != 0 then [quantity % clip] else []
  }

  function SumOf(clips: seq<int>): int {
    if clips == [] then 0 else SumOf(clips[..|clips| - 1]) + clips[|clips| - 1]
  }

  lemma {:induction false} RepeatIs(clip: int, n: nat)
    ensures |Repeat(clip, n)| == n && forall k :: 0 <= k < n ==> Repeat(clip, n)[k] == clip
  {
    if n == 0 {
    } else {
      RepeatIs(clip, n - 1);
    }
  }

  lemma {:induction false} RepeatSum(clip: int, n: nat)
    ensures SumOf(Repeat(clip, n)) == n * clip
  {
    if n == 0 {
    } else {
      RepeatSum(clip, n - 1);
      OneMoreClip(clip, n);
      RepeatIs(clip, n - 1);
      assert Repeat(clip, n)[..n - 1] == Repeat(clip, n - 1);
    }
  }

  lemma OneMoreClip(clip: int, n: nat)
    ensures n * clip == (n - 1) * clip + clip
  {
  }

  lemma WholeAndRest(quantity: int, clip: int, whole: int, rest: int)
    requires clip > 0 && whole == quantity / clip && rest == quantity % clip
    ensures whole * clip + rest == quantity && 0 <= rest < clip
    ensures quantity >= 0 ==> whole >= 0
  {
  }

  /** The clips add up to the request, none exceeds the freeze limit and all but the last come to it, and all are
      positive when the request is. */
  lemma SliceCovers(quantity: int, clip: int)
    ensures var clips := Slice(quantity, clip);
            && clips != [] && SumOf(clips) == quantity
            && (forall k :: 0 <= k < |clips| ==> (quantity > 0 ==> clips[k] > 0) && (clip > 0 ==> clips[k] <= clip))
            && (forall k :: 0 <= k < |clips| - 1 ==> clips[k] == clip)
  {
    if clip <= 0 || quantity <= clip {
      assert [quantity][..0] == [];
    } else {
      var whole, rest := quantity / clip, quantity % clip;
      WholeAndRest(quantity, clip, whole, rest);
      RepeatSum(clip, whole);
      RepeatIs(clip, whole);
      var clips := Repeat(clip, whole);
      if rest != 0 {
        assert (clips + [rest])[..whole] == clips;
      } else {
        assert clips + [] == clips && whole != 0;
      }
    }
  }

  function Fills(rows: seq<Row>): nat {
    if rows == [] then 0 else Fills(rows[..|rows| - 1]) + rows[|rows| - 1].order.filled
  }

  datatype Decision = Decision(
    token: int, long: bool, quantity: int, supported: bool, metaOk: bool, levels: Levels, configured: bool)

  /** An entry with both levels rests them at the broker. */
  predicate RestsOco(d: Decision) { d.configured && d.levels.stop != 0.0 && d.levels.target != 0.0 }

  /** What rests at the broker once an entry has been bracketed: an OCO for its fill, if both levels are set and the
      request arrived. */
  function WithOco(d: Decision, filled: nat, gtts: map<nat, nat>, gtt: nat, reply: Reply): map<nat, nat> {
    if RestsOco(d) && !reply.Lost? then gtts[gtt := filled] else gtts
  }

  /** The OCO whose id the entry knows, if both levels are set and the request was answered. */
  function NamedOco(d: Decision, gtt: nat, reply: Reply): Option<nat> {
    if RestsOco(d) && reply.Delivered? then Some(gtt) else None
  }

  function BracketFor(pid: nat, gtt: Option<nat>): seq<BracketRow> {
    if gtt.Some? then [BracketRow(pid, gtt, true)] else []
  }

  /** An order after the k-th call, a poll of it. */
  function PolledRow(r: Row, replies: nat -> Reply, k: nat): Row { if replies(k).Lost? then r else Advanced(r) }

  /** An order that n answered polls have not found finished; `last` is what the last of them saw filled. */
  predicate StillWorking(was: Row, r: Row, n: nat, last: nat, replies: nat -> Reply, first: nat) {
    && Later(was, r) && r.polls >= was.polls + n && Answered(replies, first, first + n)
    && (n > 0 ==> r.order.status.Working? && r.order.filled == last)
  }

  /** One more poll. */
  lemma PolledAgain(was: Row, r: Row, n: nat, last: nat, attempts: nat, replies: nat -> Reply, first: nat)
    requires StillWorking(was, r, n, last, replies, first) && n < attempts
    ensures var next, o := PolledRow(r, replies, first + n), PolledRow(r, replies, first + n).order;
            if !replies(first + n).Delivered? then PollEnds(was, next, None, attempts, replies, first, first + n + 1)
            else if Terminal(o.status)
            then PollEnds(was, next, Some(Polled(Some(o.status), o.filled)), attempts, replies, first, first + n + 1)
            else StillWorking(was, next, n + 1, o.filled, replies, first)
  {
    StaysLater(was, r);
  }

  /** What eight polls for a dead order tell: confirmed exactly if the last of them was answered and found it
      terminal. An order whose fill is final stays as it is, and is confirmed exactly if it is dead and any of them
      is answered. */
  ghost predicate SeenDead(was: Row, now: Row, confirmed: bool, replies: nat -> Reply, first: nat, last: nat) {
    && Holds(was, now) && first < last <= first + 8 && (!confirmed ==> last == first + 8)
    && (confirmed <==> replies(last - 1).Delivered? && Terminal(now.order.status))
    && (Settled(was) ==>
          && now.order == was.order
          && (confirmed <==> Terminal(now.order.status) && SomeAnswered(replies, first, first + 8)))
  }

  /** No poll up to here was answered and found the order terminal. */
  ghost predicate NotSeenDead(was: Row, now: Row, replies: nat -> Reply, first: nat, last: nat) {
    && Holds(was, now) && first <= last
    && (first < last ==> !(replies(last - 1).Delivered? && Terminal(now.order.status)))
    && (Settled(was) ==>
          && Settled(now) && now.order == was.order
          && (Terminal(now.order.status) ==> !SomeAnswered(replies, first, last)))
  }

  lemma AskedAgain(was: Row, row: Row, replies: nat -> Reply, first: nat, last: nat)
    requires NotSeenDead(was, row, replies, first, last) && last < first + 8
    ensures var now := PolledRow(row, replies, last);
            if replies(last).Delivered? && Terminal(now.order.status)
            then SeenDead(was, now, true, replies, first, last + 1)
            else NotSeenDead(was, now, replies, first, last + 1)
  {
    StaysHeld(was, row);
    if Settled(was) { SettledStays(row); }
    assert replies(last).Delivered? ==> SomeAnswered(replies, first, first + 8);
  }

  lemma NeverSeenDead(was: Row, now: Row, replies: nat -> Reply, first: nat)
    requires NotSeenDead(was, now, replies, first, first + CONFIRM_ATTEMPTS)
    ensures SeenDead(was, now, false, replies, first, first + CONFIRM_ATTEMPTS)
  {
  }

  /** What `_poll_order` reports: a terminal status, or a timeout. */
  datatype Polled = Polled(status: Option<Status>, filled: nat)

  function Final(s: Status): Option<Status> { if Terminal(s) then Some(s) else None }

  /** A polling that is answered throughout, and no other, reports the order as it then is; it times out only after
      all its polls. */
  predicate PollEnds(was: Row, now: Row, st: Option<Polled>, attempts: nat, replies: nat -> Reply, first: nat,
                     last: nat)
  {
    && Later(was, now) && first < last <= first + attempts && (st.Some? <==> Answered(replies, first, last))
    && (st.Some? ==>
          && st.value.filled == now.order.filled && st.value.status == Final(now.order.status)
          && (now.order.status.Working? ==> now.polls >= was.polls + attempts))
  }

  datatype EntryResult = Refused | Entered(outcome: EntryOutcome, filled: nat, pid: Option<nat>)

  class Executor {
    const gateway: Gateway
    const book: PositionBook
    const guards: GuardManager
    const clip: int                       // execution.freeze_quantity.default_clip, 0 when absent
    var blockNewEntries: bool

    ghost predicate Valid() reads this, gateway, gateway.orders, book, guards {
      gateway.Valid() && guards.Valid()
    }

    function FreezeLimit(): int { if clip != 0 then clip else 1000000000 }

    constructor (gateway: Gateway, book: PositionBook, guards: GuardManager, clip: int)
      requires gateway.Valid() && guards.Valid()
      ensures Valid() && this.gateway == gateway && this.book == book && this.guards == guards
    {
      this.gateway, this.book, this.guards, this.clip := gateway, book, guards, clip;
      blockNewEntries := false;
    }

    /** One poll of an order: the last row of its history. */
    method Poll(oid: nat) returns (seen: Option<Order>)
      requires gateway.Valid() && oid < |gateway.orders|
      modifies gateway`calls, gateway.orders[oid]
      ensures gateway.Valid() && gateway.calls == old(gateway.calls) + 1
      ensures var was, now := old(gateway.Table()), gateway.Table();
              && |now| == |was| && now == was[oid := now[oid]]
              && now[oid] == PolledRow(was[oid], gateway.replies, old(gateway.calls))
      ensures seen == if gateway.replies(old(gateway.calls)).Delivered? then Some(gateway.Table()[oid].order) else None
    {
      var hist := gateway.History(oid);
      seen := if hist.Some? then Some(hist.value[|hist.value| - 1]) else None;
    }

    /** Polls an order until it is terminal. A timeout reports the fill of the last poll; a failed call
        reports nothing. */
    method PollOrder(oid: nat, attempts: nat) returns (st: Option<Polled>)
      requires gateway.Valid() && oid < |gateway.orders| && attempts > 0
      modifies gateway`calls, gateway.orders[oid]
      ensures gateway.Valid()
      ensures var was, now := old(gateway.Table()), gateway.Table();
              && |now| == |was| && now == was[oid := now[oid]]
              && PollEnds(was[oid], now[oid], st, attempts, gateway.replies, old(gateway.calls), gateway.calls)
    {
      var last := 0;
      var i := 0;
      ghost var was, first := gateway.Table(), gateway.calls;
      ghost var row, start := was[oid], was[oid];
      assert gateway.orders[oid].Valid() && Later(row, row);
      while i < attempts
        invariant 0 <= i <= attempts && gateway.Valid() && gateway.calls == first + i
        invariant gateway.Table() == was[oid := row] && StillWorking(start, row, i, last, gateway.replies, first)
      {
        ghost var next := PolledRow(row, gateway.replies, first + i);
        PolledAgain(start, row, i, last, attempts, gateway.replies, first);
        var seen := Poll(oid);
        row := next;
        if seen.None? {
          return None;
        }
        if Terminal(seen.value.status) {
          return Some(Polled(Some(seen.value.status), seen.value.filled));
        }
        last := seen.value.filled;
        i := i + 1;
      }
      st := Some(Polled(None, last));
    }

    /** Polls for a dead order, up to eight times; a poll that fails is only one spent. */
    method ConfirmDead(oid: nat) returns (confirmed: bool)
      requires gateway.Valid() && oid < |gateway.orders|
      modifies gateway`calls, gateway.orders[oid]
      ensures gateway.Valid()
      ensures var was, now := old(gateway.Table()), gateway.Table();
              && |now| == |was| && now == was[oid := now[oid]]
              && SeenDead(was[oid], now[oid], confirmed, gateway.replies, old(gateway.calls), gateway.calls)
    {
      ghost var was, first := gateway.Table(), gateway.calls;
      ghost var row, start := was[oid], was[oid];
      assert gateway.orders[oid].Valid() && Holds(row, row);
      confirmed := false;
      for i := 0 to CONFIRM_ATTEMPTS
        invariant gateway.Valid() && gateway.Table() == was[oid := row] && gateway.calls == first + i
        invariant NotSeenDead(start, row, gateway.replies, first, first + i)
      {
        ghost var next := PolledRow(row, gateway.replies, first + i);
        AskedAgain(start, row, gateway.replies, first, first + i);
        var seen := Poll(oid);
        row := next;
        if seen.Some? && Terminal(seen.value.status) {
          return true;
        }
      }
      NeverSeenDead(start, row, gateway.replies, first);
    }

    /** Cancels, then polls for a dead order; an unconfirmed cancel is never assumed. For an order whose fill is
        final: it is dead exactly unless it was still working and the cancel was lost, and that is confirmed exactly
        when one of eight polls is answered. */
    method CancelAndConfirm(oid: nat) returns (confirmed: bool)
      requires gateway.Valid() && oid < |gateway.orders|
      modifies gateway`calls, gateway.orders[oid]
      ensures gateway.Valid() && gateway.calls >= old(gateway.calls) + 2
      ensures var was, now := old(gateway.Table()), gateway.Table();
              && |now| == |was| && now == was[oid := now[oid]] && Holds(was[oid], now[oid])
              && (confirmed ==> Terminal(now[oid].order.status))
      ensures var was, now, first := old(gateway.Table())[oid], gateway.Table()[oid], old(gateway.calls);
              Settled(was) ==>
                && now.order == (if gateway.replies(first).Lost? then was.order else CancelledRow(was).order)
                && (confirmed <==> Terminal(now.order.status) && SomeAnswered(gateway.replies, first + 1, first + 9))
    {
      ghost var row := gateway.Table()[oid];
      assert gateway.orders[oid].Valid() && Holds(row, row);
      StaysHeld(row, row);
      if Settled(row) { SettledStays(row); }
      var _ := gateway.Cancel(oid);
      ghost var mid := gateway.Table()[oid];
      confirmed := ConfirmDead(oid);
      StillHeld(row, mid, gateway.Table()[oid]);
    }

    /** One turn of the clip loop: place, poll, and cancel what is left. `go` asks for the next clip; `sent` is the
        order, if it reached the broker, and `polled` counts the calls up to the last poll of it. */
    method WorkClip(token: int, buy: bool, qty: nat)
      returns (filled: nat, go: bool, dealt: bool, ghost sent: seq<Row>, ghost polled: nat)
      requires gateway.Valid() && qty > 0
      modifies gateway`calls, gateway`orders
      ensures gateway.Valid() && old(gateway.orders) <= gateway.orders
      ensures forall i :: |old(gateway.orders)| <= i < |gateway.orders| ==> fresh(gateway.orders[i])
      ensures gateway.Table() == old(gateway.Table()) + sent
      ensures ClipEnds(sent, token, buy, qty, filled, go, dealt)
      ensures old(gateway.calls) < polled <= gateway.calls
      ensures ClipDecided(sent, qty, filled, go, dealt, gateway.replies, old(gateway.calls), polled, gateway.calls)
    {
      ghost var was := gateway.Table();
      filled, go, dealt, sent := 0, false, false, [];
      var oid := gateway.Place(token, buy, qty);
      sent, polled := gateway.Table()[|was|..], gateway.calls;
      if oid.None? {
        return;
      }
      var st := PollOrder(oid.value, POLL_ATTEMPTS);
      sent, polled := [gateway.Table()[|was|]], gateway.calls;
      if st.None? {
        return;
      }
      filled := st.value.filled;
      if st.value.status == Some(Complete) {
        go, dealt := true, true;
        return;
      }
      dealt := true;
      if st.value.status.Some? && st.value.status.value.Rejected? && !st.value.status.value.transient {
        return;
      }
      if filled < qty {
        dealt := CancelAndConfirm(oid.value);
        sent := [gateway.Table()[|was|]];
      }
    }

    /** The clip loop: each clip only after the one before it is COMPLETE, and always after it. */
    method WorkClips(token: int, buy: bool, clips: seq<int>)
      returns (filled: nat, dealt: bool, ghost placed: seq<Row>, ghost polled: nat)
      requires gateway.Valid() && clips != [] && forall k :: 0 <= k < |clips| ==> clips[k] > 0
      modifies gateway`calls, gateway`orders
      ensures gateway.Valid() && old(gateway.orders) <= gateway.orders
      ensures forall i :: |old(gateway.orders)| <= i < |gateway.orders| ==> fresh(gateway.orders[i])
      ensures gateway.Table() == old(gateway.Table()) + placed
      ensures ClipsEnd(placed, token, buy, clips, filled, dealt)
      ensures dealt && AllComplete(placed) ==> |placed| == |clips|
      ensures Answered(gateway.replies, old(gateway.calls), gateway.calls) ==> dealt
      ensures Answered(gateway.replies, old(gateway.calls), polled) ==> filled == Fills(placed)
      ensures old(gateway.calls) <= polled <= gateway.calls
    {
      filled, dealt, placed := 0, true, [];
      var go, i := true, 0;
      ghost var first, was := gateway.calls, gateway.Table();
      polled := first;
      while go && i < |clips|
        invariant 0 <= i <= |clips| && gateway.Valid() && old(gateway.orders) <= gateway.orders
        invariant forall i :: |old(gateway.orders)| <= i < |gateway.orders| ==> fresh(gateway.orders[i])
        invariant gateway.Table() == was + placed
        invariant ClipLoop(placed, token, buy, clips, filled, dealt, go, i, gateway.replies, first, polled,
                           gateway.calls)
        decreases |clips| - i
      {
        filled, go, dealt, placed, polled := NextClip(token, buy, clips, i, filled, was, placed, first, polled);
        i := i + 1;
      }
    }

    /** One more turn of the loop, over all that was placed before it. */
    method NextClip(token: int, buy: bool, clips: seq<int>, i: nat, before: nat, ghost was: seq<Row>,
                    ghost done: seq<Row>, ghost first: nat, ghost last: nat)
      returns (filled: nat, go: bool, dealt: bool, ghost placed: seq<Row>, ghost polled: nat)
      requires gateway.Valid() && i < |clips| && clips[i] > 0 && gateway.Table() == was + done
      requires ClipLoop(done, token, buy, clips, before, true, true, i, gateway.replies, first, last, gateway.calls)
      modifies gateway`calls, gateway`orders
      ensures gateway.Valid() && old(gateway.orders) <= gateway.orders
      ensures forall i :: |old(gateway.orders)| <= i < |gateway.orders| ==> fresh(gateway.orders[i])
      ensures gateway.Table() == was + placed
      ensures ClipLoop(placed, token, buy, clips, filled, dealt, go, i + 1, gateway.replies, first, polled,
                       gateway.calls)
    {
      ghost var calls := gateway.calls;
      var cf, more, dead, sent, asked := WorkClip(token, buy, clips[i]);
      filled, go, dealt, placed, polled := before + cf, more, dead, done + sent, asked;
      ClipTurn(done, sent, token, buy, clips, before, cf, more, dead, i, gateway.replies, first, last, calls, asked,
               gateway.calls);
    }

    /** Tries to rest an OCO sized to the fill; its id is kept if the answer arrives. */
    method RestOco(pid: nat, filled: nat)
      requires Valid() && pid < |book.positions|
      modifies gateway`calls, gateway`gtts, gateway`nextGtt, book
      ensures Valid() && gateway.Table() == old(gateway.Table()) && gateway.calls >= old(gateway.calls)
      ensures var gtt, reply := old(gateway.nextGtt), gateway.replies(old(gateway.calls));
              && gateway.gtts == (if reply.Lost? then old(gateway.gtts) else old(gateway.gtts)[gtt := filled])
              && Rested(pid, old(book.positions), old(book.brackets), if reply.Delivered? then Some(gtt) else None)
    {
      var gtt := gateway.PlaceOco(filled);
      if gtt.Some? {
        book.AttachBracket(pid, gtt.value);
      }
    }

    /** The position and its bracket row name the OCO, if its id is known; nothing else of the book differs. */
    ghost predicate Rested(pid: nat, ps: seq<Position>, rows: seq<BracketRow>, gtt: Option<nat>)
      requires pid < |ps|
      reads book
    {
      && book.positions == (if gtt.Some? then ps[pid := ps[pid].(gtt := gtt)] else ps)
      && book.brackets == rows + if gtt.Some? then [BracketRow(pid, gtt, true)] else []
    }

    /** `create_bracket`: arms the guard first, then tries to rest the OCO. */
    method CreateBracket(d: Decision, pid: nat, filled: nat) returns (ok: bool)
      requires Valid() && pid < |book.positions|
      modifies gateway`calls, gateway`gtts, gateway`nextGtt, book, guards
      ensures Valid() && ok == d.configured
      ensures gateway.Table() == old(gateway.Table()) && gateway.calls >= old(gateway.calls)
      ensures ok ==> pid in guards.guards && fresh(guards.guards[pid]) && guards.guards[pid].View() == d.levels
      ensures guards.guards == if ok then old(guards.guards)[pid := guards.guards[pid]] else old(guards.guards)
      ensures var asked, reply := RestsOco(d), gateway.replies(old(gateway.calls));
              var gtt := old(gateway.nextGtt);
              && gateway.gtts == WithOco(d, filled, old(gateway.gtts), gtt, reply)
              && Rested(pid, old(book.positions), old(book.brackets),
                        if asked && reply.Delivered? then Some(gtt) else None)
    {
      ok := d.configured;
      if !d.configured {
        return;
      }
      var guard := new Guard(pid, d.token, d.levels);
      guards.Arm(guard);
      if RestsOco(d) {
        RestOco(pid, filled);
      }
    }

    /** Books a fill as one open position of exactly that quantity, then protects it. */
    method BookFill(d: Decision, filled: nat) returns (pid: nat, bracketOk: bool)
      requires Valid()
      modifies gateway`calls, gateway`gtts, gateway`nextGtt, book, guards
      ensures Valid() && gateway.Table() == old(gateway.Table()) && bracketOk == d.configured
      ensures gateway.calls >= old(gateway.calls)
      ensures pid == |old(book.positions)| && |book.positions| == pid + 1
      ensures book.positions[..pid] == old(book.positions)
      ensures Opened(d, filled, book.positions[pid])
      ensures bracketOk ==> pid in guards.guards && guards.guards[pid].View() == d.levels
      ensures guards.guards == if bracketOk then old(guards.guards)[pid := guards.guards[pid]] else old(guards.guards)
      ensures gateway.gtts == WithOco(d, filled, old(gateway.gtts), old(gateway.nextGtt),
                                      gateway.replies(old(gateway.calls)))
      ensures var gtt := NamedOco(d, old(gateway.nextGtt), gateway.replies(old(gateway.calls)));
              book.positions[pid].gtt == gtt && book.brackets == old(book.brackets) + BracketFor(pid, gtt)
    {
      pid := book.OpenPosition(d.token, d.long, filled);
      bracketOk := CreateBracket(d, pid, filled);
    }

    /** The clips of a request, worked in turn. */
    method WorkSlice(token: int, buy: bool, quantity: int)
      returns (filled: nat, dealt: bool, ghost placed: seq<Row>)
      requires gateway.Valid() && quantity > 0
      modifies gateway`calls, gateway`orders
      ensures gateway.Valid() && old(gateway.orders) <= gateway.orders
      ensures forall i :: |old(gateway.orders)| <= i < |gateway.orders| ==> fresh(gateway.orders[i])
      ensures gateway.Table() == old(gateway.Table()) + placed && old(gateway.calls) <= gateway.calls
      ensures ClipsEnd(placed, token, buy, Slice(quantity, FreezeLimit()), filled, dealt)
      ensures Sliced(placed, quantity, |Slice(quantity, FreezeLimit())|, filled, dealt, gateway.replies,
                     old(gateway.calls), gateway.calls)
      ensures WithinClip(placed, clip)
    {
      SliceCovers(quantity, FreezeLimit());
      ghost var clips := Slice(quantity, FreezeLimit());
      var f, done, sent, polled := WorkClips(token, buy, Slice(quantity, FreezeLimit()));
      filled, dealt, placed := f, done, sent;
      if dealt && AllComplete(placed) { CompleteFills(placed, clips); }
      DealtMeansHandled(placed, token, buy, clips, filled, dealt);
    }

    /** One live entry. `placed` is what reached the broker, `dealt` whether its remainder is known dead, and `worked`
        counts the calls up to the end of the clip loop. */
    method ExecuteLive(d: Decision)
      returns (res: EntryResult, ghost placed: seq<Row>, ghost dealt: bool, ghost worked: nat)
      requires Valid()
      modifies this`blockNewEntries, gateway, book, guards
      ensures Valid() && old(gateway.orders) <= gateway.orders
      ensures forall i :: |old(gateway.orders)| <= i < |gateway.orders| ==> fresh(gateway.orders[i])
      ensures gateway.Table() == old(gateway.Table()) + placed
      ensures res.Refused? <==> !d.supported || !d.metaOk || d.quantity <= 0
      ensures res.Refused? ==> placed == [] && book.positions == old(book.positions)
                               && blockNewEntries == old(blockNewEntries)
      ensures res.Entered? ==>
                && ClipsEnd(placed, d.token, d.long, Slice(d.quantity, FreezeLimit()), res.filled, dealt)
                && res.outcome == Outcome(res.filled, dealt, d.configured)
                && blockNewEntries == (old(blockNewEntries) || Unsafe(res.outcome))
                && (!blockNewEntries ==> Handled(placed, res.filled))
                && Booked(d, res, old(book.positions), book.positions)
      ensures res.Entered? && d.configured ==> Guarded(res, d.levels)
      ensures res.Entered? ==>
                gateway.gtts == if && res.filled > 0 && d.configured && d.levels.stop != 0.0 && d.levels.target != 0.0
                                   && !gateway.replies(worked).Lost?
                                then old(gateway.gtts)[old(gateway.nextGtt) := res.filled] else old(gateway.gtts)
      ensures res.Entered? && Answered(gateway.replies, old(gateway.calls), worked) ==>
                && dealt && !res.outcome.ReconcileRequired? && res.filled == Fills(placed)
                && (blockNewEntries ==> old(blockNewEntries) || (res.filled > 0 && !d.configured))
      ensures res.Entered? && dealt && AllComplete(placed) ==>
                && |placed| == |Slice(d.quantity, FreezeLimit())| && res.filled == d.quantity
                && res.outcome == (if d.configured then Protected else Unprotected)
                && blockNewEntries == (old(blockNewEntries) || !d.configured)
      ensures old(gateway.calls) <= worked <= gateway.calls && WithinClip(placed, clip)
      ensures res.Entered? ==>
                ArmedOnly(old(guards.guards), guards.guards, |old(book.positions)|, res.filled > 0 && d.configured)
      ensures var gtt := NamedOco(d, old(gateway.nextGtt), gateway.replies(worked));
              res.Entered? ==>
                if res.filled > 0 then
                  && book.brackets == old(book.brackets) + BracketFor(|old(book.positions)|, gtt)
                  && book.positions[|old(book.positions)|].gtt == gtt
                else book.brackets == old(book.brackets)
    {
      placed, dealt, worked := [], true, gateway.calls;
      if !d.supported || !d.metaOk || d.quantity <= 0 {
        return Refused, [], true, gateway.calls;
      }
      var filled, done, sent := WorkSlice(d.token, d.long, d.quantity);
      placed, dealt, worked := sent, done, gateway.calls;
      res := Conclude(d, filled, done);
    }

    ghost predicate Guarded(res: EntryResult, levels: Levels) requires res.Entered? reads guards, guards.guards.Values {
      res.filled > 0 && res.pid.Some? ==>
        res.pid.value in guards.guards && guards.guards[res.pid.value].View() == levels
    }

    /** No guard was dropped or replaced, and at most that of the new position added. */
    ghost predicate ArmedOnly(was: map<int, Guard>, now: map<int, Guard>, pid: nat, armed: bool) {
      if armed then pid in now && now == was[pid := now[pid]] else now == was
    }

    /** Books and protects what was filled, classifies the entry and flags an unsafe one. */
    method Conclude(d: Decision, filled: nat, dealt: bool) returns (res: EntryResult)
      requires Valid()
      modifies this`blockNewEntries, gateway`calls, gateway`gtts, gateway`nextGtt, book, guards
      ensures Valid() && gateway.Table() == old(gateway.Table()) && gateway.calls >= old(gateway.calls)
      ensures res.Entered? && res.filled == filled && res.outcome == Outcome(filled, dealt, d.configured)
      ensures blockNewEntries == (old(blockNewEntries) || Unsafe(res.outcome))
      ensures Booked(d, res, old(book.positions), book.positions)
      ensures !blockNewEntries ==> dealt
      ensures d.configured ==> Guarded(res, d.levels)
      ensures gateway.gtts == if filled > 0 then WithOco(d, filled, old(gateway.gtts), old(gateway.nextGtt),
                                                         gateway.replies(old(gateway.calls))) else old(gateway.gtts)
      ensures ArmedOnly(old(guards.guards), guards.guards, |old(book.positions)|, filled > 0 && d.configured)
      ensures var gtt := NamedOco(d, old(gateway.nextGtt), gateway.replies(old(gateway.calls)));
              if filled > 0 then
                && book.brackets == old(book.brackets) + BracketFor(|old(book.positions)|, gtt)
                && book.positions[|old(book.positions)|].gtt == gtt
              else book.brackets == old(book.brackets)
    {
      var pid: Option<nat> := None;
      var bracketOk := false;
      if filled > 0 {
        var p, ok := BookFill(d, filled);
        pid, bracketOk := Some(p), ok;
      }
      var outcome := Outcome(filled, dealt, bracketOk);
      if Unsafe(outcome) {
        blockNewEntries := true;
      }
      res := Entered(outcome, filled, pid);
    }

    /** `market_exit`: a market order for the whole quantity, polled to broker truth. A failed call leaves no
        order id; `sent` is the order, if it reached the broker. */
    method MarketExit(p: Position) returns (oid: Option<nat>, full: bool, ghost sent: seq<Row>)
      requires gateway.Valid()
      modifies gateway`calls, gateway`orders
      ensures gateway.Valid() && old(gateway.orders) <= gateway.orders
      ensures forall i :: |old(gateway.orders)| <= i < |gateway.orders| ==> fresh(gateway.orders[i])
      ensures gateway.Table() == old(gateway.Table()) + sent
      ensures ExitSent(p, sent) && (oid.Some? ==> oid.value == |old(gateway.orders)| && sent != [])
      ensures full ==> sent != [] && sent[0].order == Order(p.qty, p.qty, Complete)
      ensures ExitAsked(sent, gateway.replies, old(gateway.calls), gateway.calls)
      ensures oid.Some? <==> Answered(gateway.replies, old(gateway.calls), gateway.calls)
      ensures full <==> oid.Some? && sent[0].order.status.Complete?
    {
      ghost var was := gateway.Table();
      full, sent := false, [];
      oid := gateway.Place(p.token, !p.long, p.qty);
      sent := gateway.Table()[|was|..];
      if oid.None? {
        return;
      }
      var st := PollOrder(oid.value, POLL_ATTEMPTS);
      sent := [gateway.Table()[|was|]];
      if st.None? {
        oid := None;
        return;
      }
      full := st.value.status == Some(Complete) && st.value.filled >= p.qty;
    }

    /** `_do_live_exit`: book the exit only on a COMPLETE fill of the whole quantity, else park the position. */
    method DoLiveExit(pid: nat) returns (closed: bool, ghost sent: seq<Row>)
      requires Valid() && pid < |book.positions| && book.positions[pid].status.Open?
      modifies gateway`calls, gateway`orders, book`positions
      ensures Valid() && old(gateway.orders) <= gateway.orders
      ensures forall i :: |old(gateway.orders)| <= i < |gateway.orders| ==> fresh(gateway.orders[i])
      ensures gateway.Table() == old(gateway.Table()) + sent
      ensures Restatused(old(book.positions), book.positions, pid)
      ensures ExitEnds(old(book.positions[pid]), |old(gateway.orders)|, sent, book.positions[pid].status)
      ensures closed <==> book.positions[pid].status.Closed?
      ensures ExitDecided(|old(gateway.orders)|, sent, book.positions[pid].status, gateway.replies, old(gateway.calls),
                          gateway.calls)
    {
      var oid, full, order := MarketExit(book.positions[pid]);
      sent := order;
      if full {
        closed := book.ClosePosition(pid);
      } else {
        book.MarkClosePending(pid, oid);
        closed := false;
      }
    }

    /** Deletes the resting OCO of a position and retires its bracket rows. */
    method CancelBracket(pid: nat)
      requires Valid() && pid < |book.positions|
      modifies gateway`gtts, gateway`calls, book`brackets
      ensures Valid() && gateway.Table() == old(gateway.Table())
      ensures var gtt, lost := book.positions[pid].gtt, gateway.replies(old(gateway.calls)).Lost?;
              && gateway.calls == old(gateway.calls) + (if gtt.Some? then 1 else 0)
              && gateway.gtts == if gtt.Some? && !lost then old(gateway.gtts) - {gtt.value} else old(gateway.gtts)
      ensures book.brackets == Retired(old(book.brackets), pid)
    {
      if book.positions[pid].gtt.Some? {
        gateway.DeleteGtt(book.positions[pid].gtt.value);
      }
      book.RetireBrackets(pid);
    }

    /** Asks the broker for its net quantity first: flat already, the position is parked without an order. */
    method ExitUnlessFlat(pid: nat) returns (closed: bool, ghost sent: seq<Row>, ghost net: Option<int>)
      requires Valid() && pid < |book.positions| && book.positions[pid].status.Open?
      modifies gateway`calls, gateway`orders, book`positions
      ensures Valid() && old(gateway.orders) <= gateway.orders
      ensures forall i :: |old(gateway.orders)| <= i < |gateway.orders| ==> fresh(gateway.orders[i])
      ensures gateway.Table() == old(gateway.Table()) + sent
      ensures Restatused(old(book.positions), book.positions, pid)
      ensures ExitEnds(old(book.positions[pid]), |old(gateway.orders)|, sent, book.positions[pid].status)
      ensures closed <==> book.positions[pid].status.Closed?
      ensures net == AskedNet(old(gateway.Table()), old(book.positions[pid]).token, gateway.replies, old(gateway.calls))
      ensures ExitTaken(net, |old(gateway.orders)|, sent, book.positions[pid].status, gateway.replies,
                        old(gateway.calls) + 1, gateway.calls)
    {
      var bq := gateway.NetQuantity(book.positions[pid].token);
      net, sent := bq, [];
      if bq == Some(0) {
        book.MarkClosePending(pid, None);
        closed := false;
      } else {
        closed, sent := DoLiveExit(pid);
      }
    }

    /** `close` of an open position: cancel the bracket, ask the broker for its net quantity, and only then exit. */
    method CloseOpen(pid: nat) returns (closed: bool, ghost sent: seq<Row>, ghost net: Option<int>)
      requires Valid() && pid < |book.positions| && book.positions[pid].status.Open?
      modifies gateway, book, guards
      ensures Valid() && gateway.Table() == old(gateway.Table()) + sent
      ensures Restatused(old(book.positions), book.positions, pid)
      ensures ExitEnds(old(book.positions[pid]), |old(gateway.orders)|, sent, book.positions[pid].status)
      ensures closed <==> book.positions[pid].status.Closed?
      ensures guards.guards == old(guards.guards) - {pid} && book.brackets == Retired(old(book.brackets), pid)
      ensures var gtt, first := old(book.positions)[pid].gtt, old(gateway.calls);
              var asked := if gtt.Some? then first + 1 else first;
              && gateway.gtts == (if gtt.Some? && !gateway.replies(first).Lost? then old(gateway.gtts) - {gtt.value}
                                  else old(gateway.gtts))
              && net == AskedNet(old(gateway.Table()), old(book.positions)[pid].token, gateway.replies, asked)
              && ExitTaken(net, |old(gateway.orders)|, sent, book.positions[pid].status, gateway.replies, asked + 1,
                           gateway.calls)
    {
      CancelBracket(pid);
      closed, sent, net := ExitUnlessFlat(pid);
      guards.Disarm(pid);
    }

    /** `close` in live mode; anything but an open position is left alone. */
    method Close(pid: nat) returns (closed: bool, ghost sent: seq<Row>, ghost net: Option<int>)
      requires Valid()
      modifies gateway, book, guards
      ensures Valid() && gateway.Table() == old(gateway.Table()) + sent
      ensures !PositionOpen(old(book.positions), pid) ==>
                && !closed && sent == [] && book.positions == old(book.positions) && guards.guards == old(guards.guards)
                && book.brackets == old(book.brackets) && gateway.gtts == old(gateway.gtts)
      ensures PositionOpen(old(book.positions), pid) ==>
                && Restatused(old(book.positions), book.positions, pid)
                && ExitEnds(old(book.positions[pid]), |old(gateway.orders)|, sent, book.positions[pid].status)
                && (closed <==> book.positions[pid].status.Closed?)
                && guards.guards == old(guards.guards) - {pid}
                && book.brackets == Retired(old(book.brackets), pid)
      ensures PositionOpen(old(book.positions), pid) ==>
                var gtt, first := old(book.positions)[pid].gtt, old(gateway.calls);
                var asked := if gtt.Some? then first + 1 else first;
                && gateway.gtts == (if gtt.Some? && !gateway.replies(first).Lost? then old(gateway.gtts) - {gtt.value}
                                    else old(gateway.gtts))
                && net == AskedNet(old(gateway.Table()), old(book.positions)[pid].token, gateway.replies, asked)
                && ExitTaken(net, |old(gateway.orders)|, sent, book.positions[pid].status, gateway.replies, asked + 1,
                             gateway.calls)
    {
      sent, net := [], None;
      if pid >= |book.positions| || !book.positions[pid].status.Open? {
        closed := false;
        return;
      }
      closed, sent, net := CloseOpen(pid);
    }

    /** One parked exit: a single poll of its order, if that is known, and the books only on an answered COMPLETE. */
    method ResolveOne(pid: nat) returns (done: bool)
      requires Valid() && pid < |book.positions| && book.positions[pid].status.ClosePending?
      modifies gateway`calls, gateway.orders, book`positions
      ensures Valid() && gateway.orders == old(gateway.orders)
      ensures |book.positions| == |old(book.positions)|
      ensures Turn(Moment(old(book.positions), old(gateway.Table()), old(gateway.calls), 0),
                   Moment(book.positions, gateway.Table(), gateway.calls, if done then 1 else 0), gateway.replies, pid)
    {
      var exit := book.positions[pid].status.exit;
      forall k | 0 <= k < |gateway.Table()| ensures Later(gateway.Table()[k], gateway.Table()[k]) {
        assert gateway.orders[k].Valid();
      }
      done := false;
      if exit.Some? && exit.value < |gateway.orders| {
        var st := PollOrder(exit.value, 1);
        if st.Some? && st.value.status == Some(Complete) {
          done := book.ClosePosition(pid);
        }
      }
    }

    /** `resolve_pending_closes`: finish parked exits from broker truth, and count those finished. */
    method ResolvePendingCloses() returns (resolved: nat)
      requires Valid()
      modifies gateway`calls, gateway.orders, book`positions
      ensures Valid() && gateway.orders == old(gateway.orders)
      ensures AllLater(old(gateway.Table()), gateway.Table())
      ensures AllResolved(old(book.positions), book.positions, gateway.Table(), gateway.replies, old(gateway.calls))
      ensures resolved == ClosedCount(old(book.positions), book.positions)
    {
      resolved := 0;
      var pids := book.PendingCloses();
      ghost var start := Moment(book.positions, gateway.Table(), gateway.calls, 0);
      assert AllLater(start.rows, start.rows) by {
        forall k | 0 <= k < |start.rows| ensures Later(start.rows[k], start.rows[k]) {
          assert gateway.orders[k].Valid();
        }
      }
      ResolvingStarts(start, gateway.replies);
      for i := 0 to |pids|
        invariant Valid() && gateway.orders == old(gateway.orders)
        invariant Resolving(start, Moment(book.positions, gateway.Table(), gateway.calls, resolved), gateway.replies, i)
      {
        ghost var m := Moment(book.positions, gateway.Table(), gateway.calls, resolved);
        NextParked(start, m, gateway.replies, i);
        var done := ResolveOne(pids[i]);
        resolved := resolved + if done then 1 else 0;
        ResolvingStep(start, m, Moment(book.positions, gateway.Table(), gateway.calls, resolved), gateway.replies, i,
                      pids[i]);
      }
    }

    /** Asks for the OCO of an orphaned bracket to be deleted, and retires the brackets of its position. */
    method RetireOrphan(b: BracketRow) returns (orphan: bool)
      requires Valid()
      modifies gateway`gtts, gateway`calls, book`brackets
      ensures Valid() && gateway.Table() == old(gateway.Table()) && orphan == Orphan(b, book.positions)
      ensures gateway.calls == old(gateway.calls) + if orphan && b.gtt.Some? then 1 else 0
      ensures gateway.gtts == if orphan && b.gtt.Some? && !gateway.replies(old(gateway.calls)).Lost?
                              then old(gateway.gtts) - {b.gtt.value} else old(gateway.gtts)
      ensures book.brackets == if orphan then Retired(old(book.brackets), b.pid) else old(book.brackets)
    {
      orphan := b.active && !(b.pid < |book.positions| && book.positions[b.pid].status.Open?);
      if orphan {
        if b.gtt.Some? {
          gateway.DeleteGtt(b.gtt.value);
        }
        book.RetireBrackets(b.pid);
      }
    }

    /** `reconcile_brackets`: retire every bracket whose position is no longer open, ask for its OCO to be deleted,
        and count them. */
    method ReconcileBrackets() returns (cancelled: nat)
      requires Valid()
      modifies gateway`gtts, gateway`calls, book`brackets
      ensures Valid() && gateway.Table() == old(gateway.Table())
      ensures RetiredOrphans(old(book.brackets), book.brackets, book.positions)
      ensures cancelled == Orphans(old(book.brackets), book.positions)
      ensures Deleted(old(gateway.gtts), gateway.gtts, old(book.brackets), book.positions, gateway.replies,
                      old(gateway.calls), |old(book.brackets)|)
    {
      cancelled := 0;
      var rows := book.brackets;
      ghost var start := Rest(rows, gateway.gtts, gateway.calls, 0);
      for i := 0 to |rows|
        invariant Valid() && gateway.Table() == old(gateway.Table())
        invariant Retiring(start, Rest(book.brackets, gateway.gtts, gateway.calls, cancelled), book.positions,
                           gateway.replies, i)
      {
        ghost var m := Rest(book.brackets, gateway.gtts, gateway.calls, cancelled);
        var orphan := RetireOrphan(rows[i]);
        cancelled := cancelled + if orphan then 1 else 0;
        RetiringStep(start, m, Rest(book.brackets, gateway.gtts, gateway.calls, cancelled), book.positions,
                     gateway.replies, i);
      }
      assert rows[..|rows|] == rows;
    }
  }

  /** Only the status of one position differs. */
  predicate Restatused(was: seq<Position>, now: seq<Position>, pid: nat) {
    |now| == |was| && pid < |was| && now == was[pid := was[pid].(status := now[pid].status)]
  }

  /** At most one exit order, for the position's instrument, side and quantity. */
  predicate ExitSent(p: Position, sent: seq<Row>) {
    && |sent| <= 1
    && (sent != [] ==>
          sent[0].token == p.token && sent[0].buy == !p.long && sent[0].order.qty == p.qty && OnScript(sent[0]))
  }

  /** How a live exit may leave a position of quantity p.qty; `oid` is the id its order would get. */
  predicate ExitEnds(p: Position, oid: nat, sent: seq<Row>, status: RowStatus) {
    && ExitSent(p, sent)
    && match status
       case Open => false
       case Closed => sent != [] && sent[0].order == Order(p.qty, p.qty, Complete)
       case ClosePending(exit) => exit.Some? ==> sent != [] && exit.value == oid
  }

  /** The calls of one exit: the order, and up to twelve polls of it unless one of them ends it. */
  predicate ExitAsked(sent: seq<Row>, replies: nat -> Reply, first: nat, last: nat) {
    && (sent == [] <==> replies(first).Lost?) && first < last <= first + 13
    && (Answered(replies, first, last) && sent != [] && sent[0].order.status.Working? ==> sent[0].polls >= 12)
  }

  /** What becomes of the position: with every call answered it is closed on a COMPLETE order and parked with that
      order's id on any other; and else it is parked with none. */
  predicate ExitDecided(oid: nat, sent: seq<Row>, status: RowStatus, replies: nat -> Reply, first: nat, last: nat) {
    && ExitAsked(sent, replies, first, last)
    && (if !Answered(replies, first, last) then status == ClosePending(None)
        else if sent != [] && sent[0].order.status.Complete? then status == Closed
        else status == ClosePending(Some(oid)))
  }

  /** The broker's net quantity of an instrument, if the k-th call is answered. */
  function AskedNet(rows: seq<Row>, token: int, replies: nat -> Reply, k: nat): Option<int> {
    if replies(k).Delivered? then Some(Net(rows, token)) else None
  }

  /** Flat already, the position is parked without an order; any other answer, or none, sends one. */
  predicate ExitTaken(net: Option<int>, oid: nat, sent: seq<Row>, status: RowStatus, replies: nat -> Reply, first: nat,
                      last: nat)
  {
    if net == Some(0) then sent == [] && status == ClosePending(None)
    else ExitDecided(oid, sent, status, replies, first, last)
  }

  /** A close that books leaves the gap between broker and book as it was; a parked one widens it by the
      quantity it has not exited. */
  lemma ExitConserves(p: Position, rows: seq<Row>, ps: seq<Position>, pid: nat, sent: seq<Row>,
                      status: RowStatus, t: int)
    requires pid < |ps| && ps[pid] == p && p.status.Open? && ExitEnds(p, |rows|, sent, status)
    ensures Gap(rows + sent, ps[pid := p.(status := status)], t)
            == Gap(rows, ps, t) + if t == p.token then Signed(p.long, p.qty - Fills(sent)) else 0
    ensures status.Closed? ==> Fills(sent) == p.qty
    ensures Fills(sent) <= p.qty
  {
    NetAppend(rows, sent, t);
    NetOfOneSide(sent, p.token, !p.long, t);
    OpenQtyUpdate(ps, pid, p.(status := status), t);
    assert [p][..0] == [] && [p.(status := status)][..0] == [];
    if sent != [] { assert sent[..0] == []; }
  }

  /** Nothing of the entry is left working, and what it booked is all the broker filled. */
  predicate Handled(placed: seq<Row>, filled: nat) {
    filled == Fills(placed) && forall k :: 0 <= k < |placed| ==> NothingPending(placed[k].order)
  }

  /** With a freeze limit no order exceeds it. */
  predicate WithinClip(placed: seq<Row>, clip: int) {
    clip > 0 ==> forall k :: 0 <= k < |placed| ==> 0 < placed[k].order.qty <= clip
  }

  /** A slice worked without a lost answer leaves no doubt, and one dealt with whose orders all completed is whole. */
  predicate Sliced(placed: seq<Row>, quantity: int, clips: nat, filled: nat, dealt: bool, replies: nat -> Reply,
                   first: nat, last: nat)
  {
    && (dealt ==> Handled(placed, filled))
    && (Answered(replies, first, last) ==> dealt && filled == Fills(placed))
    && (dealt && AllComplete(placed) ==> |placed| == clips && filled == quantity)
  }

  lemma DealtMeansHandled(placed: seq<Row>, token: int, buy: bool, clips: seq<int>, filled: nat, dealt: bool)
    requires ClipsEnd(placed, token, buy, clips, filled, dealt)
    ensures dealt ==> Handled(placed, filled)
  {
    forall k | 0 <= k < |placed| - 1 ensures placed[k].order.status.Complete? {
      assert placed[..|placed| - 1][k] == placed[k];
    }
  }

  predicate Opened(d: Decision, filled: nat, p: Position) {
    p.token == d.token && p.long == d.long && p.qty == filled && p.status.Open?
  }

  /** A fill becomes one open position of exactly that quantity; no fill leaves the book alone. */
  predicate Booked(d: Decision, res: EntryResult, was: seq<Position>, now: seq<Position>)
    requires res.Entered?
  {
    if res.filled == 0 then res.pid == None && now == was
    else
      && res.pid == Some(|was|) && |now| == |was| + 1
      && now[..|was|] == was && Opened(d, res.filled, now[|was|])
  }

  /** Broker net quantity over what the open book accounts for. */
  function Gap(rows: seq<Row>, ps: seq<Position>, token: int): int { Net(rows, token) - OpenQty(ps, token) }

  lemma {:induction false} NetOfOneSide(rows: seq<Row>, token: int, buy: bool, t: int)
    requires forall k :: 0 <= k < |rows| ==> rows[k].token == token && rows[k].buy == buy
    ensures Net(rows, t) == if t == token then Signed(buy, Fills(rows)) else 0
  {
    if rows == [] {
    } else {
      NetOfOneSide(rows[..|rows| - 1], token, buy, t);
    }
  }

  /** An entry opens the gap between broker and book by exactly the fills it did not book, and by nothing
      unless it blocks new entries. */
  lemma EntryConserves(d: Decision, rows: seq<Row>, ps: seq<Position>, placed: seq<Row>, clips: seq<int>,
                       ps': seq<Position>, res: EntryResult, dealt: bool, t: int)
    requires res.Entered? && ClipsEnd(placed, d.token, d.long, clips, res.filled, dealt) && Booked(d, res, ps, ps')
    ensures Gap(rows + placed, ps', t)
            == Gap(rows, ps, t) + if t == d.token then Signed(d.long, Fills(placed) - res.filled) else 0
    ensures res.outcome == Outcome(res.filled, dealt, d.configured) && !res.outcome.ReconcileRequired? ==>
              Gap(rows + placed, ps', t) == Gap(rows, ps, t)
  {
    NetAppend(rows, placed, t);
    assert Net(placed, t) == if t == d.token then Signed(d.long, Fills(placed)) else 0 by {
      NetOfOneSide(placed, d.token, d.long, t);
    }
    BookedQty(d, res, ps, ps', t);
  }

  lemma BookedQty(d: Decision, res: EntryResult, ps: seq<Position>, ps': seq<Position>, t: int)
    requires res.Entered? && Booked(d, res, ps, ps')
    ensures OpenQty(ps', t) == OpenQty(ps, t) + if t == d.token then Signed(d.long, res.filled) else 0
  {
    if res.filled > 0 { assert ps'[..|ps'| - 1] == ps; }
  }

  /** How a clip's order, if it reached the broker, may stand when the loop is done with it. */
  predicate ClipEnds(sent: seq<Row>, token: int, buy: bool, qty: nat, filled: nat, go: bool, dealt: bool) {
    && |sent| <= 1
    && (sent == [] ==> filled == 0 && !go && !dealt)
    && (sent != [] ==>
          && sent[0].token == token && sent[0].buy == buy && sent[0].order.qty == qty && OnScript(sent[0])
          && filled <= sent[0].order.filled
          && (go ==> dealt && sent[0].order.status.Complete?)
          && (dealt ==> filled == sent[0].order.filled && NothingPending(sent[0].order)))
  }

  /** What the clip loop makes of a clip. Until every call up to the last poll is answered it knows nothing and
      stops; then it counts what the order shows and goes on exactly on COMPLETE. A remainder is dealt with at once
      if there is none or the order was cleanly rejected, and else exactly if the order is over and one of eight
      polls after the cancel is answered. */
  ghost predicate ClipDecided(sent: seq<Row>, qty: nat, filled: nat, go: bool, dealt: bool, replies: nat -> Reply,
                              first: nat, polled: nat, last: nat)
  {
    (sent == [] <==> replies(first).Lost?) &&
    if !Answered(replies, first, polled) then filled == 0 && !go && !dealt && last == polled
    else
      && sent != [] && filled == sent[0].order.filled
      && (go <==> sent[0].order.status.Complete?)
      && (sent[0].order.status.Working? ==> sent[0].polls >= 12)
      && if sent[0].order.status.Complete? || sent[0].order.status == Rejected(false) || filled == qty
         then dealt && last == polled
         else
           && last >= polled + 2
           && (dealt <==> !sent[0].order.status.Working? && SomeAnswered(replies, polled + 1, polled + 9))
           && (sent[0].order.status.Working? ==> replies(polled).Lost?)
  }

  /** The clip loop goes on only while every call is answered, ends with its remainder dealt with if all are, and
      ends that way with the last clip COMPLETE only by running out of clips. If every call up to the last poll is
      answered, it counts every fill. */
  ghost predicate ClipsAnswered(placed: seq<Row>, filled: nat, dealt: bool, go: bool, replies: nat -> Reply, first: nat,
                                polled: nat, last: nat)
  {
    && first <= polled <= last && (go ==> Answered(replies, first, last)) && (!go && dealt ==> !AllComplete(placed))
    && (Answered(replies, first, last) ==> dealt) && (Answered(replies, first, polled) ==> filled == Fills(placed))
  }

  lemma ClipAnswered(placed: seq<Row>, filled: nat, sent: seq<Row>, qty: nat, cf: nat, go: bool, dealt: bool,
                     replies: nat -> Reply, first: nat, before: nat, from: nat, polled: nat, last: nat)
    requires ClipsAnswered(placed, filled, true, true, replies, first, before, from) && from < polled <= last
    requires ClipDecided(sent, qty, cf, go, dealt, replies, from, polled, last) && |sent| <= 1
    ensures ClipsAnswered(placed + sent, filled + cf, dealt, go, replies, first, polled, last)
  {
    if !go && dealt { assert (placed + sent)[|placed|] == sent[0]; }
    if sent != [] { assert (placed + sent)[..|placed|] == placed; }
    if Answered(replies, first, last) && last >= polled + 2 {
      assert replies(polled).Delivered? && replies(polled + 1).Delivered?;
      assert SomeAnswered(replies, polled + 1, polled + 9);
    }
  }

  /** Orders that all completed filled what was asked of them. */
  lemma {:induction false} CompleteFills(rows: seq<Row>, clips: seq<int>)
    requires |rows| == |clips| && AllComplete(rows)
    requires forall k :: 0 <= k < |rows| ==> rows[k].order.qty == clips[k] && WellFormed(rows[k].order)
    ensures Fills(rows) == SumOf(clips)
  {
    if rows == [] {
    } else {
      var n := |rows| - 1;
      CompleteFills(rows[..n], clips[..n]);
    }
  }

  predicate AllComplete(rows: seq<Row>) { forall k :: 0 <= k < |rows| ==> rows[k].order.status.Complete? }

  /** Where the clip loop leaves its orders: clips in order, all but the last COMPLETE, and when the
      remainder is dealt with, every fill counted and nothing working. */
  predicate ClipsEnd(rows: seq<Row>, token: int, buy: bool, clips: seq<int>, filled: nat, dealt: bool) {
    && |rows| <= |clips|
    && (forall k :: 0 <= k < |rows| ==>
          rows[k].token == token && rows[k].buy == buy && rows[k].order.qty == clips[k] && OnScript(rows[k]))
    && (|rows| > 0 ==> AllComplete(rows[..|rows| - 1]))
    && filled <= Fills(rows) && (|rows| > 0 ==> filled >= Fills(rows[..|rows| - 1]))
    && (dealt ==> rows != [] && filled == Fills(rows) && NothingPending(rows[|rows| - 1].order))
  }

  /** The clip loop, after its i-th turn; `go` asks for another. */
  predicate ClipsSoFar(placed: seq<Row>, token: int, buy: bool, clips: seq<int>, filled: nat, dealt: bool, go: bool,
                    i: nat)
  {
    && (go ==> |placed| == i && dealt && AllComplete(placed))
    && if i == 0 then go && filled == 0 && placed == [] else ClipsEnd(placed, token, buy, clips, filled, dealt)
  }

  lemma ClipAdded(placed: seq<Row>, sent: seq<Row>, token: int, buy: bool, clips: seq<int>,
                  filled: nat, cf: nat, go: bool, dealt: bool, i: nat)
    requires i < |clips| && clips[i] > 0 && ClipsSoFar(placed, token, buy, clips, filled, true, true, i)
    requires ClipEnds(sent, token, buy, clips[i], cf, go, dealt)
    ensures ClipsSoFar(placed + sent, token, buy, clips, filled + cf, dealt, go, i + 1)
  {
    if sent == [] {
      assert placed + sent == placed;
    } else {
      assert (placed + sent)[..|placed|] == placed;
    }
  }

  /** The clip loop after its i-th turn, with what it knows of the calls it made. */
  ghost predicate ClipLoop(placed: seq<Row>, token: int, buy: bool, clips: seq<int>, filled: nat, dealt: bool, go: bool,
                           i: nat, replies: nat -> Reply, first: nat, polled: nat, last: nat)
  {
    && ClipsSoFar(placed, token, buy, clips, filled, dealt, go, i)
    && ClipsAnswered(placed, filled, dealt, go, replies, first, polled, last)
  }

  lemma ClipTurn(placed: seq<Row>, sent: seq<Row>, token: int, buy: bool, clips: seq<int>, filled: nat, cf: nat,
                 go: bool, dealt: bool, i: nat, replies: nat -> Reply, first: nat, before: nat, from: nat, polled: nat,
                 last: nat)
    requires i < |clips| && clips[i] > 0
    requires ClipLoop(placed, token, buy, clips, filled, true, true, i, replies, first, before, from)
    requires ClipEnds(sent, token, buy, clips[i], cf, go, dealt) && from < polled <= last
    requires ClipDecided(sent, clips[i], cf, go, dealt, replies, from, polled, last)
    ensures ClipLoop(placed + sent, token, buy, clips, filled + cf, dealt, go, i + 1, replies, first, polled, last)
  {
    ClipAdded(placed, sent, token, buy, clips, filled, cf, go, dealt, i);
    ClipAnswered(placed, filled, sent, clips[i], cf, go, dealt, replies, first, before, from, polled, last);
  }
}
