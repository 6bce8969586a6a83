/** What execution/executor.py settles later: exits parked without an answer, and brackets left behind by a close. */
module Settlement {
  import opened Broker
  import opened Options
  import opened OrderPolicy
  import opened PositionBook

  // --- parked exits --------------------------------------------------------------------------------

  /** A parked position whose exit order the broker knows. */
  predicate Known(p: Position, orders: nat) {
    p.status.ClosePending? && p.status.exit.Some? && p.status.exit.value < orders
  }

  /** How often resolving a parked position asks the broker. */
  function Polls(p: Position, orders: nat): nat { if Known(p, orders) then 1 else 0 }

  function AllPolls(ps: seq<Position>, ids: seq<nat>, orders: nat): nat
    requires forall k :: 0 <= k < |ids| ==> ids[k] < |ps|
  {
    if ids == [] then 0
    else AllPolls(ps, ids[..|ids| - 1], orders) + Polls(ps[ids[|ids| - 1]], orders)
  }

  /** Only the exit of p has been polled. */
  predicate PolledOnce(p: Position, rows: seq<Row>, rows': seq<Row>) {
    && AllLater(rows, rows')
    && forall k :: 0 <= k < |rows| && !(p.status.ClosePending? && p.status.exit == Some(k)) ==> rows'[k] == rows[k]
  }

  /** Its exit order is COMPLETE and the broker's answer arrived. */
  predicate Finishes(p: Position, rows: seq<Row>, reply: Reply) {
    Known(p, |rows|) && rows[p.status.exit.value].order.status.Complete? && reply.Delivered?
  }

  /** No other parked position waits for the same order. */
  predicate ExitUnshared(ps: seq<Position>, p: nat) requires p < |ps| && ps[p].status.ClosePending? {
    forall q :: 0 <= q < |ps| && q != p && ps[q].status.ClosePending? ==> ps[q].status.exit != ps[p].status.exit
  }

  /** A parked position is closed only on an answered COMPLETE, and is on one that is its own. */
  predicate Resolved(was: seq<Position>, now: Position, rows: seq<Row>, reply: Reply, p: nat)
    requires p < |was| && was[p].status.ClosePending?
  {
    && (now == was[p] || now == was[p].(status := Closed))
    && (now != was[p] ==> Finishes(was[p], rows, reply))
    && (Finishes(was[p], rows, reply) && ExitUnshared(was, p) ==> now != was[p])
  }

  predicate InRange(ps: seq<Position>, ids: seq<nat>) {
    && (forall k :: 0 <= k < |ids| ==> ids[k] < |ps| && ps[ids[k]].status.ClosePending?)
    && forall i, j :: 0 <= i < j < |ids| ==> ids[i] < ids[j]
  }

  /** The answer the k-th parked position gets, when the first call is `first`. */
  function AnswerTo(was: seq<Position>, ids: seq<nat>, k: nat, orders: nat, replies: nat -> Reply, first: nat): Reply
    requires InRange(was, ids) && k < |ids|
  {
    replies(first + AllPolls(was, ids[..k], orders))
  }

  predicate ResolvedAt(was: seq<Position>, now: seq<Position>, rows: seq<Row>, replies: nat -> Reply, first: nat,
                       ids: seq<nat>, k: nat)
    requires InRange(was, ids) && k < |ids| && |now| == |was|
  {
    Resolved(was, now[ids[k]], rows, AnswerTo(was, ids, k, |rows|, replies, first), ids[k])
  }

  /** The first n parked positions have been resolved, with the answers from `first` on; nothing else changed. */
  predicate ResolvedUpTo(was: seq<Position>, now: seq<Position>, rows: seq<Row>, replies: nat -> Reply, first: nat,
                         ids: seq<nat>, n: nat)
    requires InRange(was, ids) && n <= |ids|
  {
    && |now| == |was|
    && (forall p :: 0 <= p < |was| && p !in ids[..n] ==> now[p] == was[p])
    && forall k :: 0 <= k < n ==> ResolvedAt(was, now, rows, replies, first, ids, k)
  }

  /** Every parked position has been resolved, in order, with the answers from `first` on. */
  ghost predicate AllResolved(was: seq<Position>, now: seq<Position>, rows: seq<Row>, replies: nat -> Reply,
                              first: nat)
  {
    InRange(was, ParkedIds(was)) && ResolvedUpTo(was, now, rows, replies, first, ParkedIds(was), |ParkedIds(was)|)
  }

  /** How many positions have been closed. */
  function ClosedCount(was: seq<Position>, now: seq<Position>): nat
    requires |now| == |was|
  {
    if was == [] then 0
    else
      var m := |was| - 1;
      ClosedCount(was[..m], now[..m]) + if now[m] != was[m] then 1 else 0
  }

  lemma {:induction false} NoneClosed(ps: seq<Position>)
    ensures ClosedCount(ps, ps) == 0
  {
    if ps == [] {
    } else {
      NoneClosed(ps[..|ps| - 1]);
    }
  }

  lemma {:induction false} OneMoreClosed(was: seq<Position>, now: seq<Position>, p: nat, x: Position)
    requires |now| == |was| && p < |was| && now[p] == was[p]
    ensures ClosedCount(was, now[p := x]) == ClosedCount(was, now) + if x != was[p] then 1 else 0
  {
    var m := |was| - 1;
    if p == m {
      assert now[p := x][..m] == now[..m];
    } else {
      assert now[p := x][..m] == now[..m][p := x];
      OneMoreClosed(was[..m], now[..m], p, x);
    }
  }

  /** The books and the broker's orders between two turns of a loop, the calls made and the positions closed so far. */
  datatype Moment = Moment(ps: seq<Position>, rows: seq<Row>, calls: nat, closed: nat)

  /** The loop over the parked positions, before its i-th turn. */
  ghost predicate Resolving(start: Moment, now: Moment, replies: nat -> Reply, i: nat) {
    var ids := ParkedIds(start.ps);
    && i <= |ids| && InRange(start.ps, ids) && ResolvedUpTo(start.ps, now.ps, now.rows, replies, start.calls, ids, i)
    && AllLater(start.rows, now.rows)
    && now.calls == start.calls + AllPolls(start.ps, ids[..i], |start.rows|)
    && now.closed == ClosedCount(start.ps, now.ps)
  }

  /** One turn: the exit of p is polled if it is known, and p closed if that finishes it. */
  predicate Turn(m: Moment, m': Moment, replies: nat -> Reply, p: nat) {
    && p < |m.ps| && PolledOnce(m.ps[p], m.rows, m'.rows) && m'.calls == m.calls + Polls(m.ps[p], |m.rows|)
    && (if Finishes(m.ps[p], m'.rows, replies(m.calls))
        then m'.ps == m.ps[p := m.ps[p].(status := Closed)] && m'.closed == m.closed + 1
        else m'.ps == m.ps && m'.closed == m.closed)
  }

  lemma ResolvingStarts(start: Moment, replies: nat -> Reply)
    requires AllLater(start.rows, start.rows) && start.closed == 0
    ensures Resolving(start, start, replies, 0)
  {
    ParkedIdsAre(start.ps);
    NoneClosed(start.ps);
  }

  /** What was resolved before stays so when another exit is polled. */
  lemma StaysResolved(was: seq<Position>, now: Position, rows: seq<Row>, rows': seq<Row>, reply: Reply, p: nat, q: nat)
    requires p < |was| && q < |was| && p != q && was[p].status.ClosePending? && was[q].status.ClosePending?
    requires Resolved(was, now, rows, reply, p) && PolledOnce(was[q], rows, rows')
    ensures Resolved(was, now, rows', reply, p)
  {
  }

  lemma NextParked(start: Moment, m: Moment, replies: nat -> Reply, i: nat)
    requires Resolving(start, m, replies, i) && i < |ParkedIds(start.ps)|
    ensures var p := ParkedIds(start.ps)[i];
            p < |start.ps| == |m.ps| && m.ps[p] == start.ps[p] && start.ps[p].status.ClosePending?
  {
    var ids := ParkedIds(start.ps);
    assert ids[i] !in ids[..i];
  }

  lemma ResolvedBefore(was: seq<Position>, mid: seq<Position>, now: seq<Position>, table: seq<Row>, table': seq<Row>,
                       replies: nat -> Reply, first: nat, ids: seq<nat>, i: nat, k: nat)
    requires InRange(was, ids) && k < i < |ids| && |mid| == |now| == |was| && now == mid[ids[i] := now[ids[i]]]
    requires ResolvedAt(was, mid, table, replies, first, ids, k) && PolledOnce(was[ids[i]], table, table')
    ensures ResolvedAt(was, now, table', replies, first, ids, k)
  {
    StaysResolved(was, mid[ids[k]], table, table', AnswerTo(was, ids, k, |table|, replies, first), ids[k], ids[i]);
  }

  lemma ResolvedOneMore(was: seq<Position>, mid: seq<Position>, now: seq<Position>, table: seq<Row>, table': seq<Row>,
                        replies: nat -> Reply, first: nat, ids: seq<nat>, i: nat)
    requires InRange(was, ids) && i < |ids| && ResolvedUpTo(was, mid, table, replies, first, ids, i)
    requires |now| == |was| && now == mid[ids[i] := now[ids[i]]] && PolledOnce(was[ids[i]], table, table')
    requires ResolvedAt(was, now, table', replies, first, ids, i)
    ensures ResolvedUpTo(was, now, table', replies, first, ids, i + 1)
  {
    forall k | 0 <= k < i ensures ResolvedAt(was, now, table', replies, first, ids, k) {
      ResolvedBefore(was, mid, now, table, table', replies, first, ids, i, k);
    }
    forall p | 0 <= p < |was| && p !in ids[..i + 1] ensures now[p] == was[p] {
      assert ids[..i + 1][i] == ids[i];
      assert p !in ids[..i];
    }
  }

  lemma ResolvedNow(start: Moment, m: Moment, m': Moment, replies: nat -> Reply, i: nat, p: nat)
    requires Resolving(start, m, replies, i) && i < |ParkedIds(start.ps)| && p == ParkedIds(start.ps)[i]
    requires Turn(m, m', replies, p) && m.ps[p] == start.ps[p]
    ensures ResolvedUpTo(start.ps, m'.ps, m'.rows, replies, start.calls, ParkedIds(start.ps), i + 1)
  {
    ResolvedOneMore(start.ps, m.ps, m'.ps, m.rows, m'.rows, replies, start.calls, ParkedIds(start.ps), i);
  }

  lemma ResolvingStep(start: Moment, m: Moment, m': Moment, replies: nat -> Reply, i: nat, p: nat)
    requires Resolving(start, m, replies, i) && i < |ParkedIds(start.ps)| && p == ParkedIds(start.ps)[i]
    requires Turn(m, m', replies, p)
    ensures Resolving(start, m', replies, i + 1)
  {
    var ids := ParkedIds(start.ps);
    NextParked(start, m, replies, i);
    assert ids[..i + 1][..i] == ids[..i];
    OneMoreClosed(start.ps, m.ps, p, m'.ps[p]);
    ResolvedNow(start, m, m', replies, i, p);
    AllStillLater(start.rows, m.rows, m'.rows);
  }

  /** A parked position whose exit is its own is closed exactly when that order is known, COMPLETE and the answer to
      its poll arrived. */
  lemma ParkedIsResolved(was: seq<Position>, now: seq<Position>, rows: seq<Row>, replies: nat -> Reply, first: nat,
                         p: nat) returns (call: nat)
    requires AllResolved(was, now, rows, replies, first)
    requires p < |was| && was[p].status.ClosePending? && ExitUnshared(was, p)
    ensures |now| == |was| && call >= first && (now[p].status.Closed? <==> Finishes(was[p], rows, replies(call)))
  {
    var ids := ParkedIds(was);
    ParkedIsListed(was, p);
    var k :| 0 <= k < |ids| && ids[k] == p;
    call := first + AllPolls(was, ids[..k], |rows|);
    assert ResolvedAt(was, now, rows, replies, first, ids, k);
  }

  // --- brackets left behind ------------------------------------------------------------------------

  predicate PositionOpen(ps: seq<Position>, pid: nat) { pid < |ps| && ps[pid].status.Open? }

  /** Still active while its position is no longer open. */
  predicate Orphan(b: BracketRow, ps: seq<Position>) { b.active && !PositionOpen(ps, b.pid) }

  function Orphans(rows: seq<BracketRow>, ps: seq<Position>): nat {
    if rows == [] then 0 else Orphans(rows[..|rows| - 1], ps) + if Orphan(rows[|rows| - 1], ps) then 1 else 0
  }

  /** How many deletions these rows ask for. */
  function Deletions(rows: seq<BracketRow>, ps: seq<Position>): nat {
    if rows == [] then 0
    else
      var b := rows[|rows| - 1];
      Deletions(rows[..|rows| - 1], ps) + if Orphan(b, ps) && b.gtt.Some? then 1 else 0
  }

  /** The k-th row is an orphan of this OCO, and the request to delete it arrived. */
  predicate Deletes(rows: seq<BracketRow>, ps: seq<Position>, replies: nat -> Reply, first: nat, k: nat, gtt: nat)
    requires k < |rows|
  {
    Orphan(rows[k], ps) && rows[k].gtt == Some(gtt) && !replies(first + Deletions(rows[..k], ps)).Lost?
  }

  ghost predicate DeletedBefore(rows: seq<BracketRow>, ps: seq<Position>, replies: nat -> Reply, first: nat, n: nat,
                                gtt: nat)
    requires n <= |rows|
  {
    exists k :: 0 <= k < n && Deletes(rows, ps, replies, first, k, gtt)
  }

  lemma OneMoreDeletion(rows: seq<BracketRow>, ps: seq<Position>, replies: nat -> Reply, first: nat, i: nat, gtt: nat)
    requires i < |rows|
    ensures DeletedBefore(rows, ps, replies, first, i + 1, gtt)
            <==> DeletedBefore(rows, ps, replies, first, i, gtt) || Deletes(rows, ps, replies, first, i, gtt)
  {
  }

  /** What rests has lost exactly the OCOs whose deletion arrived, among the first n rows. */
  ghost predicate Deleted(was: map<nat, nat>, now: map<nat, nat>, rows: seq<BracketRow>, ps: seq<Position>,
                          replies: nat -> Reply, first: nat, n: nat)
    requires n <= |rows|
  {
    && (forall g :: g in now ==> g in was && now[g] == was[g])
    && forall g :: g in was ==> (g !in now <==> DeletedBefore(rows, ps, replies, first, n, g))
  }

  lemma DeletedStep(was: map<nat, nat>, mid: map<nat, nat>, now: map<nat, nat>, rows: seq<BracketRow>,
                    ps: seq<Position>, replies: nat -> Reply, first: nat, i: nat)
    requires i < |rows| && Deleted(was, mid, rows, ps, replies, first, i)
    requires now == if Orphan(rows[i], ps) && rows[i].gtt.Some? && !replies(first + Deletions(rows[..i], ps)).Lost?
                    then mid - {rows[i].gtt.value} else mid
    ensures Deleted(was, now, rows, ps, replies, first, i + 1)
  {
    forall g | g in was ensures g !in now <==> DeletedBefore(rows, ps, replies, first, i + 1, g) {
      OneMoreDeletion(rows, ps, replies, first, i, g);
    }
  }

  /** Orphans among the first n rows are retired, and with them rows of the same positions. */
  predicate RetiredUpTo(rows: seq<BracketRow>, now: seq<BracketRow>, ps: seq<Position>, n: nat) {
    && |now| == |rows|
    && forall k :: 0 <= k < |rows| ==>
         && now[k] == rows[k].(active := now[k].active)
         && (rows[k].active && PositionOpen(ps, rows[k].pid) ==> now[k].active)
         && (now[k].active ==> rows[k].active)
         && (k < n && !PositionOpen(ps, rows[k].pid) ==> !now[k].active)
  }

  /** Exactly the orphans have been retired. */
  predicate RetiredOrphans(rows: seq<BracketRow>, now: seq<BracketRow>, ps: seq<Position>) {
    && |now| == |rows|
    && forall k :: 0 <= k < |rows| ==> now[k] == rows[k].(active := rows[k].active && !Orphan(rows[k], ps))
  }

  lemma RetiredStep(rows: seq<BracketRow>, now: seq<BracketRow>, ps: seq<Position>, i: nat)
    requires i < |rows| && RetiredUpTo(rows, now, ps, i)
    ensures RetiredUpTo(rows, if Orphan(rows[i], ps) then Retired(now, rows[i].pid) else now, ps, i + 1)
  {
  }

  /** The brackets and the resting OCOs between two turns of a loop, the calls made and the orphans found so far. */
  datatype Rest = Rest(rows: seq<BracketRow>, gtts: map<nat, nat>, calls: nat, orphans: nat)

  /** The loop over the brackets, before its i-th turn. */
  ghost predicate Retiring(start: Rest, now: Rest, ps: seq<Position>, replies: nat -> Reply, i: nat) {
    && i <= |start.rows| && RetiredUpTo(start.rows, now.rows, ps, i)
    && Deleted(start.gtts, now.gtts, start.rows, ps, replies, start.calls, i)
    && now.calls == start.calls + Deletions(start.rows[..i], ps) && now.orphans == Orphans(start.rows[..i], ps)
  }

  /** One turn: an orphan is retired, and its OCO deleted if the request arrives. */
  predicate Retires(m: Rest, m': Rest, b: BracketRow, ps: seq<Position>, replies: nat -> Reply) {
    var asks := Orphan(b, ps) && b.gtt.Some?;
    && m'.rows == (if Orphan(b, ps) then Retired(m.rows, b.pid) else m.rows)
    && m'.gtts == (if asks && !replies(m.calls).Lost? then m.gtts - {b.gtt.value} else m.gtts)
    && m'.calls == m.calls + (if asks then 1 else 0) && m'.orphans == m.orphans + (if Orphan(b, ps) then 1 else 0)
  }

  lemma RetiringRows(start: Rest, m: Rest, m': Rest, ps: seq<Position>, replies: nat -> Reply, i: nat)
    requires Retiring(start, m, ps, replies, i) && i < |start.rows| && Retires(m, m', start.rows[i], ps, replies)
    ensures RetiredUpTo(start.rows, m'.rows, ps, i + 1)
  {
    RetiredStep(start.rows, m.rows, ps, i);
  }

  lemma RetiringGtts(start: Rest, m: Rest, m': Rest, ps: seq<Position>, replies: nat -> Reply, i: nat)
    requires Retiring(start, m, ps, replies, i) && i < |start.rows| && Retires(m, m', start.rows[i], ps, replies)
    ensures Deleted(start.gtts, m'.gtts, start.rows, ps, replies, start.calls, i + 1)
  {
    DeletedStep(start.gtts, m.gtts, m'.gtts, start.rows, ps, replies, start.calls, i);
  }

  lemma RetiringStep(start: Rest, m: Rest, m': Rest, ps: seq<Position>, replies: nat -> Reply, i: nat)
    requires Retiring(start, m, ps, replies, i) && i < |start.rows| && Retires(m, m', start.rows[i], ps, replies)
    ensures Retiring(start, m', ps, replies, i + 1)
  {
    assert start.rows[..i + 1][..i] == start.rows[..i];
    RetiringRows(start, m, m', ps, replies, i);
    RetiringGtts(start, m, m', ps, replies, i);
  }
}
