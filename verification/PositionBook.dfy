/** execution/position_book.py: the positions and brackets tables. */
module PositionBook {
  import opened Options
  import opened OrderPolicy

  datatype RowStatus = Open | ClosePending(exit: Option<nat>) | Closed

  datatype Position = Position(token: int, long: bool, qty: nat, status: RowStatus, gtt: Option<nat>)

  datatype BracketRow = BracketRow(pid: nat, gtt: Option<nat>, active: bool)

  function SignedQty(p: Position): int { Signed(p.long, p.qty) }

  /** Signed quantity of the open positions on an instrument. */
  function OpenQty(ps: seq<Position>, token: int): int {
    if ps == [] then 0
    else
      var p := ps[|ps| - 1];
      OpenQty(ps[..|ps| - 1], token) + if p.token == token && p.status.Open? then SignedQty(p) else 0
  }

  /** Quantity a list of broker rows reports for an instrument. */
  function RowQty(rows: seq<(int, int)>, token: int): int {
    if rows == [] then 0
    else RowQty(rows[..|rows| - 1], token) + if rows[|rows| - 1].0 == token then rows[|rows| - 1].1 else 0
  }

  lemma {:induction false} OpenQtyUpdate(ps: seq<Position>, k: nat, p: Position, token: int)
    requires k < |ps|
    ensures OpenQty(ps[k := p], token)
            == OpenQty(ps, token) - OpenQty([ps[k]], token) + OpenQty([p], token)
  {
    var n := |ps| - 1;
    assert [p][..0] == [] && [ps[k]][..0] == [];
    if k == n {
      assert ps[k := p][..n] == ps[..n];
    } else {
      assert ps[k := p][..n] == ps[..n][k := p];
      OpenQtyUpdate(ps[..n], k, p, token);
    }
  }

  /** What a broker that agrees with the book would report: a row for each open position. */
  function BookRows(ps: seq<Position>): seq<(int, int)> {
    if ps == [] then []
    else
      var p := ps[|ps| - 1];
      BookRows(ps[..|ps| - 1]) + if p.status.Open? then [(p.token, SignedQty(p))] else []
  }

  /** Such rows, however the broker adds them up with others, come to the book's quantities. */
  lemma {:induction false} BookRowsAgree(ps: seq<Position>, token: int)
    ensures RowQty(BookRows(ps), token) == OpenQty(ps, token)
  {
    if ps == [] {
    } else {
      var init, p := ps[..|ps| - 1], ps[|ps| - 1];
      BookRowsAgree(init, token);
      var rows := BookRows(init);
      assert p.status.Open? ==> (rows + [(p.token, SignedQty(p))])[..|rows|] == rows;
      assert !p.status.Open? ==> rows + [] == rows;
    }
  }

  lemma {:induction false} RowQtyAppend(a: seq<(int, int)>, b: seq<(int, int)>, token: int)
    ensures RowQty(a + b, token) == RowQty(a, token) + RowQty(b, token)
  {
    if b == [] {
      assert a + b == a;
    } else {
      assert (a + b)[..|a + b| - 1] == a + b[..|b| - 1];
      RowQtyAppend(a, b[..|b| - 1], token);
    }
  }

  /** Ids of the parked positions, in order. */
  function ParkedIds(ps: seq<Position>): seq<nat> {
    if ps == [] then []
    else ParkedIds(ps[..|ps| - 1]) + if ps[|ps| - 1].status.ClosePending? then [|ps| - 1] else []
  }

  lemma {:induction false} ParkedIdsAre(ps: seq<Position>)
    ensures var ids := ParkedIds(ps);
            && (forall k :: 0 <= k < |ids| ==> ids[k] < |ps| && ps[ids[k]].status.ClosePending?)
            && forall i, j :: 0 <= i < j < |ids| ==> ids[i] < ids[j]
  {
    if ps == [] {
    } else {
      var init := ps[..|ps| - 1];
      ParkedIdsAre(init);
      forall k | 0 <= k < |ParkedIds(init)|
        ensures ParkedIds(init)[k] < |init| && ps[ParkedIds(init)[k]].status.ClosePending?
      {
        assert init[ParkedIds(init)[k]] == ps[ParkedIds(init)[k]];
      }
    }
  }

  lemma {:induction false} ParkedIsListed(ps: seq<Position>, p: nat)
    requires p < |ps| && ps[p].status.ClosePending?
    ensures p in ParkedIds(ps)
  {
    if p == |ps| - 1 {
    } else {
      ParkedIsListed(ps[..|ps| - 1], p);
    }
  }

  function Retired(rows: seq<BracketRow>, pid: nat): seq<BracketRow> {
    seq(|rows|, i requires 0 <= i < |rows| => if rows[i].pid == pid then rows[i].(active := false) else rows[i])
  }

  function Finalised(s: RowStatus): RowStatus { if s.Open? || s.ClosePending? then Closed else s }

  function Lookup(m: map<int, int>, token: int): int { if token in m then m[token] else 0 }

  class PositionBook {
    var positions: seq<Position>     // keyed by id: ids count up
    var brackets: seq<BracketRow>

    constructor ()
      ensures positions == [] && brackets == []
    {
      positions, brackets := [], [];
    }

    method OpenPosition(token: int, long: bool, qty: nat) returns (pid: nat)
      modifies `positions
      ensures pid == |old(positions)|
      ensures positions == old(positions) + [Position(token, long, qty, Open, None)]
    {
      pid := |positions|;
      positions := positions + [Position(token, long, qty, Open, None)];
    }

    method ClosePosition(pid: nat) returns (closed: bool)
      requires pid < |positions|
      modifies `positions
      ensures closed <==> !old(positions[pid].status).Closed?
      ensures positions == old(positions)[pid := old(positions)[pid].(status := Closed)]
    {
      var p := positions[pid];
      closed := p.status.Open? || p.status.ClosePending?;
      positions := positions[pid := p.(status := Finalised(p.status))];
    }

    method MarkClosePending(pid: nat, exit: Option<nat>)
      requires pid < |positions|
      modifies `positions
      ensures positions == old(positions)[pid := old(positions)[pid].(status := ClosePending(exit))]
    {
      positions := positions[pid := positions[pid].(status := ClosePending(exit))];
    }

    method AttachBracket(pid: nat, gtt: nat)
      requires pid < |positions|
      modifies this
      ensures positions == old(positions)[pid := old(positions)[pid].(gtt := Some(gtt))]
      ensures brackets == old(brackets) + [BracketRow(pid, Some(gtt), true)]
    {
      positions := positions[pid := positions[pid].(gtt := Some(gtt))];
      brackets := brackets + [BracketRow(pid, Some(gtt), true)];
    }

    method RetireBrackets(pid: nat)
      modifies `brackets
      ensures brackets == Retired(old(brackets), pid)
    {
      brackets := Retired(brackets, pid);
    }

    /** Every parked position, with its exit order known or not. */
    method PendingCloses() returns (pids: seq<nat>)
      ensures pids == ParkedIds(positions)
    {
      pids := [];
      for p := 0 to |positions|
        invariant pids == ParkedIds(positions[..p])
      {
        assert positions[..p + 1][..p] == positions[..p];
        if positions[p].status.ClosePending? {
          pids := pids + [p];
        }
      }
      assert positions[..|positions|] == positions;
    }

    /** The instruments on which the open book and the broker disagree, with both quantities. */
    method Reconcile(rows: seq<(int, int)>) returns (mismatches: map<int, (int, int)>)
      ensures forall token :: token in mismatches <==> OpenQty(positions, token) != RowQty(rows, token)
      ensures forall token :: token in mismatches ==>
                mismatches[token] == (OpenQty(positions, token), RowQty(rows, token))
    {
      var ours: map<int, int> := map[];
      for k := 0 to |positions|
        invariant forall token :: Lookup(ours, token) == OpenQty(positions[..k], token)
      {
        assert positions[..k + 1][..k] == positions[..k];
        var p := positions[k];
        if p.status.Open? {
          ours := ours[p.token := Lookup(ours, p.token) + Signed(p.long, p.qty)];
        }
      }
      var theirs: map<int, int> := map[];
      for k := 0 to |rows|
        invariant forall token :: Lookup(theirs, token) == RowQty(rows[..k], token)
      {
        assert rows[..k + 1][..k] == rows[..k];
        theirs := theirs[rows[k].0 := Lookup(theirs, rows[k].0) + rows[k].1];
      }
      assert positions[..|positions|] == positions && rows[..|rows|] == rows;
      mismatches := map token | token in ours.Keys + theirs.Keys && Lookup(ours, token) != Lookup(theirs, token)
        :: (Lookup(ours, token), Lookup(theirs, token));
      forall token ensures token in mismatches <==> OpenQty(positions, token) != RowQty(rows, token) {
        assert Lookup(ours, token) == OpenQty(positions, token);
        assert Lookup(theirs, token) == RowQty(rows, token);
      }
    }
  }
}
