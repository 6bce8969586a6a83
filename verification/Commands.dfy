/** common/commands.py: the durable command table, and the engine that drains it, crashes and recovers. */
module Commands {
  import opened Options

  datatype Status = Created | Claimed | Executing | Succeeded | Retrying | DeadLetter

  datatype Event = Claim | Succeed | Fail

  const MAX_ATTEMPTS: nat := 5

  function NextState(current: Status, event: Event, attempts: nat): Status {
    if event.Claim? && (current.Created? || current.Retrying?) then Claimed
    else if event.Succeed? && (current.Claimed? || current.Executing?) then Succeeded
    else if event.Fail? && (current.Claimed? || current.Executing?) then
      if attempts + 1 >= MAX_ATTEMPTS then DeadLetter else Retrying
    else current
  }

  datatype Row = Row(key: Option<string>, status: Status, attempts: nat)

  predicate Pending(r: Row) { r.status.Created? || r.status.Retrying? }

  predicate Stuck(r: Row) { r.status.Claimed? || r.status.Executing? }

  predicate Finished(r: Row) { r.status.Succeeded? || r.status.DeadLetter? }

  // --- the table statements as functions -------------------------------------------------------

  /** The oldest pending rows, at most n of them. */
  function Oldest(rows: seq<Row>, from: nat, n: nat): seq<nat>
    requires from <= |rows|
    decreases |rows| - from
  {
    if n == 0 || from == |rows| then []
    else if Pending(rows[from]) then [from] + Oldest(rows, from + 1, n - 1)
    else Oldest(rows, from + 1, n)
  }

  predicate Increasing(ids: seq<nat>) { forall j, k :: 0 <= j < k < |ids| ==> ids[j] < ids[k] }

  predicate ArePending(rows: seq<Row>, ids: seq<nat>) {
    forall k :: 0 <= k < |ids| ==> ids[k] < |rows| && Pending(rows[ids[k]])
  }

  lemma {:induction false} OldestPicks(rows: seq<Row>, from: nat, n: nat)
    requires from <= |rows|
    ensures var ids := Oldest(rows, from, n);
            Increasing(ids) && ArePending(rows, ids) && forall k :: 0 <= k < |ids| ==> from <= ids[k]
    decreases |rows| - from
  {
    if n == 0 || from == |rows| {
    } else {
      OldestPicks(rows, from + 1, if Pending(rows[from]) then n - 1 else n);
    }
  }

  /** A pending row is left unclaimed only for n others that are older. */
  lemma {:induction false} OldestFirst(rows: seq<Row>, from: nat, n: nat, i: nat)
    requires from <= i < |rows| && Pending(rows[i])
    ensures var ids := Oldest(rows, from, n);
            |ids| <= n && (i in ids || (|ids| == n && forall k :: 0 <= k < |ids| ==> ids[k] < i))
    decreases |rows| - from
  {
    if n == 0 {
    } else {
      var m := if Pending(rows[from]) then n - 1 else n;
      if from < i {
        OldestFirst(rows, from + 1, m, i);
      } else {
        OldestAtMost(rows, from + 1, m);
        assert Oldest(rows, from, n)[0] == i;
      }
    }
  }

  lemma {:induction false} OldestAtMost(rows: seq<Row>, from: nat, n: nat)
    requires from <= |rows|
    ensures |Oldest(rows, from, n)| <= n
    decreases |rows| - from
  {
    if n > 0 && from < |rows| { OldestAtMost(rows, from + 1, if Pending(rows[from]) then n - 1 else n); }
  }

  function ClaimRows(rows: seq<Row>, ids: seq<nat>): seq<Row> {
    seq(|rows|, i requires 0 <= i < |rows| => if i in ids then rows[i].(status := Claimed) else rows[i])
  }

  function RecoverRows(rows: seq<Row>): seq<Row> {
    seq(|rows|, i requires 0 <= i < |rows| => if Stuck(rows[i]) then rows[i].(status := Retrying) else rows[i])
  }

  function StuckIds(rows: seq<Row>): set<int> { set i | 0 <= i < |rows| && Stuck(rows[i]) }

  /** After recovery nothing is stuck, what was can be claimed again with its attempts as they were, and every other
      row is as it was: recovering once more finds nothing. */
  lemma RecoveryFrees(rows: seq<Row>, i: nat)
    requires i < |rows|
    ensures var r := RecoverRows(rows);
            && |r| == |rows| && (i in StuckIds(rows) <==> rows[i].status.Claimed? || rows[i].status.Executing?)
            && r[i] == (if i in StuckIds(rows) then rows[i].(status := Retrying) else rows[i])
            && StuckIds(r) == {} && RecoverRows(r) == r
  {
  }

  function CompleteRow(r: Row): Row { r.(status := Succeeded) }

  function FailRow(r: Row): Row {
    r.(status := NextState(Claimed, Fail, r.attempts), attempts := r.attempts + 1)
  }

  /** A command that was claimed and failed so many times. */
  function FailedTimes(r: Row, n: nat): Row { if n == 0 then r else FailRow(FailedTimes(r, n - 1)) }

  /** A command can be claimed again after each failure but the fifth, and the fifth finishes it. */
  lemma {:induction false} FifthFailureIsLast(r: Row, n: nat)
    requires r.status.Created? && r.attempts == 0 && n <= 5
    ensures var f := FailedTimes(r, n);
            f.key == r.key && f.attempts == n && (Pending(f) <==> n < 5) && (f.status.DeadLetter? <==> n == 5)
  {
    if n == 0 {
    } else {
      FifthFailureIsLast(r, n - 1);
    }
  }

  function Find(rows: seq<Row>, key: string): Option<nat> {
    if rows == [] then None
    else if Find(rows[..|rows| - 1], key).Some? then Find(rows[..|rows| - 1], key)
    else if rows[|rows| - 1].key == Some(key) then Some(|rows| - 1)
    else None
  }

  lemma {:induction false} FindFinds(rows: seq<Row>, key: string)
    ensures Find(rows, key).Some? ==>
              Find(rows, key).value < |rows| && rows[Find(rows, key).value].key == Some(key)
    ensures Find(rows, key).None? ==> forall i :: 0 <= i < |rows| ==> rows[i].key != Some(key)
  {
    if rows == [] {
    } else {
      FindFinds(rows[..|rows| - 1], key);
    }
  }

  function EnqueueRows(rows: seq<Row>, key: Option<string>): seq<Row> {
    if key.Some? && Find(rows, key.value).Some? then rows else rows + [Row(key, Created, 0)]
  }

  class CommandTable {
    var rows: seq<Row>               // keyed by id, in creation order

    constructor () ensures rows == [] { rows := []; }

    /** A duplicate key hands back the existing id (an empty key hands back nothing) and adds no row. */
    method Enqueue(key: Option<string>) returns (id: Option<nat>)
      modifies this
      ensures rows == EnqueueRows(old(rows), key)
      ensures |rows| > |old(rows)| ==> id == Some(|old(rows)|)
      ensures rows == old(rows) ==> id == if key == Some("") then None else Find(rows, key.value)
    {
      var found: Option<nat> := None;
      var i := 0;
      if key.Some? {
        while i < |rows| && found.None?
          invariant 0 <= i <= |rows| && found == Find(rows[..i], key.value)
        {
          assert rows[..i + 1][..i] == rows[..i];
          if rows[i].key == key { found := Some(i); }
          i := i + 1;
        }
        FindPrefix(rows, i, key.value);
      }
      if found.Some? {
        return if key.value != "" then found else None;
      }
      id := Some(|rows|);
      rows := rows + [Row(key, Created, 0)];
    }

    method ClaimOldest(n: nat) returns (ids: seq<nat>)
      modifies this
      ensures ids == Oldest(old(rows), 0, n) && rows == ClaimRows(old(rows), ids)
    {
      ids := [];
      var i := 0;
      while i < |rows| && |ids| < n
        invariant 0 <= i <= |rows| && |ids| <= n
        invariant rows == old(rows) && ids + Oldest(rows, i, n - |ids|) == Oldest(rows, 0, n)
      {
        assert Pending(rows[i]) ==> Oldest(rows, i, n - |ids|) == [i] + Oldest(rows, i + 1, n - |ids| - 1);
        if Pending(rows[i]) { ids := ids + [i]; }
        i := i + 1;
      }
      assert Oldest(rows, i, n - |ids|) == [];
      rows := ClaimRows(rows, ids);
    }

    method Complete(id: nat)
      requires id < |rows|
      modifies this
      ensures rows == old(rows)[id := CompleteRow(old(rows)[id])]
    {
      rows := rows[id := rows[id].(status := Succeeded)];
    }

    method Fail(id: nat)
      requires id < |rows|
      modifies this
      ensures rows == old(rows)[id := FailRow(old(rows)[id])]
    {
      var attempts := rows[id].attempts;
      var new_ := NextState(Claimed, Event.Fail, attempts);
      rows := rows[id := rows[id].(status := new_, attempts := attempts + 1)];
    }

    method Recover() returns (n: nat)
      modifies this
      ensures rows == RecoverRows(old(rows)) && n == |StuckIds(old(rows))|
    {
      n := |StuckIds(rows)|;
      rows := RecoverRows(rows);
    }

    /** One turn of the engine's loop: claim, run each command, and record how it went. */
    method Drain(n: nat, succeeds: nat -> bool)
      modifies this
      ensures var ids := Oldest(old(rows), 0, n);
              ArePending(old(rows), ids) && rows == RunAll(ClaimRows(old(rows), ids), ids, succeeds)
    {
      OldestPicks(rows, 0, n);
      var ids := ClaimOldest(n);
      ghost var claimed := rows;
      for k := 0 to |ids|
        invariant |rows| == |claimed| && (forall j :: 0 <= j < |ids| ==> ids[j] < |rows|)
        invariant RunAll(rows, ids[k..], succeeds) == RunAll(claimed, ids, succeeds)
      {
        assert ids[k..][1..] == ids[k + 1..];
        if succeeds(ids[k]) { Complete(ids[k]); } else { Fail(ids[k]); }
      }
    }
  }

  /** The commands of a batch run in turn. */
  function RunAll(rows: seq<Row>, ids: seq<nat>, succeeds: nat -> bool): seq<Row>
    requires forall j :: 0 <= j < |ids| ==> ids[j] < |rows|
    decreases |ids|
  {
    if ids == [] then rows
    else
      var r := rows[ids[0]];
      RunAll(rows[ids[0] := if succeeds(ids[0]) then CompleteRow(r) else FailRow(r)], ids[1..], succeeds)
  }

  /** A drained batch: each claimed command ran once, and no other row moved. */
  lemma {:induction false} RunAllOnce(rows: seq<Row>, ids: seq<nat>, succeeds: nat -> bool, i: nat)
    requires (forall j :: 0 <= j < |ids| ==> ids[j] < |rows|) && Increasing(ids) && i < |rows|
    ensures |RunAll(rows, ids, succeeds)| == |rows|
    ensures RunAll(rows, ids, succeeds)[i]
            == if i !in ids then rows[i] else if succeeds(i) then CompleteRow(rows[i]) else FailRow(rows[i])
    decreases |ids|
  {
    if ids == [] {
    } else {
      var r := rows[ids[0]];
      assert ids == [ids[0]] + ids[1..];
      RunAllOnce(rows[ids[0] := if succeeds(ids[0]) then CompleteRow(r) else FailRow(r)], ids[1..], succeeds, i);
    }
  }

  lemma {:induction false} FindPrefix(rows: seq<Row>, i: nat, key: string)
    requires i <= |rows| && (i == |rows| || Find(rows[..i], key).Some?)
    ensures Find(rows, key) == Find(rows[..i], key)
  {
    if i < |rows| {
      assert rows[..|rows| - 1][..i] == rows[..i];
      FindPrefix(rows[..|rows| - 1], i, key);
    } else {
      assert rows[..i] == rows;
    }
  }

  // --- runs --------------------------------------------------------------------------------------

  /** What has happened to a command: how often it was claimed, and how often recovered. */
  datatype History = History(claims: nat, recoveries: nat)

  /** The table, its history, and the batch the engine holds in memory. */
  datatype System = System(rows: seq<Row>, hist: seq<History>, batch: seq<nat>, up: bool)

  datatype Action = Enqueue(key: Option<string>) | ClaimBatch(n: nat) | RunNext(succeeds: bool) | Crash | Boot

  predicate Enabled(s: System, a: Action) {
    && |s.hist| == |s.rows| && (forall k :: 0 <= k < |s.batch| ==> s.batch[k] < |s.rows|)
    && match a
       case Enqueue(_) => true
       case ClaimBatch(_) => s.up && s.batch == []
       case RunNext(_) => s.up && s.batch != []
       case Crash => s.up
       case Boot => !s.up
  }

  function Next(s: System, a: Action): System requires Enabled(s, a) {
    match a
    case Enqueue(key) =>
      var rows := EnqueueRows(s.rows, key);
      s.(rows := rows, hist := if |rows| > |s.rows| then s.hist + [History(0, 0)] else s.hist)
    case ClaimBatch(n) =>
      var ids := Oldest(s.rows, 0, n);
      s.(rows := ClaimRows(s.rows, ids), batch := ids,
         hist := seq(|s.hist|, i requires 0 <= i < |s.hist| =>
                   if i in ids then s.hist[i].(claims := s.hist[i].claims + 1) else s.hist[i]))
    case RunNext(succeeds) =>
      var id := s.batch[0];
      s.(rows := s.rows[id := if succeeds then CompleteRow(s.rows[id]) else FailRow(s.rows[id])],
         batch := s.batch[1..])
    case Crash => s.(up := false, batch := [])
    case Boot =>
      s.(up := true, rows := RecoverRows(s.rows),
         hist := seq(|s.hist|, i requires 0 <= i < |s.hist| && i < |s.rows| =>
                   if Stuck(s.rows[i]) then s.hist[i].(recoveries := s.hist[i].recoveries + 1) else s.hist[i]))
  }

  const START := System([], [], [], false)

  predicate Runs(s: System, run: seq<Action>) decreases |run| {
    run == [] || (Enabled(s, run[0]) && Runs(Next(s, run[0]), run[1..]))
  }

  function End(s: System, run: seq<Action>): System requires Runs(s, run) decreases |run| {
    if run == [] then s else End(Next(s, run[0]), run[1..])
  }

  /** Every claim of a command is a recorded attempt, was recovered, or still stands. */
  predicate Accounted(r: Row, h: History) {
    && h.claims == h.recoveries + r.attempts
                   + (if r.status.Claimed? then 1 else if r.status.Succeeded? then 1 else 0)
    && (if r.status.DeadLetter? then r.attempts == 5 else r.attempts < 5)
    && !r.status.Executing?
  }

  predicate UniqueKeys(rows: seq<Row>) {
    forall i, j :: 0 <= i < j < |rows| && rows[i].key.Some? ==> rows[i].key != rows[j].key
  }

  predicate Inv(s: System) {
    && |s.hist| == |s.rows|
    && (forall i :: 0 <= i < |s.rows| ==> Accounted(s.rows[i], s.hist[i]))
    && UniqueKeys(s.rows)
    && (forall k :: 0 <= k < |s.batch| ==> s.batch[k] < |s.rows| && s.rows[s.batch[k]].status.Claimed?)
    && (forall j, k :: 0 <= j < k < |s.batch| ==> s.batch[j] != s.batch[k])
    && (if s.up then forall i :: 0 <= i < |s.rows| && s.rows[i].status.Claimed? ==> i in s.batch else s.batch == [])
  }

  lemma EnqueueKeeps(s: System, key: Option<string>)
    requires Inv(s)
    ensures Inv(Next(s, Enqueue(key)))
  {
    if key.Some? { FindFinds(s.rows, key.value); }
  }

  lemma ClaimKeepsRow(s: System, n: nat, i: nat)
    requires Inv(s) && s.up && s.batch == [] && i < |s.rows|
    ensures var t := Next(s, ClaimBatch(n));
            && i < |t.rows| == |t.hist| && Accounted(t.rows[i], t.hist[i]) && t.rows[i].key == s.rows[i].key
            && (t.rows[i].status.Claimed? <==> i in t.batch)
  {
    OldestPicks(s.rows, 0, n);
    assert Accounted(s.rows[i], s.hist[i]);
    assert s.rows[i].status.Claimed? ==> i in s.batch;
    if i in Oldest(s.rows, 0, n) { assert Pending(s.rows[i]); }
  }

  lemma ClaimKeeps(s: System, n: nat)
    requires Inv(s) && s.up && s.batch == []
    ensures Inv(Next(s, ClaimBatch(n)))
  {
    var t := Next(s, ClaimBatch(n));
    OldestPicks(s.rows, 0, n);
    forall i | 0 <= i < |s.rows|
      ensures Accounted(t.rows[i], t.hist[i]) && t.rows[i].key == s.rows[i].key
              && (t.rows[i].status.Claimed? <==> i in t.batch)
    {
      ClaimKeepsRow(s, n, i);
    }
  }

  lemma RunNextKeeps(s: System, succeeds: bool)
    requires Inv(s) && Enabled(s, RunNext(succeeds))
    ensures Inv(Next(s, RunNext(succeeds)))
  {
    assert s.batch == [s.batch[0]] + s.batch[1..];
  }

  lemma StepKeeps(s: System, a: Action)
    requires Inv(s) && Enabled(s, a)
    ensures Inv(Next(s, a))
  {
    match a
    case Enqueue(key) => EnqueueKeeps(s, key);
    case ClaimBatch(n) => ClaimKeeps(s, n);
    case RunNext(succeeds) => RunNextKeeps(s, succeeds);
    case Crash =>
    case Boot =>
  }

  lemma {:induction false} RunKeeps(s: System, run: seq<Action>)
    requires Inv(s) && Runs(s, run)
    ensures Inv(End(s, run))
    decreases |run|
  {
    if run == [] {
    } else {
      StepKeeps(s, run[0]);
      RunKeeps(Next(s, run[0]), run[1..]);
    }
  }

  /** Over every run with crashes: exact accounting, bounded attempts, unique keys. */
  lemma Accounting(run: seq<Action>, i: nat)
    requires Runs(START, run) && i < |End(START, run).rows|
    ensures |End(START, run).hist| == |End(START, run).rows|
    ensures Accounted(End(START, run).rows[i], End(START, run).hist[i])
    ensures UniqueKeys(End(START, run).rows)
  {
    RunKeeps(START, run);
  }

  /** Each step takes each row where `next_state` says, or is the boot-time reset of a claimed row; a
      finished command never moves. */
  lemma StepsFollowNextState(s: System, a: Action, i: nat)
    requires Inv(s) && Enabled(s, a) && i < |s.rows|
    ensures i < |Next(s, a).rows| && Next(s, a).rows[i].key == s.rows[i].key
    ensures var was, now := s.rows[i], Next(s, a).rows[i];
            && (Finished(was) ==> now == was)
            && (now == was
                || (a.ClaimBatch? && Pending(was) && now == was.(status := NextState(was.status, Claim, was.attempts)))
                || (a == RunNext(true) && now == was.(status := NextState(was.status, Succeed, was.attempts)))
                || (a == RunNext(false) && now == was.(status := NextState(was.status, Fail, was.attempts),
                                                       attempts := was.attempts + 1))
                || (a.Boot? && was.status.Claimed? && now == was.(status := Retrying)))
  {
    if a.ClaimBatch? { OldestPicks(s.rows, 0, a.n); }
  }

  // --- termination -------------------------------------------------------------------------------

  function Weight(r: Row): nat {
    if Finished(r) || r.attempts >= MAX_ATTEMPTS then 0
    else 2 * (MAX_ATTEMPTS - r.attempts) + if Pending(r) then 1 else 0
  }

  /** Work left: an upper bound on crash-free steps. */
  function Work(rows: seq<Row>): nat {
    if rows == [] then 0 else Work(rows[..|rows| - 1]) + Weight(rows[|rows| - 1])
  }

  lemma {:induction false} WorkShrinks(a: seq<Row>, b: seq<Row>)
    requires |a| == |b| && forall i :: 0 <= i < |a| ==> Weight(b[i]) <= Weight(a[i])
    ensures Work(b) <= Work(a)
    ensures (exists i :: 0 <= i < |a| && Weight(b[i]) < Weight(a[i])) ==> Work(b) < Work(a)
  {
    if a == [] {
    } else {
      WorkShrinks(a[..|a| - 1], b[..|b| - 1]);
      if i :| 0 <= i < |a| && Weight(b[i]) < Weight(a[i]) && i < |a| - 1 {
        assert Weight(b[..|b| - 1][i]) < Weight(a[..|a| - 1][i]);
      }
    }
  }

  /** Claiming something pending, or running something claimed. */
  predicate Productive(s: System, a: Action) requires Enabled(s, a) {
    a.RunNext? || (a.ClaimBatch? && a.n > 0 && exists i :: 0 <= i < |s.rows| && Pending(s.rows[i]))
  }

  lemma ClaimedRows(rows: seq<Row>, ids: seq<nat>)
    requires ArePending(rows, ids) && ids != [] && rows[ids[0]].attempts < MAX_ATTEMPTS
    ensures |ClaimRows(rows, ids)| == |rows| && Work(ClaimRows(rows, ids)) < Work(rows)
  {
    var now := ClaimRows(rows, ids);
    forall i | 0 <= i < |rows| ensures Weight(now[i]) <= Weight(rows[i]) {
      if i in ids { assert Pending(rows[i]); }
    }
    assert ids[0] in ids && Pending(rows[ids[0]]);
    assert Weight(now[ids[0]]) < Weight(rows[ids[0]]);
    WorkShrinks(rows, now);
  }

  lemma ClaimProgresses(s: System, n: nat, i: nat)
    requires Inv(s) && s.up && s.batch == [] && n > 0 && i < |s.rows| && Pending(s.rows[i])
    ensures Work(Next(s, ClaimBatch(n)).rows) < Work(s.rows)
  {
    OldestPicks(s.rows, 0, n);
    OldestFirst(s.rows, 0, n, i);
    var first := Oldest(s.rows, 0, n)[0];
    assert Accounted(s.rows[first], s.hist[first]);
    ClaimedRows(s.rows, Oldest(s.rows, 0, n));
  }

  lemma StepProgresses(s: System, a: Action)
    requires Inv(s) && Enabled(s, a) && Productive(s, a)
    ensures Work(Next(s, a).rows) < Work(s.rows)
  {
    if a.ClaimBatch? {
      var i :| 0 <= i < |s.rows| && Pending(s.rows[i]);
      ClaimProgresses(s, a.n, i);
    } else {
      var now := Next(s, a).rows;
      assert Weight(now[s.batch[0]]) < Weight(s.rows[s.batch[0]]);
      WorkShrinks(s.rows, now);
    }
  }

  predicate AllProductive(s: System, run: seq<Action>) requires Runs(s, run) decreases |run| {
    run == [] || (Productive(s, run[0]) && AllProductive(Next(s, run[0]), run[1..]))
  }

  /** Crash-free processing is finite, and where it can go no further every command is finished. */
  lemma {:induction false} CrashFreeEnds(s: System, run: seq<Action>)
    requires Inv(s) && Runs(s, run) && AllProductive(s, run)
    ensures |run| + Work(End(s, run).rows) <= Work(s.rows)
    ensures var e := End(s, run);
            e.up && !(e.batch != []) && !(exists i :: 0 <= i < |e.rows| && Pending(e.rows[i])) ==>
              forall i :: 0 <= i < |e.rows| ==> Finished(e.rows[i])
    decreases |run|
  {
    if run == [] {
      forall i | 0 <= i < |s.rows| ensures Accounted(s.rows[i], s.hist[i]) {}
    } else {
      StepKeeps(s, run[0]);
      StepProgresses(s, run[0]);
      CrashFreeEnds(Next(s, run[0]), run[1..]);
    }
  }

  ghost predicate CanReach(s: System) { exists run :: Runs(START, run) && End(START, run) == s }

  /** Recovery is not an attempt: a command that takes the engine down is claimed without end. */
  lemma {:induction false} CrashLoop(n: nat)
    ensures CanReach(System([Row(None, if n == 0 then Created else Retrying, 0)], [History(n, n)], [], true))
  {
    if n == 0 {
      assert Runs(START, []) && End(START, []) == START;
      Reach(START, Boot);
      Reach(START.(up := true), Enqueue(None));
    } else {
      CrashLoop(n - 1);
      CrashOnce(Row(None, if n == 1 then Created else Retrying, 0), n);
    }
  }

  lemma OnlyRowIsClaimed(r: Row, h: History, n: nat)
    requires Pending(r) && n > 0
    ensures Next(System([r], [h], [], true), ClaimBatch(n))
         == System([r.(status := Claimed)], [h.(claims := h.claims + 1)], [0], true)
  {
    assert Oldest([r], 1, n - 1) == [];
    assert Oldest([r], 0, n) == [0];
  }

  lemma CrashOnce(r: Row, n: nat)
    requires Pending(r) && r == Row(None, r.status, 0) && n > 0
    requires CanReach(System([r], [History(n - 1, n - 1)], [], true))
    ensures CanReach(System([Row(None, Retrying, 0)], [History(n, n)], [], true))
  {
    var s, claimed := System([r], [History(n - 1, n - 1)], [], true),
                      System([Row(None, Claimed, 0)], [History(n, n - 1)], [0], true);
    OnlyRowIsClaimed(r, History(n - 1, n - 1), 50);
    Reach(s, ClaimBatch(50));
    assert Next(claimed, Crash) == claimed.(up := false, batch := []);
    Reach(claimed, Crash);
    CrashedBoots(claimed.(up := false, batch := []), n);
  }

  lemma CrashedBoots(down: System, n: nat)
    requires CanReach(down) && n > 0
    requires down == System([Row(None, Claimed, 0)], [History(n, n - 1)], [], false)
    ensures CanReach(System([Row(None, Retrying, 0)], [History(n, n)], [], true))
  {
    assert Next(down, Boot) == System([Row(None, Retrying, 0)], [History(n, n)], [], true);
    Reach(down, Boot);
  }

  lemma Reach(s: System, a: Action)
    requires CanReach(s) && Enabled(s, a)
    ensures CanReach(Next(s, a))
  {
    var run :| Runs(START, run) && End(START, run) == s;
    GrowFrom(START, run, a);
  }

  lemma {:induction false} GrowFrom(s: System, run: seq<Action>, a: Action)
    requires Runs(s, run) && Enabled(End(s, run), a)
    ensures Runs(s, run + [a]) && End(s, run + [a]) == Next(End(s, run), a)
    decreases |run|
  {
    if run == [] {
      assert run + [a] == [a];
    } else {
      GrowFrom(Next(s, run[0]), run[1..], a);
      assert (run + [a])[1..] == run[1..] + [a];
    }
  }
}
