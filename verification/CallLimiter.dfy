/** api/auth.py: the sliding-window limiter in front of sensitive endpoints. */
module CallLimiter {
  import opened Numbers

  /** How many are no earlier than x. */
  function Since(times: seq<real>, x: real): nat {
    if times == [] then 0 else Since(times[..|times| - 1], x) + if times[|times| - 1] >= x then 1 else 0
  }

  predicate Ordered(times: seq<real>) { forall i, j :: 0 <= i < j < |times| ==> times[i] <= times[j] }

  lemma {:induction false} AllSince(times: seq<real>, x: real)
    requires forall i :: 0 <= i < |times| ==> times[i] >= x
    ensures Since(times, x) == |times|
  {
    if times == [] {
    } else {
      AllSince(times[..|times| - 1], x);
    }
  }

  lemma {:induction false} NoneSince(times: seq<real>, x: real)
    requires forall i :: 0 <= i < |times| ==> times[i] < x
    ensures Since(times, x) == 0
  {
    if times == [] {
    } else {
      NoneSince(times[..|times| - 1], x);
    }
  }

  lemma {:induction false} SinceAppend(a: seq<real>, b: seq<real>, x: real)
    ensures Since(a + b, x) == Since(a, x) + Since(b, x)
  {
    if b == [] {
      assert a + b == a;
    } else {
      assert (a + b)[..|a + b| - 1] == a + b[..|b| - 1];
      SinceAppend(a, b[..|b| - 1], x);
    }
  }

  /** One key: everything ever granted, and the latest cutoff applied to it. */
  datatype History = History(granted: seq<real>, cutoff: real)

  /** The queue is what was granted no earlier than the latest cutoff. */
  ghost predicate Follows(q: seq<real>, h: History) {
    && Ordered(h.granted) && Suffix(q, h.granted)
    && (forall i :: 0 <= i < |h.granted| - |q| ==> h.granted[i] < h.cutoff)
    && forall i :: 0 <= i < |q| ==> q[i] >= h.cutoff
  }

  predicate Suffix(q: seq<real>, all: seq<real>) { |q| <= |all| && q == all[|all| - |q|..] }

  lemma SuffixOrdered(q: seq<real>, all: seq<real>)
    requires Suffix(q, all) && Ordered(all)
    ensures Ordered(q)
  {
    assert forall i :: 0 <= i < |q| ==> q[i] == all[|all| - |q| + i];
  }

  lemma QueueCounts(q: seq<real>, h: History)
    requires Follows(q, h)
    ensures Since(h.granted, h.cutoff) == |q|
  {
    var n := |h.granted| - |q|;
    assert h.granted == h.granted[..n] + q;
    SinceAppend(h.granted[..n], q, h.cutoff);
    NoneSince(h.granted[..n], h.cutoff);
    AllSince(q, h.cutoff);
  }

  predicate NotBefore(h: History, now: real) {
    h.cutoff <= now && forall i :: 0 <= i < |h.granted| ==> h.granted[i] <= now
  }

  lemma FollowsAppend(q: seq<real>, h: History, now: real)
    requires Follows(q, h) && NotBefore(h, now)
    ensures Follows(q + [now], h.(granted := h.granted + [now]))
  {
    var n := |h.granted| - |q|;
    assert (h.granted + [now])[n..] == h.granted[n..] + [now];
  }

  predicate Allowed(h: History, cutoff: real, maxCalls: int) {
    Since(h.granted, MaxR(h.cutoff, cutoff)) < maxCalls
  }

  function Asked(h: History, now: real, cutoff: real, ok: bool): History {
    History(if ok then h.granted + [now] else h.granted, MaxR(h.cutoff, cutoff))
  }

  /** Grants from before the window leave the head of the queue. */
  method Prune(queue: seq<real>, cutoff: real, ghost h: History) returns (q: seq<real>)
    requires Follows(queue, h)
    ensures Follows(q, h.(cutoff := MaxR(h.cutoff, cutoff)))
  {
    q := queue;
    ghost var level := MaxR(h.cutoff, cutoff);
    while q != [] && q[0] < cutoff
      invariant Suffix(q, h.granted) && forall i :: 0 <= i < |h.granted| - |q| ==> h.granted[i] < level
      invariant forall i :: 0 <= i < |q| ==> q[i] >= h.cutoff
      decreases |q|
    {
      assert q[0] == h.granted[|h.granted| - |q|];
      q := q[1..];
    }
    SuffixOrdered(q, h.granted);
  }

  method Ask(queue: seq<real>, maxCalls: int, cutoff: real, now: real, ghost h: History)
    returns (q: seq<real>, ok: bool)
    requires Follows(queue, h) && NotBefore(h, now) && cutoff <= now
    ensures Follows(q, Asked(h, now, cutoff, ok))
    ensures ok <==> Allowed(h, cutoff, maxCalls)
  {
    q := Prune(queue, cutoff, h);
    ghost var h' := h.(cutoff := MaxR(h.cutoff, cutoff));
    QueueCounts(q, h');
    ok := |q| < maxCalls;
    if ok {
      FollowsAppend(q, h', now);
      q := q + [now];
    }
  }

  class Limiter {
    var buckets: map<string, seq<real>>
    ghost var histories: map<string, History>

    ghost predicate Valid()
      reads this
    {
      && buckets.Keys == histories.Keys
      && forall k :: k in buckets ==> Follows(buckets[k], histories[k])
    }

    constructor ()
      ensures Valid() && histories == map[]
    {
      buckets, histories := map[], map[];
    }

    ghost function HistoryOf(key: string, cutoff: real): History
      reads this
    {
      if key in histories then histories[key] else History([], cutoff)
    }

    /** Granted exactly when fewer than `maxCalls` grants for the key lie in the closed trailing window - or in the
        shortest window it was ever asked with, where the window varies from call to call. */
    method RateOk(key: string, maxCalls: int, perSeconds: real, now: real) returns (ok: bool)
      requires Valid() && perSeconds >= 0.0
      requires NotBefore(HistoryOf(key, now - perSeconds), now)
      modifies this
      ensures Valid()
      ensures ok <==> Allowed(old(HistoryOf(key, now - perSeconds)), now - perSeconds, maxCalls)
      ensures histories == old(histories)[key :=
                Asked(old(HistoryOf(key, now - perSeconds)), now, now - perSeconds, ok)]
    {
      var cutoff := now - perSeconds;
      ghost var h := HistoryOf(key, cutoff);
      var q := if key in buckets then buckets[key] else [];
      q, ok := Ask(q, maxCalls, cutoff, now, h);
      assert ok <==> Allowed(old(HistoryOf(key, now - perSeconds)), now - perSeconds, maxCalls);
      ghost var after := Asked(h, now, cutoff, ok);
      ghost var table := histories[key := after];
      assert table == old(histories)[key := Asked(old(HistoryOf(key, now - perSeconds)), now, now - perSeconds, ok)];
      buckets, histories := buckets[key := q], table;
    }
  }

  // --- a key asked with one window -----------------------------------------------------------------

  /** What is granted over a run of calls with the same limit and window. */
  function Grants(calls: seq<real>, maxCalls: int, per: real): seq<real> {
    if calls == [] then []
    else
      var before, now := Grants(calls[..|calls| - 1], maxCalls, per), calls[|calls| - 1];
      if Since(before, now - per) < maxCalls then before + [now] else before
  }

  /** One key's history after such a run, as the limiter keeps it. */
  function After(calls: seq<real>, maxCalls: int, per: real): History
    requires calls != []
  {
    var m := |calls| - 1;
    var now := calls[m];
    var h := if m == 0 then History([], now - per) else After(calls[..m], maxCalls, per);
    Asked(h, now, now - per, Allowed(h, now - per, maxCalls))
  }

  /** With one window the older cutoffs never matter. */
  lemma {:induction false} OneWindow(calls: seq<real>, maxCalls: int, per: real)
    requires calls != [] && Ordered(calls)
    ensures After(calls, maxCalls, per) == History(Grants(calls, maxCalls, per), calls[|calls| - 1] - per)
  {
    var m := |calls| - 1;
    if m > 0 { OneWindow(calls[..m], maxCalls, per); } else { assert calls[..m] == []; }
  }

  function Inside(times: seq<real>, s: real, t: real): nat {
    if times == [] then 0
    else Inside(times[..|times| - 1], s, t) + if s <= times[|times| - 1] <= t then 1 else 0
  }

  lemma {:induction false} InsideSince(times: seq<real>, s: real, t: real, x: real)
    requires x <= s
    ensures Inside(times, s, t) <= Since(times, x)
  {
    if times == [] {
    } else {
      InsideSince(times[..|times| - 1], s, t, x);
    }
  }

  predicate NoneAfter(times: seq<real>, t: real) { forall i :: 0 <= i < |times| ==> times[i] <= t }

  lemma {:induction false} InsideIsSince(times: seq<real>, s: real, t: real)
    requires NoneAfter(times, t)
    ensures Inside(times, s, t) == Since(times, s)
  {
    if times == [] {
    } else {
      assert NoneAfter(times[..|times| - 1], t);
      InsideIsSince(times[..|times| - 1], s, t);
    }
  }

  lemma {:induction false} GrantsNotAfter(calls: seq<real>, maxCalls: int, per: real, t: real)
    requires NoneAfter(calls, t)
    ensures NoneAfter(Grants(calls, maxCalls, per), t)
  {
    if calls == [] {
    } else {
      var init, last := calls[..|calls| - 1], calls[|calls| - 1];
      assert NoneAfter(init, t) && last <= t;
      GrantsNotAfter(init, maxCalls, per, t);
      assert NoneAfter(Grants(init, maxCalls, per) + [last], t);
    }
  }

  /** A call at `now`, after these, is refused only where the closed window before it already holds the limit, and
      granted otherwise. */
  lemma GrantedIff(calls: seq<real>, now: real, maxCalls: int, per: real)
    requires NoneAfter(calls, now)
    ensures var granted := Grants(calls, maxCalls, per);
            Grants(calls + [now], maxCalls, per)
            == if Inside(granted, now - per, now) < maxCalls then granted + [now] else granted
  {
    assert (calls + [now])[..|calls|] == calls;
    WindowCounts(calls, maxCalls, per, now);
  }

  lemma WindowCounts(calls: seq<real>, maxCalls: int, per: real, now: real)
    requires NoneAfter(calls, now)
    ensures var granted := Grants(calls, maxCalls, per); Inside(granted, now - per, now) == Since(granted, now - per)
  {
    GrantsNotAfter(calls, maxCalls, per, now);
    InsideIsSince(Grants(calls, maxCalls, per), now - per, now);
  }

  /** No closed window of that length ever holds more than the limit. */
  lemma {:induction false} WindowHoldsLimit(calls: seq<real>, maxCalls: nat, per: real, s: real)
    requires Ordered(calls) && per >= 0.0
    ensures Inside(Grants(calls, maxCalls, per), s, s + per) <= maxCalls
  {
    if calls == [] {
    } else {
      var m := |calls| - 1;
      var before, now := Grants(calls[..m], maxCalls, per), calls[m];
      WindowHoldsLimit(calls[..m], maxCalls, per, s);
      if Since(before, now - per) < maxCalls {
        assert (before + [now])[..|before|] == before;
        if s <= now <= s + per { InsideSince(before, s, s + per, now - per); }
      }
    }
  }
}
