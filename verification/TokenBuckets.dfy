/** data/rate_governor.py: the token bucket every broker call goes through. */
module TokenBuckets {
  import opened Numbers

  datatype Bucket = Bucket(capacity: real, rate: real, tokens: real, last: real) {
    predicate Valid() { capacity >= 0.0 && rate > 0.0 && 0.0 <= tokens <= capacity }

    /** The level once the time since the last look is credited. */
    function Level(now: real): real { MinR(capacity, tokens + Accrued(rate, now - last)) }

    predicate Grants(now: real, want: real) { Level(now) >= want }

    /** After one pass through the locked section. */
    function After(now: real, want: real): Bucket {
      this.(tokens := if Grants(now, want) then Level(now) - want else Level(now), last := now)
    }

    /** How long a refused caller sleeps. */
    function Wait(now: real, want: real): real requires rate > 0.0 { (want - Level(now)) / rate }
  }

  function Accrued(rate: real, d: real): real { d * rate }

  lemma AccruedGrows(rate: real, d: real, e: real)
    requires rate >= 0.0
    ensures Accrued(rate, d) + Accrued(rate, e) == Accrued(rate, d + e)
    ensures e >= 0.0 ==> Accrued(rate, e) >= 0.0
  {
  }

  class TokenBucket {
    const capacity: real
    const rate: real
    var tokens: real
    var last: real

    ghost function State(): Bucket
      reads this
    {
      Bucket(capacity, rate, tokens, last)
    }

    constructor (capacity: real, rate: real, now: real)
      ensures State() == Bucket(capacity, rate, capacity, now)
    {
      this.capacity, this.rate, tokens, last := capacity, rate, capacity, now;
    }

    /** One pass of `acquire` through its lock: granted, or how long to sleep before the next. */
    method Pass(now: real, want: real) returns (granted: bool, wait: real)
      requires State().Valid() && now >= last && want >= 0.0
      modifies this
      ensures State().Valid()
      ensures State() == old(State()).After(now, want)
      ensures granted <==> old(State()).Grants(now, want)
      ensures !granted ==> wait == old(State()).Wait(now, want) > 0.0
    {
      AccruedGrows(rate, 0.0, now - last);
      tokens := MinR(capacity, tokens + Accrued(rate, now - last));
      last := now;
      granted, wait := false, 0.0;
      if tokens >= want {
        tokens := tokens - want;
        granted := true;
      } else {
        wait := (want - tokens) / rate;
        Positive(want - tokens, rate);
      }
    }
  }

  lemma Positive(a: real, r: real)
    requires a > 0.0 && r > 0.0
    ensures a / r > 0.0 && a / r * r == a
  {
  }

  // --- any number of callers -----------------------------------------------------------------------

  /** A pass by some caller. */
  datatype Attempt = Attempt(now: real, want: real)

  /** The lock admits one caller at a time, in the order of the clock. */
  predicate Orderly(b: Bucket, run: seq<Attempt>) {
    && (forall i :: 0 <= i < |run| ==> run[i].want >= 0.0 && b.last <= run[i].now)
    && forall i, j :: 0 <= i < j < |run| ==> run[i].now <= run[j].now
  }

  function Runs(b: Bucket, run: seq<Attempt>): Bucket {
    if run == [] then b
    else
      var a := run[|run| - 1];
      Runs(b, run[..|run| - 1]).After(a.now, a.want)
  }

  /** Tokens granted from time s to time t. */
  function Granted(b: Bucket, run: seq<Attempt>, s: real, t: real): real {
    if run == [] then 0.0
    else
      var a, before := run[|run| - 1], run[..|run| - 1];
      Granted(b, before, s, t) + if s <= a.now <= t && Runs(b, before).Grants(a.now, a.want) then a.want else 0.0
  }

  lemma PassKeeps(b: Bucket, now: real, want: real)
    requires b.Valid() && now >= b.last && want >= 0.0
    ensures b.After(now, want).Valid() && b.Level(now) <= b.tokens + Accrued(b.rate, now - b.last)
  {
    AccruedGrows(b.rate, 0.0, now - b.last);
  }

  lemma {:induction false} RunKeeps(b: Bucket, run: seq<Attempt>)
    requires b.Valid() && Orderly(b, run)
    ensures var e := Runs(b, run);
            && e.Valid() && e.capacity == b.capacity && e.rate == b.rate
            && e.last == if run == [] then b.last else run[|run| - 1].now
  {
    if run == [] {
    } else {
      var m := |run| - 1;
      RunKeeps(b, run[..m]);
      PassKeeps(Runs(b, run[..m]), run[m].now, run[m].want);
    }
  }

  /** What has been granted since s, with what is still in the bucket. */
  predicate Within(granted: real, e: Bucket, s: real, t: real) {
    if e.last < s then granted == 0.0
    else if e.last <= t then granted + e.tokens <= e.capacity + Accrued(e.rate, e.last - s)
    else granted <= e.capacity + Accrued(e.rate, t - s)
  }

  lemma WithinStep(e: Bucket, now: real, want: real, granted: real, s: real, t: real)
    requires e.Valid() && now >= e.last && want >= 0.0 && s <= t && Within(granted, e, s, t)
    ensures Within(granted + if s <= now <= t && e.Grants(now, want) then want else 0.0, e.After(now, want), s, t)
  {
    PassKeeps(e, now, want);
    AccruedGrows(e.rate, e.last - s, now - e.last);
    AccruedGrows(e.rate, 0.0, now - s);
    AccruedGrows(e.rate, e.last - s, t - e.last);
    AccruedGrows(e.rate, 0.0, t - s);
  }

  lemma {:induction false} RunWithin(b: Bucket, run: seq<Attempt>, s: real, t: real)
    requires b.Valid() && Orderly(b, run) && s <= t
    ensures Within(Granted(b, run, s, t), Runs(b, run), s, t)
  {
    if run == [] {
      AccruedGrows(b.rate, 0.0, b.last - s);
      AccruedGrows(b.rate, 0.0, t - s);
    } else {
      var m := |run| - 1;
      RunWithin(b, run[..m], s, t);
      RunKeeps(b, run[..m]);
      WithinStep(Runs(b, run[..m]), run[m].now, run[m].want, Granted(b, run[..m], s, t), s, t);
    }
  }

  /** However many callers, no window grants more than a full bucket and what accrues in it. */
  lemma WindowBound(b: Bucket, run: seq<Attempt>, s: real, t: real)
    requires b.Valid() && Orderly(b, run) && s <= t
    ensures Granted(b, run, s, t) <= b.capacity + Accrued(b.rate, t - s)
  {
    RunWithin(b, run, s, t);
    RunKeeps(b, run);
    var e := Runs(b, run);
    AccruedGrows(b.rate, 0.0, t - s);
    AccruedGrows(b.rate, e.last - s, t - e.last);
  }

  /** A caller alone, refused at `now` and back no earlier than it was told: granted exactly when the bucket can hold
      what it wants. */
  lemma LoneWaiterGrantedIff(b: Bucket, now: real, want: real, back: real)
    requires b.Valid() && now >= b.last && want >= 0.0 && !b.Grants(now, want)
    requires back >= now + b.Wait(now, want)
    ensures b.After(now, want).Grants(back, want) <==> want <= b.capacity
  {
    var wait, level := b.Wait(now, want), b.Level(now);
    Positive(want - level, b.rate);
    AccruedGrows(b.rate, wait, back - now - wait);
    assert Accrued(b.rate, wait) == want - level;
  }

  /** No earlier: a caller alone that returns too soon, while the bucket is not full, is refused again. */
  lemma ReturningEarlyRefused(b: Bucket, now: real, want: real, back: real)
    requires b.Valid() && now >= b.last && want >= 0.0 && !b.Grants(now, want)
    requires now <= back < now + b.Wait(now, want)
    ensures !b.After(now, want).Grants(back, want)
  {
    var wait, level := b.Wait(now, want), b.Level(now);
    Positive(want - level, b.rate);
    AccruedGrows(b.rate, back - now, wait - (back - now));
    Strict(b.rate, wait - (back - now));
  }

  lemma Strict(rate: real, d: real)
    requires rate > 0.0 && d > 0.0
    ensures Accrued(rate, d) > 0.0
  {
  }
}
