/** data/rate_governor.py: how many orders may be sent in a minute and in a day. */
module OrderGuard {
  import opened Options

  /** `times` may have lost orders too old to matter; `count` is the day's. */
  datatype Counter = Counter(times: seq<real>, count: int, day: Option<int>)

  const MINUTE := 60.0

  function Recent(times: seq<real>, now: real): seq<real> {
    if times == [] then []
    else
      var t := times[|times| - 1];
      Recent(times[..|times| - 1], now) + if now - t < MINUTE then [t] else []
  }

  function Rolled(c: Counter, today: int): Counter { if c.day == Some(today) then c else Counter([], 0, Some(today)) }

  function Checked(c: Counter, now: real, today: int): Counter {
    var r := Rolled(c, today);
    r.(times := Recent(r.times, now))
  }

  function Recorded(c: Counter, now: real): Counter { c.(times := c.times + [now], count := c.count + 1) }

  datatype Caps = Caps(minute: int, day: int)

  predicate Passes(c: Counter, caps: Caps) { c.count < caps.day && |c.times| < caps.minute }

  datatype Reply = Done | TooMany | Broken

  datatype Outcome = Answered | Capped | Failed

  const MAX_RETRIES: nat := 5

  class RateGovernor {
    const caps: Caps
    var orderTimes: seq<real>
    var dailyCount: int
    var dailyDate: Option<int>

    function State(): Counter
      reads this
    {
      Counter(orderTimes, dailyCount, dailyDate)
    }

    constructor (caps: Caps)
      ensures this.caps == caps && State() == Counter([], 0, None)
    {
      this.caps, orderTimes, dailyCount, dailyDate := caps, [], 0, None;
    }

    method RollDay(today: int)
      modifies this
      ensures State() == Rolled(old(State()), today)
    {
      if dailyDate != Some(today) {
        dailyDate, dailyCount, orderTimes := Some(today), 0, [];
      }
    }

    /** False where the source raises. */
    method CheckOrderGuard(now: real, today: int) returns (ok: bool)
      modifies this
      ensures State() == Checked(old(State()), now, today) && (ok <==> Passes(State(), caps))
    {
      RollDay(today);
      orderTimes := Recent(orderTimes, now);
      ok := !(dailyCount >= caps.day || |orderTimes| >= caps.minute);
    }

    /** A governed call: an order is checked before its first try and recorded after the try that succeeds; refusals
        for too many requests are tried again, anything else fails the call. */
    method Call(isOrder: bool, clock: nat -> real, today: int, replies: nat -> Reply)
      returns (r: Outcome, ghost tries: nat)
      modifies this
      ensures r.Capped? <==> isOrder && !Passes(Checked(old(State()), clock(0), today), caps)
      ensures r.Capped? ==> tries == 0
      ensures !r.Capped? ==> 1 <= tries <= 6 && forall k :: 0 <= k < tries - 1 ==> replies(k).TooMany?
      ensures r.Answered? <==> !r.Capped? && replies(tries - 1).Done?
      ensures r.Failed? && replies(tries - 1).TooMany? ==> tries == 6
      ensures var checked := if isOrder then Checked(old(State()), clock(0), today) else old(State());
              State() == if isOrder && r.Answered? then Recorded(checked, clock(tries)) else checked
    {
      tries := 0;
      if isOrder {
        var ok := CheckOrderGuard(clock(0), today);
        if !ok { return Capped, 0; }
      }
      ghost var checked := State();
      var attempt := 0;
      while true
        invariant tries == attempt <= MAX_RETRIES && State() == checked
        invariant forall k :: 0 <= k < tries ==> replies(k).TooMany?
        decreases MAX_RETRIES - attempt
      {
        var reply := replies(attempt);
        tries := tries + 1;
        match reply {
          case Done =>
            if isOrder { RecordOrder(clock(attempt + 1)); }
            return Answered, tries;
          case Broken => return Failed, tries;
          case TooMany =>
            attempt := attempt + 1;
            if attempt > MAX_RETRIES { return Failed, tries; }
        }
      }
    }

    method RecordOrder(now: real)
      modifies this
      ensures State() == Recorded(old(State()), now)
    {
      dailyCount := dailyCount + 1;
      orderTimes := orderTimes + [now];
    }
  }

  // --- runs of concurrent calls --------------------------------------------------------------------

  /** A call is checked, then in flight, then recorded - or fails and never is. */
  datatype Event = Check(now: real, today: int) | Record(now: real) | Fail

  /** `log` is every order recorded since the day was last rolled, `all` every order ever. */
  datatype System = System(counter: Counter, inFlight: nat, log: seq<real>, all: seq<real>, clock: real)

  /** The caps, how many orders may be in flight at once, and whether the day is only rolled in a calm minute. */
  datatype Terms = Terms(caps: Caps, most: nat, calm: bool) {
    function Bound(): int { caps.minute - 1 + most }
  }

  predicate Can(s: System, e: Event, k: Terms) {
    match e
    case Check(now, today) =>
      && now >= s.clock
      && (Passes(Checked(s.counter, now, today), k.caps) ==> s.inFlight < k.most)
      && (k.calm && s.counter.day != Some(today) ==> After(s.all, now - MINUTE) == 0)
    case Record(now) => now >= s.clock && s.inFlight > 0
    case Fail => s.inFlight > 0
  }

  function Next(s: System, e: Event, k: Terms): System
    requires e.Check? || s.inFlight > 0
  {
    match e
    case Check(now, today) =>
      var c := Checked(s.counter, now, today);
      System(c, if Passes(c, k.caps) then s.inFlight + 1 else s.inFlight,
             if s.counter.day == Some(today) then s.log else [], s.all, now)
    case Record(now) => System(Recorded(s.counter, now), s.inFlight - 1, s.log + [now], s.all + [now], now)
    case Fail => s.(inFlight := s.inFlight - 1)
  }

  predicate Runs(start: real, run: seq<Event>, k: Terms)
    decreases |run|, 0
  {
    run == [] ||
    (var init, e := run[..|run| - 1], run[|run| - 1];
     Runs(start, init, k) && Can(End(start, init, k), e, k))
  }

  function End(start: real, run: seq<Event>, k: Terms): System
    requires Runs(start, run, k)
    decreases |run|, 1
  {
    if run == [] then System(Counter([], 0, None), 0, [], [], start)
    else Next(End(start, run[..|run| - 1], k), run[|run| - 1], k)
  }

  // --- counting ------------------------------------------------------------------------------------

  function After(times: seq<real>, x: real): nat {
    if times == [] then 0 else After(times[..|times| - 1], x) + if times[|times| - 1] > x then 1 else 0
  }

  /** Orders in the half-open minute from s. */
  function InMinute(times: seq<real>, s: real): nat {
    if times == [] then 0
    else InMinute(times[..|times| - 1], s) + if s <= times[|times| - 1] < s + 60.0 then 1 else 0
  }

  lemma AfterOne(times: seq<real>, t: real, x: real)
    ensures After(times + [t], x) == After(times, x) + if t > x then 1 else 0
  {
    assert (times + [t])[..|times|] == times;
  }

  lemma {:induction false} AfterRecent(times: seq<real>, now: real, x: real)
    requires x >= now - MINUTE
    ensures After(Recent(times, now), x) == After(times, x)
  {
    if times == [] {
    } else {
      var m := |times| - 1;
      var kept := Recent(times[..m], now);
      AfterRecent(times[..m], now, x);
      if now - times[m] < MINUTE { AfterOne(kept, times[m], x); } else { assert kept + [] == kept; }
    }
  }

  lemma {:induction false} RecentAllAfter(times: seq<real>, now: real)
    ensures After(Recent(times, now), now - MINUTE) == |Recent(times, now)|
  {
    if times == [] {
    } else {
      var m := |times| - 1;
      var kept := Recent(times[..m], now);
      RecentAllAfter(times[..m], now);
      if now - times[m] < MINUTE { AfterOne(kept, times[m], now - MINUTE); } else { assert kept + [] == kept; }
    }
  }

  lemma {:induction false} AfterFalls(times: seq<real>, x: real, y: real)
    requires x <= y
    ensures After(times, y) <= After(times, x)
  {
    if times == [] {
    } else {
      AfterFalls(times[..|times| - 1], x, y);
    }
  }

  lemma {:induction false} MinuteWithin(times: seq<real>, s: real, x: real)
    requires x < s
    ensures InMinute(times, s) <= After(times, x)
  {
    if times == [] {
    } else {
      MinuteWithin(times[..|times| - 1], s, x);
    }
  }

  // --- the bounds ----------------------------------------------------------------------------------

  /** The counter remembers of `orders` all that may still matter, and no minute of them holds too many. */
  ghost predicate Bounded(orders: seq<real>, times: seq<real>, clock: real, k: Terms) {
    && (forall x :: x >= clock - MINUTE ==> After(orders, x) == After(times, x))
    && forall w :: InMinute(orders, w) <= k.Bound()
  }

  ghost predicate Inv(s: System, k: Terms) {
    && s.counter.count == |s.log| && s.inFlight <= k.most
    && After(s.counter.times, s.clock - MINUTE) + s.inFlight <= k.Bound()
    && s.counter.count + s.inFlight <= k.caps.day - 1 + k.most
    && Bounded(s.log, s.counter.times, s.clock, k)
    && (k.calm ==> Bounded(s.all, s.counter.times, s.clock, k))
  }

  lemma CheckBounded(orders: seq<real>, times: seq<real>, clock: real, now: real, k: Terms)
    requires Bounded(orders, times, clock, k) && now >= clock
    ensures Bounded(orders, Recent(times, now), now, k)
  {
    forall x | x >= now - MINUTE ensures After(orders, x) == After(Recent(times, now), x) {
      AfterRecent(times, now, x);
    }
  }

  /** The counter forgets nothing by being emptied when no order is younger than a minute. */
  lemma RollBounded(orders: seq<real>, times: seq<real>, clock: real, now: real, k: Terms)
    requires Bounded(orders, times, clock, k) && now >= clock && After(orders, now - MINUTE) == 0
    ensures Bounded(orders, [], now, k)
  {
    forall x | x >= now - MINUTE ensures After(orders, x) == 0 { AfterFalls(orders, now - MINUTE, x); }
  }

  lemma CheckKeeps(s: System, now: real, today: int, k: Terms)
    requires Inv(s, k) && Can(s, Check(now, today), k) && k.caps.minute >= 1 && k.caps.day >= 1
    ensures Inv(Next(s, Check(now, today), k), k)
  {
    var times := Rolled(s.counter, today).times;
    RecentAllAfter(times, now);
    AfterRecent(times, now, now - MINUTE);
    AfterFalls(times, s.clock - MINUTE, now - MINUTE);
    if s.counter.day == Some(today) {
      CheckBounded(s.log, times, s.clock, now, k);
      if k.calm { CheckBounded(s.all, times, s.clock, now, k); }
    } else {
      if k.calm { RollBounded(s.all, s.counter.times, s.clock, now, k); }
      assert Recent([], now) == [];
    }
  }

  lemma RecordBounded(orders: seq<real>, times: seq<real>, clock: real, now: real, k: Terms)
    requires Bounded(orders, times, clock, k) && now >= clock && After(times, clock - MINUTE) + 1 <= k.Bound()
    ensures Bounded(orders + [now], times + [now], now, k)
  {
    forall x | x >= now - MINUTE ensures After(orders + [now], x) == After(times + [now], x) {
      AfterOne(orders, now, x);
      AfterOne(times, now, x);
    }
    AfterOne(times, now, now - MINUTE);
    AfterFalls(times, clock - MINUTE, now - MINUTE);
    forall w ensures InMinute(orders + [now], w) <= k.Bound() {
      assert (orders + [now])[..|orders|] == orders;
      if w <= now < w + MINUTE { MinuteWithin(orders + [now], w, now - MINUTE); }
    }
  }

  lemma RecordKeeps(s: System, now: real, k: Terms)
    requires Inv(s, k) && Can(s, Record(now), k)
    ensures Inv(Next(s, Record(now), k), k)
  {
    RecordBounded(s.log, s.counter.times, s.clock, now, k);
    if k.calm { RecordBounded(s.all, s.counter.times, s.clock, now, k); }
    AfterOne(s.counter.times, now, now - MINUTE);
    AfterFalls(s.counter.times, s.clock - MINUTE, now - MINUTE);
  }

  lemma {:induction false} RunKeeps(start: real, run: seq<Event>, k: Terms)
    requires Runs(start, run, k) && k.caps.minute >= 1 && k.caps.day >= 1
    ensures Inv(End(start, run, k), k)
  {
    if run == [] {
    } else {
      var init, e := run[..|run| - 1], run[|run| - 1];
      RunKeeps(start, init, k);
      match e
      case Check(now, today) => CheckKeeps(End(start, init, k), now, today, k);
      case Record(now) => RecordKeeps(End(start, init, k), now, k);
      case Fail =>
    }
  }

  /** Within one day, with at most `most` calls in flight at once, however they interleave: no minute holds more than
      cap - 1 + most orders, nor does the day. */
  lemma WindowLimits(start: real, run: seq<Event>, k: Terms, w: real)
    requires Runs(start, run, k) && k.caps.minute >= 1 && k.caps.day >= 1
    ensures var s := End(start, run, k);
            && InMinute(s.log, w) <= k.caps.minute - 1 + k.most
            && |s.log| + s.inFlight <= k.caps.day - 1 + k.most
  {
    RunKeeps(start, run, k);
  }

  lemma Extends(start: real, run: seq<Event>, e: Event, k: Terms)
    requires Runs(start, run, k) && Can(End(start, run, k), e, k)
    ensures Runs(start, run + [e], k)
    ensures End(start, run + [e], k) == Next(End(start, run, k), e, k)
  {
    assert (run + [e])[..|run|] == run;
  }

  ghost predicate CanReach(k: Terms, s: System) {
    exists start, run :: Runs(start, run, k) && End(start, run, k) == s
  }

  lemma Reach(k: Terms, s: System, e: Event)
    requires CanReach(k, s) && Can(s, e, k)
    ensures CanReach(k, Next(s, e, k))
  {
    var start, run :| Runs(start, run, k) && End(start, run, k) == s;
    Extends(start, run, e, k);
  }

  // --- the bound is reached ------------------------------------------------------------------------

  function Zeros(n: nat): (zs: seq<real>)
    ensures |zs| == n
  {
    if n == 0 then [] else Zeros(n - 1) + [0.0]
  }

  lemma {:induction false} ZerosCounted(n: nat)
    ensures Recent(Zeros(n), 0.0) == Zeros(n)
  {
    if n == 0 {
    } else {
      ZerosCounted(n - 1);
      assert Zeros(n)[..n - 1] == Zeros(n - 1);
    }
  }

  lemma {:induction false} ZerosInMinute(n: nat)
    ensures InMinute(Zeros(n), 0.0) == n
  {
    if n == 0 {
    } else {
      ZerosInMinute(n - 1);
      assert Zeros(n)[..n - 1] == Zeros(n - 1);
    }
  }

  /** n orders recorded at time zero and j in flight. */
  function Busy(n: nat, j: nat): System { System(Counter(Zeros(n), n, Some(1)), j, Zeros(n), Zeros(n), 0.0) }

  lemma CheckBusy(n: nat, j: nat, k: Terms)
    requires n < k.caps.minute <= k.caps.day && j < k.most
    ensures Can(Busy(n, j), Check(0.0, 1), k) && Next(Busy(n, j), Check(0.0, 1), k) == Busy(n, j + 1)
  {
    ZerosCounted(n);
  }

  lemma RecordBusy(n: nat, j: nat, k: Terms)
    requires j > 0
    ensures Can(Busy(n, j), Record(0.0), k) && Next(Busy(n, j), Record(0.0), k) == Busy(n + 1, j - 1)
  {
  }

  lemma {:induction false} OneByOne(k: Terms, n: nat)
    requires n < k.caps.minute <= k.caps.day && k.most >= 1
    ensures CanReach(k, Busy(n, 0))
  {
    if n == 0 {
      var start := System(Counter([], 0, None), 0, [], [], 0.0);
      assert Runs(0.0, [], k) && End(0.0, [], k) == start;
      assert CanReach(k, start);
      Reach(k, start, Check(0.0, 1));
      Reach(k, Busy(0, 1), Fail);
    } else {
      OneByOne(k, n - 1);
      CheckBusy(n - 1, 0, k);
      Reach(k, Busy(n - 1, 0), Check(0.0, 1));
      RecordBusy(n - 1, 1, k);
      Reach(k, Busy(n - 1, 1), Record(0.0));
    }
  }

  lemma {:induction false} AllAtOnce(k: Terms, n: nat, j: nat)
    requires n < k.caps.minute <= k.caps.day && 1 <= k.most && j <= k.most
    ensures CanReach(k, Busy(n, j))
  {
    if j == 0 {
      OneByOne(k, n);
    } else {
      AllAtOnce(k, n, j - 1);
      CheckBusy(n, j - 1, k);
      Reach(k, Busy(n, j - 1), Check(0.0, 1));
    }
  }

  lemma {:induction false} AllRecorded(k: Terms, n: nat, j: nat)
    requires n < k.caps.minute <= k.caps.day && 1 <= k.most && j <= k.most
    ensures CanReach(k, Busy(n + j, k.most - j))
  {
    if j == 0 {
      AllAtOnce(k, n, k.most);
    } else {
      AllRecorded(k, n, j - 1);
      var done, left := n + j - 1, k.most - j + 1;
      RecordBusy(done, left, k);
      Reach(k, Busy(done, left), Record(0.0));
    }
  }

  /** Calls that were all checked before any was recorded do send cap - 1 + most orders in one minute. */
  lemma BoundReached(k: Terms)
    requires 1 <= k.caps.minute <= k.caps.day && 1 <= k.most
    ensures CanReach(k, Busy(k.caps.minute - 1 + k.most, 0))
    ensures InMinute(Busy(k.caps.minute - 1 + k.most, 0).all, 0.0) == k.caps.minute - 1 + k.most
  {
    AllRecorded(k, k.caps.minute - 1, k.most);
    ZerosInMinute(k.caps.minute - 1 + k.most);
  }

  // --- across midnight -----------------------------------------------------------------------------

  /** No minute, of one day or of two, ever holds more than cap - 1 + most orders. */
  ghost predicate BoundHolds(k: Terms) {
    forall s, w :: CanReach(k, s) ==> InMinute(s.all, w) <= k.Bound()
  }

  /** After a busy minute, one order more a second into the next day. */
  function NextDay(n: nat): System {
    System(Counter([1.0], 1, Some(2)), 0, [1.0], Zeros(n) + [1.0], 1.0)
  }

  lemma RollForgets(k: Terms, n: nat)
    requires !k.calm && k.caps.minute >= 1 && k.caps.day >= 1 && k.most >= 1 && CanReach(k, Busy(n, 0))
    ensures CanReach(k, NextDay(n)) && InMinute(NextDay(n).all, 0.0) == n + 1
  {
    var checked := System(Counter([], 0, Some(2)), 1, [], Zeros(n), 1.0);
    assert Next(Busy(n, 0), Check(1.0, 2), k) == checked;
    Reach(k, Busy(n, 0), Check(1.0, 2));
    assert Next(checked, Record(1.0), k) == NextDay(n);
    Reach(k, checked, Record(1.0));
    ZerosInMinute(n);
    assert (Zeros(n) + [1.0])[..n] == Zeros(n);
  }

  /** Wherever a roll may drop a recent order, cap - 1 + most orders are followed by one more a second after midnight:
      with a cap of one a minute and one call at a time, two orders one second apart. */
  lemma MidnightForgets(k: Terms)
    requires !k.calm && 1 <= k.caps.minute <= k.caps.day && 1 <= k.most
    ensures CanReach(k, NextDay(k.Bound())) && InMinute(NextDay(k.Bound()).all, 0.0) == k.Bound() + 1
  {
    BoundReached(k);
    RollForgets(k, k.Bound());
  }

  /** The minute bound holds on every run, across midnights too, exactly when no roll of the day drops an order
      younger than a minute. */
  lemma BoundIffCalm(k: Terms)
    requires 1 <= k.caps.minute <= k.caps.day && 1 <= k.most
    ensures BoundHolds(k) <==> k.calm
  {
    if k.calm {
      forall s, w | CanReach(k, s) ensures InMinute(s.all, w) <= k.Bound() {
        var start, run :| Runs(start, run, k) && End(start, run, k) == s;
        RunKeeps(start, run, k);
      }
    } else {
      MidnightForgets(k);
    }
  }
}
