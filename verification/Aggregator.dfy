/** data/aggregator.py: candles of several widths built tick by tick. */
module Aggregator {
  import opened Numbers
  import opened Options

  datatype Interval = M1 | M3 | M5 | M15 | Day

  // Times are microseconds of IST since some IST midnight.
  const MINUTE: int := 60_000_000
  const HOUR: int := 60 * MINUTE
  const DAY: int := 24 * HOUR

  function Minutes(i: Interval): int {
    match i case M1 => 1 case M3 => 3 case M5 => 5 case M15 => 15 case Day => 1440
  }

  function Width(i: Interval): int { Minutes(i) * MINUTE }

  /** As computed: the minute within the hour rounded down, or midnight. */
  function BucketStart(ts: int, i: Interval): int {
    if i.Day? then ts - ts % DAY
    else
      var minute := ts % HOUR / MINUTE;
      ts - ts % HOUR + minute / Minutes(i) * Minutes(i) * MINUTE
  }

  datatype Tick = Tick(token: int, ts: int, price: real, cum: int, oi: Option<int>)

  datatype Cell = Cell(start: int, open: real, high: real, low: real, close: real,
                       volOpen: int, volume: int, oi: Option<int>)

  function Opened(start: int, t: Tick): Cell {
    Cell(start, t.price, t.price, t.price, t.price, t.cum, 0, t.oi)
  }

  function Absorbed(c: Cell, t: Tick): Cell {
    var volOpen := if t.cum < c.volOpen then t.cum else c.volOpen;
    c.(high := MaxR(c.high, t.price), low := MinR(c.low, t.price), close := t.price, volOpen := volOpen,
       volume := if t.cum - volOpen > 0 then t.cum - volOpen else 0,
       oi := if t.oi.Some? then t.oi else c.oi)
  }

  predicate Rolls(cur: Option<Cell>, t: Tick, i: Interval) {
    cur.None? || BucketStart(t.ts, i) > cur.value.start
  }

  /** One tick into one cell: the cell afterwards, and the candle it closed. */
  function Step(cur: Option<Cell>, t: Tick, i: Interval): (Cell, Option<Cell>) {
    if Rolls(cur, t, i) then (Opened(BucketStart(t.ts, i), t), cur)
    else (Absorbed(cur.value, t), None)
  }

  // --- the aggregator ------------------------------------------------------------------------------

  type Key = (int, Interval)
  type State = map<Key, Cell>
  type Candle = (Key, Cell)

  function At(s: State, k: Key): Option<Cell> { if k in s then Some(s[k]) else None }

  function Emit(k: Key, c: Option<Cell>): seq<Candle> { if c.Some? then [(k, c.value)] else [] }

  /** A tick through a list of intervals. */
  function Added(s: State, t: Tick, intervals: seq<Interval>): (State, seq<Candle>)
    decreases |intervals|
  {
    if intervals == [] then (s, [])
    else
      var k := (t.token, intervals[0]);
      var (cell, closed) := Step(At(s, k), t, intervals[0]);
      var (s', more) := Added(s[k := cell], t, intervals[1..]);
      (s', Emit(k, closed) + more)
  }

  class CandleAggregator {
    const intervals: seq<Interval>
    var state: State

    constructor (intervals: seq<Interval>)
      ensures this.intervals == intervals && state == map[]
    {
      this.intervals, state := intervals, map[];
    }

    method AddTick(t: Tick) returns (closed: seq<Candle>)
      modifies this
      ensures state == Added(old(state), t, intervals).0
      ensures closed == Added(old(state), t, intervals).1
    {
      closed := [];
      assert intervals[0..] == intervals;
      for n := 0 to |intervals|
        invariant Added(old(state), t, intervals).0 == Added(state, t, intervals[n..]).0
        invariant Added(old(state), t, intervals).1 == closed + Added(state, t, intervals[n..]).1
      {
        assert intervals[n..][1..] == intervals[n + 1..];
        var candle := Take(t, intervals[n]);
        if candle.Some? {
          closed := closed + [((t.token, intervals[n]), candle.value)];
        }
      }
      assert intervals[|intervals|..] == [];
    }

    /** The tick into one interval's cell: a later bucket closes the old candle and opens a new one. */
    method Take(t: Tick, i: Interval) returns (candle: Option<Cell>)
      modifies this
      ensures state == old(state)[(t.token, i) := Step(At(old(state), (t.token, i)), t, i).0]
      ensures candle == Step(At(old(state), (t.token, i)), t, i).1
    {
      var bs := BucketStart(t.ts, i);
      var key := (t.token, i);
      if key !in state || bs > state[key].start {
        candle := if key in state then Some(state[key]) else None;
        state := state[key := Opened(bs, t)];
      } else {
        var cur := state[key];
        var volOpen := if t.cum < cur.volOpen then t.cum else cur.volOpen;
        cur := cur.(high := MaxR(cur.high, t.price), low := MinR(cur.low, t.price), close := t.price,
                    volOpen := volOpen, volume := if t.cum - volOpen > 0 then t.cum - volOpen else 0);
        if t.oi.Some? {
          cur := cur.(oi := t.oi);
        }
        candle := None;
        state := state[key := cur];
      }
    }

    /** Every building candle, once; the aggregator starts again empty. */
    method Flush() returns (out: seq<Candle>)
      modifies this
      ensures state == map[] && |out| == |old(state)|
      ensures forall k, c :: (k, c) in out <==> k in old(state) && old(state)[k] == c
    {
      out := [];
      var left := state.Keys;
      while left != {}
        invariant left <= state.Keys && |out| + |left| == |state.Keys|
        invariant forall k, c :: (k, c) in out <==> k in state && k !in left && state[k] == c
        decreases left
      {
        var k :| k in left;
        out := out + [(k, state[k])];
        left := left - {k};
      }
      state := map[];
    }
  }

  // --- one key at a time ---------------------------------------------------------------------------

  function CandlesOf(k: Key, out: seq<Candle>): seq<Cell> {
    if out == [] then []
    else CandlesOf(k, out[..|out| - 1]) + if out[|out| - 1].0 == k then [out[|out| - 1].1] else []
  }

  function CellsOf(c: Option<Cell>): seq<Cell> { if c.Some? then [c.value] else [] }

  lemma {:induction false} CandlesOfAppend(k: Key, a: seq<Candle>, b: seq<Candle>)
    ensures CandlesOf(k, a + b) == CandlesOf(k, a) + CandlesOf(k, b)
  {
    if b == [] {
      assert a + b == a;
    } else {
      assert (a + b)[..|a + b| - 1] == a + b[..|b| - 1];
      CandlesOfAppend(k, a, b[..|b| - 1]);
    }
  }

  /** A tick already taken in is taken in again without effect: listing an interval twice is harmless. */
  lemma StepTwice(cur: Option<Cell>, t: Tick, i: Interval)
    ensures Step(Some(Step(cur, t, i).0), t, i) == (Step(cur, t, i).0, None)
  {
  }

  lemma EmitOnKey(k0: Key, c: Option<Cell>, k: Key)
    ensures CandlesOf(k, Emit(k0, c)) == if k0 == k then CellsOf(c) else []
  {
    assert Emit(k0, c) != [] ==> Emit(k0, c)[..0] == [];
  }

  lemma {:induction false} AddedOnKey(s: State, t: Tick, intervals: seq<Interval>, k: Key)
    ensures var (s', out) := Added(s, t, intervals);
            if k.0 == t.token && k.1 in intervals then
              && At(s', k) == Some(Step(At(s, k), t, k.1).0)
              && CandlesOf(k, out) == CellsOf(Step(At(s, k), t, k.1).1)
            else At(s', k) == At(s, k) && CandlesOf(k, out) == []
    decreases |intervals|
  {
    if intervals == [] {
    } else {
      var k0, rest := (t.token, intervals[0]), intervals[1..];
      var (cell, closed) := Step(At(s, k0), t, intervals[0]);
      var s1 := s[k0 := cell];
      AddedOnKey(s1, t, rest, k);
      CandlesOfAppend(k, Emit(k0, closed), Added(s1, t, rest).1);
      EmitOnKey(k0, closed, k);
      assert k.1 in intervals <==> k.1 == intervals[0] || k.1 in rest;
      if k == k0 {
        StepTwice(At(s, k0), t, intervals[0]);
        assert At(s1, k) == Some(cell);
      } else {
        assert At(s1, k) == At(s, k);
      }
    }
  }

  function Fed(intervals: seq<Interval>, ticks: seq<Tick>): (State, seq<Candle>) {
    if ticks == [] then (map[], [])
    else
      var (s, out) := Fed(intervals, ticks[..|ticks| - 1]);
      var (s', more) := Added(s, ticks[|ticks| - 1], intervals);
      (s', out + more)
  }

  function OfToken(token: int, ticks: seq<Tick>): seq<Tick> {
    if ticks == [] then []
    else
      var rest, t := OfToken(token, ticks[..|ticks| - 1]), ticks[|ticks| - 1];
      if t.token == token then rest + [t] else rest
  }

  function BucketOf(i: Interval): int -> int { (ts: int) => BucketStart(ts, i) }

  /** All candles of one instrument for one bucket function, the building one last. */
  function Candles(ticks: seq<Tick>, bucket: int -> int): seq<Cell> {
    if ticks == [] then []
    else
      var t := ticks[|ticks| - 1];
      NextCandles(Candles(ticks[..|ticks| - 1], bucket), bucket(t.ts), t)
  }

  function NextCandles(cs: seq<Cell>, bs: int, t: Tick): seq<Cell> {
    if cs == [] || bs > cs[|cs| - 1].start then cs + [Opened(bs, t)]
    else cs[|cs| - 1 := Absorbed(cs[|cs| - 1], t)]
  }

  lemma OneTick(done: seq<Cell>, cur: Option<Cell>, cs: seq<Cell>, t: Tick, k: Key)
    requires done + CellsOf(cur) == cs && (cur.None? ==> done == [])
    ensures var (cell, closed) := Step(cur, t, k.1);
            done + CellsOf(closed) + [cell] == NextCandles(cs, BucketStart(t.ts, k.1), t)
  {
  }

  /** `cs` are the candles of key `k` after `out` was emitted and with `s` still building. */
  predicate Holds(s: State, out: seq<Candle>, k: Key, cs: seq<Cell>) {
    CandlesOf(k, out) + CellsOf(At(s, k)) == cs && (At(s, k).None? ==> CandlesOf(k, out) == [])
  }

  lemma HoldsAfter(s: State, out: seq<Candle>, t: Tick, intervals: seq<Interval>, k: Key, cs: seq<Cell>)
    requires Holds(s, out, k, cs) && k.1 in intervals
    ensures var (s', more) := Added(s, t, intervals);
            Holds(s', out + more, k, if t.token == k.0 then NextCandles(cs, BucketStart(t.ts, k.1), t) else cs)
  {
    AddedOnKey(s, t, intervals, k);
    CandlesOfAppend(k, out, Added(s, t, intervals).1);
    OneTick(CandlesOf(k, out), At(s, k), cs, t, k);
  }

  /** Whatever mix of instruments and intervals is fed, what was emitted for a key followed by what a flush
      returns for it is what its own ticks make. */
  lemma {:induction false} EmittedThenFlushed(intervals: seq<Interval>, ticks: seq<Tick>, k: Key)
    requires k.1 in intervals
    ensures Holds(Fed(intervals, ticks).0, Fed(intervals, ticks).1, k, Candles(OfToken(k.0, ticks), BucketOf(k.1)))
  {
    if ticks == [] {
    } else {
      var init, t := ticks[..|ticks| - 1], ticks[|ticks| - 1];
      var (s, out) := Fed(intervals, init);
      var mine := OfToken(k.0, init);
      EmittedThenFlushed(intervals, init, k);
      HoldsAfter(s, out, t, intervals, k, Candles(mine, BucketOf(k.1)));
      assert (mine + [t])[..|mine|] == mine;
    }
  }

  // --- buckets -------------------------------------------------------------------------------------

  function Floor(ts: int, w: int): int requires w > 0 { ts - ts % w }

  lemma FloorIsUnique(ts: int, q: int, w: int)
    requires w > 0 && w * q <= ts < w * q + w
    ensures Floor(ts, w) == w * q
  {
    var d := ts / w - q;
    assert ts == w * (ts / w) + ts % w;
    Spread(w, ts / w, q);
    if d >= 1 { AtLeast(w, d); } else if d <= -1 { AtLeast(w, -d); }
  }

  lemma Spread(w: int, a: int, b: int)
    ensures w * (a - b) == w * a - w * b && w * (b - a) == w * b - w * a
  {
  }

  lemma AtLeast(w: int, d: int)
    requires w > 0 && d >= 1
    ensures w * d >= w
  {
  }

  lemma HourMinute(ts: int) returns (h: int, minute: int, r: int)
    ensures ts == HOUR * h + MINUTE * minute + r && 0 <= minute < 60 && 0 <= r < MINUTE
    ensures ts % HOUR == MINUTE * minute + r && ts % HOUR / MINUTE == minute
  {
    h, minute := ts / HOUR, ts % HOUR / MINUTE;
    r := ts % HOUR - MINUTE * minute;
  }

  lemma IntradayStart(ts: int, i: Interval, h: int, minute: int, n: int)
    requires i != Day && ts - ts % HOUR == HOUR * h && ts % HOUR / MINUTE == minute && n == minute / Minutes(i)
    ensures BucketStart(ts, i) == HOUR * h + Width(i) * n
  {
    match i
    case M1 =>
    case M3 =>
    case M5 =>
    case M15 =>
  }

  lemma IntradayFloor(ts: int, i: Interval, h: int, minute: int, r: int, n: int)
    requires i != Day && ts == HOUR * h + MINUTE * minute + r && 0 <= r < MINUTE && n == minute / Minutes(i)
    ensures Floor(ts, Width(i)) == HOUR * h + Width(i) * n
  {
    match i
    case M1 => FloorIsUnique(ts, 60 * h + n, MINUTE);
    case M3 => FloorIsUnique(ts, 20 * h + n, 3 * MINUTE);
    case M5 => FloorIsUnique(ts, 12 * h + n, 5 * MINUTE);
    case M15 => FloorIsUnique(ts, 4 * h + n, 15 * MINUTE);
  }

  /** What a bucket of the interval spans, in microseconds. */
  function Span(i: Interval): int {
    match i
    case M1 => 60_000_000
    case M3 => 180_000_000
    case M5 => 300_000_000
    case M15 => 900_000_000
    case Day => 86_400_000_000
  }

  /** A tick lies in the span of its bucket, and buckets start at whole spans. */
  lemma BucketSpans(ts: int, i: Interval)
    ensures BucketStart(ts, i) % Span(i) == 0 && BucketStart(ts, i) <= ts < BucketStart(ts, i) + Span(i)
  {
    BucketIsFloor(ts, i);
    WholeSpans(ts, Span(i));
  }

  lemma WholeSpans(ts: int, w: int)
    requires w > 0
    ensures Floor(ts, w) % w == 0 && Floor(ts, w) <= ts < Floor(ts, w) + w
  {
    FloorIs(ts, w, ts / w);
    ModShift(0, ts / w, w);
  }

  lemma BucketIsFloor(ts: int, i: Interval)
    ensures BucketStart(ts, i) == Floor(ts, Width(i))
  {
    if i != Day {
      var h, minute, r := HourMinute(ts);
      IntradayStart(ts, i, h, minute, minute / Minutes(i));
      IntradayFloor(ts, i, h, minute, r, minute / Minutes(i));
    }
  }

  lemma FloorNests(ts: int, w: int, n: int, wide: int)
    requires w > 0 && n > 0 && wide == w * n > 0
    ensures Floor(Floor(ts, w), wide) == Floor(ts, wide)
  {
    var q := ts / wide;
    var r := ts - wide * q;
    assert ts % w == r % w by {
      Reassociate(w, n, q);
      ModShift(r, n * q, w);
    }
    Within(r, w);
    FloorIsUnique(ts - r % w, q, wide);
    FloorIsUnique(ts, q, wide);
  }

  lemma Within(r: int, w: int)
    requires r >= 0 && w > 0
    ensures 0 <= r % w <= r
  {
    if r < w { FloorIsUnique(r, 0, w); }
  }

  lemma Reassociate(a: int, b: int, c: int)
    ensures a * b * c == a * (b * c)
  {
  }

  lemma ModShift(r: int, k: int, w: int)
    requires w > 0
    ensures (r + w * k) % w == r % w
  {
    var q := r / w;
    Spread(w, q + k, k);
    assert w * (q + k) == w * q + w * k by { Distribute(w, q, k); }
    FloorIsUnique(r + w * k, q + k, w);
  }

  lemma Distribute(w: int, a: int, b: int)
    ensures w * (a + b) == w * a + w * b
  {
  }

  lemma QuotientMonotone(a: int, b: int, w: int)
    requires w > 0 && a <= b
    ensures a / w <= b / w
  {
    if a / w > b / w {
      Spread(w, a / w, b / w);
      AtLeast(w, a / w - b / w);
    }
    assert a == w * (a / w) + a % w && b == w * (b / w) + b % w;
  }

  lemma FloorMonotone(a: int, b: int, w: int)
    requires w > 0 && a <= b
    ensures Floor(a, w) <= Floor(b, w)
  {
    QuotientMonotone(a, b, w);
    var m, n := a / w, b / w;
    Spread(w, n, m);
    NotNegative(w, n - m);
    FloorIs(a, w, m);
    FloorIs(b, w, n);
  }

  lemma FloorIs(a: int, w: int, q: int)
    requires w > 0 && q == a / w
    ensures Floor(a, w) == w * q
  {
  }

  lemma NotNegative(w: int, d: int)
    requires w > 0 && d >= 0
    ensures w * d >= 0
  {
  }

  /** The coarse buckets are unions of the fine ones. */
  predicate Divides(fine: Interval, coarse: Interval) { Minutes(coarse) % Minutes(fine) == 0 }

  lemma WidthsDivide(fine: Interval, coarse: Interval) returns (n: int)
    requires Divides(fine, coarse)
    ensures n > 0 && Width(coarse) == Width(fine) * n > 0 && Width(fine) > 0
  {
    n := Minutes(coarse) / Minutes(fine);
  }

  lemma BucketsNest(ts: int, fine: Interval, coarse: Interval)
    requires Divides(fine, coarse)
    ensures BucketStart(BucketStart(ts, fine), coarse) == BucketStart(ts, coarse)
  {
    var n := WidthsDivide(fine, coarse);
    var b := BucketStart(ts, fine);
    assert b == Floor(ts, Width(fine)) by { BucketIsFloor(ts, fine); }
    assert BucketStart(b, coarse) == Floor(b, Width(coarse)) by { BucketIsFloor(b, coarse); }
    assert BucketStart(ts, coarse) == Floor(ts, Width(coarse)) by { BucketIsFloor(ts, coarse); }
    FloorNests(ts, Width(fine), n, Width(coarse));
  }

  lemma BucketMonotone(a: int, b: int, i: Interval)
    requires a <= b
    ensures BucketStart(a, i) <= BucketStart(b, i)
  {
    BucketIsFloor(a, i);
    BucketIsFloor(b, i);
    FloorMonotone(a, b, Width(i));
  }

  // --- candles are a group-by ----------------------------------------------------------------------

  datatype Group = Group(start: int, ticks: seq<Tick>)

  /** The ticks cut where a later bucket begins. */
  function Groups(ticks: seq<Tick>, bucket: int -> int): seq<Group> {
    if ticks == [] then []
    else
      var t := ticks[|ticks| - 1];
      NextGroups(Groups(ticks[..|ticks| - 1], bucket), bucket(t.ts), t)
  }

  function NextGroups(gs: seq<Group>, bs: int, t: Tick): seq<Group> {
    if gs == [] || bs > gs[|gs| - 1].start then gs + [Group(bs, [t])]
    else gs[|gs| - 1 := gs[|gs| - 1].(ticks := gs[|gs| - 1].ticks + [t])]
  }

  function High(ts: seq<Tick>): real requires ts != [] {
    var p := ts[|ts| - 1].price;
    if |ts| == 1 then p else MaxR(High(ts[..|ts| - 1]), p)
  }

  function Low(ts: seq<Tick>): real requires ts != [] {
    var p := ts[|ts| - 1].price;
    if |ts| == 1 then p else MinR(Low(ts[..|ts| - 1]), p)
  }

  function LeastCum(ts: seq<Tick>): int requires ts != [] {
    var c := ts[|ts| - 1].cum;
    if |ts| == 1 || c < LeastCum(ts[..|ts| - 1]) then c else LeastCum(ts[..|ts| - 1])
  }

  function LastOi(ts: seq<Tick>): Option<int> {
    if ts == [] then None
    else if ts[|ts| - 1].oi.Some? then ts[|ts| - 1].oi
    else LastOi(ts[..|ts| - 1])
  }

  /** A candle computed from all its ticks at once. */
  function Summary(g: Group): Cell requires g.ticks != [] {
    Cell(g.start, g.ticks[0].price, High(g.ticks), Low(g.ticks), g.ticks[|g.ticks| - 1].price,
         LeastCum(g.ticks), g.ticks[|g.ticks| - 1].cum - LeastCum(g.ticks), LastOi(g.ticks))
  }

  /** The high is a tick's price that none exceeds, the low one that none is below, and the cumulative volume it
      opened at the least read. */
  lemma {:induction false} SummaryExtremes(ts: seq<Tick>)
    requires ts != []
    ensures forall k :: 0 <= k < |ts| ==>
              ts[k].price <= High(ts) && Low(ts) <= ts[k].price && LeastCum(ts) <= ts[k].cum
    ensures exists k :: 0 <= k < |ts| && ts[k].price == High(ts)
    ensures exists k :: 0 <= k < |ts| && ts[k].price == Low(ts)
    ensures exists k :: 0 <= k < |ts| && ts[k].cum == LeastCum(ts)
  {
    var m := |ts| - 1;
    if m == 0 {
      assert ts[0].price == High(ts) && ts[0].price == Low(ts) && ts[0].cum == LeastCum(ts);
    } else {
      var init := ts[..m];
      SummaryExtremes(init);
      assert forall k :: 0 <= k < m ==> init[k] == ts[k];
      var h :| 0 <= h < m && init[h].price == High(init);
      var l :| 0 <= l < m && init[l].price == Low(init);
      var c :| 0 <= c < m && init[c].cum == LeastCum(init);
      assert ts[h].price == High(ts) || ts[m].price == High(ts);
      assert ts[l].price == Low(ts) || ts[m].price == Low(ts);
      assert ts[c].cum == LeastCum(ts) || ts[m].cum == LeastCum(ts);
    }
  }

  /** The open interest is the last one any of the ticks reported. */
  lemma {:induction false} LastOiIs(ts: seq<Tick>)
    ensures LastOi(ts).None? ==> forall k :: 0 <= k < |ts| ==> ts[k].oi.None?
    ensures LastOi(ts).Some? ==>
              exists k :: 0 <= k < |ts| && ts[k].oi == LastOi(ts) && forall j :: k < j < |ts| ==> ts[j].oi.None?
  {
    if ts == [] {
    } else {
      var m, init := |ts| - 1, ts[..|ts| - 1];
      LastOiIs(init);
      assert forall k :: 0 <= k < m ==> init[k] == ts[k];
      if ts[m].oi.None? && LastOi(init).Some? {
        var k :| 0 <= k < m && init[k].oi == LastOi(init) && forall j :: k < j < m ==> init[j].oi.None?;
        assert ts[k].oi == LastOi(ts);
      }
    }
  }

  predicate NonEmpty(gs: seq<Group>) { forall k :: 0 <= k < |gs| ==> gs[k].ticks != [] }

  function Summaries(gs: seq<Group>): seq<Cell> requires NonEmpty(gs) {
    seq(|gs|, k requires 0 <= k < |gs| => Summary(gs[k]))
  }

  lemma SummaryAbsorbs(g: Group, t: Tick)
    requires g.ticks != []
    ensures Summary(g.(ticks := g.ticks + [t])) == Absorbed(Summary(g), t)
  {
    assert (g.ticks + [t])[..|g.ticks|] == g.ticks;
  }

  lemma SummaryOpens(bs: int, t: Tick)
    ensures Summary(Group(bs, [t])) == Opened(bs, t)
  {
    assert [t][..|[t]| - 1] == [];
    assert LastOi([t]) == t.oi;
  }

  lemma SummariesExtend(gs: seq<Group>, bs: int, t: Tick)
    requires NonEmpty(gs)
    ensures NonEmpty(NextGroups(gs, bs, t))
    ensures Summaries(NextGroups(gs, bs, t)) == NextCandles(Summaries(gs), bs, t)
  {
    SummaryOpens(bs, t);
    if gs != [] { SummaryAbsorbs(gs[|gs| - 1], t); }
  }

  /** Every stream: the candle built tick by tick is the summary of its ticks. */
  lemma {:induction false} CandlesAreGroups(ticks: seq<Tick>, bucket: int -> int)
    ensures NonEmpty(Groups(ticks, bucket)) && Candles(ticks, bucket) == Summaries(Groups(ticks, bucket))
  {
    if ticks == [] {
    } else {
      var init, t := ticks[..|ticks| - 1], ticks[|ticks| - 1];
      CandlesAreGroups(init, bucket);
      SummariesExtend(Groups(init, bucket), bucket(t.ts), t);
    }
  }

  function Ungroup(gs: seq<Group>): seq<Tick> {
    if gs == [] then [] else Ungroup(gs[..|gs| - 1]) + gs[|gs| - 1].ticks
  }

  predicate Ordered(ticks: seq<Tick>) { forall j, k :: 0 <= j < k < |ticks| ==> ticks[j].ts <= ticks[k].ts }

  predicate Bucketed(g: Group, bucket: int -> int) {
    g.ticks != [] && forall k :: 0 <= k < |g.ticks| ==> bucket(g.ticks[k].ts) == g.start
  }

  ghost predicate Monotone(f: int -> int) { forall a, b :: a <= b ==> f(a) <= f(b) }

  predicate Rising(gs: seq<Group>) { forall j, k :: 0 <= j < k < |gs| ==> gs[j].start < gs[k].start }

  lemma PartitionExtends(gs: seq<Group>, bs: int, t: Tick)
    ensures Ungroup(NextGroups(gs, bs, t)) == Ungroup(gs) + [t]
  {
    var n := |gs| - 1;
    if gs == [] || bs > gs[n].start {
      assert (gs + [Group(bs, [t])])[..|gs|] == gs;
    } else {
      var g := gs[n].(ticks := gs[n].ticks + [t]);
      assert gs[n := g][..n] == gs[..n];
      assert Ungroup(gs[n := g]) == Ungroup(gs[..n]) + (gs[n].ticks + [t]);
    }
  }

  lemma RisingExtends(gs: seq<Group>, bs: int, t: Tick)
    requires Rising(gs)
    ensures Rising(NextGroups(gs, bs, t))
  {
    if gs != [] {
      var last := gs[|gs| - 1].start;
      assert forall j :: 0 <= j < |gs| ==> gs[j].start <= last;
    }
  }

  lemma {:induction false} GroupsRise(ticks: seq<Tick>, bucket: int -> int)
    ensures Rising(Groups(ticks, bucket))
  {
    if ticks == [] {
    } else {
      var init, t := ticks[..|ticks| - 1], ticks[|ticks| - 1];
      GroupsRise(init, bucket);
      RisingExtends(Groups(init, bucket), bucket(t.ts), t);
    }
  }

  lemma {:induction false} GroupsLoseNothing(ticks: seq<Tick>, bucket: int -> int)
    ensures Ungroup(Groups(ticks, bucket)) == ticks
  {
    if ticks == [] {
    } else {
      var init, t := ticks[..|ticks| - 1], ticks[|ticks| - 1];
      var gs, bs := Groups(init, bucket), bucket(t.ts);
      assert ticks == init + [t];
      assert Groups(ticks, bucket) == NextGroups(gs, bs, t);
      assert Ungroup(gs) == init by { GroupsLoseNothing(init, bucket); }
      PartitionExtends(gs, bs, t);
    }
  }

  /** Every stream is cut without loss into groups of strictly increasing start. */
  lemma GroupsPartition(ticks: seq<Tick>, bucket: int -> int)
    ensures Rising(Groups(ticks, bucket)) && Ungroup(Groups(ticks, bucket)) == ticks
  {
    GroupsRise(ticks, bucket);
    GroupsLoseNothing(ticks, bucket);
  }

  predicate AllBucketed(gs: seq<Group>, bucket: int -> int) {
    forall k :: 0 <= k < |gs| ==> Bucketed(gs[k], bucket)
  }

  lemma BucketedExtends(gs: seq<Group>, bucket: int -> int, t: Tick)
    requires AllBucketed(gs, bucket)
    requires gs == [] || gs[|gs| - 1].start <= bucket(t.ts)
    ensures AllBucketed(NextGroups(gs, bucket(t.ts), t), bucket)
  {
    if gs == [] || bucket(t.ts) > gs[|gs| - 1].start {
      assert Bucketed(Group(bucket(t.ts), [t]), bucket);
    } else {
      var g := gs[|gs| - 1];
      assert Bucketed(g.(ticks := g.ticks + [t]), bucket);
    }
  }

  /** In a time-ordered stream each group is one bucket. */
  lemma {:induction false} GroupsAreBuckets(ticks: seq<Tick>, bucket: int -> int)
    requires Ordered(ticks) && Monotone(bucket)
    ensures AllBucketed(Groups(ticks, bucket), bucket)
  {
    if ticks == [] {
    } else {
      var init, t := ticks[..|ticks| - 1], ticks[|ticks| - 1];
      GroupsAreBuckets(init, bucket);
      var gs := Groups(init, bucket);
      assert Ungroup(gs) == init by { GroupsPartition(init, bucket); }
      if gs != [] {
        LatestTick(gs, bucket);
        assert init[|init| - 1].ts <= t.ts;
      }
      BucketedExtends(gs, bucket, t);
    }
  }

  lemma LatestTick(gs: seq<Group>, bucket: int -> int)
    requires gs != [] && AllBucketed(gs, bucket)
    ensures var all := Ungroup(gs); all != [] && bucket(all[|all| - 1].ts) == gs[|gs| - 1].start
  {
    assert Bucketed(gs[|gs| - 1], bucket);
  }

  // --- coarse candles are merged fine ones ---------------------------------------------------------

  datatype Ohlc = Ohlc(start: int, open: real, high: real, low: real, close: real)

  function Shape(c: Cell): Ohlc { Ohlc(c.start, c.open, c.high, c.low, c.close) }

  function Shapes(cs: seq<Cell>): seq<Ohlc> { seq(|cs|, k requires 0 <= k < |cs| => Shape(cs[k])) }

  function Merge(a: Ohlc, b: Ohlc): Ohlc {
    Ohlc(a.start, a.open, MaxR(a.high, b.high), MinR(a.low, b.low), b.close)
  }

  /** Adjacent candles of one coarse bucket merged into one. */
  function Coarsen(cs: seq<Ohlc>, bucket: int -> int): seq<Ohlc> {
    if cs == [] then []
    else NextCoarse(Coarsen(cs[..|cs| - 1], bucket), cs[|cs| - 1], bucket(cs[|cs| - 1].start))
  }

  function NextCoarse(out: seq<Ohlc>, c: Ohlc, bs: int): seq<Ohlc> {
    if out == [] || bs > out[|out| - 1].start then out + [c.(start := bs)]
    else out[|out| - 1 := Merge(out[|out| - 1], c)]
  }

  ghost predicate Nested(fine: int -> int, coarse: int -> int) { forall ts :: coarse(fine(ts)) == coarse(ts) }

  lemma MergeAbsorbs(prev: seq<Ohlc>, c: Cell, bs: int, out: seq<Cell>, t: Tick)
    requires NextCoarse(prev, Shape(c), bs) == Shapes(out)
    ensures out != [] && bs <= out[|out| - 1].start
    ensures NextCoarse(prev, Shape(Absorbed(c, t)), bs) == Shapes(out[|out| - 1 := Absorbed(out[|out| - 1], t)])
  {
    var n := |out| - 1;
    assert n >= 0 && Shapes(out)[n] == Shape(out[n]);
    var merged := NextCoarse(prev, Shape(Absorbed(c, t)), bs);
    assert merged == Shapes(out)[n := merged[n]];
    assert merged[n] == Shape(Absorbed(out[n], t));
  }

  lemma MergeOpens(out: seq<Cell>, fine: int, coarse: int, t: Tick)
    ensures NextCoarse(Shapes(out), Shape(Opened(fine, t)), coarse) == Shapes(NextCandles(out, coarse, t))
  {
  }

  lemma CoarsenExtends(cs: seq<Cell>, out: seq<Cell>, fine: int, coarse: int -> int, t: Tick)
    requires Coarsen(Shapes(cs), coarse) == Shapes(out) && Monotone(coarse)
    ensures Coarsen(Shapes(NextCandles(cs, fine, t)), coarse) == Shapes(NextCandles(out, coarse(fine), t))
  {
    var cs', n := NextCandles(cs, fine, t), |cs| - 1;
    if |cs'| > |cs| {
      assert Shapes(cs')[..|cs|] == Shapes(cs);
      assert Shapes(cs')[|cs|] == Shape(Opened(fine, t));
      MergeOpens(out, fine, coarse(fine), t);
    } else {
      assert Shapes(cs')[..n] == Shapes(cs)[..n];
      assert Shapes(cs')[n] == Shape(Absorbed(cs[n], t));
      assert coarse(fine) <= coarse(cs[n].start);
      MergeAbsorbs(Coarsen(Shapes(cs)[..n], coarse), cs[n], coarse(cs[n].start), out, t);
    }
  }

  /** Every stream: the coarse candles' OHLC is the merge of the fine candles of each coarse bucket. */
  lemma {:induction false} CoarseIsMerged(ticks: seq<Tick>, fine: int -> int, coarse: int -> int)
    requires Nested(fine, coarse) && Monotone(coarse)
    ensures Coarsen(Shapes(Candles(ticks, fine)), coarse) == Shapes(Candles(ticks, coarse))
  {
    if ticks == [] {
    } else {
      var init, t := ticks[..|ticks| - 1], ticks[|ticks| - 1];
      CoarseIsMerged(init, fine, coarse);
      assert coarse(fine(t.ts)) == coarse(t.ts);
      CoarsenExtends(Candles(init, fine), Candles(init, coarse), fine(t.ts), coarse, t);
    }
  }

  lemma IntervalsNest(fine: Interval, coarse: Interval)
    requires Divides(fine, coarse)
    ensures Nested(BucketOf(fine), BucketOf(coarse)) && Monotone(BucketOf(coarse))
  {
    forall ts ensures BucketOf(coarse)(BucketOf(fine)(ts)) == BucketOf(coarse)(ts) { BucketsNest(ts, fine, coarse); }
    forall a, b | a <= b ensures BucketOf(coarse)(a) <= BucketOf(coarse)(b) { BucketMonotone(a, b, coarse); }
  }

  // --- volume --------------------------------------------------------------------------------------

  function TotalVolume(cs: seq<Cell>): int {
    if cs == [] then 0 else TotalVolume(cs[..|cs| - 1]) + cs[|cs| - 1].volume
  }

  /** What trades between the last tick of one group and the first of the next. */
  function Jumps(gs: seq<Group>): int requires NonEmpty(gs) {
    if |gs| < 2 then 0
    else
      var a, b := gs[|gs| - 2].ticks, gs[|gs| - 1].ticks;
      Jumps(gs[..|gs| - 1]) + b[0].cum - a[|a| - 1].cum
  }

  predicate Cumulative(ticks: seq<Tick>) { forall j, k :: 0 <= j < k < |ticks| ==> ticks[j].cum <= ticks[k].cum }

  lemma {:induction false} LeastIsFirst(ts: seq<Tick>)
    requires ts != [] && Cumulative(ts)
    ensures LeastCum(ts) == ts[0].cum
  {
    if |ts| == 1 {
    } else {
      LeastIsFirst(ts[..|ts| - 1]);
    }
  }

  /** With a cumulative volume that never falls, candles and the jumps between them account for it all. */
  lemma {:induction false} VolumeConserved(gs: seq<Group>)
    requires gs != [] && NonEmpty(gs) && forall k :: 0 <= k < |gs| ==> Cumulative(gs[k].ticks)
    ensures var last := gs[|gs| - 1].ticks;
            TotalVolume(Summaries(gs)) + Jumps(gs) == last[|last| - 1].cum - gs[0].ticks[0].cum
  {
    LeastIsFirst(gs[|gs| - 1].ticks);
    var init := gs[..|gs| - 1];
    assert Summaries(gs)[..|gs| - 1] == Summaries(init);
    if |gs| > 1 {
      VolumeConserved(init);
    } else {
      assert init == [];
    }
  }

  lemma {:induction false} CumulativeParts(gs: seq<Group>)
    requires gs != [] && NonEmpty(gs) && Cumulative(Ungroup(gs))
    ensures forall k :: 0 <= k < |gs| ==> Cumulative(gs[k].ticks)
    ensures Ungroup(gs) != [] && Ungroup(gs)[0] == gs[0].ticks[0]
  {
    var init, last := gs[..|gs| - 1], gs[|gs| - 1].ticks;
    var all, before := Ungroup(gs), Ungroup(init);
    forall j, k | 0 <= j < k < |last| ensures last[j].cum <= last[k].cum {
      assert all[|before| + j] == last[j] && all[|before| + k] == last[k];
    }
    if init != [] {
      assert forall j :: 0 <= j < |before| ==> before[j] == all[j];
      CumulativeParts(init);
    } else {
      assert all == last;
    }
  }

  // --- what comes out ------------------------------------------------------------------------------

  /** The candles of one key: those emitted while the ticks were fed, then the one a flush returns. */
  function Output(intervals: seq<Interval>, ticks: seq<Tick>, k: Key): seq<Cell> {
    var (s, out) := Fed(intervals, ticks);
    CandlesOf(k, out) + CellsOf(At(s, k))
  }

  /** For any mix of instruments and intervals, one key's candles are one summary per bucket of its own ticks:
      every tick is in exactly one, and candle times strictly increase. */
  lemma OutputIsGroupBy(intervals: seq<Interval>, ticks: seq<Tick>, k: Key)
    requires k.1 in intervals
    ensures var mine := OfToken(k.0, ticks);
            var gs := Groups(mine, BucketOf(k.1));
            && NonEmpty(gs) && Output(intervals, ticks, k) == Summaries(gs)
            && Ungroup(gs) == mine && Rising(gs)
            && (Ordered(mine) ==> AllBucketed(gs, BucketOf(k.1)))
  {
    var mine := OfToken(k.0, ticks);
    EmittedThenFlushed(intervals, ticks, k);
    CandlesAreGroups(mine, BucketOf(k.1));
    GroupsPartition(mine, BucketOf(k.1));
    if Ordered(mine) {
      IntervalsNest(k.1, k.1);
      GroupsAreBuckets(mine, BucketOf(k.1));
    }
  }

  /** A wide interval's candles are the narrow ones of the same stream, merged. */
  lemma WideIsMergedNarrow(intervals: seq<Interval>, ticks: seq<Tick>, token: int, fine: Interval, coarse: Interval)
    requires fine in intervals && coarse in intervals && Divides(fine, coarse)
    ensures Coarsen(Shapes(Output(intervals, ticks, (token, fine))), BucketOf(coarse))
         == Shapes(Output(intervals, ticks, (token, coarse)))
  {
    EmittedThenFlushed(intervals, ticks, (token, fine));
    EmittedThenFlushed(intervals, ticks, (token, coarse));
    IntervalsNest(fine, coarse);
    CoarseIsMerged(OfToken(token, ticks), BucketOf(fine), BucketOf(coarse));
  }

  lemma FifteenFromNarrower(fine: Interval)
    ensures Divides(fine, M15) <==> fine != Day
    ensures Divides(fine, Day)
  {
  }

  /** Day volume = candle volumes + what traded between the last tick of a bucket and the first of the next. */
  lemma DayVolume(intervals: seq<Interval>, ticks: seq<Tick>, k: Key)
    requires k.1 in intervals && OfToken(k.0, ticks) != [] && Cumulative(OfToken(k.0, ticks))
    ensures var mine := OfToken(k.0, ticks);
            var gs := Groups(mine, BucketOf(k.1));
            && NonEmpty(gs)
            && TotalVolume(Output(intervals, ticks, k)) + Jumps(gs) == mine[|mine| - 1].cum - mine[0].cum
  {
    OutputIsGroupBy(intervals, ticks, k);
    var gs := Groups(OfToken(k.0, ticks), BucketOf(k.1));
    CumulativeParts(gs);
    VolumeConserved(gs);
  }
}
