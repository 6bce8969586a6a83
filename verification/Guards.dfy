/** The fast-loop guards: execution/guards.py, and the operator's `modify` of engine/main.py. */
module Guards {
  import opened Numbers
  import opened Options

  datatype Reason = Stop | Target | Time

  datatype Signal = Signal(reason: Reason, price: real)

  /** The fields of a guard. Zero switches target, trail, breakeven and lock off, as in the source. */
  datatype Levels = Levels(
    long: bool, entry: real, stop: real, target: real, trail: real, squareOff: Option<int>,
    highWater: real, breakevenAtR: real, lockTrigger: real, giveback: real, initRisk: real, bestGain: real)

  /** The tighter of two stops. */
  function Tighter(long: bool, a: real, b: real): real { if long then MaxR(a, b) else MinR(a, b) }

  function Gain(g: Levels, price: real): real { if g.long then price - g.entry else g.entry - price }

  predicate TimeUp(g: Levels, now: int) { g.squareOff.Some? && now >= g.squareOff.value }

  // --- one check, as the source computes it ----------------------------------------------------

  function PeakSoFar(g: Levels): real { if g.highWater == 0.0 then g.entry else g.highWater }

  function Trailed(g: Levels, price: real): Levels {
    if g.trail == 0.0 then g
    else
      var hw := Tighter(g.long, PeakSoFar(g), price);
      g.(highWater := hw, stop := Tighter(g.long, g.stop, if g.long then hw - g.trail else hw + g.trail))
  }

  function Remembered(g: Levels, price: real): Levels {
    g.(bestGain := MaxR(g.bestGain, Gain(g, price)),
       initRisk := if g.initRisk <= 0.0 then AbsR(g.entry - g.stop) else g.initRisk)
  }

  /** The gain from which the stop may not stay behind the entry, if breakeven is on. */
  function BreakevenGain(atR: real, initRisk: real): Option<real> {
    if atR != 0.0 && initRisk > 0.0 then Some(atR * initRisk) else None
  }

  /** The gain from which a share of the best gain is locked, if locking is on. */
  function LockGain(trigger: real, target: real, entry: real): Option<real> {
    if trigger != 0.0 && target != 0.0 && AbsR(target - entry) > 0.0 then Some(trigger * AbsR(target - entry))
    else None
  }

  function Kept(best: real, giveback: real): real { best * (1.0 - giveback) }

  predicate Due(threshold: Option<real>, best: real) { threshold.Some? && best >= threshold.value }

  function Beyond(g: Levels, gain: real): real { if g.long then g.entry + gain else g.entry - gain }

  /** `stop`, tightened to the entry and to the locked gain where they are due. */
  function Protect(long: bool, stop: real, breakeven: bool, entry: real, lock: bool, level: real): real {
    var s1 := if breakeven then Tighter(long, stop, entry) else stop;
    if lock then Tighter(long, s1, level) else s1
  }

  function ProfitProtected(g: Levels): Levels {
    g.(stop := Protect(g.long, g.stop, Due(BreakevenGain(g.breakevenAtR, g.initRisk), g.bestGain), g.entry,
                       Due(LockGain(g.lockTrigger, g.target, g.entry), g.bestGain),
                       Beyond(g, Kept(g.bestGain, g.giveback))))
  }

  function Updated(g: Levels, price: real): Levels {
    ProfitProtected(Remembered(Trailed(g, price), price))
  }

  function SignalOf(g: Levels, price: real): Option<Signal> {
    if (if g.long then price <= g.stop else price >= g.stop) then Some(Signal(Stop, price))
    else if g.target != 0.0 && (if g.long then price >= g.target else price <= g.target) then
      Some(Signal(Target, price))
    else None
  }

  function Checked(g: Levels, price: real, now: int): (Levels, Option<Signal>) {
    if TimeUp(g, now) then (g, Some(Signal(Time, price)))
    else (Updated(g, price), SignalOf(Updated(g, price), price))
  }

  /** A signal carries the price of the check, and says: Time once the square-off has come, and then nothing moved;
      else Stop exactly if the price gains no more than the stop now does; else Target exactly if there is one and
      the price gains at least as much. */
  predicate Signals(was: Levels, g: Levels, price: real, now: int, signal: Option<Signal>) {
    && (signal.Some? ==> signal.value.price == price)
    && (Says(signal, Time) <==> was.squareOff.Some? && was.squareOff.value <= now)
    && (Says(signal, Time) ==> g == was)
    && (Says(signal, Stop) <==> !Says(signal, Time) && Gain(g, price) <= Gain(g, g.stop))
    && (Says(signal, Target) <==>
          !Says(signal, Time) && !Says(signal, Stop) && g.target != 0.0 && Gain(g, price) >= Gain(g, g.target))
  }

  predicate Says(signal: Option<Signal>, reason: Reason) { signal.Some? && signal.value.reason == reason }

  class Guard {
    const positionId: int
    const token: int
    const long: bool
    const entry: real
    const trail: real
    const squareOff: Option<int>
    const breakevenAtR: real
    const lockTrigger: real
    const giveback: real
    var stop: real
    var target: real
    var highWater: real
    var initRisk: real
    var bestGain: real

    ghost function View(): Levels reads this {
      Levels(long, entry, stop, target, trail, squareOff, highWater, breakevenAtR, lockTrigger, giveback,
             initRisk, bestGain)
    }

    constructor (positionId: int, token: int, g: Levels)
      ensures this.positionId == positionId && this.token == token && View() == g
    {
      this.positionId, this.token := positionId, token;
      long, entry, stop, target, trail := g.long, g.entry, g.stop, g.target, g.trail;
      squareOff, breakevenAtR, lockTrigger := g.squareOff, g.breakevenAtR, g.lockTrigger;
      giveback, highWater, initRisk, bestGain := g.giveback, g.highWater, g.initRisk, g.bestGain;
    }

    method Check(price: real, now: int) returns (signal: Option<Signal>)
      modifies this
      ensures View() == Checked(old(View()), price, now).0
      ensures signal == Checked(old(View()), price, now).1
      ensures Signals(old(View()), View(), price, now, signal)
      ensures AsTight(long, old(stop), stop)
    {
      if squareOff.Some? && now >= squareOff.value {
        return Some(Signal(Time, price));
      }
      FollowPrice(price);
      ProtectProfit();
      if (if long then price <= stop else price >= stop) {
        return Some(Signal(Stop, price));
      }
      if target != 0.0 && (if long then price >= target else price <= target) {
        return Some(Signal(Target, price));
      }
      return None;
    }

    method FollowPrice(price: real)
      modifies this
      ensures View() == Remembered(Trailed(old(View()), price), price)
    {
      if trail != 0.0 {
        highWater := Tighter(long, if highWater == 0.0 then entry else highWater, price);
        stop := Tighter(long, stop, if long then highWater - trail else highWater + trail);
      }
      var gain := if long then price - entry else entry - price;
      if gain > bestGain {
        bestGain := gain;
      }
      if initRisk <= 0.0 {
        initRisk := AbsR(entry - stop);
      }
    }

    method ProtectProfit()
      modifies this
      ensures View() == ProfitProtected(old(View()))
    {
      ghost var s1 := if Due(BreakevenGain(breakevenAtR, initRisk), bestGain) then Tighter(long, stop, entry) else stop;
      if breakevenAtR != 0.0 && initRisk > 0.0 && bestGain >= breakevenAtR * initRisk {
        stop := Tighter(long, stop, entry);
      }
      assert stop == s1;
      ghost var due := Due(LockGain(lockTrigger, target, entry), bestGain);
      ghost var kept := Kept(bestGain, giveback);
      if lockTrigger != 0.0 && target != 0.0 {
        var tdist := AbsR(target - entry);
        if tdist > 0.0 && bestGain >= lockTrigger * tdist {
          var keep := bestGain * (1.0 - giveback);
          assert due && keep == kept;
          stop := Tighter(long, stop, if long then entry + keep else entry - keep);
        }
      }
      assert stop == if due then Tighter(long, s1, if long then entry + kept else entry - kept) else s1;
    }

    /** The operator's modify: a level on the wrong side of the entry is refused. */
    method Modify(newStop: Option<real>, newTarget: Option<real>)
      modifies this
      ensures View() == Modified(old(View()), newStop, newTarget)
      ensures stop == if newStop.Some? && Gain(old(View()), newStop.value) < 0.0 then newStop.value else old(stop)
      ensures target == if newTarget.Some? && Gain(old(View()), newTarget.value) > 0.0 then newTarget.value
                        else old(target)
    {
      if newStop.Some? && (if long then newStop.value < entry else newStop.value > entry) {
        stop := newStop.value;
      }
      if newTarget.Some? && (if long then newTarget.value > entry else newTarget.value < entry) {
        target := newTarget.value;
      }
    }
  }

  function Modified(g: Levels, newStop: Option<real>, newTarget: Option<real>): Levels {
    var g1 := if newStop.Some? && Gain(g, newStop.value) < 0.0 then g.(stop := newStop.value) else g;
    if newTarget.Some? && Gain(g, newTarget.value) > 0.0 then g1.(target := newTarget.value) else g1
  }

  // --- what the two steps mean -----------------------------------------------------------------

  /** `b` is at least as tight as `a`. */
  predicate AsTight(long: bool, a: real, b: real) { if long then a <= b else b <= a }

  function OffPeak(g: Levels): real { if g.long then g.highWater - g.trail else g.highWater + g.trail }

  /** Following a price: the peak covers it and every earlier one, a trailed stop is within its trail of that peak, no
      stop is loosened or moved further than that, and an R once set stays. */
  lemma PriceIsFollowed(g: Levels, p: real)
    ensures var h := Remembered(Trailed(g, p), p);
            && h == g.(stop := h.stop, highWater := h.highWater, bestGain := h.bestGain, initRisk := h.initRisk)
            && AsTight(g.long, g.stop, h.stop) && h.bestGain >= g.bestGain && h.bestGain >= Gain(g, p)
            && h.bestGain in {g.bestGain, Gain(g, p)}
            && (if g.trail == 0.0 then h.stop == g.stop && h.highWater == g.highWater
                else
                  && AsTight(g.long, PeakSoFar(g), h.highWater) && AsTight(g.long, p, h.highWater)
                  && h.highWater in {PeakSoFar(g), p}
                  && AsTight(g.long, OffPeak(h), h.stop) && h.stop in {g.stop, OffPeak(h)})
            && (g.initRisk > 0.0 ==> h.initRisk == g.initRisk)
            && (g.initRisk <= 0.0 ==> (h.initRisk > 0.0 <==> h.stop != h.entry) && h.initRisk == AbsR(Gain(h, h.stop)))
  {
  }

  /** Protecting profit: once breakeven is earned the stop gives back no more than the gain, once the lock is earned
      it keeps its share of the best gain, and unless one of them asks for more it stays where it was. */
  lemma ProfitIsKept(g: Levels)
    ensures var h := ProfitProtected(g);
            && h == g.(stop := h.stop) && AsTight(g.long, g.stop, h.stop)
            && (Due(BreakevenGain(g.breakevenAtR, g.initRisk), g.bestGain) ==> Gain(g, h.stop) >= 0.0)
            && (Due(LockGain(g.lockTrigger, g.target, g.entry), g.bestGain) ==>
                  Gain(g, h.stop) >= Kept(g.bestGain, g.giveback))
            && (h.stop != g.stop ==>
                  || (Due(BreakevenGain(g.breakevenAtR, g.initRisk), g.bestGain) && Gain(g, h.stop) == 0.0)
                  || (Due(LockGain(g.lockTrigger, g.target, g.entry), g.bestGain)
                      && Gain(g, h.stop) == Kept(g.bestGain, g.giveback)))
  {
  }

  // --- the closed form -------------------------------------------------------------------------

  function Run(g: Levels, prices: seq<real>): Levels {
    if prices == [] then g else Updated(Run(g, prices[..|prices| - 1]), prices[|prices| - 1])
  }

  /** The most favourable price so far, starting from the guard's own memory. */
  function Peak(g: Levels, prices: seq<real>): real {
    if prices == [] then PeakSoFar(g) else Tighter(g.long, Peak(g, prices[..|prices| - 1]), prices[|prices| - 1])
  }

  function Best(g: Levels, prices: seq<real>): real {
    if prices == [] then g.bestGain else MaxR(Best(g, prices[..|prices| - 1]), Gain(g, prices[|prices| - 1]))
  }

  function TrailLevel(g: Levels, peak: real): real {
    if g.trail == 0.0 then g.stop else if g.long then peak - g.trail else peak + g.trail
  }

  /** The stop in one shot: the tightest of the initial stop, the trail off the peak, breakeven once
      earned and the locked share of the best gain once earned. */
  function Ratchet(g: Levels, peak: real, best: real): real {
    Protect(g.long, Tighter(g.long, g.stop, TrailLevel(g, peak)),
            Due(BreakevenGain(g.breakevenAtR, g.initRisk), best), g.entry,
            Due(LockGain(g.lockTrigger, g.target, g.entry), best), Beyond(g, Kept(best, g.giveback)))
  }

  /** The R of a guard: what it was armed with, or the distance to the stop it finds. */
  function RiskSeen(g: Levels, stop: real, peak: real): real {
    if g.initRisk > 0.0 then g.initRisk else AbsR(g.entry - Tighter(g.long, stop, TrailLevel(g, peak)))
  }

  /** R after these prices, in one shot: the first distance between entry and stop that is not zero. */
  function FirstRisk(g: Levels, prices: seq<real>): real {
    if prices == [] then g.initRisk
    else
      var init := prices[..|prices| - 1];
      var h := g.(initRisk := FirstRisk(g, init));
      RiskSeen(h, if init == [] then g.stop else Ratchet(h, Peak(g, init), Best(g, init)), Peak(g, prices))
  }

  predicate Positive(g: Levels, prices: seq<real>) {
    g.entry > 0.0 && g.highWater >= 0.0 && forall k :: 0 <= k < |prices| ==> prices[k] > 0.0
  }

  lemma {:induction false} PeakPositive(g: Levels, prices: seq<real>)
    requires Positive(g, prices)
    ensures Peak(g, prices) > 0.0
  {
    if prices == [] {
    } else {
      PeakPositive(g, prices[..|prices| - 1]);
    }
  }

  lemma TimesGrows(a: real, b: real, c: real)
    requires a <= b && 0.0 <= c
    ensures a * c <= b * c
  {
  }

  lemma KeptGrows(a: real, b: real, giveback: real)
    requires a <= b && giveback <= 1.0
    ensures Kept(a, giveback) <= Kept(b, giveback)
  {
    TimesGrows(a, b, 1.0 - giveback);
  }

  /** Tightening again to levels no looser than before forgets the first time. */
  lemma TightenedTwice(long: bool, stop: real, entry: real, t1: real, b1: bool, l1: bool, k1: real,
                       t2: real, b2: bool, l2: bool, k2: real)
    requires AsTight(long, t1, t2) && (b1 ==> b2) && (l1 ==> l2) && AsTight(long, k1, k2)
    ensures Protect(long, Tighter(long, Protect(long, Tighter(long, stop, t1), b1, entry, l1, k1), t2),
                    b2, entry, l2, k2)
            == Protect(long, Tighter(long, stop, t2), b2, entry, l2, k2)
  {
  }

  /** Every guard, armed with its R or without, after any prices: the stop forgets all but the peak, the best gain and
      R. Where R is still unset, breakeven is out of play. */
  lemma {:induction false} ClosedForm(g: Levels, prices: seq<real>)
    requires g.giveback <= 1.0 && Positive(g, prices) && prices != []
    ensures Run(g, prices) == Seen(g, FirstRisk(g, prices), Peak(g, prices), Best(g, prices))
  {
    var init, p := prices[..|prices| - 1], prices[|prices| - 1];
    PeakPositive(g, init);
    if init == [] {
      FirstCheck(g, p);
    } else {
      ClosedForm(g, init);
      OneMore(g, FirstRisk(g, init), Peak(g, init), Best(g, init), p);
    }
  }

  /** A guard that has seen the given R, peak and best gain. */
  function Seen(g: Levels, risk: real, peak: real, best: real): Levels {
    g.(initRisk := risk, stop := Ratchet(g.(initRisk := risk), peak, best), bestGain := best,
       highWater := if g.trail == 0.0 then g.highWater else peak)
  }

  lemma FirstCheck(g: Levels, p: real)
    ensures var peak := Tighter(g.long, PeakSoFar(g), p);
            Updated(g, p) == Seen(g, RiskSeen(g, g.stop, peak), peak, MaxR(g.bestGain, Gain(g, p)))
  {
    var h := Remembered(Trailed(g, p), p);
    assert h.initRisk == RiskSeen(g, g.stop, Tighter(g.long, PeakSoFar(g), p));
  }

  lemma OneMore(g: Levels, risk: real, peak: real, best: real, p: real)
    requires g.giveback <= 1.0 && peak > 0.0
    ensures var h, peak' := g.(initRisk := risk), Tighter(g.long, peak, p);
            Updated(Seen(g, risk, peak, best), p)
            == Seen(g, RiskSeen(h, Ratchet(h, peak, best), peak'), peak', MaxR(best, Gain(g, p)))
  {
    var h, best', peak' := g.(initRisk := risk), MaxR(best, Gain(g, p)), Tighter(g.long, peak, p);
    var risk' := RiskSeen(h, Ratchet(h, peak, best), peak');
    KeptGrows(best, best', g.giveback);
    RatchetHolds(h, peak, best);
    SeenOnce(g, risk, peak, best, p);
    Reprotected(g, risk, peak, best, Kept(best, g.giveback), risk', peak', best', Kept(best', g.giveback));
  }

  /** The ratchet is never looser than the initial stop. */
  lemma RatchetHolds(g: Levels, peak: real, best: real)
    ensures AsTight(g.long, g.stop, Ratchet(g, peak, best))
  {
  }

  /** What a check does before it protects profit. */
  lemma SeenOnce(g: Levels, risk: real, peak: real, best: real, p: real)
    requires peak > 0.0 && AsTight(g.long, g.stop, Ratchet(g.(initRisk := risk), peak, best))
    ensures var h, peak' := g.(initRisk := risk), Tighter(g.long, peak, p);
            var risk' := RiskSeen(h, Ratchet(h, peak, best), peak');
            Remembered(Trailed(Seen(g, risk, peak, best), p), p)
            == Seen(g, risk', peak', MaxR(best, Gain(g, p))).(
                 stop := Tighter(g.long, Ratchet(h, peak, best), TrailLevel(g, peak')))
  {
  }

  lemma DueStays(threshold: Option<real>, best: real, best': real)
    requires best <= best'
    ensures Due(threshold, best) ==> Due(threshold, best')
  {
  }

  /** A better peak and a better kept gain trail and lock at levels no looser. */
  lemma LevelsTighten(g: Levels, peak: real, peak': real, kept: real, kept': real)
    requires AsTight(g.long, peak, peak') && kept <= kept'
    ensures AsTight(g.long, TrailLevel(g, peak), TrailLevel(g, peak'))
    ensures AsTight(g.long, Beyond(g, kept), Beyond(g, kept'))
  {
  }

  lemma RatchetIs(g: Levels, risk: real, peak: real, best: real, kept: real)
    requires kept == Kept(best, g.giveback)
    ensures Ratchet(g.(initRisk := risk), peak, best)
            == Protect(g.long, Tighter(g.long, g.stop, TrailLevel(g, peak)),
                       Due(BreakevenGain(g.breakevenAtR, risk), best), g.entry,
                       Due(LockGain(g.lockTrigger, g.target, g.entry), best), Beyond(g, kept))
  {
  }

  lemma Reprotected(g: Levels, risk: real, peak: real, best: real, kept: real,
                    risk': real, peak': real, best': real, kept': real)
    requires best <= best' && AsTight(g.long, peak, peak') && kept <= kept' && (risk > 0.0 ==> risk' == risk)
    requires kept == Kept(best, g.giveback) && kept' == Kept(best', g.giveback)
    ensures Protect(g.long, Tighter(g.long, Ratchet(g.(initRisk := risk), peak, best), TrailLevel(g, peak')),
                    Due(BreakevenGain(g.breakevenAtR, risk'), best'), g.entry,
                    Due(LockGain(g.lockTrigger, g.target, g.entry), best'), Beyond(g, kept'))
            == Ratchet(g.(initRisk := risk'), peak', best')
  {
    var even, even', lock := BreakevenGain(g.breakevenAtR, risk), BreakevenGain(g.breakevenAtR, risk'),
                             LockGain(g.lockTrigger, g.target, g.entry);
    DueStays(even, best, best');
    DueStays(lock, best, best');
    assert Due(even, best) ==> even' == even;
    LevelsTighten(g, peak, peak', kept, kept');
    RatchetIs(g, risk, peak, best, kept);
    RatchetIs(g, risk', peak', best', kept');
    TightenedTwice(g.long, g.stop, g.entry, TrailLevel(g, peak), Due(even, best), Due(lock, best), Beyond(g, kept),
                   TrailLevel(g, peak'), Due(even', best'), Due(lock, best'), Beyond(g, kept'));
  }

  /** A guard armed without its R takes it from the stop of its first check; one whose stop that check finds at the
      entry stays without. */
  lemma {:induction false} RiskFromFirstStop(g: Levels, p: real, prices: seq<real>)
    ensures var risk := RiskSeen(g, g.stop, Tighter(g.long, PeakSoFar(g), p));
            Run(g, [p] + prices) == Run(g.(initRisk := risk), [p] + prices)
  {
    if prices == [] {
      assert ([p] + prices)[..0] == [] && [p] + prices == [p];
      FirstCheck(g, p);
    } else {
      var init := prices[..|prices| - 1];
      assert ([p] + prices)[..|prices|] == [p] + init;
      RiskFromFirstStop(g, p, init);
    }
  }

  // --- the check that ends a run ---------------------------------------------------------------

  /** Breakeven is on and the best gain has reached its number of R. */
  predicate EvenEarned(g: Levels, best: real) {
    g.breakevenAtR != 0.0 && g.initRisk > 0.0 && best >= g.breakevenAtR * g.initRisk
  }

  /** The lock is on and the best gain has reached its share of the distance to the target. */
  predicate LockEarned(g: Levels, best: real) {
    g.lockTrigger != 0.0 && g.target != 0.0 && g.target != g.entry && best >= g.lockTrigger * AbsR(g.target - g.entry)
  }

  /** The gain that a stop at the ratchet leaves: the most of what the stop, the trail, breakeven once earned and
      the lock once earned each keep. */
  function FloorGain(g: Levels, peak: real, best: real): real {
    var armed := Gain(g, g.stop);
    FloorOf(if g.trail != 0.0 then MaxR(armed, Gain(g, peak) - g.trail) else armed,
            EvenEarned(g, best), LockEarned(g, best), best * (1.0 - g.giveback))
  }

  function FloorOf(trailed: real, even: bool, lock: bool, kept: real): real {
    var e := if even then MaxR(trailed, 0.0) else trailed;
    if lock then MaxR(e, kept) else e
  }

  lemma RatchetKeepsFloor(g: Levels, peak: real, best: real)
    ensures Gain(g, Ratchet(g, peak, best)) == FloorGain(g, peak, best)
  {
    var even, lock, kept := EvenEarned(g, best), LockEarned(g, best), best * (1.0 - g.giveback);
    var trailed := Tighter(g.long, g.stop, TrailLevel(g, peak));
    assert Ratchet(g, peak, best) == Protect(g.long, trailed, even, g.entry, lock, Beyond(g, kept)) by {
      EarnedIsDue(g, best);
      RatchetAs(g, peak, best, even, lock, kept);
    }
    assert FloorGain(g, peak, best) == FloorOf(Gain(g, trailed), even, lock, kept) by {
      TrailKeeps(g, peak);
      FloorAs(g, peak, best, even, lock, kept);
    }
    FloorOfProtect(g, trailed, even, lock, kept);
  }

  lemma RatchetAs(g: Levels, peak: real, best: real, even: bool, lock: bool, kept: real)
    requires even == Due(BreakevenGain(g.breakevenAtR, g.initRisk), best)
    requires lock == Due(LockGain(g.lockTrigger, g.target, g.entry), best) && kept == Kept(best, g.giveback)
    ensures Ratchet(g, peak, best)
            == Protect(g.long, Tighter(g.long, g.stop, TrailLevel(g, peak)), even, g.entry, lock, Beyond(g, kept))
  {
  }

  lemma FloorAs(g: Levels, peak: real, best: real, even: bool, lock: bool, kept: real)
    requires even == EvenEarned(g, best) && lock == LockEarned(g, best) && kept == best * (1.0 - g.giveback)
    ensures FloorGain(g, peak, best)
            == FloorOf(if g.trail != 0.0 then MaxR(Gain(g, g.stop), Gain(g, peak) - g.trail) else Gain(g, g.stop),
                       even, lock, kept)
  {
  }

  lemma TrailKeeps(g: Levels, peak: real)
    ensures Gain(g, Tighter(g.long, g.stop, TrailLevel(g, peak)))
            == if g.trail != 0.0 then MaxR(Gain(g, g.stop), Gain(g, peak) - g.trail) else Gain(g, g.stop)
  {
  }

  lemma EarnedIsDue(g: Levels, best: real)
    ensures EvenEarned(g, best) == Due(BreakevenGain(g.breakevenAtR, g.initRisk), best)
    ensures LockEarned(g, best) == Due(LockGain(g.lockTrigger, g.target, g.entry), best)
  {
  }

  lemma FloorOfProtect(g: Levels, stop: real, even: bool, lock: bool, kept: real)
    ensures Gain(g, Protect(g.long, stop, even, g.entry, lock, Beyond(g, kept)))
            == FloorOf(Gain(g, stop), even, lock, kept)
  {
  }

  /** Peak and best gain cover the guard's memory and every price, and are one of them. */
  lemma {:induction false} BestCovers(g: Levels, prices: seq<real>)
    ensures Best(g, prices) >= g.bestGain && Gain(g, Peak(g, prices)) >= Gain(g, PeakSoFar(g))
    ensures forall k :: 0 <= k < |prices| ==>
              Best(g, prices) >= Gain(g, prices[k]) && Gain(g, Peak(g, prices)) >= Gain(g, prices[k])
    ensures Best(g, prices) == g.bestGain || exists k :: 0 <= k < |prices| && Best(g, prices) == Gain(g, prices[k])
    ensures Peak(g, prices) == PeakSoFar(g) || Peak(g, prices) in prices
  {
    if prices == [] {
    } else {
      var init := prices[..|prices| - 1];
      BestCovers(g, init);
      assert Best(g, prices) == Gain(g, prices[|init|]) || Best(g, prices) == Best(g, init);
      assert forall k :: 0 <= k < |init| ==> prices[k] == init[k];
    }
  }

  /** What the guard keeps of its gain after these prices. */
  function FloorAfter(g: Levels, prices: seq<real>): real {
    FloorGain(g.(initRisk := FirstRisk(g, prices)), Peak(g, prices), Best(g, prices))
  }

  /** The k-th of these checks finds its price at the floor, or at the target. */
  predicate AtFloor(g: Levels, prices: seq<real>, k: nat) requires k < |prices| {
    Gain(g, prices[k]) <= FloorAfter(g, prices[..k + 1])
  }

  predicate AtTarget(g: Levels, prices: seq<real>, k: nat) requires k < |prices| {
    g.target != 0.0 && Gain(g, prices[k]) >= Gain(g, g.target)
  }

  function Signalled(g: Levels, prices: seq<real>, times: seq<int>, k: nat): Option<Signal>
    requires k < |prices| == |times|
  {
    Checked(Run(g, prices[..k]), prices[k], times[k]).1
  }

  predicate Quiet(g: Levels, prices: seq<real>, times: seq<int>, k: nat)
    requires k < |prices| == |times|
  {
    !TimeUp(g, times[k]) && !AtFloor(g, prices, k) && !AtTarget(g, prices, k)
  }

  /** The first check that signals, from the k-th on; the manager disarms the guard with it. */
  function FirstSignal(g: Levels, prices: seq<real>, times: seq<int>, k: nat): Option<nat>
    requires k <= |prices| == |times|
    decreases |prices| - k
  {
    if k == |prices| then None
    else if Signalled(g, prices, times, k).Some? then Some(k)
    else FirstSignal(g, prices, times, k + 1)
  }

  /** The k-th check: Time once the square-off has come, else Stop exactly at the floor, else Target exactly at the
      target. */
  lemma SignalAt(g: Levels, prices: seq<real>, times: seq<int>, k: nat)
    requires g.giveback <= 1.0 && Positive(g, prices) && k < |prices| == |times|
    ensures var signal := Signalled(g, prices, times, k);
            && (Says(signal, Time) <==> TimeUp(g, times[k]))
            && (Says(signal, Stop) <==> !TimeUp(g, times[k]) && AtFloor(g, prices, k))
            && (Says(signal, Target) <==> !TimeUp(g, times[k]) && !AtFloor(g, prices, k) && AtTarget(g, prices, k))
  {
    var seen, h := prices[..k + 1], Run(g, prices[..k]);
    assert seen[..k] == prices[..k] && forall i :: 0 <= i < |seen| ==> seen[i] == prices[i];
    ClosedForm(g, seen);
    RatchetKeepsFloor(g.(initRisk := FirstRisk(g, seen)), Peak(g, seen), Best(g, seen));
    SameTerms(g, prices[..k]);
    assert Updated(h, prices[k]) == Run(g, seen);
  }

  /** A run leaves the terms of a guard as they were. */
  lemma {:induction false} SameTerms(g: Levels, prices: seq<real>)
    ensures var h := Run(g, prices);
            h == g.(stop := h.stop, highWater := h.highWater, initRisk := h.initRisk, bestGain := h.bestGain)
  {
    if prices == [] {
    } else {
      SameTerms(g, prices[..|prices| - 1]);
    }
  }

  /** The first check from the k-th on that is not quiet; it stops out exactly if square-off has not come and its price
      is at the floor. */
  ghost predicate IsFirst(g: Levels, prices: seq<real>, times: seq<int>, k: nat, first: Option<nat>)
    requires k <= |prices| == |times|
  {
    match first
    case None => forall j :: k <= j < |prices| ==> Quiet(g, prices, times, j)
    case Some(i) =>
      && k <= i < |prices| && !Quiet(g, prices, times, i)
      && (forall j :: k <= j < i ==> Quiet(g, prices, times, j))
      && (Says(Signalled(g, prices, times, i), Stop) <==> !TimeUp(g, times[i]) && AtFloor(g, prices, i))
  }

  /** A guard signals at the first price that square-off time, the floor of its gain or its target meets, and at no
      earlier one. */
  lemma {:induction false} FirstSignalIs(g: Levels, prices: seq<real>, times: seq<int>, k: nat)
    requires g.giveback <= 1.0 && Positive(g, prices) && k <= |prices| == |times|
    ensures IsFirst(g, prices, times, k, FirstSignal(g, prices, times, k))
    decreases |prices| - k
  {
    if k == |prices| {
    } else {
      SignalsUnlessQuiet(g, prices, times, k);
      if Signalled(g, prices, times, k).Some? {
        assert FirstSignal(g, prices, times, k) == Some(k);
      } else {
        FirstSignalIs(g, prices, times, k + 1);
        QuietBefore(g, prices, times, k, FirstSignal(g, prices, times, k + 1));
      }
    }
  }

  lemma QuietBefore(g: Levels, prices: seq<real>, times: seq<int>, k: nat, first: Option<nat>)
    requires k < |prices| == |times| && Quiet(g, prices, times, k) && IsFirst(g, prices, times, k + 1, first)
    ensures IsFirst(g, prices, times, k, first)
  {
  }

  lemma SignalsUnlessQuiet(g: Levels, prices: seq<real>, times: seq<int>, k: nat)
    requires g.giveback <= 1.0 && Positive(g, prices) && k < |prices| == |times|
    ensures Signalled(g, prices, times, k).Some? <==> !Quiet(g, prices, times, k)
    ensures Says(Signalled(g, prices, times, k), Stop) <==> !TimeUp(g, times[k]) && AtFloor(g, prices, k)
  {
    SignalAt(g, prices, times, k);
    ReasonsAreAll(Signalled(g, prices, times, k));
  }

  lemma ReasonsAreAll(signal: Option<Signal>)
    ensures signal.Some? <==> Says(signal, Time) || Says(signal, Stop) || Says(signal, Target)
  {
  }

  /** A guard as `create_bracket` arms it: nothing remembered yet. */
  predicate Fresh(g: Levels) { g.highWater == 0.0 && g.bestGain == 0.0 }

  lemma {:induction false} BestIsPeakGain(g: Levels, prices: seq<real>)
    requires Fresh(g)
    ensures Best(g, prices) == Gain(g, Peak(g, prices)) >= 0.0
  {
    if prices == [] {
    } else {
      BestIsPeakGain(g, prices[..|prices| - 1]);
    }
  }

  /** The price has not reached the stop. */
  predicate Clear(long: bool, stop: real, price: real) { if long then stop < price else price < stop }

  lemma StaysClear(long: bool, stop: real, t: real, b: bool, entry: real, l: bool, k: real, price: real)
    requires Clear(long, stop, price) && Clear(long, t, price) && Clear(long, entry, price) && Clear(long, k, price)
    ensures Clear(long, Protect(long, Tighter(long, stop, t), b, entry, l, k), price)
  {
  }

  lemma KeptIsLess(gain: real, giveback: real)
    requires gain > 0.0 && giveback > 0.0
    ensures Kept(gain, giveback) < gain
  {
    TimesPositive(gain, giveback);
  }

  lemma TimesPositive(a: real, b: real)
    requires a > 0.0 && b > 0.0
    ensures a * b > 0.0 && a * (1.0 - b) == a - a * b
  {
  }

  /** A tick that makes a new strict peak never stops out. */
  lemma NewPeakSurvives(g: Levels, prices: seq<real>, p: real)
    requires Fresh(g) && Positive(g, prices + [p])
    requires 0.0 < g.giveback <= 1.0 && g.trail >= 0.0 && Gain(g, g.stop) < 0.0
    requires Gain(g, p) > Gain(g, Peak(g, prices))
    ensures Clear(g.long, Run(g, prices + [p]).stop, p)
  {
    assert (prices + [p])[..|prices|] == prices;
    BestIsPeakGain(g, prices);
    BestIsPeakGain(g, prices + [p]);
    ClosedForm(g, prices + [p]);
    NewPeakClear(g.(initRisk := FirstRisk(g, prices + [p])), p);
  }

  lemma NewPeakClear(g: Levels, p: real)
    requires g.giveback > 0.0 && g.trail >= 0.0 && Gain(g, g.stop) < 0.0 < Gain(g, p)
    ensures Clear(g.long, Ratchet(g, p, Gain(g, p)), p)
  {
    KeptIsLess(Gain(g, p), g.giveback);
    StaysClear(g.long, g.stop, TrailLevel(g, p), Due(BreakevenGain(g.breakevenAtR, g.initRisk), Gain(g, p)), g.entry,
               Due(LockGain(g.lockTrigger, g.target, g.entry), Gain(g, p)),
               Beyond(g, Kept(Gain(g, p), g.giveback)), p);
  }

  /** After any accepted or refused modify, before the first check or later, the next check restores every level the
      peak has earned. */
  lemma ModifyRestored(g: Levels, prices: seq<real>, newStop: Option<real>, newTarget: Option<real>, p: real)
    requires g.giveback <= 1.0 && Positive(g, prices + [p])
    ensures var h := Modified(Run(g, prices), newStop, newTarget);
            var k := g.(stop := h.stop, target := h.target, initRisk := FirstRisk(g, prices));
            var peak := Peak(g, prices + [p]);
            Updated(h, p).stop == Ratchet(k.(initRisk := RiskSeen(k, k.stop, peak)), peak, Best(g, prices + [p]))
  {
    assert (prices + [p])[..|prices|] == prices;
    if prices == [] {
      RestoredAtFirst(g, newStop, newTarget, p);
    } else {
      var risk, peak, best := FirstRisk(g, prices), Peak(g, prices), Best(g, prices);
      assert Run(g, prices) == Seen(g, risk, peak, best) && peak > 0.0 by {
        assert forall k :: 0 <= k < |prices| ==> prices[k] == (prices + [p])[k];
        ClosedForm(g, prices);
        PeakPositive(g, prices);
      }
      var h := Modified(Run(g, prices), newStop, newTarget);
      ModifiedIs(Run(g, prices), newStop, newTarget);
      RestoredFrom(g, risk, peak, best, h.stop, h.target, p);
    }
  }

  lemma RestoredAtFirst(g: Levels, newStop: Option<real>, newTarget: Option<real>, p: real)
    ensures var h, peak := Modified(g, newStop, newTarget), Tighter(g.long, PeakSoFar(g), p);
            Updated(h, p).stop == Ratchet(h.(initRisk := RiskSeen(h, h.stop, peak)), peak, MaxR(g.bestGain, Gain(g, p)))
  {
    ModifiedIs(g, newStop, newTarget);
    FirstCheck(Modified(g, newStop, newTarget), p);
  }

  lemma ModifiedIs(g: Levels, newStop: Option<real>, newTarget: Option<real>)
    ensures var h := Modified(g, newStop, newTarget); h == g.(stop := h.stop, target := h.target)
  {
  }

  lemma RestoredFrom(g: Levels, risk: real, peak: real, best: real, stop: real, target: real, p: real)
    requires peak > 0.0
    ensures var k, peak' := g.(stop := stop, target := target, initRisk := risk), Tighter(g.long, peak, p);
            Updated(Seen(g, risk, peak, best).(stop := stop, target := target), p).stop
            == Ratchet(k.(initRisk := RiskSeen(k, stop, peak')), peak', MaxR(best, Gain(g, p)))
  {
    var h := Seen(g, risk, peak, best).(stop := stop, target := target);
    var k, peak' := g.(stop := stop, target := target, initRisk := risk), Tighter(g.long, peak, p);
    FirstCheck(h, p);
    SameRatchet(h.(initRisk := RiskSeen(h, h.stop, Tighter(g.long, PeakSoFar(h), p))),
                k.(initRisk := RiskSeen(k, stop, peak')), Tighter(g.long, PeakSoFar(h), p), peak',
                MaxR(best, Gain(g, p)));
  }

  /** The ratchet reads neither memory of the guard, nor a peak that is not trailed. */
  lemma SameRatchet(g: Levels, h: Levels, p1: real, p2: real, best: real)
    requires h == g.(highWater := h.highWater, bestGain := h.bestGain) && (g.trail != 0.0 ==> p1 == p2)
    ensures Ratchet(g, p1, best) == Ratchet(h, p2, best)
  {
  }

  // --- shorts are the reflection of longs -------------------------------------------------------

  function Reflect(g: Levels): Levels {
    g.(long := !g.long, entry := -g.entry, stop := -g.stop, target := -g.target, highWater := -g.highWater)
  }

  function ReflectSignal(s: Option<Signal>): Option<Signal> {
    if s.None? then None else Some(Signal(s.value.reason, -s.value.price))
  }

  lemma Reflection(g: Levels, price: real, now: int)
    ensures Checked(Reflect(g), -price, now)
            == (Reflect(Checked(g, price, now).0), ReflectSignal(Checked(g, price, now).1))
  {
    assert Gain(Reflect(g), -price) == Gain(g, price);
    ReflectTrail(g, price);
    ReflectProtect(Remembered(Trailed(g, price), price));
  }

  lemma ReflectTrail(g: Levels, price: real)
    ensures Remembered(Trailed(Reflect(g), -price), -price) == Reflect(Remembered(Trailed(g, price), price))
  {
  }

  lemma ReflectProtect(g: Levels)
    ensures ProfitProtected(Reflect(g)) == Reflect(ProfitProtected(g))
  {
    assert AbsR(Reflect(g).target - Reflect(g).entry) == AbsR(g.target - g.entry);
  }

  // --- the manager -------------------------------------------------------------------------------

  predicate Lists(index: map<int, set<int>>, token: int, pid: int) { token in index && pid in index[token] }

  /** The index lists, under each token, exactly the armed guards of that token. */
  ghost predicate Indexes(index: map<int, set<int>>, guards: map<int, Guard>) {
    forall token, pid :: Lists(index, token, pid) <==> pid in guards && guards[pid].token == token
  }

  /** Every armed guard is listed under its token. */
  ghost predicate Covers(index: map<int, set<int>>, guards: map<int, Guard>) {
    forall pid :: pid in guards ==> Lists(index, guards[pid].token, pid)
  }

  function ListUnder(index: map<int, set<int>>, token: int, pid: int): map<int, set<int>> {
    index[token := (if token in index then index[token] else {}) + {pid}]
  }

  lemma ListedUnder(index: map<int, set<int>>, token: int, pid: int, t: int, p: int)
    ensures Lists(ListUnder(index, token, pid), t, p) <==> Lists(index, t, p) || (t == token && p == pid)
  {
  }

  lemma ArmCovers(index: map<int, set<int>>, guards: map<int, Guard>, pid: int, guard: Guard)
    requires Covers(index, guards)
    ensures Covers(ListUnder(index, guard.token, pid), guards[pid := guard])
  {
    var armed := guards[pid := guard];
    forall p | p in armed ensures Lists(ListUnder(index, guard.token, pid), armed[p].token, p) {
      ListedUnder(index, guard.token, pid, armed[p].token, p);
    }
  }

  lemma ArmIndexes(index: map<int, set<int>>, guards: map<int, Guard>, pid: int, guard: Guard)
    requires Indexes(index, guards)
    ensures Indexes(ListUnder(index, guard.token, pid), guards[pid := guard])
            <==> pid in guards ==> guards[pid].token == guard.token
  {
    var now, armed := ListUnder(index, guard.token, pid), guards[pid := guard];
    if pid in guards && guards[pid].token != guard.token {
      ListedUnder(index, guard.token, pid, guards[pid].token, pid);
      assert Lists(index, guards[pid].token, pid);
    } else {
      forall t, p ensures Lists(now, t, p) <==> p in armed && armed[p].token == t {
        ListedUnder(index, guard.token, pid, t, p);
      }
    }
  }

  function Unlist(index: map<int, set<int>>, token: int, pid: int): map<int, set<int>> {
    if token in index && index[token] != {} then index[token := index[token] - {pid}] else index
  }

  lemma DisarmIndexes(index: map<int, set<int>>, guards: map<int, Guard>, pid: int)
    requires pid in guards && Covers(index, guards)
    ensures Covers(Unlist(index, guards[pid].token, pid), guards - {pid})
    ensures Indexes(index, guards) ==> Indexes(Unlist(index, guards[pid].token, pid), guards - {pid})
  {
    var token := guards[pid].token;
    assert forall t, p :: Lists(Unlist(index, token, pid), t, p) <==> Lists(index, t, p) && !(t == token && p == pid);
    forall p | p in guards && p != pid ensures Lists(Unlist(index, token, pid), guards[p].token, p) {
      assert Lists(index, guards[p].token, p);
    }
  }

  class GuardManager {
    var guards: map<int, Guard>
    var byToken: map<int, set<int>>
    // Histories: one entry per arming, and per close the fast loop started.
    ghost var armings: multiset<int>
    ghost var closes: multiset<int>

    ghost predicate Valid() reads this {
      && (forall pid :: pid in guards ==> guards[pid].positionId == pid)
      && Covers(byToken, guards)
      && (forall pid :: closes[pid] + (if pid in guards then 1 else 0) <= armings[pid])
    }

    ghost predicate Exact() reads `guards, `byToken { Indexes(byToken, guards) }

    constructor ()
      ensures Valid() && Exact() && guards == map[] && armings == closes == multiset{}
    {
      guards, byToken := map[], map[];
      armings, closes := multiset{}, multiset{};
    }

    method Arm(guard: Guard)
      requires Valid()
      modifies this
      ensures Valid() && guards == old(guards)[guard.positionId := guard]
      ensures armings == old(armings) + multiset{guard.positionId} && closes == old(closes)
      ensures old(Exact()) ==>
                (Exact() <==> guard.positionId in old(guards) ==>
                   old(guards)[guard.positionId].token == guard.token)
    {
      if Indexes(byToken, guards) { ArmIndexes(byToken, guards, guard.positionId, guard); }
      ArmCovers(byToken, guards, guard.positionId, guard);
      guards := guards[guard.positionId := guard];
      var ids := if guard.token in byToken then byToken[guard.token] else {};
      byToken := byToken[guard.token := ids + {guard.positionId}];
      armings := armings + multiset{guard.positionId};
    }

    method Disarm(pid: int)
      requires Valid()
      modifies this
      ensures Valid() && guards == old(guards) - {pid} && armings == old(armings) && closes == old(closes)
      ensures old(Exact()) ==> Exact()
    {
      if pid in guards {
        DisarmIndexes(byToken, guards, pid);
        var token := guards[pid].token;
        guards := guards - {pid};
        if token in byToken && byToken[token] != {} {
          byToken := byToken[token := byToken[token] - {pid}];
        }
      }
    }

    method Process(pid: int, price: real, now: int) returns (signal: Option<Signal>)
      requires Valid()
      modifies if pid in guards then {guards[pid]} else {}
      ensures Valid() && (old(Exact()) ==> Exact())
      ensures pid !in guards ==> signal == None
      ensures pid in guards ==> (guards[pid].View(), signal) == Checked(old(guards[pid].View()), price, now)
    {
      if pid in guards {
        signal := guards[pid].Check(price, now);
      } else {
        signal := None;
      }
    }

    method ForToken(token: int) returns (pids: set<int>)
      ensures Exact() ==> pids == set pid | pid in guards && guards[pid].token == token
    {
      pids := if token in byToken then byToken[token] else {};
      if Exact() {
        forall pid | pid in guards && guards[pid].token == token ensures pid in pids {
          assert Lists(byToken, token, pid);
        }
        forall pid | pid in pids ensures pid in guards && guards[pid].token == token {
          assert Lists(byToken, token, pid);
        }
      }
    }

    /** The synchronous head of `on_price`: check, and on a signal disarm before anything is awaited.
        Every interleaving of ticks, closes and re-armings is a sequence of calls of this class. */
    method OnPrice(pid: int, price: real, now: int) returns (signal: Option<Signal>)
      requires Valid()
      modifies this, if pid in guards then {guards[pid]} else {}
      ensures Valid() && armings == old(armings) && (old(Exact()) ==> Exact())
      ensures closes == old(closes) + if signal.Some? then multiset{pid} else multiset{}
      ensures signal.Some? ==> pid in old(guards) && pid !in guards
      ensures guards == if signal.Some? then old(guards) - {pid} else old(guards)
      ensures pid in old(guards) ==>
                signal == Checked(old(guards[pid].View()), price, now).1
                && old(guards)[pid].View() == Checked(old(guards[pid].View()), price, now).0
    {
      signal := Process(pid, price, now);
      if signal.Some? {
        Disarm(pid);
        closes := closes + multiset{pid};
      }
    }
  }
}
