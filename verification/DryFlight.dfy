/** Fleeing from a fight with an empty tank. A combat tick is cut to the time the burn still needs,
    and the empty-tank penalty is then recomputed, which moves the finish. In exact arithmetic this
    module says when the finish is ever reached, and how fast the gap to it closes when it is not;
    RoundedFlight has what rounding makes of that. */
module DryFlight {
  import opened Numbers
  import opened MiningRun
  import Damage

  function Gap(b: Burn): real { b.required - b.elapsed }

  predicate Timed(r: Rules, b: Burn) { b.out >= 0.0 && b.required == b.base + Penalty(r, b.out) && Gap(b) >= 0.0 }

  /** The burn part of one combat tick with no fuel left. */
  function DryTick(r: Rules, b: Burn, dt: real): Burn {
    var t := RMin(dt, Gap(b));
    if t <= 0.0 then b
    else b.(elapsed := b.elapsed + t, out := b.out + t, required := b.base + Penalty(r, b.out + t))
  }

  function DryTicks(r: Rules, b: Burn, dt: real, n: nat): Burn
    decreases n
  {
    if n == 0 then b else DryTicks(r, DryTick(r, b, dt), dt, n - 1)
  }

  /** A combat tick that the autocannon does not decide lasts as long as the burn still needs, or the tick. */
  lemma UndecidedTime(r: Rules, f: Fight, b: Burn, dt: real)
    requires f.fleeing && Gap(b) >= 0.0 && dt > 0.0 && !AutocannonWins(r, f, b, dt)
    ensures CombatTime(r, f, b, dt) == RMin(dt, Gap(b))
  {}

  /** This is what a combat tick does to a fleeing ship without fuel, unless the autocannon decides it. */
  lemma CombatTickIsDry(r: Rules, s: State, dt: real)
    requires s.course.fight.Some? && s.course.fight.value.fleeing && s.fuel == 0.0 && dt > 0.0
    requires Timed(r, s.burn) && !AutocannonWins(r, s.course.fight.value, s.burn, dt)
    ensures TickCombat(r, s, dt).burn == DryTick(r, s.burn, dt)
    ensures TickCombat(r, s, dt).fuel == 0.0
  {
    UndecidedTime(r, s.course.fight.value, s.burn, dt);
    hide Damage.AttackHit, ShotAt, CombatTime, AutocannonWins;
  }

  /** The fight's clock stalls: the penalty grows slower than time passes, and all the time the
      shrinking gap will ever need does not use up the penalty's cap. */
  predicate Stalls(r: Rules, b: Burn) {
    0.0 < r.outRate < 1.0 && Reach(r, b) <= r.outCap
  }

  /** The penalty that an uncapped gap would end at, were it ever closed. */
  function Reach(r: Rules, b: Burn): real
    requires r.outRate < 1.0
  {
    (b.out + Gap(b) / (1.0 - r.outRate)) * r.outRate
  }

  predicate Capped(r: Rules, b: Burn) { b.out * r.outRate >= r.outCap }

  // ---------------------------------------------------------------- one tick

  lemma Grows(rate: real, x: real, y: real)
    requires rate >= 0.0 && x <= y
    ensures x * rate <= y * rate
  {
    assert (y - x) * rate >= 0.0;
  }

  lemma PenaltyGrows(r: Rules, x: real, y: real)
    requires r.outRate >= 0.0 && x <= y
    ensures Penalty(r, x) <= Penalty(r, y)
  {
    Grows(r.outRate, x, y);
  }

  lemma DryTickTimed(r: Rules, b: Burn, dt: real)
    requires Timed(r, b) && r.outRate >= 0.0 && dt > 0.0
    ensures Timed(r, DryTick(r, b, dt)) && DryTick(r, b, dt).base == b.base
    ensures Gap(b) > 0.0 ==> DryTick(r, b, dt).out == b.out + RMin(dt, Gap(b))
    ensures Gap(b) == 0.0 ==> DryTick(r, b, dt) == b
  {
    if Gap(b) > 0.0 { PenaltyGrows(r, b.out, b.out + RMin(dt, Gap(b))); }
    hide Penalty;
  }

  /** What t seconds take off an uncapped gap. */
  function Pace(r: Rules, t: real): real { t * (1.0 - r.outRate) }

  /** Below the cap a tick trades gap for time without fuel, at a fixed rate. */
  lemma UncappedTick(r: Rules, b: Burn, dt: real)
    requires Timed(r, b) && r.outRate >= 0.0 && dt > 0.0 && Gap(b) > 0.0 && !Capped(r, DryTick(r, b, dt))
    ensures Gap(DryTick(r, b, dt)) == Gap(b) - Pace(r, RMin(dt, Gap(b)))
  {
    var t := RMin(dt, Gap(b));
    Grows(r.outRate, b.out, b.out + t);
    assert (b.out + t) * r.outRate == b.out * r.outRate + t * r.outRate;
    assert t * (1.0 - r.outRate) == t - t * r.outRate;
  }

  /** ... so the reach never moves while the cap is not reached. */
  lemma ReachIsFixed(r: Rules, b: Burn, dt: real)
    requires Timed(r, b) && 0.0 < r.outRate < 1.0 && dt > 0.0 && Gap(b) > 0.0 && !Capped(r, DryTick(r, b, dt))
    ensures Reach(r, DryTick(r, b, dt)) == Reach(r, b)
  {
    hide Timed, DryTick, Penalty, Pace, Capped;
    DryTickTimed(r, b, dt);
    UncappedTick(r, b, dt);
    PaceQuotient(r, Gap(b), RMin(dt, Gap(b)));
  }

  lemma PaceQuotient(r: Rules, g: real, t: real)
    requires r.outRate < 1.0
    ensures (g - Pace(r, t)) / (1.0 - r.outRate) == g / (1.0 - r.outRate) - t
  {
    Quotients(g, t, 1.0 - r.outRate);
  }

  lemma Quotients(g: real, t: real, k: real)
    requires k > 0.0
    ensures (g - t * k) / k == g / k - t
  {
    assert (g / k - t) * k == g - t * k;
  }

  // ---------------------------------------------------------------- never ending

  /** The gap is longer than a tick when measured in the reach's units, so a tick stays short of it. */
  lemma StallLeavesRoom(r: Rules, b: Burn, t: real)
    requires Stalls(r, b) && 0.0 < t <= Gap(b)
    ensures (b.out + t) * r.outRate < r.outCap
  {
    Longer(Gap(b), t, 1.0 - r.outRate);
    Strict(r.outRate, b.out + t, b.out + Gap(b) / (1.0 - r.outRate));
  }

  /** Reach at most the cap: the gap stays open, and the cap is not used up. */
  lemma StalledTick(r: Rules, b: Burn, dt: real)
    requires Timed(r, b) && Stalls(r, b) && dt > 0.0 && Gap(b) > 0.0
    ensures var after := DryTick(r, b, dt); Timed(r, after) && Stalls(r, after) && Gap(after) > 0.0
  {
    hide Timed, DryTick, Reach, Penalty;
    var t := RMin(dt, Gap(b));
    DryTickTimed(r, b, dt);
    StallLeavesRoom(r, b, t);
    UncappedTick(r, b, dt);
    ReachIsFixed(r, b, dt);
    Shorter(t, r.outRate);
  }

  lemma Longer(g: real, t: real, k: real)
    requires 0.0 < t <= g && 0.0 < k < 1.0
    ensures t < g / k
  {
    var q := g / k;
    assert q * k == g;
    if q <= t {
      Grows(k, q, t);
      Strict(t, k, 1.0);
    }
  }

  lemma Strict(rate: real, x: real, y: real)
    requires rate > 0.0 && x < y
    ensures x * rate < y * rate
  {}

  lemma Shorter(t: real, rate: real)
    requires t > 0.0 && rate > 0.0
    ensures t * (1.0 - rate) < t
  {}

  lemma {:induction false} StalledForever(r: Rules, b: Burn, dt: real, n: nat)
    requires Timed(r, b) && Stalls(r, b) && dt > 0.0 && Gap(b) > 0.0
    ensures Gap(DryTicks(r, b, dt, n)) > 0.0
    decreases n
  {
    if n > 0 {
      StalledTick(r, b, dt);
      StalledForever(r, DryTick(r, b, dt), dt, n - 1);
    }
  }

  // ---------------------------------------------------------------- ending

  function Length(n: nat, step: real): real { n as real * step }

  lemma LengthSplits(n: nat, step: real)
    requires n > 0
    ensures Length(n, step) == step + Length(n - 1, step)
  {
    assert (n - 1) as real == n as real - 1.0;
  }

  lemma EnoughSteps(x: real, step: real) returns (n: nat)
    requires step > 0.0
    ensures Length(n, step) >= x
  {
    var c := Ceil(x / step);
    n := Max(0, c);
    assert (x / step) * step == x;
    Grows(step, x / step, n as real);
  }

  lemma {:induction false} FinishedStays(r: Rules, b: Burn, dt: real, n: nat)
    requires Gap(b) == 0.0
    ensures DryTicks(r, b, dt, n) == b
    decreases n
  {
    if n > 0 { FinishedStays(r, b, dt, n - 1); }
  }

  /** Once the penalty cannot grow, the gap closes at the pace of the clock. */
  lemma {:induction false} FrozenEnds(r: Rules, b: Burn, dt: real, n: nat)
    requires Timed(r, b) && r.outRate >= 0.0 && r.outCap >= 0.0 && dt > 0.0
    requires Capped(r, b) || r.outRate == 0.0
    requires Length(n, dt) >= Gap(b)
    ensures Gap(DryTicks(r, b, dt, n)) == 0.0
    decreases n
  {
    if Gap(b) == 0.0 {
      FinishedStays(r, b, dt, n);
    } else if n == 0 {
      assert false;
    } else {
      var after := DryTick(r, b, dt);
      DryTickTimed(r, b, dt);
      Grows(r.outRate, b.out, after.out);
      LengthSplits(n, dt);
      FrozenEnds(r, after, dt, n - 1);
    }
  }

  /** While uncapped, every tick spends at least step seconds without fuel. */
  predicate Pushes(r: Rules, b: Burn, dt: real, step: real) {
    if r.outRate >= 1.0 then step <= Gap(b)
    else r.outRate > 0.0 && Reach(r, b) > r.outCap && r.outCap / r.outRate + step / (1.0 - r.outRate) <= b.out + Gap(b) / (1.0 - r.outRate)
  }

  lemma PushesStep(r: Rules, b: Burn, dt: real, step: real)
    requires Timed(r, b) && r.outRate > 0.0 && dt > 0.0 && 0.0 < step <= dt && !Capped(r, b) && Pushes(r, b, dt, step)
    ensures Gap(b) >= step
  {
    hide Timed, Reach;
    if r.outRate < 1.0 {
      var k := 1.0 - r.outRate;
      BelowCap(b.out, r.outRate, r.outCap);
      Undivided(step, Gap(b), k);
    }
  }

  lemma BelowCap(out: real, rate: real, cap: real)
    requires rate > 0.0 && out * rate < cap
    ensures out < cap / rate
  {
    var c := cap / rate;
    assert c * rate == cap;
    if out >= c { Grows(rate, c, out); }
  }

  lemma Undivided(x: real, y: real, k: real)
    requires k > 0.0 && x / k <= y / k
    ensures x <= y
  {
    var a, b := x / k, y / k;
    assert a * k == x && b * k == y;
    Grows(k, a, b);
  }

  lemma PushesKeeps(r: Rules, b: Burn, dt: real, step: real)
    requires Timed(r, b) && r.outRate > 0.0 && dt > 0.0 && 0.0 < step <= dt && !Capped(r, b) && Pushes(r, b, dt, step)
    requires !Capped(r, DryTick(r, b, dt))
    ensures Pushes(r, DryTick(r, b, dt), dt, step)
  {
    PushesStep(r, b, dt, step);
    if r.outRate < 1.0 { SlowPushKeeps(r, b, dt, step); } else { FastPushKeeps(r, b, dt, step); }
  }

  lemma SlowPushKeeps(r: Rules, b: Burn, dt: real, step: real)
    requires Timed(r, b) && 0.0 < r.outRate < 1.0 && dt > 0.0 && Pushes(r, b, dt, step) && Gap(b) > 0.0
    requires !Capped(r, DryTick(r, b, dt))
    ensures Pushes(r, DryTick(r, b, dt), dt, step)
  {
    hide Timed, DryTick, Penalty, Reach, Capped;
    DryTickTimed(r, b, dt);
    UncappedTick(r, b, dt);
    ReachIsFixed(r, b, dt);
    Quotients(Gap(b), RMin(dt, Gap(b)), 1.0 - r.outRate);
  }

  lemma FastPushKeeps(r: Rules, b: Burn, dt: real, step: real)
    requires Timed(r, b) && r.outRate >= 1.0 && dt > 0.0 && Pushes(r, b, dt, step) && Gap(b) > 0.0
    requires !Capped(r, DryTick(r, b, dt))
    ensures Pushes(r, DryTick(r, b, dt), dt, step)
  {
    hide Timed, DryTick, Penalty, Capped;
    UncappedTick(r, b, dt);
    Lengthens(RMin(dt, Gap(b)), 1.0 - r.outRate);
  }

  lemma Lengthens(t: real, k: real)
    requires t > 0.0 && k <= 0.0
    ensures t * k <= 0.0
  {}

  /** So the cap is reached after finitely many ticks. */
  lemma {:induction false} CapIsReached(r: Rules, b: Burn, dt: real, step: real, n: nat) returns (m: nat)
    requires Timed(r, b) && r.outRate > 0.0 && dt > 0.0 && 0.0 < step <= dt && Pushes(r, b, dt, step)
    requires Covers(r, b.out + Length(n, step))
    ensures Capped(r, DryTicks(r, b, dt, m)) && Timed(r, DryTicks(r, b, dt, m))
    decreases n
  {
    hide Timed, Pushes, DryTick, Length, Covers;
    m := 0;
    if !Capped(r, b) {
      NotYet(r, b, n, step);
      var after := DryTick(r, b, dt);
      if Capped(r, after) {
        DryTickTimed(r, b, dt);
        assert DryTicks(r, b, dt, 1) == DryTicks(r, after, dt, 0) == after;
        m := 1;
      } else {
        OnePush(r, b, dt, step, n);
        m := CapIsReached(r, after, dt, step, n - 1);
        m := m + 1;
      }
    }
  }

  predicate Covers(r: Rules, out: real) { out * r.outRate >= r.outCap }

  lemma NotYet(r: Rules, b: Burn, n: nat, step: real)
    requires !Capped(r, b) && Covers(r, b.out + Length(n, step))
    ensures n > 0
  {}

  lemma OnePush(r: Rules, b: Burn, dt: real, step: real, n: nat)
    requires Timed(r, b) && r.outRate > 0.0 && dt > 0.0 && 0.0 < step <= dt && Pushes(r, b, dt, step) && n > 0
    requires !Capped(r, b) && !Capped(r, DryTick(r, b, dt)) && Covers(r, b.out + Length(n, step))
    ensures var after := DryTick(r, b, dt);
            Timed(r, after) && Pushes(r, after, dt, step) && Covers(r, after.out + Length(n - 1, step))
  {
    hide Timed, Pushes, Length, Penalty, DryTick;
    PushesStep(r, b, dt, step);
    PushesKeeps(r, b, dt, step);
    DryTickTimed(r, b, dt);
    LengthSplits(n, step);
    Grows(r.outRate, b.out + Length(n, step), DryTick(r, b, dt).out + Length(n - 1, step));
  }

  lemma {:induction false} TicksCompose(r: Rules, b: Burn, dt: real, m: nat, n: nat)
    ensures DryTicks(r, b, dt, m + n) == DryTicks(r, DryTicks(r, b, dt, m), dt, n)
    decreases m
  {
    if m > 0 { TicksCompose(r, DryTick(r, b, dt), dt, m - 1, n); }
  }

  /** A step that every uncapped tick is sure to make. */
  lemma PushExists(r: Rules, b: Burn, dt: real) returns (step: real)
    requires Timed(r, b) && r.outRate > 0.0 && dt > 0.0 && Gap(b) > 0.0 && !Stalls(r, b)
    ensures 0.0 < step <= dt && Pushes(r, b, dt, step)
  {
    if r.outRate >= 1.0 {
      step := RMin(dt, Gap(b));
    } else {
      var k := 1.0 - r.outRate;
      var q, c := b.out + Gap(b) / k, r.outCap / r.outRate;
      assert c * r.outRate == r.outCap;
      if q <= c { Grows(r.outRate, q, c); }
      var slack := (q - c) * k;
      assert slack > 0.0;
      step := RMin(dt, slack);
      Fits(step, q - c, k);
    }
  }

  lemma Fits(step: real, room: real, k: real)
    requires k > 0.0 && step <= room * k
    ensures step / k <= room
  {
    assert (step / k) * k == step;
    if step / k > room { Strict(k, room, step / k); }
  }

  lemma EnoughCovers(r: Rules, out: real)
    requires r.outRate > 0.0 && out >= r.outCap / r.outRate
    ensures Covers(r, out)
  {
    var c := r.outCap / r.outRate;
    assert c * r.outRate == r.outCap;
    Grows(r.outRate, c, out);
  }

  lemma FlightEnds(r: Rules, b: Burn, dt: real) returns (n: nat)
    requires Timed(r, b) && r.outRate >= 0.0 && r.outCap >= 0.0 && dt > 0.0 && Gap(b) > 0.0 && !Stalls(r, b)
    ensures Gap(DryTicks(r, b, dt, n)) == 0.0
  {
    hide Stalls, Pushes, Covers, Length, DryTick;
    var m := 0;
    if r.outRate > 0.0 {
      var step := PushExists(r, b, dt);
      var need := EnoughSteps(r.outCap / r.outRate, step);
      EnoughCovers(r, b.out + Length(need, step));
      m := CapIsReached(r, b, dt, step, need);
    }
    var mid := DryTicks(r, b, dt, m);
    var more := EnoughSteps(Gap(mid), dt);
    FrozenEnds(r, mid, dt, more);
    TicksCompose(r, b, dt, m, more);
    n := m + more;
  }

  /** The whole answer. In exact arithmetic a dry flight from combat is never over, however many
      ticks are played, if and only if the penalty rate lies strictly between 0 and 1 and
      rate * (time already without fuel + gap / (1 - rate)) does not exceed the penalty's cap. */
  lemma NeverEndsExactlyWhen(r: Rules, b: Burn, dt: real)
    requires Timed(r, b) && r.outRate >= 0.0 && r.outCap >= 0.0 && dt > 0.0 && Gap(b) > 0.0
    ensures (forall n: nat :: Gap(DryTicks(r, b, dt, n)) > 0.0) <==>
            0.0 < r.outRate < 1.0 && (b.out + Gap(b) / (1.0 - r.outRate)) * r.outRate <= r.outCap
  {
    if Stalls(r, b) {
      forall n: nat ensures Gap(DryTicks(r, b, dt, n)) > 0.0 { StalledForever(r, b, dt, n); }
    } else {
      var n := FlightEnds(r, b, dt);
      assert !(Gap(DryTicks(r, b, dt, n)) > 0.0);
    }
  }

  /** One stalled tick uses up its own length of what the gap stands for. */
  lemma GapInReach(r: Rules, b: Burn, dt: real)
    requires Timed(r, b) && Stalls(r, b) && dt > 0.0 && Gap(b) > 0.0
    ensures Gap(DryTick(r, b, dt)) / (1.0 - r.outRate) == Gap(b) / (1.0 - r.outRate) - RMin(dt, Gap(b))
  {
    hide Timed, DryTick, Reach, Penalty;
    var t := RMin(dt, Gap(b));
    DryTickTimed(r, b, dt);
    StallLeavesRoom(r, b, t);
    UncappedTick(r, b, dt);
    Quotients(Gap(b), t, 1.0 - r.outRate);
  }

  // ---------------------------------------------------------------- how fast a stalled gap closes

  /** Whole ticks: the gap closes by (1 - rate) of a tick, until it is no longer than one. */
  lemma {:induction false} WholeTicks(r: Rules, b: Burn, dt: real, m: nat)
    requires Timed(r, b) && Stalls(r, b) && dt > 0.0 && Gap(b) > 0.0
    requires Length(m, Pace(r, dt)) >= Gap(b) - dt
    ensures var last := DryTicks(r, b, dt, m); Timed(r, last) && Stalls(r, last) && 0.0 < Gap(last) <= dt
    decreases m
  {
    hide Timed, DryTick, Stalls, Length, Pace;
    var step := Pace(r, dt);
    LengthZero(step);
    if m > 0 {
      StalledTick(r, b, dt);
      GapFalls(r, b, dt);
      LengthSplits(m, step);
      LengthNonNegative(m - 1, step);
      WholeTicks(r, DryTick(r, b, dt), dt, m - 1);
    }
  }

  lemma LengthZero(step: real)
    ensures Length(0, step) == 0.0
  {}

  lemma LengthNonNegative(n: nat, step: real)
    requires step >= 0.0
    ensures Length(n, step) >= 0.0
  {}

  lemma GapFalls(r: Rules, b: Burn, dt: real)
    requires Timed(r, b) && Stalls(r, b) && dt > 0.0 && Gap(b) > 0.0
    ensures 0.0 < r.outRate < 1.0 && Pace(r, dt) > 0.0
    ensures Gap(b) > dt ==> Gap(DryTick(r, b, dt)) == Gap(b) - Pace(r, dt)
    ensures Gap(b) <= dt ==> Gap(DryTick(r, b, dt)) == Gap(b) * r.outRate <= dt
  {
    hide Timed, DryTick, Reach, Penalty, Pace;
    StallLeavesRoom(r, b, RMin(dt, Gap(b)));
    DryTickTimed(r, b, dt);
    UncappedTick(r, b, dt);
    Paces(r, dt);
    Paces(r, Gap(b));
  }

  lemma Paces(r: Rules, x: real)
    requires x > 0.0 && 0.0 < r.outRate < 1.0
    ensures Pace(r, x) > 0.0 && x - Pace(r, x) == x * r.outRate < x
  {}

  /** Cut ticks: from then on every tick leaves the fraction rate of the gap. */
  lemma {:induction false} CutTicks(r: Rules, b: Burn, dt: real, k: nat)
    requires Timed(r, b) && Stalls(r, b) && dt > 0.0 && 0.0 < Gap(b) <= dt
    ensures Gap(DryTicks(r, b, dt, k)) == Shrunk(Gap(b), r.outRate, k)
    decreases k
  {
    hide Timed, DryTick, Stalls;
    if k > 0 {
      StalledTick(r, b, dt);
      GapFalls(r, b, dt);
      CutTicks(r, DryTick(r, b, dt), dt, k - 1);
      ShrunkAgain(Gap(b), r.outRate, k);
    }
  }

  function Shrunk(gap: real, rate: real, k: nat): real { gap * Power(rate, k) }

  lemma ShrunkAgain(gap: real, rate: real, k: nat)
    requires k > 0
    ensures Shrunk(gap * rate, rate, k - 1) == Shrunk(gap, rate, k)
  {
    assert Power(rate, k) == rate * Power(rate, k - 1);
  }

  /** A power of a rate below one falls at least as fast as rate / (rate + k * (1 - rate)). */
  lemma {:induction false} PowerFalls(rate: real, k: nat)
    requires 0.0 < rate < 1.0
    ensures 0.0 < Power(rate, k) && Power(rate, k) * (rate + Length(k, 1.0 - rate)) <= rate
    decreases k
  {
    hide Length, Power;
    LengthZero(1.0 - rate);
    PowerUnfolds(rate, k);
    if k > 0 {
      PowerFalls(rate, k - 1);
      LengthSplits(k, 1.0 - rate);
      LengthNonNegative(k - 1, 1.0 - rate);
      FallsOnce(rate, Power(rate, k - 1), Length(k - 1, 1.0 - rate), Power(rate, k), rate + Length(k, 1.0 - rate));
    }
  }

  lemma PowerUnfolds(rate: real, k: nat)
    ensures Power(rate, 0) == 1.0 && (k > 0 ==> Power(rate, k) == rate * Power(rate, k - 1))
  {}

  lemma FallsOnce(rate: real, p: real, l: real, next: real, d: real)
    requires 0.0 < rate < 1.0 && p > 0.0 && l >= 0.0 && p * (rate + l) <= rate
    requires next == rate * p && d == 1.0 + l
    ensures 0.0 < next && next * d <= rate
  {
    assert rate * d == (rate + l) - (1.0 - rate) * l;
    assert (1.0 - rate) * l >= 0.0;
    Grows(p, rate * d, rate + l);
    assert next * d == rate * d * p;
  }

  /** So a stalled gap is below any eps after a number of ticks that can be computed beforehand:
      m whole ones, and k more that shrink it geometrically. */
  lemma StalledGapIsSmall(r: Rules, b: Burn, dt: real, eps: real, m: nat, k: nat)
    requires Timed(r, b) && Stalls(r, b) && dt > 0.0 && Gap(b) > 0.0 && eps > 0.0
    requires Length(m, Pace(r, dt)) >= Gap(b) - dt
    requires eps * (r.outRate + Length(k, 1.0 - r.outRate)) > dt * r.outRate
    ensures 0.0 < Gap(DryTicks(r, b, dt, m + k)) <= Shrunk(dt, r.outRate, k) < eps
  {
    hide Timed, DryTick, DryTicks, Length, Reach, Pace;
    WholeTicks(r, b, dt, m);
    var last := DryTicks(r, b, dt, m);
    CutTicks(r, last, dt, k);
    TicksCompose(r, b, dt, m, k);
    PowerFalls(r.outRate, k);
    var p := Power(r.outRate, k);
    Grows(p, Gap(last), dt);
    assert Gap(last) * p > 0.0;
    var d := r.outRate + Length(k, 1.0 - r.outRate);
    assert d > 0.0 by { LengthNonNegative(k, 1.0 - r.outRate); }
    Small(dt, p, d, r.outRate, eps);
  }

  lemma Small(dt: real, p: real, d: real, rate: real, eps: real)
    requires dt > 0.0 && d > 0.0 && p * d <= rate && eps * d > dt * rate
    ensures dt * p < eps
  {
    Grows(dt, p * d, rate);
    assert dt * p * d == p * d * dt;
    if dt * p >= eps { Grows(d, eps, dt * p); }
  }

  /** With the rates the game ships, a tank that runs dry with up to four seconds to go stalls. */
  lemma ShippedRatesStall(r: Rules, b: Burn)
    requires r.outRate == 0.6 && r.outCap == 6.0 && b.out == 0.0
    ensures Stalls(r, b) <==> Gap(b) <= 4.0
  {
    assert Gap(b) / 0.4 * 0.4 == Gap(b);
  }
}
