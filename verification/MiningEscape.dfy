/** How long an escape can take, and what the emergency autopilot does for a pilot who has left. */
module MiningEscape {
  import opened Wrappers
  import opened Numbers
  import opened MiningRun
  import opened MiningSafety
  import Damage

  /** The live game's ticks with nobody at the controls; the draws are fixed by the tick count. */
  ghost function Live(r: Rules, s: State, luck: nat -> Luck, dt: real, n: nat): Result
    requires r.volume > 0
    decreases n
  {
    if n == 0 || (s.course.phase.Combat? && s.course.fight.None?) then Going(s)
    else match Tick(r, s, luck(s.ticks), dt)
      case Going(next) => Live(r, next, luck, dt, n - 1)
      case Ended(last, outcome) => Ended(last, outcome)
  }

  ghost predicate Fair(luck: nat -> Luck) { forall i: nat {:trigger luck(i)} :: LuckOk(luck(i)) }

  predicate Shifts(r: Rules, s: State, l: Luck) {
    NewEvent(r, s.course.phase, s.hazards, s.armor.hull, l) == Some(CargoShift)
  }

  /** How many cargo shifts strike during those ticks. */
  ghost function ShiftCount(r: Rules, s: State, luck: nat -> Luck, dt: real, n: nat): (k: nat)
    requires r.volume > 0
    decreases n
  {
    if n == 0 || (s.course.phase.Combat? && s.course.fight.None?) then 0
    else
      var next := Tick(r, s, luck(s.ticks), dt);
      (if Shifts(r, s, luck(s.ticks)) then 1 else 0) + (if next.Going? then ShiftCount(r, next.state, luck, dt, n - 1) else 0)
  }

  /** One tick of a burn that does not finish: the timer advances, a shift lengthens the base, and
      nothing else does. */
  lemma BurnAdvances(r: Rules, launchers: nat, s: State, l: Luck, dt: real)
    requires RulesOk(r) && LuckOk(l) && Inv(r, launchers, s) && s.course.phase.Escaping? && dt > 0.0
    requires Tick(r, s, l, dt).Going?
    ensures var next := Tick(r, s, l, dt).state;
            && Inv(r, launchers, next) && next.course.phase.Escaping?
            && next.burn.elapsed == s.burn.elapsed + dt
            && next.burn.base == (if Shifts(r, s, l) then Lengthened(r, s.burn.base) else s.burn.base)
            && next.burn.elapsed < next.burn.base + r.outCap
  {
    TickOk(r, launchers, s, l, dt);
    var next := Tick(r, s, l, dt).state;
    BurnTicks(r, s, l, dt);
    PenaltyIsNonNegative(r, next.burn.out);
    hide Tick, Means, SkillOk, OreOk, WorthOk, ContactOk, NewEvent;
  }

  lemma BurnTicks(r: Rules, s: State, l: Luck, dt: real)
    requires r.volume > 0 && s.course.phase.Escaping? && dt > 0.0
    requires Tick(r, s, l, dt).Going?
    ensures var next := Tick(r, s, l, dt).state;
            && next.course == s.course
            && next.burn.elapsed == s.burn.elapsed + dt && next.burn.elapsed < next.burn.required
            && next.burn.base == (if Shifts(r, s, l) then Lengthened(r, s.burn.base) else s.burn.base)
  {
    hide TickHazards, TickSurge, NewEvent, Damage.AttackHit, Burnt;
  }

  function Time(n: nat, dt: real): real { n as real * dt }

  /** The longest a burn can need after k cargo shifts, with the whole empty-tank penalty. */
  function BurnBound(r: Rules, base: real, k: nat): real { base * Power(r.shiftFactor, k) + r.outCap }

  lemma TimeSplits(n: nat, dt: real)
    requires n > 0
    ensures Time(n, dt) == dt + Time(n - 1, dt) && Time(0, dt) == 0.0
  {
    assert (n - 1) as real == n as real - 1.0;
  }

  lemma BoundShifts(r: Rules, base: real, k: nat)
    ensures BurnBound(r, Lengthened(r, base), k) == BurnBound(r, base, k + 1)
    ensures BurnBound(r, base, 0) == base + r.outCap
  {
    assert Power(r.shiftFactor, k + 1) == r.shiftFactor * Power(r.shiftFactor, k);
  }

  lemma {:induction false} BoundGrows(r: Rules, base: real, j: nat, k: nat)
    requires r.shiftFactor >= 1.0 && base >= 0.0 && j <= k
    ensures BurnBound(r, base, j) <= BurnBound(r, base, k)
    decreases k
  {
    if j < k {
      BoundGrows(r, base, j, k - 1);
      PowerGrows(r.shiftFactor, k - 1);
      var p := Power(r.shiftFactor, k - 1);
      assert r.shiftFactor * p >= 1.0 * p;
      assert base * (r.shiftFactor * p) >= base * p;
    }
  }

  /** After n unfinished ticks the timer is still short of the bound for the shifts so far. */
  lemma {:induction false} UnfinishedBurn(r: Rules, launchers: nat, s: State, luck: nat -> Luck, dt: real, n: nat)
    requires RulesOk(r) && Fair(luck) && Inv(r, launchers, s) && s.course.phase.Escaping? && dt > 0.0 && n > 0
    requires Live(r, s, luck, dt, n).Going?
    ensures s.burn.elapsed + Time(n, dt) < BurnBound(r, s.burn.base, ShiftCount(r, s, luck, dt, n))
    decreases n
  {
    hide Tick, Inv, Shifts, BurnBound, Time, Lengthened;
    var l := luck(s.ticks);
    BurnAdvances(r, launchers, s, l, dt);
    var next := Tick(r, s, l, dt).state;
    TimeSplits(n, dt);
    var rest := ShiftCount(r, next, luck, dt, n - 1);
    assert ShiftCount(r, s, luck, dt, n) == (if Shifts(r, s, l) then 1 else 0) + rest;
    BoundShifts(r, s.burn.base, rest);
    assert BurnBound(r, next.burn.base, rest) == BurnBound(r, s.burn.base, ShiftCount(r, s, luck, dt, n));
    if n == 1 {
      BoundShifts(r, next.burn.base, 0);
    } else {
      UnfinishedBurn(r, launchers, next, luck, dt, n - 1);
    }
  }

  /** An escape ends. With base time b, shift factor f, penalty cap p and at most k cargo shifts,
      the run has been resolved after any n ticks with n * dt >= b * f^k + p. */
  lemma EscapeEnds(r: Rules, launchers: nat, s: State, luck: nat -> Luck, dt: real, n: nat, k: nat)
    requires RulesOk(r) && Fair(luck) && Inv(r, launchers, s) && s.course.phase.Escaping? && dt > 0.0 && n > 0
    requires ShiftCount(r, s, luck, dt, n) <= k && Time(n, dt) >= BurnBound(r, s.burn.base, k)
    ensures Live(r, s, luck, dt, n).Ended?
  {
    hide Live, ShiftCount, BurnBound, Time;
    if Live(r, s, luck, dt, n).Going? {
      BoundGrows(r, s.burn.base, ShiftCount(r, s, luck, dt, n), k);
      UnfinishedBurn(r, launchers, s, luck, dt, n);
    }
  }

  // ---------------------------------------------------------------- shifts are spaced

  /** How long it is at least until another event can be drawn. */
  function Quiet(r: Rules, h: Hazards): real {
    if h.active.Some? then RMax(0.0, h.active.value.remaining) + RMax(0.0, r.cooldown) else RMax(0.0, h.cooldown)
  }

  /** From one cargo shift to the next. */
  function ShiftSpacing(r: Rules): real { RMax(0.0, r.shiftSeconds) + RMax(0.0, r.cooldown) }

  /** The quiet time runs down no faster than the clock, and an event is drawn only when it is over. */
  lemma QuietRunsDown(r: Rules, phase: Phase, h: Hazards, hull: int, l: Luck, dt: real)
    requires dt >= 0.0
    ensures Quiet(r, TickHazards(r, phase, h, hull, l, dt)) >= Quiet(r, h) - dt
    ensures NewEvent(r, phase, h, hull, l).Some? ==> Quiet(r, h) == 0.0
    ensures NewEvent(r, phase, h, hull, l) == Some(CargoShift) ==> Quiet(r, TickHazards(r, phase, h, hull, l, dt)) == ShiftSpacing(r)
  {}

  lemma HazardsTick(r: Rules, s: State, l: Luck, dt: real)
    requires r.volume > 0 && s.course.phase.Escaping? && dt > 0.0 && Tick(r, s, l, dt).Going?
    ensures Tick(r, s, l, dt).state.hazards == TickHazards(r, s.course.phase, s.hazards, s.armor.hull, l, dt)
  {
    hide TickHazards, TickSurge, TickShift, BurnTick, Damage.AttackHit;
  }

  function Times(k: nat, x: real): real { k as real * x }

  lemma TimesSplits(k: nat, x: real)
    ensures Times(k + 1, x) == Times(k, x) + x && Times(0, x) == 0.0
  {}

  /** Any k cargo shifts of one escape take up at least k - 1 spacings. */
  lemma {:induction false} ShiftsAreSpaced(r: Rules, launchers: nat, s: State, luck: nat -> Luck, dt: real, n: nat)
    requires RulesOk(r) && Fair(luck) && Inv(r, launchers, s) && s.course.phase.Escaping? && dt > 0.0
    ensures var k := ShiftCount(r, s, luck, dt, n);
            k > 0 ==> Times(k, ShiftSpacing(r)) + Quiet(r, s.hazards) <= Time(n, dt) + ShiftSpacing(r)
    decreases n
  {
    hide Tick, Inv, Time, Times, Quiet, ShiftSpacing, NewEvent, TickHazards, BurnBound;
    if n > 0 {
      var l := luck(s.ticks);
      var next := Tick(r, s, l, dt);
      QuietRunsDown(r, s.course.phase, s.hazards, s.armor.hull, l, dt);
      TimeSplits(n, dt);
      TimePositive(n - 1, dt);
      TimesSplits(0, ShiftSpacing(r));
      if next.Going? {
        BurnAdvances(r, launchers, s, l, dt);
        HazardsTick(r, s, l, dt);
        ShiftsAreSpaced(r, launchers, next.state, luck, dt, n - 1);
        TimesSplits(ShiftCount(r, next.state, luck, dt, n - 1), ShiftSpacing(r));
        QuietIsTime(r, next.state.hazards);
      }
      QuietIsTime(r, s.hazards);
    }
  }

  lemma TimePositive(n: nat, dt: real)
    requires dt > 0.0
    ensures Time(n, dt) >= 0.0
  {}

  lemma QuietIsTime(r: Rules, h: Hazards)
    ensures Quiet(r, h) >= 0.0 && ShiftSpacing(r) >= 0.0
  {}

  /** So an escape ends whatever the dice say: when its bound with k shifts is reached before there
      is time for k spacings, the run has been resolved. */
  lemma EscapeEndsAnyway(r: Rules, launchers: nat, s: State, luck: nat -> Luck, dt: real, n: nat, k: nat)
    requires RulesOk(r) && Fair(luck) && Inv(r, launchers, s) && s.course.phase.Escaping? && dt > 0.0 && n > 0
    requires BurnBound(r, s.burn.base, k) <= Time(n, dt) < k as real * ShiftSpacing(r)
    ensures Live(r, s, luck, dt, n).Ended?
  {
    hide Live, Inv, BurnBound, Time, Quiet, ShiftSpacing;
    ShiftsAreSpaced(r, launchers, s, luck, dt, n);
    QuietIsTime(r, s.hazards);
    var j := ShiftCount(r, s, luck, dt, n);
    if j > k { MoreSpacings(j, k, ShiftSpacing(r)); }
    EscapeEnds(r, launchers, s, luck, dt, n, k);
  }

  /** With the shipped rates and an escape that starts at its full-load time or less, 112 quarter-second
      ticks are enough, whatever is drawn. */
  lemma ShippedEscapesEnd(r: Rules, launchers: nat, s: State, luck: nat -> Luck)
    requires RulesOk(r) && Fair(luck) && Inv(r, launchers, s) && s.course.phase.Escaping?
    requires r.shiftFactor == 1.25 && r.shiftSeconds == 4.0 && r.cooldown == 12.0 && r.outCap == 6.0 && s.burn.base <= 14.0
    ensures Live(r, s, luck, 0.25, 112).Ended?
  {
    hide Live, Inv, Fair, RulesOk;
    assert Power(1.25, 2) == 1.25 * Power(1.25, 1) == 1.5625;
    EscapeEndsAnyway(r, launchers, s, luck, 0.25, 112, 2);
  }

  lemma MoreSpacings(j: nat, k: nat, x: real)
    requires j > k && x >= 0.0
    ensures Times(j, x) >= k as real * x + x
  {
    assert (j - k - 1) as real * x >= 0.0;
    assert j as real * x == k as real * x + x + (j - k - 1) as real * x;
  }

  /** Once a run has ended, more ticks change nothing. */
  lemma {:induction false} LiveStays(r: Rules, s: State, luck: nat -> Luck, dt: real, m: nat, n: nat)
    requires r.volume > 0 && m <= n && Live(r, s, luck, dt, m).Ended?
    ensures Live(r, s, luck, dt, n) == Live(r, s, luck, dt, m)
    decreases m
  {
    hide Tick;
    var next := Tick(r, s, luck(s.ticks), dt);
    if next.Going? { LiveStays(r, next.state, luck, dt, m - 1, n - 1); }
  }

  // ---------------------------------------------------------------- the emergency autopilot

  const EMERGENCY_TICKS: nat := 10000

  /** The choice made for an absent pilot: bail out, refuse, or flee; a burn under way is left alone. */
  function Abandoned(r: Rules, s: State, l: Luck): State {
    match s.course.phase
    case Mining => StartEscape(r, s, l.load)
    case Tribute => Refused(r, s, l)
    case Combat =>
      if s.course.fight.None? || s.course.fight.value.fleeing then s
      else s.(course := s.course.(intent := Intended(r, s), fight := Some(s.course.fight.value.(fleeing := true))),
              burn := Configured(r, s.burn, l.load))
    case Escaping => s
  }

  lemma AbandonedOk(r: Rules, launchers: nat, s: State, l: Luck)
    requires RulesOk(r) && LuckOk(l) && Inv(r, launchers, s) && s.armor.hull > 0
    ensures Inv(r, launchers, Abandoned(r, s, l)) && Abandoned(r, s, l).armor.hull > 0 && Burning(Abandoned(r, s, l).course)
  {
    match s.course.phase {
      case Mining => EscapeStarts(r, launchers, s, l.load);
      case Tribute => CombatStarts(r, launchers, s, true, l);
      case Combat => ConfiguredOk(r, s.burn, l.load);
      case Escaping =>
    }
  }

  /** The autopilot is the live game, cut short at its budget: whenever the live ticks would end
      the run within the budget it reports that very end, and otherwise it leaves the run standing. */
  lemma EmergencyMatchesLive(r: Rules, s: State, luck: nat -> Luck, dt: real, n: nat)
    requires r.volume > 0
    ensures var start := Abandoned(r, s, luck(s.ticks));
            && (n <= EMERGENCY_TICKS && Live(r, start, luck, dt, n).Ended?
                ==> Live(r, start, luck, dt, EMERGENCY_TICKS) == Live(r, start, luck, dt, n))
            && (n >= EMERGENCY_TICKS && Live(r, start, luck, dt, EMERGENCY_TICKS).Ended?
                ==> Live(r, start, luck, dt, n) == Live(r, start, luck, dt, EMERGENCY_TICKS))
  {
    var start := Abandoned(r, s, luck(s.ticks));
    if n <= EMERGENCY_TICKS && Live(r, start, luck, dt, n).Ended? {
      LiveStays(r, start, luck, dt, n, EMERGENCY_TICKS);
    }
    if n >= EMERGENCY_TICKS && Live(r, start, luck, dt, EMERGENCY_TICKS).Ended? {
      LiveStays(r, start, luck, dt, EMERGENCY_TICKS, n);
    }
  }
}
