/** Getting away from a fight: how long it takes with fuel aboard, what the emergency autopilot makes of
    it from every phase, and when, by the formulas, fuel running out leaves a flight without an end. */
module CombatEscape {
  import opened Wrappers
  import opened Numbers
  import opened MiningRun
  import opened MiningSafety
  import opened MiningEscape
  import opened DryFlight
  import opened DryFight
  import Damage

  // ---------------------------------------------------------------- fuel for the burn

  /** The most a burn can drink in t seconds: a reactor surge may last through all of them. */
  function Thirst(r: Rules, t: real): real { RMax(0.0, r.escapeDrain) * RMax(1.0, r.surgeMul) * t }

  lemma DrainFits(r: Rules, surge: bool, t: real)
    requires t >= 0.0 && r.surgeMul >= 0.0
    ensures Drain(r.escapeDrain, r, surge, t) <= Thirst(r, t)
  {
    var d, m := RMax(0.0, r.escapeDrain), RMax(1.0, r.surgeMul);
    var rate := if surge then r.escapeDrain * r.surgeMul else r.escapeDrain;
    Grows(d, 1.0, m);
    Grows(d, r.surgeMul, m);
    Grows(r.surgeMul, r.escapeDrain, d);
    assert rate <= d * m;
    Grows(t, rate, d * m);
  }

  lemma ThirstNonNegative(r: Rules, t: real)
    requires t >= 0.0
    ensures Thirst(r, t) >= 0.0
  {
    var d, m := RMax(0.0, r.escapeDrain), RMax(1.0, r.surgeMul);
    assert d * m >= 0.0;
  }

  lemma ThirstSplits(r: Rules, x: real, y: real)
    ensures Thirst(r, x - y) == Thirst(r, x) - Thirst(r, y)
  {}

  // ---------------------------------------------------------------- one tick of a flight

  /** The finish does not move: nothing is added to the penalty any more, or the fuel lasts. */
  predicate Steady(r: Rules, b: Burn, fuel: real) { Capped(r, b) || r.outRate == 0.0 || fuel > Thirst(r, Gap(b)) }

  lemma BurnIsSteady(r: Rules, b: Burn, fuel: real, surge: bool, t: real)
    requires RulesOk(r) && Timed(r, b) && 0.0 < t <= Gap(b) && fuel >= 0.0 && Steady(r, b, fuel)
    ensures var (after, left) := BurnTick(r, b, fuel, surge, t); Gap(after) == Gap(b) - t && Steady(r, after, left)
  {
    DrainFits(r, surge, t);
    ThirstSplits(r, Gap(b), t);
    ThirstNonNegative(r, t);
    ThirstNonNegative(r, Gap(b) - t);
    Grows(r.outRate, b.out, b.out + t);
    hide Thirst, Drain;
  }

  /** A tick that leaves fuel in the tank adds nothing to the penalty. */
  lemma WetBurn(r: Rules, b: Burn, fuel: real, surge: bool, t: real)
    requires Timed(r, b) && 0.0 < t && BurnTick(r, b, fuel, surge, t).1 > 0.0
    ensures Gap(BurnTick(r, b, fuel, surge, t).0) == Gap(b) - t
  {}

  lemma FlightCombat(r: Rules, s: State, dt: real)
    requires Fleeing(s) && dt > 0.0 && !Wins(r, s, dt)
    ensures var after, t := TickCombat(r, s, dt), RMin(dt, Gap(s.burn));
            var (b, left) := BurnTick(r, s.burn, s.fuel, Is(s.hazards, ReactorSurge), t);
            && after.burn == b && after.fuel == left
            && after.course == s.course.(fight := Some(Pirate(s).(hull := ShotAt(r, Pirate(s), t))))
  {
    UndecidedTime(r, Pirate(s), s.burn, dt);
    hide Damage.AttackHit, BurnTick, CombatTime, AutocannonWins, ShotAt;
  }

  /** A flight that goes on after a tick has gone on burning, for as long as the tick or the rest of it. */
  lemma FlightTick(r: Rules, launchers: nat, s: State, l: Luck, dt: real) returns (surge: bool)
    requires RulesOk(r) && LuckOk(l) && Inv(r, launchers, s) && Fleeing(s) && dt > 0.0 && Tick(r, s, l, dt).Going?
    ensures var next, t := Tick(r, s, l, dt).state, RMin(dt, Gap(s.burn));
            && Inv(r, launchers, next) && Fleeing(next) && Dps(next) == Dps(s)
            && (next.burn, next.fuel) == BurnTick(r, s.burn, s.fuel, surge, t)
  {
    hide Inv, Means, TickEvents, TickCombat, BurnTick, AutocannonWins, ShotAt;
    if Wins(r, s, dt) { WonTickEnds(r, s, l, dt); }
    TickOk(r, launchers, s, l, dt);
    var s1 := TickEvents(r, s.(ticks := s.ticks + 1), l, dt);
    EventsLeaveFights(r, s.(ticks := s.ticks + 1), l, dt);
    FlightCombat(r, s1, dt);
    surge := Is(s1.hazards, ReactorSurge);
  }

  lemma TimedFlight(r: Rules, launchers: nat, s: State)
    requires RulesOk(r) && Inv(r, launchers, s) && Fleeing(s)
    ensures Timed(r, s.burn) && s.fuel >= 0.0
  {}

  /** In a steady flight every tick that does not end it brings the finish nearer by its whole length. */
  lemma SteadyTick(r: Rules, launchers: nat, s: State, l: Luck, dt: real)
    requires RulesOk(r) && LuckOk(l) && Inv(r, launchers, s) && Fleeing(s) && dt > 0.0
    requires Steady(r, s.burn, s.fuel) && Tick(r, s, l, dt).Going?
    ensures var next := Tick(r, s, l, dt).state;
            && Inv(r, launchers, next) && Fleeing(next) && Steady(r, next.burn, next.fuel) && Gap(next.burn) == Gap(s.burn) - dt
  {
    hide Inv, Tick, Steady, Timed, BurnTick;
    TimedFlight(r, launchers, s);
    var surge := FlightTick(r, launchers, s, l, dt);
    BurnIsSteady(r, s.burn, s.fuel, surge, RMin(dt, Gap(s.burn)));
  }

  // ---------------------------------------------------------------- flights that end

  /** Whoever flees with fuel for the whole burn, or with the penalty already at its cap, is away, has
      won or is lost after any n ticks that cover the time still to go. */
  lemma {:induction false} FleeingEnds(r: Rules, launchers: nat, s: State, luck: nat -> Luck, dt: real, n: nat)
    requires RulesOk(r) && Fair(luck) && Inv(r, launchers, s) && Fleeing(s) && dt > 0.0
    requires Steady(r, s.burn, s.fuel) && Time(n, dt) >= Gap(s.burn)
    ensures Live(r, s, luck, dt, n).Ended?
    decreases n
  {
    hide Inv, Tick, Steady, Time;
    TimeSplits(1, dt);
    assert n > 0;
    TimeSplits(n, dt);
    if Tick(r, s, luck(s.ticks), dt).Going? {
      SteadyTick(r, launchers, s, luck(s.ticks), dt);
      FleeingEnds(r, launchers, Tick(r, s, luck(s.ticks), dt).state, luck, dt, n - 1);
    }
  }

  // ---------------------------------------------------------------- flights that do not

  /** While there is fuel every tick brings the finish nearer, so a flight that goes on runs dry. */
  lemma {:induction false} RunsDry(r: Rules, launchers: nat, s: State, luck: nat -> Luck, dt: real, n: nat) returns (m: nat)
    requires RulesOk(r) && Fair(luck) && Inv(r, launchers, s) && Fleeing(s) && Dps(s) > 0.0 && dt > 0.0
    requires Live(r, s, luck, dt, n).Going? && Time(n, dt) >= Gap(s.burn)
    ensures m <= n && Live(r, s, luck, dt, m).Going? && Dry(Live(r, s, luck, dt, m).state)
    ensures Inv(r, launchers, Live(r, s, luck, dt, m).state)
    decreases n
  {
    hide Inv, Tick, Time, Timed, BurnTick;
    TimeSplits(1, dt);
    m := 0;
    TimedFlight(r, launchers, s);
    if s.fuel > 0.0 {
      TimeSplits(n, dt);
      var surge := FlightTick(r, launchers, s, luck(s.ticks), dt);
      var next := Tick(r, s, luck(s.ticks), dt).state;
      TimedFlight(r, launchers, next);
      if next.fuel > 0.0 {
        WetBurn(r, s.burn, s.fuel, surge, RMin(dt, Gap(s.burn)));
        m := RunsDry(r, launchers, next, luck, dt, n - 1);
      } else {
        assert Live(r, next, luck, dt, 0) == Going(next);
      }
      m := if next.fuel > 0.0 then m + 1 else 1;
    }
  }

  lemma {:induction false} LiveComposes(r: Rules, s: State, luck: nat -> Luck, dt: real, m: nat, n: nat)
    requires r.volume > 0 && Live(r, s, luck, dt, m).Going?
    ensures Live(r, s, luck, dt, m + n) == Live(r, Live(r, s, luck, dt, m).state, luck, dt, n)
    decreases m
  {
    hide Tick;
    if m > 0 && !(s.course.phase.Combat? && s.course.fight.None?) {
      LiveComposes(r, Tick(r, s, luck(s.ticks), dt).state, luck, dt, m - 1, n);
    }
  }

  /** After m ticks the tank is dry and the ship stuck. */
  ghost predicate StuckAfter(r: Rules, s: State, luck: nat -> Luck, dt: real, m: nat)
    requires r.volume > 0
  {
    var last := Live(r, s, luck, dt, m);
    last.Going? && Dry(last.state) && Stuck(r, last.state)
  }

  lemma StuckNeverEnds(r: Rules, launchers: nat, s: State, luck: nat -> Luck, dt: real, m: nat, n: nat)
    requires RulesOk(r) && Fair(luck) && dt > 0.0 && StuckAfter(r, s, luck, dt, m)
    requires Inv(r, launchers, Live(r, s, luck, dt, m).state)
    ensures Live(r, s, luck, dt, n).Going?
  {
    hide Inv, Live, Stuck, Dry, Fair, RulesOk;
    assert r.volume > 0 by { RulesGive(r); }
    if n <= m {
      if Live(r, s, luck, dt, n).Ended? { LiveStays(r, s, luck, dt, n, m); }
    } else {
      StuckGoesOn(r, launchers, Live(r, s, luck, dt, m).state, luck, dt, n - m);
      LiveComposes(r, s, luck, dt, m, n - m);
    }
  }

  lemma RulesGive(r: Rules)
    requires RulesOk(r)
    ensures r.volume > 0
  {}

  lemma {:induction false} LiveKeeps(r: Rules, launchers: nat, s: State, luck: nat -> Luck, dt: real, n: nat)
    requires RulesOk(r) && Fair(luck) && Inv(r, launchers, s)
    ensures Inv(r, launchers, Live(r, s, luck, dt, n).state)
    decreases n
  {
    hide Inv, Tick, Means;
    if n > 0 && !(s.course.phase.Combat? && s.course.fight.None?) {
      TickOk(r, launchers, s, luck(s.ticks), dt);
      var next := Tick(r, s, luck(s.ticks), dt);
      if next.Going? { LiveKeeps(r, launchers, next.state, luck, dt, n - 1); }
    }
  }

  lemma EndlessIsStuck(r: Rules, launchers: nat, s: State, luck: nat -> Luck, dt: real, bound: nat) returns (m: nat)
    requires RulesOk(r) && Fair(luck) && Inv(r, launchers, s) && Fleeing(s) && Dps(s) > 0.0 && dt > 0.0
    requires Time(bound, dt) >= Gap(s.burn) && Endless(r, s, luck, dt)
    ensures m <= bound && StuckAfter(r, s, luck, dt, m)
  {
    hide Inv, Live, Stuck, Dry, Fair, Fleeing;
    assert Live(r, s, luck, dt, bound).Going?;
    m := RunsDry(r, launchers, s, luck, dt, bound);
    var last := Live(r, s, luck, dt, m).state;
    forall n: nat ensures Live(r, last, luck, dt, n).Going? {
      LiveComposes(r, s, luck, dt, m, n);
      assert Live(r, s, luck, dt, m + n).Going?;
    }
    NeverResolvedExactlyWhen(r, launchers, last, luck, dt);
  }

  /** Every fleeing fight, whatever is in the tank and whatever guns are aboard. In exact arithmetic it
      is never resolved if and only if the tank runs dry in time, at a tick where the ship is stuck;
      and in time means within the ticks that cover the finish as it stands now. */
  lemma FlightNeverEndsExactlyWhen(r: Rules, launchers: nat, s: State, luck: nat -> Luck, dt: real, bound: nat)
    requires RulesOk(r) && Fair(luck) && Inv(r, launchers, s) && Fleeing(s) && Dps(s) > 0.0 && dt > 0.0
    requires Time(bound, dt) >= Gap(s.burn)
    ensures Endless(r, s, luck, dt) <==> exists m: nat :: m <= bound && StuckAfter(r, s, luck, dt, m)
  {
    hide Inv, Live, Fair, Fleeing, StuckAfter;
    if m: nat :| m <= bound && StuckAfter(r, s, luck, dt, m) {
      LiveKeeps(r, launchers, s, luck, dt, m);
      forall n: nat ensures Live(r, s, luck, dt, n).Going? { StuckNeverEnds(r, launchers, s, luck, dt, m, n); }
    } else if Endless(r, s, luck, dt) {
      var _ := EndlessIsStuck(r, launchers, s, luck, dt, bound);
    }
  }

  // ---------------------------------------------------------------- the autopilot

  /** n ticks cover the burn that the autopilot starts or takes over: a plain one with at most k cargo
      shifts, or a steady one under fire. */
  ghost predicate Covered(r: Rules, start: State, luck: nat -> Luck, dt: real, n: nat, k: nat)
    requires r.volume > 0
  {
    if start.course.phase.Escaping? then
      && (ShiftCount(r, start, luck, dt, n) <= k || Time(n, dt) < k as real * ShiftSpacing(r))
      && Time(n, dt) >= BurnBound(r, start.burn.base, k)
    else Steady(r, start.burn, start.fuel) && Time(n, dt) >= Gap(start.burn)
  }

  lemma PlainBurnEnds(r: Rules, launchers: nat, start: State, luck: nat -> Luck, dt: real, n: nat, k: nat)
    requires RulesOk(r) && Fair(luck) && Inv(r, launchers, start) && start.course.phase.Escaping? && dt > 0.0 && n > 0
    requires Covered(r, start, luck, dt, n, k)
    ensures Live(r, start, luck, dt, n).Ended?
  {
    if ShiftCount(r, start, luck, dt, n) <= k {
      EscapeEnds(r, launchers, start, luck, dt, n, k);
    } else {
      EscapeEndsAnyway(r, launchers, start, luck, dt, n, k);
    }
  }

  lemma FinishedTickEnds(r: Rules, s: State, l: Luck, dt: real)
    requires r.volume > 0 && s.course.phase.Combat? && s.course.fight.Some? && s.course.fight.value.fleeing && Gap(s.burn) <= 0.0 && dt > 0.0
    ensures Tick(r, s, l, dt).Ended?
  {
    EventsLeaveFights(r, s.(ticks := s.ticks + 1), l, dt);
    hide TickEvents, BurnTick, Damage.AttackHit;
  }

  lemma FightEnds(r: Rules, launchers: nat, start: State, luck: nat -> Luck, dt: real, n: nat, k: nat)
    requires RulesOk(r) && Fair(luck) && Inv(r, launchers, start) && Burning(start.course) && start.armor.hull > 0
    requires !start.course.phase.Escaping? && dt > 0.0 && n > 0 && Covered(r, start, luck, dt, n, k)
    ensures Live(r, start, luck, dt, n).Ended?
  {
    if Gap(start.burn) > 0.0 {
      FleeingEnds(r, launchers, start, luck, dt, n);
    } else {
      hide Tick, Inv;
      FinishedTickEnds(r, start, luck(start.ticks), dt);
    }
  }

  /** A pilot who leaves, in whatever phase, is resolved within the budget when the burn is covered. */
  lemma EmergencyResolves(r: Rules, launchers: nat, s: State, luck: nat -> Luck, dt: real, n: nat, k: nat)
    requires RulesOk(r) && Fair(luck) && Inv(r, launchers, s) && s.armor.hull > 0 && dt > 0.0
    requires 0 < n <= EMERGENCY_TICKS && Covered(r, Abandoned(r, s, luck(s.ticks)), luck, dt, n, k)
    ensures Live(r, Abandoned(r, s, luck(s.ticks)), luck, dt, EMERGENCY_TICKS).Ended?
  {
    hide Inv, Live, Abandoned, Covered, Burning;
    AbandonedOk(r, launchers, s, luck(s.ticks));
    var start := Abandoned(r, s, luck(s.ticks));
    if start.course.phase.Escaping? {
      PlainBurnEnds(r, launchers, start, luck, dt, n, k);
    } else {
      FightEnds(r, launchers, start, luck, dt, n, k);
    }
    LiveStays(r, start, luck, dt, n, EMERGENCY_TICKS);
  }

  /** In particular whoever leaves over a tribute or in a fight not yet fled, with the fuel for the base
      time aboard, is resolved within the ticks that cover the base time. */
  lemma AbandonedFightEnds(r: Rules, launchers: nat, s: State, luck: nat -> Luck, dt: real, n: nat)
    requires RulesOk(r) && Fair(luck) && Inv(r, launchers, s) && s.armor.hull > 0 && dt > 0.0
    requires s.course.phase.Tribute? || (s.course.phase.Combat? && !s.course.fight.value.fleeing)
    requires var base := Configured(r, s.burn, luck(s.ticks).load).base;
             s.fuel > Thirst(r, base) && Time(n, dt) >= base && n <= EMERGENCY_TICKS
    ensures Live(r, Abandoned(r, s, luck(s.ticks)), luck, dt, n).Ended?
    ensures Live(r, Abandoned(r, s, luck(s.ticks)), luck, dt, EMERGENCY_TICKS).Ended?
  {
    var start := Abandoned(r, s, luck(s.ticks));
    assert s.course.phase.Combat? ==> s.course.fight.Some?;
    ConfiguredOk(r, s.burn, luck(s.ticks).load);
    assert start.burn == Configured(r, s.burn, luck(s.ticks).load) && start.fuel == s.fuel && start.course.phase.Combat?;
    hide Inv, Live, Configured, Time, Thirst, Abandoned;
    AbandonedOk(r, launchers, s, luck(s.ticks));
    FleeingEnds(r, launchers, start, luck, dt, n);
    LiveStays(r, start, luck, dt, n, EMERGENCY_TICKS);
  }
}
