/** Fleeing from a pirate with an empty tank, on the whole machine and in exact arithmetic: when the
    flight is resolved, by the burn, by the pirate or by the autocannon, and when it is not. */
module DryFight {
  import opened Wrappers
  import opened Numbers
  import opened MiningRun
  import opened MiningSafety
  import opened MiningEscape
  import opened DryFlight
  import Damage

  /** Fleeing from a fight, with the burn not finished. */
  predicate Fleeing(s: State) {
    && s.course.phase.Combat? && s.course.fight.Some? && s.course.fight.value.fleeing
    && s.armor.hull > 0 && Gap(s.burn) > 0.0
  }

  /** ... from a pirate that shoots, and with an empty tank. */
  predicate Dry(s: State) { Fleeing(s) && s.course.fight.value.dps > 0.0 && s.fuel == 0.0 }

  function Pirate(s: State): Fight
    requires s.course.fight.Some?
  {
    s.course.fight.value
  }

  function Dps(s: State): real
    requires s.course.fight.Some?
  {
    s.course.fight.value.dps
  }

  predicate Wins(r: Rules, s: State, dt: real)
    requires s.course.fight.Some?
  {
    AutocannonWins(r, s.course.fight.value, s.burn, dt)
  }

  /** How much damage the ship can still take. */
  function Stamina(a: Damage.Armor): real { a.shield + a.hull as real - a.carry }

  /** Damage wears down stamina point by point, and the hull lasts exactly as long as stamina does. */
  lemma StaminaLasts(a: Damage.Armor, amount: real)
    requires Damage.Sound(a) && a.hull > 0 && amount > 0.0
    ensures var after := Damage.AttackHit(a, amount);
            && (after.hull > 0 <==> Stamina(a) - amount > 0.0)
            && (after.hull > 0 ==> Stamina(after) == Stamina(a) - amount)
  {}

  lemma DealtAdds(dps: real, x: real, y: real)
    ensures Dealt(dps, x + y) == Dealt(dps, x) + Dealt(dps, y)
    ensures Dealt(dps, x - y) == Dealt(dps, x) - Dealt(dps, y)
  {}

  lemma DealtGrows(dps: real, x: real, y: real)
    requires dps > 0.0 && x < y
    ensures Dealt(dps, x) < Dealt(dps, y) && Dealt(dps, 0.0) == 0.0
  {}

  // ---------------------------------------------------------------- one tick

  lemma DryFacts(r: Rules, launchers: nat, s: State)
    requires RulesOk(r) && Inv(r, launchers, s) && Dry(s)
    ensures Damage.Sound(s.armor) && Timed(r, s.burn) && Stamina(s.armor) > 0.0
  {}

  lemma EventsLeaveFights(r: Rules, s: State, l: Luck, dt: real)
    requires s.course.phase.Combat?
    ensures var after := TickEvents(r, s, l, dt);
            after.armor == s.armor && after.burn == s.burn && after.course == s.course && after.fuel == s.fuel
  {}

  /** A tick that the autocannon decides is the last. */
  lemma WonTickEnds(r: Rules, s: State, l: Luck, dt: real)
    requires r.volume > 0 && Fleeing(s) && dt > 0.0 && Wins(r, s, dt)
    ensures Tick(r, s, l, dt).Ended?
  {
    hide TickEvents, TickCombat, AutocannonWins;
    EventsLeaveFights(r, s.(ticks := s.ticks + 1), l, dt);
  }

  lemma DryCombat(r: Rules, s: State, dt: real)
    requires Dry(s) && Timed(r, s.burn) && dt > 0.0 && !Wins(r, s, dt)
    ensures var after, t := TickCombat(r, s, dt), RMin(dt, Gap(s.burn));
            && after.armor == Damage.AttackHit(s.armor, Dealt(Dps(s), t))
            && after.course == s.course.(fight := Some(Pirate(s).(hull := ShotAt(r, Pirate(s), t))))
            && after.burn == DryTick(r, s.burn, dt) && after.fuel == 0.0
  {
    CombatTickIsDry(r, s, dt);
    UndecidedTime(r, Pirate(s), s.burn, dt);
    hide Damage.AttackHit, DryTick, Penalty, Dealt, BurnTick, CombatTime, AutocannonWins, ShotAt;
  }

  lemma DryTickIs(r: Rules, s: State, l: Luck, dt: real)
    requires r.volume > 0 && Dry(s) && Timed(r, s.burn) && dt > 0.0 && !Wins(r, s, dt)
    ensures var res, t := Tick(r, s, l, dt), RMin(dt, Gap(s.burn));
            && res == Judge(res.state)
            && res.state.armor == Damage.AttackHit(s.armor, Dealt(Dps(s), t))
            && res.state.course == s.course.(fight := Some(Pirate(s).(hull := ShotAt(r, Pirate(s), t))))
            && res.state.burn == DryTick(r, s.burn, dt) && res.state.fuel == 0.0
  {
    hide TickEvents, TickCombat, DryTick, Damage.AttackHit, Dealt, Penalty, AutocannonWins, ShotAt;
    var s0 := s.(ticks := s.ticks + 1);
    EventsLeaveFights(r, s0, l, dt);
    DryCombat(r, TickEvents(r, s0, l, dt), dt);
  }

  /** One tick of the whole machine on a dry flight. */
  lemma DryStep(r: Rules, launchers: nat, s: State, l: Luck, dt: real)
    requires RulesOk(r) && LuckOk(l) && Inv(r, launchers, s) && Dry(s) && dt > 0.0
    ensures var res, t := Tick(r, s, l, dt), RMin(dt, Gap(s.burn));
            && (res.Going? <==> !Wins(r, s, dt) && Gap(DryTick(r, s.burn, dt)) > 0.0 && Stamina(s.armor) - Dealt(Dps(s), t) > 0.0)
            && (res.Going? ==> Inv(r, launchers, res.state) && Dry(res.state) && Dps(res.state) == Dps(s)
                               && Pirate(res.state).hull == ShotAt(r, Pirate(s), t)
                               && res.state.burn == DryTick(r, s.burn, dt) && res.state.burn.out == s.burn.out + t
                               && Stamina(res.state.armor) == Stamina(s.armor) - Dealt(Dps(s), t))
  {
    hide Tick, Inv, Timed, DryTick, Damage.AttackHit, Stamina, Means, Dealt, Penalty, AutocannonWins, ShotAt;
    DryFacts(r, launchers, s);
    if Wins(r, s, dt) {
      WonTickEnds(r, s, l, dt);
    } else {
      TickOk(r, launchers, s, l, dt);
      DryTickIs(r, s, l, dt);
      DryTickTimed(r, s.burn, dt);
      var t := RMin(dt, Gap(s.burn));
      DealtGrows(Dps(s), 0.0, t);
      StaminaLasts(s.armor, Dealt(Dps(s), t));
    }
  }

  // ---------------------------------------------------------------- three clocks

  /** How long the autocannon would need. */
  function Siege(r: Rules, f: Fight): real
    requires r.autocannon > 0.0
  {
    f.hull / r.autocannon
  }

  /** How long the flight would last, were the penalty never capped. */
  function Flight(r: Rules, b: Burn): real
    requires r.outRate < 1.0
  {
    Gap(b) / (1.0 - r.outRate)
  }

  /** The autocannon never gets there first. */
  predicate Spared(r: Rules, s: State)
    requires s.course.fight.Some? && r.outRate < 1.0
  {
    r.autocannon <= 0.0 || Siege(r, Pirate(s)) >= Flight(r, s.burn)
  }

  lemma SiegeDrops(r: Rules, s: State, dt: real)
    requires Fleeing(s) && dt > 0.0 && r.autocannon > 0.0 && !Wins(r, s, dt)
    ensures var f, t := Pirate(s), RMin(dt, Gap(s.burn));
            f.hull > 0.0 && ShotAt(r, f, t) > 0.0 && ShotAt(r, f, t) / r.autocannon == Siege(r, f) - t
  {
    var f, t, k := Pirate(s), RMin(dt, Gap(s.burn)), RMax(0.0, Pirate(s).hull) / r.autocannon;
    assert k > t;
    assert k * r.autocannon == RMax(0.0, f.hull);
    Strict(r.autocannon, t, k);
    assert t * r.autocannon == r.autocannon * t;
    Quotients(f.hull, t, r.autocannon);
  }

  lemma SparedIsUndecided(r: Rules, s: State, dt: real)
    requires Fleeing(s) && Stalls(r, s.burn) && Spared(r, s) && dt > 0.0
    ensures !Wins(r, s, dt)
  {
    if r.autocannon > 0.0 {
      Longer(Gap(s.burn), Gap(s.burn), 1.0 - r.outRate);
      assert RMax(0.0, Pirate(s).hull) / r.autocannon >= Siege(r, Pirate(s));
    }
  }

  lemma FlightDrops(r: Rules, b: Burn, dt: real)
    requires Timed(r, b) && Stalls(r, b) && dt > 0.0 && Gap(b) > 0.0
    ensures RMin(dt, Gap(b)) < Flight(r, b)
    ensures Flight(r, DryTick(r, b, dt)) == Flight(r, b) - RMin(dt, Gap(b))
  {
    hide Timed, DryTick, Penalty, Reach;
    GapInReach(r, b, dt);
    Longer(Gap(b), RMin(dt, Gap(b)), 1.0 - r.outRate);
  }

  /** While the fight goes on it is the dry timer; stamina, siege and time wear down together. */
  lemma {:induction false} LiveIsDry(r: Rules, launchers: nat, s: State, luck: nat -> Luck, dt: real, n: nat)
    requires RulesOk(r) && Fair(luck) && Inv(r, launchers, s) && Dry(s) && dt > 0.0
    requires Live(r, s, luck, dt, n).Going?
    ensures var last := Live(r, s, luck, dt, n).state;
            && Dry(last) && last.burn == DryTicks(r, s.burn, dt, n) && Stamina(last.armor) > 0.0
            && Stamina(last.armor) + Dealt(Dps(s), last.burn.out) == Stamina(s.armor) + Dealt(Dps(s), s.burn.out)
            && (r.autocannon > 0.0 ==> Siege(r, Pirate(last)) + last.burn.out == Siege(r, Pirate(s)) + s.burn.out)
            && (r.autocannon > 0.0 && n > 0 ==> Siege(r, Pirate(last)) > 0.0)
    decreases n
  {
    hide Tick, Inv, DryTick, Stamina, Dealt, AutocannonWins, ShotAt;
    DryFacts(r, launchers, s);
    if n > 0 {
      DryStep(r, launchers, s, luck(s.ticks), dt);
      if r.autocannon > 0.0 { SiegeDrops(r, s, dt); }
      LiveIsDry(r, launchers, Tick(r, s, luck(s.ticks), dt).state, luck, dt, n - 1);
      DealtAdds(Dps(s), s.burn.out, RMin(dt, Gap(s.burn)));
    }
  }

  /** Along the dry timer the flight shortens by exactly the time spent. */
  lemma {:induction false} FlightFollows(r: Rules, b: Burn, dt: real, n: nat)
    requires Timed(r, b) && Stalls(r, b) && dt > 0.0 && Gap(b) > 0.0
    ensures var last := DryTicks(r, b, dt, n); Flight(r, last) + last.out == Flight(r, b) + b.out
    decreases n
  {
    hide Timed, DryTick, Flight;
    if n > 0 {
      StalledTick(r, b, dt);
      DryTickTimed(r, b, dt);
      FlightDrops(r, b, dt);
      FlightFollows(r, DryTick(r, b, dt), dt, n - 1);
    }
  }

  // ---------------------------------------------------------------- stalled flights

  predicate Endures(r: Rules, s: State)
    requires s.course.fight.Some? && r.outRate < 1.0
  {
    Dealt(Dps(s), Flight(r, s.burn)) <= Stamina(s.armor)
  }

  lemma NextIsSpared(r: Rules, s: State, next: State, dt: real)
    requires Fleeing(s) && next.course.fight.Some? && Timed(r, s.burn) && Stalls(r, s.burn) && Spared(r, s) && dt > 0.0
    requires Pirate(next).hull == ShotAt(r, Pirate(s), RMin(dt, Gap(s.burn))) && next.burn == DryTick(r, s.burn, dt)
    ensures Spared(r, next)
  {
    hide Timed, DryTick, Flight, AutocannonWins;
    FlightDrops(r, s.burn, dt);
    SparedIsUndecided(r, s, dt);
    if r.autocannon > 0.0 { SiegeDrops(r, s, dt); }
    hide ShotAt;
  }

  /** A stalled flight that the ship can stand and the pirate outlasts goes on for any number of ticks. */
  lemma {:induction false} KeepsGoing(r: Rules, launchers: nat, s: State, luck: nat -> Luck, dt: real, n: nat)
    requires RulesOk(r) && Fair(luck) && Inv(r, launchers, s) && Dry(s) && dt > 0.0
    requires Stalls(r, s.burn) && Endures(r, s) && Spared(r, s)
    ensures Live(r, s, luck, dt, n).Going?
    decreases n
  {
    hide Tick, Inv, DryTick, Stamina, Flight, Dealt, Reach, Timed, Spared, Siege, ShotAt, AutocannonWins;
    if n > 0 {
      DryFacts(r, launchers, s);
      DryStep(r, launchers, s, luck(s.ticks), dt);
      StalledTick(r, s.burn, dt);
      SparedIsUndecided(r, s, dt);
      FlightDrops(r, s.burn, dt);
      DealtAdds(Dps(s), Flight(r, s.burn), RMin(dt, Gap(s.burn)));
      DealtGrows(Dps(s), RMin(dt, Gap(s.burn)), Flight(r, s.burn));
      var next := Tick(r, s, luck(s.ticks), dt).state;
      NextIsSpared(r, s, next, dt);
      KeepsGoing(r, launchers, next, luck, dt, n - 1);
    }
  }

  /** A stalled flight is as short as one likes after some number of ticks. */
  lemma ShortSoon(r: Rules, b: Burn, dt: real, limit: real) returns (n: nat)
    requires Timed(r, b) && Stalls(r, b) && dt > 0.0 && Gap(b) > 0.0 && limit > 0.0
    ensures n > 0 && Flight(r, DryTicks(r, b, dt, n)) < limit
  {
    hide Timed, Reach, DryTicks, Length, Pace;
    GapFalls(r, b, dt);
    var eps := limit * (1.0 - r.outRate);
    assert eps > 0.0;
    var m := EnoughSteps(Gap(b) - dt, Pace(r, dt));
    var cuts := EnoughCuts(dt, r.outRate, eps);
    StalledGapIsSmall(r, b, dt, eps, m, cuts);
    n := m + cuts;
    Below(Gap(DryTicks(r, b, dt, n)), 1.0 - r.outRate, limit);
  }

  lemma EnoughCuts(dt: real, rate: real, eps: real) returns (k: nat)
    requires dt > 0.0 && 0.0 < rate < 1.0 && eps > 0.0
    ensures k > 0 && eps * (rate + Length(k, 1.0 - rate)) > dt * rate
  {
    hide Length;
    var x := dt * rate / eps;
    assert x * eps == dt * rate;
    var c := EnoughSteps(x, 1.0 - rate);
    k := c + 1;
    LengthSplits(k, 1.0 - rate);
    Strict(eps, x, rate + Length(k, 1.0 - rate));
  }

  lemma Below(g: real, k: real, q: real)
    requires k > 0.0 && g < q * k
    ensures g / k < q
  {
    assert (g / k) * k == g;
    if g / k >= q { Grows(k, q, g / k); }
  }

  /** Were the flight still on when it is that short, the hull or the pirate would be gone. */
  lemma Doomed(r: Rules, launchers: nat, s: State, luck: nat -> Luck, dt: real) returns (n: nat)
    requires RulesOk(r) && Fair(luck) && Inv(r, launchers, s) && Dry(s) && dt > 0.0
    requires Stalls(r, s.burn) && !(Endures(r, s) && Spared(r, s))
    ensures Live(r, s, luck, dt, n).Ended?
  {
    hide Inv, Timed, Stamina, Flight, Dealt, Live, DryTicks, Reach, Siege;
    DryFacts(r, launchers, s);
    var limit := Flight(r, s.burn) - (if Spared(r, s) then 0.0 else Siege(r, Pirate(s)));
    if Spared(r, s) { limit := Excess(r, s); }
    n := ShortSoon(r, s.burn, dt, limit);
    if Live(r, s, luck, dt, n).Going? {
      LiveIsDry(r, launchers, s, luck, dt, n);
      FlightFollows(r, s.burn, dt, n);
      var last := Live(r, s, luck, dt, n).state;
      if Spared(r, s) {
        DealtAdds(Dps(s), Flight(r, last.burn), last.burn.out);
        DealtAdds(Dps(s), Flight(r, s.burn), s.burn.out);
        DealtGrows(Dps(s), Flight(r, last.burn), limit);
      }
    }
  }

  /** How much longer the flight is than the ship can stand. */
  lemma Excess(r: Rules, s: State) returns (limit: real)
    requires s.course.fight.Some? && Dps(s) > 0.0 && r.outRate < 1.0 && !Endures(r, s)
    ensures limit > 0.0 && Dealt(Dps(s), limit) == Dealt(Dps(s), Flight(r, s.burn)) - Stamina(s.armor)
  {
    hide Flight, Stamina;
    limit := (Dealt(Dps(s), Flight(r, s.burn)) - Stamina(s.armor)) / Dps(s);
  }

  lemma Outruns(r: Rules, launchers: nat, s: State, luck: nat -> Luck, dt: real) returns (n: nat)
    requires RulesOk(r) && Fair(luck) && Inv(r, launchers, s) && Dry(s) && dt > 0.0 && !Stalls(r, s.burn)
    ensures Live(r, s, luck, dt, n).Ended?
  {
    hide Inv, Timed, Stamina, Dealt, Live, DryTicks, Stalls, Siege;
    DryFacts(r, launchers, s);
    n := FlightEnds(r, s.burn, dt);
    if Live(r, s, luck, dt, n).Going? { LiveIsDry(r, launchers, s, luck, dt, n); }
  }

  /** The burn stalls, the ship can take all the fire it will ever draw, and the autocannon is too slow. */
  predicate Stuck(r: Rules, s: State)
    requires s.course.fight.Some?
  {
    && 0.0 < r.outRate < 1.0
    && (s.burn.out + Gap(s.burn) / (1.0 - r.outRate)) * r.outRate <= r.outCap
    && Dps(s) * (Gap(s.burn) / (1.0 - r.outRate)) <= s.armor.shield + s.armor.hull as real - s.armor.carry
    && (r.autocannon <= 0.0 || Pirate(s).hull / r.autocannon >= Gap(s.burn) / (1.0 - r.outRate))
  }

  /** No number of ticks resolves the run. */
  ghost predicate Endless(r: Rules, s: State, luck: nat -> Luck, dt: real)
    requires r.volume > 0
  {
    forall n: nat :: Live(r, s, luck, dt, n).Going?
  }

  /** The whole machine's answer in exact arithmetic. A ship that flees with an empty tank is never
      resolved, however many ticks are played, if and only if it is stuck. Otherwise it is resolved
      after finitely many. */
  lemma NeverResolvedExactlyWhen(r: Rules, launchers: nat, s: State, luck: nat -> Luck, dt: real)
    requires RulesOk(r) && Fair(luck) && Inv(r, launchers, s) && Dry(s) && dt > 0.0
    ensures Endless(r, s, luck, dt) <==> Stuck(r, s)
  {
    hide Inv, Live, Fair;
    assert r.volume > 0;
    assert Stuck(r, s) <==> Stalls(r, s.burn) && Endures(r, s) && Spared(r, s);
    hide Stuck;
    if Stalls(r, s.burn) && Endures(r, s) && Spared(r, s) {
      forall n: nat ensures Live(r, s, luck, dt, n).Going? { KeepsGoing(r, launchers, s, luck, dt, n); }
    } else if Stalls(r, s.burn) {
      var n := Doomed(r, launchers, s, luck, dt);
      assert !Live(r, s, luck, dt, n).Going?;
    } else {
      var n := Outruns(r, launchers, s, luck, dt);
      assert !Live(r, s, luck, dt, n).Going?;
    }
  }

  lemma StuckGoesOn(r: Rules, launchers: nat, s: State, luck: nat -> Luck, dt: real, n: nat)
    requires RulesOk(r) && Fair(luck) && Inv(r, launchers, s) && Dry(s) && dt > 0.0 && Stuck(r, s)
    ensures Live(r, s, luck, dt, n).Going?
  {
    hide Inv, Live, Fair, Dry, Stuck;
    NeverResolvedExactlyWhen(r, launchers, s, luck, dt);
    assert Endless(r, s, luck, dt);
  }

  // ---------------------------------------------------------------- a remark on exact arithmetic

  /** The shipped escape and penalty rates, an unarmed ship with slightly better thrusters, and a
      pirate near enough to arrive in one tick. */
  function StuckRules(): Rules {
    Rules(100, 100, 1.0, 50.0, 60.0, 1.3, 2.2, 0.0, 0.0, 100.0,
          0.0, 4.0, 6.0, 10.0, 4.0, 5.0, 12.0, 1.25, 8.0, 3.0,
          12.0, 0.45, 0.18, 3.0, 4.0, 10.0, 0.88, 0.15, 0.6, 6.0,
          0.0, 6.0, false, false, 0.2)
  }

  function StuckLuck(): Luck { Luck(None, false, false, 5.0, 5.0, Fight.Fight(100.0, 5.0, false), 0.0) }

  function StuckLock(): State {
    Locked(Damage.Armor(0.0, false, 60, 0.0), 0.0, Stored(0.0, 0), 10.0, 0.0, 0, 1, 5.0)
  }

  lemma StuckStart()
    ensures RulesOk(StuckRules()) && LuckOk(StuckLuck()) && Inv(StuckRules(), 0, StuckLock())
    ensures StuckRules().volume > 0 && StuckLock().ticks == 0 && StuckLock().course.phase.Mining?
  {
    LockedOk(StuckRules(), Damage.Armor(0.0, false, 60, 0.0), 0.0, Stored(0.0, 0), 10.0, 0.0, 0, 1, 5.0);
  }

  lemma StuckFirstTick()
    ensures var next := Tick(StuckRules(), StuckLock(), StuckLuck(), 0.25);
            && next.Going? && Dry(next.state)
            && next.state.course.fight == Some(Fight.Fight(100.0, 5.0, true))
            && next.state.burn == Burn(3.52, 3.52, 0.0, 0.0, 1.0) && next.state.armor == Damage.Armor(0.0, false, 60, 0.0)
  {
    var r, l := StuckRules(), StuckLuck();
    var s1 := TickEvents(r, StuckLock().(ticks := 1), l, 0.25);
    assert s1 == StuckLock().(ticks := 1);
    var s2 := TickMining(r, s1, l, 0.25);
    assert s2.contact.distance == 0.0 && s2.fuel == 0.0 && s2.armor == s1.armor && s2.course == s1.course;
  }

  /** 3.52 seconds to go at a rate of 0.6 make a flight of 8.8 seconds, with a penalty of 5.28. */
  lemma StuckThere(r: Rules, s: State)
    requires r.outRate == 0.6 && r.outCap == 6.0 && r.autocannon == 0.0
    requires s.course.fight.Some? && Dps(s) == 5.0 && s.burn.out == 0.0 && Gap(s.burn) == 3.52
    requires s.armor == Damage.Armor(0.0, false, 60, 0.0)
    ensures Stuck(r, s)
  {
    QuotientIs(Gap(s.burn), 1.0 - r.outRate, 8.8);
    assert 60 as real == 60.0;
  }

  /** Where that tick leaves the ship, nothing ends the flight any more. */
  lemma StuckOn(s: State, luck: nat -> Luck, n: nat)
    requires Inv(StuckRules(), 0, s) && Dry(s) && Fair(luck)
    requires s.course.fight == Some(Fight.Fight(100.0, 5.0, true))
    requires s.burn == Burn(3.52, 3.52, 0.0, 0.0, 1.0) && s.armor == Damage.Armor(0.0, false, 60, 0.0)
    ensures Live(StuckRules(), s, luck, 0.25, n).Going?
  {
    hide Inv, Dry, Live, Fair, Stuck, RulesOk;
    StuckStart();
    StuckThere(StuckRules(), s);
    hide StuckRules, Dps, Gap, Stamina;
    StuckGoesOn(StuckRules(), 0, s, luck, 0.25, n);
  }

  /** The condition is met by a state that a run can reach: locked on with a dry tank and found by a
      pirate at once. This is a remark on the formulas, in exact arithmetic; a machine's rounding
      closes the last gap, as RoundedFlight shows, so it is no run that the game never resolves. */
  lemma StallsInExactArithmetic(luck: nat -> Luck, n: nat)
    requires Fair(luck) && luck(0) == StuckLuck()
    ensures Live(StuckRules(), StuckLock(), luck, 0.25, n).Going?
  {
    hide Tick, Inv, Dry, StuckLock, StuckLuck, StuckRules, RulesOk, Means, Locked, Fair, LuckOk;
    StuckStart();
    StuckFirstTick();
    TickOk(StuckRules(), 0, StuckLock(), StuckLuck(), 0.25);
    if n > 0 { StuckOn(Tick(StuckRules(), StuckLock(), StuckLuck(), 0.25).state, luck, n - 1); }
  }

  lemma StuckBail()
    ensures var r, s := StuckRules(), StartEscape(StuckRules(), StuckLock(), 0.0);
            && RulesOk(r) && Inv(r, 0, s) && s.course.phase.Escaping? && s.burn.base == 3.52
            && r.shiftFactor == 1.25 && r.shiftSeconds == 4.0 && r.cooldown == 12.0 && r.outCap == 6.0
  {
    StuckStart();
    hide Inv;
    EscapeStarts(StuckRules(), 0, StuckLock(), 0.0);
  }

  /** The same pilot, bailing out before the pirate is there, is away or lost in time. */
  lemma BailingEnds(luck: nat -> Luck)
    requires Fair(luck)
    ensures Live(StuckRules(), StartEscape(StuckRules(), StuckLock(), 0.0), luck, 0.25, 112).Ended?
  {
    hide Inv, Live, Fair, RulesOk, StuckRules, StuckLock, StartEscape;
    StuckBail();
    ShippedEscapesEnd(StuckRules(), 0, StartEscape(StuckRules(), StuckLock(), 0.0), luck);
  }
}
