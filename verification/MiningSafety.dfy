/** What every step of a mining run keeps, what each outcome means, and what is left of the rock. */
module MiningSafety {
  import opened Wrappers
  import opened Numbers
  import opened MiningRun
  import Damage
  import CargoLedger

  // ---------------------------------------------------------------- the invariant

  /** Ore is conserved: what left the rock is aboard or jettisoned, and fits the rock and the hold. */
  predicate OreOk(r: Rules, ore: Ore, stored: Stored, paid: bool) {
    && ore.held >= 0.0 && ore.jettisoned >= 0.0 && ore.extracted == ore.held + ore.jettisoned
    && ore.extracted <= r.volume as real
    && stored.units >= 0.0 && stored.value >= 0 && ore.worth >= 0 && stored.units + ore.held <= r.capacity
    && (!paid ==> ore.jettisoned == 0.0)
  }

  predicate WorthOk(r: Rules, ore: Ore, paid: bool)
    requires r.volume > 0
  {
    !paid ==> ore.worth == Worth(r, ore.held)
  }

  predicate CourseOk(r: Rules, c: Course, ore: Ore) {
    && (c.fight.Some? <==> c.phase.Combat?)
    && (c.underAttack <==> c.phase.Combat?)
    && (c.tributePaid ==> c.phase.Escaping?)
    && (c.intent.Some? <==> Burning(c))
    && (c.intent.Some? ==> c.intent.value == if Depleted(r, ore) then Departed else Bailed)
  }

  predicate BurnOk(r: Rules, b: Burn, c: Course) {
    && b.shiftMul >= 1.0
    && (Burning(c) ==> b.base > 0.0 && b.out >= 0.0 && b.elapsed >= 0.0
                       && b.required == b.base + Penalty(r, b.out))
  }

  /** At most one EMP goes off in a run, and every other launcher stays loaded. */
  predicate ContactOk(c: Contact, launchers: nat) {
    && c.launchers + (if c.empDeployed then 1 else 0) == launchers
    && (c.empActive ==> c.empDeployed)
  }

  /** The lit point is the one being timed. */
  predicate SkillOk(skill: Skill) {
    && (skill.check.Some? ==> skill.check.value.point < |skill.points|)
    && forall i :: 0 <= i < |skill.points| ==>
         (skill.points[i].Lit? <==> skill.check.Some? && skill.check.value.point == i)
  }

  ghost predicate Inv(r: Rules, launchers: nat, s: State)
    requires r.volume > 0
  {
    && OreOk(r, s.ore, s.stored, s.course.tributePaid)
    && WorthOk(r, s.ore, s.course.tributePaid)
    && CourseOk(r, s.course, s.ore)
    && BurnOk(r, s.burn, s.course)
    && ContactOk(s.contact, launchers)
    && SkillOk(s.skill)
    && Damage.Sound(s.armor)
    && 0.0 <= s.fuel <= r.tank
  }

  // ---------------------------------------------------------------- parts of a tick

  lemma ShiftKeeps(r: Rules, phase: Phase, h: Hazards, hull: int, l: Luck, b: Burn, c: Course)
    requires RulesOk(r) && BurnOk(r, b, c) && phase == c.phase
    ensures var after := TickShift(r, phase, h, hull, l, b);
            && after.shiftMul >= 1.0 && (!phase.Escaping? ==> BurnOk(r, after, c))
            && (Burning(c) ==> after.base > 0.0 && after.out >= 0.0 && after.elapsed >= 0.0)
  {
    assert b.shiftMul * r.shiftFactor >= b.shiftMul * 1.0;
    if Burning(c) { assert b.base * r.shiftFactor >= b.base * 1.0; }
  }

  /** The state with the burn's finish put where its formula has it. */
  function Retimed(r: Rules, s: State): State { s.(burn := s.burn.(required := s.burn.base + Penalty(r, s.burn.out))) }

  /** An event of any kind keeps the invariant, except that a shift during an escape leaves the
      required time, and nothing else, to be recomputed by the burn. */
  lemma EventsKeep(r: Rules, launchers: nat, s: State, l: Luck, dt: real)
    requires RulesOk(r) && Inv(r, launchers, s)
    ensures var after := TickEvents(r, s, l, dt);
            && Inv(r, launchers, Retimed(r, after))
            && (!s.course.phase.Escaping? ==> Inv(r, launchers, after))
  {
    ShiftKeeps(r, s.course.phase, s.hazards, s.armor.hull, l, s.burn, s.course);
    Damage.HullHitSound(s.armor, r.surgeHit);
    hide TickShift, TickHazards, Damage.HullHit, SkillOk;
  }

  lemma WorthIsNonNegative(r: Rules, held: real)
    requires RulesOk(r) && held >= 0.0
    ensures Worth(r, held) >= 0
  {
    var p := r.value as real * held;
    assert p >= 0.0;
    assert p / r.volume as real >= 0.0;
  }

  /** One tick of drilling keeps the ore accounts and stays within rock and hold. */
  lemma DrillingKeeps(r: Rules, ore: Ore, stored: Stored, fuel: real, dt: real)
    requires RulesOk(r) && OreOk(r, ore, stored, false)
    ensures var after := Drilled(r, ore, stored, fuel, dt);
            OreOk(r, after, stored, false) && WorthOk(r, after, false) && after.extracted >= ore.extracted
  {
    WorthIsNonNegative(r, Drilled(r, ore, stored, fuel, dt).held);
  }

  lemma DrillingFuelKeeps(r: Rules, ore: Ore, stored: Stored, fuel: real, surge: bool, dt: real)
    requires RulesOk(r) && 0.0 <= fuel <= r.tank
    ensures 0.0 <= DrilledFuel(r, ore, stored, fuel, surge, dt) <= r.tank
  {}

  lemma BonusFits(room: real, pct: real)
    requires 0.0 < pct <= 1.0
    ensures room * pct > 0.0 ==> room * pct <= room
  {
    if room > 0.0 {
      assert room * (1.0 - pct) >= 0.0;
      assert room * (1.0 - pct) == room - room * pct;
    } else {
      assert (-room) * pct >= 0.0;
      assert (-room) * pct == -(room * pct);
    }
  }

  lemma ReachableBounds(r: Rules, ore: Ore, stored: Stored)
    ensures Reachable(r, ore, stored) <= r.volume as real - ore.extracted
    ensures Reachable(r, ore, stored) <= RMax(0.0, Room(r, stored) - ore.held)
  {}

  lemma BonusHasRoom(r: Rules, ore: Ore, stored: Stored)
    requires 0.0 < r.bonusPct <= 1.0
    ensures Bonus(r, ore, stored) > 0.0 ==> Bonus(r, ore, stored) <= Reachable(r, ore, stored)
  {
    hide Reachable;
    var room := Reachable(r, ore, stored);
    assert Bonus(r, ore, stored) == room * r.bonusPct;
    BonusFits(room, r.bonusPct);
  }

  /** Striking a pressure point takes no more ore than there is, or than fits. */
  lemma BonusKeeps(r: Rules, s: State, l: Luck)
    requires RulesOk(r) && OreOk(r, s.ore, s.stored, false) && WorthOk(r, s.ore, false) && s.skill.check.Some?
    ensures var ore := Struck(r, s, l).ore;
            OreOk(r, ore, s.stored, false) && WorthOk(r, ore, false) && ore.extracted >= s.ore.extracted
  {
    hide Worth, Bonus, Reachable;
    ReachableBounds(r, s.ore, s.stored);
    BonusHasRoom(r, s.ore, s.stored);
    WorthIsNonNegative(r, Struck(r, s, l).ore.held);
  }

  lemma StrikeKeeps(r: Rules, launchers: nat, s: State, l: Luck)
    requires RulesOk(r) && Inv(r, launchers, s) && s.course.phase.Mining? && s.skill.check.Some?
    ensures Inv(r, launchers, Struck(r, s, l))
  {
    BonusKeeps(r, s, l);
    hide Worth, OreOk, WorthOk;
  }

  lemma SkillKeeps(r: Rules, skill: Skill, ore: Ore, stored: Stored, l: Luck, dt: real)
    requires SkillOk(skill)
    ensures SkillOk(TickSkill(r, skill, ore, stored, l, dt))
  {}

  lemma BleedKeeps(r: Rules, h: Hazards, a: Damage.Armor, dt: real)
    requires Damage.Sound(a)
    ensures Damage.Sound(Bled(r, h, a, dt))
  {
    Damage.HullHitSound(a, Dealt(r.bleed, dt));
  }

  /** A fuel vein at the lowest grade gives back exactly what drilling burns, and at higher ones more. */
  lemma FuelVeinPaysBack(r: Rules, ore: Ore, stored: Stored, fuel: real, surge: bool, dt: real)
    requires RulesOk(r) && 0.0 <= fuel <= r.tank && r.recovery >= 1.0
    ensures DrilledFuel(r, ore, stored, fuel, surge, dt) >= fuel
    ensures r.recovery == 1.0 ==> DrilledFuel(r, ore, stored, fuel, surge, dt) == fuel
  {
    hide Drain, Drilling, Recovered;
    RecoversEnough(r, Burnt(fuel, Drain(r.drillDrain, r, surge, dt)));
  }

  lemma RecoversEnough(r: Rules, used: real)
    requires used >= 0.0 && r.recovery >= 1.0
    ensures Recovered(r, used) >= used && (r.recovery == 1.0 ==> Recovered(r, used) == used)
  {
    assert used * (r.recovery - 1.0) >= 0.0;
  }

  /** Jamming holds the pirates off for exactly its time, however the time is cut into ticks. */
  lemma ApproachIsSmooth(r: Rules, c: Contact, dt: real, more: real)
    requires dt >= 0.0 && more >= 0.0 && c.distance >= 0.0 && r.approach >= 0.0
    ensures TickApproach(r, TickApproach(r, c, false, dt), false, more) == TickApproach(r, c, false, dt + more)
    ensures c.jammer > 0.0 ==> TickApproach(r, c, false, c.jammer).distance == c.distance
  {
    var left := dt - (if c.jammer > 0.0 then RMin(dt, c.jammer) else 0.0);
    var next := more - (if c.jammer - dt > 0.0 then RMin(more, c.jammer - dt) else 0.0);
    ClosingAdds(r, left, next);
    hide Closing;
  }

  lemma ClosingAdds(r: Rules, t: real, more: real)
    requires r.approach >= 0.0 && t >= 0.0 && more >= 0.0
    ensures Closing(r, t) >= 0.0 && Closing(r, more) >= 0.0 && Closing(r, t + more) == Closing(r, t) + Closing(r, more)
  {}

  predicate Spent(p: Status) { p.Hit? || p.Missed? }

  /** A pressure point pays or is missed once: whatever it became, it stays. */
  lemma SpentPointsStay(r: Rules, s: State, l: Luck, dt: real, i: nat)
    requires r.volume > 0 && SkillOk(s.skill) && i < |s.skill.points| && Spent(s.skill.points[i])
    ensures var after := TickSkill(r, s.skill, s.ore, s.stored, l, dt).points; i < |after| && after[i] == s.skill.points[i]
    ensures s.skill.check.Some? ==>
              var after := Struck(r, s, l).skill.points;
              i < |after| && after[i] == s.skill.points[i] && after[s.skill.check.value.point].Hit?
  {}

  lemma MiningKeeps(r: Rules, launchers: nat, s: State, l: Luck, dt: real)
    requires RulesOk(r) && Inv(r, launchers, s) && s.course.phase.Mining?
    ensures Inv(r, launchers, TickMining(r, s, l, dt)) && TickMining(r, s, l, dt).course == s.course
  {
    hide Drilled, DrilledFuel, TickSkill, Worth, Bled, SkillOk, OreOk, WorthOk;
    DrillingKeeps(r, s.ore, s.stored, s.fuel, dt);
    DrillingFuelKeeps(r, s.ore, s.stored, s.fuel, Is(s.hazards, ReactorSurge), dt);
    SkillKeeps(r, s.skill, Drilled(r, s.ore, s.stored, s.fuel, dt), s.stored, l, dt);
    SkillKeeps(r, s.skill, s.ore, s.stored, l, dt);
    BleedKeeps(r, s.hazards, s.armor, dt);
  }

  lemma ConfiguredOk(r: Rules, b: Burn, load: real)
    requires RulesOk(r) && b.shiftMul >= 1.0 && load >= 0.0
    ensures var after := Configured(r, b, load);
            after.base == after.required > 0.0 && after.shiftMul >= 1.0 && after.out == after.elapsed == 0.0
  {
    var base := r.baseEscape + load * r.loadPenalty;
    assert load * r.loadPenalty >= 0.0;
    assert base * b.shiftMul >= base * 1.0;
    assert base * b.shiftMul * r.escapeMul > 0.0;
  }

  lemma EscapeStarts(r: Rules, launchers: nat, s: State, load: real)
    requires RulesOk(r) && Inv(r, launchers, s) && !s.course.phase.Combat? && !s.course.phase.Escaping? && load >= 0.0
    ensures Inv(r, launchers, StartEscape(r, s, load))
  {
    ConfiguredOk(r, s.burn, load);
  }

  lemma CombatStarts(r: Rules, launchers: nat, s: State, withEscape: bool, l: Luck)
    requires RulesOk(r) && Inv(r, launchers, s) && (s.course.phase.Mining? || s.course.phase.Tribute?) && LuckOk(l)
    ensures Inv(r, launchers, StartCombat(r, s, withEscape, l))
  {
    ConfiguredOk(r, s.burn, l.load);
  }

  lemma ArrivalKeeps(r: Rules, launchers: nat, s: State, l: Luck)
    requires RulesOk(r) && Inv(r, launchers, s) && s.course.phase.Mining? && LuckOk(l)
    ensures Inv(r, launchers, Arrival(r, s, l)) && !Arrival(r, s, l).course.phase.Escaping?
  {
    CombatStarts(r, launchers, s, !r.armed, l);
  }

  lemma PenaltyIsNonNegative(r: Rules, out: real)
    requires RulesOk(r) && out >= 0.0
    ensures 0.0 <= Penalty(r, out) <= r.outCap
  {
    assert out * r.outRate >= 0.0;
  }

  lemma BurnKeeps(r: Rules, b: Burn, fuel: real, surge: bool, dt: real, c: Course)
    requires RulesOk(r) && Burning(c) && b.shiftMul >= 1.0 && b.base > 0.0 && b.out >= 0.0 && b.elapsed >= 0.0
    requires dt >= 0.0 && 0.0 <= fuel <= r.tank
    ensures BurnOk(r, BurnTick(r, b, fuel, surge, dt).0, c) && 0.0 <= BurnTick(r, b, fuel, surge, dt).1 <= r.tank
  {}

  // ---------------------------------------------------------------- tribute

  lemma SharesFit(r: Rules, s: State)
    requires RulesOk(r) && s.stored.value >= 0 && s.ore.worth >= 0
    ensures 0 <= StoredShare(r, s) <= s.stored.value && 0 <= Asked(r, s) - StoredShare(r, s) <= s.ore.worth
  {
    CargoLedger.PercentageFits(s.stored.value + s.ore.worth, r.tributePct);
    hide CargoLedger.PortionLoss;
    CargoLedger.PortionLossFits(Asked(r, s), s.stored.value, s.stored.value + s.ore.worth);
  }

  /** A tribute leaves the rock's account alone: the ore it takes is jettisoned. */
  lemma PaidAccounts(r: Rules, s: State, load: real)
    requires RulesOk(r) && OreOk(r, s.ore, s.stored, false)
    ensures var after := Paid(r, s, load);
            && OreOk(r, after.ore, after.stored, true) && after.ore.extracted == s.ore.extracted
            && after.stored.value + after.ore.worth == s.stored.value + s.ore.worth - Asked(r, s)
  {
    SharesFit(r, s);
    hide StoredShare, Asked, CargoLedger.UnitsLost, Configured;
    CargoLedger.UnitsFollowValue(s.stored.units, s.stored.value, StoredShare(r, s));
    CargoLedger.UnitsFollowValue(s.ore.held, s.ore.worth, Asked(r, s) - StoredShare(r, s));
  }

  /** To within half a credit. */
  predicate IsPercentage(asked: int, total: int, pct: real) { -0.5 <= asked as real - total as real * pct <= 0.5 }

  /** Who pays what: the percentage of everything to the nearest credit, the stored cargo its fair part of
      it and the run the rest, and either hold thinned in step with its value. */
  predicate PaidFairly(r: Rules, s: State, after: State) {
    var total := s.stored.value + s.ore.worth;
    var asked := total - after.stored.value - after.ore.worth;
    && IsPercentage(asked, total, r.tributePct)
    && CargoLedger.FairCut(s.stored.value - after.stored.value, asked, s.stored.value, total)
    && CargoLedger.InStep(s.stored.units, s.stored.value, after.stored.units, after.stored.value)
    && CargoLedger.InStep(s.ore.held, s.ore.worth, after.ore.held, after.ore.worth)
    && after.course.tributePaid && after.course.phase.Escaping?
  }

  lemma TributeIsFair(r: Rules, s: State, load: real)
    requires RulesOk(r) && OreOk(r, s.ore, s.stored, false)
    ensures PaidFairly(r, s, Paid(r, s, load))
  {
    hide CargoLedger.PortionLoss, CargoLedger.UnitsLost, CargoLedger.Demand, CargoLedger.FairCut, CargoLedger.InStep, Configured, IsPercentage;
    SharesFit(r, s);
    AskedIsNear(r, s);
    StoredShareIsFair(r, s);
    CargoLedger.LossIsInStep(s.stored.units, s.stored.value, StoredShare(r, s));
    CargoLedger.LossIsInStep(s.ore.held, s.ore.worth, Asked(r, s) - StoredShare(r, s));
    hide StoredShare, Asked;
  }

  lemma AskedIsNear(r: Rules, s: State)
    requires RulesOk(r) && s.stored.value >= 0 && s.ore.worth >= 0
    ensures IsPercentage(Asked(r, s), s.stored.value + s.ore.worth, r.tributePct)
  {
    CargoLedger.DemandIsNear(s.stored.value + s.ore.worth, r.tributePct);
  }

  lemma StoredShareIsFair(r: Rules, s: State)
    requires RulesOk(r) && s.stored.value >= 0 && s.ore.worth >= 0
    ensures CargoLedger.FairCut(StoredShare(r, s), Asked(r, s), s.stored.value, s.stored.value + s.ore.worth)
  {
    hide CargoLedger.PortionLoss, CargoLedger.FairCut;
    CargoLedger.PercentageFits(s.stored.value + s.ore.worth, r.tributePct);
    CargoLedger.PortionIsFair(Asked(r, s), s.stored.value, s.stored.value + s.ore.worth);
    CargoLedger.PortionLossFits(Asked(r, s), s.stored.value, s.stored.value + s.ore.worth);
  }

  lemma TributeKeeps(r: Rules, launchers: nat, s: State, load: real)
    requires RulesOk(r) && Inv(r, launchers, s) && s.course.phase.Tribute? && load >= 0.0
    ensures Inv(r, launchers, Paid(r, s, load))
  {
    PaidAccounts(r, s, load);
    ConfiguredOk(r, s.burn, load);
    hide StoredShare, Asked, CargoLedger.UnitsLost, Configured, SkillOk, Worth;
  }

  // ---------------------------------------------------------------- whole steps

  lemma TributeTickKeeps(r: Rules, launchers: nat, s: State, l: Luck, dt: real)
    requires RulesOk(r) && Inv(r, launchers, s) && s.course.phase.Tribute? && LuckOk(l)
    ensures Inv(r, launchers, TickTribute(r, s, l, dt)) && !TickTribute(r, s, l, dt).course.phase.Escaping?
  {
    var waited := s.(course := s.course.(tributeElapsed := s.course.tributeElapsed + dt));
    assert Inv(r, launchers, waited);
    CombatStarts(r, launchers, waited, true, l);
  }

  lemma EscapeTickKeeps(r: Rules, launchers: nat, s: State, l: Luck, dt: real)
    requires RulesOk(r) && Inv(r, launchers, s) && s.course.phase.Escaping? && dt >= 0.0
    ensures Inv(r, launchers, TickEscape(r, TickEvents(r, s, l, dt), dt))
  {
    EventsKeep(r, launchers, s, l, dt);
    ShiftKeeps(r, s.course.phase, s.hazards, s.armor.hull, l, s.burn, s.course);
    var s1 := TickEvents(r, s, l, dt);
    BurnKeeps(r, s1.burn, s.fuel, Is(s1.hazards, ReactorSurge), dt, s.course);
    hide TickShift, TickHazards, TickSurge, BurnTick, SkillOk, OreOk, WorthOk, ContactOk;
  }

  lemma ShelledSound(f: Fight, a: Damage.Armor, t: real)
    requires Damage.Sound(a)
    ensures Damage.Sound(Shelled(f, a, t))
  {
    Damage.AttackHitSound(a, Dealt(f.dps, t));
  }

  lemma CombatTickKeeps(r: Rules, launchers: nat, s: State, dt: real)
    requires RulesOk(r) && Inv(r, launchers, s) && s.course.phase.Combat?
    ensures Inv(r, launchers, TickCombat(r, s, dt))
  {
    hide CombatTime, BurnTick, Shelled, ShotAt, SkillOk, OreOk, WorthOk, ContactOk;
    var f := s.course.fight.value;
    var t := CombatTime(r, f, s.burn, dt);
    ShelledSound(f, s.armor, t);
    if t > 0.0 && f.fleeing { BurnKeeps(r, s.burn, s.fuel, Is(s.hazards, ReactorSurge), t, s.course); }
  }

  predicate MayFollow(p: Phase, q: Phase) {
    p == q || p.Mining? || (p.Tribute? && (q.Combat? || q.Escaping?))
  }

  /** What each outcome says about the run it ends. */
  predicate Means(r: Rules, s: State, outcome: Outcome) {
    && (outcome.ShipLost? <==> s.armor.hull <= 0)
    && (outcome in {Departed, Bailed, TributePaid, EscapedUnderFire} ==> s.burn.elapsed >= s.burn.required)
    && match outcome
       case Departed => s.course.phase.Escaping? && !s.course.tributePaid && s.ore.extracted == r.volume as real
       case Bailed => s.course.phase.Escaping? && !s.course.tributePaid && s.ore.extracted < r.volume as real
       case TributePaid => s.course.phase.Escaping? && s.course.tributePaid
       case EscapedUnderFire => s.course.phase.Combat? && s.course.fight.Some? && s.course.fight.value.fleeing
       case PirateDestroyed => s.course.phase.Combat? && s.course.fight.Some? && s.course.fight.value.hull == 0.0
       case ShipLost => true
  }

  /** What a step may do: keep the invariant with the hull still whole, or end the run for the
      reason its outcome names. */
  ghost predicate StepOk(r: Rules, launchers: nat, s: State, res: Result)
    requires r.volume > 0
  {
    && Inv(r, launchers, res.state)
    && (res.Going? ==> res.state.armor.hull > 0)
    && (res.Ended? ==> Means(r, res.state, res.outcome))
    && MayFollow(s.course.phase, res.state.course.phase)
    && (!s.course.phase.Mining? ==> res.state.ore.extracted == s.ore.extracted)
    && res.state.ore.extracted >= s.ore.extracted
  }

  lemma JudgeOk(r: Rules, launchers: nat, s: State)
    requires r.volume > 0 && Inv(r, launchers, s)
    ensures Judge(s).state == s
    ensures Judge(s).Going? ==> s.armor.hull > 0
    ensures Judge(s).Ended? ==> Means(r, s, Judge(s).outcome)
  {}

  lemma MiningTickOk(r: Rules, launchers: nat, s: State, l: Luck, dt: real)
    requires RulesOk(r) && LuckOk(l) && Inv(r, launchers, s) && s.course.phase.Mining?
    ensures StepOk(r, launchers, s, Judge(Arrival(r, TickMining(r, s, l, dt), l)))
  {
    var mined := TickMining(r, s, l, dt);
    assert mined.ore.extracted >= s.ore.extracted by { DrillingKeeps(r, s.ore, s.stored, s.fuel, dt); }
    MiningKeeps(r, launchers, s, l, dt);
    hide Inv, TickMining, Means;
    ArrivalKeeps(r, launchers, mined, l);
    JudgeOk(r, launchers, Arrival(r, mined, l));
  }

  lemma TributeTickOk(r: Rules, launchers: nat, s: State, l: Luck, dt: real)
    requires RulesOk(r) && LuckOk(l) && Inv(r, launchers, s) && s.course.phase.Tribute?
    ensures StepOk(r, launchers, s, Judge(TickTribute(r, s, l, dt)))
  {
    TributeTickKeeps(r, launchers, s, l, dt);
    hide Inv, Means;
    JudgeOk(r, launchers, TickTribute(r, s, l, dt));
  }

  lemma CombatTickOk(r: Rules, launchers: nat, s: State, dt: real)
    requires RulesOk(r) && Inv(r, launchers, s) && s.course.phase.Combat?
    ensures var s2 := TickCombat(r, s, dt);
            && StepOk(r, launchers, s, Judge(s2))
            && (s2.armor.hull > 0 ==> s2.course.fight.Some? && StepOk(r, launchers, s, Ended(PirateHull(s2, 0.0), PirateDestroyed)))
  {
    CombatTickKeeps(r, launchers, s, dt);
    JudgeOk(r, launchers, TickCombat(r, s, dt));
    hide BurnTick, Shelled, ShotAt, SkillOk, OreOk, WorthOk, ContactOk;
  }

  lemma EscapeTickOk(r: Rules, launchers: nat, s: State, l: Luck, dt: real)
    requires RulesOk(r) && Inv(r, launchers, s) && s.course.phase.Escaping? && dt >= 0.0
    ensures StepOk(r, launchers, s, Judge(TickEscape(r, TickEvents(r, s, l, dt), dt)))
  {
    EscapeTickKeeps(r, launchers, s, l, dt);
    hide Inv, Means;
    JudgeOk(r, launchers, TickEscape(r, TickEvents(r, s, l, dt), dt));
  }

  lemma TickIsCounted(r: Rules, launchers: nat, s: State)
    requires r.volume > 0 && Inv(r, launchers, s)
    ensures Inv(r, launchers, s.(ticks := s.ticks + 1)) && (s.course.phase.Combat? ==> s.course.fight.Some?)
  {}

  lemma TickOk(r: Rules, launchers: nat, s: State, l: Luck, time: real)
    requires RulesOk(r) && LuckOk(l) && Inv(r, launchers, s)
    ensures StepOk(r, launchers, s, Tick(r, s, l, time))
  {
    hide Inv, Means, Judge, TickMining, TickCombat, TickTribute, TickEscape, Arrival, TickHazards, TickShift, TickSurge, AutocannonWins;
    var dt := RMax(0.0, time);
    var s0 := s.(ticks := s.ticks + 1);
    TickIsCounted(r, launchers, s);
    EventsKeep(r, launchers, s0, l, dt);
    var s1 := TickEvents(r, s0, l, dt);
    match s.course.phase {
      case Mining => MiningTickOk(r, launchers, s1, l, dt);
      case Tribute => TributeTickOk(r, launchers, s1, l, dt);
      case Escaping => EscapeTickOk(r, launchers, s0, l, dt);
      case Combat => CombatTickOk(r, launchers, s1, dt);
    }
  }

  lemma ActOk(r: Rules, launchers: nat, s: State, a: Action, l: Luck)
    requires RulesOk(r) && LuckOk(l) && Inv(r, launchers, s) && s.armor.hull > 0 && Accepts(r, s, a)
    ensures StepOk(r, launchers, s, Act(r, s, a, l))
  {
    match a {
      case BailOrDepart => EscapeStarts(r, launchers, s, l.load);
      case AcceptTribute => TributeKeeps(r, launchers, s, l.load); PaidAccounts(r, s, l.load);
      case RefuseTribute => CombatStarts(r, launchers, s, true, l);
      case Fight => CombatStarts(r, launchers, s, false, l);
      case CombatEscape => ConfiguredOk(r, s.burn, l.load);
      case StrikePoint => StrikeKeeps(r, launchers, s, l); BonusKeeps(r, s, l);
      case Hit(_) =>
    }
  }

  // ---------------------------------------------------------------- whole runs

  lemma StepKeeps(r: Rules, launchers: nat, s: State, step: Step)
    requires RulesOk(r) && Inv(r, launchers, s) && s.armor.hull > 0 && Enabled(r, s, step)
    ensures StepOk(r, launchers, s, Do(r, s, step))
  {
    hide StepOk, Inv, Tick, Act;
    match step {
      case Ticks(time, l) => TickOk(r, launchers, s, l, time);
      case Acts(a, l) => ActOk(r, launchers, s, a, l);
    }
  }

  /** From any state of a run to any later one: the phases never go back, the rock is drilled only
      while mining, and the run ends only as its outcome says. */
  lemma {:induction false} RunKeeps(r: Rules, launchers: nat, s: State, steps: seq<Step>)
    requires RulesOk(r) && Inv(r, launchers, s) && s.armor.hull > 0 && Legal(r, s, steps)
    ensures StepOk(r, launchers, s, Exec(r, s, steps))
    decreases |steps|
  {
    if steps != [] {
      StepKeeps(r, launchers, s, steps[0]);
      hide Inv, Means, Enabled, Do;
      var next := Do(r, s, steps[0]);
      if next.Going? { RunKeeps(r, launchers, next.state, steps[1..]); }
    }
  }

  lemma LockedOk(r: Rules, armor: Damage.Armor, fuel: real, stored: Stored, distance: real, jammer: real,
                 launchers: nat, points: nat, nextCheck: real)
    requires RulesOk(r) && Damage.Sound(armor) && 0.0 <= fuel <= r.tank
    requires 0.0 <= stored.units <= r.capacity && stored.value >= 0
    ensures Inv(r, launchers, Locked(armor, fuel, stored, distance, jammer, launchers, points, nextCheck))
  {}

  /** Every run, whatever the pilot does and the dice say, keeps its ore accounts: nothing is drilled
      that is not aboard or jettisoned, nothing beyond the rock or the hold, and resolving it fits
      the hold; at most one EMP is used; tribute and attack exclude each other. */
  lemma OreIsConserved(r: Rules, armor: Damage.Armor, fuel: real, stored: Stored, distance: real, jammer: real,
                       launchers: nat, points: nat, nextCheck: real, steps: seq<Step>)
    requires RulesOk(r) && Damage.Sound(armor) && armor.hull > 0 && 0.0 <= fuel <= r.tank
    requires 0.0 <= stored.units <= r.capacity && stored.value >= 0
    requires Legal(r, Locked(armor, fuel, stored, distance, jammer, launchers, points, nextCheck), steps)
    ensures var s := Exec(r, Locked(armor, fuel, stored, distance, jammer, launchers, points, nextCheck), steps).state;
            && s.ore.extracted == s.ore.held + s.ore.jettisoned
            && 0.0 <= s.ore.held && 0.0 <= s.ore.jettisoned && s.ore.extracted <= r.volume as real
            && s.stored.units + s.ore.held <= r.capacity
            && StoredAfter(s, Bailed).units <= r.capacity
            && launchers - 1 <= s.contact.launchers <= launchers
            && !(s.course.tributePaid && s.course.underAttack)
            && !(s.course.phase.Escaping? && s.course.underAttack)
            && 0.0 <= s.fuel <= r.tank
  {
    LockedOk(r, armor, fuel, stored, distance, jammer, launchers, points, nextCheck);
    hide Means, Exec, Legal, Locked, SkillOk;
    RunKeeps(r, launchers, Locked(armor, fuel, stored, distance, jammer, launchers, points, nextCheck), steps);
  }

  // ---------------------------------------------------------------- the remnant

  lemma QuotientIs(x: real, y: real, q: real)
    requires y > 0.0 && x == q * y
    ensures x / y == q
  {}

  /** A rock and what was taken from it make up the whole. */
  lemma Shares(value: int, held: real, volume: int)
    requires value >= 0 && volume > 0 && 0.0 <= held <= volume as real
    ensures var left := Share(1, volume as real - held, volume);
            && 0.0 <= left <= 1.0 && left == 1.0 - held / volume as real
            && Part(value, left) + Share(value, held, volume) == value as real
            && Part(volume, left) == volume as real - held
  {
    var q := held / volume as real;
    assert q * volume as real == held;
    QuotientIs(value as real * held, volume as real, value as real * q);
    QuotientIs(volume as real - held, volume as real, 1.0 - q);
    assert value as real * (1.0 - q) == value as real - value as real * q;
  }

  lemma RoundedShares(a: real, b: real, whole: int)
    requires a + b == whole as real
    ensures whole - 1 <= Round(a) + Round(b) <= whole + 1
  {
    assert (Round(a) + Round(b)) as real <= whole as real + 1.0;
    assert (Round(a) + Round(b)) as real >= whole as real - 1.0;
  }

  /** A kept remnant holds what was not extracted, to within one unit, and never grows. A rock is
      dropped exactly when the ship is lost, when a departure exhausted it, or when too little is left. */
  lemma RemnantIsWhatIsLeft(r: Rules, s: State, outcome: Outcome)
    requires RulesOk(r) && 0.0 <= s.ore.extracted <= r.volume as real
    ensures var left := r.volume as real - s.ore.extracted;
            && (Remnant(r, s, outcome).None? <==>
                outcome.ShipLost? || (outcome.Departed? && left == 0.0) || left < r.keepThreshold * r.volume as real)
            && (Remnant(r, s, outcome).Some? ==>
                var rock := Remnant(r, s, outcome).value;
                1 <= rock.volume <= r.volume && left - 1.0 <= rock.volume as real <= left + 1.0)
  {
    var volume := r.volume as real;
    Shares(r.value, s.ore.extracted, r.volume);
    CargoLedger.RoundAtMost(volume - s.ore.extracted, r.volume);
    var q := s.ore.extracted / volume;
    Threshold(s.ore.extracted, volume, r.keepThreshold);
    hide Share, Part;
  }

  lemma Threshold(x: real, whole: real, limit: real)
    requires whole > 0.0
    ensures 1.0 - x / whole < limit <==> whole - x < limit * whole
  {
    var q := x / whole;
    assert whole - x == (1.0 - q) * whole;
    if 1.0 - q < limit { Scales(1.0 - q, limit, whole); } else if limit < 1.0 - q { Scales(limit, 1.0 - q, whole); }
  }

  lemma Scales(a: real, b: real, whole: real)
    requires a < b && whole > 0.0
    ensures a * whole < b * whole
  {}

  /** Rock and hold share the asteroid's value: rounding apart, none appears or vanishes. */
  lemma ValueIsShared(r: Rules, s: State, outcome: Outcome)
    requires RulesOk(r) && OreOk(r, s.ore, s.stored, false) && WorthOk(r, s.ore, false)
    requires Remnant(r, s, outcome).Some?
    ensures r.value - 1 <= Remnant(r, s, outcome).value.value + s.ore.worth <= r.value + 1
  {
    Shares(r.value, s.ore.held, r.volume);
    RoundedShares(Part(r.value, LeftOver(r, s.ore)), Share(r.value, s.ore.held, r.volume), r.value);
    hide Share, Part, Round;
  }
}
