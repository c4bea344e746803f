/** The run as the object it is: the tick and the pilot's actions update its fields in place. Each
    method is proved to do what MiningRun says. */
module MiningSortie {
  import opened Wrappers
  import opened Numbers
  import opened MiningRun
  import opened MiningSafety
  import MiningEscape
  import MiningYield
  import CombatEscape
  import CargoLedger
  import Damage

  lemma OneHit(a: Damage.Armor, amount: real)
    requires Damage.Sound(a) && amount >= 0.0
    ensures var after := Damage.AttackHit(a, amount);
            after.hull > 0 ==> (a.shield - after.shield) + (a.hull - after.hull) as real + (after.carry - a.carry) == amount
  {
    var hits := [Damage.Attack(amount)];
    assert hits[1..] == [];
    if Damage.StruckAll(a, hits).hull > 0 { Damage.DamageIsConserved(a, hits); }
  }

  class Sortie {
    const r: Rules
    var ore: Ore
    var burn: Burn
    var armor: Damage.Armor
    var fuel: real
    var hazards: Hazards
    var contact: Contact
    var course: Course
    var skill: Skill
    var stored: Stored
    var ticks: nat
    var ended: Option<Outcome>

    function View(): State
      reads this
    {
      State(ore, burn, armor, fuel, hazards, contact, course, skill, stored, ticks)
    }

    function Outlook(): Result
      reads this
    {
      if ended.Some? then Ended(View(), ended.value) else Going(View())
    }

    constructor (r: Rules, s: State)
      ensures this.r == r && View() == s && ended == None
    {
      this.r := r;
      ore, burn, armor, fuel, hazards := s.ore, s.burn, s.armor, s.fuel, s.hazards;
      contact, course, skill, stored, ticks, ended := s.contact, s.course, s.skill, s.stored, s.ticks, None;
    }

    /** Damage past the shield: whole points leave the hull, the fraction is carried. */
    method HitHull(amount: real)
      modifies this`armor
      ensures armor == Damage.HullHit(old(armor), amount)
    {
      if amount <= 0.0 { return; }
      armor := armor.(carry := armor.carry + amount);
      var whole := armor.carry.Floor;
      if whole > 0 {
        armor := armor.(hull := Max(0, armor.hull - whole), carry := armor.carry - whole as real);
      }
    }

    /** The shield absorbs what it can, and the rest reaches the hull: until the hull is gone, what was
        absorbed, what the hull lost and what is carried over come to the damage. */
    method HitByPirates(amount: real)
      modifies this`armor
      ensures armor == Damage.AttackHit(old(armor), amount)
      ensures old(Damage.Sound(armor)) && armor.hull > 0 && amount >= 0.0 ==>
                (old(armor.shield) - armor.shield) + (old(armor.hull) - armor.hull) as real + (armor.carry - old(armor.carry)) == amount
    {
      ghost var was := armor;
      if Damage.Sound(was) && amount >= 0.0 { OneHit(was, amount); }
      if amount <= 0.0 { return; }
      var left := amount;
      if armor.shield > 0.0 {
        var absorbed := RMin(armor.shield, left);
        left := left - absorbed;
        armor := armor.(shield := armor.shield - absorbed);
        if armor.shield <= 0.0 {
          armor := armor.(shield := 0.0, burst := true);
        }
      }
      HitHull(left);
    }

    method ConsumeFuel(amount: real) returns (used: real)
      modifies this`fuel
      ensures used == Burnt(old(fuel), amount) && fuel == old(fuel) - used
    {
      if amount <= 0.0 { return 0.0; }
      used := RMin(amount, fuel);
      fuel := fuel - used;
    }

    method AddFuel(amount: real)
      modifies this`fuel
      ensures fuel == Refilled(old(fuel), r.tank, amount)
    {
      if amount > 0.0 {
        fuel := fuel + RMin(amount, RMax(0.0, r.tank - fuel));
      }
    }

    /** An event that is due makes the tick that the specification draws it in. */
    method StartEvent(kind: Kind, l: Luck, ghost dt: real)
      requires NewEvent(r, course.phase, hazards, armor.hull, l) == Some(kind)
      modifies this`hazards, this`burn, this`armor
      ensures View() == TickEvents(r, old(View()), l, dt)
    {
      hide Damage.HullHit;
      if kind.CargoShift? {
        burn := burn.(shiftMul := burn.shiftMul * r.shiftFactor);
        if course.phase.Escaping? {
          burn := burn.(base := Lengthened(r, burn.base));
        }
      } else if kind.ReactorSurge? && l.surgeHits {
        HitHull(r.surgeHit);
      }
      hazards := hazards.(active := Some(Effect(kind, Duration(r, kind))));
    }

    method TickTheEvents(l: Luck, dt: real)
      modifies this`hazards, this`burn, this`armor
      ensures View() == TickEvents(r, old(View()), l, dt)
    {
      if course.phase.Tribute? || (course.phase.Combat? && hazards.active.None?) { return; }
      if hazards.active.Some? {
        var e := hazards.active.value;
        e := e.(remaining := e.remaining - dt);
        hazards := hazards.(active := Some(e));
        if e.remaining <= 0.0 {
          if e.kind.LifeSupport? && course.phase.Mining? {
            hazards := hazards.(breached := true);
          }
          hazards := hazards.(active := None, cooldown := r.cooldown);
        }
        return;
      }
      if hazards.cooldown > 0.0 {
        hazards := hazards.(cooldown := RMax(0.0, hazards.cooldown - dt));
        return;
      }
      if armor.hull as real >= r.eventHull || l.event.None? { return; }
      StartEvent(l.event.value, l, dt);
    }

    method Drill(dt: real)
      requires r.volume > 0
      modifies this`ore, this`fuel
      ensures ore == Drilled(r, old(ore), stored, old(fuel), dt)
      ensures fuel == DrilledFuel(r, old(ore), stored, old(fuel), Is(hazards, ReactorSurge), dt)
    {
      hide Worth, Drain, Recovered;
      var remaining := Remaining(r, ore, stored);
      if remaining > 0.0 && fuel > 0.0 {
        var mined := RMin(remaining, r.mineRate * dt);
        if mined > 0.0 {
          ore := ore.(extracted := ore.extracted + mined, held := ore.held + mined);
        }
        var used := ConsumeFuel(Drain(r.drillDrain, r, Is(hazards, ReactorSurge), dt));
        AddFuel(Recovered(r, used));
      }
      ore := ore.(worth := Worth(r, ore.held));
    }

    method TickTheSkill(l: Luck, dt: real)
      modifies this`skill
      ensures skill == TickSkill(r, old(skill), ore, stored, l, dt)
    {
      if Depleted(r, ore) || CargoFull(r, ore, stored) {
        if skill.check.Some? {
          skill := skill.(points := SetStatus(skill.points, skill.check.value.point, Dormant), check := None);
        }
        return;
      }
      if skill.check.Some? {
        var c := skill.check.value;
        c := c.(elapsed := c.elapsed + dt);
        skill := skill.(check := Some(c));
        if c.elapsed >= r.checkWindow {
          skill := Skill(SetStatus(skill.points, c.point, Missed), None, l.nextCheck);
        }
        return;
      }
      var point := FindPoint();
      if point < 0 { return; }
      skill := skill.(nextIn := skill.nextIn - dt);
      if skill.nextIn > 0.0 { return; }
      skill := skill.(points := SetStatus(skill.points, point, Lit), check := Some(Check(point, 0.0)));
    }

    /** Looks for the first untouched pressure point. */
    method FindPoint() returns (n: int)
      ensures n == NextPoint(skill.points, 0)
    {
      var i := 0;
      while i < |skill.points|
        invariant i <= |skill.points| && NextPoint(skill.points, i) == NextPoint(skill.points, 0)
      {
        if skill.points[i].Dormant? { return i; }
        i := i + 1;
      }
      n := -1;
    }

    method Approach(dt: real)
      modifies this`contact
      ensures contact == TickApproach(r, TickEmp(old(contact), dt), Is(hazards, RadarBlackout), dt)
    {
      if contact.empActive {
        contact := contact.(empSeconds := contact.empSeconds - dt);
        if contact.empSeconds <= 0.0 {
          contact := contact.(empSeconds := 0.0, empActive := false);
        }
      }
      var left := dt;
      if contact.jammer > 0.0 {
        var suppressed := RMin(left, contact.jammer);
        contact := contact.(jammer := RMax(0.0, contact.jammer - suppressed));
        left := left - suppressed;
      }
      if !Is(hazards, RadarBlackout) && left > 0.0 {
        contact := contact.(distance := RMax(0.0, contact.distance - Closing(r, left)));
      }
    }

    method TickTheMining(l: Luck, dt: real)
      requires r.volume > 0
      modifies this
      ensures View() == TickMining(r, old(View()), l, dt) && ended == old(ended)
    {
      hide Drilled, DrilledFuel, TickSkill, TickApproach, TickEmp, Damage.HullHit;
      if r.instability > 0.0 {
        contact := contact.(stability := RMax(0.0, contact.stability - dt * r.instability));
        if contact.stability == 0.0 {
          armor := armor.(hull := 0);
          return;
        }
      }
      if !Is(hazards, PowerOutage) {
        Drill(dt);
        TickTheSkill(l, dt);
      }
      if hazards.breached && r.bleed > 0.0 && dt > 0.0 {
        HitHull(Dealt(r.bleed, dt));
      }
      Approach(dt);
    }

    /** Fixes the intent and starts the burn's clock afresh. */
    method ConfigureEscape(load: real)
      modifies this`burn, this`course
      ensures burn == Configured(r, old(burn), load)
      ensures course == old(course).(intent := Intended(r, old(View())))
    {
      if course.intent.None? {
        course := course.(intent := Some(if Depleted(r, ore) then Departed else Bailed));
      }
      if burn.shiftMul <= 0.0 {
        burn := burn.(shiftMul := 1.0);
      }
      burn := burn.(base := (r.baseEscape + load * r.loadPenalty) * burn.shiftMul * r.escapeMul, out := 0.0);
      burn := burn.(required := burn.base, elapsed := 0.0);
    }

    method BeginEscape(load: real)
      modifies this`burn, this`course
      ensures View() == StartEscape(r, old(View()), load)
    {
      course := course.(phase := Escaping);
      ConfigureEscape(load);
    }

    method BeginCombat(withEscape: bool, l: Luck)
      modifies this`burn, this`course
      ensures View() == StartCombat(r, old(View()), withEscape, l)
    {
      course := course.(phase := Combat, underAttack := true, fight := Some(l.pirate.(fleeing := false)));
      if withEscape {
        ConfigureEscape(l.load);
        course := course.(fight := Some(course.fight.value.(fleeing := true)));
      }
    }

    method MeetPirates(l: Luck)
      modifies this`burn, this`course, this`contact
      ensures View() == Arrival(r, old(View()), l)
    {
      if contact.distance > 0.0 || contact.empActive || contact.jammer > 0.0 { return; }
      if !contact.empDeployed && contact.launchers > 0 {
        contact := contact.(launchers := contact.launchers - 1, empDeployed := true, empActive := true, empSeconds := l.empSeconds);
        return;
      }
      if r.alwaysAttack || !l.demandsTribute {
        BeginCombat(!r.armed, l);
      } else {
        course := course.(phase := Tribute, tributeElapsed := 0.0);
      }
    }

    method BurnOn(dt: real)
      modifies this`burn, this`fuel
      ensures View() == TickBurn(r, old(View()), dt)
    {
      hide Drain, Penalty;
      burn := burn.(elapsed := burn.elapsed + dt);
      var _ := ConsumeFuel(Drain(r.escapeDrain, r, Is(hazards, ReactorSurge), dt));
      if fuel <= 0.0 {
        burn := burn.(out := burn.out + dt);
      }
      burn := burn.(required := burn.base + Penalty(r, burn.out));
    }

    method TickTheEscape(dt: real)
      modifies this`burn, this`fuel, this`armor
      ensures View() == TickEscape(r, old(View()), dt)
    {
      hide Damage.AttackHit;
      if course.underAttack && r.attackRate > 0.0 && dt > 0.0 {
        HitByPirates(Dealt(r.attackRate, dt));
      }
      BurnOn(dt);
    }

    /** One tick of the fight; a tick stops at the first thing that ends it. */
    method TickTheCombat(dt: real) returns (won: bool)
      requires course.fight.Some?
      modifies this`burn, this`fuel, this`armor, this`course
      ensures var s := TickCombat(r, old(View()), dt);
              && won == (s.armor.hull > 0 && AutocannonWins(r, old(course.fight).value, old(burn), dt))
              && View() == if won then PirateHull(s, 0.0) else s
    {
      hide Damage.AttackHit, TickBurn;
      var fight := course.fight.value;
      var wins := AutocannonWins(r, fight, burn, dt);
      var t := CombatTime(r, fight, burn, dt);
      hide CombatTime, AutocannonWins, ShotAt, Dealt;
      if t > 0.0 {
        course := course.(fight := Some(fight.(hull := ShotAt(r, fight, t))));
        if fight.dps > 0.0 {
          HitByPirates(Dealt(fight.dps, t));
        }
        if fight.fleeing {
          BurnOn(t);
        }
      }
      won := armor.hull > 0 && wins;
      if won {
        course := course.(fight := Some(course.fight.value.(hull := 0.0)));
      }
    }

    /** Advances the run by one tick: the accounts are kept and the hull is whole, or the run has ended
        for the reason it gives. */
    method TickRun(l: Luck, time: real, ghost launchers: nat)
      requires r.volume > 0 && ended.None? && (course.phase.Combat? ==> course.fight.Some?)
      modifies this
      ensures Outlook() == Tick(r, old(View()), l, time)
      ensures RulesOk(r) && LuckOk(l) && old(Inv(r, launchers, View())) ==> StepOk(r, launchers, old(View()), Outlook())
      ensures (RulesOk(r) && old(Inv(r, launchers, View()) && course.phase.Mining? && fuel > 0.0) && ended.None?
               && !Is(hazards, PowerOutage)) ==> MiningYield.Yielded(r, old(View()), View(), RMax(0.0, time))
    {
      ghost var was := View();
      Advance(l, time);
      hide Inv, StepOk, Tick, MiningYield.Yielded;
      if RulesOk(r) && LuckOk(l) && Inv(r, launchers, was) { TickOk(r, launchers, was, l, time); }
      if RulesOk(r) && Inv(r, launchers, was) && MiningYield.Productive(r, was, l, time) {
        MiningYield.TickIsYielded(r, launchers, was, l, time);
      }
    }

    method Advance(l: Luck, time: real)
      requires r.volume > 0 && ended.None? && (course.phase.Combat? ==> course.fight.Some?)
      modifies this
      ensures Outlook() == Tick(r, old(View()), l, time)
    {
      hide TickEvents, TickMining, TickTribute, TickEscape, TickCombat, Arrival, AutocannonWins;
      var dt := RMax(0.0, time);
      ticks := ticks + 1;
      EventsKeepCourse(r, View(), l, dt);
      TickTheEvents(l, dt);
      match course.phase {
        case Mining =>
          TickTheMining(l, dt);
          MeetPirates(l);
        case Tribute =>
          WaitForTribute(l, dt);
        case Escaping =>
          TickTheEscape(dt);
        case Combat =>
          var won := TickTheCombat(dt);
          if won {
            ended := Some(PirateDestroyed);
            return;
          }
      }
      if armor.hull <= 0 {
        ended := Some(ShipLost);
      } else if Burning(course) && burn.elapsed >= burn.required {
        ended := Some(EscapeKind(course));
      }
    }

    /** The demand lapses into a fight when it is not answered in time. */
    method WaitForTribute(l: Luck, dt: real)
      modifies this`burn, this`course
      ensures View() == TickTribute(r, old(View()), l, dt)
    {
      course := course.(tributeElapsed := course.tributeElapsed + dt);
      if course.tributeElapsed >= r.tributeSeconds {
        BeginCombat(true, l);
      }
    }

    method AcceptTribute(load: real)
      modifies this`burn, this`course, this`stored, this`ore
      ensures View() == Paid(r, old(View()), load)
      ensures RulesOk(r) && old(OreOk(r, ore, stored, false)) ==>
                && stored.value + ore.worth == old(stored.value + ore.worth - Asked(r, View()))
                && OreOk(r, ore, stored, true) && ore.extracted == old(ore.extracted)
                && PaidFairly(r, old(View()), View())
    {
      ghost var was := View();
      hide PaidFairly, Paid;
      if RulesOk(r) && OreOk(r, ore, stored, false) {
        PaidAccounts(r, was, load);
        TributeIsFair(r, was, load);
      }
      PayUp(load);
    }

    method PayUp(load: real)
      modifies this`burn, this`course, this`stored, this`ore
      ensures View() == Paid(r, old(View()), load)
    {
      hide Configured, CargoLedger.PortionLoss, CargoLedger.UnitsLost, Asked;
      var demand := Asked(r, View());
      var fromStored := CargoLedger.PortionLoss(demand, stored.value, stored.value + ore.worth);
      var fromRun := demand - fromStored;
      if fromRun > ore.worth {
        fromStored := fromStored + (fromRun - ore.worth);
        fromRun := ore.worth;
      }
      var storedUnits := CargoLedger.UnitsLost(stored.units, stored.value, fromStored);
      var runUnits := CargoLedger.UnitsLost(ore.held, ore.worth, fromRun);
      stored := Stored(RMax(0.0, stored.units - storedUnits), stored.value - fromStored);
      ore := ore.(worth := ore.worth - fromRun, held := RMax(0.0, ore.held - runUnits), jettisoned := ore.jettisoned + runUnits);
      course := course.(tributePaid := true);
      BeginEscape(load);
    }

    method StrikeThePoint(l: Luck)
      requires r.volume > 0 && skill.check.Some?
      modifies this`skill, this`ore
      ensures View() == Struck(r, old(View()), l)
    {
      hide Bonus, Worth;
      skill := Skill(SetStatus(skill.points, skill.check.value.point, Status.Hit), None, l.nextCheck);
      if Depleted(r, ore) || CargoFull(r, ore, stored) { return; }
      var bonus := Bonus(r, ore, stored);
      if bonus > 0.0 {
        ore := ore.(extracted := ore.extracted + bonus, held := ore.held + bonus);
        ore := ore.(worth := Worth(r, ore.held));
      }
    }

    /** A key the pilot presses: refused without a trace when the phase does not allow it, and otherwise a
        step of the run that keeps what every step keeps. */
    method Press(a: Action, l: Luck, ghost launchers: nat) returns (ok: bool)
      requires r.volume > 0 && ended.None? && (course.phase.Combat? ==> course.fight.Some?)
      modifies this
      ensures ok == Accepts(r, old(View()), a)
      ensures !ok ==> View() == old(View()) && ended.None?
      ensures ok ==> Outlook() == Act(r, old(View()), a, l)
      ensures ok && RulesOk(r) && LuckOk(l) && old(Inv(r, launchers, View()) && armor.hull > 0) ==>
                StepOk(r, launchers, old(View()), Outlook())
    {
      ghost var was := View();
      ok := Accepts(r, View(), a);
      if !ok { return; }
      hide Inv, StepOk, StartEscape, Paid, StartCombat, Struck, Configured, Intended;
      if RulesOk(r) && LuckOk(l) && Inv(r, launchers, was) && armor.hull > 0 { ActOk(r, launchers, was, a, l); }
      match a {
        case BailOrDepart => BeginEscape(l.load);
        case AcceptTribute => AcceptTribute(l.load);
        case RefuseTribute => BeginCombat(true, l);
        case Fight => BeginCombat(false, l);
        case CombatEscape =>
          if !course.fight.value.fleeing {
            ConfigureEscape(l.load);
            course := course.(fight := Some(course.fight.value.(fleeing := true)));
          }
        case StrikePoint => StrikeThePoint(l);
        case Hit(damage) => StrikePirate(damage);
      }
    }

    /** A volley or missile that struck. */
    method StrikePirate(damage: real)
      requires course.fight.Some? && ended.None?
      modifies this`course, this`ended
      ensures var f := old(course.fight).value;
              View() == PirateHull(old(View()), RMax(0.0, f.hull - damage))
              && ended == if f.hull - damage <= 0.0 then Some(PirateDestroyed) else None
    {
      var f := course.fight.value;
      course := course.(fight := Some(f.(hull := RMax(0.0, f.hull - damage))));
      if course.fight.value.hull <= 0.0 {
        ended := Some(PirateDestroyed);
      }
    }

    /** Flies an absent pilot's run on, within the budget of ticks, and to its end when n of them cover it. */
    method EmergencyResolve(luck: nat -> Luck, dt: real, ghost launchers: nat, ghost n: nat, ghost k: nat)
      requires RulesOk(r) && MiningEscape.Fair(luck) && Inv(r, launchers, View()) && armor.hull > 0 && ended.None? && dt > 0.0
      modifies this
      ensures Outlook() == MiningEscape.Live(r, MiningEscape.Abandoned(r, old(View()), luck(old(ticks))), luck, dt,
                                             MiningEscape.EMERGENCY_TICKS)
      ensures (0 < n <= MiningEscape.EMERGENCY_TICKS
               && CombatEscape.Covered(r, MiningEscape.Abandoned(r, old(View()), luck(old(ticks))), luck, dt, n, k)) ==> ended.Some?
    {
      hide Inv, MiningEscape.Live, MiningEscape.Abandoned, CombatEscape.Covered;
      if 0 < n <= MiningEscape.EMERGENCY_TICKS && CombatEscape.Covered(r, MiningEscape.Abandoned(r, View(), luck(ticks)), luck, dt, n, k) {
        CombatEscape.EmergencyResolves(r, launchers, View(), luck, dt, n, k);
      }
      FlyOn(luck, dt, launchers);
    }

    method FlyOn(luck: nat -> Luck, dt: real, ghost launchers: nat)
      requires RulesOk(r) && MiningEscape.Fair(luck) && Inv(r, launchers, View()) && armor.hull > 0 && ended.None? && dt > 0.0
      modifies this
      ensures Outlook() == MiningEscape.Live(r, MiningEscape.Abandoned(r, old(View()), luck(old(ticks))), luck, dt,
                                             MiningEscape.EMERGENCY_TICKS)
    {
      ghost var s := View();
      MiningEscape.AbandonedOk(r, launchers, s, luck(ticks));
      Abandon(luck(ticks));
      ghost var start := View();
      assert r.volume > 0;
      hide Tick, Inv, RulesOk, MiningEscape.Abandoned, MiningEscape.Live;
      var i := 0;
      while i < MiningEscape.EMERGENCY_TICKS && ended.None?
        invariant i <= MiningEscape.EMERGENCY_TICKS
        invariant ended.None? ==> Inv(r, launchers, View()) && armor.hull > 0
        invariant MiningEscape.Live(r, start, luck, dt, MiningEscape.EMERGENCY_TICKS)
                  == if ended.Some? then Outlook() else MiningEscape.Live(r, View(), luck, dt, MiningEscape.EMERGENCY_TICKS - i)
        decreases MiningEscape.EMERGENCY_TICKS - i, ended.None?
      {
        TickGoesOn(r, launchers, View(), luck(ticks), dt);
        OneTickLive(r, View(), luck, dt, MiningEscape.EMERGENCY_TICKS - i);
        Advance(luck(ticks), dt);
        i := i + 1;
      }
      if ended.None? { NoneLeft(r, View(), luck, dt); }
    }

    method Abandon(l: Luck)
      modifies this`burn, this`course
      ensures View() == MiningEscape.Abandoned(r, old(View()), l)
    {
      match course.phase {
        case Mining => BeginEscape(l.load);
        case Tribute => BeginCombat(true, l);
        case Combat =>
          if course.fight.Some? && !course.fight.value.fleeing {
            ConfigureEscape(l.load);
            course := course.(fight := Some(course.fight.value.(fleeing := true)));
          }
        case Escaping =>
      }
    }

    /** Banks the haul and leaves the remnant: what the belt keeps of the rock. What is banked fits the
        hold, and with an untouched account rock and haul are worth the asteroid to within one credit. */
    method ResolveRun(outcome: Outcome) returns (rock: Option<Rock>)
      requires r.volume > 0
      modifies this`stored
      ensures rock == Remnant(r, old(View()), outcome)
      ensures !outcome.ShipLost? ==> stored.value == old(stored.value + ore.worth) && stored.units == old(stored.units + ore.held)
      ensures outcome.ShipLost? ==> stored.value == 0 && stored.units == 0.0 && rock == None
      ensures old(OreOk(r, ore, stored, course.tributePaid)) ==> 0.0 <= stored.units && (!outcome.ShipLost? ==> stored.units <= r.capacity)
      ensures RulesOk(r) && old(OreOk(r, ore, stored, false) && WorthOk(r, ore, false)) && rock.Some? ==>
                r.value - 1 <= rock.value.value + ore.worth <= r.value + 1
    {
      if RulesOk(r) && OreOk(r, ore, stored, false) && WorthOk(r, ore, false) && Remnant(r, View(), outcome).Some? {
        ValueIsShared(r, View(), outcome);
      }
      rock := Bank(outcome);
    }

    method Bank(outcome: Outcome) returns (rock: Option<Rock>)
      requires r.volume > 0
      modifies this`stored
      ensures rock == Remnant(r, old(View()), outcome) && stored == StoredAfter(old(View()), outcome)
    {
      hide Round, LeftOver, Part;
      if outcome.ShipLost? {
        stored := Stored(0.0, 0);
        return None;
      }
      stored := Stored(stored.units + ore.held, stored.value + ore.worth);
      if outcome.Departed? && Depleted(r, ore) { return None; }
      if 1.0 - ore.extracted / r.volume as real < r.keepThreshold { return None; }
      var left := LeftOver(r, ore);
      var volume := Round(Part(r.volume, left));
      if volume < 1 {
        volume := 1;
      }
      return Some(Rock(volume, Round(Part(r.value, left))));
    }
  }

  lemma OneTickLive(r: Rules, s: State, luck: nat -> Luck, dt: real, n: nat)
    requires r.volume > 0 && n > 0 && (s.course.phase.Combat? ==> s.course.fight.Some?)
    ensures MiningEscape.Live(r, s, luck, dt, n)
            == match Tick(r, s, luck(s.ticks), dt)
               case Going(next) => MiningEscape.Live(r, next, luck, dt, n - 1)
               case Ended(last, outcome) => Ended(last, outcome)
  {}

  lemma NoneLeft(r: Rules, s: State, luck: nat -> Luck, dt: real)
    requires r.volume > 0
    ensures MiningEscape.Live(r, s, luck, dt, 0) == Going(s)
  {}

  lemma TickGoesOn(r: Rules, launchers: nat, s: State, l: Luck, dt: real)
    requires RulesOk(r) && LuckOk(l) && Inv(r, launchers, s)
    ensures s.course.phase.Combat? ==> s.course.fight.Some?
    ensures Tick(r, s, l, dt).Going? ==> Inv(r, launchers, Tick(r, s, l, dt).state) && Tick(r, s, l, dt).state.armor.hull > 0
  {
    TickIsCounted(r, launchers, s);
    TickOk(r, launchers, s, l, dt);
    hide Inv, Tick, Means;
  }

  lemma EventsKeepCourse(r: Rules, s: State, l: Luck, dt: real)
    ensures TickEvents(r, s, l, dt).course == s.course
  {}
}
