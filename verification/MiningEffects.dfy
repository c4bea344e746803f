/** What ticks and keys come to, in seconds, units and points: events and their course, the pressure points,
    the contact's approach, what a meeting with pirates leads to, and what a burn costs. */
module MiningEffects {
  import opened Wrappers
  import opened Numbers
  import opened MiningRun
  import opened MiningSafety
  import opened MiningEscape
  import Damage
  import CargoLedger

  // ---------------------------------------------------------------- events

  /** An event comes exactly when one is drawn while none is active or cooling down, on a hull below the
      gate, and outside tributes and fights; and then for its own time. */
  lemma EventsComeWhenDue(r: Rules, phase: Phase, h: Hazards, hull: int, l: Luck, dt: real)
    requires h.active.None?
    ensures var after := TickHazards(r, phase, h, hull, l, dt).active;
            && (after.Some? <==> (phase.Mining? || phase.Escaping?) && h.cooldown <= 0.0 && hull as real < r.eventHull && l.event.Some?)
            && (after.Some? ==> after.value.kind == l.event.value)
            && (after.Some? ==> after.value.remaining == match after.value.kind
                                                         case PowerOutage => r.outageSeconds
                                                         case RadarBlackout => r.blackoutSeconds
                                                         case LifeSupport => r.supportSeconds
                                                         case CargoShift => r.shiftSeconds
                                                         case ReactorSurge => r.surgeSeconds)
  {}

  /** Events and cooldowns wait while a tribute is decided, and cooldowns while a fight lasts. */
  lemma EventsPause(r: Rules, phase: Phase, h: Hazards, hull: int, l: Luck, dt: real)
    requires phase.Tribute? || (phase.Combat? && h.active.None?)
    ensures TickHazards(r, phase, h, hull, l, dt) == h && (h.active.None? ==> NewEvent(r, phase, h, hull, l).None?)
  {}

  function HazardsAfter(r: Rules, phase: Phase, h: Hazards, hull: int, l: Luck, dt: real, n: nat): Hazards
    decreases n
  {
    if n == 0 then h else HazardsAfter(r, phase, TickHazards(r, phase, h, hull, l, dt), hull, l, dt, n - 1)
  }

  /** An event lasts for its time, however that is cut into ticks; life support that is not mended while
      mining is broken when it is over, and then nothing happens for the cooldown. */
  lemma {:induction false} EventsRunTheirCourse(r: Rules, phase: Phase, h: Hazards, hull: int, l: Luck, dt: real, n: nat)
    requires h.active.Some? && h.active.value.remaining > 0.0 && !phase.Tribute? && dt > 0.0
    ensures var after, e := HazardsAfter(r, phase, h, hull, l, dt, n), h.active.value;
            && (Time(n, dt) < e.remaining ==> after == h.(active := Some(e.(remaining := e.remaining - Time(n, dt)))))
            && (n > 0 && Time(n - 1, dt) < e.remaining <= Time(n, dt) ==>
                  after == Hazards(None, r.cooldown, h.breached || (e.kind.LifeSupport? && phase.Mining?)))
    decreases n
  {
    hide Time;
    TimeSplits(1, dt);
    if n > 0 {
      TimeSplits(n, dt);
      TimePositive(n - 1, dt);
      var next := TickHazards(r, phase, h, hull, l, dt);
      if n > 1 {
        TimeSplits(n - 1, dt);
        TimePositive(n - 2, dt);
      }
      if next.active.Some? { EventsRunTheirCourse(r, phase, next, hull, l, dt, n - 1); }
    }
  }

  lemma {:induction false} CooldownsRunOut(r: Rules, phase: Phase, h: Hazards, hull: int, l: Luck, dt: real, n: nat)
    requires h.active.None? && (phase.Mining? || phase.Escaping?) && dt > 0.0
    requires n > 0 ==> Time(n - 1, dt) < h.cooldown
    ensures HazardsAfter(r, phase, h, hull, l, dt, n) == h.(cooldown := if n == 0 then h.cooldown else RMax(0.0, h.cooldown - Time(n, dt)))
    decreases n
  {
    hide Time;
    TimeSplits(1, dt);
    if n > 0 {
      TimeSplits(n, dt);
      TimePositive(n - 1, dt);
      if n > 1 {
        TimeSplits(n - 1, dt);
        TimePositive(n - 2, dt);
        CooldownsRunOut(r, phase, TickHazards(r, phase, h, hull, l, dt), hull, l, dt, n - 1);
      }
    }
  }

  /** A shift makes an escape under way, and every later one, longer by its factor; nothing else does. */
  lemma ShiftsLengthen(r: Rules, s: State, l: Luck, dt: real)
    ensures var b, after := s.burn, TickEvents(r, s, l, dt).burn;
            && after.elapsed == b.elapsed && after.out == b.out && after.required == b.required
            && (if Shifts(r, s, l) then after.shiftMul == b.shiftMul * r.shiftFactor else after.shiftMul == b.shiftMul)
            && (if Shifts(r, s, l) && s.course.phase.Escaping? then after.base == b.base * r.shiftFactor else after.base == b.base)
  {}

  /** An outage stops the drill and the pressure points, a blackout hides the approach. */
  lemma OutagesStopWork(r: Rules, s: State, l: Luck, dt: real)
    requires r.volume > 0
    ensures var after := TickMining(r, s, l, dt);
            && (Is(s.hazards, PowerOutage) ==> after.ore == s.ore && after.fuel == s.fuel && after.skill == s.skill)
            && (Is(s.hazards, RadarBlackout) ==> after.contact.distance == s.contact.distance)
  {
    hide Drilled, DrilledFuel, TickSkill, Bled;
  }

  // ---------------------------------------------------------------- fuel

  predicate Surging(s: State) { Is(s.hazards, ReactorSurge) }

  /** What a burner that asks for so much a second drinks in t seconds, with the tank and a surge. */
  function Drunk(r: Rules, s: State, perSecond: real, t: real): real {
    RMax(0.0, RMin(s.fuel, perSecond * (if Surging(s) then r.surgeMul else 1.0) * t))
  }

  /** The drill drinks while it drills, and a fuel vein gives its part of that back, up to the tank. */
  lemma DrillingDrinks(r: Rules, s: State, dt: real)
    requires RulesOk(r) && 0.0 <= s.fuel <= r.tank && dt >= 0.0
    ensures var used := Drunk(r, s, r.drillDrain, dt);
            DrilledFuel(r, s.ore, s.stored, s.fuel, Surging(s), dt)
            == if s.fuel > 0.0 && s.ore.extracted < r.volume as real && s.ore.held < Room(r, s.stored)
               then RMin(r.tank, s.fuel - used + used * r.recovery) else s.fuel
  {
    var used := Drunk(r, s, r.drillDrain, dt);
    DrinksAre(r, s, r.drillDrain, dt);
    hide Drunk, Drain, Burnt, DrilledFuel;
    DrillBill(r, s, dt, used);
    ReturnIs(r, used);
  }

  lemma ReturnIs(r: Rules, used: real)
    requires used >= 0.0 && r.recovery >= 0.0
    ensures Recovered(r, used) == used * r.recovery >= 0.0
  {}

  lemma DrillBill(r: Rules, s: State, dt: real, used: real)
    requires r.recovery >= 0.0 && 0.0 <= used <= s.fuel <= r.tank && used == Burnt(s.fuel, Drain(r.drillDrain, r, Surging(s), dt))
    ensures DrilledFuel(r, s.ore, s.stored, s.fuel, Surging(s), dt)
            == if s.fuel > 0.0 && s.ore.extracted < r.volume as real && s.ore.held < Room(r, s.stored)
               then RMin(r.tank, s.fuel - used + Recovered(r, used)) else s.fuel
  {
    ReturnIs(r, used);
    hide Recovered, Drain, Burnt;
  }

  lemma DrinksAre(r: Rules, s: State, perSecond: real, t: real)
    requires perSecond >= 0.0 && r.surgeMul >= 0.0 && s.fuel >= 0.0 && t >= 0.0
    ensures Burnt(s.fuel, Drain(perSecond, r, Surging(s), t)) == Drunk(r, s, perSecond, t)
    ensures 0.0 <= Drunk(r, s, perSecond, t) <= s.fuel
  {
    var rate := if Surging(s) then perSecond * r.surgeMul else perSecond;
    assert rate >= 0.0;
    assert rate * t >= 0.0;
    assert perSecond * (if Surging(s) then r.surgeMul else 1.0) * t == rate * t;
  }

  /** A burn drinks too; while the tank is empty the time counts towards the penalty. */
  lemma BurningDrinks(r: Rules, s: State, t: real)
    requires RulesOk(r) && r.escapeDrain >= 0.0 && s.fuel >= 0.0 && t >= 0.0
    ensures var after := TickBurn(r, s, t);
            && after.fuel == s.fuel - Drunk(r, s, r.escapeDrain, t)
            && after.burn.elapsed == s.burn.elapsed + t
            && after.burn.out == (if after.fuel <= 0.0 then s.burn.out + t else s.burn.out)
            && after.burn.required == s.burn.base + RMin(after.burn.out * r.outRate, r.outCap)
  {
    DrinksAre(r, s, r.escapeDrain, t);
    hide Drain, Drunk, Burnt;
  }

  // ---------------------------------------------------------------- pressure points

  function SkillAfter(r: Rules, skill: Skill, ore: Ore, stored: Stored, l: Luck, dt: real, n: nat): Skill
    decreases n
  {
    if n == 0 then skill else SkillAfter(r, TickSkill(r, skill, ore, stored, l, dt), ore, stored, l, dt, n - 1)
  }

  predicate Workable(r: Rules, ore: Ore, stored: Stored) { ore.extracted < r.volume as real && ore.held < Room(r, stored) }

  predicate FirstDormant(points: seq<Status>, i: nat) {
    i < |points| && points[i].Dormant? && forall j :: 0 <= j < i ==> !points[j].Dormant?
  }

  lemma {:induction false} FirstIsNext(points: seq<Status>, i: nat, j: nat)
    requires FirstDormant(points, i) && j <= i
    ensures NextPoint(points, j) == i
    decreases i - j
  {
    if j < i { FirstIsNext(points, i, j + 1); }
  }

  /** While there is ore to mine and none is lit, the first untouched point lights up when its time has
      come, and not before. */
  lemma {:induction false} PointsLightUp(r: Rules, skill: Skill, ore: Ore, stored: Stored, l: Luck, dt: real, n: nat, i: nat)
    requires Workable(r, ore, stored) && skill.check.None? && FirstDormant(skill.points, i) && dt > 0.0 && skill.nextIn > 0.0
    ensures var after := SkillAfter(r, skill, ore, stored, l, dt, n);
            && (Time(n, dt) < skill.nextIn ==> after == skill.(nextIn := skill.nextIn - Time(n, dt)))
            && (n > 0 && Time(n - 1, dt) < skill.nextIn <= Time(n, dt) ==>
                  after.points == skill.points[i := Lit] && after.check == Some(Check(i, 0.0)))
    decreases n
  {
    hide Time, NextPoint;
    TimeSplits(1, dt);
    FirstIsNext(skill.points, i, 0);
    if n > 0 {
      TimeSplits(n, dt);
      TimePositive(n - 1, dt);
      if n > 1 {
        TimeSplits(n - 1, dt);
        TimePositive(n - 2, dt);
      }
      if skill.nextIn - dt > 0.0 { PointsLightUp(r, TickSkill(r, skill, ore, stored, l, dt), ore, stored, l, dt, n - 1, i); }
    }
  }

  /** A lit point that nobody strikes is missed when its window is over, and not before. */
  lemma {:induction false} PointsAreMissed(r: Rules, skill: Skill, ore: Ore, stored: Stored, l: Luck, dt: real, n: nat)
    requires Workable(r, ore, stored) && skill.check.Some? && skill.check.value.point < |skill.points| && dt > 0.0
    requires skill.check.value.elapsed < r.checkWindow
    ensures var after, c := SkillAfter(r, skill, ore, stored, l, dt, n), skill.check.value;
            && (c.elapsed + Time(n, dt) < r.checkWindow ==> after == skill.(check := Some(c.(elapsed := c.elapsed + Time(n, dt)))))
            && (n > 0 && c.elapsed + Time(n - 1, dt) < r.checkWindow <= c.elapsed + Time(n, dt) ==>
                  after == Skill(skill.points[c.point := Missed], None, l.nextCheck))
    decreases n
  {
    hide Time;
    TimeSplits(1, dt);
    if n > 0 {
      TimeSplits(n, dt);
      TimePositive(n - 1, dt);
      if n > 1 {
        TimeSplits(n - 1, dt);
        TimePositive(n - 2, dt);
      }
      if skill.check.value.elapsed + dt < r.checkWindow {
        PointsAreMissed(r, TickSkill(r, skill, ore, stored, l, dt), ore, stored, l, dt, n - 1);
      }
    }
  }

  /** Once there is no more to mine a lit point goes out unspent, and without any left nothing lights up. */
  lemma PointsGoOut(r: Rules, skill: Skill, ore: Ore, stored: Stored, l: Luck, dt: real)
    requires skill.check.Some? ==> skill.check.value.point < |skill.points|
    ensures var after := TickSkill(r, skill, ore, stored, l, dt);
            && (!Workable(r, ore, stored) ==>
                  after == (if skill.check.Some? then Skill(skill.points[skill.check.value.point := Dormant], None, skill.nextIn) else skill))
            && (skill.check.None? && Dormant !in skill.points ==> after == skill)
  {
    if NextPoint(skill.points, 0) >= 0 { assert skill.points[NextPoint(skill.points, 0)] == Dormant; }
  }

  /** A struck point pays its percentage of what rock and hold still allow, and counts as hit. */
  lemma StrikesPay(r: Rules, s: State, l: Luck)
    requires RulesOk(r) && OreOk(r, s.ore, s.stored, false) && s.course.phase.Mining?
    requires s.skill.check.Some? && s.skill.check.value.point < |s.skill.points|
    ensures Act(r, s, StrikePoint, l).Going?
    ensures var after := Act(r, s, StrikePoint, l).state;
            var bonus := r.bonusPct * RMin(r.volume as real - s.ore.extracted, r.capacity - s.stored.units - s.ore.held);
            && after.ore.extracted == s.ore.extracted + bonus && after.ore.held == s.ore.held + bonus
            && after.skill == Skill(s.skill.points[s.skill.check.value.point := Status.Hit], None, l.nextCheck)
            && after == s.(ore := after.ore, skill := after.skill)
  {
    hide Worth;
    var left := RMin(r.volume as real - s.ore.extracted, r.capacity - s.stored.units - s.ore.held);
    assert left >= 0.0 && Reachable(r, s.ore, s.stored) == left;
    hide Reachable;
    assert left * r.bonusPct >= 0.0;
    if left > 0.0 { assert left * r.bonusPct > 0.0; }
  }

  // ---------------------------------------------------------------- the contact

  /** The contact comes nearer by its speed for the time that no jammer holds it, and no nearer than here. */
  lemma ContactsApproach(r: Rules, c: Contact, dt: real)
    requires dt >= 0.0 && c.jammer >= 0.0 && c.distance >= 0.0 && r.approach >= 0.0
    ensures var after := TickApproach(r, c, false, dt);
            && after.distance == RMax(0.0, c.distance - r.approach * RMax(0.0, dt - c.jammer))
            && after.jammer == RMax(0.0, c.jammer - dt)
            && TickApproach(r, c, true, dt) == after.(distance := c.distance)
  {}

  /** A jammed reactor comes back when its time is over; a belt falls in when its stability is used up. */
  lemma CountdownsEnd(r: Rules, s: State, l: Luck, dt: real)
    requires r.volume > 0 && dt >= 0.0
    ensures var c := TickEmp(s.contact, dt);
            s.contact.empActive ==> (c.empActive <==> s.contact.empSeconds > dt) && c.empSeconds == RMax(0.0, s.contact.empSeconds - dt)
    ensures r.instability > 0.0 ==> TickMining(r, s, l, dt).contact.stability == RMax(0.0, s.contact.stability - dt * r.instability)
    ensures r.instability > 0.0 && s.contact.stability <= dt * r.instability ==> TickMining(r, s, l, dt).armor.hull == 0
    ensures r.instability <= 0.0 ==> TickMining(r, s, l, dt).contact.stability == s.contact.stability
  {
    hide Drilled, DrilledFuel, TickSkill, Bled, Closing;
  }

  // ---------------------------------------------------------------- meetings

  predicate Met(c: Contact) { c.distance <= 0.0 && !c.empActive && c.jammer <= 0.0 }

  /** Pirates who have arrived are first met with a loaded EMP, once; then they demand a tribute, or they
      attack, at once where they always do. An unarmed ship runs from an attack, an armed one stands. */
  lemma MeetingsLead(r: Rules, s: State, l: Luck)
    requires s.course.phase.Mining?
    ensures var after := Arrival(r, s, l);
            var emp := !s.contact.empDeployed && s.contact.launchers > 0;
            var attack := r.alwaysAttack || !l.demandsTribute;
            && (after.course.phase.Mining? <==> !Met(s.contact) || emp)
            && (after.course.phase.Tribute? <==> Met(s.contact) && !emp && !attack)
            && (after.course.phase.Combat? <==> Met(s.contact) && !emp && attack)
            && (!Met(s.contact) ==> after == s)
            && (Met(s.contact) && emp ==> after == s.(contact := s.contact.(empDeployed := true, empActive := true,
                                                       empSeconds := l.empSeconds, launchers := s.contact.launchers - 1)))
            && (after.course.phase.Tribute? ==> after.course.tributeElapsed == 0.0 && after.burn == s.burn)
            && (after.course.phase.Combat? ==> Fighting(r, s, after, l, !r.armed))
  {}

  /** A fight begins with the drawn pirate, and with the burn running or not. */
  predicate Fighting(r: Rules, s: State, after: State, l: Luck, fleeing: bool) {
    && after.course.phase.Combat? && after.course.underAttack && after.course.fight == Some(l.pirate.(fleeing := fleeing))
    && (if fleeing then Started(r, s, after, l.load) else after.burn == s.burn && after.course.intent == s.course.intent)
    && after == s.(course := after.course, burn := after.burn)
  }

  /** A burn starts afresh: its time grows from the base with the load, by the thrusters and by the cargo
      shifts so far; and it leaves as departed or bailed by whether the rock is exhausted. */
  predicate Started(r: Rules, s: State, after: State, load: real) {
    && after.burn.base == (r.baseEscape + load * r.loadPenalty) * (if s.burn.shiftMul <= 0.0 then 1.0 else s.burn.shiftMul) * r.escapeMul
    && after.burn.required == after.burn.base && after.burn.elapsed == 0.0 && after.burn.out == 0.0
    && (s.course.intent.None? ==>
          after.course.intent == Some(if s.ore.extracted >= r.volume as real then Departed else Bailed))
  }

  /** What each key does. */
  lemma KeysDo(r: Rules, s: State, l: Luck)
    requires r.volume > 0
    ensures s.course.phase.Mining? ==>
              Act(r, s, BailOrDepart, l).Going? && Leaving(r, s, Act(r, s, BailOrDepart, l).state, l.load)
    ensures s.course.phase.Tribute? ==>
              Act(r, s, RefuseTribute, l).Going? && Fighting(r, s, Act(r, s, RefuseTribute, l).state, l, true)
    ensures s.course.phase.Tribute? && r.armed ==>
              Act(r, s, Action.Fight, l).Going? && Fighting(r, s, Act(r, s, Action.Fight, l).state, l, false)
    ensures s.course.phase.Combat? && s.course.fight.Some? && !s.course.fight.value.fleeing ==>
              Act(r, s, CombatEscape, l).Going? &&
              var after := Act(r, s, CombatEscape, l).state;
              Started(r, s, after, l.load) && after.course.fight == Some(s.course.fight.value.(fleeing := true))
              && after == s.(course := after.course, burn := after.burn) && after.course.phase.Combat?
  {}

  /** A tribute that is accepted is paid, fairly, and the ship leaves with what it has left aboard. */
  lemma TributesArePaid(r: Rules, s: State, l: Luck)
    requires RulesOk(r) && OreOk(r, s.ore, s.stored, false) && s.course.phase.Tribute?
    ensures Act(r, s, AcceptTribute, l).Going?
    ensures var after := Act(r, s, AcceptTribute, l).state;
            && PaidFairly(r, s, after) && after.course.tributePaid && after.course.phase.Escaping?
            && Started(r, s, after, l.load) && after == s.(ore := after.ore, stored := after.stored, course := after.course, burn := after.burn)
  {
    TributeIsFair(r, s, l.load);
    PaidStarts(r, s, l.load);
    hide PaidFairly, Started, OreOk, RulesOk, StoredShare, Asked, CargoLedger.UnitsLost, Configured, Intended;
  }

  lemma PaidStarts(r: Rules, s: State, load: real)
    ensures Started(r, s, Paid(r, s, load), load)
  {
    hide StoredShare, Asked, CargoLedger.UnitsLost;
  }

  predicate Leaving(r: Rules, s: State, after: State, load: real) {
    after.course.phase.Escaping? && Started(r, s, after, load) && after == s.(course := after.course, burn := after.burn)
  }

  /** A hit takes its damage off the pirate, and the one that uses up the hull wins. */
  lemma HitsTell(r: Rules, s: State, damage: real, l: Luck)
    requires r.volume > 0 && s.course.fight.Some? && Accepts(r, s, Action.Hit(damage))
    ensures var res, f := Act(r, s, Action.Hit(damage), l), s.course.fight.value;
            && res.state == s.(course := s.course.(fight := Some(f.(hull := RMax(0.0, f.hull - damage)))))
            && (res.Ended? <==> f.hull <= damage) && (res.Ended? ==> res.outcome.PirateDestroyed?)
  {}

  /** A fuller hold never gets away faster, an empty one in the base time, a full one in that and the
      whole penalty, each times thrusters and shifts. */
  lemma LoadsSlow(r: Rules, b: Burn, load: real, more: real)
    requires RulesOk(r) && b.shiftMul >= 1.0 && 0.0 <= load <= more <= 1.0
    ensures Configured(r, b, load).base <= Configured(r, b, more).base
    ensures Configured(r, b, 0.0).base == r.baseEscape * b.shiftMul * r.escapeMul
    ensures Configured(r, b, 1.0).base == (r.baseEscape + r.loadPenalty) * b.shiftMul * r.escapeMul
  {
    var x, y := r.baseEscape + load * r.loadPenalty, r.baseEscape + more * r.loadPenalty;
    Scaled(load, more, r.loadPenalty);
    Scaled(x, y, b.shiftMul);
    Scaled(x * b.shiftMul, y * b.shiftMul, r.escapeMul);
  }

  lemma Scaled(x: real, y: real, k: real)
    requires k >= 0.0 && x <= y
    ensures x * k <= y * k
  {
    assert (y - x) * k >= 0.0;
  }

  // ---------------------------------------------------------------- combat

  /** A tick of a fight is cut to the first thing that ends it; for that long the autocannon wears down the
      pirate, and the burn, if there is one, burns. */
  lemma FightsGoOn(r: Rules, s: State, dt: real)
    requires s.course.phase.Combat? && s.course.fight.Some? && dt > 0.0 && r.autocannon >= 0.0 && s.course.fight.value.hull > 0.0
    requires s.course.fight.value.fleeing ==> s.burn.required > s.burn.elapsed
    ensures var f, after := s.course.fight.value, TickCombat(r, s, dt);
            var t := CombatTime(r, f, s.burn, dt);
            && 0.0 < t <= dt && (f.fleeing ==> t <= s.burn.required - s.burn.elapsed) && (r.autocannon > 0.0 ==> t <= f.hull / r.autocannon)
            && (t == dt || (f.fleeing && t == s.burn.required - s.burn.elapsed) || (r.autocannon > 0.0 && t == f.hull / r.autocannon))
            && after.course == s.course.(fight := Some(f.(hull := RMax(0.0, f.hull - r.autocannon * t))))
            && (if f.fleeing then after.burn == TickBurn(r, s, t).burn && after.fuel == TickBurn(r, s, t).fuel
                else after.burn == s.burn && after.fuel == s.fuel)
            && (AutocannonWins(r, f, s.burn, dt) <==> r.autocannon > 0.0 && t == f.hull / r.autocannon)
  {
    var f := s.course.fight.value;
    var t := CombatTime(r, f, s.burn, dt);
    if r.autocannon > 0.0 { Positive(f.hull, r.autocannon); }
    assert r.autocannon == 0.0 ==> r.autocannon * t == 0.0;
    assert ShotAt(r, f, t) == RMax(0.0, f.hull - r.autocannon * t);
    hide BurnTick, Damage.AttackHit, ShotAt;
  }

  lemma Positive(x: real, k: real)
    requires x > 0.0 && k > 0.0
    ensures x / k > 0.0
  {}
}
