/** How the parts of a tick come together: what a quiet run comes to over any number of ticks, and when it
    is quiet no longer. */
module MiningTicks {
  import opened Wrappers
  import opened Numbers
  import opened MiningRun
  import opened MiningSafety
  import opened MiningEscape
  import opened MiningEffects
  import Damage

  /** Every tick of any phase runs its events, and a surge that strikes with them, before anything else. */
  lemma EventsComeFirst(r: Rules, s: State, l: Luck, time: real)
    requires r.volume > 0 && (s.course.phase.Combat? ==> s.course.fight.Some?)
    ensures var end := Tick(r, s, l, time).state;
            && end.ticks == s.ticks + 1 && end.stored == s.stored
            && end.hazards == TickHazards(r, s.course.phase, s.hazards, s.armor.hull, l, RMax(0.0, time))
  {
    hide TickHazards, TickShift, TickSurge, Drilled, DrilledFuel, TickSkill, TickApproach, TickEmp, Bled, BurnTick, Shelled, CombatTime,
      AutocannonWins, Configured, Damage.AttackHit;
  }

  /** A tribute that is not answered in time is refused; until then nothing happens but the waiting. */
  lemma DemandsLapse(r: Rules, s: State, l: Luck, time: real)
    requires r.volume > 0 && s.course.phase.Tribute? && s.armor.hull > 0
    ensures var waited := s.(ticks := s.ticks + 1, course := s.course.(tributeElapsed := s.course.tributeElapsed + RMax(0.0, time)));
            var lapsed := waited.course.tributeElapsed >= r.tributeSeconds;
            && Tick(r, s, l, time).state.armor == s.armor
            && (!lapsed ==> Tick(r, s, l, time) == Going(waited))
            && (lapsed ==> Fighting(r, waited, Tick(r, s, l, time).state, l, true))
  {
    hide Configured;
    var dt := RMax(0.0, time);
    EventsPause(r, s.course.phase, s.hazards, s.armor.hull, l, dt);
    assert Refused(r, s, l) == StartCombat(r, s, true, l);
    KeysDo(r, s.(course := s.course.(tributeElapsed := s.course.tributeElapsed + dt), ticks := s.ticks + 1), l);
  }

  /** After its events a tick does the work of its phase: the drill and the pressure points while mining, the
      burn in an escape, and in a fight whatever the fight leaves time for. */
  lemma TicksWork(r: Rules, s: State, l: Luck, time: real)
    requires r.volume > 0 && (s.course.phase.Combat? ==> s.course.fight.Some?)
    ensures var end, dt := Tick(r, s, l, time).state, RMax(0.0, time);
            var e := TickEvents(r, s.(ticks := s.ticks + 1), l, dt);
            && (s.course.phase.Mining? && !Is(e.hazards, PowerOutage) && !Collapses(r, e.contact, dt) ==>
                  && end.fuel == DrilledFuel(r, s.ore, s.stored, s.fuel, Surging(e), dt)
                  && end.skill == TickSkill(r, s.skill, end.ore, s.stored, l, dt))
            && (s.course.phase.Escaping? ==> end.burn == TickBurn(r, e, dt).burn && end.fuel == TickBurn(r, e, dt).fuel)
            && (s.course.phase.Combat? ==> end.burn == TickCombat(r, e, dt).burn && end.fuel == TickCombat(r, e, dt).fuel)
  {
    hide TickHazards, TickShift, TickSurge, Drilled, DrilledFuel, TickSkill, TickApproach, TickEmp, Bled, Shelled, CombatTime, ShotAt,
      AutocannonWins, Configured, Damage.AttackHit, Burnt, Drain, Penalty;
  }

  // ---------------------------------------------------------------- quiet runs

  /** Mining with nothing going on: no event, whole life support, a stable belt, no EMP at work. */
  predicate Quiet(r: Rules, s: State) {
    && s.course.phase.Mining? && s.hazards.active.None? && !s.hazards.breached && r.instability <= 0.0
    && !s.contact.empActive && s.armor.hull > 0
  }

  ghost predicate Uneventful(luck: nat -> Luck) { forall i: nat {:trigger luck(i)} :: luck(i).event.None? }

  /** How near the contact comes in some time; a jammer holds it for as long as it lasts. */
  function Neared(r: Rules, c: Contact, t: real): real { r.approach * RMax(0.0, t - c.jammer) }

  /** One quiet tick brings the contact nearer and changes nothing else about it, until it is here. */
  lemma QuietTick(r: Rules, s: State, l: Luck, dt: real)
    requires r.volume > 0 && Quiet(r, s) && l.event.None? && dt > 0.0
    requires r.approach >= 0.0 && s.contact.jammer >= 0.0 && s.contact.distance > Neared(r, s.contact, dt)
    ensures Tick(r, s, l, dt).Going?
    ensures var next := Tick(r, s, l, dt).state;
            && Quiet(r, next) && next.course == s.course && next.burn == s.burn && next.armor == s.armor && next.stored == s.stored
            && next.contact == s.contact.(jammer := RMax(0.0, s.contact.jammer - dt), distance := s.contact.distance - Neared(r, s.contact, dt))
            && next.hazards == s.hazards.(cooldown := if s.hazards.cooldown > 0.0 then RMax(0.0, s.hazards.cooldown - dt) else s.hazards.cooldown)
            && next.ticks == s.ticks + 1
  {
    ContactsApproach(r, s.contact, dt);
    assert Neared(r, s.contact, dt) >= 0.0;
    hide Drilled, DrilledFuel, TickSkill, TickApproach, Neared, Damage.HullHit;
  }

  /** The jammer's time is used up once, however the time is cut. */
  lemma NearedAdds(r: Rules, c: Contact, dt: real, more: real)
    requires c.jammer >= 0.0 && dt >= 0.0 && more >= 0.0 && r.approach >= 0.0
    ensures Neared(r, c, dt + more) == Neared(r, c, dt) + Neared(r, c.(jammer := RMax(0.0, c.jammer - dt)), more)
    ensures Neared(r, c, dt) >= 0.0 && Neared(r, c, more) >= 0.0
  {
    var x, y := RMax(0.0, dt - c.jammer), RMax(0.0, more - RMax(0.0, c.jammer - dt));
    assert RMax(0.0, dt + more - c.jammer) == x + y;
    Spreads(r.approach, x, y);
    Spreads(r.approach, RMax(0.0, more - c.jammer), 0.0);
  }

  lemma Spreads(k: real, x: real, y: real)
    requires k >= 0.0 && x >= 0.0 && y >= 0.0
    ensures k * (x + y) == k * x + k * y && k * x >= 0.0 && k * y >= 0.0
  {}

  /** A quiet run goes on, unharmed, for as long as the contact is away, and after any number of ticks the
      contact is nearer by its speed times the time that the jammer did not hold it. */
  lemma {:induction false} QuietRunsGoOn(r: Rules, s: State, luck: nat -> Luck, dt: real, n: nat)
    requires r.volume > 0 && Quiet(r, s) && Uneventful(luck) && dt > 0.0
    requires r.approach >= 0.0 && s.contact.jammer >= 0.0 && s.contact.distance > Neared(r, s.contact, Time(n, dt))
    ensures var res := Live(r, s, luck, dt, n);
            && res.Going? && Quiet(r, res.state) && res.state.armor == s.armor && res.state.course == s.course
            && res.state.contact.distance == s.contact.distance - Neared(r, s.contact, Time(n, dt))
            && res.state.contact.jammer == RMax(0.0, s.contact.jammer - Time(n, dt))
            && res.state.ticks == s.ticks + n
    decreases n
  {
    if n == 0 {
      Standing(r, s.contact, dt);
    } else {
      TimeSplits(n, dt);
      TimePositive(n - 1, dt);
      var rest := Time(n - 1, dt);
      NearedAdds(r, s.contact, dt, rest);
      var later := s.contact.(jammer := RMax(0.0, s.contact.jammer - dt));
      NearedAdds(r, later, rest, 0.0);
      assert luck(s.ticks).event.None?;
      QuietTick(r, s, luck(s.ticks), dt);
      hide Neared, Tick, Quiet, Time, Uneventful;
      var next := Tick(r, s, luck(s.ticks), dt).state;
      SameNeared(r, later, next.contact, rest);
      QuietRunsGoOn(r, next, luck, dt, n - 1);
    }
  }

  lemma Standing(r: Rules, c: Contact, dt: real)
    requires c.jammer >= 0.0
    ensures Neared(r, c, Time(0, dt)) == 0.0 && Time(0, dt) == 0.0
  {}

  lemma SameNeared(r: Rules, c: Contact, e: Contact, t: real)
    requires c.jammer == e.jammer
    ensures Neared(r, c, t) == Neared(r, e, t)
  {}

  /** And the tick that brings it here is met: with the EMP, with a demand, or with a fight. */
  lemma QuietRunsAreMet(r: Rules, s: State, l: Luck, dt: real)
    requires r.volume > 0 && Quiet(r, s) && l.event.None? && dt > 0.0
    requires r.approach >= 0.0 && 0.0 <= s.contact.jammer <= dt && 0.0 <= s.contact.distance <= Neared(r, s.contact, dt)
    ensures var next := Tick(r, s, l, dt).state;
            var emp := !s.contact.empDeployed && s.contact.launchers > 0;
            var attack := r.alwaysAttack || !l.demandsTribute;
            && next.contact.distance == 0.0 && next.armor == s.armor
            && (emp ==> next.course.phase.Mining? && next.contact.empActive && next.contact.launchers == s.contact.launchers - 1)
            && (!emp && !attack ==> next.course.phase.Tribute?)
            && (!emp && attack ==> next.course.phase.Combat? && next.course.fight == Some(l.pirate.(fleeing := !r.armed)))
  {
    ContactsApproach(r, s.contact, dt);
    hide Drilled, DrilledFuel, TickSkill, TickApproach, Neared, Damage.HullHit, Configured;
  }
}
