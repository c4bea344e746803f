/** What a whole run does to the ship: every point that the shield, the hull and the carried fraction are
    short of at its end was dealt by some tick, and nothing that was dealt is missing. */
module MiningDamage {
  import opened Wrappers
  import opened Numbers
  import opened MiningRun
  import opened Damage

  /** A reactor surge may strike the hull at once. */
  function SurgeHits(r: Rules, s: State, l: Luck): seq<Hit> {
    if NewEvent(r, s.course.phase, s.hazards, s.armor.hull, l) == Some(ReactorSurge) && l.surgeHits then [Direct(r.surgeHit)] else []
  }

  /** Broken life support while mining, and the pirate's fire for as long as the tick of the fight lasts. */
  function PhaseHits(r: Rules, s: State, dt: real): seq<Hit>
    requires s.course.phase.Combat? ==> s.course.fight.Some?
  {
    match s.course.phase
    case Mining => if s.hazards.breached && r.bleed > 0.0 && dt > 0.0 then [Direct(Dealt(r.bleed, dt))] else []
    case Tribute => []
    case Escaping => if s.course.underAttack && r.attackRate > 0.0 && dt > 0.0 then [Attack(Dealt(r.attackRate, dt))] else []
    case Combat =>
      var f := s.course.fight.value;
      var t := CombatTime(r, f, s.burn, dt);
      if t > 0.0 && f.dps > 0.0 then [Attack(Dealt(f.dps, t))] else []
  }

  function TickHits(r: Rules, s: State, l: Luck, time: real): seq<Hit>
    requires s.course.phase.Combat? ==> s.course.fight.Some?
  {
    var dt := RMax(0.0, time);
    SurgeHits(r, s, l) + PhaseHits(r, TickEvents(r, s.(ticks := s.ticks + 1), l, dt), dt)
  }

  function RunHits(r: Rules, s: State, steps: seq<Step>): seq<Hit>
    requires r.volume > 0 && Legal(r, s, steps)
    decreases |steps|
  {
    if steps == [] then []
    else
      var next := Do(r, s, steps[0]);
      (if steps[0].Ticks? then TickHits(r, s, steps[0].luck, steps[0].time) else [])
      + (if next.Going? then RunHits(r, next.state, steps[1..]) else [])
  }

  lemma {:induction false} StruckInTurn(a: Armor, x: seq<Hit>, y: seq<Hit>)
    ensures StruckAll(a, x + y) == StruckAll(StruckAll(a, x), y)
    decreases |x|
  {
    if x == [] {
      assert x + y == y;
    } else {
      assert (x + y)[1..] == x[1..] + y;
      StruckInTurn(Damage.Struck(a, x[0]), x[1..], y);
    }
  }

  lemma OneStrike(a: Armor, hit: Hit)
    ensures StruckAll(a, [hit]) == Damage.Struck(a, hit) && StruckAll(a, []) == a
  {
    assert [hit][1..] == [];
  }

  lemma SurgeStrikes(r: Rules, s: State, l: Luck, dt: real)
    ensures TickEvents(r, s, l, dt).armor == StruckAll(s.armor, SurgeHits(r, s, l))
  {
    hide HullHit, StruckAll;
    OneStrike(s.armor, Direct(r.surgeHit));
  }

  /** A belt that falls in takes the whole hull, whatever was dealt before; every other tick strikes. */
  lemma MiningStrikes(r: Rules, s: State, l: Luck, dt: real)
    requires r.volume > 0 && s.course.phase.Mining?
    ensures var after := Arrival(r, TickMining(r, s, l, dt), l).armor;
            after.hull > 0 ==> after == StruckAll(s.armor, PhaseHits(r, s, dt))
  {
    hide HullHit, StruckAll, Drilled, DrilledFuel, TickSkill, TickApproach, TickEmp;
    OneStrike(s.armor, Direct(Dealt(r.bleed, dt)));
  }

  lemma FightStrikes(r: Rules, s: State, dt: real)
    requires s.course.phase.Combat? && s.course.fight.Some?
    ensures TickCombat(r, s, dt).armor == StruckAll(s.armor, PhaseHits(r, s, dt))
  {
    hide AttackHit, StruckAll, CombatTime, BurnTick, ShotAt;
    var f := s.course.fight.value;
    OneStrike(s.armor, Attack(Dealt(f.dps, CombatTime(r, f, s.burn, dt))));
  }

  lemma EscapeStrikes(r: Rules, s: State, dt: real)
    requires s.course.phase.Escaping?
    ensures TickEscape(r, s, dt).armor == StruckAll(s.armor, PhaseHits(r, s, dt))
  {
    hide AttackHit, StruckAll, BurnTick;
    OneStrike(s.armor, Attack(Dealt(r.attackRate, dt)));
  }

  /** One tick deals its hits, unless the belt falls in. */
  lemma TickStrikes(r: Rules, s: State, l: Luck, time: real)
    requires r.volume > 0 && (s.course.phase.Combat? ==> s.course.fight.Some?)
    ensures var after := Tick(r, s, l, time).state.armor;
            after.hull > 0 ==> after == StruckAll(s.armor, TickHits(r, s, l, time))
    ensures Tick(r, s, l, time).Going? ==> Tick(r, s, l, time).state.armor.hull > 0
  {
    hide TickEvents, TickMining, TickCombat, TickEscape, Arrival, StruckAll, SurgeHits, PhaseHits, AutocannonWins;
    var dt := RMax(0.0, time);
    var s0 := s.(ticks := s.ticks + 1);
    var s1 := TickEvents(r, s0, l, dt);
    EventsFrame(r, s, l, dt);
    SurgeStrikes(r, s0, l, dt);
    StruckInTurn(s.armor, SurgeHits(r, s, l), PhaseHits(r, s1, dt));
    match s.course.phase {
      case Mining => MiningStrikes(r, s1, l, dt);
      case Tribute => assert PhaseHits(r, s1, dt) == [] by { NoHits(r, s1, dt); } OneStrike(s1.armor, Direct(0.0));
      case Escaping => EscapeStrikes(r, s1, dt);
      case Combat => FightStrikes(r, s1, dt);
    }
  }

  lemma EventsFrame(r: Rules, s: State, l: Luck, dt: real)
    ensures var s0 := s.(ticks := s.ticks + 1);
            TickEvents(r, s0, l, dt).course == s.course && SurgeHits(r, s0, l) == SurgeHits(r, s, l)
  {}

  lemma NoHits(r: Rules, s: State, dt: real)
    requires s.course.phase.Tribute?
    ensures PhaseHits(r, s, dt) == []
  {}

  lemma ActsDoNotStrike(r: Rules, s: State, a: Action, l: Luck)
    requires r.volume > 0 && Accepts(r, s, a) && (s.course.phase.Combat? ==> s.course.fight.Some?)
    ensures Act(r, s, a, l).state.armor == s.armor
  {}

  lemma {:induction false} RunStrikes(r: Rules, s: State, steps: seq<Step>)
    requires r.volume > 0 && s.armor.hull > 0 && Legal(r, s, steps) && Exec(r, s, steps).state.armor.hull > 0
    ensures Exec(r, s, steps).state.armor == StruckAll(s.armor, RunHits(r, s, steps))
    decreases |steps|
  {
    hide Tick, Act, TickHits;
    if steps != [] {
      var next := Do(r, s, steps[0]);
      var hits := if steps[0].Ticks? then TickHits(r, s, steps[0].luck, steps[0].time) else [];
      var rest := if next.Going? then RunHits(r, next.state, steps[1..]) else [];
      match steps[0] {
        case Ticks(time, l) => TickStrikes(r, s, l, time);
        case Acts(a, l) => ActsDoNotStrike(r, s, a, l);
      }
      if next.Going? {
        RunStrikes(r, next.state, steps[1..]);
      }
      StruckInTurn(s.armor, hits, rest);
    }
  }

  /** Over any run that the ship survives, however its ticks are cut and whatever the pilot does: what the
      shield absorbed, what the hull lost and what is carried over come to the damage of all its ticks;
      and the ship is as one blow of those totals would have left it. */
  lemma RunDamageIsConserved(r: Rules, s: State, steps: seq<Step>)
    requires r.volume > 0 && Sound(s.armor) && s.armor.hull > 0 && Legal(r, s, steps) && Exec(r, s, steps).state.armor.hull > 0
    ensures var after, hits := Exec(r, s, steps).state.armor, RunHits(r, s, steps);
            && (s.armor.shield - after.shield) + (s.armor.hull - after.hull) as real + (after.carry - s.armor.carry)
               == Attacks(hits) + Directs(hits)
            && after == Settled(s.armor, Attacks(hits), Directs(hits))
  {
    RunStrikes(r, s, steps);
    hide Exec, RunHits, Legal, Settled;
    DamageIsConserved(s.armor, RunHits(r, s, steps));
    SplittingDoesNotMatter(s.armor, RunHits(r, s, steps));
  }
}
