/** What drilling brings in: over any ticks that drill, exactly the rate times the time, until the rock or
    the hold is exhausted. */
module MiningYield {
  import opened Wrappers
  import opened Numbers
  import opened MiningRun
  import opened MiningSafety

  /** A tick that drills: mining with fuel in the tank, no power outage once its events are under way, and
      the run goes on after it. */
  predicate Productive(r: Rules, s: State, l: Luck, time: real)
    requires r.volume > 0
  {
    && s.course.phase.Mining? && s.fuel > 0.0
    && Tick(r, s, l, time).Going? && !Is(Tick(r, s, l, time).state.hazards, PowerOutage)
  }

  /** What the rock still has and the hold still takes. */
  function Reserve(r: Rules, s: State): real {
    RMin(r.volume as real - s.ore.extracted, r.capacity - s.stored.units - s.ore.held)
  }

  /** What the drill gets through in some time. */
  function Bored(r: Rules, t: real): real { r.mineRate * t }

  lemma BoredAdds(r: Rules, t: real, more: real)
    requires r.mineRate >= 0.0 && t >= 0.0 && more >= 0.0
    ensures Bored(r, t + more) == Bored(r, t) + Bored(r, more) && Bored(r, t) >= 0.0 && Bored(r, more) >= 0.0
  {}

  lemma EventsLeaveOre(r: Rules, s: State, l: Luck, dt: real)
    ensures var after := TickEvents(r, s, l, dt);
            after.ore == s.ore && after.stored == s.stored && after.fuel == s.fuel && after.course == s.course
            && after.contact == s.contact && after.skill == s.skill
  {}

  lemma MiningDrills(r: Rules, s: State, l: Luck, dt: real)
    requires RulesOk(r) && OreOk(r, s.ore, s.stored, false) && dt >= 0.0 && s.fuel > 0.0
    requires !Is(s.hazards, PowerOutage) && TickMining(r, s, l, dt).armor.hull > 0
    ensures var after := TickMining(r, s, l, dt);
            && after.ore.extracted == s.ore.extracted + RMin(Reserve(r, s), Bored(r, dt))
            && after.ore.held == s.ore.held + RMin(Reserve(r, s), Bored(r, dt))
            && after.ore.jettisoned == s.ore.jettisoned && after.stored == s.stored && after.hazards == s.hazards
            && -0.5 <= after.ore.worth as real - Share(r.value, after.ore.held, r.volume) <= 0.5
  {
    assert Bored(r, dt) >= 0.0;
    hide DrilledFuel, TickSkill, TickApproach, TickEmp, Bled, Share;
  }

  lemma ArrivalLeavesOre(r: Rules, s: State, l: Luck)
    ensures var after := Arrival(r, s, l);
            after.ore == s.ore && after.stored == s.stored && after.hazards == s.hazards && after.armor == s.armor
  {}

  /** What the drill brings in over some time: what the time is good for, but no more than is left of rock
      and room; the haul is worth its share of the rock, rounded. */
  predicate Yielded(r: Rules, s: State, next: State, dt: real)
    requires r.volume > 0
  {
    var left := RMin(r.volume as real - s.ore.extracted, r.capacity - s.stored.units - s.ore.held);
    var gain := RMin(left, r.mineRate * dt);
    && next.ore.extracted == s.ore.extracted + gain && next.ore.held == s.ore.held + gain
    && -0.5 <= next.ore.worth as real - Share(r.value, next.ore.held, r.volume) <= 0.5
  }

  lemma TickIsYielded(r: Rules, launchers: nat, s: State, l: Luck, time: real)
    requires RulesOk(r) && Inv(r, launchers, s) && Productive(r, s, l, time)
    ensures Yielded(r, s, Tick(r, s, l, time).state, RMax(0.0, time))
  {
    TickYields(r, launchers, s, l, time);
    hide Inv, Tick, Productive, Share;
  }

  /** One tick takes what its time is good for, but no more than is left. */
  lemma TickYields(r: Rules, launchers: nat, s: State, l: Luck, time: real)
    requires RulesOk(r) && Inv(r, launchers, s) && Productive(r, s, l, time)
    ensures var next, gain := Tick(r, s, l, time).state, RMin(Reserve(r, s), Bored(r, RMax(0.0, time)));
            && next.ore.extracted == s.ore.extracted + gain && next.ore.held == s.ore.held + gain
            && next.ore.jettisoned == s.ore.jettisoned && next.stored == s.stored
            && -0.5 <= next.ore.worth as real - Share(r.value, next.ore.held, r.volume) <= 0.5
  {
    var dt := RMax(0.0, time);
    var s0 := s.(ticks := s.ticks + 1);
    assert !s.course.tributePaid;
    EventsLeaveOre(r, s0, l, dt);
    hide Inv, TickEvents, TickMining, Arrival, Reserve, Bored, OreOk, Share;
    var s1 := TickEvents(r, s0, l, dt);
    ArrivalLeavesOre(r, TickMining(r, s1, l, dt), l);
    MiningHazards(r, s1, l, dt);
    MiningDrills(r, s1, l, dt);
    SameReserve(r, s, s1);
  }

  lemma MiningHazards(r: Rules, s: State, l: Luck, dt: real)
    requires r.volume > 0
    ensures TickMining(r, s, l, dt).hazards == s.hazards
  {}

  lemma SameReserve(r: Rules, s: State, t: State)
    requires t.ore == s.ore && t.stored == s.stored
    ensures Reserve(r, t) == Reserve(r, s)
  {}

  /** Every step is a tick that drills. */
  ghost predicate AllProductive(r: Rules, s: State, steps: seq<Step>)
    requires r.volume > 0
    decreases |steps|
  {
    steps == [] ||
    (steps[0].Ticks? && Productive(r, s, steps[0].luck, steps[0].time)
     && AllProductive(r, Tick(r, s, steps[0].luck, steps[0].time).state, steps[1..]))
  }

  function Worked(steps: seq<Step>): (t: real)
    ensures t >= 0.0
    decreases |steps|
  {
    if steps == [] then 0.0 else (if steps[0].Ticks? then RMax(0.0, steps[0].time) else 0.0) + Worked(steps[1..])
  }

  lemma Gains(reserve: real, first: real, rest: real)
    requires reserve >= 0.0 && first >= 0.0 && rest >= 0.0
    ensures var gain := RMin(reserve, first); gain + RMin(reserve - gain, rest) == RMin(reserve, first + rest)
  {}

  lemma ReserveFalls(r: Rules, launchers: nat, s: State, t: State, gain: real)
    requires r.volume > 0 && Inv(r, launchers, s) && t.stored == s.stored
    requires t.ore.extracted == s.ore.extracted + gain && t.ore.held == s.ore.held + gain
    ensures Reserve(r, s) >= 0.0 && Reserve(r, t) == Reserve(r, s) - gain
  {}

  /** However the time is cut into ticks and whatever else goes on in them, drilling brings in the rate
      times the time worked, until the rock or the hold is exhausted. */
  lemma {:induction false} DrillingYields(r: Rules, launchers: nat, s: State, steps: seq<Step>)
    requires RulesOk(r) && Inv(r, launchers, s) && s.armor.hull > 0 && Legal(r, s, steps) && AllProductive(r, s, steps)
    ensures var res, gain := Exec(r, s, steps), RMin(Reserve(r, s), Bored(r, Worked(steps)));
            && res.Going? && res.state.ore.extracted == s.ore.extracted + gain && res.state.ore.held == s.ore.held + gain
            && res.state.stored == s.stored
    decreases |steps|
  {
    hide Inv, Tick, Reserve, Bored, Productive;
    ReserveFalls(r, launchers, s, s, 0.0);
    if steps == [] {
      NothingBored(r);
    } else {
      var l, time := steps[0].luck, steps[0].time;
      var next := Tick(r, s, l, time).state;
      Goes(r, s, l, time);
      TickYields(r, launchers, s, l, time);
      StepKeeps(r, launchers, s, steps[0]);
      ReserveFalls(r, launchers, s, next, RMin(Reserve(r, s), Bored(r, RMax(0.0, time))));
      DrillingYields(r, launchers, next, steps[1..]);
      BoredAdds(r, RMax(0.0, time), Worked(steps[1..]));
      Gains(Reserve(r, s), Bored(r, RMax(0.0, time)), Bored(r, Worked(steps[1..])));
    }
  }

  lemma Goes(r: Rules, s: State, l: Luck, time: real)
    requires r.volume > 0 && Productive(r, s, l, time)
    ensures Tick(r, s, l, time).Going?
  {}

  lemma NothingBored(r: Rules)
    ensures Bored(r, 0.0) == 0.0
  {}

  /** Two drilling ticks bring in what one tick as long as both does. */
  lemma TwoTicksAreOne(r: Rules, launchers: nat, s: State, two: seq<Step>, one: seq<Step>)
    requires RulesOk(r) && Inv(r, launchers, s) && s.armor.hull > 0
    requires Legal(r, s, two) && AllProductive(r, s, two) && Legal(r, s, one) && AllProductive(r, s, one)
    requires Worked(two) == Worked(one)
    ensures Exec(r, s, two).state.ore.extracted == Exec(r, s, one).state.ore.extracted
    ensures Exec(r, s, two).state.ore.held == Exec(r, s, one).state.ore.held
  {
    hide Inv, Exec, Legal, AllProductive;
    DrillingYields(r, launchers, s, two);
    DrillingYields(r, launchers, s, one);
  }

  /** Whoever drills for as long as the smaller of rock and room takes has emptied the one or filled the other. */
  lemma DrillingFinishes(r: Rules, launchers: nat, s: State, steps: seq<Step>)
    requires RulesOk(r) && Inv(r, launchers, s) && s.armor.hull > 0 && Legal(r, s, steps) && AllProductive(r, s, steps)
    requires r.mineRate * Worked(steps) >= RMin(r.volume as real - s.ore.extracted, r.capacity - s.stored.units - s.ore.held)
    ensures var last := Exec(r, s, steps).state;
            last.ore.extracted == r.volume as real || last.stored.units + last.ore.held == r.capacity
  {
    hide Inv, Exec, Legal, AllProductive, Worked;
    DrillingYields(r, launchers, s, steps);
  }
}
