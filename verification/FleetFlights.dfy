/** What a jump takes out of a ship, and with it what a whole flight burns: exactly the route's fuel, the
    same that the ferry charges for. */
module FleetFlights {
  import opened Wrappers
  import opened Numbers
  import opened Routes
  import opened Berths
  import opened Fleet
  import Ferry
  import Tanks = FuelTanks

  // ---------------------------------------------------------------- one jump

  /** A hull of some points after some blows of a total stress: each blow takes whole points, less than one
      more than its stress, and the last point stays. */
  predicate Worn(hull: int, after: int, stress: real, blows: nat) {
    && after >= 1 && ((hull - after) as real < stress + blows as real || after == hull)
    && (after == 1 || (hull - after) as real >= stress)
  }

  /** What crossing a gate takes out of the tank: the gate fuel, and with a fuel bloom its share of what is left. */
  predicate Burnt(c: Charts, g: Gate, d: Drift, before: Ship, after: Ship) {
    var left := before.fuel - g.jumpFuelBase * c.burn(before.model, before.kit);
    after.fuel == if d.FuelBloom? then left * (1.0 - d.share) else left
  }

  /** And out of the hull: the gate's stress, and a hard translation's. */
  predicate Battered(c: Charts, g: Gate, d: Drift, before: Ship, after: Ship) {
    var most := (c.startHull + c.hullPerGrade * before.hullGrade) as real;
    if d.HardTranslation? then Worn(before.hull, after.hull, most * c.stress(g) + most * d.damage, 2)
    else Worn(before.hull, after.hull, most * c.stress(g), 1)
  }

  predicate Crossed(c: Charts, g: Gate, d: Drift, before: Ship, after: Ship) {
    && after == before.(system := after.system, hull := after.hull, fuel := after.fuel)
    && Burnt(c, g, d, before, after) && Battered(c, g, d, before, after)
  }

  lemma BlowsAdd(hull: int, first: real, second: real)
    requires hull >= 1 && first >= 0.0 && second >= 0.0
    ensures Worn(hull, Strained(hull, first), first, 1)
    ensures Worn(hull, Strained(Strained(hull, first), second), first + second, 2)
  {
    assert Ceil(first) >= 0 && Ceil(second) >= 0;
    hide Ceil;
  }

  lemma ArrivalsBurn(c: Charts, s: Ship, g: Gate, landing: string, d: Drift)
    ensures Burnt(c, g, d, s, Arrived(c, s, g, landing, d))
  {
    hide MaxStress, Ceil;
  }

  lemma ArrivalsBatter(c: Charts, s: Ship, g: Gate, landing: string, d: Drift)
    requires c.stress(g) >= 0.0 && DriftOk(d) && s.hull >= 1
    ensures Battered(c, g, d, s, Arrived(c, s, g, landing, d))
  {
    hide Strained, Spilt, JumpFuel, MaxStress;
    StressAdds(c, s, c.stress(g));
    var first := MaxStress(c, s, c.stress(g));
    if d.HardTranslation? {
      StressAdds(c, s, d.damage);
      var second := MaxStress(c, s, d.damage);
      BlowsAdd(s.hull, first, second);
      assert Arrived(c, s, g, landing, d).hull == Strained(Strained(s.hull, first), second);
    } else {
      BlowsAdd(s.hull, first, 0.0);
    }
  }

  lemma ArrivalsCross(c: Charts, s: Ship, g: Gate, landing: string, d: Drift)
    requires ChartsOk(c) && DriftOk(d) && s.hull >= 1
    ensures Crossed(c, g, d, s, Arrived(c, s, g, landing, d)) && Arrived(c, s, g, landing, d).system == landing
  {
    assert 0.0 < c.stress(g);
    ArrivalsBurn(c, s, g, landing, d);
    ArrivalsBatter(c, s, g, landing, d);
    hide ChartsOk, Burnt, Battered, Strained, MaxStress, Spilt, JumpFuel;
  }

  lemma StressAdds(c: Charts, s: Ship, share: real)
    requires share >= 0.0
    ensures MaxStress(c, s, share) == (c.startHull + c.hullPerGrade * s.hullGrade) as real * share
    ensures MaxStress(c, s, share) >= 0.0
  {
    assert c.hullPerGrade * s.hullGrade >= 0;
  }

  /** A jump moves the pilot and the one ship over the gate, and leaves everything else alone. */
  predicate Moved(c: Charts, before: Fleet, after: Fleet, to: string, d: Drift) {
    var g := GateBetween(c.net.gates, before.system, to);
    && g.Some? && before.active in before.ships && before.active in after.ships
    && after == before.(system := after.system, ships := before.ships[before.active := after.ships[before.active]])
    && after.system == after.ships[before.active].system == (if d.Misalignment? then before.system else to)
    && Crossed(c, g.value, d, before.ships[before.active], after.ships[before.active])
  }

  lemma JumpsMove(c: Charts, f: Fleet, to: string, d: Drift)
    requires ChartsOk(c) && FleetOk(c, f) && DriftOk(d) && JumpError(c, f, to).None?
    ensures Moved(c, f, Jumped(c, f, to, d), to, d)
  {
    var g := GateBetween(c.net.gates, f.system, to).value;
    assert Whole(c, f.ships[f.active]);
    ArrivalsCross(c, f.ships[f.active], g, if d.Misalignment? then f.system else to, d);
    hide ChartsOk, FleetOk, Arrived, Crossed, Whole, JumpFuel;
  }

  /** The ship's own factor for every gate. */
  function Factor(c: Charts, f: Fleet): real
    requires f.active in f.ships
  {
    c.burn(f.ships[f.active].model, f.ships[f.active].kit)
  }

  /** A docked pilot in order may jump exactly over the hops that the rating opens and the fuel covers. */
  lemma JumpsOpen(c: Charts, f: Fleet, to: string)
    requires ChartsOk(c) && FleetOk(c, f) && f.docked
    ensures var hop := Hop(c.net, f.jumpClass, Factor(c, f), f.system, to);
            JumpError(c, f, to).None? <==> hop.Some? && hop.value <= f.ships[f.active].fuel
  {
    assert WellFormed(c.net) && c.burn(f.ships[f.active].model, f.ships[f.active].kit) > 0.0;
    assert Whole(c, f.ships[f.active]);
    HopCosts(c.net, f.jumpClass, Factor(c, f), f.system, to);
    hide ChartsOk, Connected, WellFormed;
  }

  /** The jump that was asked for: taken, or refused for a hop that is not open or not covered. */
  ghost predicate JumpDone(c: Charts, before: Fleet, after: Fleet, to: string, d: Drift, refused: bool)
    requires before.active in before.ships
  {
    var hop := Hop(c.net, before.jumpClass, Factor(c, before), before.system, to);
    && (refused ==> after == before)
    && (!refused ==> Moved(c, before, after, to, d))
    && (before.docked ==> (!refused <==> hop.Some? && hop.value <= before.ships[before.active].fuel))
  }

  lemma JumpIsDone(c: Charts, f: Fleet, to: string, d: Drift)
    requires ChartsOk(c) && FleetOk(c, f) && DriftOk(d)
    ensures JumpError(c, f, to).None? ==> JumpDone(c, f, Jumped(c, f, to, d), to, d, false)
    ensures JumpError(c, f, to).Some? ==> JumpDone(c, f, f, to, d, true)
  {
    hide ChartsOk, Jumped, Moved, JumpError, Hop;
    if JumpError(c, f, to).None? { JumpsMove(c, f, to, d); }
    if f.docked { JumpsOpen(c, f, to); }
    hide FleetOk;
  }

  /** What is left of a pilot's hangar and log when the active ship is gone. */
  predicate Bereft(c: Charts, before: Fleet, after: Fleet) {
    && after.docked && after.losses == before.losses + 1 && after.lostAt == before.lostAt[before.active := before.system]
    && after.system == before.system && after.jumpClass == before.jumpClass && after.credits == before.credits
    && after.active in after.ships && after.ships[after.active].system == before.system
    && (after.active !in before.ships || before.ships[after.active] != after.ships[after.active] ==>
          after.active == STARTER && after.ships[STARTER] == Ship(STARTER, before.system, c.startHull, 0, c.startFuel, ""))
  }

  lemma LossesBereave(c: Charts, f: Fleet, next: Option<string>)
    requires f.active in f.ships && RecoveryOk(c, f, next)
    ensures Bereft(c, f, Lost(c, f, next)) && Bereft(c, f, Apply(c, f, Lose(next)))
  {
    hide FirstFree, Better;
  }

  /** The mechanic sells whole hulls, the pump whole points of fuel, and either leaves everything else alone. */
  lemma ServicesServe(c: Charts, f: Fleet)
    requires ChartsOk(c) && FleetOk(c, f) && f.docked
    ensures Enabled(c, f, Repair)
    ensures var s := f.ships[f.active];
            Apply(c, f, Repair) == f.(ships := f.ships[f.active := s.(hull := c.startHull + c.hullPerGrade * s.hullGrade)])
    ensures Enabled(c, f, Refuel) <==> Tank(c, f.ships[f.active]) - f.ships[f.active].fuel > Tanks.EPSILON && f.credits >= c.rate
    ensures Enabled(c, f, Refuel) ==>
              var s, after := f.ships[f.active], Apply(c, f, Refuel);
              var t := after.ships[f.active];
              && after == f.(credits := after.credits, ships := f.ships[f.active := t]) && t == s.(fuel := t.fuel)
              && s.fuel < t.fuel <= Tank(c, s)
              && (Tank(c, s) - t.fuel <= Tanks.EPSILON || after.credits < c.rate)
              && exists points: nat :: (after.credits == f.credits - points * c.rate
                                        && (t.fuel == s.fuel + points as real || (t.fuel == Tank(c, s) < s.fuel + points as real < t.fuel + 1.0)))
  {
    var s := f.ships[f.active];
    Tanks.RefuelSellsWhatIsMissing(f.docked, Tank(c, s) - s.fuel, f.credits, c.rate);
    hide Tanks.RefuelOutcome, FleetOk, MaxHull;
  }

  /** The other steps: each moves, adds or certifies just what it names. */
  lemma StepsDoWhatTheyName(c: Charts, f: Fleet, s: Step)
    requires Enabled(c, f, s) && (s.Ferry? || s.Switch? || s.Acquire? || s.Certify? || s.Depart? || s.ReturnWith?)
    ensures var after := Apply(c, f, s);
            && after.system == f.system && after.losses == f.losses && after.lostAt == f.lostAt
            && after.active == (if s.Switch? then s.ship else f.active)
            && after.jumpClass == (if s.Certify? then f.jumpClass + 1 else f.jumpClass)
            && after.docked == (if s.Depart? then false else s.ReturnWith? || f.docked)
            && after.credits == (if s.Acquire? then f.credits - s.cost else f.credits)
            && after.ships.Keys == f.ships.Keys + (if s.Acquire? then {s.id} else {})
            && (s.Acquire? ==> after.ships[s.id] == s.bought)
            && (s.Ferry? ==> after.ships[s.ship] == f.ships[s.ship].(system := s.to))
            && (s.ReturnWith? ==> after.ships[f.active] == f.ships[f.active].(hull := s.hull, fuel := s.fuel))
            && forall id :: id in f.ships && !(s.Ferry? && id == s.ship) && !(s.ReturnWith? && id == f.active) ==> after.ships[id] == f.ships[id]
  {}

  // ---------------------------------------------------------------- whole flights

  /** A drift that neither spills fuel nor misses the way. */
  predicate Straight(d: Drift) { DriftOk(d) && !d.FuelBloom? && !d.Misalignment? }

  /** Jumps along a path, one after another, without a stop to refuel. */
  predicate Along(steps: seq<Step>, p: seq<string>) {
    |p| == |steps| + 1 && forall i :: 0 <= i < |steps| ==> steps[i].Jump? && steps[i].to == p[i + 1] && Straight(steps[i].drift)
  }

  lemma {:induction false} LastStep(c: Charts, f: Fleet, steps: seq<Step>, s: Step)
    ensures Legal(c, f, steps + [s]) <==> Legal(c, f, steps) && Enabled(c, Exec(c, f, steps), s)
    ensures Legal(c, f, steps + [s]) ==> Exec(c, f, steps + [s]) == Apply(c, Exec(c, f, steps), s)
    decreases |steps|
  {
    hide Enabled, Apply;
    var all := steps + [s];
    if steps == [] {
      assert all == [s] && all[1..] == [];
    } else {
      assert all[1..] == steps[1..] + [s] && all[0] == steps[0];
      if Enabled(c, f, steps[0]) { LastStep(c, Apply(c, f, steps[0]), steps[1..], s); }
    }
  }

  /** The rating opens the path, and its fuel is aboard. */
  predicate Flyable(c: Charts, f: Fleet, p: seq<string>)
    requires f.active in f.ships && p != []
  {
    var to := p[|p| - 1];
    && Path(c.net, f.jumpClass, Factor(c, f), p, f.system, to)
    && Fuel(c.net, f.jumpClass, Factor(c, f), p, f.system, to) <= f.ships[f.active].fuel
  }

  /** The pilot at some system in the same ship, with so much fuel burnt and nothing else changed. */
  ghost predicate Flown(c: Charts, f: Fleet, after: Fleet, to: string, burnt: real)
    requires f.active in f.ships
  {
    && FleetOk(c, after) && after.docked && after.system == to && after.active == f.active && after.jumpClass == f.jumpClass
    && after.credits == f.credits && Factor(c, after) == Factor(c, f)
    && after.ships[f.active].fuel + burnt == f.ships[f.active].fuel
    && (forall id :: id in f.ships && id != f.active ==> id in after.ships && after.ships[id] == f.ships[id])
  }

  lemma JumpFlies(c: Charts, f: Fleet, to: string, d: Drift)
    requires ChartsOk(c) && FleetOk(c, f) && f.docked && Straight(d) && JumpError(c, f, to).None?
    ensures var hop := Hop(c.net, f.jumpClass, Factor(c, f), f.system, to);
            hop.Some? && Flown(c, f, Jumped(c, f, to, d), to, hop.value)
  {
    JumpKeeps(c, f, to, d);
    JumpsMove(c, f, to, d);
    JumpsOpen(c, f, to);
    hide ChartsOk, FleetOk, JumpError, Jumped, Worn;
  }

  lemma FlightsAdd(c: Charts, f: Fleet, there: Fleet, after: Fleet, y: string, to: string, burnt: real, more: real)
    requires f.active in f.ships && Flown(c, f, there, y, burnt) && Flown(c, there, after, to, more)
    ensures Flown(c, f, after, to, burnt + more)
  {
    hide FleetOk;
  }

  /** A path can be flown exactly when its beginning can and then the last hop. */
  lemma LastLeg(c: Charts, f: Fleet, p: seq<string>)
    requires ChartsOk(c) && f.active in f.ships && |p| > 1
    ensures var q := p[..|p| - 1];
            var y, to := q[|q| - 1], p[|p| - 1];
            var hop := Hop(c.net, f.jumpClass, Factor(c, f), y, to);
            && (Flyable(c, f, p) <==>
                  (Flyable(c, f, q) && hop.Some?
                   && Fuel(c.net, f.jumpClass, Factor(c, f), q, f.system, y) + hop.value <= f.ships[f.active].fuel))
            && (Flyable(c, f, p) ==> Fuel(c.net, f.jumpClass, Factor(c, f), p, f.system, to)
                                     == Fuel(c.net, f.jumpClass, Factor(c, f), q, f.system, y) + hop.value)
  {
    assert WellFormed(c.net) && c.burn(f.ships[f.active].model, f.ships[f.active].kit) > 0.0;
    HopCosts(c.net, f.jumpClass, Factor(c, f), p[|p| - 2], p[|p| - 1]);
    hide Hop, WellFormed, ChartsOk;
  }

  /** The flight can be flown exactly when the path is flyable, and then burns just the path's fuel. */
  ghost predicate BurnsTheRoute(c: Charts, f: Fleet, steps: seq<Step>, p: seq<string>)
    requires f.active in f.ships && p != []
  {
    && (Legal(c, f, steps) <==> Flyable(c, f, p))
    && (Legal(c, f, steps) ==>
          Flown(c, f, Exec(c, f, steps), p[|p| - 1], Fuel(c.net, f.jumpClass, Factor(c, f), p, f.system, p[|p| - 1])))
  }

  lemma LongerFlight(c: Charts, f: Fleet, steps: seq<Step>, last: Step, p: seq<string>)
    requires ChartsOk(c) && f.active in f.ships && |p| > 1
    requires last.Jump? && last.to == p[|p| - 1] && Straight(last.drift)
    requires BurnsTheRoute(c, f, steps, p[..|p| - 1])
    ensures BurnsTheRoute(c, f, steps + [last], p)
  {
    hide ChartsOk, FleetOk, Flown, JumpError, Jumped, Hop, Legal, Exec, Straight, Fuel, Path;
    var q := p[..|p| - 1];
    var y := q[|q| - 1];
    LastStep(c, f, steps, last);
    LastLeg(c, f, p);
    if Legal(c, f, steps) {
      NextJump(c, f, Exec(c, f, steps), y, Fuel(c.net, f.jumpClass, Factor(c, f), q, f.system, y), last);
    }
  }

  /** A straight flight along a path can be flown exactly when the rating opens the path and its fuel is
      aboard; and it then burns just that. */
  lemma {:induction false} FlightsBurnTheRoute(c: Charts, f: Fleet, steps: seq<Step>, p: seq<string>)
    requires ChartsOk(c) && FleetOk(c, f) && f.docked && Along(steps, p) && p[0] == f.system
    ensures BurnsTheRoute(c, f, steps, p)
    decreases |steps|
  {
    if steps == [] {
      assert Whole(c, f.ships[f.active]);
      hide ChartsOk, Whole;
    } else {
      var n := |steps| - 1;
      Shortened(steps, p);
      hide ChartsOk, FleetOk, BurnsTheRoute, Along, Straight;
      FlightsBurnTheRoute(c, f, steps[..n], p[..|p| - 1]);
      LongerFlight(c, f, steps[..n], steps[n], p);
      assert steps == steps[..n] + [steps[n]];
    }
  }

  lemma Shortened(steps: seq<Step>, p: seq<string>)
    requires Along(steps, p) && steps != []
    ensures var n := |steps| - 1;
            && Along(steps[..n], p[..|p| - 1]) && p[..|p| - 1][0] == p[0]
            && steps[n].Jump? && steps[n].to == p[|p| - 1] && Straight(steps[n].drift)
  {}

  lemma NextJump(c: Charts, f: Fleet, there: Fleet, y: string, burnt: real, s: Step)
    requires ChartsOk(c) && f.active in f.ships && Flown(c, f, there, y, burnt) && s.Jump? && Straight(s.drift)
    ensures var hop := Hop(c.net, f.jumpClass, Factor(c, f), y, s.to);
            && (Enabled(c, there, s) <==> hop.Some? && burnt + hop.value <= f.ships[f.active].fuel)
            && (Enabled(c, there, s) ==> Flown(c, f, Apply(c, there, s), s.to, burnt + hop.value))
  {
    JumpsOpen(c, there, s.to);
    if JumpError(c, there, s.to).None? {
      JumpFlies(c, there, s.to, s.drift);
      FlightsAdd(c, f, there, Jumped(c, there, s.to, s.drift), y, s.to, burnt, Hop(c.net, f.jumpClass, Factor(c, f), y, s.to).value);
    }
    hide ChartsOk, FleetOk, JumpError, Jumped, Hop;
  }

  /** Jump and ferry agree: a pilot who flies somewhere burns at least what the ferry charges for, so no
      ferry is dearer than the fuel of one's own flight at the ferry's rates. */
  lemma TheFerryKnowsTheWay(c: Charts, f: Fleet, steps: seq<Step>, p: seq<string>, tariff: Ferry.Tariff, d: real)
    requires ChartsOk(c) && FleetOk(c, f) && f.docked && Along(steps, p) && p[0] == f.system && Legal(c, f, steps)
    requires Distance(c.net, f.jumpClass, Factor(c, f), f.system, p[|p| - 1], d) && tariff.markup > 0.0
    ensures f.active in Exec(c, f, steps).ships
    ensures var burnt := f.ships[f.active].fuel - Exec(c, f, steps).ships[f.active].fuel;
            d <= burnt && Ferry.Price(tariff, d) <= Ferry.Price(tariff, burnt)
  {
    assert f.active in f.ships;
    hide ChartsOk, FleetOk, Legal, Exec, Along, Fuel, Path, Ferry.Marked, Reaches;
    FlightsBurnTheRoute(c, f, steps, p);
    var burnt := Fuel(c.net, f.jumpClass, Factor(c, f), p, f.system, p[|p| - 1]);
    assert d <= burnt;
    Ferry.MarkedGrows(tariff, d, burnt);
  }
}
