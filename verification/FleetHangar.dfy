/** The hangar as the object it is: jumps, transfers and losses update the pilot's fields in place.
    Each method is proved to take the step that Fleet describes. */
module FleetHangar {
  import opened Wrappers
  import opened Numbers
  import opened Routes
  import opened Berths
  import opened Fleet
  import opened FleetFlights

  lemma {:induction false} LessIsTotal(a: string, b: string)
    requires a != b
    ensures Less(a, b) || Less(b, a)
    decreases |a|
  {
    if a != "" && b != "" && a[0] == b[0] {
      assert a == [a[0]] + a[1..] && b == [b[0]] + b[1..];
      LessIsTotal(a[1..], b[1..]);
    }
  }

  lemma {:induction false} LessIsTransitive(a: string, b: string, c: string)
    requires Less(a, b) && Less(b, c)
    ensures Less(a, c)
    decreases |a|
  {
    if a != "" && a[0] == b[0] == c[0] { LessIsTransitive(a[1..], b[1..], c[1..]); }
  }

  /** Of two ids one is better, and a better one beats whatever the other beats. */
  lemma BetterOrders(c: Charts, a: string, b: string, x: string)
    requires a != b
    ensures Better(c, a, b) || Better(c, b, a)
    ensures Better(c, a, b) && Better(c, b, x) ==> Better(c, a, x)
  {
    LessIsTotal(a, b);
    if Less(a, b) && Less(b, x) { LessIsTransitive(a, b, x); }
  }

  lemma JumpIsSafe(c: Charts, f: Fleet, to: string, d: Drift)
    requires JumpError(c, f, to).None?
    ensures f.active in f.ships && GateBetween(c.net.gates, f.system, to).Some?
    ensures ChartsOk(c) && DriftOk(d) && FleetOk(c, f) ==>
              && FleetOk(c, Jumped(c, f, to, d))
              && Hop(c.net, f.jumpClass, 1.0, f.system, to).Some?
              && Jumped(c, f, to, d).ships[f.active].fuel <= f.ships[f.active].fuel
  {
    if ChartsOk(c) && DriftOk(d) && FleetOk(c, f) {
      JumpIsHop(c, f, to);
      JumpKeeps(c, f, to, d);
    }
  }

  class Hangar {
    const c: Charts
    var system: string
    var active: string
    var jumpClass: int
    var docked: bool
    var credits: int
    var ships: map<string, Ship>
    var lostAt: map<string, string>
    var losses: nat

    function View(): Fleet
      reads this
    {
      Fleet(system, active, jumpClass, docked, credits, ships, lostAt, losses)
    }

    constructor (c: Charts, credits: int)
      ensures this.c == c && View() == Rookie(c, credits)
    {
      this.c := c;
      system, active, jumpClass, docked, this.credits := HOME, STARTER, -1, true, credits;
      ships, lostAt, losses := map[STARTER := FreshSkiff(c, HOME)], map[], 0;
    }

    /** The dearest local hull, the smaller id of two as dear; none when nothing is local. */
    method BestRemaining() returns (best: Option<string>)
      ensures best.None? ==> forall id :: id in ships ==> !Local(View(), id)
      ensures best.Some? ==> Local(View(), best.value) && forall id :: Local(View(), id) && id != best.value ==> Better(c, best.value, id)
      ensures best.Some? ==> forall id :: id in ships && ships[id].system == system ==> c.price(ModelID(id)) <= c.price(ModelID(best.value))
    {
      best := None;
      var rest := ships.Keys;
      while rest != {}
        invariant rest <= ships.Keys
        invariant best.None? ==> forall id :: id in ships && id !in rest ==> !Local(View(), id)
        invariant best.Some? ==> Local(View(), best.value) && best.value !in rest
        invariant best.Some? ==> forall id :: Local(View(), id) && id !in rest && id != best.value ==> Better(c, best.value, id)
        decreases |rest|
      {
        var id :| id in rest;
        rest := rest - {id};
        if ships[id].system == system {
          if best.None? {
            best := Some(id);
          } else if Better(c, id, best.value) {
            Crowned(id, best.value, rest);
            best := Some(id);
          } else {
            BetterOrders(c, id, best.value, id);
          }
        }
      }
      forall id | best.Some? && id in ships && ships[id].system == system ensures c.price(ModelID(id)) <= c.price(ModelID(best.value)) {
        assert Local(View(), id);
      }
    }

    /** What the best so far beats, a better one beats too. */
    lemma Crowned(id: string, best: string, rest: set<string>)
      requires Local(View(), best) && Better(c, id, best) && id != best
      requires forall x :: Local(View(), x) && x !in rest && x != best && x != id ==> Better(c, best, x)
      ensures forall x :: Local(View(), x) && x !in rest && x != id ==> Better(c, id, x)
    {
      forall x | Local(View(), x) && x !in rest && x != id ensures Better(c, id, x) {
        BetterOrders(c, id, best, x);
      }
    }

    method RecoveryShip() returns (next: Option<string>)
      ensures match next
              case Some(id) => IsRecovery(c, View(), id)
              case None => forall id :: id in ships ==> !Local(View(), id)
      ensures STARTER in ships && ships[STARTER].system == system ==> next == Some(STARTER)
      ensures next.Some? && next.value != STARTER ==>
                forall id :: id in ships && ships[id].system == system ==> c.price(ModelID(id)) <= c.price(ModelID(next.value))
    {
      if STARTER in ships && ships[STARTER].system == system { return Some(STARTER); }
      next := BestRemaining();
    }

    /** Grants the free Skiff; one parked elsewhere is moved to a name of its own first, so no ship is
        lost by it unless a Skiff stood right here. */
    method GrantStarter()
      modifies this`ships, this`active
      ensures View() == Granted(c, old(View()))
      ensures active == STARTER && ships[STARTER] == Ship(STARTER, system, c.startHull, 0, c.startFuel, "")
      ensures Local(View(), active) && forall id :: id in old(ships) && id != STARTER ==> id in ships && ships[id] == old(ships)[id]
      ensures STARTER in old(ships) && old(ships)[STARTER].system != system ==>
                exists id :: id !in old(ships) && id in ships && ships[id] == old(ships)[STARTER]
    {
      if STARTER in ships && ships[STARTER].system != system {
        var id := FindBerth(ships.Keys, ships[STARTER].system);
        ships := ships[id := ships[STARTER]];
      }
      ships := ships[STARTER := FreshSkiff(c, system)];
      active := STARTER;
    }

    /** The active ship is gone; the pilot falls back on what is left, in a ship that is here. */
    method LoseShip() returns (ghost next: Option<string>)
      requires active in ships
      modifies this
      ensures RecoveryOk(c, old(View()), next) && View() == Lost(c, old(View()), next)
      ensures Local(View(), active) && system == old(system) && jumpClass == old(jumpClass) && credits == old(credits)
      ensures ChartsOk(c) && old(FleetOk(c, View())) ==> FleetOk(c, View())
      ensures Bereft(c, old(View()), View())
    {
      ghost var before := View();
      hide Better, Granted;
      lostAt := lostAt[active := system];
      ships := ships - {active};
      losses := losses + 1;
      docked := true;
      assert View() == Wrecked(old(View()));
      var found := RecoveryShip();
      next := found;
      if found.Some? {
        active := found.value;
      } else {
        GrantStarter();
      }
      hide Lost, RecoveryOk, FleetOk, ChartsOk, Local;
      LossKeepsTheRest(c, before, next);
      LossesBereave(c, before, next);
      if ChartsOk(c) && FleetOk(c, before) { LossKeeps(c, before, next); }
    }

    /** What a jump does to the ship that makes it. */
    method Transit(s: Ship, g: Gate, landing: string, d: Drift) returns (after: Ship)
      ensures after == Arrived(c, s, g, landing, d)
    {
      hide MaxStress, JumpFuel, Spilt;
      var hull := Max(1, s.hull - Ceil(MaxStress(c, s, c.stress(g))));
      var fuel := s.fuel - JumpFuel(c, s, g);
      match d {
        case HardTranslation(damage) => hull := Max(1, hull - Ceil(MaxStress(c, s, damage)));
        case FuelBloom(share) => fuel := Spilt(fuel, share);
        case _ =>
      }
      return s.(system := landing, hull := hull, fuel := fuel);
    }

    /** Spends the fuel, strains the hull, and moves the pilot and the ship unless the jump misaligns. */
    method Jump(to: string, d: Drift) returns (error: Option<Error>)
      modifies this
      ensures error == JumpError(c, old(View()), to)
      ensures View() == if error.None? then Jumped(c, old(View()), to, d) else old(View())
      ensures forall id :: id in old(ships) && id != active ==> id in ships && ships[id] == old(ships)[id]
      ensures ChartsOk(c) && DriftOk(d) && old(FleetOk(c, View())) ==>
                && FleetOk(c, View())
                && (error.None? ==> Hop(c.net, jumpClass, 1.0, old(system), to).Some? && ships[active].fuel <= old(ships[active].fuel))
                && JumpDone(c, old(View()), View(), to, d, error.Some?)
    {
      ghost var before := View();
      if ChartsOk(c) && DriftOk(d) && FleetOk(c, before) { JumpIsDone(c, before, to, d); }
      hide JumpDone, Jumped;
      hide Arrived, JumpError, Hop, FleetOk, ChartsOk;
      error := JumpError(c, View(), to);
      if error.Some? { return; }
      JumpIsSafe(c, before, to, d);
      var g := GateBetween(c.net.gates, system, to).value;
      var landing := if d.Misalignment? then system else to;
      var arrived := Transit(ships[active], g, landing, d);
      system := landing;
      ships := ships[active := arrived];
    }
  }
}
