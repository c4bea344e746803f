/** Where a pilot's ships are, how they move, and what is left after one is lost. */
module Fleet {
  import opened Wrappers
  import opened Numbers
  import opened Routes
  import opened Berths
  import Tanks = FuelTanks

  const HOME: string := "sol"

  /** One owned hull: where it is parked and its own condition. kit stands for everything fitted. */
  datatype Ship = Ship(model: string, system: string, hull: int, hullGrade: nat, fuel: real, kit: string)

  datatype Charts = Charts(
    net: Network, price: string -> int, startHull: nat, hullPerGrade: nat, startFuel: real,
    burn: (string, string) -> real, capacity: (string, string) -> real,   // by model and kit
    stress: Gate -> real, rate: nat)

  /** What the content validator guarantees; in particular a full Skiff can fly every gate. */
  ghost predicate ChartsOk(c: Charts) {
    && WellFormed(c.net) && SystemByID(c.net.systems, HOME).Some? && c.startHull >= 1 && c.startFuel > 0.0 && c.rate > 0
    && (forall m: string, k: string :: c.burn(m, k) > 0.0)
    && (forall m: string, k: string :: c.capacity(m, k) >= c.startFuel)
    && (forall g: Gate :: 0.0 < c.stress(g) <= 1.0)
    && c.capacity(STARTER, "") == c.startFuel
    && (forall g :: g in c.net.gates ==> GateFuel(g, c.burn(STARTER, "")) < c.startFuel)
  }

  datatype Fleet = Fleet(
    system: string, active: string, jumpClass: int, docked: bool, credits: int,
    ships: map<string, Ship>, lostAt: map<string, string>, losses: nat)

  function MaxHull(c: Charts, s: Ship): int { c.startHull + c.hullPerGrade * s.hullGrade }

  /** The catalog is keyed by the part of an id before the "@". */
  function ModelID(id: string): string {
    if id == "" || id[0] == '@' then "" else [id[0]] + ModelID(id[1..])
  }

  /** A hull is priced as its model, under whatever name it is berthed. */
  lemma {:induction false} BerthsKeepTheModel(model: string, berth: string)
    requires '@' !in model
    ensures ModelID(model) == model && ModelID(model + "@" + berth) == model
    decreases |model|
  {
    var id := model + "@" + berth;
    if model == "" {
      assert id[0] == '@';
    } else {
      assert id[0] == model[0] && id[1..] == model[1..] + "@" + berth && '@' !in model[1..];
      BerthsKeepTheModel(model[1..], berth);
      assert model == [model[0]] + model[1..];
    }
  }

  // ---------------------------------------------------------------- jumping

  datatype Drift = Calm | HardTranslation(damage: real) | FuelBloom(share: real) | HotArrival | Misalignment

  predicate DriftOk(d: Drift) {
    match d
    case HardTranslation(damage) => 0.0 <= damage <= 1.0
    case FuelBloom(share) => 0.0 <= share <= 1.0
    case _ => true
  }

  datatype Error = InBelt | RouteLocked | HullBreached | NotOwned | ShipRemote | NotEligible | AlreadyOwned | InsufficientFunds

  function Tank(c: Charts, s: Ship): real { c.capacity(s.model, s.kit) }

  function JumpFuel(c: Charts, s: Ship, g: Gate): real { GateFuel(g, c.burn(s.model, s.kit)) }

  function JumpError(c: Charts, f: Fleet, to: string): Option<Error> {
    var source := SystemByID(c.net.systems, f.system);
    var g := GateBetween(c.net.gates, f.system, to);
    if !f.docked then Some(InBelt)
    else if source.None? || SystemByID(c.net.systems, to).None? then Some(RouteLocked)
    else if !Links(c.net, f.system, to) || g.None? then Some(RouteLocked)
    else if f.jumpClass < g.value.requiredRating then Some(RouteLocked)
    else if f.active !in f.ships || f.ships[f.active].system != f.system then Some(RouteLocked)
    else if JumpFuel(c, f.ships[f.active], g.value) > Tank(c, f.ships[f.active]) then Some(RouteLocked)
    else if JumpFuel(c, f.ships[f.active], g.value) > f.ships[f.active].fuel then Some(RouteLocked)
    else if f.ships[f.active].hull <= 0 then Some(HullBreached)
    else None
  }

  /** The hull after stress; no jump breaches it. */
  function Strained(hull: int, damage: real): int { Max(1, hull - Ceil(damage)) }

  function MaxStress(c: Charts, s: Ship, share: real): real { MaxHull(c, s) as real * share }

  function Spilt(fuel: real, share: real): real { fuel * (1.0 - share) }

  /** The ship after a jump: worn but never breached, and no fuller than it was. */
  function Arrived(c: Charts, s: Ship, g: Gate, landing: string, d: Drift): Ship {
    var hull := Strained(s.hull, MaxStress(c, s, c.stress(g)));
    var fuel := s.fuel - JumpFuel(c, s, g);
    s.(system := landing,
       hull := if d.HardTranslation? then Strained(hull, MaxStress(c, s, d.damage)) else hull,
       fuel := if d.FuelBloom? then Spilt(fuel, d.share) else fuel)
  }

  function Jumped(c: Charts, f: Fleet, to: string, d: Drift): Fleet
    requires JumpError(c, f, to).None?
  {
    var g := GateBetween(c.net.gates, f.system, to).value;
    var landing := if d.Misalignment? then f.system else to;
    f.(system := landing, ships := f.ships[f.active := Arrived(c, f.ships[f.active], g, landing, d)])
  }

  // ---------------------------------------------------------------- losing a ship

  predicate Local(f: Fleet, id: string) { id in f.ships && f.ships[id].system == f.system }

  /** Lexicographic order of ids. */
  predicate Less(a: string, b: string)
    decreases |a|
  {
    if b == "" then false
    else if a == "" then true
    else if a[0] != b[0] then a[0] < b[0]
    else Less(a[1..], b[1..])
  }

  /** The dearer model first, and of two as dear the smaller id. */
  predicate Better(c: Charts, a: string, b: string) {
    var p, q := c.price(ModelID(a)), c.price(ModelID(b));
    p > q || (p == q && Less(a, b))
  }

  /** The ship a pilot falls back on: a local Skiff, or the best local hull. */
  predicate IsRecovery(c: Charts, f: Fleet, id: string) {
    && Local(f, id)
    && (Local(f, STARTER) ==> id == STARTER)
    && (!Local(f, STARTER) ==> forall other :: other in f.ships && Local(f, other) && other != id ==> Better(c, id, other))
  }

  function FreshSkiff(c: Charts, system: string): Ship { Ship(STARTER, system, c.startHull, 0, c.startFuel, "") }

  /** A displaced Skiff keeps everything but its name. */
  function Displaced(ships: map<string, Ship>, system: string): map<string, Ship> {
    if STARTER in ships && ships[STARTER].system != system
    then ships[FirstFree(ships.Keys, ships[STARTER].system, 1) := ships[STARTER]] else ships
  }

  function Granted(c: Charts, f: Fleet): Fleet {
    f.(ships := Displaced(f.ships, f.system)[STARTER := FreshSkiff(c, f.system)], active := STARTER)
  }

  function Wrecked(f: Fleet): Fleet {
    f.(ships := f.ships - {f.active}, lostAt := f.lostAt[f.active := f.system], losses := f.losses + 1, docked := true)
  }

  /** The fleet after the active ship is lost; next is the recovery ship, if there is one. */
  function Lost(c: Charts, f: Fleet, next: Option<string>): Fleet {
    match next
    case Some(id) => Wrecked(f).(active := id)
    case None => Granted(c, Wrecked(f))
  }

  predicate RecoveryOk(c: Charts, f: Fleet, next: Option<string>) {
    match next
    case Some(id) => IsRecovery(c, Wrecked(f), id)
    case None => forall id :: id in Wrecked(f).ships ==> !Local(Wrecked(f), id)
  }

  // ---------------------------------------------------------------- every step

  datatype Step =
    | Jump(to: string, drift: Drift)
    | Ferry(ship: string, to: string)
    | Switch(ship: string)
    | Acquire(id: string, bought: Ship, cost: int)
    | Certify(rating: int)
    | Depart
    | ReturnWith(hull: int, fuel: real)   // a run or a flight ends with the ship alive
    | Lose(next: Option<string>)
    | Repair
    | Refuel

  /** What refuelling the active ship comes to. */
  function Pumped(c: Charts, f: Fleet): Tanks.Refuelled
    requires c.rate > 0 && f.active in f.ships
  {
    Tanks.RefuelOutcome(f.docked, Tank(c, f.ships[f.active]) - f.ships[f.active].fuel, f.credits, c.rate)
  }

  function Topped(c: Charts, s: Ship, points: nat): Ship { s.(fuel := RMin(Tank(c, s), s.fuel + points as real)) }

  predicate Enabled(c: Charts, f: Fleet, s: Step) {
    match s
    case Jump(to, d) => JumpError(c, f, to).None? && DriftOk(d)
    case Ferry(ship, to) => f.docked && ship in f.ships && ship != f.active
    case Switch(ship) => f.docked && Local(f, ship)
    case Acquire(id, bought, cost) => f.docked && id !in f.ships && bought.system == f.system
                                      && bought.hull == MaxHull(c, bought) && bought.fuel == c.startFuel && 0 <= cost <= f.credits
    case Certify(rating) => f.docked && rating == f.jumpClass + 1
    case Depart => f.docked
    case ReturnWith(hull, fuel) => f.active in f.ships && 1 <= hull <= f.ships[f.active].hull
                                   && 0.0 <= fuel <= Tank(c, f.ships[f.active])
    case Lose(next) => f.active in f.ships && RecoveryOk(c, f, next)
    case Repair => f.docked && f.active in f.ships
    case Refuel => c.rate > 0 && f.active in f.ships && Pumped(c, f).Bought?
  }

  function Apply(c: Charts, f: Fleet, s: Step): Fleet
    requires Enabled(c, f, s)
  {
    match s
    case Jump(to, d) => Jumped(c, f, to, d)
    case Ferry(ship, to) => f.(ships := f.ships[ship := f.ships[ship].(system := to)])
    case Switch(ship) => f.(active := ship)
    case Acquire(id, bought, cost) => f.(ships := f.ships[id := bought], credits := f.credits - cost)
    case Certify(rating) => f.(jumpClass := rating)
    case Depart => f.(docked := false)
    case ReturnWith(hull, fuel) => f.(docked := true, ships := f.ships[f.active := f.ships[f.active].(hull := hull, fuel := fuel)])
    case Lose(next) => Lost(c, f, next)
    case Repair => f.(ships := f.ships[f.active := f.ships[f.active].(hull := MaxHull(c, f.ships[f.active]))])
    case Refuel => f.(credits := f.credits - Pumped(c, f).points * c.rate,
                      ships := f.ships[f.active := Topped(c, f.ships[f.active], Pumped(c, f).points)])
  }

  /** The free Skiff that a pilot without a local ship could claim. */
  predicate MayClaimSkiff(f: Fleet) { f.docked && forall id :: id in f.ships ==> !Local(f, id) }

  // ---------------------------------------------------------------- the invariant

  predicate Whole(c: Charts, s: Ship) { 1 <= s.hull <= MaxHull(c, s) && 0.0 <= s.fuel <= Tank(c, s) }

  ghost predicate FleetOk(c: Charts, f: Fleet) {
    && Local(f, f.active)
    && (forall id :: id in f.ships ==> Whole(c, f.ships[id]))
    && SystemByID(c.net.systems, f.system).Some?
    && Connected(c.net, f.jumpClass, 1.0, f.system, HOME)
  }

  lemma ArrivesWhole(c: Charts, s: Ship, g: Gate, landing: string, d: Drift)
    requires ChartsOk(c) && DriftOk(d) && Whole(c, s) && g.jumpFuelBase > 0.0 && JumpFuel(c, s, g) <= s.fuel
    ensures var after := Arrived(c, s, g, landing, d);
            after.system == landing && Whole(c, after) && after.hull <= s.hull && after.fuel <= s.fuel
  {
    StressNonNegative(c, s, c.stress(g));
    if d.HardTranslation? { StressNonNegative(c, s, d.damage); }
    assert JumpFuel(c, s, g) > 0.0;
    if d.FuelBloom? { ShareKept(s.fuel - JumpFuel(c, s, g), d.share); }
    hide MaxStress, JumpFuel, Ceil, Spilt, ChartsOk;
  }

  /** The checks before a jump are exactly that it is a hop the rating admits, in a ship that can make it. */
  lemma JumpIsHop(c: Charts, f: Fleet, to: string)
    requires ChartsOk(c) && JumpError(c, f, to).None?
    ensures Hop(c.net, f.jumpClass, 1.0, f.system, to).Some? && SystemByID(c.net.systems, to).Some?
    ensures var g := GateBetween(c.net.gates, f.system, to);
            g.Some? && g.value.jumpFuelBase > 0.0 && f.active in f.ships && JumpFuel(c, f.ships[f.active], g.value) <= f.ships[f.active].fuel
  {}

  lemma JumpKeeps(c: Charts, f: Fleet, to: string, d: Drift)
    requires ChartsOk(c) && FleetOk(c, f) && JumpError(c, f, to).None? && DriftOk(d)
    ensures FleetOk(c, Jumped(c, f, to, d)) && Jumped(c, f, to, d).jumpClass == f.jumpClass
    ensures Jumped(c, f, to, d).ships[f.active].fuel <= f.ships[f.active].fuel
    ensures Jumped(c, f, to, d).system == if d.Misalignment? then f.system else to
  {
    assert WellFormed(c.net) && Whole(c, f.ships[f.active]);
    hide Arrived, JumpFuel, Whole, Connected, JumpError, ChartsOk, Hop, WellFormed;
    JumpIsHop(c, f, to);
    var landing := if d.Misalignment? then f.system else to;
    ArrivesWhole(c, f.ships[f.active], GateBetween(c.net.gates, f.system, to).value, landing, d);
    StillConnected(c.net, f.jumpClass, f.system, to, HOME);
    hide FleetOk;
    MovedOk(c, f, Arrived(c, f.ships[f.active], GateBetween(c.net.gates, f.system, to).value, landing, d));
  }

  lemma MovedOk(c: Charts, f: Fleet, s: Ship)
    requires FleetOk(c, f) && Whole(c, s) && SystemByID(c.net.systems, s.system).Some?
    requires Connected(c.net, f.jumpClass, 1.0, s.system, HOME)
    ensures FleetOk(c, f.(system := s.system, ships := f.ships[f.active := s]))
  {
    hide Whole, Connected;
  }

  lemma ShareKept(x: real, share: real)
    requires x >= 0.0 && 0.0 <= share <= 1.0
    ensures 0.0 <= Spilt(x, share) <= x
  {
    NoLess(x, share);
    NoLess(x, 1.0 - share);
    assert Spilt(x, share) == x - x * share;
  }

  lemma NoLess(x: real, y: real)
    requires x >= 0.0 && y >= 0.0
    ensures x * y >= 0.0
  {}

  lemma StressNonNegative(c: Charts, s: Ship, share: real)
    requires share >= 0.0 && MaxHull(c, s) >= 0
    ensures Ceil(MaxStress(c, s, share)) >= 0
  {
    assert MaxStress(c, s, share) >= 0.0;
  }

  /** A hop can be taken back, so whatever could be reached before it can be reached after it. */
  lemma StillConnected(net: Network, rating: int, a: string, to: string, b: string)
    requires WellFormed(net) && Connected(net, rating, 1.0, a, b) && Hop(net, rating, 1.0, a, to).Some?
    ensures Connected(net, rating, 1.0, to, b)
  {
    var p :| Path(net, rating, 1.0, p, a, b);
    HopsReverse(net, rating, 1.0, a, to);
    Prepend(net, rating, 1.0, to, p, a, b);
  }

  lemma CertifyKeeps(c: Charts, f: Fleet)
    requires FleetOk(c, f)
    ensures FleetOk(c, f.(jumpClass := f.jumpClass + 1))
  {
    var p :| Path(c.net, f.jumpClass, 1.0, p, f.system, HOME);
    RatingOpens(c.net, f.jumpClass, f.jumpClass + 1, 1.0, p, f.system, HOME);
  }

  // ---------------------------------------------------------------- losing a ship

  /** Where a surviving ship is kept after a loss. */
  function Kept(f: Fleet, next: Option<string>, id: string): string
    requires id in f.ships
  {
    if next.None? && id == STARTER then FirstFree(Wrecked(f).ships.Keys, f.ships[STARTER].system, 1) else id
  }

  lemma KeptIsFree(f: Fleet)
    requires f.active in f.ships && STARTER in f.ships && STARTER != f.active
    ensures Kept(f, None, STARTER) !in Wrecked(f).ships && Kept(f, None, STARTER) != STARTER
  {
    BerthIsFree(Wrecked(f).ships.Keys, f.ships[STARTER].system, 1);
  }

  predicate Survives(f: Fleet, id: string) { id in f.ships && id != f.active }

  /** A loss takes exactly the destroyed ship: every other one is still owned, in the same place and
      condition, each under a name of its own, and the pilot ends up in a local ship. */
  lemma LossKeepsTheRest(c: Charts, f: Fleet, next: Option<string>)
    requires f.active in f.ships && RecoveryOk(c, f, next)
    ensures var after := Lost(c, f, next);
            && (forall id :: Survives(f, id) ==>
                  Kept(f, next, id) in after.ships && after.ships[Kept(f, next, id)] == f.ships[id])
            && Local(after, after.active) && after.system == f.system
  {
    if next.None? && Survives(f, STARTER) {
      KeptIsFree(f);
      assert !Local(Wrecked(f), STARTER);
    }
    hide FirstFree, Better;
  }

  lemma KeptApart(c: Charts, f: Fleet, next: Option<string>, a: string, b: string)
    requires f.active in f.ships && Survives(f, a) && Survives(f, b) && a != b
    ensures Kept(f, next, a) != Kept(f, next, b)
  {
    hide FirstFree;
    if next.None? && (a == STARTER || b == STARTER) { KeptIsFree(f); }
  }

  /** Nothing else appears but a new Skiff, and only where nothing local was left. */
  lemma LossAddsOnlyASkiff(c: Charts, f: Fleet, next: Option<string>)
    requires f.active in f.ships && RecoveryOk(c, f, next)
    ensures var after := Lost(c, f, next);
            && (forall id :: id in after.ships ==>
                  (next.None? && id == STARTER && after.ships[id] == FreshSkiff(c, f.system))
                  || exists k :: Survives(f, k) && Kept(f, next, k) == id && after.ships[id] == f.ships[k])
            && |after.ships| == |f.ships| - (if next.Some? then 1 else 0)
  {
    hide FirstFree, Better;
    var after := Lost(c, f, next);
    assert |f.ships.Keys - {f.active}| == |f.ships| - 1 && Wrecked(f).ships.Keys == f.ships.Keys - {f.active};
    if next.None? && Survives(f, STARTER) {
      KeptIsFree(f);
      assert !Local(Wrecked(f), STARTER);
      assert after.ships.Keys == Wrecked(f).ships.Keys + {Kept(f, next, STARTER)};
    } else if next.None? {
      assert after.ships.Keys == Wrecked(f).ships.Keys + {STARTER};
    }
    forall id | id in after.ships
      ensures (next.None? && id == STARTER && after.ships[id] == FreshSkiff(c, f.system))
              || exists k :: Survives(f, k) && Kept(f, next, k) == id && after.ships[id] == f.ships[k]
    {
      if next.None? && id == STARTER {
      } else if next.None? && Survives(f, STARTER) && id == Kept(f, next, STARTER) {
        assert Survives(f, STARTER) && after.ships[id] == f.ships[STARTER];
      } else {
        assert Survives(f, id) && Kept(f, next, id) == id && after.ships[id] == f.ships[id];
      }
    }
  }

  lemma WholeAfterLoss(c: Charts, f: Fleet, next: Option<string>, id: string)
    requires ChartsOk(c) && f.active in f.ships && RecoveryOk(c, f, next) && id in Lost(c, f, next).ships
    requires forall k :: k in f.ships ==> Whole(c, f.ships[k])
    ensures Whole(c, Lost(c, f, next).ships[id])
  {
    LossAddsOnlyASkiff(c, f, next);
    hide Lost, RecoveryOk, Kept;
  }

  lemma LossKeeps(c: Charts, f: Fleet, next: Option<string>)
    requires ChartsOk(c) && FleetOk(c, f) && RecoveryOk(c, f, next)
    ensures FleetOk(c, Lost(c, f, next)) && Lost(c, f, next).jumpClass == f.jumpClass
  {
    hide FirstFree, ChartsOk, Connected, RecoveryOk, Kept, Whole, MaxHull;
    LossKeepsTheRest(c, f, next);
    forall id | id in Lost(c, f, next).ships ensures Whole(c, Lost(c, f, next).ships[id]) {
      WholeAfterLoss(c, f, next, id);
    }
    hide Displaced;
  }

  // ---------------------------------------------------------------- whole careers

  lemma OtherStepsKeep(c: Charts, f: Fleet, s: Step)
    requires ChartsOk(c) && FleetOk(c, f) && Enabled(c, f, s) && !s.Jump? && !s.Certify? && !s.Lose?
    ensures FleetOk(c, Apply(c, f, s)) && Apply(c, f, s).jumpClass == f.jumpClass
  {
    hide Connected;
  }

  lemma StepKeeps(c: Charts, f: Fleet, s: Step)
    requires ChartsOk(c) && FleetOk(c, f) && Enabled(c, f, s)
    ensures FleetOk(c, Apply(c, f, s)) && Apply(c, f, s).jumpClass >= f.jumpClass
  {
    hide FleetOk, JumpError, RecoveryOk, Jumped, Lost;
    match s {
      case Jump(to, d) => JumpKeeps(c, f, to, d);
      case Certify(_) => CertifyKeeps(c, f);
      case Lose(next) => LossKeeps(c, f, next);
      case _ => OtherStepsKeep(c, f, s);
    }
  }

  ghost predicate Legal(c: Charts, f: Fleet, steps: seq<Step>)
    decreases |steps|
  {
    steps == [] || (Enabled(c, f, steps[0]) && Legal(c, Apply(c, f, steps[0]), steps[1..]))
  }

  ghost function Exec(c: Charts, f: Fleet, steps: seq<Step>): Fleet
    requires Legal(c, f, steps)
    decreases |steps|
  {
    if steps == [] then f else Exec(c, Apply(c, f, steps[0]), steps[1..])
  }

  lemma {:induction false} CareerKeeps(c: Charts, f: Fleet, steps: seq<Step>)
    requires ChartsOk(c) && FleetOk(c, f) && Legal(c, f, steps)
    ensures FleetOk(c, Exec(c, f, steps)) && Exec(c, f, steps).jumpClass >= f.jumpClass
    decreases |steps|
  {
    hide ChartsOk, FleetOk, Enabled, Apply;
    if steps != [] {
      StepKeeps(c, f, steps[0]);
      CareerKeeps(c, Apply(c, f, steps[0]), steps[1..]);
    }
  }

  function Rookie(c: Charts, credits: int): Fleet {
    Fleet(HOME, STARTER, -1, true, credits, map[STARTER := FreshSkiff(c, HOME)], map[], 0)
  }

  /** From a new pilot on, whatever is jumped, ferried, bought, certified and lost: the active ship is
      where the pilot is, every hull is whole and no tank overdrawn, the way home is open at the pilot's
      rating, in both directions, and a free Skiff is never owed. */
  lemma NeverStranded(c: Charts, credits: int, steps: seq<Step>)
    requires ChartsOk(c) && Legal(c, Rookie(c, credits), steps)
    ensures var f := Exec(c, Rookie(c, credits), steps);
            && f.active in f.ships && f.ships[f.active].system == f.system
            && (forall id :: id in f.ships ==> f.ships[id].hull >= 1 && 0.0 <= f.ships[id].fuel <= Tank(c, f.ships[id]))
            && Connected(c.net, f.jumpClass, 1.0, f.system, HOME) && Connected(c.net, f.jumpClass, 1.0, HOME, f.system)
            && !MayClaimSkiff(f)
  {
    Stay(c.net, -1, 1.0, HOME);
    assert FleetOk(c, Rookie(c, credits));
    CareerKeeps(c, Rookie(c, credits), steps);
    var f := Exec(c, Rookie(c, credits), steps);
    TheWayBack(c.net, f.jumpClass, 1.0, f.system, HOME);
  }

  // ---------------------------------------------------------------- the flight home

  /** A pilot at a dock in a Skiff with nothing fitted. */
  predicate InSkiff(f: Fleet) {
    f.docked && f.active in f.ships && f.ships[f.active].model == STARTER && f.ships[f.active].kit == ""
  }

  /** Full, but for a shortfall too small for the pump to see. */
  predicate Fuelled(c: Charts, f: Fleet) {
    f.active in f.ships && Tank(c, f.ships[f.active]) - f.ships[f.active].fuel <= Tanks.EPSILON
  }

  /** Every gate leaves a full Skiff at least what the pump does not see. */
  ghost predicate SkiffCrosses(c: Charts) {
    forall g :: g in c.net.gates ==> GateFuel(g, c.burn(STARTER, "")) <= c.startFuel - Tanks.EPSILON
  }

  /** The dearest refuel of a Skiff, and of n of them. */
  function Bill(c: Charts): int { Tanks.PointsNeeded(c.startFuel) * c.rate }

  function Fare(c: Charts, n: nat): int { n * Bill(c) }

  lemma FareGrows(c: Charts, n: nat)
    ensures Fare(c, n + 1) == Fare(c, n) + Bill(c)
  {}

  lemma CrossOne(c: Charts, f: Fleet, to: string, d: Drift)
    requires ChartsOk(c) && SkiffCrosses(c) && FleetOk(c, f) && InSkiff(f) && Fuelled(c, f)
    requires Hop(c.net, f.jumpClass, 1.0, f.system, to).Some? && DriftOk(d) && !d.Misalignment?
    ensures Enabled(c, f, Jump(to, d))
    ensures var after := Apply(c, f, Jump(to, d));
            && FleetOk(c, after) && InSkiff(after) && after.system == to && after.jumpClass == f.jumpClass
            && after.credits == f.credits && after.active == f.active
  {
    HopsReverse(c.net, f.jumpClass, 1.0, f.system, to);
    assert JumpError(c, f, to).None?;
    JumpKeeps(c, f, to, d);
    hide ChartsOk, FleetOk, JumpError, JumpFuel, MaxStress, Spilt, Hop;
  }

  lemma Affordable(credits: int, needed: nat, most: nat, rate: nat)
    requires rate > 0 && needed <= most && credits >= most * rate
    ensures credits / rate >= needed && needed * rate <= most * rate && (needed > 0 ==> credits >= rate)
  {
    assert (most - needed) * rate >= 0;
    Tanks.QuotientAtLeast(credits, rate, needed);
    if needed > 0 { assert (needed - 1) * rate >= 0; }
  }

  lemma TopUp(c: Charts, f: Fleet)
    requires ChartsOk(c) && FleetOk(c, f) && InSkiff(f) && !Fuelled(c, f) && f.credits >= Bill(c)
    ensures Enabled(c, f, Refuel)
    ensures var after := Apply(c, f, Refuel);
            && FleetOk(c, after) && InSkiff(after) && Fuelled(c, after) && after.system == f.system
            && after.jumpClass == f.jumpClass && after.credits >= f.credits - Bill(c) && after.active == f.active
  {
    var missing := c.startFuel - f.ships[f.active].fuel;
    var needed, most := Tanks.PointsNeeded(missing), Tanks.PointsNeeded(c.startFuel);
    assert Whole(c, f.ships[f.active]);
    assert 0 < needed <= most;
    Affordable(f.credits, needed, most, c.rate);
    assert Pumped(c, f) == Tanks.Bought(needed);
    OtherStepsKeep(c, f, Refuel);
  }

  /** What a flight home is made of: refuels, and jumps that drift as the dice have it. */
  ghost predicate Homeward(steps: seq<Step>, drift: nat -> Drift) {
    forall s :: s in steps ==> s.Refuel? || (s.Jump? && exists n: nat :: s.drift == drift(n))
  }

  /** The flight is legal, and ends at a dock in the same Skiff. */
  ghost predicate Lands(c: Charts, f: Fleet, flight: seq<Step>, drift: nat -> Drift, to: string) {
    && Legal(c, f, flight) && Homeward(flight, drift)
    && var after := Exec(c, f, flight); after.system == to && after.active == f.active && InSkiff(after) && FleetOk(c, after)
  }

  /** Over one gate, filled up first when need be. */
  lemma OneLeg(c: Charts, f: Fleet, to: string, drift: nat -> Drift, n: nat) returns (leg: seq<Step>)
    requires ChartsOk(c) && SkiffCrosses(c) && FleetOk(c, f) && InSkiff(f) && f.credits >= Bill(c)
    requires Hop(c.net, f.jumpClass, 1.0, f.system, to).Some? && DriftOk(drift(n)) && !drift(n).Misalignment?
    ensures Legal(c, f, leg) && Lands(c, f, leg, drift, to) && |leg| <= 2
    ensures var after := Exec(c, f, leg);
            && FleetOk(c, after) && InSkiff(after) && after.system == to && after.jumpClass == f.jumpClass
            && after.credits >= f.credits - Bill(c)
  {
    hide ChartsOk, FleetOk, Enabled, Apply, InSkiff, SkiffCrosses, Bill, Hop, Legal, Exec;
    BillNonNegative(c);
    var jump := Jump(to, drift(n));
    if Fuelled(c, f) {
      CrossOne(c, f, to, drift(n));
      OneStep(c, f, jump);
      leg := [jump];
    } else {
      TopUp(c, f);
      var topped := Apply(c, f, Refuel);
      CrossOne(c, topped, to, drift(n));
      OneStep(c, f, Refuel);
      OneStep(c, topped, jump);
      LegsJoin(c, f, [Refuel], [jump]);
      leg := [Refuel] + [jump];
    }
  }

  lemma OneStep(c: Charts, f: Fleet, s: Step)
    requires Enabled(c, f, s)
    ensures Legal(c, f, [s]) && Exec(c, f, [s]) == Apply(c, f, s)
  {
    hide Enabled, Apply;
    assert [s][1..] == [];
  }

  lemma BillNonNegative(c: Charts)
    ensures Bill(c) >= 0
  {}

  lemma {:induction false} LegsJoin(c: Charts, f: Fleet, a: seq<Step>, b: seq<Step>)
    requires Legal(c, f, a) && Legal(c, Exec(c, f, a), b)
    ensures Legal(c, f, a + b) && Exec(c, f, a + b) == Exec(c, Exec(c, f, a), b)
    decreases |a|
  {
    hide Enabled, Apply;
    if a == [] {
      assert a + b == b;
    } else {
      assert (a + b)[1..] == a[1..] + b;
      LegsJoin(c, Apply(c, f, a[0]), a[1..], b);
    }
  }

  lemma NoFlight(c: Charts, f: Fleet, drift: nat -> Drift)
    requires InSkiff(f) && FleetOk(c, f)
    ensures Lands(c, f, [], drift, f.system)
  {}

  lemma FlightsJoin(c: Charts, f: Fleet, leg: seq<Step>, rest: seq<Step>, drift: nat -> Drift, y: string, to: string)
    requires Lands(c, f, leg, drift, y) && Lands(c, Exec(c, f, leg), rest, drift, to)
    ensures Lands(c, f, leg + rest, drift, to)
  {
    hide InSkiff, FleetOk, Legal, Exec;
    LegsJoin(c, f, leg, rest);
  }

  /** Docked in a Skiff, a path home that the rating opens, and the fare for it. */
  ghost predicate Ready(c: Charts, f: Fleet, p: seq<string>) {
    FleetOk(c, f) && InSkiff(f) && Path(c.net, f.jumpClass, 1.0, p, HOME, f.system) && f.credits >= Fare(c, |p| - 1)
  }

  ghost predicate Drifts(drift: nat -> Drift) { forall n: nat :: DriftOk(drift(n)) && !drift(n).Misalignment? }

  lemma NextLeg(c: Charts, f: Fleet, p: seq<string>, drift: nat -> Drift) returns (leg: seq<Step>)
    requires ChartsOk(c) && SkiffCrosses(c) && Ready(c, f, p) && Drifts(drift) && |p| > 1
    ensures Legal(c, f, leg) && Lands(c, f, leg, drift, p[|p| - 2]) && |leg| <= 2
    ensures Ready(c, Exec(c, f, leg), p[..|p| - 1])
  {
    assert WellFormed(c.net) by { hide FleetOk, InSkiff, SkiffCrosses, Path, WellFormed, Drifts; }
    assert DriftOk(drift(|p|)) && !drift(|p|).Misalignment? by { hide ChartsOk, FleetOk, InSkiff, SkiffCrosses, Path, DriftOk; }
    hide ChartsOk, FleetOk, Lands, Legal, Exec, InSkiff, SkiffCrosses, Bill, Fare, Hop, Path, WellFormed, Homeward, Drifts, DriftOk;
    LastHop(c.net, f.jumpClass, 1.0, p, HOME, f.system);
    FareGrows(c, |p| - 2);
    HopsReverse(c.net, f.jumpClass, 1.0, p[|p| - 2], f.system);
    leg := OneLeg(c, f, p[|p| - 2], drift, |p|);
  }

  /** The Skiff a rescued pilot is left with is enough to get home: given the fare, there is a flight
      along any path that the rating opens, whatever drift short of a misalignment it meets. */
  lemma {:induction false} TheSkiffFliesHome(c: Charts, f: Fleet, p: seq<string>, drift: nat -> Drift) returns (flight: seq<Step>)
    requires ChartsOk(c) && SkiffCrosses(c) && Ready(c, f, p) && Drifts(drift)
    ensures Lands(c, f, flight, drift, HOME) && |flight| <= 2 * (|p| - 1)
    decreases |p|
  {
    if |p| <= 1 {
      NoFlight(c, f, drift);
      flight := [];
    } else {
      hide *;
      var leg := NextLeg(c, f, p, drift);
      var rest := TheSkiffFliesHome(c, Exec(c, f, leg), p[..|p| - 1], drift);
      FlightsJoin(c, f, leg, rest, drift, p[|p| - 2], HOME);
      flight := leg + rest;
    }
  }
}
