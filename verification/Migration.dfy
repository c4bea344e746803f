/** Loading a save: old saves are migrated, every save is normalized, and doing it again changes
    nothing. A save is a structured record here; its text form is not modelled. */
module Migration {
  import opened Wrappers
  import opened Numbers
  import opened Berths
  import Sums
  import Tanks = FuelTanks

  datatype Result<+T> = Ok(value: T) | Unsupported(version: int)

  datatype Dev = Dev(item: string, grade: int, fuel: real, armed: bool, missiles: int)

  type Slots = seq<Option<Dev>>

  datatype SavedShip = SavedShip(
    model: string, system: string, hull: int, hullGrade: nat, baseFuel: real,
    utility: Slots, weapon: Slots, inner: Option<Dev>, extra: Slots, jumpDrive: Option<Dev>,
    charge: real, burst: bool)

  datatype Save = Save(
    version: int, credits: int, rating: int, eridaniPermit: bool, system: string, active: string,
    fuel: real, hull: int, ships: map<string, SavedShip>, inventory: Slots)

  datatype Model = Model(utilitySlots: nat, weaponSlots: nat, internalSlots: nat, hullStart: nat)

  datatype Catalog = Catalog(
    models: map<string, Model>,
    startFuel: real, startHull: nat, hullPerGrade: nat, tankPerGrade: real,
    missileCapacity: int -> nat, shieldMax: SavedShip -> real, driveRefund: int)

  predicate CatalogOk(c: Catalog) {
    c.startFuel > 0.0 && c.tankPerGrade >= 0.0 && STARTER in c.models && forall m :: m in c.models ==> c.models[m].internalSlots >= 1
  }

  const CURRENT := 8
  const DRIVE: string := "jump_drive"
  const TANK: string := "fuel_tank"
  const LAUNCHER: string := "missile_launcher"

  // ---------------------------------------------------------------- retiring drives

  predicate IsDrive(d: Option<Dev>) { d.Some? && d.value.item == DRIVE }

  function DriveCount(devices: Slots): nat
    decreases |devices|
  {
    if devices == [] then 0 else (if IsDrive(devices[0]) then 1 else 0) + DriveCount(devices[1..])
  }

  /** Slots keep their places; a drive leaves its slot empty. */
  function Emptied(devices: Slots): (after: Slots)
    ensures |after| == |devices|
    ensures forall i :: 0 <= i < |devices| ==> after[i] == if IsDrive(devices[i]) then None else devices[i]
    decreases |devices|
  {
    if devices == [] then [] else [if IsDrive(devices[0]) then None else devices[0]] + Emptied(devices[1..])
  }

  /** The stored devices without the drives, in their order. */
  function Without(devices: Slots): Slots
    decreases |devices|
  {
    if devices == [] then []
    else if IsDrive(devices[0]) then Without(devices[1..])
    else [devices[0]] + Without(devices[1..])
  }

  function RetiredShip(s: SavedShip): SavedShip {
    s.(jumpDrive := None, inner := if IsDrive(s.inner) then None else s.inner,
       utility := Emptied(s.utility), weapon := Emptied(s.weapon))
  }

  function ShipDrives(s: SavedShip): nat {
    (if IsDrive(s.jumpDrive) then 1 else 0) + (if IsDrive(s.inner) then 1 else 0) + DriveCount(s.utility) + DriveCount(s.weapon)
  }

  ghost function FleetDrives(ships: map<string, SavedShip>): map<string, int> { map id | id in ships :: ShipDrives(ships[id]) }

  ghost function AllDrives(s: Save): int { Sums.Total(FleetDrives(s.ships)) + DriveCount(s.inventory) }

  function RetiredFleet(ships: map<string, SavedShip>): map<string, SavedShip> { map id | id in ships :: RetiredShip(ships[id]) }

  function Retired(s: Save): Save { s.(ships := RetiredFleet(s.ships), inventory := Without(s.inventory)) }

  lemma {:induction false} WithoutKeepsTheRest(devices: Slots)
    ensures |Without(devices)| + DriveCount(devices) == |devices|
    ensures forall d: Option<Dev> :: multiset(Without(devices))[d] == if IsDrive(d) then 0 else multiset(devices)[d]
    decreases |devices|
  {
    if devices != [] {
      WithoutKeepsTheRest(devices[1..]);
      assert devices == [devices[0]] + devices[1..];
    }
  }

  /** What is kept of two lists is what is kept of the first, then of the second: the order stays. */
  lemma {:induction false} WithoutKeepsOrder(a: Slots, b: Slots)
    ensures Without(a + b) == Without(a) + Without(b)
    decreases |a|
  {
    if a == [] {
      assert a + b == b;
    } else {
      assert (a + b)[1..] == a[1..] + b;
      WithoutKeepsOrder(a[1..], b);
    }
  }

  lemma {:induction false} NoneLeft(devices: Slots)
    ensures DriveCount(Emptied(devices)) == 0 && DriveCount(Without(devices)) == 0
    decreases |devices|
  {
    if devices != [] {
      NoneLeft(devices[1..]);
      assert Emptied(devices)[1..] == Emptied(devices[1..]);
      if !IsDrive(devices[0]) { assert Without(devices)[1..] == Without(devices[1..]); }
    }
  }

  /** No drive in any slot, in storage, or in the field that old ships had for one. */
  predicate Driveless(s: Save) {
    && (forall id :: id in s.ships ==> ShipDrives(s.ships[id]) == 0 && DriveCount(s.ships[id].extra) == 0)
    && DriveCount(s.inventory) == 0
  }

  lemma ShipRetires(s: SavedShip)
    ensures ShipDrives(RetiredShip(s)) == 0 && RetiredShip(RetiredShip(s)) == RetiredShip(s) && RetiredShip(s).extra == s.extra
  {
    var after := RetiredShip(s);
    NoneLeft(s.utility);
    NoneLeft(s.weapon);
    NothingToEmpty(after.utility);
    NothingToEmpty(after.weapon);
  }

  /** Retiring leaves no drive where old saves could have one. The additional internal slots are younger
      than the retirement and are not looked at, so no drive is left at all exactly when they held none. */
  lemma NoDriveSurvives(s: Save)
    ensures AllDrives(Retired(s)) == 0
    ensures forall id :: id in s.ships ==> Retired(s).ships[id].extra == s.ships[id].extra
    ensures Driveless(Retired(s)) <==> forall id :: id in s.ships ==> DriveCount(s.ships[id].extra) == 0
    ensures Retired(Retired(s)) == Retired(s)
  {
    hide RetiredShip, ShipDrives, Emptied, Without, DriveCount;
    var after := Retired(s);
    forall id | id in after.ships
      ensures ShipDrives(after.ships[id]) == 0 && RetiredShip(after.ships[id]) == after.ships[id] && after.ships[id].extra == s.ships[id].extra
    {
      ShipRetires(s.ships[id]);
    }
    AllZero(FleetDrives(after.ships));
    NoneLeft(s.inventory);
    NothingToDrop(after.inventory);
    assert Retired(after).ships == after.ships;
  }

  lemma {:induction false} NothingToEmpty(devices: Slots)
    requires DriveCount(devices) == 0
    ensures Emptied(devices) == devices
    decreases |devices|
  {
    if devices != [] { NothingToEmpty(devices[1..]); }
  }

  lemma {:induction false} NothingToDrop(devices: Slots)
    requires DriveCount(devices) == 0
    ensures Without(devices) == devices
    decreases |devices|
  {
    if devices != [] { NothingToDrop(devices[1..]); }
  }

  lemma {:induction false} AllZero(m: map<string, int>)
    requires forall k :: k in m ==> m[k] == 0
    ensures Sums.Total(m) == 0
    decreases |m|
  {
    if m != map[] {
      var k :| k in m && Sums.Total(m) == m[k] + Sums.Total(m - {k});
      AllZero(m - {k});
    }
  }

  // ---------------------------------------------------------------- fuel by slots

  predicate IsTank(d: Option<Dev>) { d.Some? && d.value.item == TANK }

  function TankCapacity(c: Catalog, d: Option<Dev>): real {
    if IsTank(d) then c.tankPerGrade * (d.value.grade + 1) as real else 0.0
  }

  function Level(d: Option<Dev>): real { if IsTank(d) then d.value.fuel else 0.0 }

  function Levels(s: SavedShip): (l: seq<real>)
    ensures |l| == |s.utility| + 1
  {
    seq(|s.utility|, i requires 0 <= i < |s.utility| => Level(s.utility[i])) + [s.baseFuel]
  }

  function Caps(c: Catalog, s: SavedShip): (l: seq<real>)
    ensures |l| == |s.utility| + 1
  {
    seq(|s.utility|, i requires 0 <= i < |s.utility| => TankCapacity(c, s.utility[i])) + [c.startFuel]
  }

  /** The ship with its tanks and base reserve at the given levels. */
  function Filled(s: SavedShip, levels: seq<real>): (t: SavedShip)
    requires |levels| == |s.utility| + 1
    ensures |t.utility| == |s.utility|
  {
    s.(baseFuel := levels[|s.utility|],
       utility := seq(|s.utility|, i requires 0 <= i < |s.utility| =>
         if IsTank(s.utility[i]) then Some(s.utility[i].value.(fuel := levels[i])) else s.utility[i]))
  }

  function Poured(c: Catalog, s: SavedShip, amount: real): SavedShip {
    Filled(s, Tanks.Fill(Tanks.Zeros(|s.utility| + 1), Caps(c, s), Clamp(amount, 0.0, Tanks.Sum(Caps(c, s)))))
  }

  function FuelAboard(c: Catalog, s: SavedShip): real { Tanks.Sum(Tanks.Clamped(Levels(s), Caps(c, s))) }

  function MaxHull(c: Catalog, s: SavedShip): int { c.startHull + c.hullPerGrade * s.hullGrade }

  function Conditioned(c: Catalog, s: SavedShip, hull: int, fuel: real): SavedShip {
    Poured(c, s.(hull := ClampInt(hull, 0, MaxHull(c, s))), fuel)
  }

  // ---------------------------------------------------------------- one ship through a load

  function Rename(d: Option<Dev>, from: string, to: Dev -> Dev): Option<Dev> {
    if d.Some? && d.value.item == from then Some(to(d.value)) else d
  }

  function Each(devices: Slots, f: Option<Dev> -> Option<Dev>): (after: Slots)
    ensures |after| == |devices| && forall i :: 0 <= i < |devices| ==> after[i] == f(devices[i])
  {
    seq(|devices|, i requires 0 <= i < |devices| => f(devices[i]))
  }

  function EmpOf(d: Option<Dev>): Option<Dev> { Rename(d, "chaff", (x: Dev) => x.(item := "emp_launcher", armed := true)) }

  function LauncherOf(c: Catalog, d: Option<Dev>): Option<Dev> {
    Rename(d, "mass_driver", (x: Dev) => x.(item := LAUNCHER, missiles := c.missileCapacity(x.grade)))
  }

  function Rearmed(c: Catalog, d: Option<Dev>): Option<Dev> { Rename(d, LAUNCHER, (x: Dev) => x.(missiles := c.missileCapacity(x.grade))) }

  function Trimmed(c: Catalog, d: Option<Dev>): Option<Dev> {
    Rename(d, LAUNCHER, (x: Dev) => x.(missiles := ClampInt(x.missiles, 0, c.missileCapacity(x.grade))))
  }

  function Padded(devices: Slots, n: nat): Slots
    decreases n - |devices|
  {
    if |devices| < n then Padded(devices + [None], n) else devices
  }

  function Shielded(c: Catalog, version: int, s: SavedShip): SavedShip {
    if version < 3 && c.shieldMax(s) > 0.0 then s.(charge := c.shieldMax(s), burst := false) else s
  }

  function WithEmp(version: int, s: SavedShip): SavedShip {
    if version < 5 then s.(utility := Each(s.utility, EmpOf), weapon := Each(s.weapon, EmpOf), inner := EmpOf(s.inner)) else s
  }

  /** Pre-6 saves kept one pooled condition for the active ship and none for the others. */
  function WithCondition(c: Catalog, version: int, active: bool, hull: int, fuel: real, s: SavedShip): SavedShip {
    if version >= 6 then Conditioned(c, s, s.hull, FuelAboard(c, s))
    else if active then Conditioned(c, s, hull, fuel)
    else Conditioned(c, s, MaxHull(c, s), Tanks.Sum(Caps(c, s)))
  }

  function WithMissiles(c: Catalog, version: int, s: SavedShip): SavedShip {
    if version < 7
    then s.(utility := Each(s.utility, d => LauncherOf(c, d)), weapon := Each(Each(s.weapon, d => LauncherOf(c, d)), d => Rearmed(c, d)))
    else s.(weapon := Each(s.weapon, d => Trimmed(c, d)))
  }

  function ExtraSlots(c: Catalog, model: string): nat
    requires CatalogOk(c)
  {
    if model in c.models then c.models[model].internalSlots - 1 else 0
  }

  function Moored(c: Catalog, version: int, system: string, s: SavedShip): SavedShip
    requires CatalogOk(c)
  {
    s.(system := if version < 8 || s.system == "" then system else s.system,
       extra := Padded(s.extra, ExtraSlots(c, s.model)), jumpDrive := None)
  }

  function Loaded(c: Catalog, version: int, active: bool, hull: int, fuel: real, system: string, s: SavedShip): SavedShip
    requires CatalogOk(c)
  {
    Moored(c, version, system, WithMissiles(c, version,
      WithCondition(c, version, active, hull, fuel, WithEmp(version, Shielded(c, version, s)))))
  }

  // ---------------------------------------------------------------- a whole save

  predicate Resolvable(c: Catalog, s: Save) { s.active != "" && s.active in s.ships && s.ships[s.active].model in c.models }

  function FreshStarter(c: Catalog, system: string): SavedShip
    requires CatalogOk(c)
  {
    var m := c.models[STARTER];
    SavedShip(STARTER, system, c.startHull + c.hullPerGrade * m.hullStart, m.hullStart, c.startFuel,
              seq(m.utilitySlots, _ => None), seq(m.weaponSlots, _ => None), None, seq(m.internalSlots - 1, _ => None),
              None, 0.0, false)
  }

  /** A save whose active ship makes no sense gets a new Skiff; otherwise ships of unknown models go. */
  function Resolved(c: Catalog, s: Save): Save
    requires CatalogOk(c)
  {
    if Resolvable(c, s) then s.(ships := map id | id in s.ships && s.ships[id].model in c.models :: s.ships[id])
    else
      var skiff := FreshStarter(c, s.system);
      s.(ships := map[STARTER := skiff], active := STARTER, fuel := c.startFuel, hull := skiff.hull)
  }

  function InventoryOf(c: Catalog, version: int, devices: Slots): Slots {
    var emps := if version < 5 then Each(devices, EmpOf) else devices;
    if version < 7 then Each(emps, d => LauncherOf(c, d)) else emps
  }

  /** The first drive became the rating; every other one is paid back. */
  function Refund(c: Catalog, drives: int): int { if drives > 1 then (drives - 1) * c.driveRefund else 0 }

  /** The saved system, or the system of the saved world, or home. */
  function Home(system: string, world: Option<string>): string {
    if system != "" then system else if world.Some? && world.value != "" then world.value else "sol"
  }

  /** The save that the ships are loaded from: drives out, a system in, and an active ship. */
  function Prepared(c: Catalog, s: Save, world: Option<string>): Save
    requires CatalogOk(c)
  {
    Resolved(c, (if s.version < 8 then Retired(s) else s).(system := Home(s.system, world)))
  }

  function LoadedShips(c: Catalog, version: int, p: Save): map<string, SavedShip>
    requires CatalogOk(c)
  {
    map id | id in p.ships :: Loaded(c, version, id == p.active, p.hull, p.fuel, p.system, p.ships[id])
  }

  ghost function Load(c: Catalog, s: Save, world: Option<string>): Result<Save>
    requires CatalogOk(c)
  {
    if s.version > CURRENT then Unsupported(s.version)
    else
      var drives := if s.version < 8 then AllDrives(s) else 0;
      var permit := s.version < 8 && s.eridaniPermit;
      var p := Prepared(c, s, world);
      var ships := LoadedShips(c, s.version, p);
      Ok(Save(CURRENT,
              s.credits + Refund(c, drives),
              if s.version >= 8 then s.rating else if drives > 0 || permit then 0 else -1,
              false, p.system, p.active,
              FuelAboard(c, ships[p.active]), ships[p.active].hull,
              ships, InventoryOf(c, s.version, p.inventory)))
  }

  // ---------------------------------------------------------------- what a loaded ship looks like

  predicate LauncherOk(c: Catalog, d: Option<Dev>) {
    d.Some? && d.value.item == LAUNCHER ==> 0 <= d.value.missiles <= c.missileCapacity(d.value.grade)
  }

  /** Fuel handed out to the first tanks first, as a load leaves it. */
  ghost predicate Stowed(c: Catalog, s: SavedShip) {
    && Tanks.Within(Levels(s), Caps(c, s))
    && Levels(s) == Tanks.Fill(Tanks.Zeros(|s.utility| + 1), Caps(c, s), Tanks.Sum(Levels(s)))
  }

  ghost predicate Tidy(c: Catalog, s: SavedShip)
    requires CatalogOk(c)
  {
    && 0 <= s.hull <= MaxHull(c, s) && Stowed(c, s) && (forall i :: 0 <= i < |s.weapon| ==> LauncherOk(c, s.weapon[i]))
    && s.system != "" && |s.extra| >= ExtraSlots(c, s.model) && s.jumpDrive.None?
  }

  predicate SaneTanks(devices: Slots) { forall i :: 0 <= i < |devices| && IsTank(devices[i]) ==> devices[i].value.grade >= 0 }

  lemma CapsNonNegative(c: Catalog, s: SavedShip)
    requires CatalogOk(c) && SaneTanks(s.utility)
    ensures Tanks.NonNegative(Caps(c, s))
  {
    forall i | 0 <= i < |Caps(c, s)| ensures Caps(c, s)[i] >= 0.0 {
      if i < |s.utility| && IsTank(s.utility[i]) {
        assert c.tankPerGrade * (s.utility[i].value.grade + 1) as real >= 0.0;
      }
    }
  }

  lemma FilledIs(c: Catalog, s: SavedShip, levels: seq<real>)
    requires |levels| == |s.utility| + 1 && Tanks.Within(levels, Caps(c, s))
    ensures Levels(Filled(s, levels)) == levels && Caps(c, Filled(s, levels)) == Caps(c, s)
  {
    var t := Filled(s, levels);
    forall i | 0 <= i < |s.utility|
      ensures Level(t.utility[i]) == levels[i] && TankCapacity(c, t.utility[i]) == TankCapacity(c, s.utility[i])
    {
      assert 0.0 <= levels[i] <= Caps(c, s)[i];
    }
  }

  lemma RefilledSame(s: SavedShip, levels: seq<real>)
    requires levels == Levels(s)
    ensures Filled(s, levels) == s
  {
    forall i | 0 <= i < |s.utility| ensures Filled(s, levels).utility[i] == s.utility[i] {
      assert levels[i] == Level(s.utility[i]);
    }
    assert Filled(s, levels).utility == s.utility;
  }

  /** Pouring leaves the ship stowed, with exactly the amount asked for as far as it fits. */
  lemma PouredIsStowed(c: Catalog, s: SavedShip, amount: real)
    requires CatalogOk(c) && SaneTanks(s.utility)
    ensures Stowed(c, Poured(c, s, amount)) && Caps(c, Poured(c, s, amount)) == Caps(c, s)
    ensures Tanks.Sum(Levels(Poured(c, s, amount))) == Clamp(amount, 0.0, Tanks.Sum(Caps(c, s)))
  {
    hide Tanks.Fill, Tanks.Sum, Filled, Levels, Caps;
    CapsNonNegative(c, s);
    var caps := Caps(c, s);
    Tanks.ZerosWithin(caps);
    Tanks.SumBounds(Tanks.Zeros(|caps|), caps);
    var x := Clamp(amount, 0.0, Tanks.Sum(caps));
    Tanks.FillCounts(Tanks.Zeros(|caps|), caps, x);
    FilledIs(c, s, Tanks.Fill(Tanks.Zeros(|caps|), caps, x));
  }

  /** A stowed ship holds what it shows, and pouring that back in changes nothing. */
  lemma StowedStays(c: Catalog, s: SavedShip)
    requires Stowed(c, s)
    ensures FuelAboard(c, s) == Tanks.Sum(Levels(s)) && Poured(c, s, FuelAboard(c, s)) == s
  {
    hide Tanks.Fill, Tanks.Sum, Filled, Levels, Caps;
    Tanks.ClampedWithin(Levels(s), Caps(c, s));
    Tanks.SumBounds(Levels(s), Caps(c, s));
    RefilledSame(s, Levels(s));
  }

  lemma TotalFits(c: Catalog, s: SavedShip)
    requires CatalogOk(c) && SaneTanks(s.utility)
    ensures 0.0 <= FuelAboard(c, s) <= Tanks.Sum(Caps(c, s))
  {
    CapsNonNegative(c, s);
    Tanks.SumBounds(Tanks.Clamped(Levels(s), Caps(c, s)), Caps(c, s));
  }

  // ---------------------------------------------------------------- one ship, loaded

  /** Other devices may change their kind, but no tank does, nor its fuel. */
  predicate SameTanks(a: Slots, b: Slots) {
    |a| == |b| && forall i :: 0 <= i < |a| ==> IsTank(a[i]) == IsTank(b[i]) && (IsTank(a[i]) ==> a[i] == b[i])
  }

  lemma SameTanksSameFuel(c: Catalog, s: SavedShip, t: SavedShip)
    requires SameTanks(s.utility, t.utility) && s.baseFuel == t.baseFuel
    ensures |t.utility| == |s.utility| && Levels(t) == Levels(s) && Caps(c, t) == Caps(c, s) && (SaneTanks(s.utility) ==> SaneTanks(t.utility))
  {
    assert forall i :: 0 <= i < |s.utility| ==> Level(t.utility[i]) == Level(s.utility[i]) && TankCapacity(c, t.utility[i]) == TankCapacity(c, s.utility[i]);
  }

  lemma EarlyStepsKeepTanks(c: Catalog, version: int, s: SavedShip)
    ensures SameTanks(s.utility, WithEmp(version, Shielded(c, version, s)).utility)
    ensures WithEmp(version, Shielded(c, version, s)).baseFuel == s.baseFuel
    ensures WithEmp(version, Shielded(c, version, s)).hull == s.hull && WithEmp(version, Shielded(c, version, s)).hullGrade == s.hullGrade
    ensures WithEmp(version, Shielded(c, version, s)).model == s.model
  {
    forall i | 0 <= i < |s.utility| && version < 5
      ensures IsTank(EmpOf(s.utility[i])) == IsTank(s.utility[i]) && (IsTank(s.utility[i]) ==> EmpOf(s.utility[i]) == s.utility[i])
    {
      DifferentNames();
    }
  }

  lemma DifferentNames()
    ensures "chaff" != TANK && "emp_launcher" != TANK && "mass_driver" != TANK && LAUNCHER != TANK && LAUNCHER != "mass_driver"
  {
    assert |"chaff"| == 5 && |"emp_launcher"| == 12 && |"mass_driver"| == 11 && |LAUNCHER| == 16 && |TANK| == 9;
  }

  lemma LauncherOne(c: Catalog, d: Option<Dev>)
    ensures LauncherOk(c, Rearmed(c, LauncherOf(c, d))) && LauncherOk(c, Trimmed(c, d))
    ensures IsTank(LauncherOf(c, d)) == IsTank(d) && (IsTank(d) ==> LauncherOf(c, d) == d)
    ensures LauncherOk(c, d) ==> Trimmed(c, d) == d
  {
    DifferentNames();
  }

  lemma MissilesKeepTanks(c: Catalog, version: int, s: SavedShip)
    ensures SameTanks(s.utility, WithMissiles(c, version, s).utility)
    ensures |WithMissiles(c, version, s).weapon| == |s.weapon|
    ensures forall i :: 0 <= i < |s.weapon| ==> LauncherOk(c, WithMissiles(c, version, s).weapon[i])
  {
    hide LauncherOk, Rearmed, LauncherOf, Trimmed, IsTank;
    forall i | 0 <= i < |s.utility| ensures IsTank(LauncherOf(c, s.utility[i])) == IsTank(s.utility[i]) {
      LauncherOne(c, s.utility[i]);
    }
    forall i | 0 <= i < |s.utility| && IsTank(s.utility[i]) ensures LauncherOf(c, s.utility[i]) == s.utility[i] {
      LauncherOne(c, s.utility[i]);
    }
    forall i | 0 <= i < |s.weapon|
      ensures LauncherOk(c, Rearmed(c, LauncherOf(c, s.weapon[i]))) && LauncherOk(c, Trimmed(c, s.weapon[i]))
    {
      LauncherOne(c, s.weapon[i]);
    }
  }

  lemma {:induction false} PaddedIs(devices: Slots, n: nat)
    ensures |Padded(devices, n)| >= n && (|devices| >= n ==> Padded(devices, n) == devices)
    decreases n - |devices|
  {
    if |devices| < n { PaddedIs(devices + [None], n); }
  }

  lemma ConditionOk(c: Catalog, version: int, active: bool, hull: int, fuel: real, s: SavedShip)
    requires CatalogOk(c) && SaneTanks(s.utility)
    ensures var t := WithCondition(c, version, active, hull, fuel, s);
            && Stowed(c, t) && 0 <= t.hull <= MaxHull(c, t) && t.weapon == s.weapon && t.model == s.model && t.hullGrade == s.hullGrade
            && (version >= 6 ==> FuelAboard(c, t) == FuelAboard(c, s) && t.hull == ClampInt(s.hull, 0, MaxHull(c, s)))
  {
    hide Tanks.Sum, Levels, Caps, Stowed;
    var amount := if version >= 6 then FuelAboard(c, s) else if active then fuel else Tanks.Sum(Caps(c, s));
    var h := if version >= 6 then s.hull else if active then hull else MaxHull(c, s);
    var t := s.(hull := ClampInt(h, 0, MaxHull(c, s)));
    SameTanksSameFuel(c, s, t);
    TotalFits(c, s);
    PouredIsStowed(c, t, amount);
    StowedStays(c, Poured(c, t, amount));
  }

  lemma MooringKeepsFuel(c: Catalog, version: int, system: string, s: SavedShip)
    requires CatalogOk(c)
    ensures Levels(Moored(c, version, system, s)) == Levels(s) && Caps(c, Moored(c, version, system, s)) == Caps(c, s)
  {}

  /** Whatever its version, a ship comes out of a load tidy. */
  lemma LoadedIsTidy(c: Catalog, version: int, active: bool, hull: int, fuel: real, system: string, s: SavedShip)
    requires CatalogOk(c) && SaneTanks(s.utility) && system != ""
    ensures Tidy(c, Loaded(c, version, active, hull, fuel, system, s))
    ensures Loaded(c, version, active, hull, fuel, system, s).model == s.model
    ensures version >= 6 ==>
              && FuelAboard(c, Loaded(c, version, active, hull, fuel, system, s)) == FuelAboard(c, s)
              && Loaded(c, version, active, hull, fuel, system, s).hull == ClampInt(s.hull, 0, MaxHull(c, s))
  {
    hide Tanks.Sum, Tanks.Fill, Levels, Caps, SameTanks, SaneTanks, LauncherOk, WithEmp, Shielded, Padded, Each;
    var s1 := WithEmp(version, Shielded(c, version, s));
    EarlyStepsKeepTanks(c, version, s);
    SameTanksSameFuel(c, s, s1);
    ConditionOk(c, version, active, hull, fuel, s1);
    var s2 := WithCondition(c, version, active, hull, fuel, s1);
    hide WithCondition;
    MissilesKeepTanks(c, version, s2);
    var s3 := WithMissiles(c, version, s2);
    SameTanksSameFuel(c, s2, s3);
    MooringKeepsFuel(c, version, system, s3);
    hide WithMissiles;
    PaddedIs(s2.extra, ExtraSlots(c, s.model));
  }

  /** ... and a tidy ship comes out of a load as it went in. */
  lemma TidyStays(c: Catalog, active: bool, hull: int, fuel: real, system: string, s: SavedShip)
    requires CatalogOk(c) && Tidy(c, s)
    ensures Loaded(c, CURRENT, active, hull, fuel, system, s) == s
  {
    hide Tanks.Sum, Tanks.Fill, Levels, Caps, LauncherOk, Padded, Poured, FuelAboard;
    StowedStays(c, s);
    PaddedIs(s.extra, ExtraSlots(c, s.model));
    assert s.(hull := ClampInt(s.hull, 0, MaxHull(c, s))) == s;
    var after := Each(s.weapon, d => Trimmed(c, d));
    forall i | 0 <= i < |s.weapon| ensures after[i] == s.weapon[i] { LauncherOne(c, s.weapon[i]); }
    assert after == s.weapon;
  }

  // ---------------------------------------------------------------- a whole save, loaded

  ghost predicate Sane(s: Save) { forall id :: id in s.ships ==> SaneTanks(s.ships[id].utility) }

  lemma PreparedIsSane(c: Catalog, s: Save, world: Option<string>)
    requires CatalogOk(c) && Sane(s)
    ensures var p := Prepared(c, s, world);
            && Sane(p) && p.system != "" && p.active != "" && p.active in p.ships
            && forall id :: id in p.ships ==> p.ships[id].model in c.models
  {
    hide Without, MaxHull;
    forall id | id in s.ships ensures SaneTanks(Emptied(s.ships[id].utility)) {
      assert SaneTanks(s.ships[id].utility);
    }
    assert SaneTanks(FreshStarter(c, Home(s.system, world)).utility);
    assert STARTER != "" by { assert |STARTER| == 5; }
  }

  ghost predicate Settled(c: Catalog, t: Save)
    requires CatalogOk(c)
  {
    && t.version == CURRENT && !t.eridaniPermit && t.system != "" && t.active != "" && t.active in t.ships
    && (forall id :: id in t.ships ==> Tidy(c, t.ships[id]) && t.ships[id].model in c.models)
    && t.fuel == FuelAboard(c, t.ships[t.active]) && t.hull == t.ships[t.active].hull
  }

  lemma ShipsAreTidy(c: Catalog, version: int, p: Save, id: string)
    requires CatalogOk(c) && Sane(p) && p.system != "" && id in p.ships
    ensures var t := LoadedShips(c, version, p)[id];
            && Tidy(c, t) && t.model == p.ships[id].model
            && (version >= 6 ==> FuelAboard(c, t) == FuelAboard(c, p.ships[id])
                                 && t.hull == ClampInt(p.ships[id].hull, 0, MaxHull(c, p.ships[id])))
  {
    hide Tidy, FuelAboard, SaneTanks, Loaded;
    LoadedIsTidy(c, version, id == p.active, p.hull, p.fuel, p.system, p.ships[id]);
  }

  lemma LoadSettles(c: Catalog, s: Save, world: Option<string>)
    requires CatalogOk(c) && Sane(s) && Load(c, s, world).Ok?
    ensures Settled(c, Load(c, s, world).value)
  {
    hide Prepared, Tidy, FuelAboard, Sane, AllDrives, InventoryOf, Refund, Loaded;
    PreparedIsSane(c, s, world);
    var p := Prepared(c, s, world);
    forall id | id in p.ships
      ensures Tidy(c, LoadedShips(c, s.version, p)[id]) && LoadedShips(c, s.version, p)[id].model == p.ships[id].model
    {
      ShipsAreTidy(c, s.version, p, id);
    }
  }

  lemma SettledStays(c: Catalog, t: Save, world: Option<string>)
    requires CatalogOk(c) && Settled(c, t)
    ensures Load(c, t, world) == Ok(t)
  {
    hide Tidy, FuelAboard, AllDrives, Retired, FreshStarter, LoadedShips;
    var home := t.(system := Home(t.system, world));
    assert home == t;
    assert Resolved(c, t) == t by {
      assert (map id | id in t.ships && t.ships[id].model in c.models :: t.ships[id]) == t.ships;
    }
    ShipsStay(c, t);
  }

  lemma ShipsStay(c: Catalog, t: Save)
    requires CatalogOk(c) && forall id :: id in t.ships ==> Tidy(c, t.ships[id])
    ensures LoadedShips(c, CURRENT, t) == t.ships
  {
    hide Tidy, Loaded;
    forall id | id in t.ships ensures LoadedShips(c, CURRENT, t)[id] == t.ships[id] {
      TidyStays(c, id == t.active, t.hull, t.fuel, t.system, t.ships[id]);
    }
  }

  /** Saving what was loaded and loading it again changes nothing, whatever version the save began as:
      no migration runs twice and no refund is paid twice. */
  lemma LoadingTwiceIsLoadingOnce(c: Catalog, s: Save, world: Option<string>, again: Option<string>)
    requires CatalogOk(c) && Sane(s) && s.version <= CURRENT
    ensures Load(c, s, world).Ok? && Load(c, Load(c, s, world).value, again) == Load(c, s, world)
  {
    LoadSettles(c, s, world);
    SettledStays(c, Load(c, s, world).value, again);
    hide Load, Settled;
  }

  /** An old save's first drive becomes the rating and each further one is paid for, once and for all. */
  lemma DrivesArePaidBackOnce(c: Catalog, s: Save, world: Option<string>, again: Option<string>)
    requires CatalogOk(c) && Sane(s) && s.version < CURRENT
    ensures var t := Load(c, s, world); var u := Load(c, t.value, again);
            && u.Ok? && u.value.credits == s.credits + (if AllDrives(s) > 1 then (AllDrives(s) - 1) * c.driveRefund else 0)
            && u.value.rating == (if AllDrives(s) > 0 || s.eridaniPermit then 0 else -1)
  {
    LoadingTwiceIsLoadingOnce(c, s, world, again);
    hide Prepared, LoadedShips, FuelAboard, InventoryOf, AllDrives;
  }

  /** Loading moves fuel between tanks but neither makes nor loses any, and keeps each hull that was in
      range. Every ship of a known model survives, unless the save's active ship makes no sense. */
  lemma LoadingKeepsCondition(c: Catalog, s: Save, world: Option<string>, id: string)
    requires CatalogOk(c) && Sane(s) && 6 <= s.version <= CURRENT && Resolvable(c, s)
    requires id in s.ships && s.ships[id].model in c.models
    ensures var t := Load(c, s, world).value;
            && id in t.ships && FuelAboard(c, t.ships[id]) == FuelAboard(c, s.ships[id])
            && t.ships[id].hull == ClampInt(s.ships[id].hull, 0, MaxHull(c, s.ships[id]))
  {
    hide Prepared, Loaded, FuelAboard, RetiredShip, Tidy, Sane, MaxHull, Resolvable, AllDrives, InventoryOf, Refund;
    PreparedIsSane(c, s, world);
    PreparedKeeps(c, s, world, id);
    EmptyingKeepsTanks(c, s.ships[id]);
    ShipsAreTidy(c, s.version, Prepared(c, s, world), id);
  }

  lemma PreparedKeeps(c: Catalog, s: Save, world: Option<string>, id: string)
    requires CatalogOk(c) && Resolvable(c, s) && id in s.ships && s.ships[id].model in c.models
    ensures id in Prepared(c, s, world).ships
    ensures Prepared(c, s, world).ships[id] == if s.version < 8 then RetiredShip(s.ships[id]) else s.ships[id]
  {
    hide Emptied, Without;
  }

  lemma EmptyingKeepsTanks(c: Catalog, s: SavedShip)
    ensures FuelAboard(c, RetiredShip(s)) == FuelAboard(c, s) && RetiredShip(s).hull == s.hull && MaxHull(c, RetiredShip(s)) == MaxHull(c, s)
  {
    assert DRIVE != TANK by { assert |DRIVE| == 10 && |TANK| == 9; }
    SameTanksSameFuel(c, s, RetiredShip(s));
  }

  // ---------------------------------------------------------------- retiring, step by step

  method RetireSlots(devices: Slots) returns (after: Slots, count: nat)
    ensures after == Emptied(devices) && count == DriveCount(devices)
  {
    after, count := [], 0;
    var i := |devices|;
    assert devices[i..] == [];
    while i > 0
      invariant 0 <= i <= |devices| && after == Emptied(devices[i..]) && count == DriveCount(devices[i..])
    {
      i := i - 1;
      assert devices[i..][1..] == devices[i + 1..];
      if IsDrive(devices[i]) {
        after, count := [None] + after, count + 1;
      } else {
        after := [devices[i]] + after;
      }
    }
    assert devices[0..] == devices;
  }

  method DropStored(devices: Slots) returns (kept: Slots, count: nat)
    ensures kept == Without(devices) && count == DriveCount(devices)
  {
    kept, count := [], 0;
    assert devices[..0] == [];
    for i := 0 to |devices|
      invariant kept == Without(devices[..i]) && count == DriveCount(devices[..i])
    {
      assert devices[..i + 1] == devices[..i] + [devices[i]];
      WithoutKeepsOrder(devices[..i], [devices[i]]);
      CountsAdd(devices[..i], devices[i]);
      if IsDrive(devices[i]) {
        count := count + 1;
      } else {
        kept := kept + [devices[i]];
      }
    }
    assert devices[..|devices|] == devices;
  }

  lemma {:induction false} CountsAdd(devices: Slots, d: Option<Dev>)
    ensures DriveCount(devices + [d]) == DriveCount(devices) + (if IsDrive(d) then 1 else 0)
    decreases |devices|
  {
    if devices != [] {
      assert (devices + [d])[1..] == devices[1..] + [d];
      CountsAdd(devices[1..], d);
    }
  }

  method RetireShip(s: SavedShip) returns (after: SavedShip, count: nat)
    ensures after == RetiredShip(s) && count == ShipDrives(s)
  {
    var utility, u := RetireSlots(s.utility);
    var weapon, w := RetireSlots(s.weapon);
    count := u + w;
    if IsDrive(s.jumpDrive) { count := count + 1; }
    after := s.(jumpDrive := None, utility := utility, weapon := weapon);
    if IsDrive(s.inner) {
      count := count + 1;
      after := after.(inner := None);
    }
  }

  method RetireFleet(ships: map<string, SavedShip>) returns (after: map<string, SavedShip>, count: int)
    ensures after == RetiredFleet(ships) && count == Sums.Total(FleetDrives(ships))
  {
    after, count := map[], 0;
    var rest := ships.Keys;
    assert ships - rest == map[] && FleetDrives(map[]) == map[] && RetiredFleet(map[]) == map[];
    hide RetiredShip, ShipDrives, FleetDrives, RetiredFleet, Sums.Total;
    while rest != {}
      invariant rest <= ships.Keys && after == RetiredFleet(ships - rest) && count == Sums.Total(FleetDrives(ships - rest))
      decreases |rest|
    {
      var id :| id in rest;
      OneMoreShip(ships, rest, id);
      rest := rest - {id};
      var ship, n := RetireShip(ships[id]);
      after := after[id := ship];
      count := count + n;
    }
    assert ships - {} == ships;
  }

  /** Takes the drives out of an old save, in whatever order its ships come, and counts them. */
  method RetireLegacyDrives(s: Save) returns (after: Save, count: int)
    ensures if s.version >= 8 then after == s && count == 0 else after == Retired(s) && count == AllDrives(s)
  {
    if s.version >= 8 { return s, 0; }
    var ships, n := RetireFleet(s.ships);
    var kept, m := DropStored(s.inventory);
    return s.(ships := ships, inventory := kept), n + m;
  }

  lemma OneMoreShip(ships: map<string, SavedShip>, rest: set<string>, id: string)
    requires id in rest && rest <= ships.Keys
    ensures Sums.Total(FleetDrives(ships - (rest - {id}))) == Sums.Total(FleetDrives(ships - rest)) + ShipDrives(ships[id])
    ensures RetiredFleet(ships - (rest - {id})) == RetiredFleet(ships - rest)[id := RetiredShip(ships[id])]
  {
    hide ShipDrives, RetiredShip, Sums.Total;
    var seen := ships - rest;
    assert ships - (rest - {id}) == seen[id := ships[id]];
    assert FleetDrives(seen[id := ships[id]]) == FleetDrives(seen)[id := ShipDrives(ships[id])];
    Sums.TotalUpdate(FleetDrives(seen), id, ShipDrives(ships[id]));
  }
}
