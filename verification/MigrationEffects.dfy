/** What each old device, ship and account has become after a load, version by version. */
module MigrationEffects {
  import opened Wrappers
  import opened Numbers
  import opened Berths
  import Sums
  import Tanks = FuelTanks
  import opened Migration

  // ---------------------------------------------------------------- devices

  /** What a device in a utility or weapon slot, or in storage, is after the load: old chaff launchers are armed EMP
      launchers, old mass drivers loaded missile launchers, a tank may hold other fuel, and the rest is as it was. */
  predicate Becomes(c: Catalog, version: int, d: Option<Dev>, e: Option<Dev>) {
    match d
    case None => e.None?
    case Some(x) =>
      e.Some? &&
      if x.item == "chaff" && version < 5 then e.value == x.(item := "emp_launcher", armed := true)
      else if x.item == "mass_driver" && version < 7 then e.value == x.(item := LAUNCHER, missiles := c.missileCapacity(x.grade))
      else if x.item == TANK then e.value == x.(fuel := e.value.fuel)
      else e == d
  }

  /** The same in a weapon slot, where missile launchers are looked after too: old saves had no ammunition, so
      theirs are loaded, and later ones keep theirs as far as it fits. */
  predicate BecomesWeapon(c: Catalog, version: int, d: Option<Dev>, e: Option<Dev>) {
    if d.Some? && d.value.item == LAUNCHER then
      var most := c.missileCapacity(d.value.grade);
      && e.Some? && e.value == d.value.(missiles := e.value.missiles)
      && (if version < 7 then e.value.missiles == most
          else if 0 <= d.value.missiles <= most then e == d
          else e.value.missiles == if d.value.missiles < 0 then 0 else most)
    else Becomes(c, version, d, e)
  }

  predicate AllBecome(c: Catalog, version: int, a: Slots, b: Slots) {
    |a| == |b| && forall i :: 0 <= i < |a| ==> Becomes(c, version, a[i], b[i])
  }

  predicate WeaponsBecome(c: Catalog, version: int, a: Slots, b: Slots) {
    |a| == |b| && forall i :: 0 <= i < |a| ==> BecomesWeapon(c, version, a[i], b[i])
  }

  lemma OneBecomes(c: Catalog, version: int, d: Option<Dev>)
    ensures version < 5 ==> Becomes(c, version, d, LauncherOf(c, EmpOf(d)))
    ensures 5 <= version < 7 ==> Becomes(c, version, d, LauncherOf(c, d))
    ensures version >= 7 ==> Becomes(c, version, d, d)
    ensures version < 5 ==> BecomesWeapon(c, version, d, Rearmed(c, LauncherOf(c, EmpOf(d))))
    ensures 5 <= version < 7 ==> BecomesWeapon(c, version, d, Rearmed(c, LauncherOf(c, d)))
    ensures version >= 7 ==> BecomesWeapon(c, version, d, Trimmed(c, d))
  {
    DifferentNames();
    assert |"chaff"| == 5 && |"emp_launcher"| == 12 && |"mass_driver"| == 11 && |LAUNCHER| == 16;
  }

  /** Storage keeps its order and gets the same devices as the slots. */
  lemma StorageMigrates(c: Catalog, version: int, devices: Slots)
    ensures AllBecome(c, version, devices, InventoryOf(c, version, devices))
  {
    forall i | 0 <= i < |devices| ensures Becomes(c, version, devices[i], InventoryOf(c, version, devices)[i]) {
      OneBecomes(c, version, devices[i]);
    }
    hide Becomes, EmpOf, LauncherOf;
  }

  // ---------------------------------------------------------------- a ship

  predicate SlotsMigrate(c: Catalog, version: int, s: SavedShip, t: SavedShip) {
    && AllBecome(c, version, s.utility, t.utility) && WeaponsBecome(c, version, s.weapon, t.weapon)
    && (if version < 5 && s.inner.Some? && s.inner.value.item == "chaff"
        then t.inner == Some(s.inner.value.(item := "emp_launcher", armed := true)) else t.inner == s.inner)
  }

  /** Slots that the model has gained since are there, empty; the others are as they were. */
  predicate Extended(before: Slots, after: Slots, n: nat) {
    && |after| == (if |before| < n then n else |before|)
    && forall i :: 0 <= i < |after| ==> after[i] == if i < |before| then before[i] else None
  }

  lemma {:induction false} PaddingExtends(devices: Slots, n: nat)
    ensures Extended(devices, Padded(devices, n), n)
    decreases n - |devices|
  {
    if |devices| < n { PaddingExtends(devices + [None], n); }
  }

  /** Hull and fuel. Saves before 6 had one condition, the active ship's; the others were in full order. */
  predicate ConditionMigrates(c: Catalog, version: int, active: bool, hull: int, fuel: real, s: SavedShip, t: SavedShip) {
    var most, full := c.startHull + c.hullPerGrade * s.hullGrade, Tanks.Sum(Caps(c, s));
    && t.hullGrade == s.hullGrade
    && t.hull == (if version >= 6 then ClampInt(s.hull, 0, most) else if active then ClampInt(hull, 0, most) else most)
    && FuelAboard(c, t) == (if version >= 6 then FuelAboard(c, s) else if active then Clamp(fuel, 0.0, full) else full)
  }

  /** Shields from before 3 start charged; a ship without a place is where the pilot is. */
  predicate RestMigrates(c: Catalog, version: int, system: string, s: SavedShip, t: SavedShip)
    requires CatalogOk(c)
  {
    && t.model == s.model && t.jumpDrive.None?
    && t.system == (if version < 8 || s.system == "" then system else s.system)
    && (if version < 3 && c.shieldMax(s) > 0.0 then t.charge == c.shieldMax(s) && !t.burst else t.charge == s.charge && t.burst == s.burst)
    && Extended(s.extra, t.extra, if s.model in c.models then c.models[s.model].internalSlots - 1 else 0)
  }

  lemma RestIsMigrated(c: Catalog, version: int, active: bool, hull: int, fuel: real, system: string, s: SavedShip)
    requires CatalogOk(c)
    ensures RestMigrates(c, version, system, s, Loaded(c, version, active, hull, fuel, system, s))
  {
    hide Padded, Tanks.Fill, Tanks.Sum, Caps, Levels, FuelAboard, MaxHull, Each, LauncherOf, Rearmed, Trimmed, EmpOf;
    PaddingExtends(s.extra, ExtraSlots(c, s.model));
    hide Extended;
  }

  lemma ConditionIsMigrated(c: Catalog, version: int, active: bool, hull: int, fuel: real, system: string, s: SavedShip)
    requires CatalogOk(c) && SaneTanks(s.utility)
    ensures ConditionMigrates(c, version, active, hull, fuel, s, Loaded(c, version, active, hull, fuel, system, s))
  {
    hide Tanks.Sum, Tanks.Fill, Levels, Caps, SameTanks, SaneTanks, LauncherOk, WithEmp, Shielded, Padded, Each, FuelAboard, Poured;
    var s1 := WithEmp(version, Shielded(c, version, s));
    EarlyStepsKeepTanks(c, version, s);
    SameTanksSameFuel(c, s, s1);
    SameAboard(c, s, s1);
    PouredConditions(c, version, active, hull, fuel, s1);
    var s2 := WithCondition(c, version, active, hull, fuel, s1);
    hide WithCondition;
    MissilesKeepTanks(c, version, s2);
    var s3 := WithMissiles(c, version, s2);
    SameTanksSameFuel(c, s2, s3);
    SameAboard(c, s2, s3);
    MooringKeepsFuel(c, version, system, s3);
    SameAboard(c, s3, Moored(c, version, system, s3));
  }

  lemma SameAboard(c: Catalog, s: SavedShip, t: SavedShip)
    requires Levels(s) == Levels(t) && Caps(c, s) == Caps(c, t)
    ensures FuelAboard(c, s) == FuelAboard(c, t)
  {}

  lemma PouredConditions(c: Catalog, version: int, active: bool, hull: int, fuel: real, s: SavedShip)
    requires CatalogOk(c) && SaneTanks(s.utility)
    ensures ConditionMigrates(c, version, active, hull, fuel, s, WithCondition(c, version, active, hull, fuel, s))
  {
    hide Tanks.Sum, Levels, Caps, Stowed, FuelAboard, Tanks.Fill;
    var full := Tanks.Sum(Caps(c, s));
    var amount := if version >= 6 then FuelAboard(c, s) else if active then fuel else full;
    var h := if version >= 6 then s.hull else if active then hull else MaxHull(c, s);
    var t := s.(hull := ClampInt(h, 0, MaxHull(c, s)));
    assert MaxHull(c, s) >= 0 by { assert c.hullPerGrade * s.hullGrade >= 0; }
    SameTanksSameFuel(c, s, t);
    SameAboard(c, s, t);
    TotalFits(c, s);
    PouredIsStowed(c, t, amount);
    StowedStays(c, Poured(c, t, amount));
    assert WithCondition(c, version, active, hull, fuel, s) == Poured(c, t, amount);
  }

  /** The same device, but for the fuel in a tank. */
  predicate Refuelled(d: Option<Dev>, e: Option<Dev>) {
    if IsTank(d) then e.Some? && e.value == d.value.(fuel := e.value.fuel) else e == d
  }

  lemma RefuelledBecomes(c: Catalog, version: int, d: Option<Dev>, e: Option<Dev>)
    requires Refuelled(if version < 5 then EmpOf(d) else d, e)
    ensures Becomes(c, version, d, if version < 7 then LauncherOf(c, e) else e)
  {
    DifferentNames();
    assert |"chaff"| == 5 && |"emp_launcher"| == 12 && |"mass_driver"| == 11;
  }

  lemma FillingRefuels(c: Catalog, version: int, active: bool, hull: int, fuel: real, s: SavedShip)
    requires CatalogOk(c)
    ensures var t := WithCondition(c, version, active, hull, fuel, s);
            |t.utility| == |s.utility| && forall i :: 0 <= i < |s.utility| ==> Refuelled(s.utility[i], t.utility[i])
  {
    hide Tanks.Sum, Caps, Levels, FuelAboard, MaxHull, Tanks.Fill;
  }

  lemma UtilityBecomes(c: Catalog, version: int, active: bool, hull: int, fuel: real, system: string, s: SavedShip)
    requires CatalogOk(c)
    ensures AllBecome(c, version, s.utility, Loaded(c, version, active, hull, fuel, system, s).utility)
  {
    hide Padded, Tanks.Sum, Caps, Levels, FuelAboard, MaxHull, LauncherOf, EmpOf, Rearmed, Trimmed, IsTank, Becomes, Refuelled;
    var s1 := WithEmp(version, Shielded(c, version, s));
    var s2 := WithCondition(c, version, active, hull, fuel, s1);
    FillingRefuels(c, version, active, hull, fuel, s1);
    hide WithCondition;
    forall i | 0 <= i < |s.utility|
      ensures Becomes(c, version, s.utility[i], if version < 7 then LauncherOf(c, s2.utility[i]) else s2.utility[i])
    {
      RefuelledBecomes(c, version, s.utility[i], s2.utility[i]);
    }
  }

  lemma SlotsAreMigrated(c: Catalog, version: int, active: bool, hull: int, fuel: real, system: string, s: SavedShip)
    requires CatalogOk(c)
    ensures SlotsMigrate(c, version, s, Loaded(c, version, active, hull, fuel, system, s))
  {
    hide Padded, Tanks.Fill, Tanks.Sum, Caps, Levels, FuelAboard, MaxHull, LauncherOf, Rearmed, Trimmed, Becomes, BecomesWeapon;
    var t := Loaded(c, version, active, hull, fuel, system, s);
    forall i | 0 <= i < |s.weapon| ensures BecomesWeapon(c, version, s.weapon[i], t.weapon[i]) {
      OneBecomes(c, version, s.weapon[i]);
    }
    UtilityBecomes(c, version, active, hull, fuel, system, s);
  }

  // ---------------------------------------------------------------- drives

  function Count(devices: Slots): nat
    decreases |devices|
  {
    if devices == [] then 0 else (if devices[0].Some? then 1 else 0) + Count(devices[1..])
  }

  /** All devices of a ship, in whatever place. */
  function Aboard(s: SavedShip): nat {
    (if s.jumpDrive.Some? then 1 else 0) + (if s.inner.Some? then 1 else 0) + Count(s.utility) + Count(s.weapon) + Count(s.extra)
  }

  lemma {:induction false} EmptyingCounts(devices: Slots)
    ensures Count(devices) == Count(Emptied(devices)) + DriveCount(devices)
    decreases |devices|
  {
    if devices != [] {
      EmptyingCounts(devices[1..]);
      assert Emptied(devices)[1..] == Emptied(devices[1..]);
    }
  }

  /** A ship is rated and paid for exactly the devices it has lost. */
  lemma EveryDriveCounts(s: SavedShip)
    requires s.jumpDrive.None? || IsDrive(s.jumpDrive)
    ensures ShipDrives(s) == Aboard(s) - Aboard(RetiredShip(s))
  {
    EmptyingCounts(s.utility);
    EmptyingCounts(s.weapon);
  }

  // ---------------------------------------------------------------- a whole save

  /** Every ship of a known model is there after the load, each slot's device become what it should, in the
      condition it had, where it was. */
  lemma ShipsMigrate(c: Catalog, s: Save, world: Option<string>, id: string)
    requires CatalogOk(c) && Sane(s) && s.version <= CURRENT && Resolvable(c, s)
    requires id in s.ships && s.ships[id].model in c.models
    ensures Load(c, s, world).Ok? && id in Load(c, s, world).value.ships
    ensures var from := if s.version < 8 then RetiredShip(s.ships[id]) else s.ships[id];
            var t, active := Load(c, s, world).value, id == s.active;
            && SlotsMigrate(c, s.version, from, t.ships[id])
            && ConditionMigrates(c, s.version, active, s.hull, s.fuel, from, t.ships[id])
            && RestMigrates(c, s.version, t.system, from, t.ships[id])
            && t.active == s.active
  {
    hide AllDrives, InventoryOf, Refund, FuelAboard, Tidy, Loaded, SlotsMigrate, ConditionMigrates, RestMigrates, RetiredShip, Sane, SaneTanks, Retired;
    var from := if s.version < 8 then RetiredShip(s.ships[id]) else s.ships[id];
    var p := Prepared(c, s, world);
    PreparedKeeps(c, s, world, id);
    PreparedIsSane(c, s, world);
    PreparedNames(c, s, world);
    assert SaneTanks(from.utility) by { SaneShip(p, id); }
    hide Prepared;
    var active := id == s.active;
    SlotsAreMigrated(c, s.version, active, s.hull, s.fuel, p.system, from);
    ConditionIsMigrated(c, s.version, active, s.hull, s.fuel, p.system, from);
    RestIsMigrated(c, s.version, active, s.hull, s.fuel, p.system, from);
  }

  /** Storage migrates like the slots do, an up-to-date account is left alone, the pilot's shown condition is the
      active ship's, and only a save from the future is refused. */
  lemma AccountsMigrate(c: Catalog, s: Save, world: Option<string>)
    requires CatalogOk(c) && Sane(s)
    ensures Load(c, s, world).Ok? <==> s.version <= CURRENT
    ensures s.version <= CURRENT ==>
              var t := Load(c, s, world).value;
              && AllBecome(c, s.version, if s.version < 8 then Without(s.inventory) else s.inventory, t.inventory)
              && (s.version == CURRENT ==> t.credits == s.credits && t.rating == s.rating)
              && t.system == (if s.system != "" then s.system else if world == None || world == Some("") then "sol" else world.value)
              && t.active in t.ships && t.hull == t.ships[t.active].hull && t.fuel == FuelAboard(c, t.ships[t.active])
  {
    hide Tidy, FuelAboard, Sane, AllDrives, Loaded, AllBecome, InventoryOf, RetiredShip, FreshStarter;
    if s.version <= CURRENT {
      PreparedIsSane(c, s, world);
      StorageMigrates(c, s.version, if s.version < 8 then Without(s.inventory) else s.inventory);
    }
  }

  lemma SaneShip(s: Save, id: string)
    requires Sane(s) && id in s.ships
    ensures SaneTanks(s.ships[id].utility)
  {}

  lemma PreparedNames(c: Catalog, s: Save, world: Option<string>)
    requires CatalogOk(c) && Resolvable(c, s)
    ensures var p := Prepared(c, s, world);
            p.active == s.active && p.hull == s.hull && p.fuel == s.fuel && (s.system != "" ==> p.system == s.system)
  {
    hide RetiredShip, Without;
    if s.version < 8 { RetiringKeepsModels(s); }
  }

  lemma RetiringKeepsModels(s: Save)
    ensures forall id :: id in s.ships ==> RetiredShip(s.ships[id]).model == s.ships[id].model
  {}

  /** A save that names no ship of a known model gets a whole new Skiff where the pilot is, and nothing else. */
  lemma LostFleetsAreReplaced(c: Catalog, s: Save, world: Option<string>)
    requires CatalogOk(c) && Sane(s) && s.version <= CURRENT && !Resolvable(c, s)
    ensures var t := Load(c, s, world).value;
            && t.active == STARTER && t.ships.Keys == {STARTER} && t.ships[STARTER].model == STARTER && t.ships[STARTER].system == t.system
            && t.ships[STARTER].hull == c.startHull + c.hullPerGrade * c.models[STARTER].hullStart
  {
    hide AllDrives, InventoryOf, Refund, FuelAboard, Tidy, Loaded, Prepared, Sane, SaneTanks, Caps, Tanks.Sum, Extended, Resolvable;
    UnresolvedIsReplaced(c, s, world);
    PreparedIsSane(c, s, world);
    var p := Prepared(c, s, world);
    SaneShip(p, STARTER);
    RestIsMigrated(c, s.version, true, p.hull, p.fuel, p.system, p.ships[STARTER]);
    ConditionIsMigrated(c, s.version, true, p.hull, p.fuel, p.system, p.ships[STARTER]);
    assert c.hullPerGrade * c.models[STARTER].hullStart >= 0;
  }

  lemma UnresolvedIsReplaced(c: Catalog, s: Save, world: Option<string>)
    requires CatalogOk(c) && !Resolvable(c, s)
    ensures var p := Prepared(c, s, world);
            p.ships == map[STARTER := FreshStarter(c, p.system)] && p.active == STARTER && p.hull == FreshStarter(c, p.system).hull
  {
    hide RetiredShip, Without, FreshStarter;
    if s.version < 8 { RetiringKeepsModels(s); }
  }
}
