/** What every order keeps: power, places and uniqueness on each ship, and room for the cargo. */
module ShipyardSafety {
  import opened Wrappers
  import opened Numbers
  import opened Berths
  import opened Shipyard
  import opened ShipyardMoves

  predicate Belongs(d: Option<Device>, kind: Kind) {
    d.Some? ==> KindOf(d.value.item) == kind && !d.value.item.Retired? && 0 <= d.value.grade <= MAX_GRADE
  }

  predicate InPlace(slots: Slots, kind: Kind) { forall i :: 0 <= i < |slots| ==> Belongs(slots[i], kind) }

  predicate Clash(a: Option<Device>, b: Option<Device>) {
    a.Some? && b.Some? && a.value.item == b.value.item && IsUnique(a.value.item)
  }

  predicate NoTwins(slots: Slots) { forall i, j :: 0 <= i < j < |slots| ==> !Clash(slots[i], slots[j]) }

  predicate Unshielded(slots: Slots) { forall i :: 0 <= i < |slots| && slots[i].Some? ==> !slots[i].value.item.Shield? }

  /** Each device in a slot of its kind, unique modules once, no shield where none is allowed, and
      the generator not overdrawn. */
  predicate Equipped(c: Catalog, h: Hull) {
    && h.model in c.models
    && InPlace(h.utility, Utility) && InPlace(h.weapon, Weapon) && InPlace(h.internal, Internal)
    && NoTwins(h.utility) && NoTwins(h.weapon) && NoTwins(h.internal)
    && (NoShield(c, h) ==> Unshielded(h.utility))
    && PowerUsed(c, h) <= PowerCapacity(c, h)
  }

  predicate Charged(c: Catalog, h: Hull) { 0.0 <= h.charge <= ShieldMax(c, h) }

  predicate HullOk(c: Catalog, h: Hull) { Equipped(c, h) && Charged(c, h) }

  predicate YardOk(c: Catalog, y: Yard) {
    && (forall id :: id in y.ships ==> HullOk(c, y.ships[id]))
    && (forall i :: 0 <= i < |y.inventory| ==> 0 <= y.inventory[i].grade <= MAX_GRADE)
    && IsHere(y, y.active) && 0.0 <= y.cargoUnits <= CargoCapacity(c, y.ships[y.active])
  }

  // ---------------------------------------------------------------- layouts

  predicate SameDevice(a: Option<Device>, b: Option<Device>) {
    a.Some? == b.Some? && (a.Some? ==> a.value.item == b.value.item && a.value.grade == b.value.grade)
  }

  /** The same items at the same grades in the same slots. */
  predicate Alike(a: Slots, b: Slots) { |a| == |b| && forall i :: 0 <= i < |a| ==> SameDevice(a[i], b[i]) }

  predicate AlikeHulls(g: Hull, h: Hull) {
    g.model == h.model && g.system == h.system && g.grades == h.grades && Alike(g.utility, h.utility) && Alike(g.weapon, h.weapon) && Alike(g.internal, h.internal)
  }

  ghost predicate ByLayout(f: Device -> int) {
    forall d: Device, e: Device :: d.item == e.item && d.grade == e.grade ==> f(d) == f(e)
  }

  lemma AlikeSum(a: Slots, b: Slots, f: Device -> int)
    requires Alike(a, b) && ByLayout(f)
    ensures SlotSum(a, f) == SlotSum(b, f)
  {
    forall i | 0 <= i < |a| ensures Of(b[i], f) == Of(a[i], f) { assert SameDevice(a[i], b[i]); }
    SlotSumService(a, b, f);
  }

  lemma AlikeSlots(a: Slots, b: Slots, kind: Kind)
    requires Alike(a, b)
    ensures InPlace(a, kind) ==> InPlace(b, kind)
    ensures NoTwins(a) ==> NoTwins(b)
    ensures Unshielded(a) ==> Unshielded(b)
  {
    if InPlace(a, kind) {
      forall i | 0 <= i < |b| ensures Belongs(b[i], kind) { assert SameDevice(a[i], b[i]) && Belongs(a[i], kind); }
    }
    if NoTwins(a) {
      forall i, j | 0 <= i < j < |b| ensures !Clash(b[i], b[j]) {
        assert SameDevice(a[i], b[i]) && SameDevice(a[j], b[j]) && !Clash(a[i], a[j]);
      }
    }
    if Unshielded(a) {
      forall i | 0 <= i < |b| && b[i].Some? ensures !b[i].value.item.Shield? { assert SameDevice(a[i], b[i]); }
    }
  }

  lemma {:induction false} AlikeShields(a: Slots, b: Slots)
    requires Alike(a, b)
    ensures ShieldGrade(a) == ShieldGrade(b)
    decreases |a|
  {
    if a != [] {
      assert SameDevice(a[0], b[0]);
      forall i | 0 <= i < |a[1..]| ensures SameDevice(a[1..][i], b[1..][i]) { assert SameDevice(a[i + 1], b[i + 1]); }
      AlikeShields(a[1..], b[1..]);
    }
  }

  lemma Measures(c: Catalog)
    ensures ByLayout(PowerOf(c)) && ByLayout(CargoGrades) && Neutral(PowerOf(c)) && Neutral(CargoGrades)
  {}

  lemma AlikeHullSum(g: Hull, h: Hull, f: Device -> int)
    requires AlikeHulls(g, h) && ByLayout(f)
    ensures HullSum(g, f) == HullSum(h, f) && SlotSum(g.utility, f) == SlotSum(h.utility, f)
  {
    AlikeSum(g.utility, h.utility, f);
    AlikeSum(g.weapon, h.weapon, f);
    AlikeSum(g.internal, h.internal, f);
  }

  /** Being in order depends on the layout alone. */
  lemma AlikeEquipped(c: Catalog, g: Hull, h: Hull)
    requires AlikeHulls(g, h)
    ensures Equipped(c, g) ==> Equipped(c, h)
    ensures CargoCapacity(c, g) == CargoCapacity(c, h) && ShieldMax(c, g) == ShieldMax(c, h)
  {
    Measures(c);
    hide InPlace, NoTwins, Unshielded, Alike, SlotSum, HullSum, ShieldGrade, PowerOf, ByLayout, Neutral, CargoGrades;
    AlikeSlots(g.utility, h.utility, Utility);
    AlikeSlots(g.weapon, h.weapon, Weapon);
    AlikeSlots(g.internal, h.internal, Internal);
    AlikeShields(g.utility, h.utility);
    AlikeHullSum(g, h, PowerOf(c));
    AlikeHullSum(g, h, CargoGrades);
  }

  lemma FinishedAlike(c: Catalog, h: Hull, kind: Kind, i: nat)
    requires i < |SlotsOf(h, kind)| && SlotsOf(h, kind)[i].Some?
    ensures AlikeHulls(h, Finished(c, h, kind, i))
  {
    assert forall s: Slots :: Alike(s, s);
  }

  lemma SettledAlike(c: Catalog, h: Hull)
    ensures AlikeHulls(h, Settled(c, h))
  {}

  // ---------------------------------------------------------------- one slot changes

  lemma PutSlots(slots: Slots, kind: Kind, i: nat, d: Option<Device>)
    requires i < |slots| && InPlace(slots, kind) && NoTwins(slots) && Belongs(d, kind)
    requires d.Some? && IsUnique(d.value.item) ==> !HasOther(slots, i, d.value.item)
    ensures InPlace(slots[i := d], kind) && NoTwins(slots[i := d])
    ensures Unshielded(slots) && (d.Some? ==> !d.value.item.Shield?) ==> Unshielded(slots[i := d])
  {
    var after := slots[i := d];
    forall j | 0 <= j < |after| ensures Belongs(after[j], kind) { assert Belongs(slots[j], kind); }
    forall j, k | 0 <= j < k < |after| ensures !Clash(after[j], after[k]) { assert !Clash(slots[j], slots[k]); }
  }

  lemma PutEquipped(c: Catalog, h: Hull, kind: Kind, i: nat, d: Option<Device>)
    requires CatalogOk(c) && Equipped(c, h) && i < |SlotsOf(h, kind)| && Belongs(d, kind)
    requires d.Some? ==> !Duplicate(h, kind, i, d.value.item) && !(NoShield(c, h) && d.value.item.Shield?)
    requires d.Some? ==> PowerFits(c, h, SlotsOf(h, kind)[i], d.value.item, d.value.grade)
    ensures Equipped(c, Put(h, kind, i, d)) && Put(h, kind, i, d).system == h.system
  {
    hide SlotSum, HullSum, InPlace, NoTwins, Unshielded, HasOther, Neutral, PowerOf;
    assert InPlace(SlotsOf(h, kind), kind) && NoTwins(SlotsOf(h, kind));
    PutSlots(SlotsOf(h, kind), kind, i, d);
    PutSum(h, kind, i, d, PowerOf(c));
    PowerOfIs(c, d);
    PowerOfIs(c, SlotsOf(h, kind)[i]);
  }

  lemma PowerOfIs(c: Catalog, d: Option<Device>)
    requires CatalogOk(c)
    ensures Of(d, PowerOf(c)) == DevicePower(c, d) >= 0
  {}

  lemma HoldAdds(c: Catalog, a: int, b: int)
    ensures HoldSpace(c, a + b) == HoldSpace(c, a) + HoldSpace(c, b) && HoldSpace(c, a - b) == HoldSpace(c, a) - HoldSpace(c, b)
    ensures HoldSpace(c, 0) == 0.0 && (c.cargoPerGrade >= 0.0 && a >= 0 ==> HoldSpace(c, a) >= 0.0)
  {}

  /** The capacity that the check computes is the capacity the ship then has. */
  lemma PutCargo(c: Catalog, h: Hull, kind: Kind, i: nat, d: Option<Device>)
    requires i < |SlotsOf(h, kind)| && Belongs(SlotsOf(h, kind)[i], kind) && Belongs(d, kind)
    ensures CargoCapacity(c, Put(h, kind, i, d)) == CapacityAfter(c, h, SlotsOf(h, kind)[i], d)
  {
    hide HoldSpace, SlotSum;
    var out := SlotsOf(h, kind)[i];
    var s := SlotSum(h.utility, CargoGrades);
    HoldAdds(c, 0, 0);
    HoldAdds(c, s, Of(out, CargoGrades));
    HoldAdds(c, s - Of(out, CargoGrades), Of(d, CargoGrades));
    if kind.Utility? { SlotSumUpdate(h.utility, i, d, CargoGrades); }
  }

  lemma {:induction false} ShieldsStay(slots: Slots, i: nat, d: Option<Device>)
    requires i < |slots| && slots[i].None? && (d.Some? ==> !d.value.item.Shield?)
    ensures ShieldGrade(slots[i := d]) == ShieldGrade(slots)
    decreases |slots|
  {
    if i > 0 {
      assert slots[i := d][1..] == slots[1..][i - 1 := d];
      ShieldsStay(slots[1..], i - 1, d);
    } else {
      assert slots[i := d][1..] == slots[1..];
    }
  }

  lemma {:induction false} ShieldGradeFits(slots: Slots)
    requires InPlace(slots, Utility)
    ensures ShieldGrade(slots) >= -1
    decreases |slots|
  {
    if slots != [] {
      assert Belongs(slots[0], Utility);
      assert InPlace(slots[1..], Utility);
      ShieldGradeFits(slots[1..]);
    }
  }

  lemma ShieldMaxNonNegative(c: Catalog, h: Hull)
    requires CatalogOk(c) && Equipped(c, h)
    ensures ShieldMax(c, h) >= 0.0
  {
    ShieldGradeFits(h.utility);
    assert c.shieldPerGrade * (ShieldGrade(h.utility) + 1) as real >= 0.0;
  }

  lemma SettledCharged(c: Catalog, h: Hull)
    requires CatalogOk(c) && Equipped(c, h)
    ensures HullOk(c, Settled(c, h)) && CargoCapacity(c, Settled(c, h)) == CargoCapacity(c, h) && Settled(c, h).system == h.system
  {
    SettledAlike(c, h);
    AlikeEquipped(c, h, Settled(c, h));
    ShieldMaxNonNegative(c, h);
    hide Equipped, ShieldMax, CargoCapacity, AlikeHulls, CatalogOk;
    assert Settled(c, h).charge == NormalizedShield(c, h).charge;
  }

  lemma SameShield(c: Catalog, h: Hull, kind: Kind, i: nat, d: Device)
    requires i < |SlotsOf(h, kind)| && SlotsOf(h, kind)[i].None? && !d.item.Shield?
    ensures ShieldMax(c, Put(h, kind, i, Some(d))) == ShieldMax(c, h)
  {
    if kind.Utility? { ShieldsStay(h.utility, i, Some(d)); }
  }

  /** Fitting into an empty slot keeps the shield's charge within the shield. */
  lemma FittedCharged(c: Catalog, h: Hull, kind: Kind, i: nat, d: Device)
    requires CatalogOk(c) && HullOk(c, h) && i < |SlotsOf(h, kind)| && SlotsOf(h, kind)[i].None? && KindOf(d.item) == kind
    requires Equipped(c, Put(h, kind, i, Some(d)))
    ensures Charged(c, Fitted(c, h, kind, i, d))
  {
    var g := Put(h, kind, i, Some(d));
    FinishedAlike(c, g, kind, i);
    AlikeEquipped(c, g, Fitted(c, h, kind, i, d));
    ShieldMaxNonNegative(c, g);
    hide Equipped, AlikeHulls, CatalogOk, Rearmed, ShieldMax, ShieldGrade;
    if !d.item.Shield? { SameShield(c, h, kind, i, d); }
  }

  lemma FittedEquipped(c: Catalog, h: Hull, kind: Kind, i: nat, d: Device)
    requires CatalogOk(c) && Equipped(c, h) && i < |SlotsOf(h, kind)| && Belongs(Some(d), kind)
    requires !Duplicate(h, kind, i, d.item) && !(NoShield(c, h) && d.item.Shield?)
    requires PowerFits(c, h, SlotsOf(h, kind)[i], d.item, d.grade)
    ensures Equipped(c, Put(h, kind, i, Some(d))) && Equipped(c, Fitted(c, h, kind, i, d)) && Fitted(c, h, kind, i, d).system == h.system
    ensures CargoCapacity(c, Fitted(c, h, kind, i, d)) == CapacityAfter(c, h, SlotsOf(h, kind)[i], Some(d))
  {
    PutEquipped(c, h, kind, i, Some(d));
    PutCargo(c, h, kind, i, Some(d));
    FinishedAlike(c, Put(h, kind, i, Some(d)), kind, i);
    AlikeEquipped(c, Put(h, kind, i, Some(d)), Fitted(c, h, kind, i, d));
  }

  // ---------------------------------------------------------------- whole orders

  lemma ShipReplaced(c: Catalog, y: Yard, ship: string, h: Hull)
    requires YardOk(c, y) && ship in y.ships && HullOk(c, h) && h.system == y.ships[ship].system
    requires ship == y.active ==> y.cargoUnits <= CargoCapacity(c, h)
    ensures YardOk(c, y.(ships := y.ships[ship := h]))
  {}

  lemma BonusNonNegative(c: Catalog, d: Option<Device>)
    requires CatalogOk(c) && (d.Some? ==> d.value.grade >= 0)
    ensures CargoBonus(c, d) >= 0.0
  {
    if d.Some? { HoldAdds(c, CargoGrades(d.value), 0); }
  }

  /** Filling an empty slot, from the shop or from storage. */
  lemma FillKeeps(c: Catalog, y: Yard, ship: string, kind: Kind, i: nat, d: Device)
    requires CatalogOk(c) && YardOk(c, y) && ship in y.ships && i < |SlotsOf(y.ships[ship], kind)|
    requires SlotsOf(y.ships[ship], kind)[i].None? && Belongs(Some(d), kind)
    requires !Duplicate(y.ships[ship], kind, i, d.item) && !(NoShield(c, y.ships[ship]) && d.item.Shield?)
    requires PowerFits(c, y.ships[ship], None, d.item, d.grade)
    ensures YardOk(c, y.(ships := y.ships[ship := Fitted(c, y.ships[ship], kind, i, d)]))
  {
    var h := y.ships[ship];
    hide CatalogOk, Equipped, Charged, PowerFits, Duplicate, Fitted, CargoCapacity, CargoBonus, Put;
    assert HullOk(c, h);
    FittedEquipped(c, h, kind, i, d);
    FittedCharged(c, h, kind, i, d);
    BonusNonNegative(c, Some(d));
    NoBonus(c);
    ShipReplaced(c, y, ship, Fitted(c, h, kind, i, d));
  }

  lemma NoBonus(c: Catalog)
    ensures CargoBonus(c, None) == 0.0
  {}

  /** Emptying a slot, into storage or to the shop. */
  lemma ClearKeeps(c: Catalog, y: Yard, ship: string, kind: Kind, i: nat)
    requires CatalogOk(c) && YardOk(c, y) && ship in y.ships && i < |SlotsOf(y.ships[ship], kind)|
    requires CargoStays(c, y, ship, SlotsOf(y.ships[ship], kind)[i], None)
    ensures YardOk(c, y.(ships := y.ships[ship := Settled(c, Put(y.ships[ship], kind, i, None))]))
    ensures Belongs(SlotsOf(y.ships[ship], kind)[i], kind)
  {
    var h := y.ships[ship];
    assert HullOk(c, h);
    assert Belongs(SlotsOf(h, kind)[i], kind);
    hide CatalogOk, Equipped, Charged, Settled, CargoCapacity, CargoBonus, Put;
    PutEquipped(c, h, kind, i, None);
    PutCargo(c, h, kind, i, None);
    SettledCharged(c, Put(h, kind, i, None));
    ShipReplaced(c, y, ship, Settled(c, Put(h, kind, i, None)));
  }

  lemma SwapKeeps(c: Catalog, y: Yard, ship: string, kind: Kind, i: nat, d: Device)
    requires CatalogOk(c) && YardOk(c, y) && ship in y.ships && i < |SlotsOf(y.ships[ship], kind)| && Belongs(Some(d), kind)
    requires !Duplicate(y.ships[ship], kind, i, d.item) && !(NoShield(c, y.ships[ship]) && d.item.Shield?)
    requires PowerFits(c, y.ships[ship], SlotsOf(y.ships[ship], kind)[i], d.item, d.grade)
    requires CargoStays(c, y, ship, SlotsOf(y.ships[ship], kind)[i], Some(d))
    ensures YardOk(c, y.(ships := y.ships[ship := Settled(c, Fitted(c, y.ships[ship], kind, i, d))]))
  {
    var h := y.ships[ship];
    assert HullOk(c, h);
    hide CatalogOk, Equipped, Charged, PowerFits, Duplicate, Settled, Fitted, CargoCapacity, CargoBonus, Put;
    FittedEquipped(c, h, kind, i, d);
    SettledCharged(c, Fitted(c, h, kind, i, d));
    ShipReplaced(c, y, ship, Settled(c, Fitted(c, h, kind, i, d)));
  }

  lemma MorePower(c: Catalog, n: int)
    requires c.powerPerGrade >= 0
    ensures c.powerPerGrade * (n + 1) >= c.powerPerGrade * n
  {}

  lemma UpgradedEquipped(c: Catalog, h: Hull, t: Track)
    requires CatalogOk(c) && HullOk(c, h)
    ensures var g := h.(grades := WithGrade(h.grades, t, GradeOf(h.grades, t) + 1));
            HullOk(c, g) && CargoCapacity(c, g) == CargoCapacity(c, h)
  {
    MorePower(c, h.grades.powerGen);
    hide CatalogOk, HullSum, InPlace, NoTwins, Unshielded;
  }

  lemma UpgradeKeeps(c: Catalog, y: Yard, ship: string, t: Track)
    requires CatalogOk(c) && YardOk(c, y) && ship in y.ships
    ensures var h := y.ships[ship];
            YardOk(c, y.(ships := y.ships[ship := h.(grades := WithGrade(h.grades, t, GradeOf(h.grades, t) + 1))]))
  {
    var h := y.ships[ship];
    assert HullOk(c, h);
    hide CatalogOk, HullOk, CargoCapacity, WithGrade, GradeOf;
    UpgradedEquipped(c, h, t);
    assert ship == y.active ==> y.cargoUnits <= CargoCapacity(c, h);
    hide YardOk;
    ShipReplaced(c, y, ship, h.(grades := WithGrade(h.grades, t, GradeOf(h.grades, t) + 1)));
  }

  lemma FreshIsInOrder(c: Catalog, y: Yard, model: string)
    requires CatalogOk(c) && model in c.models
    ensures HullOk(c, FreshHull(c, y, model))
  {
    var h := FreshHull(c, y, model);
    FreshSum(c, y, model, PowerOf(c));
    assert ModelOk(c.models[model]);
    assert PowerCapacity(c, h) >= 0 by { assert c.powerPerGrade * h.grades.powerGen >= 0; }
    hide PowerCapacity, CatalogOk, SlotSum, HullSum;
    assert Equipped(c, h);
    EmptyShield(|h.utility|);
    assert ShieldMax(c, h) == c.shieldPerGrade * 0.0 == 0.0;
  }

  lemma {:induction false} EmptyShield(n: nat)
    ensures ShieldGrade(seq(n, _ => None)) == -1
    decreases n
  {
    if n > 0 {
      EmptyShield(n - 1);
      var slots: Slots, rest: Slots := seq(n, _ => None), seq(n - 1, _ => None);
      assert slots[1..] == rest;
    }
  }

  /** A pilot in order has a ship here, so the free Skiff is never owed. */
  lemma NoSkiffIsOwed(c: Catalog, y: Yard, model: string)
    requires YardOk(c, y)
    ensures !Owed(c, y, model)
  {
    assert IsHere(y, y.active);
  }

  lemma AcquireKeeps(c: Catalog, y: Yard, o: Order)
    requires CatalogOk(c) && YardOk(c, y) && o.Acquire? && Refusal(c, y, o).None?
    ensures YardOk(c, Apply(c, y, o))
  {
    NoSkiffIsOwed(c, y, o.model);
    hide CatalogOk, HullOk, AcquirePrice, CargoCapacity, SoldHere, Granted, FreshHull;
    FreshIsInOrder(c, y, o.model);
  }

  lemma SwitchKeeps(c: Catalog, y: Yard, o: Order)
    requires YardOk(c, y) && o.Switch? && Refusal(c, y, o).None?
    ensures YardOk(c, Apply(c, y, o))
  {
    hide HullOk, CargoCapacity;
  }

  lemma FittingKeeps(c: Catalog, y: Yard, o: Order)
    requires CatalogOk(c) && YardOk(c, y) && (o.Install? || o.Replace? || o.Equip?) && Refusal(c, y, o).None?
    ensures YardOk(c, Apply(c, y, o))
  {
    hide CatalogOk, HullOk, PowerFits, Duplicate, CargoStays, Fitted, Settled, Price, SellValue, CargoCapacity, NoShield;
    match o {
      case Install(ship, kind, i, _, _) => FillKeeps(c, y, ship, kind, i, Bought(y, o));
      case Replace(ship, kind, i, _, _) => SwapKeeps(c, y, ship, kind, i, Bought(y, o));
      case Equip(ship, kind, i, inv) => FillKeeps(c, y, ship, kind, i, y.inventory[inv]);
    }
  }

  lemma RemovingKeeps(c: Catalog, y: Yard, o: Order)
    requires CatalogOk(c) && YardOk(c, y) && (o.Store? || o.Sell?) && Refusal(c, y, o).None?
    ensures YardOk(c, Apply(c, y, o))
  {
    hide CatalogOk, HullOk, CargoStays, Settled, SellValue, CargoCapacity, Put;
    ClearKeeps(c, y, o.ship, o.kind, o.index);
  }

  lemma BuyTrackKeeps(c: Catalog, y: Yard, o: Order)
    requires CatalogOk(c) && YardOk(c, y) && o.BuyTrack? && Refusal(c, y, o).None?
    ensures YardOk(c, Apply(c, y, o))
  {
    hide CatalogOk, HullOk, TrackPrice, CargoCapacity;
    UpgradeKeeps(c, y, o.ship, o.track);
  }

  /** Every order keeps every ship in order and the cargo within the active ship's hold. */
  lemma OrdersKeepYard(c: Catalog, y: Yard, o: Order)
    requires CatalogOk(c) && YardOk(c, y)
    ensures YardOk(c, Do(c, y, o))
  {
    hide CatalogOk, YardOk, Refusal, Apply;
    if Refusal(c, y, o).None? {
      match o {
        case Install(_, _, _, _, _) => FittingKeeps(c, y, o);
        case Store(_, _, _) => RemovingKeeps(c, y, o);
        case Sell(_, _, _) => RemovingKeeps(c, y, o);
        case Replace(_, _, _, _, _) => FittingKeeps(c, y, o);
        case Equip(_, _, _, _) => FittingKeeps(c, y, o);
        case BuyTrack(_, _) => BuyTrackKeeps(c, y, o);
        case Acquire(_) => AcquireKeeps(c, y, o);
        case Switch(_) => SwitchKeeps(c, y, o);
      }
    }
  }

  /** So it stays through any sequence of orders. */
  lemma {:induction false} YardStaysOk(c: Catalog, y: Yard, orders: seq<Order>)
    requires CatalogOk(c) && YardOk(c, y)
    ensures YardOk(c, DoAll(c, y, orders))
    decreases |orders|
  {
    hide CatalogOk, YardOk, Do;
    if orders != [] {
      OrdersKeepYard(c, y, orders[0]);
      YardStaysOk(c, Do(c, y, orders[0]), orders[1..]);
    }
  }

  /** A device that has just been fitted is ready: the shield full, the jammer charged, the EMP
      launcher armed, and every missile launcher aboard loaded. */
  lemma FittedIsReady(c: Catalog, h: Hull, kind: Kind, i: nat, d: Device)
    requires i < |SlotsOf(h, kind)| && KindOf(d.item) == kind
    ensures var g := Fitted(c, h, kind, i, d);
            && i < |SlotsOf(g, kind)| && SameDevice(SlotsOf(g, kind)[i], Some(d))
            && (d.item.Shield? ==> g.charge == ShieldMax(c, g) && !g.burst)
            && (d.item.Jammer? ==> g.jammer == c.jammerCharges(d.grade))
            && (d.item.EmpLauncher? ==> SlotsOf(g, kind)[i].value.armed)
            && (d.item.MissileLauncher? ==>
                  forall j :: 0 <= j < |g.weapon| && g.weapon[j].Some? && g.weapon[j].value.item.MissileLauncher? ==>
                    g.weapon[j].value.missiles == c.missileCapacity(g.weapon[j].value.grade))
  {}
}
