/** The dockyard: devices move between slots, storage and the shop, and ships are bought and
    upgraded. Every device carries a serial number that stands for the object it is. */
module Shipyard {
  import opened Wrappers
  import opened Numbers
  import opened Berths

  datatype Item =
    | Cargo | FuelTank | Shield | Overcharge | EmpLauncher
    | Turret | MissileLauncher | PulseLaser
    | Seismic | FuelMiner | Jammer | HeatSink
    | Retired(name: string)   // an item the catalog no longer knows

  datatype Kind = Utility | Weapon | Internal

  const MAX_GRADE := 5

  function KindOf(item: Item): Kind {
    match item
    case Turret => Weapon
    case MissileLauncher => Weapon
    case PulseLaser => Weapon
    case Seismic => Internal
    case FuelMiner => Internal
    case Jammer => Internal
    case HeatSink => Internal
    case _ => Utility
  }

  predicate IsUnique(item: Item) { item.Shield? || item.Overcharge? || KindOf(item).Internal? }

  datatype Device = Device(serial: nat, item: Item, grade: int, fuel: real, armed: bool, missiles: int)

  type Slots = seq<Option<Device>>

  datatype Track = Thrusters | HullTrack | FuelEff | PowerGen | Scanner

  datatype Grades = Grades(thrusters: int, hull: int, fuelEff: int, powerGen: int, scanner: int)

  function GradeOf(g: Grades, t: Track): int {
    match t
    case Thrusters => g.thrusters
    case HullTrack => g.hull
    case FuelEff => g.fuelEff
    case PowerGen => g.powerGen
    case Scanner => g.scanner
  }

  function WithGrade(g: Grades, t: Track, grade: int): Grades {
    match t
    case Thrusters => g.(thrusters := grade)
    case HullTrack => g.(hull := grade)
    case FuelEff => g.(fuelEff := grade)
    case PowerGen => g.(powerGen := grade)
    case Scanner => g.(scanner := grade)
  }

  datatype Hull = Hull(
    model: string, system: string, grades: Grades,
    utility: Slots, weapon: Slots, internal: Slots,
    charge: real, burst: bool, jammer: int)

  datatype Model = Model(
    price: int, tierMul: real, noShield: bool, noBuyback: bool, soldIn: set<string>, baseCargo: real,
    utilitySlots: nat, weaponSlots: nat, internalSlots: nat, start: Grades, cap: Grades)

  datatype Catalog = Catalog(
    models: map<string, Model>,
    power: (Item, int) -> int, itemPrice: Item -> int, trackPrice: Track -> int,
    curve: real, sellPct: real, buybackPct: real, cargoPerGrade: real, shieldPerGrade: real,
    missileCapacity: int -> int, jammerCharges: int -> int,
    powerBase: int, powerPerGrade: int)

  ghost predicate CatalogOk(c: Catalog) {
    && (forall item: Item, grade: int :: c.power(item, grade) >= 0)
    && (forall item: Item :: c.itemPrice(item) >= 0)
    && (forall t: Track :: c.trackPrice(t) >= 0)
    && c.curve > 1.0 && 0.0 < c.sellPct < 1.0 && 0.0 < c.buybackPct < 1.0
    && STARTER in c.models && c.cargoPerGrade >= 0.0 && c.shieldPerGrade >= 0.0 && c.powerBase >= 0 && c.powerPerGrade >= 0
    && forall m :: m in c.models ==> ModelOk(c.models[m])
  }

  predicate ModelOk(m: Model) {
    m.price >= 0 && m.tierMul > 0.0 && m.baseCargo > 0.0 && m.internalSlots >= 1 && m.start.powerGen >= 0
  }

  // ---------------------------------------------------------------- prices

  /** A price that grows with the grade. */
  function Grown(base: real, curve: real, grade: int): real { base * Power(curve, if grade < 0 then 0 else grade) }

  function Cut(price: int, pct: real): real { price as real * pct }

  function Price(c: Catalog, item: Item, grade: int): int { Round(Grown(c.itemPrice(item) as real, c.curve, grade)) }

  function SellValue(c: Catalog, item: Item, grade: int): int { Round(Cut(Price(c, item, grade), c.sellPct)) }

  function TrackPrice(c: Catalog, m: Model, t: Track, grade: int): int {
    Round(Grown(Cut(c.trackPrice(t), m.tierMul), c.curve, grade))
  }

  function RoundTo10(v: real): int { Round(v / 10.0) * 10 }

  // ---------------------------------------------------------------- slots

  function SlotsOf(h: Hull, kind: Kind): Slots {
    match kind
    case Utility => h.utility
    case Weapon => h.weapon
    case Internal => h.internal
  }

  function WithSlots(h: Hull, kind: Kind, slots: Slots): Hull {
    match kind
    case Utility => h.(utility := slots)
    case Weapon => h.(weapon := slots)
    case Internal => h.(internal := slots)
  }

  function Put(h: Hull, kind: Kind, i: nat, d: Option<Device>): Hull
    requires i < |SlotsOf(h, kind)|
  {
    WithSlots(h, kind, SlotsOf(h, kind)[i := d])
  }

  /** The sum of a measure over the devices of some slots. */
  function SlotSum(slots: Slots, f: Device -> int): int
    decreases |slots|
  {
    if slots == [] then 0
    else (match slots[0] case Some(d) => f(d) case None => 0) + SlotSum(slots[1..], f)
  }

  function HullSum(h: Hull, f: Device -> int): int {
    SlotSum(h.utility, f) + SlotSum(h.weapon, f) + SlotSum(h.internal, f)
  }

  function PowerOf(c: Catalog): Device -> int { (d: Device) => c.power(d.item, d.grade) }

  function PowerUsed(c: Catalog, h: Hull): int { HullSum(h, PowerOf(c)) }

  function PowerCapacity(c: Catalog, h: Hull): int { c.powerBase + c.powerPerGrade * h.grades.powerGen }

  function DevicePower(c: Catalog, d: Option<Device>): int {
    match d case Some(x) => c.power(x.item, x.grade) case None => 0
  }

  function CargoGrades(d: Device): int { if d.item.Cargo? then d.grade + 1 else 0 }

  function HoldSpace(c: Catalog, grades: int): real { c.cargoPerGrade * grades as real }

  function CargoBonus(c: Catalog, d: Option<Device>): real {
    match d case Some(x) => HoldSpace(c, CargoGrades(x)) case None => 0.0
  }

  function CargoCapacity(c: Catalog, h: Hull): real {
    (if h.model in c.models then c.models[h.model].baseCargo else 0.0) + HoldSpace(c, SlotSum(h.utility, CargoGrades))
  }

  predicate HasOther(slots: Slots, exclude: nat, item: Item) {
    exists i :: 0 <= i < |slots| && i != exclude && slots[i].Some? && slots[i].value.item == item
  }

  /** The grade of the first shield, or -1 without one. */
  function ShieldGrade(slots: Slots): int
    decreases |slots|
  {
    if slots == [] then -1
    else if slots[0].Some? && slots[0].value.item.Shield? then slots[0].value.grade
    else ShieldGrade(slots[1..])
  }

  function ShieldMax(c: Catalog, h: Hull): real { c.shieldPerGrade * (ShieldGrade(h.utility) + 1) as real }

  /** Fits the charge to the shield that is now installed. */
  function NormalizedShield(c: Catalog, h: Hull): Hull {
    if ShieldMax(c, h) <= 0.0 then h.(charge := 0.0, burst := false) else h.(charge := Clamp(h.charge, 0.0, ShieldMax(c, h)))
  }

  function Serviced(c: Catalog, d: Option<Device>): Option<Device> {
    match d
    case Some(x) => Some(if x.item.MissileLauncher? then x.(missiles := c.missileCapacity(x.grade)) else x)
    case None => None
  }

  function Trimmed(c: Catalog, d: Option<Device>): Option<Device> {
    match d
    case Some(x) => Some(if x.item.MissileLauncher? then x.(missiles := ClampInt(x.missiles, 0, c.missileCapacity(x.grade))) else x)
    case None => None
  }

  function EachSlot(slots: Slots, f: Option<Device> -> Option<Device>): Slots { seq(|slots|, i requires 0 <= i < |slots| => f(slots[i])) }

  function Rearmed(c: Catalog, h: Hull): Hull { h.(weapon := EachSlot(h.weapon, d => Serviced(c, d))) }

  function NormalizedMissiles(c: Catalog, h: Hull): Hull { h.(weapon := EachSlot(h.weapon, d => Trimmed(c, d))) }

  /** What fitting a device does to the rest of the ship. */
  function Finished(c: Catalog, h: Hull, kind: Kind, i: nat): Hull
    requires i < |SlotsOf(h, kind)| && SlotsOf(h, kind)[i].Some?
  {
    var d := SlotsOf(h, kind)[i].value;
    match d.item
    case Shield => h.(charge := ShieldMax(c, h), burst := false)
    case Jammer => h.(jammer := c.jammerCharges(d.grade))
    case EmpLauncher => Put(h, kind, i, Some(d.(armed := true)))
    case MissileLauncher => Rearmed(c, h)
    case _ => h
  }

  function Settled(c: Catalog, h: Hull): Hull { NormalizedMissiles(c, NormalizedShield(c, h)) }

  // ---------------------------------------------------------------- the yard

  datatype Yard = Yard(
    credits: int, spent: int, docked: bool, system: string, active: string,
    ships: map<string, Hull>, inventory: seq<Device>, cargoUnits: real,
    unlocked: set<string>, lostAt: map<string, string>, nextSerial: nat)

  datatype Error =
    | InBelt | ItemLocked | InvalidSlotItem | NotOwned | ShipRemote | InvalidSlotIndex | SlotOccupied | SlotEmpty
    | DuplicateItem | InsufficientFunds | PowerExceeded | CargoDoesNotFit | InvalidInventory | InvalidShip
    | MaxUpgrade | AlreadyOwned | NotEligible

  datatype Order =
    | Install(ship: string, kind: Kind, index: int, item: Item, grade: int)
    | Store(ship: string, kind: Kind, index: int)
    | Sell(ship: string, kind: Kind, index: int)
    | Replace(ship: string, kind: Kind, index: int, item: Item, grade: int)
    | Equip(ship: string, kind: Kind, index: int, invIndex: int)
    | BuyTrack(ship: string, track: Track)
    | Acquire(model: string)
    | Switch(ship: string)

  predicate NoShield(c: Catalog, h: Hull) { h.model in c.models && c.models[h.model].noShield }

  /** The checks that installing shares with replacing, from ownership to the slot itself. */
  function SlotError(c: Catalog, y: Yard, ship: string, kind: Kind, index: int, item: Item): Option<Error> {
    if ship !in y.ships then Some(NotOwned)
    else if y.ships[ship].system != y.system then Some(ShipRemote)
    else if NoShield(c, y.ships[ship]) && item.Shield? then Some(InvalidSlotItem)
    else if !(0 <= index < |SlotsOf(y.ships[ship], kind)|) then Some(InvalidSlotIndex)
    else None
  }

  /** A loaded slot of a local ship, as storing and selling want it. */
  function OccupiedError(y: Yard, ship: string, kind: Kind, index: int): Option<Error> {
    if !y.docked then Some(InBelt)
    else if ship !in y.ships then Some(NotOwned)
    else if y.ships[ship].system != y.system then Some(ShipRemote)
    else if !(0 <= index < |SlotsOf(y.ships[ship], kind)|) then Some(InvalidSlotIndex)
    else if SlotsOf(y.ships[ship], kind)[index].None? then Some(SlotEmpty)
    else None
  }

  function CapacityAfter(c: Catalog, h: Hull, out: Option<Device>, replacement: Option<Device>): real {
    CargoCapacity(c, h) - CargoBonus(c, out) + CargoBonus(c, replacement)
  }

  predicate CargoStays(c: Catalog, y: Yard, ship: string, out: Option<Device>, replacement: Option<Device>)
    requires ship in y.ships
  {
    ship == y.active ==> y.cargoUnits <= CapacityAfter(c, y.ships[ship], out, replacement)
  }

  predicate PowerFits(c: Catalog, h: Hull, out: Option<Device>, item: Item, grade: int) {
    PowerUsed(c, h) - DevicePower(c, out) + c.power(item, grade) <= PowerCapacity(c, h)
  }

  predicate Duplicate(h: Hull, kind: Kind, index: nat, item: Item) { IsUnique(item) && HasOther(SlotsOf(h, kind), index, item) }

  function InstallError(c: Catalog, y: Yard, o: Order): Option<Error>
    requires o.Install?
  {
    if !y.docked then Some(InBelt)
    else if o.item.Retired? then Some(ItemLocked)
    else if KindOf(o.item) != o.kind || !(0 <= o.grade <= MAX_GRADE) then Some(InvalidSlotItem)
    else if SlotError(c, y, o.ship, o.kind, o.index, o.item).Some? then SlotError(c, y, o.ship, o.kind, o.index, o.item)
    else if SlotsOf(y.ships[o.ship], o.kind)[o.index].Some? then Some(SlotOccupied)
    else if Duplicate(y.ships[o.ship], o.kind, o.index, o.item) then Some(DuplicateItem)
    else if y.credits < Price(c, o.item, o.grade) then Some(InsufficientFunds)
    else if !PowerFits(c, y.ships[o.ship], None, o.item, o.grade) then Some(PowerExceeded)
    else None
  }

  function ReplaceError(c: Catalog, y: Yard, o: Order): Option<Error>
    requires o.Replace?
  {
    if !y.docked then Some(InBelt)
    else if o.item.Retired? || KindOf(o.item) != o.kind || !(0 <= o.grade <= MAX_GRADE) then Some(InvalidSlotItem)
    else if SlotError(c, y, o.ship, o.kind, o.index, o.item).Some? then SlotError(c, y, o.ship, o.kind, o.index, o.item)
    else
      var out := SlotsOf(y.ships[o.ship], o.kind)[o.index];
      if out.None? then Some(SlotEmpty)
      else if Duplicate(y.ships[o.ship], o.kind, o.index, o.item) then Some(DuplicateItem)
      else if !CargoStays(c, y, o.ship, out, Some(Bought(y, o))) then Some(CargoDoesNotFit)
      else if !PowerFits(c, y.ships[o.ship], out, o.item, o.grade) then Some(PowerExceeded)
      else if y.credits + SellValue(c, out.value.item, out.value.grade) < Price(c, o.item, o.grade) then Some(InsufficientFunds)
      else None
  }

  function RemoveError(c: Catalog, y: Yard, o: Order): Option<Error>
    requires o.Store? || o.Sell?
  {
    if OccupiedError(y, o.ship, o.kind, o.index).Some? then OccupiedError(y, o.ship, o.kind, o.index)
    else if !CargoStays(c, y, o.ship, SlotsOf(y.ships[o.ship], o.kind)[o.index], None) then Some(CargoDoesNotFit)
    else None
  }

  function EquipError(c: Catalog, y: Yard, o: Order): Option<Error>
    requires o.Equip?
  {
    if !y.docked then Some(InBelt)
    else if !(0 <= o.invIndex < |y.inventory|) then Some(InvalidInventory)
    else
      var d := y.inventory[o.invIndex];
      if KindOf(d.item) != o.kind then Some(InvalidSlotItem)
      else if d.item.Retired? then Some(ItemLocked)
      else if SlotError(c, y, o.ship, o.kind, o.index, d.item).Some? then SlotError(c, y, o.ship, o.kind, o.index, d.item)
      else if SlotsOf(y.ships[o.ship], o.kind)[o.index].Some? then Some(SlotOccupied)
      else if Duplicate(y.ships[o.ship], o.kind, o.index, d.item) then Some(DuplicateItem)
      else if !PowerFits(c, y.ships[o.ship], None, d.item, d.grade) then Some(PowerExceeded)
      else None
  }

  function BuyTrackError(c: Catalog, y: Yard, o: Order): Option<Error>
    requires o.BuyTrack?
  {
    if !y.docked then Some(InBelt)
    else if o.ship !in y.ships then Some(InvalidShip)
    else if y.ships[o.ship].system != y.system then Some(ShipRemote)
    else if y.ships[o.ship].model !in c.models then Some(InvalidShip)
    else
      var h := y.ships[o.ship];
      var grade := GradeOf(h.grades, o.track);
      if grade >= GradeOf(c.models[h.model].cap, o.track) then Some(MaxUpgrade)
      else if y.credits < TrackPrice(c, c.models[h.model], o.track, grade) then Some(InsufficientFunds)
      else None
  }

  predicate SoldHere(c: Catalog, y: Yard, model: string)
    requires model in c.models
  {
    || model == STARTER
    || y.system in c.models[model].soldIn
    || (!c.models[model].noBuyback && model in y.unlocked && model in y.lostAt && y.lostAt[model] == y.system)
  }

  function AcquirePrice(c: Catalog, y: Yard, model: string): int
    requires model in c.models
  {
    var m := c.models[model];
    if !m.noBuyback && model in y.unlocked then RoundTo10(Cut(m.price, c.buybackPct)) else m.price
  }

  predicate IsHere(y: Yard, ship: string) { ship in y.ships && y.ships[ship].system == y.system }

  /** The free Skiff, for a pilot with no ship here. */
  predicate Owed(c: Catalog, y: Yard, model: string) {
    model == STARTER && STARTER in c.models && forall id :: id in y.ships ==> !IsHere(y, id)
  }

  function AcquireError(c: Catalog, y: Yard, o: Order): Option<Error>
    requires o.Acquire?
  {
    if !y.docked then Some(InBelt)
    else if Owed(c, y, o.model) then None
    else if o.model in y.ships then Some(AlreadyOwned)
    else if o.model !in c.models then Some(InvalidShip)
    else if !SoldHere(c, y, o.model) then Some(NotEligible)
    else if y.credits < AcquirePrice(c, y, o.model) then Some(InsufficientFunds)
    else None
  }

  function SwitchError(c: Catalog, y: Yard, o: Order): Option<Error>
    requires o.Switch?
  {
    if !y.docked then Some(InBelt)
    else if o.ship !in y.ships then Some(NotOwned)
    else if o.ship == y.active then None
    else if y.ships[o.ship].system != y.system then Some(ShipRemote)
    else if y.cargoUnits > CargoCapacity(c, y.ships[o.ship]) then Some(CargoDoesNotFit)
    else None
  }

  /** Whether an order is refused, and why. */
  function Refusal(c: Catalog, y: Yard, o: Order): Option<Error> {
    match o
    case Install(_, _, _, _, _) => InstallError(c, y, o)
    case Store(_, _, _) => RemoveError(c, y, o)
    case Sell(_, _, _) => RemoveError(c, y, o)
    case Replace(_, _, _, _, _) => ReplaceError(c, y, o)
    case Equip(_, _, _, _) => EquipError(c, y, o)
    case BuyTrack(_, _) => BuyTrackError(c, y, o)
    case Acquire(_) => AcquireError(c, y, o)
    case Switch(_) => SwitchError(c, y, o)
  }

  // ---------------------------------------------------------------- what accepted orders do

  function Bought(y: Yard, o: Order): Device
    requires o.Install? || o.Replace?
  {
    Device(y.nextSerial, o.item, o.grade, 0.0, false, 0)
  }

  function Fitted(c: Catalog, h: Hull, kind: Kind, i: nat, d: Device): Hull
    requires i < |SlotsOf(h, kind)|
  {
    Finished(c, Put(h, kind, i, Some(d)), kind, i)
  }

  function FreshHull(c: Catalog, y: Yard, model: string): Hull
    requires model in c.models
  {
    var m := c.models[model];
    Hull(model, y.system, m.start, seq(m.utilitySlots, _ => None), seq(m.weaponSlots, _ => None),
         seq(m.internalSlots, _ => None), 0.0, false, 0)
  }

  /** The Skiff that the new one displaces, if there is one, keeps everything but its name. */
  function Displaced(y: Yard): map<string, Hull> {
    if STARTER in y.ships then y.ships[FirstFree(y.ships.Keys, y.ships[STARTER].system, 1) := y.ships[STARTER]] else y.ships
  }

  function Granted(c: Catalog, y: Yard): Yard
    requires STARTER in c.models
  {
    y.(ships := Displaced(y)[STARTER := FreshHull(c, y, STARTER)], active := STARTER, unlocked := y.unlocked + {STARTER})
  }

  function Apply(c: Catalog, y: Yard, o: Order): Yard
    requires Refusal(c, y, o).None?
  {
    match o
    case Install(ship, kind, i, item, grade) =>
      y.(credits := y.credits - Price(c, item, grade), spent := y.spent + Price(c, item, grade),
         ships := y.ships[ship := Fitted(c, y.ships[ship], kind, i, Bought(y, o))],
         nextSerial := y.nextSerial + 1)
    case Store(ship, kind, i) =>
      y.(inventory := y.inventory + [SlotsOf(y.ships[ship], kind)[i].value],
         ships := y.ships[ship := Settled(c, Put(y.ships[ship], kind, i, None))])
    case Sell(ship, kind, i) =>
      var d := SlotsOf(y.ships[ship], kind)[i].value;
      y.(credits := y.credits + SellValue(c, d.item, d.grade),
         ships := y.ships[ship := Settled(c, Put(y.ships[ship], kind, i, None))])
    case Replace(ship, kind, i, item, grade) =>
      var out := SlotsOf(y.ships[ship], kind)[i].value;
      y.(credits := y.credits + SellValue(c, out.item, out.grade) - Price(c, item, grade),
         spent := y.spent + Price(c, item, grade),
         ships := y.ships[ship := Settled(c, Fitted(c, y.ships[ship], kind, i, Bought(y, o)))],
         nextSerial := y.nextSerial + 1)
    case Equip(ship, kind, i, inv) =>
      y.(inventory := y.inventory[..inv] + y.inventory[inv + 1..],
         ships := y.ships[ship := Fitted(c, y.ships[ship], kind, i, y.inventory[inv])])
    case BuyTrack(ship, t) =>
      var h := y.ships[ship];
      var grade := GradeOf(h.grades, t);
      var price := TrackPrice(c, c.models[h.model], t, grade);
      y.(credits := y.credits - price, spent := y.spent + price,
         ships := y.ships[ship := h.(grades := WithGrade(h.grades, t, grade + 1))])
    case Acquire(model) =>
      if Owed(c, y, model) then Granted(c, y) else
      var price := AcquirePrice(c, y, model);
      y.(credits := y.credits - price, spent := y.spent + price,
         ships := y.ships[model := FreshHull(c, y, model)], unlocked := y.unlocked + {model})
    case Switch(ship) => y.(active := ship)
  }

  function Do(c: Catalog, y: Yard, o: Order): Yard { if Refusal(c, y, o).Some? then y else Apply(c, y, o) }

  function DoAll(c: Catalog, y: Yard, orders: seq<Order>): Yard
    decreases |orders|
  {
    if orders == [] then y else DoAll(c, Do(c, y, orders[0]), orders[1..])
  }
}
