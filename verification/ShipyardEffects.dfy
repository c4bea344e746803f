/** What an order costs, when it goes through, and what the pilot has after it. */
module ShipyardEffects {
  import opened Wrappers
  import opened Numbers
  import opened Berths
  import opened Shipyard
  import opened ShipyardMoves
  import opened ShipyardSafety

  // ---------------------------------------------------------------- prices

  /** To the nearest credit. */
  predicate Near(n: int, x: real) { -0.5 <= n as real - x <= 0.5 }

  /** A device costs its base price times the curve once for each grade. */
  predicate CostsItem(c: Catalog, item: Item, grade: int, cost: int) {
    Near(cost, c.itemPrice(item) as real * Power(c.curve, if grade < 0 then 0 else grade))
  }

  /** It sells for the fixed fraction of what it costs. */
  predicate SellsFor(c: Catalog, cost: int, gain: int) { Near(gain, cost as real * c.sellPct) }

  /** A track's next grade costs its base price at the hull's tier times the curve for each grade it has. */
  predicate CostsTrack(c: Catalog, m: Model, t: Track, grade: int, cost: int) {
    Near(cost, c.trackPrice(t) as real * m.tierMul * Power(c.curve, if grade < 0 then 0 else grade))
  }

  /** A hull costs its list price, and for an owner of old the discount, to the nearest ten. */
  predicate CostsHull(c: Catalog, y: Yard, model: string, cost: int)
    requires model in c.models
  {
    var m := c.models[model];
    if model in y.unlocked && !m.noBuyback
    then cost % 10 == 0 && -5.0 <= cost as real - m.price as real * c.buybackPct <= 5.0
    else cost == m.price
  }

  lemma PricesFollowTheCurve(c: Catalog, item: Item, grade: int)
    ensures CostsItem(c, item, grade, Price(c, item, grade)) && SellsFor(c, Price(c, item, grade), SellValue(c, item, grade))
  {
    hide Power;
  }

  lemma TracksFollowTheCurve(c: Catalog, m: Model, t: Track, grade: int)
    ensures CostsTrack(c, m, t, grade, TrackPrice(c, m, t, grade))
  {
    hide Power;
  }

  lemma HullsFollowTheList(c: Catalog, y: Yard, model: string)
    requires model in c.models
    ensures CostsHull(c, y, model, AcquirePrice(c, y, model))
  {
    var v := Cut(c.models[model].price, c.buybackPct);
    hide Cut;
    assert RoundTo10(v) % 10 == 0;
    assert -5.0 <= RoundTo10(v) as real - v <= 5.0;
  }

  lemma Steeper(base: real, x: real, y: real)
    requires base >= 0.0 && x <= y
    ensures base * x <= base * y
  {
    assert base * (y - x) >= 0.0;
  }

  /** A better grade of the same device is never cheaper. */
  lemma GradesCostMore(c: Catalog, item: Item, lo: nat, hi: nat)
    requires CatalogOk(c) && lo <= hi
    ensures Price(c, item, lo) <= Price(c, item, hi)
  {
    hide Power, Round;
    PowerAdds(c.curve, lo, hi - lo);
    PowerGrows(c.curve, lo);
    PowerGrows(c.curve, hi - lo);
    Steeper(Power(c.curve, lo), 1.0, Power(c.curve, hi - lo));
    assert lo + (hi - lo) == hi;
    assert c.itemPrice(item) >= 0;
    Steeper(c.itemPrice(item) as real, Power(c.curve, lo), Power(c.curve, hi));
    RoundKeepsOrder(Grown(c.itemPrice(item) as real, c.curve, lo), Grown(c.itemPrice(item) as real, c.curve, hi));
  }

  lemma RoundKeepsOrder(x: real, y: real)
    requires x <= y
    ensures Round(x) <= Round(y)
  {}

  // ---------------------------------------------------------------- ships

  /** The same device; only a missile launcher's ammunition may differ. */
  predicate Kept(a: Option<Device>, b: Option<Device>) {
    match a
    case None => b.None?
    case Some(d) => b.Some? && b.value == d.(missiles := b.value.missiles) && (d.item.MissileLauncher? || b == a)
  }

  predicate OthersKept(a: Slots, b: Slots, except: int) {
    |a| == |b| && forall j :: 0 <= j < |a| && j != except ==> Kept(a[j], b[j])
  }

  /** Two states of one ship that differ at most in one slot and in charge and ammunition. */
  predicate Refitted(h: Hull, g: Hull, kind: Kind, i: int) {
    && g.model == h.model && g.system == h.system && g.grades == h.grades
    && OthersKept(h.utility, g.utility, if kind.Utility? then i else -1)
    && OthersKept(h.weapon, g.weapon, if kind.Weapon? then i else -1)
    && OthersKept(h.internal, g.internal, if kind.Internal? then i else -1)
  }

  /** The device as delivered; it may have been armed or loaded. */
  predicate Delivered(d: Device, slot: Option<Device>) {
    slot.Some? && slot.value == d.(armed := slot.value.armed, missiles := slot.value.missiles)
  }

  lemma FittingDelivers(c: Catalog, h: Hull, kind: Kind, i: nat, d: Device)
    requires i < |SlotsOf(h, kind)|
    ensures var g := Fitted(c, h, kind, i, d);
            Refitted(h, g, kind, i) && Delivered(d, SlotsOf(g, kind)[i])
  {
    var f := Put(h, kind, i, Some(d));
    PuttingRefits(h, kind, i, Some(d));
    FinishingRefits(c, f, kind, i);
    RefitsJoin(h, f, Finished(c, f, kind, i), kind, i);
    hide Refitted, Delivered;
  }

  lemma PuttingRefits(h: Hull, kind: Kind, i: nat, d: Option<Device>)
    requires i < |SlotsOf(h, kind)|
    ensures Refitted(h, Put(h, kind, i, d), kind, i) && SlotsOf(Put(h, kind, i, d), kind)[i] == d
  {}

  lemma FinishingRefits(c: Catalog, h: Hull, kind: Kind, i: nat)
    requires i < |SlotsOf(h, kind)| && SlotsOf(h, kind)[i].Some?
    ensures var g := Finished(c, h, kind, i);
            Refitted(h, g, kind, i) && Delivered(SlotsOf(h, kind)[i].value, SlotsOf(g, kind)[i])
  {
    hide Rearmed, ShieldMax;
    match SlotsOf(h, kind)[i].value.item {
      case MissileLauncher =>
        Reloading(c, h, kind, i);
      case EmpLauncher =>
        PuttingRefits(h, kind, i, Some(SlotsOf(h, kind)[i].value.(armed := true)));
        hide Refitted;
      case _ =>
    }
  }

  lemma Reloading(c: Catalog, h: Hull, kind: Kind, i: nat)
    requires i < |SlotsOf(h, kind)| && SlotsOf(h, kind)[i].Some?
    ensures Refitted(h, Rearmed(c, h), kind, i) && Delivered(SlotsOf(h, kind)[i].value, SlotsOf(Rearmed(c, h), kind)[i])
  {}

  /** Fitting a device leaves the shield's charge and the jammer as they were, unless it is one. */
  lemma FittingSparesTheRest(c: Catalog, h: Hull, kind: Kind, i: nat, d: Device)
    requires i < |SlotsOf(h, kind)|
    ensures var g := Fitted(c, h, kind, i, d);
            (!d.item.Shield? ==> g.charge == h.charge && g.burst == h.burst) && (!d.item.Jammer? ==> g.jammer == h.jammer)
            && (!d.item.MissileLauncher? && kind != Weapon ==> g.weapon == h.weapon)
  {}

  /** Settling a ship keeps whatever still fits: the charge up to the shield's limit, the missiles up to the
      launcher's. A ship without a shield has no charge and no burst shield either. */
  lemma SettlingKeepsWhatFits(c: Catalog, h: Hull)
    ensures var g, most := Settled(c, h), ShieldMax(c, h);
            && g == h.(charge := g.charge, burst := g.burst, weapon := g.weapon) && OthersKept(h.weapon, g.weapon, -1)
            && (0.0 <= h.charge <= most && most > 0.0 ==> g.charge == h.charge && g.burst == h.burst)
            && (h.charge > most > 0.0 ==> g.charge == most && g.burst == h.burst)
            && (most <= 0.0 ==> g.charge == 0.0 && !g.burst)
            && forall j :: 0 <= j < |h.weapon| && h.weapon[j].Some? && 0 <= h.weapon[j].value.missiles <= c.missileCapacity(h.weapon[j].value.grade)
                 ==> g.weapon[j] == h.weapon[j]
  {
    hide ShieldMax;
  }

  lemma RefitsJoin(h: Hull, g: Hull, k: Hull, kind: Kind, i: nat)
    requires Refitted(h, g, kind, i) && Refitted(g, k, kind, i)
    ensures Refitted(h, k, kind, i)
  {
    hide Kept;
    KeptsJoin(h.utility, g.utility, k.utility, if kind.Utility? then i else -1);
    KeptsJoin(h.weapon, g.weapon, k.weapon, if kind.Weapon? then i else -1);
    KeptsJoin(h.internal, g.internal, k.internal, if kind.Internal? then i else -1);
    hide OthersKept;
  }

  lemma KeptsJoin(a: Slots, b: Slots, d: Slots, except: int)
    requires OthersKept(a, b, except) && OthersKept(b, d, except)
    ensures OthersKept(a, d, except)
  {
    forall j | 0 <= j < |a| && j != except ensures Kept(a[j], d[j]) { assert Kept(a[j], b[j]) && Kept(b[j], d[j]); }
  }

  lemma SettlingRefits(c: Catalog, h: Hull, kind: Kind, i: int)
    ensures Refitted(h, Settled(c, h), kind, i)
  {
    hide ShieldMax;
  }

  lemma RemovalEmpties(c: Catalog, h: Hull, kind: Kind, i: nat)
    requires i < |SlotsOf(h, kind)|
    ensures var g := Settled(c, Put(h, kind, i, None));
            Refitted(h, g, kind, i) && SlotsOf(g, kind)[i].None?
  {
    SettlingRefits(c, Put(h, kind, i, None), kind, i);
    RefitsJoin(h, Put(h, kind, i, None), Settled(c, Put(h, kind, i, None)), kind, i);
    hide ShieldMax;
  }

  lemma SwapDelivers(c: Catalog, h: Hull, kind: Kind, i: nat, d: Device)
    requires i < |SlotsOf(h, kind)|
    ensures var g := Settled(c, Fitted(c, h, kind, i, d));
            Refitted(h, g, kind, i) && Delivered(d, SlotsOf(g, kind)[i])
  {
    var f := Fitted(c, h, kind, i, d);
    FittingDelivers(c, h, kind, i, d);
    SettlingRefits(c, f, kind, i);
    SettlingRefits(c, f, kind, -1);
    RefitsJoin(h, f, Settled(c, f), kind, i);
    assert Kept(SlotsOf(f, kind)[i], SlotsOf(Settled(c, f), kind)[i]);
    hide Fitted, Settled, Refitted;
  }

  /** What a device adds in an empty slot: what it draws, and for a cargo module its space per grade and one more. */
  lemma DevicesAdd(c: Catalog, h: Hull, kind: Kind, i: nat, d: Device)
    requires CatalogOk(c) && i < |SlotsOf(h, kind)| && SlotsOf(h, kind)[i].None? && Belongs(Some(d), kind)
    ensures var g := Put(h, kind, i, Some(d));
            && PowerUsed(c, g) == PowerUsed(c, h) + c.power(d.item, d.grade)
            && CargoCapacity(c, g) == CargoCapacity(c, h) + (if d.item.Cargo? then c.cargoPerGrade * (d.grade + 1) as real else 0.0)
  {
    PutSum(h, kind, i, Some(d), PowerOf(c));
    PutCargo(c, h, kind, i, Some(d));
    HoldAdds(c, 0, 0);
    hide CargoCapacity, SlotSum, HullSum;
  }

  /** A bare hull draws nothing, holds its model's cargo and has no shield; its generator gives the base power
      and as much again for each grade. */
  lemma BareHulls(c: Catalog, y: Yard, model: string)
    requires model in c.models
    ensures var h, m := FreshHull(c, y, model), c.models[model];
            && PowerUsed(c, h) == 0 && CargoCapacity(c, h) == m.baseCargo && ShieldMax(c, h) == 0.0
            && PowerCapacity(c, h) == c.powerBase + c.powerPerGrade * m.start.powerGen
  {
    var m := c.models[model];
    EmptySum(m.utilitySlots, PowerOf(c));
    EmptySum(m.weaponSlots, PowerOf(c));
    EmptySum(m.internalSlots, PowerOf(c));
    EmptySum(m.utilitySlots, CargoGrades);
    EmptyShield(m.utilitySlots);
    HoldAdds(c, 0, 0);
  }

  /** The one shield aboard holds its charge per grade and one more. */
  lemma ShieldsHold(c: Catalog, h: Hull, i: nat)
    requires Equipped(c, h) && i < |h.utility| && h.utility[i].Some? && h.utility[i].value.item.Shield?
    ensures ShieldMax(c, h) == c.shieldPerGrade * (h.utility[i].value.grade + 1) as real
  {
    FirstShield(h.utility, i);
  }

  lemma {:induction false} FirstShield(slots: Slots, i: nat)
    requires NoTwins(slots) && i < |slots| && slots[i].Some? && slots[i].value.item.Shield?
    ensures ShieldGrade(slots) == slots[i].value.grade
    decreases |slots|
  {
    if i > 0 {
      assert !Clash(slots[0], slots[i]);
      forall j, k | 0 <= j < k < |slots[1..]| ensures !Clash(slots[1..][j], slots[1..][k]) { assert !Clash(slots[j + 1], slots[k + 1]); }
      FirstShield(slots[1..], i - 1);
    }
  }

  // ---------------------------------------------------------------- whole orders

  predicate OtherShipsStay(before: Yard, after: Yard, ship: string) {
    after.ships.Keys == before.ships.Keys + {ship} && forall id :: id in before.ships && id != ship ==> after.ships[id] == before.ships[id]
  }

  /** The ship that was worked on: refitted in one slot. */
  predicate ShipRefitted(before: Yard, after: Yard, ship: string, kind: Kind, i: int) {
    && ship in before.ships && OtherShipsStay(before, after, ship) && Refitted(before.ships[ship], after.ships[ship], kind, i)
    && 0 <= i < |SlotsOf(before.ships[ship], kind)| && |SlotsOf(after.ships[ship], kind)| == |SlotsOf(before.ships[ship], kind)|
  }

  function SlotAt(y: Yard, ship: string, kind: Kind, i: int): Option<Device>
    requires ship in y.ships && 0 <= i < |SlotsOf(y.ships[ship], kind)|
  {
    SlotsOf(y.ships[ship], kind)[i]
  }

  /** What the purse lost, and what was spent. */
  function Charge(before: Yard, after: Yard): int { before.credits - after.credits }

  function Outlay(before: Yard, after: Yard): int { after.spent - before.spent }

  predicate AllEmpty(slots: Slots, n: nat) { |slots| == n && forall i :: 0 <= i < n ==> slots[i].None? }

  /** A hull straight from the yard. */
  predicate Bare(c: Catalog, y: Yard, model: string, h: Hull)
    requires model in c.models
  {
    var m := c.models[model];
    && h.model == model && h.system == y.system && h.grades == m.start
    && AllEmpty(h.utility, m.utilitySlots) && AllEmpty(h.weapon, m.weaponSlots) && AllEmpty(h.internal, m.internalSlots)
    && h.charge == 0.0 && !h.burst && h.jammer == 0
  }

  /** What an order that went through has done. */
  predicate Done(c: Catalog, before: Yard, after: Yard, o: Order) {
    match o
    case Install(ship, kind, i, item, grade) =>
      && after == before.(credits := after.credits, spent := after.spent, ships := after.ships, nextSerial := before.nextSerial + 1)
      && CostsItem(c, item, grade, Charge(before, after)) && Outlay(before, after) == Charge(before, after)
      && ShipRefitted(before, after, ship, kind, i) && Delivered(Device(before.nextSerial, item, grade, 0.0, false, 0), SlotAt(after, ship, kind, i))
    case Store(ship, kind, i) =>
      && after == before.(inventory := after.inventory, ships := after.ships)
      && ShipRefitted(before, after, ship, kind, i) && SlotAt(after, ship, kind, i).None?
      && SlotAt(before, ship, kind, i).Some? && after.inventory == before.inventory + [SlotAt(before, ship, kind, i).value]
    case Sell(ship, kind, i) =>
      && after == before.(credits := after.credits, ships := after.ships)
      && ShipRefitted(before, after, ship, kind, i) && SlotAt(after, ship, kind, i).None? && SlotAt(before, ship, kind, i).Some?
      && var d := SlotAt(before, ship, kind, i).value;
         SellsFor(c, Price(c, d.item, d.grade), -Charge(before, after))
    case Replace(ship, kind, i, item, grade) =>
      && after == before.(credits := after.credits, spent := after.spent, ships := after.ships, nextSerial := before.nextSerial + 1)
      && ShipRefitted(before, after, ship, kind, i) && Delivered(Device(before.nextSerial, item, grade, 0.0, false, 0), SlotAt(after, ship, kind, i))
      && CostsItem(c, item, grade, Outlay(before, after)) && SlotAt(before, ship, kind, i).Some?
      && var d := SlotAt(before, ship, kind, i).value;
         SellsFor(c, Price(c, d.item, d.grade), Outlay(before, after) - Charge(before, after))
    case Equip(ship, kind, i, inv) =>
      && after == before.(inventory := after.inventory, ships := after.ships)
      && 0 <= inv < |before.inventory| && after.inventory == before.inventory[..inv] + before.inventory[inv + 1..]
      && ShipRefitted(before, after, ship, kind, i) && Delivered(before.inventory[inv], SlotAt(after, ship, kind, i))
    case BuyTrack(ship, t) =>
      && after == before.(credits := after.credits, spent := after.spent, ships := after.ships)
      && ship in before.ships && OtherShipsStay(before, after, ship)
      && var h := before.ships[ship];
         && h.model in c.models && CostsTrack(c, c.models[h.model], t, GradeOf(h.grades, t), Charge(before, after))
         && Outlay(before, after) == Charge(before, after) && Upgraded(h, after.ships[ship], t)
    case Acquire(model) =>
      && model in c.models && model in after.ships && Bare(c, before, model, after.ships[model]) && after.unlocked == before.unlocked + {model}
      && if Owed(c, before, model)
         then after == before.(ships := after.ships, active := STARTER, unlocked := after.unlocked)
         else && after == before.(credits := after.credits, spent := after.spent, ships := after.ships, unlocked := after.unlocked)
              && CostsHull(c, before, model, Charge(before, after)) && Outlay(before, after) == Charge(before, after)
              && OtherShipsStay(before, after, model)
    case Switch(ship) => after == before.(active := ship) && ship in before.ships
  }

  /** One track a grade up, and nothing else about the ship. */
  predicate Upgraded(h: Hull, g: Hull, t: Track) {
    && g == h.(grades := g.grades) && GradeOf(g.grades, t) == GradeOf(h.grades, t) + 1
    && forall u: Track :: u != t ==> GradeOf(g.grades, u) == GradeOf(h.grades, u)
  }

  /** Every order that is not refused does what it is for, at the price it has. */
  lemma OrdersTakeEffect(c: Catalog, y: Yard, o: Order)
    requires Refusal(c, y, o).None?
    ensures Done(c, y, Apply(c, y, o), o)
  {
    hide Refusal, Apply, Done;
    match o {
      case Install(_, _, _, _, _) => InstallsTakeEffect(c, y, o);
      case Store(_, _, _) => RemovalsTakeEffect(c, y, o);
      case Sell(_, _, _) => RemovalsTakeEffect(c, y, o);
      case Replace(_, _, _, _, _) => ReplacementsTakeEffect(c, y, o);
      case Equip(_, _, _, _) => EquippingTakesEffect(c, y, o);
      case BuyTrack(_, _) => UpgradesTakeEffect(c, y, o);
      case Acquire(_) => PurchasesTakeEffect(c, y, o);
      case Switch(_) => SwitchesTakeEffect(c, y, o);
    }
  }

  lemma RemovalsTakeEffect(c: Catalog, y: Yard, o: Order)
    requires (o.Store? || o.Sell?) && Refusal(c, y, o).None?
    ensures Done(c, y, Apply(c, y, o), o)
  {
    var d := SlotAt(y, o.ship, o.kind, o.index).value;
    RemovalEmpties(c, y.ships[o.ship], o.kind, o.index);
    PricesFollowTheCurve(c, d.item, d.grade);
    hide Refitted, Settled, SellsFor, Price, SellValue, CargoStays;
  }

  lemma EquippingTakesEffect(c: Catalog, y: Yard, o: Order)
    requires o.Equip? && Refusal(c, y, o).None?
    ensures Done(c, y, Apply(c, y, o), o)
  {
    FittingDelivers(c, y.ships[o.ship], o.kind, o.index, y.inventory[o.invIndex]);
    hide Refitted, Fitted, Delivered, PowerFits, Duplicate;
  }

  lemma UpgradesTakeEffect(c: Catalog, y: Yard, o: Order)
    requires o.BuyTrack? && Refusal(c, y, o).None?
    ensures Done(c, y, Apply(c, y, o), o)
  {
    var h := y.ships[o.ship];
    TracksFollowTheCurve(c, c.models[h.model], o.track, GradeOf(h.grades, o.track));
    hide TrackPrice, CostsTrack;
  }

  lemma PurchasesTakeEffect(c: Catalog, y: Yard, o: Order)
    requires o.Acquire? && Refusal(c, y, o).None?
    ensures Done(c, y, Apply(c, y, o), o)
  {
    HullsFollowTheList(c, y, o.model);
    hide AcquirePrice, CostsHull, FirstFree;
  }

  lemma SwitchesTakeEffect(c: Catalog, y: Yard, o: Order)
    requires o.Switch? && Refusal(c, y, o).None?
    ensures Done(c, y, Apply(c, y, o), o)
  {
    hide CargoCapacity;
  }

  lemma InstallsTakeEffect(c: Catalog, y: Yard, o: Order)
    requires o.Install? && Refusal(c, y, o).None?
    ensures Done(c, y, Apply(c, y, o), o)
  {
    PricesFollowTheCurve(c, o.item, o.grade);
    FittingDelivers(c, y.ships[o.ship], o.kind, o.index, Bought(y, o));
    hide Refitted, Fitted, Delivered, Price, CostsItem, PowerFits, Duplicate;
  }

  lemma ReplacementsTakeEffect(c: Catalog, y: Yard, o: Order)
    requires o.Replace? && Refusal(c, y, o).None?
    ensures Done(c, y, Apply(c, y, o), o)
  {
    var d := SlotAt(y, o.ship, o.kind, o.index).value;
    PricesFollowTheCurve(c, o.item, o.grade);
    PricesFollowTheCurve(c, d.item, d.grade);
    SwapDelivers(c, y.ships[o.ship], o.kind, o.index, Bought(y, o));
    hide Refitted, Fitted, Settled, Delivered, Price, SellValue, SellsFor, CostsItem, PowerFits, Duplicate, CargoStays;
  }

  // ---------------------------------------------------------------- what is accepted

  predicate Exists(y: Yard, ship: string, kind: Kind, i: int) { IsHere(y, ship) && 0 <= i < |SlotsOf(y.ships[ship], kind)| }

  predicate OnSale(item: Item, kind: Kind, grade: int) { !item.Retired? && KindOf(item) == kind && 0 <= grade <= MAX_GRADE }

  /** What an order has to be about. */
  predicate Proper(c: Catalog, y: Yard, o: Order) {
    match o
    case Install(ship, kind, i, item, grade) => Exists(y, ship, kind, i) && SlotAt(y, ship, kind, i).None? && OnSale(item, kind, grade)
    case Store(ship, kind, i) => Exists(y, ship, kind, i) && SlotAt(y, ship, kind, i).Some?
    case Sell(ship, kind, i) => Exists(y, ship, kind, i) && SlotAt(y, ship, kind, i).Some?
    case Replace(ship, kind, i, item, grade) => Exists(y, ship, kind, i) && SlotAt(y, ship, kind, i).Some? && OnSale(item, kind, grade)
    case Equip(ship, kind, i, inv) => Exists(y, ship, kind, i) && SlotAt(y, ship, kind, i).None?
                                      && 0 <= inv < |y.inventory| && OnSale(y.inventory[inv].item, kind, y.inventory[inv].grade)
    case BuyTrack(ship, t) => IsHere(y, ship) && y.ships[ship].model in c.models
                              && GradeOf(y.ships[ship].grades, t) < GradeOf(c.models[y.ships[ship].model].cap, t)
    case Acquire(model) => Owed(c, y, model) || (model !in y.ships && model in c.models && OnOffer(c, y, model))
    case Switch(ship) => IsHere(y, ship)
  }

  /** The Skiff is on offer everywhere, a model where it is sold, and one the pilot had before where it was lost. */
  predicate OnOffer(c: Catalog, y: Yard, model: string)
    requires model in c.models
  {
    var boughtBack := model in y.unlocked && !c.models[model].noBuyback && model in y.lostAt && y.lostAt[model] == y.system;
    model == STARTER || y.system in c.models[model].soldIn || boughtBack
  }

  /** The ship would be in order with the device in the slot, and the cargo in it if it is the active one. */
  predicate Fits(c: Catalog, y: Yard, ship: string, kind: Kind, i: int, d: Option<Device>)
    requires ship in y.ships && 0 <= i < |SlotsOf(y.ships[ship], kind)|
  {
    var h := Put(y.ships[ship], kind, i, d);
    Equipped(c, h) && (ship == y.active ==> y.cargoUnits <= CargoCapacity(c, h))
  }

  predicate Affordable(c: Catalog, y: Yard, o: Order)
    requires Proper(c, y, o)
  {
    match o
    case Install(_, _, _, item, grade) => y.credits >= Price(c, item, grade)
    case Replace(ship, kind, i, item, grade) =>
      var d := SlotAt(y, ship, kind, i).value;
      y.credits + SellValue(c, d.item, d.grade) >= Price(c, item, grade)
    case BuyTrack(ship, t) => y.credits >= TrackPrice(c, c.models[y.ships[ship].model], t, GradeOf(y.ships[ship].grades, t))
    case Acquire(model) => Owed(c, y, model) || y.credits >= AcquirePrice(c, y, model)
    case _ => true
  }

  predicate Workable(c: Catalog, y: Yard, o: Order)
    requires Proper(c, y, o)
  {
    match o
    case Install(ship, kind, i, item, grade) => Fits(c, y, ship, kind, i, Some(Bought(y, o)))
    case Store(ship, kind, i) => Fits(c, y, ship, kind, i, None)
    case Sell(ship, kind, i) => Fits(c, y, ship, kind, i, None)
    case Replace(ship, kind, i, item, grade) => Fits(c, y, ship, kind, i, Some(Bought(y, o)))
    case Equip(ship, kind, i, inv) => Fits(c, y, ship, kind, i, Some(y.inventory[inv]))
    case Switch(ship) => y.cargoUnits <= CargoCapacity(c, y.ships[ship])
    case _ => true
  }

  lemma FitsWhenChecked(c: Catalog, h: Hull, kind: Kind, i: nat, d: Device)
    requires CatalogOk(c) && Equipped(c, h) && i < |SlotsOf(h, kind)| && Belongs(Some(d), kind)
    ensures Equipped(c, Put(h, kind, i, Some(d))) <==>
              (!Duplicate(h, kind, i, d.item) && !(NoShield(c, h) && d.item.Shield?)
               && PowerFits(c, h, SlotsOf(h, kind)[i], d.item, d.grade))
  {
    var g := Put(h, kind, i, Some(d));
    if Equipped(c, g) {
      TwinsAreFound(SlotsOf(h, kind), i, d);
      PutSum(h, kind, i, Some(d), PowerOf(c));
      PowerOfIs(c, Some(d));
      PowerOfIs(c, SlotsOf(h, kind)[i]);
      assert NoTwins(SlotsOf(g, kind));
      assert d.item.Shield? ==> SlotsOf(g, kind)[i] == Some(d);
      hide SlotSum, HullSum, InPlace, NoTwins, HasOther, PowerOf;
    } else if !Duplicate(h, kind, i, d.item) && !(NoShield(c, h) && d.item.Shield?) && PowerFits(c, h, SlotsOf(h, kind)[i], d.item, d.grade) {
      PutEquipped(c, h, kind, i, Some(d));
    }
  }

  lemma TwinsAreFound(slots: Slots, i: nat, d: Device)
    requires i < |slots| && NoTwins(slots[i := Some(d)])
    ensures !(IsUnique(d.item) && HasOther(slots, i, d.item))
  {
    if IsUnique(d.item) && HasOther(slots, i, d.item) {
      var after := slots[i := Some(d)];
      var j :| 0 <= j < |slots| && j != i && slots[j].Some? && slots[j].value.item == d.item;
      assert Clash(after[i], after[j]) && Clash(after[j], after[i]);
    }
  }

  /** An order goes through exactly when the pilot is docked, what it names is there, the purse covers it, and
      the ship would be in order and the cargo aboard afterwards. */
  lemma OrdersGoThrough(c: Catalog, y: Yard, o: Order)
    requires CatalogOk(c) && YardOk(c, y)
    ensures Refusal(c, y, o).None? <==> y.docked && Proper(c, y, o) && Affordable(c, y, o) && Workable(c, y, o)
  {
    hide CatalogOk, YardOk, Refusal, Workable, Affordable;
    match o {
      case Install(_, _, _, _, _) => InstallsGoThrough(c, y, o);
      case Store(_, _, _) => RemovalsGoThrough(c, y, o);
      case Sell(_, _, _) => RemovalsGoThrough(c, y, o);
      case Replace(_, _, _, _, _) => ReplacementsGoThrough(c, y, o);
      case Equip(_, _, _, _) => EquippingGoesThrough(c, y, o);
      case BuyTrack(_, _) => UpgradesGoThrough(c, y, o);
      case Acquire(_) => PurchasesGoThrough(c, y, o);
      case Switch(_) => SwitchesGoThrough(c, y, o);
    }
  }

  lemma ShipInOrder(c: Catalog, y: Yard, ship: string)
    requires YardOk(c, y) && ship in y.ships
    ensures Equipped(c, y.ships[ship])
    ensures ship == y.active ==> y.cargoUnits <= CargoCapacity(c, y.ships[ship])
  {}

  lemma SlotInOrder(c: Catalog, h: Hull, kind: Kind, i: nat)
    requires Equipped(c, h) && i < |SlotsOf(h, kind)|
    ensures Belongs(SlotsOf(h, kind)[i], kind)
  {}

  /** Filling an empty slot, from the shop or from storage. */
  lemma FillingFits(c: Catalog, y: Yard, ship: string, kind: Kind, i: nat, d: Device)
    requires CatalogOk(c) && YardOk(c, y) && Exists(y, ship, kind, i) && SlotAt(y, ship, kind, i).None? && OnSale(d.item, kind, d.grade)
    ensures Fits(c, y, ship, kind, i, Some(d)) <==>
              (!Duplicate(y.ships[ship], kind, i, d.item) && !(NoShield(c, y.ships[ship]) && d.item.Shield?)
               && PowerFits(c, y.ships[ship], None, d.item, d.grade))
  {
    hide CatalogOk, YardOk, Equipped, CargoCapacity, Duplicate, PowerFits;
    ShipInOrder(c, y, ship);
    FitsWhenChecked(c, y.ships[ship], kind, i, d);
    PutCargo(c, y.ships[ship], kind, i, Some(d));
    BonusNonNegative(c, Some(d));
    NoBonus(c);
  }

  lemma InstallsGoThrough(c: Catalog, y: Yard, o: Order)
    requires CatalogOk(c) && YardOk(c, y) && o.Install?
    ensures Refusal(c, y, o).None? <==> y.docked && Proper(c, y, o) && Affordable(c, y, o) && Workable(c, y, o)
  {
    hide CatalogOk, YardOk, Fits, Price, Duplicate, PowerFits, NoShield;
    if Proper(c, y, o) { FillingFits(c, y, o.ship, o.kind, o.index, Bought(y, o)); }
  }

  lemma EquippingGoesThrough(c: Catalog, y: Yard, o: Order)
    requires CatalogOk(c) && YardOk(c, y) && o.Equip?
    ensures Refusal(c, y, o).None? <==> y.docked && Proper(c, y, o) && Affordable(c, y, o) && Workable(c, y, o)
  {
    StockInOrder(c, y);
    hide CatalogOk, YardOk, Fits, Duplicate, PowerFits, NoShield;
    if Proper(c, y, o) { FillingFits(c, y, o.ship, o.kind, o.index, y.inventory[o.invIndex]); }
  }

  lemma StockInOrder(c: Catalog, y: Yard)
    requires YardOk(c, y)
    ensures forall i :: 0 <= i < |y.inventory| ==> 0 <= y.inventory[i].grade <= MAX_GRADE
  {}

  lemma RemovalsGoThrough(c: Catalog, y: Yard, o: Order)
    requires CatalogOk(c) && YardOk(c, y) && (o.Store? || o.Sell?)
    ensures Refusal(c, y, o).None? <==> y.docked && Proper(c, y, o) && Affordable(c, y, o) && Workable(c, y, o)
  {
    hide CatalogOk, YardOk, Equipped, CargoCapacity, CapacityAfter, Put;
    if Proper(c, y, o) {
      var h := y.ships[o.ship];
      ShipInOrder(c, y, o.ship);
      SlotInOrder(c, h, o.kind, o.index);
      PutEquipped(c, h, o.kind, o.index, None);
      PutCargo(c, h, o.kind, o.index, None);
    }
  }

  lemma ReplacementsGoThrough(c: Catalog, y: Yard, o: Order)
    requires CatalogOk(c) && YardOk(c, y) && o.Replace?
    ensures Refusal(c, y, o).None? <==> y.docked && Proper(c, y, o) && Affordable(c, y, o) && Workable(c, y, o)
  {
    hide CatalogOk, YardOk, Equipped, CargoCapacity, CapacityAfter, Put, Duplicate, PowerFits, Price, SellValue, NoShield;
    if Proper(c, y, o) {
      var h := y.ships[o.ship];
      ShipInOrder(c, y, o.ship);
      SlotInOrder(c, h, o.kind, o.index);
      FitsWhenChecked(c, h, o.kind, o.index, Bought(y, o));
      PutCargo(c, h, o.kind, o.index, Some(Bought(y, o)));
    }
  }

  lemma UpgradesGoThrough(c: Catalog, y: Yard, o: Order)
    requires o.BuyTrack?
    ensures Refusal(c, y, o).None? <==> y.docked && Proper(c, y, o) && Affordable(c, y, o) && Workable(c, y, o)
  {
    hide TrackPrice;
  }

  lemma PurchasesGoThrough(c: Catalog, y: Yard, o: Order)
    requires o.Acquire?
    ensures Refusal(c, y, o).None? <==> y.docked && Proper(c, y, o) && Affordable(c, y, o) && Workable(c, y, o)
  {
    hide AcquirePrice;
  }

  lemma SwitchesGoThrough(c: Catalog, y: Yard, o: Order)
    requires YardOk(c, y) && o.Switch?
    ensures Refusal(c, y, o).None? <==> y.docked && Proper(c, y, o) && Affordable(c, y, o) && Workable(c, y, o)
  {
    hide CargoCapacity;
  }

  /** What a pilot can expect of an order, in a yard that is in order: it goes through exactly when it should,
      does then what it is for, and otherwise nothing. */
  ghost predicate Served(c: Catalog, before: Yard, after: Yard, o: Order, refusal: Option<Error>) {
    && (if refusal.None? then Done(c, before, after, o) else after == before)
    && (CatalogOk(c) && YardOk(c, before) ==>
          (refusal.None? <==> before.docked && Proper(c, before, o) && Affordable(c, before, o) && Workable(c, before, o)))
  }

  lemma OrdersAreServed(c: Catalog, y: Yard, o: Order)
    ensures Served(c, y, Do(c, y, o), o, Refusal(c, y, o))
  {
    hide CatalogOk, YardOk, Refusal, Apply, Done, Proper, Affordable, Workable;
    if Refusal(c, y, o).None? { OrdersTakeEffect(c, y, o); }
    if CatalogOk(c) && YardOk(c, y) { OrdersGoThrough(c, y, o); }
  }

  /** Who buys a ship pays for it: the list price, or on a buyback the discount to the nearest ten. */
  lemma PurchasesArePaid(c: Catalog, y: Yard, o: Order)
    requires o.Acquire? && Refusal(c, y, o).None? && !Owed(c, y, o.model)
    ensures var after, m := Do(c, y, o), c.models[o.model];
            var paid := y.credits - after.credits;
            && paid == after.spent - y.spent
            && (o.model !in y.unlocked || m.noBuyback ==> paid == m.price)
            && (o.model in y.unlocked && !m.noBuyback ==> paid % 10 == 0 && -5.0 <= paid as real - m.price as real * c.buybackPct <= 5.0)
  {
    HullsFollowTheList(c, y, o.model);
    hide AcquirePrice;
  }
}
