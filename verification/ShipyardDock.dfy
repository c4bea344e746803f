/** The dockyard as the object it is: each action checks everything first and only then changes the
    pilot's fields. Each method is proved to do what Shipyard says, and nothing when it refuses. */
module ShipyardDock {
  import opened Wrappers
  import opened Numbers
  import opened Berths
  import opened Shipyard
  import opened ShipyardCareer
  import opened ShipyardEffects

  class Dock {
    const c: Catalog
    var credits: int
    var spent: int
    var docked: bool
    var system: string
    var active: string
    var ships: map<string, Hull>
    var inventory: seq<Device>
    var cargoUnits: real
    var unlocked: set<string>
    var lostAt: map<string, string>
    var nextSerial: nat

    function View(): Yard
      reads this
    {
      Yard(credits, spent, docked, system, active, ships, inventory, cargoUnits, unlocked, lostAt, nextSerial)
    }

    constructor (c: Catalog, y: Yard)
      ensures this.c == c && View() == y
    {
      this.c := c;
      credits, spent, docked, system, active, ships := y.credits, y.spent, y.docked, y.system, y.active, y.ships;
      inventory, cargoUnits, unlocked, lostAt, nextSerial := y.inventory, y.cargoUnits, y.unlocked, y.lostAt, y.nextSerial;
    }

    /** Adds up the power of one kind of slot. */
    method SlotPower(slots: Slots) returns (total: int)
      ensures total == SlotSum(slots, PowerOf(c))
    {
      total := 0;
      var i := |slots|;
      assert slots[i..] == [];
      while i > 0
        invariant 0 <= i <= |slots| && total == SlotSum(slots[i..], PowerOf(c))
      {
        i := i - 1;
        assert slots[i..][1..] == slots[i + 1..];
        total := total + DevicePower(c, slots[i]);
      }
      assert slots[0..] == slots;
    }

    method InstalledPower(h: Hull) returns (total: int)
      ensures total == PowerUsed(c, h)
      ensures total == SlotSum(h.utility, PowerOf(c)) + SlotSum(h.weapon, PowerOf(c)) + SlotSum(h.internal, PowerOf(c))
    {
      var u := SlotPower(h.utility);
      var w := SlotPower(h.weapon);
      var i := SlotPower(h.internal);
      return u + w + i;
    }

    /** Looks for another device of the same item among slots. */
    method FindOther(slots: Slots, exclude: nat, item: Item) returns (found: bool)
      ensures found == HasOther(slots, exclude, item)
    {
      for i := 0 to |slots|
        invariant forall j :: 0 <= j < i && j != exclude && slots[j].Some? ==> slots[j].value.item != item
      {
        if i != exclude && slots[i].Some? && slots[i].value.item == item { return true; }
      }
      return false;
    }

    method CheckPower(h: Hull, out: Option<Device>, item: Item, grade: int) returns (fits: bool)
      ensures fits == PowerFits(c, h, out, item, grade)
    {
      var used := InstalledPower(h);
      return used - DevicePower(c, out) + c.power(item, grade) <= PowerCapacity(c, h);
    }

    method CheckUnique(h: Hull, kind: Kind, index: nat, item: Item) returns (clash: bool)
      ensures clash == Duplicate(h, kind, index, item)
    {
      if !IsUnique(item) { return false; }
      clash := FindOther(SlotsOf(h, kind), index, item);
    }

    /** Moves a ship's new state into the hangar. */
    method Berth(ship: string, h: Hull)
      modifies this`ships
      ensures ships == old(ships)[ship := h]
    {
      ships := ships[ship := h];
    }

    method Install(o: Order) returns (refusal: Option<Error>)
      requires o.Install?
      modifies this
      ensures refusal == Refusal(c, old(View()), o) && View() == Do(c, old(View()), o)
      ensures (refusal.Some? ==> View() == old(View())) && Honest(c, old(View()), View())
      ensures Served(c, old(View()), View(), o, refusal)
    {
      OrdersAreHonest(c, View(), o);
      OrdersAreServed(c, View(), o);
      hide Honest, Served, PowerFits, Duplicate, Fitted, Price;
      if !docked { return Some(InBelt); }
      if o.item.Retired? { return Some(ItemLocked); }
      if KindOf(o.item) != o.kind || !(0 <= o.grade <= MAX_GRADE) { return Some(InvalidSlotItem); }
      var bad := SlotError(c, View(), o.ship, o.kind, o.index, o.item);
      if bad.Some? { return bad; }
      var h := ships[o.ship];
      if SlotsOf(h, o.kind)[o.index].Some? { return Some(SlotOccupied); }
      var clash := CheckUnique(h, o.kind, o.index, o.item);
      if clash { return Some(DuplicateItem); }
      var price := Price(c, o.item, o.grade);
      if credits < price { return Some(InsufficientFunds); }
      var fits := CheckPower(h, None, o.item, o.grade);
      if !fits { return Some(PowerExceeded); }
      credits, spent := credits - price, spent + price;
      var d := Device(nextSerial, o.item, o.grade, 0.0, false, 0);
      nextSerial := nextSerial + 1;
      Berth(o.ship, Fitted(c, h, o.kind, o.index, d));
      return None;
    }

    method Store(o: Order) returns (refusal: Option<Error>)
      requires o.Store?
      modifies this
      ensures refusal == Refusal(c, old(View()), o) && View() == Do(c, old(View()), o)
      ensures (refusal.Some? ==> View() == old(View())) && Honest(c, old(View()), View())
      ensures Served(c, old(View()), View(), o, refusal)
    {
      OrdersAreHonest(c, View(), o);
      OrdersAreServed(c, View(), o);
      hide Honest, Served, CargoStays, Settled, Put;
      var bad := OccupiedError(View(), o.ship, o.kind, o.index);
      if bad.Some? { return bad; }
      var h := ships[o.ship];
      var d := SlotsOf(h, o.kind)[o.index];
      if !CargoStays(c, View(), o.ship, d, None) { return Some(CargoDoesNotFit); }
      inventory := inventory + [d.value];
      Berth(o.ship, Settled(c, Put(h, o.kind, o.index, None)));
      return None;
    }

    method Sell(o: Order) returns (refusal: Option<Error>)
      requires o.Sell?
      modifies this
      ensures refusal == Refusal(c, old(View()), o) && View() == Do(c, old(View()), o)
      ensures (refusal.Some? ==> View() == old(View())) && Honest(c, old(View()), View())
      ensures Served(c, old(View()), View(), o, refusal)
    {
      OrdersAreHonest(c, View(), o);
      OrdersAreServed(c, View(), o);
      hide Honest, Served, CargoStays, Settled, Put, SellValue;
      var bad := OccupiedError(View(), o.ship, o.kind, o.index);
      if bad.Some? { return bad; }
      var h := ships[o.ship];
      var d := SlotsOf(h, o.kind)[o.index];
      if !CargoStays(c, View(), o.ship, d, None) { return Some(CargoDoesNotFit); }
      credits := credits + SellValue(c, d.value.item, d.value.grade);
      Berth(o.ship, Settled(c, Put(h, o.kind, o.index, None)));
      return None;
    }

    method Replace(o: Order) returns (refusal: Option<Error>)
      requires o.Replace?
      modifies this
      ensures refusal == Refusal(c, old(View()), o) && View() == Do(c, old(View()), o)
      ensures (refusal.Some? ==> View() == old(View())) && Honest(c, old(View()), View())
      ensures Served(c, old(View()), View(), o, refusal)
    {
      OrdersAreHonest(c, View(), o);
      OrdersAreServed(c, View(), o);
      hide Honest, Served, PowerFits, Duplicate, Fitted, Price, SellValue, CargoStays, Settled;
      if !docked { return Some(InBelt); }
      if o.item.Retired? || KindOf(o.item) != o.kind || !(0 <= o.grade <= MAX_GRADE) { return Some(InvalidSlotItem); }
      var bad := SlotError(c, View(), o.ship, o.kind, o.index, o.item);
      if bad.Some? { return bad; }
      var h := ships[o.ship];
      var out := SlotsOf(h, o.kind)[o.index];
      if out.None? { return Some(SlotEmpty); }
      var clash := CheckUnique(h, o.kind, o.index, o.item);
      if clash { return Some(DuplicateItem); }
      var d := Device(nextSerial, o.item, o.grade, 0.0, false, 0);
      if !CargoStays(c, View(), o.ship, out, Some(d)) { return Some(CargoDoesNotFit); }
      var fits := CheckPower(h, out, o.item, o.grade);
      if !fits { return Some(PowerExceeded); }
      var price := Price(c, o.item, o.grade);
      var refund := SellValue(c, out.value.item, out.value.grade);
      if credits + refund < price { return Some(InsufficientFunds); }
      credits, spent := credits + refund - price, spent + price;
      nextSerial := nextSerial + 1;
      Berth(o.ship, Settled(c, Fitted(c, h, o.kind, o.index, d)));
      return None;
    }

    method Equip(o: Order) returns (refusal: Option<Error>)
      requires o.Equip?
      modifies this
      ensures refusal == Refusal(c, old(View()), o) && View() == Do(c, old(View()), o)
      ensures (refusal.Some? ==> View() == old(View())) && Honest(c, old(View()), View())
      ensures Served(c, old(View()), View(), o, refusal)
    {
      OrdersAreHonest(c, View(), o);
      OrdersAreServed(c, View(), o);
      hide Honest, Served, PowerFits, Duplicate, Fitted;
      if !docked { return Some(InBelt); }
      if !(0 <= o.invIndex < |inventory|) { return Some(InvalidInventory); }
      var d := inventory[o.invIndex];
      if KindOf(d.item) != o.kind { return Some(InvalidSlotItem); }
      if d.item.Retired? { return Some(ItemLocked); }
      var bad := SlotError(c, View(), o.ship, o.kind, o.index, d.item);
      if bad.Some? { return bad; }
      var h := ships[o.ship];
      if SlotsOf(h, o.kind)[o.index].Some? { return Some(SlotOccupied); }
      var clash := CheckUnique(h, o.kind, o.index, d.item);
      if clash { return Some(DuplicateItem); }
      var fits := CheckPower(h, None, d.item, d.grade);
      if !fits { return Some(PowerExceeded); }
      inventory := inventory[..o.invIndex] + inventory[o.invIndex + 1..];
      Berth(o.ship, Fitted(c, h, o.kind, o.index, d));
      return None;
    }

    method BuyTrack(o: Order) returns (refusal: Option<Error>)
      requires o.BuyTrack?
      modifies this
      ensures refusal == Refusal(c, old(View()), o) && View() == Do(c, old(View()), o)
      ensures (refusal.Some? ==> View() == old(View())) && Honest(c, old(View()), View())
      ensures Served(c, old(View()), View(), o, refusal)
    {
      OrdersAreHonest(c, View(), o);
      OrdersAreServed(c, View(), o);
      hide Honest, Served, TrackPrice;
      if !docked { return Some(InBelt); }
      if o.ship !in ships { return Some(InvalidShip); }
      var h := ships[o.ship];
      if h.system != system { return Some(ShipRemote); }
      if h.model !in c.models { return Some(InvalidShip); }
      var grade := GradeOf(h.grades, o.track);
      if grade >= GradeOf(c.models[h.model].cap, o.track) { return Some(MaxUpgrade); }
      var price := TrackPrice(c, c.models[h.model], o.track, grade);
      if credits < price { return Some(InsufficientFunds); }
      credits, spent := credits - price, spent + price;
      Berth(o.ship, h.(grades := WithGrade(h.grades, o.track, grade + 1)));
      return None;
    }

    method CountLocal() returns (n: nat)
      ensures n == 0 <==> forall id :: id in ships ==> !IsHere(View(), id)
    {
      n := 0;
      var rest := ships.Keys;
      while rest != {}
        invariant rest <= ships.Keys
        invariant n == 0 <==> forall id :: id in ships && id !in rest ==> !IsHere(View(), id)
        decreases |rest|
      {
        var id :| id in rest;
        rest := rest - {id};
        if ships[id].system == system {
          n := n + 1;
        }
      }
    }

    /** Grants the free Skiff; one parked elsewhere is moved to a name of its own first. */
    method GrantStarter()
      requires STARTER in c.models && forall id :: id in ships ==> !IsHere(View(), id)
      modifies this`ships, this`active, this`unlocked
      ensures View() == Granted(c, old(View()))
      ensures forall id :: id in old(ships) && id != STARTER ==> id in ships && ships[id] == old(ships)[id]
      ensures STARTER in old(ships) ==> exists id :: id !in old(ships) && id in ships && ships[id] == old(ships)[STARTER]
    {
      hide FreshHull, FirstFree;
      ghost var was := ships;
      var skiff := FreshHull(c, View(), STARTER);
      if STARTER in ships && ships[STARTER].system != system {
        var id := FindBerth(ships.Keys, ships[STARTER].system);
        ships := ships[id := ships[STARTER]];
        assert ships[id] == was[STARTER];
      }
      ships := ships[STARTER := skiff];
      active := STARTER;
      unlocked := unlocked + {STARTER};
    }

    method Acquire(o: Order) returns (refusal: Option<Error>)
      requires o.Acquire? && STARTER in c.models
      modifies this
      ensures refusal == Refusal(c, old(View()), o) && View() == Do(c, old(View()), o)
      ensures (refusal.Some? ==> View() == old(View())) && Honest(c, old(View()), View())
      ensures Served(c, old(View()), View(), o, refusal)
      ensures refusal.None? && (o.model != STARTER || exists id :: id in old(ships) && old(ships)[id].system == old(system)) ==>
                var m, paid := c.models[o.model], old(credits) - credits;
                && paid == spent - old(spent)
                && (o.model !in old(unlocked) || m.noBuyback ==> paid == m.price)
                && (o.model in old(unlocked) && !m.noBuyback ==>
                      paid % 10 == 0 && -5.0 <= paid as real - m.price as real * c.buybackPct <= 5.0)
    {
      OrdersAreHonest(c, View(), o);
      OrdersAreServed(c, View(), o);
      if Refusal(c, View(), o).None? && !Owed(c, View(), o.model) { PurchasesArePaid(c, View(), o); }
      hide Honest, Served, AcquirePrice, Refusal, Do;
      refusal := Purchase(o);
    }

    method Purchase(o: Order) returns (refusal: Option<Error>)
      requires o.Acquire? && STARTER in c.models
      modifies this
      ensures refusal == Refusal(c, old(View()), o) && View() == Do(c, old(View()), o)
    {
      hide AcquirePrice, FreshHull, FirstFree;
      if !docked { return Some(InBelt); }
      var local := CountLocal();
      if o.model == STARTER && local == 0 {
        GrantStarter();
        return None;
      }
      if o.model in ships { return Some(AlreadyOwned); }
      if o.model !in c.models { return Some(InvalidShip); }
      if !SoldHere(c, View(), o.model) { return Some(NotEligible); }
      var price := AcquirePrice(c, View(), o.model);
      if credits < price { return Some(InsufficientFunds); }
      var h := FreshHull(c, View(), o.model);
      assert h == FreshHull(c, old(View()), o.model);
      credits, spent := credits - price, spent + price;
      Berth(o.model, h);
      unlocked := unlocked + {o.model};
      return None;
    }

    method Switch(o: Order) returns (refusal: Option<Error>)
      requires o.Switch?
      modifies this
      ensures refusal == Refusal(c, old(View()), o) && View() == Do(c, old(View()), o)
      ensures (refusal.Some? ==> View() == old(View())) && Honest(c, old(View()), View())
      ensures Served(c, old(View()), View(), o, refusal)
    {
      OrdersAreHonest(c, View(), o);
      OrdersAreServed(c, View(), o);
      hide Honest, Served, CargoCapacity;
      if !docked { return Some(InBelt); }
      if o.ship !in ships { return Some(NotOwned); }
      if o.ship == active { return None; }
      if ships[o.ship].system != system { return Some(ShipRemote); }
      if cargoUnits > CargoCapacity(c, ships[o.ship]) { return Some(CargoDoesNotFit); }
      active := o.ship;
      return None;
    }
  }
}
