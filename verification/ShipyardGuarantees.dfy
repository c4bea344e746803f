/** What the dockyard promises over any sequence of orders: no money from nothing, no device twice. */
module ShipyardGuarantees {
  import opened Wrappers
  import opened Numbers
  import opened Sums
  import opened Berths
  import opened Shipyard
  import opened ShipyardMoves

  // ---------------------------------------------------------------- money

  lemma RoundNonNegative(x: real)
    requires x >= 0.0
    ensures Round(x) >= 0
  {}

  lemma GrownNonNegative(base: real, curve: real, grade: int)
    requires base >= 0.0 && curve > 1.0
    ensures Grown(base, curve, grade) >= 0.0
  {
    PowerGrows(curve, if grade < 0 then 0 else grade);
  }

  lemma CutFits(price: int, pct: real)
    requires price >= 0 && pct >= 0.0
    ensures 0.0 <= Cut(price, pct) && (pct <= 1.0 ==> Cut(price, pct) <= price as real)
  {
    var p := price as real;
    assert p * pct >= 0.0;
    if pct <= 1.0 {
      assert p * (1.0 - pct) >= 0.0;
      assert p * (1.0 - pct) == p - p * pct;
    }
  }

  lemma RoundBetween(x: real, n: int)
    requires 0.0 <= x <= n as real
    ensures 0 <= Round(x) <= n
  {
    assert Round(x) as real < (n + 1) as real;
  }

  /** A device sells for no more than it costs, and neither is negative. */
  lemma SellsForLess(c: Catalog, item: Item, grade: int)
    requires CatalogOk(c)
    ensures 0 <= SellValue(c, item, grade) <= Price(c, item, grade)
  {
    hide Grown, Cut, Round;
    GrownNonNegative(c.itemPrice(item) as real, c.curve, grade);
    RoundNonNegative(Grown(c.itemPrice(item) as real, c.curve, grade));
    CutFits(Price(c, item, grade), c.sellPct);
    RoundBetween(Cut(Price(c, item, grade), c.sellPct), Price(c, item, grade));
  }

  lemma AcquirePriceNonNegative(c: Catalog, y: Yard, model: string)
    requires CatalogOk(c) && model in c.models
    ensures AcquirePrice(c, y, model) >= 0
  {
    hide Cut, Round;
    var m := c.models[model];
    assert ModelOk(m);
    CutFits(m.price, c.buybackPct);
    RoundNonNegative(Cut(m.price, c.buybackPct) / 10.0);
  }

  lemma TrackPriceNonNegative(c: Catalog, model: string, t: Track, grade: int)
    requires CatalogOk(c) && model in c.models
    ensures TrackPrice(c, c.models[model], t, grade) >= 0
  {
    hide Grown, Cut, Round;
    assert ModelOk(c.models[model]);
    CutFits(c.trackPrice(t), c.models[model].tierMul);
    GrownNonNegative(Cut(c.trackPrice(t), c.models[model].tierMul), c.curve, grade);
    RoundNonNegative(Grown(Cut(c.trackPrice(t), c.models[model].tierMul), c.curve, grade));
  }

  ghost function Worth(c: Catalog): Device -> int { (d: Device) => SellValue(c, d.item, d.grade) }

  /** Cash plus what everything owned, installed or stored, would sell for. */
  ghost function Wealth(c: Catalog, y: Yard): int { y.credits + Owned(y, Worth(c)) }

  lemma WorthIsNeutral(c: Catalog)
    ensures Neutral(Worth(c))
  {}

  /** The cash an order moves never exceeds the resale value it moves the other way. */
  lemma OrderIsFair(c: Catalog, y: Yard, o: Order)
    requires CatalogOk(c) && Refusal(c, y, o).None?
    ensures var gain := Apply(c, y, o).credits - y.credits + Gained(y, o, Worth(c)) - Sold(y, o, Worth(c));
            gain <= 0 && (o.Store? || o.Sell? || o.Equip? || o.Switch? ==> gain == 0)
    ensures y.credits >= 0 ==> Apply(c, y, o).credits >= 0
  {
    hide SellValue, Price, TrackPrice, AcquirePrice, Fitted, Settled, CatalogOk, PowerFits, Duplicate, CargoStays;
    match o {
      case Install(_, _, _, item, grade) => SellsForLess(c, item, grade);
      case Replace(ship, kind, i, item, grade) => SellsForLess(c, item, grade);
      case Sell(ship, kind, i) =>
        var out := SlotsOf(y.ships[ship], kind)[i].value;
        SellsForLess(c, out.item, out.grade);
      case BuyTrack(ship, t) => TrackPriceNonNegative(c, y.ships[ship].model, t, GradeOf(y.ships[ship].grades, t));
      case Acquire(model) => AcquirePriceNonNegative(c, y, model);
      case _ =>
    }
  }

  /** No order makes a pilot richer or overdrawn; storing, selling, re-equipping and switching leave
      the wealth exactly as it was. */
  lemma OrdersNeverEnrich(c: Catalog, y: Yard, o: Order)
    requires CatalogOk(c)
    ensures Wealth(c, Do(c, y, o)) <= Wealth(c, y)
    ensures o.Store? || o.Sell? || o.Equip? || o.Switch? ==> Wealth(c, Do(c, y, o)) == Wealth(c, y)
    ensures y.credits >= 0 ==> Do(c, y, o).credits >= 0
  {
    WorthIsNeutral(c);
    hide Neutral, Owned, Apply, Refusal, CatalogOk, Gained, Sold, Worth;
    if Refusal(c, y, o).None? {
      OrdersMoveDevices(c, y, o, Worth(c));
      OrderIsFair(c, y, o);
    }
  }

  /** There is no money pump in the dockyard. */
  lemma {:induction false} NoMoneyPump(c: Catalog, y: Yard, orders: seq<Order>)
    requires CatalogOk(c)
    ensures Wealth(c, DoAll(c, y, orders)) <= Wealth(c, y)
    ensures y.credits >= 0 ==> DoAll(c, y, orders).credits >= 0
    decreases |orders|
  {
    if orders != [] {
      OrdersNeverEnrich(c, y, orders[0]);
      hide Wealth, Do, CatalogOk;
      NoMoneyPump(c, Do(c, y, orders[0]), orders[1..]);
    }
  }

  // ---------------------------------------------------------------- devices

  /** What a device is, apart from its ammunition and arming. */
  datatype Core = Core(serial: nat, item: Item, grade: int, fuel: real)

  function CoreOf(d: Device): Core { Core(d.serial, d.item, d.grade, d.fuel) }

  ghost function Copies(core: Core): Device -> int { (d: Device) => if CoreOf(d) == core then 1 else 0 }

  ghost function Serials(n: nat): Device -> int { (d: Device) => if d.serial == n then 1 else 0 }

  /** Storing and re-equipping permute the devices: each is still owned exactly as often as before,
      the same item at the same grade with the same fuel in it. */
  lemma StoringPermutes(c: Catalog, y: Yard, o: Order, core: Core)
    requires o.Store? || o.Equip? || o.Switch?
    ensures Owned(Do(c, y, o), Copies(core)) == Owned(y, Copies(core))
  {
    if Refusal(c, y, o).None? {
      assert Neutral(Copies(core));
      OrdersMoveDevices(c, y, o, Copies(core));
    }
  }

  /** No device sits in two places, and no future serial number is in use. */
  ghost predicate Unique(y: Yard) {
    forall n: nat {:trigger Serials(n)} :: Owned(y, Serials(n)) <= 1 && (n >= y.nextSerial ==> Owned(y, Serials(n)) == 0)
  }

  lemma {:induction false} StockNonNegative(devices: seq<Device>, f: Device -> int)
    requires forall d: Device :: f(d) >= 0
    ensures Stock(devices, f) >= 0
    decreases |devices|
  {
    if devices != [] { StockNonNegative(devices[1..], f); }
  }

  lemma {:induction false} SlotsNonNegative(slots: Slots, f: Device -> int)
    requires forall d: Device :: f(d) >= 0
    ensures SlotSum(slots, f) >= 0
    decreases |slots|
  {
    if slots != [] { SlotsNonNegative(slots[1..], f); }
  }

  lemma OwnedNonNegative(y: Yard, f: Device -> int)
    requires forall d: Device :: f(d) >= 0
    ensures Owned(y, f) >= 0
  {
    forall id | id in y.ships ensures Fleet(y.ships, f)[id] >= 0 {
      SlotsNonNegative(y.ships[id].utility, f);
      SlotsNonNegative(y.ships[id].weapon, f);
      SlotsNonNegative(y.ships[id].internal, f);
    }
    TotalNonNegative(Fleet(y.ships, f));
    StockNonNegative(y.inventory, f);
  }

  lemma OneSerial(c: Catalog, y: Yard, o: Order, n: nat)
    requires Refusal(c, y, o).None? && Unique(y)
    ensures Owned(Apply(c, y, o), Serials(n)) <= 1
    ensures n >= Apply(c, y, o).nextSerial ==> Owned(Apply(c, y, o), Serials(n)) == 0
  {
    assert Neutral(Serials(n));
    OrdersMoveDevices(c, y, o, Serials(n));
    OwnedNonNegative(Apply(c, y, o), Serials(n));
    hide Owned, Fitted, Settled, Refusal;
    assert Owned(y, Serials(n)) <= 1 && (n >= y.nextSerial ==> Owned(y, Serials(n)) == 0);
  }

  lemma OrdersKeepUnique(c: Catalog, y: Yard, o: Order)
    requires Unique(y)
    ensures Unique(Do(c, y, o))
  {
    if Refusal(c, y, o).None? {
      forall n: nat
        ensures Owned(Apply(c, y, o), Serials(n)) <= 1
        ensures n >= Apply(c, y, o).nextSerial ==> Owned(Apply(c, y, o), Serials(n)) == 0
      {
        OneSerial(c, y, o, n);
      }
      hide Refusal, Apply, Owned;
    }
  }

  lemma {:induction false} NothingIsDuplicated(c: Catalog, y: Yard, orders: seq<Order>)
    requires Unique(y)
    ensures Unique(DoAll(c, y, orders))
    decreases |orders|
  {
    if orders != [] {
      OrdersKeepUnique(c, y, orders[0]);
      NothingIsDuplicated(c, Do(c, y, orders[0]), orders[1..]);
    }
  }
}
