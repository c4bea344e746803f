/** What orders do to the devices a pilot owns, measured by any property that servicing leaves
    alone: nothing is made or lost but by buying and selling, and no sequence of orders makes money. */
module ShipyardMoves {
  import opened Wrappers
  import opened Numbers
  import opened Sums
  import opened Berths
  import opened Shipyard

  /** A measure that does not look at what a service visit changes. */
  ghost predicate Neutral(f: Device -> int) {
    forall d: Device, armed: bool, missiles: int {:trigger f(d.(armed := armed, missiles := missiles))} ::
      f(d.(armed := armed, missiles := missiles)) == f(d)
  }

  function Of(d: Option<Device>, f: Device -> int): int { match d case Some(x) => f(x) case None => 0 }

  lemma {:induction false} SlotSumUpdate(slots: Slots, i: nat, d: Option<Device>, f: Device -> int)
    requires i < |slots|
    ensures SlotSum(slots[i := d], f) == SlotSum(slots, f) - Of(slots[i], f) + Of(d, f)
    decreases |slots|
  {
    if i == 0 {
      assert slots[i := d][1..] == slots[1..];
    } else {
      assert slots[i := d][1..] == slots[1..][i - 1 := d];
      SlotSumUpdate(slots[1..], i - 1, d, f);
    }
  }

  lemma {:induction false} SlotSumService(slots: Slots, after: Slots, f: Device -> int)
    requires |after| == |slots| && forall i :: 0 <= i < |slots| ==> Of(after[i], f) == Of(slots[i], f)
    ensures SlotSum(after, f) == SlotSum(slots, f)
    decreases |slots|
  {
    if slots != [] {
      forall i | 0 <= i < |slots[1..]| ensures Of(after[1..][i], f) == Of(slots[1..][i], f) {
        assert Of(after[i + 1], f) == Of(slots[i + 1], f);
      }
      SlotSumService(slots[1..], after[1..], f);
      assert Of(after[0], f) == Of(slots[0], f);
    }
  }

  lemma {:induction false} EmptySum(n: nat, f: Device -> int)
    ensures SlotSum(seq(n, _ => None), f) == 0
    decreases n
  {
    if n > 0 {
      EmptySum(n - 1, f);
      var slots: Slots, rest: Slots := seq(n, _ => None), seq(n - 1, _ => None);
      assert slots[1..] == rest;
    }
  }

  lemma PutSum(h: Hull, kind: Kind, i: nat, d: Option<Device>, f: Device -> int)
    requires i < |SlotsOf(h, kind)|
    ensures HullSum(Put(h, kind, i, d), f) == HullSum(h, f) - Of(SlotsOf(h, kind)[i], f) + Of(d, f)
  {
    SlotSumUpdate(SlotsOf(h, kind), i, d, f);
  }

  lemma ServiceOne(c: Catalog, d: Option<Device>, f: Device -> int)
    requires Neutral(f)
    ensures Of(Serviced(c, d), f) == Of(d, f) && Of(Trimmed(c, d), f) == Of(d, f)
    ensures d.Some? ==> f(d.value.(armed := true)) == f(d.value)
  {
    if d.Some? {
      var x := d.value;
      assert x.(armed := x.armed, missiles := c.missileCapacity(x.grade)) == x.(missiles := c.missileCapacity(x.grade));
      var m := ClampInt(x.missiles, 0, c.missileCapacity(x.grade));
      assert x.(armed := x.armed, missiles := m) == x.(missiles := m);
      assert x.(armed := true, missiles := x.missiles) == x.(armed := true);
    }
  }

  lemma ServiceSum(c: Catalog, h: Hull, f: Device -> int)
    requires Neutral(f)
    ensures HullSum(Rearmed(c, h), f) == HullSum(h, f) && HullSum(NormalizedMissiles(c, h), f) == HullSum(h, f)
  {
    forall i | 0 <= i < |h.weapon|
      ensures Of(Serviced(c, h.weapon[i]), f) == Of(h.weapon[i], f) && Of(Trimmed(c, h.weapon[i]), f) == Of(h.weapon[i], f)
    {
      ServiceOne(c, h.weapon[i], f);
    }
    SlotSumService(h.weapon, Rearmed(c, h).weapon, f);
    SlotSumService(h.weapon, NormalizedMissiles(c, h).weapon, f);
  }

  lemma FinishedSum(c: Catalog, h: Hull, kind: Kind, i: nat, f: Device -> int)
    requires Neutral(f) && i < |SlotsOf(h, kind)| && SlotsOf(h, kind)[i].Some?
    ensures HullSum(Finished(c, h, kind, i), f) == HullSum(h, f)
  {
    hide SlotSum, Neutral, Put, Rearmed;
    var d := SlotsOf(h, kind)[i].value;
    ServiceSum(c, h, f);
    ServiceOne(c, Some(d), f);
    PutSum(h, kind, i, Some(d.(armed := true)), f);
  }

  lemma FittedSum(c: Catalog, h: Hull, kind: Kind, i: nat, d: Device, f: Device -> int)
    requires Neutral(f) && i < |SlotsOf(h, kind)|
    ensures HullSum(Fitted(c, h, kind, i, d), f) == HullSum(h, f) - Of(SlotsOf(h, kind)[i], f) + f(d)
  {
    PutSum(h, kind, i, Some(d), f);
    FinishedSum(c, Put(h, kind, i, Some(d)), kind, i, f);
  }

  lemma SettledSum(c: Catalog, h: Hull, f: Device -> int)
    requires Neutral(f)
    ensures HullSum(Settled(c, h), f) == HullSum(h, f)
  {
    ServiceSum(c, NormalizedShield(c, h), f);
  }

  // ---------------------------------------------------------------- everything a pilot owns

  ghost function Fleet(ships: map<string, Hull>, f: Device -> int): map<string, int> { map id | id in ships :: HullSum(ships[id], f) }

  function Stock(devices: seq<Device>, f: Device -> int): int
    decreases |devices|
  {
    if devices == [] then 0 else f(devices[0]) + Stock(devices[1..], f)
  }

  ghost function Owned(y: Yard, f: Device -> int): int { Total(Fleet(y.ships, f)) + Stock(y.inventory, f) }

  lemma ShipChanges(ships: map<string, Hull>, id: string, h: Hull, f: Device -> int)
    ensures Total(Fleet(ships[id := h], f)) == Total(Fleet(ships, f)) - (if id in ships then HullSum(ships[id], f) else 0) + HullSum(h, f)
  {
    assert Fleet(ships[id := h], f) == Fleet(ships, f)[id := HullSum(h, f)];
    TotalUpdate(Fleet(ships, f), id, HullSum(h, f));
  }

  lemma {:induction false} StockAppend(devices: seq<Device>, d: Device, f: Device -> int)
    ensures Stock(devices + [d], f) == Stock(devices, f) + f(d)
    decreases |devices|
  {
    if devices != [] {
      assert (devices + [d])[1..] == devices[1..] + [d];
      StockAppend(devices[1..], d, f);
    }
  }

  lemma {:induction false} StockRemove(devices: seq<Device>, i: nat, f: Device -> int)
    requires i < |devices|
    ensures Stock(devices[..i] + devices[i + 1..], f) == Stock(devices, f) - f(devices[i])
    decreases |devices|
  {
    if i == 0 {
      assert devices[..i] + devices[i + 1..] == devices[1..];
    } else {
      assert (devices[..i] + devices[i + 1..])[1..] == devices[1..][..i - 1] + devices[1..][i..];
      StockRemove(devices[1..], i - 1, f);
    }
  }

  /** The devices an order buys and sells. */
  function Gained(y: Yard, o: Order, f: Device -> int): int {
    match o
    case Install(_, _, _, _, _) => f(Bought(y, o))
    case Replace(_, _, _, _, _) => f(Bought(y, o))
    case _ => 0
  }

  function Sold(y: Yard, o: Order, f: Device -> int): int {
    match o
    case Sell(ship, kind, i) =>
      if ship in y.ships && 0 <= i < |SlotsOf(y.ships[ship], kind)| then Of(SlotsOf(y.ships[ship], kind)[i], f) else 0
    case Replace(ship, kind, i, _, _) =>
      if ship in y.ships && 0 <= i < |SlotsOf(y.ships[ship], kind)| then Of(SlotsOf(y.ships[ship], kind)[i], f) else 0
    case _ => 0
  }

  lemma FreshSum(c: Catalog, y: Yard, model: string, f: Device -> int)
    requires model in c.models
    ensures HullSum(FreshHull(c, y, model), f) == 0
  {
    var m := c.models[model];
    EmptySum(m.utilitySlots, f);
    EmptySum(m.weaponSlots, f);
    EmptySum(m.internalSlots, f);
  }

  /** A granted Skiff comes empty, and the one it displaces takes its devices along. */
  lemma GrantMoves(c: Catalog, y: Yard, f: Device -> int)
    requires STARTER in c.models
    ensures Owned(Granted(c, y), f) == Owned(y, f)
  {
    hide SlotSum, HullSum, Total, Fleet, Stock, FirstFree, FreshHull;
    FreshSum(c, y, STARTER, f);
    if STARTER in y.ships {
      BerthIsFree(y.ships.Keys, y.ships[STARTER].system, 1);
      ShipChanges(y.ships, FirstFree(y.ships.Keys, y.ships[STARTER].system, 1), y.ships[STARTER], f);
    }
    ShipChanges(Displaced(y), STARTER, FreshHull(c, y, STARTER), f);
  }

  /** Orders move devices around. Only buying adds one and only selling takes one away; storing and
      re-equipping keep each device as it was, fuel included. */
  lemma OrdersMoveDevices(c: Catalog, y: Yard, o: Order, f: Device -> int)
    requires Neutral(f) && Refusal(c, y, o).None?
    ensures Owned(Apply(c, y, o), f) == Owned(y, f) + Gained(y, o, f) - Sold(y, o, f)
  {
    hide Neutral, SlotSum, HullSum, Total, Fleet, Stock, Fitted, Settled, Put, PowerFits, Duplicate, CargoStays, Price, SellValue;
    match o {
      case Install(ship, kind, i, _, _) =>
        FittedSum(c, y.ships[ship], kind, i, Bought(y, o), f);
        ShipChanges(y.ships, ship, Fitted(c, y.ships[ship], kind, i, Bought(y, o)), f);
      case Store(ship, kind, i) =>
        Removal(c, y, ship, kind, i, f);
        StockAppend(y.inventory, SlotsOf(y.ships[ship], kind)[i].value, f);
      case Sell(ship, kind, i) =>
        Removal(c, y, ship, kind, i, f);
      case Replace(ship, kind, i, _, _) =>
        var h := Fitted(c, y.ships[ship], kind, i, Bought(y, o));
        FittedSum(c, y.ships[ship], kind, i, Bought(y, o), f);
        SettledSum(c, h, f);
        ShipChanges(y.ships, ship, Settled(c, h), f);
      case Equip(ship, kind, i, inv) =>
        FittedSum(c, y.ships[ship], kind, i, y.inventory[inv], f);
        ShipChanges(y.ships, ship, Fitted(c, y.ships[ship], kind, i, y.inventory[inv]), f);
        StockRemove(y.inventory, inv, f);
      case BuyTrack(ship, t) =>
        var h := y.ships[ship].(grades := Apply(c, y, o).ships[ship].grades);
        SameSlots(y.ships[ship], h.grades, f);
        ShipChanges(y.ships, ship, h, f);
      case Acquire(model) =>
        FreshSum(c, y, model, f);
        if Owed(c, y, model) { GrantMoves(c, y, f); }
        ShipChanges(y.ships, model, FreshHull(c, y, model), f);
      case Switch(_) =>
    }
  }

  lemma Removal(c: Catalog, y: Yard, ship: string, kind: Kind, i: nat, f: Device -> int)
    requires Neutral(f) && ship in y.ships && i < |SlotsOf(y.ships[ship], kind)|
    ensures Total(Fleet(y.ships[ship := Settled(c, Put(y.ships[ship], kind, i, None))], f))
            == Total(Fleet(y.ships, f)) - Of(SlotsOf(y.ships[ship], kind)[i], f)
  {
    hide Neutral, SlotSum, HullSum, Total, Fleet, Settled, Put;
    PutSum(y.ships[ship], kind, i, None, f);
    SettledSum(c, Put(y.ships[ship], kind, i, None), f);
    ShipChanges(y.ships, ship, Settled(c, Put(y.ships[ship], kind, i, None)), f);
  }

  lemma SameSlots(h: Hull, grades: Grades, f: Device -> int)
    ensures HullSum(h.(grades := grades), f) == HullSum(h, f)
  {}
}
