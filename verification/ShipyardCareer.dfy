/** What an order can be trusted with, and with it every pilot from the first day on. */
module ShipyardCareer {
  import opened Wrappers
  import opened Numbers
  import opened Sums
  import opened Berths
  import opened Shipyard
  import opened ShipyardMoves
  import opened ShipyardGuarantees
  import opened ShipyardSafety

  /** What every order can be trusted with: nobody gets richer or overdrawn by it, a yard in order stays in
      order, and no device ends up in two places. */
  ghost predicate Honest(c: Catalog, before: Yard, after: Yard) {
    CatalogOk(c) ==>
      && Wealth(c, after) <= Wealth(c, before) && (before.credits >= 0 ==> after.credits >= 0)
      && (YardOk(c, before) ==> YardOk(c, after))
      && (Unique(before) ==> Unique(after))
  }

  lemma OrdersAreHonest(c: Catalog, y: Yard, o: Order)
    ensures Honest(c, y, Do(c, y, o)) && (Refusal(c, y, o).Some? ==> Do(c, y, o) == y)
  {
    hide CatalogOk, Wealth, YardOk, Unique, Refusal, Apply;
    if CatalogOk(c) {
      OrdersNeverEnrich(c, y, o);
      if YardOk(c, y) { OrdersKeepYard(c, y, o); }
      if Unique(y) { OrdersKeepUnique(c, y, o); }
    }
  }

  /** A new pilot: an empty hangar at home, and the free Skiff. */
  function NewYard(c: Catalog, credits: int): Yard
    requires STARTER in c.models
  {
    Granted(c, Yard(credits, 0, true, "sol", "", map[], [], 0.0, {}, map[], 0))
  }

  lemma NothingOwned(c: Catalog, credits: int, f: Device -> int)
    requires STARTER in c.models
    ensures Owned(NewYard(c, credits), f) == 0
  {
    var y := Yard(credits, 0, true, "sol", "", map[], [], 0.0, {}, map[], 0);
    assert Fleet(y.ships, f) == map[] && Owned(y, f) == 0;
    GrantMoves(c, y, f);
  }

  lemma NewPilotsAreInOrder(c: Catalog, credits: int)
    requires CatalogOk(c)
    ensures YardOk(c, NewYard(c, credits)) && Unique(NewYard(c, credits)) && Wealth(c, NewYard(c, credits)) == credits
  {
    var y := Yard(credits, 0, true, "sol", "", map[], [], 0.0, {}, map[], 0);
    FreshIsInOrder(c, y, STARTER);
    EmptySum(c.models[STARTER].utilitySlots, CargoGrades);
    assert ModelOk(c.models[STARTER]);
    FreshHold(c, FreshHull(c, y, STARTER));
    NothingOwned(c, credits, Worth(c));
    forall n: nat ensures Owned(NewYard(c, credits), Serials(n)) == 0 { NothingOwned(c, credits, Serials(n)); }
    hide HullOk, CatalogOk, CargoCapacity, FreshHull, Owned;
  }

  lemma FreshHold(c: Catalog, h: Hull)
    requires CatalogOk(c) && h.model in c.models && ModelOk(c.models[h.model])
    requires SlotSum(h.utility, CargoGrades) == 0
    ensures CargoCapacity(c, h) >= 0.0
  {
    HoldAdds(c, 0, 0);
  }

  /** Whatever a new pilot orders, in whatever sequence: the yard stays in order, the purse is never
      overdrawn, cash and resale together never come to more than the start-up money, and no device is
      in two places. */
  lemma CareersAreHonest(c: Catalog, credits: int, orders: seq<Order>)
    requires CatalogOk(c) && credits >= 0
    ensures var y := DoAll(c, NewYard(c, credits), orders);
            YardOk(c, y) && Unique(y) && y.credits >= 0 && Wealth(c, y) <= credits
  {
    assert STARTER in c.models;
    hide CatalogOk, YardOk, Unique, Wealth, DoAll, Granted;
    NewPilotsAreInOrder(c, credits);
    YardStaysOk(c, NewYard(c, credits), orders);
    NothingIsDuplicated(c, NewYard(c, credits), orders);
    NoMoneyPump(c, NewYard(c, credits), orders);
    assert NewYard(c, credits).credits == credits by { NewPurse(c, credits); }
  }

  lemma NewPurse(c: Catalog, credits: int)
    requires STARTER in c.models
    ensures NewYard(c, credits).credits == credits
  {}
}
