/** The hauler ferry: its price is the cheapest admitted route, found by Dijkstra's algorithm. */
module Ferry {
  import opened Wrappers
  import opened Numbers
  import opened Routes

  datatype Error = InBelt | NotOwned | NotEligible | InvalidSystem | RouteLocked | InsufficientFunds

  datatype Result<+T> = Ok(value: T) | Err(error: Error)

  datatype Tariff = Tariff(markup: real, refuelPerPoint: nat)

  function Marked(tariff: Tariff, fuel: real): real { fuel * tariff.markup * tariff.refuelPerPoint as real }

  function Price(tariff: Tariff, fuel: real): int { Round(Marked(tariff, fuel)) }

  /** A quote for some fuel, to the nearest credit. */
  predicate Quoted(tariff: Tariff, fuel: real, credits: int) {
    -0.5 <= credits as real - fuel * tariff.markup * tariff.refuelPerPoint as real <= 0.5
  }

  lemma PriceIsQuoted(tariff: Tariff, fuel: real)
    ensures Quoted(tariff, fuel, Price(tariff, fuel))
  {}

  /** Everything settled so far: the search's own bookkeeping. */
  ghost predicate Settled(net: Network, rating: int, burn: real, src: string, costs: map<string, real>, done: set<string>) {
    && src in costs && costs[src] == 0.0
    && (forall x :: x in costs ==> costs[x] >= 0.0 && Reaches(net, rating, burn, src, x, costs[x]))
    && (forall x :: x in done ==> x in costs && AtLeast(net, rating, burn, src, x, costs[x]))
    && (forall x, y :: x in done && Hop(net, rating, burn, x, y).Some? ==>
          y in costs && costs[y] <= costs[x] + Hop(net, rating, burn, x, y).value)
  }

  /** The frontier argument: a path either ends in a settled system, no cheaper than its cost, or
      has already burnt as much as the cheapest open system. None stands for no open system. */
  lemma {:induction false} Frontier(net: Network, rating: int, burn: real, src: string, costs: map<string, real>,
                                    done: set<string>, best: Option<real>, p: seq<string>, x: string)
    requires WellFormed(net) && burn > 0.0 && SystemByID(net.systems, x).Some?
    requires Settled(net, rating, burn, src, costs, done)
    requires forall y :: y in costs && y !in done && SystemByID(net.systems, y).Some? ==> best.Some? && best.value <= costs[y]
    requires Path(net, rating, burn, p, src, x)
    ensures (x in done && costs[x] <= Fuel(net, rating, burn, p, src, x))
         || (best.Some? && best.value <= Fuel(net, rating, burn, p, src, x))
    decreases |p|
  {
    if |p| > 1 {
      var y := p[|p| - 2];
      Frontier(net, rating, burn, src, costs, done, best, p[..|p| - 1], y);
      HopCosts(net, rating, burn, y, x);
    }
  }

  lemma CheapestIsSettled(net: Network, rating: int, burn: real, src: string, costs: map<string, real>,
                          done: set<string>, id: string)
    requires WellFormed(net) && burn > 0.0 && SystemByID(net.systems, id).Some?
    requires Settled(net, rating, burn, src, costs, done)
    requires id in costs && id !in done
    requires forall y :: y in costs && y !in done && SystemByID(net.systems, y).Some? ==> costs[id] <= costs[y]
    ensures AtLeast(net, rating, burn, src, id, costs[id])
  {
    forall p | Path(net, rating, burn, p, src, id) ensures costs[id] <= Fuel(net, rating, burn, p, src, id) {
      Frontier(net, rating, burn, src, costs, done, Some(costs[id]), p, id);
    }
  }

  lemma NothingOpenIsLocked(net: Network, rating: int, burn: real, src: string, costs: map<string, real>,
                            done: set<string>, to: string)
    requires WellFormed(net) && burn > 0.0 && SystemByID(net.systems, to).Some?
    requires Settled(net, rating, burn, src, costs, done) && to !in done
    requires forall y :: y in costs && y !in done ==> SystemByID(net.systems, y).None?
    ensures !Connected(net, rating, burn, src, to)
  {
    forall p | Path(net, rating, burn, p, src, to) ensures false {
      Frontier(net, rating, burn, src, costs, done, None, p, to);
    }
  }

  /** The open system with the least cost, first in catalog order; "" when none is open. */
  method Cheapest(systems: seq<StarSystem>, costs: map<string, real>, done: set<string>) returns (id: string, best: real)
    requires forall s :: s in systems ==> s.id != ""
    ensures id == "" ==> forall s :: s in systems ==> s.id !in costs || s.id in done
    ensures id != "" ==> id in costs && id !in done && best == costs[id] && SystemByID(systems, id).Some?
    ensures id != "" ==> forall s :: s in systems && s.id in costs && s.id !in done ==> best <= costs[s.id]
  {
    id, best := "", 0.0;
    for i := 0 to |systems|
      invariant id == "" ==> forall j :: 0 <= j < i ==> systems[j].id !in costs || systems[j].id in done
      invariant id != "" ==> id in costs && id !in done && best == costs[id]
      invariant id != "" ==> exists j :: 0 <= j < i && systems[j].id == id
      invariant id != "" ==> forall j :: 0 <= j < i && systems[j].id in costs && systems[j].id !in done ==> best <= costs[systems[j].id]
    {
      var sys := systems[i].id;
      if sys in costs && sys !in done && (id == "" || costs[sys] < best) {
        id, best := sys, costs[sys];
      }
    }
  }

  /** Partway through relaxing the links of id: nothing settled has moved, costs only fall, and
      the links seen so far are no dearer than through id. */
  ghost predicate Relaxing(net: Network, rating: int, burn: real, src: string, id: string, links: seq<string>,
                           costs0: map<string, real>, done: set<string>, costs: map<string, real>)
    requires id in costs0
  {
    && (forall x :: x in costs ==> costs[x] >= 0.0 && Reaches(net, rating, burn, src, x, costs[x]))
    && (forall x :: x in costs0 ==> x in costs && costs[x] <= costs0[x])
    && (forall x :: x in done || x == id || x == src ==> x in costs0 && costs[x] == costs0[x])
    && (forall y :: y in links && Hop(net, rating, burn, id, y).Some? ==>
          y in costs && costs[y] <= costs0[id] + Hop(net, rating, burn, id, y).value)
  }

  lemma RelaxOne(net: Network, rating: int, burn: real, src: string, id: string, seen: seq<string>,
                 costs0: map<string, real>, done: set<string>, costs: map<string, real>, next: string)
    requires WellFormed(net) && burn > 0.0 && Settled(net, rating, burn, src, costs0, done)
    requires id in costs0 && Relaxing(net, rating, burn, src, id, seen, costs0, done, costs)
    ensures var hop := Hop(net, rating, burn, id, next);
            var v := costs0[id] + (if hop.Some? then hop.value else 0.0);
            Relaxing(net, rating, burn, src, id, seen + [next], costs0, done,
                     if hop.Some? && (next !in costs || v < costs[next]) then costs[next := v] else costs)
  {
    hide Hop, Reaches, AtLeast, WellFormed;
    HopCosts(net, rating, burn, id, next);
    var hop := Hop(net, rating, burn, id, next);
    if hop.Some? {
      Extend(net, rating, burn, src, id, next, costs0[id]);
      SettledIsFinal(net, rating, burn, src, costs0, done, next, costs0[id] + hop.value);
    }
  }

  lemma RelaxedIsSettled(net: Network, rating: int, burn: real, src: string, id: string, links: seq<string>,
                         costs0: map<string, real>, done: set<string>, costs: map<string, real>)
    requires Settled(net, rating, burn, src, costs0, done)
    requires id in costs0 && AtLeast(net, rating, burn, src, id, costs0[id])
    requires SystemByID(net.systems, id) == Some(StarSystem(id, links))
    requires Relaxing(net, rating, burn, src, id, links, costs0, done, costs)
    ensures Settled(net, rating, burn, src, costs, done + {id})
  {
    forall x, y | x in done + {id} && Hop(net, rating, burn, x, y).Some?
      ensures y in costs && costs[y] <= costs[x] + Hop(net, rating, burn, x, y).value
    {
      if x == id { assert y in links; }
    }
  }

  /** Relaxes every link of a system whose cost is final. */
  method Relax(net: Network, rating: int, burn: real, src: string, id: string, links: seq<string>,
               costs0: map<string, real>, done: set<string>) returns (costs: map<string, real>)
    requires WellFormed(net) && burn > 0.0 && Settled(net, rating, burn, src, costs0, done)
    requires id in costs0 && AtLeast(net, rating, burn, src, id, costs0[id])
    requires SystemByID(net.systems, id) == Some(StarSystem(id, links))
    ensures Settled(net, rating, burn, src, costs, done + {id})
  {
    hide Settled, Relaxing;
    costs := costs0;
    StartsRelaxing(net, rating, burn, src, id, costs0, done);
    for i := 0 to |links|
      invariant Relaxing(net, rating, burn, src, id, links[..i], costs0, done, costs)
    {
      var next := links[i];
      var hop := Hop(net, rating, burn, id, next);
      RelaxOne(net, rating, burn, src, id, links[..i], costs0, done, costs, next);
      assert links[..i] + [next] == links[..i + 1];
      if hop.Some? {
        var v := costs0[id] + hop.value;
        if next !in costs || v < costs[next] {
          costs := costs[next := v];
        }
      }
    }
    assert links[..|links|] == links;
    RelaxedIsSettled(net, rating, burn, src, id, links, costs0, done, costs);
  }

  lemma StartsRelaxing(net: Network, rating: int, burn: real, src: string, id: string, costs: map<string, real>, done: set<string>)
    requires Settled(net, rating, burn, src, costs, done) && id in costs
    ensures Relaxing(net, rating, burn, src, id, [], costs, done, costs)
  {
  }

  lemma SettledIsFinal(net: Network, rating: int, burn: real, src: string, costs: map<string, real>,
                       done: set<string>, x: string, v: real)
    requires Settled(net, rating, burn, src, costs, done) && Reaches(net, rating, burn, src, x, v)
    ensures x in done ==> costs[x] <= v
  {
    var p :| Path(net, rating, burn, p, src, x) && Fuel(net, rating, burn, p, src, x) == v;
  }

  /** Dijkstra's search. It ends because every round settles one more of the finitely many systems;
      from a system that is not charted it ends at once, and there is no route. */
  method CheapestRoute(net: Network, rating: int, burn: real, src: string, to: string) returns (fuel: Option<real>)
    requires WellFormed(net) && burn > 0.0
    requires SystemByID(net.systems, to).Some?
    ensures fuel.Some? <==> Connected(net, rating, burn, src, to)
    ensures fuel.Some? ==> Distance(net, rating, burn, src, to, fuel.value)
  {
    var costs: map<string, real> := map[src := 0.0];
    var done: set<string> := {};
    Stay(net, rating, burn, src);
    ghost var ids := set s | s in net.systems :: s.id;
    while true
      invariant Settled(net, rating, burn, src, costs, done)
      invariant to !in done && done <= ids
      decreases |ids - done|
    {
      var id, best := Cheapest(net.systems, costs, done);
      if id == "" {
        NothingOpenIsLocked(net, rating, burn, src, costs, done, to);
        return None;
      }
      CheapestIsSettled(net, rating, burn, src, costs, done, id);
      if id == to {
        return Some(best);
      }
      var links := SystemByID(net.systems, id).value.links;
      costs := Relax(net, rating, burn, src, id, links, costs, done);
      assert id in ids - done;
      done := done + {id};
    }
  }

  /** The first guard that stops a quote before any route is looked for. */
  function Refusal(docked: bool, ships: map<string, string>, active: string, visited: set<string>,
                   net: Network, ship: string, to: string): Option<Error> {
    if !docked then Some(InBelt)
    else if ship !in ships then Some(NotOwned)
    else if ship == active then Some(NotEligible)
    else if SystemByID(net.systems, to).None? then Some(InvalidSystem)
    else if ships[ship] == to then Some(NotEligible)
    else if to !in visited then Some(RouteLocked)
    else None
  }

  /** Rounding keeps order, so the price is the least that any admitted route would cost. */
  lemma CheapestPrice(net: Network, rating: int, burn: real, src: string, to: string, tariff: Tariff, d: real, p: seq<string>)
    requires Distance(net, rating, burn, src, to, d) && tariff.markup > 0.0
    requires Path(net, rating, burn, p, src, to)
    ensures Price(tariff, d) <= Price(tariff, Fuel(net, rating, burn, p, src, to))
  {
    hide Fuel, Path, Reaches, Marked;
    MarkedGrows(tariff, d, Fuel(net, rating, burn, p, src, to));
  }

  lemma MarkedGrows(tariff: Tariff, x: real, y: real)
    requires tariff.markup > 0.0 && x <= y
    ensures Marked(tariff, x) <= Marked(tariff, y)
  {
    Scales(tariff.markup, x, y);
    Scales(tariff.refuelPerPoint as real, x * tariff.markup, y * tariff.markup);
  }

  lemma Scales(k: real, x: real, y: real)
    requires k >= 0.0 && x <= y
    ensures x * k <= y * k
  {
    assert (y - x) * k >= 0.0;
  }

  /** The pilot, as far as the ferry sees one: each owned ship's system, and the purse. */
  class Pilot {
    var docked: bool
    var credits: int
    var spent: int
    var jumpClass: int
    var active: string
    var ships: map<string, string>
    var visited: set<string>

    method FerryPrice(net: Network, burn: real, tariff: Tariff, ship: string, to: string) returns (r: Result<int>)
      requires WellFormed(net) && burn > 0.0
      ensures var refusal := Refusal(docked, ships, active, visited, net, ship, to);
              if refusal.Some? then r == Err(refusal.value)
              else if Connected(net, jumpClass, burn, ships[ship], to)
              then exists d :: Distance(net, jumpClass, burn, ships[ship], to, d) && r == Ok(Price(tariff, d))
              else r == Err(RouteLocked)
      ensures r.Ok? <==>
                (docked && ship in ships && ship != active && SystemByID(net.systems, to).Some? && ships[ship] != to && to in visited
                 && Connected(net, jumpClass, burn, ships[ship], to))
      ensures r.Ok? ==> exists d :: Distance(net, jumpClass, burn, ships[ship], to, d) && Quoted(tariff, d, r.value)
    {
      if !docked { return Err(InBelt); }
      if ship !in ships { return Err(NotOwned); }
      if ship == active { return Err(NotEligible); }
      if SystemByID(net.systems, to).None? { return Err(InvalidSystem); }
      if ships[ship] == to { return Err(NotEligible); }
      if to !in visited { return Err(RouteLocked); }
      var fuel := CheapestRoute(net, jumpClass, burn, ships[ship], to);
      if fuel.None? { return Err(RouteLocked); }
      PriceIsQuoted(tariff, fuel.value);
      return Ok(Price(tariff, fuel.value));
    }

    /** Pays for the quoted route and moves that one ship; an error moves and costs nothing. */
    method FerryShip(net: Network, burn: real, tariff: Tariff, ship: string, to: string) returns (e: Option<Error>)
      requires WellFormed(net) && burn > 0.0
      modifies this
      ensures active == old(active) && jumpClass == old(jumpClass) && docked == old(docked) && visited == old(visited)
      ensures e.Some? ==> ships == old(ships) && credits == old(credits) && spent == old(spent)
      ensures var refusal := old(Refusal(docked, ships, active, visited, net, ship, to));
              if refusal.Some? then e == refusal
              else if !Connected(net, jumpClass, burn, old(ships)[ship], to) then e == Some(RouteLocked)
              else exists d :: Distance(net, jumpClass, burn, old(ships)[ship], to, d) &&
                               if old(credits) < Price(tariff, d) then e == Some(InsufficientFunds)
                               else e.None? && credits == old(credits) - Price(tariff, d)
      ensures e.None? ==>
        && ship in old(ships) && ship != active && ships == old(ships)[ship := to] && to in visited
        && credits + spent == old(credits) + old(spent) && credits >= 0
        && exists d :: Distance(net, jumpClass, burn, old(ships)[ship], to, d) && Quoted(tariff, d, old(credits) - credits)
    {
      var quote := FerryPrice(net, burn, tariff, ship, to);
      if quote.Err? { return Some(quote.error); }
      if credits < quote.value { return Some(InsufficientFunds); }
      credits := credits - quote.value;
      spent := spent + quote.value;
      ships := ships[ship := to];
      return None;
    }
  }
}
