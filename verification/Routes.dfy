/** The jump network: rated gates, paths that a pilot's rating admits, and their fuel. */
module Routes {
  import opened Wrappers
  import opened Numbers

  datatype Gate = Gate(from: string, to: string, requiredRating: int, jumpFuelBase: real)

  datatype StarSystem = StarSystem(id: string, links: seq<string>)

  datatype Network = Network(systems: seq<StarSystem>, gates: seq<Gate>)

  predicate Joins(g: Gate, a: string, b: string) {
    (g.from == a && g.to == b) || (g.to == a && g.from == b)
  }

  /** The first gate that joins two systems, in either direction. */
  function GateBetween(gates: seq<Gate>, a: string, b: string): (g: Option<Gate>)
    ensures g.Some? ==> g.value in gates && Joins(g.value, a, b)
    ensures g.None? ==> forall h :: h in gates ==> !Joins(h, a, b)
    decreases |gates|
  {
    if gates == [] then None
    else if Joins(gates[0], a, b) then Some(gates[0])
    else GateBetween(gates[1..], a, b)
  }

  function SystemByID(systems: seq<StarSystem>, id: string): (s: Option<StarSystem>)
    ensures s.Some? <==> exists i :: 0 <= i < |systems| && systems[i].id == id
    ensures s.Some? ==> s.value in systems && s.value.id == id
    decreases |systems|
  {
    if systems == [] then None
    else if systems[0].id == id then Some(systems[0])
    else
      assert forall i :: 1 <= i < |systems| ==> systems[i] == systems[1..][i - 1];
      SystemByID(systems[1..], id)
  }

  /** a is charted and lists a link to b. */
  predicate Links(net: Network, a: string, b: string) {
    var s := SystemByID(net.systems, a);
    s.Some? && b in s.value.links
  }

  /** What the content validator guarantees of the network: links are reciprocal. */
  ghost predicate WellFormed(net: Network) {
    && (forall s :: s in net.systems ==> s.id != "")
    && (forall s, n :: s in net.systems && n in s.links ==> Links(net, n, s.id))
    && (forall g :: g in net.gates ==> g.jumpFuelBase > 0.0)
  }

  /** What a gate takes of a ship; burn is the ship's mass factor, the same for every gate. */
  function GateFuel(g: Gate, burn: real): real { g.jumpFuelBase * burn }

  /** One admitted hop and its fuel: a charted link whose gate the rating opens. */
  function Hop(net: Network, rating: int, burn: real, a: string, b: string): Option<real> {
    var g := GateBetween(net.gates, a, b);
    if Links(net, a, b) && g.Some? && rating >= g.value.requiredRating
    then Some(GateFuel(g.value, burn)) else None
  }

  predicate Path(net: Network, rating: int, burn: real, p: seq<string>, a: string, b: string)
    decreases |p|
  {
    p != [] && p[|p| - 1] == b &&
    if |p| == 1 then a == b
    else Path(net, rating, burn, p[..|p| - 1], a, p[|p| - 2]) && Hop(net, rating, burn, p[|p| - 2], b).Some?
  }

  function Fuel(net: Network, rating: int, burn: real, p: seq<string>, a: string, b: string): real
    requires Path(net, rating, burn, p, a, b)
    decreases |p|
  {
    if |p| == 1 then 0.0
    else Fuel(net, rating, burn, p[..|p| - 1], a, p[|p| - 2]) + Hop(net, rating, burn, p[|p| - 2], b).value
  }

  ghost predicate Reaches(net: Network, rating: int, burn: real, a: string, b: string, d: real) {
    exists p :: Path(net, rating, burn, p, a, b) && Fuel(net, rating, burn, p, a, b) == d
  }

  ghost predicate Connected(net: Network, rating: int, burn: real, a: string, b: string) {
    exists p :: Path(net, rating, burn, p, a, b)
  }

  /** No admitted path burns less. */
  ghost predicate AtLeast(net: Network, rating: int, burn: real, a: string, b: string, d: real) {
    forall p :: Path(net, rating, burn, p, a, b) ==> d <= Fuel(net, rating, burn, p, a, b)
  }

  /** d is the least fuel of any admitted path. */
  ghost predicate Distance(net: Network, rating: int, burn: real, a: string, b: string, d: real) {
    Reaches(net, rating, burn, a, b, d) && AtLeast(net, rating, burn, a, b, d)
  }

  lemma LastHop(net: Network, rating: int, burn: real, p: seq<string>, a: string, b: string)
    requires Path(net, rating, burn, p, a, b)
    ensures |p| > 0 && (|p| == 1 ==> a == b)
    ensures |p| > 1 ==> Path(net, rating, burn, p[..|p| - 1], a, p[|p| - 2]) && Hop(net, rating, burn, p[|p| - 2], b).Some?
  {}

  /** A charted link with a gate that the rating opens. */
  predicate Open(net: Network, rating: int, a: string, b: string) {
    var g := GateBetween(net.gates, a, b);
    Links(net, a, b) && g.Some? && g.value.requiredRating <= rating
  }

  /** What the gates along a path take of a ship of factor one, from the first gate on. */
  function Toll(net: Network, p: seq<string>): real
    decreases |p|
  {
    if |p| <= 1 then 0.0
    else
      var g := GateBetween(net.gates, p[0], p[1]);
      (if g.Some? then g.value.jumpFuelBase else 0.0) + Toll(net, p[1..])
  }

  lemma {:induction false} TollsAdd(net: Network, p: seq<string>)
    requires |p| > 1
    ensures var g := GateBetween(net.gates, p[|p| - 2], p[|p| - 1]);
            Toll(net, p) == Toll(net, p[..|p| - 1]) + (if g.Some? then g.value.jumpFuelBase else 0.0)
    decreases |p|
  {
    if |p| > 2 {
      TollsAdd(net, p[1..]);
      assert p[1..][..|p| - 2] == p[..|p| - 1][1..];
    } else {
      assert p[1..] == [p[1]] && p[..1] == [p[0]];
    }
  }

  predicate Chained(net: Network, rating: int, p: seq<string>) {
    forall i :: 0 <= i < |p| - 1 ==> Open(net, rating, p[i], p[i + 1])
  }

  lemma ChainsGrow(net: Network, rating: int, p: seq<string>)
    requires |p| > 1
    ensures Chained(net, rating, p) <==> Chained(net, rating, p[..|p| - 1]) && Open(net, rating, p[|p| - 2], p[|p| - 1])
  {
    hide Open;
    var q := p[..|p| - 1];
    if Chained(net, rating, q) && Open(net, rating, p[|p| - 2], p[|p| - 1]) {
      forall i | 0 <= i < |p| - 1 ensures Open(net, rating, p[i], p[i + 1]) { assert i < |q| - 1 ==> Open(net, rating, q[i], q[i + 1]); }
    }
    if Chained(net, rating, p) {
      forall i | 0 <= i < |q| - 1 ensures Open(net, rating, q[i], q[i + 1]) { assert Open(net, rating, p[i], p[i + 1]); }
    }
  }

  lemma OpenHops(net: Network, rating: int, burn: real, a: string, b: string)
    ensures Hop(net, rating, burn, a, b).Some? <==> Open(net, rating, a, b)
  {}

  /** A path is admitted exactly when it is a chain of open links. */
  lemma {:induction false} PathsAreChains(net: Network, rating: int, burn: real, p: seq<string>, a: string, b: string)
    ensures Path(net, rating, burn, p, a, b) <==> p != [] && p[0] == a && p[|p| - 1] == b && Chained(net, rating, p)
    decreases |p|
  {
    hide Hop, Open;
    if |p| > 1 {
      var q, y := p[..|p| - 1], p[|p| - 2];
      PathsAreChains(net, rating, burn, q, a, y);
      ChainsGrow(net, rating, p);
      OpenHops(net, rating, burn, y, p[|p| - 1]);
      hide Chained;
    }
  }

  /** It burns what its gates take, times the ship's factor. */
  lemma {:induction false} PathsPayTheirGates(net: Network, rating: int, burn: real, p: seq<string>, a: string, b: string)
    requires Path(net, rating, burn, p, a, b)
    ensures Fuel(net, rating, burn, p, a, b) == Scaled(Toll(net, p), burn)
    decreases |p|
  {
    if |p| == 1 {
      Scales(0.0, 0.0, burn);
    } else {
      var q, y := p[..|p| - 1], p[|p| - 2];
      HopPays(net, rating, burn, y, b);
      PathsPayTheirGates(net, rating, burn, q, a, y);
      TollsAdd(net, p);
      var g := GateBetween(net.gates, y, b);
      hide Toll, Hop, Scaled;
      Scales(Toll(net, q), g.value.jumpFuelBase, burn);
    }
  }

  function Scaled(x: real, k: real): real { x * k }

  lemma Scales(x: real, y: real, k: real)
    ensures Scaled(x + y, k) == Scaled(x, k) + Scaled(y, k) && Scaled(0.0, k) == 0.0
  {}

  lemma HopPays(net: Network, rating: int, burn: real, a: string, b: string)
    ensures var hop, g := Hop(net, rating, burn, a, b), GateBetween(net.gates, a, b);
            hop.Some? ==> g.Some? && hop.value == Scaled(g.value.jumpFuelBase, burn)
  {}

  lemma HopCosts(net: Network, rating: int, burn: real, a: string, b: string)
    requires WellFormed(net) && burn > 0.0
    ensures var h := Hop(net, rating, burn, a, b); h.Some? ==> h.value > 0.0 && SystemByID(net.systems, b).Some?
  {
  }

  lemma Stay(net: Network, rating: int, burn: real, a: string)
    ensures Reaches(net, rating, burn, a, a, 0.0)
  {
    assert Path(net, rating, burn, [a], a, a) && Fuel(net, rating, burn, [a], a, a) == 0.0;
  }

  lemma Extend(net: Network, rating: int, burn: real, a: string, b: string, c: string, d: real)
    requires Reaches(net, rating, burn, a, b, d) && Hop(net, rating, burn, b, c).Some?
    ensures Reaches(net, rating, burn, a, c, d + Hop(net, rating, burn, b, c).value)
  {
    var p :| Path(net, rating, burn, p, a, b) && Fuel(net, rating, burn, p, a, b) == d;
    var q := p + [c];
    assert q[..|q| - 1] == p;
    assert Path(net, rating, burn, q, a, c);
  }

  /** A higher rating opens every path a lower one opens, at the same fuel. */
  lemma {:induction false} RatingOpens(net: Network, lower: int, higher: int, burn: real, p: seq<string>, a: string, b: string)
    requires lower <= higher && Path(net, lower, burn, p, a, b)
    ensures Path(net, higher, burn, p, a, b) && Fuel(net, higher, burn, p, a, b) == Fuel(net, lower, burn, p, a, b)
    decreases |p|
  {
    if |p| > 1 { RatingOpens(net, lower, higher, burn, p[..|p| - 1], a, p[|p| - 2]); }
  }

  /** So a promotion never locks a route and never makes one dearer. */
  lemma PromotionNeverHurts(net: Network, lower: int, higher: int, burn: real, a: string, b: string, d: real, e: real)
    requires lower <= higher && Distance(net, lower, burn, a, b, d)
    ensures Connected(net, higher, burn, a, b)
    ensures Distance(net, higher, burn, a, b, e) ==> e <= d
  {
    var p :| Path(net, lower, burn, p, a, b) && Fuel(net, lower, burn, p, a, b) == d;
    RatingOpens(net, lower, higher, burn, p, a, b);
  }

  // ---------------------------------------------------------------- the way back

  lemma {:induction false} GatesWorkBothWays(gates: seq<Gate>, a: string, b: string)
    ensures GateBetween(gates, a, b) == GateBetween(gates, b, a)
    decreases |gates|
  {
    if gates != [] && !Joins(gates[0], a, b) { GatesWorkBothWays(gates[1..], a, b); }
  }

  /** Reciprocal links and gates without a direction: every hop can be taken back for the same fuel. */
  lemma HopsReverse(net: Network, rating: int, burn: real, a: string, b: string)
    requires WellFormed(net) && Hop(net, rating, burn, a, b).Some?
    ensures Hop(net, rating, burn, b, a) == Hop(net, rating, burn, a, b)
  {
    GatesWorkBothWays(net.gates, a, b);
    var s := SystemByID(net.systems, a).value;
    assert s in net.systems && b in s.links && s.id == a;
    assert Links(net, b, s.id);
  }

  /** One more hop at the front of a path. */
  lemma {:induction false} Prepend(net: Network, rating: int, burn: real, x: string, p: seq<string>, a: string, b: string)
    requires Hop(net, rating, burn, x, a).Some? && Path(net, rating, burn, p, a, b)
    ensures Path(net, rating, burn, [x] + p, x, b)
    ensures Fuel(net, rating, burn, [x] + p, x, b) == Hop(net, rating, burn, x, a).value + Fuel(net, rating, burn, p, a, b)
    decreases |p|
  {
    hide Hop;
    var q := [x] + p;
    if |p| == 1 {
      assert q[..|q| - 1] == [x] && Path(net, rating, burn, [x], x, x);
    } else {
      assert q[..|q| - 1] == [x] + p[..|p| - 1] && q[|q| - 2] == p[|p| - 2];
      Prepend(net, rating, burn, x, p[..|p| - 1], a, p[|p| - 2]);
    }
  }

  /** A path flown backwards is a path, at the same rating and for the same fuel. */
  lemma {:induction false} PathsReverse(net: Network, rating: int, burn: real, p: seq<string>, a: string, b: string) returns (q: seq<string>)
    requires WellFormed(net) && Path(net, rating, burn, p, a, b)
    ensures Path(net, rating, burn, q, b, a) && Fuel(net, rating, burn, q, b, a) == Fuel(net, rating, burn, p, a, b)
    decreases |p|
  {
    if |p| == 1 {
      q := p;
    } else {
      var y := p[|p| - 2];
      q := PathsReverse(net, rating, burn, p[..|p| - 1], a, y);
      HopsReverse(net, rating, burn, y, b);
      Prepend(net, rating, burn, b, q, y, a);
      q := [b] + q;
    }
  }

  /** So the way there and the way back are open together, and equally long. */
  lemma TheWayBack(net: Network, rating: int, burn: real, a: string, b: string)
    requires WellFormed(net)
    ensures Connected(net, rating, burn, a, b) <==> Connected(net, rating, burn, b, a)
    ensures forall d: real :: Distance(net, rating, burn, a, b, d) <==> Distance(net, rating, burn, b, a, d)
  {
    OneWay(net, rating, burn, a, b);
    OneWay(net, rating, burn, b, a);
  }

  lemma OneWay(net: Network, rating: int, burn: real, a: string, b: string)
    requires WellFormed(net)
    ensures Connected(net, rating, burn, a, b) ==> Connected(net, rating, burn, b, a)
    ensures forall d: real :: Distance(net, rating, burn, a, b, d) ==> Distance(net, rating, burn, b, a, d)
  {
    if Connected(net, rating, burn, a, b) {
      var p :| Path(net, rating, burn, p, a, b);
      var _ := PathsReverse(net, rating, burn, p, a, b);
    }
    forall d: real | Distance(net, rating, burn, a, b, d) ensures Distance(net, rating, burn, b, a, d) {
      var p :| Path(net, rating, burn, p, a, b) && Fuel(net, rating, burn, p, a, b) == d;
      var _ := PathsReverse(net, rating, burn, p, a, b);
      forall q | Path(net, rating, burn, q, b, a) ensures d <= Fuel(net, rating, burn, q, b, a) {
        var _ := PathsReverse(net, rating, burn, q, b, a);
      }
    }
  }
}
