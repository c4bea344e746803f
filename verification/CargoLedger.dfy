/** Cargo value and where it came from: what a pirate takes, what a sale books, and the ledgers
    that have to agree after any sequence of them. */
module CargoLedger {
  import opened Numbers
  import opened Sums

  // ---------------------------------------------------------------- sharing out a loss

  /** The fraction of a loss that one portion of a hold is of the whole. */
  function Proportion(demand: int, portion: int, total: int): real
    requires total > 0
  {
    demand as real * portion as real / total as real
  }

  /** The part of a loss that falls on one portion of a hold, in whole credits. */
  function PortionLoss(demand: int, portion: int, total: int): int {
    if demand <= 0 || portion <= 0 || total <= 0 then 0
    else ClampInt(Round(Proportion(demand, portion, total)), 0, Min(demand, portion))
  }

  function UnitsLost(units: real, value: int, loss: int): real {
    if units <= 0.0 || value <= 0 || loss <= 0 then 0.0
    else Clamp(units * loss as real / value as real, 0.0, units)
  }

  lemma ProductsOfSlack(a: real, b: real)
    requires a >= 0.0 && b >= 0.0
    ensures a * b >= 0.0
  {}

  lemma RoundAtLeast(q: real, n: int)
    requires q >= n as real
    ensures Round(q) >= n
  {
    assert Round(q) as real > n as real - 0.5;
  }

  lemma RoundAtMost(q: real, n: int)
    requires q <= n as real
    ensures Round(q) <= n
  {
    assert Round(q) as real <= n as real + 0.5;
    assert Round(q) as real < (n + 1) as real;
  }

  lemma QuotientAtLeast(q: real, t: real, n: real)
    requires t > 0.0 && q * t >= n * t
    ensures q >= n
  {
    if q < n { ProductIsSmaller(q, n, t); }
  }

  lemma ProductIsSmaller(q: real, n: real, t: real)
    requires t > 0.0 && q < n
    ensures q * t < n * t
  {}

  /** demand * portion / total is at least demand + portion - total, as (total - demand) *
      (total - portion) is not negative; and the right side is whole, so rounding keeps it. */
  lemma ShareIsLarge(demand: int, portion: int, total: int)
    requires 0 <= demand <= total && 0 <= portion <= total && 0 < total
    ensures Round(demand as real * portion as real / total as real) >= demand + portion - total
  {
    var d, p, t := demand as real, portion as real, total as real;
    ProductsOfSlack(t - d, t - p);
    assert (t - d) * (t - p) == d * p - (d + p - t) * t;
    var q := d * p / t;
    assert q * t == d * p;
    QuotientAtLeast(q, t, d + p - t);
    assert demand as real * portion as real / total as real == q;
    RoundAtLeast(q, demand + portion - total);
  }

  /** A portion never loses more than it has or than is demanded, and always enough that the rest
      of the hold can bear what is left of the demand. */
  lemma PortionLossFits(demand: int, portion: int, total: int)
    requires 0 <= demand <= total && 0 <= portion <= total
    ensures var cut := PortionLoss(demand, portion, total);
            0 <= cut <= Min(demand, portion) && demand - cut <= total - portion
  {
    if demand > 0 && portion > 0 { ShareIsLarge(demand, portion, total); }
  }

  /** To within half a credit, the portion loses the fraction of itself that the whole loses. */
  predicate FairCut(cut: int, demand: int, portion: int, total: int) {
    -total <= 2 * (cut * total - demand * portion) <= total
  }

  lemma QuotientFits(x: real, y: real, z: real, q: real)
    requires 0.0 <= x <= z && 0.0 <= y <= z && 0.0 < z
    requires q == x * y / z
    ensures q * z == x * y && 0.0 <= q <= x && q <= y
  {
    assert q * z == x * y;
    ProductsOfSlack(x, y);
    QuotientAtLeast(q, z, 0.0);
    ProductFits(x, y, z);
    QuotientAtLeast(x, z, q);
    ProductFits(y, x, z);
    QuotientAtLeast(y, z, q);
  }

  lemma ProductFits(x: real, y: real, z: real)
    requires 0.0 <= x && y <= z
    ensures x * y <= x * z
  {
    ProductsOfSlack(x, z - y);
  }

  lemma PortionIsFair(demand: int, portion: int, total: int)
    requires 0 <= demand <= total && 0 <= portion <= total
    ensures FairCut(PortionLoss(demand, portion, total), demand, portion, total)
  {
    hide Proportion, Round;
    if demand > 0 && portion > 0 {
      var q := Proportion(demand, portion, total);
      ProportionFits(demand, portion, total);
      RoundAtLeast(q, 0);
      RoundAtMost(q, Min(demand, portion));
      NearestIsFair(Round(q), q, demand * portion, total);
    }
  }

  lemma ProportionFits(demand: int, portion: int, total: int)
    requires 0 < demand <= total && 0 < portion <= total
    ensures var q := Proportion(demand, portion, total);
            0.0 <= q <= demand as real && q <= portion as real && q * total as real == (demand * portion) as real
  {
    var d, p, t := demand as real, portion as real, total as real;
    WholeProduct(demand, portion);
    QuotientFits(d, p, t, d * p / t);
  }

  lemma WholeProduct(a: int, b: int)
    ensures (a * b) as real == a as real * b as real
  {}

  lemma NearestIsFair(cut: int, q: real, product: int, total: int)
    requires total > 0 && q * total as real == product as real && cut as real - 0.5 <= q <= cut as real + 0.5
    ensures -total <= 2 * (cut * total - product) <= total
  {
    var e, t := cut as real - q, total as real;
    ProductsOfSlack(0.5 - e, t);
    ProductsOfSlack(0.5 + e, t);
    assert e * t == (cut * total) as real - product as real by { assert cut as real * t == (cut * total) as real; }
    assert (0.5 - e) * t == 0.5 * t - e * t && (0.5 + e) * t == 0.5 * t + e * t;
  }

  /** Losing value thins the hold evenly: value per unit stays as it was. */
  lemma UnitsFollowValue(units: real, value: int, loss: int)
    requires units >= 0.0 && 0 <= loss <= value
    ensures 0.0 <= UnitsLost(units, value, loss) <= units
    ensures (units - UnitsLost(units, value, loss)) * value as real == units * (value - loss) as real
  {
    if units > 0.0 && loss > 0 {
      var q := units * loss as real / value as real;
      assert q * value as real == units * loss as real;
      ProductsOfSlack(units, (value - loss) as real);
      assert (units - q) * value as real >= 0.0;
      assert 0.0 <= q <= units;
    }
  }

  /** Units and value of a hold changed by the same factor. */
  predicate InStep(units: real, value: int, unitsAfter: real, valueAfter: int) {
    unitsAfter * value as real == units * valueAfter as real
  }

  lemma LossIsInStep(units: real, value: int, loss: int)
    requires units >= 0.0 && 0 <= loss <= value
    ensures InStep(units, value, RMax(0.0, units - UnitsLost(units, value, loss)), value - loss)
    ensures 0.0 <= UnitsLost(units, value, loss) <= units
  {
    UnitsFollowValue(units, value, loss);
    hide UnitsLost;
  }

  // ---------------------------------------------------------------- provenance

  predicate Enumerates(ids: seq<string>, origins: map<string, int>) {
    && (forall i :: 0 <= i < |ids| ==> ids[i] in origins)
    && (forall i, j :: 0 <= i < j < |ids| ==> ids[i] != ids[j])
  }

  predicate NonNegative(m: map<string, int>) { forall k :: k in m ==> m[k] >= 0 }

  /** Cutting each origin in the given order, as the tribute does. */
  function Reduced(origins: map<string, int>, ids: seq<string>, value: int, loss: int): map<string, int>
    requires Enumerates(ids, origins)
    decreases |ids|
  {
    if ids == [] then origins
    else
      var v := origins[ids[0]];
      var cut := PortionLoss(loss, v, value);
      Reduced(origins[ids[0] := v - cut], ids[1..], value - v, loss - cut)
  }

  /** The value recorded under the given origins. */
  function ValueOf(origins: map<string, int>, ids: seq<string>): int
    requires forall i :: 0 <= i < |ids| ==> ids[i] in origins
    decreases |ids|
  {
    if ids == [] then 0 else origins[ids[0]] + ValueOf(origins, ids[1..])
  }

  lemma {:induction false} ValueIgnoresOthers(origins: map<string, int>, ids: seq<string>, id: string, v: int)
    requires (forall i :: 0 <= i < |ids| ==> ids[i] in origins) && id !in ids
    ensures ValueOf(origins[id := v], ids) == ValueOf(origins, ids)
    decreases |ids|
  {
    if ids != [] { ValueIgnoresOthers(origins, ids[1..], id, v); }
  }

  lemma {:induction false} ValueIsNonNegative(origins: map<string, int>, ids: seq<string>)
    requires NonNegative(origins) && forall i :: 0 <= i < |ids| ==> ids[i] in origins
    ensures ValueOf(origins, ids) >= 0
    decreases |ids|
  {
    if ids != [] { ValueIsNonNegative(origins, ids[1..]); }
  }

  /** Listing every key once, the value under them is the map's total. */
  lemma {:induction false} ValueIsTotal(origins: map<string, int>, ids: seq<string>)
    requires Enumerates(ids, origins) && forall k :: k in origins ==> k in ids
    ensures ValueOf(origins, ids) == Total(origins)
    decreases |ids|
  {
    if ids == [] {
      assert origins == map[];
    } else {
      var rest := origins - {ids[0]};
      forall i | 0 <= i < |ids[1..]| ensures ids[1..][i] in rest {}
      TotalSplit(origins, ids[0]);
      hide Total;
      ValueIsTotal(rest, ids[1..]);
      assert rest[ids[0] := origins[ids[0]]] == origins;
      ValueIgnoresOthers(rest, ids[1..], ids[0], origins[ids[0]]);
    }
  }

  /** The heart of the ledger. Whatever order the origins are cut in, no origin goes negative,
      and what cannot be charged to an origin never exceeds the value without one. */
  lemma {:induction false} ReducedKeeps(origins: map<string, int>, ids: seq<string>, value: int, loss: int)
    requires Enumerates(ids, origins) && NonNegative(origins)
    requires 0 <= loss <= value && ValueOf(origins, ids) <= value
    ensures var after := Reduced(origins, ids, value, loss);
            && after.Keys == origins.Keys && NonNegative(after)
            && (forall k :: k in origins ==> after[k] <= origins[k])
            && var cut := Total(origins) - Total(after);
               0 <= cut <= loss && loss - cut <= value - ValueOf(origins, ids)
    decreases |ids|
  {
    if ids != [] {
      var id, v := ids[0], origins[ids[0]];
      ValueIsNonNegative(origins, ids[1..]);
      var cut := PortionLoss(loss, v, value);
      PortionLossFits(loss, v, value);
      hide PortionLoss, Total;
      var next := origins[id := v - cut];
      TotalUpdate(origins, id, v - cut);
      ValueIgnoresOthers(origins, ids[1..], id, v - cut);
      forall i | 0 <= i < |ids[1..]| ensures ids[1..][i] in next {}
      ReducedKeeps(next, ids[1..], value - v, loss - cut);
    }
  }

  /** Each origin in turn loses its fair part of what is still to be charged to what is still left. */
  ghost predicate FairCuts(before: map<string, int>, after: map<string, int>, ids: seq<string>, value: int, loss: int)
    decreases |ids|
  {
    ids == [] ||
    (ids[0] in before && ids[0] in after &&
     var v, cut := before[ids[0]], before[ids[0]] - after[ids[0]];
     FairCut(cut, loss, v, value) && FairCuts(before, after, ids[1..], value - v, loss - cut))
  }

  lemma {:induction false} FairnessIgnoresOthers(before: map<string, int>, after: map<string, int>, ids: seq<string>,
                                                 value: int, loss: int, id: string, v: int)
    requires FairCuts(before[id := v], after, ids, value, loss) && id !in ids
    ensures FairCuts(before, after, ids, value, loss)
    decreases |ids|
  {
    hide FairCut;
    if ids != [] {
      FairnessIgnoresOthers(before, after, ids[1..], value - before[ids[0]], loss - (before[ids[0]] - after[ids[0]]), id, v);
    }
  }

  lemma {:induction false} ReducedIgnoresOthers(origins: map<string, int>, ids: seq<string>, value: int, loss: int, id: string)
    requires Enumerates(ids, origins) && id in origins && id !in ids
    ensures id in Reduced(origins, ids, value, loss) && Reduced(origins, ids, value, loss)[id] == origins[id]
    decreases |ids|
  {
    hide PortionLoss;
    if ids != [] {
      var v := origins[ids[0]];
      var cut := PortionLoss(loss, v, value);
      ReducedIgnoresOthers(origins[ids[0] := v - cut], ids[1..], value - v, loss - cut, id);
    }
  }

  /** A tribute is charged to the origins in proportion, to within half a credit each. */
  lemma {:induction false} ReducedIsFair(origins: map<string, int>, ids: seq<string>, value: int, loss: int)
    requires Enumerates(ids, origins) && NonNegative(origins) && 0 <= loss <= value && ValueOf(origins, ids) <= value
    ensures FairCuts(origins, Reduced(origins, ids, value, loss), ids, value, loss)
    decreases |ids|
  {
    if ids != [] {
      var id, v := ids[0], origins[ids[0]];
      ValueIsNonNegative(origins, ids[1..]);
      var cut := PortionLoss(loss, v, value);
      PortionLossFits(loss, v, value);
      PortionIsFair(loss, v, value);
      hide PortionLoss, FairCut;
      var next := origins[id := v - cut];
      ValueIgnoresOthers(origins, ids[1..], id, v - cut);
      forall i | 0 <= i < |ids[1..]| ensures ids[1..][i] in next {}
      ReducedIsFair(next, ids[1..], value - v, loss - cut);
      ReducedIgnoresOthers(next, ids[1..], value - v, loss - cut, id);
      FairnessIgnoresOthers(origins, Reduced(origins, ids, value, loss), ids[1..], value - v, loss - cut, id, v - cut);
    }
  }

  // ---------------------------------------------------------------- the books

  /** Where every credit of ore went; the last six are totals over the pilot's log. */
  datatype Books = Books(
    system: string,
    credits: int,
    earned: int,
    cargoValue: int,
    cargoUnits: real,
    origins: map<string, int>,
    vouchers: int,
    soldAt: map<string, int>,   // per system, in the frontier records
    soldTotal: int,             // in the pilot's statistics
    runValue: int,
    held: real,
    jettisoned: real,
    mined: int,                 // value of all ore ever drilled
    tributes: int,
    lost: int,
    bounties: int,
    spent: int)

  datatype Event =
    | Drill(value: int, held: real)   // the run's cargo value is recomputed
    | Tribute(pct: real, ids: seq<string>)
    | Recover                         // a run ends with the ship alive
    | LoseShip
    | Bounty(amount: int)
    | Sell
    | MoveTo(system: string)
    | Spend(amount: int)

  /** What a pirate asks of everything aboard: a rounded percentage. */
  function Demand(total: int, pct: real): int { ClampInt(Round(total as real * pct), 0, total) }

  /** The part of a demand that the stored cargo pays; what a run cannot bear of its own part is passed on. */
  function StoredPart(demand: int, stored: int, run: int): int {
    var share := PortionLoss(demand, stored, stored + run);
    if demand - share > run then demand - run else share
  }

  function Plus(m: map<string, int>, id: string, v: int): map<string, int> {
    m[id := (if id in m then m[id] else 0) + v]
  }

  ghost function AddAll(m: map<string, int>, more: map<string, int>): map<string, int> {
    map k | k in m.Keys + more.Keys :: (if k in m then m[k] else 0) + (if k in more then more[k] else 0)
  }

  predicate Enabled(b: Books, e: Event) {
    match e
    case Drill(value, held) => value >= 0 && held >= 0.0
    case Tribute(pct, ids) => 0.0 <= pct <= 1.0 && Enumerates(ids, b.origins) && forall k :: k in b.origins ==> k in ids
    case Bounty(amount) => amount >= 0
    case Spend(amount) => 0 <= amount <= b.credits
    case _ => true
  }

  function PayTribute(b: Books, pct: real, ids: seq<string>): Books
    requires Enumerates(ids, b.origins)
  {
    var demand := Demand(b.cargoValue + b.runValue, pct);
    var fromStored := StoredPart(demand, b.cargoValue, b.runValue);
    var fromRun := demand - fromStored;
    var runUnits := UnitsLost(b.held, b.runValue, fromRun);
    b.(origins := Reduced(b.origins, ids, b.cargoValue, fromStored),
       cargoValue := b.cargoValue - fromStored,
       cargoUnits := RMax(0.0, b.cargoUnits - UnitsLost(b.cargoUnits, b.cargoValue, fromStored)),
       runValue := b.runValue - fromRun,
       held := RMax(0.0, b.held - runUnits),
       jettisoned := b.jettisoned + runUnits,
       tributes := b.tributes + demand)
  }

  ghost function SellAll(b: Books): Books {
    if b.cargoValue <= 0 && b.vouchers <= 0 then b
    else b.(credits := b.credits + b.cargoValue + b.vouchers,
            earned := b.earned + b.cargoValue + b.vouchers,
            soldAt := AddAll(b.soldAt, b.origins),
            soldTotal := b.soldTotal + b.cargoValue,
            origins := map[], cargoValue := 0, cargoUnits := 0.0, vouchers := 0)
  }

  ghost function Apply(b: Books, e: Event): Books
    requires Enabled(b, e)
  {
    match e
    case Drill(value, held) => b.(runValue := value, held := held, mined := b.mined + value - b.runValue)
    case Tribute(pct, ids) => PayTribute(b, pct, ids)
    case Recover => b.(origins := Plus(b.origins, b.system, b.runValue), cargoValue := b.cargoValue + b.runValue,
                       cargoUnits := b.cargoUnits + b.held, runValue := 0, held := 0.0)
    case LoseShip => b.(lost := b.lost + b.cargoValue + b.runValue, origins := map[], cargoValue := 0,
                        cargoUnits := 0.0, runValue := 0, held := 0.0)
    case Bounty(amount) => b.(vouchers := b.vouchers + amount, bounties := b.bounties + amount)
    case Sell => SellAll(b)
    case MoveTo(system) => b.(system := system)
    case Spend(amount) => b.(credits := b.credits - amount, spent := b.spent + amount)
  }

  /** What the smaller bookings come to: the haul is what was drilled last, a bounty is a voucher until it is
      redeemed, and what is spent leaves the purse. */
  lemma BookingsCount(b: Books, e: Event)
    requires Enabled(b, e) && (e.Drill? || e.Bounty? || e.Spend? || e.MoveTo?)
    ensures var after := Apply(b, e);
            && after.runValue == (if e.Drill? then e.value else b.runValue) && after.held == (if e.Drill? then e.held else b.held)
            && after.mined - b.mined == after.runValue - b.runValue
            && after.vouchers == b.vouchers + (if e.Bounty? then e.amount else 0)
            && after.credits == b.credits - (if e.Spend? then e.amount else 0) && after.earned == b.earned
            && after.system == (if e.MoveTo? then e.system else b.system)
            && after.origins == b.origins && after.cargoValue == b.cargoValue && after.cargoUnits == b.cargoUnits && after.soldAt == b.soldAt
  {}

  ghost predicate Sound(b: Books) {
    && b.cargoValue >= 0 && b.cargoUnits >= 0.0 && b.runValue >= 0 && b.held >= 0.0 && b.vouchers >= 0
    && NonNegative(b.origins) && NonNegative(b.soldAt)
    && Total(b.origins) <= b.cargoValue
    && Total(b.soldAt) <= b.soldTotal
    && b.mined == b.runValue + b.cargoValue + b.soldTotal + b.tributes + b.lost
    && b.earned + b.vouchers == b.soldTotal + b.bounties
  }

  /** Every credit of cargo has an origin, and every credit sold is booked to one. */
  ghost predicate Traced(b: Books) {
    Total(b.origins) == b.cargoValue && Total(b.soldAt) == b.soldTotal
  }

  lemma PercentageFits(total: int, pct: real)
    requires total >= 0 && 0.0 <= pct <= 1.0
    ensures 0 <= Round(total as real * pct) <= total
  {
    ScaledDown(total as real, pct);
    RoundAtLeast(total as real * pct, 0);
    RoundAtMost(total as real * pct, total);
  }

  /** The demand is the rounded percentage, the correction is never needed, and both parts of the
      hold can bear their share. */
  lemma DemandIsBorne(b: Books, pct: real)
    requires b.cargoValue >= 0 && b.runValue >= 0 && 0.0 <= pct <= 1.0
    ensures var demand := Demand(b.cargoValue + b.runValue, pct); var share := PortionLoss(demand, b.cargoValue, b.cargoValue + b.runValue);
            && demand == Round((b.cargoValue + b.runValue) as real * pct)
            && 0 <= share <= Min(demand, b.cargoValue) && 0 <= demand - share <= b.runValue
  {
    var total := b.cargoValue + b.runValue;
    PercentageFits(total, pct);
    hide PortionLoss, Round;
    PortionLossFits(Demand(b.cargoValue + b.runValue, pct), b.cargoValue, total);
  }

  /** A tribute takes exactly the demand, and what leaves the run's hold is jettisoned. */
  lemma TributeIsExact(b: Books, pct: real, ids: seq<string>)
    requires Sound(b) && 0.0 <= pct <= 1.0 && Enumerates(ids, b.origins)
    ensures var demand := Demand(b.cargoValue + b.runValue, pct); var after := PayTribute(b, pct, ids);
            && after.cargoValue == b.cargoValue - PortionLoss(demand, b.cargoValue, b.cargoValue + b.runValue) >= 0
            && after.cargoValue + after.runValue == b.cargoValue + b.runValue - demand
            && 0 <= after.runValue <= b.runValue
            && after.held + after.jettisoned == b.held + b.jettisoned
            && 0.0 <= after.held && 0.0 <= after.cargoUnits <= b.cargoUnits
  {
    DemandIsBorne(b, pct);
    hide PortionLoss, Demand, UnitsLost, Reduced, Total;
    var demand := Demand(b.cargoValue + b.runValue, pct);
    var share := PortionLoss(demand, b.cargoValue, b.cargoValue + b.runValue);
    UnitsFollowValue(b.cargoUnits, b.cargoValue, share);
    UnitsFollowValue(b.held, b.runValue, demand - share);
  }

  lemma ScaledDown(t: real, pct: real)
    requires t >= 0.0 && 0.0 <= pct <= 1.0
    ensures 0.0 <= t * pct <= t
  {
    ProductsOfSlack(t, pct);
    ProductsOfSlack(t, 1.0 - pct);
    assert t * (1.0 - pct) == t - t * pct;
  }

  /** The demand is the percentage to within half a credit; it leaves the two holds, and the stored hold's
      origins, in proportion to within half a credit each; and units go with the value. */
  ghost predicate PaidFairly(b: Books, after: Books, pct: real, ids: seq<string>, demand: int) {
    var total, paid := b.cargoValue + b.runValue, b.cargoValue - after.cargoValue;
    && -0.5 <= demand as real - total as real * pct <= 0.5
    && after.cargoValue + after.runValue == total - demand
    && FairCut(paid, demand, b.cargoValue, total)
    && (ValueOfAll(b, ids) ==> FairCuts(b.origins, after.origins, ids, b.cargoValue, paid))
    && InStep(b.cargoUnits, b.cargoValue, after.cargoUnits, after.cargoValue)
    && InStep(b.held, b.runValue, after.held, after.runValue)
    && after.jettisoned - b.jettisoned == b.held - after.held
  }

  predicate ValueOfAll(b: Books, ids: seq<string>) { Enumerates(ids, b.origins) && ValueOf(b.origins, ids) <= b.cargoValue }

  lemma DemandIsNear(total: int, pct: real)
    requires total >= 0 && 0.0 <= pct <= 1.0
    ensures -0.5 <= Demand(total, pct) as real - total as real * pct <= 0.5
  {
    PercentageFits(total, pct);
  }

  lemma TributeIsFair(b: Books, pct: real, ids: seq<string>)
    requires Sound(b) && 0.0 <= pct <= 1.0 && Enumerates(ids, b.origins)
    ensures PaidFairly(b, PayTribute(b, pct, ids), pct, ids, Demand(b.cargoValue + b.runValue, pct))
  {
    hide PortionLoss, UnitsLost, FairCut, Total, Demand, InStep, Reduced, FairCuts;
    var total := b.cargoValue + b.runValue;
    DemandIsBorne(b, pct);
    DemandIsNear(total, pct);
    var demand := Demand(total, pct);
    var share := PortionLoss(demand, b.cargoValue, total);
    PortionIsFair(demand, b.cargoValue, total);
    LossIsInStep(b.cargoUnits, b.cargoValue, share);
    LossIsInStep(b.held, b.runValue, demand - share);
    if ValueOfAll(b, ids) { ReducedIsFair(b.origins, ids, b.cargoValue, share); }
    hide Sound, ValueOfAll;
  }

  /** In a career a tribute is fair, a sale pays for everything in full, and a run's end banks the haul or loses it all. */
  lemma BigBookingsCount(b: Books, e: Event)
    requires Sound(b) && Enabled(b, e)
    ensures e.Tribute? ==> PaidFairly(b, Apply(b, e), e.pct, e.ids, Demand(b.cargoValue + b.runValue, e.pct))
    ensures e.Sell? ==>
              var after := Apply(b, e);
              && after.credits == b.credits + b.cargoValue + b.vouchers && after.earned == b.earned + b.cargoValue + b.vouchers
              && after.cargoValue == after.vouchers == 0 && after.soldTotal == b.soldTotal + b.cargoValue
    ensures e.Recover? || e.LoseShip? ==>
              var after := Apply(b, e);
              && after.runValue == 0 && after.held == 0.0 && after.credits == b.credits
              && after.cargoValue == (if e.Recover? then b.cargoValue + b.runValue else 0)
              && after.cargoUnits == (if e.Recover? then b.cargoUnits + b.held else 0.0)
              && after.lost - b.lost == (if e.Recover? then 0 else b.cargoValue + b.runValue)
  {
    if e.Tribute? { TributeIsFair(b, e.pct, e.ids); }
    hide PaidFairly, PayTribute, Demand, Total, NonNegative;
  }

  lemma TributeKeeps(b: Books, pct: real, ids: seq<string>)
    requires Sound(b) && Enabled(b, Tribute(pct, ids))
    ensures Sound(PayTribute(b, pct, ids)) && (Traced(b) ==> Traced(PayTribute(b, pct, ids)))
  {
    hide PortionLoss, Demand, Reduced, Total;
    DemandIsBorne(b, pct);
    TributeIsExact(b, pct, ids);
    ValueIsTotal(b.origins, ids);
    ReducedKeeps(b.origins, ids, b.cargoValue, PortionLoss(Demand(b.cargoValue + b.runValue, pct), b.cargoValue, b.cargoValue + b.runValue));
  }

  lemma AddAllStep(m: map<string, int>, more: map<string, int>, k: string)
    requires k in more
    ensures AddAll(m, more) == AddAll(m, more - {k})[k := (if k in m then m[k] else 0) + more[k]]
    ensures k in AddAll(m, more - {k}) <==> k in m
    ensures k in m ==> AddAll(m, more - {k})[k] == m[k]
  {}

  lemma AddAllGrows(m: map<string, int>, more: map<string, int>, k: string)
    requires k in more && Total(AddAll(m, more - {k})) == Total(m) + Total(more - {k})
    ensures Total(AddAll(m, more)) == Total(m) + Total(more)
  {
    hide AddAll, Total;
    AddAllStep(m, more, k);
    TotalSplit(more, k);
    TotalUpdate(AddAll(m, more - {k}), k, (if k in m then m[k] else 0) + more[k]);
  }

  lemma {:induction false} AddAllTotal(m: map<string, int>, more: map<string, int>)
    ensures Total(AddAll(m, more)) == Total(m) + Total(more)
    decreases |more|
  {
    if more == map[] {
      assert AddAll(m, more) == m;
    } else {
      hide AddAll, Total;
      var k :| k in more;
      AddAllTotal(m, more - {k});
      AddAllGrows(m, more, k);
    }
  }

  lemma ApplyKeeps(b: Books, e: Event)
    requires Sound(b) && Enabled(b, e)
    ensures Sound(Apply(b, e)) && (Traced(b) ==> Traced(Apply(b, e)))
    ensures Apply(b, e).credits + Apply(b, e).spent - Apply(b, e).earned == b.credits + b.spent - b.earned
  {
    match e {
      case Tribute(pct, ids) => TributeKeeps(b, pct, ids);
      case Recover => TotalUpdate(b.origins, b.system, (if b.system in b.origins then b.origins[b.system] else 0) + b.runValue);
      case Sell => AddAllTotal(b.soldAt, b.origins); assert forall k :: k in SellAll(b).soldAt ==> SellAll(b).soldAt[k] >= 0;
      case _ =>
    }
  }

  ghost predicate Legal(b: Books, events: seq<Event>)
    decreases |events|
  {
    events == [] || (Enabled(b, events[0]) && Legal(Apply(b, events[0]), events[1..]))
  }

  ghost function Exec(b: Books, events: seq<Event>): Books
    requires Legal(b, events)
    decreases |events|
  {
    if events == [] then b else Exec(Apply(b, events[0]), events[1..])
  }

  lemma {:induction false} ExecKeeps(b: Books, events: seq<Event>)
    requires Sound(b) && Legal(b, events)
    ensures Sound(Exec(b, events)) && (Traced(b) ==> Traced(Exec(b, events)))
    ensures var after := Exec(b, events); after.credits + after.spent - after.earned == b.credits + b.spent - b.earned
    decreases |events|
  {
    if events != [] {
      ApplyKeeps(b, events[0]);
      ExecKeeps(Apply(b, events[0]), events[1..]);
    }
  }

  function Fresh(system: string, credits: int): Books {
    Books(system, credits, 0, 0, 0.0, map[], 0, map[], 0, 0, 0.0, 0.0, 0, 0, 0, 0, 0)
  }

  /** From a new pilot on, whatever is mined, surrendered, lost, carried and sold: the origins add
      up to the cargo, the systems' sales add up to the pilot's, every credit of ore drilled is in the
      run, in the hold, sold, surrendered or lost, and the purse holds what came from sales and redeemed
      bounties, less what was spent. */
  lemma FreshPilotsAreTraced(system: string, credits: int, events: seq<Event>)
    requires Legal(Fresh(system, credits), events)
    ensures var b := Exec(Fresh(system, credits), events);
            && Total(b.origins) == b.cargoValue && Total(b.soldAt) == b.soldTotal
            && b.mined == b.runValue + b.cargoValue + b.soldTotal + b.tributes + b.lost
            && b.credits == credits + b.soldTotal + b.bounties - b.vouchers - b.spent
  {
    ExecKeeps(Fresh(system, credits), events);
  }

  // ---------------------------------------------------------------- the pilot's own actions

  datatype Sale = Sold(value: int) | InBelt | CargoEmpty

  class Hold {
    var books: Books

    constructor (system: string, credits: int)
      ensures books == Fresh(system, credits)
    {
      books := Fresh(system, credits);
    }

    /** Cuts the origins one after another; ids lists them in sorted order. */
    method ReduceOrigins(ids: seq<string>, loss: int)
      requires Enumerates(ids, books.origins)
      modifies this
      ensures books == old(books).(origins := Reduced(old(books.origins), ids, old(books.cargoValue), loss))
      ensures NonNegative(old(books.origins)) && 0 <= loss <= books.cargoValue && old(ValueOf(books.origins, ids)) <= books.cargoValue ==>
                FairCuts(old(books.origins), books.origins, ids, books.cargoValue, loss)
    {
      if NonNegative(books.origins) && 0 <= loss <= books.cargoValue && ValueOf(books.origins, ids) <= books.cargoValue {
        ReducedIsFair(books.origins, ids, books.cargoValue, loss);
      }
      hide FairCuts, ValueOf;
      var remainingValue, remainingLoss := books.cargoValue, loss;
      ghost var was := books;
      assert ids[0..] == ids;
      for i := 0 to |ids|
        invariant books == was.(origins := books.origins) && Enumerates(ids[i..], books.origins)
        invariant Reduced(books.origins, ids[i..], remainingValue, remainingLoss)
                  == Reduced(was.origins, ids, was.cargoValue, loss)
      {
        var v := books.origins[ids[i]];
        var cut := PortionLoss(remainingLoss, v, remainingValue);
        EnumeratesTail(ids[i..], books.origins, v - cut);
        assert ids[i..][0] == ids[i] && ids[i..][1..] == ids[i + 1..];
        books := books.(origins := books.origins[ids[i] := v - cut]);
        remainingValue := remainingValue - v;
        remainingLoss := remainingLoss - cut;
      }
    }

    method AcceptTribute(pct: real, ids: seq<string>) returns (demand: int)
      requires Enumerates(ids, books.origins)
      modifies this
      ensures books == PayTribute(old(books), pct, ids) && demand == Demand(old(books.cargoValue + books.runValue), pct)
      ensures Sound(old(books)) && 0.0 <= pct <= 1.0 ==> PaidFairly(old(books), books, pct, ids, demand)
    {
      hide Sound, PaidFairly, PayTribute, Demand;
      if Sound(books) && 0.0 <= pct <= 1.0 { TributeIsFair(books, pct, ids); }
      demand := Pay(pct, ids);
    }

    method Pay(pct: real, ids: seq<string>) returns (demand: int)
      requires Enumerates(ids, books.origins)
      modifies this
      ensures books == PayTribute(old(books), pct, ids) && demand == Demand(old(books.cargoValue + books.runValue), pct)
    {
      var total := books.cargoValue + books.runValue;
      demand := Demand(total, pct);
      hide Demand;
      var fromStored := PortionLoss(demand, books.cargoValue, total);
      var fromRun := demand - fromStored;
      if fromRun > books.runValue {
        fromStored := fromStored + (fromRun - books.runValue);
        fromRun := books.runValue;
      }
      var storedUnits := UnitsLost(books.cargoUnits, books.cargoValue, fromStored);
      var runUnits := UnitsLost(books.held, books.runValue, fromRun);
      hide PortionLoss, UnitsLost, Reduced, Enumerates;
      ReduceOrigins(ids, fromStored);
      books := books.(cargoValue := books.cargoValue - fromStored, cargoUnits := RMax(0.0, books.cargoUnits - storedUnits));
      books := books.(runValue := books.runValue - fromRun, held := RMax(0.0, books.held - runUnits),
                      jettisoned := books.jettisoned + runUnits, tributes := books.tributes + demand);
    }

    /** The cargo side of a run's end. */
    method Resolve(shipLost: bool) returns (recovered: int, lost: int)
      modifies this
      ensures books == Apply(old(books), if shipLost then LoseShip else Recover)
      ensures recovered == (if shipLost then 0 else old(books.runValue))
      ensures lost == (if shipLost then old(books.cargoValue) + old(books.runValue) else 0)
      ensures books.cargoValue == (if shipLost then 0 else old(books.cargoValue) + recovered)
      ensures books.cargoUnits == (if shipLost then 0.0 else old(books.cargoUnits) + old(books.held))
      ensures shipLost ==> books.origins == map[]
      ensures !shipLost ==> books.origins - {books.system} == old(books.origins) - {books.system}
      ensures !shipLost ==> books.system in books.origins
      ensures !shipLost ==> books.origins[books.system]
                            == recovered + (if books.system in old(books.origins) then old(books.origins)[books.system] else 0)
    {
      if shipLost {
        recovered, lost := 0, books.cargoValue + books.runValue;
        books := books.(cargoValue := 0, origins := map[], cargoUnits := 0.0, lost := books.lost + lost);
      } else {
        recovered, lost := books.runValue, 0;
        books := books.(cargoValue := books.cargoValue + recovered, cargoUnits := books.cargoUnits + books.held,
                        origins := Plus(books.origins, books.system, recovered));
      }
      books := books.(runValue := 0, held := 0.0);
    }

    /** Sells the whole hold and redeems the vouchers, booking each part where it was mined. */
    method SellCargo(docked: bool) returns (sale: Sale)
      modifies this
      ensures sale == if !docked then InBelt
                      else if old(books.cargoValue) <= 0 && old(books.vouchers) <= 0 then CargoEmpty
                      else Sold(old(books.cargoValue) + old(books.vouchers))
      ensures books == if docked then SellAll(old(books)) else old(books)
      ensures sale.Sold? ==>
                && books.credits == old(books.credits) + sale.value && books.earned == old(books.earned) + sale.value
                && books.cargoValue == books.vouchers == 0 && books.cargoUnits == 0.0 && books.origins == map[]
                && books.soldTotal == old(books.soldTotal + books.cargoValue)
      ensures sale.Sold? ==>
                forall k :: k in old(books.origins) ==>
                  k in books.soldAt
                  && books.soldAt[k] == old(books.origins)[k] + (if k in old(books.soldAt) then old(books.soldAt)[k] else 0)
      ensures !sale.Sold? ==> books == old(books)
    {
      if !docked { return InBelt; }
      if books.cargoValue <= 0 && books.vouchers <= 0 { return CargoEmpty; }
      var value := books.cargoValue + books.vouchers;
      var soldAt := BookSales(books.soldAt, books.origins);
      books := books.(credits := books.credits + value, earned := books.earned + value, soldAt := soldAt,
                      soldTotal := books.soldTotal + books.cargoValue,
                      origins := map[], cargoValue := 0, cargoUnits := 0.0, vouchers := 0);
      return Sold(value);
    }
  }

  /** Adds each origin's value to its system's record, in whatever order the map yields them. */
  method BookSales(soldAt: map<string, int>, origins: map<string, int>) returns (booked: map<string, int>)
    ensures booked == AddAll(soldAt, origins)
  {
    booked := soldAt;
    var rest := origins.Keys;
    assert AddAll(soldAt, map[]) == soldAt && origins - rest == map[];
    hide AddAll;
    while rest != {}
      invariant rest <= origins.Keys && booked == AddAll(soldAt, origins - rest)
      decreases |rest|
    {
      var id :| id in rest;
      BookOne(soldAt, origins, rest, id);
      booked := Plus(booked, id, origins[id]);
      rest := rest - {id};
    }
    assert origins - {} == origins;
  }

  lemma BookOne(soldAt: map<string, int>, origins: map<string, int>, rest: set<string>, id: string)
    requires id in rest && rest <= origins.Keys
    ensures AddAll(soldAt, origins - (rest - {id})) == Plus(AddAll(soldAt, origins - rest), id, origins[id])
  {
    assert origins - (rest - {id}) - {id} == origins - rest;
    AddAllStep(soldAt, origins - (rest - {id}), id);
  }

  lemma EnumeratesTail(ids: seq<string>, origins: map<string, int>, v: int)
    requires ids != [] && Enumerates(ids, origins)
    ensures Enumerates(ids[1..], origins[ids[0] := v])
  {}
}
