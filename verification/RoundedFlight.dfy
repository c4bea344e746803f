/** The same flight on a machine that rounds. Nothing is assumed of the rounding but its sizes, and one
    thing that exact arithmetic lacks: a gap that is still open is at least one quantum wide. Then
    every dry flight reaches its finish, after a number of ticks that can be computed beforehand. */
module RoundedFlight {
  import opened Numbers
  import opened MiningRun
  import opened DryFlight

  /** How coarse the machine is. Rounding to nearest gives over = 1/2 at most: the cut tick is a whole
      number of quanta of the finish, and the time without fuel is not the larger of the two. */
  datatype Precision = Precision(
    quantum: real,   // an open gap is at least this wide
    over: real,      // the share by which a tick's dry time may be recorded too long
    off: real,       // how far the finish may be from its formula
    slip: real)      // what a whole tick may lose on the clock

  /** What of a second without fuel comes back as penalty, at most; of t seconds; and what does not. */
  function Leak(r: Rules, p: Precision): real { (1.0 + p.over) * r.outRate }

  function Back(r: Rules, p: Precision, t: real): real { t * Leak(r, p) }

  function Kept(r: Rules, p: Precision, t: real): real { t - Back(r, p, t) }

  predicate PrecisionOk(r: Rules, p: Precision, dt: real) {
    && p.quantum > 0.0 && p.over >= 0.0 && p.off >= 0.0 && p.slip >= 0.0 && dt > 0.0
    && 0.0 < r.outRate && Leak(r, p) < 1.0 && p.slip < Kept(r, p, dt) && 2.0 * p.off <= Kept(r, p, dt)
  }

  predicate Near(r: Rules, p: Precision, b: Burn) { -p.off <= b.required - (b.base + Penalty(r, b.out)) <= p.off }

  /** The finish is near its formula, and an open gap is visible. */
  predicate Rounded(r: Rules, p: Precision, b: Burn) { Near(r, p, b) && (Gap(b) > 0.0 ==> Gap(b) >= p.quantum) }

  /** One dry tick of an unfinished flight. A tick cut to the gap puts the clock on the old finish. */
  predicate RoundedTick(r: Rules, p: Precision, b: Burn, next: Burn, dt: real) {
    && next.base == b.base
    && (Gap(b) <= dt ==> next.elapsed == b.required)
    && (Gap(b) > dt ==> next.elapsed >= b.elapsed + dt - p.slip)
    && b.out <= next.out <= b.out + (1.0 + p.over) * RMin(dt, Gap(b))
    && Rounded(r, p, next)
  }

  /** A flight, tick after tick, for as long as it is not over. */
  ghost predicate Flown(r: Rules, p: Precision, dt: real, flight: nat -> Burn) {
    && Rounded(r, p, flight(0))
    && forall n: nat :: Gap(flight(n)) > 0.0 ==> RoundedTick(r, p, flight(n), flight(n + 1), dt)
  }

  /** The gap by the formula. */
  function Left(r: Rules, b: Burn): real { b.base + Penalty(r, b.out) - b.elapsed }

  lemma LeftIsNear(r: Rules, p: Precision, b: Burn)
    requires Rounded(r, p, b)
    ensures Gap(b) - p.off <= Left(r, b) <= Gap(b) + p.off
    ensures Gap(b) > 0.0 ==> Left(r, b) >= p.quantum - p.off
  {}

  lemma PenaltyRises(r: Rules, p: Precision, out: real, more: real, t: real)
    requires r.outRate > 0.0 && out <= more <= out + (1.0 + p.over) * t
    ensures Penalty(r, more) <= Penalty(r, out) + Back(r, p, t)
  {
    var x := (1.0 + p.over) * t;
    Grows(r.outRate, more, out + x);
    assert (out + x) * r.outRate == out * r.outRate + x * r.outRate;
    assert x * r.outRate == Back(r, p, t);
    Grows(r.outRate, out, more);
  }

  lemma BackGrows(r: Rules, p: Precision, x: real, y: real)
    requires r.outRate > 0.0 && p.over >= 0.0 && Leak(r, p) < 1.0 && x <= y
    ensures Back(r, p, x) <= Back(r, p, y) && Kept(r, p, x) <= Kept(r, p, y)
  {
    BackRises(r, p, x, y);
    KeptRises(r, p, x, y);
    hide Back, Kept;
  }

  lemma BackRises(r: Rules, p: Precision, x: real, y: real)
    requires r.outRate > 0.0 && p.over >= 0.0 && x <= y
    ensures Back(r, p, x) <= Back(r, p, y)
  {
    assert Leak(r, p) >= 0.0;
    hide Leak;
    Grows(Leak(r, p), x, y);
  }

  lemma KeptRises(r: Rules, p: Precision, x: real, y: real)
    requires Leak(r, p) < 1.0 && x <= y
    ensures Kept(r, p, x) <= Kept(r, p, y)
  {
    hide Leak;
    RestGrows(Leak(r, p), x, y);
  }

  lemma RestGrows(d: real, x: real, y: real)
    requires d <= 1.0 && x <= y
    ensures x - x * d <= y - y * d
  {
    var e := 1.0 - d;
    Grows(e, x, y);
    assert x * e == x - x * d by { assert x * (1.0 - d) == x - x * d; }
    assert y * e == y - y * d;
  }

  /** A whole tick takes its length off what is left, but for the leak and the slip. */
  lemma WholeTick(r: Rules, p: Precision, b: Burn, next: Burn, dt: real)
    requires PrecisionOk(r, p, dt) && Gap(b) > dt && RoundedTick(r, p, b, next, dt)
    ensures Left(r, next) <= Left(r, b) - (Kept(r, p, dt) - p.slip)
  {
    PenaltyRises(r, p, b.out, next.out, dt);
    hide Penalty, Back;
  }

  /** A cut tick leaves the next one cut too, keeps only the leak of what is left, and takes at least
      the kept part of a quantum. */
  lemma CutTick(r: Rules, p: Precision, b: Burn, next: Burn, dt: real)
    requires PrecisionOk(r, p, dt) && 0.0 < Gap(b) <= dt && Rounded(r, p, b) && RoundedTick(r, p, b, next, dt)
    ensures Gap(next) <= dt
    ensures Left(r, next) - p.off <= Back(r, p, Left(r, b) - p.off)
    ensures Left(r, next) <= Left(r, b) - Kept(r, p, p.quantum)
  {
    var g := Gap(b);
    PenaltyRises(r, p, b.out, next.out, g);
    LeftIsNear(r, p, b);
    hide Penalty, Back, Leak;
    BackGrows(r, p, Left(r, b) - p.off, g);
    BackGrows(r, p, g, dt);
    BackGrows(r, p, p.quantum, g);
  }

  // ---------------------------------------------------------------- the three stretches of a flight

  /** Whole ticks, until the gap is no longer than one. */
  lemma {:induction false} UntilCut(r: Rules, p: Precision, dt: real, flight: nat -> Burn, i: nat, m: nat) returns (j: nat)
    requires PrecisionOk(r, p, dt) && Flown(r, p, dt, flight) && Rounded(r, p, flight(i))
    requires Length(m, Kept(r, p, dt) - p.slip) >= Left(r, flight(i)) + p.off - dt
    ensures i <= j <= i + m && Gap(flight(j)) <= dt && Rounded(r, p, flight(j))
    decreases m
  {
    var step := Kept(r, p, dt) - p.slip;
    LengthZero(step);
    hide Length, Kept, Near, Leak, Left;
    j := i;
    if Gap(flight(i)) > dt {
      LeftIsNear(r, p, flight(i));
      assert RoundedTick(r, p, flight(i), flight(i + 1), dt);
      WholeTick(r, p, flight(i), flight(i + 1), dt);
      LengthSplits(m, step);
      j := UntilCut(r, p, dt, flight, i + 1, m - 1);
    }
  }

  /** Cut ticks: what is left beyond the error of the finish shrinks geometrically. */
  lemma {:induction false} UntilTiny(r: Rules, p: Precision, dt: real, flight: nat -> Burn, i: nat, k: nat, most: real) returns (j: nat)
    requires PrecisionOk(r, p, dt) && Flown(r, p, dt, flight) && Rounded(r, p, flight(i)) && Gap(flight(i)) <= dt
    requires Left(r, flight(i)) - p.off <= most
    ensures i <= j <= i + k && Rounded(r, p, flight(j)) && Gap(flight(j)) <= dt
    ensures Gap(flight(j)) <= 0.0 || Left(r, flight(j)) - p.off <= Shrunk(most, Leak(r, p), k)
    decreases k
  {
    hide Kept, Near, Left, Shrunk;
    j := i;
    ShrunkOnce(most, Leak(r, p), k);
    if k > 0 && Gap(flight(i)) > 0.0 {
      assert RoundedTick(r, p, flight(i), flight(i + 1), dt);
      CutTick(r, p, flight(i), flight(i + 1), dt);
      BackGrows(r, p, Left(r, flight(i)) - p.off, most);
      hide Leak;
      j := UntilTiny(r, p, dt, flight, i + 1, k - 1, most * Leak(r, p));
    }
  }

  lemma ShrunkOnce(most: real, d: real, k: nat)
    ensures Shrunk(most, d, 0) == most && (k > 0 ==> Shrunk(most * d, d, k - 1) == Shrunk(most, d, k))
  {
    if k > 0 { ShrunkAgain(most, d, k); }
  }

  /** The last few quanta: each tick takes the kept part of one, and there is a least gap. */
  lemma {:induction false} UntilDone(r: Rules, p: Precision, dt: real, flight: nat -> Burn, i: nat, l: nat) returns (j: nat)
    requires PrecisionOk(r, p, dt) && Flown(r, p, dt, flight) && Rounded(r, p, flight(i)) && Gap(flight(i)) <= dt
    requires Left(r, flight(i)) < p.quantum - p.off + Length(l, Kept(r, p, p.quantum))
    ensures i <= j <= i + l && Gap(flight(j)) <= 0.0
    decreases l
  {
    var step := Kept(r, p, p.quantum);
    LengthZero(step);
    hide Length, Kept, Near, Leak, Left;
    j := i;
    if Gap(flight(i)) > 0.0 {
      LeftIsNear(r, p, flight(i));
      assert RoundedTick(r, p, flight(i), flight(i + 1), dt);
      CutTick(r, p, flight(i), flight(i + 1), dt);
      LengthSplits(l, step);
      j := UntilDone(r, p, dt, flight, i + 1, l - 1);
    }
  }

  /** Every dry flight ends on a machine that rounds, stalled or not by the exact formulas: m whole ticks,
      k cut ones down to a quantum, and l more to take up the error of the finish. */
  lemma RoundedFlightsEnd(r: Rules, p: Precision, dt: real, flight: nat -> Burn, m: nat, k: nat, l: nat) returns (n: nat)
    requires PrecisionOk(r, p, dt) && Flown(r, p, dt, flight)
    requires Length(m, Kept(r, p, dt) - p.slip) >= Left(r, flight(0)) + p.off - dt
    requires Shrunk(dt, Leak(r, p), k) <= p.quantum
    requires Length(l, Kept(r, p, p.quantum)) > 2.0 * p.off
    ensures n <= m + k + l && Gap(flight(n)) <= 0.0
  {
    hide Length, Kept, Leak, Left, Shrunk, Near;
    n := UntilCut(r, p, dt, flight, 0, m);
    LeftIsNear(r, p, flight(n));
    n := UntilTiny(r, p, dt, flight, n, k, dt);
    if Gap(flight(n)) > 0.0 { n := UntilDone(r, p, dt, flight, n, l); }
  }

  // ---------------------------------------------------------------- the shipped rates in double precision

  /** Seconds from one half to thirty-two: the finest spacing of two doubles there is 2^-53, and the
      three roundings of the finish come to less than 2^-48. */
  const FINEST: real := 1.0 / 9007199254740992.0

  const DOUBLE: Precision := Precision(FINEST, 0.5, 32.0 * FINEST, 32.0 * FINEST)

  lemma {:induction false} PowerAdds(x: real, m: nat, n: nat)
    ensures Power(x, m + n) == Power(x, m) * Power(x, n)
    decreases m
  {
    hide Power;
    PowerUnfolds(x, m);
    if m > 0 {
      PowerAdds(x, m - 1, n);
      PowerUnfolds(x, m + n);
      Regrouped(x, Power(x, m - 1), Power(x, n));
    }
  }

  lemma Regrouped(x: real, p: real, q: real)
    ensures x * (p * q) == x * p * q
  {}

  /** Seven factors of 0.9 come to less than a half. */
  lemma {:induction false} SevenHalve(j: nat)
    ensures 0.0 <= Power(0.9, 7 * j) <= Power(0.5, j)
    decreases j
  {
    if j > 0 {
      SevenHalve(j - 1);
      PowerAdds(0.9, 7, 7 * (j - 1));
      assert Power(0.9, 7) == 0.4782969;
      var p, h := Power(0.9, 7 * (j - 1)), Power(0.5, j - 1);
      assert 7 + 7 * (j - 1) == 7 * j;
      assert Power(0.5, j) == 0.5 * h;
      hide Power;
      assert Power(0.9, 7 * j) == 0.4782969 * p;
    }
  }

  lemma HalvesTo51()
    ensures Power(0.5, 51) == 1.0 / 2251799813685248.0
  {
    assert Power(0.5, 6) == 1.0 / 64.0;
    PowerAdds(0.5, 6, 6);
    PowerAdds(0.5, 12, 12);
    PowerAdds(0.5, 24, 24);
    assert Power(0.5, 3) == 1.0 / 8.0;
    PowerAdds(0.5, 48, 3);
  }

  lemma ShippedPrecision(r: Rules)
    requires r.outRate == 0.6
    ensures PrecisionOk(r, DOUBLE, 0.25) && Leak(r, DOUBLE) == 0.9
    ensures Length(801, Kept(r, DOUBLE, 0.25) - DOUBLE.slip) >= 20.0 + DOUBLE.off - 0.25
    ensures Length(641, Kept(r, DOUBLE, DOUBLE.quantum)) > 2.0 * DOUBLE.off
  {}

  /** With the shipped penalty rate and tick, a dry flight with up to twenty seconds to go is over within
      1800 ticks; the autopilot has ten thousand. */
  lemma ShippedFlightsEnd(r: Rules, flight: nat -> Burn) returns (n: nat)
    requires r.outRate == 0.6 && Flown(r, DOUBLE, 0.25, flight) && Left(r, flight(0)) <= 20.0
    ensures n < 1800 && Gap(flight(n)) <= 0.0
  {
    ShippedPrecision(r);
    SevenHalve(51);
    HalvesTo51();
    assert Shrunk(0.25, Leak(r, DOUBLE), 357) <= DOUBLE.quantum;
    hide Flown, PrecisionOk, Length, Kept, Leak, Left, Shrunk, Power;
    n := RoundedFlightsEnd(r, DOUBLE, 0.25, flight, 801, 357, 641);
  }

  // ---------------------------------------------------------------- what rounds, and what does not

  /** The exact tick is such a tick with no error at all, except that it may leave a gap that no machine
      can see. StalledGapIsSmall shows that in a stalled flight it sooner or later does. */
  lemma ExactTickIsRounded(r: Rules, b: Burn, dt: real, quantum: real)
    requires Timed(r, b) && Gap(b) > 0.0 && dt > 0.0 && r.outRate >= 0.0
    ensures var next := DryTick(r, b, dt);
            RoundedTick(r, Precision(quantum, 0.0, 0.0, 0.0), b, next, dt) <==> (Gap(next) > 0.0 ==> Gap(next) >= quantum)
  {
    DryTickTimed(r, b, dt);
    hide Penalty;
  }

  /** So many units of a fixed-point grid. */
  function Units(n: real, unit: real): real { n * unit }

  function Mark(n: int, unit: real): real { Units(n as real, unit) }

  ghost predicate OnGrid(x: real, unit: real) { exists n: int :: x == Mark(n, unit) }

  function ToGrid(x: real, unit: real): real
    requires unit > 0.0
  {
    Mark((x / unit).Floor, unit)
  }

  /** A machine with fixed-point numbers: sums are exact, and the penalty is cut to the grid. */
  function GridTick(r: Rules, b: Burn, dt: real, unit: real): Burn
    requires unit > 0.0
  {
    var t := RMin(dt, Gap(b));
    b.(elapsed := b.elapsed + t, out := b.out + t, required := b.base + ToGrid(Penalty(r, b.out + t), unit))
  }

  ghost predicate GridBurn(b: Burn, unit: real) {
    OnGrid(b.base, unit) && OnGrid(b.elapsed, unit) && OnGrid(b.required, unit)
  }

  lemma UnitsAdd(m: real, n: real, unit: real)
    ensures Units(m + n, unit) == Units(m, unit) + Units(n, unit) && Units(m - n, unit) == Units(m, unit) - Units(n, unit)
    ensures Units(1.0, unit) == unit
  {}

  lemma UnitsGrow(m: real, n: real, unit: real)
    requires unit > 0.0 && m <= n
    ensures Units(m, unit) <= Units(n, unit)
  {
    Grows(unit, m, n);
  }

  lemma GridSums(x: real, y: real, unit: real)
    requires unit > 0.0 && OnGrid(x, unit) && OnGrid(y, unit)
    ensures OnGrid(x + y, unit) && OnGrid(x - y, unit) && (x > y ==> x - y >= unit)
  {
    hide Units;
    var m: int :| x == Mark(m, unit);
    var n: int :| y == Mark(n, unit);
    UnitsAdd(m as real, n as real, unit);
    assert x + y == Mark(m + n, unit) && x - y == Mark(m - n, unit);
    if m <= n { UnitsGrow(m as real, n as real, unit); } else { UnitsGrow(1.0, (m - n) as real, unit); }
  }

  lemma GridIsNear(x: real, unit: real)
    requires unit > 0.0
    ensures OnGrid(ToGrid(x, unit), unit) && ToGrid(x, unit) <= x <= ToGrid(x, unit) + unit
  {
    var q := x / unit;
    assert Units(q, unit) == x;
    hide Units;
    UnitsGrow(q.Floor as real, q, unit);
    UnitsGrow(q, q.Floor as real + 1.0, unit);
    UnitsAdd(q.Floor as real, 1.0, unit);
  }

  /** Such a machine is one of those that the theorem is about, however fine its grid. */
  lemma GridTickIsRounded(r: Rules, b: Burn, dt: real, unit: real)
    requires unit > 0.0 && GridBurn(b, unit) && OnGrid(dt, unit) && Gap(b) > 0.0 && dt > 0.0
    ensures GridBurn(GridTick(r, b, dt, unit), unit)
    ensures RoundedTick(r, Precision(unit, 0.0, unit, 0.0), b, GridTick(r, b, dt, unit), dt)
  {
    var next := GridTick(r, b, dt, unit);
    GridSums(b.required, b.elapsed, unit);
    GridSums(b.elapsed, RMin(dt, Gap(b)), unit);
    GridIsNear(Penalty(r, next.out), unit);
    GridSums(b.base, ToGrid(Penalty(r, next.out), unit), unit);
    GridSums(next.required, next.elapsed, unit);
    hide OnGrid, ToGrid, Penalty;
  }
}
