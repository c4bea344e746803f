/** The largest-remainder allocator behind the screen layouts, over 64-bit machine integers. */
module FlexLayout {
  import opened Wrappers

  datatype Error = NoRegions | NonPositiveWeight | NegativeMinimum | InsufficientSpace | Overflow | Stalled | DivideByZero

  datatype Result<+T> = Ok(value: T) | Err(error: Error)

  const MAX_INT: int := 0x7fff_ffff_ffff_ffff
  const MODULUS: int := 0x1_0000_0000_0000_0000

  predicate Fits(x: int) { -MAX_INT - 1 <= x <= MAX_INT }

  /** What a 64-bit register keeps of an integer. */
  function Wrap(x: int): (r: int)
    ensures Fits(r) && (Fits(x) ==> r == x)
  {
    var m := x % MODULUS;
    if m > MAX_INT then m - MODULUS else m
  }

  /** Division and remainder that truncate toward zero. */
  function Quot(a: int, b: int): int
    requires b != 0
  {
    if a >= 0 then a / b else -((-a) / b)
  }

  function Rem(a: int, b: int): int
    requires b != 0
  {
    a - Quot(a, b) * b
  }

  /** Multiply, divide back, and compare: the overflow test in use. */
  function SafeMul(a: int, b: int): Option<int> {
    if a == 0 || b == 0 then Some(0)
    else if a < 0 || b < 0 then None
    else
      var c := Wrap(a * b);
      if Quot(c, a) != b then None else Some(c)
  }

  /** The divide-back test is exact: it accepts a product of non-negative operands exactly when
      the true product fits, and then returns it. */
  lemma SafeMulIsExact(a: int, b: int)
    requires 0 <= a <= MAX_INT && 0 <= b <= MAX_INT
    ensures SafeMul(a, b) == if a * b <= MAX_INT then Some(a * b) else None
  {
    if a > 0 && b > 0 {
      var p := a * b;
      Positive(a, b);
      if p <= MAX_INT {
        DivideBack(a, b);
      } else {
        var c := Wrap(p);
        // Dividing back to b would mean that c is at least p, which c is too small for.
        if c >= 0 { QuotientBelow(c, a, b); }
      }
    }
  }

  lemma Positive(a: int, b: int)
    requires a > 0 && b > 0
    ensures a * b > 0
  {
  }

  lemma Scale(a: int, d: int)
    requires a > 0
    ensures d >= 1 ==> a * d >= a
    ensures d <= -1 ==> a * d <= -a
  {
  }

  lemma DivideBack(a: int, b: int)
    requires a > 0
    ensures a * b / a == b
  {
    var q := a * b / a;
    assert a * b == a * q + a * b % a;
    assert a * (b - q) == a * b % a;
    Scale(a, b - q);
  }

  lemma QuotientBelow(c: int, a: int, b: int)
    requires 0 <= c < a * b && a > 0
    ensures c / a != b
  {
    assert c == a * (c / a) + c % a;
  }

  datatype FlexSpec = FlexSpec(min: int, weight: int)

  function Sum(xs: seq<int>): int
    decreases |xs|
  {
    if xs == [] then 0 else Sum(xs[..|xs| - 1]) + xs[|xs| - 1]
  }

  function Mins(specs: seq<FlexSpec>): seq<int> { seq(|specs|, i requires 0 <= i < |specs| => specs[i].min) }

  function Weights(specs: seq<FlexSpec>): seq<int> { seq(|specs|, i requires 0 <= i < |specs| => specs[i].weight) }

  /** The whole cells of each region's share of extra cells, and what the division leaves over. */
  function Quotas(extra: int, total: int, specs: seq<FlexSpec>): seq<int>
    requires total > 0
  {
    seq(|specs|, i requires 0 <= i < |specs| => extra * specs[i].weight / total)
  }

  function Leftovers(extra: int, total: int, specs: seq<FlexSpec>): seq<int>
    requires total > 0
  {
    seq(|specs|, i requires 0 <= i < |specs| => extra * specs[i].weight % total)
  }

  /** Region i comes before region j in line for an extra cell. */
  predicate Ahead(leftovers: seq<int>, i: int, j: int)
    requires 0 <= i < |leftovers| && 0 <= j < |leftovers|
  {
    leftovers[i] > leftovers[j] || (leftovers[i] == leftovers[j] && i < j)
  }

  /** One extra cell each, to those first in line, and none to a region that divided evenly. */
  ghost predicate LargestFirst(leftovers: seq<int>, bonus: seq<int>) {
    && |bonus| == |leftovers|
    && (forall i :: 0 <= i < |bonus| ==> bonus[i] == 0 || (bonus[i] == 1 && leftovers[i] > 0))
    && (forall i, j :: 0 <= i < |bonus| && 0 <= j < |bonus| && bonus[i] == 1 && bonus[j] == 0 ==> Ahead(leftovers, i, j))
  }

  lemma {:induction false} SumOrder(xs: seq<int>, ys: seq<int>)
    requires |xs| == |ys| && forall i :: 0 <= i < |xs| ==> xs[i] <= ys[i]
    ensures Sum(xs) <= Sum(ys)
    ensures Sum(xs) == Sum(ys) ==> xs == ys
    decreases |xs|
  {
    if xs != [] {
      var n := |xs| - 1;
      SumOrder(xs[..n], ys[..n]);
      if Sum(xs) == Sum(ys) { assert xs == xs[..n] + [xs[n]] && ys == ys[..n] + [ys[n]]; }
    }
  }

  /** The rule and the number of cells leave no choice. */
  lemma LargestFirstIsUnique(leftovers: seq<int>, bonus: seq<int>, other: seq<int>)
    requires LargestFirst(leftovers, bonus) && LargestFirst(leftovers, other) && Sum(bonus) == Sum(other)
    ensures bonus == other
  {
    // If one gave a cell where the other did not, and conversely elsewhere, each would be ahead of
    // the other; so one is below the other everywhere, and equal sums make them the same.
    if exists i :: 0 <= i < |bonus| && bonus[i] > other[i] {
      SumOrder(other, bonus);
    } else {
      SumOrder(bonus, other);
    }
  }

  // ---------------------------------------------------------------- why the rounds never stall

  /** Shares and leftovers account for every extra cell. */
  lemma {:induction false} SharesAccount(extra: int, total: int, specs: seq<FlexSpec>)
    requires total > 0
    ensures extra * Sum(Weights(specs)) == total * Sum(Quotas(extra, total, specs)) + Sum(Leftovers(extra, total, specs))
    decreases |specs|
  {
    if specs != [] {
      var n := |specs| - 1;
      SharesAccount(extra, total, specs[..n]);
      assert Weights(specs)[..n] == Weights(specs[..n]);
      assert Quotas(extra, total, specs)[..n] == Quotas(extra, total, specs[..n]);
      assert Leftovers(extra, total, specs)[..n] == Leftovers(extra, total, specs[..n]);
      var w, q, r := specs[n].weight, extra * specs[n].weight / total, extra * specs[n].weight % total;
      assert extra * w == total * q + r;
      Distribute(extra, Sum(Weights(specs[..n])), w);
      Distribute(total, Sum(Quotas(extra, total, specs[..n])), q);
    }
  }

  lemma Distribute(k: int, a: int, b: int)
    ensures k * (a + b) == k * a + k * b
  {
  }

  /** If only served regions have leftovers, the leftovers are worth less than the cells served. */
  lemma {:induction false} ServedCoversLeftovers(leftovers: seq<int>, bonus: seq<int>, total: int)
    requires |leftovers| == |bonus| && total > 0
    requires forall i :: 0 <= i < |bonus| ==> 0 <= leftovers[i] < total && 0 <= bonus[i] <= 1
    requires forall i :: 0 <= i < |bonus| && bonus[i] == 0 ==> leftovers[i] == 0
    ensures Sum(leftovers) <= Sum(bonus) * (total - 1)
    decreases |bonus|
  {
    if bonus != [] {
      var n := |bonus| - 1;
      ServedCoversLeftovers(leftovers[..n], bonus[..n], total);
      Distribute(total - 1, Sum(bonus[..n]), bonus[n]);
    }
  }

  lemma {:induction false} SumUpdate(xs: seq<int>, i: int, v: int)
    requires 0 <= i < |xs|
    ensures Sum(xs[i := v]) == Sum(xs) - xs[i] + v
    decreases |xs|
  {
    var n := |xs| - 1;
    if i < n {
      SumUpdate(xs[..n], i, v);
      assert xs[i := v][..n] == xs[..n][i := v];
    } else {
      assert xs[i := v][..n] == xs[..n];
    }
  }

  lemma {:induction false} SumAdd(xs: seq<int>, ys: seq<int>, zs: seq<int>)
    requires |xs| == |ys| == |zs| && forall i :: 0 <= i < |xs| ==> zs[i] == xs[i] + ys[i]
    ensures Sum(zs) == Sum(xs) + Sum(ys)
    decreases |xs|
  {
    if xs != [] { SumAdd(xs[..|xs| - 1], ys[..|xs| - 1], zs[..|xs| - 1]); }
  }

  lemma {:induction false} SumZeros(xs: seq<int>)
    requires forall i :: 0 <= i < |xs| ==> xs[i] == 0
    ensures Sum(xs) == 0
    decreases |xs|
  {
    if xs != [] { SumZeros(xs[..|xs| - 1]); }
  }

  /** While cells are left, someone unserved still has a leftover. */
  lemma SomeoneIsWaiting(extra: int, total: int, specs: seq<FlexSpec>, bonus: seq<int>)
    requires total == Sum(Weights(specs)) > 0 && |bonus| == |specs|
    requires forall i :: 0 <= i < |bonus| ==> 0 <= bonus[i] <= 1
    requires Sum(bonus) < extra - Sum(Quotas(extra, total, specs)) && Sum(bonus) >= 0
    ensures exists i :: 0 <= i < |bonus| && bonus[i] == 0 && Leftovers(extra, total, specs)[i] > 0
  {
    var q, r, b := Sum(Quotas(extra, total, specs)), Leftovers(extra, total, specs), Sum(bonus);
    if forall i :: 0 <= i < |bonus| && bonus[i] == 0 ==> r[i] <= 0 {
      SharesAccount(extra, total, specs);
      ServedCoversLeftovers(r, bonus, total);
      CellsOutweigh(extra, total, q, Sum(r), b);
    }
  }

  lemma CellsOutweigh(extra: int, total: int, q: int, leftover: int, served: int)
    requires total > 0 && served >= 0 && served + 1 <= extra - q
    requires extra * total == total * q + leftover
    ensures leftover > served * (total - 1)
  {
    Distribute(total, extra - q, q);
    assert leftover == total * (extra - q);
    Distribute(total, served + 1, extra - q - served - 1);
    NonNegative(total, extra - q - served - 1);
    assert total * (served + 1) == total * served + total;
    assert served * (total - 1) == total * served - served;
  }

  lemma NonNegative(a: int, b: int)
    requires a >= 0 && b >= 0
    ensures a * b >= 0
  {
  }

  // ---------------------------------------------------------------- the allocator

  /** The first region that is refused, checked in declaration order. */
  function FirstBad(specs: seq<FlexSpec>): (e: Option<Error>)
    ensures e.None? <==> forall i :: 0 <= i < |specs| ==> specs[i].weight > 0 && specs[i].min >= 0
    decreases |specs|
  {
    if specs == [] then None
    else if specs[0].weight <= 0 then Some(NonPositiveWeight)
    else if specs[0].min < 0 then Some(NegativeMinimum)
    else
      assert forall i :: 1 <= i < |specs| ==> specs[i] == specs[1..][i - 1];
      FirstBad(specs[1..])
  }

  /** The minimums and the weights add up within a machine integer. */
  predicate TotalsFit(specs: seq<FlexSpec>) {
    Sum(Mins(specs)) <= MAX_INT && Sum(Weights(specs)) <= MAX_INT
  }

  /** Every region gets its minimum, the whole part of its share and at most one cell more; the
      extra cells go to the largest leftovers, the earlier first; and nothing is left over. */
  ghost predicate Allocation(available: int, specs: seq<FlexSpec>, widths: seq<int>)
    requires Sum(Weights(specs)) > 0
  {
    var extra, total := available - Sum(Mins(specs)), Sum(Weights(specs));
    && |widths| == |specs|
    && Sum(widths) == available
    && exists bonus :: LargestFirst(Leftovers(extra, total, specs), bonus) &&
         forall i :: 0 <= i < |specs| ==> widths[i] == specs[i].min + Quotas(extra, total, specs)[i] + bonus[i]
  }

  lemma {:induction false} PartsBelow(xs: seq<int>, n: nat)
    requires n <= |xs| && forall i :: 0 <= i < |xs| ==> xs[i] >= 0
    ensures 0 <= Sum(xs[..n]) <= Sum(xs)
    ensures forall i :: 0 <= i < |xs| ==> xs[i] <= Sum(xs)
    decreases |xs|
  {
    if xs != [] {
      var m := |xs| - 1;
      PartsBelow(xs[..m], if n <= m then n else m);
      assert n <= m ==> xs[..m][..n] == xs[..n];
      assert n == |xs| ==> xs[..n] == xs && xs[..m][..m] == xs[..m];
      assert forall i :: 0 <= i < m ==> xs[i] == xs[..m][i];
    } else {
      assert xs[..n] == xs;
    }
  }

  /** A share is between nothing and all the extra cells, and the shares together are too. */
  lemma SharesBelow(extra: int, total: int, specs: seq<FlexSpec>)
    requires total == Sum(Weights(specs)) > 0 && extra >= 0 && FirstBad(specs).None?
    ensures forall i :: 0 <= i < |specs| ==> Quotas(extra, total, specs)[i] >= 0 && 0 <= Leftovers(extra, total, specs)[i] < total
    ensures 0 <= Sum(Quotas(extra, total, specs)) <= extra
  {
    forall i | 0 <= i < |specs|
      ensures Quotas(extra, total, specs)[i] >= 0 && 0 <= Leftovers(extra, total, specs)[i] < total
    {
      ShareBounds(extra, specs[i].weight, total);
    }
    SharesAccount(extra, total, specs);
    PartsBelow(Quotas(extra, total, specs), 0);
    PartsBelow(Leftovers(extra, total, specs), 0);
    var q, r := Sum(Quotas(extra, total, specs)), Sum(Leftovers(extra, total, specs));
    assert q >= 0 && r >= 0;
    QuotaBelow(extra, total, q, r);
  }

  lemma ShareBounds(extra: int, weight: int, total: int)
    requires extra >= 0 && weight >= 0 && total > 0
    ensures extra * weight / total >= 0 && 0 <= extra * weight % total < total
  {
    NonNegative(extra, weight);
  }

  lemma QuotaBelow(extra: int, total: int, q: int, r: int)
    requires total > 0 && r >= 0 && extra * total == total * q + r
    ensures q <= extra
  {
    Distribute(total, extra - q, q);
    assert total * (extra - q) == r;
    Scale(total, extra - q);
  }

  /** Adds up the minimums and the weights, as machine integers, and refuses a bad region. */
  method Totals(specs: seq<FlexSpec>) returns (bad: Option<Error>, minTotal: int, weightTotal: int)
    ensures bad == FirstBad(specs)
    ensures Fits(minTotal) && Fits(weightTotal)
    ensures bad.None? && TotalsFit(specs) ==> minTotal == Sum(Mins(specs)) && weightTotal == Sum(Weights(specs))
  {
    minTotal, weightTotal := 0, 0;
    for i := 0 to |specs|
      invariant FirstBad(specs[i..]) == FirstBad(specs)
      invariant Fits(minTotal) && Fits(weightTotal)
      invariant FirstBad(specs).None? && TotalsFit(specs) ==>
                  minTotal == Sum(Mins(specs)[..i]) && weightTotal == Sum(Weights(specs)[..i])
    {
      var s := specs[i];
      assert specs[i..][0] == s && specs[i..][1..] == specs[i + 1..];
      if s.weight <= 0 { return Some(NonPositiveWeight), minTotal, weightTotal; }
      if s.min < 0 { return Some(NegativeMinimum), minTotal, weightTotal; }
      minTotal := Wrap(minTotal + s.min);
      weightTotal := Wrap(weightTotal + s.weight);
      if FirstBad(specs).None? && TotalsFit(specs) {
        PartsBelow(Mins(specs), i + 1);
        PartsBelow(Weights(specs), i + 1);
        assert Mins(specs)[..i + 1][..i] == Mins(specs)[..i];
        assert Weights(specs)[..i + 1][..i] == Weights(specs)[..i];
      }
    }
    assert Mins(specs)[..|specs|] == Mins(specs) && Weights(specs)[..|specs|] == Weights(specs);
    return None, minTotal, weightTotal;
  }

  /** The widest leftover not served yet, the earliest on ties; -1 when all are served. */
  method FirstInLine(remainders: array<int>, awarded: array<bool>) returns (best: int)
    requires remainders.Length == awarded.Length
    ensures -1 <= best < awarded.Length
    ensures best < 0 ==> forall j :: 0 <= j < awarded.Length ==> awarded[j]
    ensures best >= 0 ==> !awarded[best]
    ensures best >= 0 ==> forall j :: 0 <= j < awarded.Length && !awarded[j] && j != best ==> Ahead(remainders[..], best, j)
  {
    best := -1;
    for i := 0 to awarded.Length
      invariant -1 <= best < i
      invariant best < 0 ==> forall j :: 0 <= j < i ==> awarded[j]
      invariant best >= 0 ==> !awarded[best]
      invariant best >= 0 ==> forall j :: 0 <= j < i && !awarded[j] && j != best ==> Ahead(remainders[..], best, j)
    {
      if !awarded[i] && (best < 0 || remainders[i] > remainders[best]) {
        best := i;
      }
    }
  }

  /** The regions that are served: one cell each, nobody unserved ahead of anybody served. */
  ghost predicate ServedInOrder(leftovers: seq<int>, bonus: seq<int>) {
    && |bonus| == |leftovers|
    && (forall i :: 0 <= i < |bonus| ==> 0 <= bonus[i] <= 1)
    && (forall i, j :: 0 <= i < |bonus| && 0 <= j < |bonus| && bonus[i] == 1 && bonus[j] == 0 ==> Ahead(leftovers, i, j))
  }

  /** Partway through serving: who has been served, and the widths with their cell. */
  ghost predicate Serving(was: seq<int>, now: seq<int>, awarded: seq<bool>, bonus: seq<int>, leftovers: seq<int>) {
    && |was| == |now| == |awarded| == |bonus| && ServedInOrder(leftovers, bonus)
    && (forall i :: 0 <= i < |bonus| ==> awarded[i] == (bonus[i] == 1))
    && (forall i :: 0 <= i < |bonus| ==> now[i] == if bonus[i] == 1 then Wrap(was[i] + 1) else was[i])
  }

  lemma NobodyServed(was: seq<int>, leftovers: seq<int>, awarded: seq<bool>, bonus: seq<int>)
    requires |leftovers| == |was| && bonus == seq(|was|, _ => 0) && awarded == seq(|was|, _ => false)
    ensures Serving(was, was, awarded, bonus, leftovers) && Sum(bonus) == 0
  {
    SumZeros(bonus);
  }

  lemma ServeNext(was: seq<int>, now: seq<int>, awarded: seq<bool>, bonus: seq<int>, leftovers: seq<int>, best: nat)
    requires Serving(was, now, awarded, bonus, leftovers) && best < |bonus| && !awarded[best]
    requires forall j :: 0 <= j < |bonus| && !awarded[j] && j != best ==> Ahead(leftovers, best, j)
    ensures Serving(was, now[best := Wrap(now[best] + 1)], awarded[best := true], bonus[best := 1], leftovers)
    ensures Sum(bonus[best := 1]) == Sum(bonus) + 1
  {
    hide Wrap, Ahead;
    SumUpdate(bonus, best, 1);
  }

  lemma EverybodyServed(was: seq<int>, now: seq<int>, awarded: seq<bool>, bonus: seq<int>, leftovers: seq<int>)
    requires Serving(was, now, awarded, bonus, leftovers)
    ensures |bonus| == |now| == |was| == |leftovers| && ServedInOrder(leftovers, bonus) && Sum(bonus) <= |bonus|
    ensures (forall i :: 0 <= i < |awarded| ==> awarded[i]) ==> Sum(bonus) == |bonus|
    ensures forall i :: 0 <= i < |bonus| ==> now[i] == Wrap(was[i] + bonus[i]) || (bonus[i] == 0 && now[i] == was[i])
  {
    hide Wrap, Ahead;
    AtMostOneEach(bonus);
    if forall i :: 0 <= i < |awarded| ==> awarded[i] { AllServed(bonus); }
  }

  /** Gives a cell to the first in line; not when everybody has been served. */
  method ServeFirst(widths: array<int>, remainders: array<int>, awarded: array<bool>, ghost was: seq<int>, ghost bonus: seq<int>)
    returns (ok: bool, ghost after: seq<int>)
    requires widths.Length == remainders.Length == awarded.Length && widths != remainders
    requires Serving(was, widths[..], awarded[..], bonus, remainders[..])
    modifies widths, awarded
    ensures ok ==> Serving(was, widths[..], awarded[..], after, remainders[..]) && Sum(after) == Sum(bonus) + 1
    ensures !ok ==> after == bonus && Sum(bonus) == |bonus| && widths[..] == old(widths[..]) && awarded[..] == old(awarded[..])
  {
    hide Wrap, Sum, Serving, ServedInOrder;
    EverybodyServed(was, widths[..], awarded[..], bonus, remainders[..]);
    var best := FirstInLine(remainders, awarded);
    if best < 0 {
      assert forall i :: 0 <= i < |awarded[..]| ==> awarded[..][i];
      return false, bonus;
    }
    ServeNext(was, widths[..], awarded[..], bonus, remainders[..], best);
    ghost var now, served := widths[..], awarded[..];
    widths[best] := Wrap(widths[best] + 1);
    awarded[best] := true;
    assert widths[..] == now[best := Wrap(now[best] + 1)] && awarded[..] == served[best := true];
    return true, bonus[best := 1];
  }

  /** Hands out the remaining cells one by one; it stalls only with more cells than regions. */
  method Award(cells: int, widths: array<int>, remainders: array<int>) returns (stalled: bool, ghost bonus: seq<int>)
    requires widths.Length == remainders.Length && widths != remainders
    modifies widths
    ensures stalled <==> cells > widths.Length
    ensures ServedInOrder(remainders[..], bonus)
    ensures !stalled ==> Sum(bonus) == if cells > 0 then cells else 0
    ensures forall i :: 0 <= i < widths.Length ==> widths[i] == Wrap(old(widths[i]) + bonus[i]) || (bonus[i] == 0 && widths[i] == old(widths[i]))
  {
    hide Wrap, Sum, Serving, ServedInOrder;
    ghost var was := widths[..];
    var awarded := new bool[widths.Length](_ => false);
    bonus := seq(widths.Length, _ => 0);
    NobodyServed(was, remainders[..], awarded[..], bonus);
    var left := cells;
    stalled := false;
    while left > 0 && !stalled
      invariant Serving(was, widths[..], awarded[..], bonus, remainders[..])
      invariant Sum(bonus) == (if cells > 0 then cells else 0) - (if left > 0 then left else 0)
      invariant stalled ==> left > 0 && Sum(bonus) == |bonus|
      decreases left, !stalled
    {
      var ok;
      ok, bonus := ServeFirst(widths, remainders, awarded, was, bonus);
      if ok {
        left := left - 1;
      } else {
        stalled := true;
      }
    }
    EverybodyServed(was, widths[..], awarded[..], bonus, remainders[..]);
  }

  lemma {:induction false} AtMostOneEach(bonus: seq<int>)
    requires forall i :: 0 <= i < |bonus| ==> 0 <= bonus[i] <= 1
    ensures 0 <= Sum(bonus) <= |bonus|
    decreases |bonus|
  {
    if bonus != [] { AtMostOneEach(bonus[..|bonus| - 1]); }
  }

  lemma {:induction false} AllServed(bonus: seq<int>)
    requires forall i :: 0 <= i < |bonus| ==> bonus[i] == 1
    ensures Sum(bonus) == |bonus|
    decreases |bonus|
  {
    if bonus != [] { AllServed(bonus[..|bonus| - 1]); }
  }

  /** Serving as many as there are cells reaches nobody who divided evenly, and never runs out. */
  lemma ServingIsFair(extra: int, total: int, specs: seq<FlexSpec>, bonus: seq<int>, cells: int)
    requires total == Sum(Weights(specs)) > 0 && FirstBad(specs).None? && extra >= 0
    requires cells == extra - Sum(Quotas(extra, total, specs))
    ensures 0 <= cells <= |specs|
    ensures ServedInOrder(Leftovers(extra, total, specs), bonus) && Sum(bonus) == cells ==>
              LargestFirst(Leftovers(extra, total, specs), bonus)
  {
    SharesBelow(extra, total, specs);
    var all := seq(|specs|, _ => 1);
    AllServed(all);
    if cells > |specs| { SomeoneIsWaiting(extra, total, specs, all); }
    var r := Leftovers(extra, total, specs);
    if ServedInOrder(r, bonus) && Sum(bonus) == cells {
      forall i | 0 <= i < |bonus| && bonus[i] == 1 ensures r[i] > 0 {
        if r[i] <= 0 {
          var fewer := bonus[i := 0];
          SumUpdate(bonus, i, 0);
          AtMostOneEach(fewer);
          SomeoneIsWaiting(extra, total, specs, fewer);
        }
      }
    }
  }

  predicate ProductFits(extra: int, s: FlexSpec) { extra * s.weight <= MAX_INT }

  /** The inputs on which dealing is exact: true totals, and room for everything. */
  ghost predicate Exact(remaining: int, weightTotal: int, specs: seq<FlexSpec>) {
    && FirstBad(specs).None? && specs != []
    && weightTotal == Sum(Weights(specs)) && TotalsFit(specs)
    && 0 <= remaining && Sum(Mins(specs)) + remaining <= MAX_INT
  }

  lemma {:induction false} ExactBounds(remaining: int, weightTotal: int, specs: seq<FlexSpec>)
    requires Exact(remaining, weightTotal, specs)
    ensures 0 < weightTotal && remaining <= MAX_INT && Sum(Mins(specs)) >= 0
    ensures forall i :: 0 <= i < |specs| ==>
              && 0 < specs[i].weight <= MAX_INT
              && 0 <= specs[i].min && specs[i].min + Quotas(remaining, weightTotal, specs)[i] <= MAX_INT
    ensures forall i :: 0 <= i < |specs| ==> Quotas(remaining, weightTotal, specs)[i] >= 0
    ensures forall n :: 0 <= n <= |specs| ==> 0 <= Sum(Quotas(remaining, weightTotal, specs)[..n]) <= remaining
  {
    PartsBelow(Weights(specs), 0);
    PartsBelow(Mins(specs), 0);
    assert Weights(specs)[0] == specs[0].weight;
    SharesBelow(remaining, weightTotal, specs);
    var q := Quotas(remaining, weightTotal, specs);
    forall n | 0 <= n <= |specs| ensures 0 <= Sum(q[..n]) <= remaining { PartsBelow(q, n); }
    PartsBelow(q, 0);
    assert q[..|specs|] == q;
    forall i | 0 <= i < |specs|
      ensures 0 < specs[i].weight <= MAX_INT && 0 <= specs[i].min && specs[i].min + q[i] <= MAX_INT
    {
      assert Weights(specs)[i] == specs[i].weight && Mins(specs)[i] == specs[i].min;
      assert Mins(specs)[i] <= Sum(Mins(specs)) && q[i] <= Sum(q) <= remaining;
    }
  }

  /** The first i regions have been dealt their quotas and leftovers. */
  ghost predicate DealtSoFar(remaining: int, specs: seq<FlexSpec>, q: seq<int>, l: seq<int>, i: nat,
                             widths: seq<int>, remainders: seq<int>) {
    && |q| == |l| == |widths| == |remainders| == |specs| && i <= |specs|
    && forall j :: 0 <= j < i ==> ProductFits(remaining, specs[j]) && widths[j] == specs[j].min + q[j] && remainders[j] == l[j]
  }

  lemma DealtOneMore(remaining: int, specs: seq<FlexSpec>, q: seq<int>, l: seq<int>, i: nat,
                     widths: seq<int>, remainders: seq<int>)
    requires DealtSoFar(remaining, specs, q, l, i, widths, remainders) && i < |specs| && ProductFits(remaining, specs[i])
    ensures DealtSoFar(remaining, specs, q, l, i + 1, widths[i := specs[i].min + q[i]], remainders[i := l[i]])
  {
    hide ProductFits;
  }

  lemma DealtAll(remaining: int, specs: seq<FlexSpec>, q: seq<int>, l: seq<int>, widths: seq<int>, remainders: seq<int>)
    requires DealtSoFar(remaining, specs, q, l, |specs|, widths, remainders)
    ensures |widths| == |remainders| == |q| == |l| == |specs|
    ensures forall i :: 0 <= i < |specs| ==> ProductFits(remaining, specs[i]) && widths[i] == specs[i].min + q[i] && remainders[i] == l[i]
  {}

  lemma DealtNone(remaining: int, specs: seq<FlexSpec>, q: seq<int>, l: seq<int>, widths: seq<int>, remainders: seq<int>)
    requires |q| == |l| == |widths| == |remainders| == |specs|
    ensures DealtSoFar(remaining, specs, q, l, 0, widths, remainders)
  {}

  /** Deals the whole parts of the shares, unless a product leaves the machine range. */
  method Deal(remaining: int, weightTotal: int, specs: seq<FlexSpec>, widths: array<int>, remainders: array<int>)
    returns (whole: Option<int>)
    requires widths.Length == remainders.Length == |specs| && widths != remainders && weightTotal != 0
    modifies widths, remainders
    ensures Exact(remaining, weightTotal, specs) ==>
              weightTotal > 0 && DealtOk(remaining, weightTotal, specs, whole, widths[..], remainders[..])
  {
    ghost var exact := Exact(remaining, weightTotal, specs);
    ghost var q, l := [], [];
    if exact {
      ExactBounds(remaining, weightTotal, specs);
      q, l := Quotas(remaining, weightTotal, specs), Leftovers(remaining, weightTotal, specs);
    }
    hide *;
    var sum := 0;
    if exact { DealtNone(remaining, specs, q, l, widths[..], remainders[..]); }
    for i := 0 to |specs|
      invariant exact ==> DealtSoFar(remaining, specs, q, l, i, widths[..], remainders[..])
      invariant exact ==> sum == Sum(q[..i])
    {
      var s := specs[i];
      var share := Share(remaining, s.weight, weightTotal);
      if exact { DealtExactly(remaining, weightTotal, specs, i); }
      ghost var w0, r0 := widths[..], remainders[..];
      if share.None? {
        if exact { DealtShort(remaining, weightTotal, specs, i, widths[..], remainders[..]); }
        return None;
      }
      widths[i] := Wrap(s.min + share.value.0);
      remainders[i] := share.value.1;
      sum := Wrap(sum + share.value.0);
      if exact {
        assert widths[..] == w0[i := specs[i].min + q[i]] && remainders[..] == r0[i := l[i]];
        DealtOneMore(remaining, specs, q, l, i, w0, r0);
      }
    }
    if exact {
      DealtAll(remaining, specs, q, l, widths[..], remainders[..]);
      assert q[..|specs|] == q;
      DealtWhole(remaining, weightTotal, specs, widths[..], remainders[..]);
    }
    return Some(sum);
  }

  /** The outcome of an exact deal: None exactly when some product does not fit. */
  ghost predicate DealtOk(remaining: int, weightTotal: int, specs: seq<FlexSpec>, whole: Option<int>,
                          widths: seq<int>, remainders: seq<int>)
    requires weightTotal > 0
  {
    if exists i :: 0 <= i < |specs| && !ProductFits(remaining, specs[i]) then whole.None?
    else
      && whole == Some(Sum(Quotas(remaining, weightTotal, specs)))
      && remainders == Leftovers(remaining, weightTotal, specs)
      && |widths| == |specs|
      && forall i :: 0 <= i < |specs| ==> widths[i] == specs[i].min + Quotas(remaining, weightTotal, specs)[i] <= MAX_INT
  }

  lemma DealtShort(remaining: int, weightTotal: int, specs: seq<FlexSpec>, i: nat, widths: seq<int>, remainders: seq<int>)
    requires weightTotal > 0 && i < |specs| && !ProductFits(remaining, specs[i])
    ensures DealtOk(remaining, weightTotal, specs, None, widths, remainders)
  {
  }

  lemma DealtWhole(remaining: int, weightTotal: int, specs: seq<FlexSpec>, widths: seq<int>, remainders: seq<int>)
    requires Exact(remaining, weightTotal, specs) && weightTotal > 0 && |widths| == |remainders| == |specs|
    requires forall i :: 0 <= i < |specs| ==>
      && ProductFits(remaining, specs[i]) && widths[i] == specs[i].min + Quotas(remaining, weightTotal, specs)[i]
      && remainders[i] == Leftovers(remaining, weightTotal, specs)[i]
    ensures DealtOk(remaining, weightTotal, specs, Some(Sum(Quotas(remaining, weightTotal, specs))), widths, remainders)
  {
    ExactBounds(remaining, weightTotal, specs);
  }

  /** One region's whole cells and leftover, unless the product leaves the machine range. */
  function Share(remaining: int, weight: int, weightTotal: int): Option<(int, int)>
    requires weightTotal != 0
  {
    var prod := SafeMul(remaining, weight);
    if prod.None? then None else Some((Quot(prod.value, weightTotal), Rem(prod.value, weightTotal)))
  }

  lemma DealtExactly(remaining: int, weightTotal: int, specs: seq<FlexSpec>, i: nat)
    requires Exact(remaining, weightTotal, specs) && weightTotal > 0 && i < |specs|
    ensures var q, l := Quotas(remaining, weightTotal, specs), Leftovers(remaining, weightTotal, specs);
            && |q| == |l| == |specs|
            && Share(remaining, specs[i].weight, weightTotal)
               == (if ProductFits(remaining, specs[i]) then Some((q[i], l[i])) else None)
            && Fits(specs[i].min + q[i])
            && Sum(q[..i + 1]) == Sum(q[..i]) + q[i] && Fits(Sum(q[..i + 1]))
  {
    ExactBounds(remaining, weightTotal, specs);
    ShareIsExact(remaining, specs[i].weight, weightTotal);
    hide Share;
    var q := Quotas(remaining, weightTotal, specs);
    assert q[..i + 1][..i] == q[..i];
  }

  lemma ShareIsExact(remaining: int, weight: int, weightTotal: int)
    requires 0 <= remaining <= MAX_INT && 0 <= weight <= MAX_INT && weightTotal > 0
    ensures Share(remaining, weight, weightTotal)
         == if remaining * weight <= MAX_INT then Some((remaining * weight / weightTotal, remaining * weight % weightTotal)) else None
  {
    SafeMulIsExact(remaining, weight);
    NonNegative(remaining, weight);
    hide SafeMul, Quot, Rem;
    TruncatedIsEuclidean(remaining * weight, weightTotal);
  }

  lemma TruncatedIsEuclidean(p: int, t: int)
    requires p >= 0 && t > 0
    ensures Quot(p, t) == p / t && Rem(p, t) == p % t
  {
  }

  /** The rule for what a call returns, when the totals stay in the machine range. */
  ghost predicate Expected(available: int, specs: seq<FlexSpec>, r: Result<seq<int>>) {
    if specs == [] then r == Err(NoRegions)
    else if FirstBad(specs).Some? then r == Err(FirstBad(specs).value)
    else
      var extra := available - Sum(Mins(specs));
      if extra < 0 then r == Err(InsufficientSpace)
      else if exists i :: 0 <= i < |specs| && !ProductFits(extra, specs[i]) then r == Err(Overflow)
      else Sum(Weights(specs)) > 0 && r.Ok? && Allocation(available, specs, r.value)
  }

  method AllocateFlex(available: int, specs: seq<FlexSpec>) returns (r: Result<seq<int>>)
    requires Fits(available)
    ensures TotalsFit(specs) || FirstBad(specs).Some? ==> Expected(available, specs, r)
  {
    hide Wrap, Sum, Mins, Weights, Quotas, Leftovers, ServedInOrder, Allocation, FirstBad, ProductFits;
    if specs == [] { return Err(NoRegions); }
    var bad, minTotal, weightTotal := Totals(specs);
    if bad.Some? { return Err(bad.value); }
    if available < minTotal { return Err(InsufficientSpace); }
    if TotalsFit(specs) { ExactStart(available, specs); }
    if weightTotal == 0 { return Err(DivideByZero); }
    var widths := new int[|specs|];
    var remainders := new int[|specs|];
    var remaining := Wrap(available - minTotal);
    var whole := Deal(remaining, weightTotal, specs, widths, remainders);
    if whole.None? { return Err(Overflow); }
    ghost var dealt := widths[..];
    ghost var leftovers := remainders[..];
    var cells := Wrap(remaining - whole.value);
    ghost var bonus;
    var stalled;
    stalled, bonus := Award(cells, widths, remainders);
    if TotalsFit(specs) { AwardedExactly(available, specs, dealt, leftovers, bonus, widths[..]); }
    if stalled { return Err(Stalled); }
    r := Ok(widths[..]);
  }

  lemma ExactStart(available: int, specs: seq<FlexSpec>)
    requires FirstBad(specs).None? && specs != [] && TotalsFit(specs) && Sum(Mins(specs)) <= available <= MAX_INT
    ensures var extra, total := available - Sum(Mins(specs)), Sum(Weights(specs));
            Exact(extra, total, specs) && 0 < total && Fits(extra)
            && 0 <= Sum(Quotas(extra, total, specs)) <= extra
  {
    ExactBounds(available - Sum(Mins(specs)), Sum(Weights(specs)), specs);
    var q := Quotas(available - Sum(Mins(specs)), Sum(Weights(specs)), specs);
    assert q[..|specs|] == q;
  }

  /** With exact shares the awarding cannot stall, and what it leaves is the allocation. */
  lemma AwardedExactly(available: int, specs: seq<FlexSpec>, dealt: seq<int>, leftovers: seq<int>, bonus: seq<int>, widths: seq<int>)
    requires var extra, total := available - Sum(Mins(specs)), Sum(Weights(specs));
             && Exact(extra, total, specs) && total > 0
             && |dealt| == |specs| == |widths|
             && (forall i :: 0 <= i < |specs| ==> dealt[i] == specs[i].min + Quotas(extra, total, specs)[i] <= MAX_INT)
             && leftovers == Leftovers(extra, total, specs) && ServedInOrder(leftovers, bonus)
    requires forall i :: 0 <= i < |specs| ==> widths[i] == Wrap(dealt[i] + bonus[i]) || (bonus[i] == 0 && widths[i] == dealt[i])
    ensures var cells := available - Sum(Mins(specs)) - Sum(Quotas(available - Sum(Mins(specs)), Sum(Weights(specs)), specs));
            0 <= cells <= |specs| && (Sum(bonus) == cells ==> Allocation(available, specs, widths))
  {
    hide Wrap, LargestFirst, ServedInOrder, FirstBad;
    var extra, total := available - Sum(Mins(specs)), Sum(Weights(specs));
    ServingIsFair(extra, total, specs, bonus, extra - Sum(Quotas(extra, total, specs)));
    if Sum(bonus) == extra - Sum(Quotas(extra, total, specs)) {
      ExactBounds(extra, total, specs);
      Assembled(available, Mins(specs), Quotas(extra, total, specs), bonus, dealt, widths);
    }
  }

  /** Minimums, shares and bonuses that add up to the space are the widths, with nothing wrapped. */
  lemma Assembled(available: int, mins: seq<int>, quotas: seq<int>, bonus: seq<int>, dealt: seq<int>, widths: seq<int>)
    requires |mins| == |quotas| == |bonus| == |dealt| == |widths| && available <= MAX_INT
    requires Sum(mins) + Sum(quotas) + Sum(bonus) == available
    requires forall i :: 0 <= i < |mins| ==> mins[i] >= 0 && quotas[i] >= 0 && 0 <= bonus[i] && dealt[i] == mins[i] + quotas[i]
    requires forall i :: 0 <= i < |mins| ==> widths[i] == Wrap(dealt[i] + bonus[i]) || (bonus[i] == 0 && widths[i] == dealt[i])
    ensures Sum(widths) == available
    ensures forall i :: 0 <= i < |mins| ==> widths[i] == mins[i] + quotas[i] + bonus[i]
  {
    hide Wrap, Sum;
    SumAdd(mins, quotas, dealt);
    var exact := ExactWidths(available, dealt, bonus);
    forall i | 0 <= i < |mins| ensures widths[i] == exact[i] { NotWrapped(dealt[i], bonus[i], widths[i], available); }
    assert widths == exact;
  }

  lemma ExactWidths(available: int, dealt: seq<int>, bonus: seq<int>) returns (exact: seq<int>)
    requires |dealt| == |bonus| && Sum(dealt) + Sum(bonus) == available
    requires forall i :: 0 <= i < |dealt| ==> dealt[i] >= 0 && bonus[i] >= 0
    ensures |exact| == |dealt| && Sum(exact) == available
    ensures forall i :: 0 <= i < |dealt| ==> exact[i] == dealt[i] + bonus[i] <= available
  {
    hide Sum;
    exact := seq(|dealt|, i requires 0 <= i < |dealt| => dealt[i] + bonus[i]);
    SumAdd(dealt, bonus, exact);
    PartsBelow(exact, 0);
  }

  lemma NotWrapped(dealt: int, bonus: int, width: int, available: int)
    requires 0 <= dealt && 0 <= bonus && dealt + bonus <= available <= MAX_INT
    requires width == Wrap(dealt + bonus) || (bonus == 0 && width == dealt)
    ensures width == dealt + bonus
  {}
}
