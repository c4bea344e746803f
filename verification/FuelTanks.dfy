/** A ship's fuel: a base reserve and any number of tanks in its utility slots. Burning and filling
    go tank by tank, yet the whole behaves as one bounded counter. */
module FuelTanks {
  import opened Numbers

  // ---------------------------------------------------------------- levels as values

  function Sum(xs: seq<real>): real
    decreases |xs|
  {
    if xs == [] then 0.0 else xs[0] + Sum(xs[1..])
  }

  /** Every level lies between empty and its own capacity. */
  predicate Within(levels: seq<real>, caps: seq<real>) {
    |levels| == |caps| && forall i :: 0 <= i < |levels| ==> 0.0 <= levels[i] <= caps[i]
  }

  /** Taking fuel from the first levels first. */
  function Drain(levels: seq<real>, amount: real): (after: seq<real>)
    ensures |after| == |levels|
    decreases |levels|
  {
    if levels == [] then []
    else var used := RMin(levels[0], amount); [levels[0] - used] + Drain(levels[1..], amount - used)
  }

  /** Pouring fuel into the first levels first. */
  function Fill(levels: seq<real>, caps: seq<real>, amount: real): (after: seq<real>)
    requires |levels| == |caps|
    ensures |after| == |levels|
    decreases |levels|
  {
    if levels == [] then []
    else
      var added := RMin(RMax(0.0, caps[0] - levels[0]), amount);
      [levels[0] + added] + Fill(levels[1..], caps[1..], amount - added)
  }

  function Zeros(n: nat): seq<real> { seq(n, _ => 0.0) }

  lemma {:induction false} SumBounds(levels: seq<real>, caps: seq<real>)
    requires Within(levels, caps)
    ensures 0.0 <= Sum(levels) <= Sum(caps)
    decreases |levels|
  {
    if levels != [] { SumBounds(levels[1..], caps[1..]); }
  }

  /** Draining takes exactly min(amount, all there is) and keeps every level in bounds. */
  lemma {:induction false} DrainCounts(levels: seq<real>, caps: seq<real>, amount: real)
    requires Within(levels, caps) && amount >= 0.0
    ensures Within(Drain(levels, amount), caps)
    ensures Sum(Drain(levels, amount)) == Sum(levels) - RMin(amount, Sum(levels))
    decreases |levels|
  {
    if levels != [] {
      var used := RMin(levels[0], amount);
      DrainCounts(levels[1..], caps[1..], amount - used);
      SumBounds(levels[1..], caps[1..]);
    }
  }

  /** A later level goes down only once every earlier one is empty. */
  lemma {:induction false} DrainsInOrder(levels: seq<real>, caps: seq<real>, amount: real, i: nat, j: nat)
    requires Within(levels, caps) && amount >= 0.0 && i < j < |levels|
    requires Drain(levels, amount)[j] < levels[j]
    ensures Drain(levels, amount)[i] == 0.0
    decreases |levels|
  {
    var used := RMin(levels[0], amount);
    if amount <= levels[0] {
      DrainNothing(levels[1..]);
    } else if i > 0 {
      DrainsInOrder(levels[1..], caps[1..], amount - used, i - 1, j - 1);
    }
  }

  lemma {:induction false} DrainNothing(levels: seq<real>)
    requires forall i :: 0 <= i < |levels| ==> levels[i] >= 0.0
    ensures Drain(levels, 0.0) == levels
    decreases |levels|
  {
    if levels != [] { DrainNothing(levels[1..]); }
  }

  /** Filling accepts exactly min(amount, all the space) and keeps every level in bounds. */
  lemma {:induction false} FillCounts(levels: seq<real>, caps: seq<real>, amount: real)
    requires Within(levels, caps) && amount >= 0.0
    ensures Within(Fill(levels, caps, amount), caps)
    ensures Sum(Fill(levels, caps, amount)) == Sum(levels) + RMin(amount, Sum(caps) - Sum(levels))
    decreases |levels|
  {
    if levels != [] {
      var added := RMin(RMax(0.0, caps[0] - levels[0]), amount);
      FillCounts(levels[1..], caps[1..], amount - added);
      SumBounds(levels[1..], caps[1..]);
    }
  }

  /** A later level goes up only once every earlier one is full. */
  lemma {:induction false} FillsInOrder(levels: seq<real>, caps: seq<real>, amount: real, i: nat, j: nat)
    requires Within(levels, caps) && amount >= 0.0 && i < j < |levels|
    requires Fill(levels, caps, amount)[j] > levels[j]
    ensures Fill(levels, caps, amount)[i] == caps[i]
    decreases |levels|
  {
    var added := RMin(RMax(0.0, caps[0] - levels[0]), amount);
    if amount <= caps[0] - levels[0] {
      FillNothing(levels[1..], caps[1..]);
    } else if i > 0 {
      FillsInOrder(levels[1..], caps[1..], amount - added, i - 1, j - 1);
    }
  }

  lemma {:induction false} FillNothing(levels: seq<real>, caps: seq<real>)
    requires Within(levels, caps)
    ensures Fill(levels, caps, 0.0) == levels
    decreases |levels|
  {
    if levels != [] { FillNothing(levels[1..], caps[1..]); }
  }

  /** What a reader of fuel counts: each level cut to its own bounds. */
  function Clamped(levels: seq<real>, caps: seq<real>): (c: seq<real>)
    requires |levels| == |caps|
  {
    seq(|levels|, i requires 0 <= i < |levels| => Clamp(levels[i], 0.0, caps[i]))
  }

  /** The redistribution done on loading a save: the same fuel, in the first tanks first. */
  function Normalized(levels: seq<real>, caps: seq<real>): (c: seq<real>)
    requires |levels| == |caps|
  {
    Fill(Zeros(|levels|), caps, Clamp(Sum(Clamped(levels, caps)), 0.0, Sum(caps)))
  }

  predicate NonNegative(caps: seq<real>) { forall i :: 0 <= i < |caps| ==> caps[i] >= 0.0 }

  lemma WithinAt(levels: seq<real>, caps: seq<real>, i: nat)
    requires Within(levels, caps) && i < |levels|
    ensures 0.0 <= levels[i] <= caps[i]
  {}

  lemma ClampedWithin(levels: seq<real>, caps: seq<real>)
    requires Within(levels, caps)
    ensures Clamped(levels, caps) == levels
  {}

  /** Loading keeps the total even though it moves fuel between tanks, whatever was stored, and
      loading what was loaded changes nothing. */
  lemma NormalizedKeepsFuel(levels: seq<real>, caps: seq<real>)
    requires |levels| == |caps| && NonNegative(caps)
    ensures Within(Normalized(levels, caps), caps)
    ensures Sum(Normalized(levels, caps)) == Sum(Clamped(levels, caps))
    ensures Normalized(Normalized(levels, caps), caps) == Normalized(levels, caps)
  {
    var after := Normalized(levels, caps);
    assert Within(Clamped(levels, caps), caps);
    SumBounds(Clamped(levels, caps), caps);
    ZerosWithin(caps);
    FillCounts(Zeros(|caps|), caps, Sum(Clamped(levels, caps)));
    assert Clamped(after, caps) == after;
  }

  lemma {:induction false} ZerosWithin(caps: seq<real>)
    requires NonNegative(caps)
    ensures Within(Zeros(|caps|), caps) && Sum(Zeros(|caps|)) == 0.0
    decreases |caps|
  {
    if caps != [] {
      ZerosWithin(caps[1..]);
      assert Zeros(|caps|)[1..] == Zeros(|caps| - 1);
    }
  }

  /** No later tank holds a drop while an earlier one has room. */
  lemma NormalizedInOrder(levels: seq<real>, caps: seq<real>, i: nat, j: nat)
    requires |levels| == |caps| && NonNegative(caps) && i < j < |caps| && Normalized(levels, caps)[j] > 0.0
    ensures Normalized(levels, caps)[i] == caps[i]
  {
    assert Within(Clamped(levels, caps), caps);
    SumBounds(Clamped(levels, caps), caps);
    ZerosWithin(caps);
    FillsInOrder(Zeros(|caps|), caps, Clamp(Sum(Clamped(levels, caps)), 0.0, Sum(caps)), i, j);
  }

  /** Burning never fills a level, and filling never empties one. */
  lemma OneWayOnly(levels: seq<real>, caps: seq<real>, amount: real, i: nat)
    requires Within(levels, caps) && amount >= 0.0 && i < |levels|
    ensures Drain(levels, amount)[i] <= levels[i] <= Fill(levels, caps, amount)[i]
  {
    OneWayBurns(levels, caps, amount, i);
    OneWayFills(levels, caps, amount, i);
  }

  lemma {:induction false} OneWayBurns(levels: seq<real>, caps: seq<real>, amount: real, i: nat)
    requires Within(levels, caps) && amount >= 0.0 && i < |levels|
    ensures Drain(levels, amount)[i] <= levels[i]
    decreases |levels|
  {
    if i > 0 { OneWayBurns(levels[1..], caps[1..], amount - RMin(levels[0], amount), i - 1); }
  }

  lemma {:induction false} OneWayFills(levels: seq<real>, caps: seq<real>, amount: real, i: nat)
    requires Within(levels, caps) && amount >= 0.0 && i < |levels|
    ensures levels[i] <= Fill(levels, caps, amount)[i]
    decreases |levels|
  {
    if i > 0 { OneWayFills(levels[1..], caps[1..], amount - RMin(RMax(0.0, caps[0] - levels[0]), amount), i - 1); }
  }

  datatype FuelOp = BurnUpTo(amount: real) | AddUpTo(amount: real) | Load

  function After(levels: seq<real>, caps: seq<real>, op: FuelOp): (after: seq<real>)
    requires |levels| == |caps|
    ensures |after| == |levels|
  {
    match op
    case BurnUpTo(x) => if x > 0.0 then Drain(levels, x) else levels
    case AddUpTo(x) => if x > 0.0 then Fill(levels, caps, x) else levels
    case Load => Normalized(levels, caps)
  }

  function AfterAll(levels: seq<real>, caps: seq<real>, ops: seq<FuelOp>): (after: seq<real>)
    requires |levels| == |caps|
    ensures |after| == |levels|
    decreases |ops|
  {
    if ops == [] then levels else AfterAll(After(levels, caps, ops[0]), caps, ops[1..])
  }

  /** One counter between empty and capacity. */
  function Counter(total: real, capacity: real, ops: seq<FuelOp>): real
    decreases |ops|
  {
    if ops == [] then total
    else match ops[0]
      case BurnUpTo(x) => Counter(RMax(0.0, total - RMax(0.0, x)), capacity, ops[1..])
      case AddUpTo(x) => Counter(RMin(capacity, total + RMax(0.0, x)), capacity, ops[1..])
      case Load => Counter(total, capacity, ops[1..])
  }

  /** Over any run of burns, refuels and reloads, many tanks behave as one bounded counter. */
  lemma {:induction false} ManyTanksAreOneCounter(levels: seq<real>, caps: seq<real>, ops: seq<FuelOp>)
    requires Within(levels, caps)
    ensures Within(AfterAll(levels, caps, ops), caps)
    ensures Sum(AfterAll(levels, caps, ops)) == Counter(Sum(levels), Sum(caps), ops)
    decreases |ops|
  {
    if ops != [] {
      SumBounds(levels, caps);
      match ops[0] {
        case BurnUpTo(x) => if x > 0.0 { DrainCounts(levels, caps, x); }
        case AddUpTo(x) => if x > 0.0 { FillCounts(levels, caps, x); }
        case Load => NormalizedKeepsFuel(levels, caps); ClampedWithin(levels, caps);
      }
      ManyTanksAreOneCounter(After(levels, caps, ops[0]), caps, ops[1..]);
    }
  }

  // ---------------------------------------------------------------- the ship

  datatype Item = FuelTank | Other

  class SlotDevice {
    const item: Item
    const grade: nat
    var fuel: real

    constructor (item: Item, grade: nat, fuel: real)
      ensures this.item == item && this.grade == grade && this.fuel == fuel
    {
      this.item, this.grade, this.fuel := item, grade, fuel;
    }
  }

  predicate IsTank(d: SlotDevice?) { d != null && d.item == FuelTank }

  class Ship {
    const startFuel: real     // the hull reserve's capacity
    const tankPerGrade: real
    var baseFuel: real
    var utility: seq<SlotDevice?>
    var mirror: real          // the pilot's cached fuel figure
    var credits: int
    var spent: int

    constructor (startFuel: real, tankPerGrade: real, utility: seq<SlotDevice?>)
      requires startFuel > 0.0 && tankPerGrade >= 0.0
      requires forall i, j :: 0 <= i < j < |utility| && utility[i] != null ==> utility[i] != utility[j]
      ensures this.startFuel == startFuel && this.tankPerGrade == tankPerGrade && this.utility == utility
      ensures baseFuel == startFuel
    {
      this.startFuel, this.tankPerGrade, this.utility := startFuel, tankPerGrade, utility;
      baseFuel, mirror, credits, spent := startFuel, 0.0, 0, 0;
    }

    function Capacity(d: SlotDevice?): real {
      if IsTank(d) then tankPerGrade * (d.grade + 1) as real else 0.0
    }

    function Level(d: SlotDevice?): real
      reads d
    {
      if IsTank(d) then d.fuel else 0.0
    }

    /** The tank levels in slot order, then the base reserve. */
    ghost function Levels(): (l: seq<real>)
      reads this`baseFuel, this`utility, utility
      ensures |l| == |utility| + 1
    {
      var slots := utility;
      seq(|slots|, i requires 0 <= i < |slots| reads slots => Level(slots[i])) + [baseFuel]
    }

    ghost function Caps(): (c: seq<real>)
      reads this`utility
      ensures |c| == |utility| + 1
    {
      var slots := utility;
      seq(|slots|, i requires 0 <= i < |slots| => Capacity(slots[i])) + [startFuel]
    }

    /** No device sits in two slots. */
    ghost predicate Distinct()
      reads this`utility
    {
      forall i, j :: 0 <= i < j < |utility| && utility[i] != null ==> utility[i] != utility[j]
    }

    ghost predicate Valid()
      reads this, utility
    {
      && startFuel > 0.0 && tankPerGrade >= 0.0 && Distinct()
      && Within(Levels(), Caps())
      && mirror == Sum(Levels())
    }

    /** The clamped total that every reader of fuel adds up. */
    method FuelAmount() returns (total: real)
      ensures total == Sum(Clamped(Levels(), Caps()))
    {
      total := Clamp(baseFuel, 0.0, startFuel);
      var n := |utility|;
      ghost var all := Clamped(Levels(), Caps());
      SumAppend(all[..n], total);
      assert all == all[..n] + [total];
      for i := 0 to n
        invariant total == all[n] + Sum(all[..i])
      {
        var d := utility[i];
        SumAppend(all[..i], all[i]);
        assert all[..i + 1] == all[..i] + [all[i]];
        if IsTank(d) {
          total := total + Clamp(d.fuel, 0.0, Capacity(d));
        }
      }
    }

    /** Cuts every level to its bounds and copies the total into the mirror. */
    method SyncMirror()
      requires startFuel > 0.0 && tankPerGrade >= 0.0 && Distinct()
      modifies this`baseFuel, this`mirror, utility
      ensures Valid() && Levels() == Clamped(old(Levels()), Caps())
    {
      hide Sum, Clamped, NonNegative;
      ClampLevels();
      ClampedWithin(Levels(), Caps());
      mirror := FuelAmount();
    }

    method ClampLevels()
      requires startFuel > 0.0 && tankPerGrade >= 0.0 && Distinct()
      modifies this`baseFuel, utility
      ensures Levels() == Clamped(old(Levels()), Caps()) && Within(Levels(), Caps()) && Distinct()
    {
      ghost var levels, caps := Levels(), Caps();
      assert NonNegative(caps);
      hide NonNegative, Clamping, Clamp, Within;
      ClampTanks();
      ClampStep(levels, caps, Levels(), |utility|);
      ClampBase();
      ClampEnds(levels, caps, Levels());
    }

    method ClampTanks()
      requires tankPerGrade >= 0.0 && Distinct()
      modifies utility
      ensures Clamping(old(Levels()), Caps(), Levels(), |utility|)
    {
      ghost var levels, caps := Levels(), Caps();
      ClampStart(levels, caps);
      for i := 0 to |utility|
        invariant Clamping(levels, caps, Levels(), i)
      {
        ClampStep(levels, caps, Levels(), i);
        hide Clamping, Clamp;
        ClampSlot(i);
      }
    }

    method ClampBase()
      modifies this`baseFuel
      ensures var n := |utility|; Levels() == old(Levels())[n := Clamp(old(Levels())[n], 0.0, Caps()[n])]
    {
      baseFuel := Clamp(baseFuel, 0.0, startFuel);
    }

    method ClampSlot(i: nat)
      requires i < |utility| && Distinct() && tankPerGrade >= 0.0
      modifies utility
      ensures Levels() == old(Levels())[i := Clamp(old(Levels())[i], 0.0, Caps()[i])]
    {
      var d := utility[i];
      assert Levels()[i] == Level(d) && Caps()[i] == Capacity(d);
      if IsTank(d) {
        d.fuel := Clamp(d.fuel, 0.0, Capacity(d));
      }
    }

    /** Burns from one slot, and returns what is still to be burnt. */
    method BurnSlot(i: nat, remaining: real) returns (left: real)
      requires i < |utility| && Distinct() && remaining >= 0.0 && Level(utility[i]) >= 0.0
      modifies utility
      ensures var u := RMin(old(Levels())[i], remaining); Levels() == old(Levels())[i := old(Levels())[i] - u] && left == remaining - u
    {
      var d := utility[i];
      assert Levels()[i] == Level(d);
      if !IsTank(d) || remaining <= 0.0 { return remaining; }
      var u := RMin(d.fuel, remaining);
      d.fuel := d.fuel - u;
      return remaining - u;
    }

    /** Burns from the tanks in slot order, and returns what is left for the base reserve. */
    method BurnTanks(amount: real) returns (remaining: real)
      requires Distinct() && Within(Levels(), Caps()) && amount >= 0.0
      modifies utility
      ensures Draining(old(Levels()), amount, Levels(), |utility|, remaining)
    {
      hide Draining, Drain, Sum, Within;
      remaining := amount;
      ghost var levels, caps := Levels(), Caps();
      DrainStart(levels, amount);
      for i := 0 to |utility|
        invariant Draining(levels, amount, Levels(), i, remaining)
      {
        DrainStep(levels, amount, Levels(), i, remaining);
        WithinAt(levels, caps, i);
        assert Level(utility[i]) == Levels()[i];
        remaining := BurnSlot(i, remaining);
      }
    }

    method BurnBase(remaining: real) returns (left: real)
      modifies this`baseFuel
      ensures var n := |utility|; var u := RMin(old(Levels())[n], remaining);
              Levels() == old(Levels())[n := old(Levels())[n] - u] && left == remaining - u
    {
      var u := RMin(baseFuel, remaining);
      baseFuel := baseFuel - u;
      return remaining - u;
    }

    /** Burns from the tanks and then from the base reserve. */
    method Burn(amount: real) returns (used: real)
      requires Valid() && amount > 0.0
      modifies this`baseFuel, utility
      ensures Distinct() && Within(Levels(), Caps())
      ensures Levels() == Drain(old(Levels()), amount)
      ensures used == RMin(amount, old(Sum(Levels())))
    {
      ghost var levels := Levels();
      hide Draining, Drain, Sum, Within;
      var remaining := BurnTanks(amount);
      Drained(levels, Caps(), amount, Levels(), |utility|, remaining);
      remaining := BurnBase(remaining);
      return amount - remaining;
    }

    /** Burns up to amount, tanks first in slot order, and returns what was burnt. */
    method ConsumeFuel(amount: real) returns (used: real)
      requires Valid()
      modifies this`baseFuel, this`mirror, utility
      ensures Valid()
      ensures Levels() == if amount > 0.0 then Drain(old(Levels()), amount) else old(Levels())
      ensures used == if amount > 0.0 then RMin(amount, old(Sum(Levels()))) else 0.0
    {
      used := 0.0;
      if amount > 0.0 {
        used := Burn(amount);
        ClampedWithin(Levels(), Caps());
        hide Drain, Sum, Within;
        SyncMirror();
      }
    }

    /** Pours into one slot, and returns what is still to be poured. */
    method PourSlot(i: nat, remaining: real) returns (left: real)
      requires i < |utility| && Distinct() && remaining >= 0.0 && Level(utility[i]) <= Capacity(utility[i])
      modifies utility
      ensures var u := RMin(RMax(0.0, Caps()[i] - old(Levels())[i]), remaining);
              Levels() == old(Levels())[i := old(Levels())[i] + u] && left == remaining - u
    {
      var d := utility[i];
      assert Levels()[i] == Level(d) && Caps()[i] == Capacity(d);
      if !IsTank(d) || remaining <= 0.0 { return remaining; }
      var added := RMin(RMax(0.0, Capacity(d) - d.fuel), remaining);
      d.fuel := d.fuel + added;
      return remaining - added;
    }

    /** Pours into the tanks in slot order, and returns what is left for the base reserve. */
    method PourTanks(amount: real) returns (remaining: real)
      requires Distinct() && Within(Levels(), Caps()) && amount >= 0.0
      modifies utility
      ensures Filling(old(Levels()), Caps(), amount, Levels(), |utility|, remaining)
    {
      hide Filling, Fill, Sum, Within;
      remaining := amount;
      ghost var levels, caps := Levels(), Caps();
      FillStart(levels, caps, amount);
      for i := 0 to |utility|
        invariant Filling(levels, caps, amount, Levels(), i, remaining)
      {
        FillStep(levels, caps, amount, Levels(), i, remaining);
        WithinAt(levels, caps, i);
        assert Level(utility[i]) == Levels()[i] && caps[i] == Capacity(utility[i]);
        remaining := PourSlot(i, remaining);
      }
    }

    method PourBase(remaining: real) returns (left: real)
      modifies this`baseFuel
      ensures var n := |utility|; var u := RMin(RMax(0.0, Caps()[n] - old(Levels())[n]), remaining);
              Levels() == old(Levels())[n := old(Levels())[n] + u] && left == remaining - u
    {
      var added := RMin(RMax(0.0, startFuel - baseFuel), remaining);
      baseFuel := baseFuel + added;
      return remaining - added;
    }

    /** Pours into the tanks and then into the base reserve. */
    method Pour(amount: real) returns (accepted: real)
      requires Valid() && amount > 0.0
      modifies this`baseFuel, utility
      ensures Distinct() && Within(Levels(), Caps())
      ensures Levels() == Fill(old(Levels()), Caps(), amount)
      ensures accepted == RMin(amount, Sum(Caps()) - old(Sum(Levels())))
    {
      ghost var levels, caps := Levels(), Caps();
      hide Filling, Fill, Sum, Within;
      var remaining := PourTanks(amount);
      Filled(levels, caps, amount, Levels(), |utility|, remaining);
      remaining := PourBase(remaining);
      return amount - remaining;
    }

    /** Pours up to amount in, tanks first in slot order, and returns what was accepted. */
    method AddFuel(amount: real) returns (accepted: real)
      requires Valid()
      modifies this`baseFuel, this`mirror, utility
      ensures Valid()
      ensures Levels() == if amount > 0.0 then Fill(old(Levels()), Caps(), amount) else old(Levels())
      ensures accepted == if amount > 0.0 then RMin(amount, Sum(Caps()) - old(Sum(Levels()))) else 0.0
    {
      accepted := 0.0;
      if amount > 0.0 {
        accepted := Pour(amount);
        ClampedWithin(Levels(), Caps());
        hide Fill, Sum, Within;
        SyncMirror();
      }
    }

    /** Sets one tank from what is left to hand out. */
    method SetSlot(i: nat, remaining: real) returns (left: real)
      requires i < |utility| && Distinct() && tankPerGrade >= 0.0 && remaining >= 0.0
      modifies utility
      ensures var u := RMin(Caps()[i], remaining); Levels() == old(Levels())[i := u] && left == remaining - u
    {
      var d := utility[i];
      assert Levels()[i] == Level(d) && Caps()[i] == Capacity(d);
      if !IsTank(d) { return remaining; }
      d.fuel := RMin(Capacity(d), remaining);
      return remaining - d.fuel;
    }

    method SetBase(remaining: real)
      requires startFuel > 0.0 && remaining >= 0.0
      modifies this`baseFuel
      ensures var n := |utility|; Levels() == old(Levels())[n := RMin(Caps()[n], remaining)]
    {
      baseFuel := Clamp(remaining, 0.0, startFuel);
    }

    method SetTanks(total: real) returns (remaining: real)
      requires startFuel > 0.0 && tankPerGrade >= 0.0 && Distinct() && total >= 0.0
      modifies utility
      ensures Setting(Caps(), total, Levels(), |utility|, remaining)
    {
      remaining := total;
      ghost var caps := Caps();
      SettingStart(caps, total, Levels());
      for i := 0 to |utility|
        invariant Setting(caps, total, Levels(), i, remaining)
      {
        SettingStep(caps, total, Levels(), i, remaining);
        hide Setting, Fill, Sum;
        remaining := SetSlot(i, remaining);
      }
    }

    /** Hands out amount afresh, the first tanks first, whatever the levels were. */
    method SetFuel(amount: real)
      requires startFuel > 0.0 && tankPerGrade >= 0.0 && Distinct()
      modifies this`baseFuel, utility
      ensures Levels() == Fill(Zeros(|utility| + 1), Caps(), Clamp(amount, 0.0, Sum(Caps())))
    {
      SumBounds(Caps(), Caps());
      hide Setting, Fill, Sum;
      var capacity := FuelCapacity();
      ghost var total := Clamp(amount, 0.0, capacity);
      var remaining := SetTanks(Clamp(amount, 0.0, capacity));
      SettingStep(Caps(), total, Levels(), |utility|, remaining);
      SetBase(remaining);
    }

    method FuelCapacity() returns (capacity: real)
      ensures capacity == Sum(Caps())
    {
      capacity := startFuel;
      var n := |utility|;
      ghost var caps := Caps();
      SumAppend(caps[..n], startFuel);
      assert caps == caps[..n] + [startFuel];
      for i := 0 to n
        invariant capacity == startFuel + Sum(caps[..i])
      {
        SumAppend(caps[..i], caps[i]);
        assert caps[..i + 1] == caps[..i] + [caps[i]];
        capacity := capacity + Capacity(utility[i]);
      }
    }

    /** What loading a save does to a ship. */
    method Normalize()
      requires startFuel > 0.0 && tankPerGrade >= 0.0 && Distinct()
      modifies this`baseFuel, utility
      ensures Levels() == Normalized(old(Levels()), Caps())
    {
      var total := FuelAmount();
      SetFuel(total);
    }

    /** Buys whole points of fuel, as many as are needed and affordable. */
    method Refuel(docked: bool, rate: nat) returns (outcome: Refuelled)
      requires Valid() && rate > 0
      modifies this`baseFuel, this`mirror, this`credits, this`spent, utility
      ensures Valid()
      ensures outcome == RefuelOutcome(docked, Sum(Caps()) - old(Sum(Levels())), old(credits), rate)
      ensures outcome.Bought? ==> credits == old(credits) - outcome.points * rate && spent == old(spent) + outcome.points * rate
      ensures outcome.Bought? ==> Levels() == Fill(old(Levels()), Caps(), outcome.points as real)
      ensures !outcome.Bought? ==> credits == old(credits) && spent == old(spent) && Levels() == old(Levels())
    {
      hide Fill, Sum, Within, PointsNeeded;
      if !docked { return InBelt; }
      var tank := FuelCapacity();
      if mirror >= tank { return AlreadyFull; }
      if credits <= 0 { return InsufficientFunds; }
      var needed := PointsNeeded(tank - mirror);
      if needed <= 0 { return AlreadyFull; }
      var points := Min(credits / rate, needed);
      if points <= 0 { return InsufficientFunds; }
      credits := credits - points * rate;
      spent := spent + points * rate;
      var _ := AddFuel(points as real);
      return Bought(points);
    }
  }

  const EPSILON: real := 0.000001

  datatype Refuelled = Bought(points: nat) | InBelt | AlreadyFull | InsufficientFunds

  /** Whole points that cover a shortfall, ignoring a shortfall too small to see. */
  function PointsNeeded(missing: real): int {
    if missing <= EPSILON then 0 else Ceil(missing - EPSILON)
  }

  function RefuelCost(missing: real, rate: nat): int { PointsNeeded(missing) * rate }

  function RefuelOutcome(docked: bool, missing: real, credits: int, rate: nat): Refuelled
    requires rate > 0
  {
    if !docked then InBelt
    else if missing <= 0.0 then AlreadyFull
    else if credits <= 0 then InsufficientFunds
    else if PointsNeeded(missing) <= 0 then AlreadyFull
    else if credits < rate then InsufficientFunds
    else Bought(Min(credits / rate, PointsNeeded(missing)))
  }

  /** A refuel never overdraws; with the whole price in hand it leaves nothing more to buy, and
      otherwise it stops only when not one more point can be paid. */
  lemma RefuelTopsOff(levels: seq<real>, caps: seq<real>, credits: int, rate: nat)
    requires Within(levels, caps) && rate > 0
    requires RefuelOutcome(true, Sum(caps) - Sum(levels), credits, rate).Bought?
    ensures var missing := Sum(caps) - Sum(levels);
            var points := RefuelOutcome(true, missing, credits, rate).points;
            var after := Sum(caps) - Sum(Fill(levels, caps, points as real));
            && 0.0 <= after && credits - points * rate >= 0
            && (credits >= RefuelCost(missing, rate) ==> RefuelCost(after, rate) == 0)
            && (credits < RefuelCost(missing, rate) ==> credits - points * rate < rate)
  {
    var missing := Sum(caps) - Sum(levels);
    var needed := PointsNeeded(missing);
    var points := Min(credits / rate, needed);
    FillCounts(levels, caps, points as real);
    if credits >= needed * rate {
      QuotientAtLeast(credits, rate, needed);
    } else {
      QuotientBelow(credits, rate, needed);
    }
  }

  /** A refuel sells whole points, never one that is not missing and never one that is not paid, and leaves off
      only when nothing is missing that can be seen or nothing more can be paid. */
  lemma RefuelSellsWhatIsMissing(docked: bool, missing: real, credits: int, rate: nat)
    requires rate > 0
    ensures var outcome := RefuelOutcome(docked, missing, credits, rate);
            && (outcome.Bought? <==> docked && missing > EPSILON && credits >= rate)
            && (outcome.InBelt? <==> !docked)
            && (outcome.InsufficientFunds? <==> docked && missing > 0.0 && (credits <= 0 || (missing > EPSILON && credits < rate)))
            && (outcome.Bought? ==>
                  && 1 <= outcome.points && (outcome.points - 1) as real < missing - EPSILON && outcome.points * rate <= credits
                  && (missing - outcome.points as real <= EPSILON || credits - outcome.points * rate < rate))
  {
    if docked && missing > EPSILON && credits >= rate {
      var needed := PointsNeeded(missing);
      assert (needed - 1) as real < missing - EPSILON <= needed as real;
      if credits >= needed * rate {
        QuotientAtLeast(credits, rate, needed);
        assert needed * rate <= credits;
      } else {
        QuotientBelow(credits, rate, needed);
        WholePrices(credits, rate);
      }
    }
  }

  lemma WholePrices(credits: int, rate: nat)
    requires rate > 0 && credits >= rate
    ensures 1 <= credits / rate && (credits / rate) * rate <= credits < (credits / rate) * rate + rate
  {
    QuotientAtLeast(credits, rate, 1);
  }

  lemma QuotientAtLeast(a: int, b: int, n: int)
    requires b > 0 && a >= n * b
    ensures a / b >= n
  {
    var q := a / b;
    assert n * b < (q + 1) * b;
    assert n < q + 1;
  }

  lemma QuotientBelow(a: int, b: int, n: int)
    requires b > 0 && a < n * b
    ensures a / b < n
  {
    var q := a / b;
    assert q * b < n * b;
  }

  ghost predicate Clamping(levels: seq<real>, caps: seq<real>, now: seq<real>, i: nat) {
    |now| == |levels| == |caps| && i <= |levels| && now == Clamped(levels, caps)[..i] + levels[i..]
  }

  lemma ClampStart(levels: seq<real>, caps: seq<real>)
    requires |levels| == |caps|
    ensures Clamping(levels, caps, levels, 0)
  {}

  lemma ClampStep(levels: seq<real>, caps: seq<real>, now: seq<real>, i: nat)
    requires Clamping(levels, caps, now, i) && i < |levels|
    ensures Clamping(levels, caps, now[i := Clamp(now[i], 0.0, caps[i])], i + 1)
  {
    var all := Clamped(levels, caps);
    assert all[..i + 1] == all[..i] + [all[i]];
    assert levels[i..] == [levels[i]] + levels[i + 1..];
  }

  lemma ClampEnds(levels: seq<real>, caps: seq<real>, now: seq<real>)
    requires Clamping(levels, caps, now, |levels|) && NonNegative(caps)
    ensures now == Clamped(levels, caps) == Clamped(now, caps) && Within(now, caps)
  {}

  /** How far a walk over the slots has drained: the first i levels are final. */
  ghost predicate Draining(levels: seq<real>, amount: real, now: seq<real>, i: nat, remaining: real) {
    && |now| == |levels| && i <= |levels| && remaining >= 0.0
    && now[i..] == levels[i..]
    && Drain(levels, amount) == now[..i] + Drain(levels[i..], remaining)
    && Sum(levels) - Sum(now) == amount - remaining
  }

  lemma DrainStart(levels: seq<real>, amount: real)
    requires amount >= 0.0
    ensures Draining(levels, amount, levels, 0, amount)
  {
    assert levels[..0] == [] && levels[0..] == levels;
  }

  lemma DrainStep(levels: seq<real>, amount: real, now: seq<real>, i: nat, remaining: real)
    requires Draining(levels, amount, now, i, remaining) && i < |levels|
    ensures var u := RMin(now[i], remaining);
            remaining >= 0.0 && now[i] == levels[i] && Draining(levels, amount, now[i := now[i] - u], i + 1, remaining - u)
  {
    var u := RMin(levels[i], remaining);
    assert now[i..][0] == now[i] && levels[i..][0] == levels[i];
    assert levels[i..][1..] == levels[i + 1..] && now[i..][1..] == now[i + 1..];
    var next := now[i := now[i] - u];
    assert next[..i + 1] == now[..i] + [levels[i] - u];
    SumUpdate(now, i, now[i] - u);
  }

  /** After the last level, a walk has drained everything. */
  lemma Drained(levels: seq<real>, caps: seq<real>, amount: real, now: seq<real>, i: nat, remaining: real)
    requires Within(levels, caps) && amount >= 0.0 && i + 1 == |levels| && Draining(levels, amount, now, i, remaining)
    ensures var used := RMin(now[i], remaining); var last := now[i := now[i] - used];
            && last == Drain(levels, amount) && Within(last, caps)
            && amount - (remaining - used) == RMin(amount, Sum(levels))
  {
    DrainStep(levels, amount, now, i, remaining);
    DrainCounts(levels, caps, amount);
    var last := now[i := now[i] - RMin(now[i], remaining)];
    assert levels[|levels|..] == [] && last[..|levels|] == last;
  }

  ghost predicate Filling(levels: seq<real>, caps: seq<real>, amount: real, now: seq<real>, i: nat, remaining: real) {
    && |now| == |levels| == |caps| && i <= |levels| && remaining >= 0.0
    && now[i..] == levels[i..]
    && Fill(levels, caps, amount) == now[..i] + Fill(levels[i..], caps[i..], remaining)
    && Sum(now) - Sum(levels) == amount - remaining
  }

  lemma FillStart(levels: seq<real>, caps: seq<real>, amount: real)
    requires amount >= 0.0 && |levels| == |caps|
    ensures Filling(levels, caps, amount, levels, 0, amount)
  {
    assert levels[..0] == [] && levels[0..] == levels && caps[0..] == caps;
  }

  lemma FillStep(levels: seq<real>, caps: seq<real>, amount: real, now: seq<real>, i: nat, remaining: real)
    requires Filling(levels, caps, amount, now, i, remaining) && i < |levels|
    ensures var added := RMin(RMax(0.0, caps[i] - now[i]), remaining);
            remaining >= 0.0 && now[i] == levels[i] && Filling(levels, caps, amount, now[i := now[i] + added], i + 1, remaining - added)
  {
    var added := RMin(RMax(0.0, caps[i] - levels[i]), remaining);
    assert now[i..][0] == now[i] && levels[i..][0] == levels[i] && caps[i..][0] == caps[i];
    assert levels[i..][1..] == levels[i + 1..] && now[i..][1..] == now[i + 1..] && caps[i..][1..] == caps[i + 1..];
    var next := now[i := now[i] + added];
    assert next[..i + 1] == now[..i] + [levels[i] + added];
    SumUpdate(now, i, now[i] + added);
  }

  /** After the last level, a walk has filled everything. */
  lemma Filled(levels: seq<real>, caps: seq<real>, amount: real, now: seq<real>, i: nat, remaining: real)
    requires Within(levels, caps) && amount >= 0.0 && i + 1 == |levels| && Filling(levels, caps, amount, now, i, remaining)
    ensures var added := RMin(RMax(0.0, caps[i] - now[i]), remaining); var last := now[i := now[i] + added];
            && last == Fill(levels, caps, amount) && Within(last, caps)
            && amount - (remaining - added) == RMin(amount, Sum(caps) - Sum(levels))
  {
    FillStep(levels, caps, amount, now, i, remaining);
    FillCounts(levels, caps, amount);
    var last := now[i := now[i] + RMin(RMax(0.0, caps[i] - now[i]), remaining)];
    assert levels[|levels|..] == [] && last[..|levels|] == last;
  }

  /** How far a hand-out has come: the first i levels are final. */
  ghost predicate Setting(caps: seq<real>, total: real, now: seq<real>, i: nat, remaining: real) {
    && |now| == |caps| && i <= |caps| && remaining >= 0.0 && NonNegative(caps)
    && Fill(Zeros(|caps|), caps, total) == now[..i] + Fill(Zeros(|caps| - i), caps[i..], remaining)
  }

  lemma SettingStart(caps: seq<real>, total: real, now: seq<real>)
    requires |now| == |caps| && NonNegative(caps) && total >= 0.0
    ensures Setting(caps, total, now, 0, total)
  {
    assert caps[0..] == caps && now[..0] == [];
  }

  lemma SettingStep(caps: seq<real>, total: real, now: seq<real>, i: nat, remaining: real)
    requires Setting(caps, total, now, i, remaining) && i < |caps|
    ensures var u := RMin(caps[i], remaining); Setting(caps, total, now[i := u], i + 1, remaining - u) && remaining >= 0.0
    ensures i + 1 == |caps| ==> now[i := RMin(caps[i], remaining)] == Fill(Zeros(|caps|), caps, total)
  {
    var u := RMin(caps[i], remaining);
    assert Zeros(|caps| - i)[1..] == Zeros(|caps| - i - 1);
    assert caps[i..][0] == caps[i] && caps[i..][1..] == caps[i + 1..];
    assert now[i := u][..i + 1] == now[..i] + [u];
  }

  lemma {:induction false} SumUpdate(xs: seq<real>, i: nat, v: real)
    requires i < |xs|
    ensures Sum(xs[i := v]) == Sum(xs) - xs[i] + v
    decreases |xs|
  {
    if i > 0 {
      SumUpdate(xs[1..], i - 1, v);
      assert xs[i := v][1..] == xs[1..][i - 1 := v];
    } else {
      assert xs[i := v][1..] == xs[1..];
    }
  }

  lemma {:induction false} SumAppend(xs: seq<real>, x: real)
    ensures Sum(xs + [x]) == Sum(xs) + x
    decreases |xs|
  {
    if xs != [] {
      SumAppend(xs[1..], x);
      assert (xs + [x])[1..] == xs[1..] + [x];
    }
  }
}
