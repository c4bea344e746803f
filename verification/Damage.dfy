/** Damage to a ship: a shield that soaks up attacks, a hull in whole points, and the fraction of a
    point carried from tick to tick. */
module Damage {
  import opened Numbers

  datatype Armor = Armor(shield: real, burst: bool, hull: int, carry: real)

  datatype Hit = Attack(amount: real) | Direct(amount: real)

  predicate Sound(a: Armor) { a.shield >= 0.0 && a.hull >= 0 && 0.0 <= a.carry < 1.0 }

  function HullHit(a: Armor, amount: real): Armor {
    if amount <= 0.0 then a
    else
      var carry := a.carry + amount;
      // Truncation, as the carry is never negative.
      var whole := carry.Floor;
      if whole > 0 then a.(hull := Max(0, a.hull - whole), carry := carry - whole as real)
      else a.(carry := carry)
  }

  function AttackHit(a: Armor, amount: real): Armor {
    if amount <= 0.0 then a
    else
      var absorbed := if a.shield > 0.0 then RMin(a.shield, amount) else 0.0;
      HullHit(a.(shield := a.shield - absorbed, burst := a.burst || (a.shield > 0.0 && absorbed == a.shield)),
              amount - absorbed)
  }

  function Struck(a: Armor, hit: Hit): Armor {
    match hit
    case Attack(amount) => AttackHit(a, amount)
    case Direct(amount) => HullHit(a, amount)
  }

  function StruckAll(a: Armor, hits: seq<Hit>): Armor
    decreases |hits|
  {
    if hits == [] then a else StruckAll(Struck(a, hits[0]), hits[1..])
  }

  function Attacks(hits: seq<Hit>): real
    decreases |hits|
  {
    if hits == [] then 0.0
    else (if hits[0].Attack? then RMax(0.0, hits[0].amount) else 0.0) + Attacks(hits[1..])
  }

  function Directs(hits: seq<Hit>): real
    decreases |hits|
  {
    if hits == [] then 0.0
    else (if hits[0].Direct? then RMax(0.0, hits[0].amount) else 0.0) + Directs(hits[1..])
  }

  /** One blow that delivers all attacks and all direct damage at once. */
  function Settled(a: Armor, attacks: real, directs: real): Armor {
    var spill := RMax(0.0, attacks - a.shield);
    var whole := (a.carry + directs + spill).Floor;
    Armor(RMax(0.0, a.shield - attacks), a.burst || (a.shield > 0.0 && attacks >= a.shield),
          Max(0, a.hull - whole), a.carry + directs + spill - whole as real)
  }

  lemma {:induction false} TotalsNonNegative(hits: seq<Hit>)
    ensures Attacks(hits) >= 0.0 && Directs(hits) >= 0.0
    decreases |hits|
  {
    if hits != [] { TotalsNonNegative(hits[1..]); }
  }

  /** Flooring a sum in two steps is flooring it once. */
  lemma FloorInSteps(x: real, y: real)
    ensures (x - x.Floor as real + y).Floor == (x + y).Floor - x.Floor
  {
    assert (x + y).Floor as real <= x + y < (x + y).Floor as real + 1.0;
  }

  lemma SettledAgain(a: Armor, attacks: real, directs: real, moreAttacks: real, moreDirects: real)
    requires Sound(a) && attacks >= 0.0 && directs >= 0.0 && moreAttacks >= 0.0 && moreDirects >= 0.0
    ensures Settled(Settled(a, attacks, directs), moreAttacks, moreDirects)
            == Settled(a, attacks + moreAttacks, directs + moreDirects)
  {
    var spill := RMax(0.0, attacks - a.shield);
    var more := RMax(0.0, moreAttacks - RMax(0.0, a.shield - attacks));
    assert spill + more == RMax(0.0, attacks + moreAttacks - a.shield);
    FloorInSteps(a.carry + directs + spill, moreDirects + more);
  }

  lemma StruckIsSettled(a: Armor, hit: Hit)
    requires Sound(a)
    ensures Sound(Struck(a, hit))
    ensures Struck(a, hit) == match hit
                              case Attack(x) => Settled(a, RMax(0.0, x), 0.0)
                              case Direct(x) => Settled(a, 0.0, RMax(0.0, x))
  {}

  lemma HullHitSound(a: Armor, amount: real)
    requires Sound(a)
    ensures Sound(HullHit(a, amount))
  {}

  lemma AttackHitSound(a: Armor, amount: real)
    requires Sound(a)
    ensures Sound(AttackHit(a, amount))
  {}

  /** However damage is split over ticks and in whatever order it comes: the shield loses the
      attacks it can, the hull loses the floor of everything past it, and the rest is carried. */
  lemma {:induction false} SplittingDoesNotMatter(a: Armor, hits: seq<Hit>)
    requires Sound(a)
    ensures Sound(StruckAll(a, hits))
    ensures StruckAll(a, hits) == Settled(a, Attacks(hits), Directs(hits))
    decreases |hits|
  {
    if hits != [] {
      StruckIsSettled(a, hits[0]);
      SplittingDoesNotMatter(Struck(a, hits[0]), hits[1..]);
      TotalsNonNegative(hits[1..]);
      var x := RMax(0.0, hits[0].amount);
      if hits[0].Attack? {
        SettledAgain(a, x, 0.0, Attacks(hits[1..]), Directs(hits[1..]));
      } else {
        SettledAgain(a, 0.0, x, Attacks(hits[1..]), Directs(hits[1..]));
      }
    }
  }

  /** Until the hull is gone no damage is lost or made up: what the shield absorbed, what the hull
      lost and what is carried over is what was dealt. */
  lemma DamageIsConserved(a: Armor, hits: seq<Hit>)
    requires Sound(a) && StruckAll(a, hits).hull > 0
    ensures var after := StruckAll(a, hits);
            (a.shield - after.shield) + (a.hull - after.hull) as real + (after.carry - a.carry)
            == Attacks(hits) + Directs(hits)
  {
    SplittingDoesNotMatter(a, hits);
  }

  // ---------------------------------------------------------------- recharging in the belt

  /** What a shield may recharge to: a burst shield only comes back in part. */
  function RechargeCap(burst: bool, max: real, returnPct: real): real {
    if burst then max * returnPct else max
  }

  /** One belt tick of recharging. */
  function Recharged(shield: real, burst: bool, max: real, returnPct: real, seconds: real, dt: real): real {
    if dt <= 0.0 then shield
    else if max <= 0.0 then 0.0
    else if shield >= RechargeCap(burst, max, returnPct) || seconds <= 0.0 then shield
    else RMin(RechargeCap(burst, max, returnPct), shield + max * dt / seconds)
  }

  /** A shield stays within its maximum, never loses charge by waiting, and two belt ticks charge
      exactly as much as one tick as long as both. */
  lemma RechargeIsSmooth(shield: real, burst: bool, max: real, returnPct: real, seconds: real, dt: real, more: real)
    requires 0.0 <= shield <= max && 0.0 <= returnPct <= 1.0 && dt > 0.0 && more > 0.0
    ensures shield <= Recharged(shield, burst, max, returnPct, seconds, dt) <= max
    ensures Recharged(Recharged(shield, burst, max, returnPct, seconds, dt), burst, max, returnPct, seconds, more)
            == Recharged(shield, burst, max, returnPct, seconds, dt + more)
  {
    if seconds > 0.0 && max > 0.0 {
      ShareOf(max, returnPct);
      RateAdds(max, dt, more, seconds);
    }
  }

  /** Charging takes its time: the whole maximum in the shield's seconds, in proportion for a part of it, until
      a sound shield is full and a burst one back to its share. */
  lemma RechargeTakesItsTime(shield: real, burst: bool, max: real, returnPct: real, seconds: real, dt: real)
    requires max > 0.0 && seconds > 0.0 && dt > 0.0
    ensures var most := if burst then max * returnPct else max;
            var after := Recharged(shield, burst, max, returnPct, seconds, dt);
            && (shield >= most ==> after == shield)
            && (shield < most ==> (after == most <==> (most - shield) * seconds <= max * dt))
            && (shield < most && after < most ==> (after - shield) * seconds == max * dt)
  {
    var most, gain := RechargeCap(burst, max, returnPct), max * dt / seconds;
    assert gain * seconds == max * dt;
    if most - shield <= gain {
      Longer(most - shield, gain, seconds);
    } else {
      Longer(gain, most - shield, seconds);
      assert (most - shield - gain) * seconds > 0.0;
    }
  }

  lemma Longer(x: real, y: real, seconds: real)
    requires x <= y && seconds > 0.0
    ensures x * seconds <= y * seconds
  {
    assert (y - x) * seconds >= 0.0;
  }

  lemma ShareOf(max: real, pct: real)
    requires max >= 0.0 && 0.0 <= pct <= 1.0
    ensures 0.0 <= max * pct <= max
  {
    assert max * (1.0 - pct) >= 0.0;
  }

  lemma RateAdds(max: real, dt: real, more: real, seconds: real)
    requires max > 0.0 && dt > 0.0 && more > 0.0 && seconds > 0.0
    ensures max * (dt + more) / seconds == max * dt / seconds + max * more / seconds
    ensures max * dt / seconds > 0.0 && max * more / seconds > 0.0
  {}
}
