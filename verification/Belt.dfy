/** Arriving at a belt: the last touches on the generated rocks, and the free scan on arrival. */
module Belt {
  import opened Numbers

  datatype Rock = Rock(id: int, tier: int, volume: int, value: int, distance: real, scanned: bool)

  predicate Sorted(rocks: seq<Rock>) { forall i, j :: 0 <= i < j < |rocks| ==> rocks[i].distance <= rocks[j].distance }

  predicate InRange(rocks: seq<Rock>, lockKm: real) { exists i :: 0 <= i < |rocks| && rocks[i].distance <= lockKm }

  /** The rocks as rolled, numbered from one. */
  predicate Rolled(rocks: seq<Rock>) { forall i :: 0 <= i < |rocks| ==> rocks[i].id == i + 1 && !rocks[i].scanned }

  predicate Nearest(rocks: seq<Rock>, k: nat) {
    k < |rocks| && forall i :: 0 <= i < |rocks| ==> rocks[k].distance <= rocks[i].distance
  }

  /** As rolled when some rock is in range; otherwise a nearest one lies at the edge of the range. */
  ghost predicate Placed(rolled: seq<Rock>, placed: seq<Rock>, lockKm: real) {
    if InRange(rolled, lockKm) || rolled == [] then placed == rolled
    else exists k: nat :: Nearest(rolled, k) && placed == rolled[k := rolled[k].(distance := lockKm)]
  }

  /** Moves the nearest rock to the edge of the scanner's range when every rock lies beyond it. */
  method BringIntoRange(rocks: array<Rock>, lockKm: real)
    modifies rocks
    ensures Placed(old(rocks[..]), rocks[..], lockKm)
  {
    var nearest, inRange := 0, false;
    for i := 0 to rocks.Length
      invariant rocks[..] == old(rocks[..])
      invariant !inRange && forall j :: 0 <= j < i ==> rocks[j].distance > lockKm
      invariant rocks.Length > 0 ==> 0 <= nearest < rocks.Length && (nearest == 0 || nearest < i)
      invariant forall j :: 0 <= j < i ==> rocks[nearest].distance <= rocks[j].distance
    {
      if rocks[i].distance <= lockKm {
        assert rocks[..][i].distance <= lockKm;
        inRange := true;
        break;
      }
      if rocks[i].distance < rocks[nearest].distance {
        nearest := i;
      }
    }
    if !inRange && rocks.Length > 0 {
      assert Nearest(rocks[..], nearest);
      rocks[nearest] := rocks[nearest].(distance := lockKm);
    }
  }

  predicate HasId(rocks: seq<Rock>, n: int) { exists i :: 0 <= i < |rocks| && rocks[i].id == n }

  /** The belt a pilot finds: in order of distance, at least one rock to scan by hand, the rocks numbered 1
      to n with each number once, and each the rock that was rolled under its number, but for where it is
      and whether it has been scanned. */
  ghost predicate InOrder(rolled: seq<Rock>, belt: seq<Rock>, lockKm: real) {
    && |belt| == |rolled| && Sorted(belt) && (belt == [] || InRange(belt, lockKm))
    && (forall n :: 1 <= n <= |rolled| ==> HasId(belt, n))
    && (forall i, j :: 0 <= i < j < |belt| ==> belt[i].id != belt[j].id)
    && (forall i :: 0 <= i < |belt| ==> IsRolled(rolled, belt[i]))
  }

  predicate IsRolled(rolled: seq<Rock>, rock: Rock) {
    1 <= rock.id <= |rolled| && rock == rolled[rock.id - 1].(distance := rock.distance, scanned := rock.scanned)
  }

  lemma SameMembers(a: seq<Rock>, b: seq<Rock>)
    requires multiset(a) == multiset(b)
    ensures |a| == |b| && forall r :: r in a <==> r in b
  {
    assert |a| == |multiset(a)| == |multiset(b)| == |b|;
    forall r ensures r in a <==> r in b { assert r in multiset(a) <==> r in multiset(b); }
  }

  /** Whatever order of the placed rocks the library's sort yields, the belt is in order. */
  lemma BeltIsInOrder(rolled: seq<Rock>, placed: seq<Rock>, sorted: seq<Rock>, lockKm: real)
    requires Rolled(rolled) && Placed(rolled, placed, lockKm)
    requires multiset(sorted) == multiset(placed) && Sorted(sorted)
    ensures InOrder(rolled, sorted, lockKm) && Unscanned(sorted)
  {
    hide IsRolled, Sorted, InRange, Placed;
    SameMembers(sorted, placed);
    PlacedIsRolled(rolled, placed, lockKm);
    forall i | 0 <= i < |sorted| ensures !sorted[i].scanned && IsRolled(rolled, sorted[i]) {
      assert sorted[i] in placed;
    }
    forall n | 1 <= n <= |rolled| ensures HasId(sorted, n) {
      assert placed[n - 1] in placed;
      assert placed[n - 1] in sorted;
    }
    if rolled != [] { StillInRange(placed, sorted, lockKm); }
    forall i, j | 0 <= i < j < |sorted| ensures sorted[i].id != sorted[j].id {
      NoDoubles(placed, sorted, i, j);
    }
  }

  lemma StillInRange(placed: seq<Rock>, sorted: seq<Rock>, lockKm: real)
    requires InRange(placed, lockKm) && forall r :: r in sorted <==> r in placed
    ensures InRange(sorted, lockKm)
  {
    var k :| 0 <= k < |placed| && placed[k].distance <= lockKm;
    assert placed[k] in sorted;
  }

  lemma PlacedIsRolled(rolled: seq<Rock>, placed: seq<Rock>, lockKm: real)
    requires Rolled(rolled) && Placed(rolled, placed, lockKm)
    ensures |placed| == |rolled| && (placed == [] || InRange(placed, lockKm))
    ensures forall i :: 0 <= i < |placed| ==> placed[i].id == i + 1 && !placed[i].scanned && IsRolled(rolled, placed[i])
  {
    if !InRange(rolled, lockKm) && rolled != [] {
      var k: nat :| Nearest(rolled, k) && placed == rolled[k := rolled[k].(distance := lockKm)];
      assert placed[k].distance <= lockKm;
    }
  }

  /** A rock that a numbered belt holds once, any reordering holds once. */
  lemma NoDoubles(placed: seq<Rock>, sorted: seq<Rock>, i: nat, j: nat)
    requires multiset(sorted) == multiset(placed) && i < j < |sorted|
    requires forall k :: 0 <= k < |placed| ==> placed[k].id == k + 1
    ensures sorted[i].id != sorted[j].id
  {
    SameMembers(sorted, placed);
    if sorted[i].id == sorted[j].id {
      assert sorted[i] in placed && sorted[j] in placed;
      assert sorted[i] == sorted[j];
      Twice(sorted, i, j);
      Once(placed, sorted[i].id - 1);
      assert false;
    }
  }

  lemma Twice(rocks: seq<Rock>, i: nat, j: nat)
    requires i < j < |rocks| && rocks[i] == rocks[j]
    ensures multiset(rocks)[rocks[i]] >= 2
  {
    assert rocks == rocks[..i] + [rocks[i]] + rocks[i + 1..j] + [rocks[j]] + rocks[j + 1..];
  }

  lemma Once(rocks: seq<Rock>, k: nat)
    requires k < |rocks| && forall i :: 0 <= i < |rocks| && i != k ==> rocks[i] != rocks[k]
    ensures multiset(rocks)[rocks[k]] == 1
  {
    assert rocks == rocks[..k] + [rocks[k]] + rocks[k + 1..];
    assert rocks[k] !in rocks[..k] && rocks[k] !in rocks[k + 1..];
  }

  // ---------------------------------------------------------------- the free scan on arrival

  ghost function Near(rocks: seq<Rock>, lockKm: real): set<int> { set i | 0 <= i < |rocks| && rocks[i].distance <= lockKm }

  predicate Unscanned(rocks: seq<Rock>) { forall i :: 0 <= i < |rocks| ==> !rocks[i].scanned }

  /** The belt with exactly the rocks at these indices scanned. */
  ghost predicate Marks(was: seq<Rock>, now: seq<Rock>, marked: set<int>) {
    |now| == |was| && forall i :: 0 <= i < |was| ==> now[i] == was[i].(scanned := i in marked)
  }

  ghost predicate Guaranteed(rocks: seq<Rock>, chosen: set<int>, tier: int) {
    exists i :: i in chosen && 0 <= i < |rocks| && rocks[i].tier >= tier
  }

  predicate Permutes(order: seq<nat>, n: nat) {
    && |order| == n && (forall k :: 0 <= k < n ==> order[k] < n)
    && (forall j, k :: 0 <= j < k < n ==> order[j] != order[k])
  }

  predicate Apart(xs: seq<nat>) { forall j, k :: 0 <= j < k < |xs| ==> xs[j] != xs[k] }

  ghost function Members(xs: seq<nat>): (m: set<int>)
    ensures forall i: int :: i in m <==> i in xs
    decreases |xs|
  {
    if xs == [] then {} else {xs[0] as int} + Members(xs[1..])
  }

  lemma {:induction false} MemberCount(xs: seq<nat>)
    requires Apart(xs)
    ensures |Members(xs)| == |xs|
    decreases |xs|
  {
    if xs != [] {
      assert xs[0] !in xs[1..] && Apart(xs[1..]);
      MemberCount(xs[1..]);
    }
  }

  /** The indices of the rocks in range, in belt order. */
  method Candidates(rocks: array<Rock>, lockKm: real) returns (near: seq<nat>)
    ensures forall i :: i in near <==> 0 <= i < rocks.Length && rocks[i].distance <= lockKm
    ensures Apart(near)
  {
    near := [];
    for i := 0 to rocks.Length
      invariant forall j :: j in near <==> 0 <= j < i && rocks[j].distance <= lockKm
      invariant Apart(near)
    {
      if rocks[i].distance <= lockKm {
        near := near + [i];
      }
    }
  }

  /** Scans the first n candidates in the drawn order. */
  method Pick(rocks: array<Rock>, near: seq<nat>, order: seq<nat>, n: nat) returns (picked: seq<nat>, ghost chosen: set<int>)
    requires n <= |near| && Permutes(order, |near|) && Unscanned(rocks[..])
    requires forall k :: 0 <= k < |near| ==> near[k] < rocks.Length
    requires Apart(near)
    modifies rocks
    ensures Marks(old(rocks[..]), rocks[..], chosen) && |chosen| == n == |picked|
    ensures chosen == (set i: int | i in picked) && forall i :: i in picked ==> i in near
    ensures forall k :: 0 <= k < n ==> picked[k] < rocks.Length
  {
    picked, chosen := [], {};
    for k := 0 to n
      invariant Marks(old(rocks[..]), rocks[..], chosen) && |chosen| == k == |picked|
      invariant chosen == (set i: int | i in picked)
      invariant forall j :: 0 <= j < k ==> picked[j] < rocks.Length
      invariant forall i :: i in picked ==> exists j :: 0 <= j < k && i == near[order[j]]
    {
      var idx := near[order[k]];
      assert idx !in chosen;
      rocks[idx] := rocks[idx].(scanned := true);
      picked := picked + [idx];
      chosen := chosen + {idx};
    }
  }

  /** The best candidate not yet scanned that meets the guarantee, or -1. */
  method BestSpare(rocks: array<Rock>, near: seq<nat>, minTier: int) returns (best: int)
    requires minTier > 0 && forall k :: 0 <= k < |near| ==> near[k] < rocks.Length
    ensures best == -1 ==> forall i :: i in near ==> rocks[i].scanned || rocks[i].tier < minTier
    ensures best != -1 ==> best in near && !rocks[best].scanned && rocks[best].tier >= minTier
                           && forall i :: i in near && !rocks[i].scanned ==> rocks[i].tier <= rocks[best].tier
  {
    best := -1;
    var bestTier := -1;
    for k := 0 to |near|
      invariant best == -1 ==> bestTier == -1 && forall j :: 0 <= j < k ==> rocks[near[j]].scanned || rocks[near[j]].tier < minTier
      invariant best != -1 ==> best in near && !rocks[best].scanned && rocks[best].tier == bestTier >= minTier
      invariant best != -1 ==> forall j :: 0 <= j < k && !rocks[near[j]].scanned ==> rocks[near[j]].tier <= bestTier
    {
      var i := near[k];
      if !rocks[i].scanned && rocks[i].tier >= minTier && rocks[i].tier > bestTier {
        best, bestTier := i, rocks[i].tier;
      }
    }
  }

  /** When no pick meets the guarantee, the first gives way to the best spare that does. */
  method Guarantee(ghost was: seq<Rock>, rocks: array<Rock>, near: seq<nat>, picked: seq<nat>, minTier: int, ghost chosen: set<int>)
    returns (ghost after: set<int>)
    requires minTier > 0 && forall k :: 0 <= k < |near| ==> near[k] < rocks.Length
    requires Marks(was, rocks[..], chosen) && chosen == (set i: int | i in picked) && picked != []
    requires forall i :: i in picked ==> i in near && i < rocks.Length
    modifies rocks
    ensures Marks(was, rocks[..], after) && |after| == |chosen| && after <= Members(near)
    ensures Guaranteed(was, Members(near), minTier) ==> Guaranteed(was, after, minTier)
  {
    after := chosen;
    for k := 0 to |picked|
      invariant forall j :: 0 <= j < k ==> picked[j] in near && picked[j] < rocks.Length && rocks[picked[j]].tier < minTier
    {
      assert picked[k] in picked;
      if rocks[picked[k]].tier >= minTier {
        assert picked[k] in chosen;
        return;
      }
    }
    assert forall i :: i in chosen ==> was[i].tier < minTier;
    var best := BestSpare(rocks, near, minTier);
    if best < 0 { return; }
    var first := picked[0];
    rocks[first] := rocks[first].(scanned := false);
    rocks[best] := rocks[best].(scanned := true);
    after := chosen - {first as int} + {best};
    assert best in after && was[best].tier >= minTier;
  }

  lemma NearCount(rocks: seq<Rock>, lockKm: real, near: seq<nat>)
    requires Apart(near) && forall i :: i in near <==> 0 <= i < |rocks| && rocks[i].distance <= lockKm
    ensures Members(near) == Near(rocks, lockKm) && |near| == |Near(rocks, lockKm)|
    ensures forall k :: 0 <= k < |near| ==> near[k] < |rocks|
  {
    MemberCount(near);
    assert Members(near) == Near(rocks, lockKm);
    assert forall k :: 0 <= k < |near| ==> near[k] in near;
  }

  /** Seismic sensors scan exactly as many rocks in range as they can, and among them one of the
      guaranteed tier whenever any rock in range has it. perm is the draw: a permutation for every size. */
  method ApplySensors(rocks: array<Rock>, lockKm: real, count: int, minTier: int, perm: nat -> seq<nat>)
    returns (ghost chosen: set<int>)
    requires Unscanned(rocks[..]) && forall n: nat :: Permutes(perm(n), n)
    modifies rocks
    ensures Marks(old(rocks[..]), rocks[..], chosen)
    ensures |chosen| == Max(0, Min(count, |Near(old(rocks[..]), lockKm)|)) && chosen <= Near(old(rocks[..]), lockKm)
    ensures count > 0 && minTier > 0 && Guaranteed(old(rocks[..]), Near(old(rocks[..]), lockKm), minTier)
            ==> Guaranteed(old(rocks[..]), chosen, minTier)
  {
    chosen := {};
    ghost var was := rocks[..];
    if count <= 0 || rocks.Length == 0 { return; }
    var near := Candidates(rocks, lockKm);
    NearCount(was, lockKm, near);
    if |near| == 0 { return; }
    var picked;
    picked, chosen := Pick(rocks, near, perm(|near|), Min(count, |near|));
    assert chosen <= Near(was, lockKm);
    if minTier <= 0 { return; }
    hide Near, Marks, Guaranteed, Apart;
    chosen := Guarantee(was, rocks, near, picked, minTier, chosen);
  }

  lemma MarkedIsInOrder(rolled: seq<Rock>, was: seq<Rock>, now: seq<Rock>, chosen: set<int>, lockKm: real)
    requires InOrder(rolled, was, lockKm) && Marks(was, now, chosen)
    ensures InOrder(rolled, now, lockKm) && Near(now, lockKm) == Near(was, lockKm)
    ensures forall tier: int, some: set<int> :: Guaranteed(now, some, tier) <==> Guaranteed(was, some, tier)
  {
    if was != [] {
      var k :| 0 <= k < |was| && was[k].distance <= lockKm;
      assert now[k].distance <= lockKm;
    }
    forall n | 1 <= n <= |rolled| ensures HasId(now, n) {
      assert HasId(was, n);
      var i :| 0 <= i < |was| && was[i].id == n;
      assert now[i].id == n;
    }
    forall tier: int, some: set<int> ensures Guaranteed(now, some, tier) <==> Guaranteed(was, some, tier) {
      if i :| i in some && 0 <= i < |was| && was[i].tier >= tier { assert now[i].tier >= tier; }
      if i :| i in some && 0 <= i < |now| && now[i].tier >= tier { assert was[i].tier >= tier; }
    }
  }

  ghost predicate Sorts(sorter: seq<Rock> -> seq<Rock>) {
    forall belt: seq<Rock> :: multiset(sorter(belt)) == multiset(belt) && Sorted(sorter(belt))
  }

  /** The last touches on a rolled belt. sorter is the library's sort, of which only that it sorts is assumed. */
  method Arrange(rocks: array<Rock>, lockKm: real, sorter: seq<Rock> -> seq<Rock>)
    requires Rolled(rocks[..]) && Sorts(sorter)
    modifies rocks
    ensures InOrder(old(rocks[..]), rocks[..], lockKm) && Unscanned(rocks[..])
  {
    ghost var rolled := rocks[..];
    BringIntoRange(rocks, lockKm);
    ghost var placed := rocks[..];
    var sorted := sorter(rocks[..]);
    hide Sorted, Placed, InOrder, Rolled, Unscanned;
    SameMembers(sorted, placed);
    forall i | 0 <= i < rocks.Length {
      rocks[i] := sorted[i];
    }
    assert rocks[..] == sorted;
    BeltIsInOrder(rolled, placed, sorted, lockKm);
  }

  /** The whole arrival: the nearest rock is brought into range, the belt is sorted, and the sensors take
      their free scan. */
  method Arrive(rocks: array<Rock>, lockKm: real, count: int, minTier: int, sorter: seq<Rock> -> seq<Rock>, perm: nat -> seq<nat>)
    returns (ghost chosen: set<int>)
    requires Rolled(rocks[..]) && Sorts(sorter) && forall n: nat :: Permutes(perm(n), n)
    modifies rocks
    ensures InOrder(old(rocks[..]), rocks[..], lockKm)
    ensures forall i :: 0 <= i < rocks.Length ==> (rocks[i].scanned <==> i in chosen)
    ensures |chosen| == Max(0, Min(count, |Near(rocks[..], lockKm)|)) && chosen <= Near(rocks[..], lockKm)
    ensures count > 0 && minTier > 0 && Guaranteed(rocks[..], Near(rocks[..], lockKm), minTier)
            ==> Guaranteed(rocks[..], chosen, minTier)
  {
    hide Rolled, Sorts, InOrder, Permutes, Unscanned, Near, Guaranteed;
    ghost var rolled := rocks[..];
    Arrange(rocks, lockKm, sorter);
    ghost var belt := rocks[..];
    chosen := ApplySensors(rocks, lockKm, count, minTier, perm);
    MarkedIsInOrder(rolled, belt, rocks[..], chosen, lockKm);
  }
}
