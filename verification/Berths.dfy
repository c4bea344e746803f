/** The names under which a hangar keeps the Skiffs that newer ones displace. */
module Berths {

  const STARTER: string := "skiff"

  function Digits(n: nat): string {
    if n < 10 then ["0123456789"[n]] else Digits(n / 10) + ["0123456789"[n % 10]]
  }

  /** The names tried for a Skiff that a new one displaces: skiff@here, skiff@here-2, and so on. */
  function Berth(system: string, n: nat): string
    requires n >= 1
  {
    if n == 1 then STARTER + "@" + system else STARTER + "@" + system + "-" + Digits(n)
  }

  function FirstFree(taken: set<string>, system: string, n: nat): string
    requires n >= 1
    decreases |taken| + 1 - n
  {
    if Berth(system, n) !in taken || n > |taken| then Berth(system, n) else FirstFree(taken, system, n + 1)
  }

  lemma {:induction false} DigitsDiffer(m: nat, n: nat)
    requires Digits(m) == Digits(n)
    ensures m == n
    decreases m
  {
    var last := "0123456789";
    assert forall i, j :: 0 <= i < j < 10 ==> last[i] != last[j];
    assert Digits(m)[|Digits(m)| - 1] == last[m % 10] && Digits(n)[|Digits(n)| - 1] == last[n % 10];
    assert m % 10 == n % 10;
    if m >= 10 && n >= 10 {
      assert Digits(m)[..|Digits(m)| - 1] == Digits(m / 10) && Digits(n)[..|Digits(n)| - 1] == Digits(n / 10);
      DigitsDiffer(m / 10, n / 10);
    }
  }

  lemma BerthsDiffer(system: string, m: nat, n: nat)
    requires 1 <= m && 1 <= n && Berth(system, m) == Berth(system, n)
    ensures m == n
  {
    var stem := STARTER + "@" + system;
    if m > 1 && n > 1 {
      assert Berth(system, m)[|stem + "-"|..] == Digits(m) && Berth(system, n)[|stem + "-"|..] == Digits(n);
      DigitsDiffer(m, n);
    }
  }

  ghost function FirstBerths(system: string, n: nat): (s: set<string>)
    ensures forall id :: id in s ==> exists i: nat :: 1 <= i <= n && id == Berth(system, i)
  {
    if n == 0 then {} else FirstBerths(system, n - 1) + {Berth(system, n)}
  }

  lemma {:induction false} BerthCount(system: string, n: nat)
    ensures |FirstBerths(system, n)| == n
  {
    if n > 0 {
      BerthCount(system, n - 1);
      if Berth(system, n) in FirstBerths(system, n - 1) {
        var i: nat :| 1 <= i <= n - 1 && Berth(system, n) == Berth(system, i);
        BerthsDiffer(system, n, i);
      }
    }
  }

  lemma SmallerSet(a: set<string>, b: set<string>)
    requires a <= b && |a| >= |b|
    ensures a == b
  {
    if b - a != {} {
      var x :| x in b - a;
      FitsIn(a, b - {x});
      assert false;
    }
  }

  lemma {:induction false} FitsIn(a: set<string>, b: set<string>)
    requires a <= b
    ensures |a| <= |b|
    decreases |a|
  {
    if x :| x in a {
      FitsIn(a - {x}, b - {x});
    }
  }

  lemma TooManyBerths(taken: set<string>, system: string, n: nat)
    requires n > |taken| && FirstBerths(system, n - 1) <= taken
    ensures Berth(system, n) !in taken
  {
    hide Berth, FirstBerths;
    BerthCount(system, n - 1);
    SmallerSet(FirstBerths(system, n - 1), taken);
    if Berth(system, n) in FirstBerths(system, n - 1) {
      var i: nat :| 1 <= i <= n - 1 && Berth(system, n) == Berth(system, i);
      BerthsDiffer(system, n, i);
    }
  }

  /** A berth is never the name that the new Skiff itself takes. */
  lemma BerthIsNotTheStarter(system: string, n: nat)
    requires n >= 1
    ensures Berth(system, n) != STARTER
  {
    assert |Berth(system, n)| > |STARTER|;
  }

  /** The search for a free berth always finds one, so no parked Skiff is ever overwritten. */
  lemma {:induction false} BerthIsFree(taken: set<string>, system: string, n: nat)
    requires n >= 1 && FirstBerths(system, n - 1) <= taken
    ensures FirstFree(taken, system, n) !in taken
    ensures FirstFree(taken, system, n) != STARTER
    ensures exists i: nat :: i >= n && FirstFree(taken, system, n) == Berth(system, i)
    decreases |taken| + 1 - n
  {
    BerthIsNotTheStarter(system, n);
    hide Berth;
    if n > |taken| {
      TooManyBerths(taken, system, n);
    } else if Berth(system, n) in taken {
      assert FirstBerths(system, n) <= taken;
      BerthIsFree(taken, system, n + 1);
    }
  }

  /** Tries one name after another until one is free. */
  method FindBerth(taken: set<string>, parked: string) returns (id: string)
    ensures id == FirstFree(taken, parked, 1) && id !in taken && id != STARTER
  {
    BerthIsFree(taken, parked, 1);
    id := Berth(parked, 1);
    var i := 2;
    while id in taken
      invariant i >= 2 && id == Berth(parked, i - 1)
      invariant FirstBerths(parked, i - 2) <= taken
      invariant FirstFree(taken, parked, i - 1) == FirstFree(taken, parked, 1)
      decreases |taken| + 2 - i
    {
      hide Berth;
      assert i - 1 <= |taken|;
      assert FirstBerths(parked, i - 1) <= taken;
      id := Berth(parked, i);
      i := i + 1;
    }
  }
}
