/** Rounding and clamping, over exact reals and integers. */
module Numbers {

  function Max(a: int, b: int): int { if a < b then b else a }

  function Min(a: int, b: int): int { if a < b then a else b }

  function RMax(a: real, b: real): real { if a < b then b else a }

  function RMin(a: real, b: real): real { if a < b then a else b }

  function ClampInt(v: int, lo: int, hi: int): int {
    if v < lo then lo else if v > hi then hi else v
  }

  function Clamp(v: real, lo: real, hi: real): real {
    if v < lo then lo else if v > hi then hi else v
  }

  /** Nearest integer, halves going up. It agrees with Go's math.Round on non-negative values,
      the only ones it is used on. */
  function Round(v: real): (r: int)
    ensures r as real - 0.5 <= v < r as real + 0.5
  {
    (v + 0.5).Floor
  }

  function Ceil(v: real): (r: int)
    ensures r as real - 1.0 < v <= r as real
  {
    -((-v).Floor)
  }

  /** A real power with a natural exponent. */
  function Power(base: real, n: nat): real {
    if n == 0 then 1.0 else base * Power(base, n - 1)
  }

  lemma {:induction false} PowerAdds(base: real, m: nat, n: nat)
    ensures Power(base, m + n) == Power(base, m) * Power(base, n) && Power(base, 1) == base
  {
    if m > 0 {
      PowerAdds(base, m - 1, n);
      assert base * (Power(base, m - 1) * Power(base, n)) == base * Power(base, m - 1) * Power(base, n);
    }
  }

  lemma {:induction false} PowerGrows(base: real, n: nat)
    requires base >= 1.0
    ensures Power(base, n) >= 1.0
  {
    if n > 0 {
      PowerGrows(base, n - 1);
      assert base * Power(base, n - 1) >= 1.0 * Power(base, n - 1);
    }
  }
}
