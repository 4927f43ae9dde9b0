/** Arithmetic on real numbers that several components share. */
module Numbers {
  function Min(a: real, b: real): real {
    if b < a then b else a
  }

  function Max(a: real, b: real): real {
    if a < b then b else a
  }

  function Abs(a: real): real {
    if a < 0.0 then -a else a
  }

  /** Products have a name, so that proofs can treat them as plain numbers. */
  function Times(a: real, b: real): real {
    a * b
  }

  function Pow(x: real, n: nat): real {
    if n == 0 then 1.0 else Times(x, Pow(x, n - 1))
  }

  lemma {:induction false} Sign(k: real, x: real)
    requires 0.0 <= k
    ensures 0.0 <= x ==> 0.0 <= Times(k, x)
    ensures x <= 0.0 ==> Times(k, x) <= 0.0
  {
  }

  lemma {:induction false} MulMonotone(k: real, x: real, y: real)
    requires 0.0 <= k && x <= y
    ensures Times(k, x) <= Times(k, y)
  {
    assert k * (y - x) >= 0.0;
  }

  lemma {:induction false} Scaled(a: real, x: real, y: real)
    requires 0.0 <= a
    ensures Abs(Times(a, x) - Times(a, y)) == Times(a, Abs(x - y))
  {
    assert a * x - a * y == a * (x - y);
  }

  lemma {:induction false} PowNonNegative(x: real, n: nat)
    requires 0.0 <= x
    ensures 0.0 <= Pow(x, n)
  {
    if n > 0 {
      PowNonNegative(x, n - 1);
      Sign(x, Pow(x, n - 1));
    }
  }

  /** A factor of a power can be taken out at the front. */
  lemma {:induction false} GapStep(a: real, k: real, gap: real, next: real)
    requires 0.0 <= k && next <= Times(a, gap)
    ensures Times(k, next) <= Times(Times(a, k), gap)
  {
    MulMonotone(k, next, Times(a, gap));
    assert k * (a * gap) == (a * k) * gap;
  }
}
