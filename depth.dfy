/** Converting sample values between bit depths (the helper `scale`). */
module Depth {

  function Pow2(n: nat): (r: nat)
    ensures r >= 1
  {
    if n == 0 then 1 else 2 * Pow2(n - 1)
  }

  lemma {:induction false} Pow2Add(a: nat, b: nat)
    ensures Pow2(a + b) == Pow2(a) * Pow2(b)
  {
    if a > 0 {
      Pow2Add(a - 1, b);
      assert Pow2(a + b) == 2 * Pow2(a - 1 + b);
    }
  }

  /** 2^n and 2^-n as exact rationals. */
  function Up(n: nat): real
  {
    if n == 0 then 1.0 else 2.0 * Up(n - 1)
  }

  function Down(n: nat): real
  {
    if n == 0 then 1.0 else 0.5 * Down(n - 1)
  }

  /** 2^e as an exact rational; for a negative e Python's `2 ** e` is the float 1 / 2^-e. */
  function Factor(e: int): real
  {
    if e >= 0 then Up(e) else Down(-e)
  }

  lemma {:induction false} UpDownPositive(n: nat)
    ensures Up(n) >= 1.0 && Down(n) > 0.0
  {
    if n > 0 {
      UpDownPositive(n - 1);
    }
  }

  lemma FactorPositive(e: int)
    ensures Factor(e) > 0.0
    ensures e >= 0 ==> Factor(e) >= 1.0
  {
    if e >= 0 { UpDownPositive(e); } else { UpDownPositive(-e); }
  }

  lemma {:induction false} FactorOfNat(n: nat)
    ensures Factor(n) == Pow2(n) as real
  {
    if n > 0 {
      FactorOfNat(n - 1);
    }
  }

  lemma FactorSucc(e: int)
    ensures Factor(e + 1) == 2.0 * Factor(e)
  {
    if e < 0 {
      assert Down(-e) == 0.5 * Down(-e - 1);
    }
  }

  lemma Twice(x: real, y: real, z: real)
    requires z == x * y
    ensures 2.0 * z == (2.0 * x) * y && 0.5 * z == (0.5 * x) * y
  {
  }

  lemma Cancel(x: real, y: real)
    ensures (2.0 * x) * (0.5 * y) == x * y
  {
  }

  lemma {:induction false} UpAdd(m: nat, n: nat)
    ensures Up(m + n) == Up(m) * Up(n)
  {
    if m > 0 {
      UpAdd(m - 1, n);
      Twice(Up(m - 1), Up(n), Up(m - 1 + n));
    }
  }

  lemma {:induction false} DownAdd(m: nat, n: nat)
    ensures Down(m + n) == Down(m) * Down(n)
  {
    if m > 0 {
      DownAdd(m - 1, n);
      Twice(Down(m - 1), Down(n), Down(m - 1 + n));
    }
  }

  /** 2^m 2^-n */
  lemma {:induction false} UpTimesDown(m: nat, n: nat)
    ensures Up(m) * Down(n) == if m >= n then Up(m - n) else Down(n - m)
  {
    if m > 0 && n > 0 {
      UpTimesDown(m - 1, n - 1);
      Cancel(Up(m - 1), Down(n - 1));
    }
  }

  lemma Commute(x: real, y: real)
    ensures x * y == y * x
  {
  }

  lemma FactorMixed(a: int, b: int)
    requires a >= 0 > b
    ensures Factor(a + b) == Factor(a) * Factor(b)
  {
    UpTimesDown(a, -b);
  }

  /** Exponents add: 2^(a+b) = 2^a 2^b for all integers. */
  lemma FactorAdd(a: int, b: int)
    ensures Factor(a + b) == Factor(a) * Factor(b)
  {
    if a >= 0 && b >= 0 {
      UpAdd(a, b);
    } else if a < 0 && b < 0 {
      DownAdd(-a, -b);
    } else if a >= 0 {
      FactorMixed(a, b);
    } else {
      FactorMixed(b, a);
      Commute(Factor(b), Factor(a));
    }
  }

  lemma FactorSum(x: int, y: int, z: int)
    requires z == x + y
    ensures Factor(z) == Factor(x) * Factor(y)
  {
    FactorAdd(x, y);
  }

  /** `scale(i, depth_out=16, depth_in=8)`: the value `i` at depth `depthIn`, expressed at depth `depthOut`. */
  function Scale(i: real, depthOut: int := 16, depthIn: int := 8): real
  {
    i * Factor(depthOut - depthIn)
  }

  /** Scaling up to a deeper format keeps integers integral: it multiplies by 2^(out-in). */
  lemma ScaleUp(i: int, depthOut: int, depthIn: int)
    requires depthOut >= depthIn
    ensures Scale(i as real, depthOut, depthIn) == (i * Pow2(depthOut - depthIn)) as real
  {
    FactorOfNat(depthOut - depthIn);
  }

  /** Scaling in two steps is scaling in one step. */
  lemma ScaleCompose(v: real, a: int, b: int, c: int)
    ensures Scale(Scale(v, b, a), c, b) == Scale(v, c, a)
  {
    var f, g, h := Factor(b - a), Factor(c - b), Factor(c - a);
    assert h == f * g by { FactorSum(b - a, c - b, c - a); }
    Associate(v, f, g, h);
  }

  /** Scaling to another depth and back gives the value back. */
  lemma ScaleRoundTrip(v: real, a: int, b: int)
    ensures Scale(Scale(v, b, a), a, b) == v
  {
    ScaleCompose(v, a, b, a);
    assert Factor(0) == 1.0;
  }

  /** Scaling is linear and strictly increasing. */
  lemma ScaleLinear(u: real, v: real, depthOut: int, depthIn: int)
    ensures Scale(u + v, depthOut, depthIn) == Scale(u, depthOut, depthIn) + Scale(v, depthOut, depthIn)
    ensures u < v ==> Scale(u, depthOut, depthIn) < Scale(v, depthOut, depthIn)
  {
    var f := Factor(depthOut - depthIn);
    FactorPositive(depthOut - depthIn);
    assert (u + v) * f == u * f + v * f;
    if u < v {
      PositiveProduct(v - u, f);
      assert v * f - u * f == (v - u) * f;
    }
  }

  lemma PositiveProduct(p: real, q: real)
    requires p > 0.0 && q > 0.0
    ensures p * q > 0.0
  {
  }

  lemma Associate(v: real, f: real, g: real, h: real)
    requires h == f * g
    ensures (v * f) * g == v * h
  {
  }
}
