/** The polynomial performance model of a workload, over exact reals
    (code/eval/lib/workloads.py). Coefficients come highest power first. */
module PerfModel {

  type Poly = seq<real>

  function Pow(x: real, n: nat): real {
    if n == 0 then 1.0 else x * Pow(x, n - 1)
  }

  /** The value of the polynomial, by Horner's rule. */
  function Horner(p: Poly, x: real): real {
    if p == [] then 0.0 else Horner(p[..|p| - 1], x) * x + p[|p| - 1]
  }

  /** The formal derivative, following Horner's rule and the product rule. */
  function Slope(p: Poly, x: real): real {
    if p == [] then 0.0 else Slope(p[..|p| - 1], x) * x + Horner(p[..|p| - 1], x)
  }

  /** What is left of p(x + h) beyond its linear part, divided by h squared. */
  function Rest(p: Poly, x: real, h: real): real {
    if p == [] then 0.0 else Rest(p[..|p| - 1], x, h) * (x + h) + Slope(p[..|p| - 1], x)
  }

  /** np.polyder: each coefficient times its power, the constant dropped. */
  function Polyder(p: Poly): Poly {
    if p == [] then []
    else seq(|p| - 1, i requires 0 <= i < |p| - 1 => p[i] * (|p| - 1 - i) as real)
  }

  /** The sum over all coefficients of coefficient times power, the highest power first. */
  function PowerSum(p: Poly, x: real): real {
    if p == [] then 0.0 else p[0] * Pow(x, |p| - 1) + PowerSum(p[1..], x)
  }

  lemma {:induction false} PowerSumLast(p: Poly, c: real, x: real)
    ensures PowerSum(p + [c], x) == PowerSum(p, x) * x + c
  {
    var all := p + [c];
    if p == [] {
      assert all[1..] == [] && 0.0 * x == 0.0;
      assert PowerSum(all, x) == c * Pow(x, 0) + 0.0;
    } else {
      assert all[1..] == p[1..] + [c];
      PowerSumLast(p[1..], c, x);
      ShiftStep(p[0], Pow(x, |p| - 1), PowerSum(p[1..], x), x);
    }
  }

  lemma ShiftStep(c: real, w: real, r: real, x: real)
    ensures c * (x * w) + r * x == (c * w + r) * x
  {
    assert c * (x * w) == c * w * x;
  }

  /** Horner's rule computes the power sum. */
  lemma {:induction false} HornerIsPowerSum(p: Poly, x: real)
    ensures Horner(p, x) == PowerSum(p, x)
  {
    if p != [] {
      var n := |p| - 1;
      HornerIsPowerSum(p[..n], x);
      PowerSumLast(p[..n], p[n], x);
      assert p == p[..n] + [p[n]];
    }
  }

  // ----- the coefficients of polyder are those of the derivative

  function AddTo(p: Poly, q: Poly): Poly
    requires |p| == |q|
  {
    seq(|p|, i requires 0 <= i < |p| => p[i] + q[i])
  }

  lemma {:induction false} HornerAdditive(p: Poly, q: Poly, x: real)
    requires |p| == |q|
    ensures Horner(AddTo(p, q), x) == Horner(p, x) + Horner(q, x)
  {
    if p != [] {
      var n := |p| - 1;
      HornerAdditive(p[..n], q[..n], x);
      assert AddTo(p, q)[..n] == AddTo(p[..n], q[..n]);
      AddStep(Horner(p[..n], x), Horner(q[..n], x), p[n], q[n], x);
    }
  }

  lemma AddStep(v: real, w: real, c: real, d: real, x: real)
    ensures (v + w) * x + (c + d) == (v * x + c) + (w * x + d)
  {
  }

  lemma HornerShift(p: Poly, x: real)
    ensures Horner(p + [0.0], x) == Horner(p, x) * x
  {
    assert (p + [0.0])[..|p|] == p;
  }

  lemma {:induction false} PolyderIsSlope(p: Poly, x: real)
    ensures Horner(Polyder(p), x) == Slope(p, x)
  {
    if |p| > 1 {
      var q := p[..|p| - 1];
      PolyderIsSlope(q, x);
      HornerShift(Polyder(q), x);
      HornerAdditive(Polyder(q) + [0.0], q, x);
      PolyderNext(p);
    } else if |p| == 1 {
      assert Polyder(p) == [] && p[..0] == [];
    }
  }

  lemma PolyderNext(p: Poly)
    requires |p| > 1
    ensures Polyder(p) == AddTo(Polyder(p[..|p| - 1]) + [0.0], p[..|p| - 1])
  {
    var q := p[..|p| - 1];
    forall i | 0 <= i < |q| ensures Polyder(p)[i] == (Polyder(q) + [0.0])[i] + q[i] {
      if i < |q| - 1 {
        Times(p[i], (|q| - 1 - i) as real);
        assert (|p| - 1 - i) as real == (|q| - 1 - i) as real + 1.0;
      }
    }
  }

  lemma Times(c: real, k: real)
    ensures c * (k + 1.0) == c * k + c
  {
  }

  /** Exact Taylor expansion: for all coefficients, points and increments,
      p(x + h) == p(x) + h p'(x) + h^2 R(x, h), with p' the coefficients that get_gradient stores. */
  lemma GradientIsDerivative(p: Poly, x: real, h: real)
    ensures Horner(p, x + h) == Horner(p, x) + h * Horner(Polyder(p), x) + h * h * Rest(p, x, h)
  {
    PolyderIsSlope(p, x);
    Expansion(p, x, h);
  }

  lemma {:induction false} Expansion(p: Poly, x: real, h: real)
    ensures Horner(p, x + h) == Horner(p, x) + h * Slope(p, x) + h * h * Rest(p, x, h)
  {
    if p == [] {
      assert h * 0.0 == 0.0 && h * h * 0.0 == 0.0;
    } else {
      var q := p[..|p| - 1];
      Expansion(q, x, h);
      Combine(Horner(p, x + h), Horner(p, x), Slope(p, x), Rest(p, x, h), p[|p| - 1],
              Horner(q, x + h), Horner(q, x), Slope(q, x), Rest(q, x, h), x, h);
    }
  }

  lemma Combine(after: real, value: real, slope: real, rest: real, c: real,
                w: real, v: real, d: real, r: real, x: real, h: real)
    requires w == v + h * d + h * h * r
    requires after == w * (x + h) + c && value == v * x + c
    requires slope == d * x + v && rest == r * (x + h) + d
    ensures after == value + h * slope + h * h * rest
  {
    ExpandProduct(w, v, d, r, x, h);
    Substitute(h, slope, d * x + v);
    Substitute(h * h, rest, r * (x + h) + d);
  }

  lemma Substitute(k: real, y: real, z: real)
    requires y == z
    ensures k * y == k * z
  {
  }

  lemma ExpandProduct(w: real, v: real, d: real, r: real, x: real, h: real)
    requires w == v + h * d + h * h * r
    ensures w * (x + h) == v * x + h * (d * x + v) + h * h * (r * (x + h) + d)
  {
    var y := x + h;
    assert w * y == v * y + h * d * y + h * h * r * y;
    assert h * h * (r * y + d) == h * h * r * y + h * h * d;
    assert h * d * y == h * d * x + h * h * d;
  }

  /** mem_gradient is the derivative of x p(x): p(x) + x p'(x). */
  lemma MemGradientIsProductRule(p: Poly, x: real)
    ensures Horner(Polyder(p + [0.0]), x) == Horner(p, x) + x * Horner(Polyder(p), x)
  {
    PolyderIsSlope(p + [0.0], x);
    PolyderIsSlope(p, x);
    assert (p + [0.0])[..|p|] == p;
  }

  // ----- the class

  class Workload {
    const coeff: Poly
    var gdCoeff: Poly
    var memGdCoeff: Poly

    constructor (coeff: Poly)
      ensures this.coeff == coeff
    {
      this.coeff, gdCoeff, memGdCoeff := coeff, [], [];
    }

    /** get_gradient has been called. */
    ghost predicate Ready()
      reads this
    {
      gdCoeff == Polyder(coeff) && memGdCoeff == Polyder(coeff + [0.0])
    }

    /** compute_ratio_from_coeff: the sum of coefficient times power is the polynomial's value. */
    method ComputeRatioFromCoeff(coeffs: Poly, ratio: real) returns (p: real)
      ensures p == Horner(coeffs, ratio)
    {
      p := 0.0;
      var order, i := |coeffs|, 0;
      while i < order
        invariant 0 <= i <= order
        invariant p == Horner(coeffs[..i], ratio) * Pow(ratio, order - i)
      {
        PowerStep(Horner(coeffs[..i], ratio), coeffs[i], ratio, order - 1 - i);
        assert coeffs[..i + 1][..i] == coeffs[..i];
        p := p + coeffs[i] * Pow(ratio, order - 1 - i);
        i := i + 1;
      }
      assert coeffs[..i] == coeffs;
    }

    method GetGradient()
      modifies this
      ensures Ready()
    {
      gdCoeff := Polyder(coeff);
      memGdCoeff := Polyder(coeff + [0.0]);
    }

    /** profile, in milliseconds. */
    method Profile(ratio: real) returns (ms: real)
      ensures ms == 1000.0 * Horner(coeff, ratio)
    {
      var p := ComputeRatioFromCoeff(coeff, ratio);
      ms := p * 1000.0;
    }

    /** gradient: the slope of the profile curve. */
    method Gradient(ratio: real) returns (g: real)
      requires Ready()
      ensures g == Slope(coeff, ratio)
    {
      g := ComputeRatioFromCoeff(gdCoeff, ratio);
      PolyderIsSlope(coeff, ratio);
    }

    /** mem_gradient: the slope of memory times time. */
    method MemGradient(ratio: real) returns (g: real)
      requires Ready()
      ensures g == Horner(coeff, ratio) + ratio * Slope(coeff, ratio)
    {
      g := ComputeRatioFromCoeff(memGdCoeff, ratio);
      MemGradientIsProductRule(coeff, ratio);
      PolyderIsSlope(coeff, ratio);
    }
  }

  lemma PowerStep(v: real, c: real, x: real, k: nat)
    ensures v * Pow(x, k + 1) + c * Pow(x, k) == (v * x + c) * Pow(x, k)
  {
    assert v * (x * Pow(x, k)) == v * x * Pow(x, k);
  }
}
