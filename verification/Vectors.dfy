/** Weight tensors as vectors of reals, and the inner-product facts the norm bounds rest on. */
module Vectors {

  type Vec = seq<real>

  /** What the model asks of the library square root. */
  ghost predicate IsSqrt(f: real -> real) {
    forall x: real :: x >= 0.0 ==> f(x) >= 0.0 && f(x) * f(x) == x
  }

  /** A product kept folded, so that proofs can hide it from the solver's nonlinear arithmetic. */
  function Times(x: real, y: real): real {
    x * y
  }

  function Dot(u: Vec, v: Vec): real
    requires |u| == |v|
  {
    if |u| == 0 then 0.0
    else Dot(u[..|u| - 1], v[..|v| - 1]) + Times(u[|u| - 1], v[|v| - 1])
  }

  function NormSq(v: Vec): real {
    Dot(v, v)
  }

  function Scale(v: Vec, a: real): Vec {
    seq(|v|, i requires 0 <= i < |v| => Times(v[i], a))
  }

  /** u + a * v. */
  function Axpy(u: Vec, a: real, v: Vec): Vec
    requires |u| == |v|
  {
    seq(|u|, i requires 0 <= i < |u| => u[i] + Times(v[i], a))
  }

  function Sub(u: Vec, v: Vec): Vec
    requires |u| == |v|
  {
    seq(|u|, i requires 0 <= i < |u| => u[i] - v[i])
  }

  function Zero(n: nat): Vec {
    seq(n, _ => 0.0)
  }

  /** Squared norms add up coordinate by coordinate. */
  lemma NormSqPush(v: Vec, x: real)
    ensures NormSq(v + [x]) == NormSq(v) + x * x && NormSq([]) == 0.0
  {
    assert (v + [x])[..|v|] == v;
  }

  /** Every coordinate lies in [-c, c]. */
  ghost predicate Within(v: Vec, c: real) {
    forall i :: 0 <= i < |v| ==> -c <= v[i] <= c
  }

  lemma {:induction false} NormSqNonNegative(v: Vec)
    ensures NormSq(v) >= 0.0
  {
    if |v| > 0 {
      NormSqNonNegative(v[..|v| - 1]);
      SquareNonNegative(v[|v| - 1]);
    }
  }

  lemma {:induction false} NormSqZero(n: nat)
    ensures NormSq(Zero(n)) == 0.0
  {
    if n > 0 {
      assert Zero(n)[..n - 1] == Zero(n - 1);
      NormSqZero(n - 1);
    }
  }

  lemma ScalePrefix(v: Vec, a: real)
    requires |v| > 0
    ensures Scale(v, a)[..|v| - 1] == Scale(v[..|v| - 1], a)
  {
    var l, r := Scale(v, a)[..|v| - 1], Scale(v[..|v| - 1], a);
    forall i | 0 <= i < |l| ensures l[i] == r[i] {
      assert l[i] == Scale(v, a)[i] == Times(v[i], a);
      assert r[i] == Times(v[..|v| - 1][i], a);
    }
  }

  lemma AxpyPrefix(u: Vec, a: real, v: Vec)
    requires |u| == |v| > 0
    ensures Axpy(u, a, v)[..|u| - 1] == Axpy(u[..|u| - 1], a, v[..|v| - 1])
  {
    var l, r := Axpy(u, a, v)[..|u| - 1], Axpy(u[..|u| - 1], a, v[..|v| - 1]);
    forall i | 0 <= i < |l| ensures l[i] == r[i] {
      assert l[i] == Axpy(u, a, v)[i] == u[i] + Times(v[i], a);
      assert r[i] == u[..|u| - 1][i] + Times(v[..|v| - 1][i], a);
    }
  }

  lemma {:induction false} NormSqScale(v: Vec, a: real)
    ensures NormSq(Scale(v, a)) == Times(NormSq(v), Times(a, a))
  {
    hide Times;
    if |v| > 0 {
      var p, x := v[..|v| - 1], v[|v| - 1];
      ScalePrefix(v, a);
      NormSqScale(p, a);
      ScaleArithmetic(x, a, NormSq(p), NormSq(v));
    } else {
      TimesZero(Times(a, a));
    }
  }

  lemma ScaleArithmetic(x: real, a: real, n: real, n': real)
    requires n' == n + Times(x, x)
    ensures Times(n, Times(a, a)) + Times(Times(x, a), Times(x, a)) == Times(n', Times(a, a))
  {
    var z, w := x * x, a * a;
    assert (x * a) * (x * a) == z * w;
    assert (n + z) * w == n * w + z * w;
  }

  lemma {:induction false} NormSqAxpy(u: Vec, a: real, v: Vec)
    requires |u| == |v|
    ensures NormSq(Axpy(u, a, v)) == NormSq(u) + 2.0 * Times(a, Dot(u, v)) + Times(Times(a, a), NormSq(v))
  {
    hide Times;
    if |u| > 0 {
      var p, x := u[..|u| - 1], u[|u| - 1];
      var q, y := v[..|v| - 1], v[|v| - 1];
      AxpyPrefix(u, a, v);
      NormSqAxpy(p, a, q);
      AxpyArithmetic(x, a, y, Dot(p, q), NormSq(q), Dot(u, v), NormSq(v));
    } else {
      TimesZero(a);
      TimesZero(Times(a, a));
    }
  }

  lemma AxpyArithmetic(x: real, a: real, y: real, d: real, n: real, d': real, n': real)
    requires d' == d + Times(x, y) && n' == n + Times(y, y)
    ensures Times(x + Times(y, a), x + Times(y, a)) + 2.0 * Times(a, d) + Times(Times(a, a), n)
         == Times(x, x) + 2.0 * Times(a, d') + Times(Times(a, a), n')
  {
    var z, w, k := y * a, x * y, y * y;
    assert (x + z) * (x + z) == x * x + 2.0 * (x * z) + z * z;
    assert x * z == a * w;
    assert z * z == (a * a) * k;
    assert Times(a, d') == a * d + a * w;
    assert Times(Times(a, a), n') == (a * a) * n + (a * a) * k;
  }

  lemma TimesZero(s: real)
    ensures Times(0.0, s) == 0.0 == Times(s, 0.0)
  {
  }

  lemma MulMono(k: real, a: real, b: real)
    requires k >= 0.0 && a <= b
    ensures k * a <= k * b
  {
    assert k * (b - a) >= 0.0;
  }

  lemma CancelFactor(t: real, a: real, b: real)
    requires t > 0.0 && t * a <= t * b
    ensures a <= b
  {
    if a > b {
      StrictProduct(t, a - b);
      assert false;
    }
  }

  lemma StrictProduct(x: real, y: real)
    requires x > 0.0 && y > 0.0
    ensures x * y > 0.0
  {
  }

  lemma SquareMono(a: real, b: real)
    requires 0.0 <= a <= b
    ensures a * a <= b * b
  {
    MulMono(a, a, b);
    MulMono(b, a, b);
  }

  lemma SquareBound(x: real, c: real)
    requires c >= 0.0 && x * x <= c * c
    ensures -c <= x <= c
  {
    DifferenceOfSquares(x, c);
    if x > c {
      StrictProduct(x - c, x + c);
      assert false;
    } else if x < -c {
      StrictProduct(c - x, -(x + c));
      assert false;
    }
  }

  lemma DifferenceOfSquares(x: real, c: real)
    ensures (x - c) * (x + c) == x * x - c * c
    ensures (c - x) * -(x + c) == x * x - c * c
  {
  }

  /** Cauchy-Schwarz in the form the accumulation of a mean needs. */
  lemma DotBound(u: Vec, v: Vec, t: real, s: real)
    requires |u| == |v| && t > 0.0
    requires NormSq(u) <= Times(Times(t, t), s) && NormSq(v) <= s
    ensures Dot(u, v) <= Times(t, s)
  {
    hide Times;
    NormSqAxpy(u, -t, v);
    NormSqNonNegative(Axpy(u, -t, v));
    DotBoundArithmetic(Dot(u, v), NormSq(u), NormSq(v), t, s);
  }

  lemma DotBoundArithmetic(d: real, nu: real, nv: real, t: real, s: real)
    requires t > 0.0 && nv <= s && nu <= Times(Times(t, t), s)
    requires 0.0 <= nu + 2.0 * Times(-t, d) + Times(Times(-t, -t), nv)
    ensures d <= Times(t, s)
  {
    assert Times(-t, -t) == t * t;
    assert Times(-t, d) == -(t * d);
    SquareNonNegative(t);
    MulMono(t * t, nv, s);
    assert (t * t) * s == t * (t * s);
    CancelFactor(t, d, t * s);
  }

  /** Adding a vector of squared norm at most s, weighted by a, to one of squared norm at most t^2 * s. */
  lemma NormStep(u: Vec, v: Vec, t: real, a: real, s: real)
    requires |u| == |v| && t >= 0.0 && a >= 0.0
    requires NormSq(u) <= Times(Times(t, t), s) && NormSq(v) <= s
    ensures NormSq(Axpy(u, a, v)) <= Times(Times(t + a, t + a), s)
  {
    hide Times;
    NormSqAxpy(u, a, v);
    if t > 0.0 {
      DotBound(u, v, t, s);
    } else {
      TimesZero(t);
      TimesZero(s);
      NormSqNonNegative(u);
      ZeroDot(u, v);
    }
    NormStepArithmetic(NormSq(Axpy(u, a, v)), NormSq(u), Dot(u, v), NormSq(v), t, a, s);
  }

  lemma NormStepArithmetic(n: real, nu: real, d: real, nv: real, t: real, a: real, s: real)
    requires t >= 0.0 && a >= 0.0 && nu <= Times(Times(t, t), s) && nv <= s && d <= Times(t, s)
    requires n == nu + 2.0 * Times(a, d) + Times(Times(a, a), nv)
    ensures n <= Times(Times(t + a, t + a), s)
  {
    hide Times;
    TimesMono(a, a, 0.0, a);
    TimesMono(Times(a, a), Times(a, a), nv, s);
    TimesMono(a, a, d, Times(t, s));
    SquareOfSum(t, a, s);
  }

  lemma TimesMono(k: real, k': real, a: real, b: real)
    requires 0.0 <= k == k' && a <= b
    ensures Times(k, a) <= Times(k', b)
    ensures a == 0.0 ==> Times(k', b) >= 0.0
  {
    MulMono(k, a, b);
  }

  lemma SquareOfSum(t: real, a: real, s: real)
    ensures Times(Times(t + a, t + a), s)
         == Times(Times(t, t), s) + 2.0 * Times(a, Times(t, s)) + Times(Times(a, a), s)
  {
    var x, y, z := t * t, a * t, a * a;
    assert (t + a) * (t + a) == x + 2.0 * y + z;
    assert (x + 2.0 * y + z) * s == x * s + 2.0 * (y * s) + z * s;
    assert y * s == a * (t * s);
  }

  lemma {:induction false} ZeroDot(u: Vec, v: Vec)
    requires |u| == |v| && NormSq(u) <= 0.0
    ensures Dot(u, v) == 0.0
  {
    if |u| > 0 {
      var p, x := u[..|u| - 1], u[|u| - 1];
      NormSqNonNegative(p);
      SquareNonNegative(x);
      SquareBound(x, 0.0);
      ZeroDot(p, v[..|v| - 1]);
    }
  }

  /** A vector of norm at most c has every coordinate in [-c, c]. */
  lemma {:induction false} NormBoundsCoordinates(v: Vec, c: real)
    requires c >= 0.0 && NormSq(v) <= c * c
    ensures Within(v, c)
  {
    if |v| > 0 {
      var p, x := v[..|v| - 1], v[|v| - 1];
      NormSqNonNegative(p);
      SquareNonNegative(x);
      NormBoundsCoordinates(p, c);
      SquareBound(x, c);
      forall i | 0 <= i < |v| ensures -c <= v[i] <= c {
        if i < |v| - 1 { assert v[i] == p[i]; }
      }
    }
  }

  lemma SquareNonNegative(x: real)
    ensures x * x >= 0.0
  {
  }
}
