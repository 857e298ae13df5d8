/** Ordinary least-squares fit of a line y = slope * x + intercept, computed
    from the four moments Sx, Sy, Sxy and Sxx in one pass, with the two
    fallbacks of the closed form (too few points, all x equal). */
module Regression {

  datatype FitResult = FitResult(slope: real, intercept: real)

  /** Sum of a sequence, peeled from the end so that it follows a left-to-right loop. */
  function Sum(s: seq<real>): real
  {
    if s == [] then 0.0 else Sum(s[..|s| - 1]) + s[|s| - 1]
  }

  /** Sum of the pairwise products a[i] * b[i]. */
  function Dot(a: seq<real>, b: seq<real>): real
    requires |a| == |b|
  {
    if a == [] then 0.0
    else
      var k := |a| - 1;
      Dot(a[..k], b[..k]) + a[k] * b[k]
  }

  function Mean(s: seq<real>): real
    requires s != []
  {
    Sum(s) / |s| as real
  }

  /** n * Sxx - Sx^2, the denominator of the slope, over the moments. */
  function Det(n: real, sx: real, sxx: real): real
  {
    n * sxx - sx * sx
  }

  /** The denominator of the slope for the x values of the points. */
  function Denominator(xs: seq<real>): real
  {
    Det(|xs| as real, Sum(xs), Dot(xs, xs))
  }

  /** Every x equal to the first one. */
  predicate ConstantSeq(s: seq<real>)
  {
    forall i :: 0 <= i < |s| ==> s[i] == s[0]
  }

  /** The closed form over the moments of n points, with the fallback for a
      zero denominator. */
  function ClosedForm(n: real, sx: real, sy: real, sxy: real, sxx: real): FitResult
    requires n > 0.0
  {
    var denom := Det(n, sx, sxx);
    if denom == 0.0 then FitResult(0.0, sy / n)
    else
      var slope := (n * sxy - sx * sy) / denom;
      FitResult(slope, (sy - slope * sx) / n)
  }

  /** The fit the source computes: no fit below two points, else the closed form. */
  function Fit(xs: seq<real>, ys: seq<real>): FitResult
    requires |xs| == |ys|
  {
    if |xs| < 2 then FitResult(0.0, 0.0)
    else ClosedForm(|xs| as real, Sum(xs), Sum(ys), Dot(xs, ys), Dot(xs, xs))
  }

  /** The single pass over the points: accumulate the four moments, then apply
      the closed form. */
  method LinearRegression(x: seq<real>, y: seq<real>) returns (r: FitResult)
    requires |x| == |y|
    ensures |x| < 2 ==> r == FitResult(0.0, 0.0)
    ensures r == Fit(x, y)
  {
    var n := |x|;
    if n < 2 {
      return FitResult(0.0, 0.0);
    }
    var sx, sy, sxy, sxx := 0.0, 0.0, 0.0, 0.0;
    var i := 0;
    while i < n
      invariant 0 <= i <= n
      invariant sx == Sum(x[..i]) && sy == Sum(y[..i])
      invariant sxy == Dot(x[..i], y[..i]) && sxx == Dot(x[..i], x[..i])
    {
      var xi := x[i];
      var yi := y[i];
      assert x[..i + 1][..i] == x[..i] && y[..i + 1][..i] == y[..i];
      sx := sx + xi;
      sy := sy + yi;
      sxy := sxy + xi * yi;
      sxx := sxx + xi * xi;
      i := i + 1;
    }
    assert x[..n] == x && y[..n] == y;
    r := ClosedForm(n as real, sx, sy, sxy, sxx);
  }


  // ---------------------------------------------------------------------------
  // Algebra on plain reals, kept apart from the sequences. Each helper names
  // the products it talks about, so callers only ever match terms.

  lemma SquareNonNegative(a: real, m: real)
    requires m == a * a
    ensures m >= 0.0
  {
  }

  lemma SquareNonZero(a: real, m: real)
    requires m == a * a
    requires a != 0.0
    ensures m != 0.0
  {
    if a > 0.0 { ProductPositive(a, a, m); } else { ProductPositive(-a, -a, m); }
  }

  lemma ProductPositive(a: real, b: real, m: real)
    requires m == a * b
    requires a > 0.0 && b > 0.0
    ensures m > 0.0
  {
  }

  lemma SqDevStep(dot: real, sum: real, n: real, w: real, z: real,
                  dot': real, sum': real, n': real)
    requires dot' == dot + w * w && sum' == sum + w && n' == n + 1.0
    ensures (dot - 2.0 * z * sum + n * z * z) + (w - z) * (w - z)
         == dot' - 2.0 * z * sum' + n' * z * z
  {
  }

  lemma DenominatorStep(dot: real, sum: real, n: real, z: real,
                        dot': real, sum': real, n': real)
    requires dot' == dot + z * z && sum' == sum + z && n' == n + 1.0
    ensures Det(n', sum', dot') == Det(n, sum, dot) + (dot - 2.0 * z * sum + n * z * z)
  {
  }

  lemma SingletonDenominator(n: real, dot: real, sum: real, x: real)
    requires n == 1.0 && dot == x * x && sum == x
    ensures Det(n, sum, dot) == 0.0
  {
  }

  lemma LineSumStep(a: real, b: real, x: real, y: real, sx: real, sy: real, n: real,
                    sx': real, sy': real, n': real)
    requires y == a * x + b && sy == a * sx + n * b
    requires sx' == sx + x && sy' == sy + y && n' == n + 1.0
    ensures sy' == a * sx' + n' * b
  {
  }

  lemma LineCrossStep(a: real, b: real, x: real, y: real, sx: real, sxy: real, sxx: real,
                      sx': real, sxy': real, sxx': real)
    requires y == a * x + b && sxy == a * sxx + b * sx
    requires sx' == sx + x && sxy' == sxy + x * y && sxx' == sxx + x * x
    ensures sxy' == a * sxx' + b * sx'
  {
  }

  lemma ConstantMomentsStep(k: real, y: real, sx: real, sy: real, sxy: real, n: real,
                            sx': real, sy': real, sxy': real, n': real)
    requires sx == n * k && sxy == k * sy
    requires sx' == sx + k && sy' == sy + y && sxy' == sxy + k * y && n' == n + 1.0
    ensures sx' == n' * k && sxy' == k * sy'
  {
  }

  lemma CentroidIdentity(n: real, sx: real, sy: real, slope: real)
    requires n > 0.0
    ensures slope * (sx / n) + (sy - slope * sx) / n == sy / n
  {
  }

  /** The closed form always yields a line through (Sx / n, Sy / n). */
  lemma CentroidAlgebra(n: real, sx: real, sy: real, sxy: real, sxx: real, mx: real, my: real)
    requires n > 0.0 && mx == sx / n && my == sy / n
    ensures ClosedForm(n, sx, sy, sxy, sxx).slope * mx + ClosedForm(n, sx, sy, sxy, sxx).intercept == my
  {
    var f := ClosedForm(n, sx, sy, sxy, sxx);
    if Det(n, sx, sxx) == 0.0 {
      assert f == FitResult(0.0, sy / n);
      assert sy - 0.0 * sx == sy;
    }
    assert f.intercept == (sy - f.slope * sx) / n;
    CentroidIdentity(n, sx, sy, f.slope);
  }

  /** Moments of points on y = a * x + b give back a and b. */
  lemma RecoverAlgebra(n: real, sx: real, sy: real, sxy: real, sxx: real, a: real, b: real)
    requires n > 0.0 && Det(n, sx, sxx) != 0.0
    requires sy == a * sx + n * b && sxy == a * sxx + b * sx
    ensures ClosedForm(n, sx, sy, sxy, sxx) == FitResult(a, b)
  {
    assert n * sxy - sx * sy == a * Det(n, sx, sxx);
    assert (sy - a * sx) / n == b;
  }

  /** Residual sum  Sy - m * Sx - n * c  of the line (m, c), over the moments. */
  function NormalOne(n: real, sx: real, sy: real, m: real, c: real): real
  {
    sy - m * sx - n * c
  }

  /** Residual moment  Sxy - m * Sxx - c * Sx  of the line (m, c), over the moments. */
  function NormalX(sx: real, sxy: real, sxx: real, m: real, c: real): real
  {
    sxy - m * sxx - c * sx
  }

  lemma NormalAlgebra(n: real, sx: real, sy: real, sxy: real, sxx: real)
    requires n > 0.0 && Det(n, sx, sxx) != 0.0
    ensures NormalOne(n, sx, sy, ClosedForm(n, sx, sy, sxy, sxx).slope, ClosedForm(n, sx, sy, sxy, sxx).intercept) == 0.0
    ensures NormalX(sx, sxy, sxx, ClosedForm(n, sx, sy, sxy, sxx).slope, ClosedForm(n, sx, sy, sxy, sxx).intercept) == 0.0
  {
    var f := ClosedForm(n, sx, sy, sxy, sxx);
    var slope, intercept := f.slope, f.intercept;
    assert slope * (n * sxx - sx * sx) == n * sxy - sx * sy;
    assert n * intercept == sy - slope * sx;
    assert n * (sxy - slope * sxx - intercept * sx) == (n * sxy - sx * sy) - slope * (n * sxx - sx * sx);
  }

  lemma DegenerateNormalAlgebra(n: real, k: real, sx: real, sy: real, sxy: real, sxx: real)
    requires n > 0.0 && Det(n, sx, sxx) == 0.0 && sx == n * k && sxy == k * sy
    ensures NormalOne(n, sx, sy, ClosedForm(n, sx, sy, sxy, sxx).slope, ClosedForm(n, sx, sy, sxy, sxx).intercept) == 0.0
    ensures NormalX(sx, sxy, sxx, ClosedForm(n, sx, sy, sxy, sxx).slope, ClosedForm(n, sx, sy, sxy, sxx).intercept) == 0.0
  {
    assert ClosedForm(n, sx, sy, sxy, sxx) == FitResult(0.0, sy / n);
    assert (sy / n) * (n * k) == k * sy;
  }

  /** Squared residual of one point against the line (m, c). */
  function Residual2(x: real, y: real, m: real, c: real): real
  {
    (y - m * x - c) * (y - m * x - c)
  }

  /** The sum of squared residuals of the line (m, c), written over the moments
      n, Sx, Sy, Sxy, Sxx and Syy. */
  function Quad(n: real, sx: real, sy: real, sxy: real, sxx: real, syy: real, m: real, c: real): real
  {
    syy - 2.0 * m * sxy - 2.0 * c * sy + m * m * sxx + 2.0 * m * c * sx + n * c * c
  }

  lemma QuadStep(x: real, y: real, m: real, c: real, e: real, et: real,
                 n: real, sx: real, sy: real, sxy: real, sxx: real, syy: real,
                 n': real, sx': real, sy': real, sxy': real, sxx': real, syy': real)
    requires et == Quad(n, sx, sy, sxy, sxx, syy, m, c) && e == et + Residual2(x, y, m, c)
    requires n' == n + 1.0 && sx' == sx + x && sy' == sy + y
    requires sxy' == sxy + x * y && sxx' == sxx + x * x && syy' == syy + y * y
    ensures e == Quad(n', sx', sy', sxy', sxx', syy', m, c)
  {
  }

  /** Moving from (m0, c0) to (m, c) changes the quadratic by the two residual
      moments of (m0, c0) and a quadratic form in the change. */
  lemma QuadDifference(n: real, sx: real, sy: real, sxy: real, sxx: real, syy: real,
                       m0: real, c0: real, m: real, c: real, dm: real, dc: real)
    requires dm == m - m0 && dc == c - c0
    ensures Quad(n, sx, sy, sxy, sxx, syy, m, c) - Quad(n, sx, sy, sxy, sxx, syy, m0, c0)
         == -2.0 * dm * NormalX(sx, sxy, sxx, m0, c0) - 2.0 * dc * NormalOne(n, sx, sy, m0, c0)
            + (sxx * dm * dm + 2.0 * sx * dm * dc + n * dc * dc)
  {
  }

  lemma FormIdentity(n: real, sx: real, sxx: real, dm: real, dc: real)
    ensures n * (sxx * dm * dm + 2.0 * sx * dm * dc + n * dc * dc)
         == (n * dc + sx * dm) * (n * dc + sx * dm) + Det(n, sx, sxx) * (dm * dm)
  {
  }

  lemma ProductNonNegative(a: real, b: real, m: real)
    requires m == a * b
    requires a >= 0.0 && b >= 0.0
    ensures m >= 0.0
  {
    if a > 0.0 && b > 0.0 {
      ProductPositive(a, b, m);
    }
  }

  /** The quadratic form Sxx dm^2 + 2 Sx dm dc + n dc^2 is positive semi-definite
      when n > 0 and n Sxx - Sx^2 >= 0. */
  lemma FormNonNegative(n: real, sx: real, sxx: real, dm: real, dc: real)
    requires n > 0.0 && Det(n, sx, sxx) >= 0.0
    ensures sxx * dm * dm + 2.0 * sx * dm * dc + n * dc * dc >= 0.0
  {
    var f := sxx * dm * dm + 2.0 * sx * dm * dc + n * dc * dc;
    var s := n * dc + sx * dm;
    var d := Det(n, sx, sxx);
    FormIdentity(n, sx, sxx, dm, dc);
    SquareNonNegative(s, s * s);
    SquareNonNegative(dm, dm * dm);
    ProductNonNegative(d, dm * dm, d * (dm * dm));
    assert n * f >= 0.0;
    if f < 0.0 {
      ProductPositive(n, -f, n * -f);
      assert false;
    }
  }

  /** A line satisfying the normal equations minimises the quadratic. */
  lemma QuadMinimum(n: real, sx: real, sy: real, sxy: real, sxx: real, syy: real,
                    m0: real, c0: real, m: real, c: real)
    requires n > 0.0 && Det(n, sx, sxx) >= 0.0
    requires NormalOne(n, sx, sy, m0, c0) == 0.0 && NormalX(sx, sxy, sxx, m0, c0) == 0.0
    ensures Quad(n, sx, sy, sxy, sxx, syy, m0, c0) <= Quad(n, sx, sy, sxy, sxx, syy, m, c)
  {
    QuadDifference(n, sx, sy, sxy, sxx, syy, m0, c0, m, c, m - m0, c - c0);
    FormNonNegative(n, sx, sxx, m - m0, c - c0);
  }

  // ---------------------------------------------------------------------------
  // The denominator vanishes exactly when every x is the same

  /** Sum of squared deviations of s from a point z. */
  function SqDev(s: seq<real>, z: real): real
  {
    if s == [] then 0.0 else SqDev(s[..|s| - 1], z) + (s[|s| - 1] - z) * (s[|s| - 1] - z)
  }

  lemma {:induction false} SqDevExpand(s: seq<real>, z: real)
    ensures SqDev(s, z) == Dot(s, s) - 2.0 * z * Sum(s) + |s| as real * z * z
  {
    if s != [] {
      var t, w := s[..|s| - 1], s[|s| - 1];
      SqDevExpand(t, z);
      SqDevStep(Dot(t, t), Sum(t), |t| as real, w, z, Dot(s, s), Sum(s), |s| as real);
    }
  }

  /** The squared deviations are non-negative, and zero exactly when every
      element equals z. */
  lemma {:induction false} SqDevZeroIff(s: seq<real>, z: real)
    ensures SqDev(s, z) >= 0.0
    ensures SqDev(s, z) == 0.0 <==> forall i :: 0 <= i < |s| ==> s[i] == z
  {
    if s != [] {
      var t, w := s[..|s| - 1], s[|s| - 1];
      SqDevZeroIff(t, z);
      SquareNonNegative(w - z, (w - z) * (w - z));
      if w != z {
        SquareNonZero(w - z, (w - z) * (w - z));
      }
      if SqDev(s, z) == 0.0 {
        forall i | 0 <= i < |s| ensures s[i] == z {
          if i < |t| { assert s[i] == t[i]; }
        }
      }
      if forall i :: 0 <= i < |s| ==> s[i] == z {
        forall i | 0 <= i < |t| ensures t[i] == z { assert t[i] == s[i]; }
      }
    }
  }

  /** Appending a last value z to the prefix grows the denominator by the
      squared deviations of the prefix from z. */
  lemma DenominatorSnoc(xs: seq<real>)
    requires xs != []
    ensures var k := |xs| - 1; Denominator(xs) == Denominator(xs[..k]) + SqDev(xs[..k], xs[k])
  {
    var k := |xs| - 1;
    var t, z := xs[..k], xs[k];
    var dot, sum, dot', sum' := Dot(t, t), Sum(t), Dot(xs, xs), Sum(xs);
    assert dot' == dot + z * z;
    assert sum' == sum + z;
    SqDevExpand(t, z);
    DenominatorStep(dot, sum, |t| as real, z, dot', sum', |xs| as real);
  }

  /** n * Sxx - Sx^2 is never negative, and is zero exactly when all x are equal
      (the degenerate case of the fit, "all x identical"). */
  lemma {:induction false} DenominatorZeroIffConstant(xs: seq<real>)
    requires xs != []
    ensures Denominator(xs) >= 0.0
    ensures Denominator(xs) == 0.0 <==> ConstantSeq(xs)
  {
    if |xs| == 1 {
      var x := xs[0];
      assert xs[..0] == [];
      assert Sum(xs) == x;
      assert Dot(xs, xs) == x * x;
      SingletonDenominator(|xs| as real, Dot(xs, xs), Sum(xs), x);
    } else {
      var t, z := xs[..|xs| - 1], xs[|xs| - 1];
      DenominatorZeroIffConstant(t);
      DenominatorSnoc(xs);
      SqDevZeroIff(t, z);
      if ConstantSeq(xs) {
        forall i | 0 <= i < |t| ensures t[i] == z {
          assert t[i] == xs[i] && t[0] == xs[0];
        }
      }
      if Denominator(xs) == 0.0 {
        assert ConstantSeq(t) && forall i :: 0 <= i < |t| ==> t[i] == z;
        forall i | 0 <= i < |xs| ensures xs[i] == xs[0] {
          assert xs[0] == t[0];
          if i < |t| { assert xs[i] == t[i]; }
        }
      }
    }
  }

  // ---------------------------------------------------------------------------
  // Moments of special inputs, stated over the moment values

  /** Points lying on y = a * x + b have Sy = a * Sx + n * b. */
  lemma {:induction false} LineSum(xs: seq<real>, ys: seq<real>, a: real, b: real,
                                   n: real, sx: real, sy: real)
    requires |xs| == |ys|
    requires forall i :: 0 <= i < |xs| ==> ys[i] == a * xs[i] + b
    requires n == |xs| as real && sx == Sum(xs) && sy == Sum(ys)
    ensures sy == a * sx + n * b
  {
    if xs != [] {
      var k := |xs| - 1;
      var t, u, x, y := xs[..k], ys[..k], xs[k], ys[k];
      var sx1, sy1 := Sum(t), Sum(u);
      assert sx == sx1 + x;
      assert sy == sy1 + y;
      assert y == a * x + b;
      LineSum(t, u, a, b, |t| as real, sx1, sy1);
      LineSumStep(a, b, x, y, sx1, sy1, |t| as real, sx, sy, n);
    }
  }

  /** Points lying on y = a * x + b have Sxy = a * Sxx + b * Sx. */
  lemma {:induction false} LineCross(xs: seq<real>, ys: seq<real>, a: real, b: real,
                                     sx: real, sxy: real, sxx: real)
    requires |xs| == |ys|
    requires forall i :: 0 <= i < |xs| ==> ys[i] == a * xs[i] + b
    requires sx == Sum(xs) && sxy == Dot(xs, ys) && sxx == Dot(xs, xs)
    ensures sxy == a * sxx + b * sx
  {
    if xs != [] {
      var k := |xs| - 1;
      var t, u, x, y := xs[..k], ys[..k], xs[k], ys[k];
      var sx1, sxy1, sxx1 := Sum(t), Dot(t, u), Dot(t, t);
      assert sx == sx1 + x;
      assert sxy == sxy1 + x * y;
      assert sxx == sxx1 + x * x;
      assert y == a * x + b;
      LineCross(t, u, a, b, sx1, sxy1, sxx1);
      LineCrossStep(a, b, x, y, sx1, sxy1, sxx1, sx, sxy, sxx);
    }
  }

  /** When every x equals k: Sx = n * k and Sxy = k * Sy. */
  lemma {:induction false} ConstantMoments(xs: seq<real>, ys: seq<real>, k: real,
                                           n: real, sx: real, sy: real, sxy: real)
    requires |xs| == |ys|
    requires forall i :: 0 <= i < |xs| ==> xs[i] == k
    requires n == |xs| as real && sx == Sum(xs) && sy == Sum(ys) && sxy == Dot(xs, ys)
    ensures sx == n * k && sxy == k * sy
  {
    if xs != [] {
      var j := |xs| - 1;
      var t, u, y := xs[..j], ys[..j], ys[j];
      var sx1, sy1, sxy1 := Sum(t), Sum(u), Dot(t, u);
      assert xs[j] == k;
      assert sx == sx1 + k;
      assert sy == sy1 + y;
      assert sxy == sxy1 + k * y;
      ConstantMoments(t, u, k, |t| as real, sx1, sy1, sxy1);
      ConstantMomentsStep(k, y, sx1, sy1, sxy1, |t| as real, sx, sy, sxy, n);
    }
  }

  // ---------------------------------------------------------------------------
  // Properties of the fit

  /** Degenerate input: with all x identical the fit is the horizontal line
      through the mean of y. */
  lemma FitOfConstantX(xs: seq<real>, ys: seq<real>)
    requires |xs| == |ys| && |xs| >= 2
    requires ConstantSeq(xs)
    ensures Fit(xs, ys) == FitResult(0.0, Mean(ys))
  {
    DenominatorZeroIffConstant(xs);
  }

  /** Whenever there are at least two points, the fitted line passes through the
      centroid (mean x, mean y), in the degenerate case as well. */
  lemma FitPassesThroughCentroid(xs: seq<real>, ys: seq<real>)
    requires |xs| == |ys| && |xs| >= 2
    ensures Fit(xs, ys).slope * Mean(xs) + Fit(xs, ys).intercept == Mean(ys)
  {
    CentroidAlgebra(|xs| as real, Sum(xs), Sum(ys), Dot(xs, ys), Dot(xs, xs), Mean(xs), Mean(ys));
  }

  /** Points lying exactly on y = a * x + b, with not all x equal, give back a and b. */
  lemma FitRecoversLine(xs: seq<real>, ys: seq<real>, a: real, b: real)
    requires |xs| == |ys|
    requires forall i :: 0 <= i < |xs| ==> ys[i] == a * xs[i] + b
    requires !ConstantSeq(xs)
    ensures Fit(xs, ys) == FitResult(a, b)
  {
    var n, sx, sy, sxy, sxx := |xs| as real, Sum(xs), Sum(ys), Dot(xs, ys), Dot(xs, xs);
    DenominatorZeroIffConstant(xs);
    assert Det(n, sx, sxx) != 0.0;
    LineSum(xs, ys, a, b, n, sx, sy);
    LineCross(xs, ys, a, b, sx, sxy, sxx);
    RecoverAlgebra(n, sx, sy, sxy, sxx, a, b);
    assert Fit(xs, ys) == ClosedForm(n, sx, sy, sxy, sxx);
  }

  /** The residuals of the fit sum to zero and are orthogonal to x (the normal
      equations), in the regular and the degenerate case alike. */
  lemma FitNormalEquations(xs: seq<real>, ys: seq<real>)
    requires |xs| == |ys| && |xs| >= 2
    ensures NormalOne(|xs| as real, Sum(xs), Sum(ys), Fit(xs, ys).slope, Fit(xs, ys).intercept) == 0.0
    ensures NormalX(Sum(xs), Dot(xs, ys), Dot(xs, xs), Fit(xs, ys).slope, Fit(xs, ys).intercept) == 0.0
  {
    var n, sx, sy, sxy, sxx := |xs| as real, Sum(xs), Sum(ys), Dot(xs, ys), Dot(xs, xs);
    DenominatorZeroIffConstant(xs);
    if Det(n, sx, sxx) == 0.0 {
      ConstantMoments(xs, ys, xs[0], n, sx, sy, sxy);
      DegenerateNormalAlgebra(n, xs[0], sx, sy, sxy, sxx);
    } else {
      NormalAlgebra(n, sx, sy, sxy, sxx);
    }
  }

  // ---------------------------------------------------------------------------
  // Least squares: the fit minimises the sum of squared residuals

  /** Sum over the points of (y - m * x - c)^2. */
  function SquaredError(xs: seq<real>, ys: seq<real>, m: real, c: real): real
    requires |xs| == |ys|
  {
    if xs == [] then 0.0
    else
      var k := |xs| - 1;
      SquaredError(xs[..k], ys[..k], m, c) + Residual2(xs[k], ys[k], m, c)
  }

  /** Sum peeled at its last element x, the one at index k, with t the rest. */
  lemma SumSnoc(s: seq<real>, k: int, t: seq<real>, x: real)
    requires s != [] && k == |s| - 1 && t == s[..k] && x == s[k]
    ensures Sum(s) == Sum(t) + x
  {
  }

  /** Dot product peeled at its last pair (x, y), the one at index k, with t and u the rest. */
  lemma DotSnoc(a: seq<real>, b: seq<real>, k: int, t: seq<real>, u: seq<real>, x: real, y: real)
    requires |a| == |b| && a != [] && k == |a| - 1
    requires t == a[..k] && u == b[..k] && x == a[k] && y == b[k]
    ensures Dot(a, b) == Dot(t, u) + x * y
  {
  }

  /** The squared error of a line depends on the points only through their moments. */
  lemma {:induction false} SquaredErrorMoments(xs: seq<real>, ys: seq<real>, m: real, c: real, e: real,
                                               n: real, sx: real, sy: real, sxy: real, sxx: real, syy: real)
    requires |xs| == |ys| && e == SquaredError(xs, ys, m, c)
    requires n == |xs| as real && sx == Sum(xs) && sy == Sum(ys)
    requires sxy == Dot(xs, ys) && sxx == Dot(xs, xs) && syy == Dot(ys, ys)
    ensures e == Quad(n, sx, sy, sxy, sxx, syy, m, c)
  {
    if xs != [] {
      var k := |xs| - 1;
      var t, u, x, y := xs[..k], ys[..k], xs[k], ys[k];
      var et := SquaredError(t, u, m, c);
      var sx1, sy1, sxy1, sxx1, syy1 := Sum(t), Sum(u), Dot(t, u), Dot(t, t), Dot(u, u);
      SumSnoc(xs, k, t, x);
      SumSnoc(ys, k, u, y);
      DotSnoc(xs, ys, k, t, u, x, y);
      DotSnoc(xs, xs, k, t, t, x, x);
      DotSnoc(ys, ys, k, u, u, y, y);
      assert e == et + Residual2(x, y, m, c);
      SquaredErrorMoments(t, u, m, c, et, |t| as real, sx1, sy1, sxy1, sxx1, syy1);
      QuadStep(x, y, m, c, e, et, |t| as real, sx1, sy1, sxy1, sxx1, syy1, n, sx, sy, sxy, sxx, syy);
    }
  }

  /** For at least two points, no line has a smaller sum of squared residuals
      than the fitted one. */
  lemma FitMinimisesSquaredError(xs: seq<real>, ys: seq<real>, m: real, c: real)
    requires |xs| == |ys| && |xs| >= 2
    ensures SquaredError(xs, ys, Fit(xs, ys).slope, Fit(xs, ys).intercept) <= SquaredError(xs, ys, m, c)
  {
    var n, sx, sy, sxy, sxx, syy := |xs| as real, Sum(xs), Sum(ys), Dot(xs, ys), Dot(xs, xs), Dot(ys, ys);
    var f := Fit(xs, ys);
    DenominatorZeroIffConstant(xs);
    FitNormalEquations(xs, ys);
    SquaredErrorMoments(xs, ys, f.slope, f.intercept, SquaredError(xs, ys, f.slope, f.intercept), n, sx, sy, sxy, sxx, syy);
    SquaredErrorMoments(xs, ys, m, c, SquaredError(xs, ys, m, c), n, sx, sy, sxy, sxx, syy);
    QuadMinimum(n, sx, sy, sxy, sxx, syy, f.slope, f.intercept, m, c);
  }
}
