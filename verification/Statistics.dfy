/** One-pass mean, variance and correlation against their definitions. Numbers
    are reals; the square root is a parameter. */
module Statistics {
  import opened Basics
  import opened Numbers

  // ----- two-pass definitions -----

  ghost function Total(xs: seq<real>): real {
    if xs == [] then 0.0 else Total(xs[..|xs| - 1]) + xs[|xs| - 1]
  }

  ghost function Mean(xs: seq<real>): real { if xs == [] then 0.0 else Total(xs) / |xs| as real }

  ghost function Mul(a: real, b: real): real { a * b }

  ghost function ZipWith(f: (real, real) -> real, us: seq<real>, vs: seq<real>): (r: seq<real>)
    requires |us| == |vs|
    ensures |r| == |us|
  {
    seq(|us|, i requires 0 <= i < |us| => f(us[i], vs[i]))
  }

  ghost function Repeat(c: real, n: nat): (r: seq<real>)
    ensures |r| == n
  {
    seq(n, i requires 0 <= i < n => c)
  }

  ghost function Products(us: seq<real>, vs: seq<real>): seq<real>
    requires |us| == |vs|
  {
    ZipWith(Mul, us, vs)
  }

  ghost function Scaled(c: real, us: seq<real>): seq<real> { Products(Repeat(c, |us|), us) }

  ghost function Deviations(xs: seq<real>, m: real): (r: seq<real>)
    ensures |r| == |xs|
  {
    seq(|xs|, i requires 0 <= i < |xs| => xs[i] - m)
  }

  ghost function Dot(us: seq<real>, vs: seq<real>): real
    requires |us| == |vs|
  {
    Total(Products(us, vs))
  }

  /** Sum of products of deviations from the two means. */
  ghost function Cross(xs: seq<real>, ys: seq<real>): real
    requires |xs| == |ys|
  {
    Dot(Deviations(xs, Mean(xs)), Deviations(ys, Mean(ys)))
  }

  ghost function Variance(xs: seq<real>): real
    requires xs != []
  {
    Cross(xs, xs) / |xs| as real
  }

  // ----- sums are linear -----

  lemma TotalSnoc(xs: seq<real>, a: real)
    ensures Total(xs + [a]) == Total(xs) + a
  {
    assert (xs + [a])[..|xs|] == xs;
  }

  lemma {:induction false} TotalAdds(ps: seq<real>, qs: seq<real>, rs: seq<real>, ts: seq<real>)
    requires |ps| == |qs| == |rs| == |ts| && forall i :: 0 <= i < |ps| ==> ps[i] == qs[i] + rs[i] + ts[i]
    ensures Total(ps) == Total(qs) + Total(rs) + Total(ts)
    decreases |ps|
  {
    if ps != [] {
      var n := |ps| - 1;
      TotalAdds(ps[..n], qs[..n], rs[..n], ts[..n]);
    }
  }

  lemma Distribute(c: real, t: real, a: real)
    ensures c * (t + a) == c * t + c * a
  {
  }

  lemma ZipSnoc(f: (real, real) -> real, us: seq<real>, vs: seq<real>)
    requires |us| == |vs| > 0
    ensures var n := |us| - 1;
            Total(ZipWith(f, us, vs)) == Total(ZipWith(f, us[..n], vs[..n])) + f(us[n], vs[n])
  {
    var n := |us| - 1;
    assert ZipWith(f, us, vs)[..n] == ZipWith(f, us[..n], vs[..n]);
  }

  lemma {:induction false} ScaledTotal(c: real, us: seq<real>)
    ensures Total(Scaled(c, us)) == c * Total(us)
    decreases |us|
  {
    if us != [] {
      var n := |us| - 1;
      ScaledTotal(c, us[..n]);
      Distribute(c, Total(us[..n]), us[n]);
      assert Repeat(c, |us|)[..n] == Repeat(c, n);
      ZipSnoc(Mul, Repeat(c, |us|), us);
    }
  }

  lemma {:induction false} DeviationsTotal(xs: seq<real>, m: real, k: real)
    requires k == |xs| as real
    ensures Total(Deviations(xs, m)) == Total(xs) - k * m
    decreases |xs|
  {
    if xs != [] {
      var n := |xs| - 1;
      DeviationsTotal(xs[..n], m, k - 1.0);
      Distribute(m, k - 1.0, 1.0);
      assert Deviations(xs, m)[..n] == Deviations(xs[..n], m);
    }
  }

  lemma DotSnoc(us: seq<real>, vs: seq<real>, a: real, b: real, p: real)
    requires |us| == |vs| && p == a * b
    ensures Dot(us + [a], vs + [b]) == Dot(us, vs) + p
  {
    ZipSnoc(Mul, us + [a], vs + [b]);
    assert (us + [a])[..|us|] == us && (vs + [b])[..|vs|] == vs;
  }

  // ----- the recurrence -----

  lemma MeanTimes(s: real, n: real)
    requires n > 0.0
    ensures s == n * (s / n)
  {
  }

  lemma TotalIsMean(xs: seq<real>, k: real, u: real)
    requires k == |xs| as real && u == Mean(xs)
    ensures Total(xs) == k * u
  {
    if xs != [] { MeanTimes(Total(xs), k); }
  }

  lemma ProductAt(us: seq<real>, vs: seq<real>, i: nat, a: real, b: real)
    requires i < |us| == |vs| && us[i] == a && vs[i] == b
    ensures Products(us, vs)[i] == a * b
  {
    ZipAt(Mul, us, vs, i, a, b);
    assert Mul(a, b) == a * b;
  }

  lemma ZipAt(f: (real, real) -> real, us: seq<real>, vs: seq<real>, i: nat, a: real, b: real)
    requires i < |us| == |vs| && us[i] == a && vs[i] == b
    ensures ZipWith(f, us, vs)[i] == f(a, b)
  {
  }

  lemma ScaledAt(c: real, us: seq<real>, i: nat, a: real)
    requires i < |us| && us[i] == a
    ensures Scaled(c, us)[i] == c * a
  {
    ProductAt(Repeat(c, |us|), us, i, c, a);
  }

  lemma DeviationProduct(a: real, x: real, b: real, y: real)
    ensures (a - x) * (b - y) == a * b + -y * (a - x) + -x * b
  {
  }

  lemma DeviationProducts(xs: seq<real>, ys: seq<real>, u: real, v: real)
    requires |xs| == |ys|
    ensures Dot(Deviations(xs, u), Deviations(ys, v))
            == Dot(xs, ys) + Total(Scaled(-v, Deviations(xs, u))) + Total(Scaled(-u, ys))
  {
    var du, dv := Deviations(xs, u), Deviations(ys, v);
    forall i | 0 <= i < |xs|
      ensures Products(du, dv)[i] == Products(xs, ys)[i] + Scaled(-v, du)[i] + Scaled(-u, ys)[i]
    {
      ProductAt(du, dv, i, xs[i] - u, ys[i] - v);
      ProductAt(xs, ys, i, xs[i], ys[i]);
      ScaledAt(-v, du, i, xs[i] - u);
      ScaledAt(-u, ys, i, ys[i]);
      DeviationProduct(xs[i], u, ys[i], v);
    }
    TotalAdds(Products(du, dv), Products(xs, ys), Scaled(-v, du), Scaled(-u, ys));
  }

  /** The deviations from a mean sum to nothing. */
  lemma DeviationsCancel(xs: seq<real>, u: real)
    requires u == Mean(xs)
    ensures Total(Deviations(xs, u)) == 0.0
  {
    var k := |xs| as real;
    DeviationsTotal(xs, u, k);
    TotalIsMean(xs, k, u);
  }

  lemma ScaledZero(c: real, us: seq<real>)
    requires Total(us) == 0.0
    ensures Total(Scaled(c, us)) == 0.0
  {
    ScaledTotal(c, us);
  }

  lemma ScaledMean(u: real, ys: seq<real>, k: real, v: real)
    requires k == |ys| as real && v == Mean(ys)
    ensures Total(Scaled(-u, ys)) == -(k * u * v)
  {
    ScaledTotal(-u, ys);
    TotalIsMean(ys, k, v);
    Reorder(u, k, v, Total(ys));
  }

  lemma Reorder(u: real, k: real, v: real, s: real)
    requires s == k * v
    ensures -u * s == -(k * u * v)
  {
  }

  /** The cross sum is the raw product sum less the means' share. */
  lemma CrossExpands(xs: seq<real>, ys: seq<real>, k: real, u: real, v: real)
    requires |xs| == |ys| && k == |xs| as real && u == Mean(xs) && v == Mean(ys)
    ensures Cross(xs, ys) == Dot(xs, ys) - k * u * v
  {
    DeviationProducts(xs, ys, u, v);
    DeviationsCancel(xs, u);
    ScaledZero(-v, Deviations(xs, u));
    ScaledMean(u, ys, k, v);
  }

  /** The polynomial identity behind the update. */
  lemma Update(n: real, u: real, v: real, d: real, e: real)
    ensures (u + (n + 1.0) * d) * (v + (n + 1.0) * e) - (n + 1.0) * (u + d) * (v + e) + n * u * v
            == (n + 1.0) * d * (n * e)
  {
    var k := n + 1.0;
    assert (u + k * d) * (v + k * e) == u * v + k * (u * e) + k * (d * v) + k * k * (d * e);
    assert k * (u + d) * (v + e) == k * (u * v) + k * (u * e) + k * (d * v) + k * (d * e);
    assert k * k * (d * e) - k * (d * e) == k * n * (d * e);
    assert k * d * (n * e) == k * n * (d * e);
  }

  lemma MeanMoves(n: real, u: real, a: real)
    requires n >= 0.0
    ensures (n * u + a) / (n + 1.0) == u + (a - u) / (n + 1.0)
    ensures a == u + (n + 1.0) * ((a - u) / (n + 1.0))
  {
    MeanTimes(a - u, n + 1.0);
    assert n * u + a == (n + 1.0) * u + (a - u);
  }

  /** The update of a sum of products when both means move. */
  lemma ProductAdded(k: real, u: real, v: real, u': real, v': real, a: real, b: real, xy: real)
    requires k >= 1.0 && u' == u + (a - u) / k && v' == v + (b - v) / k
    ensures xy + a * b - k * u' * v' == xy - (k - 1.0) * u * v + (a - u) * (b - v')
  {
    var n, d, e := k - 1.0, (a - u) / k, (b - v) / k;
    MeanMoves(n, u, a);
    MeanMoves(n, v, b);
    Update(n, u, v, d, e);
    assert a - u == (n + 1.0) * d && b - v' == n * e;
  }

  /** The running mean. */
  lemma MeanUpdate(xs: seq<real>, a: real, k: real)
    requires k == |xs| as real + 1.0
    ensures Mean(xs + [a]) == Mean(xs) + (a - Mean(xs)) / k
  {
    TotalSnoc(xs, a);
    TotalIsMean(xs, k - 1.0, Mean(xs));
    MeanMoves(k - 1.0, Mean(xs), a);
  }

  lemma CrossAfter(xs: seq<real>, ys: seq<real>, a: real, b: real, k: real, u': real, v': real, ab: real)
    requires |xs| == |ys| && k == |xs| as real + 1.0 && ab == a * b
    requires u' == Mean(xs + [a]) && v' == Mean(ys + [b])
    ensures Cross(xs + [a], ys + [b]) == Dot(xs, ys) + ab - k * u' * v'
  {
    CrossExpands(xs + [a], ys + [b], k, u', v');
    DotSnoc(xs, ys, a, b, ab);
  }

  /** One more pair adds one product of an old and a new deviation. */
  lemma CrossUpdate(xs: seq<real>, ys: seq<real>, a: real, b: real, k: real, p: real)
    requires |xs| == |ys| && k == |xs| as real + 1.0 && p == (a - Mean(xs)) * (b - Mean(ys + [b]))
    ensures Cross(xs + [a], ys + [b]) == Cross(xs, ys) + p
  {
    var u, v, u', v' := Mean(xs), Mean(ys), Mean(xs + [a]), Mean(ys + [b]);
    MeanUpdate(xs, a, k);
    MeanUpdate(ys, b, k);
    CrossExpands(xs, ys, k - 1.0, u, v);
    CrossAfter(xs, ys, a, b, k, u', v', a * b);
    ProductAdded(k, u, v, u', v', a, b, Dot(xs, ys));
  }

  // ----- Cauchy and Schwarz -----

  lemma {:induction false} TotalNonNegative(xs: seq<real>)
    requires forall i :: 0 <= i < |xs| ==> xs[i] >= 0.0
    ensures Total(xs) >= 0.0
    decreases |xs|
  {
    if xs != [] { TotalNonNegative(xs[..|xs| - 1]); }
  }

  lemma SquareNonNegative(v: real)
    ensures v * v >= 0.0
  {
  }

  lemma DotNonNegative(ws: seq<real>)
    ensures Dot(ws, ws) >= 0.0
  {
    forall i | 0 <= i < |ws| ensures Products(ws, ws)[i] >= 0.0 {
      ProductAt(ws, ws, i, ws[i], ws[i]);
      SquareNonNegative(ws[i]);
    }
    TotalNonNegative(Products(ws, ws));
  }

  ghost function Combined(s: real, t: real, us: seq<real>, vs: seq<real>): (r: seq<real>)
    requires |us| == |vs|
    ensures |r| == |us|
  {
    seq(|us|, i requires 0 <= i < |us| => s * us[i] + t * vs[i])
  }

  lemma SquareOfSum(s: real, t: real, d: real, e: real)
    ensures (s * d + t * e) * (s * d + t * e) == s * s * (d * d) + 2.0 * (s * t) * (d * e) + t * t * (e * e)
  {
  }

  lemma CombinedProducts(s: real, t: real, us: seq<real>, vs: seq<real>, c: real, d: real, e: real)
    requires |us| == |vs| && c == s * s && d == 2.0 * (s * t) && e == t * t
    ensures var ws := Combined(s, t, us, vs);
            Dot(ws, ws) == Total(Scaled(c, Products(us, us))) + Total(Scaled(d, Products(us, vs)))
                           + Total(Scaled(e, Products(vs, vs)))
  {
    var ws := Combined(s, t, us, vs);
    var ps, qs, rs := Products(us, us), Products(us, vs), Products(vs, vs);
    forall i | 0 <= i < |us|
      ensures Products(ws, ws)[i] == Scaled(c, ps)[i] + Scaled(d, qs)[i] + Scaled(e, rs)[i]
    {
      var a, b := us[i], vs[i];
      ProductAt(ws, ws, i, s * a + t * b, s * a + t * b);
      ProductAt(us, us, i, a, a);
      ProductAt(us, vs, i, a, b);
      ProductAt(vs, vs, i, b, b);
      ScaledAt(c, ps, i, a * a);
      ScaledAt(d, qs, i, a * b);
      ScaledAt(e, rs, i, b * b);
      SquareOfSum(s, t, a, b);
    }
    TotalAdds(Products(ws, ws), Scaled(c, ps), Scaled(d, qs), Scaled(e, rs));
  }

  lemma FormAt(us: seq<real>, vs: seq<real>, s: real, t: real, c: real, d: real, e: real)
    requires |us| == |vs| && c == s * s && d == 2.0 * (s * t) && e == t * t
    ensures c * Dot(us, us) + d * Dot(us, vs) + e * Dot(vs, vs) >= 0.0
  {
    CombinedProducts(s, t, us, vs, c, d, e);
    ScaledTotal(c, Products(us, us));
    ScaledTotal(d, Products(us, vs));
    ScaledTotal(e, Products(vs, vs));
    DotNonNegative(Combined(s, t, us, vs));
  }

  /** The quadratic form of the three products is a sum of squares. */
  lemma FormNonNegative(us: seq<real>, vs: seq<real>, s: real, t: real, uu: real, uv: real, vv: real)
    requires |us| == |vs| && uu == Dot(us, us) && uv == Dot(us, vs) && vv == Dot(vs, vs)
    ensures s * s * uu + 2.0 * (s * t) * uv + t * t * vv >= 0.0
  {
    FormAt(us, vs, s, t, s * s, 2.0 * (s * t), t * t);
  }

  lemma Discriminant(uu: real, uv: real, vv: real)
    requires uu >= 0.0 && vv >= 0.0
    requires -uv * -uv * uu + 2.0 * (-uv * uu) * uv + uu * uu * vv >= 0.0
    requires -(vv + 1.0) * -(vv + 1.0) * uu + 2.0 * (-(vv + 1.0) * uv) * uv + uv * uv * vv >= 0.0
    ensures uv * uv <= uu * vv
  {
    if uu > 0.0 {
      assert -uv * -uv * uu + 2.0 * (-uv * uu) * uv + uu * uu * vv == uu * (uu * vv - uv * uv);
    } else {
      assert 2.0 * (-(vv + 1.0) * uv) * uv + uv * uv * vv == -(uv * uv) * (vv + 2.0);
      assert (uv * uv) * (vv + 2.0) <= 0.0;
      assert uv * uv >= 0.0;
    }
  }

  lemma CauchySchwarz(us: seq<real>, vs: seq<real>, uu: real, uv: real, vv: real)
    requires |us| == |vs| && uu == Dot(us, us) && uv == Dot(us, vs) && vv == Dot(vs, vs)
    ensures uu >= 0.0 && vv >= 0.0 && uv * uv <= uu * vv
  {
    DotNonNegative(us);
    DotNonNegative(vs);
    FormNonNegative(us, vs, -uv, uu, uu, uv, vv);
    FormNonNegative(us, vs, -(vv + 1.0), uv, uu, uv, vv);
    Discriminant(uu, uv, vv);
  }

  /** Variances are never negative and bound the covariance. */
  lemma CorrelationBound(xs: seq<real>, ys: seq<real>)
    requires |xs| == |ys|
    ensures Cross(xs, xs) >= 0.0 && Cross(ys, ys) >= 0.0
    ensures Cross(xs, ys) * Cross(xs, ys) <= Cross(xs, xs) * Cross(ys, ys)
  {
    CauchySchwarz(Deviations(xs, Mean(xs)), Deviations(ys, Mean(ys)), Cross(xs, xs), Cross(xs, ys), Cross(ys, ys));
  }

  // ----- the loops -----

  /** A square root, wherever the code takes one. */
  ghost predicate IsSqrt(root: real -> real) {
    forall x :: x >= 0.0 ==> root(x) >= 0.0 && root(x) * root(x) == x
  }

  lemma Longer(xs: seq<real>, i: nat)
    requires i < |xs|
    ensures xs[..i + 1] == xs[..i] + [xs[i]]
  {
  }

  /** Welford's pass: count, mean and sum of squared deviations. */
  method RunningMoments(xs: seq<real>) returns (count: nat, mean: real, m2: real)
    ensures count == |xs| && mean == Mean(xs) && m2 == Cross(xs, xs)
  {
    count, mean, m2 := 0, 0.0, 0.0;
    assert Cross([], []) == 0.0;
    for i := 0 to |xs|
      invariant count == i && mean == Mean(xs[..i]) && m2 == Cross(xs[..i], xs[..i])
    {
      count := count + 1;
      var delta := xs[i] - mean;
      Longer(xs, i);
      MeanUpdate(xs[..i], xs[i], count as real);
      mean := mean + delta / count as real;
      var product := delta * (xs[i] - mean);
      CrossUpdate(xs[..i], xs[..i], xs[i], xs[i], count as real, product);
      m2 := m2 + product;
    }
    assert xs[..|xs|] == xs;
  }

  /** The reported Sharpe ratio uses the population variance. */
  method SharpeFromReturns(xs: seq<real>, root: real -> real) returns (sharpe: real)
    requires IsSqrt(root)
    ensures |xs| < 2 ==> sharpe == 0.0
    ensures |xs| >= 2 && root(Variance(xs)) <= EPSILON ==> sharpe == 0.0
    ensures |xs| >= 2 && root(Variance(xs)) > EPSILON ==>
              sharpe == Mean(xs) / root(Variance(xs)) * root(252.0)
  {
    var count, mean, m2 := RunningMoments(xs);
    if count < 2 { return 0.0; }
    var variance := m2 / count as real;
    var deviation := root(variance);
    if deviation <= EPSILON { return 0.0; }
    return mean / deviation * root(252.0);
  }

  lemma PairUpdate(us: seq<real>, vs: seq<real>, a: real, b: real, k: real, da: real, db: real, ma: real, mb: real,
                   p: real, q: real, r: real)
    requires |us| == |vs| && k == |us| as real + 1.0 && da == a - Mean(us) && db == b - Mean(vs)
    requires ma == Mean(us) + da / k && mb == Mean(vs) + db / k
    requires p == da * (b - mb) && q == da * (a - ma) && r == db * (b - mb)
    ensures Mean(us + [a]) == ma && Mean(vs + [b]) == mb
    ensures Cross(us + [a], vs + [b]) == Cross(us, vs) + p
    ensures Cross(us + [a], us + [a]) == Cross(us, us) + q
    ensures Cross(vs + [b], vs + [b]) == Cross(vs, vs) + r
  {
    MeanUpdate(us, a, k);
    MeanUpdate(vs, b, k);
    CrossUpdate(us, vs, a, b, k, p);
    CrossUpdate(us, us, a, a, k, q);
    CrossUpdate(vs, vs, b, b, k, r);
  }

  /** One more pair: the new means and what it adds to each cross sum. */
  method AddPair(ghost us: seq<real>, ghost vs: seq<real>, a: real, b: real, count: nat, meanA: real, meanB: real)
    returns (nextA: real, nextB: real, p: real, q: real, r: real)
    requires |us| == |vs| && count == |us| + 1 && meanA == Mean(us) && meanB == Mean(vs)
    ensures nextA == Mean(us + [a]) && nextB == Mean(vs + [b])
    ensures Cross(us + [a], vs + [b]) == Cross(us, vs) + p
    ensures Cross(us + [a], us + [a]) == Cross(us, us) + q
    ensures Cross(vs + [b], vs + [b]) == Cross(vs, vs) + r
  {
    var deltaA, deltaB := a - meanA, b - meanB;
    nextA := meanA + deltaA / count as real;
    nextB := meanB + deltaB / count as real;
    p, q, r := deltaA * (b - nextB), deltaA * (a - nextA), deltaB * (b - nextB);
    PairUpdate(us, vs, a, b, count as real, deltaA, deltaB, nextA, nextB, p, q, r);
  }

  /** One pass over pairs, three cross sums at once. */
  method RunningPairs(xs: seq<real>, ys: seq<real>) returns (count: nat, covariance: real, varA: real, varB: real)
    requires |xs| == |ys|
    ensures count == |xs| && covariance == Cross(xs, ys) && varA == Cross(xs, xs) && varB == Cross(ys, ys)
  {
    count, covariance, varA, varB := 0, 0.0, 0.0, 0.0;
    var meanA, meanB := 0.0, 0.0;
    assert Cross([], []) == 0.0;
    for i := 0 to |xs|
      invariant count == i && meanA == Mean(xs[..i]) && meanB == Mean(ys[..i])
      invariant covariance == Cross(xs[..i], ys[..i])
      invariant varA == Cross(xs[..i], xs[..i]) && varB == Cross(ys[..i], ys[..i])
    {
      count := count + 1;
      Longer(xs, i);
      Longer(ys, i);
      var p, q, r;
      meanA, meanB, p, q, r := AddPair(xs[..i], ys[..i], xs[i], ys[i], count, meanA, meanB);
      covariance, varA, varB := covariance + p, varA + q, varB + r;
    }
    assert xs[..|xs|] == xs && ys[..|ys|] == ys;
  }

  lemma Bigger(c: real, d: real)
    requires c > d > 0.0
    ensures c * c > d * d
  {
    assert c * c > c * d > d * d;
  }

  lemma SquareOrder(c: real, d: real)
    requires d > 0.0 && c * c <= d * d
    ensures -d <= c <= d
  {
    if c > d {
      Bigger(c, d);
      assert false;
    }
    if -c > d {
      Bigger(-c, d);
      assert false;
    }
  }

  lemma Ratio(c: real, d: real, a: real, b: real)
    requires d > 0.0 && d * d == a * b && c * c <= a * b
    ensures -1.0 <= c / d <= 1.0
  {
    SquareOrder(c, d);
  }

  ghost function VarianceProduct(xs: seq<real>, ys: seq<real>): real
    requires |xs| == |ys|
  {
    Cross(xs, xs) * Cross(ys, ys)
  }

  /** The reported correlation lies in [-1, 1] on every list of pairs. */
  method PearsonPairs(xs: seq<real>, ys: seq<real>, root: real -> real) returns (correlation: real, count: nat)
    requires |xs| == |ys| && IsSqrt(root)
    ensures count == |xs| && -1.0 <= correlation <= 1.0
    ensures count < 2 ==> correlation == 0.0
    ensures count >= 2 ==>
              var d := root(VarianceProduct(xs, ys));
              correlation == if d <= EPSILON then 0.0 else Cross(xs, ys) / d
  {
    var covariance, varA, varB;
    count, covariance, varA, varB := RunningPairs(xs, ys);
    if count < 2 { return 0.0, count; }
    CorrelationBound(xs, ys);
    var product := varA * varB;
    assert product == VarianceProduct(xs, ys);
    var d := root(product);
    if d <= EPSILON { return 0.0, count; }
    Ratio(covariance, d, varA, varB);
    return covariance / d, count;
  }

  /** The two-pass form on the report side; `SharpeFromReturns` divides by the
      same variance. */
  function SumOf(xs: seq<real>): (t: real)
    ensures t == Total(xs)
  {
    if xs == [] then 0.0 else SumOf(xs[..|xs| - 1]) + xs[|xs| - 1]
  }

  function SquaredDeviations(xs: seq<real>, m: real): seq<real> {
    seq(|xs|, i requires 0 <= i < |xs| => (xs[i] - m) * (xs[i] - m))
  }

  function ReturnMeanStd(xs: seq<real>, root: real -> real): Option<(real, real)> {
    if |xs| < 2 then None
    else
      var mean := SumOf(xs) / |xs| as real;
      Some((mean, root(SumOf(SquaredDeviations(xs, mean)) / |xs| as real)))
  }

  lemma SquaresAreProducts(xs: seq<real>, m: real)
    ensures SquaredDeviations(xs, m) == Products(Deviations(xs, m), Deviations(xs, m))
  {
    forall i | 0 <= i < |xs| ensures SquaredDeviations(xs, m)[i] == Products(Deviations(xs, m), Deviations(xs, m))[i] {
      ProductAt(Deviations(xs, m), Deviations(xs, m), i, xs[i] - m, xs[i] - m);
    }
  }

  lemma MeanStdAgrees(xs: seq<real>, root: real -> real)
    ensures ReturnMeanStd(xs, root) == if |xs| < 2 then None else Some((Mean(xs), root(Variance(xs))))
  {
    if |xs| >= 2 { SquaresAreProducts(xs, Mean(xs)); }
  }

  lemma TotalOfTwo(a: real, b: real)
    ensures Total([a, b]) == a + b
  {
    TotalSnoc([], a);
    TotalSnoc([a], b);
    assert [] + [a] == [a] && [a] + [b] == [a, b];
  }

  /** Two values: their middle, and the products and squares of half their gaps. */
  lemma TwoValues(a: real, b: real, c: real, d: real)
    ensures Mean([a, b]) == (a + b) / 2.0
    ensures Cross([a, b], [c, d]) == (a - b) / 2.0 * (c - d)
    ensures Variance([a, b]) == (a - b) / 2.0 * ((a - b) / 2.0)
  {
    TotalOfTwo(a, b);
    TotalOfTwo(c, d);
    CrossOfTwo(a, b, c, d);
    CrossOfTwo(a, b, a, b);
  }

  lemma CrossOfTwo(a: real, b: real, c: real, d: real)
    ensures Cross([a, b], [c, d]) == (a - b) / 2.0 * (c - d)
  {
    TotalOfTwo(a, b);
    TotalOfTwo(c, d);
    var m, n := Mean([a, b]), Mean([c, d]);
    DotOfTwo(a, b, c, d, m, n);
    HalfGaps(a, b, c, d, m, n);
  }

  lemma DotOfTwo(a: real, b: real, c: real, d: real, m: real, n: real)
    ensures Dot(Deviations([a, b], m), Deviations([c, d], n)) == Mul(a - m, c - n) + Mul(b - m, d - n)
  {
    var us, vs := Deviations([a, b], m), Deviations([c, d], n);
    assert us == [a - m, b - m] && vs == [c - n, d - n];
    assert Products(us, vs) == [Mul(a - m, c - n), Mul(b - m, d - n)];
    TotalOfTwo(Mul(a - m, c - n), Mul(b - m, d - n));
  }

  lemma HalfGaps(a: real, b: real, c: real, d: real, m: real, n: real)
    requires m == (a + b) / 2.0 && n == (c + d) / 2.0
    ensures Mul(a - m, c - n) + Mul(b - m, d - n) == (a - b) / 2.0 * (c - d)
  {
    var u, v := (a - b) / 2.0, (c - d) / 2.0;
    assert a - m == u && b - m == -u;
    assert c - n == v && d - n == -v;
    assert -u * -v == u * v;
    assert u * v + u * v == u * (v + v) && v + v == c - d;
  }
}
