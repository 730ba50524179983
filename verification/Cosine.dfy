/**
 The cosine score of two vectors over the reals. `math.sqrt` is a parameter; all that
 is asked of it is that it returns a non-negative root of every non-negative argument.
 */
module Cosine {
  import opened Vectors

  ghost predicate IsSquareRoot(sqrt: real -> real)
  {
    forall x: real :: x >= 0.0 ==> sqrt(x) >= 0.0 && sqrt(x) * sqrt(x) == x
  }

  /** `sum(a * b for a, b in zip(left, right, strict=True))` */
  function Dot(a: Vector, b: Vector): real
    requires |a| == |b|
  {
    if a == [] then 0.0 else a[0] * b[0] + Dot(a[1..], b[1..])
  }

  predicate IsZero(a: Vector) { forall i :: 0 <= i < |a| ==> a[i] == 0.0 }

  function CosineSimilarity(sqrt: real -> real, left: Vector, right: Vector): real
  {
    if left == [] || right == [] || |left| != |right| then 0.0
    else
      var numerator := Dot(left, right);
      var denominator := sqrt(Dot(left, left)) * sqrt(Dot(right, right));
      if denominator == 0.0 then 0.0 else numerator / denominator
  }

  /** `s*a + t*b`, entry by entry. */
  function Combine(s: real, a: Vector, t: real, b: Vector): (c: Vector)
    requires |a| == |b|
    ensures |c| == |a|
  {
    if a == [] then [] else [s * a[0] + t * b[0]] + Combine(s, a[1..], t, b[1..])
  }

  function Scale(s: real, a: Vector): (c: Vector)
    ensures |c| == |a|
  {
    if a == [] then [] else [s * a[0]] + Scale(s, a[1..])
  }

  // ----- the inner product is the sum of the products -----

  /** `[a * b for a, b in zip(left, right)]` */
  function Products(a: Vector, b: Vector): Vector
    requires |a| == |b|
  {
    seq(|a|, i requires 0 <= i < |a| => a[i] * b[i])
  }

  /** The terms added up from the first to the last, as `sum` does. */
  function Sum(terms: Vector): real
  {
    if terms == [] then 0.0 else Sum(terms[..|terms| - 1]) + terms[|terms| - 1]
  }

  lemma {:induction false} SumFromFirst(terms: Vector)
    requires terms != []
    ensures Sum(terms) == terms[0] + Sum(terms[1..])
  {
    if |terms| == 1 {
      assert terms[..0] == [] && terms[1..] == [];
    } else {
      var n := |terms| - 1;
      SumFromFirst(terms[..n]);
      assert terms[..n][1..] == terms[1..][..n - 1];
    }
  }

  lemma ProductsTail(a: Vector, b: Vector)
    requires |a| == |b| && a != []
    ensures Products(a, b)[1..] == Products(a[1..], b[1..]) && Products(a, b)[0] == a[0] * b[0]
  {
    var tail, rest := Products(a, b)[1..], Products(a[1..], b[1..]);
    forall i | 0 <= i < |tail|
      ensures tail[i] == rest[i]
    {
      assert a[1..][i] == a[i + 1] && b[1..][i] == b[i + 1];
    }
  }

  lemma {:induction false} DotIsSum(a: Vector, b: Vector)
    requires |a| == |b|
    ensures Dot(a, b) == Sum(Products(a, b))
  {
    if a == [] {
    } else {
      DotIsSum(a[1..], b[1..]);
      ProductsTail(a, b);
      SumFromFirst(Products(a, b));
    }
  }

  /** One more entry adds one more product. */
  lemma {:induction false} DotAppend(a: Vector, b: Vector, x: real, y: real)
    requires |a| == |b|
    ensures Dot([], []) == 0.0
    ensures Dot(a + [x], b + [y]) == Dot(a, b) + x * y
  {
    if a == [] {
      assert (a + [x])[1..] == [] && (b + [y])[1..] == [];
    } else {
      DotAppend(a[1..], b[1..], x, y);
      assert (a + [x])[1..] == a[1..] + [x] && (b + [y])[1..] == b[1..] + [y];
    }
  }

  /** The `i`-th unit vector of dimension `n`. */
  function Axis(n: nat, i: nat): (v: Vector)
    ensures |v| == n
  {
    seq(n, k requires 0 <= k < n => if k == i then 1.0 else 0.0)
  }

  /** The product with a unit vector is that entry. */
  lemma {:induction false} DotOfAxis(b: Vector, i: nat)
    requires i < |b|
    ensures Dot(Axis(|b|, i), b) == b[i]
    decreases |b|
  {
    var n := |b| - 1;
    assert b == b[..n] + [b[n]];
    if i == n {
      assert Axis(|b|, i) == seq(n, k => 0.0) + [1.0];
      DotAppend(seq(n, k => 0.0), b[..n], 1.0, b[n]);
      DotZero(seq(n, k => 0.0), b[..n]);
    } else {
      assert Axis(|b|, i) == Axis(n, i) + [0.0];
      DotAppend(Axis(n, i), b[..n], 0.0, b[n]);
      DotOfAxis(b[..n], i);
    }
  }

  // ----- real arithmetic -----

  lemma PositiveProduct(x: real, y: real, product: real)
    requires x > 0.0 && y > 0.0 && product == x * y
    ensures product > 0.0
  {
  }

  lemma NegativeProduct(x: real, y: real, product: real)
    requires x < 0.0 && y < 0.0 && product == x * y
    ensures product > 0.0
  {
  }

  /** `square` is `x * x`; naming it keeps the product out of later goals. */
  lemma SquareSign(x: real, square: real)
    requires square == x * x
    ensures square >= 0.0
    ensures square == 0.0 <==> x == 0.0
  {
    if x < 0.0 {
      NegativeProduct(x, x, square);
    } else if x > 0.0 {
      PositiveProduct(x, x, square);
    }
  }

  lemma OtherFactor(y: real, z: real)
    requires y > 0.0
    ensures y * z / y == z
    ensures y * z >= 0.0 ==> z >= 0.0
  {
  }

  lemma Distribute(k: real, x: real, y: real)
    ensures k * (x + y) == k * x + k * y
  {
  }

  lemma DifferenceOfSquares(p: real, q: real)
    ensures (p - q) * (p + q) == p * p - q * q
  {
  }

  lemma SquareOfSum(p: real, q: real)
    ensures (p + q) * (p + q) == p * p + 2.0 * (p * q) + q * q
  {
  }

  lemma ProductOfProducts(s: real, x: real, t: real, y: real)
    ensures (s * x) * (t * y) == (s * t) * (x * y)
  {
  }

  lemma AbsoluteBound(p: real, d: real)
    requires d >= 0.0 && p * p <= d * d
    ensures -d <= p <= d
  {
    DifferenceOfSquares(p, d);
    if p > d {
      PositiveProduct(p - d, p + d, (p - d) * (p + d));
    } else if p < -d {
      var q := -p;
      ProductOfProducts(-1.0, q, -1.0, q);
      DifferenceOfSquares(q, d);
      PositiveProduct(q - d, q + d, (q - d) * (q + d));
    }
  }

  // ----- inner products -----

  lemma {:induction false} DotSymmetric(a: Vector, b: Vector)
    requires |a| == |b|
    ensures Dot(a, b) == Dot(b, a)
  {
    if a == [] {
    } else {
      DotSymmetric(a[1..], b[1..]);
    }
  }

  lemma {:induction false} DotScale(s: real, a: Vector, b: Vector)
    requires |a| == |b|
    ensures Dot(Scale(s, a), b) == s * Dot(a, b)
  {
    if a == [] {
    } else {
      DotScale(s, a[1..], b[1..]);
      assert Scale(s, a)[1..] == Scale(s, a[1..]);
      assert s * (a[0] * b[0] + Dot(a[1..], b[1..])) == s * a[0] * b[0] + s * Dot(a[1..], b[1..]);
    }
  }

  lemma {:induction false} SquaredNormNonNegative(a: Vector)
    ensures Dot(a, a) >= 0.0
    ensures Dot(a, a) == 0.0 <==> IsZero(a)
  {
    if a == [] {
    } else {
      SquaredNormNonNegative(a[1..]);
      SquareSign(a[0], a[0] * a[0]);
      if IsZero(a) {
        assert IsZero(a[1..]);
      } else if a[0] == 0.0 {
        var i :| 0 <= i < |a| && a[i] != 0.0;
        assert a[1..][i - 1] != 0.0;
      }
    }
  }

  lemma {:induction false} DotZero(a: Vector, b: Vector)
    requires |a| == |b| && IsZero(a)
    ensures Dot(a, b) == 0.0
  {
    if a == [] {
    } else {
      assert a[0] == 0.0;
      DotZero(a[1..], b[1..]);
    }
  }

  /** The squared norm of `s*a + t*b` in terms of the three inner products. */
  function Quadratic(s: real, t: real, aa: real, ab: real, bb: real): real
  {
    (s * s) * aa + (2.0 * (s * t)) * ab + (t * t) * bb
  }

  lemma CombineSquare(s: real, x: real, t: real, y: real)
    ensures (s * x + t * y) * (s * x + t * y) == Quadratic(s, t, x * x, x * y, y * y)
  {
    SquareOfSum(s * x, t * y);
    ProductOfProducts(s, x, s, x);
    ProductOfProducts(t, y, t, y);
    ProductOfProducts(s, x, t, y);
  }

  lemma QuadraticAdds(s: real, t: real, x: real, y: real, z: real, aa: real, ab: real, bb: real)
    ensures Quadratic(s, t, x + aa, y + ab, z + bb) == Quadratic(s, t, x, y, z) + Quadratic(s, t, aa, ab, bb)
  {
    Distribute(s * s, x, aa);
    Distribute(2.0 * (s * t), y, ab);
    Distribute(t * t, z, bb);
  }

  lemma {:induction false} NormOfCombine(s: real, a: Vector, t: real, b: Vector)
    requires |a| == |b|
    ensures var c := Combine(s, a, t, b);
      Dot(c, c) == Quadratic(s, t, Dot(a, a), Dot(a, b), Dot(b, b))
  {
    if a == [] {
    } else {
      var c := Combine(s, a, t, b);
      NormOfCombine(s, a[1..], t, b[1..]);
      assert c[1..] == Combine(s, a[1..], t, b[1..]);
      CombineSquare(s, a[0], t, b[0]);
      QuadraticAdds(
        s, t, a[0] * a[0], a[0] * b[0], b[0] * b[0], Dot(a[1..], a[1..]), Dot(a[1..], b[1..]), Dot(b[1..], b[1..]));
    }
  }

  lemma Discriminant(x: real, p: real, y: real, q: real)
    requires y > 0.0 && q == -p
    requires Quadratic(y, q, x, p, y) >= 0.0
    ensures p * p <= x * y
  {
    assert q * q == p * p;
    assert (y * q) * p == -(y * (p * p));
    assert (y * y) * x == y * (x * y);
    assert (p * p) * y == y * (p * p);
    Distribute(y, x * y, -(p * p));
    assert y * -(p * p) == -(y * (p * p));
    OtherFactor(y, x * y - p * p);
  }

  /** Cauchy-Schwarz. */
  lemma CauchySchwarz(a: Vector, b: Vector)
    requires |a| == |b|
    ensures Dot(a, b) * Dot(a, b) <= Dot(a, a) * Dot(b, b)
  {
    SquaredNormNonNegative(b);
    if IsZero(b) {
      DotSymmetric(a, b);
      DotZero(b, a);
      DotZero(b, b);
    } else {
      var q := -Dot(a, b);
      var c := Combine(Dot(b, b), a, q, b);
      NormOfCombine(Dot(b, b), a, q, b);
      SquaredNormNonNegative(c);
      Discriminant(Dot(a, a), Dot(a, b), Dot(b, b), q);
    }
  }

  // ----- square roots -----

  lemma RootIsUnique(r: real, q: real)
    requires r >= 0.0 && q >= 0.0 && r * r == q * q
    ensures r == q
  {
    DifferenceOfSquares(r, q);
    if r + q > 0.0 {
      OtherFactor(r + q, r - q);
    }
  }

  lemma RootZero(sqrt: real -> real, x: real)
    requires IsSquareRoot(sqrt) && x >= 0.0
    ensures sqrt(x) == 0.0 <==> x == 0.0
  {
    SquareSign(sqrt(x), x);
  }

  /** A square root distributes over products. */
  lemma RootOfProduct(sqrt: real -> real, x: real, y: real, product: real)
    requires IsSquareRoot(sqrt) && x >= 0.0 && y >= 0.0 && product == x * y
    ensures sqrt(product) == sqrt(x) * sqrt(y)
  {
    ProductOfProducts(sqrt(x), sqrt(y), sqrt(x), sqrt(y));
    assert sqrt(x) * sqrt(y) >= 0.0;
    RootIsUnique(sqrt(product), sqrt(x) * sqrt(y));
  }

  lemma ScaledRoot(sqrt: real -> real, s: real, k: real, n: real, m: real)
    requires IsSquareRoot(sqrt) && s >= 0.0 && n >= 0.0
    requires k == s * s && m == k * n
    ensures sqrt(m) == s * sqrt(n)
  {
    SquareSign(s, k);
    RootOfProduct(sqrt, k, n, m);
    RootIsUnique(sqrt(k), s);
  }

  // ----- the score -----

  predicate Comparable(a: Vector, b: Vector)
  {
    a != [] && |a| == |b| && !IsZero(a) && !IsZero(b)
  }

  function Norm(sqrt: real -> real, a: Vector): real { sqrt(Dot(a, a)) }

  function Quotient(sqrt: real -> real, a: Vector, b: Vector): real
    requires |a| == |b| && Norm(sqrt, a) > 0.0 && Norm(sqrt, b) > 0.0
  {
    Ratio(Dot(a, b), Norm(sqrt, a), Norm(sqrt, b))
  }

  function Ratio(p: real, m: real, n: real): real
    requires m > 0.0 && n > 0.0
  {
    PositiveProduct(m, n, m * n);
    p / (m * n)
  }

  lemma NormPositive(sqrt: real -> real, a: Vector)
    requires IsSquareRoot(sqrt)
    ensures Norm(sqrt, a) >= 0.0
    ensures Norm(sqrt, a) == 0.0 <==> IsZero(a)
  {
    SquaredNormNonNegative(a);
    RootZero(sqrt, Dot(a, a));
  }

  lemma RatioDivides(p: real, m: real, n: real)
    requires m > 0.0 && n > 0.0
    ensures m * n > 0.0 && Ratio(p, m, n) == p / (m * n)
  {
    PositiveProduct(m, n, m * n);
  }

  lemma NormIsRootOfSum(sqrt: real -> real, a: Vector)
    ensures Norm(sqrt, a) == sqrt(Sum(Products(a, a)))
  {
    DotIsSum(a, a);
  }

  lemma ComparableEntries(a: Vector, b: Vector)
    ensures Comparable(a, b)
      <==> a != [] && |a| == |b| && (exists i :: 0 <= i < |a| && a[i] != 0.0) && (exists i :: 0 <= i < |b| && b[i] != 0.0)
  {
  }

  lemma ScoreIsQuotient(sqrt: real -> real, a: Vector, b: Vector)
    requires IsSquareRoot(sqrt)
    ensures Comparable(a, b) ==> Norm(sqrt, a) > 0.0 && Norm(sqrt, b) > 0.0
    ensures Comparable(a, b) ==> CosineSimilarity(sqrt, a, b) == Quotient(sqrt, a, b)
    ensures !Comparable(a, b) ==> CosineSimilarity(sqrt, a, b) == 0.0
  {
    NormPositive(sqrt, a);
    NormPositive(sqrt, b);
    if Comparable(a, b) {
      PositiveProduct(Norm(sqrt, a), Norm(sqrt, b), Norm(sqrt, a) * Norm(sqrt, b));
    }
  }

  /**
   The score is the cosine exactly for comparable vectors, and 0 for all others: the sum of
   the products, over the roots of the two sums of squares.
   */
  lemma ScoreCases(sqrt: real -> real, a: Vector, b: Vector)
    requires IsSquareRoot(sqrt)
    ensures Comparable(a, b)
      <==> a != [] && |a| == |b| && (exists i :: 0 <= i < |a| && a[i] != 0.0) && (exists i :: 0 <= i < |b| && b[i] != 0.0)
    ensures Comparable(a, b) ==>
      var m, n := sqrt(Sum(Products(a, a))), sqrt(Sum(Products(b, b)));
      m * n > 0.0 && CosineSimilarity(sqrt, a, b) == Sum(Products(a, b)) / (m * n)
    ensures !Comparable(a, b) ==> CosineSimilarity(sqrt, a, b) == 0.0
  {
    ComparableEntries(a, b);
    ScoreIsQuotient(sqrt, a, b);
    if Comparable(a, b) {
      NormIsRootOfSum(sqrt, a);
      NormIsRootOfSum(sqrt, b);
      DotIsSum(a, b);
      RatioDivides(Sum(Products(a, b)), Norm(sqrt, a), Norm(sqrt, b));
    }
  }

  lemma ScoreInRange(sqrt: real -> real, a: Vector, b: Vector)
    requires IsSquareRoot(sqrt)
    ensures -1.0 <= CosineSimilarity(sqrt, a, b) <= 1.0
  {
    ScoreIsQuotient(sqrt, a, b);
    if Comparable(a, b) {
      var d := Norm(sqrt, a) * Norm(sqrt, b);
      SquaredNormNonNegative(a);
      SquaredNormNonNegative(b);
      ProductOfProducts(Norm(sqrt, a), Norm(sqrt, b), Norm(sqrt, a), Norm(sqrt, b));
      CauchySchwarz(a, b);
      PositiveProduct(Norm(sqrt, a), Norm(sqrt, b), d);
      AbsoluteBound(Dot(a, b), d);
      QuotientInRange(Dot(a, b), d);
    }
  }

  lemma QuotientInRange(p: real, d: real)
    requires d > 0.0 && -d <= p <= d
    ensures -1.0 <= p / d <= 1.0
  {
  }

  lemma ScoreSymmetric(sqrt: real -> real, a: Vector, b: Vector)
    requires IsSquareRoot(sqrt)
    ensures CosineSimilarity(sqrt, a, b) == CosineSimilarity(sqrt, b, a)
  {
    if |a| == |b| {
      DotSymmetric(a, b);
    }
  }

  lemma SelfRatio(x: real)
    requires x > 0.0
    ensures x / x == 1.0
  {
  }

  lemma ScoreOfSelf(sqrt: real -> real, a: Vector)
    requires IsSquareRoot(sqrt)
    ensures CosineSimilarity(sqrt, a, a) == (if IsZero(a) then 0.0 else 1.0)
  {
    ScoreIsQuotient(sqrt, a, a);
    SquaredNormNonNegative(a);
    if !IsZero(a) {
      var square := Norm(sqrt, a) * Norm(sqrt, a);
      PositiveProduct(Norm(sqrt, a), Norm(sqrt, a), square);
      assert square == Dot(a, a);
      SelfRatio(square);
    }
  }

  lemma ZeroFactor(s: real, x: real, product: real)
    requires s > 0.0 && product == s * x
    ensures product == 0.0 <==> x == 0.0
  {
    OtherFactor(s, x);
  }

  lemma ZeroCons(a: Vector)
    requires a != []
    ensures IsZero(a) <==> a[0] == 0.0 && IsZero(a[1..])
  {
    assert a == [a[0]] + a[1..];
  }

  lemma {:induction false} ScaleKeepsZero(s: real, a: Vector)
    requires s > 0.0
    ensures IsZero(Scale(s, a)) <==> IsZero(a)
  {
    if a == [] {
    } else {
      var c := Scale(s, a);
      ZeroFactor(s, a[0], c[0]);
      ScaleKeepsZero(s, a[1..]);
      assert c[1..] == Scale(s, a[1..]);
      ZeroCons(a);
      ZeroCons(c);
    }
  }

  lemma DotOfScale(s: real, a: Vector)
    ensures Dot(Scale(s, a), Scale(s, a)) == (s * s) * Dot(a, a)
  {
    DotScale(s, a, Scale(s, a));
    DotSymmetric(a, Scale(s, a));
    DotScale(s, a, a);
  }

  lemma NormOfScale(sqrt: real -> real, s: real, a: Vector)
    requires IsSquareRoot(sqrt) && s > 0.0
    ensures Norm(sqrt, Scale(s, a)) == s * Norm(sqrt, a)
  {
    SquaredNormNonNegative(a);
    DotOfScale(s, a);
    ScaledRoot(sqrt, s, s * s, Dot(a, a), Dot(Scale(s, a), Scale(s, a)));
  }

  lemma CancelFactor(s: real, p: real, m: real, n: real, p': real, m': real)
    requires s > 0.0 && m > 0.0 && n > 0.0 && m' > 0.0
    requires p' == s * p && m' == s * m
    ensures Ratio(p', m', n) == Ratio(p, m, n)
  {
    PositiveProduct(m, n, m * n);
    PositiveProduct(m', n, m' * n);
    var q := p / (m * n);
    assert m' * n == s * (m * n);
    assert q * (m' * n) == s * (q * (m * n)) == p';
  }

  lemma QuotientIgnoresScale(sqrt: real -> real, s: real, a: Vector, b: Vector)
    requires IsSquareRoot(sqrt) && s > 0.0 && |a| == |b|
    requires Norm(sqrt, a) > 0.0 && Norm(sqrt, b) > 0.0 && Norm(sqrt, Scale(s, a)) > 0.0
    ensures Quotient(sqrt, Scale(s, a), b) == Quotient(sqrt, a, b)
  {
    DotScale(s, a, b);
    NormOfScale(sqrt, s, a);
    CancelFactor(s, Dot(a, b), Norm(sqrt, a), Norm(sqrt, b), Dot(Scale(s, a), b), Norm(sqrt, Scale(s, a)));
  }

  lemma ScoreIgnoresLeftScale(sqrt: real -> real, s: real, a: Vector, b: Vector)
    requires IsSquareRoot(sqrt) && s > 0.0
    ensures CosineSimilarity(sqrt, Scale(s, a), b) == CosineSimilarity(sqrt, a, b)
  {
    ScaleKeepsZero(s, a);
    ScoreIsQuotient(sqrt, a, b);
    ScoreIsQuotient(sqrt, Scale(s, a), b);
    if Comparable(a, b) {
      QuotientIgnoresScale(sqrt, s, a, b);
    }
  }

  /** Scaling either vector by a positive factor does not change the score. */
  lemma ScoreIgnoresScale(sqrt: real -> real, s: real, a: Vector, b: Vector)
    requires IsSquareRoot(sqrt) && s > 0.0
    ensures CosineSimilarity(sqrt, Scale(s, a), b) == CosineSimilarity(sqrt, a, b)
    ensures CosineSimilarity(sqrt, b, Scale(s, a)) == CosineSimilarity(sqrt, b, a)
  {
    ScoreSymmetric(sqrt, Scale(s, a), b);
    ScoreSymmetric(sqrt, a, b);
    ScoreIgnoresLeftScale(sqrt, s, a, b);
  }

  // ----- when the score is exactly 1 -----

  /** `b` points the same way as `a`. */
  ghost predicate SameDirection(a: Vector, b: Vector)
  {
    exists s: real :: s > 0.0 && b == Scale(s, a)
  }

  lemma {:induction false} CombineEntry(s: real, a: Vector, t: real, b: Vector, i: nat)
    requires |a| == |b| && i < |a|
    ensures Combine(s, a, t, b)[i] == s * a[i] + t * b[i]
  {
    if i == 0 {
    } else {
      CombineEntry(s, a[1..], t, b[1..], i - 1);
    }
  }

  lemma SolveEntry(y: real, p: real, q: real, x: real, z: real, s: real, entry: real)
    requires p > 0.0 && q == -p && s * p == y && entry == y * x + q * z && entry == 0.0
    ensures z == s * x
  {
    assert q * z == -(p * z);
    assert p * (s * x) == y * x;
    Distribute(p, z, -(s * x));
    assert p * -(s * x) == -(p * (s * x));
    OtherFactor(p, z - s * x);
  }

  lemma EqualityVanishes(x: real, p: real, y: real, q: real)
    requires q == -p && p * p == x * y
    ensures Quadratic(y, q, x, p, y) == 0.0
  {
    assert q * q == p * p;
    assert (y * q) * p == -(y * (p * p));
    assert (y * y) * x == y * (x * y);
    assert (p * p) * y == y * (p * p);
  }

  lemma EqualityCombinesToZero(a: Vector, b: Vector, q: real)
    requires |a| == |b| && q == -Dot(a, b)
    requires Dot(a, b) * Dot(a, b) == Dot(a, a) * Dot(b, b)
    ensures IsZero(Combine(Dot(b, b), a, q, b))
  {
    NormOfCombine(Dot(b, b), a, q, b);
    EqualityVanishes(Dot(a, a), Dot(a, b), Dot(b, b), q);
    SquaredNormNonNegative(Combine(Dot(b, b), a, q, b));
  }

  lemma {:induction false} ScaleEntry(s: real, a: Vector, i: nat)
    requires i < |a|
    ensures Scale(s, a)[i] == s * a[i]
  {
    if i == 0 {
    } else {
      ScaleEntry(s, a[1..], i - 1);
    }
  }

  lemma ProportionalEntry(a: Vector, b: Vector, y: real, p: real, q: real, s: real, i: nat)
    requires |a| == |b| && i < |a| && p > 0.0 && q == -p && s * p == y
    requires IsZero(Combine(y, a, q, b))
    ensures b[i] == Scale(s, a)[i]
  {
    CombineEntry(y, a, q, b, i);
    ScaleEntry(s, a, i);
    SolveEntry(y, p, q, a[i], b[i], s, Combine(y, a, q, b)[i]);
  }

  lemma ProportionalEntries(a: Vector, b: Vector, y: real, p: real, q: real, s: real)
    requires |a| == |b| && p > 0.0 && q == -p && s * p == y
    requires IsZero(Combine(y, a, q, b))
    ensures b == Scale(s, a)
  {
    forall i: nat | i < |a|
      ensures b[i] == Scale(s, a)[i]
    {
      ProportionalEntry(a, b, y, p, q, s, i);
    }
  }

  lemma PositiveQuotient(y: real, p: real) returns (s: real)
    requires y > 0.0 && p > 0.0
    ensures s > 0.0 && s * p == y
  {
    s := y / p;
  }

  lemma VanishingIsProportional(a: Vector, b: Vector, q: real)
    requires |a| == |b| && Dot(a, b) > 0.0 && Dot(b, b) > 0.0 && q == -Dot(a, b)
    requires IsZero(Combine(Dot(b, b), a, q, b))
    ensures SameDirection(a, b)
  {
    var s := PositiveQuotient(Dot(b, b), Dot(a, b));
    ProportionalEntries(a, b, Dot(b, b), Dot(a, b), q, s);
  }

  lemma SquareOfNorms(p: real, m: real, n: real, x: real, y: real)
    requires p == m * n && m * m == x && n * n == y
    ensures p * p == x * y
  {
    ProductOfProducts(m, n, m, n);
  }

  lemma RatioOne(p: real, m: real, n: real, x: real, y: real)
    requires m > 0.0 && n > 0.0 && m * m == x && n * n == y && Ratio(p, m, n) == 1.0
    ensures p > 0.0 && p * p == x * y
  {
    PositiveProduct(m, n, m * n);
    SquareOfNorms(p, m, n, x, y);
  }

  lemma NormSquared(sqrt: real -> real, a: Vector)
    requires IsSquareRoot(sqrt)
    ensures Norm(sqrt, a) * Norm(sqrt, a) == Dot(a, a)
  {
    SquaredNormNonNegative(a);
  }

  lemma RatioOneVanishes(a: Vector, b: Vector, m: real, n: real)
    requires |a| == |b| && m > 0.0 && n > 0.0
    requires m * m == Dot(a, a) && n * n == Dot(b, b)
    requires Ratio(Dot(a, b), m, n) == 1.0
    ensures Dot(a, b) > 0.0 && IsZero(Combine(Dot(b, b), a, -Dot(a, b), b))
  {
    RatioOne(Dot(a, b), m, n, Dot(a, a), Dot(b, b));
    EqualityCombinesToZero(a, b, -Dot(a, b));
  }

  lemma RatioOneIsSameDirection(a: Vector, b: Vector, m: real, n: real)
    requires |a| == |b| && m > 0.0 && n > 0.0
    requires m * m == Dot(a, a) && n * n == Dot(b, b)
    requires Ratio(Dot(a, b), m, n) == 1.0
    ensures SameDirection(a, b)
  {
    RatioOneVanishes(a, b, m, n);
    PositiveProduct(n, n, Dot(b, b));
    VanishingIsProportional(a, b, -Dot(a, b));
  }

  /** The score of comparable vectors is 1 exactly when they point the same way. */
  lemma ScoreOneIsSameDirection(sqrt: real -> real, a: Vector, b: Vector)
    requires IsSquareRoot(sqrt) && Comparable(a, b)
    ensures CosineSimilarity(sqrt, a, b) == 1.0 <==> SameDirection(a, b)
  {
    ScoreIsQuotient(sqrt, a, b);
    if CosineSimilarity(sqrt, a, b) == 1.0 {
      NormSquared(sqrt, a);
      NormSquared(sqrt, b);
      RatioOneIsSameDirection(a, b, Norm(sqrt, a), Norm(sqrt, b));
    }
    if SameDirection(a, b) {
      var s :| s > 0.0 && b == Scale(s, a);
      ScoreIgnoresScale(sqrt, s, a, a);
      ScoreOfSelf(sqrt, a);
    }
  }
}
