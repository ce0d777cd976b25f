// Cosine similarity over the common prefix of two vectors, in exact arithmetic, and the
// combined score of the three vector bases.
module Cosine {

  // Any nonnegative square root will do.
  ghost predicate IsSqrt(sqrt: real -> real) {
    forall x: real {:trigger sqrt(x)} :: x >= 0.0 ==> sqrt(x) >= 0.0 && sqrt(x) * sqrt(x) == x
  }

  function Dot(a: seq<real>, b: seq<real>, n: nat): real
    requires n <= |a| && n <= |b|
  {
    if n == 0 then 0.0 else Dot(a, b, n - 1) + a[n - 1] * b[n - 1]
  }

  function Overlap(a: seq<real>, b: seq<real>): nat {
    if |a| <= |b| then |a| else |b|
  }

  function Quotient(dot: real, sa: real, sb: real): real {
    var denom := sa * sb;
    if denom > 0.0 then dot / denom else 0.0
  }

  function CosineOf(a: seq<real>, b: seq<real>, sqrt: real -> real): real {
    var n := Overlap(a, b);
    Quotient(Dot(a, b, n), sqrt(Dot(a, a, n)), sqrt(Dot(b, b, n)))
  }

  method Cosine(a: seq<real>, b: seq<real>, sqrt: real -> real) returns (r: real)
    requires IsSqrt(sqrt)
    ensures r == CosineOf(a, b, sqrt) && -1.0 <= r <= 1.0
  {
    var n := if |a| <= |b| then |a| else |b|;
    var dot, na, nb := 0.0, 0.0, 0.0;
    for i := 0 to n
      invariant dot == Dot(a, b, i) && na == Dot(a, a, i) && nb == Dot(b, b, i)
    {
      dot := dot + a[i] * b[i];
      na := na + a[i] * a[i];
      nb := nb + b[i] * b[i];
    }
    r := Quotient(dot, sqrt(na), sqrt(nb));
    CosineBounded(a, b, sqrt);
  }

  // ---------------------------------------------------------------- order and products

  lemma SquareNonNegative(x: real)
    ensures x * x >= 0.0
  {
  }

  lemma ProductMonotone(x: real, y: real, z: real)
    requires x <= y && z >= 0.0
    ensures x * z <= y * z
  {
  }

  lemma StrictSquare(x: real, y: real)
    requires 0.0 <= y < x
    ensures y * y < x * x
  {
    var d := x - y;
    assert d * d > 0.0 && y * d >= 0.0;
    assert x == y + d;
    assert x * x == y * y + (2.0 * (y * d) + d * d);
  }

  // Comparing squares compares magnitudes.
  lemma SquareRootOrder(x: real, y: real)
    requires y >= 0.0 && x * x <= y * y
    ensures -y <= x <= y
  {
    assert (-x) * (-x) == x * x;
    if x > y { StrictSquare(x, y); }
    if -x > y { StrictSquare(-x, y); }
  }

  // One more coordinate: from d*d <= p*q to the same for the longer vectors.
  lemma CauchyStep(d: real, p: real, q: real, x: real, y: real)
    requires p >= 0.0 && q >= 0.0 && d * d <= p * q
    ensures (d + x * y) * (d + x * y) <= (p + x * x) * (q + y * y)
  {
    var u, v := p * (y * y), q * (x * x);
    var w := d * (x * y);
    SquareNonNegative(x);
    SquareNonNegative(y);
    ProductMonotone(0.0, p, y * y);
    ProductMonotone(0.0, q, x * x);
    // 4 w*w <= 4 u*v <= (u + v)*(u + v)
    CrossTerm(d, p, q, x, y);
    SquareNonNegative(u - v);
    FourProducts(u, v);
    assert (2.0 * w) * (2.0 * w) == 4.0 * (w * w);
    SquareRootOrder(2.0 * w, u + v);
    Expand(d, p, q, x, y);
  }

  lemma CrossTerm(d: real, p: real, q: real, x: real, y: real)
    requires d * d <= p * q
    ensures (d * (x * y)) * (d * (x * y)) <= (p * (y * y)) * (q * (x * x))
  {
    var z := x * y;
    SquareNonNegative(z);
    ProductMonotone(d * d, p * q, z * z);
    assert (d * z) * (d * z) == (d * d) * (z * z);
    assert z * z == (x * x) * (y * y);
    Reorder(p, q, x * x, y * y);
  }

  lemma Reorder(p: real, q: real, s: real, t: real)
    ensures (p * q) * (s * t) == (p * t) * (q * s)
  {
  }

  lemma FourProducts(u: real, v: real)
    ensures (u + v) * (u + v) == (u - v) * (u - v) + 4.0 * (u * v)
  {
  }

  lemma Expand(d: real, p: real, q: real, x: real, y: real)
    ensures (d + x * y) * (d + x * y) == d * d + 2.0 * (d * (x * y)) + (x * y) * (x * y)
    ensures (p + x * x) * (q + y * y) == p * q + (p * (y * y) + q * (x * x)) + (x * y) * (x * y)
  {
    assert (x * x) * (y * y) == (x * y) * (x * y);
  }

  // ---------------------------------------------------------------- the bound

  lemma {:induction false} CauchySchwarz(a: seq<real>, b: seq<real>, n: nat)
    requires n <= |a| && n <= |b|
    ensures Dot(a, a, n) >= 0.0 && Dot(b, b, n) >= 0.0
    ensures Dot(a, b, n) * Dot(a, b, n) <= Dot(a, a, n) * Dot(b, b, n)
  {
    if n > 0 {
      CauchySchwarz(a, b, n - 1);
      SquareNonNegative(a[n - 1]);
      SquareNonNegative(b[n - 1]);
      CauchyStep(Dot(a, b, n - 1), Dot(a, a, n - 1), Dot(b, b, n - 1), a[n - 1], b[n - 1]);
    }
  }

  lemma ProductOfSquares(x: real, y: real)
    ensures (x * y) * (x * y) == (x * x) * (y * y)
  {
  }

  lemma RatioBounded(x: real, y: real)
    requires y > 0.0 && -y <= x <= y
    ensures -1.0 <= x / y <= 1.0
  {
  }

  lemma QuotientBounded(dot: real, sa: real, sb: real)
    requires dot * dot <= (sa * sa) * (sb * sb)
    ensures -1.0 <= Quotient(dot, sa, sb) <= 1.0
  {
    var denom := sa * sb;
    if denom > 0.0 {
      ProductOfSquares(sa, sb);
      SquareRootOrder(dot, denom);
      RatioBounded(dot, denom);
    }
  }

  lemma CosineBounded(a: seq<real>, b: seq<real>, sqrt: real -> real)
    requires IsSqrt(sqrt)
    ensures -1.0 <= CosineOf(a, b, sqrt) <= 1.0
  {
    var n := Overlap(a, b);
    var dot, na, nb := Dot(a, b, n), Dot(a, a, n), Dot(b, b, n);
    CauchySchwarz(a, b, n);
    RootsBounded(dot, na, nb, sqrt(na), sqrt(nb));
  }

  lemma RootsBounded(dot: real, na: real, nb: real, sa: real, sb: real)
    requires sa * sa == na && sb * sb == nb && dot * dot <= na * nb
    ensures -1.0 <= Quotient(dot, sa, sb) <= 1.0
  {
    QuotientBounded(dot, sa, sb);
  }

  lemma {:induction false} DotSymmetric(a: seq<real>, b: seq<real>, n: nat)
    requires n <= |a| && n <= |b|
    ensures Dot(a, b, n) == Dot(b, a, n)
  {
    if n > 0 { DotSymmetric(a, b, n - 1); }
  }

  // The order of the arguments does not matter, and a non-zero vector is fully similar to itself.
  lemma CosineSymmetricAndReflexive(a: seq<real>, b: seq<real>, sqrt: real -> real)
    requires IsSqrt(sqrt)
    ensures CosineOf(a, b, sqrt) == CosineOf(b, a, sqrt)
    ensures Dot(a, a, |a|) > 0.0 ==> CosineOf(a, a, sqrt) == 1.0
  {
    DotSymmetric(a, b, Overlap(a, b));
    var n := Overlap(a, b);
    QuotientSymmetric(Dot(a, b, n), sqrt(Dot(a, a, n)), sqrt(Dot(b, b, n)));
    var na := Dot(a, a, |a|);
    if na > 0.0 { QuotientOne(na, sqrt(na)); }
  }

  lemma QuotientSymmetric(dot: real, sa: real, sb: real)
    ensures Quotient(dot, sa, sb) == Quotient(dot, sb, sa)
  {
    assert sa * sb == sb * sa;
  }

  lemma QuotientOne(n: real, s: real)
    requires n > 0.0 && s * s == n
    ensures Quotient(n, s, s) == 1.0
  {
    SelfRatio(n);
    assert Quotient(n, s, s) == n / (s * s);
  }

  lemma SelfRatio(n: real)
    requires n > 0.0
    ensures n / n == 1.0
  {
  }

  // ---------------------------------------------------------------- three bases together

  function Combined(wM: real, wC: real, wL: real, mert: real, clap: real, lyrics: real): real {
    wM * mert + wC * clap + wL * lyrics
  }

  lemma Scaled(w: real, x: real)
    requires w >= 0.0 && -1.0 <= x <= 1.0
    ensures -w <= w * x <= w
  {
    ProductMonotone(x, 1.0, w);
    ProductMonotone(-1.0, x, w);
  }

  // With nonnegative weights the final score stays within the sum of the weights.
  lemma CombinedBounded(wM: real, wC: real, wL: real, mert: real, clap: real, lyrics: real)
    requires wM >= 0.0 && wC >= 0.0 && wL >= 0.0
    requires -1.0 <= mert <= 1.0 && -1.0 <= clap <= 1.0 && -1.0 <= lyrics <= 1.0
    ensures -(wM + wC + wL) <= Combined(wM, wC, wL, mert, clap, lyrics) <= wM + wC + wL
  {
    Scaled(wM, mert);
    Scaled(wC, clap);
    Scaled(wL, lyrics);
    var x, y, z := wM * mert, wC * clap, wL * lyrics;
    assert Combined(wM, wC, wL, mert, clap, lyrics) == x + y + z;
    SumBounded(wM, wC, wL, x, y, z);
  }

  lemma SumBounded(a: real, b: real, c: real, x: real, y: real, z: real)
    requires -a <= x <= a && -b <= y <= b && -c <= z <= c
    ensures -(a + b + c) <= x + y + z <= a + b + c
  {
  }

  // The weights belong to the bases in this order, and each base counts in proportion.
  lemma CombinedWeighs(wM: real, wC: real, wL: real, mert: real, clap: real, lyrics: real, d: real)
    ensures Combined(wM, wC, wL, 0.0, 0.0, 0.0) == 0.0
    ensures Combined(wM, wC, wL, mert + d, clap, lyrics) == Combined(wM, wC, wL, mert, clap, lyrics) + wM * d
    ensures Combined(wM, wC, wL, mert, clap + d, lyrics) == Combined(wM, wC, wL, mert, clap, lyrics) + wC * d
    ensures Combined(wM, wC, wL, mert, clap, lyrics + d) == Combined(wM, wC, wL, mert, clap, lyrics) + wL * d
  {
    Distribute(wM, mert, d);
    Distribute(wC, clap, d);
    Distribute(wL, lyrics, d);
  }

  lemma Distribute(w: real, x: real, d: real)
    ensures w * (x + d) == w * x + w * d
  {
  }

  // ---------------------------------------------------------------- what the quotient means

  // The cosine times the lengths of the two vectors is their dot product, sign included.
  lemma CosineTimesLengths(a: seq<real>, b: seq<real>, sqrt: real -> real)
    requires IsSqrt(sqrt) && |a| == |b| && Dot(a, a, |a|) > 0.0 && Dot(b, b, |b|) > 0.0
    ensures CosineOf(a, b, sqrt) * (sqrt(Dot(a, a, |a|)) * sqrt(Dot(b, b, |b|))) == Dot(a, b, |a|)
  {
    var sa, sb := sqrt(Dot(a, a, |a|)), sqrt(Dot(b, b, |b|));
    RootPositive(Dot(a, a, |a|), sa);
    RootPositive(Dot(b, b, |b|), sb);
    QuotientTimes(Dot(a, b, |a|), sa, sb);
  }

  lemma RootPositive(x: real, s: real)
    requires x > 0.0 && s >= 0.0 && s * s == x
    ensures s > 0.0
  {
    assert s == 0.0 ==> s * s == 0.0;
  }

  lemma QuotientTimes(dot: real, sa: real, sb: real)
    requires sa > 0.0 && sb > 0.0
    ensures Quotient(dot, sa, sb) * (sa * sb) == dot
  {
    var denom := sa * sb;
    assert denom > 0.0 by { StrictProduct(sa, sb); }
    assert dot / denom * denom == dot;
  }

  lemma StrictProduct(x: real, y: real)
    requires x > 0.0 && y > 0.0
    ensures x * y > 0.0
  {
  }

  // Every pair of components counts.
  lemma {:induction false} DotAppend(a: seq<real>, b: seq<real>, x: real, y: real)
    requires |a| == |b|
    ensures Dot(a + [x], b + [y], |a| + 1) == Dot(a, b, |a|) + x * y
  {
    DotPrefix(a, b, x, y, |a|);
  }

  lemma {:induction false} DotPrefix(a: seq<real>, b: seq<real>, x: real, y: real, n: nat)
    requires n <= |a| && n <= |b|
    ensures Dot(a + [x], b + [y], n) == Dot(a, b, n)
  {
    if n > 0 { DotPrefix(a, b, x, y, n - 1); }
  }
}
