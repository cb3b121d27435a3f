/** The hashing embedder and the cosine (internal/embed/embed.go), over the reals.  The
    64-bit FNV hash, the logarithm and the square root are parameters; each lemma says
    which facts about them it uses. */
module Embed {
  import opened Outcomes
  import opened Normalizer
  import opened Strings

  /** `math.Sqrt` and `math.Log` without rounding. */
  ghost predicate IsSqrt(sqrt: real -> real) {
    forall x :: x >= 0.0 ==> sqrt(x) >= 0.0 && sqrt(x) * sqrt(x) == x
  }
  ghost predicate IsLog(ln: real -> real) {
    forall x :: x > 1.0 ==> ln(x) > 0.0
  }

  function Abs(x: real): real { if x < 0.0 then -x else x }

  // ---- bucketing

  function Bucket(sum: nat, dim: int): nat
    requires dim > 0
  {
    sum % dim
  }

  function Sign(sum: nat): real { if sum % 2 == 0 then -1.0 else 1.0 }

  /** The sign of the contributions to a bucket of an even-dimensional vector. */
  function BucketSign(i: nat): real { if i % 2 == 0 then -1.0 else 1.0 }

  lemma EvenBucketFixesSign(sum: nat, dim: int)
    requires dim > 0 && dim % 2 == 0
    ensures Sign(sum) == BucketSign(Bucket(sum, dim))
  {
    var half, q := dim / 2, sum / dim;
    DivMod(sum, dim);
    Doubled(half, q);
    SameParity(sum, half * q, sum % dim);
  }

  lemma DivMod(sum: nat, dim: int)
    requires dim > 0
    ensures sum == dim * (sum / dim) + sum % dim
  {
  }

  lemma Doubled(half: int, q: int)
    ensures (2 * half) * q == 2 * (half * q)
  {
  }

  lemma SameParity(sum: int, k: int, r: int)
    requires sum == 2 * k + r
    ensures sum % 2 == r % 2
  {
  }

  function Grams(runes: string, n: nat): seq<string> {
    if |runes| < n then [] else seq(|runes| - n + 1, i requires 0 <= i <= |runes| - n => runes[i..i + n])
  }

  /** The signed count of bucket `i`. */
  function Count(grams: seq<string>, fnv: string -> nat, dim: int, i: nat): real
    requires dim > 0
  {
    if grams == [] then 0.0
    else
      var sum := fnv(grams[|grams| - 1]);
      Count(grams[..|grams| - 1], fnv, dim, i) + if Bucket(sum, dim) == i then Sign(sum) else 0.0
  }

  function Counts(grams: seq<string>, fnv: string -> nat, dim: int): (v: seq<real>)
    requires dim > 0
    ensures |v| == dim
  {
    seq(dim, i requires 0 <= i < dim => Count(grams, fnv, dim, i))
  }

  function LogScaled(ln: real -> real, x: real): real {
    if x == 0.0 then 0.0 else (if x < 0.0 then -1.0 else 1.0) * ln(1.0 + Abs(x))
  }

  function SumSquares(v: seq<real>): real {
    if v == [] then 0.0 else SumSquares(v[..|v| - 1]) + v[|v| - 1] * v[|v| - 1]
  }

  function Dot(a: seq<real>, b: seq<real>): real
    requires |a| == |b|
  {
    if a == [] then 0.0 else Dot(a[..|a| - 1], b[..|b| - 1]) + a[|a| - 1] * b[|b| - 1]
  }

  // ---- even dimensions never cancel

  predicate Aligned(v: seq<real>) {
    forall i :: 0 <= i < |v| ==> v[i] * BucketSign(i) >= 0.0
  }

  predicate NonZero(v: seq<real>) {
    exists i :: 0 <= i < |v| && v[i] != 0.0
  }

  lemma {:induction false} CountAligned(grams: seq<string>, fnv: string -> nat, dim: int, i: nat)
    requires dim > 0 && dim % 2 == 0
    ensures Count(grams, fnv, dim, i) * BucketSign(i) >= 0.0
    ensures (exists g :: g in grams && Bucket(fnv(g), dim) == i) ==> Count(grams, fnv, dim, i) * BucketSign(i) >= 1.0
  {
    if grams != [] {
      var last := grams[|grams| - 1];
      CountAligned(grams[..|grams| - 1], fnv, dim, i);
      EvenBucketFixesSign(fnv(last), dim);
      assert grams == grams[..|grams| - 1] + [last];
    }
  }

  /** With an even dimension the counts of any text are non-zero and lie in one fixed orthant. */
  lemma EvenCountsDoNotCancel(grams: seq<string>, fnv: string -> nat, dim: int)
    requires dim > 0 && dim % 2 == 0
    ensures Aligned(Counts(grams, fnv, dim))
    ensures grams != [] ==> NonZero(Counts(grams, fnv, dim))
  {
    var v := Counts(grams, fnv, dim);
    forall i | 0 <= i < dim ensures v[i] * BucketSign(i) >= 0.0 {
      CountAligned(grams, fnv, dim, i);
    }
    if grams != [] {
      var i := Bucket(fnv(grams[0]), dim);
      CountAligned(grams, fnv, dim, i);
      assert grams[0] in grams;
      assert v[i] != 0.0;
    }
  }

  ghost predicate NeverCancels(dim: int, n: nat)
    requires dim > 0
  {
    forall fnv: string -> nat, runes: string ::
      |runes| >= n ==> NonZero(Counts(Grams(runes, n), fnv, dim))
  }

  /** An odd dimension lets two n-grams of opposite sign fall into one bucket. */
  lemma OddCanCancel(dim: int, n: nat) returns (runes: string, fnv: string -> nat)
    requires dim > 0 && dim % 2 == 1 && n > 0
    ensures |runes| >= n && !NonZero(Counts(Grams(runes, n), fnv, dim))
  {
    runes := seq(n, _ => 'a') + "b";
    fnv := (g: string) => if g != [] && g[|g| - 1] == 'b' then dim else 0;
    var grams := Grams(runes, n);
    assert |grams| == 2;
    var g0, g1 := grams[0], grams[1];
    assert g0[n - 1] == 'a' && g1[n - 1] == 'b';
    var none: seq<string> := [];
    assert grams[..1] == [g0] && [g0][..0] == none;
    assert Bucket(0, dim) == 0 && Bucket(dim, dim) == 0;
    forall i | 0 <= i < dim ensures Count(grams, fnv, dim, i) == 0.0 {
      assert Count([g0], fnv, dim, i) == Count(none, fnv, dim, i) + if i == 0 then -1.0 else 0.0;
    }
  }

  /** No text and no hash make the contributions cancel exactly when the dimension is even. */
  lemma NeverCancelsIffEven(dim: int, n: nat)
    requires dim > 0 && n > 0
    ensures NeverCancels(dim, n) <==> dim % 2 == 0
  {
    if dim % 2 == 0 {
      forall fnv: string -> nat, runes: string | |runes| >= n ensures NonZero(Counts(Grams(runes, n), fnv, dim)) {
        EvenCountsDoNotCancel(Grams(runes, n), fnv, dim);
      }
    } else {
      var runes, fnv := OddCanCancel(dim, n);
    }
  }

  // ---- scaling and normalising keep the orthant

  lemma LogKeepsSign(ln: real -> real, x: real, sign: real)
    requires IsLog(ln) && (sign == 1.0 || sign == -1.0) && x * sign >= 0.0
    ensures LogScaled(ln, x) * sign >= 0.0
    ensures LogScaled(ln, x) == 0.0 <==> x == 0.0
  {
    if x != 0.0 {
      assert ln(1.0 + Abs(x)) > 0.0;
    }
  }

  lemma ScaleKeepsSign(x: real, inv: real, sign: real)
    requires inv > 0.0 && x * sign >= 0.0
    ensures (x * inv) * sign >= 0.0
    ensures x * inv == 0.0 <==> x == 0.0
  {
    assert (x * inv) * sign == (x * sign) * inv;
  }

  lemma {:induction false} AlignedDot(a: seq<real>, b: seq<real>)
    requires |a| == |b| && Aligned(a) && Aligned(b)
    ensures Dot(a, b) >= 0.0
  {
    if a != [] {
      var k := |a| - 1;
      AlignedDot(a[..k], b[..k]);
      SameSignProduct(a[k], b[k], BucketSign(k));
    }
  }

  lemma SameSignProduct(x: real, y: real, sign: real)
    requires (sign == 1.0 || sign == -1.0) && x * sign >= 0.0 && y * sign >= 0.0
    ensures x * y >= 0.0
  {
    if sign == -1.0 {
      assert x * y == (-x) * (-y);
    }
  }

  // ---- Cauchy and Schwarz

  lemma SquareNonNegative(x: real)
    ensures x * x >= 0.0
  {
    if x < 0.0 { assert x * x == (-x) * (-x); }
  }

  lemma {:induction false} SumSquaresNonNegative(v: seq<real>)
    ensures SumSquares(v) >= 0.0
  {
    if v != [] {
      SumSquaresNonNegative(v[..|v| - 1]);
      SquareNonNegative(v[|v| - 1]);
    }
  }

  lemma {:induction false} SumSquaresPositive(v: seq<real>, i: nat)
    requires i < |v| && v[i] != 0.0
    ensures SumSquares(v) > 0.0
  {
    var k := |v| - 1;
    SumSquaresNonNegative(v[..k]);
    if i < k {
      SquareNonNegative(v[k]);
      SumSquaresPositive(v[..k], i);
    } else {
      AddSquare(SumSquares(v[..k]), v[k]);
    }
  }

  lemma AddSquare(sum: real, x: real)
    requires sum >= 0.0 && x != 0.0
    ensures sum + x * x > 0.0
  {
    AddProduct(sum, Abs(x), Abs(x));
    assert Abs(x) * Abs(x) == x * x;
  }

  lemma AddProduct(sum: real, x: real, y: real)
    requires sum >= 0.0 && x > 0.0 && y > 0.0
    ensures sum + x * y > 0.0
  {
    assert x * y > 0.0;
  }

  lemma SquaresOrdered(u: real, w: real)
    requires u > w >= 0.0
    ensures u * u > w * w
  {
    var gap, sum := u - w, u + w;
    assert gap * sum > 0.0;
    assert gap * sum == u * u - w * w;
  }

  lemma RootOrder(u: real, w: real)
    requires w >= 0.0 && u * u <= w * w
    ensures u <= w
  {
    if u > w { SquaresOrdered(u, w); }
  }

  lemma Cross(d: real, p: real, q: real, x: real, y: real)
    requires p >= 0.0 && q >= 0.0 && d * d <= p * q
    ensures 2.0 * d * x * y <= p * (y * y) + q * (x * x)
  {
    var s, t := p * (y * y), q * (x * x);
    SquareNonNegative(x);
    SquareNonNegative(y);
    SquareNonNegative(s - t);
    var xy := (x * x) * (y * y);
    assert xy >= 0.0;
    Rearranged(d, p, q, x, y);
    assert (d * d) * xy <= (p * q) * xy;
    assert (s + t) * (s + t) - 4.0 * (s * t) == (s - t) * (s - t);
    RootOrder(2.0 * d * x * y, s + t);
  }

  lemma Rearranged(d: real, p: real, q: real, x: real, y: real)
    ensures (2.0 * d * x * y) * (2.0 * d * x * y) == 4.0 * ((d * d) * ((x * x) * (y * y)))
    ensures (p * (y * y)) * (q * (x * x)) == (p * q) * ((x * x) * (y * y))
  {
  }

  lemma {:induction false} CauchySchwarz(a: seq<real>, b: seq<real>)
    requires |a| == |b|
    ensures Dot(a, b) * Dot(a, b) <= SumSquares(a) * SumSquares(b)
  {
    if a != [] {
      var k := |a| - 1;
      var a', b' := a[..k], b[..k];
      var d, p, q, x, y := Dot(a', b'), SumSquares(a'), SumSquares(b'), a[k], b[k];
      CauchySchwarz(a', b');
      SumSquaresNonNegative(a');
      SumSquaresNonNegative(b');
      Cross(d, p, q, x, y);
      Expanded(d, p, q, x, y);
    }
  }

  lemma Expanded(d: real, p: real, q: real, x: real, y: real)
    requires d * d <= p * q && 2.0 * d * x * y <= p * (y * y) + q * (x * x)
    ensures (d + x * y) * (d + x * y) <= (p + x * x) * (q + y * y)
  {
    assert (d + x * y) * (d + x * y) == d * d + 2.0 * d * x * y + (x * y) * (x * y);
    assert (p + x * x) * (q + y * y) == p * q + p * (y * y) + q * (x * x) + (x * x) * (y * y);
    assert (x * y) * (x * y) == (x * x) * (y * y);
  }

  // ---- the cosine

  function Times(x: real, y: real): real { x * y }

  /** A quotient; the divisor is never zero where the program divides. */
  function Ratio(d: real, length: real): real {
    if length == 0.0 then 0.0 else d / length
  }

  function Cosine(sqrt: real -> real, a: seq<real>, b: seq<real>): Option<real> {
    if |a| != |b| || a == [] then None
    else Some(CosineOf(sqrt, Dot(a, b), SumSquares(a), SumSquares(b)))
  }

  function CosineOf(sqrt: real -> real, dot: real, na: real, nb: real): real {
    if na == 0.0 || nb == 0.0 then 0.0 else Ratio(dot, Times(sqrt(na), sqrt(nb)))
  }

  lemma RootPositive(sqrt: real -> real, x: real)
    requires IsSqrt(sqrt) && x > 0.0
    ensures sqrt(x) > 0.0
  {
    var r := sqrt(x);
    if r == 0.0 { assert r * r == 0.0; }
  }

  lemma RatioBounded(d: real, r: real, q: real, na: real, nb: real)
    requires r > 0.0 && q > 0.0 && r * r == na && q * q == nb && d * d <= na * nb
    ensures Times(r, q) > 0.0 && -1.0 <= Ratio(d, Times(r, q)) <= 1.0
    ensures d >= 0.0 ==> Ratio(d, Times(r, q)) >= 0.0
  {
    var l := r * q;
    assert l > 0.0;
    assert l * l == na * nb by { assert (r * q) * (r * q) == (r * r) * (q * q); }
    RootOrder(d, l);
    assert (-d) * (-d) == d * d;
    RootOrder(-d, l);
    Quotient(d, l);
  }

  lemma Quotient(d: real, l: real)
    requires l > 0.0 && -l <= d <= l
    ensures -1.0 <= d / l <= 1.0
    ensures d >= 0.0 ==> d / l >= 0.0
  {
  }

  lemma LengthPositive(sqrt: real -> real, na: real, nb: real)
    requires IsSqrt(sqrt) && na > 0.0 && nb > 0.0
    ensures Times(sqrt(na), sqrt(nb)) > 0.0
  {
    RootPositive(sqrt, na);
    RootPositive(sqrt, nb);
  }

  lemma CosineOfBounded(sqrt: real -> real, d: real, na: real, nb: real)
    requires IsSqrt(sqrt) && na >= 0.0 && nb >= 0.0 && d * d <= na * nb
    ensures -1.0 <= CosineOf(sqrt, d, na, nb) <= 1.0
    ensures d >= 0.0 ==> CosineOf(sqrt, d, na, nb) >= 0.0
  {
    if na > 0.0 && nb > 0.0 {
      RootPositive(sqrt, na);
      RootPositive(sqrt, nb);
      RatioBounded(d, sqrt(na), sqrt(nb), na, nb);
    }
  }

  /** The quotient is defined for vectors of equal dimension and lies between -1 and 1. */
  lemma CosineBounded(sqrt: real -> real, a: seq<real>, b: seq<real>)
    requires IsSqrt(sqrt) && |a| == |b| && a != []
    ensures Cosine(sqrt, a, b).Some? && -1.0 <= Cosine(sqrt, a, b).value <= 1.0
    ensures Dot(a, b) >= 0.0 ==> Cosine(sqrt, a, b).value >= 0.0
  {
    SumSquaresNonNegative(a);
    SumSquaresNonNegative(b);
    CauchySchwarz(a, b);
    CosineOfBounded(sqrt, Dot(a, b), SumSquares(a), SumSquares(b));
  }

  /** `Cosine`: one pass over three accumulators. */
  method ComputeCosine(sqrt: real -> real, a: seq<real>, b: seq<real>) returns (r: Option<real>)
    requires IsSqrt(sqrt)
    ensures r == Cosine(sqrt, a, b)
  {
    if |a| != |b| || |a| == 0 { return None; }
    var dot, na, nb := 0.0, 0.0, 0.0;
    var i := 0;
    while i < |a|
      invariant 0 <= i <= |a|
      invariant dot == Dot(a[..i], b[..i]) && na == SumSquares(a[..i]) && nb == SumSquares(b[..i])
    {
      assert a[..i + 1][..i] == a[..i] && b[..i + 1][..i] == b[..i];
      dot, na, nb := dot + a[i] * b[i], na + a[i] * a[i], nb + b[i] * b[i];
      i := i + 1;
    }
    assert a[..|a|] == a && b[..|b|] == b;
    if na == 0.0 || nb == 0.0 { return Some(0.0); }
    SumSquaresNonNegative(a);
    SumSquaresNonNegative(b);
    LengthPositive(sqrt, na, nb);
    return Some(dot / (sqrt(na) * sqrt(nb)));
  }

  // ---- the embedding of a text

  datatype Embedder = Embedder(dim: int, n: nat, fnv: string -> nat, ln: real -> real, sqrt: real -> real, t: Tables)
  {
    ghost predicate Valid() {
      dim > 0 && 2 <= n <= 6 && IsLog(ln) && IsSqrt(sqrt) && KeepsSpaces(t)
    }
  }

  function Padded(runes: string, n: nat): (r: string)
    ensures |r| >= n
  {
    if |runes| < n then runes + seq(n - |runes|, _ => ' ') else runes
  }

  function Scaled(v: seq<real>, c: real): (w: seq<real>)
    ensures |w| == |v| && forall i :: 0 <= i < |v| ==> w[i] == Times(v[i], c)
  {
    seq(|v|, i requires 0 <= i < |v| => Times(v[i], c))
  }

  function Unit(sqrt: real -> real, v: seq<real>): (w: seq<real>)
    ensures |w| == |v|
  {
    var sum := SumSquares(v);
    if sum == 0.0 || sqrt(sum) == 0.0 then v else Scaled(v, 1.0 / sqrt(sum))
  }

  function Weights(e: Embedder, runes: string): (w: seq<real>)
    requires e.dim > 0
    ensures |w| == e.dim
  {
    var v := Counts(Grams(Padded(runes, e.n), e.n), e.fnv, e.dim);
    seq(e.dim, i requires 0 <= i < e.dim => LogScaled(e.ln, v[i]))
  }

  /** The vector of a text in lower case with single spaces. */
  function Vector(e: Embedder, runes: string): (w: seq<real>)
    requires e.dim > 0
    ensures |w| == e.dim
  {
    Unit(e.sqrt, Weights(e, runes))
  }

  lemma {:induction false} ScaledSquares(v: seq<real>, c: real)
    ensures SumSquares(Scaled(v, c)) == (c * c) * SumSquares(v)
  {
    if v != [] {
      var k := |v| - 1;
      assert Scaled(v, c)[..k] == Scaled(v[..k], c);
      ScaledSquares(v[..k], c);
      Distribute(c, SumSquares(v[..k]), v[k]);
    }
  }

  lemma Distribute(c: real, sum: real, x: real)
    ensures (c * c) * sum + (x * c) * (x * c) == (c * c) * (sum + x * x)
  {
  }

  lemma InverseSquare(r: real, sum: real)
    requires r > 0.0 && r * r == sum
    ensures ((1.0 / r) * (1.0 / r)) * sum == 1.0
  {
    var i := 1.0 / r;
    assert i * r == 1.0;
    assert (i * i) * (r * r) == (i * r) * (i * r);
  }

  lemma WeightsAligned(e: Embedder, runes: string)
    requires e.Valid() && e.dim % 2 == 0
    ensures Aligned(Weights(e, runes)) && NonZero(Weights(e, runes))
  {
    var grams := Grams(Padded(runes, e.n), e.n);
    var v := Counts(grams, e.fnv, e.dim);
    EvenCountsDoNotCancel(grams, e.fnv, e.dim);
    assert |grams| > 0;
    forall i | 0 <= i < e.dim
      ensures Weights(e, runes)[i] * BucketSign(i) >= 0.0
      ensures Weights(e, runes)[i] == 0.0 <==> v[i] == 0.0
    {
      assert v[i] * BucketSign(i) >= 0.0;
      LogKeepsSign(e.ln, v[i], BucketSign(i));
    }
    var i :| 0 <= i < |v| && v[i] != 0.0;
    assert Weights(e, runes)[i] != 0.0;
  }

  lemma ScaledAligned(w: seq<real>, inv: real)
    requires inv > 0.0 && Aligned(w)
    ensures Aligned(Scaled(w, inv))
    ensures NonZero(w) ==> NonZero(Scaled(w, inv))
  {
    var u := Scaled(w, inv);
    forall i | 0 <= i < |u| ensures u[i] * BucketSign(i) >= 0.0 && (u[i] == 0.0 <==> w[i] == 0.0) {
      assert w[i] * BucketSign(i) >= 0.0;
      ScaleKeepsSign(w[i], inv, BucketSign(i));
    }
    if NonZero(w) {
      var k :| 0 <= k < |w| && w[k] != 0.0;
      assert u[k] != 0.0;
    }
  }

  lemma UnitIsScaled(sqrt: real -> real, w: seq<real>) returns (inv: real)
    requires IsSqrt(sqrt) && NonZero(w)
    ensures inv > 0.0 && Unit(sqrt, w) == Scaled(w, inv) && SumSquares(Scaled(w, inv)) == 1.0
  {
    var k :| 0 <= k < |w| && w[k] != 0.0;
    SumSquaresPositive(w, k);
    var sum := SumSquares(w);
    RootPositive(sqrt, sum);
    inv := 1.0 / sqrt(sum);
    ScaledSquares(w, inv);
    InverseSquare(sqrt(sum), sum);
  }

  /** With an even dimension every text has a vector of length one in one fixed orthant. */
  lemma VectorsAreUnitAndAligned(e: Embedder, runes: string)
    requires e.Valid() && e.dim % 2 == 0
    ensures Aligned(Vector(e, runes)) && NonZero(Vector(e, runes))
    ensures SumSquares(Vector(e, runes)) == 1.0
  {
    WeightsAligned(e, runes);
    var inv := UnitIsScaled(e.sqrt, Weights(e, runes));
    ScaledAligned(Weights(e, runes), inv);
  }

  /** So any two texts are comparable and their similarity lies between 0 and 1. */
  lemma SimilarityRange(e: Embedder, a: string, b: string)
    requires e.Valid() && e.dim % 2 == 0
    ensures var s := Cosine(e.sqrt, Vector(e, a), Vector(e, b));
            s.Some? && 0.0 <= s.value <= 1.0
  {
    VectorsAreUnitAndAligned(e, a);
    VectorsAreUnitAndAligned(e, b);
    AlignedDot(Vector(e, a), Vector(e, b));
    CosineBounded(e.sqrt, Vector(e, a), Vector(e, b));
  }

  /** `Embed`: nothing but white space is an error; otherwise the vector depends on the text only
      through its words in lower case. */
  method Embed(e: Embedder, text: string) returns (r: Option<seq<real>>)
    requires e.Valid()
    ensures r == if Trim(e.t, MapCase(e.t.lower, text)) == "" then None
                 else Some(Vector(e, Collapse(e.t, MapCase(e.t.lower, text))))
  {
    var trimmed := MapCase(e.t.lower, Trim(e.t, text));
    SpacingUnderCase(e.t, text, Lower);
    if trimmed == "" { return None; }
    var clean := CollapseSpaces(e.t, trimmed);
    CollapseOfTrimmed(e.t, MapCase(e.t.lower, text));
    var runes := Padded(clean, e.n);
    var grams := Grams(runes, e.n);
    var vec := new real[e.dim](_ => 0.0);
    var i := 0;
    while i < |grams|
      invariant 0 <= i <= |grams|
      invariant vec[..] == Counts(grams[..i], e.fnv, e.dim)
    {
      var sum := e.fnv(grams[i]);
      var idx := Bucket(sum, e.dim);
      AddGram(grams, e.fnv, e.dim, i);
      vec[idx] := vec[idx] + Sign(sum);
      i := i + 1;
    }
    assert grams[..|grams|] == grams;
    LogScaleAll(e.ln, vec);
    assert vec[..] == Weights(e, clean);
    L2Normalize(e.sqrt, vec);
    return Some(vec[..]);
  }

  lemma AddGram(grams: seq<string>, fnv: string -> nat, dim: int, i: nat)
    requires dim > 0 && i < |grams|
    ensures var idx := Bucket(fnv(grams[i]), dim);
            var v := Counts(grams[..i], fnv, dim);
            idx < dim && Counts(grams[..i + 1], fnv, dim) == v[idx := v[idx] + Sign(fnv(grams[i]))]
  {
    assert grams[..i + 1][..i] == grams[..i];
  }

  method LogScaleAll(ln: real -> real, vec: array<real>)
    modifies vec
    ensures vec[..] == seq(vec.Length, i requires 0 <= i < vec.Length => LogScaled(ln, old(vec[i])))
  {
    var i := 0;
    while i < vec.Length
      invariant 0 <= i <= vec.Length
      invariant forall k :: 0 <= k < i ==> vec[k] == LogScaled(ln, old(vec[k]))
      invariant forall k :: i <= k < vec.Length ==> vec[k] == old(vec[k])
    {
      vec[i] := LogScaled(ln, vec[i]);
      i := i + 1;
    }
  }

  method L2Normalize(sqrt: real -> real, vec: array<real>)
    requires IsSqrt(sqrt)
    modifies vec
    ensures vec[..] == Unit(sqrt, old(vec[..]))
  {
    ghost var v := vec[..];
    var sum := 0.0;
    var i := 0;
    while i < vec.Length
      invariant 0 <= i <= vec.Length && vec[..] == v
      invariant sum == SumSquares(v[..i])
    {
      assert v[..i + 1][..i] == v[..i];
      sum := sum + vec[i] * vec[i];
      i := i + 1;
    }
    assert v[..vec.Length] == v;
    if sum == 0.0 { return; }
    SumSquaresNonNegative(v);
    RootPositive(sqrt, sum);
    var inv := 1.0 / sqrt(sum);
    i := 0;
    while i < vec.Length
      invariant 0 <= i <= vec.Length
      invariant forall k :: 0 <= k < i ==> vec[k] == Times(v[k], inv)
      invariant forall k :: i <= k < vec.Length ==> vec[k] == v[k]
    {
      vec[i] := Times(vec[i], inv);
      i := i + 1;
    }
    assert vec[..] == Scaled(v, inv);
  }

  /** `collapseSpaces`: like `collapseWhitespace`, without the final trim. */
  method CollapseSpaces(t: Tables, s: string) returns (b: string)
    ensures b == Squeezed(t, s, false)
  {
    b := "";
    var prev := false;
    var i := 0;
    while i < |s|
      invariant 0 <= i <= |s|
      invariant b + Squeezed(t, s[i..], prev) == Squeezed(t, s, false)
    {
      assert s[i..][1..] == s[i + 1..];
      Regroup(b, if !t.space(s[i]) then [s[i]] else if prev then "" else " ", Squeezed(t, s[i + 1..], t.space(s[i])));
      if t.space(s[i]) {
        if !prev { b := b + " "; }
        prev := true;
      } else {
        b := b + [s[i]];
        prev := false;
      }
      i := i + 1;
    }
    assert b + "" == b;
  }

  /** On trimmed text the final trim has nothing to do. */
  lemma CollapseOfTrimmed(t: Tables, s: string)
    requires t.space(' ')
    ensures Squeezed(t, Trim(t, s), false) == Collapse(t, s)
  {
    var x := Trim(t, s);
    TrimLeftStops(t, s);
    TrimRightTwice(t, TrimLeft(t, s));
    SqueezedNotTrimmed(t, x);
    SqueezedStart(t, x, false);
    CollapseTrim(t, s);
    if x != [] { assert !t.space(x[0]); }
  }

  lemma {:induction false} SqueezedNotTrimmed(t: Tables, s: string)
    requires t.space(' ') && TrimRight(t, s) == s
    ensures TrimRight(t, Squeezed(t, s, false)) == Squeezed(t, s, false)
    ensures s != [] ==> TrimRight(t, " " + Squeezed(t, s, true)) == " " + Squeezed(t, s, true)
  {
    if s != [] {
      assert TrimRight(t, s[1..]) == s[1..] by { assert TrimRight(t, s)[1..] == s[1..]; }
      SqueezedNotTrimmed(t, s[1..]);
      if t.space(s[0]) {
        assert s[1..] != [] by { assert s[1..] != [] || TrimRight(t, s) == []; }
        assert "" + Squeezed(t, s[1..], true) == Squeezed(t, s[1..], true);
      } else {
        var later := Squeezed(t, s[1..], false);
        assert ([s[0]] + later)[1..] == later;
        assert (" " + ([s[0]] + later))[1..] == [s[0]] + later;
      }
    }
  }

  // ---- what the numbers are

  /** Over the first `k` positions of a text: how many of its n-grams there hash to bucket `i` with an
      odd hash, less how many do with an even one. */
  function NetCount(runes: string, n: nat, fnv: string -> nat, dim: int, i: nat, k: nat): int
    requires dim > 0 && k + n <= |runes| + 1
  {
    if k == 0 then 0
    else
      var sum := fnv(runes[k - 1..k - 1 + n]);
      NetCount(runes, n, fnv, dim, i, k - 1) + if sum % dim != i then 0 else if sum % 2 == 1 then 1 else -1
  }

  lemma {:induction false} CountIsNet(runes: string, n: nat, fnv: string -> nat, dim: int, i: nat, k: nat)
    requires dim > 0 && n <= |runes| && k + n <= |runes| + 1
    ensures Count(Grams(runes, n)[..k], fnv, dim, i) == NetCount(runes, n, fnv, dim, i, k) as real
  {
    var grams := Grams(runes, n);
    if k > 0 {
      CountIsNet(runes, n, fnv, dim, i, k - 1);
      assert grams[..k][..k - 1] == grams[..k - 1] && grams[..k][k - 1] == runes[k - 1..k - 1 + n];
    } else {
      assert grams[..0] == [];
    }
  }

  /** Component `i` before scaling counts the n-grams of the text, signed by the parity of their hash. */
  lemma CountsAreNet(runes: string, n: nat, fnv: string -> nat, dim: int, i: nat)
    requires dim > 0 && n <= |runes| && i < dim
    ensures Counts(Grams(runes, n), fnv, dim)[i] == NetCount(runes, n, fnv, dim, i, |runes| - n + 1) as real
  {
    var grams := Grams(runes, n);
    CountIsNet(runes, n, fnv, dim, i, |grams|);
    assert grams[..|grams|] == grams;
  }

  /** Counts are damped by the logarithm of one more than their size, and keep their sign. */
  lemma LogScaling(ln: real -> real, x: real)
    ensures LogScaled(ln, 0.0) == 0.0
    ensures x > 0.0 ==> LogScaled(ln, x) == ln(1.0 + x) && LogScaled(ln, -x) == -ln(1.0 + x)
  {
  }

  /** Short texts are padded on the right with blanks, others are left alone. */
  lemma Padding(runes: string, n: nat)
    ensures |runes| >= n ==> Padded(runes, n) == runes
    ensures |runes| < n ==> |Padded(runes, n)| == n && Padded(runes, n)[..|runes|] == runes
    ensures forall k :: |runes| <= k < |Padded(runes, n)| ==> Padded(runes, n)[k] == ' '
  {
  }

  /** The similarity times both lengths is the dot product; a zero vector is similar to nothing, and
      vectors of different dimensions, or of none, have no similarity. */
  lemma CosineIs(sqrt: real -> real, a: seq<real>, b: seq<real>)
    requires IsSqrt(sqrt)
    ensures |a| != |b| || a == [] <==> Cosine(sqrt, a, b) == None
    ensures |a| == |b| && a != [] ==>
      var c, na, nb := Cosine(sqrt, a, b).value, SumSquares(a), SumSquares(b);
      if na == 0.0 || nb == 0.0 then c == 0.0
      else Times(sqrt(na), sqrt(nb)) > 0.0 && Times(c, Times(sqrt(na), sqrt(nb))) == Dot(a, b)
  {
    if |a| == |b| && a != [] {
      SumSquaresNonNegative(a);
      SumSquaresNonNegative(b);
      var na, nb := SumSquares(a), SumSquares(b);
      if na != 0.0 && nb != 0.0 {
        LengthPositive(sqrt, na, nb);
        TimesQuotient(Dot(a, b), Times(sqrt(na), sqrt(nb)));
      }
    }
  }

  lemma TimesQuotient(d: real, l: real)
    requires l > 0.0
    ensures Times(Ratio(d, l), l) == d
  {
  }
}
