/** Kraus operators of the single-qubit noise channels
  * (libomniq-core/include/omniq/Noise/NoiseChannel.h). Every operator the
  * channels build is a fixed matrix whose columns are scaled by square
  * roots, E = B · diag(√w0, √w1), so it is kept as the matrix B and the two
  * squared weights. E†E is then exact over `real` whenever B†B is diagonal,
  * and completeness Σ E†E = I is a statement about the weights. */
module NoiseChannels {
  import opened ComplexNumbers
  import opened Operators

  /** The range every channel parameter must lie in; a value outside it is
    * an invalid_argument. */
  predicate Probability(x: real)
  {
    0.0 <= x <= 1.0
  }

  /** B · diag(√w0, √w1). */
  datatype KrausOperator = KrausOperator(base: Matrix, w0: real, w1: real)

  predicate WellWeighted(k: KrausOperator)
  {
    IsGate2(k.base) && k.w0 >= 0.0 && k.w1 >= 0.0
  }

  /** What a square root must satisfy: non-negative, squaring to its argument. */
  ghost predicate SqrtLaw(sqrt: real -> real)
  {
    forall x :: x >= 0.0 ==> sqrt(x) >= 0.0 && sqrt(x) * sqrt(x) == x
  }

  /** The conjugate transpose of a 2×2 matrix. */
  function Dagger(m: Matrix): (d: Matrix)
    requires IsGate2(m)
    ensures IsGate2(d)
  {
    Mat2(Conj(m.cell[0][0]), Conj(m.cell[1][0]), Conj(m.cell[0][1]), Conj(m.cell[1][1]))
  }

  /** The matrix the channel hands over, with `sqrt` standing for std::sqrt. */
  function Materialise(k: KrausOperator, sqrt: real -> real): (m: Matrix)
    requires WellWeighted(k)
    ensures IsGate2(m)
  {
    var b := k.base.cell;
    Mat2(Scale(sqrt(k.w0), b[0][0]), Scale(sqrt(k.w1), b[0][1]),
         Scale(sqrt(k.w0), b[1][0]), Scale(sqrt(k.w1), b[1][1]))
  }

  function BaseGram(k: KrausOperator): (g: Matrix)
    requires IsGate2(k.base)
    ensures IsGate2(g)
  {
    Mul2(Dagger(k.base), k.base)
  }

  /** B is 2×2 and B†B has no off-diagonal part. */
  predicate DiagonalGram(k: KrausOperator)
  {
    IsGate2(k.base) && BaseGram(k).cell[0][1] == Zero && BaseGram(k).cell[1][0] == Zero
  }

  /** Entry (i, j) of M†M: column i conjugated against column j. */
  function ColumnProduct(m: Matrix, i: nat, j: nat): Complex
    requires IsGate2(m) && i < 2 && j < 2
  {
    Add(Mul(Conj(m.cell[0][i]), m.cell[0][j]), Mul(Conj(m.cell[1][i]), m.cell[1][j]))
  }

  lemma GramEntries(m: Matrix)
    requires IsGate2(m)
    ensures var p := Mul2(Dagger(m), m);
      p.cell[0][0] == ColumnProduct(m, 0, 0) && p.cell[0][1] == ColumnProduct(m, 0, 1) &&
      p.cell[1][0] == ColumnProduct(m, 1, 0) && p.cell[1][1] == ColumnProduct(m, 1, 1)
  {
  }

  /** Conjugating a scaled entry against another scaled entry. */
  lemma ScaledProduct(s: real, t: real, a: Complex, b: Complex)
    ensures Mul(Conj(Scale(s, a)), Scale(t, b)) == Scale(s * t, Mul(Conj(a), b))
  {
    assert (s * a.re) * (t * b.re) == (s * t) * (a.re * b.re);
    assert (s * a.im) * (t * b.im) == (s * t) * (a.im * b.im);
    assert (s * a.re) * (t * b.im) == (s * t) * (a.re * b.im);
    assert (s * a.im) * (t * b.re) == (s * t) * (a.im * b.re);
  }

  /** Scaling columns i and j by s and t scales their product by s·t. */
  lemma ScaledColumns(s: real, t: real, a0: Complex, a1: Complex, b0: Complex, b1: Complex)
    ensures Add(Mul(Conj(Scale(s, a0)), Scale(t, b0)), Mul(Conj(Scale(s, a1)), Scale(t, b1))) ==
      Scale(s * t, Add(Mul(Conj(a0), b0), Mul(Conj(a1), b1)))
  {
    ScaledProduct(s, t, a0, b0);
    ScaledProduct(s, t, a1, b1);
    var x, y := Mul(Conj(a0), b0), Mul(Conj(a1), b1);
    var k := s * t;
    assert k * x.re + k * y.re == k * (x.re + y.re);
    assert k * x.im + k * y.im == k * (x.im + y.im);
    assert Add(Scale(k, x), Scale(k, y)) == Scale(k, Add(x, y));
  }

  /** Diagonal entry j of E†E, computed without square roots: w_j (B†B)_jj
    * (zero for a base that is not 2×2). */
  function GramEntry(k: KrausOperator, j: nat): Complex
    requires j < 2
  {
    if IsGate2(k.base) then Scale(if j == 0 then k.w0 else k.w1, ColumnProduct(k.base, j, j)) else Zero
  }

  /** E†E when B†B is diagonal. */
  function Gram(k: KrausOperator): (g: Matrix)
    ensures IsGate2(g)
  {
    Mat2(GramEntry(k, 0), Zero, Zero, GramEntry(k, 1))
  }

  /** Gram is E†E for the materialised operator, whatever lawful square
    * root the arithmetic uses. */
  lemma GramIsProduct(k: KrausOperator, sqrt: real -> real)
    requires WellWeighted(k) && DiagonalGram(k) && SqrtLaw(sqrt)
    ensures var e := Materialise(k, sqrt); Mul2(Dagger(e), e) == Gram(k)
  {
    var b := k.base.cell;
    var s0, s1 := sqrt(k.w0), sqrt(k.w1);
    assert s0 * s0 == k.w0 && s1 * s1 == k.w1;
    var e := Materialise(k, sqrt);
    GramEntries(e);
    GramEntries(k.base);
    ScaledColumns(s0, s0, b[0][0], b[1][0], b[0][0], b[1][0]);
    ScaledColumns(s0, s1, b[0][0], b[1][0], b[0][1], b[1][1]);
    ScaledColumns(s1, s0, b[0][1], b[1][1], b[0][0], b[1][0]);
    ScaledColumns(s1, s1, b[0][1], b[1][1], b[0][1], b[1][1]);
  }

  /** Every operator is well weighted with a diagonal B†B. */
  predicate AllWellWeighted(ks: seq<KrausOperator>)
  {
    ks != [] ==> AllWellWeighted(ks[..|ks| - 1]) && WellWeighted(ks[|ks| - 1]) && DiagonalGram(ks[|ks| - 1])
  }

  /** Diagonal entry j of Σ_k E_k† E_k, added left to right from zero. */
  function DiagonalSum(ks: seq<KrausOperator>, j: nat): Complex
    requires j < 2
  {
    if ks == [] then Zero else Add(DiagonalSum(ks[..|ks| - 1], j), GramEntry(ks[|ks| - 1], j))
  }

  /** Σ_k E_k† E_k for operators whose B†B is diagonal. */
  function GramSum(ks: seq<KrausOperator>): (s: Matrix)
    ensures IsGate2(s)
  {
    Mat2(DiagonalSum(ks, 0), Zero, Zero, DiagonalSum(ks, 1))
  }

  /** GramSum is the running sum of the Gram matrices. */
  lemma GramSumSnoc(ks: seq<KrausOperator>, k: KrausOperator)
    ensures GramSum(ks + [k]) == Add2(GramSum(ks), Gram(k))
  {
    assert (ks + [k])[..|ks|] == ks;
    AddZero(Zero);
  }

  /** Σ_k E_k† E_k = I: the channel is trace preserving. */
  predicate Complete(ks: seq<KrausOperator>)
  {
    AllWellWeighted(ks) && GramSum(ks) == Identity2
  }

  /** √w · P for a Pauli or the identity P, which all satisfy P†P = I. */
  function Weighted(w: real, p: Matrix): KrausOperator
  {
    KrausOperator(p, w, w)
  }

  /** P†P = I, entry by entry. */
  predicate Unitary2(p: Matrix)
    requires IsGate2(p)
  {
    ColumnProduct(p, 0, 0) == One && ColumnProduct(p, 1, 1) == One &&
    ColumnProduct(p, 0, 1) == Zero && ColumnProduct(p, 1, 0) == Zero
  }

  /** An operator whose Gram matrix is w0 · I, as √w · P is for a unitary P. */
  predicate IdentityGram(k: KrausOperator)
  {
    WellWeighted(k) && DiagonalGram(k) &&
    GramEntry(k, 0) == Complex(k.w0, 0.0) && GramEntry(k, 1) == Complex(k.w0, 0.0)
  }

  /** √w · P has Gram matrix w · I when P†P = I. */
  lemma UnitaryGram(w: real, p: Matrix)
    requires w >= 0.0 && IsGate2(p) && Unitary2(p)
    ensures IdentityGram(Weighted(w, p))
  {
    GramEntries(p);
  }

  /** Conjugate product of two real-valued entries. */
  lemma RealProduct(a: real, b: real)
    ensures Mul(Conj(Complex(a, 0.0)), Complex(b, 0.0)) == Complex(a * b, 0.0)
  {
    assert a * 0.0 == 0.0 && -0.0 * b == 0.0 && -0.0 * 0.0 == 0.0;
  }

  /** M†M for a real matrix [[a, b], [c, d]]. */
  lemma RealColumns(a: real, b: real, c: real, d: real)
    ensures var m := Mat2(Complex(a, 0.0), Complex(b, 0.0), Complex(c, 0.0), Complex(d, 0.0));
      ColumnProduct(m, 0, 0) == Complex(a * a + c * c, 0.0) &&
      ColumnProduct(m, 0, 1) == Complex(a * b + c * d, 0.0) &&
      ColumnProduct(m, 1, 0) == Complex(b * a + d * c, 0.0) &&
      ColumnProduct(m, 1, 1) == Complex(b * b + d * d, 0.0)
  {
    RealProduct(a, a);
    RealProduct(a, b);
    RealProduct(b, a);
    RealProduct(b, b);
    RealProduct(c, c);
    RealProduct(c, d);
    RealProduct(d, c);
    RealProduct(d, d);
  }

  lemma IdentityUnitary()
    ensures Unitary2(Identity2)
  {
    RealColumns(1.0, 0.0, 0.0, 1.0);
  }

  lemma PauliXUnitary()
    ensures Unitary2(PauliX)
  {
    RealColumns(0.0, 1.0, 1.0, 0.0);
  }

  lemma PauliYUnitary()
    ensures Unitary2(PauliY)
  {
  }

  lemma PauliZUnitary()
    ensures Unitary2(PauliZ)
  {
    assert PauliZ == Mat2(Complex(1.0, 0.0), Complex(0.0, 0.0), Complex(0.0, 0.0), Complex(-1.0, 0.0));
    RealColumns(1.0, 0.0, 0.0, -1.0);
  }

  /** A weighted Pauli materialises as √w times the Pauli. */
  lemma WeightedMaterialise(w: real, p: Matrix, sqrt: real -> real)
    requires w >= 0.0 && IsGate2(p)
    ensures Materialise(Weighted(w, p), sqrt) ==
      Mat2(Scale(sqrt(w), p.cell[0][0]), Scale(sqrt(w), p.cell[0][1]),
           Scale(sqrt(w), p.cell[1][0]), Scale(sqrt(w), p.cell[1][1]))
  {
  }

  /** Σ_k w_k over a list of operators. */
  function WeightSum(ks: seq<KrausOperator>): real
  {
    if ks == [] then 0.0 else WeightSum(ks[..|ks| - 1]) + ks[|ks| - 1].w0
  }

  /** Every operator of the list has Gram matrix w_k · I. */
  predicate AllIdentityGram(ks: seq<KrausOperator>)
  {
    ks != [] ==> AllIdentityGram(ks[..|ks| - 1]) && IdentityGram(ks[|ks| - 1])
  }

  /** Operators with Gram matrices w_k · I add up to (Σ w) · I. */
  lemma {:induction false} IdentityGramSum(ks: seq<KrausOperator>)
    requires AllIdentityGram(ks)
    ensures AllWellWeighted(ks)
    ensures DiagonalSum(ks, 0) == Complex(WeightSum(ks), 0.0)
    ensures DiagonalSum(ks, 1) == Complex(WeightSum(ks), 0.0)
  {
    if ks != [] {
      IdentityGramSum(ks[..|ks| - 1]);
    }
  }

  /** Such operators whose weights add up to 1 form a complete set. */
  lemma IdentityGramComplete(ks: seq<KrausOperator>)
    requires AllIdentityGram(ks) && WeightSum(ks) == 1.0
    ensures Complete(ks)
  {
    IdentityGramSum(ks);
  }

  /** Appending an operator with Gram matrix w · I adds w to the weights. */
  lemma IdentityGramSnoc(ks: seq<KrausOperator>, k: KrausOperator)
    requires AllIdentityGram(ks) && IdentityGram(k)
    ensures AllIdentityGram(ks + [k]) && WeightSum(ks + [k]) == WeightSum(ks) + k.w0
  {
    assert (ks + [k])[..|ks|] == ks;
  }

  /** Two operators with Gram matrices w_k · I and weights adding up to 1
    * form a complete set. */
  lemma PairComplete(a: KrausOperator, b: KrausOperator)
    requires IdentityGram(a) && IdentityGram(b) && a.w0 + b.w0 == 1.0
    ensures Complete([a, b])
  {
    IdentityGramSnoc([], a);
    assert [] + [a] == [a];
    IdentityGramSnoc([a], b);
    assert [a] + [b] == [a, b];
    IdentityGramComplete([a, b]);
  }

  /** Diagonal sums of a two-operator list, entry by entry. */
  lemma PairDiagonalSum(a: KrausOperator, b: KrausOperator)
    requires WellWeighted(a) && DiagonalGram(a) && WellWeighted(b) && DiagonalGram(b)
    ensures AllWellWeighted([a, b])
    ensures DiagonalSum([a, b], 0) == Add(GramEntry(a, 0), GramEntry(b, 0))
    ensures DiagonalSum([a, b], 1) == Add(GramEntry(a, 1), GramEntry(b, 1))
  {
    assert [a, b][..1] == [a] && [a][..0] == [];
    forall j: nat | j < 2
      ensures DiagonalSum([a, b], j) == Add(GramEntry(a, j), GramEntry(b, j))
    {
      AddZero(GramEntry(a, j));
      assert DiagonalSum([a], j) == Add(Zero, GramEntry(a, j)) == GramEntry(a, j);
    }
  }

  /** Four operators with Gram matrices w_k · I and weights adding up to 1
    * form a complete set. */
  lemma QuadComplete(a: KrausOperator, b: KrausOperator, c: KrausOperator, d: KrausOperator)
    requires IdentityGram(a) && IdentityGram(b) && IdentityGram(c) && IdentityGram(d)
    requires a.w0 + b.w0 + c.w0 + d.w0 == 1.0
    ensures Complete([a, b, c, d])
  {
    IdentityGramSnoc([], a);
    assert [] + [a] == [a];
    IdentityGramSnoc([a], b);
    assert [a] + [b] == [a, b];
    IdentityGramSnoc([a, b], c);
    assert [a, b] + [c] == [a, b, c];
    IdentityGramSnoc([a, b, c], d);
    assert [a, b, c] + [d] == [a, b, c, d];
    IdentityGramComplete([a, b, c, d]);
  }

  /** Gram entries of an operator whose base has orthogonal columns of
    * squared lengths x and y. */
  lemma OrthogonalGram(k: KrausOperator, x: real, y: real)
    requires WellWeighted(k)
    requires ColumnProduct(k.base, 0, 0) == Complex(x, 0.0) && ColumnProduct(k.base, 1, 1) == Complex(y, 0.0)
    requires ColumnProduct(k.base, 0, 1) == Zero && ColumnProduct(k.base, 1, 0) == Zero
    ensures DiagonalGram(k)
    ensures GramEntry(k, 0) == Complex(k.w0 * x, 0.0) && GramEntry(k, 1) == Complex(k.w1 * y, 0.0)
  {
    GramEntries(k.base);
    ScaleReal(k.w0, x);
    ScaleReal(k.w1, y);
  }

  lemma ScaleReal(w: real, x: real)
    ensures Scale(w, Complex(x, 0.0)) == Complex(w * x, 0.0)
  {
    assert w * 0.0 == 0.0;
  }

  /** Non-negative reals with equal squares are equal. */
  lemma SquareUnique(s: real, r: real)
    requires s >= 0.0 && r >= 0.0 && s * s == r * r
    ensures s == r
  {
    if s < r {
      SquareStrict(s, r);
    } else if r < s {
      SquareStrict(r, s);
    }
  }

  lemma SquareStrict(s: real, r: real)
    requires 0.0 <= s < r
    ensures s * s < r * r
  {
    var sr := s * r;
    assert s * s <= sr;
    assert sr < r * r;
  }

  /** A lawful square root fixes 0 and 1. */
  lemma SqrtZeroOne(sqrt: real -> real)
    requires SqrtLaw(sqrt)
    ensures sqrt(0.0) == 0.0 && sqrt(1.0) == 1.0
  {
    SquareUnique(sqrt(0.0), 0.0);
    SquareUnique(sqrt(1.0), 1.0);
  }

  /** 1 − exp(−gateTime / T): the damping parameter fromT1 and fromT2
    * derive from a relaxation time, with `exp` standing for std::exp. */
  function DecayProbability(t: real, gateTime: real, exp: real -> real): real
    requires t != 0.0
  {
    1.0 - exp(-(gateTime / t))
  }

  /** What an exponential must satisfy on (−∞, 0]: a value in (0, 1]. */
  ghost predicate ExpLaw(exp: real -> real)
  {
    forall x :: x <= 0.0 ==> 0.0 < exp(x) <= 1.0
  }

  /** A non-negative gate time and a positive relaxation time give a
    * probability in [0, 1). */
  lemma DecayInRange(t: real, gateTime: real, exp: real -> real)
    requires t > 0.0 && gateTime >= 0.0 && ExpLaw(exp)
    ensures 0.0 <= DecayProbability(t, gateTime, exp) < 1.0
  {
    assert gateTime / t >= 0.0;
  }

  /** The parameter depends on gateTime / T alone: scaling both times by the
    * same non-zero factor leaves it unchanged. */
  lemma DecayScaleInvariant(t: real, gateTime: real, k: real, exp: real -> real)
    requires t != 0.0 && k != 0.0
    ensures k * t != 0.0
    ensures DecayProbability(k * t, k * gateTime, exp) == DecayProbability(t, gateTime, exp)
  {
    assert (k * gateTime) / (k * t) == gateTime / t by {
      assert (gateTime / t) * (k * t) == k * gateTime;
    }
  }
}
