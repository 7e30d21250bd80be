/** The free functions of libomniq-core/src/common/QuantumStates.cpp: the
  * Bell, GHZ and W state constructors, the fidelity and concurrence input
  * checks, the partial transpose over the first qubit, negativity,
  * entanglement and coherence. Eigenvalues and moduli come from routines the
  * model does not contain (Eigen's eigensolver, `std::abs` on a complex
  * number); they are parameters. */
module QuantumStates {
  import opened Wrappers
  import opened Bits
  import opened ComplexNumbers
  import opened Operators
  import Spectral

  // ---------------------------------------------------------------------
  // State constructors
  // ---------------------------------------------------------------------

  /** A state whose amplitude k is coeff[k] / √norm. The constructors only
    * ever write 1/√2 or 1/√n, so this keeps them exact without square roots. */
  datatype ScaledState = ScaledState(norm: nat, coeff: seq<int>)

  function Zeros(n: nat): (z: seq<int>)
    ensures |z| == n && forall k :: 0 <= k < n ==> z[k] == 0
  {
    seq(n, k => 0)
  }

  function SumSquares(s: seq<int>): int
  {
    if s == [] then 0 else SumSquares(s[..|s| - 1]) + s[|s| - 1] * s[|s| - 1]
  }

  lemma {:induction false} SumSquaresAppend(s: seq<int>, t: seq<int>)
    ensures SumSquares(s + t) == SumSquares(s) + SumSquares(t)
  {
    if t != [] {
      SumSquaresAppend(s, t[..|t| - 1]);
      assert (s + t)[..|s + t| - 1] == s + t[..|t| - 1];
    } else {
      assert s + t == s;
    }
  }

  lemma {:induction false} SumSquaresZeros(n: nat)
    ensures SumSquares(Zeros(n)) == 0
  {
    if n > 0 {
      SumSquaresZeros(n - 1);
      assert Zeros(n)[..n - 1] == Zeros(n - 1);
    }
  }

  /** Inner product of two coefficient lists. */
  function Dot(s: seq<int>, t: seq<int>): int
    requires |s| == |t|
  {
    if s == [] then 0 else Dot(s[..|s| - 1], t[..|t| - 1]) + s[|s| - 1] * t[|t| - 1]
  }

  /** createBellState: Φ± = (|00⟩ ± |11⟩)/√2 for indices 0 and 1,
    * Ψ± = (|01⟩ ± |10⟩)/√2 for indices 2 and 3; any other index throws. */
  function CreateBellState(bellIndex: int): (r: Result<ScaledState>)
    ensures r.Err? <==> bellIndex < 0 || bellIndex > 3
    ensures r.Err? ==> r.error == InvalidArgument
    ensures r.Ok? ==> r.value.norm == 2 && |r.value.coeff| == 4
    ensures r.Ok? ==> forall k :: 0 <= k < 4 ==>
      (r.value.coeff[k] != 0 <==> if bellIndex < 2 then k == 0 || k == 3 else k == 1 || k == 2)
    ensures r.Ok? ==> r.value.coeff[if bellIndex < 2 then 0 else 1] == 1
    ensures r.Ok? ==> r.value.coeff[if bellIndex < 2 then 3 else 2] == (if bellIndex % 2 == 1 then -1 else 1)
  {
    if bellIndex < 0 || bellIndex > 3 then Err(InvalidArgument)
    else if bellIndex == 0 then Ok(ScaledState(2, [1, 0, 0, 1]))
    else if bellIndex == 1 then Ok(ScaledState(2, [1, 0, 0, -1]))
    else if bellIndex == 2 then Ok(ScaledState(2, [0, 1, 1, 0]))
    else Ok(ScaledState(2, [0, 1, -1, 0]))
  }

  lemma Dot4(s: seq<int>, t: seq<int>)
    requires |s| == 4 && |t| == 4
    ensures Dot(s, t) == s[0] * t[0] + s[1] * t[1] + s[2] * t[2] + s[3] * t[3]
    ensures SumSquares(s) == s[0] * s[0] + s[1] * s[1] + s[2] * s[2] + s[3] * s[3]
  {
    assert s[..3][..2] == s[..2] && t[..3][..2] == t[..2];
    assert s[..2][..1] == s[..1] && t[..2][..1] == t[..1];
    assert s[..1][..0] == [] && t[..1][..0] == [];
    assert Dot(s[..1], t[..1]) == s[0] * t[0];
    assert Dot(s[..2], t[..2]) == s[0] * t[0] + s[1] * t[1];
    assert Dot(s[..3], t[..3]) == s[0] * t[0] + s[1] * t[1] + s[2] * t[2];
    assert SumSquares(s[..1]) == s[0] * s[0];
    assert SumSquares(s[..2]) == s[0] * s[0] + s[1] * s[1];
    assert SumSquares(s[..3]) == s[0] * s[0] + s[1] * s[1] + s[2] * s[2];
    assert SumSquares(s) == SumSquares(s[..3]) + s[3] * s[3];
  }

  /** The four Bell states are normalised and pairwise orthogonal. */
  lemma BellOrthonormal(a: nat, b: nat)
    requires a <= 3 && b <= 3
    ensures CreateBellState(a).Ok? && CreateBellState(b).Ok?
    ensures Dot(CreateBellState(a).value.coeff, CreateBellState(b).value.coeff) == if a == b then 2 else 0
    ensures SumSquares(CreateBellState(a).value.coeff) == CreateBellState(a).value.norm
  {
    var s, t := CreateBellState(a).value.coeff, CreateBellState(b).value.coeff;
    Dot4(s, t);
    Dot4(s, s);
  }

  /** createGHZState: (|0…0⟩ + |1…1⟩)/√2 over 2^numQubits amplitudes;
    * fewer than two qubits throws. */
  function CreateGHZState(numQubits: int): (r: Result<ScaledState>)
    ensures r.Err? <==> numQubits < 2
    ensures r.Err? ==> r.error == InvalidArgument
    ensures r.Ok? ==> r.value.norm == 2 && |r.value.coeff| == Pow2(numQubits)
    ensures r.Ok? ==> forall k :: 0 <= k < |r.value.coeff| ==>
      r.value.coeff[k] == if k == 0 || k == Pow2(numQubits) - 1 then 1 else 0
  {
    if numQubits < 2 then Err(InvalidArgument)
    else
      var dim := Pow2(numQubits);
      Ok(ScaledState(2, seq(dim, k => if k == 0 || k == dim - 1 then 1 else 0)))
  }

  /** The GHZ state is normalised: its two unit coefficients are distinct. */
  lemma GHZNormalised(numQubits: int)
    requires numQubits >= 2
    ensures SumSquares(CreateGHZState(numQubits).value.coeff) == 2
  {
    var s := CreateGHZState(numQubits).value.coeff;
    var dim := Pow2(numQubits);
    PowMonotone(1, numQubits);
    assert s == [1] + Zeros(dim - 2) + [1];
    SumSquaresAppend([1] + Zeros(dim - 2), [1]);
    SumSquaresAppend([1], Zeros(dim - 2));
    SumSquaresZeros(dim - 2);
  }

  /** The coefficients of the W state on n qubits: 1 at every index 2^i with
    * i < n, 0 elsewhere (for n = 0 the single amplitude is 0). */
  function WCoeffs(n: nat): (s: seq<int>)
    ensures |s| == Pow2(n)
  {
    if n == 0 then [0] else WCoeffs(n - 1) + [1] + Zeros(Pow2(n - 1) - 1)
  }

  predicate IsPowerBelow(k: nat, n: nat)
  {
    exists i :: 0 <= i < n && k == Pow2(i)
  }

  /** The W state is nonzero exactly at the indices 2^i, i < n, and every
    * nonzero coefficient is the same. */
  lemma {:induction false} WSupport(n: nat, k: nat)
    requires k < Pow2(n)
    ensures WCoeffs(n)[k] == if IsPowerBelow(k, n) then 1 else 0
  {
    if n == 0 {
      assert !IsPowerBelow(k, n);
    } else {
      var half := Pow2(n - 1);
      if k < half {
        WSupport(n - 1, k);
        if IsPowerBelow(k, n) {
          var i :| 0 <= i < n && k == Pow2(i);
          if i == n - 1 {
            assert false;
          }
          assert IsPowerBelow(k, n - 1);
        }
      } else if k == half {
        assert IsPowerBelow(k, n);
      } else {
        if IsPowerBelow(k, n) {
          var i :| 0 <= i < n && k == Pow2(i);
          PowMonotone(i, n - 1);
          assert false;
        }
      }
    }
  }

  /** The W state on n qubits has n unit coefficients: it is normalised by
    * 1/√n. */
  lemma {:induction false} WNormalised(n: nat)
    ensures SumSquares(WCoeffs(n)) == n
  {
    if n == 0 {
      assert [0][..0] == [];
    } else {
      var prev, tail := WCoeffs(n - 1), Zeros(Pow2(n - 1) - 1);
      WNormalised(n - 1);
      assert SumSquares([1]) == 1 by {
        assert [1][..0] == [];
      }
      SumSquaresAppend(prev, [1]);
      SumSquaresAppend(prev + [1], tail);
      SumSquaresZeros(Pow2(n - 1) - 1);
    }
  }

  /** One pass of the W loop turns the zero at 2^i into a one. */
  lemma WStep(i: nat, n: nat)
    requires i < n
    ensures Pow2(i) < Pow2(n) && Pow2(i + 1) <= Pow2(n)
    ensures (WCoeffs(i) + Zeros(Pow2(n) - Pow2(i)))[Pow2(i) := 1] == WCoeffs(i + 1) + Zeros(Pow2(n) - Pow2(i + 1))
  {
    PowMonotone(i + 1, n);
    var before := WCoeffs(i) + Zeros(Pow2(n) - Pow2(i));
    var after := WCoeffs(i + 1) + Zeros(Pow2(n) - Pow2(i + 1));
    assert |before| == |after|;
    forall k | 0 <= k < |after| ensures before[Pow2(i) := 1][k] == after[k] {
      if k < Pow2(i) {
        assert after[k] == WCoeffs(i)[k];
      }
    }
  }

  /** createWState: a fresh vector of 2^numQubits zeros in which the loop
    * writes the amplitude 1/√numQubits at each index 2^i, i < numQubits;
    * fewer than two qubits throws. */
  method CreateWState(numQubits: int) returns (r: Result<ScaledState>)
    ensures r.Err? <==> numQubits < 2
    ensures r.Err? ==> r.error == InvalidArgument
    ensures r.Ok? ==> r.value == ScaledState(numQubits, WCoeffs(numQubits))
  {
    if numQubits < 2 {
      return Err(InvalidArgument);
    }
    var dim := Pow2(numQubits);
    var w := new int[dim](k => 0);
    var i := 0;
    assert w[..] == WCoeffs(0) + Zeros(dim - 1);
    while i < numQubits
      invariant 0 <= i <= numQubits
      invariant Pow2(i) <= dim
      invariant w[..] == WCoeffs(i) + Zeros(dim - Pow2(i))
    {
      WStep(i, numQubits);
      ghost var before := w[..];
      w[Pow2(i)] := 1;
      assert w[..] == before[Pow2(i) := 1];
      i := i + 1;
    }
    return Ok(ScaledState(numQubits, w[..]));
  }

  // ---------------------------------------------------------------------
  // Fidelity
  // ---------------------------------------------------------------------

  /** ⟨a|b⟩ = Σ conj(a_i)·b_i, `state1.adjoint() * state2`. */
  function Inner(a: seq<Complex>, b: seq<Complex>): Complex
    requires |a| == |b|
  {
    if a == [] then Zero
    else Add(Inner(a[..|a| - 1], b[..|b| - 1]), Mul(Conj(a[|a| - 1]), b[|b| - 1]))
  }

  /** ⟨b|a⟩ is the conjugate of ⟨a|b⟩. */
  lemma {:induction false} InnerConj(a: seq<Complex>, b: seq<Complex>)
    requires |a| == |b|
    ensures Inner(b, a) == Conj(Inner(a, b))
  {
    if a != [] {
      InnerConj(a[..|a| - 1], b[..|b| - 1]);
      ConjStep(Inner(a[..|a| - 1], b[..|b| - 1]), a[|a| - 1], b[|b| - 1]);
    }
  }

  lemma ConjStep(x: Complex, p: Complex, q: Complex)
    ensures Add(Conj(x), Mul(Conj(q), p)) == Conj(Add(x, Mul(Conj(p), q)))
  {
    assert Mul(Conj(q), p).re == Mul(Conj(p), q).re;
    assert Mul(Conj(q), p).im == -Mul(Conj(p), q).im;
  }

  /** calculateFidelity on state vectors: |⟨a|b⟩|²; vectors of different
    * dimensions throw. */
  function StateFidelity(state1: seq<Complex>, state2: seq<Complex>): (r: Result<real>)
    ensures r.Err? <==> |state1| != |state2|
    ensures r.Err? ==> r.error == InvalidArgument
    ensures r.Ok? ==> r.value >= 0.0
  {
    if |state1| != |state2| then Err(InvalidArgument)
    else Ok(NormSq(Inner(state1, state2)))
  }

  /** The state fidelity does not depend on the order of its arguments. */
  lemma StateFidelitySymmetric(state1: seq<Complex>, state2: seq<Complex>)
    ensures StateFidelity(state1, state2) == StateFidelity(state2, state1)
  {
    if |state1| == |state2| {
      InnerConj(state1, state2);
      var z := Inner(state1, state2);
      assert NormSq(Conj(z)) == NormSq(z);
    }
  }

  /** Σ_{k < m} f(i, k). */
  function RowSum(f: (nat, nat) -> Complex, i: nat, m: nat): Complex
  {
    if m == 0 then Zero else Add(RowSum(f, i, m - 1), f(i, m - 1))
  }

  /** Σ_{i < n} Σ_{k < m} f(i, k). */
  function DoubleSum(f: (nat, nat) -> Complex, n: nat, m: nat): Complex
  {
    if n == 0 then Zero else Add(DoubleSum(f, n - 1, m), RowSum(f, n - 1, m))
  }

  /** Adding one more row index to the swapped sum adds column n - 1 to it. */
  lemma {:induction false} DoubleSumLastColumn(f: (nat, nat) -> Complex, g: (nat, nat) -> Complex, n: nat, m: nat)
    requires n > 0 && forall i: nat, k: nat :: g(k, i) == f(i, k)
    ensures DoubleSum(g, m, n) == Add(DoubleSum(g, m, n - 1), RowSum(f, n - 1, m))
  {
    if m > 0 {
      DoubleSumLastColumn(f, g, n, m - 1);
    }
  }

  lemma {:induction false} DoubleSumZero(f: (nat, nat) -> Complex, m: nat)
    ensures DoubleSum(f, m, 0) == Zero
  {
    if m > 0 {
      DoubleSumZero(f, m - 1);
    }
  }

  /** The order of a finite double sum can be exchanged: with
    * g(k, i) = f(i, k), Σ_{i<n} Σ_{k<m} f(i, k) = Σ_{k<m} Σ_{i<n} g(k, i). */
  lemma {:induction false} DoubleSumSwap(f: (nat, nat) -> Complex, g: (nat, nat) -> Complex, n: nat, m: nat)
    requires forall i: nat, k: nat :: g(k, i) == f(i, k)
    ensures DoubleSum(f, n, m) == DoubleSum(g, m, n)
  {
    if n == 0 {
      DoubleSumZero(g, m);
    } else {
      DoubleSumSwap(f, g, n - 1, m);
      DoubleSumLastColumn(f, g, n, m);
    }
  }

  /** The (i, k) term of tr(a·b): a(i, k)·b(k, i), zero off the matrices. */
  function ProductTerm(a: Matrix, b: Matrix): (nat, nat) -> Complex
    requires WellFormed(a) && WellFormed(b)
  {
    (i: nat, k: nat) =>
      if i < a.rows && k < a.cols && k < b.rows && i < b.cols then Mul(a.cell[i][k], b.cell[k][i]) else Zero
  }

  lemma MulCommutes(a: Complex, b: Complex)
    ensures Mul(a, b) == Mul(b, a)
  {
  }

  /** tr(a·b) for square matrices of the same size. */
  function ProductTrace(a: Matrix, b: Matrix): Complex
    requires WellFormed(a) && WellFormed(b)
  {
    DoubleSum(ProductTerm(a, b), a.rows, a.cols)
  }

  /** calculateFidelity on density matrices: the source returns
    * √|tr(ρ1·ρ2)|; the model returns tr(ρ1·ρ2), of which the square root of
    * the modulus is taken. Matrices of different shapes throw. */
  function DensityFidelityTrace(rho1: Matrix, rho2: Matrix): (r: Result<Complex>)
    requires WellFormed(rho1) && WellFormed(rho2)
    requires rho1.rows == rho2.rows && rho1.cols == rho2.cols ==> rho1.rows == rho1.cols
    ensures r.Err? <==> rho1.rows != rho2.rows || rho1.cols != rho2.cols
    ensures r.Err? ==> r.error == InvalidArgument
  {
    if rho1.rows != rho2.rows || rho1.cols != rho2.cols then Err(InvalidArgument)
    else Ok(ProductTrace(rho1, rho2))
  }

  /** tr(ρ1·ρ2) = tr(ρ2·ρ1): the density-matrix fidelity is symmetric too. */
  lemma DensityFidelitySymmetric(rho1: Matrix, rho2: Matrix)
    requires WellFormed(rho1) && WellFormed(rho2)
    requires rho1.rows == rho2.rows && rho1.cols == rho2.cols && rho1.rows == rho1.cols
    ensures DensityFidelityTrace(rho1, rho2) == DensityFidelityTrace(rho2, rho1)
  {
    var f, g := ProductTerm(rho1, rho2), ProductTerm(rho2, rho1);
    forall i: nat, k: nat ensures g(k, i) == f(i, k) {
      if i < rho1.rows && k < rho1.cols {
        MulCommutes(rho1.cell[i][k], rho2.cell[k][i]);
      }
    }
    DoubleSumSwap(f, g, rho1.rows, rho1.cols);
  }

  // ---------------------------------------------------------------------
  // Concurrence
  // ---------------------------------------------------------------------

  /** Each value is at least the next one. */
  predicate Descending(s: seq<real>)
  {
    forall i :: 0 < i < |s| ==> s[i - 1] >= s[i]
  }

  function InsertDescending(x: real, s: seq<real>): (r: seq<real>)
    requires Descending(s)
    ensures Descending(r) && multiset(r) == multiset(s) + multiset{x} && |r| == |s| + 1
    ensures r[0] == x || (s != [] && r[0] == s[0])
  {
    if s == [] || x >= s[0] then [x] + s
    else
      assert s == [s[0]] + s[1..];
      var t := InsertDescending(x, s[1..]);
      assert t[0] <= s[0];
      [s[0]] + t
  }

  /** `std::sort(…, std::greater<double>())`. */
  function SortDescending(s: seq<real>): (r: seq<real>)
    ensures Descending(r) && multiset(r) == multiset(s) && |r| == |s|
  {
    if s == [] then []
    else
      assert s == [s[0]] + s[1..];
      InsertDescending(s[0], SortDescending(s[1..]))
  }

  /** The head of a descending list is its largest value. */
  lemma {:induction false} HeadIsMax(a: seq<real>, v: real)
    requires Descending(a) && v in multiset(a)
    ensures a[0] >= v
  {
    assert a == [a[0]] + a[1..];
    if v != a[0] {
      assert v in multiset(a[1..]);
      HeadIsMax(a[1..], v);
    }
  }

  lemma TailDescending(a: seq<real>)
    requires Descending(a) && a != []
    ensures Descending(a[1..])
  {
    forall i | 0 < i < |a| - 1 ensures a[1..][i - 1] >= a[1..][i] {
      assert a[i] >= a[i + 1];
    }
  }

  /** Lists with the same values and the same head have tails with the same
    * values. */
  lemma SameTailValues(a: seq<real>, b: seq<real>)
    requires a != [] && b != [] && a[0] == b[0] && multiset(a) == multiset(b)
    ensures multiset(a[1..]) == multiset(b[1..])
  {
    var x := a[0];
    assert a == [x] + a[1..] && b == [x] + b[1..];
    forall y ensures multiset(a[1..])[y] == multiset(b[1..])[y] {
      assert (multiset{x} + multiset(a[1..]))[y] == (multiset{x} + multiset(b[1..]))[y];
    }
  }

  /** Two descending arrangements of the same values are the same list. */
  lemma {:induction false} DescendingUnique(a: seq<real>, b: seq<real>)
    requires Descending(a) && Descending(b) && multiset(a) == multiset(b)
    ensures a == b
  {
    assert |a| == |multiset(a)| == |multiset(b)| == |b|;
    if a != [] {
      assert a[0] in multiset(a) && b[0] in multiset(b);
      HeadIsMax(a, b[0]);
      HeadIsMax(b, a[0]);
      SameTailValues(a, b);
      TailDescending(a);
      TailDescending(b);
      DescendingUnique(a[1..], b[1..]);
      assert a == [a[0]] + a[1..] && b == [b[0]] + b[1..];
    }
  }

  function Max0(x: real): real
  {
    if x > 0.0 then x else 0.0
  }

  /** calculateConcurrence: anything but a 4×4 matrix throws; otherwise
    * max(0, λ1 − λ2 − λ3 − λ4) over the eigenvalues of R in descending
    * order. The eigenvalues come from the eigensolver. */
  function Concurrence(rows: int, cols: int, eigenvalues: seq<real>): (r: Result<real>)
    requires rows == 4 && cols == 4 ==> |eigenvalues| == 4
    ensures r.Err? <==> rows != 4 || cols != 4
    ensures r.Err? ==> r.error == InvalidArgument
    ensures r.Ok? ==> r.value >= 0.0
  {
    if rows != 4 || cols != 4 then Err(InvalidArgument)
    else
      var s := SortDescending(eigenvalues);
      Ok(Max0(s[0] - s[1] - s[2] - s[3]))
  }

  /** The concurrence depends only on the eigenvalues, not on the order in
    * which the eigensolver reports them. */
  lemma ConcurrenceOrderFree(e1: seq<real>, e2: seq<real>)
    requires |e1| == 4 && multiset(e1) == multiset(e2)
    ensures |e2| == 4 && Concurrence(4, 4, e1) == Concurrence(4, 4, e2)
  {
    assert |e2| == |multiset(e2)| == |multiset(e1)| == 4;
    DescendingUnique(SortDescending(e1), SortDescending(e2));
  }

  /** With non-negative eigenvalues the concurrence is at most the largest
    * one, and it is zero when the largest does not exceed the sum of the
    * other three. */
  lemma ConcurrenceBound(eigenvalues: seq<real>)
    requires |eigenvalues| == 4 && forall k :: 0 <= k < 4 ==> eigenvalues[k] >= 0.0
    ensures var s := SortDescending(eigenvalues);
      Concurrence(4, 4, eigenvalues).value <= s[0] &&
      (s[0] <= s[1] + s[2] + s[3] ==> Concurrence(4, 4, eigenvalues).value == 0.0)
  {
    var s := SortDescending(eigenvalues);
    forall k | 1 <= k < 4 ensures s[k] >= 0.0 {
      assert s[k] in multiset(eigenvalues);
    }
  }

  // ---------------------------------------------------------------------
  // Density matrix of a pure state and measurement
  // ---------------------------------------------------------------------

  /** createDensityMatrix: |ψ⟩⟨ψ|, entry (i, j) = ψ_i·conj(ψ_j). */
  function CreateDensityMatrix(psi: seq<Complex>): (m: Matrix)
    ensures WellFormed(m) && m.rows == |psi| && m.cols == |psi|
  {
    Build(|psi|, |psi|, (i, j) => if 0 <= i < |psi| && 0 <= j < |psi| then Mul(psi[i], Conj(psi[j])) else Zero)
  }

  function SquaredNorm(psi: seq<Complex>): (r: real)
    ensures r >= 0.0
  {
    if psi == [] then 0.0 else SquaredNorm(psi[..|psi| - 1]) + NormSq(psi[|psi| - 1])
  }

  /** |ψ⟩⟨ψ| is Hermitian with real diagonal |ψ_i|², so its trace is ⟨ψ|ψ⟩. */
  lemma DensityMatrixHermitian(psi: seq<Complex>, i: nat, j: nat)
    requires i < |psi| && j < |psi|
    ensures CreateDensityMatrix(psi).cell[j][i] == Conj(CreateDensityMatrix(psi).cell[i][j])
    ensures CreateDensityMatrix(psi).cell[i][i] == Complex(NormSq(psi[i]), 0.0)
  {
  }

  lemma {:induction false} DensityMatrixTrace(psi: seq<Complex>, k: nat)
    requires k <= |psi|
    ensures Trace(CreateDensityMatrix(psi), k) == SquaredNorm(psi[..k])
  {
    if k > 0 {
      DensityMatrixTrace(psi, k - 1);
      DensityMatrixHermitian(psi, k - 1, k - 1);
      assert psi[..k][..k - 1] == psi[..k - 1];
    }
  }

  /** M·ψ for a 2×2 M. */
  function Apply2(m: Matrix, psi: seq<Complex>): (r: seq<Complex>)
    requires IsGate2(m) && |psi| == 2
    ensures |r| == 2
  {
    [Add(Mul(m.cell[0][0], psi[0]), Mul(m.cell[0][1], psi[1])),
     Add(Mul(m.cell[1][0], psi[0]), Mul(m.cell[1][1], psi[1]))]
  }

  /** measureState's outcome probabilities before normalisation,
    * ‖M0·ψ‖² and ‖M1·ψ‖²; a basis outside {0, 1, 2} throws. */
  function MeasurementProbabilities(state: seq<Complex>, basis: int): (r: Result<(real, real)>)
    requires |state| == 2
    ensures r.Err? <==> basis !in {0, 1, 2}
    ensures r.Err? ==> r.error == InvalidArgument
    ensures r.Ok? ==> r.value.0 >= 0.0 && r.value.1 >= 0.0
  {
    if basis !in {0, 1, 2} then Err(InvalidArgument)
    else
      var m0, m1 := MeasurementOperator(basis, 0).value, MeasurementOperator(basis, 1).value;
      Ok((SquaredNorm(Apply2(m0, state)), SquaredNorm(Apply2(m1, state))))
  }

  lemma SquaredNorm2(v: seq<Complex>)
    requires |v| == 2
    ensures SquaredNorm(v) == NormSq(v[0]) + NormSq(v[1])
  {
    assert v[..1][..0] == [];
    assert SquaredNorm(v[..1]) == NormSq(v[0]);
    assert v[..|v| - 1] == v[..1];
  }

  /** In the Z basis the probabilities are |ψ0|² and |ψ1|², which add up to
    * ‖ψ‖². */
  lemma MeasurementProbabilitiesZ(state: seq<Complex>)
    requires |state| == 2
    ensures MeasurementProbabilities(state, 0) == Ok((NormSq(state[0]), NormSq(state[1])))
  {
    var m0, m1 := MeasurementOperator(0, 0).value, MeasurementOperator(0, 1).value;
    MulOne(state[0]);
    MulOne(state[1]);
    MulZero(state[0]);
    MulZero(state[1]);
    AddZero(state[0]);
    AddZero(state[1]);
    AddZero(Zero);
    var v0, v1 := Apply2(m0, state), Apply2(m1, state);
    assert v0 == [state[0], Zero];
    assert v1 == [Zero, state[1]];
    SquaredNormSingle(state[0]);
    SquaredNormSingle(state[1]);
  }

  /** A two-entry vector with a single nonzero entry a has squared norm |a|². */
  lemma SquaredNormSingle(a: Complex)
    ensures SquaredNorm([a, Zero]) == NormSq(a) && SquaredNorm([Zero, a]) == NormSq(a)
  {
    SquaredNorm2([a, Zero]);
    SquaredNorm2([Zero, a]);
  }

  /** The outcome measureState picks with the uniform draw injected: 0 when
    * draw < p0 / (p0 + p1), else 1. A zero total makes the quotient NaN,
    * which compares false, so the outcome is 1. */
  function ChooseOutcome(p0: real, p1: real, draw: real): (r: nat)
    requires p0 >= 0.0 && p1 >= 0.0
    ensures r <= 1
    ensures r == 0 <==> p0 + p1 > 0.0 && draw * (p0 + p1) < p0
  {
    var total := p0 + p1;
    QuotientBelow(draw, p0, total);
    if total == 0.0 then 1
    else if draw < p0 / total then 0 else 1
  }

  /** measureState's choice of outcome for a one-qubit state; the
    * post-measurement state needs a square root and is not modelled. */
  function MeasureOutcome(state: seq<Complex>, basis: int, draw: real): (r: Result<nat>)
    requires |state| == 2
    ensures r.Err? <==> basis !in {0, 1, 2}
    ensures r.Ok? ==> r.value <= 1
  {
    match MeasurementProbabilities(state, basis)
    case Err(e) => Err(e)
    case Ok(p) => Ok(ChooseOutcome(p.0, p.1, draw))
  }

  /** An outcome of probability zero is never drawn: with p1 = 0 < p0 every
    * draw in [0, 1) selects outcome 0, and with p0 = 0 < p1 outcome 1. */
  lemma ChooseOutcomeCertain(p: real, draw: real)
    requires p > 0.0 && 0.0 <= draw < 1.0
    ensures ChooseOutcome(p, 0.0, draw) == 0 && ChooseOutcome(0.0, p, draw) == 1
  {
    assert draw * (p + 0.0) < p;
  }

  lemma QuotientBelow(draw: real, p: real, total: real)
    ensures total > 0.0 ==> (draw < p / total <==> draw * total < p)
  {
    if total > 0.0 {
      assert (p / total) * total == p;
    }
  }

  // ---------------------------------------------------------------------
  // Partial transpose over the first qubit
  // ---------------------------------------------------------------------

  /** The cell the partial transpose over the first (most significant)
    * qubit reads for cell (x, y) of a matrix with blocks of size h: the
    * off-diagonal blocks exchange their block coordinates, everything else
    * stays. */
  function PartnerRow(x: nat, y: nat, h: nat): nat
  {
    if x < h <= y < 2 * h then x + h else if y < h <= x < 2 * h then x - h else x
  }

  function PartnerCol(x: nat, y: nat, h: nat): nat
  {
    if x < h <= y < 2 * h then y - h else if y < h <= x < 2 * h then y + h else y
  }

  /** ρ^{T_A}: entry (i + k·h, j + l·h) is ρ(i + l·h, j + k·h) for i, j < h
    * and k, l ∈ {0, 1}, which is what the loop of partialTranspose evidently
    * sets out to compute. */
  function PartialTransposeFirstOf(m: Matrix, h: nat): (t: Matrix)
    requires WellFormed(m) && m.rows == m.cols && 2 * h <= m.rows
    ensures WellFormed(t) && t.rows == m.rows && t.cols == m.cols
  {
    Build(m.rows, m.cols, (x, y) =>
      if 0 <= x < m.rows && 0 <= y < m.cols then m.cell[PartnerRow(x, y, h)][PartnerCol(x, y, h)] else Zero)
  }

  lemma PartialTransposeFirstEntry(m: Matrix, h: nat, i: nat, j: nat, k: nat, l: nat)
    requires WellFormed(m) && m.rows == m.cols && 2 * h <= m.rows
    requires i < h && j < h && k <= 1 && l <= 1
    ensures PartialTransposeFirstOf(m, h).cell[i + k * h][j + l * h] == m.cell[i + l * h][j + k * h]
  {
    assert k * h == (if k == 0 then 0 else h);
    assert l * h == (if l == 0 then 0 else h);
  }

  /** Transposing the first qubit twice gives the matrix back. */
  lemma PartialTransposeFirstTwice(m: Matrix, h: nat)
    requires WellFormed(m) && m.rows == m.cols && 2 * h <= m.rows
    ensures PartialTransposeFirstOf(PartialTransposeFirstOf(m, h), h) == m
  {
    var tt := PartialTransposeFirstOf(PartialTransposeFirstOf(m, h), h);
    forall x | 0 <= x < m.rows ensures tt.cell[x] == m.cell[x] {
    }
  }

  /** The diagonal blocks, and with them the trace, are unchanged. */
  lemma PartialTransposeFirstTrace(m: Matrix, h: nat, n: nat)
    requires WellFormed(m) && m.rows == m.cols && 2 * h <= m.rows && n <= m.rows
    ensures Trace(PartialTransposeFirstOf(m, h), n) == Trace(m, n)
  {
    if n > 0 {
      PartialTransposeFirstTrace(m, h, n - 1);
    }
  }

  /** partialTranspose AS WRITTEN: for every (i, j) the k, l loops swap the
    * pair (i, j + h), (i + h, j) once at (k, l) = (0, 1) and back again at
    * (1, 0), and swap a cell with itself at k = l, so the copy comes back
    * unchanged. A non-square matrix throws; the qubit argument is not used. */
  method PartialTransposeAsWritten(m: Matrix, qubit: int, totalQubits: int) returns (r: Result<Matrix>)
    requires WellFormed(m)
    requires m.rows == m.cols ==> 2 * HalfDimension(totalQubits) <= m.rows
    ensures r.Err? <==> m.rows != m.cols
    ensures r.Err? ==> r.error == InvalidArgument
    ensures r.Ok? ==> r.value == m
  {
    if m.rows != m.cols {
      return Err(InvalidArgument);
    }
    var dim := m.rows;
    var h := HalfDimension(totalQubits);
    var a := CopyOf(m);
    var i := 0;
    while i < h
      invariant 0 <= i <= h
      invariant forall x, y :: 0 <= x < dim && 0 <= y < dim ==> a[x, y] == m.cell[x][y]
    {
      var j := 0;
      while j < h
        invariant 0 <= j <= h
        invariant forall x, y :: 0 <= x < dim && 0 <= y < dim ==> a[x, y] == m.cell[x][y]
      {
        SwapBlockAsWritten(a, i, j, h);
        j := j + 1;
      }
      i := i + 1;
    }
    var cells := Cells(a);
    forall x | 0 <= x < dim ensures cells[x] == m.cell[x] {
    }
    r := Ok(Matrix(dim, dim, cells));
  }

  /** `MatrixXcd result = densityMatrix`. */
  method CopyOf(m: Matrix) returns (a: array2<Complex>)
    requires WellFormed(m) && m.rows == m.cols
    ensures fresh(a) && a.Length0 == m.rows && a.Length1 == m.cols
    ensures forall x, y :: 0 <= x < m.rows && 0 <= y < m.cols ==> a[x, y] == m.cell[x][y]
  {
    a := new Complex[m.rows, m.cols]((x, y) => if 0 <= x < m.rows && 0 <= y < m.cols then m.cell[x][y] else Zero);
  }

  /** Whether cell (x, y) is one of the pair the (i, j) iteration exchanges. */
  predicate InPair(x: nat, y: nat, i: nat, j: nat, h: nat)
  {
    (x == i && y == j + h) || (x == i + h && y == j)
  }

  /** The k and l loops for one (i, j), as written: the pair is exchanged
    * once for k = 0 and back again for k = 1. */
  method SwapBlockAsWritten(a: array2<Complex>, i: nat, j: nat, h: nat)
    requires i < h && j < h && 2 * h <= a.Length0 && 2 * h <= a.Length1
    modifies a
    ensures forall x, y :: 0 <= x < a.Length0 && 0 <= y < a.Length1 ==> a[x, y] == old(a[x, y])
  {
    var k := 0;
    while k < 2
      invariant 0 <= k <= 2
      invariant forall x, y :: 0 <= x < a.Length0 && 0 <= y < a.Length1 ==>
        a[x, y] == if k == 1 && InPair(x, y, i, j, h) then old(a[PartnerRow(x, y, h), PartnerCol(x, y, h)]) else old(a[x, y])
    {
      SwapBlockLine(a, i, j, h, k);
      k := k + 1;
    }
  }

  /** The l loop for one (i, j, k): the iteration l = k swaps a cell with
    * itself, the other exchanges the pair (i, j + h), (i + h, j). */
  method SwapBlockLine(a: array2<Complex>, i: nat, j: nat, h: nat, k: nat)
    requires i < h && j < h && k < 2 && 2 * h <= a.Length0 && 2 * h <= a.Length1
    modifies a
    ensures forall x, y :: 0 <= x < a.Length0 && 0 <= y < a.Length1 ==>
      a[x, y] == if InPair(x, y, i, j, h) then old(a[PartnerRow(x, y, h), PartnerCol(x, y, h)]) else old(a[x, y])
  {
    var l := 0;
    while l < 2
      invariant 0 <= l <= 2
      invariant forall x, y :: 0 <= x < a.Length0 && 0 <= y < a.Length1 ==>
        a[x, y] == if l + k >= 2 && InPair(x, y, i, j, h) then old(a[PartnerRow(x, y, h), PartnerCol(x, y, h)]) else old(a[x, y])
    {
      // kh and lh are k·h and l·h
      var kh := if k == 0 then 0 else h;
      var lh := if l == 0 then 0 else h;
      SwapEntries(a, i + kh, j + lh, i + lh, j + kh);
      l := l + 1;
    }
  }

  /** std::swap of entries (r1, c1) and (r2, c2), which may be the same. */
  method SwapEntries(a: array2<Complex>, r1: nat, c1: nat, r2: nat, c2: nat)
    requires r1 < a.Length0 && r2 < a.Length0 && c1 < a.Length1 && c2 < a.Length1
    modifies a
    ensures forall x, y :: 0 <= x < a.Length0 && 0 <= y < a.Length1 ==>
      a[x, y] == if x == r1 && y == c1 then old(a[r2, c2]) else if x == r2 && y == c2 then old(a[r1, c1]) else old(a[x, y])
  {
    var temp := a[r1, c1];
    a[r1, c1] := a[r2, c2];
    a[r2, c2] := temp;
  }

  /** Cell (x, y) has been exchanged by the iterations before (i, j). */
  predicate Exchanged(x: nat, y: nat, h: nat, i: nat, j: nat)
  {
    (x < h <= y < 2 * h && Before(x, y - h, i, j)) || (y < h <= x < 2 * h && Before(x - h, y, i, j))
  }

  ghost predicate FirstProgress(a: array2<Complex>, m: Matrix, h: nat, i: nat, j: nat)
    reads a
    requires WellFormed(m) && m.rows == a.Length0 && m.cols == a.Length1 && 2 * h <= m.rows && 2 * h <= m.cols
  {
    forall x, y :: 0 <= x < a.Length0 && 0 <= y < a.Length1 ==>
      a[x, y] == if Exchanged(x, y, h, i, j) then m.cell[PartnerRow(x, y, h)][PartnerCol(x, y, h)] else m.cell[x][y]
  }

  /** The corrected partialTranspose: each pair (i, j + h), (i + h, j) is
    * exchanged exactly once, giving ρ^{T_A}. */
  method PartialTransposeFirst(m: Matrix, qubit: int, totalQubits: int) returns (r: Result<Matrix>)
    requires WellFormed(m)
    requires m.rows == m.cols ==> 2 * HalfDimension(totalQubits) <= m.rows
    ensures r.Err? <==> m.rows != m.cols
    ensures r.Err? ==> r.error == InvalidArgument
    ensures r.Ok? ==> r.value == PartialTransposeFirstOf(m, HalfDimension(totalQubits))
  {
    if m.rows != m.cols {
      return Err(InvalidArgument);
    }
    var dim := m.rows;
    var h := HalfDimension(totalQubits);
    var a := CopyOf(m);
    var i := 0;
    while i < h
      invariant 0 <= i <= h
      invariant FirstProgress(a, m, h, i, 0)
    {
      ExchangeRow(a, m, h, i);
      i := i + 1;
    }
    var t := PartialTransposeFirstOf(m, h);
    forall x, y | 0 <= x < dim && 0 <= y < dim ensures a[x, y] == t.cell[x][y] {
      assert Exchanged(x, y, h, h, 0) || (PartnerRow(x, y, h) == x && PartnerCol(x, y, h) == y);
    }
    var cells := Cells(a);
    forall x | 0 <= x < dim ensures cells[x] == t.cell[x] {
    }
    r := Ok(Matrix(dim, dim, cells));
  }

  /** The j loop of the corrected transpose for one i. */
  method ExchangeRow(a: array2<Complex>, m: Matrix, h: nat, i: nat)
    requires WellFormed(m) && m.rows == a.Length0 && m.cols == a.Length1 && 2 * h <= m.rows && 2 * h <= m.cols
    requires i < h && FirstProgress(a, m, h, i, 0)
    modifies a
    ensures FirstProgress(a, m, h, i + 1, 0)
  {
    var j := 0;
    while j < h
      invariant 0 <= j <= h
      invariant FirstProgress(a, m, h, i, j)
    {
      var temp := a[i, j + h];
      a[i, j + h] := a[i + h, j];
      a[i + h, j] := temp;
      j := j + 1;
    }
  }

  /** The corrected and the as-written transposes differ: on the matrix
    * with a single 1 at (3, 0) and two qubits, ρ^{T_A} has its 1 at (1, 2),
    * while the routine as written returns the matrix unchanged. */
  lemma AsWrittenMissesTranspose()
    ensures var m := Build(4, 4, (x, y) => if x == 3 && y == 0 then One else Zero);
      PartialTransposeFirstOf(m, HalfDimension(2)).cell[1][2] == One && m.cell[1][2] == Zero
  {
    assert HalfDimension(2) == 2;
  }

  // ---------------------------------------------------------------------
  // Negativity, entanglement and coherence
  // ---------------------------------------------------------------------

  /** calculateNegativity AS WRITTEN: Σ |λ| over the negative eigenvalues
    * λ of partialTranspose(ρ, 0, 2), which as written returns ρ itself, so
    * the sum is over the eigenvalues of ρ. The eigensolver is a parameter;
    * a non-square matrix throws. */
  method CalculateNegativity(rho: Matrix, eigensolver: Matrix -> seq<real>) returns (r: Result<real>)
    requires WellFormed(rho) && (rho.rows == rho.cols ==> 4 <= rho.rows)
    ensures r.Err? <==> rho.rows != rho.cols
    ensures r.Ok? ==> r.value == Spectral.NegativePart(eigensolver(rho))
    ensures r.Ok? ==> r.value >= 0.0
  {
    assert HalfDimension(2) == 2;
    var t := PartialTransposeAsWritten(rho, 0, 2);
    match t
    case Err(e) =>
      return Err(e);
    case Ok(pt) =>
      var negativity := Spectral.CalculateNegativity(eigensolver(pt));
      return Ok(negativity);
  }

  /** calculateNegativity with the corrected partial transpose: Σ |λ| over
    * the negative eigenvalues of ρ^{T_A}. */
  method CalculateNegativityCorrected(rho: Matrix, eigensolver: Matrix -> seq<real>) returns (r: Result<real>)
    requires WellFormed(rho) && (rho.rows == rho.cols ==> 4 <= rho.rows)
    ensures r.Err? <==> rho.rows != rho.cols
    ensures r.Ok? ==> r.value == Spectral.NegativePart(eigensolver(PartialTransposeFirstOf(rho, 2)))
    ensures r.Ok? ==> r.value >= 0.0
  {
    assert HalfDimension(2) == 2;
    var t := PartialTransposeFirst(rho, 0, 2);
    match t
    case Err(e) =>
      return Err(e);
    case Ok(pt) =>
      var negativity := Spectral.CalculateNegativity(eigensolver(pt));
      return Ok(negativity);
  }

  /** The threshold below which isEntangled counts an eigenvalue as negative. */
  const Tolerance: real := 0.000000000001

  /** The early-return scan of isEntangled: true iff some value lies below
    * −10⁻¹². */
  method AnyBelowTolerance(ev: seq<real>) returns (b: bool)
    ensures b <==> exists k :: 0 <= k < |ev| && ev[k] < -Tolerance
  {
    var i := 0;
    while i < |ev|
      invariant 0 <= i <= |ev|
      invariant forall k :: 0 <= k < i ==> ev[k] >= -Tolerance
    {
      if ev[i] < -Tolerance {
        return true;
      }
      i := i + 1;
    }
    return false;
  }

  /** isEntangled AS WRITTEN: true iff some eigenvalue of
    * partialTranspose(ρ, 0, 2) lies below −10⁻¹²; as written that matrix is
    * ρ itself, so the test is on the eigenvalues of ρ. A non-square matrix
    * throws. */
  method IsEntangled(rho: Matrix, eigensolver: Matrix -> seq<real>) returns (r: Result<bool>)
    requires WellFormed(rho) && (rho.rows == rho.cols ==> 4 <= rho.rows)
    ensures r.Err? <==> rho.rows != rho.cols
    ensures r.Ok? ==> var ev := eigensolver(rho);
      (r.value <==> exists k :: 0 <= k < |ev| && ev[k] < -Tolerance)
  {
    assert HalfDimension(2) == 2;
    var t := PartialTransposeAsWritten(rho, 0, 2);
    if t.Err? {
      return Err(t.error);
    }
    var entangled := AnyBelowTolerance(eigensolver(t.value));
    return Ok(entangled);
  }

  /** isEntangled with the corrected partial transpose: the PPT test on
    * ρ^{T_A}. */
  method IsEntangledCorrected(rho: Matrix, eigensolver: Matrix -> seq<real>) returns (r: Result<bool>)
    requires WellFormed(rho) && (rho.rows == rho.cols ==> 4 <= rho.rows)
    ensures r.Err? <==> rho.rows != rho.cols
    ensures r.Ok? ==> var ev := eigensolver(PartialTransposeFirstOf(rho, 2));
      (r.value <==> exists k :: 0 <= k < |ev| && ev[k] < -Tolerance)
  {
    assert HalfDimension(2) == 2;
    var t := PartialTransposeFirst(rho, 0, 2);
    if t.Err? {
      return Err(t.error);
    }
    var entangled := AnyBelowTolerance(eigensolver(t.value));
    return Ok(entangled);
  }

  /** As written, both entanglement measures see only the spectrum of ρ: an
    * eigensolver that reports no negative eigenvalue for ρ (as for every
    * density matrix, which is positive semidefinite) makes the negativity 0
    * and isEntangled false, for a Bell state as for a product state. */
  lemma {:induction false} AsWrittenSeesNoEntanglement(ev: seq<real>)
    requires forall k :: 0 <= k < |ev| ==> ev[k] >= 0.0
    ensures Spectral.NegativePart(ev) == 0.0
    ensures !(exists k :: 0 <= k < |ev| && ev[k] < -Tolerance)
  {
    Spectral.NegativePartSign(ev);
  }

  /** An eigenvalue below the tolerance gives positive negativity, so a
    * state isEntangled reports as entangled has nonzero negativity. */
  lemma {:induction false} EntangledHasNegativity(ev: seq<real>, k: nat)
    requires k < |ev| && ev[k] < -Tolerance
    ensures Spectral.NegativePart(ev) > 0.0
  {
    var init := ev[..|ev| - 1];
    Spectral.NegativePartSign(init);
    if k < |ev| - 1 {
      assert init[k] == ev[k];
      EntangledHasNegativity(init, k);
    }
  }

  /** Σ_{i < j' < j} modulus(m(i, j')). */
  function RowCoherence(m: Matrix, modulus: Complex -> real, i: nat, j: nat): (c: real)
    requires WellFormed(m) && i < m.rows && j <= m.cols
    requires forall z :: modulus(z) >= 0.0
    ensures c >= 0.0
  {
    if j <= i + 1 then 0.0 else RowCoherence(m, modulus, i, j - 1) + modulus(m.cell[i][j - 1])
  }

  /** Σ over rows i' < i of the entries right of the diagonal, up to column
    * n. */
  function UpperCoherence(m: Matrix, modulus: Complex -> real, i: nat, n: nat): (c: real)
    requires WellFormed(m) && i <= m.rows && n <= m.cols
    requires forall z :: modulus(z) >= 0.0
    ensures c >= 0.0
  {
    if i == 0 then 0.0 else UpperCoherence(m, modulus, i - 1, n) + RowCoherence(m, modulus, i - 1, n)
  }

  /** calculateCoherence: the sum of |ρ(i, j)| over i < j < dim, dim the
    * row count. The modulus of a complex number needs a square root; it is
    * a parameter. */
  method CalculateCoherence(m: Matrix, modulus: Complex -> real) returns (coherence: real)
    requires WellFormed(m) && m.rows <= m.cols
    requires forall z :: modulus(z) >= 0.0
    ensures coherence == UpperCoherence(m, modulus, m.rows, m.rows)
    ensures coherence >= 0.0
  {
    coherence := 0.0;
    var dim := m.rows;
    var i := 0;
    while i < dim
      invariant 0 <= i <= dim
      invariant coherence == UpperCoherence(m, modulus, i, dim)
    {
      var j := i + 1;
      while j < dim
        invariant i + 1 <= j <= dim
        invariant coherence == UpperCoherence(m, modulus, i, dim) + RowCoherence(m, modulus, i, j)
      {
        coherence := coherence + modulus(m.cell[i][j]);
        j := j + 1;
      }
      i := i + 1;
    }
  }

  /** A matrix without off-diagonal entries above the diagonal has zero
    * coherence when the modulus of zero is zero. */
  lemma {:induction false} DiagonalCoherence(m: Matrix, modulus: Complex -> real, i: nat, n: nat)
    requires WellFormed(m) && i <= m.rows && n <= m.cols
    requires forall z :: modulus(z) >= 0.0
    requires modulus(Zero) == 0.0
    requires forall x, y :: 0 <= x < y < n && x < m.rows ==> m.cell[x][y] == Zero
    ensures UpperCoherence(m, modulus, i, n) == 0.0
  {
    if i > 0 {
      DiagonalCoherence(m, modulus, i - 1, n);
      RowCoherenceZero(m, modulus, i - 1, n);
    }
  }

  lemma {:induction false} RowCoherenceZero(m: Matrix, modulus: Complex -> real, i: nat, j: nat)
    requires WellFormed(m) && i < m.rows && j <= m.cols
    requires forall z :: modulus(z) >= 0.0
    requires modulus(Zero) == 0.0
    requires forall y :: i < y < j ==> m.cell[i][y] == Zero
    ensures RowCoherence(m, modulus, i, j) == 0.0
  {
    if j > i + 1 {
      RowCoherenceZero(m, modulus, i, j - 1);
    }
  }
}
