/** The density-matrix simulator of libomniq-core/src/common/DensityMatrix.cpp:
  * construction, the in-place X, Z and CNOT loops, the Z expectation and
  * the matrix setter. */
module DensityMatrices {
  import opened Wrappers
  import opened Bits
  import opened ComplexNumbers
  import opened Statevectors

  /** An N×N matrix, stored row by row. */
  predicate IsSquare(m: seq<seq<Complex>>, size: nat)
  {
    |m| == size && forall r :: 0 <= r < |m| ==> |m[r]| == size
  }

  /** The matrix of DensityMatrix(n): 1 at (0,0) when n > 0, 0 elsewhere. */
  function InitialMatrix(n: nat): (m: seq<seq<Complex>>)
    ensures IsSquare(m, Pow2(n))
  {
    seq(Pow2(n), r => seq(Pow2(n), c => if r == 0 && c == 0 && n > 0 then One else Zero))
  }

  /** std::swap of cells (a,b) and (c,d). */
  function SwapCells(m: seq<seq<Complex>>, size: nat, a: nat, b: nat, c: nat, d: nat): (r: seq<seq<Complex>>)
    requires IsSquare(m, size) && a < size && b < size && c < size && d < size
    ensures IsSquare(r, size)
    ensures r[a][b] == m[c][d] && r[c][d] == m[a][b]
    ensures forall x, y :: 0 <= x < size && 0 <= y < size && (x, y) != (a, b) && (x, y) != (c, d) ==>
      r[x][y] == m[x][y]
  {
    seq(size, x requires 0 <= x < size => seq(size, y requires 0 <= y < size =>
      if (x, y) == (a, b) then m[c][d] else if (x, y) == (c, d) then m[a][b] else m[x][y]))
  }

  /** Cell (a,b) comes before cell (i,j) in the row-major order of the
    * nested loops. */
  predicate Before(a: nat, b: nat, i: nat, j: nat)
  {
    a < i || (a == i && b < j)
  }

  /** The cells whose guard holds in the nested loops of apply_pauli_x
    * (bit q of row and column differ) and apply_cnot (the control bit is
    * set in both). */
  datatype Footprint = BitsDiffer(q: nat) | BothControlled(c: nat)

  predicate InFootprint(f: Footprint, a: nat, b: nat)
  {
    match f
    case BitsDiffer(q) => Differ(a, b, q)
    case BothControlled(c) => Bit(a, c) == 1 && Bit(b, c) == 1
  }

  /** The loop swaps a cell with the one whose row and column have bit p
    * flipped; the footprint must be closed under that pairing. */
  predicate Pairable(f: Footprint, p: nat)
  {
    f.BothControlled? ==> f.c != p
  }

  /** The cell (a,b) once the loops have reached (i,j): a footprint cell
    * whose pair has been visited from exactly one end holds its partner's
    * original value, every other cell its own. */
  ghost function SwapProgress(m0: seq<seq<Complex>>, n: nat, f: Footprint, p: nat, i: nat, j: nat): seq<seq<Complex>>
    requires IsSquare(m0, Pow2(n)) && p < n
  {
    seq(Pow2(n), a requires 0 <= a < Pow2(n) => seq(Pow2(n), b requires 0 <= b < Pow2(n) =>
      ProgressCell(m0, n, f, p, i, j, a, b)))
  }

  ghost function ProgressCell(m0: seq<seq<Complex>>, n: nat, f: Footprint, p: nat, i: nat, j: nat, a: nat, b: nat): Complex
    requires IsSquare(m0, Pow2(n)) && p < n && a < Pow2(n) && b < Pow2(n)
  {
    var a', b' := Partner(a, n, p), Partner(b, n, p);
    if InFootprint(f, a, b) && Before(a, b, i, j) != Before(a', b', i, j) then m0[a'][b'] else m0[a][b]
  }

  /** One cell across the visit of (i, j). */
  lemma ProgressCellStep(m0: seq<seq<Complex>>, n: nat, f: Footprint, p: nat, i: nat, j: nat, a: nat, b: nat)
    requires IsSquare(m0, Pow2(n)) && p < n && Pairable(f, p)
    requires i < Pow2(n) && j < Pow2(n) && a < Pow2(n) && b < Pow2(n)
    ensures var i', j' := Partner(i, n, p), Partner(j, n, p);
      ProgressCell(m0, n, f, p, i, j + 1, a, b) ==
        if !InFootprint(f, i, j) then ProgressCell(m0, n, f, p, i, j, a, b)
        else if (a, b) == (i, j) then ProgressCell(m0, n, f, p, i, j, i', j')
        else if (a, b) == (i', j') then ProgressCell(m0, n, f, p, i, j, i, j)
        else ProgressCell(m0, n, f, p, i, j, a, b)
  {
    var i', j' := Partner(i, n, p), Partner(j, n, p);
    if !InFootprint(f, i, j) || ((a, b) != (i, j) && (a, b) != (i', j')) {
      CellUntouched(m0, n, f, p, i, j, a, b);
    } else {
      CellSwapped(m0, n, f, p, i, j);
    }
  }

  /** A cell other than the visited one and its partner keeps its value. */
  lemma CellUntouched(m0: seq<seq<Complex>>, n: nat, f: Footprint, p: nat, i: nat, j: nat, a: nat, b: nat)
    requires IsSquare(m0, Pow2(n)) && p < n && Pairable(f, p)
    requires i < Pow2(n) && j < Pow2(n) && a < Pow2(n) && b < Pow2(n)
    requires !InFootprint(f, i, j) || ((a, b) != (i, j) && (a, b) != (FlipBit(i, p), FlipBit(j, p)))
    ensures ProgressCell(m0, n, f, p, i, j + 1, a, b) == ProgressCell(m0, n, f, p, i, j, a, b)
  {
    var a', b' := Partner(a, n, p), Partner(b, n, p);
    if (a', b') == (i, j) {
      FlipFlip(a, p);
      FlipFlip(b, p);
      FootprintClosed(f, p, a, b);
    }
  }

  /** The visited cell and its partner exchange their values. */
  lemma CellSwapped(m0: seq<seq<Complex>>, n: nat, f: Footprint, p: nat, i: nat, j: nat)
    requires IsSquare(m0, Pow2(n)) && p < n && Pairable(f, p)
    requires i < Pow2(n) && j < Pow2(n) && InFootprint(f, i, j)
    ensures var i', j' := Partner(i, n, p), Partner(j, n, p);
      ProgressCell(m0, n, f, p, i, j + 1, i, j) == ProgressCell(m0, n, f, p, i, j, i', j') &&
      ProgressCell(m0, n, f, p, i, j + 1, i', j') == ProgressCell(m0, n, f, p, i, j, i, j)
  {
    FlipFlip(i, p);
    FlipFlip(j, p);
    FootprintClosed(f, p, i, j);
    assert FlipBit(i, p) != i;
  }

  /** Flipping bit p of both indices keeps a cell in a pairable footprint. */
  lemma FootprintClosed(f: Footprint, p: nat, a: nat, b: nat)
    requires Pairable(f, p)
    ensures InFootprint(f, FlipBit(a, p), FlipBit(b, p)) == InFootprint(f, a, b)
  {
    match f
    case BitsDiffer(q) =>
      BitOfFlip(a, p, q);
      BitOfFlip(b, p, q);
    case BothControlled(c) =>
      BitOfFlip(a, p, c);
      BitOfFlip(b, p, c);
  }

  /** Visiting (i, j) swaps it with its partner exactly when it lies in the
    * footprint. */
  lemma SwapProgressStep(m0: seq<seq<Complex>>, n: nat, f: Footprint, p: nat, i: nat, j: nat)
    requires IsSquare(m0, Pow2(n)) && p < n && Pairable(f, p) && i < Pow2(n) && j < Pow2(n)
    ensures FlipBit(i, p) < Pow2(n) && FlipBit(j, p) < Pow2(n)
    ensures var before := SwapProgress(m0, n, f, p, i, j);
      SwapProgress(m0, n, f, p, i, j + 1) ==
        if InFootprint(f, i, j) then SwapCells(before, Pow2(n), i, j, FlipBit(i, p), FlipBit(j, p)) else before
  {
    var size := Pow2(n);
    var i', j' := Partner(i, n, p), Partner(j, n, p);
    var before := SwapProgress(m0, n, f, p, i, j);
    var after := SwapProgress(m0, n, f, p, i, j + 1);
    var expected := if InFootprint(f, i, j) then SwapCells(before, size, i, j, i', j') else before;
    forall a | 0 <= a < size ensures after[a] == expected[a] {
      forall b | 0 <= b < size ensures after[a][b] == expected[a][b] {
        ProgressCellStep(m0, n, f, p, i, j, a, b);
      }
    }
  }

  /** The end of a row is the start of the next one. */
  lemma SwapProgressRow(m0: seq<seq<Complex>>, n: nat, f: Footprint, p: nat, i: nat)
    requires IsSquare(m0, Pow2(n)) && p < n
    ensures SwapProgress(m0, n, f, p, i, Pow2(n)) == SwapProgress(m0, n, f, p, i + 1, 0)
  {
    var size := Pow2(n);
    var x, y := SwapProgress(m0, n, f, p, i, size), SwapProgress(m0, n, f, p, i + 1, 0);
    forall a | 0 <= a < size ensures x[a] == y[a] {
    }
  }

  /** Before the loops nothing has moved, and after them every pair has
    * been swapped twice. */
  lemma SwapProgressEnds(m0: seq<seq<Complex>>, n: nat, f: Footprint, p: nat)
    requires IsSquare(m0, Pow2(n)) && p < n
    ensures SwapProgress(m0, n, f, p, 0, 0) == m0
    ensures SwapProgress(m0, n, f, p, Pow2(n), 0) == m0
  {
    var size := Pow2(n);
    var x, y := SwapProgress(m0, n, f, p, 0, 0), SwapProgress(m0, n, f, p, size, 0);
    forall a | 0 <= a < size ensures x[a] == m0[a] && y[a] == m0[a] {
    }
  }

  /** The Z negation once the loops have reached (i, j). */
  ghost function NegateProgress(m0: seq<seq<Complex>>, size: nat, q: nat, i: nat, j: nat): seq<seq<Complex>>
    requires IsSquare(m0, size)
  {
    seq(size, a requires 0 <= a < size => seq(size, b requires 0 <= b < size =>
      if Before(a, b, i, j) && Differ(a, b, q) then Neg(m0[a][b]) else m0[a][b]))
  }

  /** Row a and column b differ in bit q. */
  predicate Differ(a: nat, b: nat, q: nat)
  {
    Bit(a, q) != Bit(b, q)
  }

  /** Z ρ Z: the entries whose row and column differ in bit q change sign. */
  function PauliZConj(m: seq<seq<Complex>>, size: nat, q: nat): (r: seq<seq<Complex>>)
    requires IsSquare(m, size)
    ensures IsSquare(r, size)
  {
    seq(size, a requires 0 <= a < size => seq(size, b requires 0 <= b < size =>
      if Differ(a, b, q) then Neg(m[a][b]) else m[a][b]))
  }

  lemma NegateProgressEnds(m0: seq<seq<Complex>>, size: nat, q: nat)
    requires IsSquare(m0, size)
    ensures NegateProgress(m0, size, q, 0, 0) == m0
    ensures NegateProgress(m0, size, q, size, 0) == PauliZConj(m0, size, q)
  {
    var x, y := NegateProgress(m0, size, q, 0, 0), NegateProgress(m0, size, q, size, 0);
    forall a | 0 <= a < size ensures x[a] == m0[a] && y[a] == PauliZConj(m0, size, q)[a] {
    }
  }

  lemma NegateProgressStep(m0: seq<seq<Complex>>, size: nat, q: nat, i: nat, j: nat)
    requires IsSquare(m0, size) && i < size && j < size
    ensures var before := NegateProgress(m0, size, q, i, j);
      NegateProgress(m0, size, q, i, j + 1) ==
        if Differ(i, j, q) then before[i := before[i][j := Neg(before[i][j])]] else before
  {
    var before := NegateProgress(m0, size, q, i, j);
    var after := NegateProgress(m0, size, q, i, j + 1);
    var expected := if Differ(i, j, q) then before[i := before[i][j := Neg(before[i][j])]] else before;
    forall a | 0 <= a < size ensures after[a] == expected[a] {
    }
  }

  lemma NegateProgressRow(m0: seq<seq<Complex>>, size: nat, q: nat, i: nat)
    requires IsSquare(m0, size)
    ensures NegateProgress(m0, size, q, i, size) == NegateProgress(m0, size, q, i + 1, 0)
  {
    var x, y := NegateProgress(m0, size, q, i, size), NegateProgress(m0, size, q, i + 1, 0);
    forall a | 0 <= a < size ensures x[a] == y[a] {
    }
  }

  /** Z ρ Z is an involution that keeps the diagonal. */
  lemma PauliZConjTwice(m: seq<seq<Complex>>, size: nat, q: nat)
    requires IsSquare(m, size)
    ensures PauliZConj(PauliZConj(m, size, q), size, q) == m
    ensures forall a :: 0 <= a < size ==> PauliZConj(m, size, q)[a][a] == m[a][a]
  {
    var twice := PauliZConj(PauliZConj(m, size, q), size, q);
    forall a | 0 <= a < size ensures twice[a] == m[a] {
      forall b | 0 <= b < size ensures twice[a][b] == m[a][b] {
        NegNeg(m[a][b]);
      }
    }
  }

  /** X ρ X: entry (a,b) is the original entry at (a ^ 2^q, b ^ 2^q). */
  function PauliXConj(m: seq<seq<Complex>>, n: nat, q: nat): (r: seq<seq<Complex>>)
    requires IsSquare(m, Pow2(n)) && q < n
    ensures IsSquare(r, Pow2(n))
  {
    seq(Pow2(n), a requires 0 <= a < Pow2(n) => seq(Pow2(n), b requires 0 <= b < Pow2(n) =>
      m[Partner(a, n, q)][Partner(b, n, q)]))
  }

  /** X ρ X is an involution, and it sends |0…0⟩⟨0…0| to the projector on
    * the basis state with bit q set. */
  lemma PauliXConjTwice(m: seq<seq<Complex>>, n: nat, q: nat)
    requires IsSquare(m, Pow2(n)) && q < n
    ensures PauliXConj(PauliXConj(m, n, q), n, q) == m
  {
    var twice := PauliXConj(PauliXConj(m, n, q), n, q);
    forall a | 0 <= a < Pow2(n) ensures twice[a] == m[a] {
      FlipFlip(a, q);
      forall b | 0 <= b < Pow2(n) ensures twice[a][b] == m[a][b] {
        FlipFlip(b, q);
      }
    }
  }

  lemma PauliXConjInitial(n: nat, q: nat)
    requires q < n
    ensures Pow2(q) < Pow2(n)
    ensures PauliXConj(InitialMatrix(n), n, q)[Pow2(q)][Pow2(q)] == One
    ensures InitialMatrix(n)[Pow2(q)][Pow2(q)] == Zero
  {
    PowMonotone(q + 1, n);
    BitOfPow2(q, q);
    assert FlipBit(Pow2(q), q) == 0;
  }

  /** CNOT ρ CNOT: rows and columns are both permuted by the CNOT map. */
  function CnotIndex(k: nat, c: nat, t: nat): nat
  {
    if Bit(k, c) == 1 then FlipBit(k, t) else k
  }

  function CnotConj(m: seq<seq<Complex>>, n: nat, c: nat, t: nat): (r: seq<seq<Complex>>)
    requires IsSquare(m, Pow2(n)) && c < n && t < n
    ensures IsSquare(r, Pow2(n))
  {
    seq(Pow2(n), a requires 0 <= a < Pow2(n) => seq(Pow2(n), b requires 0 <= b < Pow2(n) =>
      m[CnotPartner(a, n, c, t)][CnotPartner(b, n, c, t)]))
  }

  function CnotPartner(k: nat, n: nat, c: nat, t: nat): (r: nat)
    requires k < Pow2(n) && c < n && t < n
    ensures r < Pow2(n) && r == CnotIndex(k, c, t)
  {
    if Bit(k, c) == 1 then Partner(k, n, t) else k
  }

  lemma CnotConjTwice(m: seq<seq<Complex>>, n: nat, c: nat, t: nat)
    requires IsSquare(m, Pow2(n)) && c < n && t < n && c != t
    ensures CnotConj(CnotConj(m, n, c, t), n, c, t) == m
  {
    var twice := CnotConj(CnotConj(m, n, c, t), n, c, t);
    forall a | 0 <= a < Pow2(n) ensures twice[a] == m[a] {
      CnotPartnerTwice(a, n, c, t);
      forall b | 0 <= b < Pow2(n) ensures twice[a][b] == m[a][b] {
        CnotPartnerTwice(b, n, c, t);
      }
    }
  }

  lemma CnotPartnerTwice(k: nat, n: nat, c: nat, t: nat)
    requires k < Pow2(n) && c < n && t < n && c != t
    ensures CnotPartner(CnotPartner(k, n, c, t), n, c, t) == k
  {
    FlipFlip(k, t);
    BitOfFlip(k, t, c);
  }

  /** The two loops as written leave the matrix unchanged, while the gates
    * they stand for move the population of |0…0⟩⟨0…0|: on one qubit, X
    * maps it to |1⟩⟨1|, and on two qubits CNOT(0, 1) maps |01⟩⟨01| (index
    * 1, control bit set) to |11⟩⟨11|. */
  lemma DoubleSwapMissesGate()
    ensures PauliXConj(InitialMatrix(1), 1, 0) != InitialMatrix(1)
    ensures exists m :: IsSquare(m, 4) && CnotConj(m, 2, 0, 1) != m
  {
    PauliXConjInitial(1, 0);
    var m := seq(4, r => seq(4, k => if r == 1 && k == 1 then One else Zero));
    assert Pow2(2) == 4;
    var conj := CnotConj(m, 2, 0, 1);
    assert CnotPartner(3, 2, 0, 1) == 1 by {
      assert Bit(3, 0) == 1 && Bit(3, 1) == 1;
    }
    assert conj[3][3] == m[1][1];
  }

  /** The Z expectation from the diagonal: Σ Re ρ(i,i) · (±1). */
  function DiagonalExpectation(m: seq<seq<Complex>>, q: nat, k: nat): real
    requires k <= |m| && forall r :: 0 <= r < |m| ==> |m[r]| == |m|
  {
    if k == 0 then 0.0
    else DiagonalExpectation(m, q, k - 1) + m[k - 1][k - 1].re * Eigenvalue(k - 1, q)
  }

  /** Z ρ Z keeps the Z expectation of every qubit. */
  lemma {:induction false} ExpectationUnderZ(m: seq<seq<Complex>>, size: nat, q: nat, p: nat, k: nat)
    requires IsSquare(m, size) && k <= size
    ensures DiagonalExpectation(PauliZConj(m, size, p), q, k) == DiagonalExpectation(m, q, k)
  {
    if k > 0 {
      ExpectationUnderZ(m, size, q, p, k - 1);
      assert PauliZConj(m, size, p)[k - 1][k - 1] == m[k - 1][k - 1];
    }
  }

  /** The initial matrix of n > 0 qubits has Z expectation 1 on every qubit. */
  lemma {:induction false} InitialDiagonal(n: nat, q: nat, k: nat)
    requires 0 < n && 1 <= k <= Pow2(n)
    ensures DiagonalExpectation(InitialMatrix(n), q, k) == 1.0
  {
    if k == 1 {
      HighBitClear(0, q);
    } else {
      InitialDiagonal(n, q, k - 1);
    }
  }

  /** The row check of the matrix constructor: every row as long as the
    * matrix. set_matrix looks at row 0 only. */
  predicate SetMatrixAccepts(m: seq<seq<Complex>>, n: nat)
  {
    |m| == Pow2(n) && (|m| > 0 ==> |m[0]| == |m|)
  }

  /** set_matrix as written accepts a ragged matrix, which the matrix
    * constructor rejects and which the gate loops then index past its end. */
  lemma SetMatrixAcceptsRagged()
    ensures var m := [[One, Zero], [One]];
      SetMatrixAccepts(m, 1) && !IsSquare(m, 2)
  {
    assert Pow2(1) == 2;
    var m := [[One, Zero], [One]];
    assert |m[1]| == 1;
  }

  class DensityMatrix {
    const numQubits: nat
    var matrix: seq<seq<Complex>>

    ghost predicate Valid()
      reads this
    {
      IsSquare(matrix, Pow2(numQubits))
    }

    /** DensityMatrix(n) for n >= 0; NewDensityMatrix models the check. */
    constructor (n: nat)
      ensures Valid() && numQubits == n && matrix == InitialMatrix(n)
    {
      numQubits := n;
      matrix := InitialMatrix(n);
    }

    /** The matrix constructor once the checks have passed (normalisation is
      * not modelled). */
    constructor FromSquare(m: seq<seq<Complex>>)
      requires IsPow2(|m|) && IsSquare(m, |m|)
      ensures Valid() && Pow2(numQubits) == |m| && matrix == m
    {
      Log2Pow2(|m|);
      numQubits := Log2(|m|);
      matrix := m;
    }

    /** apply_pauli_x as written: invalid_argument for a bad qubit; the
      * nested loops swap each footprint pair twice and so restore it. */
    method ApplyPauliX(q: int) returns (s: Status)
      requires Valid()
      modifies this
      ensures Valid()
      ensures s == Done <==> 0 <= q < numQubits
      ensures s != Done ==> s == Failed(InvalidArgument)
      ensures matrix == old(matrix)
    {
      if q < 0 || q >= numQubits {
        return Failed(InvalidArgument);
      }
      DoubleSwap(BitsDiffer(q), q);
      return Done;
    }

    /** apply_cnot as written: invalid_argument for a bad qubit or
      * control == target; the loops swap each both-controlled pair twice. */
    method ApplyCnot(control: int, target: int) returns (s: Status)
      requires Valid()
      modifies this
      ensures Valid()
      ensures s == Done <==> 0 <= control < numQubits && 0 <= target < numQubits && control != target
      ensures s != Done ==> s == Failed(InvalidArgument)
      ensures matrix == old(matrix)
    {
      if control < 0 || control >= numQubits || target < 0 || target >= numQubits {
        return Failed(InvalidArgument);
      }
      if control == target {
        return Failed(InvalidArgument);
      }
      DoubleSwap(BothControlled(control), target);
      return Done;
    }

    /** The shared nested loop: every footprint cell is swapped with its
      * bit-p partner as it is reached. */
    method DoubleSwap(f: Footprint, p: nat)
      requires Valid() && p < numQubits && Pairable(f, p)
      modifies this
      ensures Valid() && matrix == old(matrix)
    {
      ghost var m0 := matrix;
      var size := |matrix|;
      SwapProgressEnds(m0, numQubits, f, p);
      var i := 0;
      while i < size
        invariant 0 <= i <= size
        invariant matrix == SwapProgress(m0, numQubits, f, p, i, 0)
      {
        SwapRow(m0, f, p, i);
        SwapProgressRow(m0, numQubits, f, p, i);
        i := i + 1;
      }
    }

    method SwapRow(ghost m0: seq<seq<Complex>>, f: Footprint, p: nat, i: nat)
      requires IsSquare(m0, Pow2(numQubits)) && p < numQubits && Pairable(f, p) && i < Pow2(numQubits)
      requires matrix == SwapProgress(m0, numQubits, f, p, i, 0)
      modifies this
      ensures matrix == SwapProgress(m0, numQubits, f, p, i, Pow2(numQubits))
    {
      var size := Pow2(numQubits);
      var j := 0;
      while j < size
        invariant 0 <= j <= size
        invariant matrix == SwapProgress(m0, numQubits, f, p, i, j)
      {
        SwapProgressStep(m0, numQubits, f, p, i, j);
        if InFootprint(f, i, j) {
          var i', j' := FlipBit(i, p), FlipBit(j, p);
          matrix := SwapCells(matrix, size, i, j, i', j');
        }
        j := j + 1;
      }
    }

    /** apply_pauli_z: invalid_argument for a bad qubit; otherwise Z ρ Z. */
    method ApplyPauliZ(q: int) returns (s: Status)
      requires Valid()
      modifies this
      ensures Valid()
      ensures s == Done <==> 0 <= q < numQubits
      ensures s != Done ==> s == Failed(InvalidArgument) && matrix == old(matrix)
      ensures s == Done ==> matrix == PauliZConj(old(matrix), Pow2(numQubits), q)
    {
      if q < 0 || q >= numQubits {
        return Failed(InvalidArgument);
      }
      NegateDiffering(q);
      return Done;
    }

    /** The nested loop of apply_pauli_z. */
    method NegateDiffering(q: nat)
      requires Valid()
      modifies this
      ensures Valid() && matrix == PauliZConj(old(matrix), Pow2(numQubits), q)
    {
      ghost var m0 := matrix;
      var size := Pow2(numQubits);
      NegateProgressEnds(m0, size, q);
      var i := 0;
      while i < size
        invariant 0 <= i <= size
        invariant matrix == NegateProgress(m0, size, q, i, 0)
      {
        NegateRow(m0, q, i);
        NegateProgressRow(m0, size, q, i);
        i := i + 1;
      }
    }

    method NegateRow(ghost m0: seq<seq<Complex>>, q: nat, i: nat)
      requires IsSquare(m0, Pow2(numQubits)) && i < Pow2(numQubits)
      requires matrix == NegateProgress(m0, Pow2(numQubits), q, i, 0)
      modifies this
      ensures matrix == NegateProgress(m0, Pow2(numQubits), q, i, Pow2(numQubits))
    {
      var size := Pow2(numQubits);
      var j := 0;
      while j < size
        invariant 0 <= j <= size
        invariant matrix == NegateProgress(m0, size, q, i, j)
      {
        NegateProgressStep(m0, size, q, i, j);
        if Differ(i, j, q) {
          matrix := matrix[i := matrix[i][j := Neg(matrix[i][j])]];
        }
        j := j + 1;
      }
    }

    /** measure_expectation: invalid_argument for a bad qubit or an
      * observable other than "Z" and "z". */
    method MeasureExpectation(q: int, observable: string) returns (r: Result<real>)
      requires Valid()
      ensures r.Ok? <==> 0 <= q < numQubits && observable in {"Z", "z"}
      ensures r.Err? ==> r.error == InvalidArgument
      ensures r.Ok? ==> r.value == DiagonalExpectation(matrix, q, |matrix|)
    {
      if q < 0 || q >= numQubits {
        return Err(InvalidArgument);
      }
      if observable != "Z" && observable != "z" {
        return Err(InvalidArgument);
      }
      var expectation := 0.0;
      var i := 0;
      while i < |matrix|
        invariant 0 <= i <= |matrix|
        invariant expectation == DiagonalExpectation(matrix, q, i)
      {
        expectation := expectation + matrix[i][i].re * Eigenvalue(i, q);
        i := i + 1;
      }
      return Ok(expectation);
    }

    /** set_matrix with the row check of the matrix constructor (see
      * SetMatrixAccepts for the check as written); normalisation is not
      * modelled. */
    method SetMatrix(m: seq<seq<Complex>>) returns (s: Status)
      requires Valid()
      modifies this
      ensures Valid()
      ensures s == Done <==> IsSquare(m, Pow2(numQubits))
      ensures s != Done ==> s == Failed(InvalidArgument) && matrix == old(matrix)
      ensures s == Done ==> matrix == m
    {
      var size := Pow2(numQubits);
      if |m| != size {
        return Failed(InvalidArgument);
      }
      var r := 0;
      while r < |m|
        invariant 0 <= r <= |m|
        invariant forall k :: 0 <= k < r ==> |m[k]| == size
      {
        if |m[r]| != size {
          return Failed(InvalidArgument);
        }
        r := r + 1;
      }
      matrix := m;
      return Done;
    }
  }

  /** DensityMatrix(n): invalid_argument for n < 0. */
  method NewDensityMatrix(n: int) returns (r: Result<DensityMatrix>)
    ensures r.Err? <==> n < 0
    ensures r.Err? ==> r.error == InvalidArgument
    ensures r.Ok? ==> fresh(r.value) && r.value.Valid() && r.value.numQubits == n
    ensures r.Ok? ==> r.value.matrix == InitialMatrix(n)
  {
    if n < 0 {
      return Err(InvalidArgument);
    }
    var d := new DensityMatrix(n);
    return Ok(d);
  }

  /** DensityMatrix(matrix): invalid_argument for size 0, a size that is not
    * a power of two, or a row of the wrong length. */
  method NewDensityMatrixFrom(m: seq<seq<Complex>>) returns (r: Result<DensityMatrix>)
    ensures r.Err? <==> !IsPow2(|m|) || !IsSquare(m, |m|)
    ensures r.Err? ==> r.error == InvalidArgument
    ensures r.Ok? ==> fresh(r.value) && r.value.Valid() && r.value.matrix == m
  {
    if |m| == 0 || !IsPow2(|m|) {
      return Err(InvalidArgument);
    }
    var k := 0;
    while k < |m|
      invariant 0 <= k <= |m|
      invariant forall x :: 0 <= x < k ==> |m[x]| == |m|
    {
      if |m[k]| != |m| {
        return Err(InvalidArgument);
      }
      k := k + 1;
    }
    var d := new DensityMatrix.FromSquare(m);
    return Ok(d);
  }
}
