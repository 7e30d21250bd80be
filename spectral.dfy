/** The exact part of libomniq-core/src/common/Spectral.cpp: the partial
  * transpose over subsystem B and the negativity sum. The eigensolver is
  * not modelled; the negativity takes the eigenvalues as its input. */
module Spectral {
  import opened ComplexNumbers
  import opened Operators

  /** Index (x, y) of the partial transpose reads index
    * (⌊x/dB⌋·dB + y mod dB, ⌊y/dB⌋·dB + x mod dB) of rho: the B digits of
    * row and column are exchanged, the A digits stay. */
  function SwapLow(x: nat, y: nat, dB: nat): nat
    requires dB > 0
  {
    (x / dB) * dB + y % dB
  }

  lemma MulMonotone(a: nat, b: nat, d: nat)
    ensures a <= b ==> a * d <= b * d
  {
    if a < b {
      assert b * d == a * d + (b - a) * d;
      MulAtLeast(b - a, d);
    }
  }

  /** x < n·d puts x in one of the first n blocks of size d. */
  lemma DivBound(x: nat, n: nat, d: nat)
    requires d > 0 && x < n * d
    ensures x / d < n
  {
    DivUnique(x, d, x / d, x % d);
    MulMonotone(n, x / d, d);
  }

  lemma SwapLowBound(x: nat, y: nat, dA: nat, dB: nat)
    requires dB > 0 && x < dA * dB
    ensures SwapLow(x, y, dB) < dA * dB
  {
    DivBound(x, dA, dB);
    BlockBound(x / dB, y % dB, dA, dB);
  }

  /** The partial transpose on subsystem B of a (dA·dB)-square matrix. */
  function PartialTransposeOf(rho: Matrix, dA: nat, dB: nat): (t: Matrix)
    requires WellFormed(rho) && rho.rows == dA * dB && rho.cols == dA * dB
    ensures WellFormed(t) && t.rows == dA * dB && t.cols == dA * dB
  {
    if dB == 0 then Matrix(dA * dB, dA * dB, [])
    else
      Matrix(dA * dB, dA * dB, seq(dA * dB, x requires 0 <= x < dA * dB =>
        seq(dA * dB, y requires 0 <= y < dA * dB =>
          SwapLowBound(x, y, dA, dB);
          SwapLowBound(y, x, dA, dB);
          rho.cell[SwapLow(x, y, dB)][SwapLow(y, x, dB)])))
  }

  /** Entry (i1·dB + j2, j1·dB + i2) of the partial transpose is entry
    * (i1·dB + i2, j1·dB + j2) of rho. */
  lemma PartialTransposeEntry(rho: Matrix, dA: nat, dB: nat, i1: nat, j1: nat, i2: nat, j2: nat)
    requires WellFormed(rho) && rho.rows == dA * dB && rho.cols == dA * dB
    requires i1 < dA && j1 < dA && i2 < dB && j2 < dB
    ensures i1 * dB + j2 < dA * dB && j1 * dB + i2 < dA * dB
    ensures i1 * dB + i2 < dA * dB && j1 * dB + j2 < dA * dB
    ensures PartialTransposeOf(rho, dA, dB).cell[i1 * dB + j2][j1 * dB + i2] == rho.cell[i1 * dB + i2][j1 * dB + j2]
  {
    BlockBound(i1, j2, dA, dB);
    BlockBound(j1, i2, dA, dB);
    BlockBound(i1, i2, dA, dB);
    BlockBound(j1, j2, dA, dB);
    DivUnique(i1 * dB + j2, dB, i1, j2);
    DivUnique(j1 * dB + i2, dB, j1, i2);
  }

  /** Exchanging the B digits twice gives the index back. */
  lemma SwapLowTwice(x: nat, y: nat, dB: nat)
    requires dB > 0
    ensures SwapLow(SwapLow(x, y, dB), SwapLow(y, x, dB), dB) == x
  {
    DivUnique(SwapLow(x, y, dB), dB, x / dB, y % dB);
    DivUnique(SwapLow(y, x, dB), dB, y / dB, x % dB);
  }

  /** The partial transpose is an involution. */
  lemma PartialTransposeTwice(rho: Matrix, dA: nat, dB: nat)
    requires WellFormed(rho) && rho.rows == dA * dB && rho.cols == dA * dB
    ensures PartialTransposeOf(PartialTransposeOf(rho, dA, dB), dA, dB) == rho
  {
    var t := PartialTransposeOf(rho, dA, dB);
    var tt := PartialTransposeOf(t, dA, dB);
    if dB > 0 {
      forall x, y | 0 <= x < dA * dB && 0 <= y < dA * dB
        ensures tt.cell[x][y] == rho.cell[x][y]
      {
        SwapLowBound(x, y, dA, dB);
        SwapLowBound(y, x, dA, dB);
        SwapLowTwice(x, y, dB);
        SwapLowTwice(y, x, dB);
      }
      forall x | 0 <= x < dA * dB ensures tt.cell[x] == rho.cell[x] {
      }
    }
  }

  /** The diagonal, and hence the trace, is unchanged. */
  lemma PartialTransposeDiagonal(rho: Matrix, dA: nat, dB: nat, x: nat)
    requires WellFormed(rho) && rho.rows == dA * dB && rho.cols == dA * dB && x < dA * dB
    ensures PartialTransposeOf(rho, dA, dB).cell[x][x] == rho.cell[x][x]
  {
  }

  lemma PartialTransposeTrace(rho: Matrix, dA: nat, dB: nat, k: nat)
    requires WellFormed(rho) && rho.rows == dA * dB && rho.cols == dA * dB && k <= dA * dB
    ensures Trace(PartialTransposeOf(rho, dA, dB), k) == Trace(rho, k)
  {
    if k > 0 {
      PartialTransposeTrace(rho, dA, dB, k - 1);
      PartialTransposeDiagonal(rho, dA, dB, k - 1);
    }
  }

  /** With a one-dimensional B there is nothing to exchange. */
  lemma PartialTransposeTrivialB(rho: Matrix, dA: nat)
    requires WellFormed(rho) && rho.rows == dA && rho.cols == dA
    ensures dA * 1 == dA && PartialTransposeOf(rho, dA, 1) == rho
  {
    var t := PartialTransposeOf(rho, dA, 1);
    forall x | 0 <= x < dA ensures t.cell[x] == rho.cell[x] {
    }
  }

  /** Cell (x, y) of rho_T is written by iteration (i1, j1, i2, j2) =
    * (⌊x/dB⌋, ⌊y/dB⌋, y mod dB, x mod dB); it has been written once the
    * loops have passed that iteration. */
  ghost predicate Written(x: int, y: int, dB: nat, i1: nat, j1: nat, i2: nat, j2: nat)
  {
    dB > 0 &&
    var a, b, c, d := x / dB, y / dB, y % dB, x % dB;
    a < i1 || (a == i1 && (b < j1 || (b == j1 && (c < i2 || (c == i2 && d < j2)))))
  }

  /** Every written cell of r holds its final value. */
  ghost predicate WrittenCorrect(r: array2<Complex>, t: Matrix, dB: nat, i1: nat, j1: nat, i2: nat, j2: nat)
    reads r
    requires WellFormed(t) && t.rows == r.Length0 && t.cols == r.Length1
  {
    forall x, y :: 0 <= x < r.Length0 && 0 <= y < r.Length1 && Written(x, y, dB, i1, j1, i2, j2) ==> r[x, y] == t.cell[x][y]
  }

  /** Iteration (i1, j1, i2, j2) writes exactly cell (i1·dB + j2, j1·dB + i2). */
  lemma WrittenStep(dB: nat, i1: nat, j1: nat, i2: nat, j2: nat)
    requires i2 < dB && j2 < dB
    ensures forall x, y :: 0 <= x && 0 <= y ==>
      (Written(x, y, dB, i1, j1, i2, j2 + 1) <==>
       Written(x, y, dB, i1, j1, i2, j2) || (x == i1 * dB + j2 && y == j1 * dB + i2))
  {
    DivUnique(i1 * dB + j2, dB, i1, j2);
    DivUnique(j1 * dB + i2, dB, j1, i2);
    forall x, y | 0 <= x && 0 <= y
      ensures Written(x, y, dB, i1, j1, i2, j2 + 1) ==>
        Written(x, y, dB, i1, j1, i2, j2) || (x == i1 * dB + j2 && y == j1 * dB + i2)
    {
      DivMod(x, dB);
      DivMod(y, dB);
    }
  }

  lemma DivMod(x: nat, d: nat)
    requires d > 0
    ensures x == (x / d) * d + x % d
  {
  }

  /** Before the first iteration no cell has been written. */
  lemma NoneWritten(dB: nat)
    ensures forall x, y :: 0 <= x && 0 <= y ==> !Written(x, y, dB, 0, 0, 0, 0)
  {
    forall x, y | 0 <= x && 0 <= y
      ensures !Written(x, y, dB, 0, 0, 0, 0)
    {
      if dB > 0 {
        DivUnique(x, dB, x / dB, x % dB);
      }
    }
  }

  /** The end of one loop is the start of the next iteration of the loop
    * around it. */
  lemma WrittenCarry(dA: nat, dB: nat, i1: nat, j1: nat, i2: nat)
    ensures forall x, y :: Written(x, y, dB, i1, j1, i2, dB) <==> Written(x, y, dB, i1, j1, i2 + 1, 0)
    ensures forall x, y :: Written(x, y, dB, i1, j1, dB, 0) <==> Written(x, y, dB, i1, j1 + 1, 0, 0)
    ensures forall x, y :: 0 <= y < dA * dB ==> (Written(x, y, dB, i1, dA, 0, 0) <==> Written(x, y, dB, i1 + 1, 0, 0, 0))
  {
    forall x, y | 0 <= y < dA * dB
      ensures Written(x, y, dB, i1, dA, 0, 0) <==> Written(x, y, dB, i1 + 1, 0, 0, 0)
    {
      if dB > 0 {
        DivBound(y, dA, dB);
      }
    }
  }

  /** partialTranspose: rho_T(i1·dB + j2, j1·dB + i2) = rho(i1·dB + i2,
    * j1·dB + j2) for every i1, j1 < dA and i2, j2 < dB, written cell by
    * cell into a fresh matrix; the result is PartialTransposeOf(rho). */
  method PartialTranspose(rho: Matrix, dA: nat, dB: nat) returns (t: Matrix)
    requires WellFormed(rho) && rho.rows == dA * dB && rho.cols == dA * dB
    ensures t == PartialTransposeOf(rho, dA, dB)
  {
    ghost var target := PartialTransposeOf(rho, dA, dB);
    var dim := dA * dB;
    var r := new Complex[dim, dim]((x, y) => Zero);
    NoneWritten(dB);
    var i1 := 0;
    while i1 < dA
      invariant 0 <= i1 <= dA
      invariant WrittenCorrect(r, target, dB, i1, 0, 0, 0)
    {
      TransposeBlockRow(r, rho, target, dA, dB, i1);
      i1 := i1 + 1;
    }
    t := Matrix(dim, dim, Cells(r));
    AllWritten(r, target, dA, dB);
  }

  /** The j1 loop for one i1. */
  method TransposeBlockRow(r: array2<Complex>, rho: Matrix, ghost target: Matrix, dA: nat, dB: nat, i1: nat)
    requires WellFormed(rho) && rho.rows == dA * dB && rho.cols == dA * dB && i1 < dA
    requires target == PartialTransposeOf(rho, dA, dB)
    requires r.Length0 == dA * dB && r.Length1 == dA * dB
    requires WrittenCorrect(r, target, dB, i1, 0, 0, 0)
    modifies r
    ensures WrittenCorrect(r, target, dB, i1 + 1, 0, 0, 0)
  {
    var j1 := 0;
    while j1 < dA
      invariant 0 <= j1 <= dA
      invariant WrittenCorrect(r, target, dB, i1, j1, 0, 0)
    {
      TransposeBlock(r, rho, target, dA, dB, i1, j1);
      WrittenCarry(dA, dB, i1, j1, dB);
      j1 := j1 + 1;
    }
    WrittenCarry(dA, dB, i1, dA, 0);
  }

  /** After the last iteration every cell holds its final value. */
  lemma AllWritten(r: array2<Complex>, target: Matrix, dA: nat, dB: nat)
    requires WellFormed(target) && target.rows == dA * dB && target.cols == dA * dB
    requires r.Length0 == dA * dB && r.Length1 == dA * dB
    requires WrittenCorrect(r, target, dB, dA, 0, 0, 0)
    ensures Matrix(dA * dB, dA * dB, Cells(r)) == target
  {
    var cells := Cells(r);
    forall x, y | 0 <= x < dA * dB && 0 <= y < dA * dB
      ensures cells[x][y] == target.cell[x][y]
    {
      if dB > 0 {
        DivBound(x, dA, dB);
        assert Written(x, y, dB, dA, 0, 0, 0);
      } else {
        MulZeroRight(dA, dB);
      }
    }
    forall x | 0 <= x < dA * dB ensures cells[x] == target.cell[x] {
    }
  }

  lemma MulZeroRight(a: nat, b: nat)
    requires b == 0
    ensures a * b == 0
  {
  }

  /** The (i2, j2) loops for one (i1, j1). */
  method TransposeBlock(r: array2<Complex>, rho: Matrix, ghost target: Matrix, dA: nat, dB: nat, i1: nat, j1: nat)
    requires WellFormed(rho) && rho.rows == dA * dB && rho.cols == dA * dB && i1 < dA && j1 < dA
    requires target == PartialTransposeOf(rho, dA, dB)
    requires r.Length0 == dA * dB && r.Length1 == dA * dB
    requires WrittenCorrect(r, target, dB, i1, j1, 0, 0)
    modifies r
    ensures WrittenCorrect(r, target, dB, i1, j1, dB, 0)
  {
    var i2 := 0;
    while i2 < dB
      invariant 0 <= i2 <= dB
      invariant WrittenCorrect(r, target, dB, i1, j1, i2, 0)
    {
      TransposeColumn(r, rho, target, dA, dB, i1, j1, i2);
      WrittenCarry(dA, dB, i1, j1, i2);
      i2 := i2 + 1;
    }
  }

  /** The innermost j2 loop: rho_T(i1·dB + j2, j1·dB + i2) = rho(i1·dB + i2,
    * j1·dB + j2). */
  method TransposeColumn(r: array2<Complex>, rho: Matrix, ghost target: Matrix, dA: nat, dB: nat, i1: nat, j1: nat, i2: nat)
    requires WellFormed(rho) && rho.rows == dA * dB && rho.cols == dA * dB && i1 < dA && j1 < dA && i2 < dB
    requires target == PartialTransposeOf(rho, dA, dB)
    requires r.Length0 == dA * dB && r.Length1 == dA * dB
    requires WrittenCorrect(r, target, dB, i1, j1, i2, 0)
    modifies r
    ensures WrittenCorrect(r, target, dB, i1, j1, i2, dB)
  {
    var j2 := 0;
    while j2 < dB
      invariant 0 <= j2 <= dB
      invariant WrittenCorrect(r, target, dB, i1, j1, i2, j2)
    {
      PartialTransposeEntry(rho, dA, dB, i1, j1, i2, j2);
      WrittenStep(dB, i1, j1, i2, j2);
      var row, col := i1 * dB + j2, j1 * dB + i2;
      r[row, col] := rho.cell[i1 * dB + i2][j1 * dB + j2];
      forall x, y | 0 <= x < r.Length0 && 0 <= y < r.Length1 && Written(x, y, dB, i1, j1, i2, j2 + 1)
        ensures r[x, y] == target.cell[x][y]
      {
        if x != row || y != col {
          assert Written(x, y, dB, i1, j1, i2, j2);
        }
      }
      j2 := j2 + 1;
    }
  }

  /** Σ |λ| over the negative λ of a list, accumulated front to back. */
  function NegativePart(eigenvalues: seq<real>): real
  {
    if eigenvalues == [] then 0.0
    else
      var last := eigenvalues[|eigenvalues| - 1];
      NegativePart(eigenvalues[..|eigenvalues| - 1]) + (if last < 0.0 then -last else 0.0)
  }

  /** The negativity is never negative, and it is zero exactly when no
    * eigenvalue is negative. */
  lemma {:induction false} NegativePartSign(eigenvalues: seq<real>)
    ensures NegativePart(eigenvalues) >= 0.0
    ensures NegativePart(eigenvalues) == 0.0 <==> forall k :: 0 <= k < |eigenvalues| ==> eigenvalues[k] >= 0.0
  {
    if eigenvalues != [] {
      var init := eigenvalues[..|eigenvalues| - 1];
      NegativePartSign(init);
      assert forall k :: 0 <= k < |init| ==> init[k] == eigenvalues[k];
    }
  }

  /** calculateNegativity's loop, over the eigenvalues of the partial
    * transpose, which the eigensolver supplies. */
  method CalculateNegativity(eigenvalues: seq<real>) returns (negativity: real)
    ensures negativity == NegativePart(eigenvalues)
    ensures negativity >= 0.0
  {
    negativity := 0.0;
    var i := 0;
    while i < |eigenvalues|
      invariant 0 <= i <= |eigenvalues|
      invariant negativity == NegativePart(eigenvalues[..i])
    {
      assert eigenvalues[..i + 1][..i] == eigenvalues[..i];
      if eigenvalues[i] < 0.0 {
        negativity := negativity + (-eigenvalues[i]);
      }
      i := i + 1;
    }
    assert eigenvalues[..i] == eigenvalues;
    NegativePartSign(eigenvalues);
  }
}
