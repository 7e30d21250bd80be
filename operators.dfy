/** The gate matrices and matrix operations of
  * libomniq-core/src/common/Operators.cpp that are exact: the Pauli, S,
  * CNOT and SWAP constants, controlled gates, the tensor product and its
  * fold over a gate list, the measurement projectors and the partial trace. */
module Operators {
  import opened Wrappers
  import opened Bits
  import opened ComplexNumbers

  /** A dense complex matrix that knows its shape, as an Eigen matrix does. */
  datatype Matrix = Matrix(rows: nat, cols: nat, cell: seq<seq<Complex>>)

  predicate WellFormed(m: Matrix)
  {
    |m.cell| == m.rows && forall r :: 0 <= r < m.rows ==> |m.cell[r]| == m.cols
  }

  predicate IsGate2(m: Matrix)
  {
    m.rows == 2 && m.cols == 2 && WellFormed(m)
  }

  /** The matrix whose (r, c) entry is f(r, c). */
  function Build(rows: nat, cols: nat, f: (int, int) -> Complex): (m: Matrix)
    ensures WellFormed(m) && m.rows == rows && m.cols == cols
    ensures forall r, c :: 0 <= r < rows && 0 <= c < cols ==> m.cell[r][c] == f(r, c)
  {
    Matrix(rows, cols, seq(rows, r => seq(cols, c => f(r, c))))
  }

  function Mat2(a: Complex, b: Complex, c: Complex, d: Complex): (m: Matrix)
    ensures IsGate2(m)
  {
    Matrix(2, 2, [[a, b], [c, d]])
  }

  const PauliX: Matrix := Mat2(Zero, One, One, Zero)
  const PauliY: Matrix := Mat2(Zero, Neg(I), I, Zero)
  const PauliZ: Matrix := Mat2(One, Zero, Zero, Neg(One))
  const Identity2: Matrix := Mat2(One, Zero, Zero, One)
  const SGate: Matrix := Mat2(One, Zero, Zero, I)

  function Identity(size: nat): (m: Matrix)
    ensures WellFormed(m) && m.rows == size && m.cols == size
  {
    Build(size, size, (r, c) => if r == c then One else Zero)
  }

  /** The permutation matrix sending basis state c to basis state p(c). */
  function PermutationMatrix(size: nat, p: int -> int): (m: Matrix)
    ensures WellFormed(m) && m.rows == size && m.cols == size
  {
    Build(size, size, (r, c) => if p(c) == r then One else Zero)
  }

  /** The CNOT constant, row by row as in the source. */
  const Cnot: Matrix := Matrix(4, 4, [
    [One, Zero, Zero, Zero],
    [Zero, One, Zero, Zero],
    [Zero, Zero, Zero, One],
    [Zero, Zero, One, Zero]])

  const Swap: Matrix := Matrix(4, 4, [
    [One, Zero, Zero, Zero],
    [Zero, Zero, One, Zero],
    [Zero, One, Zero, Zero],
    [Zero, Zero, Zero, One]])

  /** CNOT exchanges the basis states 2 and 3, SWAP the basis states 1 and
    * 2; both fix the others. */
  lemma ConstantsArePermutations()
    ensures Cnot == PermutationMatrix(4, k => if k == 2 then 3 else if k == 3 then 2 else k)
    ensures Swap == PermutationMatrix(4, k => if k == 1 then 2 else if k == 2 then 1 else k)
  {
    var pc := PermutationMatrix(4, k => if k == 2 then 3 else if k == 3 then 2 else k);
    var ps := PermutationMatrix(4, k => if k == 1 then 2 else if k == 2 then 1 else k);
    forall r | 0 <= r < 4 ensures pc.cell[r] == Cnot.cell[r] && ps.cell[r] == Swap.cell[r] {
    }
  }

  /** controlledGate: the 4×4 identity with its bottom-right 2×2 block
    * replaced by the gate. */
  function ControlledGate(u: Matrix): (m: Matrix)
    requires IsGate2(u)
    ensures WellFormed(m) && m.rows == 4 && m.cols == 4
    ensures forall r, c :: 0 <= r < 2 && 0 <= c < 2 ==> m.cell[r + 2][c + 2] == u.cell[r][c]
    ensures forall r, c :: 0 <= r < 4 && 0 <= c < 4 && (r < 2 || c < 2) ==> m.cell[r][c] == Identity(4).cell[r][c]
  {
    Matrix(4, 4, [
      [One, Zero, Zero, Zero],
      [Zero, One, Zero, Zero],
      [Zero, Zero, u.cell[0][0], u.cell[0][1]],
      [Zero, Zero, u.cell[1][0], u.cell[1][1]]])
  }

  /** controlledX returns the CNOT constant, and it agrees with
    * controlledGate(PAULI_X); controlledZ is diag(1, 1, 1, −1). */
  lemma ControlledPauli()
    ensures ControlledGate(PauliX) == Cnot
    ensures ControlledGate(PauliZ) == Matrix(4, 4, [
      [One, Zero, Zero, Zero],
      [Zero, One, Zero, Zero],
      [Zero, Zero, One, Zero],
      [Zero, Zero, Zero, Neg(One)]])
  {
    var cx := ControlledGate(PauliX);
    forall r | 0 <= r < 4 ensures cx.cell[r] == Cnot.cell[r] {
    }
    var cz := ControlledGate(PauliZ);
    assert cz.cell[3] == [Zero, Zero, Zero, Neg(One)];
  }

  /** q ≥ 1 copies of d add up to at least d. */
  lemma {:induction false} MulAtLeast(q: nat, d: nat)
    requires q >= 1
    ensures q * d >= d
  {
    if q > 1 {
      MulAtLeast(q - 1, d);
      assert q * d == (q - 1) * d + d;
    }
  }

  /** x = q·d + r with r < d fixes the quotient and the remainder. */
  lemma DivUnique(x: nat, d: nat, q: nat, r: nat)
    requires r < d && x == q * d + r
    ensures x / d == q && x % d == r
  {
    var q', r' := x / d, x % d;
    assert x == q' * d + r';
    if q' > q {
      assert q' * d == q * d + (q' - q) * d;
      MulAtLeast(q' - q, d);
    } else if q > q' {
      assert q * d == q' * d + (q - q') * d;
      MulAtLeast(q - q', d);
    }
  }

  /** Block i of n blocks of size d ends inside the n·d cells. */
  lemma BlockBound(i: nat, k: nat, n: nat, d: nat)
    requires i < n && k < d
    ensures i * d + k < n * d
  {
    assert n * d == i * d + (n - i) * d;
    MulAtLeast(n - i, d);
  }

  ghost predicate BlockBoundBoth(i: nat, k: nat, j: nat, l: nat, a: Matrix, b: Matrix)
  {
    i * b.rows + k < a.rows * b.rows && j * b.cols + l < a.cols * b.cols
  }

  /** The cells of a result array, row by row. */
  function Cells(r: array2<Complex>): (rows: seq<seq<Complex>>)
    reads r
    ensures |rows| == r.Length0
    ensures forall x :: 0 <= x < r.Length0 ==> |rows[x]| == r.Length1
    ensures forall x, y :: 0 <= x < r.Length0 && 0 <= y < r.Length1 ==> rows[x][y] == r[x, y]
  {
    seq(r.Length0, x requires 0 <= x < r.Length0 reads r =>
      seq(r.Length1, y requires 0 <= y < r.Length1 reads r => r[x, y]))
  }

  /** Block (i, j) of the tensor product holds A(i, j)·B. */
  ghost predicate BlockFilled(r: array2<Complex>, a: Matrix, b: Matrix, i: nat, j: nat)
    reads r
    requires WellFormed(a) && WellFormed(b) && i < a.rows && j < a.cols
    requires r.Length0 == a.rows * b.rows && r.Length1 == a.cols * b.cols
  {
    forall k, l :: 0 <= k < b.rows && 0 <= l < b.cols ==>
      BlockBoundBoth(i, k, j, l, a, b) && r[i * b.rows + k, j * b.cols + l] == Mul(a.cell[i][j], b.cell[k][l])
  }

  predicate Before(a: nat, b: nat, i: nat, j: nat)
  {
    a < i || (a == i && b < j)
  }

  /** tensorProduct: the (rA·rB)×(cA·cB) matrix whose block (i, j) is
    * A(i, j)·B, so that entry (i·rB + k, j·cB + l) is A(i, j)·B(k, l). */
  method TensorProduct(a: Matrix, b: Matrix) returns (res: Matrix)
    requires WellFormed(a) && WellFormed(b)
    ensures WellFormed(res) && res.rows == a.rows * b.rows && res.cols == a.cols * b.cols
    ensures forall i, j, k, l :: 0 <= i < a.rows && 0 <= j < a.cols && 0 <= k < b.rows && 0 <= l < b.cols ==>
      BlockBoundBoth(i, k, j, l, a, b) && res.cell[i * b.rows + k][j * b.cols + l] == Mul(a.cell[i][j], b.cell[k][l])
  {
    var r := new Complex[a.rows * b.rows, a.cols * b.cols]((x, y) => Zero);
    var i := 0;
    while i < a.rows
      invariant 0 <= i <= a.rows
      invariant forall i', j' :: 0 <= i' < i && 0 <= j' < a.cols ==> BlockFilled(r, a, b, i', j')
    {
      var j := 0;
      while j < a.cols
        invariant 0 <= j <= a.cols
        invariant forall i', j' :: 0 <= i' < a.rows && 0 <= j' < a.cols && Before(i', j', i, j) ==> BlockFilled(r, a, b, i', j')
      {
        FillBlock(r, a, b, i, j);
        j := j + 1;
      }
      i := i + 1;
    }
    res := Matrix(a.rows * b.rows, a.cols * b.cols, Cells(r));
    forall i, j, k, l | 0 <= i < a.rows && 0 <= j < a.cols && 0 <= k < b.rows && 0 <= l < b.cols
      ensures BlockBoundBoth(i, k, j, l, a, b) && res.cell[i * b.rows + k][j * b.cols + l] == Mul(a.cell[i][j], b.cell[k][l])
    {
      assert BlockFilled(r, a, b, i, j);
    }
  }

  /** The block assignment result.block(i·rB, j·cB, rB, cB) = A(i, j)·B:
    * it fills block (i, j) and keeps every other block that was filled. */
  method FillBlock(r: array2<Complex>, a: Matrix, b: Matrix, i: nat, j: nat)
    requires WellFormed(a) && WellFormed(b) && i < a.rows && j < a.cols
    requires r.Length0 == a.rows * b.rows && r.Length1 == a.cols * b.cols
    modifies r
    ensures BlockFilled(r, a, b, i, j)
    ensures forall i', j' :: 0 <= i' < a.rows && 0 <= j' < a.cols && (i', j') != (i, j) && old(BlockFilled(r, a, b, i', j')) ==>
      BlockFilled(r, a, b, i', j')
  {
    WriteBlock(r, a, b, i, j);
    forall i', j' | 0 <= i' < a.rows && 0 <= j' < a.cols && (i', j') != (i, j) && old(BlockFilled(r, a, b, i', j'))
      ensures BlockFilled(r, a, b, i', j')
    {
      forall k, l | 0 <= k < b.rows && 0 <= l < b.cols
        ensures BlockBoundBoth(i', k, j', l, a, b) && r[i' * b.rows + k, j' * b.cols + l] == Mul(a.cell[i'][j'], b.cell[k][l])
      {
        BlockBound(i', k, a.rows, b.rows);
        BlockBound(j', l, a.cols, b.cols);
        DivUnique(i' * b.rows + k, b.rows, i', k);
        DivUnique(j' * b.cols + l, b.cols, j', l);
        assert OtherBlock(i' * b.rows + k, j' * b.cols + l, i, j, b);
      }
    }
  }

  /** Cell (x, y) lies outside block (i, j) of a layout whose blocks are
    * rB×cB. */
  ghost predicate OtherBlock(x: int, y: int, i: nat, j: nat, b: Matrix)
  {
    b.rows > 0 && b.cols > 0 && (x / b.rows != i || y / b.cols != j)
  }

  /** The rows of one block, one after the other: every cell whose block is
    * not (i, j) keeps its value. */
  method WriteBlock(r: array2<Complex>, a: Matrix, b: Matrix, i: nat, j: nat)
    requires WellFormed(a) && WellFormed(b) && i < a.rows && j < a.cols
    requires r.Length0 == a.rows * b.rows && r.Length1 == a.cols * b.cols
    modifies r
    ensures BlockFilled(r, a, b, i, j)
    ensures forall x, y :: 0 <= x < r.Length0 && 0 <= y < r.Length1 && OtherBlock(x, y, i, j, b) ==>
      r[x, y] == old(r[x, y])
  {
    var k := 0;
    while k < b.rows
      invariant 0 <= k <= b.rows
      invariant forall k', l :: 0 <= k' < k && 0 <= l < b.cols ==>
        BlockBoundBoth(i, k', j, l, a, b) && r[i * b.rows + k', j * b.cols + l] == Mul(a.cell[i][j], b.cell[k'][l])
      invariant forall x, y :: 0 <= x < r.Length0 && 0 <= y < r.Length1 && OtherBlock(x, y, i, j, b) ==>
        r[x, y] == old(r[x, y])
    {
      WriteBlockRow(r, a, b, i, j, k);
      k := k + 1;
    }
  }

  /** Row k of block (i, j): it writes cells (i·rB + k, j·cB + l) only. */
  method WriteBlockRow(r: array2<Complex>, a: Matrix, b: Matrix, i: nat, j: nat, k: nat)
    requires WellFormed(a) && WellFormed(b) && i < a.rows && j < a.cols && k < b.rows
    requires r.Length0 == a.rows * b.rows && r.Length1 == a.cols * b.cols
    modifies r
    ensures forall l :: 0 <= l < b.cols ==>
      BlockBoundBoth(i, k, j, l, a, b) && r[i * b.rows + k, j * b.cols + l] == Mul(a.cell[i][j], b.cell[k][l])
    ensures forall x, y :: 0 <= x < r.Length0 && 0 <= y < r.Length1 && x != i * b.rows + k ==>
      r[x, y] == old(r[x, y])
    ensures forall x, y :: 0 <= x < r.Length0 && 0 <= y < r.Length1 && OtherBlock(x, y, i, j, b) ==>
      r[x, y] == old(r[x, y])
  {
    BlockBound(i, k, a.rows, b.rows);
    DivUnique(i * b.rows + k, b.rows, i, k);
    var x := i * b.rows + k;
    var l := 0;
    while l < b.cols
      invariant 0 <= l <= b.cols
      invariant forall l' :: 0 <= l' < l ==>
        BlockBoundBoth(i, k, j, l', a, b) && r[x, j * b.cols + l'] == Mul(a.cell[i][j], b.cell[k][l'])
      invariant forall x', y :: 0 <= x' < r.Length0 && 0 <= y < r.Length1 && x' != x ==> r[x', y] == old(r[x', y])
      invariant forall y :: 0 <= y < r.Length1 && b.cols > 0 && y / b.cols != j ==> r[x, y] == old(r[x, y])
    {
      BlockBound(j, l, a.cols, b.cols);
      DivUnique(j * b.cols + l, b.cols, j, l);
      r[x, j * b.cols + l] := Mul(a.cell[i][j], b.cell[k][l]);
      l := l + 1;
    }
  }

  /** Entry (x, y) of g_0 ⊗ g_1 ⊗ … ⊗ g_{m−1} for 2×2 gates: the last gate
    * reads the lowest bits of x and y. */
  function GateEntry(gates: seq<Matrix>, x: nat, y: nat): Complex
    requires |gates| >= 1 && forall g :: g in gates ==> IsGate2(g)
    requires x < Pow2(|gates|) && y < Pow2(|gates|)
    decreases |gates|
  {
    var m := |gates|;
    var g := gates[m - 1];
    assert g in gates && IsGate2(g);
    assert |g.cell[x % 2]| == 2;
    if m == 1 then g.cell[x][y]
    else Mul(GateEntry(gates[..m - 1], x / 2, y / 2), g.cell[x % 2][y % 2])
  }

  /** createMultiQubitGate: invalid_argument for an empty list; otherwise
    * the left fold of tensorProduct over the list. */
  method CreateMultiQubitGate(gates: seq<Matrix>) returns (r: Result<Matrix>)
    requires forall g :: g in gates ==> IsGate2(g)
    ensures r.Err? <==> gates == []
    ensures r.Err? ==> r.error == InvalidArgument
    ensures r.Ok? ==> WellFormed(r.value) && r.value.rows == Pow2(|gates|) && r.value.cols == Pow2(|gates|)
    ensures r.Ok? ==> forall x, y :: 0 <= x < Pow2(|gates|) && 0 <= y < Pow2(|gates|) ==>
      r.value.cell[x][y] == GateEntry(gates, x, y)
  {
    if gates == [] {
      return Err(InvalidArgument);
    }
    var result := gates[0];
    assert gates[0] in gates && gates[..1] == [gates[0]];
    var i := 1;
    while i < |gates|
      invariant 1 <= i <= |gates|
      invariant WellFormed(result) && result.rows == Pow2(i) && result.cols == Pow2(i)
      invariant forall x, y :: 0 <= x < Pow2(i) && 0 <= y < Pow2(i) ==> result.cell[x][y] == GateEntry(gates[..i], x, y)
    {
      assert gates[i] in gates;
      var next := TensorProduct(result, gates[i]);
      FoldStep(gates, i, result, next);
      result := next;
      i := i + 1;
    }
    assert gates[..i] == gates;
    return Ok(result);
  }

  /** One step of the fold: (g_0 ⊗ … ⊗ g_{i−1}) ⊗ g_i. */
  lemma FoldStep(gates: seq<Matrix>, i: nat, acc: Matrix, next: Matrix)
    requires 1 <= i < |gates| && forall g :: g in gates ==> IsGate2(g)
    requires WellFormed(acc) && acc.rows == Pow2(i) && acc.cols == Pow2(i)
    requires forall x, y :: 0 <= x < Pow2(i) && 0 <= y < Pow2(i) ==> acc.cell[x][y] == GateEntry(gates[..i], x, y)
    requires WellFormed(next) && next.rows == acc.rows * 2 && next.cols == acc.cols * 2
    requires IsGate2(gates[i])
    requires forall a, c, k, l :: 0 <= a < acc.rows && 0 <= c < acc.cols && 0 <= k < 2 && 0 <= l < 2 ==>
      BlockBoundBoth(a, k, c, l, acc, gates[i]) && next.cell[a * 2 + k][c * 2 + l] == Mul(acc.cell[a][c], gates[i].cell[k][l])
    ensures next.rows == Pow2(i + 1) && next.cols == Pow2(i + 1)
    ensures forall x, y :: 0 <= x < Pow2(i + 1) && 0 <= y < Pow2(i + 1) ==> next.cell[x][y] == GateEntry(gates[..i + 1], x, y)
  {
    var prefix := gates[..i + 1];
    assert prefix[..i] == gates[..i] && prefix[i] == gates[i];
    assert forall g :: g in prefix ==> g in gates;
    forall x, y | 0 <= x < Pow2(i + 1) && 0 <= y < Pow2(i + 1)
      ensures next.cell[x][y] == GateEntry(prefix, x, y)
    {
      var a, k, c, l := x / 2, x % 2, y / 2, y % 2;
      assert x == a * 2 + k && y == c * 2 + l;
      assert next.cell[a * 2 + k][c * 2 + l] == Mul(acc.cell[a][c], gates[i].cell[k][l]);
      assert GateEntry(prefix, x, y) == Mul(GateEntry(gates[..i], a, c), gates[i].cell[k][l]);
    }
  }

  /** A one-element list yields that gate. */
  lemma SingleGate(g: Matrix)
    requires IsGate2(g)
    ensures forall x, y :: 0 <= x < 2 && 0 <= y < 2 ==> GateEntry([g], x, y) == g.cell[x][y]
  {
  }

  /** n copies of the 2×2 identity. */
  function Identities(n: nat): (gates: seq<Matrix>)
    ensures |gates| == n && forall g :: g in gates ==> IsGate2(g)
  {
    seq(n, _ => Identity2)
  }

  /** The fold of n ≥ 1 identities is the 2^n×2^n identity. */
  lemma {:induction false} IdentityFold(n: nat, x: nat, y: nat)
    requires n >= 1 && x < Pow2(n) && y < Pow2(n)
    ensures GateEntry(Identities(n), x, y) == if x == y then One else Zero
  {
    var ids := Identities(n);
    if n == 1 {
      assert x < 2 && y < 2;
      assert GateEntry(ids, x, y) == Identity2.cell[x][y];
      assert Identity2.cell == [[One, Zero], [Zero, One]];
    } else {
      assert ids[..n - 1] == Identities(n - 1);
      IdentityFold(n - 1, x / 2, y / 2);
      var e := GateEntry(Identities(n - 1), x / 2, y / 2);
      var c := Identity2.cell[x % 2][y % 2];
      assert GateEntry(ids, x, y) == Mul(e, c);
      if x == y {
        assert e == One && c == One;
        MulOne(One);
      } else if x / 2 == y / 2 {
        assert c == Zero;
        MulZero(e);
      } else {
        assert e == Zero;
        MulZero(c);
      }
    }
  }

  /** measurementOperator: the projectors of the Z (0), X (1) and Y (2)
    * bases; invalid_argument for any other basis. Outcome 0 selects the
    * first projector and every other outcome the second. */
  function MeasurementOperator(basis: int, outcome: int): (r: Result<Matrix>)
    ensures r.Err? <==> basis !in {0, 1, 2}
    ensures r.Err? ==> r.error == InvalidArgument
    ensures r.Ok? ==> IsGate2(r.value)
  {
    var h := Complex(0.5, 0.0);
    var mh := Complex(-0.5, 0.0);
    var ih := Complex(0.0, 0.5);
    var mih := Complex(0.0, -0.5);
    if basis == 0 then
      Ok(if outcome == 0 then Mat2(One, Zero, Zero, Zero) else Mat2(Zero, Zero, Zero, One))
    else if basis == 1 then
      Ok(if outcome == 0 then Mat2(h, h, h, h) else Mat2(h, mh, mh, h))
    else if basis == 2 then
      Ok(if outcome == 0 then Mat2(h, mih, ih, h) else Mat2(h, ih, mih, h))
    else Err(InvalidArgument)
  }

  function Add2(a: Matrix, b: Matrix): (r: Matrix)
    requires IsGate2(a) && IsGate2(b)
    ensures IsGate2(r)
  {
    Mat2(Add(a.cell[0][0], b.cell[0][0]), Add(a.cell[0][1], b.cell[0][1]),
         Add(a.cell[1][0], b.cell[1][0]), Add(a.cell[1][1], b.cell[1][1]))
  }

  function Mul2(a: Matrix, b: Matrix): (r: Matrix)
    requires IsGate2(a) && IsGate2(b)
    ensures IsGate2(r)
  {
    Mat2(Add(Mul(a.cell[0][0], b.cell[0][0]), Mul(a.cell[0][1], b.cell[1][0])),
         Add(Mul(a.cell[0][0], b.cell[0][1]), Mul(a.cell[0][1], b.cell[1][1])),
         Add(Mul(a.cell[1][0], b.cell[0][0]), Mul(a.cell[1][1], b.cell[1][0])),
         Add(Mul(a.cell[1][0], b.cell[0][1]), Mul(a.cell[1][1], b.cell[1][1])))
  }

  /** In each basis the two outcomes resolve the identity and annihilate
    * each other; in the Z basis they are diag(1, 0) and diag(0, 1). */
  lemma MeasurementOperatorsComplete(basis: int)
    requires basis in {0, 1, 2}
    ensures var p0, p1 := MeasurementOperator(basis, 0).value, MeasurementOperator(basis, 1).value;
      Add2(p0, p1) == Identity2 && Mul2(p0, p1) == Mat2(Zero, Zero, Zero, Zero)
    ensures basis == 0 ==>
      MeasurementOperator(0, 0).value == Mat2(One, Zero, Zero, Zero) &&
      MeasurementOperator(0, 1).value == Mat2(Zero, Zero, Zero, One)
  {
    var p0, p1 := MeasurementOperator(basis, 0).value, MeasurementOperator(basis, 1).value;
    if basis == 0 {
    } else if basis == 1 {
      assert p1.cell[0][1] == Neg(p0.cell[0][1]);
    } else {
      assert p1.cell[0][1] == Neg(p0.cell[0][1]);
    }
  }

  /** The real part of the trace of the leading size×size block. */
  function Trace(m: Matrix, size: nat): real
    requires WellFormed(m) && size <= m.rows && size <= m.cols
  {
    if size == 0 then 0.0 else Trace(m, size - 1) + m.cell[size - 1][size - 1].re
  }

  /** The block size of partialTrace: (int) pow(2, totalQubits − 1), which
    * is 0 for totalQubits <= 0. */
  function HalfDimension(totalQubits: int): nat
  {
    if totalQubits >= 1 then Pow2(totalQubits - 1) else 0
  }

  /** The (i, j) entry of the partial trace over the top qubit:
    * M(i, j) + M(i + h, j + h). */
  function TraceCell(m: Matrix, h: nat, i: nat, j: nat): Complex
    requires WellFormed(m) && i < h && j < h && 2 * h <= m.rows && 2 * h <= m.cols
  {
    Add(m.cell[i][j], m.cell[i + h][j + h])
  }

  /** partialTrace: invalid_argument when qubit >= totalQubits; otherwise
    * result(i, j) = M(i, j) + M(i + h, j + h), h = 2^(n−1), for whichever
    * qubit is named. A call that passes the qubit check must pass a matrix
    * of at least 2h×2h (Eigen does not check the indices); the error path
    * reads no entry and takes any matrix. */
  method PartialTrace(m: Matrix, qubit: int, totalQubits: int) returns (r: Result<Matrix>)
    requires WellFormed(m)
    requires qubit < totalQubits ==>
      2 * HalfDimension(totalQubits) <= m.rows && 2 * HalfDimension(totalQubits) <= m.cols
    ensures r.Err? <==> qubit >= totalQubits
    ensures r.Err? ==> r.error == InvalidArgument
    ensures r.Ok? ==> WellFormed(r.value) && r.value.rows == HalfDimension(totalQubits) && r.value.cols == HalfDimension(totalQubits)
    ensures r.Ok? ==> forall i, j :: 0 <= i < r.value.rows && 0 <= j < r.value.cols ==>
      r.value.cell[i][j] == TraceCell(m, HalfDimension(totalQubits), i, j)
  {
    if qubit >= totalQubits {
      return Err(InvalidArgument);
    }
    var h := HalfDimension(totalQubits);
    var result := new Complex[h, h]((x, y) => Zero);
    var i := 0;
    while i < h
      invariant 0 <= i <= h
      invariant forall x, y :: 0 <= x < i && 0 <= y < h ==> result[x, y] == TraceCell(m, h, x, y)
    {
      var j := 0;
      while j < h
        invariant 0 <= j <= h
        invariant forall x, y :: 0 <= x < i && 0 <= y < h ==> result[x, y] == TraceCell(m, h, x, y)
        invariant forall y :: 0 <= y < j ==> result[i, y] == TraceCell(m, h, i, y)
      {
        var sum := Zero;
        var k := 0;
        while k < 2
          invariant 0 <= k <= 2
          invariant k == 1 ==> sum == Add(Zero, m.cell[i][j])
          invariant k == 2 ==> sum == Add(Add(Zero, m.cell[i][j]), m.cell[i + h][j + h])
          invariant k == 0 ==> sum == Zero
        {
          if k == 0 {
            assert k * h == 0;
          } else {
            assert k * h == h;
          }
          sum := Add(sum, m.cell[i + k * h][j + k * h]);
          k := k + 1;
        }
        AddZero(m.cell[i][j]);
        result[i, j] := sum;
        j := j + 1;
      }
      i := i + 1;
    }
    return Ok(Matrix(h, h, Cells(result)));
  }

  /** The partial trace keeps the trace: the diagonal of the result adds up
    * to the diagonal of the leading 2h×2h block. */
  lemma {:induction false} PartialTraceKeepsTrace(m: Matrix, t: Matrix, h: nat, k: nat)
    requires WellFormed(m) && 2 * h <= m.rows && 2 * h <= m.cols
    requires WellFormed(t) && t.rows == h && t.cols == h && k <= h
    requires forall i, j :: 0 <= i < h && 0 <= j < h ==> t.cell[i][j] == TraceCell(m, h, i, j)
    ensures Trace(t, k) == Trace(m, k) + (UpperTrace(m, h, k))
  {
    if k > 0 {
      PartialTraceKeepsTrace(m, t, h, k - 1);
    }
  }

  /** Σ_{i<k} Re M(h + i, h + i). */
  function UpperTrace(m: Matrix, h: nat, k: nat): real
    requires WellFormed(m) && h + k <= m.rows && h + k <= m.cols
  {
    if k == 0 then 0.0 else UpperTrace(m, h, k - 1) + m.cell[h + k - 1][h + k - 1].re
  }

  lemma {:induction false} TraceSplit(m: Matrix, h: nat, k: nat)
    requires WellFormed(m) && h + k <= m.rows && h + k <= m.cols
    ensures Trace(m, h + k) == Trace(m, h) + UpperTrace(m, h, k)
  {
    if k > 0 {
      TraceSplit(m, h, k - 1);
    }
  }

  lemma PartialTraceTrace(m: Matrix, t: Matrix, h: nat)
    requires WellFormed(m) && 2 * h <= m.rows && 2 * h <= m.cols
    requires WellFormed(t) && t.rows == h && t.cols == h
    requires forall i, j :: 0 <= i < h && 0 <= j < h ==> t.cell[i][j] == TraceCell(m, h, i, j)
    ensures Trace(t, h) == Trace(m, 2 * h)
  {
    PartialTraceKeepsTrace(m, t, h, h);
    TraceSplit(m, h, h);
  }
}
