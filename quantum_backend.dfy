/** The debugger's own simulator, omniq-debugger/src/QuantumBackend.cpp: a
  * state vector that applies a gate by building the full 2^n×2^n matrix
  * and multiplying, and a circuit that is a list of gate tuples with a
  * step cursor. */
module QuantumBackend {
  import opened Wrappers
  import opened Bits
  import opened ComplexNumbers
  import opened Operators
  import opened Text
  import Statevectors

  /** The gate kinds the debugger names: the enumerators of
    * libomniq-core/include/omniq/Circuit.h plus CP, which the debugger's
    * code uses throughout. */
  datatype GateType = H | X | Y | Z | CNOT | SWAP | PHASE | RX | RY | RZ | MEASURE | CP

  /** The transcendental numbers behind H, PHASE and the rotations:
    * 1/√2, cos, sin and θ ↦ e^{iθ}. They are inputs of the model. */
  datatype Numerics = Numerics(invSqrt2: real, cos: real -> real, sin: real -> real, expI: real -> Complex)

  // ---------------------------------------------------------------------
  // Gate matrices

  /** The 2×2 matrix of createSingleQubitGate's switch; the types it has no
    * case for throw invalid_argument. */
  function SingleQubitMatrix(t: GateType, parameter: real, num: Numerics): (r: Result<Matrix>)
    ensures r.Ok? <==> t in {H, X, Y, Z, PHASE, RX, RY, RZ}
    ensures r.Err? ==> r.error == InvalidArgument
    ensures r.Ok? ==> IsGate2(r.value)
    ensures t == X ==> r == Ok(PauliX)
    ensures t == Z ==> r == Ok(PauliZ)
  {
    var h := Complex(num.invSqrt2, 0.0);
    var c := Complex(num.cos(parameter / 2.0), 0.0);
    var s := num.sin(parameter / 2.0);
    match t
    case H => Ok(Mat2(h, h, h, Neg(h)))
    case X => Ok(PauliX)
    case Y => Ok(PauliY)
    case Z => Ok(PauliZ)
    case PHASE => Ok(Mat2(One, Zero, Zero, num.expI(parameter)))
    case RX => Ok(Mat2(c, Complex(0.0, -s), Complex(0.0, -s), c))
    case RY => Ok(Mat2(c, Complex(-s, 0.0), Complex(s, 0.0), c))
    case RZ => Ok(Mat2(num.expI(-parameter / 2.0), Zero, Zero, num.expI(parameter / 2.0)))
    case _ => Err(InvalidArgument)
  }

  predicate IsGate4(m: Matrix)
  {
    m.rows == 4 && m.cols == 4 && WellFormed(m)
  }

  /** diag(1, 1, 1, e^{iφ}), the controlled-phase matrix. */
  function ControlledPhase(phase: Complex): (m: Matrix)
    ensures IsGate4(m)
  {
    Matrix(4, 4, [
      [One, Zero, Zero, Zero],
      [Zero, One, Zero, Zero],
      [Zero, Zero, One, Zero],
      [Zero, Zero, Zero, phase]])
  }

  /** The 4×4 matrix of createTwoQubitGate's switch. */
  function TwoQubitMatrix(t: GateType, parameter: real, num: Numerics): (r: Result<Matrix>)
    ensures r.Ok? <==> t in {CNOT, SWAP, CP}
    ensures r.Err? ==> r.error == InvalidArgument
    ensures r.Ok? ==> IsGate4(r.value)
    ensures t == CNOT ==> r == Ok(Cnot)
  {
    match t
    case CNOT => Ok(Cnot)
    case SWAP => Ok(Swap)
    case CP => Ok(ControlledPhase(num.expI(parameter)))
    case _ => Err(InvalidArgument)
  }

  // ---------------------------------------------------------------------
  // Embedding a gate into the whole register

  /** Basis indices i and j agree on every one of the n qubits except q1
    * and q2 (`otherQubitsMatch`). */
  predicate AgreeOutside(i: nat, j: nat, n: nat, q1: nat, q2: nat)
  {
    forall k :: 0 <= k < n && k != q1 && k != q2 ==> Bit(i, k) == Bit(j, k)
  }

  /** Entry (i, j) of the embedded single-qubit gate. */
  function SingleCell(g: Matrix, n: nat, q: nat, i: nat, j: nat): Complex
    requires IsGate2(g)
  {
    if AgreeOutside(i, j, n, q, q) then g.cell[Bit(i, q)][Bit(j, q)] else Zero
  }

  function EmbedSingle(g: Matrix, n: nat, q: nat): (m: Matrix)
    requires IsGate2(g)
    ensures WellFormed(m) && m.rows == Pow2(n) && m.cols == Pow2(n)
  {
    Build(Pow2(n), Pow2(n), (i: int, j: int) => if 0 <= i && 0 <= j then SingleCell(g, n, q, i, j) else Zero)
  }

  /** The row or column of the 4×4 gate that basis index i selects:
    * 2·bit_q1(i) + bit_q2(i). */
  function GateIndex(i: nat, q1: nat, q2: nat): (r: nat)
    ensures r < 4
  {
    2 * Bit(i, q1) + Bit(i, q2)
  }

  function TwoCell(g: Matrix, n: nat, q1: nat, q2: nat, i: nat, j: nat): Complex
    requires IsGate4(g)
  {
    if AgreeOutside(i, j, n, q1, q2) then g.cell[GateIndex(i, q1, q2)][GateIndex(j, q1, q2)] else Zero
  }

  function EmbedTwo(g: Matrix, n: nat, q1: nat, q2: nat): (m: Matrix)
    requires IsGate4(g)
    ensures WellFormed(m) && m.rows == Pow2(n) && m.cols == Pow2(n)
  {
    Build(Pow2(n), Pow2(n), (i: int, j: int) => if 0 <= i && 0 <= j then TwoCell(g, n, q1, q2, i, j) else Zero)
  }

  /** Σ_{j<k} row[j]·v[j]. */
  function RowDot(row: seq<Complex>, v: seq<Complex>, k: nat): Complex
    requires k <= |row| && k <= |v|
  {
    if k == 0 then Zero else Add(RowDot(row, v, k - 1), Mul(row[k - 1], v[k - 1]))
  }

  /** The matrix-vector product `gateMatrix * stateVector_`. */
  function MatVec(m: Matrix, v: seq<Complex>): (w: seq<Complex>)
    requires WellFormed(m) && m.cols == |v|
    ensures |w| == m.rows
  {
    seq(m.rows, i requires 0 <= i < m.rows => RowDot(m.cell[i], v, |v|))
  }

  lemma {:induction false} RowDotZero(row: seq<Complex>, v: seq<Complex>, k: nat)
    requires k <= |row| && k <= |v|
    requires forall j :: 0 <= j < k ==> row[j] == Zero
    ensures RowDot(row, v, k) == Zero
  {
    if k > 0 {
      RowDotZero(row, v, k - 1);
    }
  }

  /** A row with one nonzero entry picks out one amplitude. */
  lemma {:induction false} RowDotOnePoint(row: seq<Complex>, v: seq<Complex>, k: nat, a: nat)
    requires a < k <= |row| && k <= |v|
    requires forall j :: 0 <= j < k && j != a ==> row[j] == Zero
    ensures RowDot(row, v, k) == Mul(row[a], v[a])
  {
    if k - 1 == a {
      RowDotZero(row, v, a);
    } else {
      RowDotOnePoint(row, v, k - 1, a);
    }
  }

  /** A row with two nonzero entries a < b adds two products. */
  lemma {:induction false} RowDotTwoPoints(row: seq<Complex>, v: seq<Complex>, k: nat, a: nat, b: nat)
    requires a < b < k <= |row| && k <= |v|
    requires forall j :: 0 <= j < k && j != a && j != b ==> row[j] == Zero
    ensures RowDot(row, v, k) == Add(Mul(row[a], v[a]), Mul(row[b], v[b]))
  {
    if k - 1 == b {
      RowDotOnePoint(row, v, b, a);
    } else {
      RowDotTwoPoints(row, v, k - 1, a, b);
    }
  }

  /** Index i with bit q forced to the value b. */
  function SetBit(i: nat, q: nat, b: nat): (r: nat)
    requires b <= 1
  {
    if Bit(i, q) == b then i else FlipBit(i, q)
  }

  lemma SetBitBits(i: nat, q: nat, b: nat, n: nat)
    requires b <= 1 && i < Pow2(n) && q < n
    ensures SetBit(i, q, b) < Pow2(n)
    ensures forall p :: Bit(SetBit(i, q, b), p) == if p == q then b else Bit(i, p)
  {
    FlipBitBound(i, q, n);
    forall p ensures Bit(SetBit(i, q, b), p) == if p == q then b else Bit(i, p) {
      BitOfFlip(i, q, p);
    }
  }

  /** An index below 2^n agrees with i outside qubit q exactly when it is i
    * with bit q set to 0 or to 1. */
  lemma AgreeSingle(i: nat, j: nat, n: nat, q: nat)
    requires i < Pow2(n) && j < Pow2(n) && q < n
    ensures AgreeOutside(i, j, n, q, q) <==> j == SetBit(i, q, Bit(j, q))
  {
    SetBitBits(i, q, Bit(j, q), n);
    if AgreeOutside(i, j, n, q, q) {
      SameBitsSame(j, SetBit(i, q, Bit(j, q)), n);
    }
  }

  /** Clearing bit q gives a smaller index than setting it. */
  lemma SetBitOrder(i: nat, q: nat, n: nat)
    requires i < Pow2(n) && q < n
    ensures SetBit(i, q, 0) < SetBit(i, q, 1) < Pow2(n)
  {
    SetBitBits(i, q, 1, n);
    if Bit(i, q) == 0 {
      assert FlipBit(i, q) == i + Pow2(q);
    } else {
      assert FlipBit(i, q) == i - Pow2(q);
    }
  }

  /** Row i of the embedded gate is zero except at i with bit q cleared,
    * where it holds G(bit_q(i), 0), and at i with bit q set, where it holds
    * G(bit_q(i), 1). */
  lemma SingleRowSparse(g: Matrix, n: nat, q: nat, i: nat)
    requires IsGate2(g) && q < n && i < Pow2(n)
    ensures SetBit(i, q, 0) < SetBit(i, q, 1) < Pow2(n)
    ensures forall j :: 0 <= j < Pow2(n) && j != SetBit(i, q, 0) && j != SetBit(i, q, 1) ==>
                          EmbedSingle(g, n, q).cell[i][j] == Zero
    ensures EmbedSingle(g, n, q).cell[i][SetBit(i, q, 0)] == g.cell[Bit(i, q)][0]
    ensures EmbedSingle(g, n, q).cell[i][SetBit(i, q, 1)] == g.cell[Bit(i, q)][1]
  {
    SetBitOrder(i, q, n);
    SingleRowZero(g, n, q, i);
    SingleRowEnds(g, n, q, i);
  }

  lemma SingleRowZero(g: Matrix, n: nat, q: nat, i: nat)
    requires IsGate2(g) && q < n && i < Pow2(n)
    ensures forall j :: 0 <= j < Pow2(n) && j != SetBit(i, q, 0) && j != SetBit(i, q, 1) ==>
                          EmbedSingle(g, n, q).cell[i][j] == Zero
  {
    forall j | 0 <= j < Pow2(n) && j != SetBit(i, q, 0) && j != SetBit(i, q, 1)
      ensures EmbedSingle(g, n, q).cell[i][j] == Zero
    {
      AgreeSingle(i, j, n, q);
    }
  }

  lemma SingleRowEnds(g: Matrix, n: nat, q: nat, i: nat)
    requires IsGate2(g) && q < n && i < Pow2(n)
    ensures SetBit(i, q, 0) < Pow2(n) && SetBit(i, q, 1) < Pow2(n)
    ensures EmbedSingle(g, n, q).cell[i][SetBit(i, q, 0)] == g.cell[Bit(i, q)][0]
    ensures EmbedSingle(g, n, q).cell[i][SetBit(i, q, 1)] == g.cell[Bit(i, q)][1]
  {
    SingleRowEnd(g, n, q, i, 0);
    SingleRowEnd(g, n, q, i, 1);
  }

  lemma SingleRowEnd(g: Matrix, n: nat, q: nat, i: nat, b: nat)
    requires IsGate2(g) && q < n && i < Pow2(n) && b <= 1
    ensures SetBit(i, q, b) < Pow2(n)
    ensures EmbedSingle(g, n, q).cell[i][SetBit(i, q, b)] == g.cell[Bit(i, q)][b]
  {
    var j := SetBit(i, q, b);
    SetBitBits(i, q, b, n);
    assert Bit(j, q) == b;
    AgreeSingle(i, j, n, q);
    assert AgreeOutside(i, j, n, q, q);
    assert EmbedSingle(g, n, q).cell[i][j] == SingleCell(g, n, q, i, j);
  }

  /** The single-qubit action: amplitude i of G·v mixes the two amplitudes
    * whose indices equal i outside qubit q, weighted by row bit_q(i) of G. */
  lemma EmbedSingleAction(g: Matrix, n: nat, q: nat, v: seq<Complex>, i: nat)
    requires IsGate2(g) && q < n && |v| == Pow2(n) && i < Pow2(n)
    ensures SetBit(i, q, 0) < SetBit(i, q, 1) < Pow2(n)
    ensures MatVec(EmbedSingle(g, n, q), v)[i] ==
      Add(Mul(g.cell[Bit(i, q)][0], v[SetBit(i, q, 0)]), Mul(g.cell[Bit(i, q)][1], v[SetBit(i, q, 1)]))
  {
    SingleRowSparse(g, n, q, i);
    RowDotTwoPoints(EmbedSingle(g, n, q).cell[i], v, |v|, SetBit(i, q, 0), SetBit(i, q, 1));
  }

  /** The embedded Pauli X is the index permutation of Statevector's
    * apply_pauli_x. */
  lemma EmbeddedPauliX(n: nat, q: nat, v: seq<Complex>)
    requires q < n && |v| == Pow2(n)
    ensures MatVec(EmbedSingle(PauliX, n, q), v) == Statevectors.PauliXOf(v, n, q)
  {
    var w := MatVec(EmbedSingle(PauliX, n, q), v);
    forall i | 0 <= i < |v| ensures w[i] == Statevectors.PauliXOf(v, n, q)[i] {
      EmbedSingleAction(PauliX, n, q, v, i);
      MulZero(v[SetBit(i, q, 0)]);
      MulZero(v[SetBit(i, q, 1)]);
      MulOne(v[SetBit(i, q, 0)]);
      MulOne(v[SetBit(i, q, 1)]);
    }
  }

  /** The embedded Pauli Y maps amplitude i to −i·a or i·a of its partner,
    * as Statevector's apply_pauli_y does. */
  lemma EmbeddedPauliY(n: nat, q: nat, v: seq<Complex>)
    requires q < n && |v| == Pow2(n)
    ensures MatVec(EmbedSingle(PauliY, n, q), v) == Statevectors.PauliYOf(v, n, q)
  {
    var w := MatVec(EmbedSingle(PauliY, n, q), v);
    forall i | 0 <= i < |v| ensures w[i] == Statevectors.PauliYOf(v, n, q)[i] {
      EmbedSingleAction(PauliY, n, q, v, i);
      MulZero(v[SetBit(i, q, 0)]);
      MulZero(v[SetBit(i, q, 1)]);
    }
  }

  /** The embedded Pauli Z negates the amplitudes with bit q set, as
    * Statevector's apply_pauli_z does. */
  lemma EmbeddedPauliZ(n: nat, q: nat, v: seq<Complex>)
    requires q < n && |v| == Pow2(n)
    ensures MatVec(EmbedSingle(PauliZ, n, q), v) == Statevectors.PauliZOf(v, q)
  {
    var w := MatVec(EmbedSingle(PauliZ, n, q), v);
    forall i | 0 <= i < |v| ensures w[i] == Statevectors.PauliZOf(v, q)[i] {
      EmbedSingleAction(PauliZ, n, q, v, i);
      MulZero(v[SetBit(i, q, 0)]);
      MulZero(v[SetBit(i, q, 1)]);
      MulOne(v[SetBit(i, q, 0)]);
    }
  }

  /** Embedding the 2×2 identity gives the 2^n×2^n identity. */
  lemma EmbedIdentity(n: nat, q: nat)
    requires q < n
    ensures EmbedSingle(Identity2, n, q) == Identity(Pow2(n))
  {
    var e, id := EmbedSingle(Identity2, n, q), Identity(Pow2(n));
    forall i | 0 <= i < Pow2(n) ensures e.cell[i] == id.cell[i] {
      forall j | 0 <= j < Pow2(n) ensures e.cell[i][j] == id.cell[i][j] {
        AgreeSingle(i, j, n, q);
        SetBitBits(i, q, Bit(j, q), n);
      }
    }
  }

  /** Index i with bit q1 set to c/2 and bit q2 set to c%2: the basis state
    * that column c of the 4×4 gate addresses from row i. */
  function Placed(i: nat, q1: nat, q2: nat, c: nat): nat
    requires c < 4
  {
    SetBit(SetBit(i, q1, c / 2), q2, c % 2)
  }

  lemma PlacedBits(i: nat, q1: nat, q2: nat, c: nat, n: nat)
    requires c < 4 && i < Pow2(n) && q1 < n && q2 < n && q1 != q2
    ensures Placed(i, q1, q2, c) < Pow2(n)
    ensures forall p :: Bit(Placed(i, q1, q2, c), p) ==
                       if p == q1 then c / 2 else if p == q2 then c % 2 else Bit(i, p)
    ensures GateIndex(Placed(i, q1, q2, c), q1, q2) == c
  {
    SetBitBits(i, q1, c / 2, n);
    SetBitBits(SetBit(i, q1, c / 2), q2, c % 2, n);
  }

  lemma AgreeTwo(i: nat, j: nat, n: nat, q1: nat, q2: nat)
    requires i < Pow2(n) && j < Pow2(n) && q1 < n && q2 < n && q1 != q2
    ensures AgreeOutside(i, j, n, q1, q2) <==> j == Placed(i, q1, q2, GateIndex(j, q1, q2))
  {
    PlacedBits(i, q1, q2, GateIndex(j, q1, q2), n);
    if AgreeOutside(i, j, n, q1, q2) {
      SameBitsSame(j, Placed(i, q1, q2, GateIndex(j, q1, q2)), n);
    }
  }

  /** A 4×4 gate with one entry w[r] per row r, in column pi[r] (a
    * permutation matrix or a diagonal one). */
  predicate Monomial(g: Matrix, pi: seq<nat>, w: seq<Complex>)
  {
    IsGate4(g) && |pi| == 4 && |w| == 4 &&
    (forall r :: 0 <= r < 4 ==> pi[r] < 4) &&
    forall r, c :: 0 <= r < 4 && 0 <= c < 4 ==> g.cell[r][c] == if c == pi[r] then w[r] else Zero
  }

  /** The action of an embedded monomial two-qubit gate: amplitude i of
    * G·v is w[r]·v[i'] where r = GateIndex(i) and i' is i with the two
    * qubits set to column pi[r]. */
  lemma EmbedTwoMonomialAction(g: Matrix, pi: seq<nat>, w: seq<Complex>, n: nat, q1: nat, q2: nat, v: seq<Complex>, i: nat)
    requires Monomial(g, pi, w) && q1 < n && q2 < n && q1 != q2 && |v| == Pow2(n) && i < Pow2(n)
    ensures Placed(i, q1, q2, pi[GateIndex(i, q1, q2)]) < Pow2(n)
    ensures MatVec(EmbedTwo(g, n, q1, q2), v)[i] ==
      Mul(w[GateIndex(i, q1, q2)], v[Placed(i, q1, q2, pi[GateIndex(i, q1, q2)])])
  {
    var r := GateIndex(i, q1, q2);
    var a := Placed(i, q1, q2, pi[r]);
    PlacedBits(i, q1, q2, pi[r], n);
    var row := EmbedTwo(g, n, q1, q2).cell[i];
    forall j | 0 <= j < Pow2(n) && j != a ensures row[j] == Zero {
      AgreeTwo(i, j, n, q1, q2);
    }
    AgreeTwo(i, a, n, q1, q2);
    assert row[a] == w[r];
    RowDotOnePoint(row, v, |v|, a);
  }

  /** The embedded CNOT flips the target bit where the control bit is set,
    * as Statevector's apply_cnot does. */
  lemma EmbeddedCnot(n: nat, c: nat, t: nat, v: seq<Complex>)
    requires c < n && t < n && c != t && |v| == Pow2(n)
    ensures MatVec(EmbedTwo(Cnot, n, c, t), v) == Statevectors.CnotOf(v, n, c, t)
  {
    var pi: seq<nat> := [0, 1, 3, 2];
    var w := [One, One, One, One];
    assert Monomial(Cnot, pi, w);
    var out := MatVec(EmbedTwo(Cnot, n, c, t), v);
    forall i | 0 <= i < |v| ensures out[i] == Statevectors.CnotOf(v, n, c, t)[i] {
      EmbedTwoMonomialAction(Cnot, pi, w, n, c, t, v, i);
      var a := Placed(i, c, t, pi[GateIndex(i, c, t)]);
      MulOne(v[a]);
      SetBitBits(i, c, Bit(i, c), n);
    }
  }

  /** Monomial description of the SWAP constant: row r holds a 1 in column
    * r with its two bits exchanged. */
  lemma SwapMonomial()
    ensures Monomial(Swap, [0, 2, 1, 3], [One, One, One, One])
  {
  }

  /** The column of the SWAP constant that row GateIndex(i) selects: the two
    * bits in exchanged order. */
  function SwapColumn(i: nat, q1: nat, q2: nat): (c: nat)
    ensures c < 4
  {
    2 * Bit(i, q2) + Bit(i, q1)
  }

  /** Index i with bits q1 and q2 exchanged. */
  function SwapPartner(i: nat, q1: nat, q2: nat): nat
  {
    if Bit(i, q1) == Bit(i, q2) then i else FlipBit(FlipBit(i, q1), q2)
  }

  lemma SwapBitsAgree(i: nat, q1: nat, q2: nat, n: nat)
    requires q1 < n && q2 < n && q1 != q2 && i < Pow2(n)
    ensures Placed(i, q1, q2, SwapColumn(i, q1, q2)) < Pow2(n) && SwapPartner(i, q1, q2) < Pow2(n)
    ensures forall p :: 0 <= p < n ==> Bit(Placed(i, q1, q2, SwapColumn(i, q1, q2)), p) == Bit(SwapPartner(i, q1, q2), p)
  {
    var b1, b2 := Bit(i, q1), Bit(i, q2);
    var c := SwapColumn(i, q1, q2);
    assert c / 2 == b2 && c % 2 == b1;
    FlipBitBound(i, q1, n);
    FlipBitBound(FlipBit(i, q1), q2, n);
    PlacedBits(i, q1, q2, c, n);
    forall p | 0 <= p < n ensures Bit(Placed(i, q1, q2, c), p) == Bit(SwapPartner(i, q1, q2), p) {
      if b1 != b2 {
        BitOfFlip(i, q1, p);
        BitOfFlip(FlipBit(i, q1), q2, p);
      }
    }
  }

  /** Column SwapColumn(i) of the SWAP constant, placed into index i, is i
    * with bits q1 and q2 exchanged. */
  lemma SwapPlaced(i: nat, q1: nat, q2: nat, n: nat)
    requires q1 < n && q2 < n && q1 != q2 && i < Pow2(n)
    ensures SwapPartner(i, q1, q2) < Pow2(n)
    ensures Placed(i, q1, q2, SwapColumn(i, q1, q2)) == SwapPartner(i, q1, q2)
  {
    SwapBitsAgree(i, q1, q2, n);
    SameBitsSame(Placed(i, q1, q2, SwapColumn(i, q1, q2)), SwapPartner(i, q1, q2), n);
  }

  /** The embedded SWAP exchanges bits q1 and q2 of every index: amplitudes
    * whose two bits agree stay, the others trade places. */
  lemma EmbeddedSwap(n: nat, q1: nat, q2: nat, v: seq<Complex>, i: nat)
    requires q1 < n && q2 < n && q1 != q2 && |v| == Pow2(n) && i < Pow2(n)
    ensures SwapPartner(i, q1, q2) < Pow2(n)
    ensures MatVec(EmbedTwo(Swap, n, q1, q2), v)[i] == v[SwapPartner(i, q1, q2)]
  {
    var pi: seq<nat> := [0, 2, 1, 3];
    var w := [One, One, One, One];
    SwapMonomial();
    EmbedTwoMonomialAction(Swap, pi, w, n, q1, q2, v, i);
    var b1, b2 := Bit(i, q1), Bit(i, q2);
    var r := GateIndex(i, q1, q2);
    assert r == 2 * b1 + b2;
    assert pi[r] == SwapColumn(i, q1, q2) by {
      if b1 == 0 && b2 == 0 {
      } else if b1 == 0 {
      } else if b2 == 0 {
      } else {
      }
    }
    SwapPlaced(i, q1, q2, n);
    MulOne(v[SwapPartner(i, q1, q2)]);
  }

  /** The embedded controlled phase multiplies exactly the amplitudes with
    * both bits set by the phase. */
  lemma EmbeddedControlledPhase(n: nat, q1: nat, q2: nat, phase: Complex, v: seq<Complex>, i: nat)
    requires q1 < n && q2 < n && q1 != q2 && |v| == Pow2(n) && i < Pow2(n)
    ensures MatVec(EmbedTwo(ControlledPhase(phase), n, q1, q2), v)[i] ==
      if Bit(i, q1) == 1 && Bit(i, q2) == 1 then Mul(phase, v[i]) else v[i]
  {
    var pi: seq<nat> := [0, 1, 2, 3];
    var w := [One, One, One, phase];
    assert Monomial(ControlledPhase(phase), pi, w);
    EmbedTwoMonomialAction(ControlledPhase(phase), pi, w, n, q1, q2, v, i);
    var a := Placed(i, q1, q2, pi[GateIndex(i, q1, q2)]);
    PlacedBits(i, q1, q2, GateIndex(i, q1, q2), n);
    SameBitsSame(a, i, n);
    MulOne(v[i]);
  }

  // ---------------------------------------------------------------------
  // The effect of one applyGate call

  /** applyGate(type, qubit, parameter): out_of_range for a bad qubit,
    * invalid_argument for a type without a 2×2 matrix, otherwise the new
    * amplitudes. */
  function ApplySingle(n: nat, v: seq<Complex>, t: GateType, qubit: int, parameter: real, num: Numerics): (r: Result<seq<Complex>>)
    requires |v| == Pow2(n)
    ensures r.Err? <==> !(0 <= qubit < n) || SingleQubitMatrix(t, parameter, num).Err?
    ensures r.Err? && !(0 <= qubit < n) ==> r.error == OutOfRange
    ensures r.Err? && 0 <= qubit < n ==> r.error == InvalidArgument
    ensures r.Ok? ==> |r.value| == |v|
  {
    if qubit < 0 || qubit >= n then Err(OutOfRange)
    else match SingleQubitMatrix(t, parameter, num)
      case Err(e) => Err(e)
      case Ok(g) => Ok(MatVec(EmbedSingle(g, n, qubit), v))
  }

  /** applyGate(type, control, target, parameter). */
  function ApplyTwo(n: nat, v: seq<Complex>, t: GateType, control: int, target: int, parameter: real, num: Numerics): (r: Result<seq<Complex>>)
    requires |v| == Pow2(n)
    ensures r.Err? <==> !(0 <= control < n && 0 <= target < n) || control == target || TwoQubitMatrix(t, parameter, num).Err?
    ensures r.Err? && !(0 <= control < n && 0 <= target < n) ==> r.error == OutOfRange
    ensures r.Err? && 0 <= control < n && 0 <= target < n ==> r.error == InvalidArgument
    ensures r.Ok? ==> |r.value| == |v|
  {
    if control < 0 || control >= n || target < 0 || target >= n then Err(OutOfRange)
    else if control == target then Err(InvalidArgument)
    else match TwoQubitMatrix(t, parameter, num)
      case Err(e) => Err(e)
      case Ok(g) => Ok(MatVec(EmbedTwo(g, n, control, target), v))
  }

  /** Σ |v_k|² over k < count with bit q of k equal to b. */
  function MaskedNorm(v: seq<Complex>, q: nat, b: nat, count: nat): (r: real)
    requires count <= |v|
    ensures r >= 0.0
  {
    if count == 0 then 0.0
    else MaskedNorm(v, q, b, count - 1) + (if Bit(count - 1, q) == b then NormSq(v[count - 1]) else 0.0)
  }

  /** Σ v_k over k < count with bit q of k equal to b. */
  function MaskedSum(v: seq<Complex>, q: nat, b: nat, count: nat): Complex
    requires count <= |v|
  {
    if count == 0 then Zero
    else Add(MaskedSum(v, q, b, count - 1), if Bit(count - 1, q) == b then v[count - 1] else Zero)
  }

  /** Σ |v_k|² over k < count. */
  function NormPrefix(v: seq<Complex>, count: nat): (r: real)
    requires count <= |v|
    ensures r >= 0.0
  {
    if count == 0 then 0.0 else NormPrefix(v, count - 1) + NormSq(v[count - 1])
  }

  /** Σ v_k over k < count. */
  function SumPrefix(v: seq<Complex>, count: nat): Complex
    requires count <= |v|
  {
    if count == 0 then Zero else Add(SumPrefix(v, count - 1), v[count - 1])
  }

  function QubitProbability(v: seq<Complex>, n: int, qubit: int, value: int): real
  {
    if qubit < 0 || qubit >= n || (value != 0 && value != 1) then 0.0
    else MaskedNorm(v, qubit, value, |v|)
  }

  function QubitAmplitude(v: seq<Complex>, n: int, qubit: int, value: int): Complex
  {
    if qubit < 0 || qubit >= n || (value != 0 && value != 1) then Zero
    else MaskedSum(v, qubit, value, |v|)
  }

  /** The probabilities of 0 and 1 on one qubit partition the squared norm. */
  lemma {:induction false} MaskedNormSplit(v: seq<Complex>, q: nat, count: nat)
    requires count <= |v|
    ensures MaskedNorm(v, q, 0, count) + MaskedNorm(v, q, 1, count) == NormPrefix(v, count)
  {
    if count > 0 {
      MaskedNormSplit(v, q, count - 1);
    }
  }

  lemma {:induction false} MaskedSumSplit(v: seq<Complex>, q: nat, count: nat)
    requires count <= |v|
    ensures Add(MaskedSum(v, q, 0, count), MaskedSum(v, q, 1, count)) == SumPrefix(v, count)
  {
    if count > 0 {
      MaskedSumSplit(v, q, count - 1);
    }
  }

  /** getQubitProbability: 0 for a bad qubit or value; P(q=0) + P(q=1) is
    * the squared norm of the state; both are non-negative. */
  lemma QubitProbabilityLaws(v: seq<Complex>, n: int, qubit: int, value: int)
    ensures QubitProbability(v, n, qubit, value) >= 0.0
    ensures !(0 <= qubit < n) || (value != 0 && value != 1) ==> QubitProbability(v, n, qubit, value) == 0.0
    ensures 0 <= qubit < n ==>
      QubitProbability(v, n, qubit, 0) + QubitProbability(v, n, qubit, 1) == NormPrefix(v, |v|)
  {
    if 0 <= qubit < n {
      MaskedNormSplit(v, qubit, |v|);
    }
  }

  /** getQubitAmplitude: Zero for a bad qubit or value; the two amplitudes
    * of a qubit add up to the sum of all amplitudes. */
  lemma QubitAmplitudeLaws(v: seq<Complex>, n: int, qubit: int, value: int)
    ensures !(0 <= qubit < n) || (value != 0 && value != 1) ==> QubitAmplitude(v, n, qubit, value) == Zero
    ensures 0 <= qubit < n ==>
      Add(QubitAmplitude(v, n, qubit, 0), QubitAmplitude(v, n, qubit, 1)) == SumPrefix(v, |v|)
  {
    if 0 <= qubit < n {
      MaskedSumSplit(v, qubit, |v|);
    }
  }

  /** A Z gate changes no qubit's probabilities. */
  lemma {:induction false} MaskedNormPauliZ(v: seq<Complex>, q: nat, p: nat, b: nat, count: nat)
    requires count <= |v|
    ensures MaskedNorm(Statevectors.PauliZOf(v, q), p, b, count) == MaskedNorm(v, p, b, count)
  {
    if count > 0 {
      MaskedNormPauliZ(v, q, p, b, count - 1);
      var a := v[count - 1];
      assert NormSq(Neg(a)) == NormSq(a);
    }
  }

  /** The state QuantumState(n) and reset() produce: 1 at index 0. */
  function InitialState(n: nat): (v: seq<Complex>)
    ensures |v| == Pow2(n)
  {
    seq(Pow2(n), k => if k == 0 then One else Zero)
  }

  lemma {:induction false} InitialMasked(n: nat, q: nat, count: nat)
    requires 1 <= count <= Pow2(n)
    ensures MaskedNorm(InitialState(n), q, 0, count) == NormSq(One)
    ensures MaskedNorm(InitialState(n), q, 1, count) == 0.0
  {
    if count == 1 {
      HighBitClear(0, q);
    } else {
      InitialMasked(n, q, count - 1);
    }
  }

  /** In the initial state every qubit reads 0 with certainty. */
  lemma InitialProbabilities(n: nat, q: nat)
    requires q < n
    ensures QubitProbability(InitialState(n), n, q, 0) == 1.0
    ensures QubitProbability(InitialState(n), n, q, 1) == 0.0
  {
    InitialMasked(n, q, Pow2(n));
    assert NormSq(One) == 1.0;
  }

  // ---------------------------------------------------------------------
  // QuantumState

  class QuantumState {
    var numQubits: nat
    var amplitudes: seq<Complex>

    ghost predicate Valid()
      reads this
    {
      numQubits >= 1 && |amplitudes| == Pow2(numQubits)
    }

    /** QuantumState(n) for n > 0; see NewQuantumState for n <= 0. */
    constructor (numQubits: int)
      requires numQubits > 0
      ensures Valid() && this.numQubits == numQubits && amplitudes == InitialState(numQubits)
    {
      this.numQubits := numQubits;
      amplitudes := InitialState(numQubits);
    }

    method Reset()
      requires Valid()
      modifies this
      ensures Valid() && numQubits == old(numQubits) && amplitudes == InitialState(numQubits)
    {
      amplitudes := InitialState(numQubits);
    }

    /** createSingleQubitGate: the 2×2 matrix, then the 2^n×2^n matrix
      * filled cell by cell (every cell of the identity it starts from is
      * overwritten). */
    method CreateSingleQubitGate(t: GateType, qubit: nat, parameter: real, num: Numerics) returns (r: Result<Matrix>)
      requires Valid() && qubit < numQubits
      ensures r.Err? <==> SingleQubitMatrix(t, parameter, num).Err?
      ensures r.Err? ==> r.error == InvalidArgument
      ensures r.Ok? ==> r.value == EmbedSingle(SingleQubitMatrix(t, parameter, num).value, numQubits, qubit)
    {
      var gate := SingleQubitMatrix(t, parameter, num);
      if gate.Err? {
        return Err(gate.error);
      }
      var g := gate.value;
      var dim := Pow2(numQubits);
      var full := new Complex[dim, dim]((x, y) => if x == y then One else Zero);
      var i := 0;
      while i < dim
        invariant 0 <= i <= dim
        invariant forall x, y :: 0 <= x < i && 0 <= y < dim ==> full[x, y] == SingleCell(g, numQubits, qubit, x, y)
      {
        FillSingleRow(full, g, numQubits, qubit, i);
        i := i + 1;
      }
      var m := EmbedSingle(g, numQubits, qubit);
      var cells := Cells(full);
      forall x | 0 <= x < dim ensures cells[x] == m.cell[x] {
        assert forall y :: 0 <= y < dim ==> cells[x][y] == m.cell[x][y];
      }
      r := Ok(Matrix(dim, dim, cells));
    }

    /** createTwoQubitGate, filled the same way with the 4×4 matrix. */
    method CreateTwoQubitGate(t: GateType, q1: nat, q2: nat, parameter: real, num: Numerics) returns (r: Result<Matrix>)
      requires Valid() && q1 < numQubits && q2 < numQubits
      ensures r.Err? <==> TwoQubitMatrix(t, parameter, num).Err?
      ensures r.Err? ==> r.error == InvalidArgument
      ensures r.Ok? ==> r.value == EmbedTwo(TwoQubitMatrix(t, parameter, num).value, numQubits, q1, q2)
    {
      var gate := TwoQubitMatrix(t, parameter, num);
      if gate.Err? {
        return Err(gate.error);
      }
      var g := gate.value;
      var dim := Pow2(numQubits);
      var full := new Complex[dim, dim]((x, y) => if x == y then One else Zero);
      var i := 0;
      while i < dim
        invariant 0 <= i <= dim
        invariant forall x, y :: 0 <= x < i && 0 <= y < dim ==> full[x, y] == TwoCell(g, numQubits, q1, q2, x, y)
      {
        FillTwoRow(full, g, numQubits, q1, q2, i);
        i := i + 1;
      }
      var m := EmbedTwo(g, numQubits, q1, q2);
      var cells := Cells(full);
      forall x | 0 <= x < dim ensures cells[x] == m.cell[x] {
        assert forall y :: 0 <= y < dim ==> cells[x][y] == m.cell[x][y];
      }
      r := Ok(Matrix(dim, dim, cells));
    }

    /** applyGate(type, qubit, parameter): on success the amplitudes are
      * G·ψ; on a throw nothing changes. */
    method ApplyGate(t: GateType, qubit: int, parameter: real, num: Numerics) returns (s: Status)
      requires Valid()
      modifies this
      ensures Valid() && numQubits == old(numQubits)
      ensures match ApplySingle(old(numQubits), old(amplitudes), t, qubit, parameter, num)
        case Ok(w) => s == Done && amplitudes == w
        case Err(e) => s == Failed(e) && amplitudes == old(amplitudes)
    {
      if qubit < 0 || qubit >= numQubits {
        return Failed(OutOfRange);
      }
      var gate := CreateSingleQubitGate(t, qubit, parameter, num);
      if gate.Err? {
        return Failed(gate.error);
      }
      amplitudes := MatVec(gate.value, amplitudes);
      s := Done;
    }

    /** applyGate(type, control, target, parameter). */
    method ApplyTwoQubitGate(t: GateType, control: int, target: int, parameter: real, num: Numerics) returns (s: Status)
      requires Valid()
      modifies this
      ensures Valid() && numQubits == old(numQubits)
      ensures match ApplyTwo(old(numQubits), old(amplitudes), t, control, target, parameter, num)
        case Ok(w) => s == Done && amplitudes == w
        case Err(e) => s == Failed(e) && amplitudes == old(amplitudes)
    {
      if control < 0 || control >= numQubits || target < 0 || target >= numQubits {
        return Failed(OutOfRange);
      }
      if control == target {
        return Failed(InvalidArgument);
      }
      var gate := CreateTwoQubitGate(t, control, target, parameter, num);
      if gate.Err? {
        return Failed(gate.error);
      }
      amplitudes := MatVec(gate.value, amplitudes);
      s := Done;
    }

    /** getQubitProbability: the loop over all basis indices. */
    method GetQubitProbability(qubit: int, value: int) returns (p: real)
      requires Valid()
      ensures p == QubitProbability(amplitudes, numQubits, qubit, value)
    {
      if qubit < 0 || qubit >= numQubits || (value != 0 && value != 1) {
        return 0.0;
      }
      p := 0.0;
      var i := 0;
      while i < |amplitudes|
        invariant 0 <= i <= |amplitudes|
        invariant p == MaskedNorm(amplitudes, qubit, value, i)
      {
        if Bit(i, qubit) == value {
          p := p + NormSq(amplitudes[i]);
        }
        i := i + 1;
      }
    }

    /** getQubitAmplitude: the sum of the amplitudes with the qubit at the
      * given value. */
    method GetQubitAmplitude(qubit: int, value: int) returns (a: Complex)
      requires Valid()
      ensures a == QubitAmplitude(amplitudes, numQubits, qubit, value)
    {
      if qubit < 0 || qubit >= numQubits || (value != 0 && value != 1) {
        return Zero;
      }
      a := Zero;
      var i := 0;
      while i < |amplitudes|
        invariant 0 <= i <= |amplitudes|
        invariant a == MaskedSum(amplitudes, qubit, value, i)
      {
        if Bit(i, qubit) == value {
          a := Add(a, amplitudes[i]);
        } else {
          a := Add(a, Zero);
        }
        i := i + 1;
      }
    }
  }

  /** One row of createSingleQubitGate's double loop. */
  method FillSingleRow(full: array2<Complex>, g: Matrix, n: nat, q: nat, i: nat)
    requires IsGate2(g) && q < n
    requires full.Length0 == Pow2(n) && full.Length1 == Pow2(n) && i < Pow2(n)
    modifies full
    ensures forall x, y :: 0 <= x < full.Length0 && 0 <= y < full.Length1 ==>
      full[x, y] == if x == i then SingleCell(g, n, q, x, y) else old(full[x, y])
  {
    var j := 0;
    while j < full.Length1
      invariant 0 <= j <= full.Length1
      invariant forall x, y :: 0 <= x < full.Length0 && 0 <= y < full.Length1 ==>
        full[x, y] == if x == i && y < j then SingleCell(g, n, q, x, y) else old(full[x, y])
    {
      var otherQubitsMatch := OtherQubitsMatch(i, j, n, q, q);
      if otherQubitsMatch {
        full[i, j] := g.cell[Bit(i, q)][Bit(j, q)];
      } else {
        full[i, j] := Zero;
      }
      j := j + 1;
    }
  }

  /** One row of createTwoQubitGate's double loop. */
  method FillTwoRow(full: array2<Complex>, g: Matrix, n: nat, q1: nat, q2: nat, i: nat)
    requires IsGate4(g) && q1 < n && q2 < n
    requires full.Length0 == Pow2(n) && full.Length1 == Pow2(n) && i < Pow2(n)
    modifies full
    ensures forall x, y :: 0 <= x < full.Length0 && 0 <= y < full.Length1 ==>
      full[x, y] == if x == i then TwoCell(g, n, q1, q2, x, y) else old(full[x, y])
  {
    var j := 0;
    while j < full.Length1
      invariant 0 <= j <= full.Length1
      invariant forall x, y :: 0 <= x < full.Length0 && 0 <= y < full.Length1 ==>
        full[x, y] == if x == i && y < j then TwoCell(g, n, q1, q2, x, y) else old(full[x, y])
    {
      var otherQubitsMatch := OtherQubitsMatch(i, j, n, q1, q2);
      if otherQubitsMatch {
        var gateRow := Bit(i, q1) * 2 + Bit(i, q2);
        var gateCol := Bit(j, q1) * 2 + Bit(j, q2);
        full[i, j] := g.cell[gateRow][gateCol];
      } else {
        full[i, j] := Zero;
      }
      j := j + 1;
    }
  }

  /** The innermost loop: compare bit k of i and j for every k outside the
    * gate's qubits, stopping at the first difference. */
  method OtherQubitsMatch(i: nat, j: nat, n: nat, q1: nat, q2: nat) returns (matches: bool)
    ensures matches == AgreeOutside(i, j, n, q1, q2)
  {
    matches := true;
    var k := 0;
    while k < n
      invariant 0 <= k <= n
      invariant forall p :: 0 <= p < k && p != q1 && p != q2 ==> Bit(i, p) == Bit(j, p)
    {
      if k != q1 && k != q2 {
        if Bit(i, k) != Bit(j, k) {
          matches := false;
          break;
        }
      }
      k := k + 1;
    }
  }

  /** QuantumState(n): invalid_argument unless n > 0. */
  method NewQuantumState(numQubits: int) returns (r: Result<QuantumState>)
    ensures r.Err? <==> numQubits <= 0
    ensures r.Err? ==> r.error == InvalidArgument
    ensures r.Ok? ==> fresh(r.value) && r.value.Valid() && r.value.numQubits == numQubits
    ensures r.Ok? ==> r.value.amplitudes == InitialState(numQubits)
  {
    if numQubits <= 0 {
      return Err(InvalidArgument);
    }
    var s := new QuantumState(numQubits);
    return Ok(s);
  }

  /** applyGate with X, Y, Z or CNOT does to the amplitudes exactly what
    * Statevector's apply_pauli_x, apply_pauli_y, apply_pauli_z and
    * apply_cnot do. */
  lemma ApplyAgreesWithStatevector(n: nat, v: seq<Complex>, q: nat, c: nat, parameter: real, num: Numerics)
    requires q < n && c < n && q != c && |v| == Pow2(n)
    ensures ApplySingle(n, v, X, q, parameter, num) == Ok(Statevectors.PauliXOf(v, n, q))
    ensures ApplySingle(n, v, Y, q, parameter, num) == Ok(Statevectors.PauliYOf(v, n, q))
    ensures ApplySingle(n, v, Z, q, parameter, num) == Ok(Statevectors.PauliZOf(v, q))
    ensures ApplyTwo(n, v, CNOT, c, q, parameter, num) == Ok(Statevectors.CnotOf(v, n, c, q))
  {
    EmbeddedPauliX(n, q, v);
    EmbeddedPauliY(n, q, v);
    EmbeddedPauliZ(n, q, v);
    EmbeddedCnot(n, c, q, v);
  }

  // ---------------------------------------------------------------------
  // QuantumCircuit

  /** A stored gate tuple (type, qubit1, qubit2, parameter); qubit2 is -1
    * for a single-qubit gate. */
  datatype GateRecord = GateRecord(gateType: GateType, qubit1: int, qubit2: int, parameter: real)

  /** What executeStep does to the state with one stored gate. */
  function StepOutcome(n: nat, v: seq<Complex>, g: GateRecord, num: Numerics): (r: Result<seq<Complex>>)
    requires |v| == Pow2(n)
    ensures r.Ok? ==> |r.value| == |v|
  {
    if g.qubit2 == -1 then ApplySingle(n, v, g.gateType, g.qubit1, g.parameter, num)
    else ApplyTwo(n, v, g.gateType, g.qubit1, g.qubit2, g.parameter, num)
  }

  /** The two leading characters of each gate's description. */
  function Tag(t: GateType): string
  {
    match t
    case H => "H(" case X => "X(" case Y => "Y(" case Z => "Z("
    case CNOT => "CN" case SWAP => "SW" case PHASE => "PH"
    case RX => "RX" case RY => "RY" case RZ => "RZ" case CP => "CP"
    case MEASURE => ""
  }

  /** The text getGateDescription builds for one gate; `fixed3` is the
    * `std::fixed << std::setprecision(3)` rendering of the parameter. The
    * switch has no case for MEASURE, so its text is empty. */
  function Describe(g: GateRecord, fixed3: real -> string): (s: string)
    ensures g.gateType != MEASURE ==> |s| >= 2 && s[..2] == Tag(g.gateType)
    ensures g.gateType == MEASURE ==> s == ""
  {
    var a := IntToString(g.qubit1);
    var b := IntToString(g.qubit2);
    var p := fixed3(g.parameter);
    match g.gateType
    case H => "H(" + a + ")"
    case X => "X(" + a + ")"
    case Y => "Y(" + a + ")"
    case Z => "Z(" + a + ")"
    case CNOT => "CNOT(" + a + ", " + b + ")"
    case SWAP => "SWAP(" + a + ", " + b + ")"
    case PHASE => "PHASE(" + a + ", " + p + ")"
    case RX => "RX(" + a + ", " + p + ")"
    case RY => "RY(" + a + ", " + p + ")"
    case RZ => "RZ(" + a + ", " + p + ")"
    case CP => "CP(" + a + ", " + b + ", " + p + ")"
    case MEASURE => ""
  }

  lemma IntToStringNoComma(i: int)
    ensures forall k :: 0 <= k < |IntToString(i)| ==> IntToString(i)[k] != ','
  {
    var s := IntToString(i);
    forall k | 0 <= k < |s| ensures s[k] != ',' {
      if i < 0 && k > 0 {
        assert s[k] == s[1..][k - 1];
      }
    }
  }

  /** The position of the first comma of s, or |s| when it has none. */
  function FirstComma(s: string): (k: nat)
    ensures k <= |s|
  {
    if s == [] then 0 else if s[0] == ',' then 0 else 1 + FirstComma(s[1..])
  }

  lemma {:induction false} FirstCommaAfter(x: string, y: string)
    requires forall k :: 0 <= k < |x| ==> x[k] != ','
    requires |y| > 0 && y[0] == ','
    ensures FirstComma(x + y) == |x|
  {
    if x != [] {
      assert (x + y)[1..] == x[1..] + y;
      FirstCommaAfter(x[1..], y);
    }
  }

  /** Two texts that both start with a comma-free part followed by a comma
    * split at the same place. */
  lemma SplitAtComma(x: string, y: string, x': string, y': string)
    requires forall k :: 0 <= k < |x| ==> x[k] != ','
    requires forall k :: 0 <= k < |x'| ==> x'[k] != ','
    requires |y| > 0 && |y'| > 0 && y[0] == ',' && y'[0] == ','
    requires x + y == x' + y'
    ensures x == x' && y == y'
  {
    FirstCommaAfter(x, y);
    FirstCommaAfter(x', y');
    assert x == (x + y)[..|x|];
    assert x' == (x' + y')[..|x'|];
    assert y == (x + y)[|x|..];
    assert y' == (x' + y')[|x'|..];
  }

  /** Stripping a common prefix. */
  lemma DropPrefix(p: string, y: string, y': string)
    requires p + y == p + y'
    ensures y == y'
  {
    assert y == (p + y)[|p|..];
    assert y' == (p + y')[|p|..];
  }

  /** Stripping a common suffix. */
  lemma DropSuffix(y: string, y': string, t: string)
    requires y + t == y' + t
    ensures y == y'
  {
    assert y == (y + t)[..|y|];
    assert y' == (y' + t)[..|y'|];
  }

  /** A description names its gate: equal descriptions come from gates of
    * the same type on the same qubits (the second qubit where one is
    * printed). MEASURE, which prints nothing, is the exception. */
  lemma DescriptionDeterminesGate(g: GateRecord, h: GateRecord, fixed3: real -> string)
    requires g.gateType != MEASURE
    requires Describe(g, fixed3) == Describe(h, fixed3)
    ensures g.gateType == h.gateType && g.qubit1 == h.qubit1
    ensures g.gateType in {CNOT, SWAP, CP} ==> g.qubit2 == h.qubit2
  {
    var s := Describe(g, fixed3);
    assert s[..2] == Tag(g.gateType);
    assert h.gateType != MEASURE;
    assert Describe(h, fixed3)[..2] == Tag(h.gateType);
    var a, a' := IntToString(g.qubit1), IntToString(h.qubit1);
    var b, b' := IntToString(g.qubit2), IntToString(h.qubit2);
    var p, p' := fixed3(g.parameter), fixed3(h.parameter);
    IntToStringNoComma(g.qubit1);
    IntToStringNoComma(h.qubit1);
    IntToStringNoComma(g.qubit2);
    IntToStringNoComma(h.qubit2);
    var pre := match g.gateType
      case H => "H(" case X => "X(" case Y => "Y(" case Z => "Z("
      case CNOT => "CNOT(" case SWAP => "SWAP(" case PHASE => "PHASE("
      case RX => "RX(" case RY => "RY(" case RZ => "RZ(" case CP => "CP("
      case MEASURE => "";
    match g.gateType
    case H => OneQubitText(pre, a, a'); IntToStringInjective(g.qubit1, h.qubit1);
    case X => OneQubitText(pre, a, a'); IntToStringInjective(g.qubit1, h.qubit1);
    case Y => OneQubitText(pre, a, a'); IntToStringInjective(g.qubit1, h.qubit1);
    case Z => OneQubitText(pre, a, a'); IntToStringInjective(g.qubit1, h.qubit1);
    case PHASE => ParameterText(pre, a, p, a', p'); IntToStringInjective(g.qubit1, h.qubit1);
    case RX => ParameterText(pre, a, p, a', p'); IntToStringInjective(g.qubit1, h.qubit1);
    case RY => ParameterText(pre, a, p, a', p'); IntToStringInjective(g.qubit1, h.qubit1);
    case RZ => ParameterText(pre, a, p, a', p'); IntToStringInjective(g.qubit1, h.qubit1);
    case CNOT =>
      TwoQubitText(pre, a, b, a', b');
      IntToStringInjective(g.qubit1, h.qubit1);
      IntToStringInjective(g.qubit2, h.qubit2);
    case SWAP =>
      TwoQubitText(pre, a, b, a', b');
      IntToStringInjective(g.qubit1, h.qubit1);
      IntToStringInjective(g.qubit2, h.qubit2);
    case CP =>
      PhaseText(pre, a, b, p, a', b', p');
      IntToStringInjective(g.qubit1, h.qubit1);
      IntToStringInjective(g.qubit2, h.qubit2);
  }

  lemma OneQubitText(pre: string, a: string, a': string)
    requires pre + a + ")" == pre + a' + ")"
    ensures a == a'
  {
    assert pre + a + ")" == pre + (a + ")");
    assert pre + a' + ")" == pre + (a' + ")");
    DropPrefix(pre, a + ")", a' + ")");
    DropSuffix(a, a', ")");
  }

  lemma ParameterText(pre: string, a: string, p: string, a': string, p': string)
    requires forall k :: 0 <= k < |a| ==> a[k] != ','
    requires forall k :: 0 <= k < |a'| ==> a'[k] != ','
    requires pre + a + ", " + p + ")" == pre + a' + ", " + p' + ")"
    ensures a == a'
  {
    assert pre + a + ", " + p + ")" == pre + (a + (", " + p + ")"));
    assert pre + a' + ", " + p' + ")" == pre + (a' + (", " + p' + ")"));
    DropPrefix(pre, a + (", " + p + ")"), a' + (", " + p' + ")"));
    SplitAtComma(a, ", " + p + ")", a', ", " + p' + ")");
  }

  lemma TwoQubitText(pre: string, a: string, b: string, a': string, b': string)
    requires forall k :: 0 <= k < |a| ==> a[k] != ','
    requires forall k :: 0 <= k < |a'| ==> a'[k] != ','
    requires pre + a + ", " + b + ")" == pre + a' + ", " + b' + ")"
    ensures a == a' && b == b'
  {
    assert pre + a + ", " + b + ")" == pre + (a + (", " + b + ")"));
    assert pre + a' + ", " + b' + ")" == pre + (a' + (", " + b' + ")"));
    DropPrefix(pre, a + (", " + b + ")"), a' + (", " + b' + ")"));
    SplitAtComma(a, ", " + b + ")", a', ", " + b' + ")");
    assert ", " + b + ")" == ", " + (b + ")");
    assert ", " + b' + ")" == ", " + (b' + ")");
    DropPrefix(", ", b + ")", b' + ")");
    DropSuffix(b, b', ")");
  }

  lemma PhaseText(pre: string, a: string, b: string, p: string, a': string, b': string, p': string)
    requires forall k :: 0 <= k < |a| ==> a[k] != ','
    requires forall k :: 0 <= k < |a'| ==> a'[k] != ','
    requires forall k :: 0 <= k < |b| ==> b[k] != ','
    requires forall k :: 0 <= k < |b'| ==> b'[k] != ','
    requires pre + a + ", " + b + ", " + p + ")" == pre + a' + ", " + b' + ", " + p' + ")"
    ensures a == a' && b == b'
  {
    var rest, rest' := ", " + p + ")", ", " + p' + ")";
    assert pre + a + ", " + b + ", " + p + ")" == pre + (a + (", " + (b + rest)));
    assert pre + a' + ", " + b' + ", " + p' + ")" == pre + (a' + (", " + (b' + rest')));
    DropPrefix(pre, a + (", " + (b + rest)), a' + (", " + (b' + rest')));
    SplitAtComma(a, ", " + (b + rest), a', ", " + (b' + rest'));
    DropPrefix(", ", b + rest, b' + rest');
    SplitAtComma(b, rest, b', rest');
  }

  class QuantumCircuit {
    var numQubits: int
    var gates: seq<GateRecord>
    var currentStep: int

    ghost predicate Valid()
      reads this
    {
      numQubits >= 1 && 0 <= currentStep <= |gates|
    }

    /** QuantumCircuit(n) for n > 0; see NewQuantumCircuit for n <= 0. */
    constructor (numQubits: int)
      requires numQubits > 0
      ensures Valid() && this.numQubits == numQubits && gates == [] && currentStep == 0
    {
      this.numQubits := numQubits;
      gates := [];
      currentStep := 0;
    }

    /** addGate(type, qubit, parameter): stored with second qubit -1,
      * without any check. */
    method AddGate(t: GateType, qubit: int, parameter: real)
      requires Valid()
      modifies this
      ensures Valid() && numQubits == old(numQubits) && currentStep == old(currentStep)
      ensures gates == old(gates) + [GateRecord(t, qubit, -1, parameter)]
    {
      gates := gates + [GateRecord(t, qubit, -1, parameter)];
    }

    /** addGate(type, control, target, parameter), without any check. */
    method AddTwoQubitGate(t: GateType, control: int, target: int, parameter: real)
      requires Valid()
      modifies this
      ensures Valid() && numQubits == old(numQubits) && currentStep == old(currentStep)
      ensures gates == old(gates) + [GateRecord(t, control, target, parameter)]
    {
      gates := gates + [GateRecord(t, control, target, parameter)];
    }

    /** executeStep: false at the end of the list; otherwise the gate at the
      * cursor is applied (a stored second qubit of -1 selects the
      * single-qubit overload) and the cursor advances. A throw leaves the
      * cursor and the state as they were. */
    method ExecuteStep(state: QuantumState, num: Numerics) returns (r: Result<bool>)
      requires Valid() && state.Valid()
      modifies this, state
      ensures Valid() && state.Valid()
      ensures gates == old(gates) && numQubits == old(numQubits) && state.numQubits == old(state.numQubits)
      ensures old(currentStep) >= |gates| ==>
        r == Ok(false) && currentStep == old(currentStep) && state.amplitudes == old(state.amplitudes)
      ensures old(currentStep) < |gates| ==>
        match StepOutcome(state.numQubits, old(state.amplitudes), gates[old(currentStep)], num)
        case Ok(w) => r == Ok(true) && currentStep == old(currentStep) + 1 && state.amplitudes == w
        case Err(e) => r == Err(e) && currentStep == old(currentStep) && state.amplitudes == old(state.amplitudes)
    {
      if currentStep >= |gates| {
        return Ok(false);
      }
      var gate := gates[currentStep];
      var s: Status;
      if gate.qubit2 == -1 {
        s := state.ApplyGate(gate.gateType, gate.qubit1, gate.parameter, num);
      } else {
        s := state.ApplyTwoQubitGate(gate.gateType, gate.qubit1, gate.qubit2, gate.parameter, num);
      }
      if s.Failed? {
        return Err(s.error);
      }
      currentStep := currentStep + 1;
      r := Ok(true);
    }

    /** reset(): only the cursor goes back to 0; the gate list is kept. */
    method Reset()
      requires Valid()
      modifies this
      ensures Valid() && currentStep == 0 && gates == old(gates) && numQubits == old(numQubits)
    {
      currentStep := 0;
    }

    /** getGateDescription: "Invalid step" exactly for a step outside the
      * list. */
    function GetGateDescription(step: int, fixed3: real -> string): (s: string)
      reads this
      ensures s == "Invalid step" <==> !(0 <= step < |gates|)
      ensures 0 <= step < |gates| && gates[step].gateType != MEASURE ==> |s| >= 2 && s[..2] == Tag(gates[step].gateType)
    {
      if step < 0 || step >= |gates| then "Invalid step"
      else
        var d := Describe(gates[step], fixed3);
        assert d != "Invalid step" by {
          if gates[step].gateType != MEASURE {
            assert d[..2] == Tag(gates[step].gateType);
            assert "Invalid step"[..2] == "In";
          }
        }
        d
    }
  }

  /** QuantumCircuit(n): invalid_argument unless n > 0. */
  method NewQuantumCircuit(numQubits: int) returns (r: Result<QuantumCircuit>)
    ensures r.Err? <==> numQubits <= 0
    ensures r.Err? ==> r.error == InvalidArgument
    ensures r.Ok? ==> fresh(r.value) && r.value.Valid() && r.value.numQubits == numQubits
    ensures r.Ok? ==> r.value.gates == [] && r.value.currentStep == 0
  {
    if numQubits <= 0 {
      return Err(InvalidArgument);
    }
    var c := new QuantumCircuit(numQubits);
    return Ok(c);
  }
}
