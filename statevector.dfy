/** The state-vector simulator of libomniq-core/src/common/Statevector.cpp,
  * restricted to what is exact: construction, the permutation and sign
  * gates X, Y, Z and CNOT, the tensor product and the Z expectation. */
module Statevectors {
  import opened Wrappers
  import opened Bits
  import opened ComplexNumbers

  /** The check `size != 0 && (size & (size - 1)) == 0`. */
  predicate IsPow2(size: nat)
  {
    size == 1 || (size >= 2 && size % 2 == 0 && IsPow2(size / 2))
  }

  /** log2 of a power of two: the qubit count of an amplitude list. */
  function Log2(size: nat): nat
    requires IsPow2(size)
  {
    if size == 1 then 0 else Log2(size / 2) + 1
  }

  /** The power-of-two check accepts exactly the sizes 2^n, and log2 finds n. */
  lemma {:induction false} Log2Pow2(size: nat)
    requires IsPow2(size)
    ensures Pow2(Log2(size)) == size
  {
    if size != 1 {
      Log2Pow2(size / 2);
    }
  }

  lemma {:induction false} Pow2IsPow2(n: nat)
    ensures IsPow2(Pow2(n)) && Log2(Pow2(n)) == n
  {
    if n > 0 {
      Pow2IsPow2(n - 1);
      assert Pow2(n) / 2 == Pow2(n - 1);
    }
  }

  lemma {:induction false} Pow2Add(a: nat, b: nat)
    ensures Pow2(a + b) == Pow2(a) * Pow2(b)
  {
    if a > 0 {
      Pow2Add(a - 1, b);
      assert Pow2(a + b) == 2 * Pow2(a - 1 + b);
    }
  }

  /** The amplitudes of Statevector(n): 1 at index 0 when n > 0, 0 elsewhere. */
  function InitialAmplitudes(n: nat): (a: seq<Complex>)
    ensures |a| == Pow2(n)
  {
    seq(Pow2(n), k => if k == 0 && n > 0 then One else Zero)
  }

  /** The partner of index k for qubit q: k with bit q inverted. */
  function Partner(k: nat, n: nat, q: nat): (j: nat)
    requires k < Pow2(n) && q < n
    ensures j < Pow2(n) && j == FlipBit(k, q)
  {
    FlipBitBound(k, q, n);
    FlipBit(k, q)
  }

  /** Pauli X on qubit q: amplitude k moves to the index with bit q flipped. */
  function PauliXOf(a: seq<Complex>, n: nat, q: nat): (r: seq<Complex>)
    requires |a| == Pow2(n) && q < n
    ensures |r| == |a|
  {
    seq(|a|, k requires 0 <= k < |a| => a[Partner(k, n, q)])
  }

  /** Pauli Y: the pair (a_i, a_j), bit q clear in i, becomes (−i·a_j, i·a_i). */
  function PauliYOf(a: seq<Complex>, n: nat, q: nat): (r: seq<Complex>)
    requires |a| == Pow2(n) && q < n
    ensures |r| == |a|
  {
    seq(|a|, k requires 0 <= k < |a| =>
      if Bit(k, q) == 0 then Mul(Neg(I), a[Partner(k, n, q)]) else Mul(I, a[Partner(k, n, q)]))
  }

  /** Pauli Z: the amplitudes with bit q set change sign. */
  function PauliZOf(a: seq<Complex>, q: nat): (r: seq<Complex>)
    ensures |r| == |a|
  {
    seq(|a|, k requires 0 <= k < |a| => if Bit(k, q) == 1 then Neg(a[k]) else a[k])
  }

  /** CNOT: where the control bit is set, the target bit is flipped. */
  function CnotOf(a: seq<Complex>, n: nat, c: nat, t: nat): (r: seq<Complex>)
    requires |a| == Pow2(n) && c < n && t < n
    ensures |r| == |a|
  {
    seq(|a|, k requires 0 <= k < |a| => if Bit(k, c) == 1 then a[Partner(k, n, t)] else a[k])
  }

  /** X, Y, Z and CNOT are involutions. */
  lemma PauliXTwice(a: seq<Complex>, n: nat, q: nat)
    requires |a| == Pow2(n) && q < n
    ensures PauliXOf(PauliXOf(a, n, q), n, q) == a
  {
    forall k | 0 <= k < |a| ensures PauliXOf(PauliXOf(a, n, q), n, q)[k] == a[k] {
      FlipFlip(k, q);
    }
  }

  lemma PauliYTwice(a: seq<Complex>, n: nat, q: nat)
    requires |a| == Pow2(n) && q < n
    ensures PauliYOf(PauliYOf(a, n, q), n, q) == a
  {
    var once := PauliYOf(a, n, q);
    forall k | 0 <= k < |a| ensures PauliYOf(once, n, q)[k] == a[k] {
      var j := Partner(k, n, q);
      FlipFlip(k, q);
      BitOfFlip(k, q, q);
      MulIInverse(a[k]);
    }
  }

  lemma PauliZTwice(a: seq<Complex>, q: nat)
    ensures PauliZOf(PauliZOf(a, q), q) == a
  {
    forall k | 0 <= k < |a| ensures PauliZOf(PauliZOf(a, q), q)[k] == a[k] {
      NegNeg(a[k]);
    }
  }

  lemma CnotTwice(a: seq<Complex>, n: nat, c: nat, t: nat)
    requires |a| == Pow2(n) && c < n && t < n && c != t
    ensures CnotOf(CnotOf(a, n, c, t), n, c, t) == a
  {
    forall k | 0 <= k < |a| ensures CnotOf(CnotOf(a, n, c, t), n, c, t)[k] == a[k] {
      FlipFlip(k, t);
      BitOfFlip(k, t, c);
    }
  }

  /** CNOT leaves every amplitude whose control bit is clear in place. */
  lemma CnotControlClear(a: seq<Complex>, n: nat, c: nat, t: nat, k: nat)
    requires |a| == Pow2(n) && c < n && t < n && k < |a| && Bit(k, c) == 0
    ensures CnotOf(a, n, c, t)[k] == a[k]
  {
  }

  /** One row of a ⊗ b: x·b_j for every j. */
  function Row(x: Complex, b: seq<Complex>): (r: seq<Complex>)
    ensures |r| == |b|
  {
    seq(|b|, j requires 0 <= j < |b| => Mul(x, b[j]))
  }

  /** The amplitudes of a ⊗ b: the rows a_0·b, a_1·b, … one after another. */
  function Kron(a: seq<Complex>, b: seq<Complex>): (r: seq<Complex>)
    ensures |r| == |a| * |b|
  {
    if a == [] then [] else Kron(a[..|a| - 1], b) + Row(a[|a| - 1], b)
  }

  lemma RowBelow(i: nat, j: nat, m: nat, d: nat)
    requires i < m && j < d
    ensures i * d + j < m * d
  {
    assert (i + 1) * d == i * d + d;
    assert (i + 1) * d <= m * d;
  }

  /** Amplitude (i·|b| + j) of the tensor product is a_i·b_j. */
  lemma {:induction false} KronEntry(a: seq<Complex>, b: seq<Complex>, i: nat, j: nat)
    requires i < |a| && j < |b|
    ensures i * |b| + j < |a| * |b|
    ensures Kron(a, b)[i * |b| + j] == Mul(a[i], b[j])
  {
    RowBelow(i, j, |a|, |b|);
    var front := a[..|a| - 1];
    assert |Kron(front, b)| == (|a| - 1) * |b|;
    if i < |a| - 1 {
      KronEntry(front, b, i, j);
      assert front[i] == a[i];
    } else {
      assert i * |b| + j == |Kron(front, b)| + j;
    }
  }

  /** The Z expectation over the first m amplitudes: |a_k|² weighted by +1
    * when bit q of k is clear and −1 when it is set. */
  function ZExpectation(a: seq<Complex>, q: nat, m: nat): real
    requires m <= |a|
  {
    if m == 0 then 0.0
    else ZExpectation(a, q, m - 1) + NormSq(a[m - 1]) * Eigenvalue(m - 1, q)
  }

  /** The Z eigenvalue of basis state k on qubit q. */
  function Eigenvalue(k: nat, q: nat): (e: real)
    ensures e == 1.0 || e == -1.0
  {
    if Bit(k, q) == 1 then -1.0 else 1.0
  }

  /** The total squared norm of the first m amplitudes. */
  function TotalNormSq(a: seq<Complex>, m: nat): (t: real)
    requires m <= |a|
    ensures t >= 0.0
  {
    if m == 0 then 0.0 else TotalNormSq(a, m - 1) + NormSq(a[m - 1])
  }

  /** The expectation lies between −‖a‖² and ‖a‖², and Pauli Z on the same
    * qubit does not change it. */
  lemma {:induction false} ZExpectationBounds(a: seq<Complex>, q: nat, m: nat)
    requires m <= |a|
    ensures -TotalNormSq(a, m) <= ZExpectation(a, q, m) <= TotalNormSq(a, m)
    ensures ZExpectation(PauliZOf(a, q), q, m) == ZExpectation(a, q, m)
  {
    if m > 0 {
      ZExpectationBounds(a, q, m - 1);
      var x := a[m - 1];
      assert NormSq(PauliZOf(a, q)[m - 1]) == NormSq(x);
    }
  }

  /** On the state of Statevector(n), n > 0, the Z expectation of any qubit
    * is 1. */
  lemma InitialExpectation(n: nat, q: nat)
    requires 0 < n
    ensures ZExpectation(InitialAmplitudes(n), q, Pow2(n)) == 1.0
  {
    var a := InitialAmplitudes(n);
    OnlyFirst(a, q, Pow2(n));
    assert Bit(0, q) == 0 by {
      HighBitClear(0, q);
    }
  }

  lemma {:induction false} OnlyFirst(a: seq<Complex>, q: nat, m: nat)
    requires 1 <= m <= |a|
    requires forall k :: 1 <= k < |a| ==> a[k] == Zero
    ensures ZExpectation(a, q, m) == ZExpectation(a, q, 1)
  {
    if m > 1 {
      OnlyFirst(a, q, m - 1);
      assert NormSq(a[m - 1]) == 0.0;
    }
  }

  class Statevector {
    const numQubits: nat
    const amplitudes: array<Complex>

    ghost predicate Valid()
    {
      amplitudes.Length == Pow2(numQubits)
    }

    /** Statevector(n) for n >= 0; see NewStatevector for the check. */
    constructor (n: nat)
      ensures Valid() && fresh(amplitudes)
      ensures numQubits == n && amplitudes[..] == InitialAmplitudes(n)
    {
      numQubits := n;
      amplitudes := new Complex[Pow2(n)](k => if k == 0 && n > 0 then One else Zero);
    }

    /** The amplitude-list constructor once the size check has passed (the
      * normalisation it performs is not modelled). */
    constructor FromList(amps: seq<Complex>)
      requires IsPow2(|amps|)
      ensures Valid() && fresh(amplitudes)
      ensures numQubits == Log2(|amps|) && amplitudes[..] == amps
    {
      Log2Pow2(|amps|);
      numQubits := Log2(|amps|);
      amplitudes := new Complex[|amps|](k requires 0 <= k < |amps| => amps[k]);
    }

    /** apply_pauli_x: invalid_argument for a qubit outside [0, n). */
    method ApplyPauliX(q: int) returns (s: Status)
      requires Valid()
      modifies amplitudes
      ensures s == Done <==> 0 <= q < numQubits
      ensures s != Done ==> s == Failed(InvalidArgument) && amplitudes[..] == old(amplitudes[..])
      ensures s == Done ==> amplitudes[..] == PauliXOf(old(amplitudes[..]), numQubits, q)
    {
      if q < 0 || q >= numQubits {
        return Failed(InvalidArgument);
      }
      SwapPairs(amplitudes, numQubits, q);
      return Done;
    }

    method ApplyPauliY(q: int) returns (s: Status)
      requires Valid()
      modifies amplitudes
      ensures s == Done <==> 0 <= q < numQubits
      ensures s != Done ==> s == Failed(InvalidArgument) && amplitudes[..] == old(amplitudes[..])
      ensures s == Done ==> amplitudes[..] == PauliYOf(old(amplitudes[..]), numQubits, q)
    {
      if q < 0 || q >= numQubits {
        return Failed(InvalidArgument);
      }
      RotatePairs(amplitudes, numQubits, q);
      return Done;
    }

    method ApplyPauliZ(q: int) returns (s: Status)
      requires Valid()
      modifies amplitudes
      ensures s == Done <==> 0 <= q < numQubits
      ensures s != Done ==> s == Failed(InvalidArgument) && amplitudes[..] == old(amplitudes[..])
      ensures s == Done ==> amplitudes[..] == PauliZOf(old(amplitudes[..]), q)
    {
      if q < 0 || q >= numQubits {
        return Failed(InvalidArgument);
      }
      var i := 0;
      while i < amplitudes.Length
        invariant 0 <= i <= amplitudes.Length
        invariant forall k :: 0 <= k < amplitudes.Length ==>
          amplitudes[k] == if k < i && Bit(k, q) == 1 then Neg(old(amplitudes[k])) else old(amplitudes[k])
      {
        if Bit(i, q) == 1 {
          amplitudes[i] := Neg(amplitudes[i]);
        }
        i := i + 1;
      }
      return Done;
    }

    /** apply_cnot: invalid_argument for a qubit outside [0, n) or for
      * control == target. */
    method ApplyCnot(control: int, target: int) returns (s: Status)
      requires Valid()
      modifies amplitudes
      ensures s == Done <==> 0 <= control < numQubits && 0 <= target < numQubits && control != target
      ensures s != Done ==> s == Failed(InvalidArgument) && amplitudes[..] == old(amplitudes[..])
      ensures s == Done ==> amplitudes[..] == CnotOf(old(amplitudes[..]), numQubits, control, target)
    {
      if control < 0 || control >= numQubits || target < 0 || target >= numQubits {
        return Failed(InvalidArgument);
      }
      if control == target {
        return Failed(InvalidArgument);
      }
      SwapControlled(amplitudes, numQubits, control, target);
      return Done;
    }

    /** measure_expectation: invalid_argument for a bad qubit or any
      * observable other than "Z" and "z". */
    method MeasureExpectation(q: int, observable: string) returns (r: Result<real>)
      requires Valid()
      ensures r.Ok? <==> 0 <= q < numQubits && observable in {"Z", "z"}
      ensures r.Err? ==> r.error == InvalidArgument
      ensures r.Ok? ==> r.value == ZExpectation(amplitudes[..], q, amplitudes.Length)
    {
      if q < 0 || q >= numQubits {
        return Err(InvalidArgument);
      }
      if observable != "Z" && observable != "z" {
        return Err(InvalidArgument);
      }
      var expectation := 0.0;
      var i := 0;
      while i < amplitudes.Length
        invariant 0 <= i <= amplitudes.Length
        invariant expectation == ZExpectation(amplitudes[..], q, i)
      {
        expectation := expectation + NormSq(amplitudes[i]) * Eigenvalue(i, q);
        i := i + 1;
      }
      return Ok(expectation);
    }

    /** set_amplitudes: invalid_argument unless the size is 2^n (the
      * normalisation is not modelled). */
    method SetAmplitudes(amps: seq<Complex>) returns (s: Status)
      requires Valid()
      modifies amplitudes
      ensures s == Done <==> |amps| == amplitudes.Length
      ensures s != Done ==> s == Failed(InvalidArgument) && amplitudes[..] == old(amplitudes[..])
      ensures s == Done ==> amplitudes[..] == amps
    {
      if |amps| != amplitudes.Length {
        return Failed(InvalidArgument);
      }
      forall k | 0 <= k < amplitudes.Length {
        amplitudes[k] := amps[k];
      }
      return Done;
    }

    /** tensor_product: n1 + n2 qubits holding a ⊗ b. */
    method TensorProduct(other: Statevector) returns (result: Statevector)
      requires Valid() && other.Valid()
      ensures fresh(result) && fresh(result.amplitudes) && result.Valid()
      ensures result.numQubits == numQubits + other.numQubits
      ensures result.amplitudes[..] == Kron(amplitudes[..], other.amplitudes[..])
    {
      Pow2Add(numQubits, other.numQubits);
      result := new Statevector(numQubits + other.numQubits);
      FillKron(result.amplitudes, amplitudes[..], other.amplitudes[..]);
    }
  }

  /** Statevector(n): invalid_argument for n < 0. */
  method NewStatevector(n: int) returns (r: Result<Statevector>)
    ensures r.Err? <==> n < 0
    ensures r.Err? ==> r.error == InvalidArgument
    ensures r.Ok? ==> fresh(r.value) && r.value.Valid() && r.value.numQubits == n
    ensures r.Ok? ==> r.value.amplitudes[..] == InitialAmplitudes(n)
  {
    if n < 0 {
      return Err(InvalidArgument);
    }
    var v := new Statevector(n);
    return Ok(v);
  }

  /** Statevector(amplitudes): invalid_argument when the size is 0 or not a
    * power of two. */
  method NewStatevectorFrom(amps: seq<Complex>) returns (r: Result<Statevector>)
    ensures r.Err? <==> !IsPow2(|amps|)
    ensures r.Err? ==> r.error == InvalidArgument
    ensures r.Ok? ==> fresh(r.value) && r.value.Valid() && r.value.amplitudes[..] == amps
    ensures r.Ok? ==> Pow2(r.value.numQubits) == |amps|
  {
    if |amps| == 0 || !IsPow2(|amps|) {
      return Err(InvalidArgument);
    }
    var v := new Statevector.FromList(amps);
    return Ok(v);
  }

  /** Index k has been handled by the pair loop once i has passed the
    * smaller index of its pair. */
  predicate Visited(k: nat, q: nat, i: nat)
  {
    if Bit(k, q) == 0 then k < i else FlipBit(k, q) < i
  }

  /** The array after the pair loop has reached i: handled indices hold the
    * gate's result, the others their original amplitude. */
  ghost function PairProgress(a0: seq<Complex>, target: seq<Complex>, q: nat, i: nat): seq<Complex>
    requires |target| == |a0|
  {
    seq(|a0|, k requires 0 <= k < |a0| => if Visited(k, q, i) then target[k] else a0[k])
  }

  /** At an index i with bit q clear, i + 2^q is its partner, which has not
    * been visited yet and lies below 2^n. */
  lemma PairStep(i: nat, q: nat, n: nat)
    requires i < Pow2(n) && q < n && Bit(i, q) == 0
    ensures FlipBit(i, q) == i + Pow2(q) < Pow2(n)
    ensures FlipBit(FlipBit(i, q), q) == i && Bit(FlipBit(i, q), q) == 1
  {
    FlipBitBound(i, q, n);
    FlipFlip(i, q);
    BitOfFlip(i, q, q);
  }

  /** Only the partner of i flips onto i. */
  lemma OnlyPartner(i: nat, q: nat)
    ensures forall k: nat :: FlipBit(k, q) == i ==> k == FlipBit(i, q)
  {
    forall k: nat | FlipBit(k, q) == i ensures k == FlipBit(i, q) {
      FlipFlip(k, q);
    }
  }

  /** Visiting i changes at most i and its partner. */
  lemma PairProgressStep(a0: seq<Complex>, target: seq<Complex>, n: nat, q: nat, i: nat)
    requires |a0| == |target| == Pow2(n) && q < n && i < |a0|
    ensures Bit(i, q) == 1 ==> PairProgress(a0, target, q, i + 1) == PairProgress(a0, target, q, i)
    ensures Bit(i, q) == 0 ==> FlipBit(i, q) < |a0|
    ensures Bit(i, q) == 0 ==>
      var j := FlipBit(i, q);
      PairProgress(a0, target, q, i + 1) == PairProgress(a0, target, q, i)[i := target[i]][j := target[j]]
  {
    OnlyPartner(i, q);
    if Bit(i, q) == 0 {
      PairStep(i, q, n);
    } else {
      FlipFlip(i, q);
    }
  }

  /** Past the end, every index has been visited. */
  lemma PairProgressDone(a0: seq<Complex>, target: seq<Complex>, n: nat, q: nat)
    requires |a0| == |target| == Pow2(n) && q < n
    ensures PairProgress(a0, target, q, |a0|) == target
  {
    forall k | 0 <= k < |a0| ensures Visited(k, q, |a0|) {
      FlipBitBound(k, q, n);
    }
  }

  /** The pair loop of apply_pauli_x: for every i with bit q clear, swap
    * amplitudes i and i | 2^q. */
  method SwapPairs(a: array<Complex>, n: nat, q: nat)
    requires a.Length == Pow2(n) && q < n
    modifies a
    ensures a[..] == PauliXOf(old(a[..]), n, q)
  {
    ghost var a0 := a[..];
    ghost var target := PauliXOf(a0, n, q);
    var mask := Pow2(q);
    var i := 0;
    while i < a.Length
      invariant 0 <= i <= a.Length
      invariant a[..] == PairProgress(a0, target, q, i)
    {
      PairProgressStep(a0, target, n, q, i);
      if Bit(i, q) == 0 {
        var j := i + mask;
        PairStep(i, q, n);
        a[i], a[j] := a[j], a[i];
      }
      i := i + 1;
    }
    PairProgressDone(a0, target, n, q);
  }

  /** One turn of the Pauli-Y loop at an index i with bit q clear: writing
    * −i·a_j at i and i·a_i at its partner j reaches the next progress state. */
  lemma RotateStep(a0: seq<Complex>, n: nat, q: nat, i: nat, before: seq<Complex>)
    requires |a0| == Pow2(n) && q < n && i < |a0| && Bit(i, q) == 0
    requires before == PairProgress(a0, PauliYOf(a0, n, q), q, i)
    ensures i + Pow2(q) < |a0| && FlipBit(i, q) == i + Pow2(q)
    ensures var j := i + Pow2(q);
      before[i := Mul(Neg(I), before[j])][j := Mul(I, before[i])] == PairProgress(a0, PauliYOf(a0, n, q), q, i + 1)
  {
    var target := PauliYOf(a0, n, q);
    PairStep(i, q, n);
    PairProgressStep(a0, target, n, q, i);
    var j := i + Pow2(q);
    assert before[i] == a0[i] && before[j] == a0[j];
    assert target[i] == Mul(Neg(I), a0[j]) && target[j] == Mul(I, a0[i]);
  }

  /** The pair loop of apply_pauli_y. */
  method RotatePairs(a: array<Complex>, n: nat, q: nat)
    requires a.Length == Pow2(n) && q < n
    modifies a
    ensures a[..] == PauliYOf(old(a[..]), n, q)
  {
    ghost var a0 := a[..];
    ghost var target := PauliYOf(a0, n, q);
    var mask := Pow2(q);
    var i := 0;
    while i < a.Length
      invariant 0 <= i <= a.Length
      invariant a[..] == PairProgress(a0, target, q, i)
    {
      PairProgressStep(a0, target, n, q, i);
      if Bit(i, q) == 0 {
        RotateStep(a0, n, q, i, a[..]);
        var j := i + mask;
        var temp := a[i];
        a[i] := Mul(Neg(I), a[j]);
        a[j] := Mul(I, temp);
      }
      i := i + 1;
    }
    PairProgressDone(a0, target, n, q);
  }

  /** Index k has been handled by the CNOT loop once i has passed the
    * smaller index of its pair. */
  predicate VisitedControlled(k: nat, t: nat, i: nat)
  {
    k < i || FlipBit(k, t) < i
  }

  ghost function CnotProgress(a0: seq<Complex>, target: seq<Complex>, t: nat, i: nat): seq<Complex>
    requires |target| == |a0|
  {
    seq(|a0|, k requires 0 <= k < |a0| => if VisitedControlled(k, t, i) then target[k] else a0[k])
  }

  /** Visiting i swaps i with its partner exactly when the control bit is
    * set and the partner lies above i. */
  lemma CnotProgressStep(a0: seq<Complex>, n: nat, c: nat, t: nat, i: nat)
    requires |a0| == Pow2(n) && c < n && t < n && c != t && i < |a0|
    ensures FlipBit(i, t) < |a0|
    ensures var target := CnotOf(a0, n, c, t);
      var before := CnotProgress(a0, target, t, i);
      var j := FlipBit(i, t);
      CnotProgress(a0, target, t, i + 1) ==
        if Bit(i, c) == 1 && j > i then before[i := before[j]][j := before[i]] else before
  {
    FlipBitBound(i, t, n);
    FlipFlip(i, t);
    BitOfFlip(i, t, c);
    OnlyPartner(i, t);
  }

  lemma CnotProgressDone(a0: seq<Complex>, n: nat, c: nat, t: nat)
    requires |a0| == Pow2(n) && c < n && t < n
    ensures CnotProgress(a0, CnotOf(a0, n, c, t), t, |a0|) == CnotOf(a0, n, c, t)
  {
  }

  /** The loop of apply_cnot: for every i with the control bit set, swap i
    * with i ^ 2^t when that index is larger. */
  method SwapControlled(a: array<Complex>, n: nat, c: nat, t: nat)
    requires a.Length == Pow2(n) && c < n && t < n && c != t
    modifies a
    ensures a[..] == CnotOf(old(a[..]), n, c, t)
  {
    ghost var a0 := a[..];
    ghost var target := CnotOf(a0, n, c, t);
    var i := 0;
    while i < a.Length
      invariant 0 <= i <= a.Length
      invariant a[..] == CnotProgress(a0, target, t, i)
    {
      CnotProgressStep(a0, n, c, t, i);
      if Bit(i, c) == 1 {
        var j := Partner(i, n, t);
        if j > i {
          a[i], a[j] := a[j], a[i];
        }
      }
      i := i + 1;
    }
    CnotProgressDone(a0, n, c, t);
  }

  /** The rows so far and the next one make the next prefix of a ⊗ b, and
    * the lengths add up to at most |a|·|b|. */
  lemma KronStep(a: seq<Complex>, b: seq<Complex>, i: nat)
    requires i < |a|
    ensures Kron(a[..i + 1], b) == Kron(a[..i], b) + Row(a[i], b)
    ensures |Kron(a[..i], b)| + |b| <= |a| * |b|
  {
    assert a[..i + 1][..i] == a[..i];
    assert (i + 1) * |b| <= |a| * |b|;
  }

  /** The loops of tensor_product: result[i·|b| + j] := a_i·b_j. */
  method FillKron(r: array<Complex>, a: seq<Complex>, b: seq<Complex>)
    requires r.Length == |a| * |b|
    modifies r
    ensures r[..] == Kron(a, b)
  {
    var i, start := 0, 0;
    while i < |a|
      invariant 0 <= i <= |a|
      invariant start == |Kron(a[..i], b)|
      invariant r[..start] == Kron(a[..i], b)
    {
      FillRow(r, a, b, i, start);
      i, start := i + 1, start + |b|;
    }
    assert a[..i] == a;
  }

  /** One row of the tensor-product loop: entries start + j for j < |b|. */
  method FillRow(r: array<Complex>, a: seq<Complex>, b: seq<Complex>, i: nat, start: nat)
    requires i < |a| && r.Length == |a| * |b|
    requires start == |Kron(a[..i], b)| && r[..start] == Kron(a[..i], b)
    modifies r
    ensures start + |b| <= r.Length
    ensures r[..start + |b|] == Kron(a[..i + 1], b)
  {
    KronStep(a, b, i);
    ghost var done := r[..start];
    var j := 0;
    while j < |b|
      invariant 0 <= j <= |b|
      invariant r[..start] == done
      invariant forall m :: 0 <= m < j ==> r[start + m] == Mul(a[i], b[m])
    {
      r[start + j] := Mul(a[i], b[j]);
      j := j + 1;
    }
    assert r[..start + |b|] == done + Row(a[i], b);
  }
}
