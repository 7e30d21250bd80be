/** The gate-list circuit of libomniq-core/src/common/Circuit.cpp: gates and
  * measurements appended after a range check, removal, composition, the
  * cancellation pass and the OpenQASM 2.0 text. */
module Circuits {
  import opened Wrappers
  import opened Text

  datatype GateType =
    | Hadamard | PauliX | PauliY | PauliZ | Cnot
    | PhaseShift | RotationX | RotationY | RotationZ

  /** Gate: a type, its qubits, its parameters and a name. */
  datatype Gate = Gate(kind: GateType, qubits: seq<int>, parameters: seq<real>, name: string)

  /** A measurement of one qubit in a named basis (its observable only
    * matters for density-matrix execution, which is not modelled). */
  datatype Measurement = Measurement(qubit: int, basis: string)

  function HadamardGate(q: int): Gate { Gate(Hadamard, [q], [], "") }
  function PauliXGate(q: int): Gate { Gate(PauliX, [q], [], "") }
  function PauliYGate(q: int): Gate { Gate(PauliY, [q], [], "") }
  function PauliZGate(q: int): Gate { Gate(PauliZ, [q], [], "") }
  function CnotGate(control: int, target: int): Gate { Gate(Cnot, [control, target], [], "") }

  predicate QubitsInRange(qs: seq<int>, n: int)
  {
    forall k :: 0 <= k < |qs| ==> 0 <= qs[k] < n
  }

  /** What the checks of add_gate and add_measurement admit. */
  predicate GatesInRange(gates: seq<Gate>, n: int)
  {
    forall k :: 0 <= k < |gates| ==> QubitsInRange(gates[k].qubits, n)
  }

  predicate MeasurementsInRange(ms: seq<Measurement>, n: int)
  {
    forall k :: 0 <= k < |ms| ==> 0 <= ms[k].qubit < n
  }

  // ---------------------------------------------------------------------
  // get_validation_errors

  datatype ValidationError = GateQubit(qubit: int) | MeasurementQubit(qubit: int)

  function QubitErrors(qs: seq<int>, n: int): (errs: seq<ValidationError>)
    ensures errs == [] <==> QubitsInRange(qs, n)
  {
    if qs == [] then []
    else
      QubitErrors(qs[..|qs| - 1], n) +
      (if qs[|qs| - 1] < 0 || qs[|qs| - 1] >= n then [GateQubit(qs[|qs| - 1])] else [])
  }

  function GateErrors(gates: seq<Gate>, n: int): (errs: seq<ValidationError>)
    ensures errs == [] <==> GatesInRange(gates, n)
  {
    if gates == [] then []
    else GateErrors(gates[..|gates| - 1], n) + QubitErrors(gates[|gates| - 1].qubits, n)
  }

  function MeasurementErrors(ms: seq<Measurement>, n: int): (errs: seq<ValidationError>)
    ensures errs == [] <==> MeasurementsInRange(ms, n)
  {
    if ms == [] then []
    else
      MeasurementErrors(ms[..|ms| - 1], n) +
      (if ms[|ms| - 1].qubit < 0 || ms[|ms| - 1].qubit >= n then [MeasurementQubit(ms[|ms| - 1].qubit)] else [])
  }

  /** One error per out-of-range gate qubit, then one per out-of-range
    * measurement. */
  function ValidationErrors(n: int, gates: seq<Gate>, ms: seq<Measurement>): seq<ValidationError>
  {
    GateErrors(gates, n) + MeasurementErrors(ms, n)
  }

  // ---------------------------------------------------------------------
  // optimize

  /** A gate cancels the previously kept one: same type, same qubits, and
    * the type is H, X or Z. Parameters are not compared. */
  predicate Cancels(prev: Gate, g: Gate)
  {
    g.kind == prev.kind && g.qubits == prev.qubits && g.kind in {Hadamard, PauliX, PauliZ}
  }

  /** One step of the pass: pop the kept gate that g cancels, else keep g. */
  function Push(kept: seq<Gate>, g: Gate): seq<Gate>
  {
    if kept != [] && Cancels(kept[|kept| - 1], g) then kept[..|kept| - 1] else kept + [g]
  }

  /** The gates optimize keeps. */
  function Optimized(gates: seq<Gate>): (kept: seq<Gate>)
    ensures |kept| <= |gates|
  {
    if gates == [] then [] else Push(Optimized(gates[..|gates| - 1]), gates[|gates| - 1])
  }

  /** optimize only drops gates: what it keeps is a sub-multiset. */
  lemma {:induction false} OptimizedDropsOnly(gates: seq<Gate>)
    ensures multiset(Optimized(gates)) <= multiset(gates)
  {
    if gates != [] {
      var prefix := gates[..|gates| - 1];
      var g := gates[|gates| - 1];
      assert gates == prefix + [g];
      OptimizedDropsOnly(prefix);
      PushShrinks(Optimized(prefix), g);
    }
  }

  /** idx picks out a from b in order: a[k] is b[idx[k]], with idx
    * strictly increasing. */
  ghost predicate Embeds(idx: seq<int>, a: seq<Gate>, b: seq<Gate>)
  {
    |idx| == |a| &&
    (forall k :: 0 <= k < |idx| ==> 0 <= idx[k] < |b| && a[k] == b[idx[k]]) &&
    (forall k, l :: 0 <= k < l < |idx| ==> idx[k] < idx[l])
  }

  /** a is b with some elements removed and the rest in their order. */
  ghost predicate IsSubsequence(a: seq<Gate>, b: seq<Gate>)
  {
    exists idx :: Embeds(idx, a, b)
  }

  /** optimize keeps the gates it does not drop in their original order:
    * its result is a subsequence of the input. */
  lemma {:induction false} OptimizedIsSubsequence(gates: seq<Gate>)
    ensures IsSubsequence(Optimized(gates), gates)
  {
    if gates == [] {
      assert Embeds([], Optimized(gates), gates);
    } else {
      var prefix := gates[..|gates| - 1];
      var g := gates[|gates| - 1];
      var kept := Optimized(prefix);
      OptimizedIsSubsequence(prefix);
      var idx :| Embeds(idx, kept, prefix);
      if kept != [] && Cancels(kept[|kept| - 1], g) {
        var idx' := idx[..|idx| - 1];
        assert Embeds(idx', Optimized(gates), gates);
      } else {
        var idx' := idx + [|prefix|];
        assert Embeds(idx', Optimized(gates), gates);
      }
    }
  }

  lemma PushShrinks(kept: seq<Gate>, g: Gate)
    ensures multiset(Push(kept, g)) <= multiset(kept) + multiset{g}
  {
    if kept != [] && Cancels(kept[|kept| - 1], g) {
      assert kept == kept[..|kept| - 1] + [kept[|kept| - 1]];
    }
  }

  lemma OptimizedSnoc(gates: seq<Gate>, g: Gate)
    ensures Optimized(gates + [g]) == Push(Optimized(gates), g)
  {
    assert (gates + [g])[..|gates|] == gates;
  }

  /** No two neighbours cancel. */
  predicate Reduced(gates: seq<Gate>)
  {
    forall k :: 0 <= k < |gates| - 1 ==> !Cancels(gates[k], gates[k + 1])
  }

  lemma {:induction false} OptimizedReduced(gates: seq<Gate>)
    ensures Reduced(Optimized(gates))
  {
    if gates != [] {
      OptimizedReduced(gates[..|gates| - 1]);
      PushReduced(Optimized(gates[..|gates| - 1]), gates[|gates| - 1]);
    }
  }

  lemma PushReduced(kept: seq<Gate>, g: Gate)
    requires Reduced(kept)
    ensures Reduced(Push(kept, g))
  {
    var next := Push(kept, g);
    if kept != [] && Cancels(kept[|kept| - 1], g) {
      assert forall k :: 0 <= k < |next| ==> next[k] == kept[k];
    } else {
      assert forall k :: 0 <= k < |kept| ==> next[k] == kept[k];
    }
  }

  /** A list with no cancelling neighbours passes unchanged. */
  lemma {:induction false} ReducedUnchanged(gates: seq<Gate>)
    requires Reduced(gates)
    ensures Optimized(gates) == gates
  {
    if gates != [] {
      var prefix := gates[..|gates| - 1];
      assert Reduced(prefix);
      ReducedUnchanged(prefix);
      assert gates == prefix + [gates[|gates| - 1]];
    }
  }

  /** optimize is idempotent. */
  lemma OptimizeIdempotent(gates: seq<Gate>)
    ensures Optimized(Optimized(gates)) == Optimized(gates)
  {
    OptimizedReduced(gates);
    ReducedUnchanged(Optimized(gates));
  }

  /** n copies of one gate. */
  function Repeat(g: Gate, n: nat): (gs: seq<Gate>)
    ensures |gs| == n
  {
    if n == 0 then [] else Repeat(g, n - 1) + [g]
  }

  /** A run of one self-inverse gate cancels in pairs: an even run leaves
    * nothing, an odd run one gate. */
  lemma {:induction false} RepeatOptimized(g: Gate, m: nat)
    requires g.kind in {Hadamard, PauliX, PauliZ}
    ensures Optimized(Repeat(g, 2 * m)) == []
    ensures Optimized(Repeat(g, 2 * m + 1)) == [g]
  {
    var even := Repeat(g, 2 * m);
    if m > 0 {
      var odd := Repeat(g, 2 * (m - 1) + 1);
      RepeatOptimized(g, m - 1);
      assert even == odd + [g];
      OptimizedSnoc(odd, g);
      assert Cancels(g, g);
      assert Push([g], g) == [];
    } else {
      assert even == [];
    }
    assert Optimized(even) == [];
    assert Repeat(g, 2 * m + 1) == even + [g];
    OptimizedSnoc(even, g);
    assert Push([], g) == [g];
  }

  /** H H X X on one qubit optimizes to no gates. */
  lemma PairsCancel(q: int)
    ensures Optimized([HadamardGate(q), HadamardGate(q), PauliXGate(q), PauliXGate(q)]) == []
  {
    var h, x := HadamardGate(q), PauliXGate(q);
    var hh := [h, h];
    assert Optimized(hh) == [] by {
      RepeatOptimized(h, 1);
      assert Repeat(h, 1) == [h];
      assert Repeat(h, 2) == hh;
    }
    assert Optimized(hh + [x]) == [x] by {
      OptimizedSnoc(hh, x);
    }
    assert Optimized(hh + [x] + [x]) == [] by {
      OptimizedSnoc(hh + [x], x);
      assert Cancels(x, x);
    }
    assert hh + [x] + [x] == [h, h, x, x];
  }

  /** A hundred H on one qubit optimize to no gates. */
  lemma HundredCancel(q: int)
    ensures Optimized(Repeat(HadamardGate(q), 100)) == []
  {
    RepeatOptimized(HadamardGate(q), 50);
  }

  // ---------------------------------------------------------------------
  // to_qasm

  function QasmHeader(numQubits: int, numClassicalBits: int): string
  {
    "OPENQASM 2.0;\n" + "include \"qelib1.inc\";\n\n" +
    "qreg q[" + IntToString(numQubits) + "];\n" +
    (if numClassicalBits > 0 then "creg c[" + IntToString(numClassicalBits) + "];\n\n" else "")
  }

  /** to_qasm reads the first (and second) qubit of H, X and CNOT gates. */
  predicate QasmShaped(g: Gate)
  {
    (g.kind in {Hadamard, PauliX} ==> |g.qubits| >= 1) && (g.kind == Cnot ==> |g.qubits| >= 2)
  }

  /** The line of one gate: only H, X and CNOT have one. */
  function GateLine(g: Gate): string
    requires QasmShaped(g)
  {
    match g.kind
    case Hadamard => "h q[" + IntToString(g.qubits[0]) + "];\n"
    case PauliX => "x q[" + IntToString(g.qubits[0]) + "];\n"
    case Cnot => "cx q[" + IntToString(g.qubits[0]) + "],q[" + IntToString(g.qubits[1]) + "];\n"
    case _ => ""
  }

  /** The lines to_qasm writes for the gates, one entry per gate (empty
    * for gates it does not write). */
  function GateLines(gates: seq<Gate>): seq<string>
    requires forall k :: 0 <= k < |gates| ==> QasmShaped(gates[k])
  {
    seq(|gates|, k requires 0 <= k < |gates| => GateLine(gates[k]))
  }

  function MeasureLine(m: Measurement): string
  {
    "measure q[" + IntToString(m.qubit) + "] -> c[" + IntToString(m.qubit) + "];\n"
  }

  function MeasureLines(ms: seq<Measurement>): seq<string>
  {
    seq(|ms|, k requires 0 <= k < |ms| => MeasureLine(ms[k]))
  }

  /** The parts written one after another. */
  function Join(parts: seq<string>): string
  {
    if parts == [] then "" else Join(parts[..|parts| - 1]) + parts[|parts| - 1]
  }

  /** The whole text to_qasm returns. */
  function Qasm(n: int, c: int, gates: seq<Gate>, ms: seq<Measurement>): string
    requires forall k :: 0 <= k < |gates| ==> QasmShaped(gates[k])
  {
    QasmHeader(n, c) + Join(GateLines(gates)) + Join(MeasureLines(ms))
  }

  /** The `len` characters of `text` from offset i. */
  function Window(text: string, i: nat, len: nat): string
    requires i + len <= |text|
  {
    text[i..i + len]
  }

  /** `part` occurs in `text` at some offset. */
  predicate Occurs(part: string, text: string)
  {
    exists i: nat :: i + |part| <= |text| && Window(text, i, |part|) == part
  }

  lemma OccursIn(a: string, part: string, b: string)
    ensures Occurs(part, a + part + b)
  {
    assert Window(a + part + b, |a|, |part|) == part;
  }

  lemma OccursWithin(part: string, a: string, text: string, b: string)
    requires Occurs(part, text)
    ensures Occurs(part, a + text + b)
  {
    var i: nat :| i + |part| <= |text| && Window(text, i, |part|) == part;
    var whole := a + text + b;
    assert whole[|a| + i..|a| + i + |part|] == text[i..i + |part|];
    assert Window(whole, |a| + i, |part|) == part;
  }

  lemma JoinSnoc(parts: seq<string>, x: string)
    ensures Join(parts + [x]) == Join(parts) + x
  {
    assert (parts + [x])[..|parts|] == parts;
  }

  lemma {:induction false} JoinAppend(a: seq<string>, b: seq<string>)
    ensures Join(a + b) == Join(a) + Join(b)
    decreases |b|
  {
    if b == [] {
      assert a + b == a;
    } else {
      var init, last := b[..|b| - 1], b[|b| - 1];
      JoinAppend(a, init);
      assert a + b == (a + init) + [last];
      JoinSnoc(a + init, last);
      JoinSnoc(init, last);
      assert init + [last] == b;
    }
  }

  /** Joining splits around any part. */
  lemma JoinAround(parts: seq<string>, k: nat)
    requires k < |parts|
    ensures Join(parts) == Join(parts[..k]) + parts[k] + Join(parts[k + 1..])
  {
    var upto := parts[..k + 1];
    assert upto + parts[k + 1..] == parts;
    JoinAppend(upto, parts[k + 1..]);
    assert upto[..k] == parts[..k];
  }

  /** Every part occurs in the joined text. */
  lemma JoinHas(parts: seq<string>, k: nat)
    requires k < |parts|
    ensures Occurs(parts[k], Join(parts))
  {
    JoinAround(parts, k);
    OccursIn(Join(parts[..k]), parts[k], Join(parts[k + 1..]));
  }

  /** The text starts with the version line. */
  lemma QasmVersion(n: int, c: int, gates: seq<Gate>, ms: seq<Measurement>)
    requires forall k :: 0 <= k < |gates| ==> QasmShaped(gates[k])
    ensures Qasm(n, c, gates, ms)[..14] == "OPENQASM 2.0;\n"
  {
    var header := QasmHeader(n, c);
    assert header[..14] == "OPENQASM 2.0;\n";
  }

  /** The line of every gate occurs in the text. */
  lemma QasmHasGateLines(n: int, c: int, gates: seq<Gate>, ms: seq<Measurement>, k: nat)
    requires forall k :: 0 <= k < |gates| ==> QasmShaped(gates[k])
    requires k < |gates|
    ensures Occurs(GateLine(gates[k]), Qasm(n, c, gates, ms))
  {
    JoinHas(GateLines(gates), k);
    OccursWithin(GateLine(gates[k]), QasmHeader(n, c), Join(GateLines(gates)), Join(MeasureLines(ms)));
  }

  /** The line of every measurement occurs in the text. */
  lemma QasmHasMeasureLines(n: int, c: int, gates: seq<Gate>, ms: seq<Measurement>, k: nat)
    requires forall k :: 0 <= k < |gates| ==> QasmShaped(gates[k])
    requires k < |ms|
    ensures Occurs(MeasureLine(ms[k]), Qasm(n, c, gates, ms))
  {
    JoinHas(MeasureLines(ms), k);
    OccursWithin(MeasureLine(ms[k]), QasmHeader(n, c) + Join(GateLines(gates)), Join(MeasureLines(ms)), "");
    assert Qasm(n, c, gates, ms) == QasmHeader(n, c) + Join(GateLines(gates)) + Join(MeasureLines(ms)) + "";
  }

  // ---------------------------------------------------------------------

  class Circuit {
    var numQubits: int
    var numClassicalBits: int
    var gates: seq<Gate>
    var measurements: seq<Measurement>
    /** custom_gates_: a name may map to a null gate. */
    var customGates: map<string, Option<Gate>>

    /** Every stored gate and measurement passed the range check. */
    ghost predicate Valid()
      reads this
    {
      numQubits >= 0 && GatesInRange(gates, numQubits) && MeasurementsInRange(measurements, numQubits)
    }

    /** Circuit(num_qubits, num_classical_bits) once the sign check has
      * passed; see NewCircuit. */
    constructor (n: int, c: int)
      requires n >= 0
      ensures Valid()
      ensures numQubits == n && numClassicalBits == c
      ensures gates == [] && measurements == [] && customGates == map[]
    {
      numQubits := n;
      numClassicalBits := c;
      gates := [];
      measurements := [];
      customGates := map[];
    }

    /** The copy constructor. */
    constructor Copy(other: Circuit)
      ensures numQubits == other.numQubits && numClassicalBits == other.numClassicalBits
      ensures gates == other.gates && measurements == other.measurements && customGates == other.customGates
    {
      numQubits := other.numQubits;
      numClassicalBits := other.numClassicalBits;
      gates := other.gates;
      measurements := other.measurements;
      customGates := other.customGates;
    }

    /** add_gate: a null gate or a qubit outside [0, num_qubits) throws
      * invalid_argument and stores nothing; otherwise the gate goes last. */
    method AddGate(gate: Option<Gate>) returns (s: Status)
      modifies this`gates
      ensures gate.None? ==> s == Failed(InvalidArgument)
      ensures gate.Some? ==> (s == Done <==> QubitsInRange(gate.value.qubits, numQubits))
      ensures s.Failed? ==> s.error == InvalidArgument && gates == old(gates)
      ensures s == Done ==> gates == old(gates) + [gate.value]
    {
      if gate.None? {
        return Failed(InvalidArgument);
      }
      var qs := gate.value.qubits;
      var k := 0;
      while k < |qs|
        invariant 0 <= k <= |qs|
        invariant QubitsInRange(qs[..k], numQubits)
      {
        if qs[k] < 0 || qs[k] >= numQubits {
          return Failed(InvalidArgument);
        }
        k := k + 1;
      }
      assert qs[..k] == qs;
      gates := gates + [gate.value];
      return Done;
    }

    /** add_measurement: the same check on the measured qubit. */
    method AddMeasurement(m: Option<Measurement>) returns (s: Status)
      modifies this`measurements
      ensures m.None? ==> s == Failed(InvalidArgument)
      ensures m.Some? ==> (s == Done <==> 0 <= m.value.qubit < numQubits)
      ensures s.Failed? ==> s.error == InvalidArgument && measurements == old(measurements)
      ensures s == Done ==> measurements == old(measurements) + [m.value]
    {
      if m.None? || m.value.qubit < 0 || m.value.qubit >= numQubits {
        return Failed(InvalidArgument);
      }
      measurements := measurements + [m.value];
      return Done;
    }

    /** add_measurement(qubit, basis). */
    method AddMeasurementAt(q: int, basis: string) returns (s: Status)
      modifies this`measurements
      ensures s == Done <==> 0 <= q < numQubits
      ensures s == Done ==> measurements == old(measurements) + [Measurement(q, basis)]
      ensures s != Done ==> s == Failed(InvalidArgument) && measurements == old(measurements)
    {
      s := AddMeasurement(Some(Measurement(q, basis)));
    }

    method AddHadamard(q: int) returns (s: Status)
      modifies this`gates
      ensures s == Done <==> 0 <= q < numQubits
      ensures s == Done ==> gates == old(gates) + [HadamardGate(q)]
      ensures s != Done ==> s == Failed(InvalidArgument) && gates == old(gates)
    {
      OneQubit(q, numQubits);
      s := AddGate(Some(HadamardGate(q)));
    }

    method AddPauliX(q: int) returns (s: Status)
      modifies this`gates
      ensures s == Done <==> 0 <= q < numQubits
      ensures s == Done ==> gates == old(gates) + [PauliXGate(q)]
      ensures s != Done ==> s == Failed(InvalidArgument) && gates == old(gates)
    {
      OneQubit(q, numQubits);
      s := AddGate(Some(PauliXGate(q)));
    }

    method AddPauliY(q: int) returns (s: Status)
      modifies this`gates
      ensures s == Done <==> 0 <= q < numQubits
      ensures s == Done ==> gates == old(gates) + [PauliYGate(q)]
      ensures s != Done ==> s == Failed(InvalidArgument) && gates == old(gates)
    {
      OneQubit(q, numQubits);
      s := AddGate(Some(PauliYGate(q)));
    }

    method AddPauliZ(q: int) returns (s: Status)
      modifies this`gates
      ensures s == Done <==> 0 <= q < numQubits
      ensures s == Done ==> gates == old(gates) + [PauliZGate(q)]
      ensures s != Done ==> s == Failed(InvalidArgument) && gates == old(gates)
    {
      OneQubit(q, numQubits);
      s := AddGate(Some(PauliZGate(q)));
    }

    method AddCnot(control: int, target: int) returns (s: Status)
      modifies this`gates
      ensures s == Done <==> 0 <= control < numQubits && 0 <= target < numQubits
      ensures s == Done ==> gates == old(gates) + [CnotGate(control, target)]
      ensures s != Done ==> s == Failed(InvalidArgument) && gates == old(gates)
    {
      TwoQubits(control, target, numQubits);
      s := AddGate(Some(CnotGate(control, target)));
    }

    /** add_swap: three CNOTs, a→b, b→a, a→b. The three share one range
      * check, so either all are added or none. */
    method AddSwap(a: int, b: int) returns (s: Status)
      modifies this`gates
      ensures s == Done <==> 0 <= a < numQubits && 0 <= b < numQubits
      ensures s == Done ==> gates == old(gates) + [CnotGate(a, b), CnotGate(b, a), CnotGate(a, b)]
      ensures s != Done ==> s == Failed(InvalidArgument) && gates == old(gates)
    {
      s := AddCnot(a, b);
      if s != Done {
        return;
      }
      s := AddCnot(b, a);
      s := AddCnot(a, b);
    }

    /** add_phase_shift and the rotations: one qubit and one angle. */
    method AddParameterised(kind: GateType, q: int, angle: real) returns (s: Status)
      requires kind in {PhaseShift, RotationX, RotationY, RotationZ}
      modifies this`gates
      ensures s == Done <==> 0 <= q < numQubits
      ensures s == Done ==> gates == old(gates) + [Gate(kind, [q], [angle], "")]
      ensures s != Done ==> s == Failed(InvalidArgument) && gates == old(gates)
    {
      OneQubit(q, numQubits);
      s := AddGate(Some(Gate(kind, [q], [angle], "")));
    }

    /** add_custom_gate: an empty name throws invalid_argument; otherwise
      * the name is bound, replacing any earlier binding. */
    method AddCustomGate(name: string, gate: Option<Gate>) returns (s: Status)
      modifies this`customGates
      ensures s == Done <==> name != ""
      ensures s == Done ==> customGates == old(customGates)[name := gate]
      ensures s != Done ==> s == Failed(InvalidArgument) && customGates == old(customGates)
    {
      if name == "" {
        return Failed(InvalidArgument);
      }
      customGates := customGates[name := gate];
      return Done;
    }

    /** get_depth: the number of gates. */
    function Depth(): (d: nat)
      reads this
      ensures d == |gates|
    {
      if gates == [] then 0 else |gates|
    }

    /** reset: no gates, no measurements; custom gates stay. */
    method Reset()
      modifies this`gates, this`measurements
      ensures gates == [] && measurements == []
    {
      gates := [];
      measurements := [];
    }

    /** clear: reset, and forget the custom gates too. */
    method Clear()
      modifies this`gates, this`measurements, this`customGates
      ensures gates == [] && measurements == [] && customGates == map[]
    {
      Reset();
      customGates := map[];
    }

    /** remove_gate: out_of_range past the end; otherwise gate `index`
      * goes and the rest keep their order. */
    method RemoveGate(index: nat) returns (s: Status)
      modifies this`gates
      ensures s == Done <==> index < |old(gates)|
      ensures s != Done ==> s == Failed(OutOfRange) && gates == old(gates)
      ensures s == Done ==> gates == old(gates[..index] + gates[index + 1..])
    {
      if index >= |gates| {
        return Failed(OutOfRange);
      }
      gates := gates[..index] + gates[index + 1..];
      return Done;
    }

    method RemoveMeasurement(index: nat) returns (s: Status)
      modifies this`measurements
      ensures s == Done <==> index < |old(measurements)|
      ensures s != Done ==> s == Failed(OutOfRange) && measurements == old(measurements)
      ensures s == Done ==> measurements == old(measurements[..index] + measurements[index + 1..])
    {
      if index >= |measurements| {
        return Failed(OutOfRange);
      }
      measurements := measurements[..index] + measurements[index + 1..];
      return Done;
    }

    /** compose: qubit counts must agree (invalid_argument otherwise); the
      * result has this circuit's gates then the other's, likewise the
      * measurements, this circuit's classical bits and no custom gates. */
    method Compose(other: Circuit) returns (r: Result<Circuit>)
      requires Valid() && other.Valid()
      ensures other.numQubits != numQubits ==> r == Err(InvalidArgument)
      ensures other.numQubits == numQubits ==> r.Ok? && fresh(r.value) && r.value.Valid()
      ensures r.Ok? ==> r.value.numQubits == numQubits && r.value.numClassicalBits == numClassicalBits
      ensures r.Ok? ==> r.value.gates == gates + other.gates
      ensures r.Ok? ==> r.value.measurements == measurements + other.measurements
      ensures r.Ok? ==> r.value.customGates == map[]
    {
      if other.numQubits != numQubits {
        return Err(InvalidArgument);
      }
      var result: Circuit := new Circuit(numQubits, numClassicalBits);
      var all := gates + other.gates;
      var k := 0;
      while k < |all|
        invariant 0 <= k <= |all|
        invariant result.numQubits == numQubits && result.gates == all[..k]
        modifies result`gates
      {
        assert QubitsInRange(all[k].qubits, numQubits);
        var s := result.AddGate(Some(all[k]));
        k := k + 1;
      }
      assert all[..k] == all;
      var allMs := measurements + other.measurements;
      k := 0;
      while k < |allMs|
        invariant 0 <= k <= |allMs|
        invariant result.numQubits == numQubits && result.measurements == allMs[..k]
        modifies result`measurements
      {
        assert 0 <= allMs[k].qubit < numQubits;
        var s := result.AddMeasurement(Some(allMs[k]));
        k := k + 1;
      }
      assert allMs[..k] == allMs;
      return Ok(result);
    }

    /** optimize: one pass with a stack of kept gates. */
    method Optimize()
      modifies this`gates
      ensures gates == Optimized(old(gates))
    {
      var gs := gates;
      var optimizedGates: seq<Gate> := [];
      var k := 0;
      while k < |gs|
        invariant 0 <= k <= |gs|
        invariant optimizedGates == Optimized(gs[..k])
      {
        OptimizedSnoc(gs[..k], gs[k]);
        assert gs[..k + 1] == gs[..k] + [gs[k]];
        optimizedGates := PushKept(optimizedGates, gs[k]);
        k := k + 1;
      }
      assert gs[..k] == gs;
      gates := optimizedGates;
    }

    /** get_validation_errors. */
    method GetValidationErrors() returns (errors: seq<ValidationError>)
      ensures errors == ValidationErrors(numQubits, gates, measurements)
    {
      errors := [];
      var k := 0;
      while k < |gates|
        invariant 0 <= k <= |gates|
        invariant errors == GateErrors(gates[..k], numQubits)
      {
        var found := OutOfRangeQubits(gates[k].qubits, numQubits);
        errors := errors + found;
        assert gates[..k + 1][..k] == gates[..k];
        k := k + 1;
      }
      assert gates[..k] == gates;
      k := 0;
      while k < |measurements|
        invariant 0 <= k <= |measurements|
        invariant errors == GateErrors(gates, numQubits) + MeasurementErrors(measurements[..k], numQubits)
      {
        var q := measurements[k].qubit;
        if q < 0 || q >= numQubits {
          errors := errors + [MeasurementQubit(q)];
        }
        assert measurements[..k + 1][..k] == measurements[..k];
        k := k + 1;
      }
      assert measurements[..k] == measurements;
    }

    /** is_valid: no validation error. Every circuit built through the
      * checked add methods is valid. */
    method IsValid() returns (b: bool)
      ensures b <==> ValidationErrors(numQubits, gates, measurements) == []
      ensures Valid() ==> b
    {
      var errors := GetValidationErrors();
      b := errors == [];
    }

    /** to_qasm. */
    method ToQasm() returns (qasm: string)
      requires forall k :: 0 <= k < |gates| ==> QasmShaped(gates[k])
      ensures qasm == Qasm(numQubits, numClassicalBits, gates, measurements)
    {
      var header := HeaderText(numQubits, numClassicalBits);
      var body := GateSection(gates);
      var tail := MeasureSection(measurements);
      qasm := header + body + tail;
    }
  }

  /** The gate loop of to_qasm. */
  method GateSection(gs: seq<Gate>) returns (text: string)
    requires forall k :: 0 <= k < |gs| ==> QasmShaped(gs[k])
    ensures text == Join(GateLines(gs))
  {
    ghost var lines := GateLines(gs);
    text := "";
    var k := 0;
    while k < |gs|
      invariant 0 <= k <= |gs|
      invariant text == Join(lines[..k])
    {
      var line := GateText(gs[k]);
      assert lines[..k + 1] == lines[..k] + [lines[k]];
      JoinSnoc(lines[..k], lines[k]);
      text := text + line;
      k := k + 1;
    }
    assert lines[..k] == lines;
  }

  /** The measurement loop of to_qasm. */
  method MeasureSection(ms: seq<Measurement>) returns (text: string)
    ensures text == Join(MeasureLines(ms))
  {
    ghost var lines := MeasureLines(ms);
    text := "";
    var k := 0;
    while k < |ms|
      invariant 0 <= k <= |ms|
      invariant text == Join(lines[..k])
    {
      var line := MeasureText(ms[k]);
      assert lines[..k + 1] == lines[..k] + [lines[k]];
      JoinSnoc(lines[..k], lines[k]);
      text := text + line;
      k := k + 1;
    }
    assert lines[..k] == lines;
  }

  /** The inner loop of get_validation_errors: one error per qubit
    * outside [0, n). */
  method OutOfRangeQubits(qs: seq<int>, n: int) returns (errors: seq<ValidationError>)
    ensures errors == QubitErrors(qs, n)
  {
    errors := [];
    var j := 0;
    while j < |qs|
      invariant 0 <= j <= |qs|
      invariant errors == QubitErrors(qs[..j], n)
    {
      if qs[j] < 0 || qs[j] >= n {
        errors := errors + [GateQubit(qs[j])];
      }
      assert qs[..j + 1][..j] == qs[..j];
      j := j + 1;
    }
    assert qs[..j] == qs;
  }

  /** The header lines of to_qasm. */
  method HeaderText(numQubits: int, numClassicalBits: int) returns (qasm: string)
    ensures qasm == QasmHeader(numQubits, numClassicalBits)
  {
    qasm := "OPENQASM 2.0;\n" + "include \"qelib1.inc\";\n\n";
    qasm := qasm + "qreg q[" + IntToString(numQubits) + "];\n";
    if numClassicalBits > 0 {
      qasm := qasm + "creg c[" + IntToString(numClassicalBits) + "];\n\n";
    }
  }

  /** The line to_qasm writes for one measurement. */
  method MeasureText(m: Measurement) returns (line: string)
    ensures line == MeasureLine(m)
  {
    var q := IntToString(m.qubit);
    line := "measure q[" + q + "] -> c[" + q + "];\n";
  }

  /** The line to_qasm writes for one gate. */
  method GateText(gate: Gate) returns (line: string)
    requires QasmShaped(gate)
    ensures line == GateLine(gate)
  {
    line := "";
    if gate.kind == Hadamard {
      line := "h q[" + IntToString(gate.qubits[0]) + "];\n";
    } else if gate.kind == PauliX {
      line := "x q[" + IntToString(gate.qubits[0]) + "];\n";
    } else if gate.kind == Cnot {
      line := "cx q[" + IntToString(gate.qubits[0]) + "],q[" + IntToString(gate.qubits[1]) + "];\n";
    }
  }

  /** The body of optimize's loop: pop the previous kept gate when the new
    * one cancels it, otherwise keep the new one. */
  method PushKept(optimizedGates: seq<Gate>, gate: Gate) returns (kept: seq<Gate>)
    ensures kept == Push(optimizedGates, gate)
  {
    if optimizedGates != [] {
      var prevGate := optimizedGates[|optimizedGates| - 1];
      if gate.kind == prevGate.kind && gate.qubits == prevGate.qubits {
        if gate.kind == Hadamard || gate.kind == PauliX || gate.kind == PauliZ {
          return optimizedGates[..|optimizedGates| - 1];
        }
      }
    }
    return optimizedGates + [gate];
  }

  /** Circuit(num_qubits, num_classical_bits): a negative qubit count
    * throws invalid_argument. */
  method NewCircuit(numQubits: int, numClassicalBits: int) returns (r: Result<Circuit>)
    ensures r.Err? <==> numQubits < 0
    ensures r.Err? ==> r.error == InvalidArgument
    ensures r.Ok? ==> fresh(r.value) && r.value.Valid()
    ensures r.Ok? ==> r.value.numQubits == numQubits && r.value.numClassicalBits == numClassicalBits
    ensures r.Ok? ==> r.value.gates == [] && r.value.measurements == []
  {
    if numQubits < 0 {
      return Err(InvalidArgument);
    }
    var c := new Circuit(numQubits, numClassicalBits);
    return Ok(c);
  }

  lemma OneQubit(q: int, n: int)
    ensures QubitsInRange([q], n) <==> 0 <= q < n
  {
    assert [q][0] == q;
  }

  lemma TwoQubits(a: int, b: int, n: int)
    ensures QubitsInRange([a, b], n) <==> 0 <= a < n && 0 <= b < n
  {
    assert [a, b][0] == a && [a, b][1] == b;
  }

  /** The add methods keep every circuit valid. */
  lemma AddKeepsValid(n: int, gates: seq<Gate>, g: Gate)
    requires GatesInRange(gates, n) && QubitsInRange(g.qubits, n)
    ensures GatesInRange(gates + [g], n)
  {
  }
}
