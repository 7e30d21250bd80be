/** Quantum phase estimation of libomniq-core/src/modules/algorithms/QPE.cpp:
  * the checks of the QPE object, the shape of the circuits it builds, the
  * size checks of its QFT and controlled-unitary gates, the conversion of
  * measured precision bits into phase estimates, and the phase/eigenvalue
  * conversions of qpe_utils. */
module Qpe {
  import opened Wrappers
  import opened Bits
  import opened ComplexNumbers
  import Circuits
  import Grovers

  /** UnitaryOperator: a map applied to a state from a starting qubit. */
  type Unitary = (seq<Complex>, int) -> seq<Complex>

  /** The gates QPE adds to a circuit: a Hadamard, a ControlledUnitaryGate
    * (control qubit, first target qubit, number of targets, power) or a
    * QFTGate (width, inverse). The unitary a controlled gate carries is not
    * part of the value. */
  datatype QpeGate =
    | Hadamard(qubit: int)
    | ControlledUnitary(control: int, targetStart: int, numTargets: int, power: int)
    | Qft(width: int, inverse: bool)

  /** The qubit list of the gate's Gate base: {q}, {control} or {}. This is
    * what Circuit::add_gate range-checks. */
  function QubitsOf(g: QpeGate): seq<int>
  {
    match g
    case Hadamard(q) => [q]
    case ControlledUnitary(control, _, _, _) => [control]
    case Qft(_, _) => []
  }

  /** The gate's name: "QFT", "InverseQFT" or "ControlledUnitary"; a
    * HadamardGate has none. */
  function GateName(g: QpeGate): string
  {
    match g
    case Hadamard(_) => ""
    case ControlledUnitary(_, _, _, _) => "ControlledUnitary"
    case Qft(_, inverse) => if inverse then "InverseQFT" else "QFT"
  }

  datatype QpeCircuit = QpeCircuit(numQubits: int, gates: seq<QpeGate>)

  // ---------------------------------------------------------------------
  // QFTGate and ControlledUnitaryGate

  /** apply_qft_to_statevector and its inverse: a state whose qubit count
    * differs from the gate's is an invalid_argument. */
  function QftCheck(width: int, stateQubits: int): (s: Status)
    ensures s == Done <==> stateQubits == width
    ensures s.Failed? ==> s.error == InvalidArgument
  {
    if stateQubits != width then Failed(InvalidArgument) else Done
  }

  /** The ControlledUnitaryGate constructor: a null unitary is an
    * invalid_argument. */
  function NewControlledUnitary(control: int, targetStart: int, numTargets: int, unitary: Option<Unitary>, power: int)
    : (r: Result<QpeGate>)
    ensures r.Err? <==> unitary.None?
    ensures r.Err? ==> r.error == InvalidArgument
    ensures r.Ok? ==> QubitsOf(r.value) == [control] && GateName(r.value) == "ControlledUnitary"
  {
    if unitary.None? then Err(InvalidArgument)
    else Ok(ControlledUnitary(control, targetStart, numTargets, power))
  }

  /** apply_controlled_unitary_to_statevector's size check: the state must
    * hold the control qubit and every target qubit. */
  function ControlledUnitaryCheck(g: QpeGate, stateQubits: int): (s: Status)
    requires g.ControlledUnitary?
    ensures s == Done <==> g.control < stateQubits && g.targetStart + g.numTargets <= stateQubits
    ensures s.Failed? ==> s.error == InvalidArgument
  {
    if stateQubits < g.control + 1 || stateQubits < g.targetStart + g.numTargets then Failed(InvalidArgument)
    else Done
  }

  /** The check a gate's apply(Statevector&) makes on an n-qubit state: a
    * Hadamard's qubit was range-checked by add_gate, a controlled unitary
    * needs room for its control and targets, a QFT an exact qubit count. */
  function GateCheck(g: QpeGate, n: int): (s: Status)
    ensures s.Failed? ==> s.error == InvalidArgument
  {
    match g
    case Hadamard(_) => Done
    case ControlledUnitary(_, _, _, _) => ControlledUnitaryCheck(g, n)
    case Qft(width, _) => QftCheck(width, n)
  }

  /** The gate loop of Circuit::execute_statevector on an n-qubit state,
    * as far as its checks go: the first gate whose check fails throws. */
  function RunChecks(gates: seq<QpeGate>, n: int): (s: Status)
    ensures s == Done <==> forall k :: 0 <= k < |gates| ==> GateCheck(gates[k], n) == Done
    ensures s.Failed? ==> s.error == InvalidArgument
  {
    if |gates| == 0 then Done
    else if GateCheck(gates[0], n).Failed? then GateCheck(gates[0], n)
    else RunChecks(gates[1..], n)
  }

  /** When every gate before gates[j] passes, the run throws what gates[j]
    * throws. */
  lemma {:induction false} RunChecksFirstFailure(gates: seq<QpeGate>, n: int, j: nat)
    requires j < |gates| && GateCheck(gates[j], n).Failed?
    requires forall k :: 0 <= k < j ==> GateCheck(gates[k], n) == Done
    ensures RunChecks(gates, n) == GateCheck(gates[j], n)
  {
    if j > 0 {
      assert gates[1..][j - 1] == gates[j];
      RunChecksFirstFailure(gates[1..], n, j - 1);
    }
  }

  /** Circuit::execute_statevector from the default Statevector(0): the
    * state becomes the circuit's numQubits-qubit |0...0> and every gate is
    * applied in turn. Only the checks are modelled. */
  method ExecuteStatevector(c: QpeCircuit) returns (s: Status)
    ensures s == RunChecks(c.gates, c.numQubits)
  {
    var k := 0;
    while k < |c.gates|
      invariant 0 <= k <= |c.gates|
      invariant forall j :: 0 <= j < k ==> GateCheck(c.gates[j], c.numQubits) == Done
    {
      var g := GateCheck(c.gates[k], c.numQubits);
      if g.Failed? {
        RunChecksFirstFailure(c.gates, c.numQubits, k);
        return g;
      }
      k := k + 1;
    }
    return Done;
  }

  // ---------------------------------------------------------------------
  // qpe_utils::phase_to_eigenvalue, eigenvalue_to_phase

  /** 2π · phase, with `twoPi` standing for 2 · M_PI. */
  function PhaseToEigenvalue(phase: real, twoPi: real): real
  {
    twoPi * phase
  }

  /** The fractional part of eigenvalue / 2π. */
  function EigenvalueToPhase(eigenvalue: real, twoPi: real): (phase: real)
    requires twoPi > 0.0
    ensures 0.0 <= phase < 1.0
  {
    var x := eigenvalue / twoPi;
    x - x.Floor as real
  }

  /** A phase in [0, 1) survives the trip through its eigenvalue. */
  lemma PhaseRoundTrip(phase: real, twoPi: real)
    requires twoPi > 0.0 && 0.0 <= phase < 1.0
    ensures EigenvalueToPhase(PhaseToEigenvalue(phase, twoPi), twoPi) == phase
  {
    assert PhaseToEigenvalue(phase, twoPi) / twoPi == phase;
    assert phase.Floor == 0;
  }

  /** Shifting an eigenvalue by a whole turn leaves its phase unchanged. */
  lemma PhaseOfFullTurn(eigenvalue: real, twoPi: real, k: int)
    requires twoPi > 0.0
    ensures EigenvalueToPhase(eigenvalue + (k as real) * twoPi, twoPi) == EigenvalueToPhase(eigenvalue, twoPi)
  {
    var x := eigenvalue / twoPi;
    assert (eigenvalue + (k as real) * twoPi) / twoPi == x + k as real;
    assert (x + k as real).Floor == x.Floor + k;
  }

  // ---------------------------------------------------------------------
  // QPE

  /** A phase estimate: the measured integer over 2^p. */
  function Estimate(measure: (int, int) -> bool, shot: int, p: nat): real
  {
    (FromBits(Grovers.ShotBits(measure, shot, p)) as real) / (Pow2(p) as real)
  }

  /** Every estimate lies in [0, 1) and is a whole multiple of 2^-p: its
    * numerator is the packed measurement of the precision qubits, whose
    * bits Grovers.ShotResultBits describes. */
  lemma EstimateIs(measure: (int, int) -> bool, shot: int, p: nat)
    ensures var m := FromBits(Grovers.ShotBits(measure, shot, p));
      0 <= m < Pow2(p) && Estimate(measure, shot, p) * (Pow2(p) as real) == m as real
    ensures 0.0 <= Estimate(measure, shot, p) < 1.0
  {
    var bits := Grovers.ShotBits(measure, shot, p);
    FromBitsBound(bits);
    Fraction(Estimate(measure, shot, p), FromBits(bits) as real, Pow2(p) as real);
  }

  lemma Fraction(e: real, m: real, d: real)
    requires 0.0 <= m < d && e == m / d
    ensures 0.0 <= e < 1.0 && e * d == m
  {
  }

  /** The gates build_circuit adds for p precision and e eigenstate qubits:
    * p Hadamards, p controlled powers 2^i of the unitary, one inverse QFT. */
  function CircuitGates(p: nat, e: int): (gates: seq<QpeGate>)
    ensures |gates| == 2 * p + 1
  {
    seq(p, k => Hadamard(k)) + seq(p, k requires 0 <= k => ControlledUnitary(k, p, e, Pow2(k))) + [Qft(p, true)]
  }

  /** The circuit build_circuit returns fails in execute_statevector: every
    * gate but the last passes its check on the p + e qubits, and the last,
    * the width-p inverse QFT, throws invalid_argument because the state has
    * e > 0 qubits more than it. */
  lemma InverseQftRejectsCircuit(p: nat, e: int)
    requires p > 0 && e > 0
    ensures CircuitGates(p, e)[2 * p] == Qft(p, true) && QftCheck(p, p + e) == Failed(InvalidArgument)
    ensures forall k :: 0 <= k < 2 * p ==> GateCheck(CircuitGates(p, e)[k], p + e) == Done
    ensures RunChecks(CircuitGates(p, e), p + e) == Failed(InvalidArgument)
  {
    var gates := CircuitGates(p, e);
    forall k | 0 <= k < 2 * p
      ensures GateCheck(gates[k], p + e) == Done
    {
      if k >= p {
        assert gates[k] == ControlledUnitary(k - p, p, e, Pow2(k - p));
      }
    }
    RunChecksFirstFailure(gates, p + e, 2 * p);
  }

  class Qpe {
    const numPrecision: int
    const numEigenstate: int
    const unitary: Unitary
    var eigenvalues: seq<real>
    var eigenstates: seq<Complex>

    ghost predicate Valid()
      reads this
    {
      numPrecision > 0 && numEigenstate > 0
    }

    /** QPE(p, e, unitary) once its checks have passed; see NewQpe. */
    constructor (p: int, e: int, unitary: Unitary)
      requires p > 0 && e > 0
      ensures Valid()
      ensures numPrecision == p && numEigenstate == e && this.unitary == unitary
      ensures eigenvalues == [] && eigenstates == []
    {
      numPrecision := p;
      numEigenstate := e;
      this.unitary := unitary;
      eigenvalues := [];
      eigenstates := [];
    }

    /** get_total_qubits. */
    function TotalQubits(): (n: int)
      reads this
      requires Valid()
      ensures n > numPrecision && n > numEigenstate
    {
      numPrecision + numEigenstate
    }

    /** set_eigenvalues_and_states: both lists are stored as given. */
    method SetEigenvaluesAndStates(values: seq<real>, states: seq<Complex>)
      modifies this`eigenvalues, this`eigenstates
      ensures eigenvalues == values && eigenstates == states
    {
      eigenvalues := values;
      eigenstates := states;
    }

    /** build_circuit: on p + e qubits, p Hadamards on qubits 0 .. p - 1,
      * then p controlled unitaries, the i-th controlled by qubit i, acting
      * on the e qubits from p with power 2^i, then one inverse QFT on the
      * precision qubits; every gate passes add_gate's range check. */
    method BuildCircuit() returns (c: QpeCircuit)
      requires Valid()
      ensures c.numQubits == TotalQubits() && |c.gates| == 2 * numPrecision + 1
      ensures forall k :: 0 <= k < numPrecision ==> c.gates[k] == Hadamard(k)
      ensures forall k :: 0 <= k < numPrecision ==>
        c.gates[numPrecision + k] == ControlledUnitary(k, numPrecision, numEigenstate, Pow2(k))
      ensures c.gates[2 * numPrecision] == Qft(numPrecision, true)
      ensures c.gates == CircuitGates(numPrecision, numEigenstate)
      ensures forall k :: 0 <= k < |c.gates| ==> Circuits.QubitsInRange(QubitsOf(c.gates[k]), c.numQubits)
    {
      var p := numPrecision;
      var gates: seq<QpeGate> := [];
      var i := 0;
      while i < p
        invariant 0 <= i <= p && |gates| == i
        invariant forall k :: 0 <= k < i ==> gates[k] == Hadamard(k)
      {
        gates := gates + [Hadamard(i)];
        i := i + 1;
      }
      i := 0;
      while i < p
        invariant 0 <= i <= p && |gates| == p + i
        invariant forall k :: 0 <= k < p ==> gates[k] == Hadamard(k)
        invariant forall k :: 0 <= k < i ==> gates[p + k] == ControlledUnitary(k, p, numEigenstate, Pow2(k))
      {
        var power := Pow2(i);
        gates := gates + [ControlledUnitary(i, p, numEigenstate, power)];
        i := i + 1;
      }
      gates := gates + [Qft(p, true)];
      c := QpeCircuit(TotalQubits(), gates);
      forall k | 0 <= k < |c.gates|
        ensures Circuits.QubitsInRange(QubitsOf(c.gates[k]), c.numQubits)
      {
        if k >= p && k < 2 * p {
          assert c.gates[k] == ControlledUnitary(k - p, p, numEigenstate, Pow2(k - p));
        }
      }
    }

    /** build_qft: a width-p circuit holding one forward QFT gate. */
    function BuildQft(): (c: QpeCircuit)
      reads this
      ensures c.numQubits == numPrecision && |c.gates| == 1
      ensures GateName(c.gates[0]) == "QFT" && c.gates[0] == Qft(numPrecision, false)
    {
      QpeCircuit(numPrecision, [Qft(numPrecision, false)])
    }

    /** build_inverse_qft: a width-p circuit holding one inverse QFT gate. */
    function BuildInverseQft(): (c: QpeCircuit)
      reads this
      ensures c.numQubits == numPrecision && |c.gates| == 1
      ensures GateName(c.gates[0]) == "InverseQFT" && c.gates[0] == Qft(numPrecision, true)
    {
      QpeCircuit(numPrecision, [Qft(numPrecision, true)])
    }

    /** execute_with_measurements as written: a non-positive shot count is
      * an invalid_argument, and otherwise the first shot's execute() throws
      * invalid_argument on build_circuit's circuit (InverseQftRejectsCircuit),
      * so no measurement is ever taken. */
    method ExecuteWithMeasurements(numShots: int) returns (r: Result<seq<real>>)
      requires Valid()
      ensures r == Err(InvalidArgument)
    {
      if numShots <= 0 {
        return Err(InvalidArgument);
      }
      var c := BuildCircuit();
      var status := ExecuteStatevector(c);
      InverseQftRejectsCircuit(numPrecision, numEigenstate);
      return Err(status.error);
    }

    /** execute_with_measurements as intended, with the inverse QFT acting
      * on the precision qubits of the full state: a non-positive shot count
      * is an invalid_argument; otherwise one estimate per shot, the
      * measured precision bits `measure(shot, i)` read as an integer over
      * 2^p. */
    method ExecuteWithMeasurementsCorrected(numShots: int, measure: (int, int) -> bool) returns (r: Result<seq<real>>)
      requires Valid()
      ensures r.Err? <==> numShots <= 0
      ensures r.Err? ==> r.error == InvalidArgument
      ensures r.Ok? ==> |r.value| == numShots
      ensures r.Ok? ==> forall s :: 0 <= s < numShots ==>
        r.value[s] == Estimate(measure, s, numPrecision) && 0.0 <= r.value[s] < 1.0
    {
      if numShots <= 0 {
        return Err(InvalidArgument);
      }
      var estimates: seq<real> := [];
      var shot := 0;
      while shot < numShots
        invariant 0 <= shot <= numShots && |estimates| == shot
        invariant forall s :: 0 <= s < shot ==>
          estimates[s] == Estimate(measure, s, numPrecision) && 0.0 <= estimates[s] < 1.0
      {
        var measurement := Grovers.PackShot(measure, shot, numPrecision);
        var phase := (measurement as real) / (Pow2(numPrecision) as real);
        EstimateIs(measure, shot, numPrecision);
        estimates := estimates + [phase];
        shot := shot + 1;
      }
      return Ok(estimates);
    }
  }

  /** The QPE constructor: non-positive precision or eigenstate qubit
    * counts and a null unitary are invalid_arguments. */
  method NewQpe(p: int, e: int, unitary: Option<Unitary>) returns (r: Result<Qpe>)
    ensures r.Err? <==> p <= 0 || e <= 0 || unitary.None?
    ensures r.Err? ==> r.error == InvalidArgument
    ensures r.Ok? ==> fresh(r.value) && r.value.Valid()
    ensures r.Ok? ==> r.value.numPrecision == p && r.value.numEigenstate == e && r.value.unitary == unitary.value
  {
    if p <= 0 || e <= 0 || unitary.None? {
      return Err(InvalidArgument);
    }
    var q := new Qpe(p, e, unitary.value);
    return Ok(q);
  }
}
