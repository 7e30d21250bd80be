/** The configurable noise model
  * (libomniq-core/src/modules/noise/NoiseModel.cpp): hardware parameters,
  * gate fidelities and an enable flag decide which channels are applied
  * after a gate, during idle time and at readout.
  *
  * Applying a channel to a density matrix is left to the channels' Kraus
  * operators; here a call yields the list of channel applications it
  * performs, in order, or the error a channel constructor throws. */
module NoiseModels {
  import opened Wrappers
  import opened NoiseChannels
  import DepolarizingChannels
  import AmplitudeDampingChannels
  import PhaseDampingChannels

  /** HardwareParams: times in seconds. */
  datatype HardwareParams = HardwareParams(
    t1: real,
    t2: real,
    singleQubitGateTime: real,
    twoQubitGateTime: real,
    readoutFidelity: real)

  /** GateFidelities: 1 is a perfect gate. */
  datatype GateFidelities = GateFidelities(singleQubit: real, twoQubit: real, measurement: real)

  /** Typical superconducting qubits: T1 = 50 µs, T2 = 70 µs, gates of 50 ns
    * and 200 ns, readout fidelity 0.95. */
  const DefaultHardware: HardwareParams := HardwareParams(0.00005, 0.00007, 0.00000005, 0.0000002, 0.95)

  const DefaultFidelities: GateFidelities := GateFidelities(0.9999, 0.99, 0.95)

  /** The parameters createNoisyModel installs. */
  const NoisyHardware: HardwareParams := HardwareParams(0.00002, 0.00003, 0.0000001, 0.0000004, 0.90)

  const NoisyFidelities: GateFidelities := GateFidelities(0.995, 0.95, 0.90)

  /** One channel application on one qubit. */
  datatype NoiseStep =
    | Depolarize(qubit: int, p: real)
    | Relax(qubit: int, gamma: real)
    | Dephase(qubit: int, lambda: real)
  {
    /** The parameter the channel is constructed with. */
    function Strength(): real
    {
      match this
      case Depolarize(_, p) => p
      case Relax(_, g) => g
      case Dephase(_, l) => l
    }
  }

  /** The Kraus operators of the channel a step constructs. */
  function StepKraus(s: NoiseStep): seq<KrausOperator>
  {
    match s
    case Depolarize(_, p) => DepolarizingChannels.Kraus(p)
    case Relax(_, g) => AmplitudeDampingChannels.Kraus(g)
    case Dephase(_, l) => PhaseDampingChannels.Kraus(l)
  }

  /** Every step whose parameter the constructors accept is a complete
    * (trace-preserving) channel. */
  lemma StepComplete(s: NoiseStep)
    requires Probability(s.Strength())
    ensures Complete(StepKraus(s))
  {
    match s
    case Depolarize(_, p) => DepolarizingChannels.KrausComplete(p);
    case Relax(_, g) => AmplitudeDampingChannels.KrausComplete(g);
    case Dephase(_, l) => PhaseDampingChannels.KrausComplete(l);
  }

  /** calculateDepolarizingError: p = (4/3)(1 − F), and no error at all for a
    * fidelity of 1 or more. The result is a valid channel parameter exactly
    * when F ≥ 1/4. */
  function DepolarizingError(fidelity: real): (p: real)
    ensures p >= 0.0
    ensures p > 0.0 <==> fidelity < 1.0
    ensures Probability(p) <==> fidelity >= 0.25
    ensures fidelity < 1.0 ==> 3.0 * p == 4.0 * (1.0 - fidelity)
  {
    if fidelity >= 1.0 then 0.0 else (4.0 / 3.0) * (1.0 - fidelity)
  }

  /** Gate names that select the two-qubit fidelity and gate time. */
  const TwoQubitGates: set<string> := {"CNOT", "CZ", "SWAP"}

  /** The fidelity and gate time applyGateNoise selects for a gate name. */
  function GateProfile(gateName: string, hw: HardwareParams, fid: GateFidelities): (r: (real, real))
    ensures gateName in TwoQubitGates ==> r == (fid.twoQubit, hw.twoQubitGateTime)
    ensures gateName !in TwoQubitGates ==> r == (fid.singleQubit, hw.singleQubitGateTime)
  {
    if gateName == "CNOT" || gateName == "CZ" || gateName == "SWAP" then
      (fid.twoQubit, hw.twoQubitGateTime)
    else
      (fid.singleQubit, hw.singleQubitGateTime)
  }

  /** A channel is constructed only for a positive parameter, and its
    * constructor throws invalid_argument above 1. */
  function Guarded(step: NoiseStep): (r: Result<seq<NoiseStep>>)
    ensures r == Ok([]) <==> step.Strength() <= 0.0
    ensures r.Err? <==> step.Strength() > 1.0
    ensures r.Err? ==> r.error == InvalidArgument
    ensures r.Ok? && r.value != [] ==> r.value == [step] && 0.0 < step.Strength() <= 1.0
  {
    if step.Strength() > 0.0 then
      if step.Strength() > 1.0 then Err(InvalidArgument) else Ok([step])
    else
      Ok([])
  }

  /** Two applications one after the other: the first error stops the call. */
  function Then(a: Result<seq<NoiseStep>>, b: Result<seq<NoiseStep>>): (r: Result<seq<NoiseStep>>)
    ensures r.Ok? <==> a.Ok? && b.Ok?
    ensures r.Ok? ==> r.value == a.value + b.value
    ensures a.Err? ==> r == a
  {
    if a.Err? then a else if b.Err? then b else Ok(a.value + b.value)
  }

  /** The divisions applyIdleNoise performs are defined: T1, T2 and the
    * pure-dephasing rate 1/T2 − 1/(2·T1) are all non-zero. */
  predicate IdleDefined(hw: HardwareParams)
  {
    hw.t1 != 0.0 && hw.t2 != 0.0 && 1.0 / hw.t2 - 1.0 / (2.0 * hw.t1) != 0.0
  }

  /** T2* = (1/T2 − 1/(2·T1))⁻¹, the pure-dephasing time. */
  function PureDephasingTime(hw: HardwareParams): real
    requires IdleDefined(hw)
  {
    1.0 / (1.0 / hw.t2 - 1.0 / (2.0 * hw.t1))
  }

  /** applyIdleNoise: nothing when disabled, for a non-positive idle time or
    * for more than one qubit; otherwise amplitude damping with
    * γ = 1 − exp(−t/T1), then phase damping with λ = 1 − exp(−t/T2*). */
  function IdleNoise(hw: HardwareParams, enabled: bool, numQubits: int, qubit: int, idleTime: real,
                     exp: real -> real): (r: Result<seq<NoiseStep>>)
    requires enabled && idleTime > 0.0 && numQubits == 1 ==> IdleDefined(hw)
    ensures !enabled || idleTime <= 0.0 || numQubits != 1 ==> r == Ok([])
    ensures r.Ok? ==> |r.value| <= 2 && forall s :: s in r.value ==> s.qubit == qubit && 0.0 < s.Strength() <= 1.0
  {
    if !enabled || idleTime <= 0.0 then Ok([])
    else if numQubits != 1 then Ok([])
    else
      Then(Guarded(Relax(qubit, DecayProbability(hw.t1, idleTime, exp))),
           Guarded(Dephase(qubit, DecayProbability(PureDephasingTime(hw), idleTime, exp))))
  }

  /** What applyGateNoise needs of its inputs when it does any work: a
    * first qubit to act on, and defined divisions when idle noise follows. */
  predicate GateNoiseDefined(hw: HardwareParams, fid: GateFidelities, enabled: bool, numQubits: int,
                             gateName: string, qubits: seq<int>)
  {
    enabled && numQubits == 1 ==>
      |qubits| > 0 && (GateProfile(gateName, hw, fid).1 > 0.0 ==> IdleDefined(hw))
  }

  /** applyGateNoise: nothing when disabled or for more than one qubit;
    * otherwise depolarizing noise derived from the gate's fidelity on the
    * first qubit, then idle noise for the gate's duration. */
  function GateNoise(hw: HardwareParams, fid: GateFidelities, enabled: bool, numQubits: int,
                     gateName: string, qubits: seq<int>, exp: real -> real): (r: Result<seq<NoiseStep>>)
    requires GateNoiseDefined(hw, fid, enabled, numQubits, gateName, qubits)
    ensures !enabled || numQubits != 1 ==> r == Ok([])
    ensures r.Ok? ==> |r.value| <= 3 && forall s :: s in r.value ==> s.qubit == qubits[0] && 0.0 < s.Strength() <= 1.0
  {
    if !enabled then Ok([])
    else if numQubits != 1 then Ok([])
    else
      var (fidelity, gateTime) := GateProfile(gateName, hw, fid);
      Then(Guarded(Depolarize(qubits[0], DepolarizingError(fidelity))),
           IdleNoise(hw, enabled, numQubits, qubits[0], gateTime, exp))
  }

  /** Every channel a successful applyGateNoise constructs is complete. */
  lemma GateNoiseComplete(hw: HardwareParams, fid: GateFidelities, enabled: bool, numQubits: int,
                          gateName: string, qubits: seq<int>, exp: real -> real)
    requires GateNoiseDefined(hw, fid, enabled, numQubits, gateName, qubits)
    ensures var r := GateNoise(hw, fid, enabled, numQubits, gateName, qubits, exp);
      r.Ok? ==> forall s :: s in r.value ==> Complete(StepKraus(s))
  {
    var r := GateNoise(hw, fid, enabled, numQubits, gateName, qubits, exp);
    if r.Ok? {
      forall s | s in r.value
        ensures Complete(StepKraus(s))
      {
        StepComplete(s);
      }
    }
  }

  /** A gate whose fidelity is below 1/4 derives a depolarizing probability
    * above 1, so the depolarizing constructor throws. */
  lemma LowFidelityFails(hw: HardwareParams, fid: GateFidelities, gateName: string, qubits: seq<int>,
                         exp: real -> real)
    requires GateNoiseDefined(hw, fid, true, 1, gateName, qubits)
    requires GateProfile(gateName, hw, fid).0 < 0.25
    ensures GateNoise(hw, fid, true, 1, gateName, qubits, exp) == Err(InvalidArgument)
  {
  }

  /** Physical parameters never make a gate fail: a positive T1, a positive
    * T2*, non-negative gate times and fidelities of at least 1/4. */
  lemma GateNoiseSucceeds(hw: HardwareParams, fid: GateFidelities, enabled: bool, numQubits: int,
                          gateName: string, qubits: seq<int>, exp: real -> real)
    requires GateNoiseDefined(hw, fid, enabled, numQubits, gateName, qubits)
    requires hw.t1 > 0.0 && IdleDefined(hw) && PureDephasingTime(hw) > 0.0 && ExpLaw(exp)
    requires hw.singleQubitGateTime >= 0.0 && hw.twoQubitGateTime >= 0.0
    requires fid.singleQubit >= 0.25 && fid.twoQubit >= 0.25
    ensures GateNoise(hw, fid, enabled, numQubits, gateName, qubits, exp).Ok?
  {
    if enabled && numQubits == 1 {
      var (fidelity, gateTime) := GateProfile(gateName, hw, fid);
      if gateTime > 0.0 {
        DecayInRange(hw.t1, gateTime, exp);
        DecayInRange(PureDephasingTime(hw), gateTime, exp);
      }
    }
  }

  /** The gate name matters only through its class: a gate behaves like a
    * single-qubit "H" whose fidelity and duration are those its class
    * selects. */
  lemma GateClassification(hw: HardwareParams, fid: GateFidelities, gateName: string, qubits: seq<int>,
                           exp: real -> real)
    requires GateNoiseDefined(hw, fid, true, 1, gateName, qubits)
    ensures var (f, t) := if gateName in TwoQubitGates then (fid.twoQubit, hw.twoQubitGateTime)
                          else (fid.singleQubit, hw.singleQubitGateTime);
      var hw', fid' := hw.(singleQubitGateTime := t), fid.(singleQubit := f);
      GateNoiseDefined(hw', fid', true, 1, "H", qubits) &&
      GateNoise(hw, fid, true, 1, gateName, qubits, exp) == GateNoise(hw', fid', true, 1, "H", qubits, exp)
  {
    assert "H" !in TwoQubitGates;
  }

  /** applyMeasurementNoise with the uniform draw from [0, 1) passed in: the
    * result flips exactly when the model is enabled and the draw falls below
    * the readout error 1 − readoutFidelity. */
  function MeasurementNoise(enabled: bool, readoutFidelity: real, result: int, draw: real): (r: int)
    ensures r == result || r == 1 - result
    ensures r != result <==> enabled && draw < 1.0 - readoutFidelity && result != 1 - result
    ensures result == 0 || result == 1 ==> r == 0 || r == 1
  {
    if !enabled then result
    else if draw < 1.0 - readoutFidelity then 1 - result
    else result
  }

  /** A perfect readout never flips a result drawn from [0, 1). */
  lemma PerfectReadout(enabled: bool, result: int, draw: real)
    requires 0.0 <= draw
    ensures MeasurementNoise(enabled, 1.0, result, draw) == result
  {
  }

  class NoiseModel {
    var hardware: HardwareParams
    var fidelities: GateFidelities
    var enabled: bool

    /** NoiseModel(): the default parameters, enabled. */
    constructor ()
      ensures hardware == DefaultHardware && fidelities == DefaultFidelities && enabled
    {
      hardware := DefaultHardware;
      fidelities := DefaultFidelities;
      enabled := true;
    }

    method SetHardwareParams(params: HardwareParams)
      modifies this`hardware
      ensures hardware == params
    {
      hardware := params;
    }

    method SetGateFidelities(f: GateFidelities)
      modifies this`fidelities
      ensures fidelities == f
    {
      fidelities := f;
    }

    method SetEnabled(e: bool)
      modifies this`enabled
      ensures enabled == e
    {
      enabled := e;
    }

    /** applyGateNoise on a density matrix of `numQubits` qubits. */
    function ApplyGateNoise(numQubits: int, gateName: string, qubits: seq<int>, exp: real -> real): (r: Result<seq<NoiseStep>>)
      reads this
      requires GateNoiseDefined(hardware, fidelities, enabled, numQubits, gateName, qubits)
      ensures !enabled || numQubits != 1 ==> r == Ok([])
      ensures r.Ok? ==> forall s :: s in r.value ==> Complete(StepKraus(s))
    {
      GateNoiseComplete(hardware, fidelities, enabled, numQubits, gateName, qubits, exp);
      GateNoise(hardware, fidelities, enabled, numQubits, gateName, qubits, exp)
    }

    /** applyIdleNoise on a density matrix of `numQubits` qubits. */
    function ApplyIdleNoise(numQubits: int, qubit: int, idleTime: real, exp: real -> real): (r: Result<seq<NoiseStep>>)
      reads this
      requires enabled && idleTime > 0.0 && numQubits == 1 ==> IdleDefined(hardware)
      ensures !enabled || idleTime <= 0.0 || numQubits != 1 ==> r == Ok([])
      ensures r.Ok? ==> forall s :: s in r.value ==> s.qubit == qubit && Complete(StepKraus(s))
    {
      var r := IdleNoise(hardware, enabled, numQubits, qubit, idleTime, exp);
      if r.Ok? then
        forall s | s in r.value
          ensures Complete(StepKraus(s))
        {
          StepComplete(s);
        }
        r
      else
        r
    }

    /** applyMeasurementNoise with the draw passed in. */
    function ApplyMeasurementNoise(result: int, draw: real): (r: int)
      reads this
      ensures r == result || r == 1 - result
      ensures r != result <==> enabled && draw < 1.0 - hardware.readoutFidelity && result != 1 - result
    {
      MeasurementNoise(enabled, hardware.readoutFidelity, result, draw)
    }
  }

  /** createIdealModel: the defaults with noise switched off. */
  method CreateIdealModel() returns (m: NoiseModel)
    ensures fresh(m)
    ensures m.hardware == DefaultHardware && m.fidelities == DefaultFidelities && !m.enabled
  {
    m := new NoiseModel();
    m.SetEnabled(false);
  }

  /** createTypicalModel: the defaults. */
  method CreateTypicalModel() returns (m: NoiseModel)
    ensures fresh(m)
    ensures m.hardware == DefaultHardware && m.fidelities == DefaultFidelities && m.enabled
  {
    m := new NoiseModel();
  }

  /** createNoisyModel: shorter coherence times, slower gates and lower
    * fidelities. */
  method CreateNoisyModel() returns (m: NoiseModel)
    ensures fresh(m)
    ensures m.hardware == NoisyHardware && m.fidelities == NoisyFidelities && m.enabled
  {
    m := new NoiseModel();
    m.SetHardwareParams(NoisyHardware);
    m.SetGateFidelities(NoisyFidelities);
  }

  /** The preset parameters are physical, so no gate of an enabled preset
    * ever makes a channel constructor throw. */
  lemma PresetsSucceed(gateName: string, qubits: seq<int>, exp: real -> real)
    requires |qubits| > 0 && ExpLaw(exp)
    ensures GateNoiseDefined(DefaultHardware, DefaultFidelities, true, 1, gateName, qubits)
    ensures GateNoise(DefaultHardware, DefaultFidelities, true, 1, gateName, qubits, exp).Ok?
    ensures GateNoiseDefined(NoisyHardware, NoisyFidelities, true, 1, gateName, qubits)
    ensures GateNoise(NoisyHardware, NoisyFidelities, true, 1, gateName, qubits, exp).Ok?
  {
    assert PureDephasingTime(DefaultHardware) > 0.0;
    assert PureDephasingTime(NoisyHardware) > 0.0;
    GateNoiseSucceeds(DefaultHardware, DefaultFidelities, true, 1, gateName, qubits, exp);
    GateNoiseSucceeds(NoisyHardware, NoisyFidelities, true, 1, gateName, qubits, exp);
  }
}
