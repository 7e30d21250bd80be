/** The debugger's CoreInterface: the bridge between the Qt front end and the
  * QuantumCircuit / QuantumState back end. It keeps a step counter and a
  * step total of its own beside the circuit's cursor, caches per-qubit
  * summaries of the state, and imports circuits from JSON records. */
module CoreInterfaces {
  import opened Wrappers
  import opened Bits
  import opened ComplexNumbers
  import opened QuantumBackend

  // ---------------------------------------------------------------------
  // Gate names

  /** gateTypeToString: MEASURE falls to the default branch. */
  function GateTypeToString(t: GateType): string
  {
    match t
    case H => "H" case X => "X" case Y => "Y" case Z => "Z"
    case CNOT => "CNOT" case SWAP => "SWAP" case PHASE => "PHASE"
    case RX => "RX" case RY => "RY" case RZ => "RZ" case CP => "CP"
    case MEASURE => "UNKNOWN"
  }

  /** stringToGateType: invalid_argument for any name it does not know. */
  function StringToGateType(s: string): (r: Result<GateType>)
    ensures r.Err? ==> r.error == InvalidArgument
    ensures r.Ok? ==> r.value != MEASURE
  {
    if s == "H" then Ok(H)
    else if s == "X" then Ok(X)
    else if s == "Y" then Ok(Y)
    else if s == "Z" then Ok(Z)
    else if s == "CNOT" then Ok(CNOT)
    else if s == "SWAP" then Ok(SWAP)
    else if s == "PHASE" then Ok(PHASE)
    else if s == "RX" then Ok(RX)
    else if s == "RY" then Ok(RY)
    else if s == "RZ" then Ok(RZ)
    else if s == "CP" then Ok(CP)
    else Err(InvalidArgument)
  }

  /** The two conversions are inverse on the eleven named gate types, and
    * a name is accepted exactly when it is the name of one of them. */
  lemma GateNamesRoundTrip(t: GateType, s: string)
    ensures t != MEASURE ==> StringToGateType(GateTypeToString(t)) == Ok(t)
    ensures StringToGateType(s).Ok? ==> GateTypeToString(StringToGateType(s).value) == s
    ensures StringToGateType(s).Err? <==> forall u :: u != MEASURE ==> GateTypeToString(u) != s
    ensures StringToGateType(GateTypeToString(MEASURE)).Err?
  {
  }

  // ---------------------------------------------------------------------
  // Index validation

  /** validateQubitIndex: the debugger supports qubits 0..7. */
  predicate ValidQubitIndex(qubit: int)
  {
    !(qubit < 0 || qubit >= 8)
  }

  /** validateStepIndex: 0..totalSteps, both ends included. */
  predicate ValidStepIndex(step: int, totalSteps: int)
  {
    !(step < 0 || step > totalSteps)
  }

  // ---------------------------------------------------------------------
  // JSON records

  /** A JSON scalar as Qt sees it: every number is a double. */
  datatype Value = Number(r: real) | Text(s: string)

  /** QJsonValue::toInt(default): an integral number, otherwise the default. */
  function ToInt(v: Option<Value>, default: int): (i: int)
    ensures (v.Some? && v.value.Number? && v.value.r == v.value.r.Floor as real) ==> i as real == v.value.r
    ensures !(v.Some? && v.value.Number? && v.value.r == v.value.r.Floor as real) ==> i == default
  {
    if v.Some? && v.value.Number? && v.value.r == v.value.r.Floor as real then v.value.r.Floor
    else default
  }

  /** QJsonValue::toDouble(default). */
  function ToDouble(v: Option<Value>, default: real): real
  {
    if v.Some? && v.value.Number? then v.value.r else default
  }

  /** QJsonValue::toString(): the empty string for anything but a string. */
  function ToText(v: Option<Value>): string
  {
    if v.Some? && v.value.Text? then v.value.s else ""
  }

  /** One gate object: {type, qubit, step, target?, parameter?}. */
  datatype GateObject = GateObject(
    typeName: Option<Value>, qubit: Option<Value>, step: Option<Value>,
    target: Option<Value>, parameter: Option<Value>)

  /** A circuit document: {num_qubits, initial_view?, gates?}. */
  datatype CircuitData = CircuitData(
    numQubits: Option<Value>, initialView: Option<Value>, gates: Option<seq<GateObject>>)

  function GateObjects(data: CircuitData): seq<GateObject>
  {
    if data.gates.Some? then data.gates.value else []
  }

  /** How importCircuit turns one record into an addGate call: CNOT and
    * SWAP read a target (default qubit + 1) and no parameter; every other
    * known type, CP included, becomes a single-qubit gate with the
    * parameter (default 0.0); an unknown type is skipped. */
  function DecodeGate(obj: GateObject): (r: Option<GateRecord>)
    ensures r.None? <==> StringToGateType(ToText(obj.typeName)).Err?
    ensures r.Some? ==> GateTypeToString(r.value.gateType) == ToText(obj.typeName)
    ensures r.Some? ==> r.value.qubit1 == ToInt(obj.qubit, 0)
    ensures r.Some? && r.value.gateType in {CNOT, SWAP} ==>
      r.value.qubit2 == ToInt(obj.target, ToInt(obj.qubit, 0) + 1) && r.value.parameter == 0.0
    ensures r.Some? && r.value.gateType !in {CNOT, SWAP} ==>
      r.value.qubit2 == -1 && r.value.parameter == ToDouble(obj.parameter, 0.0)
  {
    var qubit := ToInt(obj.qubit, 0);
    var param := ToDouble(obj.parameter, 0.0);
    match StringToGateType(ToText(obj.typeName))
    case Err(_) => None
    case Ok(t) =>
      if t == CNOT || t == SWAP then Some(GateRecord(t, qubit, ToInt(obj.target, qubit + 1), 0.0))
      else Some(GateRecord(t, qubit, -1, param))
  }

  /** The corrected decoding: a CP record also reads its target, so the
    * controlled phase reaches the two-qubit overload with its angle. */
  function DecodeGateCorrected(obj: GateObject): (r: Option<GateRecord>)
    ensures r.None? <==> StringToGateType(ToText(obj.typeName)).Err?
    ensures r.Some? ==> GateTypeToString(r.value.gateType) == ToText(obj.typeName)
    ensures r.Some? ==> r.value.qubit1 == ToInt(obj.qubit, 0)
    ensures r.Some? && r.value.gateType in {CNOT, SWAP, CP} ==>
      r.value.qubit2 == ToInt(obj.target, ToInt(obj.qubit, 0) + 1)
    ensures r.Some? && r.value.gateType !in {CNOT, SWAP} ==> r.value.parameter == ToDouble(obj.parameter, 0.0)
    ensures r.Some? && r.value.gateType !in {CNOT, SWAP, CP} ==> r.value.qubit2 == -1
    ensures r.Some? && r.value.gateType != CP ==> r == DecodeGate(obj)
  {
    var qubit := ToInt(obj.qubit, 0);
    var param := ToDouble(obj.parameter, 0.0);
    match StringToGateType(ToText(obj.typeName))
    case Err(_) => None
    case Ok(t) =>
      if t == CNOT || t == SWAP then Some(GateRecord(t, qubit, ToInt(obj.target, qubit + 1), 0.0))
      else if t == CP then Some(GateRecord(t, qubit, ToInt(obj.target, qubit + 1), param))
      else Some(GateRecord(t, qubit, -1, param))
  }

  function OptionToSeq(o: Option<GateRecord>): (s: seq<GateRecord>)
    ensures |s| <= 1
  {
    if o.Some? then [o.value] else []
  }

  /** The gates importCircuit's loop appends, in record order. */
  function DecodeGates(objs: seq<GateObject>): (r: seq<GateRecord>)
    ensures |r| <= |objs|
  {
    if objs == [] then []
    else DecodeGates(objs[..|objs| - 1]) + OptionToSeq(DecodeGate(objs[|objs| - 1]))
  }

  function DecodeGatesCorrected(objs: seq<GateObject>): (r: seq<GateRecord>)
    ensures |r| <= |objs|
  {
    if objs == [] then []
    else DecodeGatesCorrected(objs[..|objs| - 1]) + OptionToSeq(DecodeGateCorrected(objs[|objs| - 1]))
  }

  lemma DecodeGatesSnoc(objs: seq<GateObject>, k: nat)
    requires k < |objs|
    ensures DecodeGates(objs[..k + 1]) == DecodeGates(objs[..k]) + OptionToSeq(DecodeGate(objs[k]))
  {
    assert objs[..k + 1][..k] == objs[..k];
  }

  lemma DecodeGatesCorrectedSnoc(objs: seq<GateObject>, k: nat)
    requires k < |objs|
    ensures DecodeGatesCorrected(objs[..k + 1]) == DecodeGatesCorrected(objs[..k]) + OptionToSeq(DecodeGateCorrected(objs[k]))
  {
    assert objs[..k + 1][..k] == objs[..k];
  }

  /** A decoded record always names a qubit pair the back end recognises:
    * either a second qubit of -1 with a single-qubit type, or a two-qubit
    * type with a second qubit. For CP the as-written decoding breaks this:
    * it stores -1, so executing the gate always fails. */
  lemma ImportedCpNeverRuns(obj: GateObject, n: nat, v: seq<Complex>, num: Numerics)
    requires ToText(obj.typeName) == "CP" && |v| == Pow2(n)
    ensures DecodeGate(obj).Some? && DecodeGate(obj).value.gateType == CP
    ensures DecodeGate(obj).value.qubit2 == -1
    ensures StepOutcome(n, v, DecodeGate(obj).value, num).Err?
  {
    assert StringToGateType("CP") == Ok(CP);
  }

  /** With the corrected decoding a CP record on two distinct in-range
    * qubits runs, multiplying by e^{i·parameter} exactly the amplitudes
    * whose two qubits are both 1. */
  lemma ImportedCpRuns(obj: GateObject, n: nat, v: seq<Complex>, num: Numerics)
    requires ToText(obj.typeName) == "CP" && |v| == Pow2(n)
    requires 0 <= ToInt(obj.qubit, 0) < n
    requires 0 <= ToInt(obj.target, ToInt(obj.qubit, 0) + 1) < n
    requires ToInt(obj.qubit, 0) != ToInt(obj.target, ToInt(obj.qubit, 0) + 1)
    ensures DecodeGateCorrected(obj).Some?
    ensures StepOutcome(n, v, DecodeGateCorrected(obj).value, num).Ok?
    ensures forall i :: 0 <= i < |v| ==>
      var c := ToInt(obj.qubit, 0);
      var t := ToInt(obj.target, c + 1);
      StepOutcome(n, v, DecodeGateCorrected(obj).value, num).value[i] ==
        if Bit(i, c) == 1 && Bit(i, t) == 1 then Mul(num.expI(ToDouble(obj.parameter, 0.0)), v[i]) else v[i]
  {
    assert StringToGateType("CP") == Ok(CP);
    var c := ToInt(obj.qubit, 0);
    var t := ToInt(obj.target, c + 1);
    var g := DecodeGateCorrected(obj).value;
    assert g == GateRecord(CP, c, t, ToDouble(obj.parameter, 0.0));
    forall i | 0 <= i < |v|
      ensures StepOutcome(n, v, g, num).value[i] ==
        if Bit(i, c) == 1 && Bit(i, t) == 1 then Mul(num.expI(ToDouble(obj.parameter, 0.0)), v[i]) else v[i]
    {
      EmbeddedControlledPhase(n, c, t, num.expI(ToDouble(obj.parameter, 0.0)), v, i);
    }
  }

  /** The three gates createCircuit adds: H(0), CNOT(0, 1), H(1). */
  const SeedGates: seq<GateRecord> :=
    [GateRecord(H, 0, -1, 0.0), GateRecord(CNOT, 0, 1, 0.0), GateRecord(H, 1, -1, 0.0)]

  /** Importing a document keeps the seed gates in front of the decoded
    * records: whatever the records say, step 1 runs H on qubit 0. */
  lemma ImportKeepsSeedGates(objs: seq<GateObject>)
    ensures |SeedGates + DecodeGates(objs)| == 3 + |DecodeGates(objs)|
    ensures (SeedGates + DecodeGates(objs))[0] == GateRecord(H, 0, -1, 0.0)
    ensures objs == [] ==> SeedGates + DecodeGates(objs) != DecodeGates(objs)
  {
  }

  // ---------------------------------------------------------------------
  // Cached per-qubit summaries

  /** The part of qubitStates_[q] the model keeps: both probabilities and
    * both amplitudes (the Bloch angles need acos and arg). */
  datatype QubitSummary = QubitSummary(prob0: real, prob1: real, amp0: Complex, amp1: Complex)

  function Summary(v: seq<Complex>, n: int, q: int): QubitSummary
  {
    QubitSummary(QubitProbability(v, n, q, 0), QubitProbability(v, n, q, 1),
                 QubitAmplitude(v, n, q, 0), QubitAmplitude(v, n, q, 1))
  }

  /** The map updateQubitStates builds after `count` loop iterations. */
  function Summaries(v: seq<Complex>, n: int, count: int): (m: map<int, QubitSummary>)
    ensures forall q :: q in m <==> 0 <= q < count
    ensures forall q :: q in m ==> m[q] == Summary(v, n, q)
  {
    map q | 0 <= q < count :: Summary(v, n, q)
  }

  // ---------------------------------------------------------------------
  // Stepping

  /** The outcome of executeStep's loop: the new amplitudes, the circuit's
    * cursor, the interface's counter, and the exception if one escaped. */
  datatype DriveResult = DriveResult(amplitudes: seq<Complex>, cursor: int, counter: int, failure: Option<Error>)

  /** `while (currentStep_ < step && circuit_->executeStep(state))
    * currentStep_++;` — the interface counter and the circuit cursor move
    * together, and the loop stops at `step`, at the end of the gate list,
    * or at the first gate that throws. */
  function Drive(n: nat, v: seq<Complex>, gates: seq<GateRecord>, cursor: int, counter: int, step: int, num: Numerics): (d: DriveResult)
    requires |v| == Pow2(n) && 0 <= cursor <= |gates|
    ensures |d.amplitudes| == |v| && 0 <= d.cursor <= |gates|
    decreases step - counter
  {
    if counter >= step || cursor >= |gates| then DriveResult(v, cursor, counter, None)
    else match StepOutcome(n, v, gates[cursor], num)
      case Err(e) => DriveResult(v, cursor, counter, Some(e))
      case Ok(w) => Drive(n, w, gates, cursor + 1, counter + 1, step, num)
  }

  /** The counter and the cursor move in lock step; the loop stops at
    * `step` unless the list ends first, and a throw happens strictly
    * before `step` on a gate that exists. */
  lemma {:induction false} DriveLaws(n: nat, v: seq<Complex>, gates: seq<GateRecord>, cursor: int, counter: int, step: int, num: Numerics)
    requires |v| == Pow2(n) && 0 <= cursor <= |gates|
    ensures var d := Drive(n, v, gates, cursor, counter, step, num);
      d.cursor - cursor == d.counter - counter &&
      counter <= d.counter && (counter < step ==> d.counter <= step) &&
      (d.failure.None? ==> d.counter >= step || d.cursor == |gates|) &&
      (d.failure.Some? ==> d.counter < step && d.cursor < |gates|) &&
      (counter >= step ==> d == DriveResult(v, cursor, counter, None))
    decreases step - counter
  {
    if counter < step && cursor < |gates| {
      match StepOutcome(n, v, gates[cursor], num)
      case Err(e) =>
      case Ok(w) => DriveLaws(n, w, gates, cursor + 1, counter + 1, step, num);
    }
  }

  /** One turn of executeStep's loop. */
  lemma DriveOneStep(n: nat, v: seq<Complex>, gates: seq<GateRecord>, cursor: int, counter: int, step: int, num: Numerics)
    requires |v| == Pow2(n) && 0 <= cursor < |gates| && counter < step
    ensures StepOutcome(n, v, gates[cursor], num).Ok? ==>
      Drive(n, v, gates, cursor, counter, step, num) ==
      Drive(n, StepOutcome(n, v, gates[cursor], num).value, gates, cursor + 1, counter + 1, step, num)
    ensures StepOutcome(n, v, gates[cursor], num).Err? ==>
      Drive(n, v, gates, cursor, counter, step, num) ==
      DriveResult(v, cursor, counter, Some(StepOutcome(n, v, gates[cursor], num).error))
  {
  }

  /** Driving to `step` and then to `step + 1` is driving to `step + 1`;
    * once a gate has thrown, a further target changes nothing. This is
    * what executeToStep's successive executeStep(i) calls rely on. */
  lemma {:induction false} DriveExtend(n: nat, v: seq<Complex>, gates: seq<GateRecord>, cursor: int, counter: int, step: int, num: Numerics)
    requires |v| == Pow2(n) && 0 <= cursor <= |gates| && counter <= step
    ensures var d := Drive(n, v, gates, cursor, counter, step, num);
      d.failure.None? ==>
        Drive(n, d.amplitudes, gates, d.cursor, d.counter, step + 1, num) == Drive(n, v, gates, cursor, counter, step + 1, num)
    ensures var d := Drive(n, v, gates, cursor, counter, step, num);
      d.failure.Some? ==> Drive(n, v, gates, cursor, counter, step + 1, num) == d
    decreases step - counter
  {
    if counter < step && cursor < |gates| {
      match StepOutcome(n, v, gates[cursor], num)
      case Err(e) =>
      case Ok(w) => DriveExtend(n, w, gates, cursor + 1, counter + 1, step, num);
    }
  }

  /** A gate that throws stops every later target at the same place. */
  lemma {:induction false} DriveFailureStable(n: nat, v: seq<Complex>, gates: seq<GateRecord>, cursor: int, counter: int, step: int, later: int, num: Numerics)
    requires |v| == Pow2(n) && 0 <= cursor <= |gates| && counter <= step <= later
    requires Drive(n, v, gates, cursor, counter, step, num).failure.Some?
    ensures Drive(n, v, gates, cursor, counter, later, num) == Drive(n, v, gates, cursor, counter, step, num)
    decreases later - step
  {
    if later > step {
      DriveFailureStable(n, v, gates, cursor, counter, step, later - 1, num);
      DriveExtend(n, v, gates, cursor, counter, later - 1, num);
    }
  }

  /** The furthest step executeToStep(step) can reach: executeStep's index
    * check stops it at totalSteps. */
  function Target(step: int, totalSteps: int): int
  {
    if step <= totalSteps then step else totalSteps
  }

  /** executeToStep stops at the first executeStep(i) that fails. If the
    * index check failed, the state is where the call before left it;
    * otherwise a gate threw. Either way this is where driving to the
    * capped target ends, and the target was out of range or unreached. */
  lemma {:induction false} StopsAtTarget(n: nat, v: seq<Complex>, gates: seq<GateRecord>, cursor: int, counter: int,
                                         i: int, step: int, totalSteps: int, num: Numerics)
    requires |v| == Pow2(n) && 0 <= cursor <= |gates| && 0 <= counter < i <= step
    requires Drive(n, v, gates, cursor, counter, i - 1, num).failure.None?
    requires i > counter + 1 ==> i - 1 <= totalSteps
    requires ValidStepIndex(i, totalSteps) ==> Drive(n, v, gates, cursor, counter, i, num).failure.Some?
    ensures ValidStepIndex(i, totalSteps) ==>
      Drive(n, v, gates, cursor, counter, i, num) == Drive(n, v, gates, cursor, counter, Target(step, totalSteps), num)
    ensures !ValidStepIndex(i, totalSteps) ==>
      Drive(n, v, gates, cursor, counter, i - 1, num) == Drive(n, v, gates, cursor, counter, Target(step, totalSteps), num) &&
      step > totalSteps
  {
    if ValidStepIndex(i, totalSteps) {
      DriveFailureStable(n, v, gates, cursor, counter, i, Target(step, totalSteps), num);
    } else {
      DriveLaws(n, v, gates, cursor, counter, i - 1, num);
      DriveLaws(n, v, gates, cursor, counter, Target(step, totalSteps), num);
    }
  }

  /** After resetExecution the counter is 0 but the cursor is not: the
    * next executeStep(1) runs the gate at the old cursor on the old
    * amplitudes, not the first gate on the initial state. */
  lemma ResetLeavesCursor(n: nat, v: seq<Complex>, gates: seq<GateRecord>, cursor: int, num: Numerics)
    requires |v| == Pow2(n) && 0 < cursor < |gates|
    requires StepOutcome(n, v, gates[cursor], num).Ok?
    ensures Drive(n, v, gates, cursor, 0, 1, num) ==
      DriveResult(StepOutcome(n, v, gates[cursor], num).value, cursor + 1, 1, None)
    ensures Drive(n, v, gates, cursor, 0, 1, num).cursor != 1
  {
  }

  /** After a full reset the counter and the cursor agree from then on:
    * executeStep(k) leaves both at k unless the list ends or a gate throws. */
  lemma ResetAlignsCursor(n: nat, gates: seq<GateRecord>, step: int, num: Numerics)
    requires 0 <= step
    ensures var d := Drive(n, InitialState(n), gates, 0, 0, step, num);
      d.cursor == d.counter && d.counter <= step &&
      (d.failure.None? ==> d.counter == step || d.counter == |gates|)
  {
    DriveLaws(n, InitialState(n), gates, 0, 0, step, num);
  }

  // ---------------------------------------------------------------------
  // The interface object

  /** lastError_: which message was last stored. */
  datatype LastError =
    | NoError
    | CreateFailed(cause: Error)
    | ExecutionFailed(step: int, cause: Error)
    | MissingNumQubits

  class CoreInterface {
    var circuit: QuantumCircuit?
    var state: QuantumState?
    var currentStep: int
    var totalSteps: int
    var isExecuting: bool
    var lastError: LastError
    var recommendedViewMode: string
    var qubitStates: map<int, QubitSummary>

    ghost predicate Valid()
      reads this, circuit, state
    {
      currentStep >= 0 &&
      (circuit != null <==> state != null) &&
      (circuit != null ==> circuit.Valid()) &&
      (state != null ==> state.Valid())
    }

    constructor ()
      ensures Valid() && circuit == null && state == null
      ensures currentStep == 0 && totalSteps == 0 && !isExecuting && lastError == NoError
      ensures qubitStates == map[]
    {
      circuit := null;
      state := null;
      currentStep := 0;
      totalSteps := 0;
      isExecuting := false;
      lastError := NoError;
      recommendedViewMode := "";
      qubitStates := map[];
    }

    /** updateQubitStates: one summary per qubit of the current state;
      * nothing happens without a state. */
    method UpdateQubitStates()
      requires Valid()
      modifies this
      ensures Valid()
      ensures circuit == old(circuit) && state == old(state) && currentStep == old(currentStep)
      ensures totalSteps == old(totalSteps) && isExecuting == old(isExecuting)
      ensures lastError == old(lastError) && recommendedViewMode == old(recommendedViewMode)
      ensures state == null ==> qubitStates == old(qubitStates)
      ensures state != null ==> qubitStates == Summaries(state.amplitudes, state.numQubits, state.numQubits)
    {
      if state == null {
        return;
      }
      qubitStates := CollectSummaries(state);
    }

    /** createCircuit(n): a fresh circuit seeded with H(0), CNOT(0, 1),
      * H(1) and a fresh state; on n <= 0 the constructor throws and
      * nothing but the error message changes. */
    method CreateCircuit(numQubits: int) returns (ok: bool)
      requires Valid()
      modifies this
      ensures Valid()
      ensures ok <==> numQubits > 0
      ensures !ok ==> lastError == CreateFailed(InvalidArgument)
      ensures !ok ==>
        circuit == old(circuit) && state == old(state) && currentStep == old(currentStep) &&
        totalSteps == old(totalSteps) && qubitStates == old(qubitStates) && isExecuting == old(isExecuting)
      ensures ok ==> circuit != null && state != null && fresh(circuit) && fresh(state)
      ensures ok ==> circuit.numQubits == numQubits && circuit.gates == SeedGates && circuit.currentStep == 0
      ensures ok ==> state.numQubits == numQubits && state.amplitudes == InitialState(numQubits)
      ensures ok ==> totalSteps == 3 && currentStep == 0 && !isExecuting && lastError == NoError
      ensures ok ==> qubitStates == Summaries(state.amplitudes, numQubits, numQubits)
      ensures recommendedViewMode == old(recommendedViewMode)
    {
      var c := NewQuantumCircuit(numQubits);
      if c.Err? {
        lastError := CreateFailed(c.error);
        return false;
      }
      var s := new QuantumState(numQubits);
      circuit := c.value;
      state := s;
      AddSeedGates(circuit);
      totalSteps := |circuit.gates|;
      currentStep := 0;
      isExecuting := false;
      UpdateQubitStates();
      lastError := NoError;
      return true;
    }

    /** executeStep(step): rejected for an invalid step or without a
      * circuit; otherwise the back end is driven until the counter
      * reaches `step`, the list ends, or a gate throws. A throw records
      * the error and skips the summary refresh; the steps already taken
      * stay taken. */
    method ExecuteStep(step: int, num: Numerics) returns (ok: bool)
      requires Valid()
      modifies this, circuit, state
      ensures Valid() && circuit == old(circuit) && state == old(state)
      ensures totalSteps == old(totalSteps) && isExecuting == old(isExecuting)
      ensures recommendedViewMode == old(recommendedViewMode)
      ensures circuit != null ==> circuit.gates == old(circuit.gates) && circuit.numQubits == old(circuit.numQubits)
      ensures state != null ==> state.numQubits == old(state.numQubits)
      ensures !ValidStepIndex(step, totalSteps) || circuit == null ==>
        !ok && currentStep == old(currentStep) && lastError == old(lastError) && qubitStates == old(qubitStates) &&
        (circuit != null ==> circuit.currentStep == old(circuit.currentStep) && state.amplitudes == old(state.amplitudes))
      ensures ValidStepIndex(step, totalSteps) && circuit != null ==>
        var d := Drive(state.numQubits, old(state.amplitudes), circuit.gates, old(circuit.currentStep), old(currentStep), step, num);
        state.amplitudes == d.amplitudes && circuit.currentStep == d.cursor && currentStep == d.counter &&
        (ok <==> d.failure.None?) &&
        (ok ==> lastError == old(lastError) && qubitStates == Summaries(state.amplitudes, state.numQubits, state.numQubits)) &&
        (!ok ==> lastError == ExecutionFailed(step, d.failure.value) && qubitStates == old(qubitStates))
    {
      if !ValidStepIndex(step, totalSteps) || circuit == null || state == null {
        return false;
      }
      DriveLaws(state.numQubits, state.amplitudes, circuit.gates, circuit.currentStep, currentStep, step, num);
      var counter, failure := Advance(circuit, state, currentStep, step, num);
      currentStep := counter;
      if failure.Some? {
        lastError := ExecutionFailed(step, failure.value);
        return false;
      }
      UpdateQubitStates();
      return true;
    }

    /** One round of executeToStep's loop: executeStep(i), read against
      * the state the loop started from, where `n`, `v0`, `gates`, `cur0`
      * and `c0` are the snapshot taken before the first round. */
    method StepFrom(i: int, num: Numerics, ghost n: nat, ghost v0: seq<Complex>, ghost gates: seq<GateRecord>, ghost cur0: int, ghost c0: int)
      returns (ok: bool)
      requires Valid() && c0 < i
      requires circuit != null ==>
        circuit.gates == gates && state.numQubits == n && |v0| == Pow2(n) && 0 <= cur0 <= |gates| &&
        var d := Drive(n, v0, gates, cur0, c0, i - 1, num);
        d.failure.None? && state.amplitudes == d.amplitudes && circuit.currentStep == d.cursor && currentStep == d.counter
      modifies this, circuit, state
      ensures Valid() && circuit == old(circuit) && state == old(state) && totalSteps == old(totalSteps)
      ensures circuit == null ==> !ok
      ensures circuit != null ==> circuit.gates == gates && state.numQubits == n
      ensures circuit != null && !ValidStepIndex(i, totalSteps) ==>
        !ok && state.amplitudes == old(state.amplitudes) && circuit.currentStep == old(circuit.currentStep) && currentStep == old(currentStep)
      ensures circuit != null && ValidStepIndex(i, totalSteps) ==>
        var d := Drive(n, v0, gates, cur0, c0, i, num);
        state.amplitudes == d.amplitudes && circuit.currentStep == d.cursor && currentStep == d.counter &&
        (ok <==> d.failure.None?)
      ensures ok ==> qubitStates == Summaries(state.amplitudes, state.numQubits, state.numQubits)
    {
      if circuit != null {
        DriveExtend(n, v0, gates, cur0, c0, i - 1, num);
      }
      ok := ExecuteStep(i, num);
    }

    /** executeToStep(step): executeStep(i) for i = currentStep + 1 .. step,
      * stopping at the first call that fails. The state is driven towards
      * `step`, but no further than totalSteps, where executeStep's index
      * check fails; the call succeeds exactly when `step` is within range
      * and no gate on the way throws. */
    method ExecuteToStep(step: int, num: Numerics) returns (ok: bool)
      requires Valid()
      modifies this, circuit, state
      ensures Valid() && circuit == old(circuit) && state == old(state) && totalSteps == old(totalSteps)
      ensures circuit != null ==> circuit.gates == old(circuit.gates) && state.numQubits == old(state.numQubits)
      ensures step <= old(currentStep) ==>
        ok && currentStep == old(currentStep) && lastError == old(lastError) && qubitStates == old(qubitStates) &&
        (circuit != null ==> circuit.currentStep == old(circuit.currentStep) && state.amplitudes == old(state.amplitudes))
      ensures old(currentStep) < step && circuit == null ==> !ok
      ensures old(currentStep) < step && circuit != null ==>
        var d := Drive(state.numQubits, old(state.amplitudes), circuit.gates, old(circuit.currentStep), old(currentStep), Target(step, totalSteps), num);
        state.amplitudes == d.amplitudes && circuit.currentStep == d.cursor && currentStep == d.counter &&
        (ok <==> step <= totalSteps && d.failure.None?) &&
        (ok ==> qubitStates == Summaries(state.amplitudes, state.numQubits, state.numQubits))
    {
      ghost var c0 := currentStep;
      ghost var live := circuit != null;
      ghost var n: nat, v0: seq<Complex>, gates: seq<GateRecord>, cur0: int := 0, [], [], 0;
      if live {
        n, v0, gates, cur0 := state.numQubits, state.amplitudes, circuit.gates, circuit.currentStep;
        DriveLaws(n, v0, gates, cur0, c0, c0, num);
      }
      var i := currentStep + 1;
      while i <= step
        invariant Valid() && circuit == old(circuit) && state == old(state) && totalSteps == old(totalSteps)
        invariant live <==> circuit != null
        invariant c0 + 1 <= i && (c0 < step ==> i <= step + 1) && (step <= c0 ==> i == c0 + 1)
        invariant live ==> circuit.gates == gates && state.numQubits == n && |v0| == Pow2(n) && 0 <= cur0 <= |gates|
        invariant live ==>
          var d := Drive(n, v0, gates, cur0, c0, i - 1, num);
          d.failure.None? && state.amplitudes == d.amplitudes && circuit.currentStep == d.cursor && currentStep == d.counter
        invariant i > c0 + 1 ==> live && i - 1 <= totalSteps
        invariant i > c0 + 1 ==> qubitStates == Summaries(state.amplitudes, state.numQubits, state.numQubits)
        invariant i == c0 + 1 ==> currentStep == c0 && lastError == old(lastError) && qubitStates == old(qubitStates)
        decreases step - i
      {
        ok := StepFrom(i, num, n, v0, gates, cur0, c0);
        if !ok {
          if live {
            ghost var d := Drive(n, v0, gates, cur0, c0, Target(step, totalSteps), num);
            assert state.amplitudes == d.amplitudes && circuit.currentStep == d.cursor && currentStep == d.counter &&
              !(step <= totalSteps && d.failure.None?) by {
              StopsAtTarget(n, v0, gates, cur0, c0, i, step, totalSteps, num);
            }
          }
          return;
        }
        i := i + 1;
      }
      ok := true;
    }

    /** executeFull: executeToStep(totalSteps). */
    method ExecuteFull(num: Numerics) returns (ok: bool)
      requires Valid()
      modifies this, circuit, state
      ensures Valid() && circuit == old(circuit) && state == old(state) && totalSteps == old(totalSteps)
      ensures circuit != null ==> circuit.gates == old(circuit.gates) && state.numQubits == old(state.numQubits)
      ensures totalSteps <= old(currentStep) ==> ok && currentStep == old(currentStep)
      ensures old(currentStep) < totalSteps && circuit == null ==> !ok
      ensures old(currentStep) < totalSteps && circuit != null ==>
        var d := Drive(state.numQubits, old(state.amplitudes), circuit.gates, old(circuit.currentStep), old(currentStep), totalSteps, num);
        state.amplitudes == d.amplitudes && circuit.currentStep == d.cursor && currentStep == d.counter &&
        (ok <==> d.failure.None?)
    {
      ok := ExecuteToStep(totalSteps, num);
    }

    /** resetExecution: only the interface counter goes back to 0. */
    method ResetExecution()
      modifies this
      ensures currentStep == 0
      ensures circuit == old(circuit) && state == old(state) && totalSteps == old(totalSteps)
      ensures isExecuting == old(isExecuting) && lastError == old(lastError)
      ensures recommendedViewMode == old(recommendedViewMode) && qubitStates == old(qubitStates)
    {
      currentStep := 0;
    }

    /** The reset resetExecution evidently intends: the circuit cursor, the
      * state and the summaries go back to the start with the counter. */
    method ResetExecutionCorrected()
      requires Valid()
      modifies this, circuit, state
      ensures Valid() && currentStep == 0
      ensures circuit == old(circuit) && state == old(state) && totalSteps == old(totalSteps)
      ensures isExecuting == old(isExecuting) && lastError == old(lastError)
      ensures recommendedViewMode == old(recommendedViewMode)
      ensures circuit != null ==> circuit.currentStep == 0 && circuit.gates == old(circuit.gates) && circuit.numQubits == old(circuit.numQubits)
      ensures state != null ==> state.numQubits == old(state.numQubits) && state.amplitudes == InitialState(state.numQubits)
      ensures state != null ==> qubitStates == Summaries(state.amplitudes, state.numQubits, state.numQubits)
      ensures state == null ==> qubitStates == old(qubitStates)
    {
      currentStep := 0;
      if circuit != null && state != null {
        circuit.Reset();
        state.Reset();
        UpdateQubitStates();
      }
    }

    /** getQubitProbability: 0 for a qubit outside 0..7 or without a
      * summary; P(1) for any value other than 0. When the summaries are
      * fresh it is the back end's probability of that qubit. */
    function GetQubitProbability(qubit: int, value: int): (p: real)
      reads this, state
      ensures !ValidQubitIndex(qubit) || qubit !in qubitStates ==> p == 0.0
      ensures (state != null && qubitStates == Summaries(state.amplitudes, state.numQubits, state.numQubits) &&
                ValidQubitIndex(qubit) && qubit < state.numQubits) ==>
        p == QubitProbability(state.amplitudes, state.numQubits, qubit, if value == 0 then 0 else 1)
    {
      if !ValidQubitIndex(qubit) || qubit !in qubitStates then 0.0
      else if value == 0 then qubitStates[qubit].prob0
      else qubitStates[qubit].prob1
    }

    /** addGate: the step total grows by one; the circuit is not touched. */
    method AddGate() returns (ok: bool)
      modifies this
      ensures ok && totalSteps == old(totalSteps) + 1
      ensures circuit == old(circuit) && state == old(state) && currentStep == old(currentStep)
      ensures lastError == old(lastError) && qubitStates == old(qubitStates)
    {
      totalSteps := totalSteps + 1;
      return true;
    }

    /** removeGate: one step fewer for a valid step; the total can reach
      * -1 when it was 0. */
    method RemoveGate(step: int) returns (ok: bool)
      modifies this
      ensures ok <==> ValidStepIndex(step, old(totalSteps))
      ensures totalSteps == if ok then old(totalSteps) - 1 else old(totalSteps)
      ensures circuit == old(circuit) && state == old(state) && currentStep == old(currentStep)
      ensures lastError == old(lastError) && qubitStates == old(qubitStates)
    {
      if !ValidStepIndex(step, totalSteps) {
        return false;
      }
      totalSteps := totalSteps - 1;
      return true;
    }

    /** insertGate: one step more for a valid step. */
    method InsertGate(step: int) returns (ok: bool)
      modifies this
      ensures ok <==> ValidStepIndex(step, old(totalSteps))
      ensures totalSteps == if ok then old(totalSteps) + 1 else old(totalSteps)
      ensures circuit == old(circuit) && state == old(state) && currentStep == old(currentStep)
      ensures lastError == old(lastError) && qubitStates == old(qubitStates)
    {
      if !ValidStepIndex(step, totalSteps) {
        return false;
      }
      totalSteps := totalSteps + 1;
      return true;
    }

    /** optimizeCircuit: the total drops by one but never below 1. */
    method OptimizeCircuit() returns (ok: bool)
      modifies this
      ensures ok && totalSteps >= 1
      ensures old(totalSteps) >= 2 ==> totalSteps == old(totalSteps) - 1
      ensures old(totalSteps) < 2 ==> totalSteps == 1
      ensures circuit == old(circuit) && state == old(state) && currentStep == old(currentStep)
      ensures lastError == old(lastError) && qubitStates == old(qubitStates)
    {
      totalSteps := if totalSteps - 1 > 1 then totalSteps - 1 else 1;
      return true;
    }

    /** importCircuit as written: createCircuit(num_qubits) seeds three
      * gates, circuit_->reset() only rewinds the cursor, and the decoded
      * records are appended after the seeds. */
    method ImportCircuit(data: CircuitData) returns (ok: bool)
      requires Valid()
      modifies this
      ensures Valid()
      ensures data.numQubits.None? ==>
        !ok && lastError == MissingNumQubits && circuit == old(circuit) && state == old(state) &&
        currentStep == old(currentStep) && totalSteps == old(totalSteps) && qubitStates == old(qubitStates)
      ensures data.numQubits.Some? && ToInt(data.numQubits, 0) <= 0 ==>
        !ok && lastError == CreateFailed(InvalidArgument) && circuit == old(circuit) && state == old(state) &&
        currentStep == old(currentStep) && totalSteps == old(totalSteps) && qubitStates == old(qubitStates)
      ensures ok <==> data.numQubits.Some? && ToInt(data.numQubits, 0) > 0
      ensures ok ==> circuit != null && state != null && fresh(circuit) && fresh(state)
      ensures ok ==> circuit.gates == SeedGates + DecodeGates(GateObjects(data)) && circuit.currentStep == 0
      ensures ok ==> state.numQubits == ToInt(data.numQubits, 0) && state.amplitudes == InitialState(state.numQubits)
      ensures ok ==> totalSteps == |circuit.gates| && currentStep == 0 && lastError == NoError
      ensures ok ==> recommendedViewMode == (if data.initialView.Some? then ToText(data.initialView) else "")
      ensures ok ==> qubitStates == Summaries(state.amplitudes, state.numQubits, state.numQubits)
    {
      if data.numQubits.None? {
        lastError := MissingNumQubits;
        return false;
      }
      var n := ToInt(data.numQubits, 0);
      ok := CreateCircuit(n);
      if !ok {
        return false;
      }
      circuit.Reset();
      recommendedViewMode := if data.initialView.Some? then ToText(data.initialView) else "";
      AppendRecords(circuit, GateObjects(data));
      totalSteps := |circuit.gates|;
      currentStep := 0;
      UpdateQubitStates();
    }

    /** The import the code's own comment intends ("clear the dummy gates"),
      * with CP records read as two-qubit gates: the circuit holds exactly
      * the decoded records. */
    method ImportCircuitCorrected(data: CircuitData) returns (ok: bool)
      requires Valid()
      modifies this
      ensures Valid()
      ensures data.numQubits.None? ==>
        !ok && lastError == MissingNumQubits && circuit == old(circuit) && state == old(state) &&
        currentStep == old(currentStep) && totalSteps == old(totalSteps) && qubitStates == old(qubitStates)
      ensures ok <==> data.numQubits.Some? && ToInt(data.numQubits, 0) > 0
      ensures ok ==> circuit != null && state != null && fresh(circuit) && fresh(state)
      ensures ok ==> circuit.gates == DecodeGatesCorrected(GateObjects(data)) && circuit.currentStep == 0
      ensures ok ==> state.numQubits == ToInt(data.numQubits, 0) && state.amplitudes == InitialState(state.numQubits)
      ensures ok ==> totalSteps == |circuit.gates| && currentStep == 0 && lastError == NoError
      ensures ok ==> qubitStates == Summaries(state.amplitudes, state.numQubits, state.numQubits)
    {
      if data.numQubits.None? {
        lastError := MissingNumQubits;
        return false;
      }
      var n := ToInt(data.numQubits, 0);
      ok := CreateCircuit(n);
      if !ok {
        return false;
      }
      circuit := new QuantumCircuit(n);
      recommendedViewMode := if data.initialView.Some? then ToText(data.initialView) else "";
      AppendRecordsCorrected(circuit, GateObjects(data));
      totalSteps := |circuit.gates|;
      currentStep := 0;
      UpdateQubitStates();
    }
  }

  /** createCircuit's three addGate calls on an empty circuit. */
  method AddSeedGates(c: QuantumCircuit)
    requires c.Valid() && c.gates == []
    modifies c
    ensures c.Valid() && c.gates == SeedGates
    ensures c.numQubits == old(c.numQubits) && c.currentStep == old(c.currentStep)
  {
    c.AddGate(H, 0, 0.0);
    c.AddTwoQubitGate(CNOT, 0, 1, 0.0);
    c.AddGate(H, 1, 0.0);
  }

  /** updateQubitStates' loop over the qubits of a state. */
  method CollectSummaries(s: QuantumState) returns (m: map<int, QubitSummary>)
    requires s.Valid()
    ensures m == Summaries(s.amplitudes, s.numQubits, s.numQubits)
  {
    m := map[];
    var q := 0;
    while q < s.numQubits
      invariant 0 <= q <= s.numQubits
      invariant m == Summaries(s.amplitudes, s.numQubits, q)
    {
      var p0 := s.GetQubitProbability(q, 0);
      var p1 := s.GetQubitProbability(q, 1);
      var a0 := s.GetQubitAmplitude(q, 0);
      var a1 := s.GetQubitAmplitude(q, 1);
      m := m[q := QubitSummary(p0, p1, a0, a1)];
      q := q + 1;
    }
  }

  /** executeStep's loop: the counter and the circuit's cursor advance
    * together as Drive describes. */
  method Advance(c: QuantumCircuit, s: QuantumState, counter: int, step: int, num: Numerics) returns (reached: int, failure: Option<Error>)
    requires c.Valid() && s.Valid()
    modifies c, s
    ensures c.Valid() && s.Valid()
    ensures c.gates == old(c.gates) && c.numQubits == old(c.numQubits) && s.numQubits == old(s.numQubits)
    ensures var d := Drive(s.numQubits, old(s.amplitudes), c.gates, old(c.currentStep), counter, step, num);
      s.amplitudes == d.amplitudes && c.currentStep == d.cursor && reached == d.counter && failure == d.failure
  {
    ghost var target := Drive(s.numQubits, s.amplitudes, c.gates, c.currentStep, counter, step, num);
    reached := counter;
    failure := None;
    while reached < step
      invariant c.Valid() && s.Valid()
      invariant c.gates == old(c.gates) && c.numQubits == old(c.numQubits) && s.numQubits == old(s.numQubits)
      invariant Drive(s.numQubits, s.amplitudes, c.gates, c.currentStep, reached, step, num) == target
      decreases step - reached
    {
      var more, f := AdvanceOnce(c, s, reached, step, num);
      if f.Some? {
        failure := f;
        return;
      }
      if !more {
        break;
      }
      reached := reached + 1;
    }
  }

  /** One turn of executeStep's loop: the back end's step and its effect
    * on what remains of the drive. */
  method AdvanceOnce(c: QuantumCircuit, s: QuantumState, reached: int, step: int, num: Numerics) returns (more: bool, failure: Option<Error>)
    requires c.Valid() && s.Valid() && reached < step
    modifies c, s
    ensures c.Valid() && s.Valid()
    ensures c.gates == old(c.gates) && c.numQubits == old(c.numQubits) && s.numQubits == old(s.numQubits)
    ensures more ==>
      failure.None? &&
      Drive(s.numQubits, old(s.amplitudes), c.gates, old(c.currentStep), reached, step, num) ==
      Drive(s.numQubits, s.amplitudes, c.gates, c.currentStep, reached + 1, step, num)
    ensures !more ==>
      Drive(s.numQubits, old(s.amplitudes), c.gates, old(c.currentStep), reached, step, num) ==
      DriveResult(s.amplitudes, c.currentStep, reached, failure)
  {
    ghost var v := s.amplitudes;
    ghost var cursor := c.currentStep;
    var r := c.ExecuteStep(s, num);
    if r.Err? {
      DriveOneStep(s.numQubits, v, c.gates, cursor, reached, step, num);
      return false, Some(r.error);
    }
    if !r.value {
      return false, None;
    }
    DriveOneStep(s.numQubits, v, c.gates, cursor, reached, step, num);
    return true, None;
  }

  /** importCircuit's loop over the records. */
  method AppendRecords(c: QuantumCircuit, objs: seq<GateObject>)
    requires c.Valid()
    modifies c
    ensures c.Valid() && c.numQubits == old(c.numQubits) && c.currentStep == old(c.currentStep)
    ensures c.gates == old(c.gates) + DecodeGates(objs)
  {
    var k := 0;
    assert objs[..0] == [];
    while k < |objs|
      invariant 0 <= k <= |objs|
      invariant c.Valid() && c.numQubits == old(c.numQubits) && c.currentStep == old(c.currentStep)
      invariant c.gates == old(c.gates) + DecodeGates(objs[..k])
    {
      DecodeGatesSnoc(objs, k);
      AddRecord(c, objs[k]);
      k := k + 1;
    }
    assert objs[..|objs|] == objs;
  }

  method AddRecord(c: QuantumCircuit, obj: GateObject)
    requires c.Valid()
    modifies c
    ensures c.Valid() && c.numQubits == old(c.numQubits) && c.currentStep == old(c.currentStep)
    ensures c.gates == old(c.gates) + OptionToSeq(DecodeGate(obj))
  {
    var g := DecodeGate(obj);
    if g.Some? {
      var r := g.value;
      if r.gateType in {CNOT, SWAP} {
        c.AddTwoQubitGate(r.gateType, r.qubit1, r.qubit2, 0.0);
      } else {
        c.AddGate(r.gateType, r.qubit1, r.parameter);
      }
    }
  }

  method AppendRecordsCorrected(c: QuantumCircuit, objs: seq<GateObject>)
    requires c.Valid()
    modifies c
    ensures c.Valid() && c.numQubits == old(c.numQubits) && c.currentStep == old(c.currentStep)
    ensures c.gates == old(c.gates) + DecodeGatesCorrected(objs)
  {
    var k := 0;
    assert objs[..0] == [];
    while k < |objs|
      invariant 0 <= k <= |objs|
      invariant c.Valid() && c.numQubits == old(c.numQubits) && c.currentStep == old(c.currentStep)
      invariant c.gates == old(c.gates) + DecodeGatesCorrected(objs[..k])
    {
      DecodeGatesCorrectedSnoc(objs, k);
      AddRecordCorrected(c, objs[k]);
      k := k + 1;
    }
    assert objs[..|objs|] == objs;
  }

  method AddRecordCorrected(c: QuantumCircuit, obj: GateObject)
    requires c.Valid()
    modifies c
    ensures c.Valid() && c.numQubits == old(c.numQubits) && c.currentStep == old(c.currentStep)
    ensures c.gates == old(c.gates) + OptionToSeq(DecodeGateCorrected(obj))
  {
    var g := DecodeGateCorrected(obj);
    if g.Some? {
      var r := g.value;
      if r.gateType in {CNOT, SWAP, CP} {
        c.AddTwoQubitGate(r.gateType, r.qubit1, r.qubit2, r.parameter);
      } else {
        c.AddGate(r.gateType, r.qubit1, r.parameter);
      }
    }
  }

  /** After a successful import the summaries report every qubit of the
    * imported register as |0⟩ with certainty. */
  lemma ImportedProbabilities(ci: CoreInterface, q: int)
    requires ci.state != null && ci.state.Valid()
    requires ci.state.amplitudes == InitialState(ci.state.numQubits)
    requires ci.qubitStates == Summaries(ci.state.amplitudes, ci.state.numQubits, ci.state.numQubits)
    requires 0 <= q < 8 && q < ci.state.numQubits
    ensures ci.GetQubitProbability(q, 0) == 1.0
    ensures ci.GetQubitProbability(q, 1) == 0.0
  {
    InitialProbabilities(ci.state.numQubits, q);
  }

  /** Any non-zero `value` reads the |1⟩ probability, and the two reported
    * probabilities of a qubit add up to the squared norm of the state. */
  lemma ReportedProbabilitiesSum(ci: CoreInterface, q: int, value: int)
    requires ci.state != null && ci.state.Valid()
    requires ci.qubitStates == Summaries(ci.state.amplitudes, ci.state.numQubits, ci.state.numQubits)
    requires 0 <= q < 8 && q < ci.state.numQubits && value != 0
    ensures ci.GetQubitProbability(q, value) == ci.GetQubitProbability(q, 1)
    ensures ci.GetQubitProbability(q, 0) + ci.GetQubitProbability(q, value) ==
      NormPrefix(ci.state.amplitudes, |ci.state.amplitudes|)
  {
    QubitProbabilityLaws(ci.state.amplitudes, ci.state.numQubits, q, 0);
  }
}
