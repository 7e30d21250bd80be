/** The Python front end's Circuit: a list of gate tuples built by chained
  * builder calls, and to_dict, the record list the debugger imports. */
module PyCircuits {
  import opened Wrappers
  import opened QuantumBackend
  import opened CoreInterfaces

  /** One element of a gate tuple after its name: a qubit index or an angle. */
  datatype Operand = Qubit(q: int) | Angle(a: real)

  /** A tuple such as ('CNOT', control, target). */
  datatype GateTuple = GateTuple(name: string, operands: seq<Operand>)

  /** The tuples the builder methods append. */
  predicate Built(g: GateTuple)
  {
    var ops := g.operands;
    (g.name in {"H", "X", "Y", "Z"} && |ops| == 1 && ops[0].Qubit?) ||
    (g.name in {"CNOT", "SWAP"} && |ops| == 2 && ops[0].Qubit? && ops[1].Qubit?) ||
    (g.name in {"RX", "RY", "RZ", "PHASE"} && |ops| == 2 && ops[0].Qubit? && ops[1].Angle?) ||
    (g.name == "CP" && |ops| == 3 && ops[0].Qubit? && ops[1].Qubit? && ops[2].Angle?)
  }

  /** A Python number as JSON writes it. */
  function ValueOf(o: Operand): Value
  {
    match o
    case Qubit(q) => Number(q as real)
    case Angle(a) => Number(a)
  }

  /** The dictionary to_dict builds for tuple g at position i: type, qubit
    * and step always; target exactly for CNOT, SWAP and CP; parameter
    * exactly for CP, RX, RY, RZ and PHASE. */
  function Record(i: int, g: GateTuple): (r: GateObject)
    requires Built(g)
    ensures r.typeName == Some(Text(g.name)) && r.qubit == Some(ValueOf(g.operands[0]))
    ensures r.step == Some(Number(i as real))
    ensures r.target.Some? <==> g.name in {"CNOT", "SWAP", "CP"}
    ensures r.parameter.Some? <==> g.name in {"CP", "RX", "RY", "RZ", "PHASE"}
    ensures r.target.Some? ==> r.target.value == ValueOf(g.operands[1])
    ensures r.parameter.Some? ==> r.parameter.value == ValueOf(g.operands[if g.name == "CP" then 2 else 1])
  {
    var base := GateObject(Some(Text(g.name)), Some(ValueOf(g.operands[0])), Some(Number(i as real)), None, None);
    if g.name == "CNOT" || g.name == "SWAP" then base.(target := Some(ValueOf(g.operands[1])))
    else if g.name == "CP" then base.(target := Some(ValueOf(g.operands[1])), parameter := Some(ValueOf(g.operands[2])))
    else if g.name == "RX" || g.name == "RY" || g.name == "RZ" || g.name == "PHASE" then
      base.(parameter := Some(ValueOf(g.operands[1])))
    else base
  }

  /** The back-end gate a built tuple stands for. */
  function Intended(g: GateTuple): GateRecord
    requires Built(g)
  {
    var t := StringToGateType(g.name).value;
    var ops := g.operands;
    if g.name in {"H", "X", "Y", "Z"} then GateRecord(t, ops[0].q, -1, 0.0)
    else if g.name in {"CNOT", "SWAP"} then GateRecord(t, ops[0].q, ops[1].q, 0.0)
    else if g.name == "CP" then GateRecord(t, ops[0].q, ops[1].q, ops[2].a)
    else GateRecord(t, ops[0].q, -1, ops[1].a)
  }

  /** Importing one record of to_dict: with the corrected decoding every
    * built tuple comes back as the gate it stands for; the as-written
    * decoding does so for every type but CP, whose target is dropped. */
  lemma RecordImport(i: int, g: GateTuple)
    requires Built(g)
    ensures DecodeGateCorrected(Record(i, g)) == Some(Intended(g))
    ensures g.name != "CP" ==> DecodeGate(Record(i, g)) == Some(Intended(g))
    ensures g.name == "CP" ==>
      DecodeGate(Record(i, g)) == Some(GateRecord(CP, g.operands[0].q, -1, g.operands[2].a))
  {
    var q := g.operands[0].q;
    assert (q as real).Floor == q;
    if g.name in {"CNOT", "SWAP", "CP"} {
      var t := g.operands[1].q;
      assert (t as real).Floor == t;
    }
  }

  function Records(gates: seq<GateTuple>): (rs: seq<GateObject>)
    requires forall k :: 0 <= k < |gates| ==> Built(gates[k])
    ensures |rs| == |gates|
  {
    seq(|gates|, k requires 0 <= k < |gates| => Record(k, gates[k]))
  }

  function IntendedAll(gates: seq<GateTuple>): (rs: seq<GateRecord>)
    requires forall k :: 0 <= k < |gates| ==> Built(gates[k])
    ensures |rs| == |gates|
  {
    seq(|gates|, k requires 0 <= k < |gates| => Intended(gates[k]))
  }

  /** The whole list: the corrected import rebuilds exactly the gates the
    * builders recorded, in order; the as-written one does too when the
    * circuit holds no CP. */
  lemma {:induction false} RecordsImport(gates: seq<GateTuple>)
    requires forall k :: 0 <= k < |gates| ==> Built(gates[k])
    ensures DecodeGatesCorrected(Records(gates)) == IntendedAll(gates)
    ensures (forall k :: 0 <= k < |gates| ==> gates[k].name != "CP") ==>
      DecodeGates(Records(gates)) == IntendedAll(gates)
  {
    if gates != [] {
      var n := |gates| - 1;
      var rs := Records(gates);
      assert rs[..n] == Records(gates[..n]);
      assert IntendedAll(gates) == IntendedAll(gates[..n]) + [Intended(gates[n])];
      RecordsImport(gates[..n]);
      RecordImport(n, gates[n]);
    }
  }

  /** The dictionary to_dict returns. */
  function CircuitDict(numQubits: int, records: seq<GateObject>): CircuitData
  {
    CircuitData(Some(Number(numQubits as real)), None, Some(records))
  }

  class Circuit {
    var numQubits: int
    var gates: seq<GateTuple>

    ghost predicate Valid()
      reads this
    {
      forall k :: 0 <= k < |gates| ==> Built(gates[k])
    }

    constructor (numQubits: int)
      ensures Valid() && this.numQubits == numQubits && gates == []
    {
      this.numQubits := numQubits;
      gates := [];
    }

    /** The shared shape of every builder: append one tuple, return self. */
    method Append(g: GateTuple) returns (self: Circuit)
      requires Valid() && Built(g)
      modifies this
      ensures Valid() && self == this
      ensures gates == old(gates) + [g] && numQubits == old(numQubits)
    {
      gates := gates + [g];
      return this;
    }

    method H(qubit: int) returns (self: Circuit)
      requires Valid()
      modifies this
      ensures Valid() && self == this && numQubits == old(numQubits)
      ensures gates == old(gates) + [GateTuple("H", [Qubit(qubit)])]
    {
      self := Append(GateTuple("H", [Qubit(qubit)]));
    }

    method X(qubit: int) returns (self: Circuit)
      requires Valid()
      modifies this
      ensures Valid() && self == this && numQubits == old(numQubits)
      ensures gates == old(gates) + [GateTuple("X", [Qubit(qubit)])]
    {
      self := Append(GateTuple("X", [Qubit(qubit)]));
    }

    method Y(qubit: int) returns (self: Circuit)
      requires Valid()
      modifies this
      ensures Valid() && self == this && numQubits == old(numQubits)
      ensures gates == old(gates) + [GateTuple("Y", [Qubit(qubit)])]
    {
      self := Append(GateTuple("Y", [Qubit(qubit)]));
    }

    method Z(qubit: int) returns (self: Circuit)
      requires Valid()
      modifies this
      ensures Valid() && self == this && numQubits == old(numQubits)
      ensures gates == old(gates) + [GateTuple("Z", [Qubit(qubit)])]
    {
      self := Append(GateTuple("Z", [Qubit(qubit)]));
    }

    method Cx(control: int, target: int) returns (self: Circuit)
      requires Valid()
      modifies this
      ensures Valid() && self == this && numQubits == old(numQubits)
      ensures gates == old(gates) + [GateTuple("CNOT", [Qubit(control), Qubit(target)])]
    {
      self := Append(GateTuple("CNOT", [Qubit(control), Qubit(target)]));
    }

    method Swap(qubit1: int, qubit2: int) returns (self: Circuit)
      requires Valid()
      modifies this
      ensures Valid() && self == this && numQubits == old(numQubits)
      ensures gates == old(gates) + [GateTuple("SWAP", [Qubit(qubit1), Qubit(qubit2)])]
    {
      self := Append(GateTuple("SWAP", [Qubit(qubit1), Qubit(qubit2)]));
    }

    method Rx(qubit: int, angle: real) returns (self: Circuit)
      requires Valid()
      modifies this
      ensures Valid() && self == this && numQubits == old(numQubits)
      ensures gates == old(gates) + [GateTuple("RX", [Qubit(qubit), Angle(angle)])]
    {
      self := Append(GateTuple("RX", [Qubit(qubit), Angle(angle)]));
    }

    method Ry(qubit: int, angle: real) returns (self: Circuit)
      requires Valid()
      modifies this
      ensures Valid() && self == this && numQubits == old(numQubits)
      ensures gates == old(gates) + [GateTuple("RY", [Qubit(qubit), Angle(angle)])]
    {
      self := Append(GateTuple("RY", [Qubit(qubit), Angle(angle)]));
    }

    method Rz(qubit: int, angle: real) returns (self: Circuit)
      requires Valid()
      modifies this
      ensures Valid() && self == this && numQubits == old(numQubits)
      ensures gates == old(gates) + [GateTuple("RZ", [Qubit(qubit), Angle(angle)])]
    {
      self := Append(GateTuple("RZ", [Qubit(qubit), Angle(angle)]));
    }

    method Phase(qubit: int, angle: real) returns (self: Circuit)
      requires Valid()
      modifies this
      ensures Valid() && self == this && numQubits == old(numQubits)
      ensures gates == old(gates) + [GateTuple("PHASE", [Qubit(qubit), Angle(angle)])]
    {
      self := Append(GateTuple("PHASE", [Qubit(qubit), Angle(angle)]));
    }

    /** cp takes the angle first but stores it last. */
    method Cp(angle: real, control: int, target: int) returns (self: Circuit)
      requires Valid()
      modifies this
      ensures Valid() && self == this && numQubits == old(numQubits)
      ensures gates == old(gates) + [GateTuple("CP", [Qubit(control), Qubit(target), Angle(angle)])]
    {
      self := Append(GateTuple("CP", [Qubit(control), Qubit(target), Angle(angle)]));
    }

    /** to_dict: one record per tuple, in order, with its position as step,
      * and num_qubits copied. */
    method ToDict() returns (d: CircuitData)
      requires Valid()
      ensures d.numQubits == Some(Number(numQubits as real)) && d.initialView.None?
      ensures d.gates.Some? && |d.gates.value| == |gates|
      ensures forall k :: 0 <= k < |gates| ==> d.gates.value[k] == Record(k, gates[k])
    {
      var gateList: seq<GateObject> := [];
      var i := 0;
      while i < |gates|
        invariant 0 <= i <= |gates| && |gateList| == i
        invariant forall k :: 0 <= k < i ==> gateList[k] == Record(k, gates[k])
      {
        var g := gates[i];
        var gateData := GateObject(Some(Text(g.name)), Some(ValueOf(g.operands[0])), Some(Number(i as real)), None, None);
        if g.name == "CNOT" || g.name == "SWAP" {
          gateData := gateData.(target := Some(ValueOf(g.operands[1])));
        } else if g.name == "CP" {
          gateData := gateData.(target := Some(ValueOf(g.operands[1])), parameter := Some(ValueOf(g.operands[2])));
        } else if g.name == "RX" || g.name == "RY" || g.name == "RZ" || g.name == "PHASE" {
          gateData := gateData.(parameter := Some(ValueOf(g.operands[1])));
        }
        gateList := gateList + [gateData];
        i := i + 1;
      }
      return CircuitDict(numQubits, gateList);
    }
  }

  /** to_dict followed by the corrected import gives back exactly the
    * gates the builders recorded. */
  lemma DictImport(numQubits: int, gates: seq<GateTuple>, d: CircuitData)
    requires forall k :: 0 <= k < |gates| ==> Built(gates[k])
    requires d.gates.Some? && |d.gates.value| == |gates|
    requires forall k :: 0 <= k < |gates| ==> d.gates.value[k] == Record(k, gates[k])
    ensures DecodeGatesCorrected(GateObjects(d)) == IntendedAll(gates)
  {
    assert GateObjects(d) == Records(gates);
    RecordsImport(gates);
  }
}
