/** Grover search of libomniq-core/src/modules/algorithms/Grovers.cpp: the
  * checks of the algorithm object, the oracle factories of grover_utils, the
  * oracle gate's sign flip, the initial Hadamard layer and the packing of
  * measured shots into integers. */
module Grovers {
  import opened Wrappers
  import opened Bits
  import opened ComplexNumbers
  import Statevectors
  import ExecutionEngines

  /** OracleFunction: a predicate on a list of bits. Every caller in the
    * simulator passes entries `(i >> j) & 1`, so entries are naturals. */
  type Oracle = seq<nat> -> bool

  // ---------------------------------------------------------------------
  // grover_utils::create_database_oracle

  /** Accepts when `value |= input[i] << i` over the input equals the target. */
  function DatabaseOracle(target: int): Oracle
  {
    (input: seq<nat>) => OrPack(input) == target
  }

  /** On a bit string the database oracle accepts exactly the input whose
    * little-endian value is the target. */
  lemma DatabaseOracleAccepts(target: int, input: seq<nat>)
    requires IsBitString(input)
    ensures DatabaseOracle(target)(input) <==> FromBits(input) == target
  {
    OrPackBits(input);
  }

  // ---------------------------------------------------------------------
  // grover_utils::create_sat_oracle

  /** The variable a DIMACS literal names, |l| - 1. */
  function VarOf(literal: int): int
  {
    (if literal < 0 then -literal else literal) - 1
  }

  /** A variable past the end of the input reads false; a non-zero entry
    * reads true. */
  predicate VarValue(input: seq<nat>, v: nat)
  {
    v < |input| && input[v] != 0
  }

  /** A literal 0 would name variable -1, which the oracle would read out
    * of bounds; callers pass non-zero literals. */
  predicate NonZeroLiterals(clauses: seq<seq<int>>)
  {
    forall c, k :: 0 <= c < |clauses| && 0 <= k < |clauses[c]| ==> clauses[c][k] != 0
  }

  /** A literal satisfies its clause when its variable is below
    * num_variables and the variable's value matches the literal's sign;
    * literals naming a variable at or past num_variables are skipped. */
  predicate LiteralHolds(literal: int, numVariables: int, input: seq<nat>)
    requires literal != 0
  {
    var v := VarOf(literal);
    v < numVariables && (if literal > 0 then VarValue(input, v) else !VarValue(input, v))
  }

  /** The inner loop: scan the literals and stop at the first that holds. */
  predicate ClauseSatisfied(clause: seq<int>, numVariables: int, input: seq<nat>)
    requires forall k :: 0 <= k < |clause| ==> clause[k] != 0
  {
    clause != [] && (LiteralHolds(clause[0], numVariables, input) || ClauseSatisfied(clause[1..], numVariables, input))
  }

  /** The outer loop: reject at the first clause that is not satisfied. */
  predicate SatAccepts(clauses: seq<seq<int>>, numVariables: int, input: seq<nat>)
    requires NonZeroLiterals(clauses)
  {
    clauses == [] ||
    (ClauseSatisfied(clauses[0], numVariables, input) && SatAccepts(clauses[1..], numVariables, input))
  }

  function SatOracle(clauses: seq<seq<int>>, numVariables: int): Oracle
    requires NonZeroLiterals(clauses)
  {
    (input: seq<nat>) => SatAccepts(clauses, numVariables, input)
  }

  /** The clause loop finds a literal exactly when one holds. */
  lemma {:induction false} ClauseSatisfiedIff(clause: seq<int>, numVariables: int, input: seq<nat>)
    requires forall k :: 0 <= k < |clause| ==> clause[k] != 0
    ensures ClauseSatisfied(clause, numVariables, input) <==>
      exists k :: 0 <= k < |clause| && LiteralHolds(clause[k], numVariables, input)
  {
    if clause != [] {
      ClauseSatisfiedIff(clause[1..], numVariables, input);
      if exists k :: 0 <= k < |clause| && LiteralHolds(clause[k], numVariables, input) {
        var k :| 0 <= k < |clause| && LiteralHolds(clause[k], numVariables, input);
        if k > 0 {
          assert clause[1..][k - 1] == clause[k];
        }
      }
      if ClauseSatisfied(clause[1..], numVariables, input) {
        var k :| 0 <= k < |clause[1..]| && LiteralHolds(clause[1..][k], numVariables, input);
        assert clause[k + 1] == clause[1..][k];
      }
    }
  }

  /** The SAT oracle accepts exactly the assignments under which every clause
    * has a literal that holds. */
  lemma {:induction false} SatOracleAccepts(clauses: seq<seq<int>>, numVariables: int, input: seq<nat>)
    requires NonZeroLiterals(clauses)
    ensures SatOracle(clauses, numVariables)(input) <==>
      forall c :: 0 <= c < |clauses| ==> ClauseSatisfied(clauses[c], numVariables, input)
  {
    if clauses != [] {
      assert NonZeroLiterals(clauses[1..]) by {
        forall c, k | 0 <= c < |clauses[1..]| && 0 <= k < |clauses[1..][c]| ensures clauses[1..][c][k] != 0 {
          assert clauses[1..][c] == clauses[c + 1];
        }
      }
      SatOracleAccepts(clauses[1..], numVariables, input);
      if forall c :: 0 <= c < |clauses[1..]| ==> ClauseSatisfied(clauses[1..][c], numVariables, input) {
        forall c | 0 < c < |clauses| ensures ClauseSatisfied(clauses[c], numVariables, input) {
          assert clauses[c] == clauses[1..][c - 1];
        }
      }
      if SatAccepts(clauses, numVariables, input) {
        forall c | 0 <= c < |clauses[1..]| ensures ClauseSatisfied(clauses[1..][c], numVariables, input) {
          assert clauses[1..][c] == clauses[c + 1];
        }
      }
    }
  }

  /** An empty clause list accepts every input, and a clause none of whose
    * literals names a variable below num_variables rejects every input. */
  lemma SatOracleEdgeCases(clauses: seq<seq<int>>, numVariables: int, input: seq<nat>, c: nat)
    requires NonZeroLiterals(clauses)
    ensures clauses == [] ==> SatOracle(clauses, numVariables)(input)
    ensures c < |clauses| && (forall k :: 0 <= k < |clauses[c]| ==> VarOf(clauses[c][k]) >= numVariables) ==>
      !SatOracle(clauses, numVariables)(input)
  {
    SatOracleAccepts(clauses, numVariables, input);
    if c < |clauses| && (forall k :: 0 <= k < |clauses[c]| ==> VarOf(clauses[c][k]) >= numVariables) {
      ClauseSatisfiedIff(clauses[c], numVariables, input);
    }
  }

  // ---------------------------------------------------------------------
  // grover_utils::create_graph_coloring_oracle

  /** The loop over the edges skips out-of-range edges and checks nothing on
    * the others: every input is accepted. */
  function GraphColoringOracle(edges: seq<(int, int)>, numVertices: int, numColors: int): (o: Oracle)
    ensures forall input :: o(input)
  {
    (input: seq<nat>) => true
  }

  // ---------------------------------------------------------------------
  // grover_utils::calculate_optimal_iterations, estimate_success_probability

  /** `rounded` stands for round(π / (4θ)) with θ = asin(√(M / 2^n)). */
  function OptimalIterations(numQubits: int, numSolutions: int, rounded: int): (r: int)
    ensures r == 0 <==> numQubits <= 0 || numSolutions <= 0
    ensures numQubits > 0 && numSolutions > 0 ==> r >= 1 && (rounded >= 1 ==> r == rounded)
  {
    if numQubits <= 0 || numSolutions <= 0 then 0
    else if rounded > 1 then rounded else 1
  }

  /** `sinSquared` stands for sin²((2k + 1)θ). */
  function SuccessProbability(numQubits: int, numSolutions: int, numIterations: int, sinSquared: real): (p: real)
    ensures numQubits <= 0 || numSolutions <= 0 || numIterations < 0 ==> p == 0.0
    ensures 0.0 <= sinSquared <= 1.0 ==> 0.0 <= p <= 1.0
  {
    if numQubits <= 0 || numSolutions <= 0 || numIterations < 0 then 0.0 else sinSquared
  }

  // ---------------------------------------------------------------------
  // OracleGate

  /** The bit string the gate hands the oracle for index i:
    * [(i >> j) & 1 for j in 0 .. n - 1]. */
  function BitString(i: nat, n: int): (bits: seq<nat>)
    ensures |bits| == if n > 0 then n else 0
  {
    seq(if n > 0 then n else 0, (j: int) requires 0 <= j => Bit(i, j))
  }

  /** Below 2^n the bit string is the binary form of the index. */
  lemma BitStringValue(i: nat, n: nat)
    requires i < Pow2(n)
    ensures IsBitString(BitString(i, n))
    ensures FromBits(BitString(i, n)) == i
  {
    assert BitString(i, n) == ToBits(i, n);
    FromToBits(i, n);
  }

  /** The amplitudes after the oracle gate: entry i negated exactly when the
    * oracle accepts the bit string of i. */
  function Marked(oracle: Oracle, n: int, v: seq<Complex>): (w: seq<Complex>)
    ensures |w| == |v|
  {
    seq(|v|, (i: int) requires 0 <= i < |v| => if oracle(BitString(i, n)) then Neg(v[i]) else v[i])
  }

  /** The oracle gate is an involution. */
  lemma MarkedTwice(oracle: Oracle, n: int, v: seq<Complex>)
    ensures Marked(oracle, n, Marked(oracle, n, v)) == v
  {
    var w := Marked(oracle, n, Marked(oracle, n, v));
    forall i | 0 <= i < |v| ensures w[i] == v[i] {
      NegNeg(v[i]);
    }
  }

  /** With the database oracle on a state of matching size, only the
    * target's amplitude changes sign. */
  lemma DatabaseMarksTarget(target: int, n: nat, v: seq<Complex>, i: nat)
    requires |v| == Pow2(n) && i < |v|
    ensures Marked(DatabaseOracle(target), n, v)[i] == if i == target then Neg(v[i]) else v[i]
  {
    BitStringValue(i, n);
    DatabaseOracleAccepts(target, BitString(i, n));
  }

  /** The inner loop that builds the bit string of one index. */
  method BitStringOf(i: nat, n: int) returns (bits: seq<nat>)
    ensures bits == BitString(i, n)
  {
    bits := [];
    var j := 0;
    while j < n
      invariant 0 <= j <= (if n > 0 then n else 0)
      invariant |bits| == j
      invariant forall k :: 0 <= k < j ==> bits[k] == Bit(i, k)
    {
      bits := bits + [Bit(i, j)];
      j := j + 1;
    }
  }

  class OracleGate {
    const numQubits: int
    const oracle: Oracle

    /** OracleGate(num_qubits, oracle) once the null check has passed; see
      * NewOracleGate. */
    constructor (n: int, oracle: Oracle)
      ensures numQubits == n && this.oracle == oracle
    {
      numQubits := n;
      this.oracle := oracle;
    }

    /** apply_oracle_to_statevector: every index of the state, whatever its
      * size (the qubit-count check is disabled), is negated when the oracle
      * accepts its n-bit string. */
    method Apply(state: Statevectors.Statevector)
      modifies state.amplitudes
      ensures state.amplitudes[..] == Marked(oracle, numQubits, old(state.amplitudes[..]))
    {
      var vec := state.amplitudes;
      var i := 0;
      while i < vec.Length
        invariant 0 <= i <= vec.Length
        invariant forall k :: 0 <= k < i ==>
          vec[k] == if oracle(BitString(k, numQubits)) then Neg(old(vec[k])) else old(vec[k])
        invariant forall k :: i <= k < vec.Length ==> vec[k] == old(vec[k])
      {
        var bits := BitStringOf(i, numQubits);
        if oracle(bits) {
          vec[i] := Neg(vec[i]);
        }
        i := i + 1;
      }
    }
  }

  /** The OracleGate constructor: a null oracle is an invalid_argument. */
  method NewOracleGate(n: int, oracle: Option<Oracle>) returns (r: Result<OracleGate>)
    ensures r.Err? <==> oracle.None?
    ensures r.Err? ==> r.error == InvalidArgument
    ensures r.Ok? ==> fresh(r.value) && r.value.numQubits == n && r.value.oracle == oracle.value
  {
    if oracle.None? {
      return Err(InvalidArgument);
    }
    var g := new OracleGate(n, oracle.value);
    return Ok(g);
  }

  // ---------------------------------------------------------------------
  // GroversAlgorithm

  /** A circuit of the header's Circuit class as the gates added to it. */
  datatype Circuit = Circuit(numQubits: int, gates: seq<ExecutionEngines.Gate>)

  /** addGate(GateType::H, q): a Hadamard with target q and parameter 0. */
  function HadamardOn(q: int): ExecutionEngines.Gate
  {
    ExecutionEngines.Gate(ExecutionEngines.H, [], [q], [0.0])
  }

  /** The bits of one shot: bit i is the outcome of measuring qubit i. */
  function ShotBits(measure: (int, int) -> bool, shot: int, n: nat): (bits: seq<nat>)
    ensures |bits| == n && IsBitString(bits)
  {
    seq(n, (i: int) => if measure(shot, i) then 1 else 0)
  }

  /** Bit i of a packed shot is the outcome of measuring qubit i. */
  lemma ShotResultBits(measure: (int, int) -> bool, shot: int, n: nat, i: nat)
    requires i < n
    ensures var v := FromBits(ShotBits(measure, shot, n));
      v >= 0 && Bit(v, i) == if measure(shot, i) then 1 else 0
  {
    BitOfFromBits(ShotBits(measure, shot, n), i);
  }

  /** The inner loop of one shot: `result |= bit << i` over the qubits. */
  method PackShot(measure: (int, int) -> bool, shot: int, n: nat) returns (result: nat)
    ensures result == FromBits(ShotBits(measure, shot, n))
    ensures result < Pow2(n)
  {
    ghost var bits := ShotBits(measure, shot, n);
    result := 0;
    var i := 0;
    while i < n
      invariant 0 <= i <= n
      invariant result == FromBits(bits[..i]) && result < Pow2(i)
    {
      var bit: nat := if measure(shot, i) then 1 else 0;
      OrHighBit(result, bit, i);
      assert bits[..i + 1] == bits[..i] + [bit];
      FromBitsSnoc(bits[..i], bit);
      result := Or(result, bit * Pow2(i));
      i := i + 1;
    }
    assert bits[..n] == bits;
  }

  class GroversAlgorithm {
    const numQubits: int
    const numSolutions: int
    const oracle: Oracle
    var numIterations: int

    ghost predicate Valid()
      reads this
    {
      numQubits > 0 && numSolutions > 0 && numIterations >= 0
    }

    /** GroversAlgorithm(num_qubits, oracle, num_solutions) once its checks
      * have passed; see NewGroversAlgorithm. `rounded` is the rounded
      * iteration estimate of calculate_optimal_iterations. */
    constructor (n: int, oracle: Oracle, solutions: int, rounded: int)
      requires n > 0 && solutions > 0
      ensures Valid()
      ensures numQubits == n && numSolutions == solutions && this.oracle == oracle
      ensures numIterations == OptimalIterations(n, solutions, rounded)
    {
      numQubits := n;
      numSolutions := solutions;
      this.oracle := oracle;
      numIterations := OptimalIterations(n, solutions, rounded);
    }

    /** set_iterations: a negative count is an invalid_argument and keeps
      * the old one; any other count is stored as given. */
    method SetIterations(iterations: int) returns (s: Status)
      requires Valid()
      modifies this`numIterations
      ensures Valid()
      ensures s == Done <==> iterations >= 0
      ensures s.Failed? ==> s.error == InvalidArgument && numIterations == old(numIterations)
      ensures s == Done ==> numIterations == iterations
    {
      if iterations < 0 {
        return Failed(InvalidArgument);
      }
      numIterations := iterations;
      return Done;
    }

    /** build_circuit: a circuit of num_qubits qubits holding one Hadamard
      * on each qubit, in qubit order. */
    method BuildCircuit() returns (c: Circuit)
      requires Valid()
      ensures c.numQubits == numQubits && |c.gates| == numQubits
      ensures forall k :: 0 <= k < numQubits ==> c.gates[k] == HadamardOn(k)
    {
      c := Circuit(numQubits, []);
      var i := 0;
      while i < numQubits
        invariant 0 <= i <= numQubits
        invariant c.numQubits == numQubits && |c.gates| == i
        invariant forall k :: 0 <= k < i ==> c.gates[k] == HadamardOn(k)
      {
        c := c.(gates := c.gates + [HadamardOn(i)]);
        i := i + 1;
      }
    }

    /** execute_with_measurements: a non-positive shot count is an
      * invalid_argument; otherwise one integer per shot whose bit i is the
      * outcome `measure(shot, i)` of measuring qubit i. */
    method ExecuteWithMeasurements(numShots: int, measure: (int, int) -> bool) returns (r: Result<seq<int>>)
      requires Valid()
      ensures r.Err? <==> numShots <= 0
      ensures r.Err? ==> r.error == InvalidArgument
      ensures r.Ok? ==> |r.value| == numShots
      ensures r.Ok? ==> forall s :: 0 <= s < numShots ==>
        r.value[s] == FromBits(ShotBits(measure, s, numQubits)) && 0 <= r.value[s] < Pow2(numQubits)
    {
      if numShots <= 0 {
        return Err(InvalidArgument);
      }
      var results: seq<int> := [];
      var shot := 0;
      while shot < numShots
        invariant 0 <= shot <= numShots && |results| == shot
        invariant forall s :: 0 <= s < shot ==>
          results[s] == FromBits(ShotBits(measure, s, numQubits)) && 0 <= results[s] < Pow2(numQubits)
      {
        var result := PackShot(measure, shot, numQubits);
        results := results + [result];
        shot := shot + 1;
      }
      return Ok(results);
    }
  }

  /** The GroversAlgorithm constructor: non-positive qubit or solution
    * counts and a null oracle are invalid_arguments. */
  method NewGroversAlgorithm(n: int, oracle: Option<Oracle>, solutions: int, rounded: int)
    returns (r: Result<GroversAlgorithm>)
    ensures r.Err? <==> n <= 0 || solutions <= 0 || oracle.None?
    ensures r.Err? ==> r.error == InvalidArgument
    ensures r.Ok? ==> fresh(r.value) && r.value.Valid()
    ensures r.Ok? ==> r.value.numQubits == n && r.value.numSolutions == solutions && r.value.oracle == oracle.value
    ensures r.Ok? ==> r.value.numIterations == OptimalIterations(n, solutions, rounded)
  {
    if n <= 0 || solutions <= 0 || oracle.None? {
      return Err(InvalidArgument);
    }
    var g := new GroversAlgorithm(n, oracle.value, solutions, rounded);
    return Ok(g);
  }
}
