/** The oracle factories of omniq-python/omniq/algorithms.py. Each returned
  * closure is a pure predicate on a list of bits; the database and SAT
  * oracles are shown to agree with the C++ ones of grover_utils, and the
  * graph-colouring oracle, which the C++ side leaves unimplemented, is
  * characterised on its own. */
module PyAlgorithms {
  import opened Bits
  import Grovers

  // ---------------------------------------------------------------------
  // create_database_oracle

  /** The `for i, bit in enumerate(input_bits)` loop from position i with
    * accumulator `value`. */
  function PackFrom(bits: seq<nat>, i: nat, value: nat): nat
    requires i <= |bits|
    decreases |bits| - i
  {
    if i == |bits| then value else PackFrom(bits, i + 1, Or(value, bits[i] * Pow2(i)))
  }

  function DatabaseOracle(target: int): Grovers.Oracle
  {
    (bits: seq<nat>) => PackFrom(bits, 0, 0) == target
  }

  /** Resuming the loop after the first i bits finishes the whole packing. */
  lemma {:induction false} PackFromPrefix(bits: seq<nat>, i: nat)
    requires i <= |bits|
    ensures PackFrom(bits, i, OrPack(bits[..i])) == OrPack(bits)
    decreases |bits| - i
  {
    if i == |bits| {
      assert bits[..i] == bits;
    } else {
      assert bits[..i + 1][..i] == bits[..i];
      PackFromPrefix(bits, i + 1);
    }
  }

  /** The Python database oracle is the C++ one; on a bit string it accepts
    * exactly the input whose little-endian value is the target. */
  lemma DatabaseOraclesAgree(target: int, bits: seq<nat>)
    ensures DatabaseOracle(target)(bits) == Grovers.DatabaseOracle(target)(bits)
    ensures IsBitString(bits) ==> (DatabaseOracle(target)(bits) <==> FromBits(bits) == target)
  {
    assert bits[..0] == [];
    PackFromPrefix(bits, 0);
    if IsBitString(bits) {
      Grovers.DatabaseOracleAccepts(target, bits);
    }
  }

  // ---------------------------------------------------------------------
  // create_sat_oracle

  /** `input_bits[var] if var < len(input_bits) else False`, then negated
    * for a negative literal; a literal on a variable at or past
    * num_variables is skipped. */
  predicate LiteralTrue(literal: int, numVariables: int, bits: seq<nat>)
    requires literal != 0
  {
    var v := (if literal < 0 then -literal else literal) - 1;
    if v >= numVariables then false
    else
      var value := v < |bits| && bits[v] != 0;
      if literal > 0 then value else !value
  }

  /** The inner `for literal in clause` loop from position k, breaking at
    * the first literal that is true. */
  predicate ClauseFrom(clause: seq<int>, k: nat, numVariables: int, bits: seq<nat>)
    requires k <= |clause|
    requires forall j :: 0 <= j < |clause| ==> clause[j] != 0
    decreases |clause| - k
  {
    if k == |clause| then false
    else if LiteralTrue(clause[k], numVariables, bits) then true
    else ClauseFrom(clause, k + 1, numVariables, bits)
  }

  /** The outer `for clause in clauses` loop from position c, returning
    * False at the first clause that is not satisfied. */
  predicate ClausesFrom(clauses: seq<seq<int>>, c: nat, numVariables: int, bits: seq<nat>)
    requires c <= |clauses|
    requires Grovers.NonZeroLiterals(clauses)
    decreases |clauses| - c
  {
    if c == |clauses| then true
    else if !ClauseFrom(clauses[c], 0, numVariables, bits) then false
    else ClausesFrom(clauses, c + 1, numVariables, bits)
  }

  /** A literal 0 would read `input_bits[-1]`; callers pass non-zero literals. */
  function SatOracle(clauses: seq<seq<int>>, numVariables: int): Grovers.Oracle
    requires Grovers.NonZeroLiterals(clauses)
  {
    (bits: seq<nat>) => ClausesFrom(clauses, 0, numVariables, bits)
  }

  lemma {:induction false} ClauseFromAgrees(clause: seq<int>, k: nat, numVariables: int, bits: seq<nat>)
    requires k <= |clause|
    requires forall j :: 0 <= j < |clause| ==> clause[j] != 0
    ensures ClauseFrom(clause, k, numVariables, bits) == Grovers.ClauseSatisfied(clause[k..], numVariables, bits)
    decreases |clause| - k
  {
    if k < |clause| {
      assert clause[k..][0] == clause[k] && clause[k..][1..] == clause[k + 1..];
      ClauseFromAgrees(clause, k + 1, numVariables, bits);
    }
  }

  lemma {:induction false} ClausesFromAgree(clauses: seq<seq<int>>, c: nat, numVariables: int, bits: seq<nat>)
    requires c <= |clauses|
    requires Grovers.NonZeroLiterals(clauses)
    ensures Grovers.NonZeroLiterals(clauses[c..])
    ensures ClausesFrom(clauses, c, numVariables, bits) == Grovers.SatAccepts(clauses[c..], numVariables, bits)
    decreases |clauses| - c
  {
    assert Grovers.NonZeroLiterals(clauses[c..]) by {
      forall i, j | 0 <= i < |clauses[c..]| && 0 <= j < |clauses[c..][i]| ensures clauses[c..][i][j] != 0 {
        assert clauses[c..][i] == clauses[c + i];
      }
    }
    if c < |clauses| {
      assert clauses[c..][0] == clauses[c] && clauses[c..][1..] == clauses[c + 1..];
      assert clauses[c][0..] == clauses[c];
      ClauseFromAgrees(clauses[c], 0, numVariables, bits);
      ClausesFromAgree(clauses, c + 1, numVariables, bits);
    }
  }

  /** The Python SAT oracle has the clause semantics of the C++ one: it
    * accepts exactly when every clause has a literal that holds. */
  lemma SatOraclesAgree(clauses: seq<seq<int>>, numVariables: int, bits: seq<nat>)
    requires Grovers.NonZeroLiterals(clauses)
    ensures SatOracle(clauses, numVariables)(bits) == Grovers.SatOracle(clauses, numVariables)(bits)
  {
    ClausesFromAgree(clauses, 0, numVariables, bits);
    assert clauses[0..] == clauses;
  }

  // ---------------------------------------------------------------------
  // create_graph_coloring_oracle

  /** `idx < len(input_bits) and input_bits[idx]`: bits past the end read
    * as unset. */
  predicate BitSet(bits: seq<nat>, idx: int)
  {
    0 <= idx < |bits| && bits[idx] != 0
  }

  /** Bit `v * num_colors + c`: whether vertex v is marked with colour c. */
  predicate ColorBit(bits: seq<nat>, v: int, numColors: int, c: int)
  {
    BitSet(bits, v * numColors + c)
  }

  /** The `for c in range(num_colors)` scan of vertex v from colour c: the
    * colour found last wins. */
  function ColorScan(bits: seq<nat>, v: int, numColors: int, c: nat, found: int): int
    decreases numColors - c
  {
    if c >= numColors then found
    else ColorScan(bits, v, numColors, c + 1, if ColorBit(bits, v, numColors, c) then c else found)
  }

  /** The colour of vertex v: the scan from colour 0 with nothing found (-1). */
  function ColorOf(bits: seq<nat>, v: int, numColors: int): int
  {
    ColorScan(bits, v, numColors, 0, -1)
  }

  /** The scan returns the highest set colour at or after c, or what it had
    * found before when there is none. */
  lemma {:induction false} ColorScanIs(bits: seq<nat>, v: int, numColors: int, c: nat, found: int)
    ensures var r := ColorScan(bits, v, numColors, c, found);
      (r == found && forall d :: c <= d < numColors ==> !ColorBit(bits, v, numColors, d)) ||
      (c <= r < numColors && ColorBit(bits, v, numColors, r) &&
        forall d :: r < d < numColors ==> !ColorBit(bits, v, numColors, d))
    decreases numColors - c
  {
    if c < numColors {
      var next := if ColorBit(bits, v, numColors, c) then c else found;
      ColorScanIs(bits, v, numColors, c + 1, next);
    }
  }

  /** Vertex v's colour is the last c < num_colors whose bit v * num_colors + c
    * is set, or -1 when none is. */
  lemma ColorOfIs(bits: seq<nat>, v: int, numColors: int)
    ensures var r := ColorOf(bits, v, numColors);
      (r == -1 && forall c :: 0 <= c < numColors ==> !ColorBit(bits, v, numColors, c)) ||
      (0 <= r < numColors && ColorBit(bits, v, numColors, r) &&
        forall c :: r < c < numColors ==> !ColorBit(bits, v, numColors, c))
  {
    ColorScanIs(bits, v, numColors, 0, -1);
  }

  /** An edge that makes the oracle reject: both endpoints below
    * num_vertices and the same colour, which is not -1. */
  predicate Conflict(edge: (int, int), numVertices: int, numColors: int, bits: seq<nat>)
  {
    edge.0 < numVertices && edge.1 < numVertices &&
    ColorOf(bits, edge.0, numColors) == ColorOf(bits, edge.1, numColors) &&
    ColorOf(bits, edge.0, numColors) != -1
  }

  /** The `for v1, v2 in edges` loop from edge k. */
  predicate EdgesFrom(edges: seq<(int, int)>, k: nat, numVertices: int, numColors: int, bits: seq<nat>)
    requires k <= |edges|
    decreases |edges| - k
  {
    if k == |edges| then true
    else if edges[k].0 >= numVertices || edges[k].1 >= numVertices then EdgesFrom(edges, k + 1, numVertices, numColors, bits)
    else
      var c1 := ColorOf(bits, edges[k].0, numColors);
      var c2 := ColorOf(bits, edges[k].1, numColors);
      if c1 == c2 && c1 != -1 then false
      else EdgesFrom(edges, k + 1, numVertices, numColors, bits)
  }

  /** Vertices are non-negative: a negative one would index the bit list
    * from its end. */
  predicate NonNegativeVertices(edges: seq<(int, int)>)
  {
    forall k :: 0 <= k < |edges| ==> edges[k].0 >= 0 && edges[k].1 >= 0
  }

  function GraphColoringOracle(edges: seq<(int, int)>, numVertices: int, numColors: int): Grovers.Oracle
    requires NonNegativeVertices(edges)
  {
    (bits: seq<nat>) => EdgesFrom(edges, 0, numVertices, numColors, bits)
  }

  lemma {:induction false} EdgesFromIff(edges: seq<(int, int)>, k: nat, numVertices: int, numColors: int, bits: seq<nat>)
    requires k <= |edges|
    ensures EdgesFrom(edges, k, numVertices, numColors, bits) <==>
      forall j :: k <= j < |edges| ==> !Conflict(edges[j], numVertices, numColors, bits)
    decreases |edges| - k
  {
    if k < |edges| {
      EdgesFromIff(edges, k + 1, numVertices, numColors, bits);
    }
  }

  /** The Python graph-colouring oracle rejects exactly when some edge is a
    * conflict; uncoloured vertices and edges past num_vertices never make
    * it reject. */
  lemma GraphColoringOracleAccepts(edges: seq<(int, int)>, numVertices: int, numColors: int, bits: seq<nat>)
    requires NonNegativeVertices(edges)
    ensures GraphColoringOracle(edges, numVertices, numColors)(bits) <==>
      forall j :: 0 <= j < |edges| ==> !Conflict(edges[j], numVertices, numColors, bits)
  {
    EdgesFromIff(edges, 0, numVertices, numColors, bits);
  }

  /** One edge whose endpoints share colour 0 is rejected here and accepted
    * by the C++ oracle. */
  lemma GraphColoringOraclesDiffer()
    ensures !GraphColoringOracle([(0, 1)], 2, 1)([1, 1])
    ensures Grovers.GraphColoringOracle([(0, 1)], 2, 1)([1, 1])
  {
    assert ColorOf([1, 1], 0, 1) == 0;
    assert ColorOf([1, 1], 1, 1) == 0;
    assert Conflict((0, 1), 2, 1, [1, 1]);
    GraphColoringOracleAccepts([(0, 1)], 2, 1, [1, 1]);
  }
}
