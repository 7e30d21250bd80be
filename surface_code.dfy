/** The rotated surface-code lattice
  * (libomniq-core/src/modules/qec/SurfaceCode.cpp): the index layout of the
  * data and ancilla qubits, the position lookup maps and the four-qubit
  * plaquette stabilizers, built in place by the constructor's loops. */
module SurfaceCodes {
  import opened Wrappers
  import opened Stabilizers
  import Syndromes

  datatype QubitPosition = QubitPosition(row: int, col: int, globalIndex: int)

  datatype StabilizerInfo = StabilizerInfo(index: int, row: int, col: int, isXType: bool, op: Stabilizer)

  type Cell = (int, int)

  /** The constructor's guard: the distance must be odd and at least 3. */
  predicate ValidDistance(d: int)
  {
    !(d % 2 == 0 || d < 3)
  }

  // ---------------------------------------------------------------------
  // The layout, as the loops of initializeLattice produce it

  /** Data qubits (r, 0) .. (r, cols-1) of a d-wide lattice, global index r·d + c. */
  function DataRow(d: nat, r: nat, cols: nat): (qs: seq<QubitPosition>)
    ensures |qs| == cols
    ensures forall c :: 0 <= c < cols ==> qs[c] == QubitPosition(r, c, r * d + c)
  {
    seq(cols, c => QubitPosition(r, c, r * d + c))
  }

  /** The first `rows` rows of data qubits, row-major. */
  function DataRows(d: nat, rows: nat): (qs: seq<QubitPosition>)
    ensures |qs| == rows * d
  {
    if rows == 0 then [] else DataRows(d, rows - 1) + DataRow(d, rows - 1, d)
  }

  /** The cells (r, c), c < cols, of row r whose parity (r + c) % 2 is `parity`,
    * left to right. */
  function RowCells(r: nat, cols: nat, parity: nat): seq<Cell>
  {
    if cols == 0 then []
    else RowCells(r, cols - 1, parity) + (if (r + cols - 1) % 2 == parity then [(r, cols - 1)] else [])
  }

  /** Row-major order on cells. */
  predicate CellBefore(a: Cell, b: Cell)
  {
    a.0 < b.0 || (a.0 == b.0 && a.1 < b.1)
  }

  /** The cells of the first `rows` rows of an m-wide grid with the given
    * parity, row-major. */
  function GridCells(m: nat, rows: nat, parity: nat): seq<Cell>
  {
    if rows == 0 then [] else GridCells(m, rows - 1, parity) + RowCells(rows - 1, m, parity)
  }

  /** Qubits at the given cells, numbered consecutively from `start`. */
  function Place(cells: seq<Cell>, start: int): (qs: seq<QubitPosition>)
    ensures |qs| == |cells|
    ensures forall k :: 0 <= k < |cells| ==> qs[k] == QubitPosition(cells[k].0, cells[k].1, start + k)
  {
    seq(|cells|, k requires 0 <= k < |cells| => QubitPosition(cells[k].0, cells[k].1, start + k))
  }

  /** The X-ancilla cells (plaquettes with row + col even) of distance d. */
  function XCells(d: nat): seq<Cell>
    requires d >= 1
  {
    GridCells(d - 1, d - 1, 0)
  }

  /** The Z-ancilla cells (row + col odd). */
  function ZCells(d: nat): seq<Cell>
    requires d >= 1
  {
    GridCells(d - 1, d - 1, 1)
  }

  /** A lookup map that inverts a qubit list: every listed cell is a key,
    * and every key leads to a qubit at that cell. */
  ghost predicate Inverts(m: map<Cell, int>, qs: seq<QubitPosition>)
  {
    (forall k :: 0 <= k < |qs| ==> (qs[k].row, qs[k].col) in m) &&
    (forall p {:trigger m[p]} :: p in m ==> 0 <= m[p] < |qs| && qs[m[p]].row == p.0 && qs[m[p]].col == p.1)
  }

  // ---------------------------------------------------------------------
  // The stabilizers, as constructStabilizers builds them

  /** The four candidate neighbours of the ancilla at (r, c), in source order. */
  function Neighbours(r: int, c: int): seq<Cell>
  {
    [(r, c), (r, c + 1), (r + 1, c), (r + 1, c + 1)]
  }

  predicate InSquare(d: int, p: Cell)
  {
    0 <= p.0 < d && 0 <= p.1 < d
  }

  /** The global data indices of the in-range cells of `ns`. */
  function Marked(d: int, ns: seq<Cell>): (s: set<int>)
    ensures forall k :: k in s ==> 0 <= k < d * d
  {
    if ns == [] then {}
    else
      var p := ns[|ns| - 1];
      Marked(d, ns[..|ns| - 1]) + (if InSquare(d, p) then (PlaquetteBound(d, p.0, p.1); {p.0 * d + p.1}) else {})
  }

  lemma MarkedSnoc(d: int, ns: seq<Cell>, t: nat)
    requires t < |ns|
    ensures Marked(d, ns[..t + 1]) ==
      Marked(d, ns[..t]) + (if InSquare(d, ns[t]) then {ns[t].0 * d + ns[t].1} else {})
  {
    assert ns[..t + 1][..t] == ns[..t];
  }

  /** The Pauli vector over d² data qubits with `p` on the in-range neighbours
    * of (r, c) and I elsewhere. */
  function NeighbourStabilizer(d: nat, r: int, c: int, p: Pauli): Stabilizer
  {
    var marked := Marked(d, Neighbours(r, c));
    Stabilizer(seq(d * d, k => if k in marked then p else I))
  }

  function InfoFor(d: nat, k: nat, a: QubitPosition, isX: bool): StabilizerInfo
  {
    StabilizerInfo(k, a.row, a.col, isX, NeighbourStabilizer(d, a.row, a.col, if isX then X else Z))
  }

  /** The stabilizer list for a list of ancillas, indexed 0, 1, … in order. */
  function StabilizerList(d: nat, ancillas: seq<QubitPosition>, isX: bool): (infos: seq<StabilizerInfo>)
    ensures |infos| == |ancillas|
    ensures forall k :: 0 <= k < |ancillas| ==> infos[k] == InfoFor(d, k, ancillas[k], isX)
  {
    seq(|ancillas|, k requires 0 <= k < |ancillas| => InfoFor(d, k, ancillas[k], isX))
  }

  /** The four data indices of the plaquette whose top-left corner is (r, c), ascending. */
  function Plaquette(d: int, r: int, c: int): seq<int>
  {
    [r * d + c, r * d + c + 1, (r + 1) * d + c, (r + 1) * d + c + 1]
  }

  // ---------------------------------------------------------------------
  // Lemmas about the layout

  lemma PlaquetteBound(d: int, r: int, c: int)
    requires 0 <= r < d && 0 <= c < d
    ensures 0 <= r * d + c < d * d
  {
    assert r * d <= (d - 1) * d;
  }

  /** Position k of the data list holds the qubit with global index k, at
    * the cell (row, col) with k == row·d + col. */
  lemma {:induction false} DataRowsShape(d: nat, rows: nat, k: nat)
    requires k < |DataRows(d, rows)|
    ensures var q := DataRows(d, rows)[k];
      q.globalIndex == k && k == q.row * d + q.col && 0 <= q.row < rows && 0 <= q.col < d
  {
    var prefix := DataRows(d, rows - 1);
    assert |prefix| == (rows - 1) * d;
    if k < |prefix| {
      DataRowsShape(d, rows - 1, k);
    } else {
      assert DataRows(d, rows)[k] == DataRow(d, rows - 1, d)[k - |prefix|];
    }
  }

  /** The data qubit at cell (r, c) sits at list position r·d + c. */
  lemma {:induction false} DataRowsAt(d: nat, rows: nat, r: nat, c: nat)
    requires r < rows && c < d
    ensures r * d + c < |DataRows(d, rows)|
    ensures DataRows(d, rows)[r * d + c] == QubitPosition(r, c, r * d + c)
  {
    var prefix := DataRows(d, rows - 1);
    assert |prefix| == (rows - 1) * d;
    if r < rows - 1 {
      assert r * d + d <= (rows - 1) * d by {
        assert (r + 1) * d <= (rows - 1) * d;
      }
      DataRowsAt(d, rows - 1, r, c);
    } else {
      assert r * d + c - |prefix| == c;
    }
  }

  /** Row r's cells lie in row r, below `cols`, with the right parity. */
  lemma {:induction false} RowCellsRange(r: nat, cols: nat, parity: nat)
    ensures forall k :: 0 <= k < |RowCells(r, cols, parity)| ==>
      var p := RowCells(r, cols, parity)[k];
      p.0 == r && 0 <= p.1 < cols && (r + p.1) % 2 == parity
  {
    if cols > 0 {
      RowCellsRange(r, cols - 1, parity);
    }
  }

  /** Row r's cells run left to right. */
  lemma {:induction false} RowCellsSorted(r: nat, cols: nat, parity: nat)
    ensures forall i, j :: 0 <= i < j < |RowCells(r, cols, parity)| ==>
      RowCells(r, cols, parity)[i].1 < RowCells(r, cols, parity)[j].1
  {
    if cols > 0 {
      RowCellsSorted(r, cols - 1, parity);
      RowCellsRange(r, cols - 1, parity);
    }
  }

  /** Every column below `cols` of the right parity is listed. */
  lemma {:induction false} RowCellsCover(r: nat, cols: nat, parity: nat)
    ensures forall c :: 0 <= c < cols && (r + c) % 2 == parity ==> (r, c) in RowCells(r, cols, parity)
  {
    if cols > 0 {
      RowCellsCover(r, cols - 1, parity);
    }
  }

  lemma {:induction false} GridCellsRange(m: nat, rows: nat, parity: nat)
    ensures forall k :: 0 <= k < |GridCells(m, rows, parity)| ==>
      var p := GridCells(m, rows, parity)[k];
      0 <= p.0 < rows && 0 <= p.1 < m && (p.0 + p.1) % 2 == parity
  {
    if rows > 0 {
      GridCellsRange(m, rows - 1, parity);
      RowCellsRange(rows - 1, m, parity);
    }
  }

  /** The grid's cells of one parity are listed in row-major order. */
  lemma {:induction false} GridCellsSorted(m: nat, rows: nat, parity: nat)
    ensures forall i, j :: 0 <= i < j < |GridCells(m, rows, parity)| ==>
      CellBefore(GridCells(m, rows, parity)[i], GridCells(m, rows, parity)[j])
  {
    if rows > 0 {
      GridCellsSorted(m, rows - 1, parity);
      GridCellsRange(m, rows - 1, parity);
      RowCellsSorted(rows - 1, m, parity);
      RowCellsRange(rows - 1, m, parity);
    }
  }

  /** Every cell of the right parity in the first `rows` rows is listed. */
  lemma {:induction false} GridCellsCover(m: nat, rows: nat, parity: nat)
    ensures forall r, c :: 0 <= r < rows && 0 <= c < m && (r + c) % 2 == parity ==> (r, c) in GridCells(m, rows, parity)
  {
    if rows > 0 {
      GridCellsCover(m, rows - 1, parity);
      RowCellsCover(rows - 1, m, parity);
    }
  }

  /** The two parities split a row between them. */
  lemma {:induction false} RowCellsSplit(r: nat, cols: nat)
    ensures |RowCells(r, cols, 0)| + |RowCells(r, cols, 1)| == cols
  {
    if cols > 0 {
      RowCellsSplit(r, cols - 1);
    }
  }

  lemma {:induction false} GridCellsSplit(m: nat, rows: nat)
    ensures |GridCells(m, rows, 0)| + |GridCells(m, rows, 1)| == rows * m
  {
    if rows > 0 {
      GridCellsSplit(m, rows - 1);
      RowCellsSplit(rows - 1, m);
      assert (rows - 1) * m + m == rows * m;
    }
  }

  /** A cell is listed for a parity exactly when it lies in the grid and
    * row + col has that parity. */
  lemma GridCellsMembers(m: nat, parity: nat, p: Cell)
    ensures p in GridCells(m, m, parity) <==> 0 <= p.0 < m && 0 <= p.1 < m && (p.0 + p.1) % 2 == parity
  {
    var cs := GridCells(m, m, parity);
    if p in cs {
      var k :| 0 <= k < |cs| && cs[k] == p;
      GridCellsRange(m, m, parity);
    } else {
      GridCellsCover(m, m, parity);
    }
  }

  /** A cell is an X-ancilla cell exactly when it lies in the (d−1)×(d−1)
    * grid and row + col is even. */
  lemma XAncillaCells(d: nat, p: Cell)
    requires d >= 1
    ensures p in XCells(d) <==> 0 <= p.0 < d - 1 && 0 <= p.1 < d - 1 && (p.0 + p.1) % 2 == 0
  {
    GridCellsMembers(d - 1, 0, p);
  }

  /** A cell is a Z-ancilla cell exactly when it lies in the grid and
    * row + col is odd. */
  lemma ZAncillaCells(d: nat, p: Cell)
    requires d >= 1
    ensures p in ZCells(d) <==> 0 <= p.0 < d - 1 && 0 <= p.1 < d - 1 && (p.0 + p.1) % 2 == 1
  {
    GridCellsMembers(d - 1, 1, p);
  }

  /** There are (d−1)² ancillas in all. */
  lemma AncillaTotal(d: nat)
    requires d >= 1
    ensures |XCells(d)| + |ZCells(d)| == (d - 1) * (d - 1)
  {
    GridCellsSplit(d - 1, d - 1);
  }

  /** For a plaquette inside the lattice all four neighbours are in range,
    * so the marked indices are its four corners. */
  lemma PlaquetteMarked(d: nat, r: nat, c: nat)
    requires r < d - 1 && c < d - 1
    ensures Marked(d, Neighbours(r, c)) == set k | k in Plaquette(d, r, c)
  {
    var ns := Neighbours(r, c);
    var pl := Plaquette(d, r, c);
    assert ns[..0] == [] && ns[..4] == ns;
    forall t | 0 <= t < 4
      ensures Marked(d, ns[..t + 1]) == Marked(d, ns[..t]) + {pl[t]}
    {
      assert InSquare(d, ns[t]) && ns[t].0 * d + ns[t].1 == pl[t];
      MarkedSnoc(d, ns, t);
    }
    assert Marked(d, ns[..1]) == {pl[0]};
    assert Marked(d, ns[..2]) == {pl[0], pl[1]};
    assert Marked(d, ns[..3]) == {pl[0], pl[1], pl[2]};
    assert Marked(d, ns) == {pl[0], pl[1], pl[2], pl[3]};
  }

  /** The stabilizer of a plaquette inside the lattice has support exactly
    * its four corners, in ascending order, and weight 4. */
  lemma PlaquetteSupport(d: nat, r: nat, c: nat, p: Pauli)
    requires r < d - 1 && c < d - 1 && p != I
    ensures SupportQubits(NeighbourStabilizer(d, r, c, p)) == Plaquette(d, r, c)
    ensures Weight(NeighbourStabilizer(d, r, c, p)) == 4
  {
    PlaquetteMarked(d, r, c);
    var pl := Plaquette(d, r, c);
    var marked := Marked(d, Neighbours(r, c));
    var s := NeighbourStabilizer(d, r, c, p);
    assert |s.paulis| == d * d;
    assert (r + 1) * d == r * d + d;
    forall j ensures j in pl <==> 0 <= j < |s.paulis| && s.paulis[j] != I {
      assert j in pl <==> j in marked;
    }
    SupportIsSortedNonIdentity(s, pl);
    WeightOfStabilizer(s);
  }

  // ---------------------------------------------------------------------

  class SurfaceCode {
    var distance: int
    var dataQubits: seq<QubitPosition>
    var xAncillaQubits: seq<QubitPosition>
    var zAncillaQubits: seq<QubitPosition>
    var xStabilizers: seq<StabilizerInfo>
    var zStabilizers: seq<StabilizerInfo>
    var positionToDataQubit: map<Cell, int>
    var positionToXAncilla: map<Cell, int>
    var positionToZAncilla: map<Cell, int>

    /** The data-qubit half of what initializeLattice establishes. */
    ghost predicate DataValid()
      reads this`distance, this`dataQubits, this`positionToDataQubit
    {
      ValidDistance(distance) && DataLayoutOk(distance, dataQubits, positionToDataQubit)
    }

    /** What initializeLattice establishes. */
    ghost predicate LatticeValid()
      reads this`distance, this`dataQubits, this`positionToDataQubit
      reads this`xAncillaQubits, this`zAncillaQubits, this`positionToXAncilla, this`positionToZAncilla
    {
      DataValid() &&
      xAncillaQubits == Place(XCells(distance), distance * distance) &&
      zAncillaQubits == Place(ZCells(distance), distance * distance + |xAncillaQubits|) &&
      Inverts(positionToXAncilla, xAncillaQubits) &&
      Inverts(positionToZAncilla, zAncillaQubits)
    }

    ghost predicate Valid()
      reads this
    {
      LatticeValid() &&
      xStabilizers == StabilizerList(distance, xAncillaQubits, true) &&
      zStabilizers == StabilizerList(distance, zAncillaQubits, false)
    }

    /** SurfaceCode(distance) for a distance the guard accepts. */
    constructor (d: int)
      requires ValidDistance(d)
      ensures Valid() && distance == d
    {
      distance := d;
      dataQubits := [];
      xAncillaQubits := [];
      zAncillaQubits := [];
      xStabilizers := [];
      zStabilizers := [];
      positionToDataQubit := map[];
      positionToXAncilla := map[];
      positionToZAncilla := map[];
      new;
      InitializeLattice();
      ConstructStabilizers();
    }

    method InitializeLattice()
      requires ValidDistance(distance)
      requires dataQubits == [] && xAncillaQubits == [] && zAncillaQubits == []
      requires positionToDataQubit == map[] && positionToXAncilla == map[] && positionToZAncilla == map[]
      modifies this`dataQubits, this`xAncillaQubits, this`zAncillaQubits
      modifies this`positionToDataQubit, this`positionToXAncilla, this`positionToZAncilla
      ensures LatticeValid()
    {
      var d := distance;
      var qubits, positions, qubitIndex := LayDataQubits(d);
      var xs, xPositions, afterX := LayAncillas(d, 0, qubitIndex);
      var zs, zPositions, afterZ := LayAncillas(d, 1, afterX);
      dataQubits, positionToDataQubit := qubits, positions;
      xAncillaQubits, positionToXAncilla := xs, xPositions;
      zAncillaQubits, positionToZAncilla := zs, zPositions;
    }

    method ConstructStabilizers()
      requires LatticeValid()
      requires xStabilizers == [] && zStabilizers == []
      modifies this`xStabilizers, this`zStabilizers
      ensures Valid()
    {
      var xs := BuildStabilizers(distance, dataQubits, positionToDataQubit, xAncillaQubits, true);
      var zs := BuildStabilizers(distance, dataQubits, positionToDataQubit, zAncillaQubits, false);
      xStabilizers, zStabilizers := xs, zs;
    }

    /** getNumDataQubits() is d² and getNumAncillaQubits() is (d−1)². */
    lemma QubitCounts()
      requires LatticeValid()
      ensures |dataQubits| == distance * distance
      ensures |xAncillaQubits| + |zAncillaQubits| == (distance - 1) * (distance - 1)
    {
      AncillaTotal(distance);
    }

    /** getStabilizerSupport(index, isXType). */
    method GetStabilizerSupport(stabilizerIndex: int, isXType: bool) returns (r: Result<seq<int>>)
      requires Valid()
      ensures var ancillas := if isXType then xAncillaQubits else zAncillaQubits;
        (r.Ok? <==> 0 <= stabilizerIndex < |ancillas|) &&
        (r.Err? ==> r.error == OutOfRange) &&
        (r.Ok? ==> r.value == Plaquette(distance, ancillas[stabilizerIndex].row, ancillas[stabilizerIndex].col))
    {
      var stabilizers := if isXType then xStabilizers else zStabilizers;
      if stabilizerIndex < 0 || stabilizerIndex >= |stabilizers| {
        return Err(OutOfRange);
      }
      var ancilla := (if isXType then xAncillaQubits else zAncillaQubits)[stabilizerIndex];
      var cells := if isXType then XCells(distance) else ZCells(distance);
      assert (ancilla.row, ancilla.col) == cells[stabilizerIndex];
      GridCellsRange(distance - 1, distance - 1, if isXType then 0 else 1);
      PlaquetteSupport(distance, ancilla.row, ancilla.col, if isXType then X else Z);
      return Ok(SupportQubits(stabilizers[stabilizerIndex].op));
    }

    /** measureSyndromes: one satisfied (+1) entry per stabilizer, X first,
      * and the code distance recorded. */
    method MeasureSyndromes() returns (syndrome: Syndromes.Syndrome)
      ensures fresh(syndrome)
      ensures |syndrome.measurements| == |xStabilizers| + |zStabilizers|
      ensures forall j :: 0 <= j < |syndrome.measurements| ==> syndrome.measurements[j] == 1
      ensures syndrome.codeDistance == distance
    {
      syndrome := new Syndromes.Syndrome.Sized(|xStabilizers| + |zStabilizers|);
      syndrome.SetCodeDistance(distance);
    }

    /** isLogicalZero: the syndrome it reads is never violated. */
    method IsLogicalZero() returns (b: bool)
      ensures b
    {
      var syndrome := MeasureSyndromes();
      b := syndrome.IsAllZero();
    }
  }

  /** The data-qubit loop of initializeLattice: the d×d cells row-major,
    * global indices 0, 1, …, and the map from each cell to its list
    * position. */
  method LayDataQubits(d: int) returns (qubits: seq<QubitPosition>, positions: map<Cell, int>, next: int)
    requires d >= 0
    ensures qubits == DataRows(d, d)
    ensures Inverts(positions, qubits)
    ensures next == d * d
  {
    qubits, positions, next := [], map[], 0;
    var row := 0;
    while row < d
      invariant 0 <= row <= d
      invariant qubits == DataRows(d, row)
      invariant next == row * d
      invariant Inverts(positions, qubits)
    {
      var col := 0;
      while col < d
        invariant 0 <= col <= d
        invariant qubits == DataRows(d, row) + DataRow(d, row, col)
        invariant next == row * d + col
        invariant Inverts(positions, qubits)
      {
        assert DataRow(d, row, col + 1) == DataRow(d, row, col) + [QubitPosition(row, col, next)];
        qubits := qubits + [QubitPosition(row, col, next)];
        next := next + 1;
        positions := positions[(row, col) := |qubits| - 1];
        col := col + 1;
      }
      assert (row + 1) * d == row * d + d;
      row := row + 1;
    }
  }

  /** A data-qubit list and lookup map as initializeLattice lays them out. */
  ghost predicate DataLayoutOk(d: int, qubits: seq<QubitPosition>, positions: map<Cell, int>)
  {
    d >= 0 && qubits == DataRows(d, d) && Inverts(positions, qubits)
  }

  /** The data qubit at an in-range cell, found through the lookup map, has
    * global index r·d + c. */
  lemma DataLookup(d: int, qubits: seq<QubitPosition>, positions: map<Cell, int>, r: int, c: int)
    requires DataLayoutOk(d, qubits, positions) && InSquare(d, (r, c))
    ensures (r, c) in positions
    ensures 0 <= positions[(r, c)] < |qubits|
    ensures qubits[positions[(r, c)]].globalIndex == r * d + c
  {
    DataRowsAt(d, d, r, c);
    assert (qubits[r * d + c].row, qubits[r * d + c].col) == (r, c);
    DataRowsShape(d, d, positions[(r, c)]);
  }

  /** The Pauli vector of one ancilla: `p` on each in-range neighbour that
    * the lookup map finds. */
  method NeighbourOp(d: int, qubits: seq<QubitPosition>, positions: map<Cell, int>, a: QubitPosition, p: Pauli)
    returns (op: Stabilizer)
    requires DataLayoutOk(d, qubits, positions)
    ensures op == NeighbourStabilizer(d, a.row, a.col, p)
  {
    ghost var n := d * d;
    var paulis := seq(d * d, _ => I);
    var neighbors := Neighbours(a.row, a.col);
    var t := 0;
    while t < 4
      invariant 0 <= t <= 4
      invariant |paulis| == n
      invariant forall k :: 0 <= k < n ==> paulis[k] == if k in Marked(d, neighbors[..t]) then p else I
    {
      var (r, c) := neighbors[t];
      MarkedSnoc(d, neighbors, t);
      if r >= 0 && r < d && c >= 0 && c < d {
        DataLookup(d, qubits, positions, r, c);
        if (r, c) in positions {
          var dataIdx := positions[(r, c)];
          paulis := paulis[qubits[dataIdx].globalIndex := p];
        }
      }
      t := t + 1;
    }
    assert neighbors[..4] == neighbors;
    op := Stabilizer(paulis);
  }

  /** One of the two loops of constructStabilizers: for each ancilla in
    * order, its neighbour operator (X for X-type, Z for Z-type) and a
    * running index. */
  method BuildStabilizers(d: int, qubits: seq<QubitPosition>, positions: map<Cell, int>,
                          ancillas: seq<QubitPosition>, isX: bool)
    returns (infos: seq<StabilizerInfo>)
    requires DataLayoutOk(d, qubits, positions)
    ensures infos == StabilizerList(d, ancillas, isX)
  {
    infos := [];
    var stabIdx := 0;
    while stabIdx < |ancillas|
      invariant 0 <= stabIdx <= |ancillas|
      invariant infos == StabilizerList(d, ancillas[..stabIdx], isX)
    {
      var ancilla := ancillas[stabIdx];
      var op := NeighbourOp(d, qubits, positions, ancilla, if isX then X else Z);
      assert ancillas[..stabIdx + 1] == ancillas[..stabIdx] + [ancilla];
      infos := infos + [StabilizerInfo(stabIdx, ancilla.row, ancilla.col, isX, op)];
      stabIdx := stabIdx + 1;
    }
    assert ancillas[..stabIdx] == ancillas;
  }

  /** One of the two ancilla loops of initializeLattice: the cells of the
    * (d−1)×(d−1) grid with (row + col) % 2 == parity, row-major, numbered
    * from `first`, and the map from each cell to its list position. */
  method LayAncillas(d: int, parity: nat, first: int) returns (ancillas: seq<QubitPosition>, positions: map<Cell, int>, next: int)
    requires d >= 1
    ensures ancillas == Place(GridCells(d - 1, d - 1, parity), first)
    ensures Inverts(positions, ancillas)
    ensures next == first + |ancillas|
  {
    ancillas, positions, next := [], map[], first;
    var row := 0;
    while row < d - 1
      invariant 0 <= row <= d - 1
      invariant ancillas == Place(GridCells(d - 1, row, parity), first)
      invariant next == first + |ancillas|
      invariant Inverts(positions, ancillas)
    {
      var col := 0;
      assert GridCells(d - 1, row, parity) + RowCells(row, 0, parity) == GridCells(d - 1, row, parity);
      while col < d - 1
        invariant 0 <= col <= d - 1
        invariant ancillas == Place(GridCells(d - 1, row, parity) + RowCells(row, col, parity), first)
        invariant next == first + |ancillas|
        invariant Inverts(positions, ancillas)
      {
        if (row + col) % 2 == parity {
          PlaceSnoc(GridCells(d - 1, row, parity) + RowCells(row, col, parity), (row, col), first);
          ancillas := ancillas + [QubitPosition(row, col, next)];
          next := next + 1;
          positions := positions[(row, col) := |ancillas| - 1];
        }
        col := col + 1;
      }
      row := row + 1;
    }
  }

  lemma PlaceSnoc(cells: seq<Cell>, p: Cell, start: int)
    ensures Place(cells + [p], start) == Place(cells, start) + [QubitPosition(p.0, p.1, start + |cells|)]
  {
  }

  /** SurfaceCode(distance): throws invalid_argument unless the distance is
    * odd and at least 3. */
  method NewSurfaceCode(distance: int) returns (r: Result<SurfaceCode>)
    ensures r.Err? <==> !ValidDistance(distance)
    ensures r.Err? ==> r.error == InvalidArgument
    ensures r.Ok? ==> fresh(r.value) && r.value.Valid() && r.value.distance == distance
  {
    if distance % 2 == 0 || distance < 3 {
      return Err(InvalidArgument);
    }
    var code := new SurfaceCode(distance);
    return Ok(code);
  }
}
