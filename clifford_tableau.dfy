/** Value-level meaning of the stabilizer tableau kept by `CliffordSimulator`
  * (libomniq-core/src/simulators/clifford/CliffordSimulator.cpp). Row i
  * holds the X part, the Z part and the sign exponent of one Pauli product;
  * rows 0..n-1 are stabilizers and rows n..2n-1 destabilizers. Every
  * operation is written with the C++ integer semantics it uses (`%` and `/`
  * truncate toward zero, `^` is two's-complement XOR, a non-zero `int` is
  * true), so the functions are defined for any integer entries. */
module CliffordTableau {
  import opened Bits

  /** C++ `a % m` for m > 0: the remainder takes the sign of `a`. */
  function TMod(a: int, m: int): (r: int)
    requires m > 0
    ensures a >= 0 ==> 0 <= r < m
    ensures a < 0 ==> -m < r <= 0
  {
    if a >= 0 then a % m else -((-a) % m)
  }

  /** C++ `a / m` for m > 0: the quotient is truncated toward zero. */
  function TDiv(a: int, m: int): (r: int)
    requires m > 0
    ensures a >= 0 ==> r == a / m
    ensures a < 0 ==> r == -((-a) / m)
  {
    if a >= 0 then a / m else -((-a) / m)
  }

  predicate IsBit(v: int) { 0 <= v <= 1 }

  /** One generator: X part, Z part and sign exponent r (the sign is i^(2r)). */
  datatype Row = Row(x: seq<int>, z: seq<int>, r: int)

  datatype Tableau = Tableau(n: nat, rows: seq<Row>)

  predicate RowShaped(row: Row, n: nat)
  {
    |row.x| == n && |row.z| == n
  }

  predicate Shaped(t: Tableau)
  {
    |t.rows| == 2 * t.n && forall i :: 0 <= i < |t.rows| ==> RowShaped(t.rows[i], t.n)
  }

  predicate BinaryRow(row: Row)
  {
    IsBit(row.r) &&
    (forall j :: 0 <= j < |row.x| ==> IsBit(row.x[j])) &&
    (forall j :: 0 <= j < |row.z| ==> IsBit(row.z[j]))
  }

  /** Every x, z and r entry is 0 or 1. */
  predicate Binary(t: Tableau)
  {
    forall i :: 0 <= i < |t.rows| ==> BinaryRow(t.rows[i])
  }

  /** The tableau of |0...0>: stabilizer i is Z_i, destabilizer n+i is X_i,
    * all signs 0. */
  function Init(n: nat): (t: Tableau)
    ensures Shaped(t) && Binary(t)
  {
    Tableau(n, seq(2 * n, (i: int) =>
      Row(seq(n, (j: int) => if i == n + j then 1 else 0),
          seq(n, (j: int) => if i == j then 1 else 0),
          0)))
  }

  /** The source's `g`: the power of i picked up when multiplying the
    * single-qubit Paulis (x1,z1) and (x2,z2). */
  function G(x1: int, z1: int, x2: int, z2: int): int
  {
    if x1 == 0 && z1 == 0 then 0
    else if x1 == 1 && z1 == 1 then z2 - x2
    else if x1 == 1 && z1 == 0 then z2 * (2 * x2 - 1)
    else x2 * (1 - 2 * z2)
  }

  /** Sum of `g` over the first k columns, source row `i` against target row `h`. */
  function GSum(i: Row, h: Row, k: nat): int
    requires k <= |i.x| && k <= |i.z| && k <= |h.x| && k <= |h.z|
  {
    if k == 0 then 0 else GSum(i, h, k - 1) + G(i.x[k - 1], i.z[k - 1], h.x[k - 1], h.z[k - 1])
  }

  /** `v` with entry q replaced. */
  function Put(v: seq<int>, q: nat, e: int): (w: seq<int>)
    requires q < |v|
    ensures |w| == |v| && w[q] == e
    ensures forall j :: 0 <= j < |v| && j != q ==> w[j] == v[j]
  {
    v[q := e]
  }

  // ---------------------------------------------------------------------
  // Per-row gate updates

  /** applyH: exchange x and z in column q; flip r when both are set. */
  function HRow(row: Row, q: nat): Row
    requires q < |row.x| && q < |row.z|
  {
    Row(Put(row.x, q, row.z[q]), Put(row.z, q, row.x[q]),
        if row.z[q] != 0 && row.x[q] != 0 then TMod(row.r + 1, 2) else row.r)
  }

  /** applyS: where x is set, z is incremented mod 2, and r flips if z became set. */
  function SRow(row: Row, q: nat): Row
    requires q < |row.x| && q < |row.z|
  {
    if row.x[q] != 0 then
      var z' := TMod(row.z[q] + 1, 2);
      Row(row.x, Put(row.z, q, z'), if z' != 0 then TMod(row.r + 1, 2) else row.r)
    else row
  }

  /** The sign update of applyCNOT: (r + x_c z_t (x_t + z_c + 1)) % 2. The
    * product vanishes when x_c or z_t is 0; that case is split off so the
    * solver meets the product only where it matters. */
  function CnotSign(r: int, xc: int, zt: int, xt: int, zc: int): int
  {
    if xc == 0 || zt == 0 then TMod(r, 2) else TMod(r + xc * zt * (xt + zc + 1), 2)
  }

  /** applyCNOT(c, t) on one row: r first, then x_t, then z_c. */
  function CnotRow(row: Row, c: nat, tg: nat): Row
    requires c < |row.x| && c < |row.z| && tg < |row.x| && tg < |row.z|
  {
    Row(Put(row.x, tg, TMod(row.x[tg] + row.x[c], 2)),
        Put(row.z, c, TMod(row.z[c] + row.z[tg], 2)),
        CnotSign(row.r, row.x[c], row.z[tg], row.x[tg], row.z[c]))
  }

  /** applyX: flip r where z is set. */
  function XRow(row: Row, q: nat): Row
    requires q < |row.z|
  {
    if row.z[q] != 0 then row.(r := TMod(row.r + 1, 2)) else row
  }

  /** applyY: flip r where x ^ z is non-zero. */
  function YRow(row: Row, q: nat): Row
    requires q < |row.x| && q < |row.z|
  {
    if Xor(row.x[q], row.z[q]) != 0 then row.(r := TMod(row.r + 1, 2)) else row
  }

  /** applyZ: flip r where x is set. */
  function ZRow(row: Row, q: nat): Row
    requires q < |row.x|
  {
    if row.x[q] != 0 then row.(r := TMod(row.r + 1, 2)) else row
  }

  /** rowsum(h, i) as the new row h: x and z become the mod-2 sums of the two
    * rows and r(h) = (phase % 4) / 2 with C++'s truncating operators. */
  function RowsumRow(h: Row, i: Row, n: nat): Row
    requires RowShaped(h, n) && RowShaped(i, n)
  {
    var phase := 2 * h.r + 2 * i.r + GSum(i, h, n);
    Row(seq(n, (j: int) requires 0 <= j < n => TMod(h.x[j] + i.x[j], 2)),
        seq(n, (j: int) requires 0 <= j < n => TMod(h.z[j] + i.z[j], 2)),
        TDiv(TMod(phase, 4), 2))
  }

  // ---------------------------------------------------------------------
  // Whole-tableau operations

  function H(t: Tableau, q: nat): (t': Tableau)
    requires Shaped(t) && q < t.n
    ensures Shaped(t') && t'.n == t.n
    ensures forall i :: 0 <= i < 2 * t.n ==> t'.rows[i] == HRow(t.rows[i], q)
  {
    Tableau(t.n, seq(2 * t.n, (i: int) requires 0 <= i < 2 * t.n => HRow(t.rows[i], q)))
  }

  function S(t: Tableau, q: nat): (t': Tableau)
    requires Shaped(t) && q < t.n
    ensures Shaped(t') && t'.n == t.n
    ensures forall i :: 0 <= i < 2 * t.n ==> t'.rows[i] == SRow(t.rows[i], q)
  {
    Tableau(t.n, seq(2 * t.n, (i: int) requires 0 <= i < 2 * t.n => SRow(t.rows[i], q)))
  }

  /** applySdag: S applied three times. */
  function Sdag(t: Tableau, q: nat): (t': Tableau)
    requires Shaped(t) && q < t.n
    ensures Shaped(t') && t'.n == t.n
  {
    S(S(S(t, q), q), q)
  }

  function Cnot(t: Tableau, c: nat, tg: nat): (t': Tableau)
    requires Shaped(t) && c < t.n && tg < t.n
    ensures Shaped(t') && t'.n == t.n
    ensures forall i :: 0 <= i < 2 * t.n ==> t'.rows[i] == CnotRow(t.rows[i], c, tg)
  {
    Tableau(t.n, seq(2 * t.n, (i: int) requires 0 <= i < 2 * t.n => CnotRow(t.rows[i], c, tg)))
  }

  /** applyCZ(q1, q2): H(q2), CNOT(q1, q2), H(q2). */
  function Cz(t: Tableau, q1: nat, q2: nat): (t': Tableau)
    requires Shaped(t) && q1 < t.n && q2 < t.n
    ensures Shaped(t') && t'.n == t.n
  {
    H(Cnot(H(t, q2), q1, q2), q2)
  }

  function X(t: Tableau, q: nat): (t': Tableau)
    requires Shaped(t) && q < t.n
    ensures Shaped(t') && t'.n == t.n
    ensures forall i :: 0 <= i < 2 * t.n ==> t'.rows[i] == XRow(t.rows[i], q)
  {
    Tableau(t.n, seq(2 * t.n, (i: int) requires 0 <= i < 2 * t.n => XRow(t.rows[i], q)))
  }

  function Y(t: Tableau, q: nat): (t': Tableau)
    requires Shaped(t) && q < t.n
    ensures Shaped(t') && t'.n == t.n
    ensures forall i :: 0 <= i < 2 * t.n ==> t'.rows[i] == YRow(t.rows[i], q)
  {
    Tableau(t.n, seq(2 * t.n, (i: int) requires 0 <= i < 2 * t.n => YRow(t.rows[i], q)))
  }

  function Z(t: Tableau, q: nat): (t': Tableau)
    requires Shaped(t) && q < t.n
    ensures Shaped(t') && t'.n == t.n
    ensures forall i :: 0 <= i < 2 * t.n ==> t'.rows[i] == ZRow(t.rows[i], q)
  {
    Tableau(t.n, seq(2 * t.n, (i: int) requires 0 <= i < 2 * t.n => ZRow(t.rows[i], q)))
  }

  /** rowsum(h, i) on the whole tableau: only row h changes. */
  function Rowsum(t: Tableau, h: nat, i: nat): (t': Tableau)
    requires Shaped(t) && h < 2 * t.n && i < 2 * t.n
    ensures Shaped(t') && t'.n == t.n
  {
    Tableau(t.n, t.rows[h := RowsumRow(t.rows[h], t.rows[i], t.n)])
  }

  // ---------------------------------------------------------------------
  // measure(q) with the random outcome passed in as `bit`

  /** The first stabilizer row k' in [k, n) with x(k', q) set, or -1. */
  function FirstXFrom(t: Tableau, q: nat, k: nat): (p: int)
    requires Shaped(t) && q < t.n && k <= t.n
    ensures p == -1 || k <= p < t.n
    ensures p >= 0 ==> t.rows[p].x[q] != 0 && forall k' :: k <= k' < p ==> t.rows[k'].x[q] == 0
    ensures p == -1 ==> forall k' :: k <= k' < t.n ==> t.rows[k'].x[q] == 0
    decreases t.n - k
  {
    if k == t.n then -1
    else if t.rows[k].x[q] != 0 then k
    else FirstXFrom(t, q, k + 1)
  }

  /** Row p after a random measurement: exactly Z_q with sign `bit`. */
  function ZRowWithSign(n: nat, q: nat, bit: int): (row: Row)
    ensures RowShaped(row, n)
  {
    Row(seq(n, (j: int) => 0), seq(n, (j: int) => if j == q then 1 else 0), bit)
  }

  /** The random branch: every row i != p with x(i, q) set is rowsummed with
    * row p (row p itself is untouched until the end), then row p becomes Z_q
    * with sign `bit`. */
  function MeasureRandom(t: Tableau, q: nat, p: nat, bit: int): (t': Tableau)
    requires Shaped(t) && q < t.n && p < t.n
    ensures Shaped(t') && t'.n == t.n
  {
    Tableau(t.n, seq(2 * t.n, (i: int) requires 0 <= i < 2 * t.n =>
      if i == p then ZRowWithSign(t.n, q, bit)
      else if t.rows[i].x[q] != 0 then RowsumRow(t.rows[i], t.rows[p], t.n)
      else t.rows[i]))
  }

  /** The deterministic branch: `result ^= r(i)` over destabilizer rows
    * n..k-1 with x(i, q) set. */
  function DetOutcome(t: Tableau, q: nat, k: nat): int
    requires Shaped(t) && q < t.n && t.n <= k <= 2 * t.n
    decreases k
  {
    if k == t.n then 0
    else if t.rows[k - 1].x[q] != 0 then Xor(DetOutcome(t, q, k - 1), t.rows[k - 1].r)
    else DetOutcome(t, q, k - 1)
  }

  datatype Measured = Measured(outcome: int, after: Tableau)

  function Measure(t: Tableau, q: nat, bit: int): (m: Measured)
    requires Shaped(t) && q < t.n
    ensures Shaped(m.after) && m.after.n == t.n
  {
    var p := FirstXFrom(t, q, 0);
    if p >= 0 then Measured(bit, MeasureRandom(t, q, p, bit))
    else Measured(DetOutcome(t, q, 2 * t.n), t)
  }

  // ---------------------------------------------------------------------
  // Properties

  /** The initial tableau holds Z_i in row i and X_i in row n+i. */
  lemma InitRows(n: nat, i: nat, j: nat)
    requires i < n && j < n
    ensures Init(n).rows[i].x[j] == 0 && Init(n).rows[i].z[j] == (if i == j then 1 else 0)
    ensures Init(n).rows[n + i].x[j] == (if i == j then 1 else 0) && Init(n).rows[n + i].z[j] == 0
    ensures Init(n).rows[i].r == 0 && Init(n).rows[n + i].r == 0
  {
  }

  lemma FlipTwice(r: int)
    requires IsBit(r)
    ensures IsBit(TMod(r + 1, 2)) && TMod(TMod(r + 1, 2) + 1, 2) == r
  {
  }

  lemma RowGatesKeepBinary(row: Row, q: nat, c: nat)
    requires BinaryRow(row) && q < |row.x| && q < |row.z| && c < |row.x| && c < |row.z|
    ensures BinaryRow(HRow(row, q)) && BinaryRow(SRow(row, q)) && BinaryRow(CnotRow(row, c, q))
    ensures BinaryRow(XRow(row, q)) && BinaryRow(YRow(row, q)) && BinaryRow(ZRow(row, q))
  {
  }

  /** Starting from 0/1 entries, every gate keeps all x, z and r entries in {0, 1}. */
  lemma {:induction false} GatesKeepBinary(t: Tableau, q: nat, c: nat)
    requires Shaped(t) && Binary(t) && q < t.n && c < t.n
    ensures Binary(H(t, q)) && Binary(S(t, q)) && Binary(Cnot(t, c, q))
    ensures Binary(X(t, q)) && Binary(Y(t, q)) && Binary(Z(t, q))
    ensures Binary(Sdag(t, q)) && Binary(Cz(t, c, q))
  {
    forall i | 0 <= i < 2 * t.n ensures BinaryRow(H(t, q).rows[i]) && BinaryRow(S(t, q).rows[i])
      && BinaryRow(Cnot(t, c, q).rows[i]) && BinaryRow(X(t, q).rows[i])
      && BinaryRow(Y(t, q).rows[i]) && BinaryRow(Z(t, q).rows[i])
    {
      RowGatesKeepBinary(t.rows[i], q, c);
    }
    var s1 := S(t, q);
    forall i | 0 <= i < 2 * t.n ensures BinaryRow(S(s1, q).rows[i]) {
      RowGatesKeepBinary(s1.rows[i], q, c);
    }
    var s2 := S(s1, q);
    forall i | 0 <= i < 2 * t.n ensures BinaryRow(S(s2, q).rows[i]) {
      RowGatesKeepBinary(s2.rows[i], q, c);
    }
    var h1 := H(t, q);
    forall i | 0 <= i < 2 * t.n ensures BinaryRow(Cnot(h1, c, q).rows[i]) {
      RowGatesKeepBinary(h1.rows[i], q, c);
    }
    var c1 := Cnot(h1, c, q);
    forall i | 0 <= i < 2 * t.n ensures BinaryRow(H(c1, q).rows[i]) {
      RowGatesKeepBinary(c1.rows[i], q, c);
    }
  }

  /** Two tableaux with the same rows are equal. */
  lemma RowsEqual(a: Tableau, b: Tableau)
    requires a.n == b.n && |a.rows| == |b.rows|
    requires forall i :: 0 <= i < |a.rows| ==> a.rows[i] == b.rows[i]
    ensures a == b
  {
  }

  lemma HRowTwice(row: Row, q: nat)
    requires BinaryRow(row) && q < |row.x| && q < |row.z|
    ensures HRow(HRow(row, q), q) == row
  {
    var h := HRow(HRow(row, q), q);
    assert h.x == row.x;
    assert h.z == row.z;
  }

  /** Applying the CNOT sign update twice on 0/1 entries restores the sign:
    * the two added terms sum to 0 or 4. */
  lemma CnotSignTwice(r: int, xc: int, zt: int, xt: int, zc: int)
    requires IsBit(r) && IsBit(xc) && IsBit(zt) && IsBit(xt) && IsBit(zc)
    ensures CnotSign(CnotSign(r, xc, zt, xt, zc), xc, zt, TMod(xt + xc, 2), TMod(zc + zt, 2)) == r
  {
    if xc == 1 && zt == 1 {
      assert CnotSign(r, xc, zt, xt, zc) == TMod(r + xt + zc + 1, 2);
      assert TMod(xt + xc, 2) == 1 - xt && TMod(zc + zt, 2) == 1 - zc;
    } else {
      assert xc * zt == 0;
    }
  }

  lemma CnotRowTwice(row: Row, c: nat, tg: nat)
    requires BinaryRow(row) && c < |row.x| && c < |row.z| && tg < |row.x| && tg < |row.z| && c != tg
    ensures CnotRow(CnotRow(row, c, tg), c, tg) == row
  {
    var once := CnotRow(row, c, tg);
    var h := CnotRow(once, c, tg);
    assert once.x[c] == row.x[c] && once.x[tg] == TMod(row.x[tg] + row.x[c], 2);
    assert once.z[tg] == row.z[tg] && once.z[c] == TMod(row.z[c] + row.z[tg], 2);
    assert TMod(TMod(row.x[tg] + row.x[c], 2) + row.x[c], 2) == row.x[tg];
    assert TMod(TMod(row.z[c] + row.z[tg], 2) + row.z[tg], 2) == row.z[c];
    assert h.x == row.x && h.z == row.z;
    CnotSignTwice(row.r, row.x[c], row.z[tg], row.x[tg], row.z[c]);
  }

  /** applyH is an involution on a 0/1 tableau. */
  lemma {:induction false} HInvolution(t: Tableau, q: nat)
    requires Shaped(t) && Binary(t) && q < t.n
    ensures H(H(t, q), q) == t
  {
    forall i | 0 <= i < 2 * t.n ensures H(H(t, q), q).rows[i] == t.rows[i] {
      HRowTwice(t.rows[i], q);
    }
    RowsEqual(H(H(t, q), q), t);
  }

  /** applyX, applyY and applyZ change only signs, and each is an involution
    * on a 0/1 tableau. */
  lemma {:induction false} PauliInvolutions(t: Tableau, q: nat)
    requires Shaped(t) && Binary(t) && q < t.n
    ensures X(X(t, q), q) == t && Y(Y(t, q), q) == t && Z(Z(t, q), q) == t
    ensures forall i :: 0 <= i < 2 * t.n ==>
      X(t, q).rows[i].x == t.rows[i].x && X(t, q).rows[i].z == t.rows[i].z &&
      Y(t, q).rows[i].x == t.rows[i].x && Y(t, q).rows[i].z == t.rows[i].z &&
      Z(t, q).rows[i].x == t.rows[i].x && Z(t, q).rows[i].z == t.rows[i].z
  {
    forall i | 0 <= i < 2 * t.n
      ensures X(X(t, q), q).rows[i] == t.rows[i] && Y(Y(t, q), q).rows[i] == t.rows[i]
      ensures Z(Z(t, q), q).rows[i] == t.rows[i]
    {
      FlipTwice(t.rows[i].r);
    }
    RowsEqual(X(X(t, q), q), t);
    RowsEqual(Y(Y(t, q), q), t);
    RowsEqual(Z(Z(t, q), q), t);
  }

  /** applyCNOT(c, t) with c != t is an involution on a 0/1 tableau. */
  lemma {:induction false} CnotInvolution(t: Tableau, c: nat, tg: nat)
    requires Shaped(t) && Binary(t) && c < t.n && tg < t.n && c != tg
    ensures Cnot(Cnot(t, c, tg), c, tg) == t
  {
    forall i | 0 <= i < 2 * t.n ensures Cnot(Cnot(t, c, tg), c, tg).rows[i] == t.rows[i] {
      CnotRowTwice(t.rows[i], c, tg);
    }
    RowsEqual(Cnot(Cnot(t, c, tg), c, tg), t);
  }

  /** applyCNOT(c, t) only touches column t of x and column c of z there,
    * adding the other column mod 2. */
  lemma CnotColumns(t: Tableau, c: nat, tg: nat, i: nat, j: nat)
    requires Shaped(t) && Binary(t) && c < t.n && tg < t.n && c != tg && i < 2 * t.n && j < t.n
    ensures Cnot(t, c, tg).rows[i].x[j] ==
      (if j == tg then (if t.rows[i].x[tg] == t.rows[i].x[c] then 0 else 1) else t.rows[i].x[j])
    ensures Cnot(t, c, tg).rows[i].z[j] ==
      (if j == c then (if t.rows[i].z[c] == t.rows[i].z[tg] then 0 else 1) else t.rows[i].z[j])
  {
  }

  /** S applied twice is Z on a 0/1 tableau. */
  lemma {:induction false} SSquaredIsZ(t: Tableau, q: nat)
    requires Shaped(t) && Binary(t) && q < t.n
    ensures S(S(t, q), q) == Z(t, q)
  {
    forall i | 0 <= i < 2 * t.n ensures S(S(t, q), q).rows[i] == Z(t, q).rows[i] {
      var row := t.rows[i];
      if row.x[q] != 0 {
        assert SRow(SRow(row, q), q).z == row.z;
      }
    }
    RowsEqual(S(S(t, q), q), Z(t, q));
  }

  /** applySdag undoes applyS on a 0/1 tableau (S^4 is the identity). */
  lemma {:induction false} SdagUndoesS(t: Tableau, q: nat)
    requires Shaped(t) && Binary(t) && q < t.n
    ensures S(Sdag(t, q), q) == t && Sdag(S(t, q), q) == t
  {
    GatesKeepBinary(t, q, q);
    var s1 := S(t, q);
    GatesKeepBinary(s1, q, q);
    var s2 := S(s1, q);
    GatesKeepBinary(s2, q, q);
    SSquaredIsZ(t, q);
    SSquaredIsZ(s2, q);
    assert S(Sdag(t, q), q) == Z(Z(t, q), q);
    PauliInvolutions(t, q);
    SSquaredIsZ(s1, q);
    assert Sdag(s1, q) == S(Z(s1, q), q);
    ZCommutesS(t, q);
  }

  lemma {:induction false} ZCommutesS(t: Tableau, q: nat)
    requires Shaped(t) && Binary(t) && q < t.n
    ensures S(Z(S(t, q), q), q) == t
  {
    forall i | 0 <= i < 2 * t.n ensures S(Z(S(t, q), q), q).rows[i] == t.rows[i] {
      var row := t.rows[i];
      if row.x[q] != 0 {
        assert SRow(ZRow(SRow(row, q), q), q).z == row.z;
      }
    }
    RowsEqual(S(Z(S(t, q), q), q), t);
  }

  /** applyCZ is an involution on a 0/1 tableau: H;CNOT;H twice collapses
    * through H·H = I and CNOT·CNOT = I. */
  lemma {:induction false} CzInvolution(t: Tableau, a: nat, b: nat)
    requires Shaped(t) && Binary(t) && a < t.n && b < t.n && a != b
    ensures Cz(Cz(t, a, b), a, b) == t
  {
    var h1 := H(t, b);
    GatesKeepBinary(t, b, a);
    var c1 := Cnot(h1, a, b);
    GatesKeepBinary(h1, b, a);
    var h2 := H(c1, b);
    GatesKeepBinary(c1, b, a);
    HInvolution(c1, b);
    assert H(h2, b) == c1;
    CnotInvolution(h1, a, b);
    HInvolution(t, b);
  }

  /** rowsum(h, i) changes only row h, whose x and z parts become the XOR of
    * the two rows when they are 0/1. */
  lemma RowsumOnlyRowH(t: Tableau, h: nat, i: nat, k: nat, j: nat)
    requires Shaped(t) && Binary(t) && h < 2 * t.n && i < 2 * t.n && k < 2 * t.n && j < t.n
    ensures k != h ==> Rowsum(t, h, i).rows[k] == t.rows[k]
    ensures Rowsum(t, h, i).rows[h].x[j] == (if t.rows[h].x[j] == t.rows[i].x[j] then 0 else 1)
    ensures Rowsum(t, h, i).rows[h].z[j] == (if t.rows[h].z[j] == t.rows[i].z[j] then 0 else 1)
  {
  }

  /** The random branch leaves row p exactly Z_q with the injected sign, and
    * reports that sign. */
  lemma MeasureRandomBranch(t: Tableau, q: nat, bit: int)
    requires Shaped(t) && q < t.n
    requires exists p :: 0 <= p < t.n && t.rows[p].x[q] != 0
    ensures var p := FirstXFrom(t, q, 0);
      0 <= p < t.n && Measure(t, q, bit).outcome == bit &&
      Measure(t, q, bit).after.rows[p] == ZRowWithSign(t.n, q, bit) &&
      forall i :: 0 <= i < 2 * t.n && i != p ==>
        Measure(t, q, bit).after.rows[i] ==
          if t.rows[i].x[q] != 0 then RowsumRow(t.rows[i], t.rows[p], t.n) else t.rows[i]
  {
  }

  lemma {:induction false} DetOutcomeBit(t: Tableau, q: nat, k: nat)
    requires Shaped(t) && Binary(t) && q < t.n && t.n <= k <= 2 * t.n
    ensures IsBit(DetOutcome(t, q, k))
  {
    if k > t.n {
      DetOutcomeBit(t, q, k - 1);
      var a := DetOutcome(t, q, k - 1);
      var b := t.rows[k - 1].r;
      assert NatXor(a, b) == 2 * NatXor(a / 2, b / 2) + (if a % 2 != b % 2 then 1 else 0);
      assert NatXor(a / 2, b / 2) == NatXor(0, 0) == 0;
    }
  }

  /** The deterministic branch leaves the tableau unchanged; on a 0/1 tableau
    * both branches report an outcome in {0, 1}. */
  lemma MeasureOutcome(t: Tableau, q: nat, bit: int)
    requires Shaped(t) && Binary(t) && q < t.n && IsBit(bit)
    ensures IsBit(Measure(t, q, bit).outcome)
    ensures FirstXFrom(t, q, 0) == -1 ==> Measure(t, q, bit).after == t
  {
    if FirstXFrom(t, q, 0) == -1 {
      DetOutcomeBit(t, q, 2 * t.n);
    }
  }

  // ---------------------------------------------------------------------
  // The truncating remainder in rowsum

  /** The two-qubit tableaux of the trace H(0), S(0), CNOT(0, 1), H(0). */
  const Trace0: seq<Row> := [Row([0, 0], [1, 0], 0), Row([0, 0], [0, 1], 0),
                             Row([1, 0], [0, 0], 0), Row([0, 1], [0, 0], 0)]
  const Trace1: seq<Row> := [Row([1, 0], [0, 0], 0), Row([0, 0], [0, 1], 0),
                             Row([0, 0], [1, 0], 0), Row([0, 1], [0, 0], 0)]
  const Trace2: seq<Row> := [Row([1, 0], [1, 0], 1), Row([0, 0], [0, 1], 0),
                             Row([0, 0], [1, 0], 0), Row([0, 1], [0, 0], 0)]
  const Trace3: seq<Row> := [Row([1, 1], [1, 0], 1), Row([0, 0], [1, 1], 0),
                             Row([0, 0], [1, 0], 0), Row([0, 1], [0, 0], 0)]
  const Trace4: seq<Row> := [Row([1, 1], [1, 0], 0), Row([1, 0], [0, 1], 0),
                             Row([1, 0], [0, 0], 0), Row([0, 1], [0, 0], 0)]

  lemma TraceStep0()
    ensures Init(2).rows == Trace0
  {
    var t0 := Init(2);
    forall i | 0 <= i < 4 ensures t0.rows[i].x == [if i == 2 then 1 else 0, if i == 3 then 1 else 0]
      && t0.rows[i].z == [if i == 0 then 1 else 0, if i == 1 then 1 else 0] && t0.rows[i].r == 0
    {
    }
  }

  lemma TraceStep1()
    ensures H(Tableau(2, Trace0), 0).rows == Trace1
  {
    var t1 := H(Tableau(2, Trace0), 0);
    assert [0, 0][0 := 1] == [1, 0] && [1, 0][0 := 0] == [0, 0] && [0, 1][0 := 0] == [0, 1];
    assert t1.rows[0] == Trace1[0] && t1.rows[1] == Trace1[1];
    assert t1.rows[2] == Trace1[2] && t1.rows[3] == Trace1[3];
  }

  lemma TraceStep2()
    ensures S(Tableau(2, Trace1), 0).rows == Trace2
  {
    var t2 := S(Tableau(2, Trace1), 0);
    assert [0, 0][0 := 1] == [1, 0];
    assert t2.rows[0] == Trace2[0] && t2.rows[1] == Trace2[1];
    assert t2.rows[2] == Trace2[2] && t2.rows[3] == Trace2[3];
  }

  lemma TraceStep3()
    ensures Cnot(Tableau(2, Trace2), 0, 1).rows == Trace3
  {
    var t3 := Cnot(Tableau(2, Trace2), 0, 1);
    CnotRowAt(Trace2[0], Trace3[0]);
    CnotRowAt(Trace2[1], Trace3[1]);
    CnotRowAt(Trace2[2], Trace3[2]);
    CnotRowAt(Trace2[3], Trace3[3]);
  }

  lemma TraceStep4()
    ensures H(Tableau(2, Trace3), 0).rows == Trace4
  {
    var t4 := H(Tableau(2, Trace3), 0);
    assert [1, 1][0 := 1] == [1, 1] && [1, 0][0 := 1] == [1, 0];
    assert [0, 0][0 := 1] == [1, 0] && [1, 1][0 := 0] == [0, 1] && [1, 0][0 := 0] == [0, 0];
    assert [0, 1][0 := 0] == [0, 1];
    assert t4.rows[0] == Trace4[0] && t4.rows[1] == Trace4[1];
    assert t4.rows[2] == Trace4[2] && t4.rows[3] == Trace4[3];
  }

  lemma CnotRowAt(before: Row, after: Row)
    requires before in {Row([1, 0], [1, 0], 1), Row([0, 0], [0, 1], 0),
                        Row([0, 0], [1, 0], 0), Row([0, 1], [0, 0], 0)}
    requires after == CnotRow(before, 0, 1)
    ensures after in {Row([1, 1], [1, 0], 1), Row([0, 0], [1, 1], 0),
                      Row([0, 0], [1, 0], 0), Row([0, 1], [0, 0], 0)}
    ensures before == Row([1, 0], [1, 0], 1) ==> after == Row([1, 1], [1, 0], 1)
    ensures before == Row([0, 0], [0, 1], 0) ==> after == Row([0, 0], [1, 1], 0)
    ensures before == Row([0, 0], [1, 0], 0) ==> after == Row([0, 0], [1, 0], 0)
    ensures before == Row([0, 1], [0, 0], 0) ==> after == Row([0, 1], [0, 0], 0)
  {
    assert CnotSign(1, 1, 0, 0, 1) == 1 && CnotSign(0, 0, 1, 0, 0) == 0;
    assert CnotSign(0, 0, 0, 0, 1) == 0 && CnotSign(0, 0, 0, 1, 0) == 0;
    assert [1, 0][1 := 1] == [1, 1] && [1, 0][0 := 1] == [1, 0];
    assert [0, 1][0 := 1] == [1, 1] && [0, 0][1 := 0] == [0, 0];
    assert [1, 0][0 := 1] == [1, 0] && [0, 1][1 := 1] == [0, 1] && [0, 0][0 := 0] == [0, 0];
  }

  /** As written, rowsum can leave a sign exponent of -1: on two qubits,
    * H(0), S(0), CNOT(0, 1), H(0) and then measure(0) with drawn bit 0
    * rowsums stabilizer row 1 against row 0 with a phase of -2, and
    * (-2 % 4) / 2 is -1 under C++'s truncating operators, so the tableau is
    * no longer 0/1. */
  lemma MeasureCanLeaveNegativeSign()
    ensures var t := H(Cnot(S(H(Init(2), 0), 0), 0, 1), 0);
      Binary(t) && Measure(t, 0, 0).after.rows[1].r == -1 && !Binary(Measure(t, 0, 0).after)
  {
    TraceReachesLast();
    MeasureLast();
  }

  lemma TraceReachesLast()
    ensures H(Cnot(S(H(Init(2), 0), 0), 0, 1), 0) == Tableau(2, Trace4)
  {
    TraceStep0();
    TraceStep1();
    TraceStep2();
    TraceStep3();
    TraceStep4();
  }

  lemma MeasureLast()
    ensures Binary(Tableau(2, Trace4))
    ensures Measure(Tableau(2, Trace4), 0, 0).after.rows[1].r == -1
  {
    var t4 := Tableau(2, Trace4);
    assert FirstXFrom(t4, 0, 0) == 0;
    assert GSum(t4.rows[0], t4.rows[1], 2) == -2;
    assert RowsumRow(t4.rows[1], t4.rows[0], 2).r == -1;
  }

  /** rowsum with the remainder taken in [0, 4), as the CHP tableau
    * algorithm intends: phase is 0 or 2 mod 4 and r(h) is 0 or 1. */
  function RowsumRowFixed(h: Row, i: Row, n: nat): (row: Row)
    requires RowShaped(h, n) && RowShaped(i, n)
    ensures RowShaped(row, n) && IsBit(row.r)
    ensures BinaryRow(h) && BinaryRow(i) ==> BinaryRow(row)
  {
    var phase := 2 * h.r + 2 * i.r + GSum(i, h, n);
    Row(seq(n, (j: int) requires 0 <= j < n => (h.x[j] + i.x[j]) % 2),
        seq(n, (j: int) requires 0 <= j < n => (h.z[j] + i.z[j]) % 2),
        (phase % 4) / 2)
  }

  /** measure(q) with the corrected rowsum. */
  function MeasureFixed(t: Tableau, q: nat, bit: int): (m: Measured)
    requires Shaped(t) && q < t.n
    ensures Shaped(m.after) && m.after.n == t.n
  {
    var p := FirstXFrom(t, q, 0);
    if p >= 0 then
      Measured(bit, Tableau(t.n, seq(2 * t.n, (i: int) requires 0 <= i < 2 * t.n =>
        if i == p then ZRowWithSign(t.n, q, bit)
        else if t.rows[i].x[q] != 0 then RowsumRowFixed(t.rows[i], t.rows[p], t.n)
        else t.rows[i])))
    else Measured(DetOutcome(t, q, 2 * t.n), t)
  }

  /** With the corrected rowsum a measurement keeps a 0/1 tableau 0/1 and
    * reports 0 or 1, so every sequence of gates and measurements does. */
  lemma MeasureFixedKeepsBinary(t: Tableau, q: nat, bit: int)
    requires Shaped(t) && Binary(t) && q < t.n && IsBit(bit)
    ensures Binary(MeasureFixed(t, q, bit).after) && IsBit(MeasureFixed(t, q, bit).outcome)
  {
    var p := FirstXFrom(t, q, 0);
    if p < 0 {
      DetOutcomeBit(t, q, 2 * t.n);
    }
  }
}
