/** The stabilizer-tableau simulator of
  * libomniq-core/src/simulators/clifford/CliffordSimulator.cpp: the x and z
  * matrices (2n x n) and the sign vector r (2n) are rewritten in place by
  * per-row loops. Each method is proved against the value-level operation of
  * module CliffordTableau on the tableau the arrays hold. */
module CliffordSimulation {
  import opened Bits
  import opened CliffordTableau

  class CliffordSimulator {
    /** numQubits_ */
    const n: nat
    /** x_, z_ (2n x n) and r_ (2n) */
    const x: array2<int>
    const z: array2<int>
    const r: array<int>
    /** measurementHistory_ */
    var history: seq<int>

    ghost predicate Valid()
    {
      x.Length0 == 2 * n && x.Length1 == n &&
      z.Length0 == 2 * n && z.Length1 == n &&
      r.Length == 2 * n && x != z
    }

    /** Row k of the arrays is exactly `row`. */
    ghost predicate Holds(k: nat, row: Row)
      reads x, z, r
      requires Valid() && k < 2 * n && RowShaped(row, n)
    {
      (forall j :: 0 <= j < n ==> x[k, j] == row.x[j]) &&
      (forall j :: 0 <= j < n ==> z[k, j] == row.z[j]) &&
      r[k] == row.r
    }

    ghost function RowAt(k: nat): (row: Row)
      reads x, z, r
      requires Valid() && k < 2 * n
      ensures RowShaped(row, n) && Holds(k, row)
    {
      Row(seq(n, (j: int) requires 0 <= j < n reads x => x[k, j]),
          seq(n, (j: int) requires 0 <= j < n reads z => z[k, j]),
          r[k])
    }

    /** The tableau the arrays hold. */
    ghost function Abs(): (t: Tableau)
      reads x, z, r
      requires Valid()
      ensures Shaped(t) && t.n == n
      ensures forall k :: 0 <= k < 2 * n ==> t.rows[k] == RowAt(k)
    {
      Tableau(n, seq(2 * n, (k: int) requires 0 <= k < 2 * n && Valid() reads x, z, r => RowAt(k)))
    }

    /** If every row holds what `t` says, the arrays hold `t`. */
    lemma AbsIs(t: Tableau)
      requires Valid() && Shaped(t) && t.n == n
      requires forall k :: 0 <= k < 2 * n ==> Holds(k, t.rows[k])
      ensures Abs() == t
    {
      forall k | 0 <= k < 2 * n ensures Abs().rows[k] == t.rows[k] {
        assert RowAt(k).x == t.rows[k].x;
        assert RowAt(k).z == t.rows[k].z;
      }
      RowsEqual(Abs(), t);
    }

    /** CliffordSimulator(numQubits): stabilizer i is Z_i, destabilizer n+i
      * is X_i, all signs 0, and no measurements yet. */
    constructor (numQubits: nat)
      ensures Valid() && n == numQubits && fresh(x) && fresh(z) && fresh(r)
      ensures Abs() == Init(numQubits) && history == []
    {
      n := numQubits;
      x := new int[2 * numQubits, numQubits]((i, j) => 0);
      z := new int[2 * numQubits, numQubits]((i, j) => 0);
      r := new int[2 * numQubits](i => 0);
      history := [];
      new;
      var i := 0;
      while i < n
        invariant 0 <= i <= n
        invariant forall k, j :: 0 <= k < 2 * n && 0 <= j < n ==> z[k, j] == (if k == j && j < i then 1 else 0)
        invariant forall k, j :: 0 <= k < 2 * n && 0 <= j < n ==> x[k, j] == 0
        invariant forall k :: 0 <= k < 2 * n ==> r[k] == 0
        invariant history == []
      {
        z[i, i] := 1;
        i := i + 1;
      }
      i := 0;
      while i < n
        invariant 0 <= i <= n
        invariant forall k, j :: 0 <= k < 2 * n && 0 <= j < n ==> x[k, j] == (if k == n + j && j < i then 1 else 0)
        invariant forall k, j :: 0 <= k < 2 * n && 0 <= j < n ==> z[k, j] == (if k == j then 1 else 0)
        invariant forall k :: 0 <= k < 2 * n ==> r[k] == 0
        invariant history == []
      {
        x[n + i, i] := 1;
        i := i + 1;
      }
      forall k | 0 <= k < 2 * n ensures Holds(k, Init(n).rows[k]) {
      }
      AbsIs(Init(n));
    }

    /** reset(): back to the freshly constructed tableau, history cleared. */
    method Reset()
      requires Valid()
      modifies this`history, x, z, r
      ensures Valid() && Abs() == Init(n) && history == []
    {
      var i := 0;
      while i < 2 * n
        invariant 0 <= i <= 2 * n
        invariant forall k :: 0 <= k < i ==> Holds(k, Init(n).rows[k])
      {
        var j := 0;
        while j < n
          invariant 0 <= j <= n
          invariant forall k :: 0 <= k < i ==> Holds(k, Init(n).rows[k])
          invariant forall l :: 0 <= l < j ==> x[i, l] == Init(n).rows[i].x[l] && z[i, l] == Init(n).rows[i].z[l]
        {
          x[i, j] := if i == n + j then 1 else 0;
          z[i, j] := if i == j then 1 else 0;
          j := j + 1;
        }
        r[i] := 0;
        i := i + 1;
      }
      history := [];
      AbsIs(Init(n));
    }

    method ApplyH(q: nat)
      requires Valid() && q < n
      modifies x, z, r
      ensures Valid() && Abs() == H(old(Abs()), q)
    {
      ghost var t0 := Abs();
      var i := 0;
      while i < 2 * n
        invariant 0 <= i <= 2 * n
        invariant forall k, l :: 0 <= k < 2 * n && 0 <= l < n && l != q ==> x[k, l] == old(x[k, l])
        invariant forall k, l :: 0 <= k < 2 * n && 0 <= l < n && l != q ==> z[k, l] == old(z[k, l])
        invariant forall k :: 0 <= k < i ==> x[k, q] == old(z[k, q]) && z[k, q] == old(x[k, q])
        invariant forall k :: 0 <= k < i ==>
          r[k] == if old(x[k, q]) != 0 && old(z[k, q]) != 0 then TMod(old(r[k]) + 1, 2) else old(r[k])
        invariant forall k :: i <= k < 2 * n ==> x[k, q] == old(x[k, q]) && z[k, q] == old(z[k, q]) && r[k] == old(r[k])
      {
        var tmp := x[i, q];
        x[i, q] := z[i, q];
        z[i, q] := tmp;
        if x[i, q] != 0 && z[i, q] != 0 {
          r[i] := TMod(r[i] + 1, 2);
        }
        i := i + 1;
      }
      forall k | 0 <= k < 2 * n ensures Holds(k, H(t0, q).rows[k]) {
        assert t0.rows[k] == old(RowAt(k));
      }
      AbsIs(H(t0, q));
    }

    method ApplyS(q: nat)
      requires Valid() && q < n
      modifies z, r
      ensures Valid() && Abs() == S(old(Abs()), q)
    {
      ghost var t0 := Abs();
      var i := 0;
      while i < 2 * n
        invariant 0 <= i <= 2 * n
        invariant forall k, l :: 0 <= k < 2 * n && 0 <= l < n && l != q ==> z[k, l] == old(z[k, l])
        invariant forall k :: 0 <= k < i ==>
          z[k, q] == (if old(x[k, q]) != 0 then TMod(old(z[k, q]) + 1, 2) else old(z[k, q]))
        invariant forall k :: 0 <= k < i ==>
          r[k] == (if old(x[k, q]) != 0 && TMod(old(z[k, q]) + 1, 2) != 0 then TMod(old(r[k]) + 1, 2) else old(r[k]))
        invariant forall k :: i <= k < 2 * n ==> z[k, q] == old(z[k, q]) && r[k] == old(r[k])
      {
        if x[i, q] != 0 {
          z[i, q] := TMod(z[i, q] + 1, 2);
          if z[i, q] != 0 {
            r[i] := TMod(r[i] + 1, 2);
          }
        }
        i := i + 1;
      }
      forall k | 0 <= k < 2 * n ensures Holds(k, S(t0, q).rows[k]) {
        assert t0.rows[k] == old(RowAt(k));
      }
      AbsIs(S(t0, q));
    }

    method ApplySdag(q: nat)
      requires Valid() && q < n
      modifies x, z, r
      ensures Valid() && Abs() == Sdag(old(Abs()), q)
    {
      ApplyS(q);
      ApplyS(q);
      ApplyS(q);
    }

    method ApplyCNOT(control: nat, target: nat)
      requires Valid() && control < n && target < n
      modifies x, z, r
      ensures Valid() && Abs() == Cnot(old(Abs()), control, target)
    {
      ghost var t0 := Abs();
      var i := 0;
      while i < 2 * n
        invariant 0 <= i <= 2 * n
        invariant forall k, l :: 0 <= k < 2 * n && 0 <= l < n && l != target ==> x[k, l] == old(x[k, l])
        invariant forall k, l :: 0 <= k < 2 * n && 0 <= l < n && l != control ==> z[k, l] == old(z[k, l])
        invariant forall k :: 0 <= k < i ==>
          r[k] == CnotSign(old(r[k]), old(x[k, control]), old(z[k, target]), old(x[k, target]), old(z[k, control]))
        invariant forall k :: 0 <= k < i ==> x[k, target] == TMod(old(x[k, target]) + old(x[k, control]), 2)
        invariant forall k :: 0 <= k < i ==> z[k, control] == TMod(old(z[k, control]) + old(z[k, target]), 2)
        invariant forall k :: i <= k < 2 * n ==>
          x[k, target] == old(x[k, target]) && z[k, control] == old(z[k, control]) && r[k] == old(r[k])
      {
        r[i] := CnotSign(r[i], x[i, control], z[i, target], x[i, target], z[i, control]);
        x[i, target] := TMod(x[i, target] + x[i, control], 2);
        z[i, control] := TMod(z[i, control] + z[i, target], 2);
        i := i + 1;
      }
      forall k | 0 <= k < 2 * n ensures Holds(k, Cnot(t0, control, target).rows[k]) {
        assert t0.rows[k] == old(RowAt(k));
      }
      AbsIs(Cnot(t0, control, target));
    }

    method ApplyCZ(q1: nat, q2: nat)
      requires Valid() && q1 < n && q2 < n
      modifies x, z, r
      ensures Valid() && Abs() == Cz(old(Abs()), q1, q2)
    {
      ApplyH(q2);
      ApplyCNOT(q1, q2);
      ApplyH(q2);
    }

    method ApplyX(q: nat)
      requires Valid() && q < n
      modifies r
      ensures Valid() && Abs() == X(old(Abs()), q)
    {
      ghost var t0 := Abs();
      var i := 0;
      while i < 2 * n
        invariant 0 <= i <= 2 * n
        invariant forall k :: 0 <= k < i ==> r[k] == if old(z[k, q]) != 0 then TMod(old(r[k]) + 1, 2) else old(r[k])
        invariant forall k :: i <= k < 2 * n ==> r[k] == old(r[k])
      {
        if z[i, q] != 0 {
          r[i] := TMod(r[i] + 1, 2);
        }
        i := i + 1;
      }
      forall k | 0 <= k < 2 * n ensures Holds(k, X(t0, q).rows[k]) {
        assert t0.rows[k] == old(RowAt(k));
      }
      AbsIs(X(t0, q));
    }

    method ApplyY(q: nat)
      requires Valid() && q < n
      modifies r
      ensures Valid() && Abs() == Y(old(Abs()), q)
    {
      ghost var t0 := Abs();
      var i := 0;
      while i < 2 * n
        invariant 0 <= i <= 2 * n
        invariant forall k :: 0 <= k < i ==> r[k] == if Xor(old(x[k, q]), old(z[k, q])) != 0 then TMod(old(r[k]) + 1, 2) else old(r[k])
        invariant forall k :: i <= k < 2 * n ==> r[k] == old(r[k])
      {
        if Xor(x[i, q], z[i, q]) != 0 {
          r[i] := TMod(r[i] + 1, 2);
        }
        i := i + 1;
      }
      forall k | 0 <= k < 2 * n ensures Holds(k, Y(t0, q).rows[k]) {
        assert t0.rows[k] == old(RowAt(k));
      }
      AbsIs(Y(t0, q));
    }

    method ApplyZ(q: nat)
      requires Valid() && q < n
      modifies r
      ensures Valid() && Abs() == Z(old(Abs()), q)
    {
      ghost var t0 := Abs();
      var i := 0;
      while i < 2 * n
        invariant 0 <= i <= 2 * n
        invariant forall k :: 0 <= k < i ==> r[k] == if old(x[k, q]) != 0 then TMod(old(r[k]) + 1, 2) else old(r[k])
        invariant forall k :: i <= k < 2 * n ==> r[k] == old(r[k])
      {
        if x[i, q] != 0 {
          r[i] := TMod(r[i] + 1, 2);
        }
        i := i + 1;
      }
      forall k | 0 <= k < 2 * n ensures Holds(k, Z(t0, q).rows[k]) {
        assert t0.rows[k] == old(RowAt(k));
      }
      AbsIs(Z(t0, q));
    }

    /** The column loop of rowsum(h, i): row h's X and Z parts become the
      * sums of rows h and i (held as `rh` and `ri`), and the returned phase
      * accumulates `g`. */
    method RowsumColumns(h: nat, i: nat, ghost rh: Row, ghost ri: Row) returns (phase: int)
      requires Valid() && h < 2 * n && i < 2 * n && RowShaped(rh, n) && RowShaped(ri, n)
      requires Holds(h, rh) && Holds(i, ri)
      modifies x, z
      ensures Valid()
      ensures phase == 2 * rh.r + 2 * ri.r + GSum(ri, rh, n)
      ensures forall k, l :: 0 <= k < 2 * n && k != h && 0 <= l < n ==> x[k, l] == old(x[k, l])
      ensures forall k, l :: 0 <= k < 2 * n && k != h && 0 <= l < n ==> z[k, l] == old(z[k, l])
      ensures forall l :: 0 <= l < n ==> x[h, l] == TMod(rh.x[l] + ri.x[l], 2)
      ensures forall l :: 0 <= l < n ==> z[h, l] == TMod(rh.z[l] + ri.z[l], 2)
    {
      phase := 2 * r[h] + 2 * r[i];
      var j := 0;
      while j < n
        invariant 0 <= j <= n
        invariant phase == 2 * rh.r + 2 * ri.r + GSum(ri, rh, j)
        invariant forall k, l :: 0 <= k < 2 * n && k != h && 0 <= l < n ==> x[k, l] == old(x[k, l])
        invariant forall k, l :: 0 <= k < 2 * n && k != h && 0 <= l < n ==> z[k, l] == old(z[k, l])
        invariant forall l :: 0 <= l < j ==> x[h, l] == TMod(rh.x[l] + ri.x[l], 2)
        invariant forall l :: j <= l < n ==> x[h, l] == rh.x[l]
        invariant forall l :: 0 <= l < j ==> z[h, l] == TMod(rh.z[l] + ri.z[l], 2)
        invariant forall l :: j <= l < n ==> z[h, l] == rh.z[l]
      {
        var xi, zi, xh, zh := x[i, j], z[i, j], x[h, j], z[h, j];
        assert xi == ri.x[j] && zi == ri.z[j] && xh == rh.x[j] && zh == rh.z[j];
        phase := phase + G(xi, zi, xh, zh);
        x[h, j] := TMod(xh + xi, 2);
        z[h, j] := TMod(zh + zi, 2);
        j := j + 1;
      }
    }

    /** rowsum(h, i): row h becomes the product of rows h and i. */
    method Rowsum(h: nat, i: nat)
      requires Valid() && h < 2 * n && i < 2 * n
      modifies x, z, r
      ensures Valid() && Abs() == CliffordTableau.Rowsum(old(Abs()), h, i)
    {
      ghost var t0 := Abs();
      ghost var rh, ri := t0.rows[h], t0.rows[i];
      var phase := RowsumColumns(h, i, rh, ri);
      r[h] := TDiv(TMod(phase, 4), 2);
      ghost var target := RowsumRow(rh, ri, n);
      assert forall l :: 0 <= l < n ==> x[h, l] == target.x[l];
      assert forall l :: 0 <= l < n ==> z[h, l] == target.z[l];
      assert Holds(h, target);
      ghost var t1 := CliffordTableau.Rowsum(t0, h, i);
      forall k | 0 <= k < 2 * n && k != h ensures Holds(k, t1.rows[k]) {
        assert t0.rows[k] == old(RowAt(k));
      }
      AbsIs(t1);
    }

    /** The tableau after the random-branch loop has visited rows 0..i-1. */
    ghost function Progress(t0: Tableau, q: nat, p: nat, i: nat): (t: Tableau)
      requires Shaped(t0) && t0.n == n && q < n && p < n
      ensures Shaped(t) && t.n == n
    {
      Tableau(n, seq(2 * n, (k: int) requires 0 <= k < 2 * n =>
        if k < i && k != p && t0.rows[k].x[q] != 0 then RowsumRow(t0.rows[k], t0.rows[p], n)
        else t0.rows[k]))
    }

    /** The pivot search of measure(qubit): the first stabilizer row with
      * x(i, qubit) set, or -1 when there is none. */
    method FindPivot(q: nat) returns (p: int)
      requires Valid() && q < n
      ensures p == FirstXFrom(Abs(), q, 0)
      ensures p == -1 || (0 <= p < n && x[p, q] != 0)
    {
      ghost var t0 := Abs();
      p := -1;
      var i := 0;
      while i < n
        invariant 0 <= i <= n
        invariant forall k :: 0 <= k < i ==> t0.rows[k].x[q] == 0
        invariant p == -1
      {
        assert x[i, q] == t0.rows[i].x[q];
        if x[i, q] != 0 {
          p := i;
          break;
        }
        i := i + 1;
      }
    }

    /** The rowsum loop of the random branch: every row i != p with
      * x(i, qubit) set is multiplied by row p. */
    method RowsumAgainstPivot(q: nat, p: nat)
      requires Valid() && q < n && p < n
      modifies x, z, r
      ensures Valid() && Abs() == Progress(old(Abs()), q, p, 2 * n)
    {
      ghost var t0 := Abs();
      AbsIs(Progress(t0, q, p, 0));
      var i := 0;
      while i < 2 * n
        invariant 0 <= i <= 2 * n
        invariant Abs() == Progress(t0, q, p, i)
      {
        assert x[i, q] == Abs().rows[i].x[q];
        if i != p && x[i, q] != 0 {
          Rowsum(i, p);
          assert Abs().rows[p] == t0.rows[p];
          RowsEqual(Abs(), Progress(t0, q, p, i + 1));
        } else {
          RowsEqual(Progress(t0, q, p, i + 1), Progress(t0, q, p, i));
        }
        i := i + 1;
      }
    }

    /** Row p becomes Z_qubit with sign `bit`. */
    method ProjectRow(p: nat, q: nat, bit: int)
      requires Valid() && p < 2 * n && q < n
      modifies x, z, r
      ensures Valid() && Abs() == Tableau(n, old(Abs()).rows[p := ZRowWithSign(n, q, bit)])
    {
      ghost var t1 := Tableau(n, Abs().rows[p := ZRowWithSign(n, q, bit)]);
      var j := 0;
      while j < n
        invariant 0 <= j <= n
        invariant forall k :: 0 <= k < 2 * n && k != p ==> Holds(k, t1.rows[k])
        invariant forall l :: 0 <= l < j ==> x[p, l] == 0 && z[p, l] == 0
      {
        x[p, j] := 0;
        z[p, j] := 0;
        j := j + 1;
      }
      z[p, q] := 1;
      r[p] := bit;
      assert Holds(p, t1.rows[p]);
      AbsIs(t1);
    }

    /** The deterministic branch: XOR of the signs of the destabilizer rows
      * with x(i, qubit) set. */
    method DeterministicOutcome(q: nat) returns (result: int)
      requires Valid() && q < n
      ensures result == DetOutcome(Abs(), q, 2 * n)
    {
      ghost var t0 := Abs();
      result := 0;
      var i := n;
      while i < 2 * n
        invariant n <= i <= 2 * n
        invariant result == DetOutcome(t0, q, i)
      {
        assert x[i, q] == t0.rows[i].x[q] && r[i] == t0.rows[i].r;
        if x[i, q] != 0 {
          result := Xor(result, r[i]);
        }
        i := i + 1;
      }
    }

    /** measure(qubit) with the uniform draw passed in as `bit`. */
    method Measure(q: nat, bit: int) returns (result: int)
      requires Valid() && q < n && IsBit(bit)
      modifies this`history, x, z, r
      ensures Valid()
      ensures Measured(result, Abs()) == CliffordTableau.Measure(old(Abs()), q, bit)
      ensures history == old(history) + [result]
    {
      ghost var t0 := Abs();
      var p := FindPivot(q);
      if p >= 0 {
        result := bit;
        RowsumAgainstPivot(q, p);
        ProjectRow(p, q, bit);
        RowsEqual(Abs(), MeasureRandom(t0, q, p, bit));
      } else {
        result := DeterministicOutcome(q);
      }
      history := history + [result];
    }
  }
}
