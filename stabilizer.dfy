/** Pauli-string stabilizers (libomniq-core/src/modules/qec/Stabilizer.cpp).
  * A stabilizer is an immutable list of single-qubit Paulis; every query is
  * a fold over that list. */
module Stabilizers {
  import opened Wrappers

  datatype Pauli = I | X | Y | Z

  datatype Stabilizer = Stabilizer(paulis: seq<Pauli>)

  /** getPauli(k): entry k, or out_of_range outside [0, size). */
  function GetPauli(s: Stabilizer, k: int): (r: Result<Pauli>)
    ensures r.Ok? <==> 0 <= k < |s.paulis|
    ensures r.Ok? ==> r.value == s.paulis[k]
    ensures r.Err? ==> r.error == OutOfRange
  {
    if k < 0 || k >= |s.paulis| then Err(OutOfRange) else Ok(s.paulis[k])
  }

  /** The non-identity positions among the first k entries, pushed in
    * increasing order as the loop of getSupportQubits does. */
  function SupportBelow(ps: seq<Pauli>, k: nat): (sup: seq<int>)
    requires k <= |ps|
    ensures forall a, b :: 0 <= a < b < |sup| ==> sup[a] < sup[b]
    ensures forall a :: 0 <= a < |sup| ==> 0 <= sup[a] < k && ps[sup[a]] != I
    ensures forall j :: 0 <= j < k && ps[j] != I ==> j in sup
  {
    if k == 0 then []
    else SupportBelow(ps, k - 1) + (if ps[k - 1] != I then [k - 1] else [])
  }

  /** getSupportQubits(). */
  function SupportQubits(s: Stabilizer): seq<int>
  {
    SupportBelow(s.paulis, |s.paulis|)
  }

  /** The number of non-identity entries among the first k. */
  function WeightBelow(ps: seq<Pauli>, k: nat): (w: nat)
    requires k <= |ps|
    ensures w <= k
  {
    if k == 0 then 0 else WeightBelow(ps, k - 1) + (if ps[k - 1] != I then 1 else 0)
  }

  /** getWeight(). */
  function Weight(s: Stabilizer): nat
  {
    WeightBelow(s.paulis, |s.paulis|)
  }

  /** The early-exit loop of isXType / isZType: false at the first entry
    * equal to `p`. */
  function Lacks(ps: seq<Pauli>, p: Pauli): (r: bool)
    ensures r <==> forall k :: 0 <= k < |ps| ==> ps[k] != p
  {
    if ps == [] then true else if ps[0] == p then false else Lacks(ps[1..], p)
  }

  /** isXType(): no entry is Z. */
  predicate IsXType(s: Stabilizer)
  {
    Lacks(s.paulis, Z)
  }

  /** isZType(): no entry is X. */
  predicate IsZType(s: Stabilizer)
  {
    Lacks(s.paulis, X)
  }

  function PauliChar(p: Pauli): char
  {
    match p
    case I => 'I'
    case X => 'X'
    case Y => 'Y'
    case Z => 'Z'
  }

  /** The letters of a Pauli list, in order. */
  function Letters(ps: seq<Pauli>): (str: string)
    ensures |str| == |ps|
    ensures forall k :: 0 <= k < |str| ==> str[k] == PauliChar(ps[k])
  {
    if ps == [] then "" else [PauliChar(ps[0])] + Letters(ps[1..])
  }

  /** toString(): one letter per qubit. */
  function ToString(s: Stabilizer): string
  {
    Letters(s.paulis)
  }

  // ---------------------------------------------------------------------
  // Properties

  /** getWeight() is the length of getSupportQubits(). */
  lemma {:induction false} WeightIsSupportSize(ps: seq<Pauli>, k: nat)
    requires k <= |ps|
    ensures WeightBelow(ps, k) == |SupportBelow(ps, k)|
  {
    if k > 0 {
      WeightIsSupportSize(ps, k - 1);
    }
  }

  lemma WeightOfStabilizer(s: Stabilizer)
    ensures Weight(s) == |SupportQubits(s)|
  {
    WeightIsSupportSize(s.paulis, |s.paulis|);
  }

  /** A position is in the support exactly when its Pauli is not I. */
  lemma SupportMembers(s: Stabilizer, j: int)
    ensures j in SupportQubits(s) <==> 0 <= j < |s.paulis| && s.paulis[j] != I
  {
  }

  /** isXType and isZType both hold exactly when every entry is I or Y. */
  lemma BothTypesIffOnlyIAndY(s: Stabilizer)
    ensures (IsXType(s) && IsZType(s)) <==> forall k :: 0 <= k < |s.paulis| ==> s.paulis[k] in {I, Y}
  {
    if IsXType(s) && IsZType(s) {
      forall k | 0 <= k < |s.paulis| ensures s.paulis[k] in {I, Y} {
        assert s.paulis[k] != Z && s.paulis[k] != X;
      }
    }
  }

  /** Two strictly increasing lists with the same members are equal. */
  lemma {:induction false} SortedSameMembers(a: seq<int>, b: seq<int>)
    requires forall i, j :: 0 <= i < j < |a| ==> a[i] < a[j]
    requires forall i, j :: 0 <= i < j < |b| ==> b[i] < b[j]
    requires forall v :: v in a <==> v in b
    ensures a == b
  {
    assert a != [] ==> a[0] in a;
    assert b != [] ==> b[0] in b;
    if a != [] && b != [] {
      var j :| 0 <= j < |b| && b[j] == a[0];
      var k :| 0 <= k < |a| && a[k] == b[0];
      assert b[0] <= b[j] && a[0] <= a[k];
      forall v ensures v in a[1..] <==> v in b[1..] {
        if v in a[1..] {
          var m :| 1 <= m < |a| && a[m] == v;
          assert a[0] < v && v in b;
        }
        if v in b[1..] {
          var m :| 1 <= m < |b| && b[m] == v;
          assert b[0] < v && v in a;
        }
      }
      SortedSameMembers(a[1..], b[1..]);
    }
  }

  /** The support of a stabilizer is the one increasing list of the
    * non-identity positions. */
  lemma SupportIsSortedNonIdentity(s: Stabilizer, sup: seq<int>)
    requires forall i, j :: 0 <= i < j < |sup| ==> sup[i] < sup[j]
    requires forall j :: j in sup <==> 0 <= j < |s.paulis| && s.paulis[j] != I
    ensures SupportQubits(s) == sup
  {
    SortedSameMembers(SupportQubits(s), sup);
  }

  /** toString is one-to-one: the letters determine the operator. */
  lemma ToStringInjective(s: Stabilizer, t: Stabilizer)
    requires ToString(s) == ToString(t)
    ensures s == t
  {
    forall k | 0 <= k < |s.paulis| ensures s.paulis[k] == t.paulis[k] {
      assert PauliChar(s.paulis[k]) == PauliChar(t.paulis[k]);
    }
  }
}
