/** The union-find decoder (libomniq-core/src/modules/qec/UnionFindDecoder.cpp):
  * violations at most the code distance apart are merged into clusters of
  * a disjoint-set forest with path compression and union by rank, and one
  * representative per cluster is returned. */
module UnionFindDecoders {
  import opened Syndromes

  // ---------------------------------------------------------------------
  // The disjoint-set forest as values

  /** parent_ and rank_: every parent is an index, and a parent link always
    * goes to a strictly higher rank, so following parents terminates. */
  predicate Forest(parent: seq<int>, rank: seq<nat>)
  {
    |parent| == |rank| &&
    forall i :: 0 <= i < |parent| ==>
      0 <= parent[i] < |parent| && (parent[i] != i ==> rank[i] < rank[parent[i]])
  }

  function MaxRank(rank: seq<nat>): (m: nat)
    ensures forall i :: 0 <= i < |rank| ==> rank[i] <= m
  {
    if rank == [] then 0
    else
      var m := MaxRank(rank[..|rank| - 1]);
      if rank[|rank| - 1] > m then rank[|rank| - 1] else m
  }

  /** The representative of x: the end of its parent chain. */
  function RootOf(parent: seq<int>, rank: seq<nat>, x: int): (r: int)
    requires Forest(parent, rank) && 0 <= x < |parent|
    ensures 0 <= r < |parent| && parent[r] == r
    decreases MaxRank(rank) - rank[x]
  {
    if parent[x] == x then x else RootOf(parent, rank, parent[x])
  }

  /** a and b are in the same set. */
  predicate Same(parent: seq<int>, rank: seq<nat>, a: int, b: int)
    requires Forest(parent, rank) && 0 <= a < |parent| && 0 <= b < |parent|
  {
    RootOf(parent, rank, a) == RootOf(parent, rank, b)
  }

  /** Two forests over the same elements with the same representatives. */
  ghost predicate SameRoots(p: seq<int>, rk: seq<nat>, p2: seq<int>, rk2: seq<nat>)
  {
    Forest(p, rk) && Forest(p2, rk2) && |p2| == |p| &&
    forall a :: 0 <= a < |p| ==> RootOf(p2, rk2, a) == RootOf(p, rk, a)
  }

  /** The sets after uniting the sets of x and y: a and b are together
    * when they were, or when one was with x and the other with y. */
  ghost predicate Merged(p: seq<int>, rk: seq<nat>, p2: seq<int>, rk2: seq<nat>, x: int, y: int)
    requires Forest(p, rk) && Forest(p2, rk2) && |p2| == |p|
    requires 0 <= x < |p| && 0 <= y < |p|
  {
    forall a, b :: 0 <= a < |p| && 0 <= b < |p| ==>
      (Same(p2, rk2, a, b) <==>
        Same(p, rk, a, b) || (Same(p, rk, a, x) && Same(p, rk, b, y)) || (Same(p, rk, a, y) && Same(p, rk, b, x)))
  }

  /** A non-root sits strictly below its representative's rank. */
  lemma {:induction false} RootRank(p: seq<int>, rk: seq<nat>, x: int)
    requires Forest(p, rk) && 0 <= x < |p| && p[x] != x
    ensures rk[x] < rk[RootOf(p, rk, x)]
    decreases MaxRank(rk) - rk[x]
  {
    if p[p[x]] != p[x] {
      RootRank(p, rk, p[x]);
    }
  }

  lemma {:induction false} RedirectAt(p: seq<int>, rk: seq<nat>, x: int, y: int)
    requires Forest(p, rk) && 0 <= x < |p| && 0 <= y < |p|
    requires Forest(p[x := RootOf(p, rk, x)], rk)
    ensures RootOf(p[x := RootOf(p, rk, x)], rk, y) == RootOf(p, rk, y)
    decreases MaxRank(rk) - rk[y]
  {
    var r := RootOf(p, rk, x);
    var p' := p[x := r];
    if y == x {
      if r != x {
        assert p'[r] == r;
      }
    } else if p[y] != y {
      RedirectAt(p, rk, x, p[y]);
    }
  }

  /** Path compression: pointing x straight at its representative keeps
    * the forest and every representative. */
  lemma Redirect(p: seq<int>, rk: seq<nat>, x: int)
    requires Forest(p, rk) && 0 <= x < |p|
    ensures SameRoots(p, rk, p[x := RootOf(p, rk, x)], rk)
  {
    var r := RootOf(p, rk, x);
    if p[x] != x {
      RootRank(p, rk, x);
    }
    assert Forest(p[x := r], rk);
    forall y | 0 <= y < |p| ensures RootOf(p[x := r], rk, y) == RootOf(p, rk, y) {
      RedirectAt(p, rk, x, y);
    }
  }

  lemma {:induction false} LinkAt(p: seq<int>, rk: seq<nat>, c: int, t: int, y: int)
    requires Forest(p, rk) && 0 <= c < |p| && 0 <= t < |p| && 0 <= y < |p|
    requires p[c] == c && p[t] == t && c != t
    requires Forest(p[c := t], rk)
    ensures RootOf(p[c := t], rk, y) == if RootOf(p, rk, y) == c then t else RootOf(p, rk, y)
    decreases MaxRank(rk) - rk[y]
  {
    var p' := p[c := t];
    if y == c {
      assert p'[t] == t;
    } else if p[y] != y {
      LinkAt(p, rk, c, t, p[y]);
    }
  }

  /** Hanging root c under root t of higher rank: the members of c's set
    * now have t as their representative, nobody else changes. */
  lemma Link(p: seq<int>, rk: seq<nat>, c: int, t: int)
    requires Forest(p, rk) && 0 <= c < |p| && 0 <= t < |p|
    requires p[c] == c && p[t] == t && c != t && rk[c] < rk[t]
    ensures Forest(p[c := t], rk)
    ensures forall y :: 0 <= y < |p| ==>
      RootOf(p[c := t], rk, y) == if RootOf(p, rk, y) == c then t else RootOf(p, rk, y)
  {
    assert Forest(p[c := t], rk);
    forall y | 0 <= y < |p|
      ensures RootOf(p[c := t], rk, y) == if RootOf(p, rk, y) == c then t else RootOf(p, rk, y)
    {
      LinkAt(p, rk, c, t, y);
    }
  }

  lemma {:induction false} RaiseAt(p: seq<int>, rk: seq<nat>, r: int, y: int)
    requires Forest(p, rk) && 0 <= r < |p| && p[r] == r && 0 <= y < |p|
    requires Forest(p, rk[r := rk[r] + 1])
    ensures RootOf(p, rk[r := rk[r] + 1], y) == RootOf(p, rk, y)
    decreases MaxRank(rk) - rk[y]
  {
    if p[y] != y {
      RaiseAt(p, rk, r, p[y]);
    }
  }

  /** Raising the rank of a root keeps the forest and its sets. */
  lemma RaiseRoot(p: seq<int>, rk: seq<nat>, r: int)
    requires Forest(p, rk) && 0 <= r < |p| && p[r] == r
    ensures SameRoots(p, rk, p, rk[r := rk[r] + 1])
  {
    var rk' := rk[r := rk[r] + 1];
    assert Forest(p, rk');
    forall y | 0 <= y < |p| ensures RootOf(p, rk', y) == RootOf(p, rk, y) {
      RaiseAt(p, rk, r, y);
    }
  }

  /** Renaming representative c to t merges exactly the sets of x and y
    * when c and t are their two representatives. */
  lemma MergeByRename(p: seq<int>, rk: seq<nat>, p2: seq<int>, rk2: seq<nat>, x: int, y: int, c: int, t: int)
    requires Forest(p, rk) && Forest(p2, rk2) && |p2| == |p|
    requires 0 <= x < |p| && 0 <= y < |p|
    requires (c == RootOf(p, rk, x) && t == RootOf(p, rk, y)) || (c == RootOf(p, rk, y) && t == RootOf(p, rk, x))
    requires forall a :: 0 <= a < |p| ==>
      RootOf(p2, rk2, a) == if RootOf(p, rk, a) == c then t else RootOf(p, rk, a)
    ensures Merged(p, rk, p2, rk2, x, y)
  {
  }

  lemma SameRootsTrans(p0: seq<int>, p1: seq<int>, p2: seq<int>, rk: seq<nat>)
    requires SameRoots(p0, rk, p1, rk) && SameRoots(p1, rk, p2, rk)
    ensures SameRoots(p0, rk, p2, rk)
  {
  }

  /** The two roots c and t of x and y in a forest p2 with the sets of p0. */
  ghost predicate RootsOfPair(p0: seq<int>, p2: seq<int>, rk: seq<nat>, x: int, y: int, c: int, t: int)
  {
    SameRoots(p0, rk, p2, rk) && 0 <= x < |p0| && 0 <= y < |p0| &&
    ((c == RootOf(p2, rk, x) && t == RootOf(p2, rk, y)) || (c == RootOf(p2, rk, y) && t == RootOf(p2, rk, x))) &&
    c != t
  }

  /** unite when the ranks differ: the lower root c goes under t. */
  lemma LinkMerges(p0: seq<int>, p2: seq<int>, rk: seq<nat>, x: int, y: int, c: int, t: int)
    requires RootsOfPair(p0, p2, rk, x, y, c, t) && rk[c] < rk[t]
    ensures Forest(p2[c := t], rk) && |p2| == |p0|
    ensures Merged(p0, rk, p2[c := t], rk, x, y)
    ensures RootOf(p2[c := t], rk, x) == t
  {
    Link(p2, rk, c, t);
    MergeByRename(p0, rk, p2[c := t], rk, x, y, c, t);
  }

  /** unite when the ranks tie: c goes under t and t's rank grows. */
  lemma TieMerges(p0: seq<int>, p2: seq<int>, rk: seq<nat>, x: int, y: int, c: int, t: int)
    requires RootsOfPair(p0, p2, rk, x, y, c, t) && rk[c] == rk[t]
    ensures Forest(p2[c := t], rk[t := rk[t] + 1]) && |p2| == |p0|
    ensures Merged(p0, rk, p2[c := t], rk[t := rk[t] + 1], x, y)
    ensures RootOf(p2[c := t], rk[t := rk[t] + 1], x) == t
  {
    var rk' := rk[t := rk[t] + 1];
    RaiseRoot(p2, rk, t);
    Link(p2, rk', c, t);
    forall a | 0 <= a < |p0|
      ensures RootOf(p2[c := t], rk', a) == if RootOf(p0, rk, a) == c then t else RootOf(p0, rk, a)
    {
      assert RootOf(p2, rk', a) == RootOf(p2, rk, a) == RootOf(p0, rk, a);
    }
    MergeByRename(p0, rk, p2[c := t], rk', x, y, c, t);
  }

  /** Merging sets already equal changes nothing. */
  lemma MergeSame(p: seq<int>, p2: seq<int>, rk: seq<nat>, x: int, y: int)
    requires SameRoots(p, rk, p2, rk) && 0 <= x < |p| && 0 <= y < |p| && Same(p, rk, x, y)
    ensures Merged(p, rk, p2, rk, x, y)
  {
  }

  // ---------------------------------------------------------------------

  /** UnionFindDecoder::UnionFind: parent_ and rank_ over n elements. */
  class UnionFind {
    var parent: seq<int>
    var rank: seq<nat>

    ghost predicate Valid()
      reads this
    {
      Forest(parent, rank)
    }

    function Size(): nat
      reads this
    {
      |parent|
    }

    /** UnionFind(n): every element its own set, all ranks 0. */
    constructor (n: nat)
      ensures Valid() && Size() == n
      ensures forall a, b :: 0 <= a < n && 0 <= b < n ==> (Same(parent, rank, a, b) <==> a == b)
    {
      parent := seq(n, i => i);
      rank := seq(n, _ => 0);
    }

    /** find(x): the representative of x, pointing every element on the
      * way at it. */
    method Find(x: int) returns (r: int)
      requires Valid() && 0 <= x < Size()
      modifies this
      ensures Valid() && rank == old(rank)
      ensures SameRoots(old(parent), old(rank), parent, rank)
      ensures r == old(RootOf(parent, rank, x)) && parent[x] == r
      decreases MaxRank(rank) - rank[x]
    {
      if parent[x] != x {
        var up := Find(parent[x]);
        ghost var p := parent;
        assert up == RootOf(p, rank, x);
        parent := parent[x := up];
        Redirect(p, rank, x);
      }
      r := parent[x];
    }

    /** unite(x, y): union by rank of the sets of x and y. */
    method Unite(x: int, y: int)
      requires Valid() && 0 <= x < Size() && 0 <= y < Size()
      modifies this
      ensures Valid() && Size() == old(Size())
      ensures Merged(old(parent), old(rank), parent, rank, x, y)
      ensures RootOf(parent, rank, x) ==
        old(if rank[RootOf(parent, rank, x)] < rank[RootOf(parent, rank, y)]
            then RootOf(parent, rank, y) else RootOf(parent, rank, x))
      ensures rank ==
        old(var rx, ry := RootOf(parent, rank, x), RootOf(parent, rank, y);
            if rx == ry || rank[rx] != rank[ry] then rank else rank[rx := rank[rx] + 1])
    {
      ghost var p0, rk0 := parent, rank;
      var rootX := Find(x);
      ghost var p1 := parent;
      var rootY := Find(y);
      ghost var p2 := parent;
      SameRootsTrans(p0, p1, p2, rk0);
      if rootX == rootY {
        MergeSame(p0, p2, rk0, x, y);
        return;
      }
      if rank[rootX] < rank[rootY] {
        LinkMerges(p0, p2, rk0, x, y, rootX, rootY);
        parent := parent[rootX := rootY];
        assert parent == p2[rootX := rootY];
        assert Merged(p0, rk0, parent, rank, x, y);
      } else if rank[rootX] > rank[rootY] {
        LinkMerges(p0, p2, rk0, x, y, rootY, rootX);
        parent := parent[rootY := rootX];
        assert parent == p2[rootY := rootX];
        assert Merged(p0, rk0, parent, rank, x, y);
      } else {
        TieMerges(p0, p2, rk0, x, y, rootY, rootX);
        parent := parent[rootY := rootX];
        rank := rank[rootX := rank[rootX] + 1];
        assert parent == p2[rootY := rootX] && rank == rk0[rootX := rk0[rootX] + 1];
        assert Merged(p0, rk0, parent, rank, x, y);
      }
    }

    /** connected(x, y): whether x and y are in the same set. */
    method Connected(x: int, y: int) returns (b: bool)
      requires Valid() && 0 <= x < Size() && 0 <= y < Size()
      modifies this
      ensures Valid() && rank == old(rank)
      ensures SameRoots(old(parent), old(rank), parent, rank)
      ensures b <==> old(Same(parent, rank, x, y))
    {
      var rx := Find(x);
      var ry := Find(y);
      b := rx == ry;
    }
  }

  // ---------------------------------------------------------------------
  // The decoder

  /** The items of s in order of first appearance: what extractCorrection
    * pushes, using a std::set to skip repeats. */
  function Firsts(s: seq<int>): (f: seq<int>)
    ensures |f| <= |s|
  {
    if s == [] then []
    else
      var f := Firsts(s[..|s| - 1]);
      if s[|s| - 1] in f then f else f + [s[|s| - 1]]
  }

  lemma {:induction false} FirstsDistinct(s: seq<int>)
    ensures forall i, j :: 0 <= i < j < |Firsts(s)| ==> Firsts(s)[i] != Firsts(s)[j]
  {
    if s != [] {
      FirstsDistinct(s[..|s| - 1]);
    }
  }

  lemma {:induction false} FirstsMembers(s: seq<int>)
    ensures forall x :: x in Firsts(s) <==> x in s
  {
    if s != [] {
      var s' := s[..|s| - 1];
      FirstsMembers(s');
      assert s == s' + [s[|s| - 1]];
    }
  }

  /** The representative of each violation. */
  function RootsOf(p: seq<int>, rk: seq<nat>, v: seq<int>): (roots: seq<int>)
    requires Forest(p, rk) && forall k :: 0 <= k < |v| ==> 0 <= v[k] < |p|
    ensures |roots| == |v|
    ensures forall k :: 0 <= k < |v| ==> roots[k] == RootOf(p, rk, v[k])
  {
    seq(|v|, k requires 0 <= k < |v| => RootOf(p, rk, v[k]))
  }

  /** The clusters after growth: every two violations at most d apart
    * share a set, and no index outside the violations shares one. */
  ghost predicate Clustered(v: seq<int>, d: int, p: seq<int>, rk: seq<nat>)
    requires Forest(p, rk) && forall k :: 0 <= k < |v| ==> 0 <= v[k] < |p|
  {
    (forall i, j :: 0 <= i < |v| && 0 <= j < |v| && Distance(v[i], v[j]) <= d ==> Same(p, rk, v[i], v[j])) &&
    (forall a, b :: 0 <= a < |p| && 0 <= b < |p| && a != b && Same(p, rk, a, b) ==> a in v && b in v)
  }

  /** std::abs(a - b). */
  function Distance(a: int, b: int): (dist: nat)
    ensures dist == 0 <==> a == b
  {
    if a >= b then a - b else b - a
  }

  /** What decode returns when the clusters are those of forest (p, rk). */
  ghost predicate DecodedBy(ms: seq<int>, d: int, p: seq<int>, rk: seq<nat>, correction: seq<int>)
  {
    var v := ViolatedIndices(ms);
    Forest(p, rk) && |p| == |ms| && Clustered(v, d, p, rk) &&
    correction == Firsts(RootsOf(p, rk, v))
  }

  /** Every entry of a decoded correction is a violated stabilizer index,
    * no entry repeats, and there are no more entries than violations. */
  lemma DecodedEntries(ms: seq<int>, d: int, p: seq<int>, rk: seq<nat>, correction: seq<int>)
    requires DecodedBy(ms, d, p, rk, correction)
    ensures |correction| <= ViolationCount(ms)
    ensures forall k :: 0 <= k < |correction| ==> 0 <= correction[k] < |ms| && ms[correction[k]] == -1
    ensures forall i, j :: 0 <= i < j < |correction| ==> correction[i] != correction[j]
  {
    var v := ViolatedIndices(ms);
    var roots := RootsOf(p, rk, v);
    FirstsDistinct(roots);
    FirstsMembers(roots);
    CountIsViolatedLength(ms, |ms|);
    forall k | 0 <= k < |correction| ensures 0 <= correction[k] < |ms| && ms[correction[k]] == -1 {
      assert correction[k] in correction;
      assert correction[k] in roots;
      var i :| 0 <= i < |roots| && roots[i] == correction[k];
      var r := roots[i];
      assert RootOf(p, rk, r) == r;
      if r != v[i] {
        assert Same(p, rk, r, v[i]);
      }
    }
  }

  /** Every violation's cluster is represented in the correction. */
  lemma DecodedCovers(ms: seq<int>, d: int, p: seq<int>, rk: seq<nat>, correction: seq<int>)
    requires DecodedBy(ms, d, p, rk, correction)
    ensures forall k :: 0 <= k < |ViolatedIndices(ms)| ==> RootOf(p, rk, ViolatedIndices(ms)[k]) in correction
  {
    FirstsMembers(RootsOf(p, rk, ViolatedIndices(ms)));
  }

  class UnionFindDecoder {
    var codeDistance: int

    /** UnionFindDecoder(): code distance 3. */
    constructor ()
      ensures codeDistance == 3
    {
      codeDistance := 3;
    }

    method SetCodeDistance(distance: int)
      modifies this
      ensures codeDistance == distance
    {
      codeDistance := distance;
    }

    /** decode(syndrome): grow clusters over the violations, then return
      * their representatives. */
    method Decode(syndrome: Syndrome) returns (correction: seq<int>)
      ensures ViolatedIndices(syndrome.measurements) == [] ==> correction == []
      ensures exists p, rk :: DecodedBy(syndrome.measurements, codeDistance, p, rk, correction)
    {
      var violations := syndrome.GetViolatedStabilizers();
      ghost var ms := syndrome.measurements;
      if violations == [] {
        SingletonsDecodeEmpty(ms, codeDistance);
        return [];
      }
      var n := syndrome.Size();
      var uf := new UnionFind(n);
      GrowClusters(uf, violations, codeDistance);
      ghost var p, rk := uf.parent, uf.rank;
      correction := ExtractCorrection(uf, violations);
      assert DecodedBy(ms, codeDistance, p, rk, correction);
    }
  }

  /** With no violation, the forest of singletons explains the empty
    * correction. */
  lemma SingletonsDecodeEmpty(ms: seq<int>, d: int)
    requires ViolatedIndices(ms) == []
    ensures exists p, rk :: DecodedBy(ms, d, p, rk, [])
  {
    var p: seq<int> := seq(|ms|, i => i);
    var rk: seq<nat> := seq(|ms|, _ => 0);
    assert Forest(p, rk);
    assert OnlyViolationsJoined([], p, rk) by {
      forall a, b | 0 <= a < |p| && 0 <= b < |p| && a != b ensures !Same(p, rk, a, b) {
        assert p[a] == a && p[b] == b;
      }
    }
    assert Clustered([], d, p, rk);
    assert RootsOf(p, rk, []) == [];
    assert DecodedBy(ms, d, p, rk, []);
  }

  /** Only violations share a set with anything else. */
  ghost predicate OnlyViolationsJoined(v: seq<int>, p: seq<int>, rk: seq<nat>)
    requires Forest(p, rk)
  {
    forall a, b :: 0 <= a < |p| && 0 <= b < |p| && a != b && Same(p, rk, a, b) ==> a in v && b in v
  }

  /** Every close pair (i', j') visited before (i, j) in the double loop
    * shares a set. */
  ghost predicate JoinedBefore(v: seq<int>, d: int, p: seq<int>, rk: seq<nat>, i: int, j: int)
    requires Forest(p, rk) && forall k :: 0 <= k < |v| ==> 0 <= v[k] < |p|
  {
    forall i', j' :: 0 <= i' < j' < |v| && (i' < i || (i' == i && j' < j)) && Distance(v[i'], v[j']) <= d ==>
      Same(p, rk, v[i'], v[j'])
  }

  /** One step of the inner loop keeps what the loop has built. */
  lemma GrowStep(v: seq<int>, d: int, p: seq<int>, rk: seq<nat>, p2: seq<int>, rk2: seq<nat>, i: nat, j: nat)
    requires Forest(p, rk) && Forest(p2, rk2) && |p2| == |p|
    requires forall k :: 0 <= k < |v| ==> 0 <= v[k] < |p|
    requires i < j < |v|
    requires OnlyViolationsJoined(v, p, rk) && JoinedBefore(v, d, p, rk, i, j)
    requires Distance(v[i], v[j]) <= d ==> Merged(p, rk, p2, rk2, v[i], v[j])
    requires Distance(v[i], v[j]) > d ==> p2 == p && rk2 == rk
    ensures OnlyViolationsJoined(v, p2, rk2) && JoinedBefore(v, d, p2, rk2, i, j + 1)
  {
  }

  /** Finishing row i of the double loop starts row i + 1. */
  lemma NextRow(v: seq<int>, d: int, p: seq<int>, rk: seq<nat>, i: nat)
    requires Forest(p, rk) && forall k :: 0 <= k < |v| ==> 0 <= v[k] < |p|
    requires JoinedBefore(v, d, p, rk, i, |v|)
    ensures JoinedBefore(v, d, p, rk, i + 1, i + 2)
  {
  }

  /** After the last row every close pair, in either order, shares a set. */
  lemma AllRows(v: seq<int>, d: int, p: seq<int>, rk: seq<nat>)
    requires Forest(p, rk) && forall k :: 0 <= k < |v| ==> 0 <= v[k] < |p|
    requires JoinedBefore(v, d, p, rk, |v|, |v| + 1) && OnlyViolationsJoined(v, p, rk)
    ensures Clustered(v, d, p, rk)
  {
    forall i, j | 0 <= i < |v| && 0 <= j < |v| && Distance(v[i], v[j]) <= d
      ensures Same(p, rk, v[i], v[j])
    {
      if j < i {
        assert Same(p, rk, v[j], v[i]);
      }
    }
  }

  /** The double loop of decode: unite every two violations at most d
    * apart. */
  method GrowClusters(uf: UnionFind, v: seq<int>, d: int)
    requires uf.Valid() && forall k :: 0 <= k < |v| ==> 0 <= v[k] < |uf.parent|
    requires OnlyViolationsJoined(v, uf.parent, uf.rank)
    modifies uf
    ensures uf.Valid() && |uf.parent| == old(|uf.parent|)
    ensures Clustered(v, d, uf.parent, uf.rank)
  {
    var i := 0;
    while i < |v|
      invariant 0 <= i <= |v|
      invariant uf.Valid() && |uf.parent| == old(|uf.parent|)
      invariant OnlyViolationsJoined(v, uf.parent, uf.rank)
      invariant JoinedBefore(v, d, uf.parent, uf.rank, i, i + 1)
    {
      var j := i + 1;
      while j < |v|
        invariant i + 1 <= j <= |v|
        invariant uf.Valid() && |uf.parent| == old(|uf.parent|)
        invariant OnlyViolationsJoined(v, uf.parent, uf.rank)
        invariant JoinedBefore(v, d, uf.parent, uf.rank, i, j)
      {
        ghost var p, rk := uf.parent, uf.rank;
        var dist := Distance(v[i], v[j]);
        if dist <= d {
          uf.Unite(v[i], v[j]);
        }
        GrowStep(v, d, p, rk, uf.parent, uf.rank, i, j);
        j := j + 1;
      }
      NextRow(v, d, uf.parent, uf.rank, i);
      i := i + 1;
    }
    AllRows(v, d, uf.parent, uf.rank);
  }

  /** extractCorrection: the representative of each violation, first
    * appearance only. */
  method ExtractCorrection(uf: UnionFind, violations: seq<int>) returns (correction: seq<int>)
    requires uf.Valid() && forall k :: 0 <= k < |violations| ==> 0 <= violations[k] < |uf.parent|
    modifies uf
    ensures uf.Valid() && SameRoots(old(uf.parent), old(uf.rank), uf.parent, uf.rank)
    ensures correction == Firsts(old(RootsOf(uf.parent, uf.rank, violations)))
  {
    ghost var roots0 := RootsOf(uf.parent, uf.rank, violations);
    ghost var p0, rk0 := uf.parent, uf.rank;
    correction := [];
    var roots: set<int> := {};
    var k := 0;
    while k < |violations|
      invariant 0 <= k <= |violations|
      invariant uf.rank == rk0 && SameRoots(p0, rk0, uf.parent, rk0)
      invariant correction == Firsts(roots0[..k])
      invariant forall x :: x in roots <==> x in correction
    {
      ghost var pk := uf.parent;
      var root := uf.Find(violations[k]);
      SameRootsTrans(p0, pk, uf.parent, rk0);
      assert root == roots0[k];
      assert roots0[..k + 1][..k] == roots0[..k];
      if root !in roots {
        roots := roots + {root};
        correction := correction + [root];
      }
      k := k + 1;
    }
    assert roots0[..k] == roots0;
  }
}
