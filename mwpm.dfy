/** The greedy matching decoder (libomniq-core/src/modules/qec/MWPMDecoder.cpp):
  * each unmatched violation, in order, is paired with the nearest later
  * unmatched violation, and the pairs are flattened into the correction. */
module MatchingDecoders {
  import opened Syndromes

  /** `double bestWeight = 1e9`: a partner must be strictly nearer than this. */
  const InitialBestWeight: int := 1000000000

  /** calculateWeight: |a − b|, an integer held exactly in a double. */
  function CalculateWeight(a: int, b: int): (w: int)
    ensures w >= 0
    ensures w == 0 <==> a == b
  {
    if a >= b then a - b else b - a
  }

  lemma WeightSymmetric(a: int, b: int)
    ensures CalculateWeight(a, b) == CalculateWeight(b, a)
  {
  }

  // ---------------------------------------------------------------------
  // The algorithm of findMatching, stated on values

  /** The inner loop over j, carrying the best partner and weight so far. */
  function ScanPartner(v: seq<int>, matched: seq<bool>, i: nat, j: nat, best: int, bestWeight: int): (b: int)
    requires |matched| == |v| && i < |v|
    ensures b == best || (j <= b < |v| && !matched[b])
    decreases |v| - j
  {
    if j >= |v| then best
    else if matched[j] then ScanPartner(v, matched, i, j + 1, best, bestWeight)
    else if CalculateWeight(v[i], v[j]) < bestWeight then ScanPartner(v, matched, i, j + 1, j, CalculateWeight(v[i], v[j]))
    else ScanPartner(v, matched, i, j + 1, best, bestWeight)
  }

  /** The partner chosen for violation i, or −1. */
  function BestPartner(v: seq<int>, matched: seq<bool>, i: nat): (b: int)
    requires |matched| == |v| && i < |v|
    ensures b == -1 || (i < b < |v| && !matched[b])
  {
    ScanPartner(v, matched, i, i + 1, -1, InitialBestWeight)
  }

  /** Every pair is an ordered pair of indices below n. */
  predicate PairsBelow(pairs: seq<(nat, nat)>, n: nat)
  {
    forall k :: 0 <= k < |pairs| ==> pairs[k].0 < pairs[k].1 < n
  }

  /** The outer loop from position i: the list of matched index pairs. */
  function GreedyFrom(v: seq<int>, matched: seq<bool>, i: nat): (pairs: seq<(nat, nat)>)
    requires |matched| == |v| && i <= |v|
    ensures PairsBelow(pairs, |v|)
    decreases |v| - i
  {
    if i == |v| then []
    else if matched[i] then GreedyFrom(v, matched, i + 1)
    else
      var b := BestPartner(v, matched, i);
      if b == -1 then GreedyFrom(v, matched, i + 1)
      else [(i, b)] + GreedyFrom(v, matched[i := true][b := true], i + 1)
  }

  function NoneMatched(n: nat): (m: seq<bool>)
    ensures |m| == n && forall k :: 0 <= k < n ==> !m[k]
  {
    seq(n, _ => false)
  }

  /** The index pairs findMatching forms. */
  function GreedyPairs(v: seq<int>): (pairs: seq<(nat, nat)>)
    ensures PairsBelow(pairs, |v|)
  {
    GreedyFrom(v, NoneMatched(|v|), 0)
  }

  /** The violation values of a list of index pairs. */
  function Values(v: seq<int>, pairs: seq<(nat, nat)>): (vs: seq<(int, int)>)
    requires PairsBelow(pairs, |v|)
    ensures |vs| == |pairs|
  {
    if pairs == [] then [] else [(v[pairs[0].0], v[pairs[0].1])] + Values(v, pairs[1..])
  }

  /** The correction decode builds: first, second, first, second, … */
  function Flatten(pairs: seq<(int, int)>): (flat: seq<int>)
    ensures |flat| == 2 * |pairs|
  {
    if pairs == [] then [] else Flatten(pairs[..|pairs| - 1]) + [pairs[|pairs| - 1].0, pairs[|pairs| - 1].1]
  }

  /** What decode returns for a syndrome's measurements. */
  function DecodeSpec(ms: seq<int>): seq<int>
  {
    var v := ViolatedIndices(ms);
    Flatten(Values(v, GreedyPairs(v)))
  }

  // ---------------------------------------------------------------------
  // Properties of the greedy choice

  /** The scan state after positions (i, j) have been seen. */
  ghost predicate ScanState(v: seq<int>, matched: seq<bool>, i: nat, j: nat, best: int, bestWeight: int)
    requires |matched| == |v| && i < |v|
  {
    if best == -1 then
      bestWeight == InitialBestWeight &&
      forall k :: i < k < j && k < |v| && !matched[k] ==> CalculateWeight(v[i], v[k]) >= InitialBestWeight
    else
      i < best < j && best < |v| && !matched[best] &&
      bestWeight == CalculateWeight(v[i], v[best]) < InitialBestWeight &&
      (forall k :: i < k < j && k < |v| && !matched[k] ==> CalculateWeight(v[i], v[k]) >= bestWeight) &&
      (forall k :: i < k < best && !matched[k] ==> CalculateWeight(v[i], v[k]) > bestWeight)
  }

  /** b is the partner findMatching picks for i: an unmatched later
    * violation strictly nearer than 1e9, no unmatched later violation
    * nearer, and none before it as near. */
  ghost predicate IsBestPartner(v: seq<int>, matched: seq<bool>, i: nat, b: int)
    requires |matched| == |v| && i < |v|
  {
    i < b < |v| && !matched[b] && CalculateWeight(v[i], v[b]) < InitialBestWeight &&
    (forall k :: i < k < |v| && !matched[k] ==> CalculateWeight(v[i], v[k]) >= CalculateWeight(v[i], v[b])) &&
    (forall k :: i < k < b && !matched[k] ==> CalculateWeight(v[i], v[k]) > CalculateWeight(v[i], v[b]))
  }

  /** One step of the scan keeps its state. */
  lemma ScanStateStep(v: seq<int>, matched: seq<bool>, i: nat, j: nat, best: int, bestWeight: int)
    requires |matched| == |v| && i < j < |v|
    requires ScanState(v, matched, i, j, best, bestWeight)
    ensures matched[j] ==> ScanState(v, matched, i, j + 1, best, bestWeight)
    ensures !matched[j] && CalculateWeight(v[i], v[j]) < bestWeight ==>
      ScanState(v, matched, i, j + 1, j, CalculateWeight(v[i], v[j]))
    ensures !matched[j] && CalculateWeight(v[i], v[j]) >= bestWeight ==>
      ScanState(v, matched, i, j + 1, best, bestWeight)
  {
  }

  lemma {:induction false} ScanPartnerCorrect(v: seq<int>, matched: seq<bool>, i: nat, j: nat, best: int, bestWeight: int)
    requires |matched| == |v| && i < j <= |v|
    requires ScanState(v, matched, i, j, best, bestWeight)
    ensures var b := ScanPartner(v, matched, i, j, best, bestWeight);
      (b == -1 ==> forall k :: i < k < |v| && !matched[k] ==> CalculateWeight(v[i], v[k]) >= InitialBestWeight) &&
      (b != -1 ==> IsBestPartner(v, matched, i, b))
    decreases |v| - j
  {
    if j < |v| {
      ScanStateStep(v, matched, i, j, best, bestWeight);
      if matched[j] {
        ScanPartnerCorrect(v, matched, i, j + 1, best, bestWeight);
      } else if CalculateWeight(v[i], v[j]) < bestWeight {
        ScanPartnerCorrect(v, matched, i, j + 1, j, CalculateWeight(v[i], v[j]));
      } else {
        ScanPartnerCorrect(v, matched, i, j + 1, best, bestWeight);
      }
    }
  }

  /** BestPartner is −1 exactly when no unmatched later violation is nearer
    * than 1e9; otherwise it is the nearest one, ties going to the first. */
  lemma BestPartnerCorrect(v: seq<int>, matched: seq<bool>, i: nat)
    requires |matched| == |v| && i < |v|
    ensures BestPartner(v, matched, i) == -1 <==>
      forall k :: i < k < |v| && !matched[k] ==> CalculateWeight(v[i], v[k]) >= InitialBestWeight
    ensures BestPartner(v, matched, i) != -1 ==> IsBestPartner(v, matched, i, BestPartner(v, matched, i))
  {
    ScanPartnerCorrect(v, matched, i, i + 1, -1, InitialBestWeight);
  }

  /** Every index of the pairs is unmatched in `matched`. */
  ghost predicate UsesFree(matched: seq<bool>, pairs: seq<(nat, nat)>)
  {
    forall k :: 0 <= k < |pairs| ==>
      pairs[k].0 < |matched| && pairs[k].1 < |matched| && !matched[pairs[k].0] && !matched[pairs[k].1]
  }

  /** No index is used by two pairs, nor twice by one. */
  ghost predicate Disjoint(pairs: seq<(nat, nat)>)
  {
    (forall k :: 0 <= k < |pairs| ==> pairs[k].0 != pairs[k].1) &&
    (forall k, l :: 0 <= k < l < |pairs| ==>
      pairs[k].0 != pairs[l].0 && pairs[k].0 != pairs[l].1 &&
      pairs[k].1 != pairs[l].0 && pairs[k].1 != pairs[l].1)
  }

  /** Every index in the pairs from position i was unmatched there, and
    * no violation is matched twice. */
  lemma {:induction false} GreedyDisjoint(v: seq<int>, matched: seq<bool>, i: nat)
    requires |matched| == |v| && i <= |v|
    ensures UsesFree(matched, GreedyFrom(v, matched, i))
    ensures Disjoint(GreedyFrom(v, matched, i))
    decreases |v| - i
  {
    if i < |v| {
      if matched[i] {
        GreedyDisjoint(v, matched, i + 1);
      } else {
        var b := BestPartner(v, matched, i);
        if b == -1 {
          GreedyDisjoint(v, matched, i + 1);
        } else {
          var m' := matched[i := true][b := true];
          GreedyDisjoint(v, m', i + 1);
          DisjointCons(matched, i, b, GreedyFrom(v, m', i + 1));
        }
      }
    }
  }

  /** Prepending a pair of two free indices to pairs that avoid both. */
  lemma DisjointCons(matched: seq<bool>, i: nat, b: nat, rest: seq<(nat, nat)>)
    requires i < b < |matched| && !matched[i] && !matched[b]
    requires UsesFree(matched[i := true][b := true], rest) && Disjoint(rest)
    ensures UsesFree(matched, [(i, b)] + rest) && Disjoint([(i, b)] + rest)
  {
    var m' := matched[i := true][b := true];
    var pairs := [(i, b)] + rest;
    forall k | 0 <= k < |rest|
      ensures rest[k].0 != i && rest[k].0 != b && rest[k].1 != i && rest[k].1 != b
      ensures !matched[rest[k].0] && !matched[rest[k].1]
    {
      assert !m'[rest[k].0] && !m'[rest[k].1];
    }
    forall k | 0 <= k < |pairs|
      ensures pairs[k].0 < |matched| && pairs[k].1 < |matched|
      ensures !matched[pairs[k].0] && !matched[pairs[k].1] && pairs[k].0 != pairs[k].1
    {
      if k > 0 {
        assert pairs[k] == rest[k - 1];
      }
    }
    forall k, l | 0 <= k < l < |pairs|
      ensures pairs[k].0 != pairs[l].0 && pairs[k].0 != pairs[l].1
      ensures pairs[k].1 != pairs[l].0 && pairs[k].1 != pairs[l].1
    {
      assert pairs[l] == rest[l - 1];
      if k > 0 {
        assert pairs[k] == rest[k - 1];
      }
    }
  }

  /** The number of unmatched positions from i on. */
  function Free(m: seq<bool>, i: nat): nat
    requires i <= |m|
    decreases |m| - i
  {
    if i == |m| then 0 else (if m[i] then 0 else 1) + Free(m, i + 1)
  }

  lemma {:induction false} FreeMatchOne(m: seq<bool>, i: nat, b: nat)
    requires i <= |m| && b < |m| && !m[b]
    ensures Free(m[b := true], i) == if b >= i then Free(m, i) - 1 else Free(m, i)
    decreases |m| - i
  {
    if i < |m| {
      FreeMatchOne(m, i + 1, b);
    }
  }

  /** Some position at or after i is unmatched when Free counts one. */
  lemma {:induction false} FreeWitness(m: seq<bool>, i: nat)
    requires i <= |m| && Free(m, i) != 0
    ensures exists k :: i <= k < |m| && !m[k]
    decreases |m| - i
  {
    if m[i] {
      FreeWitness(m, i + 1);
    }
  }

  /** When every two violations are nearer than 1e9, the pairs from
    * position i are half the unmatched positions, rounded down. */
  lemma {:induction false} GreedyCount(v: seq<int>, matched: seq<bool>, i: nat)
    requires |matched| == |v| && i <= |v|
    requires forall a, b :: 0 <= a < |v| && 0 <= b < |v| ==> CalculateWeight(v[a], v[b]) < InitialBestWeight
    ensures |GreedyFrom(v, matched, i)| == Free(matched, i) / 2
    decreases |v| - i
  {
    if i < |v| {
      GreedyCount(v, matched, i + 1);
      if !matched[i] {
        var b := BestPartner(v, matched, i);
        BestPartnerCorrect(v, matched, i);
        if b == -1 {
          if Free(matched, i + 1) != 0 {
            FreeWitness(matched, i + 1);
            assert false;
          }
        } else {
          var m' := matched[i := true][b := true];
          GreedyCount(v, m', i + 1);
          FreeMatchOne(matched, i + 1, i);
          FreeMatchOne(matched[i := true], i + 1, b);
        }
      }
    }
  }

  lemma {:induction false} FreeAll(n: nat, i: nat)
    requires i <= n
    ensures Free(NoneMatched(n), i) == n - i
    decreases n - i
  {
    if i < n {
      FreeAll(n, i + 1);
    }
  }

  /** findMatching on n violations that are pairwise nearer than 1e9 forms
    * exactly n/2 pairs. */
  lemma PairCount(v: seq<int>)
    requires forall a, b :: 0 <= a < |v| && 0 <= b < |v| ==> CalculateWeight(v[a], v[b]) < InitialBestWeight
    ensures |GreedyPairs(v)| == |v| / 2
  {
    GreedyCount(v, NoneMatched(|v|), 0);
    FreeAll(|v|, 0);
  }

  // ---------------------------------------------------------------------
  // Properties of decode

  lemma {:induction false} ValuesAt(v: seq<int>, pairs: seq<(nat, nat)>, k: nat)
    requires PairsBelow(pairs, |v|)
    requires k < |pairs|
    ensures Values(v, pairs)[k] == (v[pairs[k].0], v[pairs[k].1])
  {
    if k > 0 {
      ValuesAt(v, pairs[1..], k - 1);
    }
  }

  /** Entry 2k of the flattened list is the first of pair k, entry 2k+1 the
    * second. */
  lemma {:induction false} FlattenAt(pairs: seq<(int, int)>, k: nat)
    requires k < |pairs|
    ensures Flatten(pairs)[2 * k] == pairs[k].0 && Flatten(pairs)[2 * k + 1] == pairs[k].1
  {
    var n := |pairs| - 1;
    assert Flatten(pairs) == Flatten(pairs[..n]) + [pairs[n].0, pairs[n].1];
    if k < n {
      FlattenAt(pairs[..n], k);
    }
  }

  /** Entries 2p and 2p+1 of the correction are the two violations of
    * pair p. */
  lemma FlattenValuesAt(v: seq<int>, pairs: seq<(nat, nat)>, p: nat)
    requires PairsBelow(pairs, |v|)
    requires p < |pairs|
    ensures Flatten(Values(v, pairs))[2 * p] == v[pairs[p].0]
    ensures Flatten(Values(v, pairs))[2 * p + 1] == v[pairs[p].1]
  {
    ValuesAt(v, pairs, p);
    FlattenAt(Values(v, pairs), p);
  }

  /** The index of the violation at position k of the correction. */
  function EndAt(pairs: seq<(nat, nat)>, k: nat): nat
    requires k < 2 * |pairs|
  {
    if k % 2 == 0 then pairs[k / 2].0 else pairs[k / 2].1
  }

  lemma FlattenValuesAtIndex(v: seq<int>, pairs: seq<(nat, nat)>, k: nat)
    requires PairsBelow(pairs, |v|)
    requires k < 2 * |pairs|
    ensures Flatten(Values(v, pairs))[k] == v[EndAt(pairs, k)]
  {
    var p := k / 2;
    if k % 2 == 0 {
      assert k == 2 * p && EndAt(pairs, k) == pairs[p].0;
      FlattenValuesAt(v, pairs, p);
    } else {
      assert k == 2 * p + 1 && EndAt(pairs, k) == pairs[p].1;
      FlattenValuesAt(v, pairs, p);
    }
  }

  /** A syndrome with no −1 entry decodes to nothing. */
  lemma DecodeNoViolations(ms: seq<int>)
    requires NoneViolated(ms)
    ensures DecodeSpec(ms) == []
  {
    AllZeroIffNoViolations(ms);
    CountIsViolatedLength(ms, |ms|);
  }

  /** Every entry of the correction is a violated stabilizer index. */
  lemma DecodeEntriesViolated(ms: seq<int>)
    ensures forall k :: 0 <= k < |DecodeSpec(ms)| ==>
      0 <= DecodeSpec(ms)[k] < |ms| && ms[DecodeSpec(ms)[k]] == -1
  {
    var v := ViolatedIndices(ms);
    var pairs := GreedyPairs(v);
    forall k | 0 <= k < |DecodeSpec(ms)|
      ensures 0 <= DecodeSpec(ms)[k] < |ms| && ms[DecodeSpec(ms)[k]] == -1
    {
      FlattenValuesAtIndex(v, pairs, k);
    }
  }

  /** No stabilizer index appears twice in the correction: no violation is
    * paired twice. */
  lemma DecodeEntriesDistinct(ms: seq<int>)
    ensures forall k, l :: 0 <= k < l < |DecodeSpec(ms)| ==> DecodeSpec(ms)[k] != DecodeSpec(ms)[l]
  {
    var v := ViolatedIndices(ms);
    var pairs := GreedyPairs(v);
    var flat := DecodeSpec(ms);
    GreedyDisjoint(v, NoneMatched(|v|), 0);
    forall k, l | 0 <= k < l < |flat| ensures flat[k] != flat[l] {
      ValuesDistinctAt(v, pairs, k, l);
    }
  }

  lemma ValuesDistinctAt(v: seq<int>, pairs: seq<(nat, nat)>, k: nat, l: nat)
    requires forall a, b :: 0 <= a < b < |v| ==> v[a] < v[b]
    requires PairsBelow(pairs, |v|)
    requires Disjoint(pairs) && k < l < 2 * |pairs|
    ensures Flatten(Values(v, pairs))[k] != Flatten(Values(v, pairs))[l]
  {
    FlattenValuesAtIndex(v, pairs, k);
    FlattenValuesAtIndex(v, pairs, l);
    EndsDistinct(pairs, k, l);
    var ik := EndAt(pairs, k);
    var il := EndAt(pairs, l);
    if ik < il {
      assert v[ik] < v[il];
    } else {
      assert v[il] < v[ik];
    }
  }

  /** Two positions of the flattened pairs hold different indices. */
  lemma EndsDistinct(pairs: seq<(nat, nat)>, k: nat, l: nat)
    requires Disjoint(pairs) && k < l < 2 * |pairs|
    ensures EndAt(pairs, k) != EndAt(pairs, l)
  {
    if k / 2 == l / 2 {
      assert k % 2 == 0 && l % 2 == 1;
    }
  }

  /** With at most 1e9 stabilizers, every violation but at most one is
    * matched, so the correction has 2·(k/2) entries for k violations. */
  lemma DecodeLength(ms: seq<int>)
    requires |ms| <= InitialBestWeight
    ensures |DecodeSpec(ms)| == 2 * (CountBelow(ms, |ms|) / 2)
  {
    var v := ViolatedIndices(ms);
    forall a, b | 0 <= a < |v| && 0 <= b < |v|
      ensures CalculateWeight(v[a], v[b]) < InitialBestWeight
    {
    }
    PairCount(v);
    CountIsViolatedLength(ms, |ms|);
  }

  /** One pass of the outer loop of findMatching. */
  lemma GreedyStep(v: seq<int>, matched: seq<bool>, i: nat)
    requires |matched| == |v| && i < |v|
    ensures var b := BestPartner(v, matched, i);
      (matched[i] || b == -1 ==> GreedyFrom(v, matched, i) == GreedyFrom(v, matched, i + 1)) &&
      (!matched[i] && b != -1 ==>
        Values(v, GreedyFrom(v, matched, i)) ==
        [(v[i], v[b])] + Values(v, GreedyFrom(v, matched[i := true][b := true], i + 1)))
  {
    var b := BestPartner(v, matched, i);
    if !matched[i] && b != -1 {
      var rest := GreedyFrom(v, matched[i := true][b := true], i + 1);
      assert ([(i, b)] + rest)[1..] == rest;
    }
  }

  // ---------------------------------------------------------------------

  class MWPMDecoder {
    var codeDistance: int

    /** MWPMDecoder(): code distance 3. */
    constructor ()
      ensures codeDistance == 3
    {
      codeDistance := 3;
    }

    method SetCodeDistance(distance: int)
      modifies this
      ensures codeDistance == distance
    {
      codeDistance := distance;
    }

    /** The inner loop of findMatching: the nearest unmatched later
      * violation strictly below the 1e9 bound, or −1. */
    method NearestPartner(v: seq<int>, matched: seq<bool>, i: nat) returns (bestPartner: int)
      requires |matched| == |v| && i < |v|
      ensures bestPartner == BestPartner(v, matched, i)
    {
      bestPartner := -1;
      var bestWeight := InitialBestWeight;
      var j := i + 1;
      while j < |v|
        invariant i + 1 <= j <= |v|
        invariant bestPartner == -1 || i < bestPartner < j
        invariant ScanPartner(v, matched, i, j, bestPartner, bestWeight) == BestPartner(v, matched, i)
      {
        if matched[j] {
          j := j + 1;
          continue;
        }
        var weight := CalculateWeight(v[i], v[j]);
        if weight < bestWeight {
          bestWeight := weight;
          bestPartner := j;
        }
        j := j + 1;
      }
    }

    /** findMatching: the greedy pass over the `matched` flags. */
    method FindMatching(violations: seq<int>) returns (matching: seq<(int, int)>)
      ensures matching == Values(violations, GreedyPairs(violations))
    {
      var v := violations;
      matching := [];
      var matched := NoneMatched(|v|);
      var i := 0;
      while i < |v|
        invariant 0 <= i <= |v| && |matched| == |v|
        invariant Values(v, GreedyPairs(v)) == matching + Values(v, GreedyFrom(v, matched, i))
      {
        GreedyStep(v, matched, i);
        if matched[i] {
          i := i + 1;
          continue;
        }
        var bestPartner := NearestPartner(v, matched, i);
        if bestPartner != -1 {
          ghost var rest := Values(v, GreedyFrom(v, matched[i := true][bestPartner := true], i + 1));
          ghost var done := matching;
          matching := matching + [(v[i], v[bestPartner])];
          matched := matched[i := true][bestPartner := true];
          assert done + ([(v[i], v[bestPartner])] + rest) == matching + rest;
        }
        i := i + 1;
      }
    }

    /** decode(syndrome). */
    method Decode(syndrome: Syndrome) returns (correction: seq<int>)
      ensures correction == DecodeSpec(syndrome.measurements)
    {
      var violations := syndrome.GetViolatedStabilizers();
      if violations == [] {
        return [];
      }
      var matching := FindMatching(violations);
      correction := [];
      var k := 0;
      while k < |matching|
        invariant 0 <= k <= |matching|
        invariant correction == Flatten(matching[..k])
      {
        assert matching[..k + 1][..k] == matching[..k];
        correction := correction + [matching[k].0];
        correction := correction + [matching[k].1];
        k := k + 1;
      }
      assert matching[..k] == matching;
    }
  }
}
