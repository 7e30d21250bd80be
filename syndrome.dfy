/** Syndrome vectors (libomniq-core/src/modules/qec/Syndrome.cpp): one ±1
  * outcome per stabilizer, −1 marking a violated stabilizer. */
module Syndromes {
  import opened Wrappers

  /** countViolations over the first k entries. */
  function CountBelow(ms: seq<int>, k: nat): (c: nat)
    requires k <= |ms|
    ensures c <= k
  {
    if k == 0 then 0 else CountBelow(ms, k - 1) + (if ms[k - 1] == -1 then 1 else 0)
  }

  /** getViolatedStabilizers over the first k entries: the −1 positions,
    * pushed in increasing order. */
  function ViolatedBelow(ms: seq<int>, k: nat): (v: seq<int>)
    requires k <= |ms|
    ensures forall a, b :: 0 <= a < b < |v| ==> v[a] < v[b]
    ensures forall a :: 0 <= a < |v| ==> 0 <= v[a] < k && ms[v[a]] == -1
    ensures forall j :: 0 <= j < k && ms[j] == -1 ==> j in v
  {
    if k == 0 then [] else ViolatedBelow(ms, k - 1) + (if ms[k - 1] == -1 then [k - 1] else [])
  }

  /** The early-return loop of isAllZero. */
  function NoneViolated(ms: seq<int>): (r: bool)
    ensures r <==> forall j :: 0 <= j < |ms| ==> ms[j] != -1
  {
    if ms == [] then true else if ms[0] == -1 then false else NoneViolated(ms[1..])
  }

  function ViolationCount(ms: seq<int>): nat
  {
    CountBelow(ms, |ms|)
  }

  function ViolatedIndices(ms: seq<int>): seq<int>
  {
    ViolatedBelow(ms, |ms|)
  }

  /** countViolations() is the length of getViolatedStabilizers(). */
  lemma {:induction false} CountIsViolatedLength(ms: seq<int>, k: nat)
    requires k <= |ms|
    ensures CountBelow(ms, k) == |ViolatedBelow(ms, k)|
  {
    if k > 0 {
      CountIsViolatedLength(ms, k - 1);
    }
  }

  /** No violation among the first k entries exactly when the count is 0. */
  lemma {:induction false} CountZeroBelow(ms: seq<int>, k: nat)
    requires k <= |ms|
    ensures CountBelow(ms, k) == 0 <==> forall j :: 0 <= j < k ==> ms[j] != -1
  {
    if k > 0 {
      CountZeroBelow(ms, k - 1);
    }
  }

  /** isAllZero() holds exactly when countViolations() is 0. */
  lemma AllZeroIffNoViolations(ms: seq<int>)
    ensures NoneViolated(ms) <==> ViolationCount(ms) == 0
  {
    CountZeroBelow(ms, |ms|);
  }

  class Syndrome {
    var measurements: seq<int>
    var codeDistance: int

    /** Syndrome(): no entries, code distance 0. */
    constructor ()
      ensures measurements == [] && codeDistance == 0
    {
      measurements := [];
      codeDistance := 0;
    }

    /** Syndrome(n): n entries, every one +1 (satisfied). */
    constructor Sized(numStabilizers: nat)
      ensures |measurements| == numStabilizers
      ensures forall j :: 0 <= j < numStabilizers ==> measurements[j] == 1
      ensures codeDistance == 0
    {
      measurements := seq(numStabilizers, _ => 1);
      codeDistance := 0;
    }

    function Size(): nat
      reads this
    {
      |measurements|
    }

    /** getMeasurement(index). */
    method GetMeasurement(index: int) returns (r: Result<int>)
      ensures r.Ok? <==> 0 <= index < |measurements|
      ensures r.Ok? ==> r.value == measurements[index]
      ensures r.Err? ==> r.error == OutOfRange
    {
      if index < 0 || index >= |measurements| {
        return Err(OutOfRange);
      }
      return Ok(measurements[index]);
    }

    /** setMeasurement(index, value): the range check comes first, then the
      * ±1 check; only an accepted call changes the addressed entry. */
    method SetMeasurement(index: int, value: int) returns (s: Status)
      modifies this`measurements
      ensures s == (if index < 0 || index >= |old(measurements)| then Failed(OutOfRange)
                    else if value != 1 && value != -1 then Failed(InvalidArgument)
                    else Done)
      ensures s.Done? ==> measurements == old(measurements)[index := value]
      ensures s.Failed? ==> measurements == old(measurements)
    {
      if index < 0 || index >= |measurements| {
        return Failed(OutOfRange);
      }
      if value != 1 && value != -1 {
        return Failed(InvalidArgument);
      }
      measurements := measurements[index := value];
      return Done;
    }

    /** setMeasurements(ms): replaced wholesale, with no validation. */
    method SetMeasurements(ms: seq<int>)
      modifies this`measurements
      ensures measurements == ms
    {
      measurements := ms;
    }

    method SetCodeDistance(distance: int)
      modifies this`codeDistance
      ensures codeDistance == distance
    {
      codeDistance := distance;
    }

    /** countViolations(). */
    method CountViolations() returns (count: nat)
      ensures count == ViolationCount(measurements)
    {
      count := 0;
      var i := 0;
      while i < |measurements|
        invariant 0 <= i <= |measurements|
        invariant count == CountBelow(measurements, i)
      {
        if measurements[i] == -1 {
          count := count + 1;
        }
        i := i + 1;
      }
    }

    /** getViolatedStabilizers(). */
    method GetViolatedStabilizers() returns (violated: seq<int>)
      ensures violated == ViolatedIndices(measurements)
    {
      violated := [];
      var i := 0;
      while i < |measurements|
        invariant 0 <= i <= |measurements|
        invariant violated == ViolatedBelow(measurements, i)
      {
        if measurements[i] == -1 {
          violated := violated + [i];
        }
        i := i + 1;
      }
    }

    /** isAllZero(). */
    method IsAllZero() returns (r: bool)
      ensures r == NoneViolated(measurements)
    {
      var i := 0;
      while i < |measurements|
        invariant 0 <= i <= |measurements|
        invariant forall j :: 0 <= j < i ==> measurements[j] != -1
      {
        if measurements[i] == -1 {
          return false;
        }
        i := i + 1;
      }
      return true;
    }
  }

  /** A fresh Syndrome(n) has no violations. */
  lemma FreshSyndromeSatisfied(n: nat)
    ensures NoneViolated(seq(n, _ => 1))
    ensures ViolationCount(seq(n, _ => 1)) == 0
  {
    AllZeroIffNoViolations(seq(n, _ => 1));
  }

  /** Accepting a −1 at a satisfied entry adds exactly one violation; a +1
    * at a violated entry removes exactly one. */
  lemma {:induction false} SetChangesCountByOne(ms: seq<int>, index: nat, value: int, k: nat)
    requires index < k <= |ms| && (value == 1 || value == -1)
    ensures CountBelow(ms[index := value], k) ==
      CountBelow(ms, k) + (if value == -1 then 1 else 0) - (if ms[index] == -1 then 1 else 0)
  {
    if k - 1 != index {
      SetChangesCountByOne(ms, index, value, k - 1);
    } else {
      CountUnchangedBelow(ms, index, value, index);
    }
  }

  lemma {:induction false} CountUnchangedBelow(ms: seq<int>, index: nat, value: int, k: nat)
    requires k <= index < |ms|
    ensures CountBelow(ms[index := value], k) == CountBelow(ms, k)
  {
    if k > 0 {
      CountUnchangedBelow(ms, index, value, k - 1);
    }
  }
}
