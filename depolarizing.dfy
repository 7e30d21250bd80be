/** The depolarizing channel (libomniq-core/src/modules/noise/DepolarizingChannel.cpp):
  * with probability p the qubit is hit by X, Y or Z, each equally likely. */
module DepolarizingChannels {
  import opened Wrappers
  import opened ComplexNumbers
  import opened Operators
  import opened NoiseChannels

  const Name: string := "Depolarizing"

  /** √(1−p)·U0, √(p/3)·U1, √(p/3)·U2, √(p/3)·U3. */
  function KrausOf(p: real, u0: Matrix, u1: Matrix, u2: Matrix, u3: Matrix): seq<KrausOperator>
  {
    [Weighted(1.0 - p, u0), Weighted(p / 3.0, u1), Weighted(p / 3.0, u2), Weighted(p / 3.0, u3)]
  }

  /** getKrausOperators: √(1−p)·I, √(p/3)·X, √(p/3)·Y, √(p/3)·Z, in that order. */
  function Kraus(p: real): seq<KrausOperator>
  {
    KrausOf(p, Identity2, PauliX, PauliY, PauliZ)
  }

  /** The squared weights add up to (1 − p) + 3 · p/3 = 1, so any four
    * unitaries give a complete set. */
  lemma KrausOfComplete(p: real, u0: Matrix, u1: Matrix, u2: Matrix, u3: Matrix)
    requires Probability(p)
    requires IsGate2(u0) && IsGate2(u1) && IsGate2(u2) && IsGate2(u3)
    requires Unitary2(u0) && Unitary2(u1) && Unitary2(u2) && Unitary2(u3)
    ensures Complete(KrausOf(p, u0, u1, u2, u3))
  {
    UnitaryGram(1.0 - p, u0);
    UnitaryGram(p / 3.0, u1);
    UnitaryGram(p / 3.0, u2);
    UnitaryGram(p / 3.0, u3);
    QuadComplete(Weighted(1.0 - p, u0), Weighted(p / 3.0, u1), Weighted(p / 3.0, u2), Weighted(p / 3.0, u3));
  }

  /** For every p in [0, 1] the four operators satisfy Σ E†E = I. */
  lemma KrausComplete(p: real)
    requires Probability(p)
    ensures Complete(Kraus(p))
  {
    IdentityUnitary();
    PauliXUnitary();
    PauliYUnitary();
    PauliZUnitary();
    KrausOfComplete(p, Identity2, PauliX, PauliY, PauliZ);
  }

  class DepolarizingChannel {
    var p: real

    ghost predicate Valid()
      reads this
    {
      Probability(p)
    }

    /** DepolarizingChannel(errorProb) once its range check has passed; see
      * NewDepolarizingChannel. */
    constructor (errorProb: real)
      requires Probability(errorProb)
      ensures Valid() && p == errorProb
    {
      p := errorProb;
    }

    /** setErrorProbability: a value outside [0, 1] is an invalid_argument
      * and keeps the old probability. */
    method SetErrorProbability(x: real) returns (s: Status)
      modifies this`p
      ensures s == Done <==> Probability(x)
      ensures s.Failed? ==> s.error == InvalidArgument && p == old(p)
      ensures s == Done ==> p == x
      ensures old(Valid()) ==> Valid()
    {
      if x < 0.0 || x > 1.0 {
        return Failed(InvalidArgument);
      }
      p := x;
      return Done;
    }

    /** getKrausOperators: a complete set of four operators. */
    function KrausOperators(): (ks: seq<KrausOperator>)
      reads this
      requires Valid()
      ensures |ks| == 4 && Complete(ks)
    {
      KrausComplete(p);
      Kraus(p)
    }

    /** getDescription: the name followed by "(p=", the formatted
      * probability and ")"; `format` stands for the stream output of a
      * double. */
    function Description(format: real -> string): (d: string)
      reads this
      ensures |d| == |Name| + 4 + |format(p)|
      ensures d[..|Name|] == Name && d[|Name|..|Name| + 3] == "(p=" && d[|d| - 1] == ')'
      ensures d[|Name| + 3..|d| - 1] == format(p)
    {
      Name + "(p=" + format(p) + ")"
    }
  }

  method NewDepolarizingChannel(errorProb: real) returns (r: Result<DepolarizingChannel>)
    ensures r.Err? <==> !Probability(errorProb)
    ensures r.Err? ==> r.error == InvalidArgument
    ensures r.Ok? ==> fresh(r.value) && r.value.Valid() && r.value.p == errorProb
  {
    if errorProb < 0.0 || errorProb > 1.0 {
      return Err(InvalidArgument);
    }
    var c := new DepolarizingChannel(errorProb);
    return Ok(c);
  }
}
