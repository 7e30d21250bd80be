/** The phase-damping channel
  * (libomniq-core/src/modules/noise/PhaseDampingChannel.cpp): loss of phase
  * coherence without energy loss, with strength λ. */
module PhaseDampingChannels {
  import opened Wrappers
  import opened ComplexNumbers
  import opened Operators
  import opened NoiseChannels

  const Name: string := "PhaseDamping"

  /** E0 = √(1−λ) U and E1 = √λ V. */
  function KrausOf(lambda: real, u: Matrix, v: Matrix): seq<KrausOperator>
  {
    [Weighted(1.0 - lambda, u), Weighted(lambda, v)]
  }

  /** getKrausOperators: E0 = √(1−λ) I, E1 = √λ Z. */
  function Kraus(lambda: real): seq<KrausOperator>
  {
    KrausOf(lambda, Identity2, PauliZ)
  }

  /** Two weighted unitaries with weights 1 − λ and λ form a complete set. */
  lemma KrausOfComplete(lambda: real, u: Matrix, v: Matrix)
    requires Probability(lambda)
    requires IsGate2(u) && Unitary2(u) && IsGate2(v) && Unitary2(v)
    ensures Complete(KrausOf(lambda, u, v))
  {
    UnitaryGram(1.0 - lambda, u);
    UnitaryGram(lambda, v);
    PairComplete(Weighted(1.0 - lambda, u), Weighted(lambda, v));
  }

  /** For every λ in [0, 1]: (1−λ) I†I + λ Z†Z = I. */
  lemma KrausComplete(lambda: real)
    requires Probability(lambda)
    ensures Complete(Kraus(lambda))
  {
    IdentityUnitary();
    PauliZUnitary();
    KrausOfComplete(lambda, Identity2, PauliZ);
  }

  class PhaseDampingChannel {
    var lambda: real

    ghost predicate Valid()
      reads this
    {
      Probability(lambda)
    }

    /** PhaseDampingChannel(lambda) once its range check has passed; see
      * NewPhaseDampingChannel. */
    constructor (l: real)
      requires Probability(l)
      ensures Valid() && lambda == l
    {
      lambda := l;
    }

    /** setLambda: a value outside [0, 1] is an invalid_argument and keeps
      * the old λ. */
    method SetLambda(l: real) returns (s: Status)
      modifies this`lambda
      ensures s == Done <==> Probability(l)
      ensures s.Failed? ==> s.error == InvalidArgument && lambda == old(lambda)
      ensures s == Done ==> lambda == l
      ensures old(Valid()) ==> Valid()
    {
      if l < 0.0 || l > 1.0 {
        return Failed(InvalidArgument);
      }
      lambda := l;
      return Done;
    }

    /** getKrausOperators: a complete set of two operators. */
    function KrausOperators(): (ks: seq<KrausOperator>)
      reads this
      requires Valid()
      ensures |ks| == 2 && Complete(ks)
    {
      KrausComplete(lambda);
      Kraus(lambda)
    }

    /** getDescription: the name followed by "(λ=", the formatted λ and ")". */
    function Description(format: real -> string): (d: string)
      reads this
      ensures |d| == |Name| + 4 + |format(lambda)|
      ensures d[..|Name|] == Name && d[|Name|..|Name| + 3] == "(λ=" && d[|d| - 1] == ')'
      ensures d[|Name| + 3..|d| - 1] == format(lambda)
    {
      Name + "(λ=" + format(lambda) + ")"
    }
  }

  method NewPhaseDampingChannel(l: real) returns (r: Result<PhaseDampingChannel>)
    ensures r.Err? <==> !Probability(l)
    ensures r.Err? ==> r.error == InvalidArgument
    ensures r.Ok? ==> fresh(r.value) && r.value.Valid() && r.value.lambda == l
  {
    if l < 0.0 || l > 1.0 {
      return Err(InvalidArgument);
    }
    var c := new PhaseDampingChannel(l);
    return Ok(c);
  }

  /** fromT2: λ = 1 − exp(−gateTime / T2), then the range-checking
    * constructor; `exp` stands for std::exp. A positive T2 and a
    * non-negative gate time always give a channel. */
  method FromT2(t2: real, gateTime: real, exp: real -> real) returns (r: Result<PhaseDampingChannel>)
    requires t2 != 0.0
    ensures r.Err? <==> !Probability(DecayProbability(t2, gateTime, exp))
    ensures r.Err? ==> r.error == InvalidArgument
    ensures r.Ok? ==> fresh(r.value) && r.value.Valid() && r.value.lambda == DecayProbability(t2, gateTime, exp)
    ensures t2 > 0.0 && gateTime >= 0.0 && ExpLaw(exp) ==> r.Ok?
  {
    if t2 > 0.0 && gateTime >= 0.0 && ExpLaw(exp) {
      DecayInRange(t2, gateTime, exp);
    }
    r := NewPhaseDampingChannel(DecayProbability(t2, gateTime, exp));
  }
}
