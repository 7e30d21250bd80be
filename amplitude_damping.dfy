/** The amplitude-damping channel
  * (libomniq-core/src/modules/noise/AmplitudeDampingChannel.cpp): energy
  * relaxation |1⟩ → |0⟩ with probability γ. */
module AmplitudeDampingChannels {
  import opened Wrappers
  import opened ComplexNumbers
  import opened Operators
  import opened NoiseChannels

  const Name: string := "AmplitudeDamping"

  /** |0⟩⟨1|, the base of the decay operator. */
  const Lowering: Matrix := Mat2(Zero, One, Zero, Zero)

  /** B†B = diag(0, 1): the first column of B is zero and the second has
    * length 1. */
  predicate Decay(l: Matrix)
    requires IsGate2(l)
  {
    ColumnProduct(l, 0, 0) == Zero && ColumnProduct(l, 1, 1) == One &&
    ColumnProduct(l, 0, 1) == Zero && ColumnProduct(l, 1, 0) == Zero
  }

  /** E0 = U · diag(1, √(1−γ)) and E1 = L · diag(0, √γ). */
  function KrausOf(gamma: real, u: Matrix, l: Matrix): seq<KrausOperator>
  {
    [KrausOperator(u, 1.0, 1.0 - gamma), KrausOperator(l, 0.0, gamma)]
  }

  /** getKrausOperators: E0 = [[1, 0], [0, √(1−γ)]], E1 = [[0, √γ], [0, 0]]. */
  function Kraus(gamma: real): seq<KrausOperator>
  {
    KrausOf(gamma, Identity2, Lowering)
  }

  /** A unitary U and a matrix L whose first column is zero and whose second
    * has length 1 give E0†E0 + E1†E1 = diag(1, 1−γ) + diag(0, γ) = I. */
  lemma KrausOfComplete(gamma: real, u: Matrix, l: Matrix)
    requires Probability(gamma)
    requires IsGate2(u) && Unitary2(u) && IsGate2(l) && Decay(l)
    ensures Complete(KrausOf(gamma, u, l))
  {
    var e0, e1 := KrausOperator(u, 1.0, 1.0 - gamma), KrausOperator(l, 0.0, gamma);
    OrthogonalGram(e0, 1.0, 1.0);
    OrthogonalGram(e1, 0.0, 1.0);
    PairDiagonalSum(e0, e1);
  }

  lemma LoweringDecay()
    ensures Decay(Lowering)
  {
    assert Lowering == Mat2(Complex(0.0, 0.0), Complex(1.0, 0.0), Complex(0.0, 0.0), Complex(0.0, 0.0));
    RealColumns(0.0, 1.0, 0.0, 0.0);
  }

  /** For every γ in [0, 1] the two operators satisfy Σ E†E = I. */
  lemma KrausComplete(gamma: real)
    requires Probability(gamma)
    ensures Complete(Kraus(gamma))
  {
    IdentityUnitary();
    LoweringDecay();
    KrausOfComplete(gamma, Identity2, Lowering);
  }

  /** With a lawful square root the operators handed over are exactly
    * [[1, 0], [0, √(1−γ)]] and [[0, √γ], [0, 0]]. */
  lemma KrausMatrices(gamma: real, sqrt: real -> real)
    requires Probability(gamma) && SqrtLaw(sqrt)
    ensures |Kraus(gamma)| == 2 && WellWeighted(Kraus(gamma)[0]) && WellWeighted(Kraus(gamma)[1])
    ensures Materialise(Kraus(gamma)[0], sqrt) == Mat2(One, Zero, Zero, Complex(sqrt(1.0 - gamma), 0.0))
    ensures Materialise(Kraus(gamma)[1], sqrt) == Mat2(Zero, Complex(sqrt(gamma), 0.0), Zero, Zero)
  {
    SqrtZeroOne(sqrt);
    ScaleReal(1.0, 1.0);
    ScaleReal(1.0, 0.0);
    ScaleReal(sqrt(1.0 - gamma), 0.0);
    ScaleReal(sqrt(1.0 - gamma), 1.0);
    ScaleReal(sqrt(0.0), 0.0);
    ScaleReal(sqrt(gamma), 1.0);
    ScaleReal(sqrt(gamma), 0.0);
  }

  class AmplitudeDampingChannel {
    var gamma: real

    ghost predicate Valid()
      reads this
    {
      Probability(gamma)
    }

    /** AmplitudeDampingChannel(gamma) once its range check has passed; see
      * NewAmplitudeDampingChannel. */
    constructor (g: real)
      requires Probability(g)
      ensures Valid() && gamma == g
    {
      gamma := g;
    }

    /** setGamma: a value outside [0, 1] is an invalid_argument and keeps
      * the old γ. */
    method SetGamma(g: real) returns (s: Status)
      modifies this`gamma
      ensures s == Done <==> Probability(g)
      ensures s.Failed? ==> s.error == InvalidArgument && gamma == old(gamma)
      ensures s == Done ==> gamma == g
      ensures old(Valid()) ==> Valid()
    {
      if g < 0.0 || g > 1.0 {
        return Failed(InvalidArgument);
      }
      gamma := g;
      return Done;
    }

    /** getKrausOperators: a complete set of two operators. */
    function KrausOperators(): (ks: seq<KrausOperator>)
      reads this
      requires Valid()
      ensures |ks| == 2 && Complete(ks)
    {
      KrausComplete(gamma);
      Kraus(gamma)
    }

    /** getDescription: the name followed by "(γ=", the formatted γ and ")". */
    function Description(format: real -> string): (d: string)
      reads this
      ensures |d| == |Name| + 4 + |format(gamma)|
      ensures d[..|Name|] == Name && d[|Name|..|Name| + 3] == "(γ=" && d[|d| - 1] == ')'
      ensures d[|Name| + 3..|d| - 1] == format(gamma)
    {
      Name + "(γ=" + format(gamma) + ")"
    }
  }

  method NewAmplitudeDampingChannel(g: real) returns (r: Result<AmplitudeDampingChannel>)
    ensures r.Err? <==> !Probability(g)
    ensures r.Err? ==> r.error == InvalidArgument
    ensures r.Ok? ==> fresh(r.value) && r.value.Valid() && r.value.gamma == g
  {
    if g < 0.0 || g > 1.0 {
      return Err(InvalidArgument);
    }
    var c := new AmplitudeDampingChannel(g);
    return Ok(c);
  }

  /** fromT1: γ = 1 − exp(−gateTime / T1), then the range-checking
    * constructor; `exp` stands for std::exp. A positive T1 and a
    * non-negative gate time always give a channel. */
  method FromT1(t1: real, gateTime: real, exp: real -> real) returns (r: Result<AmplitudeDampingChannel>)
    requires t1 != 0.0
    ensures r.Err? <==> !Probability(DecayProbability(t1, gateTime, exp))
    ensures r.Err? ==> r.error == InvalidArgument
    ensures r.Ok? ==> fresh(r.value) && r.value.Valid() && r.value.gamma == DecayProbability(t1, gateTime, exp)
    ensures t1 > 0.0 && gateTime >= 0.0 && ExpLaw(exp) ==> r.Ok?
  {
    if t1 > 0.0 && gateTime >= 0.0 && ExpLaw(exp) {
      DecayInRange(t1, gateTime, exp);
    }
    r := NewAmplitudeDampingChannel(DecayProbability(t1, gateTime, exp));
  }
}
