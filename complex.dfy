/** Exact complex numbers over `real`, standing in for
  * `std::complex<double>`. Only the ring operations the modelled code uses
  * appear here: no square roots, exponentials or trigonometry. */
module ComplexNumbers {

  datatype Complex = Complex(re: real, im: real)

  const Zero: Complex := Complex(0.0, 0.0)
  const One: Complex := Complex(1.0, 0.0)
  /** The imaginary unit i. */
  const I: Complex := Complex(0.0, 1.0)

  function Add(a: Complex, b: Complex): Complex
  {
    Complex(a.re + b.re, a.im + b.im)
  }

  function Neg(a: Complex): Complex
  {
    Complex(-a.re, -a.im)
  }

  function Mul(a: Complex, b: Complex): Complex
  {
    Complex(a.re * b.re - a.im * b.im, a.re * b.im + a.im * b.re)
  }

  function Conj(a: Complex): Complex
  {
    Complex(a.re, -a.im)
  }

  /** |a|^2, what `std::norm` returns. */
  function NormSq(a: Complex): (r: real)
    ensures r >= 0.0
  {
    a.re * a.re + a.im * a.im
  }

  /** Multiplication by a real scalar. */
  function Scale(k: real, a: Complex): Complex
  {
    Complex(k * a.re, k * a.im)
  }

  lemma NegNeg(a: Complex)
    ensures Neg(Neg(a)) == a
  {
  }

  /** i·(−i·a) == a and −i·(i·a) == a: the two factors of the Pauli-Y
    * matrix undo each other. */
  lemma MulIInverse(a: Complex)
    ensures Mul(I, Mul(Neg(I), a)) == a
    ensures Mul(Neg(I), Mul(I, a)) == a
  {
  }

  lemma AddZero(a: Complex)
    ensures Add(a, Zero) == a && Add(Zero, a) == a
  {
  }

  lemma MulOne(a: Complex)
    ensures Mul(One, a) == a && Mul(a, One) == a
  {
  }

  lemma MulZero(a: Complex)
    ensures Mul(Zero, a) == Zero && Mul(a, Zero) == Zero
  {
  }
}
