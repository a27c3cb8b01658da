/**
 * The immutable complex number record `smile.math.Complex`.
 *
 * Only the parts whose meaning does not depend on floating-point rounding are
 * modelled: the two components and the conjugate (negating a component is
 * exact). A Java `double` is modelled by a mathematical `real`.
 */
module ComplexNumbers {

  /** A complex number with real part `re` and imaginary part `im`. */
  datatype Complex = Complex(re: real, im: real)

  /** The complex number 0 + 0i, the value of every slot of a fresh buffer. */
  const Zero: Complex := Complex(0.0, 0.0)

  /** The conjugate keeps the real part and negates the imaginary part. */
  function Conjugate(c: Complex): (r: Complex)
    ensures r.re == c.re && r.im == -c.im
  {
    Complex(c.re, -c.im)
  }

  /** Conjugation is an involution. */
  lemma ConjugateInvolutive(c: Complex)
    ensures Conjugate(Conjugate(c)) == c
  {
  }
}
