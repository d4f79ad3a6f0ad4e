/** Points of the complex plane and the quadratic map the fractal iterates.
    The source keeps these as single-precision complex numbers; here they are
    exact reals, an idealisation of float32 arithmetic. */
module Plane {
  datatype Complex = Complex(re: real, im: real)

  const Zero: Complex := Complex(0.0, 0.0)

  /** The squared modulus, real² + imag², which the kernel tests without a square root. */
  function Norm2(z: Complex): real
  {
    z.re * z.re + z.im * z.im
  }

  /** The kernel's escape threshold on the squared modulus (2.0 in the kernel, not the
      conventional 4.0). */
  const EscapeBound: real := 2.0

  predicate Escaped(z: Complex)
  {
    Norm2(z) > EscapeBound
  }

  /** Complex addition and multiplication, as textbook definitions. */
  function Add(z: Complex, w: Complex): Complex
  {
    Complex(z.re + w.re, z.im + w.im)
  }

  function Mul(z: Complex, w: Complex): Complex
  {
    Complex(z.re * w.re - z.im * w.im, z.re * w.im + z.im * w.re)
  }

  /** One step of the iteration, written as the kernel writes it on real and imaginary parts. */
  function Step(z: Complex, c: Complex): (r: Complex)
    ensures r == Add(Mul(z, z), c)
  {
    Complex(z.re * z.re - z.im * z.im + c.re, 2.0 * z.re * z.im + c.im)
  }
}
