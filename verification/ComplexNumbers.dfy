/**
 Complex arithmetic over the reals, standing for the pairs of float buffers that
 the audio front end keeps. Rounding is not modelled.
 */
module ComplexNumbers {

  datatype Complex = Complex(re: real, im: real)

  const ZERO := Complex(0.0, 0.0)
  const ONE := Complex(1.0, 0.0)

  function Add(a: Complex, b: Complex): Complex {
    Complex(a.re + b.re, a.im + b.im)
  }

  function Sub(a: Complex, b: Complex): Complex {
    Complex(a.re - b.re, a.im - b.im)
  }

  function Mul(a: Complex, b: Complex): Complex {
    Complex(a.re * b.re - a.im * b.im, a.re * b.im + a.im * b.re)
  }

  function Neg(a: Complex): Complex {
    Complex(-a.re, -a.im)
  }

  function Conj(a: Complex): Complex {
    Complex(a.re, -a.im)
  }

  /** The squared modulus. */
  function NormSquared(a: Complex): real {
    a.re * a.re + a.im * a.im
  }

  function Pow(z: Complex, n: nat): Complex {
    if n == 0 then ONE else Mul(Pow(z, n - 1), z)
  }

  lemma MulComm(a: Complex, b: Complex)
    ensures Mul(a, b) == Mul(b, a)
  {
  }

  lemma MulAssoc(a: Complex, b: Complex, c: Complex)
    ensures Mul(Mul(a, b), c) == Mul(a, Mul(b, c))
  {
    RealTriple(a.re, b.re, c.re);
    RealTriple(a.re, b.re, c.im);
    RealTriple(a.re, b.im, c.re);
    RealTriple(a.re, b.im, c.im);
    RealTriple(a.im, b.re, c.re);
    RealTriple(a.im, b.re, c.im);
    RealTriple(a.im, b.im, c.re);
    RealTriple(a.im, b.im, c.im);
    RealDistrib(a.re * b.re, a.im * b.im, c.re);
    RealDistrib(a.re * b.re, a.im * b.im, c.im);
  }

  lemma RealTriple(x: real, y: real, z: real)
    ensures (x * y) * z == x * (y * z)
  {
  }

  lemma RealDistrib(x: real, y: real, z: real)
    ensures (x - y) * z == x * z - y * z
    ensures (x + y) * z == x * z + y * z
  {
  }

  lemma MulAddLeft(a: Complex, b: Complex, c: Complex)
    ensures Mul(a, Add(b, c)) == Add(Mul(a, b), Mul(a, c))
  {
  }

  lemma MulOne(a: Complex)
    ensures Mul(a, ONE) == a && Mul(ONE, a) == a
    ensures Mul(a, ZERO) == ZERO && Mul(ZERO, a) == ZERO
  {
  }

  /** Swapping the two middle factors of a product of four. */
  lemma MulSwap(a: Complex, b: Complex, c: Complex, d: Complex)
    ensures Mul(Mul(a, b), Mul(c, d)) == Mul(Mul(a, c), Mul(b, d))
  {
    MulAssoc(a, b, Mul(c, d));
    MulAssoc(b, c, d);
    MulComm(b, c);
    MulAssoc(c, b, d);
    MulAssoc(a, c, Mul(b, d));
  }

  lemma {:induction false} PowAdd(z: Complex, m: nat, n: nat)
    ensures Pow(z, m + n) == Mul(Pow(z, m), Pow(z, n))
  {
    if n == 0 {
      MulOne(Pow(z, m));
    } else {
      PowAdd(z, m, n - 1);
      MulAssoc(Pow(z, m), Pow(z, n - 1), z);
    }
  }

  lemma {:induction false} PowPow(z: Complex, m: nat, n: nat)
    ensures m * n >= 0 && Pow(Pow(z, m), n) == Pow(z, m * n)
  {
    if n > 0 {
      PowPow(z, m, n - 1);
      PowAdd(z, m * (n - 1), m);
      assert m * (n - 1) + m == m * n;
    }
  }

  lemma ConjMul(a: Complex, b: Complex)
    ensures Conj(Mul(a, b)) == Mul(Conj(a), Conj(b))
  {
  }

  /** The inverse of a number of modulus one is its conjugate, and so it stays for powers. */
  lemma {:induction false} UnitPow(z: Complex, n: nat)
    requires NormSquared(z) == 1.0
    ensures Mul(Pow(z, n), Conj(Pow(z, n))) == ONE
  {
    hide Mul, Conj;
    ConjOne();
    MulOne(ONE);
    if n > 0 {
      UnitPow(z, n - 1);
      UnitSquare(z);
      ConjMul(Pow(z, n - 1), z);
      MulSwap(Pow(z, n - 1), z, Conj(Pow(z, n - 1)), Conj(z));
    }
  }

  lemma ConjOne()
    ensures Conj(ONE) == ONE
  {
  }

  lemma UnitSquare(z: Complex)
    requires NormSquared(z) == 1.0
    ensures Mul(z, Conj(z)) == ONE
  {
  }
}
