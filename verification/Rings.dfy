/** Commutative rings, and the exact complex numbers the signal kernels compute with.

  Each law is a predicate of its own, so a proof instantiates a law by asserting the predicate for
  the elements it needs, and the solver never rewrites with associativity or commutativity blindly. */
module Rings {

  datatype Ring<!T> = Ring(zero: T, one: T, add: (T, T) -> T, neg: T -> T, mul: (T, T) -> T)
  {
    function Sub(a: T, b: T): T {
      add(a, neg(b))
    }
  }

  ghost predicate AddAssoc<T>(r: Ring<T>, a: T, b: T, c: T) {
    r.add(r.add(a, b), c) == r.add(a, r.add(b, c))
  }

  ghost predicate AddComm<T>(r: Ring<T>, a: T, b: T) {
    r.add(a, b) == r.add(b, a)
  }

  ghost predicate AddZero<T>(r: Ring<T>, a: T) {
    r.add(r.zero, a) == a
  }

  ghost predicate AddNeg<T>(r: Ring<T>, a: T) {
    r.add(a, r.neg(a)) == r.zero
  }

  ghost predicate MulAssoc<T>(r: Ring<T>, a: T, b: T, c: T) {
    r.mul(r.mul(a, b), c) == r.mul(a, r.mul(b, c))
  }

  ghost predicate MulComm<T>(r: Ring<T>, a: T, b: T) {
    r.mul(a, b) == r.mul(b, a)
  }

  ghost predicate MulOne<T>(r: Ring<T>, a: T) {
    r.mul(r.one, a) == a
  }

  ghost predicate Distrib<T>(r: Ring<T>, a: T, b: T, c: T) {
    r.mul(a, r.add(b, c)) == r.add(r.mul(a, b), r.mul(a, c))
  }

  ghost predicate IsRing<T(!new)>(r: Ring<T>) {
    && (forall a, b, c :: AddAssoc(r, a, b, c))
    && (forall a, b :: AddComm(r, a, b))
    && (forall a :: AddZero(r, a))
    && (forall a :: AddNeg(r, a))
    && (forall a, b, c :: MulAssoc(r, a, b, c))
    && (forall a, b :: MulComm(r, a, b))
    && (forall a :: MulOne(r, a))
    && (forall a, b, c :: Distrib(r, a, b, c))
  }

  /** (a + b) + (c + d) == (a + c) + (b + d) */
  lemma AddExchange<T(!new)>(r: Ring<T>, a: T, b: T, c: T, d: T)
    requires IsRing(r)
    ensures r.add(r.add(a, b), r.add(c, d)) == r.add(r.add(a, c), r.add(b, d))
  {
    assert AddAssoc(r, a, b, r.add(c, d));
    assert AddAssoc(r, b, c, d) && AddComm(r, b, c) && AddAssoc(r, c, b, d);
    assert AddAssoc(r, a, c, r.add(b, d));
  }

  /** (a * b) * (c * d) == (a * c) * (b * d) */
  lemma MulExchange<T(!new)>(r: Ring<T>, a: T, b: T, c: T, d: T)
    requires IsRing(r)
    ensures r.mul(r.mul(a, b), r.mul(c, d)) == r.mul(r.mul(a, c), r.mul(b, d))
  {
    assert MulAssoc(r, a, b, r.mul(c, d));
    assert MulAssoc(r, b, c, d) && MulComm(r, b, c) && MulAssoc(r, c, b, d);
    assert MulAssoc(r, a, c, r.mul(b, d));
  }

  lemma AddCancel<T(!new)>(r: Ring<T>, a: T, b: T, c: T)
    requires IsRing(r)
    requires r.add(a, b) == r.add(a, c)
    ensures b == c
  {
    forall x ensures r.add(r.neg(a), r.add(a, x)) == x {
      assert AddAssoc(r, r.neg(a), a, x) && AddComm(r, r.neg(a), a) && AddNeg(r, a) && AddZero(r, x);
    }
    assert r.add(r.neg(a), r.add(a, b)) == b;
    assert r.add(r.neg(a), r.add(a, c)) == c;
  }

  lemma MulZero<T(!new)>(r: Ring<T>, a: T)
    requires IsRing(r)
    ensures r.mul(a, r.zero) == r.zero
    ensures r.mul(r.zero, a) == r.zero
  {
    var p := r.mul(a, r.zero);
    assert AddZero(r, r.zero) && Distrib(r, a, r.zero, r.zero);
    assert AddZero(r, p) && AddComm(r, r.zero, p);
    AddCancel(r, p, p, r.zero);
    assert MulComm(r, a, r.zero);
  }

  lemma MulNeg<T(!new)>(r: Ring<T>, a: T, b: T)
    requires IsRing(r)
    ensures r.mul(r.neg(a), b) == r.neg(r.mul(a, b))
    ensures r.mul(a, r.neg(b)) == r.neg(r.mul(a, b))
  {
    assert Distrib(r, b, a, r.neg(a)) && AddNeg(r, a) && MulComm(r, a, b) && MulComm(r, r.neg(a), b);
    MulZero(r, b);
    assert AddNeg(r, r.mul(a, b));
    AddCancel(r, r.mul(a, b), r.mul(r.neg(a), b), r.neg(r.mul(a, b)));
    assert Distrib(r, a, b, r.neg(b)) && AddNeg(r, b);
    MulZero(r, a);
    AddCancel(r, r.mul(a, b), r.mul(a, r.neg(b)), r.neg(r.mul(a, b)));
  }

  lemma NegNeg<T(!new)>(r: Ring<T>, a: T)
    requires IsRing(r)
    ensures r.neg(r.neg(a)) == a
  {
    assert AddNeg(r, a) && AddNeg(r, r.neg(a)) && AddComm(r, a, r.neg(a));
    AddCancel(r, r.neg(a), r.neg(r.neg(a)), a);
  }

  function Pow<T>(r: Ring<T>, a: T, e: nat): T {
    if e == 0 then r.one else r.mul(a, Pow(r, a, e - 1))
  }

  lemma {:induction false} PowAdd<T(!new)>(r: Ring<T>, a: T, d: nat, e: nat)
    requires IsRing(r)
    ensures Pow(r, a, d + e) == r.mul(Pow(r, a, d), Pow(r, a, e))
  {
    if d == 0 {
      assert MulOne(r, Pow(r, a, e));
    } else {
      PowAdd(r, a, d - 1, e);
      assert MulAssoc(r, a, Pow(r, a, d - 1), Pow(r, a, e));
    }
  }

  /** (a * b)^e == a^e * b^e */
  lemma {:induction false} PowProduct<T(!new)>(r: Ring<T>, a: T, b: T, e: nat)
    requires IsRing(r)
    ensures Pow(r, r.mul(a, b), e) == r.mul(Pow(r, a, e), Pow(r, b, e))
  {
    if e == 0 {
      assert MulOne(r, r.one);
    } else {
      PowProduct(r, a, b, e - 1);
      MulExchange(r, a, b, Pow(r, a, e - 1), Pow(r, b, e - 1));
    }
  }

  /** (a^d)^e == a^(d * e) */
  lemma {:induction false} PowPow<T(!new)>(r: Ring<T>, a: T, d: nat, e: nat)
    requires IsRing(r)
    ensures d * e >= 0
    ensures Pow(r, Pow(r, a, d), e) == Pow(r, a, d * e)
  {
    if e == 0 {
      assert d * e == 0;
    } else {
      PowPow(r, a, d, e - 1);
      PowAdd(r, a, d, d * (e - 1));
      assert d + d * (e - 1) == d * e;
    }
  }

  // ---- the complex numbers with exact parts

  datatype Complex = Complex(re: real, im: real)

  function ComplexAdd(a: Complex, b: Complex): Complex {
    Complex(a.re + b.re, a.im + b.im)
  }

  function ComplexNeg(a: Complex): Complex {
    Complex(-a.re, -a.im)
  }

  /** The product as the tensor kernel forms it, from four slices. */
  function MulComplex4(a: Complex, b: Complex): Complex {
    var real_ := a.re * b.re - a.im * b.im;
    var imag := a.re * b.im + a.im * b.re;
    Complex(real_, imag)
  }

  const COMPLEX: Ring<Complex> :=
    Ring(Complex(0.0, 0.0), Complex(1.0, 0.0), (a, b) => ComplexAdd(a, b), a => ComplexNeg(a),
         (a, b) => MulComplex4(a, b))

  lemma ComplexMulAssoc(a: Complex, b: Complex, c: Complex)
    ensures MulComplex4(MulComplex4(a, b), c) == MulComplex4(a, MulComplex4(b, c))
  {
  }

  lemma ComplexDistrib(a: Complex, b: Complex, c: Complex)
    ensures MulComplex4(a, ComplexAdd(b, c)) == ComplexAdd(MulComplex4(a, b), MulComplex4(a, c))
  {
  }

  /** The product of `mul_complex4` makes the complex numbers a commutative ring. */
  lemma ComplexIsRing()
    ensures IsRing(COMPLEX)
  {
    forall a, b, c ensures MulAssoc(COMPLEX, a, b, c) { ComplexMulAssoc(a, b, c); }
    forall a, b, c ensures Distrib(COMPLEX, a, b, c) { ComplexDistrib(a, b, c); }
    forall a, b ensures MulComm(COMPLEX, a, b) { }
    forall a, b, c ensures AddAssoc(COMPLEX, a, b, c) { }
    forall a, b ensures AddComm(COMPLEX, a, b) { }
    forall a ensures AddZero(COMPLEX, a) { }
    forall a ensures AddNeg(COMPLEX, a) { }
    forall a ensures MulOne(COMPLEX, a) { }
  }
}
