/** Polynomials over GF(2) as bit strings, highest power first: products, long division, and the shift
  register that divides one bit at a time. */
module Gf2 {

  type Bits = seq<bool>

  function Xor(a: Bits, b: Bits): (c: Bits)
    requires |a| == |b|
    ensures |c| == |a|
    ensures forall i :: 0 <= i < |c| ==> c[i] == (a[i] != b[i])
  {
    seq(|a|, i requires 0 <= i < |a| => a[i] != b[i])
  }

  function Zeros(n: nat): (z: Bits)
    ensures |z| == n
    ensures forall i :: 0 <= i < n ==> !z[i]
  {
    seq(n, i => false)
  }

  function Coeff(g: Bits, j: int): bool {
    0 <= j < |g| && g[j]
  }

  /** Coefficient `k` of the product, summing over the first `n` coefficients of `q`. */
  function Conv(q: Bits, g: Bits, k: int, n: nat): bool
    requires n <= |q|
  {
    if n == 0 then false else Conv(q, g, k, n - 1) != (q[n - 1] && Coeff(g, k - (n - 1)))
  }

  function Mul(q: Bits, g: Bits): (p: Bits)
    requires g != []
  {
    seq(|q| + |g| - 1, k requires 0 <= k < |q| + |g| - 1 => Conv(q, g, k, |q|))
  }

  /** `b` is a multiple of `g`. */
  ghost predicate Divides(g: Bits, b: Bits)
    requires g != []
  {
    exists q: Bits :: |q| + |g| - 1 == |b| && b == Mul(q, g)
  }

  lemma {:induction false} ConvPrefix(q: Bits, q': Bits, g: Bits, k: int, n: nat)
    requires n <= |q| && n <= |q'| && q[..n] == q'[..n]
    ensures Conv(q, g, k, n) == Conv(q', g, k, n)
  {
    if n > 0 {
      assert q[..n - 1] == q[..n][..n - 1] && q'[..n - 1] == q'[..n][..n - 1];
      assert q[n - 1] == q[..n][n - 1] && q'[n - 1] == q'[..n][n - 1];
      ConvPrefix(q, q', g, k, n - 1);
    }
  }

  /** Terms past coefficient `k`, or further below it than g's degree, add nothing. */
  lemma {:induction false} ConvStable(q: Bits, g: Bits, k: nat, m: nat, n: nat)
    requires m <= n <= |q| && k < m
    ensures Conv(q, g, k, n) == Conv(q, g, k, m)
  {
    if m < n {
      ConvStable(q, g, k, m, n - 1);
    }
  }

  lemma {:induction false} ConvBelow(q: Bits, g: Bits, k: int, n: nat)
    requires n <= |q| && k >= n + |g| - 1
    ensures !Conv(q, g, k, n)
  {
    if n > 0 {
      ConvBelow(q, g, k, n - 1);
    }
  }

  lemma {:induction false} ConvLinear(p: Bits, q: Bits, g: Bits, k: int, n: nat)
    requires |p| == |q| && n <= |q|
    ensures Conv(Xor(p, q), g, k, n) == (Conv(p, g, k, n) != Conv(q, g, k, n))
  {
    if n > 0 {
      ConvLinear(p, q, g, k, n - 1);
    }
  }

  // ---- long division

  /** The first `n` coefficients of the quotient, each chosen to clear the leading bit. */
  function Quotient(b: Bits, g: Bits, n: nat): (q: Bits)
    requires n <= |b|
    ensures |q| == n
  {
    if n == 0 then []
    else
      var q := Quotient(b, g, n - 1);
      q + [b[n - 1] != Conv(q, g, n - 1, n - 1)]
  }

  /** What long division leaves: the low |g| - 1 coefficients. */
  function Remainder(b: Bits, g: Bits): (r: Bits)
    requires g != [] && |b| >= |g| - 1
    ensures |r| == |g| - 1
  {
    var n := |b| - (|g| - 1);
    var q := Quotient(b, g, n);
    seq(|g| - 1, j requires 0 <= j < |g| - 1 => b[n + j] != Conv(q, g, n + j, n))
  }

  lemma RemainderAt(b: Bits, g: Bits, j: nat)
    requires g != [] && |b| >= |g| - 1 && j < |g| - 1
    ensures var n := |b| - (|g| - 1);
            Remainder(b, g)[j] == (b[n + j] != Conv(Quotient(b, g, n), g, n + j, n))
  {
  }

  lemma {:induction false} QuotientPrefix(b: Bits, g: Bits, m: nat, n: nat)
    requires m <= n <= |b|
    ensures Quotient(b, g, n)[..m] == Quotient(b, g, m)
  {
    if m < n {
      QuotientPrefix(b, g, m, n - 1);
      assert Quotient(b, g, n)[..m] == Quotient(b, g, n - 1)[..m];
    } else {
      assert Quotient(b, g, n)[..n] == Quotient(b, g, n);
    }
  }

  /** The quotient clears every high coefficient. */
  lemma {:induction false} QuotientClears(b: Bits, g: Bits, n: nat, k: nat)
    requires g != [] && g[0] && k < n <= |b|
    ensures Conv(Quotient(b, g, n), g, k, n) == b[k]
  {
    var q := Quotient(b, g, n);
    QuotientPrefix(b, g, k, n);
    QuotientPrefix(b, g, k + 1, n);
    assert q[k] == q[..k + 1][k] == Quotient(b, g, k + 1)[k];
    ConvPrefix(q, Quotient(b, g, k), g, k, k);
    ConvStable(q, g, k, k + 1, n);
  }

  /** b = q g + r at coefficient `k`, with `r` in the low places. */
  ghost predicate DivisionAt(b: Bits, g: Bits, q: Bits, r: Bits, k: nat)
    requires k < |b|
  {
    b[k] == (Conv(q, g, k, |q|) != Coeff(r, k - |q|))
  }

  /** b = q g + r. */
  ghost predicate Division(b: Bits, g: Bits, q: Bits, r: Bits) {
    && g != [] && |r| == |g| - 1 && |q| + |r| == |b|
    && forall k :: 0 <= k < |b| ==> DivisionAt(b, g, q, r, k)
  }

  lemma LongDivisionAt(b: Bits, g: Bits, k: nat)
    requires g != [] && g[0] && |b| >= |g| - 1 && k < |b|
    ensures DivisionAt(b, g, Quotient(b, g, |b| - (|g| - 1)), Remainder(b, g), k)
  {
    if k < |b| - (|g| - 1) {
      LongDivisionClears(b, g, k);
    } else {
      LongDivisionLeaves(b, g, k);
    }
  }

  lemma LongDivisionClears(b: Bits, g: Bits, k: nat)
    requires g != [] && g[0] && |b| >= |g| - 1 && k < |b| - (|g| - 1)
    ensures DivisionAt(b, g, Quotient(b, g, |b| - (|g| - 1)), Remainder(b, g), k)
  {
    var n := |b| - (|g| - 1);
    QuotientClears(b, g, n, k);
    NoCoeff(Remainder(b, g), k - n);
  }

  lemma LongDivisionLeaves(b: Bits, g: Bits, k: nat)
    requires g != [] && |b| >= |g| - 1 && |b| - (|g| - 1) <= k < |b|
    ensures DivisionAt(b, g, Quotient(b, g, |b| - (|g| - 1)), Remainder(b, g), k)
  {
    var n := |b| - (|g| - 1);
    RemainderAt(b, g, k - n);
    CoeffAt(Remainder(b, g), k - n);
  }

  lemma NoCoeff(r: Bits, j: int)
    requires j < 0
    ensures !Coeff(r, j)
  {
  }

  lemma CoeffAt(r: Bits, j: nat)
    requires j < |r|
    ensures Coeff(r, j) == r[j]
  {
  }

  lemma DivisionIdentity(b: Bits, g: Bits)
    requires g != [] && g[0] && |b| >= |g| - 1
    ensures Division(b, g, Quotient(b, g, |b| - (|g| - 1)), Remainder(b, g))
  {
    var q, r := Quotient(b, g, |b| - (|g| - 1)), Remainder(b, g);
    forall k | 0 <= k < |b| ensures DivisionAt(b, g, q, r, k) {
      LongDivisionAt(b, g, k);
    }
  }

  /** No other quotient and remainder will do. */
  lemma DivisionUnique(b: Bits, g: Bits, q: Bits, r: Bits)
    requires Division(b, g, q, r) && g[0]
    ensures q == Quotient(b, g, |q|) && r == Remainder(b, g)
  {
    QuotientForced(b, g, q, r, |q|);
    assert q[..|q|] == q;
    forall j | 0 <= j < |r| ensures r[j] == Remainder(b, g)[j] {
      assert DivisionAt(b, g, q, r, |q| + j);
    }
  }

  lemma {:induction false} QuotientForced(b: Bits, g: Bits, q: Bits, r: Bits, n: nat)
    requires Division(b, g, q, r) && g[0] && n <= |q|
    ensures q[..n] == Quotient(b, g, n)
  {
    if n > 0 {
      QuotientForced(b, g, q, r, n - 1);
      assert DivisionAt(b, g, q, r, n - 1);
      ConvStable(q, g, n - 1, n, |q|);
      ConvPrefix(q, Quotient(b, g, n - 1), g, n - 1, n - 1);
      assert q[..n] == q[..n - 1] + [q[n - 1]];
    }
  }

  lemma MulIffDivision(b: Bits, g: Bits, q: Bits)
    requires g != [] && |q| + |g| - 1 == |b|
    ensures b == Mul(q, g) <==> Division(b, g, q, Zeros(|g| - 1))
  {
    if Division(b, g, q, Zeros(|g| - 1)) {
      forall k | 0 <= k < |b| ensures b[k] == Mul(q, g)[k] {
        assert DivisionAt(b, g, q, Zeros(|g| - 1), k);
        assert !Coeff(Zeros(|g| - 1), k - |q|);
      }
    }
    if b == Mul(q, g) {
      var z := Zeros(|g| - 1);
      forall k | 0 <= k < |b| ensures DivisionAt(b, g, q, z, k) {
        assert !Coeff(z, k - |q|);
      }
    }
  }

  /** Divisibility is exactly a remainder of zero. */
  lemma DividesIffRemainderZero(g: Bits, b: Bits)
    requires g != [] && g[0] && |b| >= |g| - 1
    ensures Divides(g, b) <==> Remainder(b, g) == Zeros(|g| - 1)
  {
    var n := |b| - (|g| - 1);
    if Remainder(b, g) == Zeros(|g| - 1) {
      DivisionIdentity(b, g);
      MulIffDivision(b, g, Quotient(b, g, n));
    }
    if Divides(g, b) {
      var q :| |q| + |g| - 1 == |b| && b == Mul(q, g);
      MulIffDivision(b, g, q);
      DivisionUnique(b, g, q, Zeros(|g| - 1));
    }
  }

  lemma {:induction false} QuotientLinear(a: Bits, b: Bits, g: Bits, n: nat)
    requires |a| == |b| && n <= |a|
    ensures Quotient(Xor(a, b), g, n) == Xor(Quotient(a, g, n), Quotient(b, g, n))
  {
    if n > 0 {
      QuotientLinear(a, b, g, n - 1);
      ConvLinear(Quotient(a, g, n - 1), Quotient(b, g, n - 1), g, n - 1, n - 1);
    }
  }

  lemma RemainderLinear(a: Bits, b: Bits, g: Bits)
    requires g != [] && |a| == |b| && |a| >= |g| - 1
    ensures Remainder(Xor(a, b), g) == Xor(Remainder(a, g), Remainder(b, g))
  {
    var n := |a| - (|g| - 1);
    QuotientLinear(a, b, g, n);
    forall j | 0 <= j < |g| - 1
      ensures Remainder(Xor(a, b), g)[j] == Xor(Remainder(a, g), Remainder(b, g))[j]
    {
      ConvLinear(Quotient(a, g, n), Quotient(b, g, n), g, n + j, n);
    }
  }

  // ---- errors a generator detects

  /** Some bit is set, and all set bits lie within `w` consecutive places. */
  ghost predicate IsBurst(e: Bits, w: nat) {
    && true in e
    && exists s: nat :: Within(e, s, w)
  }

  ghost predicate Within(e: Bits, s: nat, w: nat) {
    forall k :: 0 <= k < |e| && e[k] ==> s <= k < s + w
  }

  lemma {:induction false} FirstSet(q: Bits) returns (i: nat)
    requires true in q
    ensures i < |q| && q[i] && forall k :: 0 <= k < i ==> !q[k]
  {
    if q[0] {
      i := 0;
    } else {
      var j := FirstSet(q[1..]);
      i := j + 1;
      forall k | 0 <= k < i ensures !q[k] {
        if k > 0 { assert !q[1..][k - 1]; }
      }
    }
  }

  lemma {:induction false} LastSet(q: Bits) returns (i: nat)
    requires true in q
    ensures i < |q| && q[i] && forall k :: i < k < |q| ==> !q[k]
  {
    var n := |q| - 1;
    if q[n] {
      i := n;
    } else {
      i := LastSet(q[..n]);
      forall k | i < k < |q| ensures !q[k] {
        if k < n { assert !q[..n][k]; }
      }
    }
  }

  lemma {:induction false} ConvAllZero(q: Bits, g: Bits, k: int, n: nat)
    requires n <= |q| && forall i :: 0 <= i < n ==> !(q[i] && Coeff(g, k - i))
    ensures !Conv(q, g, k, n)
  {
    if n > 0 {
      ConvAllZero(q, g, k, n - 1);
    }
  }

  /** Only the term at `i` contributes. */
  lemma {:induction false} ConvSingle(q: Bits, g: Bits, k: int, i: nat, n: nat)
    requires i < n <= |q| && forall j :: 0 <= j < n && j != i ==> !(q[j] && Coeff(g, k - j))
    ensures Conv(q, g, k, n) == (q[i] && Coeff(g, k - i))
  {
    if i == n - 1 {
      ConvAllZero(q, g, k, n - 1);
    } else {
      ConvSingle(q, g, k, i, n - 1);
    }
  }

  /** In a nonzero multiple of a generator with both end coefficients set, two set bits are at least the
    generator's degree apart. */
  lemma MultipleSpan(g: Bits, q: Bits) returns (i: nat, j: nat)
    requires g != [] && g[0] && g[|g| - 1] && true in q
    ensures i + |g| - 1 <= j < |q| + |g| - 1
    ensures Mul(q, g)[i] && Mul(q, g)[j]
  {
    i := FirstSet(q);
    ConvSingle(q, g, i, i, |q|);
    var last := LastSet(q);
    j := last + |g| - 1;
    ConvSingle(q, g, j, last, |q|);
  }

  lemma ZeroMultiple(g: Bits, q: Bits)
    requires g != [] && true !in q
    ensures true !in Mul(q, g)
  {
    forall k | 0 <= k < |Mul(q, g)| ensures !Mul(q, g)[k] {
      ConvAllZero(q, g, k, |q|);
    }
  }

  /** Such a multiple is too wide to be a burst of the generator's degree. */
  lemma NoShortMultiple(g: Bits, e: Bits)
    requires g != [] && g[0] && g[|g| - 1] && |e| >= |g| - 1
    requires IsBurst(e, |g| - 1)
    ensures !Divides(g, e)
  {
    if Divides(g, e) {
      var q: Bits :| |q| + |g| - 1 == |e| && e == Mul(q, g);
      var s: nat :| Within(e, s, |g| - 1);
      if true in q {
        var i, j := MultipleSpan(g, q);
        assert false;
      } else {
        ZeroMultiple(g, q);
        assert false;
      }
    }
  }

  function Parity(b: Bits): bool {
    if b == [] then false else Parity(b[..|b| - 1]) != b[|b| - 1]
  }

  lemma {:induction false} ParityXor(a: Bits, b: Bits)
    requires |a| == |b|
    ensures Parity(Xor(a, b)) == (Parity(a) != Parity(b))
  {
    if a != [] {
      var n := |a| - 1;
      ParityXor(a[..n], b[..n]);
      assert Xor(a, b)[..n] == Xor(a[..n], b[..n]);
    }
  }

  lemma {:induction false} ParityConcat(a: Bits, b: Bits)
    ensures Parity(a + b) == (Parity(a) != Parity(b))
  {
    if b == [] {
      assert a + b == a;
    } else {
      ParityConcat(a, b[..|b| - 1]);
      assert (a + b)[..|a + b| - 1] == a + b[..|b| - 1];
    }
  }

  lemma ParityOfFour(a: bool, b: bool, c: bool, d: bool)
    ensures Parity([a, b, c, d]) == (((a != b) != c) != d)
  {
    assert [a, b, c, d][..3] == [a, b, c];
    assert [a, b, c][..2] == [a, b];
    assert [a, b][..1] == [a];
    assert [a][..0] == [];
    assert Parity([a]) == a;
    assert Parity([a, b]) == (a != b);
    assert Parity([a, b, c]) == ((a != b) != c);
  }

  lemma {:induction false} ParityZeros(n: nat)
    ensures !Parity(Zeros(n))
  {
    if n > 0 {
      ParityZeros(n - 1);
      assert Zeros(n)[..n - 1] == Zeros(n - 1);
    }
  }

  /** The product summed over the first `n` coefficients of `q` only. */
  function PartialMul(q: Bits, g: Bits, n: nat): (p: Bits)
    requires g != [] && n <= |q|
    ensures |p| == |q| + |g| - 1
  {
    seq(|q| + |g| - 1, k requires 0 <= k < |q| + |g| - 1 => Conv(q, g, k, n))
  }

  lemma {:induction false} ParityMul(q: Bits, g: Bits, n: nat)
    requires g != [] && n <= |q| && !Parity(g)
    ensures !Parity(PartialMul(q, g, n))
  {
    if n == 0 {
      assert PartialMul(q, g, 0) == Zeros(|q| + |g| - 1);
      ParityZeros(|q| + |g| - 1);
    } else {
      ParityMul(q, g, n - 1);
      if q[n - 1] {
        var shifted := Zeros(n - 1) + g + Zeros(|q| - n);
        PartialMulStep(q, g, n);
        ParityXor(PartialMul(q, g, n - 1), shifted);
        ParityConcat(Zeros(n - 1) + g, Zeros(|q| - n));
        ParityConcat(Zeros(n - 1), g);
        ParityZeros(n - 1);
        ParityZeros(|q| - n);
      } else {
        assert PartialMul(q, g, n) == PartialMul(q, g, n - 1);
      }
    }
  }

  lemma PartialMulStep(q: Bits, g: Bits, n: nat)
    requires g != [] && 0 < n <= |q| && q[n - 1]
    ensures PartialMul(q, g, n) == Xor(PartialMul(q, g, n - 1), Zeros(n - 1) + g + Zeros(|q| - n))
  {
    var shifted := Zeros(n - 1) + g + Zeros(|q| - n);
    forall k | 0 <= k < |q| + |g| - 1 ensures shifted[k] == Coeff(g, k - (n - 1)) {
    }
  }

  /** A multiple of a generator with an even number of terms has an even number of set bits. */
  lemma MultiplesAreEven(g: Bits, b: Bits)
    requires g != [] && !Parity(g) && Divides(g, b)
    ensures !Parity(b)
  {
    var q: Bits :| |q| + |g| - 1 == |b| && b == Mul(q, g);
    ParityMul(q, g, |q|);
    assert PartialMul(q, g, |q|) == b;
  }

  // ---- the shift register

  /** One clock of the register: the bit leaving at the top, xored with the message bit, feeds back. */
  function Clock(reg: Bits, bit: bool, g: Bits): (next: Bits)
    requires |g| == |reg| + 1 && reg != []
    ensures |next| == |reg|
  {
    var shifted := reg[1..] + [false];
    if reg[0] != bit then Xor(shifted, g[1..]) else shifted
  }

  function RunFrom(reg: Bits, m: Bits, g: Bits): (end: Bits)
    requires |g| == |reg| + 1 && reg != []
    ensures |end| == |reg|
  {
    if m == [] then reg else Clock(RunFrom(reg, m[..|m| - 1], g), m[|m| - 1], g)
  }

  function Register(m: Bits, g: Bits): (end: Bits)
    requires |g| >= 2
    ensures |end| == |g| - 1
  {
    RunFrom(Zeros(|g| - 1), m, g)
  }

  lemma {:induction false} RunConcat(reg: Bits, a: Bits, b: Bits, g: Bits)
    requires |g| == |reg| + 1 && reg != []
    ensures RunFrom(reg, a + b, g) == RunFrom(RunFrom(reg, a, g), b, g)
  {
    if b == [] {
      assert a + b == a;
    } else {
      RunConcat(reg, a, b[..|b| - 1], g);
      assert (a + b)[..|a + b| - 1] == a + b[..|b| - 1];
    }
  }

  /** The register holds the contribution of the quotient so far to the places below the message. */
  lemma {:induction false} RegisterIsConv(m: Bits, b: Bits, g: Bits)
    requires |g| >= 2 && |m| <= |b| && b[..|m|] == m
    ensures forall j :: 0 <= j < |g| - 1 ==>
              Register(m, g)[j] == Conv(Quotient(b, g, |m|), g, |m| + j, |m|)
  {
    if m == [] {
    } else {
      var n := |m| - 1;
      var q, q' := Quotient(b, g, n), Quotient(b, g, n + 1);
      assert b[..n] == m[..n];
      assert b[n] == m[n];
      RegisterIsConv(m[..n], b, g);
      var reg := Register(m[..n], g);
      var top := reg[0] != m[n];
      assert q' == q + [top];
      forall j | 0 <= j < |g| - 1
        ensures Register(m, g)[j] == Conv(q', g, n + 1 + j, n + 1)
      {
        ConvPrefix(q', q, g, n + 1 + j, n);
        if j == |g| - 2 {
          ConvBelow(q, g, n + 1 + j, n);
        } else {
          assert reg[1..][j] == reg[j + 1] == Conv(q, g, n + (j + 1), n);
        }
      }
    }
  }

  /** After the message `m` the register holds the remainder of m(x) x^w, and xoring it with the next w
    message bits gives the remainder of the message with those bits appended. */
  lemma RegisterIsRemainder(m: Bits, low: Bits, g: Bits)
    requires |g| >= 2 && |low| == |g| - 1
    ensures Remainder(m + low, g) == Xor(Register(m, g), low)
  {
    RegisterIsConv(m, m + low, g);
  }

  lemma RegisterIsShiftedRemainder(m: Bits, g: Bits)
    requires |g| >= 2
    ensures Register(m, g) == Remainder(m + Zeros(|g| - 1), g)
  {
    RegisterIsRemainder(m, Zeros(|g| - 1), g);
  }

  /** The bit clocked in can be read off when the register's new lowest place is clear. */
  lemma ClockBack(reg: Bits, bit: bool, g: Bits, rest: Bits)
    requires |g| == |reg| + 1 && reg != [] && g[|reg|]
    requires |rest| < |reg|
    ensures Clock(reg, bit, g) == rest + Zeros(|reg| - |rest|)
            <==> reg == [bit] + rest + Zeros(|reg| - |rest| - 1)
  {
    var w := |reg|;
    var next, goal := Clock(reg, bit, g), rest + Zeros(w - |rest|);
    var before := [bit] + rest + Zeros(w - |rest| - 1);
    assert goal == before[1..] + [false];
    assert next[w - 1] == (reg[0] != bit);
    if next == goal {
      assert reg[0] == bit && reg[1..] == next[..w - 1] == goal[..w - 1] == before[1..];
      assert reg == [reg[0]] + reg[1..];
    }
  }

  /** Clocking `low` through the register clears it exactly when the register held `low` at its top and
    nothing below. */
  lemma {:induction false} Residue(reg: Bits, low: Bits, g: Bits)
    requires |g| == |reg| + 1 && reg != [] && g[|reg|] && |low| <= |reg|
    ensures RunFrom(reg, low, g) == Zeros(|reg|) <==> reg == low + Zeros(|reg| - |low|)
    decreases |low|
  {
    if low == [] {
      assert low + Zeros(|reg|) == Zeros(|reg|);
    } else {
      var bit, rest := low[0], low[1..];
      assert [bit] + rest == low && [bit][..0] == [];
      RunConcat(reg, [bit], rest, g);
      assert RunFrom(reg, [bit], g) == Clock(reg, bit, g);
      Residue(Clock(reg, bit, g), rest, g);
      ClockBack(reg, bit, g, rest);
    }
  }

  /** Appending the register's own content to the message, and nothing else, leaves a register of zero. */
  lemma AppendingTheCheck(m: Bits, low: Bits, g: Bits)
    requires |g| >= 2 && g[|g| - 1] && |low| == |g| - 1
    ensures Register(m + low, g) == Zeros(|g| - 1) <==> low == Register(m, g)
  {
    RunConcat(Zeros(|g| - 1), m, low, g);
    Residue(Register(m, g), low, g);
    assert low + Zeros(0) == low;
  }

  /** A zero register and divisibility are the same test, although the register multiplies by x^w. */
  lemma ZeroRegisterIffDivides(b: Bits, g: Bits)
    requires |g| >= 2 && g[0] && g[|g| - 1] && |b| >= |g| - 1
    ensures Register(b, g) == Zeros(|g| - 1) <==> Divides(g, b)
  {
    var n := |b| - (|g| - 1);
    var m, low := b[..n], b[n..];
    assert b == m + low;
    AppendingTheCheck(m, low, g);
    RegisterIsRemainder(m, low, g);
    DividesIffRemainderZero(g, b);
    if low == Register(m, g) {
      assert Xor(Register(m, g), low) == Zeros(|low|);
    }
    if Xor(Register(m, g), low) == Zeros(|low|) {
      forall i | 0 <= i < |low| ensures low[i] == Register(m, g)[i] {
        assert !Xor(Register(m, g), low)[i];
      }
    }
  }

  /** What a divisibility check catches: if `b` passes, `b` with a short burst or with an odd number of
    errors added does not. */
  lemma BurstsAndOddErrorsFail(g: Bits, b: Bits, e: Bits)
    requires g != [] && g[0] && |b| == |e| && |b| >= |g| - 1 && Divides(g, b)
    ensures g[|g| - 1] && IsBurst(e, |g| - 1) ==> !Divides(g, Xor(b, e))
    ensures !Parity(g) && Parity(e) ==> !Divides(g, Xor(b, e))
  {
    DividesIffRemainderZero(g, b);
    DividesIffRemainderZero(g, e);
    DividesIffRemainderZero(g, Xor(b, e));
    RemainderLinear(b, e, g);
    if Divides(g, Xor(b, e)) {
      forall j | 0 <= j < |g| - 1 ensures !Remainder(e, g)[j] {
        assert Remainder(Xor(b, e), g)[j] == (Remainder(b, g)[j] != Remainder(e, g)[j]);
      }
      assert Remainder(e, g) == Zeros(|g| - 1);
      if g[|g| - 1] && IsBurst(e, |g| - 1) {
        NoShortMultiple(g, e);
      }
      if !Parity(g) && Parity(e) {
        MultiplesAreEven(g, e);
      }
    }
  }
}
