/** The iterative radix-2 FFT of examples/burn/src/fft.rs, over any commutative ring that has
  principal 2^s-th roots of unity. */
module Fft {
  import opened Rings

  function Exp2(e: nat): (p: nat)
    ensures p >= 1
  {
    if e == 0 then 1 else 2 * Exp2(e - 1)
  }

  // ---- bit reversal

  /** bit * 2^n, for one bit. */
  function Scaled(bit: nat, n: nat): (v: nat)
  {
    if bit == 0 then 0 else Exp2(n)
  }

  /** Reverses the low `n` bits of `i`, defined from the top: the lowest bit becomes the highest. */
  function BitRev(n: nat, i: nat): (v: nat)
    ensures v < Exp2(n)
  {
    if n == 0 then 0 else Scaled(i % 2, n - 1) + BitRev(n - 1, i / 2)
  }

  /** Bit `b` of `i`. */
  function Bit(i: nat, b: nat): (v: nat)
    ensures v < 2
  {
    if b == 0 then i % 2 else Bit(i / 2, b - 1)
  }

  /** One step of the fold: appending bit `n` below the reversed low `n` bits. */
  lemma {:induction false} BitRevStep(n: nat, i: nat)
    ensures BitRev(n + 1, i) == 2 * BitRev(n, i) + Bit(i, n)
  {
    if n == 0 {
      assert BitRev(0, i / 2) == 0;
    } else {
      BitRevStep(n - 1, i / 2);
      assert BitRev(n + 1, i) == Scaled(i % 2, n) + BitRev(n, i / 2);
    }
  }

  /** With one more bit above the low `n`, the reversal of those `n` is as before. */
  lemma {:induction false} LowBits(n: nat, high: nat, low: nat)
    requires low < Exp2(n) && high < 2
    ensures BitRev(n, Scaled(high, n) + low) == BitRev(n, low)
    ensures Bit(Scaled(high, n) + low, n) == high
  {
    if n > 0 {
      var p := Scaled(high, n - 1);
      assert Scaled(high, n) == 2 * p;
      assert (2 * p + low) / 2 == p + low / 2 && (2 * p + low) % 2 == low % 2;
      LowBits(n - 1, high, low / 2);
    }
  }

  lemma {:induction false} BitRevInvolutive(n: nat, i: nat)
    requires i < Exp2(n)
    ensures BitRev(n, BitRev(n, i)) == i
  {
    if n > 0 {
      var low := BitRev(n - 1, i / 2);
      LowBits(n - 1, i % 2, low);
      BitRevStep(n - 1, BitRev(n, i));
      BitRevInvolutive(n - 1, i / 2);
      assert BitRev(n - 1, low) == i / 2;
    }
  }

  /** The fold of `bit_reversal_indices` for one index, lowest bit first. */
  method ReverseIndex(logN: nat, i: nat) returns (acc: nat)
    ensures acc == BitRev(logN, i)
  {
    acc := 0;
    for b := 0 to logN
      invariant acc == BitRev(b, i)
    {
      BitRevStep(b, i);
      acc := 2 * acc + Bit(i, b);
    }
  }

  /** `bit_reversal_indices`: the table of all 2^logN reversals, filled in place. */
  method BitReversalIndices(logN: nat) returns (rev: array<nat>)
    ensures fresh(rev)
    ensures IsBitReversal(logN, rev[..])
  {
    var n := Exp2(logN);
    rev := new nat[n](_ => 0);
    for i := 0 to n
      invariant forall j :: 0 <= j < i ==> rev[j] == BitRev(logN, j)
    {
      var v := ReverseIndex(logN, i);
      rev[i] := v;
    }
  }

  ghost predicate IsBitReversal(logN: nat, rev: seq<nat>) {
    |rev| == Exp2(logN) && forall i :: 0 <= i < |rev| ==> rev[i] == BitRev(logN, i)
  }

  function Gather<T>(x: seq<T>, rev: seq<nat>): (y: seq<T>)
    requires forall i :: 0 <= i < |rev| ==> rev[i] < |x|
  {
    seq(|rev|, i requires 0 <= i < |rev| => x[rev[i]])
  }

  /** The index table is a permutation of its own positions that undoes itself: gathering twice with
    it gives back the input, whatever the input. */
  lemma GatherTwice<T>(logN: nat, rev: seq<nat>, x: seq<T>)
    requires IsBitReversal(logN, rev) && |x| == Exp2(logN)
    ensures Gather(Gather(x, rev), rev) == x
    ensures forall i, j :: 0 <= i < j < |rev| ==> rev[i] != rev[j]
  {
    forall i | 0 <= i < |x| ensures rev[rev[i]] == i {
      BitRevInvolutive(logN, i);
    }
    forall i, j | 0 <= i < j < |rev| ensures rev[i] != rev[j] {
      assert rev[rev[i]] == i && rev[rev[j]] == j;
    }
  }

  // ---- the transform that is to be computed

  /** The value of the polynomial with coefficients `x` at the point `z`. */
  function Eval<T>(r: Ring<T>, x: seq<T>, z: T): T {
    if x == [] then r.zero else r.add(Eval(r, x[..|x| - 1], z), r.mul(x[|x| - 1], Pow(r, z, |x| - 1)))
  }

  /** The discrete Fourier transform of `x` for the root `w`. */
  function Dft<T>(r: Ring<T>, w: T, x: seq<T>): (y: seq<T>)
    ensures |y| == |x|
  {
    seq(|x|, k requires 0 <= k < |x| => Eval(r, x, Pow(r, w, k)))
  }

  /** The textbook sum: x[0] w^0 + x[1] w^k + ... + x[n-1] w^((n-1) k). */
  ghost function DftSum<T>(r: Ring<T>, w: T, x: seq<T>, k: nat): T {
    if x == [] then r.zero
    else
      var n: nat := |x| - 1;
      assert k * n >= 0;
      r.add(DftSum(r, w, x[..n], k), r.mul(x[n], Pow(r, w, k * n)))
  }

  lemma {:induction false} DftIsTheTextbookSum<T(!new)>(r: Ring<T>, w: T, x: seq<T>, k: nat)
    requires IsRing(r)
    ensures Eval(r, x, Pow(r, w, k)) == DftSum(r, w, x, k)
  {
    if x != [] {
      var n := |x| - 1;
      DftIsTheTextbookSum(r, w, x[..n], k);
      PowPow(r, w, k, n);
    }
  }

  /** Roots of unity for the sizes 1, 2, 4, ..., each the square of the next, with -1 at size 2.
    The twiddles exp(-2 pi i / 2^s) are such a table. */
  ghost predicate PrincipalRoots<T>(r: Ring<T>, roots: seq<T>) {
    && |roots| >= 1
    && roots[0] == r.one
    && (|roots| > 1 ==> roots[1] == r.neg(r.one))
    && forall s :: 0 <= s < |roots| - 1 ==> RootStep(r, roots, s)
  }

  ghost predicate RootStep<T>(r: Ring<T>, roots: seq<T>, s: nat)
    requires s + 1 < |roots|
  {
    r.mul(roots[s + 1], roots[s + 1]) == roots[s]
  }

  /** 1, -1 and -i are such roots, for transforms of up to four samples. */
  lemma FourthRoots(one: Complex, half: Complex, quarter: Complex)
    requires one == Complex(1.0, 0.0) && half == Complex(-1.0, 0.0) && quarter == Complex(0.0, -1.0)
    ensures PrincipalRoots(COMPLEX, [one, half, quarter])
  {
    HalfSquares(one, half);
    QuarterSquares(half, quarter);
    ThreeRoots(COMPLEX, one, half, quarter);
  }

  lemma HalfSquares(one: Complex, half: Complex)
    requires one == Complex(1.0, 0.0) && half == Complex(-1.0, 0.0)
    ensures COMPLEX.one == one && COMPLEX.neg(one) == half && COMPLEX.mul(half, half) == one
  {
  }

  lemma QuarterSquares(half: Complex, quarter: Complex)
    requires half == Complex(-1.0, 0.0) && quarter == Complex(0.0, -1.0)
    ensures COMPLEX.mul(quarter, quarter) == half
  {
  }

  lemma ThreeRoots<T>(r: Ring<T>, one: T, half: T, quarter: T)
    requires r.one == one && r.neg(one) == half && r.mul(half, half) == one && r.mul(quarter, quarter) == half
    ensures PrincipalRoots(r, [one, half, quarter])
  {
    var roots := [one, half, quarter];
    assert RootStep(r, roots, 0) && RootStep(r, roots, 1);
  }

  lemma {:induction false} HalfTurn<T(!new)>(r: Ring<T>, roots: seq<T>, s: nat)
    requires IsRing(r) && PrincipalRoots(r, roots) && s + 1 < |roots|
    ensures Pow(r, roots[s + 1], Exp2(s)) == r.neg(r.one)
  {
    var w := roots[s + 1];
    if s == 0 {
      assert Pow(r, w, 0) == r.one;
      assert Pow(r, w, 1) == r.mul(w, r.one);
      assert MulComm(r, w, r.one) && MulOne(r, w);
    } else {
      var h := Exp2(s - 1);
      HalfTurn(r, roots, s - 1);
      PowAdd(r, w, h, h);
      PowProduct(r, w, w, h);
      assert RootStep(r, roots, s);
      assert Exp2(s) == h + h;
    }
  }

  // ---- decimation in time

  function Evens<T>(x: seq<T>): (e: seq<T>)
    requires |x| % 2 == 0
  {
    seq(|x| / 2, j requires 0 <= j < |x| / 2 => x[2 * j])
  }

  function Odds<T>(x: seq<T>): (e: seq<T>)
    requires |x| % 2 == 0
  {
    seq(|x| / 2, j requires 0 <= j < |x| / 2 => x[2 * j + 1])
  }

  /** x(z) == evens(z^2) + z * odds(z^2) */
  lemma {:induction false} EvalSplit<T(!new)>(r: Ring<T>, x: seq<T>, z: T)
    requires IsRing(r) && |x| % 2 == 0
    ensures Eval(r, x, z) ==
            r.add(Eval(r, Evens(x), r.mul(z, z)), r.mul(Eval(r, Odds(x), r.mul(z, z)), z))
  {
    if x == [] {
      MulZero(r, z);
      assert AddZero(r, r.zero);
    } else {
      var n := |x| / 2 - 1;
      EvalSplit(r, x[..2 * n], z);
      HalvesSnoc(x);
      EvalSplitStep(r, x[..2 * n], x[2 * n], x[2 * n + 1], z);
    }
  }

  lemma EvalSplitStep<T(!new)>(r: Ring<T>, x: seq<T>, a: T, b: T, z: T)
    requires IsRing(r) && |x| % 2 == 0
    requires var zz := r.mul(z, z);
             Eval(r, x, z) == r.add(Eval(r, Evens(x), zz), r.mul(Eval(r, Odds(x), zz), z))
    ensures var zz := r.mul(z, z);
            Eval(r, x + [a, b], z) ==
            r.add(Eval(r, Evens(x) + [a], zz), r.mul(Eval(r, Odds(x) + [b], zz), z))
  {
    var zz, n := r.mul(z, z), |x| / 2;
    EvenPower(r, z, n);
    EvalSnoc2(r, x, a, b, z);
    EvalSnoc(r, Evens(x), a, zz);
    EvalSnoc(r, Odds(x), b, zz);
    TwoTerms(r, Eval(r, Evens(x), zz), Eval(r, Odds(x), zz), a, b, Pow(r, zz, n), z);
  }

  lemma HalvesSnoc<T>(x: seq<T>)
    requires |x| % 2 == 0 && x != []
    ensures var n := |x| / 2 - 1;
            && x == x[..2 * n] + [x[2 * n], x[2 * n + 1]]
            && Evens(x) == Evens(x[..2 * n]) + [x[2 * n]]
            && Odds(x) == Odds(x[..2 * n]) + [x[2 * n + 1]]
  {
  }

  lemma EvalSnoc<T>(r: Ring<T>, x: seq<T>, a: T, z: T)
    ensures Eval(r, x + [a], z) == r.add(Eval(r, x, z), r.mul(a, Pow(r, z, |x|)))
  {
    assert (x + [a])[..|x|] == x;
  }

  lemma EvalSnoc2<T>(r: Ring<T>, x: seq<T>, a: T, b: T, z: T)
    ensures Eval(r, x + [a, b], z) ==
            r.add(r.add(Eval(r, x, z), r.mul(a, Pow(r, z, |x|))), r.mul(b, r.mul(z, Pow(r, z, |x|))))
  {
    EvalSnoc(r, x, a, z);
    EvalSnoc(r, x + [a], b, z);
    assert x + [a, b] == (x + [a]) + [b];
  }

  /** ((e + o z) + a p) + b (z p) == (e + a p) + (o + b p) z */
  lemma TwoTerms<T(!new)>(r: Ring<T>, e: T, o: T, a: T, b: T, p: T, z: T)
    requires IsRing(r)
    ensures r.add(r.add(r.add(e, r.mul(o, z)), r.mul(a, p)), r.mul(b, r.mul(z, p))) ==
            r.add(r.add(e, r.mul(a, p)), r.mul(r.add(o, r.mul(b, p)), z))
  {
    var even, odd := r.mul(a, p), r.mul(b, p);
    assert MulComm(r, z, p) && MulAssoc(r, b, p, z);
    assert AddAssoc(r, r.add(e, r.mul(o, z)), even, r.mul(odd, z));
    AddExchange(r, e, r.mul(o, z), even, r.mul(odd, z));
    assert Distrib(r, z, o, odd) && MulComm(r, z, r.add(o, odd)) && MulComm(r, z, o) && MulComm(r, z, odd);
  }

  lemma EvenPower<T(!new)>(r: Ring<T>, z: T, n: nat)
    requires IsRing(r)
    ensures Pow(r, z, 2 * n) == Pow(r, r.mul(z, z), n)
  {
    PowAdd(r, z, n, n);
    PowProduct(r, z, z, n);
    assert 2 * n == n + n;
  }

  /** One stage on one block: the halves hold the transforms of the even and odd samples. */
  function Butterfly<T>(r: Ring<T>, block: seq<T>, tw: seq<T>): (y: seq<T>)
    requires |block| == 2 * |tw|
    ensures |y| == |block|
  {
    var half := |tw|;
    var even, odd := block[..half], block[half..];
    var oddT := seq(half, k requires 0 <= k < half => r.mul(odd[k], tw[k]));
    var top := seq(half, k requires 0 <= k < half => r.add(even[k], oddT[k]));
    var bottom := seq(half, k requires 0 <= k < half => r.Sub(even[k], oddT[k]));
    top + bottom
  }

  /** `generate_stage_twiddles`, with the principal root in place of exp(-2 pi i / m). */
  function StageTwiddles<T>(r: Ring<T>, root: T, stage: nat): (tw: seq<T>)
    ensures |tw| == Exp2(stage) / 2
  {
    var m := Exp2(stage);
    var half := m / 2;
    seq(half, k requires 0 <= k < half => Pow(r, root, k))
  }

  /** The pair of outputs of the butterfly at place `k`. */
  ghost predicate Paired<T>(r: Ring<T>, e: seq<T>, o: seq<T>, tw: seq<T>, z: seq<T>, k: nat)
    requires |e| == |o| == |tw| && |z| == 2 * |tw| && k < |tw|
  {
    && z[k] == r.add(e[k], r.mul(o[k], tw[k]))
    && z[|tw| + k] == r.Sub(e[k], r.mul(o[k], tw[k]))
  }

  lemma ButterflyPaired<T>(r: Ring<T>, e: seq<T>, o: seq<T>, tw: seq<T>, z: seq<T>)
    requires |e| == |o| == |tw| && |z| == 2 * |tw|
    requires forall k :: 0 <= k < |tw| ==> Paired(r, e, o, tw, z, k)
    ensures Butterfly(r, e + o, tw) == z
  {
    assert (e + o)[..|tw|] == e && (e + o)[|tw|..] == o;
    var y := Butterfly(r, e + o, tw);
    forall i | 0 <= i < |z| ensures y[i] == z[i] {
      assert Paired(r, e, o, tw, z, if i < |tw| then i else i - |tw|);
    }
  }

  /** The value of `x` at -z. */
  lemma EvalOpposite<T(!new)>(r: Ring<T>, x: seq<T>, z: T)
    requires IsRing(r) && |x| % 2 == 0
    ensures Eval(r, x, r.neg(z)) ==
            r.Sub(Eval(r, Evens(x), r.mul(z, z)), r.mul(Eval(r, Odds(x), r.mul(z, z)), z))
  {
    NegSquare(r, z);
    EvalSplit(r, x, r.neg(z));
    MulNeg(r, Eval(r, Odds(x), r.mul(z, z)), z);
  }

  /** `w` turns half a circle in `h` steps and is a square root of `w2`. */
  ghost predicate HalfRoot<T>(r: Ring<T>, w: T, w2: T, h: nat) {
    r.mul(w, w) == w2 && Pow(r, w, h) == r.neg(r.one)
  }

  /** The two values of `x` a butterfly forms, at w^k and at w^(h+k) = -w^k. */
  ghost predicate PointPair<T>(r: Ring<T>, w: T, w2: T, h: nat, x: seq<T>, k: nat)
    requires |x| % 2 == 0
  {
    var e := Eval(r, Evens(x), Pow(r, w2, k));
    var oz := r.mul(Eval(r, Odds(x), Pow(r, w2, k)), Pow(r, w, k));
    && Eval(r, x, Pow(r, w, k)) == r.add(e, oz)
    && Eval(r, x, Pow(r, w, h + k)) == r.Sub(e, oz)
  }

  lemma PointsPair<T(!new)>(r: Ring<T>, w: T, w2: T, h: nat, x: seq<T>, k: nat)
    requires IsRing(r) && HalfRoot(r, w, w2, h) && |x| % 2 == 0
    ensures PointPair(r, w, w2, h, x, k)
  {
    PowProduct(r, w, w, k);
    EvalSplit(r, x, Pow(r, w, k));
    OppositePoint(r, w, w2, h, k);
    EvalOpposite(r, x, Pow(r, w, k));
  }

  lemma DftUpper<T>(r: Ring<T>, w: T, w2: T, x: seq<T>, h: nat, z: T, k: nat)
    requires |x| == 2 * h && k < h && z == Pow(r, w, k)
    requires var z2 := Pow(r, w2, k);
             Eval(r, x, z) == r.add(Eval(r, Evens(x), z2), r.mul(Eval(r, Odds(x), z2), z))
    ensures Dft(r, w, x)[k] == r.add(Dft(r, w2, Evens(x))[k], r.mul(Dft(r, w2, Odds(x))[k], z))
  {
    DftAt(r, w2, Evens(x), k);
    DftAt(r, w2, Odds(x), k);
    DftAt(r, w, x, k);
  }

  lemma DftLower<T>(r: Ring<T>, w: T, w2: T, x: seq<T>, h: nat, z: T, k: nat)
    requires |x| == 2 * h && k < h && z == Pow(r, w, k)
    requires var z2 := Pow(r, w2, k);
             Eval(r, x, Pow(r, w, h + k)) == r.Sub(Eval(r, Evens(x), z2), r.mul(Eval(r, Odds(x), z2), z))
    ensures Dft(r, w, x)[h + k] == r.Sub(Dft(r, w2, Evens(x))[k], r.mul(Dft(r, w2, Odds(x))[k], z))
  {
    DftAt(r, w2, Evens(x), k);
    DftAt(r, w2, Odds(x), k);
    DftAt(r, w, x, h + k);
  }

  lemma DftPaired<T(!new)>(r: Ring<T>, w: T, w2: T, x: seq<T>, tw: seq<T>, k: nat)
    requires IsRing(r) && HalfRoot(r, w, w2, |tw|)
    requires |x| == 2 * |tw| && k < |tw| && tw[k] == Pow(r, w, k)
    ensures Paired(r, Dft(r, w2, Evens(x)), Dft(r, w2, Odds(x)), tw, Dft(r, w, x), k)
  {
    PointsPair(r, w, w2, |tw|, x, k);
    PairedFrom(r, w, w2, x, tw, k);
  }

  lemma PairedFrom<T>(r: Ring<T>, w: T, w2: T, x: seq<T>, tw: seq<T>, k: nat)
    requires |x| == 2 * |tw| && k < |tw| && tw[k] == Pow(r, w, k)
    requires PointPair(r, w, w2, |tw|, x, k)
    ensures |Dft(r, w2, Evens(x))| == |Dft(r, w2, Odds(x))| == |tw|
    ensures Paired(r, Dft(r, w2, Evens(x)), Dft(r, w2, Odds(x)), tw, Dft(r, w, x), k)
  {
    DftUpper(r, w, w2, x, |tw|, tw[k], k);
    DftLower(r, w, w2, x, |tw|, tw[k], k);
  }

  lemma OppositePoint<T(!new)>(r: Ring<T>, w: T, w2: T, h: nat, k: nat)
    requires IsRing(r) && HalfRoot(r, w, w2, h)
    ensures Pow(r, w, h + k) == r.neg(Pow(r, w, k))
  {
    var z := Pow(r, w, k);
    PowAdd(r, w, h, k);
    MulNeg(r, r.one, z);
    assert MulOne(r, z);
  }

  lemma ButterflyIsDft<T(!new)>(r: Ring<T>, w: T, w2: T, x: seq<T>, tw: seq<T>)
    requires IsRing(r) && HalfRoot(r, w, w2, |tw|) && |x| == 2 * |tw|
    requires forall k :: 0 <= k < |tw| ==> tw[k] == Pow(r, w, k)
    ensures Butterfly(r, Dft(r, w2, Evens(x)) + Dft(r, w2, Odds(x)), tw) == Dft(r, w, x)
  {
    var e, o, z := Dft(r, w2, Evens(x)), Dft(r, w2, Odds(x)), Dft(r, w, x);
    forall k | 0 <= k < |tw| ensures Paired(r, e, o, tw, z, k) {
      DftPaired(r, w, w2, x, tw, k);
    }
    ButterflyPaired(r, e, o, tw, z);
  }

  lemma DftAt<T>(r: Ring<T>, w: T, x: seq<T>, k: nat)
    requires k < |x|
    ensures Dft(r, w, x)[k] == Eval(r, x, Pow(r, w, k))
  {
  }

  lemma NegSquare<T(!new)>(r: Ring<T>, z: T)
    requires IsRing(r)
    ensures r.mul(r.neg(z), r.neg(z)) == r.mul(z, z)
  {
    MulNeg(r, z, r.neg(z));
    MulNeg(r, z, z);
    NegNeg(r, r.mul(z, z));
  }

  // ---- reshaping a row into blocks and back

  /** a * b, kept recursive so that the solver meets only linear arithmetic. */
  ghost function Product(a: nat, b: nat): nat {
    if a == 0 then 0 else b + Product(a - 1, b)
  }

  lemma {:induction false} ProductAdd(a: nat, b: nat, d: nat)
    ensures Product(a + b, d) == Product(a, d) + Product(b, d)
  {
    if a > 0 {
      ProductAdd(a - 1, b, d);
    }
  }

  function Reshape<T>(x: seq<T>, m: nat): (blocks: seq<seq<T>>)
    requires m > 0
  {
    if |x| < m then [] else [x[..m]] + Reshape(x[m..], m)
  }

  lemma {:induction false} ReshapeLengths<T>(x: seq<T>, m: nat)
    requires m > 0
    ensures forall g :: 0 <= g < |Reshape(x, m)| ==> |Reshape(x, m)[g]| == m
  {
    if |x| >= m {
      ReshapeLengths(x[m..], m);
    }
  }

  function Flatten<T>(blocks: seq<seq<T>>): seq<T> {
    if blocks == [] then [] else blocks[0] + Flatten(blocks[1..])
  }

  lemma {:induction false} ReshapeFlatten<T>(blocks: seq<seq<T>>, m: nat)
    requires m > 0 && forall g :: 0 <= g < |blocks| ==> |blocks[g]| == m
    ensures Reshape(Flatten(blocks), m) == blocks
    ensures |Flatten(blocks)| == Product(|blocks|, m)
  {
    if blocks != [] {
      ReshapeFlatten(blocks[1..], m);
      assert Flatten(blocks)[m..] == Flatten(blocks[1..]);
      assert Flatten(blocks)[..m] == blocks[0];
    }
  }

  /** Joining neighbouring blocks. */
  function Pairs<T>(blocks: seq<seq<T>>): (p: seq<seq<T>>)
    requires |blocks| % 2 == 0
    ensures |p| == |blocks| / 2
  {
    seq(|blocks| / 2, g requires 0 <= g < |blocks| / 2 => blocks[2 * g] + blocks[2 * g + 1])
  }

  /** Reshaping to blocks of twice the size joins neighbouring blocks. */
  lemma {:induction false} Regroup<T>(x: seq<T>, m: nat, groups: nat)
    requires m > 0 && |x| == Product(groups, 2 * m)
    ensures |Reshape(x, m)| == 2 * groups
    ensures Reshape(x, 2 * m) == Pairs(Reshape(x, m))
  {
    if groups > 0 {
      var y := x[2 * m..];
      Regroup(y, m, groups - 1);
      var first, second := x[..m], x[m..2 * m];
      assert x[..2 * m] == first + second;
      assert x[m..][..m] == second && x[m..][m..] == y;
      assert Reshape(x[m..], m) == [second] + Reshape(y, m);
      PairsCons(first, second, Reshape(y, m));
    }
  }

  lemma PairsCons<T>(first: seq<T>, second: seq<T>, rest: seq<seq<T>>)
    requires |rest| % 2 == 0
    ensures Pairs([first] + ([second] + rest)) == [first + second] + Pairs(rest)
  {
    var all := [first] + ([second] + rest);
    forall g | 0 <= g < |all| / 2
      ensures Pairs(all)[g] == ([first + second] + Pairs(rest))[g]
    {
      if g > 0 {
        assert all[2 * g] == rest[2 * (g - 1)] && all[2 * g + 1] == rest[2 * (g - 1) + 1];
      }
    }
  }

  // ---- the stages

  /** One iteration of the stage loop. */
  function Stage<T>(r: Ring<T>, x: seq<T>, tw: seq<T>): seq<T>
    requires |tw| > 0
  {
    var blocks := Reshape(x, 2 * |tw|);
    ReshapeLengths(x, 2 * |tw|);
    Flatten(seq(|blocks|, g requires 0 <= g < |blocks| => Butterfly(r, blocks[g], tw)))
  }

  /** The even or the odd samples. */
  function Half<T>(x: seq<T>, bit: nat): (h: seq<T>)
    requires |x| % 2 == 0
  {
    if bit == 0 then Evens(x) else Odds(x)
  }

  /** The samples whose transform block `g` holds after stage `s`: block `g` is made of block 2g for its
    even samples and of block 2g+1 for its odd ones. */
  ghost function Subsequence<T>(x: seq<T>, logN: nat, s: nat, g: nat): (y: seq<T>)
    requires s <= logN && |x| == Exp2(logN)
    ensures |y| == Exp2(s)
    decreases logN - s
  {
    if s == logN then x else Half(Subsequence(x, logN, s + 1, g / 2), g % 2)
  }

  /** The first halving of `x` is chosen by the top bit of `g`. */
  lemma {:induction false} SubsequenceTop<T>(x: seq<T>, logN: nat, s: nat, g: nat)
    requires s < logN && |x| == Exp2(logN)
    ensures Subsequence(x, logN, s, g) ==
            Subsequence(Half(x, Bit(g, logN - s - 1)), logN - 1, s, g)
    decreases logN - s
  {
    if s + 1 < logN {
      SubsequenceTop(x, logN, s + 1, g / 2);
    }
  }

  /** Before the first stage every block is a single sample, at the bit-reversed position. */
  lemma {:induction false} SubsequenceLeaf<T>(x: seq<T>, logN: nat, g: nat)
    requires |x| == Exp2(logN)
    ensures Subsequence(x, logN, 0, g)[0] == x[BitRev(logN, g)]
    decreases logN
  {
    if logN > 0 {
      var h := Half(x, Bit(g, logN - 1));
      SubsequenceTop(x, logN, 0, g);
      SubsequenceLeaf(h, logN - 1, g);
      assert h[BitRev(logN - 1, g)] == x[BitRev(logN, g)] by {
        BitRevStep(logN - 1, g);
        HalfAt(x, Bit(g, logN - 1), BitRev(logN - 1, g));
      }
    }
  }

  lemma HalfAt<T>(x: seq<T>, bit: nat, i: nat)
    requires |x| % 2 == 0 && i < |x| / 2 && bit < 2
    ensures Half(x, bit)[i] == x[2 * i + bit]
  {
  }

  lemma {:induction false} ExpAdd(a: nat, b: nat)
    ensures Exp2(a + b) == Product(Exp2(a), Exp2(b))
  {
    if a > 0 {
      ExpAdd(a - 1, b);
      ProductAdd(Exp2(a - 1), Exp2(a - 1), Exp2(b));
    }
  }

  /** What holds of the row after stage `s`. */
  ghost predicate StageDone<T>(r: Ring<T>, roots: seq<T>, logN: nat, input: seq<T>, s: nat, x: seq<T>)
    requires s <= logN < |roots| && |input| == Exp2(logN)
  {
    var m := Exp2(s);
    && |x| == |input|
    && |Reshape(x, m)| == Exp2(logN - s)
    && forall g :: 0 <= g < Exp2(logN - s) ==>
         Reshape(x, m)[g] == Dft(r, roots[s], Subsequence(input, logN, s, g))
  }

  lemma StartDone<T(!new)>(r: Ring<T>, roots: seq<T>, logN: nat, input: seq<T>, rev: seq<nat>)
    requires IsRing(r) && PrincipalRoots(r, roots) && logN < |roots| && |input| == Exp2(logN)
    requires IsBitReversal(logN, rev)
    ensures StageDone(r, roots, logN, input, 0, Gather(input, rev))
  {
    var x := Gather(input, rev);
    SingletonCount(x);
    forall g | 0 <= g < |x|
      ensures Reshape(x, 1)[g] == Dft(r, roots[0], Subsequence(input, logN, 0, g))
    {
      SingletonBlocks(x, g);
      var y := Subsequence(input, logN, 0, g);
      SubsequenceLeaf(input, logN, g);
      var z := Pow(r, roots[0], 0);
      assert MulComm(r, x[g], r.one) && MulOne(r, x[g]) && AddZero(r, x[g]);
      assert y[..0] == [];
      assert Eval(r, y, z) == r.add(Eval(r, y[..0], z), r.mul(x[g], Pow(r, z, 0)));
    }
  }

  lemma {:induction false} SingletonCount<T>(x: seq<T>)
    ensures |Reshape(x, 1)| == |x|
  {
    if x != [] {
      SingletonCount(x[1..]);
    }
  }

  lemma {:induction false} SingletonBlocks<T>(x: seq<T>, g: nat)
    requires g < |x|
    ensures g < |Reshape(x, 1)| && Reshape(x, 1)[g] == [x[g]]
  {
    if g > 0 {
      SingletonBlocks(x[1..], g - 1);
    }
  }

  lemma BlockAdvances<T(!new)>(r: Ring<T>, roots: seq<T>, logN: nat, input: seq<T>, s: nat, g: nat)
    requires IsRing(r) && PrincipalRoots(r, roots) && s < logN < |roots| && |input| == Exp2(logN)
    ensures Butterfly(r, Dft(r, roots[s], Subsequence(input, logN, s, 2 * g))
                         + Dft(r, roots[s], Subsequence(input, logN, s, 2 * g + 1)),
                      StageTwiddles(r, roots[s + 1], s + 1))
            == Dft(r, roots[s + 1], Subsequence(input, logN, s + 1, g))
  {
    var y := Subsequence(input, logN, s + 1, g);
    assert (2 * g) / 2 == g && (2 * g) % 2 == 0 && (2 * g + 1) / 2 == g && (2 * g + 1) % 2 == 1;
    assert Subsequence(input, logN, s, 2 * g) == Evens(y);
    assert Subsequence(input, logN, s, 2 * g + 1) == Odds(y);
    var tw := StageTwiddles(r, roots[s + 1], s + 1);
    assert RootStep(r, roots, s);
    HalfTurn(r, roots, s);
    ButterflyIsDft(r, roots[s + 1], roots[s], y, tw);
  }

  lemma StageAdvances<T(!new)>(r: Ring<T>, roots: seq<T>, logN: nat, input: seq<T>, s: nat, x: seq<T>)
    requires IsRing(r) && PrincipalRoots(r, roots) && s < logN < |roots| && |input| == Exp2(logN)
    requires StageDone(r, roots, logN, input, s, x)
    ensures StageDone(r, roots, logN, input, s + 1, Stage(r, x, StageTwiddles(r, roots[s + 1], s + 1)))
  {
    var tw := StageTwiddles(r, roots[s + 1], s + 1);
    BlocksBefore(r, roots, logN, input, s, x);
    StageBlocks(r, x, tw);
    var before, after := Reshape(x, 2 * |tw|), Reshape(Stage(r, x, tw), 2 * |tw|);
    forall g | 0 <= g < |before|
      ensures after[g] == Dft(r, roots[s + 1], Subsequence(input, logN, s + 1, g))
    {
      BlockAdvances(r, roots, logN, input, s, g);
    }
    ExpAdd(logN - s - 1, s + 1);
  }

  /** The blocks a stage starts from are pairs of the blocks the last stage left. */
  lemma BlocksBefore<T>(r: Ring<T>, roots: seq<T>, logN: nat, input: seq<T>, s: nat, x: seq<T>)
    requires s < logN < |roots| && |input| == Exp2(logN)
    requires StageDone(r, roots, logN, input, s, x)
    ensures var blocks := Reshape(x, 2 * Exp2(s));
            && |blocks| == Exp2(logN - s - 1)
            && forall g :: 0 <= g < |blocks| ==>
                 blocks[g] == Dft(r, roots[s], Subsequence(input, logN, s, 2 * g))
                              + Dft(r, roots[s], Subsequence(input, logN, s, 2 * g + 1))
  {
    var m, groups := Exp2(s), Exp2(logN - s - 1);
    assert |x| == Product(groups, 2 * m) by { ExpAdd(logN - s - 1, s + 1); }
    Regroup(x, m, groups);
    forall g | 0 <= g < groups
      ensures Reshape(x, 2 * m)[g] == Dft(r, roots[s], Subsequence(input, logN, s, 2 * g))
                                      + Dft(r, roots[s], Subsequence(input, logN, s, 2 * g + 1))
    {
      PairBefore(r, roots, logN, input, s, x, g);
    }
  }

  lemma PairBefore<T>(r: Ring<T>, roots: seq<T>, logN: nat, input: seq<T>, s: nat, x: seq<T>, g: nat)
    requires s < logN < |roots| && |input| == Exp2(logN) && g < Exp2(logN - s - 1)
    requires StageDone(r, roots, logN, input, s, x)
    ensures |Pairs(Reshape(x, Exp2(s)))| == Exp2(logN - s - 1)
    ensures Pairs(Reshape(x, Exp2(s)))[g] == Dft(r, roots[s], Subsequence(input, logN, s, 2 * g))
                                             + Dft(r, roots[s], Subsequence(input, logN, s, 2 * g + 1))
  {
    var halves := Reshape(x, Exp2(s));
    assert |halves| == 2 * Exp2(logN - s - 1);
    assert halves[2 * g] == Dft(r, roots[s], Subsequence(input, logN, s, 2 * g));
    assert halves[2 * g + 1] == Dft(r, roots[s], Subsequence(input, logN, s, 2 * g + 1));
  }

  /** The blocks of the row after a stage are the butterflies of the blocks before it. */
  lemma StageBlocks<T>(r: Ring<T>, x: seq<T>, tw: seq<T>)
    requires tw != []
    ensures var before, after := Reshape(x, 2 * |tw|), Reshape(Stage(r, x, tw), 2 * |tw|);
            && |after| == |before|
            && |Stage(r, x, tw)| == Product(|before|, 2 * |tw|)
            && forall g :: 0 <= g < |before| ==> |before[g]| == 2 * |tw| && after[g] == Butterfly(r, before[g], tw)
  {
    var blocks := Reshape(x, 2 * |tw|);
    ReshapeLengths(x, 2 * |tw|);
    ReshapeFlatten(seq(|blocks|, g requires 0 <= g < |blocks| => Butterfly(r, blocks[g], tw)), 2 * |tw|);
  }

  lemma EndDone<T(!new)>(r: Ring<T>, roots: seq<T>, logN: nat, input: seq<T>, x: seq<T>)
    requires logN < |roots| && |input| == Exp2(logN)
    requires StageDone(r, roots, logN, input, logN, x)
    ensures x == Dft(r, roots[logN], input)
  {
    assert Exp2(logN - logN) == 1;
    assert Reshape(x, |x|)[0] == x[..|x|];
  }

  /** `fft_inplace` on one row: gather by the index table, then one butterfly stage per twiddle tensor,
    skipping the first. The result is the discrete Fourier transform of the input. */
  method FftInplace<T(!new)>(r: Ring<T>, logN: nat, input: seq<T>, rev: seq<nat>, twiddles: seq<seq<T>>,
                             ghost roots: seq<T>)
    returns (x: seq<T>)
    requires |input| == Exp2(logN) && IsBitReversal(logN, rev)
    requires IsRing(r) && PrincipalRoots(r, roots) && |roots| == |twiddles| == logN + 1
    requires forall s :: 1 <= s <= logN ==> twiddles[s] == StageTwiddles(r, roots[s], s)
    ensures x == Dft(r, roots[logN], input)
  {
    x := Gather(input, rev);
    StartDone(r, roots, logN, input, rev);
    for s := 1 to |twiddles|
      invariant StageDone(r, roots, logN, input, s - 1, x)
    {
      StageAdvances(r, roots, logN, input, s - 1, x);
      x := Stage(r, x, twiddles[s]);
    }
    EndDone(r, roots, logN, input, x);
  }

  /** The table set-up of the spectrum block followed by one transform: on every row of 2^logN samples
    the k-th output is the textbook sum over all inputs. */
  method TransformRow<T(!new)>(r: Ring<T>, logN: nat, roots: seq<T>, input: seq<T>) returns (x: seq<T>)
    requires |input| == Exp2(logN)
    requires IsRing(r) && PrincipalRoots(r, roots) && |roots| == logN + 1
    ensures |x| == |input|
    ensures forall k :: 0 <= k < |x| ==> x[k] == DftSum(r, roots[logN], input, k)
  {
    var rev := BitReversalIndices(logN);
    var twiddles := [[]];
    for s := 1 to logN + 1
      invariant |twiddles| == s
      invariant forall i :: 1 <= i < s ==> twiddles[i] == StageTwiddles(r, roots[i], i)
    {
      twiddles := twiddles + [StageTwiddles(r, roots[s], s)];
    }
    x := FftInplace(r, logN, input, rev[..], twiddles, roots);
    forall k | 0 <= k < |x| ensures x[k] == DftSum(r, roots[logN], input, k) {
      DftIsTheTextbookSum(r, roots[logN], input, k);
      DftAt(r, roots[logN], input, k);
    }
  }
}
