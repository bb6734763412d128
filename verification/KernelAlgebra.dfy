/** What the filter kernels mean when their multiply-accumulate is that of a commutative ring. */
module KernelAlgebra {
  import opened Rings
  import opened Sums
  import opened FirKernels
  import FirBlock

  /** `accum + sample * tap` */
  function Mac<T>(r: Ring<T>): (T, T, T) -> T {
    (accum, sample, tap) => r.add(accum, r.mul(sample, tap))
  }

  /** Sample p of a finite signal that is zero elsewhere. */
  function At<T>(r: Ring<T>, s: seq<T>, p: int): T {
    if 0 <= p < |s| then s[p] else r.zero
  }

  /** Sample p of the signal `x` with interp - 1 zeros after every sample. */
  function StuffedAt<T>(r: Ring<T>, x: seq<T>, interp: nat, p: int): T
    requires interp > 0
  {
    if p >= 0 && p % interp == 0 then At(r, x, p / interp) else r.zero
  }

  /** Term j of the convolution sum at position p. */
  function ConvTerm<T>(r: Ring<T>, h: seq<T>, x: seq<T>, p: int): int -> T {
    (j: int) => r.mul(At(r, x, p - j), At(r, h, j))
  }

  /** The convolution of h and x at position p. */
  function ConvAt<T>(r: Ring<T>, h: seq<T>, x: seq<T>, p: int): T {
    Sum(r, |h|, ConvTerm(r, h, x, p))
  }

  function StuffedTerm<T>(r: Ring<T>, h: seq<T>, x: seq<T>, interp: nat, p: int): int -> T
    requires interp > 0
  {
    (j: int) => r.mul(StuffedAt(r, x, interp, p - j), At(r, h, j))
  }

  /** The convolution of h and the zero-stuffed x at position p. */
  function StuffedConvAt<T>(r: Ring<T>, h: seq<T>, x: seq<T>, interp: nat, p: int): T
    requires interp > 0
  {
    Sum(r, |h|, StuffedTerm(r, h, x, interp, p))
  }

  // ---- the plain filter is a convolution

  lemma {:induction false} AccumulateIsSum<T>(r: Ring<T>, h: seq<T>, x: seq<T>, at: nat, n: nat, f: int -> T)
    requires n <= |h| && at + n <= |x|
    requires forall t :: 0 <= t < n ==> f(t) == r.mul(x[at + t], h[|h| - 1 - t])
    ensures Accumulate(h, x, r.zero, Mac(r), at, n) == Sum(r, n, f)
  {
    if n > 0 {
      AccumulateIsSum(r, h, x, at, n - 1, f);
      assert f(n - 1) == r.mul(x[at + (n - 1)], h[|h| - 1 - (n - 1)]);
    }
  }

  /** Output k of the filter is the convolution at position k + taps - 1, where it is fully inside the input. */
  lemma FirIsConvolution<T(!new)>(r: Ring<T>, h: seq<T>, x: seq<T>, k: nat)
    requires IsRing(r) && k < |FirOut(h, x, r.zero, Mac(r))|
    ensures FirOut(h, x, r.zero, Mac(r))[k] == ConvAt(r, h, x, k + |h| - 1)
  {
    var term := ConvTerm(r, h, x, k + |h| - 1);
    var f := (t: int) => term(|h| - 1 - t);
    AccumulateIsSum(r, h, x, k, |h|, f);
    SumReverse(r, |h|, term, f);
  }

  // ---- the polyphase kernel is zero stuffing, convolution, and keeping every decim-th sample

  lemma {:induction false} BranchIsSum<T>(r: Ring<T>, h: seq<T>, x: seq<T>, interp: nat, branch: nat, at: nat, n: nat,
                                          f: int -> T)
    requires branch < interp && n <= |h| / interp && at + n <= |x|
    requires forall t :: 0 <= t < n ==> f(t) == r.mul(x[at + t], At(r, h, interp * (|h| / interp - 1 - t) + branch))
    ensures AccumulateBranch(h, interp, branch, x, r.zero, Mac(r), at, n) == Sum(r, n, f)
  {
    if n > 0 {
      BranchIsSum(r, h, x, interp, branch, at, n - 1, f);
      BranchTap(|h|, interp, branch, n - 1);
      assert f(n - 1) == r.mul(x[at + (n - 1)], At(r, h, interp * (|h| / interp - (n - 1) - 1) + branch));
    }
  }

  /** Of each block of `interp` terms only the one on the branch is not zero. */
  lemma {:induction false} SparseSum<T(!new)>(r: Ring<T>, interp: nat, branch: nat, u: nat, f: int -> T,
                                              cell: (int, int) -> T)
    requires IsRing(r) && branch < interp
    requires forall v, b :: 0 <= v < u && 0 <= b < interp ==> cell(v, b) == f(interp * v + b)
    requires forall v, b :: 0 <= v < u && 0 <= b < interp && b != branch ==> cell(v, b) == r.zero
    ensures interp * u >= 0
    ensures Sum(r, interp * u, f) == Sum(r, u, Column(cell, branch))
  {
    if u == 0 {
      assert interp * u == 0;
    } else {
      SparseSum(r, interp, branch, u - 1, f, cell);
      assert interp * u == interp * (u - 1) + interp;
      SumSplit(r, interp * (u - 1), interp, f, Row(cell, u - 1));
      SumSingle(r, interp, Row(cell, u - 1), branch);
    }
  }

  /** The zero-stuffed signal at the tap `interp * v + b` below the output's position. */
  lemma StuffedSample<T>(r: Ring<T>, x: seq<T>, interp: nat, branch: nat, at: nat, bank: nat, p: int, v: nat, b: nat)
    requires branch < interp && b < interp && v < bank && p == interp * at + branch + interp * (bank - 1)
    ensures StuffedAt(r, x, interp, p - (interp * v + b)) == if b == branch then At(r, x, at + bank - 1 - v) else r.zero
  {
    var d := p - (interp * v + b);
    var q := at + bank - 1 - v;
    assert d == interp * q + (branch - b) by { Regroup(interp, at, bank, v); }
    if b <= branch {
      DivModIs(d, interp, q, branch - b);
    } else if q > 0 {
      assert d == interp * (q - 1) + (interp + branch - b);
      DivModIs(d, interp, q - 1, interp + branch - b);
    }
  }

  lemma Regroup(interp: nat, at: nat, bank: int, v: nat)
    ensures interp * at + interp * (bank - 1) - interp * v == interp * (at + bank - 1 - v)
  {
  }

  lemma DivModIs(d: int, interp: nat, q: nat, m: nat)
    requires m < interp && d == interp * q + m
    ensures d >= 0 && d / interp == q && d % interp == m
  {
    assert interp * q >= 0;
    DivUnique(d, interp, q, m);
  }

  lemma BranchIsStuffed<T(!new)>(r: Ring<T>, h: seq<T>, x: seq<T>, interp: nat, branch: nat, at: nat, bank: nat, p: int)
    requires IsRing(r) && branch < interp && bank == |h| / interp && at + bank <= |x| && |h| == interp * bank
    requires p == interp * at + branch + interp * (bank - 1)
    ensures AccumulateBranch(h, interp, branch, x, r.zero, Mac(r), at, bank) == StuffedConvAt(r, h, x, interp, p)
  {
    var cell := StuffedCell(r, h, x, interp, p);
    forall v, b | 0 <= v < bank && 0 <= b < interp && b != branch ensures cell(v, b) == r.zero {
      OffBranch(r, h, x, interp, branch, at, bank, p, v, b);
    }
    SparseSum(r, interp, branch, bank, StuffedTerm(r, h, x, interp, p), cell);
    BranchSum(r, h, x, interp, branch, at, bank, p);
  }

  function StuffedCell<T>(r: Ring<T>, h: seq<T>, x: seq<T>, interp: nat, p: int): (int, int) -> T
    requires interp > 0
  {
    (v: int, b: int) => StuffedTerm(r, h, x, interp, p)(interp * v + b)
  }

  lemma OffBranch<T(!new)>(r: Ring<T>, h: seq<T>, x: seq<T>, interp: nat, branch: nat, at: nat, bank: nat, p: int,
                           v: nat, b: nat)
    requires IsRing(r) && branch < interp && b < interp && b != branch && v < bank
    requires p == interp * at + branch + interp * (bank - 1)
    ensures StuffedCell(r, h, x, interp, p)(v, b) == r.zero
  {
    var j := interp * v + b;
    StuffedSample(r, x, interp, branch, at, bank, p, v, b);
    assert StuffedTerm(r, h, x, interp, p)(j) == r.mul(StuffedAt(r, x, interp, p - j), At(r, h, j));
    MulZero(r, At(r, h, j));
  }

  lemma OnBranch<T(!new)>(r: Ring<T>, h: seq<T>, x: seq<T>, interp: nat, branch: nat, at: nat, bank: nat, p: int,
                          t: nat)
    requires branch < interp && t < bank && at + bank <= |x|
    requires p == interp * at + branch + interp * (bank - 1)
    ensures StuffedCell(r, h, x, interp, p)(bank - 1 - t, branch)
         == r.mul(x[at + t], At(r, h, interp * (bank - 1 - t) + branch))
  {
    var j := interp * (bank - 1 - t) + branch;
    StuffedSample(r, x, interp, branch, at, bank, p, bank - 1 - t, branch);
    assert StuffedTerm(r, h, x, interp, p)(j) == r.mul(StuffedAt(r, x, interp, p - j), At(r, h, j));
  }

  lemma BranchSum<T(!new)>(r: Ring<T>, h: seq<T>, x: seq<T>, interp: nat, branch: nat, at: nat, bank: nat, p: int)
    requires IsRing(r) && branch < interp && bank == |h| / interp && at + bank <= |x|
    requires p == interp * at + branch + interp * (bank - 1)
    ensures AccumulateBranch(h, interp, branch, x, r.zero, Mac(r), at, bank)
         == Sum(r, bank, Column(StuffedCell(r, h, x, interp, p), branch))
  {
    var f := Column(StuffedCell(r, h, x, interp, p), branch);
    var g := (t: int) => f(bank - 1 - t);
    SumReverse(r, bank, f, g);
    forall t | 0 <= t < bank ensures g(t) == r.mul(x[at + t], At(r, h, interp * (bank - 1 - t) + branch)) {
      OnBranch(r, h, x, interp, branch, at, bank, p, t);
    }
    BranchIsSum(r, h, x, interp, branch, at, bank, g);
  }

  /** The constructor demands that the taps fill whole branches; then output k is the convolution of all taps with the
      zero-stuffed input at position k * decim + (taps / interp - 1) * interp. */
  lemma PolyphaseIsStuffedConvolution<T(!new)>(r: Ring<T>, h: seq<T>, x: seq<T>, interp: nat, decim: nat, k: nat,
                                               p: int)
    requires IsRing(r) && interp > 0 && decim > 0 && |h| % interp == 0
    requires k < |PolyphaseOut(h, interp, decim, x, r.zero, Mac(r))|
    requires p == k * decim + interp * (|h| / interp - 1)
    ensures PolyphaseOut(h, interp, decim, x, r.zero, Mac(r))[k] == StuffedConvAt(r, h, x, interp, p)
  {
    var branch, at, bank := PhaseOf(k, interp, decim, |h|, p);
    PolyphaseIs(h, interp, decim, x, r.zero, Mac(r), k, branch, at);
    BranchIsStuffed(r, h, x, interp, branch, at, bank, p);
  }

  lemma PhaseOf(k: nat, interp: nat, decim: nat, taps: nat, p: int) returns (branch: nat, at: nat, bank: nat)
    requires interp > 0 && taps % interp == 0 && p == k * decim + interp * (taps / interp - 1)
    ensures IsPhase(k, interp, decim, branch, at) && branch < interp
    ensures bank == taps / interp && taps == interp * bank
    ensures p == interp * at + branch + interp * (bank - 1)
  {
    branch, at, bank := (k * decim) % interp, k * decim / interp, taps / interp;
  }

  // ---- filters in series

  /** The taps of two filters in series. */
  function Convolve<T>(r: Ring<T>, a: seq<T>, b: seq<T>): (c: seq<T>)
    ensures |c| == if |a| == 0 || |b| == 0 then 0 else |a| + |b| - 1
  {
    if |a| == 0 || |b| == 0 then [] else seq(|a| + |b| - 1, m => ConvAt(r, a, b, m))
  }

  /** The taps of b against `g` from i on. */
  function Inner<T>(r: Ring<T>, b: seq<T>, g: int -> T, i: int): T {
    Sum(r, |b|, InnerTerm(r, b, g, i))
  }

  function InnerTerm<T>(r: Ring<T>, b: seq<T>, g: int -> T, i: int): int -> T {
    (j: int) => r.mul(At(r, b, j), g(i + j))
  }

  lemma SkipZeros<T(!new)>(r: Ring<T>, i: nat, n: nat, f: int -> T, g: int -> T)
    requires IsRing(r) && forall m :: 0 <= m < i ==> f(m) == r.zero
    requires forall j :: 0 <= j < n ==> g(j) == f(i + j)
    ensures Sum(r, i + n, f) == Sum(r, n, g)
  {
    SumSplit(r, i, n, f, g);
    SumZero(r, i, f);
    assert AddZero(r, Sum(r, n, g));
  }

  lemma {:induction false} DropZeros<T(!new)>(r: Ring<T>, n: nat, k: nat, f: int -> T)
    requires IsRing(r) && forall m :: n <= m < n + k ==> f(m) == r.zero
    ensures Sum(r, n + k, f) == Sum(r, n, f)
  {
    if k > 0 {
      DropZeros(r, n, k - 1, f);
      var s := Sum(r, n, f);
      assert f(n + k - 1) == r.zero;
      assert AddZero(r, s) && AddComm(r, s, r.zero);
    }
  }

  /** A sum over a range outside of whose part i..i+n all terms are zero. */
  lemma SumInside<T(!new)>(r: Ring<T>, len: nat, i: nat, n: nat, f: int -> T, g: int -> T)
    requires IsRing(r) && i + n <= len
    requires forall m :: 0 <= m < len && !(i <= m < i + n) ==> f(m) == r.zero
    requires forall j :: 0 <= j < n ==> g(j) == f(i + j)
    ensures Sum(r, len, f) == Sum(r, n, g)
  {
    DropZeros(r, i + n, len - i - n, f);
    SkipZeros(r, i, n, f, g);
  }

  function Slid<T>(r: Ring<T>, b: seq<T>, g: int -> T, i: int): int -> T {
    (m: int) => r.mul(At(r, b, m - i), g(m))
  }

  /** Sliding b along a longer range only adds zeros. */
  lemma SlidSum<T(!new)>(r: Ring<T>, b: seq<T>, len: nat, i: nat, g: int -> T)
    requires IsRing(r) && i + |b| <= len
    ensures Sum(r, len, Slid(r, b, g, i)) == Inner(r, b, g, i)
  {
    forall m | 0 <= m < len && !(i <= m < i + |b|) ensures Slid(r, b, g, i)(m) == r.zero {
      MulZero(r, g(m));
    }
    SumInside(r, len, i, |b|, Slid(r, b, g, i), InnerTerm(r, b, g, i));
  }

  /** One term of the double sum over both tap vectors and all positions. */
  function Cell<T>(r: Ring<T>, a: seq<T>, b: seq<T>, g: int -> T): (int, int) -> T {
    (m: int, i: int) => r.mul(At(r, a, i), r.mul(At(r, b, m - i), g(m)))
  }

  lemma CellRow<T(!new)>(r: Ring<T>, a: seq<T>, b: seq<T>, g: int -> T, m: int)
    requires IsRing(r)
    ensures r.mul(ConvAt(r, a, b, m), g(m)) == Sum(r, |a|, Row(Cell(r, a, b, g), m))
  {
    var term, row := ConvTerm(r, a, b, m), Row(Cell(r, a, b, g), m);
    assert MulComm(r, ConvAt(r, a, b, m), g(m));
    forall i | 0 <= i < |a| ensures row(i) == r.mul(g(m), term(i)) {
      assert MulComm(r, At(r, b, m - i), At(r, a, i)) && MulComm(r, g(m), term(i));
      assert MulAssoc(r, At(r, a, i), At(r, b, m - i), g(m));
    }
    SumScale(r, |a|, g(m), term, row);
  }

  lemma ScaledColumn<T(!new)>(r: Ring<T>, a: seq<T>, b: seq<T>, g: int -> T, i: nat, len: nat)
    requires IsRing(r)
    ensures Sum(r, len, Column(Cell(r, a, b, g), i)) == r.mul(At(r, a, i), Sum(r, len, Slid(r, b, g, i)))
  {
    SumScale(r, len, At(r, a, i), Slid(r, b, g, i), Column(Cell(r, a, b, g), i));
  }

  lemma CellColumn<T(!new)>(r: Ring<T>, a: seq<T>, b: seq<T>, g: int -> T, i: nat, len: nat)
    requires IsRing(r) && i + |b| <= len
    ensures Sum(r, len, Column(Cell(r, a, b, g), i)) == r.mul(At(r, a, i), Inner(r, b, g, i))
  {
    ScaledColumn(r, a, b, g, i, len);
    SlidSum(r, b, len, i, g);
  }

  lemma RowsOf<T(!new)>(r: Ring<T>, a: seq<T>, b: seq<T>, g: int -> T, f: int -> T)
    requires IsRing(r) && |a| > 0 && |b| > 0
    requires forall m :: 0 <= m < |a| + |b| - 1 ==> f(m) == r.mul(ConvAt(r, a, b, m), g(m))
    ensures forall m :: 0 <= m < |a| + |b| - 1 ==> f(m) == Sum(r, |a|, Row(Cell(r, a, b, g), m))
  {
    forall m | 0 <= m < |a| + |b| - 1 ensures f(m) == Sum(r, |a|, Row(Cell(r, a, b, g), m)) {
      CellRow(r, a, b, g, m);
    }
  }

  lemma ColumnsOf<T(!new)>(r: Ring<T>, a: seq<T>, b: seq<T>, g: int -> T, f: int -> T)
    requires IsRing(r) && |a| > 0 && |b| > 0
    requires forall i :: 0 <= i < |a| ==> f(i) == r.mul(At(r, a, i), Inner(r, b, g, i))
    ensures forall i :: 0 <= i < |a| ==> f(i) == Sum(r, |a| + |b| - 1, Column(Cell(r, a, b, g), i))
  {
    forall i | 0 <= i < |a| ensures f(i) == Sum(r, |a| + |b| - 1, Column(Cell(r, a, b, g), i)) {
      CellColumn(r, a, b, g, i, |a| + |b| - 1);
    }
  }

  lemma RowsAndColumns<T(!new)>(r: Ring<T>, a: seq<T>, b: seq<T>, g: int -> T, f: int -> T, f': int -> T)
    requires IsRing(r) && |a| > 0 && |b| > 0
    requires forall m :: 0 <= m < |a| + |b| - 1 ==> f(m) == Sum(r, |a|, Row(Cell(r, a, b, g), m))
    requires forall i :: 0 <= i < |a| ==> f'(i) == Sum(r, |a| + |b| - 1, Column(Cell(r, a, b, g), i))
    ensures Sum(r, |a| + |b| - 1, f) == Sum(r, |a|, f')
  {
    SumExchange(r, |a| + |b| - 1, |a|, Cell(r, a, b, g), f, f');
  }

  /** Summing the convolved taps against g is the double sum over both tap vectors. */
  lemma ConvolvedTaps<T(!new)>(r: Ring<T>, a: seq<T>, b: seq<T>, g: int -> T, f: int -> T, f': int -> T)
    requires IsRing(r) && |a| > 0 && |b| > 0
    requires forall m :: 0 <= m < |a| + |b| - 1 ==> f(m) == r.mul(ConvAt(r, a, b, m), g(m))
    requires forall i :: 0 <= i < |a| ==> f'(i) == r.mul(At(r, a, i), Inner(r, b, g, i))
    ensures Sum(r, |a| + |b| - 1, f) == Sum(r, |a|, f')
  {
    RowsOf(r, a, b, g, f);
    ColumnsOf(r, a, b, g, f');
    RowsAndColumns(r, a, b, g, f, f');
  }

  /** The signal read backwards from `top`. */
  function Backwards<T>(r: Ring<T>, x: seq<T>, top: int): int -> T {
    (m: int) => At(r, x, top - m)
  }

  /** Two filters in series are one filter with the convolved taps. */
  lemma Cascade<T(!new)>(r: Ring<T>, h1: seq<T>, h2: seq<T>, x: seq<T>)
    requires IsRing(r) && |h1| > 0 && |h2| > 0
    ensures FirOut(h2, FirOut(h1, x, r.zero, Mac(r)), r.zero, Mac(r)) == FirOut(Convolve(r, h2, h1), x, r.zero, Mac(r))
  {
    var y := FirOut(h1, x, r.zero, Mac(r));
    var z, w := FirOut(h2, y, r.zero, Mac(r)), FirOut(Convolve(r, h2, h1), x, r.zero, Mac(r));
    forall k | 0 <= k < |z| ensures z[k] == w[k] {
      FirIsConvolution(r, h2, y, k);
      FirIsConvolution(r, Convolve(r, h2, h1), x, k);
      CascadeAt(r, h1, h2, x, y, k);
    }
  }

  lemma CascadeAt<T(!new)>(r: Ring<T>, h1: seq<T>, h2: seq<T>, x: seq<T>, y: seq<T>, k: nat)
    requires IsRing(r) && |h1| > 0 && |h2| > 0 && k + |h1| + |h2| - 2 < |x| && y == FirOut(h1, x, r.zero, Mac(r))
    ensures ConvAt(r, h2, y, k + |h2| - 1) == ConvAt(r, Convolve(r, h2, h1), x, k + |h1| + |h2| - 2)
  {
    var c := Convolve(r, h2, h1);
    var top := k + |h1| + |h2| - 2;
    var f, f' := ConvTerm(r, c, x, top), ConvTerm(r, h2, y, k + |h2| - 1);
    forall m | 0 <= m < |c| ensures f(m) == r.mul(ConvAt(r, h2, h1, m), Backwards(r, x, top)(m)) {
      OuterTerm(r, h1, h2, x, top, m);
    }
    forall i | 0 <= i < |h2| ensures f'(i) == r.mul(At(r, h2, i), Inner(r, h1, Backwards(r, x, top), i)) {
      InnerTermOf(r, h1, h2, x, y, k, i);
    }
    ConvolvedTaps(r, h2, h1, Backwards(r, x, top), f, f');
  }

  lemma OuterTerm<T(!new)>(r: Ring<T>, h1: seq<T>, h2: seq<T>, x: seq<T>, top: int, m: nat)
    requires IsRing(r) && m < |Convolve(r, h2, h1)|
    ensures ConvTerm(r, Convolve(r, h2, h1), x, top)(m) == r.mul(ConvAt(r, h2, h1, m), Backwards(r, x, top)(m))
  {
    assert MulComm(r, Backwards(r, x, top)(m), ConvAt(r, h2, h1, m));
  }

  lemma InnerTermOf<T(!new)>(r: Ring<T>, h1: seq<T>, h2: seq<T>, x: seq<T>, y: seq<T>, k: nat, i: nat)
    requires IsRing(r) && |h1| > 0 && i < |h2| && k + |h1| + |h2| - 2 < |x| && y == FirOut(h1, x, r.zero, Mac(r))
    ensures ConvTerm(r, h2, y, k + |h2| - 1)(i)
         == r.mul(At(r, h2, i), Inner(r, h1, Backwards(r, x, k + |h1| + |h2| - 2), i))
  {
    InnerOutput(r, h1, x, k + |h2| - 1 - i, k + |h1| + |h2| - 2, i);
    assert MulComm(r, At(r, y, k + |h2| - 1 - i), At(r, h2, i));
  }

  lemma InnerOutput<T(!new)>(r: Ring<T>, h1: seq<T>, x: seq<T>, q: nat, top: int, i: nat)
    requires IsRing(r) && q < |FirOut(h1, x, r.zero, Mac(r))| && q + |h1| - 1 == top - i
    ensures FirOut(h1, x, r.zero, Mac(r))[q] == Inner(r, h1, Backwards(r, x, top), i)
  {
    FirIsConvolution(r, h1, x, q);
    var g, f := Backwards(r, x, top), ConvTerm(r, h1, x, q + |h1| - 1);
    forall j | 0 <= j < |h1| ensures f(j) == r.mul(At(r, h1, j), g(i + j)) {
      assert MulComm(r, At(r, h1, j), g(i + j));
    }
    SumCong(r, |h1|, f, InnerTerm(r, h1, g, i));
  }

  // ---- chains

  /** The output of filters in series, first to last. */
  function Chain<T>(filters: seq<seq<T>>, x: seq<T>, init: T, mac: (T, T, T) -> T): seq<T> {
    if filters == [] then x else Chain(filters[1..], FirOut(filters[0], x, init, mac), init, mac)
  }

  /** `stages` filters of `taps` taps shorten the stream by stages * (taps - 1), whatever the arithmetic. */
  lemma {:induction false} ChainLength<T>(filters: seq<seq<T>>, taps: nat, x: seq<T>, init: T, mac: (T, T, T) -> T)
    requires taps > 0 && forall s :: 0 <= s < |filters| ==> |filters[s]| == taps
    ensures |Chain(filters, x, init, mac)| == if |filters| * (taps - 1) <= |x| then |x| - |filters| * (taps - 1) else 0
  {
    if filters == [] {
    } else {
      var y := FirOut(filters[0], x, init, mac);
      ChainLength(filters[1..], taps, y, init, mac);
      Successor(|filters| - 1, taps - 1);
    }
  }

  /** The taps of the whole chain. */
  function ConvolveAll<T>(r: Ring<T>, filters: seq<seq<T>>): (c: seq<T>)
    decreases |filters|
  {
    if filters == [] then [r.one] else Convolve(r, ConvolveAll(r, filters[1..]), filters[0])
  }

  lemma {:induction false} ConvolveAllNonEmpty<T>(r: Ring<T>, filters: seq<seq<T>>)
    requires forall s :: 0 <= s < |filters| ==> |filters[s]| > 0
    ensures |ConvolveAll(r, filters)| > 0
  {
    if filters != [] {
      ConvolveAllNonEmpty(r, filters[1..]);
    }
  }

  /** A chain of any number of filters is one filter. */
  lemma {:induction false} ChainIsOneFilter<T(!new)>(r: Ring<T>, filters: seq<seq<T>>, x: seq<T>)
    requires IsRing(r) && forall s :: 0 <= s < |filters| ==> |filters[s]| > 0
    ensures Chain(filters, x, r.zero, Mac(r)) == FirOut(ConvolveAll(r, filters), x, r.zero, Mac(r))
  {
    if filters == [] {
      UnitFilter(r, x);
    } else {
      var y := FirOut(filters[0], x, r.zero, Mac(r));
      ChainIsOneFilter(r, filters[1..], y);
      ConvolveAllNonEmpty(r, filters[1..]);
      Cascade(r, filters[0], ConvolveAll(r, filters[1..]), x);
    }
  }

  lemma UnitFilter<T(!new)>(r: Ring<T>, x: seq<T>)
    requires IsRing(r)
    ensures FirOut([r.one], x, r.zero, Mac(r)) == x
  {
    var y := FirOut([r.one], x, r.zero, Mac(r));
    forall k | 0 <= k < |x| ensures y[k] == x[k] {
      var p := r.mul(x[k], r.one);
      assert Accumulate([r.one], x, r.zero, Mac(r), k, 0) == r.zero;
      assert y[k] == r.add(r.zero, p);
      assert AddZero(r, p) && MulComm(r, x[k], r.one) && MulOne(r, x[k]);
    }
  }

  /** Blocks in series that have all finished, however their buffers were split, hold the output of the chain. */
  lemma {:induction false} FinishedBlocks<T>(blocks: seq<FirBlock.Fir<T, T, T>>, filters: seq<seq<T>>, x: seq<T>,
                                             init: T, mac: (T, T, T) -> T)
    requires |blocks| == |filters| > 0 && blocks[0].fed == x
    requires forall s :: 0 <= s < |blocks| ==> blocks[s].Valid() && blocks[s].finished
    requires forall s :: 0 <= s < |blocks| ==> blocks[s].core == FirBlock.Plain(filters[s], init, mac)
    requires forall s :: 0 < s < |blocks| ==> blocks[s].fed == blocks[s - 1].output
    ensures blocks[|blocks| - 1].output == Chain(filters, x, init, mac)
  {
    assert blocks[0].output == FirOut(filters[0], x, init, mac);
    if |blocks| > 1 {
      FinishedBlocks(blocks[1..], filters[1..], blocks[0].output, init, mac);
    } else {
      assert filters[1..] == [];
    }
  }
}
