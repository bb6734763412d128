/** The three stateless filter kernels of crates/futuredsp, for an arbitrary multiply-accumulate `mac`. */
module FirKernels {

  datatype Status = InsufficientInput | InsufficientOutput | BothSufficient

  // ---- arithmetic used below

  lemma MulLe(a: nat, b: nat, c: nat)
    requires a <= b
    ensures a * c <= b * c
  {
  }

  lemma DivBound(a: nat, d: nat, k: nat)
    requires d > 0
    ensures k < a / d <==> (k + 1) * d <= a
  {
    var q, m := a / d, a % d;
    assert a == q * d + m;
    if k < q {
      MulLe(k + 1, q, d);
    } else {
      MulLe(q + 1, k + 1, d);
      assert (q + 1) * d == q * d + d;
    }
  }

  lemma DivAdd(a: nat, q: nat, d: nat)
    requires d > 0
    ensures (a + q * d) / d == a / d + q && (a + q * d) % d == a % d
  {
    var b := a + q * d;
    assert b == (a / d + q) * d + a % d by {
      assert (a / d + q) * d == (a / d) * d + q * d;
    }
    DivUnique(b, d, a / d + q, a % d);
  }

  lemma DivUnique(b: nat, d: nat, q: nat, m: nat)
    requires d > 0 && m < d && b == q * d + m
    ensures b / d == q && b % d == m
  {
    var q', m' := b / d, b % d;
    assert b == q' * d + m';
    assert (q' + 1) * d == q' * d + d && (q + 1) * d == q * d + d;
    if q' < q {
      MulLe(q' + 1, q, d);
    } else if q < q' {
      MulLe(q + 1, q', d);
    }
  }

  /** How many outputs a window of `taps` samples gives as it slides over `len` samples. */
  function Windows(len: nat, taps: nat): nat {
    if len + 1 <= taps then 0 else len + 1 - taps
  }

  /** What the three kernels report when `all` outputs are possible and `usable` of the `room` can be filled. */
  predicate Counted(room: nat, usable: nat, all: nat, produced: nat, status: Status) {
    && (status.InsufficientOutput? <==> room < all)
    && (status.InsufficientInput? <==> all < room)
    && produced == (if status.InsufficientOutput? then usable else all)
  }

  // ---- what the kernels compute

  /** The first `n` steps of the accumulation over x[at..] against the taps from the last one down. */
  function Accumulate<I, O, C>(taps: seq<C>, x: seq<I>, init: O, mac: (O, I, C) -> O, at: nat, n: nat): O
    requires n <= |taps| && at + n <= |x|
  {
    if n == 0 then init
    else mac(Accumulate(taps, x, init, mac, at, n - 1), x[at + n - 1], taps[|taps| - n])
  }

  /** All outputs of the plain filter. */
  function FirOut<I, O, C>(taps: seq<C>, x: seq<I>, init: O, mac: (O, I, C) -> O): (y: seq<O>)
    ensures |y| == Windows(|x|, |taps|)
  {
    seq(Windows(|x|, |taps|), k requires 0 <= k < Windows(|x|, |taps|) => Accumulate(taps, x, init, mac, k, |taps|))
  }

  lemma {:induction false} AccumulateDrop<I, O, C>(taps: seq<C>, x: seq<I>, init: O, mac: (O, I, C) -> O, d: nat,
                                                   at: nat, n: nat)
    requires n <= |taps| && d + at + n <= |x|
    ensures Accumulate(taps, x[d..], init, mac, at, n) == Accumulate(taps, x, init, mac, d + at, n)
  {
    if n > 0 {
      AccumulateDrop(taps, x, init, mac, d, at, n - 1);
    }
  }

  lemma {:induction false} AccumulateExtend<I, O, C>(taps: seq<C>, x: seq<I>, more: seq<I>, init: O,
                                                     mac: (O, I, C) -> O, at: nat, n: nat)
    requires n <= |taps| && at + n <= |x|
    ensures Accumulate(taps, x + more, init, mac, at, n) == Accumulate(taps, x, init, mac, at, n)
  {
    if n > 0 {
      AccumulateExtend(taps, x, more, init, mac, at, n - 1);
    }
  }

  /** The inner loop of both unit-rate kernels. */
  method MacWindow<I, O, C>(taps: seq<C>, i: seq<I>, init: O, mac: (O, I, C) -> O, at: nat) returns (sum: O)
    requires at + |taps| <= |i|
    ensures sum == Accumulate(taps, i, init, mac, at, |taps|)
  {
    sum := init;
    for t := 0 to |taps|
      invariant sum == Accumulate(taps, i, init, mac, at, t)
    {
      sum := mac(sum, i[at + t], taps[|taps| - 1 - t]);
    }
  }

  /** `fir_kernel_core` of fir.rs. Every read is in bounds; consumption stays within the input exactly when
    there is a tap or no output slot beyond it. */
  method FirKernel<I, O, C>(taps: seq<C>, i: seq<I>, o: array<O>, init: O, mac: (O, I, C) -> O)
    returns (consumed: nat, produced: nat, status: Status)
    modifies o
    ensures consumed == produced <= o.Length && produced <= |FirOut(taps, i, init, mac)|
    ensures o[..produced] == FirOut(taps, i, init, mac)[..produced]
    ensures o[produced..] == old(o[produced..])
    ensures Counted(o.Length, o.Length, |FirOut(taps, i, init, mac)|, produced, status)
    ensures consumed <= |i| <==> |taps| > 0 || o.Length <= |i|
  {
    var producable := if |i| + 1 <= |taps| then 0 else |i| + 1 - |taps|;
    var n: nat;
    if producable > o.Length {
      n, status := o.Length, InsufficientOutput;
    } else if producable == o.Length {
      n, status := producable, BothSufficient;
    } else {
      n, status := producable, InsufficientInput;
    }
    ghost var y := FirOut(taps, i, init, mac);
    for k := 0 to n
      invariant o[..k] == y[..k] && o[n..] == old(o[n..])
    {
      var sum := MacWindow(taps, i, init, mac, k);
      o[k] := sum;
      assert o[..k + 1] == o[..k] + [sum] && y[..k + 1] == y[..k] + [y[k]];
    }
    consumed, produced := n, n;
  }

  // ---- the decimating kernel

  /** Output k is the plain filter's output d-1+kd. */
  function DecimatedOut<I, O, C>(taps: seq<C>, d: nat, x: seq<I>, init: O, mac: (O, I, C) -> O): (y: seq<O>)
    requires d > 0
    ensures |y| == Windows(|x|, |taps|) / d
  {
    seq(Windows(|x|, |taps|) / d, k requires 0 <= k < Windows(|x|, |taps|) / d =>
      DivBound(Windows(|x|, |taps|), d, k);
      FirOut(taps, x, init, mac)[d - 1 + k * d])
  }

  lemma DecimatedIs<I, O, C>(taps: seq<C>, d: nat, x: seq<I>, init: O, mac: (O, I, C) -> O, k: nat, at: nat)
    requires d > 0 && k < Windows(|x|, |taps|) / d && at == d - 1 + k * d
    ensures at + |taps| <= |x| && at < Windows(|x|, |taps|)
    ensures DecimatedOut(taps, d, x, init, mac)[k] == Accumulate(taps, x, init, mac, at, |taps|)
  {
    DecimatedReads(|x|, |taps|, d, k);
    assert DecimatedOut(taps, d, x, init, mac)[k] == FirOut(taps, x, init, mac)[at];
  }

  lemma DecimatedReads(len: nat, taps: nat, d: nat, k: nat)
    requires d > 0 && k < Windows(len, taps) / d
    ensures d - 1 + k * d + taps <= len && d - 1 + k * d < Windows(len, taps)
  {
    DivBound(Windows(len, taps), d, k);
    assert (k + 1) * d == k * d + d;
  }

  /** The counts of `fir_kernel_core` (its lines before the loop). */
  method DecimatingCounts(taps: nat, len: nat, room: nat, decimation: nat) returns (produced: nat, status: Status)
    requires decimation > 0
    ensures produced <= room && produced <= Windows(len, taps) / decimation
    ensures Counted(room, room, Windows(len, taps) / decimation, produced, status)
    ensures taps > 0 ==> produced * decimation <= len
  {
    var filterable := if len + 1 <= taps then 0 else len + 1 - taps;
    var consumable := filterable / decimation;
    if consumable > room {
      produced, status := room, InsufficientOutput;
    } else if consumable == room {
      produced, status := room, BothSufficient;
    } else {
      produced, status := consumable, InsufficientInput;
    }
    if produced > 0 {
      DivBound(Windows(len, taps), decimation, produced - 1);
    }
  }

  /** `fir_kernel_core` of decimating_fir.rs. */
  method DecimatingKernel<I, O, C>(taps: seq<C>, i: seq<I>, o: array<O>, decimation: nat, init: O, mac: (O, I, C) -> O)
    returns (consumed: nat, produced: nat, status: Status)
    requires decimation > 0
    modifies o
    ensures consumed == produced * decimation && produced <= o.Length && (|taps| > 0 ==> consumed <= |i|)
    ensures produced <= |DecimatedOut(taps, decimation, i, init, mac)|
    ensures o[..produced] == DecimatedOut(taps, decimation, i, init, mac)[..produced]
    ensures o[produced..] == old(o[produced..])
    ensures Counted(o.Length, o.Length, |DecimatedOut(taps, decimation, i, init, mac)|, produced, status)
  {
    produced, status := DecimatingCounts(|taps|, |i|, o.Length, decimation);
    ghost var y := DecimatedOut(taps, decimation, i, init, mac);
    for k := 0 to produced
      invariant o[..k] == y[..k] && o[produced..] == old(o[produced..])
    {
      var at := decimation - 1 + k * decimation;
      DecimatedIs(taps, decimation, i, init, mac, k, at);
      var sum := MacWindow(taps, i, init, mac, at);
      o[k] := sum;
      assert o[..k + 1] == o[..k] + [sum] && y[..k + 1] == y[..k] + [y[k]];
    }
    consumed := produced * decimation;
  }

  // ---- the polyphase kernel

  /** The period: once `bank + decim` samples are there, `decim` of them give `interp` outputs. */
  function PolyphaseLength(len: nat, bank: nat, interp: nat, decim: nat): nat
    requires decim > 0
  {
    if len < bank + decim then 0 else interp + PolyphaseLength(len - decim, bank, interp, decim)
  }

  /** `produced` outputs and `consumed` inputs are equally many whole periods. */
  predicate WholePeriods(interp: nat, decim: nat, consumed: nat, produced: nat)
    requires interp > 0
    decreases produced
  {
    if produced == 0 then consumed == 0
    else produced >= interp && consumed >= decim && WholePeriods(interp, decim, consumed - decim, produced - interp)
  }

  function RoundedDown(room: nat, unit: nat): (r: nat)
    requires unit > 0
    ensures r <= room
  {
    if room < unit then 0 else unit + RoundedDown(room - unit, unit)
  }

  lemma {:induction false} RoundedDownIs(room: nat, unit: nat)
    requires unit > 0
    ensures RoundedDown(room, unit) == (room / unit) * unit
  {
    if room < unit {
      DivUnique(room, unit, 0, room);
    } else {
      RoundedDownIs(room - unit, unit);
      DivAdd(room - unit, 1, unit);
      Successor((room - unit) / unit, unit);
    }
  }

  lemma Successor(q: nat, n: nat)
    ensures (q + 1) * n == q * n + n && q * n >= 0
  {
  }

  lemma {:induction false} PolyphaseLengthIs(len: nat, bank: nat, interp: nat, decim: nat)
    requires decim > 0
    ensures PolyphaseLength(len, bank, interp, decim) == (if len < bank then 0 else (len - bank) / decim) * interp
  {
    if len < bank {
    } else if len < bank + decim {
      DivUnique(len - bank, decim, 0, len - bank);
    } else {
      PolyphaseLengthIs(len - decim, bank, interp, decim);
      DivAdd(len - bank - decim, 1, decim);
      Successor((len - bank - decim) / decim, interp);
    }
  }

  lemma {:induction false} PeriodsAreWhole(q: nat, interp: nat, decim: nat)
    requires interp > 0
    ensures q * interp >= 0 && q * decim >= 0 && WholePeriods(interp, decim, q * decim, q * interp)
  {
    if q > 0 {
      PeriodsAreWhole(q - 1, interp, decim);
      Successor(q - 1, interp);
      Successor(q - 1, decim);
    }
  }

  /** The kernel's own count of outputs, as it computes it. */
  function Producable(len: nat, bank: nat, interp: nat, decim: nat): int
    requires interp > 0 && decim > 0
  {
    var w := Windows(len, bank) * interp;
    var samples := (if w == 0 then 0 else w - 1) / decim;
    (samples / interp) * interp
  }

  /** p whole periods of the source fit below w - 1 = a * interp - 1 outputs, p + 1 do not. */
  lemma WholePeriodsFit(a: nat, p: nat, interp: nat, decim: nat)
    requires a > 0 && interp > 0 && decim > 0 && p * decim <= a - 1
    ensures a * interp > 0 && p * interp <= (a * interp - 1) / decim
  {
    MulLe(1, a, interp);
    if p > 0 {
      ProductSwap(p, decim, interp);
      MulLe(p * decim, a - 1, interp);
      assert (a - 1) * interp == a * interp - interp;
      PositiveProduct(p, interp);
      DivBound(a * interp - 1, decim, p * interp - 1);
    }
  }

  lemma NoMorePeriodsFit(a: nat, p: nat, interp: nat, decim: nat)
    requires a > 0 && interp > 0 && decim > 0 && a <= p * decim
    ensures a * interp > 0 && (a * interp - 1) / decim < p * interp
  {
    MulLe(1, a, interp);
    ProductSwap(p, decim, interp);
    MulLe(a, p * decim, interp);
    if p == 0 {
      assert false;
    } else {
      PositiveProduct(p, interp);
      DivBound(a * interp - 1, decim, p * interp - 1);
      DivBound(a * interp - 1, decim, p * interp);
    }
  }

  /** The two roundings of the kernel's count come to whole periods. */
  lemma ProducableIsWholePeriods(len: nat, bank: nat, interp: nat, decim: nat)
    requires interp > 0 && decim > 0
    ensures Producable(len, bank, interp, decim) == PolyphaseLength(len, bank, interp, decim)
  {
    PolyphaseLengthIs(len, bank, interp, decim);
    ProducableIs(len, bank, interp, decim);
  }

  lemma ProducableIs(len: nat, bank: nat, interp: nat, decim: nat)
    requires interp > 0 && decim > 0
    ensures Producable(len, bank, interp, decim) == (if len < bank then 0 else (len - bank) / decim) * interp
  {
    var a := Windows(len, bank);
    if a == 0 {
      assert a * interp == 0;
    } else {
      var p := (a - 1) / decim;
      QuotientBounds(a - 1, decim, p);
      WholePeriodsFit(a, p, interp, decim);
      NoMorePeriodsFit(a, p + 1, interp, decim);
      var samples := (a * interp - 1) / decim;
      Successor(p, interp);
      DivUnique(samples, interp, p, samples - p * interp);
    }
  }

  lemma QuotientBounds(n: nat, d: nat, q: nat)
    requires d > 0 && q == n / d
    ensures q * d <= n < (q + 1) * d
  {
    Successor(q, d);
  }

  lemma ProductSwap(p: nat, d: nat, i: nat)
    ensures p * d * i == p * i * d
  {
  }

  lemma PositiveProduct(a: nat, b: nat)
    requires a > 0 && b > 0
    ensures a * b > 0
  {
  }

  /** The accumulation of one polyphase branch: every interp-th tap, from the last one down. */
  function AccumulateBranch<I, O, C>(taps: seq<C>, interp: nat, branch: nat, x: seq<I>, init: O,
                                     mac: (O, I, C) -> O, at: nat, n: nat): O
    requires branch < interp && n <= |taps| / interp && at + n <= |x|
  {
    if n == 0 then init
    else
      BranchTap(|taps|, interp, branch, n - 1);
      mac(AccumulateBranch(taps, interp, branch, x, init, mac, at, n - 1), x[at + n - 1],
          taps[interp * (|taps| / interp - (n - 1) - 1) + branch])
  }

  lemma OneMore(r: nat, interp: nat)
    ensures (r + 1) * interp == interp * r + interp && interp * r >= 0
  {
  }

  lemma BranchTap(taps: nat, interp: nat, branch: nat, t: nat)
    requires branch < interp && t < taps / interp
    ensures 0 <= interp * (taps / interp - t - 1) + branch < taps
  {
    var r := taps / interp - t - 1;
    DivBound(taps, interp, r);
    OneMore(r, interp);
  }

  /** Output k of the polyphase kernel. */
  function PolyphaseAt<I, O, C>(taps: seq<C>, interp: nat, decim: nat, x: seq<I>, init: O, mac: (O, I, C) -> O,
                                k: nat): O
    requires interp > 0 && k * decim / interp + |taps| / interp <= |x|
  {
    AccumulateBranch(taps, interp, (k * decim) % interp, x, init, mac, k * decim / interp, |taps| / interp)
  }

  lemma {:induction false} PolyphaseReads(len: nat, bank: nat, interp: nat, decim: nat, k: nat)
    requires interp > 0 && decim > 0 && k < PolyphaseLength(len, bank, interp, decim)
    ensures k * decim / interp + bank <= len
  {
    if k < interp {
      MulLe(k, interp, decim);
      DivMono(k * decim, interp * decim, interp);
      DivUnique(interp * decim, interp, decim, 0);
    } else {
      PolyphaseReads(len - decim, bank, interp, decim, k - interp);
      PhaseShift(k - interp, interp, decim);
    }
  }

  /** One period later in the output is `decim` samples later in the input, on the same branch. */
  lemma PhaseShift(k: nat, interp: nat, decim: nat)
    requires interp > 0
    ensures (k + interp) * decim / interp == k * decim / interp + decim
    ensures ((k + interp) * decim) % interp == (k * decim) % interp
  {
    assert (k + interp) * decim == k * decim + decim * interp;
    DivAdd(k * decim, decim, interp);
  }

  lemma DivMono(a: nat, b: nat, d: nat)
    requires d > 0 && a <= b
    ensures a / d <= b / d
  {
    if b / d < a / d {
      DivBound(a, d, b / d);
      DivBound(b, d, b / d);
    }
  }

  function PolyphaseOut<I, O, C>(taps: seq<C>, interp: nat, decim: nat, x: seq<I>, init: O,
                                 mac: (O, I, C) -> O): (y: seq<O>)
    requires interp > 0 && decim > 0
    ensures |y| == PolyphaseLength(|x|, |taps| / interp, interp, decim)
  {
    seq(PolyphaseLength(|x|, |taps| / interp, interp, decim),
        k requires 0 <= k < PolyphaseLength(|x|, |taps| / interp, interp, decim) =>
          PolyphaseReads(|x|, |taps| / interp, interp, decim, k);
          PolyphaseAt(taps, interp, decim, x, init, mac, k))
  }

  /** Output k uses this branch and starts reading there. */
  predicate IsPhase(k: nat, interp: nat, decim: nat, branch: nat, at: nat)
    requires interp > 0
  {
    branch == (k * decim) % interp && at == k * decim / interp
  }

  lemma PolyphaseIs<I, O, C>(taps: seq<C>, interp: nat, decim: nat, x: seq<I>, init: O, mac: (O, I, C) -> O,
                             k: nat, branch: nat, at: nat)
    requires interp > 0 && decim > 0 && k < |PolyphaseOut(taps, interp, decim, x, init, mac)|
    requires IsPhase(k, interp, decim, branch, at)
    ensures branch < interp && at + |taps| / interp <= |x|
    ensures PolyphaseOut(taps, interp, decim, x, init, mac)[k]
         == AccumulateBranch(taps, interp, branch, x, init, mac, at, |taps| / interp)
  {
    PolyphaseReads(|x|, |taps| / interp, interp, decim, k);
  }

  lemma {:induction false} WholePeriodsFitInput(len: nat, bank: nat, interp: nat, decim: nat, consumed: nat,
                                                produced: nat)
    requires interp > 0 && decim > 0 && WholePeriods(interp, decim, consumed, produced)
    requires produced <= PolyphaseLength(len, bank, interp, decim)
    ensures consumed <= len && (produced > 0 ==> consumed + bank <= len)
    decreases produced
  {
    if produced > 0 {
      WholePeriodsFitInput(len - decim, bank, interp, decim, consumed - decim, produced - interp);
    }
  }

  /** The number of outputs the input allows, as the kernel computes it. */
  method ProducableSamples(len: nat, bank: nat, interp: nat, decim: nat) returns (all: nat)
    requires interp > 0 && decim > 0
    ensures all == PolyphaseLength(len, bank, interp, decim) && RoundedDown(all, interp) == all
  {
    ProducableIsWholePeriods(len, bank, interp, decim);
    all := Producable(len, bank, interp, decim);
    LengthIsWhole(len, bank, interp, decim);
  }

  lemma {:induction false} LengthIsWhole(len: nat, bank: nat, interp: nat, decim: nat)
    requires interp > 0 && decim > 0
    ensures var n := PolyphaseLength(len, bank, interp, decim); RoundedDown(n, interp) == n
  {
    if len >= bank + decim {
      LengthIsWhole(len - decim, bank, interp, decim);
    }
  }

  /** The input consumed for `produced` outputs, as the kernel computes it. */
  method PolyphaseConsumed(produced: nat, interp: nat, decim: nat) returns (n: nat)
    requires interp > 0 && RoundedDown(produced, interp) == produced
    ensures WholePeriods(interp, decim, n, produced)
  {
    RoundedDownIs(produced, interp);
    PeriodsAreWhole(produced / interp, interp, decim);
    n := (produced / interp) * decim;
  }

  method RoundDown(room: nat, interp: nat) returns (n: nat)
    requires interp > 0
    ensures n == RoundedDown(room, interp) == RoundedDown(n, interp)
  {
    RoundedDownIs(room, interp);
    n := (room / interp) * interp;
    RoundedDownIdempotent(room, interp);
  }

  lemma {:induction false} RoundedDownIdempotent(room: nat, unit: nat)
    requires unit > 0
    ensures RoundedDown(RoundedDown(room, unit), unit) == RoundedDown(room, unit)
  {
    if room >= unit {
      RoundedDownIdempotent(room - unit, unit);
    }
  }

  /** The counts of `resampling_fir_kernel_core` (its lines before the loop). */
  method PolyphaseCounts(interp: nat, decim: nat, numTaps: nat, len: nat, room: nat)
    returns (consumed: nat, produced: nat, status: Status)
    requires interp > 0 && decim > 0
    ensures WholePeriods(interp, decim, consumed, produced)
    ensures consumed <= len && produced <= room && produced <= PolyphaseLength(len, numTaps, interp, decim)
    ensures Counted(room, RoundedDown(room, interp), PolyphaseLength(len, numTaps, interp, decim), produced, status)
  {
    var producable := ProducableSamples(len, numTaps, interp, decim);
    if producable > room {
      produced := RoundDown(room, interp);
      status := InsufficientOutput;
    } else if producable == room {
      produced, status := producable, BothSufficient;
    } else {
      produced, status := producable, InsufficientInput;
    }
    consumed := PolyphaseConsumed(produced, interp, decim);
    WholePeriodsFitInput(len, numTaps, interp, decim, consumed, produced);
  }

  /** The inner loop of the polyphase kernel. */
  method MacBranch<I, O, C>(taps: seq<C>, i: seq<I>, init: O, mac: (O, I, C) -> O,
                            interp: nat, numTaps: nat, bankIdx: nat, inputIdx: nat) returns (sum: O)
    requires bankIdx < interp && numTaps == |taps| / interp && inputIdx + numTaps <= |i|
    ensures sum == AccumulateBranch(taps, interp, bankIdx, i, init, mac, inputIdx, numTaps)
  {
    sum := init;
    for t := 0 to numTaps
      invariant sum == AccumulateBranch(taps, interp, bankIdx, i, init, mac, inputIdx, t)
    {
      BranchTap(|taps|, interp, bankIdx, t);
      var tapIdx := interp * (numTaps - t - 1) + bankIdx;
      sum := mac(sum, i[inputIdx + t], taps[tapIdx]);
    }
  }

  /** Which branch of the filter output k uses, and where it starts reading. */
  method Locate<I, O, C>(interp: nat, decim: nat, taps: seq<C>, i: seq<I>, init: O, mac: (O, I, C) -> O, k: nat)
    returns (bankIdx: nat, inputIdx: nat)
    requires interp > 0 && decim > 0 && k < |PolyphaseOut(taps, interp, decim, i, init, mac)|
    ensures bankIdx < interp && inputIdx + |taps| / interp <= |i|
    ensures PolyphaseOut(taps, interp, decim, i, init, mac)[k]
         == AccumulateBranch(taps, interp, bankIdx, i, init, mac, inputIdx, |taps| / interp)
  {
    bankIdx := (k * decim) % interp;
    inputIdx := k * decim / interp;
    PolyphaseIs(taps, interp, decim, i, init, mac, k, bankIdx, inputIdx);
  }

  /** `resampling_fir_kernel_core`: production and consumption are whole periods, so no phase has to be kept. */
  method PolyphaseKernel<I, O, C>(interp: nat, decim: nat, taps: seq<C>, i: seq<I>, o: array<O>, init: O,
                                  mac: (O, I, C) -> O)
    returns (consumed: nat, produced: nat, status: Status)
    requires interp > 0 && decim > 0
    modifies o
    ensures WholePeriods(interp, decim, consumed, produced)
    ensures produced <= o.Length && consumed <= |i|
    ensures produced <= |PolyphaseOut(taps, interp, decim, i, init, mac)|
    ensures o[..produced] == PolyphaseOut(taps, interp, decim, i, init, mac)[..produced]
    ensures o[produced..] == old(o[produced..])
    ensures Counted(o.Length, RoundedDown(o.Length, interp), |PolyphaseOut(taps, interp, decim, i, init, mac)|,
                    produced, status)
  {
    var numTaps := |taps| / interp;
    consumed, produced, status := PolyphaseCounts(interp, decim, numTaps, |i|, o.Length);
    ghost var y := PolyphaseOut(taps, interp, decim, i, init, mac);
    for k := 0 to produced
      invariant o[..k] == y[..k] && o[produced..] == old(o[produced..])
    {
      var bankIdx, inputIdx := Locate(interp, decim, taps, i, init, mac, k);
      var sum := MacBranch(taps, i, init, mac, interp, numTaps, bankIdx, inputIdx);
      o[k] := sum;
      assert o[..k + 1] == o[..k] + [sum] && y[..k + 1] == y[..k] + [y[k]];
    }
  }

  /** At rate 1/1 the polyphase kernel stops one sample short of the plain filter. */
  lemma UnitRateStopsOneShort<I, O, C>(taps: seq<C>, x: seq<I>, init: O, mac: (O, I, C) -> O)
    ensures var y, z := FirOut(taps, x, init, mac), PolyphaseOut(taps, 1, 1, x, init, mac);
            z == if y == [] then [] else y[..|y| - 1]
  {
    var y, z := FirOut(taps, x, init, mac), PolyphaseOut(taps, 1, 1, x, init, mac);
    assert |taps| / 1 == |taps|;
    PolyphaseLengthIs(|x|, |taps|, 1, 1);
    forall k | 0 <= k < |z| ensures z[k] == y[k] {
      assert k * 1 % 1 == 0 && k * 1 / 1 == k;
      PolyphaseReads(|x|, |taps|, 1, 1, k);
      UnitBranch(taps, x, init, mac, k, |taps|);
    }
  }

  lemma {:induction false} UnitBranch<I, O, C>(taps: seq<C>, x: seq<I>, init: O, mac: (O, I, C) -> O, at: nat, n: nat)
    requires n <= |taps| && at + n <= |x|
    ensures |taps| / 1 == |taps|
    ensures AccumulateBranch(taps, 1, 0, x, init, mac, at, n) == Accumulate(taps, x, init, mac, at, n)
  {
    if n > 0 {
      UnitBranch(taps, x, init, mac, at, n - 1);
    }
  }
}
