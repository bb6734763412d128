/** The `Fir` block of src/blocks/fir.rs around any of the three kernels: its output does not depend on how the
    input arrives or on how much room each call finds. */
module FirBlock {
  import opened FirKernels

  datatype Core<!I, !O, !C> =
    | Plain(taps: seq<C>, init: O, mac: (O, I, C) -> O)
    | Decimating(taps: seq<C>, decimation: nat, init: O, mac: (O, I, C) -> O)
    | Resampling(taps: seq<C>, interp: nat, decim: nat, init: O, mac: (O, I, C) -> O)
  {
    /** A tap for the two unit-rate kernels, positive rates for the other two. */
    predicate Usable() {
      match this
      case Plain(taps, _, _) => |taps| > 0
      case Decimating(taps, decimation, _, _) => |taps| > 0 && decimation > 0
      case Resampling(_, interp, decim, _, _) => interp > 0 && decim > 0
    }

    /** All outputs for the input `x`. */
    function Out(x: seq<I>): seq<O>
      requires Usable()
    {
      match this
      case Plain(taps, init, mac) => FirOut(taps, x, init, mac)
      case Decimating(taps, decimation, init, mac) => DecimatedOut(taps, decimation, x, init, mac)
      case Resampling(taps, interp, decim, init, mac) => PolyphaseOut(taps, interp, decim, x, init, mac)
    }

    /** The consumption that goes with a production. */
    predicate Paired(consumed: nat, produced: nat)
      requires Usable()
    {
      match this
      case Plain(_, _, _) => consumed == produced
      case Decimating(_, decimation, _, _) => consumed == produced * decimation
      case Resampling(_, interp, decim, _, _) => WholePeriods(interp, decim, consumed, produced)
    }

    /** `Filter::filter` */
    method Filter(i: seq<I>, o: array<O>) returns (consumed: nat, produced: nat, status: Status)
      requires Usable()
      modifies o
      ensures Paired(consumed, produced) && consumed <= |i|
      ensures produced <= o.Length && produced <= |Out(i)|
      ensures o[..produced] == Out(i)[..produced]
      ensures status.InsufficientOutput? <==> o.Length < |Out(i)|
      ensures !status.InsufficientOutput? ==> produced == |Out(i)|
    {
      match this
      case Plain(taps, init, mac) =>
        consumed, produced, status := FirKernel(taps, i, o, init, mac);
      case Decimating(taps, decimation, init, mac) =>
        consumed, produced, status := DecimatingKernel(taps, i, o, decimation, init, mac);
      case Resampling(taps, interp, decim, init, mac) =>
        consumed, produced, status := PolyphaseKernel(interp, decim, taps, i, o, init, mac);
    }
  }

  // ---- restarting at the consumed offset

  lemma PlainRestart<I, O, C>(taps: seq<C>, x: seq<I>, init: O, mac: (O, I, C) -> O, n: nat)
    requires |taps| > 0 && n <= |FirOut(taps, x, init, mac)|
    ensures n <= |x| && FirOut(taps, x[n..], init, mac) == FirOut(taps, x, init, mac)[n..]
  {
    var y, z := FirOut(taps, x, init, mac), FirOut(taps, x[n..], init, mac);
    forall k | 0 <= k < |z| ensures z[k] == y[n..][k] {
      AccumulateDrop(taps, x, init, mac, n, k, |taps|);
    }
  }

  lemma DecimatingRestart<I, O, C>(taps: seq<C>, d: nat, x: seq<I>, init: O, mac: (O, I, C) -> O, produced: nat,
                                   consumed: nat)
    requires |taps| > 0 && d > 0 && produced <= |DecimatedOut(taps, d, x, init, mac)| && consumed == produced * d
    ensures consumed <= |x|
    ensures DecimatedOut(taps, d, x[consumed..], init, mac) == DecimatedOut(taps, d, x, init, mac)[produced..]
  {
    DecimatedConsumed(|x|, |taps|, d, produced, consumed);
    var y, z := DecimatedOut(taps, d, x, init, mac), DecimatedOut(taps, d, x[consumed..], init, mac);
    forall k | 0 <= k < |z| ensures z[k] == y[produced..][k] {
      var at := d - 1 + k * d;
      DecimatedIs(taps, d, x[consumed..], init, mac, k, at);
      assert (produced + k) * d == consumed + k * d;
      DecimatedIs(taps, d, x, init, mac, produced + k, consumed + at);
      AccumulateDrop(taps, x, init, mac, consumed, at, |taps|);
    }
  }

  lemma DecimatedConsumed(len: nat, taps: nat, d: nat, produced: nat, consumed: nat)
    requires taps > 0 && d > 0 && consumed == produced * d && produced <= Windows(len, taps) / d
    ensures consumed <= len && Windows(len - consumed, taps) / d == Windows(len, taps) / d - produced
  {
    if produced > 0 {
      DivBound(Windows(len, taps), d, produced - 1);
      DivAdd(Windows(len, taps) - consumed, produced, d);
    }
  }

  lemma {:induction false} BranchDrop<I, O, C>(taps: seq<C>, interp: nat, branch: nat, x: seq<I>, init: O,
                                               mac: (O, I, C) -> O, d: nat, at: nat, n: nat)
    requires branch < interp && n <= |taps| / interp && d + at + n <= |x|
    ensures AccumulateBranch(taps, interp, branch, x[d..], init, mac, at, n)
         == AccumulateBranch(taps, interp, branch, x, init, mac, d + at, n)
  {
    if n > 0 {
      BranchDrop(taps, interp, branch, x, init, mac, d, at, n - 1);
    }
  }

  lemma OnePeriodLater<I, O, C>(taps: seq<C>, interp: nat, decim: nat, x: seq<I>, init: O, mac: (O, I, C) -> O)
    requires interp > 0 && decim > 0 && interp <= |PolyphaseOut(taps, interp, decim, x, init, mac)|
    ensures decim <= |x|
    ensures PolyphaseOut(taps, interp, decim, x[decim..], init, mac)
            == PolyphaseOut(taps, interp, decim, x, init, mac)[interp..]
  {
    var y, z := PolyphaseOut(taps, interp, decim, x, init, mac),
      PolyphaseOut(taps, interp, decim, x[decim..], init, mac);
    forall k | 0 <= k < |z| ensures z[k] == y[interp..][k] {
      OutputShift(taps, interp, decim, x, init, mac, k);
    }
  }

  lemma ShiftedPhase(k: nat, interp: nat, decim: nat) returns (branch: nat, at: nat)
    requires interp > 0
    ensures IsPhase(k, interp, decim, branch, at) && IsPhase(k + interp, interp, decim, branch, decim + at)
  {
    branch, at := (k * decim) % interp, k * decim / interp;
    PhaseShift(k, interp, decim);
  }

  lemma OutputShift<I, O, C>(taps: seq<C>, interp: nat, decim: nat, x: seq<I>, init: O, mac: (O, I, C) -> O, k: nat)
    requires interp > 0 && decim > 0 && |x| >= decim
    requires k < |PolyphaseOut(taps, interp, decim, x[decim..], init, mac)|
    requires k + interp < |PolyphaseOut(taps, interp, decim, x, init, mac)|
    ensures PolyphaseOut(taps, interp, decim, x[decim..], init, mac)[k]
         == PolyphaseOut(taps, interp, decim, x, init, mac)[k + interp]
  {
    var branch, at := ShiftedPhase(k, interp, decim);
    PolyphaseIs(taps, interp, decim, x[decim..], init, mac, k, branch, at);
    PolyphaseIs(taps, interp, decim, x, init, mac, k + interp, branch, decim + at);
    BranchDrop(taps, interp, branch, x, init, mac, decim, at, |taps| / interp);
  }

  lemma {:induction false} ResamplingRestart<I, O, C>(taps: seq<C>, interp: nat, decim: nat, x: seq<I>, init: O,
                                                      mac: (O, I, C) -> O, produced: nat, consumed: nat)
    requires interp > 0 && decim > 0 && WholePeriods(interp, decim, consumed, produced)
    requires produced <= |PolyphaseOut(taps, interp, decim, x, init, mac)|
    ensures consumed <= |x|
    ensures PolyphaseOut(taps, interp, decim, x[consumed..], init, mac)
            == PolyphaseOut(taps, interp, decim, x, init, mac)[produced..]
    decreases produced
  {
    if produced == 0 {
      assert x[consumed..] == x;
    } else {
      var y := PolyphaseOut(taps, interp, decim, x, init, mac);
      OnePeriodLater(taps, interp, decim, x, init, mac);
      ResamplingRestart(taps, interp, decim, x[decim..], init, mac, produced - interp, consumed - decim);
      assert x[decim..][consumed - decim..] == x[consumed..];
      assert y[interp..][produced - interp..] == y[produced..];
    }
  }

  /** What is left of the input gives what is left of the output. */
  lemma Restart<I, O, C>(core: Core<I, O, C>, x: seq<I>, consumed: nat, produced: nat)
    requires core.Usable() && core.Paired(consumed, produced) && produced <= |core.Out(x)|
    ensures consumed <= |x| && core.Out(x[consumed..]) == core.Out(x)[produced..]
  {
    match core
    case Plain(taps, init, mac) => PlainRestart(taps, x, init, mac, produced);
    case Decimating(taps, d, init, mac) => DecimatingRestart(taps, d, x, init, mac, produced, consumed);
    case Resampling(taps, interp, decim, init, mac) =>
      ResamplingRestart(taps, interp, decim, x, init, mac, produced, consumed);
  }

  // ---- more input

  lemma PlainExtend<I, O, C>(taps: seq<C>, x: seq<I>, more: seq<I>, init: O, mac: (O, I, C) -> O)
    requires |taps| > 0
    ensures FirOut(taps, x, init, mac) <= FirOut(taps, x + more, init, mac)
  {
    var y, z := FirOut(taps, x, init, mac), FirOut(taps, x + more, init, mac);
    forall k | 0 <= k < |y| ensures y[k] == z[k] {
      AccumulateExtend(taps, x, more, init, mac, k, |taps|);
    }
  }

  lemma DecimatingExtend<I, O, C>(taps: seq<C>, d: nat, x: seq<I>, more: seq<I>, init: O, mac: (O, I, C) -> O)
    requires |taps| > 0 && d > 0
    ensures DecimatedOut(taps, d, x, init, mac) <= DecimatedOut(taps, d, x + more, init, mac)
  {
    var y, z := DecimatedOut(taps, d, x, init, mac), DecimatedOut(taps, d, x + more, init, mac);
    DivMono(Windows(|x|, |taps|), Windows(|x + more|, |taps|), d);
    forall k | 0 <= k < |y| ensures y[k] == z[k] {
      var at := d - 1 + k * d;
      DecimatedIs(taps, d, x, init, mac, k, at);
      DecimatedIs(taps, d, x + more, init, mac, k, at);
      AccumulateExtend(taps, x, more, init, mac, at, |taps|);
    }
  }

  lemma {:induction false} BranchExtend<I, O, C>(taps: seq<C>, interp: nat, branch: nat, x: seq<I>, more: seq<I>,
                                                 init: O, mac: (O, I, C) -> O, at: nat, n: nat)
    requires branch < interp && n <= |taps| / interp && at + n <= |x|
    ensures AccumulateBranch(taps, interp, branch, x + more, init, mac, at, n)
         == AccumulateBranch(taps, interp, branch, x, init, mac, at, n)
  {
    if n > 0 {
      BranchExtend(taps, interp, branch, x, more, init, mac, at, n - 1);
    }
  }

  lemma {:induction false} LengthGrows(len: nat, more: nat, bank: nat, interp: nat, decim: nat)
    requires decim > 0
    ensures PolyphaseLength(len, bank, interp, decim) <= PolyphaseLength(len + more, bank, interp, decim)
    decreases len
  {
    if len >= bank + decim {
      LengthGrows(len - decim, more, bank, interp, decim);
    }
  }

  lemma Phase(k: nat, interp: nat, decim: nat) returns (branch: nat, at: nat)
    requires interp > 0
    ensures IsPhase(k, interp, decim, branch, at)
  {
    branch, at := (k * decim) % interp, k * decim / interp;
  }

  lemma ResamplingExtend<I, O, C>(taps: seq<C>, interp: nat, decim: nat, x: seq<I>, more: seq<I>, init: O,
                                  mac: (O, I, C) -> O)
    requires interp > 0 && decim > 0
    ensures PolyphaseOut(taps, interp, decim, x, init, mac) <= PolyphaseOut(taps, interp, decim, x + more, init, mac)
  {
    var y, z := PolyphaseOut(taps, interp, decim, x, init, mac), PolyphaseOut(taps, interp, decim, x + more, init, mac);
    LengthGrows(|x|, |more|, |taps| / interp, interp, decim);
    forall k | 0 <= k < |y| ensures y[k] == z[k] {
      var branch, at := Phase(k, interp, decim);
      PolyphaseIs(taps, interp, decim, x, init, mac, k, branch, at);
      PolyphaseIs(taps, interp, decim, x + more, init, mac, k, branch, at);
      BranchExtend(taps, interp, branch, x, more, init, mac, at, |taps| / interp);
    }
  }

  /** More input only adds outputs at the end. */
  lemma Extend<I, O, C>(core: Core<I, O, C>, x: seq<I>, more: seq<I>)
    requires core.Usable()
    ensures core.Out(x) <= core.Out(x + more)
  {
    match core
    case Plain(taps, init, mac) => PlainExtend(taps, x, more, init, mac);
    case Decimating(taps, d, init, mac) => DecimatingExtend(taps, d, x, more, init, mac);
    case Resampling(taps, interp, decim, init, mac) => ResamplingExtend(taps, interp, decim, x, more, init, mac);
  }

  // ---- the block

  class Fir<I, O, C> {
    const core: Core<I, O, C>
    var input: seq<I>        // arrived and not consumed
    var output: seq<O>       // everything produced so far
    var inputFinished: bool
    var finished: bool
    ghost var fed: seq<I>    // everything that ever arrived
    ghost var taken: nat     // how much of it is consumed

    /** The output is a prefix of the one-shot output, and the consumption goes with it. */
    ghost predicate Valid()
      reads this
    {
      && core.Usable()
      && taken <= |fed| && input == fed[taken..]
      && output <= core.Out(fed)
      && core.Paired(taken, |output|)
      && (finished ==> inputFinished && output == core.Out(fed))
    }

    constructor (core: Core<I, O, C>)
      requires core.Usable()
      ensures Valid() && this.core == core && fed == [] && output == [] && !inputFinished && !finished
    {
      this.core := core;
      input, output, inputFinished, finished, fed, taken := [], [], false, false, [], 0;
      new;
      Start(core);
    }

    /** The upstream block writes into the buffer. */
    method Feed(more: seq<I>)
      requires Valid() && !inputFinished
      modifies this
      ensures Valid() && fed == old(fed) + more && output == old(output) && !inputFinished && finished == old(finished)
    {
      Extend(core, fed, more);
      fed := fed + more;
      input := input + more;
      assert input == fed[taken..];
    }

    method Close()
      requires Valid()
      modifies this`inputFinished
      ensures Valid() && inputFinished
    {
      inputFinished := true;
    }

    /** `work` on a call whose output slice is `o`. */
    method Work(o: array<O>)
      requires Valid() && !finished
      modifies this`input, this`output, this`finished, this`taken, o
      ensures Valid() && fed == old(fed) && old(output) <= output && inputFinished == old(inputFinished)
      ensures finished <==> inputFinished && |core.Out(old(input))| <= o.Length
      ensures finished ==> output == core.Out(fed)
    {
      Restart(core, fed, taken, |output|);
      var consumed, produced, status := core.Filter(input, o);
      Step(core, fed, taken, output, o[..produced], consumed);
      input := input[consumed..];
      taken := taken + consumed;
      output := output + o[..produced];
      if inputFinished && !status.InsufficientOutput? {
        finished := true;
      }
    }
  }

  lemma Start<I, O, C>(core: Core<I, O, C>)
    requires core.Usable()
    ensures core.Paired(0, 0) && core.Out([]) == []
  {
  }

  /** One call further along the one-shot output. */
  lemma Step<I, O, C>(core: Core<I, O, C>, fed: seq<I>, taken: nat, output: seq<O>, chunk: seq<O>, consumed: nat)
    requires core.Usable() && taken <= |fed| && output <= core.Out(fed)
    requires core.Paired(taken, |output|) && core.Paired(consumed, |chunk|)
    requires chunk <= core.Out(fed[taken..])
    ensures taken + consumed <= |fed| && fed[taken..][consumed..] == fed[taken + consumed..]
    ensures output + chunk <= core.Out(fed)
    ensures core.Paired(taken + consumed, |output + chunk|)
  {
    Restart(core, fed, taken, |output|);
    var all, produced := core.Out(fed), |chunk|;
    Restart(core, fed[taken..], consumed, produced);
    assert fed[taken..][consumed..] == fed[taken + consumed..];
    assert all[|output|..][produced..] == all[|output| + produced..];
    assert all[..|output| + produced] == all[..|output|] + all[|output|..][..produced];
    PairedAdd(core, taken, |output|, consumed, produced);
  }

  lemma PairedAdd<I, O, C>(core: Core<I, O, C>, c0: nat, p0: nat, c1: nat, p1: nat)
    requires core.Usable() && core.Paired(c0, p0) && core.Paired(c1, p1)
    ensures core.Paired(c0 + c1, p0 + p1)
  {
    match core
    case Plain(_, _, _) =>
    case Decimating(_, d, _, _) => assert (p0 + p1) * d == p0 * d + p1 * d;
    case Resampling(_, interp, decim, _, _) => PeriodsAdd(interp, decim, c0, p0, c1, p1);
  }

  lemma {:induction false} PeriodsAdd(interp: nat, decim: nat, c0: nat, p0: nat, c1: nat, p1: nat)
    requires interp > 0 && WholePeriods(interp, decim, c0, p0) && WholePeriods(interp, decim, c1, p1)
    ensures WholePeriods(interp, decim, c0 + c1, p0 + p1)
    decreases p0
  {
    if p0 > 0 {
      PeriodsAdd(interp, decim, c0 - decim, p0 - interp, c1, p1);
    }
  }
}
