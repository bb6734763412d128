/** The recursive filter of crates/futuredsp/src/iir.rs and the block around it, src/blocks/iir.rs, for any
    arithmetic: the filter uses the operations of the ring only. Its laws are needed to say that the sequence is the
    difference equation. */
module Iir {
  import opened Rings
  import opened Sums
  import K = KernelAlgebra
  import opened FirKernels

  // ---- the sequence the filter computes

  /** b[0] x[k + nb - 1] + ... + b[n - 1] x[k + nb - n], from the left. */
  function Forward<T>(r: Ring<T>, b: seq<T>, x: seq<T>, k: nat, n: nat): T
    requires n <= |b| && k + |b| <= |x|
  {
    if n == 0 then r.zero else r.add(Forward(r, b, x, k, n - 1), r.mul(b[n - 1], x[k + |b| - n]))
  }

  /** The j-th latest output; before there are that many, an input sample stands in for it. */
  function Latest<T>(x: seq<T>, y: seq<T>, j: nat): T
    requires j < |y| + |x|
  {
    if j < |y| then y[|y| - 1 - j] else x[j - |y|]
  }

  function Feedback<T>(r: Ring<T>, a: seq<T>, x: seq<T>, y: seq<T>, start: T, n: nat): T
    requires n <= |a| <= |x|
  {
    if n == 0 then start else r.add(Feedback(r, a, x, y, start, n - 1), r.mul(a[n - 1], Latest(x, y, n - 1)))
  }

  /** The first n outputs: y[k] from x[k..k + nb] and the latest na outputs. */
  function Outputs<T>(r: Ring<T>, a: seq<T>, b: seq<T>, x: seq<T>, n: nat): (y: seq<T>)
    requires |a| <= |x| && (n == 0 || n + |b| <= |x| + 1)
    ensures |y| == n
  {
    if n == 0 then []
    else
      var y := Outputs(r, a, b, x, n - 1);
      y + [Feedback(r, a, x, y, Forward(r, b, x, n - 1, |b|), |a|)]
  }

  lemma {:induction false} ForwardExtend<T>(r: Ring<T>, b: seq<T>, x: seq<T>, more: seq<T>, k: nat, n: nat)
    requires n <= |b| && k + |b| <= |x|
    ensures Forward(r, b, x + more, k, n) == Forward(r, b, x, k, n)
  {
    if n > 0 {
      ForwardExtend(r, b, x, more, k, n - 1);
    }
  }

  lemma {:induction false} FeedbackExtend<T>(r: Ring<T>, a: seq<T>, x: seq<T>, more: seq<T>, y: seq<T>, start: T,
                                             n: nat)
    requires n <= |a| <= |x|
    ensures Feedback(r, a, x + more, y, start, n) == Feedback(r, a, x, y, start, n)
  {
    if n > 0 {
      FeedbackExtend(r, a, x, more, y, start, n - 1);
    }
  }

  /** More input does not change the outputs there are. */
  lemma {:induction false} OutputsExtend<T>(r: Ring<T>, a: seq<T>, b: seq<T>, x: seq<T>, more: seq<T>, n: nat)
    requires |a| <= |x| && (n == 0 || n + |b| <= |x| + 1)
    ensures Outputs(r, a, b, x + more, n) == Outputs(r, a, b, x, n)
  {
    if n > 0 {
      OutputsExtend(r, a, b, x, more, n - 1);
      ForwardExtend(r, b, x, more, n - 1, |b|);
      FeedbackExtend(r, a, x, more, Outputs(r, a, b, x, n - 1), Forward(r, b, x, n - 1, |b|), |a|);
    }
  }

  lemma {:induction false} OutputsPrefix<T>(r: Ring<T>, a: seq<T>, b: seq<T>, x: seq<T>, m: nat, n: nat)
    requires |a| <= |x| && (n == 0 || n + |b| <= |x| + 1) && m <= n
    ensures Outputs(r, a, b, x, m) == Outputs(r, a, b, x, n)[..m]
  {
    if m < n {
      OutputsPrefix(r, a, b, x, m, n - 1);
    }
  }

  lemma OutputsSnoc<T>(r: Ring<T>, a: seq<T>, b: seq<T>, x: seq<T>, y: seq<T>, v: T)
    requires |a| <= |x| && |y| + |b| <= |x| && y == Outputs(r, a, b, x, |y|)
    requires v == Feedback(r, a, x, y, Forward(r, b, x, |y|, |b|), |a|)
    ensures y + [v] == Outputs(r, a, b, x, |y + [v]|)
  {
  }

  lemma LatestSnoc<T>(x: seq<T>, y: seq<T>, v: T, j: nat)
    requires j < |y| + |x|
    ensures Latest(x, y + [v], j) == if j == 0 then v else Latest(x, y, j - 1)
  {
  }

  // ---- the filter

  /** A call that returns early: no input, too little of it to seed the memory, or all of it just pushed. */
  predicate Stalls(filled: nat, taps: nat, len: nat) {
    len == 0 || (filled < taps && len < taps) || (filled == 0 && len == taps)
  }

  class IirFilter<T> {
    const ops: Ring<T>
    const aTaps: seq<T>
    const bTaps: seq<T>
    var memory: seq<T>

    constructor (ops: Ring<T>, aTaps: seq<T>, bTaps: seq<T>)
      ensures this.ops == ops && this.aTaps == aTaps && this.bTaps == bTaps && memory == []
    {
      this.ops, this.aTaps, this.bTaps, memory := ops, aTaps, bTaps, [];
    }

    /** The memory after the outputs y of the input x. While it fills, nothing has been output and it holds inputs. */
    ghost predicate Remembers(x: seq<T>, y: seq<T>)
      reads this
    {
      && |memory| <= |aTaps| && |memory| <= |x|
      && (y != [] ==> |memory| == |aTaps|)
      && forall j :: 0 <= j < |memory| ==> memory[j] == Latest(x, y, j)
    }

    /** The first loop of the kernel. */
    method Seed(i: seq<T>) returns (full: bool, filled: nat)
      requires |memory| <= |aTaps|
      modifies this`memory
      ensures full <==> |memory| == |aTaps|
      ensures |old(memory)| <= |memory| <= |aTaps| && filled == |memory| - |old(memory)|
      ensures full <==> |old(memory)| == |aTaps| || |i| >= |aTaps|
      ensures |memory| > |old(memory)| ==> |memory| <= |i|
      ensures forall j :: 0 <= j < |memory| ==> memory[j] == if j < |old(memory)| then old(memory)[j] else i[j]
    {
      filled := 0;
      while |memory| < |aTaps|
        invariant |old(memory)| <= |memory| <= |aTaps| && filled == |memory| - |old(memory)|
        invariant |memory| > |old(memory)| ==> |memory| <= |i|
        invariant forall j :: 0 <= j < |memory| ==> memory[j] == if j < |old(memory)| then old(memory)[j] else i[j]
      {
        if |i| <= |memory| {
          return false, filled;
        }
        memory := memory + [i[|memory|]];
        filled := filled + 1;
      }
      full := true;
    }

    /** The two sums of one output. */
    method Next(i: seq<T>, consumed: nat, ghost x: seq<T>, ghost y: seq<T>) returns (v: T)
      requires |memory| == |aTaps| <= |x| && Remembers(x, y)
      requires consumed + |bTaps| <= |i| && consumed <= |y| <= |x| && i == x[|y| - consumed..]
      ensures v == Feedback(ops, aTaps, x, y, Forward(ops, bTaps, x, |y|, |bTaps|), |aTaps|)
    {
      v := ops.zero;
      for t := 0 to |bTaps|
        invariant v == Forward(ops, bTaps, x, |y|, t)
      {
        v := ops.add(v, ops.mul(bTaps[t], i[consumed + |bTaps| - t - 1]));
      }
      ghost var start := v;
      for t := 0 to |aTaps|
        invariant v == Feedback(ops, aTaps, x, y, start, t)
      {
        v := ops.add(v, ops.mul(aTaps[t], memory[t]));
      }
    }

    /** The in-place shift of the memory; the new output becomes its first entry. */
    method Remember(v: T)
      modifies this`memory
      ensures |memory| == |old(memory)|
      ensures forall j :: 0 <= j < |memory| ==> memory[j] == if j == 0 then v else old(memory)[j - 1]
    {
      var idx := |memory|;
      while idx > 1
        invariant |memory| == |old(memory)| && idx <= |memory|
        invariant |memory| > 0 ==> idx >= 1
        invariant forall j :: 0 <= j < |memory| ==> memory[j] == old(memory)[if j < idx then j else j - 1]
      {
        idx := idx - 1;
        memory := memory[idx := memory[idx - 1]];
      }
      if memory != [] {
        memory := memory[0 := v];
      }
    }

    /** y is what the filter has output for x, and the memory agrees. */
    ghost predicate Running(x: seq<T>, y: seq<T>)
      reads this
    {
      && |memory| == |aTaps| <= |x| && Remembers(x, y)
      && (y == [] || |y| + |bTaps| <= |x| + 1)
      && y == Outputs(ops, aTaps, bTaps, x, |y|)
    }

    /** The loop's body: the next output, remembered. */
    method Produce(i: seq<T>, consumed: nat, ghost x: seq<T>, ghost y: seq<T>) returns (v: T)
      requires Running(x, y) && consumed <= |y| <= |x| && i == x[|y| - consumed..] && consumed + |bTaps| <= |i|
      modifies this`memory
      ensures Running(x, y + [v])
    {
      v := Next(i, consumed, x, y);
      OutputsSnoc(ops, aTaps, bTaps, x, y, v);
      Remember(v);
      forall j | 0 <= j < |memory| ensures memory[j] == Latest(x, y + [v], j) {
        LatestSnoc(x, y, v, j);
      }
    }

    /** The main loop. */
    method Run(i: seq<T>, o: array<T>, ghost x: seq<T>, ghost y: seq<T>) returns (consumed: nat, produced: nat)
      requires |bTaps| > 0 && |y| <= |x| && i == x[|y|..] && Running(x, y)
      modifies this`memory, o
      ensures consumed == produced
      ensures produced == if |i| < |bTaps| then 0
                          else if |i| + 1 - |bTaps| < o.Length then |i| + 1 - |bTaps| else o.Length
      ensures Running(x, y + o[..produced])
    {
      consumed, produced := 0, 0;
      ghost var ys := y;
      assert y + o[..0] == y;
      while consumed + |bTaps| - 1 < |i| && produced < o.Length
        invariant consumed == produced <= o.Length && (produced == 0 || consumed + |bTaps| <= |i| + 1)
        invariant |ys| == |y| + produced && ys == y + o[..produced] && Running(x, ys)
        decreases |i| - consumed
      {
        var v := Produce(i, consumed, x, ys);
        o[produced] := v;
        ys := ys + [v];
        produced := produced + 1;
        consumed := consumed + 1;
        assert o[..produced] == o[..produced - 1] + [v];
      }
    }

    /** `taps_accessor_work`, called with the unread input i of x after the outputs y. */
    method Filter(i: seq<T>, o: array<T>, ghost x: seq<T>, ghost y: seq<T>)
      returns (consumed: nat, produced: nat, status: Status)
      requires |bTaps| > 0 && |y| <= |x| && i == x[|y|..] && Remembers(x, y)
      requires y == [] || Running(x, y)
      modifies this`memory, o
      ensures consumed == produced <= o.Length
      ensures produced == if Stalls(|old(memory)|, |aTaps|, |i|) || |i| < |bTaps| then 0
                          else if |i| + 1 - |bTaps| < o.Length then |i| + 1 - |bTaps| else o.Length
      ensures Remembers(x, y + o[..produced]) && |memory| >= |old(memory)|
      ensures |memory| == |aTaps| <==> |old(memory)| == |aTaps| || |i| >= |aTaps|
      ensures produced > 0 ==> Running(x, y + o[..produced])
      ensures status == if Stalls(|old(memory)|, |aTaps|, |i|)
                        then (if o.Length == 0 then BothSufficient else InsufficientInput)
                        else if consumed == |i| && produced == o.Length then BothSufficient
                        else if consumed < |i| then InsufficientOutput else InsufficientInput
    {
      if i == [] {
        return 0, 0, if o.Length == 0 then BothSufficient else InsufficientInput;
      }
      var full, filled := Seed(i);
      if !full || filled == |i| {
        return 0, 0, if o.Length == 0 then BothSufficient else InsufficientInput;
      }
      consumed, produced := Run(i, o, x, y);
      status := if consumed == |i| && produced == o.Length then BothSufficient
                else if consumed < |i| then InsufficientOutput else InsufficientInput;
    }
  }

  /** Every output the input allows. */
  function AllOutputs<T>(r: Ring<T>, a: seq<T>, b: seq<T>, x: seq<T>): seq<T> {
    if |x| < |a| then [] else Outputs(r, a, b, x, Windows(|x|, |b|))
  }

  lemma PrefixOfAll<T>(r: Ring<T>, a: seq<T>, b: seq<T>, x: seq<T>, y: seq<T>)
    requires y != [] && |b| > 0 && |a| <= |x| && |y| + |b| <= |x| + 1 && y == Outputs(r, a, b, x, |y|)
    ensures |y| <= Windows(|x|, |b|) && y == AllOutputs(r, a, b, x)[..|y|]
  {
    OutputsPrefix(r, a, b, x, |y|, Windows(|x|, |b|));
  }

  // ---- the sequence is the difference equation

  lemma {:induction false} ForwardIsSum<T>(r: Ring<T>, b: seq<T>, x: seq<T>, k: nat, n: nat, f: int -> T)
    requires n <= |b| && k + |b| <= |x| && forall j :: 0 <= j < n ==> f(j) == r.mul(b[j], x[k + |b| - 1 - j])
    ensures Forward(r, b, x, k, n) == Sum(r, n, f)
  {
    if n > 0 {
      ForwardIsSum(r, b, x, k, n - 1, f);
      assert f(n - 1) == r.mul(b[n - 1], x[k + |b| - 1 - (n - 1)]);
    }
  }

  lemma {:induction false} FeedbackIsSum<T(!new)>(r: Ring<T>, a: seq<T>, x: seq<T>, y: seq<T>, k: nat, start: T,
                                                  n: nat, f: int -> T)
    requires IsRing(r) && n <= |a| <= |x| && k <= |y|
    requires forall j :: 0 <= j < n ==> f(j) == r.mul(a[j], if j < k then y[k - 1 - j] else x[j - k])
    ensures Feedback(r, a, x, y[..k], start, n) == r.add(start, Sum(r, n, f))
  {
    if n == 0 {
      assert AddComm(r, start, r.zero) && AddZero(r, start);
    } else {
      FeedbackIsSum(r, a, x, y, k, start, n - 1, f);
      LatestIs(x, y, k, n - 1);
      assert AddAssoc(r, start, Sum(r, n - 1, f), f(n - 1));
    }
  }

  lemma LatestIs<T>(x: seq<T>, y: seq<T>, k: nat, j: nat)
    requires k <= |y| && j < k + |x|
    ensures Latest(x, y[..k], j) == if j < k then y[k - 1 - j] else x[j - k]
  {
  }

  /** The sequence one output at a time. */
  lemma OutputAt<T>(r: Ring<T>, a: seq<T>, b: seq<T>, x: seq<T>, k: nat)
    requires |a| <= |x| && k < |AllOutputs(r, a, b, x)|
    ensures Outputs(r, a, b, x, k) == AllOutputs(r, a, b, x)[..k]
    ensures AllOutputs(r, a, b, x)[k] ==
            Feedback(r, a, x, Outputs(r, a, b, x, k), Forward(r, b, x, k, |b|), |a|)
  {
    var y := AllOutputs(r, a, b, x);
    OutputsPrefix(r, a, b, x, k, |y|);
    OutputsPrefix(r, a, b, x, k + 1, |y|);
    assert y[..k + 1][k] == y[k];
  }

  /** Output k is b[0] x[k + nb - 1] + b[1] x[k + nb - 2] + ... plus a[0] y[k - 1] + a[1] y[k - 2] + ...; in place of
      the outputs before the first one stand the first samples of the input, x[0] next to y[0]. */
  lemma DifferenceEquation<T(!new)>(r: Ring<T>, a: seq<T>, b: seq<T>, x: seq<T>, y: seq<T>, k: nat, f: int -> T,
                                    g: int -> T)
    requires IsRing(r) && y == AllOutputs(r, a, b, x) && k < |y|
    requires forall j :: 0 <= j < |b| ==> f(j) == r.mul(b[j], x[k + |b| - 1 - j])
    requires forall j :: 0 <= j < |a| ==> g(j) == r.mul(a[j], if j < k then y[k - 1 - j] else x[j - k])
    ensures y[k] == r.add(Sum(r, |b|, f), Sum(r, |a|, g))
  {
    OutputAt(r, a, b, x, k);
    ForwardIsSum(r, b, x, k, |b|, f);
    FeedbackIsSum(r, a, x, y, k, Sum(r, |b|, f), |a|, g);
  }

  lemma NoFeedbackAt<T(!new)>(r: Ring<T>, b: seq<T>, x: seq<T>, k: nat)
    requires IsRing(r) && k + |b| <= |x|
    ensures Forward(r, b, x, k, |b|) == K.ConvAt(r, b, x, k + |b| - 1)
  {
    var h := K.ConvTerm(r, b, x, k + |b| - 1);
    forall j | 0 <= j < |b| ensures h(j) == r.mul(b[j], x[k + |b| - 1 - j]) {
      assert MulComm(r, b[j], x[k + |b| - 1 - j]);
    }
    ForwardIsSum(r, b, x, k, |b|, h);
  }

  /** Without feedback taps the filter is the plain one of FirKernels. */
  lemma NoFeedback<T(!new)>(r: Ring<T>, b: seq<T>, x: seq<T>)
    requires IsRing(r)
    ensures AllOutputs(r, [], b, x) == FirOut(b, x, r.zero, K.Mac(r))
  {
    var y, z := AllOutputs(r, [], b, x), FirOut(b, x, r.zero, K.Mac(r));
    forall k | 0 <= k < |y| ensures y[k] == z[k] {
      OutputAt(r, [], b, x, k);
      NoFeedbackAt(r, b, x, k);
      K.FirIsConvolution(r, b, x, k);
    }
  }

  // ---- the block

  /** When the last call finds `filled` entries in the memory and `unread` samples and ends by stalling or by taking
      them all, the output is complete unless the whole input went into the memory in that call. */
  lemma FinishedWith<T>(r: Ring<T>, a: seq<T>, b: seq<T>, x: seq<T>, y: seq<T>, filled: nat, unread: nat, produced: nat)
    requires |b| > 0 && (y == [] || (|a| <= |x| && |y| + |b| <= |x| + 1 && y == Outputs(r, a, b, x, |y|)))
    requires produced <= |y| && unread == |x| - (|y| - produced) && filled <= |a| && (|y| > produced ==> filled == |a|)
    requires if Stalls(filled, |a|, unread) then produced == 0 else |b| == 1 && produced == unread
    ensures y == AllOutputs(r, a, b, x) <==> !(filled == 0 && |x| == |a| >= |b|)
  {
    if y != [] {
      PrefixOfAll(r, a, b, x, y);
    }
  }

  class Block<T> {
    const core: IirFilter<T>
    var input: seq<T>
    var output: seq<T>
    var inputFinished: bool
    var finished: bool
    ghost var fed: seq<T>

    /** The output is a prefix of one sequence, and as much input is consumed as output produced. */
    ghost predicate Valid()
      reads this, core
    {
      && |core.bTaps| > 0 && |output| <= |fed| && input == fed[|output|..]
      && core.Remembers(fed, output)
      && (output == [] || core.Running(fed, output))
    }

    constructor (ops: Ring<T>, aTaps: seq<T>, bTaps: seq<T>)
      requires |bTaps| > 0
      ensures Valid() && fresh(core) && fed == [] && output == [] && !inputFinished && !finished
      ensures core.ops == ops && core.aTaps == aTaps && core.bTaps == bTaps
    {
      core := new IirFilter<T>(ops, aTaps, bTaps);
      input, output, inputFinished, finished, fed := [], [], false, false, [];
    }

    method Feed(more: seq<T>)
      requires Valid() && !inputFinished
      modifies this
      ensures Valid() && fed == old(fed) + more && output == old(output) && !inputFinished && finished == old(finished)
    {
      if output != [] {
        OutputsExtend(core.ops, core.aTaps, core.bTaps, fed, more, |output|);
      }
      fed := fed + more;
      input := input + more;
    }

    method Close()
      requires Valid()
      modifies this`inputFinished
      ensures Valid() && inputFinished
    {
      inputFinished := true;
    }

    /** The filter's part of `work`. */
    method Advance(o: array<T>) returns (status: Status, ghost produced: nat)
      requires Valid()
      modifies this`input, this`output, core`memory, o
      ensures Valid() && old(output) <= output && |output| == |old(output)| + produced && produced <= o.Length
      ensures produced == if Stalls(|old(core.memory)|, |core.aTaps|, |old(input)|)
                             || |old(input)| < |core.bTaps| then 0
                          else if |old(input)| + 1 - |core.bTaps| < o.Length then |old(input)| + 1 - |core.bTaps|
                          else o.Length
      ensures status.InsufficientOutput? <==>
                !Stalls(|old(core.memory)|, |core.aTaps|, |old(input)|) && produced < |old(input)|
    {
      var consumed, n, status' := core.Filter(input, o, fed, output);
      assert fed[|output|..][consumed..] == fed[|output| + consumed..];
      input := input[consumed..];
      output := output + o[..n];
      status, produced := status', n;
    }

    /** `work`. Besides the output it says exactly when the block finishes: with more than one forward tap it never
        does once it has output anything, and if the whole input is exactly as long as the feedback and comes in one
        call, it finishes without the outputs that input allows. */
    method Work(o: array<T>)
      requires Valid() && !finished
      modifies this`input, this`output, this`finished, core`memory, o
      ensures Valid() && fed == old(fed) && inputFinished == old(inputFinished)
      ensures old(output) <= output && |output| <= |old(output)| + o.Length
      ensures output <= AllOutputs(core.ops, core.aTaps, core.bTaps, fed)
      ensures finished <==> inputFinished && (Stalls(|old(core.memory)|, |core.aTaps|, |old(input)|)
                                              || (|core.bTaps| == 1 && |old(input)| <= o.Length))
      ensures |core.bTaps| > 1 && output != [] ==> !finished
      ensures finished ==> (output == AllOutputs(core.ops, core.aTaps, core.bTaps, fed)
                            <==> !(old(core.memory) == [] && |fed| == |core.aTaps| >= |core.bTaps|))
    {
      ghost var filled, unread := |core.memory|, |input|;
      var status, produced := Advance(o);
      if output != [] {
        PrefixOfAll(core.ops, core.aTaps, core.bTaps, fed, output);
      }
      if inputFinished && !status.InsufficientOutput? {
        finished := true;
        FinishedWith(core.ops, core.aTaps, core.bTaps, fed, output, filled, unread, produced);
      }
    }
  }

  /** One feedback tap, one forward tap and one sample, read in one call: the block finishes with nothing output. */
  method SeedingLosesOutputs<T>(ops: Ring<T>, a: T, b: T, v: T) returns (d: Block<T>)
    ensures fresh(d) && d.Valid() && d.finished && d.fed == [v] && d.output == []
    ensures |AllOutputs(ops, [a], [b], d.fed)| == 1
  {
    d := new Block(ops, [a], [b]);
    assert d.core.memory == [];
    d.Feed([v]);
    d.Close();
    var o := new T[1](_ => ops.zero);
    d.Work(o);
  }
}
