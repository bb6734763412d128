/** `Delay` of src/blocks/delay.rs: the skew between output and input is what was asked for, less what is pending. */
module Delay {
  import opened Wrappers

  datatype State = Pad(padLeft: nat) | Copy | Skip(skipLeft: nat)

  /** A `new_value` message: a map with the two entries, or something else. */
  datatype Pmt = MapStrPmt(pad: Option<bool>, value: Option<nat>) | Other

  /** What is still to be done: samples to insert, less samples to drop. */
  function Pending(s: State): int {
    match s
    case Pad(n) => n
    case Copy => 0
    case Skip(n) => 0 - n
  }

  function Normal(v: int): State {
    if v > 0 then Pad(v) else if v == 0 then Copy else Skip(0 - v)
  }

  function Zeros<T>(zero: T, n: nat): (s: seq<T>)
    ensures |s| == n
  {
    seq(n, _ => zero)
  }

  lemma ZerosAdd<T>(zero: T, m: nat, n: nat)
    ensures Zeros(zero, m) + Zeros(zero, n) == Zeros(zero, m + n)
  {
  }

  // ---- what a delay can do

  datatype Act<T> = Arrive(more: seq<T>) | PadSome(m: nat) | SkipSome(m: nat) | CopySome(m: nat) | Change(v: int)

  datatype Machine<T> = Machine(x: seq<T>, state: State, taken: nat, out: seq<T>)

  /** `new` */
  function Initial<T>(n: int): Machine<T> {
    Machine([], if n > 0 then Pad(n) else Skip(0 - n), 0, [])
  }

  predicate Allowed<T>(m: Machine<T>, a: Act<T>) {
    match a
    case Arrive(_) => true
    case PadSome(k) => m.state.Pad? && k <= m.state.padLeft
    case SkipSome(k) => m.state.Skip? && k <= m.state.skipLeft && m.taken + k <= |m.x|
    case CopySome(k) => m.state.Copy? && m.taken + k <= |m.x|
    case Change(_) => true
  }

  function AfterPad(n: nat, k: nat): State
    requires k <= n
  {
    if k == n then Copy else Pad(n - k)
  }

  function AfterSkip(n: nat, k: nat): State
    requires k <= n
  {
    if k == n then Copy else Skip(n - k)
  }

  function Apply<T>(zero: T, m: Machine<T>, a: Act<T>): Machine<T>
    requires Allowed(m, a)
  {
    match a
    case Arrive(more) => Machine(m.x + more, m.state, m.taken, m.out)
    case PadSome(k) => Machine(m.x, AfterPad(m.state.padLeft, k), m.taken, m.out + Zeros(zero, k))
    case SkipSome(k) => Machine(m.x, AfterSkip(m.state.skipLeft, k), m.taken + k, m.out)
    case CopySome(k) => Machine(m.x, Copy, m.taken + k, m.out + m.x[m.taken..m.taken + k])
    case Change(v) => Machine(m.x, Normal(Pending(m.state) + v), m.taken, m.out)
  }

  predicate IsRun<T>(zero: T, n: int, acts: seq<Act<T>>)
    decreases |acts|, 0
  {
    acts == [] || (IsRun(zero, n, acts[..|acts| - 1]) && Allowed(Run(zero, n, acts[..|acts| - 1]), acts[|acts| - 1]))
  }

  function Run<T>(zero: T, n: int, acts: seq<Act<T>>): Machine<T>
    requires IsRun(zero, n, acts)
    decreases |acts|, 1
  {
    if acts == [] then Initial(n) else Apply(zero, Run(zero, n, acts[..|acts| - 1]), acts[|acts| - 1])
  }

  lemma RunSnoc<T>(zero: T, n: int, acts: seq<Act<T>>, a: Act<T>)
    requires IsRun(zero, n, acts) && Allowed(Run(zero, n, acts), a)
    ensures IsRun(zero, n, acts + [a]) && Run(zero, n, acts + [a]) == Apply(zero, Run(zero, n, acts), a)
  {
    assert (acts + [a])[..|acts|] == acts;
  }

  // ---- skew

  /** The changes a run asked for. */
  function Changes<T>(acts: seq<Act<T>>): int {
    if acts == [] then 0
    else Changes(acts[..|acts| - 1]) + if acts[|acts| - 1].Change? then acts[|acts| - 1].v else 0
  }

  predicate Skewed<T>(m: Machine<T>, asked: int) {
    m.taken <= |m.x| && |m.out| - m.taken + Pending(m.state) == asked
  }

  lemma ApplyKeepsSkew<T>(zero: T, m: Machine<T>, a: Act<T>, asked: int)
    requires Skewed(m, asked) && Allowed(m, a)
    ensures Skewed(Apply(zero, m, a), asked + if a.Change? then a.v else 0)
  {
  }

  /** In every run of work and new_value: what was produced, less what was consumed, plus what is pending, is the
      initial delay plus all changes. */
  lemma {:induction false} SkewIsKept<T>(zero: T, n: int, acts: seq<Act<T>>)
    requires IsRun(zero, n, acts)
    ensures Skewed(Run(zero, n, acts), n + Changes(acts))
    decreases |acts|
  {
    if acts != [] {
      SkewIsKept(zero, n, acts[..|acts| - 1]);
      ApplyKeepsSkew(zero, Run(zero, n, acts[..|acts| - 1]), acts[|acts| - 1], n + Changes(acts[..|acts| - 1]));
    }
  }

  // ---- contents

  /** The stream delayed by n; a negative delay drops the first samples. */
  function Delayed<T>(zero: T, n: int, x: seq<T>): seq<T> {
    if n > 0 then Zeros(zero, n) + x
    else if 0 <= 0 - n <= |x| then x[0 - n..] else []
  }

  /** Output and consumption of an unchanged positive delay in each state. */
  predicate Padding<T(==)>(zero: T, n: nat, m: Machine<T>) {
    m.taken <= |m.x|
    && match m.state
       case Pad(k) => 0 < k <= n && m.taken == 0 && m.out == Zeros(zero, n - k)
       case Copy => m.out == Zeros(zero, n) + m.x[..m.taken]
       case Skip(_) => false
  }

  /** Output and consumption of an unchanged delay that drops n samples. */
  predicate Dropping<T(==)>(n: nat, m: Machine<T>) {
    m.taken <= |m.x|
    && match m.state
       case Skip(k) => m.taken + k == n && m.out == []
       case Copy => n <= m.taken && m.out == m.x[n..m.taken]
       case Pad(_) => false
  }

  lemma PaddingKeeps<T>(zero: T, n: nat, m: Machine<T>, a: Act<T>)
    requires Padding(zero, n, m) && Allowed(m, a) && !a.Change?
    ensures Padding(zero, n, Apply(zero, m, a))
  {
    match a
    case Arrive(more) => assert (m.x + more)[..m.taken] == m.x[..m.taken];
    case PadSome(k) =>
      ZerosAdd(zero, n - m.state.padLeft, k);
      assert Zeros(zero, n) + m.x[..0] == Zeros(zero, n);
    case CopySome(k) => assert m.x[..m.taken] + m.x[m.taken..m.taken + k] == m.x[..m.taken + k];
    case SkipSome(_) =>
  }

  lemma DroppingKeeps<T>(zero: T, n: nat, m: Machine<T>, a: Act<T>)
    requires Dropping(n, m) && Allowed(m, a) && !a.Change?
    ensures Dropping(n, Apply(zero, m, a))
  {
    match a
    case Arrive(more) =>
      if m.state.Copy? {
        assert (m.x + more)[n..m.taken] == m.x[n..m.taken];
      }
    case PadSome(_) =>
    case CopySome(k) => assert m.x[n..m.taken] + m.x[m.taken..m.taken + k] == m.x[n..m.taken + k];
    case SkipSome(_) =>
  }

  predicate Unchanged<T>(acts: seq<Act<T>>) {
    forall k :: 0 <= k < |acts| ==> !acts[k].Change?
  }

  lemma {:induction false} RunIsPadding<T>(zero: T, n: nat, acts: seq<Act<T>>)
    requires n > 0 && IsRun(zero, n, acts) && Unchanged(acts)
    ensures Padding(zero, n, Run(zero, n, acts))
    decreases |acts|
  {
    if acts == [] {
      assert Zeros(zero, 0) == [];
    } else {
      RunIsPadding(zero, n, acts[..|acts| - 1]);
      PaddingKeeps(zero, n, Run(zero, n, acts[..|acts| - 1]), acts[|acts| - 1]);
    }
  }

  lemma {:induction false} RunIsDropping<T>(zero: T, n: nat, acts: seq<Act<T>>)
    requires IsRun(zero, 0 - n, acts) && Unchanged(acts)
    ensures Dropping(n, Run(zero, 0 - n, acts))
    decreases |acts|
  {
    if acts != [] {
      RunIsDropping(zero, n, acts[..|acts| - 1]);
      DroppingKeeps(zero, n, Run(zero, 0 - n, acts[..|acts| - 1]), acts[|acts| - 1]);
    }
  }

  lemma PadsArePrefix<T>(zero: T, n: nat, k: nat, x: seq<T>)
    requires 0 < k <= n
    ensures Zeros(zero, n - k) <= Zeros(zero, n) + x
  {
    ZerosAdd(zero, n - k, k);
  }

  lemma CopiedIsPrefix<T>(pads: seq<T>, x: seq<T>, taken: nat)
    requires taken <= |x|
    ensures pads + x[..taken] <= pads + x
    ensures pads + x[..taken] == pads + x <==> taken == |x|
  {
    assert |pads + x| - |pads + x[..taken]| == |x| - taken;
  }

  lemma PaddingIsPrefix<T>(zero: T, n: nat, m: Machine<T>)
    requires n > 0 && Padding(zero, n, m)
    ensures m.out <= Delayed(zero, n, m.x)
    ensures m.state.Copy? ==> (m.out == Delayed(zero, n, m.x) <==> m.taken == |m.x|)
  {
    if m.state.Pad? {
      PadsArePrefix(zero, n, m.state.padLeft, m.x);
    } else {
      CopiedIsPrefix(Zeros(zero, n), m.x, m.taken);
    }
  }

  lemma DroppingIsPrefix<T>(zero: T, n: nat, m: Machine<T>)
    requires Dropping(n, m)
    ensures m.out <= Delayed(zero, 0 - n, m.x)
    ensures m.state.Copy? ==> (m.out == Delayed(zero, 0 - n, m.x) <==> m.taken == |m.x|)
    ensures m.taken == |m.x| ==> m.out == Delayed(zero, 0 - n, m.x)
  {
    if m.state.Copy? {
      assert Delayed(zero, 0 - n, m.x) == m.out + m.x[m.taken..];
    }
  }

  /** Without changes the output is always a prefix of the delayed stream, and past the padding it is all of it
      exactly when all input is read. */
  lemma OutputIsDelayed<T>(zero: T, n: int, acts: seq<Act<T>>)
    requires IsRun(zero, n, acts) && Unchanged(acts)
    ensures var m := Run(zero, n, acts);
            && m.out <= Delayed(zero, n, m.x)
            && (m.state.Copy? ==> (m.out == Delayed(zero, n, m.x) <==> m.taken == |m.x|))
            && (m.state.Skip? && m.taken == |m.x| ==> m.out == Delayed(zero, n, m.x))
  {
    if n > 0 {
      RunIsPadding(zero, n, acts);
      PaddingIsPrefix(zero, n, Run(zero, n, acts));
    } else {
      RunIsDropping(zero, 0 - n, acts);
      DroppingIsPrefix(zero, 0 - n, Run(zero, n, acts));
    }
  }

  // ---- the block

  /** Where a call of work ends the block once its input has ended: in Pad when the padding is done, otherwise when all
      input there is gets read. */
  predicate Ends(state: State, unread: nat, room: nat) {
    match state
    case Pad(n) => n <= room
    case Skip(n) => unread <= n
    case Copy => unread <= room
  }

  /** What a call of work does. */
  function Turn<T>(state: State, unread: nat, room: nat): Act<T> {
    match state
    case Pad(n) => PadSome(if room < n then room else n)
    case Skip(n) => SkipSome(if unread < n then unread else n)
    case Copy => CopySome(if unread < room then unread else room)
  }

  /** Writes to the front of the output slice; returns what the writer then produces. */
  method Fill<T>(o: array<T>, data: seq<T>) returns (produced: seq<T>)
    requires |data| <= o.Length
    modifies o
    ensures o[..|data|] == data == produced
  {
    for k := 0 to |data|
      invariant o[..k] == data[..k]
    {
      o[k] := data[k];
      assert o[..k + 1] == o[..k] + [data[k]];
    }
    produced := o[..|data|];
  }

  class Delay<T> {
    const zero: T
    var state: State
    var input: seq<T>
    var output: seq<T>
    var inputFinished: bool
    var finished: bool
    var callAgain: bool
    ghost const initial: int
    ghost var machine: Machine<T>
    ghost var trace: seq<Act<T>>

    ghost predicate Fits()
      reads this
    {
      && state == machine.state && machine.taken <= |machine.x| && input == machine.x[machine.taken..]
        && output == machine.out
      && (finished ==> inputFinished && (state.Copy? || (state.Skip? && input == [])))
    }

    /** The block is where its history leads. */
    ghost predicate Valid()
      reads this
    {
      Fits() && IsRun(zero, initial, trace) && machine == Run(zero, initial, trace)
    }

    constructor (n: int, zero: T)
      ensures Valid() && initial == n && trace == [] && !inputFinished && !finished && this.zero == zero
    {
      state := if n > 0 then Pad(n) else Skip(0 - n);
      this.zero := zero;
      input, output, inputFinished, finished, callAgain := [], [], false, false, false;
      initial, machine, trace := n, Initial(n), [];
    }

    ghost method Record(a: Act<T>)
      requires IsRun(zero, initial, trace) && machine == Run(zero, initial, trace) && Allowed(machine, a)
      modifies this`machine, this`trace
      ensures IsRun(zero, initial, trace) && machine == Run(zero, initial, trace)
      ensures trace == old(trace) + [a] && machine == Apply(zero, old(machine), a)
    {
      RunSnoc(zero, initial, trace, a);
      machine, trace := Apply(zero, machine, a), trace + [a];
    }

    method Feed(more: seq<T>)
      requires Valid() && !inputFinished && !finished
      modifies this`input, this`machine, this`trace
      ensures Valid() && trace == old(trace) + [Arrive(more)]
    {
      assert (machine.x + more)[machine.taken..] == machine.x[machine.taken..] + more;
      Record(Arrive(more));
      input := input + more;
    }

    method Close()
      requires Valid()
      modifies this`inputFinished
      ensures Valid() && inputFinished
    {
      inputFinished := true;
    }

    /** `new_value`. A map without the two entries makes the handler panic and changes nothing; any other message is
        ignored. */
    method NewValue(p: Pmt) returns (panics: bool)
      requires Valid() && !finished
      modifies this`state, this`machine, this`trace
      ensures Valid() && (panics <==> p.MapStrPmt? && (p.pad.None? || p.value.None?))
      ensures trace == old(trace)
                       + if p.MapStrPmt? && !panics
                         then [Change(if p.pad.value then p.value.value else 0 - p.value.value)] else []
    {
      panics := false;
      if p.MapStrPmt? {
        if p.pad.None? || p.value.None? {
          return true;
        }
        var val: int := if p.pad.value then p.value.value else 0 - p.value.value;
        var newVal: int := match state {
          case Pad(n) => n + val
          case Skip(n) => val - n
          case Copy => val
        };
        Record(Change(val));
        state := if newVal > 0 then Pad(newVal) else if newVal == 0 then Copy else Skip(0 - newVal);
      }
    }

    /** `work` on a call whose output slice is `o`. It moves as much as the state, the input and the room allow, and
        asks to be called again exactly on leaving Pad or Skip. If it finishes, an unchanged delay is complete exactly
        unless it was still padding with input unread. */
    method Work(o: array<T>)
      requires Valid() && !finished
      modifies this`state, this`input, this`output, this`finished, this`callAgain, this`machine, this`trace, o
      ensures Valid() && trace == old(trace) + [Turn(old(state), |old(input)|, o.Length)]
      ensures finished <==> inputFinished && Ends(old(state), |old(input)|, o.Length)
      ensures callAgain == (old(callAgain) || (!old(state).Copy? && state.Copy?))
      ensures finished && Unchanged(trace) ==>
                (output == Delayed(zero, initial, machine.x) <==> !(old(state).Pad? && old(input) != []))
    {
      Dispatch(o);
      if finished && Unchanged(trace) {
        FinishedWhen();
      }
    }

    method Dispatch(o: array<T>)
      requires Valid() && !finished
      modifies this`state, this`input, this`output, this`finished, this`callAgain, this`machine, this`trace, o
      ensures Valid() && trace == old(trace) + [Turn(old(state), |old(input)|, o.Length)]
      ensures finished <==> inputFinished && Ends(old(state), |old(input)|, o.Length)
      ensures callAgain == (old(callAgain) || (!old(state).Copy? && state.Copy?))
      ensures finished ==> input == if old(state).Pad? then old(input) else []
    {
      if state.Pad? {
        WorkPad(o, state.padLeft);
      } else if state.Skip? {
        WorkSkip(state.skipLeft);
      } else {
        WorkCopy(o);
      }
    }

    /** Leaving this branch can finish the block with input unread. */
    method WorkPad(o: array<T>, n: nat)
      requires Valid() && !finished && state == Pad(n)
      modifies this`state, this`output, this`finished, this`callAgain, this`machine, this`trace, o
      ensures Valid() && trace == old(trace) + [PadSome(if o.Length < n then o.Length else n)]
      ensures finished <==> inputFinished && n <= o.Length
      ensures (state.Copy? <==> n <= o.Length) && callAgain == (old(callAgain) || n <= o.Length)
    {
      var m := if o.Length < n then o.Length else n;
      var produced := Fill(o, Zeros(zero, m));
      Record(PadSome(m));
      output := output + produced;
      if m == n {
        state := Copy;
        callAgain := true;
        if inputFinished {
          finished := true;
        }
      } else {
        state := Pad(n - m);
      }
    }

    method WorkSkip(n: nat)
      requires Valid() && !finished && state == Skip(n)
      modifies this`state, this`input, this`finished, this`callAgain, this`machine, this`trace
      ensures Valid() && trace == old(trace) + [SkipSome(if |old(input)| < n then |old(input)| else n)]
      ensures finished <==> inputFinished && |old(input)| <= n
      ensures (state.Copy? <==> n <= |old(input)|) && callAgain == (old(callAgain) || n <= |old(input)|)
      ensures finished ==> input == []
    {
      var iLen := |input|;
      var m := if iLen < n then iLen else n;
      assert machine.x[machine.taken..][m..] == machine.x[machine.taken + m..];
      Record(SkipSome(m));
      input := input[m..];
      if n == m {
        state := Copy;
        callAgain := true;
      } else {
        state := Skip(n - m);
      }
      if inputFinished && m == iLen {
        finished := true;
      }
    }

    method WorkCopy(o: array<T>)
      requires Valid() && !finished && state == Copy
      modifies this`input, this`output, this`finished, this`machine, this`trace, o
      ensures Valid() && trace == old(trace) + [CopySome(if |old(input)| < o.Length then |old(input)| else o.Length)]
      ensures finished <==> inputFinished && |old(input)| <= o.Length
      ensures finished ==> input == []
    {
      var iLen := |input|;
      var m := if iLen < o.Length then iLen else o.Length;
      var produced := Fill(o, input[..m]);
      assert machine.x[machine.taken..][m..] == machine.x[machine.taken + m..];
      assert machine.x[machine.taken..][..m] == machine.x[machine.taken..machine.taken + m];
      Record(CopySome(m));
      output := output + produced;
      input := input[m..];
      if inputFinished && m == iLen {
        finished := true;
      }
    }

    /** A finished block that was not changed has the whole delayed stream out exactly when no input is left unread. */
    lemma FinishedWhen()
      requires Valid() && finished && Unchanged(trace)
      ensures output == Delayed(zero, initial, machine.x) <==> input == []
    {
      OutputIsDelayed(zero, initial, trace);
    }
  }

  /** A block with delay 1 and one sample in a closed input finishes after the padding, and the sample is not output. */
  method PaddingLosesInput<T>(zero: T, a: T) returns (d: Delay<T>)
    ensures fresh(d) && d.Valid() && d.finished && d.machine.x == [a] && d.input == [a]
    ensures d.output == [zero] != Delayed(zero, 1, [a])
  {
    d := new Delay(1, zero);
    d.Feed([a]);
    assert d.machine == Apply(zero, Initial(1), Arrive([a]));
    d.Close();
    var o := new T[1](_ => zero);
    assert d.input == [a] && d.state == Pad(1);
    d.Work(o);
    assert d.machine == Apply(zero, Apply(zero, Initial(1), Arrive([a])), PadSome(1));
  }
}
