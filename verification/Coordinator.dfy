/** `run_flowgraph` of src/runtime/runtime.rs: the coordinator counts the blocks' reports while blocks and outside
    callers send to its channel at any time. Sends do not fail here. */
module Coordinator {
  import B = BlockLoop

  datatype Report =
    | Initialized
    | BlockDone(blockId: nat)
    | BlockError(blockId: nat)
    | Terminate
    | BlockCall(to: nat, port: string, data: B.Pmt)          // passed on
    | BlockCallback(to: nat, port: string, data: B.Pmt)      // passed on, and the reply awaited
    | BlockDescription(to: nat)                              // the block is asked, and the reply awaited
    | FlowgraphDescription                                   // every block is asked in turn

  /** What an outside caller sends through a FlowgraphHandle. */
  predicate FromOutside(r: Report) {
    !r.Initialized? && !r.BlockDone? && !r.BlockError?
  }

  /** The blocks whose reply the coordinator awaits, one after the other, before it takes another message. */
  function Asks(r: Report, n: nat): seq<nat> {
    match r
    case BlockCallback(to, _, _) => if to < n then [to] else []
    case BlockDescription(to) => if to < n then [to] else []
    case FlowgraphDescription => seq(n, k requires 0 <= k < n => k)
    case _ => []
  }

  /** What a block has reported: nothing, its initialization, or its end. */
  datatype BlockState = Fresh | Ready | Over(ok: bool)

  datatype Phase =
    | Sending            // sending Initialize
    | Awaiting           // the init loop
    | Releasing          // sending Notify
    | Requeuing          // sending back what the init loop put aside
    | Running            // the main loop
    | Returned(ok: bool)

  datatype Net = Net(
    blocks: seq<BlockState>, channel: seq<Report>,
    phase: Phase, inits: nat, notifies: nat, active: int, i: int,
    queue: seq<Report>, blockError: bool, terminated: bool,
    broadcasts: nat,     // times Terminate was sent to all blocks
    finals: nat,         // final reports counted so far
    errors: nat,         // BlockErrors among them
    answers: nat,        // reports the init loop counted
    ready: set<nat>,     // blocks that have reported Initialized
    doubles: nat,        // BlockErrors of such blocks that the init loop counted
    asked: seq<nat>,     // blocks still to answer the request in hand; the first of them has been asked
    telling: nat)        // blocks still to be sent Terminate, the last ones

  function Begin(n: nat): Net {
    Net(seq(n, _ => Fresh), [], Sending, 0, 0, 0, 0, [], false, false, 0, 0, 0, 0, {}, 0, [], 0)
  }

  // ---- the blocks and the outside

  datatype Step =
    | ReportReady(b: nat) | ReportFailure(b: nat) | ReportEnd(b: nat, ok: bool) | Outside(report: Report)
    | Coordinate
    | Reply              // the awaited reply is there

  predicate Enabled(s: Net, step: Step) {
    match step
    case ReportReady(b) => b < |s.blocks| && s.blocks[b].Fresh? && b < s.inits
    case ReportFailure(b) => b < |s.blocks| && s.blocks[b].Fresh?
    case ReportEnd(b, _) => b < |s.blocks| && s.blocks[b].Ready?
    case Outside(r) => FromOutside(r)
    case Coordinate => CanCoordinate(s)
    case Reply => s.asked != []
  }

  /** Where the coordinator does not wait for a reply, nor for a message, or there is one. */
  predicate CanCoordinate(s: Net) {
    match s.phase
    case Awaiting => s.i == 0 || s.channel != []
    case Running => s.telling > 0 || (s.asked == [] && (s.active == 0 || s.channel != []))
    case Returned(_) => false
    case _ => true
  }

  function Next(s: Net, step: Step): Net
    requires Enabled(s, step)
  {
    match step
    case ReportReady(b) =>
      s.(blocks := s.blocks[b := Ready], channel := s.channel + [Initialized], ready := s.ready + {b})
    case ReportFailure(b) => s.(blocks := s.blocks[b := Over(false)], channel := s.channel + [BlockError(b)])
    case ReportEnd(b, ok) =>
      s.(blocks := s.blocks[b := Over(ok)], channel := s.channel + [if ok then BlockDone(b) else BlockError(b)])
    case Outside(r) => s.(channel := s.channel + [r])
    case Coordinate => Coordinated(s)
    case Reply => s.(asked := s.asked[1..])
  }

  /** One step of the coordinator. */
  function Coordinated(s: Net): Net
    requires CanCoordinate(s)
  {
    match s.phase
    case Sending =>
      if s.inits < |s.blocks| then s.(inits := s.inits + 1, active := s.active + 1)
      else s.(phase := Awaiting, i := s.active)
    case Awaiting =>
      if s.i == 0 then s.(phase := Releasing)
      else OnInit(s.(channel := s.channel[1..]), s.channel[0])
    case Releasing =>
      if s.notifies < |s.blocks| then s.(notifies := s.notifies + 1) else s.(phase := Requeuing)
    case Requeuing =>
      if s.queue != [] then s.(channel := s.channel + [s.queue[0]], queue := s.queue[1..])
      else s.(phase := Running, channel := if s.blockError then s.channel + [Terminate] else s.channel)
    case Running =>
      if s.telling > 0 then s.(telling := s.telling - 1, terminated := s.telling == 1)
      else if s.active == 0 then s.(phase := Returned(!s.blockError))
      else OnMain(s.(channel := s.channel[1..]), s.channel[0])
  }

  /** The match of the init loop. */
  function OnInit(s: Net, m: Report): Net {
    match m
    case Initialized => s.(i := s.i - 1, answers := s.answers + 1)
    case BlockError(b) =>
      s.(i := s.i - 1, active := s.active - 1, blockError := true,
         finals := s.finals + 1, errors := s.errors + 1, answers := s.answers + 1,
         doubles := s.doubles + if b in s.ready then 1 else 0)
    case _ => s.(queue := s.queue + [m])
  }

  /** The match of the main loop. */
  function OnMain(s: Net, m: Report): Net {
    match m
    case BlockDone(_) => s.(active := s.active - 1, finals := s.finals + 1)
    case BlockError(_) =>
      s.(blockError := true, active := s.active - 1, channel := s.channel + [Terminate],
         finals := s.finals + 1, errors := s.errors + 1)
    case Terminate =>
      if s.terminated then s
      else s.(broadcasts := s.broadcasts + 1, telling := |s.blocks|, terminated := s.blocks == [])
    case _ => s.(asked := Asks(m, |s.blocks|))
  }

  predicate IsRun(s: Net, steps: seq<Step>)
    decreases |steps|
  {
    steps == [] || (Enabled(s, steps[0]) && IsRun(Next(s, steps[0]), steps[1..]))
  }

  function Run(s: Net, steps: seq<Step>): Net
    requires IsRun(s, steps)
    decreases |steps|
  {
    if steps == [] then s else Run(Next(s, steps[0]), steps[1..])
  }

  // ---- counting

  /** Final reports in a queue, and the errors among them. */
  function Finals(q: seq<Report>): nat {
    if q == [] then 0 else Finals(q[..|q| - 1]) + if q[|q| - 1].BlockDone? || q[|q| - 1].BlockError? then 1 else 0
  }

  function Errors(q: seq<Report>): (n: nat)
    ensures n <= Finals(q)
  {
    if q == [] then 0 else Errors(q[..|q| - 1]) + if q[|q| - 1].BlockError? then 1 else 0
  }

  /** First answers of blocks: Initialized, or the error of a block that has not reported it. */
  function Firsts(q: seq<Report>, ready: set<nat>): nat {
    if q == [] then 0
    else
      var m := q[|q| - 1];
      Firsts(q[..|q| - 1], ready) + if m.Initialized? || (m.BlockError? && m.blockId !in ready) then 1 else 0
  }

  /** How many blocks are over, over with an error, and not fresh. */
  function OverBlocks(bs: seq<BlockState>): (n: nat)
    ensures n <= |bs| && (n == |bs| <==> forall k :: 0 <= k < |bs| ==> bs[k].Over?)
  {
    if bs == [] then 0 else OverBlocks(bs[..|bs| - 1]) + if bs[|bs| - 1].Over? then 1 else 0
  }

  function FailedBlocks(bs: seq<BlockState>): (n: nat)
    ensures n == 0 <==> forall k :: 0 <= k < |bs| ==> bs[k] != Over(false)
  {
    if bs == [] then 0 else FailedBlocks(bs[..|bs| - 1]) + if bs[|bs| - 1] == Over(false) then 1 else 0
  }

  function Awake(bs: seq<BlockState>): (n: nat)
    ensures n <= |bs| && (n == |bs| <==> forall k :: 0 <= k < |bs| ==> !bs[k].Fresh?)
  {
    if bs == [] then 0 else Awake(bs[..|bs| - 1]) + if bs[|bs| - 1].Fresh? then 0 else 1
  }

  lemma Snoc(q: seq<Report>, m: Report)
    ensures Finals(q + [m]) == Finals(q) + if m.BlockDone? || m.BlockError? then 1 else 0
    ensures Errors(q + [m]) == Errors(q) + if m.BlockError? then 1 else 0
  {
    assert (q + [m])[..|q|] == q;
  }

  lemma {:induction false} Uncons(q: seq<Report>)
    requires q != []
    ensures Finals(q) == Finals(q[1..]) + if q[0].BlockDone? || q[0].BlockError? then 1 else 0
    ensures Errors(q) == Errors(q[1..]) + if q[0].BlockError? then 1 else 0
  {
    if |q| > 1 {
      Uncons(q[..|q| - 1]);
      assert q[1..][..|q| - 2] == q[..|q| - 1][1..];
    }
  }

  lemma {:induction false} ChangeOver(bs: seq<BlockState>, k: nat, b: BlockState)
    requires k < |bs|
    ensures OverBlocks(bs[k := b]) + (if bs[k].Over? then 1 else 0) == OverBlocks(bs) + if b.Over? then 1 else 0
  {
    var n := |bs| - 1;
    if k == n {
      assert bs[k := b][..n] == bs[..n];
    } else {
      assert bs[k := b][..n] == bs[..n][k := b];
      ChangeOver(bs[..n], k, b);
    }
  }

  lemma {:induction false} ChangeFailed(bs: seq<BlockState>, k: nat, b: BlockState)
    requires k < |bs|
    ensures FailedBlocks(bs[k := b]) + (if bs[k] == Over(false) then 1 else 0)
         == FailedBlocks(bs) + if b == Over(false) then 1 else 0
  {
    var n := |bs| - 1;
    if k == n {
      assert bs[k := b][..n] == bs[..n];
    } else {
      assert bs[k := b][..n] == bs[..n][k := b];
      ChangeFailed(bs[..n], k, b);
    }
  }

  lemma {:induction false} ChangeAwake(bs: seq<BlockState>, k: nat, b: BlockState)
    requires k < |bs|
    ensures Awake(bs[k := b]) + (if !bs[k].Fresh? then 1 else 0) == Awake(bs) + if !b.Fresh? then 1 else 0
  {
    var n := |bs| - 1;
    if k == n {
      assert bs[k := b][..n] == bs[..n];
    } else {
      assert bs[k := b][..n] == bs[..n][k := b];
      ChangeAwake(bs[..n], k, b);
    }
  }

  // ---- what every step keeps

  predicate Early(s: Net) {
    s.phase.Sending? || s.phase.Awaiting?
  }

  /** Each block's end is counted once; `active` is what is left. */
  predicate Counted(s: Net) {
    && s.active == s.inits - s.finals && s.inits <= |s.blocks|
    && (!s.phase.Sending? ==> s.inits == |s.blocks|) && (s.phase.Sending? ==> s.finals == 0)
    && Finals(s.queue) + Finals(s.channel) + s.finals == OverBlocks(s.blocks)
    && Errors(s.queue) + Errors(s.channel) + s.errors == FailedBlocks(s.blocks)
    && s.errors <= s.finals
    && (s.phase.Sending? || s.phase.Running? || s.phase.Returned? ==> s.queue == [])
  }

  predicate Flagged(s: Net) {
    && (s.blockError <==> s.errors > 0)
    && s.broadcasts == (if s.terminated || s.telling > 0 then 1 else 0)
    && (s.phase.Returned? ==> s.active == 0 && s.phase.ok == !s.blockError)
    && (s.phase.Running? && s.blockError ==> s.terminated || s.telling > 0 || Terminate in s.channel)
    && (s.telling > 0 ==>
          s.phase.Running? && !s.terminated && s.asked == [] && s.active != 0 && s.telling <= |s.blocks|)
  }

  /** A reply is awaited in the main loop only. */
  predicate Asking(s: Net) {
    s.asked != [] ==>
      s.phase.Running? && s.active != 0 && forall k :: 0 <= k < |s.asked| ==> s.asked[k] < |s.blocks|
  }

  predicate Invariant(s: Net) {
    Counted(s) && Flagged(s) && Asking(s)
  }

  /** A report that goes with a change of one block. */
  lemma ReportKeeps(s: Net, b: nat, to: BlockState, m: Report)
    requires Invariant(s) && b < |s.blocks| && !s.blocks[b].Over?
    requires (to.Over? <==> m.BlockDone? || m.BlockError?) && (to == Over(false) <==> m.BlockError?)
    ensures Invariant(s.(blocks := s.blocks[b := to], channel := s.channel + [m]))
  {
    ChangeOver(s.blocks, b, to);
    ChangeFailed(s.blocks, b, to);
    Snoc(s.channel, m);
  }

  lemma BlockStepKeeps(s: Net, step: Step)
    requires Invariant(s) && Enabled(s, step) && !step.Coordinate?
    ensures Invariant(Next(s, step))
  {
    match step
    case ReportReady(b) => ReportKeeps(s, b, Ready, Initialized);
    case ReportFailure(b) => ReportKeeps(s, b, Over(false), BlockError(b));
    case ReportEnd(b, ok) => ReportKeeps(s, b, Over(ok), if ok then BlockDone(b) else BlockError(b));
    case Outside(r) => Snoc(s.channel, r);
    case Reply =>
  }

  lemma InitLoopKeepsCounts(s: Net, m: Report, rest: seq<Report>)
    requires Counted(s) && s.phase.Awaiting? && s.channel == [m] + rest
    ensures Counted(OnInit(s.(channel := rest), m))
  {
    Uncons(s.channel);
    Snoc(s.queue, m);
  }

  lemma InitLoopKeepsFlags(s: Net, m: Report, rest: seq<Report>)
    requires Flagged(s) && s.phase.Awaiting?
    ensures Flagged(OnInit(s.(channel := rest), m))
  {
  }

  lemma RequeueKeeps(s: Net)
    requires Invariant(s) && s.phase.Requeuing? && s.queue != []
    ensures Invariant(s.(channel := s.channel + [s.queue[0]], queue := s.queue[1..]))
  {
    Uncons(s.queue);
    Snoc(s.channel, s.queue[0]);
  }

  lemma StartKeeps(s: Net)
    requires Invariant(s) && s.phase.Requeuing? && s.queue == []
    ensures Invariant(s.(phase := Running, channel := if s.blockError then s.channel + [Terminate] else s.channel))
  {
    Snoc(s.channel, Terminate);
  }

  lemma MainLoopKeepsCounts(s: Net, m: Report, rest: seq<Report>)
    requires Counted(s) && s.phase.Running? && s.channel == [m] + rest
    ensures Counted(OnMain(s.(channel := rest), m))
  {
    Uncons(s.channel);
    if m.BlockError? {
      Snoc(rest, Terminate);
    }
  }

  lemma MainLoopKeepsFlags(s: Net)
    requires Invariant(s) && s.phase.Running? && s.telling == 0 && s.asked == [] && s.active != 0 && s.channel != []
    ensures Flagged(OnMain(s.(channel := s.channel[1..]), s.channel[0]))
  {
    assert s.channel == [s.channel[0]] + s.channel[1..];
  }

  lemma MainLoopKeepsAsking(s: Net, m: Report, rest: seq<Report>)
    requires Asking(s) && s.phase.Running? && s.asked == [] && s.active != 0
    ensures Asking(OnMain(s.(channel := rest), m))
  {
  }

  lemma TellingKeeps(s: Net)
    requires Invariant(s) && s.phase.Running? && s.telling > 0
    ensures Invariant(s.(telling := s.telling - 1, terminated := s.telling == 1))
  {
  }

  lemma SendingKeeps(s: Net)
    requires Invariant(s) && s.phase.Sending?
    ensures Invariant(Coordinated(s))
  {
  }

  lemma ReleaseKeeps(s: Net, phase: Phase, notifies: nat)
    requires Invariant(s) && (s.phase.Releasing? || s.phase.Awaiting?) && (phase.Releasing? || phase.Requeuing?)
    ensures Invariant(s.(phase := phase, notifies := notifies))
  {
  }

  lemma ReturnKeeps(s: Net)
    requires Invariant(s) && s.phase.Running? && s.active == 0 && s.asked == [] && s.telling == 0
    ensures Invariant(s.(phase := Returned(!s.blockError)))
  {
  }

  lemma InitPhaseKeeps(s: Net)
    requires Invariant(s) && s.phase.Awaiting? && s.i != 0 && s.channel != []
    ensures Invariant(Coordinated(s))
  {
    assert s.channel == [s.channel[0]] + s.channel[1..];
    InitLoopKeepsCounts(s, s.channel[0], s.channel[1..]);
    InitLoopKeepsFlags(s, s.channel[0], s.channel[1..]);
  }

  lemma RequeuePhaseKeeps(s: Net)
    requires Invariant(s) && s.phase.Requeuing?
    ensures Invariant(Coordinated(s))
  {
    if s.queue != [] {
      RequeueKeeps(s);
    } else {
      StartKeeps(s);
    }
  }

  lemma TakingKeeps(s: Net)
    requires Invariant(s) && s.phase.Running? && s.telling == 0 && s.active != 0 && CanCoordinate(s)
    ensures Invariant(Coordinated(s))
  {
    assert s.channel == [s.channel[0]] + s.channel[1..];
    MainLoopKeepsCounts(s, s.channel[0], s.channel[1..]);
    MainLoopKeepsFlags(s);
    MainLoopKeepsAsking(s, s.channel[0], s.channel[1..]);
  }

  lemma RunningPhaseKeeps(s: Net)
    requires Invariant(s) && s.phase.Running? && CanCoordinate(s)
    ensures Invariant(Coordinated(s))
  {
    if s.telling > 0 {
      TellingKeeps(s);
    } else if s.active != 0 {
      TakingKeeps(s);
    } else {
      ReturnKeeps(s);
    }
  }

  lemma CoordinateKeeps(s: Net)
    requires Invariant(s) && CanCoordinate(s)
    ensures Invariant(Coordinated(s))
  {
    if s.phase.Awaiting? && s.i != 0 {
      InitPhaseKeeps(s);
    } else if s.phase.Requeuing? {
      RequeuePhaseKeeps(s);
    } else if s.phase.Running? {
      RunningPhaseKeeps(s);
    } else if s.phase.Sending? {
      SendingKeeps(s);
    } else {
      ReleaseKeeps(s, Coordinated(s).phase, Coordinated(s).notifies);
    }
  }

  /** In every run of a flowgraph: active is the number of blocks less the final reports counted, and is never negative;
      Terminate is broadcast at most once; the result is Ok exactly when every block ended without an error. */
  lemma {:induction false} EveryRun(s: Net, steps: seq<Step>)
    requires Invariant(s) && IsRun(s, steps)
    ensures Invariant(Run(s, steps))
    decreases |steps|
  {
    if steps != [] {
      if steps[0].Coordinate? {
        CoordinateKeeps(s);
      } else {
        BlockStepKeeps(s, steps[0]);
      }
      EveryRun(Next(s, steps[0]), steps[1..]);
    }
  }

  lemma {:induction false} FreshBlocks(n: nat)
    ensures OverBlocks(seq(n, _ => Fresh)) == FailedBlocks(seq(n, _ => Fresh)) == Awake(seq(n, _ => Fresh)) == 0
  {
    if n > 0 {
      FreshBlocks(n - 1);
      assert seq(n, _ => Fresh)[..n - 1] == seq(n - 1, _ => Fresh);
    }
  }

  /** The counters of any run of n blocks. */
  lemma ActiveIsWhatIsLeft(n: nat, steps: seq<Step>)
    requires IsRun(Begin(n), steps)
    ensures var s := Run(Begin(n), steps);
            && (!s.phase.Sending? ==> s.active == n - s.finals)
            && 0 <= s.active && s.finals <= OverBlocks(s.blocks) && s.broadcasts <= 1
  {
    FreshBlocks(n);
    EveryRun(Begin(n), steps);
    SameBlocks(Begin(n), steps);
    CountersFit(Run(Begin(n), steps));
  }

  lemma CountersFit(s: Net)
    requires Invariant(s)
    ensures 0 <= s.active && s.finals <= OverBlocks(s.blocks) && s.broadcasts <= 1
  {
  }

  lemma {:induction false} SameBlocks(s: Net, steps: seq<Step>)
    requires IsRun(s, steps)
    ensures |Run(s, steps).blocks| == |s.blocks|
    decreases |steps|
  {
    if steps != [] {
      SameBlocks(Next(s, steps[0]), steps[1..]);
    }
  }

  /** When `run_flowgraph` returns, every block is over, and it returns Ok exactly when all of them ended well. */
  lemma ResultIsRight(n: nat, steps: seq<Step>)
    requires IsRun(Begin(n), steps) && Run(Begin(n), steps).phase.Returned?
    ensures var s := Run(Begin(n), steps);
            && |s.blocks| == n && (forall b :: 0 <= b < n ==> s.blocks[b].Over?)
            && (s.phase.ok <==> forall b :: 0 <= b < n ==> s.blocks[b] == Over(true))
  {
    FreshBlocks(n);
    EveryRun(Begin(n), steps);
    SameBlocks(Begin(n), steps);
    ReturnedFits(Run(Begin(n), steps));
  }

  lemma ReturnedFits(s: Net)
    requires Invariant(s) && s.phase.Returned?
    ensures forall b :: 0 <= b < |s.blocks| ==> s.blocks[b].Over?
    ensures s.phase.ok <==> forall b :: 0 <= b < |s.blocks| ==> s.blocks[b] == Over(true)
  {
    assert OverBlocks(s.blocks) == |s.blocks|;
    assert Errors(s.channel) <= Finals(s.channel);
    assert s.phase.ok <==> FailedBlocks(s.blocks) == 0;
  }

  /** Once every block is over, the main loop is left waiting only for a reply. */
  lemma MainLoopWaitsForReplies(s: Net)
    requires Invariant(s) && s.phase.Running? && forall b :: 0 <= b < |s.blocks| ==> s.blocks[b].Over?
    ensures CanCoordinate(s) <==> s.asked == []
  {
    assert OverBlocks(s.blocks) == |s.blocks|;
  }

  // ---- the init barrier

  lemma FirstsSnoc(q: seq<Report>, m: Report, ready: set<nat>)
    ensures Firsts(q + [m], ready) == Firsts(q, ready)
            + if m.Initialized? || (m.BlockError? && m.blockId !in ready) then 1 else 0
  {
    assert (q + [m])[..|q|] == q;
  }

  lemma {:induction false} FirstsUncons(q: seq<Report>, ready: set<nat>)
    requires q != []
    ensures Firsts(q, ready) == Firsts(q[1..], ready)
            + if q[0].Initialized? || (q[0].BlockError? && q[0].blockId !in ready) then 1 else 0
  {
    if |q| > 1 {
      FirstsUncons(q[..|q| - 1], ready);
      assert q[1..][..|q| - 2] == q[..|q| - 1][1..];
    }
  }

  lemma {:induction false} FirstsReady(q: seq<Report>, ready: set<nat>, b: nat)
    requires BlockError(b) !in q
    ensures Firsts(q, ready + {b}) == Firsts(q, ready)
  {
    if q != [] {
      assert q[|q| - 1] in q;
      FirstsReady(q[..|q| - 1], ready, b);
    }
  }

  /** A block is known by what it reported: an error is in the channel only once it is over, and it is among the ready
      ones from its Initialized on. */
  predicate Known(s: Net) {
    && (forall k :: 0 <= k < |s.channel| && s.channel[k].BlockError? ==>
          s.channel[k].blockId < |s.blocks| && s.blocks[s.channel[k].blockId] == Over(false))
    && (forall k :: 0 <= k < |s.queue| ==> !s.queue[k].BlockError?)
    && (forall b :: 0 <= b < |s.blocks| ==>
        (s.blocks[b].Fresh? ==> b !in s.ready) && (s.blocks[b].Ready? ==> b in s.ready))
  }

  /** The init loop's account: every block that is not fresh has given one first answer. */
  predicate Accounted(s: Net) {
    && Known(s)
    && (s.phase.Sending? ==> s.answers == 0 && s.active == s.inits)
    && (s.phase.Awaiting? ==> 0 <= s.i == |s.blocks| - s.answers)
    && (Early(s) ==> Firsts(s.channel, s.ready) + s.answers == Awake(s.blocks) + s.doubles)
    && (!Early(s) && s.doubles == 0 ==> forall b :: 0 <= b < |s.blocks| ==> !s.blocks[b].Fresh?)
  }

  lemma ReadyKeepsAccount(s: Net, b: nat)
    requires Accounted(s) && Enabled(s, ReportReady(b))
    ensures Accounted(Next(s, ReportReady(b)))
  {
    ChangeAwake(s.blocks, b, Ready);
    FirstsReady(s.channel, s.ready, b);
    FirstsSnoc(s.channel, Initialized, s.ready + {b});
  }

  lemma FailureKeepsAccount(s: Net, b: nat)
    requires Accounted(s) && Enabled(s, ReportFailure(b))
    ensures Accounted(Next(s, ReportFailure(b)))
  {
    ChangeAwake(s.blocks, b, Over(false));
    FirstsSnoc(s.channel, BlockError(b), s.ready);
  }

  lemma EndKeepsAccount(s: Net, b: nat, ok: bool)
    requires Accounted(s) && Enabled(s, ReportEnd(b, ok))
    ensures Accounted(Next(s, ReportEnd(b, ok)))
  {
    ChangeAwake(s.blocks, b, Over(ok));
    FirstsSnoc(s.channel, if ok then BlockDone(b) else BlockError(b), s.ready);
  }

  lemma InitLoopKeepsAccount(s: Net, m: Report, rest: seq<Report>)
    requires Accounted(s) && s.phase.Awaiting? && s.i != 0 && s.channel == [m] + rest
    ensures Accounted(OnInit(s.(channel := rest), m))
  {
    FirstsUncons(s.channel, s.ready);
    OnInitKeepsKnown(s, m, rest);
  }

  lemma OnInitKeepsKnown(s: Net, m: Report, rest: seq<Report>)
    requires Known(s) && s.channel == [m] + rest
    ensures Known(OnInit(s.(channel := rest), m))
  {
    assert forall k :: 0 <= k < |rest| ==> rest[k] == s.channel[k + 1];
  }

  lemma RequeueKeepsAccount(s: Net)
    requires Accounted(s) && s.phase.Requeuing?
    ensures Accounted(Coordinated(s))
  {
  }

  lemma MainLoopKeepsAccount(s: Net)
    requires Accounted(s) && s.phase.Running? && CanCoordinate(s)
    ensures Accounted(Coordinated(s))
  {
    if s.telling == 0 && s.active != 0 {
      assert s.channel == [s.channel[0]] + s.channel[1..];
      OnMainKeepsAccount(s, s.channel[0], s.channel[1..]);
    }
  }

  lemma OnMainKeepsAccount(s: Net, m: Report, rest: seq<Report>)
    requires Accounted(s) && s.phase.Running? && s.channel == [m] + rest
    ensures Accounted(OnMain(s.(channel := rest), m))
  {
    OnMainKeepsKnown(s, m, rest);
  }

  lemma OnMainKeepsKnown(s: Net, m: Report, rest: seq<Report>)
    requires Known(s) && s.channel == [m] + rest
    ensures Known(OnMain(s.(channel := rest), m))
  {
    assert forall k :: 0 <= k < |rest| ==> rest[k] == s.channel[k + 1];
  }

  lemma SendingKeepsAccount(s: Net)
    requires Counted(s) && Accounted(s) && s.phase.Sending?
    ensures Accounted(Coordinated(s))
  {
  }

  lemma AwaitedKeepsAccount(s: Net)
    requires Accounted(s) && s.phase.Awaiting? && s.i == 0
    ensures Accounted(s.(phase := Releasing))
  {
    BarrierAtZero(s);
  }

  lemma ReleaseKeepsAccount(s: Net, phase: Phase, notifies: nat)
    requires Accounted(s) && s.phase.Releasing? && (phase.Releasing? || phase.Requeuing?)
    ensures Accounted(s.(phase := phase, notifies := notifies))
  {
  }

  lemma CoordinateKeepsAccount(s: Net)
    requires Counted(s) && Accounted(s) && CanCoordinate(s)
    ensures Accounted(Coordinated(s))
  {
    if s.phase.Sending? {
      SendingKeepsAccount(s);
    } else if s.phase.Awaiting? && s.i != 0 {
      assert s.channel == [s.channel[0]] + s.channel[1..];
      InitLoopKeepsAccount(s, s.channel[0], s.channel[1..]);
    } else if s.phase.Awaiting? {
      AwaitedKeepsAccount(s);
    } else if s.phase.Releasing? {
      ReleaseKeepsAccount(s, Coordinated(s).phase, Coordinated(s).notifies);
    } else if s.phase.Requeuing? {
      RequeueKeepsAccount(s);
    } else {
      MainLoopKeepsAccount(s);
    }
  }

  lemma StepKeepsAccount(s: Net, step: Step)
    requires Invariant(s) && Accounted(s) && Enabled(s, step)
    ensures Accounted(Next(s, step))
  {
    match step
    case ReportReady(b) => ReadyKeepsAccount(s, b);
    case ReportFailure(b) => FailureKeepsAccount(s, b);
    case ReportEnd(b, ok) => EndKeepsAccount(s, b, ok);
    case Outside(r) => FirstsSnoc(s.channel, r, s.ready);
    case Coordinate => CoordinateKeepsAccount(s);
    case Reply =>
  }

  lemma {:induction false} EveryAccount(s: Net, steps: seq<Step>)
    requires Invariant(s) && Accounted(s) && IsRun(s, steps)
    ensures Accounted(Run(s, steps))
    decreases |steps|
  {
    if steps != [] {
      if steps[0].Coordinate? {
        CoordinateKeeps(s);
      } else {
        BlockStepKeeps(s, steps[0]);
      }
      StepKeepsAccount(s, steps[0]);
      EveryAccount(Next(s, steps[0]), steps[1..]);
    }
  }

  /** Where the init loop ends: each error of a block that had answered before took the place of a first answer, so no
      block is fresh exactly if as many first answers still wait in the channel. */
  lemma BarrierAtZero(s: Net)
    requires Accounted(s) && s.phase.Awaiting? && s.i == 0
    ensures (forall b :: 0 <= b < |s.blocks| ==> !s.blocks[b].Fresh?) <==> Firsts(s.channel, s.ready) == s.doubles
    ensures Firsts(s.channel, s.ready) <= s.doubles
  {
    assert Awake(s.blocks) + s.doubles == Firsts(s.channel, s.ready) + |s.blocks|;
  }

  /** In every run that gets to the end of the init loop, the barrier holds or fails by that count. */
  lemma BarrierHoldsIff(n: nat, steps: seq<Step>)
    requires IsRun(Begin(n), steps) && Run(Begin(n), steps).phase.Awaiting? && Run(Begin(n), steps).i == 0
    ensures var s := Run(Begin(n), steps);
            (forall b :: 0 <= b < |s.blocks| ==> !s.blocks[b].Fresh?) <==> Firsts(s.channel, s.ready) == s.doubles
  {
    FreshBlocks(n);
    EveryAccount(Begin(n), steps);
    BarrierAtZero(Run(Begin(n), steps));
  }

  /** If the init loop counted no error of a block that had answered before, no block is sent its first Notify before
      every block has been initialized or has failed. */
  lemma NotifyAfterAllInits(n: nat, steps: seq<Step>)
    requires IsRun(Begin(n), steps) && Run(Begin(n), steps).doubles == 0
    ensures var s := Run(Begin(n), steps); !Early(s) ==> forall b :: 0 <= b < |s.blocks| ==> !s.blocks[b].Fresh?
  {
    FreshBlocks(n);
    EveryAccount(Begin(n), steps);
  }

  /** Once every block has answered, the init loop is never left waiting. */
  lemma InitLoopGoesOn(s: Net)
    requires Accounted(s) && s.phase.Awaiting? && forall b :: 0 <= b < |s.blocks| ==> !s.blocks[b].Fresh?
    ensures CanCoordinate(s)
  {
    assert Awake(s.blocks) == |s.blocks|;
  }

  /** The barrier does fail: a block that reports Initialized and then an error is counted twice, and the other block is
      notified before it is initialized. */
  lemma DoubleAnswerBreaksTheBarrier() returns (steps: seq<Step>)
    ensures IsRun(Begin(2), steps)
    ensures var s := Run(Begin(2), steps); |s.blocks| == 2 && s.notifies == 2 && s.blocks[1].Fresh?
  {
    var s3 := TwoAreAwaited();
    var s4 := Next(s3, ReportReady(0));
    var s5 := Next(s4, ReportEnd(0, false));
    steps := BothAnswersCount(s5);
    steps := Prepend(s4, ReportEnd(0, false), steps);
    steps := Prepend(s3, ReportReady(0), steps);
    steps := FromTheStart(s3, steps);
  }

  /** And a double answer need not break it: the first answer it displaced may be in the channel by then. */
  lemma DoubleAnswerCanBeHarmless() returns (steps: seq<Step>)
    ensures IsRun(Begin(2), steps)
    ensures var s := Run(Begin(2), steps);
            && s.phase.Awaiting? && s.i == 0 && s.doubles == 1
            && forall b :: 0 <= b < |s.blocks| ==> !s.blocks[b].Fresh?
  {
    var s3 := TwoAreAwaited();
    var s4 := Next(s3, ReportReady(0));
    var s5 := Next(s4, ReportEnd(0, false));
    var s6 := Next(s5, ReportReady(1));
    steps := FirstTwoCount(s6);
    steps := Prepend(s5, ReportReady(1), steps);
    steps := Prepend(s4, ReportEnd(0, false), steps);
    steps := Prepend(s3, ReportReady(0), steps);
    steps := FromTheStart(s3, steps);
  }

  /** Two blocks have been sent their Initialize. */
  lemma TwoAreAwaited() returns (s: Net)
    ensures s == Begin(2).(phase := Awaiting, inits := 2, active := 2, i := 2)
    ensures s.blocks == [Fresh, Fresh]
  {
    s := Begin(2).(phase := Awaiting, inits := 2, active := 2, i := 2);
  }

  lemma FromTheStart(s: Net, rest: seq<Step>) returns (steps: seq<Step>)
    requires s == Begin(2).(phase := Awaiting, inits := 2, active := 2, i := 2) && IsRun(s, rest)
    ensures IsRun(Begin(2), steps) && Run(Begin(2), steps) == Run(s, rest)
  {
    var s1 := Next(Begin(2), Coordinate);
    var s2 := Next(s1, Coordinate);
    assert Next(s2, Coordinate) == s;
    steps := Prepend(s2, Coordinate, rest);
    steps := Prepend(s1, Coordinate, steps);
    steps := Prepend(Begin(2), Coordinate, steps);
  }

  /** The init loop takes the two answers of block 0 for answers of both blocks. */
  lemma BothAnswersCount(s: Net) returns (steps: seq<Step>)
    requires s.phase == Awaiting && s.i == 2 && s.notifies == 0 && |s.blocks| == 2 && s.blocks[1].Fresh?
    requires s.channel == [Initialized, BlockError(0)]
    ensures IsRun(s, steps)
    ensures var t := Run(s, steps); |t.blocks| == 2 && t.notifies == 2 && t.blocks[1].Fresh?
  {
    var s1 := Next(s, Coordinate);
    var s2 := Next(s1, Coordinate);
    var s3 := Next(s2, Coordinate);
    var s4 := Next(s3, Coordinate);
    steps := Prepend(s4, Coordinate, []);
    steps := Prepend(s3, Coordinate, steps);
    steps := Prepend(s2, Coordinate, steps);
    steps := Prepend(s1, Coordinate, steps);
    steps := Prepend(s, Coordinate, steps);
  }

  lemma FirstTwoCount(s: Net) returns (steps: seq<Step>)
    requires s.phase == Awaiting && s.i == 2 && 0 in s.ready && s.doubles == 0
    requires s.channel == [Initialized, BlockError(0), Initialized]
    requires forall b :: 0 <= b < |s.blocks| ==> !s.blocks[b].Fresh?
    ensures IsRun(s, steps)
    ensures var t := Run(s, steps);
            t.phase.Awaiting? && t.i == 0 && t.doubles == 1 && forall b :: 0 <= b < |t.blocks| ==> !t.blocks[b].Fresh?
  {
    var s1 := Next(s, Coordinate);
    steps := Prepend(s1, Coordinate, []);
    steps := Prepend(s, Coordinate, steps);
  }

  lemma Prepend(s: Net, step: Step, rest: seq<Step>) returns (steps: seq<Step>)
    requires Enabled(s, step) && IsRun(Next(s, step), rest)
    ensures IsRun(s, steps) && Run(s, steps) == Run(Next(s, step), rest)
  {
    steps := [step] + rest;
    assert steps[1..] == rest;
  }

  // ---- the coordinator's own loops

  /** Taking a message leaves fewer errors, or as many and a shorter queue. */
  lemma ErrorsAfter(q: seq<Report>)
    requires q != []
    ensures if q[0].BlockError? then Errors(q[1..] + [Terminate]) < Errors(q) else Errors(q[1..]) == Errors(q)
  {
    Uncons(q);
    Snoc(q[1..], Terminate);
  }

  lemma {:induction false} RunSnoc(s: Net, steps: seq<Step>, step: Step)
    requires IsRun(s, steps) && Enabled(Run(s, steps), step)
    ensures IsRun(s, steps + [step]) && Run(s, steps + [step]) == Next(Run(s, steps), step)
    decreases |steps|
  {
    if steps == [] {
      assert ([] + [step])[1..] == [];
    } else {
      assert (steps + [step])[1..] == steps[1..] + [step];
      RunSnoc(Next(s, steps[0]), steps[1..], step);
    }
  }

  /** What one message of the init loop changes. */
  lemma InitLoopStep(s: Net)
    requires s.phase.Awaiting? && s.i != 0 && s.channel != []
    ensures var t, m := Coordinated(s), s.channel[0];
            && t.phase == Awaiting && t.asked == s.asked && |t.blocks| == |s.blocks| && t.terminated == s.terminated
            && t.channel == s.channel[1..] && t.notifies == s.notifies
            && t.i == s.i - (if m.Initialized? || m.BlockError? then 1 else 0)
            && t.active == s.active - (if m.BlockError? then 1 else 0)
            && t.blockError == (s.blockError || m.BlockError?)
            && t.queue == s.queue + (if m.Initialized? || m.BlockError? then [] else [m])
  {
  }

  /** What the steps between the two loops change. */
  lemma StartStep(s: Net)
    requires (s.phase.Awaiting? && s.i == 0) || s.phase.Releasing? || s.phase.Requeuing?
    ensures var t := Coordinated(s);
            && t.asked == s.asked && |t.blocks| == |s.blocks| && t.terminated == s.terminated && t.i == s.i
            && t.active == s.active && t.blockError == s.blockError
            && (s.phase.Awaiting? ==> t.phase == Releasing && t.notifies == s.notifies)
            && (s.phase.Releasing? ==>
                  if s.notifies < |s.blocks| then t.phase == Releasing && t.notifies == s.notifies + 1
                  else t.phase == Requeuing)
            && (!s.phase.Requeuing? ==> t.channel == s.channel && t.queue == s.queue)
            && (s.phase.Requeuing? && s.queue != [] ==>
                  t.phase == Requeuing && t.channel == s.channel + [s.queue[0]] && t.queue == s.queue[1..])
            && (s.phase.Requeuing? && s.queue == [] ==>
                  t.phase == Running && t.channel == s.channel + (if s.blockError then [Terminate] else [])
                    && t.queue == [])
  {
  }

  /** What one message of the main loop changes. */
  lemma MainLoopStep(s: Net)
    requires s.phase.Running? && s.telling == 0 && s.asked == [] && s.active != 0 && s.channel != []
    ensures var t, m := Coordinated(s), s.channel[0];
            && t.phase == Running && t.asked == Asks(m, |s.blocks|) && t.i == s.i && t.queue == s.queue
            && |t.blocks| == |s.blocks|
            && t.channel == s.channel[1..] + (if m.BlockError? then [Terminate] else [])
            && t.active == s.active - (if m.BlockDone? || m.BlockError? then 1 else 0)
            && t.blockError == (s.blockError || m.BlockError?)
            && t.telling == (if m.Terminate? && !s.terminated then |s.blocks| else 0)
            && t.terminated == (s.terminated || (m.Terminate? && s.blocks == []))
  {
  }

  // ---- what is put aside

  /** What came from outside, in order. */
  function Requests(q: seq<Report>): seq<Report> {
    if q == [] then []
    else Requests(q[..|q| - 1]) + if FromOutside(q[|q| - 1]) then [q[|q| - 1]] else []
  }

  lemma RequestsSnoc(q: seq<Report>, m: Report)
    ensures Requests(q + [m]) == Requests(q) + if FromOutside(m) then [m] else []
  {
    assert (q + [m])[..|q|] == q;
  }

  lemma {:induction false} RequestsUncons(q: seq<Report>)
    requires q != []
    ensures Requests(q) == (if FromOutside(q[0]) then [q[0]] else []) + Requests(q[1..])
  {
    if |q| > 1 {
      RequestsUncons(q[..|q| - 1]);
      assert q[1..][..|q| - 2] == q[..|q| - 1][1..];
    }
  }

  /** The requests the coordinator has put aside, and behind them those in its channel. */
  function Held(s: Net): seq<Report> {
    Requests(s.queue) + Requests(s.channel)
  }

  /** What was sent from outside in a run. */
  function Arrived(steps: seq<Step>): seq<Report> {
    if steps == [] then []
    else (if steps[0].Outside? then [steps[0].report] else []) + Arrived(steps[1..])
  }

  predicate BeforeRequeuing(s: Net) {
    s.phase.Sending? || s.phase.Awaiting? || s.phase.Releasing?
  }

  lemma StepPutsAside(s: Net, step: Step)
    requires Enabled(s, step) && BeforeRequeuing(Next(s, step))
    ensures BeforeRequeuing(s)
    ensures var t := Next(s, step);
            Held(t) == Held(s) + if step.Outside? then [step.report] else []
  {
    if step.Coordinate? {
      CoordinatorPutsAside(s);
    } else {
      var t := Next(s, step);
      SentBehind(s, step);
      if t.channel != s.channel {
        RequestsSnoc(s.channel, t.channel[|s.channel|]);
      }
    }
  }

  lemma SentBehind(s: Net, step: Step)
    requires Enabled(s, step) && !step.Coordinate?
    ensures var t := Next(s, step);
            t.queue == s.queue && t.phase == s.phase && s.channel <= t.channel && |t.channel| <= |s.channel| + 1
            && (t.channel != s.channel ==> FromOutside(t.channel[|s.channel|]) == step.Outside?)
            && (step.Outside? ==> t.channel == s.channel + [step.report])
  {
  }

  lemma CoordinatorPutsAside(s: Net)
    requires CanCoordinate(s) && BeforeRequeuing(Coordinated(s))
    ensures BeforeRequeuing(s)
    ensures var t := Coordinated(s); Held(t) == Held(s)
  {
    TakenOrNot(s);
    if Coordinated(s).channel != s.channel {
      var m := s.channel[0];
      RequestsUncons(s.channel);
      RequestsSnoc(s.queue, m);
    }
  }

  lemma TakenOrNot(s: Net)
    requires CanCoordinate(s) && BeforeRequeuing(Coordinated(s))
    ensures BeforeRequeuing(s)
    ensures var t := Coordinated(s);
            if t.channel == s.channel then t.queue == s.queue
            else s.channel != [] && t.channel == s.channel[1..]
                 && (t.queue == s.queue + if s.channel[0].Initialized? || s.channel[0].BlockError? then []
                                          else [s.channel[0]])
  {
  }

  /** Until the coordinator puts them back, the requests it holds are what was sent from outside: all of it, and in
      order. */
  lemma {:induction false} PutAsideInOrder(s: Net, steps: seq<Step>)
    requires IsRun(s, steps) && BeforeRequeuing(Run(s, steps))
    ensures BeforeRequeuing(s)
    ensures var t := Run(s, steps);
            Held(t) == Held(s) + Arrived(steps)
    decreases |steps|
  {
    if steps != [] {
      PutAsideInOrder(Next(s, steps[0]), steps[1..]);
      StepPutsAside(s, steps[0]);
      var first := if steps[0].Outside? then [steps[0].report] else [];
      assert (Held(s) + first) + Arrived(steps[1..]) == Held(s) + (first + Arrived(steps[1..]));
    }
  }

  /** The loops of `run_flowgraph` between two awaits of an empty channel. */
  class Flowgraph {
    const n: nat
    var channel: seq<Report>
    var activeBlocks: int
    var i: int
    var queue: seq<Report>
    var blockError: bool
    var terminated: bool
    var asked: seq<nat>
    ghost var net: Net
    ghost var trace: seq<Step>

    ghost predicate Valid()
      reads this
    {
      && IsRun(Begin(n), trace) && net == Run(Begin(n), trace) && |net.blocks| == n
      && channel == net.channel && activeBlocks == net.active && i == net.i && queue == net.queue
      && blockError == net.blockError && terminated == net.terminated && asked == net.asked
      && (net.asked != [] ==> net.phase == Running) && net.telling == 0
    }

    constructor (n: nat)
      ensures Valid() && trace == [] && net.phase == Sending && this.n == n
    {
      this.n := n;
      channel, activeBlocks, i, queue, blockError, terminated, asked := [], 0, 0, [], false, false, [];
      net, trace := Begin(n), [];
    }

    ghost method Record(step: Step)
      requires IsRun(Begin(n), trace) && net == Run(Begin(n), trace) && Enabled(net, step) && |net.blocks| == n
      modifies this`net, this`trace
      ensures IsRun(Begin(n), trace) && net == Run(Begin(n), trace) && |net.blocks| == n
      ensures trace == old(trace) + [step] && net == Next(old(net), step)
    {
      RunSnoc(Begin(n), trace, step);
      trace, net := trace + [step], Next(net, step);
    }

    /** A block or an outside caller sends to the coordinator. */
    method Receive(ghost step: Step, m: Report)
      requires Valid() && Enabled(net, step) && !step.Coordinate? && Next(net, step).channel == channel + [m]
      modifies this`channel, this`net, this`trace
      ensures Valid() && trace == old(trace) + [step]
    {
      Record(step);
      channel := channel + [m];
    }

    method InitBlocks()
      requires Valid() && net.phase == Sending && net.inits == 0
      modifies this`activeBlocks, this`i, this`net, this`trace
      ensures Valid() && net.phase == Awaiting && old(trace) <= trace
    {
      for k := 0 to n
        invariant Valid() && net.phase == Sending && net.inits == k && old(trace) <= trace
      {
        Record(Coordinate);
        activeBlocks := activeBlocks + 1;
      }
      Record(Coordinate);
      i := activeBlocks;
    }

    /** The init loop, until every answer is in or it has to wait for one. */
    method AwaitInits() returns (done: bool)
      requires Valid() && net.phase == Awaiting
      modifies this`channel, this`i, this`activeBlocks, this`queue, this`blockError, this`net, this`trace
      ensures Valid() && net.phase == Awaiting && old(trace) <= trace && (done <==> i == 0) && (!done ==> channel == [])
    {
      while i != 0 && channel != []
        invariant Valid() && net.phase == Awaiting && old(trace) <= trace
        decreases |channel|
      {
        InitLoopStep(net);
        Record(Coordinate);
        var m := channel[0];
        channel := channel[1..];
        match m
        case Initialized => i := i - 1;
        case BlockError(_) => i, activeBlocks, blockError := i - 1, activeBlocks - 1, true;
        case _ => queue := queue + [m];
      }
      done := i == 0;
    }

    /** Notify every block, put the queued messages back, ask for termination after an error. */
    method StartBlocks()
      requires Valid() && net.phase == Awaiting && i == 0 && net.notifies == 0
      modifies this`channel, this`queue, this`net, this`trace
      ensures Valid() && net.phase == Running && old(trace) <= trace && queue == []
      ensures channel == old(channel) + old(queue) + if blockError then [Terminate] else []
    {
      StartStep(net);
      Record(Coordinate);
      for k := 0 to n
        invariant Valid() && net.phase == Releasing && net.notifies == k && old(trace) <= trace
      {
        StartStep(net);
        Record(Coordinate);
      }
      StartStep(net);
      Record(Coordinate);
      Requeue();
      StartStep(net);
      Record(Coordinate);
      if blockError {
        channel := channel + [Terminate];
      }
    }

    method Requeue()
      requires Valid() && net.phase == Requeuing
      modifies this`channel, this`queue, this`net, this`trace
      ensures Valid() && net.phase == Requeuing && old(trace) <= trace && queue == []
      ensures channel == old(channel) + old(queue)
    {
      while queue != []
        invariant Valid() && net.phase == Requeuing && old(trace) <= trace
        invariant channel + queue == old(channel) + old(queue)
        decreases |queue|
      {
        StartStep(net);
        Record(Coordinate);
        assert queue == [queue[0]] + queue[1..];
        channel := channel + [queue[0]];
        queue := queue[1..];
      }
    }

    /** The body of the main loop, up to the first await of a reply. */
    method Dispatch()
      requires Valid() && net.phase == Running && activeBlocks != 0 && asked == [] && channel != []
      modifies this`channel, this`activeBlocks, this`blockError, this`terminated, this`asked, this`net, this`trace
      ensures Valid() && net.phase == Running && old(trace) <= trace
      ensures asked == Asks(old(channel)[0], n)
      ensures Errors(channel) < Errors(old(channel))
              || (Errors(channel) == Errors(old(channel)) && |channel| < |old(channel)|)
    {
      ErrorsAfter(channel);
      MainLoopStep(net);
      if channel[0].Terminate? && !terminated {
        Broadcast();
      } else {
        Take();
      }
    }

    method Broadcast()
      requires Valid() && net.phase == Running && activeBlocks != 0 && asked == [] && channel != []
      requires channel[0].Terminate? && !terminated
      modifies this`channel, this`terminated, this`net, this`trace
      ensures Valid() && net.phase == Running && old(trace) <= trace && terminated && channel == old(channel)[1..]
    {
      MainLoopStep(net);
      Record(Coordinate);
      TellAll();
      channel := channel[1..];
      terminated := true;
    }

    /** The other messages. */
    method Take()
      requires Valid() && net.phase == Running && activeBlocks != 0 && asked == [] && channel != []
      requires channel[0].Terminate? ==> terminated
      modifies this`channel, this`activeBlocks, this`blockError, this`asked, this`net, this`trace
      ensures Valid() && net.phase == Running && trace == old(trace) + [Coordinate]
      ensures asked == Asks(old(channel)[0], n)
      ensures channel == old(channel)[1..] + if old(channel)[0].BlockError? then [Terminate] else []
    {
      MainLoopStep(net);
      Record(Coordinate);
      var m := channel[0];
      channel := channel[1..];
      match m
      case BlockDone(_) => activeBlocks := activeBlocks - 1;
      case BlockError(_) =>
        blockError, activeBlocks := true, activeBlocks - 1;
        channel := channel + [Terminate];
      case BlockCallback(to, _, _) => asked := if to < n then [to] else [];
      case BlockDescription(to) => asked := if to < n then [to] else [];
      case FlowgraphDescription => asked := seq(n, k requires 0 <= k < n => k);
      case _ =>
    }

    /** Terminate goes to one block after the other. */
    method TellAll()
      requires IsRun(Begin(n), trace) && net == Run(Begin(n), trace) && |net.blocks| == n
      requires net.phase == Running && net.telling == n && net.terminated == (n == 0)
      modifies this`net, this`trace
      ensures IsRun(Begin(n), trace) && net == Run(Begin(n), trace) && old(trace) <= trace
      ensures net == old(net).(telling := 0, terminated := true)
    {
      for k := 0 to n
        invariant IsRun(Begin(n), trace) && net == Run(Begin(n), trace) && old(trace) <= trace
        invariant net == old(net).(telling := n - k, terminated := k == n)
      {
        Record(Coordinate);
      }
    }

    /** The await of a reply ends; a flowgraph description goes on with the next block. */
    method Resume()
      requires Valid() && asked != []
      modifies this`asked, this`net, this`trace
      ensures Valid() && net.phase == Running && trace == old(trace) + [Reply] && asked == old(asked)[1..]
    {
      Record(Reply);
      asked := asked[1..];
    }

    /** The main loop, until all blocks have reported their end or it has to wait, for a message or for a reply. */
    method RunBlocks() returns (result: BlockState)
      requires Valid() && net.phase == Running
      modifies this`channel, this`activeBlocks, this`blockError, this`terminated, this`asked, this`net, this`trace
      ensures Valid() && old(trace) <= trace
      ensures result.Over? ==> net.phase == Returned(result.ok)
      ensures !result.Over? ==> net.phase == Running && (asked != [] || (activeBlocks != 0 && channel == []))
    {
      while asked == [] && activeBlocks != 0 && channel != []
        invariant Valid() && net.phase == Running && old(trace) <= trace
        decreases Errors(channel), |channel|
      {
        Dispatch();
      }
      if asked == [] && activeBlocks == 0 {
        Record(Coordinate);
        return Over(!blockError);
      }
      result := Ready;
    }
  }
}
