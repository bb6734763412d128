/** What every execution of a message pipeline comes to: the sink receives the burst's messages, all of them and in
    order, and every execution ends. */
module PipelineRuns {
  import opened BlockLoop
  import opened Pipeline

  // ---- order and completeness

  lemma HandledIsReceived(b: Block)
    requires Fifo(b) && Received(b.ignored) == []
    ensures Received(b.handled) <= Received(b.sent)
    ensures InHand(b) + b.queue == [] ==> Received(b.handled) == Received(b.sent)
  {
    ReceivedConcat(b.ignored, b.handled);
    ReceivedConcat(b.ignored + b.handled, InHand(b) + b.queue);
    assert b.sent == (b.ignored + b.handled) + (InHand(b) + b.queue);
  }

  /** `n_received` of the sink, as its handler counts it. */
  function Sunk(s: System): seq<int>
    requires |s.blocks| > 0
  {
    Values(Received(s.blocks[|s.blocks| - 1].handled))
  }

  lemma DownstreamOf(down: Block, values: seq<int>, closed: bool)
    requires BlockOk(down) && Received(down.sent) == Wire(values, closed)
    ensures var p := Received(down.handled); Values(p) <= values && (Finished in p ==> closed && Values(p) == values)
  {
    HandledIsReceived(down);
    PrefixOfWire(Received(down.handled), values, closed);
  }

  lemma ClosedIsFinished(b: Block)
    requires BlockOk(b) && Closed(b)
    ensures b.io.finished
  {
  }

  /** No stage is ahead of the burst, and one that has handled Finished has handled everything. */
  lemma {:induction false} InOrder(s: System, i: nat)
    requires |s.blocks| >= 2 && BlocksOk(s) && StagesOk(s) && EdgesOk(s) && BurstOk(s, s.blocks[0])
             && 0 < i < |s.blocks|
    ensures var p := Received(s.blocks[i].handled); Values(p) <= s.values && (Finished in p ==> Values(p) == s.values)
  {
    assert EdgeOk(s, i - 1);
    if i == 1 {
      BelowBurst(s.values, s.posted, s.blocks[0], s.blocks[1]);
    } else {
      InOrder(s, i - 1);
      BelowStage(s.values, s.blocks[i - 1], s.blocks[i]);
    }
  }

  lemma BelowBurst(values: seq<int>, posted: nat, up: Block, down: Block)
    requires BlockOk(up) && BlockOk(down) && SourceEdge(values, posted, up, down)
    requires up.io.finished ==> posted == |values|
    ensures var p := Received(down.handled); Values(p) <= values && (Finished in p ==> Values(p) == values)
  {
    if Closed(up) {
      ClosedIsFinished(up);
      assert values[..posted] == values;
    }
    DownstreamOf(down, values[..posted], Closed(up));
  }

  lemma BelowStage(values: seq<int>, up: Block, down: Block)
    requires BlockOk(up) && BlockOk(down) && StageOk(up) && StageEdge(up, down)
    requires var p := Received(up.handled); Values(p) <= values && (Finished in p ==> Values(p) == values)
    ensures var p := Received(down.handled); Values(p) <= values && (Finished in p ==> Values(p) == values)
  {
    if Closed(up) {
      ClosedIsFinished(up);
    }
    DownstreamOf(down, Values(Received(up.handled)), Closed(up));
  }

  /** What block i has received, however far the execution has come. */
  predicate InStep(s: System, i: nat)
    requires i < |s.blocks|
  {
    var b := s.blocks[i];
    var p := Values(Received(b.handled));
    p <= s.values && (b.io.finished ==> p == s.values)
  }

  predicate SinkInStep(s: System) {
    |s.blocks| >= 2 && InStep(s, |s.blocks| - 1)
  }

  lemma LastInStep(s: System, last: nat)
    requires last + 1 == |s.blocks| && last > 0 && StageOk(s.blocks[last])
    requires var p := Received(s.blocks[last].handled);
             Values(p) <= s.values
             && (Finished in p ==> Values(p) == s.values)
    ensures SinkInStep(s)
  {
  }

  lemma SystemInStep(s: System)
    requires |s.blocks| >= 2 && BlocksOk(s) && StagesOk(s) && EdgesOk(s) && BurstOk(s, s.blocks[0])
    ensures SinkInStep(s)
  {
    InOrder(s, |s.blocks| - 1);
    LastInStep(s, |s.blocks| - 1);
  }

  lemma {:induction false} AlwaysInStep(s: System, moves: seq<Move>)
    requires SystemOk(s) && IsExecution(s, moves)
    ensures SinkInStep(Execute(s, moves))
    decreases |moves|
  {
    if moves == [] {
      SystemInStep(s);
    } else {
      MoveKeeps(s, moves[0]);
      AlwaysInStep(Moved(s, moves[0]), moves[1..]);
    }
  }

  lemma ReachedInStep(values: seq<int>, stages: nat, moves: seq<Move>)
    requires IsExecution(Start(values, stages), moves)
    ensures SinkInStep(Execute(Start(values, stages), moves))
  {
    StartOk(values, stages);
    AlwaysInStep(Start(values, stages), moves);
  }

  /** In every reachable state the sink has received a prefix of the burst, and once it shuts down the whole burst:
      nothing is lost, duplicated or reordered at any stage. */
  lemma SinkReceivesTheBurst(values: seq<int>, stages: nat, moves: seq<Move>)
    requires IsExecution(Start(values, stages), moves)
    ensures var s := Execute(Start(values, stages), moves);
            && |s.blocks| == stages + 2 && s.values == values && Sunk(s) <= values
            && (s.blocks[|s.blocks| - 1].io.finished ==> Sunk(s) == values)
  {
    ReachedInStep(values, stages, moves);
    SameShape(Start(values, stages), moves);
  }

  lemma {:induction false} SameShape(s: System, moves: seq<Move>)
    requires IsExecution(s, moves)
    ensures var s' := Execute(s, moves); |s'.blocks| == |s.blocks| && s'.values == s.values
    decreases |moves|
  {
    if moves != [] {
      SameShape(Moved(s, moves[0]), moves[1..]);
    }
  }

  // ---- every execution ends

  /** How far a block is from parking or ending, apart from the messages it still has to handle. */
  function PhaseRank(b: Block): nat {
    match b.phase
    case Validating => 9
    case Setup => 8
    case Fetching => if b.peek.Some? then 2 else 5
    case Handling(_) => 0
    case Deciding => if b.io.callAgain then 8 else 4
    case Starting => 7
    case Working => 6
    case Parked | Selecting => 3
    case Notifying => 2
    case Deinit => 1
    case Done | Failed => 0
  }

  /** A message costs the steps it causes here and further down, and so does the Finished still to be said. */
  function Cost(b: Block, weight: nat): nat
    requires weight >= 10
  {
    Times(|InHand(b) + b.queue|, weight) + PhaseRank(b) + if Closed(b) then 0 else weight - 10
  }

  function Times(n: nat, weight: nat): nat {
    if n == 0 then 0 else Times(n - 1, weight) + weight
  }

  /** The cost of the blocks, the last with weight 10, the one before it 20, and so on. */
  function Total(blocks: seq<Block>): nat {
    if blocks == [] then 0 else Cost(blocks[0], 10 * |blocks|) + Total(blocks[1..])
  }

  /** Control messages still to be sent to the last n blocks. */
  function Outstanding(n: nat): nat {
    if n == 0 then 0 else Outstanding(n - 1) + 10 * n + 1
  }

  function Measure(s: System): nat
    requires Counts(s)
  {
    Total(s.blocks) + Times(|s.values| - s.posted, 10 * |s.blocks| - 9)
    + Outstanding(|s.blocks| - s.inits) + Outstanding(|s.blocks| - s.notifies)
  }

  lemma {:induction false} TotalUpdate(blocks: seq<Block>, k: nat, b: Block)
    requires k < |blocks|
    ensures Total(blocks[k := b]) + Cost(blocks[k], 10 * (|blocks| - k)) == Total(blocks) + Cost(b, 10 * (|blocks| - k))
  {
    if k > 0 {
      assert blocks[k := b][1..] == blocks[1..][k - 1 := b];
      TotalUpdate(blocks[1..], k - 1, b);
    } else {
      assert blocks[k := b][1..] == blocks[1..];
    }
  }

  lemma SendCosts(b: Block, m: Message, weight: nat)
    requires weight >= 10
    ensures Cost(Send(b, m), weight) == Cost(b, weight) + weight
  {
    assert InHand(b) + (b.queue + [m]) == (InHand(b) + b.queue) + [m];
  }

  /** A step costs at least what it posts to the next block, plus one. */
  lemma StepPays(b: Block, e: Event, weight: nat, posts: bool)
    requires weight >= 10 && BlockOk(b) && Enabled(b, e) && Mild(b, e)
    requires posts ==> e.HandleOk? || e.Notified?
    ensures Cost(Next(b, e), weight) + (if posts then weight - 10 else 0) < Cost(b, weight)
  {
    var b' := Next(b, e);
    assert |InHand(b') + b'.queue| == |InHand(b) + b.queue| - if e.Skip? || e.InitOk? || e.HandleOk? then 1 else 0;
  }

  lemma StepTotal(blocks: seq<Block>, i: nat, e: Event, posts: bool)
    requires i < |blocks| && BlockOk(blocks[i]) && Enabled(blocks[i], e) && Mild(blocks[i], e)
    requires posts ==> e.HandleOk? || e.Notified?
    ensures Total(blocks[i := Next(blocks[i], e)]) + (if posts then 10 * (|blocks| - i) - 10 else 0) < Total(blocks)
  {
    StepPays(blocks[i], e, 10 * (|blocks| - i), posts);
    TotalUpdate(blocks, i, Next(blocks[i], e));
  }

  lemma StepDecreases(s: System, i: nat, e: Event)
    requires |s.blocks| >= 2 && CanMove(s, Step(i, e)) && BlockOk(s.blocks[i])
    ensures Total(Moved(s, Step(i, e)).blocks) < Total(s.blocks)
  {
    KernelIsMild(s, i, e);
    StepEffect(s, i, e, i);
    StepTotal(s.blocks, i, e, Posts(s, i, e) != []);
    if Posts(s, i, e) != [] {
      SendIncreases(s.blocks[i := Next(s.blocks[i], e)], i + 1, Posts(s, i, e)[0]);
    }
  }

  lemma SendIncreases(blocks: seq<Block>, k: nat, m: Message)
    requires k < |blocks|
    ensures Total(blocks[k := Send(blocks[k], m)]) == Total(blocks) + 10 * (|blocks| - k)
  {
    SendCosts(blocks[k], m, 10 * (|blocks| - k));
    TotalUpdate(blocks, k, Send(blocks[k], m));
  }

  /** The counts a measure is defined for. */
  predicate Counts(s: System) {
    |s.blocks| >= 2 && s.posted <= |s.values| && s.inits <= |s.blocks| && s.notifies <= |s.blocks|
  }

  lemma InitDecreases(s: System)
    requires Counts(s) && CanMove(s, SendInit)
    ensures Counts(Moved(s, SendInit)) && Measure(Moved(s, SendInit)) < Measure(s)
  {
    SendIncreases(s.blocks, s.inits, Initialize);
  }

  lemma NotifyDecreases(s: System)
    requires Counts(s) && CanMove(s, SendNotify)
    ensures Counts(Moved(s, SendNotify)) && Measure(Moved(s, SendNotify)) < Measure(s)
  {
    SendIncreases(s.blocks, s.notifies, Notify);
  }

  lemma PostDecreases(s: System)
    requires Counts(s) && CanMove(s, Post)
    ensures Counts(Moved(s, Post)) && Measure(Moved(s, Post)) < Measure(s)
  {
    SendIncreases(s.blocks, 1, Call("in", Data(s.values[s.posted])));
  }

  lemma MoveDecreases(s: System, m: Move)
    requires Counts(s) && CanMove(s, m) && (m.Step? ==> BlockOk(s.blocks[m.block]))
    ensures Counts(Moved(s, m)) && Measure(Moved(s, m)) < Measure(s)
  {
    match m
    case SendInit => InitDecreases(s);
    case SendNotify => NotifyDecreases(s);
    case Post => PostDecreases(s);
    case Step(i, e) =>
      StepEffect(s, i, e, 0);
      StepDecreases(s, i, e);
  }

  lemma {:induction false} ExecutionsAreBounded(s: System, moves: seq<Move>)
    requires SystemOk(s) && IsExecution(s, moves)
    ensures |moves| <= Measure(s)
    decreases |moves|
  {
    if moves != [] {
      MoveKeeps(s, moves[0]);
      MoveDecreases(s, moves[0]);
      ExecutionsAreBounded(Moved(s, moves[0]), moves[1..]);
    }
  }

  // ---- and ends well

  ghost predicate Stuck(s: System) {
    forall m :: !CanMove(s, m)
  }

  /** The step a block takes if it can take one. */
  function OwnStep(b: Block, burst: bool): Event {
    match b.phase
    case Validating => ValidateOk
    case Setup => if b.queue != [] && b.queue[0].Initialize? then InitOk else Skip
    case Fetching => Fetch
    case Handling(m) =>
      HandleOk(if m.Call? && !burst then b.io.(finished := b.io.finished || m.data.Finished?) else b.io)
    case Deciding => Decide
    case Parked | Selecting => Wake
    case Starting => StartWork
    case Working => WorkOk(if burst then b.io.(finished := true) else b.io)
    case Notifying => Notified
    case Deinit | Done | Failed => DeinitOk
  }

  lemma OwnStepIsEnabled(b: Block, burst: bool)
    requires !Over(b) && (b.phase.Setup? || b.phase.Parked? || b.phase.Selecting? ==> b.queue != [])
    ensures Enabled(b, OwnStep(b, burst))
  {
  }

  lemma OwnStepIsTheKernels(s: System, i: nat)
    requires i < |s.blocks| && !Over(s.blocks[i]) && (i == 0 && s.blocks[0].phase.Working? ==> s.posted == |s.values|)
    ensures KernelDoes(s, i, OwnStep(s.blocks[i], i == 0))
  {
  }

  lemma SetupHasInitialize(b: Block)
    requires BlockOk(b) && b.phase.Setup? && Initialize in b.sent
    ensures b.queue != []
  {
    assert b.sent == b.ignored + b.queue;
  }

  /** A block that cannot step is over or parked with an empty inbox. */
  lemma StuckBlock(s: System, i: nat)
    requires |s.blocks| >= 2 && BarrierOk(s) && s.posted <= |s.values| && Stuck(s) && i < |s.blocks|
             && BlockOk(s.blocks[i])
    ensures var b := s.blocks[i]; b.phase.Done? || (b.phase.Parked? && b.queue == [])
  {
    var b := s.blocks[i];
    assert !CanMove(s, SendInit) && !CanMove(s, Post) && !CanMove(s, Step(i, OwnStep(b, i == 0)));
    if b.phase.Setup? {
      SetupHasInitialize(b);
    }
    if !b.phase.Done? && !(b.phase.Parked? && b.queue == []) {
      OwnStepIsEnabled(b, i == 0);
      OwnStepIsTheKernels(s, i);
    }
  }

  /** A notified burst does not park on an empty inbox. */
  lemma BurstDoesNotPark(s: System, b: Block)
    requires BlockOk(b) && BurstOk(s, b) && Notify in b.sent && b.phase.Parked?
    ensures b.queue != []
  {
    assert b.handled == [];
    assert b.sent == b.ignored + b.queue;
  }

  /** Nor does a copy or the sink once Finished was sent to it. */
  lemma StageDoesNotPark(up: Block, down: Block, values: seq<int>)
    requires BlockOk(down) && StageOk(down) && down.phase.Parked?
    requires Closed(up) && Received(down.sent) == Wire(values, Closed(up))
    ensures down.queue != []
  {
    HandledIsReceived(down);
    assert Wire(values, true)[|values|] == Finished;
  }

  lemma StuckStage(s: System, i: nat)
    requires SystemOk(s) && 0 < i < |s.blocks| && s.blocks[i - 1].phase.Done?
    ensures s.blocks[i].phase.Parked? ==> s.blocks[i].queue != []
  {
    assert EdgeOk(s, i - 1);
    if s.blocks[i].phase.Parked? {
      StageDoesNotPark(s.blocks[i - 1], s.blocks[i],
                       if i == 1 then s.values[..s.posted] else Values(Received(s.blocks[i - 1].handled)));
    }
  }

  lemma StuckBurst(s: System)
    requires SystemOk(s) && s.notifies == |s.blocks|
    ensures s.blocks[0].phase.Parked? ==> s.blocks[0].queue != []
  {
    if s.blocks[0].phase.Parked? {
      BurstDoesNotPark(s, s.blocks[0]);
    }
  }

  lemma {:induction false} StuckIsDone(s: System, i: nat)
    requires SystemOk(s) && Stuck(s) && i < |s.blocks| && s.notifies == |s.blocks|
    ensures s.blocks[i].phase.Done?
  {
    StuckBlock(s, i);
    if i == 0 {
      StuckBurst(s);
    } else {
      StuckIsDone(s, i - 1);
      StuckStage(s, i);
    }
  }

  lemma StuckIsNotEarly(s: System, i: nat)
    requires |s.blocks| >= 2 && BarrierOk(s) && s.posted <= |s.values| && Stuck(s) && i < |s.blocks|
             && BlockOk(s.blocks[i])
    ensures !Early(s.blocks[i])
  {
    StuckBlock(s, i);
  }

  lemma StuckIsNotified(s: System)
    requires |s.blocks| >= 2 && BlocksOk(s) && BarrierOk(s) && s.posted <= |s.values| && Stuck(s)
    ensures s.notifies == |s.blocks|
  {
    forall i | 0 <= i < |s.blocks| ensures !Early(s.blocks[i]) {
      StuckIsNotEarly(s, i);
    }
    assert !CanMove(s, SendInit) && !CanMove(s, SendNotify);
  }

  lemma AllDone(s: System)
    requires SystemOk(s) && Stuck(s)
    ensures forall i :: 0 <= i < |s.blocks| ==> s.blocks[i].phase.Done?
  {
    StuckIsNotified(s);
    forall i | 0 <= i < |s.blocks| ensures s.blocks[i].phase.Done? {
      StuckIsDone(s, i);
    }
  }

  lemma SinkIsFinished(s: System)
    requires SystemOk(s) && s.blocks[|s.blocks| - 1].phase.Done?
    ensures s.blocks[|s.blocks| - 1].io.finished
  {
    ClosedIsFinished(s.blocks[|s.blocks| - 1]);
  }

  lemma StuckEndsWell(s: System)
    requires SystemOk(s) && Stuck(s)
    ensures forall i :: 0 <= i < |s.blocks| ==> s.blocks[i].phase.Done?
    ensures s.blocks[|s.blocks| - 1].io.finished
  {
    AllDone(s);
    SinkIsFinished(s);
  }

  lemma ExecutionsEnd(values: seq<int>, stages: nat, moves: seq<Move>)
    requires IsExecution(Start(values, stages), moves)
    ensures |moves| <= Measure(Start(values, stages))
  {
    StartOk(values, stages);
    ExecutionsAreBounded(Start(values, stages), moves);
  }

  predicate EndedWell(s: System) {
    && (forall i :: 0 <= i < |s.blocks| ==> s.blocks[i].phase.Done?)
    && |s.blocks| >= 2 && s.blocks[|s.blocks| - 1].io.finished
  }

  lemma {:induction false} StuckExecution(s: System, moves: seq<Move>)
    requires SystemOk(s) && IsExecution(s, moves) && Stuck(Execute(s, moves))
    ensures EndedWell(Execute(s, moves))
    decreases |moves|
  {
    if moves == [] {
      StuckEndsWell(s);
    } else {
      MoveKeeps(s, moves[0]);
      StuckExecution(Moved(s, moves[0]), moves[1..]);
    }
  }

  lemma ReachedEndsWell(values: seq<int>, stages: nat, moves: seq<Move>)
    requires IsExecution(Start(values, stages), moves) && Stuck(Execute(Start(values, stages), moves))
    ensures EndedWell(Execute(Start(values, stages), moves))
  {
    StartOk(values, stages);
    StuckExecution(Start(values, stages), moves);
  }

  /** Every execution is finite, and where it cannot go on every block is done and the sink holds the whole burst. */
  lemma EveryExecutionEndsWell(values: seq<int>, stages: nat, moves: seq<Move>)
    requires IsExecution(Start(values, stages), moves)
    ensures |moves| <= Measure(Start(values, stages))
    ensures var s := Execute(Start(values, stages), moves);
            && |s.blocks| == stages + 2
            && (Stuck(s) ==> (forall i :: 0 <= i < |s.blocks| ==> s.blocks[i].phase.Done?) && Sunk(s) == values)
  {
    ExecutionsEnd(values, stages, moves);
    SinkReceivesTheBurst(values, stages, moves);
    if Stuck(Execute(Start(values, stages), moves)) {
      ReachedEndsWell(values, stages, moves);
    }
  }
}
