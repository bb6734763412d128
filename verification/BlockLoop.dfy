/** The actor loop of one block (src/runtime/block.rs, `run_impl` and `run`) as a step system: the block's own steps
    interleave with sends into its inbox at every point. */
module BlockLoop {
  import opened Wrappers

  /** Message payloads; only `Finished` is special to the blocks modelled here. */
  datatype Pmt = Finished | Data(value: int)

  datatype Message =
    | Initialize
    | Notify
    | BlockDescription
    | StreamInputDone(inputId: nat)
    | StreamOutputDone(outputId: nat)
    | Call(port: string, data: Pmt)
    | Callback(port: string, data: Pmt)
    | Terminate

  datatype WorkIo = WorkIo(callAgain: bool, finished: bool, blockOn: bool)

  /** Where the loop is between two points at which other actors can run. */
  datatype Phase =
    | Validating                   // stream_ports_validate
    | Setup                        // waiting for Initialize
    | Fetching                     // head of the main loop
    | Handling(message: Message)   // in the drain loop
    | Deciding                     // inbox found empty
    | Parked                       // waiting for a message
    | Selecting                    // waiting for a message or the kernel's future
    | Starting                     // about to call work
    | Working                      // in work
    | Notifying                    // telling the neighbours
    | Deinit
    | Done
    | Failed

  /** The state of a block and the history the properties speak about. */
  datatype Block = Block(
    phase: Phase, io: WorkIo, peek: Option<Message>, queue: seq<Message>,
    sent: seq<Message>,            // everything sent to the inbox
    ignored: seq<Message>,         // taken during setup
    handled: seq<Message>,         // taken by the drain loop
    works: nat,                    // calls of work
    lastWork: nat,                 // messages handled before the last of them
    deadline: Option<nat>)         // calls of work when a Terminate behind the Initialize was first sent

  const FRESH: Block := Block(Validating, WorkIo(false, false, false), None, [], [], [], [], 0, 0, None)

  /** Somebody's `send`. */
  function Send(b: Block, m: Message): Block {
    b.(queue := b.queue + [m], sent := b.sent + [m],
       deadline := if m.Terminate? && Initialize in b.sent && b.deadline.None? then Some(b.works) else b.deadline)
  }

  /** The block's own steps; the payload is what the kernel made of its `WorkIo`. */
  datatype Event =
    | ValidateOk | ValidateErr | Skip | InitOk | InitErr
    | Fetch | HandleOk(io: WorkIo) | HandleErr | Decide | Resolve | Wake | StartWork
    | WorkOk(io: WorkIo) | WorkErr | Notified | DeinitOk | DeinitErr

  /** A kernel may set any flag but does not take `finished` back. */
  predicate Keeps(before: WorkIo, after: WorkIo) {
    before.finished ==> after.finished
  }

  predicate Enabled(b: Block, e: Event) {
    match e
    case ValidateOk | ValidateErr => b.phase.Validating?
    case Skip => b.phase.Setup? && b.queue != [] && !b.queue[0].Initialize?
    case InitOk | InitErr => b.phase.Setup? && b.queue != [] && b.queue[0].Initialize?
    case Fetch => b.phase.Fetching?
    case HandleOk(io) =>
      b.phase.Handling? && Keeps(b.io, io)
      && (b.phase.message.Call? || b.phase.message.Callback? || io == b.io)
    case HandleErr =>
      b.phase.Handling? && (b.phase.message.Call? || b.phase.message.Callback? || b.phase.message.StreamInputDone?)
    case Decide => b.phase.Deciding?
    case Resolve => b.phase.Selecting?
    case Wake => (b.phase.Parked? || b.phase.Selecting?) && b.queue != []
    case StartWork => b.phase.Starting?
    case WorkOk(io) => b.phase.Working? && Keeps(b.io, io)
    case WorkErr => b.phase.Working?
    case Notified => b.phase.Notifying?
    case DeinitOk | DeinitErr => b.phase.Deinit?
  }

  /** `inbox.try_recv()` */
  function TryRecv(b: Block): Block {
    if b.queue == [] then b.(phase := Deciding)
    else b.(phase := Handling(b.queue[0]), queue := b.queue[1..])
  }

  function Next(b: Block, e: Event): Block
    requires Enabled(b, e)
  {
    match e
    case ValidateOk => b.(phase := Setup)
    case ValidateErr => b.(phase := Failed)
    case Skip => b.(ignored := b.ignored + [b.queue[0]], queue := b.queue[1..])
    case InitOk => b.(phase := Fetching, ignored := b.ignored + [b.queue[0]], queue := b.queue[1..])
    case InitErr => b.(phase := Failed, ignored := b.ignored + [b.queue[0]], queue := b.queue[1..])
    case Fetch =>
      if b.peek.Some? then b.(phase := Handling(b.peek.value), peek := None) else TryRecv(b)
    case HandleOk(io) =>
      var m := b.phase.message;
      var finished := io.finished || m.Terminate? || m.StreamOutputDone?;
      TryRecv(b.(io := io.(finished := finished, callAgain := true), handled := b.handled + [m]))
    case HandleErr => b.(phase := Failed, handled := b.handled + [b.phase.message])
    case Decide =>
      if b.io.finished then b.(phase := Notifying)
      else if b.io.callAgain then b.(phase := Starting)
      else if b.io.blockOn then b.(phase := Selecting, io := b.io.(blockOn := false))
      else b.(phase := Parked)
    case Resolve => b.(phase := Starting, io := b.io.(callAgain := true))
    case Wake =>
      b.(phase := Fetching, peek := Some(b.queue[0]), queue := b.queue[1..],
         io := if b.phase.Selecting? then b.io.(blockOn := true) else b.io)
    case StartWork =>
      b.(phase := Working, io := b.io.(callAgain := false), works := b.works + 1, lastWork := |b.handled|)
    case WorkOk(io) => b.(phase := Fetching, io := io)
    case WorkErr => b.(phase := Failed)
    case Notified => b.(phase := Deinit)
    case DeinitOk => b.(phase := Done)
    case DeinitErr => b.(phase := Failed)
  }

  // ---- runs

  datatype Action = Arrive(message: Message) | Own(event: Event)

  predicate Allowed(b: Block, a: Action) {
    a.Own? ==> Enabled(b, a.event)
  }

  function Act(b: Block, a: Action): Block
    requires Allowed(b, a)
  {
    match a
    case Arrive(m) => Send(b, m)
    case Own(e) => Next(b, e)
  }

  predicate IsRun(b: Block, actions: seq<Action>)
    decreases |actions|
  {
    actions == [] || (Allowed(b, actions[0]) && IsRun(Act(b, actions[0]), actions[1..]))
  }

  function Run(b: Block, actions: seq<Action>): Block
    requires IsRun(b, actions)
    decreases |actions|
  {
    if actions == [] then b else Run(Act(b, actions[0]), actions[1..])
  }

  // ---- what every step keeps

  predicate Early(b: Block) {
    b.phase.Validating? || b.phase.Setup?
  }

  predicate Over(b: Block) {
    b.phase.Done? || b.phase.Failed?
  }

  /** Taken out of the inbox and not yet handled. */
  function InHand(b: Block): seq<Message> {
    (if b.phase.Handling? then [b.phase.message] else []) + (if b.peek.Some? then [b.peek.value] else [])
  }

  /** First in, first out: nothing is lost, duplicated or overtaken. */
  predicate Fifo(b: Block) {
    && b.sent == b.ignored + b.handled + InHand(b) + b.queue
    && (b.peek.Some? ==> b.phase.Fetching?)
  }

  /** Before the Initialize nothing is handled, and everything up to it is ignored. */
  predicate SetupFirst(b: Block) {
    && (Early(b) ==> Initialize !in b.ignored && b.handled == [] && b.works == 0 && b.lastWork == 0
                     && b.io == WorkIo(false, false, false))
    && (!Early(b) && b.phase != Failed ==> Initialize in b.ignored)
  }

  /** Setup ends with the first Initialize. */
  predicate FirstInitialize(b: Block) {
    b.ignored != [] ==> Initialize !in b.ignored[..|b.ignored| - 1]
  }

  /** The loop only parks when no message was handled since work was last called. */
  predicate NoLostWakeUp(b: Block) {
    && b.lastWork <= |b.handled|
    && (b.phase.Working? ==> b.lastWork == |b.handled|)
    && (b.phase.Parked? || b.phase.Selecting? ==> b.lastWork == |b.handled| && !b.io.callAgain)
    && (b.phase.Fetching? || b.phase.Deciding? ==> b.io.callAgain || b.lastWork == |b.handled|)
  }

  predicate FlagsFit(b: Block) {
    && (b.phase.Starting? || b.phase.Working? || b.phase.Parked? || b.phase.Selecting? ==> !b.io.finished)
    && (b.phase.Notifying? || b.phase.Deinit? || b.phase.Done? ==> b.io.finished)
  }

  /** A Terminate behind an Initialize. */
  predicate Behind(q: seq<Message>) {
    exists i, j :: 0 <= i < j < |q| && q[i] == Initialize && q[j] == Terminate
  }

  /** A Terminate the drain loop has not taken. */
  predicate Pending(b: Block) {
    if Early(b) then Behind(b.queue) else Terminate in InHand(b) + b.queue
  }

  /** Once a Terminate is sent behind the Initialize, at most one more call of work starts. */
  predicate Deadline(b: Block) {
    && (b.deadline.Some? ==> b.deadline.value <= b.works <= b.deadline.value + 1)
    && (b.deadline.Some? && !Over(b) ==> b.io.finished || Pending(b))
    && (b.deadline.Some? && b.works > b.deadline.value ==>
        !b.phase.Starting? && !b.phase.Parked? && !b.phase.Selecting?)
    && (b.deadline.Some? && b.works > b.deadline.value && b.phase.Deciding? ==> b.io.finished)
  }

  predicate Invariant(b: Block) {
    Fifo(b) && SetupFirst(b) && FirstInitialize(b) && NoLostWakeUp(b) && FlagsFit(b) && Deadline(b)
  }

  lemma SendKeepsInvariant(b: Block, m: Message)
    requires Invariant(b)
    ensures Invariant(Send(b, m))
  {
    var b' := Send(b, m);
    assert b'.sent == b'.ignored + b'.handled + InHand(b') + b'.queue;
    if Early(b) {
      if Behind(b.queue) {
        var i, j :| 0 <= i < j < |b.queue| && b.queue[i] == Initialize && b.queue[j] == Terminate;
        assert b'.queue[i] == Initialize && b'.queue[j] == Terminate;
      } else if b'.deadline.Some? {
        assert b.deadline.None?;
        assert Initialize in b.queue;
        var i :| 0 <= i < |b.queue| && b.queue[i] == Initialize;
        assert b'.queue[i] == Initialize && b'.queue[|b.queue|] == Terminate;
      }
    }
  }

  lemma TryRecvKeepsFifo(b: Block)
    requires b.sent == b.ignored + b.handled + b.queue && b.peek.None?
    ensures Fifo(TryRecv(b))
  {
    assert b.queue != [] ==> b.queue == [b.queue[0]] + b.queue[1..];
  }

  lemma HandledKeepsFifo(b: Block, io: WorkIo)
    requires Fifo(b) && b.phase.Handling?
    ensures Fifo(TryRecv(b.(io := io, handled := b.handled + [b.phase.message])))
    ensures Fifo(b.(phase := Failed, handled := b.handled + [b.phase.message]))
  {
    TryRecvKeepsFifo(b.(io := io, handled := b.handled + [b.phase.message]));
  }

  lemma TakeKeepsFifo(b: Block)
    requires Fifo(b) && b.queue != [] && !b.phase.Handling? && b.peek.None?
    ensures Early(b) && b.handled == [] ==> b.sent == (b.ignored + [b.queue[0]]) + b.queue[1..]
    ensures b.sent == b.ignored + b.handled + [b.queue[0]] + b.queue[1..]
  {
    assert b.queue == [b.queue[0]] + b.queue[1..];
  }

  /** Steps that leave the inbox and the message in hand alone. */
  predicate Calm(e: Event) {
    !e.Fetch? && !e.HandleOk? && !e.HandleErr? && !e.Wake? && !e.Skip? && !e.InitOk? && !e.InitErr?
  }

  lemma CalmKeepsFifo(b: Block, e: Event)
    requires Fifo(b) && Enabled(b, e) && Calm(e)
    ensures Fifo(Next(b, e))
  {
  }

  lemma SetupKeepsFifo(b: Block, e: Event)
    requires Invariant(b) && Enabled(b, e) && (e.Skip? || e.InitOk? || e.InitErr?)
    ensures Fifo(Next(b, e))
  {
    TakeKeepsFifo(b);
  }

  lemma WakeKeepsFifo(b: Block)
    requires Fifo(b) && Enabled(b, Wake)
    ensures Fifo(Next(b, Wake))
  {
    TakeKeepsFifo(b);
  }

  lemma FetchKeepsFifo(b: Block)
    requires Fifo(b) && Enabled(b, Fetch)
    ensures Fifo(Next(b, Fetch))
  {
    if b.peek.None? {
      TryRecvKeepsFifo(b);
    }
  }

  lemma NextKeepsFifo(b: Block, e: Event)
    requires Invariant(b) && Enabled(b, e)
    ensures Fifo(Next(b, e))
  {
    if Calm(e) {
      CalmKeepsFifo(b, e);
    } else if e.Fetch? {
      FetchKeepsFifo(b);
    } else if e.HandleOk? {
      var m := b.phase.message;
      var finished := e.io.finished || m.Terminate? || m.StreamOutputDone?;
      HandledKeepsFifo(b, e.io.(finished := finished, callAgain := true));
    } else if e.HandleErr? {
      HandledKeepsFifo(b, b.io);
    } else if e.Wake? {
      WakeKeepsFifo(b);
    } else {
      SetupKeepsFifo(b, e);
    }
  }

  lemma NextKeepsFlow(b: Block, e: Event)
    requires Invariant(b) && Enabled(b, e)
    ensures var b' := Next(b, e); SetupFirst(b') && NoLostWakeUp(b') && FlagsFit(b')
  {
  }

  lemma NextKeepsFirstInitialize(b: Block, e: Event)
    requires SetupFirst(b) && FirstInitialize(b) && Enabled(b, e)
    ensures FirstInitialize(Next(b, e))
  {
    assert Next(b, e).ignored != b.ignored ==> Next(b, e).ignored[..|b.ignored|] == b.ignored;
  }

  /** The pending Terminate stays pending until the drain loop handles it. */
  lemma NextKeepsPending(b: Block, e: Event)
    requires Invariant(b) && Enabled(b, e) && b.deadline.Some?
    ensures var b' := Next(b, e); Over(b') || b'.io.finished || Pending(b')
  {
    if Early(b) {
      EarlyKeepsPending(b, e);
    } else if !Over(b) && !b.io.finished {
      assert b.queue != [] ==> b.queue == [b.queue[0]] + b.queue[1..];
    }
  }

  lemma EarlyKeepsPending(b: Block, e: Event)
    requires Early(b) && Enabled(b, e) && Behind(b.queue)
    ensures var b' := Next(b, e); Over(b') || Pending(b')
  {
    var i, j :| 0 <= i < j < |b.queue| && b.queue[i] == Initialize && b.queue[j] == Terminate;
    assert b.queue[1..][j - 1] == Terminate;
    if e.Skip? {
      assert b.queue[1..][i - 1] == Initialize;
    }
  }

  lemma NextKeepsInvariant(b: Block, e: Event)
    requires Invariant(b) && Enabled(b, e)
    ensures Invariant(Next(b, e))
  {
    NextKeepsFifo(b, e);
    NextKeepsFlow(b, e);
    NextKeepsFirstInitialize(b, e);
    if b.deadline.Some? {
      NextKeepsPending(b, e);
    }
  }

  /** In every run: messages are handled in the order they were sent, the block never parks on an unanswered message,
      and at most one call of work starts after a Terminate is sent. */
  lemma {:induction false} EveryRun(b: Block, actions: seq<Action>)
    requires Invariant(b) && IsRun(b, actions)
    ensures Invariant(Run(b, actions))
    decreases |actions|
  {
    if actions != [] {
      match actions[0] {
        case Arrive(m) => SendKeepsInvariant(b, m);
        case Own(e) => NextKeepsInvariant(b, e);
      }
      EveryRun(Act(b, actions[0]), actions[1..]);
    }
  }

  lemma FreshIsInvariant()
    ensures Invariant(FRESH)
  {
  }

  // ---- termination

  /** How many steps a block can still take once it is to stop. */
  function Rank(b: Block): nat {
    10 * |InHand(b) + b.queue|
    + match b.phase
      case Validating => 9
      case Setup => 8
      case Fetching => 4
      case Handling(_) => 0
      case Deciding => if b.io.finished then 3 else 8
      case Parked | Selecting => 7
      case Starting => 6
      case Working => 5
      case Notifying => 2
      case Deinit => 1
      case Done | Failed => 0
  }

  lemma StepsDown(b: Block, e: Event)
    requires Invariant(b) && Enabled(b, e) && b.deadline.Some?
    ensures Rank(Next(b, e)) < Rank(b)
  {
    RankFalls(b, e);
  }

  lemma RankFalls(b: Block, e: Event)
    requires Enabled(b, e) && b.deadline.Some? && Deadline(b) && (b.peek.Some? ==> b.phase.Fetching?)
    ensures Rank(Next(b, e)) < Rank(b)
  {
  }

  /** A block that is to stop is never stuck: unless it is over, it can take a step. */
  lemma NeverStuck(b: Block)
    requires Invariant(b) && b.deadline.Some? && !Over(b)
    ensures exists e :: Enabled(b, e)
  {
    var e := match b.phase
      case Validating => ValidateOk
      case Setup => if b.queue[0].Initialize? then InitOk else Skip
      case Fetching => Fetch
      case Handling(_) => HandleOk(b.io)
      case Deciding => Decide
      case Parked | Selecting => Wake
      case Starting => StartWork
      case Working => WorkOk(b.io)
      case Notifying => Notified
      case Deinit => DeinitOk;
    assert Enabled(b, e);
  }

  predicate OwnSteps(actions: seq<Action>) {
    forall k :: 0 <= k < |actions| ==> actions[k].Own?
  }

  /** After a Terminate behind the Initialize, with nothing more arriving, the block is over within Rank(b) steps. */
  lemma {:induction false} TerminateStopsTheBlock(b: Block, actions: seq<Action>)
    requires Invariant(b) && b.deadline.Some? && IsRun(b, actions) && OwnSteps(actions)
    ensures |actions| <= Rank(b)
    ensures !Over(Run(b, actions)) ==> exists e :: Enabled(Run(b, actions), e)
    decreases |actions|
  {
    if actions == [] {
      if !Over(b) {
        NeverStuck(b);
      }
    } else {
      NextKeepsInvariant(b, actions[0].event);
      StepsDown(b, actions[0].event);
      TerminateStopsTheBlock(Next(b, actions[0].event), actions[1..]);
    }
  }

  // ---- the headline properties of a run from the start

  /** What the drain loop has handled is what was sent after the setup, in order, without gaps. */
  lemma HandledInOrder(actions: seq<Action>)
    requires IsRun(FRESH, actions)
    ensures var b := Run(FRESH, actions); b.ignored + b.handled <= b.sent
  {
    EveryRun(FRESH, actions);
  }

  lemma {:induction false} DeadlineStays(b: Block, actions: seq<Action>)
    requires b.deadline.Some? && IsRun(b, actions)
    ensures Run(b, actions).deadline == b.deadline
    decreases |actions|
  {
    if actions != [] {
      DeadlineStays(Act(b, actions[0]), actions[1..]);
    }
  }

  /** In every run from b, work is called at most `more` times more. */
  ghost predicate WorksAtMost(b: Block, more: nat) {
    forall actions :: IsRun(b, actions) ==> Run(b, actions).works <= b.works + more
  }

  /** A Terminate sent to a block that is not over bounds its work exactly if the block was sent its Initialize before:
      then at most one more call starts, otherwise the Terminate is dropped and there is no bound. */
  lemma TerminateBoundsWorkIff(b: Block, more: nat)
    requires Invariant(b) && !Over(b) && more > 0
    ensures WorksAtMost(Send(b, Terminate), more) <==> Initialize in b.sent
  {
    if Initialize in b.sent {
      forall actions | IsRun(Send(b, Terminate), actions)
        ensures Run(Send(b, Terminate), actions).works <= b.works + more
      {
        AtMostOneMoreWork(b, actions);
      }
    } else {
      var actions := EarlyTerminateIsDropped(b, b.works + more + 1);
      assert !(Run(Send(b, Terminate), actions).works <= b.works + more);
    }
  }

  /** However a run goes on after a Terminate is sent to a block that was sent its Initialize, `work` is called at most
      once more. */
  lemma AtMostOneMoreWork(b: Block, actions: seq<Action>)
    requires Invariant(b) && Initialize in b.sent && IsRun(Send(b, Terminate), actions)
    ensures Run(Send(b, Terminate), actions).works <= b.works + 1
  {
    SendKeepsInvariant(b, Terminate);
    EveryRun(Send(b, Terminate), actions);
    DeadlineStays(Send(b, Terminate), actions);
  }

  /** A Terminate that comes before the Initialize is dropped, whatever else was sent: the block can still call work any
      number of times. */
  lemma EarlyTerminateIsDropped(b: Block, n: nat) returns (actions: seq<Action>)
    requires Invariant(b) && !Over(b) && Initialize !in b.sent
    ensures IsRun(Send(b, Terminate), actions)
    ensures var b' := Run(Send(b, Terminate), actions); b'.works == n && !b'.io.finished
  {
    var b1 := Send(b, Terminate);
    SendKeepsInvariant(b, Terminate);
    assert Initialize !in b1.sent && Early(b1);
    if b1.phase.Validating? {
      NextKeepsInvariant(b1, ValidateOk);
      actions := SetupTakesTheRest(Next(b1, ValidateOk), n);
      Prepend(b1, Own(ValidateOk), actions);
      actions := [Own(ValidateOk)] + actions;
    } else {
      actions := SetupTakesTheRest(b1, n);
    }
  }

  /** Setup skips what is in the inbox; the Initialize that comes then starts a block that nothing has told to stop. */
  lemma {:induction false} SetupTakesTheRest(b: Block, n: nat) returns (actions: seq<Action>)
    requires Invariant(b) && b.phase == Setup && Initialize !in b.sent
    ensures IsRun(b, actions) && Run(b, actions).works == n && !Run(b, actions).io.finished
    decreases |b.queue|
  {
    if b.queue != [] {
      assert b.queue[0] in b.sent;
      NextKeepsInvariant(b, Skip);
      actions := SetupTakesTheRest(Next(b, Skip), n);
      Prepend(b, Own(Skip), actions);
      actions := [Own(Skip)] + actions;
    } else {
      var b1 := Send(b, Initialize);
      var b2 := Next(b1, InitOk);
      var last;
      actions, last := WorkTimes(b2, n);
      Prepend(b1, Own(InitOk), actions);
      Prepend(b, Arrive(Initialize), [Own(InitOk)] + actions);
      actions := [Arrive(Initialize)] + ([Own(InitOk)] + actions);
    }
  }

  /** A block that is to finish starts no work call, however the run goes on. */
  lemma {:induction false} FinishedStartsNoWork(b: Block, actions: seq<Action>)
    requires Invariant(b) && b.io.finished && IsRun(b, actions)
    ensures Run(b, actions).works == b.works && Run(b, actions).io.finished
    decreases |actions|
  {
    if actions != [] {
      match actions[0] {
        case Arrive(m) => SendKeepsInvariant(b, m);
        case Own(e) =>
          NextKeepsInvariant(b, e);
          StaysFinished(b, e);
      }
      FinishedStartsNoWork(Act(b, actions[0]), actions[1..]);
    }
  }

  lemma StaysFinished(b: Block, e: Event)
    requires FlagsFit(b) && b.io.finished && Enabled(b, e)
    ensures Next(b, e).works == b.works && Next(b, e).io.finished
  {
  }

  /** So does one that has handled the end of an output, or Terminate. */
  lemma OutputDoneStopsWork(b: Block, io: WorkIo, actions: seq<Action>)
    requires Invariant(b) && b.phase.Handling? && (b.phase.message.StreamOutputDone? || b.phase.message.Terminate?)
    requires Enabled(b, HandleOk(io)) && IsRun(Next(b, HandleOk(io)), actions)
    ensures Run(Next(b, HandleOk(io)), actions).works == b.works
  {
    NextKeepsInvariant(b, HandleOk(io));
    FinishedStartsNoWork(Next(b, HandleOk(io)), actions);
  }

  /** While messages keep coming the drain loop goes on, for any number of steps, and `finished` is not looked at: that
      nothing more arrives is needed in TerminateStopsTheBlock. */
  lemma {:induction false} BusyInboxIsNotStopped(b: Block, n: nat) returns (actions: seq<Action>)
    requires b.phase.Handling?
    ensures IsRun(b, actions) && Run(b, actions).phase.Handling? && |Run(b, actions).handled| == |b.handled| + n
    decreases n
  {
    actions := [];
    if n > 0 {
      var b1 := Send(b, Notify);
      var b2 := Next(b1, HandleOk(b1.io));
      actions := BusyInboxIsNotStopped(b2, n - 1);
      Prepend(b1, Own(HandleOk(b1.io)), actions);
      Prepend(b, Arrive(Notify), [Own(HandleOk(b1.io))] + actions);
      actions := [Arrive(Notify)] + ([Own(HandleOk(b1.io))] + actions);
    }
  }

  lemma Prepend(b: Block, a: Action, actions: seq<Action>)
    requires Allowed(b, a) && IsRun(Act(b, a), actions)
    ensures IsRun(b, [a] + actions) && Run(b, [a] + actions) == Run(Act(b, a), actions)
  {
    assert ([a] + actions)[1..] == actions;
  }

  /** Woken by Notify messages, a block calls work as often as one likes. */
  lemma {:induction false} WorkTimes(b: Block, n: nat) returns (actions: seq<Action>, b': Block)
    requires b.phase == Fetching && b.queue == [] && b.peek == None && !b.io.finished
    ensures IsRun(b, actions) && b' == Run(b, actions)
    ensures b'.works == b.works + n && !b'.io.finished && b.sent <= b'.sent
    decreases n
  {
    if n == 0 {
      return [], b;
    }
    var c1 := Send(b, Notify);
    var c2 := Next(c1, Fetch);
    var c3 := Next(c2, HandleOk(c2.io));
    var c4 := Next(c3, Decide);
    var c5 := Next(c4, StartWork);
    var c6 := Next(c5, WorkOk(c5.io));
    actions, b' := WorkTimes(c6, n - 1);
    Prepend(c5, Own(WorkOk(c5.io)), actions);
    actions := [Own(WorkOk(c5.io))] + actions;
    Prepend(c4, Own(StartWork), actions);
    actions := [Own(StartWork)] + actions;
    Prepend(c3, Own(Decide), actions);
    actions := [Own(Decide)] + actions;
    Prepend(c2, Own(HandleOk(c2.io)), actions);
    actions := [Own(HandleOk(c2.io))] + actions;
    Prepend(c1, Own(Fetch), actions);
    actions := [Own(Fetch)] + actions;
    Prepend(b, Arrive(Notify), actions);
    actions := [Arrive(Notify)] + actions;
  }
}
