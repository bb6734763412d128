/** The end of a flowgraph: after a broadcast Terminate its executions are finite, and `run_flowgraph` returns unless
    it waits for the reply of a block that is over. */
module Shutdown {
  import opened Wrappers
  import B = BlockLoop
  import C = Coordinator
  import opened Runtime

  // ---- how long it can take

  function Total(blocks: seq<B.Block>): nat {
    if blocks == [] then 0 else Total(blocks[..|blocks| - 1]) + B.Rank(blocks[|blocks| - 1])
  }

  lemma {:induction false} TotalUpdate(blocks: seq<B.Block>, i: nat, b: B.Block)
    requires i < |blocks|
    ensures Total(blocks[i := b]) + B.Rank(blocks[i]) == Total(blocks) + B.Rank(b)
  {
    var last := |blocks| - 1;
    if i == last {
      assert blocks[i := b][..last] == blocks[..last];
    } else {
      assert blocks[i := b][..last] == blocks[..last][i := b];
      TotalUpdate(blocks[..last], i, b);
    }
  }

  lemma SendRank(b: B.Block, m: B.Message)
    ensures B.Rank(B.Send(b, m)) == B.Rank(b) + 10
  {
  }

  lemma {:induction false} DeliverTotal(blocks: seq<B.Block>, posts: seq<Post>)
    ensures Total(Deliver(blocks, posts)) <= Total(blocks) + 10 * |posts|
  {
    if posts == [] {
      assert Deliver(blocks, posts) == blocks;
    } else {
      var p := posts[|posts| - 1];
      var d := Deliver(blocks, posts[..|posts| - 1]);
      DeliverTotal(blocks, posts[..|posts| - 1]);
      if p.to < |blocks| {
        assert Deliver(blocks, posts) == d[p.to := B.Send(d[p.to], p.message)];
        TotalUpdate(d, p.to, B.Send(d[p.to], p.message));
        SendRank(d[p.to], p.message);
      } else {
        assert Deliver(blocks, posts) == d;
      }
    }
  }

  /** What a message in the channel can still bring about: itself, a message to a block, the await of its reply. */
  function Cost(r: C.Report, n: nat): nat {
    match r
    case BlockCall(_, _, _) => 31
    case BlockCallback(_, _, _) => 32
    case BlockDescription(_) => 32
    case FlowgraphDescription => 1 + 31 * n
    case _ => 1
  }

  function Costs(q: seq<C.Report>, n: nat): nat {
    if q == [] then 0 else Costs(q[..|q| - 1], n) + Cost(q[|q| - 1], n)
  }

  lemma CostsSnoc(q: seq<C.Report>, m: C.Report, n: nat)
    ensures Costs(q + [m], n) == Costs(q, n) + Cost(m, n)
  {
    assert (q + [m])[..|q|] == q;
  }

  lemma {:induction false} CostsUncons(q: seq<C.Report>, n: nat)
    requires q != []
    ensures Costs(q, n) == Costs(q[1..], n) + Cost(q[0], n)
  {
    if |q| > 1 {
      CostsUncons(q[..|q| - 1], n);
      assert q[1..][..|q| - 2] == q[..|q| - 1][1..];
    }
  }

  /** Replies awaited, and blocks still to be asked. */
  function Awaited(asked: seq<nat>): nat {
    if asked == [] then 0 else 31 * |asked| - 30
  }

  /** Steps the coordinator can still take, or give rise to. */
  function Load(s: C.Net): nat {
    Costs(s.channel, |s.blocks|) + C.Errors(s.channel) + Awaited(s.asked) + if s.phase.Returned? then 0 else 1
  }

  function Measure(f: Flow): nat {
    3 * Total(f.blocks) + Load(f.net)
  }

  /** What a move adds from outside or by posting. */
  function Added(m: Move, n: nat): nat {
    match m
    case InitPost(_, _) => 31
    case KernelPost(_, _) => 31
    case Outside(r) => 1 + Cost(r, n)
    case _ => 0
  }

  function AllAdded(moves: seq<Move>, n: nat): nat {
    if moves == [] then 0 else Added(moves[0], n) + AllAdded(moves[1..], n)
  }

  lemma ReportLoads(s: C.Net, report: Option<C.Step>)
    requires report.Some? ==> C.Enabled(s, report.value)
    requires report.Some? ==> report.value.ReportReady? || report.value.ReportFailure? || report.value.ReportEnd?
    ensures Load(Heard(s, report)) <= Load(s) + 2
  {
    if report.Some? {
      var t := Heard(s, report);
      C.Snoc(s.channel, t.channel[|t.channel| - 1]);
      CostsSnoc(s.channel, t.channel[|t.channel| - 1], |s.blocks|);
    }
  }

  lemma StepCosts(f: Flow, m: Move)
    requires Sound(f) && f.net.terminated && CanMove(f, m) && m.Step?
    ensures Measure(Moved(f, m)) < Measure(f)
  {
    var b := f.blocks[m.block];
    assert BlockFits(f.net, b, m.block);
    B.StepsDown(b, m.event);
    TotalUpdate(f.blocks, m.block, B.Next(b, m.event));
    ReportLoads(f.net, ReportOf(m.block, m.event));
  }

  lemma OutsideCosts(f: Flow, r: C.Report)
    requires C.FromOutside(r) && |f.net.blocks| == |f.blocks|
    ensures Measure(Moved(f, Outside(r))) < Measure(f) + Added(Outside(r), |f.blocks|)
  {
    C.Snoc(f.net.channel, r);
    CostsSnoc(f.net.channel, r, |f.blocks|);
  }

  /** The message taken pays for what it brings about. */
  lemma TakeCosts(s: C.Net, m: C.Report, rest: seq<C.Report>)
    requires s.phase.Running? && s.telling == 0 && s.asked == [] && s.active != 0 && s.channel == [m] + rest
    requires s.terminated
    ensures Load(C.Coordinated(s)) + 30 * |Orders(s)| < Load(s)
  {
    C.Uncons(s.channel);
    CostsUncons(s.channel, |s.blocks|);
    C.Snoc(rest, C.Terminate);
    CostsSnoc(rest, C.Terminate, |s.blocks|);
  }

  lemma CoordinateCosts(f: Flow)
    requires Sound(f) && f.net.terminated && CanMove(f, Coordinate)
    ensures Measure(Moved(f, Coordinate)) < Measure(f)
  {
    if f.net.active != 0 {
      assert f.net.channel == [f.net.channel[0]] + f.net.channel[1..];
      TakeCosts(f.net, f.net.channel[0], f.net.channel[1..]);
    } else {
      ReturnCosts(f.net);
    }
    DeliverTotal(f.blocks, Orders(f.net));
  }

  lemma ReturnCosts(s: C.Net)
    requires s.phase.Running? && s.telling == 0 && s.asked == [] && s.active == 0
    ensures Load(C.Coordinated(s)) + 30 * |Orders(s)| < Load(s)
  {
  }

  lemma ReplyCosts(f: Flow)
    requires CanMove(f, Reply)
    ensures Measure(Moved(f, Reply)) < Measure(f)
  {
    DeliverTotal(f.blocks, Further(f.net));
  }

  lemma MoveCosts(f: Flow, m: Move)
    requires Sound(f) && f.net.terminated && CanMove(f, m)
    ensures Moved(f, m).net.terminated && Measure(Moved(f, m)) < Measure(f) + Added(m, |f.blocks|)
  {
    TerminatedStays(f, m);
    match m
    case Step(_, _) => StepCosts(f, m);
    case InitPost(_, p) => DeliverTotal(f.blocks, [p]);
    case KernelPost(_, p) => DeliverTotal(f.blocks, [p]);
    case Outside(r) => OutsideCosts(f, r);
    case Coordinate => CoordinateCosts(f);
    case Reply => ReplyCosts(f);
  }

  lemma TerminatedStays(f: Flow, m: Move)
    requires Sound(f) && f.net.terminated && CanMove(f, m)
    ensures Moved(f, m).net.terminated
  {
    match m
    case Step(b, e) => ReportTellsNobody(f.net, ReportOf(b, e));
    case Coordinate => NobodyLeftToTell(f.net);
    case _ =>
  }

  lemma NobodyLeftToTell(s: C.Net)
    requires C.Invariant(s) && s.terminated && C.CanCoordinate(s)
    ensures C.Coordinated(s).terminated
  {
    CoordinatedBlocks(s);
  }

  /** After the broadcast, an execution is no longer than the measure and what is added on the way. */
  lemma {:induction false} TerminatedIsBounded(f: Flow, moves: seq<Move>)
    requires Sound(f) && f.net.terminated && IsExecution(f, moves)
    ensures |moves| <= Measure(f) + AllAdded(moves, |f.blocks|)
    decreases |moves|
  {
    if moves != [] {
      MoveKeepsSound(f, moves[0]);
      MoveCosts(f, moves[0]);
      TerminatedIsBounded(Moved(f, moves[0]), moves[1..]);
    }
  }

  /** The coordinator waits for a reply of a block that is over. */
  predicate Hung(f: Flow) {
    f.net.asked != [] && f.net.asked[0] < |f.blocks| && B.Over(f.blocks[f.net.asked[0]]) && !Answered(f)
  }

  /** The request then lies in the inbox, where nobody takes it, and `run_flowgraph` has not returned. */
  lemma HungMeansQueued(f: Flow)
    requires Sound(f) && Hung(f)
    ensures f.net.phase.Running?
    ensures var b := f.blocks[f.net.asked[0]];
            f.mark < |b.sent| && IsRequest(b.sent[f.mark])
            && b.sent[f.mark] in b.queue
  {
    var i := f.net.asked[0];
    assert BlockFits(f.net, f.blocks[i], i);
    RequestIsNotDropped(f.blocks[i], f.mark);
    assert B.InHand(f.blocks[i]) == [];
  }

  lemma MoveKeepsHung(f: Flow, m: Move)
    requires Sound(f) && Hung(f) && CanMove(f, m)
    ensures Hung(Moved(f, m))
  {
    match m
    case Step(_, _) => StepKeepsHung(f, m);
    case InitPost(_, p) => PostKeepsHung(f, p);
    case KernelPost(_, p) => PostKeepsHung(f, p);
    case _ =>
  }

  lemma PostKeepsHung(f: Flow, p: Post)
    requires Hung(f)
    ensures Hung(Flow(f.net, Deliver(f.blocks, [p]), f.mark))
  {
    ReceiveStays(f.blocks[f.net.asked[0]], f.net.asked[0], [p]);
  }

  lemma StepKeepsHung(f: Flow, m: Move)
    requires Hung(f) && CanMove(f, m) && m.Step?
    ensures Hung(Moved(f, m))
  {
    var i := f.net.asked[0];
    NoStepWhenOver(f.blocks[i]);
    StepAsksNothing(f.net, ReportOf(m.block, m.event));
  }

  lemma NoStepWhenOver(b: B.Block)
    requires B.Over(b)
    ensures forall e :: !B.Enabled(b, e)
  {
  }

  lemma {:induction false} ReceiveStays(b: B.Block, i: nat, posts: seq<Post>)
    ensures var c := Receive(b, i, posts); c.phase == b.phase && c.ignored == b.ignored && c.handled == b.handled
  {
    if posts != [] {
      ReceiveStays(b, i, posts[..|posts| - 1]);
    }
  }

  /** And it never will: no move helps. */
  lemma {:induction false} HungNeverReturns(f: Flow, moves: seq<Move>)
    requires Sound(f) && Hung(f) && IsExecution(f, moves)
    ensures Hung(Execute(f, moves)) && !Execute(f, moves).net.phase.Returned?
    decreases |moves|
  {
    if moves == [] {
      HungMeansQueued(f);
    } else {
      MoveKeepsSound(f, moves[0]);
      MoveKeepsHung(f, moves[0]);
      HungNeverReturns(Moved(f, moves[0]), moves[1..]);
    }
  }

  /** A request for a reply that the coordinator takes when the block it is for is over hangs the flowgraph. */
  lemma AskingAfterTheEndHangs(f: Flow)
    requires Sound(f) && CanMove(f, Coordinate) && f.net.phase.Running? && f.net.telling == 0 && f.net.active != 0
    requires var asks := C.Asks(f.net.channel[0], |f.blocks|); asks != [] && B.Over(f.blocks[asks[0]])
    ensures Hung(Moved(f, Coordinate))
  {
    CoordinatedBlocks(f.net);
    var i := C.Asks(f.net.channel[0], |f.blocks|)[0];
    var b := f.blocks[i];
    assert BlockFits(f.net, b, i);
    ReceiveStays(b, i, Orders(f.net));
    assert |b.sent| == |b.ignored| + |b.handled| + |B.InHand(b)| + |b.queue|;
    assert C.Coordinated(f.net).asked == C.Asks(f.net.channel[0], |f.blocks|);
  }

  /** Neither a block nor the coordinator has a step, and no reply is there. */
  ghost predicate Stuck(f: Flow) {
    && !C.CanCoordinate(f.net) && !Answered(f)
    && forall i, e :: 0 <= i < |f.blocks| ==> !B.Enabled(f.blocks[i], e)
  }

  lemma StuckWhen(f: Flow)
    requires Sound(f) && f.net.terminated && Stuck(f)
    ensures f.net.phase.Returned? <==> !Hung(f)
    ensures f.net.phase.Returned? ==>
              (f.net.phase.ok <==> forall i :: 0 <= i < |f.blocks| ==> f.blocks[i].phase.Done?)
  {
    forall i | 0 <= i < |f.blocks| ensures B.Over(f.blocks[i]) && f.net.blocks[i].Over? {
      assert BlockFits(f.net, f.blocks[i], i);
      if !B.Over(f.blocks[i]) {
        B.NeverStuck(f.blocks[i]);
      }
    }
    if f.net.phase.Running? {
      C.MainLoopWaitsForReplies(f.net);
    } else {
      C.ReturnedFits(f.net);
    }
    forall i | 0 <= i < |f.blocks| ensures f.blocks[i].phase.Done? <==> f.net.blocks[i] == C.Over(true) {
      assert BlockFits(f.net, f.blocks[i], i);
    }
  }

  lemma {:induction false} StaysTerminated(f: Flow, moves: seq<Move>)
    requires Sound(f) && f.net.terminated && IsExecution(f, moves)
    ensures Execute(f, moves).net.terminated
    decreases |moves|
  {
    if moves != [] {
      TerminatedStays(f, moves[0]);
      MoveKeepsSound(f, moves[0]);
      StaysTerminated(Moved(f, moves[0]), moves[1..]);
    }
  }

  /** A flowgraph that has broadcast Terminate comes to an end if finitely many messages are added: its executions are
      bounded, and where one cannot go on, `run_flowgraph` has returned if and only if it does not wait for the reply
      of a block that is over. The result is Ok exactly if every block is done. */
  lemma TerminatedFlowgraphReturnsIff(n: nat, before: seq<Move>, after: seq<Move>)
    requires IsExecution(Begin(n), before) && Execute(Begin(n), before).net.terminated
    requires IsExecution(Execute(Begin(n), before), after)
    ensures |after| <= Measure(Execute(Begin(n), before)) + AllAdded(after, |Execute(Begin(n), before).blocks|)
    ensures var f := Execute(Execute(Begin(n), before), after);
            Stuck(f) ==>
              && (f.net.phase.Returned? <==> !Hung(f))
              && (f.net.phase.Returned? ==>
                    (f.net.phase.ok <==> forall i :: 0 <= i < |f.blocks| ==> f.blocks[i].phase.Done?))
  {
    var f := Execute(Begin(n), before);
    StartOk(n);
    EveryExecution(Begin(n), before);
    TerminatedIsBounded(f, after);
    EveryExecution(f, after);
    StaysTerminated(f, after);
    if Stuck(Execute(f, after)) {
      StuckWhen(Execute(f, after));
    }
  }

  /** The hang is reached from the start: the block ends after Terminate, with its description asked for behind it. */
  lemma DescriptionBehindTheEnd(n: nat) returns (moves: seq<Move>)
    requires n == 1
    ensures IsExecution(Begin(n), moves) && AllSilent(moves)
    ensures Execute(Begin(n), moves).net.terminated && Hung(Execute(Begin(n), moves))
  {
    StartOk(n);
    moves := Start(Begin(n));
  }

  lemma Start(f0: Flow) returns (moves: seq<Move>)
    requires Sound(f0) && |f0.blocks| == 1 && |f0.net.blocks| == 1 && f0.net.blocks[0].Fresh? && f0.blocks[0] == B.FRESH
    requires f0.net.phase == C.Sending && f0.net.inits == 0 && f0.net.active == 0 && f0.net.notifies == 0
    requires f0.net.channel == [] && f0.net.queue == [] && f0.net.asked == [] && f0.net.telling == 0
             && !f0.net.terminated && !f0.net.blockError
    ensures IsExecution(f0, moves) && AllSilent(moves) && Execute(f0, moves).net.terminated && Hung(Execute(f0, moves))
  {
    var f1 := CoordinateOne(f0);
    moves := SetUp(f1);
    moves := PrependSilent(f0, Coordinate, moves);
  }

  /** The block has its Initialize. */
  lemma SetUp(f0: Flow) returns (moves: seq<Move>)
    requires Sound(f0) && |f0.blocks| == 1 && |f0.net.blocks| == 1 && f0.net.blocks[0].Fresh?
    requires f0.net.phase == C.Sending && f0.net.inits == 1 && f0.net.active == 1 && f0.net.notifies == 0
    requires f0.net.channel == [] && f0.net.queue == [] && f0.net.asked == [] && f0.net.telling == 0
             && !f0.net.terminated && !f0.net.blockError
    requires var b := f0.blocks[0]; b.phase.Validating? && b.peek.None? && b.queue == [B.Initialize] && !b.io.finished
    ensures IsExecution(f0, moves) && AllSilent(moves) && Execute(f0, moves).net.terminated && Hung(Execute(f0, moves))
  {
    var f1 := StepOne(f0, B.ValidateOk);
    var f2 := StepOne(f1, B.InitOk);
    moves := Release(f2);
    moves := PrependSilent(f1, Step(0, B.InitOk), moves);
    moves := PrependSilent(f0, Step(0, B.ValidateOk), moves);
  }

  /** The block is initialized; the init loop ends. */
  lemma Release(f0: Flow) returns (moves: seq<Move>)
    requires Sound(f0) && |f0.blocks| == 1 && |f0.net.blocks| == 1
    requires f0.net.phase == C.Sending && f0.net.inits == 1 && f0.net.active == 1 && f0.net.notifies == 0
    requires f0.net.channel == [C.Initialized] && f0.net.queue == [] && f0.net.asked == [] && f0.net.telling == 0
    requires !f0.net.terminated && !f0.net.blockError && f0.net.blocks[0].Ready?
    requires var b := f0.blocks[0]; b.phase.Fetching? && b.peek.None? && b.queue == [] && !b.io.finished
    ensures IsExecution(f0, moves) && AllSilent(moves) && Execute(f0, moves).net.terminated && Hung(Execute(f0, moves))
  {
    var f1 := CoordinateOne(f0);
    var f2 := CoordinateOne(f1);
    var f3 := CoordinateOne(f2);
    moves := Notify(f3);
    moves := PrependSilent(f2, Coordinate, moves);
    moves := PrependSilent(f1, Coordinate, moves);
    moves := PrependSilent(f0, Coordinate, moves);
  }

  /** The coordinator comes to its main loop. */
  lemma Notify(f0: Flow) returns (moves: seq<Move>)
    requires Sound(f0) && |f0.blocks| == 1 && |f0.net.blocks| == 1
    requires f0.net.phase == C.Releasing && f0.net.active == 1 && f0.net.notifies == 0
    requires f0.net.channel == [] && f0.net.queue == [] && f0.net.asked == [] && f0.net.telling == 0
    requires !f0.net.terminated && !f0.net.blockError && f0.net.blocks[0].Ready?
    requires var b := f0.blocks[0]; b.phase.Fetching? && b.peek.None? && b.queue == [] && !b.io.finished
    ensures IsExecution(f0, moves) && AllSilent(moves) && Execute(f0, moves).net.terminated && Hung(Execute(f0, moves))
  {
    var f1 := CoordinateOne(f0);
    var f2 := CoordinateOne(f1);
    var f3 := CoordinateOne(f2);
    moves := Ask(f3);
    moves := PrependSilent(f2, Coordinate, moves);
    moves := PrependSilent(f1, Coordinate, moves);
    moves := PrependSilent(f0, Coordinate, moves);
  }

  /** Somebody asks for termination, and somebody for the block's description. */
  lemma Ask(f0: Flow) returns (moves: seq<Move>)
    requires Sound(f0) && |f0.blocks| == 1 && f0.net.blocks == [C.Ready]
    requires f0.net.phase == C.Running && f0.net.active == 1 && f0.net.channel == [] && f0.net.asked == []
             && f0.net.telling == 0
    requires !f0.net.terminated
    requires var b := f0.blocks[0]; b.phase.Fetching? && b.peek.None? && b.queue == [B.Notify] && !b.io.finished
    ensures IsExecution(f0, moves) && AllSilent(moves) && Execute(f0, moves).net.terminated && Hung(Execute(f0, moves))
  {
    var t, d := Outside(C.Terminate), Outside(C.BlockDescription(0));
    var f1 := OutsideOne(f0, C.Terminate);
    var f2 := OutsideOne(f1, C.BlockDescription(0));
    var f3 := CoordinateOne(f2);
    assert Orders(f3.net) == [Post(0, B.Terminate)];
    var f4 := CoordinateOne(f3);
    moves := End(f4);
    moves := PrependSilent(f3, Coordinate, moves);
    moves := PrependSilent(f2, Coordinate, moves);
    moves := PrependSilent(f1, d, moves);
    moves := PrependSilent(f0, t, moves);
  }

  /** The block handles Terminate. */
  lemma End(f0: Flow) returns (moves: seq<Move>)
    requires Sound(f0) && |f0.blocks| == 1 && f0.net.blocks == [C.Ready] && f0.net.terminated
    requires f0.net.phase == C.Running && f0.net.active == 1 && f0.net.channel == [C.BlockDescription(0)]
             && f0.net.asked == [] && f0.net.telling == 0
    requires var b := f0.blocks[0];
             b.phase.Fetching? && b.peek.None? && b.queue == [B.Notify, B.Terminate] && !b.io.finished
    ensures IsExecution(f0, moves) && AllSilent(moves) && Execute(f0, moves).net.terminated && Hung(Execute(f0, moves))
  {
    var f1 := StepOne(f0, B.Fetch);
    var notify, terminate := B.HandleOk(f1.blocks[0].io), B.HandleOk(f1.blocks[0].io.(callAgain := true));
    var f2 := StepOne(f1, notify);
    var f3 := StepOne(f2, terminate);
    moves := ShutDown(f3);
    moves := PrependSilent(f2, Step(0, terminate), moves);
    moves := PrependSilent(f1, Step(0, notify), moves);
    moves := PrependSilent(f0, Step(0, B.Fetch), moves);
  }

  /** The block ends, and the coordinator comes to the request. */
  lemma ShutDown(f0: Flow) returns (moves: seq<Move>)
    requires Sound(f0) && |f0.blocks| == 1 && f0.net.blocks == [C.Ready] && f0.net.terminated
    requires f0.net.phase == C.Running && f0.net.active == 1 && f0.net.channel == [C.BlockDescription(0)]
             && f0.net.asked == [] && f0.net.telling == 0
    requires f0.blocks[0].phase.Deciding? && f0.blocks[0].io.finished
    ensures IsExecution(f0, moves) && AllSilent(moves) && Execute(f0, moves).net.terminated && Hung(Execute(f0, moves))
  {
    var f1 := StepOne(f0, B.Decide);
    var f2 := StepOne(f1, B.Notified);
    var f3 := StepOne(f2, B.DeinitOk);
    AskingAfterTheEndHangs(f3);
    TerminatedStays(f3, Coordinate);
    moves := PrependSilent(f3, Coordinate, []);
    moves := PrependSilent(f2, Step(0, B.DeinitOk), moves);
    moves := PrependSilent(f1, Step(0, B.Notified), moves);
    moves := PrependSilent(f0, Step(0, B.Decide), moves);
  }

  lemma PrependSilent(f: Flow, m: Move, rest: seq<Move>) returns (moves: seq<Move>)
    requires CanMove(f, m) && Silent(m) && IsExecution(Moved(f, m), rest) && AllSilent(rest)
    ensures IsExecution(f, moves) && AllSilent(moves) && Execute(f, moves) == Execute(Moved(f, m), rest)
  {
    moves := [m] + rest;
    assert moves[1..] == rest;
  }

  /** A flowgraph of one block: a step of it, and one of the coordinator. */
  lemma StepOne(f: Flow, e: B.Event) returns (g: Flow)
    requires Sound(f) && |f.blocks| == 1 && B.Enabled(f.blocks[0], e)
    ensures CanMove(f, Step(0, e)) && g == Moved(f, Step(0, e)) && Sound(g)
    ensures g == Flow(Heard(f.net, ReportOf(0, e)), [B.Next(f.blocks[0], e)], f.mark)
  {
    ReportFits(f.net, f.blocks[0], 0, e);
    MoveKeepsSound(f, Step(0, e));
    g := Moved(f, Step(0, e));
  }

  lemma OutsideOne(f: Flow, r: C.Report) returns (g: Flow)
    requires Sound(f) && C.FromOutside(r)
    ensures CanMove(f, Outside(r)) && g == Moved(f, Outside(r)) && Sound(g)
    ensures g == Flow(f.net.(channel := f.net.channel + [r]), f.blocks, f.mark)
  {
    MoveKeepsSound(f, Outside(r));
    g := Moved(f, Outside(r));
  }

  lemma CoordinateOne(f: Flow) returns (g: Flow)
    requires Sound(f) && |f.blocks| == 1 && C.CanCoordinate(f.net)
    requires |Orders(f.net)| <= 1 && forall k :: 0 <= k < |Orders(f.net)| ==> Orders(f.net)[k].to == 0
    ensures g == Moved(f, Coordinate) && Sound(g) && g.net == C.Coordinated(f.net)
    ensures g.blocks == [if Orders(f.net) == [] then f.blocks[0] else B.Send(f.blocks[0], Orders(f.net)[0].message)]
  {
    MoveKeepsSound(f, Coordinate);
    g := Moved(f, Coordinate);
    if Orders(f.net) != [] {
      ReceiveOne(f.blocks[0], 0, Orders(f.net)[0]);
      assert Orders(f.net) == [Orders(f.net)[0]];
    }
  }

  // ---- callers that await no replies

  /** Nothing in the channel makes the coordinator wait for a reply. */
  predicate NoAsks(s: C.Net) {
    s.asked == [] && AskFree(s.channel, |s.blocks|) && AskFree(s.queue, |s.blocks|)
  }

  predicate AskFree(q: seq<C.Report>, n: nat) {
    forall k :: 0 <= k < |q| ==> C.Asks(q[k], n) == []
  }

  lemma AskFreeSnoc(q: seq<C.Report>, r: C.Report, n: nat)
    requires AskFree(q, n) && C.Asks(r, n) == []
    ensures AskFree(q + [r], n)
  {
  }

  lemma AskFreeRest(q: seq<C.Report>, n: nat)
    requires AskFree(q, n) && q != []
    ensures AskFree(q[1..], n) && C.Asks(q[0], n) == []
  {
  }

  /** Nobody asks for a reply on the way. */
  predicate CallsOnly(moves: seq<Move>, n: nat) {
    forall k :: 0 <= k < |moves| && moves[k].Outside? ==> C.Asks(moves[k].report, n) == []
  }

  lemma MoveKeepsNoAsks(f: Flow, m: Move)
    requires Linked(f) && NoAsks(f.net) && CanMove(f, m)
    requires m.Outside? ==> C.Asks(m.report, |f.blocks|) == []
    ensures NoAsks(Moved(f, m).net)
  {
    match m
    case Step(b, e) =>
      if ReportOf(b, e).Some? {
        ReportKeepsNoAsks(f.net, ReportOf(b, e).value);
      }
    case Outside(r) => AskFreeSnoc(f.net.channel, r, |f.blocks|);
    case Coordinate => CoordinateKeepsNoAsks(f.net);
    case _ =>
  }

  lemma ReportKeepsNoAsks(s: C.Net, step: C.Step)
    requires NoAsks(s) && C.Enabled(s, step) && (step.ReportReady? || step.ReportFailure? || step.ReportEnd?)
    ensures NoAsks(C.Next(s, step))
  {
    var t := C.Next(s, step);
    AskFreeSnoc(s.channel, t.channel[|t.channel| - 1], |s.blocks|);
  }

  lemma CoordinateKeepsNoAsks(s: C.Net)
    requires NoAsks(s) && C.CanCoordinate(s)
    ensures NoAsks(C.Coordinated(s))
  {
    var n := |s.blocks|;
    if (s.phase.Awaiting? && s.i != 0) || (s.phase.Running? && s.telling == 0 && s.active != 0) {
      AskFreeRest(s.channel, n);
      AskFreeSnoc(s.queue, s.channel[0], n);
      AskFreeSnoc(s.channel[1..], C.Terminate, n);
    } else if s.phase.Requeuing? && s.queue != [] {
      AskFreeRest(s.queue, n);
      AskFreeSnoc(s.channel, s.queue[0], n);
    } else if s.phase.Requeuing? {
      AskFreeSnoc(s.channel, C.Terminate, n);
    }
  }

  lemma {:induction false} EveryCall(f: Flow, moves: seq<Move>)
    requires Sound(f) && NoAsks(f.net) && IsExecution(f, moves) && CallsOnly(moves, |f.blocks|)
    ensures NoAsks(Execute(f, moves).net)
    decreases |moves|
  {
    if moves != [] {
      MoveKeepsSound(f, moves[0]);
      assert moves[0].Outside? ==> C.Asks(moves[0].report, |f.blocks|) == [];
      MoveKeepsNoAsks(f, moves[0]);
      EveryCall(Moved(f, moves[0]), moves[1..]);
    }
  }

  /** If no callback and no description is left in the channel at the broadcast, and none is asked for after it, then
      `run_flowgraph` does return. */
  lemma TerminatedFlowgraphReturns(n: nat, before: seq<Move>, after: seq<Move>)
    requires IsExecution(Begin(n), before) && Execute(Begin(n), before).net.terminated
    requires IsExecution(Execute(Begin(n), before), after)
    requires NoAsks(Execute(Begin(n), before).net) && CallsOnly(after, |Execute(Begin(n), before).blocks|)
    ensures var f := Execute(Execute(Begin(n), before), after);
            Stuck(f) ==> f.net.phase.Returned?
                         && (f.net.phase.ok <==> forall i :: 0 <= i < |f.blocks| ==> f.blocks[i].phase.Done?)
  {
    StartOk(n);
    EveryExecution(Begin(n), before);
    EveryCall(Execute(Begin(n), before), after);
    TerminatedFlowgraphReturnsIff(n, before, after);
  }
}
