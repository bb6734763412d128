/** What a post of a kernel's `init` can do to the init barrier: the message is in the other inbox while `init` still
    runs. */
module InitPosts {
  import opened Wrappers
  import B = BlockLoop
  import C = Coordinator
  import opened Runtime

  /** Only block i posts while it initializes, and only to block j. */
  predicate PostsOnly(moves: seq<Move>, i: nat, j: nat) {
    forall k :: 0 <= k < |moves| ==> PostOnly(moves[k], i, j)
  }

  predicate PostOnly(m: Move, i: nat, j: nat) {
    m.InitPost? ==> m.block == i && m.post.to == j
  }

  /** A block has called work while another is in its setup. */
  predicate Broken(f: Flow) {
    exists k, l :: 0 <= k < |f.blocks| && 0 <= l < |f.blocks| && f.blocks[k].works > 0 && B.Early(f.blocks[l])
  }

  // ---- one block cannot break it

  lemma {:induction false} SameSize(f: Flow, moves: seq<Move>)
    requires IsExecution(f, moves)
    ensures |Execute(f, moves).blocks| == |f.blocks|
    decreases |moves|
  {
    if moves != [] {
      SameSize(Moved(f, moves[0]), moves[1..]);
    }
  }

  /** A block in its own setup has not worked, whatever is posted. */
  lemma OneStaysWhole(f: Flow, moves: seq<Move>)
    requires Sound(f) && |f.blocks| == 1 && IsExecution(f, moves)
    ensures !Broken(Execute(f, moves))
  {
    EveryExecution(f, moves);
    SameSize(f, moves);
    OneIsWhole(Execute(f, moves));
  }

  lemma OneIsWhole(f: Flow)
    requires Linked(f) && |f.blocks| == 1
    ensures !Broken(f)
  {
    assert BlockFits(f.net, f.blocks[0], 0);
    if B.Early(f.blocks[0]) {
      NoWorkInSetup(f.blocks[0]);
    }
  }

  lemma NoWorkInSetup(b: B.Block)
    requires B.Invariant(b) && B.Early(b)
    ensures b.works == 0
  {
  }

  // ---- two can

  lemma PrependOnly(f: Flow, m: Move, rest: seq<Move>, i: nat, j: nat) returns (moves: seq<Move>)
    requires CanMove(f, m) && PostOnly(m, i, j) && IsExecution(Moved(f, m), rest) && PostsOnly(rest, i, j)
    ensures IsExecution(f, moves) && PostsOnly(moves, i, j) && Execute(f, moves) == Execute(Moved(f, m), rest)
  {
    moves := [m] + rest;
    assert moves[1..] == rest;
  }

  lemma StepAt(f: Flow, b: nat, e: B.Event) returns (g: Flow)
    requires Sound(f) && b < |f.blocks| && B.Enabled(f.blocks[b], e)
    ensures CanMove(f, Step(b, e)) && g == Moved(f, Step(b, e)) && Sound(g)
    ensures g.blocks == f.blocks[b := B.Next(f.blocks[b], e)]
  {
    assert BlockFits(f.net, f.blocks[b], b);
    ReportFits(f.net, f.blocks[b], b, e);
    MoveKeepsSound(f, Step(b, e));
    g := Moved(f, Step(b, e));
  }

  /** The first k blocks have been sent their Initialize, and nothing else has happened. */
  predicate Sent(f: Flow, k: nat) {
    && f.net.phase == C.Sending && f.net.inits == k <= |f.blocks| == |f.net.blocks|
    && forall b :: 0 <= b < |f.blocks| ==>
         && f.blocks[b].phase.Validating? && f.blocks[b].peek.None? && !f.blocks[b].io.finished
         && f.blocks[b].queue == if b < k then [B.Initialize] else []
  }

  lemma SentNext(f: Flow, k: nat)
    requires Sent(f, k) && k < |f.blocks|
    ensures CanMove(f, Coordinate) && |Moved(f, Coordinate).blocks| == |f.blocks| && Sent(Moved(f, Coordinate), k + 1)
  {
    var g := Moved(f, Coordinate);
    forall b | 0 <= b < |f.blocks|
      ensures g.blocks[b] == if b == k then B.Send(f.blocks[b], B.Initialize) else f.blocks[b]
    {
      ReceiveOne(f.blocks[b], b, Post(k, B.Initialize));
    }
  }

  lemma {:induction false} SendThem(f: Flow, k: nat, i: nat, j: nat) returns (moves: seq<Move>)
    requires Sound(f) && Sent(f, k) && i < |f.blocks| && j < |f.blocks| && |f.blocks| >= 2
    ensures IsExecution(f, moves) && PostsOnly(moves, i, j) && Broken(Execute(f, moves))
    decreases |f.blocks| - k
  {
    if k < |f.blocks| {
      MoveKeepsSound(f, Coordinate);
      SentNext(f, k);
      moves := SendThem(Moved(f, Coordinate), k + 1, i, j);
      moves := PrependOnly(f, Coordinate, moves, i, j);
    } else if i == j {
      moves := PostToItself(f, i, if i == 0 then 1 else 0);
    } else {
      moves := PostToOther(f, i, j);
    }
  }

  const HELLO: B.Message := B.Call("in", B.Finished)

  /** A block that has just been sent its Initialize, is about to initialize, or waits for messages. */
  predicate Ready(b: B.Block) {
    b.phase.Validating? && b.peek.None? && !b.io.finished && b.queue == [B.Initialize]
  }

  predicate AboutToInit(b: B.Block, more: seq<B.Message>) {
    b.phase.Setup? && b.peek.None? && !b.io.finished && b.queue == [B.Initialize] + more
  }

  predicate Waiting(b: B.Block, queue: seq<B.Message>) {
    b.phase.Fetching? && b.peek.None? && !b.io.finished && b.queue == queue
  }

  lemma Validated(b: B.Block)
    requires Ready(b)
    ensures B.Enabled(b, B.ValidateOk) && AboutToInit(B.Next(b, B.ValidateOk), [])
  {
    assert [B.Initialize] + [] == [B.Initialize];
  }

  lemma Initialized(b: B.Block, more: seq<B.Message>)
    requires AboutToInit(b, more)
    ensures B.Enabled(b, B.InitOk) && Waiting(B.Next(b, B.InitOk), more)
  {
  }

  /** The post of i to j while the init of i runs. */
  lemma PostHello(f: Flow, i: nat, j: nat) returns (g: Flow)
    requires Sound(f) && i < |f.blocks| && j < |f.blocks| && AboutToInit(f.blocks[i], [])
    ensures CanMove(f, InitPost(i, Post(j, HELLO))) && g == Moved(f, InitPost(i, Post(j, HELLO))) && Sound(g)
    ensures g.blocks == f.blocks[j := B.Send(f.blocks[j], HELLO)]
  {
    MoveKeepsSound(f, InitPost(i, Post(j, HELLO)));
    g := Moved(f, InitPost(i, Post(j, HELLO)));
    forall k | 0 <= k < |f.blocks|
      ensures g.blocks[k] == if k == j then B.Send(f.blocks[j], HELLO) else f.blocks[k]
    {
      ReceiveOne(f.blocks[k], k, Post(j, HELLO));
    }
  }

  /** Block i gets its own post when its init is over, while l is in its setup. */
  lemma PostToItself(f: Flow, i: nat, l: nat) returns (moves: seq<Move>)
    requires Sound(f) && i < |f.blocks| && l < |f.blocks| && l != i && Ready(f.blocks[i]) && B.Early(f.blocks[l])
    ensures IsExecution(f, moves) && PostsOnly(moves, i, i) && Broken(Execute(f, moves))
  {
    Validated(f.blocks[i]);
    var f1 := StepAt(f, i, B.ValidateOk);
    var f2 := PostHello(f1, i, i);
    Initialized(f2.blocks[i], [HELLO]);
    var f3 := StepAt(f2, i, B.InitOk);
    moves := HandleIt(f3, i, l, i, i);
    moves := PrependOnly(f2, Step(i, B.InitOk), moves, i, i);
    moves := PrependOnly(f1, InitPost(i, Post(i, HELLO)), moves, i, i);
    moves := PrependOnly(f, Step(i, B.ValidateOk), moves, i, i);
  }

  /** Block j is initialized first. */
  lemma PostToOther(f: Flow, i: nat, j: nat) returns (moves: seq<Move>)
    requires Sound(f) && i < |f.blocks| && j < |f.blocks| && i != j && Ready(f.blocks[i]) && Ready(f.blocks[j])
    ensures IsExecution(f, moves) && PostsOnly(moves, i, j) && Broken(Execute(f, moves))
  {
    Validated(f.blocks[j]);
    var f1 := StepAt(f, j, B.ValidateOk);
    Initialized(f1.blocks[j], []);
    var f2 := StepAt(f1, j, B.InitOk);
    moves := PostToWaiting(f2, i, j);
    moves := PrependOnly(f1, Step(j, B.InitOk), moves, i, j);
    moves := PrependOnly(f, Step(j, B.ValidateOk), moves, i, j);
  }

  /** It waits for messages and gets the post of block i, whose init still runs. */
  lemma PostToWaiting(f: Flow, i: nat, j: nat) returns (moves: seq<Move>)
    requires Sound(f) && i < |f.blocks| && j < |f.blocks| && i != j && Ready(f.blocks[i]) && Waiting(f.blocks[j], [])
    ensures IsExecution(f, moves) && PostsOnly(moves, i, j) && Broken(Execute(f, moves))
  {
    Validated(f.blocks[i]);
    var f1 := StepAt(f, i, B.ValidateOk);
    var f2 := PostHello(f1, i, j);
    assert [] + [HELLO] == [HELLO];
    moves := HandleIt(f2, j, i, i, j);
    moves := PrependOnly(f1, InitPost(i, Post(j, HELLO)), moves, i, j);
    moves := PrependOnly(f, Step(i, B.ValidateOk), moves, i, j);
  }

  /** Block k handles the message while l is in its setup. */
  lemma HandleIt(f: Flow, k: nat, l: nat, i: nat, j: nat) returns (moves: seq<Move>)
    requires Sound(f) && k < |f.blocks| && l < |f.blocks| && l != k && B.Early(f.blocks[l])
    requires Waiting(f.blocks[k], [HELLO])
    ensures IsExecution(f, moves) && PostsOnly(moves, i, j) && Broken(Execute(f, moves))
  {
    HelloIsHandled(f.blocks[k]);
    var f1 := StepAt(f, k, B.Fetch);
    var handle := B.HandleOk(f.blocks[k].io);
    var f2 := StepAt(f1, k, handle);
    moves := WorkThen(f2, k, l, i, j);
    moves := PrependOnly(f1, Step(k, handle), moves, i, j);
    moves := PrependOnly(f, Step(k, B.Fetch), moves, i, j);
  }

  lemma HelloIsHandled(b: B.Block)
    requires Waiting(b, [HELLO])
    ensures B.Enabled(b, B.Fetch) && B.Enabled(B.Next(b, B.Fetch), B.HandleOk(b.io))
    ensures var c := B.Next(B.Next(b, B.Fetch), B.HandleOk(b.io)); c.phase.Deciding? && c.io.callAgain && !c.io.finished
  {
  }

  /** And it calls work. */
  lemma WorkThen(f: Flow, k: nat, l: nat, i: nat, j: nat) returns (moves: seq<Move>)
    requires Sound(f) && k < |f.blocks| && l < |f.blocks| && l != k && B.Early(f.blocks[l])
    requires var b := f.blocks[k]; b.phase.Deciding? && b.io.callAgain && !b.io.finished
    ensures IsExecution(f, moves) && PostsOnly(moves, i, j) && Broken(Execute(f, moves))
  {
    var f1 := StepAt(f, k, B.Decide);
    var f2 := StepAt(f1, k, B.StartWork);
    assert f2.blocks[l] == f.blocks[l] && f2.blocks[k].works > 0;
    moves := PrependOnly(f1, Step(k, B.StartWork), [], i, j);
    moves := PrependOnly(f, Step(k, B.Decide), moves, i, j);
  }

  lemma StartIsSent(n: nat)
    ensures Sound(Begin(n)) && Sent(Begin(n), 0) && |Begin(n).blocks| == n
  {
    StartOk(n);
    StartLinked(n);
  }

  ghost predicate CanBreak(n: nat, i: nat, j: nat) {
    exists moves :: IsExecution(Begin(n), moves) && PostsOnly(moves, i, j) && Broken(Execute(Begin(n), moves))
  }

  lemma EnoughBlocks(n: nat, i: nat, j: nat)
    requires i < n && j < n && n >= 2
    ensures CanBreak(n, i, j)
  {
    StartIsSent(n);
    var moves := SendThem(Begin(n), 0, i, j);
  }

  /** Posts of block i to block j while the init of i runs, to itself or to another, can break the barrier exactly if
      there is more than one block. */
  lemma InitPostBreaksTheBarrierIff(n: nat, i: nat, j: nat)
    requires i < n && j < n
    ensures CanBreak(n, i, j) <==> n >= 2
  {
    if n >= 2 {
      EnoughBlocks(n, i, j);
    } else {
      StartIsSent(n);
      forall moves | IsExecution(Begin(n), moves) && PostsOnly(moves, i, j) ensures !Broken(Execute(Begin(n), moves)) {
        OneStaysWhole(Begin(n), moves);
      }
    }
  }
}
