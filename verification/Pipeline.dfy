/** A MessageBurst, any number of MessageCopy stages and a MessageSink, each run by the loop of BlockLoop, with the
    flowgraph's init barrier in front: all interleavings. */
module Pipeline {
  import opened BlockLoop

  // ---- what a block's kernel sees of its inbox

  /** The payloads of the Call messages. */
  function Received(q: seq<Message>): (p: seq<Pmt>) {
    if q == [] then []
    else
      var m := q[|q| - 1];
      Received(q[..|q| - 1]) + if m.Call? then [m.data] else []
  }

  lemma ReceivedSnoc(q: seq<Message>, m: Message)
    ensures Received(q + [m]) == Received(q) + if m.Call? then [m.data] else []
  {
    assert (q + [m])[..|q|] == q;
  }

  lemma {:induction false} ReceivedConcat(a: seq<Message>, b: seq<Message>)
    ensures Received(a + b) == Received(a) + Received(b)
  {
    if b == [] {
      assert a + b == a;
    } else {
      var m := b[|b| - 1];
      ReceivedConcat(a, b[..|b| - 1]);
      ReceivedSnoc(a + b[..|b| - 1], m);
      assert (a + b[..|b| - 1]) + [m] == a + b;
    }
  }

  /** The values among the payloads. */
  function Values(p: seq<Pmt>): seq<int> {
    if p == [] then []
    else
      var d := p[|p| - 1];
      Values(p[..|p| - 1]) + if d.Data? then [d.value] else []
  }

  lemma ValuesSnoc(p: seq<Pmt>, d: Pmt)
    ensures Values(p + [d]) == Values(p) + if d.Data? then [d.value] else []
  {
    assert (p + [d])[..|p|] == p;
  }

  /** What goes over a connection: the values, and after the last one a Finished. */
  function Wire(values: seq<int>, closed: bool): (p: seq<Pmt>)
    ensures |p| == |values| + if closed then 1 else 0
  {
    seq(|values|, k requires 0 <= k < |values| => Data(values[k])) + if closed then [Finished] else []
  }

  /** What has come over a connection so far: a prefix of the values, all of them once Finished came. */
  lemma {:induction false} PrefixOfWire(p: seq<Pmt>, values: seq<int>, closed: bool)
    requires p <= Wire(values, closed)
    ensures Values(p) == values[..if |p| <= |values| then |p| else |values|]
    ensures Finished in p ==> closed && p == Wire(values, closed) && Values(p) == values
    decreases |p|
  {
    if p == [] {
    } else {
      var d := p[|p| - 1];
      assert p == p[..|p| - 1] + [d];
      PrefixOfWire(p[..|p| - 1], values, closed);
      ValuesSnoc(p[..|p| - 1], d);
    }
  }

  // ---- the system

  datatype System = System(
    values: seq<int>,       // what the burst sends
    blocks: seq<Block>,     // the burst, the copies, the sink
    posted: nat,            // messages the burst has posted
    inits: nat,             // blocks that were sent their Initialize
    notifies: nat)          // blocks that were sent their first Notify

  function Start(values: seq<int>, stages: nat): System {
    System(values, seq(stages + 2, _ => FRESH), 0, 0, 0)
  }

  datatype Move = SendInit | SendNotify | Post | Step(block: nat, event: Event)

  /** What the kernels of the three blocks do to their `WorkIo`. None of them fails. */
  predicate KernelDoes(s: System, i: nat, e: Event)
    requires i < |s.blocks|
  {
    var b := s.blocks[i];
    match e
    case ValidateErr | InitErr | HandleErr | WorkErr | DeinitErr => false
    case HandleOk(io) =>
      if b.phase.Handling? && b.phase.message.Call? && i > 0
      then io == b.io.(finished := b.io.finished || b.phase.message.data.Finished?)
      else io == b.io
    case WorkOk(io) =>
      if i == 0 then s.posted == |s.values| && io == b.io.(finished := true) else io == b.io
    case _ => true
  }

  predicate CanMove(s: System, m: Move) {
    match m
    case SendInit => s.inits < |s.blocks|
    case SendNotify =>
      s.inits == |s.blocks| && s.notifies < |s.blocks| && forall i :: 0 <= i < |s.blocks| ==> !Early(s.blocks[i])
    case Post => |s.blocks| >= 2 && s.blocks[0].phase.Working? && s.posted < |s.values|
    case Step(i, e) => i < |s.blocks| && Enabled(s.blocks[i], e) && KernelDoes(s, i, e)
  }

  /** What a step of block i posts to the next block: a copy forwards, everybody but the sink says Finished. */
  function Posts(s: System, i: nat, e: Event): seq<Message>
    requires i < |s.blocks| && Enabled(s.blocks[i], e)
  {
    var last := i == |s.blocks| - 1;
    match e
    case HandleOk(_) =>
      var m := s.blocks[i].phase.message;
      if m.Call? && m.data.Data? && 0 < i && !last then [Call("in", m.data)] else []
    case Notified => if last then [] else [Call("in", Finished)]
    case _ => []
  }

  function SendAll(b: Block, ms: seq<Message>): Block {
    if ms == [] then b else Send(b, ms[0])
  }

  function Moved(s: System, m: Move): System
    requires CanMove(s, m)
  {
    match m
    case SendInit => s.(blocks := s.blocks[s.inits := Send(s.blocks[s.inits], Initialize)], inits := s.inits + 1)
    case SendNotify =>
      s.(blocks := s.blocks[s.notifies := Send(s.blocks[s.notifies], Notify)], notifies := s.notifies + 1)
    case Post =>
      s.(blocks := s.blocks[1 := Send(s.blocks[1], Call("in", Data(s.values[s.posted])))], posted := s.posted + 1)
    case Step(i, e) =>
      var stepped := s.blocks[i := Next(s.blocks[i], e)];
      var posts := Posts(s, i, e);
      s.(blocks := if posts == [] then stepped else stepped[i + 1 := SendAll(s.blocks[i + 1], posts)])
  }

  predicate IsExecution(s: System, moves: seq<Move>)
    decreases |moves|
  {
    moves == [] || (CanMove(s, moves[0]) && IsExecution(Moved(s, moves[0]), moves[1..]))
  }

  function Execute(s: System, moves: seq<Move>): System
    requires IsExecution(s, moves)
    decreases |moves|
  {
    if moves == [] then s else Execute(Moved(s, moves[0]), moves[1..])
  }

  // ---- what every move keeps

  /** Has said Finished to the next block. */
  predicate Closed(b: Block) {
    b.phase.Deinit? || b.phase.Done?
  }

  predicate Expected(q: seq<Message>) {
    forall k :: 0 <= k < |q| ==> q[k].Initialize? || q[k].Notify? || q[k].Call?
  }

  /** Nothing has happened to a block that has handled nothing. */
  predicate Asleep(b: Block) {
    b.handled == [] ==>
      && b.works == 0 && b.io == WorkIo(false, false, false)
      && (Early(b) || b.phase.Fetching? || b.phase.Handling? || b.phase.Deciding? || b.phase.Parked?)
  }

  predicate BlockOk(b: Block) {
    && Invariant(b) && !b.phase.Failed? && !b.phase.Selecting? && !b.io.blockOn
    && Expected(b.sent) && Received(b.ignored) == [] && Notify !in b.ignored && Asleep(b)
    && (b.phase.Fetching? || b.phase.Working? || b.phase.Parked? ==> !b.io.callAgain)
    && (b.works == 0 ==> b.lastWork == 0)
  }

  /** Copies and the sink finish exactly on a Finished. */
  predicate StageOk(b: Block) {
    b.io.finished <==> Finished in Received(b.handled)
  }

  /** The burst finishes after its one call of work, in which it posts everything. */
  predicate BurstOk(s: System, b: Block) {
    && s.posted <= |s.values|
    && (b.io.finished ==> s.posted == |s.values|)
    && (b.works == 0 ==> s.posted == 0 && !b.io.finished)
    && (b.phase.Working? ==> b.works > 0)
    && (b.works > 0 ==> b.phase.Working? || b.io.finished)
    && b.sent == (if s.inits > 0 then [Initialize] else []) + (if s.notifies > 0 then [Notify] else [])
  }

  /** Below a copy: what was sent down is what it handled, and a Finished once it is closed. */
  predicate StageEdge(up: Block, down: Block) {
    Received(down.sent) == Wire(Values(Received(up.handled)), Closed(up))
  }

  /** Below the burst: what was sent down is what it posted. */
  predicate SourceEdge(values: seq<int>, posted: nat, up: Block, down: Block) {
    posted <= |values| && Received(down.sent) == Wire(values[..posted], Closed(up))
  }

  predicate EdgeOk(s: System, i: nat)
    requires i + 1 < |s.blocks|
  {
    if i == 0 then SourceEdge(s.values, s.posted, s.blocks[0], s.blocks[1])
    else StageEdge(s.blocks[i], s.blocks[i + 1])
  }

  /** The barrier: before the first Notify nothing was posted, after it every block is initialized. */
  predicate BarrierOk(s: System) {
    && s.inits <= |s.blocks| && s.notifies <= |s.blocks|
    && (s.notifies > 0 ==> s.inits == |s.blocks| && forall i :: 0 <= i < |s.blocks| ==> !Early(s.blocks[i]))
    && (s.notifies == 0 ==> forall i :: 0 <= i < |s.blocks| ==>
          Received(s.blocks[i].sent) == [] && Notify !in s.blocks[i].sent)
    && (forall i :: 0 <= i < |s.blocks| ==> (Initialize in s.blocks[i].sent <==> i < s.inits))
    && (forall i :: 0 <= i < s.notifies ==> Notify in s.blocks[i].sent)
  }

  ghost predicate BlocksOk(s: System) {
    forall i :: 0 <= i < |s.blocks| ==> BlockOk(s.blocks[i])
  }

  ghost predicate StagesOk(s: System) {
    forall i :: 0 < i < |s.blocks| ==> StageOk(s.blocks[i])
  }

  ghost predicate EdgesOk(s: System) {
    forall i :: 0 <= i < |s.blocks| - 1 ==> EdgeOk(s, i)
  }

  ghost predicate SystemOk(s: System) {
    |s.blocks| >= 2 && BlocksOk(s) && StagesOk(s) && BurstOk(s, s.blocks[0]) && EdgesOk(s) && BarrierOk(s)
  }

  // ---- one block

  lemma {:induction false} NoCalls(q: seq<Message>)
    requires Received(q) == []
    ensures forall k :: 0 <= k < |q| ==> !q[k].Call?
  {
    if q != [] {
      NoCalls(q[..|q| - 1]);
    }
  }

  /** The message in hand was sent. */
  lemma HandIsSent(b: Block)
    requires Invariant(b) && b.phase.Handling?
    ensures b.phase.message in b.sent
  {
    var before := b.ignored + b.handled;
    assert b.sent[|before|] == b.phase.message;
  }

  lemma QueueIsSent(b: Block, k: nat)
    requires Invariant(b) && k < |b.queue|
    ensures b.queue[k] in b.sent
  {
    var before := b.ignored + b.handled + InHand(b);
    assert b.sent[|before| + k] == b.queue[k];
  }

  lemma SendOk(b: Block, m: Message)
    requires BlockOk(b) && (m.Initialize? || m.Notify? || m.Call?)
    ensures BlockOk(Send(b, m)) && Received(Send(b, m).sent) == Received(b.sent) + if m.Call? then [m.data] else []
  {
    SendKeepsInvariant(b, m);
    ReceivedSnoc(b.sent, m);
  }

  /** A step with the outcome the three kernels have: `finished` may be set, nothing else. */
  predicate Mild(b: Block, e: Event) {
    && !e.ValidateErr? && !e.InitErr? && !e.HandleErr? && !e.WorkErr? && !e.DeinitErr?
    && (e.HandleOk? || e.WorkOk? ==> e.io == b.io.(finished := e.io.finished))
  }

  lemma NextIgnores(b: Block, e: Event)
    requires BlockOk(b) && Enabled(b, e) && (Early(b) ==> Received(b.sent) == [] && Notify !in b.sent)
    ensures Received(Next(b, e).ignored) == [] && Notify !in Next(b, e).ignored
  {
    if e.Skip? || e.InitOk? || e.InitErr? {
      NoCalls(b.sent);
      QueueIsSent(b, 0);
      ReceivedSnoc(b.ignored, b.queue[0]);
    }
  }

  lemma NextOk(b: Block, e: Event)
    requires BlockOk(b) && Enabled(b, e) && Mild(b, e) && (Early(b) ==> Received(b.sent) == [] && Notify !in b.sent)
    ensures BlockOk(Next(b, e))
  {
    NextKeepsInvariant(b, e);
    NextIgnores(b, e);
  }

  /** Only a Finished finishes a copy or the sink. */
  lemma StageNext(b: Block, e: Event)
    requires BlockOk(b) && StageOk(b) && Enabled(b, e) && Mild(b, e)
    requires e.HandleOk? ==>
             e.io.finished
             == (b.io.finished || (b.phase.message.Call? && b.phase.message.data.Finished?))
    requires e.WorkOk? ==> e.io == b.io
    ensures StageOk(Next(b, e))
  {
    if e.HandleOk? {
      HandIsSent(b);
      ReceivedSnoc(b.handled, b.phase.message);
    }
  }

  lemma EdgeNext(up: Block, down: Block, e: Event, post: seq<Message>)
    requires Enabled(up, e) && Mild(up, e) && StageEdge(up, down)
    requires post == if e.HandleOk? && up.phase.message.Call? && up.phase.message.data.Data?
                     then [Call("in", up.phase.message.data)]
                     else if e.Notified? then [Call("in", Finished)] else []
    ensures StageEdge(Next(up, e), SendAll(down, post))
  {
    StepCloses(up, e);
    var values := Values(Received(up.handled));
    if e.HandleOk? {
      ReceivedSnoc(up.handled, up.phase.message);
      if up.phase.message.Call? {
        ValuesSnoc(Received(up.handled), up.phase.message.data);
        if post != [] {
          ReceivedSnoc(down.sent, post[0]);
          WireSnoc(values, up.phase.message.data.value);
        } else {
          assert Values(Received(Next(up, e).handled)) == values;
        }
      } else {
        assert Received(Next(up, e).handled) == Received(up.handled);
      }
    } else if e.Notified? {
      ReceivedSnoc(down.sent, post[0]);
      WireClose(values);
    }
  }

  lemma StepCloses(b: Block, e: Event)
    requires Enabled(b, e) && Mild(b, e)
    ensures var b' := Next(b, e);
            && (Closed(b') <==> Closed(b) || e.Notified?) && (e.Notified? || e.HandleOk? ==> !Closed(b))
            && b'.handled == b.handled + if e.HandleOk? then [b.phase.message] else []
  {
  }

  lemma WireSnoc(values: seq<int>, v: int)
    ensures Wire(values + [v], false) == Wire(values, false) + [Data(v)]
  {
  }

  lemma WireClose(values: seq<int>)
    ensures Wire(values, true) == Wire(values, false) + [Finished]
  {
  }

  lemma SourceEdgeNext(up: Block, down: Block, e: Event, values: seq<int>, post: seq<Message>)
    requires Enabled(up, e) && Mild(up, e)
    requires Received(down.sent) == Wire(values, Closed(up))
    requires post == if e.Notified? then [Call("in", Finished)] else []
    ensures Received(SendAll(down, post).sent) == Wire(values, Closed(Next(up, e)))
  {
    StepCloses(up, e);
    if post != [] {
      ReceivedSnoc(down.sent, post[0]);
      WireClose(values);
    }
  }

  lemma BurstNext(s: System, b: Block, e: Event)
    requires BlockOk(b) && BurstOk(s, b) && Enabled(b, e) && Mild(b, e)
    requires e.HandleOk? ==> e.io == b.io
    requires e.WorkOk? ==> s.posted == |s.values| && e.io.finished
    ensures BurstOk(s, Next(b, e))
  {
    if e.HandleOk? {
      HandIsSent(b);
      assert b.phase.message.Initialize? || b.phase.message.Notify?;
    }
  }

  // ---- the whole system

  lemma {:induction false} CallsAreReceived(q: seq<Message>, m: Message)
    requires m in q && m.Call?
    ensures Received(q) != []
  {
    if q[|q| - 1] != m {
      CallsAreReceived(q[..|q| - 1], m);
    }
  }

  lemma HandledMeansNotified(s: System)
    requires SystemOk(s) && s.blocks[0].handled != []
    ensures s.notifies > 0
  {
    var b := s.blocks[0];
    assert Initialize in b.ignored;
    assert |b.sent| >= |b.ignored| + |b.handled| >= 2;
  }

  lemma HandledWasSent(b: Block)
    requires Fifo(b) && Received(b.handled) != []
    ensures Received(b.sent) != []
  {
    ReceivedConcat(b.ignored, b.handled);
    ReceivedConcat(b.ignored + b.handled, InHand(b) + b.queue);
    assert b.sent == (b.ignored + b.handled) + (InHand(b) + b.queue);
  }

  /** A block that posts on a step has received something, or is the burst shutting down. */
  lemma PostMeansReceived(b: Block, e: Event)
    requires BlockOk(b) && Enabled(b, e)
    requires (e.HandleOk? && b.phase.message.Call?) || (e.Notified? && StageOk(b))
    ensures Received(b.sent) != []
  {
    if e.HandleOk? {
      HandIsSent(b);
      CallsAreReceived(b.sent, b.phase.message);
    } else {
      HandledWasSent(b);
    }
  }

  /** Nothing is posted before the first Notify. */
  lemma PostsNeedNotify(s: System, i: nat, e: Event)
    requires SystemOk(s) && CanMove(s, Step(i, e)) && Posts(s, i, e) != []
    ensures s.notifies > 0
  {
    if e.Notified? && i == 0 {
      HandledMeansNotified(s);
    } else {
      PostMeansReceived(s.blocks[i], e);
    }
  }

  lemma KernelIsMild(s: System, i: nat, e: Event)
    requires CanMove(s, Step(i, e))
    ensures Mild(s.blocks[i], e)
    ensures BarrierOk(s) && Early(s.blocks[i]) ==> Received(s.blocks[i].sent) == [] && Notify !in s.blocks[i].sent
  {
  }

  /** Where a step changes the system. */
  lemma StepEffect(s: System, i: nat, e: Event, j: nat)
    requires |s.blocks| >= 2 && CanMove(s, Step(i, e)) && j < |s.blocks|
    ensures var s' := Moved(s, Step(i, e));
            && |s'.blocks| == |s.blocks| && s'.values == s.values && s'.posted == s.posted
            && s'.inits == s.inits && s'.notifies == s.notifies
            && s'.blocks[j] == (if j == i then Next(s.blocks[i], e)
                                else if j == i + 1 then SendAll(s.blocks[j], Posts(s, i, e)) else s.blocks[j])
            && (i == |s.blocks| - 1 ==> Posts(s, i, e) == [])
  {
  }

  lemma StepKeepsBlock(s: System, i: nat, e: Event, j: nat)
    requires |s.blocks| >= 2 && BarrierOk(s) && CanMove(s, Step(i, e)) && j < |s.blocks|
    requires BlockOk(s.blocks[i]) && BlockOk(s.blocks[j])
    ensures |Moved(s, Step(i, e)).blocks| == |s.blocks| && BlockOk(Moved(s, Step(i, e)).blocks[j])
  {
    StepEffect(s, i, e, j);
    KernelIsMild(s, i, e);
    if j == i {
      NextOk(s.blocks[i], e);
    } else if j == i + 1 && Posts(s, i, e) != [] {
      SendOk(s.blocks[j], Posts(s, i, e)[0]);
    }
  }

  lemma StepKeepsStage(s: System, i: nat, e: Event, j: nat)
    requires |s.blocks| >= 2 && CanMove(s, Step(i, e)) && 0 < j < |s.blocks|
    requires BlockOk(s.blocks[i]) && StageOk(s.blocks[j])
    ensures |Moved(s, Step(i, e)).blocks| == |s.blocks| && StageOk(Moved(s, Step(i, e)).blocks[j])
  {
    StepEffect(s, i, e, j);
    KernelIsMild(s, i, e);
    if j == i {
      StageNext(s.blocks[i], e);
    }
  }

  lemma BurstCanMove(s: System, e: Event)
    requires |s.blocks| >= 2 && BlockOk(s.blocks[0]) && BurstOk(s, s.blocks[0]) && CanMove(s, Step(0, e))
    ensures BurstOk(s, Next(s.blocks[0], e))
  {
    KernelIsMild(s, 0, e);
    BurstNext(s, s.blocks[0], e);
  }

  /** An edge none of whose counters changed. */
  lemma SameEdge(up: Block, down: Block, up': Block, down': Block)
    requires up'.handled == up.handled && (Closed(up') <==> Closed(up)) && down'.sent == down.sent
    ensures StageEdge(up, down) ==> StageEdge(up', down')
    ensures forall values, posted :: SourceEdge(values, posted, up, down) ==> SourceEdge(values, posted, up', down')
  {
  }

  lemma NextSends(b: Block, e: Event)
    requires Enabled(b, e)
    ensures Next(b, e).sent == b.sent
  {
  }

  lemma StepKeepsEdge(s: System, i: nat, e: Event, j: nat)
    requires CanMove(s, Step(i, e)) && j + 1 < |s.blocks| && EdgeOk(s, j)
    ensures EdgeOk(Moved(s, Step(i, e)), j)
  {
    StepEffect(s, i, e, j);
    StepEffect(s, i, e, j + 1);
    KernelIsMild(s, i, e);
    var s' := Moved(s, Step(i, e));
    EdgeMoves(s.values, s.posted, s.blocks[j], s.blocks[j + 1], s'.blocks[j], s'.blocks[j + 1], i, e, j,
              Posts(s, i, e));
  }

  lemma StepKeepsEdges(s: System, i: nat, e: Event)
    requires |s.blocks| >= 2 && EdgesOk(s) && CanMove(s, Step(i, e))
    ensures EdgesOk(Moved(s, Step(i, e)))
  {
    var s' := Moved(s, Step(i, e));
    StepEffect(s, i, e, 0);
    forall j | 0 <= j < |s.blocks| - 1 ensures EdgeOk(s', j) {
      StepKeepsEdge(s, i, e, j);
    }
  }

  lemma EdgeMoves(values: seq<int>, posted: nat, up: Block, down: Block, up': Block, down': Block,
                  i: nat, e: Event, j: nat, posts: seq<Message>)
    requires if j == 0 then SourceEdge(values, posted, up, down) else StageEdge(up, down)
    requires j == i ==> Enabled(up, e) && Mild(up, e) && up' == Next(up, e) && down' == SendAll(down, posts)
    requires j == i ==> posts == if e.HandleOk? && up.phase.message.Call? && up.phase.message.data.Data? && j > 0
                                 then [Call("in", up.phase.message.data)]
                                 else if e.Notified? then [Call("in", Finished)] else []
    requires j == i + 1 ==> up' == SendAll(up, posts) && down' == down
    requires j + 1 == i ==> up' == up && Enabled(down, e) && down' == Next(down, e)
    requires j != i && j != i + 1 && j + 1 != i ==> up' == up && down' == down
    ensures if j == 0 then SourceEdge(values, posted, up', down') else StageEdge(up', down')
  {
    if j == i && i == 0 {
      SourceEdgeNext(up, down, e, values[..posted], posts);
    } else if j == i {
      EdgeNext(up, down, e, posts);
    } else {
      if j + 1 == i {
        NextSends(down, e);
      }
      SameEdge(up, down, up', down');
    }
  }

  /** What a step leaves to the barrier. */
  lemma StepForBarrier(b: Block, b': Block, posts: seq<Message>, e: Event)
    requires (Enabled(b, e) && b' == Next(b, e)) || b' == SendAll(b, posts)
    requires posts == [] || posts[0].Call?
    ensures (Early(b') ==> Early(b)) && (Initialize in b'.sent <==> Initialize in b.sent)
    ensures (Notify in b.sent ==> Notify in b'.sent) && (posts == [] ==> b'.sent == b.sent)
  {
  }

  lemma StepKeepsBarrier(s: System, i: nat, e: Event)
    requires SystemOk(s) && CanMove(s, Step(i, e))
    ensures BarrierOk(Moved(s, Step(i, e)))
  {
    var s', posts := Moved(s, Step(i, e)), Posts(s, i, e);
    if posts != [] {
      PostsNeedNotify(s, i, e);
    }
    forall j | 0 <= j < |s.blocks|
      ensures (Early(s'.blocks[j]) ==> Early(s.blocks[j]))
              && (Initialize in s'.blocks[j].sent <==> Initialize in s.blocks[j].sent)
      ensures (Notify in s.blocks[j].sent ==> Notify in s'.blocks[j].sent)
      ensures posts == [] ==> s'.blocks[j].sent == s.blocks[j].sent
    {
      StepEffect(s, i, e, j);
      if j == i || j == i + 1 {
        StepForBarrier(s.blocks[j], s'.blocks[j], posts, e);
      }
    }
    BarrierFrom(s, s', posts == []);
  }

  lemma BarrierFrom(s: System, s': System, quiet: bool)
    requires BarrierOk(s) && |s'.blocks| == |s.blocks| && s'.inits == s.inits && s'.notifies == s.notifies
    requires quiet || s.notifies > 0
    requires forall j :: 0 <= j < |s.blocks| ==> (Early(s'.blocks[j]) ==> Early(s.blocks[j]))
    requires forall j :: 0 <= j < |s.blocks| ==> (Initialize in s'.blocks[j].sent <==> Initialize in s.blocks[j].sent)
    requires forall j :: 0 <= j < |s.blocks| ==> (Notify in s.blocks[j].sent ==> Notify in s'.blocks[j].sent)
    requires forall j :: 0 <= j < |s.blocks| ==> (quiet ==> s'.blocks[j].sent == s.blocks[j].sent)
    ensures BarrierOk(s')
  {
  }

  lemma StepKeeps(s: System, i: nat, e: Event)
    requires SystemOk(s) && CanMove(s, Step(i, e))
    ensures SystemOk(Moved(s, Step(i, e)))
  {
    var s' := Moved(s, Step(i, e));
    StepEffect(s, i, e, 0);
    forall j | 0 <= j < |s.blocks| ensures BlockOk(s'.blocks[j]) {
      StepKeepsBlock(s, i, e, j);
    }
    forall j | 0 < j < |s.blocks| ensures StageOk(s'.blocks[j]) {
      StepKeepsStage(s, i, e, j);
    }
    StepKeepsEdges(s, i, e);
    if i == 0 {
      BurstCanMove(s, e);
    }
    StepKeepsBarrier(s, i, e);
  }

  lemma SendKeepsEdge(values: seq<int>, posted: nat, up: Block, down: Block, up': Block, down': Block, sent: Message)
    requires !sent.Call? && (up' == up || up' == Send(up, sent)) && (down' == down || down' == Send(down, sent))
    ensures StageEdge(up, down) ==> StageEdge(up', down')
    ensures SourceEdge(values, posted, up, down) ==> SourceEdge(values, posted, up', down')
  {
    ReceivedSnoc(down.sent, sent);
  }

  lemma SendKeepsEdges(s: System, s': System, k: nat, sent: Message)
    requires |s.blocks| >= 2 && k < |s.blocks| && !sent.Call? && s'.values == s.values && s'.posted == s.posted
    requires s'.blocks == s.blocks[k := Send(s.blocks[k], sent)] && EdgesOk(s)
    ensures EdgesOk(s')
  {
    forall j | 0 <= j < |s.blocks| - 1 ensures EdgeOk(s', j) {
      assert EdgeOk(s, j);
      SendKeepsEdge(s.values, s.posted, s.blocks[j], s.blocks[j + 1], s'.blocks[j], s'.blocks[j + 1], sent);
    }
  }

  lemma SendKeepsBlocks(s: System, s': System, k: nat, sent: Message)
    requires k < |s.blocks| && s'.blocks == s.blocks[k := Send(s.blocks[k], sent)]
    requires BlocksOk(s) && (sent.Initialize? || sent.Notify? || sent.Call?)
    ensures BlocksOk(s')
  {
    SendOk(s.blocks[k], sent);
  }

  lemma SendKeepsStages(s: System, s': System, k: nat, sent: Message)
    requires k < |s.blocks| && s'.blocks == s.blocks[k := Send(s.blocks[k], sent)] && StagesOk(s)
    ensures StagesOk(s')
  {
  }

  /** The next Initialize or, once nobody is in the setup any more, the next Notify goes out. */
  lemma SendKeepsBarrier(s: System, s': System, k: nat, sent: Message)
    requires |s.blocks| >= 2 && k < |s.blocks| && s'.blocks == s.blocks[k := Send(s.blocks[k], sent)] && BarrierOk(s)
    requires (k == s.inits && sent == Initialize && s'.inits == s.inits + 1 && s'.notifies == s.notifies)
          || (k == s.notifies && sent == Notify && s'.notifies == s.notifies + 1 && s'.inits == s.inits == |s.blocks|
              && forall i :: 0 <= i < |s.blocks| ==> !Early(s.blocks[i]))
    ensures BarrierOk(s')
  {
    forall i | 0 <= i < |s.blocks|
      ensures var b, b' := s.blocks[i], s'.blocks[i];
              && Early(b') == Early(b) && Received(b'.sent) == Received(b.sent)
              && (Initialize in b'.sent <==> Initialize in b.sent || (i == k && sent == Initialize))
              && (Notify in b'.sent <==> Notify in b.sent || (i == k && sent == Notify))
    {
      SetupSent(s.blocks[i], sent);
    }
  }

  lemma SetupSent(b: Block, m: Message)
    requires m == Initialize || m == Notify
    ensures var b' := Send(b, m);
            && Early(b') == Early(b) && Received(b'.sent) == Received(b.sent)
            && (Initialize in b'.sent <==> Initialize in b.sent || m == Initialize)
            && (Notify in b'.sent <==> Notify in b.sent || m == Notify)
  {
    ReceivedSnoc(b.sent, m);
  }

  lemma InitKeepsBurst(s: System, s': System)
    requires |s.blocks| >= 2 && BurstOk(s, s.blocks[0]) && BarrierOk(s) && s'.posted == s.posted
             && s'.values == s.values
    requires (CanMove(s, SendInit) && s' == Moved(s, SendInit))
             || (CanMove(s, SendNotify) && s' == Moved(s, SendNotify))
    ensures BurstOk(s', s'.blocks[0])
  {
  }

  lemma InitKeeps(s: System)
    requires SystemOk(s) && CanMove(s, SendInit)
    ensures SystemOk(Moved(s, SendInit))
  {
    var s' := Moved(s, SendInit);
    InitKeepsBurst(s, s');
    SendKeepsBlocks(s, s', s.inits, Initialize);
    SendKeepsStages(s, s', s.inits, Initialize);
    SendKeepsEdges(s, s', s.inits, Initialize);
    SendKeepsBarrier(s, s', s.inits, Initialize);
  }

  lemma NotifyKeeps(s: System)
    requires SystemOk(s) && CanMove(s, SendNotify)
    ensures SystemOk(Moved(s, SendNotify))
  {
    var s' := Moved(s, SendNotify);
    InitKeepsBurst(s, s');
    SendKeepsBlocks(s, s', s.notifies, Notify);
    SendKeepsStages(s, s', s.notifies, Notify);
    SendKeepsEdges(s, s', s.notifies, Notify);
    SendKeepsBarrier(s, s', s.notifies, Notify);
  }

  lemma PostKeepsSourceEdge(values: seq<int>, posted: nat, up: Block, down: Block)
    requires posted < |values| && SourceEdge(values, posted, up, down) && !Closed(up)
    ensures SourceEdge(values, posted + 1, up, Send(down, Call("in", Data(values[posted]))))
  {
    ReceivedSnoc(down.sent, Call("in", Data(values[posted])));
    WireSnoc(values[..posted], values[posted]);
    assert values[..posted + 1] == values[..posted] + [values[posted]];
  }

  lemma PostKeepsEdges(s: System, s': System)
    requires |s.blocks| >= 2 && s.posted < |s.values| && !Closed(s.blocks[0])
    requires s' == s.(blocks := s.blocks[1 := Send(s.blocks[1], Call("in", Data(s.values[s.posted])))],
                      posted := s.posted + 1)
    requires EdgesOk(s)
    ensures EdgesOk(s')
  {
    forall j | 0 <= j < |s.blocks| - 1 ensures EdgeOk(s', j) {
      assert EdgeOk(s, j);
      if j == 0 {
        PostKeepsSourceEdge(s.values, s.posted, s.blocks[0], s.blocks[1]);
      } else if j == 1 {
        SameEdge(s.blocks[1], s.blocks[2], s'.blocks[1], s'.blocks[2]);
      }
    }
  }

  lemma PostKeepsBarrier(s: System, s': System, sent: Message)
    requires |s.blocks| >= 2 && s'.blocks == s.blocks[1 := Send(s.blocks[1], sent)] && BarrierOk(s) && s.notifies > 0
    requires sent.Call? && s'.inits == s.inits && s'.notifies == s.notifies
    ensures BarrierOk(s')
  {
  }

  lemma PostKeeps(s: System)
    requires SystemOk(s) && CanMove(s, Post)
    ensures SystemOk(Moved(s, Post))
  {
    var s', post := Moved(s, Post), Call("in", Data(s.values[s.posted]));
    HandledMeansNotified(s);
    SendKeepsBlocks(s, s', 1, post);
    SendKeepsStages(s, s', 1, post);
    PostKeepsEdges(s, s');
    PostKeepsBarrier(s, s', post);
  }

  lemma MoveKeeps(s: System, m: Move)
    requires SystemOk(s) && CanMove(s, m)
    ensures SystemOk(Moved(s, m))
  {
    match m
    case SendInit => InitKeeps(s);
    case SendNotify => NotifyKeeps(s);
    case Post => PostKeeps(s);
    case Step(i, e) => StepKeeps(s, i, e);
  }

  lemma StartOk(values: seq<int>, stages: nat)
    ensures SystemOk(Start(values, stages))
  {
    var s := Start(values, stages);
    forall i | 0 <= i < |s.blocks| - 1 ensures EdgeOk(s, i) {
      assert Wire([], false) == [];
    }
  }

  lemma {:induction false} EveryExecution(s: System, moves: seq<Move>)
    requires SystemOk(s) && IsExecution(s, moves)
    ensures SystemOk(Execute(s, moves))
    decreases |moves|
  {
    if moves != [] {
      MoveKeeps(s, moves[0]);
      EveryExecution(Moved(s, moves[0]), moves[1..]);
    }
  }
}
