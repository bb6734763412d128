/** A flowgraph as a whole: `run_flowgraph` (src/runtime/runtime.rs) and the loops of its blocks
    (src/runtime/block.rs), in every interleaving. What the coordinator sends goes to the inboxes, what becomes of a
    block goes to its channel. */
module Runtime {
  import opened Wrappers
  import B = BlockLoop
  import C = Coordinator

  datatype Post = Post(to: nat, message: B.Message)

  /** The mark is where the request the coordinator waits for stands in what was sent to the block it asked. */
  datatype Flow = Flow(net: C.Net, blocks: seq<B.Block>, mark: nat)

  function Begin(n: nat): Flow {
    Flow(C.Begin(n), seq(n, _ => B.FRESH), 0)
  }

  datatype Move =
    | Step(block: nat, event: B.Event)       // a block's own step
    | InitPost(block: nat, post: Post)       // its kernel posts in `init`
    | KernelPost(block: nat, post: Post)     // it posts later, or tells a neighbour that it ends
    | Outside(report: C.Report)
    | Coordinate                             // a step of the coordinator
    | Reply                                  // the awaited reply reaches it

  /** The kernel's `init` is running. */
  predicate InInit(b: B.Block) {
    b.phase.Setup? && b.queue != [] && b.queue[0].Initialize?
  }

  /** One of its other functions is, or the block tells its neighbours. */
  predicate InKernel(b: B.Block) {
    b.phase.Handling? || b.phase.Working? || b.phase.Notifying? || b.phase.Deinit?
  }

  /** Initialize and Terminate come from the coordinator alone. */
  predicate Postable(p: Post) {
    !p.message.Initialize? && !p.message.Terminate?
  }

  /** What the coordinator hears of a block's step. */
  function ReportOf(b: nat, e: B.Event): Option<C.Step> {
    match e
    case InitOk => Some(C.ReportReady(b))
    case ValidateErr | InitErr => Some(C.ReportFailure(b))
    case HandleErr | WorkErr | DeinitErr => Some(C.ReportEnd(b, false))
    case DeinitOk => Some(C.ReportEnd(b, true))
    case _ => None
  }

  /** What the coordinator passes on of a request from outside. */
  function Passed(r: C.Report, n: nat): seq<Post> {
    match r
    case BlockCall(to, port, data) => if to < n then [Post(to, B.Call(port, data))] else []
    case BlockCallback(to, port, data) => if to < n then [Post(to, B.Callback(port, data))] else []
    case BlockDescription(to) => if to < n then [Post(to, B.BlockDescription)] else []
    case FlowgraphDescription => if n > 0 then [Post(0, B.BlockDescription)] else []
    case _ => []
  }

  /** What the coordinator's next step sends to the blocks. */
  function Orders(s: C.Net): seq<Post> {
    if s.phase.Sending? && s.inits < |s.blocks| then [Post(s.inits, B.Initialize)]
    else if s.phase.Releasing? && s.notifies < |s.blocks| then [Post(s.notifies, B.Notify)]
    else if s.phase.Running? && s.telling > 0 then
      if s.telling <= |s.blocks| then [Post(|s.blocks| - s.telling, B.Terminate)] else []
    else if s.phase.Running? && s.active != 0 && s.channel != [] then Passed(s.channel[0], |s.blocks|)
    else []
  }

  /** What it sends when the awaited reply is there: a flowgraph description goes on to the next block. */
  function Further(s: C.Net): seq<Post> {
    if |s.asked| > 1 then [Post(s.asked[1], B.BlockDescription)] else []
  }

  /** What block i has after the posts that are for it. */
  function Receive(b: B.Block, i: nat, posts: seq<Post>): B.Block {
    if posts == [] then b
    else
      var c := Receive(b, i, posts[..|posts| - 1]);
      if posts[|posts| - 1].to == i then B.Send(c, posts[|posts| - 1].message) else c
  }

  function Deliver(blocks: seq<B.Block>, posts: seq<Post>): (r: seq<B.Block>)
    ensures |r| == |blocks|
  {
    seq(|blocks|, i requires 0 <= i < |blocks| => Receive(blocks[i], i, posts))
  }

  predicate CanMove(f: Flow, m: Move) {
    match m
    case Step(b, e) =>
      b < |f.blocks| && B.Enabled(f.blocks[b], e) && (ReportOf(b, e).Some? ==> C.Enabled(f.net, ReportOf(b, e).value))
    case InitPost(b, p) => b < |f.blocks| && InInit(f.blocks[b]) && Postable(p)
    case KernelPost(b, p) => b < |f.blocks| && InKernel(f.blocks[b]) && Postable(p)
    case Outside(r) => C.FromOutside(r)
    case Coordinate => C.CanCoordinate(f.net)
    case Reply => Answered(f)
  }

  /** The block asked has handled the request, and so replied to it. */
  predicate Answered(f: Flow) {
    f.net.asked != [] && f.net.asked[0] < |f.blocks|
    && var b := f.blocks[f.net.asked[0]]; f.mark < |b.ignored| + |b.handled|
  }

  /** The next message to the block that is asked. */
  function Mark(blocks: seq<B.Block>, asked: seq<nat>): nat {
    if asked != [] && asked[0] < |blocks| then |blocks[asked[0]].sent| else 0
  }

  function Heard(s: C.Net, report: Option<C.Step>): C.Net
    requires report.Some? ==> C.Enabled(s, report.value)
  {
    if report.Some? then C.Next(s, report.value) else s
  }

  function Moved(f: Flow, m: Move): Flow
    requires CanMove(f, m)
  {
    match m
    case Step(b, e) => Flow(Heard(f.net, ReportOf(b, e)), f.blocks[b := B.Next(f.blocks[b], e)], f.mark)
    case InitPost(_, p) => Flow(f.net, Deliver(f.blocks, [p]), f.mark)
    case KernelPost(_, p) => Flow(f.net, Deliver(f.blocks, [p]), f.mark)
    case Outside(r) => Flow(C.Next(f.net, C.Outside(r)), f.blocks, f.mark)
    case Coordinate =>
      var net := C.Coordinated(f.net);
      Flow(net, Deliver(f.blocks, Orders(f.net)), Mark(f.blocks, net.asked))
    case Reply =>
      var net := C.Next(f.net, C.Reply);
      Flow(net, Deliver(f.blocks, Further(f.net)), Mark(f.blocks, net.asked))
  }

  /** The kernel posts nothing while it initializes. */
  predicate Silent(m: Move) {
    !m.InitPost?
  }

  predicate IsExecution(f: Flow, moves: seq<Move>)
    decreases |moves|
  {
    moves == [] || (CanMove(f, moves[0]) && IsExecution(Moved(f, moves[0]), moves[1..]))
  }

  function Execute(f: Flow, moves: seq<Move>): Flow
    requires IsExecution(f, moves)
    decreases |moves|
  {
    if moves == [] then f else Execute(Moved(f, moves[0]), moves[1..])
  }

  predicate AllSilent(moves: seq<Move>) {
    forall k :: 0 <= k < |moves| ==> Silent(moves[k])
  }

  // ---- the coordinator's picture of a block

  predicate Tied(s: C.BlockState, b: B.Block) {
    match s
    case Fresh => B.Early(b)
    case Ready => !B.Early(b) && !B.Over(b)
    case Over(ok) => if ok then b.phase.Done? else b.phase.Failed?
  }

  predicate BlockFits(s: C.Net, b: B.Block, i: nat)
    requires i < |s.blocks|
  {
    Tied(s.blocks[i], b) && B.Invariant(b) && (B.Initialize in b.sent <==> i < s.inits)
  }

  predicate Linked(f: Flow) {
    && |f.net.blocks| == |f.blocks|
    && forall i :: 0 <= i < |f.blocks| ==> BlockFits(f.net, f.blocks[i], i)
  }

  lemma {:induction false} ReceiveKeeps(b: B.Block, i: nat, posts: seq<Post>)
    requires B.Invariant(b)
    ensures var c := Receive(b, i, posts);
            && B.Invariant(c) && c.phase == b.phase && c.io == b.io && c.works == b.works && c.handled == b.handled
            && c.peek == b.peek && (b.deadline.Some? ==> c.deadline == b.deadline)
            && b.sent <= c.sent
    ensures (forall k :: 0 <= k < |posts| ==> !posts[k].message.Initialize?) ==>
              (B.Initialize in Receive(b, i, posts).sent <==> B.Initialize in b.sent)
  {
    if posts != [] {
      ReceiveKeeps(b, i, posts[..|posts| - 1]);
      B.SendKeepsInvariant(Receive(b, i, posts[..|posts| - 1]), posts[|posts| - 1].message);
    }
  }

  lemma ReceiveOne(b: B.Block, i: nat, p: Post)
    ensures Receive(b, i, [p]) == if p.to == i then B.Send(b, p.message) else b
  {
    assert [p][..0] == [];
  }

  /** A block's step is what the coordinator is told. */
  lemma ReportFits(s: C.Net, b: B.Block, i: nat, e: B.Event)
    requires i < |s.blocks| && BlockFits(s, b, i) && B.Enabled(b, e)
    ensures ReportOf(i, e).Some? ==> C.Enabled(s, ReportOf(i, e).value)
    ensures var t := Heard(s, ReportOf(i, e));
            && |t.blocks| == |s.blocks| && t.inits == s.inits && Tied(t.blocks[i], B.Next(b, e))
            && forall j :: 0 <= j < |s.blocks| && j != i ==> t.blocks[j] == s.blocks[j]
  {
    assert e.InitOk? ==> b.queue[0] in b.sent;
    ReportTies(s, b, i, e);
  }

  lemma ReportTies(s: C.Net, b: B.Block, i: nat, e: B.Event)
    requires i < |s.blocks| && Tied(s.blocks[i], b) && B.Enabled(b, e) && (e.InitOk? ==> i < s.inits)
    ensures ReportOf(i, e).Some? ==> C.Enabled(s, ReportOf(i, e).value)
    ensures var t := Heard(s, ReportOf(i, e));
            && |t.blocks| == |s.blocks| && t.inits == s.inits && Tied(t.blocks[i], B.Next(b, e))
            && forall j :: 0 <= j < |s.blocks| && j != i ==> t.blocks[j] == s.blocks[j]
  {
  }

  lemma StepFits(s: C.Net, b: B.Block, i: nat, e: B.Event)
    requires i < |s.blocks| && BlockFits(s, b, i) && B.Enabled(b, e)
    requires ReportOf(i, e).Some? ==> C.Enabled(s, ReportOf(i, e).value)
    ensures |Heard(s, ReportOf(i, e)).blocks| == |s.blocks|
    ensures BlockFits(Heard(s, ReportOf(i, e)), B.Next(b, e), i)
  {
    ReportFits(s, b, i, e);
    B.NextKeepsInvariant(b, e);
    NextSends(b, e);
  }

  lemma NextSends(b: B.Block, e: B.Event)
    requires B.Enabled(b, e)
    ensures B.Next(b, e).sent == b.sent && B.Next(b, e).deadline == b.deadline
  {
  }

  lemma OtherFits(s: C.Net, t: C.Net, b: B.Block, i: nat, posts: seq<Post>)
    requires i < |s.blocks| == |t.blocks| && BlockFits(s, b, i)
    requires t.blocks[i] == s.blocks[i] && s.inits == t.inits
    requires forall k :: 0 <= k < |posts| ==> !posts[k].message.Initialize?
    ensures BlockFits(t, Receive(b, i, posts), i)
  {
    ReceiveKeeps(b, i, posts);
  }

  lemma StepKeepsLink(f: Flow, m: Move)
    requires Linked(f) && CanMove(f, m) && m.Step?
    ensures Linked(Moved(f, m))
  {
    var g := Moved(f, m);
    var b, e := m.block, m.event;
    ReportFits(f.net, f.blocks[b], b, e);
    forall i | 0 <= i < |f.blocks| ensures BlockFits(g.net, g.blocks[i], i) {
      if i == b {
        StepFits(f.net, f.blocks[b], b, e);
      } else {
        assert BlockFits(f.net, f.blocks[i], i);
      }
    }
  }

  lemma PostKeepsLink(f: Flow, p: Post)
    requires Linked(f) && Postable(p)
    ensures Linked(Flow(f.net, Deliver(f.blocks, [p]), f.mark))
  {
    forall i | 0 <= i < |f.blocks| ensures BlockFits(f.net, Receive(f.blocks[i], i, [p]), i) {
      OtherFits(f.net, f.net, f.blocks[i], i, [p]);
    }
  }

  /** What a step of the coordinator does not touch. */
  lemma CoordinatedBlocks(s: C.Net)
    requires C.CanCoordinate(s)
    ensures var t := C.Coordinated(s);
            t.blocks == s.blocks && t.ready == s.ready
            && (t.asked == s.asked || (s.phase.Running? && s.active != 0
                                       && t.asked == C.Asks(s.channel[0], |s.blocks|)))
            && t.inits == s.inits + (if s.phase.Sending? && s.inits < |s.blocks| then 1 else 0)
            && (s.phase.Running? && s.telling > 0 ==> t.telling == s.telling - 1 && t.terminated == (s.telling == 1))
            && (s.terminated && s.telling == 0 ==> t.terminated && t.telling == 0)
  {
  }

  /** The coordinator initializes each block once, and in order. */
  lemma OrdersFit(s: C.Net)
    ensures s.phase.Sending? && s.inits < |s.blocks| ==> Orders(s) == [Post(s.inits, B.Initialize)]
    ensures !(s.phase.Sending? && s.inits < |s.blocks|) ==>
              forall k :: 0 <= k < |Orders(s)| ==> !Orders(s)[k].message.Initialize?
  {
  }

  lemma CoordinateKeepsLink(f: Flow)
    requires Linked(f) && CanMove(f, Coordinate)
    ensures Linked(Moved(f, Coordinate))
  {
    var g := Moved(f, Coordinate);
    CoordinatedBlocks(f.net);
    OrdersFit(f.net);
    forall i | 0 <= i < |f.blocks| ensures BlockFits(g.net, g.blocks[i], i) {
      if f.net.phase.Sending? && f.net.inits < |f.blocks| {
        InitializeFits(f.net, g.net, f.blocks[i], i);
      } else {
        OtherFits(f.net, g.net, f.blocks[i], i, Orders(f.net));
      }
    }
  }

  lemma ReplyKeepsLink(f: Flow)
    requires Linked(f) && CanMove(f, Reply)
    ensures Linked(Moved(f, Reply))
  {
    var g := Moved(f, Reply);
    forall i | 0 <= i < |f.blocks| ensures BlockFits(g.net, g.blocks[i], i) {
      OtherFits(f.net, g.net, f.blocks[i], i, Further(f.net));
    }
  }

  lemma InitializeFits(s: C.Net, t: C.Net, b: B.Block, i: nat)
    requires i < |s.blocks| == |t.blocks| && BlockFits(s, b, i) && t.blocks[i] == s.blocks[i] && t.inits == s.inits + 1
    ensures BlockFits(t, Receive(b, i, [Post(s.inits, B.Initialize)]), i)
  {
    ReceiveOne(b, i, Post(s.inits, B.Initialize));
    B.SendKeepsInvariant(b, B.Initialize);
  }

  /** Notify goes out in one phase of the coordinator, Terminate not before the main loop. */
  predicate Prompt(s: C.Net) {
    && s.notifies <= |s.blocks|
    && (C.Early(s) ==> s.notifies == 0)
    && (s.phase.Requeuing? || s.phase.Running? || s.phase.Returned? ==> s.notifies == |s.blocks|)
    && (s.terminated ==> s.phase.Running? || s.phase.Returned?)
  }

  lemma CoordinateKeepsPrompt(s: C.Net)
    requires Prompt(s) && C.CanCoordinate(s)
    ensures Prompt(C.Coordinated(s))
  {
  }

  // ---- what is asked of the blocks

  predicate IsRequest(m: B.Message) {
    m.Callback? || m.BlockDescription?
  }

  /** The request waited for was sent, behind the Initialize of the block. */
  predicate Marked(b: B.Block, mark: nat) {
    mark < |b.sent| && IsRequest(b.sent[mark]) && B.Initialize in b.sent[..mark]
  }

  predicate Questions(f: Flow) {
    f.net.asked != [] ==> f.net.asked[0] < |f.blocks| && Marked(f.blocks[f.net.asked[0]], f.mark)
  }

  /** A request is not lost in the setup of the block: it is handled, in hand, or in the inbox. */
  lemma RequestIsNotDropped(b: B.Block, mark: nat)
    requires B.Invariant(b) && Marked(b, mark)
    ensures |b.ignored| <= mark
    ensures mark >= |b.ignored| + |b.handled| ==> b.sent[mark] in B.InHand(b) + b.queue
  {
    var k :| 0 <= k < mark && b.sent[k] == B.Initialize;
    IgnoredUpTo(b.ignored, b.sent, k);
    var rest := B.InHand(b) + b.queue;
    assert b.sent == (b.ignored + b.handled) + rest;
    if mark >= |b.ignored| + |b.handled| {
      assert b.sent[mark] == rest[mark - |b.ignored + b.handled|];
    }
  }

  lemma IgnoredUpTo(ignored: seq<B.Message>, sent: seq<B.Message>, k: nat)
    requires ignored <= sent && k < |sent| && sent[k] == B.Initialize
    requires ignored != [] ==> B.Initialize !in ignored[..|ignored| - 1]
    ensures |ignored| <= k + 1
  {
    var n := if ignored == [] then 0 else |ignored| - 1;
    assert forall j :: 0 <= j < n ==> ignored[..n][j] == sent[j];
  }

  lemma MarkedStays(b: B.Block, c: B.Block, mark: nat)
    requires Marked(b, mark) && b.sent <= c.sent
    ensures Marked(c, mark)
  {
    assert c.sent[..mark] == b.sent[..mark];
  }

  /** Sent to a block that was sent its Initialize, a request is marked. */
  lemma SentIsMarked(b: B.Block, i: nat, p: Post)
    requires p.to == i && IsRequest(p.message) && B.Initialize in b.sent
    ensures Marked(Receive(b, i, [p]), |b.sent|)
  {
    ReceiveOne(b, i, p);
    assert (b.sent + [p.message])[..|b.sent|] == b.sent;
  }

  lemma AsksArePassed(r: C.Report, n: nat)
    requires C.Asks(r, n) != []
    ensures var to := C.Asks(r, n)[0]; to < n && Passed(r, n) == [Post(to, Passed(r, n)[0].message)]
                                       && IsRequest(Passed(r, n)[0].message) && !r.Terminate?
  {
  }

  lemma CoordinateKeepsQuestions(f: Flow)
    requires Linked(f) && C.Invariant(f.net) && CanMove(f, Coordinate)
    ensures Questions(Moved(f, Coordinate))
  {
    var g := Moved(f, Coordinate);
    CoordinatedBlocks(f.net);
    if g.net.asked != [] {
      AsksArePassed(f.net.channel[0], |f.blocks|);
      var to := g.net.asked[0];
      assert BlockFits(f.net, f.blocks[to], to);
      SentIsMarked(f.blocks[to], to, Orders(f.net)[0]);
    }
  }

  lemma ReplyKeepsQuestions(f: Flow)
    requires Linked(f) && C.Invariant(f.net) && CanMove(f, Reply)
    ensures Questions(Moved(f, Reply))
  {
    if |f.net.asked| > 1 {
      var to := f.net.asked[1];
      assert BlockFits(f.net, f.blocks[to], to);
      SentIsMarked(f.blocks[to], to, Further(f.net)[0]);
    }
  }

  lemma StepKeepsQuestions(f: Flow, m: Move)
    requires Questions(f) && CanMove(f, m) && m.Step?
    ensures Questions(Moved(f, m))
  {
    if f.net.asked != [] {
      var i := f.net.asked[0];
      if i == m.block {
        NextSends(f.blocks[i], m.event);
        MarkedStays(f.blocks[i], Moved(f, m).blocks[i], f.mark);
      }
      StepAsksNothing(f.net, ReportOf(m.block, m.event));
    }
  }

  lemma PostKeepsQuestions(f: Flow, p: Post)
    requires Questions(f)
    ensures Questions(Flow(f.net, Deliver(f.blocks, [p]), f.mark))
  {
    if f.net.asked != [] {
      var i := f.net.asked[0];
      ReceiveSends(f.blocks[i], i, [p]);
      MarkedStays(f.blocks[i], Receive(f.blocks[i], i, [p]), f.mark);
    }
  }

  lemma {:induction false} ReceiveSends(b: B.Block, i: nat, posts: seq<Post>)
    ensures b.sent <= Receive(b, i, posts).sent
  {
    if posts != [] {
      ReceiveSends(b, i, posts[..|posts| - 1]);
    }
  }

  lemma StepAsksNothing(s: C.Net, report: Option<C.Step>)
    requires report.Some? ==> C.Enabled(s, report.value) && !report.value.Coordinate? && !report.value.Reply?
    ensures Heard(s, report).asked == s.asked
  {
  }

  // ---- after Terminate

  /** How many blocks the broadcast has reached. */
  function Told(s: C.Net): int {
    if s.terminated then |s.blocks| else if s.telling > 0 then |s.blocks| - s.telling else 0
  }

  /** A block that the broadcast has reached has Terminate behind its Initialize. */
  predicate Warned(f: Flow) {
    forall i :: 0 <= i < |f.blocks| && i < Told(f.net) ==> f.blocks[i].deadline.Some?
  }

  lemma TerminateReaches(b: B.Block, i: nat)
    requires B.Initialize in b.sent
    ensures Receive(b, i, [Post(i, B.Terminate)]).deadline.Some?
  {
    ReceiveOne(b, i, Post(i, B.Terminate));
  }

  /** The next block is told. */
  lemma TellingWarns(f: Flow)
    requires Linked(f) && C.Invariant(f.net) && Warned(f) && CanMove(f, Coordinate) && f.net.phase.Running?
    requires f.net.telling > 0
    ensures Warned(Moved(f, Coordinate))
  {
    var g := Moved(f, Coordinate);
    var next := |f.blocks| - f.net.telling;
    CoordinatedBlocks(f.net);
    assert Told(g.net) == next + 1;
    forall i | 0 <= i < next + 1 ensures g.blocks[i].deadline.Some? {
      assert BlockFits(f.net, f.blocks[i], i);
      if i == next {
        TerminateReaches(f.blocks[i], i);
      } else {
        ReceiveKeeps(f.blocks[i], i, Orders(f.net));
      }
    }
  }

  lemma StillWarned(f: Flow, m: Move, i: nat)
    requires Linked(f) && CanMove(f, m) && i < |f.blocks| && f.blocks[i].deadline.Some?
    ensures Moved(f, m).blocks[i].deadline.Some?
  {
    var b := f.blocks[i];
    assert BlockFits(f.net, b, i);
    match m
    case Outside(_) =>
    case Coordinate => ReceiveKeeps(b, i, Orders(f.net));
    case Reply => ReceiveKeeps(b, i, Further(f.net));
    case InitPost(_, p) => ReceiveKeeps(b, i, [p]);
    case KernelPost(_, p) => ReceiveKeeps(b, i, [p]);
    case Step(j, e) =>
      if i == j {
        NextSends(b, e);
      }
  }

  lemma MoveKeepsWarned(f: Flow, m: Move)
    requires Linked(f) && C.Invariant(f.net) && Warned(f) && CanMove(f, m)
    ensures Warned(Moved(f, m))
  {
    if m.Coordinate? && f.net.phase.Running? && f.net.telling > 0 {
      TellingWarns(f);
    } else {
      ToldStays(f, m);
      forall i | 0 <= i < |f.blocks| && i < Told(f.net) ensures Moved(f, m).blocks[i].deadline.Some? {
        StillWarned(f, m, i);
      }
    }
  }

  lemma ToldStays(f: Flow, m: Move)
    requires Linked(f) && C.Invariant(f.net) && CanMove(f, m)
    requires !(m.Coordinate? && f.net.phase.Running? && f.net.telling > 0)
    ensures Told(Moved(f, m).net) == Told(f.net)
  {
    match m
    case Step(b, e) => ReportTellsNobody(f.net, ReportOf(b, e));
    case Coordinate => TakingTellsNobody(f.net);
    case _ =>
  }

  lemma TakingTellsNobody(s: C.Net)
    requires C.Invariant(s) && C.CanCoordinate(s) && !(s.phase.Running? && s.telling > 0)
    ensures Told(C.Coordinated(s)) == Told(s)
  {
  }

  lemma ReportTellsNobody(s: C.Net, report: Option<C.Step>)
    requires report.Some? ==> C.Enabled(s, report.value) && !report.value.Coordinate?
    ensures var t := Heard(s, report);
            t.telling == s.telling && t.terminated == s.terminated && |t.blocks| == |s.blocks|
  {
  }

  // ---- every execution

  predicate Sound(f: Flow) {
    Linked(f) && C.Invariant(f.net) && Prompt(f.net) && Questions(f) && Warned(f)
  }

  lemma MoveKeepsSound(f: Flow, m: Move)
    requires Sound(f) && CanMove(f, m)
    ensures Sound(Moved(f, m))
  {
    MoveKeepsWarned(f, m);
    match m
    case Step(b, e) => StepKeepsSound(f, m);
    case InitPost(_, p) => PostKeepsLink(f, p); PostKeepsQuestions(f, p);
    case KernelPost(_, p) => PostKeepsLink(f, p); PostKeepsQuestions(f, p);
    case Outside(r) => C.BlockStepKeeps(f.net, C.Outside(r));
    case Coordinate =>
      CoordinateKeepsLink(f);
      C.CoordinateKeeps(f.net);
      CoordinateKeepsPrompt(f.net);
      CoordinateKeepsQuestions(f);
    case Reply =>
      ReplyKeepsLink(f);
      C.BlockStepKeeps(f.net, C.Reply);
      ReplyKeepsQuestions(f);
  }

  lemma StepKeepsSound(f: Flow, m: Move)
    requires Sound(f) && CanMove(f, m) && m.Step?
    ensures var g := Moved(f, m); Linked(g) && C.Invariant(g.net) && Prompt(g.net) && Questions(g)
  {
    StepKeepsLink(f, m);
    StepKeepsQuestions(f, m);
    ReportKeeps(f.net, ReportOf(m.block, m.event));
  }

  lemma ReportKeeps(s: C.Net, report: Option<C.Step>)
    requires C.Invariant(s) && Prompt(s)
    requires report.Some? ==> C.Enabled(s, report.value) && !report.value.Coordinate? && !report.value.Reply?
    ensures C.Invariant(Heard(s, report)) && Prompt(Heard(s, report))
  {
    if report.Some? {
      C.BlockStepKeeps(s, report.value);
    }
  }

  lemma {:induction false} EveryExecution(f: Flow, moves: seq<Move>)
    requires Sound(f) && IsExecution(f, moves)
    ensures Sound(Execute(f, moves))
    decreases |moves|
  {
    if moves != [] {
      MoveKeepsSound(f, moves[0]);
      EveryExecution(Moved(f, moves[0]), moves[1..]);
    }
  }

  lemma StartOk(n: nat)
    ensures Sound(Begin(n)) && C.Accounted(C.Begin(n))
  {
    StartCounts(n);
    StartLinked(n);
  }

  lemma StartLinked(n: nat)
    ensures Linked(Begin(n)) && |Begin(n).blocks| == n && forall i :: 0 <= i < n ==> Begin(n).blocks[i] == B.FRESH
  {
    B.FreshIsInvariant();
    assert forall i :: 0 <= i < n ==> BlockFits(C.Begin(n), B.FRESH, i);
  }

  lemma StartCounts(n: nat)
    ensures C.Invariant(C.Begin(n)) && C.Accounted(C.Begin(n)) && Prompt(C.Begin(n))
  {
    C.FreshBlocks(n);
  }

  // ---- before the first Notify

  /** What a block can be before it gets a message other than Initialize. */
  predicate Asleep(b: B.Block) {
    && (b.sent == [] || b.sent == [B.Initialize]) && b.handled == [] && b.works == 0
    && b.io == B.WorkIo(false, false, false) && b.peek.None?
    && (B.Early(b) || b.phase.Fetching? || b.phase.Deciding? || b.phase.Parked? || b.phase.Failed?)
  }

  lemma AsleepInbox(b: B.Block)
    requires B.Invariant(b) && Asleep(b) && !B.Early(b) && !b.phase.Failed?
    ensures b.queue == []
  {
    assert B.Initialize in b.ignored;
    assert |b.sent| == |b.ignored| + |b.handled| + |B.InHand(b)| + |b.queue|;
  }

  /** Asleep, a block does not end. Nor does it run a function of its kernel but `init`. */
  lemma AsleepStays(b: B.Block, i: nat, e: B.Event)
    requires B.Invariant(b) && Asleep(b) && B.Enabled(b, e)
    ensures Asleep(B.Next(b, e)) && !InKernel(b)
    ensures ReportOf(i, e).Some? ==> ReportOf(i, e).value.ReportReady? || ReportOf(i, e).value.ReportFailure?
  {
    if !B.Early(b) && !b.phase.Failed? {
      AsleepInbox(b);
      AsleepLoops(b, i, e);
    } else {
      assert b.queue != [] ==> b.queue[0] in b.sent;
      AsleepSetup(b, i, e);
    }
  }

  lemma AsleepLoops(b: B.Block, i: nat, e: B.Event)
    requires Asleep(b) && !B.Early(b) && b.queue == [] && B.Enabled(b, e)
    ensures Asleep(B.Next(b, e)) && ReportOf(i, e).None?
  {
  }

  lemma AsleepSetup(b: B.Block, i: nat, e: B.Event)
    requires Asleep(b) && (B.Early(b) || b.phase.Failed?) && (b.queue != [] ==> b.queue[0].Initialize?)
             && B.Enabled(b, e)
    ensures Asleep(B.Next(b, e))
    ensures ReportOf(i, e).Some? ==> ReportOf(i, e).value.ReportReady? || ReportOf(i, e).value.ReportFailure?
  {
  }

  /** No block has ended after its Initialized while the init loop runs. */
  predicate AnswersOnce(s: C.Net) {
    && s.doubles == 0
    && (C.Early(s) ==> forall b :: b in s.ready ==> b < |s.blocks| && s.blocks[b].Ready?)
  }

  predicate AllAsleep(f: Flow) {
    f.net.notifies == 0 ==> forall i :: 0 <= i < |f.blocks| ==> Asleep(f.blocks[i])
  }

  /** What silent kernels add. */
  predicate Silence(f: Flow) {
    C.Accounted(f.net) && AnswersOnce(f.net) && AllAsleep(f)
  }

  lemma BlockReportKeepsOnce(s: C.Net, step: C.Step)
    requires AnswersOnce(s) && C.Enabled(s, step)
             && (step.ReportReady? || step.ReportFailure? || step.Outside? || step.Reply?)
    ensures AnswersOnce(C.Next(s, step))
  {
  }

  lemma LateReportKeepsOnce(s: C.Net, step: C.Step)
    requires AnswersOnce(s) && C.Enabled(s, step) && !step.Coordinate? && !C.Early(s)
    ensures AnswersOnce(C.Next(s, step))
  {
  }

  lemma CoordinateKeepsOnce(s: C.Net)
    requires AnswersOnce(s) && C.Accounted(s) && C.CanCoordinate(s)
    ensures AnswersOnce(C.Coordinated(s))
  {
    CoordinatedBlocks(s);
    if s.phase.Awaiting? && s.i != 0 && s.channel[0].BlockError? {
      assert s.blocks[s.channel[0].blockId] == C.Over(false);
    }
  }

  lemma NetStepKeeps(s: C.Net, step: C.Step)
    requires C.Invariant(s) && C.Accounted(s) && AnswersOnce(s) && C.Enabled(s, step)
    requires C.Early(s) ==> !step.ReportEnd?
    ensures C.Accounted(C.Next(s, step)) && AnswersOnce(C.Next(s, step))
  {
    C.StepKeepsAccount(s, step);
    if step.Coordinate? {
      CoordinateKeepsOnce(s);
    } else if C.Early(s) {
      BlockReportKeepsOnce(s, step);
    } else {
      LateReportKeepsOnce(s, step);
    }
  }

  lemma StepKeepsSilence(f: Flow, m: Move)
    requires Sound(f) && Silence(f) && CanMove(f, m) && m.Step?
    ensures Silence(Moved(f, m))
  {
    var b, e := m.block, m.event;
    assert BlockFits(f.net, f.blocks[b], b);
    if f.net.notifies == 0 {
      AsleepStays(f.blocks[b], b, e);
    }
    if ReportOf(b, e).Some? {
      NetStepKeeps(f.net, ReportOf(b, e).value);
    }
    assert Moved(f, m).net.notifies == f.net.notifies;
  }

  lemma CoordinateKeepsAsleep(f: Flow)
    requires Sound(f) && Silence(f) && CanMove(f, Coordinate) && Moved(f, Coordinate).net.notifies == 0
    ensures AllAsleep(Moved(f, Coordinate))
  {
    var g := Moved(f, Coordinate);
    var s := f.net;
    if s.phase.Sending? && s.inits < |s.blocks| {
      forall i | 0 <= i < |f.blocks| ensures Asleep(g.blocks[i]) {
        AsleepIsSentOne(s, f.blocks[i], i);
      }
    } else if |f.blocks| > 0 {
      NoOrders(s);
      forall i | 0 <= i < |f.blocks| ensures Asleep(g.blocks[i]) {
        assert g.blocks[i] == f.blocks[i];
      }
    }
  }

  lemma AsleepIsSentOne(s: C.Net, b: B.Block, i: nat)
    requires i < |s.blocks| && BlockFits(s, b, i) && Asleep(b)
    ensures Asleep(Receive(b, i, [Post(s.inits, B.Initialize)]))
  {
    ReceiveOne(b, i, Post(s.inits, B.Initialize));
    assert i == s.inits ==> b.sent == [];
  }

  lemma NoOrders(s: C.Net)
    requires C.Invariant(s) && Prompt(s) && C.CanCoordinate(s) && |s.blocks| > 0
    requires !(s.phase.Sending? && s.inits < |s.blocks|) && C.Coordinated(s).notifies == 0
    ensures Orders(s) == []
  {
  }

  lemma MoveKeepsSilence(f: Flow, m: Move)
    requires Sound(f) && Silence(f) && CanMove(f, m) && Silent(m)
    ensures Silence(Moved(f, m))
  {
    match m
    case Step(_, _) => StepKeepsSilence(f, m);
    case KernelPost(b, _) => assert f.net.notifies == 0 ==> Asleep(f.blocks[b]);
    case Outside(r) => NetStepKeeps(f.net, C.Outside(r));
    case Reply => NetStepKeeps(f.net, C.Reply);
    case Coordinate =>
      NetStepKeeps(f.net, C.Coordinate);
      if Moved(f, m).net.notifies == 0 {
        CoordinateKeepsAsleep(f);
      }
  }

  lemma {:induction false} EverySilentExecution(f: Flow, moves: seq<Move>)
    requires Sound(f) && Silence(f) && IsExecution(f, moves) && AllSilent(moves)
    ensures Sound(Execute(f, moves)) && Silence(Execute(f, moves))
    decreases |moves|
  {
    if moves != [] {
      assert Silent(moves[0]);
      MoveKeepsSound(f, moves[0]);
      MoveKeepsSilence(f, moves[0]);
      EverySilentExecution(Moved(f, moves[0]), moves[1..]);
    }
  }

  /** The init barrier: if no kernel posts while it initializes, no block handles a message or calls work before every
      block is initialized or has failed. */
  lemma NoWorkBeforeAllInits(n: nat, moves: seq<Move>)
    requires IsExecution(Begin(n), moves) && AllSilent(moves)
    ensures var f := Execute(Begin(n), moves);
            (exists i :: 0 <= i < |f.blocks| && (f.blocks[i].works > 0 || f.blocks[i].handled != []))
            ==> forall i :: 0 <= i < |f.blocks| ==> !B.Early(f.blocks[i])
  {
    StartOk(n);
    EverySilentExecution(Begin(n), moves);
    var f := Execute(Begin(n), moves);
    AwakeMeansInitialized(f);
    if i :| 0 <= i < |f.blocks| && (f.blocks[i].works > 0 || f.blocks[i].handled != []) {
      assert !Asleep(f.blocks[i]);
    }
  }

  lemma AwakeMeansInitialized(f: Flow)
    requires Sound(f) && Silence(f)
    ensures !C.Early(f.net) ==> forall i :: 0 <= i < |f.blocks| ==> !B.Early(f.blocks[i])
    ensures (exists i :: 0 <= i < |f.blocks| && !Asleep(f.blocks[i])) ==> !C.Early(f.net)
  {
    if !C.Early(f.net) {
      forall i | 0 <= i < |f.blocks| ensures !B.Early(f.blocks[i]) {
        assert BlockFits(f.net, f.blocks[i], i) && !f.net.blocks[i].Fresh?;
      }
    }
  }

  /** What the pipeline of Pipeline assumes of its coordinator: it sends Notify only when no block is in its setup. */
  lemma NotifyFindsNoneInSetup(n: nat, moves: seq<Move>)
    requires IsExecution(Begin(n), moves) && AllSilent(moves)
    ensures var f := Execute(Begin(n), moves);
            !C.Early(f.net) ==> f.net.inits == |f.blocks| && forall i :: 0 <= i < |f.blocks| ==> !B.Early(f.blocks[i])
  {
    StartOk(n);
    EverySilentExecution(Begin(n), moves);
    AwakeMeansInitialized(Execute(Begin(n), moves));
  }
}
