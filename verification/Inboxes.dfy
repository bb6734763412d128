/** Who gets what: in every execution of a flowgraph (src/runtime/runtime.rs) each message sent to a block is accounted
    for, one by one, to the coordinator's own rounds, to a request from outside, or to the post of a kernel. */
module Inboxes {
  import B = BlockLoop
  import C = Coordinator
  import opened Runtime

  /** How often kernels have posted p. */
  function Posted(moves: seq<Move>, p: Post): nat {
    if moves == [] then 0
    else
      var first := moves[0];
      (if (first.InitPost? || first.KernelPost?) && first.post == p then 1 else 0) + Posted(moves[1..], p)
  }

  function Count<T(==)>(s: seq<T>, x: T): nat {
    if s == [] then 0 else Count(s[..|s| - 1], x) + if s[|s| - 1] == x then 1 else 0
  }

  lemma CountSnoc<T>(s: seq<T>, y: T, x: T)
    ensures Count(s + [y], x) == Count(s, x) + if y == x then 1 else 0
  {
    assert (s + [y])[..|s|] == s;
  }

  lemma {:induction false} CountUncons<T>(s: seq<T>, x: T)
    requires s != []
    ensures Count(s, x) == Count(s[1..], x) + if s[0] == x then 1 else 0
  {
    if |s| > 1 {
      CountUncons(s[..|s| - 1], x);
      assert s[1..][..|s| - 2] == s[..|s| - 1][1..];
    }
  }

  /** How often a request waits for the coordinator, in its channel or put aside by the init loop. */
  function Waiting(s: C.Net, r: C.Report): nat {
    Count(s.channel, r) + Count(s.queue, r)
  }

  /** How often block i is still to be asked in the request in hand. */
  function ToAsk(s: C.Net, i: nat): nat {
    if s.asked == [] then 0 else Count(s.asked[1..], i)
  }

  // ---- the account of one block and one message

  /** What block i has got of m, and what it will get of what has been asked for; less what the coordinator's own rounds
      have brought. */
  function Balance(f: Flow, i: nat, m: B.Message): int
    requires i < |f.blocks|
  {
    Count(f.blocks[i].sent, m) + Due(f.net, i, m)
  }

  function Due(s: C.Net, i: nat, m: B.Message): int {
    match m
    case Initialize => if i < s.inits then -1 else 0
    case Notify => if i < s.notifies then -1 else 0
    case Terminate => if i < Told(s) then -1 else 0
    case Call(port, data) => Waiting(s, C.BlockCall(i, port, data))
    case Callback(port, data) => Waiting(s, C.BlockCallback(i, port, data))
    case BlockDescription => Waiting(s, C.BlockDescription(i)) + Waiting(s, C.FlowgraphDescription) + ToAsk(s, i)
    case _ => 0
  }

  /** What a request from outside asks of block i. */
  function Wanted(r: C.Report, i: nat, m: B.Message): nat {
    match m
    case Call(port, data) => if r == C.BlockCall(i, port, data) then 1 else 0
    case Callback(port, data) => if r == C.BlockCallback(i, port, data) then 1 else 0
    case BlockDescription => if r == C.BlockDescription(i) || r == C.FlowgraphDescription then 1 else 0
    case _ => 0
  }

  /** What a move adds to the account. */
  function Added(move: Move, i: nat, m: B.Message): nat {
    match move
    case InitPost(_, p) => if p == Post(i, m) then 1 else 0
    case KernelPost(_, p) => if p == Post(i, m) then 1 else 0
    case Outside(r) => Wanted(r, i, m)
    case _ => 0
  }

  function AllAdded(moves: seq<Move>, i: nat, m: B.Message): nat {
    if moves == [] then 0 else Added(moves[0], i, m) + AllAdded(moves[1..], i, m)
  }

  // ---- no move upsets it

  lemma ReceiveCounts(b: B.Block, i: nat, posts: seq<Post>, m: B.Message)
    requires |posts| <= 1
    ensures Count(Receive(b, i, posts).sent, m) == Count(b.sent, m) + Count(posts, Post(i, m))
  {
    if posts != [] {
      assert posts == [posts[0]] && posts[..0] == [];
      ReceiveOne(b, i, posts[0]);
      CountSnoc(b.sent, posts[0].message, m);
    }
  }

  /** The report of a block is no request. */
  lemma ReportIsNotDue(s: C.Net, report: C.Step, i: nat, m: B.Message)
    requires C.Enabled(s, report) && (report.ReportReady? || report.ReportFailure? || report.ReportEnd?)
    ensures Due(C.Next(s, report), i, m) == Due(s, i, m)
  {
    var t := C.Next(s, report);
    var last := t.channel[|s.channel|];
    assert t.channel == s.channel + [last] && !C.FromOutside(last);
    forall r | C.FromOutside(r) ensures Waiting(t, r) == Waiting(s, r) {
      CountSnoc(s.channel, last, r);
    }
  }

  lemma StepBalances(f: Flow, move: Move, i: nat, m: B.Message)
    requires i < |f.blocks| && CanMove(f, move) && move.Step?
    ensures Balance(Moved(f, move), i, m) == Balance(f, i, m)
  {
    var report := ReportOf(move.block, move.event);
    if report.Some? {
      ReportIsNotDue(f.net, report.value, i, m);
    }
    NextSends(f.blocks[move.block], move.event);
  }

  lemma OutsideBalances(f: Flow, r: C.Report, i: nat, m: B.Message)
    requires i < |f.blocks| && CanMove(f, Outside(r))
    ensures Balance(Moved(f, Outside(r)), i, m) == Balance(f, i, m) + Wanted(r, i, m)
  {
    forall q ensures Count(f.net.channel + [r], q) == Count(f.net.channel, q) + if r == q then 1 else 0 {
      CountSnoc(f.net.channel, r, q);
    }
  }

  /** Where the coordinator takes a message of its main loop. */
  predicate Takes(s: C.Net) {
    s.phase.Running? && s.telling == 0 && s.active != 0
  }

  /** What a step of the coordinator does to its channel and to what is put aside. */
  lemma Handed(s: C.Net)
    requires C.CanCoordinate(s)
    ensures Takes(s) ==> var t := C.Coordinated(s);
            s.channel != [] && t.queue == s.queue
            && (t.channel == s.channel[1..] || t.channel == s.channel[1..] + [C.Terminate])
    ensures !Takes(s) ==> var t := C.Coordinated(s);
            || (t.channel == s.channel && t.queue == s.queue)
            || (s.channel != [] && t.channel == s.channel[1..] && t.queue == s.queue && !C.FromOutside(s.channel[0]))
            || (s.channel != [] && t.channel == s.channel[1..] && t.queue == s.queue + [s.channel[0]])
            || (s.queue != [] && t.channel == s.channel + [s.queue[0]] && t.queue == s.queue[1..])
            || (t.channel == s.channel + [C.Terminate] && t.queue == s.queue)
  {
  }

  lemma TakenFromWaiting(s: C.Net, r: C.Report)
    requires C.CanCoordinate(s) && C.FromOutside(r) && !r.Terminate?
    ensures Waiting(C.Coordinated(s), r) + (if Takes(s) && s.channel[0] == r then 1 else 0) == Waiting(s, r)
  {
    Handed(s);
    if s.channel != [] {
      CountUncons(s.channel, r);
      CountSnoc(s.queue, s.channel[0], r);
      CountSnoc(s.channel[1..], C.Terminate, r);
    }
    if s.queue != [] {
      CountUncons(s.queue, r);
      CountSnoc(s.channel, s.queue[0], r);
    }
    CountSnoc(s.channel, C.Terminate, r);
  }

  function Numbers(n: nat): seq<nat> {
    seq(n, k requires 0 <= k < n => k)
  }

  lemma {:induction false} NumbersOnce(n: nat, i: nat)
    ensures Count(Numbers(n), i) == if i < n then 1 else 0
  {
    if n > 0 {
      assert Numbers(n)[..n - 1] == Numbers(n - 1);
      NumbersOnce(n - 1, i);
    }
  }

  lemma CountOne<T>(y: T, x: T)
    ensures Count([y], x) == if y == x then 1 else 0
  {
    assert [y][..0] == [];
  }

  /** A request that is taken goes to its block, or to the first of all. */
  lemma PassedOrToAsk(r: C.Report, n: nat, i: nat, m: B.Message)
    requires i < n
    ensures var asked := C.Asks(r, n);
            Count(Passed(r, n), Post(i, m)) + (if m.BlockDescription? && asked != [] then Count(asked[1..], i) else 0)
            == Wanted(r, i, m)
  {
    var asked := C.Asks(r, n);
    if r.FlowgraphDescription? {
      assert asked == Numbers(n);
      NumbersOnce(n, i);
      CountUncons(asked, i);
    }
    forall p ensures Count([p], Post(i, m)) == if p == Post(i, m) then 1 else 0 {
      CountOne(p, Post(i, m));
    }
  }

  predicate OfARound(m: B.Message) {
    m.Initialize? || m.Notify? || m.Terminate?
  }

  /** What the rounds send, and how far they are behind it. */
  lemma RoundStep(s: C.Net)
    requires C.CanCoordinate(s)
    ensures var t := C.Coordinated(s);
            && t.inits == s.inits + (if Orders(s) == [Post(s.inits, B.Initialize)] then 1 else 0)
            && t.notifies == s.notifies + (if Orders(s) == [Post(s.notifies, B.Notify)] then 1 else 0)
    ensures forall k :: 0 <= k < |Orders(s)| ==>
              && (Orders(s)[k].message.Initialize? ==> Orders(s) == [Post(s.inits, B.Initialize)])
              && (Orders(s)[k].message.Notify? ==> Orders(s) == [Post(s.notifies, B.Notify)])
  {
  }

  lemma TellStep(s: C.Net)
    requires C.Invariant(s) && C.CanCoordinate(s)
    ensures if s.telling > 0
            then 0 <= Told(s) < |s.blocks| && Orders(s) == [Post(Told(s), B.Terminate)]
                 && Told(C.Coordinated(s)) == Told(s) + 1
            else Told(C.Coordinated(s)) == Told(s)
                 && forall k :: 0 <= k < |Orders(s)| ==> !Orders(s)[k].message.Terminate?
  {
    if !s.phase.Running? {
      assert s.telling == 0;
    }
  }

  /** The rounds of the coordinator reach one block after the other. */
  lemma RoundsBalance(s: C.Net, i: nat, m: B.Message)
    requires C.Invariant(s) && C.CanCoordinate(s) && i < |s.blocks| && OfARound(m)
    ensures Count(Orders(s), Post(i, m)) + Due(C.Coordinated(s), i, m) == Due(s, i, m)
  {
    OneOrder(s);
    RoundStep(s);
    TellStep(s);
    if Orders(s) != [] {
      assert Orders(s) == [Orders(s)[0]];
      CountOne(Orders(s)[0], Post(i, m));
    }
  }

  /** What the coordinator asks next of the blocks. */
  lemma AskedNext(s: C.Net)
    requires C.CanCoordinate(s)
    ensures Takes(s) ==> s.asked == [] && C.Coordinated(s).asked == C.Asks(s.channel[0], |s.blocks|)
    ensures Takes(s) ==> Orders(s) == Passed(s.channel[0], |s.blocks|)
    ensures !Takes(s) ==> C.Coordinated(s).asked == s.asked
    ensures !Takes(s) && Orders(s) != [] ==> |Orders(s)| == 1 && OfARound(Orders(s)[0].message)
  {
  }

  lemma RequestsBalance(s: C.Net, i: nat, m: B.Message)
    requires C.CanCoordinate(s) && i < |s.blocks| && !OfARound(m)
    ensures Count(Orders(s), Post(i, m)) + Due(C.Coordinated(s), i, m) == Due(s, i, m)
  {
    AskedNext(s);
    match m {
      case Call(port, data) => TakenFromWaiting(s, C.BlockCall(i, port, data));
      case Callback(port, data) => TakenFromWaiting(s, C.BlockCallback(i, port, data));
      case BlockDescription =>
        TakenFromWaiting(s, C.BlockDescription(i));
        TakenFromWaiting(s, C.FlowgraphDescription);
      case _ =>
    }
    if Takes(s) {
      PassedOrToAsk(s.channel[0], |s.blocks|, i, m);
    } else if Orders(s) != [] {
      CountOne(Orders(s)[0], Post(i, m));
      assert Orders(s) == [Orders(s)[0]];
    }
  }

  lemma OneOrder(s: C.Net)
    ensures |Orders(s)| <= 1
  {
  }

  lemma CoordinateBalances(f: Flow, i: nat, m: B.Message)
    requires Linked(f) && C.Invariant(f.net) && i < |f.blocks| && CanMove(f, Coordinate)
    ensures Balance(Moved(f, Coordinate), i, m) == Balance(f, i, m)
  {
    if OfARound(m) {
      RoundsBalance(f.net, i, m);
    } else {
      RequestsBalance(f.net, i, m);
    }
    OneOrder(f.net);
    ReceiveCounts(f.blocks[i], i, Orders(f.net), m);
  }

  lemma ReplyBalances(f: Flow, i: nat, m: B.Message)
    requires i < |f.blocks| && CanMove(f, Reply)
    ensures Balance(Moved(f, Reply), i, m) == Balance(f, i, m)
  {
    ReceiveCounts(f.blocks[i], i, Further(f.net), m);
    var asked := f.net.asked;
    if |asked| > 1 {
      CountUncons(asked[1..], i);
      CountOne(Post(asked[1], B.BlockDescription), Post(i, m));
    }
  }

  lemma PostBalances(f: Flow, p: Post, i: nat, m: B.Message)
    requires i < |f.blocks|
    ensures Balance(Flow(f.net, Deliver(f.blocks, [p]), f.mark), i, m)
         == Balance(f, i, m) + if p == Post(i, m) then 1 else 0
  {
    ReceiveCounts(f.blocks[i], i, [p], m);
    CountOne(p, Post(i, m));
  }

  lemma MoveBalances(f: Flow, move: Move, i: nat, m: B.Message)
    requires Sound(f) && i < |f.blocks| && CanMove(f, move)
    ensures |Moved(f, move).blocks| == |f.blocks|
    ensures Balance(Moved(f, move), i, m) == Balance(f, i, m) + Added(move, i, m)
  {
    match move
    case Step(_, _) => StepBalances(f, move, i, m);
    case InitPost(_, p) => PostBalances(f, p, i, m);
    case KernelPost(_, p) => PostBalances(f, p, i, m);
    case Outside(r) => OutsideBalances(f, r, i, m);
    case Coordinate => CoordinateBalances(f, i, m);
    case Reply => ReplyBalances(f, i, m);
  }

  lemma {:induction false} EveryExecutionBalances(f: Flow, moves: seq<Move>, i: nat, m: B.Message)
    requires Sound(f) && i < |f.blocks| && IsExecution(f, moves)
    ensures Sound(Execute(f, moves)) && |Execute(f, moves).blocks| == |f.blocks|
    ensures Balance(Execute(f, moves), i, m) == Balance(f, i, m) + AllAdded(moves, i, m)
    decreases |moves|
  {
    if moves != [] {
      MoveKeepsSound(f, moves[0]);
      MoveBalances(f, moves[0], i, m);
      EveryExecutionBalances(Moved(f, moves[0]), moves[1..], i, m);
    }
  }

  // ---- from the start

  lemma {:induction false} AddedIsPosted(f: Flow, moves: seq<Move>, i: nat, m: B.Message)
    requires IsExecution(f, moves)
    ensures AllAdded(moves, i, m) == Posted(moves, Post(i, m)) + AllWanted(moves, i, m)
    ensures m.Initialize? || m.Terminate? ==> Posted(moves, Post(i, m)) == 0
    decreases |moves|
  {
    if moves != [] {
      AddedIsPosted(Moved(f, moves[0]), moves[1..], i, m);
    }
  }

  function AllWanted(moves: seq<Move>, i: nat, m: B.Message): nat {
    if moves == [] then 0
    else (if moves[0].Outside? then Wanted(moves[0].report, i, m) else 0) + AllWanted(moves[1..], i, m)
  }

  lemma {:induction false} WantedIs(moves: seq<Move>, i: nat, m: B.Message)
    ensures AllWanted(moves, i, m) ==
            match m
            case Call(port, data) => Count(moves, Outside(C.BlockCall(i, port, data)))
            case Callback(port, data) => Count(moves, Outside(C.BlockCallback(i, port, data)))
            case BlockDescription =>
              Count(moves, Outside(C.BlockDescription(i))) + Count(moves, Outside(C.FlowgraphDescription))
            case _ => 0
  {
    if moves != [] {
      WantedIs(moves[1..], i, m);
      forall x ensures Count(moves, x) == Count(moves[1..], x) + if moves[0] == x then 1 else 0 {
        CountUncons(moves, x);
      }
    }
  }

  lemma NothingYet(n: nat, i: nat, m: B.Message)
    requires i < n
    ensures |Begin(n).blocks| == n && Balance(Begin(n), i, m) == 0
  {
  }

  lemma AccountOf(n: nat, moves: seq<Move>, i: nat, m: B.Message)
    requires i < n && IsExecution(Begin(n), moves)
    ensures Sound(Execute(Begin(n), moves)) && |Execute(Begin(n), moves).blocks| == n
    ensures Balance(Execute(Begin(n), moves), i, m) == Posted(moves, Post(i, m)) + AllWanted(moves, i, m)
    ensures OfARound(m) ==> AllWanted(moves, i, m) == 0
    ensures m.Initialize? || m.Terminate? ==> Posted(moves, Post(i, m)) == 0
  {
    StartOk(n);
    NothingYet(n, i, m);
    WantedIs(moves, i, m);
    EveryExecutionBalances(Begin(n), moves, i, m);
    AddedIsPosted(Begin(n), moves, i, m);
  }

  lemma RoundsOf(n: nat, moves: seq<Move>, i: nat)
    requires i < n && IsExecution(Begin(n), moves) && |Execute(Begin(n), moves).blocks| == n
    ensures Prompt(Execute(Begin(n), moves).net) && C.Invariant(Execute(Begin(n), moves).net)
    ensures var net, sent := Execute(Begin(n), moves).net, Execute(Begin(n), moves).blocks[i].sent;
            && |net.blocks| == n
            && Count(sent, B.Initialize) == (if i < net.inits then 1 else 0)
            && Count(sent, B.Notify) == (if i < net.notifies then 1 else 0) + Posted(moves, Post(i, B.Notify))
            && Count(sent, B.Terminate) == (if i < Told(net) then 1 else 0)
  {
    AccountOf(n, moves, i, B.Initialize);
    AccountOf(n, moves, i, B.Notify);
    AccountOf(n, moves, i, B.Terminate);
  }

  /** In every execution the inbox of block i has been sent one Initialize, one Notify and one Terminate, once the
      coordinator's round has come to it; every call, callback and description asked for from outside for this very
      block, with its own port and data, unless it still waits for the coordinator; and what kernels have posted to it.
      That is all, and in the main loop every block has been notified. */
  lemma EveryInboxGetsItsOwn(n: nat, moves: seq<Move>, i: nat)
    requires i < n && IsExecution(Begin(n), moves)
    ensures |Execute(Begin(n), moves).blocks| == n
    ensures var net, sent := Execute(Begin(n), moves).net, Execute(Begin(n), moves).blocks[i].sent;
            && Count(sent, B.Initialize) == (if i < net.inits then 1 else 0)
            && Count(sent, B.Notify) == (if i < net.notifies then 1 else 0) + Posted(moves, Post(i, B.Notify))
            && Count(sent, B.Terminate) == (if net.terminated || (net.telling > 0 && i < n - net.telling) then 1 else 0)
            && (net.phase.Running? ==> net.notifies == n)
    ensures var net, sent := Execute(Begin(n), moves).net, Execute(Begin(n), moves).blocks[i].sent;
            && (forall port, data ::
                  Count(sent, B.Call(port, data)) + Waiting(net, C.BlockCall(i, port, data)) ==
                  Count(moves, Outside(C.BlockCall(i, port, data))) + Posted(moves, Post(i, B.Call(port, data))))
            && (forall port, data ::
                  Count(sent, B.Callback(port, data)) + Waiting(net, C.BlockCallback(i, port, data)) ==
                  Count(moves, Outside(C.BlockCallback(i, port, data)))
                  + Posted(moves, Post(i, B.Callback(port, data))))
            && Count(sent, B.BlockDescription) + Waiting(net, C.BlockDescription(i))
               + Waiting(net, C.FlowgraphDescription) + ToAsk(net, i)
               == Count(moves, Outside(C.BlockDescription(i))) + Count(moves, Outside(C.FlowgraphDescription))
                  + Posted(moves, Post(i, B.BlockDescription))
    ensures forall m: B.Message :: m.StreamInputDone? || m.StreamOutputDone? ==>
              Count(Execute(Begin(n), moves).blocks[i].sent, m) == Posted(moves, Post(i, m))
  {
    AccountOf(n, moves, i, B.BlockDescription);
    WantedIs(moves, i, B.BlockDescription);
    RoundsOf(n, moves, i);
    forall m: B.Message | m.StreamInputDone? || m.StreamOutputDone?
      ensures Count(Execute(Begin(n), moves).blocks[i].sent, m) == Posted(moves, Post(i, m))
    {
      AccountOf(n, moves, i, m);
      WantedIs(moves, i, m);
    }
    forall port, data
      ensures Count(Execute(Begin(n), moves).blocks[i].sent, B.Call(port, data))
              + Waiting(Execute(Begin(n), moves).net, C.BlockCall(i, port, data))
           == Count(moves, Outside(C.BlockCall(i, port, data))) + Posted(moves, Post(i, B.Call(port, data)))
    {
      AccountOf(n, moves, i, B.Call(port, data));
      WantedIs(moves, i, B.Call(port, data));
    }
    forall port, data
      ensures Count(Execute(Begin(n), moves).blocks[i].sent, B.Callback(port, data))
              + Waiting(Execute(Begin(n), moves).net, C.BlockCallback(i, port, data))
           == Count(moves, Outside(C.BlockCallback(i, port, data))) + Posted(moves, Post(i, B.Callback(port, data)))
    {
      AccountOf(n, moves, i, B.Callback(port, data));
      WantedIs(moves, i, B.Callback(port, data));
    }
  }
}
