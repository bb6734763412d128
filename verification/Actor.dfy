/** `WrappedKernel::run_impl` in its own imperative form. Every pass through its loop is a run of the step system of
    BlockLoop; here nothing arrives between two awaits of one pass, there sends interleave everywhere. */
module Actor {
  import opened Wrappers
  import opened BlockLoop

  /** What a kernel function leaves behind. */
  datatype Reaction<K> = Reaction(kernel: K, io: WorkIo, ok: bool)

  datatype Outcome = Again | Blocked | Stopped | Broken

  lemma {:induction false} RunSnoc(b: Block, actions: seq<Action>, a: Action)
    requires IsRun(b, actions) && Allowed(Run(b, actions), a)
    ensures IsRun(b, actions + [a]) && Run(b, actions + [a]) == Act(Run(b, actions), a)
    decreases |actions|
  {
    if actions == [] {
      assert ([] + [a])[1..] == [];
    } else {
      assert (actions + [a])[1..] == actions[1..] + [a];
      RunSnoc(Act(b, actions[0]), actions[1..], a);
    }
  }

  /** What the drain loop still has to handle. */
  function Todo(b: Block): seq<Message> {
    InHand(b) + b.queue
  }

  class WrappedKernel<K(!new)> {
    const callHandler: (K, WorkIo, Message) -> Reaction<K>
    const streamInputFinish: (K, Message) -> Reaction<K>
    const callWork: (K, WorkIo) -> Reaction<K>
    const callDeinit: K -> bool
    var kernel: K
    var io: WorkIo
    var peek: Option<Message>
    var inbox: seq<Message>
    var future: bool   // the future the loop has taken out of `io` while it waits
    ghost var state: Block
    ghost var trace: seq<Action>

    ghost predicate Valid()
      reads this
    {
      && io == state.io && peek == state.peek && inbox == state.queue
      && (future <==> state.phase.Selecting?)
      && IsRun(FRESH, trace) && state == Run(FRESH, trace)
      && (peek.Some? ==> state.phase.Fetching?)
      && KernelsKeep()
    }

    /** No kernel function takes `finished` back. */
    ghost predicate KernelsKeep()
    {
      && (forall k, w, m :: Keeps(w, callHandler(k, w, m).io))
      && (forall k, w :: Keeps(w, callWork(k, w).io))
    }

    constructor (kernel: K, callHandler: (K, WorkIo, Message) -> Reaction<K>,
                 streamInputFinish: (K, Message) -> Reaction<K>,
                 callWork: (K, WorkIo) -> Reaction<K>, callDeinit: K -> bool)
      requires forall k, w, m :: Keeps(w, callHandler(k, w, m).io)
      requires forall k, w :: Keeps(w, callWork(k, w).io)
      ensures Valid() && trace == [] && state == FRESH
    {
      this.callHandler, this.streamInputFinish, this.callWork := callHandler, streamInputFinish, callWork;
      this.callDeinit, this.kernel := callDeinit, kernel;
      io, peek, inbox, future := WorkIo(false, false, false), None, [], false;
      state, trace := FRESH, [];
    }

    /** What one message makes of the kernel and its `WorkIo`. */
    function Reacts(k: K, w: WorkIo, m: Message): Reaction<K> {
      var r := match m
        case Call(_, _) => callHandler(k, w, m)
        case Callback(_, _) => callHandler(k, w, m)
        case StreamInputDone(_) => streamInputFinish(k, m).(io := w)
        case StreamOutputDone(_) => Reaction(k, w.(finished := true), true)
        case Terminate => Reaction(k, w.(finished := true), true)
        case _ => Reaction(k, w, true);
      if r.ok then r.(io := r.io.(callAgain := true)) else r
    }

    /** What messages make of it one after the other, up to the first that fails. */
    function Served(k: K, w: WorkIo, ms: seq<Message>): Reaction<K>
      decreases |ms|
    {
      if ms == [] then Reaction(k, w, true)
      else
        var r := Reacts(k, w, ms[0]);
        if r.ok then Served(r.kernel, r.io, ms[1..]) else r
    }

    /** The flags after messages have been handled. */
    lemma {:induction false} ServedFlags(k: K, w: WorkIo, ms: seq<Message>)
      requires KernelsKeep() && Served(k, w, ms).ok
      ensures ms == [] ==> Served(k, w, ms).io == w
      ensures ms != [] || w.callAgain ==> Served(k, w, ms).io.callAgain
      ensures w.finished || Terminate in ms ==> Served(k, w, ms).io.finished
      decreases |ms|
    {
      if ms != [] {
        var r := Reacts(k, w, ms[0]);
        assert Keeps(w, callHandler(k, w, ms[0]).io);
        ServedFlags(r.kernel, r.io, ms[1..]);
        assert ms == [ms[0]] + ms[1..];
      }
    }

    ghost method Record(a: Action)
      requires IsRun(FRESH, trace) && state == Run(FRESH, trace) && Allowed(state, a)
      modifies this`state, this`trace
      ensures trace == old(trace) + [a] && state == Act(old(state), a)
      ensures IsRun(FRESH, trace) && state == Run(FRESH, trace)
    {
      RunSnoc(FRESH, trace, a);
      trace, state := trace + [a], Act(state, a);
    }

    /** A send from another actor. */
    method Deliver(m: Message)
      requires Valid()
      modifies this`inbox, this`state, this`trace
      ensures Valid() && inbox == old(inbox) + [m] && trace == old(trace) + [Arrive(m)] && state == Send(old(state), m)
    {
      Record(Arrive(m));
      inbox := inbox + [m];
    }

    /** One turn of the drain loop's match: a call or callback runs the kernel's handler, the end of an input its
        `stream_input_finish`, and nothing else touches the kernel. */
    method Handle(m: Message) returns (ok: bool)
      requires Valid() && state.phase == Handling(m)
      modifies this`kernel, this`io, this`state, this`trace
      ensures ok ==> exists w :: Enabled(old(state), HandleOk(w)) && trace == old(trace) + [Own(HandleOk(w))]
                                 && state == Next(old(state), HandleOk(w))
      ensures !ok ==>
              Enabled(old(state), HandleErr) && state == Next(old(state), HandleErr)
              && trace == old(trace) + [Own(HandleErr)]
      ensures ok ==> io == state.io && io.callAgain
      ensures m.Call? || m.Callback? ==>
                var r := callHandler(old(kernel), old(io), m);
                kernel == r.kernel && ok == r.ok && io == (if ok then r.io.(callAgain := true) else r.io)
      ensures m.StreamInputDone? ==>
                var r := streamInputFinish(old(kernel), m);
                kernel == r.kernel && ok == r.ok && io == (if ok then old(io).(callAgain := true) else old(io))
      ensures !m.Call? && !m.Callback? && !m.StreamInputDone? ==>
                ok && kernel == old(kernel)
                && io == old(io).(callAgain := true,
                                  finished := old(io).finished || m.Terminate? || m.StreamOutputDone?)
      ensures Reaction(kernel, io, ok) == Reacts(old(kernel), old(io), m)
      ensures IsRun(FRESH, trace) && state == Run(FRESH, trace)
    {
      ghost var w := io;
      ok := true;
      match m {
        case Notify =>
        case Initialize =>
        case BlockDescription =>
        case StreamInputDone(_) =>
          var r := streamInputFinish(kernel, m);
          kernel, ok := r.kernel, r.ok;
        case StreamOutputDone(_) => io := io.(finished := true);
        case Call(_, _) =>
          var r := callHandler(kernel, io, m);
          kernel, io, ok := r.kernel, r.io, r.ok;
          w := io;
        case Callback(_, _) =>
          var r := callHandler(kernel, io, m);
          kernel, io, ok := r.kernel, r.io, r.ok;
          w := io;
        case Terminate => io := io.(finished := true);
      }
      if !ok {
        Record(Own(HandleErr));
        return;
      }
      Record(Own(HandleOk(w)));
      io := io.(callAgain := true);
    }

    /** The drain loop: every message in hand or in the inbox is handled, in order, before anything else happens, and
        the kernel is what the handlers make of it one after the other. */
    method Drain() returns (ok: bool)
      requires Valid() && state.phase.Fetching?
      modifies this`kernel, this`io, this`peek, this`inbox, this`state, this`trace
      ensures old(trace) <= trace && IsRun(FRESH, trace) && state == Run(FRESH, trace)
      ensures ok ==> Valid() && state.phase.Deciding? && inbox == []
      ensures Reaction(kernel, io, ok) == Served(old(kernel), old(io), old(Todo(state)))
      ensures ok ==> state.handled == old(state.handled) + old(Todo(state))
      ensures ok ==> state.works == old(state.works)
      ensures ok && old(Todo(state)) == [] ==> io == old(io)
      ensures ok && old(Todo(state)) != [] ==> io.callAgain
      ensures ok && Terminate in old(Todo(state)) ==> io.finished
      ensures !ok ==> state.phase.Failed?
    {
      ghost var k, w, todo := kernel, io, Todo(state);
      var msg := First();
      ok := DrainFrom(msg, k, w, todo);
      if ok {
        ServedFlags(k, w, todo);
      }
    }

    /** What is in hand and queued is still to be served. */
    ghost predicate Draining(msg: Option<Message>, k: K, w: WorkIo, todo: seq<Message>)
      reads this
    {
      && Valid() && Served(k, w, todo) == Served(kernel, io, Todo(state))
      && if msg.Some? then state.phase == Handling(msg.value) else state.phase.Deciding? && inbox == []
    }

    /** The loop itself. */
    method DrainFrom(first: Option<Message>, ghost k: K, ghost w: WorkIo, ghost todo: seq<Message>) returns (ok: bool)
      requires Draining(first, k, w, todo)
      modifies this`kernel, this`io, this`inbox, this`state, this`trace
      ensures old(trace) <= trace && IsRun(FRESH, trace) && state == Run(FRESH, trace)
      ensures Reaction(kernel, io, ok) == Served(k, w, todo)
      ensures if ok then Valid() && state.phase.Deciding? && inbox == [] else state.phase.Failed?
      ensures ok ==> state.handled == old(state.handled) + old(Todo(state)) && state.works == old(state.works)
    {
      ghost var start, done: seq<Message> := Todo(state), [];
      var msg := first;
      while msg.Some?
        invariant old(trace) <= trace && Draining(msg, k, w, todo) && state.works == old(state.works)
        invariant state.handled == old(state.handled) + done && done + Todo(state) == start
        decreases |Todo(state)|
      {
        ghost var m, rest := msg.value, state.queue;
        assert Todo(state) == [m] + rest;
        ok, msg := DrainOne(msg.value, k, w, todo);
        if !ok {
          return;
        }
        assert done + ([m] + rest) == (done + [m]) + rest;
        done := done + [m];
      }
      assert Todo(state) == [];
      ok := true;
    }

    /** `peek.take().or_else(|| inbox.try_recv().ok())` */
    method First() returns (msg: Option<Message>)
      requires Valid() && state.phase.Fetching?
      modifies this`peek, this`inbox, this`state, this`trace
      ensures Valid() && old(trace) <= trace && state.handled == old(state.handled) && state.works == old(state.works)
      ensures Todo(state) == old(Todo(state))
      ensures if msg.Some? then state.phase == Handling(msg.value) else state.phase.Deciding? && inbox == []
    {
      Record(Own(Fetch));
      if peek.Some? {
        msg, peek := peek, None;
      } else {
        msg := TryRecv();
      }
    }

    /** The body of the drain loop. */
    method DrainOne(m: Message, ghost k: K, ghost w: WorkIo, ghost todo: seq<Message>)
      returns (ok: bool, msg: Option<Message>)
      requires Draining(Some(m), k, w, todo)
      modifies this`kernel, this`io, this`inbox, this`state, this`trace
      ensures old(trace) <= trace && IsRun(FRESH, trace) && state == Run(FRESH, trace)
      ensures ok ==> Draining(msg, k, w, todo)
      ensures ok ==> state.handled == old(state.handled) + [m] && state.works == old(state.works)
      ensures ok ==> Todo(state) == old(state.queue)
      ensures !ok ==> state.phase.Failed? && Served(k, w, todo) == Reaction(kernel, io, false)
    {
      ghost var r, rest := Reacts(kernel, io, m), state.queue;
      assert Todo(state) == [m] + rest && Todo(state)[1..] == rest;
      assert Served(k, w, todo) == if r.ok then Served(r.kernel, r.io, rest) else r;
      ok := Handle(m);
      msg := None;
      if ok {
        msg := TryRecv();
        assert Todo(state) == rest;
      }
    }

    /** `inbox.try_recv().ok()` */
    method TryRecv() returns (msg: Option<Message>)
      requires (state.phase.Deciding? && state.queue == inbox == [])
            || (state.phase.Handling? && inbox == [state.phase.message] + state.queue)
      modifies this`inbox
      ensures inbox == state.queue
      ensures msg == if state.phase.Handling? then Some(state.phase.message) else None
    {
      if inbox == [] {
        msg := None;
      } else {
        msg := Some(inbox[0]);
        inbox := inbox[1..];
      }
    }

    /** The call of work at the end of a pass. */
    method Work() returns (outcome: Outcome)
      requires Valid() && state.phase.Starting?
      modifies this`kernel, this`io, this`state, this`trace
      ensures old(trace) <= trace && Valid() && state.works == old(state.works) + 1 && inbox == old(inbox)
      ensures (outcome.Again? && state.phase.Fetching?) || (outcome.Broken? && state.phase.Failed?)
      ensures var r := callWork(old(kernel), old(io).(callAgain := false));
              kernel == r.kernel && outcome == (if r.ok then Again else Broken) && (r.ok ==> io == r.io)
    {
      io := io.(callAgain := false);
      Record(Own(StartWork));
      var r := callWork(kernel, io);
      kernel := r.kernel;
      if !r.ok {
        Record(Own(WorkErr));
        return Broken;
      }
      io := r.io;
      Record(Own(WorkOk(io)));
      outcome := Again;
    }

    method Shutdown() returns (outcome: Outcome)
      requires Valid() && state.phase.Deciding? && io.finished
      modifies this`state, this`trace
      ensures old(trace) <= trace && IsRun(FRESH, trace) && state == Run(FRESH, trace)
              && state.works == old(state.works)
      ensures (outcome.Stopped? && state.phase.Done?) || (outcome.Broken? && state.phase.Failed?)
      ensures outcome == if callDeinit(kernel) then Stopped else Broken
    {
      Record(Own(Decide));
      Record(Own(Notified));
      var done := callDeinit(kernel);
      if done {
        Record(Own(DeinitOk));
        outcome := Stopped;
      } else {
        Record(Own(DeinitErr));
        outcome := Broken;
      }
    }

    /** One pass of the main loop, up to the next await on the inbox. What comes after the drain loop is decided by the
        `WorkIo` it leaves. */
    method Pass() returns (outcome: Outcome)
      requires Valid() && state.phase.Fetching?
      modifies this`kernel, this`io, this`peek, this`inbox, this`future, this`state, this`trace
      ensures old(trace) <= trace && IsRun(FRESH, trace) && state == Run(FRESH, trace)
      ensures outcome.Again? ==> Valid() && state.phase.Fetching? && state.works == old(state.works) + 1
      ensures outcome.Blocked? ==> Valid() && (state.phase.Parked? || state.phase.Selecting?)
                                   && old(Todo(state)) == [] && !old(io).callAgain
      ensures outcome.Stopped? ==> state.phase.Done? && state.works == old(state.works)
      ensures outcome.Broken? ==> state.phase.Failed?
      ensures Terminate in old(Todo(state)) ==> outcome.Stopped? || outcome.Broken?
      ensures var d := Served(old(kernel), old(io), old(Todo(state)));
              var r := callWork(d.kernel, d.io.(callAgain := false));
              if !d.ok then outcome.Broken? && kernel == d.kernel
              else if d.io.finished then outcome == (if callDeinit(d.kernel) then Stopped else Broken)
                                         && kernel == d.kernel
              else if d.io.callAgain then outcome == (if r.ok then Again else Broken) && kernel == r.kernel
                                          && (r.ok ==> io == r.io)
              else outcome.Blocked? && kernel == d.kernel && future == d.io.blockOn && io == d.io.(blockOn := false)
    {
      var ok := Drain();
      if !ok {
        return Broken;
      }
      if io.finished {
        outcome := Shutdown();
        return;
      }
      Record(Own(Decide));
      if !io.callAgain {
        if io.blockOn {
          io := io.(blockOn := false);
          future := true;
        }
        return Blocked;
      }
      outcome := Work();
    }

    /** The await: either the kernel's future or the next message ends it. A future that is not ready is kept. */
    method Resume(ready: bool) returns (outcome: Outcome)
      requires Valid()
      requires (state.phase.Selecting? && (ready || inbox != [])) || (state.phase.Parked? && !ready && inbox != [])
      modifies this`kernel, this`io, this`peek, this`inbox, this`future, this`state, this`trace
      ensures old(trace) <= trace && Valid()
      ensures (outcome.Again? && state.phase.Fetching?) || (outcome.Broken? && state.phase.Failed?)
      ensures !ready ==> outcome.Again? && peek == Some(old(inbox)[0]) && inbox == old(inbox)[1..]
      ensures ready ==> state.works == old(state.works) + 1 && inbox == old(inbox)
      ensures !future && (!ready ==> kernel == old(kernel) && io == old(io).(blockOn := old(io.blockOn || future)))
      ensures ready ==>
                var r := callWork(old(kernel), old(io).(callAgain := false));
                kernel == r.kernel && outcome == (if r.ok then Again else Broken) && (r.ok ==> io == r.io)
    {
      if ready {
        Record(Own(Resolve));
        future := false;
        io := io.(callAgain := true);
        outcome := Work();
      } else {
        Record(Own(Wake));
        peek := Some(inbox[0]);
        inbox := inbox[1..];
        if future {
          io := io.(blockOn := true);
          future := false;
        }
        outcome := Again;
      }
    }
  }
}
