/** The kernels of the message pipeline: src/blocks/message_burst.rs, message_copy.rs and message_sink.rs. Their effects
    on the inboxes downstream are those of the pipeline system. */
module MessageBlocks {
  import opened BlockLoop
  import opened MessageIo
  import opened Pipeline

  /** n times the same messages. */
  function Repeated(ms: seq<Message>, n: nat): seq<Message> {
    if n == 0 then [] else Repeated(ms, n - 1) + ms
  }

  class MessageBurst {
    const message: Pmt
    const nMessages: nat

    constructor (message: Pmt, nMessages: nat)
      ensures this.message == message && this.nMessages == nMessages
    {
      this.message, this.nMessages := message, nMessages;
    }

    /** Posts everything in one call and finishes. */
    method Work(io: WorkIo, mio: MessageOutputs) returns (after: WorkIo, r: Result)
      modifies AllInboxes(mio.outputs)`queue
      ensures var k := Find(mio.outputs, "out");
              if k < |mio.outputs| || nMessages == 0
              then r == Ok && after == io.(finished := true)
              else r == InvalidMessagePort("out") && after == io
      ensures forall b :: b in AllInboxes(mio.outputs) ==>
                b.queue == old(b.queue)
                + (var k := Find(mio.outputs, "out");
                   if k < |mio.outputs|
                   then Accepted(b, Repeated(Deliveries(mio.outputs[k].handlers, b, message), nMessages))
                   else [])
    {
      ghost var k := Find(mio.outputs, "out");
      for n := 0 to nMessages
        invariant n > 0 ==> k < |mio.outputs|
        invariant forall b :: b in AllInboxes(mio.outputs) ==>
                    b.queue == old(b.queue)
                    + if n > 0 then Accepted(b, Repeated(Deliveries(mio.outputs[k].handlers, b, message), n)) else []
      {
        r := mio.Post("out", message);
        if r != Ok {
          return io, r;
        }
      }
      after, r := io.(finished := true), Ok;
    }
  }

  class MessageCopy {
    constructor () {}

    /** Forwards everything but Finished, on which it finishes. */
    method In(io: WorkIo, mio: MessageOutputs, p: Pmt) returns (after: WorkIo, r: Result)
      modifies AllInboxes(mio.outputs)`queue
      ensures p.Finished? ==> r == Ok && after == io.(finished := true)
      ensures p.Finished? ==> forall b :: b in AllInboxes(mio.outputs) ==> b.queue == old(b.queue)
      ensures !p.Finished? ==> after == io && (r == Ok <==> Find(mio.outputs, "out") < |mio.outputs|)
      ensures !p.Finished? ==> forall b :: b in AllInboxes(mio.outputs) ==>
                b.queue == old(b.queue)
                + (var k := Find(mio.outputs, "out");
                   if k < |mio.outputs| then Accepted(b, Deliveries(mio.outputs[k].handlers, b, p)) else [])
    {
      after, r := io, Ok;
      match p
      case Finished => after := io.(finished := true);
      case Data(_) => r := mio.Post("out", p);
    }
  }

  class MessageSink {
    var nReceived: nat

    constructor ()
      ensures nReceived == 0
    {
      nReceived := 0;
    }

    /** Counts everything but Finished, on which it finishes. */
    method In(io: WorkIo, p: Pmt) returns (after: WorkIo, count: nat)
      modifies this
      ensures nReceived == old(nReceived) + |Values([p])| && count == nReceived
      ensures after == if p.Finished? then io.(finished := true) else io
    {
      after := io;
      assert Values([p]) == if p.Data? then [p.value] else [] by { ValuesSnoc([], p); }
      match p {
        case Finished => after := io.(finished := true);
        case Data(_) => nReceived := nReceived + 1;
      }
      count := nReceived;
    }
  }

  function Copies(v: int, n: nat): seq<int> {
    seq(n, _ => v)
  }

  /** A burst followed by the Finished of its shutdown is what the pipeline system has on the wire. */
  lemma {:induction false} BurstIsTheWire(port: string, v: int, n: nat)
    ensures Received(Repeated([Call(port, Data(v))], n)) == Wire(Copies(v, n), false)
    ensures Received(Repeated([Call(port, Data(v))], n) + [Call(port, Finished)]) == Wire(Copies(v, n), true)
  {
    if n > 0 {
      BurstIsTheWire(port, v, n - 1);
      ReceivedSnoc(Repeated([Call(port, Data(v))], n - 1), Call(port, Data(v)));
      assert Copies(v, n) == Copies(v, n - 1) + [v];
      WireSnoc(Copies(v, n - 1), v);
    } else {
      assert Wire(Copies(v, 0), false) == [];
    }
    ReceivedSnoc(Repeated([Call(port, Data(v))], n), Call(port, Finished));
    WireClose(Copies(v, n));
  }
}
