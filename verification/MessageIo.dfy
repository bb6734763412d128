/** Message outputs (src/runtime/message_io.rs) and the three message blocks of the pipeline (src/blocks), posting into
    inboxes that several outputs and several ports may share. */
module MessageIo {
  import opened BlockLoop
  import Pipeline

  /** The receiving side of a block; a send to a block that is gone is ignored. */
  class Inbox {
    var queue: seq<Message>
    var open: bool

    constructor ()
      ensures queue == [] && open
    {
      queue, open := [], true;
    }

    method Send(m: Message) returns (ok: bool)
      modifies this`queue
      ensures ok == open && queue == if open then old(queue) + [m] else old(queue)
    {
      if open {
        queue := queue + [m];
      }
      ok := open;
    }
  }

  /** What one post brings to an inbox: a call for each handler there, in the order of connection. */
  function Deliveries(handlers: seq<(string, Inbox)>, b: Inbox, p: Pmt): seq<Message> {
    if handlers == [] then []
    else
      var (port, inbox) := handlers[|handlers| - 1];
      Deliveries(handlers[..|handlers| - 1], b, p) + if inbox == b then [Call(port, p)] else []
  }

  lemma DeliveriesSnoc(handlers: seq<(string, Inbox)>, k: nat, b: Inbox, p: Pmt)
    requires k < |handlers|
    ensures Deliveries(handlers[..k + 1], b, p)
         == Deliveries(handlers[..k], b, p) + if handlers[k].1 == b then [Call(handlers[k].0, p)] else []
  {
    assert handlers[..k + 1][..k] == handlers[..k];
  }

  function Inboxes(handlers: seq<(string, Inbox)>): set<Inbox> {
    set h | h in handlers :: h.1
  }

  function Accepted(b: Inbox, ms: seq<Message>): seq<Message>
    reads b
  {
    if b.open then ms else []
  }

  /** The first k handlers have been served. */
  ghost predicate Delivered(handlers: seq<(string, Inbox)>, k: nat, p: Pmt, before: map<Inbox, seq<Message>>)
    requires k <= |handlers|
    reads Inboxes(handlers)
  {
    before.Keys == Inboxes(handlers)
    && forall b :: b in Inboxes(handlers) ==> b.queue == before[b] + Accepted(b, Deliveries(handlers[..k], b, p))
  }

  method SendTo(handlers: seq<(string, Inbox)>, k: nat, inbox: Inbox, port: string, p: Pmt,
                ghost before: map<Inbox, seq<Message>>)
    requires k < |handlers| && handlers[k] == (port, inbox) && Delivered(handlers, k, p, before)
    modifies inbox`queue
    ensures Delivered(handlers, k + 1, p, before)
  {
    assert handlers[k] in handlers && inbox in Inboxes(handlers);
    ghost var queue := inbox.queue;
    var _ := inbox.Send(Call(port, p));
    DeliveriesSnoc(handlers, k, inbox, p);
    forall b | b in Inboxes(handlers) && b != inbox
      ensures Deliveries(handlers[..k + 1], b, p) == Deliveries(handlers[..k], b, p)
    {
      DeliveriesSnoc(handlers, k, b, p);
    }
    assert inbox.queue == before[inbox] + Accepted(inbox, Deliveries(handlers[..k + 1], inbox, p));
  }

  class MessageOutput {
    const name: string
    var handlers: seq<(string, Inbox)>

    constructor (name: string)
      ensures this.name == name && handlers == []
    {
      this.name, handlers := name, [];
    }

    method Connect(port: string, sender: Inbox)
      modifies this`handlers
      ensures handlers == old(handlers) + [(port, sender)]
    {
      handlers := handlers + [(port, sender)];
    }

    /** Sends to every handler, in order. */
    method Post(p: Pmt)
      modifies Inboxes(handlers)`queue
      ensures forall b :: b in Inboxes(handlers) ==> b.queue == old(b.queue) + Accepted(b, Deliveries(handlers, b, p))
    {
      ghost var before := map b | b in Inboxes(handlers) :: b.queue;
      for k := 0 to |handlers|
        invariant Delivered(handlers, k, p, before)
      {
        var (port, inbox) := handlers[k];
        assert handlers[k] in handlers;
        SendTo(handlers, k, inbox, port, p, before);
      }
      assert handlers[..|handlers|] == handlers;
    }

    method NotifyFinished()
      modifies Inboxes(handlers)`queue
      ensures forall b :: b in Inboxes(handlers) ==>
              b.queue == old(b.queue) + Accepted(b, Deliveries(handlers, b, Finished))
    {
      Post(Finished);
    }
  }

  lemma {:induction false} NotThere(handlers: seq<(string, Inbox)>, b: Inbox, p: Pmt)
    requires b !in Inboxes(handlers)
    ensures Deliveries(handlers, b, p) == []
  {
    if handlers != [] {
      assert handlers[|handlers| - 1] in handlers;
      NotThere(handlers[..|handlers| - 1], b, p);
    }
  }

  /** Connected once, an inbox gets exactly one message for a post. */
  lemma {:induction false} OneHandler(handlers: seq<(string, Inbox)>, k: nat, p: Pmt)
    requires k < |handlers| && forall j :: 0 <= j < |handlers| && j != k ==> handlers[j].1 != handlers[k].1
    ensures Deliveries(handlers, handlers[k].1, p) == [Call(handlers[k].0, p)]
  {
    var n := |handlers| - 1;
    if k == n {
      NotThere(handlers[..n], handlers[k].1, p);
    } else {
      OneHandler(handlers[..n], k, p);
    }
  }

  /** The first output with a name, as `output_mut` finds it; the number of outputs if there is none. */
  function Find(outputs: seq<MessageOutput>, name: string): (k: nat)
    ensures k <= |outputs| && (k < |outputs| ==> outputs[k].name == name)
    ensures forall j :: 0 <= j < k ==> outputs[j].name != name
  {
    if outputs == [] || outputs[0].name == name then 0 else 1 + Find(outputs[1..], name)
  }

  /** What saying something on all outputs brings to an inbox. */
  ghost function AllDeliveries(outputs: seq<MessageOutput>, b: Inbox, p: Pmt): seq<Message>
    reads outputs
  {
    if outputs == [] then []
    else AllDeliveries(outputs[..|outputs| - 1], b, p) + Deliveries(outputs[|outputs| - 1].handlers, b, p)
  }

  lemma AllDeliveriesSnoc(outputs: seq<MessageOutput>, k: nat, b: Inbox, p: Pmt)
    requires k < |outputs|
    ensures AllDeliveries(outputs[..k + 1], b, p)
         == AllDeliveries(outputs[..k], b, p)
            + if b in Inboxes(outputs[k].handlers) then Deliveries(outputs[k].handlers, b, p) else []
  {
    assert outputs[..k + 1][..k] == outputs[..k];
    if b !in Inboxes(outputs[k].handlers) {
      NotThere(outputs[k].handlers, b, p);
    }
  }

  ghost function AllInboxes(outputs: seq<MessageOutput>): set<Inbox>
    reads outputs
  {
    set o, b | o in outputs && b in Inboxes(o.handlers) :: b
  }

  /** The first k outputs have said Finished. */
  ghost predicate ToldFirst(outputs: seq<MessageOutput>, k: nat, before: map<Inbox, seq<Message>>)
    requires k <= |outputs|
    reads outputs, AllInboxes(outputs)
  {
    before.Keys == AllInboxes(outputs)
    && forall b :: b in AllInboxes(outputs) ==>
      b.queue == before[b] + Accepted(b, AllDeliveries(outputs[..k], b, Finished))
  }

  method TellOne(outputs: seq<MessageOutput>, k: nat, o: MessageOutput, ghost before: map<Inbox, seq<Message>>)
    requires k < |outputs| && outputs[k] == o && ToldFirst(outputs, k, before)
    modifies Inboxes(o.handlers)`queue
    ensures ToldFirst(outputs, k + 1, before)
  {
    assert o in outputs;
    ghost var was := map b | b in AllInboxes(outputs) :: b.queue;
    o.NotifyFinished();
    forall b | b in was.Keys && b !in Inboxes(o.handlers) ensures b.queue == was[b] {
    }
    ToldNext(outputs, k, before, was);
  }

  lemma ToldNext(outputs: seq<MessageOutput>, k: nat, before: map<Inbox, seq<Message>>, was: map<Inbox, seq<Message>>)
    requires k < |outputs| && before.Keys == was.Keys == AllInboxes(outputs)
    requires forall b :: b in was.Keys ==> was[b] == before[b] + Accepted(b, AllDeliveries(outputs[..k], b, Finished))
    requires forall b :: b in Inboxes(outputs[k].handlers) && b in was.Keys ==>
               b.queue == was[b] + Accepted(b, Deliveries(outputs[k].handlers, b, Finished))
    requires forall b :: b in was.Keys && b !in Inboxes(outputs[k].handlers) ==> b.queue == was[b]
    ensures ToldFirst(outputs, k + 1, before)
  {
    forall b | b in AllInboxes(outputs)
      ensures b.queue == before[b] + Accepted(b, AllDeliveries(outputs[..k + 1], b, Finished))
    {
      ToldOne(outputs, k, b, before[b], was[b]);
    }
  }

  lemma ToldOne(outputs: seq<MessageOutput>, k: nat, b: Inbox, start: seq<Message>, mid: seq<Message>)
    requires k < |outputs| && mid == start + Accepted(b, AllDeliveries(outputs[..k], b, Finished))
    requires b.queue == mid + if b in Inboxes(outputs[k].handlers)
                              then Accepted(b, Deliveries(outputs[k].handlers, b, Finished)) else []
    ensures b.queue == start + Accepted(b, AllDeliveries(outputs[..k + 1], b, Finished))
  {
    AllDeliveriesSnoc(outputs, k, b, Finished);
  }

  datatype Result = Ok | InvalidMessagePort(name: string)

  class MessageOutputs {
    const outputs: seq<MessageOutput>

    constructor (outputs: seq<MessageOutput>)
      ensures this.outputs == outputs
    {
      this.outputs := outputs;
    }

    method Connect(srcPort: string, inbox: Inbox, dstPort: string) returns (r: Result)
      modifies (set o | o in outputs)`handlers
      ensures var k := Find(outputs, srcPort);
              if k < |outputs| then r == Ok && outputs[k].handlers == old(outputs[k].handlers) + [(dstPort, inbox)]
              else r == InvalidMessagePort(srcPort)
      ensures forall o :: o in outputs && (r != Ok || o != outputs[Find(outputs, srcPort)]) ==>
              o.handlers == old(o.handlers)
    {
      var k := OutputMut(srcPort);
      if k == |outputs| {
        return InvalidMessagePort(srcPort);
      }
      outputs[k].Connect(dstPort, inbox);
      r := Ok;
    }

    method OutputMut(name: string) returns (k: nat)
      ensures k == Find(outputs, name)
    {
      k := 0;
      while k < |outputs| && outputs[k].name != name
        invariant k <= |outputs| && forall j :: 0 <= j < k ==> outputs[j].name != name
      {
        k := k + 1;
      }
    }

    /** A post on an output nobody declared is an error and sends nothing. */
    method Post(id: string, p: Pmt) returns (r: Result)
      modifies AllInboxes(outputs)`queue
      ensures r == if Find(outputs, id) < |outputs| then Ok else InvalidMessagePort(id)
      ensures forall b :: b in AllInboxes(outputs) ==>
                b.queue == old(b.queue)
                           + if r.Ok? then Accepted(b, Deliveries(outputs[Find(outputs, id)].handlers, b, p)) else []
    {
      var k := OutputMut(id);
      if k == |outputs| {
        return InvalidMessagePort(id);
      }
      assert outputs[k] in outputs;
      outputs[k].Post(p);
      forall b | b in AllInboxes(outputs) && b !in Inboxes(outputs[k].handlers)
        ensures Deliveries(outputs[k].handlers, b, p) == []
      {
        NotThere(outputs[k].handlers, b, p);
      }
      r := Ok;
    }

    method NotifyFinished()
      modifies AllInboxes(outputs)`queue
      ensures forall b :: b in AllInboxes(outputs) ==>
                b.queue == old(b.queue) + Accepted(b, AllDeliveries(outputs, b, Finished))
    {
      ghost var before := map b | b in AllInboxes(outputs) :: b.queue;
      for k := 0 to |outputs|
        invariant ToldFirst(outputs, k, before)
      {
        assert outputs[k] in outputs;
        TellOne(outputs, k, outputs[k], before);
      }
      assert outputs[..|outputs|] == outputs;
    }
  }
}
