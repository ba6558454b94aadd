/** The webhook's buffer: accepting messages into a queue and draining it into the
    publisher (`listeners`, `queue` and `drain`). */
module Queue {
  import opened Wrappers
  import opened Canonical

  /** The in-process queue. */
  class Memory {
    var items: seq<Message>

    constructor ()
      ensures items == []
    {
      items := [];
    }

    method Enqueue(m: Message)
      modifies this
      ensures items == old(items) + [m]
    {
      items := items + [m];
    }

    /** Take everything queued as deliveries, in order. */
    method Receive() returns (out: seq<Message>)
      modifies this
      ensures out == old(items) && items == []
    {
      out := [];
      for i := 0 to |items|
        invariant out == items[..i] && items == old(items)
      {
        out := out + [items[i]];
      }
      items := [];
    }

    /** A delivery has already left the queue. */
    method Ack(m: Message) returns (ok: bool)
      ensures ok
    {
      ok := true;
    }

    method Nack(m: Message) returns (ok: bool)
      modifies this
      ensures ok && items == old(items) + [m]
    {
      Enqueue(m);
      ok := true;
    }
  }

  /** The ingest endpoint, as the publisher sees it: what has been published with success,
      and how many deliveries it has refused. */
  class Publisher {
    var published: seq<Message>
    ghost var refusals: nat

    constructor ()
      ensures published == [] && refusals == 0
    {
      published, refusals := [], 0;
    }

    method Publish(m: Message) returns (ok: bool)
      modifies this
      ensures published == if ok then old(published) + [m] else old(published)
      ensures refusals == if ok then old(refusals) else old(refusals) + 1
    {
      ok := *;
      if ok {
        published := published + [m];
      } else {
        refusals := refusals + 1;
      }
    }
  }

  class Worker {
    const queue: Memory
    const publisher: Publisher

    constructor (queue: Memory, publisher: Publisher)
      ensures this.queue == queue && this.publisher == publisher
    {
      this.queue, this.publisher := queue, publisher;
    }

    /** A delivery is offered to the publisher once: acknowledged if it was published, and
        given back if, and only if, it was refused. */
    method Handle(m: Message)
      modifies queue, publisher
      ensures publisher.refusals in {old(publisher.refusals), old(publisher.refusals) + 1}
      ensures if publisher.refusals == old(publisher.refusals) then
                publisher.published == old(publisher.published) + [m] && queue.items == old(queue.items)
              else
                publisher.published == old(publisher.published) && queue.items == old(queue.items) + [m]
    {
      var ok := publisher.Publish(m);
      if !ok {
        var _ := queue.Nack(m);
        return;
      }
      var _ := queue.Ack(m);
    }

    /** The deliveries of one batch run concurrently, in any order: `rest` is what has not
        started yet, and any of it may be next. Nothing is lost and nothing is made up:
        each message received is published, or queued again because it was refused, as
        often as it was received. */
    method DrainOnce() returns (n: nat)
      modifies queue, publisher
      ensures n == |old(queue.items)|
      ensures multiset(queue.items) + multiset(publisher.published)
           == multiset(old(queue.items)) + multiset(old(publisher.published))
      ensures old(publisher.published) <= publisher.published
      ensures publisher.refusals == old(publisher.refusals) + |queue.items|
    {
      var ds := queue.Receive();
      n := |ds|;
      var rest := ds;
      while rest != []
        invariant multiset(rest) + multiset(queue.items) + multiset(publisher.published)
               == multiset(old(queue.items)) + multiset(old(publisher.published))
        invariant old(publisher.published) <= publisher.published
        invariant publisher.refusals == old(publisher.refusals) + |queue.items|
        decreases |rest|
      {
        var i: nat :| i < |rest|;
        ghost var before := rest;
        Handle(rest[i]);
        rest := rest[..i] + rest[i + 1..];
        assert before == before[..i] + [before[i]] + before[i + 1..];
      }
    }
  }

  // ----- The webhook handler -----

  /** The verdict of a listener on a request. */
  datatype Parse = Unreadable | Unauthorized | Retry | Messages(msgs: seq<Message>)

  /** The status codes of the inbound contract: 401 for a bad signature and 400 for an
      unreadable body, with nothing queued; 500 when the platform should retry, with some
      first messages queued and the next one refused; 200 only when all of them are queued,
      in order. `refused` is the position of the first message that cannot be enqueued. */
  method HandleWebhook(queue: Memory, p: Parse, refused: Option<nat>) returns (status: int)
    modifies queue
    ensures p.Unreadable? <==> status == 400
    ensures p.Unauthorized? <==> status == 401
    ensures status == 500 <==> p.Retry? || (p.Messages? && refused.Some? && refused.value < |p.msgs|)
    ensures status in {200, 400, 401, 500}
    ensures queue.items == old(queue.items) +
      (if p.Messages? then
         if status == 200 then p.msgs else p.msgs[..refused.value]
       else [])
  {
    match p {
      case Unreadable => return 400;
      case Unauthorized => return 401;
      case Retry => return 500;
      case Messages(msgs) =>
        for i := 0 to |msgs|
          invariant queue.items == old(queue.items) + msgs[..i]
          invariant refused.Some? ==> refused.value >= i
        {
          if refused == Some(i) {
            return 500;
          }
          queue.Enqueue(msgs[i]);
          assert msgs[..i + 1] == msgs[..i] + [msgs[i]];
        }
        assert msgs[..|msgs|] == msgs;
        return 200;
    }
  }
}
