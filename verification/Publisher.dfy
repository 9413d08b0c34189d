/** The batching publisher (flavors/publisher.go): one loop over a select, a buffer, and a
    client that receives whole batches. */
module Publishing {
  import opened Sequences

  /** The publisher's state: events waiting, and the batches handed to the client so far. */
  datatype Book<E> = Book(buffer: seq<E>, published: seq<seq<E>>)

  /** What one pass of the select can pick: the flush ticker, a chunk of events,
      the end of the channel, or the end of the context. */
  datatype Arrival<E> = Tick | Chunk(events: seq<E>) | Closed | Cancelled

  function Flush<E>(b: Book<E>): (r: Book<E>) {
    if b.buffer == [] then b else Book([], b.published + [b.buffer])
  }

  function Absorb<E>(b: Book<E>, events: seq<E>, threshold: int): (r: Book<E>) {
    var grown := b.(buffer := b.buffer + events);
    if |grown.buffer| < threshold then grown else Flush(grown)
  }

  /** Everything the publisher was given, in order. */
  function Accounted<E>(b: Book<E>): seq<E> {
    Concat(b.published) + b.buffer
  }

  /** The loop as a fold; it ends at the first `Closed` or `Cancelled`. */
  function Handle<E>(b: Book<E>, arrivals: seq<Arrival<E>>, threshold: int): (r: Book<E>)
    decreases |arrivals|
  {
    if arrivals == [] then b
    else match arrivals[0]
      case Tick => Handle(Flush(b), arrivals[1..], threshold)
      case Chunk(events) => Handle(Absorb(b, events, threshold), arrivals[1..], threshold)
      case Closed => Flush(b)
      case Cancelled => Flush(b)
  }

  predicate Stops<E>(arrivals: seq<Arrival<E>>) {
    exists i :: 0 <= i < |arrivals| && (arrivals[i].Closed? || arrivals[i].Cancelled?)
  }

  /** The events received before the loop ends. */
  function Received<E>(arrivals: seq<Arrival<E>>): (r: seq<E>) {
    if arrivals == [] then []
    else match arrivals[0]
      case Tick => Received(arrivals[1..])
      case Chunk(events) => events + Received(arrivals[1..])
      case Closed => []
      case Cancelled => []
  }

  lemma FlushAccounts<E>(b: Book<E>)
    ensures Accounted(Flush(b)) == Accounted(b)
    ensures Flush(b).buffer == []
  {
    if b.buffer != [] {
      ConcatSnoc(b.published, b.buffer);
    }
  }

  lemma AbsorbAccounts<E>(b: Book<E>, events: seq<E>, threshold: int)
    ensures Accounted(Absorb(b, events, threshold)) == Accounted(b) + events
  {
    var grown := b.(buffer := b.buffer + events);
    assert Accounted(grown) == Accounted(b) + events;
    FlushAccounts(grown);
  }

  /** Nothing lost, repeated or reordered, and nothing left behind once the loop has ended. */
  lemma {:induction false} HandleConserves<E>(b: Book<E>, arrivals: seq<Arrival<E>>, threshold: int)
    ensures Accounted(Handle(b, arrivals, threshold)) == Accounted(b) + Received(arrivals)
    ensures Stops(arrivals) ==> Handle(b, arrivals, threshold).buffer == []
    decreases |arrivals|
  {
    hide Accounted, Flush, Absorb, Stops;
    if arrivals == [] {
      HandleNothing(b, threshold);
    } else {
      var rest := arrivals[1..];
      FlushAccounts(b);
      StopsLater(arrivals);
      match arrivals[0] {
        case Tick => HandleConserves(Flush(b), rest, threshold);
        case Chunk(events) =>
          AbsorbAccounts(b, events, threshold);
          HandleConserves(Absorb(b, events, threshold), rest, threshold);
          AppendAssoc(Accounted(b), events, Received(rest));
        case Closed =>
        case Cancelled =>
      }
    }
  }

  /** One pass of the loop: a chunk is appended, and handed over with what was waiting if they reach the
      threshold together; a tick, the end of the channel and the end of the context hand over what is
      waiting, if there is any; nothing happens after the last two. */
  lemma {:induction false} HandleStep<E>(b: Book<E>, arrivals: seq<Arrival<E>>, next: Arrival<E>, threshold: int)
    ensures Handle(b, [], threshold) == b
    ensures var before, after := Handle(b, arrivals, threshold), Handle(b, arrivals + [next], threshold);
            && (Stops(arrivals) ==> after == before)
            && (!Stops(arrivals) && next.Chunk? && |before.buffer| + |next.events| < threshold ==>
                  after.published == before.published && after.buffer == before.buffer + next.events)
            && (!Stops(arrivals) && next.Chunk? && |before.buffer| + |next.events| >= threshold
                && before.buffer + next.events != [] ==>
                  after.published == before.published + [before.buffer + next.events] && after.buffer == [])
            && (!Stops(arrivals) && !next.Chunk? && before.buffer != [] ==>
                  after.published == before.published + [before.buffer] && after.buffer == [])
            && (!Stops(arrivals) && !next.Chunk? && before.buffer == [] ==> after == before)
    decreases |arrivals|
  {
    if arrivals == [] {
      assert arrivals + [next] == [next] && [next][1..] == [];
    } else {
      var first, rest := arrivals[0], arrivals[1..];
      assert (arrivals + [next])[1..] == rest + [next];
      StopsLater(arrivals);
      match first {
        case Tick => HandleStep(Flush(b), rest, next, threshold);
        case Chunk(events) => HandleStep(Absorb(b, events, threshold), rest, next, threshold);
        case Closed =>
        case Cancelled =>
      }
    }
  }

  lemma StopsLater<E>(arrivals: seq<Arrival<E>>)
    requires arrivals != []
    ensures Stops(arrivals) <==> arrivals[0].Closed? || arrivals[0].Cancelled? || Stops(arrivals[1..])
  {
    assert forall i :: 0 <= i < |arrivals| - 1 ==> arrivals[1..][i] == arrivals[i + 1];
    if Stops(arrivals) {
      var i :| 0 <= i < |arrivals| && (arrivals[i].Closed? || arrivals[i].Cancelled?);
      assert i > 0 ==> arrivals[1..][i - 1] == arrivals[i];
    }
  }

  /** Between two passes of the loop the buffer is short of the threshold, and every batch so far
      is non-empty and shorter than the threshold plus a chunk of the largest size `m`. */
  ghost predicate Bounded<E>(b: Book<E>, threshold: int, m: nat) {
    && |b.buffer| < threshold
    && forall i :: 0 <= i < |b.published| ==> 0 < |b.published[i]| < threshold + m
  }

  /** One received chunk: if it triggers a batch, the batch is a buffer short of the threshold plus
      exactly that chunk. */
  lemma AbsorbBounded<E>(b: Book<E>, events: seq<E>, threshold: int, m: nat)
    requires threshold >= 1 && Bounded(b, threshold, m)
    ensures var r := Absorb(b, events, threshold);
            && |r.buffer| < threshold
            && (r.published == b.published ||
                (r.published == b.published + [b.buffer + events]
                 && threshold <= |b.buffer + events| < threshold + |events|))
    ensures |events| <= m ==> Bounded(Absorb(b, events, threshold), threshold, m)
  {
  }

  lemma {:induction false} HandleBounded<E>(b: Book<E>, arrivals: seq<Arrival<E>>, threshold: int, m: nat)
    requires threshold >= 1 && Bounded(b, threshold, m)
    requires forall i :: 0 <= i < |arrivals| && arrivals[i].Chunk? ==> |arrivals[i].events| <= m
    ensures Bounded(Handle(b, arrivals, threshold), threshold, m)
    decreases |arrivals|
  {
    if arrivals == [] {
    } else {
      match arrivals[0] {
        case Tick => HandleBounded(Flush(b), arrivals[1..], threshold, m);
        case Chunk(events) =>
          AbsorbBounded(b, events, threshold, m);
          HandleBounded(Absorb(b, events, threshold), arrivals[1..], threshold, m);
        case Closed =>
        case Cancelled =>
      }
    }
  }

  lemma HandleHead<E>(b: Book<E>, arrivals: seq<Arrival<E>>, threshold: int)
    requires arrivals != []
    ensures match arrivals[0]
            case Tick => Handle(b, arrivals, threshold) == Handle(Flush(b), arrivals[1..], threshold)
            case Chunk(events) =>
              Handle(b, arrivals, threshold) == Handle(Absorb(b, events, threshold), arrivals[1..], threshold)
            case Closed => Handle(b, arrivals, threshold) == Flush(b)
            case Cancelled => Handle(b, arrivals, threshold) == Flush(b)
  {
  }

  lemma FlushNothing<E>(published: seq<seq<E>>)
    ensures Flush(Book([], published)) == Book([], published)
  {
  }

  lemma HandleNothing<E>(b: Book<E>, threshold: int)
    ensures Handle(b, [], threshold) == b && !Stops<E>([])
  {
  }

  /** The Elasticsearch client, reduced to the batches it was given. */
  class Client<E> {
    var batches: seq<seq<E>>

    constructor ()
      ensures batches == []
    {
      batches := [];
    }

    method PublishAll(events: seq<E>)
      modifies this
      ensures batches == old(batches) + [events]
    {
      batches := batches + [events];
    }
  }

  class Publisher<E> {
    const threshold: int
    const client: Client<E>

    constructor (threshold: int, client: Client<E>)
      ensures this.threshold == threshold && this.client == client
    {
      this.threshold := threshold;
      this.client := client;
    }

    /** Hands over a non-empty buffer and returns the buffer that remains. */
    method Publish(events: seq<E>) returns (rest: seq<E>)
      modifies client
      ensures Book(rest, client.batches) == Flush(Book(events, old(client.batches)))
      ensures rest == []
      ensures client.batches == if events == [] then old(client.batches) else old(client.batches) + [events]
    {
      rest := events;
      if |events| == 0 {
        return;
      }
      client.PublishAll(events);
      rest := [];
    }

    /** The loop, driven by the cases its select picks. `returned` tells whether it ended; if so,
        the client has received exactly the events that arrived, in order, in non-empty batches. */
    method HandleEvents(arrivals: seq<Arrival<E>>) returns (returned: bool, eventsToSend: seq<E>)
      modifies client
      ensures returned == Stops(arrivals)
      ensures Book(eventsToSend, client.batches) == Handle(Book([], old(client.batches)), arrivals, threshold)
      ensures Concat(client.batches) + eventsToSend == Concat(old(client.batches)) + Received(arrivals)
      ensures returned ==> eventsToSend == []
    {
      hide Handle, Received, Concat, Stops, Flush;
      HandleConserves(Book([], client.batches), arrivals, threshold);
      assert arrivals[0..] == arrivals;
      eventsToSend := [];
      returned := false;
      var i := 0;
      while i < |arrivals|
        invariant 0 <= i <= |arrivals|
        invariant Stops(arrivals) <==> Stops(arrivals[i..])
        invariant Handle(Book(eventsToSend, client.batches), arrivals[i..], threshold)
               == Handle(Book([], old(client.batches)), arrivals, threshold)
      {
        assert arrivals[i..][1..] == arrivals[i + 1..] && arrivals[i..][0] == arrivals[i];
        HandleHead(Book(eventsToSend, client.batches), arrivals[i..], threshold);
        StopsLater(arrivals[i..]);
        FlushNothing<E>(client.batches);
        match arrivals[i] {
          case Cancelled =>
            eventsToSend := Publish(eventsToSend);
            returned := true;
            return;
          case Tick =>
            if |eventsToSend| != 0 {
              eventsToSend := Publish(eventsToSend);
            }
          case Closed =>
            eventsToSend := Publish(eventsToSend);
            returned := true;
            return;
          case Chunk(events) =>
            eventsToSend := eventsToSend + events;
            if |eventsToSend| >= threshold {
              eventsToSend := Publish(eventsToSend);
            }
        }
        i := i + 1;
      }
      HandleNothing(Book(eventsToSend, client.batches), threshold);
      assert arrivals[i..] == [];
    }
  }
}
