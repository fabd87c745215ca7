/**
 Several tasks may share one serial response queue. Each completed response is
 handed to its task's handler in turn; the queue then holds the deliveries in
 completion order behind whatever it already held.
 */
module ResponseQueue {
  import opened Values
  import opened Handlers

  /** A completed response of one task, together with the handler that task holds. */
  datatype Completion = Completion(handler: Handler, content: Content, response: UrlResponse)

  /** The shared queue after a run of completions, and the errors thrown in order. */
  datatype Drained = Drained(queue: seq<Delivery>, errors: seq<Error>)

  /** The delivery one completion queues on its own: one item when its handler
      decodes the content, none when it throws. */
  function Delivered(c: Completion, dec: Decoders): (items: seq<Delivery>)
    ensures |items| <= 1
    ensures items != [] <==> Decode(c.handler, c.content, c.response, dec).Ok?
    ensures items != [] ==> items[0].callback == c.handler.callback && items[0].response == c.response
  {
    match Decode(c.handler, c.content, c.response, dec)
    case Ok(p) => [Delivery(c.handler.callback, p, c.response)]
    case Err(_) => []
  }

  /** The error one completion throws on its own, if any. */
  function Thrown(c: Completion, dec: Decoders): (errs: seq<Error>)
    ensures |errs| + |Delivered(c, dec)| == 1
  {
    match Decode(c.handler, c.content, c.response, dec)
    case Ok(_) => []
    case Err(e) => [e]
  }

  /** Independent reference: each completion's own delivery, concatenated in completion order. */
  function AllDelivered(completions: seq<Completion>, dec: Decoders): seq<Delivery>
    decreases |completions|
  {
    if completions == [] then [] else Delivered(completions[0], dec) + AllDelivered(completions[1..], dec)
  }

  /** Independent reference: each completion's own error, concatenated in completion order. */
  function AllThrown(completions: seq<Completion>, dec: Decoders): seq<Error>
    decreases |completions|
  {
    if completions == [] then [] else Thrown(completions[0], dec) + AllThrown(completions[1..], dec)
  }

  /** Concatenating runs of completions concatenates their deliveries. */
  lemma {:induction false} AllDeliveredSplit(a: seq<Completion>, b: seq<Completion>, dec: Decoders)
    ensures AllDelivered(a + b, dec) == AllDelivered(a, dec) + AllDelivered(b, dec)
    decreases |a|
  {
    if a == [] {
      assert a + b == b;
    } else {
      var ab := a + b;
      assert ab[0] == a[0];
      assert ab[1..] == a[1..] + b;
      AllDeliveredSplit(a[1..], b, dec);
      assert AllDelivered(ab, dec) == Delivered(a[0], dec) + AllDelivered(a[1..] + b, dec);
    }
  }

  /** Concatenating runs of completions concatenates their errors. */
  lemma {:induction false} AllThrownSplit(a: seq<Completion>, b: seq<Completion>, dec: Decoders)
    ensures AllThrown(a + b, dec) == AllThrown(a, dec) + AllThrown(b, dec)
    decreases |a|
  {
    if a == [] {
      assert a + b == b;
    } else {
      var ab := a + b;
      assert ab[0] == a[0];
      assert ab[1..] == a[1..] + b;
      AllThrownSplit(a[1..], b, dec);
      assert AllThrown(ab, dec) == Thrown(a[0], dec) + AllThrown(a[1..] + b, dec);
    }
  }

  /** One completion handed to its handler on the shared queue: exactly its own
      delivery is appended, or exactly its own error is recorded. */
  function Step(prev: Drained, c: Completion, dec: Decoders): (d: Drained)
    ensures d == Drained(prev.queue + Delivered(c, dec), prev.errors + Thrown(c, dec))
  {
    var o := Handle(c.handler, c.content, c.response, dec, prev.queue);
    Drained(o.queue, prev.errors + (if o.thrown.Some? then [o.thrown.value] else []))
  }

  /** The completions handed to their handlers one after another on the shared
      queue. The old queue stays in front, followed by exactly each completion's
      own delivery in completion order; the errors are exactly each completion's
      own error, in the same order. */
  function Replay(completions: seq<Completion>, dec: Decoders, queue: seq<Delivery>): (d: Drained)
    ensures d.queue == queue + AllDelivered(completions, dec)
    ensures d.errors == AllThrown(completions, dec)
    ensures |d.queue| + |d.errors| == |queue| + |completions|
    decreases |completions|
  {
    if completions == [] then Drained(queue, [])
    else
      var prefix := completions[..|completions| - 1];
      var c := completions[|completions| - 1];
      var prev := Replay(prefix, dec, queue);
      assert prefix + [c] == completions;
      OneMore(prefix, c, dec, queue);
      Step(prev, c, dec)
  }

  /** One more completion adds its own delivery or error behind a run's. */
  lemma OneMore(prefix: seq<Completion>, c: Completion, dec: Decoders, queue: seq<Delivery>)
    ensures queue + AllDelivered(prefix + [c], dec) == (queue + AllDelivered(prefix, dec)) + Delivered(c, dec)
    ensures AllThrown(prefix + [c], dec) == AllThrown(prefix, dec) + Thrown(c, dec)
    ensures |AllDelivered(prefix + [c], dec)| + |AllThrown(prefix + [c], dec)|
         == |AllDelivered(prefix, dec)| + |AllThrown(prefix, dec)| + 1
  {
    AllDeliveredSplit(prefix, [c], dec);
    AllThrownSplit(prefix, [c], dec);
    assert [c][1..] == [];
    assert AllDelivered([c], dec) == Delivered(c, dec);
    assert AllThrown([c], dec) == Thrown(c, dec);
  }

  /** Handling one run of completions and then another is handling them all:
      the second run continues on the queue the first one left. */
  lemma {:induction false} ReplaySplit(
    a: seq<Completion>, b: seq<Completion>, dec: Decoders, queue: seq<Delivery>)
    ensures var first := Replay(a, dec, queue);
      var second := Replay(b, dec, first.queue);
      Replay(a + b, dec, queue) == Drained(second.queue, first.errors + second.errors)
  {
    AllDeliveredSplit(a, b, dec);
    AllThrownSplit(a, b, dec);
    var first := Replay(a, dec, queue);
    var second := Replay(b, dec, first.queue);
    ConcatenatedRuns(first, second, Replay(a + b, dec, queue), queue,
                     AllDelivered(a, dec), AllDelivered(b, dec), AllThrown(a, dec), AllThrown(b, dec));
  }

  /** The bookkeeping behind ReplaySplit, stated on the drained results alone. */
  lemma ConcatenatedRuns(
    first: Drained, second: Drained, whole: Drained, queue: seq<Delivery>,
    deliveredA: seq<Delivery>, deliveredB: seq<Delivery>, thrownA: seq<Error>, thrownB: seq<Error>)
    requires first == Drained(queue + deliveredA, thrownA)
    requires second == Drained(first.queue + deliveredB, thrownB)
    requires whole == Drained(queue + (deliveredA + deliveredB), thrownA + thrownB)
    ensures whole == Drained(second.queue, first.errors + second.errors)
  {
    assert queue + (deliveredA + deliveredB) == (queue + deliveredA) + deliveredB;
  }
}
