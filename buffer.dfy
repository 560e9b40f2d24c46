/** The per-chat message buffer of src/buddy_bot/buffer.py.

    `events` is the pending list `_events` and `wake` is the asyncio.Event flag
    `_event`. The debounce wait itself (waiting for the flag, then looping until
    a quiet period passes) is timing and is not modelled: `ClearWake` is one
    turn of that loop and `Drain` is the take-and-clear step that ends it.
    The ghost fields record every event ever put in and every batch ever taken
    out, so that `Valid()` can state conservation. */
module Buffer {

  class MessageBuffer<T> {
    var events: seq<T>
    var wake: bool
    ghost var added: seq<T>    // every event given to Add or Append, in call order
    ghost var drained: seq<T>  // every batch returned by Drain, concatenated

    /** The flag is only ever up while something is pending, and nothing is
        lost or duplicated: what was drained, followed by what is pending, is
        exactly what was put in. */
    ghost predicate Valid()
      reads this
    {
      (wake ==> |events| > 0) && drained + events == added
    }

    constructor ()
      ensures Valid()
      ensures events == [] && !wake && added == [] && drained == []
    {
      events, wake := [], false;
      added, drained := [], [];
    }

    /** add: append the event at the back and raise the flag. */
    method Add(event: T)
      requires Valid()
      modifies this
      ensures Valid()
      ensures events == old(events) + [event] && wake
      ensures added == old(added) + [event] && drained == old(drained)
    {
      events := events + [event];
      wake := true;
      added := added + [event];
    }

    /** append (requeue): extend at the back, behind whatever is pending; the
        flag is raised only for a non-empty batch. */
    method Append(batch: seq<T>)
      requires Valid()
      modifies this
      ensures Valid()
      ensures events == old(events) + batch
      ensures wake == (old(wake) || |batch| > 0)
      ensures added == old(added) + batch && drained == old(drained)
    {
      events := events + batch;
      if |batch| > 0 {
        wake := true;
      }
      added := added + batch;
    }

    function IsEmpty(): (r: bool)
      reads this
      ensures r <==> |events| == 0
    {
      |events| == 0
    }

    /** One turn of the debounce loop: the flag is lowered, the events stay. */
    method ClearWake()
      requires Valid()
      modifies this`wake
      ensures Valid() && !wake
    {
      wake := false;
    }

    /** The take-and-clear step of wait_and_drain: returns every pending event
        in insertion order and leaves the buffer empty with the flag down. */
    method Drain() returns (batch: seq<T>)
      requires Valid()
      modifies this
      ensures Valid()
      ensures batch == old(events) && events == [] && !wake
      ensures old(wake) ==> |batch| > 0
      ensures drained == old(drained) + batch && added == old(added)
    {
      batch := events;
      events := [];
      wake := false;
      drained := drained + batch;
    }
  }

  /** A client run: what is added, requeued and drained comes out in order. */
  method RequeueOrderExample<T>(a: T, b: T, c: T) returns (first: seq<T>, second: seq<T>)
    ensures first == [a, b]
    ensures second == [c, a, b]
  {
    var buf := new MessageBuffer<T>();
    buf.Add(a);
    buf.Add(b);
    first := buf.Drain();
    buf.Add(c);
    buf.Append(first);
    second := buf.Drain();
  }
}
