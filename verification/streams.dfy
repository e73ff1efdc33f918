/**
  Streams as finite sequences of events. Each element of a receive sequence is
  the outcome of one `Recv()` call on a gRPC stream; a sequence that runs out
  before EOF or an error stands for a peer that has not answered yet, so the
  receiving loop is still blocked. What a loop does on its outgoing side is a
  sequence of `Egress` events.
 */
module Streams {
  import opened Messages

  /** The outcome of one `Recv()`: a message, `io.EOF`, or any other error. */
  datatype Recv<T> = Item(value: T) | Eof | Err(error: Error)

  /** One action on the sending side of a stream: a `Send` together with the
      transport's answer to it, the half-close `CloseSend`, or `Abort`, the
      deferred `conn.Close()` of a handler that returns while the stream is
      still open, which breaks the stream under the peer. */
  datatype Egress<T> = Send(msg: T, result: Outcome) | CloseSend | Abort

  /** The messages of the `Send` actions among `out`, in order. */
  function SentMessages<T>(out: seq<Egress<T>>): seq<T>
  {
    if |out| == 0 then []
    else (if out[0].Send? then [out[0].msg] else []) + SentMessages(out[1..])
  }

  /** Prepending one action to a trace prepends at most its message. */
  lemma SentMessagesCons<T>(e: Egress<T>, out: seq<Egress<T>>)
    ensures SentMessages([e] + out) == (if e.Send? then [e.msg] else []) + SentMessages(out)
  {
  }

  /** The messages of two traces one after the other. */
  lemma {:induction false} SentMessagesAppend<T>(a: seq<Egress<T>>, b: seq<Egress<T>>)
    ensures SentMessages(a + b) == SentMessages(a) + SentMessages(b)
    decreases |a|
  {
    if |a| > 0 {
      assert (a + b)[1..] == a[1..] + b;
      SentMessagesAppend(a[1..], b);
    } else {
      assert a + b == b;
    }
  }

  /** The messages of a trace of sends are the sends' messages, whatever the
      transport answered. */
  lemma {:induction false} SentOfSends<T>(sends: seq<Egress<T>>, ms: seq<T>)
    requires |sends| == |ms|
    requires forall i :: 0 <= i < |sends| ==> sends[i].Send? && sends[i].msg == ms[i]
    ensures SentMessages(sends) == ms
    decreases |sends|
  {
    if |sends| > 0 {
      SentOfSends(sends[1..], ms[1..]);
      SentMessagesCons(sends[0], sends[1..]);
      assert [sends[0]] + sends[1..] == sends;
      assert [ms[0]] + ms[1..] == ms;
    }
  }

  /** The position of the first event that ends a receive loop (EOF or an
      error), or `|events|` when no such event has arrived yet. */
  function FirstStop<T>(events: seq<Recv<T>>): (k: nat)
    ensures k <= |events|
    ensures forall i :: 0 <= i < k ==> events[i].Item?
    ensures k < |events| ==> !events[k].Item?
  {
    if |events| == 0 || !events[0].Item? then 0
    else
      var k' := FirstStop(events[1..]);
      assert forall i :: 1 <= i <= k' ==> events[i] == events[1..][i - 1];
      1 + k'
  }

  /** True when the events contain EOF or an error. */
  predicate Stopped<T>(events: seq<Recv<T>>)
  {
    FirstStop(events) < |events|
  }

  /** The messages a receive loop takes in before it stops. */
  function Received<T>(events: seq<Recv<T>>): (ms: seq<T>)
    ensures |ms| == FirstStop(events)
    ensures forall i :: 0 <= i < |ms| ==> events[i].Item? && events[i].value == ms[i]
  {
    seq(FirstStop(events), i requires 0 <= i < FirstStop(events) => events[i].value)
  }

  /** The receive events of a peer that delivers `ms` one by one. */
  function Items<T>(ms: seq<T>): (events: seq<Recv<T>>)
    ensures |events| == |ms|
    ensures forall i :: 0 <= i < |ms| ==> events[i] == Item(ms[i])
  {
    seq(|ms|, i requires 0 <= i < |ms| => Item(ms[i]))
  }

  /** Taking in one message leaves the remaining receive loop. */
  lemma ReceivedCons<T>(events: seq<Recv<T>>)
    requires |events| > 0 && events[0].Item?
    ensures FirstStop(events) == 1 + FirstStop(events[1..])
    ensures Received(events) == [events[0].value] + Received(events[1..])
  {
  }

  /** If messages `ms` arrive and then EOF or an error, the loop takes in
      exactly `ms` and stops at the event after them, whatever follows. */
  lemma ReceivedItems<T>(ms: seq<T>, stop: Recv<T>, rest: seq<Recv<T>>)
    requires !stop.Item?
    ensures FirstStop(Items(ms) + [stop] + rest) == |ms|
    ensures Received(Items(ms) + [stop] + rest) == ms
  {
    var events := Items(ms) + [stop] + rest;
    assert events[|ms|] == stop;
  }
}
