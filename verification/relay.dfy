/**
  Service1, the relay hop (`ProcessAudio`). After opening its stream to
  service2 it runs two loops: a forward loop (a goroutine) that copies audio
  chunks from the inbound stream to service2, and a backward loop that copies
  transcriptions from service2 back to the caller and whose end is the call's
  result. Each loop is modelled on its own, over its own receive sequence;
  how the two interleave is not modelled.
 */
module Relay {
  import opened Messages
  import opened Streams

  /** The forward loop: re-wrap every inbound chunk (same data, same session)
      and send it to service2 until EOF or a receive error, then half-close the
      outbound stream in both cases. `sendResults(n)` is the transport's answer
      to the n-th send; the loop discards it. `sent` counts the sends so far. */
  function Forward(inbound: seq<Recv<AudioChunk>>, sendResults: nat -> Outcome, sent: nat)
    : (out: seq<Egress<AudioChunk>>)
    ensures |out| == FirstStop(inbound) + (if Stopped(inbound) then 1 else 0)
    ensures forall i :: 0 <= i < FirstStop(inbound) ==>
              out[i] == Send(inbound[i].value, sendResults(sent + i))
    ensures Stopped(inbound) ==> out[|out| - 1] == CloseSend
    ensures forall i :: 0 <= i < |out| && out[i].CloseSend? ==> i == |out| - 1
  {
    if |inbound| == 0 then []
    else
      match inbound[0]
      case Eof => [CloseSend]
      case Err(_) => [CloseSend]
      case Item(chunk) =>
        var rest := Forward(inbound[1..], sendResults, sent + 1);
        assert forall i :: 1 <= i <= FirstStop(inbound[1..]) ==> inbound[i] == inbound[1..][i - 1];
        [Send(AudioChunk(chunk.data, chunk.sessionId), sendResults(sent))] + rest
  }

  /** The chunks the forward loop sends are exactly the chunks it received
      before EOF or the first receive error, in order, whatever the transport
      answered to each send: a failed send does not stop forwarding. */
  lemma {:induction false} ForwardSendsReceived(inbound: seq<Recv<AudioChunk>>, sendResults: nat -> Outcome, sent: nat)
    ensures SentMessages(Forward(inbound, sendResults, sent)) == Received(inbound)
    decreases |inbound|
  {
    if |inbound| == 0 || !inbound[0].Item? {
      assert Received(inbound) == [];
      if |inbound| > 0 {
        SentMessagesCons<AudioChunk>(CloseSend, []);
      }
    } else {
      var chunk := inbound[0].value;
      ReceivedCons(inbound);
      ForwardSendsReceived(inbound[1..], sendResults, sent + 1);
      SentMessagesCons(Send(chunk, sendResults(sent)), Forward(inbound[1..], sendResults, sent + 1));
    }
  }

  /** The half-close is issued after EOF and after a receive error alike:
      once the inbound stream has stopped, whatever arrives afterwards is
      never read and the outbound stream ends with exactly one `CloseSend`. */
  lemma ForwardStopsAtFirstStop(chunks: seq<AudioChunk>, stop: Recv<AudioChunk>, rest: seq<Recv<AudioChunk>>,
                                sendResults: nat -> Outcome)
    requires !stop.Item?
    ensures Forward(Items(chunks) + [stop] + rest, sendResults, 0)
         == Forward(Items(chunks) + [Eof], sendResults, 0)
    ensures SentMessages(Forward(Items(chunks) + [stop] + rest, sendResults, 0)) == chunks
  {
    ReceivedItems(chunks, stop, rest);
    ReceivedItems(chunks, Eof, []);
    assert Items(chunks) + [Eof] + [] == Items(chunks) + [Eof];
    var a := Forward(Items(chunks) + [stop] + rest, sendResults, 0);
    var b := Forward(Items(chunks) + [Eof], sendResults, 0);
    assert |a| == |b|;
    forall i | 0 <= i < |a|
      ensures a[i] == b[i]
    {
    }
    ForwardSendsReceived(Items(chunks) + [stop] + rest, sendResults, 0);
  }

  /** What the backward loop has done: its sends to the caller and, once it
      has ended, the value `ProcessAudio` returns. */
  datatype Drained = Drained(upstream: seq<Egress<Transcription>>, returned: Option<Outcome>)

  /** The backward loop: re-wrap every transcription from service2 (same text,
      same session) and send it to the caller, ignoring the send's result,
      until EOF (return nil) or a receive error (return that error). */
  function Backward(outbound: seq<Recv<Transcription>>, sendResults: nat -> Outcome, sent: nat): (r: Drained)
    ensures |r.upstream| == FirstStop(outbound)
    ensures forall i :: 0 <= i < |r.upstream| ==>
              r.upstream[i] == Send(outbound[i].value, sendResults(sent + i))
    ensures r.returned.None? <==> !Stopped(outbound)
    ensures Stopped(outbound) && outbound[FirstStop(outbound)].Eof? ==> r.returned == Some(Pass)
    ensures Stopped(outbound) && outbound[FirstStop(outbound)].Err? ==>
              r.returned == Some(Fail(outbound[FirstStop(outbound)].error))
  {
    if |outbound| == 0 then Drained([], None)
    else
      match outbound[0]
      case Eof => Drained([], Some(Pass))
      case Err(e) => Drained([], Some(Fail(e)))
      case Item(t) =>
        var rest := Backward(outbound[1..], sendResults, sent + 1);
        assert forall i :: 1 <= i <= FirstStop(outbound[1..]) ==> outbound[i] == outbound[1..][i - 1];
        Drained([Send(Transcription(t.text, t.sessionId), sendResults(sent))] + rest.upstream, rest.returned)
  }

  /** A receive error from service2 becomes the call's error, and the
      transcriptions forwarded before it stay forwarded: the caller sees the
      same sends as if the stream had ended with EOF. */
  lemma BackwardErrorKeepsForwarded(ts: seq<Transcription>, e: Error, rest: seq<Recv<Transcription>>,
                                    sendResults: nat -> Outcome)
    ensures Backward(Items(ts) + [Err(e)] + rest, sendResults, 0).returned == Some(Fail(e))
    ensures Backward(Items(ts) + [Eof], sendResults, 0).returned == Some(Pass)
    ensures Backward(Items(ts) + [Err(e)] + rest, sendResults, 0).upstream
         == Backward(Items(ts) + [Eof], sendResults, 0).upstream
    ensures SentMessages(Backward(Items(ts) + [Eof], sendResults, 0).upstream) == ts
  {
    ReceivedItems(ts, Err(e), rest);
    ReceivedItems(ts, Eof, []);
    assert Items(ts) + [Eof] + [] == Items(ts) + [Eof];
    var a := Backward(Items(ts) + [Err(e)] + rest, sendResults, 0).upstream;
    var b := Backward(Items(ts) + [Eof], sendResults, 0).upstream;
    assert |a| == |b|;
    forall i | 0 <= i < |a|
      ensures a[i] == b[i]
    {
    }
    SentOfSends(b, ts);
  }

  /** Everything one `ProcessAudio` call did. */
  datatype RelayRun = RelayRun(outbound: seq<Egress<AudioChunk>>,
                               upstream: seq<Egress<Transcription>>,
                               returned: Option<Outcome>)

  /** `ProcessAudio`: dial service2 and open the stream (either failure is
      returned before any inbound chunk is read), then run both loops. When
      the backward loop returns, the deferred `conn.Close()` breaks the
      stream to service2 if the forward loop has not half-closed it. */
  function ProcessAudio(dial: Outcome, open: Outcome,
                        inbound: seq<Recv<AudioChunk>>, outboundSends: nat -> Outcome,
                        outbound: seq<Recv<Transcription>>, upstreamSends: nat -> Outcome)
    : (r: RelayRun)
    ensures dial.Fail? ==> r == RelayRun([], [], Some(dial))
    ensures dial.Pass? && open.Fail? ==> r == RelayRun([], [], Some(open))
    ensures dial.Pass? && open.Pass? ==>
              // The forward loop's trace, broken by the deferred `conn.Close()`
              // when the call returns before that loop has half-closed.
              && r.outbound == Forward(inbound, outboundSends, 0)
                               + (if r.returned.Some? && !Stopped(inbound) then [Abort] else [])
              && SentMessages(r.outbound) == Received(inbound)
              // After EOF or an inbound error: the sends, then exactly one half-close.
              && (Stopped(inbound) ==>
                    && |r.outbound| == FirstStop(inbound) + 1
                    && r.outbound[|r.outbound| - 1] == CloseSend
                    && (forall i :: 0 <= i < |r.outbound| - 1 ==> r.outbound[i].Send?))
              && |r.upstream| == FirstStop(outbound)
              && (forall i :: 0 <= i < |r.upstream| ==> r.upstream[i] == Send(outbound[i].value, upstreamSends(i)))
    // The call ends when, and only when, the backward loop ends.
    ensures r.returned.None? <==> dial.Pass? && open.Pass? && !Stopped(outbound)
    // An inbound receive error is never reported: only a setup failure or a
    // receive error from service2 makes the call fail.
    ensures (r.returned.Some? && r.returned.value.Fail?) <==>
              dial.Fail? || open.Fail? || (Stopped(outbound) && outbound[FirstStop(outbound)].Err?)
  {
    if dial.Fail? then RelayRun([], [], Some(dial))
    else if open.Fail? then RelayRun([], [], Some(open))
    else
      ForwardSendsReceived(inbound, outboundSends, 0);
      var back := Backward(outbound, upstreamSends, 0);
      var forward := Forward(inbound, outboundSends, 0);
      var torn: seq<Egress<AudioChunk>> := if back.returned.Some? && !Stopped(inbound) then [Abort] else [];
      SentMessagesAppend(forward, torn);
      SentMessagesCons<AudioChunk>(Abort, []);
      RelayRun(forward + torn, back.upstream, back.returned)
  }

  /** Fire-and-forget: what the relay returns does not depend on its inbound
      stream at all, so an inbound error mid-session is swallowed. */
  lemma ResultIgnoresInbound(dial: Outcome, open: Outcome,
                             in1: seq<Recv<AudioChunk>>, in2: seq<Recv<AudioChunk>>, outboundSends: nat -> Outcome,
                             outbound: seq<Recv<Transcription>>, upstreamSends: nat -> Outcome)
    ensures ProcessAudio(dial, open, in1, outboundSends, outbound, upstreamSends).returned
         == ProcessAudio(dial, open, in2, outboundSends, outbound, upstreamSends).returned
    ensures ProcessAudio(dial, open, in1, outboundSends, outbound, upstreamSends).upstream
         == ProcessAudio(dial, open, in2, outboundSends, outbound, upstreamSends).upstream
  {
  }
}
