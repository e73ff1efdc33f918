/**
  The three services chained together, each loop run on its own: the head
  unit's sends become service1's inbound stream, service1's forwarded chunks
  become service2's inbound stream, and the replies travel back the same way.
  A transport delivers the messages it accepted, in order. It turns a
  half-close or a handler's return into the end of the peer's stream, and a
  failed send or a torn-down connection into a receive error.
 */
module Chain {
  import opened Pcm
  import opened Messages
  import opened Streams
  import opened HeadUnit
  import opened Relay
  import opened TerminalHop

  /** The error a peer's `Recv` reports once the stream under it is broken.
      Its text comes from the gRPC runtime; one fixed value stands for it. */
  const Disconnected: Error := Transport("connection closed")

  /** What the receiving end observes of one action of the sender: a message
      the transport accepted, EOF for the half-close, and a broken stream for
      a failed send or a torn-down connection. */
  function Seen<T>(e: Egress<T>): Recv<T>
  {
    if e.Send? then (if e.result.Pass? then Item(e.msg) else Err(Disconnected))
    else if e.CloseSend? then Eof
    else Err(Disconnected)
  }

  /** What the receiving end observes of a sender's actions, one event per
      action; the receiver stops reading at the first non-message. */
  function Deliver<T>(out: seq<Egress<T>>): (events: seq<Recv<T>>)
    ensures |events| == |out|
    ensures forall i :: 0 <= i < |out| ==> events[i] == Seen(out[i])
  {
    seq(|out|, i requires 0 <= i < |out| => Seen(out[i]))
  }

  /** What the client of a finished handler receives after its messages: EOF
      when it returned nil, the error when it returned one. */
  function Ending(returned: Option<Outcome>): seq<Recv<Transcription>>
  {
    match returned
    case None => []
    case Some(Pass) => [Eof]
    case Some(Fail(e)) => [Err(e)]
  }

  /** What service1 receives from service2 for a finished or pending call:
      the reply as the transport delivered it, then the call's ending. */
  function RepliesOf(c: Call): seq<Recv<Transcription>>
  {
    (if c.phase.Sent? then Deliver([Send(c.phase.reply, c.phase.result)]) else []) + Ending(c.phase.Returned())
  }

  /** A transport whose every send succeeds. */
  function AllPass(n: nat): Outcome
  {
    Pass
  }

  /** The samples of the polls up to the first read error, joined. */
  function CapturedSamples(polls: seq<Poll>): seq<int16>
  {
    if |polls| == 0 || polls[0].ReadFailed? then []
    else polls[0].samples + CapturedSamples(polls[1..])
  }

  /** Sends the transport accepted are seen as their messages. */
  lemma DeliverAccepted<T>(sends: seq<Egress<T>>, ms: seq<T>)
    requires |sends| == |ms|
    requires forall i :: 0 <= i < |sends| ==> sends[i] == Send(ms[i], Pass)
    ensures Deliver(sends) == Items(ms)
  {
    var d := Deliver(sends);
    forall i | 0 <= i < |sends|
      ensures d[i] == Item(ms[i])
    {
      assert Seen(sends[i]) == Item(ms[i]);
    }
  }

  /** A trace of accepted sends closed by one `CloseSend` is seen as its
      messages then EOF. */
  lemma DeliverClosed<T>(out: seq<Egress<T>>)
    requires |out| > 0 && out[|out| - 1].CloseSend?
    requires forall i :: 0 <= i < |out| - 1 ==> out[i].Send? && out[i].result.Pass?
    ensures Deliver(out) == Items(SentMessages(out)) + [Eof]
  {
    var sends := out[..|out| - 1];
    assert out == sends + [CloseSend] by {
      assert out == sends + [out[|out| - 1]];
    }
    var ms := seq(|sends|, i requires 0 <= i < |sends| => sends[i].msg);
    assert forall i :: 0 <= i < |sends| ==> sends[i] == Send(ms[i], Pass);
    ClosedTrace(sends, ms);
  }

  /** Accepted sends then a half-close: the messages are the sends' messages,
      and the peer sees them then EOF. */
  lemma ClosedTrace<T>(sends: seq<Egress<T>>, ms: seq<T>)
    requires |sends| == |ms|
    requires forall i :: 0 <= i < |sends| ==> sends[i] == Send(ms[i], Pass)
    ensures SentMessages(sends + [CloseSend]) == ms
    ensures Deliver(sends + [CloseSend]) == Items(ms) + [Eof]
  {
    SentOfSends(sends, ms);
    SentMessagesAppend(sends, [CloseSend]);
    SentMessagesCons<T>(CloseSend, []);
    DeliverAccepted(sends, ms);
    DeliverAppend(sends, [CloseSend]);
    assert Deliver<T>([CloseSend]) == [Eof];
  }

  /** Delivery is event by event, so it distributes over concatenation. */
  lemma DeliverAppend<T>(a: seq<Egress<T>>, b: seq<Egress<T>>)
    ensures Deliver(a + b) == Deliver(a) + Deliver(b)
  {
    var d := Deliver(a + b);
    forall i | 0 <= i < |a| + |b|
      ensures d[i] == (Deliver(a) + Deliver(b))[i]
    {
      if i < |a| {
        assert (a + b)[i] == a[i];
      } else {
        assert (a + b)[i] == b[i - |a|];
      }
    }
  }

  /** With a transport that accepts every send, the chunks the head unit sends
      carry, joined, the encoding of every sample captured before the first
      read error. */
  lemma {:induction false} CaptureCarriesSamples(polls: seq<Poll>, sent: nat)
    ensures Payload(SentMessages(Capture(polls, AllPass, sent))) == Encode(CapturedSamples(polls))
    decreases |polls|
  {
    if |polls| == 0 || polls[0].ReadFailed? {
      SentMessagesCons<AudioChunk>(CloseSend, []);
    } else {
      var samples := polls[0].samples;
      var rest := Capture(polls[1..], AllPass, sent + 1);
      assert Capture(polls, AllPass, sent) == [Send(ChunkOf(samples), Pass)] + rest;
      SentMessagesCons(Send(ChunkOf(samples), Pass), rest);
      CaptureCarriesSamples(polls[1..], sent + 1);
      var ms := SentMessages(rest);
      assert ([ChunkOf(samples)] + ms)[1..] == ms;
      EncodeAppend(samples, CapturedSamples(polls[1..]));
    }
  }

  /** Service1 receives the head unit's chunks then EOF. */
  lemma CaptureDelivered(polls: seq<Poll>)
    ensures Deliver(Capture(polls, AllPass, 0)) == Items(SentMessages(Capture(polls, AllPass, 0))) + [Eof]
  {
    DeliverClosed(Capture(polls, AllPass, 0));
  }

  /** Service2 receives the chunks service1 received, then EOF, when service2's
      transport accepts every send. */
  lemma ForwardDelivered(chunks: seq<AudioChunk>)
    ensures Deliver(Forward(Items(chunks) + [Eof], AllPass, 0)) == Items(chunks) + [Eof]
  {
    ForwardStopsAtFirstStop(chunks, Eof, [], AllPass);
    assert Items(chunks) + [Eof] + [] == Items(chunks) + [Eof];
    DeliverClosed(Forward(Items(chunks) + [Eof], AllPass, 0));
  }

  /** End to end, audio: when both transports accept every send, service2
      ends up transcribing exactly the PCM encoding of the captured samples,
      however the head unit split them into chunks. */
  lemma EndToEndAudio(polls: seq<Poll>)
    ensures Deliver(Forward(Deliver(Capture(polls, AllPass, 0)), AllPass, 0))
         == Items(SentMessages(Capture(polls, AllPass, 0))) + [Eof]
    ensures Collect(Deliver(Forward(Deliver(Capture(polls, AllPass, 0)), AllPass, 0)), [])
         == Transcribing(Encode(CapturedSamples(polls)))
  {
    var chunks := SentMessages(Capture(polls, AllPass, 0));
    CaptureDelivered(polls);
    ForwardDelivered(chunks);
    AllChunksThenEof(chunks, []);
    assert Items(chunks) + [Eof] + [] == Items(chunks) + [Eof];
    CaptureCarriesSamples(polls, 0);
  }

  /** Service1 ignores the error of its sends to service2, but service2 does
      not: at service1's first failed send the stream breaks, and service2
      fails with that error without transcribing or replying. */
  lemma RelaySendFailureFailsTerminal(chunks: seq<AudioChunk>, relaySends: nat -> Outcome, k: nat,
                                      modelPresent: bool, vosk: seq<byte> -> Subprocess, sendResult: Outcome)
    requires k < |chunks| && relaySends(k).Fail?
    requires forall j :: 0 <= j < k ==> relaySends(j).Pass?
    ensures ConvertAudioToText(Deliver(Forward(Items(chunks) + [Eof], relaySends, 0)), modelPresent, vosk, sendResult)
         == Call(Failed(Disconnected), [])
  {
    var events := Deliver(Forward(Items(chunks) + [Eof], relaySends, 0));
    ReceivedItems(chunks, Eof, []);
    assert events[k] == Err(Disconnected);
    assert FirstStop(events) == k;
  }

  /** The microphone fails after the service1 stream is open: the head unit
      returns the device error, its deferred `conn.Close()` breaks the
      stream, service1 half-closes towards service2 as it does after any
      receive error, and service2 transcribes an empty buffer. */
  lemma DeviceFailureTranscribesSilence(setup: Setup, polls: seq<Poll>, recvs: seq<Recv<Transcription>>,
                                        modelPresent: bool, vosk: seq<byte> -> Subprocess, sendResult: Outcome)
    requires setup.dial.Pass? && setup.openStream.Pass? && !setup.Ready()
    ensures var head := StreamAudio(setup, polls, AllPass, recvs);
            && head.returned == Some(Fail(setup.FirstError()))
            && Deliver(head.egress) == [Err(Disconnected)]
            && Forward(Deliver(head.egress), AllPass, 0) == [CloseSend]
            && ConvertAudioToText(Deliver(Forward(Deliver(head.egress), AllPass, 0)),
                                  modelPresent, vosk, sendResult).effects[0] == Transcribe([])
  {
  }

  /** What service2 receives ends with EOF after chunks whose payloads join
      to the encoding of the captured samples. */
  lemma TerminalInput(polls: seq<Poll>)
    ensures var termIn := Deliver(Forward(Deliver(Capture(polls, AllPass, 0)), AllPass, 0));
            && Stopped(termIn) && termIn[FirstStop(termIn)].Eof?
            && Payload(Received(termIn)) == Encode(CapturedSamples(polls))
  {
    var chunks := SentMessages(Capture(polls, AllPass, 0));
    EndToEndAudio(polls);
    ReceivedItems(chunks, Eof, []);
    assert Items(chunks) + [Eof] + [] == Items(chunks) + [Eof];
    CaptureCarriesSamples(polls, 0);
  }

  /** Service1 forwards a single reply followed by EOF to its caller and
      returns nil; the head unit logs its text and returns nil. */
  lemma ReplyTravelsBack(t: Transcription, polls: seq<Poll>, relayIn: seq<Recv<AudioChunk>>)
    ensures var relay := ProcessAudio(Pass, Pass, relayIn, AllPass, [Item(t), Eof], AllPass);
            && relay.upstream == [Send(t, Pass)]
            && relay.returned == Some(Pass)
            && Deliver(relay.upstream) + Ending(relay.returned) == [Item(t), Eof]
            && StreamAudio(Setup(Pass, Pass, Pass, Pass), polls, AllPass, [Item(t), Eof]).logged == [t.text]
            && StreamAudio(Setup(Pass, Pass, Pass, Pass), polls, AllPass, [Item(t), Eof]).returned == Some(Pass)
  {
  }

  /** Service2's answer to the head unit's audio, when the recogniser
      succeeds: one reply with the recogniser's text, then EOF. */
  lemma TerminalReplies(polls: seq<Poll>, vosk: seq<byte> -> Subprocess)
    requires vosk(Encode(CapturedSamples(polls))).Exited?
    ensures RepliesOf(ConvertAudioToText(Deliver(Forward(Deliver(Capture(polls, AllPass, 0)), AllPass, 0)),
                                         true, vosk, Pass))
         == [Item(Transcription(vosk(Encode(CapturedSamples(polls))).stdout, SessionId)), Eof]
  {
    var t := Transcription(vosk(Encode(CapturedSamples(polls))).stdout, SessionId);
    TerminalSucceeds(polls, vosk);
    DeliverAccepted([Send(t, Pass)], [t]);
  }

  /** Service2 replies to the head unit's audio with the recogniser's text. */
  lemma TerminalSucceeds(polls: seq<Poll>, vosk: seq<byte> -> Subprocess)
    requires vosk(Encode(CapturedSamples(polls))).Exited?
    ensures ConvertAudioToText(Deliver(Forward(Deliver(Capture(polls, AllPass, 0)), AllPass, 0)), true, vosk, Pass).phase
         == Sent(Transcription(vosk(Encode(CapturedSamples(polls))).stdout, SessionId), Pass)
  {
    TerminalInput(polls);
  }

  /** End to end, success: when every transport accepts every send and the
      recogniser succeeds, service1 forwards exactly one Transcription, with
      the recogniser's text and session "session-123", both service1 and the
      head unit return nil, and the head unit logs that one text. */
  lemma EndToEndTranscription(polls: seq<Poll>, vosk: seq<byte> -> Subprocess)
    requires vosk(Encode(CapturedSamples(polls))).Exited?
    ensures
      var text := vosk(Encode(CapturedSamples(polls))).stdout;
      var relayIn := Deliver(Capture(polls, AllPass, 0));
      var call := ConvertAudioToText(Deliver(Forward(relayIn, AllPass, 0)), true, vosk, Pass);
      var relay := ProcessAudio(Pass, Pass, relayIn, AllPass, RepliesOf(call), AllPass);
      var head := StreamAudio(Setup(Pass, Pass, Pass, Pass), polls, AllPass,
                              Deliver(relay.upstream) + Ending(relay.returned));
      && relay.upstream == [Send(Transcription(text, SessionId), Pass)]
      && relay.returned == Some(Pass)
      && head.logged == [text]
      && head.returned == Some(Pass)
  {
    var t := Transcription(vosk(Encode(CapturedSamples(polls))).stdout, SessionId);
    TerminalReplies(polls, vosk);
    ReplyTravelsBack(t, polls, Deliver(Capture(polls, AllPass, 0)));
  }

  /** End to end, missing model: service2 fails with the model error, service1
      returns that error and forwards nothing, and the head unit's result loop
      still ends: it logs nothing and returns nil. */
  lemma EndToEndModelMissing(polls: seq<Poll>, vosk: seq<byte> -> Subprocess)
    ensures
      var relayIn := Deliver(Capture(polls, AllPass, 0));
      var call := ConvertAudioToText(Deliver(Forward(relayIn, AllPass, 0)), false, vosk, Pass);
      var relay := ProcessAudio(Pass, Pass, relayIn, AllPass, RepliesOf(call), AllPass);
      var head := StreamAudio(Setup(Pass, Pass, Pass, Pass), polls, AllPass,
                              Deliver(relay.upstream) + Ending(relay.returned));
      && relay.upstream == []
      && relay.returned == Some(Fail(ModelNotFound(ModelPath)))
      && head.logged == []
      && head.returned == Some(Pass)
  {
    TerminalInput(polls);
  }
}
