/**
  The head unit's `StreamAudio`: after dialling service1, opening the stream
  and starting the microphone, it sends one encoded chunk per microphone poll
  for the length of the capture window, half-closes, and then drains the
  transcriptions service1 sends back. The capture window is the finite
  sequence of polls made before it closes; the device and the transport are
  abstract outcomes.
 */
module HeadUnit {
  import opened Pcm
  import opened Messages
  import opened Streams

  /** The samples the microphone buffer holds (`chunkSize`). */
  const ChunkSize: nat := 1024

  /** The microphone buffer, allocated once with `chunkSize` samples; every
      read overwrites all of it and every send encodes all of it. */
  type Buffer = s: seq<int16> | |s| == ChunkSize witness seq(ChunkSize, _ => 0)

  /** The outcome of one `streamIn.Read()`: the buffer's samples, or an error. */
  datatype Poll = Captured(samples: Buffer) | ReadFailed(error: Error)

  /** The chunk sent for one buffer: its PCM bytes and the fixed session. */
  function ChunkOf(samples: seq<int16>): AudioChunk
  {
    AudioChunk(Encode(samples), SessionId)
  }

  /** The capture loop: poll, encode and send, until the window closes, a read
      fails or a send fails; then `CloseSend`. `sendResults(n)` is the
      transport's answer to the n-th send and `sent` counts the sends so far. */
  function Capture(polls: seq<Poll>, sendResults: nat -> Outcome, sent: nat): (out: seq<Egress<AudioChunk>>)
    // Exactly one half-close, and it is the last action.
    ensures |out| > 0 && out[|out| - 1] == CloseSend
    // Before it, one send per poll in poll order, each of a captured buffer.
    ensures |out| - 1 <= |polls|
    ensures forall i :: 0 <= i < |out| - 1 ==>
              polls[i].Captured? && out[i] == Send(ChunkOf(polls[i].samples), sendResults(sent + i))
    // Every send but the last one succeeded.
    ensures forall i :: 0 <= i < |out| - 2 ==> out[i].Send? && out[i].result.Pass?
    // The loop ended because the window closed, a read failed, or the last send failed.
    ensures || |out| - 1 == |polls|
            || polls[|out| - 1].ReadFailed?
            || (|out| >= 2 && sendResults(sent + |out| - 2).Fail?)
  {
    if |polls| == 0 then [CloseSend]
    else
      match polls[0]
      case ReadFailed(_) => [CloseSend]
      case Captured(samples) =>
        var result := sendResults(sent);
        if result.Fail? then [Send(ChunkOf(samples), result), CloseSend]
        else
          var rest := Capture(polls[1..], sendResults, sent + 1);
          assert forall i :: 1 <= i < |polls| ==> polls[i] == polls[1..][i - 1];
          [Send(ChunkOf(samples), result)] + rest
  }

  /** Every chunk the head unit sends carries a whole buffer: `2 * ChunkSize`
      bytes. */
  lemma FullBufferChunkSize(polls: seq<Poll>, sendResults: nat -> Outcome)
    ensures forall m :: m in SentMessages(Capture(polls, sendResults, 0)) ==>
              |m.data| == 2 * ChunkSize && m.sessionId == SessionId
  {
    var out := Capture(polls, sendResults, 0);
    CaptureSentChunks(out, polls, sendResults);
  }

  /** The messages of a capture trace are the chunks of its polls. */
  lemma CaptureSentChunks(out: seq<Egress<AudioChunk>>, polls: seq<Poll>, sendResults: nat -> Outcome)
    requires out == Capture(polls, sendResults, 0)
    ensures |SentMessages(out)| == |out| - 1
    ensures forall i :: 0 <= i < |out| - 1 ==> SentMessages(out)[i] == ChunkOf(polls[i].samples)
  {
    var sends := out[..|out| - 1];
    var chunks := seq(|out| - 1, i requires 0 <= i < |out| - 1 => ChunkOf(polls[i].samples));
    SentOfSends(sends, chunks);
    assert out == sends + [CloseSend];
    SentMessagesAppend(sends, [CloseSend]);
    SentMessagesCons<AudioChunk>(CloseSend, []);
  }

  /** What the result loop has done: the texts it logged, in receive order,
      and whether it has ended. */
  datatype Drain = Drain(logged: seq<string>, ended: bool)

  /** The result loop: log each transcription until EOF or an error. */
  function DrainResults(recvs: seq<Recv<Transcription>>): (d: Drain)
    ensures |d.logged| == FirstStop(recvs)
    ensures forall i :: 0 <= i < |d.logged| ==> d.logged[i] == recvs[i].value.text
    ensures d.ended <==> Stopped(recvs)
  {
    if |recvs| == 0 then Drain([], false)
    else
      match recvs[0]
      case Eof => Drain([], true)
      case Err(_) => Drain([], true)
      case Item(t) =>
        var rest := DrainResults(recvs[1..]);
        assert forall i :: 1 <= i <= FirstStop(recvs[1..]) ==> recvs[i] == recvs[1..][i - 1];
        Drain([t.text] + rest.logged, rest.ended)
  }

  /** The outcomes of the set-up steps, in the order they are attempted:
      dialling service1, opening the stream, opening and starting the
      microphone. */
  datatype Setup = Setup(dial: Outcome, openStream: Outcome, openDevice: Outcome, startDevice: Outcome)
  {
    /** All four steps succeeded. */
    predicate Ready()
    {
      dial.Pass? && openStream.Pass? && openDevice.Pass? && startDevice.Pass?
    }

    /** The error of the first step that failed. */
    function FirstError(): (e: Error)
      requires !Ready()
      ensures dial.Fail? ==> e == dial.error
      ensures dial.Pass? && openStream.Fail? ==> e == openStream.error
      ensures dial.Pass? && openStream.Pass? && openDevice.Fail? ==> e == openDevice.error
      ensures dial.Pass? && openStream.Pass? && openDevice.Pass? ==> e == startDevice.error
    {
      if dial.Fail? then dial.error
      else if openStream.Fail? then openStream.error
      else if openDevice.Fail? then openDevice.error
      else startDevice.error
    }
  }

  /** Everything one `StreamAudio` call did. */
  datatype HeadUnitRun = HeadUnitRun(egress: seq<Egress<AudioChunk>>, logged: seq<string>, returned: Option<Outcome>)

  /** `StreamAudio`: set up, capture and send, then drain results. A set-up
      failure is returned before anything is sent; if the service1 stream was
      already open, the deferred `conn.Close()` then breaks it. Otherwise the
      call returns nil once the result loop ends, whether on EOF or on an
      error. */
  function StreamAudio(setup: Setup, polls: seq<Poll>, sendResults: nat -> Outcome,
                       recvs: seq<Recv<Transcription>>): (r: HeadUnitRun)
    // A dial or stream-open failure: no stream to service1 exists.
    ensures setup.dial.Fail? || (setup.dial.Pass? && setup.openStream.Fail?) ==>
              r == HeadUnitRun([], [], Some(Fail(setup.FirstError())))
    // A microphone failure: the open stream is torn down before any send.
    ensures setup.dial.Pass? && setup.openStream.Pass? && !setup.Ready() ==>
              r == HeadUnitRun([Abort], [], Some(Fail(setup.FirstError())))
    ensures setup.Ready() ==>
              // The capture loop's trace: one chunk per poll, then one half-close.
              && r.egress == Capture(polls, sendResults, 0)
              && |r.egress| > 0 && r.egress[|r.egress| - 1] == CloseSend
              && (forall i :: 0 <= i < |r.egress| - 1 ==>
                    polls[i].Captured? && r.egress[i] == Send(ChunkOf(polls[i].samples), sendResults(i)))
              && |r.logged| == FirstStop(recvs)
              && (forall i :: 0 <= i < |r.logged| ==> r.logged[i] == recvs[i].value.text)
              && r.returned == (if Stopped(recvs) then Some(Pass) else None)
  {
    if setup.dial.Fail? || setup.openStream.Fail? then HeadUnitRun([], [], Some(Fail(setup.FirstError())))
    else if !setup.Ready() then HeadUnitRun([Abort], [], Some(Fail(setup.FirstError())))
    else
      var drain := DrainResults(recvs);
      HeadUnitRun(Capture(polls, sendResults, 0), drain.logged, if drain.ended then Some(Pass) else None)
  }
}
