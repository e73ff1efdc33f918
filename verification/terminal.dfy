/**
  Service2, the terminal hop (`ConvertAudioToText`): it buffers every chunk of
  one inbound stream, hands the whole buffer to the Vosk recogniser once after
  EOF, and sends back a single Transcription. Per session it moves through
  Receiving, then Transcribing, then Sent or Failed.
 */
module TerminalHop {
  import opened Pcm
  import opened Messages
  import opened Streams

  /** The directory `transcribeAudioWithVosk` checks for before running Vosk. */
  const ModelPath: string := "./vosk-model"

  /** The result of running the Python/Vosk subprocess on a buffer: its
      standard output, or the error `cmd.Run()` reported. */
  datatype Subprocess = Exited(stdout: string) | RunFailed(detail: string)

  /** `transcribeAudioWithVosk`: a missing model directory fails before the
      subprocess is started; otherwise the subprocess's output is the text and
      its failure is wrapped as a processing error. `modelPresent` stands for
      the `os.Stat` check and `vosk` for the subprocess. */
  function TranscribeAudioWithVosk(modelPresent: bool, vosk: seq<byte> -> Subprocess, audio: seq<byte>)
    : (r: Result<string>)
    ensures r.Success? <==> modelPresent && vosk(audio).Exited?
    ensures r.Success? ==> r.value == vosk(audio).stdout
    ensures !modelPresent ==> r == Failure(ModelNotFound(ModelPath))
    ensures modelPresent && vosk(audio).RunFailed? ==> r == Failure(VoskProcessing(vosk(audio).detail))
  {
    if !modelPresent then Failure(ModelNotFound(ModelPath))
    else
      match vosk(audio)
      case Exited(out) => Success(out)
      case RunFailed(detail) => Failure(VoskProcessing(detail))
  }

  /** The state of one session. */
  datatype Phase =
    | Receiving(buffer: seq<byte>)
    | Transcribing(buffer: seq<byte>)
    | Sent(reply: Transcription, result: Outcome)
    | Failed(error: Error)
  {
    /** What the call has returned so far: nothing while it still waits for
        chunks, the result of the final `Send` once it has replied, and the
        error once it has failed. */
    function Returned(): Option<Outcome>
    {
      match this
      case Receiving(_) => None
      case Transcribing(_) => None
      case Sent(_, result) => Some(result)
      case Failed(e) => Some(Fail(e))
    }
  }

  /** What the session did to the outside world. */
  datatype Effect = Transcribe(audio: seq<byte>) | Reply(transcription: Transcription)

  /** A session's final phase and its effects, in order. */
  datatype Call = Call(phase: Phase, effects: seq<Effect>)

  /** The receive loop: append each chunk's payload to `audioData` until EOF
      (go on to transcribe) or an error (fail with it). */
  function Collect(events: seq<Recv<AudioChunk>>, audioData: seq<byte>): (p: Phase)
    ensures FirstStop(events) == |events| ==>
              p == Receiving(audioData + Payload(Received(events)))
    ensures Stopped(events) && events[FirstStop(events)].Eof? ==>
              p == Transcribing(audioData + Payload(Received(events)))
    ensures Stopped(events) && events[FirstStop(events)].Err? ==>
              p == Failed(events[FirstStop(events)].error)
  {
    if |events| == 0 || !events[0].Item? then
      assert Received(events) == [];
      assert audioData + Payload([]) == audioData;
      if |events| == 0 then Receiving(audioData)
      else if events[0].Eof? then Transcribing(audioData)
      else Failed(events[0].error)
    else
      var chunk := events[0].value;
      ReceivedCons(events);
      var rest := Received(events[1..]);
      assert ([chunk] + rest)[1..] == rest;
      assert audioData + chunk.data + Payload(rest) == audioData + (chunk.data + Payload(rest));
      Collect(events[1..], audioData + chunk.data)
  }

  /** `ConvertAudioToText`: collect, transcribe once after EOF, and reply once
      with the fixed session identifier. */
  function ConvertAudioToText(events: seq<Recv<AudioChunk>>, modelPresent: bool,
                              vosk: seq<byte> -> Subprocess, sendResult: Outcome): (c: Call)
    // Still receiving: nothing has been transcribed or sent.
    ensures FirstStop(events) == |events| ==>
              c == Call(Receiving(Payload(Received(events))), [])
    // A receive error before EOF: fail with it, no transcription, no reply.
    ensures Stopped(events) && events[FirstStop(events)].Err? ==>
              c == Call(Failed(events[FirstStop(events)].error), [])
    // After EOF the whole buffer is transcribed, first and exactly once.
    ensures Stopped(events) && events[FirstStop(events)].Eof? ==>
              |c.effects| > 0 && c.effects[0] == Transcribe(Payload(Received(events)))
    ensures Stopped(events) && events[FirstStop(events)].Eof? && !modelPresent ==>
              c == Call(Failed(ModelNotFound(ModelPath)), [Transcribe(Payload(Received(events)))])
    ensures Stopped(events) && events[FirstStop(events)].Eof? && modelPresent ==>
              var audio := Payload(Received(events));
              match vosk(audio)
              case RunFailed(detail) =>
                c == Call(Failed(VoskProcessing(detail)), [Transcribe(audio)])
              case Exited(text) =>
                var t := Transcription(text, SessionId);
                c == Call(Sent(t, sendResult), [Transcribe(audio), Reply(t)])
    // At most one transcription, at most one reply, and a reply only after it.
    ensures |c.effects| <= 2
    ensures forall i :: 0 <= i < |c.effects| ==> (c.effects[i].Transcribe? <==> i == 0)
    ensures c.phase.Sent? <==> |c.effects| == 2
    ensures !c.phase.Transcribing?
  {
    var p := Collect(events, []);
    assert [] + Payload(Received(events)) == Payload(Received(events));
    match p
    case Transcribing(audio) =>
      (match TranscribeAudioWithVosk(modelPresent, vosk, audio)
       case Failure(e) => Call(Failed(e), [Transcribe(audio)])
       case Success(text) =>
         var t := Transcription(text, SessionId);
         Call(Sent(t, sendResult), [Transcribe(audio), Reply(t)]))
    case _ => Call(p, [])
  }

  /** All chunks then EOF: the buffer is the in-order concatenation of the
      chunk payloads, nothing reordered, dropped or repeated. */
  lemma AllChunksThenEof(chunks: seq<AudioChunk>, rest: seq<Recv<AudioChunk>>)
    ensures Collect(Items(chunks) + [Eof] + rest, []) == Transcribing(Payload(chunks))
  {
    ReceivedItems(chunks, Eof, rest);
    assert [] + Payload(chunks) == Payload(chunks);
  }

  /** Only the total byte order matters: two chunk sequences whose payloads
      join to the same bytes lead to the same session, whatever their chunk
      boundaries and whatever session identifiers the chunks carried. */
  lemma ChunkBoundariesIrrelevant(xs: seq<AudioChunk>, ys: seq<AudioChunk>,
                                  restX: seq<Recv<AudioChunk>>, restY: seq<Recv<AudioChunk>>,
                                  modelPresent: bool, vosk: seq<byte> -> Subprocess, sendResult: Outcome)
    requires Payload(xs) == Payload(ys)
    ensures ConvertAudioToText(Items(xs) + [Eof] + restX, modelPresent, vosk, sendResult)
         == ConvertAudioToText(Items(ys) + [Eof] + restY, modelPresent, vosk, sendResult)
  {
    ReceivedItems(xs, Eof, restX);
    ReceivedItems(ys, Eof, restY);
  }

  /** Zero chunks then EOF still runs the recogniser, on the empty buffer, and
      a successful run still yields exactly one reply. */
  lemma EmptyStreamTranscribed(rest: seq<Recv<AudioChunk>>, vosk: seq<byte> -> Subprocess, sendResult: Outcome)
    requires vosk([]).Exited?
    ensures ConvertAudioToText([Eof] + rest, true, vosk, sendResult).effects
         == [Transcribe([]), Reply(Transcription(vosk([]).stdout, SessionId))]
  {
  }
}
