/**
  The messages that travel along the relay chain and the error values its
  services return. The head-unit, service1 and service2 protobuf packages each
  declare an `AudioChunk` and a `Transcription` of identical shape; one
  datatype stands for all of them.
 */
module Messages {
  import opened Pcm

  /** The session identifier the head unit and service2 write into every
      message they create; it is a literal in both services. */
  const SessionId: string := "session-123"

  /** The errors a call can end with. Transport, device and subprocess errors
      come from outside the model and carry the collaborator's own text. */
  datatype Error =
    | Transport(detail: string)
    | Device(detail: string)
    | ModelNotFound(path: string)
    | VoskProcessing(detail: string)

  /** A value that may be absent. */
  datatype Option<T> = None | Some(value: T)

  /** A Go `error` return value: nil, or an error. */
  datatype Outcome = Pass | Fail(error: Error)

  /** A Go `(value, error)` pair where exactly one side is meaningful. */
  datatype Result<T> = Success(value: T) | Failure(error: Error)

  /** One chunk of little-endian 16-bit PCM audio. */
  datatype AudioChunk = AudioChunk(data: seq<byte>, sessionId: string)

  /** The recognised text of one session. */
  datatype Transcription = Transcription(text: string, sessionId: string)

  /** The payloads of `chunks` joined in order. */
  function Payload(chunks: seq<AudioChunk>): seq<byte>
  {
    if |chunks| == 0 then [] else chunks[0].data + Payload(chunks[1..])
  }

  /** Joining payloads distributes over concatenating chunk sequences. */
  lemma {:induction false} PayloadAppend(a: seq<AudioChunk>, b: seq<AudioChunk>)
    ensures Payload(a + b) == Payload(a) + Payload(b)
  {
    if |a| == 0 {
      assert a + b == b;
    } else {
      assert (a + b)[1..] == a[1..] + b;
      PayloadAppend(a[1..], b);
    }
  }
}
