# Speech-to-text relay chain: a Dafny model

This project models the sequential logic of a three-hop gRPC audio relay:

- The **head unit** (`StreamAudio`) captures 16-bit microphone samples and serialises each buffer to little-endian PCM bytes (`int16SliceToBytes`). It sends every buffer as an `AudioChunk` with session `"session-123"`, half-closes, and drains the transcriptions that come back.
- **Service1** (`ProcessAudio`) is the relay hop. Its forward loop copies chunks to service2 and half-closes. Its backward loop copies transcriptions back to the caller, and the backward loop's result is the call's result.
- **Service2** (`ConvertAudioToText`) is the terminal hop. It appends every payload to one buffer until EOF and calls the Vosk recogniser once. It then replies with one `Transcription` tagged `"session-123"`.

Every stream is a finite sequence of receive outcomes, `Item(msg) | Eof | Err(e)`. A sequence that runs out before EOF or an error means the loop is still blocked in `Recv`. What a loop does to its outgoing stream is a trace of `Send(msg, result) | CloseSend | Abort`. `Abort` is a deferred `conn.Close()` that runs while the stream is still open. The transport's answer to the n-th send is `sendResults(n)`. The receiving end sees an accepted send as its message and the half-close as EOF. It sees a failed send or an `Abort` as a receive error: the stream has broken. Dialling, stream opening and the microphone set-up are abstract `Outcome`s. The microphone reads are a sequence of polls, and that sequence ending means the capture window has closed. The Vosk subprocess is an uninterpreted function `vosk`, and the `os.Stat` check is a `modelPresent` flag.

Modules: `Pcm` (pcm.dfy), `Messages` (messages.dfy), `Streams` (streams.dfy), `HeadUnit` (headunit.dfy), `Relay` (relay.dfy), `TerminalHop` (terminal.dfy). `Chain` (chain.dfy) feeds each hop's output into the next and proves end-to-end properties. It runs each loop on its own and does not model interleaving.

Where the code departs from the protocol's intended design, the model follows the code:

- Service1's forward loop calls `CloseSend` after a receive error as well as after EOF (service1/service1.go:49). The outbound stream is not left open.
- Service2 always replies with session `"session-123"` (service2/service2.go:49). It ignores the sessions of the chunks it received. The head unit uses the same literal, so the two agree end to end only because both hard-code it.
- The head unit returns nil when its result loop ends on an error as well as on EOF (headunit/headunit.go:91-98).
- The head unit receives results on the same service1 stream it sent on. Its handler never sends anything to its own caller; its `stream` parameter is unused.

## Model

| member | source | states |
|---|---|---|
| Pcm.Int16SliceToBytes | headunit/headunit.go:102-109 | The method writes twice as many bytes as there are samples. Byte `2i` is `byte(sample)` and byte `2i+1` is `byte(sample >> 8)` of sample `i`, which `BytesOfSample` shows are the low and high byte of its two's-complement pattern. The result equals the reference encoding `Encode`. |
| Pcm.Encode | headunit/headunit.go:103-107 | The reference encoding is twice as long as the sample sequence. Positions `2i` and `2i+1` hold `byte(sample)` and `byte(sample >> 8)` of sample `i`. |
| Pcm.BytesOfSample | headunit/headunit.go:105-106 | `byte(sample)` and `byte(sample >> 8)`, with Go's arithmetic shift, are the low and high byte of the sample's unsigned 16-bit two's-complement pattern. Together they rebuild that pattern as `lo + 256 * hi`. |
| Pcm.Uint16Of | headunit/headunit.go:104-106 | The two's-complement pattern of a sample lies in `[0, 65536)` and is congruent to the sample modulo 65536. |
| Pcm.Decode | headunit/headunit.go:102-109 | The decoder yields exactly one sample per byte pair. |
| Pcm.DecodeAt | headunit/headunit.go:105-106 | Sample `i` of a decoding is bytes `2i` and `2i+1` combined as `lo + 256 * hi` (Go's `lo OR hi << 8`) and reinterpreted as signed 16-bit. |
| Pcm.SampleRoundTrip | headunit/headunit.go:105-106 | Decoding the two bytes written for a sample gives that sample back. |
| Pcm.BytePairRoundTrip | headunit/headunit.go:105-106 | Encoding the sample a byte pair decodes to gives the same pair back. |
| Pcm.DecodeEncode | headunit/headunit.go:102-109 | Round trip: `Decode(Encode(data)) == data` for every sample sequence. |
| Pcm.EncodeDecode | headunit/headunit.go:102-109 | Round trip the other way: every even-length byte stream is the encoding of its own decoding. |
| Pcm.EncodeAppend | headunit/headunit.go:104-107 | Encoding distributes over concatenation, so chunk boundaries do not affect the byte stream. |
| Messages.PayloadAppend | service2/service2.go:34 | Joining chunk payloads distributes over concatenation of chunk sequences. |
| TerminalHop.TranscribeAudioWithVosk | service2/service2.go:54-91 | A missing model directory fails with the model-not-found error and no subprocess output is used. Otherwise the subprocess's output is the text, and a subprocess failure becomes a processing error. Success holds exactly when the model is present and the subprocess exits. |
| TerminalHop.Collect | service2/service2.go:25-35 | If the receive loop has seen no EOF or error, it is still Receiving with the in-order join of all payloads so far. At EOF it moves to Transcribing with that join. At a receive error it is Failed with that error. |
| TerminalHop.ConvertAudioToText | service2/service2.go:21-51 | A receive error before EOF returns that error, with no transcription and no reply. After EOF the full buffer is transcribed first and exactly once, even when it is empty. A missing model or subprocess failure returns an error and sends no reply. Success sends exactly one Transcription with the recogniser's text and session "session-123", and returns the send's result. |
| TerminalHop.AllChunksThenEof | service2/service2.go:25-35 | Chunks followed by EOF leave the buffer equal to the in-order join of their payloads. Nothing is reordered, deduplicated or dropped, and events after EOF are never read. |
| TerminalHop.ChunkBoundariesIrrelevant | service2/service2.go:34 | Two chunk sequences whose payloads join to the same bytes lead to identical sessions, whatever their chunk boundaries and chunk session ids. |
| TerminalHop.EmptyStreamTranscribed | service2/service2.go:35-50 | With zero chunks before EOF the recogniser still runs, on the empty buffer, and a successful run still yields exactly one reply. |
| Relay.Forward | service1/service1.go:33-50 | The forward loop sends one outbound chunk per inbound chunk before the first EOF or receive error, in order, with data and session copied. After that event it issues exactly one `CloseSend`, as its last action, whether the event was EOF or an error. It sends nothing more and stays open while no such event has arrived. |
| Relay.ForwardSendsReceived | service1/service1.go:34-47 | The chunks forwarded are exactly the chunks received before the stop, whatever the transport answered to each send. A failed send does not stop forwarding. |
| Relay.ForwardStopsAtFirstStop | service1/service1.go:36-49 | After EOF or a receive error nothing further is read. An error ends the outbound stream exactly as EOF does, with the same sends and one `CloseSend`. |
| Relay.Backward | service1/service1.go:52-67 | The backward loop forwards each transcription upstream in order, text and session unchanged, and ignores send results. It returns nil at EOF and the error at a receive error, and has not returned while neither has arrived. |
| Relay.BackwardErrorKeepsForwarded | service1/service1.go:53-64 | A receive error from service2 becomes the call's error, and the transcriptions already forwarded stay forwarded, the same as when the stream ends with EOF. |
| Relay.ProcessAudio | service1/service1.go:20-68 | A dial or stream-open failure is returned before any inbound chunk is consumed or anything sent. Otherwise the outbound trace is the forward loop's trace, and the chunks forwarded are the chunks received. After inbound EOF or an inbound error it is those sends then exactly one `CloseSend`. If the call returns before that, the deferred `conn.Close()` ends it with `Abort`. The call ends exactly when the backward loop ends, and it fails only on a set-up failure or a receive error from service2. |
| Relay.ResultIgnoresInbound | service1/service1.go:33-50 | The relay's result and its upstream sends do not depend on the inbound stream at all, so an inbound receive error is swallowed. |
| HeadUnit.Capture | headunit/headunit.go:65-84 | The capture loop sends one chunk per poll, in poll order, each carrying `Encode` of the buffer and session "session-123". It stops at the first read error, at the first failed send (after that send), or when the window closes. It then calls `CloseSend` exactly once, as its last action. |
| HeadUnit.FullBufferChunkSize | headunit/headunit.go:48-49 | Every read fills the whole 1024-sample buffer (the `Buffer` type), so every chunk sent carries 2048 bytes and session "session-123". |
| HeadUnit.DrainResults | headunit/headunit.go:86-96 | The result loop logs the transcription texts in receive order up to the first EOF or error, and ends exactly when one of those arrives. |
| HeadUnit.StreamAudio | headunit/headunit.go:29-99 | A dial, stream-open, device-open or device-start failure returns the first such error, before any chunk is sent or result read. A device failure happens after the service1 stream is open, so the deferred `conn.Close()` breaks that stream (`Abort`). Otherwise the outgoing trace is the capture loop's trace: one chunk per poll, each the encoding of that poll's buffer, then exactly one `CloseSend`. Results are logged in order, and the call returns nil once the result loop ends, on EOF or on error. |
| Chain.CaptureCarriesSamples | headunit/headunit.go:65-81 | When every send succeeds, the head unit's chunk payloads join to the encoding of all samples captured before the first read error. |
| Chain.EndToEndAudio | service2/service2.go:25-35 | When both transports accept every send, service2 ends up transcribing exactly the PCM encoding of the captured samples, however they were split into chunks. |
| Chain.RelaySendFailureFailsTerminal | service1/service1.go:44-47 | Service1 ignores a failed send to service2, but the stream has broken. Service2 stops at that point and fails with the receive error, without transcribing or replying. |
| Chain.DeviceFailureTranscribesSilence | headunit/headunit.go:36-58 | The microphone fails to open or start after the service1 stream is open. The head unit returns the device error, and its deferred `conn.Close()` breaks the stream. Service1 half-closes towards service2, as it does after any receive error. Service2 then transcribes an empty buffer. |
| Chain.EndToEndTranscription | service2/service2.go:47-50 | When every transport succeeds and the recogniser succeeds, service1 forwards exactly one Transcription with the recogniser's text and session "session-123". Service1 and the head unit both return nil, and the head unit logs that one text. |
| Chain.EndToEndModelMissing | service2/service2.go:57-59 | When the model directory is missing, service1 returns the model error and forwards nothing. The head unit's result loop still ends: it logs nothing and returns nil. |

## Left out

- gRPC transport, `grpc.Dial`, listeners, `main` and `runClient`: these are network and process plumbing. Dialling and opening streams are abstract outcomes, and `log.Fatalf` process exits are not modelled.
- The interleaving of service1's forward goroutine and its backward loop is not modelled. Each loop runs on its own receive sequence. `Chain` composes the hops sequentially under the assumption that every transport delivers what is sent.
- PortAudio initialisation and reads are foreign device I/O. They become `Setup` outcomes and a sequence of polls. `portaudio.Initialize()`'s result is ignored by the code, so it is no outcome here.
- The 5-second wall-clock window (`time.Now`) becomes the finite sequence of polls made before it closes.
- The Python/Vosk subprocess, `os.Stat` and the text the recogniser produces are external black boxes. They become the function `vosk` and the flag `modelPresent`. The recogniser's fixed 16 kHz rate is part of that black box.
- Logging is left out, except that the head unit's logged transcription texts are its observable output.
- Deferred `conn.Close()` is modelled only where it breaks a stream that is still open: the head unit's device failures, and service1 returning before its forward loop half-closes. It is not recorded after a half-close, because the peer has already seen EOF on that side. After a dial or stream-open failure there is no stream to break.
- Deferred `streamIn.Stop`/`Close` and `portaudio.Terminate` release the local device only and are not modelled.
- The text of the error a peer sees when a stream breaks comes from the gRPC runtime. One fixed value, `Chain.Disconnected`, stands for it.
- Pcm.Decode: it requires an even number of bytes, because the source has no decoder and the model's decoder only reads whole byte pairs.
