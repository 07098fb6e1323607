/** server/server/services/speech_recognition/vosk_service.py: the `VoskService` object,
    whose `websocket` field `initialize` sets and the other methods use. The global
    configuration it reads (sample rate, block size) is passed in. */
module VoskService {
  import opened Wrappers
  import opened Text
  import opened Settings
  import opened VoskProtocol

  /** The chunks from offset `i` on: the one at `i`, then the rest. */
  lemma ChunksFrom(samples: Block, size: nat, i: nat)
    requires size > 0 && i < |samples|
    ensures Chunks(samples[i..], size)
      == [samples[i..Min(i + size, |samples|)]] + Chunks(samples[Min(i + size, |samples|)..], size)
  {
    var m := Min(size, |samples| - i);
    assert samples[i..][..m] == samples[i..i + m];
    assert samples[i..][m..] == samples[i + m..];
  }

  class Service {
    const uri: string
    const language: string
    var websocket: Option<Conn>

    /** `VoskService(uri, language)`: not connected yet. */
    constructor (uri: string, language: string)
      ensures this.uri == uri && this.language == language && websocket == None
    {
      this.uri := uri;
      this.language := language;
      websocket := None;
    }

    /** `initialize()`: connect to the server at `uri` (`server` is `None` when that
        fails, and the error is raised as it is) and send the handshake, whose sample rate
        is the global setting, not anything of this object. */
    method Initialize(sampleRate: EnvValue, server: Option<seq<Reply>>) returns (connected: bool)
      modifies this
      ensures connected <==> server.Some?
      ensures websocket == if server.Some? then Some(Connected(server.value, sampleRate, language)) else old(websocket)
    {
      if server.None? {
        return false;
      }
      var ws := Conn(true, [], server.value);
      ws := ws.(sent := ws.sent + [Handshake(sampleRate, language)]);
      assert ws.sent == [Handshake(sampleRate, language)];
      websocket := Some(ws);
      return true;
    }

    /** The body of `process_audio_stream`'s loop for one chunk: send it, read the one
        reply, and classify it, as `Exchange` and `Recognized` specify. */
    method StreamChunk(chunk: Block) returns (r: Result<Recognition, Fault>)
      modifies this
      ensures websocket == Exchange(old(websocket), Audio(chunk)).ws
      ensures r == Recognized(Exchange(old(websocket), Audio(chunk)).reply)
    {
      var e := Exchange(websocket, Audio(chunk));
      websocket := e.ws;
      if e.reply.Failure? {
        return Failure(e.reply.error);
      }
      if e.reply.value.Malformed? {
        return Failure(MalformedReply);
      }
      var text := "";
      var hasVoiceActivity := false;
      if NonBlank(e.reply.value.text) {
        text := Strip(e.reply.value.text.value);
        hasVoiceActivity := true;
      } else if NonBlank(e.reply.value.partial) {
        hasVoiceActivity := true;
      }
      return Success(Recognition(text, hasVoiceActivity));
    }

    /** The end of `process_audio_stream`: send the end-of-input message, read its reply,
        and give the extra result when the reply has text, as `Exchange` and
        `FinalRecognized` specify. */
    method StreamEof() returns (r: Result<seq<Recognition>, Fault>)
      modifies this
      ensures websocket == Exchange(old(websocket), Eof).ws
      ensures r == FinalRecognized(Exchange(old(websocket), Eof).reply)
    {
      var e := Exchange(websocket, Eof);
      websocket := e.ws;
      if e.reply.Failure? {
        return Failure(e.reply.error);
      }
      if e.reply.value.Malformed? {
        return Failure(MalformedReply);
      }
      if NonBlank(e.reply.value.text) {
        return Success([Recognition(Strip(e.reply.value.text.value), true)]);
      }
      return Success([]);
    }

    /** `process_audio_stream(chunks)`: the results yielded, and the fault when it raised
        `RuntimeError` part-way, as `StreamRest` specifies. */
    method ProcessAudioStream(chunks: seq<Block>) returns (yielded: seq<Recognition>, fault: Option<Fault>)
      modifies this
      ensures StreamOutcome(websocket, yielded, fault) == StreamRest(old(websocket), chunks, [])
    {
      yielded := [];
      var i := 0;
      assert chunks[0..] == chunks;
      while i < |chunks|
        invariant 0 <= i <= |chunks|
        invariant StreamRest(old(websocket), chunks, []) == StreamRest(websocket, chunks[i..], yielded)
      {
        assert chunks[i..][0] == chunks[i] && chunks[i..][1..] == chunks[i + 1..];
        var r := StreamChunk(chunks[i]);
        if r.Failure? {
          return yielded, Some(r.error);
        }
        yielded := yielded + [r.value];
        i := i + 1;
      }
      var r := StreamEof();
      if r.Failure? {
        return yielded, Some(r.error);
      }
      yielded := yielded + r.value;
      fault := None;
    }

    /** `process_audio_file()` on the samples `audio` (`None` when the file cannot be read),
        with the configured block size, as `ProcessFile` specifies. */
    method ProcessAudioFile(blockSize: EnvValue, audio: Option<Block>) returns (r: Result<string, Fault>)
      modifies this
      ensures FileOutcome(websocket, r) == ProcessFile(old(websocket), blockSize, audio)
    {
      if audio.None? {
        return Failure(UnreadableAudio);
      }
      var samples := audio.value;
      var texts: seq<string> := [];
      if blockSize.StrValue? {
        return Failure(BlockSizeNotInt);
      }
      var step := StepOf(blockSize);
      if step == 0 {
        return Failure(ZeroBlockSize);
      }
      if step < 0 {
        return Success(Join(texts, " "));
      }
      var i := 0;
      assert samples[0..] == samples;
      while i < |samples|
        invariant 0 <= i
        invariant FileRest(old(websocket), Chunks(samples, step), [])
          == FileRest(websocket, Chunks(samples[Min(i, |samples|)..], step), texts)
        decreases |samples| - i
      {
        var chunk := samples[i..Min(i + step, |samples|)];
        ChunksFrom(samples, step, i);
        assert Min(Min(i + step, |samples|), |samples|) == Min(i + step, |samples|);
        var e := Exchange(websocket, Audio(chunk));
        websocket := e.ws;
        if e.reply.Failure? {
          return Failure(e.reply.error);
        }
        if e.reply.value.Malformed? {
          return Failure(MalformedReply);
        }
        if NonBlank(e.reply.value.text) {
          texts := texts + [e.reply.value.text.value];
        } else {
          assert texts + [] == texts;
        }
        i := i + step;
      }
      assert samples[Min(i, |samples|)..] == [];
      return Success(Join(texts, " "));
    }

    /** `shutdown()`: close the connection if `initialize` opened one. */
    method Shutdown()
      modifies this
      ensures websocket == Closed(old(websocket))
    {
      if websocket.Some? {
        websocket := Some(websocket.value.(open := false));
      }
    }
  }
}
