/** server/server/audio_processor.py: the live transcription session. The sound driver's
    callback fills a queue with the blocks that carry sound; the session loop takes them
    out one at a time, runs each through the Vosk stream, keeps the recognised text, and
    stops once nothing was heard for longer than the timeout.

    Time and concurrency are replaced by a sequence of events, each carrying the clock
    value at which it happens: the driver delivering a block, and the session loop
    resuming, either with the next queued block or, on an empty queue, after its
    one-second wait for a block ran out. */
module AudioProcessor {
  import opened Wrappers
  import opened Text
  import opened Settings
  import opened VoskProtocol
  import VoskService

  /** `audio_data.any()`: some sample of the block is not zero. */
  predicate Audible(block: Block) {
    exists i :: 0 <= i < |block| && block[i] != 0
  }

  /** What happens next: the driver's callback with a block and its status flag, or the
      session loop resuming at clock `now`. */
  datatype Event = Captured(block: Block, status: bool) | Wake(now: real)

  /** Whether the session loop still runs, returned, or raised. */
  datatype Phase = Listening | Ended | Failed(fault: Fault)

  /** The processor's fields, the speech service's connection, and the session's phase. */
  datatype Live = Live(buffer: seq<string>, last: real, queue: seq<Block>, ws: Option<Conn>, phase: Phase)

  /** The idle test of the session (strictly more than `timeout` seconds). */
  predicate TimedOut(now: real, last: real, timeout: int) {
    now - last > timeout as real
  }

  /** The session loop's handling of one result at clock `now`: voice activity refreshes
      the idle clock, a non-empty text is kept, and the loop stops when idle too long. */
  function Consumed(s: Live, r: Recognition, now: real, timeout: int): Live {
    var last := if r.hasVoiceActivity then now else s.last;
    var buffer := if r.text != "" then s.buffer + [r.text] else s.buffer;
    s.(buffer := buffer, last := last, phase := if TimedOut(now, last, timeout) then Ended else s.phase)
  }

  /** The end of the block stream after the wait for a block ran out with the session
      idle: the end-of-input message, its reply, and the extra result it may carry. */
  function Finish(s: Live, now: real, timeout: int): Live {
    var e := Exchange(s.ws, Eof);
    var s1 := s.(ws := e.ws);
    match FinalRecognized(e.reply)
    case Failure(f) => s1.(phase := Failed(f))
    case Success(rs) => (if rs == [] then s1 else Consumed(s1, rs[0], now, timeout)).(phase := Ended)
  }

  /** One event of the session. Nothing happens once the session is over. */
  function Step(s: Live, e: Event, timeout: int): Live {
    if s.phase != Listening then s
    else
      match e
      case Captured(block, _) => if Audible(block) then s.(queue := s.queue + [block]) else s
      case Wake(now) =>
        if s.queue != [] then
          var x := Exchange(s.ws, Audio(s.queue[0]));
          var s1 := s.(queue := s.queue[1..], ws := x.ws);
          match Recognized(x.reply)
          case Failure(f) => s1.(phase := Failed(f))
          case Success(r) => Consumed(s1, r, now, timeout)
        else if TimedOut(now, s.last, timeout) then Finish(s, now, timeout)
        else s
  }

  /** A sequence of events, in order. */
  function Run(s: Live, events: seq<Event>, timeout: int): Live
    decreases |events|
  {
    if events == [] then s else Run(Step(s, events[0], timeout), events[1..], timeout)
  }

  /** How `process_audio` ended: the transcript it returned, the exception it raised, or
      not yet, because the events ran out while it was still listening. */
  datatype SessionError = ConnectFailed | StreamError(fault: Fault)
  datatype Outcome = Transcript(text: string) | Raised(error: SessionError) | StillListening

  datatype SessionResult = SessionResult(state: Live, outcome: Outcome)

  /** `process_audio` from state `s`, started at clock `start`, with `server` the replies of
      the Vosk server (`None` when connecting fails). The service is shut down whenever the
      call returns or raises. */
  function Session(s: Live, sampleRate: EnvValue, lang: string, start: real, server: Option<seq<Reply>>,
                   events: seq<Event>, timeout: int): SessionResult
  {
    if server.None? then SessionResult(s.(last := start, ws := Closed(s.ws)), Raised(ConnectFailed))
    else
      var t := Run(s.(last := start, ws := Some(Connected(server.value, sampleRate, lang)), phase := Listening),
                   events, timeout);
      match t.phase
      case Listening => SessionResult(t, StillListening)
      case Ended => SessionResult(t.(ws := Closed(t.ws)), Transcript(Join(t.buffer, " ")))
      case Failed(f) => SessionResult(t.(ws := Closed(t.ws)), Raised(StreamError(f)))
  }

  /** One event keeps what the buffer held and adds at most one non-empty fragment. */
  lemma StepGrowsBuffer(s: Live, e: Event, timeout: int)
    ensures var t := Step(s, e, timeout);
      t.buffer == s.buffer || (|t.buffer| == |s.buffer| + 1 && t.buffer[..|s.buffer|] == s.buffer && t.buffer[|s.buffer|] != "")
  {
    var t := Step(s, e, timeout);
    if t.buffer != s.buffer {
      assert t.buffer[..|s.buffer|] == s.buffer;
    }
  }

  /** The buffer only grows: a run of events appends to it and never removes anything. */
  lemma {:induction false} RunGrowsBuffer(s: Live, events: seq<Event>, timeout: int)
    ensures s.buffer <= Run(s, events, timeout).buffer
    decreases |events|
  {
    if events != [] {
      StepGrowsBuffer(s, events[0], timeout);
      RunGrowsBuffer(Step(s, events[0], timeout), events[1..], timeout);
    }
  }

  /** Every fragment kept is a non-empty text. */
  predicate NoEmptyFragment(buffer: seq<string>) {
    forall i :: 0 <= i < |buffer| ==> buffer[i] != ""
  }

  lemma StepKeepsFragmentsNonEmpty(s: Live, e: Event, timeout: int)
    requires NoEmptyFragment(s.buffer)
    ensures NoEmptyFragment(Step(s, e, timeout).buffer)
  {
    var u := Step(s, e, timeout);
    StepGrowsBuffer(s, e, timeout);
    forall i | 0 <= i < |u.buffer|
      ensures u.buffer[i] != ""
    {
      if i < |s.buffer| {
        assert u.buffer[i] == u.buffer[..|s.buffer|][i];
      }
    }
  }

  lemma {:induction false} FragmentsAreNonEmpty(s: Live, events: seq<Event>, timeout: int)
    requires NoEmptyFragment(s.buffer)
    ensures NoEmptyFragment(Run(s, events, timeout).buffer)
    decreases |events|
  {
    if events != [] {
      StepKeepsFragmentsNonEmpty(s, events[0], timeout);
      FragmentsAreNonEmpty(Step(s, events[0], timeout), events[1..], timeout);
    }
  }

  /** Once the session has returned or raised, further events change nothing. */
  lemma {:induction false} StoppedStaysStopped(s: Live, events: seq<Event>, timeout: int)
    requires s.phase != Listening
    ensures Run(s, events, timeout) == s
    decreases |events|
  {
    if events != [] {
      StoppedStaysStopped(s, events[1..], timeout);
    }
  }

  /** A block of silence is dropped, and the driver's status flag plays no part. */
  lemma SilentBlockIsDropped(s: Live, block: Block, status: bool, timeout: int)
    requires !Audible(block)
    ensures Step(s, Captured(block, status), timeout) == s
  {
  }

  lemma StatusIsIgnored(s: Live, block: Block, timeout: int)
    ensures Step(s, Captured(block, true), timeout) == Step(s, Captured(block, false), timeout)
  {
  }

  /** A block with some sound joins the back of the queue. */
  lemma AudibleBlockIsQueued(s: Live, block: Block, status: bool, timeout: int)
    requires s.phase == Listening && Audible(block)
    ensures Step(s, Captured(block, status), timeout) == s.(queue := s.queue + [block])
  {
  }

  /** A result with voice activity restarts the idle clock and so, with a timeout that is
      not negative, never ends the session; only a quiet result or an expired wait can. */
  lemma VoiceActivityKeepsListening(s: Live, r: Recognition, now: real, timeout: int)
    requires r.hasVoiceActivity && timeout >= 0
    ensures Consumed(s, r, now, timeout).phase == s.phase
    ensures Consumed(s, r, now, timeout).last == now
  {
  }

  /** With a negative timeout, even a result with voice activity ends the session. */
  lemma NegativeTimeoutStopsAtOnce(s: Live, r: Recognition, now: real, timeout: int)
    requires r.hasVoiceActivity && timeout < 0
    ensures Consumed(s, r, now, timeout).phase == Ended
  {
  }

  /** A quiet result ends the session exactly when the idle time exceeds the timeout. */
  lemma QuietResultStopsWhenIdle(s: Live, r: Recognition, now: real, timeout: int)
    requires s.phase == Listening && !r.hasVoiceActivity
    ensures Consumed(s, r, now, timeout).phase == Ended <==> TimedOut(now, s.last, timeout)
  {
  }

  /** An idle time of exactly the timeout does not end the session. */
  lemma ExactTimeoutKeepsListening(s: Live, timeout: int)
    requires s.phase == Listening && s.queue == []
    ensures Step(s, Wake(s.last + timeout as real), timeout) == s
  {
  }

  /** When the wait for a block runs out, the session keeps waiting unless the idle time
      exceeds the timeout; then the end-of-input message is sent and the session is over. */
  lemma ExpiredWaitStopsWhenIdle(s: Live, now: real, timeout: int)
    requires s.phase == Listening && s.queue == []
    ensures !TimedOut(now, s.last, timeout) ==> Step(s, Wake(now), timeout) == s
    ensures TimedOut(now, s.last, timeout) ==>
      Step(s, Wake(now), timeout).phase != Listening && Step(s, Wake(now), timeout).ws == Exchange(s.ws, Eof).ws
  {
  }

  /** The session loop takes the oldest queued block, sends it, reads one reply, and keeps
      the stripped text of that reply at the end of the buffer. */
  lemma QueuedBlockIsRecognized(s: Live, c: Conn, text: string, partial: Option<string>, now: real, timeout: int)
    requires s.phase == Listening && s.queue != [] && s.ws == Some(c)
    requires c.open && c.pending != [] && c.pending[0] == Message(Some(text), partial) && Strip(text) != []
    ensures var t := Step(s, Wake(now), timeout);
      && t.buffer == s.buffer + [Strip(text)]
      && t.last == now
      && t.queue == s.queue[1..]
      && t.ws == Some(c.(sent := c.sent + [Audio(s.queue[0])], pending := c.pending[1..]))
      && t.phase == if timeout < 0 then Ended else Listening
  {
  }

  /** The buffer is never cleared between sessions, so a second session's transcript
      starts with the fragments of the first. */
  lemma SecondSessionKeepsEarlierFragments(s: Live, sampleRate: EnvValue, lang: string, start: real,
                                           server: Option<seq<Reply>>, events: seq<Event>, timeout: int)
    ensures var res := Session(s, sampleRate, lang, start, server, events, timeout);
      && s.buffer <= res.state.buffer
      && (res.outcome.Transcript? && s.buffer != [] ==> Join(s.buffer, " ") <= res.outcome.text)
  {
    if server.Some? {
      var s0 := s.(last := start, ws := Some(Connected(server.value, sampleRate, lang)), phase := Listening);
      var t := Run(s0, events, timeout);
      RunGrowsBuffer(s0, events, timeout);
      var rest := t.buffer[|s.buffer|..];
      assert t.buffer == s.buffer + rest;
      JoinAppend(s.buffer, rest, " ");
    }
  }

  /** `AudioConfig`: the settings a caller may give the processor. Only `timeout` is read
      by the modelled operations; `uri`, `samplerate` and `language` are ignored, since the
      speech service and its handshake use the global settings instead. */
  datatype AudioConfig = AudioConfig(uri: string, device: Option<int>, sampleRate: int, blockSize: int,
                                     channels: int, timeout: int, language: string, inputFile: Option<string>)

  class Processor {
    const config: AudioConfig
    const settings: Config
    const timeout: int
    const speech: VoskService.Service
    var textBuffer: seq<string>
    var lastTextTime: real
    var audioQueue: seq<Block>

    /** `AudioProcessor(config)` at clock `now`, in a process whose environment was `env`
        when the settings were loaded: the speech service is `VoskService()`, built with
        the global server address and language whatever `config` holds. */
    constructor (config: AudioConfig, env: Env, now: real)
      ensures this.config == config && settings == LoadConfig(env) && timeout == config.timeout
      ensures textBuffer == [] && lastTextTime == now && audioQueue == []
      ensures fresh(speech) && speech.websocket == None
      ensures speech.uri == settings.voskServerUri.s && speech.language == settings.audioLanguage.s
    {
      this.config := config;
      settings := LoadConfig(env);
      timeout := config.timeout;
      textBuffer := [];
      lastTextTime := now;
      audioQueue := [];
      speech := new VoskService.Service(LoadConfig(env).voskServerUri.s, LoadConfig(env).audioLanguage.s);
    }

    /** The processor's state with the session `phase`. */
    function State(phase: Phase): Live
      reads this, speech
    {
      Live(textBuffer, lastTextTime, audioQueue, speech.websocket, phase)
    }

    /** `callback`: queue a block unless every sample is zero; the status flag is only
        logged. */
    method Callback(block: Block, status: bool)
      modifies this
      ensures audioQueue == if Audible(block) then old(audioQueue) + [block] else old(audioQueue)
      ensures textBuffer == old(textBuffer) && lastTextTime == old(lastTextTime)
    {
      if Audible(block) {
        audioQueue := audioQueue + [block];
      }
    }

    /** `_process_response`: keep the text of a reply, as received and not stripped, when
        it is not blank, and restart the idle clock; an unreadable reply is only logged. */
    method ProcessResponse(reply: Reply, now: real)
      modifies this
      ensures reply.Message? && NonBlank(reply.text) ==>
        textBuffer == old(textBuffer) + [reply.text.value] && lastTextTime == now
      ensures !(reply.Message? && NonBlank(reply.text)) ==>
        textBuffer == old(textBuffer) && lastTextTime == old(lastTextTime)
      ensures audioQueue == old(audioQueue)
    {
      if reply.Message? && NonBlank(reply.text) {
        textBuffer := textBuffer + [reply.text.value];
        lastTextTime := now;
      }
    }

    /** `_check_timeout` at clock `now`. */
    method CheckTimeout(now: real) returns (stop: bool)
      ensures stop == TimedOut(now, lastTextTime, timeout)
    {
      stop := now - lastTextTime > timeout as real;
    }

    /** The session loop's handling of one result at clock `now` (the body of its
        `async for`), specified by `Consumed`; `stop` is its `break`. */
    method Consume(r: Recognition, now: real) returns (stop: bool)
      modifies this
      ensures State(if stop then Ended else Listening)
        == Consumed(old(State(Listening)), r, now, timeout)
    {
      if r.hasVoiceActivity {
        lastTextTime := now;
      }
      if r.text != "" {
        textBuffer := textBuffer + [r.text];
      }
      stop := now - lastTextTime > timeout as real;
    }

    /** One event of the session loop, as `Step` specifies. */
    method Handle(e: Event) returns (phase: Phase)
      modifies this, speech
      ensures State(phase) == Step(old(State(Listening)), e, timeout)
    {
      match e
      case Captured(block, status) =>
        Callback(block, status);
        phase := Listening;
      case Wake(now) =>
        if audioQueue != [] {
          var block := audioQueue[0];
          audioQueue := audioQueue[1..];
          var r := speech.StreamChunk(block);
          if r.Failure? {
            phase := Failed(r.error);
          } else {
            var stop := Consume(r.value, now);
            phase := if stop then Ended else Listening;
          }
        } else if now - lastTextTime > timeout as real {
          var rs := speech.StreamEof();
          if rs.Failure? {
            phase := Failed(rs.error);
          } else {
            if rs.value != [] {
              var _ := Consume(rs.value[0], now);
            }
            phase := Ended;
          }
        } else {
          phase := Listening;
        }
    }

    /** `process_audio` at clock `start`, with the server's replies (`None` when connecting
        fails) and the events that follow, as `Session` specifies. */
    method ProcessAudio(start: real, server: Option<seq<Reply>>, events: seq<Event>)
      returns (o: Outcome)
      modifies this, speech
      ensures var res := Session(old(State(Listening)), settings.audioSampleRate, speech.language, start, server, events, timeout);
        o == res.outcome && State(res.state.phase) == res.state
    {
      lastTextTime := start;
      var connected := speech.Initialize(settings.audioSampleRate, server);
      if !connected {
        speech.Shutdown();
        return Raised(ConnectFailed);
      }
      var phase := Listening;
      ghost var s0 := State(Listening);
      var i := 0;
      assert events[0..] == events;
      while i < |events| && phase == Listening
        invariant 0 <= i <= |events|
        invariant Run(s0, events, timeout) == Run(State(phase), events[i..], timeout)
        decreases |events| - i
      {
        assert events[i..][0] == events[i] && events[i..][1..] == events[i + 1..];
        phase := Handle(events[i]);
        i := i + 1;
      }
      if phase != Listening {
        StoppedStaysStopped(State(phase), events[i..], timeout);
      }
      match phase
      case Listening =>
        return StillListening;
      case Ended =>
        speech.Shutdown();
        return Transcript(Join(textBuffer, " "));
      case Failed(f) =>
        speech.Shutdown();
        return Raised(StreamError(f));
    }

    /** `process_audio_file`: connect, transcribe the samples with the configured block
        size, and shut down whatever happens; `ProcessFile` specifies the transcription. */
    method ProcessAudioFile(server: Option<seq<Reply>>, audio: Option<Block>) returns (r: Result<string, SessionError>)
      modifies speech
      ensures server.None? ==> r == Failure(ConnectFailed) && speech.websocket == Closed(old(speech.websocket))
      ensures server.Some? ==>
        var f := ProcessFile(Some(Connected(server.value, settings.audioSampleRate, speech.language)), settings.audioBlockSize, audio);
        && speech.websocket == Closed(f.ws)
        && r == match f.result case Success(text) => Success(text) case Failure(e) => Failure(StreamError(e))
    {
      var connected := speech.Initialize(settings.audioSampleRate, server);
      if !connected {
        speech.Shutdown();
        return Failure(ConnectFailed);
      }
      var text := speech.ProcessAudioFile(settings.audioBlockSize, audio);
      speech.Shutdown();
      if text.Failure? {
        return Failure(StreamError(text.error));
      }
      return Success(text.value);
    }
  }
}
