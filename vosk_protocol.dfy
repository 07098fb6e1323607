/** The message-level part of server/server/services/speech_recognition/vosk_service.py:
    what goes over the WebSocket to the Vosk server, how each reply is read, and what a
    whole stream or file session yields. The socket is a value: the messages sent so far
    and the replies, already decoded, that the server will still send. */
module VoskProtocol {
  import opened Wrappers
  import opened Text
  import opened Settings

  /** One block of audio samples, as the recognizer receives it. */
  type Block = seq<int>

  /** A server reply as `json.loads` leaves it: not JSON at all, or an object whose
      `text` and `partial` members may be missing. */
  datatype Reply = Malformed | Message(text: Option<string>, partial: Option<string>)

  /** The messages the service sends: the configuration handshake
      `{"config": {"sample_rate": ..., "lang": ...}}`, an audio chunk, and the end of
      input, sent as the text `EofText`. */
  datatype Outgoing = Handshake(sampleRate: EnvValue, lang: string) | Audio(data: Block) | Eof

  const EofText: string := "{\"eof\" : 1}"

  /** An open or closed connection, what was sent on it, and the replies still to come. */
  datatype Conn = Conn(open: bool, sent: seq<Outgoing>, pending: seq<Reply>)

  /** Why a stream or file session raised `RuntimeError`. */
  datatype Fault =
    | NotConnected     // `self.websocket` is still `None`
    | ConnectionClosed // send on a closed connection
    | NoReply          // the server closed the connection instead of replying
    | MalformedReply   // `json.loads` failed on the reply
    | ZeroBlockSize    // `range(0, n, 0)` raises `ValueError`
    | BlockSizeNotInt  // `range` with a non-integer step raises `TypeError`
    | UnreadableAudio  // `soundfile.read` failed

  /** The connection after one send and the receive that follows it, and the reply or
      the reason there is none. */
  datatype Exchanged = Exchanged(ws: Option<Conn>, reply: Result<Reply, Fault>)

  /** `await websocket.send(msg)` and then `await websocket.recv()`. */
  function Exchange(ws: Option<Conn>, msg: Outgoing): (r: Exchanged)
    ensures ws.None? ==> r == Exchanged(None, Failure(NotConnected))
    ensures ws.Some? && ws.value.open ==> r.ws.Some? && r.ws.value.open && r.ws.value.sent == ws.value.sent + [msg]
    ensures r.reply.Success? <==> ws.Some? && ws.value.open && ws.value.pending != []
    ensures r.reply.Success? ==> r.reply.value == ws.value.pending[0] && r.ws.value.pending == ws.value.pending[1..]
    ensures r.reply.Failure? ==> r.ws.Some? ==> r.ws.value.pending == ws.value.pending
  {
    match ws
    case None => Exchanged(None, Failure(NotConnected))
    case Some(c) =>
      if !c.open then Exchanged(ws, Failure(ConnectionClosed))
      else if c.pending == [] then Exchanged(Some(c.(sent := c.sent + [msg])), Failure(NoReply))
      else Exchanged(Some(c.(sent := c.sent + [msg], pending := c.pending[1..])), Success(c.pending[0]))
  }

  /** A fresh connection to a server that will send `replies`, after the handshake. */
  function Connected(replies: seq<Reply>, sampleRate: EnvValue, lang: string): Conn {
    Conn(true, [Handshake(sampleRate, lang)], replies)
  }

  /** `websocket.close()` when there is a connection; nothing otherwise. */
  function Closed(ws: Option<Conn>): (r: Option<Conn>)
    ensures r.None? <==> ws.None?
    ensures r.Some? ==> !r.value.open && r.value.sent == ws.value.sent && r.value.pending == ws.value.pending
  {
    match ws
    case None => None
    case Some(c) => Some(c.(open := false))
  }

  /** `"key" in response_data and response_data["key"].strip()` */
  predicate NonBlank(field: Option<string>) {
    field.Some? && Strip(field.value) != []
  }

  /** What one streaming reply yields: the recognised text and whether there was voice
      activity. */
  datatype Recognition = Recognition(text: string, hasVoiceActivity: bool)

  /** The reading of a streaming reply (lines 45-52 of the service loop). */
  function Classify(text: Option<string>, partial: Option<string>): (r: Recognition)
    ensures r.hasVoiceActivity <==> NonBlank(text) || NonBlank(partial)
    ensures NonBlank(text) ==> r.text == Strip(text.value)
    ensures !NonBlank(text) ==> r.text == ""
    ensures r.text != "" || !NonBlank(text)
  {
    if NonBlank(text) then Recognition(Strip(text.value), true)
    else if NonBlank(partial) then Recognition("", true)
    else Recognition("", false)
  }

  /** A final `text` wins over any `partial`. */
  lemma TextWinsOverPartial(text: string, partial: Option<string>)
    requires Strip(text) != []
    ensures Classify(Some(text), partial) == Recognition(Strip(text), true)
  {
  }

  /** The recognised text carries no surrounding whitespace. */
  lemma ClassifiedTextIsStripped(text: Option<string>, partial: Option<string>)
    ensures Strip(Classify(text, partial).text) == Classify(text, partial).text
  {
    if NonBlank(text) {
      StripIdempotent(text.value);
    }
  }

  /** What the reply to the end of input adds: one result, with the stripped text and
      voice activity, when its `text` is not blank. */
  function FinalResults(text: Option<string>): (r: seq<Recognition>)
    ensures |r| <= 1
    ensures r != [] <==> NonBlank(text)
    ensures r != [] ==> r[0] == Recognition(Strip(text.value), true)
  {
    if NonBlank(text) then [Recognition(Strip(text.value), true)] else []
  }

  /** What `process_audio_stream` makes of the reply to one chunk: its result, or the
      fault that raises `RuntimeError`. */
  function Recognized(reply: Result<Reply, Fault>): (r: Result<Recognition, Fault>)
    ensures r.Success? <==> reply.Success? && reply.value.Message?
    ensures r.Success? ==> r.value == Classify(reply.value.text, reply.value.partial)
    ensures reply.Success? && reply.value.Malformed? ==> r == Failure(MalformedReply)
    ensures reply.Failure? ==> r == Failure(reply.error)
  {
    match reply
    case Failure(f) => Failure(f)
    case Success(Malformed) => Failure(MalformedReply)
    case Success(Message(t, p)) => Success(Classify(t, p))
  }

  /** What `process_audio_stream` makes of the reply to the end-of-input message. */
  function FinalRecognized(reply: Result<Reply, Fault>): (r: Result<seq<Recognition>, Fault>)
    ensures r.Success? <==> reply.Success? && reply.value.Message?
    ensures r.Success? ==> |r.value| <= 1 && (r.value != [] <==> NonBlank(reply.value.text))
    ensures r.Success? && r.value != [] ==> r.value[0] == Recognition(Strip(reply.value.text.value), true)
    ensures reply.Success? && reply.value.Malformed? ==> r == Failure(MalformedReply)
    ensures reply.Failure? ==> r == Failure(reply.error)
  {
    match reply
    case Failure(f) => Failure(f)
    case Success(Malformed) => Failure(MalformedReply)
    case Success(Message(t, _)) => Success(FinalResults(t))
  }

  /** The outcome of `process_audio_stream`: the connection afterwards, the results
      yielded, and the fault that raised `RuntimeError`, if one did. */
  datatype StreamOutcome = StreamOutcome(ws: Option<Conn>, yielded: seq<Recognition>, fault: Option<Fault>)

  /** The rest of a stream session over `chunks`, after `yielded` was already yielded.
      Each chunk is sent and its one reply read before the next; at the end of input
      the end-of-input message is sent and its reply read. */
  function StreamRest(ws: Option<Conn>, chunks: seq<Block>, yielded: seq<Recognition>): StreamOutcome
    decreases |chunks|
  {
    if chunks == [] then
      var e := Exchange(ws, Eof);
      match e.reply
      case Failure(f) => StreamOutcome(e.ws, yielded, Some(f))
      case Success(Malformed) => StreamOutcome(e.ws, yielded, Some(MalformedReply))
      case Success(Message(t, _)) => StreamOutcome(e.ws, yielded + FinalResults(t), None)
    else
      var e := Exchange(ws, Audio(chunks[0]));
      match e.reply
      case Failure(f) => StreamOutcome(e.ws, yielded, Some(f))
      case Success(Malformed) => StreamOutcome(e.ws, yielded, Some(MalformedReply))
      case Success(Message(t, p)) => StreamRest(e.ws, chunks[1..], yielded + [Classify(t, p)])
  }

  /** The first `n` replies of `rs` are all decoded objects. */
  predicate MessagesUpTo(rs: seq<Reply>, n: nat) {
    n <= |rs| && forall i :: 0 <= i < n ==> rs[i].Message?
  }

  /** The results yielded for the first `n` replies of `rs`, one each, in order. */
  function ClassifyFirst(rs: seq<Reply>, n: nat): (r: seq<Recognition>)
    requires MessagesUpTo(rs, n)
    ensures |r| == n
    ensures forall i :: 0 <= i < n ==> r[i] == Classify(rs[i].text, rs[i].partial)
  {
    seq(n, i requires 0 <= i < n => Classify(rs[i].text, rs[i].partial))
  }

  lemma ClassifyFirstCons(rs: seq<Reply>, n: nat)
    requires 0 < n && MessagesUpTo(rs, n)
    ensures MessagesUpTo(rs[1..], n - 1)
    ensures ClassifyFirst(rs, n) == [Classify(rs[0].text, rs[0].partial)] + ClassifyFirst(rs[1..], n - 1)
  {
    assert MessagesUpTo(rs[1..], n - 1) by {
      forall i | 0 <= i < n - 1
        ensures rs[1..][i].Message?
      {
        assert rs[1..][i] == rs[i + 1];
      }
    }
  }

  /** The audio messages for `chunks`, in order. */
  function AudioMessages(chunks: seq<Block>): (r: seq<Outgoing>)
    ensures |r| == |chunks|
    ensures forall i :: 0 <= i < |chunks| ==> r[i] == Audio(chunks[i])
  {
    seq(|chunks|, i requires 0 <= i < |chunks| => Audio(chunks[i]))
  }

  /** One chunk answered by a decoded reply. */
  lemma StreamStep(c: Conn, chunks: seq<Block>, yielded: seq<Recognition>)
    requires c.open && c.pending != [] && c.pending[0].Message? && chunks != []
    ensures StreamRest(Some(c), chunks, yielded)
      == StreamRest(Some(c.(sent := c.sent + [Audio(chunks[0])], pending := c.pending[1..])), chunks[1..],
                    yielded + [Classify(c.pending[0].text, c.pending[0].partial)])
  {
  }

  /** The end of input answered by a decoded reply. */
  lemma StreamEnd(c: Conn, yielded: seq<Recognition>)
    requires c.open && c.pending != [] && c.pending[0].Message?
    ensures StreamRest(Some(c), [], yielded)
      == StreamOutcome(Some(c.(sent := c.sent + [Eof], pending := c.pending[1..])),
                       yielded + FinalResults(c.pending[0].text), None)
  {
  }

  lemma AudioMessagesCons(sent: seq<Outgoing>, chunks: seq<Block>)
    requires chunks != []
    ensures sent + [Audio(chunks[0])] + AudioMessages(chunks[1..]) + [Eof] == sent + AudioMessages(chunks) + [Eof]
  {
    assert AudioMessages(chunks) == [Audio(chunks[0])] + AudioMessages(chunks[1..]);
  }

  lemma YieldedRegroup(yielded: seq<Recognition>, rs: seq<Reply>, n: nat)
    requires 0 < n && MessagesUpTo(rs, n + 1)
    ensures MessagesUpTo(rs[1..], n)
    ensures (yielded + [Classify(rs[0].text, rs[0].partial)]) + ClassifyFirst(rs[1..], n - 1) + FinalResults(rs[1..][n - 1].text)
      == yielded + ClassifyFirst(rs, n) + FinalResults(rs[n].text)
  {
    ClassifyFirstCons(rs, n + 1);
    ClassifyFirstCons(rs, n);
  }

  lemma ConnRegroup(c: Conn, chunks: seq<Block>)
    requires chunks != [] && |c.pending| > |chunks|
    ensures var c' := c.(sent := c.sent + [Audio(chunks[0])], pending := c.pending[1..]);
      Conn(true, c'.sent + AudioMessages(chunks[1..]) + [Eof], c'.pending[|chunks[1..]| + 1..])
        == Conn(true, c.sent + AudioMessages(chunks) + [Eof], c.pending[|chunks| + 1..])
  {
    AudioMessagesCons(c.sent, chunks);
    assert c.pending[1..][|chunks[1..]| + 1..] == c.pending[|chunks| + 1..];
  }

  lemma StreamBase(c: Conn, yielded: seq<Recognition>)
    requires c.open && MessagesUpTo(c.pending, 1)
    ensures var o := StreamRest(Some(c), [], yielded);
      o.fault == None
      && o.ws == Some(Conn(true, c.sent + AudioMessages([]) + [Eof], c.pending[1..]))
      && o.yielded == yielded + ClassifyFirst(c.pending, 0) + FinalResults(c.pending[0].text)
  {
    StreamEnd(c, yielded);
    assert ClassifyFirst(c.pending, 0) == [];
    assert AudioMessages([]) == [];
    assert c.sent + [] + [Eof] == c.sent + [Eof];
    assert yielded + [] == yielded;
  }

  /** With an open connection and a server that answers every message, a stream session
      sends every chunk in order and then the end of input, yields exactly one result per
      chunk in chunk order, and one more only when the final `text` is not blank. */
  lemma {:induction false} StreamWithAnsweringServer(c: Conn, chunks: seq<Block>, yielded: seq<Recognition>)
    requires c.open && MessagesUpTo(c.pending, |chunks| + 1)
    ensures var o := StreamRest(Some(c), chunks, yielded);
      o.fault == None
      && o.ws == Some(Conn(true, c.sent + AudioMessages(chunks) + [Eof], c.pending[|chunks| + 1..]))
      && o.yielded == yielded + ClassifyFirst(c.pending, |chunks|) + FinalResults(c.pending[|chunks|].text)
    decreases |chunks|
  {
    if chunks == [] {
      StreamBase(c, yielded);
    } else {
      var c' := c.(sent := c.sent + [Audio(chunks[0])], pending := c.pending[1..]);
      YieldedRegroup(yielded, c.pending, |chunks|);
      StreamStep(c, chunks, yielded);
      StreamWithAnsweringServer(c', chunks[1..], yielded + [Classify(c.pending[0].text, c.pending[0].partial)]);
      ConnRegroup(c, chunks);
    }
  }

  lemma PrefixRegroup(yielded: seq<Recognition>, rs: seq<Reply>, k: nat)
    requires 0 < k && MessagesUpTo(rs, k)
    ensures MessagesUpTo(rs[1..], k - 1)
    ensures (yielded + [Classify(rs[0].text, rs[0].partial)]) + ClassifyFirst(rs[1..], k - 1) == yielded + ClassifyFirst(rs, k)
  {
    ClassifyFirstCons(rs, k);
  }

  lemma StreamMalformedNow(c: Conn, chunks: seq<Block>, yielded: seq<Recognition>)
    requires c.open && c.pending != [] && c.pending[0] == Malformed
    ensures var o := StreamRest(Some(c), chunks, yielded);
      && o.fault == Some(MalformedReply) && o.yielded == yielded + ClassifyFirst(c.pending, 0)
      && o.ws == Some(c.(sent := c.sent + [if chunks == [] then Eof else Audio(chunks[0])], pending := c.pending[1..]))
  {
    assert ClassifyFirst(c.pending, 0) == [];
    assert yielded + [] == yielded;
  }

  /** A reply that is not JSON ends the session with `RuntimeError`, after the results for
      the earlier chunks; there is no recovery for later chunks. */
  lemma {:induction false} StreamStopsAtMalformed(c: Conn, chunks: seq<Block>, yielded: seq<Recognition>, k: nat)
    requires c.open && k <= |chunks| && k < |c.pending|
    requires MessagesUpTo(c.pending, k) && c.pending[k] == Malformed
    ensures var o := StreamRest(Some(c), chunks, yielded);
      && o.fault == Some(MalformedReply)
      && o.yielded == yielded + ClassifyFirst(c.pending, k)
      && o.ws == Some(Conn(true, c.sent + SentUpTo(chunks, k), c.pending[k + 1..]))
    decreases k
  {
    if k == 0 {
      StreamMalformedNow(c, chunks, yielded);
      assert AudioMessages(chunks[..0]) == [];
      assert SentUpTo(chunks, 0) == [if chunks == [] then Eof else Audio(chunks[0])];
    } else {
      var c' := c.(sent := c.sent + [Audio(chunks[0])], pending := c.pending[1..]);
      PrefixRegroup(yielded, c.pending, k);
      StreamStep(c, chunks, yielded);
      assert c.pending[1..][k - 1] == c.pending[k];
      StreamStopsAtMalformed(c', chunks[1..], yielded + [Classify(c.pending[0].text, c.pending[0].partial)], k - 1);
      SentUpToCons(c.sent, chunks, k);
      assert c.pending[1..][k..] == c.pending[k + 1..];
    }
  }

  /** The messages of a stream session up to and including the one whose reply is the
      `k`-th: the first `k` chunks, then chunk `k`, or the end of input when there is none. */
  function SentUpTo(chunks: seq<Block>, k: nat): (r: seq<Outgoing>)
    requires k <= |chunks|
    ensures |r| == k + 1
  {
    AudioMessages(chunks[..k]) + [if k < |chunks| then Audio(chunks[k]) else Eof]
  }

  lemma SentUpToCons(sent: seq<Outgoing>, chunks: seq<Block>, k: nat)
    requires 0 < k <= |chunks|
    ensures sent + [Audio(chunks[0])] + SentUpTo(chunks[1..], k - 1) == sent + SentUpTo(chunks, k)
  {
    assert chunks[1..][..k - 1] == chunks[1..k];
    assert AudioMessages(chunks[..k]) == [Audio(chunks[0])] + AudioMessages(chunks[1..k]);
  }

  /** Without a connection a stream session raises before yielding anything. */
  lemma StreamWithoutConnection(chunks: seq<Block>, yielded: seq<Recognition>)
    ensures StreamRest(None, chunks, yielded) == StreamOutcome(None, yielded, Some(NotConnected))
  {
  }

  function Min(a: int, b: int): int {
    if a <= b then a else b
  }

  /** `audio[i:i + size]` for `i` in `range(0, len(audio), size)`. */
  function Chunks(audio: Block, size: nat): (r: seq<Block>)
    requires size > 0
    decreases |audio|
  {
    if audio == [] then []
    else [audio[..Min(size, |audio|)]] + Chunks(audio[Min(size, |audio|)..], size)
  }

  /** The start `k * size` of chunk `k`, the `k`-th value of the `range`. */
  function Offset(k: nat, size: nat): (o: nat)
    decreases k
  {
    if k == 0 then 0 else Offset(k - 1, size) + size
  }

  lemma {:induction false} OffsetIsProduct(k: nat, size: nat)
    ensures Offset(k, size) == k * size
    decreases k
  {
    if k > 0 {
      OffsetIsProduct(k - 1, size);
      assert (k - 1) * size + size == k * size;
    }
  }

  /** There are `ceil(len(audio) / size)` chunks: `n` chunks of `size` reach the end of
      the audio, and `n - 1` do not. */
  lemma {:induction false} ChunkCount(audio: Block, size: nat)
    requires size > 0
    ensures var n := |Chunks(audio, size)|;
      (n == 0 <==> audio == []) && (n > 0 ==> Offset(n - 1, size) < |audio| <= Offset(n - 1, size) + size)
    decreases |audio|
  {
    if audio != [] {
      var m := Min(size, |audio|);
      ChunkCount(audio[m..], size);
      var n' := |Chunks(audio[m..], size)|;
      assert |Chunks(audio, size)| == n' + 1;
      if |audio| <= size {
        assert n' == 0;
      } else {
        assert |audio[m..]| == |audio| - size;
        assert Offset(n', size) == Offset(n' - 1, size) + size;
      }
    }
  }

  /** The chunks put back together are the audio: nothing is padded or lost. */
  function Concat(chunks: seq<Block>): Block
    decreases |chunks|
  {
    if chunks == [] then [] else chunks[0] + Concat(chunks[1..])
  }

  lemma {:induction false} ChunksConcat(audio: Block, size: nat)
    requires size > 0
    ensures Concat(Chunks(audio, size)) == audio
    decreases |audio|
  {
    if audio != [] {
      var m := Min(size, |audio|);
      ChunksConcat(audio[m..], size);
      assert ([audio[..m]] + Chunks(audio[m..], size))[1..] == Chunks(audio[m..], size);
      assert audio[..m] + audio[m..] == audio;
    }
  }

  lemma ChunksTail(audio: Block, size: nat, k: nat)
    requires size > 0 && 0 < k < |Chunks(audio, size)|
    ensures k - 1 < |Chunks(audio[Min(size, |audio|)..], size)|
    ensures Chunks(audio, size)[k] == Chunks(audio[Min(size, |audio|)..], size)[k - 1]
  {
  }

  lemma SliceOfSuffix(a: Block, m: nat, i: nat, j: nat)
    requires m <= |a| && i <= j <= |a| - m
    ensures a[m..][i..j] == a[m + i..m + j]
  {
  }

  /** Chunk `k` starts at offset `k * size` and runs for `size` samples or up to the end
      of the audio, whichever comes first. */
  lemma {:induction false} ChunkAt(audio: Block, size: nat, k: nat)
    requires size > 0 && k < |Chunks(audio, size)|
    ensures Offset(k, size) < |audio|
    ensures Chunks(audio, size)[k] == audio[Offset(k, size)..Min(Offset(k, size) + size, |audio|)]
    decreases k
  {
    var m := Min(size, |audio|);
    if k > 0 {
      var rest := audio[m..];
      ChunksTail(audio, size, k);
      ChunkAt(rest, size, k - 1);
      assert m == size;
      var o := Offset(k - 1, size);
      SliceOfSuffix(audio, m, o, Min(o + size, |rest|));
      assert Min(o + size, |rest|) + m == Min(o + size + size, |audio|);
    }
  }

  /** The last chunk is not padded: it holds `len(audio) - size * (n - 1)` samples. */
  lemma LastChunkLength(audio: Block, size: nat)
    requires size > 0 && audio != []
    ensures var n := |Chunks(audio, size)|;
      n > 0 && |Chunks(audio, size)[n - 1]| == |audio| - size * (n - 1)
  {
    var n := |Chunks(audio, size)|;
    ChunkCount(audio, size);
    ChunkAt(audio, size, n - 1);
    OffsetIsProduct(n - 1, size);
  }

  /** Every chunk but the last holds exactly `size` samples. */
  lemma InnerChunkLength(audio: Block, size: nat, k: nat)
    requires size > 0 && k + 1 < |Chunks(audio, size)|
    ensures |Chunks(audio, size)[k]| == size
  {
    ChunkAt(audio, size, k);
    ChunkAt(audio, size, k + 1);
    assert Offset(k + 1, size) == Offset(k, size) + size;
  }

  /** `text` as the file path keeps it: unstripped, unless blank. */
  function FileFragments(text: Option<string>): (r: seq<string>)
    ensures r != [] <==> NonBlank(text)
    ensures r != [] ==> r == [text.value]
  {
    if NonBlank(text) then [text.value] else []
  }

  /** The outcome of `process_audio_file`: the connection afterwards and the transcript
      or the fault that raised `RuntimeError`. */
  datatype FileOutcome = FileOutcome(ws: Option<Conn>, result: Result<string, Fault>)

  /** The rest of the file loop over `chunks`, with the fragments `texts` collected so
      far. No end-of-input message is sent. */
  function FileRest(ws: Option<Conn>, chunks: seq<Block>, texts: seq<string>): FileOutcome
    decreases |chunks|
  {
    if chunks == [] then FileOutcome(ws, Success(Join(texts, " ")))
    else
      var e := Exchange(ws, Audio(chunks[0]));
      match e.reply
      case Failure(f) => FileOutcome(e.ws, Failure(f))
      case Success(Malformed) => FileOutcome(e.ws, Failure(MalformedReply))
      case Success(Message(t, _)) => FileRest(e.ws, chunks[1..], texts + FileFragments(t))
  }

  /** `process_audio_file` on the decoded samples `audio` (`None` when the file cannot
      be read) with the configured block size. */
  function ProcessFile(ws: Option<Conn>, blockSize: EnvValue, audio: Option<Block>): (o: FileOutcome)
    ensures audio.None? ==> o == FileOutcome(ws, Failure(UnreadableAudio))
    ensures audio.Some? && blockSize.StrValue? ==> o == FileOutcome(ws, Failure(BlockSizeNotInt))
    ensures audio.Some? && blockSize == IntValue(0) ==> o == FileOutcome(ws, Failure(ZeroBlockSize))
    ensures audio.Some? && blockSize.IntValue? && blockSize.i < 0 ==> o == FileOutcome(ws, Success(""))
    ensures audio.Some? && blockSize.IntValue? && blockSize.i > 0 ==> o == FileRest(ws, Chunks(audio.value, blockSize.i), [])
  {
    match audio
    case None => FileOutcome(ws, Failure(UnreadableAudio))
    case Some(samples) =>
      match blockSize
      case StrValue(_) => FileOutcome(ws, Failure(BlockSizeNotInt))
      case _ =>
        var step := StepOf(blockSize);
        if step == 0 then FileOutcome(ws, Failure(ZeroBlockSize))
        else if step < 0 then FileOutcome(ws, Success(Join([], " ")))
        else FileRest(ws, Chunks(samples, step), [])
  }

  /** The integer a setting stands for as a `range` step; a `bool` counts as 0 or 1. */
  function StepOf(v: EnvValue): int
    requires !v.StrValue?
  {
    match v
    case IntValue(i) => i
    case BoolValue(b) => if b then 1 else 0
  }

  /** With an open connection and an answering server the file path sends one chunk per
      block and nothing else, and joins the non-blank texts, unstripped, with spaces. */
  lemma {:induction false} FileWithAnsweringServer(c: Conn, chunks: seq<Block>, texts: seq<string>)
    requires c.open && MessagesUpTo(c.pending, |chunks|)
    ensures var o := FileRest(Some(c), chunks, texts);
      o.ws == Some(Conn(true, c.sent + AudioMessages(chunks), c.pending[|chunks|..]))
      && o.result == Success(Join(texts + FragmentsOf(c.pending, |chunks|), " "))
    decreases |chunks|
  {
    if chunks == [] {
      FileBase(c, texts);
    } else {
      var c' := c.(sent := c.sent + [Audio(chunks[0])], pending := c.pending[1..]);
      FragmentsRegroup(texts, c.pending, |chunks|);
      FileStep(c, chunks, texts);
      FileWithAnsweringServer(c', chunks[1..], texts + FileFragments(c.pending[0].text));
      FileConnRegroup(c, chunks);
    }
  }

  /** The fragments the first `n` replies contribute, in order. */
  function FragmentsOf(rs: seq<Reply>, n: nat): seq<string>
    requires MessagesUpTo(rs, n)
    decreases n
  {
    if n == 0 then [] else FileFragments(rs[0].text) + FragmentsOf(rs[1..], n - 1)
  }

  lemma FragmentsRegroup(texts: seq<string>, rs: seq<Reply>, n: nat)
    requires 0 < n && MessagesUpTo(rs, n)
    ensures MessagesUpTo(rs[1..], n - 1)
    ensures (texts + FileFragments(rs[0].text)) + FragmentsOf(rs[1..], n - 1) == texts + FragmentsOf(rs, n)
  {
    ClassifyFirstCons(rs, n);
  }

  lemma FileStep(c: Conn, chunks: seq<Block>, texts: seq<string>)
    requires c.open && c.pending != [] && c.pending[0].Message? && chunks != []
    ensures FileRest(Some(c), chunks, texts)
      == FileRest(Some(c.(sent := c.sent + [Audio(chunks[0])], pending := c.pending[1..])), chunks[1..],
                  texts + FileFragments(c.pending[0].text))
  {
  }

  lemma FileBase(c: Conn, texts: seq<string>)
    requires c.open
    ensures var o := FileRest(Some(c), [], texts);
      o.ws == Some(Conn(true, c.sent + AudioMessages([]), c.pending[0..]))
      && o.result == Success(Join(texts + FragmentsOf(c.pending, 0), " "))
  {
    assert AudioMessages([]) == [];
    assert c.sent + [] == c.sent;
    assert c.pending[0..] == c.pending;
    assert texts + [] == texts;
  }

  lemma FileConnRegroup(c: Conn, chunks: seq<Block>)
    requires chunks != [] && |c.pending| >= |chunks|
    ensures var c' := c.(sent := c.sent + [Audio(chunks[0])], pending := c.pending[1..]);
      Conn(true, c'.sent + AudioMessages(chunks[1..]), c'.pending[|chunks[1..]|..])
        == Conn(true, c.sent + AudioMessages(chunks), c.pending[|chunks|..])
  {
    assert AudioMessages(chunks) == [Audio(chunks[0])] + AudioMessages(chunks[1..]);
    assert c.pending[1..][|chunks[1..]|..] == c.pending[|chunks|..];
  }
}
