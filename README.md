# voicepower-pos core, modelled in Dafny

This project models the deterministic core of voicepower-pos, a voice-driven point-of-sale system, and proves properties of that model. The parts modelled are:

- the live transcription session that turns microphone blocks into a transcript through a Vosk speech server (`AudioProcessor`, `VoskService`, `VoskProtocol`);
- the Vosk file-transcription path, which cuts the samples into fixed-size chunks;
- the OpenAI shopping-list reply handling: fence stripping, required-key validation and the fallback line parser (`Gpt35`, `OpenAIBase`, `OpenAIService`, `ShoppingList`);
- the LLM and speech service factories and the model-name predicates;
- environment-driven settings (`Settings`);
- the product-image rule on the server and in the browser (`ImageService`, `ClientImages`);
- the cart store of the frontend and the product filter and cart join of the POS screen (`PosStore`, `PosSystem`).

I/O is replaced by values:

- The Vosk socket is a `Conn`: whether it is open, the messages sent so far, and the replies, already decoded, that the server will still send.
- The clock travels on the session's events.
- The OpenAI reply is a string given to the reply handling. `json.loads` and `float` are function parameters.
- The environment is a map.

`Wrappers` (Option/Result) and `Text` (Python's `strip`, `split`, `join`, `lower`, `in`, and `int()` on decimal strings) are shared helpers.

Three behaviours of the code are modelled as written:

- The file path does not zero-pad its last chunk and sends no end-of-input message.
- The live stream treats an undecodable server reply as fatal (`RuntimeError`), with no per-frame recovery.
- `_parse_text_response` reads `name` even on a line that assigned none. The model raises `UnboundName` for a first such line and reuses the previous line's name afterwards.

## Model

| member | source | states |
|---|---|---|
| AudioProcessor.Processor.Callback | server/server/audio_processor.py:59-78 | a block joins the back of the queue exactly when some sample is non-zero; the status flag changes nothing |
| AudioProcessor.SilentBlockIsDropped | server/server/audio_processor.py:73-75 | an all-zero block leaves the whole session state unchanged |
| AudioProcessor.StatusIsIgnored | server/server/audio_processor.py:69-70 | a block is handled the same whatever the driver status flag |
| AudioProcessor.AudibleBlockIsQueued | server/server/audio_processor.py:73-75 | a block with sound is appended to the queue and nothing else changes |
| AudioProcessor.Processor.ProcessResponse | server/server/audio_processor.py:80-95 | a reply with non-blank `text` appends that text unstripped and sets the idle clock to now; a malformed reply or one without text changes neither |
| AudioProcessor.Processor.CheckTimeout | server/server/audio_processor.py:97-104 | true exactly when the session's idle test `TimedOut` holds: the elapsed time strictly exceeds the timeout |
| AudioProcessor.ExactTimeoutKeepsListening | server/server/audio_processor.py:136-140 | an idle time equal to the timeout does not stop the session |
| AudioProcessor.ExpiredWaitStopsWhenIdle | server/server/audio_processor.py:130-140 | on an empty queue the session keeps waiting, unchanged, unless idle longer than the timeout; then end-of-input is sent and the session is over |
| AudioProcessor.VoiceActivityKeepsListening | server/server/audio_processor.py:144-161 | a result with voice activity sets the idle clock to now and, with a non-negative timeout, never stops the session |
| AudioProcessor.NegativeTimeoutStopsAtOnce | server/server/audio_processor.py:147-161 | with a negative timeout even a voice-activity result stops the session |
| AudioProcessor.QuietResultStopsWhenIdle | server/server/audio_processor.py:159-161 | a result without voice activity stops the session exactly when the idle time exceeds the timeout |
| AudioProcessor.QueuedBlockIsRecognized | server/server/audio_processor.py:127-153 | the oldest queued block is sent, one reply is read, and its stripped text is appended at the end of the buffer |
| AudioProcessor.RunGrowsBuffer | server/server/audio_processor.py:151-153 | over any run of events the old buffer stays a prefix of the new one |
| AudioProcessor.FragmentsAreNonEmpty | server/server/audio_processor.py:151-153 | only non-empty texts ever enter the buffer |
| AudioProcessor.StoppedStaysStopped | server/server/audio_processor.py:159-163 | once the session has returned or raised, later events change nothing |
| AudioProcessor.SecondSessionKeepsEarlierFragments | server/server/audio_processor.py:54-163 | a session never drops what the buffer already held, and its transcript starts with the earlier fragments joined by spaces |
| AudioProcessor.Processor.Handle | server/server/audio_processor.py:127-161 | one callback or loop wake-up changes the processor and the connection as the session step function says |
| AudioProcessor.Processor.ProcessAudio | server/server/audio_processor.py:106-169 | resets the idle clock, connects with the global sample rate, runs every event as the session function says, returns the joined buffer and shuts the service down when the session ends |
| AudioProcessor.Processor.ProcessAudioFile | server/server/audio_processor.py:171-178 | connects, transcribes the file with the global block size as the file function says, and always shuts down; a failed connection raises |
| AudioProcessor.Processor.Consume | server/server/audio_processor.py:144-161 | the state after one result is the one `Consumed` gives, and `stop` is the `break` |
| AudioProcessor.Consumed | server/server/audio_processor.py:144-161 | one result: voice activity sets the idle clock to now, a non-empty text is appended, and the session ends when idle longer than the timeout (a definition; its properties are the lemmas above) |
| AudioProcessor.Finish | server/server/audio_processor.py:136-143 | the generator's `break`: end-of-input is sent, its reply read, the extra result consumed, and the session over (a definition) |
| AudioProcessor.Step | server/server/audio_processor.py:59-161 | one callback or loop wake-up of the session; nothing changes once it is over (a definition) |
| AudioProcessor.Run | server/server/audio_processor.py:127-161 | the events in order (a definition; see `RunGrowsBuffer`, `StoppedStaysStopped`) |
| AudioProcessor.Session | server/server/audio_processor.py:106-169 | `process_audio`: connect or raise, run the events, return the joined buffer or raise, closing the connection (a definition; see `SecondSessionKeepsEarlierFragments`) |
| AudioProcessor.Processor.constructor | server/server/audio_processor.py:50-57 | empty buffer and queue, idle clock at now, the timeout of the given `AudioConfig`; the speech service gets the address and language of the global settings, whatever the `AudioConfig` holds |
| VoskService.Service.constructor | server/server/services/speech_recognition/vosk_service.py:12-15 | no connection yet |
| VoskService.Service.Initialize | server/server/services/speech_recognition/vosk_service.py:17-33 | on success the connection is open and holds exactly the handshake with the global sample rate and this service's language; on failure nothing changes |
| VoskService.Service.StreamChunk | server/server/services/speech_recognition/vosk_service.py:39-57 | one chunk: one send, one receive, and the reply's classification or the fault |
| VoskService.Service.StreamEof | server/server/services/speech_recognition/vosk_service.py:59-67 | sends end-of-input once and gives the extra result only when the final text is non-blank |
| VoskService.Service.ProcessAudioStream | server/server/services/speech_recognition/vosk_service.py:35-71 | the loop yields and leaves the connection exactly as the stream function says |
| VoskService.Service.ProcessAudioFile | server/server/services/speech_recognition/vosk_service.py:73-93 | the loop over offsets 0, B, 2B, … gives the connection and the text the file function says |
| VoskService.Service.Shutdown | server/server/services/speech_recognition/vosk_service.py:95-98 | closes an existing connection, and does nothing when none was opened |
| VoskProtocol.Classify | server/server/services/speech_recognition/vosk_service.py:45-52 | voice activity exactly when `text` or `partial` is non-blank; the text is the stripped `text` when that is non-blank, else empty |
| VoskProtocol.TextWinsOverPartial | server/server/services/speech_recognition/vosk_service.py:48-52 | a non-blank `text` decides the result whatever `partial` holds |
| VoskProtocol.ClassifiedTextIsStripped | server/server/services/speech_recognition/vosk_service.py:49 | the recognised text has no surrounding whitespace |
| VoskProtocol.FinalResults | server/server/services/speech_recognition/vosk_service.py:63-67 | at most one extra result, present exactly when the final text is non-blank, carrying that text stripped and voice activity |
| VoskProtocol.StreamWithAnsweringServer | server/server/services/speech_recognition/vosk_service.py:39-67 | with a server that answers every chunk: no fault, one result per chunk in order, the chunks then end-of-input sent in order, one reply consumed per message, plus the final result |
| VoskProtocol.StreamStopsAtMalformed | server/server/services/speech_recognition/vosk_service.py:39-71 | an undecodable k-th reply raises after exactly k results; the connection holds k+1 more sends (the first k chunks, then chunk k or end-of-input) and k+1 fewer replies; nothing is recovered |
| VoskProtocol.Exchange | server/server/services/speech_recognition/vosk_service.py:40-41 | on an open connection the message is sent, then exactly one reply is taken, the oldest; without a connection it fails at once |
| VoskProtocol.Recognized | server/server/services/speech_recognition/vosk_service.py:41-52 | a decoded reply gives its classification; an undecodable reply or a failed receive gives the fault |
| VoskProtocol.FinalRecognized | server/server/services/speech_recognition/vosk_service.py:61-67 | a decoded final reply gives at most one result, present exactly when its text is non-blank, carrying that text stripped with voice activity; otherwise the fault |
| VoskProtocol.Connected | server/server/services/speech_recognition/vosk_service.py:21-29 | an open connection whose only message so far is the handshake (a definition) |
| VoskProtocol.Closed | server/server/services/speech_recognition/vosk_service.py:95-98 | no connection stays none; an existing one is closed with its messages and pending replies kept |
| VoskProtocol.StreamRest | server/server/services/speech_recognition/vosk_service.py:39-71 | the stream loop and its end-of-input step (a definition; see `StreamWithAnsweringServer`) |
| VoskProtocol.Chunks | server/server/services/speech_recognition/vosk_service.py:82-83 | the slices at offsets 0, B, 2B, … (a definition; see `ChunksConcat`, `ChunkAt`) |
| VoskProtocol.FileRest | server/server/services/speech_recognition/vosk_service.py:82-90 | the file loop over the chunks (a definition; see `FileWithAnsweringServer`) |
| VoskProtocol.StreamWithoutConnection | server/server/services/speech_recognition/vosk_service.py:40 | a service never initialized raises at once and yields nothing |
| VoskProtocol.ChunkCount | server/server/services/speech_recognition/vosk_service.py:82-83 | the number of chunks is ceil(L/B): none for empty audio, else the last offset lies before L and within B of it |
| VoskProtocol.ChunksConcat | server/server/services/speech_recognition/vosk_service.py:82-83 | the chunks put together give the samples back, nothing padded or lost |
| VoskProtocol.ChunkAt | server/server/services/speech_recognition/vosk_service.py:82-83 | chunk k is the slice from offset k·B to min(k·B+B, L) |
| VoskProtocol.LastChunkLength | server/server/services/speech_recognition/vosk_service.py:82-83 | the last chunk has length L − B·(n−1), with no padding |
| VoskProtocol.InnerChunkLength | server/server/services/speech_recognition/vosk_service.py:82-83 | every chunk before the last has length exactly B |
| VoskProtocol.ProcessFile | server/server/services/speech_recognition/vosk_service.py:73-93 | unreadable audio, a non-integer or zero block size raise; a negative block size gives ""; otherwise the chunks are sent in order |
| VoskProtocol.FileWithAnsweringServer | server/server/services/speech_recognition/vosk_service.py:82-90 | with an answering server: one audio message per chunk, no end-of-input, the unstripped non-blank texts joined by single spaces |
| Gpt35.CleanContent | server/server/services/llm/providers/openai/gpt35.py:58-65 | an unfenced reply is only stripped; a fenced reply without a line break raises; otherwise fence lines and a `json` tag are removed |
| Gpt35.InnerLines | server/server/services/llm/providers/openai/gpt35.py:62-63 | the text after the first line break up to the last one: a slice of the reply, ending at a line break after which none follows |
| Gpt35.FencedReply | server/server/services/llm/providers/openai/gpt35.py:60-65 | a fenced reply gives back its body, less a leading `json` tag |
| Gpt35.DecodeOrParse | server/server/services/llm/providers/openai/gpt35.py:67-76 | decoded JSON lists pass exactly when every item has the three keys; undecodable text goes to the line parser; every returned item has the keys |
| Gpt35.ShoppingListReply | server/server/services/llm/providers/openai/gpt35.py:55-76 | every returned item has the three keys; a fence without a line break raises |
| Gpt35.TextToShoppingList | server/server/services/llm/providers/openai/gpt35.py:32-80 | the method's result is the reply function's |
| Gpt35.FencedJsonReply | server/server/services/llm/providers/openai/gpt35.py:58-73 | a fenced JSON list is returned as decoded from the fence's body |
| Gpt35.SingleItemLineReply | server/server/services/llm/providers/openai/gpt35.py:74-76 | a single plain `- q x name ($p …` reply that is not JSON gives one item with those fields |
| OpenAIBase.NewBaseService | server/server/services/llm/providers/openai/base.py:20-30 | succeeds exactly when `OPENAI_API_KEY` is set and non-empty, keeping key and model; raises otherwise |
| OpenAIBase.ParseTextResponse | server/server/services/llm/providers/openai/base.py:32-52 | the loop over lines computes the line-parser function, with `name` carried between lines |
| OpenAIBase.ParseLineStep | server/server/services/llm/providers/openai/base.py:36-51 | one line handled as the line function says |
| OpenAIBase.ItemParts | server/server/services/llm/providers/openai/base.py:36-38 | a line without `-` gives nothing; otherwise the `x` pieces of its stripped second `-` segment, kept only when there are at least two |
| OpenAIBase.NameAndPrice | server/server/services/llm/providers/openai/base.py:41-45 | with one `($` the text before it and the first word after it; with two or more, an unpacking error; without, price 1.0 and the name left from earlier (a definition; see `UnpricedFirstLineRaises`, `UnpricedLineReusesName`) |
| OpenAIBase.ParseLine | server/server/services/llm/providers/openai/base.py:36-51 | one line (a definition; see `ItemLineParses`, `OnlySecondSegmentMatters`) |
| OpenAIBase.ParseLines | server/server/services/llm/providers/openai/base.py:34-52 | the lines in order with `name` carried along (a definition; see `AtMostOneItemPerLine`, `NoDashNoItems`) |
| OpenAIBase.AtMostOneItemPerLine | server/server/services/llm/providers/openai/base.py:35-51 | never more items than lines |
| OpenAIBase.LineWithoutDashIsSkipped | server/server/services/llm/providers/openai/base.py:36 | a line without `-` contributes nothing |
| OpenAIBase.NoDashNoItems | server/server/services/llm/providers/openai/base.py:35-52 | text without any `-` gives the empty list |
| OpenAIBase.OnlySecondSegmentMatters | server/server/services/llm/providers/openai/base.py:37 | two lines with the same second `-` segment parse alike |
| OpenAIBase.UnpricedFirstLineRaises | server/server/services/llm/providers/openai/base.py:41-48 | an unpriced first item line raises because `name` was never assigned |
| OpenAIBase.UnpricedLineReusesName | server/server/services/llm/providers/openai/base.py:41-48 | an unpriced later line takes the previous line's name and price 1.0 |
| OpenAIBase.ItemLineParses | server/server/services/llm/providers/openai/base.py:36-51 | `- q x name ($p tail` gives the item (name, q, p) |
| OpenAIBase.SingleItemLineParses | server/server/services/llm/providers/openai/base.py:32-52 | a one-line reply of that shape gives exactly that one item |
| OpenAIService.NewOpenAIService | server/server/services/llm/openai_service.py:18-28 | succeeds exactly when the key is set and non-empty, with model `gpt-3.5-turbo` |
| OpenAIService.TextToShoppingList | server/server/services/llm/openai_service.py:69-101 | no fence stripping: the raw reply is decoded or line-parsed as in the GPT-3.5 service |
| OpenAIService.AgreesWithGpt35OnPlainReplies | server/server/services/llm/openai_service.py:73-101 | on a stripped, unfenced reply both services return the same |
| ShoppingList.ValidateItems | server/server/services/llm/providers/openai/gpt35.py:70-73 | passes the list back unchanged exactly when every item has `name`, `quantity` and `unit_price`, else `Missing required fields` |
| ShoppingList.Validated | server/server/services/llm/providers/openai/gpt35.py:70-73 | a success gives the list back unchanged, every item carrying the three keys |
| ShoppingList.ToJson | server/server/services/llm/providers/openai/base.py:47-51 | a parsed item always carries the three required keys |
| LlmFactory.Create | server/server/services/llm/factory.py:9-31 | a non-`openai` provider (ignoring case) raises; `gpt-4-turbo` raises not implemented; `gpt-4` gives the GPT-4 service and anything else GPT-3.5, each needing the key |
| LlmFactory.NewGpt35 | server/server/services/llm/providers/openai/gpt35.py:9-10 | `GPT35TurboService()`: succeeds exactly when the base constructor does with `gpt-3.5-turbo`, holding its client |
| LlmFactory.NewGpt4 | server/server/services/llm/providers/openai/gpt4.py:8-9 | `GPT4Service()`: succeeds exactly when the base constructor does with `gpt-4`, holding its client |
| LlmFactory.ProviderIgnoresCase | server/server/services/llm/factory.py:20 | any spelling of `openai` gives the same service |
| LlmFactory.DefaultIsGpt35 | server/server/services/llm/factory.py:26-27 | no model gives the GPT-3.5 service |
| LlmModels.IsVisionModel | server/server/services/llm/models.py:23-24 | true exactly for the vision model of the catalogue |
| LlmModels.IsChatModel | server/server/services/llm/models.py:26-28 | true exactly for the three chat models |
| LlmModels.KindOf | server/server/services/llm/models.py:3-20 | the catalogue: each model name and its kind (a definition; see `IsChatModel`, `OtherModelsAreNeither`) |
| LlmModels.ChatAndVisionDisjoint | server/server/services/llm/models.py:23-28 | no model is both |
| LlmModels.OtherModelsAreNeither | server/server/services/llm/models.py:11-20 | audio, image and embedding models are neither chat nor vision |
| SpeechFactory.GetSpeechRecognitionService | server/server/services/speech_recognition/factory.py:10-20 | succeeds exactly for a mapped provider, giving its class; raises otherwise |
| SpeechFactory.MappingCoversEnum | server/server/services/speech_recognition/factory.py:6-15 | the mapping covers exactly the values of the provider enum |
| SpeechFactory.EveryProviderSucceeds | server/server/services/speech_recognition/factory.py:12-20 | every enum provider gets a service; `vosk` gets `VoskService` |
| Settings.GetEnvVar | server/server/config.py:13-25 | unset gives the default; booleans by spelling; integers parsed or kept as the raw string; strings as given |
| Settings.BoolSettingIgnoresCase | server/server/config.py:21-22 | a boolean setting ignores letter case |
| Settings.IntSettingRoundTrip | server/server/config.py:23 | a rendered integer reads back as itself |
| Settings.IntSettingKeepsGarbage | server/server/config.py:23-25 | a value with a stray ASCII character (not a digit, space, sign or `_`) is kept as the raw string |
| Settings.LoadConfig | server/server/config.py:27-39 | the string settings are the variable's value or the listed default; an unset number setting has its listed default |
| Settings.EmptyEnvironmentGivesDefaults | server/server/config.py:27-39 | with nothing set every setting has its listed default |
| Settings.BlockSizeOverride | server/server/config.py:31 | setting `AUDIO_BLOCKSIZE` changes only that setting |
| ImageService.GetRandomProductImage | server/server/services/image_service.py:7-9 | a draw in 1..15 names one of the fifteen images |
| ImageService.GetImageForProduct | server/server/services/image_service.py:12-15 | every id, negative ones too, gets one of the fifteen images |
| ImageService.SameImageIffCongruent | server/server/services/image_service.py:14 | two ids share an image exactly when they are congruent modulo 15 |
| ImageService.ImagePathInjective | server/server/services/image_service.py:15 | different image numbers give different paths |
| ImageService.ImageCycle | server/server/services/image_service.py:14 | the image repeats every fifteen ids |
| ImageService.MigrationAgrees | server/server/database/migrations.py:62-66 | the image the migration stored for a row is the one the service computes |
| ImageService.TruncRem | frontend/src/services/imageService.ts:5 | JavaScript's `%`: `a` is the quotient rounded toward zero times `b` plus the remainder, which has the sign of the dividend and is smaller than the divisor in size |
| ImageService.ImagePath | server/server/services/image_service.py:15 | the path starts with `/images/products/` and ends in `.png` |
| ClientImages.GetProductImage | frontend/src/services/imageService.ts:3-7 | agrees with the server for non-negative ids |
| ClientImages.NegativeIdsMissTheImages | frontend/src/services/imageService.ts:5 | a negative id that is not a multiple of 15 names no real image and differs from the server |
| ClientImages.GetCartItemImage | frontend/src/services/imageService.ts:9-16 | a present non-zero product id decides; otherwise the item id does |
| ClientImages.ZeroProductIdFallsBack | frontend/src/services/imageService.ts:10 | product id 0 counts as absent |
| PosStore.Store.constructor | frontend/src/store/posStore.ts:43-77 | the initial state, with the cart rehydrated from the persisted entry when there is one |
| PosStore.Store.SetPaymentInProgress | frontend/src/store/posStore.ts:51-52 | sets that field only |
| PosStore.Store.SetConnectionError | frontend/src/store/posStore.ts:53-54 | sets that field only |
| PosStore.Store.SetActiveCategory | frontend/src/store/posStore.ts:55-56 | sets that field only |
| PosStore.Store.SetSearchTerm | frontend/src/store/posStore.ts:57-58 | sets that field only |
| PosStore.Store.AddToCart | frontend/src/store/posStore.ts:59-62 | appends the item at the end and changes nothing else |
| PosStore.Store.RemoveFromCart | frontend/src/store/posStore.ts:63-66 | removes every line with that id, keeping order, and changes nothing else |
| PosStore.Store.ClearCart | frontend/src/store/posStore.ts:67 | empties the cart only |
| PosStore.Store.Partialize | frontend/src/store/posStore.ts:76 | only the cart is persisted |
| PosStore.WithoutId | frontend/src/store/posStore.ts:65 | no line with the id is left, and every other line is kept |
| PosStore.WithoutIdDistributes | frontend/src/store/posStore.ts:65 | removal keeps order: it works piecewise over concatenation |
| PosStore.WithoutIdIdempotent | frontend/src/store/posStore.ts:65 | removing twice is removing once |
| PosStore.WithoutAbsentId | frontend/src/store/posStore.ts:65 | removing an absent id changes nothing |
| PosStore.AddThenRemove | frontend/src/store/posStore.ts:59-66 | adding an item then removing its id is removing the id alone |
| PosStore.AddFreshThenRemove | frontend/src/store/posStore.ts:59-66 | adding an item with a fresh id then removing it restores the cart |
| PosSystem.FilterProducts | frontend/src/components/POSSystem.tsx:109-113 | keeps exactly the products of the active category (or all) whose lower-cased name contains the lower-cased term |
| PosSystem.SearchIgnoresCase | frontend/src/components/POSSystem.tsx:111 | the search term's letter case does not change the filter |
| PosSystem.AccentedNameMatches | frontend/src/components/POSSystem.tsx:111 | accented capitals are lower-cased too: `AZÚCAR` is found by `azúcar` |
| PosSystem.FilterDistributes | frontend/src/components/POSSystem.tsx:109-113 | the filter keeps the products' order |
| PosSystem.DefaultFilterKeepsAll | frontend/src/components/POSSystem.tsx:109-113 | category `all` with an empty search shows every product |
| PosSystem.FindProduct | frontend/src/components/POSSystem.tsx:46 | the first product with the item's id, or none exactly when no product has it |
| PosSystem.JoinCart | frontend/src/components/POSSystem.tsx:45-51 | one entry per cart line, in order, each carrying its line and its product |
| PosSystem.UnlinkedLineHasNoProduct | frontend/src/components/POSSystem.tsx:46 | a line without a product id gets no product |

## Left out

- Audio capture, `sounddevice`, `soundfile` and numpy: a block is modelled as a sequence of decoded integer samples. A byte buffer whose length does not fit `int16` makes `np.frombuffer` raise inside the callback, where it is only logged; that path is not modelled.
- Concurrency: the driver thread, `call_soon_threadsafe` and the event loop become one sequence of events. Each event carries a clock value taken at the moment it happens. The one-second wait is a wake-up on an empty queue.
- The `last_log_time` "Listening..." message, and all printing and logging.
- WebSocket transport: a reply is either decoded already or marked undecodable. Running out of replies stands for any receive failure, and every failure is one `Fault`. Everything raised is `RuntimeError`, with no message text.
- `json.dumps` of the handshake: the model keeps the handshake as structured data. The end-of-input message is the constant `{"eof" : 1}`.
- `json.loads` of the OpenAI reply is an abstract parameter, and decoded values other than a list of objects are not modelled. `float()` is an abstract partial parameter.
- `Settings.GetEnvVar`: Python's `int()` accepting underscores and non-ASCII digits is not modelled.
- `PosSystem.FilterProducts`: lower-casing covers the capitals of ASCII, Latin-1 and Latin Extended-A. Other scripts (Greek, Cyrillic, …) and U+0130, whose lower case is two characters, are left as they are. The same `Lower` stands for Python's `lower()` in `get_env_var`, the fence clean-up and the LLM factory.
- `VoskService.Service.Initialize`: a handshake send that fails after the connection opened is not modelled. In the code the new connection then stays in `websocket` and the `finally` shutdown closes it; the model treats every failure of `initialize` as a failed connect that leaves the earlier connection in place.
- `AudioProcessor.Processor.constructor`: the timeout is taken as an integer; a non-integer `AUDIO_TIMEOUT` making the comparison raise is not modelled. `config or AudioConfig()` is not modelled: the caller passes the `AudioConfig`. Its `device`, `samplerate`, `blocksize` and `channels` only reach the sound stream, which is not modelled; its `uri` and `language` are ignored by the code.
- The OpenAI chat-completion calls, the client object and `.env` loading: the reply text is an input and the environment is a map.
- `GPT4Service.text_to_shopping_list` has no body and so returns `None`; the model only reaches GPT-4 through the factory.
- `VoskProtocol.StreamStopsAtMalformed`: a Python reply object whose `text` is not a string, making `.strip()` raise, is folded into the undecodable reply.
- Closing of the `async for` generators after a `break` (no end-of-input is sent then, which the model states), and the sound stream's start and stop.
- The database, the HTTP API, schemas, `server/config/settings.py` and the rest of the user interface are not part of this model. `getRandomImageForNewProduct` is not part of this model either.
