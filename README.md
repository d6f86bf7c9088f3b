# Voice router SDK core, modelled in Dafny

This project models the deterministic core of a Rust speech-to-text SDK. The SDK sends transcription requests to three vendors (Gladia, AssemblyAI and Deepgram) through one provider-agnostic interface. The model covers:

- the audio chunk buffer and the streaming encoding tables;
- the canonical audio-encoding table and its validator;
- the error-code catalogue;
- the streaming session handle;
- each vendor adapter's request building, URL building, response and streaming-message normalisation, and bounded polling;
- the `VoiceRouter`, with its provider-selection strategies;
- the webhook router and the Gladia webhook handler.

The model takes the source's own form:

- Pure code is written as functions over datatypes: the encoding tables, the normalisers, the webhook parsers and the error catalogue.
- State changed in place is written as classes:
  - `AudioBuffer`, whose byte queue is filled and drained by a loop;
  - `StreamingSessionHandle`, with its status and its single-use close sender;
  - the three adapters, which hold their configuration;
  - `VoiceRouter`, with its adapter table and round-robin counter.
- Code that fills a request or a parameter list step by step is written as methods: `BuildTranscriptParams`, `BuildTranscriptionRequest`, `BuildStreamingRequest` and both `BuildStreamingUrl`s. Each is proved against a specification predicate or function.
- The pollers are `for` loops, proved against `Polling.PollFrom`.

Everything outside the program is a parameter:

- Vendor HTTP replies are values: the creation reply, and a sequence with one reply per poll.
- Decoded streaming messages are datatypes, with "could not be decoded" as `None`.
- Decoded webhook bodies are `Result<Json, string>` values.
- The clock's timestamp is a string.
- The receiving end of the close channel is a flag saying whether it is still alive.
- The iteration order of a `HashMap` is a sequence that enumerates its keys.

Modules, one per source file:

- `Streaming`: `adapters/streaming.rs`.
- `AudioEncoding`: `audio_encoding.rs`.
- `Errors`: `errors.rs`.
- `Types`: `types/mod.rs`.
- `Adapters`: `adapters/mod.rs`.
- `AssemblyAI`, `Gladia` and `Deepgram`: the three adapter files.
- `Polling`: the bounded poll loop shared by two adapters.
- `Router`: `router.rs`.
- `WebhookTypes`, `GladiaWebhook` and `Webhooks`: the files in `webhooks/`.
- Helpers: `Wrappers` (Option, Result), `Strings`, `Sequences` and `Json`.

Three behaviours of the code a reader might not expect are kept as written:

- Deepgram's `UtteranceEnd` becomes an Utterance event that carries no utterance.
- The Gladia batch request never forwards a language code. Only `code_switching` is derived from the options, so `language_config` records nothing more.
- Gladia's streaming encoding for μ-law is `wav/ulaw` in the live request, but the `to_gladia` table spells it `wav/mulaw`. Both are kept as written.

## Model

| member | source | states |
|---|---|---|
| Streaming.DeepgramNameRoundTrip | rust-sdk/src/adapters/streaming.rs:34-76 | Parsing the Deepgram token of any of the six encodings gives that encoding back. |
| Streaming.AssemblyAINameRoundTrip | rust-sdk/src/adapters/streaming.rs:46-76 | The AssemblyAI token parses back to μ-law or A-law for those two encodings, and to PCM16 for every other encoding (the PCM fallback). |
| Streaming.GladiaNameRoundTrip | rust-sdk/src/adapters/streaming.rs:56-76 | The same fallback and round trip for the Gladia tokens. |
| Streaming.FromStrIgnoresCase | rust-sdk/src/adapters/streaming.rs:66-76 | Parsing is case-insensitive: a string and its lower-cased form parse alike. |
| Streaming.Frames | rust-sdk/src/adapters/streaming.rs:211-221 | Every frame has exactly the maximum size, the remainder is shorter than it, and the frames followed by the remainder are the input. |
| Streaming.AudioBuffer.New | rust-sdk/src/adapters/streaming.rs:196-203 | Keeps both limits and starts empty. |
| Streaming.AudioBuffer.ForAssemblyAI | rust-sdk/src/adapters/streaming.rs:205-208 | Limits 1600 and 32000 bytes, empty. |
| Streaming.AudioBuffer.Add | rust-sdk/src/adapters/streaming.rs:211-221 | The returned chunks and the new buffer are the frames and remainder of the old buffer followed by the data. Requires a positive maximum, because the source's loop never ends otherwise. |
| Streaming.AudioBuffer.Flush | rust-sdk/src/adapters/streaming.rs:224-233 | Returns the whole buffer when it is non-empty (or the minimum is zero), returns nothing otherwise, and leaves the buffer empty. |
| Streaming.AssemblyAIChunking | rust-sdk/src/adapters/streaming.rs:205-221 | With AssemblyAI's limits, 40000 bytes give one 32000-byte chunk and leave 8000 bytes buffered. |
| Streaming.MakeErrorEvent | rust-sdk/src/adapters/streaming.rs:237-255 | An Error event whose error is exactly the code and message, with every other field empty. |
| Streaming.MakeOpenEvent | rust-sdk/src/adapters/streaming.rs:257-270 | Only the event type (Open) is set. |
| Streaming.MakeCloseEvent | rust-sdk/src/adapters/streaming.rs:272-285 | Only the event type (Close) is set. |
| AudioEncoding.FromStr | rust-sdk/src/audio_encoding.rs:68-81 | Recognises a string exactly when its lower-cased form is one of the encoding's spellings. |
| AudioEncoding.FromStrAcceptsSpellings | rust-sdk/src/audio_encoding.rs:68-81 | Every spelling of an encoding, in any case, parses to that encoding. |
| AudioEncoding.FromStrAsStr | rust-sdk/src/audio_encoding.rs:53-81 | Parsing the canonical name of each of the nine encodings gives it back. |
| AudioEncoding.FromStrIgnoresCase | rust-sdk/src/audio_encoding.rs:68-81 | Lower-casing the input first changes nothing. |
| AudioEncoding.SampleRateHz | rust-sdk/src/audio_encoding.rs:99-105 | Each sample rate lies between 8 and 48 kHz. |
| AudioEncoding.SampleRateHzInjective | rust-sdk/src/audio_encoding.rs:99-105 | Distinct sample rates have distinct values in hertz. |
| AudioEncoding.NewChannels | rust-sdk/src/audio_encoding.rs:119-125 | Defined exactly for 1 to 8 channels, and keeps the count. |
| AudioEncoding.Mono | rust-sdk/src/audio_encoding.rs:127-129 | The one-channel value. |
| AudioEncoding.Stereo | rust-sdk/src/audio_encoding.rs:131-133 | The two-channel value. |
| AudioEncoding.DefaultChannels | rust-sdk/src/audio_encoding.rs:140-144 | The default is mono. |
| AudioEncoding.MapEncodingToProvider | rust-sdk/src/audio_encoding.rs:155-227 | Succeeds exactly for the encodings in the vendor's table. Otherwise the error names the encoding, the vendor and the vendor's full supported list. |
| AudioEncoding.SupportedTextNamesSupported | rust-sdk/src/audio_encoding.rs:207-217 | The supported list in the error text is the vendor's table, joined by commas. |
| AudioEncoding.DeepgramUsesCanonicalNames | rust-sdk/src/audio_encoding.rs:165-178 | Deepgram's token for a supported encoding is its canonical name. |
| AudioEncoding.AssemblyAINamesParseBack | rust-sdk/src/audio_encoding.rs:180-195 | AssemblyAI's tokens parse back to the encoding. |
| AudioEncoding.ValidateAudioConfig | rust-sdk/src/audio_encoding.rs:229-256 | Succeeds exactly when any given encoding is supported and the vendor's extra rule holds: Gladia accepts 1 to 8 channels, AssemblyAI only linear16. An unsupported encoding is reported first, with the mapping's error text. |
| AudioEncoding.AssemblyAIStreamsOnlyLinear16 | rust-sdk/src/audio_encoding.rs:248-254 | Every encoding other than linear16 is rejected for AssemblyAI. This includes μ-law and A-law, which the mapping table accepts. |
| Errors.GetErrorMessage | rust-sdk/src/errors.rs:38-50 | A fixed message for each of the eight named codes. Any other code, UNKNOWN_ERROR included, gets the unknown-error message. |
| Errors.MessageRoundTrip | rust-sdk/src/errors.rs:38-50 | Each named code can be recovered from its message. |
| Errors.MessageIdentifiesCode | rust-sdk/src/errors.rs:38-50 | Two codes with the same known message are the same code. |
| Errors.NewStandardError | rust-sdk/src/errors.rs:74-84 | Keeps the code and details, sets no status code, and uses the custom message when there is one, else the catalogue's. |
| Errors.WithStatusCode | rust-sdk/src/errors.rs:86-89 | Sets the status code and changes nothing else. |
| Errors.Display | rust-sdk/src/errors.rs:92-96 | The rendering is `[`, the code, `] `, then the message, and nothing else. |
| Errors.DisplayCodeRoundTrip | rust-sdk/src/errors.rs:92-96 | The code is recovered from the rendering when it contains no `]`. |
| Types.U32AsI32 | rust-sdk/src/adapters/assemblyai.rs:127-129 | The `as i32` cast of the expected speaker count: congruent modulo 2^32, within the `i32` range, and the identity below 2^31. Gladia's `number_of_speakers` (`adapters/gladia.rs`, line 148) uses the same cast. |
| Types.DecodeStatus | rust-sdk/src/types/mod.rs:480-488 | Values 0 to 2 decode to their status, and any stored value of 3 or more decodes as Closed. |
| Types.StatusRoundTrip | rust-sdk/src/types/mod.rs:480-498 | Decoding the stored code of any status gives it back. |
| Types.StreamingSessionHandle.New | rust-sdk/src/types/mod.rs:445-460 | A new handle is Connecting (stored 0) and holds its close sender. |
| Types.StreamingSessionHandle.SetStatus | rust-sdk/src/types/mod.rs:490-498 | The status read back is the one set, and the close state is untouched. |
| Types.StreamingSessionHandle.Close | rust-sdk/src/types/mod.rs:470-478 | The sender is consumed by the first call, and the signal is sent only then. A failed send returns the error and leaves the status alone. Every other call returns Ok, and the status is then Closed. |
| Types.StreamingSessionHandle.CloseTwiceSignalsOnce | rust-sdk/src/types/mod.rs:470-478 | Closing twice succeeds twice and signals once. |
| Polling.TimeoutResponse | rust-sdk/src/adapters/assemblyai.rs:457-469 | A well-formed failure with code POLLING_TIMEOUT, no raw payload, and the attempt count in its message. |
| Polling.PollStopsAtFirstStop | rust-sdk/src/adapters/assemblyai.rs:425-470 | The poller stops at the first failed fetch or terminal status, within 120 attempts, and returns that reply's result. If there is none, it returns the timeout after exactly 120 attempts. |
| Polling.PollIgnoresLaterReplies | rust-sdk/src/adapters/gladia.rs:501-547 | Replies after the one where polling stops cannot change the outcome. |
| AssemblyAI.BuildTranscriptParams | rust-sdk/src/adapters/assemblyai.rs:112-167 | The request carries exactly the requested features: speakers_expected only with diarization on, key terms only for a non-empty vocabulary, PII redaction only when asked. With no options it is the bare request. |
| AssemblyAI.ApplyOptions | rust-sdk/src/adapters/assemblyai.rs:118-164 | For given options, the request is the bare request plus exactly the features they ask for. |
| AssemblyAI.ApiBasePath | rust-sdk/src/adapters/assemblyai.rs:98-110 | The configured base URL, else the vendor default. |
| AssemblyAI.MapWord | rust-sdk/src/adapters/assemblyai.rs:169-178 | Times converted from ms to s (start × 1000 is the ms value), order of start and end preserved, text and speaker copied. |
| AssemblyAI.MapUtterance | rust-sdk/src/adapters/assemblyai.rs:180-190 | The same conversion for utterances, with every word mapped. |
| AssemblyAI.ExtractSpeakers | rust-sdk/src/adapters/assemblyai.rs:192-209 | Nothing for no utterances. Otherwise one speaker per distinct utterance speaker, labelled "Speaker {id}". |
| AssemblyAI.NormalizeResponse | rust-sdk/src/adapters/assemblyai.rs:328-421 | Well-formed, keeps raw, succeeds exactly unless the status is Error. The error message is the vendor's or "Transcription failed". Otherwise the status is mapped, duration is converted from ms, and words, utterances and speakers are mapped. |
| AssemblyAI.QueuedResponse | rust-sdk/src/adapters/assemblyai.rs:547-573 | With a webhook, the reply is a successful Queued response with empty text. |
| AssemblyAI.ParseStreamingMessage | rust-sdk/src/adapters/assemblyai.rs:232-323 | An error-shaped message becomes a PROVIDER_ERROR event, checked first. Turn becomes a Transcript event with is_final = end_of_turn, confidence only at end of turn, and words mapped. Begin and Termination become Metadata events whose only field is the `format!` JSON of their fields. SessionInformation and undecodable messages give nothing. No event carries `data`. |
| AssemblyAI.BuildStreamingUrl | rust-sdk/src/adapters/assemblyai.rs:212-229 | `sample_rate` (16000 by default) comes first, then `encoding` only for a recognised encoding. |
| AssemblyAI.AssemblyAIAdapter.Initialize | rust-sdk/src/adapters/assemblyai.rs:499-506 | Succeeds exactly for a non-empty API key, and only then stores the configuration. |
| AssemblyAI.AssemblyAIAdapter.PollForCompletion | rust-sdk/src/adapters/assemblyai.rs:425-470 | NotInitialized without a configuration. Otherwise the outcome and attempt count of `PollFrom` over the replies. |
| AssemblyAI.AssemblyAIAdapter.Transcribe | rust-sdk/src/adapters/assemblyai.rs:508-577 | Byte and stream input are NotSupported. A creation failure is ProviderError API_ERROR. A webhook gives Queued without polling. Otherwise the request forwards the options and the result is the poll's. |
| AssemblyAI.AssemblyAIAdapter.GetTranscript | rust-sdk/src/adapters/assemblyai.rs:579-596 | The normalised reply, or the API error. |
| AssemblyAI.AssemblyAIAdapter.DeleteTranscript | rust-sdk/src/adapters/assemblyai.rs:598-612 | True on success, else the API error. |
| Gladia.BuildTranscriptionRequest | rust-sdk/src/adapters/gladia.rs:125-200 | The request carries exactly the requested features. number_of_speakers needs diarization on and a count. The vocabulary is attached only if non-empty. A webhook sets callback=true and its URL. With no options it is the bare request. |
| Gladia.ApplyOptions | rust-sdk/src/adapters/gladia.rs:131-197 | For given options, the request is the bare request plus exactly the features they ask for. |
| Gladia.BuildStreamingRequest | rust-sdk/src/adapters/gladia.rs:278-324 | A listed sample rate is kept and any other given rate becomes 16000. An unrecognised encoding is left unset. bit_depth is 16 only for PCM16. The model is set only for "solaria-1". |
| Gladia.LiveEncodingAgreesWithStreamingName | rust-sdk/src/adapters/gladia.rs:294-306 | The live encoding agrees with the `to_gladia` table up to the μ-law spelling. |
| Gladia.I32AsU16 | rust-sdk/src/adapters/gladia.rs:433-446 | The `as u16` cast of the error code: congruent modulo 2^16, the identity inside the range. |
| Gladia.MapWord | rust-sdk/src/adapters/gladia.rs:202-211 | Text, times and confidence copied, with no speaker. |
| Gladia.MapUtterance | rust-sdk/src/adapters/gladia.rs:213-223 | Fields copied, the speaker is the decimal tag, and every word is mapped. |
| Gladia.ExtractSpeakers | rust-sdk/src/adapters/gladia.rs:225-247 | Nothing when no utterance has a speaker. Otherwise distinct ids, exactly the utterances' tags, each labelled. |
| Gladia.AllWordsAppend | rust-sdk/src/adapters/gladia.rs:249-270 | Flattening the words keeps utterance order. |
| Gladia.AllWordsEmpty | rust-sdk/src/adapters/gladia.rs:249-270 | The flattened list is empty exactly when every utterance has no words. |
| Gladia.ExtractWords | rust-sdk/src/adapters/gladia.rs:249-270 | Nothing when there are no words. Otherwise every word in order, each tagged with its utterance's speaker. |
| Gladia.NormalizeResponse | rust-sdk/src/adapters/gladia.rs:424-499 | Well-formed, keeps raw, and maps the four statuses. Error gives failure, TRANSCRIPTION_ERROR and the truncated status code. Otherwise the text, language, speakers, words, utterances, summary and duration are as extracted. |
| Gladia.QueuedResponse | rust-sdk/src/adapters/gladia.rs:628-640 | With a webhook, the reply is a successful Queued response. |
| Gladia.LiveWords | rust-sdk/src/adapters/gladia.rs:350-372 | Live words are mapped with the utterance's speaker, and an empty list becomes nothing. |
| Gladia.ParseStreamingMessage | rust-sdk/src/adapters/gladia.rs:326-421 | Transcript becomes a Transcript event (no utterance, is_final copied). Utterance becomes a final event carrying the utterance. Error becomes PROVIDER_ERROR with its message. A Metadata message becomes a Metadata event holding only its rendering. Undecodable messages give nothing. Only the Error event carries an error, and none carries `data`. |
| Gladia.GladiaAdapter.Initialize | rust-sdk/src/adapters/gladia.rs:575-582 | Succeeds exactly for a non-empty API key. |
| Gladia.GladiaAdapter.PollForCompletion | rust-sdk/src/adapters/gladia.rs:501-547 | The outcome and attempt count of `PollFrom`, or NotInitialized. |
| Gladia.GladiaAdapter.Transcribe | rust-sdk/src/adapters/gladia.rs:584-653 | The same branches as AssemblyAI's, over Gladia's request and replies. |
| Gladia.GladiaAdapter.GetTranscript | rust-sdk/src/adapters/gladia.rs:655-672 | The normalised reply, or the API error. |
| Gladia.GladiaAdapter.DeleteTranscript | rust-sdk/src/adapters/gladia.rs:674-688 | True on success, else the API error. |
| Deepgram.MapWord | rust-sdk/src/adapters/deepgram.rs:100-109 | A missing text, start or end defaults to empty or 0, and the word carries no speaker. |
| Deepgram.MapUtterance | rust-sdk/src/adapters/deepgram.rs:111-132 | The same defaults, and the utterance's words carry their own speakers. |
| Deepgram.SpeakersOfCorrect | rust-sdk/src/adapters/deepgram.rs:270-285 | The speaker ids are strictly sorted, exactly the utterances' speakers, labelled, and the only such sorted list. |
| Deepgram.NormalizeResponse | rust-sdk/src/adapters/deepgram.rs:241-336 | Always succeeds with status Completed. Text and confidence come from the first alternative of the first channel, with empty text when there is none. Speakers are present exactly when utterances are. |
| Deepgram.NormalizedSpeakers | rust-sdk/src/adapters/deepgram.rs:270-285 | With utterances, the speakers are the sorted distinct integer tags. |
| Deepgram.AcceptedResponse | rust-sdk/src/adapters/deepgram.rs:472-495 | A callback reply gives a successful Processing response. |
| Deepgram.BuildListenRequest | rust-sdk/src/adapters/deepgram.rs:395-420 | Punctuation is always on, `utterances` mirrors `diarize`, and the other options are forwarded. |
| Deepgram.OrderConcat | rust-sdk/src/adapters/deepgram.rs:135-180 | Concatenating ordered parameter runs from successive rank bands stays ordered. |
| Deepgram.LookupConcat | rust-sdk/src/adapters/deepgram.rs:135-180 | A parameter is found in a concatenation where it first occurs. |
| Deepgram.BuildStreamingUrl | rust-sdk/src/adapters/deepgram.rs:135-180 | The URL is the base followed by the parameter list `StreamingParams`, joined by `&`. |
| Deepgram.StreamingUrlParameters | rust-sdk/src/adapters/deepgram.rs:135-180 | Parameters come in the fixed order, and punctuate=true is last. interim_results defaults to true. diarize=true appears only when asked. Every optional parameter appears exactly when given. |
| Deepgram.ParseStreamingMessage | rust-sdk/src/adapters/deepgram.rs:183-236 | Results without alternatives give nothing. Otherwise a Transcript event from the first alternative. UtteranceEnd becomes a final Utterance event with every other field empty. Metadata becomes a Metadata event holding only its rendering. No event carries `data`. |
| Deepgram.DeepgramAdapter.Initialize | rust-sdk/src/adapters/deepgram.rs:364-371 | Succeeds exactly for a non-empty API key. |
| Deepgram.DeepgramAdapter.Transcribe | rust-sdk/src/adapters/deepgram.rs:373-497 | Byte and stream input are NotSupported. The request is the listen request. A failure is the API error. A full reply is normalised, a callback reply is accepted. |
| Deepgram.DeepgramAdapter.GetTranscript | rust-sdk/src/adapters/deepgram.rs:499-507 | Always NotSupported. |
| Router.BuiltInsRegistered | rust-sdk/src/router.rs:87-117 | Construction registers exactly the Gladia, AssemblyAI and Deepgram entries with a non-empty API key. |
| Router.BuiltInsStream | rust-sdk/src/router.rs:262-268 | Every built-in adapter declares streaming. |
| Router.SelectPreferred | rust-sdk/src/router.rs:154-163 | A preferred provider is chosen exactly when registered, whatever the strategy, and the counter is untouched. |
| Router.SelectedIsRegistered | rust-sdk/src/router.rs:149-181 | Explicit, round-robin and preferred picks are registered, and Explicit without a preference always fails. Only the Default strategy can pick an unregistered provider. |
| Router.RoundRobinPickAt | rust-sdk/src/router.rs:171-176 | Away from the wrap-around, the i-th consecutive pick is `keys[(c + i) mod n]`. |
| Router.RoundRobinFair | rust-sdk/src/router.rs:171-176 | Without wrap-around, n consecutive picks over n providers pick each exactly once. |
| Router.RoundRobinWraps | rust-sdk/src/router.rs:171-176 | The counter wraps from 2^64 − 1 to 0, and the rotation then restarts at the first key. |
| Router.VoiceRouter.New | rust-sdk/src/router.rs:68-120 | At least one provider is required. Under Default with no default, the first configured key becomes the default. The table holds exactly the built-ins that initialise. |
| Router.VoiceRouter.RegisterAdapter | rust-sdk/src/router.rs:126-132 | Inserts or replaces only for a configured provider, and is otherwise a no-op. |
| Router.VoiceRouter.GetAdapter | rust-sdk/src/router.rs:135-146 | The registered adapter, else InvalidConfig listing the registered providers. |
| Router.VoiceRouter.SelectProvider | rust-sdk/src/router.rs:149-181 | The result and new counter are `Select`'s. The counter moves by one, modulo 2^64, only on a round-robin pick. |
| Router.VoiceRouter.Transcribe | rust-sdk/src/router.rs:187-205 | Selects without a preference, then dispatches through the lookup. |
| Router.VoiceRouter.TranscribeStreamWithProvider | rust-sdk/src/router.rs:253-271 | Selects, looks up, and refuses a non-streaming adapter with NotSupported before any session is opened. |
| Router.VoiceRouter.StreamTargetStreams | rust-sdk/src/router.rs:262-268 | A streaming request reaches an adapter only if it is registered and declares streaming. |
| Router.VoiceRouter.UnregisteredDefaultFailsDispatch | rust-sdk/src/router.rs:177-179 | An unregistered default is still selected, and the lookup then fails InvalidConfig. |
| Router.VoiceRouter.GetProviderCapabilities | rust-sdk/src/router.rs:285-290 | Capabilities exactly for registered providers. |
| Router.VoiceRouter.GetRegisteredProviders | rust-sdk/src/router.rs:293-295 | Each registered provider exactly once. |
| Router.VoiceRouter.DefaultProvider | rust-sdk/src/router.rs:298-302 | The configured default, else the first provider `GetRegisteredProviders` lists, else nothing exactly when none is registered. |
| Router.NothingRegisteredWithoutBuiltIns | rust-sdk/src/router.rs:87-117 | A configuration without built-in providers registers nothing. |
| Router.ConstructedDefault | rust-sdk/src/router.rs:80-84 | Under Default, the constructor's default is the first configured key. Under the other strategies it stays unset. |
| GladiaWebhook.MapWord | rust-sdk/src/webhooks/gladia.rs:189-197 | A word is kept exactly when it has a string word and numeric start and end, and it carries no speaker. |
| GladiaWebhook.MapWords | rust-sdk/src/webhooks/gladia.rs:189-197 | The kept words are exactly the entries that map. |
| GladiaWebhook.MapUtterance | rust-sdk/src/webhooks/gladia.rs:199-217 | Kept exactly with text, start and end. The speaker is the decimal integer tag. Words are present exactly with a words array. |
| GladiaWebhook.UtteranceWordsAgree | rust-sdk/src/webhooks/gladia.rs:74-84 | A mapped utterance's words are exactly what its entry contributes to the flattened list. |
| GladiaWebhook.FlatWordsAppend | rust-sdk/src/webhooks/gladia.rs:74-84 | Flattening keeps the entries' order. |
| GladiaWebhook.FlatWordsSnoc | rust-sdk/src/webhooks/gladia.rs:74-84 | An entry contributes its words even when it is dropped from the utterances. |
| GladiaWebhook.UniqueSpeakers | rust-sdk/src/webhooks/gladia.rs:87-106 | Nothing when no entry has an integer speaker. Otherwise distinct, unlabelled speakers, exactly the entries' tags. |
| GladiaWebhook.SummaryOf | rust-sdk/src/webhooks/gladia.rs:109-114 | Present exactly when `summarization.success` is true and `results` is a string. |
| GladiaWebhook.ParseSuccess | rust-sdk/src/webhooks/gladia.rs:37-145 | A missing `payload` is InvalidPayload. Otherwise success, TranscriptionCompleted, status Completed and the whole callback as raw. The text, duration, first language, summary, words, utterances and speakers are the extracted fields, and the metadata holds the three job metadata fields and `custom_metadata`. |
| GladiaWebhook.ParseError | rust-sdk/src/webhooks/gladia.rs:147-187 | Failure, TranscriptionFailed, status Error, and `error.message` or "Transcription failed", with no transcript. The metadata holds `error_code` (the integer `error.code`) and `custom_metadata`, each null when absent. |
| GladiaWebhook.Parse | rust-sdk/src/webhooks/gladia.rs:18-35 | A missing string id is InvalidPayload, checked before a missing string event. The two known events delegate. Any other event is UnknownEvent with its name. |
| GladiaWebhook.ParsedEventShape | rust-sdk/src/webhooks/gladia.rs:18-35 | A parsed event is successful exactly for the success event, and carries the callback's id and the callback as raw. |
| Webhooks.Route | rust-sdk/src/webhooks/mod.rs:21-39 | Undecodable input is JsonError. An event with the Gladia prefix goes to the Gladia handler first. Otherwise status plus id is unsupported AssemblyAI, and anything else is UnknownProvider. |
| Webhooks.ParseFor | rust-sdk/src/webhooks/mod.rs:42-53 | Gladia delegates to the handler, and every other provider is UnsupportedProvider with its name. |
| Webhooks.RouteAgreesWithGladia | rust-sdk/src/webhooks/mod.rs:21-53 | Every callback the Gladia handler accepts is routed to it, so routing and naming Gladia agree. |
| Webhooks.RoutedEventsAreGladia | rust-sdk/src/webhooks/mod.rs:21-39 | Every routed event comes from Gladia's success or error event. |
| Webhooks.GladiaShapeTakesPrecedence | rust-sdk/src/webhooks/mod.rs:26-36 | A callback with both shapes goes to the Gladia handler. |

## Left out

- The streaming loops: `tokio::spawn` with `select!` over channels, in all three adapters, and the adapters' `transcribe_stream`. They are concurrency and socket I/O. Only their termination messages are kept, as constants.
- `WebSocketConnection`: socket I/O with a connect timeout.
- `send_audio`, the `StreamingCallbacks` closures and `generate_session_id`: channel sends, callbacks and the clock.
- Vendor API calls: their replies are parameters. serde decoding and `to_value` are left out too; decoded values are given, and `raw` is an opaque JSON value.
- The poll `sleep` and the chrono timestamps: the timestamp is a parameter.
- Floating point: `f64`/`f32` values are reals. Deepgram's `f64 → i32` speaker cast is taken as the integer tag.
- `{:?}` renderings of language enums, and the `{}` renderings of the two `f64` durations of AssemblyAI's `Termination` message, are strings supplied in the input.
- Rust's `to_lowercase` is modelled as ASCII lower-casing. No recognised token depends on the difference.
- Router.VoiceRouter.New: the iteration order of the configured providers is the `order` parameter. The adapter table's own key order is left unspecified beyond "every key once", as a `HashMap`'s is.
- Router.VoiceRouter.New: requires at least one configured provider. The source panics on an empty configuration, as its documentation says.
- Streaming.AudioBuffer.Add: requires a positive maximum chunk size. With a maximum of 0 the source's drain loop takes empty chunks forever, and no caller passes 0.
- Router.VoiceRouter.SelectProvider: requires a registered adapter for a round-robin pick. The source divides by zero and panics there, and `Router.NothingRegisteredWithoutBuiltIns` shows that a constructed router can reach that case.
- Router.VoiceRouter.Transcribe: ends at the adapter the call is handed to. `transcribe_with_provider`, `transcribe_url`, `transcribe_bytes`, `get_transcript` and `delete_transcript` are the same lookup by `GetAdapter` followed by the adapter's own call, which the adapter classes model.
- GladiaWebhook.UniqueSpeakers: a `HashSet` gives the speakers, so their order is unspecified. The model lists them in first-occurrence order, and its contract states only set and distinctness properties. `Gladia.ExtractSpeakers` is the same.
- Deepgram.SpeakersOfCorrect: the in-place `sort` and `dedup` of the speaker list are modelled by the value-level `SortedDedup`, whose result is proved to be the unique strictly sorted list.
- The constants file's polling values differ from the 120 attempts and 1000 ms hard-coded in the adapters. The adapters' values are used.
- The re-exports in `lib.rs` and the trait in `adapters/mod.rs` have no behaviour of their own. The trait's methods are the adapter classes' methods.
