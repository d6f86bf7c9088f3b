/** The AssemblyAI adapter (rust-sdk/src/adapters/assemblyai.rs): the job
    request built from the unified options, the mapping of AssemblyAI
    transcripts and streaming messages to the unified types, and the
    submit-then-poll flow. The vendor's HTTP client is replaced by the
    replies it would give (`created`, `fetches`, …), and JSON decoding by
    already-decoded records that carry their own serialisation for `raw`. */
module AssemblyAI {
  import opened Wrappers
  import opened Strings
  import opened Sequences
  import opened Json
  import opened Types
  import opened Adapters
  import opened Polling
  import Streaming

  const DEFAULT_BASE_URL: string := "https://api.assemblyai.com"
  const STREAMING_URL: string := "wss://streaming.assemblyai.com/v3/ws"
  /** The text message that ends a streaming session. */
  const TERMINATE_MESSAGE: string := "{\"terminate_session\":true}"

  const CAPABILITIES: ProviderCapabilities :=
    ProviderCapabilities(true, true, true, true, true, true, true, true, true)

  // ---------------------------------------------------------------------
  // Vendor records

  datatype JobStatus = JobQueued | JobProcessing | JobCompleted | JobError

  /** A word with its start and end in milliseconds. */
  datatype TranscriptWord = TranscriptWord(
    text: string, start: int, end: int, confidence: real, speaker: Option<string>)

  datatype TranscriptUtterance = TranscriptUtterance(
    text: string, start: int, end: int, confidence: real, speaker: string,
    words: seq<TranscriptWord>)

  /** A transcript job as AssemblyAI reports it. `languageCode` is the
      `{:?}` rendering of the vendor's language enum; `audioDuration` is in
      milliseconds as the adapter reads it. */
  datatype Transcript = Transcript(
    id: string,
    status: JobStatus,
    error: Option<string>,
    text: Option<string>,
    words: Option<seq<TranscriptWord>>,
    utterances: Option<seq<TranscriptUtterance>>,
    summary: Option<string>,
    confidence: Option<real>,
    audioDuration: Option<int>,
    languageCode: Option<string>,
    serialized: Json)

  /** The job request. */
  datatype TranscriptParams = TranscriptParams(
    audioUrl: string,
    languageDetection: Option<bool>,
    speakerLabels: Option<bool>,
    speakersExpected: Option<int>,
    keytermsPrompt: Option<seq<string>>,
    summarization: Option<bool>,
    sentimentAnalysis: Option<bool>,
    entityDetection: Option<bool>,
    redactPii: Option<bool>,
    webhookUrl: Option<string>)

  /** `TranscriptParams::new`: only the audio URL. */
  function NewParams(audioUrl: string): TranscriptParams {
    TranscriptParams(audioUrl, None, None, None, None, None, None, None, None, None)
  }

  // ---------------------------------------------------------------------
  // Request building

  /** The job request for `audioUrl` under `options`: each feature flag is
      sent only when requested; the expected speaker count only together
      with diarization; key terms only when there are some; the webhook URL
      as given. Absent options count as nothing requested. */
  predicate ForwardsOptions(p: TranscriptParams, audioUrl: string, options: Option<TranscribeOptions>) {
    var o := options.GetOr(DefaultTranscribeOptions());
    p.audioUrl == audioUrl &&
    SentOnlyWhenRequested(p.languageDetection, o.languageDetection) &&
    SentOnlyWhenRequested(p.speakerLabels, o.diarization) &&
    (p.speakersExpected.Some? <==> o.diarization == Some(true) && o.speakersExpected.Some?) &&
    (p.speakersExpected.Some? ==> p.speakersExpected.value == U32AsI32(o.speakersExpected.value)) &&
    (p.keytermsPrompt.Some? <==> o.customVocabulary.Some? && o.customVocabulary.value != []) &&
    (p.keytermsPrompt.Some? ==> p.keytermsPrompt == o.customVocabulary) &&
    SentOnlyWhenRequested(p.summarization, o.summarization) &&
    SentOnlyWhenRequested(p.sentimentAnalysis, o.sentimentAnalysis) &&
    SentOnlyWhenRequested(p.entityDetection, o.entityDetection) &&
    SentOnlyWhenRequested(p.redactPii, o.piiRedaction) &&
    p.webhookUrl == o.webhookUrl
  }

  /** The description above leaves nothing open: at most one request fits it. */
  lemma ForwardsOptionsDeterminesRequest(p: TranscriptParams, q: TranscriptParams,
                                         audioUrl: string, options: Option<TranscribeOptions>)
    requires ForwardsOptions(p, audioUrl, options) && ForwardsOptions(q, audioUrl, options)
    ensures p == q
  {
  }

  method BuildTranscriptParams(audioUrl: string, options: Option<TranscribeOptions>)
    returns (params: TranscriptParams)
    ensures ForwardsOptions(params, audioUrl, options)
    ensures options.None? ==> params == NewParams(audioUrl)
  {
    if options.None? {
      return NewParams(audioUrl);
    }
    params := ApplyOptions(audioUrl, options.value);
  }

  /** The body of `if let Some(opts) = options`: each requested feature is
      set on a fresh request. */
  method ApplyOptions(audioUrl: string, opts: TranscribeOptions) returns (params: TranscriptParams)
    ensures ForwardsOptions(params, audioUrl, Some(opts))
  {
    var languageDetection: Option<bool> := None;
    if opts.languageDetection == Some(true) {
      languageDetection := Some(true);
    }
    var speakerLabels: Option<bool> := None;
    var speakersExpected: Option<int> := None;
    if opts.diarization == Some(true) {
      speakerLabels := Some(true);
      if opts.speakersExpected.Some? {
        speakersExpected := Some(U32AsI32(opts.speakersExpected.value));
      }
    }
    var keytermsPrompt: Option<seq<string>> := None;
    if opts.customVocabulary.Some? {
      if opts.customVocabulary.value != [] {
        keytermsPrompt := opts.customVocabulary;
      }
    }
    var summarization: Option<bool> := None;
    if opts.summarization == Some(true) {
      summarization := Some(true);
    }
    var sentimentAnalysis: Option<bool> := None;
    if opts.sentimentAnalysis == Some(true) {
      sentimentAnalysis := Some(true);
    }
    var entityDetection: Option<bool> := None;
    if opts.entityDetection == Some(true) {
      entityDetection := Some(true);
    }
    var redactPii: Option<bool> := None;
    if opts.piiRedaction == Some(true) {
      redactPii := Some(true);
    }
    var webhookUrl: Option<string> := None;
    if opts.webhookUrl.Some? {
      webhookUrl := opts.webhookUrl;
    }
    params := TranscriptParams(audioUrl, languageDetection, speakerLabels, speakersExpected, keytermsPrompt,
      summarization, sentimentAnalysis, entityDetection, redactPii, webhookUrl);
  }

  /** The API base path: the configured URL, or AssemblyAI's own. */
  function ApiBasePath(config: ProviderConfig): (path: string)
    ensures config.baseUrl.Some? ==> path == config.baseUrl.value
    ensures config.baseUrl.None? ==> path == DEFAULT_BASE_URL
  {
    config.baseUrl.GetOr(DEFAULT_BASE_URL)
  }

  // ---------------------------------------------------------------------
  // Mapping to the unified types

  function MapWord(w: TranscriptWord): (r: Word)
    ensures r.text == w.text
    ensures r.start * 1000.0 == w.start as real && r.end * 1000.0 == w.end as real
    ensures w.start <= w.end ==> r.start <= r.end
    ensures r.confidence == Some(w.confidence) && r.speaker == w.speaker
  {
    Word(w.text, w.start as real / 1000.0, w.end as real / 1000.0, Some(w.confidence), w.speaker)
  }

  function MapWords(ws: seq<TranscriptWord>): (r: seq<Word>)
    ensures |r| == |ws|
    ensures forall i :: 0 <= i < |ws| ==> r[i] == MapWord(ws[i])
  {
    seq(|ws|, i requires 0 <= i < |ws| => MapWord(ws[i]))
  }

  function MapUtterance(u: TranscriptUtterance): (r: Utterance)
    ensures r.text == u.text
    ensures r.start * 1000.0 == u.start as real && r.end * 1000.0 == u.end as real
    ensures r.speaker == Some(u.speaker) && r.confidence == Some(u.confidence)
    ensures r.words == Some(MapWords(u.words))
  {
    Utterance(u.text, u.start as real / 1000.0, u.end as real / 1000.0,
      Some(u.speaker), Some(u.confidence), Some(MapWords(u.words)))
  }

  function UtteranceSpeakers(utts: seq<TranscriptUtterance>): (ids: seq<string>)
    ensures |ids| == |utts|
    ensures forall i :: 0 <= i < |utts| ==> ids[i] == utts[i].speaker
  {
    seq(|utts|, i requires 0 <= i < |utts| => utts[i].speaker)
  }

  /** The distinct speakers of the utterances, each labelled
      `Speaker <id>`; nothing when there are no utterances. */
  function ExtractSpeakers(utts: seq<TranscriptUtterance>): (r: Option<seq<Speaker>>)
    ensures r.None? <==> utts == []
    ensures r.Some? ==> NoDuplicates(SpeakerIds(r.value))
    ensures r.Some? ==> forall id :: id in SpeakerIds(r.value) <==> id in UtteranceSpeakers(utts)
    ensures r.Some? ==> forall s :: s in r.value ==> s == LabelledSpeaker(s.id)
  {
    var ids := Dedup(UtteranceSpeakers(utts));
    assert utts != [] ==> utts[0].speaker in UtteranceSpeakers(utts);
    if ids == [] then None
    else
      var speakers := seq(|ids|, i requires 0 <= i < |ids| => LabelledSpeaker(ids[i]));
      assert SpeakerIds(speakers) == ids;
      Some(speakers)
  }

  function UnifiedStatus(s: JobStatus): TranscriptionStatus {
    match s
    case JobQueued => Queued
    case JobProcessing => Processing
    case JobCompleted => Completed
    case JobError => Error
  }

  /** A job no longer worth polling. */
  predicate IsTerminal(t: Transcript) {
    t.status == JobCompleted || t.status == JobError
  }

  /** The unified view of a transcript. A failed job becomes an error reply
      with the vendor's message (or a default one); any other job becomes
      a successful reply with times converted from milliseconds to seconds.
      The vendor's own record is kept as `raw` either way. */
  function NormalizeResponse(t: Transcript): (r: UnifiedTranscriptResponse)
    ensures WellFormed(r) && r.provider == AssemblyAI && r.raw == Some(t.serialized)
    ensures r.success <==> t.status != JobError
    ensures !r.success ==> r.error == Some(TranscriptionError(
      "TRANSCRIPTION_ERROR", t.error.GetOr("Transcription failed"), None, None))
    ensures r.success ==>
      var d := r.data.value;
      d.id == t.id && d.status == UnifiedStatus(t.status) && d.text == t.text.GetOr("") &&
      d.confidence == t.confidence && d.summary == t.summary && d.language == t.languageCode &&
      (d.duration.Some? <==> t.audioDuration.Some?) &&
      (d.duration.Some? ==> d.duration.value * 1000.0 == t.audioDuration.value as real) &&
      d.words == (if t.words.Some? then Some(MapWords(t.words.value)) else None) &&
      (d.utterances.Some? <==> t.utterances.Some?) &&
      (d.utterances.Some? ==> (|d.utterances.value| == |t.utterances.value| &&
        forall i :: 0 <= i < |t.utterances.value| ==> d.utterances.value[i] == MapUtterance(t.utterances.value[i]))) &&
      d.speakers == (if t.utterances.Some? then ExtractSpeakers(t.utterances.value) else None) &&
      d.metadata.None? && d.createdAt.None? && d.completedAt.None?
  {
    if t.status == JobError then
      UnifiedTranscriptResponse(false, AssemblyAI, None,
        Some(TranscriptionError("TRANSCRIPTION_ERROR", t.error.GetOr("Transcription failed"), None, None)),
        Some(t.serialized))
    else
      var words := if t.words.Some? then Some(MapWords(t.words.value)) else None;
      var speakers := if t.utterances.Some? then ExtractSpeakers(t.utterances.value) else None;
      var utterances := if t.utterances.Some?
        then Some(seq(|t.utterances.value|, i requires 0 <= i < |t.utterances.value| =>
                      MapUtterance(t.utterances.value[i])))
        else None;
      var duration := if t.audioDuration.Some? then Some(t.audioDuration.value as real / 1000.0) else None;
      UnifiedTranscriptResponse(true, AssemblyAI,
        Some(TranscriptionData(t.id, t.text.GetOr(""), t.confidence, UnifiedStatus(t.status),
          t.languageCode, duration, speakers, words, utterances, t.summary, None, None, None)),
        None, Some(t.serialized))
  }

  /** The immediate reply when results will be delivered to a webhook. */
  function QueuedResponse(job: Transcript): (r: UnifiedTranscriptResponse)
    ensures WellFormed(r) && r.success && r.provider == AssemblyAI && r.raw == Some(job.serialized)
    ensures r.data.value.id == job.id && r.data.value.status == Queued && r.data.value.text == ""
    ensures var d := r.data.value;
      d.confidence.None? && d.language.None? && d.duration.None? && d.speakers.None? &&
      d.words.None? && d.utterances.None? && d.summary.None? && d.metadata.None? &&
      d.createdAt.None? && d.completedAt.None?
  {
    UnifiedTranscriptResponse(true, AssemblyAI,
      Some(TranscriptionData(job.id, "", None, Queued, None, None, None, None, None, None, None, None, None)),
      None, Some(job.serialized))
  }

  // ---------------------------------------------------------------------
  // Streaming

  /** A word of a streaming turn, with times in milliseconds. */
  datatype StreamWord = StreamWord(text: string, start: int, end: int, confidence: real)

  /** The streaming messages of AssemblyAI's v3 protocol. The two durations
      of a termination message are their `{}` renderings. */
  datatype StreamMessage =
    | Begin(id: string, expiresAt: string)
    | Turn(transcript: string, endOfTurn: bool, endOfTurnConfidence: real, words: seq<StreamWord>)
    | Termination(audioDuration: string, sessionDuration: string)
    | SessionInformation

  /** A text frame, as the two decodings the adapter tries see it: as an
      error object (an `error` string field) and as a typed message. */
  datatype StreamFrame = StreamFrame(asError: Option<string>, asMessage: Option<StreamMessage>)

  function MapStreamWord(w: StreamWord): (r: Word)
    ensures r.text == w.text && r.start * 1000.0 == w.start as real && r.end * 1000.0 == w.end as real
    ensures r.confidence == Some(w.confidence) && r.speaker.None?
  {
    Word(w.text, w.start as real / 1000.0, w.end as real / 1000.0, Some(w.confidence), None)
  }

  /** The metadata text of a `Begin` message: a JSON object with the
      session id and its expiry, in that order. */
  function BeginText(id: string, expiresAt: string): string {
    "{\"id\":\"" + id + "\",\"expires_at\":\"" + expiresAt + "\"}"
  }

  /** The metadata text of a `Termination` message: the two durations,
      unquoted, in a JSON object. */
  function TerminationText(audioDuration: string, sessionDuration: string): string {
    "{\"audio_duration\":" + audioDuration + ",\"session_duration\":" + sessionDuration + "}"
  }

  /** The unified event for a text frame, if any. An error object wins
      over every typed reading; frames that decode as neither, and session
      information messages, give no event. A turn is final exactly at its
      end, and only then carries a confidence. */
  function ParseStreamingMessage(f: StreamFrame): (r: Option<StreamEvent>)
    ensures f.asError.Some? ==> r == Some(Streaming.MakeErrorEvent("PROVIDER_ERROR", f.asError.value))
    ensures f.asError.None? && (f.asMessage.None? || f.asMessage.value.SessionInformation?) ==> r.None?
    ensures f.asError.None? && f.asMessage.Some? && f.asMessage.value.Turn? ==>
      var m := f.asMessage.value;
      r.Some? && r.value.eventType == TranscriptEvent && r.value.text == Some(m.transcript) &&
      r.value.isFinal == Some(m.endOfTurn) &&
      (r.value.confidence.Some? <==> m.endOfTurn) &&
      (r.value.words.None? <==> m.words == []) &&
      (r.value.words.Some? ==> (|r.value.words.value| == |m.words| &&
        forall i :: 0 <= i < |m.words| ==> r.value.words.value[i] == MapStreamWord(m.words[i]))) &&
      r.value.utterance.None? && r.value.speaker.None? && r.value.error.None? && r.value.data.None?
    ensures f.asError.None? && f.asMessage.Some? && f.asMessage.value.Begin? ==>
      r == Some(StreamEvent(MetadataEvent, Some(BeginText(f.asMessage.value.id, f.asMessage.value.expiresAt)),
                            None, None, None, None, None, None, None))
    ensures f.asError.None? && f.asMessage.Some? && f.asMessage.value.Termination? ==>
      r == Some(StreamEvent(MetadataEvent, Some(TerminationText(f.asMessage.value.audioDuration, f.asMessage.value.sessionDuration)),
                            None, None, None, None, None, None, None))
  {
    if f.asError.Some? then
      Some(Streaming.MakeErrorEvent("PROVIDER_ERROR", f.asError.value))
    else if f.asMessage.None? then
      None
    else
      match f.asMessage.value
      case Begin(id, expiresAt) =>
        Some(StreamEvent(MetadataEvent, Some(BeginText(id, expiresAt)), None, None, None, None, None, None, None))
      case Turn(transcript, endOfTurn, conf, ws) =>
        var mapped := seq(|ws|, i requires 0 <= i < |ws| => MapStreamWord(ws[i]));
        Some(StreamEvent(TranscriptEvent, Some(transcript), Some(endOfTurn), None,
          if mapped == [] then None else Some(mapped), None,
          if endOfTurn then Some(conf) else None, None, None))
      case Termination(audio, session) =>
        Some(StreamEvent(MetadataEvent, Some(TerminationText(audio, session)), None, None, None, None, None, None, None))
      case SessionInformation => None
  }

  /** The query string of the streaming URL: the sample rate (16000 when
      none is given), then the encoding when its name is recognised. */
  method BuildStreamingUrl(options: StreamingOptions) returns (url: string)
    ensures var rate := if options.sampleRate.Some? then options.sampleRate.value as nat else 16000;
      var enc := if options.encoding.Some? then Streaming.FromStr(options.encoding.value) else None;
      url == STREAMING_URL + "?" + Join(["sample_rate=" + NatToString(rate)] +
        (if enc.Some? then ["encoding=" + Streaming.ToAssemblyAI(enc.value)] else []), "&")
  {
    var params: seq<string> := [];
    var sampleRate: nat := if options.sampleRate.Some? then options.sampleRate.value as nat else 16000;
    params := params + ["sample_rate=" + NatToString(sampleRate)];
    if options.encoding.Some? {
      var enc := Streaming.FromStr(options.encoding.value);
      if enc.Some? {
        params := params + ["encoding=" + Streaming.ToAssemblyAI(enc.value)];
      }
    }
    url := STREAMING_URL + "?" + Join(params, "&");
  }

  // ---------------------------------------------------------------------
  // The adapter

  class AssemblyAIAdapter {
    var config: Option<ProviderConfig>

    constructor New()
      ensures config.None?
    {
      config := None;
    }

    method Initialize(cfg: ProviderConfig) returns (r: Result<(), AdapterError>)
      modifies this
      ensures r.Success? <==> cfg.apiKey != ""
      ensures r.Success? ==> config == Some(cfg)
      ensures r.Failure? ==> r.error == InvalidConfig("API key is required") && config == old(config)
    {
      var checked := CheckApiKey(cfg);
      if checked.Failure? {
        return Failure(checked.error);
      }
      config := Some(cfg);
      r := Success(());
    }

    /** Polls the job until it is done, failed or out of attempts;
        `attempts` is the number of status requests made. */
    method PollForCompletion(fetches: seq<Result<Transcript, string>>)
      returns (r: Result<UnifiedTranscriptResponse, AdapterError>, attempts: nat)
      requires |fetches| >= MAX_ATTEMPTS
      ensures config.None? ==> r == Failure(NotInitialized) && attempts == 0
      ensures config.Some? ==>
        (r, attempts) == PollFrom(fetches, 0, IsTerminal, NormalizeResponse, AssemblyAI)
    {
      if config.None? {
        return Failure(NotInitialized), 0;
      }
      var i := 0;
      while i < MAX_ATTEMPTS
        invariant 0 <= i <= MAX_ATTEMPTS
        invariant PollFrom(fetches, 0, IsTerminal, NormalizeResponse, AssemblyAI)
               == PollFrom(fetches, i, IsTerminal, NormalizeResponse, AssemblyAI)
      {
        match fetches[i] {
          case Failure(e) =>
            return Failure(ProviderError(API_ERROR, e)), i + 1;
          case Success(job) =>
            if IsTerminal(job) {
              return Success(NormalizeResponse(job)), i + 1;
            }
        }
        i := i + 1;
      }
      r, attempts := Success(TimeoutResponse(AssemblyAI)), MAX_ATTEMPTS;
    }

    /** Submits a job for a URL and, unless a webhook will receive the
        result, polls it to the end. `created` is AssemblyAI's reply to the
        submission and `fetches` its replies to the status requests; `sent`
        is the job request handed to AssemblyAI, if one was. */
    method Transcribe(audio: AudioInput, options: Option<TranscribeOptions>,
                      created: Result<Transcript, string>, fetches: seq<Result<Transcript, string>>)
      returns (r: Result<UnifiedTranscriptResponse, AdapterError>, sent: Option<TranscriptParams>, attempts: nat)
      requires |fetches| >= MAX_ATTEMPTS
      ensures config.None? ==> r == Failure(NotInitialized) && sent.None? && attempts == 0
      ensures config.Some? && audio.Bytes? ==>
        r == Failure(NotSupported("File upload not yet implemented - use URL input")) && sent.None? && attempts == 0
      ensures config.Some? && audio.Stream? ==>
        r == Failure(NotSupported("Use transcribe_stream for streaming audio")) && sent.None? && attempts == 0
      ensures config.Some? && audio.Url? ==> sent.Some? && ForwardsOptions(sent.value, audio.url, options)
      ensures config.Some? && audio.Url? && created.Failure? ==>
        r == Failure(ProviderError(API_ERROR, created.error)) && attempts == 0
      ensures config.Some? && audio.Url? && created.Success? && options.Some? && options.value.webhookUrl.Some? ==>
        r == Success(QueuedResponse(created.value)) && attempts == 0
      ensures config.Some? && audio.Url? && created.Success? && !(options.Some? && options.value.webhookUrl.Some?) ==>
        (r, attempts) == PollFrom(fetches, 0, IsTerminal, NormalizeResponse, AssemblyAI)
    {
      sent, attempts := None, 0;
      if config.None? {
        return Failure(NotInitialized), sent, attempts;
      }
      var audioUrl: string;
      match audio {
        case Url(url) =>
          audioUrl := url;
        case Bytes(_, _) =>
          return Failure(NotSupported("File upload not yet implemented - use URL input")), sent, attempts;
        case Stream =>
          return Failure(NotSupported("Use transcribe_stream for streaming audio")), sent, attempts;
      }
      var params := BuildTranscriptParams(audioUrl, options);
      sent := Some(params);
      if created.Failure? {
        return Failure(ProviderError(API_ERROR, created.error)), sent, attempts;
      }
      var job := created.value;
      if options.Some? && options.value.webhookUrl.Some? {
        return Success(QueuedResponse(job)), sent, attempts;
      }
      r, attempts := PollForCompletion(fetches);
    }

    /** Fetches a job once and reports it in the unified form. */
    method GetTranscript(fetched: Result<Transcript, string>)
      returns (r: Result<UnifiedTranscriptResponse, AdapterError>)
      ensures config.None? ==> r == Failure(NotInitialized)
      ensures config.Some? && fetched.Failure? ==> r == Failure(ProviderError(API_ERROR, fetched.error))
      ensures config.Some? && fetched.Success? ==> r == Success(NormalizeResponse(fetched.value))
    {
      if config.None? {
        return Failure(NotInitialized);
      }
      match fetched
      case Failure(e) => r := Failure(ProviderError(API_ERROR, e));
      case Success(job) => r := Success(NormalizeResponse(job));
    }

    /** Deletes a job; `deleted` is AssemblyAI's reply. */
    method DeleteTranscript(deleted: Result<(), string>) returns (r: Result<bool, AdapterError>)
      ensures config.None? ==> r == Failure(NotInitialized)
      ensures config.Some? && deleted.Failure? ==> r == Failure(ProviderError(API_ERROR, deleted.error))
      ensures config.Some? && deleted.Success? ==> r == Success(true)
    {
      if config.None? {
        return Failure(NotInitialized);
      }
      if deleted.Failure? {
        return Failure(ProviderError(API_ERROR, deleted.error));
      }
      r := Success(true);
    }
  }
}
