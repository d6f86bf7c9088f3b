/** The Gladia adapter (rust-sdk/src/adapters/gladia.rs): the pre-recorded
    job request and the live-session request built from the unified
    options, the mapping of Gladia jobs and live messages to the unified
    types, and the submit-then-poll flow. Gladia's HTTP client is replaced
    by the replies it would give, and JSON decoding by decoded records that
    carry their own serialisation for `raw`. */
module Gladia {
  import opened Wrappers
  import opened Strings
  import opened Sequences
  import opened Json
  import opened Types
  import opened Adapters
  import opened Polling
  import Streaming

  const DEFAULT_BASE_URL: string := "https://api.gladia.io"
  /** The text message that ends a live session. */
  const STOP_RECORDING_MESSAGE: string := "{\"type\":\"stop_recording\"}"

  /** Gladia has no PII redaction; everything else is supported. */
  const CAPABILITIES: ProviderCapabilities :=
    ProviderCapabilities(true, true, true, true, true, true, true, true, false)

  // ---------------------------------------------------------------------
  // Vendor records

  datatype JobStatus = JobQueued | JobProcessing | JobDone | JobError

  /** A word with its start and end in seconds. */
  datatype WordDto = WordDto(word: string, start: real, end: real, confidence: real)

  datatype UtteranceDto = UtteranceDto(
    text: string, start: real, end: real, confidence: real, speaker: Option<int>,
    words: seq<WordDto>)

  /** The transcription part of a result; `languages` holds the `{:?}`
      renderings of the detected languages. */
  datatype TranscriptionDto = TranscriptionDto(
    fullTranscript: string, languages: seq<string>, utterances: seq<UtteranceDto>)

  /** A job result: the audio duration from its metadata, the transcription
      if any, and the summarization results text if summarization ran. */
  datatype ResultDto = ResultDto(
    audioDuration: real, transcription: Option<TranscriptionDto>, summarization: Option<string>)

  /** A pre-recorded job as Gladia reports it; `errorCode` is an i32. */
  datatype PreRecordedResponse = PreRecordedResponse(
    id: string,
    status: JobStatus,
    errorCode: Option<int>,
    result: Option<ResultDto>,
    customMetadata: Option<map<string, Json>>,
    createdAt: string,
    completedAt: Option<string>,
    serialized: Json)

  /** Gladia's reply to a job submission. */
  datatype InitResponse = InitResponse(id: string, serialized: Json)

  /** The job request. The custom vocabulary configuration lists the terms
      in order; the callback configuration holds the webhook URL. */
  datatype InitTranscriptionRequest = InitTranscriptionRequest(
    audioUrl: string,
    languageConfig: Option<LanguageConfig>,
    diarization: Option<bool>,
    numberOfSpeakers: Option<int>,
    customVocabulary: Option<bool>,
    customVocabularyConfig: Option<seq<string>>,
    summarization: Option<bool>,
    sentimentAnalysis: Option<bool>,
    namedEntityRecognition: Option<bool>,
    callback: Option<bool>,
    callbackUrl: Option<string>,
    customMetadata: Option<map<string, Json>>)

  datatype LanguageConfig = LanguageConfig(codeSwitching: Option<bool>)

  function NewRequest(audioUrl: string): InitTranscriptionRequest {
    InitTranscriptionRequest(audioUrl, None, None, None, None, None, None, None, None, None, None, None)
  }

  /** An i32 error code cast to u16: the low 16 bits. */
  function I32AsU16(x: int): (r: u16)
    ensures r as int % 0x1_0000 == x % 0x1_0000
    ensures 0 <= x < 0x1_0000 ==> r as int == x
  {
    (x % 0x1_0000) as u16
  }

  // ---------------------------------------------------------------------
  // Request building

  /** A language configuration is sent exactly when a language or
      detection is requested; code switching follows detection. */
  predicate ForwardsLanguage(r: InitTranscriptionRequest, o: TranscribeOptions) {
    (r.languageConfig.Some? <==> o.language.Some? || o.languageDetection.Some?) &&
    (r.languageConfig.Some? ==> SentOnlyWhenRequested(r.languageConfig.value.codeSwitching, o.languageDetection))
  }

  /** Diarization is sent only when asked for, and the speaker count only
      with it. */
  predicate ForwardsDiarization(r: InitTranscriptionRequest, o: TranscribeOptions) {
    SentOnlyWhenRequested(r.diarization, o.diarization) &&
    (r.numberOfSpeakers.Some? <==> o.diarization == Some(true) && o.speakersExpected.Some?) &&
    (r.numberOfSpeakers.Some? ==> r.numberOfSpeakers.value == U32AsI32(o.speakersExpected.value))
  }

  /** A non-empty vocabulary is sent whole, an empty one not at all. */
  predicate ForwardsVocabulary(r: InitTranscriptionRequest, o: TranscribeOptions) {
    (r.customVocabulary.Some? <==> o.customVocabulary.Some? && o.customVocabulary.value != []) &&
    (r.customVocabulary.Some? ==> r.customVocabulary.value && r.customVocabularyConfig == o.customVocabulary) &&
    (r.customVocabulary.None? ==> r.customVocabularyConfig.None?)
  }

  /** The three audio-intelligence flags. */
  predicate ForwardsFeatures(r: InitTranscriptionRequest, o: TranscribeOptions) {
    SentOnlyWhenRequested(r.summarization, o.summarization) &&
    SentOnlyWhenRequested(r.sentimentAnalysis, o.sentimentAnalysis) &&
    SentOnlyWhenRequested(r.namedEntityRecognition, o.entityDetection)
  }

  /** The webhook and the caller's metadata. */
  predicate ForwardsCallback(r: InitTranscriptionRequest, o: TranscribeOptions) {
    (r.callback.Some? <==> o.webhookUrl.Some?) &&
    (r.callback.Some? ==> r.callback.value) &&
    r.callbackUrl == o.webhookUrl &&
    r.customMetadata == o.metadata
  }

  /** The request sends for `audioUrl` exactly what the options ask for;
      no options ask for nothing. */
  predicate ForwardsOptions(r: InitTranscriptionRequest, audioUrl: string, options: Option<TranscribeOptions>) {
    var o := options.GetOr(DefaultTranscribeOptions());
    r.audioUrl == audioUrl &&
    ForwardsLanguage(r, o) && ForwardsDiarization(r, o) && ForwardsVocabulary(r, o) &&
    ForwardsFeatures(r, o) && ForwardsCallback(r, o)
  }

  /** Nothing in the description is left open. */
  lemma ForwardsOptionsDeterminesRequest(r: InitTranscriptionRequest, q: InitTranscriptionRequest,
                                         audioUrl: string, options: Option<TranscribeOptions>)
    requires ForwardsOptions(r, audioUrl, options) && ForwardsOptions(q, audioUrl, options)
    ensures r == q
  {
    if r.languageConfig.Some? {
      assert r.languageConfig.value.codeSwitching == q.languageConfig.value.codeSwitching;
    }
  }

  /** The job request for `audioUrl` under `options`. A language
      configuration is attached whenever a language or a detection choice
      is given, with code switching only when detection is requested; the
      language itself is not forwarded. The speaker count goes with
      diarization only; vocabulary only when there is some; a webhook URL
      turns on the callback; metadata is passed through. */
  method BuildTranscriptionRequest(audioUrl: string, options: Option<TranscribeOptions>)
    returns (request: InitTranscriptionRequest)
    ensures ForwardsOptions(request, audioUrl, options)
    ensures options.None? ==> request == NewRequest(audioUrl)
  {
    if options.None? {
      return NewRequest(audioUrl);
    }
    request := ApplyOptions(audioUrl, options.value);
  }

  /** The body of `if let Some(opts) = options`: each requested feature is
      set on a fresh request. */
  method ApplyOptions(audioUrl: string, opts: TranscribeOptions) returns (request: InitTranscriptionRequest)
    ensures ForwardsOptions(request, audioUrl, Some(opts))
  {
    var languageConfig: Option<LanguageConfig> := None;
    if opts.language.Some? || opts.languageDetection.Some? {
      var langConfig := LanguageConfig(None);
      if opts.languageDetection == Some(true) {
        langConfig := langConfig.(codeSwitching := Some(true));
      }
      languageConfig := Some(langConfig);
    }
    var diarization: Option<bool> := None;
    var numberOfSpeakers: Option<int> := None;
    if opts.diarization == Some(true) {
      diarization := Some(true);
      if opts.speakersExpected.Some? {
        numberOfSpeakers := Some(U32AsI32(opts.speakersExpected.value));
      }
    }
    var customVocabulary: Option<bool> := None;
    var customVocabularyConfig: Option<seq<string>> := None;
    if opts.customVocabulary.Some? {
      var vocab := opts.customVocabulary.value;
      if vocab != [] {
        customVocabulary := Some(true);
        customVocabularyConfig := Some(vocab);
      }
    }
    var summarization: Option<bool> := if opts.summarization == Some(true) then Some(true) else None;
    var sentimentAnalysis: Option<bool> := if opts.sentimentAnalysis == Some(true) then Some(true) else None;
    var namedEntityRecognition: Option<bool> := if opts.entityDetection == Some(true) then Some(true) else None;
    var callback: Option<bool> := None;
    var callbackUrl: Option<string> := None;
    if opts.webhookUrl.Some? {
      callback := Some(true);
      callbackUrl := opts.webhookUrl;
    }
    var customMetadata: Option<map<string, Json>> := None;
    if opts.metadata.Some? {
      customMetadata := opts.metadata;
    }
    request := InitTranscriptionRequest(audioUrl, languageConfig, diarization, numberOfSpeakers,
      customVocabulary, customVocabularyConfig, summarization, sentimentAnalysis, namedEntityRecognition,
      callback, callbackUrl, customMetadata);
  }

  /** The live-session encodings Gladia accepts. */
  datatype LiveEncoding = WavPcm | WavUlaw | WavAlaw

  function LiveEncodingName(e: LiveEncoding): string {
    match e
    case WavPcm => "wav/pcm"
    case WavUlaw => "wav/ulaw"
    case WavAlaw => "wav/alaw"
  }

  /** The live-session request. */
  datatype StreamingRequest = StreamingRequest(
    sampleRate: Option<nat>,
    encoding: Option<LiveEncoding>,
    bitDepth: Option<nat>,
    channels: Option<int>,
    model: Option<string>)

  const SUPPORTED_SAMPLE_RATES: set<nat> := {8000, 16000, 32000, 44100, 48000}
  const SOLARIA_1: string := "solaria-1"

  /** Gladia's live encoding for a recognised streaming encoding: the two
      companded ones keep their kind, everything else is sent as PCM. */
  function LiveEncodingOf(e: Streaming.StreamEncoding): LiveEncoding {
    match e
    case Mulaw => WavUlaw
    case Alaw => WavAlaw
    case _ => WavPcm
  }

  method BuildStreamingRequest(options: StreamingOptions) returns (request: StreamingRequest)
    ensures options.sampleRate.None? ==> request.sampleRate.None?
    ensures options.sampleRate.Some? ==> request.sampleRate == Some(
      if options.sampleRate.value as nat in SUPPORTED_SAMPLE_RATES then options.sampleRate.value as nat else 16000)
    ensures request.sampleRate.Some? ==> request.sampleRate.value in SUPPORTED_SAMPLE_RATES
    ensures var enc := if options.encoding.Some? then Streaming.FromStr(options.encoding.value) else None;
      request.encoding == (if enc.Some? then Some(LiveEncodingOf(enc.value)) else None) &&
      (request.bitDepth.Some? <==> enc == Some(Streaming.Pcm16)) &&
      (request.bitDepth.Some? ==> request.bitDepth.value == 16)
    ensures request.channels == (if options.channels.Some? then Some(options.channels.value as int) else None)
    ensures request.model.Some? <==> options.model == Some(SOLARIA_1)
    ensures request.model.Some? ==> request.model.value == SOLARIA_1
  {
    request := StreamingRequest(None, None, None, None, None);
    if options.sampleRate.Some? {
      var rate := options.sampleRate.value as nat;
      if rate == 8000 || rate == 16000 || rate == 32000 || rate == 44100 || rate == 48000 {
        request := request.(sampleRate := Some(rate));
      } else {
        request := request.(sampleRate := Some(16000));
      }
    }
    if options.encoding.Some? {
      var enc := Streaming.FromStr(options.encoding.value);
      if enc.Some? {
        match enc.value {
          case Pcm16 => request := request.(encoding := Some(WavPcm));
          case Mulaw => request := request.(encoding := Some(WavUlaw));
          case Alaw => request := request.(encoding := Some(WavAlaw));
          case _ => request := request.(encoding := Some(WavPcm));
        }
        if enc.value == Streaming.Pcm16 {
          request := request.(bitDepth := Some(16));
        }
      }
    }
    if options.channels.Some? {
      request := request.(channels := Some(options.channels.value as int));
    }
    if options.model.Some? {
      if options.model.value == SOLARIA_1 {
        request := request.(model := Some(SOLARIA_1));
      }
    }
  }

  /** The live encoding requested is the one Gladia's streaming name for
      the parsed encoding denotes, except that Gladia's live API spells
      mu-law `ulaw` where the streaming table says `mulaw`. */
  lemma LiveEncodingAgreesWithStreamingName(e: Streaming.StreamEncoding)
    ensures LiveEncodingOf(e) == WavPcm <==> Streaming.ToGladia(e) == "wav/pcm"
    ensures LiveEncodingOf(e) == WavAlaw <==> Streaming.ToGladia(e) == LiveEncodingName(WavAlaw)
    ensures LiveEncodingOf(e) == WavUlaw <==> Streaming.ToGladia(e) == "wav/mulaw"
  {
  }

  // ---------------------------------------------------------------------
  // Mapping to the unified types

  function MapWord(w: WordDto): (r: Word)
    ensures r.text == w.word && r.start == w.start && r.end == w.end
    ensures r.confidence == Some(w.confidence) && r.speaker.None?
  {
    Word(w.word, w.start, w.end, Some(w.confidence), None)
  }

  function MapUtterance(u: UtteranceDto): (r: Utterance)
    ensures r.text == u.text && r.start == u.start && r.end == u.end
    ensures r.confidence == Some(u.confidence) && r.speaker == SpeakerName(u.speaker)
    ensures r.words.Some? && |r.words.value| == |u.words|
    ensures forall i :: 0 <= i < |u.words| ==> r.words.value[i] == MapWord(u.words[i])
  {
    Utterance(u.text, u.start, u.end, SpeakerName(u.speaker), Some(u.confidence),
      Some(seq(|u.words|, i requires 0 <= i < |u.words| => MapWord(u.words[i]))))
  }

  /** The speaker tags the utterances carry, in order, skipping the
      utterances without one. */
  function SpeakerTags(utts: seq<UtteranceDto>): (tags: seq<int>)
    ensures forall x :: x in tags <==> exists i :: 0 <= i < |utts| && utts[i].speaker == Some(x)
  {
    var tags := seq(|utts|, i requires 0 <= i < |utts| => utts[i].speaker);
    assert forall i :: 0 <= i < |utts| ==> tags[i] == utts[i].speaker;
    Somes(tags)
  }

  lemma IntNamesDistinct(ids: seq<int>)
    requires NoDuplicates(ids)
    ensures NoDuplicates(seq(|ids|, i requires 0 <= i < |ids| => IntToString(ids[i])))
  {
    var names := seq(|ids|, i requires 0 <= i < |ids| => IntToString(ids[i]));
    forall i, j | 0 <= i < j < |names|
      ensures names[i] != names[j]
    {
      if names[i] == names[j] {
        IntToStringInjective(ids[i], ids[j]);
      }
    }
  }

  /** Distinct tags have distinct names, and a name is among them exactly
      when its tag is. */
  lemma TagNames(ids: seq<int>)
    requires NoDuplicates(ids)
    ensures var names := seq(|ids|, i requires 0 <= i < |ids| => IntToString(ids[i]));
      NoDuplicates(names) && forall x: int :: IntToString(x) in names <==> x in ids
  {
    var names := seq(|ids|, i requires 0 <= i < |ids| => IntToString(ids[i]));
    IntNamesDistinct(ids);
    forall x: int ensures IntToString(x) in names <==> x in ids {
      if IntToString(x) in names {
        var k :| 0 <= k < |names| && names[k] == IntToString(x);
        IntToStringInjective(ids[k], x);
      }
      if x in ids {
        var k :| 0 <= k < |ids| && ids[k] == x;
        assert names[k] == IntToString(x);
      }
    }
  }

  /** One speaker per distinct speaker tag, named by the tag; nothing when
      no utterance has a speaker. */
  function ExtractSpeakers(t: TranscriptionDto): (r: Option<seq<Speaker>>)
    ensures r.None? <==> forall i :: 0 <= i < |t.utterances| ==> t.utterances[i].speaker.None?
    ensures r.Some? ==> NoDuplicates(SpeakerIds(r.value))
    ensures r.Some? ==> forall x: int :: IntToString(x) in SpeakerIds(r.value) <==>
      exists i :: 0 <= i < |t.utterances| && t.utterances[i].speaker == Some(x)
    ensures r.Some? ==> forall s :: s in r.value ==> s == LabelledSpeaker(s.id)
  {
    var ids := Dedup(SpeakerTags(t.utterances));
    if ids == [] then
      None
    else
      var names := seq(|ids|, i requires 0 <= i < |ids| => IntToString(ids[i]));
      var speakers := seq(|ids|, i requires 0 <= i < |ids| => LabelledSpeaker(names[i]));
      TagNames(ids);
      assert SpeakerIds(speakers) == names;
      assert ids[0] in SpeakerTags(t.utterances);
      Some(speakers)
  }

  /** The words of one utterance, each tagged with the utterance's speaker. */
  function TaggedWords(u: UtteranceDto): (r: seq<Word>)
    ensures |r| == |u.words|
    ensures forall i :: 0 <= i < |u.words| ==>
      r[i] == MapWord(u.words[i]).(speaker := SpeakerName(u.speaker))
  {
    seq(|u.words|, i requires 0 <= i < |u.words| => MapWord(u.words[i]).(speaker := SpeakerName(u.speaker)))
  }

  /** The words of all utterances, utterance after utterance. */
  function AllWords(utts: seq<UtteranceDto>): seq<Word> {
    if utts == [] then [] else TaggedWords(utts[0]) + AllWords(utts[1..])
  }

  /** Taking the words of a sequence of utterances keeps their order:
      the words of `a + b` are those of `a` followed by those of `b`. */
  lemma {:induction false} AllWordsAppend(a: seq<UtteranceDto>, b: seq<UtteranceDto>)
    ensures AllWords(a + b) == AllWords(a) + AllWords(b)
    decreases |a|
  {
    if a == [] {
      assert a + b == b;
    } else {
      assert (a + b)[1..] == a[1..] + b;
      AllWordsAppend(a[1..], b);
    }
  }

  lemma {:induction false} AllWordsEmpty(utts: seq<UtteranceDto>)
    ensures AllWords(utts) == [] <==> forall i :: 0 <= i < |utts| ==> utts[i].words == []
  {
    if utts != [] {
      AllWordsEmpty(utts[1..]);
      assert forall i :: 1 <= i < |utts| ==> utts[i] == utts[1..][i - 1];
    }
  }

  /** Every word of every utterance, in order and tagged with its
      utterance's speaker; nothing when there are no words at all. */
  function ExtractWords(t: TranscriptionDto): (r: Option<seq<Word>>)
    ensures r.None? <==> forall i :: 0 <= i < |t.utterances| ==> t.utterances[i].words == []
    ensures r.Some? ==> r.value == AllWords(t.utterances)
  {
    AllWordsEmpty(t.utterances);
    var words := AllWords(t.utterances);
    if words == [] then None else Some(words)
  }

  function UnifiedStatus(s: JobStatus): TranscriptionStatus {
    match s
    case JobQueued => Queued
    case JobProcessing => Processing
    case JobDone => Completed
    case JobError => Error
  }

  /** A job no longer worth polling. */
  predicate IsTerminal(r: PreRecordedResponse) {
    r.status == JobDone || r.status == JobError
  }

  /** The unified view of a job. A failed job becomes an error reply with
      Gladia's error code as the status code; any other job a successful
      reply, whose content depends on how far the job got: with a
      transcription, its text, first language, speakers, words, utterances
      and summary; with a result but no transcription, just the duration;
      with no result, nothing. The job record is kept as `raw`. */
  function NormalizeResponse(job: PreRecordedResponse): (r: UnifiedTranscriptResponse)
    ensures WellFormed(r) && r.provider == Gladia && r.raw == Some(job.serialized)
    ensures r.success <==> job.status != JobError
    ensures !r.success ==> r.error == Some(TranscriptionError("TRANSCRIPTION_ERROR", "Transcription failed", None,
      if job.errorCode.Some? then Some(I32AsU16(job.errorCode.value)) else None))
    ensures r.success ==>
      var d := r.data.value;
      d.id == job.id && d.status == UnifiedStatus(job.status) && d.confidence.None? &&
      d.metadata == job.customMetadata && d.createdAt == Some(job.createdAt) && d.completedAt == job.completedAt &&
      d.duration == (if job.result.Some? then Some(job.result.value.audioDuration) else None)
    ensures r.success && (job.result.None? || job.result.value.transcription.None?) ==>
      var d := r.data.value;
      d.text == "" && d.language.None? && d.speakers.None? && d.words.None? &&
      d.utterances.None? && d.summary.None?
    ensures r.success && job.result.Some? && job.result.value.transcription.Some? ==>
      var d := r.data.value;
      var t := job.result.value.transcription.value;
      d.text == t.fullTranscript &&
      d.language == (if t.languages == [] then None else Some(t.languages[0])) &&
      d.speakers == ExtractSpeakers(t) && d.words == ExtractWords(t) &&
      d.utterances.Some? && |d.utterances.value| == |t.utterances| &&
      (forall i :: 0 <= i < |t.utterances| ==> d.utterances.value[i] == MapUtterance(t.utterances[i])) &&
      d.summary == job.result.value.summarization
  {
    if job.status == JobError then
      UnifiedTranscriptResponse(false, Gladia, None,
        Some(TranscriptionError("TRANSCRIPTION_ERROR", "Transcription failed", None,
          if job.errorCode.Some? then Some(I32AsU16(job.errorCode.value)) else None)),
        Some(job.serialized))
    else
      var (text, language, speakers, words, utterances, summary, duration) :=
        if job.result.Some? then
          var res := job.result.value;
          if res.transcription.Some? then
            var t := res.transcription.value;
            (t.fullTranscript,
             if t.languages == [] then None else Some(t.languages[0]),
             ExtractSpeakers(t),
             ExtractWords(t),
             Some(seq(|t.utterances|, i requires 0 <= i < |t.utterances| => MapUtterance(t.utterances[i]))),
             res.summarization,
             Some(res.audioDuration))
          else ("", None, None, None, None, None, Some(res.audioDuration))
        else ("", None, None, None, None, None, None);
      UnifiedTranscriptResponse(true, Gladia,
        Some(TranscriptionData(job.id, text, None, UnifiedStatus(job.status), language, duration,
          speakers, words, utterances, summary, job.customMetadata, Some(job.createdAt), job.completedAt)),
        None, Some(job.serialized))
  }

  /** The immediate reply when results will be delivered to a webhook. */
  function QueuedResponse(created: InitResponse): (r: UnifiedTranscriptResponse)
    ensures WellFormed(r) && r.success && r.provider == Gladia && r.raw == Some(created.serialized)
    ensures r.data.value.id == created.id && r.data.value.status == Queued && r.data.value.text == ""
    ensures var d := r.data.value;
      d.confidence.None? && d.language.None? && d.duration.None? && d.speakers.None? &&
      d.words.None? && d.utterances.None? && d.summary.None? && d.metadata.None? &&
      d.createdAt.None? && d.completedAt.None?
  {
    UnifiedTranscriptResponse(true, Gladia,
      Some(TranscriptionData(created.id, "", None, Queued, None, None, None, None, None, None, None, None, None)),
      None, Some(created.serialized))
  }

  // ---------------------------------------------------------------------
  // Live messages

  datatype StreamWord = StreamWord(word: string, start: real, end: real, confidence: real)

  datatype UtteranceInfo = UtteranceInfo(
    text: string, start: real, end: real, speaker: Option<int>, confidence: real,
    words: seq<StreamWord>)

  /** The live messages Gladia sends; a metadata message is carried as its
      own rendering. */
  datatype StreamMessage =
    | TranscriptMessage(isFinal: bool, utterance: UtteranceInfo)
    | UtteranceMessage(utterance: UtteranceInfo)
    | MetadataMessage(rendered: string)
    | ErrorMessage(message: string)

  function LiveWords(u: UtteranceInfo): (r: Option<seq<Word>>)
    ensures r.None? <==> u.words == []
    ensures r.Some? ==> |r.value| == |u.words| && forall i :: 0 <= i < |u.words| ==>
      r.value[i] == Word(u.words[i].word, u.words[i].start, u.words[i].end,
                         Some(u.words[i].confidence), SpeakerName(u.speaker))
  {
    var ws := seq(|u.words|, i requires 0 <= i < |u.words| =>
      Word(u.words[i].word, u.words[i].start, u.words[i].end, Some(u.words[i].confidence), SpeakerName(u.speaker)));
    if ws == [] then None else Some(ws)
  }

  /** The unified event for a live message, if it decoded. A transcript
      keeps its finality and carries its words but no utterance; a
      completed utterance is final and carries the utterance, its words
      inside it; an error message becomes a provider error. */
  function ParseStreamingMessage(msg: Option<StreamMessage>): (r: Option<StreamEvent>)
    ensures r.None? <==> msg.None?
    ensures msg.Some? && msg.value.TranscriptMessage? ==>
      var u := msg.value.utterance;
      r.value.eventType == TranscriptEvent && r.value.text == Some(u.text) &&
      r.value.isFinal == Some(msg.value.isFinal) && r.value.utterance.None? &&
      r.value.words == LiveWords(u) && r.value.speaker == SpeakerName(u.speaker) &&
      r.value.confidence == Some(u.confidence) && r.value.error.None? && r.value.data.None?
    ensures msg.Some? && msg.value.UtteranceMessage? ==>
      var u := msg.value.utterance;
      r.value.eventType == UtteranceEvent && r.value.text == Some(u.text) &&
      r.value.isFinal == Some(true) && r.value.words.None? &&
      r.value.utterance == Some(Utterance(u.text, u.start, u.end, SpeakerName(u.speaker),
                                          Some(u.confidence), LiveWords(u))) &&
      r.value.speaker == SpeakerName(u.speaker) && r.value.confidence == Some(u.confidence) &&
      r.value.error.None? && r.value.data.None?
    ensures msg.Some? && msg.value.MetadataMessage? ==>
      r == Some(StreamEvent(MetadataEvent, Some(msg.value.rendered), None, None, None, None, None, None, None))
    ensures msg.Some? && msg.value.ErrorMessage? ==>
      r.value == Streaming.MakeErrorEvent("PROVIDER_ERROR", msg.value.message)
  {
    match msg
    case None => None
    case Some(TranscriptMessage(isFinal, u)) =>
      Some(StreamEvent(TranscriptEvent, Some(u.text), Some(isFinal), None, LiveWords(u),
        SpeakerName(u.speaker), Some(u.confidence), None, None))
    case Some(UtteranceMessage(u)) =>
      Some(StreamEvent(UtteranceEvent, Some(u.text), Some(true),
        Some(Utterance(u.text, u.start, u.end, SpeakerName(u.speaker), Some(u.confidence), LiveWords(u))),
        None, SpeakerName(u.speaker), Some(u.confidence), None, None))
    case Some(MetadataMessage(rendered)) =>
      Some(StreamEvent(MetadataEvent, Some(rendered), None, None, None, None, None, None, None))
    case Some(ErrorMessage(message)) =>
      Some(Streaming.MakeErrorEvent("PROVIDER_ERROR", message))
  }

  // ---------------------------------------------------------------------
  // The adapter

  class GladiaAdapter {
    var config: Option<ProviderConfig>

    constructor New()
      ensures config.None?
    {
      config := None;
    }

    method Initialize(cfg: ProviderConfig) returns (r: Result<(), AdapterError>)
      modifies this
      ensures r.Success? <==> cfg.apiKey != ""
      ensures r.Success? ==> config == Some(cfg)
      ensures r.Failure? ==> r.error == InvalidConfig("API key is required") && config == old(config)
    {
      var checked := CheckApiKey(cfg);
      if checked.Failure? {
        return Failure(checked.error);
      }
      config := Some(cfg);
      r := Success(());
    }

    /** Polls the job until it is done, failed or out of attempts;
        `attempts` is the number of status requests made. */
    method PollForCompletion(fetches: seq<Result<PreRecordedResponse, string>>)
      returns (r: Result<UnifiedTranscriptResponse, AdapterError>, attempts: nat)
      requires |fetches| >= MAX_ATTEMPTS
      ensures config.None? ==> r == Failure(NotInitialized) && attempts == 0
      ensures config.Some? ==>
        (r, attempts) == PollFrom(fetches, 0, IsTerminal, NormalizeResponse, Gladia)
    {
      if config.None? {
        return Failure(NotInitialized), 0;
      }
      var i := 0;
      while i < MAX_ATTEMPTS
        invariant 0 <= i <= MAX_ATTEMPTS
        invariant PollFrom(fetches, 0, IsTerminal, NormalizeResponse, Gladia)
               == PollFrom(fetches, i, IsTerminal, NormalizeResponse, Gladia)
      {
        match fetches[i] {
          case Failure(e) =>
            return Failure(ProviderError(API_ERROR, e)), i + 1;
          case Success(job) =>
            if IsTerminal(job) {
              return Success(NormalizeResponse(job)), i + 1;
            }
        }
        i := i + 1;
      }
      r, attempts := Success(TimeoutResponse(Gladia)), MAX_ATTEMPTS;
    }

    /** Submits a job for a URL and, unless a webhook will receive the
        result, polls it to the end. `created` is Gladia's reply to the
        submission and `fetches` its replies to the status requests; `sent`
        is the job request handed to Gladia, if one was. */
    method Transcribe(audio: AudioInput, options: Option<TranscribeOptions>,
                      created: Result<InitResponse, string>, fetches: seq<Result<PreRecordedResponse, string>>)
      returns (r: Result<UnifiedTranscriptResponse, AdapterError>, sent: Option<InitTranscriptionRequest>, attempts: nat)
      requires |fetches| >= MAX_ATTEMPTS
      ensures config.None? ==> r == Failure(NotInitialized) && sent.None? && attempts == 0
      ensures config.Some? && audio.Bytes? ==>
        r == Failure(NotSupported("File upload not yet implemented - use URL input")) && sent.None? && attempts == 0
      ensures config.Some? && audio.Stream? ==>
        r == Failure(NotSupported("Use transcribe_stream for streaming audio")) && sent.None? && attempts == 0
      ensures config.Some? && audio.Url? ==> sent.Some? && ForwardsOptions(sent.value, audio.url, options)
      ensures config.Some? && audio.Url? && created.Failure? ==>
        r == Failure(ProviderError(API_ERROR, created.error)) && attempts == 0
      ensures config.Some? && audio.Url? && created.Success? && options.Some? && options.value.webhookUrl.Some? ==>
        r == Success(QueuedResponse(created.value)) && attempts == 0
      ensures config.Some? && audio.Url? && created.Success? && !(options.Some? && options.value.webhookUrl.Some?) ==>
        (r, attempts) == PollFrom(fetches, 0, IsTerminal, NormalizeResponse, Gladia)
    {
      sent, attempts := None, 0;
      if config.None? {
        return Failure(NotInitialized), sent, attempts;
      }
      var audioUrl: string;
      match audio {
        case Url(url) =>
          audioUrl := url;
        case Bytes(_, _) =>
          return Failure(NotSupported("File upload not yet implemented - use URL input")), sent, attempts;
        case Stream =>
          return Failure(NotSupported("Use transcribe_stream for streaming audio")), sent, attempts;
      }
      var request := BuildTranscriptionRequest(audioUrl, options);
      sent := Some(request);
      if created.Failure? {
        return Failure(ProviderError(API_ERROR, created.error)), sent, attempts;
      }
      if options.Some? && options.value.webhookUrl.Some? {
        return Success(QueuedResponse(created.value)), sent, attempts;
      }
      r, attempts := PollForCompletion(fetches);
    }

    /** Fetches a job once and reports it in the unified form. */
    method GetTranscript(fetched: Result<PreRecordedResponse, string>)
      returns (r: Result<UnifiedTranscriptResponse, AdapterError>)
      ensures config.None? ==> r == Failure(NotInitialized)
      ensures config.Some? && fetched.Failure? ==> r == Failure(ProviderError(API_ERROR, fetched.error))
      ensures config.Some? && fetched.Success? ==> r == Success(NormalizeResponse(fetched.value))
    {
      if config.None? {
        return Failure(NotInitialized);
      }
      match fetched {
        case Failure(e) => r := Failure(ProviderError(API_ERROR, e));
        case Success(job) => r := Success(NormalizeResponse(job));
      }
    }

    /** Deletes a job; `deleted` is Gladia's reply. */
    method DeleteTranscript(deleted: Result<(), string>) returns (r: Result<bool, AdapterError>)
      ensures config.None? ==> r == Failure(NotInitialized)
      ensures config.Some? && deleted.Failure? ==> r == Failure(ProviderError(API_ERROR, deleted.error))
      ensures config.Some? && deleted.Success? ==> r == Success(true)
    {
      if config.None? {
        return Failure(NotInitialized);
      }
      if deleted.Failure? {
        return Failure(ProviderError(API_ERROR, deleted.error));
      }
      r := Success(true);
    }
  }
}
