/** The provider-agnostic types of the SDK (rust-sdk/src/types/mod.rs) and
    the streaming session handle, whose status and close signal are updated
    in place. */
module Types {
  import opened Wrappers
  import opened Json
  import opened Strings

  newtype u8 = x: int | 0 <= x < 0x100
  newtype u16 = x: int | 0 <= x < 0x1_0000
  newtype u32 = x: int | 0 <= x < 0x1_0000_0000
  newtype u64 = x: int | 0 <= x < 0x1_0000_0000_0000_0000

  datatype TranscriptionProvider =
    Gladia | AssemblyAI | Deepgram | AzureStt | OpenAIWhisper | Speechmatics

  /** The `{:?}` rendering of a provider: the variant name. */
  function ProviderDebugName(p: TranscriptionProvider): string {
    match p
    case Gladia => "Gladia"
    case AssemblyAI => "AssemblyAI"
    case Deepgram => "Deepgram"
    case AzureStt => "AzureStt"
    case OpenAIWhisper => "OpenAIWhisper"
    case Speechmatics => "Speechmatics"
  }

  datatype TranscriptionStatus = Queued | Processing | Completed | Error

  datatype ProviderCapabilities = ProviderCapabilities(
    streaming: bool,
    diarization: bool,
    wordTimestamps: bool,
    languageDetection: bool,
    customVocabulary: bool,
    summarization: bool,
    sentimentAnalysis: bool,
    entityDetection: bool,
    piiRedaction: bool)

  /** Where the audio of a batch request comes from. The receiver of a
      `Stream` input carries nothing the adapters look at. */
  datatype AudioInput =
    | Url(url: string)
    | Bytes(data: seq<u8>, filename: Option<string>)
    | Stream

  datatype TranscribeOptions = TranscribeOptions(
    language: Option<string>,
    languageDetection: Option<bool>,
    diarization: Option<bool>,
    speakersExpected: Option<u32>,
    wordTimestamps: Option<bool>,
    customVocabulary: Option<seq<string>>,
    summarization: Option<bool>,
    sentimentAnalysis: Option<bool>,
    entityDetection: Option<bool>,
    piiRedaction: Option<bool>,
    webhookUrl: Option<string>,
    metadata: Option<map<string, Json>>)

  /** `TranscribeOptions::default()`: nothing requested. */
  function DefaultTranscribeOptions(): TranscribeOptions {
    TranscribeOptions(None, None, None, None, None, None, None, None, None, None, None, None)
  }

  /** A vendor's integer speaker tag as the unified speaker id: its
      decimal rendering (`to_string`), absent when the tag is. */
  function SpeakerName(speaker: Option<int>): (r: Option<string>)
    ensures r.Some? <==> speaker.Some?
    ensures r.Some? ==> r.value == IntToString(speaker.value)
  {
    if speaker.Some? then Some(IntToString(speaker.value)) else None
  }

  /** `x as i32` on a `u32`: the same 32 bits read as a two's-complement
      number, so values from 2^31 on turn negative. */
  function U32AsI32(x: u32): (r: int)
    ensures -0x8000_0000 <= r < 0x8000_0000
    ensures (r - x as int) % 0x1_0000_0000 == 0
    ensures x < 0x8000_0000 <==> r == x as int
  {
    if x < 0x8000_0000 then x as int else x as int - 0x1_0000_0000
  }

  /** An optional flag that is sent, as `true`, exactly when the caller
      asked for it with `Some(true)`. */
  predicate SentOnlyWhenRequested(sent: Option<bool>, requested: Option<bool>) {
    (sent.Some? <==> requested == Some(true)) && (sent.Some? ==> sent.value)
  }

  datatype Speaker = Speaker(id: string, speakerLabel: Option<string>, confidence: Option<real>)

  /** A word with its start and end in seconds. */
  datatype Word = Word(
    text: string,
    start: real,
    end: real,
    confidence: Option<real>,
    speaker: Option<string>)

  function SpeakerIds(speakers: seq<Speaker>): (ids: seq<string>)
    ensures |ids| == |speakers|
    ensures forall i :: 0 <= i < |speakers| ==> ids[i] == speakers[i].id
  {
    seq(|speakers|, i requires 0 <= i < |speakers| => speakers[i].id)
  }

  /** The speaker entry the adapters build for a speaker id: labelled
      `Speaker <id>`, without a confidence. */
  function LabelledSpeaker(id: string): Speaker {
    Speaker(id, Some("Speaker " + id), None)
  }

  datatype Utterance = Utterance(
    text: string,
    start: real,
    end: real,
    speaker: Option<string>,
    confidence: Option<real>,
    words: Option<seq<Word>>)

  datatype TranscriptionData = TranscriptionData(
    id: string,
    text: string,
    confidence: Option<real>,
    status: TranscriptionStatus,
    language: Option<string>,
    duration: Option<real>,
    speakers: Option<seq<Speaker>>,
    words: Option<seq<Word>>,
    utterances: Option<seq<Utterance>>,
    summary: Option<string>,
    metadata: Option<map<string, Json>>,
    createdAt: Option<string>,
    completedAt: Option<string>)

  datatype TranscriptionError = TranscriptionError(
    code: string,
    message: string,
    details: Option<Json>,
    statusCode: Option<u16>)

  datatype UnifiedTranscriptResponse = UnifiedTranscriptResponse(
    success: bool,
    provider: TranscriptionProvider,
    data: Option<TranscriptionData>,
    error: Option<TranscriptionError>,
    raw: Option<Json>)

  /** The documented shape of a unified response: data only on success,
      error information only on failure. */
  predicate WellFormed(r: UnifiedTranscriptResponse) {
    (r.success ==> r.data.Some? && r.error.None?) &&
    (!r.success ==> r.data.None? && r.error.Some?)
  }

  datatype StreamEventType = OpenEvent | TranscriptEvent | UtteranceEvent | MetadataEvent | ErrorEvent | CloseEvent

  datatype StreamEvent = StreamEvent(
    eventType: StreamEventType,
    text: Option<string>,
    isFinal: Option<bool>,
    utterance: Option<Utterance>,
    words: Option<seq<Word>>,
    speaker: Option<string>,
    confidence: Option<real>,
    error: Option<TranscriptionError>,
    data: Option<Json>)

  datatype StreamingOptions = StreamingOptions(
    language: Option<string>,
    languageDetection: Option<bool>,
    diarization: Option<bool>,
    speakersExpected: Option<u32>,
    wordTimestamps: Option<bool>,
    customVocabulary: Option<seq<string>>,
    summarization: Option<bool>,
    sentimentAnalysis: Option<bool>,
    entityDetection: Option<bool>,
    piiRedaction: Option<bool>,
    metadata: Option<map<string, Json>>,
    encoding: Option<string>,
    sampleRate: Option<u32>,
    channels: Option<u8>,
    bitDepth: Option<u8>,
    interimResults: Option<bool>,
    endpointing: Option<u32>,
    maxSilence: Option<u32>,
    model: Option<string>)

  datatype SessionStatus = Connecting | Open | Closing | Closed

  /** The byte `set_status` stores for a status. */
  function EncodeStatus(s: SessionStatus): (v: u8)
    ensures v <= 3
  {
    match s
    case Connecting => 0
    case Open => 1
    case Closing => 2
    case Closed => 3
  }

  /** The status `get_status` reads back from a stored byte; every byte
      above 2 reads as `Closed`. */
  function DecodeStatus(v: u8): (s: SessionStatus)
    ensures EncodeStatus(s) == if v < 3 then v else 3
  {
    if v == 0 then Connecting
    else if v == 1 then Open
    else if v == 2 then Closing
    else Closed
  }

  /** A stored status reads back as itself. */
  lemma StatusRoundTrip(s: SessionStatus)
    ensures DecodeStatus(EncodeStatus(s)) == s
  {
  }

  /** A live streaming session as the caller holds it. `closeSignalSent`
      records whether the one-shot close signal has been delivered to the
      session task; the audio channel and the creation instant are not
      modelled. */
  class StreamingSessionHandle {
    const id: string
    const provider: TranscriptionProvider
    var status: u8
    /** Whether the one-shot close sender is still held. */
    var closeTx: bool
    /** How many close signals the session task has received. */
    var closeSignals: nat

    /** The one-shot channel delivers at most one signal, and only after
        the sender has been given up. */
    ghost predicate Valid()
      reads this
    {
      closeSignals <= (if closeTx then 0 else 1)
    }

    constructor New(id: string, provider: TranscriptionProvider)
      ensures Valid()
      ensures this.id == id && this.provider == provider
      ensures status == 0 && GetStatus() == Connecting
      ensures closeTx && closeSignals == 0
    {
      this.id := id;
      this.provider := provider;
      status := 0;
      closeTx := true;
      closeSignals := 0;
    }

    function GetStatus(): (s: SessionStatus)
      reads this
      ensures EncodeStatus(s) == if status < 3 then status else 3
    {
      DecodeStatus(status)
    }

    method SetStatus(s: SessionStatus)
      modifies this
      ensures status == EncodeStatus(s)
      ensures GetStatus() == s
      ensures closeTx == old(closeTx) && closeSignals == old(closeSignals)
    {
      status := EncodeStatus(s);
    }

    /** Takes the close sender and signals the session task through it.
        `receiverAlive` says whether the session task still listens; when it
        does not, the call fails before the status is touched. */
    method Close(receiverAlive: bool) returns (r: Result<(), string>)
      requires Valid()
      modifies this
      ensures Valid()
      ensures !closeTx
      ensures closeSignals == old(closeSignals) + (if old(closeTx) && receiverAlive then 1 else 0)
      ensures old(closeTx) && !receiverAlive ==>
        r == Failure("Failed to send close signal") && status == old(status)
      ensures !(old(closeTx) && !receiverAlive) ==>
        r == Success(()) && GetStatus() == Closed
    {
      if closeTx {
        closeTx := false;
        if !receiverAlive {
          return Failure("Failed to send close signal");
        }
        closeSignals := closeSignals + 1;
      }
      SetStatus(Closed);
      r := Success(());
    }
  }

  /** Closing a session twice, with the task listening, delivers exactly
      one close signal and leaves the session closed. */
  method CloseTwiceSignalsOnce(h: StreamingSessionHandle)
    returns (first: Result<(), string>, second: Result<(), string>)
    requires h.Valid() && h.closeTx && h.closeSignals == 0
    modifies h
    ensures first == Success(()) && second == Success(())
    ensures h.closeSignals == 1
    ensures h.GetStatus() == Closed
  {
    first := h.Close(true);
    second := h.Close(true);
  }
}
