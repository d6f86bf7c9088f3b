/** The Deepgram adapter (rust-sdk/src/adapters/deepgram.rs): the
    pre-recorded request built from the unified options, the live-session
    URL, and the mapping of Deepgram's synchronous results and live
    messages to the unified types. Deepgram's HTTP client is replaced by
    the reply it would give, and JSON decoding by decoded records that
    carry their own serialisation for `raw`. */
module Deepgram {
  import opened Wrappers
  import opened Strings
  import opened Sequences
  import opened Json
  import opened Types
  import opened Adapters
  import opened Polling
  import Streaming

  const DEFAULT_BASE_URL: string := "https://api.deepgram.com"
  const STREAMING_URL: string := "wss://api.deepgram.com/v1/listen"
  /** The text message that ends a live session. */
  const CLOSE_STREAM_MESSAGE: string := "{\"type\":\"CloseStream\"}"
  const SYNCHRONOUS_MESSAGE: string := "Deepgram returns results synchronously - use transcribe() instead"

  const CAPABILITIES: ProviderCapabilities :=
    ProviderCapabilities(true, true, true, true, true, true, true, true, true)

  // ---------------------------------------------------------------------
  // Vendor records (pre-recorded)

  /** A word of a pre-recorded result; every field is optional. Times are
      in seconds; the speaker is the integer tag. */
  datatype ResultWord = ResultWord(
    word: Option<string>, start: Option<real>, end: Option<real>,
    confidence: Option<real>, speaker: Option<int>)

  datatype Alternative = Alternative(
    transcript: Option<string>, confidence: Option<real>, words: Option<seq<ResultWord>>)

  datatype Channel = Channel(alternatives: Option<seq<Alternative>>, detectedLanguage: Option<string>)

  datatype ResultUtterance = ResultUtterance(
    transcript: Option<string>, start: Option<real>, end: Option<real>,
    confidence: Option<real>, speaker: Option<int>, words: Option<seq<ResultWord>>)

  datatype Summary = Summary(short: Option<string>)

  /** A synchronous pre-recorded result. */
  datatype ListenResponse = ListenResponse(
    requestId: string,
    created: string,
    duration: real,
    channels: seq<Channel>,
    utterances: Option<seq<ResultUtterance>>,
    summary: Option<Summary>,
    serialized: Json)

  /** Deepgram answers a request either with the result or, when a
      callback was given, with an acknowledgement. */
  datatype ListenReply =
    | Listened(response: ListenResponse)
    | Accepted(requestId: string, serialized: Json)

  // ---------------------------------------------------------------------
  // Mapping to the unified types

  /** A word of the first alternative; missing text is empty and missing
      times are 0. Channel words carry no speaker. */
  function MapWord(w: ResultWord): (r: Word)
    ensures r.text == w.word.GetOr("") && r.start == w.start.GetOr(0.0) && r.end == w.end.GetOr(0.0)
    ensures r.confidence == w.confidence && r.speaker.None?
  {
    Word(w.word.GetOr(""), w.start.GetOr(0.0), w.end.GetOr(0.0), w.confidence, None)
  }

  /** A word of an utterance: as a channel word, but with its own speaker. */
  function MapUtteranceWord(w: ResultWord): (r: Word)
    ensures r == MapWord(w).(speaker := SpeakerName(w.speaker))
  {
    Word(w.word.GetOr(""), w.start.GetOr(0.0), w.end.GetOr(0.0), w.confidence, SpeakerName(w.speaker))
  }

  function MapUtterance(u: ResultUtterance): (r: Utterance)
    ensures r.text == u.transcript.GetOr("") && r.start == u.start.GetOr(0.0) && r.end == u.end.GetOr(0.0)
    ensures r.confidence == u.confidence && r.speaker == SpeakerName(u.speaker)
    ensures r.words.Some? <==> u.words.Some?
    ensures r.words.Some? ==> (|r.words.value| == |u.words.value| &&
      forall i :: 0 <= i < |u.words.value| ==> r.words.value[i] == MapUtteranceWord(u.words.value[i]))
  {
    Utterance(u.transcript.GetOr(""), u.start.GetOr(0.0), u.end.GetOr(0.0),
      SpeakerName(u.speaker), u.confidence,
      if u.words.Some?
      then Some(seq(|u.words.value|, i requires 0 <= i < |u.words.value| => MapUtteranceWord(u.words.value[i])))
      else None)
  }

  function MapUtterances(utts: seq<ResultUtterance>): (r: seq<Utterance>)
    ensures |r| == |utts|
    ensures forall i :: 0 <= i < |utts| ==> r[i] == MapUtterance(utts[i])
  {
    seq(|utts|, i requires 0 <= i < |utts| => MapUtterance(utts[i]))
  }

  /** The speakers of the utterances: their distinct speaker names in
      sorted order, each labelled `Speaker <id>`. */
  function SpeakersOf(utts: seq<Utterance>): (r: seq<Speaker>)
  {
    var ids := SortedDedup(Somes(seq(|utts|, i requires 0 <= i < |utts| => utts[i].speaker)));
    seq(|ids|, i requires 0 <= i < |ids| => LabelledSpeaker(ids[i]))
  }

  lemma SpeakerIdsOf(utts: seq<Utterance>)
    ensures SpeakerIds(SpeakersOf(utts)) ==
            SortedDedup(Somes(seq(|utts|, i requires 0 <= i < |utts| => utts[i].speaker)))
  {
  }

  /** The speaker list is strictly sorted and names exactly the speakers
      the utterances carry. */
  lemma SpeakersOfTags(utts: seq<Utterance>)
    ensures StrictlySorted(SpeakerIds(SpeakersOf(utts)))
    ensures forall id :: id in SpeakerIds(SpeakersOf(utts)) <==>
      exists i :: 0 <= i < |utts| && utts[i].speaker == Some(id)
  {
    var tags := seq(|utts|, i requires 0 <= i < |utts| => utts[i].speaker);
    SortedDedupCorrect(Somes(tags));
    SpeakerIdsOf(utts);
    assert forall id :: Some(id) in tags <==> exists i :: 0 <= i < |utts| && utts[i].speaker == Some(id) by {
      forall id ensures Some(id) in tags <==> exists i :: 0 <= i < |utts| && utts[i].speaker == Some(id) {
        if exists i :: 0 <= i < |utts| && utts[i].speaker == Some(id) {
          var i :| 0 <= i < |utts| && utts[i].speaker == Some(id);
          assert tags[i] == Some(id);
        }
      }
    }
  }

  /** The speaker list is strictly sorted (so without duplicates), names
      exactly the speakers the utterances carry, labels each one, and is
      the only list with these properties. */
  lemma SpeakersOfCorrect(utts: seq<Utterance>)
    ensures StrictlySorted(SpeakerIds(SpeakersOf(utts)))
    ensures forall id :: id in SpeakerIds(SpeakersOf(utts)) <==>
      exists i :: 0 <= i < |utts| && utts[i].speaker == Some(id)
    ensures forall s :: s in SpeakersOf(utts) ==> s == LabelledSpeaker(s.id)
    ensures forall ids: seq<string> ::
      (StrictlySorted(ids) &&
       (forall id :: id in ids <==> exists i :: 0 <= i < |utts| && utts[i].speaker == Some(id)))
      ==> ids == SpeakerIds(SpeakersOf(utts))
  {
    SpeakersOfTags(utts);
    forall ids: seq<string> | StrictlySorted(ids) &&
      (forall id :: id in ids <==> exists i :: 0 <= i < |utts| && utts[i].speaker == Some(id))
      ensures ids == SpeakerIds(SpeakersOf(utts))
    {
      StrictlySortedUnique(ids, SpeakerIds(SpeakersOf(utts)));
    }
  }

  function FirstAlternative(r: ListenResponse): (a: Option<Alternative>)
    ensures a.Some? <==> r.channels != [] && r.channels[0].alternatives.Some? &&
                         r.channels[0].alternatives.value != []
    ensures a.Some? ==> a.value == r.channels[0].alternatives.value[0]
  {
    if r.channels != [] && r.channels[0].alternatives.Some? && r.channels[0].alternatives.value != []
    then Some(r.channels[0].alternatives.value[0])
    else None
  }

  /** The unified view of a synchronous result: always a completed
      success. Text, confidence and words come from the first alternative
      of the first channel (empty text and nothing else without one), the
      language from the first channel, speakers from the utterances. */
  function NormalizeResponse(resp: ListenResponse): (r: UnifiedTranscriptResponse)
    ensures WellFormed(r) && r.success && r.provider == Deepgram && r.raw == Some(resp.serialized)
    ensures var d := r.data.value;
      var alt := FirstAlternative(resp);
      d.id == resp.requestId && d.status == Completed &&
      d.text == (if alt.Some? then alt.value.transcript.GetOr("") else "") &&
      d.confidence == (if alt.Some? then alt.value.confidence else None) &&
      (d.words.Some? <==> alt.Some? && alt.value.words.Some?) &&
      (d.words.Some? ==> (|d.words.value| == |alt.value.words.value| &&
         forall i :: 0 <= i < |d.words.value| ==> d.words.value[i] == MapWord(alt.value.words.value[i]))) &&
      d.language == (if resp.channels != [] then resp.channels[0].detectedLanguage else None) &&
      d.duration == Some(resp.duration) &&
      d.utterances == (if resp.utterances.Some? then Some(MapUtterances(resp.utterances.value)) else None) &&
      d.speakers == (if d.utterances.Some? then Some(SpeakersOf(d.utterances.value)) else None) &&
      d.summary == (if resp.summary.Some? then Some(resp.summary.value.short.GetOr("")) else None) &&
      d.metadata.None? && d.createdAt == Some(resp.created) && d.completedAt.None?
  {
    var alt := FirstAlternative(resp);
    var text := if alt.Some? then alt.value.transcript.GetOr("") else "";
    var words := if alt.Some? && alt.value.words.Some?
      then Some(seq(|alt.value.words.value|, i requires 0 <= i < |alt.value.words.value| =>
                    MapWord(alt.value.words.value[i])))
      else None;
    var utterances := if resp.utterances.Some? then Some(MapUtterances(resp.utterances.value)) else None;
    var speakers := if utterances.Some? then Some(SpeakersOf(utterances.value)) else None;
    var summary := if resp.summary.Some? then Some(resp.summary.value.short.GetOr("")) else None;
    var language := if resp.channels != [] then resp.channels[0].detectedLanguage else None;
    UnifiedTranscriptResponse(true, Deepgram,
      Some(TranscriptionData(resp.requestId, text, if alt.Some? then alt.value.confidence else None,
        Completed, language, Some(resp.duration), speakers, words, utterances, summary,
        None, Some(resp.created), None)),
      None, Some(resp.serialized))
  }

  /** The utterance speakers of a result are its speakers: a result with
      utterances always has a speaker list (possibly empty), sorted and
      naming exactly the utterances' speaker tags. */
  lemma NormalizedSpeakers(resp: ListenResponse)
    requires resp.utterances.Some?
    ensures var d := NormalizeResponse(resp).data.value;
      d.speakers.Some? && StrictlySorted(SpeakerIds(d.speakers.value)) &&
      forall x: int :: IntToString(x) in SpeakerIds(d.speakers.value) <==>
        exists i :: 0 <= i < |resp.utterances.value| && resp.utterances.value[i].speaker == Some(x)
  {
    var utts := resp.utterances.value;
    var mapped := MapUtterances(utts);
    assert NormalizeResponse(resp).data.value.speakers == Some(SpeakersOf(mapped));
    SpeakersOfTags(mapped);
    forall x: int
      ensures (exists i :: 0 <= i < |mapped| && mapped[i].speaker == Some(IntToString(x))) <==>
              (exists i :: 0 <= i < |utts| && utts[i].speaker == Some(x))
    {
      if exists i :: 0 <= i < |mapped| && mapped[i].speaker == Some(IntToString(x)) {
        var i :| 0 <= i < |mapped| && mapped[i].speaker == Some(IntToString(x));
        IntToStringInjective(utts[i].speaker.value, x);
      }
      if exists i :: 0 <= i < |utts| && utts[i].speaker == Some(x) {
        var i :| 0 <= i < |utts| && utts[i].speaker == Some(x);
        assert mapped[i].speaker == Some(IntToString(x));
      }
    }
  }

  /** The immediate reply when Deepgram accepted a request with a callback. */
  function AcceptedResponse(requestId: string, serialized: Json): (r: UnifiedTranscriptResponse)
    ensures WellFormed(r) && r.success && r.provider == Deepgram && r.raw == Some(serialized)
    ensures r.data.value.id == requestId && r.data.value.status == Processing && r.data.value.text == ""
    ensures var d := r.data.value;
      d.confidence.None? && d.language.None? && d.duration.None? && d.speakers.None? &&
      d.words.None? && d.utterances.None? && d.summary.None? && d.metadata.None? &&
      d.createdAt.None? && d.completedAt.None?
  {
    UnifiedTranscriptResponse(true, Deepgram,
      Some(TranscriptionData(requestId, "", None, Processing, None, None, None, None, None, None, None, None, None)),
      None, Some(serialized))
  }

  // ---------------------------------------------------------------------
  // The pre-recorded request

  /** The query options of a pre-recorded request that the adapter sets. */
  datatype ListenRequest = ListenRequest(
    url: string,
    callback: Option<string>,
    sentiment: Option<bool>,
    summarize: Option<bool>,
    detectEntities: Option<bool>,
    detectLanguage: Option<bool>,
    diarize: Option<bool>,
    keyterm: Option<seq<string>>,
    language: Option<string>,
    punctuate: Option<bool>,
    utterances: Option<bool>)

  /** The request for `url`: each chosen option is passed on as given
      (false included), utterances are requested exactly as diarization
      is, and punctuation is always on. */
  function BuildListenRequest(url: string, options: Option<TranscribeOptions>): (r: ListenRequest)
    ensures r.url == url && r.punctuate == Some(true) && r.utterances == r.diarize
    ensures var o := options.GetOr(DefaultTranscribeOptions());
      r.callback == o.webhookUrl && r.sentiment == o.sentimentAnalysis && r.summarize == o.summarization &&
      r.detectEntities == o.entityDetection && r.detectLanguage == o.languageDetection &&
      r.diarize == o.diarization && r.keyterm == o.customVocabulary && r.language == o.language
  {
    match options
    case None => ListenRequest(url, None, None, None, None, None, None, None, None, Some(true), None)
    case Some(o) =>
      ListenRequest(url, o.webhookUrl, o.sentimentAnalysis, o.summarization, o.entityDetection,
        o.languageDetection, o.diarization, o.customVocabulary, o.language, Some(true), o.diarization)
  }

  // ---------------------------------------------------------------------
  // The live-session URL

  /** The parameters of the live-session URL, in their fixed order. */
  datatype ParamKey = EncodingKey | SampleRateKey | ChannelsKey | LanguageKey | ModelKey
                    | InterimResultsKey | DiarizeKey | PunctuateKey

  function KeyName(k: ParamKey): string {
    match k
    case EncodingKey => "encoding"
    case SampleRateKey => "sample_rate"
    case ChannelsKey => "channels"
    case LanguageKey => "language"
    case ModelKey => "model"
    case InterimResultsKey => "interim_results"
    case DiarizeKey => "diarize"
    case PunctuateKey => "punctuate"
  }

  /** The position of a parameter in the fixed order. */
  function Rank(k: ParamKey): nat {
    match k
    case EncodingKey => 0
    case SampleRateKey => 1
    case ChannelsKey => 2
    case LanguageKey => 3
    case ModelKey => 4
    case InterimResultsKey => 5
    case DiarizeKey => 6
    case PunctuateKey => 7
  }

  datatype QueryParam = QueryParam(key: ParamKey, value: string)

  function Render(p: QueryParam): string {
    KeyName(p.key) + "=" + p.value
  }

  function RenderAll(ps: seq<QueryParam>): (r: seq<string>)
    ensures |r| == |ps|
  {
    seq(|ps|, i requires 0 <= i < |ps| => Render(ps[i]))
  }

  /** The value of the first parameter with this key. */
  function Lookup(ps: seq<QueryParam>, key: ParamKey): Option<string> {
    if ps == [] then None
    else if ps[0].key == key then Some(ps[0].value)
    else Lookup(ps[1..], key)
  }

  /** Keys strictly increase along the list: the fixed order, and each
      parameter at most once. */
  predicate InParameterOrder(ps: seq<QueryParam>) {
    forall i, j :: 0 <= i < j < |ps| ==> Rank(ps[i].key) < Rank(ps[j].key)
  }

  /** Every parameter's key ranks in `[lo, hi)`. */
  predicate RanksWithin(ps: seq<QueryParam>, lo: nat, hi: nat) {
    forall i :: 0 <= i < |ps| ==> lo <= Rank(ps[i].key) < hi
  }

  lemma {:induction false} LookupConcat(a: seq<QueryParam>, b: seq<QueryParam>, key: ParamKey)
    ensures Lookup(a + b, key) == if Lookup(a, key).Some? then Lookup(a, key) else Lookup(b, key)
    decreases |a|
  {
    if a == [] {
      assert a + b == b;
    } else {
      assert (a + b)[1..] == a[1..] + b;
      LookupConcat(a[1..], b, key);
    }
  }

  lemma OrderConcat(a: seq<QueryParam>, b: seq<QueryParam>, lo: nat, mid: nat, hi: nat)
    requires InParameterOrder(a) && InParameterOrder(b)
    requires lo <= mid <= hi && RanksWithin(a, lo, mid) && RanksWithin(b, mid, hi)
    ensures InParameterOrder(a + b) && RanksWithin(a + b, lo, hi)
  {
    assert forall i :: 0 <= i < |a + b| ==> (a + b)[i] == if i < |a| then a[i] else b[i - |a|];
  }

  /** At most one parameter, present when `present` holds. */
  function Piece(present: bool, key: ParamKey, value: string): (ps: seq<QueryParam>)
    ensures |ps| <= 1 && RanksWithin(ps, Rank(key), Rank(key) + 1)
  {
    if present then [QueryParam(key, value)] else []
  }

  lemma PieceLookup(present: bool, key: ParamKey, value: string, k: ParamKey)
    ensures Lookup(Piece(present, key, value), k) == if present && k == key then Some(value) else None
  {
  }

  function EncodingValue(options: StreamingOptions): Option<string> {
    var enc := if options.encoding.Some? then Streaming.FromStr(options.encoding.value) else None;
    if enc.Some? then Some(Streaming.ToDeepgram(enc.value)) else None
  }

  /** The parameters from their values, piece by piece in the fixed order:
      the optional ones when given, interim results and punctuation always,
      diarization when on. */
  function ParamsOf(encoding: Option<string>, sampleRate: Option<string>, channels: Option<string>,
                    language: Option<string>, model: Option<string>, interim: string, diarize: bool)
    : seq<QueryParam>
  {
    Piece(encoding.Some?, EncodingKey, encoding.GetOr("")) +
    Piece(sampleRate.Some?, SampleRateKey, sampleRate.GetOr("")) +
    Piece(channels.Some?, ChannelsKey, channels.GetOr("")) +
    Piece(language.Some?, LanguageKey, language.GetOr("")) +
    Piece(model.Some?, ModelKey, model.GetOr("")) +
    Piece(true, InterimResultsKey, interim) +
    Piece(diarize, DiarizeKey, "true") +
    Piece(true, PunctuateKey, "true")
  }

  /** The live-session parameters for the options. */
  function StreamingParams(options: StreamingOptions): seq<QueryParam> {
    ParamsOf(EncodingValue(options),
      if options.sampleRate.Some? then Some(NatToString(options.sampleRate.value as nat)) else None,
      if options.channels.Some? then Some(NatToString(options.channels.value as nat)) else None,
      options.language, options.model,
      BoolToString(options.interimResults.GetOr(true)),
      options.diarization == Some(true))
  }

  /** At most one parameter, of the key ranked `k`. */
  predicate PieceOf(ps: seq<QueryParam>, k: nat) {
    |ps| <= 1 && RanksWithin(ps, k, k + 1)
  }

  lemma PieceOrdered(ps: seq<QueryParam>, k: nat)
    requires PieceOf(ps, k)
    ensures InParameterOrder(ps) && RanksWithin(ps, k, k + 1)
  {
  }

  /** The concatenation of eight pieces ranked 0 to 7 is in order. */
  lemma OrderPieces(p0: seq<QueryParam>, p1: seq<QueryParam>, p2: seq<QueryParam>, p3: seq<QueryParam>,
                    p4: seq<QueryParam>, p5: seq<QueryParam>, p6: seq<QueryParam>, p7: seq<QueryParam>)
    requires PieceOf(p0, 0) && PieceOf(p1, 1) && PieceOf(p2, 2) && PieceOf(p3, 3)
    requires PieceOf(p4, 4) && PieceOf(p5, 5) && PieceOf(p6, 6) && PieceOf(p7, 7)
    ensures InParameterOrder(p0 + p1 + p2 + p3 + p4 + p5 + p6 + p7)
  {
    PieceOrdered(p0, 0); PieceOrdered(p1, 1); PieceOrdered(p2, 2); PieceOrdered(p3, 3);
    PieceOrdered(p4, 4); PieceOrdered(p5, 5); PieceOrdered(p6, 6); PieceOrdered(p7, 7);
    OrderConcat(p0, p1, 0, 1, 2);
    OrderConcat(p0 + p1, p2, 0, 2, 3);
    OrderConcat(p0 + p1 + p2, p3, 0, 3, 4);
    OrderConcat(p0 + p1 + p2 + p3, p4, 0, 4, 5);
    OrderConcat(p0 + p1 + p2 + p3 + p4, p5, 0, 5, 6);
    OrderConcat(p0 + p1 + p2 + p3 + p4 + p5, p6, 0, 6, 7);
    OrderConcat(p0 + p1 + p2 + p3 + p4 + p5 + p6, p7, 0, 7, 8);
  }

  /** A lookup in eight concatenated pieces finds the first piece that has
      the key. */
  lemma LookupEight(p0: seq<QueryParam>, p1: seq<QueryParam>, p2: seq<QueryParam>, p3: seq<QueryParam>,
                    p4: seq<QueryParam>, p5: seq<QueryParam>, p6: seq<QueryParam>, p7: seq<QueryParam>,
                    key: ParamKey)
    ensures Lookup(p0 + p1 + p2 + p3 + p4 + p5 + p6 + p7, key) ==
      if Lookup(p0, key).Some? then Lookup(p0, key)
      else if Lookup(p1, key).Some? then Lookup(p1, key)
      else if Lookup(p2, key).Some? then Lookup(p2, key)
      else if Lookup(p3, key).Some? then Lookup(p3, key)
      else if Lookup(p4, key).Some? then Lookup(p4, key)
      else if Lookup(p5, key).Some? then Lookup(p5, key)
      else if Lookup(p6, key).Some? then Lookup(p6, key)
      else Lookup(p7, key)
  {
    LookupConcat(p0, p1, key);
    LookupConcat(p0 + p1, p2, key);
    LookupConcat(p0 + p1 + p2, p3, key);
    LookupConcat(p0 + p1 + p2 + p3, p4, key);
    LookupConcat(p0 + p1 + p2 + p3 + p4, p5, key);
    LookupConcat(p0 + p1 + p2 + p3 + p4 + p5, p6, key);
    LookupConcat(p0 + p1 + p2 + p3 + p4 + p5 + p6, p7, key);
  }

  /** The parameters come in the fixed order and end with punctuation. */
  lemma ParamsOfOrdered(encoding: Option<string>, sampleRate: Option<string>, channels: Option<string>,
                        language: Option<string>, model: Option<string>, interim: string, diarize: bool)
    ensures var ps := ParamsOf(encoding, sampleRate, channels, language, model, interim, diarize);
      InParameterOrder(ps) && ps != [] && ps[|ps| - 1] == QueryParam(PunctuateKey, "true")
  {
    OrderPieces(
      Piece(encoding.Some?, EncodingKey, encoding.GetOr("")),
      Piece(sampleRate.Some?, SampleRateKey, sampleRate.GetOr("")),
      Piece(channels.Some?, ChannelsKey, channels.GetOr("")),
      Piece(language.Some?, LanguageKey, language.GetOr("")),
      Piece(model.Some?, ModelKey, model.GetOr("")),
      Piece(true, InterimResultsKey, interim),
      Piece(diarize, DiarizeKey, "true"),
      Piece(true, PunctuateKey, "true"));
  }

  /** Each parameter carries its own value, and is there exactly when
      given. */
  lemma ParamsOfLookup(encoding: Option<string>, sampleRate: Option<string>, channels: Option<string>,
                       language: Option<string>, model: Option<string>, interim: string, diarize: bool,
                       key: ParamKey)
    ensures Lookup(ParamsOf(encoding, sampleRate, channels, language, model, interim, diarize), key) ==
      match key
      case EncodingKey => encoding
      case SampleRateKey => sampleRate
      case ChannelsKey => channels
      case LanguageKey => language
      case ModelKey => model
      case InterimResultsKey => Some(interim)
      case DiarizeKey => if diarize then Some("true") else None
      case PunctuateKey => Some("true")
  {
    PieceLookup(encoding.Some?, EncodingKey, encoding.GetOr(""), key);
    PieceLookup(sampleRate.Some?, SampleRateKey, sampleRate.GetOr(""), key);
    PieceLookup(channels.Some?, ChannelsKey, channels.GetOr(""), key);
    PieceLookup(language.Some?, LanguageKey, language.GetOr(""), key);
    PieceLookup(model.Some?, ModelKey, model.GetOr(""), key);
    PieceLookup(true, InterimResultsKey, interim, key);
    PieceLookup(diarize, DiarizeKey, "true", key);
    PieceLookup(true, PunctuateKey, "true", key);
    LookupEight(
      Piece(encoding.Some?, EncodingKey, encoding.GetOr("")),
      Piece(sampleRate.Some?, SampleRateKey, sampleRate.GetOr("")),
      Piece(channels.Some?, ChannelsKey, channels.GetOr("")),
      Piece(language.Some?, LanguageKey, language.GetOr("")),
      Piece(model.Some?, ModelKey, model.GetOr("")),
      Piece(true, InterimResultsKey, interim),
      Piece(diarize, DiarizeKey, "true"),
      Piece(true, PunctuateKey, "true"),
      key);
  }

  /** The live-session URL and the parameters it carries, pushed one by one
      in the fixed order (each optional one as a piece that is empty when
      its option is absent). */
  method BuildStreamingUrl(options: StreamingOptions) returns (url: string, params: seq<QueryParam>)
    ensures params == StreamingParams(options)
    ensures url == STREAMING_URL + "?" + Join(RenderAll(params), "&")
  {
    url := STREAMING_URL + "?";
    params := [];
    var encoding := EncodingValue(options);
    params := params + Piece(encoding.Some?, EncodingKey, encoding.GetOr(""));
    var rate := if options.sampleRate.Some? then Some(NatToString(options.sampleRate.value as nat)) else None;
    params := params + Piece(rate.Some?, SampleRateKey, rate.GetOr(""));
    var channels := if options.channels.Some? then Some(NatToString(options.channels.value as nat)) else None;
    params := params + Piece(channels.Some?, ChannelsKey, channels.GetOr(""));
    params := params + Piece(options.language.Some?, LanguageKey, options.language.GetOr(""));
    params := params + Piece(options.model.Some?, ModelKey, options.model.GetOr(""));
    var interim := options.interimResults.GetOr(true);
    params := params + Piece(true, InterimResultsKey, BoolToString(interim));
    params := params + Piece(options.diarization == Some(true), DiarizeKey, "true");
    params := params + Piece(true, PunctuateKey, "true");
    assert [] + Piece(encoding.Some?, EncodingKey, encoding.GetOr("")) ==
           Piece(encoding.Some?, EncodingKey, encoding.GetOr(""));
    url := url + Join(RenderAll(params), "&");
  }

  /** What the URL says: parameters in the fixed order; each optional one
      present exactly when its option is given (the encoding only when
      recognised, under Deepgram's name; diarization only when requested);
      interim results on unless turned off; punctuation always, last. */
  lemma StreamingUrlParameters(options: StreamingOptions)
    ensures var ps := StreamingParams(options);
      InParameterOrder(ps) &&
      ps != [] && ps[|ps| - 1] == QueryParam(PunctuateKey, "true") &&
      Lookup(ps, EncodingKey) == (if options.encoding.Some? && Streaming.FromStr(options.encoding.value).Some?
                                 then Some(Streaming.ToDeepgram(Streaming.FromStr(options.encoding.value).value))
                                 else None) &&
      Lookup(ps, SampleRateKey) ==
        (if options.sampleRate.Some? then Some(NatToString(options.sampleRate.value as nat)) else None) &&
      Lookup(ps, ChannelsKey) ==
        (if options.channels.Some? then Some(NatToString(options.channels.value as nat)) else None) &&
      Lookup(ps, LanguageKey) == options.language &&
      Lookup(ps, ModelKey) == options.model &&
      Lookup(ps, InterimResultsKey) == Some(BoolToString(options.interimResults.GetOr(true))) &&
      Lookup(ps, DiarizeKey) == (if options.diarization == Some(true) then Some("true") else None)
  {
    var enc := EncodingValue(options);
    var rate := if options.sampleRate.Some? then Some(NatToString(options.sampleRate.value as nat)) else None;
    var channels := if options.channels.Some? then Some(NatToString(options.channels.value as nat)) else None;
    var interim := BoolToString(options.interimResults.GetOr(true));
    var diarize := options.diarization == Some(true);
    ParamsOfOrdered(enc, rate, channels, options.language, options.model, interim, diarize);
    ParamsOfLookup(enc, rate, channels, options.language, options.model, interim, diarize, EncodingKey);
    ParamsOfLookup(enc, rate, channels, options.language, options.model, interim, diarize, SampleRateKey);
    ParamsOfLookup(enc, rate, channels, options.language, options.model, interim, diarize, ChannelsKey);
    ParamsOfLookup(enc, rate, channels, options.language, options.model, interim, diarize, LanguageKey);
    ParamsOfLookup(enc, rate, channels, options.language, options.model, interim, diarize, ModelKey);
    ParamsOfLookup(enc, rate, channels, options.language, options.model, interim, diarize, InterimResultsKey);
    ParamsOfLookup(enc, rate, channels, options.language, options.model, interim, diarize, DiarizeKey);
  }

  // ---------------------------------------------------------------------
  // Live messages

  datatype LiveWord = LiveWord(word: string, start: real, end: real, confidence: real, speaker: Option<int>)

  datatype LiveAlternative = LiveAlternative(transcript: string, confidence: real, words: Option<seq<LiveWord>>)

  /** The live messages Deepgram sends; a metadata message is carried as
      its own rendering. */
  datatype StreamMessage =
    | Results(isFinal: bool, alternatives: seq<LiveAlternative>)
    | UtteranceEnd
    | MetadataMessage(rendered: string)

  function MapLiveWord(w: LiveWord): (r: Word)
    ensures r.text == w.word && r.start == w.start && r.end == w.end
    ensures r.confidence == Some(w.confidence) && r.speaker == SpeakerName(w.speaker)
  {
    Word(w.word, w.start, w.end, Some(w.confidence), SpeakerName(w.speaker))
  }

  /** The unified event for a live message, if it decoded. Results without
      alternatives give nothing; otherwise a transcript event from the
      first alternative. The end of an utterance is marked by a final
      utterance event that carries no utterance. */
  function ParseStreamingMessage(msg: Option<StreamMessage>): (r: Option<StreamEvent>)
    ensures r.None? <==> msg.None? || (msg.value.Results? && msg.value.alternatives == [])
    ensures r.Some? && msg.value.Results? ==>
      var alt := msg.value.alternatives[0];
      r.value.eventType == TranscriptEvent && r.value.text == Some(alt.transcript) &&
      r.value.isFinal == Some(msg.value.isFinal) && r.value.utterance.None? &&
      r.value.confidence == Some(alt.confidence) && r.value.speaker.None? && r.value.error.None? &&
      r.value.data.None? &&
      (r.value.words.Some? <==> alt.words.Some?) &&
      (r.value.words.Some? ==> (|r.value.words.value| == |alt.words.value| &&
         forall i :: 0 <= i < |alt.words.value| ==> r.value.words.value[i] == MapLiveWord(alt.words.value[i])))
    ensures msg.Some? && msg.value.UtteranceEnd? ==>
      r == Some(StreamEvent(UtteranceEvent, None, Some(true), None, None, None, None, None, None))
    ensures msg.Some? && msg.value.MetadataMessage? ==>
      r == Some(StreamEvent(MetadataEvent, Some(msg.value.rendered), None, None, None, None, None, None, None))
  {
    match msg
    case None => None
    case Some(Results(isFinal, alts)) =>
      if alts == [] then None
      else
        var alt := alts[0];
        var words := if alt.words.Some?
          then Some(seq(|alt.words.value|, i requires 0 <= i < |alt.words.value| => MapLiveWord(alt.words.value[i])))
          else None;
        Some(StreamEvent(TranscriptEvent, Some(alt.transcript), Some(isFinal), None, words, None,
          Some(alt.confidence), None, None))
    case Some(UtteranceEnd) =>
      Some(StreamEvent(UtteranceEvent, None, Some(true), None, None, None, None, None, None))
    case Some(MetadataMessage(rendered)) =>
      Some(StreamEvent(MetadataEvent, Some(rendered), None, None, None, None, None, None, None))
  }

  // ---------------------------------------------------------------------
  // The adapter

  class DeepgramAdapter {
    var config: Option<ProviderConfig>

    constructor New()
      ensures config.None?
    {
      config := None;
    }

    method Initialize(cfg: ProviderConfig) returns (r: Result<(), AdapterError>)
      modifies this
      ensures r.Success? <==> cfg.apiKey != ""
      ensures r.Success? ==> config == Some(cfg)
      ensures r.Failure? ==> r.error == InvalidConfig("API key is required") && config == old(config)
    {
      var checked := CheckApiKey(cfg);
      if checked.Failure? {
        return Failure(checked.error);
      }
      config := Some(cfg);
      r := Success(());
    }

    /** Sends a URL to Deepgram and reports its answer. `reply` is
        Deepgram's answer to the request; `sent` is the request, if one was
        made. */
    method Transcribe(audio: AudioInput, options: Option<TranscribeOptions>, reply: Result<ListenReply, string>)
      returns (r: Result<UnifiedTranscriptResponse, AdapterError>, sent: Option<ListenRequest>)
      ensures config.None? ==> r == Failure(NotInitialized) && sent.None?
      ensures config.Some? && audio.Bytes? ==>
        r == Failure(NotSupported("File upload not yet implemented - use URL input")) && sent.None?
      ensures config.Some? && audio.Stream? ==>
        r == Failure(NotSupported("Use transcribe_stream for streaming audio")) && sent.None?
      ensures config.Some? && audio.Url? ==> sent == Some(BuildListenRequest(audio.url, options))
      ensures config.Some? && audio.Url? && reply.Failure? ==> r == Failure(ProviderError(API_ERROR, reply.error))
      ensures config.Some? && audio.Url? && reply.Success? && reply.value.Listened? ==>
        r == Success(NormalizeResponse(reply.value.response))
      ensures config.Some? && audio.Url? && reply.Success? && reply.value.Accepted? ==>
        r == Success(AcceptedResponse(reply.value.requestId, reply.value.serialized))
    {
      sent := None;
      if config.None? {
        return Failure(NotInitialized), sent;
      }
      var audioUrl: string;
      match audio {
        case Url(url) =>
          audioUrl := url;
        case Bytes(_, _) =>
          return Failure(NotSupported("File upload not yet implemented - use URL input")), sent;
        case Stream =>
          return Failure(NotSupported("Use transcribe_stream for streaming audio")), sent;
      }
      sent := Some(BuildListenRequest(audioUrl, options));
      match reply {
        case Failure(e) =>
          r := Failure(ProviderError(API_ERROR, e));
        case Success(Listened(resp)) =>
          r := Success(NormalizeResponse(resp));
        case Success(Accepted(requestId, serialized)) =>
          r := Success(AcceptedResponse(requestId, serialized));
      }
    }

    /** Deepgram keeps no jobs to fetch, initialised or not. */
    method GetTranscript(transcriptId: string) returns (r: Result<UnifiedTranscriptResponse, AdapterError>)
      ensures r == Failure(NotSupported(SYNCHRONOUS_MESSAGE))
    {
      r := Failure(NotSupported(SYNCHRONOUS_MESSAGE));
    }
  }
}
