/** The Gladia webhook handler (rust-sdk/src/webhooks/gladia.rs): turns a
    decoded Gladia callback into the provider-agnostic webhook event. The
    moment of parsing, which the source reads from the clock, is a
    parameter. */
module GladiaWebhook {
  import opened Wrappers
  import opened Strings
  import opened Sequences
  import opened Json
  import opened Types
  import opened WebhookTypes
  import GladiaAdapter = Gladia

  const SUCCESS_EVENT: string := "transcription.success"
  const ERROR_EVENT: string := "transcription.error"
  const DEFAULT_ERROR_MESSAGE: string := "Transcription failed"

  // ---------------------------------------------------------------------
  // Words and utterances

  /** `map_word`: a word is kept exactly when it has a string `word` and
      numeric `start` and `end`; it carries no speaker. */
  function MapWord(w: Json): (r: Option<Word>)
    ensures r.Some? <==>
      StrOf(Get(w, "word")).Some? && F64Of(Get(w, "start")).Some? && F64Of(Get(w, "end")).Some?
    ensures r.Some? ==>
      StrOf(Get(w, "word")) == Some(r.value.text)
      && F64Of(Get(w, "start")) == Some(r.value.start)
      && F64Of(Get(w, "end")) == Some(r.value.end)
      && r.value.confidence == F64Of(Get(w, "confidence"))
      && r.value.speaker.None?
  {
    var text, start, end := StrOf(Get(w, "word")), F64Of(Get(w, "start")), F64Of(Get(w, "end"));
    if text.Some? && start.Some? && end.Some? then
      Some(Word(text.value, start.value, end.value, F64Of(Get(w, "confidence")), None))
    else None
  }

  /** `filter_map(map_word)`: the words that map, in order. */
  function MapWords(items: seq<Json>): (r: seq<Word>)
    ensures |r| <= |items|
    ensures forall x :: x in r <==> exists i :: 0 <= i < |items| && MapWord(items[i]) == Some(x)
  {
    var mapped := seq(|items|, i requires 0 <= i < |items| => MapWord(items[i]));
    assert forall i :: 0 <= i < |items| ==> mapped[i] == MapWord(items[i]);
    Somes(mapped)
  }

  /** The words an utterance entry contributes to the flattened word list:
      those of its `words` array, whether or not the entry itself maps to an
      utterance. */
  function WordsOf(u: Json): (r: seq<Word>)
    ensures forall w :: w in r ==> w.speaker.None?
  {
    var ws := ArrayOf(Get(u, "words"));
    if ws.Some? then MapWords(ws.value) else []
  }

  /** `map_utterance`: an utterance is kept exactly when it has a string
      `text` and numeric `start` and `end`; its speaker is the decimal
      rendering of an integer `speaker`, and its words are present exactly
      when it has a `words` array. */
  function MapUtterance(u: Json): (r: Option<Utterance>)
    ensures r.Some? <==>
      StrOf(Get(u, "text")).Some? && F64Of(Get(u, "start")).Some? && F64Of(Get(u, "end")).Some?
    ensures r.Some? ==>
      StrOf(Get(u, "text")) == Some(r.value.text)
      && F64Of(Get(u, "start")) == Some(r.value.start)
      && F64Of(Get(u, "end")) == Some(r.value.end)
      && r.value.confidence == F64Of(Get(u, "confidence"))
    ensures r.Some? ==>
      (r.value.speaker.Some? <==> I64Of(Get(u, "speaker")).Some?)
      && (r.value.speaker.Some? ==> r.value.speaker.value == IntToString(I64Of(Get(u, "speaker")).value))
  {
    var words := if ArrayOf(Get(u, "words")).Some? then Some(WordsOf(u)) else None;
    var text, start, end := StrOf(Get(u, "text")), F64Of(Get(u, "start")), F64Of(Get(u, "end"));
    var speaker := I64Of(Get(u, "speaker"));
    if text.Some? && start.Some? && end.Some? then
      Some(Utterance(text.value, start.value, end.value,
                     SpeakerName(speaker),
                     F64Of(Get(u, "confidence")), words))
    else None
  }

  /** A mapped utterance carries exactly the words its entry contributes to
      the flattened list, so the two views of the words agree. */
  lemma UtteranceWordsAgree(u: Json)
    requires MapUtterance(u).Some?
    ensures MapUtterance(u).value.words.Some? <==> ArrayOf(Get(u, "words")).Some?
    ensures MapUtterance(u).value.words.Some? ==> MapUtterance(u).value.words.value == WordsOf(u)
  {
  }

  /** `filter_map(map_utterance)`. */
  function MapUtterances(arr: seq<Json>): (r: seq<Utterance>)
    ensures |r| <= |arr|
    ensures forall x :: x in r <==> exists i :: 0 <= i < |arr| && MapUtterance(arr[i]) == Some(x)
  {
    var mapped := seq(|arr|, i requires 0 <= i < |arr| => MapUtterance(arr[i]));
    assert forall i :: 0 <= i < |arr| ==> mapped[i] == MapUtterance(arr[i]);
    Somes(mapped)
  }

  /** The words of all utterance entries, flattened in order. */
  function FlatWords(arr: seq<Json>): (r: seq<Word>)
    ensures forall w :: w in r ==> w.speaker.None?
  {
    if arr == [] then [] else WordsOf(arr[0]) + FlatWords(arr[1..])
  }

  lemma {:induction false} FlatWordsAppend(a: seq<Json>, b: seq<Json>)
    ensures FlatWords(a + b) == FlatWords(a) + FlatWords(b)
  {
    if a == [] {
      assert a + b == b;
    } else {
      assert FlatWords(a + b) == WordsOf(a[0]) + FlatWords(a[1..] + b) by {
        assert (a + b)[0] == a[0];
        assert (a + b)[1..] == a[1..] + b;
      }
      FlatWordsAppend(a[1..], b);
    }
  }

  /** Flattening keeps the entries' order: the words of `arr + [u]` are
      those of `arr` followed by those of `u`, even when `u` is dropped from
      the utterance list. */
  lemma FlatWordsSnoc(arr: seq<Json>, u: Json)
    ensures FlatWords(arr + [u]) == FlatWords(arr) + WordsOf(u)
  {
    FlatWordsAppend(arr, [u]);
    assert FlatWords([u]) == WordsOf(u) + FlatWords([]);
  }

  // ---------------------------------------------------------------------
  // Speakers and summary

  /** The distinct integer speaker tags of the utterance entries (the
      `HashSet<i64>` of the source). */
  function SpeakerTags(arr: seq<Json>): (tags: seq<int>)
    ensures NoDuplicates(tags)
    ensures forall x :: x in tags <==> exists i :: 0 <= i < |arr| && I64Of(Get(arr[i], "speaker")) == Some(x)
  {
    var found := seq(|arr|, i requires 0 <= i < |arr| => I64Of(Get(arr[i], "speaker")));
    assert forall i :: 0 <= i < |arr| ==> found[i] == I64Of(Get(arr[i], "speaker"));
    Dedup(Somes(found))
  }

  /** One unlabelled speaker per tag, named by the tag. */
  function TagSpeakers(ids: seq<int>): (r: seq<Speaker>)
    requires NoDuplicates(ids)
    ensures |r| == |ids|
    ensures NoDuplicates(SpeakerIds(r))
    ensures forall x: int :: IntToString(x) in SpeakerIds(r) <==> x in ids
    ensures forall s :: s in r ==> s.speakerLabel.None? && s.confidence.None?
  {
    var names := seq(|ids|, i requires 0 <= i < |ids| => IntToString(ids[i]));
    var speakers := seq(|ids|, i requires 0 <= i < |ids| => Speaker(names[i], None, None));
    GladiaAdapter.TagNames(ids);
    assert SpeakerIds(speakers) == names;
    speakers
  }

  /** One speaker per distinct tag, named by the tag and unlabelled;
      nothing when no entry has an integer speaker. */
  function UniqueSpeakers(arr: seq<Json>): (r: Option<seq<Speaker>>)
    ensures r.None? <==> forall i :: 0 <= i < |arr| ==> I64Of(Get(arr[i], "speaker")).None?
    ensures r.Some? ==> NoDuplicates(SpeakerIds(r.value))
    ensures r.Some? ==> forall x: int :: IntToString(x) in SpeakerIds(r.value) <==>
      exists i :: 0 <= i < |arr| && I64Of(Get(arr[i], "speaker")) == Some(x)
    ensures r.Some? ==> forall s :: s in r.value ==> s.speakerLabel.None? && s.confidence.None?
  {
    var ids := SpeakerTags(arr);
    if ids == [] then
      None
    else
      assert ids[0] in ids;
      Some(TagSpeakers(ids))
  }

  /** The summary is read only when `summarization.success` is `true` and
      `summarization.results` is a string. */
  function SummaryOf(result: Json): (r: Option<string>)
    ensures var s := Get(result, "summarization");
      (r.Some? <==> BoolOf(Field(s, "success")) == Some(true) && StrOf(Field(s, "results")).Some?)
      && (r.Some? ==> r == StrOf(Field(s, "results")))
  {
    var s := Get(result, "summarization");
    if BoolOf(Field(s, "success")).GetOr(false) then StrOf(Field(s, "results")) else None
  }

  // ---------------------------------------------------------------------
  // Events

  /** The utterance entries of the transcription, when there is an array
      of them. */
  function UtteranceEntries(transcription: Option<Json>): (r: Option<seq<Json>>)
    ensures r.Some? <==> ArrayOf(Field(transcription, "utterances")).Some?
  {
    ArrayOf(Field(transcription, "utterances"))
  }

  /** The first entry of an optional array, when it is a string. */
  function FirstStr(items: Option<seq<Json>>): (r: Option<string>)
    ensures r.Some? <==> items.Some? && |items.value| > 0 && items.value[0].JStr?
  {
    if items.Some? && |items.value| > 0 then AsStr(items.value[0]) else None
  }

  /** The metadata of a successful event: three fields of the job's
      metadata and the callback's `custom_metadata`, each null when absent. */
  function SuccessMetadata(payload: Json, metadata: Option<Json>): Json {
    JObj(map[
      "transcription_time" := OrNull(Field(metadata, "transcription_time")),
      "billing_time" := OrNull(Field(metadata, "billing_time")),
      "number_of_distinct_channels" := OrNull(Field(metadata, "number_of_distinct_channels")),
      "custom_metadata" := OrNull(Get(payload, "custom_metadata"))])
  }

  /** `parse_success`: a completed, successful Gladia event for job `id`;
      the whole callback is kept verbatim as `raw`. */
  function ParseSuccess(id: string, payload: Json, timestamp: string): (r: Result<UnifiedWebhookEvent, WebhookError>)
    ensures r.Failure? <==> Get(payload, "payload").None?
    ensures r.Failure? ==> r.error == InvalidPayload("Missing 'payload' field")
    ensures r.Success? ==>
      var e := r.value;
      e.success && e.provider == Gladia && e.eventType == TranscriptionCompleted
      && e.timestamp == timestamp && e.raw == Some(payload)
      && e.data.Some? && e.data.value.id == id && e.data.value.status == Completed
      && e.data.value.error.None? && e.data.value.confidence.None? && e.data.value.metadata.Some?
    ensures r.Success? ==>
      var d := r.value.data.value;
      var transcription := Field(Get(payload, "payload"), "transcription");
      var entries := UtteranceEntries(transcription);
      d.text == StrOf(Field(transcription, "full_transcript"))
      && d.duration == F64Of(Field(Field(Get(payload, "payload"), "metadata"), "audio_duration"))
      && d.language == FirstStr(ArrayOf(Field(transcription, "languages")))
      && d.metadata == Some(SuccessMetadata(payload, Get(Get(payload, "payload").value, "metadata")))
      && d.summary == SummaryOf(Get(payload, "payload").value)
      && (d.words.Some? <==> entries.Some?) && (d.utterances.Some? <==> entries.Some?)
      && (entries.Some? ==> d.words == Some(FlatWords(entries.value))
                            && d.utterances == Some(MapUtterances(entries.value))
                            && d.speakers == UniqueSpeakers(entries.value))
      && (entries.None? ==> d.speakers.None?)
  {
    match Get(payload, "payload")
    case None => Failure(InvalidPayload("Missing 'payload' field"))
    case Some(result) =>
      var transcription := Get(result, "transcription");
      var metadata := Get(result, "metadata");
      var entries := UtteranceEntries(transcription);
      var data := WebhookTranscriptionData(
        id := id,
        status := Completed,
        text := StrOf(Field(transcription, "full_transcript")),
        confidence := None,
        duration := F64Of(Field(metadata, "audio_duration")),
        language := FirstStr(ArrayOf(Field(transcription, "languages"))),
        speakers := if entries.Some? then UniqueSpeakers(entries.value) else None,
        words := if entries.Some? then Some(FlatWords(entries.value)) else None,
        utterances := if entries.Some? then Some(MapUtterances(entries.value)) else None,
        summary := SummaryOf(result),
        error := None,
        metadata := Some(SuccessMetadata(payload, metadata)));
      Success(UnifiedWebhookEvent(true, Gladia, TranscriptionCompleted, Some(data), timestamp, Some(payload)))
  }

  /** The metadata of a failed event: the callback's integer `error.code`
      and its `custom_metadata`, each null when absent. */
  function ErrorMetadata(payload: Json): Json {
    var code := I64Of(Field(Get(payload, "error"), "code"));
    JObj(map[
      "error_code" := if code.Some? then JInt(code.value) else JNull,
      "custom_metadata" := OrNull(Get(payload, "custom_metadata"))])
  }

  /** `parse_error`: a failed Gladia event for job `id`, carrying the
      callback's error message or the default one, and no transcript. */
  function ParseError(id: string, payload: Json, timestamp: string): (e: UnifiedWebhookEvent)
    ensures !e.success && e.provider == Gladia && e.eventType == TranscriptionFailed
    ensures e.timestamp == timestamp && e.raw == Some(payload)
    ensures e.data.Some? && e.data.value.id == id && e.data.value.status == Error
    ensures e.data.value.error == Some(StrOf(Field(Get(payload, "error"), "message")).GetOr(DEFAULT_ERROR_MESSAGE))
    ensures e.data.value.metadata == Some(ErrorMetadata(payload))
    ensures var d := e.data.value;
      d.text.None? && d.confidence.None? && d.duration.None? && d.language.None?
      && d.speakers.None? && d.words.None? && d.utterances.None? && d.summary.None?
  {
    var error := Get(payload, "error");
    var message := StrOf(Field(error, "message")).GetOr(DEFAULT_ERROR_MESSAGE);
    var data := WebhookTranscriptionData(
      id, Error, None, None, None, None, None, None, None, None, Some(message), Some(ErrorMetadata(payload)));
    UnifiedWebhookEvent(false, Gladia, TranscriptionFailed, Some(data), timestamp, Some(payload))
  }

  /** `GladiaWebhookHandler::parse`: a string `id` is required first, then
      a string `event`, which must name the success or the error event. */
  function Parse(payload: Json, timestamp: string): (r: Result<UnifiedWebhookEvent, WebhookError>)
    ensures StrOf(Get(payload, "id")).None? ==> r == Failure(InvalidPayload("Missing 'id' field"))
    ensures StrOf(Get(payload, "id")).Some? && StrOf(Get(payload, "event")).None? ==>
      r == Failure(InvalidPayload("Missing 'event' field"))
    ensures var id, event := StrOf(Get(payload, "id")), StrOf(Get(payload, "event"));
      id.Some? && event.Some? ==>
        (event.value == SUCCESS_EVENT ==> r == ParseSuccess(id.value, payload, timestamp))
        && (event.value == ERROR_EVENT ==> r == Success(ParseError(id.value, payload, timestamp)))
        && (event.value != SUCCESS_EVENT && event.value != ERROR_EVENT ==> r == Failure(UnknownEvent(event.value)))
  {
    var id := StrOf(Get(payload, "id"));
    var event := StrOf(Get(payload, "event"));
    if id.None? then Failure(InvalidPayload("Missing 'id' field"))
    else if event.None? then Failure(InvalidPayload("Missing 'event' field"))
    else if event.value == SUCCESS_EVENT then ParseSuccess(id.value, payload, timestamp)
    else if event.value == ERROR_EVENT then Success(ParseError(id.value, payload, timestamp))
    else Failure(UnknownEvent(event.value))
  }

  /** A parsed event is successful exactly when the callback named the
      success event, and it always records the callback's `id` and the whole
      callback. */
  lemma ParsedEventShape(payload: Json, timestamp: string)
    requires Parse(payload, timestamp).Success?
    ensures var e := Parse(payload, timestamp).value;
      StrOf(Get(payload, "event")) == Some(if e.success then SUCCESS_EVENT else ERROR_EVENT)
      && e.data.Some? && StrOf(Get(payload, "id")) == Some(e.data.value.id)
      && e.raw == Some(payload) && e.provider == Gladia
      && (e.success <==> e.eventType == TranscriptionCompleted)
  {
  }
}
