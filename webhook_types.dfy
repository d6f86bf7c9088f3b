/** The provider-agnostic webhook event and its errors
    (rust-sdk/src/webhooks/types.rs). */
module WebhookTypes {
  import opened Wrappers
  import opened Json
  import opened Types

  datatype WebhookEventType =
    TranscriptionCreated | TranscriptionProcessing | TranscriptionCompleted | TranscriptionFailed

  datatype WebhookTranscriptionData = WebhookTranscriptionData(
    id: string,
    status: TranscriptionStatus,
    text: Option<string>,
    confidence: Option<real>,
    duration: Option<real>,
    language: Option<string>,
    speakers: Option<seq<Speaker>>,
    words: Option<seq<Word>>,
    utterances: Option<seq<Utterance>>,
    summary: Option<string>,
    error: Option<string>,
    metadata: Option<Json>)

  /** `timestamp` is the RFC 3339 time at which the event was parsed. */
  datatype UnifiedWebhookEvent = UnifiedWebhookEvent(
    success: bool,
    provider: TranscriptionProvider,
    eventType: WebhookEventType,
    data: Option<WebhookTranscriptionData>,
    timestamp: string,
    raw: Option<Json>)

  datatype WebhookError =
    | JsonError(message: string)
    | InvalidPayload(message: string)
    | UnknownEvent(event: string)
    | UnknownProvider
    | UnsupportedProvider(name: string)
}
