/** The webhook router (rust-sdk/src/webhooks/mod.rs): decides from the
    shape of a decoded callback which provider sent it, and delegates to that
    provider's handler. Decoding the bytes is left to the JSON library; its
    outcome is the `decoded` parameter, with the library's error message on
    failure. */
module Webhooks {
  import opened Wrappers
  import opened Strings
  import opened Json
  import opened Types
  import opened WebhookTypes
  import GladiaWebhook

  const GLADIA_EVENT_PREFIX: string := "transcription."
  const ASSEMBLYAI_NAME: string := "assemblyai"

  /** The callback's `event` names a Gladia transcription event. */
  predicate IsGladiaShape(json: Json) {
    var event := StrOf(Get(json, "event"));
    event.Some? && StartsWith(event.value, GLADIA_EVENT_PREFIX)
  }

  /** The callback has the `status` and `id` members of an AssemblyAI
      callback. */
  predicate IsAssemblyAIShape(json: Json) {
    Get(json, "status").Some? && Get(json, "id").Some?
  }

  /** `WebhookRouter::route`. */
  function Route(decoded: Result<Json, string>, timestamp: string): (r: Result<UnifiedWebhookEvent, WebhookError>)
    ensures decoded.Failure? ==> r == Failure(JsonError(decoded.error))
    ensures decoded.Success? && IsGladiaShape(decoded.value) ==>
      r == GladiaWebhook.Parse(decoded.value, timestamp)
    ensures decoded.Success? && !IsGladiaShape(decoded.value) && IsAssemblyAIShape(decoded.value) ==>
      r == Failure(UnsupportedProvider(ASSEMBLYAI_NAME))
    ensures decoded.Success? && !IsGladiaShape(decoded.value) && !IsAssemblyAIShape(decoded.value) ==>
      r == Failure(UnknownProvider)
  {
    match decoded
    case Failure(message) => Failure(JsonError(message))
    case Success(json) =>
      var event := StrOf(Get(json, "event"));
      if event.Some? && StartsWith(event.value, GLADIA_EVENT_PREFIX) then GladiaWebhook.Parse(json, timestamp)
      else if Get(json, "status").Some? && Get(json, "id").Some? then Failure(UnsupportedProvider(ASSEMBLYAI_NAME))
      else Failure(UnknownProvider)
  }

  /** `WebhookRouter::parse` for a named provider: only Gladia has a
      handler. */
  function ParseFor(provider: TranscriptionProvider, decoded: Result<Json, string>, timestamp: string): (r: Result<UnifiedWebhookEvent, WebhookError>)
    ensures decoded.Failure? ==> r == Failure(JsonError(decoded.error))
    ensures decoded.Success? && provider == Gladia ==> r == GladiaWebhook.Parse(decoded.value, timestamp)
    ensures decoded.Success? && provider != Gladia ==> r == Failure(UnsupportedProvider(ProviderDebugName(provider)))
  {
    match decoded
    case Failure(message) => Failure(JsonError(message))
    case Success(json) =>
      if provider == Gladia then GladiaWebhook.Parse(json, timestamp)
      else Failure(UnsupportedProvider(ProviderDebugName(provider)))
  }

  /** Both Gladia event names carry the prefix the router looks for. */
  lemma GladiaEventsHavePrefix()
    ensures StartsWith(GladiaWebhook.SUCCESS_EVENT, GLADIA_EVENT_PREFIX)
    ensures StartsWith(GladiaWebhook.ERROR_EVENT, GLADIA_EVENT_PREFIX)
  {
    assert GladiaWebhook.SUCCESS_EVENT[..|GLADIA_EVENT_PREFIX|] == GLADIA_EVENT_PREFIX;
    assert GladiaWebhook.ERROR_EVENT[..|GLADIA_EVENT_PREFIX|] == GLADIA_EVENT_PREFIX;
  }

  /** Auto-detection loses nothing: every callback the Gladia handler
      accepts is routed to it, so routing and naming Gladia explicitly give
      the same event. */
  lemma RouteAgreesWithGladia(decoded: Result<Json, string>, timestamp: string)
    requires ParseFor(Gladia, decoded, timestamp).Success?
    ensures Route(decoded, timestamp) == ParseFor(Gladia, decoded, timestamp)
  {
    GladiaEventsHavePrefix();
  }

  /** Every event the router produces comes from Gladia, and only from a
      callback whose `event` is one of Gladia's two event names. */
  lemma RoutedEventsAreGladia(decoded: Result<Json, string>, timestamp: string)
    requires Route(decoded, timestamp).Success?
    ensures decoded.Success?
    ensures Route(decoded, timestamp).value.provider == Gladia
    ensures StrOf(Get(decoded.value, "event")) == Some(GladiaWebhook.SUCCESS_EVENT)
         || StrOf(Get(decoded.value, "event")) == Some(GladiaWebhook.ERROR_EVENT)
  {
  }

  /** A callback that merely looks like AssemblyAI's is still routed to the
      Gladia handler when its `event` carries the Gladia prefix, so the
      Gladia check takes precedence. */
  lemma GladiaShapeTakesPrecedence(json: Json, timestamp: string)
    requires IsGladiaShape(json) && IsAssemblyAIShape(json)
    ensures Route(Success(json), timestamp) == GladiaWebhook.Parse(json, timestamp)
    ensures Route(Success(json), timestamp) != Failure(UnsupportedProvider(ASSEMBLYAI_NAME))
  {
  }
}
