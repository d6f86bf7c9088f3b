/** What every provider adapter shares (rust-sdk/src/adapters/mod.rs): the
    error type and the provider configuration. */
module Adapters {
  import opened Wrappers

  datatype AdapterError =
    | HttpError(message: string)
    | WebSocketError(message: string)
    | SerializationError(message: string)
    | ProviderError(code: string, message: string)
    | NotInitialized
    | NotSupported(message: string)
    | InvalidConfig(message: string)

  datatype ProviderConfig = ProviderConfig(
    apiKey: string,
    baseUrl: Option<string>,
    timeoutMs: Option<int>,
    headers: Option<map<string, string>>)

  /** The check every adapter's `initialize` makes: an empty API key is
      refused, any other configuration is kept. */
  function CheckApiKey(config: ProviderConfig): (r: Result<ProviderConfig, AdapterError>)
    ensures r.Success? <==> config.apiKey != ""
    ensures r.Success? ==> r.value == config
    ensures r.Failure? ==> r.error == InvalidConfig("API key is required")
  {
    if config.apiKey == "" then Failure(InvalidConfig("API key is required")) else Success(config)
  }
}
