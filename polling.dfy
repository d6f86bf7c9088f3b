/** The status polling that the AssemblyAI and Gladia adapters run after
    submitting a job: up to 120 status requests, stopping at the first
    failed request or the first terminal status, one second apart (the pause
    is not modelled). The replies of the vendor are given as a sequence:
    `fetches[i]` is the reply to the i-th status request. */
module Polling {
  import opened Wrappers
  import opened Strings
  import opened Types
  import opened Adapters

  const MAX_ATTEMPTS: nat := 120

  const API_ERROR: string := "API_ERROR"

  /** The reply once every attempt has come back unfinished. */
  function TimeoutResponse(provider: TranscriptionProvider): (r: UnifiedTranscriptResponse)
    ensures WellFormed(r) && !r.success && r.provider == provider && r.raw.None?
    ensures r.error.value.code == "POLLING_TIMEOUT"
    ensures r.error.value.message ==
      "Transcription did not complete after " + NatToString(MAX_ATTEMPTS) + " attempts"
  {
    UnifiedTranscriptResponse(false, provider, None,
      Some(TranscriptionError("POLLING_TIMEOUT",
        "Transcription did not complete after " + NatToString(MAX_ATTEMPTS) + " attempts",
        None, None)),
      None)
  }

  /** A reply that ends the polling: a failed request or a terminal job. */
  predicate Stops<T>(reply: Result<T, string>, terminal: T -> bool) {
    reply.Failure? || terminal(reply.value)
  }

  /** What the polling returns for a reply that ends it. */
  function StopResult<T>(reply: Result<T, string>, normalize: T -> UnifiedTranscriptResponse)
    : Result<UnifiedTranscriptResponse, AdapterError>
  {
    match reply
    case Failure(e) => Failure(ProviderError(API_ERROR, e))
    case Success(job) => Success(normalize(job))
  }

  /** The outcome of polling from attempt `k` on, with the number of
      requests made by then. */
  function PollFrom<T>(fetches: seq<Result<T, string>>, k: nat, terminal: T -> bool,
                       normalize: T -> UnifiedTranscriptResponse, provider: TranscriptionProvider)
    : (Result<UnifiedTranscriptResponse, AdapterError>, nat)
    requires k <= MAX_ATTEMPTS <= |fetches|
    decreases MAX_ATTEMPTS - k
  {
    if k == MAX_ATTEMPTS then (Success(TimeoutResponse(provider)), MAX_ATTEMPTS)
    else if Stops(fetches[k], terminal) then (StopResult(fetches[k], normalize), k + 1)
    else PollFrom(fetches, k + 1, terminal, normalize, provider)
  }

  /** Polling makes at most 120 requests; every request before the last
      came back unfinished; the last one decides the outcome if it ended
      the polling, and otherwise all 120 came back unfinished and the
      outcome is the timeout reply. */
  lemma {:induction false} PollStopsAtFirstStop<T>(fetches: seq<Result<T, string>>, k: nat,
      terminal: T -> bool, normalize: T -> UnifiedTranscriptResponse, provider: TranscriptionProvider)
    requires k <= MAX_ATTEMPTS <= |fetches|
    ensures var (r, n) := PollFrom(fetches, k, terminal, normalize, provider);
      k <= n <= MAX_ATTEMPTS &&
      (k < MAX_ATTEMPTS ==> k < n) &&
      (forall i :: k <= i < n - 1 ==> !Stops(fetches[i], terminal)) &&
      (if k < n && Stops(fetches[n - 1], terminal)
       then r == StopResult(fetches[n - 1], normalize)
       else n == MAX_ATTEMPTS && r == Success(TimeoutResponse(provider)) &&
            (forall i :: k <= i < MAX_ATTEMPTS ==> !Stops(fetches[i], terminal)))
    decreases MAX_ATTEMPTS - k
  {
    if k < MAX_ATTEMPTS && !Stops(fetches[k], terminal) {
      PollStopsAtFirstStop(fetches, k + 1, terminal, normalize, provider);
    }
  }

  /** Replies after the one that ended the polling make no difference. */
  lemma {:induction false} PollIgnoresLaterReplies<T>(a: seq<Result<T, string>>, b: seq<Result<T, string>>,
      k: nat, terminal: T -> bool, normalize: T -> UnifiedTranscriptResponse, provider: TranscriptionProvider)
    requires k <= MAX_ATTEMPTS <= |a| && MAX_ATTEMPTS <= |b|
    requires var n := PollFrom(a, k, terminal, normalize, provider).1;
      forall i :: k <= i < n && i < MAX_ATTEMPTS ==> a[i] == b[i]
    ensures PollFrom(a, k, terminal, normalize, provider) == PollFrom(b, k, terminal, normalize, provider)
    decreases MAX_ATTEMPTS - k
  {
    if k < MAX_ATTEMPTS && !Stops(a[k], terminal) {
      PollStopsAtFirstStop(a, k + 1, terminal, normalize, provider);
      PollIgnoresLaterReplies(a, b, k + 1, terminal, normalize, provider);
    }
  }
}
