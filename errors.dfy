/** The SDK's standard error codes, their default messages, and the
    standard error object (rust-sdk/src/errors.rs). */
module Errors {
  import opened Wrappers
  import opened Json
  import opened Types

  const PARSE_ERROR: string := "PARSE_ERROR"
  const WEBSOCKET_ERROR: string := "WEBSOCKET_ERROR"
  const POLLING_TIMEOUT: string := "POLLING_TIMEOUT"
  const TRANSCRIPTION_ERROR: string := "TRANSCRIPTION_ERROR"
  const CONNECTION_TIMEOUT: string := "CONNECTION_TIMEOUT"
  const INVALID_INPUT: string := "INVALID_INPUT"
  const NOT_SUPPORTED: string := "NOT_SUPPORTED"
  const NO_RESULTS: string := "NO_RESULTS"
  const UNKNOWN_ERROR: string := "UNKNOWN_ERROR"

  const UNKNOWN_MESSAGE: string := "An unknown error occurred"

  /** The codes that have a message of their own; `UNKNOWN_ERROR` is not
      one of them and shares the fallback message with every unlisted code. */
  const CODES_WITH_MESSAGE: seq<string> := [
    PARSE_ERROR, WEBSOCKET_ERROR, POLLING_TIMEOUT, TRANSCRIPTION_ERROR,
    CONNECTION_TIMEOUT, INVALID_INPUT, NOT_SUPPORTED, NO_RESULTS]

  /** The default message for an error code. */
  function GetErrorMessage(code: string): (m: string)
    ensures code in CODES_WITH_MESSAGE <==> m != UNKNOWN_MESSAGE
    ensures code == UNKNOWN_ERROR ==> m == UNKNOWN_MESSAGE
  {
    if code == PARSE_ERROR then "Failed to parse response data"
    else if code == WEBSOCKET_ERROR then "WebSocket connection error"
    else if code == POLLING_TIMEOUT then "Transcription did not complete within timeout period"
    else if code == TRANSCRIPTION_ERROR then "Transcription processing failed"
    else if code == CONNECTION_TIMEOUT then "Connection attempt timed out"
    else if code == INVALID_INPUT then "Invalid input provided"
    else if code == NOT_SUPPORTED then "Operation not supported by this provider"
    else if code == NO_RESULTS then "No transcription results available"
    else UNKNOWN_MESSAGE
  }

  /** The code a default message belongs to, when it is not the fallback.
      The eight messages have eight different lengths, so the length picks
      the one candidate. */
  function CodeOfMessage(m: string): Option<string>
  {
    match |m|
    case 29 => if m == "Failed to parse response data" then Some(PARSE_ERROR) else None
    case 26 => if m == "WebSocket connection error" then Some(WEBSOCKET_ERROR) else None
    case 52 => if m == "Transcription did not complete within timeout period" then Some(POLLING_TIMEOUT) else None
    case 31 => if m == "Transcription processing failed" then Some(TRANSCRIPTION_ERROR) else None
    case 28 => if m == "Connection attempt timed out" then Some(CONNECTION_TIMEOUT) else None
    case 22 => if m == "Invalid input provided" then Some(INVALID_INPUT) else None
    case 40 => if m == "Operation not supported by this provider" then Some(NOT_SUPPORTED) else None
    case 34 => if m == "No transcription results available" then Some(NO_RESULTS) else None
    case _ => None
  }

  /** The default messages invert back to their codes. */
  lemma MessageRoundTrip(code: string)
    requires code in CODES_WITH_MESSAGE
    ensures CodeOfMessage(GetErrorMessage(code)) == Some(code)
  {
    if code == PARSE_ERROR {
      assert GetErrorMessage(code) == "Failed to parse response data";
    } else if code == WEBSOCKET_ERROR {
      assert GetErrorMessage(code) == "WebSocket connection error";
    } else if code == POLLING_TIMEOUT {
      assert GetErrorMessage(code) == "Transcription did not complete within timeout period";
    } else if code == TRANSCRIPTION_ERROR {
      assert GetErrorMessage(code) == "Transcription processing failed";
    } else if code == CONNECTION_TIMEOUT {
      assert GetErrorMessage(code) == "Connection attempt timed out";
    } else if code == INVALID_INPUT {
      assert GetErrorMessage(code) == "Invalid input provided";
    } else if code == NOT_SUPPORTED {
      assert GetErrorMessage(code) == "Operation not supported by this provider";
    } else {
      assert GetErrorMessage(code) == "No transcription results available";
    }
  }

  /** Every code with a message of its own has a different one, so a
      default message other than the fallback names its code. */
  lemma MessageIdentifiesCode(a: string, b: string)
    requires GetErrorMessage(a) == GetErrorMessage(b) != UNKNOWN_MESSAGE
    ensures a == b
  {
    MessageRoundTrip(a);
    MessageRoundTrip(b);
  }

  datatype StandardError = StandardError(
    code: string,
    message: string,
    statusCode: Option<u16>,
    details: Option<Json>)

  /** `StandardError::new`: the custom message when one is given, the
      code's default message otherwise; no status code. */
  function NewStandardError(code: string, customMessage: Option<string>, details: Option<Json>)
    : (e: StandardError)
    ensures e.code == code && e.details == details && e.statusCode.None?
    ensures customMessage.Some? ==> e.message == customMessage.value
    ensures customMessage.None? ==> e.message == GetErrorMessage(code)
  {
    StandardError(code, customMessage.GetOr(GetErrorMessage(code)), None, details)
  }

  /** `with_status_code`: sets the status code and nothing else. */
  function WithStatusCode(e: StandardError, statusCode: u16): (r: StandardError)
    ensures r.statusCode == Some(statusCode)
    ensures r.code == e.code && r.message == e.message && r.details == e.details
  {
    e.(statusCode := Some(statusCode))
  }

  /** The `Display` rendering `[code] message`: the code sits between the
      opening bracket and the first closing bracket when it has none of its
      own, and the message follows after one space. */
  function Display(e: StandardError): (s: string)
    ensures |s| == |e.code| + |e.message| + 3
    ensures s[0] == '[' && s[|e.code| + 1] == ']' && s[|e.code| + 2] == ' '
    ensures s[1..|e.code| + 1] == e.code
    ensures s[|e.code| + 3..] == e.message
  {
    "[" + e.code + "] " + e.message
  }

  /** Reading the code back from a rendering: everything between the first
      `[` and the first `]`. */
  function CodeOfDisplay(s: string): string
  {
    if s == [] || s[0] != '[' then "" else TakeUntilBracket(s[1..])
  }

  function TakeUntilBracket(s: string): string
  {
    if s == [] || s[0] == ']' then "" else [s[0]] + TakeUntilBracket(s[1..])
  }

  /** The rendering keeps the code recoverable whenever the code itself
      contains no closing bracket. */
  lemma DisplayCodeRoundTrip(e: StandardError)
    requires ']' !in e.code
    ensures CodeOfDisplay(Display(e)) == e.code
  {
    var s := Display(e);
    TakeUntilBracketPrefix(e.code, s[|e.code| + 1..]);
    assert s[1..] == e.code + s[|e.code| + 1..];
  }

  lemma {:induction false} TakeUntilBracketPrefix(code: string, rest: string)
    requires ']' !in code && rest != [] && rest[0] == ']'
    ensures TakeUntilBracket(code + rest) == code
  {
    if code == [] {
      assert code + rest == rest;
    } else {
      assert (code + rest)[1..] == code[1..] + rest;
      TakeUntilBracketPrefix(code[1..], rest);
    }
  }
}
