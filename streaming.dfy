/** Streaming helpers shared by the adapters (rust-sdk/src/adapters/streaming.rs):
    the streaming encodings and their provider names, the audio buffer that
    cuts outgoing audio into bounded chunks, and the open, close and error
    events. The WebSocket connection wrapper and the session id generator
    are not part of this model. */
module Streaming {
  import opened Wrappers
  import opened Strings
  import opened Sequences
  import opened Types

  datatype StreamEncoding = Pcm16 | Mulaw | Alaw | Opus | Flac | Mp3

  function ToDeepgram(e: StreamEncoding): string {
    match e
    case Pcm16 => "linear16"
    case Mulaw => "mulaw"
    case Alaw => "alaw"
    case Opus => "opus"
    case Flac => "flac"
    case Mp3 => "mp3"
  }

  /** AssemblyAI's name; encodings it has no name for fall back to PCM. */
  function ToAssemblyAI(e: StreamEncoding): string {
    match e
    case Mulaw => "pcm_mulaw"
    case Alaw => "pcm_alaw"
    case _ => "pcm_s16le"
  }

  /** Gladia's name; encodings it has no name for fall back to PCM. */
  function ToGladia(e: StreamEncoding): string {
    match e
    case Mulaw => "wav/mulaw"
    case Alaw => "wav/alaw"
    case _ => "wav/pcm"
  }

  /** Parses a streaming encoding name, ignoring case; accepts the
      Deepgram, AssemblyAI and Gladia names and the common PCM aliases. */
  function FromStr(s: string): (r: Option<StreamEncoding>)
  {
    var l := ToLower(s);
    if l == "linear16" || l == "pcm_s16le" || l == "pcm16" || l == "pcm" || l == "wav/pcm" then Some(Pcm16)
    else if l == "mulaw" || l == "pcm_mulaw" || l == "wav/mulaw" then Some(Mulaw)
    else if l == "alaw" || l == "pcm_alaw" || l == "wav/alaw" then Some(Alaw)
    else if l == "opus" then Some(Opus)
    else if l == "flac" then Some(Flac)
    else if l == "mp3" then Some(Mp3)
    else None
  }

  /** Deepgram has a name for every streaming encoding and the parser
      reads each back. */
  lemma DeepgramNameRoundTrip(e: StreamEncoding)
    ensures FromStr(ToDeepgram(e)) == Some(e)
  {
    assert IsLower(ToDeepgram(e));
    LowerOfLower(ToDeepgram(e));
  }

  /** AssemblyAI's names read back as the same encoding for the three
      PCM-family encodings and as PCM for every other one. */
  lemma AssemblyAINameRoundTrip(e: StreamEncoding)
    ensures FromStr(ToAssemblyAI(e)) == Some(if e in {Mulaw, Alaw} then e else Pcm16)
  {
    assert IsLower(ToAssemblyAI(e));
    LowerOfLower(ToAssemblyAI(e));
  }

  /** Gladia's names read back as the same encoding for the three
      PCM-family encodings and as PCM for every other one. */
  lemma GladiaNameRoundTrip(e: StreamEncoding)
    ensures FromStr(ToGladia(e)) == Some(if e in {Mulaw, Alaw} then e else Pcm16)
  {
    assert IsLower(ToGladia(e));
    LowerOfLower(ToGladia(e));
  }

  /** Parsing ignores case. */
  lemma FromStrIgnoresCase(s: string)
    ensures FromStr(ToLower(s)) == FromStr(s)
  {
    ToLowerIdempotent(s);
  }

  // ---------------------------------------------------------------------
  // Audio buffer

  /** The chunks of exactly `max` bytes that can be cut from the front of
      `s`, and what remains. */
  function Frames(s: seq<u8>, max: nat): (r: (seq<seq<u8>>, seq<u8>))
    requires max > 0
    ensures forall i :: 0 <= i < |r.0| ==> |r.0[i]| == max
    ensures |r.1| < max
    ensures Flatten(r.0) + r.1 == s
    ensures |r.0| * max + |r.1| == |s|
    decreases |s|
  {
    if |s| < max then ([], s)
    else
      var rest := Frames(s[max..], max);
      assert Flatten([s[..max]] + rest.0) == s[..max] + Flatten(rest.0) by {
        assert ([s[..max]] + rest.0)[1..] == rest.0;
      }
      assert (1 + |rest.0|) * max == max + |rest.0| * max;
      ([s[..max]] + rest.0, rest.1)
  }

  /** Accumulates outgoing audio and hands it out in chunks of at most
      `maxBytes`. */
  class AudioBuffer {
    var buffer: seq<u8>
    const minBytes: nat
    const maxBytes: nat

    constructor New(minBytes: nat, maxBytes: nat)
      ensures this.minBytes == minBytes && this.maxBytes == maxBytes
      ensures buffer == []
    {
      this.minBytes := minBytes;
      this.maxBytes := maxBytes;
      buffer := [];
    }

    /** The AssemblyAI sizes: 50 ms to 1000 ms of 16 kHz 16-bit mono audio,
        at 32 bytes per millisecond. */
    constructor ForAssemblyAI()
      ensures minBytes == 50 * 32 && maxBytes == 1000 * 32
      ensures buffer == []
    {
      minBytes := 1_600;
      maxBytes := 32_000;
      buffer := [];
    }

    /** Appends `data` and cuts as many `maxBytes` chunks as it can from the
        front. A limit of zero would never stop cutting, so it is excluded. */
    method Add(data: seq<u8>) returns (chunks: seq<seq<u8>>)
      requires maxBytes > 0
      modifies this
      ensures (chunks, buffer) == Frames(old(buffer) + data, maxBytes)
    {
      ghost var all := old(buffer) + data;
      buffer := buffer + data;
      chunks := [];
      while |buffer| >= maxBytes
        invariant chunks + Frames(buffer, maxBytes).0 == Frames(all, maxBytes).0
        invariant Frames(buffer, maxBytes).1 == Frames(all, maxBytes).1
        decreases |buffer|
      {
        var chunk := buffer[..maxBytes];
        ghost var before := buffer;
        buffer := buffer[maxBytes..];
        assert Frames(before, maxBytes).0 == [chunk] + Frames(buffer, maxBytes).0;
        chunks := chunks + [chunk];
      }
      assert chunks + [] == chunks;
    }

    /** Hands out whatever is buffered, however little: the minimum size
        decides nothing except that an empty buffer with a zero minimum
        still yields an (empty) chunk. */
    method Flush() returns (chunk: Option<seq<u8>>)
      modifies this
      ensures buffer == []
      ensures chunk == if old(buffer) != [] || minBytes == 0 then Some(old(buffer)) else None
    {
      if |buffer| >= minBytes {
        chunk := Some(buffer);
        buffer := [];
      } else if buffer != [] {
        chunk := Some(buffer);
        buffer := [];
      } else {
        chunk := None;
      }
    }
  }

  /** With the AssemblyAI sizes, 40000 buffered bytes give one full
      32000-byte chunk and leave 8000 bytes for the final flush. */
  lemma AssemblyAIChunking(s: seq<u8>)
    requires |s| == 40_000
    ensures |Frames(s, 32_000).0| == 1
    ensures |Frames(s, 32_000).1| == 8_000
  {
  }

  // ---------------------------------------------------------------------
  // Events

  /** An event that carries nothing besides its type and its error. */
  predicate NoPayload(ev: StreamEvent) {
    ev.text.None? && ev.isFinal.None? && ev.utterance.None? && ev.words.None? &&
    ev.speaker.None? && ev.confidence.None? && ev.data.None?
  }

  function MakeErrorEvent(code: string, message: string): (ev: StreamEvent)
    ensures ev.eventType == ErrorEvent && NoPayload(ev)
    ensures ev.error == Some(TranscriptionError(code, message, None, None))
  {
    StreamEvent(ErrorEvent, None, None, None, None, None, None,
      Some(TranscriptionError(code, message, None, None)), None)
  }

  function MakeOpenEvent(): (ev: StreamEvent)
    ensures ev.eventType == OpenEvent && NoPayload(ev) && ev.error.None?
  {
    StreamEvent(OpenEvent, None, None, None, None, None, None, None, None)
  }

  function MakeCloseEvent(): (ev: StreamEvent)
    ensures ev.eventType == CloseEvent && NoPayload(ev) && ev.error.None?
  {
    StreamEvent(CloseEvent, None, None, None, None, None, None, None, None)
  }
}
