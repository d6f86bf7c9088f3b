/** The unified audio encodings, their provider-specific names, and the
    validation of a streaming audio configuration against a provider
    (rust-sdk/src/audio_encoding.rs). */
module AudioEncoding {
  import opened Wrappers
  import opened Strings
  import Types

  datatype Encoding = Linear16 | Mulaw | Alaw | Flac | Opus | Speex | AmrNb | AmrWb | G729

  /** The canonical lower-case name of an encoding. */
  function AsStr(e: Encoding): string
  {
    match e
    case Linear16 => "linear16"
    case Mulaw => "mulaw"
    case Alaw => "alaw"
    case Flac => "flac"
    case Opus => "opus"
    case Speex => "speex"
    case AmrNb => "amr-nb"
    case AmrWb => "amr-wb"
    case G729 => "g729"
  }

  /** Every lower-case spelling the parser accepts for an encoding: the
      canonical name plus the PCM aliases used by the providers. */
  function Spellings(e: Encoding): set<string> {
    match e
    case Linear16 => {"linear16", "pcm_s16le", "pcm16", "pcm"}
    case Mulaw => {"mulaw", "pcm_mulaw"}
    case Alaw => {"alaw", "pcm_alaw"}
    case _ => {AsStr(e)}
  }

  /** Recognises a lower-case encoding name. */
  function FromLower(l: string): (r: Option<Encoding>)
    ensures r.Some? ==> l in Spellings(r.value)
  {
    if l == "linear16" || l == "pcm_s16le" || l == "pcm16" || l == "pcm" then Some(Linear16)
    else if l == "mulaw" || l == "pcm_mulaw" then Some(Mulaw)
    else if l == "alaw" || l == "pcm_alaw" then Some(Alaw)
    else if l == "flac" then Some(Flac)
    else if l == "opus" then Some(Opus)
    else if l == "speex" then Some(Speex)
    else if l == "amr-nb" then Some(AmrNb)
    else if l == "amr-wb" then Some(AmrWb)
    else if l == "g729" then Some(G729)
    else None
  }

  /** Parses an encoding name, ignoring case. */
  function FromStr(s: string): (r: Option<Encoding>)
    ensures r.Some? ==> ToLower(s) in Spellings(r.value)
  {
    FromLower(ToLower(s))
  }

  /** Every listed spelling, in any case, parses to its encoding, so no
      spelling is claimed by two encodings. */
  lemma FromStrAcceptsSpellings(s: string, e: Encoding)
    requires ToLower(s) in Spellings(e)
    ensures FromStr(s) == Some(e)
  {
    var l := ToLower(s);
    match e
    case Linear16 =>
    case Mulaw =>
    case Alaw =>
    case _ => assert l == AsStr(e);
  }

  /** The canonical name parses back to its encoding. */
  lemma FromStrAsStr(e: Encoding)
    ensures FromStr(AsStr(e)) == Some(e)
  {
    assert IsLower(AsStr(e));
    LowerOfLower(AsStr(e));
    FromStrAcceptsSpellings(AsStr(e), e);
  }

  /** Parsing ignores case. */
  lemma FromStrIgnoresCase(s: string)
    ensures FromStr(ToLower(s)) == FromStr(s)
  {
    ToLowerIdempotent(s);
  }

  /** The `{:?}` rendering of an encoding: the variant name. */
  function EncodingDebugName(e: Encoding): string {
    match e
    case Linear16 => "Linear16"
    case Mulaw => "Mulaw"
    case Alaw => "Alaw"
    case Flac => "Flac"
    case Opus => "Opus"
    case Speex => "Speex"
    case AmrNb => "AmrNb"
    case AmrWb => "AmrWb"
    case G729 => "G729"
  }

  datatype AudioSampleRate = Hz8000 | Hz16000 | Hz32000 | Hz44100 | Hz48000

  /** `as_u32`: the rate in hertz. */
  function SampleRateHz(r: AudioSampleRate): (hz: nat)
    ensures 8000 <= hz <= 48000
    ensures hz % 8000 == 0 || r == Hz44100
  {
    match r
    case Hz8000 => 8000
    case Hz16000 => 16000
    case Hz32000 => 32000
    case Hz44100 => 44100
    case Hz48000 => 48000
  }

  /** Different rates have different values. */
  lemma SampleRateHzInjective(a: AudioSampleRate, b: AudioSampleRate)
    requires SampleRateHz(a) == SampleRateHz(b)
    ensures a == b
  {
  }

  datatype AudioBitDepth = Bit8 | Bit16 | Bit24 | Bit32

  /** A channel count. `new` only builds counts from 1 to 8, but the value
      can also be deserialised directly, so any byte may appear. */
  datatype AudioChannels = AudioChannels(count: Types.u8)

  /** `AudioChannels::new`. */
  function NewChannels(n: Types.u8): (r: Option<AudioChannels>)
    ensures r.Some? <==> 1 <= n <= 8
    ensures r.Some? ==> r.value.count == n
  {
    if n >= 1 && n <= 8 then Some(AudioChannels(n)) else None
  }

  function Mono(): (c: AudioChannels)
    ensures NewChannels(1) == Some(c)
  {
    AudioChannels(1)
  }

  function Stereo(): (c: AudioChannels)
    ensures NewChannels(2) == Some(c)
  {
    AudioChannels(2)
  }

  /** The default channel configuration is mono. */
  function DefaultChannels(): (c: AudioChannels)
    ensures c == Mono()
  {
    Mono()
  }

  datatype StreamingProvider = Gladia | Deepgram | AssemblyAI

  function StreamingProviderDebugName(p: StreamingProvider): string {
    match p
    case Gladia => "Gladia"
    case Deepgram => "Deepgram"
    case AssemblyAI => "AssemblyAI"
  }

  function MapToGladia(e: Encoding): Option<string> {
    match e
    case Linear16 => Some("wav/pcm")
    case Mulaw => Some("wav/ulaw")
    case Alaw => Some("wav/alaw")
    case _ => None
  }

  function MapToDeepgram(e: Encoding): Option<string> {
    match e
    case Linear16 => Some("linear16")
    case Mulaw => Some("mulaw")
    case Flac => Some("flac")
    case Opus => Some("opus")
    case Speex => Some("speex")
    case AmrNb => Some("amr-nb")
    case AmrWb => Some("amr-wb")
    case G729 => Some("g729")
    case _ => None
  }

  function MapToAssemblyAI(e: Encoding): Option<string> {
    match e
    case Linear16 => Some("pcm_s16le")
    case Mulaw => Some("pcm_mulaw")
    case Alaw => Some("pcm_alaw")
    case _ => None
  }

  /** The encodings each provider accepts, in the order the error message
      lists them. */
  function SupportedEncodings(p: StreamingProvider): seq<Encoding> {
    match p
    case Gladia => [Linear16, Mulaw, Alaw]
    case Deepgram => [Linear16, Mulaw, Flac, Opus, Speex, AmrNb, AmrWb, G729]
    case AssemblyAI => [Linear16, Mulaw, Alaw]
  }

  /** The list of supported encodings as the error message spells it: the
      source's literal, split at its ", " separators. */
  function SupportedText(p: StreamingProvider): string {
    match p
    case Gladia => "linear16" + ", " + ("mulaw" + ", " + "alaw")
    case Deepgram =>
      "linear16" + ", " + ("mulaw" + ", " + ("flac" + ", " + ("opus" + ", " + ("speex" + ", " +
      ("amr-nb" + ", " + ("amr-wb" + ", " + "g729"))))))
    case AssemblyAI => "linear16" + ", " + ("mulaw" + ", " + "alaw")
  }

  function Names(es: seq<Encoding>): seq<string>
  {
    seq(|es|, i requires 0 <= i < |es| => AsStr(es[i]))
  }

  /** The message's list is exactly the canonical names of the supported
      encodings, joined by commas. */
  lemma SupportedTextNamesSupported(p: StreamingProvider)
    ensures SupportedText(p) == Join(Names(SupportedEncodings(p)), ", ")
  {
    var names := Names(SupportedEncodings(p));
    if p == Deepgram {
      assert names == ["linear16", "mulaw", "flac", "opus", "speex", "amr-nb", "amr-wb", "g729"];
      Join8("linear16", "mulaw", "flac", "opus", "speex", "amr-nb", "amr-wb", "g729", ", ");
    } else {
      assert names == ["linear16", "mulaw", "alaw"];
      Join3("linear16", "mulaw", "alaw", ", ");
    }
  }

  lemma Join3(a: string, b: string, c: string, sep: string)
    ensures Join([a, b, c], sep) == a + sep + (b + sep + c)
  {
    assert [a, b, c] == [a] + [b, c];
    JoinCons(a, [b, c], sep);
    assert [b, c] == [b] + [c];
    JoinCons(b, [c], sep);
  }

  lemma Join8(a: string, b: string, c: string, d: string, e: string, f: string, g: string, h: string, sep: string)
    ensures Join([a, b, c, d, e, f, g, h], sep) ==
      a + sep + (b + sep + (c + sep + (d + sep + (e + sep + (f + sep + (g + sep + h))))))
  {
    assert [a, b, c, d, e, f, g, h] == [a] + [b, c, d, e, f, g, h];
    JoinCons(a, [b, c, d, e, f, g, h], sep);
    assert [b, c, d, e, f, g, h] == [b] + [c, d, e, f, g, h];
    JoinCons(b, [c, d, e, f, g, h], sep);
    assert [c, d, e, f, g, h] == [c] + [d, e, f, g, h];
    JoinCons(c, [d, e, f, g, h], sep);
    assert [d, e, f, g, h] == [d] + [e, f, g, h];
    JoinCons(d, [e, f, g, h], sep);
    assert [e, f, g, h] == [e] + [f, g, h];
    JoinCons(e, [f, g, h], sep);
    Join3(f, g, h, sep);
  }

  /** The provider's name for an encoding, or a message naming the
      encoding, the provider and what the provider accepts. */
  function MapEncodingToProvider(e: Encoding, p: StreamingProvider): (r: Result<string, string>)
    ensures r.Success? <==> e in SupportedEncodings(p)
    ensures r.Failure? ==> (r.error ==
      "Encoding '" + EncodingDebugName(e) + "' is not supported by " +
      StreamingProviderDebugName(p) + ". Supported encodings: " + SupportedText(p))
  {
    var mapped := match p
      case Gladia => MapToGladia(e)
      case Deepgram => MapToDeepgram(e)
      case AssemblyAI => MapToAssemblyAI(e);
    match mapped
    case Some(name) => Success(name)
    case None => Failure(
      "Encoding '" + EncodingDebugName(e) + "' is not supported by " +
      StreamingProviderDebugName(p) + ". Supported encodings: " + SupportedText(p))
  }

  /** Deepgram's names are the canonical names. */
  lemma DeepgramUsesCanonicalNames(e: Encoding)
    requires e in SupportedEncodings(Deepgram)
    ensures MapEncodingToProvider(e, Deepgram) == Success(AsStr(e))
  {
  }

  /** AssemblyAI's names are aliases the parser reads back. */
  lemma AssemblyAINamesParseBack(e: Encoding)
    requires e in SupportedEncodings(AssemblyAI)
    ensures MapEncodingToProvider(e, AssemblyAI).Success?
    ensures FromStr(MapEncodingToProvider(e, AssemblyAI).value) == Some(e)
  {
    var name := MapEncodingToProvider(e, AssemblyAI).value;
    LowerOfLower(name);
    FromStrAcceptsSpellings(name, e);
  }

  const GLADIA_CHANNELS_MESSAGE: string := "Gladia supports 1-8 audio channels"
  const ASSEMBLYAI_ENCODING_MESSAGE: string := "AssemblyAI streaming only supports linear16 encoding"

  /** Checks an audio configuration against a provider: the encoding must
      be mappable; Gladia takes 1 to 8 channels; AssemblyAI streams only
      linear16. The checks run in that order and the first failure is
      reported. */
  function ValidateAudioConfig(encoding: Option<Encoding>, channels: Option<AudioChannels>,
                               p: StreamingProvider): (r: Result<(), string>)
    ensures r.Success? <==>
      (encoding.Some? ==> encoding.value in SupportedEncodings(p)) &&
      (p == Gladia && channels.Some? ==> 1 <= channels.value.count <= 8) &&
      (p == AssemblyAI && encoding.Some? ==> encoding.value == Linear16)
    ensures encoding.Some? && encoding.value !in SupportedEncodings(p) ==>
      r == Failure(MapEncodingToProvider(encoding.value, p).error)
    ensures (encoding.Some? ==> encoding.value in SupportedEncodings(p)) && r.Failure? ==>
      r.error == (if p == Gladia then GLADIA_CHANNELS_MESSAGE else ASSEMBLYAI_ENCODING_MESSAGE)
  {
    if encoding.Some? && MapEncodingToProvider(encoding.value, p).Failure? then
      Failure(MapEncodingToProvider(encoding.value, p).error)
    else if p == Gladia && channels.Some? && (channels.value.count < 1 || channels.value.count > 8) then
      Failure(GLADIA_CHANNELS_MESSAGE)
    else if p == AssemblyAI && encoding.Some? && encoding.value != Linear16 then
      Failure(ASSEMBLYAI_ENCODING_MESSAGE)
    else
      Success(())
  }

  /** AssemblyAI accepts mu-law and A-law names, but a streaming
      configuration with either is still refused. */
  lemma AssemblyAIStreamsOnlyLinear16(e: Encoding, channels: Option<AudioChannels>)
    requires e != Linear16
    ensures ValidateAudioConfig(Some(e), channels, AssemblyAI).Failure?
    ensures e in {Mulaw, Alaw} ==>
      ValidateAudioConfig(Some(e), channels, AssemblyAI) == Failure(ASSEMBLYAI_ENCODING_MESSAGE)
  {
  }
}
