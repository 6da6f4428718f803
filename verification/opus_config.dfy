/**
 * The Opus stream configurations: three presets and a custom one, each with
 * a sample rate, a channel count, an Opus application, a frame size (in
 * samples per channel) and a bitrate.
 */
module OpusConfig {

  /** Swift's `Int32`. */
  type Int32 = x: int | -0x8000_0000 <= x < 0x8000_0000

  datatype OpusConfiguration =
    | VoiceChat
    | HighQualityAudio
    | LowLatency
    | Custom(sampleRate: Int32, frameSize: Int32, bitrate: Int32)

  /** The Opus encoder application an encoder is created for. */
  datatype OpusApplication = Voip | Audio | RestrictedLowDelay

  /** The numeric values libopus gives the applications (`OPUS_APPLICATION_*` in opus_defines.h). */
  function ApplicationCode(a: OpusApplication): (code: Int32)
    ensures 2048 <= code <= 2051
  {
    match a
    case Voip => 2048
    case Audio => 2049
    case RestrictedLowDelay => 2051
  }

  /** The codes are distinct, so no two applications are confused. */
  lemma ApplicationCodesDistinct(a: OpusApplication, b: OpusApplication)
    ensures ApplicationCode(a) == ApplicationCode(b) ==> a == b
  {
  }

  function SampleRate(c: OpusConfiguration): (r: Int32)
    ensures c.Custom? ==> r == c.sampleRate
    ensures !c.Custom? ==> r in {16000, 24000, 48000}
  {
    match c
    case VoiceChat => 16000
    case HighQualityAudio => 48000
    case LowLatency => 24000
    case Custom(sampleRate, _, _) => sampleRate
  }

  /** Every configuration records mono. */
  function Channels(c: OpusConfiguration): (n: Int32)
    ensures n == 1
  {
    1
  }

  function Application(c: OpusConfiguration): (a: OpusApplication)
    ensures a == Voip <==> c.VoiceChat? || c.Custom?
    ensures a == Audio <==> c.HighQualityAudio?
    ensures a == RestrictedLowDelay <==> c.LowLatency?
  {
    match c
    case VoiceChat => Voip
    case HighQualityAudio => Audio
    case LowLatency => RestrictedLowDelay
    case Custom(_, _, _) => Voip
  }

  /** The nominal frame duration, in milliseconds, of each preset. */
  function NominalFrameMs(c: OpusConfiguration): nat
    requires !c.Custom?
  {
    match c
    case VoiceChat => 20
    case HighQualityAudio => 40
    case LowLatency => 10
  }

  /** Samples per frame: the sample rate divided by frames per second, or the custom value. */
  function FrameSize(c: OpusConfiguration): (n: Int32)
    ensures c.Custom? ==> n == c.frameSize
    ensures !c.Custom? ==> n * 1000 == SampleRate(c) * NominalFrameMs(c)
  {
    match c
    case VoiceChat => SampleRate(c) / 50
    case HighQualityAudio => SampleRate(c) / 25
    case LowLatency => SampleRate(c) / 100
    case Custom(_, frameSize, _) => frameSize
  }

  function Bitrate(c: OpusConfiguration): (b: Int32)
    ensures c.Custom? ==> b == c.bitrate
    ensures !c.Custom? ==> b in {32000, 64000, 128000}
  {
    match c
    case VoiceChat => 32000
    case HighQualityAudio => 128000
    case LowLatency => 64000
    case Custom(_, _, bitrate) => bitrate
  }

  /** The three presets, concretely. */
  lemma PresetTable()
    ensures SampleRate(VoiceChat) == 16000 && FrameSize(VoiceChat) == 320 && Bitrate(VoiceChat) == 32000
    ensures SampleRate(HighQualityAudio) == 48000 && FrameSize(HighQualityAudio) == 1920 && Bitrate(HighQualityAudio) == 128000
    ensures SampleRate(LowLatency) == 24000 && FrameSize(LowLatency) == 240 && Bitrate(LowLatency) == 64000
  {
  }

  /** A custom configuration reports exactly the three values it was built from. */
  lemma CustomRoundTrip(sampleRate: Int32, frameSize: Int32, bitrate: Int32)
    ensures var c := Custom(sampleRate, frameSize, bitrate);
            SampleRate(c) == sampleRate && FrameSize(c) == frameSize && Bitrate(c) == bitrate
  {
  }
}
