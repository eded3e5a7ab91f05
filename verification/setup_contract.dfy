/**
 The view side of the settings screen: the messages it can show and every call
 the presenter can make on it. A run of the presenter is described by the
 ordered sequence of these calls.
 */
module SetupContract {

  /** The informational strings the view can be asked to show (one tag per resource). */
  datatype Msg =
    | InfoBitrate48 | InfoBitrate96 | InfoBitrate128 | InfoBitrate192 | InfoBitrate256
    | InfoSampleRate8k | InfoSampleRate16k | InfoSampleRate22k
    | InfoSampleRate32k | InfoSampleRate44k | InfoSampleRate48k
    | InfoChannels | InfoStereo | InfoMono
    | InfoWav | InfoM4a

  /** The identity of a bound view; the presenter never inspects it. */
  datatype View = View(id: nat)

  /** One call made on the view. The size carries the whole number of bytes per minute. */
  datatype ViewEvent =
    | ShowChannelCount(count: int)
    | ShowRecordingFormat(formatKey: string)
    | ShowNamingFormat(namingKey: string)
    | ShowRecordingBitrate(bitrate: int)
    | ShowSampleRate(rate: int)
    | ShowSizePerMin(bytes: int)
    | ShowInformation(msg: Msg)
    | ShowBitrateSelector
    | HideBitrateSelector
}
