/**
 The settings-screen presenter. Each public operation takes the presenter's
 state (the stored preferences and the view, if one is bound) and returns the
 next state with the exact ordered trace of calls it makes on the view.

 Some view calls in the presenter are not guarded by a check for a bound view.
 Reaching one of them with no view bound dereferences a null reference; the
 model returns `NullViewFault` there, keeping every preference already stored.
 */
module SetupPresenter {
  import opened Optional
  import opened AppConstants
  import opened SetupContract
  import opened Preferences
  import opened Traces

  datatype Presenter = Presenter(prefs: Prefs, view: Option<View>)

  /** The result of one operation: it either completes or stops at an unguarded view call. */
  datatype Outcome =
    | Completed(next: Presenter, trace: seq<ViewEvent>)
    | NullViewFault(next: Presenter, trace: seq<ViewEvent>)

  // ---------------------------------------------------------------------------
  // Lookup tables: which values carry an informational message.
  // ---------------------------------------------------------------------------

  const BitrateMessages: map<int, Msg> := map[
    RecordEncodingBitrate48000 := InfoBitrate48,
    RecordEncodingBitrate96000 := InfoBitrate96,
    RecordEncodingBitrate128000 := InfoBitrate128,
    RecordEncodingBitrate192000 := InfoBitrate192,
    RecordEncodingBitrate256000 := InfoBitrate256]

  const SampleRateMessages: map<int, Msg> := map[
    RecordSampleRate8000 := InfoSampleRate8k,
    RecordSampleRate16000 := InfoSampleRate16k,
    RecordSampleRate22050 := InfoSampleRate22k,
    RecordSampleRate32000 := InfoSampleRate32k,
    RecordSampleRate44100 := InfoSampleRate44k,
    RecordSampleRate48000 := InfoSampleRate48k]

  const ChannelMessages: map<int, Msg> := map[
    RecordAudioStereo := InfoStereo,
    RecordAudioMono := InfoMono]

  const FormatMessages: map<string, Msg> := map[
    FormatWav := InfoWav,
    FormatM4a := InfoM4a]

  /** The informational view call for an optional message: none, or exactly one. */
  function InfoEvent(m: Option<Msg>): (t: seq<ViewEvent>)
    ensures Infos(t) == (if m.Some? then [m.value] else [])
    ensures |t| == |Infos(t)|
  {
    if m.Some? then [ShowInformation(m.value)] else []
  }

  // ---------------------------------------------------------------------------
  // The size estimate.
  // ---------------------------------------------------------------------------

  /** Java's integer division by a positive divisor: it rounds toward zero. */
  function TruncDiv(a: int, d: int): (q: int)
    requires d > 0
    ensures a >= 0 ==> 0 <= a - d * q < d
    ensures a < 0 ==> -d < a - d * q <= 0
  {
    if a >= 0 then a / d else -((-a) / d)
  }

  /**
   Bytes per minute of a recording: whole bytes per second of the encoded
   stream for M4A, 16-bit PCM frames for WAV, and nothing known otherwise.
   `SizePerMinMeaning` states what the number is.
   */
  function SizePerMin(recordingFormat: string, sampleRate: int, bitrate: int, channels: int): int
  {
    if recordingFormat == FormatM4a then 60 * TruncDiv(bitrate, 8)
    else if recordingFormat == FormatWav then 60 * (sampleRate * channels * 2)
    else 0
  }

  lemma SizePerMinMeaning(recordingFormat: string, sampleRate: int, bitrate: int, channels: int)
    ensures var r := SizePerMin(recordingFormat, sampleRate, bitrate, channels);
      && (recordingFormat == FormatM4a && bitrate >= 0 ==>
            r % 60 == 0 && 0 <= 60 * bitrate - 8 * r < 480)
      && (recordingFormat == FormatM4a && bitrate < 0 ==>
            r % 60 == 0 && -480 < 60 * bitrate - 8 * r <= 0)
      && (recordingFormat == FormatWav ==> r == 120 * channels * sampleRate)
      && (recordingFormat != FormatM4a && recordingFormat != FormatWav ==> r == 0)
  {
  }

  /** The size estimate for the stored settings, as the presenter reads them back. */
  function SizeOf(prefs: Prefs): int
  {
    SizePerMin(prefs.recordingFormat, prefs.sampleRate, prefs.bitrate, prefs.channelCount)
  }

  /** The guarded size update: one size call with a bound view, none without. */
  function UpdateSizePerMin(p: Presenter): (t: seq<ViewEvent>)
    ensures p.view.Some? <==> |t| == 1
    ensures p.view.Some? ==> t[0] == ShowSizePerMin(SizeOf(p.prefs))
    ensures p.view.None? ==> t == []
  {
    if p.view.Some? then [ShowSizePerMin(SizeOf(p.prefs))] else []
  }

  // ---------------------------------------------------------------------------
  // Message selection (the `switch` statements).
  // ---------------------------------------------------------------------------

  function BitrateInfo(bitrate: int): (m: Option<Msg>)
    ensures m.Some? <==> bitrate in BitrateMessages
    ensures m.Some? ==> m.value == BitrateMessages[bitrate]
  {
    if bitrate == RecordEncodingBitrate48000 then Some(InfoBitrate48)
    else if bitrate == RecordEncodingBitrate96000 then Some(InfoBitrate96)
    else if bitrate == RecordEncodingBitrate128000 then Some(InfoBitrate128)
    else if bitrate == RecordEncodingBitrate192000 then Some(InfoBitrate192)
    else if bitrate == RecordEncodingBitrate256000 then Some(InfoBitrate256)
    else None
  }

  function SampleRateInfo(sampleRate: int): (m: Option<Msg>)
    ensures m.Some? <==> sampleRate in SampleRateMessages
    ensures m.Some? ==> m.value == SampleRateMessages[sampleRate]
  {
    if sampleRate == RecordSampleRate8000 then Some(InfoSampleRate8k)
    else if sampleRate == RecordSampleRate16000 then Some(InfoSampleRate16k)
    else if sampleRate == RecordSampleRate22050 then Some(InfoSampleRate22k)
    else if sampleRate == RecordSampleRate32000 then Some(InfoSampleRate32k)
    else if sampleRate == RecordSampleRate44100 then Some(InfoSampleRate44k)
    else if sampleRate == RecordSampleRate48000 then Some(InfoSampleRate48k)
    else None
  }

  function ChannelInfo(count: int): (m: Option<Msg>)
    ensures m.Some? <==> count in ChannelMessages
    ensures m.Some? ==> m.value == ChannelMessages[count]
  {
    if count == RecordAudioStereo then Some(InfoStereo)
    else if count == RecordAudioMono then Some(InfoMono)
    else None
  }

  /** The second format `switch` of the format setter, which has a `break` in every case. */
  function FormatInfo(formatKey: string): (m: Option<Msg>)
    ensures m.Some? <==> formatKey in FormatMessages
    ensures m.Some? ==> m.value == FormatMessages[formatKey]
  {
    if formatKey == FormatWav then Some(InfoWav)
    else if formatKey == FormatM4a then Some(InfoM4a)
    else None
  }

  /**
   The view calls that adjust the screen to a recording format. The M4A case
   has no `break`, so after its message it falls into the shared case that
   shows the bitrate selector; the 3GP label and `default` share that case.
   Every call here is unguarded.
   */
  function FormatUpdate(formatKey: string): (t: seq<ViewEvent>)
    ensures formatKey == FormatWav ==> t == [HideBitrateSelector, ShowInformation(InfoWav)]
    ensures formatKey == FormatM4a ==> t == [ShowInformation(InfoM4a), ShowBitrateSelector]
    ensures formatKey != FormatWav && formatKey != FormatM4a ==> t == [ShowBitrateSelector]
    ensures 1 <= |t|
    ensures SelectorVisible(t) == Some(formatKey != FormatWav)
    ensures Infos(t) == (if formatKey in FormatMessages then [FormatMessages[formatKey]] else [])
    ensures LastSize(t).None?
  {
    if formatKey == FormatWav then [HideBitrateSelector, ShowInformation(InfoWav)]
    else if formatKey == FormatM4a then [ShowInformation(InfoM4a), ShowBitrateSelector]
    else [ShowBitrateSelector]
  }

  // ---------------------------------------------------------------------------
  // Public operations.
  // ---------------------------------------------------------------------------

  /** Pushes every stored setting to a bound view; does nothing without one. */
  function LoadSettings(p: Presenter): (o: Outcome)
    ensures o.Completed? && o.next == p
    ensures p.view.None? ==> o.trace == []
    ensures p.view.Some? ==>
      o.trace == [ShowChannelCount(p.prefs.channelCount), ShowRecordingFormat(p.prefs.recordingFormat)]
                 + FormatUpdate(p.prefs.recordingFormat)
                 + [ShowNamingFormat(p.prefs.namingFormat), ShowRecordingBitrate(p.prefs.bitrate),
                    ShowSampleRate(p.prefs.sampleRate), ShowSizePerMin(SizeOf(p.prefs))]
  {
    if p.view.None? then Completed(p, [])
    else
      var f := p.prefs.recordingFormat;
      Completed(p,
        [ShowChannelCount(p.prefs.channelCount), ShowRecordingFormat(f)]
        + FormatUpdate(f)
        + [ShowNamingFormat(p.prefs.namingFormat),
           ShowRecordingBitrate(p.prefs.bitrate),
           ShowSampleRate(p.prefs.sampleRate)]
        + UpdateSizePerMin(p))
  }

  /** Stores the bitrate, shows its message (unguarded) if it has one, then the size. */
  function SetSettingRecordingBitrate(p: Presenter, bitrate: int): (o: Outcome)
    ensures o.next == Presenter(p.prefs.(bitrate := bitrate), p.view)
    ensures o.NullViewFault? <==> p.view.None? && bitrate in BitrateMessages
    ensures p.view.None? ==> o.trace == []
    ensures p.view.Some? ==>
      && Infos(o.trace) == (if bitrate in BitrateMessages then [BitrateMessages[bitrate]] else [])
      && |o.trace| == |Infos(o.trace)| + 1
      && o.trace[|o.trace| - 1] == ShowSizePerMin(SizeOf(o.next.prefs))
  {
    var q := p.(prefs := p.prefs.(bitrate := bitrate));
    var info := BitrateInfo(bitrate);
    if info.Some? && p.view.None? then NullViewFault(q, [])
    else Completed(q, InfoEvent(info) + UpdateSizePerMin(q))
  }

  /** Stores the sample rate, shows its message (unguarded) if it has one, then the size. */
  function SetSettingSampleRate(p: Presenter, rate: int): (o: Outcome)
    ensures o.next == Presenter(p.prefs.(sampleRate := rate), p.view)
    ensures o.NullViewFault? <==> p.view.None? && rate in SampleRateMessages
    ensures p.view.None? ==> o.trace == []
    ensures p.view.Some? ==>
      && Infos(o.trace) == (if rate in SampleRateMessages then [SampleRateMessages[rate]] else [])
      && |o.trace| == |Infos(o.trace)| + 1
      && o.trace[|o.trace| - 1] == ShowSizePerMin(SizeOf(o.next.prefs))
  {
    var q := p.(prefs := p.prefs.(sampleRate := rate));
    var info := SampleRateInfo(rate);
    if info.Some? && p.view.None? then NullViewFault(q, [])
    else Completed(q, InfoEvent(info) + UpdateSizePerMin(q))
  }

  /**
   Stores the channel count, shows the generic channels message (unguarded),
   the size, then the stereo or mono message when the count is one of those.
   */
  function SetSettingChannelCount(p: Presenter, count: int): (o: Outcome)
    ensures o.next == Presenter(p.prefs.(channelCount := count), p.view)
    ensures o.NullViewFault? <==> p.view.None?
    ensures p.view.None? ==> o.trace == []
    ensures p.view.Some? ==>
      && 2 <= |o.trace| <= 3
      && o.trace[0] == ShowInformation(InfoChannels)
      && o.trace[1] == ShowSizePerMin(SizeOf(o.next.prefs))
      && (|o.trace| == 3 <==> count in ChannelMessages)
      && (|o.trace| == 3 ==> o.trace[2] == ShowInformation(ChannelMessages[count]))
  {
    var q := p.(prefs := p.prefs.(channelCount := count));
    if p.view.None? then NullViewFault(q, [])
    else Completed(q, [ShowInformation(InfoChannels)] + UpdateSizePerMin(q) + InfoEvent(ChannelInfo(count)))
  }

  /** Stores the theme colour; the view is not told. */
  function SetSettingThemeColor(p: Presenter, colorKey: string): (o: Outcome)
    ensures o.Completed? && o.trace == [] && o.next.view == p.view
    ensures o.next.prefs.themeColor == colorKey
    ensures o.next.prefs.(themeColor := p.prefs.themeColor) == p.prefs
  {
    Completed(p.(prefs := p.prefs.(themeColor := colorKey)), [])
  }

  /** Stores the naming format; the view is not told. */
  function SetSettingNamingFormat(p: Presenter, namingKey: string): (o: Outcome)
    ensures o.Completed? && o.trace == [] && o.next.view == p.view
    ensures o.next.prefs.namingFormat == namingKey
    ensures o.next.prefs.(namingFormat := p.prefs.namingFormat) == p.prefs
  {
    Completed(p.(prefs := p.prefs.(namingFormat := namingKey)), [])
  }

  /**
   Stores the format, adjusts the screen to it (unguarded), shows the format's
   message a second time through its own `switch`, then the size.
   */
  function SetSettingRecordingFormat(p: Presenter, formatKey: string): (o: Outcome)
    ensures o.next == Presenter(p.prefs.(recordingFormat := formatKey), p.view)
    ensures o.NullViewFault? <==> p.view.None?
    ensures p.view.None? ==> o.trace == []
    ensures p.view.Some? && formatKey == FormatWav ==>
      o.trace == [HideBitrateSelector, ShowInformation(InfoWav), ShowInformation(InfoWav),
                  ShowSizePerMin(SizeOf(o.next.prefs))]
    ensures p.view.Some? && formatKey == FormatM4a ==>
      o.trace == [ShowInformation(InfoM4a), ShowBitrateSelector, ShowInformation(InfoM4a),
                  ShowSizePerMin(SizeOf(o.next.prefs))]
    ensures p.view.Some? && formatKey != FormatWav && formatKey != FormatM4a ==>
      o.trace == [ShowBitrateSelector, ShowSizePerMin(SizeOf(o.next.prefs))]
  {
    var q := p.(prefs := p.prefs.(recordingFormat := formatKey));
    if p.view.None? then NullViewFault(q, [])
    else Completed(q, FormatUpdate(formatKey) + InfoEvent(FormatInfo(formatKey)) + UpdateSizePerMin(q))
  }

  /** Marks the first run executed when the store still reports it pending. */
  function ExecuteFirstRun(p: Presenter): (o: Outcome)
    ensures o.Completed? && o.trace == [] && o.next.view == p.view
    ensures !o.next.prefs.firstRun
    ensures o.next.prefs.(firstRun := p.prefs.firstRun) == p.prefs
    ensures o.next == p <==> !p.prefs.firstRun
  {
    if p.prefs.firstRun then Completed(p.(prefs := p.prefs.(firstRun := false)), [])
    else Completed(p, [])
  }

  /**
   Restores the store's defaults. What the defaults are is the store's own
   business, so they are a parameter here; the view is not told.
   */
  function ResetSettings(p: Presenter, defaults: Prefs): (o: Outcome)
    ensures o.Completed? && o.trace == []
    ensures o.next.view == p.view && o.next.prefs == defaults
  {
    Completed(p.(prefs := defaults), [])
  }

  /** Attaches a view (a null argument detaches it). */
  function BindView(p: Presenter, v: Option<View>): (o: Outcome)
    ensures o.Completed? && o.trace == []
    ensures o.next.prefs == p.prefs && o.next.view == v
  {
    Completed(p.(view := v), [])
  }

  /** Detaches the view if one is bound. */
  function UnbindView(p: Presenter): (o: Outcome)
    ensures o.Completed? && o.trace == []
    ensures o.next.prefs == p.prefs && o.next.view.None?
  {
    if p.view.Some? then Completed(p.(view := None), []) else Completed(p, [])
  }

  /** Detaches the view through `UnbindView` if one is bound. */
  function Clear(p: Presenter): (o: Outcome)
    ensures o.Completed? && o.trace == []
    ensures o.next.prefs == p.prefs && o.next.view.None?
  {
    if p.view.Some? then UnbindView(p) else Completed(p, [])
  }
}
