/** Properties relating several presenter operations, or one operation to a reference value. */
module SetupProperties {
  import opened Optional
  import opened AppConstants
  import opened SetupContract
  import opened Traces
  import opened SetupPresenter

  /**
   Worked estimates: M4A at 128000 bit/s is 960000 bytes per minute, stereo WAV
   at 44100 Hz is 10584000 bytes per minute, and 3GP has no estimate (0). These
   rely on the exact constant values, not only on their distinctness.
   */
  lemma SizePerMinExamples(sampleRate: int, bitrate: int, channels: int)
    ensures SizePerMin(FormatM4a, sampleRate, RecordEncodingBitrate128000, channels) == 960000
    ensures SizePerMin(FormatWav, RecordSampleRate44100, bitrate, RecordAudioStereo) == 10584000
    ensures SizePerMin(Format3gp, sampleRate, bitrate, channels) == 0
  {
  }

  /** M4A size depends only on the bitrate, WAV size only on rate and channels, linearly in channels. */
  lemma SizePerMinInputs(s1: int, s2: int, b1: int, b2: int, c1: int, c2: int)
    ensures SizePerMin(FormatM4a, s1, b1, c1) == SizePerMin(FormatM4a, s2, b1, c2)
    ensures SizePerMin(FormatWav, s1, b1, c1) == SizePerMin(FormatWav, s1, b2, c1)
    ensures SizePerMin(FormatWav, s1, b1, RecordAudioStereo) == 2 * SizePerMin(FormatWav, s1, b2, RecordAudioMono)
  {
  }

  /** Java truncation differs from floor division: a negative bitrate rounds toward zero. */
  lemma SizePerMinNegativeBitrate(sampleRate: int, channels: int)
    ensures SizePerMin(FormatM4a, sampleRate, -1, channels) == 0
    ensures SizePerMin(FormatM4a, sampleRate, -9, channels) == -60
  {
  }

  /** The format setter's trace, piece by piece: screen adjustment, its own message, the size. */
  lemma RecordingFormatTrace(p: Presenter, formatKey: string)
    requires p.view.Some?
    ensures var o := SetSettingRecordingFormat(p, formatKey);
      o.trace == FormatUpdate(formatKey) + (InfoEvent(FormatInfo(formatKey)) + [ShowSizePerMin(SizeOf(o.next.prefs))])
  {
  }

  /** The messages of a screen adjustment, then an optional message, then a size call. */
  lemma AdjustmentInfos(formatKey: string, size: seq<ViewEvent>)
    requires forall i :: 0 <= i < |size| ==> !size[i].ShowInformation?
    ensures Infos(FormatUpdate(formatKey) + (InfoEvent(FormatInfo(formatKey)) + size))
         == (if formatKey in FormatMessages then [FormatMessages[formatKey], FormatMessages[formatKey]] else [])
  {
    var info := InfoEvent(FormatInfo(formatKey));
    InfosAppend(FormatUpdate(formatKey), info + size);
    InfosAppend(info, size);
    InfosNone(size);
  }

  /** Where the selector ends after a screen adjustment followed by calls that leave it alone. */
  lemma AdjustmentSelector(formatKey: string, size: seq<ViewEvent>)
    requires ShowBitrateSelector !in size && HideBitrateSelector !in size
    ensures SelectorVisible(FormatUpdate(formatKey) + (InfoEvent(FormatInfo(formatKey)) + size))
         == Some(formatKey != FormatWav)
  {
    var info := InfoEvent(FormatInfo(formatKey));
    assert ShowBitrateSelector !in info + size && HideBitrateSelector !in info + size;
    SelectorVisibleAppend(FormatUpdate(formatKey), info + size);
  }

  /**
   Setting WAV or M4A shows the format's message twice (once while adjusting
   the screen and once more from the setter's own `switch`); any other key
   shows none. The selector ends shown exactly for non-WAV keys.
   */
  lemma FormatMessageShownTwice(p: Presenter, formatKey: string)
    requires p.view.Some?
    ensures var o := SetSettingRecordingFormat(p, formatKey);
      && Infos(o.trace) == (if formatKey in FormatMessages
                            then [FormatMessages[formatKey], FormatMessages[formatKey]] else [])
      && SelectorVisible(o.trace) == Some(formatKey != FormatWav)
  {
    var o := SetSettingRecordingFormat(p, formatKey);
    var size := [ShowSizePerMin(SizeOf(o.next.prefs))];
    RecordingFormatTrace(p, formatKey);
    AdjustmentInfos(formatKey, size);
    AdjustmentSelector(formatKey, size);
  }

  /** Loading the settings shows the stored format's message only once, unlike the setter. */
  lemma {:induction false} LoadSettingsFormatMessageOnce(p: Presenter)
    requires p.view.Some?
    ensures var f := p.prefs.recordingFormat;
      Infos(LoadSettings(p).trace) == (if f in FormatMessages then [FormatMessages[f]] else [])
  {
    var f := p.prefs.recordingFormat;
    var head := [ShowChannelCount(p.prefs.channelCount), ShowRecordingFormat(f)];
    var tail := [ShowNamingFormat(p.prefs.namingFormat),
                 ShowRecordingBitrate(p.prefs.bitrate),
                 ShowSampleRate(p.prefs.sampleRate),
                 ShowSizePerMin(SizeOf(p.prefs))];
    assert LoadSettings(p).trace == head + FormatUpdate(f) + tail;
    InfosNone(head);
    InfosNone(tail);
    InfosAppend(head, FormatUpdate(f));
    InfosAppend(head + FormatUpdate(f), tail);
  }

  /** Two different recognised values never share a message, in any of the tables. */
  lemma MessagesIdentifyValues(x: int, y: int)
    ensures x in BitrateMessages && y in BitrateMessages && x != y ==> BitrateInfo(x) != BitrateInfo(y)
    ensures x in SampleRateMessages && y in SampleRateMessages && x != y ==> SampleRateInfo(x) != SampleRateInfo(y)
    ensures x in ChannelMessages && y in ChannelMessages && x != y ==> ChannelInfo(x) != ChannelInfo(y)
  {
  }

  /** Marking the first run executed a second time changes nothing. */
  lemma ExecuteFirstRunIdempotent(p: Presenter)
    ensures var once := ExecuteFirstRun(p).next;
      ExecuteFirstRun(once) == Completed(once, [])
  {
  }

  lemma UnbindViewIdempotent(p: Presenter)
    ensures var once := UnbindView(p).next;
      UnbindView(once) == Completed(once, [])
  {
  }

  /** Clearing the presenter is the same as unbinding its view, and so is idempotent too. */
  lemma ClearIsUnbindView(p: Presenter)
    ensures Clear(p) == UnbindView(p)
    ensures Clear(Clear(p).next) == Completed(Clear(p).next, [])
  {
  }

  /** Binding and then unbinding a view leaves the presenter with its preferences and no view. */
  lemma BindThenUnbind(p: Presenter, v: View)
    ensures UnbindView(BindView(p, Some(v)).next).next == Presenter(p.prefs, None)
  {
  }
}
