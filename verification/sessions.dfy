/**
 Sessions: sequences of calls on the presenter, and what stays true across
 them. The screen is "in sync" with the stored settings when the last size it
 was shown is the size of the stored settings and the bitrate selector was
 last shown exactly when the stored format is not WAV.
 */
module Sessions {
  import opened Optional
  import opened AppConstants
  import opened SetupContract
  import opened Preferences
  import opened Traces
  import opened SetupPresenter

  /** One call on the presenter's public interface. */
  datatype Action =
    | Load
    | SetBitrate(bitrate: int)
    | SetSampleRate(rate: int)
    | SetChannelCount(count: int)
    | SetThemeColor(colorKey: string)
    | SetNamingFormat(namingKey: string)
    | SetRecordingFormat(formatKey: string)
    | MarkFirstRun
    | Reset(defaults: Prefs)
    | Bind(view: Option<View>)
    | Unbind
    | ClearView

  function Apply(p: Presenter, a: Action): Outcome
  {
    match a
    case Load => LoadSettings(p)
    case SetBitrate(b) => SetSettingRecordingBitrate(p, b)
    case SetSampleRate(r) => SetSettingSampleRate(p, r)
    case SetChannelCount(c) => SetSettingChannelCount(p, c)
    case SetThemeColor(k) => SetSettingThemeColor(p, k)
    case SetNamingFormat(k) => SetSettingNamingFormat(p, k)
    case SetRecordingFormat(k) => SetSettingRecordingFormat(p, k)
    case MarkFirstRun => ExecuteFirstRun(p)
    case Reset(d) => ResetSettings(p, d)
    case Bind(v) => BindView(p, v)
    case Unbind => UnbindView(p)
    case ClearView => Clear(p)
  }

  /** Runs the actions in order, stopping at the first fault; the trace is everything shown. */
  function Run(p: Presenter, actions: seq<Action>): (o: Outcome)
    decreases |actions|
  {
    if |actions| == 0 then Completed(p, [])
    else
      var first := Apply(p, actions[0]);
      if first.NullViewFault? then first
      else
        var rest := Run(first.next, actions[1..]);
        rest.(trace := first.trace + rest.trace)
  }

  /** The actions a user makes on a visible settings screen (no lifecycle or reset). */
  predicate IsUserSetting(a: Action)
  {
    !(a.Reset? || a.Bind? || a.Unbind? || a.ClearView?)
  }

  /** The screen, having been shown `shown`, displays what `prefs` store. */
  predicate ScreenShows(prefs: Prefs, shown: seq<ViewEvent>)
  {
    && LastSize(shown) == Some(SizeOf(prefs))
    && SelectorVisible(shown) == Some(prefs.recordingFormat != FormatWav)
  }

  /** Loading the settings brings a bound screen in sync, whatever it showed before. */
  lemma {:induction false} LoadSettingsSyncsScreen(p: Presenter, shown: seq<ViewEvent>)
    requires p.view.Some?
    ensures ScreenShows(p.prefs, shown + LoadSettings(p).trace)
  {
    var t := LoadSettings(p).trace;
    var f := p.prefs.recordingFormat;
    var head := [ShowChannelCount(p.prefs.channelCount), ShowRecordingFormat(f)];
    var tail := [ShowNamingFormat(p.prefs.namingFormat),
                 ShowRecordingBitrate(p.prefs.bitrate),
                 ShowSampleRate(p.prefs.sampleRate),
                 ShowSizePerMin(SizeOf(p.prefs))];
    assert t == (head + FormatUpdate(f)) + tail;
    assert LastSize(t) == Some(SizeOf(p.prefs));
    LastSizeAppend(shown, t);
    assert ShowBitrateSelector !in tail && HideBitrateSelector !in tail;
    assert ShowBitrateSelector !in head && HideBitrateSelector !in head;
    SelectorVisibleAppend(head, FormatUpdate(f));
    SelectorVisibleAppend(head + FormatUpdate(f), tail);
    SelectorVisibleAppend(shown, t);
  }

  /**
   A trace that shows the size of the new settings and never touches the
   selector keeps the screen in sync, as long as the format is unchanged.
   */
  lemma SizeUpdateKeepsScreenInSync(before: Prefs, after: Prefs, shown: seq<ViewEvent>, t: seq<ViewEvent>)
    requires ScreenShows(before, shown)
    requires after.recordingFormat == before.recordingFormat
    requires LastSize(t) == Some(SizeOf(after))
    requires ShowBitrateSelector !in t && HideBitrateSelector !in t
    ensures ScreenShows(after, shown + t)
  {
    LastSizeAppend(shown, t);
    SelectorVisibleAppend(shown, t);
  }

  lemma BitrateKeepsScreenInSync(p: Presenter, bitrate: int, shown: seq<ViewEvent>)
    requires p.view.Some? && ScreenShows(p.prefs, shown)
    ensures var o := SetSettingRecordingBitrate(p, bitrate);
      o.Completed? && ScreenShows(o.next.prefs, shown + o.trace)
  {
    var o := SetSettingRecordingBitrate(p, bitrate);
    var info := InfoEvent(BitrateInfo(bitrate));
    var size := [ShowSizePerMin(SizeOf(o.next.prefs))];
    assert o.trace == info + size;
    LastSizeAppend(info, size);
    SizeUpdateKeepsScreenInSync(p.prefs, o.next.prefs, shown, o.trace);
  }

  lemma SampleRateKeepsScreenInSync(p: Presenter, rate: int, shown: seq<ViewEvent>)
    requires p.view.Some? && ScreenShows(p.prefs, shown)
    ensures var o := SetSettingSampleRate(p, rate);
      o.Completed? && ScreenShows(o.next.prefs, shown + o.trace)
  {
    var o := SetSettingSampleRate(p, rate);
    var info := InfoEvent(SampleRateInfo(rate));
    var size := [ShowSizePerMin(SizeOf(o.next.prefs))];
    assert o.trace == info + size;
    LastSizeAppend(info, size);
    SizeUpdateKeepsScreenInSync(p.prefs, o.next.prefs, shown, o.trace);
  }

  lemma ChannelCountKeepsScreenInSync(p: Presenter, count: int, shown: seq<ViewEvent>)
    requires p.view.Some? && ScreenShows(p.prefs, shown)
    ensures var o := SetSettingChannelCount(p, count);
      o.Completed? && ScreenShows(o.next.prefs, shown + o.trace)
  {
    var o := SetSettingChannelCount(p, count);
    var head := [ShowInformation(InfoChannels), ShowSizePerMin(SizeOf(o.next.prefs))];
    var info := InfoEvent(ChannelInfo(count));
    assert o.trace == head + info;
    LastSizeAppend(head, info);
    SizeUpdateKeepsScreenInSync(p.prefs, o.next.prefs, shown, o.trace);
  }

  lemma RecordingFormatSyncsScreen(p: Presenter, formatKey: string, shown: seq<ViewEvent>)
    requires p.view.Some?
    ensures var o := SetSettingRecordingFormat(p, formatKey);
      o.Completed? && ScreenShows(o.next.prefs, shown + o.trace)
  {
    var o := SetSettingRecordingFormat(p, formatKey);
    LastSizeAppend(shown, o.trace);
    SelectorVisibleAppend(shown, o.trace);
  }

  /** One user action on a bound, in-sync screen completes and leaves the screen in sync. */
  lemma {:induction false} ApplyKeepsScreenInSync(p: Presenter, a: Action, shown: seq<ViewEvent>)
    requires p.view.Some? && IsUserSetting(a)
    requires ScreenShows(p.prefs, shown)
    ensures Apply(p, a).Completed? && Apply(p, a).next.view == p.view
    ensures ScreenShows(Apply(p, a).next.prefs, shown + Apply(p, a).trace)
  {
    match a {
      case Load => LoadSettingsSyncsScreen(p, shown);
      case SetBitrate(b) => BitrateKeepsScreenInSync(p, b, shown);
      case SetSampleRate(r) => SampleRateKeepsScreenInSync(p, r, shown);
      case SetChannelCount(c) => ChannelCountKeepsScreenInSync(p, c, shown);
      case SetThemeColor(k) => assert shown + [] == shown;
      case SetNamingFormat(k) => assert shown + [] == shown;
      case SetRecordingFormat(k) => RecordingFormatSyncsScreen(p, k, shown);
      case MarkFirstRun => assert shown + [] == shown;
    }
  }

  lemma AppendAssociative(a: seq<ViewEvent>, b: seq<ViewEvent>, c: seq<ViewEvent>)
    ensures a + (b + c) == (a + b) + c
  {
  }

  /** A session whose first action completes continues from that action's result. */
  lemma RunStep(p: Presenter, actions: seq<Action>)
    requires |actions| > 0 && Apply(p, actions[0]).Completed?
    ensures var first := Apply(p, actions[0]);
      var rest := Run(first.next, actions[1..]);
      Run(p, actions) == rest.(trace := first.trace + rest.trace)
  {
  }

  /**
   While the view stays bound, any sequence of user actions completes without
   a fault, keeps the view, and leaves an in-sync screen in sync.
   */
  lemma {:induction false} BoundSessionKeepsScreenInSync(p: Presenter, actions: seq<Action>, shown: seq<ViewEvent>)
    requires p.view.Some?
    requires forall i :: 0 <= i < |actions| ==> IsUserSetting(actions[i])
    requires ScreenShows(p.prefs, shown)
    ensures Run(p, actions).Completed? && Run(p, actions).next.view == p.view
    ensures ScreenShows(Run(p, actions).next.prefs, shown + Run(p, actions).trace)
    decreases |actions|
  {
    if |actions| == 0 {
      assert shown + [] == shown;
    } else {
      var first := Apply(p, actions[0]);
      ApplyKeepsScreenInSync(p, actions[0], shown);
      var more := actions[1..];
      assert forall i :: 0 <= i < |more| ==> IsUserSetting(more[i]) by {
        forall i | 0 <= i < |more| ensures IsUserSetting(more[i]) {
          assert more[i] == actions[i + 1];
        }
      }
      BoundSessionKeepsScreenInSync(first.next, more, shown + first.trace);
      var rest := Run(first.next, more);
      RunStep(p, actions);
      var o := Run(p, actions);
      assert o.Completed? && o.next == rest.next && o.trace == first.trace + rest.trace;
      AppendAssociative(shown, first.trace, rest.trace);
    }
  }

  /** With no view bound, no action other than binding one calls the view. */
  lemma ApplyUnboundIsSilent(p: Presenter, a: Action)
    requires p.view.None? && !a.Bind?
    ensures Apply(p, a).trace == [] && Apply(p, a).next.view.None?
  {
  }

  /** A session that never binds a view never calls one, whether or not it faults. */
  lemma {:induction false} UnboundSessionIsSilent(p: Presenter, actions: seq<Action>)
    requires p.view.None?
    requires forall i :: 0 <= i < |actions| ==> !actions[i].Bind?
    ensures Run(p, actions).trace == [] && Run(p, actions).next.view.None?
    decreases |actions|
  {
    if |actions| != 0 {
      ApplyUnboundIsSilent(p, actions[0]);
      var first := Apply(p, actions[0]);
      if first.Completed? {
        assert forall i :: 0 <= i < |actions[1..]| ==> actions[1..][i] == actions[i + 1];
        UnboundSessionIsSilent(first.next, actions[1..]);
      }
    }
  }

  /** Once the first run is executed, no session without a reset makes it pending again. */
  lemma {:induction false} FirstRunStaysExecuted(p: Presenter, actions: seq<Action>)
    requires !p.prefs.firstRun
    requires forall i :: 0 <= i < |actions| ==> !actions[i].Reset?
    ensures !Run(p, actions).next.prefs.firstRun
    decreases |actions|
  {
    if |actions| != 0 {
      var first := Apply(p, actions[0]);
      assert !first.next.prefs.firstRun;
      if first.Completed? {
        assert forall i :: 0 <= i < |actions[1..]| ==> actions[1..][i] == actions[i + 1];
        FirstRunStaysExecuted(first.next, actions[1..]);
      }
    }
  }
}
