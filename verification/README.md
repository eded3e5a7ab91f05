# Recording-settings presenter, modelled in Dafny

This project models `SetupPresenter`, the presenter of the audio recorder's
recording-settings screen. The presenter reads and writes the recording
preferences (channel count, recording format, naming format, bitrate, sample
rate, theme colour, first-run flag). After each change it calls back into the
bound view to show the stored values, a per-minute size estimate, contextual
information messages and the bitrate selector's visibility.

The model is functional. A presenter is `Presenter(prefs, view)`:

- `prefs` is an immutable `Prefs` record.
- `view` is an `Option<View>`, where `None` stands for Java's `null`.

Every public operation returns an `Outcome` that holds:

- the next presenter;
- the exact ordered sequence of view calls made (`ViewEvent`s);
- whether the operation completed or stopped at a view call made while no
  view was bound.

Only `loadSettings` and `updateSizePerMin` check for a missing view. The other
view calls do not, so with no view bound they would throw a
`NullPointerException`. The model returns `NullViewFault` at exactly those
points. The preference has already been stored by then, because each setter
writes to the store first. So the bitrate and sample-rate setters fault with
no view only when the value has a message. The channel-count and format
setters always fault with no view.

Modules:

- `Optional`: `Option`.
- `AppConstants`: the named bitrate, sample-rate, channel and format constants.
- `SetupContract`: message tags, the view and its calls.
- `Preferences`: the `Prefs` record.
- `Traces`: what a trace shows last, and which messages it shows.
- `SetupPresenter`: the operations.
- `SetupProperties`: lemmas that relate operations.
- `Sessions`: sequences of operations and the invariants they keep.

Behaviour as the code has it:

- **Format dispatch.** `updateRecordingFormat` has no `break` after the M4A case.
  M4A therefore shows its message and then falls through into the shared case that
  shows the bitrate selector. The `default` label sits after the 3GP label, so an
  unknown key shows the selector and no message at all. It does not show the M4A
  message. The setter then runs a second `switch`, so WAV and M4A show their message
  twice. `loadSettings` shows it once. The model follows the code on both counts.
- **Screen in sync.** While a view stays bound, every user setting keeps the screen
  in sync with the stored preferences. In sync means the last size shown is the size
  of the stored settings, and the selector was last shown exactly when the format is
  not WAV. `loadSettings` brings any bound screen into this state.

## Model

| member | source | states |
|---|---|---|
| `SetupPresenter.TruncDiv` | app/src/main/java/com/dimowner/audiorecorder/app/setup/SetupPresenter.java:206 | Java integer division by a positive divisor rounds toward zero: the remainder has the sign of the dividend and is smaller than the divisor |
| `SetupPresenter.SizePerMinMeaning` | app/src/main/java/com/dimowner/audiorecorder/app/setup/SetupPresenter.java:203-212 | M4A size is 60 times the whole bytes per second of the bitrate (within 480 bits of 60·bitrate/8, rounded toward zero); WAV size is 120·channels·sampleRate (16-bit samples); any other key gives 0 |
| `SetupPresenter.UpdateSizePerMin` | app/src/main/java/com/dimowner/audiorecorder/app/setup/SetupPresenter.java:193-201 | exactly one size call, carrying the estimate of the stored settings, when a view is bound; none otherwise |
| `SetupPresenter.BitrateInfo` | app/src/main/java/com/dimowner/audiorecorder/app/setup/SetupPresenter.java:58-76 | a message exactly for the five recognised bitrates, and it is that bitrate's entry in the lookup table |
| `SetupPresenter.SampleRateInfo` | app/src/main/java/com/dimowner/audiorecorder/app/setup/SetupPresenter.java:85-106 | a message exactly for the six recognised sample rates, and it is that rate's entry in the lookup table |
| `SetupPresenter.ChannelInfo` | app/src/main/java/com/dimowner/audiorecorder/app/setup/SetupPresenter.java:113-120 | a message exactly for the stereo and mono counts: the stereo or mono message respectively |
| `SetupPresenter.FormatInfo` | app/src/main/java/com/dimowner/audiorecorder/app/setup/SetupPresenter.java:137-144 | a message exactly for WAV and M4A, the format's own message |
| `SetupPresenter.FormatUpdate` | app/src/main/java/com/dimowner/audiorecorder/app/setup/SetupPresenter.java:179-191 | the exact ordered calls: WAV gives hide selector then info_wav; M4A gives info_m4a then, falling through, show selector; 3GP and any other key give show selector alone; hence the selector ends hidden exactly for WAV and no size call is made |
| `SetupPresenter.LoadSettings` | app/src/main/java/com/dimowner/audiorecorder/app/setup/SetupPresenter.java:38-49 | never faults and changes nothing; with no view it emits nothing; with a view it emits channel count, format, the format's screen adjustment, naming format, bitrate, sample rate, then the size of the stored settings, in that order |
| `SetupPresenter.SetSettingRecordingBitrate` | app/src/main/java/com/dimowner/audiorecorder/app/setup/SetupPresenter.java:52-56 | stores only the bitrate; faults exactly when unbound with a recognised bitrate; bound, it shows exactly that bitrate's message (none if unrecognised) followed by one size call computed from the updated preferences |
| `SetupPresenter.SetSettingSampleRate` | app/src/main/java/com/dimowner/audiorecorder/app/setup/SetupPresenter.java:79-83 | stores only the rate; faults exactly when unbound with a recognised rate; bound, exactly one message if the rate is recognised, none otherwise, then the size of the updated preferences |
| `SetupPresenter.SetSettingChannelCount` | app/src/main/java/com/dimowner/audiorecorder/app/setup/SetupPresenter.java:109-121 | stores only the count; always faults when unbound; bound, the generic channels message, then the size, then the stereo or mono message exactly when the count is one of those |
| `SetupPresenter.SetSettingThemeColor` | app/src/main/java/com/dimowner/audiorecorder/app/setup/SetupPresenter.java:124-126 | only the theme colour changes; no view call; the view binding is kept |
| `SetupPresenter.SetSettingNamingFormat` | app/src/main/java/com/dimowner/audiorecorder/app/setup/SetupPresenter.java:129-131 | only the naming format changes; no view call; the view binding is kept |
| `SetupPresenter.SetSettingRecordingFormat` | app/src/main/java/com/dimowner/audiorecorder/app/setup/SetupPresenter.java:134-146 | stores only the format; always faults when unbound; bound, WAV gives hide, info_wav, info_wav, size; M4A gives info_m4a, show, info_m4a, size; 3GP or any other key gives show, size |
| `SetupPresenter.ExecuteFirstRun` | app/src/main/java/com/dimowner/audiorecorder/app/setup/SetupPresenter.java:149-153 | afterwards the first run is marked executed; only that flag may change; the presenter is unchanged exactly when the first run was already executed; no view call |
| `SetupPresenter.ResetSettings` | app/src/main/java/com/dimowner/audiorecorder/app/setup/SetupPresenter.java:156-158 | the preferences become the store's defaults; the view is neither called nor changed |
| `SetupPresenter.BindView` | app/src/main/java/com/dimowner/audiorecorder/app/setup/SetupPresenter.java:161-163 | the bound view becomes the argument (possibly none); preferences unchanged; no view call |
| `SetupPresenter.UnbindView` | app/src/main/java/com/dimowner/audiorecorder/app/setup/SetupPresenter.java:166-170 | afterwards no view is bound; preferences unchanged; no view call |
| `SetupPresenter.Clear` | app/src/main/java/com/dimowner/audiorecorder/app/setup/SetupPresenter.java:173-177 | afterwards no view is bound; preferences unchanged; no view call |
| `SetupProperties.SizePerMinExamples` | app/src/main/java/com/dimowner/audiorecorder/app/setup/SetupPresenter.java:203-212 | M4A at 128000 bit/s gives 960000 bytes/min; stereo WAV at 44100 Hz gives 10584000 bytes/min; 3GP gives 0 |
| `SetupProperties.SizePerMinInputs` | app/src/main/java/com/dimowner/audiorecorder/app/setup/SetupPresenter.java:203-212 | M4A size ignores sample rate and channels; WAV size ignores bitrate; stereo WAV is twice mono WAV |
| `SetupProperties.SizePerMinNegativeBitrate` | app/src/main/java/com/dimowner/audiorecorder/app/setup/SetupPresenter.java:206 | a negative bitrate's division rounds toward zero (-1 gives 0, -9 gives -60), not toward minus infinity |
| `SetupProperties.FormatMessageShownTwice` | app/src/main/java/com/dimowner/audiorecorder/app/setup/SetupPresenter.java:134-146 | with a bound view the format setter shows the WAV or M4A message exactly twice and no message for other keys; and it leaves the selector visible exactly for non-WAV keys |
| `SetupProperties.LoadSettingsFormatMessageOnce` | app/src/main/java/com/dimowner/audiorecorder/app/setup/SetupPresenter.java:38-49 | loading shows the stored format's message exactly once (none for 3GP or unknown keys) and no other message |
| `SetupProperties.MessagesIdentifyValues` | app/src/main/java/com/dimowner/audiorecorder/app/setup/SetupPresenter.java:58-120 | two different recognised bitrates, sample rates or channel counts never get the same message |
| `SetupProperties.ExecuteFirstRunIdempotent` | app/src/main/java/com/dimowner/audiorecorder/app/setup/SetupPresenter.java:149-153 | a second first-run execution leaves the presenter unchanged and emits nothing |
| `SetupProperties.UnbindViewIdempotent` | app/src/main/java/com/dimowner/audiorecorder/app/setup/SetupPresenter.java:166-170 | unbinding an unbound presenter changes nothing |
| `SetupProperties.ClearIsUnbindView` | app/src/main/java/com/dimowner/audiorecorder/app/setup/SetupPresenter.java:166-177 | clear has the same outcome as unbindView on every presenter, and a second clear changes nothing |
| `SetupProperties.BindThenUnbind` | app/src/main/java/com/dimowner/audiorecorder/app/setup/SetupPresenter.java:161-170 | binding a view and then unbinding it returns to the same preferences with no view |
| `Sessions.LoadSettingsSyncsScreen` | app/src/main/java/com/dimowner/audiorecorder/app/setup/SetupPresenter.java:38-49 | whatever a bound screen showed before, after loading it shows the size of the stored settings, and the selector is visible exactly when the stored format is not WAV |
| `Sessions.BitrateKeepsScreenInSync` | app/src/main/java/com/dimowner/audiorecorder/app/setup/SetupPresenter.java:52-56 | with a bound view, setting the bitrate completes and an in-sync screen stays in sync with the new preferences |
| `Sessions.SampleRateKeepsScreenInSync` | app/src/main/java/com/dimowner/audiorecorder/app/setup/SetupPresenter.java:79-83 | with a bound view, setting the sample rate completes and an in-sync screen stays in sync with the new preferences |
| `Sessions.ChannelCountKeepsScreenInSync` | app/src/main/java/com/dimowner/audiorecorder/app/setup/SetupPresenter.java:109-121 | with a bound view, setting the channel count completes; the size shown before the stereo/mono message is the one that stays on screen, in sync with the new preferences |
| `Sessions.RecordingFormatSyncsScreen` | app/src/main/java/com/dimowner/audiorecorder/app/setup/SetupPresenter.java:134-146 | with a bound view, setting the format completes and brings the screen in sync with the new preferences, whatever it showed before |
| `Sessions.ApplyKeepsScreenInSync` | app/src/main/java/com/dimowner/audiorecorder/app/setup/SetupPresenter.java:38-153 | with a bound view, each user setting (load, bitrate, sample rate, channels, theme, naming, format, first run) completes, keeps the view and keeps an in-sync screen in sync |
| `Sessions.BoundSessionKeepsScreenInSync` | app/src/main/java/com/dimowner/audiorecorder/app/setup/SetupPresenter.java:38-153 | any sequence of such settings on a bound view never faults, keeps the view, and leaves an in-sync screen in sync with the final preferences |
| `Sessions.ApplyUnboundIsSilent` | app/src/main/java/com/dimowner/audiorecorder/app/setup/SetupPresenter.java:38-177 | with no view bound, every operation except bindView makes no view call and leaves the view unbound |
| `Sessions.UnboundSessionIsSilent` | app/src/main/java/com/dimowner/audiorecorder/app/setup/SetupPresenter.java:38-177 | a session that starts unbound and never binds a view makes no view call at all, whether or not it faults |
| `Sessions.FirstRunStaysExecuted` | app/src/main/java/com/dimowner/audiorecorder/app/setup/SetupPresenter.java:149-153 | once the first run is executed, no session without a reset makes it pending again |

## Left out

- Size text: the presenter divides the byte count by 1000000 as a float and formats it with `DecimalFormat("#.#")`. This is floating-point rendering, so the size call carries the whole byte count instead.
- SetupPresenter.SizePerMinMeaning: does not model Java `int` overflow. `60 * (sampleRate * channels * 2)` and `60 * (bitrate/8)` are computed in 32-bit `int` before widening to `long`. The model uses unbounded integers, so it says nothing about very large settings.
- SetupPresenter.SetSettingRecordingFormat: does not model a `null` format key, which would throw in the Java `switch` on strings. Keys here are always strings.
- The preference store: `Prefs` is not part of this model. It is a plain record. `firstRun` is true while the first run is pending, and marking it executed clears the flag. What `resetSettings` restores is the store's business, so `SetupPresenter.ResetSettings` takes the defaults as a parameter.
- Constant values: `AppConstants` and the `R.string` resources are not part of this model. Messages are tags. Each constant's value is assumed from its name (`RECORD_ENCODING_BITRATE_128000` is 128000, and so on), with stereo 2 and mono 1 and the format keys "wav", "m4a" and "3gp". `SetupProperties.SizePerMinExamples` and `SetupProperties.SizePerMinInputs` rely on the exact values 128000, 44100, 2 and 1. Every other proof relies only on each group's values being distinct.
- Platform: view rendering, threading and the Android lifecycle are not modelled. Every operation runs to completion before the next one starts.
