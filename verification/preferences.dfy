/** The persisted settings the presenter reads and writes, as one immutable record. */
module Preferences {

  /**
   `firstRun` is true while the first-run setup is still pending; marking the
   first run executed clears it.
   */
  datatype Prefs = Prefs(
    channelCount: int,
    recordingFormat: string,
    namingFormat: string,
    bitrate: int,
    sampleRate: int,
    themeColor: string,
    firstRun: bool)
}
