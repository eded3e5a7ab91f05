/**
 The application constants the settings screen dispatches on. AppConstants is
 not part of this model: each value below is assumed from its constant's name.
 Java requires the labels of one `switch` to be distinct compile-time
 constants. The size lemmas `SizePerMinExamples` and `SizePerMinInputs` rely on
 the exact values (128000, 44100, stereo 2, mono 1); every other proof relies
 only on each group being pairwise distinct.
 */
module AppConstants {

  // Encoder bitrates, in bits per second.
  const RecordEncodingBitrate48000: int := 48000
  const RecordEncodingBitrate96000: int := 96000
  const RecordEncodingBitrate128000: int := 128000
  const RecordEncodingBitrate192000: int := 192000
  const RecordEncodingBitrate256000: int := 256000

  // Sample rates, in Hz.
  const RecordSampleRate8000: int := 8000
  const RecordSampleRate16000: int := 16000
  const RecordSampleRate22050: int := 22050
  const RecordSampleRate32000: int := 32000
  const RecordSampleRate44100: int := 44100
  const RecordSampleRate48000: int := 48000

  // Channel counts.
  const RecordAudioStereo: int := 2
  const RecordAudioMono: int := 1

  // Recording format keys.
  const FormatWav: string := "wav"
  const FormatM4a: string := "m4a"
  const Format3gp: string := "3gp"
}
