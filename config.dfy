/** The service's fixed configuration (app/config.py). */
module Config {

  /** Upload extensions accepted by the multipart path. */
  const AllowedExtensions: set<string> := {"wav", "mp3", "flac"}

  /** Sample rate, in Hz, every decode is asked to produce. */
  const TargetSampleRate: nat := 16000

  /** Longest stretch of audio, in seconds, every decode is asked to read. */
  const MaxAudioDuration: nat := 60
}
