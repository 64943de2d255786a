/**
 * The shared records of the application: the whisper settings, the remote
 * server configuration and the transcript produced for one recording.
 */
module Types {
  import opened Wrappers

  newtype byte = x: int | 0 <= x < 256

  /** The `whisper` part of the settings, read-only to a transcription job. */
  datatype WhisperSettings = WhisperSettings(
    model: string,
    language: string,
    threads: int,
    processors: int,
    maxContext: int,
    maxLen: int,
    splitOnWord: bool,
    bestOf: int,
    beamSize: int,
    audioCtx: int,
    wordThold: real,
    entropyThold: real,
    logprobThold: real,
    translate: bool,
    diarize: bool,
    noFallback: bool)

  /** Where the remote server lives; the token is optional. */
  datatype RemoteWhisperConfig = RemoteWhisperConfig(
    serverUrl: string,
    authToken: Option<string>,
    timeout: int)

  /** The part of the stored settings a job reads; `remoteWhisper` may be missing. */
  datatype Settings = Settings(whisper: WhisperSettings, remoteWhisper: Option<RemoteWhisperConfig>)

  /** A `{from, to}` pair, used for both timestamps and offsets. */
  datatype Span = Span(from: real, to: real)

  datatype TranscriptItem = TranscriptItem(
    timestamps: Span,
    offsets: Span,
    text: string,
    speaker: Option<string>)

  datatype TranscriptResult = TranscriptResult(language: string)

  datatype RecordingTranscript = RecordingTranscript(
    result: TranscriptResult,
    transcription: seq<TranscriptItem>)
}
