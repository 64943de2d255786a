# Transcription of one recording with Whisper

This project models `processWavFile` and `sendToRemoteWhisper` from
`src/main/domain/whisper.ts`. Together they form the part of the desktop
recorder that turns one WAV file into a transcript.

A job first announces the `whisper` step. It then computes the output base
path (the output path without its extension) and reads the audio duration.
When the remote server is requested:

- a missing remote configuration rejects the job;
- the audio is sent to the server with every Whisper setting and, when a
  token is set, a bearer header;
- the returned segments become transcript items, and each item is reported
  as progress: its end offset over the largest end offset.

Any remote failure is reported as one error notification and the job falls
back to the local engine. The local engine is started with an argument map
built from the settings. Each chunk of its standard output yields at most one
progress report: the first bracketed timestamp range's end, in
milliseconds, over the duration.

Modules:

- `Types`: the settings and the transcript shapes.
- `Postprocess`: the step, progress and error notifications, and a
  `Reporter` that records them in order.
- `RemoteWhisper`: the request, the header, the segment-to-item mapping and
  the error wrapping of `sendToRemoteWhisper`.
- `LocalWhisper`: the output base path under POSIX path rules (see "Left
  out" for the Windows rules the shipped engine runs under), the argument
  map, and the matching of timestamps in standard output.
- `Whisper`: the job as a pure specification `Run`, which returns a `Trace`
  of everything observable. Also the `Job` class, whose methods perform the
  same steps on mutable state and are proved to produce exactly `Run`'s trace.

Everything the job asks of the outside world is a field of `Environment`:

- the duration reader's result;
- the stored settings;
- the audio file's bytes;
- the remote server, as a function from request to reply;
- the model resolver `getModelPath`;
- the millisecond parser `getMillisecondsFromTimeString`;
- the local process's output chunks and its exit.

The code never checks the duration it reads (whisper.ts line 102), and the
model follows it: any duration that is read, zero or negative included, is
used as the progress denominator.

## Model

| member | source | states |
|---|---|---|
| RemoteWhisper.BuildOptions | src/main/domain/whisper.ts:28-46 | the options carry the task "transcribe" and every Whisper setting unchanged: reading them back gives the settings |
| RemoteWhisper.AuthorizationHeader | src/main/domain/whisper.ts:52 | the Authorization header is present exactly when a non-empty token is configured, and is then "Bearer " followed by the token |
| RemoteWhisper.AuthorizationRoundTrip | src/main/domain/whisper.ts:52 | the token can be recovered from the header that carries it |
| RemoteWhisper.BuildRequest | src/main/domain/whisper.ts:25-55 | the POST goes to the server URL with the file's bytes, the options holding the settings, a JSON content type, the bearer header and the configured timeout |
| RemoteWhisper.ToItem | src/main/domain/whisper.ts:59-70 | start/end become the item's timestamps, start_offset/end_offset its offsets, and text and speaker are kept |
| RemoteWhisper.ToTranscript | src/main/domain/whisper.ts:57-76 | the transcript has the response language and one item per segment, the i-th item made from the i-th segment |
| RemoteWhisper.SegmentsRoundTrip | src/main/domain/whisper.ts:58-71 | the mapping loses nothing: the segments are recovered from the items, in order |
| RemoteWhisper.SendToRemoteWhisper | src/main/domain/whisper.ts:19-88 | the remote client: read the file, post the request built from the configuration and settings, and turn the answer's segments into a transcript; its properties are those of `SendOutcome` |
| RemoteWhisper.SendOutcome | src/main/domain/whisper.ts:24-87 | success exactly when the file is read, the server answers and the answer holds segments, and the transcript is then that answer; a read failure or a missing segment list fails with the unexpected-error message, a transport error with "Remote Whisper server error: " followed by the transport's message |
| LocalWhisper.Dirname | src/main/domain/whisper.ts:99 | path.dirname: the part before the last slash, "/" when that slash is the first character, "." when there is none |
| LocalWhisper.Basename | src/main/domain/whisper.ts:100 | path.basename: the part after the last slash, or the whole path |
| LocalWhisper.Extname | src/main/domain/whisper.ts:100 | path.extname: from the base name's last dot to its end, empty when there is no dot, when the only dot leads, and for ".." |
| LocalWhisper.Stem | src/main/domain/whisper.ts:100 | path.basename(output, path.extname(output)): the base name with its extension removed |
| LocalWhisper.Join | src/main/domain/whisper.ts:98-101 | path.join of the directory and the stem: an empty stem gives the directory, "." is dropped, "/" is not doubled, otherwise one slash between them |
| LocalWhisper.OutputBasePath | src/main/domain/whisper.ts:98-101 | the `out` value: the directory joined with the stem; its properties are those of `OutputBasePathStripsExtension` |
| LocalWhisper.LastIndex | src/main/domain/whisper.ts:98-100 | the last occurrence of a character, which path.dirname, path.basename and path.extname split at: the position holds it and no later one does; none means it does not occur |
| LocalWhisper.ExtnameShape | src/main/domain/whisper.ts:100 | an extension is empty or starts with its only dot and is a proper suffix of the name |
| LocalWhisper.StemAndExtension | src/main/domain/whisper.ts:100 | the base name is its stem followed by its extension, and a non-empty name has a non-empty stem |
| LocalWhisper.JoinThenAppend | src/main/domain/whisper.ts:98-101 | path.join drops a "." directory, does not double a "/" root, and otherwise puts one slash between directory and name |
| LocalWhisper.SplitAtLastSlash | src/main/domain/whisper.ts:98-100 | a path not ending in a slash is its directory, a slash and a non-empty base name; with no slash its directory is "." |
| LocalWhisper.BasePathWithoutSlash | src/main/domain/whisper.ts:98-101 | for a bare file name the base path is the name without its extension |
| LocalWhisper.BasePathAtRoot | src/main/domain/whisper.ts:98-101 | for a file directly under "/" the base path is the path without its extension |
| LocalWhisper.BasePathInDot | src/main/domain/whisper.ts:98-101 | a "./" directory is dropped from the base path |
| LocalWhisper.BasePathInDirectory | src/main/domain/whisper.ts:98-101 | any other directory is kept: the base path followed by the extension is the output path |
| LocalWhisper.OutputBasePathStripsExtension | src/main/domain/whisper.ts:98-101 | the base path is the output path with its final extension removed, and without its directory when that is "." |
| LocalWhisper.NamesDistinct | src/main/domain/whisper.ts:130-150 | the nineteen argument keys have distinct names |
| LocalWhisper.LocalArgs | src/main/domain/whisper.ts:130-150 | the object handed to `buildArgs`: one entry per key, valued as `ArgFor` says; its properties are those of `LocalArgsKeys` and `LocalArgsContents` |
| LocalWhisper.LocalArgsKeys | src/main/domain/whisper.ts:130-150 | the argument map has an entry for every key |
| LocalWhisper.LocalArgsContents | src/main/domain/whisper.ts:129-150 | the map holds the input, JSON output on, the output base path and the model path, and every setting except the model name reads back unchanged |
| LocalWhisper.FirstMatchFrom | src/main/domain/whisper.ts:157-160 | the leftmost position where "[HH:MM:SS.mmm --> HH:MM:SS.mmm]" matches; none means no position matches |
| LocalWhisper.FirstEndTimestamp | src/main/domain/whisper.ts:157-161 | the end timestamp captured at the leftmost match (no match starts earlier), which is well-formed; none exactly when the chunk has no match |
| LocalWhisper.RangeMatchesAfter | src/main/domain/whisper.ts:158 | a well-formed range matches where it starts and captures its end timestamp |
| LocalWhisper.FirstRangeWins | src/main/domain/whisper.ts:157-161 | when the first "[" of a chunk opens a well-formed range, its end timestamp is the one used, whatever follows |
| LocalWhisper.ChunkEvents | src/main/domain/whisper.ts:155-165 | a chunk reports at most one progress, exactly when its milliseconds are positive, as those milliseconds over the duration |
| LocalWhisper.LocalProgress | src/main/domain/whisper.ts:155-165 | the reports of all chunks, each chunk's `ChunkEvents` in arrival order; its properties are those of `LocalProgressStep`, `LocalProgressShape` and `LocalProgressHasNoErrors` |
| LocalWhisper.LocalProgressStep | src/main/domain/whisper.ts:155-165 | each further chunk appends its own reports after those of the earlier chunks |
| LocalWhisper.LocalProgressShape | src/main/domain/whisper.ts:155-165 | the local run reports no more than one event per chunk, each a "whisper" progress with positive numerator over the duration |
| LocalWhisper.LocalProgressHasNoErrors | src/main/domain/whisper.ts:155-165 | the local run's output never produces an error notification |
| Postprocess.Reporter.SetStep | src/main/domain/whisper.ts:96 | announcing the step appends exactly that notification |
| Postprocess.Reporter.SetProgress | src/main/domain/whisper.ts:117 | a progress report appends exactly that notification |
| Postprocess.Reporter.SetError | src/main/domain/whisper.ts:124 | an error report appends exactly that notification |
| Whisper.MaxOffset | src/main/domain/whisper.ts:114 | the total of a non-empty transcript is an item's end offset and no item's end offset exceeds it |
| Whisper.RemoteProgress | src/main/domain/whisper.ts:113-118 | the reports of the remote loop: each item's end offset over the largest one, in item order; its properties are those of `RemoteProgressPerItem`, `RemoteProgressBounds` and `RemoteProgressMonotone` |
| Whisper.RemoteProgressPerItem | src/main/domain/whisper.ts:114-118 | one progress per item, in item order, each the item's end offset over the total |
| Whisper.RemoteProgressBounds | src/main/domain/whisper.ts:114-117 | with a positive total the item attaining it reports exactly 1, and with non-negative offsets every report lies in [0, 1] |
| Whisper.RemoteProgressMonotone | src/main/domain/whisper.ts:114-118 | the remote reports never decrease exactly when the items' end offsets never decrease |
| Whisper.Run | src/main/domain/whisper.ts:90-168 | the whole job as a trace of reports, remote attempts, launches, lifecycle and outcome; its properties are those of the lemmas below and `Job.ProcessWavFile` performs it |
| Whisper.StepAnnouncedFirst | src/main/domain/whisper.ts:96-102 | every job reports the step first; when the duration cannot be read, that is all it reports |
| Whisper.MissingConfigFails | src/main/domain/whisper.ts:104-108 | remote requested without a configuration: the job is rejected after the step, with no remote attempt and no launch |
| Whisper.RemoteSuccessSkipsLocal | src/main/domain/whisper.ts:110-120 | a successful remote call reports one progress per item, no error, makes one remote attempt and never starts the local engine |
| Whisper.RemoteFailureFallsBack | src/main/domain/whisper.ts:121-150 | a failed remote call yields exactly one error, the fallback message right after the step, and one local launch whose arguments carry the settings |
| Whisper.LocalOnlyNeverCallsRemote | src/main/domain/whisper.ts:104-154 | without the remote option the server is never called, no error is reported, and the local engine is launched once with the job's arguments |
| Whisper.AtMostOneAttemptEach | src/main/domain/whisper.ts:104-154 | at most one remote attempt, only when requested, at most one launch, and none after a remote success |
| Whisper.RunFollowsLifecycle | src/main/domain/whisper.ts:90-168 | every job runs from NotStarted to a terminal state by allowed moves, ends in Done exactly when it completes, and goes local after a failed remote attempt |
| Whisper.ProcessFailureRejects | src/main/domain/whisper.ts:154-166 | a failing local process rejects the job, and its output's progress is the last thing reported |
| Whisper.Job.ReportRemoteProgress | src/main/domain/whisper.ts:113-118 | the loop reports exactly the remote progress of the items, in order |
| Whisper.Job.OnStdout | src/main/domain/whisper.ts:155-165 | the listener appends exactly the chunk's events |
| Whisper.Job.Listen | src/main/domain/whisper.ts:155-165 | feeding the chunks in arrival order appends exactly the local progress of all of them |
| Whisper.Job.AttemptRemote | src/main/domain/whisper.ts:110-126 | one call of the remote client (which sends no request when the file cannot be read); success reports the items' progress and finishes, failure reports the fallback error and nothing else |
| Whisper.Job.RunLocal | src/main/domain/whisper.ts:129-166 | one launch with the argument map, the output's progress reported, and the job's end decided by the process's exit |
| Whisper.Job.Reject | src/main/domain/whisper.ts:102-108 | a rejected job reports only the step and ends Failed, with no call and no launch |
| Whisper.Job.FinishLocally | src/main/domain/whisper.ts:121-166 | the local tail of a job leaves it in exactly the state `Run` prescribes for that path |
| Whisper.Job.RemoteThenLocal | src/main/domain/whisper.ts:104-166 | the remote attempt and, if it fails, the local run leave the job in exactly the state `Run` prescribes |
| Whisper.Job.ProcessWavFile | src/main/domain/whisper.ts:90-168 | the job's reports, remote attempts, launches, lifecycle and outcome are exactly those of `Run` |

## Left out

- Reading the file (`fs.promises.readFile`), the HTTP call (`axios.post`), `ffmpeg.getDuration`, `getSettings`, `runner.execute` and `getModelPath` are not modelled as I/O. Their results are fields of `Environment`: the audio bytes or a read failure, a reply function, the duration or a rejection, one settings snapshot, the output chunks with the exit, and a model-path function.
- A rejection of `getSettings` (awaited at whisper.ts lines 105 and 129) rejects the job in the code. The model's `Environment.settings` is always available, so this rejection is not modelled.
- `getSettings` is called twice on the remote-fallback path. The model reads both calls from one snapshot, so settings that change between the two calls are not modelled.
- `buildArgs` is not part of this model. The job is modelled up to the key/value map it hands to `buildArgs`. `ArgKey.Name` gives the key each entry has in that map. The map is unordered, so the key order of the object literal handed to `buildArgs` (which may decide the order of the command-line arguments) is not kept.
- `getMillisecondsFromTimeString` is not part of this model. It is the parameter `msOf`, applied to the first captured timestamp or to nothing when the chunk has no match. Exceptions it might throw are not modelled.
- The output base path is computed just before the local run rather than before the duration is read. The computation is pure, so the order does not change what the job does.
- Logging (`log.error`, `log.info`) and the computed `whisperPath` are left out. They do not affect the job's behaviour.
- Progress values are kept as numerator/denominator pairs, not floating-point quotients. NaN and infinity (a zero total offset, a zero duration), `Math.max` of an empty list, and rounding are therefore not modelled. With no items the progress loop does not run, and the model does not use the maximum.
- A segment field missing from the server's JSON (read as `undefined` in JavaScript) is not modelled. Every segment has all six fields; only a missing segment list is modelled, as a failure.
- Transport failures are not distinguished further. Connection errors, timeouts and non-2xx statuses are all one `TransportError` carrying the transport's message.
- LocalWhisper.OutputBasePathStripsExtension: covers output paths that do not end in "/" and have no repeated slashes. Node's path normalisation (repeated slashes, trailing slashes, "." and ".." segments inside the directory) is not modelled by `Dirname` and `Join`.
- LocalWhisper.OutputBasePath, LocalWhisper.Dirname, LocalWhisper.Extname, LocalWhisper.Join: these follow Node's POSIX path rules. The engine launched here is `whisper.exe` (whisper.ts line 17), so on Windows Node's win32 rules apply, and they differ. For example, for the output `C:\u\j.d\t` the model gives `C:\u\j`, while the win32 rules split at the backslashes and give `C:\u\j.d\t`. Drive letters, backslash separators and UNC paths are not modelled.
- LocalWhisper.Join: a stem of "." or ".." is not normalised. The model gives `OutputBasePath("a/..") == "a/.."`, where Node's `path.join` gives ".".
- Concurrency: `processWavFile` is modelled as one job at a time. The stdout listener is modelled as running on chunks in arrival order before the process is awaited. Interleaving with other jobs, and chunks that split a timestamp across two `data` events, are not modelled.
- `Trace.remoteCalls` and `Job.remoteCalls` count calls of the remote client, not HTTP requests: when the file cannot be read, the client makes no request, yet the call is counted.
- The remote client's timeout is passed through in the request. How long the call takes is not modelled.
