/**
 * The remote transcription client: the request sent to the server (options
 * mirroring the whisper settings, a bearer header when a token is set) and
 * the normalisation of the server's segments into transcript items.
 */
module RemoteWhisper {
  import opened Wrappers
  import opened Types

  const TranscribeTask: string := "transcribe"
  const JsonContentType: string := "application/json"
  const BearerPrefix: string := "Bearer "
  const ServerErrorPrefix: string := "Remote Whisper server error: "
  const UnexpectedError: string :=
    "Unexpected error occurred while sending request to remote Whisper server"

  /** The `options` object of the request body. */
  datatype RequestOptions = RequestOptions(
    task: string,
    model: string,
    language: string,
    threads: int,
    processors: int,
    maxContext: int,
    maxLen: int,
    splitOnWord: bool,
    bestOf: int,
    beamSize: int,
    audioCtx: int,
    wordThold: real,
    entropyThold: real,
    logprobThold: real,
    translate: bool,
    diarize: bool,
    noFallback: bool)

  datatype Headers = Headers(contentType: string, authorization: Option<string>)

  /** One POST to the server: its URL, body (audio and options), headers and timeout. */
  datatype Request = Request(
    url: string,
    audio: seq<byte>,
    options: RequestOptions,
    headers: Headers,
    timeout: int)

  /** One segment of the server's response. */
  datatype Segment = Segment(
    start: real,
    end: real,
    startOffset: real,
    endOffset: real,
    text: string,
    speaker: Option<string>)

  /** The response body; `segments` is None when the body has no segment list. */
  datatype ResponseBody = ResponseBody(language: string, segments: Option<seq<Segment>>)

  /** What the HTTP transport gives back: a transport error (connection, timeout, non-2xx status) or a body. */
  datatype Reply = TransportError(message: string) | Received(body: ResponseBody)

  /**
   * The request options: the task fixed to transcription and every setting
   * copied unchanged under its own name, so that reading them back gives the settings.
   */
  function BuildOptions(w: WhisperSettings): (o: RequestOptions)
    ensures o.task == TranscribeTask
    ensures SettingsOfOptions(o) == w
  {
    RequestOptions(TranscribeTask, w.model, w.language, w.threads, w.processors,
      w.maxContext, w.maxLen, w.splitOnWord, w.bestOf, w.beamSize, w.audioCtx,
      w.wordThold, w.entropyThold, w.logprobThold, w.translate, w.diarize, w.noFallback)
  }

  /** Reads the settings back out of a request's options. */
  function SettingsOfOptions(o: RequestOptions): WhisperSettings
  {
    WhisperSettings(o.model, o.language, o.threads, o.processors, o.maxContext,
      o.maxLen, o.splitOnWord, o.bestOf, o.beamSize, o.audioCtx, o.wordThold,
      o.entropyThold, o.logprobThold, o.translate, o.diarize, o.noFallback)
  }

  /**
   * The Authorization header: present exactly when a non-empty token is set
   * (an empty token is falsy), and then "Bearer " followed by the token.
   */
  function AuthorizationHeader(token: Option<string>): (h: Option<string>)
    ensures h.Some? <==> token.Some? && token.value != ""
    ensures h.Some? ==> h.value == BearerPrefix + token.value
  {
    match token
    case Some(t) => if t != "" then Some(BearerPrefix + t) else None
    case None => None
  }

  /** The token a bearer header carries, if it is one. */
  function BearerToken(h: string): Option<string>
  {
    if |BearerPrefix| <= |h| && h[..|BearerPrefix|] == BearerPrefix then Some(h[|BearerPrefix|..])
    else None
  }

  /** The header gives the configured token back. */
  lemma {:induction false} AuthorizationRoundTrip(token: string)
    requires token != ""
    ensures AuthorizationHeader(Some(token)).Some?
    ensures BearerToken(AuthorizationHeader(Some(token)).value) == Some(token)
  {
    var h := BearerPrefix + token;
    assert h[..|BearerPrefix|] == BearerPrefix;
    assert h[|BearerPrefix|..] == token;
  }

  function BuildRequest(audio: seq<byte>, config: RemoteWhisperConfig, w: WhisperSettings): (r: Request)
    ensures r.url == config.serverUrl && r.audio == audio && r.timeout == config.timeout
    ensures SettingsOfOptions(r.options) == w && r.options.task == TranscribeTask
    ensures r.headers.contentType == JsonContentType
    ensures r.headers.authorization == AuthorizationHeader(config.authToken)
  {
    Request(config.serverUrl, audio, BuildOptions(w),
      Headers(JsonContentType, AuthorizationHeader(config.authToken)), config.timeout)
  }

  /** One segment becomes one transcript item, field by field. */
  function ToItem(s: Segment): (item: TranscriptItem)
    ensures item.timestamps.from == s.start && item.timestamps.to == s.end
    ensures item.offsets.from == s.startOffset && item.offsets.to == s.endOffset
    ensures item.text == s.text && item.speaker == s.speaker
  {
    TranscriptItem(Span(s.start, s.end), Span(s.startOffset, s.endOffset), s.text, s.speaker)
  }

  /** The segment an item was made from. */
  function ToSegment(item: TranscriptItem): Segment
  {
    Segment(item.timestamps.from, item.timestamps.to, item.offsets.from, item.offsets.to,
      item.text, item.speaker)
  }

  /** Builds the transcript: the response language and one item per segment, in order. */
  function ToTranscript(language: string, segments: seq<Segment>): (t: RecordingTranscript)
    ensures t.result.language == language
    ensures |t.transcription| == |segments|
    ensures forall i :: 0 <= i < |segments| ==> t.transcription[i] == ToItem(segments[i])
  {
    RecordingTranscript(TranscriptResult(language),
      seq(|segments|, i requires 0 <= i < |segments| => ToItem(segments[i])))
  }

  /** Nothing is lost by the mapping: the segments can be read back from the transcript, in order. */
  lemma SegmentsRoundTrip(language: string, segments: seq<Segment>)
    ensures var t := ToTranscript(language, segments);
      seq(|t.transcription|, i requires 0 <= i < |t.transcription| => ToSegment(t.transcription[i])) == segments
  {
    var t := ToTranscript(language, segments);
    var back := seq(|t.transcription|, i requires 0 <= i < |t.transcription| => ToSegment(t.transcription[i]));
    forall i | 0 <= i < |segments| ensures back[i] == segments[i] {
      assert t.transcription[i] == ToItem(segments[i]);
    }
  }

  /**
   * Sends the audio read from the file to the server. A read failure is
   * reported as an unexpected error, a transport error under the server
   * error prefix, and a body without a segment list (a type error when it is
   * mapped) as an unexpected error.
   */
  function SendToRemoteWhisper(
    audio: Option<seq<byte>>,
    server: Request -> Reply,
    config: RemoteWhisperConfig,
    w: WhisperSettings): (r: Result<RecordingTranscript, string>)
  {
    match audio
    case None => Failure(UnexpectedError)
    case Some(data) =>
      match server(BuildRequest(data, config, w))
      case TransportError(message) => Failure(ServerErrorPrefix + message)
      case Received(body) =>
        match body.segments
        case None => Failure(UnexpectedError)
        case Some(segments) => Success(ToTranscript(body.language, segments))
  }

  /**
   * The call succeeds exactly when the file was read, the server answered and
   * the answer holds a segment list; the transcript is then that answer,
   * normalised. Every failure carries one of the two wrapped messages.
   */
  lemma SendOutcome(
    audio: Option<seq<byte>>,
    server: Request -> Reply,
    config: RemoteWhisperConfig,
    w: WhisperSettings)
    ensures var r := SendToRemoteWhisper(audio, server, config, w);
      && (r.Success? <==>
           audio.Some? && server(BuildRequest(audio.value, config, w)).Received?
           && server(BuildRequest(audio.value, config, w)).body.segments.Some?)
      && (r.Success? ==>
           var body := server(BuildRequest(audio.value, config, w)).body;
           r.value == ToTranscript(body.language, body.segments.value))
      && (r.Failure? ==>
           r.error == UnexpectedError
           || (|ServerErrorPrefix| <= |r.error| && r.error[..|ServerErrorPrefix|] == ServerErrorPrefix))
      && (audio.None? ==> r == Failure(UnexpectedError))
      && (audio.Some? && server(BuildRequest(audio.value, config, w)).TransportError? ==>
           r == Failure(ServerErrorPrefix + server(BuildRequest(audio.value, config, w)).message))
      && (audio.Some? && server(BuildRequest(audio.value, config, w)).Received?
          && server(BuildRequest(audio.value, config, w)).body.segments.None? ==>
           r == Failure(UnexpectedError))
  {
    var r := SendToRemoteWhisper(audio, server, config, w);
    if audio.Some? && server(BuildRequest(audio.value, config, w)).TransportError? {
      var m := server(BuildRequest(audio.value, config, w)).message;
      assert r.error == ServerErrorPrefix + m;
      assert (ServerErrorPrefix + m)[..|ServerErrorPrefix|] == ServerErrorPrefix;
    }
  }
}
