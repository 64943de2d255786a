/**
 * The local run: the output base path handed to the engine, the argument
 * map built from the settings, and the progress derived from each chunk of
 * the engine's standard output.
 */
module LocalWhisper {
  import opened Wrappers
  import opened Types
  import opened Postprocess

  // ---------------------------------------------------------------------
  // Output base path: dirname(output) joined with basename(output) minus
  // its extension (POSIX path rules).

  /** Index of the last occurrence of `c` in `s`. */
  function LastIndex(s: string, c: char): (r: Option<nat>)
    ensures r.Some? ==> r.value < |s| && s[r.value] == c
    ensures r.Some? ==> forall j :: r.value < j < |s| ==> s[j] != c
    ensures r.None? ==> forall j :: 0 <= j < |s| ==> s[j] != c
  {
    LastIndexBelow(s, c, |s|)
  }

  /** Index of the last occurrence of `c` among the first `n` elements of `s`. */
  function LastIndexBelow(s: string, c: char, n: nat): (r: Option<nat>)
    requires n <= |s|
    ensures r.Some? ==> r.value < n && s[r.value] == c
    ensures r.Some? ==> forall j :: r.value < j < n ==> s[j] != c
    ensures r.None? ==> forall j :: 0 <= j < n ==> s[j] != c
  {
    if n == 0 then None
    else if s[n - 1] == c then Some(n - 1)
    else LastIndexBelow(s, c, n - 1)
  }

  function Dirname(p: string): string
  {
    match LastIndex(p, '/')
    case None => "."
    case Some(k) => if k == 0 then "/" else p[..k]
  }

  function Basename(p: string): string
  {
    match LastIndex(p, '/')
    case None => p
    case Some(k) => p[k + 1..]
  }

  /**
   * The extension of a base name: from its last dot to its end, except that
   * a name whose only dot is its first character, and the name "..", have none.
   */
  function Extname(b: string): string
  {
    match LastIndex(b, '.')
    case None => ""
    case Some(i) => if i == 0 || IsDotDot(b) then "" else b[i..]
  }

  predicate IsDotDot(b: string)
  {
    |b| == 2 && b[0] == '.' && b[1] == '.'
  }

  /** An extension is empty or a proper suffix of the name that starts with its only dot. */
  lemma ExtnameShape(b: string)
    ensures var e := Extname(b);
      e == "" || (e[0] == '.' && '.' !in e[1..] && |e| < |b| && b[|b| - |e|..] == e)
  {
    match LastIndex(b, '.')
    case None =>
    case Some(i) =>
      if i != 0 && !IsDotDot(b) {
        assert b[i..][1..] == b[i + 1..];
      }
  }

  /**
   * path.join of a directory and a base name: "." is dropped and "/" is not
   * doubled; normalisation of the directory itself is not modelled.
   */
  function Join(dir: string, name: string): string
  {
    if |name| == 0 then dir
    else if |dir| == 1 && dir[0] == '.' then name
    else if |dir| == 1 && dir[0] == '/' then "/" + name
    else dir + "/" + name
  }

  function OutputBasePath(output: string): string
  {
    Join(Dirname(output), Stem(output))
  }

  /**
   * basename(output, extname(output)): the base name without its extension
   * (the extension is always a proper suffix of the base name, so it is
   * always removed when present).
   */
  function Stem(output: string): string
  {
    var b := Basename(output);
    b[..|b| - |Extname(b)|]
  }

  /** The base name is its stem followed by its extension; the stem of a non-empty name is non-empty. */
  lemma StemAndExtension(output: string)
    ensures Stem(output) + Extname(Basename(output)) == Basename(output)
    ensures Basename(output) != "" ==> Stem(output) != ""
  {
    ExtnameShape(Basename(output));
  }

  /** Where the last slash is, and what lies on either side of it. */
  lemma SplitAtLastSlash(output: string)
    requires output != "" && output[|output| - 1] != '/'
    ensures Basename(output) != ""
    ensures LastIndex(output, '/').None? ==> Basename(output) == output && Dirname(output) == "."
    ensures LastIndex(output, '/').Some? ==>
      var k := LastIndex(output, '/').value;
      && output == output[..k] + "/" + Basename(output)
      && Dirname(output) == (if k == 0 then "/" else output[..k])
  {
    match LastIndex(output, '/')
    case None =>
    case Some(k) =>
      assert k != |output| - 1;
      assert output[k..] == [output[k]] + output[k + 1..];
      assert output == output[..k] + output[k..];
  }

  predicate DoubleSlashAt(s: string, i: nat)
  {
    i + 1 < |s| && s[i] == '/' && s[i + 1] == '/'
  }

  /** Joining a directory and a stem, then appending an extension, in each case of Join. */
  lemma JoinThenAppend(dir: string, stem: string, ext: string)
    requires stem != ""
    ensures |dir| == 1 && dir[0] == '.' ==> Join(dir, stem) + ext == stem + ext
    ensures |dir| == 1 && dir[0] == '/' ==> Join(dir, stem) + ext == "/" + (stem + ext)
    ensures !(|dir| == 1 && (dir[0] == '.' || dir[0] == '/')) ==>
      Join(dir, stem) + ext == dir + "/" + (stem + ext)
  {
    assert ("/" + stem) + ext == "/" + (stem + ext);
    assert (dir + "/" + stem) + ext == dir + "/" + (stem + ext);
  }

  /** No slash: the directory is "." and the base path is the stem alone. */
  lemma BasePathWithoutSlash(output: string)
    requires output != "" && LastIndex(output, '/').None?
    ensures Dirname(output) == "."
    ensures OutputBasePath(output) + Extname(Basename(output)) == Basename(output)
  {
    StemAndExtension(output);
    JoinThenAppend(Dirname(output), Stem(output), Extname(Basename(output)));
  }

  /** Only a leading slash: the directory is "/" and the stem is joined onto it. */
  lemma BasePathAtRoot(output: string)
    requires output != "" && output[|output| - 1] != '/' && LastIndex(output, '/') == Some(0)
    ensures Dirname(output) == "/"
    ensures OutputBasePath(output) + Extname(Basename(output)) == output
  {
    SplitAtLastSlash(output);
    StemAndExtension(output);
    JoinThenAppend(Dirname(output), Stem(output), Extname(Basename(output)));
  }

  /** The directory ".": it is dropped from the base path. */
  lemma BasePathInDot(output: string)
    requires output != "" && output[|output| - 1] != '/' && LastIndex(output, '/') == Some(1) && output[0] == '.'
    ensures Dirname(output) == "."
    ensures OutputBasePath(output) + Extname(Basename(output)) == Basename(output)
  {
    SplitAtLastSlash(output);
    StemAndExtension(output);
    JoinThenAppend(Dirname(output), Stem(output), Extname(Basename(output)));
  }

  /** Any other directory is kept, with one slash before the stem. */
  lemma BasePathInDirectory(output: string, k: nat)
    requires output != "" && output[|output| - 1] != '/' && LastIndex(output, '/') == Some(k) && 0 < k
    requires k == 1 ==> output[0] != '.' && output[0] != '/'
    ensures Dirname(output) != "."
    ensures OutputBasePath(output) + Extname(Basename(output)) == output
  {
    SplitAtLastSlash(output);
    StemAndExtension(output);
    var dir := Dirname(output);
    JoinThenAppend(dir, Stem(output), Extname(Basename(output)));
    assert dir == output[..k];
    assert |dir| == 1 ==> dir[0] == output[0];
  }

  /**
   * The base path is the output path with its final extension removed; a
   * path whose directory is "." loses that directory. Paths with repeated
   * slashes, which path.join would normalise, are not covered.
   */
  lemma OutputBasePathStripsExtension(output: string)
    requires output != "" && output[|output| - 1] != '/'
    requires forall i :: 0 <= i < |output| - 1 ==> !DoubleSlashAt(output, i)
    ensures var ext := Extname(Basename(output));
      && (ext == "" || (ext[0] == '.' && '.' !in ext[1..]))
      && (Dirname(output) != "." ==> OutputBasePath(output) + ext == output)
      && (Dirname(output) == "." ==> OutputBasePath(output) + ext == Basename(output))
  {
    ExtnameShape(Basename(output));
    match LastIndex(output, '/')
    case None =>
      BasePathWithoutSlash(output);
    case Some(k) =>
      if k == 0 {
        BasePathAtRoot(output);
      } else if k == 1 && output[0] == '.' {
        BasePathInDot(output);
      } else {
        assert !DoubleSlashAt(output, 0);
        BasePathInDirectory(output, k);
      }
  }

  // ---------------------------------------------------------------------
  // Argument map handed to the argument builder.

  datatype ArgValue = StrArg(s: string) | IntArg(i: int) | RealArg(r: real) | BoolArg(b: bool)

  /** The keys of the argument map; `Name` gives the key as the argument builder sees it. */
  datatype ArgKey =
    | Input | Threads | Processors | MaxContext | MaxLen | SplitOnWord | BestOf | BeamSize
    | AudioCtx | WordThold | EntropyThold | LogprobThold | Translate | Diarize | NoFallback
    | Language | OutputJson | OutputFile | Model
  {
    function Name(): string
    {
      match this
      case Input => "_0"
      case Threads => "t"
      case Processors => "p"
      case MaxContext => "mc"
      case MaxLen => "ml"
      case SplitOnWord => "sow"
      case BestOf => "bo"
      case BeamSize => "bs"
      case AudioCtx => "ac"
      case WordThold => "wt"
      case EntropyThold => "et"
      case LogprobThold => "lpt"
      case Translate => "tr"
      case Diarize => "di"
      case NoFallback => "nf"
      case Language => "l"
      case OutputJson => "oj"
      case OutputFile => "of"
      case Model => "m"
    }
  }

  /** Distinct keys have distinct names, so a map over keys is a map over the builder's names. */
  lemma NamesDistinct(a: ArgKey, b: ArgKey)
    ensures a.Name() == b.Name() <==> a == b
  {
  }

  type ArgMap = map<ArgKey, ArgValue>

  const AllKeys: set<ArgKey> := {
    Input, Threads, Processors, MaxContext, MaxLen, SplitOnWord, BestOf, BeamSize,
    AudioCtx, WordThold, EntropyThold, LogprobThold, Translate, Diarize, NoFallback,
    Language, OutputJson, OutputFile, Model}

  /** The value given under each key: the input, a setting, or one of the fixed entries. */
  function ArgFor(k: ArgKey, input: string, w: WhisperSettings, out: string, modelPath: string): ArgValue
  {
    match k
    case Input => StrArg(input)
    case Threads => IntArg(w.threads)
    case Processors => IntArg(w.processors)
    case MaxContext => IntArg(w.maxContext)
    case MaxLen => IntArg(w.maxLen)
    case SplitOnWord => BoolArg(w.splitOnWord)
    case BestOf => IntArg(w.bestOf)
    case BeamSize => IntArg(w.beamSize)
    case AudioCtx => IntArg(w.audioCtx)
    case WordThold => RealArg(w.wordThold)
    case EntropyThold => RealArg(w.entropyThold)
    case LogprobThold => RealArg(w.logprobThold)
    case Translate => BoolArg(w.translate)
    case Diarize => BoolArg(w.diarize)
    case NoFallback => BoolArg(w.noFallback)
    case Language => StrArg(w.language)
    case OutputJson => BoolArg(true)
    case OutputFile => StrArg(out)
    case Model => StrArg(modelPath)
  }

  /** The argument map: the input, one entry per setting, and the fixed JSON-output, output-file and model entries. */
  function LocalArgs(input: string, w: WhisperSettings, out: string, modelPath: string): ArgMap
  {
    map k | k in AllKeys :: ArgFor(k, input, w, out, modelPath)
  }

  /** Each setting's key is present with a value of the setting's type. */
  predicate HasSettingEntries(args: ArgMap)
  {
    && Threads in args && args[Threads].IntArg?
    && Processors in args && args[Processors].IntArg?
    && MaxContext in args && args[MaxContext].IntArg?
    && MaxLen in args && args[MaxLen].IntArg?
    && SplitOnWord in args && args[SplitOnWord].BoolArg?
    && BestOf in args && args[BestOf].IntArg?
    && BeamSize in args && args[BeamSize].IntArg?
    && AudioCtx in args && args[AudioCtx].IntArg?
    && WordThold in args && args[WordThold].RealArg?
    && EntropyThold in args && args[EntropyThold].RealArg?
    && LogprobThold in args && args[LogprobThold].RealArg?
    && Translate in args && args[Translate].BoolArg?
    && Diarize in args && args[Diarize].BoolArg?
    && NoFallback in args && args[NoFallback].BoolArg?
    && Language in args && args[Language].StrArg?
  }

  /** Reads the settings back from an argument map; the model name is not among the arguments. */
  function SettingsOfArgs(args: ArgMap, model: string): Option<WhisperSettings>
  {
    if HasSettingEntries(args) then
      Some(WhisperSettings(model, args[Language].s, args[Threads].i, args[Processors].i,
        args[MaxContext].i, args[MaxLen].i, args[SplitOnWord].b, args[BestOf].i,
        args[BeamSize].i, args[AudioCtx].i, args[WordThold].r, args[EntropyThold].r,
        args[LogprobThold].r, args[Translate].b, args[Diarize].b, args[NoFallback].b))
    else None
  }

  /** Every key is present: the map has one entry per key, nineteen in all. */
  lemma LocalArgsKeys(input: string, w: WhisperSettings, out: string, modelPath: string)
    ensures forall k: ArgKey :: k in LocalArgs(input, w, out, modelPath)
  {
    forall k: ArgKey ensures k in AllKeys {
      match k
      case Input => case Threads => case Processors => case MaxContext => case MaxLen =>
      case SplitOnWord => case BestOf => case BeamSize => case AudioCtx => case WordThold =>
      case EntropyThold => case LogprobThold => case Translate => case Diarize =>
      case NoFallback => case Language => case OutputJson => case OutputFile => case Model =>
    }
  }

  /**
   * The fixed entries are the input, JSON output on, the output base path and
   * the model path; every setting except the model name can be read back unchanged.
   */
  lemma LocalArgsContents(input: string, w: WhisperSettings, out: string, modelPath: string)
    ensures var args := LocalArgs(input, w, out, modelPath);
      && args[Input] == StrArg(input)
      && args[OutputJson] == BoolArg(true)
      && args[OutputFile] == StrArg(out)
      && args[Model] == StrArg(modelPath)
      && SettingsOfArgs(args, w.model) == Some(w)
  {
    var args := LocalArgs(input, w, out, modelPath);
    LocalArgsHasSettings(input, w, out, modelPath);
    ReadBackSettings(args, input, w, out, modelPath);
  }

  lemma LocalArgsHasSettings(input: string, w: WhisperSettings, out: string, modelPath: string)
    ensures HasSettingEntries(LocalArgs(input, w, out, modelPath))
  {
  }

  /** A map whose entries all agree with `ArgFor` gives the settings back. */
  lemma ReadBackSettings(args: ArgMap, input: string, w: WhisperSettings, out: string, modelPath: string)
    requires HasSettingEntries(args)
    requires forall k :: k in args ==> args[k] == ArgFor(k, input, w, out, modelPath)
    ensures SettingsOfArgs(args, w.model) == Some(w)
  {
  }

  // ---------------------------------------------------------------------
  // Progress from standard output: the end timestamp of the first
  // "[HH:MM:SS.mmm --> HH:MM:SS.mmm]" in a chunk.

  const ArrowSep: string := " --> "

  /** Length of one bracketed range "[" + 12 + " --> " + 12 + "]". */
  const RangeLength: nat := 31

  predicate IsDigit(c: char)
  {
    '0' <= c <= '9'
  }

  /** HH:MM:SS.mmm with ASCII digits. */
  predicate IsTimestamp(t: string)
  {
    && |t| == 12
    && IsDigit(t[0]) && IsDigit(t[1]) && t[2] == ':'
    && IsDigit(t[3]) && IsDigit(t[4]) && t[5] == ':'
    && IsDigit(t[6]) && IsDigit(t[7]) && t[8] == '.'
    && IsDigit(t[9]) && IsDigit(t[10]) && IsDigit(t[11])
  }

  /** The bracketed range the engine prints in front of a segment. */
  function RangeText(from: string, to: string): string
  {
    "[" + from + ArrowSep + to + "]"
  }

  /** The pattern matches the chunk starting at position `i`. */
  predicate MatchesAt(s: string, i: nat)
  {
    && i + RangeLength <= |s|
    && s[i] == '['
    && IsTimestamp(s[i + 1..i + 13])
    && s[i + 13..i + 18] == ArrowSep
    && IsTimestamp(s[i + 18..i + 30])
    && s[i + 30] == ']'
  }

  /** The leftmost match at or after `i`. */
  function FirstMatchFrom(s: string, i: nat): (r: Option<nat>)
    requires i <= |s|
    ensures r.Some? ==> i <= r.value && MatchesAt(s, r.value)
    ensures r.Some? ==> forall j :: i <= j < r.value ==> !MatchesAt(s, j)
    ensures r.None? ==> forall j :: i <= j ==> !MatchesAt(s, j)
    decreases |s| - i
  {
    if i + RangeLength > |s| then None
    else if MatchesAt(s, i) then Some(i)
    else FirstMatchFrom(s, i + 1)
  }

  /** The captured end timestamp of the first match, if any. */
  function FirstEndTimestamp(chunk: string): (r: Option<string>)
    ensures r.Some? ==> IsTimestamp(r.value)
    ensures r.Some? ==> exists i: nat ::
      && MatchesAt(chunk, i)
      && (forall j :: 0 <= j < i ==> !MatchesAt(chunk, j))
      && r.value == chunk[i + 18..i + 30]
    ensures r.None? <==> forall j :: 0 <= j ==> !MatchesAt(chunk, j)
  {
    match FirstMatchFrom(chunk, 0)
    case None => None
    case Some(i) => Some(chunk[i + 18..i + 30])
  }

  /** A well-formed range placed after `prefix` matches right where it starts. */
  lemma RangeMatchesAfter(prefix: string, from: string, to: string, rest: string)
    requires IsTimestamp(from) && IsTimestamp(to)
    ensures var s := prefix + RangeText(from, to) + rest;
      MatchesAt(s, |prefix|) && s[|prefix| + 18..|prefix| + 30] == to
  {
    var s := prefix + RangeText(from, to) + rest;
    var n := |prefix|;
    assert s[n..n + RangeLength] == RangeText(from, to);
    assert s[n + 1..n + 13] == from;
    assert s[n + 13..n + 18] == ArrowSep;
    assert s[n + 18..n + 30] == to;
  }

  /**
   * A chunk whose first "[" opens a well-formed range yields that range's
   * end timestamp, whatever follows (later ranges are ignored).
   */
  lemma {:induction false} FirstRangeWins(prefix: string, from: string, to: string, rest: string)
    requires '[' !in prefix
    requires IsTimestamp(from) && IsTimestamp(to)
    ensures FirstEndTimestamp(prefix + RangeText(from, to) + rest) == Some(to)
  {
    var s := prefix + RangeText(from, to) + rest;
    var n := |prefix|;
    RangeMatchesAfter(prefix, from, to, rest);
    forall j | 0 <= j < n ensures !MatchesAt(s, j) {
      assert s[j] == prefix[j];
    }
    var r := FirstMatchFrom(s, 0);
    assert r.Some? && r.value == n;
  }

  /** A chunk produces a progress event only when its parsed milliseconds are positive; at most one. */
  function ChunkEvents(chunk: string, inputTime: real, msOf: Option<string> -> real): (es: seq<Event>)
    ensures |es| <= 1
    ensures es != [] <==> msOf(FirstEndTimestamp(chunk)) > 0.0
    ensures es != [] ==> es[0] == Progress(WhisperStep, Ratio(msOf(FirstEndTimestamp(chunk)), inputTime))
  {
    var ms := msOf(FirstEndTimestamp(chunk));
    if ms > 0.0 then [Progress(WhisperStep, Ratio(ms, inputTime))] else []
  }

  /** The events produced by a sequence of chunks, in arrival order. */
  function LocalProgress(chunks: seq<string>, inputTime: real, msOf: Option<string> -> real): seq<Event>
  {
    if chunks == [] then []
    else LocalProgress(chunks[..|chunks| - 1], inputTime, msOf) + ChunkEvents(chunks[|chunks| - 1], inputTime, msOf)
  }

  /** One more chunk adds its own events after those of the chunks before it. */
  lemma LocalProgressStep(chunks: seq<string>, k: nat, inputTime: real, msOf: Option<string> -> real)
    requires k < |chunks|
    ensures LocalProgress(chunks[..k + 1], inputTime, msOf)
      == LocalProgress(chunks[..k], inputTime, msOf) + ChunkEvents(chunks[k], inputTime, msOf)
  {
    assert chunks[..k + 1][..k] == chunks[..k];
  }

  /** Predicate on one local progress event: "whisper", a positive numerator, the duration as denominator. */
  predicate IsLocalProgress(e: Event, inputTime: real)
  {
    e.Progress? && e.step == WhisperStep && e.fraction.num > 0.0 && e.fraction.den == inputTime
  }

  /**
   * Each chunk contributes at most one event, and every event is a
   * "whisper" progress of positive milliseconds over the input duration.
   */
  lemma {:induction false} LocalProgressShape(chunks: seq<string>, inputTime: real, msOf: Option<string> -> real)
    ensures |LocalProgress(chunks, inputTime, msOf)| <= |chunks|
    ensures forall e :: e in LocalProgress(chunks, inputTime, msOf) ==> IsLocalProgress(e, inputTime)
    decreases |chunks|
  {
    if chunks != [] {
      LocalProgressShape(chunks[..|chunks| - 1], inputTime, msOf);
    }
  }

  /** Local progress never reports an error. */
  lemma LocalProgressHasNoErrors(chunks: seq<string>, inputTime: real, msOf: Option<string> -> real)
    ensures CountErrors(LocalProgress(chunks, inputTime, msOf)) == 0
  {
    var es := LocalProgress(chunks, inputTime, msOf);
    LocalProgressShape(chunks, inputTime, msOf);
    forall i | 0 <= i < |es| ensures !es[i].Error? {
      assert es[i] in es;
    }
    CountErrorsZero(es);
  }
}
