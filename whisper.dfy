/**
 * Transcription of one audio file: announce the step, read the duration,
 * try the remote server when asked to (falling back to the local engine on
 * any remote failure), otherwise run the local engine and turn its output
 * into progress.
 *
 * Everything the job asks of the outside world is an `Environment`: the
 * duration reader, the stored settings, the audio file, the remote server,
 * the model resolver, the millisecond parser and the local process.
 */
module Whisper {
  import opened Wrappers
  import opened Types
  import opened Postprocess
  import opened RemoteWhisper
  import opened LocalWhisper

  const FallbackMessage: string :=
    "Error using remote Whisper server. Falling back to local processing."

  datatype ProcessExit = ExitOk | ExitFail

  datatype Strategy = Remote | Local

  datatype JobError =
    | DurationUnavailable   // reading the duration rejected
    | MissingRemoteConfig   // "Remote Whisper configuration is missing"
    | ProcessFailed         // the local process rejected

  datatype JobOutcome = Completed(via: Strategy) | Rejected(error: JobError)

  /** The per-job lifecycle. */
  datatype JobState = NotStarted | RemoteAttempted(ok: bool) | LocalRunning | Done | Failed

  /** The allowed moves of the lifecycle; a successful remote attempt goes straight to Done. */
  predicate Transition(from: JobState, to: JobState)
  {
    match from
    case NotStarted => to.RemoteAttempted? || to == LocalRunning || to == Failed
    case RemoteAttempted(ok) => if ok then to == Done else to == LocalRunning
    case LocalRunning => to == Done || to == Failed
    case Done => false
    case Failed => false
  }

  predicate IsTerminal(s: JobState)
  {
    s == Done || s == Failed
  }

  /** A run of the lifecycle from its start to a terminal state. */
  predicate IsLifecycle(t: seq<JobState>)
  {
    && |t| >= 2
    && t[0] == NotStarted
    && IsTerminal(t[|t| - 1])
    && forall i :: 0 <= i < |t| - 1 ==> Transition(t[i], t[i + 1])
  }

  /** What the job gets from its collaborators. */
  datatype Environment = Environment(
    duration: Option<real>,             // the audio duration in ms, None when reading it rejects
    settings: Settings,                 // the stored settings
    audio: Option<seq<byte>>,           // the audio file's bytes, None when reading it fails
    server: Request -> Reply,           // the remote server behind the HTTP transport
    modelPath: string -> string,        // model identifier to model file
    msOf: Option<string> -> real,       // timestamp text (or none) to milliseconds
    stdout: seq<string>,                // the local process's output chunks, in arrival order
    exit: ProcessExit)                  // how the local process ends

  /** Everything a job does that can be observed. */
  datatype Trace = Trace(
    events: seq<Event>,       // notifications sent to the reporter
    remoteCalls: nat,         // calls of the remote client (a failed file read sends no request)
    launches: seq<ArgMap>,    // local processes started, with their arguments
    states: seq<JobState>,    // the lifecycle the job went through
    outcome: JobOutcome)

  // ---------------------------------------------------------------------
  // Synthetic progress for a remote transcript.

  /** The largest end offset of a non-empty list of items. */
  function MaxOffset(items: seq<TranscriptItem>): (m: real)
    requires items != []
    ensures forall i :: 0 <= i < |items| ==> items[i].offsets.to <= m
    ensures exists i :: 0 <= i < |items| && items[i].offsets.to == m
  {
    if |items| == 1 then items[0].offsets.to
    else
      var rest := MaxOffset(items[1..]);
      assert forall i :: 1 <= i < |items| ==> items[i] == items[1..][i - 1];
      if items[0].offsets.to >= rest then items[0].offsets.to
      else
        var j :| 0 <= j < |items[1..]| && items[1..][j].offsets.to == rest;
        assert items[j + 1].offsets.to == rest;
        rest
  }

  /** One "whisper" progress per item, in item order: its end offset over the largest one. */
  function RemoteProgress(items: seq<TranscriptItem>): seq<Event>
  {
    if items == [] then []
    else
      var total := MaxOffset(items);
      seq(|items|, i requires 0 <= i < |items| => Progress(WhisperStep, Ratio(items[i].offsets.to, total)))
  }

  /** There is exactly one event per item, and the i-th is the i-th item's end offset over the maximum. */
  lemma RemoteProgressPerItem(items: seq<TranscriptItem>, i: nat)
    requires i < |items|
    ensures |RemoteProgress(items)| == |items|
    ensures RemoteProgress(items)[i] == Progress(WhisperStep, Ratio(items[i].offsets.to, MaxOffset(items)))
  {
  }

  /** An item attaining the maximum reports exactly 1; with non-negative offsets every report lies in [0, 1]. */
  lemma RemoteProgressBounds(items: seq<TranscriptItem>, i: nat)
    requires i < |items| && MaxOffset(items) > 0.0
    ensures var f := RemoteProgress(items)[i].fraction;
      && f.den > 0.0
      && (items[i].offsets.to == MaxOffset(items) ==> f.Value() == 1.0)
      && (items[i].offsets.to >= 0.0 ==> 0.0 <= f.Value() <= 1.0)
  {
    RemoteProgressPerItem(items, i);
    DivideBelow(items[i].offsets.to, MaxOffset(items), MaxOffset(items));
  }

  /** Division by a positive number keeps order, both ways. */
  lemma DivideBelow(x: real, y: real, d: real)
    requires d > 0.0
    ensures x <= y <==> x / d <= y / d
    ensures d / d == 1.0 && (x >= 0.0 ==> x / d >= 0.0)
  {
    if x <= y {
      assert y / d - x / d == (y - x) / d;
    } else {
      assert x / d - y / d == (x - y) / d;
    }
  }

  predicate NonDecreasingValues(es: seq<Event>)
    requires forall i :: 0 <= i < |es| ==> es[i].Progress? && es[i].fraction.den != 0.0
  {
    forall i, j :: 0 <= i < j < |es| ==> es[i].fraction.Value() <= es[j].fraction.Value()
  }

  predicate NonDecreasingOffsets(items: seq<TranscriptItem>)
  {
    forall i, j :: 0 <= i < j < |items| ==> items[i].offsets.to <= items[j].offsets.to
  }

  /** The remote progress only goes up exactly when the items' end offsets only go up. */
  lemma RemoteProgressMonotone(items: seq<TranscriptItem>)
    requires items != [] && MaxOffset(items) > 0.0
    ensures forall i :: 0 <= i < |RemoteProgress(items)| ==>
      RemoteProgress(items)[i].Progress? && RemoteProgress(items)[i].fraction.den != 0.0
    ensures NonDecreasingValues(RemoteProgress(items)) <==> NonDecreasingOffsets(items)
  {
    var es := RemoteProgress(items);
    var m := MaxOffset(items);
    forall i, j | 0 <= i < j < |items|
      ensures es[i].fraction.Value() <= es[j].fraction.Value() <==> items[i].offsets.to <= items[j].offsets.to
    {
      DivideBelow(items[i].offsets.to, items[j].offsets.to, m);
    }
  }

  // ---------------------------------------------------------------------
  // The job, as a pure trace.

  /** The remote attempt with the stored configuration. */
  function RemoteAttempt(env: Environment): Result<RecordingTranscript, string>
    requires env.settings.remoteWhisper.Some?
  {
    SendToRemoteWhisper(env.audio, env.server, env.settings.remoteWhisper.value, env.settings.whisper)
  }

  /** The arguments of the local run. */
  function JobArgs(input: string, output: string, modelId: string, env: Environment): ArgMap
  {
    LocalArgs(input, env.settings.whisper, OutputBasePath(output), env.modelPath(modelId))
  }

  /** The trace of a job whose remote attempt succeeded. */
  function RemoteTrace(env: Environment): Trace
    requires env.settings.remoteWhisper.Some? && RemoteAttempt(env).Success?
  {
    Trace([Step(WhisperStep)] + RemoteProgress(RemoteAttempt(env).value.transcription), 1, [],
      [NotStarted, RemoteAttempted(true), Done], Completed(Remote))
  }

  /** The trace of a job that runs the local engine, after a failed remote attempt when `useRemote` holds. */
  function LocalTrace(input: string, output: string, modelId: string, useRemote: bool, env: Environment): Trace
    requires env.duration.Some?
  {
    var warning := if useRemote then [Error(WhisperStep, FallbackMessage)] else [];
    var before := if useRemote then [NotStarted, RemoteAttempted(false)] else [NotStarted];
    var exited := env.exit == ExitOk;
    Trace([Step(WhisperStep)] + warning + LocalProgress(env.stdout, env.duration.value, env.msOf),
      if useRemote then 1 else 0,
      [JobArgs(input, output, modelId, env)],
      before + [LocalRunning, if exited then Done else Failed],
      if exited then Completed(Local) else Rejected(ProcessFailed))
  }

  /** What one job does, from the step announcement to the end of the chosen strategy. */
  function Run(input: string, output: string, modelId: string, useRemote: bool, env: Environment): Trace
  {
    if env.duration.None? then
      Trace([Step(WhisperStep)], 0, [], [NotStarted, Failed], Rejected(DurationUnavailable))
    else if useRemote && env.settings.remoteWhisper.None? then
      Trace([Step(WhisperStep)], 0, [], [NotStarted, Failed], Rejected(MissingRemoteConfig))
    else if useRemote && RemoteAttempt(env).Success? then
      RemoteTrace(env)
    else
      LocalTrace(input, output, modelId, useRemote, env)
  }

  /** The step is announced first, before the duration is read or any strategy runs. */
  lemma StepAnnouncedFirst(input: string, output: string, modelId: string, useRemote: bool, env: Environment)
    ensures var t := Run(input, output, modelId, useRemote, env);
      |t.events| >= 1 && t.events[0] == Step(WhisperStep)
    ensures env.duration.None? ==>
      Run(input, output, modelId, useRemote, env).events == [Step(WhisperStep)]
  {
  }

  /** Remote requested without a remote configuration: the job fails; nothing is called or reported after the step. */
  lemma MissingConfigFails(input: string, output: string, modelId: string, env: Environment)
    requires env.duration.Some? && env.settings.remoteWhisper.None?
    ensures var t := Run(input, output, modelId, true, env);
      && t.outcome == Rejected(MissingRemoteConfig)
      && t.events == [Step(WhisperStep)]
      && t.remoteCalls == 0
      && t.launches == []
  {
  }

  /** A successful remote attempt reports one progress per item and never starts the local engine. */
  lemma RemoteSuccessSkipsLocal(input: string, output: string, modelId: string, env: Environment)
    requires env.duration.Some? && env.settings.remoteWhisper.Some? && RemoteAttempt(env).Success?
    ensures var t := Run(input, output, modelId, true, env);
      var items := RemoteAttempt(env).value.transcription;
      && t.outcome == Completed(Remote)
      && t.events == [Step(WhisperStep)] + RemoteProgress(items)
      && |t.events| == 1 + |items|
      && CountErrors(t.events) == 0
      && t.remoteCalls == 1
      && t.launches == []
  {
    var items := RemoteAttempt(env).value.transcription;
    var es := [Step(WhisperStep)] + RemoteProgress(items);
    forall i | 0 <= i < |es| ensures !es[i].Error? {
      if i > 0 { RemoteProgressPerItem(items, i - 1); }
    }
    CountErrorsZero(es);
  }

  /**
   * A failed remote attempt is not propagated: exactly one error event, on
   * the "whisper" step, right after the announcement, and then one local
   * run with the settings unchanged.
   */
  lemma RemoteFailureFallsBack(input: string, output: string, modelId: string, env: Environment)
    requires env.duration.Some? && env.settings.remoteWhisper.Some? && RemoteAttempt(env).Failure?
    ensures var t := Run(input, output, modelId, true, env);
      && CountErrors(t.events) == 1
      && t.events[1] == Error(WhisperStep, FallbackMessage)
      && t.remoteCalls == 1
      && t.launches == [JobArgs(input, output, modelId, env)]
      && SettingsOfArgs(t.launches[0], env.settings.whisper.model) == Some(env.settings.whisper)
      && t.outcome != Completed(Remote)
  {
    assert Run(input, output, modelId, true, env) == LocalTrace(input, output, modelId, true, env);
    var local := LocalProgress(env.stdout, env.duration.value, env.msOf);
    var head := [Step(WhisperStep), Error(WhisperStep, FallbackMessage)];
    assert LocalTrace(input, output, modelId, true, env).events == head + local;
    LocalProgressHasNoErrors(env.stdout, env.duration.value, env.msOf);
    CountErrorsAppend(head, local);
    assert head == [Step(WhisperStep)] + [Error(WhisperStep, FallbackMessage)];
    CountErrorsAppend([Step(WhisperStep)], [Error(WhisperStep, FallbackMessage)]);
    CountErrorsSingle(Error(WhisperStep, FallbackMessage));
    CountErrorsSingle(Step(WhisperStep));
    LocalArgsContents(input, env.settings.whisper, OutputBasePath(output), env.modelPath(modelId));
  }

  /** Without the remote option the remote server is never called and no error is reported. */
  lemma LocalOnlyNeverCallsRemote(input: string, output: string, modelId: string, env: Environment)
    ensures var t := Run(input, output, modelId, false, env);
      && t.remoteCalls == 0
      && CountErrors(t.events) == 0
      && (env.duration.Some? ==> t.launches == [JobArgs(input, output, modelId, env)])
  {
    CountErrorsSingle(Step(WhisperStep));
    if env.duration.Some? {
      assert Run(input, output, modelId, false, env) == LocalTrace(input, output, modelId, false, env);
      var local := LocalProgress(env.stdout, env.duration.value, env.msOf);
      assert LocalTrace(input, output, modelId, false, env).events == [Step(WhisperStep)] + local;
      LocalProgressHasNoErrors(env.stdout, env.duration.value, env.msOf);
      CountErrorsAppend([Step(WhisperStep)], local);
    } else {
      assert Run(input, output, modelId, false, env).events == [Step(WhisperStep)];
    }
  }

  /** The remote server is called at most once, only when asked for, and at most one process is started. */
  lemma AtMostOneAttemptEach(input: string, output: string, modelId: string, useRemote: bool, env: Environment)
    ensures var t := Run(input, output, modelId, useRemote, env);
      && t.remoteCalls <= 1
      && (t.remoteCalls == 1 ==> useRemote)
      && |t.launches| <= 1
      && (t.outcome == Completed(Remote) ==> t.launches == [])
  {
  }

  /** A job follows the lifecycle to a terminal state, Done exactly when it completes. */
  lemma RunFollowsLifecycle(input: string, output: string, modelId: string, useRemote: bool, env: Environment)
    ensures var t := Run(input, output, modelId, useRemote, env);
      && IsLifecycle(t.states)
      && (t.states[|t.states| - 1] == Done <==> t.outcome.Completed?)
      && (RemoteAttempted(false) in t.states ==> LocalRunning in t.states)
  {
  }

  /** A local process that fails rejects the job; its progress is the last thing reported. */
  lemma ProcessFailureRejects(input: string, output: string, modelId: string, useRemote: bool, env: Environment)
    requires env.duration.Some? && env.exit == ExitFail
    requires !useRemote || (env.settings.remoteWhisper.Some? && RemoteAttempt(env).Failure?)
    ensures var t := Run(input, output, modelId, useRemote, env);
      var local := LocalProgress(env.stdout, env.duration.value, env.msOf);
      && t.outcome == Rejected(ProcessFailed)
      && |t.events| >= |local|
      && t.events[|t.events| - |local|..] == local
  {
  }

  // ---------------------------------------------------------------------
  // The job, step by step.

  /**
   * Regrouping appended reports. Proving this inline needs sequence
   * extensionality, which is costly next to the job's specification; as a
   * lemma it is proved once, in a small context.
   */
  lemma AppendAssociates(a: seq<Event>, b: seq<Event>, c: seq<Event>)
    ensures (a + b) + c == a + (b + c)
  {
  }

  class Job {
    const reporter: Reporter
    var state: JobState
    var remoteCalls: nat
    var launches: seq<ArgMap>
    ghost var trail: seq<JobState>

    constructor (reporter: Reporter)
      ensures this.reporter == reporter
      ensures state == NotStarted && trail == [NotStarted]
      ensures remoteCalls == 0 && launches == []
    {
      this.reporter := reporter;
      state := NotStarted;
      trail := [NotStarted];
      remoteCalls := 0;
      launches := [];
    }

    /** Moves the lifecycle along one allowed transition. */
    method Advance(next: JobState)
      requires Transition(state, next)
      modifies this`state, this`trail
      ensures state == next && trail == old(trail) + [next]
    {
      state := next;
      trail := trail + [next];
    }

    /** The progress loop of a remote transcript: one report per item, in order. */
    method ReportRemoteProgress(items: seq<TranscriptItem>)
      modifies reporter
      ensures reporter.events == old(reporter.events) + RemoteProgress(items)
    {
      // With no items the loop does not run and the maximum is never used.
      var total := if items != [] then MaxOffset(items) else 0.0;
      for i := 0 to |items|
        invariant reporter.events == old(reporter.events) + RemoteProgress(items)[..i]
      {
        reporter.SetProgress(WhisperStep, Ratio(items[i].offsets.to, total));
        assert RemoteProgress(items)[..i + 1] == RemoteProgress(items)[..i] + [RemoteProgress(items)[i]];
      }
      assert RemoteProgress(items)[..|items|] == RemoteProgress(items);
    }

    /** The standard-output listener: at most one progress report per chunk. */
    method OnStdout(chunk: string, inputTime: real, msOf: Option<string> -> real)
      modifies reporter
      ensures reporter.events == old(reporter.events) + ChunkEvents(chunk, inputTime, msOf)
    {
      var time := FirstEndTimestamp(chunk);
      var duration := msOf(time);
      if duration > 0.0 {
        reporter.SetProgress(WhisperStep, Ratio(duration, inputTime));
      }
    }

    /**
     * The remote attempt: on success, the progress of the returned items and
     * Done; on failure, one error report and the way to the local run.
     */
    method AttemptRemote(env: Environment) returns (succeeded: bool)
      requires env.settings.remoteWhisper.Some? && state == NotStarted
      modifies this`state, this`trail, this`remoteCalls, reporter
      ensures remoteCalls == old(remoteCalls) + 1
      ensures succeeded == RemoteAttempt(env).Success?
      ensures succeeded ==>
        && reporter.events == old(reporter.events) + RemoteProgress(RemoteAttempt(env).value.transcription)
        && trail == old(trail) + [RemoteAttempted(true), Done]
        && state == Done
      ensures !succeeded ==>
        && reporter.events == old(reporter.events) + [Error(WhisperStep, FallbackMessage)]
        && trail == old(trail) + [RemoteAttempted(false)]
        && state == RemoteAttempted(false)
    {
      remoteCalls := remoteCalls + 1;
      var result := SendToRemoteWhisper(env.audio, env.server, env.settings.remoteWhisper.value,
        env.settings.whisper);
      if result.Success? {
        Advance(RemoteAttempted(true));
        ReportRemoteProgress(result.value.transcription);
        Advance(Done);
        return true;
      }
      Advance(RemoteAttempted(false));
      reporter.SetError(WhisperStep, FallbackMessage);
      return false;
    }

    /** Feeds each chunk of the engine's standard output, in order, to the listener. */
    method Listen(stdout: seq<string>, inputTime: real, msOf: Option<string> -> real)
      modifies reporter
      ensures reporter.events == old(reporter.events) + LocalProgress(stdout, inputTime, msOf)
    {
      for k := 0 to |stdout|
        invariant reporter.events == old(reporter.events) + LocalProgress(stdout[..k], inputTime, msOf)
      {
        OnStdout(stdout[k], inputTime, msOf);
        LocalProgressStep(stdout, k, inputTime, msOf);
      }
      assert stdout[..|stdout|] == stdout;
    }

    /** The local run: build the arguments, start the process, report from its output, await its end. */
    method RunLocal(input: string, out: string, modelId: string, env: Environment, inputTime: real)
      returns (outcome: JobOutcome)
      requires state == NotStarted || state == RemoteAttempted(false)
      modifies this`state, this`trail, this`launches, reporter
      ensures launches == old(launches) + [LocalArgs(input, env.settings.whisper, out, env.modelPath(modelId))]
      ensures reporter.events == old(reporter.events) + LocalProgress(env.stdout, inputTime, env.msOf)
      ensures trail == old(trail) + [LocalRunning, if env.exit == ExitOk then Done else Failed]
      ensures state == (if env.exit == ExitOk then Done else Failed)
      ensures outcome == if env.exit == ExitOk then Completed(Local) else Rejected(ProcessFailed)
    {
      launches := launches + [LocalArgs(input, env.settings.whisper, out, env.modelPath(modelId))];
      Advance(LocalRunning);
      Listen(env.stdout, inputTime, env.msOf);
      if env.exit == ExitOk {
        Advance(Done);
        outcome := Completed(Local);
      } else {
        Advance(Failed);
        outcome := Rejected(ProcessFailed);
      }
    }

    /**
     * The job's observable state is trace `t`: the reports after `before`,
     * the remote calls, the launches, the lifecycle so far and its last state.
     */
    ghost predicate Matches(before: seq<Event>, t: Trace)
      reads this, reporter
    {
      && reporter.events == before + t.events
      && remoteCalls == t.remoteCalls
      && launches == t.launches
      && trail == t.states
      && |trail| > 0
      && state == trail[|trail| - 1]
    }

    /** A job rejected right after the step announcement: nothing is called or launched. */
    method Reject(error: JobError, ghost before: seq<Event>) returns (outcome: JobOutcome)
      requires state == NotStarted && trail == [NotStarted] && remoteCalls == 0 && launches == []
      requires reporter.events == before + [Step(WhisperStep)]
      modifies this`state, this`trail
      ensures Matches(before, Trace([Step(WhisperStep)], 0, [], [NotStarted, Failed], Rejected(error)))
      ensures outcome == Rejected(error)
    {
      Advance(Failed);
      return Rejected(error);
    }

    /** The local run of a job, after the step and, when remote was requested, the fallback warning. */
    method FinishLocally(input: string, output: string, modelId: string, useRemote: bool,
                         env: Environment, ghost before: seq<Event>)
      returns (outcome: JobOutcome)
      requires env.duration.Some? && launches == []
      requires useRemote ==>
        && env.settings.remoteWhisper.Some? && RemoteAttempt(env).Failure?
        && state == RemoteAttempted(false) && trail == [NotStarted, RemoteAttempted(false)] && remoteCalls == 1
        && reporter.events == before + [Step(WhisperStep), Error(WhisperStep, FallbackMessage)]
      requires !useRemote ==>
        && state == NotStarted && trail == [NotStarted] && remoteCalls == 0
        && reporter.events == before + [Step(WhisperStep)]
      modifies this`state, this`trail, this`launches, reporter
      ensures Matches(before, Run(input, output, modelId, useRemote, env))
      ensures outcome == Run(input, output, modelId, useRemote, env).outcome
    {
      assert Run(input, output, modelId, useRemote, env) == LocalTrace(input, output, modelId, useRemote, env);
      ghost var warning := if useRemote then [Error(WhisperStep, FallbackMessage)] else [];
      assert reporter.events == before + ([Step(WhisperStep)] + warning);
      var out := OutputBasePath(output);
      outcome := RunLocal(input, out, modelId, env, env.duration.value);
      AppendAssociates(before, [Step(WhisperStep)] + warning, LocalProgress(env.stdout, env.duration.value, env.msOf));
    }

    /** The remote attempt, and the local run when it fails. */
    method RemoteThenLocal(input: string, output: string, modelId: string, env: Environment, ghost before: seq<Event>)
      returns (outcome: JobOutcome)
      requires env.duration.Some? && env.settings.remoteWhisper.Some?
      requires state == NotStarted && trail == [NotStarted] && remoteCalls == 0 && launches == []
      requires reporter.events == before + [Step(WhisperStep)]
      modifies this`state, this`trail, this`remoteCalls, this`launches, reporter
      ensures Matches(before, Run(input, output, modelId, true, env))
      ensures outcome == Run(input, output, modelId, true, env).outcome
    {
      var succeeded := AttemptRemote(env);
      if succeeded {
        assert Run(input, output, modelId, true, env) == RemoteTrace(env);
        ghost var progress := RemoteProgress(RemoteAttempt(env).value.transcription);
        AppendAssociates(before, [Step(WhisperStep)], progress);
        assert trail == [NotStarted, RemoteAttempted(true), Done];
        return Completed(Remote);
      }
      AppendAssociates(before, [Step(WhisperStep)], [Error(WhisperStep, FallbackMessage)]);
      assert trail == [NotStarted, RemoteAttempted(false)];
      outcome := FinishLocally(input, output, modelId, true, env, before);
    }

    /** Transcribes one file, as `Run` describes. */
    method ProcessWavFile(input: string, output: string, modelId: string, useRemote: bool, env: Environment)
      returns (outcome: JobOutcome)
      requires state == NotStarted && trail == [NotStarted] && remoteCalls == 0 && launches == []
      modifies this, reporter
      ensures Matches(old(reporter.events), Run(input, output, modelId, useRemote, env))
      ensures outcome == Run(input, output, modelId, useRemote, env).outcome
    {
      reporter.SetStep(WhisperStep);
      if env.duration.None? {
        outcome := Reject(DurationUnavailable, old(reporter.events));
      } else if !useRemote {
        outcome := FinishLocally(input, output, modelId, false, env, old(reporter.events));
      } else if env.settings.remoteWhisper.None? {
        outcome := Reject(MissingRemoteConfig, old(reporter.events));
      } else {
        outcome := RemoteThenLocal(input, output, modelId, env, old(reporter.events));
      }
    }
  }
}
