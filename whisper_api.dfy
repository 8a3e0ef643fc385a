/** The audio file monitor of the .NET WhisperApi service: a hosted service that
    watches an input folder, gates each new file on exclusive readability, has an
    external client transcribe it and writes `<base>.txt` or `<base>_error.txt`
    into the output folder, together with the `/start` and `/stop` endpoints that
    drive it. */
module WhisperApi {
  import opened Wrappers
  import opened Text
  import opened DotNetPath

  // ----------------------------------------------------------------------------
  // Classifier

  /** The extensions the monitor accepts, compared after lower-casing. */
  const AudioExtensions: seq<string> := [".mp3", ".wav", ".m4a", ".flac", ".ogg", ".mp4", ".webm"]

  /** The extension check at the head of the per-file processor. */
  predicate IsAudioPath(filePath: string) {
    Contains(AudioExtensions, LowerAscii(GetExtension(filePath)))
  }

  /** A path is processed exactly when its lower-cased file name ends with one of
      the allowlisted extensions; in particular a file named just ".mp3" is. */
  lemma {:induction false} IsAudioPathBySuffix(filePath: string)
    ensures IsAudioPath(filePath) <==>
            exists e :: e in AudioExtensions && HasSuffix(LowerAscii(GetFileName(filePath)), e)
  {
    AllowlistShape();
    ContainsIsMembership(AudioExtensions, LowerAscii(GetExtension(filePath)));
    LowerExtensionIn(filePath, AudioExtensions);
  }

  /** Every allowlisted extension is a '.' followed by letters and digits. */
  lemma {:induction false} AllowlistShape()
    ensures forall e :: e in AudioExtensions ==> ExtensionShape(e)
  {
  }

  // ----------------------------------------------------------------------------
  // Readiness gate

  /** The number of exclusive opens the processor allows a file. */
  const DefaultMaxRetries: int := 10

  /** How one exclusive open goes: it succeeds, it throws an IOException (the
      file is still locked or not there), which the gate catches and retries, or
      it throws another exception (access denied, say), which escapes the gate. */
  datatype OpenAttempt = Opened | IOError | OtherError(message: string)

  /** How the gate ended: the file opened on attempt number `attempts`, that
      attempt threw an exception the gate does not catch, or every one of
      `attempts` opens threw an IOException and the gate raised its not-ready
      IOException. */
  datatype Readiness = Ready(attempts: nat) | Threw(attempts: nat, message: string) | NotReady(attempts: nat)

  /** Exclusive open number `i` (from 0). `opens` lists the outcomes the file
      system gives; opens past its end throw an IOException. */
  function AttemptAt(opens: seq<OpenAttempt>, i: nat): OpenAttempt {
    if i < |opens| then opens[i] else IOError
  }

  /** The number of loop iterations `for (i = 0; i < maxRetries; i++)` performs. */
  function AttemptLimit(maxRetries: int): (r: nat)
    ensures r == 0 <==> maxRetries <= 0
    ensures 0 < r ==> r == maxRetries
  {
    if maxRetries < 0 then 0 else maxRetries
  }

  /** The gate from attempt `i` on, with `limit` attempts in all. */
  function ReadinessFrom(opens: seq<OpenAttempt>, i: nat, limit: nat): (r: Readiness)
    requires i <= limit
    ensures r.Ready? ==> && i < r.attempts <= limit && AttemptAt(opens, r.attempts - 1) == Opened
                         && forall j :: i <= j < r.attempts - 1 ==> AttemptAt(opens, j) == IOError
    ensures r.Threw? ==> && i < r.attempts <= limit && AttemptAt(opens, r.attempts - 1) == OtherError(r.message)
                         && forall j :: i <= j < r.attempts - 1 ==> AttemptAt(opens, j) == IOError
    ensures r.NotReady? ==> && r.attempts == limit
                            && forall j :: i <= j < limit ==> AttemptAt(opens, j) == IOError
    decreases limit - i
  {
    if i == limit then NotReady(limit)
    else
      match AttemptAt(opens, i)
      case Opened => Ready(i + 1)
      case OtherError(message) => Threw(i + 1, message)
      case IOError => ReadinessFrom(opens, i + 1, limit)
  }

  /** `WaitForFileToBeReady` as a function: it returns on the first open that
      succeeds, ends on the first open that throws something other than an
      IOException, never makes more than `maxRetries` attempts, and is not ready
      only when all of them threw an IOException. */
  function ReadinessOf(opens: seq<OpenAttempt>, maxRetries: int): (r: Readiness)
    ensures r.Ready? ==> && 1 <= r.attempts <= AttemptLimit(maxRetries)
                         && AttemptAt(opens, r.attempts - 1) == Opened
                         && forall j :: 0 <= j < r.attempts - 1 ==> AttemptAt(opens, j) == IOError
    ensures r.Threw? ==> && 1 <= r.attempts <= AttemptLimit(maxRetries)
                         && AttemptAt(opens, r.attempts - 1) == OtherError(r.message)
                         && forall j :: 0 <= j < r.attempts - 1 ==> AttemptAt(opens, j) == IOError
    ensures r.NotReady? ==> && r.attempts == AttemptLimit(maxRetries)
                            && forall j :: 0 <= j < AttemptLimit(maxRetries) ==> AttemptAt(opens, j) == IOError
  {
    ReadinessFrom(opens, 0, AttemptLimit(maxRetries))
  }

  /** The retry loop of `WaitForFileToBeReady`; the 500 ms delay between attempts is
      not modelled. An exception that escapes the loop is returned as `Threw`. */
  method WaitForFileToBeReady(opens: seq<OpenAttempt>, maxRetries: int) returns (r: Readiness)
    ensures r == ReadinessOf(opens, maxRetries)
  {
    var i: nat := 0;
    while i < maxRetries
      invariant i <= AttemptLimit(maxRetries)
      invariant ReadinessOf(opens, maxRetries) == ReadinessFrom(opens, i, AttemptLimit(maxRetries))
    {
      var attempt := AttemptAt(opens, i);
      if attempt.Opened? {
        return Ready(i + 1);
      }
      if attempt.OtherError? {
        return Threw(i + 1, attempt.message);
      }
      i := i + 1;
    }
    return NotReady(i);
  }

  /** The message of the IOException the gate throws. */
  function NotReadyMessage(filePath: string, maxRetries: int): string {
    "File " + filePath + " is not ready after " + IntToString(maxRetries) + " retries"
  }

  // ----------------------------------------------------------------------------
  // Transcription client

  /** What running the Python client gives: it could not be launched or talked to
      (the exception `SendToWhisperAsync` catches), or it exited with a code after
      printing `stdout`. */
  datatype BackendRun = LaunchFailed | Exited(exitCode: int, stdout: string)

  /** The result of `SendToWhisperAsync`: the trimmed standard output when the client
      exited with 0 and printed something other than white space, null otherwise. */
  function SendToWhisper(run: BackendRun): (t: Option<string>)
    ensures t.Some? <==> run.Exited? && run.exitCode == 0 && !AllWhiteSpace(run.stdout)
    ensures t.Some? ==> t.value == Trim(run.stdout) && t.value != []
  {
    match run
    case LaunchFailed => None
    case Exited(code, out) => if code == 0 && !AllWhiteSpace(out) then Some(Trim(out)) else None
  }

  // ----------------------------------------------------------------------------
  // Per-file processor

  /** A file the monitor writes into the output folder: a transcript, or an error
      report standing for "Error: <message>" followed by the stack trace. */
  datatype Artifact = Transcript(text: string) | ErrorReport(message: string)

  /** Everything outside the monitor that decides how one file goes: the outcomes of
      the exclusive opens, the client run, whether writing the transcript throws
      (and with which message), and whether writing the error file throws too. */
  datatype FileEnv = FileEnv(
    opens: seq<OpenAttempt>,
    backend: BackendRun,
    transcriptWriteError: Option<string>,
    errorWriteFails: bool)

  /** The decision table of `ProcessAudioFileAsync`. */
  datatype Outcome =
    | Skipped                   // not an allowlisted extension
    | Saved(text: string)       // <base>.txt written with `text`, counter + 1
    | SoftFailure               // no transcript: nothing written
    | ErrorSaved(message: string) // <base>_error.txt written with `message`
    | Faulted(message: string)  // the error file could not be written either

  /** The name of the transcript written for the file named `fileName`. */
  function TranscriptFileName(fileName: string): string {
    GetFileNameWithoutExtension(fileName) + ".txt"
  }

  /** The name of the error report written for the file named `fileName`. */
  function ErrorFileName(fileName: string): string {
    GetFileNameWithoutExtension(fileName) + "_error.txt"
  }

  /** Both names are derived from the path's own name without extension, and they
      never coincide. */
  lemma {:induction false} OutputNames(filePath: string)
    ensures TranscriptFileName(GetFileName(filePath)) == GetFileNameWithoutExtension(filePath) + ".txt"
    ensures ErrorFileName(GetFileName(filePath)) == GetFileNameWithoutExtension(filePath) + "_error.txt"
    ensures TranscriptFileName(GetFileName(filePath)) != ErrorFileName(GetFileName(filePath))
  {
    FileNameOfFileName(filePath);
    var base := GetFileNameWithoutExtension(filePath);
    var t := base + ".txt";
    var e := base + "_error.txt";
    assert t[|base|] != e[|base|];
  }

  /** The catch block: write the error file, unless that write throws as well, in
      which case the exception faults the fire-and-forget task. */
  function Caught(message: string, env: FileEnv): Outcome {
    if env.errorWriteFails then Faulted(message) else ErrorSaved(message)
  }

  /** What processing `filePath` does. */
  function ProcessOutcome(filePath: string, env: FileEnv): Outcome {
    if !IsAudioPath(filePath) then Skipped else AllowlistedOutcome(filePath, env)
  }

  /** What the processor does with a file that passed the extension check. */
  function AllowlistedOutcome(filePath: string, env: FileEnv): Outcome {
    match ReadinessOf(env.opens, DefaultMaxRetries)
    case NotReady(_) => Caught(NotReadyMessage(filePath, DefaultMaxRetries), env)
    case Threw(_, message) => Caught(message, env)
    case Ready(_) =>
      var transcription := SendToWhisper(env.backend);
      if transcription.Some? && transcription.value != [] then
        if env.transcriptWriteError.Some? then Caught(env.transcriptWriteError.value, env)
        else Saved(transcription.value)
      else SoftFailure
  }

  /** A file outside the allowlist is skipped, and only such a file. */
  lemma {:induction false} SkippedExactlyWhenNotAudio(filePath: string, env: FileEnv)
    ensures ProcessOutcome(filePath, env).Skipped? <==> !IsAudioPath(filePath)
  {
  }

  /** An allowlisted file whose ten opens all throw an IOException gets the error
      report carrying the not-ready message (`NotReadyMessageText`), named as
      `OutputNames` says, and the counter stays; when that write throws as well
      the task faults and nothing changes. */
  lemma {:induction false} NotReadyReported(p: Progress, filePath: string, env: FileEnv)
    requires IsAudioPath(filePath) && ReadinessOf(env.opens, DefaultMaxRetries).NotReady?
    ensures !env.errorWriteFails ==>
              Step(p, filePath, env) ==
                Progress(p.processedFiles,
                         p.output[ErrorFileName(GetFileName(filePath)) :=
                                    ErrorReport(NotReadyMessage(filePath, DefaultMaxRetries))])
    ensures env.errorWriteFails ==> ProcessOutcome(filePath, env).Faulted? && Step(p, filePath, env) == p
  {
    var o := ProcessOutcome(filePath, env);
    assert o == Caught(NotReadyMessage(filePath, DefaultMaxRetries), env);
    StepOfOutcome(p, filePath, env, o);
  }

  /** The not-ready message with the default number of attempts written out. */
  lemma {:induction false} NotReadyMessageText(filePath: string)
    ensures NotReadyMessage(filePath, DefaultMaxRetries) == "File " + filePath + " is not ready after 10 retries"
  {
    assert IntToString(DefaultMaxRetries) == "10";
  }

  /** An open that throws anything but an IOException ends the gate at once: the
      error report carries that exception's message, and the counter stays; when
      the report cannot be written either the task faults and nothing changes. */
  lemma {:induction false} OpenErrorReported(p: Progress, filePath: string, env: FileEnv)
    requires IsAudioPath(filePath) && ReadinessOf(env.opens, DefaultMaxRetries).Threw?
    ensures !env.errorWriteFails ==>
              Step(p, filePath, env) ==
                Progress(p.processedFiles,
                         p.output[ErrorFileName(GetFileName(filePath)) :=
                                    ErrorReport(ReadinessOf(env.opens, DefaultMaxRetries).message)])
    ensures env.errorWriteFails ==> ProcessOutcome(filePath, env).Faulted? && Step(p, filePath, env) == p
  {
    var o := ProcessOutcome(filePath, env);
    assert o == Caught(ReadinessOf(env.opens, DefaultMaxRetries).message, env);
    StepOfOutcome(p, filePath, env, o);
  }

  /** The transcript is written exactly when the file is allowlisted, opens in
      time, the client exits with 0 after printing more than white space, and the
      write does not throw; it then holds the trimmed output, which is not empty. */
  lemma {:induction false} SavedExactly(filePath: string, env: FileEnv)
    ensures ProcessOutcome(filePath, env).Saved? <==>
              && IsAudioPath(filePath)
              && ReadinessOf(env.opens, DefaultMaxRetries).Ready?
              && env.backend.Exited? && env.backend.exitCode == 0
              && !AllWhiteSpace(env.backend.stdout)
              && env.transcriptWriteError.None?
    ensures ProcessOutcome(filePath, env).Saved? ==>
              && ProcessOutcome(filePath, env).text == Trim(env.backend.stdout)
              && ProcessOutcome(filePath, env).text != []
  {
  }

  /** Nothing is written when the client fails, exits non-zero or prints only white
      space for a file that did open. */
  lemma {:induction false} SoftFailureExactly(filePath: string, env: FileEnv)
    ensures ProcessOutcome(filePath, env).SoftFailure? <==>
              && IsAudioPath(filePath)
              && ReadinessOf(env.opens, DefaultMaxRetries).Ready?
              && (|| env.backend.LaunchFailed?
                  || env.backend.exitCode != 0
                  || AllWhiteSpace(env.backend.stdout))
  {
  }

  /** A failed transcript write is reported with the write's own message; a task
      faults only when the error report cannot be written. */
  lemma {:induction false} ErrorsReported(filePath: string, env: FileEnv)
    ensures ProcessOutcome(filePath, env).Faulted? ==> env.errorWriteFails
    ensures && IsAudioPath(filePath) && ReadinessOf(env.opens, DefaultMaxRetries).Ready?
            && SendToWhisper(env.backend).Some? && env.transcriptWriteError.Some? ==>
              ProcessOutcome(filePath, env) == Caught(env.transcriptWriteError.value, env)
  {
  }

  /** The output folder once the outcome for the file named `fileName` has
      written its artifact, if any. */
  function Record(output: map<string, Artifact>, fileName: string, o: Outcome): map<string, Artifact> {
    match o
    case Saved(text) => output[TranscriptFileName(fileName) := Transcript(text)]
    case ErrorSaved(message) => output[ErrorFileName(fileName) := ErrorReport(message)]
    case _ => output
  }

  /** How much an outcome adds to the processed-file counter. */
  function Counted(o: Outcome): nat {
    if o.Saved? then 1 else 0
  }

  /** The monitor's data that processing changes. */
  datatype Progress = Progress(processedFiles: nat, output: map<string, Artifact>)

  /** The monitor's data once the file named `fileName` had outcome `o`. */
  function Apply(p: Progress, fileName: string, o: Outcome): Progress {
    Progress(p.processedFiles + Counted(o), Record(p.output, fileName, o))
  }

  /** Processing one file. */
  function Step(p: Progress, filePath: string, env: FileEnv): Progress {
    Apply(p, GetFileName(filePath), ProcessOutcome(filePath, env))
  }

  /** A step adds what the file's outcome counts and records its artifact. */
  lemma {:induction false} StepOfOutcome(p: Progress, filePath: string, env: FileEnv, o: Outcome)
    requires ProcessOutcome(filePath, env) == o
    ensures Step(p, filePath, env) == Progress(p.processedFiles + Counted(o), Record(p.output, GetFileName(filePath), o))
  {
  }

  /** One file processed: the counter grows by one exactly when the transcript is
      written, the only entry of the output folder that can change is the
      transcript or the error report of that file, and a file that is skipped,
      yields no transcript or faults leaves no trace. */
  lemma {:induction false} StepEffect(p: Progress, filePath: string, env: FileEnv)
    ensures var q := Step(p, filePath, env);
            var o := ProcessOutcome(filePath, env);
            && q.processedFiles == p.processedFiles + (if o.Saved? then 1 else 0)
            && (o.Saved? ==> q.output == p.output[TranscriptFileName(GetFileName(filePath)) := Transcript(o.text)])
            && (o.ErrorSaved? ==> q.output == p.output[ErrorFileName(GetFileName(filePath)) := ErrorReport(o.message)])
            && (!o.Saved? && !o.ErrorSaved? ==> q == p)
            && (forall n :: (&& n != TranscriptFileName(GetFileName(filePath))
                             && n != ErrorFileName(GetFileName(filePath))
                             && n in p.output) ==> n in q.output && q.output[n] == p.output[n])
            && q.output.Keys <= p.output.Keys + {TranscriptFileName(GetFileName(filePath)), ErrorFileName(GetFileName(filePath))}
  {
  }

  /** The files processed one after the other: the sequential stand-in for the
      tasks the monitor starts for them. */
  function RunAll(p: Progress, files: seq<string>, env: string -> FileEnv): Progress
    decreases |files|
  {
    if files == [] then p
    else
      var last := files[|files| - 1];
      Step(RunAll(p, files[..|files| - 1], env), last, env(last))
  }

  /** Processing one more file extends the run by one step. */
  lemma {:induction false} RunAllSnoc(p: Progress, files: seq<string>, f: string, env: string -> FileEnv)
    ensures RunAll(p, files + [f], env) == Step(RunAll(p, files, env), f, env(f))
  {
    assert (files + [f])[..|files|] == files;
  }

  /** One more element of `s` taken after a prefix of it. */
  lemma {:induction false} PrefixSnoc<T>(a: seq<T>, s: seq<T>, i: nat)
    requires i < |s|
    ensures s[..i + 1] == s[..i] + [s[i]]
    ensures a + s[..i + 1] == (a + s[..i]) + [s[i]]
  {
  }

  /** The number of files among `files` whose transcript is saved. */
  function SavedCount(files: seq<string>, env: string -> FileEnv): nat
    decreases |files|
  {
    if files == [] then 0
    else
      var last := files[|files| - 1];
      SavedCount(files[..|files| - 1], env) + Counted(ProcessOutcome(last, env(last)))
  }

  /** Over any run the counter only grows, by exactly the number of saved
      transcripts (so never by more than the number of files), and no output file
      disappears. */
  lemma {:induction false} RunAllCounts(p: Progress, files: seq<string>, env: string -> FileEnv)
    ensures RunAll(p, files, env).processedFiles == p.processedFiles + SavedCount(files, env)
    ensures SavedCount(files, env) <= |files|
    ensures p.output.Keys <= RunAll(p, files, env).output.Keys
  {
    if files != [] {
      RunAllCounts(p, files[..|files| - 1], env);
    }
  }

  // ----------------------------------------------------------------------------
  // Backlog scan

  /** `Directory.GetFiles(...).Where(extension in allowlist).ToList()` over a listing. */
  function AudioFiles(listing: seq<string>): (files: seq<string>)
    ensures |files| <= |listing|
    decreases |listing|
  {
    if listing == [] then []
    else
      var last := listing[|listing| - 1];
      AudioFiles(listing[..|listing| - 1]) + (if IsAudioPath(last) then [last] else [])
  }

  /** The backlog holds exactly the listed paths with an allowlisted extension. */
  lemma {:induction false} AudioFilesMembers(listing: seq<string>, f: string)
    ensures f in AudioFiles(listing) <==> f in listing && IsAudioPath(f)
    decreases |listing|
  {
    if listing != [] {
      var init := listing[..|listing| - 1];
      AudioFilesMembers(init, f);
      assert listing == init + [listing[|listing| - 1]];
    }
  }

  /** The filter keeps listing order: filtering a concatenation concatenates the
      filtered parts. */
  lemma {:induction false} AudioFilesConcat(a: seq<string>, b: seq<string>)
    ensures AudioFiles(a + b) == AudioFiles(a) + AudioFiles(b)
    decreases |b|
  {
    if b != [] {
      var b' := b[..|b| - 1];
      assert (a + b)[..|a + b| - 1] == a + b';
      AudioFilesConcat(a, b');
    } else {
      assert a + b == a;
    }
  }

  /** The files the backlog scan dispatches; `None` stands for a listing that threw,
      which the scan catches and logs. */
  function BacklogFiles(listing: Option<seq<string>>): seq<string> {
    match listing
    case None => []
    case Some(names) => AudioFiles(names)
  }

  /** No dispatched backlog file is skipped by the processor's own extension check. */
  lemma {:induction false} BacklogNeverSkipped(listing: Option<seq<string>>, env: string -> FileEnv, f: string)
    requires f in BacklogFiles(listing)
    ensures !ProcessOutcome(f, env(f)).Skipped?
  {
    AudioFilesMembers(listing.value, f);
    SkippedExactlyWhenNotAudio(f, env(f));
  }

  // ----------------------------------------------------------------------------
  // The monitor

  const DefaultInputFolder: string := "/audio/input"
  const DefaultOutputFolder: string := "/audio/output"
  const DefaultWhisperUrl: string := "http://localhost:7860/"

  /** A FileSystemWatcher on `folder`, with its identity. */
  datatype Watcher = Watcher(id: nat, folder: string)

  /** A filesystem notification the watcher raises. */
  datatype FsEvent = Created(fullPath: string) | Changed(fullPath: string)

  class AudioFileMonitor {
    const inputFolder: string
    const outputFolder: string
    const whisperUrl: string

    var isRunning: bool
    var watcher: Option<Watcher>
    var processedFiles: nat
    /** The files the monitor has written into the output folder, by name. */
    var output: map<string, Artifact>
    /** The identity the next FileSystemWatcher gets. */
    var nextWatcherId: nat
    /** The watchers whose Created and Changed handlers are attached. */
    var subscriptions: set<nat>
    /** Every path handed to the per-file processor, in dispatch order. */
    ghost var dispatched: seq<string>

    /** The two-state lifecycle: running exactly when a watcher is held, and then
        its handlers form the one live subscription. */
    ghost predicate Valid()
      reads this
      ensures Valid() ==> |subscriptions| <= 1
    {
      && (isRunning <==> watcher.Some?)
      && (watcher.None? ==> subscriptions == {})
      && (watcher.Some? ==> && subscriptions == {watcher.value.id}
                            && watcher.value.id < nextWatcherId
                            && watcher.value.folder == inputFolder)
    }

    function State(): Progress
      reads this
    {
      Progress(processedFiles, output)
    }

    /** The constructor reads the three settings, each with its default. */
    constructor (inputSetting: Option<string>, outputSetting: Option<string>, urlSetting: Option<string>)
      ensures Valid()
      ensures inputFolder == inputSetting.GetOr(DefaultInputFolder)
      ensures outputFolder == outputSetting.GetOr(DefaultOutputFolder)
      ensures whisperUrl == urlSetting.GetOr(DefaultWhisperUrl)
      ensures !isRunning && watcher.None? && processedFiles == 0 && output == map[]
      ensures subscriptions == {} && nextWatcherId == 0 && dispatched == []
    {
      inputFolder := inputSetting.GetOr(DefaultInputFolder);
      outputFolder := outputSetting.GetOr(DefaultOutputFolder);
      whisperUrl := urlSetting.GetOr(DefaultWhisperUrl);
      isRunning := false;
      watcher := None;
      processedFiles := 0;
      output := map[];
      nextWatcherId := 0;
      subscriptions := {};
      dispatched := [];
    }

    /** The state `Start` leaves when it was called while stopped. */
    twostate predicate StartedFrom(listing: Option<seq<string>>, env: string -> FileEnv)
      reads this
    {
      && isRunning
      && watcher == Some(Watcher(old(nextWatcherId), inputFolder))
      && subscriptions == {old(nextWatcherId)}
      && nextWatcherId == old(nextWatcherId) + 1
      && dispatched == old(dispatched) + BacklogFiles(listing)
      && State() == RunAll(old(State()), BacklogFiles(listing), env)
    }

    /** The state `Stop` leaves when it was called while running. */
    twostate predicate StoppedFrom()
      reads this
    {
      && !isRunning
      && watcher.None?
      && subscriptions == {}
      && nextWatcherId == old(nextWatcherId)
      && dispatched == old(dispatched)
      && State() == old(State())
    }

    /** `Start`: a no-op while running; otherwise it creates one watcher on the input
        folder, attaches its handlers, becomes running and scans the backlog.
        `listing` is what `Directory.GetFiles` gives and `env` how each file goes. */
    method Start(listing: Option<seq<string>>, env: string -> FileEnv)
      requires Valid()
      modifies this
      ensures Valid()
      ensures old(isRunning) ==> unchanged(this)
      ensures !old(isRunning) ==> StartedFrom(listing, env)
    {
      if isRunning {
        return;
      }
      watcher := Some(Watcher(nextWatcherId, inputFolder));
      subscriptions := subscriptions + {nextWatcherId};
      nextWatcherId := nextWatcherId + 1;
      isRunning := true;
      ProcessExistingFiles(listing, env);
    }

    /** `Stop`: a no-op while stopped; otherwise it detaches the handlers, disposes
        of the watcher and becomes stopped. */
    method Stop()
      requires Valid()
      modifies this
      ensures Valid()
      ensures !old(isRunning) ==> unchanged(this)
      ensures old(isRunning) ==> StoppedFrom()
    {
      if !isRunning {
        return;
      }
      if watcher.Some? {
        subscriptions := subscriptions - {watcher.value.id};
        watcher := None;
      }
      isRunning := false;
    }

    /** The backlog scan: every listed file with an allowlisted extension is
        dispatched, in listing order. */
    method ProcessExistingFiles(listing: Option<seq<string>>, env: string -> FileEnv)
      modifies this`processedFiles, this`output, this`dispatched
      ensures dispatched == old(dispatched) + BacklogFiles(listing)
      ensures State() == RunAll(old(State()), BacklogFiles(listing), env)
    {
      if listing.None? {
        return;
      }
      var files := AudioFiles(listing.value);
      var i := 0;
      while i < |files|
        invariant i <= |files|
        invariant dispatched == old(dispatched) + files[..i]
        invariant State() == RunAll(old(State()), files[..i], env)
      {
        var file := files[i];
        dispatched := dispatched + [file];
        ProcessAudioFile(file, env(file));
        PrefixSnoc(old(dispatched), files, i);
        RunAllSnoc(old(State()), files[..i], file, env);
        i := i + 1;
      }
      assert files[..i] == files;
    }

    /** The subscription at work: while a watcher is held, a Created notification
        dispatches the path and a Changed one is only logged; with no watcher no
        notification arrives. */
    method Deliver(ev: FsEvent, env: FileEnv)
      requires Valid()
      modifies this`processedFiles, this`output, this`dispatched
      ensures Valid()
      ensures watcher.None? || ev.Changed? ==> unchanged(this)
      ensures watcher.Some? && ev.Created? ==>
                && dispatched == old(dispatched) + [ev.fullPath]
                && State() == Step(old(State()), ev.fullPath, env)
    {
      if watcher.Some? && ev.Created? {
        dispatched := dispatched + [ev.fullPath];
        ProcessAudioFile(ev.fullPath, env);
      }
    }

    /** `ProcessAudioFileAsync` for one file. */
    method ProcessAudioFile(filePath: string, env: FileEnv)
      modifies this`processedFiles, this`output
      ensures State() == Step(old(State()), filePath, env)
    {
      if !IsAudioPath(filePath) {
        return;
      }
      ProcessAllowlisted(filePath, env);
    }

    /** The rest of the `try` block, for a file that passed the extension check. */
    method ProcessAllowlisted(filePath: string, env: FileEnv)
      modifies this`processedFiles, this`output
      ensures State() == Apply(old(State()), GetFileName(filePath), AllowlistedOutcome(filePath, env))
    {
      var fileName := GetFileName(filePath);
      var readiness := WaitForFileToBeReady(env.opens, DefaultMaxRetries);
      if readiness.NotReady? {
        SaveError(fileName, NotReadyMessage(filePath, DefaultMaxRetries), env);
        return;
      }
      if readiness.Threw? {
        SaveError(fileName, readiness.message, env);
        return;
      }
      var transcription := SendToWhisper(env.backend);
      if transcription.Some? && transcription.value != [] {
        if env.transcriptWriteError.Some? {
          SaveError(fileName, env.transcriptWriteError.value, env);
          return;
        }
        output := output[TranscriptFileName(fileName) := Transcript(transcription.value)];
        processedFiles := processedFiles + 1;
      }
    }

    /** The catch block of the processor. */
    method SaveError(fileName: string, message: string, env: FileEnv)
      modifies this`output
      ensures output == Record(old(output), fileName, Caught(message, env))
    {
      if !env.errorWriteFails {
        output := output[ErrorFileName(fileName) := ErrorReport(message)];
      }
    }
  }

  // ----------------------------------------------------------------------------
  // Control endpoints

  /** The response of a minimal-API handler. */
  datatype HttpResult = Ok(message: string) | BadRequest(message: string)

  /** `POST /start`. */
  method PostStart(monitor: AudioFileMonitor, listing: Option<seq<string>>, env: string -> FileEnv)
    returns (r: HttpResult)
    requires monitor.Valid()
    modifies monitor
    ensures monitor.Valid()
    ensures old(monitor.isRunning) ==> r == BadRequest("Monitor is already running") && unchanged(monitor)
    ensures !old(monitor.isRunning) ==> r == Ok("Monitor started") && monitor.StartedFrom(listing, env)
  {
    if monitor.isRunning {
      return BadRequest("Monitor is already running");
    }
    monitor.Start(listing, env);
    return Ok("Monitor started");
  }

  /** `POST /stop`. */
  method PostStop(monitor: AudioFileMonitor) returns (r: HttpResult)
    requires monitor.Valid()
    modifies monitor
    ensures monitor.Valid()
    ensures !old(monitor.isRunning) ==> r == BadRequest("Monitor is not running") && unchanged(monitor)
    ensures old(monitor.isRunning) ==> r == Ok("Monitor stopped") && monitor.StoppedFrom()
  {
    if !monitor.isRunning {
      return BadRequest("Monitor is not running");
    }
    monitor.Stop();
    return Ok("Monitor stopped");
  }
}
