/** The standalone Python watcher service: it transcribes every audio file found
    in or dropped into the input folder, writes `<stem>.txt` or `<stem>_error.txt`
    into the output folder, counts the transcripts it saved and moves each
    transcribed file into the `processed` sub-folder. */
module PythonService {
  import opened Wrappers
  import opened Text
  import opened PyPath
  import WhisperApi
  import DotNetPath

  // ----------------------------------------------------------------------------
  // Classifier

  /** `AUDIO_EXTENSIONS`, the elements of the set literal. */
  const AudioExtensions: seq<string> :=
    [".mp3", ".wav", ".m4a", ".flac", ".ogg", ".mp4", ".webm", ".avi", ".mkv"]

  /** `is_audio_file`: the lower-cased pathlib suffix is one of the extensions. */
  predicate IsAudioFile(filePath: string) {
    Contains(AudioExtensions, LowerAscii(Suffix(filePath)))
  }

  /** Every extension of the set is a '.' followed by letters and digits. */
  lemma {:induction false} AllowlistShape()
    ensures forall e :: e in AudioExtensions ==> ExtensionShape(e)
  {
  }

  /** A path is an audio file exactly when its lower-cased name ends with one of
      the nine extensions and has something before it: a name such as ".mp3" has
      no suffix in pathlib and is not an audio file. */
  lemma {:induction false} IsAudioFileBySuffix(filePath: string)
    ensures IsAudioFile(filePath) <==>
            exists e :: e in AudioExtensions && |e| < |Name(filePath)| && HasSuffix(LowerAscii(Name(filePath)), e)
  {
    AllowlistShape();
    ContainsIsMembership(AudioExtensions, LowerAscii(Suffix(filePath)));
    LowerSuffixIn(filePath, AudioExtensions);
  }

  /** Only the name of a path decides, so an entry of the input folder is
      classified the same whether it is joined to the folder or not. */
  lemma {:induction false} IsAudioFileOfJoin(folder: string, entry: string)
    requires entry != [] && Lacks(entry, Separator)
    ensures IsAudioFile(Join(folder, entry)) == IsAudioFile(entry)
  {
    NameOfJoin(folder, entry);
    NameOfName(Join(folder, entry));
    assert Suffix(Join(folder, entry)) == Suffix(entry);
  }

  /** Both services take the name after the last '/'. Where pathlib sees a
      suffix, .NET sees the same extension; a name that starts with its only '.'
      has no suffix for pathlib but is all extension for .NET. */
  lemma {:induction false} SuffixAgainstExtension(p: string)
    ensures DotNetPath.GetFileName(p) == Name(p)
    ensures Suffix(p) != [] ==> DotNetPath.GetExtension(p) == Suffix(p)
    ensures LastIndexOf(Name(p), Dot) == 0 ==>
              && Suffix(p) == []
              && (|Name(p)| > 1 ==> DotNetPath.GetExtension(p) == Name(p))
  {
    assert DotNetPath.FileNameStart(p) == NameStart(p);
  }

  /** The two services do not accept the same files: this one also takes `.avi`
      and `.mkv`, which the .NET monitor skips. */
  lemma {:induction false} VideoOnlyHere(p: string)
    requires LowerAscii(Suffix(p)) == ".avi" || LowerAscii(Suffix(p)) == ".mkv"
    ensures IsAudioFile(p) && !WhisperApi.IsAudioPath(p)
  {
    SuffixAgainstExtension(p);
    VideoListedHere();
    VideoNotListedThere();
  }

  /** `.avi` and `.mkv` are the eighth and ninth entries of this service's set. */
  lemma {:induction false} VideoListedHere()
    ensures Contains(AudioExtensions, ".avi") && Contains(AudioExtensions, ".mkv")
  {
    ContainsAt(AudioExtensions, 7);
    ContainsAt(AudioExtensions, 8);
  }

  /** Neither is on the .NET list: no entry there has an 'a' second or a 'k' third. */
  lemma {:induction false} VideoNotListedThere()
    ensures !Contains(WhisperApi.AudioExtensions, ".avi") && !Contains(WhisperApi.AudioExtensions, ".mkv")
  {
    ContainsNone(WhisperApi.AudioExtensions, ".avi", 1);
    ContainsNone(WhisperApi.AudioExtensions, ".mkv", 2);
  }

  /** And a file named just ".mp3" (or any other allowlisted extension) is
      processed by the .NET monitor, for which it is all extension, but skipped
      here, where it has no suffix. */
  lemma {:induction false} DotFileOnlyThere(p: string)
    requires LastIndexOf(Name(p), Dot) == 0
    requires LowerAscii(Name(p)) in WhisperApi.AudioExtensions
    ensures !IsAudioFile(p) && WhisperApi.IsAudioPath(p)
  {
    WhisperApi.AllowlistShape();
    SuffixAgainstExtension(p);
    AllowlistShape();
    ContainsIsMembership(AudioExtensions, "");
    ContainsIsMembership(WhisperApi.AudioExtensions, LowerAscii(Name(p)));
  }

  // ----------------------------------------------------------------------------
  // Size-stability wait

  /** The default `timeout` of `wait_for_file_complete`. */
  const DefaultTimeout: int := 30

  /** The number of iterations `for _ in range(timeout)` performs. */
  function RangeLength(n: int): (r: nat)
    ensures r == 0 <==> n <= 0
    ensures 0 < r ==> r == n
  {
    if n < 0 then 0 else n
  }

  /** The outcome of `os.path.getsize` on iteration `i`: `sizes` lists what the
      file system gives, `None` standing for an OSError; reads past its end fail. */
  function SizeRead(sizes: seq<Option<nat>>, i: nat): Option<nat> {
    if i < |sizes| then sizes[i] else None
  }

  /** The value of the local `size` at the start of iteration `i`: -1 until a read
      succeeds, then the last successful read. */
  function RecordedSize(sizes: seq<Option<nat>>, i: nat): int {
    if i == 0 then -1
    else
      match SizeRead(sizes, i - 1)
      case None => RecordedSize(sizes, i - 1)
      case Some(n) => n
  }

  /** Iteration `i` finds the size equal to the recorded one and returns True. */
  predicate StableAt(sizes: seq<Option<nat>>, i: nat) {
    SizeRead(sizes, i).Some? && SizeRead(sizes, i).value == RecordedSize(sizes, i)
  }

  /** `wait_for_file_complete`: `complete` is its result, `iterations` the number
      of loop iterations it ran (the one-second sleeps are not modelled). It
      returns True on the first iteration whose read equals the recorded size,
      never runs more than `timeout` iterations, and returns False only when no
      iteration within them was stable. */
  method WaitForFileComplete(sizes: seq<Option<nat>>, timeout: int) returns (complete: bool, iterations: nat)
    ensures iterations <= RangeLength(timeout)
    ensures forall j :: 0 <= j < iterations - 1 ==> !StableAt(sizes, j)
    ensures complete ==> 1 <= iterations && StableAt(sizes, iterations - 1)
    ensures !complete ==> iterations == RangeLength(timeout) && (iterations == 0 || !StableAt(sizes, iterations - 1))
  {
    var size: int := -1;
    var i: nat := 0;
    while i < timeout
      invariant i <= RangeLength(timeout)
      invariant size == RecordedSize(sizes, i)
      invariant forall j :: 0 <= j < i ==> !StableAt(sizes, j)
    {
      var newSize := SizeRead(sizes, i);
      if newSize.Some? {
        if newSize.value == size {
          return true, i + 1;
        }
        size := newSize.value;
      }
      i := i + 1;
    }
    return false, i;
  }

  /** Until a read succeeds the recorded size stays at -1. */
  lemma {:induction false} RecordedSizeBeforeAnyRead(sizes: seq<Option<nat>>, i: nat)
    requires forall j :: 0 <= j < i ==> SizeRead(sizes, j).None?
    ensures RecordedSize(sizes, i) == -1
  {
    if i > 0 {
      RecordedSizeBeforeAnyRead(sizes, i - 1);
    }
  }

  /** The first successful read never ends the wait: the recorded -1 is no size. */
  lemma {:induction false} FirstReadNeverStable(sizes: seq<Option<nat>>, i: nat)
    requires forall j :: 0 <= j < i ==> SizeRead(sizes, j).None?
    ensures !StableAt(sizes, i)
  {
    RecordedSizeBeforeAnyRead(sizes, i);
  }

  /** A failed read leaves the recorded size as it was. */
  lemma {:induction false} FailedReadKeepsSize(sizes: seq<Option<nat>>, i: nat)
    requires SizeRead(sizes, i).None?
    ensures RecordedSize(sizes, i + 1) == RecordedSize(sizes, i)
  {
  }

  /** After reads that failed since iteration `k`, the recorded size is still the
      one read on iteration `k`. */
  lemma {:induction false} RecordedSizeIsLastRead(sizes: seq<Option<nat>>, k: nat, i: nat)
    requires k < i && SizeRead(sizes, k).Some?
    requires forall j :: k < j < i ==> SizeRead(sizes, j).None?
    ensures RecordedSize(sizes, i) == SizeRead(sizes, k).value
    decreases i
  {
    if i > k + 1 {
      RecordedSizeIsLastRead(sizes, k, i - 1);
    }
  }

  /** A recorded size other than -1 was read on an earlier iteration. */
  lemma {:induction false} RecordedSizeWasRead(sizes: seq<Option<nat>>, i: nat)
    requires RecordedSize(sizes, i) != -1
    ensures exists k :: 0 <= k < i && SizeRead(sizes, k).Some? && SizeRead(sizes, k).value == RecordedSize(sizes, i)
  {
    if SizeRead(sizes, i - 1).None? {
      RecordedSizeWasRead(sizes, i - 1);
    }
  }

  /** A stable iteration means two successful reads gave the same size: the one
      on that iteration and an earlier one. */
  lemma {:induction false} StableMeansRepeatedSize(sizes: seq<Option<nat>>, i: nat)
    requires StableAt(sizes, i)
    ensures exists k :: 0 <= k < i && SizeRead(sizes, k) == SizeRead(sizes, i)
  {
    RecordedSizeWasRead(sizes, i);
  }

  // ----------------------------------------------------------------------------
  // Transcription of one file

  /** What `model.transcribe` (and reading its result) gives: the formatted output
      text, or an exception with its message. */
  datatype ModelRun = Transcribed(outputText: string) | ModelError(message: string)

  /** Everything outside the service that decides how one file goes: the size
      reads, the model run, whether writing the transcript throws (and with which
      message), whether writing the error file throws, and whether the move into
      the processed folder fails. */
  datatype PyFileEnv = PyFileEnv(
    sizes: seq<Option<nat>>,
    model: ModelRun,
    writeError: Option<string>,
    errorWriteFails: bool,
    moveFails: bool)

  /** The ways `transcribe_audio` ends. */
  datatype PyOutcome =
    | Saved(text: string, moved: bool) // <stem>.txt written, counter + 1, True returned
    | ErrorSaved(content: string)      // <stem>_error.txt written, False returned
    | Propagated                       // the error file could not be written: the exception escapes

  /** The name of the transcript of the file named `fileName`. */
  function TranscriptName(fileName: string): string {
    Stem(fileName) + ".txt"
  }

  /** The name of the error report of the file named `fileName`. */
  function ErrorName(fileName: string): string {
    Stem(fileName) + "_error.txt"
  }

  /** Both names are derived from the stem of the path itself, and they never
      coincide. */
  lemma {:induction false} OutputNames(audioPath: string)
    ensures TranscriptName(Name(audioPath)) == Stem(audioPath) + ".txt"
    ensures ErrorName(Name(audioPath)) == Stem(audioPath) + "_error.txt"
    ensures TranscriptName(Name(audioPath)) != ErrorName(Name(audioPath))
  {
    NameOfName(audioPath);
    var stem := Stem(audioPath);
    assert (stem + ".txt")[|stem|] != (stem + "_error.txt")[|stem|];
  }

  /** What the except block writes. */
  function ErrorContent(fileName: string, message: string): string {
    "Error processing " + fileName + ":\n\n" + message
  }

  /** The except block: write the error report, unless that write throws too. */
  function Caught(fileName: string, message: string, env: PyFileEnv): PyOutcome {
    if env.errorWriteFails then Propagated else ErrorSaved(ErrorContent(fileName, message))
  }

  /** What `transcribe_audio(audioPath)` does. */
  function TranscribeOutcome(audioPath: string, env: PyFileEnv): PyOutcome {
    var fileName := Name(audioPath);
    match env.model
    case ModelError(message) => Caught(fileName, message, env)
    case Transcribed(text) =>
      if env.writeError.Some? then Caught(fileName, env.writeError.value, env)
      else Saved(text, !env.moveFails)
  }

  /** The size wait only logs a warning: how the reads go never changes the
      outcome, so a file that may be incomplete is transcribed all the same. */
  lemma {:induction false} OutcomeIgnoresSizes(audioPath: string, env: PyFileEnv, sizes: seq<Option<nat>>)
    ensures TranscribeOutcome(audioPath, env) == TranscribeOutcome(audioPath, env.(sizes := sizes))
  {
  }

  /** The transcript is saved exactly when the model returns and the write does
      not throw; a failed move does not change that, it only keeps the file out of
      the processed folder. */
  lemma {:induction false} SavedExactly(audioPath: string, env: PyFileEnv)
    ensures TranscribeOutcome(audioPath, env).Saved? <==> env.model.Transcribed? && env.writeError.None?
    ensures TranscribeOutcome(audioPath, env).Saved? ==>
              && TranscribeOutcome(audioPath, env).text == env.model.outputText
              && TranscribeOutcome(audioPath, env).moved == !env.moveFails
  {
  }

  /** Any exception before the transcript is written makes `transcribe_audio`
      return False after writing `<stem>_error.txt` with "Error processing
      <name>:\n\n<message>", with the counter and the processed folder unchanged;
      when that write throws as well the exception escapes and nothing changes. */
  lemma {:induction false} ErrorReported(p: PyProgress, audioPath: string, env: PyFileEnv)
    requires env.model.ModelError? || env.writeError.Some?
    ensures var message := if env.model.ModelError? then env.model.message else env.writeError.value;
            var q := PyStep(p, audioPath, env);
            !env.errorWriteFails ==>
              && Returned(TranscribeOutcome(audioPath, env)) == Some(false)
              && q.processedFiles == p.processedFiles
              && q.processed == p.processed
              && q.output == p.output[Stem(audioPath) + "_error.txt" :=
                                        "Error processing " + Name(audioPath) + ":\n\n" + message]
    ensures env.errorWriteFails ==>
              Returned(TranscribeOutcome(audioPath, env)).None? && PyStep(p, audioPath, env) == p
  {
    OutputNames(audioPath);
  }

  /** An exception escapes `transcribe_audio` exactly when something failed before
      the transcript was written and the error report could not be written. */
  lemma {:induction false} PropagatesExactly(audioPath: string, env: PyFileEnv)
    ensures TranscribeOutcome(audioPath, env).Propagated? <==>
              (env.model.ModelError? || env.writeError.Some?) && env.errorWriteFails
  {
  }

  /** The value `transcribe_audio` returns, or `None` when it raises. */
  function Returned(o: PyOutcome): Option<bool> {
    match o
    case Saved(_, _) => Some(true)
    case ErrorSaved(_) => Some(false)
    case Propagated => None
  }

  /** The service's data that transcription changes: the global counter, the
      output folder by name, and the names in the processed folder. */
  datatype PyProgress = PyProgress(processedFiles: nat, output: map<string, string>, processed: set<string>)

  /** Transcribing one file. */
  function PyStep(p: PyProgress, audioPath: string, env: PyFileEnv): PyProgress {
    var fileName := Name(audioPath);
    match TranscribeOutcome(audioPath, env)
    case Saved(text, moved) =>
      PyProgress(p.processedFiles + 1, p.output[TranscriptName(fileName) := text],
                 if moved then p.processed + {fileName} else p.processed)
    case ErrorSaved(content) =>
      PyProgress(p.processedFiles, p.output[ErrorName(fileName) := content], p.processed)
    case Propagated => p
  }

  /** One file transcribed: True is returned exactly when the counter grows, and it
      grows by one; exactly one artifact, named after the stem, is written unless
      the exception escapes, and then nothing changes. */
  lemma {:induction false} PyStepEffect(p: PyProgress, audioPath: string, env: PyFileEnv)
    ensures var q := PyStep(p, audioPath, env);
            var o := TranscribeOutcome(audioPath, env);
            var fileName := Name(audioPath);
            && (Returned(o) == Some(true) <==> q.processedFiles == p.processedFiles + 1)
            && (Returned(o) != Some(true) ==> q.processedFiles == p.processedFiles)
            && (o.Saved? ==> q.output == p.output[TranscriptName(fileName) := o.text])
            && (o.ErrorSaved? ==> q.output == p.output[ErrorName(fileName) := o.content])
            && (o.Propagated? ==> q == p)
            && p.processed <= q.processed <= p.processed + {fileName}
  {
  }

  // ----------------------------------------------------------------------------
  // Backlog filter

  /** An entry of `os.listdir`, with what `os.path.isfile` says of it. */
  datatype DirEntry = DirEntry(name: string, isFile: bool)

  /** The joined paths of the first `n` entries that are regular files and that
      `keep` accepts, in listing order. */
  function CollectPaths(inputFolder: string, entries: seq<DirEntry>, n: nat, keep: string -> bool): (files: seq<string>)
    requires n <= |entries|
    ensures |files| <= n
  {
    if n == 0 then []
    else
      var filePath := Join(inputFolder, entries[n - 1].name);
      if entries[n - 1].isFile && keep(filePath) then CollectPaths(inputFolder, entries, n - 1, keep) + [filePath]
      else CollectPaths(inputFolder, entries, n - 1, keep)
  }

  /** A path is collected exactly when it is the joined path of a regular-file
      entry that `keep` accepts. */
  lemma {:induction false} CollectPathsMembers(inputFolder: string, entries: seq<DirEntry>, n: nat,
                                               keep: string -> bool, f: string)
    requires n <= |entries|
    ensures f in CollectPaths(inputFolder, entries, n, keep) <==>
            exists k :: 0 <= k < n && entries[k].isFile && f == Join(inputFolder, entries[k].name) && keep(f)
  {
    if n > 0 {
      CollectPathsMembers(inputFolder, entries, n - 1, keep, f);
      var filePath := Join(inputFolder, entries[n - 1].name);
      if f == filePath && entries[n - 1].isFile && keep(f) {
        assert f in CollectPaths(inputFolder, entries, n, keep);
      }
    }
  }

  /** Collection keeps listing order: the paths of a prefix of the listing come
      first, in the same order. */
  lemma {:induction false} CollectPathsPrefix(inputFolder: string, entries: seq<DirEntry>, m: nat, n: nat,
                                              keep: string -> bool)
    requires m <= n <= |entries|
    ensures CollectPaths(inputFolder, entries, m, keep) <= CollectPaths(inputFolder, entries, n, keep)
    decreases n
  {
    if m < n {
      CollectPathsPrefix(inputFolder, entries, m, n - 1, keep);
    }
  }

  /** The paths `process_existing_files` collects. */
  function ExistingAudioPaths(inputFolder: string, entries: seq<DirEntry>): seq<string> {
    CollectPaths(inputFolder, entries, |entries|, IsAudioFile)
  }

  /** The backlog holds exactly the regular files of the listing with an audio
      suffix, each as the input folder joined with its entry name. */
  lemma {:induction false} ExistingAudioPathsMembers(inputFolder: string, entries: seq<DirEntry>, f: string)
    ensures f in ExistingAudioPaths(inputFolder, entries) <==>
            exists k :: 0 <= k < |entries| && entries[k].isFile && f == Join(inputFolder, entries[k].name) && IsAudioFile(f)
  {
    CollectPathsMembers(inputFolder, entries, |entries|, IsAudioFile, f);
  }

  /** The collecting loop of `process_existing_files`, with the test applied to
      each joined path as a parameter. */
  method CollectExisting(inputFolder: string, entries: seq<DirEntry>, keep: string -> bool) returns (files: seq<string>)
    ensures files == CollectPaths(inputFolder, entries, |entries|, keep)
  {
    files := [];
    var i := 0;
    while i < |entries|
      invariant i <= |entries|
      invariant files == CollectPaths(inputFolder, entries, i, keep)
    {
      var filePath := Join(inputFolder, entries[i].name);
      if entries[i].isFile && keep(filePath) {
        files := files + [filePath];
      }
      i := i + 1;
    }
  }

  /** `process_existing_files` collects the regular files of the listing that
      `is_audio_file` accepts. */
  method ExistingAudioFiles(inputFolder: string, entries: seq<DirEntry>) returns (files: seq<string>)
    ensures files == ExistingAudioPaths(inputFolder, entries)
  {
    files := CollectExisting(inputFolder, entries, IsAudioFile);
  }

  /** Transcribing `files` in order, stopping at the first exception that escapes;
      the flag tells whether one did. */
  function RunBacklog(p: PyProgress, files: seq<string>, env: string -> PyFileEnv): (PyProgress, bool)
    decreases |files|
  {
    if files == [] then (p, false)
    else if TranscribeOutcome(files[0], env(files[0])).Propagated? then (p, true)
    else RunBacklog(PyStep(p, files[0], env(files[0])), files[1..], env)
  }

  /** Over a backlog run the counter grows by at most one per file and no output
      file or processed file disappears. */
  lemma {:induction false} RunBacklogBounds(p: PyProgress, files: seq<string>, env: string -> PyFileEnv)
    ensures var q := RunBacklog(p, files, env).0;
            && p.processedFiles <= q.processedFiles <= p.processedFiles + |files|
            && p.output.Keys <= q.output.Keys
            && p.processed <= q.processed
    decreases |files|
  {
    if files != [] && !TranscribeOutcome(files[0], env(files[0])).Propagated? {
      PyStepEffect(p, files[0], env(files[0]));
      RunBacklogBounds(PyStep(p, files[0], env(files[0])), files[1..], env);
    }
  }

  /** The number of transcripts a backlog run saves before the first exception
      that escapes. */
  function SavedBeforeEscape(files: seq<string>, env: string -> PyFileEnv): nat
    decreases |files|
  {
    if files == [] then 0
    else
      var o := TranscribeOutcome(files[0], env(files[0]));
      if o.Propagated? then 0
      else (if o.Saved? then 1 else 0) + SavedBeforeEscape(files[1..], env)
  }

  /** Over a backlog the counter grows by exactly the number of transcripts saved
      before the first exception that escapes, and the run is aborted exactly
      when some file lets one escape. */
  lemma {:induction false} RunBacklogCounts(p: PyProgress, files: seq<string>, env: string -> PyFileEnv)
    ensures RunBacklog(p, files, env).0.processedFiles == p.processedFiles + SavedBeforeEscape(files, env)
    ensures RunBacklog(p, files, env).1 <==>
              exists k :: 0 <= k < |files| && TranscribeOutcome(files[k], env(files[k])).Propagated?
    decreases |files|
  {
    if files != [] {
      var o := TranscribeOutcome(files[0], env(files[0]));
      if !o.Propagated? {
        PyStepEffect(p, files[0], env(files[0]));
        RunBacklogCounts(PyStep(p, files[0], env(files[0])), files[1..], env);
        if RunBacklog(p, files, env).1 {
          var k :| 0 <= k < |files[1..]| && TranscribeOutcome(files[1..][k], env(files[1..][k])).Propagated?;
          assert files[1..][k] == files[k + 1];
        }
        if k :| 0 <= k < |files| && TranscribeOutcome(files[k], env(files[k])).Propagated? {
          assert k != 0 && files[k] == files[1..][k - 1];
        }
      }
    }
  }

  /** When every file of the backlog is transcribed, the counter grows by the
      length of the backlog and nothing escapes. */
  lemma {:induction false} RunBacklogAllSaved(p: PyProgress, files: seq<string>, env: string -> PyFileEnv)
    requires forall f :: f in files ==> TranscribeOutcome(f, env(f)).Saved?
    ensures RunBacklog(p, files, env).0.processedFiles == p.processedFiles + |files|
    ensures !RunBacklog(p, files, env).1
    decreases |files|
  {
    if files != [] {
      assert files[0] in files;
      forall f | f in files[1..] ensures TranscribeOutcome(f, env(f)).Saved? {
        assert f in files;
      }
      RunBacklogAllSaved(PyStep(p, files[0], env(files[0])), files[1..], env);
    }
  }

  // ----------------------------------------------------------------------------
  // The service

  const DefaultInputFolder: string := "/audio/input"
  const DefaultOutputFolder: string := "/audio/output"

  /** A watchdog notification. */
  datatype PyEvent = PyEvent(srcPath: string, isDirectory: bool)

  /** The module-level configuration and the global counter of app.py, with the
      output and processed folders it writes into. */
  class TranscriptionService {
    const inputFolder: string
    const outputFolder: string
    const processedFolder: string

    var processedFiles: nat
    /** The files written into the output folder, by name. */
    var output: map<string, string>
    /** The names of the files moved into the processed folder. */
    var processed: set<string>

    function Progress(): PyProgress
      reads this
    {
      PyProgress(processedFiles, output, processed)
    }

    /** The configuration read from `INPUT_FOLDER` and `OUTPUT_FOLDER`, each with
        its default; `PROCESSED_FOLDER` is `processed` under the input folder. */
    constructor (inputSetting: Option<string>, outputSetting: Option<string>)
      ensures inputFolder == inputSetting.GetOr(DefaultInputFolder)
      ensures outputFolder == outputSetting.GetOr(DefaultOutputFolder)
      ensures processedFolder == Join(inputFolder, "processed")
      ensures processedFiles == 0 && output == map[] && processed == {}
    {
      inputFolder := inputSetting.GetOr(DefaultInputFolder);
      outputFolder := outputSetting.GetOr(DefaultOutputFolder);
      processedFolder := Join(inputSetting.GetOr(DefaultInputFolder), "processed");
      processedFiles := 0;
      output := map[];
      processed := {};
    }

    /** `transcribe_audio`; `r` is its return value, `None` when it raises. */
    method TranscribeAudio(audioPath: string, env: PyFileEnv) returns (r: Option<bool>)
      modifies this`processedFiles, this`output, this`processed
      ensures r == Returned(TranscribeOutcome(audioPath, env))
      ensures processedFiles == PyStep(old(Progress()), audioPath, env).processedFiles
      ensures output == PyStep(old(Progress()), audioPath, env).output
      ensures processed == PyStep(old(Progress()), audioPath, env).processed
    {
      var fileName := Name(audioPath);
      var complete, _ := WaitForFileComplete(env.sizes, DefaultTimeout);
      if env.model.ModelError? {
        assert TranscribeOutcome(audioPath, env) == Caught(fileName, env.model.message, env);
        r := SaveError(fileName, env.model.message, env);
        return;
      }
      if env.writeError.Some? {
        assert TranscribeOutcome(audioPath, env) == Caught(fileName, env.writeError.value, env);
        r := SaveError(fileName, env.writeError.value, env);
        return;
      }
      assert TranscribeOutcome(audioPath, env) == Saved(env.model.outputText, !env.moveFails);
      output := output[TranscriptName(fileName) := env.model.outputText];
      processedFiles := processedFiles + 1;
      if !env.moveFails {
        processed := processed + {fileName};
      }
      return Some(true);
    }

    /** The except block of `transcribe_audio`. */
    method SaveError(fileName: string, message: string, env: PyFileEnv) returns (r: Option<bool>)
      modifies this`output
      ensures env.errorWriteFails ==> r.None? && output == old(output)
      ensures !env.errorWriteFails ==>
                r == Some(false) && output == old(output)[ErrorName(fileName) := ErrorContent(fileName, message)]
    {
      if env.errorWriteFails {
        return None;
      }
      output := output[ErrorName(fileName) := ErrorContent(fileName, message)];
      return Some(false);
    }

    /** `AudioFileHandler.on_created`: directories and non-audio paths are ignored,
        anything else is transcribed; `r` is what `transcribe_audio` returned, if it
        ran and did not raise. */
    method OnCreated(ev: PyEvent, env: PyFileEnv) returns (r: Option<bool>)
      modifies this`processedFiles, this`output, this`processed
      ensures ev.isDirectory || !IsAudioFile(ev.srcPath) ==> r.None? && unchanged(this)
      ensures !ev.isDirectory && IsAudioFile(ev.srcPath) ==>
                && r == Returned(TranscribeOutcome(ev.srcPath, env))
                && Progress() == PyStep(old(Progress()), ev.srcPath, env)
    {
      if ev.isDirectory {
        return None;
      }
      if IsAudioFile(ev.srcPath) {
        r := TranscribeAudio(ev.srcPath, env);
      } else {
        r := None;
      }
    }

    /** `process_existing_files` over the listing `entries`: the audio files are
        collected, then transcribed in order; `raised` tells whether an exception
        escaped and ended the scan early. */
    method ProcessExistingFiles(entries: seq<DirEntry>, env: string -> PyFileEnv) returns (raised: bool)
      modifies this`processedFiles, this`output, this`processed
      ensures (Progress(), raised) == RunBacklog(old(Progress()), ExistingAudioPaths(inputFolder, entries), env)
    {
      var files := ExistingAudioFiles(inputFolder, entries);
      var i := 0;
      while i < |files|
        invariant i <= |files|
        invariant RunBacklog(old(Progress()), files, env) == RunBacklog(Progress(), files[i..], env)
      {
        var filePath := files[i];
        assert files[i..][0] == filePath && files[i..][1..] == files[i + 1..];
        var r := TranscribeAudio(filePath, env(filePath));
        if r.None? {
          return true;
        }
        i := i + 1;
      }
      return false;
    }
  }
}
