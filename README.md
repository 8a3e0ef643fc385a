# Audio ingestion pipelines of whisper-transcription, in Dafny

The repository turns audio files dropped into a folder into text transcripts. It
does this in two independent services, and this project models the ingestion
logic of both.

- **The .NET monitor** (`WhisperApi/Program.cs`) is a hosted service,
  `AudioFileMonitor`.
  - It watches an input folder and scans the files already there when it starts.
  - It gives each file with an allowlisted extension up to ten exclusive opens to
    become readable. Only an IOException is retried; any other exception from an
    open ends the gate and is reported like any other failure.
  - It has a Python client transcribe the file and keeps the client's trimmed
    standard output when the exit code is 0 and the output is not blank.
  - It writes `<base>.txt` and bumps its counter, writes nothing on a soft failure,
    or writes `<base>_error.txt` when something throws.
  - The `/start` and `/stop` endpoints drive its two-state lifecycle.
- **The Python watcher** (`python-service/app.py`) does the same job with the
  Whisper model in-process.
  - Its allowlist has nine extensions.
  - Its readiness wait checks that two successive successful file-size reads
    agree. A failed read in between leaves the recorded size as it was.
  - It always transcribes, even when the wait gives up.
  - It writes `<stem>.txt` or `<stem>_error.txt`, counts the transcripts it saved,
    and moves each transcribed file into `processed/` under the input folder.

Everything outside the two pipelines becomes an input of the model:

- **.NET file opens:** a sequence of attempt outcomes: opened, an IOException, or
  another exception with its message. Attempts past its end throw an IOException.
- **Python size reads:** a `seq<Option<nat>>`, where `None` is an `OSError`.
  Reads past its end fail.
- **The .NET client run:** `LaunchFailed`, or an exit code with its standard output.
- **The Whisper model run:** its formatted text, or an exception message.
- **Failures of the transcript write, the error-file write and the move:** flags in
  a per-file environment. A path's environment is given as a function from the path.
- **Directory listings:** sequences. For the .NET monitor, `None` means
  `Directory.GetFiles` threw.
- **Fire-and-forget tasks:** sequential dispatch.

The modules are:

| module | file | contents |
|---|---|---|
| `Wrappers` | `wrappers.dfy` | the `Option` type |
| `Text` | `text.dfy` | .NET white space, `String.Trim`, ASCII lower-casing, list membership, decimal rendering |
| `DotNetPath` | `dotnet_path.dfy` | `Path.GetFileName`, `GetExtension` and `GetFileNameWithoutExtension` |
| `PyPath` | `py_path.dfy` | `os.path.basename`/`join` and pathlib `suffix`/`stem` |
| `WhisperApi` | `whisper_api.dfy` | the .NET monitor and its endpoints |
| `PythonService` | `python_service.dfy` | the Python watcher |

The two allowlists differ in the code.

- The .NET list (`WhisperApi/Program.cs:147` and `:184`) has seven entries.
- `python-service/app.py:24` has nine entries, adding `.avi` and `.mkv`.
- The model follows each file's code.
- `PythonService.VideoOnlyHere` and `PythonService.DotFileOnlyThere` prove two kinds
  of path on which the services disagree: a `.avi` or `.mkv` file, and a file whose
  whole name is an allowlisted extension, such as `.mp3`.

In the .NET monitor the error file is written inside the `catch` block itself
(`WhisperApi/Program.cs:228`). A failure of that write is not caught, and it faults
the fire-and-forget task (`Faulted`). The Python service has the same structure
(`python-service/app.py:117-118`): there the exception escapes `transcribe_audio`
(`Propagated`).

## Model

| member | source | states |
|---|---|---|
| Text.IsWhiteSpace | WhisperApi/Program.cs:278 | the characters .NET's `Char.IsWhiteSpace` accepts, which `Trim` removes |
| Text.AllWhiteSpaceMeans | WhisperApi/Program.cs:275 | `string.IsNullOrWhiteSpace` on a non-null string holds exactly when every character is white space, so also on the empty string |
| Text.Trim | WhisperApi/Program.cs:278 | the trimmed text is empty exactly when the input is all .NET white space, and otherwise starts and ends with a character that is not white space |
| Text.TrimIsInfix | WhisperApi/Program.cs:278 | `Trim` removes exactly a leading and a trailing run of white space and keeps the characters in between, in order |
| Text.LowerAscii | WhisperApi/Program.cs:185 | `ToLowerInvariant` on ASCII letters: same length, each character lower-cased (`LowerAsciiAt`) |
| Text.Contains | WhisperApi/Program.cs:187 | element-by-element `Contains` over a list of strings |
| Text.NatToStringRoundTrip | WhisperApi/Program.cs:247 | the decimal rendering of a natural number is a non-empty digit string without leading zero whose value is that number |
| Text.IntToStringRoundTrip | WhisperApi/Program.cs:247 | the rendering of an integer starts with "-" exactly when it is negative, and the rest reads back as its magnitude |
| Text.ContainsIsMembership | WhisperApi/Program.cs:149 | the element-by-element `Contains` check is membership in the list |
| DotNetPath.GetFileName | WhisperApi/Program.cs:179 | `Path.GetFileName`: what follows the last '/', with no '/' in it (`FileNameLacksSeparator`) |
| DotNetPath.GetExtension | WhisperApi/Program.cs:185 | `Path.GetExtension`: from the file name's last '.' to its end, or empty when there is no '.' or it is last |
| DotNetPath.GetFileNameWithoutExtension | WhisperApi/Program.cs:204 | `Path.GetFileNameWithoutExtension`: the file name up to its last '.' (`NameSplitsAtExtension`) |
| DotNetPath.FileNameOfFileName | WhisperApi/Program.cs:179 | taking the file name first changes neither the extension nor the name without extension |
| DotNetPath.NameSplitsAtExtension | WhisperApi/Program.cs:204 | the name without extension followed by the extension is the file name, except that a final '.' belongs to neither |
| DotNetPath.LowerExtensionIsSuffix | WhisperApi/Program.cs:185 | a lower-cased extension equals ".xyz" exactly when the lower-cased file name ends with ".xyz" |
| DotNetPath.LowerExtensionIn | WhisperApi/Program.cs:184-188 | against a list of ".xyz" extensions: the extension is listed exactly when the file name ends with a listed one |
| PyPath.Name | python-service/app.py:63 | `os.path.basename`: what follows the last '/', with no '/' in it (`NameLacksSeparator`) |
| PyPath.Suffix | python-service/app.py:41 | pathlib `suffix`: from the name's last '.' when it is neither the first nor the last character, else empty |
| PyPath.Stem | python-service/app.py:88 | pathlib `stem`: the name without its suffix (`StemAndSuffix`) |
| PyPath.Join | python-service/app.py:151 | `os.path.join` of two components, adding a '/' unless the first ends with one (`NameOfJoin`) |
| PyPath.StemAndSuffix | python-service/app.py:88 | pathlib's stem followed by its suffix is the name |
| PyPath.NameOfName | python-service/app.py:63 | `basename` of a basename is itself, and it has the same suffix and stem as the full path |
| PyPath.NameOfJoin | python-service/app.py:150-151 | the name of the input folder joined with a listing entry is that entry |
| PyPath.LowerSuffixIs | python-service/app.py:41 | the lower-cased suffix is ".xyz" exactly when the lower-cased name ends with ".xyz" and is longer than it |
| PyPath.LowerSuffixIn | python-service/app.py:41 | against a list of ".xyz" suffixes: the suffix is listed exactly when the name ends with a listed one and has something before it |
| WhisperApi.IsAudioPath | WhisperApi/Program.cs:184-187 | the extension check: the lower-cased extension is one of the seven listed (`IsAudioPathBySuffix`) |
| WhisperApi.IsAudioPathBySuffix | WhisperApi/Program.cs:184-188 | a path is processed exactly when its lower-cased file name ends with one of the seven extensions, so ".mp3" alone counts |
| WhisperApi.AttemptAt | WhisperApi/Program.cs:238-241 | the outcome of one exclusive open; opens beyond the supplied ones throw an IOException |
| WhisperApi.AttemptLimit | WhisperApi/Program.cs:234 | the number of iterations of `for (int i = 0; i < maxRetries; i++)`: `maxRetries` when positive, none otherwise |
| WhisperApi.ReadinessFrom | WhisperApi/Program.cs:234-247 | from any attempt on, the gate stops at the first open that succeeds or throws something other than an IOException, or reports not-ready after every remaining attempt threw an IOException |
| WhisperApi.ReadinessOf | WhisperApi/Program.cs:232-247 | at most `maxRetries` opens; ready on the first success, ended by the first non-IOException with its message, and not ready only after `maxRetries` IOExceptions in a row |
| WhisperApi.WaitForFileToBeReady | WhisperApi/Program.cs:232-248 | the retry loop yields exactly the gate's specified outcome |
| WhisperApi.NotReadyMessage | WhisperApi/Program.cs:247 | the message of the not-ready IOException, with the attempt count rendered in decimal |
| WhisperApi.NotReadyMessageText | WhisperApi/Program.cs:247 | with the default ten attempts the message is "File <path> is not ready after 10 retries" |
| WhisperApi.SendToWhisper | WhisperApi/Program.cs:250-292 | a transcript exists exactly when the client exited with 0 after printing more than white space; it is the trimmed output and is never empty |
| WhisperApi.TranscriptFileName | WhisperApi/Program.cs:204 | the transcript name: the name without extension plus ".txt" |
| WhisperApi.ErrorFileName | WhisperApi/Program.cs:226 | the error report name: the name without extension plus "_error.txt" |
| WhisperApi.OutputNames | WhisperApi/Program.cs:204-226 | the transcript and error names are the path's name without extension plus ".txt" or "_error.txt", and the two never coincide |
| WhisperApi.Caught | WhisperApi/Program.cs:221-228 | the `catch` block: the error report is written, or the task faults when that write throws |
| WhisperApi.ProcessOutcome | WhisperApi/Program.cs:177-230 | the decision table of `ProcessAudioFileAsync`: skipped outside the allowlist, otherwise the outcome for an allowlisted file |
| WhisperApi.AllowlistedOutcome | WhisperApi/Program.cs:193-228 | after the extension check: gate failures and write failures are caught, a transcript is saved, or nothing happens on a soft failure |
| WhisperApi.SkippedExactlyWhenNotAudio | WhisperApi/Program.cs:184-191 | a file is skipped exactly when its extension is outside the allowlist |
| WhisperApi.NotReadyReported | WhisperApi/Program.cs:221-247 | a file whose ten opens all throw an IOException gets `<base>_error.txt` with the not-ready message and the counter stays; when that write throws the task faults and nothing changes |
| WhisperApi.OpenErrorReported | WhisperApi/Program.cs:221-244 | an open that throws anything but an IOException ends the gate: the error report carries that exception's message and the counter stays; when that write throws the task faults and nothing changes |
| WhisperApi.SavedExactly | WhisperApi/Program.cs:198-215 | the transcript is saved exactly when the file is allowlisted, opens, the client succeeds and the write does not throw; it holds the trimmed output |
| WhisperApi.SoftFailureExactly | WhisperApi/Program.cs:200-201 | nothing is written exactly when an opened file's client run fails, exits non-zero or prints only white space |
| WhisperApi.ErrorsReported | WhisperApi/Program.cs:218-228 | a failed transcript write is reported with its own message, and a task faults only when the error report cannot be written |
| WhisperApi.Record | WhisperApi/Program.cs:203-228 | the output folder after an outcome: the transcript or the error report under its name, otherwise unchanged |
| WhisperApi.Counted | WhisperApi/Program.cs:211 | the counter grows by one for a saved transcript and by nothing otherwise |
| WhisperApi.Apply | WhisperApi/Program.cs:177-230 | the monitor's counter and output folder once a file has a given outcome |
| WhisperApi.Step | WhisperApi/Program.cs:177-230 | processing one file: its outcome applied to the counter and the output folder (`StepEffect`) |
| WhisperApi.StepEffect | WhisperApi/Program.cs:177-230 | the counter grows by one exactly on a saved transcript; only the file's own transcript or error report may change; skipped, soft-failed and faulted files leave no trace |
| WhisperApi.RunAll | WhisperApi/Program.cs:154-157 | the files processed one after the other, in order |
| WhisperApi.SavedCount | WhisperApi/Program.cs:211 | the number of files in a run whose transcript is saved |
| WhisperApi.RunAllCounts | WhisperApi/Program.cs:154-157 | over a run of files the counter grows by exactly the number of saved transcripts, at most one per file, and no output file disappears |
| WhisperApi.AudioFiles | WhisperApi/Program.cs:147-150 | the backlog is no longer than the listing |
| WhisperApi.AudioFilesMembers | WhisperApi/Program.cs:147-150 | the backlog holds exactly the listed paths with an allowlisted extension |
| WhisperApi.AudioFilesConcat | WhisperApi/Program.cs:148-150 | the filter keeps listing order: filtering a concatenation concatenates the filtered parts |
| WhisperApi.BacklogFiles | WhisperApi/Program.cs:145-162 | the backlog: the filtered listing, or nothing when `Directory.GetFiles` throws |
| WhisperApi.BacklogNeverSkipped | WhisperApi/Program.cs:147-157 | no file the backlog dispatches is skipped by the processor's own extension check |
| WhisperApi.AudioFileMonitor.Valid | WhisperApi/Program.cs:66-67 | running exactly when a watcher is held; then its handlers form the only subscription, so there is never more than one |
| WhisperApi.AudioFileMonitor.constructor | WhisperApi/Program.cs:76-92 | each setting falls back to its default; the monitor starts stopped, with no watcher, a zero counter and no file written yet by this monitor |
| WhisperApi.AudioFileMonitor.Start | WhisperApi/Program.cs:105-125 | a no-op while running; otherwise exactly one fresh watcher on the input folder is subscribed, the monitor is running, and the backlog is processed once in listing order |
| WhisperApi.AudioFileMonitor.Stop | WhisperApi/Program.cs:127-141 | a no-op while stopped; otherwise the subscription is dropped, no watcher is held and the monitor is stopped, with the counter and outputs unchanged |
| WhisperApi.AudioFileMonitor.ProcessExistingFiles | WhisperApi/Program.cs:143-163 | dispatches exactly the allowlisted listed files in order, and nothing when the listing throws |
| WhisperApi.AudioFileMonitor.Deliver | WhisperApi/Program.cs:165-175 | a Created notification processes its path; a Changed one, or any after `Stop`, changes nothing |
| WhisperApi.AudioFileMonitor.ProcessAudioFile | WhisperApi/Program.cs:177-230 | the counter and the output folder take exactly the one step the decision table gives for that file |
| WhisperApi.AudioFileMonitor.ProcessAllowlisted | WhisperApi/Program.cs:193-228 | for a file past the extension check, the counter and output folder record exactly its outcome: gate failure, saved transcript, failed write or soft failure |
| WhisperApi.AudioFileMonitor.SaveError | WhisperApi/Program.cs:218-228 | the error report is written unless its own write throws |
| WhisperApi.PostStart | WhisperApi/Program.cs:37-44 | 400 "Monitor is already running" with nothing changed while running, otherwise `Start` runs and 200 "Monitor started" |
| WhisperApi.PostStop | WhisperApi/Program.cs:48-55 | 400 "Monitor is not running" with nothing changed while stopped, otherwise `Stop` runs and 200 "Monitor stopped" |
| PythonService.IsAudioFile | python-service/app.py:39-41 | `is_audio_file`: the lower-cased pathlib suffix is one of the nine extensions (`IsAudioFileBySuffix`) |
| PythonService.IsAudioFileBySuffix | python-service/app.py:39-41 | a path is an audio file exactly when its lower-cased name ends with one of the nine extensions and has something before it |
| PythonService.IsAudioFileOfJoin | python-service/app.py:150-152 | a listing entry is classified the same before and after it is joined to the input folder |
| PythonService.SuffixAgainstExtension | python-service/app.py:41 | both services read the same file name; a pathlib suffix is the .NET extension, and a name whose only '.' comes first has no suffix but is all extension for .NET |
| PythonService.VideoListedHere | python-service/app.py:24 | `.avi` and `.mkv` are in this service's extension set |
| PythonService.VideoNotListedThere | WhisperApi/Program.cs:184 | neither `.avi` nor `.mkv` is on the .NET allowlist |
| PythonService.VideoOnlyHere | python-service/app.py:24 | any path whose lower-cased suffix is `.avi` or `.mkv` is an audio file here and is skipped by the .NET monitor |
| PythonService.DotFileOnlyThere | python-service/app.py:41 | a file named only by an allowlisted extension, such as ".mp3", has no pathlib suffix and is not an audio file here, while the .NET monitor processes it |
| PythonService.RangeLength | python-service/app.py:47 | the number of iterations of `range(timeout)`: `timeout` when positive, none otherwise |
| PythonService.SizeRead | python-service/app.py:49 | the outcome of `os.path.getsize` on one iteration; reads beyond the supplied ones fail |
| PythonService.RecordedSize | python-service/app.py:46-55 | the local `size`: -1 until a read succeeds, then the last successful read |
| PythonService.StableAt | python-service/app.py:49-51 | an iteration returns True when its read succeeds and equals the recorded size |
| PythonService.WaitForFileComplete | python-service/app.py:44-56 | at most `timeout` iterations; True on the first iteration whose read equals the recorded size, False only when no iteration was stable |
| PythonService.RecordedSizeBeforeAnyRead | python-service/app.py:46 | the recorded size stays -1 until a read succeeds |
| PythonService.FirstReadNeverStable | python-service/app.py:46-52 | the first successful read can never end the wait |
| PythonService.FailedReadKeepsSize | python-service/app.py:54-55 | a failed read leaves the recorded size unchanged |
| PythonService.RecordedSizeIsLastRead | python-service/app.py:49-52 | the recorded size is the value of the last successful read |
| PythonService.RecordedSizeWasRead | python-service/app.py:46-52 | a recorded size other than -1 was read on an earlier iteration |
| PythonService.StableMeansRepeatedSize | python-service/app.py:49-51 | a stable iteration means two successful reads gave the same size |
| PythonService.TranscriptName | python-service/app.py:88 | the transcript name: the stem plus ".txt" |
| PythonService.ErrorName | python-service/app.py:114 | the error report name: the stem plus "_error.txt" |
| PythonService.OutputNames | python-service/app.py:88-114 | the transcript and error names are the stem plus ".txt" or "_error.txt", and never coincide |
| PythonService.ErrorContent | python-service/app.py:118 | the error report text: "Error processing <name>:\n\n<message>" |
| PythonService.Caught | python-service/app.py:110-120 | the `except` block: the error report is written, or the exception escapes when that write throws |
| PythonService.TranscribeOutcome | python-service/app.py:59-120 | the decision table of `transcribe_audio`: saved, error report, or escaping exception |
| PythonService.OutcomeIgnoresSizes | python-service/app.py:68-69 | the result of the size wait never changes what transcription does |
| PythonService.SavedExactly | python-service/app.py:73-108 | the transcript is saved exactly when the model returns and the write does not throw; a failed move does not change that |
| PythonService.ErrorReported | python-service/app.py:110-120 | an exception before the write makes it return False after writing `<stem>_error.txt` with "Error processing <name>:\n\n<message>", counter and processed folder unchanged; when that write throws the exception escapes and nothing changes |
| PythonService.PropagatesExactly | python-service/app.py:117-118 | an exception escapes exactly when something failed before the write and the error report could not be written |
| PythonService.Returned | python-service/app.py:108-120 | the value `transcribe_audio` returns for an outcome: True, False, or none when it raises |
| PythonService.PyStep | python-service/app.py:59-120 | transcribing one file: counter, output folder and processed folder after its outcome (`PyStepEffect`) |
| PythonService.PyStepEffect | python-service/app.py:59-120 | True is returned exactly when the counter grows, by one; exactly one artifact named after the stem is written unless the exception escapes, and then nothing changes |
| PythonService.CollectPaths | python-service/app.py:149-153 | the joined paths of the first `n` listing entries that are regular files and pass a test, in listing order |
| PythonService.CollectPathsMembers | python-service/app.py:149-153 | a path is collected exactly when it is the joined path of a regular-file entry the classifier accepts |
| PythonService.CollectPathsPrefix | python-service/app.py:149-153 | collection keeps listing order: a prefix of the listing contributes a prefix of the paths |
| PythonService.ExistingAudioPaths | python-service/app.py:149-153 | the backlog `process_existing_files` collects, with `is_audio_file` as the test (`ExistingAudioPathsMembers`) |
| PythonService.ExistingAudioPathsMembers | python-service/app.py:150-152 | the backlog holds exactly the regular-file entries with an audio suffix, joined to the input folder |
| PythonService.CollectExisting | python-service/app.py:149-153 | the append loop collects exactly the specified paths, for whatever test it applies |
| PythonService.ExistingAudioFiles | python-service/app.py:149-153 | with `is_audio_file` as the test, the loop builds exactly that backlog, in listing order |
| PythonService.RunBacklog | python-service/app.py:155-158 | the backlog transcribed in order, stopping at the first exception that escapes |
| PythonService.RunBacklogBounds | python-service/app.py:157-158 | over a backlog the counter grows by at most one per file, and no output or processed file disappears |
| PythonService.SavedBeforeEscape | python-service/app.py:157-158 | the number of transcripts saved before the first exception that escapes |
| PythonService.RunBacklogCounts | python-service/app.py:155-158 | the counter grows by exactly the transcripts saved before the first escaping exception, and the run aborts exactly when some file lets one escape |
| PythonService.RunBacklogAllSaved | python-service/app.py:155-158 | when every file is transcribed, the counter grows by the length of the backlog and nothing escapes |
| PythonService.TranscriptionService.constructor | python-service/app.py:18-21 | each folder falls back to its default; `processed` lies under the input folder; the counter starts at zero and no file is written or moved yet by this service |
| PythonService.TranscriptionService.TranscribeAudio | python-service/app.py:59-120 | returns True, False or raises as the outcome says, and changes the counter, outputs and processed folder exactly as it says |
| PythonService.TranscriptionService.SaveError | python-service/app.py:110-120 | writes the error report and returns False, or raises with nothing written |
| PythonService.TranscriptionService.OnCreated | python-service/app.py:126-137 | directories and non-audio paths change nothing; any other path is transcribed |
| PythonService.TranscriptionService.ProcessExistingFiles | python-service/app.py:145-160 | transcribes exactly the collected backlog in order, stopping at the first exception that escapes |

## Left out

- Logging is not modelled in either service. Neither are the delays (`Task.Delay(500)`, `time.sleep`), because they do not change any outcome.
- Concurrency is not modelled: the `Task.Run` fan-out, the atomicity of `Interlocked.Increment`, races between two files that map to the same output name, and the Python `Observer` thread with the `while True` loop of `main`. Dispatch is sequential instead.
- WhisperApi.AudioFileMonitor.ProcessAudioFile: the counter is an unbounded `nat`, so the wrap-around of the 32-bit `_processedFiles` after 2^31 - 1 increments is not modelled.
- `Directory.CreateDirectory` and `os.makedirs` are not modelled; the folders are assumed to exist.
- Files already in the output folder when a monitor or service starts are not tracked: `output` holds only the files that instance writes, so a write replaces an earlier file of the same name without the model seeing the old one.
- The `/status` endpoint, `ExecuteAsync` and `StopAsync` are left out. They only read fields or delegate to `Start` and `Stop`.
- The web host and Swagger wiring are left out.
- How the client process is launched is left out: the argument string, the quoting, the `TrimEnd('/')` of the URL and the draining of standard error. Only its exit code and standard output are modelled.
- The stack trace the .NET error report appends is left out. The report keeps only the message.
- A write that fails midway can leave a partial file; this is not modelled. A failed write adds no entry.
- The model does not track the contents of the input folder, so the move into `processed/` does not remove the file from it.
- Whisper itself is left out: `model.transcribe`, the `LANGUAGES` lookup, `.title()` and the formatting of the output text. The formatted text is an opaque input.
- Lower-casing is modelled for ASCII letters only. `ToLowerInvariant` and `str.lower` on other characters are not.
- Python's pathlib normalisation of repeated or trailing '/' is not modelled. Paths from `os.path.join` and watchdog events do not have them.
- The file system's answers are all inputs: what `os.path.isfile` says of each entry, and the order of `Directory.GetFiles` and `os.listdir`.
- The root `app.py` (the Gradio UI) and `WhisperApi/transcribe.py` (the client) are not part of this model.
