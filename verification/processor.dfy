/**
 * The background job: drives one job record from `processing` to
 * `completed` or `failed` while extracting, transcribing, moving the
 * transcript into the results directory and cleaning up. The extractor, the
 * cloud and the move are outcomes passed in; the file system and the job
 * table are the objects the job changes.
 *
 * Two variants: the package's processor swallows every cleanup error; the
 * single-file server's does not, so a cleanup error there ends the job as
 * failed, and one in its error handler escapes the background task.
 */
module Processor {
  import opened Wrappers
  import opened PyStrings
  import opened MediaTypes
  import opened Disk
  import opened JobStore
  import opened TranscriptionService
  import opened JobsRouter

  /** What the world outside the model does during one run. */
  datatype Outcomes = Outcomes(
    extraction: Result<string, string>,  // the extracted audio's path, or the extractor's error message
    timestamp: nat,                      // `int(time.time())` inside the transcriber
    cloud: Result<seq<Blob>, string>,    // the bucket after recognition, or the cloud error's message
    moveError: Option<string>)           // what `shutil.move` raises, if anything

  /** The cloud settings a run uses. */
  datatype Settings = Settings(bucket: Option<string>, project: Option<string>)

  /**
   * The package's processor takes each setting from the configuration (read
   * from the environment at start-up) or else from the environment now.
   */
  function ResolveSettings(config: Settings, env: Settings): (s: Settings)
    ensures Truthy(s.bucket) <==> Truthy(config.bucket) || Truthy(env.bucket)
    ensures Truthy(s.project) <==> Truthy(config.project) || Truthy(env.project)
    ensures Truthy(config.bucket) ==> s.bucket == config.bucket
    ensures Truthy(config.project) ==> s.project == config.project
  {
    Settings(Or(config.bucket, env.bucket), Or(config.project, env.project))
  }

  /** A progress update without optional values. */
  function Progress(msg: string): Update {
    Update(Processing, msg, None, None, None)
  }

  /** The update of the error handler: status failed, progress "Error: <msg>", error <msg>. */
  function FailedUpdate(msg: string): Update {
    Update(Failed, "Error: " + msg, Some(msg), None, None)
  }

  function CompletedUpdate(text: string, resultPath: string): Update {
    Update(Completed, "Transcription completed successfully", None, Some(text), Some(resultPath))
  }

  /** Where the transcript is moved to. */
  function ResultPath(jobId: string): string {
    "results/" + jobId + "_transcription.txt"
  }

  /** The progress update of the media route. */
  function RouteUpdate(t: FileType): Update {
    if t == Video then Progress("Extracting audio from video...") else Progress("Processing audio file...")
  }

  /**
   * The progress updates of the try block: "Analyzing file..." first, then,
   * once the settings and the type pass, the route's progress, and then,
   * unless the extraction failed, the transcription phase. They depend on
   * the checks alone, not on how the transcription goes; all of them keep the
   * job processing.
   */
  function TryUpdates(filename: string, s: Settings, out: Outcomes): (us: seq<Update>)
    ensures 1 <= |us| <= 3 && us[0] == Progress("Analyzing file...")
    ensures forall i :: 0 <= i < |us| ==> us[i].status == Processing
    ensures |us| > 1 <==> Truthy(s.bucket) && Truthy(s.project) && GetFileType(filename) != Unknown
    ensures |us| > 1 ==> us[1] == RouteUpdate(GetFileType(filename))
    ensures |us| == 3 <==> (|us| > 1 && !(GetFileType(filename) == Video && out.extraction.Failure?))
  {
    var analyzing := Progress("Analyzing file...");
    var fileType := GetFileType(filename);
    if !Truthy(s.bucket) || !Truthy(s.project) || fileType == Unknown then [analyzing]
    else if fileType == Video && out.extraction.Failure? then [analyzing, RouteUpdate(fileType)]
    else [analyzing, RouteUpdate(fileType), Progress("Transcribing with speaker diarization...")]
  }

  /**
   * How far the try block got: either the message of what it raised, with
   * the files on disk at that point, or a transcript moved into place, with
   * the audio that was transcribed.
   */
  datatype Attempt =
    | Raised(files: set<string>, message: string)
    | Moved(files: set<string>, audio: string, extracted: bool, text: string)

  /** The try block of the job, up to and including the move of the transcript. */
  function TryBlock(jobId: string, filePath: string, filename: string, s: Settings, out: Outcomes, files: set<string>): Attempt {
    if !Truthy(s.bucket) || !Truthy(s.project) then
      Raised(files, "GCS_BUCKET_NAME and GOOGLE_PROJECT_ID must be set")
    else
      var fileType := GetFileType(filename);
      if fileType == Unknown then
        Raised(files, "Unsupported file format: " + Suffix(filename))
      else if fileType == Video && out.extraction.Failure? then
        Raised(files, out.extraction.error)
      else
        var audio := if fileType == Video then out.extraction.value else filePath;
        var onDisk := if fileType == Video then files + {audio} else files;
        TranscribeAndMove(jobId, audio, fileType == Video, s, out, onDisk)
  }

  /** The end of the try block: transcribe the audio, then move the local transcript into the results directory. */
  function TranscribeAndMove(jobId: string, audio: string, extracted: bool, s: Settings, out: Outcomes, files: set<string>): Attempt {
    match Transcription(audio, s.bucket, s.project, audio in files, out.timestamp, true, out.cloud)
    case Failure(e) => Raised(files, e.message)
    case Success(t) =>
      var local := t.outputFile.value;
      if out.moveError.Some? then Raised(files + {local}, out.moveError.value)
      else Moved(AfterMove(files + {local}, local, ResultPath(jobId)), audio, extracted, t.transcription)
  }

  /** A run: the try block's progress updates, the one final update, and the files left on disk. */
  datatype Trace = Trace(progress: seq<Update>, final: Update, files: set<string>) {
    /** All the updates of the run, in order. */
    function Updates(): seq<Update> {
      progress + [final]
    }
  }

  /**
   * What the package's processor does after its try block: record the
   * failure or the completion, remove the extracted audio after a completion
   * unless it is kept, and remove the upload, swallowing every removal error.
   */
  function Finish(jobId: string, filePath: string, keepAudio: bool, progress: seq<Update>, a: Attempt,
                  failing: map<string, string>): (t: Trace)
    ensures t.progress == progress && Terminal(t.final.status)
    ensures t.final.status == Failed <==> a.Raised?
    ensures filePath in failing ==> (filePath in t.files <==> filePath in a.files)
    ensures filePath !in failing ==> filePath !in t.files
  {
    match a
    case Raised(onDisk, msg) =>
      Trace(progress, FailedUpdate(msg), AfterUnlink(onDisk, failing, filePath))
    case Moved(onDisk, audio, extracted, text) =>
      var kept := if extracted && !keepAudio then AfterUnlink(onDisk, failing, audio) else onDisk;
      Trace(progress, CompletedUpdate(text, ResultPath(jobId)), AfterUnlink(kept, failing, filePath))
  }

  /** `process_transcription` of the package: every cleanup error is swallowed. */
  function Guarded(jobId: string, filePath: string, filename: string, keepAudio: bool, s: Settings, out: Outcomes, files: set<string>, failing: map<string, string>): Trace {
    Finish(jobId, filePath, keepAudio, TryUpdates(filename, s, out), TryBlock(jobId, filePath, filename, s, out, files), failing)
  }

  /** A run of the single-file server's variant, and the error that escaped it, if one did. */
  datatype UnguardedTrace = UnguardedTrace(progress: seq<Update>, final: Update, files: set<string>, escaped: Option<string>) {
    function Updates(): seq<Update> {
      progress + [final]
    }
  }

  /** The error handler of the single-file server: record the failure, then remove the upload unguarded. */
  function FailUnguarded(updates: seq<Update>, onDisk: set<string>, msg: string, filePath: string,
                         failing: map<string, string>): UnguardedTrace
  {
    UnguardedTrace(updates, FailedUpdate(msg), AfterUnlink(onDisk, failing, filePath),
      if filePath in onDisk then UnlinkError(onDisk, failing, filePath) else None)
  }

  /** The first error of the single-file server's removals after a move, if any, and the files left. */
  datatype Cleanup = Cleanup(error: Option<string>, files: set<string>)

  /**
   * The removals of a completed run in the single-file server, unguarded:
   * the extracted audio unless it is kept, then the upload; the first
   * failing removal stops them.
   */
  function CleanupMoved(filePath: string, keepAudio: bool, a: Attempt, failing: map<string, string>): (c: Cleanup)
    requires a.Moved?
    ensures c.files <= a.files
    ensures c.error.None? ==> filePath !in c.files
    ensures c.error.Some? ==> c.error.value in failing.Values
  {
    var removeAudio := a.extracted && !keepAudio && a.audio in a.files;
    if removeAudio && a.audio in failing then Cleanup(Some(failing[a.audio]), a.files)
    else
      var kept := if removeAudio then a.files - {a.audio} else a.files;
      if filePath in kept && filePath in failing then Cleanup(Some(failing[filePath]), kept)
      else Cleanup(None, AfterUnlink(kept, failing, filePath))
  }

  /**
   * What the single-file server does after its try block: the removals of a
   * completed run are not guarded, so a removal error turns the run into a
   * failure, and the error handler's own removal of the upload can escape.
   */
  function FinishUnguarded(jobId: string, filePath: string, keepAudio: bool, progress: seq<Update>, a: Attempt,
                           failing: map<string, string>): (t: UnguardedTrace)
    ensures t.progress == progress && Terminal(t.final.status)
    ensures t.escaped.Some? ==> t.final.status == Failed && filePath in a.files && filePath in failing
  {
    if a.Raised? then FailUnguarded(progress, a.files, a.message, filePath, failing)
    else
      var c := CleanupMoved(filePath, keepAudio, a, failing);
      if c.error.Some? then FailUnguarded(progress, c.files, c.error.value, filePath, failing)
      else UnguardedTrace(progress, CompletedUpdate(a.text, ResultPath(jobId)), c.files, None)
  }

  /** `process_transcription` of the single-file server: cleanup errors are not caught. */
  function Unguarded(jobId: string, filePath: string, filename: string, keepAudio: bool, s: Settings, out: Outcomes, files: set<string>, failing: map<string, string>): UnguardedTrace {
    FinishUnguarded(jobId, filePath, keepAudio, TryUpdates(filename, s, out), TryBlock(jobId, filePath, filename, s, out, files), failing)
  }

  // ---------------------------------------------------------------------
  // The job, step by step.

  /** The try block, run against the table and the file system. */
  method RunTryBlock(table: JobTable, fs: FileSystem, jobId: string, filePath: string, filename: string,
                     s: Settings, out: Outcomes, now: nat) returns (a: Attempt)
    requires table.Valid()
    modifies table, fs
    ensures table.Valid() && table.order == old(table.order)
    ensures a == TryBlock(jobId, filePath, filename, s, out, old(fs.files))
    ensures table.jobs == Replay(old(table.jobs), jobId, TryUpdates(filename, s, out), now)
    ensures fs.files == a.files
  {
    var analyzing := Progress("Analyzing file...");
    table.UpdateJobStatus(jobId, analyzing, now);
    ReplaySnoc(old(table.jobs), jobId, [], analyzing, now);
    if !Truthy(s.bucket) || !Truthy(s.project) {
      return Raised(fs.files, "GCS_BUCKET_NAME and GOOGLE_PROJECT_ID must be set");
    }
    var fileType := GetFileType(filename);
    if fileType == Unknown {
      return Raised(fs.files, "Unsupported file format: " + Suffix(filename));
    }
    var route := RouteUpdate(fileType);
    table.UpdateJobStatus(jobId, route, now);
    ReplaySnoc(old(table.jobs), jobId, [analyzing], route, now);
    assert [analyzing] + [route] == [analyzing, route];
    var audio := filePath;
    if fileType == Video {
      if out.extraction.Failure? {
        return Raised(fs.files, out.extraction.error);
      }
      audio := out.extraction.value;
      fs.Write(audio);
    }
    var transcribing := Progress("Transcribing with speaker diarization...");
    table.UpdateJobStatus(jobId, transcribing, now);
    ReplaySnoc(old(table.jobs), jobId, [analyzing, route], transcribing, now);
    assert [analyzing, route] + [transcribing] == [analyzing, route, transcribing];
    a := RunTranscribeAndMove(fs, jobId, audio, fileType == Video, s, out);
  }

  /** The end of the try block against the file system. */
  method RunTranscribeAndMove(fs: FileSystem, jobId: string, audio: string, extracted: bool, s: Settings, out: Outcomes)
    returns (a: Attempt)
    modifies fs
    ensures a == TranscribeAndMove(jobId, audio, extracted, s, out, old(fs.files))
    ensures fs.files == a.files
  {
    var audioExists := fs.Exists(audio);
    var result := TranscribeAudio(audio, s.bucket, s.project, audioExists, out.timestamp, true, out.cloud);
    if result.Failure? {
      return Raised(fs.files, result.error.message);
    }
    var local := result.value.outputFile.value;
    fs.Write(local);
    var moveError := fs.Move(local, ResultPath(jobId), out.moveError);
    if moveError.Some? {
      return Raised(fs.files, moveError.value);
    }
    return Moved(fs.files, audio, extracted, result.value.transcription);
  }

  /**
   * The handler and the cleanup of the package's processor, after the try
   * block has applied `progress` to `jobs` and left the files of `a`.
   */
  method RunFinish(table: JobTable, fs: FileSystem, jobId: string, filePath: string, keepAudio: bool,
                   ghost jobs: map<string, Job>, ghost progress: seq<Update>, a: Attempt, now: nat)
    requires table.Valid() && table.jobs == Replay(jobs, jobId, progress, now) && fs.files == a.files
    modifies table, fs
    ensures table.Valid() && table.order == old(table.order)
    ensures table.jobs == Replay(jobs, jobId, Finish(jobId, filePath, keepAudio, progress, a, fs.failing).Updates(), now)
    ensures fs.files == Finish(jobId, filePath, keepAudio, progress, a, fs.failing).files
  {
    var update;
    if a.Raised? {
      update := FailedUpdate(a.message);
    } else {
      if a.extracted && !keepAudio && fs.Exists(a.audio) {
        var _ := fs.Unlink(a.audio);
      }
      update := CompletedUpdate(a.text, ResultPath(jobId));
    }
    if fs.Exists(filePath) {
      var _ := fs.Unlink(filePath);
    }
    table.UpdateJobStatus(jobId, update, now);
    ReplaySnoc(jobs, jobId, progress, update, now);
  }

  /**
   * `process_transcription` of the package: each setting is the configured
   * value when truthy, else the environment's.
   */
  method ProcessTranscription(table: JobTable, fs: FileSystem, jobId: string, filePath: string, filename: string,
                              keepAudio: bool, config: Settings, env: Settings, out: Outcomes, now: nat)
    requires table.Valid()
    modifies table, fs
    ensures table.Valid() && table.order == old(table.order)
    ensures table.jobs == Replay(old(table.jobs), jobId,
      Guarded(jobId, filePath, filename, keepAudio, ResolveSettings(config, env), out, old(fs.files), fs.failing).Updates(), now)
    ensures fs.files == Guarded(jobId, filePath, filename, keepAudio, ResolveSettings(config, env), out, old(fs.files), fs.failing).files
  {
    var s := ResolveSettings(config, env);
    var a := RunTryBlock(table, fs, jobId, filePath, filename, s, out, now);
    RunFinish(table, fs, jobId, filePath, keepAudio, old(table.jobs), TryUpdates(filename, s, out), a, now);
  }

  /**
   * The handler and the cleanup of the single-file server, after the try
   * block; `escaped` is the error that leaves the background task, if any.
   */
  method RunFinishUnguarded(table: JobTable, fs: FileSystem, jobId: string, filePath: string, keepAudio: bool,
                            ghost jobs: map<string, Job>, ghost progress: seq<Update>, a: Attempt, now: nat)
    returns (escaped: Option<string>)
    requires table.Valid() && table.jobs == Replay(jobs, jobId, progress, now) && fs.files == a.files
    modifies table, fs
    ensures table.Valid() && table.order == old(table.order)
    ensures table.jobs == Replay(jobs, jobId, FinishUnguarded(jobId, filePath, keepAudio, progress, a, fs.failing).Updates(), now)
    ensures fs.files == FinishUnguarded(jobId, filePath, keepAudio, progress, a, fs.failing).files
    ensures escaped == FinishUnguarded(jobId, filePath, keepAudio, progress, a, fs.failing).escaped
  {
    var error: Option<string>;
    if a.Raised? {
      error := Some(a.message);
    } else {
      error := RemoveUnguarded(fs, filePath, keepAudio, a);
    }
    var update := if error.Some? then FailedUpdate(error.value) else CompletedUpdate(a.text, ResultPath(jobId));
    table.UpdateJobStatus(jobId, update, now);
    ReplaySnoc(jobs, jobId, progress, update, now);
    escaped := None;
    if error.Some? && fs.Exists(filePath) {
      escaped := fs.Unlink(filePath);
    }
  }

  /** The removals of a completed run in the single-file server; the error is the first that occurred. */
  method RemoveUnguarded(fs: FileSystem, filePath: string, keepAudio: bool, a: Attempt) returns (error: Option<string>)
    requires a.Moved? && fs.files == a.files
    modifies fs
    ensures error == CleanupMoved(filePath, keepAudio, a, fs.failing).error
    ensures fs.files == CleanupMoved(filePath, keepAudio, a, fs.failing).files
  {
    error := None;
    if a.extracted && !keepAudio && fs.Exists(a.audio) {
      error := fs.Unlink(a.audio);
    }
    if error.None? && fs.Exists(filePath) {
      error := fs.Unlink(filePath);
    }
  }

  /**
   * `process_transcription` of the single-file server, which reads both
   * settings from the environment alone; `escaped` is the error that leaves
   * the background task, if any.
   */
  method ProcessTranscriptionUnguarded(table: JobTable, fs: FileSystem, jobId: string, filePath: string, filename: string,
                                       keepAudio: bool, env: Settings, out: Outcomes, now: nat) returns (escaped: Option<string>)
    requires table.Valid()
    modifies table, fs
    ensures table.Valid() && table.order == old(table.order)
    ensures table.jobs == Replay(old(table.jobs), jobId,
      Unguarded(jobId, filePath, filename, keepAudio, env, out, old(fs.files), fs.failing).Updates(), now)
    ensures fs.files == Unguarded(jobId, filePath, filename, keepAudio, env, out, old(fs.files), fs.failing).files
    ensures escaped == Unguarded(jobId, filePath, filename, keepAudio, env, out, old(fs.files), fs.failing).escaped
  {
    var a := RunTryBlock(table, fs, jobId, filePath, filename, env, out, now);
    escaped := RunFinishUnguarded(table, fs, jobId, filePath, keepAudio, old(table.jobs), TryUpdates(filename, env, out), a, now);
  }

  // ---------------------------------------------------------------------
  // What a run does.

  /** The audio the cloud is given: the extracted track of a video, the upload itself otherwise. */
  function TranscribedAudio(filePath: string, filename: string, out: Outcomes): string {
    if GetFileType(filename) == Video && out.extraction.Success? then out.extraction.value else filePath
  }

  /** Everything a run needs to finish as completed. */
  predicate CanSucceed(filePath: string, filename: string, s: Settings, out: Outcomes, files: set<string>) {
    Truthy(s.bucket) && Truthy(s.project) && GetFileType(filename) != Unknown
    && (GetFileType(filename) == Video ==> out.extraction.Success?)
    && (GetFileType(filename) == Audio ==> filePath in files)
    && out.cloud.Success? && out.moveError.None?
  }

  /**
   * The package's cleanup removes the upload and, after a completion, the
   * extracted audio unless it is kept; every other file stays as the try
   * block left it, and a file whose removal fails stays too.
   */
  lemma FinishFiles(jobId: string, filePath: string, keepAudio: bool, progress: seq<Update>, a: Attempt,
                    failing: map<string, string>)
    ensures var t := Finish(jobId, filePath, keepAudio, progress, a, failing);
      forall p :: p != filePath && !(a.Moved? && a.extracted && !keepAudio && p == a.audio) ==>
        (p in t.files <==> p in a.files)
    ensures var t := Finish(jobId, filePath, keepAudio, progress, a, failing);
      a.Moved? && a.extracted && a.audio != filePath ==>
        (a.audio in t.files <==> a.audio in a.files && (keepAudio || a.audio in failing))
  {
  }

  /**
   * The job record after the handler's update: finished at `now`; after a
   * move it holds the transcription (when it is not empty) and the result
   * path, after a raise the message (when it is not empty).
   */
  lemma FinishJob(jobs: map<string, Job>, jobId: string, filePath: string, keepAudio: bool, progress: seq<Update>,
                  a: Attempt, failing: map<string, string>, now: nat)
    requires jobId in jobs
    ensures var t := Finish(jobId, filePath, keepAudio, progress, a, failing);
      var job := Replay(jobs, jobId, t.Updates(), now)[jobId];
      job.status == t.final.status && job.completedAt == Some(now)
      && (a.Moved? ==> job.resultFile == Some(ResultPath(jobId)))
      && (a.Moved? && a.text != "" ==> job.transcription == Some(a.text))
      && (a.Raised? && a.message != "" ==> job.error == Some(a.message))
  {
    var t := Finish(jobId, filePath, keepAudio, progress, a, failing);
    ReplaySnoc(jobs, jobId, progress, t.final, now);
  }

  /**
   * In the single-file server, an upload that is on disk after the try block
   * and resists removal makes the run fail, and its removal error escapes.
   */
  lemma FinishUnguardedEscapes(jobId: string, filePath: string, keepAudio: bool, progress: seq<Update>, a: Attempt,
                               failing: map<string, string>)
    requires filePath in a.files && filePath in failing
    ensures var u := FinishUnguarded(jobId, filePath, keepAudio, progress, a, failing);
      u.escaped == Some(failing[filePath]) && u.final.status == Failed && filePath in u.files
  {
    if a.Moved? {
      var removeAudio := a.extracted && !keepAudio && a.audio in a.files;
      if !(removeAudio && a.audio in failing) {
        var kept := if removeAudio then a.files - {a.audio} else a.files;
        assert filePath in kept;
      }
    }
  }

  /**
   * After a move the download endpoint serves the result path, unless the
   * cleanup removed the file there.
   */
  lemma FinishDownload(jobs: map<string, Job>, jobId: string, filePath: string, keepAudio: bool, progress: seq<Update>,
                       a: Attempt, failing: map<string, string>, now: nat)
    requires jobId in jobs && a.Moved? && ResultPath(jobId) in a.files
    requires filePath != ResultPath(jobId) && a.audio != ResultPath(jobId)
    ensures var t := Finish(jobId, filePath, keepAudio, progress, a, failing);
      DownloadTranscription(Replay(jobs, jobId, t.Updates(), now), jobId, t.files).Success?
      && DownloadTranscription(Replay(jobs, jobId, t.Updates(), now), jobId, t.files).value.path == ResultPath(jobId)
  {
    FinishFiles(jobId, filePath, keepAudio, progress, a, failing);
    FinishJob(jobs, jobId, filePath, keepAudio, progress, a, failing, now);
  }

  /** When neither the upload nor a moved audio resists removal, both handlers do the same. */
  lemma FinishAgrees(jobId: string, filePath: string, keepAudio: bool, progress: seq<Update>, a: Attempt,
                     failing: map<string, string>)
    requires filePath !in failing && (a.Moved? ==> a.audio !in failing)
    ensures var g := Finish(jobId, filePath, keepAudio, progress, a, failing);
      var u := FinishUnguarded(jobId, filePath, keepAudio, progress, a, failing);
      u.progress == g.progress && u.final == g.final && u.files == g.files && u.escaped == None
  {
    match a
    case Raised(onDisk, msg) =>
      assert filePath in onDisk ==> UnlinkError(onDisk, failing, filePath).None?;
    case Moved(onDisk, audio, extracted, text) =>
      var kept := if extracted && !keepAudio then AfterUnlink(onDisk, failing, audio) else onDisk;
      assert kept == if extracted && !keepAudio && audio in onDisk then onDisk - {audio} else onDisk;
  }

  /** The run's updates: the try block's, then the failure it raised or the completion. */
  lemma GuardedLast(jobId: string, filePath: string, filename: string, keepAudio: bool, s: Settings,
                    out: Outcomes, files: set<string>, failing: map<string, string>)
    ensures var a := TryBlock(jobId, filePath, filename, s, out, files);
      var t := Guarded(jobId, filePath, filename, keepAudio, s, out, files, failing);
      t.progress == TryUpdates(filename, s, out)
      && t.final == if a.Raised? then FailedUpdate(a.message) else CompletedUpdate(a.text, ResultPath(jobId))
    ensures var a := TryBlock(jobId, filePath, filename, s, out, files);
      a.Raised? ==> Guarded(jobId, filePath, filename, keepAudio, s, out, files, failing).files == AfterUnlink(a.files, failing, filePath)
  {
  }

  /**
   * The final update of a run is completed exactly when everything the run
   * needs held; it then carries the formatted transcription of the audio's
   * output folder and the path in the results directory.
   */
  lemma CompletedIff(jobId: string, filePath: string, filename: string, keepAudio: bool, s: Settings,
                     out: Outcomes, files: set<string>, failing: map<string, string>)
    ensures Guarded(jobId, filePath, filename, keepAudio, s, out, files, failing).final.status == Completed
      <==> CanSucceed(filePath, filename, s, out, files)
    ensures CanSucceed(filePath, filename, s, out, files) ==>
      Guarded(jobId, filePath, filename, keepAudio, s, out, files, failing).final == CompletedUpdate(
        FormattedTranscription(GcsUri(s.bucket.value, OutputFolderName(TranscribedAudio(filePath, filename, out), out.timestamp)),
          s.bucket.value, out.cloud.value),
        ResultPath(jobId))
  {
    GuardedLast(jobId, filePath, filename, keepAudio, s, out, files, failing);
    TryBlockMoved(jobId, filePath, filename, s, out, files);
  }

  /** The try block gets through exactly when everything the run needs held. */
  lemma TryBlockMoved(jobId: string, filePath: string, filename: string, s: Settings, out: Outcomes, files: set<string>)
    ensures var a := TryBlock(jobId, filePath, filename, s, out, files);
      a.Moved? <==> CanSucceed(filePath, filename, s, out, files)
    ensures var a := TryBlock(jobId, filePath, filename, s, out, files);
      a.Moved? ==> (a.audio == TranscribedAudio(filePath, filename, out) && a.extracted == (GetFileType(filename) == Video)
        && a.text == FormattedTranscription(GcsUri(s.bucket.value, OutputFolderName(a.audio, out.timestamp)),
          s.bucket.value, out.cloud.value))
  {
    if Truthy(s.bucket) && Truthy(s.project) && GetFileType(filename) != Unknown
      && !(GetFileType(filename) == Video && out.extraction.Failure?)
    {
      var audio := TranscribedAudio(filePath, filename, out);
      var onDisk := if GetFileType(filename) == Video then files + {audio} else files;
      var r := Transcription(audio, s.bucket, s.project, audio in onDisk, out.timestamp, true, out.cloud);
      assert r.Success? <==> audio in onDisk && out.cloud.Success?;
    }
  }

  /** The message the try block raises when the settings, the type or the extraction fail. */
  lemma TryBlockEarlyFailures(jobId: string, filePath: string, filename: string, s: Settings, out: Outcomes, files: set<string>)
    ensures var a := TryBlock(jobId, filePath, filename, s, out, files);
      !(Truthy(s.bucket) && Truthy(s.project)) ==> a == Raised(files, "GCS_BUCKET_NAME and GOOGLE_PROJECT_ID must be set")
    ensures var a := TryBlock(jobId, filePath, filename, s, out, files);
      Truthy(s.bucket) && Truthy(s.project) && GetFileType(filename) == Unknown ==>
        a == Raised(files, "Unsupported file format: " + Suffix(filename))
    ensures var a := TryBlock(jobId, filePath, filename, s, out, files);
      Truthy(s.bucket) && Truthy(s.project) && GetFileType(filename) == Video && out.extraction.Failure? ==>
        a == Raised(files, out.extraction.error)
  {
  }

  /** The message the try block raises when the audio is missing, the cloud fails or the move fails. */
  lemma TryBlockLateFailures(jobId: string, filePath: string, filename: string, s: Settings, out: Outcomes, files: set<string>)
    ensures var a := TryBlock(jobId, filePath, filename, s, out, files);
      Truthy(s.bucket) && Truthy(s.project) && GetFileType(filename) == Audio && filePath !in files ==>
        a.Raised? && a.message == "Audio file not found: " + filePath
    ensures var a := TryBlock(jobId, filePath, filename, s, out, files);
      (Truthy(s.bucket) && Truthy(s.project) && GetFileType(filename) != Unknown
      && (GetFileType(filename) == Video ==> out.extraction.Success?)
      && (GetFileType(filename) == Audio ==> filePath in files) && out.cloud.Failure?)
        ==> a.Raised? && a.message == out.cloud.error
    ensures var a := TryBlock(jobId, filePath, filename, s, out, files);
      CanSucceed(filePath, filename, s, out.(moveError := None), files) && out.moveError.Some? ==>
        a.Raised? && a.message == out.moveError.value
  {
    if Truthy(s.bucket) && Truthy(s.project) && GetFileType(filename) != Unknown
      && !(GetFileType(filename) == Video && out.extraction.Failure?)
    {
      var audio := TranscribedAudio(filePath, filename, out);
      var onDisk := if GetFileType(filename) == Video then files + {audio} else files;
      var r := Transcription(audio, s.bucket, s.project, audio in onDisk, out.timestamp, true, out.cloud);
      if audio !in onDisk {
        assert r == Failure(PyError(FileNotFoundError, "Audio file not found: " + audio));
      } else if out.cloud.Failure? {
        assert r == Failure(PyError(CloudError, out.cloud.error));
      }
    }
  }

  /** The error each failing step records, as `"Error: " + message` and as the error field. */
  lemma FailureReasons(jobId: string, filePath: string, filename: string, keepAudio: bool, s: Settings,
                       out: Outcomes, files: set<string>, failing: map<string, string>)
    ensures var t := Guarded(jobId, filePath, filename, keepAudio, s, out, files, failing);
      !(Truthy(s.bucket) && Truthy(s.project)) ==>
        t.progress == [Progress("Analyzing file...")] && t.final == FailedUpdate("GCS_BUCKET_NAME and GOOGLE_PROJECT_ID must be set")
        && t.files == AfterUnlink(files, failing, filePath)
    ensures var t := Guarded(jobId, filePath, filename, keepAudio, s, out, files, failing);
      Truthy(s.bucket) && Truthy(s.project) && GetFileType(filename) == Unknown ==>
        t.progress == [Progress("Analyzing file...")] && t.final == FailedUpdate("Unsupported file format: " + Suffix(filename))
        && t.files == AfterUnlink(files, failing, filePath)
    ensures var t := Guarded(jobId, filePath, filename, keepAudio, s, out, files, failing);
      Truthy(s.bucket) && Truthy(s.project) && GetFileType(filename) == Video && out.extraction.Failure? ==>
        t.progress == [Progress("Analyzing file..."), Progress("Extracting audio from video...")]
        && t.final == FailedUpdate(out.extraction.error)
    ensures var t := Guarded(jobId, filePath, filename, keepAudio, s, out, files, failing);
      Truthy(s.bucket) && Truthy(s.project) && GetFileType(filename) == Audio && filePath !in files ==>
        t.final == FailedUpdate("Audio file not found: " + filePath)
    ensures var t := Guarded(jobId, filePath, filename, keepAudio, s, out, files, failing);
      Truthy(s.bucket) && Truthy(s.project) && GetFileType(filename) != Unknown
      && (GetFileType(filename) == Video ==> out.extraction.Success?)
      && (GetFileType(filename) == Audio ==> filePath in files) && out.cloud.Failure? ==>
        t.final == FailedUpdate(out.cloud.error)
    ensures var t := Guarded(jobId, filePath, filename, keepAudio, s, out, files, failing);
      CanSucceed(filePath, filename, s, out.(moveError := None), files) && out.moveError.Some? ==>
        t.final == FailedUpdate(out.moveError.value)
  {
    GuardedLast(jobId, filePath, filename, keepAudio, s, out, files, failing);
    TryBlockEarlyFailures(jobId, filePath, filename, s, out, files);
    TryBlockLateFailures(jobId, filePath, filename, s, out, files);
    var us := TryUpdates(filename, s, out);
    if |us| == 1 {
      assert us == [Progress("Analyzing file...")];
    } else if |us| == 2 {
      assert us == [Progress("Analyzing file..."), RouteUpdate(GetFileType(filename))];
    }
  }

  /**
   * The files after the try block: nothing that was there goes, except a
   * file at the local transcript's path; after a move the transcript is in
   * the results directory and the transcribed audio is on disk.
   */
  lemma TryBlockFiles(jobId: string, filePath: string, filename: string, s: Settings, out: Outcomes, files: set<string>)
    ensures var a := TryBlock(jobId, filePath, filename, s, out, files);
      forall p :: p in files && p != LocalTranscriptPath(TranscribedAudio(filePath, filename, out)) ==> p in a.files
    ensures var a := TryBlock(jobId, filePath, filename, s, out, files);
      a.Moved? ==> ResultPath(jobId) in a.files && a.audio in a.files
    ensures var a := TryBlock(jobId, filePath, filename, s, out, files);
      Truthy(s.bucket) && Truthy(s.project) && GetFileType(filename) == Video && out.extraction.Success? ==>
        out.extraction.value in a.files
  {
    LocalTranscriptIsNewFile(TranscribedAudio(filePath, filename, out));
    TryBlockMoved(jobId, filePath, filename, s, out, files);
    if Truthy(s.bucket) && Truthy(s.project) && GetFileType(filename) != Unknown
      && !(GetFileType(filename) == Video && out.extraction.Failure?)
    {
      var audio := TranscribedAudio(filePath, filename, out);
      var onDisk := if GetFileType(filename) == Video then files + {audio} else files;
      var r := Transcription(audio, s.bucket, s.project, audio in onDisk, out.timestamp, true, out.cloud);
      if r.Success? {
        assert r.value.outputFile == Some(LocalTranscriptPath(audio));
      }
    }
  }

  /**
   * The job record after a run: finished at `now` with the run's final
   * status; a completed job holds its transcription and the result path, a
   * failed one the error message (when it is not empty).
   */
  lemma {:induction false} ProcessedJob(jobs: map<string, Job>, jobId: string, filePath: string, filename: string, keepAudio: bool,
                                        s: Settings, out: Outcomes, files: set<string>, failing: map<string, string>, now: nat)
    requires jobId in jobs
    ensures var t := Guarded(jobId, filePath, filename, keepAudio, s, out, files, failing);
      var job := Replay(jobs, jobId, t.Updates(), now)[jobId];
      job.status == t.final.status && Terminal(job.status) && job.completedAt == Some(now)
      && (job.status == Completed ==> job.resultFile == Some(ResultPath(jobId)) && job.transcription == t.final.transcription)
      && (job.status == Failed && t.final.error != Some("") ==> job.error == t.final.error)
  {
    var a := TryBlock(jobId, filePath, filename, s, out, files);
    if a.Moved? {
      TryBlockMoved(jobId, filePath, filename, s, out, files);
      TranscriptNeverEmpty(GcsUri(s.bucket.value, OutputFolderName(a.audio, out.timestamp)), s.bucket.value, out.cloud.value);
    }
    FinishJob(jobs, jobId, filePath, keepAudio, TryUpdates(filename, s, out), a, failing, now);
  }

  /**
   * After a completed run the download endpoint serves the transcript: the
   * result file is on disk unless the upload or the audio sat at that very
   * path.
   */
  lemma DownloadAfterSuccess(jobs: map<string, Job>, jobId: string, filePath: string, filename: string, keepAudio: bool,
                             s: Settings, out: Outcomes, files: set<string>, failing: map<string, string>, now: nat)
    requires jobId in jobs && CanSucceed(filePath, filename, s, out, files)
    requires filePath != ResultPath(jobId) && TranscribedAudio(filePath, filename, out) != ResultPath(jobId)
    ensures var t := Guarded(jobId, filePath, filename, keepAudio, s, out, files, failing);
      DownloadTranscription(Replay(jobs, jobId, t.Updates(), now), jobId, t.files).Success?
      && DownloadTranscription(Replay(jobs, jobId, t.Updates(), now), jobId, t.files).value.path == ResultPath(jobId)
  {
    TryBlockMoved(jobId, filePath, filename, s, out, files);
    TryBlockFiles(jobId, filePath, filename, s, out, files);
    FinishDownload(jobs, jobId, filePath, keepAudio, TryUpdates(filename, s, out), TryBlock(jobId, filePath, filename, s, out, files), failing, now);
  }

  // ---------------------------------------------------------------------
  // Cleanup.

  /** The upload is removed whatever the outcome, unless its removal fails. */
  lemma UploadRemoved(jobId: string, filePath: string, filename: string, keepAudio: bool, s: Settings,
                      out: Outcomes, files: set<string>, failing: map<string, string>)
    requires filePath !in failing
    ensures filePath !in Guarded(jobId, filePath, filename, keepAudio, s, out, files, failing).files
  {
  }

  /** A failed run leaves the extracted audio track on disk: only the upload is cleaned up. */
  lemma ExtractedAudioKeptOnFailure(jobId: string, filePath: string, filename: string, keepAudio: bool, s: Settings,
                                    out: Outcomes, files: set<string>, failing: map<string, string>)
    requires Truthy(s.bucket) && Truthy(s.project) && GetFileType(filename) == Video && out.extraction.Success?
    requires out.extraction.value != filePath
    requires Guarded(jobId, filePath, filename, keepAudio, s, out, files, failing).final.status == Failed
    ensures out.extraction.value in Guarded(jobId, filePath, filename, keepAudio, s, out, files, failing).files
  {
    TryBlockFiles(jobId, filePath, filename, s, out, files);
    FinishFiles(jobId, filePath, keepAudio, TryUpdates(filename, s, out), TryBlock(jobId, filePath, filename, s, out, files), failing);
  }

  /**
   * After a completed run the extracted audio track is gone unless it was
   * to be kept or its removal failed.
   */
  lemma ExtractedAudioOnSuccess(jobId: string, filePath: string, filename: string, keepAudio: bool, s: Settings,
                                out: Outcomes, files: set<string>, failing: map<string, string>)
    requires CanSucceed(filePath, filename, s, out, files) && GetFileType(filename) == Video
    requires out.extraction.value != filePath
    ensures out.extraction.value in Guarded(jobId, filePath, filename, keepAudio, s, out, files, failing).files
      <==> keepAudio || out.extraction.value in failing
  {
    TryBlockMoved(jobId, filePath, filename, s, out, files);
    TryBlockFiles(jobId, filePath, filename, s, out, files);
    FinishFiles(jobId, filePath, keepAudio, TryUpdates(filename, s, out), TryBlock(jobId, filePath, filename, s, out, files), failing);
  }

  /** A failing cleanup never changes what the job records. */
  lemma CleanupNeverChangesOutcome(jobId: string, filePath: string, filename: string, keepAudio: bool, s: Settings,
                                   out: Outcomes, files: set<string>, failing1: map<string, string>, failing2: map<string, string>)
    ensures Guarded(jobId, filePath, filename, keepAudio, s, out, files, failing1).Updates()
      == Guarded(jobId, filePath, filename, keepAudio, s, out, files, failing2).Updates()
  {
  }

  // ---------------------------------------------------------------------
  // The single-file server's variant.

  /** When neither the upload nor the audio resists removal, both variants do the same. */
  lemma UnguardedAgrees(jobId: string, filePath: string, filename: string, keepAudio: bool, s: Settings,
                        out: Outcomes, files: set<string>, failing: map<string, string>)
    requires filePath !in failing && TranscribedAudio(filePath, filename, out) !in failing
    ensures var g := Guarded(jobId, filePath, filename, keepAudio, s, out, files, failing);
      var u := Unguarded(jobId, filePath, filename, keepAudio, s, out, files, failing);
      u.progress == g.progress && u.final == g.final && u.files == g.files && u.escaped == None
  {
    TryBlockMoved(jobId, filePath, filename, s, out, files);
    FinishAgrees(jobId, filePath, keepAudio, TryUpdates(filename, s, out), TryBlock(jobId, filePath, filename, s, out, files), failing);
  }

  /**
   * In the single-file server, a failing removal of the extracted audio
   * after a successful transcription marks the job failed with that error,
   * though the transcript already sits in the results directory; the
   * package's processor marks the same run completed.
   */
  lemma UnguardedCleanupFailsJob(jobId: string, filePath: string, filename: string, s: Settings,
                                 out: Outcomes, files: set<string>, failing: map<string, string>)
    requires CanSucceed(filePath, filename, s, out, files) && GetFileType(filename) == Video
    requires out.extraction.value in failing
    ensures Guarded(jobId, filePath, filename, false, s, out, files, failing).final.status == Completed
    ensures var u := Unguarded(jobId, filePath, filename, false, s, out, files, failing);
      u.final == FailedUpdate(failing[out.extraction.value])
      && (filePath != ResultPath(jobId) ==> ResultPath(jobId) in u.files)
  {
    CompletedIff(jobId, filePath, filename, false, s, out, files, failing);
    TryBlockMoved(jobId, filePath, filename, s, out, files);
    TryBlockFiles(jobId, filePath, filename, s, out, files);
  }

  /** In the single-file server, a failing removal of the upload escapes the background task after the job is marked failed. */
  lemma UnguardedUploadErrorEscapes(jobId: string, filePath: string, filename: string, keepAudio: bool, s: Settings,
                                    out: Outcomes, files: set<string>, failing: map<string, string>)
    requires filePath in files && filePath in failing
    requires LocalTranscriptPath(TranscribedAudio(filePath, filename, out)) != filePath
    ensures var u := Unguarded(jobId, filePath, filename, keepAudio, s, out, files, failing);
      u.escaped == Some(failing[filePath]) && u.final.status == Failed && filePath in u.files
  {
    TryBlockFiles(jobId, filePath, filename, s, out, files);
    FinishUnguardedEscapes(jobId, filePath, keepAudio, TryUpdates(filename, s, out), TryBlock(jobId, filePath, filename, s, out, files), failing);
  }
}
