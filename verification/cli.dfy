/**
 * The command-line tool: resolve the bucket and project from the flags or
 * the environment, then process one local file: extract the audio of a
 * video, transcribe, and remove the extracted track afterwards unless it is
 * to be kept. The extractor and the cloud are outcomes passed in.
 */
module Cli {
  import opened Wrappers
  import opened PyStrings
  import opened MediaTypes
  import opened Disk
  import opened TranscriptionService

  // ---------------------------------------------------------------------
  // Configuration.

  datatype Config = Config(bucket: string, project: string)

  /** The program stops with an exit status, naming the setting it misses. */
  datatype Exit = Exit(status: nat, missing: string)

  /**
   * A flag wins over the environment (`args.bucket or env`); the bucket is
   * checked before the project, and a missing one ends the program with
   * status 1.
   */
  function ResolveConfig(bucketFlag: Option<string>, bucketEnv: Option<string>,
                         projectFlag: Option<string>, projectEnv: Option<string>): (r: Result<Config, Exit>)
    ensures r.Success? <==> (Truthy(bucketFlag) || Truthy(bucketEnv)) && (Truthy(projectFlag) || Truthy(projectEnv))
    ensures r.Failure? ==> r.error.status == 1
    ensures !Truthy(bucketFlag) && !Truthy(bucketEnv) ==> r == Failure(Exit(1, "GCS_BUCKET_NAME"))
    ensures (Truthy(bucketFlag) || Truthy(bucketEnv)) && !Truthy(projectFlag) && !Truthy(projectEnv)
      ==> r == Failure(Exit(1, "GOOGLE_PROJECT_ID"))
    ensures r.Success? ==> (r.value.bucket == (if Truthy(bucketFlag) then bucketFlag.value else bucketEnv.value)
      && r.value.project == (if Truthy(projectFlag) then projectFlag.value else projectEnv.value))
  {
    var bucket := Or(bucketFlag, bucketEnv);
    var project := Or(projectFlag, projectEnv);
    if !Truthy(bucket) then Failure(Exit(1, "GCS_BUCKET_NAME"))
    else if !Truthy(project) then Failure(Exit(1, "GOOGLE_PROJECT_ID"))
    else Success(Config(bucket.value, project.value))
  }

  /** Once the configuration resolves, the transcriber's own bucket and project checks always pass. */
  lemma ResolvedConfigPassesChecks(bucketFlag: Option<string>, bucketEnv: Option<string>,
                                   projectFlag: Option<string>, projectEnv: Option<string>,
                                   path: string, fileExists: bool, timestamp: nat, saveToFile: bool,
                                   cloud: Result<seq<Blob>, string>)
    requires ResolveConfig(bucketFlag, bucketEnv, projectFlag, projectEnv).Success?
    ensures var c := ResolveConfig(bucketFlag, bucketEnv, projectFlag, projectEnv).value;
      var r := Transcription(path, Some(c.bucket), Some(c.project), fileExists, timestamp, saveToFile, cloud);
      r.Failure? ==> r.error.kind != ValueError
  {
  }

  // ---------------------------------------------------------------------
  // `process_file`.

  /** The message of the ValueError for a file that is neither video nor audio. */
  function UnsupportedMessage(suffix: string): string {
    "Unsupported file format: " + suffix + "\nSupported formats:\n"
    + "  Video: .mp4, .avi, .mov, .mkv, .flv, .wmv, .webm, etc.\n"
    + "  Audio: .mp3, .wav, .flac, .m4a, .aac, .ogg, etc."
  }

  /** The outcome of `process_file` and the files on disk afterwards. */
  datatype Run = Run(result: Result<Transcribed, PyError>, files: set<string>)

  /** The audio the cloud is given: the extracted track of a video, the input file otherwise. */
  function AudioOf(filePath: string, extraction: Result<string, string>): string {
    if IsVideoFile(filePath) && extraction.Success? then extraction.value else filePath
  }

  /**
   * `process_file`: the input must exist; a video is checked first and its
   * extraction failure becomes a RuntimeError; a file of neither kind is a
   * ValueError. After a transcription the extracted track is removed unless
   * kept (a removal error only warns); after a failed one it is removed if
   * it exists whatever `keep_audio` says, and the error is raised again.
   */
  function ProcessFile(filePath: string, bucket: Option<string>, project: Option<string>, keepAudio: bool,
                       extraction: Result<string, string>, timestamp: nat, cloud: Result<seq<Blob>, string>,
                       files: set<string>, failing: map<string, string>): Run
  {
    if filePath !in files then Run(Failure(PyError(FileNotFoundError, "File not found: " + filePath)), files)
    else if IsVideoFile(filePath) && extraction.Failure? then
      Run(Failure(PyError(RuntimeError, "Failed to extract audio from video: " + extraction.error)), files)
    else if !IsVideoFile(filePath) && !IsAudioFile(filePath) then
      Run(Failure(PyError(ValueError, UnsupportedMessage(Suffix(filePath)))), files)
    else
      var extracted := IsVideoFile(filePath);
      var audio := AudioOf(filePath, extraction);
      TranscribeAndClean(audio, extracted, bucket, project, keepAudio, timestamp, cloud,
        if extracted then files + {audio} else files, failing)
  }

  /** The try block of `process_file` and its handler, once `audio` is on disk. */
  function TranscribeAndClean(audio: string, extracted: bool, bucket: Option<string>, project: Option<string>, keepAudio: bool,
                              timestamp: nat, cloud: Result<seq<Blob>, string>, onDisk: set<string>,
                              failing: map<string, string>): (r: Run)
    ensures r.result == Transcription(audio, bucket, project, audio in onDisk, timestamp, true, cloud)
  {
    var r := Transcription(audio, bucket, project, audio in onDisk, timestamp, true, cloud);
    if r.Success? then
      var written := onDisk + {r.value.outputFile.value};
      Run(r, if extracted && !keepAudio then AfterUnlink(written, failing, audio) else written)
    else
      Run(r, if extracted then AfterUnlink(onDisk, failing, audio) else onDisk)
  }

  /** `process_file` run step by step against the file system. */
  method RunProcessFile(fs: FileSystem, filePath: string, bucket: Option<string>, project: Option<string>, keepAudio: bool,
                        extraction: Result<string, string>, timestamp: nat, cloud: Result<seq<Blob>, string>)
    returns (result: Result<Transcribed, PyError>)
    modifies fs
    ensures Run(result, fs.files) == ProcessFile(filePath, bucket, project, keepAudio, extraction, timestamp, cloud, old(fs.files), fs.failing)
  {
    if !fs.Exists(filePath) {
      return Failure(PyError(FileNotFoundError, "File not found: " + filePath));
    }
    var audio := filePath;
    var extracted := false;
    if IsVideoFile(filePath) {
      if extraction.Failure? {
        return Failure(PyError(RuntimeError, "Failed to extract audio from video: " + extraction.error));
      }
      audio := extraction.value;
      fs.Write(audio);
      extracted := true;
    } else if !IsAudioFile(filePath) {
      return Failure(PyError(ValueError, UnsupportedMessage(Suffix(filePath))));
    }
    assert ProcessFile(filePath, bucket, project, keepAudio, extraction, timestamp, cloud, old(fs.files), fs.failing)
      == TranscribeAndClean(audio, extracted, bucket, project, keepAudio, timestamp, cloud, fs.files, fs.failing);
    result := RunTranscribeAndClean(fs, audio, extracted, bucket, project, keepAudio, timestamp, cloud);
  }

  /** The try block of `process_file` and its handler, run against the file system. */
  method RunTranscribeAndClean(fs: FileSystem, audio: string, extracted: bool, bucket: Option<string>, project: Option<string>,
                               keepAudio: bool, timestamp: nat, cloud: Result<seq<Blob>, string>)
    returns (result: Result<Transcribed, PyError>)
    modifies fs
    ensures Run(result, fs.files) == TranscribeAndClean(audio, extracted, bucket, project, keepAudio, timestamp, cloud, old(fs.files), fs.failing)
  {
    var audioExists := fs.Exists(audio);
    result := TranscribeAudio(audio, bucket, project, audioExists, timestamp, true, cloud);
    if result.Success? {
      fs.Write(result.value.outputFile.value);
      if extracted && !keepAudio {
        var _ := fs.Unlink(audio);
      }
    } else if extracted && fs.Exists(audio) {
      var _ := fs.Unlink(audio);
    }
  }

  // ---------------------------------------------------------------------
  // What `process_file` promises about files.

  /**
   * The checks come in order: a missing input, then a failed extraction of
   * a video, then a file of neither kind, each before anything is
   * transcribed and without touching a file.
   */
  lemma ProcessFileOutcomes(filePath: string, bucket: Option<string>, project: Option<string>, keepAudio: bool,
                            extraction: Result<string, string>, timestamp: nat, cloud: Result<seq<Blob>, string>,
                            files: set<string>, failing: map<string, string>)
    ensures var r := ProcessFile(filePath, bucket, project, keepAudio, extraction, timestamp, cloud, files, failing);
      (filePath !in files ==> r == Run(Failure(PyError(FileNotFoundError, "File not found: " + filePath)), files))
    ensures var r := ProcessFile(filePath, bucket, project, keepAudio, extraction, timestamp, cloud, files, failing);
      filePath in files && IsVideoFile(filePath) && extraction.Failure? ==>
        r == Run(Failure(PyError(RuntimeError, "Failed to extract audio from video: " + extraction.error)), files)
    ensures var r := ProcessFile(filePath, bucket, project, keepAudio, extraction, timestamp, cloud, files, failing);
      filePath in files && !IsVideoFile(filePath) && !IsAudioFile(filePath) ==>
        r == Run(Failure(PyError(ValueError, UnsupportedMessage(Suffix(filePath)))), files)
  {
    var video, audio := IsVideoFile(filePath), IsAudioFile(filePath);
    var r := ProcessFile(filePath, bucket, project, keepAudio, extraction, timestamp, cloud, files, failing);
    if filePath in files && video && extraction.Failure? {
      assert r == Run(Failure(PyError(RuntimeError, "Failed to extract audio from video: " + extraction.error)), files);
    } else if filePath in files && !video && !audio {
      assert r == Run(Failure(PyError(ValueError, UnsupportedMessage(Suffix(filePath)))), files);
    }
  }

  /** `process_file` succeeds exactly when its own checks pass and the transcriber's do. */
  lemma ProcessFileSucceeds(filePath: string, bucket: Option<string>, project: Option<string>, keepAudio: bool,
                            extraction: Result<string, string>, timestamp: nat, cloud: Result<seq<Blob>, string>,
                            files: set<string>, failing: map<string, string>)
    ensures ProcessFile(filePath, bucket, project, keepAudio, extraction, timestamp, cloud, files, failing).result.Success?
      <==> (filePath in files && (IsVideoFile(filePath) || IsAudioFile(filePath))
        && (IsVideoFile(filePath) ==> extraction.Success?) && Truthy(bucket) && Truthy(project) && cloud.Success?)
  {
  }

  /** Nothing but the extracted track is ever removed; in particular the input file stays. */
  lemma OnlyExtractedAudioRemoved(filePath: string, bucket: Option<string>, project: Option<string>, keepAudio: bool,
                                  extraction: Result<string, string>, timestamp: nat, cloud: Result<seq<Blob>, string>,
                                  files: set<string>, failing: map<string, string>)
    ensures var r := ProcessFile(filePath, bucket, project, keepAudio, extraction, timestamp, cloud, files, failing);
      forall p :: p in files && !(IsVideoFile(filePath) && extraction == Success(p)) ==> p in r.files
  {
  }

  /** The input file is never deleted, unless the extractor wrote its track over it. */
  lemma InputNeverDeleted(filePath: string, bucket: Option<string>, project: Option<string>, keepAudio: bool,
                          extraction: Result<string, string>, timestamp: nat, cloud: Result<seq<Blob>, string>,
                          files: set<string>, failing: map<string, string>)
    requires extraction != Success(filePath)
    ensures filePath in ProcessFile(filePath, bucket, project, keepAudio, extraction, timestamp, cloud, files, failing).files
      <==> filePath in files
  {
    OnlyExtractedAudioRemoved(filePath, bucket, project, keepAudio, extraction, timestamp, cloud, files, failing);
  }

  /**
   * After a transcription of a video the extracted track is on disk exactly
   * when it is to be kept or its removal failed.
   */
  lemma ExtractedAudioAfterSuccess(filePath: string, bucket: Option<string>, project: Option<string>, keepAudio: bool,
                                   extraction: Result<string, string>, timestamp: nat, cloud: Result<seq<Blob>, string>,
                                   files: set<string>, failing: map<string, string>)
    requires IsVideoFile(filePath) && extraction.Success?
    requires ProcessFile(filePath, bucket, project, keepAudio, extraction, timestamp, cloud, files, failing).result.Success?
    ensures extraction.value in ProcessFile(filePath, bucket, project, keepAudio, extraction, timestamp, cloud, files, failing).files
      <==> keepAudio || extraction.value in failing
  {
    LocalTranscriptIsNewFile(extraction.value);
  }

  /**
   * After a failed transcription of a video the extracted track is gone
   * unless its removal failed, whatever `keep_audio` says.
   */
  lemma ExtractedAudioAfterFailure(filePath: string, bucket: Option<string>, project: Option<string>, keepAudio: bool,
                                   extraction: Result<string, string>, timestamp: nat, cloud: Result<seq<Blob>, string>,
                                   files: set<string>, failing: map<string, string>)
    requires filePath in files && IsVideoFile(filePath) && extraction.Success?
    requires ProcessFile(filePath, bucket, project, keepAudio, extraction, timestamp, cloud, files, failing).result.Failure?
    ensures extraction.value in ProcessFile(filePath, bucket, project, keepAudio, extraction, timestamp, cloud, files, failing).files
      <==> extraction.value in failing
    ensures ProcessFile(filePath, bucket, project, keepAudio, extraction, timestamp, cloud, files, failing).result
      == Transcription(extraction.value, bucket, project, true, timestamp, true, cloud)
  {
  }

  /** A successful run leaves the transcript beside the transcribed audio. */
  lemma TranscriptWritten(filePath: string, bucket: Option<string>, project: Option<string>, keepAudio: bool,
                          extraction: Result<string, string>, timestamp: nat, cloud: Result<seq<Blob>, string>,
                          files: set<string>, failing: map<string, string>)
    requires ProcessFile(filePath, bucket, project, keepAudio, extraction, timestamp, cloud, files, failing).result.Success?
    ensures var r := ProcessFile(filePath, bucket, project, keepAudio, extraction, timestamp, cloud, files, failing);
      r.result.value.outputFile == Some(LocalTranscriptPath(AudioOf(filePath, extraction)))
      && LocalTranscriptPath(AudioOf(filePath, extraction)) in r.files
  {
    LocalTranscriptIsNewFile(AudioOf(filePath, extraction));
  }
}
