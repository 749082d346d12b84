/**
 * `create_transcription_job`: reject an unsupported file type, save the
 * upload under a fresh id, and record a queued job. The id, the clock and the
 * outcome of saving are passed in; enqueueing the background task is the
 * caller's next step (see the processor).
 */
module TranscribeRouter {
  import opened Wrappers
  import opened PyStrings
  import opened MediaTypes
  import opened Disk
  import opened JobStore
  import opened JobsRouter

  datatype JobResponse = JobResponse(jobId: string, message: string, status: Status)

  /** Where the upload is saved: the id followed by the file name's suffix, as given. */
  function UploadPath(jobId: string, filename: string): string {
    "uploads/" + jobId + Suffix(filename)
  }

  /** The record a new job starts with. */
  function NewJob(jobId: string, filename: string, fileType: FileType, now: nat): (j: Job)
    ensures j.jobId == jobId && j.filename == filename && j.fileType == fileType && j.createdAt == now
    ensures j.status == Queued && j.progress == "File uploaded, queued for processing"
    ensures j.completedAt.None? && j.error.None? && j.resultFile.None? && j.transcription.None?
  {
    Job(jobId, Queued, "File uploaded, queued for processing", filename, fileType, now, None, None, None, None)
  }

  /**
   * The endpoint. `saveError` is the error opening or writing the upload
   * raises, if any.
   */
  method CreateTranscriptionJob(table: JobTable, fs: FileSystem, filename: string, jobId: string, now: nat,
                                saveError: Option<string>) returns (r: Result<JobResponse, HttpError>)
    requires table.Valid()
    modifies table, fs
    ensures table.Valid()
    ensures r.Success? <==> GetFileType(filename) != Unknown && saveError.None?
    ensures GetFileType(filename) == Unknown ==> r == Failure(HttpError(400, "Unsupported file format: " + Suffix(filename)))
    ensures GetFileType(filename) != Unknown && saveError.Some?
      ==> r == Failure(HttpError(500, "Failed to save file: " + saveError.value))
    ensures r.Failure? ==> table.jobs == old(table.jobs) && table.order == old(table.order) && fs.files == old(fs.files)
    ensures r.Success? ==> (r.value == JobResponse(jobId, "Transcription job created successfully", Queued)
      && table.jobs == old(table.jobs)[jobId := NewJob(jobId, filename, GetFileType(filename), now)]
      && table.order == (if jobId in old(table.jobs) then old(table.order) else old(table.order) + [jobId])
      && fs.files == old(fs.files) + {UploadPath(jobId, filename)})
  {
    var fileType := GetFileType(filename);
    if fileType == Unknown {
      return Failure(HttpError(400, "Unsupported file format: " + Suffix(filename)));
    }
    var uploadPath := UploadPath(jobId, filename);
    if saveError.Some? {
      return Failure(HttpError(500, "Failed to save file: " + saveError.value));
    }
    fs.Write(uploadPath);
    table.Put(NewJob(jobId, filename, fileType, now));
    return Success(JobResponse(jobId, "Transcription job created successfully", Queued));
  }

  /** The record a successful creation stores is what the status endpoint returns for its id. */
  lemma CreatedJobIsListed(jobs: map<string, Job>, jobId: string, filename: string, now: nat)
    requires GetFileType(filename) != Unknown
    ensures GetJobStatus(jobs[jobId := NewJob(jobId, filename, GetFileType(filename), now)], jobId)
      == Success(NewJob(jobId, filename, GetFileType(filename), now))
    ensures DownloadTranscription(jobs[jobId := NewJob(jobId, filename, GetFileType(filename), now)], jobId, {})
      == Failure(HttpError(400, "Transcription not completed yet"))
  {
  }

  /**
   * A saved upload keeps the suffix of the name it was sent under, and with it
   * its media type, for any id without a '/' or a '.' (a UUID has neither).
   */
  lemma UploadKeepsType(jobId: string, filename: string)
    requires jobId != "" && '/' !in jobId && '.' !in jobId
    requires GetFileType(filename) != Unknown
    ensures Suffix(UploadPath(jobId, filename)) == Suffix(filename)
    ensures GetFileType(UploadPath(jobId, filename)) == GetFileType(filename)
  {
    var ext := Suffix(filename);
    KnownTypeHasSuffix(filename);
    SuffixBelowDir("uploads", jobId, ext);
    assert UploadPath(jobId, filename) == "uploads" + "/" + (jobId + ext);
    SameSuffixSameType(UploadPath(jobId, filename), filename);
  }

  lemma SuffixBelowDir(dir: string, stem: string, ext: string)
    requires stem != "" && '/' !in stem
    requires |ext| >= 2 && ext[0] == '.' && '.' !in ext[1..] && '/' !in ext
    ensures Suffix(dir + "/" + (stem + ext)) == ext
  {
    var name := stem + ext;
    assert '/' !in name by {
      forall k | 0 <= k < |name| ensures name[k] != '/' {
        if k < |stem| { assert name[k] == stem[k]; } else { assert name[k] == ext[k - |stem|]; }
      }
    }
    assert name != "." by {
      assert |name| >= 3;
    }
    NameOfPath(dir, name);
    SuffixOfName(dir + "/" + name, stem, ext);
  }
}
