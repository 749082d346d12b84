/**
 * The job endpoints: status lookup, the listing (newest first, limited),
 * the download gate and deletion. The HTTP framework is left out: an
 * endpoint either returns its value or raises an HTTP error with a status
 * code and a detail message.
 */
module JobsRouter {
  import opened Wrappers
  import opened PyStrings
  import opened Disk
  import opened JobStore

  datatype HttpError = HttpError(code: nat, detail: string)

  /** `get_job_status`: the stored record, or 404. */
  function GetJobStatus(jobs: map<string, Job>, id: string): (r: Result<Job, HttpError>)
    ensures r.Success? <==> id in jobs
    ensures r.Success? ==> r.value == jobs[id]
    ensures r.Failure? ==> r.error == HttpError(404, "Job not found")
  {
    if id !in jobs then Failure(HttpError(404, "Job not found")) else Success(jobs[id])
  }

  // ---------------------------------------------------------------------
  // `list_jobs`: sort by creation time, newest first, stably; then `[:limit]`.

  /** Newest first; equal times in any order. */
  predicate SortedDesc(js: seq<Job>) {
    forall i, j :: 0 <= i < j < |js| ==> js[i].createdAt >= js[j].createdAt
  }

  /** Inserts `x` before the first record that is not newer than it. */
  function InsertDesc(x: Job, js: seq<Job>): (r: seq<Job>)
    ensures multiset(r) == multiset(js) + multiset{x}
    ensures r != [] && (r[0] == x || (js != [] && r[0] == js[0]))
  {
    if js == [] || js[0].createdAt <= x.createdAt then [x] + js
    else
      assert js == [js[0]] + js[1..];
      [js[0]] + InsertDesc(x, js[1..])
  }

  /** The order `sort(key=created_at, reverse=True)` leaves the records in. */
  function SortDesc(js: seq<Job>): (r: seq<Job>)
    ensures multiset(r) == multiset(js)
  {
    if js == [] then []
    else
      assert js == [js[0]] + js[1..];
      InsertDesc(js[0], SortDesc(js[1..]))
  }

  /** The records created at time `t`, in order. */
  function CreatedAt(js: seq<Job>, t: nat): seq<Job> {
    if js == [] then [] else (if js[0].createdAt == t then [js[0]] else []) + CreatedAt(js[1..], t)
  }

  /** Inserting a record no newer than a bound keeps every record within that bound. */
  lemma {:induction false} InsertBounded(x: Job, js: seq<Job>, b: nat)
    requires x.createdAt <= b
    requires forall k :: 0 <= k < |js| ==> js[k].createdAt <= b
    ensures forall k :: 0 <= k < |InsertDesc(x, js)| ==> InsertDesc(x, js)[k].createdAt <= b
  {
    if js != [] && js[0].createdAt > x.createdAt {
      InsertBounded(x, js[1..], b);
    }
  }

  lemma {:induction false} InsertKeepsSorted(x: Job, js: seq<Job>)
    requires SortedDesc(js)
    ensures SortedDesc(InsertDesc(x, js))
  {
    if js != [] && js[0].createdAt > x.createdAt {
      var rest := js[1..];
      assert SortedDesc(rest) by {
        forall i, j | 0 <= i < j < |rest| ensures rest[i].createdAt >= rest[j].createdAt {
          assert rest[i] == js[i + 1] && rest[j] == js[j + 1];
        }
      }
      InsertKeepsSorted(x, rest);
      var tail := InsertDesc(x, rest);
      assert forall k :: 0 <= k < |rest| ==> rest[k].createdAt <= js[0].createdAt by {
        forall k | 0 <= k < |rest| ensures rest[k].createdAt <= js[0].createdAt {
          assert rest[k] == js[k + 1];
        }
      }
      InsertBounded(x, rest, js[0].createdAt);
      var r := [js[0]] + tail;
      assert InsertDesc(x, js) == r;
      forall i, j | 0 <= i < j < |r| ensures r[i].createdAt >= r[j].createdAt {
        assert r[j] == tail[j - 1];
        if i > 0 {
          assert r[i] == tail[i - 1];
        }
      }
    }
  }

  /** The listing is newest first. */
  lemma {:induction false} SortIsSorted(js: seq<Job>)
    ensures SortedDesc(SortDesc(js))
  {
    if js != [] {
      SortIsSorted(js[1..]);
      InsertKeepsSorted(js[0], SortDesc(js[1..]));
    }
  }

  lemma {:induction false} InsertCreatedAt(x: Job, js: seq<Job>, t: nat)
    ensures CreatedAt(InsertDesc(x, js), t) == (if x.createdAt == t then [x] else []) + CreatedAt(js, t)
  {
    if js == [] || js[0].createdAt <= x.createdAt {
      var r := [x] + js;
      assert InsertDesc(x, js) == r;
      assert r[0] == x && r[1..] == js;
    } else {
      var tail := InsertDesc(x, js[1..]);
      var r := [js[0]] + tail;
      assert InsertDesc(x, js) == r;
      InsertCreatedAt(x, js[1..], t);
      assert r[0] == js[0] && r[1..] == tail;
      assert CreatedAt(r, t) == (if js[0].createdAt == t then [js[0]] else []) + CreatedAt(tail, t);
    }
  }

  /** The sort is stable: records created at the same time keep their insertion order. */
  lemma {:induction false} SortIsStable(js: seq<Job>, t: nat)
    ensures CreatedAt(SortDesc(js), t) == CreatedAt(js, t)
  {
    if js != [] {
      SortIsStable(js[1..], t);
      InsertCreatedAt(js[0], SortDesc(js[1..]), t);
    }
  }

  /** Python's `xs[:limit]`, negative limits included. */
  function SliceTo(js: seq<Job>, limit: int): (r: seq<Job>)
    ensures r <= js
    ensures limit >= 0 ==> |r| == if limit < |js| then limit else |js|
    ensures limit < 0 ==> |r| == if |js| + limit > 0 then |js| + limit else 0
  {
    if limit >= 0 then js[..if limit < |js| then limit else |js|]
    else js[..if |js| + limit > 0 then |js| + limit else 0]
  }

  datatype JobList = JobList(jobs: seq<Job>, total: nat)

  /** `list_jobs` over `list(jobs_db.values())`. */
  function ListJobs(values: seq<Job>, limit: int): (r: JobList)
    ensures r.total == |values|
    ensures SortedDesc(r.jobs)
    ensures multiset(r.jobs) <= multiset(values)
    ensures limit >= 0 ==> |r.jobs| == if limit < |values| then limit else |values|
    ensures limit < 0 ==> |r.jobs| == if |values| + limit > 0 then |values| + limit else 0
    ensures forall x, y :: x in r.jobs && y in multiset(values) - multiset(r.jobs) ==> x.createdAt >= y.createdAt
    ensures forall t: nat :: CreatedAt(r.jobs, t) <= CreatedAt(values, t)
  {
    PageSorted(values, limit);
    PageFromValues(values, limit);
    PageIsNewest(values, limit);
    PageKeepsOrder(values, limit);
    JobList(SliceTo(SortDesc(values), limit), |values|)
  }

  /** No record left off the page is newer than a record on it. */
  lemma PageIsNewest(values: seq<Job>, limit: int)
    ensures var page := SliceTo(SortDesc(values), limit);
      forall x, y :: x in page && y in multiset(values) - multiset(page) ==> x.createdAt >= y.createdAt
  {
    var sorted := SortDesc(values);
    var page := SliceTo(sorted, limit);
    var rest := sorted[|page|..];
    assert sorted == page + rest;
    SortIsSorted(values);
    PrefixIsNewest(page, rest);
    assert multiset(values) - multiset(page) == multiset(rest) by {
      assert multiset(sorted) == multiset(page) + multiset(rest);
    }
  }

  /** In a newest-first listing, every record of a prefix is at least as new as every record after it. */
  lemma PrefixIsNewest(page: seq<Job>, rest: seq<Job>)
    requires SortedDesc(page + rest)
    ensures forall x, y :: x in page && y in multiset(rest) ==> x.createdAt >= y.createdAt
  {
    var all := page + rest;
    forall x, y | x in page && y in multiset(rest) ensures x.createdAt >= y.createdAt {
      var i :| 0 <= i < |page| && page[i] == x;
      var m :| 0 <= m < |rest| && rest[m] == y;
      assert all[i] == x && all[|page| + m] == y;
    }
  }

  lemma PageSorted(values: seq<Job>, limit: int)
    ensures SortedDesc(SliceTo(SortDesc(values), limit))
  {
    SortIsSorted(values);
  }

  lemma PageFromValues(values: seq<Job>, limit: int)
    ensures multiset(SliceTo(SortDesc(values), limit)) <= multiset(values)
  {
    var sorted := SortDesc(values);
    var page := SliceTo(sorted, limit);
    var rest := sorted[|page|..];
    assert sorted == page + rest;
    assert multiset(sorted) == multiset(page) + multiset(rest);
  }

  lemma PageKeepsOrder(values: seq<Job>, limit: int)
    ensures forall t: nat :: CreatedAt(SliceTo(SortDesc(values), limit), t) <= CreatedAt(values, t)
  {
    var sorted := SortDesc(values);
    var page := SliceTo(sorted, limit);
    assert sorted == page + sorted[|page|..];
    forall t: nat ensures CreatedAt(page, t) <= CreatedAt(values, t) {
      SortIsStable(values, t);
      CreatedAtPrefix(page, sorted[|page|..], t);
    }
  }

  lemma {:induction false} CreatedAtPrefix(a: seq<Job>, b: seq<Job>, t: nat)
    ensures CreatedAt(a, t) <= CreatedAt(a + b, t)
  {
    if a != [] {
      CreatedAtPrefix(a[1..], b, t);
      assert (a + b)[1..] == a[1..] + b;
    }
  }

  /** The newest record is listed first whenever the limit is positive. */
  lemma NewestFirst(values: seq<Job>, limit: int, k: nat)
    requires limit > 0 && k < |values|
    ensures ListJobs(values, limit).jobs != []
    ensures ListJobs(values, limit).jobs[0].createdAt >= values[k].createdAt
  {
    var sorted := SortDesc(values);
    SortIsSorted(values);
    assert values[k] in multiset(sorted);
    var m :| 0 <= m < |sorted| && sorted[m] == values[k];
  }

  // ---------------------------------------------------------------------
  // `download_transcription`.

  datatype Download = Download(path: string, filename: string, mediaType: string)

  /** The checks in order: known id, completed, a result file recorded, the file on disk. */
  function DownloadTranscription(jobs: map<string, Job>, id: string, files: set<string>): (r: Result<Download, HttpError>)
    ensures r == Failure(HttpError(404, "Job not found")) <==> id !in jobs
    ensures id in jobs && jobs[id].status != Completed ==> r == Failure(HttpError(400, "Transcription not completed yet"))
    ensures id in jobs && jobs[id].status == Completed && !Truthy(jobs[id].resultFile)
      ==> r == Failure(HttpError(404, "Result file not found"))
    ensures id in jobs && jobs[id].status == Completed && Truthy(jobs[id].resultFile) && jobs[id].resultFile.value !in files
      ==> r == Failure(HttpError(404, "Result file not found on disk"))
    ensures r.Success? <==> (id in jobs && jobs[id].status == Completed && Truthy(jobs[id].resultFile)
      && jobs[id].resultFile.value in files)
    ensures r.Success? ==> (r.value.path == jobs[id].resultFile.value
      && r.value.filename == jobs[id].filename + "_transcription.txt" && r.value.mediaType == "text/plain")
  {
    if id !in jobs then Failure(HttpError(404, "Job not found"))
    else
      var job := jobs[id];
      if job.status != Completed then Failure(HttpError(400, "Transcription not completed yet"))
      else if !Truthy(job.resultFile) then Failure(HttpError(404, "Result file not found"))
      else if job.resultFile.value !in files then Failure(HttpError(404, "Result file not found on disk"))
      else Success(Download(job.resultFile.value, job.filename + "_transcription.txt", "text/plain"))
  }

  // ---------------------------------------------------------------------
  // `delete_job`.

  /** The files after deleting a job's result file, if it has one. */
  function AfterResultUnlink(files: set<string>, failing: map<string, string>, job: Job): set<string> {
    if Truthy(job.resultFile) then AfterUnlink(files, failing, job.resultFile.value) else files
  }

  /**
   * `delete_job` of the routers: 404 for an unknown id; otherwise the result
   * file is removed if it exists (a removal error is swallowed) and exactly
   * that record leaves the table.
   */
  method DeleteJob(table: JobTable, fs: FileSystem, id: string) returns (r: Result<string, HttpError>)
    requires table.Valid()
    modifies table, fs
    ensures table.Valid()
    ensures r.Success? <==> id in old(table.jobs)
    ensures r.Success? ==> r.value == "Job deleted successfully"
    ensures r.Failure? ==> r.error == HttpError(404, "Job not found")
    ensures id in old(table.jobs) ==> (table.jobs == old(table.jobs) - {id}
      && table.order == Without(old(table.order), id)
      && fs.files == AfterResultUnlink(old(fs.files), fs.failing, old(table.jobs)[id]))
    ensures id !in old(table.jobs) ==> (table.jobs == old(table.jobs) && table.order == old(table.order)
      && fs.files == old(fs.files))
  {
    if id !in table.jobs {
      return Failure(HttpError(404, "Job not found"));
    }
    var job := table.jobs[id];
    if Truthy(job.resultFile) {
      var path := job.resultFile.value;
      if fs.Exists(path) {
        var _ := fs.Unlink(path);
      }
    }
    table.Delete(id);
    return Success("Job deleted successfully");
  }

  /**
   * `delete_job` of the single-file server: the result file's removal is not
   * guarded, so a removal error escapes, the framework answers with a bare
   * server error, and the record is not deleted.
   */
  method DeleteJobUnguarded(table: JobTable, fs: FileSystem, id: string) returns (r: Result<string, HttpError>)
    requires table.Valid()
    modifies table, fs
    ensures table.Valid()
    ensures id !in old(table.jobs) ==> (r == Failure(HttpError(404, "Job not found"))
      && table.jobs == old(table.jobs) && table.order == old(table.order) && fs.files == old(fs.files))
    ensures id in old(table.jobs) ==> fs.files == AfterResultUnlink(old(fs.files), fs.failing, old(table.jobs)[id])
    ensures id in old(table.jobs) && r.Failure? ==> (r.error == HttpError(500, "Internal Server Error")
      && table.jobs == old(table.jobs) && table.order == old(table.order))
    ensures id in old(table.jobs) && r.Success? ==> (r.value == "Job deleted successfully"
      && table.jobs == old(table.jobs) - {id} && table.order == Without(old(table.order), id))
    ensures id in old(table.jobs) ==> (r.Failure? <==> (Truthy(old(table.jobs)[id].resultFile)
      && old(table.jobs)[id].resultFile.value in old(fs.files) && old(table.jobs)[id].resultFile.value in fs.failing))
  {
    if id !in table.jobs {
      return Failure(HttpError(404, "Job not found"));
    }
    var job := table.jobs[id];
    if Truthy(job.resultFile) {
      var path := job.resultFile.value;
      if fs.Exists(path) {
        var err := fs.Unlink(path);
        if err.Some? {
          return Failure(HttpError(500, "Internal Server Error"));
        }
      }
    }
    table.Delete(id);
    return Success("Job deleted successfully");
  }
}
