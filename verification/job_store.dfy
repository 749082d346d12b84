/**
 * The in-memory job table: a dictionary from job id to job record, kept in
 * insertion order, and the record merge `update_job_status` performs.
 * Timestamps are abstract ordered values passed in by the caller.
 */
module JobStore {
  import opened Wrappers
  import opened PyStrings
  import opened MediaTypes

  datatype Status = Queued | Processing | Completed | Failed

  predicate Terminal(s: Status) {
    s == Completed || s == Failed
  }

  /** A job record; the nullable fields are options. */
  datatype Job = Job(
    jobId: string,
    status: Status,
    progress: string,
    filename: string,
    fileType: FileType,
    createdAt: nat,
    completedAt: Option<nat>,
    error: Option<string>,
    resultFile: Option<string>,
    transcription: Option<string>)

  /** The arguments of one `update_job_status` call after the job id. */
  datatype Update = Update(
    status: Status,
    progress: string,
    error: Option<string>,
    transcription: Option<string>,
    resultFile: Option<string>)

  /** A field the merge overwrites only with a truthy value. */
  function KeepUnlessTruthy(current: Option<string>, given: Option<string>): (r: Option<string>)
    ensures Truthy(given) ==> r == given
    ensures !Truthy(given) ==> r == current
  {
    if Truthy(given) then given else current
  }

  /**
   * The merge of one update into a record: status and progress always,
   * error, transcription and result file only when truthy, and the
   * completion time on a terminal status. There is no transition check.
   */
  function Merge(job: Job, u: Update, now: nat): (j: Job)
    ensures j.jobId == job.jobId && j.filename == job.filename
    ensures j.fileType == job.fileType && j.createdAt == job.createdAt
    ensures j.status == u.status && j.progress == u.progress
    ensures j.error == KeepUnlessTruthy(job.error, u.error)
    ensures j.transcription == KeepUnlessTruthy(job.transcription, u.transcription)
    ensures j.resultFile == KeepUnlessTruthy(job.resultFile, u.resultFile)
    ensures Terminal(u.status) ==> j.completedAt == Some(now)
    ensures !Terminal(u.status) ==> j.completedAt == job.completedAt
  {
    job.(status := u.status,
         progress := u.progress,
         error := KeepUnlessTruthy(job.error, u.error),
         transcription := KeepUnlessTruthy(job.transcription, u.transcription),
         resultFile := KeepUnlessTruthy(job.resultFile, u.resultFile),
         completedAt := if Terminal(u.status) then Some(now) else job.completedAt)
  }

  /** `update_job_status` on the table: an unknown id changes nothing. */
  function Apply(jobs: map<string, Job>, id: string, u: Update, now: nat): (after: map<string, Job>)
    ensures after.Keys == jobs.Keys
    ensures forall k :: k in jobs && k != id ==> after[k] == jobs[k]
    ensures id in jobs ==> after[id] == Merge(jobs[id], u, now)
  {
    if id in jobs then jobs[id := Merge(jobs[id], u, now)] else jobs
  }

  /** A sequence of updates to one job, applied in order. */
  function Replay(jobs: map<string, Job>, id: string, us: seq<Update>, now: nat): (after: map<string, Job>)
    ensures after.Keys == jobs.Keys
    ensures forall k :: k in jobs && k != id ==> after[k] == jobs[k]
  {
    if us == [] then jobs else Apply(Replay(jobs, id, us[..|us| - 1], now), id, us[|us| - 1], now)
  }

  lemma ReplaySnoc(jobs: map<string, Job>, id: string, us: seq<Update>, u: Update, now: nat)
    ensures Replay(jobs, id, us + [u], now) == Apply(Replay(jobs, id, us, now), id, u, now)
  {
    assert (us + [u])[..|us|] == us;
  }

  // ---------------------------------------------------------------------
  // What the merge promises.

  /** Applying the same update twice with the same time equals applying it once. */
  lemma MergeIdempotent(job: Job, u: Update, now: nat)
    ensures Merge(Merge(job, u, now), u, now) == Merge(job, u, now)
  {
  }

  lemma ApplyIdempotent(jobs: map<string, Job>, id: string, u: Update, now: nat)
    ensures Apply(Apply(jobs, id, u, now), id, u, now) == Apply(jobs, id, u, now)
  {
    if id in jobs {
      MergeIdempotent(jobs[id], u, now);
    }
  }

  /** An update for an id not in the table leaves the table as it was. */
  lemma ApplyUnknownId(jobs: map<string, Job>, id: string, us: seq<Update>, now: nat)
    requires id !in jobs
    ensures Replay(jobs, id, us, now) == jobs
  {
  }

  /** Any status is accepted, even on a finished job: a finished job can be made `processing` again. */
  lemma NoTransitionCheck(job: Job, u: Update, now: nat)
    requires Terminal(job.status) && !Terminal(u.status)
    ensures Merge(job, u, now).status == u.status
    ensures Merge(job, u, now).completedAt == job.completedAt
  {
  }

  /** A failure with an empty message leaves `error` as it was, `None` on a fresh record. */
  lemma EmptyErrorKept(job: Job, msg: string, now: nat)
    requires msg == ""
    ensures Merge(job, Update(Failed, "Error: " + msg, Some(msg), None, None), now).error == job.error
  {
  }

  /** An update without optional values changes nothing but status, progress and maybe the completion time. */
  lemma PlainUpdate(job: Job, s: Status, progress: string, now: nat)
    ensures Merge(job, Update(s, progress, None, None, None), now)
      == job.(status := s, progress := progress, completedAt := if Terminal(s) then Some(now) else job.completedAt)
  {
  }

  /** After a sequence of updates ending in a terminal one, the job is finished at `now`. */
  lemma ReplayEndsTerminal(jobs: map<string, Job>, id: string, us: seq<Update>, now: nat)
    requires id in jobs && us != [] && Terminal(us[|us| - 1].status)
    ensures Replay(jobs, id, us, now)[id].status == us[|us| - 1].status
    ensures Replay(jobs, id, us, now)[id].completedAt == Some(now)
  {
  }

  // ---------------------------------------------------------------------
  // The table.

  predicate Distinct(ids: seq<string>) {
    forall i, j :: 0 <= i < |ids| && 0 <= j < |ids| && i != j ==> ids[i] != ids[j]
  }

  /**
   * `jobs_db`: the records by id, and the ids in insertion order (the order
   * in which the dictionary yields its values).
   */
  class JobTable {
    var jobs: map<string, Job>
    var order: seq<string>

    ghost predicate Valid()
      reads this
    {
      (forall id :: id in jobs <==> id in order) && Distinct(order)
      && (forall id :: id in jobs ==> jobs[id].jobId == id)
    }

    constructor ()
      ensures Valid() && jobs == map[] && order == []
    {
      jobs := map[];
      order := [];
    }

    /** The records in insertion order: `list(jobs_db.values())`. */
    function Values(): (vs: seq<Job>)
      reads this
      requires Valid()
      ensures |vs| == |order| == |jobs|
      ensures forall i :: 0 <= i < |order| ==> vs[i] == jobs[order[i]]
    {
      DistinctCard(order, jobs.Keys);
      var ids, m := order, jobs;
      assert forall i :: 0 <= i < |ids| ==> ids[i] in m;
      seq(|ids|, i requires 0 <= i < |ids| => m[ids[i]])
    }

    /** `update_job_status`. */
    method UpdateJobStatus(id: string, u: Update, now: nat)
      requires Valid()
      modifies this
      ensures Valid()
      ensures jobs == Apply(old(jobs), id, u, now) && order == old(order)
    {
      if id in jobs {
        jobs := jobs[id := Merge(jobs[id], u, now)];
      }
    }

    /** `jobs_db[job_id] = record`: a new id goes to the end of the order, a known one keeps its place. */
    method Put(job: Job)
      requires Valid()
      modifies this
      ensures Valid()
      ensures jobs == old(jobs)[job.jobId := job]
      ensures order == if job.jobId in old(jobs) then old(order) else old(order) + [job.jobId]
    {
      if job.jobId !in jobs {
        order := order + [job.jobId];
      }
      jobs := jobs[job.jobId := job];
    }

    /** `del jobs_db[job_id]`. */
    method Delete(id: string)
      requires Valid() && id in jobs
      modifies this
      ensures Valid()
      ensures jobs == old(jobs) - {id}
      ensures order == Without(old(order), id)
    {
      WithoutDistinct(order, id);
      jobs := jobs - {id};
      order := Without(order, id);
    }
  }

  /** The ids other than `id`, in order. */
  function Without(ids: seq<string>, id: string): (r: seq<string>)
    ensures forall k :: k in r <==> k in ids && k != id
  {
    if ids == [] then []
    else Without(ids[..|ids| - 1], id) + (if ids[|ids| - 1] == id then [] else [ids[|ids| - 1]])
  }

  lemma {:induction false} WithoutDistinct(ids: seq<string>, id: string)
    requires Distinct(ids)
    ensures Distinct(Without(ids, id))
  {
    if ids != [] {
      var init, last := ids[..|ids| - 1], ids[|ids| - 1];
      assert Distinct(init) by {
        forall i, j | 0 <= i < |init| && 0 <= j < |init| && i != j ensures init[i] != init[j] {
          assert init[i] == ids[i] && init[j] == ids[j];
        }
      }
      WithoutDistinct(init, id);
      assert last !in init by {
        forall i | 0 <= i < |init| ensures init[i] != last {
          assert ids[i] == init[i] && ids[|ids| - 1] == last;
        }
      }
    }
  }

  lemma {:induction false} DistinctCard(ids: seq<string>, keys: set<string>)
    requires Distinct(ids) && forall k :: k in keys <==> k in ids
    ensures |keys| == |ids|
  {
    if ids != [] {
      var init, last := ids[..|ids| - 1], ids[|ids| - 1];
      assert Distinct(init) by {
        forall i, j | 0 <= i < |init| && 0 <= j < |init| && i != j ensures init[i] != init[j] {
          assert init[i] == ids[i] && init[j] == ids[j];
        }
      }
      assert last !in init by {
        forall i | 0 <= i < |init| ensures init[i] != last {
          assert ids[i] == init[i] && ids[|ids| - 1] == last;
        }
      }
      DistinctCard(init, keys - {last});
    }
  }
}
