// The registry of background indexing jobs: at most one running job for each repository,
// whose recent success is reused.  Times are milliseconds, read by the caller.
module IndexJobs {
  import opened Collections

  datatype Phase = Running | Completed | Failed

  datatype JobStatus = JobStatus(
    repositoryId: string, connectionId: string, ref: string, commitSha: string,
    phase: Phase, errorCode: string, error: string,
    fileCount: int, chunkCount: int, embeddingCount: int,
    startedAt: int, finishedAt: Option<int>, durationMs: int)

  datatype IndexResult = IndexResult(commitSha: string, fileCount: int, chunkCount: int, embeddingCount: int)

  datatype Cause = Cause(code: string, detail: string)

  const RESULT_TTL := 60_000

  const ERROR_LIMIT := 300

  // A running job is reused, and so is a recent success unless the caller forces a new job.
  predicate Reused(status: JobStatus, force: bool, now: int) {
    status.phase == Running ||
    (!force && status.phase == Completed && status.finishedAt.Some? && now - status.finishedAt.value < RESULT_TTL)
  }

  function Started(repositoryId: string, connectionId: string, ref: string, now: int): JobStatus {
    JobStatus(repositoryId, connectionId, ref, "", Running, "", "", 0, 0, 0, now, None, 0)
  }

  function TruncateDetail(value: string, limit: nat): string {
    if |value| <= limit then value else value[..limit] + "\U{2026}"
  }

  function Finished(status: JobStatus, result: IndexResult, cause: Option<Cause>, now: int): (r: JobStatus)
    ensures r.phase != Running && r.repositoryId == status.repositoryId
  {
    var timed := status.(finishedAt := Some(now), durationMs := now - status.startedAt);
    if cause.Some? then
      timed.(phase := Failed, errorCode := cause.value.code, error := TruncateDetail(cause.value.detail, ERROR_LIMIT))
    else
      timed.(phase := Completed, commitSha := if result.commitSha != "" then result.commitSha else status.commitSha,
             fileCount := result.fileCount, chunkCount := result.chunkCount, embeddingCount := result.embeddingCount)
  }

  // How a finished job differs from the running one it was.
  ghost predicate EndsAs(was: JobStatus, now: JobStatus, result: IndexResult, cause: Option<Cause>, time: int) {
    now.repositoryId == was.repositoryId && now.connectionId == was.connectionId && now.ref == was.ref &&
    now.startedAt == was.startedAt && now.finishedAt == Some(time) && now.durationMs == time - was.startedAt &&
    match cause
    case None =>
      now.phase == Completed && (result.commitSha != "" ==> now.commitSha == result.commitSha) &&
      (result.commitSha == "" ==> now.commitSha == was.commitSha) &&
      now.fileCount == result.fileCount && now.chunkCount == result.chunkCount &&
      now.embeddingCount == result.embeddingCount && now.errorCode == was.errorCode && now.error == was.error
    case Some(c) =>
      now.phase == Failed && now.errorCode == c.code &&
      (|c.detail| <= 300 ==> now.error == c.detail) &&
      (|c.detail| > 300 ==> |now.error| == 301 && now.error[..300] == c.detail[..300] && now.error[300] == '\U{2026}') &&
      now.commitSha == was.commitSha && now.fileCount == was.fileCount && now.chunkCount == was.chunkCount &&
      now.embeddingCount == was.embeddingCount
  }

  // What begin does with the job it finds: a running one is joined, a failed one is replaced, and
  // a success is reused for a minute unless a new job is forced.
  ghost predicate Joins(found: Option<JobStatus>, force: bool, now: int) {
    match found
    case None => false
    case Some(job) =>
      match job.phase
      case Running => true
      case Failed => false
      case Completed => !force && job.finishedAt.Some? && now < job.finishedAt.value + 60_000
  }

  lemma FinishedEnds(status: JobStatus, result: IndexResult, cause: Option<Cause>, now: int)
    ensures EndsAs(status, Finished(status, result, cause, now), result, cause, now)
  {
  }

  class IndexJob {
    var status: JobStatus
    // close(done) was called: everybody who waits is released.
    var closed: bool

    constructor (status: JobStatus)
      ensures this.status == status && !closed
    {
      this.status, closed := status, false;
    }
  }

  class IndexJobRegistry {
    var jobs: map<string, IndexJob>

    constructor ()
      ensures jobs == map[] && Valid()
    {
      jobs := map[];
    }

    // No two repositories share a job, each job knows its repository, and nobody is released
    // from a job that still runs.
    ghost predicate Valid()
      reads this, jobs.Values
    {
      (forall a, b :: a in jobs && b in jobs && a != b ==> jobs[a] != jobs[b]) &&
      (forall r :: r in jobs ==> jobs[r].status.repositoryId == r) &&
      (forall r :: r in jobs && jobs[r].status.phase == Running ==> !jobs[r].closed)
    }

    ghost function View(): map<string, JobStatus>
      reads this, jobs.Values
    {
      map r | r in jobs :: jobs[r].status
    }

    method Begin(repositoryId: string, connectionId: string, ref: string, force: bool, now: int)
      returns (status: JobStatus, owned: bool)
      requires Valid()
      modifies this
      ensures Valid()
      ensures owned <==>
        !Joins(if repositoryId in old(View()) then Some(old(View())[repositoryId]) else None, force, now)
      ensures owned ==>
        status == JobStatus(repositoryId, connectionId, ref, "", Running, "", "", 0, 0, 0, now, None, 0)
      ensures owned ==> repositoryId in jobs && fresh(jobs[repositoryId])
      ensures owned ==> View() == old(View())[repositoryId := status]
      ensures !owned ==> jobs == old(jobs) && View() == old(View())
      ensures !owned ==> repositoryId in View() && status == View()[repositoryId]
    {
      if repositoryId in jobs {
        var existing := jobs[repositoryId];
        if existing.status.phase == Running {
          return existing.status, false;
        }
        if !force && existing.status.phase == Completed && existing.status.finishedAt.Some? {
          if now - existing.status.finishedAt.value < RESULT_TTL {
            return existing.status, false;
          }
        }
      }
      status := Started(repositoryId, connectionId, ref, now);
      ghost var before := View();
      var job := new IndexJob(status);
      jobs := jobs[repositoryId := job];
      assert View() == before[repositoryId := status];
      return status, true;
    }

    // Records the outcome and releases the waiters; a job that does not run is left alone.
    method Finish(repositoryId: string, result: IndexResult, cause: Option<Cause>, now: int)
      returns (status: Option<JobStatus>)
      requires Valid()
      modifies if repositoryId in jobs then {jobs[repositoryId]} else {}
      ensures Valid()
      ensures status.Some? <==> repositoryId in old(View()) && old(View())[repositoryId].phase == Running
      ensures status.None? ==> View() == old(View())
      ensures status.Some? ==>
        EndsAs(old(View())[repositoryId], status.value, result, cause, now) &&
        View() == old(View())[repositoryId := status.value] && repositoryId in jobs && jobs[repositoryId].closed
    {
      if repositoryId !in jobs || jobs[repositoryId].status.phase != Running {
        return None;
      }
      hide Finished, EndsAs;
      var job := jobs[repositoryId];
      FinishedEnds(job.status, result, cause, now);
      job.status := Finished(job.status, result, cause, now);
      job.closed := true;
      return Some(job.status);
    }

    method Status(repositoryId: string) returns (status: Option<JobStatus>)
      ensures status == if repositoryId in View() then Some(View()[repositoryId]) else None
    {
      if repositoryId !in jobs {
        return None;
      }
      return Some(jobs[repositoryId].status);
    }

    method RunningCount() returns (running: nat)
      ensures running == |set r | r in View() && View()[r].phase == Running|
    {
      running := 0;
      var left := jobs.Keys;
      ghost var counted: set<string> := {};
      while left != {}
        invariant left <= jobs.Keys && left !! counted
        invariant counted == set r | r in jobs && r !in left && jobs[r].status.phase == Running
        invariant running == |counted|
        decreases |left|
      {
        var r :| r in left;
        left := left - {r};
        if jobs[r].status.phase == Running {
          running := running + 1;
          counted := counted + {r};
        }
      }
      assert counted == set r | r in View() && View()[r].phase == Running;
    }
  }
}
