/**
 The queue, and what handlers do with it once their jobs were tried
 (pkg/queue/poller.go): jobs that failed are released and the others, and those
 that timed out, deleted.
 */
module JobQueues {
  import opened Errors
  import opened Faults
  import opened Sequences
  import opened Wrappers

  type JobID = string

  datatype WithID<Job> = WithID(id: JobID, job: Job)

  // A job that left the queue, and the error it left the queue despite.
  datatype Deletion<Job> = Deletion(job: WithID<Job>, err: Option<Error>)

  /** Jobs are deleted on success and, not to hold up the queue, on timeout. */
  predicate Deletes(err: Option<Error>) {
    err.None? || Is(err.value, DeadlineExceeded)
  }

  // What a handler asked of the queue, whether or not it could be done.
  datatype QueueCall = ToRelease(id: JobID) | ToDelete(id: JobID)

  class JobQueue<Job(==, !new)> {
    var queued: seq<Job>
    var deleted: seq<Deletion<Job>>
    var calls: seq<QueueCall>
    ghost var faults: Log

    constructor ()
      ensures queued == [] && deleted == [] && calls == [] && faults == []
    {
      queued, deleted, calls := [], [], [];
      faults := [];
    }

    method Queue(job: Job) returns (err: Option<Error>)
      modifies this`queued, this`faults
      ensures queued == old(queued) + [job] || (queued == old(queued) && err.Some?)
      ensures Logged(old(faults), faults, err)
    {
      var applied: bool := *;
      err, faults := MayFail(faults, OffStore);
      if err.None? || applied {
        queued := queued + [job];
      }
    }

    method Release(id: JobID) returns (err: Option<Error>)
      modifies this`calls, this`faults
      ensures calls == old(calls) + [ToRelease(id)]
      ensures Logged(old(faults), faults, err)
    {
      calls := calls + [ToRelease(id)];
      err, faults := MayFail(faults, OffStore);
    }

    /** Deletes a job; what error it is deleted despite is kept for the record. */
    method Delete(job: WithID<Job>, despite: Option<Error>) returns (err: Option<Error>)
      modifies this`deleted, this`calls, this`faults
      ensures calls == old(calls) + [ToDelete(job.id)]
      ensures deleted == old(deleted) + [Deletion(job, despite)] || (deleted == old(deleted) && err.Some?)
      ensures Logged(old(faults), faults, err)
    {
      calls := calls + [ToDelete(job.id)];
      var applied: bool := *;
      err, faults := MayFail(faults, OffStore);
      if err.None? || applied {
        deleted := deleted + [Deletion(job, despite)];
      }
    }
  }

  function ErrorOf(errs: map<JobID, Error>, id: JobID): Option<Error> {
    if id in errs then Some(errs[id]) else None
  }

  /** What becomes of a job on its outcome. */
  function Verdict(id: JobID, err: Option<Error>): (call: QueueCall)
    ensures call == if err.None? || Is(err.value, DeadlineExceeded) then ToDelete(id) else ToRelease(id)
  {
    if Deletes(err) then ToDelete(id) else ToRelease(id)
  }

  function Verdicts<Job>(jobs: seq<WithID<Job>>, errs: map<JobID, Error>): (calls: seq<QueueCall>)
    ensures |calls| == |jobs|
    ensures forall i :: 0 <= i < |jobs| ==>
      var id := jobs[i].id;
      calls[i] == if id !in errs || Is(errs[id], DeadlineExceeded) then ToDelete(id) else ToRelease(id)
  {
    seq(|jobs|, i requires 0 <= i < |jobs| => Verdict(jobs[i].id, ErrorOf(errs, jobs[i].id)))
  }

  /** Every deletion is of one of the jobs, on the outcome it had. */
  ghost predicate Settled<Job(!new)>(jobs: seq<WithID<Job>>, errs: map<JobID, Error>, gone: seq<Deletion<Job>>) {
    forall d :: d in gone ==> d.job in jobs && d.err == ErrorOf(errs, d.job.id) && Deletes(d.err)
  }

  /** Every job to be deleted was. */
  ghost predicate AllDeleted<Job(!new)>(jobs: seq<WithID<Job>>, errs: map<JobID, Error>, gone: seq<Deletion<Job>>) {
    forall job :: job in jobs && Deletes(ErrorOf(errs, job.id)) ==> Deletion(job, ErrorOf(errs, job.id)) in gone
  }

  /** The loop of the batch handler: releases the jobs that failed and deletes
      the others, all of them if the queue does not fail. */
  method Settle<Job(==, !new)>(queue: JobQueue<Job>, jobs: seq<WithID<Job>>, errs: map<JobID, Error>)
    returns (ghost gone: seq<Deletion<Job>>)
    modifies queue
    ensures queue.calls == old(queue.calls) + Verdicts(jobs, errs) && queue.queued == old(queue.queued)
    ensures queue.deleted == old(queue.deleted) + gone
    ensures Settled(jobs, errs, gone)
    ensures queue.faults == old(queue.faults) ==> AllDeleted(jobs, errs, gone)
  {
    gone := [];
    for i := 0 to |jobs|
      invariant queue.calls == old(queue.calls) + Verdicts(jobs, errs)[..i] && queue.queued == old(queue.queued)
      invariant queue.deleted == old(queue.deleted) + gone
      invariant Settled(jobs, errs, gone)
      invariant old(queue.faults) <= queue.faults
      invariant queue.faults == old(queue.faults) ==> AllDeleted(jobs[..i], errs, gone)
    {
      var jobErr := ErrorOf(errs, jobs[i].id);
      ghost var before := gone;
      if !Deletes(jobErr) {
        var _ := queue.Release(jobs[i].id);
      } else {
        ghost var deleted := queue.deleted;
        var _ := queue.Delete(jobs[i], jobErr);
        gone := if queue.deleted == deleted then gone else gone + [Deletion(jobs[i], jobErr)];
      }
    }
    TakeAll(jobs);
  }

  /** The handler of single jobs: the same, for one job. */
  method SettleOne<Job(==, !new)>(queue: JobQueue<Job>, job: WithID<Job>, jobErr: Option<Error>)
    returns (err: Option<Error>)
    modifies queue
    ensures queue.calls == old(queue.calls) + [Verdict(job.id, jobErr)] && queue.queued == old(queue.queued)
    ensures queue.deleted == old(queue.deleted)
      || (Deletes(jobErr) && queue.deleted == old(queue.deleted) + [Deletion(job, jobErr)])
    ensures queue.faults == old(queue.faults) && Deletes(jobErr) ==>
      err.None? && queue.deleted == old(queue.deleted) + [Deletion(job, jobErr)]
    ensures jobErr.Some? && !Deletes(jobErr) ==> err.Some?
  {
    if !Deletes(jobErr) {
      var _ := queue.Release(job.id);
      return Some(Wrap(jobErr.value));
    }
    err := queue.Delete(job, jobErr);
  }
}
