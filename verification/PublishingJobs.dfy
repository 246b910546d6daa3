/**
 Delivering queued publishing jobs (pkg/queue/queue.go): the jobs of a batch are
 published one by one. What happens to a job that published but was not
 deleted, when it comes again, is proved exactly.
 */
module PublishingJobs {
  import opened Errors
  import opened Faults
  import opened Ipld
  import opened JobQueues
  import opened Mappings
  import opened Publishers
  import opened Publishing
  import opened PublishingLaws
  import opened QueueDelivery
  import opened Refusals
  import opened Sequences
  import opened Wrappers

  datatype PublishingJob = PublishingJob(provider: AddrInfo, spec: AdvertSpec)

  function RequestFor(job: PublishingJob): Request {
    RequestOf(job.provider, job.spec)
  }

  /** An advert of the job's content, under its context ID and with its
      metadata, is on the chain. */
  ghost predicate Announced(s: State, job: PublishingJob) {
    exists chain, i :: AdvertChain(s.blocks, HeadLink(s.head), chain) && 0 <= i < |chain| && Announces(chain[i], job)
  }

  predicate Announces(adv: Advertisement, job: PublishingJob) {
    && adv.provider == job.provider.id && adv.addresses == job.provider.addrs
    && adv.contextID == job.spec.contextID
    && adv.metadata == job.spec.metadata
    && !adv.isRm
  }

  lemma PublishAnnounces(c: Setup, s: State, job: PublishingJob)
    requires Inv(c.hash, s)
    ensures ExtendsChain(s, PublishOne(c, s, RequestFor(job)))
    ensures Generate(c, s, RequestFor(job)).Ok? ==> Announced(PublishOne(c, s, RequestFor(job)), job)
  {
    var s' := PublishOne(c, s, RequestFor(job));
    var past :| AdvertChain(s.blocks, HeadLink(s.head), past);
    var added := PublishOneExtends(c, s, RequestFor(job), past);
    forall chain | AdvertChain(s.blocks, HeadLink(s.head), chain)
      ensures exists more :: AdvertChain(s'.blocks, HeadLink(s'.head), more + chain)
    {
      AdvertChainUnique(s.blocks, HeadLink(s.head), chain, past);
    }
    if Generate(c, s, RequestFor(job)).Ok? {
      assert (added + past)[0] == added[0] && Announces(added[0], job);
    }
  }

  lemma AnnouncedPersists(s: State, s': State, job: PublishingJob)
    requires ExtendsChain(s, s') && Announced(s, job)
    ensures Announced(s', job)
  {
    var chain, i :| AdvertChain(s.blocks, HeadLink(s.head), chain) && 0 <= i < |chain| && Announces(chain[i], job);
    var added :| AdvertChain(s'.blocks, HeadLink(s'.head), added + chain);
    assert (added + chain)[|added| + i] == chain[i];
  }

  /** Every job without an error is announced. */
  ghost predicate AllAnnounced(s: State, jobs: seq<WithID<PublishingJob>>, errs: map<JobID, Error>) {
    forall j :: 0 <= j < |jobs| && jobs[j].id !in errs ==> Announced(s, jobs[j].job)
  }

  lemma OneMoreAnnounced(s: State, s': State, jobs: seq<WithID<PublishingJob>>, i: nat, errs: map<JobID, Error>,
                         err: Option<Error>)
    requires i < |jobs| && AllAnnounced(s, jobs[..i], errs) && ExtendsChain(s, s')
    requires err.None? ==> Announced(s', jobs[i].job)
    ensures AllAnnounced(s', jobs[..i + 1], if err.Some? then errs[jobs[i].id := err.value] else errs)
  {
    forall j | 0 <= j < i && jobs[j].id !in errs ensures Announced(s', jobs[j].job) {
      assert jobs[..i][j] == jobs[j];
      AnnouncedPersists(s, s', jobs[j].job);
    }
  }

  /** One job was published; or was refused, because its content is advertised
      with its metadata; or met a fault, which its error is about, and failed
      cleanly or leaving each row of its key old or new. */
  ghost predicate JobTried(c: Setup, s: State, job: PublishingJob, err: Option<Error>, s': State, before: Log,
                           after: Log)
  {
    var k, published := KeyOf(RequestFor(job)), PublishOne(c, s, RequestFor(job));
    match err
    case None => Generate(c, s, RequestFor(job)).Ok? && s' == published && after == before
    case Some(e) =>
      if after == before then e == AlreadyAdvertised && Generate(c, s, RequestFor(job)).Err? && s' == s
      else
        && Blamed(before, after, e, QUOTED)
        && if e.RollbackFailed? then
             && OnlyKey(s.tables, s'.tables, k)
             && RowsOldOrNew(Lookup(s.tables, k), Lookup(published.tables, k), Lookup(s'.tables, k))
           else s'.tables == s.tables
  }

  // ----- the error of each job -----

  /** The errors of the jobs tried, by ID: a later error replaces an earlier. */
  function ErrorsByID(jobs: seq<WithID<PublishingJob>>, tried: seq<Option<Error>>): map<JobID, Error>
    requires |tried| <= |jobs|
  {
    if tried == [] then map[]
    else
      var n := |tried| - 1;
      var errs := ErrorsByID(jobs, tried[..n]);
      if tried[n].Some? then errs[jobs[n].id := tried[n].value] else errs
  }

  /** The i-th job is the last with its ID that failed. */
  ghost predicate LastFailure(jobs: seq<WithID<PublishingJob>>, tried: seq<Option<Error>>, i: nat)
    requires i < |tried| <= |jobs|
  {
    tried[i].Some? && forall j :: i < j < |tried| && jobs[j].id == jobs[i].id ==> tried[j].None?
  }

  lemma LastFailureOneMore(jobs: seq<WithID<PublishingJob>>, tried: seq<Option<Error>>, i: nat)
    requires |tried| <= |jobs| && i < |tried| - 1
    ensures
      var n := |tried| - 1;
      LastFailure(jobs, tried, i)
      <==> LastFailure(jobs, tried[..n], i) && !(tried[n].Some? && jobs[n].id == jobs[i].id)
  {
    var init := tried[..|tried| - 1];
    assert forall j :: i <= j < |init| ==> init[j] == tried[j];
  }

  /** An ID has an error exactly if a job with it failed, and then that of the
      last such job. */
  lemma {:induction false} ErrorsByIDExact(jobs: seq<WithID<PublishingJob>>, tried: seq<Option<Error>>)
    requires |tried| <= |jobs|
    ensures forall i :: 0 <= i < |tried| && tried[i].Some? ==> jobs[i].id in ErrorsByID(jobs, tried)
    ensures forall id :: id in ErrorsByID(jobs, tried) ==>
      exists i :: 0 <= i < |tried| && LastFailure(jobs, tried, i) && jobs[i].id == id
    ensures forall i :: 0 <= i < |tried| && LastFailure(jobs, tried, i) ==>
      jobs[i].id in ErrorsByID(jobs, tried) && ErrorsByID(jobs, tried)[jobs[i].id] == tried[i].value
  {
    if tried != [] {
      var n := |tried| - 1;
      var init, errs, errs' := tried[..n], ErrorsByID(jobs, tried[..n]), ErrorsByID(jobs, tried);
      ErrorsByIDExact(jobs, init);
      forall i | 0 <= i < |tried| && LastFailure(jobs, tried, i)
        ensures jobs[i].id in errs' && errs'[jobs[i].id] == tried[i].value
      {
        if i < n {
          LastFailureOneMore(jobs, tried, i);
        }
      }
      forall id | id in errs' ensures exists i :: 0 <= i < |tried| && LastFailure(jobs, tried, i) && jobs[i].id == id {
        if tried[n].Some? && jobs[n].id == id {
          assert LastFailure(jobs, tried, n);
        } else {
          var i :| 0 <= i < n && LastFailure(jobs, init, i) && jobs[i].id == id;
          LastFailureOneMore(jobs, tried, i);
        }
      }
    }
  }

  ghost predicate DistinctIDs(jobs: seq<WithID<PublishingJob>>) {
    forall i, j :: 0 <= i < j < |jobs| ==> jobs[i].id != jobs[j].id
  }

  /** With distinct IDs every job has the outcome of its own turn. */
  lemma OwnOutcome(jobs: seq<WithID<PublishingJob>>, tried: seq<Option<Error>>, i: nat)
    requires DistinctIDs(jobs) && i < |tried| == |jobs|
    ensures ErrorOf(ErrorsByID(jobs, tried), jobs[i].id) == tried[i]
  {
    ErrorsByIDExact(jobs, tried);
    if tried[i].Some? {
      assert LastFailure(jobs, tried, i);
    }
  }

  /** A batch of publishing jobs was tried, one job at each turn; logs are those
      of the store between the turns. */
  ghost predicate BatchTried(c: Setup, turns: seq<State>, logs: seq<Log>, jobs: seq<WithID<PublishingJob>>,
                             tried: seq<Option<Error>>)
  {
    && |tried| <= |jobs| && |turns| == |logs| == |tried| + 1
    && forall i :: 0 <= i < |tried| ==>
         JobTried(c, turns[i], jobs[i].job, tried[i], turns[i + 1], logs[i], logs[i + 1])
  }

  lemma OneMoreTried(c: Setup, turns: seq<State>, logs: seq<Log>, jobs: seq<WithID<PublishingJob>>,
                     tried: seq<Option<Error>>, err: Option<Error>, s': State, log: Log)
    requires BatchTried(c, turns, logs, jobs, tried) && |tried| < |jobs|
    requires JobTried(c, turns[|tried|], jobs[|tried|].job, err, s', logs[|tried|], log)
    ensures BatchTried(c, turns + [s'], logs + [log], jobs, tried + [err])
    ensures ErrorsByID(jobs, tried + [err]) ==
      var errs := ErrorsByID(jobs, tried);
      if err.Some? then errs[jobs[|tried|].id := err.value] else errs
  {
    InitAndLast(tried, err);
  }

  /** The first fault was a deadline, exceeded in writing adverts, in comparing
      or writing the head, or outside the store; or an undo met one. What fails
      before, in the entries, the mappings or reading the head, is only quoted. */
  ghost predicate JobTimedOut(before: Log, after: Log) {
    && |before| < |after|
    && ((Is(after[|before|].err, DeadlineExceeded)
         && after[|before|].site in {AtAdverts, AtHeadCompare, AtHeadWrite, OffStore})
        || TimeoutIn(after, |before| + 1, |after|))
  }

  /** What becomes of a job at its turn: it is deleted if it was published, or a
      fault made its error a timeout, and released if not. */
  ghost function CallFor(id: JobID, err: Option<Error>, before: Log, after: Log): QueueCall {
    if err.None? || JobTimedOut(before, after) then ToDelete(id) else ToRelease(id)
  }

  /** The faults that a job met decide whether its error is a timeout. */
  lemma FailedJobIsDeletedIff(c: Setup, s: State, job: PublishingJob, e: Error, s': State, before: Log, after: Log)
    requires JobTried(c, s, job, Some(e), s', before, after)
    ensures Deletes(Some(e)) <==> JobTimedOut(before, after)
  {
    if after != before {
      NotQuotedAt(after[|before|].site);
    }
  }

  lemma NotQuotedAt(site: Site)
    ensures site !in QUOTED <==> site in {AtAdverts, AtHeadCompare, AtHeadWrite, OffStore}
  {
    match site
    case AtEntries | AtMappings | AtHeadRead =>
    case _ =>
  }

  lemma CallsOfBatch(c: Setup, turns: seq<State>, logs: seq<Log>, jobs: seq<WithID<PublishingJob>>,
                     tried: seq<Option<Error>>, i: nat)
    requires BatchTried(c, turns, logs, jobs, tried) && DistinctIDs(jobs) && i < |tried| == |jobs|
    ensures Verdicts(jobs, ErrorsByID(jobs, tried))[i] == CallFor(jobs[i].id, tried[i], logs[i], logs[i + 1])
  {
    OwnOutcome(jobs, tried, i);
    if tried[i].Some? {
      FailedJobIsDeletedIff(c, turns[i], jobs[i].job, tried[i].value, turns[i + 1], logs[i], logs[i + 1]);
    }
  }

  /** A job that published but stayed in the queue, because deleting it failed.
      When its turn comes again, whatever was tried since and however it ended,
      it is refused exactly if its content is still mapped and carries its
      metadata. Then it is released, unless a fault makes it a timeout; and
      without a fault it is told that it is already advertised. */
  lemma RedeliveredJobIsReleased(c: Setup, s: State, job: PublishingJob, states: seq<State>, attempts: seq<Attempt>,
                                 turns: seq<State>, logs: seq<Log>, jobs: seq<WithID<PublishingJob>>,
                                 tried: seq<Option<Error>>, i: nat)
    requires Generate(c, s, RequestFor(job)).Ok? && KeyRun(c, states, attempts, KeyOf(RequestFor(job)))
    requires states[0] == PublishOne(c, s, RequestFor(job))
    requires BatchTried(c, turns, logs, jobs, tried) && DistinctIDs(jobs) && i < |tried| == |jobs|
    requires jobs[i].job == job && turns[i] == states[|attempts|]
    ensures Generate(c, turns[i], RequestFor(job)).Err? <==> Kept(attempts, KeyOf(RequestFor(job)), job.spec.metadata)
    ensures Kept(attempts, KeyOf(RequestFor(job)), job.spec.metadata) ==>
      && tried[i].Some? && jobs[i].id in ErrorsByID(jobs, tried)
      && Verdicts(jobs, ErrorsByID(jobs, tried))[i] ==
         (if JobTimedOut(logs[i], logs[i + 1]) then ToDelete(jobs[i].id) else ToRelease(jobs[i].id))
      && (logs[i] == logs[i + 1] ==> tried[i] == Some(AlreadyAdvertised))
  {
    var q := RequestFor(job);
    PublishedCarries(c, s, q, KeyOf(q), q.metadata);
    RefusedIff(c, states[0], q);
    RefusedAfterIff(c, states, attempts, q);
    assert JobTried(c, turns[i], jobs[i].job, tried[i], turns[i + 1], logs[i], logs[i + 1]);
    CallsOfBatch(c, turns, logs, jobs, tried, i);
    OwnOutcome(jobs, tried, i);
  }

  /** What a turn of a batch left written of its key's rows. */
  ghost function AttemptOf(c: Setup, s: State, job: PublishingJob, err: Option<Error>, s': State): Attempt {
    var q := RequestFor(job);
    var left, next := Lookup(s'.tables, KeyOf(q)), Lookup(PublishOne(c, s, q).tables, KeyOf(q));
    if err.None? then Attempt(q, true, true)
    else if !err.value.RollbackFailed? then Attempt(q, false, false)
    else Attempt(q, left.chunk == next.chunk, left.meta == next.meta)
  }

  ghost function AttemptsOf(c: Setup, turns: seq<State>, jobs: seq<WithID<PublishingJob>>, tried: seq<Option<Error>>,
                            n: nat)
    : (attempts: seq<Attempt>)
    requires n <= |tried| <= |jobs| && |turns| == |tried| + 1
    ensures |attempts| == n
    ensures forall i :: 0 <= i < n ==> attempts[i] == AttemptOf(c, turns[i], jobs[i].job, tried[i], turns[i + 1])
  {
    seq(n, i requires 0 <= i < n => AttemptOf(c, turns[i], jobs[i].job, tried[i], turns[i + 1]))
  }

  lemma TurnIsAttempt(c: Setup, s: State, job: PublishingJob, err: Option<Error>, s': State, before: Log, after: Log,
                      k: Key)
    requires JobTried(c, s, job, err, s', before, after)
    ensures KeyStep(c, s, AttemptOf(c, s, job, err, s'), s', k)
  {
    var q := RequestFor(job);
    match Generate(c, s, q)
    case Err(_) =>
    case Ok((s1, _)) =>
      UpdateLookup(s.tables, KeyOf(q), NextRecord(Lookup(s.tables, KeyOf(q)), q.metadata, FreshLink(c, q)).value);
  }

  lemma TurnOfBatch(c: Setup, turns: seq<State>, logs: seq<Log>, jobs: seq<WithID<PublishingJob>>,
                    tried: seq<Option<Error>>, k: Key, i: nat)
    requires BatchTried(c, turns, logs, jobs, tried) && i < |tried|
    ensures KeyStep(c, turns[i], AttemptOf(c, turns[i], jobs[i].job, tried[i], turns[i + 1]), turns[i + 1], k)
  {
    TurnIsAttempt(c, turns[i], jobs[i].job, tried[i], turns[i + 1], logs[i], logs[i + 1], k);
  }

  /** The earlier turns of a batch are attempts like any others, however they
      ended. */
  lemma TurnsAreAttempts(c: Setup, turns: seq<State>, logs: seq<Log>, jobs: seq<WithID<PublishingJob>>,
                         tried: seq<Option<Error>>, k: Key, n: nat) returns (attempts: seq<Attempt>)
    requires BatchTried(c, turns, logs, jobs, tried) && n <= |tried|
    ensures attempts == AttemptsOf(c, turns, jobs, tried, n) && KeyRun(c, turns[..n + 1], attempts, k)
  {
    attempts := AttemptsOf(c, turns, jobs, tried, n);
    forall i | 0 <= i < n ensures KeyStep(c, turns[i], attempts[i], turns[i + 1], k) {
      TurnOfBatch(c, turns, logs, jobs, tried, k, i);
    }
    StepsAreKeyRun(c, turns, attempts, k);
  }

  lemma StepsAreKeyRun(c: Setup, turns: seq<State>, attempts: seq<Attempt>, k: Key)
    requires |attempts| < |turns|
    requires forall i :: 0 <= i < |attempts| ==> KeyStep(c, turns[i], attempts[i], turns[i + 1], k)
    ensures KeyRun(c, turns[..|attempts| + 1], attempts, k)
  {
  }

  class PublishingPoller {
    const publisher: IPNIPublisher
    const queue: JobQueue<PublishingJob>

    constructor (publisher: IPNIPublisher, queue: JobQueue<PublishingJob>)
      ensures this.publisher == publisher && this.queue == queue
    {
      this.publisher, this.queue := publisher, queue;
    }

    /** Handles one batch: publishes the jobs one by one, and deletes those that
        published or timed out and releases the others. Every job that leaves
        the queue is announced on the chain or timed out. */
    method HandleBatch(jobs: seq<WithID<PublishingJob>>)
      returns (ghost gone: seq<Deletion<PublishingJob>>, ghost turns: seq<State>, ghost logs: seq<Log>,
               ghost tried: seq<Option<Error>>)
      requires publisher.Valid()
      modifies publisher.batchPublisher, publisher.store, queue
      ensures publisher.Valid()
      ensures |tried| == |jobs| && BatchTried(publisher.C(), turns, logs, jobs, tried)
      ensures turns[0] == old(publisher.store.S()) && turns[|jobs|] == publisher.store.S()
      ensures logs[0] == old(publisher.store.faults) && logs[|jobs|] == publisher.store.faults
      ensures queue.calls == old(queue.calls) + Verdicts(jobs, ErrorsByID(jobs, tried))
      ensures DistinctIDs(jobs) ==> forall i :: 0 <= i < |jobs| ==>
        queue.calls[|old(queue.calls)| + i] == CallFor(jobs[i].id, tried[i], logs[i], logs[i + 1])
      ensures AllAnnounced(publisher.store.S(), jobs, ErrorsByID(jobs, tried))
      ensures queue.deleted == old(queue.deleted) + gone
      ensures forall d :: d in gone ==>
        (d.err.Some? && Is(d.err.value, DeadlineExceeded)) || Announced(publisher.store.S(), d.job.job)
    {
      var errs;
      errs, turns, logs, tried := PublishJobs(jobs);
      gone := Settle(queue, jobs, errs);
      if DistinctIDs(jobs) {
        forall i | 0 <= i < |jobs|
          ensures Verdicts(jobs, errs)[i] == CallFor(jobs[i].id, tried[i], logs[i], logs[i + 1])
        {
          CallsOfBatch(publisher.C(), turns, logs, jobs, tried, i);
        }
      }
    }

    /** The batch function of the poller. */
    method PublishJobs(jobs: seq<WithID<PublishingJob>>)
      returns (errs: map<JobID, Error>, ghost turns: seq<State>, ghost logs: seq<Log>, ghost tried: seq<Option<Error>>)
      requires publisher.Valid()
      modifies publisher.batchPublisher, publisher.store
      ensures publisher.Valid() && |tried| == |jobs|
      ensures BatchTried(publisher.C(), turns, logs, jobs, tried) && errs == ErrorsByID(jobs, tried)
      ensures turns[0] == old(publisher.store.S()) && turns[|jobs|] == publisher.store.S()
      ensures logs[0] == old(publisher.store.faults) && logs[|jobs|] == publisher.store.faults
      ensures AllAnnounced(publisher.store.S(), jobs, errs)
    {
      errs, turns, logs, tried := map[], [publisher.store.S()], [publisher.store.faults], [];
      ghost var c := publisher.C();
      for i := 0 to |jobs|
        invariant publisher.Valid() && |tried| == i
        invariant BatchTried(c, turns, logs, jobs, tried) && errs == ErrorsByID(jobs, tried)
        invariant turns[0] == old(publisher.store.S()) && turns[i] == publisher.store.S()
        invariant logs[0] == old(publisher.store.faults) && logs[i] == publisher.store.faults
        invariant AllAnnounced(publisher.store.S(), jobs[..i], errs)
      {
        ghost var s := publisher.store.S();
        var err := PublishJob(jobs[i].job);
        OneMoreAnnounced(s, publisher.store.S(), jobs, i, errs, err);
        OneMoreTried(c, turns, logs, jobs, tried, err, publisher.store.S(), publisher.store.faults);
        if err.Some? {
          errs := errs[jobs[i].id := err.value];
        }
        turns, logs, tried := turns + [publisher.store.S()], logs + [publisher.store.faults], tried + [err];
      }
      TakeAll(jobs);
    }

    /** Handle: publishes one job. */
    method PublishJob(job: PublishingJob) returns (err: Option<Error>)
      requires publisher.Valid()
      modifies publisher.batchPublisher, publisher.store
      ensures publisher.Valid()
      ensures JobTried(publisher.C(), old(publisher.store.S()), job, err, publisher.store.S(),
                       old(publisher.store.faults), publisher.store.faults)
      ensures ExtendsChain(old(publisher.store.S()), publisher.store.S())
      ensures err.None? ==> Announced(publisher.store.S(), job)
    {
      ghost var c, s := publisher.C(), publisher.store.S();
      PublishAnnounces(c, s, job);
      var r := publisher.Publish(job.provider, job.spec);
      if r.Ok? {
        return None;
      }
      err := Some(r.error);
      if CauseOf(r.error) == AlreadyAdvertised {
        assert PublishOne(c, s, RequestFor(job)) == s;
      } else {
        FailedPublishExtends(c, s, job, r.error, publisher.store.S(),
                             MayMove(publisher.store.atomicHead, old(publisher.store.faults), publisher.store.faults),
                             old(publisher.store.faults), publisher.store.faults);
      }
    }
  }

  lemma FailedPublishExtends(c: Setup, s: State, job: PublishingJob, e: Error, s': State, may: bool, before: Log,
                             after: Log)
    requires Inv(c.hash, s)
    requires FailedPublish(c.hash, job.provider.id, [job.spec.contextID], s, PublishOne(c, s, RequestFor(job)), e, s',
                           may, after, |before| + 1)
    requires Blamed(before, after, e, QUOTED)
    ensures JobTried(c, s, job, Some(e), s', before, after) && ExtendsChain(s, s')
  {
    PublishAnnounces(c, s, job);
    MovedAtMostExtends(s, PublishOne(c, s, RequestFor(job)), s', may);
    if e.RollbackFailed? {
      forall k: Key | k != KeyOf(RequestFor(job)) ensures Lookup(s'.tables, k) == Lookup(s.tables, k) {
        assert k.provider != job.provider.id || forall f: Failure :: f in e.failures ==> f.contextID != k.contextID;
      }
      var k, published := KeyOf(RequestFor(job)), PublishOne(c, s, RequestFor(job));
      assert RowsOldOrNew(Lookup(s.tables, k), Lookup(published.tables, k), Lookup(s'.tables, k));
    }
  }
}
