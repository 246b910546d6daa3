/**
 Delivering queued adverts (pkg/queue): a batch is committed together and its
 jobs share the outcome. A job may leave the queue only when its advert is on
 the chain or it timed out; what counts as a timeout is proved exactly.
 */
module QueueDelivery {
  import opened AdStores
  import opened AdvertFields
  import opened AdvertPublishers
  import opened Errors
  import opened Faults
  import opened GenerateAds
  import opened Ipld
  import opened JobQueues
  import opened Mappings
  import opened Publishing
  import opened PublishingLaws
  import opened Refusals
  import opened Rollback
  import opened Wrappers

  // ----- what delivery means -----

  ghost predicate OnChain(s: State, adv: Advertisement) {
    exists chain, i :: AdvertChain(s.blocks, HeadLink(s.head), chain) && 0 <= i < |chain| && SameAdvert(chain[i], adv)
  }

  ghost predicate SignedOnChain(s: State, adv: Advertisement, key: PrivKey) {
    exists chain: seq<Advertisement>, i: nat ::
      && AdvertChain(s.blocks, HeadLink(s.head), chain) && i < |chain|
      && SameAdvert(chain[i], adv) && chain[i].signer == Some(key)
  }

  ghost predicate Delivered(s: State, d: Deletion<Advertisement>) {
    (d.err.Some? && Is(d.err.value, DeadlineExceeded)) || OnChain(s, d.job.job)
  }

  /** The head's chain is stored, and extends the one it had. */
  ghost predicate ExtendsChain(s: State, s': State) {
    forall chain :: AdvertChain(s.blocks, HeadLink(s.head), chain) ==>
      exists added :: AdvertChain(s'.blocks, HeadLink(s'.head), added + chain)
  }

  /** A handled batch, or whatever other publishers do between batches. */
  ghost predicate QueueStep(s: State, deleted: seq<Deletion<Advertisement>>, s': State,
                            deleted': seq<Deletion<Advertisement>>)
  {
    && ExtendsChain(s, s')
    && deleted <= deleted'
    && forall i :: |deleted| <= i < |deleted'| ==> Delivered(s', deleted'[i])
  }

  lemma DeliveredPersists(s: State, s': State, d: Deletion<Advertisement>)
    requires ExtendsChain(s, s') && Delivered(s, d)
    ensures Delivered(s', d)
  {
    if OnChain(s, d.job.job) {
      var chain, i :|
        AdvertChain(s.blocks, HeadLink(s.head), chain) && 0 <= i < |chain| && SameAdvert(chain[i], d.job.job);
      var added :| AdvertChain(s'.blocks, HeadLink(s'.head), added + chain);
      assert (added + chain)[|added| + i] == chain[i];
    }
  }

  /** Queue safety over whole runs: every job ever deleted timed out or has its
      advert on the chain from the current head. */
  lemma {:induction false} DeletedJobsWereDelivered(states: seq<State>, deleted: seq<seq<Deletion<Advertisement>>>,
                                                    n: nat)
    requires |states| == |deleted| && n < |states| && deleted[0] == []
    requires forall k :: 0 <= k < |states| - 1 ==> QueueStep(states[k], deleted[k], states[k + 1], deleted[k + 1])
    ensures forall d :: d in deleted[n] ==> Delivered(states[n], d)
  {
    if n > 0 {
      DeletedJobsWereDelivered(states, deleted, n - 1);
      assert QueueStep(states[n - 1], deleted[n - 1], states[n], deleted[n]);
      forall d | d in deleted[n] ensures Delivered(states[n], d) {
        var i :| 0 <= i < |deleted[n]| && deleted[n][i] == d;
        if i < |deleted[n - 1]| {
          assert deleted[n - 1][i] == d;
          DeliveredPersists(states[n - 1], states[n], d);
        }
      }
    }
  }

  // ----- queued adverts -----

  function JobAdverts(jobs: seq<WithID<Advertisement>>): (advs: seq<Advertisement>)
    ensures |advs| == |jobs| && forall i :: 0 <= i < |jobs| ==> advs[i] == jobs[i].job
  {
    seq(|jobs|, i requires 0 <= i < |jobs| => jobs[i].job)
  }

  /** The jobs' adverts as a publisher holds them pending. */
  function PendingOf(jobs: seq<WithID<Advertisement>>): (pending: seq<PendingAd>)
    ensures |pending| == |jobs|
    ensures forall i :: 0 <= i < |jobs| ==> pending[i] == PendingAd(jobs[i].job, Forget(jobs[i].job))
  {
    seq(|jobs|, i requires 0 <= i < |jobs| => PendingAd(jobs[i].job, Forget(jobs[i].job)))
  }

  /** A store whose head stayed, or became published's, still has the chain it
      had, extended. */
  lemma MovedAtMostExtends(s: State, published: State, s': State, may: bool)
    requires HeadMovedAtMost(s, published, s', may) && ExtendsChain(s, published)
    ensures ExtendsChain(s, s')
  {
    forall chain | AdvertChain(s.blocks, HeadLink(s.head), chain)
      ensures exists more :: AdvertChain(s'.blocks, HeadLink(s'.head), more + chain)
    {
      if s'.head == s.head {
        AdvertChainGrows(s.blocks, s'.blocks, HeadLink(s.head), chain);
        assert [] + chain == chain;
      } else {
        var more :| AdvertChain(published.blocks, HeadLink(published.head), more + chain);
      }
    }
  }

  lemma AppendExtends(c: Setup, s: State, drafts: seq<Advertisement>)
    requires Inv(c.hash, s)
    ensures ExtendsChain(s, Append(c, s, drafts)) && Sub(s.blocks, Append(c, s, drafts).blocks)
  {
    forall chain | AdvertChain(s.blocks, HeadLink(s.head), chain)
      ensures exists more :: AdvertChain(Append(c, s, drafts).blocks, HeadLink(Append(c, s, drafts).head), more + chain)
    {
      AppendChain(c, s, chain, drafts);
    }
    var past :| AdvertChain(s.blocks, HeadLink(s.head), past);
    AppendChain(c, s, past, drafts);
  }

  /** Every advert that was appended is on the chain, and is signed there, as
      is the head. */
  lemma AppendDelivers(c: Setup, s: State, drafts: seq<Advertisement>, i: nat)
    requires Inv(c.hash, s) && i < |drafts|
    ensures
      var s' := Append(c, s, drafts);
      SignedOnChain(s', drafts[i], c.key) && OnChain(s', drafts[i]) && s'.head.Some? && HeadSigned(s'.head, c)
  {
    var past :| AdvertChain(s.blocks, HeadLink(s.head), past);
    var added := AppendFields(c, s, drafts, past);
    var j := |drafts| - 1 - i;
    assert (added + past)[j] == added[j] && SameAdvert(added[j], drafts[i]);
  }

  /** The verdicts on a batch whose jobs all had the same outcome. */
  function OneOutcome<Job>(jobs: seq<WithID<Job>>, failure: Option<Error>): (calls: seq<QueueCall>)
    ensures |calls| == |jobs|
    ensures forall i :: 0 <= i < |jobs| ==>
      var id := jobs[i].id;
      calls[i] == if failure.None? || Is(failure.value, DeadlineExceeded) then ToDelete(id) else ToRelease(id)
  {
    seq(|jobs|, i requires 0 <= i < |jobs| => Verdict(jobs[i].id, failure))
  }

  // ----- batches of adverts that failed -----

  /** A batch of adverts failed: its commit met a fault, the head is as found
      unless the fault was that of writing it, and every advert's undo was run, those
      that failed being listed in the error that every job is given. */
  ghost predicate FailedAdverts(c: Setup, s: State, jobs: seq<WithID<Advertisement>>, e: Error, run: UndoRun, s': State,
                                atomicHead: bool, before: Log, after: Log)
  {
    && HeadMovedAtMost(s, Append(c, s, JobAdverts(jobs)), s', MayMove(atomicHead, before, after))
    && CommitFailed(PendingOf(jobs), e, run, s.tables, s'.tables, before, after)
  }

  predicate Named(e: Error, id: ContextID) {
    e.RollbackFailed? && exists f | f in e.failures :: f.contextID == id
  }

  /** Any addition for the key generates an advert. */
  ghost predicate CanBeAdvertised(c: Setup, s: State, k: Key) {
    forall q: Request :: !q.isRm && KeyOf(q) == k ==> Generate(c, s, q).Ok?
  }

  lemma UndosForget(jobs: seq<WithID<Advertisement>>, i: nat)
    requires i < |jobs|
    ensures Undos(PendingOf(jobs))[i] == Forget(jobs[i].job)
  {
  }

  /** What the error of a failed batch means for a retry: it names every removal,
      whose content a retry will not find; every addition it does not name has
      neither mapping, so that any addition of it generates an advert again; it
      names nothing else; and keys of no queued addition are untouched. */
  lemma FailedAdvertsOutcome(c: Setup, s: State, jobs: seq<WithID<Advertisement>>, e: Error, run: UndoRun, s': State,
                             atomicHead: bool, before: Log, after: Log)
    requires FailedAdverts(c, s, jobs, e, run, s', atomicHead, before, after)
    ensures forall i :: 0 <= i < |jobs| && jobs[i].job.isRm ==>
      e.RollbackFailed? && Failure(jobs[i].job.contextID, Wrap(ContextIDNotFound)) in e.failures
    ensures forall i :: 0 <= i < |jobs| && !jobs[i].job.isRm && !Named(e, jobs[i].job.contextID) ==>
      Lookup(s'.tables, AdvKey(jobs[i].job)) == UNMAPPED && CanBeAdvertised(c, s', AdvKey(jobs[i].job))
    ensures forall id :: Named(e, id) ==> exists i :: 0 <= i < |jobs| && jobs[i].job.contextID == id
    ensures forall k :: (forall i :: 0 <= i < |jobs| ==> jobs[i].job.isRm || AdvKey(jobs[i].job) != k) ==>
      Lookup(s'.tables, k) == Lookup(s.tables, k)
  {
    var pending := PendingOf(jobs);
    forall i | 0 <= i < |jobs| && jobs[i].job.isRm
      ensures e.RollbackFailed? && Failure(jobs[i].job.contextID, Wrap(ContextIDNotFound)) in e.failures
    {
      RemovalNamed(jobs, run, s.tables, s'.tables, i);
    }
    forall i | 0 <= i < |jobs| && !jobs[i].job.isRm && !Named(e, jobs[i].job.contextID)
      ensures Lookup(s'.tables, AdvKey(jobs[i].job)) == UNMAPPED && CanBeAdvertised(c, s', AdvKey(jobs[i].job))
    {
      NotNamedIsUndone(pending, e, run, i);
      AdditionForgotten(jobs, run, s.tables, s'.tables, i);
    }
    forall id | Named(e, id) ensures exists i :: 0 <= i < |jobs| && jobs[i].job.contextID == id {
      var i := NamedIsPending(pending, e, run, id);
    }
    forall k | forall i :: 0 <= i < |jobs| ==> jobs[i].job.isRm || AdvKey(jobs[i].job) != k
      ensures Lookup(s'.tables, k) == Lookup(s.tables, k)
    {
      UnqueuedKeptBy(jobs, run, s.tables, s'.tables, k);
    }
  }

  lemma UnqueuedKeptBy(jobs: seq<WithID<Advertisement>>, run: UndoRun, t: Tables, t': Tables, k: Key)
    requires IsUndoRun(Undos(PendingOf(jobs)), run, t, t')
    requires forall i :: 0 <= i < |jobs| ==> jobs[i].job.isRm || AdvKey(jobs[i].job) != k
    ensures Lookup(t', k) == Lookup(t, k)
  {
    ForgetOutcome(Undos(PendingOf(jobs)), run, t, t');
    forall i | 0 <= i < |jobs| ensures Undos(PendingOf(jobs))[i].adv == jobs[i].job {
      UndosForget(jobs, i);
    }
  }

  lemma RemovalNamed(jobs: seq<WithID<Advertisement>>, run: UndoRun, t: Tables, t': Tables, i: nat)
    requires IsUndoRun(Undos(PendingOf(jobs)), run, t, t') && i < |jobs| && jobs[i].job.isRm
    ensures Failure(jobs[i].job.contextID, Wrap(ContextIDNotFound)) in Failures(PendingOf(jobs), run.errs)
  {
    var j := |jobs| - 1 - i;
    var undos, ids := Undos(PendingOf(jobs)), UndoneIDs(PendingOf(jobs));
    UndosForget(jobs, i);
    assert UndoStep(undos[|undos| - 1 - j], run.trace[j], run.trace[j + 1], run.errs[j]);
    FailuresComplete(ids, run.errs);
    assert Failure(ids[j], run.errs[j].value) in FailuresOf(ids, run.errs);
  }

  lemma AdditionForgotten(jobs: seq<WithID<Advertisement>>, run: UndoRun, t: Tables, t': Tables, i: nat)
    requires IsUndoRun(Undos(PendingOf(jobs)), run, t, t') && i < |jobs| && !jobs[i].job.isRm
    requires run.errs[|jobs| - 1 - i].None?
    ensures Lookup(t', AdvKey(jobs[i].job)) == UNMAPPED
  {
    UndosForget(jobs, i);
    ForgetOutcome(Undos(PendingOf(jobs)), run, t, t');
    assert Undos(PendingOf(jobs))[i].adv == jobs[i].job;
  }

  lemma NotNamedIsUndone(pending: seq<PendingAd>, e: Error, run: UndoRun, i: nat)
    requires |run.errs| == |pending| && i < |pending|
    requires e == WithFailures(CauseOf(e), Failures(pending, run.errs), |pending|)
      && !Named(e, pending[i].adv.contextID)
    ensures run.errs[|pending| - 1 - i].None?
  {
    if run.errs[|pending| - 1 - i].Some? {
      FailedUndoIsNamed(pending, e, run, |pending| - 1 - i);
    }
  }

  lemma FailedUndoIsNamed(pending: seq<PendingAd>, e: Error, run: UndoRun, j: nat)
    requires |run.errs| == |pending| && j < |pending| && run.errs[j].Some?
    requires e == WithFailures(CauseOf(e), Failures(pending, run.errs), |pending|)
    ensures Named(e, UndoneIDs(pending)[j])
  {
    var ids := UndoneIDs(pending);
    FailuresComplete(ids, run.errs);
    assert Failure(ids[j], run.errs[j].value) in e.failures;
  }

  lemma NamedIsPending(pending: seq<PendingAd>, e: Error, run: UndoRun, id: ContextID) returns (i: nat)
    requires |run.errs| == |pending| && Named(e, id) && !CauseOf(e).RollbackFailed?
    requires e == WithFailures(CauseOf(e), Failures(pending, run.errs), |pending|)
    ensures i < |pending| && pending[i].adv.contextID == id
  {
    var f :| f in e.failures && f.contextID == id;
    var j := FailuresReal(UndoneIDs(pending), run.errs, f);
    i := |pending| - 1 - j;
  }

  /** The first fault was a deadline, exceeded anywhere but in reading the head,
      whose error a commit only quotes; or an undo met one. */
  ghost predicate CommitTimedOut(before: Log, after: Log) {
    && |before| < |after|
    && ((Is(after[|before|].err, DeadlineExceeded) && after[|before|].site != AtHeadRead)
        || TimeoutIn(after, |before| + 1, |after|))
  }

  /** The jobs of a failed batch are deleted exactly when the faults it met make
      it a timeout. */
  lemma FailedBatchIsDeletedIff(c: Setup, s: State, jobs: seq<WithID<Advertisement>>, e: Error, run: UndoRun, s': State,
                             atomicHead: bool, before: Log, after: Log)
    requires FailedAdverts(c, s, jobs, e, run, s', atomicHead, before, after)
    ensures Faulted(before, after, e)
    ensures Deletes(Some(e)) <==> CommitTimedOut(before, after)
    ensures Deletes(Some(e)) <==> Is(e, DeadlineExceeded)
  {
    CommitFaulted(PendingOf(jobs), e, run, s.tables, s'.tables, before, after);
  }

  /** A commit of one advert that failed for this cause, and whose undo failed
      leaving the tables as they were. */
  lemma OneUndoFailsCommit(pa: PendingAd, cause: Error, undone: Error, t: Tables, between: Log, after: Log)
    requires IsCommitError(cause) && CommitStopped([], between, Some(cause))
    requires UndoStep(pa.undo, t, t, Some(undone)) && UndoLogged(pa.undo, between, after, Some(undone))
    ensures
      CommitFailed([pa], RollbackFailed(cause, [Failure(pa.adv.contextID, undone)], 1),
                   UndoRun([t, t], [Some(undone)], [between, after]), t, t, [], after)
  {
    assert UndoneIDs([pa]) == [pa.adv.contextID];
    OneFailure(pa.adv.contextID, Some(undone));
  }

  // The undo's context has expired: deleting either row fails.
  const BOTH_TIMED_OUT := Joined([Wrap(DeadlineExceeded), Wrap(DeadlineExceeded)])
  const TIMEOUT := Fault(DeadlineExceeded, AtMappings)

  lemma BothTimedOut(adv: Advertisement, t: Tables, log: Log)
    requires !adv.isRm
    ensures UndoStep(Forget(adv), t, t, Some(BOTH_TIMED_OUT))
    ensures UndoLogged(Forget(adv), log, log + [TIMEOUT, TIMEOUT], Some(BOTH_TIMED_OUT))
    ensures Is(BOTH_TIMED_OUT, DeadlineExceeded)
  {
    assert Is(BOTH_TIMED_OUT.errs[0], DeadlineExceeded);
  }

  /** An advert can be lost: in a store that holds no advert yet, this one
      cannot be written, for a reason that is no timeout, and undoing it times
      out. Its job is deleted although its advert is on no chain. */
  lemma UndoTimeoutLosesAdvert(c: Setup, adv: Advertisement, id: JobID, atomicHead: bool)
    returns (s: State, e: Error, run: UndoRun, faults: Log)
    requires Injective(c.hash) && !adv.isRm
    ensures Inv(c.hash, s) && !OnChain(s, adv)
    ensures FailedAdverts(c, s, [WithID(id, adv)], e, run, s, atomicHead, [], faults)
    ensures !Is(CauseOf(e), DeadlineExceeded) && Deletes(Some(e))
  {
    var t := Tables(map[AdvKey(adv) := NoEntries], map[AdvKey(adv) := adv.metadata]);
    s := State(map[], None, t);
    assert AdvertChain(s.blocks, HeadLink(s.head), []);
    var unwritten := [Fault(Other(0), AtAdverts)];
    faults := unwritten + [TIMEOUT, TIMEOUT];
    run := UndoRun([t, t], [Some(BOTH_TIMED_OUT)], [unwritten, faults]);
    e := RollbackFailed(Other(0), [Failure(adv.contextID, BOTH_TIMED_OUT)], 1);
    BothTimedOut(adv, t, unwritten);
    assert PendingOf([WithID(id, adv)]) == [PendingAd(adv, Forget(adv))];
    OneUndoFailsCommit(PendingAd(adv, Forget(adv)), Other(0), BOTH_TIMED_OUT, t, unwritten, faults);
    assert faults[1] == TIMEOUT;
    FailedBatchIsDeletedIff(c, s, [WithID(id, adv)], e, run, s, atomicHead, [], faults);
  }

  ghost predicate AllOrNone(jobs: seq<WithID<Advertisement>>, errs: map<JobID, Error>, failure: Option<Error>) {
    if failure.None? then errs == map[]
    else forall i :: 0 <= i < |jobs| ==> jobs[i].id in errs && errs[jobs[i].id] == failure.value
  }

  /** What left the queue after a batch was delivered. */
  lemma BatchSettled(c: Setup, s: State, jobs: seq<WithID<Advertisement>>, errs: map<JobID, Error>,
                     failure: Option<Error>,
                     gone: seq<Deletion<Advertisement>>, s': State)
    requires Inv(c.hash, s) && AllOrNone(jobs, errs, failure) && Settled(jobs, errs, gone)
    requires failure.None? ==> s' == Append(c, s, JobAdverts(jobs))
    ensures forall d :: d in gone ==> Delivered(s', d)
    ensures !Deletes(failure) ==> gone == []
    ensures Verdicts(jobs, errs) == OneOutcome(jobs, failure)
    ensures failure.None? ==> forall i :: 0 <= i < |jobs| ==> SignedOnChain(s', jobs[i].job, c.key)
  {
    if failure.None? {
      forall i | 0 <= i < |jobs| ensures SignedOnChain(s', jobs[i].job, c.key) {
        AppendDelivers(c, s, JobAdverts(jobs), i);
      }
    }
    forall d | d in gone ensures Delivered(s', d) {
      var i :| 0 <= i < |jobs| && jobs[i] == d.job;
      AppendDelivers(c, s, JobAdverts(jobs), i);
    }
    assert gone == [] || gone[0] in gone;
  }

  /** A handled batch moved the chain on, if at all. */
  lemma BatchExtends(c: Setup, s: State, jobs: seq<WithID<Advertisement>>, s': State, may: bool)
    requires Inv(c.hash, s) && HeadMovedAtMost(s, Append(c, s, JobAdverts(jobs)), s', may)
    ensures ExtendsChain(s, s')
  {
    AppendExtends(c, s, JobAdverts(jobs));
    MovedAtMostExtends(s, Append(c, s, JobAdverts(jobs)), s', may);
  }

  class AdvertisementPoller {
    const publisher: AdvertisementPublisher
    const queue: JobQueue<Advertisement>

    constructor (publisher: AdvertisementPublisher, queue: JobQueue<Advertisement>)
      ensures this.publisher == publisher && this.queue == queue
    {
      this.publisher, this.queue := publisher, queue;
    }

    /** The store is sound and no advert is pending: what holds between batches
        when handler calls are serialised. */
    ghost predicate Valid()
      reads this, publisher, publisher.store`blocks, publisher.store`head
    {
      publisher.store.Valid() && publisher.pending == []
    }

    /** Handle: commits the jobs' adverts together, and fails all or none, on a
        fault, giving every job the commit's error. */
    method Handle(jobs: seq<WithID<Advertisement>>)
      returns (errs: map<JobID, Error>, ghost failure: Option<Error>, ghost run: UndoRun)
      requires Valid()
      modifies publisher, publisher.store
      ensures Valid()
      ensures AllOrNone(jobs, errs, failure)
      ensures failure.None? ==>
        && publisher.store.S() == Append(publisher.C(), old(publisher.store.S()), JobAdverts(jobs))
        && publisher.store.faults == old(publisher.store.faults)
      ensures failure.Some? ==>
        FailedAdverts(publisher.C(), old(publisher.store.S()), jobs, failure.value, run, publisher.store.S(),
                      publisher.store.atomicHead, old(publisher.store.faults), publisher.store.faults)
    {
      AddAll(jobs);
      assert Advs(PendingOf(jobs)) == JobAdverts(jobs);
      var r;
      r, run := publisher.Commit();
      if r.Ok? {
        return map[], None, run;
      }
      failure := Some(r.error);
      errs := FailAll(jobs, r.error);
    }

    static method FailAll(jobs: seq<WithID<Advertisement>>, e: Error) returns (errs: map<JobID, Error>)
      ensures AllOrNone(jobs, errs, Some(e))
    {
      errs := map[];
      for i := 0 to |jobs|
        invariant forall j :: 0 <= j < i ==> jobs[j].id in errs && errs[jobs[j].id] == e
      {
        errs := errs[jobs[i].id := e];
      }
    }

    method AddAll(jobs: seq<WithID<Advertisement>>)
      requires publisher.pending == []
      modifies publisher
      ensures publisher.pending == PendingOf(jobs)
    {
      for i := 0 to |jobs|
        invariant |publisher.pending| == i
        invariant forall j :: 0 <= j < i ==> publisher.pending[j] == PendingAd(jobs[j].job, Forget(jobs[j].job))
      {
        publisher.AddToBatch(jobs[i].job);
      }
    }

    /** Handles one batch read from the queue. All its jobs are deleted if the
        commit succeeded, or timed out, or an undo of it did; otherwise all are
        released. Nothing stays pending for the next batch, and what leaves the
        queue was delivered or timed out. */
    method HandleBatch(jobs: seq<WithID<Advertisement>>) returns (ghost failure: Option<Error>, ghost run: UndoRun)
      requires Valid()
      modifies publisher, publisher.store, queue
      ensures Valid()
      ensures QueueStep(old(publisher.store.S()), old(queue.deleted), publisher.store.S(), queue.deleted)
      ensures queue.calls == old(queue.calls) + OneOutcome(jobs, failure)
      ensures failure.Some? && !Is(failure.value, DeadlineExceeded) ==> queue.deleted == old(queue.deleted)
      ensures failure.None? <==> publisher.store.faults == old(publisher.store.faults)
      ensures failure.None? ==>
        forall i :: 0 <= i < |jobs| ==> SignedOnChain(publisher.store.S(), jobs[i].job, publisher.key)
      ensures failure.Some? ==>
        && FailedAdverts(publisher.C(), old(publisher.store.S()), jobs, failure.value, run, publisher.store.S(),
                         publisher.store.atomicHead, old(publisher.store.faults), publisher.store.faults)
        && (Is(failure.value, DeadlineExceeded) <==>
          CommitTimedOut(old(publisher.store.faults), publisher.store.faults))
    {
      ghost var c, s, before := publisher.C(), publisher.store.S(), publisher.store.faults;
      var errs;
      errs, failure, run := Handle(jobs);
      ghost var s' := publisher.store.S();
      if failure.Some? {
        FailedBatchIsDeletedIff(c, s, jobs, failure.value, run, s', publisher.store.atomicHead, before,
                                publisher.store.faults);
        BatchExtends(c, s, jobs, s', MayMove(publisher.store.atomicHead, before, publisher.store.faults));
      } else {
        AppendExtends(c, s, JobAdverts(jobs));
      }
      ghost var gone := Settle(queue, jobs, errs);
      BatchSettled(c, s, jobs, errs, failure, gone, s');
    }
  }

  // ----- queueing adverts -----

  /** Publishing through the queue: an advert is generated, writing its
      mappings, and queued. */
  class AdvertisementQueuePublisher {
    const queue: JobQueue<Advertisement>
    const store: AdStore

    constructor (queue: JobQueue<Advertisement>, store: AdStore)
      ensures this.queue == queue && this.store == store
    {
      this.queue, this.store := queue, store;
    }

    /** Publish: the advert is generated and queued; or nothing is queued,
        because it is refused or a fault kept it from being generated; or it was
        generated and queueing it failed, and then its mappings stay, whether
        or not the queue took it. */
    method Publish(p: AddrInfo, spec: AdvertSpec, ghost c: Setup) returns (err: Option<Error>, ghost generated: bool)
      requires store.Valid() && For(c, store)
      modifies store`blocks, store`chunkLinks, store`metas, store`faults, queue`queued, queue`faults
      ensures store.Valid()
      ensures err.None? ==> generated
      ensures generated ==>
        && Logged(old(queue.faults), queue.faults, err)
        && GeneratedAnyway(c, old(store.S()), RequestOf(p, spec), store.S()) && store.faults == old(store.faults)
        && var adv := Generate(c, old(store.S()), RequestOf(p, spec)).value.1;
        && (queue.queued == old(queue.queued) + [adv] || (err.Some? && queue.queued == old(queue.queued)))
      ensures !generated ==>
        && queue.queued == old(queue.queued) && queue.faults == old(queue.faults) && err.Some?
        && if CauseOf(err.value) == AlreadyAdvertised then
             && Refused(c, old(store.S()), RequestOf(p, spec), err.value)
             && store.S() == old(store.S()) && store.faults == old(store.faults)
           else
             && Blamed(old(store.faults), store.faults, err.value, QUOTED)
             && UndoneGeneration(c, old(store.S()), RequestOf(p, spec), err.value, store.blocks, store.Tables(),
                                 store.faults, |old(store.faults)| + 1)
    {
      var adv := GenerateAd(store, RequestOf(p, spec), c);
      if adv.Err? {
        return Some(adv.error), false;
      }
      err := queue.Queue(adv.value);
      generated := true;
    }
  }

  ghost predicate GeneratedAnyway(c: Setup, s: State, q: Request, s': State) {
    Generate(c, s, q).Ok? && s' == Generate(c, s, q).value.0
  }

  /** A generated advert that was not queued is refused when it is generated
      again, although the head has not moved, exactly as long as its content
      is left mapped and with its metadata. Putting its record back first is
      what would help. */
  lemma UnqueuedIsRefusedIff(c: Setup, s: State, q: Request, states: seq<State>, attempts: seq<Attempt>)
    requires !q.isRm && KeyRun(c, states, attempts, KeyOf(q)) && GeneratedAnyway(c, s, q, states[0])
    ensures states[0].head == s.head
    ensures Generate(c, states[|attempts|], q).Err? <==> Kept(attempts, KeyOf(q), q.metadata)
    ensures Update(states[0].tables, KeyOf(q), Lookup(s.tables, KeyOf(q))) == s.tables
  {
    UpdateTwice(s.tables, KeyOf(q), Lookup(states[0].tables, KeyOf(q)), Lookup(s.tables, KeyOf(q)));
    UpdateLookup(s.tables, KeyOf(q), Lookup(states[0].tables, KeyOf(q)));
    UpdateSame(s.tables, KeyOf(q));
    RefusedAfterIff(c, states, attempts, q);
  }
}
