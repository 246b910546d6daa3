/**
 The publisher of queued adverts (pkg/publisher/advertisementpublisher.go): a
 pending list, each advert with the undo of what generating it wrote, committed
 under one new head or undone newest first.
 */
module AdvertPublishers {
  import opened AdStores
  import opened Errors
  import opened Faults
  import opened GenerateAds
  import opened Ipld
  import opened Mappings
  import opened Publishing
  import opened PublishingLaws
  import opened Rollback
  import opened Sequences
  import opened Wrappers

  datatype PendingAd = PendingAd(adv: Advertisement, undo: Undo)

  function Advs(pending: seq<PendingAd>): (advs: seq<Advertisement>)
    ensures |advs| == |pending|
  {
    seq(|pending|, i requires 0 <= i < |pending| => pending[i].adv)
  }

  function Undos(pending: seq<PendingAd>): (undos: seq<Undo>)
    ensures |undos| == |pending|
  {
    seq(|pending|, i requires 0 <= i < |pending| => pending[i].undo)
  }

  /** The context IDs of the pending adverts in the order they are undone. */
  function UndoneIDs(pending: seq<PendingAd>): (ids: seq<ContextID>)
    ensures |ids| == |pending|
    ensures forall i :: 0 <= i < |ids| ==> ids[i] == pending[|pending| - 1 - i].adv.contextID
  {
    seq(|pending|, i requires 0 <= i < |pending| => pending[|pending| - 1 - i].adv.contextID)
  }

  /** The failures that a run of undos reports: one for each undo that failed,
      in the order they ran. */
  function Failures(pending: seq<PendingAd>, errs: seq<Option<Error>>): seq<Failure>
    requires |errs| <= |pending|
  {
    FailuresOf(UndoneIDs(pending), errs)
  }

  lemma SingleUndoRun(pa: PendingAd, run: UndoRun, t: Tables, t': Tables)
    requires IsUndoRun(Undos([pa]), run, t, t')
    ensures UndoStep(pa.undo, t, t', run.errs[0])
    ensures Failures([pa], run.errs) == if run.errs[0].Some? then [Failure(pa.adv.contextID, run.errs[0].value)] else []
  {
    assert UndoStep(Undos([pa])[1 - 1 - 0], run.trace[0], run.trace[1], run.errs[0]);
    assert run.errs == [run.errs[0]] && UndoneIDs([pa]) == [pa.adv.contextID];
    OneFailure(pa.adv.contextID, run.errs[0]);
  }

  /** The undos met the faults between the two logs. */
  ghost predicate RunLogged(run: UndoRun, before: Log, after: Log) {
    |run.logs| == |run.errs| + 1 && run.logs[0] == before && run.logs[|run.errs|] == after
  }

  /** A commit stops at its first fault, which is none of entries or mappings,
      and quotes its error exactly if it met it reading the head. */
  predicate CommitStopped(before: Log, after: Log, err: Option<Error>) {
    && Stopped(before, after, err, {AtHeadRead})
    && (err.Some? ==> after[|before|].site != AtEntries && after[|before|].site != AtMappings)
  }

  /** None of the errors that generating an advert alone may report. */
  predicate IsCommitError(e: Error) {
    !e.RollbackFailed? && !ReportsAsFound(e) && e != MISSING_ROW
  }

  /** A commit failed: on a fault, which its error's cause is about, and then
      every undo was run, those that failed being listed in the error. */
  ghost predicate CommitFailed(pending: seq<PendingAd>, e: Error, run: UndoRun, t: Tables, t': Tables, before: Log,
                               after: Log)
  {
    && IsUndoRun(Undos(pending), run, t, t')
    && e == WithFailures(CauseOf(e), Failures(pending, run.errs), |pending|)
    && IsCommitError(CauseOf(e))
    && CommitStopped(before, run.logs[0], Some(CauseOf(e)))
    && RunLogged(run, run.logs[0], after)
  }

  /** The cause of a failed commit is its first fault, whatever its undos met;
      and whether it timed out is decided by the faults: the first was a
      deadline, exceeded after the head was read, or an undo met one. */
  lemma CommitFaulted(pending: seq<PendingAd>, e: Error, run: UndoRun, t: Tables, t': Tables, before: Log, after: Log)
    requires CommitFailed(pending, e, run, t, t', before, after)
    ensures Faulted(before, after, e) && Faulted(before, after, CauseOf(e)) && run.logs[0] <= after
    ensures |run.logs[0]| == |before| + 1 && run.logs[0] == after[..|before| + 1]
    ensures Is(e, DeadlineExceeded) <==> TimedOutBy(before, after, {AtHeadRead}, |before| + 1)
    ensures Blamed(before, after, e, QUOTED)
  {
    LogsGrow(Undos(pending), run.errs, run.logs, 0, |pending|);
    RunTimedOut(Undos(pending), run, t, t', |pending|);
    TakeAll(run.errs);
    WithFailuresTimedOut(CauseOf(e), UndoneIDs(pending), run.errs, |pending|);
  }

  /** However it failed, publishing keeps every block, and the head is as it was
      or, if it may have moved, took the published one unacknowledged. */
  ghost predicate HeadMovedAtMost(s: State, published: State, s': State, may: bool) {
    && Sub(s.blocks, s'.blocks)
    && (s'.head == s.head || (may && s'.head == published.head && s'.blocks == published.blocks))
  }

  lemma MovedToAppended(s: State, stored: State, appended: State, s': State, may: bool)
    requires Sub(s.blocks, stored.blocks) && stored.tables == s.tables && stored.head == s.head
    requires appended == stored.(head := appended.head) && s' == stored.(head := s'.head)
    requires s'.head == s.head || s'.head == appended.head
    ensures s'.head == s.head || may ==> HeadMovedAtMost(s, appended, s', may)
    ensures s'.head == appended.head ==> s' == appended
  {
  }

  // ----- undoing what was generated -----

  /** The pending adverts were generated one after the other, each queued with
      the undo that generating it recorded; pre holds the states before each,
      and the one after the last. */
  ghost predicate GeneratedBy(c: Setup, pre: seq<State>, reqs: seq<Request>, pending: seq<PendingAd>) {
    && |reqs| == |pending| && |pre| == |pending| + 1
    && forall i :: 0 <= i < |pending| ==> GeneratedOne(c, pre[i], reqs[i], pending[i], pre[i + 1].tables)
  }

  ghost predicate GeneratedOne(c: Setup, s: State, q: Request, pa: PendingAd, t: Tables) {
    && Generate(c, s, q).Ok? && Generate(c, s, q).value.1 == pa.adv && Generate(c, s, q).value.0.tables == t
    && pa.undo == Restore(KeyOf(q), Lookup(s.tables, KeyOf(q)))
  }

  lemma GeneratedIsGeneration(c: Setup, s: State, q: Request, pa: PendingAd, t: Tables)
    requires GeneratedOne(c, s, q, pa, t)
    ensures Generation(s.tables, t, pa.undo)
  {
  }

  function TablesOf(states: seq<State>): (ts: seq<Tables>)
    ensures |ts| == |states| && forall i :: 0 <= i < |ts| ==> ts[i] == states[i].tables
  {
    seq(|states|, i requires 0 <= i < |states| => states[i].tables)
  }

  /** Adverts generated with their recorded undos, additions and removals alike
      and however context IDs repeat: when discarding them reports no failure
      the tables are those of before the first was generated. */
  lemma DiscardedIsAsFound(c: Setup, pre: seq<State>, reqs: seq<Request>, pending: seq<PendingAd>, run: UndoRun,
                           t': Tables)
    requires GeneratedBy(c, pre, reqs, pending) && IsUndoRun(Undos(pending), run, pre[|pending|].tables, t')
    requires Failures(pending, run.errs) == []
    ensures t' == pre[0].tables
  {
    forall i | 0 <= i < |pending|
      ensures Undos(pending)[i].Restore? && Generation(TablesOf(pre)[i], TablesOf(pre)[i + 1], Undos(pending)[i])
    {
      GeneratedIsGeneration(c, pre[i], reqs[i], pending[i], pre[i + 1].tables);
    }
    FailuresComplete(UndoneIDs(pending), run.errs);
    CleanRunIsExact(TablesOf(pre), Undos(pending), run, t');
  }

  /** So it is after a failed commit of them that names no mapping. */
  lemma FailedCommitIsAsFound(c: Setup, pre: seq<State>, reqs: seq<Request>, pending: seq<PendingAd>, e: Error,
                              run: UndoRun,
                              t': Tables, before: Log, after: Log)
    requires GeneratedBy(c, pre, reqs, pending) && !e.RollbackFailed?
    requires CommitFailed(pending, e, run, pre[|pending|].tables, t', before, after)
    ensures t' == pre[0].tables
  {
    DiscardedIsAsFound(c, pre, reqs, pending, run, t');
  }

  class AdvertisementPublisher {
    const store: AdStore
    const key: PrivKey
    const topic: string
    var pending: seq<PendingAd>

    constructor (store: AdStore, key: PrivKey, topic: string)
      ensures this.store == store && this.key == key && this.topic == topic && pending == []
    {
      this.store, this.key, this.topic := store, key, topic;
      pending := [];
    }

    ghost function C(): (c: Setup)
      ensures For(c, store) && c.key == key && c.topic == topic
    {
      Setup(store.hash, key, topic, store.chunkSize, store.identityEntries)
    }

    /** add: queues an advert with the undo that generating it recorded. */
    method Add(adv: Advertisement, undo: Undo)
      modifies this
      ensures pending == old(pending) + [PendingAd(adv, undo)]
    {
      pending := pending + [PendingAd(adv, undo)];
    }

    method AddToBatch(adv: Advertisement)
      modifies this
      ensures pending == old(pending) + [PendingAd(adv, Forget(adv))]
    {
      Add(adv, Forget(adv));
    }

    /** Commit: publishes the pending adverts under one new head. It fails on a
        fault and then runs every undo, newest first, and its error is the
        commit's with each undo that failed beside it. Nothing stays pending
        either way. */
    method Commit() returns (r: Result<Option<Link>>, ghost run: UndoRun)
      requires store.Valid()
      modifies this, store
      ensures store.Valid() && pending == []
      ensures r.Ok? ==>
        && store.S() == Append(C(), old(store.S()), Advs(old(pending))) && store.faults == old(store.faults)
        && r.value == HeadLink(store.head)
      ensures r.Err? ==>
        && HeadMovedAtMost(old(store.S()), Append(C(), old(store.S()), Advs(old(pending))), store.S(),
                           MayMove(store.atomicHead, old(store.faults), store.faults))
        && CommitFailed(old(pending), r.error, run, old(store.Tables()), store.Tables(), old(store.faults),
                        store.faults)
    {
      var ads := pending;
      pending := [];
      var lnk := CommitAds(Advs(ads));
      if lnk.Ok? {
        return lnk, UndoRun([], [], []);
      }
      var failures;
      failures, run := UndoAll(ads);
      LogsGrow(Undos(ads), run.errs, run.logs, 0, |ads|);
      return Err(WithFailures(lnk.error, failures, |ads|)), run;
    }

    /** Discard: drops the pending adverts and undoes what generating them
        wrote. */
    method Discard() returns (failures: seq<Failure>, ghost run: UndoRun)
      modifies this, store`chunkLinks, store`metas, store`faults
      ensures pending == []
      ensures IsUndoRun(Undos(old(pending)), run, old(store.Tables()), store.Tables())
      ensures RunLogged(run, old(store.faults), store.faults)
      ensures failures == Failures(old(pending), run.errs)
    {
      var ads := pending;
      pending := [];
      failures, run := UndoAll(ads);
    }

    /** undoAll: runs the undos, newest first, and lists those that failed. */
    method UndoAll(ads: seq<PendingAd>) returns (failures: seq<Failure>, ghost run: UndoRun)
      modifies store`chunkLinks, store`metas, store`faults
      ensures IsUndoRun(Undos(ads), run, old(store.Tables()), store.Tables())
      ensures RunLogged(run, old(store.faults), store.faults)
      ensures failures == Failures(ads, run.errs)
    {
      failures := [];
      ghost var trace, errs, logs := [store.Tables()], [], [store.faults];
      var i := |ads|;
      while i > 0
        invariant 0 <= i <= |ads|
        invariant |errs| == |ads| - i && |trace| == |errs| + 1 && LogsKept(Undos(ads), errs, logs)
        invariant trace[0] == old(store.Tables()) && trace[|errs|] == store.Tables()
        invariant logs[0] == old(store.faults) && logs[|errs|] == store.faults
        invariant failures == Failures(ads, errs)
        invariant forall j :: 0 <= j < |errs| ==>
          UndoStep(Undos(ads)[|ads| - 1 - j], trace[j], trace[j + 1], errs[j])
      {
        i := i - 1;
        var err := RunUndo(store, ads[i].undo);
        if err.Some? {
          failures := failures + [Failure(ads[i].adv.contextID, err.value)];
        }
        InitAndLast(errs, err);
        LogsOneMore(Undos(ads), errs, logs, err, store.faults);
        trace, errs, logs := trace + [store.Tables()], errs + [err], logs + [store.faults];
      }
      run := UndoRun(trace, errs, logs);
    }

    /** commit: signs the adverts over one another, stores them in order and
        moves the head. */
    method CommitAds(advs: seq<Advertisement>) returns (r: Result<Option<Link>>)
      requires store.Valid()
      modifies store`blocks, store`head, store`faults
      ensures store.Valid()
      ensures r.Ok? ==> store.S() == Append(C(), old(store.S()), advs) && r.value == HeadLink(store.head)
      ensures r.Err? ==>
        && HeadMovedAtMost(old(store.S()), Append(C(), old(store.S()), advs), store.S(),
                           MayMove(store.atomicHead, old(store.faults), store.faults))
        && IsCommitError(r.error)
      ensures CommitStopped(old(store.faults), store.faults, ErrorIn(r))
    {
      var prevHead := store.HeadIfAny();
      if prevHead.Err? {
        QuotedStops(old(store.faults), store.faults, prevHead.error, AtHeadRead, {AtHeadRead});
        return Err(Hidden(prevHead.error));
      }
      if advs == [] {
        return Ok(HeadLink(prevHead.value));
      }
      r := CommitOver(advs, prevHead.value, Append(C(), store.S(), advs));
    }

    /** The rest of commit, once the head is read. */
    method CommitOver(advs: seq<Advertisement>, was: Option<SignedHead>, ghost appended: State)
      returns (r: Result<Option<Link>>)
      requires store.Valid() && advs != [] && was == store.head && appended == Append(C(), store.S(), advs)
      modifies store`blocks, store`head, store`faults
      ensures store.Valid()
      ensures r.Ok? ==> store.S() == appended && r.value == HeadLink(store.head)
      ensures r.Err? ==>
        && HeadMovedAtMost(old(store.S()), appended, store.S(),
                           MayMove(store.atomicHead, old(store.faults), store.faults))
        && IsCommitError(r.error)
      ensures CommitStopped(old(store.faults), store.faults, ErrorIn(r))
    {
      var lnk := PutLinked(advs, HeadLink(was), appended);
      if lnk.Err? {
        return Err(lnk.error);
      }
      ghost var before := store.S();
      var e := MoveHead(was, lnk.value);
      MovedToAppended(old(store.S()), before, appended, store.S(),
                      MayMove(store.atomicHead, old(store.faults), store.faults));
      if e.Some? {
        WrappedStops(old(store.faults), store.faults, e.value, {AtHeadRead});
        return Err(Wrap(e.value));
      }
      return Ok(Some(lnk.value));
    }

    method MoveHead(was: Option<SignedHead>, top: Link) returns (err: Option<Error>)
      requires store.Valid() && was == store.head
      requires exists advs :: AdvertChain(store.blocks, Some(top), advs)
      modifies store`head, store`faults
      ensures store.Valid()
      ensures store.head == old(store.head) || store.head == Some(SignedHead(top, topic, key))
      ensures err.None? ==> store.head == Some(SignedHead(top, topic, key))
      ensures err.Some? && store.head != old(store.head) ==> MayMove(store.atomicHead, old(store.faults), store.faults)
      ensures err.Some? ==> Foreign(err.value)
      ensures CommitStopped(old(store.faults), store.faults, err)
    {
      var unsigned := store.MayFail();   // signing the head fails
      if unsigned.Some? {
        ShownStops(old(store.faults), store.faults, unsigned.value, OffStore, {AtHeadRead});
        return Some(unsigned.value);
      }
      err := store.ReplaceHead(was, SignedHead(top, topic, key));
      if err.Some? {
        ShownStops(old(store.faults), store.faults, err.value, store.faults[|old(store.faults)|].site, {AtHeadRead});
      }
    }

    /** Signs and stores the adverts in order, each linking to the one before,
        and returns the link of the last. */
    method PutLinked(advs: seq<Advertisement>, prev: Option<Link>, ghost appended: State) returns (r: Result<Link>)
      requires store.Valid() && advs != [] && prev == HeadLink(store.head) && appended == Append(C(), store.S(), advs)
      modifies store`blocks, store`faults
      ensures store.Valid() && Sub(old(store.blocks), store.blocks)
      ensures r.Ok? ==>
        && appended == store.S().(head := Some(SignedHead(r.value, topic, key)))
        && exists chain :: AdvertChain(store.blocks, Some(r.value), chain)
      ensures r.Err? ==> Foreign(r.error)
      ensures CommitStopped(old(store.faults), store.faults, ErrorIn(r))
    {
      ghost var c, s0, m0 := C(), store.S(), store.blocks;
      ghost var past :| AdvertChain(m0, prev, past);
      var prevLink := prev;
      for i := 0 to |advs|
        invariant store.Valid() && Sub(m0, store.blocks) && store.faults == old(store.faults)
        invariant LinkedSoFar(c, m0, prev, advs[..i], store.blocks, prevLink)
      {
        LinkedOneMore(c, m0, prev, past, advs, i, store.blocks, prevLink);
        var lnk := PutSigned(advs[i], prevLink);
        if lnk.Err? {
          return Err(lnk.error);
        }
        prevLink := Some(lnk.value);
      }
      TakeAll(advs);
      LinkedIsAppended(c, s0, advs, store.blocks, prevLink.value);
      return Ok(prevLink.value);
    }

    method PutSigned(draft: Advertisement, prev: Option<Link>) returns (r: Result<Link>)
      requires store.Valid() && NextStored(store.blocks, Advert(Sign(key, prev, draft)))
      modifies store`blocks, store`faults
      ensures store.Valid() && Sub(old(store.blocks), store.blocks)
      ensures r.Ok? ==>
        var adv := Sign(key, prev, draft);
        && r.value == AdvertLink(store.hash, adv)
        && store.blocks == PutAll(store.hash, old(store.blocks), [Advert(adv)])
      ensures r.Err? ==> Foreign(r.error)
      ensures CommitStopped(old(store.faults), store.faults, ErrorIn(r))
    {
      var adv := Sign(key, prev, draft);
      var refused := store.MayFail();   // signing or validating the advert fails
      if refused.Some? {
        ShownStops(old(store.faults), store.faults, refused.value, OffStore, {AtHeadRead});
        return Err(refused.value);
      }
      r := store.PutAdvert(adv);
      if r.Err? {
        ShownStops(old(store.faults), store.faults, r.error, AtAdverts, {AtHeadRead});
      }
    }
  }
}
