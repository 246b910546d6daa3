/**
 Publishing one advert or a batch of them (pkg/publisher/publisher.go and
 publishBatch in pkg/publisher/batch.go). Both are proved against the same
 meaning, `PublishAll`, although one writes its mappings before its advert and
 the other plans every advert in memory first.
 */
module Publishers {
  import opened AdStores
  import opened AdvertPublishers
  import opened BatchStores
  import opened Errors
  import opened Faults
  import opened GenerateAds
  import opened Ipld
  import opened Mappings
  import opened Publishing
  import opened PublishingLaws
  import opened Rollback
  import opened Sequences
  import opened Wrappers

  /** A failed publish with nothing to report: the tables and the head are as
      they were; or, if the head may have moved, its write took effect
      unacknowledged, and then only the tables are. */
  ghost predicate FailedCleanly(h: Hash, s: State, published: State, s': State, may: bool) {
    || LeftAsFound(h, s, s')
    || (may && Sub(s.blocks, s'.blocks) && s' == published.(tables := s.tables))
  }

  /** Every key of which no failure is reported is mapped as it was. */
  ghost predicate RestoredButFor(p: Peer, t: Tables, failures: seq<Failure>, t': Tables) {
    forall k: Key :: (k.provider != p || forall f: Failure :: f in failures ==> f.contextID != k.contextID) ==>
      Lookup(t', k) == Lookup(t, k)
  }

  /** Every row is the one it was or the one publishing is to leave. */
  ghost predicate OldOrNew(t: Tables, published: Tables, t': Tables) {
    forall k :: RowsOldOrNew(Lookup(t, k), Lookup(published, k), Lookup(t', k))
  }

  predicate RowsOldOrNew(before: Record, after: Record, r: Record) {
    (r.chunk == before.chunk || r.chunk == after.chunk) && (r.meta == before.meta || r.meta == after.meta)
  }

  /** Every failure reported names a context ID of the call, and is about a fault
      that writing its record back met. */
  ghost predicate RealFailures(ids: seq<ContextID>, failures: seq<Failure>, faults: Log, n: nat) {
    forall f :: f in failures ==> f.contextID in ids && Reported(faults, n, f.err)
  }

  /** How publishing may fail: cleanly, or naming every context ID whose record
      could not be put back, no row being mapped to entries that are not stored.
      The head moves only if it may. The faults of putting records back are
      those from the n-th on. */
  ghost predicate FailedPublish(h: Hash, p: Peer, ids: seq<ContextID>, s: State, published: State, e: Error,
                                s': State, may: bool,
                                faults: Log, n: nat)
  {
    match e
    case RollbackFailed(_, failures, _) =>
      && HeadMovedAtMost(s, published, s', may)
      && failures != [] && RealFailures(ids, failures, faults, n)
      && RestoredButFor(p, s.tables, failures, s'.tables)
      && OldOrNew(s.tables, published.tables, s'.tables)
      && NewRowsStored(s.tables, s'.blocks, s'.tables)
    case _ => FailedCleanly(h, s, published, s', may)
  }

  /** A failure before any record or the head was written. */
  lemma FailedBeforeCommit(h: Hash, p: Peer, ids: seq<ContextID>, s: State, published: State, e: Error, s': State,
                           may: bool, before: Log, after: Log)
    requires !e.RollbackFailed? && Inv(h, s') && Stopped(before, after, Some(e), BATCH_QUOTED)
    requires s'.tables == s.tables && s'.head == s.head && Sub(s.blocks, s'.blocks)
    ensures FailedPublish(h, p, ids, s, published, e, s', may, after, |before| + 1)
    ensures Blamed(before, after, e, BATCH_QUOTED)
  {
  }

  /** Rows old or new link to stored entries if the published ones do. */
  lemma OldOrNewRowsStored(t: Tables, published: State, blocks: Blocks, t': Tables)
    requires OldOrNew(t, published.tables, t') && NewRowsStored(t, published.blocks, published.tables)
    requires Sub(published.blocks, blocks)
    ensures NewRowsStored(t, blocks, t')
  {
    NewRowsStoredGrow(t, published.blocks, blocks, published.tables);
    forall k ensures NewRowStored(t, blocks, t', k) {
      assert NewRowStored(t, blocks, published.tables, k);
      assert RowsOldOrNew(Lookup(t, k), Lookup(published.tables, k), Lookup(t', k));
    }
  }

  // ----- planning a batch -----

  /** A plan in progress: the changes and drafts planned so far, on top of the
      blocks written so far, publish the specs planned so far. */
  ghost predicate Planned(c: Setup, s0: State, p: AddrInfo, specs: seq<AdvertSpec>, changes: seq<ContextChange>,
                          drafts: seq<Advertisement>, m: Blocks)
  {
    Plans(c, s0, p.id, changes, drafts, m, PublishAll(c, s0, p, specs))
  }

  /** Applying the changes and drafts on top of the blocks m leaves published. */
  ghost predicate Plans(c: Setup, s0: State, p: Peer, changes: seq<ContextChange>, drafts: seq<Advertisement>,
                        m: Blocks, published: State)
  {
    && Distinct(changes)
    && Describes(p, s0.tables, changes)
    && published == Append(c, State(m, s0.head, Applied(p, s0.tables, changes)), drafts)
    && (drafts == [] ==> changes == [] && m == s0.blocks)
  }

  /** changeIndex finds every change, and nothing else, by its context ID. */
  ghost predicate Indexes(changeIndex: map<ContextID, nat>, changes: seq<ContextChange>) {
    && (forall id :: id in changeIndex ==> changeIndex[id] < |changes| && changes[changeIndex[id]].contextID == id)
    && (forall i :: 0 <= i < |changes| ==>
      changes[i].contextID in changeIndex && changeIndex[changes[i].contextID] == i)
  }

  /** The record that planning goes on from is the one publishing the specs so
      far would have left in the tables. */
  lemma PlanLookup(p: Peer, t: Tables, changes: seq<ContextChange>, changeIndex: map<ContextID, nat>, id: ContextID)
    requires Distinct(changes) && Indexes(changeIndex, changes)
    ensures
      Lookup(Applied(p, t, changes), Key(p, id)) ==
      if id in changeIndex then changes[changeIndex[id]].after else Lookup(t, Key(p, id))
  {
    AppliedLookup(p, t, changes, Key(p, id));
    if id in changeIndex {
      assert Key(p, changes[changeIndex[id]].contextID) == Key(p, id);
    }
  }

  /** The changes and their index once id holds next: one change a context ID,
      from the record it was loaded with to the one its last advert leaves. */
  function Change(changes: seq<ContextChange>, changeIndex: map<ContextID, nat>, id: ContextID, current: Record,
                  next: Record): seq<ContextChange>
    requires id in changeIndex ==> changeIndex[id] < |changes|
  {
    if id in changeIndex then changes[changeIndex[id] := changes[changeIndex[id]].(after := next)]
    else changes + [ContextChange(id, current, next)]
  }

  function Reindex(changes: seq<ContextChange>, changeIndex: map<ContextID, nat>, id: ContextID): map<ContextID, nat> {
    if id in changeIndex then changeIndex else changeIndex[id := |changes|]
  }

  lemma ChangeAdvances(p: Peer, t: Tables, changes: seq<ContextChange>, changeIndex: map<ContextID, nat>,
                       id: ContextID, current: Record, next: Record)
    requires Distinct(changes) && Describes(p, t, changes) && Indexes(changeIndex, changes)
    requires current == if id in changeIndex then changes[changeIndex[id]].after else Lookup(t, Key(p, id))
    ensures
      var changes' := Change(changes, changeIndex, id, current, next);
      var changeIndex' := Reindex(changes, changeIndex, id);
      && Distinct(changes') && Describes(p, t, changes') && Indexes(changeIndex', changes')
      && Applied(p, t, changes') == Update(Applied(p, t, changes), Key(p, id), next)
  {
    var changes' := Change(changes, changeIndex, id, current, next);
    if id in changeIndex {
      AppliedReplace(p, t, changes, changeIndex[id], next);
    } else {
      assert changes'[..|changes|] == changes;
    }
  }

  /** The record that a spec is planned from: the one planned for its context
      ID already, or the one loaded. */
  function Current(t: Tables, p: Peer, changes: seq<ContextChange>, changeIndex: map<ContextID, nat>,
                   id: ContextID): Record
    requires id in changeIndex ==> changeIndex[id] < |changes|
  {
    if id in changeIndex then changes[changeIndex[id]].after else Lookup(t, Key(p, id))
  }

  lemma PublishAllOneMore(c: Setup, s: State, p: AddrInfo, specs: seq<AdvertSpec>, i: nat)
    requires i < |specs|
    ensures PublishAll(c, s, p, specs[..i + 1]) == PublishSpec(c, PublishAll(c, s, p, specs[..i]), p, specs[i])
  {
    TakeOneMore(specs, i);
    InitAndLast(specs[..i], specs[i]);
  }

  /** The invariant of the planning loop. */
  ghost predicate PlannedSoFar(c: Setup, s0: State, p: AddrInfo, specs: seq<AdvertSpec>, i: nat,
                               changeIndex: map<ContextID, nat>,
                               changes: seq<ContextChange>, drafts: seq<Advertisement>, advs: seq<Advertisement>,
                               prevLink: Option<Link>, m: Blocks)
  {
    && i <= |specs|
    && Indexes(changeIndex, changes) && ChangesOf(ContextIDs(specs), changes)
    && Planned(c, s0, p, specs[..i], changes, drafts, m)
    && advs == LinkAll(c, HeadLink(s0.head), drafts) && prevLink == TopAdvert(c.hash, HeadLink(s0.head), advs)
  }

  lemma PlanStart(c: Setup, s0: State, p: AddrInfo, specs: seq<AdvertSpec>)
    ensures PlannedSoFar(c, s0, p, specs, 0, map[], [], [], [], HeadLink(s0.head), s0.blocks)
  {
  }

  lemma PlanEnd(c: Setup, s0: State, p: AddrInfo, specs: seq<AdvertSpec>, changeIndex: map<ContextID, nat>,
                changes: seq<ContextChange>,
                drafts: seq<Advertisement>, advs: seq<Advertisement>, prevLink: Option<Link>, m: Blocks)
    requires PlannedSoFar(c, s0, p, specs, |specs|, changeIndex, changes, drafts, advs, prevLink, m)
    ensures Planned(c, s0, p, specs, changes, drafts, m) && ChangesOf(ContextIDs(specs), changes)
    ensures advs == LinkAll(c, HeadLink(s0.head), drafts) && prevLink == TopAdvert(c.hash, HeadLink(s0.head), advs)
  {
    TakeAll(specs);
  }

  /** A spec that is already advertised leaves the plan as it is. */
  lemma PlanSkip(c: Setup, s0: State, p: AddrInfo, specs: seq<AdvertSpec>, i: nat, changeIndex: map<ContextID, nat>,
                 changes: seq<ContextChange>, drafts: seq<Advertisement>, advs: seq<Advertisement>,
                 prevLink: Option<Link>, m: Blocks)
    requires Injective(c.hash) && i < |specs|
    requires PlannedSoFar(c, s0, p, specs, i, changeIndex, changes, drafts, advs, prevLink, m)
    requires
      PlannedOne(c, RequestOf(p, specs[i]), Current(s0.tables, p.id, changes, changeIndex, specs[i].contextID),
                 prevLink, None, m, m)
    ensures PlannedSoFar(c, s0, p, specs, i + 1, changeIndex, changes, drafts, advs, prevLink, m)
  {
    PlanLookup(p.id, s0.tables, changes, changeIndex, specs[i].contextID);
    PublishAllOneMore(c, s0, p, specs, i);
    PublishOverPlan(c, State(m, s0.head, Applied(p.id, s0.tables, changes)), drafts, RequestOf(p, specs[i]));
  }

  /** A spec that needs an advert: its record changes, its entries are written,
      and its advert is linked to the last. */
  lemma PlanAdvance(c: Setup, s0: State, p: AddrInfo, specs: seq<AdvertSpec>, i: nat, changeIndex: map<ContextID, nat>,
                    changes: seq<ContextChange>, drafts: seq<Advertisement>, advs: seq<Advertisement>,
                    prevLink: Option<Link>, m: Blocks,
                    current: Record, next: Record, adv: Advertisement, m': Blocks)
    requires Injective(c.hash) && i < |specs|
    requires PlannedSoFar(c, s0, p, specs, i, changeIndex, changes, drafts, advs, prevLink, m)
    requires current == Current(s0.tables, p.id, changes, changeIndex, specs[i].contextID)
    requires PlannedOne(c, RequestOf(p, specs[i]), current, prevLink, Some((next, adv)), m, m')
    ensures
      PlannedSoFar(c, s0, p, specs, i + 1, Reindex(changes, changeIndex, specs[i].contextID),
                   Change(changes, changeIndex, specs[i].contextID, current, next),
                   drafts + [Draft(RequestOf(p, specs[i]), next.chunk.value, specs[i].metadata)], advs + [adv],
                   Some(AdvertLink(c.hash, adv)), m')
  {
    var q := RequestOf(p, specs[i]);
    PlanLookup(p.id, s0.tables, changes, changeIndex, q.contextID);
    ChangeAdvances(p.id, s0.tables, changes, changeIndex, q.contextID, current, next);
    ChangeWithin(ContextIDs(specs), changes, changeIndex, q.contextID, current, next);
    PublishAllOneMore(c, s0, p, specs, i);
    PublishOverPlan(c, State(m, s0.head, Applied(p.id, s0.tables, changes)), drafts, q);
    LinkAllAppend(c, HeadLink(s0.head), drafts, Draft(q, next.chunk.value, q.metadata));
  }

  /** What planning a spec makes of the record current: its next record and its
      signed advert, with its entries written if it is new; or nothing. */
  ghost predicate PlannedOne(c: Setup, q: Request, current: Record, prevLink: Option<Link>,
                             planned: Option<(Record, Advertisement)>, m: Blocks, m': Blocks)
  {
    match planned
    case Some((next, adv)) =>
      && NextRecord(current, q.metadata, FreshLink(c, q)) == Some(next)
      && m' == PutAll(c.hash, m, if current.chunk.Some? then [] else FreshBlocks(c, q))
      && adv == Sign(c.key, prevLink, Draft(q, next.chunk.value, q.metadata))
    case None => NextRecord(current, q.metadata, FreshLink(c, q)).None? && m' == m
  }

  lemma ChangeWithin(ids: seq<ContextID>, changes: seq<ContextChange>, changeIndex: map<ContextID, nat>,
                     id: ContextID, current: Record, next: Record)
    requires ChangesOf(ids, changes) && Indexes(changeIndex, changes) && id in ids
    ensures ChangesOf(ids, Change(changes, changeIndex, id, current, next))
  {
  }

  /** Committing a plan, once its adverts are written, is publishing its specs. */
  lemma PlanCommits(c: Setup, s0: State, p: Peer, changes: seq<ContextChange>, drafts: seq<Advertisement>, m: Blocks,
                    m': Blocks, published: State, top: Link)
    requires Plans(c, s0, p, changes, drafts, m, published) && drafts != []
    requires Inv(c.hash, State(m, s0.head, s0.tables))
    requires m' == PutAll(c.hash, m, AdvertBlocks(LinkAll(c, HeadLink(s0.head), drafts)))
    requires Some(top) == TopAdvert(c.hash, HeadLink(s0.head), LinkAll(c, HeadLink(s0.head), drafts))
    ensures PlanWritten(c, s0, p, changes, m', top, published)
  {
    LinkedIsAppended(c, State(m, s0.head, s0.tables), drafts, m', top);
  }

  /** The adverts of a plan are written up to top: with its records and its head
      the store is as published. */
  ghost predicate PlanWritten(c: Setup, s0: State, p: Peer, changes: seq<ContextChange>, m: Blocks, top: Link,
                              published: State)
  {
    && Distinct(changes) && Describes(p, s0.tables, changes)
    && (exists advs :: AdvertChain(m, Some(top), advs))
    && published == State(m, Some(SignedHead(top, c.topic, c.key)), Applied(p, s0.tables, changes))
  }

  lemma HeadOfPlan(c: Setup, s0: State, p: AddrInfo, specs: seq<AdvertSpec>, changes: seq<ContextChange>,
                   drafts: seq<Advertisement>,
                   m: Blocks, top: Link)
    requires Planned(c, s0, p, specs, changes, drafts, m) && drafts != []
    requires Some(top) == TopAdvert(c.hash, HeadLink(s0.head), LinkAll(c, HeadLink(s0.head), drafts))
    ensures HeadLink(PublishAll(c, s0, p, specs).head) == Some(top)
  {
  }

  /** The changes are of these context IDs. */
  ghost predicate ChangesOf(ids: seq<ContextID>, changes: seq<ContextChange>) {
    forall i :: 0 <= i < |changes| ==> changes[i].contextID in ids
  }

  /** What a failed commit of a batch leaves and reports of the tables. */
  lemma FailedCommit(p: Peer, ids: seq<ContextID>, changes: seq<ContextChange>, t: Tables, t': Tables,
                     errs: seq<Option<Error>>, faults: Log, n: nat)
    requires Distinct(changes) && Describes(p, t, changes) && WrittenBack(p, changes, t, t', errs)
    requires ChangesOf(ids, changes) && AllReported(errs, faults, n)
    ensures RestoreFailures(changes, errs) == [] ==> t' == t
    ensures RestoredButFor(p, t, RestoreFailures(changes, errs), t')
    ensures OldOrNew(t, Applied(p, t, changes), t')
    ensures RealFailures(ids, RestoreFailures(changes, errs), faults, n)
  {
    RestoreFailuresExact(changes, errs);
    if RestoreFailures(changes, errs) == [] {
      AllRestoredIsAsFound(p, changes, t, t', errs);
    }
    FailedCommitRestores(p, changes, t, t', errs);
    FailedCommitRows(p, changes, t, t', errs);
  }

  lemma FailedCommitRestores(p: Peer, changes: seq<ContextChange>, t: Tables, t': Tables, errs: seq<Option<Error>>)
    requires Describes(p, t, changes) && WrittenBack(p, changes, t, t', errs)
    ensures RestoredButFor(p, t, RestoreFailures(changes, errs), t')
  {
    var failures := RestoreFailures(changes, errs);
    RestoreFailuresExact(changes, errs);
    forall k: Key | k.provider != p || forall f: Failure :: f in failures ==> f.contextID != k.contextID
      ensures Lookup(t', k) == Lookup(t, k)
    {
      if Changes(p, changes, k) {
        var i :| 0 <= i < |changes| && Key(p, changes[i].contextID) == k;
        assert WrittenBackAt(p, changes[i], t', i >= |errs| || errs[i].None?);
        assert i < |errs| && errs[i].Some? ==> Failure(changes[i].contextID, errs[i].value) in failures;
      }
    }
  }

  lemma FailedCommitRows(p: Peer, changes: seq<ContextChange>, t: Tables, t': Tables, errs: seq<Option<Error>>)
    requires Distinct(changes) && Describes(p, t, changes) && WrittenBack(p, changes, t, t', errs)
    ensures OldOrNew(t, Applied(p, t, changes), t')
  {
    forall k ensures RowsOldOrNew(Lookup(t, k), Lookup(Applied(p, t, changes), k), Lookup(t', k)) {
      AppliedLookup(p, t, changes, k);
      if Changes(p, changes, k) {
        var i :| 0 <= i < |changes| && Key(p, changes[i].contextID) == k;
        assert WrittenBackAt(p, changes[i], t', i >= |errs| || errs[i].None?);
      }
    }
  }

  function ContextIDs(specs: seq<AdvertSpec>): (ids: seq<ContextID>)
    ensures |ids| == |specs|
    ensures forall i :: 0 <= i < |ids| ==> ids[i] == specs[i].contextID
  {
    seq(|specs|, i requires 0 <= i < |specs| => specs[i].contextID)
  }

  /** Rows of the request's key left old or new, with that reported, are a
      publish that failed. */
  lemma HalfGeneratedIsFailedPublish(c: Setup, q: Request, s: State, e: Error, s': State, may: bool, faults: Log,
                                     n: nat)
    requires Inv(c.hash, s) && e.RollbackFailed? && HeadMovedAtMost(s, PublishOne(c, s, q), s', may)
    requires UndoneGeneration(c, s, q, e, s'.blocks, s'.tables, faults, n)
    ensures FailedPublish(c.hash, q.provider.id, [q.contextID], s, PublishOne(c, s, q), e, s', may, faults, n)
  {
    assert PublishOne(c, s, q).tables == Generate(c, s, q).value.0.tables;
    RowsWithinAreOldOrNew(s.tables, PublishOne(c, s, q).tables, s'.tables, KeyOf(q));
    OneNamed(q, e.failures, s.tables, s'.tables);
    HalfGeneratedIsStored(c, s, q, s'.blocks, s'.tables);
  }

  lemma HalfGeneratedIsStored(c: Setup, s: State, q: Request, m: Blocks, t: Tables)
    requires Inv(c.hash, s) && HalfGenerated(c, s, q, m, t)
    ensures NewRowsStored(s.tables, m, t)
  {
    var s1 := Generate(c, s, q).value.0;
    GenerateStoresEntries(c, s, q);
    forall k ensures NewRowStored(s.tables, m, t, k) {
      if Lookup(t, k).chunk != Lookup(s.tables, k).chunk {
        NewRowsStoredGrow(s.tables, s1.blocks, m, s1.tables);
        assert NewRowStored(s.tables, m, s1.tables, k);
      }
    }
  }

  lemma RowsWithinAreOldOrNew(t: Tables, published: Tables, t': Tables, k: Key)
    requires RowsWithin(t, t', k, Lookup(published, k))
    ensures OldOrNew(t, published, t')
  {
  }

  lemma OneNamed(q: Request, failures: seq<Failure>, t: Tables, t': Tables)
    requires |failures| == 1 && failures[0].contextID == q.contextID && OnlyKey(t, t', KeyOf(q))
    ensures RestoredButFor(q.provider.id, t, failures, t')
    ensures forall f :: f in failures ==> f == failures[0]
  {
    assert failures[0] in failures;
  }

  /** A commit of one generated advert failed. */
  ghost predicate GeneratedFailed(c: Setup, q: Request, s: State, s1: State, pa: PendingAd, e: Error, run: UndoRun,
                                  s': State, may: bool, before: Log, after: Log)
  {
    && Inv(c.hash, s) && Generate(c, s, q) == Ok((s1, pa.adv))
    && pa.undo == Restore(KeyOf(q), Lookup(s.tables, KeyOf(q)))
    && Inv(c.hash, s') && HeadMovedAtMost(s1, Append(c, s1, [pa.adv]), s', may)
    && CommitFailed([pa], e, run, s1.tables, s'.tables, before, after)
  }

  /** A commit of one generated advert that failed is a publish that failed. */
  lemma FailedGenerated(c: Setup, q: Request, s: State, s1: State, pa: PendingAd, e: Error, run: UndoRun, s': State,
                        may: bool, before: Log, after: Log)
    requires GeneratedFailed(c, q, s, s1, pa, e, run, s', may, before, after)
    ensures FailedPublish(c.hash, q.provider.id, [q.contextID], s, PublishOne(c, s, q), e, s', may, after, |before| + 1)
    ensures Blamed(before, after, e, QUOTED)
  {
    CommitFaulted([pa], e, run, s1.tables, s'.tables, before, after);
    if e.RollbackFailed? {
      GeneratedNotUndone(c, q, s, s1, pa, e, run, s', may, before, after);
    } else {
      GeneratedUndone(c, q, s, s1, pa, e, run, s', may, before, after);
    }
  }

  lemma GeneratedNotUndone(c: Setup, q: Request, s: State, s1: State, pa: PendingAd, e: Error, run: UndoRun, s': State,
                           may: bool, before: Log, after: Log)
    requires GeneratedFailed(c, q, s, s1, pa, e, run, s', may, before, after) && e.RollbackFailed?
    ensures FailedPublish(c.hash, q.provider.id, [q.contextID], s, PublishOne(c, s, q), e, s', may, after, |before| + 1)
  {
    SingleUndoReported(pa, e, run, s1.tables, s'.tables, before, after);
    SingleUndoRun(pa, run, s1.tables, s'.tables);
    GeneratedIsHalf(c, s, q);
    GeneratedIsSound(c, s, q);
    UndoingHalfGenerated(c, s, q, s1.blocks, s1.tables, s'.tables, run.errs[0]);
    HalfGeneratedIsFailedPublish(c, q, s, e, s', may, after, |before| + 1);
  }

  lemma SingleUndoReported(pa: PendingAd, e: Error, run: UndoRun, t: Tables, t': Tables, before: Log, after: Log)
    requires CommitFailed([pa], e, run, t, t', before, after) && e.RollbackFailed? && pa.undo.Restore?
    ensures |run.errs| == 1 && run.errs[0].Some? && Reported(after, |before| + 1, run.errs[0].value)
    ensures e.failures == [Failure(pa.adv.contextID, run.errs[0].value)]
  {
    CommitFaulted([pa], e, run, t, t', before, after);
    SingleUndoRun(pa, run, t, t');
    assert !CannotUndo(Undos([pa])[1 - 1 - 0]);
    UndoErrorReported(Undos([pa]), run, t, t', 0);
    ReportedSooner(after, |before| + 1, |run.logs[0]|, run.errs[0].value);
  }

  lemma GeneratedUndone(c: Setup, q: Request, s: State, s1: State, pa: PendingAd, e: Error, run: UndoRun, s': State,
                        may: bool, before: Log, after: Log)
    requires GeneratedFailed(c, q, s, s1, pa, e, run, s', may, before, after) && !e.RollbackFailed?
    ensures FailedCleanly(c.hash, s, PublishOne(c, s, q), s', may)
  {
    SingleUndoRun(pa, run, s1.tables, s'.tables);
    GeneratedIsHalf(c, s, q);
    GeneratedIsSound(c, s, q);
    UndoingHalfGenerated(c, s, q, s1.blocks, s1.tables, s'.tables, run.errs[0]);
    UndoneIsClean(c.hash, s, s1, Append(c, s1, [pa.adv]), s', may);
  }

  lemma UndoneIsClean(h: Hash, s: State, s1: State, published: State, s': State, may: bool)
    requires Inv(h, s') && s'.tables == s.tables && s1.head == s.head && Sub(s.blocks, s1.blocks)
    requires HeadMovedAtMost(s1, published, s', may)
    ensures FailedCleanly(h, s, published, s', may)
  {
  }

  lemma GeneratedIsHalf(c: Setup, s: State, q: Request)
    requires Generate(c, s, q).Ok?
    ensures HalfGenerated(c, s, q, Generate(c, s, q).value.0.blocks, Generate(c, s, q).value.0.tables)
    ensures Generate(c, s, q).value.1.contextID == q.contextID && Generate(c, s, q).value.0.head == s.head
  {
  }

  class IPNIPublisher {
    const store: AdStore
    const batchPublisher: AdvertisementPublisher
    const batchStore: PerItemBatchStore

    constructor (store: AdStore, key: PrivKey, topic: string)
      requires store.Valid()
      ensures this.store == store && Valid()
      ensures batchPublisher.key == key && batchPublisher.topic == topic
      ensures fresh(batchPublisher) && fresh(batchStore)
    {
      this.store := store;
      batchPublisher := new AdvertisementPublisher(store, key, topic);
      batchStore := new PerItemBatchStore(store);
    }

    ghost predicate Valid()
      reads this, batchPublisher, batchPublisher.store`blocks, batchPublisher.store`head
    {
      && batchPublisher.store == store && batchStore.store == store
      && batchPublisher.pending == []
      && store.Valid()
    }

    ghost function C(): (c: Setup)
      requires batchPublisher.store == store
      ensures For(c, store) && c.key == batchPublisher.key && c.topic == batchPublisher.topic
    {
      batchPublisher.C()
    }

    /** publishAdvForIndex: generates an advert, writing its mappings, and
        commits it, or undoes what was written. */
    method PublishAdvForIndex(q: Request) returns (r: Result<Option<Link>>)
      requires Valid()
      modifies batchPublisher, store
      ensures Valid()
      ensures r.Ok? ==>
        && Generate(C(), old(store.S()), q).Ok?
        && store.S() == PublishOne(C(), old(store.S()), q) && store.faults == old(store.faults)
        && r.value == HeadLink(store.head)
      ensures r.Err? ==>
        if ReportsAsFound(CauseOf(r.error)) then
          Refused(C(), old(store.S()), q, r.error) && store.S() == old(store.S()) && store.faults == old(store.faults)
        else
          && Explained(old(store.S()), q, store.strictDeletes, old(store.faults), store.faults, r.error)
          && FailedPublish(store.hash, q.provider.id, [q.contextID], old(store.S()),
                           PublishOne(C(), old(store.S()), q), r.error,
                           store.S(), MayMove(store.atomicHead, old(store.faults), store.faults),
                           store.faults, UndoFaultsFrom(r.error, old(store.faults)))
    {
      ghost var s, before := store.S(), store.faults;
      var adv, undo := GenerateWithUndo(store, q, C());
      if adv.Err? {
        if ReportsAsFound(adv.error) || undo.None? {
          return Err(adv.error);
        }
        var e := UndoGeneration(store, q, adv.error, undo.value, C(), s, before);
        if e.RollbackFailed? {
          HalfGeneratedIsFailedPublish(C(), q, s, e, store.S(), MayMove(store.atomicHead, before, store.faults),
                                       store.faults, UndoFaultsFrom(e, before));
        }
        return Err(e);
      }
      r := CommitGenerated(q, adv.value, undo.value, s);
    }

    /** Queues and commits a generated advert. */
    method CommitGenerated(q: Request, adv: Advertisement, undo: Undo, ghost s: State) returns (r: Result<Option<Link>>)
      requires Valid() && undo == Restore(KeyOf(q), Lookup(s.tables, KeyOf(q)))
      requires Inv(store.hash, s) && Sub(s.blocks, store.blocks) && Generate(C(), s, q) == Ok((store.S(), adv))
      modifies batchPublisher, store
      ensures Valid()
      ensures r.Ok? ==>
        store.S() == PublishOne(C(), s, q) && store.faults == old(store.faults) && r.value == HeadLink(store.head)
      ensures r.Err? ==>
        && !ReportsAsFound(CauseOf(r.error)) && CauseOf(r.error) != MISSING_ROW
        && Blamed(old(store.faults), store.faults, r.error, QUOTED)
        && FailedPublish(store.hash, q.provider.id, [q.contextID], s, PublishOne(C(), s, q), r.error,
                         store.S(), MayMove(store.atomicHead, old(store.faults), store.faults),
                         store.faults, |old(store.faults)| + 1)
    {
      ghost var s1, before := store.S(), store.faults;
      ghost var pa := PendingAd(adv, undo);
      assert Advs([pa]) == [adv];
      EmptyConcat([pa]);
      batchPublisher.Add(adv, undo);
      ghost var run;
      r, run := batchPublisher.Commit();
      if r.Err? {
        FailedGenerated(C(), q, s, s1, pa, r.error, run, store.S(), MayMove(store.atomicHead, before, store.faults),
                        before, store.faults);
      }
    }

    /** Publish: publishes one spec. It is refused exactly when its content is
        already advertised with its metadata, and fails otherwise only on a
        fault, which its error is about. */
    method Publish(p: AddrInfo, spec: AdvertSpec) returns (r: Result<Option<Link>>)
      requires Valid()
      modifies batchPublisher, store
      ensures Valid()
      ensures r.Ok? <==> store.faults == old(store.faults) && Generate(C(), old(store.S()), RequestOf(p, spec)).Ok?
      ensures r.Ok? ==>
        && store.S() == PublishSpec(C(), old(store.S()), p, spec) && store.faults == old(store.faults)
        && r.value == HeadLink(store.head)
      ensures r.Err? ==>
        if CauseOf(r.error) == AlreadyAdvertised then
          && Refused(C(), old(store.S()), RequestOf(p, spec), r.error)
          && store.S() == old(store.S()) && store.faults == old(store.faults)
        else
          && !ReportsAsFound(CauseOf(r.error)) && CauseOf(r.error) != MISSING_ROW
          && Blamed(old(store.faults), store.faults, r.error, QUOTED)
          && FailedPublish(store.hash, p.id, [spec.contextID], old(store.S()),
                           PublishSpec(C(), old(store.S()), p, spec), r.error,
                           store.S(), MayMove(store.atomicHead, old(store.faults), store.faults),
                           store.faults, |old(store.faults)| + 1)
    {
      r := PublishAdvForIndex(RequestOf(p, spec));
    }

    // ----- PublishBatch -----

    /** The planning loop of publishBatch: entries are written as adverts are
        planned; adverts are linked and signed, and records changed, in
        memory only. */
    method Plan(p: AddrInfo, specs: seq<AdvertSpec>, records: map<ContextID, Record>, prevHead: Option<Link>)
      returns (err: Option<Error>, changes: seq<ContextChange>, advs: seq<Advertisement>, prevLink: Option<Link>,
               ghost drafts: seq<Advertisement>)
      requires Valid() && prevHead == HeadLink(store.head)
      requires forall i :: 0 <= i < |specs| ==>
        (if specs[i].contextID in records then records[specs[i].contextID] else UNMAPPED)
        == Lookup(store.Tables(), Key(p.id, specs[i].contextID))
      modifies store`blocks, store`faults
      ensures Valid() && Sub(old(store.blocks), store.blocks)
      ensures Stopped(old(store.faults), store.faults, err, BATCH_QUOTED)
      ensures err.None? ==>
        && ChangesOf(ContextIDs(specs), changes)
        && Planned(C(), old(store.S()), p, specs, changes, drafts, store.blocks)
        && advs == LinkAll(C(), prevHead, drafts)
        && prevLink == TopAdvert(store.hash, prevHead, advs)
      ensures err.Some? ==> !err.value.RollbackFailed?
    {
      var changeIndex: map<ContextID, nat> := map[];
      changes, advs, prevLink, drafts := [], [], prevHead, [];
      ghost var c, s0 := C(), store.S();
      PlanStart(c, s0, p, specs);
      for i := 0 to |specs|
        invariant Valid() && Sub(s0.blocks, store.blocks) && store.faults == old(store.faults)
        invariant PlannedSoFar(c, s0, p, specs, i, changeIndex, changes, drafts, advs, prevLink, store.blocks)
      {
        var record := if specs[i].contextID in records then records[specs[i].contextID] else UNMAPPED;
        err, changeIndex, changes, advs, prevLink, drafts :=
          PlanSpec(p, specs, i, record, changeIndex, changes, advs, prevLink, drafts, s0);
        if err.Some? {
          return;
        }
      }
      PlanEnd(c, s0, p, specs, changeIndex, changes, drafts, advs, prevLink, store.blocks);
      err := None;
    }

    /** One turn of the planning loop: plans the i-th spec, from the record
        planned for its context ID already or else from the one loaded. */
    method PlanSpec(p: AddrInfo, specs: seq<AdvertSpec>, i: nat, record: Record, changeIndex: map<ContextID, nat>,
                    changes: seq<ContextChange>,
                    advs: seq<Advertisement>, prevLink: Option<Link>, ghost drafts: seq<Advertisement>, ghost s0: State)
      returns (err: Option<Error>, changeIndex': map<ContextID, nat>, changes': seq<ContextChange>,
               advs': seq<Advertisement>,
               prevLink': Option<Link>, ghost drafts': seq<Advertisement>)
      requires Valid() && i < |specs|
        && PlannedSoFar(C(), s0, p, specs, i, changeIndex, changes, drafts, advs, prevLink, store.blocks)
      requires record == Lookup(s0.tables, Key(p.id, specs[i].contextID))
      modifies store`blocks, store`faults
      ensures Valid() && Sub(old(store.blocks), store.blocks)
      ensures Stopped(old(store.faults), store.faults, err, BATCH_QUOTED) && (err.Some? ==> !err.value.RollbackFailed?)
      ensures err.None? ==>
        PlannedSoFar(C(), s0, p, specs, i + 1, changeIndex', changes', drafts', advs', prevLink', store.blocks)
    {
      changeIndex', changes', advs', prevLink', drafts' := changeIndex, changes, advs, prevLink, drafts;
      var id := specs[i].contextID;
      var current := if id in changeIndex then changes[changeIndex[id]].after else record;
      ghost var m := store.blocks;
      var planned := PlanOne(p, specs[i], current, prevLink);
      if planned.Err? {
        return Some(planned.error), changeIndex', changes', advs', prevLink', drafts';
      }
      if planned.value.None? {
        PlanSkip(C(), s0, p, specs, i, changeIndex, changes, drafts, advs, prevLink, m);
      } else {
        var (next, adv) := planned.value.value;
        PlanAdvance(C(), s0, p, specs, i, changeIndex, changes, drafts, advs, prevLink, m, current, next, adv,
                    store.blocks);
        changes', changeIndex' := Change(changes, changeIndex, id, current, next), Reindex(changes, changeIndex, id);
        prevLink' := Some(AdvertLink(store.hash, adv));   // computed through linkOnly, not stored
        advs', drafts' := advs + [adv], drafts + [Draft(RequestOf(p, specs[i]), next.chunk.value, specs[i].metadata)];
      }
      err := None;
    }

    /** PublishBatch: publishes the specs under one head. It fails only on a
        fault, which its error is about, leaving what it found or naming every
        context ID whose record it could not put back. */
    method PublishBatch(p: AddrInfo, specs: seq<AdvertSpec>) returns (r: Result<Option<Link>>)
      requires Valid()
      modifies batchPublisher, store
      ensures Valid()
      ensures r.Ok? <==> store.faults == old(store.faults)
      ensures r.Ok? ==>
        && store.S() == PublishAll(C(), old(store.S()), p, specs) && store.faults == old(store.faults)
        && r.value == HeadLink(store.head)
      ensures r.Err? ==>
        && Blamed(old(store.faults), store.faults, r.error, BATCH_QUOTED)
        && FailedPublish(store.hash, p.id, ContextIDs(specs), old(store.S()),
                         PublishAll(C(), old(store.S()), p, specs), r.error,
                         store.S(), MayMove(store.atomicHead, old(store.faults), store.faults),
                         store.faults, |old(store.faults)| + 1)
    {
      ghost var s0 := store.S();
      var start := StartBatch(p.id, specs);
      if start.Err? {
        FailedBeforeCommit(store.hash, p.id, ContextIDs(specs), s0, PublishAll(C(), s0, p, specs), start.error,
                           store.S(), MayMove(store.atomicHead, old(store.faults), store.faults),
                           old(store.faults), store.faults);
        return Err(start.error);
      }
      var (was, records) := start.value;
      var err, changes, advs, prevLink, drafts := Plan(p, specs, records, HeadLink(was));
      if err.Some? {
        FailedBeforeCommit(store.hash, p.id, ContextIDs(specs), s0, PublishAll(C(), s0, p, specs), err.value,
                           store.S(), MayMove(store.atomicHead, old(store.faults), store.faults),
                           old(store.faults), store.faults);
        return Err(err.value);
      }
      if advs == [] {
        return Ok(prevLink);
      }
      PublishAllStoresEntries(C(), s0, p, specs);
      PlanCommits(C(), s0, p.id, changes, drafts, store.blocks, PutAll(store.hash, store.blocks, AdvertBlocks(advs)),
                  PublishAll(C(), s0, p, specs), prevLink.value);
      HeadOfPlan(C(), s0, p, specs, changes, drafts, store.blocks, prevLink.value);
      err := WritePlan(p.id, ContextIDs(specs), changes, advs, was, prevLink.value, drafts, s0,
                       PublishAll(C(), s0, p, specs));
      r := if err.Some? then Err(err.value) else Ok(prevLink);
    }

    /** Reads the head and the record of every spec. */
    method StartBatch(p: Peer, specs: seq<AdvertSpec>)
      returns (r: Result<(Option<SignedHead>, map<ContextID, Record>)>)
      requires Valid()
      modifies store`faults
      ensures r.Ok? ==>
        && r.value.0 == store.head
        && forall i :: 0 <= i < |specs| ==>
             (if specs[i].contextID in r.value.1 then r.value.1[specs[i].contextID] else UNMAPPED)
             == Lookup(store.Tables(), Key(p, specs[i].contextID))
      ensures r.Err? ==> !r.error.RollbackFailed?
      ensures Stopped(old(store.faults), store.faults, ErrorIn(r), BATCH_QUOTED)
    {
      var oldHead := store.HeadIfAny();
      if oldHead.Err? {
        ShownStops(old(store.faults), store.faults, oldHead.error, AtHeadRead, BATCH_QUOTED);
        return Err(Wrap(oldHead.error));
      }
      var records := batchStore.LoadContexts(p, ContextIDs(specs));
      if records.Err? {
        WrappedStops(old(store.faults), store.faults, records.error, BATCH_QUOTED);
        return Err(Wrap(records.error));
      }
      assert forall i :: 0 <= i < |specs| ==> ContextIDs(specs)[i] == specs[i].contextID;
      return Ok((oldHead.value, records.value));
    }

    /** Writes a planned batch: its adverts, then its records and the head. With
        the adverts written, the records and the head make it published. */
    method WritePlan(p: Peer, ghost ids: seq<ContextID>, changes: seq<ContextChange>, advs: seq<Advertisement>,
                     was: Option<SignedHead>, top: Link,
                     ghost drafts: seq<Advertisement>, ghost s0: State, ghost published: State)
      returns (err: Option<Error>)
      requires Valid() && ChangesOf(ids, changes)
      requires PlanWritten(C(), s0, p, changes, PutAll(store.hash, store.blocks, AdvertBlocks(advs)), top, published)
      requires NewRowsStored(s0.tables, published.blocks, published.tables)
      requires store.Tables() == s0.tables && store.head == s0.head == was && Sub(s0.blocks, store.blocks)
      requires advs == LinkAll(C(), HeadLink(was), drafts)
      modifies store
      ensures Valid()
      ensures err.None? ==> store.S() == published && store.faults == old(store.faults)
      ensures err.Some? ==>
        && Blamed(old(store.faults), store.faults, err.value, BATCH_QUOTED)
        && FailedPublish(store.hash, p, ids, s0, published, err.value, store.S(),
                         MayMove(store.atomicHead, old(store.faults), store.faults), store.faults,
                         |old(store.faults)| + 1)
    {
      err := batchStore.PutAdverts(advs, C(), drafts);
      if err.Some? {
        ShownStops(old(store.faults), store.faults, err.value, AtAdverts, BATCH_QUOTED);
        err := Some(Wrap(err.value));
        FailedBeforeCommit(store.hash, p, ids, s0, published, err.value, store.S(),
                           MayMove(store.atomicHead, old(store.faults), store.faults), old(store.faults), store.faults);
      } else {
        err := CommitPlan(p, ids, changes, was, top, s0, published);
      }
    }

    /** Signs the head and commits the planned records with it. */
    method CommitPlan(p: Peer, ghost ids: seq<ContextID>, changes: seq<ContextChange>, was: Option<SignedHead>,
                      top: Link, ghost s0: State, ghost published: State)
      returns (err: Option<Error>)
      requires Valid() && PlanWritten(C(), s0, p, changes, store.blocks, top, published) && ChangesOf(ids, changes)
      requires NewRowsStored(s0.tables, published.blocks, published.tables)
      requires store.Tables() == s0.tables && store.head == s0.head == was && Sub(s0.blocks, store.blocks)
      modifies store`chunkLinks, store`metas, store`head, store`faults
      ensures Valid()
      ensures err.None? ==> store.S() == published && store.faults == old(store.faults)
      ensures err.Some? ==>
        && Blamed(old(store.faults), store.faults, err.value, BATCH_QUOTED)
        && FailedPublish(store.hash, p, ids, s0, published, err.value, store.S(),
                         MayMove(store.atomicHead, old(store.faults), store.faults),
                         store.faults, |old(store.faults)| + 1)
    {
      var unsigned := store.MayFail();   // signing the head fails
      if unsigned.Some? {
        ShownStops(old(store.faults), store.faults, unsigned.value, OffStore, BATCH_QUOTED);
        return Some(Wrap(unsigned.value));
      }
      ghost var errs;
      err, errs := batchStore.CommitBatch(p, changes, was, SignedHead(top, batchPublisher.topic, batchPublisher.key));
      if err.Some? {
        FailedCommit(p, ids, changes, s0.tables, store.Tables(), errs, store.faults, |old(store.faults)| + 1);
        OldOrNewRowsStored(s0.tables, published, store.blocks, store.Tables());
        err := Some(if err.value.RollbackFailed? then err.value else Wrap(err.value));
      }
    }

    /** The record that a spec leaves and its signed advert, or nothing when the
        spec is already advertised. */
    method PlanOne(p: AddrInfo, spec: AdvertSpec, current: Record, prevLink: Option<Link>)
      returns (r: Result<Option<(Record, Advertisement)>>)
      requires Valid()
      modifies store`blocks, store`faults
      ensures Valid() && Sub(old(store.blocks), store.blocks)
      ensures Stopped(old(store.faults), store.faults, ErrorIn(r), BATCH_QUOTED)
      ensures r.Ok? ==> PlannedOne(C(), RequestOf(p, spec), current, prevLink, r.value, old(store.blocks), store.blocks)
      ensures r.Err? ==> !r.error.RollbackFailed?
    {
      var next := NextRecordOf(store, current, spec.metadata, spec.digests);
      if next.Err? {
        if Is(next.error, AlreadyAdvertised) {
          return Ok(None);
        }
        QuotedStops(old(store.faults), store.faults, next.error.inner, AtEntries, BATCH_QUOTED);
        WrappedStops(old(store.faults), store.faults, next.error, BATCH_QUOTED);
        return Err(Wrap(next.error));
      }
      var refused := store.MayFail();   // encoding, signing or validating the advert fails
      if refused.Some? {
        ShownStops(old(store.faults), store.faults, refused.value, OffStore, BATCH_QUOTED);
        return Err(Wrap(refused.value));
      }
      var draft := Draft(RequestOf(p, spec), next.value.chunk.value, spec.metadata);
      return Ok(Some((next.value, Sign(batchPublisher.key, prevLink, draft))));
    }
  }
}
