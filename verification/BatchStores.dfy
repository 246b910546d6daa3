/**
 Publishing a batch through a store's own calls, one per mapping
 (pkg/publisher/batch.go, perItemBatchStore): there is no transaction, so a
 commit that fails writes back the records it changed.
 */
module BatchStores {
  import opened AdStores
  import opened Errors
  import opened Faults
  import opened GenerateAds
  import opened Ipld
  import opened Mappings
  import opened Publishing
  import opened PublishingLaws
  import opened Rollback
  import opened Sequences
  import opened Wrappers

  // One context ID's record before and after a batch.
  datatype ContextChange = ContextChange(contextID: ContextID, before: Record, after: Record)

  /** No context ID has two changes. */
  ghost predicate Distinct(changes: seq<ContextChange>) {
    forall i, j :: 0 <= i < j < |changes| ==> changes[i].contextID != changes[j].contextID
  }

  /** The changes start from what the tables hold. */
  ghost predicate Describes(p: Peer, t: Tables, changes: seq<ContextChange>) {
    forall i :: 0 <= i < |changes| ==> Lookup(t, Key(p, changes[i].contextID)) == changes[i].before
  }

  ghost predicate Changes(p: Peer, changes: seq<ContextChange>, k: Key) {
    exists i :: 0 <= i < |changes| && Key(p, changes[i].contextID) == k
  }

  function Applied(p: Peer, t: Tables, changes: seq<ContextChange>): Tables {
    if changes == [] then t
    else
      var n := |changes| - 1;
      Update(Applied(p, t, changes[..n]), Key(p, changes[n].contextID), changes[n].after)
  }

  lemma {:induction false} AppliedLookup(p: Peer, t: Tables, changes: seq<ContextChange>, k: Key)
    requires Distinct(changes)
    ensures !Changes(p, changes, k) ==> Lookup(Applied(p, t, changes), k) == Lookup(t, k)
    ensures forall i :: 0 <= i < |changes| && Key(p, changes[i].contextID) == k ==>
      Lookup(Applied(p, t, changes), k) == changes[i].after
  {
    if changes != [] {
      var n := |changes| - 1;
      AppliedLookup(p, t, changes[..n], k);
      UpdateLookup(Applied(p, t, changes[..n]), Key(p, changes[n].contextID), changes[n].after);
      if Changes(p, changes[..n], k) {
        var i :| 0 <= i < n && Key(p, changes[..n][i].contextID) == k;
        assert Key(p, changes[i].contextID) == k;
      }
    }
  }

  /** Changing a context ID again is replacing what its one change leaves. */
  lemma AppliedReplace(p: Peer, t: Tables, changes: seq<ContextChange>, i: nat, r: Record)
    requires Distinct(changes) && i < |changes|
    ensures
      var changes' := changes[i := changes[i].(after := r)];
      Distinct(changes') && Update(Applied(p, t, changes), Key(p, changes[i].contextID), r) == Applied(p, t, changes')
  {
    var changes' := changes[i := changes[i].(after := r)];
    var key := Key(p, changes[i].contextID);
    var u := Applied(p, t, changes);
    UpdateLookup(u, key, r);
    forall k ensures Lookup(Update(u, key, r), k) == Lookup(Applied(p, t, changes'), k) {
      AppliedLookup(p, t, changes, k);
      AppliedLookup(p, t, changes', k);
      if Changes(p, changes, k) {
        var j :| 0 <= j < |changes| && Key(p, changes[j].contextID) == k;
        assert Key(p, changes'[j].contextID) == k;
      } else {
        assert forall j :: 0 <= j < |changes| ==> Key(p, changes[j].contextID) != k;
        assert forall j :: 0 <= j < |changes| ==> Key(p, changes'[j].contextID) != k;
      }
    }
    TablesExtensional(Update(u, key, r), Applied(p, t, changes'));
  }

  /** What writing a change makes of a record: only the mappings that differ
      between the change's records are written. */
  function Patch(r: Record, c: ContextChange): Record {
    Record(if c.after.chunk == c.before.chunk then r.chunk else c.after.chunk,
           if c.after.meta == c.before.meta then r.meta else c.after.meta)
  }

  function ChangedIDs(changes: seq<ContextChange>): (ids: seq<ContextID>)
    ensures |ids| == |changes| && forall i :: 0 <= i < |ids| ==> ids[i] == changes[i].contextID
  {
    seq(|changes|, i requires 0 <= i < |changes| => changes[i].contextID)
  }

  /** The failures a rollback reports: one for each change whose write-back
      failed. */
  function RestoreFailures(changes: seq<ContextChange>, errs: seq<Option<Error>>): seq<Failure>
    requires |errs| <= |changes|
  {
    FailuresOf(ChangedIDs(changes), errs)
  }

  /** What a commit that failed leaves: of the changes it had begun writing,
      each has its old record again unless its write-back failed, in which case
      each of its rows is the old or the new one; every other key is untouched. */
  ghost predicate WrittenBack(p: Peer, changes: seq<ContextChange>, t: Tables, t': Tables, errs: seq<Option<Error>>) {
    && |errs| <= |changes|
    && (forall i :: 0 <= i < |changes| ==> WrittenBackAt(p, changes[i], t', i >= |errs| || errs[i].None?))
    && (forall k :: !Changes(p, changes, k) ==> Lookup(t', k) == Lookup(t, k))
  }

  ghost predicate WrittenBackAt(p: Peer, c: ContextChange, t: Tables, restored: bool) {
    var r := Lookup(t, Key(p, c.contextID));
    if restored then r == c.before
    else
      && (r.chunk == c.before.chunk || r.chunk == c.after.chunk)
      && (r.meta == c.before.meta || r.meta == c.after.meta)
  }

  ghost predicate AllRestored(errs: seq<Option<Error>>) {
    forall i :: 0 <= i < |errs| ==> errs[i].None?
  }

  /** Nothing is reported exactly when every write-back succeeded; every failed
      one is, and nothing else. */
  lemma RestoreFailuresExact(changes: seq<ContextChange>, errs: seq<Option<Error>>)
    requires |errs| <= |changes|
    ensures RestoreFailures(changes, errs) == [] <==> AllRestored(errs)
    ensures forall i :: 0 <= i < |errs| && errs[i].Some? ==>
      Failure(changes[i].contextID, errs[i].value) in RestoreFailures(changes, errs)
    ensures forall f :: f in RestoreFailures(changes, errs) ==>
      exists i :: 0 <= i < |errs| && errs[i] == Some(f.err) && changes[i].contextID == f.contextID
  {
    FailuresComplete(ChangedIDs(changes), errs);
    forall f | f in RestoreFailures(changes, errs)
      ensures exists i :: 0 <= i < |errs| && errs[i] == Some(f.err) && changes[i].contextID == f.contextID
    {
      var i := FailuresReal(ChangedIDs(changes), errs, f);
    }
  }

  lemma AllRestoredIsAsFound(p: Peer, changes: seq<ContextChange>, t: Tables, t': Tables, errs: seq<Option<Error>>)
    requires WrittenBack(p, changes, t, t', errs) && Describes(p, t, changes) && AllRestored(errs)
    ensures t' == t
  {
    forall k ensures Lookup(t', k) == Lookup(t, k) {
      if Changes(p, changes, k) {
        var i :| 0 <= i < |changes| && Key(p, changes[i].contextID) == k;
        assert WrittenBackAt(p, changes[i], t', true);
      }
    }
    TablesExtensional(t', t);
  }

  class PerItemBatchStore {
    const store: AdStore

    constructor (store: AdStore)
      ensures this.store == store
    {
      this.store := store;
    }

    /** LoadContexts: the record of every context ID asked for. */
    method LoadContexts(p: Peer, contextIDs: seq<ContextID>) returns (r: Result<map<ContextID, Record>>)
      modifies store`faults
      ensures r.Ok? ==>
        && (forall i :: 0 <= i < |contextIDs| ==> contextIDs[i] in r.value)
        && (forall id :: id in r.value ==> r.value[id] == Lookup(store.Tables(), Key(p, id)))
      ensures r.Err? ==> Foreign(r.error)
      ensures Stopped(old(store.faults), store.faults, ErrorIn(r), BATCH_QUOTED)
    {
      var records: map<ContextID, Record> := map[];
      for i := 0 to |contextIDs|
        invariant store.faults == old(store.faults)
        invariant forall j :: 0 <= j < i ==> contextIDs[j] in records
        invariant forall id :: id in records ==> records[id] == Lookup(store.Tables(), Key(p, id))
      {
        var id := contextIDs[i];
        if id in records {
          continue;
        }
        var record := UNMAPPED;
        var chunkLink := store.GetChunkLink(Key(p, id));
        if chunkLink.Ok? {
          record := record.(chunk := Some(chunkLink.value));
        } else if !Is(chunkLink.error, NotFound) {
          ShownStops(old(store.faults), store.faults, chunkLink.error, AtMappings, BATCH_QUOTED);
          return Err(Wrap(chunkLink.error));
        }
        var md := store.GetMetadata(Key(p, id));
        if md.Ok? {
          record := record.(meta := Some(md.value));
        } else if !Is(md.error, NotFound) {
          ShownStops(old(store.faults), store.faults, md.error, AtMappings, BATCH_QUOTED);
          return Err(Wrap(md.error));
        }
        records := records[id := record];
      }
      return Ok(records);
    }

    /** PutAdverts: writes adverts that were linked to one another beforehand. */
    method PutAdverts(advs: seq<Advertisement>, ghost c: Setup, ghost drafts: seq<Advertisement>)
      returns (err: Option<Error>)
      requires store.Valid() && For(c, store)
      requires advs == LinkAll(c, HeadLink(store.head), drafts)
      modifies store`blocks, store`faults
      ensures store.Valid() && Sub(old(store.blocks), store.blocks)
      ensures err.None? ==> store.blocks == PutAll(store.hash, old(store.blocks), AdvertBlocks(advs))
      ensures err.Some? ==> Foreign(err.value)
      ensures Met(old(store.faults), store.faults, err, AtAdverts)
    {
      ghost var m0, prev := store.blocks, HeadLink(store.head);
      ghost var past :| AdvertChain(m0, prev, past);
      for i := 0 to |advs|
        invariant store.Valid() && Sub(m0, store.blocks) && store.faults == old(store.faults)
        invariant LinkedSoFar(c, m0, prev, drafts[..i], store.blocks, TopAdvert(c.hash, prev, advs[..i]))
        invariant advs[..i] == LinkAll(c, prev, drafts[..i])
      {
        LinkedPrefix(c, prev, drafts, i);
        LinkedOneMore(c, m0, prev, past, drafts, i, store.blocks, TopAdvert(c.hash, prev, advs[..i]));
        var lnk := store.PutAdvert(advs[i]);
        if lnk.Err? {
          return Some(lnk.error);
        }
      }
      assert drafts[..|advs|] == drafts && advs[..|advs|] == advs;
      return None;
    }

    /** CommitBatch: writes the records, then moves the head, and writes the
        old records back when either fails. It fails on a fault, or because the
        head is not the expected one, and its error's cause says which. */
    method CommitBatch(p: Peer, changes: seq<ContextChange>, expected: Option<SignedHead>, newHead: SignedHead)
      returns (err: Option<Error>, ghost errs: seq<Option<Error>>)
      requires store.Valid() && Distinct(changes) && Describes(p, store.Tables(), changes)
      requires exists advs :: AdvertChain(store.blocks, Some(newHead.head), advs)
      modifies store`chunkLinks, store`metas, store`head, store`faults
      ensures store.Valid()
      ensures err.None? ==>
        && old(store.head) == expected
        && store.S() == State(store.blocks, Some(newHead), Applied(p, old(store.Tables()), changes))
        && store.faults == old(store.faults)
      ensures err.Some? ==>
        && (store.head == old(store.head)
            || (MayMove(store.atomicHead, old(store.faults), store.faults) && old(store.head) == expected
              && store.head == Some(newHead)))
        && (CauseOf(err.value) == STALE ==> old(store.head) != expected)
        && WrittenBack(p, changes, old(store.Tables()), store.Tables(), errs)
        && BatchFailed(changes, err.value, errs, old(store.faults), store.faults)
    {
      ghost var t0, before := store.Tables(), store.faults;
      var e, begun := WriteBatch(p, changes, expected, newHead);
      if e.None? {
        return None, [];
      }
      var failure;
      failure, errs := RollBack(p, changes[..begun], Wrap(e.value), changes, t0, before);
      return Some(failure), errs;
    }

    /** Writes the records and then moves the head, up to what fails. */
    method WriteBatch(p: Peer, changes: seq<ContextChange>, expected: Option<SignedHead>, newHead: SignedHead)
      returns (err: Option<Error>, begun: nat)
      requires store.Valid() && Distinct(changes) && Describes(p, store.Tables(), changes)
      requires exists advs :: AdvertChain(store.blocks, Some(newHead.head), advs)
      modifies store`chunkLinks, store`metas, store`head, store`faults
      ensures store.Valid() && begun <= |changes|
      ensures err.None? ==>
        && old(store.head) == expected && store.head == Some(newHead)
        && store.Tables() == Applied(p, old(store.Tables()), changes) && store.faults == old(store.faults)
      ensures err.Some? ==>
        && (store.head == old(store.head)
            || (MayMove(store.atomicHead, old(store.faults), store.faults) && old(store.head) == expected
              && store.head == Some(newHead)))
        && Begun(p, changes, begun, old(store.Tables()), store.Tables())
        && if Wrap(err.value) == STALE then old(store.head) != expected && store.faults == old(store.faults)
           else Stopped(old(store.faults), store.faults, Some(Wrap(err.value)), BATCH_QUOTED)
    {
      ghost var t0, before := store.Tables(), store.faults;
      err, begun := WriteRecords(p, changes);
      if err.None? {
        AppliedBegun(p, t0, changes);
        err := store.ReplaceHead(expected, newHead);
      }
      if err.Some? && err.value != PreconditionFailed {
        ShownStops(before, store.faults, err.value, store.faults[|before|].site, BATCH_QUOTED);
      }
    }

    /** Writes the changes' records in order, up to one that fails. */
    method WriteRecords(p: Peer, changes: seq<ContextChange>) returns (err: Option<Error>, begun: nat)
      requires Distinct(changes) && Describes(p, store.Tables(), changes)
      modifies store`chunkLinks, store`metas, store`faults
      ensures begun <= |changes|
      ensures
        if err.None? then begun == |changes| && store.Tables() == Applied(p, old(store.Tables()), changes)
        else Foreign(err.value) && Begun(p, changes, begun, old(store.Tables()), store.Tables())
      ensures Met(old(store.faults), store.faults, err, AtMappings)
    {
      ghost var t0 := store.Tables();
      for i := 0 to |changes|
        invariant store.Tables() == Applied(p, t0, changes[..i]) && store.faults == old(store.faults)
      {
        AppliedPrefix(p, t0, changes, i);
        err := WriteRecord(p, changes[i]);
        if err.Some? {
          AppliedWithin(p, t0, changes, i, store.Tables());
          return err, i + 1;
        }
      }
      TakeAll(changes);
      return None, |changes|;
    }

    /** writeRecord: writes the mappings that differ between a change's
        records. */
    method WriteRecord(p: Peer, c: ContextChange) returns (err: Option<Error>)
      modifies store`chunkLinks, store`metas, store`faults
      ensures
        var k := Key(p, c.contextID);
        var t := old(store.Tables());
        var target := Patch(Lookup(t, k), c);
        if err.None? then store.Tables() == Update(t, k, target) else RowsWithin(t, store.Tables(), k, target)
      ensures old(Lookup(store.Tables(), Key(p, c.contextID))) == c.before ==>
        Met(old(store.faults), store.faults, err, AtMappings) && (err.Some? ==> Foreign(err.value))
    {
      var k := Key(p, c.contextID);
      err := WriteChunkLink(k, c);
      if err.Some? {
        return;
      }
      UpdateSame(store.Tables(), k);
      err := WriteMetadata(k, c);
    }

    method WriteChunkLink(k: Key, c: ContextChange) returns (err: Option<Error>)
      modifies store`chunkLinks, store`faults
      ensures
        if c.after.chunk == c.before.chunk then err.None? && store.chunkLinks == old(store.chunkLinks)
        else RowWritten(old(store.chunkLinks), store.chunkLinks, k, c.after.chunk, err)
      ensures old(Lookup(store.Tables(), k).chunk) == c.before.chunk ==>
        Met(old(store.faults), store.faults, err, AtMappings) && (err.Some? ==> Foreign(err.value))
    {
      if c.after.chunk.None? && c.before.chunk.Some? {
        err := store.DeleteChunkLink(k);
      } else if c.after.chunk.Some? && (c.before.chunk.None? || c.after.chunk.value != c.before.chunk.value) {
        err := store.PutChunkLink(k, c.after.chunk.value);
      } else {
        err := None;
      }
    }

    method WriteMetadata(k: Key, c: ContextChange) returns (err: Option<Error>)
      modifies store`metas, store`faults
      ensures
        if c.after.meta == c.before.meta then err.None? && store.metas == old(store.metas)
        else RowWritten(old(store.metas), store.metas, k, c.after.meta, err)
      ensures old(Lookup(store.Tables(), k).meta) == c.before.meta ==>
        Met(old(store.faults), store.faults, err, AtMappings) && (err.Some? ==> Foreign(err.value))
    {
      if c.after.meta.None? && c.before.meta.Some? {
        err := store.DeleteMetadata(k);
      } else if c.after.meta.Some? && (c.before.meta.None? || c.after.meta.value != c.before.meta.value) {
        err := store.PutMetadata(k, c.after.meta.value);
      } else {
        err := None;
      }
    }

    /** rollback: writes back the old record of every change, oldest first,
        and reports every write-back that failed beside the cause. */
    method RollBack(p: Peer, begun: seq<ContextChange>, cause: Error, ghost changes: seq<ContextChange>,
                    ghost t0: Tables, ghost before: Log)
      returns (failure: Error, ghost errs: seq<Option<Error>>)
      requires Distinct(changes) && begun <= changes && !cause.RollbackFailed?
      requires Begun(p, changes, |begun|, t0, store.Tables())
      requires if cause == STALE then store.faults == before
        else Stopped(before, store.faults, Some(cause), BATCH_QUOTED)
      modifies store`chunkLinks, store`metas, store`faults
      ensures |errs| == |begun| && WrittenBack(p, changes, t0, store.Tables(), errs)
      ensures CauseOf(failure) == cause && BatchFailed(changes, failure, errs, before, store.faults)
      ensures old(store.faults) <= store.faults
    {
      errs := [];
      var failures: seq<Failure> := [];
      ghost var n := FirstUndoFault(cause, before);
      for i := 0 to |begun|
        invariant |errs| == i && old(store.faults) <= store.faults
        invariant RolledBack(p, changes, |begun|, t0, store.Tables(), errs, failures, store.faults, n)
      {
        ghost var t, log := store.Tables(), store.faults;
        var err := RestoreMappings(store, Key(p, begun[i].contextID), begun[i].before);
        var failed := if err.Some? then [Failure(begun[i].contextID, Wrap(err.value))] else [];
        RolledBackOneMore(p, changes, |begun|, t0, t, store.Tables(), errs, failures, log, store.faults, n, err);
        failures := failures + failed;
        errs := errs + [if err.Some? then Some(Wrap(err.value)) else None];
      }
      failure := WithFailures(cause, failures, |begun|);
      AllWrittenBack(p, changes, |begun|, t0, store.Tables(), errs, failures, cause, before, old(store.faults),
                     store.faults);
    }
  }

  /** The invariant of the rollback loop: of the n changes begun those in errs
      were tried, and what failed is reported, on faults from the f-th on. */
  ghost predicate RolledBack(p: Peer, changes: seq<ContextChange>, n: nat, t0: Tables, t: Tables,
                             errs: seq<Option<Error>>,
                             failures: seq<Failure>, faults: Log, f: nat)
  {
    && PartlyBack(p, changes, n, t0, t, errs)
    && failures == RestoreFailures(changes, errs)
    && f <= |faults| && AllReported(errs, faults, f)
    && (ErrsTimedOut(errs) <==> TimeoutIn(faults, f, |faults|))
  }

  lemma RolledBackOneMore(p: Peer, changes: seq<ContextChange>, n: nat, t0: Tables, t: Tables, t': Tables,
                          errs: seq<Option<Error>>,
                          failures: seq<Failure>, faults: Log, faults': Log, f: nat, err: Option<Error>)
    requires Distinct(changes) && RolledBack(p, changes, n, t0, t, errs, failures, faults, f) && |errs| < n
    requires var c := changes[|errs|]; UndoStep(Restore(Key(p, c.contextID), c.before), t, t', err)
    requires Logged(faults, faults', err)
      && UndoLogged(Restore(Key(p, changes[|errs|].contextID), changes[|errs|].before), faults, faults', err)
    ensures
      var wrapped := if err.Some? then Some(Wrap(err.value)) else None;
      var failed := if err.Some? then [Failure(changes[|errs|].contextID, Wrap(err.value))] else [];
      && faults <= faults'
      && RolledBack(p, changes, n, t0, t', errs + [wrapped], failures + failed, faults', f)
  {
    var wrapped := if err.Some? then Some(Wrap(err.value)) else None;
    InitAndLast(errs, wrapped);
    BackOneMore(p, changes, n, t0, t, t', errs, wrapped);
    OneMoreReported(errs, wrapped, faults, faults', f);
    UndoTimedOut(Restore(Key(p, changes[|errs|].contextID), changes[|errs|].before), faults, faults', t, t', err);
    TimeoutInBoth(faults, faults', f);
    ErrsTimedOutOneMore(errs, wrapped);
  }

  // The cause of a commit that found another head than the expected one.
  const STALE := Wrap(PreconditionFailed)

  /** Where the faults of a commit's rollback begin: after the one that caused
      it, if one did. */
  function FirstUndoFault(cause: Error, before: Log): nat {
    if cause == STALE then |before| else |before| + 1
  }

  /** What a failed commit reports: its cause, which is the first fault or a
      stale head, and each write-back that failed, on a fault of its own. */
  ghost predicate BatchFailed(changes: seq<ContextChange>, e: Error, errs: seq<Option<Error>>, before: Log, after: Log)
  {
    && |errs| <= |changes|
    && e == WithFailures(CauseOf(e), RestoreFailures(changes, errs), |errs|)
    && !CauseOf(e).RollbackFailed?
    && before <= after && (CauseOf(e) != STALE ==> Faulted(before, after, e))
    && AllReported(errs, after, FirstUndoFault(CauseOf(e), before))
    && (Is(e, DeadlineExceeded) <==> TimedOutBy(before, after, BATCH_QUOTED, FirstUndoFault(CauseOf(e), before)))
  }

  /** Once every change begun was tried, the rollback is done. */
  lemma AllWrittenBack(p: Peer, changes: seq<ContextChange>, n: nat, t0: Tables, t: Tables, errs: seq<Option<Error>>,
                       failures: seq<Failure>, cause: Error, before: Log, between: Log, after: Log)
    requires RolledBack(p, changes, n, t0, t, errs, failures, after, FirstUndoFault(cause, before)) && |errs| == n
    requires !cause.RollbackFailed? && between <= after
    requires if cause == STALE then between == before else Stopped(before, between, Some(cause), BATCH_QUOTED)
    ensures WrittenBack(p, changes, t0, t, errs)
    ensures BatchFailed(changes, WithFailures(cause, failures, n), errs, before, after)
  {
    WithFailuresTimedOut(cause, ChangedIDs(changes), errs, n);
  }

  /** The first n changes were begun: their rows are old or new, and the rest
      of the tables is as it was. */
  ghost predicate Begun(p: Peer, changes: seq<ContextChange>, n: nat, t0: Tables, t: Tables) {
    PartlyBack(p, changes, n, t0, t, [])
  }

  /** Of the n changes begun, those in errs have been written back. */
  ghost predicate PartlyBack(p: Peer, changes: seq<ContextChange>, n: nat, t0: Tables, t: Tables,
                             errs: seq<Option<Error>>)
  {
    && |errs| <= n <= |changes|
    && (forall i :: 0 <= i < |changes| ==>
          WrittenBackAt(p, changes[i], t, i >= n || (i < |errs| && errs[i].None?)))
    && (forall k :: !Changes(p, changes, k) ==> Lookup(t, k) == Lookup(t0, k))
  }

  lemma BackOneMore(p: Peer, changes: seq<ContextChange>, n: nat, t0: Tables, t: Tables, t': Tables,
                    errs: seq<Option<Error>>, err: Option<Error>)
    requires Distinct(changes) && PartlyBack(p, changes, n, t0, t, errs) && |errs| < n
    requires
      var c := changes[|errs|];
      var k := Key(p, c.contextID);
      RowsWithin(t, t', k, c.before) && (err.None? ==> t' == Update(t, k, c.before))
    ensures PartlyBack(p, changes, n, t0, t', errs + [err])
  {
    var j := |errs|;
    var key := Key(p, changes[j].contextID);
    forall i | 0 <= i < |changes|
      ensures WrittenBackAt(p, changes[i], t', i >= n || (i < |errs + [err]| && (errs + [err])[i].None?))
    {
      assert WrittenBackAt(p, changes[i], t, i >= n || (i < |errs| && errs[i].None?));
      if i == j {
        UpdateLookup(t, key, changes[j].before);
      } else {
        assert Key(p, changes[i].contextID) != key;
      }
    }
    forall k | !Changes(p, changes, k) ensures Lookup(t', k) == Lookup(t0, k) {
      assert Key(p, changes[j].contextID) == key;
    }
  }

  lemma AppliedPrefix(p: Peer, t: Tables, changes: seq<ContextChange>, i: nat)
    requires Distinct(changes) && Describes(p, t, changes) && i < |changes|
    ensures
      var u, k := Applied(p, t, changes[..i]), Key(p, changes[i].contextID);
      && Lookup(u, k) == changes[i].before
      && Patch(changes[i].before, changes[i]) == changes[i].after
      && Update(u, k, changes[i].after) == Applied(p, t, changes[..i + 1])
  {
    AppliedLookup(p, t, changes[..i], Key(p, changes[i].contextID));
    assert changes[..i + 1][..i] == changes[..i];
  }

  lemma AppliedWithin(p: Peer, t0: Tables, changes: seq<ContextChange>, i: nat, t: Tables)
    requires Distinct(changes) && Describes(p, t0, changes) && i < |changes|
    requires RowsWithin(Applied(p, t0, changes[..i]), t, Key(p, changes[i].contextID), changes[i].after)
    ensures Begun(p, changes, i + 1, t0, t)
  {
    var u := Applied(p, t0, changes[..i]);
    AppliedPrefix(p, t0, changes, i);
    forall j | 0 <= j < |changes| ensures WrittenBackAt(p, changes[j], t, j >= i + 1) {
      AppliedLookup(p, t0, changes[..i], Key(p, changes[j].contextID));
      if j < i {
        assert changes[..i][j] == changes[j];
      }
    }
    forall k | !Changes(p, changes, k) ensures Lookup(t, k) == Lookup(t0, k) {
      AppliedLookup(p, t0, changes[..i], k);
      assert Key(p, changes[i].contextID) != k;
    }
  }

  lemma AppliedBegun(p: Peer, t0: Tables, changes: seq<ContextChange>)
    requires Distinct(changes) && Describes(p, t0, changes)
    ensures Begun(p, changes, |changes|, t0, Applied(p, t0, changes))
  {
    var t := Applied(p, t0, changes);
    forall j | 0 <= j < |changes| ensures WrittenBackAt(p, changes[j], t, false) {
      AppliedLookup(p, t0, changes, Key(p, changes[j].contextID));
    }
    forall k | !Changes(p, changes, k) ensures Lookup(t, k) == Lookup(t0, k) {
      AppliedLookup(p, t0, changes, k);
    }
  }
}
