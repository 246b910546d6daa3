/** Generating adverts from a store that can fail (pkg/publisher/generate_ad.go). */
module GenerateAds {
  import opened AdStores
  import opened Errors
  import opened Faults
  import opened Ipld
  import opened Mappings
  import opened Publishing
  import opened Rollback
  import opened Wrappers
  import Entries

  /** The setup a publisher of this store has. */
  ghost predicate For(c: Setup, store: AdStore) {
    c.hash == store.hash && c.chunkSize == store.chunkSize && c.identityEntries == store.identityEntries
  }

  predicate ReportsAsFound(e: Error) {
    Is(e, AlreadyAdvertised) || Is(e, ContextIDNotFound)
  }

  /** Generating is refused, which reports the store as found. */
  predicate Refused(c: Setup, s: State, q: Request, e: Error) {
    Generate(c, s, q) == Err(e)
  }

  /** The request removes content that has no metadata row, from a store that
      reports deleting a missing row. */
  predicate RemovesTooMuch(s: State, q: Request, strict: bool) {
    strict && q.isRm && Lookup(s.tables, KeyOf(q)).meta.None?
  }

  // The cause of a removal that found no metadata row.
  const MISSING_ROW := Hidden(NotFound)

  /** What an error is about: a row missing on removal, or else the first fault,
      of which it shows a deadline only where it is not quoted. The faults of
      an undo come after, and show. */
  ghost predicate Explained(s: State, q: Request, strict: bool, before: Log, after: Log, e: Error) {
    && before <= after
    && (if CauseOf(e) == MISSING_ROW then RemovesTooMuch(s, q, strict) else Faulted(before, after, e))
    && (Is(e, DeadlineExceeded) <==> TimedOutBy(before, after, QUOTED, UndoFaultsFrom(e, before)))
  }

  /** Where the faults of the undo begin: after the one that caused it, unless
      a missing row did. */
  function UndoFaultsFrom(e: Error, before: Log): nat {
    if CauseOf(e) == MISSING_ROW then |before| else |before| + 1
  }

  /** The record that generating an advert is to leave. */
  function GeneratedRecord(c: Setup, s: State, q: Request): Record
    requires Generate(c, s, q).Ok?
  {
    Lookup(Generate(c, s, q).value.0.tables, KeyOf(q))
  }

  /** The rows of the request's key are those of s or those that generating the
      request is to leave, no other key changed, and no row was mapped before
      the entries it links to were written. */
  ghost predicate HalfGenerated(c: Setup, s: State, q: Request, m: Blocks, t: Tables) {
    && Generate(c, s, q).Ok?
    && RowsWithin(s.tables, t, KeyOf(q), GeneratedRecord(c, s, q))
    && (Lookup(t, KeyOf(q)).chunk != Lookup(s.tables, KeyOf(q)).chunk ==> Sub(Generate(c, s, q).value.0.blocks, m))
  }

  /** What generating an advert leaves when it is refused, or fails. */
  ghost predicate FailedGeneration(c: Setup, s: State, q: Request, e: Error, undo: Option<Undo>, m: Blocks, t: Tables,
                                   strict: bool, before: Log, after: Log)
  {
    && !e.RollbackFailed?
    && if ReportsAsFound(e) then Refused(c, s, q, e) && t == s.tables && after == before
       else
         && (if e == MISSING_ROW then RemovesTooMuch(s, q, strict) && after == before
             else Stopped(before, after, Some(e), QUOTED))
         && match undo
            case None => t == s.tables
            case Some(u) => HalfGenerated(c, s, q, m, t) && u == Restore(KeyOf(q), Lookup(s.tables, KeyOf(q)))
  }

  /** generateAd: an advert and the undo of the writes that generating it made. */
  method GenerateWithUndo(store: AdStore, q: Request, ghost c: Setup)
    returns (r: Result<Advertisement>, undo: Option<Undo>)
    requires store.Valid() && For(c, store)
    modifies store`blocks, store`chunkLinks, store`metas, store`faults
    ensures store.Valid() && Sub(old(store.blocks), store.blocks)
    ensures r.Ok? ==>
      && Generate(c, old(store.S()), q) == Ok((store.S(), r.value)) && store.faults == old(store.faults)
      && !RemovesTooMuch(old(store.S()), q, store.strictDeletes)
      && undo == Some(Restore(KeyOf(q), Lookup(old(store.Tables()), KeyOf(q))))
    ensures r.Err? ==> FailedGeneration(c, old(store.S()), q, r.error, undo,
                       store.blocks, store.Tables(), store.strictDeletes, old(store.faults), store.faults)
    ensures r.Err? && ReportsAsFound(r.error) ==> store.blocks == old(store.blocks)
  {
    var read := ReadPrior(store, KeyOf(q), q.isRm);
    if read.Err? {
      QuotedStops(old(store.faults), store.faults, read.error.inner, AtMappings, QUOTED);
      return Err(read.error), None;
    }
    var prior := read.value;
    undo := Some(Restore(KeyOf(q), prior));
    if q.isRm {
      r := GenerateRemoval(store, q, prior, c);
    } else {
      r := GenerateAddition(store, q, prior, c);
    }
  }

  /** What the store mapped before. A removal of unmapped content writes nothing,
      so it reads no metadata. */
  method ReadPrior(store: AdStore, k: Key, isRm: bool) returns (r: Result<Record>)
    modifies store`faults
    ensures r.Ok? ==>
      r.value == if isRm && Lookup(store.Tables(), k).chunk.None? then UNMAPPED else Lookup(store.Tables(), k)
    ensures r.Ok? ==> store.faults == old(store.faults)
    ensures r.Err? ==>
      r.error.Hidden? && Foreign(r.error.inner) && Met(old(store.faults), store.faults, Some(r.error.inner), AtMappings)
  {
    var chunkLink := store.GetChunkLink(k);
    if chunkLink.Err? && !Is(chunkLink.error, NotFound) {
      return Err(Hidden(chunkLink.error));
    }
    var prevChunk := if chunkLink.Ok? then Some(chunkLink.value) else None;
    if isRm && prevChunk.None? {
      return Ok(UNMAPPED);
    }
    var md := store.GetMetadata(k);
    if md.Err? && !Is(md.error, NotFound) {
      return Err(Hidden(md.error));
    }
    return Ok(Record(prevChunk, if md.Ok? then Some(md.value) else None));
  }

  method GenerateAddition(store: AdStore, q: Request, prior: Record, ghost c: Setup) returns (r: Result<Advertisement>)
    requires store.Valid() && For(c, store) && !q.isRm
    requires prior == Lookup(store.Tables(), KeyOf(q))
    modifies store`blocks, store`chunkLinks, store`metas, store`faults
    ensures store.Valid() && Sub(old(store.blocks), store.blocks)
    ensures r.Ok? ==> Generate(c, old(store.S()), q) == Ok((store.S(), r.value)) && store.faults == old(store.faults)
    ensures r.Err? ==> FailedGeneration(c, old(store.S()), q, r.error, Some(Restore(KeyOf(q), prior)),
                       store.blocks, store.Tables(), store.strictDeletes, old(store.faults), store.faults)
    ensures r.Err? && ReportsAsFound(r.error) ==> store.blocks == old(store.blocks)
  {
    var next := NextRecordOf(store, prior, q.metadata, q.digests);
    if next.Err? {
      if next.error.Hidden? {
        QuotedStops(old(store.faults), store.faults, next.error.inner, AtEntries, QUOTED);
      }
      return Err(next.error);
    }
    AdditionGenerated(c, old(store.S()), q, next.value, store.blocks);
    var e := PutRecord(store, KeyOf(q), prior, next.value);
    if e.Some? {
      QuotedStops(old(store.faults), store.faults, e.value, AtMappings, QUOTED);
      return Err(Hidden(e.value));
    }
    var unmarshalable := store.MayFail();
    if unmarshalable.Some? {
      ShownStops(old(store.faults), store.faults, unmarshalable.value, OffStore, QUOTED);
      return Err(unmarshalable.value);
    }
    return Ok(Draft(q, next.value.chunk.value, q.metadata));
  }

  lemma AdditionGenerated(c: Setup, s: State, q: Request, next: Record, m: Blocks)
    requires !q.isRm && NextRecord(Lookup(s.tables, KeyOf(q)), q.metadata, FreshLink(c, q)) == Some(next)
    requires m == PutAll(c.hash, s.blocks, if Lookup(s.tables, KeyOf(q)).chunk.Some? then [] else FreshBlocks(c, q))
    ensures
      Generate(c, s, q) ==
      Ok((State(m, s.head, Update(s.tables, KeyOf(q), next)), Draft(q, next.chunk.value, q.metadata)))
    ensures GeneratedRecord(c, s, q) == next
  {
    UpdateLookup(s.tables, KeyOf(q), next);
  }

  /** Maps content that was unmapped to its entries, and any content to its
      metadata. */
  method PutRecord(store: AdStore, k: Key, prior: Record, next: Record) returns (err: Option<Error>)
    requires prior == Lookup(store.Tables(), k) && next.chunk.Some? && next.meta.Some?
    requires prior.chunk.Some? ==> next.chunk == prior.chunk
    modifies store`chunkLinks, store`metas, store`faults
    ensures if err.None? then store.Tables() == Update(old(store.Tables()), k, next)
            else Foreign(err.value) && RowsWithin(old(store.Tables()), store.Tables(), k, next)
    ensures Met(old(store.faults), store.faults, err, AtMappings)
  {
    if prior.chunk.None? {
      err := store.PutChunkLink(k, next.chunk.value);
      if err.Some? {
        return;
      }
    } else {
      assert SetRow(store.chunkLinks, k, prior.chunk) == store.chunkLinks;
    }
    err := store.PutMetadata(k, next.meta.value);
  }

  /** nextRecord: the record once md is advertised, writing the entries only
      when there is no entries mapping. */
  method NextRecordOf(store: AdStore, prior: Record, md: Metadata, digests: seq<Multihash>) returns (r: Result<Record>)
    requires store.Valid()
    modifies store`blocks, store`faults
    ensures store.Valid() && Sub(old(store.blocks), store.blocks)
    ensures
      var root := Entries.EntriesLink(store.hash, digests, store.chunkSize, store.identityEntries);
      var chunks := Entries.WrittenBlocks(store.hash, digests, store.chunkSize, store.identityEntries);
      var written := if prior.chunk.Some? then [] else chunks;
      match r
      case Ok(next) =>
        && NextRecord(prior, md, root) == Some(next)
        && store.blocks == PutAll(store.hash, old(store.blocks), written)
      case Err(e) =>
        if NextRecord(prior, md, root).None? then
          e == AlreadyAdvertised && store.blocks == old(store.blocks) && store.faults == old(store.faults)
        else
          e.Hidden? && Foreign(e.inner) && Met(old(store.faults), store.faults, Some(e.inner), AtEntries)
    ensures r.Ok? ==> store.faults == old(store.faults)
  {
    if prior.chunk.Some? {
      if prior.meta == Some(md) {
        return Err(AlreadyAdvertised);
      }
      return Ok(Record(prior.chunk, Some(md)));
    }
    var root := store.PutEntries(digests);
    if root.Err? {
      return Err(Hidden(root.error));
    }
    return Ok(Record(Some(if root.value.None? then NoEntries else root.value.value), Some(md)));
  }

  method GenerateRemoval(store: AdStore, q: Request, prior: Record, ghost c: Setup) returns (r: Result<Advertisement>)
    requires store.Valid() && For(c, store) && q.isRm
    requires prior.chunk == Lookup(store.Tables(), KeyOf(q)).chunk
    requires prior.chunk.Some? ==> prior == Lookup(store.Tables(), KeyOf(q))
    modifies store`chunkLinks, store`metas, store`faults
    ensures store.Valid()
    ensures r.Ok? ==>
      && Generate(c, old(store.S()), q) == Ok((store.S(), r.value)) && store.faults == old(store.faults)
      && !RemovesTooMuch(old(store.S()), q, store.strictDeletes)
    ensures r.Err? ==> FailedGeneration(c, old(store.S()), q, r.error, Some(Restore(KeyOf(q), prior)),
                       store.blocks, store.Tables(), store.strictDeletes, old(store.faults), store.faults)
  {
    if prior.chunk.None? {
      return Err(ContextIDNotFound);
    }
    var e := DeleteRecord(store, KeyOf(q), prior);
    if e.Some? {
      if e.value != NotFound {
        QuotedStops(old(store.faults), store.faults, e.value, AtMappings, QUOTED);
      }
      return Err(Hidden(e.value));
    }
    return Ok(Draft(q, NoEntries, EMPTY_METADATA));
  }

  /** Deletes the rows of mapped content; the metadata row may be missing. */
  method DeleteRecord(store: AdStore, k: Key, prior: Record) returns (err: Option<Error>)
    requires prior == Lookup(store.Tables(), k) && prior.chunk.Some?
    modifies store`chunkLinks, store`metas, store`faults
    ensures if err.None? then store.Tables() == Update(old(store.Tables()), k, UNMAPPED)
            else RowsWithin(old(store.Tables()), store.Tables(), k, UNMAPPED)
    ensures err.Some? ==> Foreign(err.value) || (err.value == NotFound && prior.meta.None? && store.strictDeletes)
    ensures err.None? ==> prior.meta.Some? || !store.strictDeletes
    ensures Met(old(store.faults), store.faults, Unexpected(err), AtMappings)
  {
    err := store.DeleteChunkLink(k);
    if err.Some? {
      return;
    }
    err := store.DeleteMetadata(k);
  }

  /** A generation that was undone, or whose undo failed on a fault of its own. */
  ghost predicate UndoneGeneration(c: Setup, s: State, q: Request, e: Error, m: Blocks, t: Tables, faults: Log, n: nat)
  {
    if e.RollbackFailed? then
      && HalfGenerated(c, s, q, m, t)
      && |e.failures| == 1 && e.failures[0].contextID == q.contextID
      && Reported(faults, n, e.failures[0].err)
    else t == s.tables
  }

  /** Undoing the rows written puts the tables back, or leaves each row of the
      one key old or new. */
  lemma UndoingHalfGenerated(c: Setup, s: State, q: Request, m: Blocks, t: Tables, t': Tables, err: Option<Error>)
    requires HalfGenerated(c, s, q, m, t)
    requires UndoStep(Restore(KeyOf(q), Lookup(s.tables, KeyOf(q))), t, t', err)
    ensures HalfGenerated(c, s, q, m, t') && (err.None? ==> t' == s.tables)
  {
    var k := KeyOf(q);
    RowsWithinBack(s.tables, t, t', k, GeneratedRecord(c, s, q));
    OnlyKeyIsUpdate(s.tables, t, k);
    UpdateTwice(s.tables, k, Lookup(t, k), Lookup(s.tables, k));
    UpdateSame(s.tables, k);
  }

  /** Runs the undo of a generation that failed, and reports it if it fails too. */
  method UndoGeneration(store: AdStore, q: Request, err: Error, undo: Undo, ghost c: Setup, ghost s: State,
                        ghost before: Log) returns (e: Error)
    requires HalfGenerated(c, s, q, store.blocks, store.Tables())
    requires undo == Restore(KeyOf(q), Lookup(s.tables, KeyOf(q)))
    requires FailedGeneration(c, s, q, err, Some(undo), store.blocks, store.Tables(), store.strictDeletes, before,
                              store.faults)
    requires !ReportsAsFound(err)
    modifies store`chunkLinks, store`metas, store`faults
    ensures CauseOf(e) == err && Explained(s, q, store.strictDeletes, before, store.faults, e)
    ensures UndoneGeneration(c, s, q, e, store.blocks, store.Tables(), store.faults, UndoFaultsFrom(e, before))
  {
    ghost var t, faults := store.Tables(), store.faults;
    var uerr := RunUndo(store, undo);
    UndoingHalfGenerated(c, s, q, store.blocks, t, store.Tables(), uerr);
    UndoTimedOut(undo, faults, store.faults, t, store.Tables(), uerr);
    var failures := if uerr.Some? then [Failure(q.contextID, uerr.value)] else [];
    e := WithFailures(err, failures, 1);
    UndoneExplained(s, q, store.strictDeletes, before, faults, store.faults, err, uerr);
    if uerr.Some? {
      FaultedIsReported(faults, store.faults, UndoFaultsFrom(e, before), uerr.value);
    }
  }

  lemma NotUndoneExplained(s: State, q: Request, strict: bool, before: Log, after: Log, e: Error)
    requires !e.RollbackFailed?
    requires if e == MISSING_ROW then RemovesTooMuch(s, q, strict) && after == before
             else Stopped(before, after, Some(e), QUOTED)
    ensures Explained(s, q, strict, before, after, e)
  {
  }

  lemma UndoneExplained(s: State, q: Request, strict: bool, before: Log, between: Log, after: Log, err: Error,
                        uerr: Option<Error>)
    requires !err.RollbackFailed?
    requires if err == MISSING_ROW then RemovesTooMuch(s, q, strict) && between == before
             else Stopped(before, between, Some(err), QUOTED)
    requires between <= after && (TimedOut(uerr) <==> TimeoutIn(after, |between|, |after|))
    ensures Explained(s, q, strict, before, after, WithFailures(err, FailuresOf([q.contextID], [uerr]), 1))
    ensures FailuresOf([q.contextID], [uerr]) == if uerr.Some? then [Failure(q.contextID, uerr.value)] else []
  {
    OneFailure(q.contextID, uerr);
    WithFailuresTimedOut(err, [q.contextID], [uerr], 1);
    assert ErrsTimedOut([uerr]) <==> TimedOut(uerr) by {
      if TimedOut(uerr) {
        assert TimedOut([uerr][0]);
      }
    }
  }

  /** GenerateAd: generating is atomic. It fails on a fault, leaving the tables
      as they were or naming the one mapping it could not put back; or on a
      missing row; or it is refused, and then nothing at all was written. */
  method GenerateAd(store: AdStore, q: Request, ghost c: Setup) returns (r: Result<Advertisement>)
    requires store.Valid() && For(c, store)
    modifies store`blocks, store`chunkLinks, store`metas, store`faults
    ensures store.Valid() && Sub(old(store.blocks), store.blocks)
    ensures r.Ok? ==>
      && Generate(c, old(store.S()), q) == Ok((store.S(), r.value)) && store.faults == old(store.faults)
      && !RemovesTooMuch(old(store.S()), q, store.strictDeletes)
    ensures r.Err? ==>
      if ReportsAsFound(CauseOf(r.error)) then
        Refused(c, old(store.S()), q, r.error) && store.S() == old(store.S()) && store.faults == old(store.faults)
      else
        && Explained(old(store.S()), q, store.strictDeletes, old(store.faults), store.faults, r.error)
        && UndoneGeneration(c, old(store.S()), q, r.error, store.blocks, store.Tables(), store.faults,
                            UndoFaultsFrom(r.error, old(store.faults)))
  {
    var undo: Option<Undo>;
    r, undo := GenerateWithUndo(store, q, c);
    if r.Ok? || undo.None? || ReportsAsFound(r.error) {
      if r.Err? && !ReportsAsFound(r.error) {
        NotUndoneExplained(old(store.S()), q, store.strictDeletes, old(store.faults), store.faults, r.error);
      }
      return;
    }
    var e := UndoGeneration(store, q, r.error, undo.value, c, old(store.S()), old(store.faults));
    r := Err(e);
  }
}
