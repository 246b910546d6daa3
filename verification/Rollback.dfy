/**
 Undoing mapping writes (pkg/publisher/rollback.go). The closures of the
 program are values here: `Restore` puts back a record that was read before
 anything was written, `Forget` drops what generating an advert wrote.
 */
module Rollback {
  import opened AdStores
  import opened Errors
  import opened Faults
  import opened Ipld
  import opened Mappings
  import opened Sequences
  import opened Wrappers

  datatype Undo =
    | NoUndo
    | Restore(key: Key, prior: Record)
    | Forget(adv: Advertisement)

  function AdvKey(adv: Advertisement): Key {
    Key(adv.provider, adv.contextID)
  }

  /** What putting a record back does: the whole record when it reports no
      error, and one of its rows when it reports one. A write that failed may
      have put its row back all the same. */
  ghost predicate RestoreStep(k: Key, prior: Record, t: Tables, t': Tables, err: Option<Error>) {
    && RowsWithin(t, t', k, prior)
    && match err
       case None => t' == Update(t, k, prior)
       case Some(Joined(errs)) =>
         && 1 <= |errs| <= 2
         && (|errs| == 1 ==> Lookup(t', k).chunk == prior.chunk || Lookup(t', k).meta == prior.meta)
       case Some(_) => false
  }

  /** What an undo does to the tables, and what it reports. The undo of a queued
      advert changes nothing if it cannot tell whose advert it is. */
  ghost predicate UndoStep(u: Undo, t: Tables, t': Tables, err: Option<Error>) {
    match u
    case NoUndo => t' == t && err.None?
    case Restore(k, prior) => RestoreStep(k, prior, t, t', err)
    case Forget(adv) =>
      if adv.isRm then t' == t && err == Some(Wrap(ContextIDNotFound))
      else if err.Some? && err.value.Wrap? then t' == t
      else RestoreStep(AdvKey(adv), UNMAPPED, t, t', err)
  }

  /** The undo of a queued removal can only report that it cannot be undone. */
  predicate CannotUndo(u: Undo) {
    u.Forget? && u.adv.isRm
  }

  /** Each error of an undo is a fault it met, and it met no other. */
  predicate UndoLogged(u: Undo, before: Log, after: Log, err: Option<Error>) {
    if CannotUndo(u) then after == before
    else
      match err
      case None => after == before
      case Some(Joined(errs)) =>
        && before <= after && |after| == |before| + |errs|
        && forall i :: 0 <= i < |errs| ==>
             errs[i] == Wrap(after[|before| + i].err) && after[|before| + i].site == AtMappings
      case Some(Wrap(inner)) => Met(before, after, Some(inner), OffStore)
      case Some(_) => false
  }

  /** An undo's error is a timeout exactly if a fault it met is one. */
  lemma UndoTimedOut(u: Undo, before: Log, after: Log, t: Tables, t': Tables, err: Option<Error>)
    requires UndoLogged(u, before, after, err) && UndoStep(u, t, t', err)
    ensures before <= after && (TimedOut(err) <==> TimeoutIn(after, |before|, |after|))
  {
    if err.Some? && err.value.Joined? {
      var errs := err.value.errs;
      if i :| 0 <= i < |errs| && Is(errs[i], DeadlineExceeded) {
        assert Is(after[|before| + i].err, DeadlineExceeded);
      }
      if i :| |before| <= i < |after| && Is(after[i].err, DeadlineExceeded) {
        assert Is(errs[i - |before|], DeadlineExceeded);
      }
    } else if err.Some? && !CannotUndo(u) {
      assert after[|before|].err == err.value.inner;
    }
  }

  /** Puts one row back: writes it, or deletes it, being missing already or not. */
  method RestoreChunkLink(store: AdStore, k: Key, prior: Option<Link>) returns (err: Option<Error>)
    modifies store`chunkLinks, store`faults
    ensures RowWritten(old(store.chunkLinks), store.chunkLinks, k, prior, err)
    ensures Met(old(store.faults), store.faults, err, AtMappings)
  {
    if prior.None? {
      err := store.DeleteChunkLink(k);
      if err.Some? && Is(err.value, NotFound) {
        assert store.chunkLinks == SetRow(old(store.chunkLinks), k, None);
        return None;
      }
    } else {
      err := store.PutChunkLink(k, prior.value);
    }
  }

  method RestoreMetadata(store: AdStore, k: Key, prior: Option<Metadata>) returns (err: Option<Error>)
    modifies store`metas, store`faults
    ensures RowWritten(old(store.metas), store.metas, k, prior, err)
    ensures Met(old(store.faults), store.faults, err, AtMappings)
  {
    if prior.None? {
      err := store.DeleteMetadata(k);
      if err.Some? && Is(err.value, NotFound) {
        assert store.metas == SetRow(old(store.metas), k, None);
        return None;
      }
    } else {
      err := store.PutMetadata(k, prior.value);
    }
  }

  lemma BothRowsRestored(t: Tables, t': Tables, k: Key, prior: Record, e1: Option<Error>, e2: Option<Error>)
    requires RowWritten(t.chunks, t'.chunks, k, prior.chunk, e1) && RowWritten(t.metas, t'.metas, k, prior.meta, e2)
    ensures RestoreStep(k, prior, t, t', JoinErrors(Wrapped(Listed(e1) + Listed(e2))))
  {
  }

  /** restoreMappings: puts both rows of a record back, and joins the errors of
      the two. */
  method RestoreMappings(store: AdStore, k: Key, prior: Record) returns (err: Option<Error>)
    modifies store`chunkLinks, store`metas, store`faults
    ensures UndoStep(Restore(k, prior), old(store.Tables()), store.Tables(), err)
    ensures UndoLogged(Restore(k, prior), old(store.faults), store.faults, err)
    ensures Logged(old(store.faults), store.faults, err)
  {
    var e1 := RestoreChunkLink(store, k, prior.chunk);
    ghost var between := store.faults;
    var e2 := RestoreMetadata(store, k, prior.meta);
    var errs := Listed(e1) + Listed(e2);
    err := JoinErrors(Wrapped(errs));
    BothRowsRestored(old(store.Tables()), store.Tables(), k, prior, e1, e2);
    MetBoth(old(store.faults), between, store.faults, e1, e2, AtMappings);
    JoinedAreLogged(old(store.faults), store.faults, errs);
  }

  method ForgetMappings(store: AdStore, adv: Advertisement) returns (err: Option<Error>)
    modifies store`chunkLinks, store`metas, store`faults
    ensures UndoStep(Forget(adv), old(store.Tables()), store.Tables(), err)
    ensures UndoLogged(Forget(adv), old(store.faults), store.faults, err)
  {
    if adv.isRm {
      return Some(Wrap(ContextIDNotFound));
    }
    var undecodable := store.MayFail();
    if undecodable.Some? {
      return Some(Wrap(undecodable.value));
    }
    assert store.faults == old(store.faults);
    err := RestoreMappings(store, AdvKey(adv), UNMAPPED);
  }

  method RunUndo(store: AdStore, u: Undo) returns (err: Option<Error>)
    modifies store`chunkLinks, store`metas, store`faults
    ensures UndoStep(u, old(store.Tables()), store.Tables(), err)
    ensures UndoLogged(u, old(store.faults), store.faults, err)
    ensures u.Restore? ==> Logged(old(store.faults), store.faults, err)
  {
    match u
    case NoUndo => err := None;
    case Restore(k, prior) => err := RestoreMappings(store, k, prior);
    case Forget(adv) => err := ForgetMappings(store, adv);
  }

  // ----- the order of undos -----

  function ApplyUndo(t: Tables, u: Undo): Tables {
    match u
    case NoUndo => t
    case Restore(k, prior) => Update(t, k, prior)
    case Forget(adv) => if adv.isRm then t else Update(t, AdvKey(adv), UNMAPPED)
  }

  /** Undoing newest first. */
  function UndoNewestFirst(t: Tables, undos: seq<Undo>): Tables
    decreases |undos|
  {
    if undos == [] then t
    else UndoNewestFirst(ApplyUndo(t, undos[|undos| - 1]), undos[..|undos| - 1])
  }

  /** Undoing oldest first. */
  function UndoOldestFirst(t: Tables, undos: seq<Undo>): Tables {
    if undos == [] then t
    else ApplyUndo(UndoOldestFirst(t, undos[..|undos| - 1]), undos[|undos| - 1])
  }

  /** The tables before and after each of a sequence of generations, each of
      which changed one key and recorded what that key was mapped to. */
  ghost predicate History(ts: seq<Tables>, undos: seq<Undo>) {
    && |ts| == |undos| + 1
    && (forall i :: 0 <= i < |undos| ==> undos[i].Restore?)
    && forall i :: 0 <= i < |undos| ==> Generation(ts[i], ts[i + 1], undos[i])
  }

  ghost predicate Generation(t: Tables, t': Tables, u: Undo) {
    u.Restore? && OnlyKey(t, t', u.key) && u.prior == Lookup(t, u.key)
  }

  /** Newest first, undoing is exact, however often keys repeat. */
  lemma {:induction false} NewestFirstIsExact(ts: seq<Tables>, undos: seq<Undo>)
    requires History(ts, undos)
    ensures UndoNewestFirst(ts[|undos|], undos) == ts[0]
  {
    if undos != [] {
      var n := |undos| - 1;
      var t, t', u := ts[n], ts[n + 1], undos[n];
      assert Generation(t, t', u);
      UpdateLookup(t', u.key, u.prior);
      TablesExtensional(Update(t', u.key, u.prior), t);
      NewestFirstIsExact(ts[..n + 1], undos[..n]);
    }
  }

  /** i is the newest generation for its key. */
  ghost predicate NewestFor(undos: seq<Undo>, i: nat)
    requires i < |undos| && forall j :: 0 <= j < |undos| ==> undos[j].Restore?
  {
    forall j :: i < j < |undos| ==> undos[j].key != undos[i].key
  }

  lemma {:induction false} OldestFirstElsewhere(t: Tables, undos: seq<Undo>, k: Key)
    requires forall j :: 0 <= j < |undos| ==> undos[j].Restore? && undos[j].key != k
    ensures Lookup(UndoOldestFirst(t, undos), k) == Lookup(t, k)
  {
    if undos != [] {
      OldestFirstElsewhere(t, undos[..|undos| - 1], k);
    }
  }

  lemma {:induction false} OldestFirstNewest(t: Tables, undos: seq<Undo>, i: nat)
    requires i < |undos| && (forall j :: 0 <= j < |undos| ==> undos[j].Restore?) && NewestFor(undos, i)
    ensures Lookup(UndoOldestFirst(t, undos), undos[i].key) == undos[i].prior
    decreases |undos|
  {
    if i < |undos| - 1 {
      OldestFirstNewest(t, undos[..|undos| - 1], i);
    }
  }

  lemma {:induction false} UntouchedKey(ts: seq<Tables>, undos: seq<Undo>, k: Key)
    requires History(ts, undos) && forall j :: 0 <= j < |undos| ==> undos[j].key != k
    ensures Lookup(ts[|undos|], k) == Lookup(ts[0], k)
  {
    if undos != [] {
      var n := |undos| - 1;
      assert Generation(ts[n], ts[n + 1], undos[n]);
      UntouchedKey(ts[..n + 1], undos[..n], k);
    }
  }

  lemma NewestForKey(undos: seq<Undo>, k: Key) returns (i: int)
    requires forall j :: 0 <= j < |undos| ==> undos[j].Restore?
    ensures if i < 0 then forall j :: 0 <= j < |undos| ==> undos[j].key != k
            else i < |undos| && undos[i].key == k && NewestFor(undos, i)
  {
    i := |undos| - 1;
    while i >= 0 && undos[i].key != k
      invariant -1 <= i < |undos|
      invariant forall j :: i < j < |undos| ==> undos[j].key != k
    {
      i := i - 1;
    }
  }

  /** For every key, the newest generation recorded what t maps the key to. */
  ghost predicate NewestFound(t: Tables, undos: seq<Undo>)
    requires forall j :: 0 <= j < |undos| ==> undos[j].Restore?
  {
    forall i :: 0 <= i < |undos| && NewestFor(undos, i) ==> undos[i].prior == Lookup(t, undos[i].key)
  }

  /** Oldest first, undoing is exact if and only if, for every key, the newest
      generation found what the first one did. */
  lemma {:induction false} OldestFirstExactIff(ts: seq<Tables>, undos: seq<Undo>)
    requires History(ts, undos)
    ensures UndoOldestFirst(ts[|undos|], undos) == ts[0] <==> NewestFound(ts[0], undos)
  {
    var undone := UndoOldestFirst(ts[|undos|], undos);
    forall i | 0 <= i < |undos| && NewestFor(undos, i)
      ensures Lookup(undone, undos[i].key) == undos[i].prior
    {
      OldestFirstNewest(ts[|undos|], undos, i);
    }
    if NewestFound(ts[0], undos) {
      forall k ensures Lookup(undone, k) == Lookup(ts[0], k) {
        var i := NewestForKey(undos, k);
        if i < 0 {
          UntouchedKey(ts, undos, k);
          OldestFirstElsewhere(ts[|undos|], undos, k);
        } else {
          OldestFirstNewest(ts[|undos|], undos, i);
        }
      }
      TablesExtensional(undone, ts[0]);
    }
  }

  /** Two generations for one key are enough for oldest first to fail: it puts
      the first one's record back. */
  lemma OldestFirstCanFail(k: Key, l: Link)
    ensures
      var t0 := Tables(map[], map[]);
      var t1 := Update(t0, k, Record(Some(l), Some("a")));
      var t2 := Update(t1, k, Record(Some(l), Some("b")));
      var undos := [Restore(k, Lookup(t0, k)), Restore(k, Lookup(t1, k))];
      && History([t0, t1, t2], undos)
      && UndoOldestFirst(t2, undos) == t1
      && t1 != t0
      && UndoNewestFirst(t2, undos) == t0
  {
    var t0 := Tables(map[], map[]);
    var t1 := Update(t0, k, Record(Some(l), Some("a")));
    var t2 := Update(t1, k, Record(Some(l), Some("b")));
    var u0, u1 := Restore(k, Lookup(t0, k)), Restore(k, Lookup(t1, k));
    var undos := [u0, u1];
    assert Generation(t0, t1, u0) && Generation(t1, t2, u1);
    NewestFirstIsExact([t0, t1, t2], undos);
    assert undos[..1] == [u0] && [u0][..0] == [];
    assert UndoOldestFirst(t2, [u0]) == Update(t2, k, Lookup(t0, k));
    assert UndoOldestFirst(t2, undos) == Update(UndoOldestFirst(t2, [u0]), k, Lookup(t1, k));
    assert Lookup(t2, k) == Record(Some(l), Some("b"));
    UndoTwice(t1, k, Lookup(t2, k), Lookup(t0, k));
    assert Lookup(t1, k) != Lookup(t0, k);
  }

  lemma UndoTwice(t: Tables, k: Key, r: Record, r': Record)
    ensures Update(Update(Update(t, k, r), k, r'), k, Lookup(t, k)) == t
  {
    UpdateTwice(Update(t, k, r), k, r', Lookup(t, k));
    UpdateTwice(t, k, r, Lookup(t, k));
    UpdateSame(t, k);
  }

  // ----- runs of undos in which some fail -----

  /** The tables and the log before, between and after the undos of a pending
      list, run newest first, with what each reported. */
  datatype UndoRun = UndoRun(trace: seq<Tables>, errs: seq<Option<Error>>, logs: seq<Log>)

  ghost predicate IsUndoRun(undos: seq<Undo>, run: UndoRun, t: Tables, t': Tables) {
    && |run.errs| == |undos| && |run.trace| == |undos| + 1
    && run.trace[0] == t && run.trace[|undos|] == t'
    && (forall i :: 0 <= i < |undos| ==>
          UndoStep(undos[|undos| - 1 - i], run.trace[i], run.trace[i + 1], run.errs[i]))
    && LogsKept(undos, run.errs, run.logs)
  }

  /** The logs kept so far by the undos that were run, newest first. */
  ghost predicate LogsKept(undos: seq<Undo>, errs: seq<Option<Error>>, logs: seq<Log>) {
    && |errs| <= |undos| && |logs| == |errs| + 1
    && forall i :: 0 <= i < |errs| ==> UndoLogged(undos[|undos| - 1 - i], logs[i], logs[i + 1], errs[i])
  }

  lemma LogsOneMore(undos: seq<Undo>, errs: seq<Option<Error>>, logs: seq<Log>, err: Option<Error>, log: Log)
    requires LogsKept(undos, errs, logs) && |errs| < |undos|
    requires UndoLogged(undos[|undos| - 1 - |errs|], logs[|errs|], log, err)
    ensures LogsKept(undos, errs + [err], logs + [log])
  {
  }

  lemma {:induction false} LogsGrow(undos: seq<Undo>, errs: seq<Option<Error>>, logs: seq<Log>, i: nat, j: nat)
    requires LogsKept(undos, errs, logs) && i <= j <= |errs|
    ensures logs[i] <= logs[j]
  {
    if i < j {
      LogsGrow(undos, errs, logs, i, j - 1);
      assert UndoLogged(undos[|undos| - 1 - (j - 1)], logs[j - 1], logs[(j - 1) + 1], errs[j - 1]);
    }
  }

  /** Some undo of a run timed out exactly if a fault met by the run is a
      deadline. */
  lemma {:induction false} RunTimedOut(undos: seq<Undo>, run: UndoRun, t: Tables, t': Tables, n: nat)
    requires IsUndoRun(undos, run, t, t') && n <= |undos|
    ensures run.logs[0] <= run.logs[n]
    ensures ErrsTimedOut(run.errs[..n]) <==> TimeoutIn(run.logs[n], |run.logs[0]|, |run.logs[n]|)
  {
    if n > 0 {
      var i := n - 1;
      RunTimedOut(undos, run, t, t', i);
      var u := undos[|undos| - 1 - i];
      assert UndoLogged(u, run.logs[i], run.logs[i + 1], run.errs[i])
        && UndoStep(u, run.trace[i], run.trace[i + 1], run.errs[i]);
      UndoTimedOut(u, run.logs[i], run.logs[i + 1], run.trace[i], run.trace[i + 1], run.errs[i]);
      TimeoutInBoth(run.logs[i], run.logs[n], |run.logs[0]|);
      TakeOneMore(run.errs, i);
      ErrsTimedOutOneMore(run.errs[..i], run.errs[i]);
    }
  }

  /** An undo that failed, a removal's apart, failed on a fault it met itself. */
  lemma UndoErrorReported(undos: seq<Undo>, run: UndoRun, t: Tables, t': Tables, i: nat)
    requires IsUndoRun(undos, run, t, t') && i < |undos| && run.errs[i].Some? && !CannotUndo(undos[|undos| - 1 - i])
    ensures Reported(run.logs[|undos|], |run.logs[0]|, run.errs[i].value)
  {
    LogsGrow(undos, run.errs, run.logs, 0, i);
    LogsGrow(undos, run.errs, run.logs, i + 1, |undos|);
    var u, err := undos[|undos| - 1 - i], run.errs[i];
    assert UndoLogged(u, run.logs[i], run.logs[i + 1], err) && UndoStep(u, run.trace[i], run.trace[i + 1], err);
    FirstErrorReported(u, run.logs[i], run.logs[i + 1], run.trace[i], run.trace[i + 1], err.value);
    ReportedGrows(run.logs[i + 1], run.logs[|undos|], |run.logs[i]|, err.value);
    ReportedSooner(run.logs[|undos|], |run.logs[0]|, |run.logs[i]|, err.value);
  }

  lemma FirstErrorReported(u: Undo, before: Log, after: Log, t: Tables, t': Tables, e: Error)
    requires UndoLogged(u, before, after, Some(e)) && UndoStep(u, t, t', Some(e)) && !CannotUndo(u)
    ensures Reported(after, |before|, e)
  {
    if e.Joined? {
      assert From(e.errs[0], after[|before|].err);
    }
    assert From(e, after[|before|].err);
  }

  ghost predicate NoUndoFailed(run: UndoRun) {
    forall i :: 0 <= i < |run.errs| ==> run.errs[i].None?
  }

  lemma LogsAfterFirst(undos: seq<Undo>, errs: seq<Option<Error>>, logs: seq<Log>)
    requires undos != [] && LogsKept(undos, errs, logs) && |errs| == |undos|
    ensures LogsKept(undos[..|undos| - 1], errs[1..], logs[1..])
  {
    var n := |undos| - 1;
    forall i | 0 <= i < n ensures UndoLogged(undos[..n][n - 1 - i], logs[1..][i], logs[1..][i + 1], errs[1..][i]) {
      assert UndoLogged(undos[|undos| - 1 - (i + 1)], logs[i + 1], logs[(i + 1) + 1], errs[i + 1]);
    }
  }

  /** A run in which no undo failed is the newest-first undo. */
  lemma {:induction false} CleanRunUndoes(undos: seq<Undo>, run: UndoRun, t: Tables, t': Tables)
    requires IsUndoRun(undos, run, t, t') && NoUndoFailed(run)
    ensures t' == UndoNewestFirst(t, undos)
  {
    if undos != [] {
      var n := |undos| - 1;
      assert UndoStep(undos[n - 0], run.trace[0], run.trace[1], run.errs[0]);
      var rest := UndoRun(run.trace[1..], run.errs[1..], run.logs[1..]);
      forall i | 0 <= i < n
        ensures UndoStep(undos[..n][n - 1 - i], rest.trace[i], rest.trace[i + 1], rest.errs[i])
      {
        assert UndoStep(undos[n - (i + 1)], run.trace[i + 1], run.trace[i + 2], run.errs[i + 1]);
      }
      assert LogsKept(undos[..n], rest.errs, rest.logs) by {
        LogsAfterFirst(undos, run.errs, run.logs);
      }
      CleanRunUndoes(undos[..n], rest, run.trace[1], t');
    }
  }

  /** Failing no undo, a run over the undos that generations recorded returns
      the tables to what they were before the first of them. */
  lemma CleanRunIsExact(ts: seq<Tables>, undos: seq<Undo>, run: UndoRun, t': Tables)
    requires History(ts, undos) && IsUndoRun(undos, run, ts[|undos|], t') && NoUndoFailed(run)
    ensures t' == ts[0]
  {
    CleanRunUndoes(undos, run, ts[|undos|], t');
    NewestFirstIsExact(ts, undos);
  }

  /** Undos that only forget never bring a mapping back. */
  lemma {:induction false} ForgottenStays(undos: seq<Undo>, run: UndoRun, t: Tables, t': Tables, k: Key, i: nat)
    requires IsUndoRun(undos, run, t, t') && i <= |undos|
    requires forall j :: 0 <= j < |undos| ==> undos[j].Forget?
    requires Lookup(run.trace[i], k) == UNMAPPED
    ensures Lookup(t', k) == UNMAPPED
    decreases |undos| - i
  {
    if i < |undos| {
      assert UndoStep(undos[|undos| - 1 - i], run.trace[i], run.trace[i + 1], run.errs[i]);
      ForgottenStays(undos, run, t, t', k, i + 1);
    }
  }

  /** After a failed commit of adverts queued without an exact undo, every
      addition whose own undo reported no error has neither mapping, whatever
      the other undos did; every removal's undo reported an error that names
      what its retry will meet; and keys of no queued addition are untouched. */
  lemma ForgetOutcome(undos: seq<Undo>, run: UndoRun, t: Tables, t': Tables)
    requires IsUndoRun(undos, run, t, t')
    requires forall j :: 0 <= j < |undos| ==> undos[j].Forget?
    ensures forall i :: 0 <= i < |undos| && !undos[i].adv.isRm && run.errs[|undos| - 1 - i].None? ==>
      Lookup(t', AdvKey(undos[i].adv)) == UNMAPPED
    ensures forall i :: 0 <= i < |undos| && undos[i].adv.isRm ==>
      run.errs[|undos| - 1 - i].Some? && Is(run.errs[|undos| - 1 - i].value, ContextIDNotFound)
    ensures forall k :: (forall i :: 0 <= i < |undos| ==> undos[i].adv.isRm || AdvKey(undos[i].adv) != k) ==>
      Lookup(t', k) == Lookup(t, k)
  {
    var n := |undos|;
    forall i | 0 <= i < n && !undos[i].adv.isRm && run.errs[n - 1 - i].None?
      ensures Lookup(t', AdvKey(undos[i].adv)) == UNMAPPED
    {
      var j := n - 1 - i;
      assert UndoStep(undos[n - 1 - j], run.trace[j], run.trace[j + 1], run.errs[j]);
      UpdateLookup(run.trace[j], AdvKey(undos[i].adv), UNMAPPED);
      ForgottenStays(undos, run, t, t', AdvKey(undos[i].adv), j + 1);
    }
    forall i | 0 <= i < n && undos[i].adv.isRm
      ensures run.errs[n - 1 - i].Some? && Is(run.errs[n - 1 - i].value, ContextIDNotFound)
    {
      var j := n - 1 - i;
      assert UndoStep(undos[n - 1 - j], run.trace[j], run.trace[j + 1], run.errs[j]);
    }
    forall k | forall i :: 0 <= i < n ==> undos[i].adv.isRm || AdvKey(undos[i].adv) != k
      ensures Lookup(t', k) == Lookup(t, k)
    {
      ForgetFrame(undos, run, t, t', k, n);
    }
  }

  lemma {:induction false} ForgetFrame(undos: seq<Undo>, run: UndoRun, t: Tables, t': Tables, k: Key, i: nat)
    requires IsUndoRun(undos, run, t, t') && i <= |undos|
    requires forall j :: 0 <= j < |undos| ==> undos[j].Forget? && (undos[j].adv.isRm || AdvKey(undos[j].adv) != k)
    ensures Lookup(run.trace[i], k) == Lookup(t, k)
  {
    if i > 0 {
      assert UndoStep(undos[|undos| - 1 - (i - 1)], run.trace[i - 1], run.trace[i], run.errs[i - 1]);
      ForgetFrame(undos, run, t, t', k, i - 1);
    }
  }
}
