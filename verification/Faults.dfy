/**
 A store logs every fault: each call that fails of itself, and each refusal to
 sign, validate or encode. Answers such as "not found", "precondition failed"
 or "already advertised" are no faults. The log is what lets a contract say
 that a call succeeds when nothing fails, and which failure an error is about.
 */
module Faults {
  import opened Errors
  import opened Wrappers

  // Where a fault was met: in which call of the store, or off it, signing,
  // validating or encoding. Replacing the head compares it before writing it.
  datatype Site = AtEntries | AtMappings | AtAdverts | AtHeadRead | AtHeadCompare | AtHeadWrite | OffStore

  datatype Fault = Fault(err: Error, site: Site)

  type Log = seq<Fault>

  /** Some error that is none of the values the program branches on. */
  method AnyError() returns (e: Error)
    ensures Foreign(e)
  {
    assert Foreign(Other(0));
    e :| Foreign(e);
  }

  /** Whether something fails now: no caller can tell, or make it. */
  method MayFail(ghost log: Log, ghost site: Site) returns (fault: Option<Error>, ghost log': Log)
    ensures fault.Some? ==> Foreign(fault.value)
    ensures log' == log + if fault.Some? then [Fault(fault.value, site)] else []
  {
    var fails: bool := *;
    if !fails {
      return None, log;
    }
    var e := AnyError();
    return Some(e), log + [Fault(e, site)];
  }

  function ErrorIn<T>(r: Result<T>): Option<Error> {
    if r.Err? then Some(r.error) else None
  }

  /** What an answer says beyond that there is nothing there. */
  function Unexpected(err: Option<Error>): Option<Error> {
    if err == Some(NotFound) then None else err
  }

  /** e is the error f, or reports it through any wrapping. */
  predicate From(e: Error, f: Error) {
    e == f ||
    match e
    case Wrap(inner) => From(inner, f)
    case Hidden(inner) => From(inner, f)
    case Joined(errs) => exists i | 0 <= i < |errs| :: From(errs[i], f)
    case RollbackFailed(cause, _, _) => From(cause, f)
    case _ => false
  }

  /** Something failed between the two logs, and e reports the first fault. */
  predicate Faulted(before: Log, after: Log, e: Error) {
    before < after && From(e, after[|before|].err)
  }

  /** A call succeeded without a fault, or failed on its first. */
  predicate Logged(before: Log, after: Log, err: Option<Error>) {
    if err.Some? then Faulted(before, after, err.value) else after == before
  }

  /** The call is answered with its one fault, met at the site, if it met one. */
  predicate Met(before: Log, after: Log, fault: Option<Error>, site: Site) {
    && before <= after
    && |after| == |before| + |Listed(fault)|
    && (fault.Some? ==> after[|before|] == Fault(fault.value, site))
  }

  /** Several calls were made, of which these failed, each on its one fault. */
  predicate MetAll(before: Log, after: Log, errs: seq<Error>, site: Site) {
    && before <= after
    && |after| == |before| + |errs|
    && forall i :: 0 <= i < |errs| ==> after[|before| + i] == Fault(errs[i], site)
  }

  lemma MetBoth(before: Log, between: Log, after: Log, e1: Option<Error>, e2: Option<Error>, site: Site)
    requires Met(before, between, e1, site) && Met(between, after, e2, site)
    ensures MetAll(before, after, Listed(e1) + Listed(e2), site)
  {
  }

  /** The head may have moved although its write failed: that write is the first
      fault, and the store is none whose failing head write has no effect. */
  predicate MayMove(atomicHead: bool, before: Log, after: Log) {
    !atomicHead && |before| < |after| && after[|before|].site == AtHeadWrite
  }

  // ----- deadlines -----

  // Where a publisher quotes the message of an error instead of wrapping it:
  // writing entries, and, outside PublishBatch, mappings and reading the head.
  const QUOTED := {AtEntries, AtMappings, AtHeadRead}
  const BATCH_QUOTED := {AtEntries}

  /** A call succeeded without a fault, or stopped at its first. The error is
      about that fault, and errors.Is finds a deadline in it exactly if the
      fault is one and was met where it is not quoted. */
  predicate Stopped(before: Log, after: Log, err: Option<Error>, quoted: set<Site>) {
    if err.None? then after == before
    else
      && before <= after && |after| == |before| + 1
      && From(err.value, after[|before|].err)
      && (Is(err.value, DeadlineExceeded) <==>
            Is(after[|before|].err, DeadlineExceeded) && after[|before|].site !in quoted)
  }

  /** A deadline was exceeded between two points of a log. */
  ghost predicate TimeoutIn(log: Log, from: nat, to: nat) {
    exists i :: from <= i < to && i < |log| && Is(log[i].err, DeadlineExceeded)
  }

  ghost predicate ErrsTimedOut(errs: seq<Option<Error>>) {
    exists i :: 0 <= i < |errs| && TimedOut(errs[i])
  }

  predicate TimedOut(err: Option<Error>) {
    err.Some? && Is(err.value, DeadlineExceeded)
  }

  /** What makes an error a timeout: the first fault was a deadline, met where it
      is not quoted, or an undo met one. The faults of undos are those from the
      n-th on. */
  ghost predicate TimedOutBy(before: Log, after: Log, quoted: set<Site>, n: nat) {
    || (|before| < n && |before| < |after|
        && Is(after[|before|].err, DeadlineExceeded) && after[|before|].site !in quoted)
    || TimeoutIn(after, n, |after|)
  }

  /** A fault's error quoted, where it is. */
  lemma QuotedStops(before: Log, after: Log, e: Error, site: Site, quoted: set<Site>)
    requires Met(before, after, Some(e), site) && site in quoted
    ensures Stopped(before, after, Some(Hidden(e)), quoted)
  {
    assert From(e, e);
  }

  /** A fault's error returned or wrapped, where it is not quoted. */
  lemma ShownStops(before: Log, after: Log, e: Error, site: Site, quoted: set<Site>)
    requires Met(before, after, Some(e), site) && site !in quoted
    ensures Stopped(before, after, Some(e), quoted)
    ensures Stopped(before, after, Some(Wrap(e)), quoted)
  {
    assert From(e, e);
  }

  lemma WrappedStops(before: Log, after: Log, e: Error, quoted: set<Site>)
    requires Stopped(before, after, Some(e), quoted)
    ensures Stopped(before, after, Some(Wrap(e)), quoted)
  {
  }

  /** e is about the first fault, and is a timeout exactly if the faults make it
      one, those of undos coming after the first. */
  ghost predicate Blamed(before: Log, after: Log, e: Error, quoted: set<Site>) {
    && Faulted(before, after, e)
    && (Is(e, DeadlineExceeded) <==> TimedOutBy(before, after, quoted, |before| + 1))
  }

  lemma StoppedIsBlamed(before: Log, after: Log, e: Error, quoted: set<Site>)
    requires Stopped(before, after, Some(e), quoted)
    ensures Blamed(before, after, e, quoted)
  {
  }

  lemma TimeoutInBoth(log: Log, log': Log, n: nat)
    requires log <= log' && n <= |log|
    ensures TimeoutIn(log', n, |log'|) <==> TimeoutIn(log, n, |log|) || TimeoutIn(log', |log|, |log'|)
  {
    if TimeoutIn(log, n, |log|) {
      var i :| n <= i < |log| && Is(log[i].err, DeadlineExceeded);
      assert log'[i] == log[i];
    }
    if TimeoutIn(log', n, |log'|) && !TimeoutIn(log', |log|, |log'|) {
      var i :| n <= i < |log'| && Is(log'[i].err, DeadlineExceeded);
      assert log[i] == log'[i];
    }
  }

  lemma ErrsTimedOutOneMore(errs: seq<Option<Error>>, err: Option<Error>)
    ensures ErrsTimedOut(errs + [err]) <==> ErrsTimedOut(errs) || TimedOut(err)
  {
    if i :| 0 <= i < |errs| && TimedOut(errs[i]) {
      assert TimedOut((errs + [err])[i]);
    }
    if TimedOut(err) {
      assert TimedOut((errs + [err])[|errs|]);
    }
  }

  /** e reports one of the faults from the n-th on. */
  ghost predicate Reported(faults: Log, n: nat, e: Error) {
    exists i :: n <= i < |faults| && From(e, faults[i].err)
  }

  lemma ReportedGrows(faults: Log, faults': Log, n: nat, e: Error)
    requires Reported(faults, n, e) && faults <= faults'
    ensures Reported(faults', n, e)
  {
    var i :| n <= i < |faults| && From(e, faults[i].err);
    assert From(e, faults'[i].err);
  }

  lemma ReportedSooner(faults: Log, n: nat, m: nat, e: Error)
    requires Reported(faults, m, e) && n <= m
    ensures Reported(faults, n, e)
  {
    var i :| m <= i < |faults| && From(e, faults[i].err);
    assert From(e, faults[i].err);
  }

  lemma FaultedIsReported(before: Log, after: Log, n: nat, e: Error)
    requires Faulted(before, after, e) && n <= |before|
    ensures Reported(after, n, e)
  {
  }

  /** Every error there is reports one of the faults from the n-th on. */
  ghost predicate AllReported(errs: seq<Option<Error>>, faults: Log, n: nat) {
    forall i :: 0 <= i < |errs| && errs[i].Some? ==> Reported(faults, n, errs[i].value)
  }

  lemma OneMoreReported(errs: seq<Option<Error>>, err: Option<Error>, faults: Log, faults': Log, n: nat)
    requires AllReported(errs, faults, n) && Logged(faults, faults', err) && n <= |faults|
    ensures faults <= faults' && AllReported(errs + [err], faults', n)
  {
    forall i | 0 <= i < |errs + [err]| && (errs + [err])[i].Some?
      ensures Reported(faults', n, (errs + [err])[i].value)
    {
      if i < |errs| {
        ReportedGrows(faults, faults', n, errs[i].value);
      } else {
        FaultedIsReported(faults, faults', n, err.value);
      }
    }
  }

  // ----- reporting what could not be undone -----

  /** The failures that undos report which were run in this order, each for a
      context ID: one for each that failed. */
  function FailuresOf(ids: seq<ContextID>, errs: seq<Option<Error>>): seq<Failure>
    requires |errs| <= |ids|
  {
    if errs == [] then []
    else
      var n := |errs| - 1;
      FailuresOf(ids, errs[..n]) + if errs[n].Some? then [Failure(ids[n], errs[n].value)] else []
  }

  /** Nothing is reported exactly when no undo failed; every failure is. */
  lemma {:induction false} FailuresComplete(ids: seq<ContextID>, errs: seq<Option<Error>>)
    requires |errs| <= |ids|
    ensures FailuresOf(ids, errs) == [] <==> forall i :: 0 <= i < |errs| ==> errs[i].None?
    ensures forall i :: 0 <= i < |errs| && errs[i].Some? ==> Failure(ids[i], errs[i].value) in FailuresOf(ids, errs)
  {
    if errs != [] {
      var n := |errs| - 1;
      FailuresComplete(ids, errs[..n]);
      forall i | 0 <= i <= n && errs[i].Some? ensures Failure(ids[i], errs[i].value) in FailuresOf(ids, errs) {
        if i < n {
          assert errs[..n][i] == errs[i];
        }
      }
    }
  }

  lemma OneFailure(id: ContextID, err: Option<Error>)
    ensures FailuresOf([id], [err]) == if err.Some? then [Failure(id, err.value)] else []
  {
    assert [err][..0] == [];
  }

  /** And nothing else is reported. */
  lemma {:induction false} FailuresReal(ids: seq<ContextID>, errs: seq<Option<Error>>, f: Failure) returns (i: nat)
    requires |errs| <= |ids| && f in FailuresOf(ids, errs)
    ensures i < |errs| && errs[i] == Some(f.err) && ids[i] == f.contextID
  {
    i := |errs| - 1;
    if f in FailuresOf(ids, errs[..|errs| - 1]) {
      i := FailuresReal(ids, errs[..|errs| - 1], f);
    }
  }

  /** The error of a failure with the undos that failed beside it. */
  function WithFailures(cause: Error, failures: seq<Failure>, total: nat): Error {
    if failures == [] then cause else RollbackFailed(cause, failures, total)
  }

  /** errors.Is looks through a joined rollback error, at its cause and at every
      failure it lists. */
  lemma IsWithFailures(cause: Error, failures: seq<Failure>, total: nat, target: Error)
    ensures Is(WithFailures(cause, failures, total), target) <==>
      Is(cause, target) || exists f :: f in failures && Is(f.err, target)
  {
    if f :| f in failures && Is(f.err, target) {
      ListedIsFound(cause, failures, total, target, f);
    } else if failures != [] {
      forall i | 0 <= i < |failures| ensures !Is(failures[i].err, target) {
        assert failures[i] in failures;
      }
      assert Is(RollbackFailed(cause, failures, total), target) <==> Is(cause, target);
    }
  }

  /** A joined rollback error is a timeout exactly if its cause is one or an undo
      of it timed out. */
  lemma WithFailuresTimedOut(cause: Error, ids: seq<ContextID>, errs: seq<Option<Error>>, total: nat)
    requires |errs| <= |ids|
    ensures Is(WithFailures(cause, FailuresOf(ids, errs), total), DeadlineExceeded) <==>
      Is(cause, DeadlineExceeded) || ErrsTimedOut(errs)
  {
    IsWithFailures(cause, FailuresOf(ids, errs), total, DeadlineExceeded);
    FailuresComplete(ids, errs);
    if i :| 0 <= i < |errs| && TimedOut(errs[i]) {
      assert Failure(ids[i], errs[i].value) in FailuresOf(ids, errs);
    }
    if f :| f in FailuresOf(ids, errs) && Is(f.err, DeadlineExceeded) {
      var i := FailuresReal(ids, errs, f);
      assert TimedOut(errs[i]);
    }
  }

  lemma ListedIsFound(cause: Error, failures: seq<Failure>, total: nat, target: Error, f: Failure)
    requires f in failures && Is(f.err, target)
    ensures Is(WithFailures(cause, failures, total), target)
  {
    var i :| 0 <= i < |failures| && failures[i] == f;
    assert Is(failures[i].err, target);
  }

  function CauseOf(e: Error): Error {
    if e.RollbackFailed? then e.cause else e
  }

  function JoinErrors(errs: seq<Error>): Option<Error> {
    if errs == [] then None else Some(Joined(errs))
  }

  function Listed(err: Option<Error>): seq<Error> {
    if err.Some? then [err.value] else []
  }

  function Wrapped(errs: seq<Error>): (wrapped: seq<Error>)
    ensures |wrapped| == |errs| && forall i :: 0 <= i < |errs| ==> wrapped[i] == Wrap(errs[i])
  {
    seq(|errs|, i requires 0 <= i < |errs| => Wrap(errs[i]))
  }

  /** Calls that are all made, their errors wrapped and joined, report the first
      fault they met. */
  lemma JoinedAreLogged(before: Log, after: Log, errs: seq<Error>)
    requires MetAll(before, after, errs, AtMappings)
    ensures Logged(before, after, JoinErrors(Wrapped(errs)))
  {
    if errs == [] {
      assert after == before;
    } else {
      assert From(Wrapped(errs)[0], after[|before|].err);
    }
  }
}
