/**
 Notifying subscribers that a remote indexer has synced (pkg/notifier): the last
 head seen is persisted and cached, and each change of it is notified with the
 head before it.
 */
module Notifications {
  import opened Errors
  import opened Faults
  import opened Ipld
  import opened Sequences
  import opened Wrappers

  datatype Notification = Notification(head: Link, prev: Option<Link>)

  /** DidSync: the head differs from the previous one, or there was none. */
  predicate DidSync(head: Link, prev: Option<Link>) {
    prev.None? || head != prev.value
  }

  // ----- the notifier over values -----

  datatype NotifierState = NotifierState(persisted: Option<Link>, cached: Option<Link>, log: seq<Notification>)

  // What can happen: an update, whose fetch and whose write of the new head may
  // fail, a failing write having taken effect or not; or a restart.
  datatype Event =
    | Updated(fetched: Result<Link>, fails: bool, applied: bool)
    | Restarted

  function After(s: NotifierState, e: Event): NotifierState {
    match e
    case Restarted => s.(cached := s.persisted)
    case Updated(Err(_), _, _) => s
    case Updated(Ok(head), fails, applied) =>
      if !DidSync(head, s.cached) then s
      else if fails then s.(persisted := if applied then Some(head) else s.persisted)
      else NotifierState(Some(head), Some(head), s.log + [Notification(head, s.cached)])
  }

  function Run(s: NotifierState, events: seq<Event>): NotifierState {
    if events == [] then s
    else After(Run(s, events[..|events| - 1]), events[|events| - 1])
  }

  /** The notifications lead from first to last without a gap and without a
      stutter: each one's prev is the head of the one before. */
  predicate Gapless(log: seq<Notification>, first: Option<Link>, last: Option<Link>) {
    if log == [] then last == first
    else
      var n := log[|log| - 1];
      && last == Some(n.head)
      && n.prev != last
      && Gapless(log[..|log| - 1], first, n.prev)
  }

  /** A restart is the one thing that can open a gap, and does so exactly when a
      head was persisted that the notifier was not told of. */
  lemma RestartKeepsGaplessIff(s: NotifierState, first: Option<Link>)
    requires Gapless(s.log, first, s.cached)
    ensures Gapless(After(s, Restarted).log, first, After(s, Restarted).cached) <==> s.persisted == s.cached
  {
  }

  lemma UpdateKeepsGapless(s: NotifierState, e: Event, first: Option<Link>)
    requires Gapless(s.log, first, s.cached) && e.Updated?
    ensures Gapless(After(s, e).log, first, After(s, e).cached)
  {
    if e.fetched.Ok? {
      var n := Notification(e.fetched.value, s.cached);
      assert (s.log + [n])[..|s.log|] == s.log;
    }
  }

  /** Over any run of updates and restarts from what was persisted, the
      notifications are gapless, provided no restart comes while the store holds
      a head whose write was not acknowledged. */
  lemma {:induction false} RunsAreGapless(first: Option<Link>, events: seq<Event>)
    requires
      forall k :: 0 <= k < |events| && events[k].Restarted? ==>
        var s := Run(NotifierState(first, first, []), events[..k]); s.persisted == s.cached
    ensures var s := Run(NotifierState(first, first, []), events); Gapless(s.log, first, s.cached)
  {
    if events != [] {
      var n := |events| - 1;
      forall k | 0 <= k < n && events[..n][k].Restarted?
        ensures var s := Run(NotifierState(first, first, []), events[..n][..k]); s.persisted == s.cached
      {
        assert events[..n][..k] == events[..k];
      }
      RunsAreGapless(first, events[..n]);
      var s := Run(NotifierState(first, first, []), events[..n]);
      if events[n].Updated? {
        UpdateKeepsGapless(s, events[n], first);
      }
    }
  }

  /** A store whose failing writes leave the old value. */
  ghost predicate FailuresLeaveTheOldValue(events: seq<Event>) {
    forall k :: 0 <= k < |events| && events[k].Updated? && events[k].fails ==> !events[k].applied
  }

  /** The notifications are the stutter-free history: with such a store, over
      any run with any failures and restarts, the cached head is the persisted
      one and the notifications lead to it from the first without a gap. */
  lemma {:induction false} NotificationsAreTheHistory(first: Option<Link>, events: seq<Event>)
    requires FailuresLeaveTheOldValue(events)
    ensures
      var s := Run(NotifierState(first, first, []), events);
      s.cached == s.persisted && Gapless(s.log, first, s.persisted)
  {
    if events != [] {
      var n := |events| - 1;
      var s := Run(NotifierState(first, first, []), events[..n]);
      NotificationsAreTheHistory(first, events[..n]);
      if events[n].Updated? {
        UpdateKeepsGapless(s, events[n], first);
      }
    }
  }

  /** The heads whose write was acknowledged, in order. */
  function Acknowledged(s: NotifierState, events: seq<Event>): seq<Link> {
    if events == [] then []
    else
      var n := |events| - 1;
      var before := Run(s, events[..n]);
      Acknowledged(s, events[..n])
      + match events[n]
        case Updated(Ok(head), false, _) => if DidSync(head, before.cached) then [head] else []
        case _ => []
  }

  function Heads(log: seq<Notification>): (heads: seq<Link>)
    ensures |heads| == |log|
  {
    seq(|log|, i requires 0 <= i < |log| => log[i].head)
  }

  /** The notified heads are the successfully persisted heads, whatever fails. */
  lemma {:induction false} NotifiedAreAcknowledged(first: Option<Link>, events: seq<Event>)
    ensures
      var s0 := NotifierState(first, first, []);
      Heads(Run(s0, events).log) == Acknowledged(s0, events)
  {
    if events != [] {
      NotifiedAreAcknowledged(first, events[..|events| - 1]);
    }
  }

  /** The heads that updates fetched, in order. */
  function Fetched(events: seq<Event>): seq<Link> {
    if events == [] then []
    else
      var n := |events| - 1;
      Fetched(events[..n])
      + match events[n]
        case Updated(Ok(head), _, _) => [head]
        case _ => []
  }

  /** Heads as changes from first on: one notification for each head that is not
      the one before it, with that as its previous. */
  function ChangesFrom(first: Option<Link>, heads: seq<Link>): seq<Notification> {
    if heads == [] then []
    else
      var n := |heads| - 1;
      var prev := if n == 0 then first else Some(heads[n - 1]);
      ChangesFrom(first, heads[..n]) + if prev == Some(heads[n]) then [] else [Notification(heads[n], prev)]
  }

  function LastOf(first: Option<Link>, heads: seq<Link>): Option<Link> {
    if heads == [] then first else Some(heads[|heads| - 1])
  }

  lemma OneMoreChange(first: Option<Link>, heads: seq<Link>, head: Link)
    ensures
      var prev := LastOf(first, heads);
      ChangesFrom(first, heads + [head]) ==
      ChangesFrom(first, heads) + if prev == Some(head) then [] else [Notification(head, prev)]
  {
    InitAndLast(heads, head);
  }

  lemma UpdateNotifiesChange(s: NotifierState, head: Link, applied: bool, first: Option<Link>, heads: seq<Link>)
    requires s.log == ChangesFrom(first, heads) && s.cached == s.persisted == LastOf(first, heads)
    ensures
      var s' := After(s, Updated(Ok(head), false, applied));
      s'.log == ChangesFrom(first, heads + [head]) && s'.cached == s'.persisted == Some(head)
  {
    OneMoreChange(first, heads, head);
    if s.cached == Some(head) {
      assert s.log + [] == s.log;
    }
  }

  /** When no write fails, every fetched head that is not the one before it is
      notified, and nothing else is, whatever restarts and failed fetches come
      between; and the last one is cached and persisted. */
  lemma {:induction false} EveryChangeIsNotified(first: Option<Link>, events: seq<Event>)
    requires forall k :: 0 <= k < |events| && events[k].Updated? ==> !events[k].fails
    ensures
      var s, heads := Run(NotifierState(first, first, []), events), Fetched(events);
      && s.log == ChangesFrom(first, heads)
      && s.cached == s.persisted == if heads == [] then first else Some(heads[|heads| - 1])
  {
    if events != [] {
      var n := |events| - 1;
      EveryChangeIsNotified(first, events[..n]);
      var s, heads := Run(NotifierState(first, first, []), events[..n]), Fetched(events[..n]);
      if events[n].Updated? && events[n].fetched.Ok? {
        UpdateNotifiesChange(s, events[n].fetched.value, events[n].applied, first, heads);
        assert events[n] == Updated(Ok(events[n].fetched.value), false, events[n].applied);
      } else {
        assert After(s, events[n]) == s;
        assert heads + [] == heads;
      }
    }
  }

  /** Without that assumption about the store a sync can go unnotified for good:
      a head written unacknowledged, then a restart. */
  lemma MissedSync(head: Link)
    ensures
      var events := [Updated(Ok(head), true, true), Restarted, Updated(Ok(head), false, false)];
      var s := Run(NotifierState(None, None, []), events);
      s.persisted == Some(head) && s.log == [] && !Gapless(s.log, None, s.cached)
  {
    var events := [Updated(Ok(head), true, true), Restarted, Updated(Ok(head), false, false)];
    var s0 := NotifierState(None, None, []);
    var one, two := events[..1], events[..2];
    assert one[..0] == [] && two[..1] == one;
    assert Run(s0, one) == After(s0, events[0]);
    assert Run(s0, two) == After(Run(s0, one), Restarted);
  }

  // ----- the notifier over a store -----

  class RemoteHeadStore {
    var persisted: Option<Link>
    ghost var faults: Log

    method Get() returns (r: Result<Link>)
      modifies this`faults
      ensures r.Ok? ==> persisted == Some(r.value)
      ensures r.Err? ==> Foreign(r.error) || (r.error == NotFound && persisted.None?)
      ensures Logged(old(faults), faults, Unexpected(ErrorIn(r)))
    {
      var fault;
      fault, faults := MayFail(faults, OffStore);
      if fault.Some? {
        return Err(fault.value);
      }
      r := if persisted.Some? then Ok(persisted.value) else Err(NotFound);
    }

    method Put(head: Link) returns (err: Option<Error>)
      modifies this
      ensures persisted == Some(head) || (persisted == old(persisted) && err.Some?)
      ensures Logged(old(faults), faults, err)
    {
      var applied: bool := *;
      err, faults := MayFail(faults, OffStore);
      if err.None? || applied {
        persisted := Some(head);
      }
    }
  }

  class HeadState {
    const ds: RemoteHeadStore
    var cached: Option<Link>

    /** NewHeadState, once the store was read. */
    constructor (ds: RemoteHeadStore, cached: Option<Link>)
      ensures this.ds == ds && this.cached == cached
    {
      this.ds, this.cached := ds, cached;
    }

    method Get() returns (head: Option<Link>)
      ensures head == cached
    {
      return cached;
    }

    /** Set: persists the head, and caches it if that did not fail. */
    method Set(head: Link) returns (err: Option<Error>)
      modifies this, ds
      ensures err.None? ==> cached == ds.persisted == Some(head)
      ensures err.Some? ==> cached == old(cached) && (ds.persisted == old(ds.persisted) || ds.persisted == Some(head))
      ensures Logged(old(ds.faults), ds.faults, err)
    {
      err := ds.Put(head);
      if err.Some? {
        return Some(Wrap(err.value));
      }
      cached := Some(head);
    }
  }

  /** NewHeadState: caches what is persisted, or fails to read it. */
  method NewHeadState(ds: RemoteHeadStore) returns (r: Result<HeadState>)
    modifies ds`faults
    ensures r.Ok? ==> fresh(r.value) && r.value.ds == ds && r.value.cached == ds.persisted
    ensures Logged(old(ds.faults), ds.faults, ErrorIn(r))
  {
    var head := ds.Get();
    if head.Err? && !Is(head.error, NotFound) {
      return Err(Wrap(head.error));
    }
    var state := new HeadState(ds, if head.Ok? then Some(head.value) else None);
    return Ok(state);
  }

  class Notifier {
    const head: HeadState
    var received: seq<seq<Notification>>   // by each subscriber
    ghost var log: seq<Notification>

    constructor (head: HeadState)
      ensures this.head == head && received == [] && log == []
    {
      this.head := head;
      received, log := [], [];
    }

    ghost function S(): NotifierState
      reads this, head, head.ds
    {
      NotifierState(head.ds.persisted, head.cached, log)
    }

    /** Notify: adds a subscriber. */
    method Notify()
      modifies this`received
      ensures received == old(received) + [[]]
    {
      received := received + [[]];
    }

    /** Update: fetches the remote head and, when it changed, persists it and
        tells every subscriber once. */
    method Update(fetched: Result<Link>) returns (r: Result<bool>, ghost event: Event)
      modifies this, head, head.ds
      ensures event.Updated? && event.fetched == fetched && S() == After(old(S()), event)
      ensures event.fails <==> head.ds.faults != old(head.ds.faults)
      ensures |received| == |old(received)|
      ensures forall i :: 0 <= i < |received| ==>
        received[i] == old(received)[i] + log[|old(log)|..]
      ensures r.Err? <==> fetched.Err? || head.ds.faults != old(head.ds.faults)
      ensures r.Ok? ==>
        && head.cached == Some(fetched.value)
        && if old(head.cached) == Some(fetched.value) then
             !r.value && log == old(log) && head.ds.persisted == old(head.ds.persisted)
           else
             && r.value && head.ds.persisted == Some(fetched.value)
             && log == old(log) + [Notification(fetched.value, old(head.cached))]
      ensures r.Err? ==> head.cached == old(head.cached) && log == old(log)
    {
      event := Updated(fetched, false, false);
      if fetched.Err? {
        return Err(Wrap(fetched.error)), event;
      }
      var prev := head.Get();
      if !DidSync(fetched.value, prev) {
        return Ok(false), event;
      }
      var err := head.Set(fetched.value);
      if err.Some? {
        return Err(Wrap(err.value)), Updated(fetched, true, head.ds.persisted == Some(fetched.value));
      }
      var n := Notification(fetched.value, prev);
      for i := 0 to |received|
        modifies this`received
        invariant |received| == |old(received)|
        invariant forall j :: 0 <= j < |received| ==>
          received[j] == if j < i then old(received)[j] + [n] else old(received)[j]
      {
        received := received[i := received[i] + [n]];
      }
      log := log + [n];
      return Ok(true), event;
    }
  }
}
