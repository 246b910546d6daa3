/**
 When content is refused as already advertised, in any state and over any run
 of attempts to publish (pkg/publisher/generate_ad.go, nextRecord).
 */
module Refusals {
  import opened Errors
  import opened Ipld
  import opened Mappings
  import opened Publishing
  import opened Wrappers

  // One attempt to publish, and which rows of its key it left written: both if
  // it published, none if it failed cleanly, either if it could not be undone.
  datatype Attempt = Attempt(q: Request, chunkWritten: bool, metaWritten: bool)

  /** What an attempt does to the record of k: the rows it wrote are those that
      publishing is to leave, the others are as they were. */
  ghost predicate KeyStep(c: Setup, s: State, a: Attempt, s': State, k: Key) {
    var now, next := Lookup(s.tables, k), Lookup(PublishOne(c, s, a.q).tables, k);
    && Lookup(s'.tables, k).chunk == (if a.chunkWritten then next.chunk else now.chunk)
    && Lookup(s'.tables, k).meta == (if a.metaWritten then next.meta else now.meta)
  }

  ghost predicate KeyRun(c: Setup, states: seq<State>, attempts: seq<Attempt>, k: Key) {
    && |states| == |attempts| + 1
    && forall i :: 0 <= i < |attempts| ==> KeyStep(c, states[i], attempts[i], states[i + 1], k)
  }

  // Whether a key is mapped to entries, and whether it carries given metadata.
  datatype Holding = Holding(mapped: bool, carries: bool)

  function HeldIn(t: Tables, k: Key, md: Metadata): Holding {
    Holding(Lookup(t, k).chunk.Some?, Lookup(t, k).meta == Some(md))
  }

  /** What an attempt makes of what a key holds. A removal of unmapped content
      is refused. */
  function After(h: Holding, a: Attempt, k: Key, md: Metadata): Holding {
    if KeyOf(a.q) != k || (a.q.isRm && !h.mapped) then h
    else
      Holding(if a.chunkWritten then !a.q.isRm else h.mapped,
              if a.metaWritten then !a.q.isRm && a.q.metadata == md else h.carries)
  }

  function HeldAfter(h: Holding, attempts: seq<Attempt>, k: Key, md: Metadata): Holding {
    if attempts == [] then h
    else After(HeldAfter(h, attempts[..|attempts| - 1], k, md), attempts[|attempts| - 1], k, md)
  }

  /** The attempts leave mapped content mapped, and with its metadata. */
  predicate Kept(attempts: seq<Attempt>, k: Key, md: Metadata) {
    HeldAfter(Holding(true, true), attempts, k, md) == Holding(true, true)
  }

  /** The last attempt for k that wrote anything, if any did, advertised md. */
  predicate LastAdvertised(attempts: seq<Attempt>, k: Key, md: Metadata) {
    attempts == [] ||
    var a := attempts[|attempts| - 1];
    if a.chunkWritten && KeyOf(a.q) == k then !a.q.isRm && a.q.metadata == md
    else LastAdvertised(attempts[..|attempts| - 1], k, md)
  }

  /** When every attempt published or left its record as it was, content is kept
      exactly if the last attempt for it that published advertised md. */
  lemma {:induction false} WholeAttempts(attempts: seq<Attempt>, k: Key, md: Metadata)
    requires forall i :: 0 <= i < |attempts| ==> attempts[i].chunkWritten == attempts[i].metaWritten
    ensures Kept(attempts, k, md) <==> LastAdvertised(attempts, k, md)
  {
    if attempts != [] {
      WholeAttempts(attempts[..|attempts| - 1], k, md);
    }
  }

  predicate Advertised(t: Tables, k: Key, md: Metadata) {
    Lookup(t, k).chunk.Some? && Lookup(t, k).meta == Some(md)
  }

  /** In any state, an addition is refused exactly when its key is mapped to
      entries and carries its metadata. */
  lemma RefusedIff(c: Setup, s: State, q: Request)
    requires !q.isRm
    ensures Generate(c, s, q).Err? <==> Advertised(s.tables, KeyOf(q), q.metadata)
    ensures Generate(c, s, q).Err? ==> Generate(c, s, q).error == AlreadyAdvertised
  {
  }

  /** What one attempt that took effect does to its own key and to others. */
  lemma PublishedCarries(c: Setup, s: State, q: Request, k: Key, md: Metadata)
    ensures var t := PublishOne(c, s, q).tables;
      Advertised(t, k, md) <==> if KeyOf(q) == k then !q.isRm && q.metadata == md else Advertised(s.tables, k, md)
  {
    match Generate(c, s, q)
    case Err(_) =>
    case Ok((s', _)) =>
      UpdateLookup(s.tables, KeyOf(q), Lookup(s'.tables, KeyOf(q)));
  }

  lemma StepHolds(c: Setup, s: State, a: Attempt, s': State, k: Key, md: Metadata)
    requires KeyStep(c, s, a, s', k)
    ensures HeldIn(s'.tables, k, md) == After(HeldIn(s.tables, k, md), a, k, md)
  {
    match Generate(c, s, a.q)
    case Err(_) =>
    case Ok((s1, _)) =>
      UpdateLookup(s.tables, KeyOf(a.q), Lookup(s1.tables, KeyOf(a.q)));
  }

  lemma {:induction false} RunHolds(c: Setup, states: seq<State>, attempts: seq<Attempt>, k: Key, md: Metadata)
    requires KeyRun(c, states, attempts, k)
    ensures HeldIn(states[|attempts|].tables, k, md) == HeldAfter(HeldIn(states[0].tables, k, md), attempts, k, md)
  {
    if attempts != [] {
      var n := |attempts| - 1;
      RunHolds(c, states[..n + 1], attempts[..n], k, md);
      StepHolds(c, states[n], attempts[n], states[n + 1], k, md);
    }
  }

  /** Content that is refused stays refused, over any run of attempts by anyone,
      exactly as long as they leave it mapped and with its metadata: whether
      they publish, fail cleanly, or fail and cannot be undone. */
  lemma RefusedAfterIff(c: Setup, states: seq<State>, attempts: seq<Attempt>, q: Request)
    requires !q.isRm && KeyRun(c, states, attempts, KeyOf(q)) && Generate(c, states[0], q).Err?
    ensures Generate(c, states[|attempts|], q).Err? <==> Kept(attempts, KeyOf(q), q.metadata)
  {
    RunHolds(c, states, attempts, KeyOf(q), q.metadata);
  }
}
