/**
 The chain and the tables agree: what a key is mapped to is what the newest
 advert on the chain for that key says. This is the purpose of undoing a failed
 publish, and what a head that moved without its mappings would break.
 */
module Consistency {
  import opened AdvertFields
  import opened AdvertPublishers
  import opened Errors
  import opened Faults
  import opened Ipld
  import opened Mappings
  import opened Publishers
  import opened Publishing
  import opened PublishingLaws
  import opened Refusals
  import opened Sequences
  import opened Wrappers
  import Entries

  /** The newest advert for k on a chain, newest first. */
  function Newest(chain: seq<Advertisement>, k: Key): Option<Advertisement> {
    if chain == [] then None
    else if Key(chain[0].provider, chain[0].contextID) == k then Some(chain[0])
    else Newest(chain[1..], k)
  }

  /** A key is mapped to the entries and metadata of its newest advert, and has
      no entries mapping when that is a removal or when there is none. */
  ghost predicate Agrees(chain: seq<Advertisement>, t: Tables) {
    forall k :: AgreesAt(chain, t, k)
  }

  predicate AgreesAt(chain: seq<Advertisement>, t: Tables, k: Key) {
    var newest := Newest(chain, k);
    if newest.None? || newest.value.isRm then Lookup(t, k).chunk.None?
    else Lookup(t, k) == Record(Some(newest.value.entries), Some(newest.value.metadata))
  }

  ghost predicate Consistent(s: State) {
    exists chain :: AdvertChain(s.blocks, HeadLink(s.head), chain) && Agrees(chain, s.tables)
  }

  lemma NewestAgrees(chain: seq<Advertisement>, t: Tables, adv: Advertisement, r: Record)
    requires Agrees(chain, t)
    requires if adv.isRm then r.chunk.None? else r == Record(Some(adv.entries), Some(adv.metadata))
    ensures Agrees([adv] + chain, Update(t, Key(adv.provider, adv.contextID), r))
  {
    var key := Key(adv.provider, adv.contextID);
    UpdateLookup(t, key, r);
    assert ([adv] + chain)[1..] == chain;
    forall k ensures AgreesAt([adv] + chain, Update(t, key, r), k) {
      assert AgreesAt(chain, t, k);
    }
  }

  /** Every publish, of an addition or a removal, keeps chain and tables in
      agreement. */
  lemma PublishOneKeepsConsistent(c: Setup, s: State, q: Request)
    requires Inv(c.hash, s) && Consistent(s)
    ensures Inv(c.hash, PublishOne(c, s, q)) && Consistent(PublishOne(c, s, q))
  {
    var chain: seq<Advertisement> :| AdvertChain(s.blocks, HeadLink(s.head), chain) && Agrees(chain, s.tables);
    var added := PublishOneExtends(c, s, q, chain);
    var s' := PublishOne(c, s, q);
    match Generate(c, s, q)
    case Err(_) =>
    case Ok((s1, draft)) =>
      var prior := Lookup(s.tables, KeyOf(q));
      var r := if q.isRm then UNMAPPED else NextRecord(prior, q.metadata, FreshLink(c, q)).value;
      assert s'.tables == Update(s.tables, KeyOf(q), r);
      NewestAgrees(chain, s.tables, added[0], r);
  }

  lemma {:induction false} PublishAllKeepsConsistent(c: Setup, s: State, p: AddrInfo, specs: seq<AdvertSpec>)
    requires Inv(c.hash, s) && Consistent(s)
    ensures Inv(c.hash, PublishAll(c, s, p, specs)) && Consistent(PublishAll(c, s, p, specs))
  {
    if specs != [] {
      PublishAllKeepsConsistent(c, s, p, specs[..|specs| - 1]);
      PublishOneKeepsConsistent(c, PublishAll(c, s, p, specs[..|specs| - 1]), RequestOf(p, specs[|specs| - 1]));
    }
  }

  // ----- what a batch changes -----

  lemma {:induction false} OtherKeysUntouched(c: Setup, s: State, p: AddrInfo, specs: seq<AdvertSpec>, k: Key)
    requires forall i :: 0 <= i < |specs| ==> Key(p.id, specs[i].contextID) != k
    ensures Lookup(PublishAll(c, s, p, specs).tables, k) == Lookup(s.tables, k)
  {
    if specs != [] {
      OtherKeysUntouched(c, s, p, specs[..|specs| - 1], k);
    }
  }

  /** Content that is mapped keeps its entries. */
  lemma {:induction false} MappedEntriesStay(c: Setup, s: State, p: AddrInfo, specs: seq<AdvertSpec>, k: Key)
    requires Lookup(s.tables, k).chunk.Some?
    ensures Lookup(PublishAll(c, s, p, specs).tables, k).chunk == Lookup(s.tables, k).chunk
  {
    if specs != [] {
      MappedEntriesStay(c, s, p, specs[..|specs| - 1], k);
    }
  }

  ghost predicate LastFor(specs: seq<AdvertSpec>, i: nat)
    requires i < |specs|
  {
    forall j :: i < j < |specs| ==> specs[j].contextID != specs[i].contextID
  }

  /** Every context ID of the batch is mapped already, with the metadata of its
      last spec. */
  ghost predicate AlreadyCarried(t: Tables, p: AddrInfo, specs: seq<AdvertSpec>) {
    forall i :: 0 <= i < |specs| && LastFor(specs, i) ==>
      Advertised(t, Key(p.id, specs[i].contextID), specs[i].metadata)
  }

  /** A batch is to change no mapping exactly when the tables carry it already,
      which it can be although it adds adverts: by changing a mapping and back. */
  lemma TablesUnchangedIff(c: Setup, s: State, p: AddrInfo, specs: seq<AdvertSpec>)
    ensures PublishAll(c, s, p, specs).tables == s.tables <==> AlreadyCarried(s.tables, p, specs)
  {
    var t := PublishAll(c, s, p, specs).tables;
    forall i | 0 <= i < |specs| && LastFor(specs, i)
      ensures Advertised(t, Key(p.id, specs[i].contextID), specs[i].metadata)
    {
      LastSpecWins(c, s, p, specs, i);
    }
    if AlreadyCarried(s.tables, p, specs) {
      forall k ensures Lookup(t, k) == Lookup(s.tables, k) {
        CarriedKeyUnchanged(c, s, p, specs, k);
      }
      TablesExtensional(t, s.tables);
    }
  }

  lemma CarriedKeyUnchanged(c: Setup, s: State, p: AddrInfo, specs: seq<AdvertSpec>, k: Key)
    requires AlreadyCarried(s.tables, p, specs)
    ensures Lookup(PublishAll(c, s, p, specs).tables, k) == Lookup(s.tables, k)
  {
    if i :| 0 <= i < |specs| && Key(p.id, specs[i].contextID) == k {
      var last := LastIndexOf(specs, i);
      LastSpecWins(c, s, p, specs, last);
      assert LastFor(specs, last);
      MappedEntriesStay(c, s, p, specs, k);
    } else {
      OtherKeysUntouched(c, s, p, specs, k);
    }
  }

  // ----- failures that move the head -----

  /** A head write that reports an error although it took effect: the batch's
      adverts are on the chain but its mappings were written back. Chain and
      tables still agree exactly when the tables carried the batch already. */
  lemma UnreportedHeadMoveExact(c: Setup, s: State, p: AddrInfo, specs: seq<AdvertSpec>)
    requires Inv(c.hash, s) && Consistent(s)
    ensures Consistent(PublishAll(c, s, p, specs).(tables := s.tables)) <==> AlreadyCarried(s.tables, p, specs)
  {
    TablesUnchangedIff(c, s, p, specs);
    PublishAllKeepsConsistent(c, s, p, specs);
    var published := PublishAll(c, s, p, specs);
    var half := published.(tables := s.tables);
    var chain: seq<Advertisement> :|
      AdvertChain(published.blocks, HeadLink(published.head), chain) && Agrees(chain, published.tables);
    if Consistent(half) {
      var chain' :| AdvertChain(half.blocks, HeadLink(half.head), chain') && Agrees(chain', half.tables);
      AdvertChainUnique(half.blocks, HeadLink(half.head), chain, chain');
      forall k ensures Lookup(published.tables, k) == Lookup(s.tables, k) {
        assert AgreesAt(chain, published.tables, k) && AgreesAt(chain, s.tables, k);
        if Newest(chain, k).None? || Newest(chain, k).value.isRm {
          UnmappedAreUntouched(c, s, p, specs, k);
        }
      }
      TablesExtensional(published.tables, s.tables);
    }
  }

  /** It does happen: one spec published to a new store is enough. */
  lemma UnreportedHeadMoveCanDisagree(c: Setup, p: AddrInfo, spec: AdvertSpec) returns (s: State)
    requires Injective(c.hash)
    ensures Inv(c.hash, s) && Consistent(s)
    ensures !Consistent(PublishAll(c, s, p, [spec]).(tables := s.tables))
  {
    s := State(map[], None, Tables(map[], map[]));
    assert AdvertChain(s.blocks, HeadLink(s.head), []) && Agrees([], s.tables);
    UnreportedHeadMoveExact(c, s, p, [spec]);
    assert LastFor([spec], 0) && !Advertised(s.tables, Key(p.id, [spec][0].contextID), [spec][0].metadata);
  }

  /** A failure that names no mapping leaves the tables as they were, always. It
      leaves chain and tables in agreement exactly when the head is the one it
      was, or the tables carried the batch already; and the store as it was,
      leftover blocks aside, unless the head may have moved. */
  lemma CleanFailureExact(c: Setup, s: State, p: AddrInfo, specs: seq<AdvertSpec>, s': State, may: bool)
    requires Inv(c.hash, s) && Consistent(s) && FailedCleanly(c.hash, s, PublishAll(c, s, p, specs), s', may)
    ensures s'.tables == s.tables && Inv(c.hash, s')
    ensures Consistent(s') <==> HeadLink(s'.head) == HeadLink(s.head) || AlreadyCarried(s.tables, p, specs)
    ensures !may || s'.head == s.head ==> LeftAsFound(c.hash, s, s')
  {
    var past: seq<Advertisement> :| AdvertChain(s.blocks, HeadLink(s.head), past) && Agrees(past, s.tables);
    var _ := PublishAllExtends(c, s, p, specs, past);
    UnreportedHeadMoveExact(c, s, p, specs);
    NewAdvertsMoveHead(c, s, p, specs);
    AdvertChainGrows(s.blocks, s'.blocks, HeadLink(s.head), past);
  }

  /** Publishing additions leaves a key alone or maps it to entries. */
  lemma {:induction false} UnmappedAreUntouched(c: Setup, s: State, p: AddrInfo, specs: seq<AdvertSpec>, k: Key)
    ensures
      var t := PublishAll(c, s, p, specs).tables;
      Lookup(t, k) == Lookup(s.tables, k) || Lookup(t, k).chunk.Some?
  {
    if specs != [] {
      UnmappedAreUntouched(c, s, p, specs[..|specs| - 1], k);
    }
  }

  // ----- retrying after an unacknowledged head write -----

  lemma {:induction false} NewestConcat(a: seq<Advertisement>, b: seq<Advertisement>, k: Key)
    ensures Newest(a + b, k) == if Newest(a, k).Some? then Newest(a, k) else Newest(b, k)
  {
    if a == [] {
      EmptyConcat(b);
    } else {
      NewestConcat(a[1..], b, k);
      assert (a + b)[1..] == a[1..] + b;
    }
  }

  /** New adverts account for what became of a key: it is mapped as the newest
      of them for it says, or as it was if none is for it. */
  predicate AccountsFor(added: seq<Advertisement>, t: Tables, t': Tables, k: Key) {
    if Newest(added, k).None? then Lookup(t', k) == Lookup(t, k) else AgreesAt(added, t', k)
  }

  lemma PublishOneAccounted(c: Setup, s: State, q: Request, past: seq<Advertisement>)
    returns (added: seq<Advertisement>)
    requires Inv(c.hash, s) && AdvertChain(s.blocks, HeadLink(s.head), past)
    ensures
      var s' := PublishOne(c, s, q);
      && Inv(c.hash, s') && Sub(s.blocks, s'.blocks) && AdvertChain(s'.blocks, HeadLink(s'.head), added + past)
      && (forall k :: AccountsFor(added, s.tables, s'.tables, k))
    ensures |added| == if Generate(c, s, q).Ok? then 1 else 0
  {
    added := PublishOneExtends(c, s, q, past);
    var s' := PublishOne(c, s, q);
    if Generate(c, s, q).Ok? {
      UpdateLookup(s.tables, KeyOf(q), Lookup(s'.tables, KeyOf(q)));
      forall k ensures AccountsFor(added, s.tables, s'.tables, k) {
        assert Newest(added, k) == if KeyOf(q) == k then Some(added[0]) else None;
      }
    }
  }

  /** Whether or not chain and tables agreed before, what a batch adds to the
      chain accounts for every change it makes to the tables. */
  lemma {:induction false} PublishAllAccounted(c: Setup, s: State, p: AddrInfo, specs: seq<AdvertSpec>,
                                               past: seq<Advertisement>)
    returns (added: seq<Advertisement>)
    requires Inv(c.hash, s) && AdvertChain(s.blocks, HeadLink(s.head), past)
    ensures
      var s' := PublishAll(c, s, p, specs);
      && Inv(c.hash, s') && Sub(s.blocks, s'.blocks) && AdvertChain(s'.blocks, HeadLink(s'.head), added + past)
      && (forall k :: AccountsFor(added, s.tables, s'.tables, k))
    ensures |added| == NewAdverts(c, s, p, specs)
  {
    if specs == [] {
      added := [];
      EmptyConcat(past);
    } else {
      var n := |specs| - 1;
      var earlier := PublishAllAccounted(c, s, p, specs[..n], past);
      var before := PublishAll(c, s, p, specs[..n]);
      var last := PublishOneAccounted(c, before, RequestOf(p, specs[n]), earlier + past);
      added := last + earlier;
      ConcatAssociates(last, earlier, past);
      forall k ensures AccountsFor(added, s.tables, PublishAll(c, s, p, specs).tables, k) {
        NewestConcat(last, earlier, k);
        assert AccountsFor(last, before.tables, PublishAll(c, s, p, specs).tables, k);
        assert AccountsFor(earlier, s.tables, before.tables, k);
      }
    }
  }

  /** What a batch maps, and how many adverts it adds, depend on the tables it
      starts from and on nothing else of the store. */
  lemma {:induction false} OnlyTablesDecide(c: Setup, s: State, s': State, p: AddrInfo, specs: seq<AdvertSpec>)
    requires s'.tables == s.tables
    ensures PublishAll(c, s', p, specs).tables == PublishAll(c, s, p, specs).tables
    ensures NewAdverts(c, s', p, specs) == NewAdverts(c, s, p, specs)
  {
    if specs != [] {
      OnlyTablesDecide(c, s, s', p, specs[..|specs| - 1]);
    }
  }

  /** n adverts, and n more on top of them, were put in front of past. */
  ghost predicate TwiceOver(published: State, retried: State, past: seq<Advertisement>, n: nat) {
    exists first, again :: |first| == n && |again| == n && Doubled(published, retried, past, first, again)
  }

  ghost predicate Doubled(published: State, retried: State, past: seq<Advertisement>, first: seq<Advertisement>,
                          again: seq<Advertisement>)
  {
    && AdvertChain(published.blocks, HeadLink(published.head), first + past)
    && AdvertChain(retried.blocks, HeadLink(retried.head), again + (first + past))
  }

  lemma AccountedTwice(again: seq<Advertisement>, first: seq<Advertisement>, past: seq<Advertisement>, t: Tables,
                       t': Tables, k: Key)
    requires AccountsFor(again, t, t', k) && AccountsFor(first, t, t', k) && AgreesAt(past, t, k)
    ensures AgreesAt(again + (first + past), t', k)
  {
    NewestConcat(again, first + past, k);
    NewestConcat(first, past, k);
  }

  /** Retrying heals: after a head write that took effect unacknowledged, so
      that chain and tables disagree, publishing the same batch again leaves
      them in agreement, with the tables the batch was to leave. Its price is
      that each of the batch's adverts is on the chain twice over. */
  lemma RetryHeals(c: Setup, s: State, p: AddrInfo, specs: seq<AdvertSpec>, past: seq<Advertisement>)
    requires Inv(c.hash, s) && AdvertChain(s.blocks, HeadLink(s.head), past) && Agrees(past, s.tables)
    ensures
      var published := PublishAll(c, s, p, specs);
      var retried := PublishAll(c, published.(tables := s.tables), p, specs);
      && Consistent(retried) && retried.tables == published.tables
      && TwiceOver(published, retried, past, NewAdverts(c, s, p, specs))
  {
    var first := PublishAllAccounted(c, s, p, specs, past);
    var published := PublishAll(c, s, p, specs);
    var half := published.(tables := s.tables);
    var again := PublishAllAccounted(c, half, p, specs, first + past);
    var retried := PublishAll(c, half, p, specs);
    OnlyTablesDecide(c, s, half, p, specs);
    forall k ensures AgreesAt(again + (first + past), retried.tables, k) {
      assert AccountsFor(again, s.tables, retried.tables, k) && AccountsFor(first, s.tables, published.tables, k)
        && AgreesAt(past, s.tables, k);
      AccountedTwice(again, first, past, s.tables, retried.tables, k);
    }
    assert Agrees(again + (first + past), retried.tables);
    assert Doubled(published, retried, past, first, again);
  }

  // ----- retrying -----

  // How a failed attempt at a batch ended: its error, whether the head may have
  // moved, and the faults it met with those of its write-backs from n on.
  datatype Ending = Ending(e: Error, may: bool, faults: Log, n: nat)

  /** Attempts at a batch that failed one after the other, each naming no
      mapping that it could not restore. */
  ghost predicate FailedAttempts(c: Setup, states: seq<State>, p: AddrInfo, specs: seq<AdvertSpec>, ends: seq<Ending>) {
    && |states| == |ends| + 1
    && forall i :: 0 <= i < |ends| ==> FailedAttempt(c, states[i], p, specs, ends[i], states[i + 1])
  }

  ghost predicate FailedAttempt(c: Setup, s: State, p: AddrInfo, specs: seq<AdvertSpec>, end: Ending, s': State) {
    && !end.e.RollbackFailed?
    && FailedPublish(c.hash, p.id, ContextIDs(specs), s, PublishAll(c, s, p, specs), end.e, s', end.may,
                     end.faults, end.n)
  }

  /** Retrying is transparent: when no attempt may have moved the head, each left
      the store as it was, leftover blocks aside, and a success after any number
      of them leaves the tables, head and chain that it would have at once. */
  lemma RetriedBatchIsTransparent(c: Setup, states: seq<State>, p: AddrInfo, specs: seq<AdvertSpec>,
                                  ends: seq<Ending>, chain: seq<Advertisement>)
    requires FailedAttempts(c, states, p, specs, ends) && Inv(c.hash, states[0])
    requires forall i :: 0 <= i < |ends| ==> !ends[i].may
    requires var a := PublishAll(c, states[0], p, specs); AdvertChain(a.blocks, HeadLink(a.head), chain)
    ensures forall i :: 0 <= i < |ends| ==> LeftAsFound(c.hash, states[i], states[i + 1])
    ensures
      var a, b := PublishAll(c, states[0], p, specs), PublishAll(c, states[|ends|], p, specs);
      && a.tables == b.tables && a.head == b.head
      && AdvertChain(b.blocks, HeadLink(b.head), chain)
  {
    forall i | 0 <= i < |ends| ensures LeftAsFound(c.hash, states[i], states[i + 1]) {
      assert FailedAttempt(c, states[i], p, specs, ends[i], states[i + 1]);
    }
    RetryTransparent(c, states, p, specs, chain);
  }

  /** What failed attempts put on the chain tells what the batch is to map. */
  ghost predicate Foretells(extra: seq<Advertisement>, t: Tables) {
    forall k :: Newest(extra, k).Some? ==> AgreesAt(extra, t, k)
  }

  /** Attempts that may have moved the head: the tables are as they were, and
      whatever is on the chain since tells what the batch is to map. */
  lemma {:induction false} AttemptsForetell(c: Setup, states: seq<State>, p: AddrInfo, specs: seq<AdvertSpec>,
                                            ends: seq<Ending>, past: seq<Advertisement>)
    returns (extra: seq<Advertisement>)
    requires FailedAttempts(c, states, p, specs, ends) && Inv(c.hash, states[0])
    requires AdvertChain(states[0].blocks, HeadLink(states[0].head), past)
    ensures
      var s := states[|ends|];
      && Inv(c.hash, s) && s.tables == states[0].tables
      && AdvertChain(s.blocks, HeadLink(s.head), extra + past)
      && Foretells(extra, PublishAll(c, states[0], p, specs).tables)
  {
    if ends == [] {
      extra := [];
      EmptyConcat(past);
    } else {
      var n := |ends| - 1;
      var before := AttemptsForetell(c, states[..n + 1], p, specs, ends[..n], past);
      assert FailedAttempt(c, states[n], p, specs, ends[n], states[n + 1]);
      extra := AttemptForetells(c, states[0], states[n], p, specs, ends[n], states[n + 1], before, past);
    }
  }

  lemma AttemptEnds(c: Setup, s: State, p: AddrInfo, specs: seq<AdvertSpec>, end: Ending, s': State)
    requires Inv(c.hash, s) && FailedAttempt(c, s, p, specs, end, s')
    ensures Inv(c.hash, s') && s'.tables == s.tables && HeadMovedAtMost(s, PublishAll(c, s, p, specs), s', true)
  {
    var past :| AdvertChain(s.blocks, HeadLink(s.head), past);
    var _ := PublishAllExtends(c, s, p, specs, past);
    CleanFailureEnds(c.hash, s, PublishAll(c, s, p, specs), s', end.may);
  }

  lemma CleanFailureEnds(h: Hash, s: State, published: State, s': State, may: bool)
    requires Inv(h, published) && FailedCleanly(h, s, published, s', may)
    ensures Inv(h, s') && s'.tables == s.tables && HeadMovedAtMost(s, published, s', true)
  {
  }

  lemma AttemptForetells(c: Setup, s0: State, s: State, p: AddrInfo, specs: seq<AdvertSpec>, end: Ending, s': State,
                         before: seq<Advertisement>, past: seq<Advertisement>)
    returns (extra: seq<Advertisement>)
    requires Inv(c.hash, s) && s.tables == s0.tables && FailedAttempt(c, s, p, specs, end, s')
    requires AdvertChain(s.blocks, HeadLink(s.head), before + past)
    requires Foretells(before, PublishAll(c, s0, p, specs).tables)
    ensures Inv(c.hash, s') && s'.tables == s0.tables && AdvertChain(s'.blocks, HeadLink(s'.head), extra + past)
    ensures Foretells(extra, PublishAll(c, s0, p, specs).tables)
  {
    OnlyTablesDecide(c, s0, s, p, specs);
    var added := PublishAllAccounted(c, s, p, specs, before + past);
    AttemptEnds(c, s, p, specs, end, s');
    if s'.head == s.head {
      extra := before;
      AdvertChainGrows(s.blocks, s'.blocks, HeadLink(s.head), before + past);
    } else {
      extra := added + before;
      ConcatAssociates(added, before, past);
      MovedForetells(added, before, s.tables, PublishAll(c, s0, p, specs).tables);
    }
  }

  lemma MovedForetells(added: seq<Advertisement>, before: seq<Advertisement>, t: Tables, t': Tables)
    requires Foretells(before, t') && forall k :: AccountsFor(added, t, t', k)
    ensures Foretells(added + before, t')
  {
    forall k | Newest(added + before, k).Some? ensures AgreesAt(added + before, t', k) {
      NewestConcat(added, before, k);
      assert AccountsFor(added, t, t', k);
    }
  }

  /** Retrying heals, whatever failed: after any number of failed attempts that
      name no mapping, heads moved unacknowledged among them, a success leaves
      the tables that it would have at once, and chain and tables in agreement. */
  lemma RetriedBatchHeals(c: Setup, states: seq<State>, p: AddrInfo, specs: seq<AdvertSpec>, ends: seq<Ending>)
    requires FailedAttempts(c, states, p, specs, ends) && Inv(c.hash, states[0]) && Consistent(states[0])
    ensures
      var a, b := PublishAll(c, states[0], p, specs), PublishAll(c, states[|ends|], p, specs);
      a.tables == b.tables && Consistent(b)
  {
    var s0, s := states[0], states[|ends|];
    var past: seq<Advertisement> :| AdvertChain(s0.blocks, HeadLink(s0.head), past) && Agrees(past, s0.tables);
    var extra := AttemptsForetell(c, states, p, specs, ends, past);
    OnlyTablesDecide(c, s0, s, p, specs);
    var added := PublishAllAccounted(c, s, p, specs, extra + past);
    var t := PublishAll(c, s, p, specs).tables;
    forall k ensures AgreesAt(added + (extra + past), t, k) {
      NewestConcat(added, extra + past, k);
      NewestConcat(extra, past, k);
      assert AccountsFor(added, s.tables, t, k) && AgreesAt(past, s0.tables, k);
    }
    assert Agrees(added + (extra + past), t);
  }

  // ----- runs -----

  // What a publisher does to its store, call by call: publish one advert or a
  // batch, and succeed, or fail naming the context IDs it could not restore.
  datatype Call =
    | One(q: Request)
    | Batch(p: AddrInfo, specs: seq<AdvertSpec>)

  datatype Outcome = Succeeded | Failed(names: set<ContextID>)

  function ProviderOf(call: Call): Peer {
    if call.One? then call.q.provider.id else call.p.id
  }

  function Target(c: Setup, s: State, call: Call): State {
    match call
    case One(q) => PublishOne(c, s, q)
    case Batch(p, specs) => PublishAll(c, s, p, specs)
  }

  ghost predicate Step(c: Setup, s: State, call: Call, outcome: Outcome, s': State) {
    match outcome
    case Succeeded => s' == Target(c, s, call)
    case Failed(names) =>
      && Inv(c.hash, s') && HeadMovedAtMost(s, Target(c, s, call), s', true)
      && NewRowsStored(s.tables, s'.blocks, s'.tables)
      && forall k: Key :: k.provider != ProviderOf(call) || k.contextID !in names ==>
        Lookup(s'.tables, k) == Lookup(s.tables, k)
  }

  function NamedBy(e: Error): set<ContextID> {
    if e.RollbackFailed? then set f | f in e.failures :: f.contextID else {}
  }

  /** Every failure of a publish, of one advert or of a batch, is a step of a run
      that names what its error names. */
  lemma FailedPublishIsStep(c: Setup, s: State, call: Call, ids: seq<ContextID>, e: Error, s': State, may: bool,
                            faults: Log, n: nat)
    requires Inv(c.hash, s) && Inv(c.hash, s')
    requires FailedPublish(c.hash, ProviderOf(call), ids, s, Target(c, s, call), e, s', may, faults, n)
    ensures Step(c, s, call, Failed(NamedBy(e)), s')
  {
    var past: seq<Advertisement> :| AdvertChain(s.blocks, HeadLink(s.head), past);
    var _ := TargetAccounted(c, s, call, past);
    if e.RollbackFailed? {
      forall k: Key | k.provider != ProviderOf(call) || k.contextID !in NamedBy(e)
        ensures Lookup(s'.tables, k) == Lookup(s.tables, k)
      {
        assert k.provider != ProviderOf(call) || forall f: Failure :: f in e.failures ==> f.contextID != k.contextID;
      }
    }
  }

  lemma TargetAccounted(c: Setup, s: State, call: Call, past: seq<Advertisement>) returns (added: seq<Advertisement>)
    requires Inv(c.hash, s) && AdvertChain(s.blocks, HeadLink(s.head), past)
    ensures
      var s' := Target(c, s, call);
      && Inv(c.hash, s') && Sub(s.blocks, s'.blocks) && AdvertChain(s'.blocks, HeadLink(s'.head), added + past)
      && (forall k :: AccountsFor(added, s.tables, s'.tables, k))
  {
    match call
    case One(q) =>
      added := PublishOneAccounted(c, s, q, past);
    case Batch(p, specs) =>
      added := PublishAllAccounted(c, s, p, specs, past);
  }

  /** A call disturbed a key: it failed and named it, or it failed after moving
      the head and was to change its record. */
  ghost predicate DisturbedBy(c: Setup, s: State, call: Call, outcome: Outcome, s': State, k: Key) {
    && outcome.Failed?
    && ((k.provider == ProviderOf(call) && k.contextID in outcome.names)
        || (s'.head != s.head && Lookup(Target(c, s, call).tables, k) != Lookup(s.tables, k)))
  }

  lemma StepAgrees(c: Setup, s: State, call: Call, outcome: Outcome, s': State, chain: seq<Advertisement>)
    returns (chain': seq<Advertisement>)
    requires Inv(c.hash, s) && AdvertChain(s.blocks, HeadLink(s.head), chain) && Step(c, s, call, outcome, s')
    ensures Inv(c.hash, s') && AdvertChain(s'.blocks, HeadLink(s'.head), chain')
    ensures forall k :: AgreesAt(chain, s.tables, k) && !DisturbedBy(c, s, call, outcome, s', k) ==>
      AgreesAt(chain', s'.tables, k)
  {
    var added := TargetAccounted(c, s, call, chain);
    if outcome.Failed? && s'.head == s.head {
      chain' := chain;
      AdvertChainGrows(s.blocks, s'.blocks, HeadLink(s.head), chain);
    } else {
      chain' := added + chain;
      forall k | AgreesAt(chain, s.tables, k) && !DisturbedBy(c, s, call, outcome, s', k)
        ensures AgreesAt(chain', s'.tables, k)
      {
        NewestConcat(added, chain, k);
        assert AccountsFor(added, s.tables, Target(c, s, call).tables, k);
      }
    }
  }

  ghost predicate Run(c: Setup, run: seq<State>, calls: seq<Call>, outcomes: seq<Outcome>) {
    && Injective(c.hash) && |run| == |calls| + 1 && |outcomes| == |calls|
    && run[0] == State(map[], None, Tables(map[], map[]))
    && forall i :: 0 <= i < |calls| ==> Step(c, run[i], calls[i], outcomes[i], run[i + 1])
  }

  ghost predicate Undisturbed(c: Setup, run: seq<State>, calls: seq<Call>, outcomes: seq<Outcome>, n: nat, k: Key)
    requires n <= |calls| == |outcomes| && |run| == |calls| + 1
  {
    forall i :: 0 <= i < n ==> !DisturbedBy(c, run[i], calls[i], outcomes[i], run[i + 1], k)
  }

  /** Over any run of calls from an empty store, failing in any way they may, a
      key that no failure disturbed is mapped as its newest advert on the chain
      says; and chain and tables agree if no failure disturbed any. */
  lemma {:induction false} RunsStayConsistent(c: Setup, run: seq<State>, calls: seq<Call>, outcomes: seq<Outcome>,
                                              n: nat)
    returns (chain: seq<Advertisement>)
    requires Run(c, run, calls, outcomes) && n <= |calls|
    ensures Inv(c.hash, run[n]) && AdvertChain(run[n].blocks, HeadLink(run[n].head), chain)
    ensures forall k :: Undisturbed(c, run, calls, outcomes, n, k) ==> AgreesAt(chain, run[n].tables, k)
    ensures (forall k :: Undisturbed(c, run, calls, outcomes, n, k)) ==> Consistent(run[n])
  {
    if n == 0 {
      chain := [];
      assert AdvertChain(run[0].blocks, HeadLink(run[0].head), []);
    } else {
      var before := RunsStayConsistent(c, run, calls, outcomes, n - 1);
      chain := StepAgrees(c, run[n - 1], calls[n - 1], outcomes[n - 1], run[n], before);
      forall k | Undisturbed(c, run, calls, outcomes, n, k) ensures AgreesAt(chain, run[n].tables, k) {
        assert Undisturbed(c, run, calls, outcomes, n - 1, k);
        assert !DisturbedBy(c, run[n - 1], calls[n - 1], outcomes[n - 1], run[(n - 1) + 1], k);
      }
    }
    if forall k :: Undisturbed(c, run, calls, outcomes, n, k) {
      assert Agrees(chain, run[n].tables);
    }
  }

  lemma StepOfRun(c: Setup, run: seq<State>, calls: seq<Call>, outcomes: seq<Outcome>, n: nat)
    requires Run(c, run, calls, outcomes) && n < |calls|
    ensures Inv(c.hash, run[n]) && Step(c, run[n], calls[n], outcomes[n], run[n + 1])
  {
    var _ := RunsStayConsistent(c, run, calls, outcomes, n);
  }

  // ----- what the chain is signed with -----

  /** The head, if there is one, and every advert on its chain are signed with
      the publisher's key, and the head names its topic. */
  ghost predicate Signed(c: Setup, s: State) {
    && HeadSigned(s.head, c)
    && exists chain :: AdvertChain(s.blocks, HeadLink(s.head), chain) && AllSigned(chain, c.key)
  }

  lemma TargetSigned(c: Setup, s: State, call: Call)
    requires Inv(c.hash, s) && Signed(c, s)
    ensures Inv(c.hash, Target(c, s, call)) && Signed(c, Target(c, s, call))
  {
    var past: seq<Advertisement> :| AdvertChain(s.blocks, HeadLink(s.head), past) && AllSigned(past, c.key);
    var s' := Target(c, s, call);
    match call
    case One(q) =>
      if Generate(c, s, q).Ok? {
        var adv := PublishedFields(c, s, q, past);
        assert AllSigned([adv] + past, c.key);
      }
    case Batch(p, specs) =>
      var added := BatchFields(c, s, p, specs, past);
      var needed := Needed(c, s, p, specs);
      forall i | 0 <= i < |added| ensures added[i].signer == Some(c.key) {
        assert Tells(added[|needed| - 1 - (|needed| - 1 - i)], p, needed[|needed| - 1 - i], c.key);
      }
      assert AllSigned(added + past, c.key);
  }

  lemma StepKeepsSigned(c: Setup, s: State, call: Call, outcome: Outcome, s': State)
    requires Inv(c.hash, s) && Signed(c, s) && Step(c, s, call, outcome, s')
    ensures Signed(c, s')
  {
    TargetSigned(c, s, call);
    if outcome.Failed? && s'.head == s.head {
      var past: seq<Advertisement> :| AdvertChain(s.blocks, HeadLink(s.head), past) && AllSigned(past, c.key);
      AdvertChainGrows(s.blocks, s'.blocks, HeadLink(s.head), past);
    }
  }

  /** Over any run of calls from an empty store, failing in any way they may,
      every advert on the chain is signed with the publisher's key, and so is the
      head, for the publisher's topic. */
  lemma {:induction false} RunsAreSigned(c: Setup, run: seq<State>, calls: seq<Call>, outcomes: seq<Outcome>, n: nat,
                                         chain: seq<Advertisement>)
    requires Run(c, run, calls, outcomes) && n <= |calls|
    requires AdvertChain(run[n].blocks, HeadLink(run[n].head), chain)
    ensures forall i :: 0 <= i < |chain| ==> chain[i].signer == Some(c.key)
    ensures run[n].head.Some? ==> run[n].head.value.signer == c.key && run[n].head.value.topic == c.topic
  {
    RunKeepsSigned(c, run, calls, outcomes, n);
    var signed: seq<Advertisement> :|
      AdvertChain(run[n].blocks, HeadLink(run[n].head), signed) && AllSigned(signed, c.key);
    AdvertChainUnique(run[n].blocks, HeadLink(run[n].head), chain, signed);
  }

  lemma {:induction false} RunKeepsSigned(c: Setup, run: seq<State>, calls: seq<Call>, outcomes: seq<Outcome>, n: nat)
    requires Run(c, run, calls, outcomes) && n <= |calls|
    ensures Signed(c, run[n])
  {
    if n == 0 {
      assert AdvertChain(run[0].blocks, HeadLink(run[0].head), []) && AllSigned([], c.key);
    } else {
      RunKeepsSigned(c, run, calls, outcomes, n - 1);
      StepOfRun(c, run, calls, outcomes, n - 1);
      StepKeepsSigned(c, run[n - 1], calls[n - 1], outcomes[n - 1], run[n]);
    }
  }

  // ----- what the chain serves -----

  /** The entries of every mapped key, and of every advert on the chain, can be
      read back from the store. */
  ghost predicate Servable(s: State) {
    && (forall k :: k in s.tables.chunks ==> Readable(s.blocks, s.tables.chunks[k]))
    && exists chain :: AdvertChain(s.blocks, HeadLink(s.head), chain) && AllReadable(s.blocks, chain)
  }

  ghost predicate AllReadable(blocks: Blocks, chain: seq<Advertisement>) {
    forall i :: 0 <= i < |chain| ==> Readable(blocks, chain[i].entries)
  }

  /** An advert for content that was not mapped is for the request's provider,
      addresses, context ID and metadata, and its entries read back as the
      request's multihashes. */
  lemma FreshAdvertCarriesContent(c: Setup, s: State, q: Request)
    requires Inv(c.hash, s) && !q.isRm && Lookup(s.tables, KeyOf(q)).chunk.None?
    ensures
      var s' := PublishOne(c, s, q);
      var cs := Entries.ReadOrder(q.digests, c.chunkSize, c.identityEntries);
      exists adv ::
        && s'.head.Some? && s'.head.value.head in s'.blocks && s'.blocks[s'.head.value.head] == Advert(adv)
        && adv.provider == q.provider.id && adv.addresses == q.provider.addrs
        && adv.contextID == q.contextID && adv.metadata == q.metadata && !adv.isRm
        && Lookup(s'.tables, KeyOf(q)) == Record(Some(adv.entries), Some(adv.metadata))
        && EntriesChain(s'.blocks, Some(adv.entries), cs)
        && multiset(Entries.Flatten(cs)) == multiset(q.digests)
  {
    var (s1, draft) := Generate(c, s, q).value;
    Entries.EntriesRoundTrip(c.hash, s.blocks, q.digests, c.chunkSize, c.identityEntries);
    Entries.ReadBackContents(q.digests, c.chunkSize, c.identityEntries);
    var past: seq<Advertisement> :| AdvertChain(s.blocks, HeadLink(s.head), past);
    var added := PublishOneExtends(c, s, q, past);
    assert (added + past)[0] == added[0];
    AppendOne(c, s1, draft);
    var s' := PublishOne(c, s, q);
    PutAllOne(c.hash, s1.blocks, Advert(added[0]));
    PutAllGrows(c.hash, s1.blocks, [Advert(added[0])]);
    EntriesChainGrows(s1.blocks, s'.blocks, Some(draft.entries),
                      Entries.ReadOrder(q.digests, c.chunkSize, c.identityEntries));
  }

  lemma PublishOneKeepsServable(c: Setup, s: State, q: Request)
    requires Inv(c.hash, s) && Servable(s)
    ensures Servable(PublishOne(c, s, q))
  {
    var s' := PublishOne(c, s, q);
    var chain: seq<Advertisement> :| AdvertChain(s.blocks, HeadLink(s.head), chain) && AllReadable(s.blocks, chain);
    var added := PublishOneExtends(c, s, q, chain);
    if Generate(c, s, q).Ok? {
      assert Readable(s'.blocks, added[0].entries) by {
        AddedIsReadable(c, s, q, added[0]);
      }
      forall i | 0 <= i < |added + chain| ensures Readable(s'.blocks, (added + chain)[i].entries) {
        if i > 0 {
          ReadableGrows(s.blocks, s'.blocks, chain[i - 1].entries);
        }
      }
      forall k | k in s'.tables.chunks ensures Readable(s'.blocks, s'.tables.chunks[k]) {
        if k != KeyOf(q) {
          ReadableGrows(s.blocks, s'.blocks, s.tables.chunks[k]);
        }
      }
      assert AllReadable(s'.blocks, added + chain);
    }
  }

  lemma AddedIsReadable(c: Setup, s: State, q: Request, adv: Advertisement)
    requires Inv(c.hash, s) && Servable(s)
    requires Generate(c, s, q).Ok? && adv == Sign(c.key, HeadLink(s.head), Generate(c, s, q).value.1)
    ensures Readable(PublishOne(c, s, q).blocks, adv.entries)
  {
    var s' := PublishOne(c, s, q);
    var past: seq<Advertisement> :| AdvertChain(s.blocks, HeadLink(s.head), past);
    var _ := PublishOneExtends(c, s, q, past);
    var prior := Lookup(s.tables, KeyOf(q));
    if q.isRm {
      assert EntriesChain(s'.blocks, Some(NoEntries), []);
    } else if prior.chunk.Some? {
      ReadableGrows(s.blocks, s'.blocks, prior.chunk.value);
    } else {
      FreshAdvertCarriesContent(c, s, q);
    }
  }

  lemma {:induction false} PublishAllKeepsServable(c: Setup, s: State, p: AddrInfo, specs: seq<AdvertSpec>)
    requires Inv(c.hash, s) && Servable(s)
    ensures Inv(c.hash, PublishAll(c, s, p, specs)) && Servable(PublishAll(c, s, p, specs))
  {
    if specs != [] {
      var before, q := PublishAll(c, s, p, specs[..|specs| - 1]), RequestOf(p, specs[|specs| - 1]);
      PublishAllKeepsServable(c, s, p, specs[..|specs| - 1]);
      PublishOneKeepsServable(c, before, q);
      var past: seq<Advertisement> :| AdvertChain(before.blocks, HeadLink(before.head), past);
      var _ := PublishOneExtends(c, before, q, past);
    }
  }

  /** Over any run of calls from an empty store, failing in any way they may,
      everything mapped and everything on the chain can be read back: also what
      a failure could not unmap. */
  lemma {:induction false} RunsStayServable(c: Setup, run: seq<State>, calls: seq<Call>, outcomes: seq<Outcome>, n: nat)
    requires Run(c, run, calls, outcomes) && n <= |calls|
    ensures Servable(run[n])
  {
    if n == 0 {
      assert AdvertChain(run[0].blocks, HeadLink(run[0].head), []) && AllReadable(run[0].blocks, []);
    } else {
      RunsStayServable(c, run, calls, outcomes, n - 1);
      StepOfRun(c, run, calls, outcomes, n - 1);
      StepKeepsServable(c, run[n - 1], calls[n - 1], outcomes[n - 1], run[n]);
    }
  }

  lemma StepKeepsServable(c: Setup, s: State, call: Call, outcome: Outcome, s': State)
    requires Inv(c.hash, s) && Servable(s) && Step(c, s, call, outcome, s')
    ensures Servable(s')
  {
    match call {
      case One(q) => PublishOneKeepsServable(c, s, q);
      case Batch(p, specs) => PublishAllKeepsServable(c, s, p, specs);
    }
    if outcome.Failed? {
      FailureKeepsServable(s, Target(c, s, call), s');
    }
  }

  lemma FailureKeepsServable(s: State, target: State, s': State)
    requires Servable(s) && Servable(target) && HeadMovedAtMost(s, target, s', true)
    requires NewRowsStored(s.tables, s'.blocks, s'.tables)
    ensures Servable(s')
  {
    forall k | k in s'.tables.chunks ensures Readable(s'.blocks, s'.tables.chunks[k]) {
      assert NewRowStored(s.tables, s'.blocks, s'.tables, k);
      if Lookup(s'.tables, k).chunk == Lookup(s.tables, k).chunk {
        ReadableGrows(s.blocks, s'.blocks, s.tables.chunks[k]);
      }
    }
    if s'.head == s.head {
      var chain: seq<Advertisement> :| AdvertChain(s.blocks, HeadLink(s.head), chain) && AllReadable(s.blocks, chain);
      AdvertChainGrows(s.blocks, s'.blocks, HeadLink(s.head), chain);
      forall i | 0 <= i < |chain| ensures Readable(s'.blocks, chain[i].entries) {
        ReadableGrows(s.blocks, s'.blocks, chain[i].entries);
      }
      assert AllReadable(s'.blocks, chain);
    }
  }

  // ----- a batch of new content -----

  /** An advert for new content: signed, with the provider's addresses and the
      spec's own context ID and metadata, and entries that read back as the
      spec's multihashes. */
  ghost predicate Carries(blocks: Blocks, p: AddrInfo, spec: AdvertSpec, adv: Advertisement, key: PrivKey) {
    Tells(adv, p, spec, key) && ReadsAs(blocks, adv.entries, spec.digests)
  }

  /** The chain's newest adverts carry the specs, the last spec first. */
  ghost predicate CarriesAll(blocks: Blocks, p: AddrInfo, specs: seq<AdvertSpec>, added: seq<Advertisement>,
                             key: PrivKey)
  {
    && |added| == |specs|
    && forall i :: 0 <= i < |specs| ==> Carries(blocks, p, specs[i], added[|specs| - 1 - i], key)
  }

  lemma CarriesOneMore(m: Blocks, m': Blocks, p: AddrInfo, specs: seq<AdvertSpec>, adv: Advertisement,
                       added: seq<Advertisement>, key: PrivKey)
    requires specs != [] && Sub(m, m') && Carries(m', p, specs[|specs| - 1], adv, key)
    requires CarriesAll(m, p, specs[..|specs| - 1], added, key)
    ensures CarriesAll(m', p, specs, [adv] + added, key)
  {
    var n := |specs| - 1;
    forall i | 0 <= i < |specs| ensures Carries(m', p, specs[i], ([adv] + added)[n - i], key) {
      if i < n {
        assert specs[..n][i] == specs[i] && ([adv] + added)[n - i] == added[n - 1 - i];
        ReadsAsGrows(m, m', added[n - 1 - i].entries, specs[i].digests);
      }
    }
  }

  lemma NewContentCarried(c: Setup, s: State, p: AddrInfo, spec: AdvertSpec, past: seq<Advertisement>)
    returns (adv: Advertisement)
    requires Inv(c.hash, s) && AdvertChain(s.blocks, HeadLink(s.head), past)
    requires Lookup(s.tables, Key(p.id, spec.contextID)).chunk.None?
    ensures
      var s' := PublishOne(c, s, RequestOf(p, spec));
      && Inv(c.hash, s') && Sub(s.blocks, s'.blocks) && AdvertChain(s'.blocks, HeadLink(s'.head), [adv] + past)
      && Carries(s'.blocks, p, spec, adv, c.key)
  {
    SpecIsNeeded(c, s, p, spec);
    adv := PublishedFields(c, s, RequestOf(p, spec), past);
    var _ := PublishOneExtends(c, s, RequestOf(p, spec), past);
  }

  /** The specs bring new content: no context ID twice, and none mapped. */
  ghost predicate AllNew(t: Tables, p: AddrInfo, specs: seq<AdvertSpec>) {
    && (forall i, j :: 0 <= i < j < |specs| ==> specs[i].contextID != specs[j].contextID)
    && (forall i :: 0 <= i < |specs| ==> Lookup(t, Key(p.id, specs[i].contextID)).chunk.None?)
  }

  lemma LastIsStillNew(c: Setup, s: State, p: AddrInfo, specs: seq<AdvertSpec>)
    requires specs != [] && AllNew(s.tables, p, specs)
    ensures var n := |specs| - 1;
            && AllNew(s.tables, p, specs[..n])
            && Lookup(PublishAll(c, s, p, specs[..n]).tables, Key(p.id, specs[n].contextID)).chunk.None?
  {
    var n := |specs| - 1;
    OtherKeysUntouched(c, s, p, specs[..n], Key(p.id, specs[n].contextID));
  }

  /** A batch of new content becomes one advert for each spec, on one chain, in
      order, each signed, with its own spec's context ID, metadata and
      multihashes. */
  lemma {:induction false} NewContentInOrder(c: Setup, s: State, p: AddrInfo, specs: seq<AdvertSpec>,
                                             past: seq<Advertisement>)
    returns (added: seq<Advertisement>)
    requires Inv(c.hash, s) && AdvertChain(s.blocks, HeadLink(s.head), past)
    requires AllNew(s.tables, p, specs)
    ensures
      var s' := PublishAll(c, s, p, specs);
      && Inv(c.hash, s') && AdvertChain(s'.blocks, HeadLink(s'.head), added + past)
      && CarriesAll(s'.blocks, p, specs, added, c.key)
  {
    if specs == [] {
      added := [];
      EmptyConcat(past);
    } else {
      var n := |specs| - 1;
      LastIsStillNew(c, s, p, specs);
      var earlier := NewContentInOrder(c, s, p, specs[..n], past);
      var before := PublishAll(c, s, p, specs[..n]);
      var adv := NewContentCarried(c, before, p, specs[n], earlier + past);
      CarriesOneMore(before.blocks, PublishAll(c, s, p, specs).blocks, p, specs, adv, earlier, c.key);
      added := [adv] + earlier;
      ConcatAssociates([adv], earlier, past);
    }
  }
}
