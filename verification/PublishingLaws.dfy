/** What publishing keeps, over any state and any specs. */
module PublishingLaws {
  import opened Ipld
  import opened Mappings
  import opened Publishing
  import opened Sequences
  import opened Wrappers
  import Entries

  /** The state of a store: blocks under their own links, whole chains behind
      every block, and a head, if any, that is a stored advert. */
  ghost predicate Inv(h: Hash, s: State) {
    Sound(h, s.blocks, s.head)
  }

  ghost predicate Sound(h: Hash, blocks: Blocks, head: Option<SignedHead>) {
    && Injective(h)
    && Addressed(h, blocks)
    && Grounded(blocks)
    && exists advs :: AdvertChain(blocks, HeadLink(head), advs)
  }

  // ----- appending adverts -----

  lemma PutAdvertsAppend(h: Hash, m: Blocks, advs: seq<Advertisement>, adv: Advertisement)
    ensures
      PutAll(h, m, AdvertBlocks(advs + [adv]))
      == PutAll(h, m, AdvertBlocks(advs))[AdvertLink(h, adv) := Advert(adv)]
  {
    var bs := AdvertBlocks(advs + [adv]);
    assert bs[..|bs| - 1] == AdvertBlocks(advs);
  }

  lemma LinkAllAppend(c: Setup, prev: Option<Link>, drafts: seq<Advertisement>, d: Advertisement)
    ensures
      var advs := LinkAll(c, prev, drafts);
      var adv := Sign(c.key, TopAdvert(c.hash, prev, advs), d);
      && LinkAll(c, prev, drafts + [d]) == advs + [adv]
      && TopAdvert(c.hash, prev, advs + [adv]) == Some(AdvertLink(c.hash, adv))
  {
    assert (drafts + [d])[..|drafts|] == drafts;
  }

  lemma {:induction false} LinkedPrefix(c: Setup, prev: Option<Link>, drafts: seq<Advertisement>, i: nat)
    requires i < |drafts|
    ensures
      var advs := LinkAll(c, prev, drafts);
      && advs[..i] == LinkAll(c, prev, drafts[..i])
      && advs[..i + 1] == LinkAll(c, prev, drafts[..i + 1])
      && advs[i] == Sign(c.key, TopAdvert(c.hash, prev, advs[..i]), drafts[i])
    decreases |drafts|
  {
    var n := |drafts| - 1;
    if i < n {
      LinkedPrefix(c, prev, drafts[..n], i);
      assert drafts[..n][..i] == drafts[..i] && drafts[..n][..i + 1] == drafts[..i + 1];
    } else {
      assert drafts[..i + 1] == drafts;
    }
  }

  lemma PutAdvertOnChain(h: Hash, m: Blocks, adv: Advertisement, past: seq<Advertisement>)
    requires Injective(h) && Addressed(h, m) && Grounded(m) && AdvertChain(m, adv.prev, past)
    ensures
      var m' := m[AdvertLink(h, adv) := Advert(adv)];
      && Addressed(h, m') && Grounded(m') && Sub(m, m')
      && AdvertChain(m', Some(AdvertLink(h, adv)), [adv] + past)
  {
    var m' := m[AdvertLink(h, adv) := Advert(adv)];
    PutGrounded(h, m, Advert(adv));
    AdvertChainGrows(m, m', adv.prev, past);
    assert ([adv] + past)[1..] == past;
  }

  /** Linked before written: writing adverts that were linked to one another
      beforehand puts exactly those adverts on the chain, newest first, before
      the old chain, all of it stored. */
  lemma {:induction false} LinkedChainStored(c: Setup, m: Blocks, prev: Option<Link>, past: seq<Advertisement>,
                                             drafts: seq<Advertisement>)
    requires Injective(c.hash) && Addressed(c.hash, m) && Grounded(m) && AdvertChain(m, prev, past)
    ensures
      var advs := LinkAll(c, prev, drafts);
      var m' := PutAll(c.hash, m, AdvertBlocks(advs));
      && Addressed(c.hash, m') && Grounded(m') && Sub(m, m')
      && AdvertChain(m', TopAdvert(c.hash, prev, advs), Reverse(advs) + past)
  {
    var advs := LinkAll(c, prev, drafts);
    var m' := PutAll(c.hash, m, AdvertBlocks(advs));
    if drafts == [] {
      EmptyConcat(past);
      assert AdvertBlocks(advs) == [];
    } else {
      var init, d := drafts[..|drafts| - 1], drafts[|drafts| - 1];
      LinkedChainStored(c, m, prev, past, init);
      var before := LinkAll(c, prev, init);
      var m1 := PutAll(c.hash, m, AdvertBlocks(before));
      var adv := Sign(c.key, TopAdvert(c.hash, prev, before), d);
      assert advs == before + [adv];
      PutAdvertsAppend(c.hash, m, before, adv);
      assert m' == m1[AdvertLink(c.hash, adv) := Advert(adv)];
      PutAdvertOnChain(c.hash, m1, adv, Reverse(before) + past);
      ReverseAppend(before, adv, past);
    }
  }

  /** The blocks m are m0 and the linked drafts, of which top is the last. */
  ghost predicate LinkedSoFar(c: Setup, m0: Blocks, prev: Option<Link>, drafts: seq<Advertisement>, m: Blocks,
                              top: Option<Link>)
  {
    var linked := LinkAll(c, prev, drafts);
    m == PutAll(c.hash, m0, AdvertBlocks(linked)) && top == TopAdvert(c.hash, prev, linked)
  }

  /** One more linked advert: what it builds on is stored, and writing it is
      writing the longer list. */
  lemma LinkedOneMore(c: Setup, m0: Blocks, prev: Option<Link>, past: seq<Advertisement>, all: seq<Advertisement>,
                      i: nat, m: Blocks, top: Option<Link>)
    requires Injective(c.hash) && Addressed(c.hash, m0) && Grounded(m0) && AdvertChain(m0, prev, past)
    requires i < |all| && LinkedSoFar(c, m0, prev, all[..i], m, top)
    ensures
      var adv := Sign(c.key, top, all[i]);
      && NextStored(m, Advert(adv))
      && LinkedSoFar(c, m0, prev, all[..i + 1], PutAll(c.hash, m, [Advert(adv)]), Some(AdvertLink(c.hash, adv)))
  {
    var drafts, d := all[..i], all[i];
    TakeOneMore(all, i);
    var linked := LinkAll(c, prev, drafts);
    LinkedChainStored(c, m0, prev, past, drafts);
    LinkAllAppend(c, prev, drafts, d);
    var adv := Sign(c.key, top, d);
    PutAdvertsAppend(c.hash, m0, linked, adv);
    PutAllOne(c.hash, m, Advert(adv));
  }

  /** Moving the head to the last of the linked adverts is appending them. */
  lemma LinkedIsAppended(c: Setup, s: State, drafts: seq<Advertisement>, m: Blocks, top: Link)
    requires Inv(c.hash, s) && drafts != []
    requires LinkedSoFar(c, s.blocks, HeadLink(s.head), drafts, m, Some(top))
    ensures Append(c, s, drafts) == s.(blocks := m, head := Some(SignedHead(top, c.topic, c.key)))
    ensures exists advs :: AdvertChain(m, Some(top), advs)
  {
    var past :| AdvertChain(s.blocks, HeadLink(s.head), past);
    LinkedChainStored(c, s.blocks, HeadLink(s.head), past, drafts);
  }

  /** The new adverts of an append, newest first. */
  function Appended(c: Setup, s: State, drafts: seq<Advertisement>): seq<Advertisement> {
    Reverse(LinkAll(c, HeadLink(s.head), drafts))
  }

  lemma AppendChain(c: Setup, s: State, past: seq<Advertisement>, drafts: seq<Advertisement>)
    requires Inv(c.hash, s) && AdvertChain(s.blocks, HeadLink(s.head), past)
    ensures
      var s' := Append(c, s, drafts);
      && Inv(c.hash, s') && Sub(s.blocks, s'.blocks)
      && s'.tables == s.tables
      && AdvertChain(s'.blocks, HeadLink(s'.head), Appended(c, s, drafts) + past)
  {
    LinkedChainStored(c, s.blocks, HeadLink(s.head), past, drafts);
    var s' := Append(c, s, drafts);
    if drafts == [] {
      EmptyConcat(past);
    }
    assert AdvertChain(s'.blocks, HeadLink(s'.head), Appended(c, s, drafts) + past);
  }

  lemma AppendOne(c: Setup, s: State, d: Advertisement)
    ensures
      var adv := Sign(c.key, HeadLink(s.head), d);
      Append(c, s, [d]) ==
        s.(blocks := s.blocks[AdvertLink(c.hash, adv) := Advert(adv)],
           head := Some(SignedHead(AdvertLink(c.hash, adv), c.topic, c.key)))
  {
    var adv := Sign(c.key, HeadLink(s.head), d);
    assert [d][..0] == [];
    assert LinkAll(c, HeadLink(s.head), [d]) == [] + [adv];
    PutAdvertsAppend(c.hash, s.blocks, [], adv);
    assert AdvertBlocks([]) == [];
  }

  /** Appending one advert at a time is appending them all under one head. */
  lemma AppendTwice(c: Setup, s: State, drafts: seq<Advertisement>, d: Advertisement)
    ensures Append(c, Append(c, s, drafts), [d]) == Append(c, s, drafts + [d])
  {
    if drafts == [] {
      assert drafts + [d] == [d];
    } else {
      var prev := HeadLink(s.head);
      var advs := LinkAll(c, prev, drafts);
      var s1 := Append(c, s, drafts);
      assert HeadLink(s1.head) == TopAdvert(c.hash, prev, advs);
      var adv := Sign(c.key, HeadLink(s1.head), d);
      AppendOne(c, s1, d);
      LinkAllAppend(c, prev, drafts, d);
      PutAdvertsAppend(c.hash, s.blocks, advs, adv);
    }
  }

  /** Entry blocks and tables may be written before or after the adverts. */
  lemma AppendCommutes(c: Setup, s: State, written: seq<Block>, t: Tables, drafts: seq<Advertisement>)
    requires Injective(c.hash)
    ensures
      var s1 := Append(c, s, drafts);
      Append(c, s.(blocks := PutAll(c.hash, s.blocks, written), tables := t), drafts)
      == s1.(blocks := PutAll(c.hash, s1.blocks, written), tables := t)
  {
    if drafts != [] {
      PutAllCommutes(c.hash, s.blocks, written, AdvertBlocks(LinkAll(c, HeadLink(s.head), drafts)));
    }
  }

  // ----- one publish -----

  /** A publish adds at most one advert, in front of a chain it keeps, and adds
      one exactly when generating the advert is not refused. */
  lemma PublishOneExtends(c: Setup, s: State, q: Request, past: seq<Advertisement>)
    returns (added: seq<Advertisement>)
    requires Inv(c.hash, s) && AdvertChain(s.blocks, HeadLink(s.head), past)
    ensures
      var s' := PublishOne(c, s, q);
      && Inv(c.hash, s') && Sub(s.blocks, s'.blocks)
      && AdvertChain(s'.blocks, HeadLink(s'.head), added + past)
    ensures match Generate(c, s, q)
            case Err(_) => added == []
            case Ok((_, draft)) => added == [Sign(c.key, HeadLink(s.head), draft)]
  {
    match Generate(c, s, q)
    case Err(_) =>
      added := [];
      EmptyConcat(past);
    case Ok((s1, draft)) =>
      if !q.isRm && Lookup(s.tables, KeyOf(q)).chunk.None? {
        Entries.EntriesRoundTrip(c.hash, s.blocks, q.digests, c.chunkSize, c.identityEntries);
        AdvertChainGrows(s.blocks, s1.blocks, HeadLink(s.head), past);
      }
      AppendChain(c, s1, past, [draft]);
      added := Appended(c, s1, [draft]);
      assert [draft][..0] == [];
      assert LinkAll(c, HeadLink(s1.head), [draft]) == [] + [Sign(c.key, HeadLink(s1.head), draft)];
  }

  /** Adverts already planned but not yet written do not change what the next
      advert is: publishing on top of them is planning one more. */
  lemma PublishOverPlan(c: Setup, s: State, drafts: seq<Advertisement>, q: Request)
    requires Injective(c.hash)
    ensures
      PublishOne(c, Append(c, s, drafts), q) ==
      match Generate(c, s, q)
      case Err(_) => Append(c, s, drafts)
      case Ok((s', draft)) => Append(c, s', drafts + [draft])
  {
    match Generate(c, s, q)
    case Err(_) =>
    case Ok((s', draft)) =>
      var written := if q.isRm || Lookup(s.tables, KeyOf(q)).chunk.Some? then [] else FreshBlocks(c, q);
      AppendCommutes(c, s, written, s'.tables, drafts);
      AppendTwice(c, s', drafts, draft);
  }

  // ----- many publishes -----

  /** How many of the specs need an advert. */
  function NewAdverts(c: Setup, s: State, p: AddrInfo, specs: seq<AdvertSpec>): nat {
    if specs == [] then 0
    else
      var init, spec := specs[..|specs| - 1], specs[|specs| - 1];
      NewAdverts(c, s, p, init)
      + if Generate(c, PublishAll(c, s, p, init), RequestOf(p, spec)).Ok? then 1 else 0
  }

  /** Publishing specs extends the chain by one advert for each spec that needs
      one, loses no block and keeps every chain whole. */
  lemma {:induction false} PublishAllExtends(c: Setup, s: State, p: AddrInfo, specs: seq<AdvertSpec>,
                                             past: seq<Advertisement>)
    returns (added: seq<Advertisement>)
    requires Inv(c.hash, s) && AdvertChain(s.blocks, HeadLink(s.head), past)
    ensures
      var s' := PublishAll(c, s, p, specs);
      && Inv(c.hash, s') && Sub(s.blocks, s'.blocks)
      && AdvertChain(s'.blocks, HeadLink(s'.head), added + past)
    ensures |added| == NewAdverts(c, s, p, specs)
  {
    if specs == [] {
      added := [];
      EmptyConcat(past);
    } else {
      var init := specs[..|specs| - 1];
      var before := PublishAllExtends(c, s, p, init, past);
      var last := PublishOneExtends(c, PublishAll(c, s, p, init), RequestOf(p, specs[|specs| - 1]), before + past);
      added := last + before;
      ConcatAssociates(last, before, past);
    }
  }

  /** When some spec needed an advert the head has moved. */
  lemma NewAdvertsMoveHead(c: Setup, s: State, p: AddrInfo, specs: seq<AdvertSpec>)
    requires Inv(c.hash, s)
    ensures NewAdverts(c, s, p, specs) > 0 ==> HeadLink(PublishAll(c, s, p, specs).head) != HeadLink(s.head)
    ensures NewAdverts(c, s, p, specs) == 0 ==> PublishAll(c, s, p, specs) == s
  {
    var past :| AdvertChain(s.blocks, HeadLink(s.head), past);
    var added := PublishAllExtends(c, s, p, specs, past);
    var s' := PublishAll(c, s, p, specs);
    if HeadLink(s'.head) == HeadLink(s.head) {
      AdvertChainGrows(s.blocks, s'.blocks, HeadLink(s.head), past);
      AdvertChainUnique(s'.blocks, HeadLink(s.head), past, added + past);
    }
    if NewAdverts(c, s, p, specs) == 0 {
      NoNewAdverts(c, s, p, specs, |specs|);
    }
  }

  lemma {:induction false} NoNewAdverts(c: Setup, s: State, p: AddrInfo, specs: seq<AdvertSpec>, n: nat)
    requires n <= |specs| && NewAdverts(c, s, p, specs) == 0
    ensures PublishAll(c, s, p, specs[..n]) == s
    ensures n < |specs| ==> Generate(c, s, RequestOf(p, specs[n])).Err?
    decreases |specs|
  {
    if specs != [] {
      var m := |specs| - 1;
      if n < m {
        NoNewAdverts(c, s, p, specs[..m], n);
        assert specs[..m][..n] == specs[..n];
      } else {
        NoNewAdverts(c, s, p, specs[..m], m);
        assert specs[..m][..m] == specs[..m];
        assert specs[..|specs|] == specs;
      }
    }
  }

  // ----- entries -----

  /** The entries of k's row can be read back, unless the row is the one of t. */
  ghost predicate NewRowStored(t: Tables, blocks: Blocks, t': Tables, k: Key) {
    var chunk := Lookup(t', k).chunk;
    chunk == Lookup(t, k).chunk || chunk.None? || Readable(blocks, chunk.value)
  }

  /** The entries that rows were newly mapped to are stored. */
  ghost predicate NewRowsStored(t: Tables, blocks: Blocks, t': Tables) {
    forall k :: NewRowStored(t, blocks, t', k)
  }

  /** Entries are written before a row is mapped to them. */
  lemma GenerateStoresEntries(c: Setup, s: State, q: Request)
    requires Inv(c.hash, s) && Generate(c, s, q).Ok?
    ensures var s' := Generate(c, s, q).value.0; NewRowsStored(s.tables, s'.blocks, s'.tables)
  {
    var s' := Generate(c, s, q).value.0;
    forall k ensures NewRowStored(s.tables, s'.blocks, s'.tables, k) {
      if k == KeyOf(q) && !q.isRm && Lookup(s.tables, k).chunk.None? {
        Entries.EntriesRoundTrip(c.hash, s.blocks, q.digests, c.chunkSize, c.identityEntries);
        var root := FreshLink(c, q);
        assert EntriesChain(s'.blocks, Some(NoEntries), []);
        assert root.Some? ==> Readable(s'.blocks, root.value);
      }
    }
  }

  lemma PublishOneStoresEntries(c: Setup, s: State, q: Request)
    requires Inv(c.hash, s)
    ensures var s' := PublishOne(c, s, q); NewRowsStored(s.tables, s'.blocks, s'.tables)
  {
    match Generate(c, s, q)
    case Err(_) =>
    case Ok((s1, draft)) =>
      GenerateStoresEntries(c, s, q);
      GeneratedIsSound(c, s, q);
      AppendOne(c, s1, draft);
      NewRowsStoredGrow(s.tables, s1.blocks, PublishOne(c, s, q).blocks, s1.tables);
  }

  lemma GeneratedIsSound(c: Setup, s: State, q: Request)
    requires Inv(c.hash, s) && Generate(c, s, q).Ok?
    ensures var s' := Generate(c, s, q).value.0; Inv(c.hash, s') && Sub(s.blocks, s'.blocks)
  {
    var s' := Generate(c, s, q).value.0;
    Entries.EntriesRoundTrip(c.hash, s.blocks, q.digests, c.chunkSize, c.identityEntries);
    var past :| AdvertChain(s.blocks, HeadLink(s.head), past);
    AdvertChainGrows(s.blocks, s'.blocks, HeadLink(s.head), past);
  }

  lemma NewRowsStoredGrow(t: Tables, m: Blocks, m': Blocks, t': Tables)
    requires NewRowsStored(t, m, t') && Sub(m, m')
    ensures NewRowsStored(t, m', t')
  {
    forall k ensures NewRowStored(t, m', t', k) {
      assert NewRowStored(t, m, t', k);
      var chunk := Lookup(t', k).chunk;
      if chunk.Some? && Readable(m, chunk.value) {
        ReadableGrows(m, m', chunk.value);
      }
    }
  }

  /** Publishing specs stores the entries of all that it newly maps. */
  lemma {:induction false} PublishAllStoresEntries(c: Setup, s: State, p: AddrInfo, specs: seq<AdvertSpec>)
    requires Inv(c.hash, s)
    ensures var s' := PublishAll(c, s, p, specs); Inv(c.hash, s') && NewRowsStored(s.tables, s'.blocks, s'.tables)
  {
    if specs != [] {
      var before, q := PublishAll(c, s, p, specs[..|specs| - 1]), RequestOf(p, specs[|specs| - 1]);
      var s' := PublishOne(c, before, q);
      PublishAllStoresEntries(c, s, p, specs[..|specs| - 1]);
      PublishOneStoresEntries(c, before, q);
      var past :| AdvertChain(before.blocks, HeadLink(before.head), past);
      var _ := PublishOneExtends(c, before, q, past);
      NewRowsStoredGrow(s.tables, before.blocks, s'.blocks, before.tables);
      forall k ensures NewRowStored(s.tables, s'.blocks, s'.tables, k) {
        assert NewRowStored(s.tables, s'.blocks, before.tables, k);
        assert NewRowStored(before.tables, s'.blocks, s'.tables, k);
      }
    }
  }

  // ----- retries -----

  /** What a failed publish leaves: the same tables and head, and possibly more
      content-addressed blocks. */
  ghost predicate LeftAsFound(h: Hash, s: State, s': State) {
    && s'.tables == s.tables
    && s'.head == s.head
    && Sub(s.blocks, s'.blocks)
    && Inv(h, s')
  }

  lemma {:induction false} PutAllMonotone(h: Hash, m: Blocks, m': Blocks, bs: seq<Block>)
    requires Sub(m, m')
    ensures Sub(PutAll(h, m, bs), PutAll(h, m', bs))
  {
    if bs != [] {
      PutAllMonotone(h, m, m', bs[..|bs| - 1]);
    }
  }

  /** Blocks left over from elsewhere change neither the tables nor the head
      that publishing leaves. */
  lemma {:induction false} LeftoverBlocksDoNotMatter(c: Setup, s: State, s': State, p: AddrInfo, specs: seq<AdvertSpec>)
    requires s'.tables == s.tables && s'.head == s.head && Sub(s.blocks, s'.blocks)
    ensures
      var a, b := PublishAll(c, s, p, specs), PublishAll(c, s', p, specs);
      a.tables == b.tables && a.head == b.head && Sub(a.blocks, b.blocks)
  {
    if specs != [] {
      var init, q := specs[..|specs| - 1], RequestOf(p, specs[|specs| - 1]);
      LeftoverBlocksDoNotMatter(c, s, s', p, init);
      var a, b := PublishAll(c, s, p, init), PublishAll(c, s', p, init);
      match Generate(c, a, q)
      case Err(_) =>
      case Ok((a', draft)) =>
        var b' := Generate(c, b, q).value.0;
        var written := if Lookup(a.tables, KeyOf(q)).chunk.Some? then [] else FreshBlocks(c, q);
        PutAllMonotone(c.hash, a.blocks, b.blocks, written);
        PutAllMonotone(c.hash, a'.blocks, b'.blocks, AdvertBlocks(LinkAll(c, HeadLink(a.head), [draft])));
    }
  }

  /** Retry transparency: after any number of failed attempts, publishing the
      specs leaves the tables, the head and the chain that publishing them at
      once would have left. */
  lemma {:induction false} RetryTransparent(c: Setup, attempts: seq<State>, p: AddrInfo, specs: seq<AdvertSpec>,
                                            chain: seq<Advertisement>)
    requires attempts != [] && Inv(c.hash, attempts[0])
    requires forall i :: 0 <= i < |attempts| - 1 ==> LeftAsFound(c.hash, attempts[i], attempts[i + 1])
    requires var a := PublishAll(c, attempts[0], p, specs); AdvertChain(a.blocks, HeadLink(a.head), chain)
    ensures
      var a, b := PublishAll(c, attempts[0], p, specs), PublishAll(c, attempts[|attempts| - 1], p, specs);
      && a.tables == b.tables && a.head == b.head
      && AdvertChain(b.blocks, HeadLink(b.head), chain)
  {
    AttemptsCompose(c, attempts);
    var s, s' := attempts[0], attempts[|attempts| - 1];
    LeftoverBlocksDoNotMatter(c, s, s', p, specs);
    var a, b := PublishAll(c, s, p, specs), PublishAll(c, s', p, specs);
    AdvertChainGrows(a.blocks, b.blocks, HeadLink(a.head), chain);
  }

  lemma {:induction false} AttemptsCompose(c: Setup, attempts: seq<State>)
    requires attempts != []
    requires forall i :: 0 <= i < |attempts| - 1 ==> LeftAsFound(c.hash, attempts[i], attempts[i + 1])
    ensures
      var s, s' := attempts[0], attempts[|attempts| - 1];
      s'.tables == s.tables && s'.head == s.head && Sub(s.blocks, s'.blocks)
  {
    if |attempts| > 1 {
      AttemptsCompose(c, attempts[..|attempts| - 1]);
      assert LeftAsFound(c.hash, attempts[|attempts| - 2], attempts[|attempts| - 1]);
    }
  }

  // ----- repeating a batch -----

  /** Specs that share a context ID carry the same metadata. */
  ghost predicate Agree(specs: seq<AdvertSpec>) {
    forall i, j :: 0 <= i < |specs| && 0 <= j < |specs| && specs[i].contextID == specs[j].contextID ==>
      specs[i].metadata == specs[j].metadata
  }

  /** After a batch every context ID in it is mapped to some entries, and to the
      metadata of its last spec. */
  lemma {:induction false} LastSpecWins(c: Setup, s: State, p: AddrInfo, specs: seq<AdvertSpec>, i: nat)
    requires i < |specs|
    requires forall j :: i < j < |specs| ==> specs[j].contextID != specs[i].contextID
    ensures
      var r := Lookup(PublishAll(c, s, p, specs).tables, Key(p.id, specs[i].contextID));
      r.chunk.Some? && r.meta == Some(specs[i].metadata)
  {
    var n := |specs| - 1;
    var before, q := PublishAll(c, s, p, specs[..n]), RequestOf(p, specs[n]);
    if i < n {
      LastSpecWins(c, s, p, specs[..n], i);
    }
  }

  lemma LastIndexOf(specs: seq<AdvertSpec>, i: nat) returns (k: nat)
    requires i < |specs|
    ensures i <= k < |specs| && specs[k].contextID == specs[i].contextID
    ensures forall j :: k < j < |specs| ==> specs[j].contextID != specs[i].contextID
  {
    k := |specs| - 1;
    while specs[k].contextID != specs[i].contextID
      invariant i <= k < |specs|
      invariant forall j :: k < j < |specs| ==> specs[j].contextID != specs[i].contextID
      decreases k
    {
      k := k - 1;
    }
  }

  lemma {:induction false} AllSkipped(c: Setup, s: State, p: AddrInfo, specs: seq<AdvertSpec>)
    requires forall i :: 0 <= i < |specs| ==> Generate(c, s, RequestOf(p, specs[i])).Err?
    ensures NewAdverts(c, s, p, specs) == 0 && PublishAll(c, s, p, specs) == s
  {
    if specs != [] {
      AllSkipped(c, s, p, specs[..|specs| - 1]);
    }
  }

  /** Idempotence, exactly: repeating a batch needs no advert if and only if
      the specs sharing a context ID agree on their metadata. When they agree
      the repeat changes nothing at all; when they do not, it moves the head. */
  lemma RepeatIsIdleIffSpecsAgree(c: Setup, s: State, p: AddrInfo, specs: seq<AdvertSpec>)
    requires Inv(c.hash, s)
    ensures
      var s1 := PublishAll(c, s, p, specs);
      var s2 := PublishAll(c, s1, p, specs);
      && (NewAdverts(c, s1, p, specs) == 0 <==> Agree(specs))
      && (Agree(specs) ==> s2 == s1)
      && (!Agree(specs) ==> HeadLink(s2.head) != HeadLink(s1.head))
  {
    var s1 := PublishAll(c, s, p, specs);
    if Agree(specs) {
      forall i | 0 <= i < |specs| ensures Generate(c, s1, RequestOf(p, specs[i])).Err? {
        var k := LastIndexOf(specs, i);
        LastSpecWins(c, s, p, specs, k);
      }
      AllSkipped(c, s1, p, specs);
    } else {
      if NewAdverts(c, s1, p, specs) == 0 {
        forall i | 0 <= i < |specs|
          ensures Lookup(s1.tables, Key(p.id, specs[i].contextID)).meta == Some(specs[i].metadata)
        {
          NoNewAdverts(c, s1, p, specs, i);
        }
      }
      var past :| AdvertChain(s.blocks, HeadLink(s.head), past);
      var _ := PublishAllExtends(c, s, p, specs, past);
      NewAdvertsMoveHead(c, s1, p, specs);
    }
  }
}
