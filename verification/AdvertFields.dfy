/**
 What the adverts that publishing puts on the chain hold, field by field: whom
 they are signed by, what they announce and what their entries read back as
 (pkg/publisher, schema.Advertisement of the IPNI specification).
 */
module AdvertFields {
  import opened Ipld
  import opened Mappings
  import opened Publishing
  import opened PublishingLaws
  import opened Refusals
  import opened Sequences
  import opened Wrappers
  import Entries

  /** An advert, up to the link to the one before and the signature, which the
      commit adds. */
  predicate SameAdvert(a: Advertisement, b: Advertisement) {
    && a.provider == b.provider && a.addresses == b.addresses && a.contextID == b.contextID
    && a.entries == b.entries && a.metadata == b.metadata && a.isRm == b.isRm
  }

  predicate AllSigned(advs: seq<Advertisement>, key: PrivKey) {
    forall i :: 0 <= i < |advs| ==> advs[i].signer == Some(key)
  }

  predicate HeadSigned(head: Option<SignedHead>, c: Setup) {
    head.Some? ==> head.value.signer == c.key && head.value.topic == c.topic
  }

  /** Entries that read back as these multihashes. */
  ghost predicate ReadsAs(blocks: Blocks, entries: Link, digests: seq<Multihash>) {
    exists cs :: EntriesChain(blocks, Some(entries), cs) && multiset(Entries.Flatten(cs)) == multiset(digests)
  }

  lemma ReadsAsGrows(m: Blocks, m': Blocks, entries: Link, digests: seq<Multihash>)
    requires Sub(m, m') && ReadsAs(m, entries, digests)
    ensures ReadsAs(m', entries, digests)
  {
    var cs :| EntriesChain(m, Some(entries), cs) && multiset(Entries.Flatten(cs)) == multiset(digests);
    EntriesChainGrows(m, m', Some(entries), cs);
  }

  // ----- adverts that were appended -----

  /** Each linked advert is its draft, signed, and linked to the one before it. */
  lemma LinkedFields(c: Setup, prev: Option<Link>, drafts: seq<Advertisement>, i: nat)
    requires i < |drafts|
    ensures
      var advs := LinkAll(c, prev, drafts);
      && advs[i].signer == Some(c.key) && SameAdvert(advs[i], drafts[i])
      && advs[i].prev == if i == 0 then prev else Some(Sha256(c.hash(Advert(advs[i - 1]))))
  {
    LinkedPrefix(c, prev, drafts, i);
  }

  /** What appending adds to the chain: the drafts, newest first, each signed; and
      a head signed for the publisher's topic. */
  lemma AppendFields(c: Setup, s: State, drafts: seq<Advertisement>, past: seq<Advertisement>)
    returns (added: seq<Advertisement>)
    requires Inv(c.hash, s) && AdvertChain(s.blocks, HeadLink(s.head), past)
    ensures
      var s' := Append(c, s, drafts);
      && Inv(c.hash, s') && AdvertChain(s'.blocks, HeadLink(s'.head), added + past)
      && (if drafts == [] then s' == s else s'.head.Some? && HeadSigned(s'.head, c))
    ensures |added| == |drafts| && AllSigned(added, c.key)
    ensures forall i :: 0 <= i < |drafts| ==> SameAdvert(added[|drafts| - 1 - i], drafts[i])
  {
    AppendChain(c, s, past, drafts);
    added := Appended(c, s, drafts);
    forall j | 0 <= j < |drafts| ensures added[j].signer == Some(c.key) {
      AppendedFields(c, s, drafts, j);
    }
    forall i | 0 <= i < |drafts| ensures SameAdvert(added[|drafts| - 1 - i], drafts[i]) {
      AppendedFields(c, s, drafts, |drafts| - 1 - i);
    }
  }

  lemma AppendedFields(c: Setup, s: State, drafts: seq<Advertisement>, j: nat)
    requires j < |drafts|
    ensures
      var added := Appended(c, s, drafts);
      |added| == |drafts| && added[j].signer == Some(c.key) && SameAdvert(added[j], drafts[|drafts| - 1 - j])
  {
    ReverseAt(LinkAll(c, HeadLink(s.head), drafts), j);
    LinkedFields(c, HeadLink(s.head), drafts, |drafts| - 1 - j);
  }

  // ----- one advert -----

  /** The advert of a request, over the record that its key had: a removal has no
      entries and empty metadata, and an addition of mapped content keeps the
      entries that it is mapped to. */
  predicate AdvertFor(adv: Advertisement, q: Request, prior: Record) {
    && adv.provider == q.provider.id && adv.addresses == q.provider.addrs
    && adv.contextID == q.contextID && adv.isRm == q.isRm
    && if q.isRm then adv.entries == NoEntries && adv.metadata == ""
       else adv.metadata == q.metadata && (prior.chunk.Some? ==> Some(adv.entries) == prior.chunk)
  }

  /** What generating an advert makes, and what it maps the key to. Nothing but
      the entries of an addition of unmapped content is written to the blocks. */
  lemma GeneratedFields(c: Setup, s: State, q: Request)
    requires Inv(c.hash, s) && Generate(c, s, q).Ok?
    ensures
      var (s', draft) := Generate(c, s, q).value;
      var key := Key(q.provider.id, q.contextID);
      && AdvertFor(draft, q, Lookup(s.tables, key)) && s'.head == s.head
      && (q.isRm || Lookup(s.tables, key).chunk.Some? ==> s'.blocks == s.blocks)
      && Lookup(s'.tables, key) == (if q.isRm then Record(None, None)
        else Record(Some(draft.entries), Some(q.metadata)))
      && (!q.isRm && Lookup(s.tables, key).chunk.None? ==> ReadsAs(s'.blocks, draft.entries, q.digests))
      && (!q.isRm && Lookup(s.tables, key).chunk.None? && q.digests == [] ==> draft.entries == NoEntries)
  {
    var (s', draft) := Generate(c, s, q).value;
    UpdateLookup(s.tables, KeyOf(q), Lookup(s'.tables, KeyOf(q)));
    if !q.isRm && Lookup(s.tables, KeyOf(q)).chunk.None? {
      FreshEntries(c, s, q);
    }
  }

  lemma FreshEntries(c: Setup, s: State, q: Request)
    requires Inv(c.hash, s)
    ensures
      var m := PutAll(c.hash, s.blocks, FreshBlocks(c, q));
      var root := FreshLink(c, q);
      && ReadsAs(m, if root.Some? then root.value else NoEntries, q.digests)
      && (q.digests == [] ==> root.None?)
  {
    var m := PutAll(c.hash, s.blocks, FreshBlocks(c, q));
    var root, cs := FreshLink(c, q), Entries.ReadOrder(q.digests, c.chunkSize, c.identityEntries);
    Entries.EntriesRoundTrip(c.hash, s.blocks, q.digests, c.chunkSize, c.identityEntries);
    Entries.ReadBackContents(q.digests, c.chunkSize, c.identityEntries);
    if root.None? {
      assert EntriesChain(m, Some(NoEntries), cs);
    } else {
      assert EntriesChain(m, Some(root.value), cs);
    }
  }

  /** What publishing one request puts on the chain, unless it is refused: one
      advert for it, signed, linked to the old head and under a new one; and
      what it maps the key to. */
  lemma PublishedFields(c: Setup, s: State, q: Request, past: seq<Advertisement>) returns (adv: Advertisement)
    requires Inv(c.hash, s) && AdvertChain(s.blocks, HeadLink(s.head), past) && Generate(c, s, q).Ok?
    ensures
      var s' := PublishOne(c, s, q);
      && Inv(c.hash, s') && AdvertChain(s'.blocks, HeadLink(s'.head), [adv] + past)
      && s'.head.Some? && HeadSigned(s'.head, c)
      && s'.head.value.head in s'.blocks && s'.blocks[s'.head.value.head] == Advert(adv)
    ensures adv.signer == Some(c.key) && adv.prev == HeadLink(s.head)
    ensures AdvertFor(adv, q, Lookup(s.tables, Key(q.provider.id, q.contextID)))
    ensures
      Lookup(PublishOne(c, s, q).tables, Key(q.provider.id, q.contextID)) ==
      if q.isRm then Record(None, None) else Record(Some(adv.entries), Some(q.metadata))
    ensures !q.isRm && Lookup(s.tables, Key(q.provider.id, q.contextID)).chunk.None? ==>
      && ReadsAs(PublishOne(c, s, q).blocks, adv.entries, q.digests)
      && (q.digests == [] ==> adv.entries == NoEntries)
  {
    var (s1, draft) := Generate(c, s, q).value;
    GeneratedFields(c, s, q);
    GeneratedIsSound(c, s, q);
    AdvertChainGrows(s.blocks, s1.blocks, HeadLink(s.head), past);
    var added := AppendFields(c, s1, [draft], past);
    adv := added[0];
    assert added == [adv] && SameAdvert(added[1 - 1 - 0], [draft][0]);
    var s' := PublishOne(c, s, q);
    AppendOne(c, s1, draft);
    assert ([adv] + past)[0] == adv;
    LinkedFields(c, HeadLink(s1.head), [draft], 0);
    AppendedOne(c, s1, draft, past, adv);
    if !q.isRm && Lookup(s.tables, Key(q.provider.id, q.contextID)).chunk.None? {
      ReadsAsGrows(s1.blocks, s'.blocks, draft.entries, q.digests);
    }
  }

  lemma AppendedOne(c: Setup, s: State, draft: Advertisement, past: seq<Advertisement>, adv: Advertisement)
    requires Inv(c.hash, s)
    requires var s' := Append(c, s, [draft]); AdvertChain(s'.blocks, HeadLink(s'.head), [adv] + past)
    ensures adv == LinkAll(c, HeadLink(s.head), [draft])[0] && Sub(s.blocks, Append(c, s, [draft]).blocks)
  {
    var before :| AdvertChain(s.blocks, HeadLink(s.head), before);
    AppendChain(c, s, before, [draft]);
    var s' := Append(c, s, [draft]);
    AdvertChainUnique(s'.blocks, HeadLink(s'.head), [adv] + past, Appended(c, s, [draft]) + before);
    ReverseAt(LinkAll(c, HeadLink(s.head), [draft]), 0);
    assert ([adv] + past)[0] == adv;
    assert (Appended(c, s, [draft]) + before)[0] == Appended(c, s, [draft])[0];
  }

  // ----- batches -----

  /** The specs that need an advert, in order: those whose content is not mapped
      with their metadata when their turn comes. */
  function Needed(c: Setup, s: State, p: AddrInfo, specs: seq<AdvertSpec>): seq<AdvertSpec> {
    if specs == [] then []
    else
      var init, spec := specs[..|specs| - 1], specs[|specs| - 1];
      Needed(c, s, p, init)
      + if Advertised(PublishAll(c, s, p, init).tables, Key(p.id, spec.contextID), spec.metadata) then [] else [spec]
  }

  /** An advert that announces a spec, signed. */
  predicate Tells(adv: Advertisement, p: AddrInfo, spec: AdvertSpec, key: PrivKey) {
    && adv.provider == p.id && adv.addresses == p.addrs
    && adv.contextID == spec.contextID && adv.metadata == spec.metadata && !adv.isRm
    && adv.signer == Some(key)
  }

  /** The adverts tell the specs, the last spec first. */
  ghost predicate TellsAll(advs: seq<Advertisement>, p: AddrInfo, specs: seq<AdvertSpec>, key: PrivKey) {
    && |advs| == |specs|
    && forall i :: 0 <= i < |specs| ==> Tells(advs[|specs| - 1 - i], p, specs[i], key)
  }

  lemma TellsOneMore(adv: Advertisement, advs: seq<Advertisement>, p: AddrInfo, specs: seq<AdvertSpec>,
                     spec: AdvertSpec,
                     key: PrivKey)
    requires TellsAll(advs, p, specs, key) && Tells(adv, p, spec, key)
    ensures TellsAll([adv] + advs, p, specs + [spec], key)
  {
    var n := |specs|;
    forall i | 0 <= i <= n ensures Tells(([adv] + advs)[n - i], p, (specs + [spec])[i], key) {
      if i < n {
        assert ([adv] + advs)[n - i] == advs[n - 1 - i] && (specs + [spec])[i] == specs[i];
      }
    }
  }

  /** What a batch adds to the chain: one signed advert for each spec that needs
      one, in order, with the provider's addresses and the spec's own context ID
      and metadata; and, if any did, a new signed head. */
  lemma {:induction false} BatchFields(c: Setup, s: State, p: AddrInfo, specs: seq<AdvertSpec>,
                                       past: seq<Advertisement>)
    returns (added: seq<Advertisement>)
    requires Inv(c.hash, s) && AdvertChain(s.blocks, HeadLink(s.head), past)
    ensures
      var s' := PublishAll(c, s, p, specs);
      && Inv(c.hash, s') && AdvertChain(s'.blocks, HeadLink(s'.head), added + past)
      && (if added == [] then s' == s else s'.head.Some? && HeadSigned(s'.head, c))
    ensures TellsAll(added, p, Needed(c, s, p, specs), c.key)
  {
    if specs == [] {
      added := [];
      EmptyConcat(past);
    } else {
      var n := |specs| - 1;
      var earlier := BatchFields(c, s, p, specs[..n], past);
      var before, q := PublishAll(c, s, p, specs[..n]), RequestOf(p, specs[n]);
      SpecIsNeeded(c, before, p, specs[n]);
      if Generate(c, before, q).Ok? {
        var adv := PublishedFields(c, before, q, earlier + past);
        added := [adv] + earlier;
        ConcatAssociates([adv], earlier, past);
        TellsOneMore(adv, earlier, p, Needed(c, s, p, specs[..n]), specs[n], c.key);
      } else {
        added := earlier;
      }
    }
  }

  lemma SpecIsNeeded(c: Setup, s: State, p: AddrInfo, spec: AdvertSpec)
    ensures Generate(c, s, RequestOf(p, spec)).Err? <==> Advertised(s.tables, Key(p.id, spec.contextID), spec.metadata)
    ensures
      var q := RequestOf(p, spec);
      && q.provider == p && q.contextID == spec.contextID && q.metadata == spec.metadata && !q.isRm
      && q.digests == spec.digests
  {
    RefusedIff(c, s, RequestOf(p, spec));
  }
}
