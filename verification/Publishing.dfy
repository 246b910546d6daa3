/**
 What publishing means when no call fails: the state one advert leaves, and a
 sequence of them. The imperative publishers are proved against these
 functions; the lemmas here say what the functions themselves keep.
 */
module Publishing {
  import opened Errors
  import opened Ipld
  import opened Mappings
  import opened Wrappers
  import Entries

  datatype State = State(blocks: Blocks, head: Option<SignedHead>, tables: Tables)

  // What a publisher is configured with.
  datatype Setup = Setup(hash: Hash, key: PrivKey, topic: string, chunkSize: nat, identityEntries: nat)

  datatype AddrInfo = AddrInfo(id: Peer, addrs: seq<string>)

  datatype AdvertSpec = AdvertSpec(contextID: ContextID, digests: seq<Multihash>, metadata: Metadata)

  // One advert to generate: an addition, or a removal of what is mapped.
  datatype Request = Request(provider: AddrInfo, contextID: ContextID, metadata: Metadata, isRm: bool,
                             digests: seq<Multihash>)

  function RequestOf(p: AddrInfo, spec: AdvertSpec): Request {
    Request(p, spec.contextID, spec.metadata, false, spec.digests)
  }

  function KeyOf(q: Request): Key {
    Key(q.provider.id, q.contextID)
  }

  // metadata.Default.New(), the metadata of a removal.
  const EMPTY_METADATA: Metadata := ""

  function HeadLink(head: Option<SignedHead>): Option<Link> {
    if head.Some? then Some(head.value.head) else None
  }

  // ----- linking and signing adverts -----

  function Sign(key: PrivKey, prev: Option<Link>, draft: Advertisement): Advertisement {
    draft.(prev := prev, signer := Some(key))
  }

  function AdvertLink(h: Hash, adv: Advertisement): Link {
    Cid(h, Advert(adv))
  }

  function TopAdvert(h: Hash, prev: Option<Link>, advs: seq<Advertisement>): Option<Link> {
    if advs == [] then prev else Some(AdvertLink(h, advs[|advs| - 1]))
  }

  /** Drafts in publishing order, each signed over a link to the one before and
      the first over prev. */
  function LinkAll(c: Setup, prev: Option<Link>, drafts: seq<Advertisement>): (advs: seq<Advertisement>)
    ensures |advs| == |drafts|
  {
    if drafts == [] then []
    else
      var before := LinkAll(c, prev, drafts[..|drafts| - 1]);
      before + [Sign(c.key, TopAdvert(c.hash, prev, before), drafts[|drafts| - 1])]
  }

  function AdvertBlocks(advs: seq<Advertisement>): (bs: seq<Block>)
    ensures |bs| == |advs|
    ensures forall i :: 0 <= i < |bs| ==> bs[i] == Advert(advs[i])
  {
    seq(|advs|, i requires 0 <= i < |advs| => Advert(advs[i]))
  }

  /** The state once the drafts are on the chain under one new head. */
  function Append(c: Setup, s: State, drafts: seq<Advertisement>): State {
    if drafts == [] then s
    else
      var advs := LinkAll(c, HeadLink(s.head), drafts);
      s.(blocks := PutAll(c.hash, s.blocks, AdvertBlocks(advs)),
         head := Some(SignedHead(AdvertLink(c.hash, advs[|advs| - 1]), c.topic, c.key)))
  }

  // ----- generating adverts -----

  /** The record a context ID holds once md is advertised under it, or None
      when its content is mapped and carries md already. root is the link
      that writing the content's entries would return. */
  function NextRecord(prior: Record, md: Metadata, root: Option<Link>): (r: Option<Record>)
    ensures r.Some? ==> r.value.chunk.Some? && r.value.meta == Some(md)
  {
    if prior.chunk.Some? then
      if prior.meta == Some(md) then None
      else Some(Record(prior.chunk, Some(md)))
    else
      Some(Record(Some(if root.Some? then root.value else NoEntries), Some(md)))
  }

  function Draft(q: Request, entries: Link, md: Metadata): Advertisement {
    Advertisement(None, q.provider.id, q.provider.addrs, entries, q.contextID, md, q.isRm, None)
  }

  function FreshLink(c: Setup, q: Request): Option<Link> {
    Entries.EntriesLink(c.hash, q.digests, c.chunkSize, c.identityEntries)
  }

  function FreshBlocks(c: Setup, q: Request): seq<Block> {
    Entries.WrittenBlocks(c.hash, q.digests, c.chunkSize, c.identityEntries)
  }

  /** The state and the draft that generating an advert leaves, or the reason
      there is none. */
  function Generate(c: Setup, s: State, q: Request): Result<(State, Advertisement)> {
    var prior := Lookup(s.tables, KeyOf(q));
    if q.isRm then
      if prior.chunk.None? then Err(ContextIDNotFound)
      else Ok((s.(tables := Update(s.tables, KeyOf(q), UNMAPPED)), Draft(q, NoEntries, EMPTY_METADATA)))
    else
      match NextRecord(prior, q.metadata, FreshLink(c, q))
      case None => Err(AlreadyAdvertised)
      case Some(next) =>
        var written := if prior.chunk.Some? then [] else FreshBlocks(c, q);
        Ok((s.(blocks := PutAll(c.hash, s.blocks, written), tables := Update(s.tables, KeyOf(q), next)),
            Draft(q, next.chunk.value, q.metadata)))
  }

  /** Generating an advert and publishing it under a new head; a spec that
      needs no advert changes nothing. */
  function PublishOne(c: Setup, s: State, q: Request): State {
    match Generate(c, s, q)
    case Err(_) => s
    case Ok((s', draft)) => Append(c, s', [draft])
  }

  function PublishSpec(c: Setup, s: State, p: AddrInfo, spec: AdvertSpec): State {
    PublishOne(c, s, RequestOf(p, spec))
  }

  /** Publishing the specs one after the other, skipping those already
      advertised. */
  function PublishAll(c: Setup, s: State, p: AddrInfo, specs: seq<AdvertSpec>): State {
    if specs == [] then s
    else PublishSpec(c, PublishAll(c, s, p, specs[..|specs| - 1]), p, specs[|specs| - 1])
  }
}
