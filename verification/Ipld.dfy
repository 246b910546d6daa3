/**
 Content-addressed blocks: adverts and entry chunks, their links, and the two
 chains they form. A link is a digest of its block's content. The digest
 function is a parameter of the model, of which only injectivity is assumed
 (`Injective`), so a cyclic chain is not ruled out by construction.
 */
module Ipld {
  import opened Errors
  import opened Wrappers

  type Peer = string
  type Multihash = string
  type Metadata = string
  type PrivKey = nat

  datatype Link =
    | Sha256(digest: nat)      // a hashed CID
    | Identity(data: Block)    // a CID that carries its block
    | NoEntries                // schema.NoEntries

  // An unsigned advert has no signer; signing is deterministic, so a signed
  // advert is determined by its content and its key.
  datatype Advertisement = Advertisement(
    prev: Option<Link>,
    provider: Peer,
    addresses: seq<string>,
    entries: Link,
    contextID: ContextID,
    metadata: Metadata,
    isRm: bool,
    signer: Option<PrivKey>)

  datatype Block =
    | Chunk(entries: seq<Multihash>, next: Option<Link>)
    | Advert(adv: Advertisement)

  datatype SignedHead = SignedHead(head: Link, topic: string, signer: PrivKey)

  type Hash = Block -> nat
  type Blocks = map<Link, Block>

  ghost predicate Injective(h: Hash) {
    forall a, b :: h(a) == h(b) ==> a == b
  }

  function Cid(h: Hash, b: Block): Link {
    Sha256(h(b))
  }

  /** The blocks a store holds after the blocks of bs were written in order. */
  function PutAll(h: Hash, blocks: Blocks, bs: seq<Block>): Blocks {
    if bs == [] then blocks
    else
      var b := bs[|bs| - 1];
      PutAll(h, blocks, bs[..|bs| - 1])[Cid(h, b) := b]
  }

  /** Every block is stored under its own link. */
  ghost predicate Addressed(h: Hash, blocks: Blocks) {
    forall l :: l in blocks ==> l == Cid(h, blocks[l])
  }

  ghost predicate Sub(m: Blocks, m': Blocks) {
    forall l :: l in m ==> l in m' && m'[l] == m[l]
  }

  /** Writing blocks twice over commutes: under an injective hash the order of
      content-addressed writes cannot be observed. */
  lemma {:induction false} PutAllCommutes(h: Hash, m: Blocks, xs: seq<Block>, ys: seq<Block>)
    requires Injective(h)
    ensures PutAll(h, PutAll(h, m, xs), ys) == PutAll(h, PutAll(h, m, ys), xs)
    decreases |xs| + |ys|
  {
    if xs == [] || ys == [] {
    } else {
      var xs', x := xs[..|xs| - 1], xs[|xs| - 1];
      var ys', y := ys[..|ys| - 1], ys[|ys| - 1];
      PutAllCommutes(h, m, xs, ys');
      PutAllCommutes(h, m, xs', ys);
      PutAllCommutes(h, m, xs', ys');
      assert PutAll(h, PutAll(h, m, xs), ys') == PutAll(h, PutAll(h, m, ys'), xs')[Cid(h, x) := x];
    }
  }

  lemma {:induction false} PutAllConcat(h: Hash, m: Blocks, xs: seq<Block>, ys: seq<Block>)
    ensures PutAll(h, m, xs + ys) == PutAll(h, PutAll(h, m, xs), ys)
    decreases |ys|
  {
    if ys == [] {
      assert xs + ys == xs;
    } else {
      var n := |ys| - 1;
      PutAllConcat(h, m, xs, ys[..n]);
      assert (xs + ys)[..|xs + ys| - 1] == xs + ys[..n];
    }
  }

  lemma PutAllOne(h: Hash, m: Blocks, b: Block)
    ensures PutAll(h, m, [b]) == m[Cid(h, b) := b]
  {
    assert [b][..0] == [];
  }

  /** Content addressing: a write keeps every block the store held. */
  lemma {:induction false} PutAllGrows(h: Hash, m: Blocks, bs: seq<Block>)
    requires Injective(h) && Addressed(h, m)
    ensures Addressed(h, PutAll(h, m, bs)) && Sub(m, PutAll(h, m, bs))
    ensures forall i :: 0 <= i < |bs| ==>
      Cid(h, bs[i]) in PutAll(h, m, bs) && PutAll(h, m, bs)[Cid(h, bs[i])] == bs[i]
  {
    if bs == [] {
    } else {
      PutAllGrows(h, m, bs[..|bs| - 1]);
    }
  }

  // ----- the advertisement chain -----

  /** Walking PreviousID from l meets exactly advs, newest first, every one of
      them stored, and ends at the first advert. */
  ghost predicate AdvertChain(blocks: Blocks, l: Option<Link>, advs: seq<Advertisement>)
    decreases |advs|
  {
    if l.None? then advs == []
    else
      && advs != []
      && l.value in blocks
      && blocks[l.value] == Advert(advs[0])
      && AdvertChain(blocks, advs[0].prev, advs[1..])
  }

  // ----- the EntryChunk chain -----

  /** The block a link stands for: its own data, or what the store holds. */
  function Fetch(blocks: Blocks, l: Link): Option<Block> {
    match l
    case Identity(data) => Some(data)
    case _ => if l in blocks then Some(blocks[l]) else None
  }

  function EndsEntries(l: Option<Link>): bool {
    l.None? || l.value.NoEntries?
  }

  /** Walking Next from root meets exactly the given chunks of multihashes. */
  ghost predicate EntriesChain(blocks: Blocks, root: Option<Link>, chunks: seq<seq<Multihash>>)
    decreases |chunks|
  {
    if EndsEntries(root) then chunks == []
    else
      var b := Fetch(blocks, root.value);
      && chunks != []
      && b.Some? && b.value.Chunk?
      && b.value.entries == chunks[0]
      && EntriesChain(blocks, b.value.next, chunks[1..])
  }

  /** The walk is a function of the store and the link it starts from. */
  lemma {:induction false} AdvertChainUnique(blocks: Blocks, l: Option<Link>, a: seq<Advertisement>,
                                             b: seq<Advertisement>)
    requires AdvertChain(blocks, l, a) && AdvertChain(blocks, l, b)
    ensures a == b
    decreases |a|
  {
    if l.Some? {
      AdvertChainUnique(blocks, a[0].prev, a[1..], b[1..]);
      assert a == [a[0]] + a[1..] && b == [b[0]] + b[1..];
    }
  }

  lemma {:induction false} EntriesChainUnique(blocks: Blocks, l: Option<Link>, a: seq<seq<Multihash>>,
                                              b: seq<seq<Multihash>>)
    requires EntriesChain(blocks, l, a) && EntriesChain(blocks, l, b)
    ensures a == b
    decreases |a|
  {
    if !EndsEntries(l) {
      EntriesChainUnique(blocks, Fetch(blocks, l.value).value.next, a[1..], b[1..]);
      assert a == [a[0]] + a[1..] && b == [b[0]] + b[1..];
    }
  }

  /** A chain that is stored stays stored, whatever else is written. */
  lemma {:induction false} AdvertChainGrows(m: Blocks, m': Blocks, l: Option<Link>, advs: seq<Advertisement>)
    requires Sub(m, m') && AdvertChain(m, l, advs)
    ensures AdvertChain(m', l, advs)
    decreases |advs|
  {
    if l.Some? {
      AdvertChainGrows(m, m', advs[0].prev, advs[1..]);
    }
  }

  lemma {:induction false} EntriesChainGrows(m: Blocks, m': Blocks, l: Option<Link>, chunks: seq<seq<Multihash>>)
    requires Sub(m, m') && EntriesChain(m, l, chunks)
    ensures EntriesChain(m', l, chunks)
    decreases |chunks|
  {
    if !EndsEntries(l) {
      EntriesChainGrows(m, m', Fetch(m, l.value).value.next, chunks[1..]);
    }
  }

  /** Entries that can be read back from the store. */
  ghost predicate Readable(blocks: Blocks, entries: Link) {
    exists cs :: EntriesChain(blocks, Some(entries), cs)
  }

  lemma ReadableGrows(m: Blocks, m': Blocks, entries: Link)
    requires Sub(m, m') && Readable(m, entries)
    ensures Readable(m', entries)
  {
    var cs: seq<seq<Multihash>> :| EntriesChain(m, Some(entries), cs);
    EntriesChainGrows(m, m', Some(entries), cs);
  }

  /** The link that the i-th step of a walk stands on. */
  function LinkAt(l: Option<Link>, advs: seq<Advertisement>, i: nat): Option<Link>
    requires i <= |advs|
  {
    if i == 0 then l else advs[i - 1].prev
  }

  lemma {:induction false} ChainTail(blocks: Blocks, l: Option<Link>, advs: seq<Advertisement>, i: nat)
    requires AdvertChain(blocks, l, advs) && i <= |advs|
    ensures AdvertChain(blocks, LinkAt(l, advs, i), advs[i..])
    decreases i
  {
    if i > 0 {
      assert l.Some?;
      ChainTail(blocks, advs[0].prev, advs[1..], i - 1);
      assert advs[1..][i - 1..] == advs[i..];
    }
  }

  /** No walk meets a link twice: a stored chain has no cycle, although
      nothing about the hash function itself rules one out. */
  lemma ChainAcyclic(blocks: Blocks, l: Option<Link>, advs: seq<Advertisement>, i: nat, j: nat)
    requires AdvertChain(blocks, l, advs) && i < j <= |advs|
    ensures LinkAt(l, advs, i) != LinkAt(l, advs, j)
  {
    ChainTail(blocks, l, advs, i);
    ChainTail(blocks, l, advs, j);
    if LinkAt(l, advs, i) == LinkAt(l, advs, j) {
      AdvertChainUnique(blocks, LinkAt(l, advs, i), advs[i..], advs[j..]);
    }
  }

  // ----- what a store keeps -----

  /** The block that b builds on is stored with everything behind it. */
  ghost predicate NextStored(blocks: Blocks, b: Block) {
    match b
    case Chunk(_, next) => exists cs :: EntriesChain(blocks, next, cs)
    case Advert(adv) => exists advs :: AdvertChain(blocks, adv.prev, advs)
  }

  /** Every stored block has its whole chain in the store. */
  ghost predicate Grounded(blocks: Blocks) {
    forall l {:trigger NextStored(blocks, blocks[l])} :: l in blocks ==> NextStored(blocks, blocks[l])
  }

  /** Walking Next from root stops, at the end or at an error, within n blocks. */
  ghost predicate WalkEnds(blocks: Blocks, root: Option<Link>, n: nat)
    decreases n
  {
    if EndsEntries(root) then true
    else
      var b := Fetch(blocks, root.value);
      b.Some? && b.value.Chunk? ==> n > 0 && WalkEnds(blocks, b.value.next, n - 1)
  }

  lemma {:induction false} ChainWalkEnds(blocks: Blocks, root: Option<Link>, chunks: seq<seq<Multihash>>)
    requires EntriesChain(blocks, root, chunks)
    ensures WalkEnds(blocks, root, |chunks|)
    decreases |chunks|
  {
    if !EndsEntries(root) {
      ChainWalkEnds(blocks, Fetch(blocks, root.value).value.next, chunks[1..]);
    }
  }

  /** In a grounded store every walk stops, from any link at all: one that is
      missing, one that is no chunk, and one that carries blocks inside
      itself included. */
  lemma {:induction false} EveryWalkEnds(blocks: Blocks, root: Option<Link>) returns (n: nat)
    requires Grounded(blocks)
    ensures WalkEnds(blocks, root, n)
    decreases root
  {
    n := 0;
    if !EndsEntries(root) {
      var b := Fetch(blocks, root.value);
      if b.Some? && b.value.Chunk? {
        if root.value.Identity? {
          n := EveryWalkEnds(blocks, root.value.data.next);
          n := n + 1;
        } else {
          assert NextStored(blocks, b.value);
          var cs :| EntriesChain(blocks, b.value.next, cs);
          ChainWalkEnds(blocks, b.value.next, cs);
          n := |cs| + 1;
        }
      }
    }
  }

  lemma NextStoredGrows(m: Blocks, m': Blocks, b: Block)
    requires Sub(m, m') && NextStored(m, b)
    ensures NextStored(m', b)
  {
    match b
    case Chunk(_, next) =>
      var cs :| EntriesChain(m, next, cs);
      EntriesChainGrows(m, m', next, cs);
    case Advert(adv) =>
      var advs :| AdvertChain(m, adv.prev, advs);
      AdvertChainGrows(m, m', adv.prev, advs);
  }

  lemma PutGrounded(h: Hash, m: Blocks, b: Block)
    requires Injective(h) && Addressed(h, m) && Grounded(m) && NextStored(m, b)
    ensures var m' := m[Cid(h, b) := b]; Addressed(h, m') && Grounded(m') && Sub(m, m')
  {
    var m' := m[Cid(h, b) := b];
    forall l | l in m' ensures NextStored(m', m'[l]) {
      NextStoredGrows(m, m', m'[l]);
    }
  }
}
