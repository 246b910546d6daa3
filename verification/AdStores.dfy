/**
 A publisher store that can fail at every call (pkg/store/store.go). A failing
 mapping write may or may not have taken effect on its own row; a failing block
 write may or may not have stored its block; a failing head write may or may
 not have moved the head, unless it reports that its precondition failed.
 */
module AdStores {
  import opened Errors
  import opened Faults
  import opened Ipld
  import opened Mappings
  import opened Publishing
  import opened PublishingLaws
  import opened Sequences
  import opened Wrappers
  import Entries

  /** What a call that writes the head does to it: the compare-and-swap. A call
      that meets a fault may have moved the head all the same, if it was the
      expected one. */
  ghost predicate HeadWrite(head: Option<SignedHead>, expected: Option<SignedHead>, next: SignedHead,
                            err: Option<Error>, fault: bool, head': Option<SignedHead>)
  {
    if fault then
      && err.Some? && !Is(err.value, PreconditionFailed)
      && (head' == head || (head == expected && head' == Some(next)))
    else if head == expected then err.None? && head' == Some(next)
    else err == Some(PreconditionFailed) && head' == head
  }

  class AdStore {
    const hash: Hash
    const chunkSize: nat
    const identityEntries: nat
    const strictDeletes: bool   // deleting a missing row reports NotFound
    const atomicHead: bool      // a head write that fails leaves the head
    var blocks: Blocks
    var head: Option<SignedHead>
    var chunkLinks: map<Key, Link>
    var metas: map<Key, Metadata>
    ghost var faults: Log

    ghost function Tables(): Tables
      reads this`chunkLinks, this`metas
    {
      Mappings.Tables(chunkLinks, metas)
    }

    ghost function S(): State
      reads this`blocks, this`head, this`chunkLinks, this`metas
    {
      State(blocks, head, Tables())
    }

    ghost predicate Valid()
      reads this`blocks, this`head
    {
      Sound(hash, blocks, head)
    }

    constructor (hash: Hash, chunkSize: nat, identityEntries: nat, strictDeletes: bool, atomicHead: bool)
      requires Injective(hash)
      ensures Valid()
      ensures this.hash == hash && this.chunkSize == chunkSize && this.identityEntries == identityEntries
      ensures this.strictDeletes == strictDeletes && this.atomicHead == atomicHead
      ensures S() == State(map[], None, Mappings.Tables(map[], map[])) && faults == []
    {
      faults := [];
      this.hash, this.chunkSize, this.identityEntries := hash, chunkSize, identityEntries;
      this.strictDeletes, this.atomicHead := strictDeletes, atomicHead;
      blocks, head, chunkLinks, metas := map[], None, map[], map[];
      new;
      assert AdvertChain(blocks, HeadLink(head), []);
    }

    /** Whether something fails now off the store, signing, validating or
        encoding what is to be stored: no caller can tell, or make it. */
    method MayFail() returns (fault: Option<Error>)
      modifies this`faults
      ensures fault.Some? ==> Foreign(fault.value)
      ensures Met(old(faults), faults, fault, OffStore)
    {
      fault, faults := Faults.MayFail(faults, OffStore);
    }

    // ----- blocks -----

    /** store: writes a block under its link. */
    method PutBlock(b: Block, ghost site: Site) returns (r: Result<Link>)
      requires Valid()
      modifies this`blocks, this`faults
      ensures Addressed(hash, blocks) && Sub(old(blocks), blocks)
      ensures NextStored(old(blocks), b) ==> Valid()
      ensures blocks == old(blocks) || blocks == PutAll(hash, old(blocks), [b])
      ensures r.Ok? ==> r.value == Cid(hash, b) && blocks == PutAll(hash, old(blocks), [b])
      ensures r.Err? ==> Foreign(r.error)
      ensures Met(old(faults), faults, ErrorIn(r), site)
    {
      PutAllGrows(hash, blocks, [b]);
      if NextStored(blocks, b) {
        PutGrounded(hash, blocks, b);
      }
      ghost var chain :| AdvertChain(blocks, HeadLink(head), chain);
      AdvertChainGrows(blocks, blocks[Cid(hash, b) := b], HeadLink(head), chain);
      assert [b][..0] == [];
      var applied: bool := *;
      var fault;
      fault, faults := Faults.MayFail(faults, site);
      if fault.None? || applied {
        blocks := blocks[Cid(hash, b) := b];
      }
      if fault.Some? {
        return Err(fault.value);
      }
      return Ok(Cid(hash, b));
    }

    /** getBlock: the block a link stands for, from the link itself when it
        carries its data. */
    method GetBlock(l: Link) returns (r: Result<Block>)
      modifies this`faults
      ensures r.Ok? ==> Fetch(blocks, l) == Some(r.value)
      ensures r == Err(NotFound) ==> Fetch(blocks, l).None?
      ensures l.Identity? ==> r == Ok(l.data)
      ensures r.Err? ==> r.error == NotFound || Foreign(r.error)
      ensures Met(old(faults), faults, Unexpected(ErrorIn(r)), AtEntries)
    {
      if l.Identity? {
        return Ok(l.data);
      }
      var fault;
      fault, faults := Faults.MayFail(faults, AtEntries);
      if fault.Some? {
        return Err(fault.value);
      }
      r := if l in blocks then Ok(blocks[l]) else Err(NotFound);
    }

    /** putEntries: writes multihashes as linked chunks through one buffer of
        chunkSize entries that is flushed late and used again. */
    method PutEntries(entries: seq<Multihash>) returns (r: Result<Option<Link>>)
      requires Valid()
      modifies this`blocks, this`faults
      ensures Valid() && Sub(old(blocks), blocks)
      ensures r.Ok? ==>
        && r.value == Entries.EntriesLink(hash, entries, chunkSize, identityEntries)
        && blocks == PutAll(hash, old(blocks), Entries.WrittenBlocks(hash, entries, chunkSize, identityEntries))
      ensures r.Err? ==> Foreign(r.error)
      ensures Met(old(faults), faults, ErrorIn(r), AtEntries)
    {
      var mhs := new Multihash[if chunkSize == 0 then 1 else chunkSize];
      ghost var m0 := blocks;
      var filled, flushed := FlushFullChunks(entries, mhs);
      if filled.Err? {
        return Err(filled.error);
      }
      var (len, next, chunkCount) := filled.value;
      Entries.BufferedEnd(hash, entries, chunkSize, identityEntries, flushed, mhs[..len]);
      if chunkCount == 0 && len > 0 && len <= identityEntries {
        var unencoded;
        unencoded, faults := Faults.MayFail(faults, AtEntries);
        if unencoded.Some? {
          return Err(unencoded.value);
        }
        return Ok(Some(Identity(Chunk(mhs[..len], None))));
      }
      if len != 0 {
        var stored := Flush(mhs[..len], next, flushed, m0);
        if stored.Err? {
          return Err(stored.error);
        }
        next := Some(stored.value);
      }
      return Ok(next);
    }

    /** The loop of putEntries: takes the multihashes into the buffer mhs and
        writes it out, and empties it, whenever it is full and another follows.
        Returns how much is left in the buffer, the last link written, and how
        many chunks were. */
    method FlushFullChunks(entries: seq<Multihash>, mhs: array<Multihash>)
      returns (r: Result<(nat, Option<Link>, nat)>, ghost flushed: seq<seq<Multihash>>)
      requires Valid() && mhs.Length >= chunkSize && mhs.Length > 0
      modifies this`blocks, mhs, this`faults
      ensures Valid() && Sub(old(blocks), blocks)
      ensures r.Ok? ==>
        && r.value.0 <= mhs.Length
        && Entries.Buffered(entries, chunkSize, flushed, mhs[..r.value.0])
        && Written(old(blocks), flushed, r.value.1)
        && |flushed| == r.value.2
      ensures r.Err? ==> Foreign(r.error)
      ensures Met(old(faults), faults, ErrorIn(r), AtEntries)
    {
      var len: nat, chunkCount: nat := 0, 0;
      var next: Option<Link> := None;
      flushed := [];
      ghost var m0 := blocks;
      for i := 0 to |entries|
        invariant len <= mhs.Length && Entries.Buffered(entries[..i], chunkSize, flushed, mhs[..len])
        invariant |flushed| == chunkCount
        invariant Written(m0, flushed, next) && faults == old(faults)
      {
        Entries.BufferedStep(entries, i, chunkSize, flushed, mhs[..len]);
        var taken;
        taken, flushed := TakeNext(entries[i], mhs, len, next, chunkCount, flushed, m0);
        if taken.Err? {
          return Err(taken.error), flushed;
        }
        len, next, chunkCount := taken.value.0, taken.value.1, taken.value.2;
      }
      TakeAll(entries);
      return Ok((len, next, chunkCount)), flushed;
    }

    /** One turn of the loop: writes the buffer out if it is full, and puts the
        next multihash behind what is in it. */
    method TakeNext(mh: Multihash, mhs: array<Multihash>, len: nat, next: Option<Link>, chunkCount: nat,
                    ghost flushed: seq<seq<Multihash>>, ghost m0: Blocks)
      returns (r: Result<(nat, Option<Link>, nat)>, ghost flushed': seq<seq<Multihash>>)
      requires Written(m0, flushed, next) && |flushed| == chunkCount
      requires len <= mhs.Length && mhs.Length >= chunkSize && mhs.Length > 0
      modifies this`blocks, mhs, this`faults
      ensures Valid() && Sub(m0, blocks)
      ensures r.Ok? ==>
        && r.value.0 <= mhs.Length && Written(m0, flushed', r.value.1) && |flushed'| == r.value.2
        && if len >= chunkSize then flushed' == flushed + [old(mhs[..len])] && mhs[..r.value.0] == [mh]
           else flushed' == flushed && mhs[..r.value.0] == old(mhs[..len]) + [mh]
      ensures r.Err? ==> Foreign(r.error)
      ensures Met(old(faults), faults, ErrorIn(r), AtEntries)
    {
      if len < chunkSize {
        AppendTo(mhs, len, mh);
        return Ok((len + 1, next, chunkCount)), flushed;
      }
      flushed' := flushed + [mhs[..len]];
      var stored := Flush(mhs[..len], next, flushed, m0);
      if stored.Err? {
        return Err(stored.error), flushed';
      }
      AppendTo(mhs, 0, mh);
      return Ok((1, Some(stored.value), chunkCount + 1)), flushed';
    }

    static method AppendTo(mhs: array<Multihash>, len: nat, mh: Multihash)
      requires len < mhs.Length
      modifies mhs
      ensures mhs[..len + 1] == old(mhs[..len]) + [mh]
    {
      mhs[len] := mh;
    }

    /** The chunks flushed since m0 are all that was written, and next is the
        last of them. */
    ghost predicate Written(m0: Blocks, flushed: seq<seq<Multihash>>, next: Option<Link>)
      reads this`blocks, this`head
    {
      var bs := Entries.ChunkBlocks(hash, flushed);
      && Valid() && Sub(m0, blocks) && Addressed(hash, m0) && Grounded(m0)
      && next == Entries.TopLink(hash, bs)
      && blocks == PutAll(hash, m0, bs)
    }

    /** Writes one chunk behind those already flushed since m0. */
    method Flush(mhs: seq<Multihash>, next: Option<Link>, ghost flushed: seq<seq<Multihash>>, ghost m0: Blocks)
      returns (r: Result<Link>)
      requires Written(m0, flushed, next)
      modifies this`blocks, this`faults
      ensures Valid() && Sub(m0, blocks)
      ensures r.Ok? ==> Written(m0, flushed + [mhs], Some(r.value))
      ensures r.Err? ==> Foreign(r.error)
      ensures Met(old(faults), faults, ErrorIn(r), AtEntries)
    {
      Entries.ChunksOneMore(hash, m0, flushed, mhs);
      r := PutBlock(Chunk(mhs, next), AtEntries);
    }

    /** Entries: every multihash reachable from root, or those met before the
        first chunk that could not be read: on a fault, or because it is missing
        or no chunk. Terminates from any link. */
    method ReadEntries(root: Option<Link>) returns (out: seq<Multihash>, err: Option<Error>)
      requires Valid()
      modifies this`faults
      ensures err.None? ==> exists cs :: EntriesChain(blocks, root, cs)
      ensures forall cs :: EntriesChain(blocks, root, cs) ==>
        && out <= Entries.Flatten(cs)
        && (err.None? ==> out == Entries.Flatten(cs))
        && Met(old(faults), faults, err, AtEntries)
      ensures Entries.ReadOf(blocks, root, out, err.None?, err.Some? && faults == old(faults))
    {
      var cur := root;
      ghost var done: seq<seq<Multihash>> := [];
      ghost var steps := EveryWalkEnds(blocks, root);
      out := [];
      Entries.ReachedStart(blocks, root);
      while !EndsEntries(cur)
        invariant WalkEnds(blocks, cur, steps) && faults == old(faults)
        invariant out == Entries.Flatten(done)
        invariant Entries.Reached(blocks, root, done, cur) && Entries.Walk(blocks, root, done, cur)
        decreases steps
      {
        var v := GetBlock(cur.value);
        if v.Err? || !v.value.Chunk? {
          Entries.ReachedStuck(blocks, root, done, cur);
          err := Some(if v.Err? then v.error else Other(0));
          return;
        }
        Entries.ReachedStep(blocks, root, done, cur, v.value);
        Entries.WalkOn(blocks, root, done, cur, v.value);
        Entries.FlattenAppend(done, v.value.entries);
        out := out + v.value.entries;
        done := done + [v.value.entries];
        cur := v.value.next;
        steps := steps - 1;
      }
      Entries.ReachedEnd(blocks, root, done, cur);
      return out, None;
    }

    /** Entries that were put read back as the same multiset, and as the same
        sequence when they fit one chunk, unless something fails. */
    method PutThenRead(entries: seq<Multihash>) returns (out: seq<Multihash>, err: Option<Error>)
      requires Valid()
      modifies this`blocks, this`faults
      ensures Valid() && Sub(old(blocks), blocks)
      ensures Met(old(faults), faults, err, AtEntries)
      ensures err.None? ==>
        && out == Entries.Flatten(Entries.ReadOrder(entries, chunkSize, identityEntries))
        && multiset(out) == multiset(entries)
        && (|entries| <= chunkSize ==> out == entries)
    {
      Entries.EntriesRoundTrip(hash, blocks, entries, chunkSize, identityEntries);
      Entries.ReadBackContents(entries, chunkSize, identityEntries);
      var root := PutEntries(entries);
      if root.Err? {
        return [], Some(root.error);
      }
      out, err := ReadEntries(root.value);
    }

    /** Encode: the bytes served for a link, which stand for its block. Serving
        an inlined link fails only if writing the bytes out does. */
    method Encode(l: Link) returns (r: Result<Block>)
      modifies this`faults
      ensures r.Ok? ==> Fetch(blocks, l) == Some(r.value)
      ensures r == Err(NotFound) ==> Fetch(blocks, l).None?
      ensures Logged(old(faults), faults, Unexpected(ErrorIn(r)))
    {
      r := GetBlock(l);
      if r.Ok? {
        var unwritten := MayFail();
        if unwritten.Some? {
          return Err(unwritten.value);
        }
      }
    }

    // ----- the mapping tables -----

    method GetChunkLink(k: Key) returns (r: Result<Link>)
      modifies this`faults
      ensures r.Ok? ==> Lookup(Tables(), k).chunk == Some(r.value)
      ensures r.Err? ==> Foreign(r.error) || (r.error == NotFound && Lookup(Tables(), k).chunk.None?)
      ensures Met(old(faults), faults, Unexpected(ErrorIn(r)), AtMappings)
    {
      var fault;
      fault, faults := Faults.MayFail(faults, AtMappings);
      if fault.Some? {
        return Err(fault.value);
      }
      r := if k in chunkLinks then Ok(chunkLinks[k]) else Err(NotFound);
    }

    method GetMetadata(k: Key) returns (r: Result<Metadata>)
      modifies this`faults
      ensures r.Ok? ==> Lookup(Tables(), k).meta == Some(r.value)
      ensures r.Err? ==> Foreign(r.error) || (r.error == NotFound && Lookup(Tables(), k).meta.None?)
      ensures Met(old(faults), faults, Unexpected(ErrorIn(r)), AtMappings)
    {
      var fault;
      fault, faults := Faults.MayFail(faults, AtMappings);
      if fault.Some? {
        return Err(fault.value);
      }
      r := if k in metas then Ok(metas[k]) else Err(NotFound);
    }

    method PutChunkLink(k: Key, l: Link) returns (err: Option<Error>)
      modifies this`chunkLinks, this`faults
      ensures RowWritten(old(chunkLinks), chunkLinks, k, Some(l), err)
      ensures err.Some? ==> Foreign(err.value)
      ensures Met(old(faults), faults, err, AtMappings)
    {
      var applied: bool := *;
      var fault;
      fault, faults := Faults.MayFail(faults, AtMappings);
      if fault.None? || applied {
        chunkLinks := chunkLinks[k := l];
      }
      return fault;
    }

    method PutMetadata(k: Key, md: Metadata) returns (err: Option<Error>)
      modifies this`metas, this`faults
      ensures RowWritten(old(metas), metas, k, Some(md), err)
      ensures err.Some? ==> Foreign(err.value)
      ensures Met(old(faults), faults, err, AtMappings)
    {
      var applied: bool := *;
      var fault;
      fault, faults := Faults.MayFail(faults, AtMappings);
      if fault.None? || applied {
        metas := metas[k := md];
      }
      return fault;
    }

    method DeleteChunkLink(k: Key) returns (err: Option<Error>)
      modifies this`chunkLinks, this`faults
      ensures RowWritten(old(chunkLinks), chunkLinks, k, None, err)
      ensures err.Some? ==> Foreign(err.value) || err.value == NotFound
      ensures !(err.Some? && Foreign(err.value)) ==>
        err == if strictDeletes && k !in old(chunkLinks) then Some(NotFound) else None
      ensures Met(old(faults), faults, Unexpected(err), AtMappings)
    {
      var missing := k !in chunkLinks;
      var applied: bool := *;
      var fault;
      fault, faults := Faults.MayFail(faults, AtMappings);
      if fault.None? || applied {
        chunkLinks := chunkLinks - {k};
      }
      if fault.Some? {
        return fault;
      }
      return if strictDeletes && missing then Some(NotFound) else None;
    }

    method DeleteMetadata(k: Key) returns (err: Option<Error>)
      modifies this`metas, this`faults
      ensures RowWritten(old(metas), metas, k, None, err)
      ensures err.Some? ==> Foreign(err.value) || err.value == NotFound
      ensures !(err.Some? && Foreign(err.value)) ==>
        err == if strictDeletes && k !in old(metas) then Some(NotFound) else None
      ensures Met(old(faults), faults, Unexpected(err), AtMappings)
    {
      var missing := k !in metas;
      var applied: bool := *;
      var fault;
      fault, faults := Faults.MayFail(faults, AtMappings);
      if fault.None? || applied {
        metas := metas - {k};
      }
      if fault.Some? {
        return fault;
      }
      return if strictDeletes && missing then Some(NotFound) else None;
    }

    // ----- adverts and the head -----

    method PutAdvert(adv: Advertisement) returns (r: Result<Link>)
      requires Valid()
      modifies this`blocks, this`faults
      ensures Addressed(hash, blocks) && Sub(old(blocks), blocks)
      ensures NextStored(old(blocks), Advert(adv)) ==> Valid()
      ensures r.Ok? ==> r.value == AdvertLink(hash, adv) && blocks == PutAll(hash, old(blocks), [Advert(adv)])
      ensures r.Err? ==> Foreign(r.error)
      ensures Met(old(faults), faults, ErrorIn(r), AtAdverts)
    {
      r := PutBlock(Advert(adv), AtAdverts);
    }

    method Head() returns (r: Result<SignedHead>)
      modifies this`faults
      ensures r.Ok? ==> head == Some(r.value)
      ensures r.Err? ==> Foreign(r.error) || (r.error == NotFound && head.None?)
      ensures Met(old(faults), faults, Unexpected(ErrorIn(r)), AtHeadRead)
    {
      var fault;
      fault, faults := Faults.MayFail(faults, AtHeadRead);
      if fault.Some? {
        return Err(fault.value);
      }
      r := if head.Some? then Ok(head.value) else Err(NotFound);
    }

    /** The head, or none when there is none yet. */
    method HeadIfAny() returns (r: Result<Option<SignedHead>>)
      modifies this`faults
      ensures r.Ok? ==> r.value == head
      ensures r.Err? ==> Foreign(r.error)
      ensures Met(old(faults), faults, ErrorIn(r), AtHeadRead)
    {
      var stored := Head();
      if stored.Ok? {
        return Ok(Some(stored.value));
      }
      r := if Is(stored.error, NotFound) then Ok(None) else Err(stored.error);
    }

    /** ReplaceHead: moves the head if it is the expected one. */
    method ReplaceHead(expected: Option<SignedHead>, next: SignedHead) returns (err: Option<Error>)
      requires Valid()
      modifies this`head, this`faults
      ensures (exists advs :: AdvertChain(blocks, Some(next.head), advs)) ==> Valid()
      ensures HeadWrite(old(head), expected, next, err, faults != old(faults), head)
      ensures err.Some? && head != old(head) ==> MayMove(atomicHead, old(faults), faults)
      ensures err.Some? ==> Foreign(err.value) || err.value == PreconditionFailed
      ensures if err == Some(PreconditionFailed) then faults == old(faults)
              else Met(old(faults), faults, err, AtHeadCompare) || Met(old(faults), faults, err, AtHeadWrite)
    {
      var unread;
      unread, faults := Faults.MayFail(faults, AtHeadCompare);
      if unread.Some? {
        return unread;
      }
      if head != expected {
        return Some(PreconditionFailed);
      }
      var applied: bool := *;
      var fault;
      fault, faults := Faults.MayFail(faults, AtHeadWrite);
      if fault.None? || (applied && !atomicHead) {
        head := Some(next);
        assert HeadLink(head) == Some(next.head);
      }
      return fault;
    }
  }

  /** One row was given the value v, or the write failed and it may have been. */
  ghost predicate RowWritten<V(!new)>(m: map<Key, V>, m': map<Key, V>, k: Key, v: Option<V>, err: Option<Error>) {
    m' == SetRow(m, k, v) || (m' == m && err.Some?)
  }
}
