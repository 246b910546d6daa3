/**
 What writing and reading entries means: how multihashes are cut into chunks,
 which blocks and which link result, and what a reader gets back
 (pkg/store/store.go, putEntries and Entries).
 */
module Entries {
  import opened Ipld
  import opened Sequences
  import opened Wrappers

  /** The chunks in the order they are written: a chunk is full before the next
      one begins. With a chunk size of zero the writer flushes one empty chunk
      and then chunks of one, since its buffer is always full. */
  function Split(mhs: seq<Multihash>, size: nat): seq<seq<Multihash>>
    decreases |mhs|, if size == 0 then 1 else 0
  {
    if mhs == [] then []
    else if size == 0 then [[]] + Split(mhs, 1)
    else if |mhs| <= size then [mhs]
    else [mhs[..size]] + Split(mhs[size..], size)
  }

  /** The blocks that chunks become, each linked to the one written before. */
  function ChunkBlocks(h: Hash, chunks: seq<seq<Multihash>>): seq<Block> {
    if chunks == [] then []
    else
      var before := ChunkBlocks(h, chunks[..|chunks| - 1]);
      before + [Chunk(chunks[|chunks| - 1], TopLink(h, before))]
  }

  function TopLink(h: Hash, bs: seq<Block>): Option<Link> {
    if bs == [] then None else Some(Cid(h, bs[|bs| - 1]))
  }

  /** Entries are inlined when they fit one chunk and the limit. */
  predicate Inlines(mhs: seq<Multihash>, size: nat, limit: nat) {
    0 < |mhs| <= size && |mhs| <= limit
  }

  function WrittenBlocks(h: Hash, mhs: seq<Multihash>, size: nat, limit: nat): seq<Block> {
    if Inlines(mhs, size, limit) then [] else ChunkBlocks(h, Split(mhs, size))
  }

  function EntriesLink(h: Hash, mhs: seq<Multihash>, size: nat, limit: nat): Option<Link> {
    if Inlines(mhs, size, limit) then Some(Identity(Chunk(mhs, None)))
    else TopLink(h, ChunkBlocks(h, Split(mhs, size)))
  }

  function Flatten(chunks: seq<seq<Multihash>>): seq<Multihash> {
    if chunks == [] then [] else chunks[0] + Flatten(chunks[1..])
  }

  lemma {:induction false} FlattenAppend(chunks: seq<seq<Multihash>>, c: seq<Multihash>)
    ensures Flatten(chunks + [c]) == Flatten(chunks) + c
  {
    if chunks == [] {
      assert chunks + [c] == [c];
    } else {
      FlattenAppend(chunks[1..], c);
      assert (chunks + [c])[1..] == chunks[1..] + [c];
    }
  }

  /** One more multihash goes into the last chunk if it has room, and into a
      chunk of its own if not. */
  function AddOne(cs: seq<seq<Multihash>>, x: Multihash, size: nat): seq<seq<Multihash>> {
    if cs == [] || |cs[|cs| - 1]| >= size then cs + [[x]]
    else cs[..|cs| - 1] + [cs[|cs| - 1] + [x]]
  }

  lemma AddOneBehind(c: seq<Multihash>, cs: seq<seq<Multihash>>, x: Multihash, size: nat)
    requires cs != []
    ensures AddOne([c] + cs, x, size) == [c] + AddOne(cs, x, size)
  {
  }

  lemma {:induction false} SplitOneMore(mhs: seq<Multihash>, x: Multihash, size: nat)
    requires size > 0
    ensures Split(mhs + [x], size) == AddOne(Split(mhs, size), x, size)
  {
    if mhs == [] {
      EmptyConcat([x]);
    } else if |mhs| == size {
      assert (mhs + [x])[..size] == mhs && (mhs + [x])[size..] == [x];
    } else if |mhs| > size {
      SplitOneMore(mhs[size..], x, size);
      AddOneBehind(mhs[..size], Split(mhs[size..], size), x, size);
      assert (mhs + [x])[..size] == mhs[..size];
      assert (mhs + [x])[size..] == mhs[size..] + [x];
    }
  }

  lemma SplitOneMoreUnsized(mhs: seq<Multihash>, x: Multihash)
    requires mhs != []
    ensures Split(mhs + [x], 0) == AddOne(Split(mhs, 0), x, 0)
  {
    SplitOneMore(mhs, x, 1);
    SplitShape(mhs, 1);
    ConcatAssociates([[]], Split(mhs, 1), [[x]]);
  }

  /** A writer that has taken done has flushed all of its chunks but the last,
      which sits in its buffer. */
  ghost predicate Buffered(done: seq<Multihash>, size: nat, flushed: seq<seq<Multihash>>, buffer: seq<Multihash>) {
    && flushed + (if buffer == [] then [] else [buffer]) == Split(done, size)
    && (buffer == [] ==> done == [])
    && (flushed == [] ==> buffer == done)
  }

  lemma BufferedStep(mhs: seq<Multihash>, i: nat, size: nat, flushed: seq<seq<Multihash>>, buffer: seq<Multihash>)
    requires i < |mhs| && Buffered(mhs[..i], size, flushed, buffer)
    ensures if |buffer| >= size then Buffered(mhs[..i + 1], size, flushed + [buffer], [mhs[i]])
            else Buffered(mhs[..i + 1], size, flushed, buffer + [mhs[i]])
  {
    var done, x := mhs[..i], mhs[i];
    TakeOneMore(mhs, i);
    if buffer == [] {
      assert flushed == [];
      EmptyConcat([x]);
      SplitOne(x, size);
    } else {
      assert Split(done, size) == flushed + [buffer];
      if size > 0 {
        SplitOneMore(done, x, size);
      } else {
        SplitOneMoreUnsized(done, x);
      }
      InitAndLast(flushed, buffer);
    }
  }

  lemma SplitOne(x: Multihash, size: nat)
    ensures Split([x], size) == if size == 0 then [[], [x]] else [[x]]
  {
    assert Split([x], 1) == [[x]];
  }

  /** Inlining the buffer when nothing was flushed, or flushing what it holds,
      is what writing the multihashes means. */
  lemma BufferedEnd(h: Hash, mhs: seq<Multihash>, size: nat, limit: nat, flushed: seq<seq<Multihash>>,
                    buffer: seq<Multihash>)
    requires Buffered(mhs, size, flushed, buffer)
    ensures
      var link, bs := EntriesLink(h, mhs, size, limit), WrittenBlocks(h, mhs, size, limit);
      if flushed == [] && 0 < |buffer| <= limit then link == Some(Identity(Chunk(buffer, None))) && bs == []
      else
        var all := if buffer == [] then flushed else flushed + [buffer];
        link == TopLink(h, ChunkBlocks(h, all)) && bs == ChunkBlocks(h, all)
  {
    var all := if buffer == [] then flushed else flushed + [buffer];
    assert all == Split(mhs, size);
    if flushed == [] && buffer != [] {
      assert |Split(mhs, size)| == 1;
    }
  }

  lemma FlattenCons(c: seq<Multihash>, cs: seq<seq<Multihash>>)
    ensures Flatten([c] + cs) == c + Flatten(cs)
  {
    assert ([c] + cs)[1..] == cs;
  }

  lemma {:induction false} FlattenConcat(xs: seq<seq<Multihash>>, ys: seq<seq<Multihash>>)
    ensures Flatten(xs + ys) == Flatten(xs) + Flatten(ys)
  {
    if xs == [] {
      EmptyConcat(ys);
    } else {
      FlattenConcat(xs[1..], ys);
      FlattenCons(xs[0], xs[1..] + ys);
      ConcatAssociates([xs[0]], xs[1..], ys);
      ConcatAssociates(xs[0], Flatten(xs[1..]), Flatten(ys));
      assert xs == [xs[0]] + xs[1..];
    }
  }

  /** Walking Next from root meets exactly the chunks done, and leads to cur. */
  ghost predicate Walk(blocks: Blocks, root: Option<Link>, done: seq<seq<Multihash>>, cur: Option<Link>)
    decreases |done|
  {
    if done == [] then cur == root
    else
      && !EndsEntries(root)
      && var b := Fetch(blocks, root.value);
      && b.Some? && b.value.Chunk? && b.value.entries == done[0]
      && Walk(blocks, b.value.next, done[1..], cur)
  }

  lemma {:induction false} WalkOn(blocks: Blocks, root: Option<Link>, done: seq<seq<Multihash>>, cur: Option<Link>,
                                  b: Block)
    requires Walk(blocks, root, done, cur) && !EndsEntries(cur)
    requires Fetch(blocks, cur.value) == Some(b) && b.Chunk?
    ensures Walk(blocks, root, done + [b.entries], b.next)
    decreases |done|
  {
    if done != [] {
      WalkOn(blocks, Fetch(blocks, root.value).value.next, done[1..], cur, b);
      assert (done + [b.entries])[1..] == done[1..] + [b.entries];
    }
  }

  /** What was read of a walk from root: all of it if it ended, and up to a block
      that is missing or no chunk if it got stuck. */
  ghost predicate ReadOf(blocks: Blocks, root: Option<Link>, out: seq<Multihash>, ended: bool, stuck: bool) {
    exists done, cur :: Walk(blocks, root, done, cur) && out == Flatten(done)
      && (ended ==> EndsEntries(cur)) && (stuck ==> CannotRead(blocks, cur))
  }

  predicate CannotRead(blocks: Blocks, cur: Option<Link>) {
    !EndsEntries(cur) && (Fetch(blocks, cur.value).None? || !Fetch(blocks, cur.value).value.Chunk?)
  }

  /** A reader that set out from root has met the chunks done and stands on
      cur: the chains from root are those from cur with done before them. */
  ghost predicate Reached(blocks: Blocks, root: Option<Link>, done: seq<seq<Multihash>>, cur: Option<Link>) {
    && (forall rest :: EntriesChain(blocks, cur, rest) ==> EntriesChain(blocks, root, done + rest))
    && (forall cs :: EntriesChain(blocks, root, cs) ==> done <= cs && EntriesChain(blocks, cur, cs[|done|..]))
  }

  lemma ReachedStart(blocks: Blocks, root: Option<Link>)
    ensures Reached(blocks, root, [], root)
  {
    forall cs: seq<seq<Multihash>> ensures [] + cs == cs && cs[0..] == cs {
    }
  }

  lemma ReachedStep(blocks: Blocks, root: Option<Link>, done: seq<seq<Multihash>>, cur: Option<Link>, b: Block)
    requires Reached(blocks, root, done, cur) && !EndsEntries(cur)
    requires Fetch(blocks, cur.value) == Some(b) && b.Chunk?
    ensures Reached(blocks, root, done + [b.entries], b.next)
  {
    var done' := done + [b.entries];
    forall rest | EntriesChain(blocks, b.next, rest)
      ensures EntriesChain(blocks, root, done' + rest)
    {
      assert ([b.entries] + rest)[1..] == rest;
      assert EntriesChain(blocks, cur, [b.entries] + rest);
      assert done' + rest == done + ([b.entries] + rest);
    }
    forall cs | EntriesChain(blocks, root, cs)
      ensures done' <= cs && EntriesChain(blocks, b.next, cs[|done'|..])
    {
      assert EntriesChain(blocks, cur, cs[|done|..]);
      assert cs[|done|..][1..] == cs[|done'|..];
    }
  }

  lemma ReachedEnd(blocks: Blocks, root: Option<Link>, done: seq<seq<Multihash>>, cur: Option<Link>)
    requires Reached(blocks, root, done, cur)
    requires EndsEntries(cur)
    ensures EntriesChain(blocks, root, done)
    ensures forall cs :: EntriesChain(blocks, root, cs) ==> cs == done
  {
    assert EntriesChain(blocks, cur, []);
    assert done + [] == done;
    forall cs | EntriesChain(blocks, root, cs) ensures cs == done {
      EntriesChainUnique(blocks, root, cs, done);
    }
  }

  /** A reader that cannot go on has met a prefix of any chain there is; and
      there is none if the block it stands on is missing or no chunk. */
  lemma ReachedStuck(blocks: Blocks, root: Option<Link>, done: seq<seq<Multihash>>, cur: Option<Link>)
    requires Reached(blocks, root, done, cur) && !EndsEntries(cur)
    ensures forall cs :: EntriesChain(blocks, root, cs) ==>
      && Flatten(done) <= Flatten(cs)
      && Fetch(blocks, cur.value).Some? && Fetch(blocks, cur.value).value.Chunk?
  {
    forall cs | EntriesChain(blocks, root, cs) ensures Flatten(done) <= Flatten(cs) {
      FlattenConcat(done, cs[|done|..]);
      assert done + cs[|done|..] == cs;
    }
  }

  /** Cutting loses, adds and reorders nothing. */
  lemma {:induction false} SplitFlattens(mhs: seq<Multihash>, size: nat)
    ensures Flatten(Split(mhs, size)) == mhs
    decreases |mhs|, if size == 0 then 1 else 0
  {
    if mhs == [] {
    } else if size == 0 {
      FlattenCons([], Split(mhs, 1));
      SplitFlattens(mhs, 1);
    } else if |mhs| <= size {
      FlattenCons(mhs, []);
    } else {
      FlattenCons(mhs[..size], Split(mhs[size..], size));
      SplitFlattens(mhs[size..], size);
    }
  }

  lemma {:induction false} ChunkBlocksLength(h: Hash, chunks: seq<seq<Multihash>>)
    ensures |ChunkBlocks(h, chunks)| == |chunks|
  {
    if chunks != [] {
      ChunkBlocksLength(h, chunks[..|chunks| - 1]);
    }
  }

  lemma PutChunkOnChain(h: Hash, m: Blocks, mhs: seq<Multihash>, next: Option<Link>, rest: seq<seq<Multihash>>)
    requires Injective(h) && Addressed(h, m) && Grounded(m) && EntriesChain(m, next, rest)
    ensures
      var b := Chunk(mhs, next);
      var m' := m[Cid(h, b) := b];
      && Addressed(h, m') && Grounded(m') && Sub(m, m')
      && EntriesChain(m', Some(Cid(h, b)), [mhs] + rest)
  {
    var b := Chunk(mhs, next);
    PutGrounded(h, m, b);
    EntriesChainGrows(m, m[Cid(h, b) := b], next, rest);
    assert ([mhs] + rest)[1..] == rest;
  }

  /** The blocks of a list of chunks, once written, are an EntryChunk chain that
      reads the chunks back newest first, and are grounded. */
  lemma {:induction false} ChunksReadBack(h: Hash, m: Blocks, chunks: seq<seq<Multihash>>)
    requires Injective(h) && Addressed(h, m) && Grounded(m)
    ensures
      var bs := ChunkBlocks(h, chunks);
      var m' := PutAll(h, m, bs);
      && Addressed(h, m') && Grounded(m') && Sub(m, m')
      && EntriesChain(m', TopLink(h, bs), Reverse(chunks))
  {
    if chunks != [] {
      var init, last := chunks[..|chunks| - 1], chunks[|chunks| - 1];
      ChunksReadBack(h, m, init);
      var before := ChunkBlocks(h, init);
      var m1 := PutAll(h, m, before);
      var b := Chunk(last, TopLink(h, before));
      InitAndLast(before, b);
      PutChunkOnChain(h, m1, last, TopLink(h, before), Reverse(init));
    }
  }

  /** One more chunk, written behind those already written. */
  lemma ChunksOneMore(h: Hash, m: Blocks, chunks: seq<seq<Multihash>>, mhs: seq<Multihash>)
    requires Injective(h) && Addressed(h, m) && Grounded(m)
    ensures
      var bs, all := ChunkBlocks(h, chunks), ChunkBlocks(h, chunks + [mhs]);
      var b := Chunk(mhs, TopLink(h, bs));
      && NextStored(PutAll(h, m, bs), b)
      && PutAll(h, m, all) == PutAll(h, PutAll(h, m, bs), [b])
      && TopLink(h, all) == Some(Cid(h, b))
  {
    ChunksReadBack(h, m, chunks);
    var bs := ChunkBlocks(h, chunks);
    InitAndLast(chunks, mhs);
    PutAllConcat(h, m, bs, [Chunk(mhs, TopLink(h, bs))]);
  }

  /** Chunks a reader meets, newest first: what was written, in reverse chunk
      order, with the order kept inside each chunk. */
  function ReadOrder(mhs: seq<Multihash>, size: nat, limit: nat): seq<seq<Multihash>> {
    if Inlines(mhs, size, limit) then [mhs] else Reverse(Split(mhs, size))
  }

  /** Round trip: reading the link that writing returned meets exactly the
      written chunks, for every chunk size and every inline limit. */
  lemma EntriesRoundTrip(h: Hash, m: Blocks, mhs: seq<Multihash>, size: nat, limit: nat)
    requires Injective(h) && Addressed(h, m) && Grounded(m)
    ensures
      var m' := PutAll(h, m, WrittenBlocks(h, mhs, size, limit));
      && Addressed(h, m') && Grounded(m') && Sub(m, m')
      && EntriesChain(m', EntriesLink(h, mhs, size, limit), ReadOrder(mhs, size, limit))
  {
    if Inlines(mhs, size, limit) {
      var l := EntriesLink(h, mhs, size, limit);
      assert [mhs][1..] == [];
      assert EntriesChain(m, None, []);
      assert Fetch(m, l.value) == Some(Chunk(mhs, None));
    } else {
      ChunksReadBack(h, m, Split(mhs, size));
    }
  }

  lemma {:induction false} FlattenReverseMultiset(chunks: seq<seq<Multihash>>)
    ensures multiset(Flatten(Reverse(chunks))) == multiset(Flatten(chunks))
  {
    if chunks != [] {
      var init, last := chunks[..|chunks| - 1], chunks[|chunks| - 1];
      FlattenReverseMultiset(init);
      assert chunks == init + [last];
      FlattenAppend(init, last);
      assert Reverse(chunks)[1..] == Reverse(init);
      assert multiset(last + Flatten(Reverse(init))) == multiset(Flatten(init) + last);
    }
  }

  /** A reader gets the written multihashes back as a multiset, always, and as
      the same sequence when they fit one chunk. */
  lemma ReadBackContents(mhs: seq<Multihash>, size: nat, limit: nat)
    ensures multiset(Flatten(ReadOrder(mhs, size, limit))) == multiset(mhs)
    ensures |mhs| <= size ==> Flatten(ReadOrder(mhs, size, limit)) == mhs
  {
    SplitFlattens(mhs, size);
    FlattenReverseMultiset(Split(mhs, size));
    assert Reverse([mhs]) == [mhs];
    assert Flatten([mhs]) == mhs + Flatten([]);
  }

  /** k is ceil(n / c). */
  predicate IsCeil(n: nat, c: nat, k: nat) {
    (k - 1) * c < n <= k * c
  }

  lemma {:induction false} SplitShape(mhs: seq<Multihash>, size: nat)
    requires size >= 1
    ensures IsCeil(|mhs|, size, |Split(mhs, size)|)
    ensures forall i :: 0 <= i < |Split(mhs, size)| ==> 1 <= |Split(mhs, size)[i]| <= size
    ensures forall i :: 0 <= i < |Split(mhs, size)| - 1 ==> |Split(mhs, size)[i]| == size
  {
    if |mhs| > size {
      SplitShape(mhs[size..], size);
      var k := |Split(mhs[size..], size)|;
      assert (k + 1) * size == k * size + size && k * size == (k - 1) * size + size;
    }
  }

  /** Chunk shape, for a chunk size of at least one: no link exactly for no
      multihashes, an identity link and no write exactly when the multihashes
      fit both limits, otherwise a hashed link to ceil(n / size) non-empty
      chunks, all but the last written exactly full. */
  lemma ChunkShape(h: Hash, mhs: seq<Multihash>, size: nat, limit: nat)
    requires size >= 1
    ensures
      var link, bs := EntriesLink(h, mhs, size, limit), WrittenBlocks(h, mhs, size, limit);
      && (link.None? <==> mhs == [])
      && (link.Some? && link.value.Identity? <==> 0 < |mhs| && |mhs| <= size && |mhs| <= limit)
      && (bs == [] <==> mhs == [] || link.value.Identity?)
      && (bs != [] ==>
            && link.value.Sha256?
            && IsCeil(|mhs|, size, |bs|)
            && (forall i :: 0 <= i < |bs| ==> bs[i].Chunk? && 1 <= |bs[i].entries| <= size)
            && (forall i :: 0 <= i < |bs| - 1 ==> |bs[i].entries| == size))
  {
    var chunks := Split(mhs, size);
    SplitShape(mhs, size);
    ChunkBlocksLength(h, chunks);
    ChunkBlocksEntries(h, chunks);
  }

  lemma {:induction false} ChunkBlocksEntries(h: Hash, chunks: seq<seq<Multihash>>)
    ensures |ChunkBlocks(h, chunks)| == |chunks|
    ensures forall i :: 0 <= i < |chunks| ==>
      ChunkBlocks(h, chunks)[i].Chunk? && ChunkBlocks(h, chunks)[i].entries == chunks[i]
  {
    if chunks != [] {
      ChunkBlocksEntries(h, chunks[..|chunks| - 1]);
    }
  }

  /** Inlining cannot be seen through reading: with any two inline limits a
      reader meets the same chunks. */
  lemma InliningUnobservable(mhs: seq<Multihash>, size: nat, limit: nat, limit': nat)
    ensures ReadOrder(mhs, size, limit) == ReadOrder(mhs, size, limit')
  {
    if 0 < |mhs| <= size {
      assert Reverse([mhs]) == [mhs];
    }
  }

  /** The bytes served for an inlined link are those of the chunk that would
      have been stored with inlining off. */
  lemma InlinedBytesAreStoredBytes(h: Hash, m: Blocks, m': Blocks, mhs: seq<Multihash>, size: nat, limit: nat)
    requires Injective(h) && Addressed(h, m')
    requires Inlines(mhs, size, limit)
    ensures
      var inlined, stored := EntriesLink(h, mhs, size, limit), EntriesLink(h, mhs, size, 0);
      && inlined.Some? && stored.Some? && inlined != stored
      && Fetch(m, inlined.value) == Fetch(PutAll(h, m', WrittenBlocks(h, mhs, size, 0)), stored.value)
  {
    assert Split(mhs, size) == [mhs];
    assert [mhs][..0] == [];
    assert ChunkBlocks(h, [mhs]) == [Chunk(mhs, None)];
    PutAllGrows(h, m', [Chunk(mhs, None)]);
  }
}
