/**
 Publishers racing over one store: each reads the head, writes adverts linked
 to what it read, and swaps the head if it is still that one (ReplaceHead), at
 any time failing or crashing. Steps of different publishers interleave freely.
 */
module HeadProtocol {
  import opened AdStores
  import opened AdvertFields
  import opened Errors
  import opened Ipld
  import opened Publishing
  import opened PublishingLaws
  import opened Sequences
  import opened Wrappers

  // A publisher that read a head and has stored the first put of its adverts,
  // or the outcome of its last attempt.
  datatype Publisher =
    | Busy(setup: Setup, was: Option<SignedHead>, drafts: seq<Advertisement>, put: nat)
    | Returned(err: Option<Error>)

  datatype Shared = Shared(blocks: Blocks, head: Option<SignedHead>, publishers: map<nat, Publisher>)

  datatype Step =
    | ReadHead(i: nat, setup: Setup, drafts: seq<Advertisement>)
    | PutBlock(block: Block)         // entries, or an advert of a failed attempt
    | PutNextAdvert(i: nat)
    | SwapHead(i: nat, err: Option<Error>, fault: bool)
    | Stop(i: nat, cause: Error)     // a crash, or a call that failed

  function Linked(pub: Publisher): seq<Advertisement>
    requires pub.Busy?
  {
    LinkAll(pub.setup, HeadLink(pub.was), pub.drafts)
  }

  predicate IsBusy(s: Shared, i: nat) {
    i in s.publishers && s.publishers[i].Busy?
  }

  ghost predicate Next(h: Hash, s: Shared, step: Step, s': Shared) {
    match step
    case ReadHead(i, setup, drafts) =>
      && !IsBusy(s, i) && setup.hash == h && drafts != []
      && s' == s.(publishers := s.publishers[i := Busy(setup, s.head, drafts, 0)])
    case PutBlock(block) =>
      NextStored(s.blocks, block) && s' == s.(blocks := PutAll(h, s.blocks, [block]))
    case PutNextAdvert(i) =>
      && IsBusy(s, i)
      && var pub := s.publishers[i];
      && pub.put < |pub.drafts|
      && s' == s.(blocks := PutAll(h, s.blocks, [Advert(Linked(pub)[pub.put])]),
                  publishers := s.publishers[i := pub.(put := pub.put + 1)])
    case SwapHead(i, err, fault) =>
      && IsBusy(s, i)
      && var pub := s.publishers[i];
      && pub.put == |pub.drafts| > 0
      && HeadWrite(s.head, pub.was, NewHead(h, pub), err, fault, s'.head)
      && s' == s.(head := s'.head, publishers := s.publishers[i := Returned(err)])
    case Stop(i, cause) =>
      IsBusy(s, i) && s' == s.(publishers := s.publishers[i := Returned(Some(cause))])
  }

  function NewHead(h: Hash, pub: Publisher): SignedHead
    requires pub.Busy? && pub.drafts != []
  {
    var advs := Linked(pub);
    SignedHead(AdvertLink(h, advs[|advs| - 1]), pub.setup.topic, pub.setup.key)
  }

  // ----- the invariant -----

  /** The adverts a publisher has stored are linked in front of the chain of the
      head it read, all of it in the store. */
  ghost predicate PutSoFar(h: Hash, blocks: Blocks, pub: Publisher) {
    pub.Busy? ==>
      && pub.setup.hash == h && pub.drafts != [] && pub.put <= |pub.drafts|
      && exists past :: PutOver(blocks, pub, past)
  }

  ghost predicate PutOver(blocks: Blocks, pub: Publisher, past: seq<Advertisement>)
    requires pub.Busy? && pub.put <= |pub.drafts|
  {
    var stored := Linked(pub)[..pub.put];
    && AdvertChain(blocks, HeadLink(pub.was), past)
    && AdvertChain(blocks, TopAdvert(pub.setup.hash, HeadLink(pub.was), stored), Reverse(stored) + past)
  }

  ghost predicate SharedInv(h: Hash, s: Shared) {
    && Injective(h) && Addressed(h, s.blocks) && Grounded(s.blocks)
    && (exists chain :: AdvertChain(s.blocks, HeadLink(s.head), chain))
    && forall i :: i in s.publishers ==> PutSoFar(h, s.blocks, s.publishers[i])
  }

  lemma PutSoFarGrows(h: Hash, m: Blocks, m': Blocks, pub: Publisher)
    requires Sub(m, m') && PutSoFar(h, m, pub)
    ensures PutSoFar(h, m', pub)
  {
    if pub.Busy? {
      var past :| PutOver(m, pub, past);
      var stored := Linked(pub)[..pub.put];
      AdvertChainGrows(m, m', HeadLink(pub.was), past);
      AdvertChainGrows(m, m', TopAdvert(pub.setup.hash, HeadLink(pub.was), stored), Reverse(stored) + past);
      assert PutOver(m', pub, past);
    }
  }

  lemma PutOneMore(h: Hash, m: Blocks, pub: Publisher)
    requires Injective(h) && Addressed(h, m) && Grounded(m)
    requires pub.Busy? && PutSoFar(h, m, pub) && pub.put < |pub.drafts|
    ensures NextStored(m, Advert(Linked(pub)[pub.put]))
    ensures PutSoFar(h, PutAll(h, m, [Advert(Linked(pub)[pub.put])]), pub.(put := pub.put + 1))
  {
    var n, linked := pub.put, Linked(pub);
    var past :| PutOver(m, pub, past);
    LinkedPrefix(pub.setup, HeadLink(pub.was), pub.drafts, n);
    PutOverOneMore(h, m, linked, HeadLink(pub.was), n, past);
    PutAllOne(h, m, Advert(linked[n]));
    assert PutOver(PutAll(h, m, [Advert(linked[n])]), pub.(put := n + 1), past);
  }

  lemma PutOverOneMore(h: Hash, m: Blocks, linked: seq<Advertisement>, prev: Option<Link>, n: nat,
                       past: seq<Advertisement>)
    requires Injective(h) && Addressed(h, m) && Grounded(m) && n < |linked|
    requires linked[n].prev == TopAdvert(h, prev, linked[..n])
    requires AdvertChain(m, prev, past) && AdvertChain(m, linked[n].prev, Reverse(linked[..n]) + past)
    ensures NextStored(m, Advert(linked[n]))
    ensures
      var m' := m[AdvertLink(h, linked[n]) := Advert(linked[n])];
      && AdvertChain(m', prev, past)
      && AdvertChain(m', TopAdvert(h, prev, linked[..n + 1]), Reverse(linked[..n + 1]) + past)
  {
    var chain := Reverse(linked[..n]) + past;
    PutAdvertOnChain(h, m, linked[n], chain);
    AdvertChainGrows(m, m[AdvertLink(h, linked[n]) := Advert(linked[n])], prev, past);
    TakeOneMore(linked, n);
    ReverseAppend(linked[..n], linked[n], past);
  }

  /** One step keeps the invariant, loses no block, and leaves the head with a
      chain that extends the one before; a head that moved has a longer one. */
  lemma StepExtends(h: Hash, s: Shared, step: Step, s': Shared, chain: seq<Advertisement>)
    returns (added: seq<Advertisement>)
    requires SharedInv(h, s) && Next(h, s, step, s')
    requires AdvertChain(s.blocks, HeadLink(s.head), chain)
    ensures SharedInv(h, s') && Sub(s.blocks, s'.blocks)
    ensures AdvertChain(s'.blocks, HeadLink(s'.head), added + chain)
    ensures s'.head != s.head <==> added != []
    ensures step.SwapHead? && step.err.None? ==> added == Reverse(Linked(s.publishers[step.i]))
  {
    added := [];
    assert added + chain == chain;
    match step {
      case ReadHead(i, setup, drafts) =>
        var pub := Busy(setup, s.head, drafts, 0);
        assert Reverse(Linked(pub)[..0]) + chain == chain;
        assert PutOver(s.blocks, pub, chain);
      case PutBlock(block) =>
        BlocksGrow(h, s, block);
      case PutNextAdvert(i) =>
        var pub := s.publishers[i];
        PutOneMore(h, s.blocks, pub);
        BlocksGrow(h, s, Advert(Linked(pub)[pub.put]));
      case SwapHead(i, err, fault) =>
        added := SwapExtends(h, s, i, s', chain);
      case Stop(i, cause) =>
    }
    assert AdvertChain(s'.blocks, HeadLink(s'.head), added + chain);
  }

  lemma SwapExtends(h: Hash, s: Shared, i: nat, s': Shared, chain: seq<Advertisement>)
    returns (added: seq<Advertisement>)
    requires SharedInv(h, s) && IsBusy(s, i) && s.publishers[i].put == |s.publishers[i].drafts| > 0
    requires AdvertChain(s.blocks, HeadLink(s.head), chain) && s'.blocks == s.blocks
    requires s'.head == s.head || (s.publishers[i].was == s.head && s'.head == Some(NewHead(h, s.publishers[i])))
    ensures AdvertChain(s'.blocks, HeadLink(s'.head), added + chain)
    ensures s'.head != s.head <==> added != []
    ensures s.publishers[i].was == s.head && s'.head == Some(NewHead(h, s.publishers[i])) ==>
      added == Reverse(Linked(s.publishers[i]))
  {
    var pub := s.publishers[i];
    assert PutSoFar(h, s.blocks, pub);
    if pub.was == s.head && s'.head == Some(NewHead(h, pub)) {
      SwapMoves(h, s, i, chain);
      var past :| PutOver(s.blocks, pub, past);
      assert Linked(pub)[..pub.put] == Linked(pub);
      AdvertChainUnique(s.blocks, HeadLink(s.head), past, chain);
      added := Reverse(Linked(pub));
    } else {
      added := [];
      EmptyConcat(chain);
    }
  }

  /** Swapping in a new head never leaves the head as it was: its chain is
      longer, so it is another link. */
  lemma SwapMoves(h: Hash, s: Shared, i: nat, chain: seq<Advertisement>)
    requires SharedInv(h, s) && IsBusy(s, i) && s.publishers[i].put == |s.publishers[i].drafts| > 0
    requires s.publishers[i].was == s.head && AdvertChain(s.blocks, HeadLink(s.head), chain)
    ensures s.head != Some(NewHead(h, s.publishers[i]))
  {
    var pub := s.publishers[i];
    assert PutSoFar(h, s.blocks, pub);
    var past :| PutOver(s.blocks, pub, past);
    assert Linked(pub)[..pub.put] == Linked(pub);
    if s.head == Some(NewHead(h, pub)) {
      AdvertChainUnique(s.blocks, HeadLink(s.head), past, Reverse(Linked(pub)) + past);
    }
  }

  lemma BlocksGrow(h: Hash, s: Shared, block: Block)
    requires SharedInv(h, s) && NextStored(s.blocks, block)
    ensures
      var m' := PutAll(h, s.blocks, [block]);
      && Addressed(h, m') && Grounded(m') && Sub(s.blocks, m')
      && (forall i :: i in s.publishers ==> PutSoFar(h, m', s.publishers[i]))
      && (forall chain :: AdvertChain(s.blocks, HeadLink(s.head), chain) ==> AdvertChain(m', HeadLink(s.head), chain))
  {
    PutAllOne(h, s.blocks, block);
    PutGrounded(h, s.blocks, block);
    var m' := PutAll(h, s.blocks, [block]);
    forall i | i in s.publishers ensures PutSoFar(h, m', s.publishers[i]) {
      PutSoFarGrows(h, s.blocks, m', s.publishers[i]);
    }
    forall chain | AdvertChain(s.blocks, HeadLink(s.head), chain) ensures AdvertChain(m', HeadLink(s.head), chain) {
      AdvertChainGrows(s.blocks, m', HeadLink(s.head), chain);
    }
  }

  // ----- runs -----

  ghost predicate Run(h: Hash, run: seq<Shared>, steps: seq<Step>) {
    && |run| == |steps| + 1
    && SharedInv(h, run[0])
    && forall k :: 0 <= k < |steps| ==> Next(h, run[k], steps[k], run[k + 1])
  }

  ghost predicate HeadMoved(run: seq<Shared>, r: nat, k: nat)
    requires r <= k < |run|
  {
    exists m :: r <= m < k && run[m + 1].head != run[m].head
  }

  lemma {:induction false} RunKeepsInv(h: Hash, run: seq<Shared>, steps: seq<Step>, k: nat)
    requires Run(h, run, steps) && k <= |steps|
    ensures SharedInv(h, run[k])
  {
    if k > 0 {
      RunKeepsInv(h, run, steps, k - 1);
      var chain :| AdvertChain(run[k - 1].blocks, HeadLink(run[k - 1].head), chain);
      var _ := StepExtends(h, run[k - 1], steps[k - 1], run[k], chain);
    }
  }

  lemma RunStep(h: Hash, run: seq<Shared>, steps: seq<Step>, k: nat, chain: seq<Advertisement>)
    returns (added: seq<Advertisement>)
    requires Run(h, run, steps) && k < |steps|
    requires AdvertChain(run[k].blocks, HeadLink(run[k].head), chain)
    ensures Sub(run[k].blocks, run[k + 1].blocks)
    ensures AdvertChain(run[k + 1].blocks, HeadLink(run[k + 1].head), added + chain)
    ensures run[k + 1].head != run[k].head <==> added != []
  {
    RunKeepsInv(h, run, steps, k);
    added := StepExtends(h, run[k], steps[k], run[k + 1], chain);
  }

  /** No advert is lost: over any run, however publishers interleave, fail and
      crash, the chain of a head is stored whole and extends the chain of every
      earlier head. */
  lemma {:induction false} NoAdvertIsLost(h: Hash, run: seq<Shared>, steps: seq<Step>, i: nat, j: nat,
                                          chain: seq<Advertisement>)
    returns (added: seq<Advertisement>)
    requires Run(h, run, steps) && i <= j <= |steps|
    requires AdvertChain(run[i].blocks, HeadLink(run[i].head), chain)
    ensures AdvertChain(run[j].blocks, HeadLink(run[j].head), added + chain) && Sub(run[i].blocks, run[j].blocks)
    ensures added != [] <==> HeadMoved(run, i, j)
  {
    if i == j {
      added := [];
      EmptyConcat(chain);
    } else {
      var before := NoAdvertIsLost(h, run, steps, i, j - 1, chain);
      var last := RunStep(h, run, steps, j - 1, before + chain);
      added := last + before;
      ConcatAssociates(last, before, chain);
      MovedOneMore(run, i, j);
    }
  }

  /** A head never comes back: it is the same at two moments exactly when it
      did not move between them. */
  lemma HeadNeverReturns(h: Hash, run: seq<Shared>, steps: seq<Step>, i: nat, j: nat)
    requires Run(h, run, steps) && i <= j <= |steps|
    ensures HeadLink(run[i].head) == HeadLink(run[j].head) <==> !HeadMoved(run, i, j)
  {
    RunKeepsInv(h, run, steps, i);
    var chain :| AdvertChain(run[i].blocks, HeadLink(run[i].head), chain);
    var added := NoAdvertIsLost(h, run, steps, i, j, chain);
    if added == [] {
      HeadUnmoved(run, i, j);
    } else if HeadLink(run[i].head) == HeadLink(run[j].head) {
      AdvertChainGrows(run[i].blocks, run[j].blocks, HeadLink(run[i].head), chain);
      AdvertChainUnique(run[j].blocks, HeadLink(run[j].head), chain, added + chain);
    }
  }

  lemma MovedOneMore(run: seq<Shared>, i: nat, j: nat)
    requires i < j < |run|
    ensures HeadMoved(run, i, j) <==> HeadMoved(run, i, j - 1) || run[j].head != run[j - 1].head
  {
    if run[j].head != run[j - 1].head {
      assert run[(j - 1) + 1].head != run[j - 1].head;
    }
  }

  lemma {:induction false} HeadUnmoved(run: seq<Shared>, i: nat, j: nat)
    requires i <= j < |run| && !HeadMoved(run, i, j)
    ensures run[j].head == run[i].head
  {
    if i < j {
      HeadUnmoved(run, i, j - 1);
    }
  }

  /** Between reading the head at step r and swapping it at step k, publisher i
      did nothing but store adverts. */
  ghost predicate Attempt(steps: seq<Step>, i: nat, r: nat, k: nat) {
    && r < k < |steps|
    && steps[r].ReadHead? && steps[r].i == i
    && steps[k].SwapHead? && steps[k].i == i
    && forall m :: r < m < k ==> !((steps[m].ReadHead? || steps[m].SwapHead? || steps[m].Stop?) && steps[m].i == i)
  }

  lemma {:induction false} AttemptKeepsWhatItRead(h: Hash, run: seq<Shared>, steps: seq<Step>, i: nat, r: nat, k: nat,
                                                  m: nat)
    requires Run(h, run, steps) && Attempt(steps, i, r, k) && r < m <= k
    ensures IsBusy(run[m], i) && run[m].publishers[i].was == run[r].head
  {
    assert Next(h, run[m - 1], steps[m - 1], run[m]);
    if m > r + 1 {
      AttemptKeepsWhatItRead(h, run, steps, i, r, k, m - 1);
    }
  }

  /** The swap decides exactly as it should: unless it meets a fault, it answers
      that the precondition failed if the publisher's read is stale, and
      publishes if not. A stale publisher moves nothing whatever it meets, and
      is told so or of a fault; and a precondition failed only if it is stale. */
  lemma StaleSwapFailsExactly(h: Hash, run: seq<Shared>, steps: seq<Step>, i: nat, r: nat, k: nat)
    requires Run(h, run, steps) && Attempt(steps, i, r, k)
    ensures HeadMoved(run, r, k) ==> steps[k].err.Some? && run[k + 1].head == run[k].head
    ensures !steps[k].fault ==> steps[k].err == if HeadMoved(run, r, k) then Some(PreconditionFailed) else None
    ensures steps[k].err.Some? && Is(steps[k].err.value, PreconditionFailed) ==> HeadMoved(run, r, k)
  {
    AttemptKeepsWhatItRead(h, run, steps, i, r, k, k);
    assert Next(h, run[k], steps[k], run[k + 1]);
    HeadNeverReturns(h, run, steps, r, k);
    if !HeadMoved(run, r, k) {
      HeadUnmoved(run, r, k);
    }
  }

  /** Adverts that were acknowledged are on the chain of every later head, in
      front of the chain they were published on, newest first, each signed by
      their publisher as it drafted it, and so is the head they got. */
  lemma AcknowledgedStays(h: Hash, run: seq<Shared>, steps: seq<Step>, k: nat, j: nat, chain: seq<Advertisement>)
    returns (added: seq<Advertisement>, published: seq<Advertisement>)
    requires Run(h, run, steps) && k < j <= |steps|
    requires steps[k].SwapHead? && steps[k].err.None?
    requires AdvertChain(run[k].blocks, HeadLink(run[k].head), chain)
    ensures AdvertChain(run[j].blocks, HeadLink(run[j].head), added + (published + chain))
    ensures
      && IsBusy(run[k], steps[k].i)
      && var pub := run[k].publishers[steps[k].i];
      && run[k + 1].head.Some? && HeadSigned(run[k + 1].head, pub.setup)
      && |published| == |pub.drafts| > 0 && AllSigned(published, pub.setup.key)
      && forall i :: 0 <= i < |pub.drafts| ==> SameAdvert(published[|pub.drafts| - 1 - i], pub.drafts[i])
  {
    RunKeepsInv(h, run, steps, k);
    assert Next(h, run[k], steps[k], run[k + 1]);
    published := StepExtends(h, run[k], steps[k], run[k + 1], chain);
    LinkedAreSigned(run[k].publishers[steps[k].i]);
    added := NoAdvertIsLost(h, run, steps, k + 1, j, published + chain);
  }

  lemma LinkedAreSigned(pub: Publisher)
    requires pub.Busy?
    ensures
      var advs := Reverse(Linked(pub));
      && |advs| == |pub.drafts| && AllSigned(advs, pub.setup.key)
      && forall i :: 0 <= i < |pub.drafts| ==> SameAdvert(advs[|pub.drafts| - 1 - i], pub.drafts[i])
  {
    var advs, n := Reverse(Linked(pub)), |pub.drafts|;
    forall j | 0 <= j < n ensures advs[j].signer == Some(pub.setup.key) && SameAdvert(advs[j], pub.drafts[n - 1 - j]) {
      ReverseAt(Linked(pub), j);
      LinkedFields(pub.setup, HeadLink(pub.was), pub.drafts, n - 1 - j);
    }
    forall i | 0 <= i < n ensures SameAdvert(advs[n - 1 - i], pub.drafts[i]) {
      assert SameAdvert(advs[n - 1 - i], pub.drafts[n - 1 - (n - 1 - i)]);
    }
  }

  /** Of the publishers that read the same head at most one is acknowledged. */
  lemma OneWinner(h: Hash, run: seq<Shared>, steps: seq<Step>, i: nat, r: nat, k: nat, i': nat, r': nat, k': nat)
    requires Run(h, run, steps) && Attempt(steps, i, r, k) && Attempt(steps, i', r', k')
    requires k < k' && HeadLink(run[r].head) == HeadLink(run[r'].head)
    requires steps[k].err.None?
    ensures steps[k'].err.Some?
  {
    if steps[k'].err.None? {
      AttemptKeepsWhatItRead(h, run, steps, i, r, k, k);
      AttemptKeepsWhatItRead(h, run, steps, i', r', k', k');
      assert Next(h, run[k], steps[k], run[k + 1]) && Next(h, run[k'], steps[k'], run[k' + 1]);
      HeadNeverReturns(h, run, steps, k, k');
      RunKeepsInv(h, run, steps, k);
      var chain :| AdvertChain(run[k].blocks, HeadLink(run[k].head), chain);
      SwapMoves(h, run[k], i, chain);
    }
  }
}
