# The IPNI publishing transaction, verified

A Dafny model of what go-ipni-tools does when it publishes: turning
advertisement specs into a signed, content-addressed chain and a table of
mappings, and keeping the two in step when store calls fail, when adverts are
undone, when publishing is retried and when publishers race.

Every operation that changes state is a method over a store that may fail at
each call, proved against a function that says what the operation means. The
theorems are about those functions, and about every run of them.

| module | what it holds |
|---|---|
| `Errors`, `Faults`, `Wrappers` | error trees with `errors.Is`, `%w` and `%s` wrapping told apart; the log of what failed and where, which failure an error is about, and when it is a timeout |
| `Ipld`, `Sequences` | blocks, links, adverts, the advert chain and the EntryChunk chain |
| `Entries` | chunking, inlining, reading back |
| `Mappings` | the two tables from provider and context ID |
| `Publishing`, `PublishingLaws`, `AdvertFields` | what publishing means, what it keeps, and what the adverts on the chain hold, field by field |
| `AdStores` | the store, failing anywhere; `putEntries`, `Entries`, `Encode`, the mapping tables, the head |
| `Rollback`, `GenerateAds`, `Refusals` | undos; generation; when content is refused as already advertised, over runs |
| `AdvertPublishers`, `BatchStores`, `Publishers` | `AdvertisementPublisher`, the default batch store, `Publish` and `PublishBatch` |
| `HeadProtocol`, `DatastoreHeads` | racing publishers; the head as bytes in a datastore |
| `Consistency` | whether chain and tables agree, over whole runs with every kind of failure |
| `JobQueues`, `QueueDelivery`, `PublishingJobs` | the queue, queued adverts, queued publishing jobs |
| `Notifications` | the remote sync notifier |

## Assumptions

- A link is a digest of its block, and the digest function is injective. It is
  a parameter of the model. That no chain is cyclic, and that every walk of a
  chain ends, is proved and not assumed.
- Signing is deterministic: a signed advert is its content, its link to the
  previous one and the key. Codecs round-trip, and `md.Equal` is equality.
- A failing mapping write may or may not have taken effect on its own row and
  touches nothing else. A failing block write may or may not have stored its
  block. A failing head write may or may not have moved the head, unless it
  reports a failed precondition or the store is one whose failing head write
  has no effect (`atomicHead`).
- A read that reports "not found" is right. Whether deleting a missing row
  reports "not found" is a property of the store (`strictDeletes`).
- Stores and queues log their faults, and so do signing, validating and
  encoding when they refuse. The log is ghost: it is there for contracts to say
  that a call succeeds when nothing fails, that its error is about the first
  fault, and when it is a timeout. Each entry says where the fault was met:
  writing or reading entries, mappings, adverts; reading, comparing or writing
  the head; or outside the store.
  Faults come from `Faults.MayFail` alone, which nobody can make fail.
- A store's own errors are none of the values the publishers branch on, except
  where the source's stores return them; a deadline may be exceeded anywhere.
- Signing, validating and encoding may refuse at any point.
- One publisher at a time publishes through `Publish`, `PublishBatch` or the
  queue, as their documentation asks. `HeadProtocol` is where publishers race.

## What was found

- **A head write that takes effect unacknowledged breaks all-or-nothing.** A
  failed publish, batch or commit leaves the head as it was unless its first
  fault is that of writing the head, in a store where that may take effect
  (`Faults.MayMove` in every such contract). The mappings are then undone while
  the adverts stay on the chain.
  Chain and tables still agree if and only if every context ID of the batch was
  mapped already, with the metadata of its last spec
  (`Consistency.UnreportedHeadMoveExact`); one new spec is enough for them to
  disagree (`Consistency.UnreportedHeadMoveCanDisagree`). So after a failure
  that names no mapping a caller has agreement exactly when the head is the one
  it was, or the batch was carried already (`Consistency.CleanFailureExact`).
- **Retrying is transparent if the head may not have moved**, and heals always.
  After any number of failed attempts none of which may have moved the head, a
  success leaves the tables, head and chain that it would have at once
  (`Consistency.RetriedBatchIsTransparent`). If some did move it, a success
  still leaves those tables, and chain and tables in agreement
  (`Consistency.RetriedBatchHeals`); the price is that the adverts of an attempt
  that moved the head are on the chain once more (`Consistency.RetryHeals`).
- **Whether an error is a timeout depends on where the deadline was exceeded.**
  Errors formatted with `%s` hide it: those of writing entries always, and those
  of the mappings and of reading the head everywhere but in `PublishBatch`
  (`Faults.QUOTED`, `Faults.BATCH_QUOTED`). Every contract of a publish that
  fails says, from the log alone, exactly when its error is a deadline. So a
  batch of adverts, or a publishing job, whose reading of the head timed out is
  released, and one whose advert timed out is deleted
  (`PublishingJobs.FailedJobIsDeletedIff`).
- **A queued advert can be lost.** `errors.Is` looks through a joined rollback
  error, so a batch of adverts is deleted exactly when its first fault is a
  deadline exceeded anywhere but in reading the head, or an undo exceeded one
  (`QueueDelivery.FailedBatchIsDeletedIff`). An advert that
  cannot be written, for a reason that is no timeout, and whose undo times out
  on both rows leaves the queue and is on no chain
  (`QueueDelivery.UndoTimeoutLosesAdvert`).
- **A publishing job whose deletion failed after it published** is refused as
  already advertised when it comes again, exactly as long as the attempts since,
  by anyone and however they ended, leave its content mapped and with its
  metadata; and is then released and not deleted, unless it meets a timeout
  (`PublishingJobs.RedeliveredJobIsReleased`). If every attempt published or
  failed cleanly that is to say that the last that published, if any did,
  advertised its metadata (`Refusals.WholeAttempts`).
- **An advert generated for a queue that then refuses it** leaves its mappings,
  so its content is refused under the same condition, although the head has not
  moved (`QueueDelivery.UnqueuedIsRefusedIff`).
- **Oldest-first undo is not exact in general**, and is so exactly when each
  key's newest generation found what the first did
  (`Rollback.OldestFirstExactIff`, with a counterexample in
  `Rollback.OldestFirstCanFail`). The batch store may undo oldest first because
  its planning loop keeps one change for each context ID.
- **Repeating a batch is idle if and only if** specs that share a context ID
  agree on their metadata (`PublishingLaws.RepeatIsIdleIffSpecsAgree`).
- **Removing content that has no metadata row fails** on a store that reports
  deleting a missing row, and on no other without a fault: generating forgives a
  missing row only when it undoes (`GenerateAds.GenerateAd`).
- **A sync can go unnotified**: a restart opens a gap in the notifications
  exactly when a head was persisted although the write reported an error
  (`Notifications.RestartKeepsGaplessIff`, `Notifications.MissedSync`).
- **The byte comparison of `Replace` is a compare-and-swap except in one case**:
  a stored empty value passes for a missing one
  (`DatastoreHeads.PassesIsEqualityIff`). No encoded head is empty.

## Model

| member | source | states |
|---|---|---|
| Publishers.IPNIPublisher.PublishBatch | pkg/publisher/publisher.go:67-84 | Succeeds exactly when nothing fails, and then the whole state is the fold of publishing the specs one by one and the link is the new head's. Otherwise its error is about the first fault, and is a deadline exactly if that fault is one, met anywhere but in writing entries, or a write-back met one; the head is as it was unless that fault is of writing it, in a store where it may take effect unacknowledged; and the tables are as they were, or each context ID whose write-back met a fault of its own is named, every other key is as before, every row is the old or the new one, and none is mapped to entries that are not stored |
| Publishers.IPNIPublisher.StartBatch | pkg/publisher/batch.go:25-43 | Reads the head and, for every spec, the record that the tables hold; or fails on its first fault, wrapped |
| Publishers.IPNIPublisher.Publish | pkg/publisher/publisher.go:39-48 | The same meaning for one spec, with mappings written before the advert: succeeds exactly when nothing fails and the spec is not already advertised; refused, it changes nothing; failing, the head moves only if the first fault is of writing it, and its error is a deadline exactly if that fault is one that is not quoted or the undo met one |
| Publishers.IPNIPublisher.PublishAdvForIndex | pkg/publisher/publisher.go:108-124 | Publishing an addition or a removal, refused, or failing on a fault or a missing row with the generation undone or the key named, and the head as it was unless the first fault is of writing it; which faults make the error a deadline is exact |
| Publishers.IPNIPublisher.CommitGenerated | pkg/publisher/publisher.go:122-123 | Committing a generated advert publishes it, or fails on a fault its error is about, as a publish may |
| Publishers.IPNIPublisher.Plan | pkg/publisher/batch.go:48-100 | The plan's changes and linked adverts, applied to the store, are what publishing the specs one by one would leave; the tables and head are not touched |
| Publishers.IPNIPublisher.PlanSpec | pkg/publisher/batch.go:54-100 | One turn of the planning loop keeps its invariant |
| Publishers.IPNIPublisher.PlanOne | pkg/publisher/batch.go:62-98 | One spec's next record and its signed advert, or nothing if already advertised |
| Publishers.IPNIPublisher.WritePlan | pkg/publisher/batch.go:102-125 | Writing a plan makes it the state, or fails as a publish may |
| Publishers.IPNIPublisher.CommitPlan | pkg/publisher/batch.go:109-116 | Committing the planned records and the new head, or failing with the records written back |
| Publishers.PlanLookup | pkg/publisher/batch.go:56-60 | The record the plan goes on from is the one the earlier specs would have left in the tables |
| Publishers.ChangeAdvances | pkg/publisher/batch.go:71-76 | Changes stay distinct by context ID, indexed exactly, from the loaded record, and describe the tables the specs so far would leave |
| Publishers.PlanAdvance | pkg/publisher/batch.go:54-100 | The planning loop's invariant over a spec that needs an advert |
| Publishers.PlanSkip | pkg/publisher/batch.go:65-67 | The planning loop's invariant over a spec that is already advertised |
| Publishers.PlanCommits | pkg/publisher/batch.go:106-116 | Applying a plan is publishing its specs one by one |
| Publishers.FailedCommit | pkg/publisher/batch.go:220-241 | With no reported failure the tables are as before; otherwise every key not reported is, every row is old or new, and each report is of a real write-back |
| Publishers.FailedGenerated | pkg/publisher/publisher.go:122-123 | A failed commit of one generated advert is a failed publish |
| Publishers.IPNIPublisher.constructor | pkg/publisher/publisher.go:92-105 | Publishes to the store, signs with the key and for the topic that it is given |
| PublishingLaws.RetryTransparent | pkg/publisher/publisher.go:76-80 | After any number of failed attempts, publishing leaves the tables, head and chain that publishing at once would have |
| PublishingLaws.LeftoverBlocksDoNotMatter | pkg/publisher/publisher.go:76-81 | Blocks left by failed attempts change neither tables nor head |
| PublishingLaws.RepeatIsIdleIffSpecsAgree | pkg/publisher/generate_ad.go:155-181 | Repeating a batch needs no advert, and changes nothing, if and only if specs with one context ID agree on metadata; otherwise it moves the head |
| PublishingLaws.LastSpecWins | pkg/publisher/batch.go:54-76 | After a batch each context ID is mapped, with the metadata of its last spec |
| PublishingLaws.PublishAllExtends | pkg/publisher/batch.go:82-116 | Publishing specs extends the chain by one advert for each spec that needs one and loses no block |
| PublishingLaws.PublishOneExtends | pkg/publisher/generate_ad.go:48-153 | One publish adds at most one advert, exactly when it is not refused, linked to the old head and signed |
| AdvertFields.PublishedFields | pkg/publisher/generate_ad.go:81-152 | The block under the new head is one advert, signed with the publisher's key, linked to the old head, with the request's provider, addresses, context ID and removal flag. A removal has no entries and empty metadata, and unmaps the key. An addition has the request's metadata and is what the key is mapped to: the entries it was mapped to, or else entries that read back as its multihashes. The head is signed with the key, for the topic |
| AdvertFields.GeneratedFields | pkg/publisher/generate_ad.go:81-152 | The same of the advert generated and the mapping it leaves; the blocks change only by the entries of unmapped content, and the head does not |
| AdvertFields.AppendFields | pkg/publisher/advertisementpublisher.go:161-188 | Appending drafts adds exactly them, newest first, each with its fields untouched and signed with the key, under a head signed with the key for the topic |
| AdvertFields.LinkedFields | pkg/publisher/advertisementpublisher.go:162-167 | Each linked advert keeps its draft's fields, is signed, and links to the digest of the one before it |
| AdvertFields.BatchFields | pkg/publisher/batch.go:54-116 | A batch adds one advert for each spec that needs one when its turn comes, in order, signed, with the provider's ID and addresses and that spec's context ID and metadata; and changes nothing if none does |
| AdvertFields.SpecIsNeeded | pkg/publisher/batch.go:62-70 | A spec is skipped exactly if its content is mapped with its metadata |
| PublishingLaws.NewAdvertsMoveHead | pkg/publisher/batch.go:102-105 | The head moves exactly when some spec needed an advert; otherwise nothing changes |
| PublishingLaws.PublishAllStoresEntries | pkg/publisher/batch.go:62-64 | Whatever specs newly map is linked to entries that are stored |
| PublishingLaws.GenerateStoresEntries | pkg/publisher/generate_ad.go:88-103 | Entries are stored before a row is mapped to them |
| PublishingLaws.PublishOverPlan | pkg/publisher/batch.go:54-100 | Publishing over adverts that are planned but unwritten is planning one more |
| PublishingLaws.LinkedChainStored | pkg/publisher/batch.go:82-137 | Linked before written: writing adverts linked beforehand puts exactly those, newest first, before the old chain, all stored |
| PublishingLaws.LinkedPrefix | pkg/publisher/batch.go:96-99 | Each advert is linked to the one planned before it, whatever is planned after |
| PublishingLaws.LinkedIsAppended | pkg/publisher/advertisementpublisher.go:161-190 | Moving the head to the last advert written is appending the list |
| PublishingLaws.AppendChain | pkg/publisher/advertisementpublisher.go:161-180 | Appending keeps every block and extends the chain |
| PublishingLaws.AppendTwice | pkg/publisher/advertisementpublisher.go:138-192 | Appending one advert after others is appending them together |
| PublishingLaws.AppendCommutes | pkg/store/store.go:419-429 | Entries written before or after the adverts leave the same store |
| PublishingLaws.LinkedOneMore | pkg/publisher/advertisementpublisher.go:161-180 | The invariant of the writing loops: what the next advert builds on is stored |
| Publishing.NextRecord | pkg/publisher/generate_ad.go:161-181 | A next record always has an entries link and the new metadata |
| BatchStores.PerItemBatchStore.LoadContexts | pkg/publisher/batch.go:148-172 | Every context ID asked for gets the record the tables hold |
| BatchStores.PerItemBatchStore.PutAdverts | pkg/publisher/batch.go:174-181 | Stores each advert under the link planned for it |
| BatchStores.PerItemBatchStore.CommitBatch | pkg/publisher/batch.go:183-196 | Applies every change and moves the head when nothing fails and the head is the expected one; otherwise its cause is the first fault, or a failed precondition exactly if the head was another, every change is written back but those it reports, the head has moved only if the first fault is of writing it, and the error is a deadline exactly if a fault it met is one |
| BatchStores.PerItemBatchStore.WriteBatch | pkg/publisher/batch.go:186-194 | Writes the records and then swaps the head, up to what fails: what was begun is old or new, and the head has moved only if writing it failed |
| BatchStores.PerItemBatchStore.WriteRecords | pkg/publisher/batch.go:187-191 | Writes the records in order up to one that fails, which counts as begun |
| BatchStores.PerItemBatchStore.WriteRecord | pkg/publisher/batch.go:198-218 | Writes only the mappings that differ; failing, each row is old or new |
| BatchStores.PerItemBatchStore.RollBack | pkg/publisher/batch.go:220-241 | Restores every begun change, keeps the cause, and reports each restore that failed, on a fault of its own, and only those |
| BatchStores.RestoreFailuresExact | pkg/publisher/batch.go:226-240 | Nothing is reported exactly when every write-back succeeded, and each report is of a real failure |
| BatchStores.RolledBackOneMore | pkg/publisher/batch.go:227-236 | The rollback loop's invariant over one more change |
| BatchStores.AllRestoredIsAsFound | pkg/publisher/batch.go:183-185 | With every write-back done, all mappings of all providers are as before |
| BatchStores.AppliedWithin | pkg/publisher/batch.go:187-190 | Why the rollback covers the change whose write failed |
| BatchStores.AppliedLookup | pkg/publisher/batch.go:186-191 | Distinct changes each leave their new record and touch nothing else |
| BatchStores.AppliedReplace | pkg/publisher/batch.go:71-73 | Changing a context ID twice in a batch is one change to the last record |
| BatchStores.BackOneMore | pkg/publisher/batch.go:227-236 | The write-back loop's invariant, oldest first over distinct context IDs |
| AdvertPublishers.AdvertisementPublisher.Commit | pkg/publisher/advertisementpublisher.go:83-102 | Appends the pending adverts under one head when nothing fails; otherwise runs every undo newest first, and its error is the commit's, about the first fault, with exactly the undos that failed; the head is as it was unless that fault is of writing it; nothing stays pending |
| AdvertPublishers.AdvertisementPublisher.CommitAds | pkg/publisher/advertisementpublisher.go:138-202 | The state is the old one with the adverts appended; failing, on a fault, whose error is quoted exactly if it was met reading the head, the head is as found unless that fault is of writing it, in a store where it may take effect |
| AdvertPublishers.CommitFaulted | pkg/publisher/advertisementpublisher.go:83-102 | The error of a failed commit is about its first fault, and is a deadline exactly if that fault is one, met after the head was read, or an undo met one |
| AdvertPublishers.AdvertisementPublisher.PutLinked | pkg/publisher/advertisementpublisher.go:161-180 | Stores the adverts in order, each linked to the one before |
| AdvertPublishers.AdvertisementPublisher.UndoAll | pkg/publisher/advertisementpublisher.go:117-136 | Runs every undo newest first and reports exactly those that failed |
| AdvertPublishers.AdvertisementPublisher.Discard | pkg/publisher/advertisementpublisher.go:104-115 | Empties pending and undoes it |
| AdvertPublishers.AdvertisementPublisher.AddToBatch | pkg/publisher/advertisementpublisher.go:65-76 | Queues an advert with the undo that forgets its mappings |
| AdvertPublishers.GeneratedIsGeneration | pkg/publisher/generate_ad.go:60-77 | Generating an advert changes one key and records what it was mapped to |
| AdvertPublishers.DiscardedIsAsFound | pkg/publisher/advertisementpublisher.go:104-136 | Discarding adverts generated with their undos, if it reports no failure, returns the tables to those of before the first was generated |
| AdvertPublishers.FailedCommitIsAsFound | pkg/publisher/advertisementpublisher.go:83-102 | So does a failed commit of them that names no mapping |
| Faults.FailuresComplete | pkg/publisher/advertisementpublisher.go:122-135 | Nothing is reported exactly when no undo failed, and every failure is |
| Faults.FailuresReal | pkg/publisher/advertisementpublisher.go:122-135 | What is reported is a failure of an undo, for its context ID |
| Faults.IsWithFailures | pkg/publisher/advertisementpublisher.go:95-100 | A sentinel is found in a joined error exactly when it is in the cause or in a listed failure |
| Faults.WithFailuresTimedOut | pkg/publisher/advertisementpublisher.go:95-100 | A joined error is a deadline exactly if its cause is or an undo reported one |
| Rollback.RestoreMappings | pkg/publisher/rollback.go:29-51 | Restores a record when nothing fails; otherwise reports each row whose write failed, on its own fault, and restores the other; no other key changes |
| Rollback.ForgetMappings | pkg/publisher/rollback.go:53-80 | Drops an addition's mappings; a removal's undo changes nothing and reports it |
| Rollback.UndoErrorReported | pkg/publisher/rollback.go:33-50 | An undo that failed, a removal's apart, failed on a fault it met itself |
| Rollback.UndoTimedOut | pkg/publisher/rollback.go:29-66 | An undo's error is a deadline exactly if a fault it met is one |
| Rollback.RunTimedOut | pkg/publisher/advertisementpublisher.go:121-131 | Some undo of a run reports a deadline exactly if the faults of the run hold one |
| Rollback.NewestFirstIsExact | pkg/publisher/advertisementpublisher.go:117-136 | Newest first, undoing any sequence of generations returns the tables to their start, however keys repeat |
| Rollback.CleanRunIsExact | pkg/publisher/advertisementpublisher.go:104-136 | A run of undos over a store that can fail, in which none failed, does just that |
| Rollback.CleanRunUndoes | pkg/publisher/advertisementpublisher.go:121-131 | A run in which no undo failed is the newest-first undo |
| Rollback.OldestFirstExactIff | pkg/publisher/advertisementpublisher.go:117-120 | Oldest first is exact if and only if each key's newest generation found what the first did |
| Rollback.OldestFirstCanFail | pkg/publisher/advertisementpublisher.go:117-120 | Two generations of one context ID for which oldest first is wrong and newest first right |
| Rollback.ForgetOutcome | pkg/publisher/rollback.go:53-66 | After a run of forgetting undos each addition whose undo succeeded has no mapping, each removal's undo reports an error, and other keys are untouched |
| GenerateAds.GenerateWithUndo | pkg/publisher/generate_ad.go:40-153 | The generated advert and mappings when nothing fails, with the exact undo; refused, nothing is written; failing, each row of the one key is old or new, and the store's errors are quoted |
| GenerateAds.GenerateAd | pkg/publisher/generate_ad.go:21-38 | Atomic: its error is about the first fault, or a row missing on removal, and leaves the tables as they were or reports the one mapping not put back; it is a deadline exactly if the first fault is one from outside the store, or the undo met one; refusals wrote nothing |
| GenerateAds.ReadPrior | pkg/publisher/generate_ad.go:53-77 | What the store mapped before, read whole except for a removal of unmapped content |
| GenerateAds.UndoGeneration | pkg/publisher/generate_ad.go:32-37 | Undoing a failed generation keeps its cause, and restores the key or names it |
| GenerateAds.GenerateAddition | pkg/publisher/generate_ad.go:81-107 | The addition's mappings and advert |
| GenerateAds.GenerateRemoval | pkg/publisher/generate_ad.go:108-133 | The removal's mappings and advert; unmapped content is refused |
| GenerateAds.PutRecord | pkg/publisher/generate_ad.go:95-107 | Maps new content to its entries and any content to its metadata; failing, each row is old or new |
| GenerateAds.DeleteRecord | pkg/publisher/generate_ad.go:115-124 | Deletes both rows, failing on a fault or on a missing metadata row |
| GenerateAds.NextRecordOf | pkg/publisher/generate_ad.go:155-181 | The next record, writing entries only when there is no entries mapping |
| AdStores.AdStore.PutEntries | pkg/store/store.go:261-300 | Unless something fails, the link and blocks of chunking, for every chunk size and inline limit, through one reused buffer |
| AdStores.AdStore.FlushFullChunks | pkg/store/store.go:265-281 | Every chunk but the last is written, full, linked to the one before; the last is in the buffer |
| AdStores.AdStore.TakeNext | pkg/store/store.go:267-281 | One multihash more: the buffer is written out first exactly if it is full |
| AdStores.AdStore.Flush | pkg/store/store.go:270-277 | One more chunk behind those flushed |
| AdStores.AdStore.ReadEntries | pkg/store/store.go:302-326 | Terminates from any link; yields exactly the multihashes of a whole chain unless something fails, and otherwise those of the chunks met up to the fault, or up to a block that is missing or no chunk |
| AdStores.AdStore.PutThenRead | pkg/store/store.go:261-326 | Unless something fails, entries that were put read back as the same multiset, and as the same sequence when they fit one chunk |
| AdStores.AdStore.GetBlock | pkg/store/store.go:463-489 | The stored block, or the one an identity link carries, for which no read can fail |
| AdStores.AdStore.Encode | pkg/store/store.go:328-340 | Serves the block a link stands for; an inlined link is never missing |
| AdStores.AdStore.PutBlock | pkg/store/store.go:419-429 | Stores a block under its own link and loses none |
| AdStores.AdStore.ReplaceHead | pkg/store/store.go:361-381 | The compare-and-swap of the head: without a fault it succeeds exactly if the head is the expected one, and answers that the precondition failed if not; failing, it has moved the head only if the fault is of the write itself, and the store allows that |
| AdStores.AdStore.Head | pkg/store/store.go:342-349 | The head, or that there is none |
| Entries.EntriesRoundTrip | pkg/store/store.go:264-326 | Reading what was written meets exactly the written chunks, newest first |
| Entries.ReadBackContents | pkg/store/store.go:264-326 | The same multiset always, and the same sequence when it fits one chunk |
| Entries.ChunkShape | pkg/store/store.go:264-300 | No link exactly for no entries; inlined exactly within both limits; otherwise ceil(n/c) chunks, none empty, all but the last full |
| Entries.SplitShape | pkg/store/store.go:267-281 | The number and sizes of the chunks |
| Entries.SplitFlattens | pkg/store/store.go:267-296 | Chunking loses, adds and reorders nothing |
| Entries.SplitOneMore | pkg/store/store.go:268-279 | One more multihash fills the last chunk or starts another |
| Entries.BufferedStep | pkg/store/store.go:267-281 | The delayed flush keeps the buffer and the flushed chunks those of the multihashes taken |
| Entries.BufferedEnd | pkg/store/store.go:282-296 | Inlining or flushing the buffer at the end gives the meaning's link and blocks |
| Entries.InliningUnobservable | pkg/store/store.go:261-263 | Two inline limits are indistinguishable through reading |
| Entries.InlinedBytesAreStoredBytes | pkg/store/store.go:328-331 | An inlined link serves the block that a stored chunk would hold |
| Entries.ChunksReadBack | pkg/store/store.go:302-326 | Written chunks form an EntryChunk chain that reads them back, with everything behind them stored |
| Entries.ReachedStuck | pkg/store/store.go:306-315 | A walker that cannot go on has met a prefix, and there is no whole chain if the block is missing or no chunk |
| Entries.ReachedStep | pkg/store/store.go:305-324 | The walker's invariant |
| Entries.WalkOn | pkg/store/store.go:305-324 | A walk from the root goes on by the chunk it stands on |
| Ipld.ChainAcyclic | pkg/store/store.go:419-429 | No walk of a stored chain meets a link twice |
| Ipld.EveryWalkEnds | pkg/store/store.go:302-326 | In a store written back to front every entries walk stops, from any link |
| Ipld.EntriesChainUnique | pkg/store/store.go:302-326 | A link has one EntryChunk chain |
| Ipld.AdvertChainUnique | pkg/publisher/advertisementpublisher.go:161-180 | A head has one chain |
| Ipld.PutAllCommutes | pkg/store/store.go:419-429 | The order of content-addressed writes cannot be observed |
| Ipld.PutGrounded | pkg/store/store.go:419-429 | A block written after what it links to keeps every chain whole |
| HeadProtocol.NoAdvertIsLost | pkg/store/store.go:121-129 | Over any interleaving of publishers that fail and crash, every head's chain is stored and extends every earlier head's |
| HeadProtocol.StepExtends | pkg/store/store.go:361-381 | Every step keeps the invariant, loses no block and at most extends the chain |
| HeadProtocol.StaleSwapFailsExactly | pkg/store/store.go:127-129 | Without a fault a swap answers that the precondition failed exactly if the read was stale, and publishes if not; a stale one moves nothing and is told of an error whatever it meets |
| HeadProtocol.AcknowledgedStays | pkg/publisher/advertisementpublisher.go:160-192 | Acknowledged adverts are on every later head's chain, in front of what they were published on, with the fields their publisher drafted and its signature; the head they got is signed by it, for its topic |
| HeadProtocol.OneWinner | pkg/store/store.go:121-129 | Of publishers that read the same head at most one is acknowledged |
| HeadProtocol.HeadNeverReturns | pkg/store/store.go:559-592 | A head is the same at two moments exactly when it did not move between them |
| HeadProtocol.SwapMoves | pkg/store/store.go:361-381 | A successful swap really changes the head |
| DatastoreHeads.DsStoreAdapter.Replace | pkg/store/store.go:559-592 | A conditional write of bytes: without a fault it fails, with a failed precondition, exactly if the comparison does |
| DatastoreHeads.DsStoreAdapter.ReplaceHead | pkg/store/store.go:361-381 | Over bytes it is the compare-and-swap of heads, and touches no other key |
| DatastoreHeads.HeadsCompareAsBytes | pkg/store/store.go:368-376 | Comparing encodings is comparing heads |
| DatastoreHeads.PassesIsEqualityIff | pkg/store/store.go:571-584 | The comparison is equality of optional values but for a stored empty value and no expectation |
| Consistency.RunsStayConsistent | pkg/publisher/publisher.go:76-81 | Over any run of publishes and batches that fail in any way they may, each key that no failure named, or moved the head on, is mapped as its newest advert on the chain says |
| Consistency.FailedPublishIsStep | pkg/publisher/publisher.go:76-80 | The failures of runs are the failures of publishing |
| Consistency.StepAgrees | pkg/publisher/publisher.go:67-84 | One call, however it ends, keeps the agreement of every key it does not disturb |
| Consistency.PublishOneKeepsConsistent | pkg/publisher/generate_ad.go:79-133 | An addition or removal keeps chain and tables in agreement |
| Consistency.PublishAllKeepsConsistent | pkg/publisher/batch.go:106-116 | So does a batch |
| Consistency.UnreportedHeadMoveExact | pkg/publisher/batch.go:192-194 | After an unacknowledged head write and an undo, chain and tables agree exactly if every context ID of the batch was mapped with its last spec's metadata |
| Consistency.UnreportedHeadMoveCanDisagree | pkg/publisher/batch.go:192-194 | One spec in a new store for which they do not |
| Consistency.TablesUnchangedIff | pkg/publisher/batch.go:54-76 | A batch changes no mapping exactly if the tables carry it already |
| Consistency.CleanFailureExact | pkg/publisher/publisher.go:76-80 | A failure that names no mapping leaves the tables as they were, and chain and tables in agreement exactly if the head is the one it was or the batch was carried already; and the store as it was unless the head may have moved |
| Consistency.RetriedBatchIsTransparent | pkg/publisher/publisher.go:76-81 | After any number of failed batches that may not have moved the head, each of which left the store as it was, a success leaves the tables, head and chain of that success alone |
| Consistency.RetriedBatchHeals | pkg/publisher/publisher.go:76-81 | After any number of failed batches, heads moved unacknowledged among them, a success leaves the tables it would have at once, and chain and tables in agreement |
| Consistency.RetryHeals | pkg/publisher/publisher.go:76-80 | The same batch again brings chain and tables back into agreement, with every advert of it on the chain twice |
| Consistency.PublishAllAccounted | pkg/publisher/batch.go:54-116 | Whether or not they agreed before, a batch's adverts account for every change it makes to the tables |
| Consistency.RunsStayServable | pkg/store/store.go:302-326 | Over any run, failing in any way it may, the entries of every mapped key and of every advert on the chain can be read back, those of rows that could not be put back included |
| Consistency.RunsAreSigned | pkg/publisher/advertisementpublisher.go:160-188 | Over any run, failing in any way it may, every advert on the chain is signed with the publisher's key, and so is the head, for the publisher's topic |
| Consistency.FreshAdvertCarriesContent | pkg/publisher/generate_ad.go:84-103 | A first advert's entries read back as the content's multihashes, and it is mapped to them |
| Consistency.NewContentInOrder | pkg/publisher/batch.go:54-100 | A batch of new content becomes one signed advert a spec, in order, each with the provider's addresses, its own spec's context ID and metadata, and entries that read back as its multihashes |
| QueueDelivery.DeletedJobsWereDelivered | pkg/queue/poller.go:272-307 | Over whole runs every deleted advert job timed out or its advert is on the chain from the current head |
| QueueDelivery.AdvertisementPoller.HandleBatch | pkg/queue/poller.go:272-307 | A batch is deleted exactly if it met no fault, or its first was a deadline exceeded anywhere but in reading the head, or an undo exceeded one; otherwise released; nothing stays pending; what is deleted was delivered or timed out, and the adverts of a batch without a fault are on the chain, signed |
| QueueDelivery.AdvertisementPoller.Handle | pkg/queue/queue.go:62-75 | All jobs share the commit's error, with exactly the undos that failed; failing, the head is as it was unless the first fault is of writing it |
| QueueDelivery.FailedAdvertsOutcome | pkg/publisher/advertisementpublisher.go:65-102 | A failed commit of queued adverts names every removal; every addition it does not name is unmapped and can be generated again; it names nothing else, and other keys are untouched |
| QueueDelivery.FailedBatchIsDeletedIff | pkg/queue/poller.go:282-298 | A failed batch is deleted exactly if its first fault was a deadline exceeded anywhere but in reading the head, or an undo met one |
| QueueDelivery.UndoTimeoutLosesAdvert | pkg/queue/poller.go:294-303 | An advert deleted from the queue that is on no chain, though its commit did not time out: both deletes of its undo did |
| QueueDelivery.AppendDelivers | pkg/queue/queue.go:62-75 | Every advert of a committed batch is on the chain, signed, under a signed head |
| QueueDelivery.AdvertisementQueuePublisher.Publish | pkg/queue/queue.go:123-129 | Queues the generated advert; or nothing, refused or failing on a fault with the tables restored or the key named, the error being a deadline exactly if the faults make it one; or, when queueing fails, leaves the mappings and at most that advert queued |
| QueueDelivery.UnqueuedIsRefusedIff | pkg/queue/queue.go:123-129 | Unqueued content is refused, over any later attempts, exactly as long as they leave it mapped with its metadata; undoing its mappings is what would help |
| JobQueues.Settle | pkg/queue/poller.go:281-304 | Each job is released or deleted by its own outcome, in order, whatever the queue answers; and all that are to be deleted are if the queue does not fail |
| JobQueues.SettleOne | pkg/queue/poller.go:216-244 | The same for the handler of single jobs |
| PublishingJobs.PublishingPoller.HandleBatch | pkg/queue/poller.go:272-307 | With distinct job IDs each job is deleted exactly if its own turn published it or faults made its error a deadline, and released if not; every deleted job is announced on the chain, or timed out |
| PublishingJobs.PublishingPoller.PublishJobs | pkg/queue/queue.go:101-110 | The jobs are tried one by one, each published, refused, or failing on its own faults; an ID has an error exactly if a job with it failed, and then that of the last that did |
| PublishingJobs.PublishingPoller.PublishJob | pkg/queue/queue.go:52-54 | One job is published exactly if no fault is met and it is not refused; otherwise its error says which, and is a deadline exactly if the faults make it one |
| PublishingJobs.ErrorsByIDExact | pkg/queue/queue.go:101-110 | An ID is in the error map exactly if some turn with it failed, and then with the error of the last such turn |
| PublishingJobs.OwnOutcome | pkg/queue/queue.go:101-110 | With distinct IDs the map holds for each job the outcome of its own turn |
| PublishingJobs.CallsOfBatch | pkg/queue/poller.go:282-303 | The call made for a job of a batch is to delete it exactly if its turn succeeded or faults made its error a deadline |
| PublishingJobs.FailedJobIsDeletedIff | pkg/queue/poller.go:282-298 | A publishing job that failed is deleted exactly if its first fault was a deadline exceeded in writing adverts, comparing or writing the head, or outside the store, or its undo met one; a job that times out in the entries, the mappings or reading the head is released |
| PublishingJobs.RedeliveredJobIsReleased | pkg/queue/poller.go:282-303 | A published job that was not deleted is refused at a later turn exactly if the attempts since left its content mapped with its metadata, and then is released unless it times out |
| PublishingJobs.TurnsAreAttempts | pkg/queue/queue.go:103-108 | The earlier turns of a batch are such attempts, however they ended |
| PublishingJobs.PublishAnnounces | pkg/queue/queue.go:52-54 | A publish that is not refused announces the job's content |
| Refusals.RefusedIff | pkg/publisher/generate_ad.go:161-169 | In any state an addition is refused exactly if its content is mapped with its metadata |
| Refusals.RefusedAfterIff | pkg/publisher/generate_ad.go:161-169 | Refused content stays refused over any run of attempts, that publish, fail cleanly, or cannot be undone, exactly as long as they leave it mapped with its metadata |
| Refusals.RunHolds | pkg/publisher/generate_ad.go:161-181 | What a run of attempts leaves a key holding |
| Refusals.WholeAttempts | pkg/publisher/generate_ad.go:161-169 | When every attempt published or failed cleanly, content is kept exactly if the last that published, if any, advertised its metadata |
| Notifications.NotificationsAreTheHistory | pkg/notifier/notifier.go:76-94 | Over any run with failures and restarts, if failed writes leave the old head, the cached head is the persisted one and notifications lead to it without gap or stutter |
| Notifications.RunsAreGapless | pkg/notifier/notifier.go:76-94 | The same with unacknowledged writes, as long as no restart follows one |
| Notifications.RestartKeepsGaplessIff | pkg/notifier/headstate.go:24-45 | A restart opens a gap exactly when the cached head is not the persisted one |
| Notifications.NotifiedAreAcknowledged | pkg/notifier/notifier.go:85-91 | The notified heads are those whose write was acknowledged, in order |
| Notifications.EveryChangeIsNotified | pkg/notifier/notifier.go:76-116 | When no write fails, over any run, the notifications are exactly the fetched heads that are not the one before them, each with that as its previous head; the last fetched is cached and persisted |
| Notifications.MissedSync | pkg/notifier/notifier.go:116-120 | A sync that is never notified |
| Notifications.Notifier.Update | pkg/notifier/notifier.go:76-94 | A fetched head without a fault is cached, and notified to every subscriber with the head cached before exactly if it is another, being persisted then; it answers whether it did so. It fails exactly if the fetch or the write does, and then caches and notifies nothing |
| Notifications.HeadState.Set | pkg/notifier/headstate.go:51-58 | Persists and then caches; failing, on a fault, keeps the cache |
| Notifications.NewHeadState | pkg/notifier/headstate.go:24-45 | Caches what is persisted, or fails |

## Left out

- Announcing to indexers, the HTTP server, the tiered finder, `directoryStore`, `ShardCID` and `urlToRegex`.
- The metadata codec, signatures, and the CID, multihash, DAG-CBOR and DAG-JSON byte formats: deterministic, injective and round-tripping here. Peer IDs and addresses are strings; an advert whose provider cannot be decoded is one way an undo fails.
- Contexts and timeouts: exceeding a deadline is one more error. The undo's own context is not modelled.
- The job queue library, its concurrency and `processJobs`: handler calls are one after the other.
- Custom `BatchStore` implementations: only the default one is modelled. `CommitBatch` is proved for any expected head, stale ones included.
- Interference inside `Publish` and `PublishBatch`: documented as unsafe. Races are modelled as steps, in `HeadProtocol`, for the chain and not for the mappings.
- Error messages and the number of `%w` wrappings between an error and its sentinel.
- The time of the last sync, which `Notifier.Update` returns beside its answer.
- A consumer that stops reading entries early.
- The retry of an advert job after it was released: its mappings were dropped while its advert is committed again, so no agreement of chain and tables is claimed for queued adverts.
