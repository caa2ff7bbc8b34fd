# Kasane chain state, verified

Kasane is an EVM chain that keeps all of its state in stable maps of an Internet Computer canister. Many of its
promises are about several maps at once and about whole runs. This project models those parts and proves them:

- **Mempool.** A dozen maps describe one set of pending transactions. They agree in every state that submission,
  replacement, eviction, block production, base-fee changes, pruning and index rebuilding reach; each sender has at most
  one pending transaction, at its expected nonce; submission is all or nothing, and its answer is one table over the bid
  and what is pending; and a transaction is included twice by some run exactly when it carries the last nonce.
- **Blob arena and ledger.** The size-class allocator is tiled and conserved over any run; stored data reads back until
  it is freed and never afterwards; Used slots and the pointers of blocks, receipts, index entries and traces correspond
  one to one, and each reads what was stored under its key until the block is pruned; prune's reclaim error is
  unreachable; and interrupted pruning, called again often enough, ends where an
  uninterrupted prune ends.
- **Retention.** The search by timestamp finds the greatest block at or before the cutoff; pruning keeps every block
  within all limits that are set, only the head under a size trigger, and everything when no limit is set.
- **Resumable readers.** Any sequence of cuts of the block export and of the log pages yields one and the same stream.
- **Dispatch.** Over any run of the chain and the ICP update queue together, with ticks, answers, stale repairs,
  upgrades, trims and prunes, a request is dispatched at most once unless its transaction carries the last nonce, one
  tick is alive at a time, and every stored request carries exactly what the last answer for it reported.
- **Call traces.** The stack-machine inspector equals the recursive preorder of the call tree.
- **Selection and codecs.** The bounded heap equals sort-and-truncate; encoders and decoders undo each other.

## Structure

Each component comes as a module of pure functions (what an operation does to the maps), modules of lemmas about these
functions, and, where the source updates maps in place, a class whose methods do the same updates and are proved equal
to the functions. The `*Meaning` modules say what the functions answer and write in plain fields and literal limits,
without naming them.

| files | content |
|---|---|
| `Common.dfy`, `Types.dfy`, `Wire.dfy` | limits and saturating arithmetic; ids and fee arithmetic; bytes |
| `BlobStore.dfy`, `BlobMeaning.dfy`, `BlobArena.dfy` | the arena; its answers field by field; class `Store` |
| `Mempool.dfy`, `MempoolInv.dfy`, `MempoolSafe.dfy`, `SubmitMeaning.dfy`, `MempoolRun.dfy`, `RecordsRun.dfy`, `MempoolHistory.dfy`, `MempoolReplay.dfy`, `MempoolState.dfy` | the queue maps; agreement on any pending set; the invariant of reachable states; what a submission answers and writes; blocks, pruning, rebuilding and runs; the dropped ring and the hash index over runs; what is included; runs that show the exceptions; class `Maps` |
| `Ledger.dfy`, `Prune.dfy`, `PruneSpec.dfy`, `PruneRecovery.dfy`, `PruneProgress.dfy`, `PruneReuse.dfy`, `PruneReplay.dfy`, `Retention.dfy` | slot ownership and commits; pruning and recovery; what they do; interrupted runs; costs, stalls and reaching the end; recovery after a store in between; a reachable chain where it fails; retention by age |
| `ChainRun.dfy`, `LedgerReads.dfy`, `ChainHistory.dfy`, `BlockCodec.dfy`, `ChainReplay.dfy`, `ChainState.dfy` | mempool and ledger together over whole runs; what the stored pointers read; what runs commit; a block codec; the run that commits twice; class `State` |
| `Dispatch.dfy`, `DispatchSafe.dfy`, `DispatchMeaning.dfy`, `DispatchCount.dfy`, `DispatchState.dfy` | the update queue; its invariant; what each step writes and what a stored request tells; how often a request is dispatched over any run; class `Worker` |
| `DispatchChain.dfy`, `DispatchReplay.dfy` | chain and update queue together; the run that dispatches twice |
| `Export.dfy`, `ChainExport.dfy`, `Logs.dfy` | block export; the export of the stored chain without a cursor; log paging |
| `Tracer.dfy`, `TracerState.dfy` | the inspector and the call tree; class `InternalTraceInspector`, trace id text |
| `TopK.dfy`, `TxCodec.dfy`, `IntentCodec.dfy`, `CodecMeaning.dfy` | candidate selection; transaction and intent codecs; the codecs byte by byte |

A transaction id is a hash, so it stands for what it hashes: `TxId` carries the kind, sender and nonce, and a request id
its transaction and log index. A stored payload is `Good` with its fields or `Corrupt`. The EVM outcome, the clock, the
account nonce, whether memory grows, the answers of remote calls and the moments of interruption are parameters. Block
bytes go through an abstract codec that decodes what it encodes. The runs that show an exception also need it to keep
the few small blocks they make within an arena slot; `BlockCodec` has a codec that does, for every transaction, and the
results are also stated without naming one. Heights, timestamps and queue numbers are taken below `u64::MAX`, where the
source saturates; the nonce is not: what happens at nonce `u64::MAX` is part of the results.

## Results that differ from what one would expect

- `MempoolReplay.IncludedTwiceIff`, `ChainReplay.SomeChainCommitsTwiceIff`,
  `DispatchReplay.SomeSystemDispatchesTwiceIff`: at nonce `u64::MAX` the expected nonce does not move, so once its block
  is pruned the same transaction is accepted again. A transaction can be included twice, committed in two blocks, or have
  a request dispatched twice exactly when it carries that nonce.
- `DispatchCount.RedispatchIff`: the only guard against a second dispatch is that the request is still stored, and
  trimming removes it. A request named again by a block is dispatched again exactly when it was trimmed in between;
  `DispatchCount.OncePerRecord` bounds dispatches by recordings over any run.
- `PruneReuse.ReuseStopsRecovery`: recovery assumes that nothing was stored since the interruption. It reports an error
  exactly when a blob stored in between took one of the slots already reclaimed; `FirstStoreStopsRecovery` gives a whole
  family of inputs, `PruneReplay.SomeRecoveryStops` a run of the chain that ends in one, and `RecoverSucceedsIff` the
  condition whatever happened in between.
- `PruneProgress.StallsIff`: a prune call with blocks left to prune releases none exactly when the oldest one costs more
  operations than the whole budget, so such a budget never gets anywhere.
- `MempoolRun.ForgetInv`, `MempoolReplay.CountFallsBelow`: pruning decrements the per-principal count of an included
  transaction a second time, so the count falls below the number pending; it stays right exactly when the principal has
  nothing pending. Any two transactions of one principal from two senders show it.
- `IntentCodec.AllowKeyUniqueIff`: the length byte of the allow-list key is taken modulo 256, so a key belongs to one
  pair only when target and method are shorter than 256 bytes, as principals and accepted methods are.
- `ChainExport.DefaultCursorIff`: a call of the export without a cursor is promised to start at the oldest exportable
  block (docs/specs/indexer-v1.md:105), but the code starts it at block 0 when nothing was pruned
  (crates/evm-core/src/export.rs:60-70), which is never stored. Over a settled chain with readable blocks it succeeds
  exactly when the recorded boundary is the block before the oldest stored one; `UnprunedExportFails` is the failing
  input. The model follows the code.
- Recovery after a stop in the drain finds the block already gone and leaves `pruned_before_block` where it was; the
  next sweep moves it. The invariant of the ledger allows for that lag, and the export without a cursor fails while it
  lasts.

## Model

| member | source | states |
|---|---|---|
| BlobStore.SmallestClassFits | crates/evm-db/src/blob_store.rs:186-195 | the chosen size class holds the data and wastes less than half of itself, except the smallest one |
| BlobStore.AllocateSpec | crates/evm-db/src/blob_store.rs:186-236 | allocation keeps the arena tiled and counted, reuses a Free slot one generation later or grows only when no Free slot of the class exists, listed or not; its two defensive slot errors cannot happen; a failure changes no slot |
| BlobStore.WriteSpec | crates/evm-db/src/blob_store.rs:268-286 | a write succeeds exactly on a Used slot of the pointer's generation with data of its length, then reads back, and changes no byte outside the slot |
| BlobStore.StoreSpec | crates/evm-db/src/blob_store.rs:238-242 | storing is all or nothing: a fresh pointer that reads back the data and no other slot changed, or every slot as before |
| BlobStore.StepInv | crates/evm-db/src/blob_store.rs:186-388 | every operation keeps slots tiling the arena without overlap and running totals equal to the full scan, although pruning reclaims without listing the slot free |
| BlobStore.RunInv | crates/evm-db/src/blob_store.rs:186-388 | the same over any run: used, quarantined and free bytes always sum to the arena end |
| BlobStore.ReadOfLive | crates/evm-db/src/blob_store.rs:244-266 | a pointer reads exactly while it is live, and then yields its own bytes |
| BlobStore.StoredDataReadsBack | crates/evm-db/src/blob_store.rs:238-286 | a stored pointer reads exactly its data through any run of operations on other slots |
| BlobStore.DeadForever | crates/evm-db/src/blob_store.rs:186-266 | a freed or superseded pointer never reads again over any run, and is never handed out again |
| BlobStore.FreedNeverReads | crates/evm-db/src/blob_store.rs:316-388 | once either way of freeing accepts a pointer no later run reads it, even when its slot is reused |
| BlobMeaning.SizeClassMeans | crates/evm-db/src/size_class.rs:25-36 | the class is the least of the ten powers of two from 8 KiB to 4 MiB that holds the length; there is none exactly for nothing and for more than 4 MiB |
| BlobMeaning.GrowthMeans | crates/evm-db/src/blob_store.rs:421-446 | memory grows to the least whole number of 64 KiB pages that is needed and only when needed, with zeros; it fails exactly when more is needed and refused |
| BlobMeaning.AllocateMeans | crates/evm-db/src/blob_store.rs:186-236 | a free slot of the class is reused before the arena grows, the lowest listed one first and else the lowest free one, one generation on; a new slot starts at the arena's end with generation one; which failure reports which error |
| BlobMeaning.QuarantineMeans | crates/evm-db/src/blob_store.rs:288-314 | only a used slot of the pointer's generation goes into quarantine; which other state answers what |
| BlobMeaning.FreeMeans | crates/evm-db/src/blob_store.rs:316-349 | a slot gets onto the free list from quarantine only; a used one is refused |
| BlobMeaning.ReclaimMeans | crates/evm-db/src/blob_store.rs:351-388 | pruning frees a used or quarantined slot without listing it; a freed one is left alone |
| BlobMeaning.ReadMeans | crates/evm-db/src/blob_store.rs:244-266 | a read yields the pointer's bytes exactly under the slot's generation while it is not free; which failure reports which error |
| BlobMeaning.WriteMeans | crates/evm-db/src/blob_store.rs:268-286 | a write puts the data at the pointer's offset, byte by byte, changes no other byte, and needs the slot in use and the exact length |
| BlobArena.Store.constructor | crates/evm-db/src/blob_store.rs:170-184 | opening a store sets the running totals to the scan of the table |
| BlobArena.Store.Allocate | crates/evm-db/src/blob_store.rs:186-236 | the in-place allocation equals the specified one |
| BlobArena.Store.StoreBytes | crates/evm-db/src/blob_store.rs:238-242 | the in-place store equals the specified one and keeps the invariant |
| BlobArena.Store.Read | crates/evm-db/src/blob_store.rs:244-266 | reading succeeds exactly on live pointers |
| BlobArena.Store.Write | crates/evm-db/src/blob_store.rs:268-286 | the in-place write equals the specified one |
| BlobArena.Store.MarkQuarantine | crates/evm-db/src/blob_store.rs:288-314 | the in-place quarantine equals the specified one |
| BlobArena.Store.MarkFree | crates/evm-db/src/blob_store.rs:316-349 | the in-place free equals the specified one |
| BlobArena.Store.ReclaimForPrune | crates/evm-db/src/blob_store.rs:351-388 | the in-place reclaim equals the specified one |
| BlobArena.First | crates/evm-db/src/blob_store.rs:396-411 | the range scan finds the lowest offset of the class |
| BlobArena.ScanUsageTotals | crates/evm-db/src/blob_store.rs:448-474 | the scan's totals are the byte sums per state |
| Types.EffectiveGasPrice | crates/verified-core/src/fee.rs:12-22 | a price is at most the maximum fee and at most base fee and tip together, equals one of the two, covers the base fee and fits 64 bits; there is none exactly when the bid cannot pay the base fee, the priority exceeds the maximum, or the price does not fit |
| SubmitMeaning.FeeCheckMeans | crates/verified-core/src/fee.rs:32-54 | a bid with a tip passes exactly when what it pays covers the base fee and the least tip, one without exactly when it offers the least gas price |
| SubmitMeaning.SubmitVerdict | crates/evm-core/src/chain.rs:820-1030 | the answer to every submission, from first check to last, in the fields of the bid and of what is pending: rate limit, size, decoding, seen, fees, nonce low or gap, outbidding the pending one, the principal's cap of 32, room among 8192 or someone cheaper |
| SubmitMeaning.HigherBidReplaces | crates/evm-core/src/tx_submit.rs:42-69 | a bid strictly higher in both maximum and tip than the sender's pending one, capped or not, replaces it |
| SubmitMeaning.AcceptedMeans | crates/evm-core/src/chain.rs:887-917 | what an acceptance writes under the newcomer's keys in every map, at most one transaction gone for it with drop code 6, every other pending transaction as it was |
| SubmitMeaning.RefusedMeans | crates/evm-core/src/chain.rs:820-1030 | a refusal changes nothing, except that one past the first checks leaves the account's nonce as its sender's first expected nonce |
| MempoolInv.AdvanceCore | crates/evm-core/src/chain.rs:3062-3134 | advancing past any pending transaction, with any number of nonces per sender, keeps the sender/nonce maps inverse, the three ready views and two fee views in agreement, and the ready transaction the one at the recorded minimum |
| MempoolInv.RefillDropsLeadingRun | crates/evm-core/src/chain.rs:3090-3168 | the refill terminates on any consistent pending set, drops exactly the leading run of unreadable successors, with code 1 for a payload that does not decode and 5 for a missing one, and leaves the next readable one ready, or clears the minimum |
| MempoolSafe.AdvanceSingle | crates/evm-core/src/chain.rs:3062-3134 | in reachable states advancing drops nothing besides the transaction itself |
| MempoolSafe.DropInv | crates/evm-core/src/chain.rs:3136-3168 | dropping a pending transaction removes it from every queue map and keeps the invariant |
| MempoolSafe.IncludeInv | crates/evm-core/src/chain.rs:1631-1642 | including a pending transaction removes it from every queue map, moves its sender's nonce on and keeps the invariant |
| MempoolSafe.ReplaceIsDrop | crates/evm-core/src/chain.rs:3302-3319 | replacing the sender's pending transaction leaves the maps as dropping it would |
| MempoolSafe.AcceptInv | crates/evm-core/src/chain.rs:887-917 | the bookkeeping of an accepted submission keeps the invariant and the exact principal counts |
| MempoolSafe.AcceptCore | crates/evm-core/src/chain.rs:2823-2865 | with any number of nonces pending per sender an acceptance keeps the maps in agreement: below all of them it becomes the ready one and the one that was waits, otherwise it waits |
| MempoolSafe.LowestIsMinimal | crates/evm-core/src/chain.rs:2913-2936 | the first entry of the fee index is a pending transaction whose effective price at the current base fee no other underbids, the lowest id among equals |
| MempoolSafe.CapsSpec | crates/evm-core/src/chain.rs:2867-2900 | with the pool full, room is made only by evicting a lowest bid strictly below the newcomer's; otherwise the error leaves the pool alone |
| MempoolSafe.SubmitSpec | crates/evm-core/src/chain.rs:820-1030 | submission keeps the invariant; an error changes nothing but the cached expected nonce; acceptance is at the expected nonce and pushes out one lower bid or none; the conflict error reports only a pending transaction that was not outbid, so the late conflict check never fires |
| MempoolRun.ApplyDropsInv | crates/evm-core/src/chain.rs:1567-1576 | a block's staged drops keep the invariant and leave its inclusions pending |
| MempoolRun.ApplyIncludesInv | crates/evm-core/src/chain.rs:1621-1652 | a block's inclusions keep the invariant and give each its block and place |
| MempoolRun.NewBaseFeeInv | crates/evm-core/src/chain.rs:2970-3001 | rebuilding the fee index for a new base fee refiles every pending transaction at its new effective price and keeps the invariant |
| MempoolRun.CommitBlockInv | crates/evm-core/src/chain.rs:1566-1668 | a whole block keeps the invariant, exact counts and the seen ids, puts each inclusion at its place and sets the next base fee |
| MempoolRun.ForgetInv | crates/evm-core/src/chain.rs:2515-2525 | pruning an included transaction keeps the invariant; the principal count stays exact exactly when that principal has nothing pending |
| MempoolRun.RebuildRuntimeSpec | crates/evm-core/src/chain.rs:423-468 | rebuilding the runtime indexes repairs the principal counts, changes nothing else, and is the identity exactly when the counts were right |
| MempoolRun.RunInv | crates/evm-core/src/chain.rs:820-1030 | every state reached by submissions, blocks, prunings and rebuilds satisfies the invariant (maps agree, one pending per sender at its expected nonce, pending exactly when Queued with a readable payload, fee index at current prices, stored counts at most the true ones, global cap); without pruning, rebuilding is the identity |
| RecordsRun.PurgeMeans | crates/evm-core/src/chain.rs:3321-3354 | a drop enters the ring under the next number, its location reads its code, its payload and hash go; a ring of a thousand lets its oldest entry go, and only that transaction can lose its location |
| RecordsRun.RunRecordsOk | crates/evm-core/src/chain.rs:3321-3354 | in every state a run reaches before the drop counter runs out, the ring names exactly the last drops and every transaction that reads Dropped, and the hash index lists exactly the stored Ethereum transactions |
| MempoolHistory.IncludedOnce | crates/evm-core/src/tx_submit.rs:42-89 | over any run, pruning included, no transaction is included twice and each sender's included nonces are consecutive from its first expected nonce, except at nonce `u64::MAX` |
| MempoolReplay.IncludedTwiceIff | crates/evm-core/src/tx_submit.rs:81-89 | some run includes a transaction twice exactly when its nonce is `u64::MAX` |
| MempoolReplay.CountFallsBelow | crates/evm-core/src/chain.rs:3009-3027 | for any two transactions of one principal from different senders, a run after which one is pending and the principal counts as having none |
| MempoolState.Maps.AdvanceSenderAfterTx | crates/evm-core/src/chain.rs:3062-3134 | the loop with its mutual recursion equals the specified advance |
| MempoolState.Maps.DropInvalidFeePending | crates/evm-core/src/chain.rs:3136-3168 | the helper equals the specified drop |
| MempoolRun.IncludeStep | crates/evm-core/src/chain.rs:3290-3300 | a transaction leaving the queue by inclusion held its sender's expected nonce, which moves on by one; nothing else pending is touched and its location is the block's place |
| MempoolState.Maps.NextPendingForSender | crates/evm-core/src/chain.rs:3220-3237 | the range scan finds the sender's least later nonce |
| MempoolSafe.PendingLoads | crates/evm-core/src/chain.rs:3239-3263 | the fee fields and arrival number of every pending transaction load, as the ready view has them, except under the last number; a dropped one never loads |
| MempoolState.Maps.ReplacePendingForSender | crates/evm-core/src/chain.rs:3302-3319 | equals the specified replacement |
| MempoolState.Maps.ApplyNonceAndReplacement | crates/evm-core/src/tx_submit.rs:16-69 | equals the specified nonce and replacement rule |
| MempoolState.Maps.EnforcePendingCaps | crates/evm-core/src/chain.rs:2867-2900 | equals the specified cap check with eviction |
| MempoolState.Maps.EvictLowestFeePending | crates/evm-core/src/chain.rs:2913-2936 | drops the first entry of the fee index when the newcomer outbids it, and changes nothing otherwise |
| MempoolState.Maps.CountPendingForSender | crates/evm-core/src/chain.rs:2938-2949 | the range count is the number of the sender's pending slots |
| MempoolState.Maps.LowestFeeKey | crates/evm-core/src/chain.rs:2913-2936 | the first fee key is the least by price, then id |
| MempoolState.Maps.PromoteIfNextNonce | crates/evm-core/src/chain.rs:2823-2865 | equals the specified promotion |
| MempoolState.Maps.SubmitTx | crates/evm-core/src/chain.rs:820-1030 | the in-place submission equals the specified one and keeps the invariant |
| MempoolState.Maps.MarkDroppedAndPurgePayload | crates/evm-core/src/chain.rs:3321-3335 | equals the specified purge |
| MempoolState.Maps.PushDroppedRing | crates/evm-core/src/chain.rs:3337-3354 | equals the specified ring push with its eviction |
| MempoolState.Maps.RebuildPendingFeeIndexForBaseFee | crates/evm-core/src/chain.rs:2970-3001 | the rebuild loop ends with every readable pending transaction filed at its price |
| MempoolState.Maps.CommitBlock | crates/evm-core/src/chain.rs:1566-1668 | the in-place queue bookkeeping of a block equals the specified one and keeps the invariant |
| MempoolState.Maps.ForgetTx | crates/evm-core/src/chain.rs:2515-2525 | the queue side of pruning one transaction equals the specified one |
| MempoolState.Maps.RebuildPendingRuntimeIndexes | crates/evm-core/src/chain.rs:423-468 | the in-place rebuild equals the specified one; its branches for missing and undecodable payloads are unreachable |
| Ledger.StoreOwned | crates/evm-core/src/chain.rs:2165-2238 | storing for a new owner keeps Used slots and owners one to one and every other pointer's reading |
| Ledger.ReclaimOwned | crates/evm-db/src/blob_store.rs:351-388 | reclaiming an owner's slot cannot fail and releases exactly that slot for ever |
| Ledger.CommitSound | crates/evm-core/src/chain.rs:1577-1658 | a committed block adds one owned slot per pointer, is readable under its number, has a strictly later timestamp, and changes no stored block; what its pointers read is the next row |
| LedgerReads.CommitReads | crates/evm-core/src/chain.rs:1577-1653 | the block's pointer reads its encoding, each transaction's index, receipt and traces keys read that transaction's own bytes, with no traces key where there are none; the number is one up, the time the clock's or one second up |
| LedgerReads.RunKeeps | crates/evm-core/src/chain.rs:2456-2552 | over any run of submissions, blocks, ticks, prunings and rebuilds, every key of a block still stored at the end has kept its pointer and its reading |
| LedgerReads.CommittedReads | crates/evm-core/src/chain.rs:1577-1653 | after any further run the committed block loads and each of its transactions' keys reads what was staged for it, as long as the block is not pruned, and the blocks left are those from some number on |
| LedgerReads.CollectMeans | crates/evm-core/src/chain.rs:2661-2682 | a prune collects the block's pointer, then receipt, index entry and traces of one transaction after the other |
| Ledger.ReclaimAllOwned | crates/evm-core/src/chain.rs:2532-2537 | draining the collected pointers of removed keys cannot fail and releases exactly their slots |
| Ledger.DrainAgain | crates/evm-core/src/chain.rs:2642-2648 | starting a drain over after any part of it ends where one drain ends |
| Ledger.ReleaseSound | crates/evm-core/src/chain.rs:2506-2540 | pruning the first stored block meets no reclaim error and leaves a sound ledger without it |
| Prune.LoopBudget | crates/evm-core/src/chain.rs:2491-2529 | the prune loop spends at most its budget of operations and stops early only before a block that does not fit into the rest |
| PruneSpec.PruneOneSpec | crates/evm-core/src/chain.rs:2502-2540 | one turn of the prune loop succeeds and releases exactly the first stored block |
| PruneSpec.LoopSpec | crates/evm-core/src/chain.rs:2491-2541 | the prune loop meets no error and releases the oldest blocks in order, none above the bound, all of them when it runs to the end |
| PruneSpec.RefreshSpec | crates/evm-core/src/chain.rs:2701-2737 | the recorded oldest block is the first one stored |
| PruneSpec.RecoverIdle | crates/evm-core/src/chain.rs:2597-2618 | between calls recovery only normalises the cursor |
| PruneSpec.PruneBlocksSpec | crates/evm-core/src/chain.rs:2456-2552 | a prune call fails only on its limits, keeps at least the last `retain` blocks and everything readable, and with nothing remaining has pruned all up to the bound |
| PruneRecovery.RecoverInterrupted | crates/evm-core/src/chain.rs:2597-2659 | a call stopped after its journal entry, after its cursor, anywhere in the drain, or before the cursor is cleared is recovered to the block released as if it had not stopped |
| PruneRecovery.LoopSplits | crates/evm-core/src/chain.rs:2491-2541 | running the loop to a nearer bound first changes nothing |
| PruneRecovery.InterruptedRunsAgree | crates/evm-core/src/chain.rs:2456-2659 | after any number of cut and whole calls no call fails, and one with nothing remaining leaves the same maps, pool, boundary and arena as an uninterrupted prune |
| PruneProgress.InterruptedRunsEnd | crates/evm-core/src/chain.rs:2456-2659 | after any number of cut and whole calls, as many more calls as the bound is high, each with a budget of one operation and nine per transaction of any block, leave exactly what an uninterrupted prune leaves |
| PruneProgress.RepeatedReaches | crates/evm-core/src/chain.rs:2491-2552 | calls whose budgets cover each old block reach the end, a settled chain of the retained blocks, in at most as many calls as there are blocks to prune |
| PruneProgress.StallsIff | crates/evm-core/src/chain.rs:2502-2505 | a call with blocks left to prune releases nothing exactly when the oldest block alone costs more than the budget, and then reports what remains |
| PruneProgress.PrunedCostsLess | crates/evm-core/src/chain.rs:2554-2595 | releasing blocks makes no other block dearer |
| PruneProgress.TxCost | crates/evm-core/src/chain.rs:2569-2595 | a transaction costs at most nine operations, none exactly when it has no entry left, and none once its own deletes are done |
| PruneProgress.BlockCostIs | crates/evm-core/src/chain.rs:2554-2595 | a block costs exactly one operation for its own key and one for each of the nine kinds of entry its transactions have, within 64 bits |
| PruneProgress.ReportMeans | crates/evm-core/src/chain.rs:2541-2552 | what a call reports: whether the boundary moved, how many numbers up to the bound are left, and the boundary it stored |
| PruneReuse.RecoverSucceedsIff | crates/evm-core/src/chain.rs:2597-2659 | recovery succeeds exactly when there is no entry to replay or every slot the entry names still carries its recorded generation, whatever else happened |
| PruneReuse.ReuseStopsRecovery | crates/evm-core/src/chain.rs:2642-2647 | after a cut in the drain and a store, recovery reports an error exactly when the store took a slot already reclaimed |
| PruneReuse.FirstStoreStopsRecovery | crates/evm-core/src/chain.rs:2642-2647 | where no other slot of the size class is Free, the first blob stored in a class of which a slot was reclaimed makes recovery fail |
| PruneReplay.SomeRecoveryStops | crates/evm-core/src/chain.rs:2642-2647 | a run of the chain after which a prune can be cut and, with one blob stored, the recovery reports an error |
| Retention.FindsGreatest | crates/evm-core/src/chain.rs:797-818 | the binary search finds the greatest stored block at or before the cutoff, and none exactly when all are younger |
| Retention.YoungBlocksStay | crates/evm-core/src/chain.rs:771-795 | without a size trigger pruning keeps every block that is within the limit in days and among the last blocks, where these limits are set, and a finished prune keeps only those and, for days, the one before them |
| Retention.RetainCountMeans | crates/verified-core/src/prune.rs:168-193 | the retain count is 1 under a size trigger, else the least of the limits that are set, and head + 1 when none is |
| Retention.NoLimitKeepsAll | crates/verified-core/src/prune.rs:154-159 | with no block limit, no block old enough and no size trigger a prune releases nothing |
| Retention.SizeTriggerKeepsHead | crates/verified-core/src/prune.rs:169-174 | under a size trigger enough calls that cover each block leave the head block and no other |
| ChainRun.SubmitSameIncluded | crates/evm-core/src/chain.rs:820-1030 | a submission changes no included transaction's location |
| ChainRun.CommitLinked | crates/evm-core/src/chain.rs:1631-1642 | after a block, locations name the block and place of every stored transaction and of no other |
| ChainRun.ProduceSettled | crates/evm-core/src/chain.rs:1566-1668 | producing a block adds it, one number and at least one second later, to a settled chain, or a trap changes nothing |
| ChainRun.DropsOnlySettled | crates/evm-core/src/chain.rs:1320-1348 | a tick that includes nothing applies its drops, makes no block and keeps the chain settled |
| ChainRun.ChainStepSettled | crates/evm-core/src/chain.rs:1566-1668 | every operation keeps the whole chain settled |
| ChainRun.ReachedChain | crates/evm-core/src/chain.rs:1577-1653 | in every reachable state Used slots and pointers correspond one to one, every pointer reads, exactly the blocks from the first kept one to the head load, and a transaction counts as included exactly when a stored block lists it, with receipt and index stored |
| ChainHistory.StepHist | crates/evm-core/src/chain.rs:2456-2552 | each operation of the chain, pruning and a tick without a block included, is a run of the mempool that includes the same transactions |
| ChainHistory.CommittedOnce | crates/evm-core/src/tx_submit.rs:42-89 | over any run of the whole chain no transaction is committed twice and nonces follow without gap, except at nonce `u64::MAX` |
| ChainReplay.CommittedTwiceIff | crates/evm-core/src/tx_submit.rs:81-89 | with any block codec that round-trips and keeps the run's small blocks within a slot, some run of the whole chain commits a transaction twice exactly when its nonce is `u64::MAX` |
| ChainReplay.SomeChainCommitsTwiceIff | crates/evm-core/src/tx_submit.rs:81-89 | some run of some chain commits a transaction twice exactly when its nonce is `u64::MAX`, with no premise |
| ChainState.State.LoadBlock | crates/evm-core/src/chain.rs:2240-2250 | loading equals the specified lookup |
| ChainState.State.PersistBlock | crates/evm-core/src/chain.rs:1566-1668 | persisting a block in place equals the specified commit, whose stored readings `LedgerReads.CommitReads` gives, and traps exactly when that does |
| ChainState.State.CollectPtrsForBlock | crates/evm-core/src/chain.rs:2661-2682 | the loop collects the pointers of the keys a prune removes, in order |
| ChainState.State.PruneOpsNeededForBlock | crates/evm-core/src/chain.rs:2554-2567 | the counted operations equal the specified sum |
| ChainState.State.ApplyDropsOnly | crates/evm-core/src/chain.rs:1320-1343 | the in-place drops of a tick without a block equal the specified ones |
| ChainState.State.DeleteBlock | crates/evm-core/src/chain.rs:2515-2525 | the deletes equal the specified ones |
| ChainState.State.DrainPtrs | crates/evm-core/src/chain.rs:2532-2537 | the drain equals the specified one up to the first error |
| ChainState.State.PruneOneBlock | crates/evm-core/src/chain.rs:2506-2540 | one turn of the loop equals the specified one |
| ChainState.State.FindNextExistingBlock | crates/evm-core/src/chain.rs:2726-2737 | finds the least loadable block from a number on |
| ChainState.State.RefreshOldest | crates/evm-core/src/chain.rs:2701-2711 | equals the specified refresh |
| ChainState.State.FindBlockAtTimestamp | crates/evm-core/src/chain.rs:797-818 | the loop equals the specified search |
| ChainState.State.RecoverPruneJournal | crates/evm-core/src/chain.rs:2597-2659 | the in-place recovery equals the specified one |
| ChainState.State.PruneBlocks | crates/evm-core/src/chain.rs:2456-2552 | the in-place prune equals the specified one, result and state |
| DispatchSafe.TrimSpec | crates/ic-evm-gateway/src/lib.rs:5036-5069 | trimming removes only completed requests, oldest first, never below the limit, never a queue entry, and stops only at the limit or with none completed |
| DispatchSafe.RecordInv | crates/ic-evm-gateway/src/lib.rs:5001-5031 | recording a request never recorded before queues it exactly once |
| DispatchSafe.PopSpec | crates/ic-evm-gateway/src/lib.rs:5199-5243 | the pop takes the head entry into dispatch or finds nothing; its three error branches are unreachable |
| DispatchSafe.FireInv | crates/ic-evm-gateway/src/lib.rs:5336-5366 | a tick puts at most one request in dispatch and leaves one tick alive while entries wait |
| DispatchSafe.AnswerInv | crates/ic-evm-gateway/src/lib.rs:5971-5986 | an answer keeps the invariant and dispatches nothing again, whether its request was repaired or trimmed meanwhile, and leaves a tick alive while entries wait; what it stores is `DispatchMeaning.AnswerMeans` |
| DispatchSafe.RepairInv | crates/ic-evm-gateway/src/lib.rs:2834-2846 | stale repair keeps the invariant, so nothing it marks is queued again, and leaves a tick alive while entries wait |
| DispatchSafe.NoStrays | crates/ic-evm-gateway/src/lib.rs:3012-3034 | upgrade recovery never finds a Queued request without a queue entry |
| DispatchSafe.UpgradeInv | crates/ic-evm-gateway/src/lib.rs:3012-3063 | an upgrade marks what was in dispatch uncertain, changes no queue entry and schedules one tick when enabled |
| DispatchSafe.RunInv | crates/ic-evm-gateway/src/lib.rs:4976-5112 | the invariant holds over any run that records no trimmed id again, and entries never wait without a tick unless an upgrade disabled the workers |
| DispatchSafe.ScheduleOnce | crates/ic-evm-gateway/src/lib.rs:5104-5112 | scheduling leaves exactly one tick alive, whether or not one was, and a second call changes nothing |
| DispatchSafe.FinishAlive | crates/ic-evm-gateway/src/lib.rs:5376-5381 | a tick that ends leaves one alive exactly when entries wait |
| DispatchMeaning.TxIdsMeans | crates/ic-evm-gateway/src/lib.rs:5997-6003 | a transaction's requests are exactly those of its logs with an intent and a 32-bit index, each under the derived id |
| DispatchMeaning.BlockIdsAppend | crates/ic-evm-gateway/src/lib.rs:4976-5000 | a block's requests come in the order of its transactions |
| DispatchMeaning.TrimMeans | crates/ic-evm-gateway/src/lib.rs:5036-5069 | trimming lets go of requests that are over, the longest untouched first and the lower id among equals, down to ten thousand or until none is over |
| DispatchMeaning.RecordMeans | crates/ic-evm-gateway/src/lib.rs:5001-5031 | a new intent is stored fresh and queued at the tail; only requests that are over make room |
| DispatchMeaning.PopMeans | crates/ic-evm-gateway/src/lib.rs:5199-5243 | the pop takes the head's request into dispatch, stamps it, keeps its first start and leaves every other request alone |
| DispatchMeaning.FireMeans | crates/ic-evm-gateway/src/lib.rs:5336-5356 | a firing timer pops the head and awaits its call, or with nothing queued ends the tick |
| DispatchMeaning.AnswerMeans | crates/ic-evm-gateway/src/lib.rs:5971-5986 | the answered request carries the outcome's status, reply and code and the time, every other request is as it was, an id no longer stored adds nothing, and the next timer is armed exactly when entries wait |
| DispatchMeaning.RepairMeans | crates/ic-evm-gateway/src/lib.rs:2834-2846 | repair gives up exactly the requests in dispatch last touched ten minutes ago or earlier |
| DispatchMeaning.UpgradeMeans | crates/ic-evm-gateway/src/lib.rs:3012-3063 | an upgrade gives up exactly the requests in dispatch and starts over with one timer when entries wait and the workers are enabled |
| DispatchMeaning.RepliesKept | crates/ic-evm-gateway/src/lib.rs:5971-5986 | over any run that records no trimmed id again, every stored request carries exactly the status, reply, code and time the last answer for it reported; without one it waits, is in dispatch, or was given up |
| DispatchMeaning.HeardLast | crates/ic-evm-gateway/src/lib.rs:5357-5366 | what is heard of an id is what the last answer for it in the run said, and nothing when there was none |
| DispatchCount.PopCore | crates/ic-evm-gateway/src/lib.rs:5199-5243 | whatever was trimmed or recorded again, the pop meets no entry without a request and no decode failure |
| DispatchCount.OncePerRecord | crates/ic-evm-gateway/src/lib.rs:4976-5381 | over any run whatever a request is dispatched at most once per recording, recorded as often as trimmed or once more, and with one tick alive while entries wait |
| DispatchCount.RedispatchIff | crates/ic-evm-gateway/src/lib.rs:5001-5003 | a dispatched request that a block names again is dispatched again exactly when it was trimmed in between |
| DispatchChain.BlockIdsOnce | crates/ic-evm-gateway/src/lib.rs:5997-6003 | a block names a request at most once for each time it lists the transaction |
| DispatchChain.AtMostOnce | crates/ic-evm-gateway/src/lib.rs:4872-4879 | over any run of chain and queue together a request is recorded and dispatched at most once unless its transaction's nonce is `u64::MAX` |
| DispatchChain.QueueExact | crates/ic-evm-gateway/src/lib.rs:4976-5381 | as long as no transaction of the last nonce is committed, a request is Queued exactly when it has one queue entry, none is dispatched twice, one tick at most is alive and the pop meets no error |
| DispatchReplay.DispatchedTwiceIff | crates/ic-evm-gateway/src/lib.rs:5001-5065 | with such a codec, some run of chain and queue dispatches a request twice exactly when its transaction's nonce is `u64::MAX` |
| DispatchReplay.SomeSystemDispatchesTwiceIff | crates/ic-evm-gateway/src/lib.rs:5001-5065 | some run of some chain and queue dispatches a request twice exactly when its transaction's nonce is `u64::MAX`, with no premise on the codec |
| DispatchState.Worker.RecordFromBlock | crates/ic-evm-gateway/src/lib.rs:4976-5034 | the recording loop equals the specified one |
| DispatchState.Worker.TrimRequests | crates/ic-evm-gateway/src/lib.rs:5036-5069 | sorting the completed requests and removing from the front equals repeated removal of the oldest |
| DispatchState.Worker.PopNext | crates/ic-evm-gateway/src/lib.rs:5199-5243 | equals the specified pop |
| DispatchState.Worker.TickStart | crates/ic-evm-gateway/src/lib.rs:5336-5356 | the tick up to its await equals the specified one |
| DispatchState.Worker.TickEnd | crates/ic-evm-gateway/src/lib.rs:5357-5366 | the tick after its await equals the specified answer, whose effect on the stored request `DispatchMeaning.AnswerMeans` gives |
| DispatchState.Worker.RepairStale | crates/ic-evm-gateway/src/lib.rs:2834-2846 | equals the specified repair |
| DispatchState.Worker.RecoverAfterUpgrade | crates/ic-evm-gateway/src/lib.rs:3012-3063 | equals the specified recovery |
| Export.ExportBlocks | crates/evm-core/src/export.rs:45-213 | the error cases in order; an Ok response carries, non-empty and within budget, the bytes between its cursors with every segment on the way readable, and the traces too where it stops before them, correctly labelled, with a usable next cursor; it stops short of its budget of at most 1.5 MB and of 64 blocks only at the head; the error of the cursor's own block is reported; over readable blocks it is Ok exactly when bytes are left, Limit when none are, and InvalidCursor exactly for an offset past its segment |
| ChainExport.DefaultCursorIff | crates/evm-core/src/export.rs:60-70 | over a settled chain with readable blocks a call without a cursor succeeds exactly when the boundary is the block before the oldest stored one, and reports missing data on a never pruned chain |
| ChainExport.DefaultCursorMisses | crates/evm-core/src/export.rs:60-70 | a call without a cursor whose first block is not stored reports the missing block whatever the budget |
| ChainExport.UnprunedExportFails | crates/evm-core/src/export.rs:63-66 | the failure at one input: a never pruned chain of one readable block |
| Export.EmitBlock | crates/evm-core/src/export.rs:115-171 | the inner loop streams one block from a position and leaves off only out of budget or at its end |
| Export.SessionStream | crates/evm-core/src/export.rs:87-213 | any row of responses, whatever the budgets, is the stream up to the last cursor with no unreadable segment skipped; two finished rows carry the same bytes |
| Export.SessionEnds | crates/evm-core/src/export.rs:197-200 | every call moves on, so a row has at most as many calls as the stream has bytes |
| Export.GrownChainResumes | crates/evm-core/src/export.rs:70-86 | a response from before the chain grew carries the bytes between its cursors in the longer stream too |
| Logs.GetLogsPaged | crates/ic-evm-rpc/src/lib.rs:515-692 | a page is the next matching logs, at most the limit, with a strictly later cursor from which exactly the others follow, or none when there are none; one cut short of its limit has looked at exactly 20000 receipts |
| Logs.PlannedMeans | crates/ic-evm-rpc/src/lib.rs:519-594 | when a request is refused and with which error, and where its scan starts and ends, with the limits of 1000 blocks and 2000 logs and the default of 200 |
| Logs.ScanBlock | crates/ic-evm-rpc/src/lib.rs:597-688 | the scan of one block, cut by the limit or the receipt cap, leaves off where the rest begins |
| Logs.ScanReceipt | crates/ic-evm-rpc/src/lib.rs:642-684 | the scan of one receipt, cut by the limit, leaves off where the rest begins |
| Logs.SessionItems | crates/ic-evm-rpc/src/lib.rs:580-692 | pages cut by any limits or by the cap concatenate to the one filtered list, and cursors strictly advance |
| Logs.NextIsAccepted | crates/ic-evm-rpc/src/lib.rs:584-594 | the next request of the same filter, with any limit and 0 for the default, accepts a returned cursor; it is refused only for a limit above the maximum |
| Logs.OffsetIsTotal | crates/ic-evm-rpc/src/lib.rs:605-611 | the 32-bit running offset is the number of earlier logs of the block, clamped |
| Logs.BaseLogIndexForReceipt | crates/ic-evm-rpc/src/lib.rs:1071-1095 | the receipt view's base is the number of logs before the receipt's place, clamped |
| Logs.LogIndexAgrees | crates/ic-evm-rpc/src/lib.rs:655-656 | pages and receipt view number every log alike: the page's index is the base the receipt view returns plus the place in the receipt |
| Logs.ListedIff | crates/ic-evm-rpc/src/lib.rs:642-673 | exactly the logs of a receipt with the filter's address and topic are listed, each with its block, place, hash and number |
| Logs.ItemsListed | crates/ic-evm-rpc/src/lib.rs:597-692 | the list of a request: exactly the wanted logs of the stored receipts from the cursor on up to the last block, numbered across each block's logs |
| Tracer.InspectorIsPreorder | crates/evm-core/src/revm_exec.rs:403-591 | for every call tree the inspector ends with the preorder of everything below the root: unique child-index ids and their depths, each frame with its own action, success, error and created address, each selfdestruct a success, exact count, the first 1024 captured, and the truncation flag right |
| Tracer.RunNode | crates/evm-core/src/revm_exec.rs:474-591 | the events of one node append its preorder and restore the stacks, whatever was captured before |
| Tracer.StartCaptures | crates/evm-core/src/revm_exec.rs:516-550 | a frame that starts inside another is captured as failed and pending under its id, or only counted when the cap is reached |
| Tracer.SettleOwn | crates/evm-core/src/revm_exec.rs:552-575 | searching from the back for the id settles the frame's own trace, or none when it was not captured |
| TracerState.InternalTraceInspector.StartAction | crates/evm-core/src/revm_exec.rs:516-550 | equals the specified step |
| TracerState.InternalTraceInspector.FinishAction | crates/evm-core/src/revm_exec.rs:552-575 | equals the specified step, of which `Tracer.InspectorIsPreorder` says what every frame's trace ends up with |
| TracerState.InternalTraceInspector.RecordSelfdestruct | crates/evm-core/src/revm_exec.rs:474-514 | equals the specified step |
| TracerState.RenderTraceId | crates/evm-core/src/revm_exec.rs:632-641 | the loop writes the parts in decimal, separated |
| TracerState.RenderInjective | crates/evm-core/src/revm_exec.rs:632-641 | two ids with the same text are the same id |
| TracerState.DecimalReads | crates/evm-core/src/revm_exec.rs:632-641 | each part is written in decimal digits that stand for it, without leading zeros |
| TracerState.RenderExtends | crates/evm-core/src/revm_exec.rs:632-641 | a child's text is its parent's, a bar and the child's index |
| TopK.SelectTopK | crates/evm-core/src/chain.rs:3515-3532 | the bounded heap yields exactly the first candidates of the full sort by price, arrival and id, in its order |
| TopK.PushTopK | crates/evm-core/src/chain.rs:3497-3513 | a push joins the heap while there is room and then only displaces a worst element it beats |
| TopK.OrderingUnique | crates/evm-core/src/chain.rs:3425-3443 | the priority order is total: a bag of candidates has one ordering |
| TopK.BestMeans | crates/evm-core/src/chain.rs:3425-3443 | the chosen candidates are in order by price, arrival and id, as many as there are up to the limit, and none left out is better than one chosen |
| TxCodec.EncodeInput | crates/evm-core/src/tx_decode.rs:118-145 | the appended bytes are the specified layout |
| TxCodec.DecodeHeader | crates/evm-core/src/tx_decode.rs:63-115 | the pass with a moving offset equals the specified decoder |
| TxCodec.EncodeThenDecode | crates/evm-core/src/tx_decode.rs:63-145 | decoding an encoded input gives it back exactly when its data fits the size limit, and the error beyond |
| TxCodec.DecodeThenEncode | crates/evm-core/src/tx_decode.rs:63-145 | bytes that decode are the encoding of what they decode to |
| CodecMeaning.LayoutMeans | crates/evm-core/src/tx_decode.rs:118-145 | which bytes of an encoded input hold which field, in order and big-endian |
| CodecMeaning.FirstIsHighest | crates/evm-core/src/tx_decode.rs:63-115 | the first byte of a number is its most significant one |
| CodecMeaning.DecodeFaults | crates/evm-core/src/tx_decode.rs:63-115 | which fault decoding reports, and that it succeeds without one |
| CodecMeaning.UnwrapAnswer | crates/evm-core/src/kasane_precompiles.rs:630-649 | the answer to an unwrap input by its bytes: length 93, version, two principal slots, amount; which fault reports which error |
| CodecMeaning.WithdrawAnswer | crates/evm-core/src/kasane_precompiles.rs:651-667 | the answer to a withdrawal input by its bytes, the anonymous recipient refused |
| CodecMeaning.WithdrawAmount | crates/evm-core/src/kasane_precompiles.rs:432-449 | only positive whole multiples of 10^10 wei are withdrawn |
| CodecMeaning.UpdateAnswer | crates/evm-core/src/kasane_precompiles.rs:712-753 | the answer to an update input by its bytes; the first fault from the left is reported |
| CodecMeaning.UnwrapLogLayout | crates/evm-core/src/kasane_precompiles.rs:967-976 | which bytes of an unwrap log hold the asset, the amount and the recipient |
| CodecMeaning.WithdrawLogLayout | crates/evm-core/src/kasane_precompiles.rs:977-984 | which bytes of a withdrawal log hold the amount and the recipient |
| CodecMeaning.UnwrapLogIff | crates/evm-core/src/kasane_precompiles.rs:967-1018 | an unwrap log is read back exactly when its fields have 1 to 120 bytes and its amount 32 |
| CodecMeaning.WithdrawLogIff | crates/evm-core/src/kasane_precompiles.rs:977-1039 | a withdrawal log is read back exactly when its recipient has 1 to 120 bytes and its amount 32 |
| CodecMeaning.UpdateLogIff | crates/evm-core/src/kasane_precompiles.rs:985-1072 | an update log is read back exactly when target, method and argument are within their limits and the method is ASCII |
| CodecMeaning.AllowKeyMeans | crates/evm-core/src/kasane_precompiles.rs:603-609 | the key is the target's length, the target and the method |
| IntentCodec.UnwrapRecovered | crates/evm-core/src/kasane_precompiles.rs:630-649 | an accepted unwrap intent is recovered exactly from the log it encodes |
| IntentCodec.UnwrapLogBack | crates/evm-core/src/kasane_precompiles.rs:967-1018 | unwrap log data that decodes is the encoding of what it decodes to |
| IntentCodec.UnwrapInputBack | crates/evm-core/src/kasane_precompiles.rs:1098-1114 | each unwrap intent has one accepted input |
| IntentCodec.WithdrawRecovered | crates/evm-core/src/kasane_precompiles.rs:432-449 | an accepted native withdrawal is recovered from its log, worth the call's value to the wei |
| IntentCodec.WithdrawLogBack | crates/evm-core/src/kasane_precompiles.rs:977-1039 | native withdrawal log data that decodes is the encoding of what it decodes to |
| IntentCodec.WithdrawInputBack | crates/evm-core/src/kasane_precompiles.rs:651-667 | each withdrawal recipient has one accepted input |
| IntentCodec.UpdateRecovered | crates/evm-core/src/kasane_precompiles.rs:712-753 | an accepted update intent is recovered exactly from the log it encodes |
| IntentCodec.UpdateLogBack | crates/evm-core/src/kasane_precompiles.rs:985-1072 | update log data that decodes is the encoding of what it decodes to |
| IntentCodec.AllowKeyInjective | crates/evm-core/src/kasane_precompiles.rs:603-609 | targets shorter than 256 bytes never share an allow-list key |
| IntentCodec.AllowKeyUniqueIff | crates/evm-core/src/kasane_precompiles.rs:603-609 | a key belongs to no other target and method at all exactly when both are shorter than 256 bytes |
| IntentCodec.UnwrapIntentFromLog | crates/evm-core/src/kasane_precompiles.rs:997-1018 | the readers with a moving offset equal the specified decoder |
| IntentCodec.NativeWithdrawIntentFromLog | crates/evm-core/src/kasane_precompiles.rs:1020-1039 | the readers with a moving offset equal the specified decoder |
| IntentCodec.IcpUpdateIntentFromLog | crates/evm-core/src/kasane_precompiles.rs:1041-1072 | the readers with a moving offset equal the specified decoder |
| IntentCodec.ParseCompactInput | crates/evm-core/src/kasane_precompiles.rs:630-649 | the parser with a moving offset equals the specified one |
| IntentCodec.ParseIcpUpdateIntentInput | crates/evm-core/src/kasane_precompiles.rs:712-753 | the parser with a moving offset equals the specified one |

## Left out

- EVM execution, gas, state root and trie: an executed transaction's outcome is any bytes for its receipt, index entry and traces, and any number of update intents in its logs.
- Signature recovery, keccak and principal derivation: ids are injective; whether bytes decode is part of a request.
- Metrics, operation logging, decode suppression windows and the mining timer.
- `clear_mempool_on_upgrade` and `drop_exec_pending_sync`: the first resets expected nonces without touching locations, the second leaves the recorded minimum behind; both are outside the run model, so the exact conditions on whole runs speak of runs without them.
- Per-principal cap as an invariant: replacement skips that check.
- The order in which `select_ready_candidates` reads the ready queue, and the limit on how many it reads: the selection starts from its candidate list.
- A stop between removing a pruned block and finishing its transactions' deletes: recovery needs the block to find them, and the platform runs that stretch atomically.
- A trap while persisting a block: `ChainState.State.PersistBlock` reports it; the platform restores the state.
- `prune_tick` with its enabled and running flags, and the size estimates: the figures are inputs of the retain count.
- Unwrap and wrap workers.
- A call answered after an upgrade: an upgrade ends what was awaited.
- Block, receipt and index encodings: an abstract codec that round-trips; the export's segment builders are an arbitrary function of block and segment.
- Unicode and address derivation in the codecs: text is bytes, addresses are numbers or byte strings.
- RecordsRun.RunRecordsOk: speaks of runs with fewer than 2^64 - 1 drops, after which the ring's counter saturates.
- SubmitMeaning.SubmitVerdict: base fee and least tip are 64-bit numbers, as the source's types make them.
- DispatchMeaning.RepliesKept: a request trimmed and then recorded again starts a new history; the run theorem speaks of runs without that, as `DispatchSafe.RunInv` does.
- BlobArena.Store.Write: takes pointers whose length fits their class, as `allocate` builds them.
- Logs.GetLogsPaged: blocks and receipts with fewer than 2^32 entries, so that the cursor's 32-bit casts are exact.
- Export.ExportBlocks: a head below `u64::MAX`.
