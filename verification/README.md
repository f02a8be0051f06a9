# Verified model of the Cardiofy view-count protocol

Cardiofy counts views of notarised assets. Views are registered in a database and bucketed into periods. A
batch service sums each closed period per asset, cuts the sums into chunks and sends every chunk to the
`Notary` contract, whose `publishBatch` adds to on-chain totals. A reconciliation service confirms chunks,
adds the period once to a local mirror, compares mirror and chain, and finalises the period. An auditor
compares the two later. `publishBatch` is additive and not idempotent, so "no view lost, none counted
twice" rests on the whole machine: chunk rows with their transaction hashes, conflict-free inserts, and the
`mirrorApplied` flag.

This project models that machine in Dafny 4.11 and proves what it keeps, over all runs and all
interleavings. `dafny verify dfyconfig.toml` checks everything.

## How it is built

| file | content |
|---|---|
| `Options.dfy`, `Sums.dfy`, `Payloads.dfy` | `Option`; finite sums; payload counts, sorting by id, slicing (`chunkBy` as a loop) |
| `Notary.dfy` | the contract as a class with in-place storage and rollback, and what every run of it keeps |
| `Protocol.dfy` | tables, mempool, chain and the locals of every running call as one state; 29 kinds of events, each one database statement, gateway call or chain action; runs |
| `Moves.dfy`, `Invariant.dfy`, `ViewCounts.dfy`, `TablesKept.dfy`, `TransactionsKept.dfy`, `ReconciliationKept.dfy`, `Counting.dfy`, `Runs.dfy` | the invariant, that every event keeps it, and what the counts in it are over the view table |
| `Conservation.dfy`, `Convergence.dfy`, `OneTick.dfy`, `Withheld.dfy`, `Progress.dfy`, `History.dfy` | the main results about reachable states and runs: what is counted, when reconciliation ends, what can never be published, what a run leaves in hashes, depths and FAILED rows |
| `Services.dfy` | the services as a class whose methods change tables statement by statement; its invariant says that what it has done so far is a run of the protocol, so all results hold of it |
| `Faults.dfy`, `Damage.dfy`, `Repeats.dfy`, `Overlaps.dfy` | what happens outside the assumptions, exactly: stops, lost hashes, reverts, late views, overlapping publications and ticks |
| `Witness.dfy` | concrete runs: one view from notarisation to anchoring, a second period, and one instance of each failure |
| `Audit.dfy`, `Nonce.dfy`, `Periods.dfy`, `Registration.dfy` | the auditor's verdict; the nonce cache; period arithmetic; idempotent registration |

Period tasks of a reconciliation tick run concurrently in the source (`Promise.allSettled`). The protocol
interleaves them freely, down to single mirror increments and single reads of the check; the class runs them
one after the other in an arbitrary order, which is one of those interleavings.

## Assumptions

The main results are about runs in which each event is enabled. The conditions that are assumptions on the
environment are marked in `Protocol.dfy` by these numbers.

- H1, frozen period: no view of a period is registered once its publication has begun, and the chunk size is
  fixed. `Repeats.LateViewRepeats` shows a chunk sent twice without it; `Repeats.StablePlanIff` says exactly
  when a re-read gives the stored plan.
- H2, sends: a throwing send had no effect on chain, storing a hash succeeds once the send has, and
  publications of one period do not overlap. `Faults.FaultAccounting` says what lost hashes do to the counts,
  `Repeats.UnrecordedSendRepeats` shows the double send when the process stops in between, and
  `Overlaps.OverlapSendsTwiceIff` says exactly when an overlapping publication sends a chunk again.
- H3, receipts: a mined transaction succeeded and the head only grows. `Faults.FaultAccounting` and
  `Faults.RevertedNotarisationConfirms` drop the first half, for publications and notarisations.
- H4, the process does not stop with calls under way, and ticks do not overlap. `Faults.FaultAccounting` allows
  stops anywhere. `Faults.CrashSafeIff` says exactly which stops keep the invariant; the others are
  `Repeats.UnrecordedSendRepeats`, `Witness.CrashCountsTwice`, `Faults.LostAnchoringIsForever` and
  `Faults.LostNotarisationIsForever`. `Overlaps.OverlapMirrorsTwiceIff` says exactly when an overlapping tick
  mirrors a period again.
- H5, ids: different ids have different bytes32 keys, and `localeCompare` orders them strictly, so ids are
  numbers in that order. Two hex ids that differ only in letter case would break this. The backend is the
  only attester, and 0 < block time < 2^64.

## Where the code and its documentation disagree

- `docs/cardiofy-blockchain-specification.tex:474` promises that a crash loses and duplicates nothing. By
  `Faults.CrashSafeIff` a stop keeps the invariant, and so conservation, exactly when no hash waits to be
  stored, no asset is being notarised, no mirror loop is half done and no confirmed period waits to be
  anchored. Even such a stop does not resume by itself: chunks not sent before it stay unsent until a new
  publication of their period starts (`Repeats.StoppedPublicationWaits`), and the schedule starts none once the
  period after it has ended (`Periods.PublishWindow`). A stop while an asset is being notarised leaves it
  PENDING for ever, and its id refused (`Faults.LostNotarisationIsForever`).
- The `protect` option of the schedulers does not prevent overlapping runs, because `runOnce` returns before
  its work is done (`apps/backend/src/modules/batches/batch.job.ts:38-49`).
- `docs/cardiofy-blockchain-specification.tex:396` and `apps/backend/src/modules/views/view.service.ts:25` promise
  that views of an asset that is not notarised are refused. `requireExists`
  (`apps/backend/src/modules/assets/asset.service.ts:45-49`) only looks for a row, and a FAILED notarisation
  leaves one. Such an asset is never on chain, and withholds every chunk that names it
  (`Withheld.FailedWithholds`, `Withheld.WithheldChunk`).
- `docs/cardiofy-blockchain-specification.tex:395` and `:460` promise that a repeated key is replayed and
  never refused. `Registration.RefusedIff` says when the code refuses it.
- The comment at `apps/backend/src/modules/batches/batch.service.ts:83` says a failed chunk will be retried.
  The schedule only publishes the previous period, so by `Periods.PublishWindow` the retries end with it.

## Model

| member | source | states |
|---|---|---|
| Payloads.ChunkBy | apps/backend/src/modules/batches/batch.service.ts:14-18 | the loop's slices concatenate to the input, and slice j holds exactly positions j*size to (j+1)*size, cut at the end |
| Payloads.SlicesFacts | apps/backend/src/modules/batches/batch.service.ts:14-18 | slicing loses nothing, and no slice is empty or longer than the chunk size |
| Payloads.SortFacts | apps/backend/src/modules/batches/batch.service.ts:56 | sorting rows with one positive count per asset permutes them, orders ids strictly and changes no asset's count |
| Payloads.PlanUnique | apps/backend/src/modules/batches/batch.service.ts:53-57 | two sorted payloads with the same counts are equal, whatever row order or sorting algorithm led to them |
| Payloads.SlicesDistinct | apps/backend/src/modules/batches/batch.service.ts:53-57 | different chunks of one plan are different payloads |
| NotaryContract.Notary.NotarizeContract | apps/notary/contracts/Notary.sol:83-88 | accepted iff the attester sends it, the hash is not empty and the id is free; then hash and log entry are stored; anyone else gets NotAttester; a refused call changes nothing |
| NotaryContract.Notary.NotarizeAsset | apps/notary/contracts/Notary.sol:91-100 | the same for assets, with block time truncated to 64 bits in storage and log, and the counter at zero |
| NotaryContract.Notary.PublishBatch | apps/notary/contracts/Notary.sol:109-119 | accepted iff the attester sends it, the period fits uint64, the batch is not empty and every entry fits; written entry by entry; on a revert at any entry storage and log are as before the call |
| NotaryContract.PublishMeaning | apps/notary/contracts/Notary.sol:109-119 | without the loop: a batch is accepted iff it is not empty, every asset is known and no count or total overflows; then every total grows by exactly the batch's count, nothing else changes, and the log gets one entry per update and the announcement |
| NotaryContract.RefusedAt | apps/notary/contracts/Notary.sol:110-115 | the first entry that does not fit on top of those before it decides the error, and an unknown asset is named in it |
| NotaryContract.EntryAt | apps/notary/contracts/Notary.sol:111-117 | log entry i carries update i and the cumulative total after i + 1 updates, also when an asset repeats in a batch |
| NotaryContract.PublishAllMeaning | apps/notary/contracts/Notary.sol:104-119 | several batches of a period together are accepted iff none is empty and their concatenation is acceptable, and add its counts |
| NotaryContract.ChunkingPreservesMeaning | apps/backend/src/modules/batches/batch.service.ts:53-57 | for every chunk size and every order of the chunks, publishing them succeeds iff the single call does and leaves the same assets; the empty batch is the exception |
| NotaryContract.AnnouncedCountsAddUp | apps/notary/contracts/Notary.sol:118 | the asset counts announced for the chunks add up to the size of the batch |
| NotaryContract.LogReplaysToStorage | apps/notary/contracts/Notary.sol:109-119 | in every run, reverting calls included, each total is the sum of its logged views, each logged cumulative is the prefix sum, and totals are bounded by updates times 2^64 - 1 |
| NotaryContract.NoOverflow | apps/notary/contracts/Notary.sol:115 | checked addition never fails on an asset with at most 2^192 updates |
| NotaryContract.OnChainPermanence | apps/notary/contracts/Notary.sol:83-119 | over any continuation of any run, hashes and notarisation times stay, totals never fall, the log only grows |
| NotaryContract.NotarizedOnceIff | apps/notary/contracts/Notary.sol:93-98 | a second notarisation is refused iff the first block time does not truncate to zero in 64 bits |
| NotaryContract.ForeignCallReverts | apps/notary/contracts/Notary.sol:66-69 | after any history a call of anyone but the attester reverts with NotAttester, whatever its arguments |
| NotaryContract.ForeignCallsChangeNothing | apps/notary/contracts/Notary.sol:66-69 | for every deployment and history, leaving out all transactions not sent by the attester gives the same storage and log |
| NotaryContract.RegisteredIff | apps/notary/contracts/Notary.sol:91-99 | an asset is registered iff the history holds a notarisation of it by the attester, with a hash, at a time that does not truncate to zero |
| NotaryContract.FirstNotarisationStands | apps/notary/contracts/Notary.sol:91-99 | in every history the stored hash and time of an asset are those of the first such transaction |
| NotaryContract.FirstAgreementStands | apps/notary/contracts/Notary.sol:83-87 | in every history a contract id holds the hash of its first notarisation by the attester, and nothing before it |
| NotaryContract.LogTellsRegistry | apps/notary/contracts/Notary.sol:87-99 | in every history stored hashes and times are those of the last notarisation entries in the log |
| Moves.OthersUntouched | apps/backend/src/modules/batches/batch.repository.ts:48-133 | which events can change which table; every other table stays as it was |
| Invariant.ReaggregationIsStable | apps/backend/src/modules/views/view.repository.ts:48-59 | whatever row order the aggregate query returns, sorting it gives a plan of the period |
| TablesKept.EnsuredRows | apps/backend/src/modules/batches/batch.repository.ts:89-95 | `ensureChunks` on a period with chunks changes nothing, and otherwise inserts exactly the slices of the stored payload |
| TablesKept.PayloadsStay | apps/backend/src/modules/batches/batch.repository.ts:48-85 | no event changes a stored payload, and a batch row appears by `createPending` only |
| ReconciliationKept.ConfirmedRowsStable | apps/backend/src/modules/batches/batch.repository.ts:114-133 | once all chunks of a period are CONFIRMED no event changes its rows |
| Counting.ChainBalance | apps/notary/contracts/Notary.sol:109-119 | every event moves the chain total of an asset exactly as much as the counts of mined chunks |
| Counting.MirrorBalance | apps/backend/src/modules/assets/asset.repository.ts:61-66 | every event moves the mirror of an asset exactly as much as the counts of applied batches and finished loop turns |
| Runs.EventKeepsInv | apps/backend/src/modules/reconciliation/reconciliation.service.ts:101-162 | every event keeps the whole invariant |
| Runs.ReachableInv | apps/backend/src/modules/reconciliation/reconciliation.service.ts:101-162 | every reachable state satisfies it |
| Conservation.ChainIsMirrorPlusOutstanding | apps/backend/src/modules/reconciliation/reconciliation.service.ts:101-146 | conservation: in every reachable state, also inside several interleaved mirror loops, an asset's chain total is its mirror plus exactly its counts in mined chunks not yet mirrored |
| Conservation.MirrorBelowChainBelowViews | apps/backend/src/modules/reconciliation/reconciliation.service.ts:101-146 | mirror <= chain <= number of rows of the view table with the asset, per asset |
| Conservation.MirrorExactlyOnce | apps/backend/src/modules/reconciliation/reconciliation.service.ts:112-117 | the mirror is the view counts of applied batches plus the finished turns of running loops, in any interleaving |
| Conservation.BatchRowMeaning | apps/backend/src/modules/batches/batch.service.ts:56-62 | in every reachable state a batch row's `viewsTotal` is the number of view rows of its period, `assetCount` the number of assets seen in them, and each payload entry the number of rows of its asset |
| Conservation.AtMostOnceSending | apps/backend/src/modules/batches/batch.service.ts:65-85 | no two transactions ever broadcast carry the same period and payload |
| Conservation.StoredHashCountsOnce | apps/backend/src/modules/batches/batch.service.ts:65-85 | a stored hash belongs to a transaction with this chunk's payload, the only one ever broadcast; exactly one or no mined transaction carries that payload, as it is mined or not, and once it is, the chain holds the chunk's counts |
| Conservation.StableChunkPlan | apps/backend/src/modules/batches/batch.service.ts:53-63 | re-reading a published period in any row order gives the stored payload, `ensureChunks` is then a no-op, and the chunks in index order are the payload |
| Conservation.DefensiveCheckMeaning | apps/backend/src/modules/reconciliation/reconciliation.service.ts:172-186 | the check passes iff no asset of the payload, known on both sides, has mined counts of any period outstanding; else it names the first such asset in payload order |
| Conservation.FinalisationInvariant | apps/backend/src/modules/reconciliation/reconciliation.service.ts:108-139 | a CONFIRMED batch is mirrored, has chunks, all CONFIRMED at depth, and carries the highest of their blocks |
| Conservation.AnchoredViewsAreFinal | apps/backend/src/modules/views/view.repository.ts:61-68 | an anchored view belongs to a CONFIRMED batch |
| Conservation.ConfirmedIsFinal | apps/backend/src/modules/batches/batch.repository.ts:67-72 | CONFIRMED is never left, and payload, block and chunk rows then stay |
| Convergence.TwoTicksConverge | apps/backend/src/modules/reconciliation/reconciliation.service.ts:101-146 | from any reachable state with all pending chunks sent and deep and no publication, every run with two complete failure-free ticks, in any interleaving, confirms every batch and ends with chain = mirror = number of view rows in published periods, per asset |
| Convergence.EarlyCheckFails | apps/backend/src/modules/reconciliation/reconciliation.service.ts:119-134 | while another period has mined counts of a shared asset to mirror, the check of a period fails at that asset and the period stays PENDING |
| OneTick.OneTickIff | apps/backend/src/modules/reconciliation/reconciliation.service.ts:101-146 | from any reachable state with all pending chunks sent and deep and no publication: every run with one complete failure-free tick, in any interleaving, confirms every batch iff no pending period shares an asset with another pending one whose mirror is not yet applied |
| OneTick.TwoTicksHappen | apps/backend/src/modules/reconciliation/reconciliation.service.ts:101-146 | from each such state a run with two complete failure-free ticks exists, and it ends as the two-tick theorem says |
| Withheld.MinableIff | apps/notary/contracts/Notary.sol:109-119 | a publication in the mempool of a reachable state can be mined iff its period fits uint64, each asset it names is on chain, and no count or total overflows |
| Withheld.RegistrableIff | apps/backend/src/modules/assets/asset.service.ts:21-39 | an asset with a row gets on chain in some run iff it is there, or its hash is not empty and its notarisation is running or in the mempool |
| Withheld.WithheldChunk | apps/backend/src/modules/batches/batch.service.ts:65-85 | an asset that cannot get on chain keeps every chunk that names it unmined and unconfirmed, and its period PENDING, in all runs |
| Withheld.FailedWithholds | apps/backend/src/modules/assets/asset.service.ts:34-35 | in every reachable state an asset with status FAILED cannot get on chain in any run |
| Progress.EventSpends | apps/backend/src/modules/batches/batch.service.ts:40-88 | every event lowers what a period still needs by one if it completes a stage of that period, and by nothing otherwise |
| Progress.ExactBudget | apps/backend/src/modules/reconciliation/reconciliation.service.ts:101-162 | over any run, stages completed plus stages remaining is constant, and the period is CONFIRMED iff all that remained were completed |
| Progress.FullBudget | apps/backend/src/modules/batches/batch.service.ts:59-63 | a new batch of n chunks has exactly 2n + 3 stages before it |
| History.ConfirmationsAreBlocks | apps/backend/src/modules/notary/ethers-notary.gateway.ts:73-75 | the confirmations are the number of blocks from the transaction's own up to the head |
| History.DeepIff | apps/backend/src/modules/reconciliation/reconciliation.service.ts:153-155 | the depth is reached iff the transaction is mined and head + 1 >= block + depth |
| History.DeepAfterBlocks | apps/backend/src/modules/notary/ethers-notary.gateway.ts:70-78 | a transaction mined now is deep after a run iff the run adds all but one of the blocks asked for |
| History.ConfirmedAssetIsDeep | apps/backend/src/modules/reconciliation/reconciliation.service.ts:80-84 | in every reachable state a CONFIRMED asset is mined with its own notarisation, carries that block, and has the depth |
| History.PeriodHashIsFirst | apps/backend/src/modules/batches/batch.service.ts:68-79 | a period has no hash exactly as long as none of its chunks has one, then one of theirs, and no run changes it again |
| History.FailedMeansRefused | apps/backend/src/modules/batches/batch.service.ts:81-82 | in every run a chunk or asset is FAILED only if a send of its period or its own notarisation was refused |
| Services.Backend.constructor | apps/backend/src/models/schema.ts:49-143 | empty tables and a fresh contract are the protocol's initial state |
| Services.Backend.RegisterView | apps/backend/src/modules/views/view.service.ts:18-38 | a view is stored iff its key is new and its asset exists, in any period; the run goes on unless the period's publication has begun |
| Services.Backend.Notarize | apps/backend/src/modules/assets/asset.service.ts:21-39 | an existing id, even FAILED or still being notarised, is refused; else the row is created, and carries the hash after an accepted send or FAILED after a refused one |
| Services.Backend.ReadPeriod | apps/backend/src/modules/batches/batch.service.ts:41-56 | reads the batch row and the sorted aggregates |
| Services.Backend.CreatePending | apps/backend/src/modules/batches/batch.repository.ts:48-61 | the row in the table afterwards has the sorted payload and counts the view rows and assets of the period; an existing row stays |
| Services.Backend.EnsureChunkRows | apps/backend/src/modules/batches/batch.repository.ts:89-95 | afterwards the rows are the slices; existing rows stay untouched, new ones are unsent |
| Services.Backend.MarkSubmitted | apps/backend/src/modules/batches/batch.service.ts:74-79 | the chunk gets its hash and PENDING; the first hash becomes the period's |
| Services.Backend.MarkChunkFailed | apps/backend/src/modules/batches/batch.repository.ts:121-126 | the chunk becomes FAILED and stays without hash |
| Services.Backend.SendOne | apps/backend/src/modules/batches/batch.service.ts:70-85 | one turn: a sent chunk is untouched, an accepted one gets its hash and its transaction, a refused one FAILED and no transaction; the period's own hash is set by the first one sent |
| Services.Backend.SendChunks | apps/backend/src/modules/batches/batch.service.ts:67-85 | the whole loop: the outcome of every row, exactly the transactions of accepted unsent chunks, and the period's hash as the first of theirs |
| Services.Backend.PublishBatchFor | apps/backend/src/modules/batches/batch.service.ts:40-88 | a confirmed or empty period changes nothing; otherwise rows are the stored or the new slices, each unsent chunk is sent at most once with that payload, the batch row is the stored or the new one with its first hash; the returned row counts the view rows and assets of the period; the call is a run of the protocol |
| Services.Backend.GatewayConfirmations | apps/backend/src/modules/notary/ethers-notary.gateway.ts:70-78 | no receipt gives 0 confirmations and no block; else the number of blocks from the receipt's to the head, both included, and the block; the comparison with the depth passes iff head + 1 >= block + depth |
| Services.Backend.ConfirmPendingChunks | apps/backend/src/modules/reconciliation/reconciliation.service.ts:149-162 | exactly the pending chunks with a deep hash become CONFIRMED with their block, except where the gateway throws |
| Services.Backend.ApplyMirror | apps/backend/src/modules/reconciliation/reconciliation.service.ts:115-116 | the loop adds to every asset's mirror exactly the payload's count for it, then sets the flag |
| Services.Backend.MirrorOnce | apps/backend/src/modules/reconciliation/reconciliation.service.ts:114-117 | the mirror moves by the payload, or not at all when the flag was set |
| Services.Backend.DetectAssetCounterMismatch | apps/backend/src/modules/reconciliation/reconciliation.service.ts:172-186 | the loop of reads returns the first differing asset in payload order, none if there is none, and throws iff an unreadable asset comes before any differing one |
| Services.Backend.FinalisePeriod | apps/backend/src/modules/reconciliation/reconciliation.service.ts:106-144 | nothing before all chunks are confirmed; then the mirror once; CONFIRMED with the highest block and anchored views iff the check passes; failed iff the check throws |
| Services.Backend.ReconcileBatches | apps/backend/src/modules/reconciliation/reconciliation.service.ts:101-146 | one tick of the protocol; every pending period is finalised once, in states of the run, and `confirmed`, `stillPending` and `failed` are the numbers of periods that ended that way; `confirmed` is the number that went from PENDING to CONFIRMED |
| Services.Backend.ReconcileTwice | apps/backend/src/modules/reconciliation/reconciliation.service.ts:101-146 | two ticks of this code from a ready state confirm every batch and make chain = mirror = number of published view rows |
| Services.Backend.ReconcileAssets | apps/backend/src/modules/reconciliation/reconciliation.service.ts:75-94 | exactly the pending assets with a deep hash become CONFIRMED with their block, except where the gateway throws, and the summary counts each pending asset once as confirmed, pending or errored |
| Faults.FaultAccounting | apps/backend/src/modules/notary/ethers-notary.gateway.ts:70-78 | with any number of stops, lost hashes and reverted transactions, at any point: the mirror is what it should be plus exactly what cut-off loops had added; the chain is what the chunk rows say plus the mined publications no row knows of, less exactly what reverted |
| Faults.DamageSurfaces | apps/backend/src/modules/reconciliation/reconciliation.service.ts:112-134 | once every batch is mirrored, mirror and chain are the published view rows plus and less exactly what was repeated, missed and sent twice, so they agree iff these make up for each other |
| Faults.CrashSafeIff | apps/backend/src/modules/reconciliation/reconciliation.service.ts:112-138 | a stop in a reachable state keeps the invariant iff no hash waits to be stored, no asset is being notarised, no mirror loop has begun without its flag and no confirmed period waits to be anchored |
| Faults.LostAnchoringIsForever | apps/backend/src/modules/reconciliation/reconciliation.service.ts:137-138 | after a crash between the two marks, no later run anchors the views of that confirmed period |
| Faults.LostNotarisationIsForever | apps/backend/src/modules/assets/asset.service.ts:25-33 | after a stop inside a notarisation the row stays PENDING without hash and its id refused in every later run; when nothing had been sent, the asset never gets on chain |
| Faults.RevertedNotarisationConfirms | apps/backend/src/modules/notary/ethers-notary.gateway.ts:70-78 | an asset whose notarisation is in the mempool can revert and still become CONFIRMED without being on chain |
| Damage.DamageBlocks | apps/backend/src/modules/reconciliation/reconciliation.service.ts:119-134 | in any state that stops, lost hashes and reverts lead to, a pending period that names an asset whose chain total and mirror differ, in either direction, is not CONFIRMED by any run in which the two stay what they are |
| Repeats.StoppedPublicationWaits | apps/backend/src/modules/batches/batch.service.ts:67-85 | after a stop, a chunk not yet sent gets its hash in some run, but in no run that starts no new publication of its period; its period stays PENDING till then |
| Repeats.UnrecordedSendRepeats | apps/backend/src/modules/batches/batch.service.ts:73-84 | after a crash between a send and the write of its hash the same payload can be sent again |
| Repeats.LateViewRepeats | apps/backend/src/modules/batches/batch.service.ts:53-67 | with chunk size 1, a late view that sorts first makes the next publication send the old chunk a second time |
| Repeats.StablePlanIff | apps/backend/src/modules/batches/batch.service.ts:53-57 | re-aggregating gives the stored payload iff no asset's count in the period has changed |
| Overlaps.OverlapSendsTwiceIff | apps/backend/src/modules/batches/batch.service.ts:67-74 | of two publications that loaded the same rows, the one that sends after the other has ended can send chunk k again iff its loaded row had no hash and the table's row has one |
| Overlaps.OverlapMirrorsTwiceIff | apps/backend/src/modules/reconciliation/reconciliation.service.ts:104-117 | of two ticks that read the same batch row, the one that finalises after the other has ended can add the payload again iff the flag was unset in the row it read and is set in the table |
| Witness.Life | apps/backend/src/modules/reconciliation/reconciliation.service.ts:101-146 | a run reaches, one after the other, a loaded batch, a half-done mirror loop, a CONFIRMED period not yet anchored, and its end: CONFIRMED, mirrored, anchored, chain = mirror = 1 |
| Witness.TwoPeriods | apps/backend/src/modules/reconciliation/reconciliation.service.ts:101-146 | a reachable ready state with two pending periods that share an asset, from which one tick is not enough |
| Witness.OverlapsHappen | apps/backend/src/modules/batches/batch.service.ts:67-74 | reachable states in which an overlapping publication sends again and an overlapping tick mirrors again |
| Witness.FailedAssetWithholds | apps/backend/src/modules/assets/asset.service.ts:34-49 | a reachable state in which an asset has FAILED, its view was accepted afterwards, and the chunk that names it is sent |
| Witness.CrashCountsTwice | apps/backend/src/modules/reconciliation/reconciliation.service.ts:114-117 | a run from the empty system with one stop, after which a single view counts twice in the mirror |
| Witness.DamageIsNoticed | apps/backend/src/modules/reconciliation/reconciliation.service.ts:119-134 | the run of `CrashCountsTwice` goes on to the end of the tick with the period PENDING and the mirror ahead of the chain |
| Audit.VerdictMeaning | apps/audit-prototype/src/lib/verifier.ts:25-67 | in every reachable state: NOT_ON_CHAIN iff the notarisation is not mined, else WARN iff mined counts wait to be mirrored, never MISMATCH |
| Audit.HonestAudit | apps/audit-prototype/src/lib/verifier.ts:25-67 | a CONFIRMED asset gives MATCH, or WARN iff it has mined counts not yet mirrored |
| Audit.AuditConverges | apps/audit-prototype/src/lib/verifier.ts:25-67 | after two undisturbed ticks every CONFIRMED asset gives MATCH |
| Audit.AuditAcrossRun | apps/audit-prototype/src/lib/verifier.ts:26-27 | with the API read first and the chain read after any further run, a CONFIRMED asset still gives MATCH or WARN only |
| Audit.TamperingShows | apps/audit-prototype/src/lib/verifier.ts:42-66 | whatever row the API answers and after whatever run the chain is read: MISMATCH iff the asset is on chain and the row's hash is not the one it was created with; with that hash MATCH iff the row's counter is the chain total, else WARN |
| Audit.ChangedHashShows | apps/audit-prototype/src/lib/verifier.ts:42-66 | for every asset on chain in a reachable state, a row with any other hash gives MISMATCH, whatever its counter, also when the chain is read after any further run |
| Audit.AuditSeesDamage | apps/audit-prototype/src/lib/verifier.ts:45-66 | in runs with stops, lost hashes and reverts, once all is mirrored, a registered asset gives MATCH iff what was repeated and missed makes up for what was sent twice, else WARN |
| Audit.RevertedNotarisationShows | apps/audit-prototype/src/lib/verifier.ts:31-40 | an asset whose notarisation reverted can be CONFIRMED in the API, and then gives NOT_ON_CHAIN |
| Nonce.NonceAgreement | apps/backend/src/modules/notary/local-signer.provider.ts:22-32 | over any sequence of attempts, failing reads and ambiguous sends included, nonces are consecutive, one per send that reached the mempool, and an active cache equals the pending count |
| Nonce.ReadsAreRestarts | apps/backend/src/modules/notary/local-signer.provider.ts:22-32 | the chain is asked for the pending count once at the start and once after every attempt that did not succeed, never between two successful sends |
| Nonce.StuckIff | apps/backend/src/modules/notary/local-signer.provider.ts:23 | some later send can reach the mempool iff the cache does not hold a rejected read; the read is outside the `try` |
| Nonce.SequentialNonceManager.SendTransaction | apps/backend/src/modules/notary/local-signer.provider.ts:22-32 | a nonce is had iff the cache is active or the chain answers, and it is the pending count; the agreement is kept whatever the read and the send answer |
| Nonce.OverlapRepeatsNonce | apps/backend/src/modules/notary/local-signer.provider.ts:23-24 | two sends that both read before either increments use one nonce twice |
| Nonce.OverlapGapIff | apps/backend/src/modules/notary/local-signer.provider.ts:24-31 | when the second reads after the first's increment, no gap arises iff the first reaches the mempool |
| Registration.SameReply | apps/backend/src/modules/views/view.service.ts:18-38 | in every interleaving all successful replies for a key carry the same event and period |
| Registration.OneNewReply | apps/backend/src/modules/views/view.service.ts:18-38 | in every interleaving, of the successful replies for a key exactly one carries `duplicate == false`, that of the request whose insert wrote the key's row |
| Registration.NewRepliesInserted | apps/backend/src/modules/views/view.service.ts:20-36 | in every run a success is told `duplicate == false` iff the run holds an insert of that request, under the id it was told; every other success is a replay |
| Registration.AcceptedOnce | apps/backend/src/modules/views/view.repository.ts:48-59 | the aggregates of a period sum to the number of distinct keys accepted into it |
| Registration.RefusedIff | apps/backend/src/modules/views/view.repository.ts:33-46 | an insert is refused iff another request for its key has succeeded since the lookup |
| Registration.ExistingAssetFound | apps/backend/src/modules/views/view.service.ts:26 | a request is never told that an asset is missing which exists since before it asked |
| Registration.ConcurrentDuplicateFails | apps/backend/src/modules/views/view.service.ts:20-36 | of two requests past their lookup of a new key, the second gets an error, not a replay |
| Registration.RaceHappens | apps/backend/src/modules/views/view.service.ts:20-36 | a run brings two requests for a new key past their lookup, and the second gets the unique violation |
| Registration.ServedAlone | apps/backend/src/modules/views/view.service.ts:18-38 | a request whose steps run in a row is never refused and does what `Serve` says |
| Registration.ServeMeaning | apps/backend/src/modules/views/view.service.ts:18-38 | a known key gets its stored row with `duplicate` and nothing is written, an unknown asset is refused, anything else gets one new row whose period is the stretch that holds its instant |
| Registration.ViewService.Register | apps/backend/src/modules/views/view.service.ts:18-38 | the method does what `Serve` says; a success carries `duplicate` iff the key had a row |
| Periods.NestedFloors | apps/backend/src/modules/views/view.domain.ts:39-42 | rounding to seconds first changes nothing: one floor by 1000 * P, for negative instants too |
| Periods.Buckets | apps/backend/src/modules/views/view.domain.ts:39-42 | an instant has period p iff p is a period id and the instant lies in its stretch |
| Periods.PublishWindow | apps/backend/src/modules/batches/batch.service.ts:31-34 | a tick publishes p iff it falls between the end of p and the end of the next period |
| Periods.LatestElapsed | apps/backend/src/modules/batches/batch.service.ts:31-34 | `previousPeriodId` is the latest fully elapsed period |
| Periods.AdvanceIff | apps/backend/src/modules/batches/batch.job.ts:38-39 | from one tick to the next the published period stays or advances by one, for every alignment, iff the gap is at most one period |
| Periods.NoneSkipped | apps/backend/src/modules/batches/batch.job.ts:38-39 | with such gaps every period between the first and the last published is published by some tick |

## Left out

- Services.Backend.RegisterView: takes the period as a parameter and refuses with one answer; key lookup, missing asset and the period's instant are told apart in `Registration.dfy`. Once a late view is stored the object is no longer a run of the protocol (H1).
- Services.Backend.PublishBatchFor: one publication of a period at a time (H2); two that overlap are `Overlaps.OverlapSendsTwiceIff`.
- Services.Backend.ReconcileBatches: the period tasks one after the other in an arbitrary order; all interleavings are in `Convergence.dfy` and `OneTick.dfy`.
- Services.Backend.ReconcileTwice: one schedule of the period tasks; all interleavings are `Convergence.TwoTicksConverge`.
- NotaryContract.Notary.PublishBatch: a value that does not fit uint64 is one error, whatever its order among the other reasons to revert.
- Events are as coarse as one awaited call, with these merges: `findByPeriodId` with `aggregatesForPeriod`, `markChunkSubmitted` with `markSubmitted`, and receipt, head and the mark of one confirmation. Each merged pair has no statement of another task between it that could change its outcome.
- Overlaps.OverlapSendsTwiceIff and Overlaps.OverlapMirrorsTwiceIff: one of the two calls ends before the other goes on from what it had read; finer interleavings of the two are not modelled.
- The cache that `SequentialNonceManager` inherits from ethers: whether it keeps a rejected nonce read is a parameter of `Nonce.dfy`.
- Chain reorganisations, and a notarisation whose hash is accepted but cannot be stored: excluded by H2 and H3.
- `reconcileContracts` and the contracts module: the same life as assets without counters.
- Ownership and attester rotation: library code; only the attester check is modelled.
- HTTP, authentication, logging, validation schemas, health checks, shutdown, the React pages apart from the verdict, command-line scripts, `NullNotaryGateway`: plumbing and input/output.
- SQL, ethers and the scheduler: kept as primary keys, the unique key, insert without conflict, atomic add, base plus delta, and "some later tick". Time stamps such as `confirmedAt` are not columns of the model.
- keccak, hex and ABI encoding: ids and hashes are numbers (H5). `verifyAsset` compares hashes ignoring letter case, which numbers do not have.
- Gas: the reason for chunks, but no cost is modelled.
