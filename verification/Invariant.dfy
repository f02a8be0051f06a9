/** What every event keeps. The invariant is split by the fields each part reads, so that an event
    that does not touch those fields keeps the part for nothing. */
module Invariant {
  import opened Options
  import opened Payloads
  import opened Sums
  import N = NotaryContract
  import opened Protocol

  // ---- Plans and tables ----

  /** The one payload a period can have: its views, counted per asset, in id order. */
  ghost predicate IsPlan(u: seq<Update>, views: seq<View>, p: Period) {
    && Sorted(u) && Positive(u)
    && forall a :: CountOf(u, a) == ViewCount(views, p, a)
  }

  predicate SamePayloads(rows: seq<ChunkRow>, ss: seq<seq<Update>>) {
    |rows| == |ss| && forall j :: 0 <= j < |rows| ==> rows[j].payload == ss[j]
  }

  ghost predicate ViewsInv(views: seq<View>, assets: map<Id, AssetRow>) {
    && (forall i :: 0 <= i < |views| ==> views[i].asset in assets)
    && forall i, j :: 0 <= i < j < |views| ==> views[i].key != views[j].key
  }

  ghost predicate BatchOk(views: seq<View>, p: Period, b: BatchRow) {
    && b.payload != []
    && IsPlan(b.payload, views, p)
    && b.assetCount == |b.payload|
    && b.viewsTotal == TotalOf(b.payload)
  }

  /** A batch row holds the one plan of its period. */
  ghost predicate BatchesInv(views: seq<View>, batches: map<Period, BatchRow>) {
    forall p :: p in batches ==> BatchOk(views, p, batches[p])
  }

  /** Chunk rows are the slices of the batch payload, all of them or none. */
  ghost predicate ChunksInv(c: Config, batches: map<Period, BatchRow>, chunks: map<Period, seq<ChunkRow>>) {
    forall p :: p in chunks ==>
      && p in batches
      && SamePayloads(chunks[p], Slices(batches[p].payload, c.maxChunk))
  }

  /** A publisher's snapshot of the chunk rows agrees with the table where it still matters. */
  predicate FreshFrom(rows: seq<ChunkRow>, live: seq<ChunkRow>, next: nat) {
    && |rows| == |live| && next <= |rows|
    && forall j :: next <= j < |rows| ==> rows[j].payload == live[j].payload && rows[j].txHash == live[j].txHash
  }

  ghost predicate PublisherOk(
    views: seq<View>, batches: map<Period, BatchRow>, chunks: map<Period, seq<ChunkRow>>, p: Period, t: Publisher)
  {
    match t
    case Aggregated(sorted, present, _) => IsPlan(sorted, views, p) && sorted != [] && (present <==> p in batches)
    case Prepared(sorted, _) => p in batches && sorted == batches[p].payload
    case Planned(_) => p in chunks
    case Sending(rows, next, _) => p in chunks && FreshFrom(rows, chunks[p], next)
    case Recording(rows, next, tx, _) =>
      p in chunks && FreshFrom(rows, chunks[p], next) && next < |rows| && rows[next].txHash.None?
  }

  ghost predicate PublishersInv(
    views: seq<View>, batches: map<Period, BatchRow>, chunks: map<Period, seq<ChunkRow>>, pub: map<Period, Publisher>)
  {
    forall p :: p in pub ==> PublisherOk(views, batches, chunks, p, pub[p])
  }

  // ---- Transactions ----

  /** The transaction of chunk j: the recorded one, or the one sent and not recorded yet. */
  function LiveTx(chunks: map<Period, seq<ChunkRow>>, pub: map<Period, Publisher>, p: Period, j: nat): Option<TxId>
    requires p in chunks && j < |chunks[p]|
  {
    if chunks[p][j].txHash.Some? then chunks[p][j].txHash
    else if p in pub && pub[p].Recording? && pub[p].next == j then Some(pub[p].tx)
    else None
  }

  predicate RowOk(row: ChunkRow, txs: map<TxId, Tx>) {
    && (row.status == CONFIRMED ==>
          && row.txHash.Some? && row.txHash.value in txs
          && row.blockNumber.Some? && row.blockNumber == txs[row.txHash.value].block)
    && (row.status != CONFIRMED ==> row.blockNumber.None?)
    && (row.status == FAILED ==> row.txHash.None?)
  }

  ghost predicate ChunkSent(chunks: map<Period, seq<ChunkRow>>, pub: map<Period, Publisher>, txs: map<TxId, Tx>, p: Period, j: nat)
    requires p in chunks && j < |chunks[p]|
  {
    && RowOk(chunks[p][j], txs)
    && var o := LiveTx(chunks, pub, p, j);
       o.Some? ==>
         && o.value in txs
         && txs[o.value].call == N.PublishBatch(p, chunks[p][j].payload)
         && txs[o.value].chunk == Some(j)
  }

  /** Every chunk's transaction carries that chunk. */
  ghost predicate SentInv(chunks: map<Period, seq<ChunkRow>>, pub: map<Period, Publisher>, txs: map<TxId, Tx>) {
    forall p, j: nat :: p in chunks && j < |chunks[p]| ==> ChunkSent(chunks, pub, txs, p, j)
  }

  ghost predicate Owned(chunks: map<Period, seq<ChunkRow>>, pub: map<Period, Publisher>, txs: map<TxId, Tx>, t: TxId)
    requires t in txs
  {
    txs[t].call.PublishBatch? && txs[t].chunk.Some? ==>
      var p, j := txs[t].call.period, txs[t].chunk.value;
      p in chunks && j < |chunks[p]| && LiveTx(chunks, pub, p, j) == Some(t)
  }

  /** Every publication that belongs to a chunk is that chunk's transaction. */
  ghost predicate OwnedInv(chunks: map<Period, seq<ChunkRow>>, pub: map<Period, Publisher>, txs: map<TxId, Tx>) {
    forall t :: t in txs ==> Owned(chunks, pub, txs, t)
  }

  // ---- Assets and chain ----

  ghost predicate NotarizationInv(assets: map<Id, AssetRow>, notarizing: map<Id, Option<TxId>>, txs: map<TxId, Tx>) {
    && (forall t :: t in txs && txs[t].call.NotarizeAsset? ==>
          txs[t].call.asset in assets && txs[t].call.hash == assets[txs[t].call.asset].contentHash)
    && (forall t :: t in txs ==> !txs[t].call.NotarizeContract?)
    && (forall id :: id in assets ==>
          && (assets[id].txHash.Some? ==>
                assets[id].txHash.value in txs && txs[assets[id].txHash.value].call == N.NotarizeAsset(id, assets[id].contentHash))
          && (assets[id].status == CONFIRMED ==>
                && assets[id].txHash.Some?
                && txs[assets[id].txHash.value].block.Some?
                && assets[id].blockNumber == txs[assets[id].txHash.value].block))
    && (forall id :: id in notarizing ==>
          && id in assets && assets[id].status == PENDING && assets[id].txHash.None?
          && (notarizing[id].Some? ==>
                notarizing[id].value in txs && txs[notarizing[id].value].call == N.NotarizeAsset(id, assets[id].contentHash)))
  }

  ghost predicate ChainInv(c: Config, assets: map<Id, AssetRow>, txs: map<TxId, Tx>, chain: N.Storage) {
    && chain.attester == c.attester
    && N.LogTellsStorage(chain)
    && (forall id :: N.Known(chain, id) ==> id in assets && N.AssetAt(chain, id).contentHash == assets[id].contentHash)
  }

  /** Every publication ever broadcast belongs to a chunk. */
  ghost predicate NoOrphans(txs: map<TxId, Tx>) {
    forall t :: t in txs && txs[t].call.PublishBatch? ==> txs[t].chunk.Some?
  }

  /** Every notarisation is the one its asset row waits for or has stored, a mined one has registered the
      asset, and a row without hash is being notarised or has FAILED. */
  ghost predicate RegistryInv(assets: map<Id, AssetRow>, notarizing: map<Id, Option<TxId>>, txs: map<TxId, Tx>, chain: N.Storage) {
    && (forall t :: t in txs && txs[t].call.NotarizeAsset? ==>
          var id := txs[t].call.asset;
          && id in assets
          && (assets[id].txHash == Some(t) || (id in notarizing && notarizing[id] == Some(t)))
          && (txs[t].block.Some? ==> N.Known(chain, id)))
    && (forall id :: id in assets ==>
          && (assets[id].status == PENDING && assets[id].txHash.None? ==> id in notarizing)
          && (assets[id].status == FAILED ==> assets[id].txHash.None?))
    && (forall id :: N.Known(chain, id) ==>
          id in assets && (assets[id].txHash.Some? || (id in notarizing && notarizing[id].Some?)))
  }

  ghost predicate BlocksInv(txs: map<TxId, Tx>, head: nat) {
    forall t :: t in txs && txs[t].block.Some? ==> txs[t].block.value <= head
  }

  // ---- Reconciliation ----

  ghost predicate StatusInv(batches: map<Period, BatchRow>, chunks: map<Period, seq<ChunkRow>>) {
    forall p :: p in batches ==>
      && batches[p].status != FAILED
      && (batches[p].mirrorApplied ==> AllConfirmed(RowsOf(chunks, p)))
      && (batches[p].status == CONFIRMED ==>
            batches[p].mirrorApplied && batches[p].blockNumber == Some(MaxBlock(RowsOf(chunks, p))))
      && (batches[p].status == PENDING ==> batches[p].blockNumber.None?)
  }

  ghost predicate DepthInv(c: Config, chunks: map<Period, seq<ChunkRow>>, txs: map<TxId, Tx>, head: nat) {
    forall p, j :: p in chunks && 0 <= j < |chunks[p]| && chunks[p][j].status == CONFIRMED ==>
      chunks[p][j].txHash.Some? && Deep(c, txs, head, chunks[p][j].txHash.value)
  }

  ghost predicate TaskOk(batches: map<Period, BatchRow>, rows: seq<ChunkRow>, p: Period, t: Task)
    requires p in batches
  {
    match t
    case Loading(b) =>
      b.payload == batches[p].payload && b.mirrorApplied == batches[p].mirrorApplied && batches[p].status == PENDING
    case Mirroring(payload, block, next) =>
      && payload == batches[p].payload && next <= |payload|
      && batches[p].status == PENDING && !batches[p].mirrorApplied
      && AllConfirmed(rows) && block == MaxBlock(rows)
    case ReadingChain(payload, block, next) =>
      && payload == batches[p].payload && next <= |payload|
      && batches[p].status == PENDING && batches[p].mirrorApplied && block == MaxBlock(rows)
    case ReadingMirror(payload, block, next, _) =>
      && payload == batches[p].payload && next < |payload|
      && batches[p].status == PENDING && batches[p].mirrorApplied && block == MaxBlock(rows)
    case Anchoring => batches[p].status == CONFIRMED
    case Finished(confirmed) => confirmed ==> batches[p].status == CONFIRMED
  }

  ghost predicate TickInv(batches: map<Period, BatchRow>, chunks: map<Period, seq<ChunkRow>>, tick: Tick) {
    match tick
    case Idle => true
    case ConfirmingChunks(todo) =>
      forall p, j :: (p, j) in todo ==> p in chunks && j < |chunks[p]| && chunks[p][j].txHash == Some(todo[(p, j)])
    case Finalising(tasks) =>
      forall p :: p in tasks ==> p in batches && TaskOk(batches, RowsOf(chunks, p), p, tasks[p])
  }

  predicate InAnchoring(tick: Tick, p: Period) {
    tick.Finalising? && p in tick.tasks && tick.tasks[p].Anchoring?
  }

  predicate AnchorOk(batches: map<Period, BatchRow>, tick: Tick, v: View) {
    && (v.anchored ==> v.period in batches && batches[v.period].status == CONFIRMED)
    && (v.period in batches && batches[v.period].status == CONFIRMED && !InAnchoring(tick, v.period) ==> v.anchored)
  }

  /** An anchored view belongs to a CONFIRMED batch; once anchoring is over, all its views are anchored. */
  ghost predicate AnchorInv(views: seq<View>, batches: map<Period, BatchRow>, tick: Tick) {
    forall i :: 0 <= i < |views| ==> AnchorOk(batches, tick, views[i])
  }

  // ---- Counting ----

  predicate Landed(txs: map<TxId, Tx>, o: Option<TxId>) {
    o.Some? && o.value in txs && txs[o.value].block.Some?
  }

  ghost function Flags(chunks: map<Period, seq<ChunkRow>>, pub: map<Period, Publisher>, txs: map<TxId, Tx>, p: Period): (r: seq<bool>)
    requires p in chunks
    ensures |r| == |chunks[p]|
  {
    seq(|chunks[p]|, j requires 0 <= j < |chunks[p]| => Landed(txs, LiveTx(chunks, pub, p, j)))
  }

  /** Counts of period p for asset a in the chunks whose transaction has been mined. */
  ghost function LandedCount(
    c: Config, batches: map<Period, BatchRow>, chunks: map<Period, seq<ChunkRow>>, pub: map<Period, Publisher>,
    txs: map<TxId, Tx>, p: Period, a: Id): nat
    requires p in batches
  {
    var ss := Slices(batches[p].payload, c.maxChunk);
    if p in chunks && |chunks[p]| == |ss| then CountFlagged(ss, Flags(chunks, pub, txs, p), a) else 0
  }

  ghost function LandedBy(
    c: Config, batches: map<Period, BatchRow>, chunks: map<Period, seq<ChunkRow>>, pub: map<Period, Publisher>,
    txs: map<TxId, Tx>, a: Id): map<Period, nat>
  {
    map p | p in batches :: LandedCount(c, batches, chunks, pub, txs, p, a)
  }

  /** How many entries of the payload the running mirror loop of p has added. */
  function Progress(tick: Tick, p: Period): nat {
    if tick.Finalising? && p in tick.tasks && tick.tasks[p].Mirroring? then tick.tasks[p].next else 0
  }

  function Take(u: seq<Update>, n: nat): seq<Update> {
    if n <= |u| then u[..n] else u
  }

  /** Counts of period p for asset a already added to the mirror. */
  function MirroredCount(batches: map<Period, BatchRow>, tick: Tick, p: Period, a: Id): nat
    requires p in batches
  {
    if batches[p].mirrorApplied then CountOf(batches[p].payload, a)
    else CountOf(Take(batches[p].payload, Progress(tick, p)), a)
  }

  function MirroredBy(batches: map<Period, BatchRow>, tick: Tick, a: Id): map<Period, nat> {
    map p | p in batches :: MirroredCount(batches, tick, p, a)
  }

  function Mirror(assets: map<Id, AssetRow>, a: Id): nat {
    if a in assets then assets[a].totalViewsMirror else 0
  }

  /** The chain holds exactly the landed chunks. */
  ghost predicate ChainCountInv(
    c: Config, batches: map<Period, BatchRow>, chunks: map<Period, seq<ChunkRow>>, pub: map<Period, Publisher>,
    txs: map<TxId, Tx>, chain: N.Storage)
  {
    forall a :: N.Total(chain, a) == MapSum(LandedBy(c, batches, chunks, pub, txs, a))
  }

  /** The mirror holds exactly the applied batches and the finished turns of the running loops. */
  ghost predicate MirrorCountInv(assets: map<Id, AssetRow>, batches: map<Period, BatchRow>, tick: Tick) {
    forall a :: Mirror(assets, a) == MapSum(MirroredBy(batches, tick, a))
  }

  /** The part that also holds after crashes and reverted transactions. */
  ghost predicate Core(c: Config, s: State) {
    && ViewsInv(s.views, s.assets)
    && BatchesInv(s.views, s.batches)
    && ChunksInv(c, s.batches, s.chunks)
    && PublishersInv(s.views, s.batches, s.chunks, s.pub)
    && SentInv(s.chunks, s.pub, s.txs)
    && OwnedInv(s.chunks, s.pub, s.txs)
    && NotarizationInv(s.assets, s.notarizing, s.txs)
    && ChainInv(c, s.assets, s.txs, s.chain)
    && BlocksInv(s.txs, s.head)
    && StatusInv(s.batches, s.chunks)
    && DepthInv(c, s.chunks, s.txs, s.head)
    && TickInv(s.batches, s.chunks, s.tick)
  }

  ghost predicate Inv(c: Config, s: State) {
    && Core(c, s)
    && NoOrphans(s.txs)
    && RegistryInv(s.assets, s.notarizing, s.txs, s.chain)
    && AnchorInv(s.views, s.batches, s.tick)
    && ChainCountInv(c, s.batches, s.chunks, s.pub, s.txs, s.chain)
    && MirrorCountInv(s.assets, s.batches, s.tick)
  }

  lemma InitInv(c: Config)
    ensures Inv(c, Init(c))
  {
  }

  // ---- Facts about the writes ----

  lemma ViewCountSnoc(views: seq<View>, v: View, p: Period, a: Id)
    ensures ViewCount(views + [v], p, a) == ViewCount(views, p, a) + if v.period == p && v.asset == a then 1 else 0
  {
    assert (views + [v])[..|views|] == views;
  }

  lemma {:induction false} ViewCountPositive(views: seq<View>, p: Period, a: Id)
    requires ViewCount(views, p, a) > 0
    ensures exists i :: 0 <= i < |views| && views[i].asset == a && views[i].period == p
  {
    var n := |views| - 1;
    if !(views[n].period == p && views[n].asset == a) {
      ViewCountPositive(views[..n], p, a);
      var i :| 0 <= i < n && views[..n][i].asset == a && views[..n][i].period == p;
      assert views[i].asset == a;
    }
  }

  lemma {:induction false} AnchorFacts(views: seq<View>, p: Period)
    ensures |AnchorPeriod(views, p)| == |views|
    ensures forall i :: 0 <= i < |views| ==>
              AnchorPeriod(views, p)[i] == if views[i].period == p then views[i].(anchored := true) else views[i]
  {
    if views != [] { AnchorFacts(views[..|views| - 1], p); }
  }

  lemma {:induction false} AnchorCounts(views: seq<View>, p: Period, q: Period, a: Id)
    ensures ViewCount(AnchorPeriod(views, p), q, a) == ViewCount(views, q, a)
  {
    if views != [] {
      var v := views[|views| - 1];
      AnchorCounts(views[..|views| - 1], p, q, a);
      ViewCountSnoc(AnchorPeriod(views[..|views| - 1], p), if v.period == p then v.(anchored := true) else v, q, a);
    }
  }

  lemma {:induction false} FreshRowsFacts(ss: seq<seq<Update>>)
    ensures |FreshRows(ss)| == |ss|
    ensures forall j :: 0 <= j < |ss| ==> FreshRows(ss)[j] == NewChunk(ss[j])
  {
    if ss != [] { FreshRowsFacts(ss[..|ss| - 1]); }
  }

  /** Rows no longer than the slices keep their content; the rest is new, unsent and in order. */
  lemma EnsureRowsFacts(rows: seq<ChunkRow>, ss: seq<seq<Update>>)
    ensures |rows| <= |EnsureRows(rows, ss)|
    ensures forall j :: 0 <= j < |rows| ==> EnsureRows(rows, ss)[j] == rows[j]
    ensures |rows| <= |ss| ==> |EnsureRows(rows, ss)| == |ss|
    ensures forall j :: |rows| <= j < |ss| ==> EnsureRows(rows, ss)[j] == NewChunk(ss[j])
  {
    if |rows| < |ss| { FreshRowsFacts(ss[|rows|..]); }
  }

  /** Stable chunk plan: for a frozen period every re-read, in any row order, sorts to the stored payload. */
  lemma ReaggregationIsStable(rows: seq<Update>, views: seq<View>, p: Period)
    requires IsAggregate(rows, views, p)
    ensures IsPlan(SortByAsset(rows), views, p)
    ensures rows != [] ==> SortByAsset(rows) != []
  {
    SortFacts(rows);
    if rows != [] {
      assert rows[0] in multiset(rows);
      assert rows[0] in multiset(SortByAsset(rows));
    }
  }

  lemma PlansAgree(u: seq<Update>, v: seq<Update>, views: seq<View>, p: Period)
    requires IsPlan(u, views, p) && IsPlan(v, views, p)
    ensures u == v
  {
    forall a ensures CountOf(u, a) == CountOf(v, a) {}
    PlanUnique(u, v);
  }

  lemma PlanAssetsExist(u: seq<Update>, views: seq<View>, p: Period, assets: map<Id, AssetRow>, i: nat)
    requires IsPlan(u, views, p) && ViewsInv(views, assets) && i < |u|
    ensures u[i].asset in assets
  {
    CountIsEntry(u, i);
    ViewCountPositive(views, p, u[i].asset);
  }
}
