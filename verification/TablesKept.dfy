/** Every event keeps views, batches, chunk rows and the snapshots of running publishers. */
module TablesKept {
  import opened Options
  import opened Payloads
  import opened Protocol
  import opened Invariant
  import opened Moves

  /** Rows are only added and their content hash never changes. */
  ghost predicate HashesKept(assets: map<Id, AssetRow>, assets': map<Id, AssetRow>) {
    forall id :: id in assets ==> id in assets' && assets'[id].contentHash == assets[id].contentHash
  }

  lemma HashesAlwaysKept(c: Config, s: State, e: Event)
    requires Enabled(c, s, e)
    ensures HashesKept(s.assets, Apply(c, s, e).assets)
  {
    hide Apply, Enabled, ApplyUser, UserCan;
    if e.MirrorOne? {
      AfterMirrorOne(c, s, e.p);
    } else if UserEvent(e) {
      AfterAssetEvent(c, s, e);
      UserKeepsHashes(c, s, e);
    } else {
      OthersUntouched(c, s, e);
    }
  }

  lemma UserKeepsHashes(c: Config, s: State, e: Event)
    requires UserEvent(e) && UserCan(c, s, e)
    ensures HashesKept(s.assets, ApplyUser(c, s, e).assets)
  {
  }

  lemma ViewsAfterRegister(views: seq<View>, assets: map<Id, AssetRow>, v: View)
    requires ViewsInv(views, assets) && v.asset in assets
    requires forall i :: 0 <= i < |views| ==> views[i].key != v.key
    ensures ViewsInv(views + [v], assets)
  {
  }

  lemma ViewsKept(c: Config, s: State, e: Event)
    requires Enabled(c, s, e)
    requires ViewsInv(s.views, s.assets)
    ensures ViewsInv(Apply(c, s, e).views, Apply(c, s, e).assets)
  {
    hide Apply, Enabled;
    HashesAlwaysKept(c, s, e);
    OthersUntouched(c, s, e);
    if e.Register? {
      AfterRegister(c, s, e.key, e.asset, e.period);
      ViewsAfterRegister(s.views, s.assets, View(e.key, e.asset, e.period, false));
    } else if e.AnchorViews? {
      AfterAnchor(c, s, e.p);
      AnchorFacts(s.views, e.p);
    }
  }

  lemma PlanAfterRegister(u: seq<Update>, views: seq<View>, v: View, p: Period)
    requires IsPlan(u, views, p) && v.period != p
    ensures IsPlan(u, views + [v], p)
  {
    forall a ensures CountOf(u, a) == ViewCount(views + [v], p, a) { ViewCountSnoc(views, v, p, a); }
  }

  lemma PlanAfterAnchor(u: seq<Update>, views: seq<View>, p: Period, q: Period)
    requires IsPlan(u, views, p)
    ensures IsPlan(u, AnchorPeriod(views, q), p)
  {
    forall a ensures CountOf(u, a) == ViewCount(AnchorPeriod(views, q), p, a) { AnchorCounts(views, q, p, a); }
  }

  /** The plan of a period in publication is not disturbed: no view joins it any more. */
  lemma PlanKept(c: Config, s: State, e: Event, u: seq<Update>, p: Period)
    requires Enabled(c, s, e)
    requires IsPlan(u, s.views, p) && (p in s.batches || p in s.pub)
    ensures IsPlan(u, Apply(c, s, e).views, p)
  {
    hide Apply, Enabled;
    OthersUntouched(c, s, e);
    if e.Register? {
      AfterRegister(c, s, e.key, e.asset, e.period);
      PlanAfterRegister(u, s.views, View(e.key, e.asset, e.period, false), p);
    } else if e.AnchorViews? {
      AfterAnchor(c, s, e.p);
      PlanAfterAnchor(u, s.views, p, e.p);
    }
  }

  // ---- Batch rows ----

  /** Nothing but the transaction hash changes. */
  predicate SameBatch(x: BatchRow, y: BatchRow) {
    y == x.(txHash := y.txHash)
  }

  predicate NewBatch(y: BatchRow) {
    y.status == PENDING && !y.mirrorApplied && y.blockNumber.None?
  }

  /** What an event may do to the batch rows. */
  ghost predicate BatchMoves(s: State, e: Event, batches': map<Period, BatchRow>) {
    && (forall p :: p in s.batches ==>
          && p in batches'
          && (if e == MarkMirror(p) then batches'[p] == s.batches[p].(mirrorApplied := true)
              else if e == ConfirmBatch(p) then
                InTask(s, p) && s.tick.tasks[p].ReadingChain?
                && batches'[p] == s.batches[p].(status := CONFIRMED, blockNumber := Some(s.tick.tasks[p].block))
              else SameBatch(s.batches[p], batches'[p])))
    && (forall p :: p in batches' && p !in s.batches ==>
          && e == EnsureBatch(p) && NewBatch(batches'[p])
          && p in s.pub && s.pub[p].Aggregated?
          && batches'[p].payload == s.pub[p].sorted
          && batches'[p].assetCount == |s.pub[p].sorted| && batches'[p].viewsTotal == TotalOf(s.pub[p].sorted))
  }

  lemma EnsureBatchMoves(c: Config, s: State, p: Period)
    requires Enabled(c, s, EnsureBatch(p))
    ensures BatchMoves(s, EnsureBatch(p), Apply(c, s, EnsureBatch(p)).batches)
  {
    hide Apply, Enabled;
    AfterEnsureBatch(c, s, p);
  }

  lemma RecordChunkMoves(c: Config, s: State, p: Period)
    requires Enabled(c, s, RecordChunk(p))
    ensures BatchMoves(s, RecordChunk(p), Apply(c, s, RecordChunk(p)).batches)
  {
    hide Apply, Enabled;
    AfterRecordChunk(c, s, p);
  }

  lemma MarkMirrorMoves(c: Config, s: State, p: Period)
    requires Enabled(c, s, MarkMirror(p))
    ensures BatchMoves(s, MarkMirror(p), Apply(c, s, MarkMirror(p)).batches)
  {
    hide Apply, Enabled;
    AfterMarkMirror(c, s, p);
  }

  lemma ConfirmBatchMoves(c: Config, s: State, p: Period)
    requires Enabled(c, s, ConfirmBatch(p))
    ensures BatchMoves(s, ConfirmBatch(p), Apply(c, s, ConfirmBatch(p)).batches)
  {
    hide Apply, Enabled;
    AfterConfirmBatch(c, s, p);
  }

  lemma NoBatchMoves(s: State, e: Event)
    requires !TouchesBatches(e)
    ensures BatchMoves(s, e, s.batches)
  {
  }

  lemma BatchRowsMove(c: Config, s: State, e: Event)
    requires Enabled(c, s, e)
    ensures BatchMoves(s, e, Apply(c, s, e).batches)
  {
    hide Apply, Enabled, BatchMoves;
    if e.EnsureBatch? {
      EnsureBatchMoves(c, s, e.p);
    } else if e.RecordChunk? {
      RecordChunkMoves(c, s, e.p);
    } else if e.MarkMirror? {
      MarkMirrorMoves(c, s, e.p);
    } else if e.ConfirmBatch? {
      ConfirmBatchMoves(c, s, e.p);
    } else {
      OthersUntouched(c, s, e);
      NoBatchMoves(s, e);
    }
  }

  /** The payload of a batch never changes; a batch appears by `EnsureBatch` only. */
  lemma PayloadsStay(c: Config, s: State, e: Event)
    requires Enabled(c, s, e)
    ensures forall p :: p in s.batches ==>
              p in Apply(c, s, e).batches && Apply(c, s, e).batches[p].payload == s.batches[p].payload
    ensures forall p :: p in Apply(c, s, e).batches && p !in s.batches ==> e == EnsureBatch(p)
  {
    hide Apply, Enabled;
    BatchRowsMove(c, s, e);
  }

  lemma BatchesKept(c: Config, s: State, e: Event)
    requires Enabled(c, s, e)
    requires BatchesInv(s.views, s.batches)
    requires PublishersInv(s.views, s.batches, s.chunks, s.pub)
    ensures BatchesInv(Apply(c, s, e).views, Apply(c, s, e).batches)
  {
    hide Apply, Enabled;
    BatchRowsMove(c, s, e);
    var s' := Apply(c, s, e);
    forall p | p in s'.batches ensures BatchOk(s'.views, p, s'.batches[p]) {
      if p in s.batches {
        assert BatchOk(s.views, p, s.batches[p]);
        PlanKept(c, s, e, s.batches[p].payload, p);
      } else {
        assert PublisherOk(s.views, s.batches, s.chunks, p, s.pub[p]);
        PlanKept(c, s, e, s.pub[p].sorted, p);
      }
    }
  }

  // ---- Chunk rows ----

  predicate SamePlace(x: seq<ChunkRow>, y: seq<ChunkRow>) {
    |x| == |y| && forall j :: 0 <= j < |x| ==> x[j].payload == y[j].payload
  }

  /** `ensureChunks` on rows that are already complete changes nothing; otherwise all rows are new. */
  lemma EnsuredRows(c: Config, s: State, p: Period)
    requires Enabled(c, s, EnsureChunks(p))
    requires ChunksInv(c, s.batches, s.chunks)
    requires PublishersInv(s.views, s.batches, s.chunks, s.pub)
    ensures p in s.batches
    ensures p in s.chunks ==> Apply(c, s, EnsureChunks(p)).chunks == s.chunks
    ensures p in Apply(c, s, EnsureChunks(p)).chunks
    ensures forall q :: q != p ==>
              (q in Apply(c, s, EnsureChunks(p)).chunks <==> q in s.chunks)
              && (q in s.chunks ==> Apply(c, s, EnsureChunks(p)).chunks[q] == s.chunks[q])
    ensures p !in s.chunks ==>
              var rows := Apply(c, s, EnsureChunks(p)).chunks[p];
              && |rows| == |Slices(s.batches[p].payload, c.maxChunk)|
              && forall j :: 0 <= j < |rows| ==> rows[j] == NewChunk(Slices(s.batches[p].payload, c.maxChunk)[j])
  {
    AfterEnsureChunks(c, s, p);
    hide Apply, Enabled;
    var t := s.pub[p];
    assert PublisherOk(s.views, s.batches, s.chunks, p, t);
    EnsureRowsFacts(RowsOf(s.chunks, p), Slices(t.sorted, c.maxChunk));
    if p in s.chunks {
      assert s.chunks[p := s.chunks[p]] == s.chunks;
    }
  }

  /** Chunk rows never disappear and keep their payload; new rows come as one complete set. */
  ghost predicate ChunkMoves(c: Config, s: State, e: Event, chunks': map<Period, seq<ChunkRow>>) {
    && (forall p :: p in s.chunks ==> p in chunks' && SamePlace(s.chunks[p], chunks'[p]))
    && (forall p :: p in chunks' && p !in s.chunks ==>
          && e == EnsureChunks(p) && p in s.batches
          && SamePayloads(chunks'[p], Slices(s.batches[p].payload, c.maxChunk))
          && forall j :: 0 <= j < |chunks'[p]| ==> chunks'[p][j] == NewChunk(chunks'[p][j].payload))
    && (forall p :: p in s.chunks && p in chunks' && !(TouchesChunks(e) && e.p == p) ==> chunks'[p] == s.chunks[p])
  }

  lemma EnsureChunksMoves(c: Config, s: State, p: Period)
    requires Enabled(c, s, EnsureChunks(p))
    requires ChunksInv(c, s.batches, s.chunks)
    requires PublishersInv(s.views, s.batches, s.chunks, s.pub)
    ensures ChunkMoves(c, s, EnsureChunks(p), Apply(c, s, EnsureChunks(p)).chunks)
  {
    hide Apply, Enabled;
    EnsuredRows(c, s, p);
  }

  lemma RowUpdateMoves(c: Config, s: State, e: Event, p: Period, j: nat, row: ChunkRow)
    requires p in s.chunks && j < |s.chunks[p]| && row.payload == s.chunks[p][j].payload
    requires TouchesChunks(e) && e.p == p
    ensures ChunkMoves(c, s, e, s.chunks[p := s.chunks[p][j := row]])
  {
  }

  lemma NoRowMoves(c: Config, s: State, e: Event)
    ensures ChunkMoves(c, s, e, s.chunks)
  {
  }

  lemma RecordChunkMovesRow(c: Config, s: State, p: Period)
    requires Enabled(c, s, RecordChunk(p))
    ensures ChunkMoves(c, s, RecordChunk(p), Apply(c, s, RecordChunk(p)).chunks)
  {
    hide Apply, Enabled, ChunkMoves;
    AfterRecordChunk(c, s, p);
    var j := s.pub[p].next;
    RowUpdateMoves(c, s, RecordChunk(p), p, j, s.chunks[p][j].(txHash := Some(s.pub[p].tx), status := PENDING));
  }

  lemma FailSendMovesRow(c: Config, s: State, p: Period)
    requires Enabled(c, s, FailSend(p))
    ensures ChunkMoves(c, s, FailSend(p), Apply(c, s, FailSend(p)).chunks)
  {
    hide Apply, Enabled, ChunkMoves;
    AfterFailSend(c, s, p);
    var j := s.pub[p].next;
    RowUpdateMoves(c, s, FailSend(p), p, j, s.chunks[p][j].(status := FAILED));
  }

  lemma CheckChunkMovesRow(c: Config, s: State, p: Period, j: nat, failed: bool)
    requires Enabled(c, s, CheckChunk(p, j, failed))
    ensures ChunkMoves(c, s, CheckChunk(p, j, failed), Apply(c, s, CheckChunk(p, j, failed)).chunks)
  {
    hide Apply, Enabled, ChunkMoves;
    AfterCheckChunk(c, s, p, j, failed);
    NoRowMoves(c, s, CheckChunk(p, j, failed));
    var t := s.tick.todo[(p, j)];
    if t in s.txs {
      RowUpdateMoves(c, s, CheckChunk(p, j, failed), p, j, s.chunks[p][j].(status := CONFIRMED, blockNumber := s.txs[t].block));
    }
  }

  lemma ChunkRowsMove(c: Config, s: State, e: Event)
    requires Enabled(c, s, e)
    requires ChunksInv(c, s.batches, s.chunks)
    requires PublishersInv(s.views, s.batches, s.chunks, s.pub)
    ensures ChunkMoves(c, s, e, Apply(c, s, e).chunks)
  {
    hide Apply, Enabled, ChunkMoves, ChunksInv, PublishersInv;
    if e.EnsureChunks? {
      EnsureChunksMoves(c, s, e.p);
    } else if e.RecordChunk? {
      RecordChunkMovesRow(c, s, e.p);
    } else if e.FailSend? {
      FailSendMovesRow(c, s, e.p);
    } else if e.CheckChunk? {
      CheckChunkMovesRow(c, s, e.p, e.j, e.failed);
    } else {
      OthersUntouched(c, s, e);
      NoRowMoves(c, s, e);
    }
  }

  lemma ChunksKept(c: Config, s: State, e: Event)
    requires Enabled(c, s, e)
    requires ChunksInv(c, s.batches, s.chunks)
    requires PublishersInv(s.views, s.batches, s.chunks, s.pub)
    ensures ChunksInv(c, Apply(c, s, e).batches, Apply(c, s, e).chunks)
  {
    hide Apply, Enabled;
    PayloadsStay(c, s, e);
    ChunkRowsMove(c, s, e);
    var s' := Apply(c, s, e);
    forall p | p in s'.chunks
      ensures p in s'.batches && SamePayloads(s'.chunks[p], Slices(s'.batches[p].payload, c.maxChunk))
    {
      assert p in s.batches && s'.batches[p].payload == s.batches[p].payload;
    }
  }

  // ---- Publishers ----

  /** A publisher does not notice changes that leave its period's payload, chunk payloads and hashes alone. */
  lemma PublisherFrame(
    views: seq<View>, batches: map<Period, BatchRow>, chunks: map<Period, seq<ChunkRow>>,
    batches': map<Period, BatchRow>, chunks': map<Period, seq<ChunkRow>>, p: Period, t: Publisher)
    requires PublisherOk(views, batches, chunks, p, t)
    requires (p in batches <==> p in batches') && (p in batches ==> batches'[p].payload == batches[p].payload)
    requires p in chunks ==> p in chunks' && |chunks'[p]| == |chunks[p]|
    requires p in chunks ==> forall j :: 0 <= j < |chunks[p]| ==>
               chunks'[p][j].payload == chunks[p][j].payload && chunks'[p][j].txHash == chunks[p][j].txHash
    ensures PublisherOk(views, batches', chunks', p, t)
  {
  }

  /** The publisher that moves. */
  lemma MovingPublisherKept(c: Config, s: State, e: Event)
    requires PublisherEvent(e) && PublisherCan(s, e) && !e.EndPublish?
    requires BatchesInv(s.views, s.batches)
    requires ChunksInv(c, s.batches, s.chunks)
    requires PublishersInv(s.views, s.batches, s.chunks, s.pub)
    ensures e.p in ApplyPublisher(c, s, e).pub
    ensures PublisherOk(s.views, ApplyPublisher(c, s, e).batches, ApplyPublisher(c, s, e).chunks, e.p, ApplyPublisher(c, s, e).pub[e.p])
  {
    var s' := ApplyPublisher(c, s, e);
    if e.p in s.pub { assert PublisherOk(s.views, s.batches, s.chunks, e.p, s.pub[e.p]); }
    if e.ReadAggregates? {
      ReaggregationIsStable(e.rows, s.views, e.p);
    } else if e.EnsureBatch? {
      if s.pub[e.p].present { PlansAgree(s.pub[e.p].sorted, s.batches[e.p].payload, s.views, e.p); }
    } else if e.SkipSent? {
      assert FreshFrom(s.pub[e.p].rows, s'.chunks[e.p], s.pub[e.p].next + 1);
    } else if e.RecordChunk? {
      assert FreshFrom(s.pub[e.p].rows, s'.chunks[e.p], s.pub[e.p].next + 1);
    } else if e.FailSend? {
      assert FreshFrom(s.pub[e.p].rows, s'.chunks[e.p], s.pub[e.p].next + 1);
    }
  }

  lemma OtherPublisherKept(c: Config, s: State, e: Event, p: Period)
    requires PublisherEvent(e) && PublisherCan(s, e) && p != e.p && p in s.pub
    requires PublisherOk(s.views, s.batches, s.chunks, p, s.pub[p])
    ensures p in ApplyPublisher(c, s, e).pub && ApplyPublisher(c, s, e).pub[p] == s.pub[p]
    ensures PublisherOk(s.views, ApplyPublisher(c, s, e).batches, ApplyPublisher(c, s, e).chunks, p, s.pub[p])
  {
    var s' := ApplyPublisher(c, s, e);
    PublisherFrame(s.views, s.batches, s.chunks, s'.batches, s'.chunks, p, s.pub[p]);
  }

  /** No publisher appears unless it has just read its aggregates. */
  lemma PublishersAfter(c: Config, s: State, e: Event)
    requires PublisherEvent(e) && PublisherCan(s, e)
    ensures forall p :: p in ApplyPublisher(c, s, e).pub && p != e.p ==> p in s.pub
    ensures e.EndPublish? ==> e.p !in ApplyPublisher(c, s, e).pub
  {
  }

  /** Outside publishers, chunk rows keep payload and hash. */
  lemma SendsStay(c: Config, s: State, e: Event)
    requires Enabled(c, s, e) && !PublisherEvent(e)
    ensures Apply(c, s, e).pub == s.pub
    ensures Apply(c, s, e).chunks.Keys == s.chunks.Keys
    ensures forall p :: p in s.chunks ==>
              && |Apply(c, s, e).chunks[p]| == |s.chunks[p]|
              && forall j :: 0 <= j < |s.chunks[p]| ==>
                   && Apply(c, s, e).chunks[p][j].payload == s.chunks[p][j].payload
                   && Apply(c, s, e).chunks[p][j].txHash == s.chunks[p][j].txHash
  {
    hide Apply, Enabled;
    OthersUntouched(c, s, e);
    if e.CheckChunk? {
      AfterCheckChunk(c, s, e.p, e.j, e.failed);
    }
  }

  /** All publishers under an event of another kind. */
  lemma RestingPublisherKept(c: Config, s: State, e: Event, p: Period)
    requires Enabled(c, s, e) && !PublisherEvent(e) && p in s.pub
    requires PublisherOk(s.views, s.batches, s.chunks, p, s.pub[p])
    ensures Apply(c, s, e).pub == s.pub
    ensures PublisherOk(Apply(c, s, e).views, Apply(c, s, e).batches, Apply(c, s, e).chunks, p, s.pub[p])
  {
    hide Apply, Enabled;
    var s' := Apply(c, s, e);
    PayloadsStay(c, s, e);
    SendsStay(c, s, e);
    PublisherFrame(s.views, s.batches, s.chunks, s'.batches, s'.chunks, p, s.pub[p]);
    if s.pub[p].Aggregated? { PlanKept(c, s, e, s.pub[p].sorted, p); }
  }

  lemma PublishersKept(c: Config, s: State, e: Event)
    requires Enabled(c, s, e)
    requires BatchesInv(s.views, s.batches)
    requires ChunksInv(c, s.batches, s.chunks)
    requires PublishersInv(s.views, s.batches, s.chunks, s.pub)
    ensures PublishersInv(Apply(c, s, e).views, Apply(c, s, e).batches, Apply(c, s, e).chunks, Apply(c, s, e).pub)
  {
    hide Apply, Enabled, ApplyPublisher, PublisherCan;
    var s' := Apply(c, s, e);
    OthersUntouched(c, s, e);
    if PublisherEvent(e) {
      AfterPublisherEvent(c, s, e);
      PublishersAfter(c, s, e);
    }
    forall p | p in s'.pub ensures PublisherOk(s'.views, s'.batches, s'.chunks, p, s'.pub[p]) {
      if !PublisherEvent(e) {
        assert PublisherOk(s.views, s.batches, s.chunks, p, s.pub[p]);
        RestingPublisherKept(c, s, e, p);
      } else if p == e.p {
        MovingPublisherKept(c, s, e);
      } else {
        assert PublisherOk(s.views, s.batches, s.chunks, p, s.pub[p]);
        OtherPublisherKept(c, s, e, p);
      }
    }
  }
}
