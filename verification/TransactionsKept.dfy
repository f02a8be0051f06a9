/** Every event keeps the link between chunks and transactions, and between assets and the chain. */
module TransactionsKept {
  import opened Options
  import opened Payloads
  import N = NotaryContract
  import opened Protocol
  import opened Invariant
  import opened Moves
  import opened TablesKept

  // ---- Transactions ----

  /** Transactions only gain: new ones appear, unmined ones get a block. */
  ghost predicate TxsGrow(txs: map<TxId, Tx>, txs': map<TxId, Tx>) {
    forall t :: t in txs ==>
      && t in txs' && txs'[t].call == txs[t].call && txs'[t].chunk == txs[t].chunk
      && (txs[t].block.Some? ==> txs'[t].block == txs[t].block)
  }

  predicate Mined(txs: map<TxId, Tx>, t: TxId) {
    t in txs && txs[t].block.Some?
  }

  /** A publication appears by `SendChunk`, a notarisation by `SendNotarize`, unmined; only `Include` mines. */
  ghost predicate TxMoves(s: State, e: Event, txs': map<TxId, Tx>) {
    && TxsGrow(s.txs, txs')
    && (forall t :: t in txs' && t !in s.txs ==>
          && txs'[t].block.None?
          && (if txs'[t].call.PublishBatch? then e == SendChunk(txs'[t].call.period, t) && txs'[t].chunk.Some?
              else txs'[t].call.NotarizeAsset? && e == SendNotarize(txs'[t].call.asset, t)))
    && (forall t :: Mined(txs', t) ==> Mined(s.txs, t) || (e.Include? && e.tx == t))
  }

  lemma SendNotarizeMoves(c: Config, s: State, id: Id, tx: TxId)
    requires Enabled(c, s, SendNotarize(id, tx))
    ensures TxMoves(s, SendNotarize(id, tx), Apply(c, s, SendNotarize(id, tx)).txs)
  {
    hide Apply, Enabled;
    AfterSendNotarize(c, s, id, tx);
  }

  lemma SendChunkMoves(c: Config, s: State, p: Period, tx: TxId)
    requires Enabled(c, s, SendChunk(p, tx))
    ensures TxMoves(s, SendChunk(p, tx), Apply(c, s, SendChunk(p, tx)).txs)
  {
    hide Apply, Enabled;
    AfterSendChunk(c, s, p, tx);
  }

  lemma IncludeMoves(c: Config, s: State, tx: TxId, timestamp: nat)
    requires Enabled(c, s, Include(tx, timestamp))
    ensures TxMoves(s, Include(tx, timestamp), Apply(c, s, Include(tx, timestamp)).txs)
  {
    hide Apply, Enabled;
    AfterInclude(c, s, tx, timestamp);
  }

  lemma NoTxMoves(s: State, e: Event)
    ensures TxMoves(s, e, s.txs)
  {
  }

  lemma TxRowsMove(c: Config, s: State, e: Event)
    requires Enabled(c, s, e)
    ensures TxMoves(s, e, Apply(c, s, e).txs)
  {
    hide Apply, Enabled, TxMoves;
    if e.SendNotarize? {
      SendNotarizeMoves(c, s, e.id, e.tx);
    } else if e.SendChunk? {
      SendChunkMoves(c, s, e.p, e.tx);
    } else if e.Include? {
      IncludeMoves(c, s, e.tx, e.timestamp);
    } else {
      OthersUntouched(c, s, e);
      NoTxMoves(s, e);
    }
  }

  // ---- Chunks and their transactions ----

  predicate SendStep(e: Event) {
    e.SendChunk? || e.RecordChunk?
  }

  /** Other events neither start nor end a pending recording. */
  lemma RecordingsStay(c: Config, s: State, e: Event)
    requires Enabled(c, s, e) && !SendStep(e)
    ensures forall p :: p in s.pub && s.pub[p].Recording? ==> p in Apply(c, s, e).pub && Apply(c, s, e).pub[p] == s.pub[p]
    ensures forall p :: p in Apply(c, s, e).pub && Apply(c, s, e).pub[p].Recording? ==>
              p in s.pub && s.pub[p] == Apply(c, s, e).pub[p]
  {
    hide Apply, Enabled;
    OthersUntouched(c, s, e);
    if PublisherEvent(e) {
      AfterPublisherEvent(c, s, e);
      PublisherRecordingsStay(c, s, e);
    }
  }

  lemma PublisherRecordingsStay(c: Config, s: State, e: Event)
    requires PublisherEvent(e) && PublisherCan(s, e) && !SendStep(e)
    ensures forall p :: p in s.pub && s.pub[p].Recording? ==>
              p in ApplyPublisher(c, s, e).pub && ApplyPublisher(c, s, e).pub[p] == s.pub[p]
    ensures forall p :: p in ApplyPublisher(c, s, e).pub && ApplyPublisher(c, s, e).pub[p].Recording? ==>
              p in s.pub && s.pub[p] == ApplyPublisher(c, s, e).pub[p]
  {
  }

  predicate HasRow(chunks: map<Period, seq<ChunkRow>>, p: Period, j: nat) {
    p in chunks && j < |chunks[p]|
  }

  /** The live transaction of a chunk stays, except that a send gives one to a chunk that had none. */
  ghost predicate LiveTxMoves(
    s: State, e: Event, chunks': map<Period, seq<ChunkRow>>, pub': map<Period, Publisher>, p: Period, j: nat)
  {
    && (HasRow(s.chunks, p, j) ==>
          && HasRow(chunks', p, j)
          && chunks'[p][j].payload == s.chunks[p][j].payload
          && if e.SendChunk? && e.p == p && p in s.pub && s.pub[p].Sending? && s.pub[p].next == j
             then LiveTx(s.chunks, s.pub, p, j).None? && LiveTx(chunks', pub', p, j) == Some(e.tx)
             else LiveTx(chunks', pub', p, j) == LiveTx(s.chunks, s.pub, p, j))
    && (!HasRow(s.chunks, p, j) && HasRow(chunks', p, j) ==>
          LiveTx(chunks', pub', p, j).None? && chunks'[p][j] == NewChunk(chunks'[p][j].payload))
  }

  lemma SendingMovesLiveTx(c: Config, s: State, q: Period, tx: TxId, p: Period, j: nat)
    requires Enabled(c, s, SendChunk(q, tx))
    requires q in s.pub ==> PublisherOk(s.views, s.batches, s.chunks, q, s.pub[q])
    ensures LiveTxMoves(s, SendChunk(q, tx), Apply(c, s, SendChunk(q, tx)).chunks, Apply(c, s, SendChunk(q, tx)).pub, p, j)
  {
    hide Apply, Enabled;
    OthersUntouched(c, s, SendChunk(q, tx));
    AfterSendChunk(c, s, q, tx);
  }

  lemma RecordingMovesLiveTx(c: Config, s: State, q: Period, p: Period, j: nat)
    requires Enabled(c, s, RecordChunk(q))
    requires q in s.pub ==> PublisherOk(s.views, s.batches, s.chunks, q, s.pub[q])
    ensures LiveTxMoves(s, RecordChunk(q), Apply(c, s, RecordChunk(q)).chunks, Apply(c, s, RecordChunk(q)).pub, p, j)
  {
    hide Apply, Enabled;
    AfterRecordChunk(c, s, q);
  }

  lemma EnsuringMovesLiveTx(c: Config, s: State, q: Period, p: Period, j: nat)
    requires Enabled(c, s, EnsureChunks(q))
    requires ChunksInv(c, s.batches, s.chunks)
    requires PublishersInv(s.views, s.batches, s.chunks, s.pub)
    ensures LiveTxMoves(s, EnsureChunks(q), Apply(c, s, EnsureChunks(q)).chunks, Apply(c, s, EnsureChunks(q)).pub, p, j)
  {
    hide Apply, Enabled;
    EnsuredRows(c, s, q);
    AfterEnsureChunks(c, s, q);
    RecordingsStay(c, s, EnsureChunks(q));
  }

  lemma StatusMovesNoLiveTx(c: Config, s: State, e: Event, p: Period, j: nat)
    requires Enabled(c, s, e) && (e.FailSend? || e.CheckChunk?)
    ensures LiveTxMoves(s, e, Apply(c, s, e).chunks, Apply(c, s, e).pub, p, j)
  {
    hide Apply, Enabled;
    RecordingsStay(c, s, e);
    if e.FailSend? { AfterFailSend(c, s, e.p); } else { AfterCheckChunk(c, s, e.p, e.j, e.failed); }
  }

  lemma LiveTxMove(c: Config, s: State, e: Event, p: Period, j: nat)
    requires Enabled(c, s, e)
    requires ChunksInv(c, s.batches, s.chunks)
    requires PublishersInv(s.views, s.batches, s.chunks, s.pub)
    ensures LiveTxMoves(s, e, Apply(c, s, e).chunks, Apply(c, s, e).pub, p, j)
  {
    hide Apply, Enabled;
    if e.SendChunk? {
      if e.p in s.pub { assert PublisherOk(s.views, s.batches, s.chunks, e.p, s.pub[e.p]); }
      SendingMovesLiveTx(c, s, e.p, e.tx, p, j);
    } else if e.RecordChunk? {
      if e.p in s.pub { assert PublisherOk(s.views, s.batches, s.chunks, e.p, s.pub[e.p]); }
      RecordingMovesLiveTx(c, s, e.p, p, j);
    } else if e.EnsureChunks? {
      EnsuringMovesLiveTx(c, s, e.p, p, j);
    } else if e.FailSend? {
      StatusMovesNoLiveTx(c, s, e, p, j);
    } else if e.CheckChunk? {
      StatusMovesNoLiveTx(c, s, e, p, j);
    } else {
      QuietLiveTx(c, s, e, p, j);
    }
  }

  lemma QuietLiveTx(c: Config, s: State, e: Event, p: Period, j: nat)
    requires Enabled(c, s, e) && !TouchesChunks(e) && !e.SendChunk?
    ensures LiveTxMoves(s, e, Apply(c, s, e).chunks, Apply(c, s, e).pub, p, j)
  {
    hide Apply, Enabled;
    OthersUntouched(c, s, e);
    RecordingsStay(c, s, e);
  }

  // ---- Row statuses ----

  /** What an event may do to the status of chunk j of period p. */
  ghost predicate RowMoves(
    c: Config, s: State, e: Event, chunks': map<Period, seq<ChunkRow>>, p: Period, j: nat)
    requires HasRow(s.chunks, p, j)
  {
    var x := s.chunks[p][j];
    HasRow(chunks', p, j)
    && var y := chunks'[p][j];
       || y == x
       || (e.CheckChunk? && x.txHash.Some? && Deep(c, s.txs, s.head, x.txHash.value)
           && y == x.(status := CONFIRMED, blockNumber := s.txs[x.txHash.value].block))
       || (e.RecordChunk? && e.p == p && p in s.pub && s.pub[p].Recording? && s.pub[p].next == j
           && x.txHash.None? && y == x.(txHash := Some(s.pub[p].tx), status := PENDING))
       || (e.FailSend? && x.txHash.None? && y == x.(status := FAILED))
  }

  lemma RecordedRow(c: Config, s: State, q: Period, p: Period, j: nat)
    requires Enabled(c, s, RecordChunk(q)) && HasRow(s.chunks, p, j)
    requires PublishersInv(s.views, s.batches, s.chunks, s.pub)
    ensures RowMoves(c, s, RecordChunk(q), Apply(c, s, RecordChunk(q)).chunks, p, j)
  {
    hide Apply, Enabled;
    AfterRecordChunk(c, s, q);
    assert PublisherOk(s.views, s.batches, s.chunks, q, s.pub[q]);
  }

  lemma FailedRow(c: Config, s: State, q: Period, p: Period, j: nat)
    requires Enabled(c, s, FailSend(q)) && HasRow(s.chunks, p, j)
    requires PublishersInv(s.views, s.batches, s.chunks, s.pub)
    ensures RowMoves(c, s, FailSend(q), Apply(c, s, FailSend(q)).chunks, p, j)
  {
    hide Apply, Enabled;
    AfterFailSend(c, s, q);
    assert PublisherOk(s.views, s.batches, s.chunks, q, s.pub[q]);
  }

  lemma CheckedRow(c: Config, s: State, q: Period, i: nat, failed: bool, p: Period, j: nat)
    requires Enabled(c, s, CheckChunk(q, i, failed)) && HasRow(s.chunks, p, j)
    requires TickInv(s.batches, s.chunks, s.tick)
    ensures RowMoves(c, s, CheckChunk(q, i, failed), Apply(c, s, CheckChunk(q, i, failed)).chunks, p, j)
  {
    hide Apply, Enabled;
    AfterCheckChunk(c, s, q, i, failed);
  }

  lemma RowMove(c: Config, s: State, e: Event, p: Period, j: nat)
    requires Enabled(c, s, e) && HasRow(s.chunks, p, j)
    requires ChunksInv(c, s.batches, s.chunks)
    requires PublishersInv(s.views, s.batches, s.chunks, s.pub)
    requires TickInv(s.batches, s.chunks, s.tick)
    ensures RowMoves(c, s, e, Apply(c, s, e).chunks, p, j)
  {
    hide Apply, Enabled, PublishersInv, TickInv, ChunksInv;
    if e.EnsureChunks? {
      EnsuredRows(c, s, e.p);
    } else if e.RecordChunk? {
      RecordedRow(c, s, e.p, p, j);
    } else if e.FailSend? {
      FailedRow(c, s, e.p, p, j);
    } else if e.CheckChunk? {
      CheckedRow(c, s, e.p, e.j, e.failed, p, j);
    } else {
      OthersUntouched(c, s, e);
    }
  }

  lemma ChunkSentKept(c: Config, s: State, e: Event, p: Period, j: nat)
    requires Enabled(c, s, e)
    requires ChunksInv(c, s.batches, s.chunks)
    requires PublishersInv(s.views, s.batches, s.chunks, s.pub)
    requires SentInv(s.chunks, s.pub, s.txs)
    requires TickInv(s.batches, s.chunks, s.tick)
    requires HasRow(Apply(c, s, e).chunks, p, j)
    ensures ChunkSent(Apply(c, s, e).chunks, Apply(c, s, e).pub, Apply(c, s, e).txs, p, j)
  {
    hide Apply, Enabled;
    TxRowsMove(c, s, e);
    LiveTxMove(c, s, e, p, j);
    hide ChunksInv, TickInv;
    if HasRow(s.chunks, p, j) {
      assert ChunkSent(s.chunks, s.pub, s.txs, p, j);
      RowMove(c, s, e, p, j);
    }
    if e.SendChunk? {
      AfterSendChunk(c, s, e.p, e.tx);
      assert PublisherOk(s.views, s.batches, s.chunks, e.p, s.pub[e.p]);
    }
  }

  lemma SentKept(c: Config, s: State, e: Event)
    requires Enabled(c, s, e)
    requires ChunksInv(c, s.batches, s.chunks)
    requires PublishersInv(s.views, s.batches, s.chunks, s.pub)
    requires SentInv(s.chunks, s.pub, s.txs)
    requires TickInv(s.batches, s.chunks, s.tick)
    ensures SentInv(Apply(c, s, e).chunks, Apply(c, s, e).pub, Apply(c, s, e).txs)
  {
    hide Apply, Enabled, ChunkSent;
    var s' := Apply(c, s, e);
    forall p, j: nat | p in s'.chunks && j < |s'.chunks[p]| ensures ChunkSent(s'.chunks, s'.pub, s'.txs, p, j) {
      ChunkSentKept(c, s, e, p, j);
    }
  }

  lemma TxOwned(c: Config, s: State, e: Event, t: TxId)
    requires Enabled(c, s, e)
    requires ChunksInv(c, s.batches, s.chunks)
    requires PublishersInv(s.views, s.batches, s.chunks, s.pub)
    requires OwnedInv(s.chunks, s.pub, s.txs)
    requires t in Apply(c, s, e).txs
    ensures Owned(Apply(c, s, e).chunks, Apply(c, s, e).pub, Apply(c, s, e).txs, t)
  {
    hide Apply, Enabled;
    TxRowsMove(c, s, e);
    var tx := Apply(c, s, e).txs[t];
    if tx.call.PublishBatch? && tx.chunk.Some? {
      LiveTxMove(c, s, e, tx.call.period, tx.chunk.value);
      if t in s.txs {
        assert Owned(s.chunks, s.pub, s.txs, t);
      } else {
        AfterSendChunk(c, s, e.p, t);
        assert PublisherOk(s.views, s.batches, s.chunks, e.p, s.pub[e.p]);
      }
    }
  }

  lemma OwnedKept(c: Config, s: State, e: Event)
    requires Enabled(c, s, e)
    requires ChunksInv(c, s.batches, s.chunks)
    requires PublishersInv(s.views, s.batches, s.chunks, s.pub)
    requires OwnedInv(s.chunks, s.pub, s.txs)
    ensures OwnedInv(Apply(c, s, e).chunks, Apply(c, s, e).pub, Apply(c, s, e).txs)
  {
    hide Apply, Enabled, Owned;
    var s' := Apply(c, s, e);
    forall t | t in s'.txs ensures Owned(s'.chunks, s'.pub, s'.txs, t) {
      TxOwned(c, s, e, t);
    }
  }

  // ---- Notarisation ----

  ghost predicate AssetsSame(assets: map<Id, AssetRow>, assets': map<Id, AssetRow>) {
    assets'.Keys == assets.Keys
    && forall id :: id in assets ==> assets'[id] == assets[id].(totalViewsMirror := assets'[id].totalViewsMirror)
  }

  lemma NotarizationFrame(
    assets: map<Id, AssetRow>, notarizing: map<Id, Option<TxId>>, txs: map<TxId, Tx>, assets': map<Id, AssetRow>, txs': map<TxId, Tx>)
    requires NotarizationInv(assets, notarizing, txs)
    requires AssetsSame(assets, assets') && TxsGrow(txs, txs')
    requires forall t :: t in txs' && t !in txs ==> txs'[t].call.PublishBatch?
    ensures NotarizationInv(assets', notarizing, txs')
  {
  }

  lemma NotarizationKept(c: Config, s: State, e: Event)
    requires Enabled(c, s, e)
    requires NotarizationInv(s.assets, s.notarizing, s.txs)
    ensures NotarizationInv(Apply(c, s, e).assets, Apply(c, s, e).notarizing, Apply(c, s, e).txs)
  {
    hide Apply, Enabled, NotarizationInv;
    var s' := Apply(c, s, e);
    if UserEvent(e) {
      AfterAssetEvent(c, s, e);
      UserKeepsNotarization(c, s, e);
    } else {
      OthersUntouched(c, s, e);
      TxRowsMove(c, s, e);
      if e.MirrorOne? { AfterMirrorOne(c, s, e.p); }
      NotarizationFrame(s.assets, s.notarizing, s.txs, s'.assets, s'.txs);
    }
  }

  lemma UserKeepsNotarization(c: Config, s: State, e: Event)
    requires UserEvent(e) && UserCan(c, s, e)
    requires NotarizationInv(s.assets, s.notarizing, s.txs)
    ensures NotarizationInv(ApplyUser(c, s, e).assets, ApplyUser(c, s, e).notarizing, ApplyUser(c, s, e).txs)
  {
  }

  // ---- The chain ----

  /** A successful call registers at most the asset it names, under the hash it names. */
  lemma CallKeepsRegistry(chain: N.Storage, sender: N.Address, call: N.Call, timestamp: nat)
    requires N.LogTellsStorage(chain) && N.Execute(chain, sender, call, timestamp).Done?
    requires 0 < timestamp < N.TWO_TO_64
    ensures var chain' := N.Execute(chain, sender, call, timestamp).storage;
            && N.LogTellsStorage(chain') && chain'.attester == chain.attester
            && (call.NotarizeAsset? ==> N.Known(chain', call.asset) && N.AssetAt(chain', call.asset).contentHash == call.hash)
            && (forall id :: N.Known(chain, id) ==> N.Known(chain', id))
            && (forall id :: !(call.NotarizeAsset? && id == call.asset) ==>
                  (N.Known(chain', id) <==> N.Known(chain, id)) && N.AssetAt(chain', id).contentHash == N.AssetAt(chain, id).contentHash)
  {
    N.ExecuteKeepsLog(chain, sender, call, timestamp);
    hide N.LogTellsStorage;
    if call.PublishBatch? {
      N.PublishMeaning(chain, call.period, call.updates);
    }
  }

  /** Outside `Include`, what is mined was mined before. */
  lemma MinedBefore(c: Config, s: State, e: Event)
    requires Enabled(c, s, e) && !e.Include?
    ensures Apply(c, s, e).chain == s.chain
    ensures forall t :: t in Apply(c, s, e).txs && Apply(c, s, e).txs[t].block.Some? ==>
              t in s.txs && s.txs[t].block == Apply(c, s, e).txs[t].block && s.txs[t].call == Apply(c, s, e).txs[t].call
  {
    hide Apply, Enabled;
    OthersUntouched(c, s, e);
    TxRowsMove(c, s, e);
    var txs' := Apply(c, s, e).txs;
    assert forall t :: t in txs' && txs'[t].block.Some? ==> Mined(txs', t) && Mined(s.txs, t);
  }

  lemma ChainKept(c: Config, s: State, e: Event)
    requires Enabled(c, s, e)
    requires NotarizationInv(s.assets, s.notarizing, s.txs)
    requires ChainInv(c, s.assets, s.txs, s.chain)
    ensures ChainInv(c, Apply(c, s, e).assets, Apply(c, s, e).txs, Apply(c, s, e).chain)
  {
    hide Apply, Enabled, N.LogTellsStorage, N.Execute, N.Known, N.AssetAt;
    HashesAlwaysKept(c, s, e);
    if e.Include? {
      OthersUntouched(c, s, e);
      AfterInclude(c, s, e.tx, e.timestamp);
      CallKeepsRegistry(s.chain, c.attester, s.txs[e.tx].call, e.timestamp);
    } else {
      MinedBefore(c, s, e);
    }
  }

  lemma BlocksKept(c: Config, s: State, e: Event)
    requires Enabled(c, s, e)
    requires BlocksInv(s.txs, s.head)
    ensures BlocksInv(Apply(c, s, e).txs, Apply(c, s, e).head)
  {
    hide Apply, Enabled;
    OthersUntouched(c, s, e);
    if e.Include? {
      AfterInclude(c, s, e.tx, e.timestamp);
    } else {
      MinedBefore(c, s, e);
      if e.NewBlock? { AfterNewBlock(c, s); }
    }
  }

  lemma OrphansKept(c: Config, s: State, e: Event)
    requires Enabled(c, s, e) && NoOrphans(s.txs)
    ensures NoOrphans(Apply(c, s, e).txs)
  {
    hide Apply, Enabled;
    TxRowsMove(c, s, e);
  }

  lemma RegistryFrame(
    assets: map<Id, AssetRow>, notarizing: map<Id, Option<TxId>>, txs: map<TxId, Tx>, chain: N.Storage,
    assets': map<Id, AssetRow>, txs': map<TxId, Tx>)
    requires RegistryInv(assets, notarizing, txs, chain)
    requires AssetsSame(assets, assets') && TxsGrow(txs, txs')
    requires forall t :: t in txs' && t !in txs ==> txs'[t].call.PublishBatch?
    requires forall t :: Mined(txs', t) ==> Mined(txs, t)
    ensures RegistryInv(assets', notarizing, txs', chain)
  {
    forall t | t in txs' && txs'[t].call.NotarizeAsset? && txs'[t].block.Some? ensures N.Known(chain, txs'[t].call.asset) {
      assert Mined(txs', t);
    }
  }

  lemma IncludeKeepsRegistry(c: Config, s: State, tx: TxId, timestamp: nat)
    requires Enabled(c, s, Include(tx, timestamp))
    requires RegistryInv(s.assets, s.notarizing, s.txs, s.chain) && ChainInv(c, s.assets, s.txs, s.chain)
    ensures var s' := Apply(c, s, Include(tx, timestamp)); RegistryInv(s'.assets, s'.notarizing, s'.txs, s'.chain)
  {
    hide Apply, Enabled, N.Execute, N.LogTellsStorage;
    OthersUntouched(c, s, Include(tx, timestamp));
    AfterInclude(c, s, tx, timestamp);
    CallKeepsRegistry(s.chain, c.attester, s.txs[tx].call, timestamp);
    hide N.Known, N.AssetAt;
  }

  lemma UserKeepsRegistry(c: Config, s: State, e: Event)
    requires UserEvent(e) && UserCan(c, s, e)
    requires NotarizationInv(s.assets, s.notarizing, s.txs) && RegistryInv(s.assets, s.notarizing, s.txs, s.chain)
    ensures var s' := ApplyUser(c, s, e); RegistryInv(s'.assets, s'.notarizing, s'.txs, s'.chain)
  {
    hide N.Known;
    var s' := ApplyUser(c, s, e);
    forall t | t in s'.txs && s'.txs[t].call.NotarizeAsset?
      ensures var id := s'.txs[t].call.asset;
              && id in s'.assets
              && (s'.assets[id].txHash == Some(t) || (id in s'.notarizing && s'.notarizing[id] == Some(t)))
              && (s'.txs[t].block.Some? ==> N.Known(s'.chain, id))
    {
      assert t in s.txs || (e.SendNotarize? && t == e.tx);
    }
    forall id | id in s'.assets
      ensures s'.assets[id].status == PENDING && s'.assets[id].txHash.None? ==> id in s'.notarizing
      ensures s'.assets[id].status == FAILED ==> s'.assets[id].txHash.None?
    {
      assert id in s.assets || (e.CreateAsset? && id == e.id);
    }
    forall id | N.Known(s'.chain, id)
      ensures id in s'.assets && (s'.assets[id].txHash.Some? || (id in s'.notarizing && s'.notarizing[id].Some?))
    {
      assert N.Known(s.chain, id);
    }
  }

  lemma RegistryKept(c: Config, s: State, e: Event)
    requires Enabled(c, s, e)
    requires NotarizationInv(s.assets, s.notarizing, s.txs) && ChainInv(c, s.assets, s.txs, s.chain)
    requires RegistryInv(s.assets, s.notarizing, s.txs, s.chain)
    ensures var s' := Apply(c, s, e); RegistryInv(s'.assets, s'.notarizing, s'.txs, s'.chain)
  {
    hide Apply, Enabled, NotarizationInv, RegistryInv, ChainInv;
    var s' := Apply(c, s, e);
    OthersUntouched(c, s, e);
    if UserEvent(e) {
      AfterAssetEvent(c, s, e);
      UserKeepsRegistry(c, s, e);
    } else if e.Include? {
      IncludeKeepsRegistry(c, s, e.tx, e.timestamp);
    } else {
      TxRowsMove(c, s, e);
      if e.MirrorOne? { AfterMirrorOne(c, s, e.p); }
      RegistryFrame(s.assets, s.notarizing, s.txs, s.chain, s'.assets, s'.txs);
    }
  }
}
