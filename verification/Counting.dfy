/** Every event keeps the two counting equations: what the chain holds, and what the mirror holds. */
module Counting {
  import opened Options
  import opened Payloads
  import opened Sums
  import N = NotaryContract
  import opened Protocol
  import opened Invariant
  import opened Moves
  import opened TablesKept
  import opened TransactionsKept
  import opened ReconciliationKept

  predicate HasLanded(chunks: map<Period, seq<ChunkRow>>, pub: map<Period, Publisher>, txs: map<TxId, Tx>, p: Period, j: nat) {
    p in chunks && j < |chunks[p]| && Landed(txs, LiveTx(chunks, pub, p, j))
  }

  /** Without mining, no chunk lands and none is lost. */
  lemma LandedKept(c: Config, s: State, e: Event, p: Period, j: nat)
    requires Enabled(c, s, e) && !e.Include?
    requires ChunkTablesInv(c, s)
    ensures HasLanded(Apply(c, s, e).chunks, Apply(c, s, e).pub, Apply(c, s, e).txs, p, j)
       <==> HasLanded(s.chunks, s.pub, s.txs, p, j)
  {
    hide Apply, Enabled;
    LiveTxMove(c, s, e, p, j);
    TxRowsMove(c, s, e);
    MinedBefore(c, s, e);
    if e.SendChunk? { AfterSendChunk(c, s, e.p, e.tx); }
  }

  lemma LandedCountKept(c: Config, s: State, e: Event, p: Period, a: Id)
    requires Enabled(c, s, e) && !e.Include? && p in s.batches
    requires ChunkTablesInv(c, s)
    ensures p in Apply(c, s, e).batches
    ensures LandedCount(c, Apply(c, s, e).batches, Apply(c, s, e).chunks, Apply(c, s, e).pub, Apply(c, s, e).txs, p, a)
         == LandedCount(c, s.batches, s.chunks, s.pub, s.txs, p, a)
  {
    hide Apply, Enabled;
    PayloadsStay(c, s, e);
    ChunkRowsMove(c, s, e);
    forall j: nat ensures HasLanded(Apply(c, s, e).chunks, Apply(c, s, e).pub, Apply(c, s, e).txs, p, j)
                     <==> HasLanded(s.chunks, s.pub, s.txs, p, j) {
      LandedKept(c, s, e, p, j);
    }
    var s' := Apply(c, s, e);
    var ss := Slices(s.batches[p].payload, c.maxChunk);
    if p in s'.chunks && |s'.chunks[p]| == |ss| {
      var flags' := Flags(s'.chunks, s'.pub, s'.txs, p);
      assert forall j :: 0 <= j < |ss| ==> flags'[j] == HasLanded(s'.chunks, s'.pub, s'.txs, p, j);
      if p in s.chunks {
        assert flags' == Flags(s.chunks, s.pub, s.txs, p);
      } else {
        assert forall j :: 0 <= j < |ss| ==> !HasLanded(s.chunks, s.pub, s.txs, p, j);
        CountFlaggedBounds(ss, flags', a);
      }
    }
  }

  lemma NewBatchNotLanded(c: Config, s: State, p: Period, a: Id)
    requires Enabled(c, s, EnsureBatch(p)) && p !in s.batches
    requires ChunkTablesInv(c, s)
    requires p in Apply(c, s, EnsureBatch(p)).batches
    ensures var s' := Apply(c, s, EnsureBatch(p));
            LandedCount(c, s'.batches, s'.chunks, s'.pub, s'.txs, p, a) == 0
  {
    hide Apply, Enabled;
    OthersUntouched(c, s, EnsureBatch(p));
    assert p !in s.chunks;
  }

  lemma ChainCountKeptQuietly(c: Config, s: State, e: Event, a: Id)
    requires Enabled(c, s, e) && !e.Include?
    requires ChunkTablesInv(c, s)
    ensures MapSum(LandedBy(c, Apply(c, s, e).batches, Apply(c, s, e).chunks, Apply(c, s, e).pub, Apply(c, s, e).txs, a))
         == MapSum(LandedBy(c, s.batches, s.chunks, s.pub, s.txs, a))
  {
    hide Apply, Enabled, LandedCount, ChunkTablesInv;
    PayloadsStay(c, s, e);
    var s' := Apply(c, s, e);
    var m, m' := LandedBy(c, s.batches, s.chunks, s.pub, s.txs, a), LandedBy(c, s'.batches, s'.chunks, s'.pub, s'.txs, a);
    forall p | p in s.batches
      ensures p in s'.batches && m'[p] == m[p]
    {
      LandedCountKept(c, s, e, p, a);
    }
    if e.EnsureBatch? && e.p !in s.batches && e.p in s'.batches {
      NewBatchNotLanded(c, s, e.p, a);
      MapSumChange(m, m', e.p);
    } else {
      MapSumSame(m, m');
    }
  }

  /** The transactions with tx mined in the head block. */
  function Mine(s: State, tx: TxId): map<TxId, Tx>
    requires tx in s.txs
  {
    s.txs[tx := s.txs[tx].(block := Some(s.head))]
  }

  /** The publication is that of a chunk of p. */
  predicate BelongsTo(tx: Tx, p: Period) {
    tx.call.PublishBatch? && tx.call.period == p && tx.chunk.Some?
  }

  /** Counts of a mined publication that belongs to no chunk. */
  function OrphanCount(tx: Tx, a: Id): nat {
    if tx.call.PublishBatch? && tx.chunk.None? && tx.block.Some? then CountOf(tx.call.updates, a) else 0
  }

  function OrphanBy(txs: map<TxId, Tx>, a: Id): map<TxId, nat> {
    map t | t in txs :: OrphanCount(txs[t], a)
  }

  lemma OrphanSumKept(c: Config, s: State, e: Event, a: Id)
    requires Enabled(c, s, e) && !e.Include?
    ensures MapSum(OrphanBy(Apply(c, s, e).txs, a)) == MapSum(OrphanBy(s.txs, a))
  {
    hide Apply, Enabled;
    var m, m' := OrphanBy(s.txs, a), OrphanBy(Apply(c, s, e).txs, a);
    if e.SendChunk? {
      AfterSendChunk(c, s, e.p, e.tx);
      MapSumChange(m, m', e.tx);
    } else if e.SendNotarize? {
      AfterSendNotarize(c, s, e.id, e.tx);
      MapSumChange(m, m', e.tx);
    } else {
      OthersUntouched(c, s, e);
    }
  }

  lemma NoOrphanCounts(txs: map<TxId, Tx>, a: Id)
    requires NoOrphans(txs)
    ensures MapSum(OrphanBy(txs, a)) == 0
  {
    MapSumAllZero(OrphanBy(txs, a));
  }

  /** Mining the transaction of chunk j of period q lands that chunk and no other. */
  lemma MiningLands(c: Config, s: State, tx: TxId, p: Period, j: nat)
    requires tx in s.txs && s.txs[tx].block.None?
    requires SentInv(s.chunks, s.pub, s.txs) && OwnedInv(s.chunks, s.pub, s.txs)
    requires p in s.chunks && j < |s.chunks[p]|
    ensures Landed(Mine(s, tx), LiveTx(s.chunks, s.pub, p, j))
       <==> Landed(s.txs, LiveTx(s.chunks, s.pub, p, j))
            || (s.txs[tx].call.PublishBatch? && s.txs[tx].call.period == p && s.txs[tx].chunk == Some(j))
  {
    assert ChunkSent(s.chunks, s.pub, s.txs, p, j);
    assert Owned(s.chunks, s.pub, s.txs, tx);
  }

  lemma MiningChangesCount(c: Config, s: State, tx: TxId, p: Period, a: Id)
    requires tx in s.txs && s.txs[tx].block.None? && p in s.batches
    requires ChunksInv(c, s.batches, s.chunks)
    requires SentInv(s.chunks, s.pub, s.txs) && OwnedInv(s.chunks, s.pub, s.txs)
    ensures LandedCount(c, s.batches, s.chunks, s.pub, Mine(s, tx), p, a)
         == LandedCount(c, s.batches, s.chunks, s.pub, s.txs, p, a)
            + if BelongsTo(s.txs[tx], p) then CountOf(s.txs[tx].call.updates, a) else 0
  {
    var t, txs' := s.txs[tx], Mine(s, tx);
    assert Owned(s.chunks, s.pub, s.txs, tx);
    if p in s.chunks {
      forall j: nat | j < |s.chunks[p]|
        ensures Landed(txs', LiveTx(s.chunks, s.pub, p, j))
           <==> Landed(s.txs, LiveTx(s.chunks, s.pub, p, j)) || (t.call.PublishBatch? && t.call.period == p && t.chunk == Some(j))
      {
        MiningLands(c, s, tx, p, j);
      }
      var ss := Slices(s.batches[p].payload, c.maxChunk);
      var flags, flags' := Flags(s.chunks, s.pub, s.txs, p), Flags(s.chunks, s.pub, txs', p);
      if BelongsTo(t, p) {
        var j := t.chunk.value;
        assert ChunkSent(s.chunks, s.pub, s.txs, p, j);
        assert !flags[j] && flags' == flags[j := true];
        CountFlaggedSet(ss, flags, j, a);
        assert ss[j] == t.call.updates;
      } else {
        assert flags' == flags;
      }
    }
  }

  lemma ChainCountAfterMining(c: Config, s: State, tx: TxId, a: Id)
    requires tx in s.txs && s.txs[tx].block.None?
    requires ChunksInv(c, s.batches, s.chunks)
    requires SentInv(s.chunks, s.pub, s.txs) && OwnedInv(s.chunks, s.pub, s.txs)
    ensures MapSum(LandedBy(c, s.batches, s.chunks, s.pub, Mine(s, tx), a)) + MapSum(OrphanBy(Mine(s, tx), a))
         == MapSum(LandedBy(c, s.batches, s.chunks, s.pub, s.txs, a)) + MapSum(OrphanBy(s.txs, a))
            + if s.txs[tx].call.PublishBatch? then CountOf(s.txs[tx].call.updates, a) else 0
  {
    hide LandedCount;
    var call := s.txs[tx].call;
    MapSumChange(OrphanBy(s.txs, a), OrphanBy(Mine(s, tx), a), tx);
    var m := LandedBy(c, s.batches, s.chunks, s.pub, s.txs, a);
    var m' := LandedBy(c, s.batches, s.chunks, s.pub, Mine(s, tx), a);
    forall p | p in s.batches
      ensures m'[p] == m[p] + if BelongsTo(s.txs[tx], p) then CountOf(call.updates, a) else 0
    {
      MiningChangesCount(c, s, tx, p, a);
    }
    assert Owned(s.chunks, s.pub, s.txs, tx);
    if call.PublishBatch? && s.txs[tx].chunk.Some? {
      MapSumChange(m, m', call.period);
    } else {
      MapSumSame(m, m');
    }
  }

  /** A successful call moves totals by the counts it publishes. */
  lemma CallMovesTotal(chain: N.Storage, sender: N.Address, call: N.Call, timestamp: nat, a: Id)
    requires N.LogTellsStorage(chain) && N.Execute(chain, sender, call, timestamp).Done?
    ensures N.Total(N.Execute(chain, sender, call, timestamp).storage, a)
         == N.Total(chain, a) + if call.PublishBatch? then CountOf(call.updates, a) else 0
  {
    if call.PublishBatch? { N.PublishMeaning(chain, call.period, call.updates); }
  }

  /** Whatever the difference between the chain and its mined publications, an event leaves it as it is. */
  lemma ChainBalance(c: Config, s: State, e: Event, a: Id)
    requires Enabled(c, s, e)
    requires ChunkTablesInv(c, s) && OwnedInv(s.chunks, s.pub, s.txs)
    requires ChainInv(c, s.assets, s.txs, s.chain)
    ensures var s' := Apply(c, s, e);
            N.Total(s'.chain, a) + MapSum(LandedBy(c, s.batches, s.chunks, s.pub, s.txs, a)) + MapSum(OrphanBy(s.txs, a))
            == N.Total(s.chain, a) + MapSum(LandedBy(c, s'.batches, s'.chunks, s'.pub, s'.txs, a)) + MapSum(OrphanBy(s'.txs, a))
  {
    hide Apply, Enabled, LandedBy, OrphanBy, N.Total, N.Execute, N.LogTellsStorage, SentInv, ChunksInv, OwnedInv, PublishersInv;
    OthersUntouched(c, s, e);
    if e.Include? {
      AfterInclude(c, s, e.tx, e.timestamp);
      ChainCountAfterMining(c, s, e.tx, a);
      CallMovesTotal(s.chain, c.attester, s.txs[e.tx].call, e.timestamp, a);
    } else {
      MinedBefore(c, s, e);
      ChainCountKeptQuietly(c, s, e, a);
      OrphanSumKept(c, s, e, a);
    }
  }

  lemma ChainCountKept(c: Config, s: State, e: Event)
    requires Enabled(c, s, e)
    requires ChunkTablesInv(c, s) && OwnedInv(s.chunks, s.pub, s.txs) && NoOrphans(s.txs)
    requires ChainInv(c, s.assets, s.txs, s.chain)
    requires ChainCountInv(c, s.batches, s.chunks, s.pub, s.txs, s.chain)
    ensures ChainCountInv(c, Apply(c, s, e).batches, Apply(c, s, e).chunks, Apply(c, s, e).pub, Apply(c, s, e).txs, Apply(c, s, e).chain)
  {
    hide Apply, Enabled, LandedBy, OrphanBy, N.Total, ChainInv, ChunkTablesInv, OwnedInv, NoOrphans;
    OrphansKept(c, s, e);
    forall a
      ensures N.Total(Apply(c, s, e).chain, a)
           == MapSum(LandedBy(c, Apply(c, s, e).batches, Apply(c, s, e).chunks, Apply(c, s, e).pub, Apply(c, s, e).txs, a))
    {
      ChainBalance(c, s, e, a);
      NoOrphanCounts(s.txs, a);
      NoOrphanCounts(Apply(c, s, e).txs, a);
    }
  }

  // ---- The mirror ----

  lemma UserKeepsMirror(c: Config, s: State, e: Event, a: Id)
    requires UserEvent(e) && UserCan(c, s, e)
    ensures Mirror(ApplyUser(c, s, e).assets, a) == Mirror(s.assets, a)
  {
  }

  lemma QuietForMirror(c: Config, s: State, e: Event, a: Id)
    requires Enabled(c, s, e) && !e.MirrorOne?
    ensures Mirror(Apply(c, s, e).assets, a) == Mirror(s.assets, a)
  {
    hide Apply, Enabled, ApplyUser, UserCan;
    if UserEvent(e) {
      AfterAssetEvent(c, s, e);
      UserKeepsMirror(c, s, e, a);
    } else {
      OthersUntouched(c, s, e);
    }
  }

  lemma TaskKeepsProgress(s: State, e: Event, p: Period)
    requires TaskEvent(e) && TaskCan(s, e) && !(e.MirrorOne? && e.p == p) && !(e.MarkMirror? && e.p == p)
    ensures Progress(ApplyTask(s, e).tick, p) == Progress(s.tick, p)
  {
  }

  lemma TickKeepsProgress(c: Config, s: State, e: Event, p: Period)
    requires TickEvent(e) && TickCan(s, e)
    ensures Progress(ApplyTick(c, s, e).tick, p) == Progress(s.tick, p)
  {
  }

  /** A loop's progress changes by its own turns only; it starts at zero and is dropped when the flag is set. */
  lemma ProgressKept(c: Config, s: State, e: Event, p: Period)
    requires Enabled(c, s, e)
    requires !(e.MirrorOne? && e.p == p) && !(e.MarkMirror? && e.p == p)
    ensures Progress(Apply(c, s, e).tick, p) == Progress(s.tick, p)
  {
    hide Apply, Enabled, ApplyTask, TaskCan, ApplyTick, TickCan;
    if TaskEvent(e) {
      AfterTaskEvent(c, s, e);
      TaskKeepsProgress(s, e, p);
    } else if TickEvent(e) {
      AfterTickEvent(c, s, e);
      TickKeepsProgress(c, s, e, p);
    } else {
      OthersUntouched(c, s, e);
    }
  }

  /** Setting the flag replaces a finished loop by the whole payload. */
  lemma MirroredCountKept(c: Config, s: State, e: Event, p: Period, a: Id)
    requires Enabled(c, s, e) && p in s.batches && !(e.MirrorOne? && e.p == p)
    requires TickInv(s.batches, s.chunks, s.tick)
    ensures p in Apply(c, s, e).batches
    ensures MirroredCount(Apply(c, s, e).batches, Apply(c, s, e).tick, p, a) == MirroredCount(s.batches, s.tick, p, a)
  {
    hide Apply, Enabled;
    if e == MarkMirror(p) {
      AfterMarkMirror(c, s, p);
      var t := s.tick.tasks[p];
      assert TaskOk(s.batches, RowsOf(s.chunks, p), p, t);
      assert t.payload[..t.next] == t.payload;
    } else {
      BatchRowsMove(c, s, e);
      ProgressKept(c, s, e, p);
    }
  }

  lemma NewBatchNotMirrored(c: Config, s: State, p: Period, a: Id)
    requires Enabled(c, s, EnsureBatch(p)) && p !in s.batches
    requires TickInv(s.batches, s.chunks, s.tick)
    ensures var s' := Apply(c, s, EnsureBatch(p));
            p in s'.batches ==> MirroredCount(s'.batches, s'.tick, p, a) == 0
  {
    hide Apply, Enabled;
    AfterEnsureBatch(c, s, p);
    OthersUntouched(c, s, EnsureBatch(p));
    assert s.pub[p].sorted[..0] == [];
  }

  lemma MirrorSumKept(c: Config, s: State, e: Event, a: Id)
    requires Enabled(c, s, e) && !e.MirrorOne?
    requires TickInv(s.batches, s.chunks, s.tick)
    ensures MapSum(MirroredBy(Apply(c, s, e).batches, Apply(c, s, e).tick, a)) == MapSum(MirroredBy(s.batches, s.tick, a))
  {
    hide Apply, Enabled, MirroredCount, TickInv;
    PayloadsStay(c, s, e);
    var s' := Apply(c, s, e);
    var m, m' := MirroredBy(s.batches, s.tick, a), MirroredBy(s'.batches, s'.tick, a);
    forall p | p in s.batches
      ensures p in s'.batches && m'[p] == m[p]
    {
      MirroredCountKept(c, s, e, p, a);
    }
    if e.EnsureBatch? && e.p !in s.batches && e.p in s'.batches {
      NewBatchNotMirrored(c, s, e.p, a);
      MapSumChange(m, m', e.p);
    } else {
      MapSumSame(m, m');
    }
  }

  /** One turn of a mirror loop adds one entry of the payload to the asset's row ... */
  lemma MirrorTurnAdds(c: Config, s: State, p: Period, a: Id)
    requires Enabled(c, s, MirrorOne(p))
    requires ViewsInv(s.views, s.assets) && BatchesInv(s.views, s.batches)
    requires TickInv(s.batches, s.chunks, s.tick)
    ensures var u := s.tick.tasks[p].payload[s.tick.tasks[p].next];
            Mirror(Apply(c, s, MirrorOne(p)).assets, a) == Mirror(s.assets, a) + Hit(u, a)
  {
    hide Apply, Enabled;
    AfterMirrorOne(c, s, p);
    var t := s.tick.tasks[p];
    assert TaskOk(s.batches, RowsOf(s.chunks, p), p, t);
    PlanAssetsExist(t.payload, s.views, p, s.assets, t.next);
  }

  /** ... and to the counts of its own period. */
  lemma MirrorTurnCounts(c: Config, s: State, p: Period, a: Id)
    requires Enabled(c, s, MirrorOne(p)) && p in s.batches
    requires TickInv(s.batches, s.chunks, s.tick)
    ensures var u := s.tick.tasks[p].payload[s.tick.tasks[p].next];
            && Apply(c, s, MirrorOne(p)).batches == s.batches
            && MirroredCount(s.batches, Apply(c, s, MirrorOne(p)).tick, p, a) == MirroredCount(s.batches, s.tick, p, a) + Hit(u, a)
  {
    hide Apply, Enabled;
    AfterMirrorOne(c, s, p);
    OthersUntouched(c, s, MirrorOne(p));
    var t := s.tick.tasks[p];
    assert TaskOk(s.batches, RowsOf(s.chunks, p), p, t);
    CountOfSplit(t.payload, t.next, a);
  }

  lemma MirrorTurnSum(c: Config, s: State, p: Period, a: Id)
    requires Enabled(c, s, MirrorOne(p)) && p in s.batches
    requires TickInv(s.batches, s.chunks, s.tick)
    ensures InTask(s, p) && s.tick.tasks[p].Mirroring? && s.tick.tasks[p].next < |s.tick.tasks[p].payload|
    ensures var u := s.tick.tasks[p].payload[s.tick.tasks[p].next];
            MapSum(MirroredBy(Apply(c, s, MirrorOne(p)).batches, Apply(c, s, MirrorOne(p)).tick, a))
            == MapSum(MirroredBy(s.batches, s.tick, a)) + Hit(u, a)
  {
    hide Apply, Enabled, MirroredCount, TickInv;
    AfterMirrorOne(c, s, p);
    MirrorTurnCounts(c, s, p, a);
    var u := s.tick.tasks[p].payload[s.tick.tasks[p].next];
    var s' := Apply(c, s, MirrorOne(p));
    forall q | q in s.batches && q != p
      ensures MirroredCount(s'.batches, s'.tick, q, a) == MirroredCount(s.batches, s.tick, q, a)
    {
      MirroredCountKept(c, s, MirrorOne(p), q, a);
    }
    var m, m' := MirroredBy(s.batches, s.tick, a), MirroredBy(s'.batches, s'.tick, a);
    MapSumChange(m, m', p);
  }

  /** Whatever the difference between the mirror and its counts, an event leaves it as it is. */
  lemma MirrorBalance(c: Config, s: State, e: Event, a: Id)
    requires Enabled(c, s, e)
    requires ViewsInv(s.views, s.assets) && BatchesInv(s.views, s.batches)
    requires TickInv(s.batches, s.chunks, s.tick)
    ensures Mirror(Apply(c, s, e).assets, a) + MapSum(MirroredBy(s.batches, s.tick, a))
         == Mirror(s.assets, a) + MapSum(MirroredBy(Apply(c, s, e).batches, Apply(c, s, e).tick, a))
  {
    hide Apply, Enabled, MirroredBy, Mirror, BatchesInv, ViewsInv;
    if e.MirrorOne? {
      AfterMirrorOne(c, s, e.p);
      assert TaskOk(s.batches, RowsOf(s.chunks, e.p), e.p, s.tick.tasks[e.p]);
      MirrorTurnSum(c, s, e.p, a);
      MirrorTurnAdds(c, s, e.p, a);
    } else {
      QuietForMirror(c, s, e, a);
      MirrorSumKept(c, s, e, a);
    }
  }

  lemma MirrorCountKept(c: Config, s: State, e: Event)
    requires Enabled(c, s, e)
    requires ViewsInv(s.views, s.assets) && BatchesInv(s.views, s.batches)
    requires TickInv(s.batches, s.chunks, s.tick)
    requires MirrorCountInv(s.assets, s.batches, s.tick)
    ensures MirrorCountInv(Apply(c, s, e).assets, Apply(c, s, e).batches, Apply(c, s, e).tick)
  {
    hide Apply, Enabled, MirroredBy, Mirror, BatchesInv, ViewsInv, TickInv;
    forall a
      ensures Mirror(Apply(c, s, e).assets, a) == MapSum(MirroredBy(Apply(c, s, e).batches, Apply(c, s, e).tick, a))
    {
      MirrorBalance(c, s, e, a);
    }
  }
}
