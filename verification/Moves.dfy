/** Which events touch which tables. Every other field is left as it was. */
module Moves {
  import opened Options
  import opened Payloads
  import N = NotaryContract
  import opened Protocol

  predicate TouchesViews(e: Event) { e.Register? || e.AnchorViews? }
  predicate TouchesAssets(e: Event) {
    e.CreateAsset? || e.RecordNotarize? || e.FailNotarize? || e.ConfirmAsset? || e.MirrorOne?
  }
  predicate TouchesBatches(e: Event) { e.EnsureBatch? || e.RecordChunk? || e.MarkMirror? || e.ConfirmBatch? }
  predicate TouchesChunks(e: Event) { e.EnsureChunks? || e.RecordChunk? || e.FailSend? || e.CheckChunk? }
  predicate TouchesTxs(e: Event) { e.SendNotarize? || e.SendChunk? || e.Include? }
  predicate TouchesNotarizing(e: Event) { e.CreateAsset? || e.SendNotarize? || e.RecordNotarize? || e.FailNotarize? }

  ghost predicate Untouched(s: State, e: Event, t: State) {
    && (!TouchesViews(e) ==> t.views == s.views)
    && (!TouchesAssets(e) ==> t.assets == s.assets)
    && (!TouchesBatches(e) ==> t.batches == s.batches)
    && (!TouchesChunks(e) ==> t.chunks == s.chunks)
    && (!TouchesTxs(e) ==> t.txs == s.txs)
    && (!TouchesNotarizing(e) ==> t.notarizing == s.notarizing)
    && (!e.Include? ==> t.chain == s.chain)
    && (!e.NewBlock? ==> t.head == s.head)
    && (!PublisherEvent(e) ==> t.pub == s.pub)
    && (!TickEvent(e) && !TaskEvent(e) ==> t.tick == s.tick)
  }

  lemma UserUntouched(c: Config, s: State, e: Event)
    requires UserEvent(e) && UserCan(c, s, e)
    ensures Untouched(s, e, ApplyUser(c, s, e))
  {
  }

  lemma PublisherUntouched(c: Config, s: State, e: Event)
    requires PublisherEvent(e) && PublisherCan(s, e)
    ensures Untouched(s, e, ApplyPublisher(c, s, e))
  {
  }

  lemma ChainUntouched(c: Config, s: State, e: Event)
    requires ChainEvent(e) && ChainCan(c, s, e)
    ensures Untouched(s, e, ApplyChain(c, s, e))
  {
  }

  lemma TickUntouched(c: Config, s: State, e: Event)
    requires TickEvent(e) && TickCan(s, e)
    ensures Untouched(s, e, ApplyTick(c, s, e))
  {
  }

  lemma TaskUntouched(s: State, e: Event)
    requires TaskEvent(e) && TaskCan(s, e)
    ensures Untouched(s, e, ApplyTask(s, e))
  {
  }

  lemma OthersUntouched(c: Config, s: State, e: Event)
    requires Enabled(c, s, e)
    ensures Untouched(s, e, Apply(c, s, e))
  {
    hide UserCan, PublisherCan, ChainCan, TickCan, TaskCan, ApplyUser, ApplyPublisher, ApplyChain, ApplyTick, ApplyTask, Untouched;
    if UserEvent(e) {
      UserUntouched(c, s, e);
    } else if PublisherEvent(e) {
      PublisherUntouched(c, s, e);
    } else if ChainEvent(e) {
      ChainUntouched(c, s, e);
    } else if TickEvent(e) {
      TickUntouched(c, s, e);
    } else {
      TaskUntouched(s, e);
    }
  }

  // ---- Single events ----

  // When each event is possible, and the whole state it leaves.

  lemma AfterRegister(c: Config, s: State, key: Key, asset: Id, p: Period)
    ensures Enabled(c, s, Event.Register(key, asset, p))
       <==> asset in s.assets && p !in s.batches && p !in s.pub
            && forall i :: 0 <= i < |s.views| ==> s.views[i].key != key
    ensures Enabled(c, s, Event.Register(key, asset, p)) ==>
              Apply(c, s, Event.Register(key, asset, p))
              == s.(views := s.views + [View(key, asset, p, false)])
  {
  }

  lemma AfterCreateAsset(c: Config, s: State, id: Id, hash: N.Hash)
    ensures Enabled(c, s, CreateAsset(id, hash))
       <==> id !in s.assets
    ensures Enabled(c, s, CreateAsset(id, hash)) ==>
              Apply(c, s, CreateAsset(id, hash))
              == s.(assets := s.assets[id := AssetRow(hash, PENDING, None, None, 0)], notarizing := s.notarizing[id := None])
  {
  }

  lemma AfterSendNotarize(c: Config, s: State, id: Id, tx: TxId)
    ensures Enabled(c, s, SendNotarize(id, tx))
       <==> id in s.notarizing && s.notarizing[id].None? && id in s.assets && tx !in s.txs
    ensures Enabled(c, s, SendNotarize(id, tx)) ==>
              Apply(c, s, SendNotarize(id, tx))
              == s.(txs := s.txs[tx := Tx(N.NotarizeAsset(id, s.assets[id].contentHash), None, None)],
                    notarizing := s.notarizing[id := Some(tx)])
  {
  }

  lemma AfterRecordNotarize(c: Config, s: State, id: Id)
    ensures Enabled(c, s, RecordNotarize(id))
       <==> id in s.notarizing && s.notarizing[id].Some? && id in s.assets
    ensures Enabled(c, s, RecordNotarize(id)) ==>
              Apply(c, s, RecordNotarize(id))
              == s.(assets := s.assets[id := s.assets[id].(txHash := s.notarizing[id])], notarizing := s.notarizing - {id})
  {
  }

  lemma AfterFailNotarize(c: Config, s: State, id: Id)
    ensures Enabled(c, s, FailNotarize(id))
       <==> id in s.notarizing && s.notarizing[id].None? && id in s.assets
    ensures Enabled(c, s, FailNotarize(id)) ==>
              Apply(c, s, FailNotarize(id))
              == s.(assets := s.assets[id := s.assets[id].(status := FAILED)], notarizing := s.notarizing - {id})
  {
  }

  lemma AfterConfirmAsset(c: Config, s: State, id: Id)
    ensures Enabled(c, s, ConfirmAsset(id))
       <==> id in s.assets && s.assets[id].status == PENDING && s.assets[id].txHash.Some?
            && Deep(c, s.txs, s.head, s.assets[id].txHash.value)
    ensures Enabled(c, s, ConfirmAsset(id)) ==>
              Apply(c, s, ConfirmAsset(id))
              == s.(assets := s.assets[id := s.assets[id].(status := CONFIRMED, blockNumber := s.txs[s.assets[id].txHash.value].block)])
  {
  }

  lemma AfterReadAggregates(c: Config, s: State, p: Period, rows: seq<Update>)
    ensures Enabled(c, s, ReadAggregates(p, rows))
       <==> p !in s.pub && IsAggregate(rows, s.views, p) && rows != []
    ensures Enabled(c, s, ReadAggregates(p, rows)) ==>
              Apply(c, s, ReadAggregates(p, rows))
              == s.(pub := s.pub[p := Aggregated(SortByAsset(rows), p in s.batches, p in s.batches && s.batches[p].txHash.Some?)])
  {
  }

  lemma AfterEnsureBatch(c: Config, s: State, p: Period)
    ensures Enabled(c, s, EnsureBatch(p))
       <==> p in s.pub && s.pub[p].Aggregated? && (s.pub[p].present || p !in s.batches)
    ensures Enabled(c, s, EnsureBatch(p)) ==>
              Apply(c, s, EnsureBatch(p))
              == (var t := s.pub[p];
                 s.(batches := if t.present then s.batches
                               else s.batches[p := BatchRow(t.sorted, |t.sorted|, TotalOf(t.sorted), PENDING, false, None, None)],
                    pub := s.pub[p := Prepared(t.sorted, t.txSet)]))
  {
  }

  lemma AfterEnsureChunks(c: Config, s: State, p: Period)
    ensures Enabled(c, s, EnsureChunks(p))
       <==> p in s.pub && s.pub[p].Prepared?
    ensures Enabled(c, s, EnsureChunks(p)) ==>
              Apply(c, s, EnsureChunks(p))
              == s.(chunks := s.chunks[p := EnsureRows(RowsOf(s.chunks, p), Slices(s.pub[p].sorted, c.maxChunk))],
                    pub := s.pub[p := Planned(s.pub[p].txSet)])
  {
  }

  lemma AfterLoadChunks(c: Config, s: State, p: Period)
    ensures Enabled(c, s, LoadChunks(p))
       <==> p in s.pub && s.pub[p].Planned?
    ensures Enabled(c, s, LoadChunks(p)) ==>
              Apply(c, s, LoadChunks(p))
              == s.(pub := s.pub[p := Sending(RowsOf(s.chunks, p), 0, s.pub[p].txSet)])
  {
  }

  lemma AfterSkipSent(c: Config, s: State, p: Period)
    ensures Enabled(c, s, SkipSent(p))
       <==> InSending(s, p) && s.pub[p].rows[s.pub[p].next].txHash.Some?
    ensures Enabled(c, s, SkipSent(p)) ==>
              Apply(c, s, SkipSent(p))
              == s.(pub := s.pub[p := Sending(s.pub[p].rows, s.pub[p].next + 1, s.pub[p].txSet)])
  {
  }

  lemma AfterSendChunk(c: Config, s: State, p: Period, tx: TxId)
    ensures Enabled(c, s, SendChunk(p, tx))
       <==> InSending(s, p) && s.pub[p].rows[s.pub[p].next].txHash.None? && tx !in s.txs
    ensures Enabled(c, s, SendChunk(p, tx)) ==>
              Apply(c, s, SendChunk(p, tx))
              == (var t := s.pub[p];
                 s.(txs := s.txs[tx := Tx(N.PublishBatch(p, t.rows[t.next].payload), Some(t.next), None)],
                    pub := s.pub[p := Recording(t.rows, t.next, tx, t.txSet)]))
  {
  }

  lemma AfterRecordChunk(c: Config, s: State, p: Period)
    ensures Enabled(c, s, RecordChunk(p))
       <==> p in s.pub && s.pub[p].Recording? && p in s.batches && p in s.chunks && s.pub[p].next < |s.chunks[p]|
    ensures Enabled(c, s, RecordChunk(p)) ==>
              Apply(c, s, RecordChunk(p))
              == (var t := s.pub[p];
                 s.(batches := if t.txSet then s.batches else s.batches[p := s.batches[p].(txHash := Some(t.tx))],
                    chunks := s.chunks[p := s.chunks[p][t.next := s.chunks[p][t.next].(txHash := Some(t.tx), status := PENDING)]],
                    pub := s.pub[p := Sending(t.rows, t.next + 1, true)]))
  {
  }

  lemma AfterFailSend(c: Config, s: State, p: Period)
    ensures Enabled(c, s, FailSend(p))
       <==> InSending(s, p) && s.pub[p].rows[s.pub[p].next].txHash.None?
            && p in s.chunks && s.pub[p].next < |s.chunks[p]|
    ensures Enabled(c, s, FailSend(p)) ==>
              Apply(c, s, FailSend(p))
              == (var t := s.pub[p];
                 s.(chunks := s.chunks[p := s.chunks[p][t.next := s.chunks[p][t.next].(status := FAILED)]],
                    pub := s.pub[p := Sending(t.rows, t.next + 1, t.txSet)]))
  {
  }

  lemma AfterEndPublish(c: Config, s: State, p: Period)
    ensures Enabled(c, s, EndPublish(p))
       <==> p in s.pub && s.pub[p].Sending? && s.pub[p].next == |s.pub[p].rows|
    ensures Enabled(c, s, EndPublish(p)) ==>
              Apply(c, s, EndPublish(p))
              == s.(pub := s.pub - {p})
  {
  }

  lemma AfterNewBlock(c: Config, s: State)
    ensures Enabled(c, s, NewBlock)
       <==> true
    ensures Enabled(c, s, NewBlock) ==>
              Apply(c, s, NewBlock)
              == s.(head := s.head + 1)
  {
  }

  lemma AfterInclude(c: Config, s: State, tx: TxId, timestamp: nat)
    ensures Enabled(c, s, Include(tx, timestamp))
       <==> tx in s.txs && s.txs[tx].block.None? && 0 < timestamp < N.TWO_TO_64
            && N.Execute(s.chain, c.attester, s.txs[tx].call, timestamp).Done?
    ensures Enabled(c, s, Include(tx, timestamp)) ==>
              Apply(c, s, Include(tx, timestamp))
              == s.(chain := N.Execute(s.chain, c.attester, s.txs[tx].call, timestamp).storage,
                    txs := s.txs[tx := s.txs[tx].(block := Some(s.head))])
  {
  }

  lemma AfterStartTick(c: Config, s: State)
    ensures Enabled(c, s, StartTick)
       <==> s.tick.Idle?
    ensures Enabled(c, s, StartTick) ==>
              Apply(c, s, StartTick)
              == s.(tick := ConfirmingChunks(PendingWithTx(s.chunks)))
  {
  }

  lemma AfterCheckChunk(c: Config, s: State, p: Period, j: nat, failed: bool)
    ensures Enabled(c, s, CheckChunk(p, j, failed))
       <==> s.tick.ConfirmingChunks? && (p, j) in s.tick.todo && p in s.chunks && j < |s.chunks[p]|
    ensures Enabled(c, s, CheckChunk(p, j, failed)) ==>
              Apply(c, s, CheckChunk(p, j, failed))
              == (var t := s.tick.todo[(p, j)];
                 s.(chunks := if !failed && Deep(c, s.txs, s.head, t)
                              then s.chunks[p := s.chunks[p][j := s.chunks[p][j].(status := CONFIRMED, blockNumber := s.txs[t].block)]]
                              else s.chunks,
                    tick := ConfirmingChunks(s.tick.todo - {(p, j)})))
  {
  }

  lemma AfterStartFinalise(c: Config, s: State)
    ensures Enabled(c, s, StartFinalise)
       <==> s.tick == ConfirmingChunks(map[])
    ensures Enabled(c, s, StartFinalise) ==>
              Apply(c, s, StartFinalise)
              == s.(tick := Finalising(PendingTasks(s.batches)))
  {
  }

  lemma AfterEndTick(c: Config, s: State)
    ensures Enabled(c, s, EndTick)
       <==> s.tick.Finalising? && forall p :: p in s.tick.tasks ==> s.tick.tasks[p].Finished?
    ensures Enabled(c, s, EndTick) ==>
              Apply(c, s, EndTick)
              == s.(tick := Idle)
  {
  }

  lemma AfterLoadPeriod(c: Config, s: State, p: Period)
    ensures Enabled(c, s, LoadPeriod(p))
       <==> InTask(s, p) && s.tick.tasks[p].Loading?
    ensures Enabled(c, s, LoadPeriod(p)) ==>
              Apply(c, s, LoadPeriod(p))
              == s.(tick := Finalising(s.tick.tasks[p := AfterLoad(s.tick.tasks[p].b, RowsOf(s.chunks, p))]))
  {
  }

  lemma AfterMirrorOne(c: Config, s: State, p: Period)
    ensures Enabled(c, s, MirrorOne(p))
       <==> InTask(s, p) && s.tick.tasks[p].Mirroring? && s.tick.tasks[p].next < |s.tick.tasks[p].payload|
    ensures Enabled(c, s, MirrorOne(p)) ==>
              Apply(c, s, MirrorOne(p))
              == (var t := s.tick.tasks[p];
                 s.(assets := AddMirror(s.assets, t.payload[t.next]),
                    tick := Finalising(s.tick.tasks[p := Mirroring(t.payload, t.block, t.next + 1)])))
  {
  }

  lemma AfterMarkMirror(c: Config, s: State, p: Period)
    ensures Enabled(c, s, MarkMirror(p))
       <==> InTask(s, p) && s.tick.tasks[p].Mirroring? && s.tick.tasks[p].next == |s.tick.tasks[p].payload|
            && p in s.batches
    ensures Enabled(c, s, MarkMirror(p)) ==>
              Apply(c, s, MarkMirror(p))
              == (var t := s.tick.tasks[p];
                 s.(batches := s.batches[p := s.batches[p].(mirrorApplied := true)],
                    tick := Finalising(s.tick.tasks[p := ReadingChain(t.payload, t.block, 0)])))
  {
  }

  lemma AfterReadingChain(c: Config, s: State, p: Period)
    ensures Enabled(c, s, ReadChain(p))
       <==> InTask(s, p) && s.tick.tasks[p].ReadingChain? && s.tick.tasks[p].next < |s.tick.tasks[p].payload|
    ensures Enabled(c, s, ReadChain(p)) ==>
              Apply(c, s, ReadChain(p))
              == s.(tick := Finalising(s.tick.tasks[p := AfterReadChain(s.chain, s.tick.tasks[p])]))
  {
  }

  lemma AfterReadingMirror(c: Config, s: State, p: Period)
    ensures Enabled(c, s, ReadMirror(p))
       <==> InTask(s, p) && s.tick.tasks[p].ReadingMirror? && s.tick.tasks[p].next < |s.tick.tasks[p].payload|
    ensures Enabled(c, s, ReadMirror(p)) ==>
              Apply(c, s, ReadMirror(p))
              == s.(tick := Finalising(s.tick.tasks[p := AfterReadMirror(s.assets, s.tick.tasks[p])]))
  {
  }

  lemma AfterConfirmBatch(c: Config, s: State, p: Period)
    ensures Enabled(c, s, ConfirmBatch(p))
       <==> InTask(s, p) && s.tick.tasks[p].ReadingChain? && s.tick.tasks[p].next == |s.tick.tasks[p].payload|
            && p in s.batches
    ensures Enabled(c, s, ConfirmBatch(p)) ==>
              Apply(c, s, ConfirmBatch(p))
              == s.(batches := s.batches[p := s.batches[p].(status := CONFIRMED, blockNumber := Some(s.tick.tasks[p].block))],
                    tick := Finalising(s.tick.tasks[p := Anchoring]))
  {
  }

  lemma AfterAnchor(c: Config, s: State, p: Period)
    ensures Enabled(c, s, AnchorViews(p))
       <==> InTask(s, p) && s.tick.tasks[p].Anchoring?
    ensures Enabled(c, s, AnchorViews(p)) ==>
              Apply(c, s, AnchorViews(p))
              == s.(views := AnchorPeriod(s.views, p), tick := Finalising(s.tick.tasks[p := Finished(true)]))
  {
  }

  lemma AfterFailPeriod(c: Config, s: State, p: Period)
    ensures Enabled(c, s, FailPeriod(p))
       <==> InTask(s, p) && (s.tick.tasks[p].Loading? || s.tick.tasks[p].ReadingChain? || s.tick.tasks[p].ReadingMirror?)
    ensures Enabled(c, s, FailPeriod(p)) ==>
              Apply(c, s, FailPeriod(p))
              == s.(tick := Finalising(s.tick.tasks[p := Finished(false)]))
  {
  }

  // ---- Kinds of events ----

  lemma AfterAssetEvent(c: Config, s: State, e: Event)
    requires Enabled(c, s, e) && UserEvent(e)
    ensures Apply(c, s, e) == ApplyUser(c, s, e) && UserCan(c, s, e)
  {
    hide UserCan, PublisherCan, ChainCan, TickCan, TaskCan, ApplyUser, ApplyPublisher, ApplyChain, ApplyTick, ApplyTask;
  }

  lemma AfterTaskEvent(c: Config, s: State, e: Event)
    requires Enabled(c, s, e) && TaskEvent(e)
    ensures Apply(c, s, e) == ApplyTask(s, e) && TaskCan(s, e)
  {
    hide UserCan, PublisherCan, ChainCan, TickCan, TaskCan, ApplyUser, ApplyPublisher, ApplyChain, ApplyTick, ApplyTask;
  }

  lemma TaskEventCan(c: Config, s: State, e: Event)
    requires TaskEvent(e) && TaskCan(s, e)
    ensures Enabled(c, s, e) && Apply(c, s, e) == ApplyTask(s, e)
  {
    hide UserCan, PublisherCan, ChainCan, TickCan, TaskCan, ApplyUser, ApplyPublisher, ApplyChain, ApplyTick, ApplyTask;
  }

  lemma AfterPublisherEvent(c: Config, s: State, e: Event)
    requires Enabled(c, s, e) && PublisherEvent(e)
    ensures Apply(c, s, e) == ApplyPublisher(c, s, e) && PublisherCan(s, e)
  {
    hide UserCan, PublisherCan, ChainCan, TickCan, TaskCan, ApplyUser, ApplyPublisher, ApplyChain, ApplyTick, ApplyTask;
  }

  lemma AfterTickEvent(c: Config, s: State, e: Event)
    requires Enabled(c, s, e) && TickEvent(e)
    ensures Apply(c, s, e) == ApplyTick(c, s, e) && TickCan(s, e)
  {
    hide UserCan, PublisherCan, ChainCan, TickCan, TaskCan, ApplyUser, ApplyPublisher, ApplyChain, ApplyTick, ApplyTask;
  }
}
