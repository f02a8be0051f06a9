/** Every event keeps the reconciliation part: statuses, depths, running tasks, anchoring. */
module ReconciliationKept {
  import opened Options
  import opened Payloads
  import opened Protocol
  import opened Invariant
  import opened Moves
  import opened TablesKept
  import opened TransactionsKept

  ghost predicate ChunkTablesInv(c: Config, s: State) {
    && ChunksInv(c, s.batches, s.chunks)
    && PublishersInv(s.views, s.batches, s.chunks, s.pub)
    && SentInv(s.chunks, s.pub, s.txs)
  }

  /** A CONFIRMED row never changes again. */
  lemma ConfirmedRowStable(c: Config, s: State, e: Event, p: Period, j: nat)
    requires Enabled(c, s, e)
    requires ChunkTablesInv(c, s) && TickInv(s.batches, s.chunks, s.tick)
    requires HasRow(s.chunks, p, j) && s.chunks[p][j].status == CONFIRMED
    ensures HasRow(Apply(c, s, e).chunks, p, j) && Apply(c, s, e).chunks[p][j] == s.chunks[p][j]
  {
    hide Apply, Enabled;
    assert ChunkSent(s.chunks, s.pub, s.txs, p, j);
    RowMove(c, s, e, p, j);
  }

  /** Once every chunk of a period is CONFIRMED its rows are final. */
  lemma ConfirmedRowsStable(c: Config, s: State, e: Event, p: Period)
    requires Enabled(c, s, e)
    requires ChunkTablesInv(c, s) && TickInv(s.batches, s.chunks, s.tick)
    requires AllConfirmed(RowsOf(s.chunks, p))
    ensures RowsOf(Apply(c, s, e).chunks, p) == RowsOf(s.chunks, p)
  {
    hide Apply, Enabled;
    ChunkRowsMove(c, s, e);
    forall j: nat | j < |s.chunks[p]| ensures Apply(c, s, e).chunks[p][j] == s.chunks[p][j] {
      ConfirmedRowStable(c, s, e, p, j);
    }
  }

  ghost predicate StatusOk(batches: map<Period, BatchRow>, rows: seq<ChunkRow>, p: Period)
    requires p in batches
  {
    && batches[p].status != FAILED
    && (batches[p].mirrorApplied ==> AllConfirmed(rows))
    && (batches[p].status == CONFIRMED ==> batches[p].mirrorApplied && batches[p].blockNumber == Some(MaxBlock(rows)))
    && (batches[p].status == PENDING ==> batches[p].blockNumber.None?)
  }

  lemma BatchStatusKept(c: Config, s: State, e: Event, p: Period)
    requires Enabled(c, s, e)
    requires ChunkTablesInv(c, s) && TickInv(s.batches, s.chunks, s.tick)
    requires p in s.batches && StatusOk(s.batches, RowsOf(s.chunks, p), p)
    ensures p in Apply(c, s, e).batches
    ensures StatusOk(Apply(c, s, e).batches, RowsOf(Apply(c, s, e).chunks, p), p)
  {
    hide Apply, Enabled;
    BatchRowsMove(c, s, e);
    if AllConfirmed(RowsOf(s.chunks, p)) { ConfirmedRowsStable(c, s, e, p); }
    if e == MarkMirror(p) {
      AfterMarkMirror(c, s, p);
      assert TaskOk(s.batches, RowsOf(s.chunks, p), p, s.tick.tasks[p]);
    } else if e == ConfirmBatch(p) {
      AfterConfirmBatch(c, s, p);
      assert TaskOk(s.batches, RowsOf(s.chunks, p), p, s.tick.tasks[p]);
    }
  }

  lemma StatusKept(c: Config, s: State, e: Event)
    requires Enabled(c, s, e)
    requires ChunkTablesInv(c, s) && TickInv(s.batches, s.chunks, s.tick)
    requires StatusInv(s.batches, s.chunks)
    ensures StatusInv(Apply(c, s, e).batches, Apply(c, s, e).chunks)
  {
    hide Apply, Enabled, ChunkTablesInv, TickInv;
    BatchRowsMove(c, s, e);
    var s' := Apply(c, s, e);
    forall p | p in s'.batches ensures StatusOk(s'.batches, RowsOf(s'.chunks, p), p) {
      if p in s.batches {
        assert StatusOk(s.batches, RowsOf(s.chunks, p), p);
        BatchStatusKept(c, s, e, p);
      }
    }
  }

  lemma DeepStays(c: Config, s: State, e: Event, t: TxId)
    requires Enabled(c, s, e) && Deep(c, s.txs, s.head, t)
    ensures Deep(c, Apply(c, s, e).txs, Apply(c, s, e).head, t)
  {
    hide Apply, Enabled;
    OthersUntouched(c, s, e);
    TxRowsMove(c, s, e);
    if e.NewBlock? { AfterNewBlock(c, s); }
  }

  lemma DepthKept(c: Config, s: State, e: Event)
    requires Enabled(c, s, e)
    requires ChunkTablesInv(c, s) && TickInv(s.batches, s.chunks, s.tick)
    requires DepthInv(c, s.chunks, s.txs, s.head)
    ensures DepthInv(c, Apply(c, s, e).chunks, Apply(c, s, e).txs, Apply(c, s, e).head)
  {
    hide Apply, Enabled;
    var s' := Apply(c, s, e);
    forall p, j: nat | p in s'.chunks && j < |s'.chunks[p]| && s'.chunks[p][j].status == CONFIRMED
      ensures s'.chunks[p][j].txHash.Some? && Deep(c, s'.txs, s'.head, s'.chunks[p][j].txHash.value)
    {
      LiveTxMove(c, s, e, p, j);
      RowMove(c, s, e, p, j);
      DeepStays(c, s, e, s'.chunks[p][j].txHash.value);
    }
  }

  // ---- Ticks ----

  lemma MovingTaskKept(s: State, e: Event)
    requires TaskEvent(e) && TaskCan(s, e)
    requires TickInv(s.batches, s.chunks, s.tick) && StatusInv(s.batches, s.chunks)
    ensures e.p in ApplyTask(s, e).tick.tasks && e.p in ApplyTask(s, e).batches
    ensures TaskOk(ApplyTask(s, e).batches, RowsOf(s.chunks, e.p), e.p, ApplyTask(s, e).tick.tasks[e.p])
  {
    assert TaskOk(s.batches, RowsOf(s.chunks, e.p), e.p, s.tick.tasks[e.p]);
  }

  /** A task the event is not about: its batch row, and its rows once confirmed, stay as they are. */
  lemma RestingTaskKept(c: Config, s: State, e: Event, p: Period)
    requires Enabled(c, s, e) && InTask(s, p) && p in s.batches && !(TaskEvent(e) && e.p == p)
    requires ChunkTablesInv(c, s) && TickInv(s.batches, s.chunks, s.tick) && StatusInv(s.batches, s.chunks)
    ensures p in Apply(c, s, e).batches
    ensures TaskOk(Apply(c, s, e).batches, RowsOf(Apply(c, s, e).chunks, p), p, s.tick.tasks[p])
  {
    hide Apply, Enabled;
    BatchRowsMove(c, s, e);
    assert TaskOk(s.batches, RowsOf(s.chunks, p), p, s.tick.tasks[p]);
    if AllConfirmed(RowsOf(s.chunks, p)) { ConfirmedRowsStable(c, s, e, p); }
  }

  /** Task events aside, tasks stay; a tick ends as a whole. */
  lemma TasksStay(c: Config, s: State, e: Event)
    requires Enabled(c, s, e) && s.tick.Finalising?
    ensures e.EndTick? ==> Apply(c, s, e).tick.Idle? && forall p :: p in s.tick.tasks ==> s.tick.tasks[p].Finished?
    ensures !e.EndTick? ==> Apply(c, s, e).tick.Finalising? && Apply(c, s, e).tick.tasks.Keys == s.tick.tasks.Keys
    ensures !e.EndTick? ==> forall p :: p in s.tick.tasks && !(TaskEvent(e) && e.p == p) ==>
              Apply(c, s, e).tick.tasks[p] == s.tick.tasks[p]
  {
    hide Apply, Enabled;
    if TickEvent(e) {
      AfterTickEvent(c, s, e);
    } else if TaskEvent(e) {
      AfterTaskEvent(c, s, e);
      hide ApplyTask;
    } else {
      OthersUntouched(c, s, e);
    }
  }

  lemma TickKept(c: Config, s: State, e: Event)
    requires Enabled(c, s, e)
    requires ChunkTablesInv(c, s) && TickInv(s.batches, s.chunks, s.tick) && StatusInv(s.batches, s.chunks)
    ensures TickInv(Apply(c, s, e).batches, Apply(c, s, e).chunks, Apply(c, s, e).tick)
  {
    hide Apply, Enabled, ChunkTablesInv, TickInv, StatusInv;
    if s.tick.Idle? {
      IdleKept(c, s, e);
    } else if s.tick.ConfirmingChunks? {
      TodoKept(c, s, e);
    } else {
      TasksKept(c, s, e);
    }
  }

  lemma IdleKept(c: Config, s: State, e: Event)
    requires Enabled(c, s, e) && s.tick.Idle?
    ensures Apply(c, s, e).tick == if e.StartTick? then ConfirmingChunks(PendingWithTx(s.chunks)) else Idle
    ensures TickInv(Apply(c, s, e).batches, Apply(c, s, e).chunks, Apply(c, s, e).tick)
  {
    hide Apply, Enabled;
    OthersUntouched(c, s, e);
    if TickEvent(e) { AfterTickEvent(c, s, e); }
    if TaskEvent(e) { AfterTaskEvent(c, s, e); }
  }

  lemma TodoShrinks(c: Config, s: State, e: Event)
    requires Enabled(c, s, e) && s.tick.ConfirmingChunks?
    ensures e.StartFinalise? ==>
              && s.tick.todo == map[]
              && Apply(c, s, e).tick == Finalising(PendingTasks(s.batches)) && Apply(c, s, e).batches == s.batches
              && Apply(c, s, e).chunks == s.chunks
    ensures !e.StartFinalise? ==>
              && Apply(c, s, e).tick.ConfirmingChunks?
              && Apply(c, s, e).tick.todo == if e.CheckChunk? then s.tick.todo - {(e.p, e.j)} else s.tick.todo
  {
    hide Apply, Enabled;
    OthersUntouched(c, s, e);
    if e.CheckChunk? {
      AfterCheckChunk(c, s, e.p, e.j, e.failed);
    } else if TickEvent(e) {
      AfterTickEvent(c, s, e);
    } else if TaskEvent(e) {
      AfterTaskEvent(c, s, e);
    }
  }

  lemma TodoKept(c: Config, s: State, e: Event)
    requires Enabled(c, s, e) && s.tick.ConfirmingChunks?
    requires ChunkTablesInv(c, s) && TickInv(s.batches, s.chunks, s.tick)
    ensures TickInv(Apply(c, s, e).batches, Apply(c, s, e).chunks, Apply(c, s, e).tick)
  {
    hide Apply, Enabled;
    TodoShrinks(c, s, e);
    var s' := Apply(c, s, e);
    if !e.StartFinalise? {
      forall p, j: nat | (p, j) in s'.tick.todo
        ensures p in s'.chunks && j < |s'.chunks[p]| && s'.chunks[p][j].txHash == Some(s'.tick.todo[(p, j)])
      {
        assert (p, j) in s.tick.todo;
        RowMove(c, s, e, p, j);
      }
    }
  }

  lemma TasksKept(c: Config, s: State, e: Event)
    requires Enabled(c, s, e) && s.tick.Finalising?
    requires ChunkTablesInv(c, s) && TickInv(s.batches, s.chunks, s.tick) && StatusInv(s.batches, s.chunks)
    ensures TickInv(Apply(c, s, e).batches, Apply(c, s, e).chunks, Apply(c, s, e).tick)
  {
    hide Apply, Enabled, ApplyTask, TaskCan, ChunkTablesInv, StatusInv;
    TasksStay(c, s, e);
    OthersUntouched(c, s, e);
    if TaskEvent(e) { AfterTaskEvent(c, s, e); }
    var s' := Apply(c, s, e);
    if !e.EndTick? {
      forall p | p in s'.tick.tasks
        ensures p in s'.batches && TaskOk(s'.batches, RowsOf(s'.chunks, p), p, s'.tick.tasks[p])
      {
        if TaskEvent(e) && e.p == p {
          MovingTaskKept(s, e);
        } else {
          RestingTaskKept(c, s, e, p);
        }
      }
    }
  }

  // ---- Anchoring ----

  /** Only `ConfirmBatch` makes a batch CONFIRMED, and it starts anchoring. */
  lemma StatusMoves(c: Config, s: State, e: Event, p: Period)
    requires Enabled(c, s, e)
    ensures p in s.batches && s.batches[p].status == CONFIRMED ==>
              p in Apply(c, s, e).batches && Apply(c, s, e).batches[p].status == CONFIRMED
    ensures p in Apply(c, s, e).batches && Apply(c, s, e).batches[p].status == CONFIRMED ==>
              || (p in s.batches && s.batches[p].status == CONFIRMED)
              || InAnchoring(Apply(c, s, e).tick, p)
  {
    hide Apply, Enabled;
    BatchRowsMove(c, s, e);
    if e == ConfirmBatch(p) { AfterConfirmBatch(c, s, p); }
  }

  /** Only `AnchorViews` ends anchoring. */
  lemma AnchoringMoves(c: Config, s: State, e: Event, p: Period)
    requires Enabled(c, s, e)
    ensures InAnchoring(s.tick, p) && e != AnchorViews(p) ==> InAnchoring(Apply(c, s, e).tick, p)
  {
    hide Apply, Enabled;
    if InAnchoring(s.tick, p) {
      if TaskEvent(e) && e.p == p {
        AfterTaskEvent(c, s, e);
      } else {
        hide ApplyTask;
        TasksStay(c, s, e);
      }
    }
  }

  lemma AnchorKept(c: Config, s: State, e: Event)
    requires Enabled(c, s, e)
    requires TickInv(s.batches, s.chunks, s.tick)
    requires AnchorInv(s.views, s.batches, s.tick)
    ensures AnchorInv(Apply(c, s, e).views, Apply(c, s, e).batches, Apply(c, s, e).tick)
  {
    hide Apply, Enabled;
    OthersUntouched(c, s, e);
    var s' := Apply(c, s, e);
    if e.AnchorViews? {
      AfterAnchor(c, s, e.p);
      AnchorFacts(s.views, e.p);
      assert TaskOk(s.batches, RowsOf(s.chunks, e.p), e.p, s.tick.tasks[e.p]);
    } else if e.Register? {
      AfterRegister(c, s, e.key, e.asset, e.period);
    }
    forall i | 0 <= i < |s'.views|
      ensures AnchorOk(s'.batches, s'.tick, s'.views[i])
    {
      StatusMoves(c, s, e, s'.views[i].period);
      AnchoringMoves(c, s, e, s'.views[i].period);
      if i < |s.views| { assert AnchorOk(s.batches, s.tick, s.views[i]); }
    }
  }
}
