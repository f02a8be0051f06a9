/** What a run leaves behind in the tables: depth by the blocks that have passed, the hash of a period by its
    first send, FAILED by a refused send. */
module History {
  import opened Options
  import opened Payloads
  import N = NotaryContract
  import opened Protocol
  import opened Invariant
  import opened Moves
  import opened TablesKept
  import opened TransactionsKept
  import opened ReconciliationKept
  import opened Runs

  // ---- Depth ----

  predicate InSpan(block: nat, n: nat, head: nat) { block <= n <= head }

  /** The blocks from the one a transaction was mined in up to the head. */
  function BlocksSince(block: nat, head: nat): set<nat> {
    set n: nat | n <= head && InSpan(block, n, head)
  }

  /** Confirmations are those blocks, the transaction's own included. */
  lemma {:induction false} ConfirmationsAreBlocks(head: nat, block: nat)
    ensures Confirmations(head, block) == |BlocksSince(block, head)|
    decreases head
  {
    if head < block {
      assert BlocksSince(block, head) == {};
    } else if head == block {
      assert BlocksSince(block, head) == {head};
    } else {
      ConfirmationsAreBlocks(head - 1, block);
      assert BlocksSince(block, head) == BlocksSince(block, head - 1) + {head};
    }
  }

  /** The depth is reached exactly when the transaction is mined and its block and those after it are enough. */
  lemma DeepIff(c: Config, txs: map<TxId, Tx>, head: nat, t: TxId)
    ensures Deep(c, txs, head, t) <==> Mined(txs, t) && head + 1 >= txs[t].block.value + c.depth
    ensures Deep(c, txs, head, t) <==> Mined(txs, t) && |BlocksSince(txs[t].block.value, head)| >= c.depth
  {
    if Mined(txs, t) { ConfirmationsAreBlocks(head, txs[t].block.value); }
  }

  /** The number of blocks a run adds. */
  function NewBlocks(es: seq<Event>): nat {
    if es == [] then 0 else NewBlocks(es[1..]) + if es[0].NewBlock? then 1 else 0
  }

  lemma {:induction false} MinedStays(c: Config, s: State, es: seq<Event>, t: State, tx: TxId)
    requires Run(c, s, es, t) && Mined(s.txs, tx)
    ensures Mined(t.txs, tx) && t.txs[tx].block == s.txs[tx].block
    ensures t.head == s.head + NewBlocks(es)
    decreases es
  {
    hide Apply, Enabled;
    if es != [] {
      TxRowsMove(c, s, es[0]);
      OthersUntouched(c, s, es[0]);
      if es[0].NewBlock? { AfterNewBlock(c, s); }
      MinedStays(c, Apply(c, s, es[0]), es[1..], t, tx);
    }
  }

  /** A transaction mined now is deep after any run exactly when the run adds all but one of the blocks asked
      for: the one it is in counts. */
  lemma DeepAfterBlocks(c: Config, s: State, tx: TxId, timestamp: nat, es: seq<Event>, t: State)
    requires Enabled(c, s, Include(tx, timestamp)) && Run(c, Apply(c, s, Include(tx, timestamp)), es, t)
    ensures Deep(c, t.txs, t.head, tx) <==> NewBlocks(es) + 1 >= c.depth
  {
    hide Apply, Enabled;
    AfterInclude(c, s, tx, timestamp);
    MinedStays(c, Apply(c, s, Include(tx, timestamp)), es, t, tx);
    DeepIff(c, t.txs, t.head, tx);
  }

  /** Every CONFIRMED asset is that deep. */
  ghost predicate AssetsDeep(c: Config, s: State) {
    forall id :: id in s.assets && s.assets[id].status == CONFIRMED ==>
      s.assets[id].txHash.Some? && Deep(c, s.txs, s.head, s.assets[id].txHash.value)
  }

  lemma AssetStatusMoves(c: Config, s: State, e: Event, id: Id)
    requires Enabled(c, s, e) && NotarizationInv(s.assets, s.notarizing, s.txs)
    requires id in Apply(c, s, e).assets && Apply(c, s, e).assets[id].status == CONFIRMED
    ensures id in s.assets && Apply(c, s, e).assets[id].txHash == s.assets[id].txHash
    ensures s.assets[id].status == CONFIRMED
            || (s.assets[id].txHash.Some? && Deep(c, s.txs, s.head, s.assets[id].txHash.value))
  {
    hide Apply, Enabled, Deep;
    if e.CreateAsset? {
      AfterCreateAsset(c, s, e.id, e.hash);
    } else if e.RecordNotarize? {
      AfterRecordNotarize(c, s, e.id);
    } else if e.FailNotarize? {
      AfterFailNotarize(c, s, e.id);
    } else if e.ConfirmAsset? {
      AfterConfirmAsset(c, s, e.id);
    } else if e.MirrorOne? {
      AfterMirrorOne(c, s, e.p);
    } else {
      OthersUntouched(c, s, e);
    }
  }

  lemma AssetsDeepKept(c: Config, s: State, e: Event)
    requires Inv(c, s) && AssetsDeep(c, s) && Enabled(c, s, e)
    ensures AssetsDeep(c, Apply(c, s, e))
  {
    hide Apply, Enabled, Inv, Deep;
    var s' := Apply(c, s, e);
    forall id | id in s'.assets && s'.assets[id].status == CONFIRMED
      ensures s'.assets[id].txHash.Some? && Deep(c, s'.txs, s'.head, s'.assets[id].txHash.value)
    {
      AssetStatusMoves(c, s, e, id) by { NotarizationHolds(c, s); }
      DeepStays(c, s, e, s.assets[id].txHash.value);
    }
  }

  lemma NotarizationHolds(c: Config, s: State)
    requires Inv(c, s)
    ensures NotarizationInv(s.assets, s.notarizing, s.txs)
  {
  }

  // ---- The hash of a period ----

  predicate HasHash(batches: map<Period, BatchRow>, p: Period) {
    p in batches && batches[p].txHash.Some?
  }

  /** A period without hash has no chunk with one; a period with a hash has it from one of its chunks. */
  predicate HashOk(txHash: Option<TxId>, rows: seq<ChunkRow>) {
    if txHash.None? then forall j :: 0 <= j < |rows| ==> rows[j].txHash.None?
    else exists j :: 0 <= j < |rows| && rows[j].txHash == txHash
  }

  /** And a publication in progress remembers which. */
  ghost predicate HashInv(s: State) {
    && (forall p :: p in s.batches ==> HashOk(s.batches[p].txHash, RowsOf(s.chunks, p)))
    && (forall p :: p in s.pub ==> s.pub[p].txSet == HasHash(s.batches, p))
  }

  /** Only a recorded send of its own publication changes the hash of a period. */
  lemma PeriodHashMoves(c: Config, s: State, e: Event, p: Period)
    requires Enabled(c, s, e) && p in s.batches && e != RecordChunk(p)
    ensures p in Apply(c, s, e).batches && Apply(c, s, e).batches[p].txHash == s.batches[p].txHash
  {
    hide Apply, Enabled;
    if e.EnsureBatch? {
      AfterEnsureBatch(c, s, e.p);
    } else if e.RecordChunk? {
      AfterRecordChunk(c, s, e.p);
    } else if e.MarkMirror? {
      AfterMarkMirror(c, s, e.p);
    } else if e.ConfirmBatch? {
      AfterConfirmBatch(c, s, e.p);
    } else {
      OthersUntouched(c, s, e);
    }
  }

  lemma HashOkFrame(txHash: Option<TxId>, rows: seq<ChunkRow>, rows': seq<ChunkRow>)
    requires HashOk(txHash, rows) && |rows'| == |rows| && forall j :: 0 <= j < |rows| ==> rows'[j].txHash == rows[j].txHash
    ensures HashOk(txHash, rows')
  {
    if j :| txHash.Some? && 0 <= j < |rows| && rows[j].txHash == txHash {
      assert rows'[j].txHash == txHash;
    }
  }

  lemma HashOkRecorded(txHash: Option<TxId>, rows: seq<ChunkRow>, j: nat, row: ChunkRow)
    requires HashOk(txHash, rows) && j < |rows| && rows[j].txHash.None? && row.txHash.Some?
    ensures HashOk(if txHash.Some? then txHash else row.txHash, rows[j := row])
  {
    if txHash.Some? {
      var k :| 0 <= k < |rows| && rows[k].txHash == txHash;
      assert rows[j := row][k].txHash == txHash;
    } else {
      assert rows[j := row][j].txHash == row.txHash;
    }
  }

  /** The period, apart from its publication. */
  predicate PeriodHashOk(s: State, p: Period) {
    p in s.batches ==> HashOk(s.batches[p].txHash, RowsOf(s.chunks, p))
  }

  lemma QuietPeriodHash(c: Config, s: State, e: Event, p: Period)
    requires Inv(c, s) && Enabled(c, s, e) && PeriodHashOk(s, p) && !(PublisherEvent(e) && e.p == p)
    ensures PeriodHashOk(Apply(c, s, e), p) && (HasHash(Apply(c, s, e).batches, p) <==> HasHash(s.batches, p))
    ensures p in Apply(c, s, e).pub <==> p in s.pub
    ensures p in s.pub ==> Apply(c, s, e).pub[p] == s.pub[p]
  {
    hide Apply, Enabled, Inv, HashOk;
    var s' := Apply(c, s, e);
    BatchRowsMove(c, s, e);
    if p in s.batches { PeriodHashMoves(c, s, e, p); }
    if PublisherEvent(e) {
      OtherPublisherRows(c, s, e, p);
    } else {
      SendsStay(c, s, e);
      if p in s.batches { HashOkFrame(s.batches[p].txHash, RowsOf(s.chunks, p), RowsOf(s'.chunks, p)); }
    }
  }

  lemma OtherPublisherRows(c: Config, s: State, e: Event, p: Period)
    requires Enabled(c, s, e) && PublisherEvent(e) && e.p != p
    ensures RowsOf(Apply(c, s, e).chunks, p) == RowsOf(s.chunks, p)
    ensures p in Apply(c, s, e).pub <==> p in s.pub
    ensures p in s.pub ==> Apply(c, s, e).pub[p] == s.pub[p]
  {
    hide Apply, Enabled;
    AfterPublisherEvent(c, s, e);
  }

  lemma SendKeepsPeriodHash(c: Config, s: State, p: Period)
    requires Inv(c, s) && Enabled(c, s, RecordChunk(p)) && PeriodHashOk(s, p) && s.pub[p].txSet == HasHash(s.batches, p)
    ensures PeriodHashOk(Apply(c, s, RecordChunk(p)), p) && HasHash(Apply(c, s, RecordChunk(p)).batches, p)
    ensures p in Apply(c, s, RecordChunk(p)).pub && Apply(c, s, RecordChunk(p)).pub[p].txSet
    ensures p in s.batches && (s.batches[p].txHash.Some? ==> Apply(c, s, RecordChunk(p)).batches[p].txHash == s.batches[p].txHash)
  {
    hide Apply, Enabled, HashOk;
    AfterRecordChunk(c, s, p);
    var t := s.pub[p];
    assert PublisherOk(s.views, s.batches, s.chunks, p, t);
    hide Inv;
    HashOkRecorded(s.batches[p].txHash, s.chunks[p], t.next, s.chunks[p][t.next].(txHash := Some(t.tx), status := PENDING));
  }

  lemma FailKeepsPeriodHash(c: Config, s: State, p: Period)
    requires Enabled(c, s, FailSend(p)) && PeriodHashOk(s, p) && s.pub[p].txSet == HasHash(s.batches, p)
    ensures PeriodHashOk(Apply(c, s, FailSend(p)), p) && Apply(c, s, FailSend(p)).batches == s.batches
    ensures p in Apply(c, s, FailSend(p)).pub && Apply(c, s, FailSend(p)).pub[p].txSet == s.pub[p].txSet
  {
    hide Apply, Enabled, HashOk;
    AfterFailSend(c, s, p);
    if p in s.batches { HashOkFrame(s.batches[p].txHash, s.chunks[p], Apply(c, s, FailSend(p)).chunks[p]); }
  }

  lemma PlanKeepsPeriodHash(c: Config, s: State, e: Event, p: Period)
    requires Inv(c, s) && Enabled(c, s, e) && (e == EnsureBatch(p) || e == EnsureChunks(p))
    requires PeriodHashOk(s, p) && s.pub[p].txSet == HasHash(s.batches, p)
    ensures PeriodHashOk(Apply(c, s, e), p) && (HasHash(Apply(c, s, e).batches, p) <==> HasHash(s.batches, p))
    ensures p in Apply(c, s, e).pub && Apply(c, s, e).pub[p].txSet == s.pub[p].txSet
  {
    hide Apply, Enabled;
    if e.EnsureBatch? {
      AfterEnsureBatch(c, s, p);
    } else {
      AfterEnsureChunks(c, s, p);
      EnsuredRows(c, s, p);
      OthersUntouched(c, s, e);
    }
  }

  lemma OwnPeriodHash(c: Config, s: State, e: Event, p: Period)
    requires Inv(c, s) && HashInv(s) && Enabled(c, s, e) && PublisherEvent(e) && e.p == p
    ensures PeriodHashOk(Apply(c, s, e), p)
    ensures p in Apply(c, s, e).pub ==> Apply(c, s, e).pub[p].txSet == HasHash(Apply(c, s, e).batches, p)
  {
    hide Apply, Enabled, Inv, HashOk;
    assert PeriodHashOk(s, p);
    if e.RecordChunk? {
      AfterRecordChunk(c, s, p);
      SendKeepsPeriodHash(c, s, p);
    } else if e.FailSend? {
      AfterFailSend(c, s, p);
      FailKeepsPeriodHash(c, s, p);
    } else if e.EnsureBatch? {
      AfterEnsureBatch(c, s, p);
      PlanKeepsPeriodHash(c, s, e, p);
    } else if e.EnsureChunks? {
      AfterEnsureChunks(c, s, p);
      PlanKeepsPeriodHash(c, s, e, p);
    } else if e.ReadAggregates? {
      AfterReadAggregates(c, s, p, e.rows);
    } else if e.LoadChunks? {
      AfterLoadChunks(c, s, p);
    } else if e.SkipSent? {
      AfterSkipSent(c, s, p);
    } else if e.SendChunk? {
      AfterSendChunk(c, s, p, e.tx);
    } else {
      AfterEndPublish(c, s, p);
    }
  }

  lemma HashKept(c: Config, s: State, e: Event)
    requires Inv(c, s) && HashInv(s) && Enabled(c, s, e)
    ensures HashInv(Apply(c, s, e))
  {
    hide Apply, Enabled, Inv, HashOk;
    var s' := Apply(c, s, e);
    forall p | p in s'.batches ensures HashOk(s'.batches[p].txHash, RowsOf(s'.chunks, p)) {
      assert PeriodHashOk(s, p);
      if PublisherEvent(e) && e.p == p { OwnPeriodHash(c, s, e, p); } else { QuietPeriodHash(c, s, e, p); }
    }
    forall p | p in s'.pub ensures s'.pub[p].txSet == HasHash(s'.batches, p) {
      assert PeriodHashOk(s, p);
      if PublisherEvent(e) && e.p == p { OwnPeriodHash(c, s, e, p); } else { QuietPeriodHash(c, s, e, p); }
    }
  }

  // ---- Failures ----

  /** What the history says of every FAILED row: the send of that chunk or asset was refused. */
  ghost predicate FailuresExplained(es: seq<Event>, s: State) {
    && (forall p, j: nat :: HasRow(s.chunks, p, j) && s.chunks[p][j].status == FAILED ==> FailSend(p) in es)
    && (forall id :: id in s.assets && s.assets[id].status == FAILED ==> FailNotarize(id) in es)
  }

  lemma ChunkFailureMoves(c: Config, s: State, e: Event, p: Period, j: nat)
    requires Inv(c, s) && Enabled(c, s, e)
    requires HasRow(Apply(c, s, e).chunks, p, j) && Apply(c, s, e).chunks[p][j].status == FAILED
    ensures e == FailSend(p) || (HasRow(s.chunks, p, j) && s.chunks[p][j].status == FAILED)
  {
    hide Apply, Enabled;
    if HasRow(s.chunks, p, j) {
      RowMove(c, s, e, p, j);
      ChunkRowsMove(c, s, e);
    } else {
      ChunkRowsMove(c, s, e);
    }
  }

  lemma AssetFailureMoves(c: Config, s: State, e: Event, id: Id)
    requires Enabled(c, s, e) && id in Apply(c, s, e).assets && Apply(c, s, e).assets[id].status == FAILED
    ensures e == FailNotarize(id) || (id in s.assets && s.assets[id].status == FAILED)
  {
    hide Apply, Enabled;
    if e.CreateAsset? {
      AfterCreateAsset(c, s, e.id, e.hash);
    } else if e.RecordNotarize? {
      AfterRecordNotarize(c, s, e.id);
    } else if e.FailNotarize? {
      AfterFailNotarize(c, s, e.id);
    } else if e.ConfirmAsset? {
      AfterConfirmAsset(c, s, e.id);
    } else if e.MirrorOne? {
      AfterMirrorOne(c, s, e.p);
    } else {
      OthersUntouched(c, s, e);
    }
  }

  lemma FailuresKept(c: Config, s: State, past: seq<Event>, e: Event)
    requires Inv(c, s) && FailuresExplained(past, s) && Enabled(c, s, e)
    ensures FailuresExplained(past + [e], Apply(c, s, e))
  {
    hide Apply, Enabled, Inv;
    var s' := Apply(c, s, e);
    forall p, j: nat | HasRow(s'.chunks, p, j) && s'.chunks[p][j].status == FAILED ensures FailSend(p) in past + [e] {
      ChunkFailureMoves(c, s, e, p, j);
    }
    forall id | id in s'.assets && s'.assets[id].status == FAILED ensures FailNotarize(id) in past + [e] {
      AssetFailureMoves(c, s, e, id);
    }
  }

  // ---- Runs ----

  lemma {:induction false} RunTells(c: Config, past: seq<Event>, s: State, es: seq<Event>, t: State)
    requires Inv(c, s) && Run(c, s, es, t)
    requires AssetsDeep(c, s) && HashInv(s) && FailuresExplained(past, s)
    ensures AssetsDeep(c, t) && HashInv(t) && FailuresExplained(past + es, t)
    decreases es
  {
    hide Apply, Enabled, Inv, AssetsDeep, HashInv, FailuresExplained;
    if es == [] {
      assert past + es == past;
    } else {
      var s' := Apply(c, s, es[0]);
      EventKeepsInv(c, s, es[0]);
      AssetsDeepKept(c, s, es[0]);
      HashKept(c, s, es[0]);
      FailuresKept(c, s, past, es[0]);
      RunTells(c, past + [es[0]], s', es[1..], t);
      assert past + [es[0]] + es[1..] == past + es;
    }
  }

  lemma RunFromStart(c: Config, es: seq<Event>, t: State)
    requires Run(c, Init(c), es, t)
    ensures AssetsDeep(c, t) && HashInv(t) && FailuresExplained(es, t)
  {
    hide Apply, Enabled;
    InitInv(c);
    RunTells(c, [], Init(c), es, t);
    assert [] + es == es;
  }

  /** A CONFIRMED asset is mined with its own notarisation, carries that block, and enough blocks stand on it. */
  lemma ConfirmedAssetIsDeep(c: Config, s: State, id: Id)
    requires Reachable(c, s) && id in s.assets && s.assets[id].status == CONFIRMED
    ensures s.assets[id].txHash.Some? && Mined(s.txs, s.assets[id].txHash.value)
    ensures var tx := s.txs[s.assets[id].txHash.value];
            && tx.call == N.NotarizeAsset(id, s.assets[id].contentHash)
            && s.assets[id].blockNumber == tx.block && |BlocksSince(tx.block.value, s.head)| >= c.depth
  {
    hide Apply, Enabled;
    ReachableInv(c, s);
    var es :| Run(c, Init(c), es, s);
    RunFromStart(c, es, s);
    DeepIff(c, s.txs, s.head, s.assets[id].txHash.value);
  }

  /** The hash of a period is that of its first send: it has none as long as none of its chunks has one, then
      one of theirs, and it never changes again. */
  lemma PeriodHashIsFirst(c: Config, s: State, p: Period, es: seq<Event>, t: State)
    requires Reachable(c, s) && p in s.batches && Run(c, s, es, t)
    ensures s.batches[p].txHash.None? <==> forall j :: 0 <= j < |RowsOf(s.chunks, p)| ==> RowsOf(s.chunks, p)[j].txHash.None?
    ensures s.batches[p].txHash.Some? ==>
              exists j :: 0 <= j < |RowsOf(s.chunks, p)| && RowsOf(s.chunks, p)[j].txHash == s.batches[p].txHash
    ensures p in t.batches && (s.batches[p].txHash.Some? ==> t.batches[p].txHash == s.batches[p].txHash)
  {
    hide Apply, Enabled;
    ReachableInv(c, s);
    var past :| Run(c, Init(c), past, s);
    RunFromStart(c, past, s);
    hide Inv;
    HashStays(c, s, p, es, t);
  }

  lemma {:induction false} HashStays(c: Config, s: State, p: Period, es: seq<Event>, t: State)
    requires Inv(c, s) && HashInv(s) && p in s.batches && Run(c, s, es, t)
    ensures p in t.batches && (s.batches[p].txHash.Some? ==> t.batches[p].txHash == s.batches[p].txHash)
    decreases es
  {
    hide Apply, Enabled, Inv, HashOk;
    if es != [] {
      var e := es[0];
      EventKeepsInv(c, s, e);
      HashKept(c, s, e);
      if e == RecordChunk(p) {
        AfterRecordChunk(c, s, p);
        assert PeriodHashOk(s, p);
        SendKeepsPeriodHash(c, s, p);
      } else {
        PeriodHashMoves(c, s, e, p);
      }
      HashStays(c, Apply(c, s, e), p, es[1..], t);
    }
  }

  /** A row is FAILED only when a send was refused: in every run, a FAILED chunk belongs to a period with a
      refused send, and a FAILED asset to a refused notarisation. */
  lemma FailedMeansRefused(c: Config, es: seq<Event>, t: State)
    requires Run(c, Init(c), es, t)
    ensures forall p, j: nat :: HasRow(t.chunks, p, j) && t.chunks[p][j].status == FAILED ==> FailSend(p) in es
    ensures forall id :: id in t.assets && t.assets[id].status == FAILED ==> FailNotarize(id) in es
  {
    RunFromStart(c, es, t);
  }
}
