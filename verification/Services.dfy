/** The services as code: `publishBatchFor` and `reconcileBatches` over the tables, statement by
    statement. A backend object carries the list of protocol events it has executed so far, and its
    invariant says that they lead from the empty system to its present tables: the code only ever does
    what the protocol allows, so everything proved about runs holds of it. */
module Services {
  import opened Options
  import opened Payloads
  import opened Sums
  import N = NotaryContract
  import opened Protocol
  import opened Invariant
  import opened Moves
  import opened Runs
  import opened Conservation
  import opened Convergence
  import opened ViewCounts
  import opened History
  import TablesKept

  /** How the finalisation of one period ends. */
  datatype Ending = Confirmed | StillPending | Failed

  datatype NotarizeResult = Conflict | Submitted(txHash: TxId) | NotSent

  datatype Counters = Counters(scanned: nat, confirmed: nat, stillPending: nat, failed: nat)

  /** What one publish call leaves in the row of a chunk: a sent chunk untouched, an accepted one with
      its hash, a refused one FAILED and still without hash. */
  predicate RowAfterPublish(before: ChunkRow, after: ChunkRow, j: nat, answers: map<nat, TxId>) {
    if before.txHash.Some? then after == before
    else if j in answers then after == before.(txHash := Some(answers[j]), status := PENDING)
    else after == before.(status := FAILED)
  }

  /** What the confirmation phase leaves in a row. */
  predicate RowAfterCheck(c: Config, txs: map<TxId, Tx>, head: nat, before: ChunkRow, after: ChunkRow, threw: bool) {
    if before.status == PENDING && before.txHash.Some? && !threw && Deep(c, txs, head, before.txHash.value)
    then after == before.(status := CONFIRMED, blockNumber := txs[before.txHash.value].block)
    else after == before
  }

  predicate AssetAfterCheck(c: Config, txs: map<TxId, Tx>, head: nat, before: AssetRow, after: AssetRow, threw: bool) {
    if before.status == PENDING && before.txHash.Some? && !threw && Deep(c, txs, head, before.txHash.value)
    then after == before.(status := CONFIRMED, blockNumber := txs[before.txHash.value].block)
    else after == before
  }

  /** The chunk has no hash yet and the gateway accepts it. */
  predicate SendsNow(row: ChunkRow, j: nat, answers: map<nat, TxId>) {
    row.txHash.None? && j in answers
  }

  /** The hash of the first chunk sent. */
  function FirstHash(found: seq<ChunkRow>, answers: map<nat, TxId>): Option<TxId> {
    if found == [] then None
    else
      var n := |found| - 1;
      var first := FirstHash(found[..n], answers);
      if first.Some? then first else if SendsNow(found[n], n, answers) then Some(answers[n]) else None
  }

  /** The period's own hash: set once, by the first chunk sent. */
  function WithHash(batches: map<Period, BatchRow>, p: Period, txSet: bool, first: Option<TxId>): map<Period, BatchRow> {
    if txSet || first.None? || p !in batches then batches else batches[p := batches[p].(txHash := first)]
  }

  lemma WithHashKeeps(batches: map<Period, BatchRow>, p: Period, txSet: bool, first: Option<TxId>)
    requires p in batches
    ensures p in WithHash(batches, p, txSet, first) && WithHash(batches, p, txSet, first)[p].payload == batches[p].payload
  {
  }

  function NewBatchRow(sorted: seq<Update>): BatchRow {
    BatchRow(sorted, |sorted|, TotalOf(sorted), PENDING, false, None, None)
  }

  function WithRow(batches: map<Period, BatchRow>, p: Period, sorted: seq<Update>): map<Period, BatchRow> {
    if p in batches then batches else batches[p := NewBatchRow(sorted)]
  }

  /** `reconcileAssets` so far: the assets still to come are as they were, the others as they end. */
  ghost predicate AssetsChecked(
    c: Config, txs: map<TxId, Tx>, head: nat, before: map<Id, AssetRow>, after: map<Id, AssetRow>, todo: set<Id>, throwing: set<Id>)
  {
    && after.Keys == before.Keys && todo <= PendingAssets(before)
    && forall id :: id in before ==>
         if id in todo then after[id] == before[id]
         else AssetAfterCheck(c, txs, head, before[id], after[id], id in throwing)
  }

  lemma AssetsCheckedStarts(c: Config, txs: map<TxId, Tx>, head: nat, assets: map<Id, AssetRow>, throwing: set<Id>)
    ensures AssetsChecked(c, txs, head, assets, assets, PendingAssets(assets), throwing)
  {
  }

  lemma AssetsCheckedStep(
    c: Config, txs: map<TxId, Tx>, head: nat, before: map<Id, AssetRow>, now: map<Id, AssetRow>, after: map<Id, AssetRow>,
    todo: set<Id>, throwing: set<Id>, id: Id)
    requires AssetsChecked(c, txs, head, before, now, todo, throwing) && id in todo
    requires id in before && before[id].txHash.Some?
    requires after == if id !in throwing && Deep(c, txs, head, before[id].txHash.value)
                      then now[id := now[id].(status := CONFIRMED, blockNumber := txs[before[id].txHash.value].block)]
                      else now
    ensures AssetsChecked(c, txs, head, before, after, todo - {id}, throwing)
  {
    hide Deep;
  }

  lemma AssetsCheckedRow(
    c: Config, txs: map<TxId, Tx>, head: nat, before: map<Id, AssetRow>, after: map<Id, AssetRow>, todo: set<Id>, throwing: set<Id>, id: Id)
    requires AssetsChecked(c, txs, head, before, after, todo, throwing) && id in todo
    ensures id in before && id in after && after[id] == before[id] && after[id].status == PENDING && after[id].txHash.Some?
  {
  }

  function PendingAssets(assets: map<Id, AssetRow>): set<Id> {
    set id | id in assets && assets[id].status == PENDING && assets[id].txHash.Some?
  }

  function ConfirmedAssets(assets: map<Id, AssetRow>): set<Id> {
    set id | id in assets && assets[id].status == CONFIRMED
  }

  /** The counters of `reconcileAssets` against the table: every pending asset with a hash is counted once,
      `confirmed` are those that became CONFIRMED, `failed` those whose receipt could not be read. */
  predicate AssetCountersTell(counter: Counters, before: map<Id, AssetRow>, after: map<Id, AssetRow>, throwing: set<Id>) {
    && counter.scanned == |PendingAssets(before)| == counter.confirmed + counter.stillPending + counter.failed
    && counter.confirmed == |PendingAssets(before) * ConfirmedAssets(after)|
    && counter.failed == |PendingAssets(before) * throwing|
  }

  /** The same, with the assets of todo still to come. */
  predicate AssetsMidway(pending: set<Id>, todo: set<Id>, assets: map<Id, AssetRow>, throwing: set<Id>, counter: Counters) {
    && todo <= pending && counter.scanned == |pending| == |todo| + counter.confirmed + counter.stillPending + counter.failed
    && counter.confirmed == |pending * ConfirmedAssets(assets)|
    && counter.failed == |(pending - todo) * throwing|
  }

  lemma AssetsMidwayStarts(assets: map<Id, AssetRow>, throwing: set<Id>)
    ensures var p := PendingAssets(assets); AssetsMidway(p, p, assets, throwing, Counters(|p|, 0, 0, 0))
  {
    assert PendingAssets(assets) * ConfirmedAssets(assets) == {};
    assert (PendingAssets(assets) - PendingAssets(assets)) * throwing == {};
  }

  lemma AssetsMidwayStep(
    pending: set<Id>, todo: set<Id>, before: map<Id, AssetRow>, after: map<Id, AssetRow>, throwing: set<Id>, counter: Counters,
    id: Id, ending: Ending)
    requires AssetsMidway(pending, todo, before, throwing, counter) && id in todo
    requires id in before && id in after && after == before[id := after[id]]
    requires before[id].status == PENDING && after[id].status == (if ending.Confirmed? then CONFIRMED else PENDING)
    requires ending.Failed? <==> id in throwing
    ensures AssetsMidway(pending, todo - {id}, after, throwing, Counted(counter, ending))
  {
    ConfirmedCount(pending, before, after, id, ending.Confirmed?);
    DoneCount(pending, todo, throwing, id);
    hide ConfirmedAssets;
  }

  lemma ConfirmedCount(pending: set<Id>, before: map<Id, AssetRow>, after: map<Id, AssetRow>, id: Id, confirmed: bool)
    requires id in pending && id in before && id in after && after == before[id := after[id]]
    requires before[id].status == PENDING && after[id].status == (if confirmed then CONFIRMED else PENDING)
    ensures |pending * ConfirmedAssets(after)| == |pending * ConfirmedAssets(before)| + if confirmed then 1 else 0
  {
    assert ConfirmedAssets(after) == ConfirmedAssets(before) + if confirmed then {id} else {};
    assert id !in ConfirmedAssets(before);
    var x, y := ConfirmedAssets(before), ConfirmedAssets(after);
    hide ConfirmedAssets;
    if confirmed {
      assert pending * y == pending * x + {id};
    }
  }

  lemma DoneCount(pending: set<Id>, todo: set<Id>, throwing: set<Id>, id: Id)
    requires todo <= pending && id in todo
    ensures |(pending - (todo - {id})) * throwing| == |(pending - todo) * throwing| + if id in throwing then 1 else 0
    ensures |todo - {id}| == |todo| - 1
  {
    var x, y := (pending - todo) * throwing, (pending - (todo - {id})) * throwing;
    assert id !in x;
    if id in throwing {
      assert y == x + {id};
    } else {
      assert y == x;
    }
  }

  lemma AssetsMidwayEnds(pending: set<Id>, assets: map<Id, AssetRow>, throwing: set<Id>, counter: Counters)
    requires AssetsMidway(pending, {}, assets, throwing, counter)
    ensures counter.scanned == |pending| == counter.confirmed + counter.stillPending + counter.failed
    ensures counter.confirmed == |pending * ConfirmedAssets(assets)| && counter.failed == |pending * throwing|
  {
    assert (pending - {}) * throwing == pending * throwing;
  }

  lemma DeepIsMined(c: Config, txs: map<TxId, Tx>, head: nat, t: TxId)
    ensures Deep(c, txs, head, t) ==> t in txs && txs[t].block.Some?
  {
  }

  predicate SameShape(a: map<Period, seq<ChunkRow>>, b: map<Period, seq<ChunkRow>>) {
    a.Keys == b.Keys && forall p :: p in a ==> |a[p]| == |b[p]|
  }

  /** The events between two moments: how many ticks they complete, and whether all of them are calm. */
  ghost predicate Grew(before: seq<Event>, after: seq<Event>, ticks: nat, calm: bool) {
    && before <= after
    && Ticks(after[|before|..]) == ticks
    && (calm ==> AllCalm(after[|before|..]))
  }

  method Pick<T>(items: set<T>) returns (item: T)
    requires items != {}
    ensures item in items
  {
    item :| item in items;
  }

  class Backend {
    const c: Config

    // The database.
    var views: seq<View>
    var assets: map<Id, AssetRow>
    var batches: map<Period, BatchRow>
    var chunks: map<Period, seq<ChunkRow>>

    // The chain behind the gateway.
    var chain: N.Storage
    var txs: map<TxId, Tx>
    var head: nat

    // Where the running calls are, and what has happened so far.
    ghost var notarizing: map<Id, Option<TxId>>
    ghost var pub: map<Period, Publisher>
    ghost var tick: Tick
    ghost var trace: seq<Event>

    ghost function S(): State
      reads this
    {
      State(views, assets, batches, chunks, chain, txs, head, notarizing, pub, tick)
    }

    ghost predicate Valid()
      reads this
    {
      Run(c, Init(c), trace, S())
    }

    constructor (c: Config)
      ensures this.c == c && Valid() && S() == Init(c) && trace == []
    {
      this.c := c;
      views, assets, batches, chunks := [], map[], map[], map[];
      chain, txs, head := N.Deployed(c.attester), map[], 0;
      notarizing, pub, tick, trace := map[], map[], Idle, [];
    }

    /** Note the event that led from s to the present tables. */
    ghost method Took(s: State, e: Event)
      requires Run(c, Init(c), trace, s) && Enabled(c, s, e) && S() == Apply(c, s, e)
      modifies this`trace
      ensures Valid() && trace == old(trace) + [e]
    {
      hide Apply, Enabled;
      Extend(c, Init(c), trace, s, e);
      trace := trace + [e];
    }

    // ---- Requests, and the chain moving on ----

    /** The insert of a view under a new key. It is an event of the protocol unless the publication of its
        period has begun (H1); then the table takes the view all the same. */
    method RegisterView(key: Key, asset: Id, p: Period) returns (stored: bool)
      requires Valid()
      modifies this`views, this`trace
      ensures stored <==> asset in assets && forall i :: 0 <= i < |old(views)| ==> old(views)[i].key != key
      ensures views == if stored then old(views) + [View(key, asset, p, false)] else old(views)
      ensures !stored || (p !in batches && p !in pub) ==> Valid()
    {
      hide Apply, Enabled;
      for i := 0 to |views|
        invariant forall j :: 0 <= j < i ==> views[j].key != key
      {
        if views[i].key == key { return false; }
      }
      if asset !in assets { return false; }
      ghost var s := S();
      AfterRegister(c, s, key, asset, p);
      views := views + [View(key, asset, p, false)];
      if p !in batches && p !in pub {
        Took(s, Event.Register(key, asset, p));
      }
      return true;
    }

    /** `create`. */
    method CreateAssetRow(id: Id, hash: N.Hash)
      requires Valid() && id !in assets
      modifies this`assets, this`notarizing, this`trace
      ensures Valid() && notarizing == old(notarizing)[id := None]
      ensures assets == old(assets)[id := AssetRow(hash, PENDING, None, None, 0)]
    {
      hide Apply, Enabled;
      ghost var s := S();
      AfterCreateAsset(c, s, id, hash);
      assets := assets[id := AssetRow(hash, PENDING, None, None, 0)];
      notarizing := notarizing[id := None];
      Took(s, CreateAsset(id, hash));
    }

    /** `gateway.notarizeAsset`, accepted under the hash tx. */
    method GatewayNotarize(id: Id, hash: N.Hash, tx: TxId)
      requires Valid() && id in notarizing && notarizing[id].None? && id in assets && assets[id].contentHash == hash && tx !in txs
      modifies this`txs, this`notarizing, this`trace
      ensures Valid() && notarizing == old(notarizing)[id := Some(tx)]
      ensures txs == old(txs)[tx := Tx(N.NotarizeAsset(id, hash), None, None)]
    {
      hide Apply, Enabled;
      ghost var s := S();
      AfterSendNotarize(c, s, id, tx);
      txs := txs[tx := Tx(N.NotarizeAsset(id, hash), None, None)];
      notarizing := notarizing[id := Some(tx)];
      Took(s, SendNotarize(id, tx));
    }

    /** `markSubmitted`. */
    method MarkAssetSubmitted(id: Id, tx: TxId)
      requires Valid() && id in notarizing && notarizing[id] == Some(tx) && id in assets
      modifies this`assets, this`notarizing, this`trace
      ensures Valid() && notarizing == old(notarizing) - {id}
      ensures assets == old(assets)[id := old(assets)[id].(txHash := Some(tx))]
    {
      hide Apply, Enabled;
      ghost var s := S();
      AfterRecordNotarize(c, s, id);
      assets := assets[id := assets[id].(txHash := Some(tx))];
      notarizing := notarizing - {id};
      Took(s, RecordNotarize(id));
    }

    /** `markFailed`. */
    method MarkAssetFailed(id: Id)
      requires Valid() && id in notarizing && notarizing[id].None? && id in assets
      modifies this`assets, this`notarizing, this`trace
      ensures Valid() && notarizing == old(notarizing) - {id}
      ensures assets == old(assets)[id := old(assets)[id].(status := FAILED)]
    {
      hide Apply, Enabled;
      ghost var s := S();
      AfterFailNotarize(c, s, id);
      assets := assets[id := assets[id].(status := FAILED)];
      notarizing := notarizing - {id};
      Took(s, FailNotarize(id));
    }

    lemma NotYetNotarising(id: Id)
      requires Valid() && id !in assets
      ensures id !in notarizing
    {
      Lawful();
    }

    /** `notarize`: create the row, send, then store the hash or mark the row FAILED. An id that has a row,
        even a FAILED one, is refused. `answer` is the hash the gateway returns, or none when it throws. */
    method Notarize(id: Id, hash: N.Hash, answer: Option<TxId>) returns (result: NotarizeResult)
      requires Valid() && (answer.Some? ==> answer.value !in txs)
      modifies this`assets, this`txs, this`notarizing, this`trace
      ensures Valid() && notarizing == old(notarizing)
      ensures result == if id in old(assets) then Conflict else if answer.Some? then Submitted(answer.value) else NotSent
      ensures result.Conflict? ==> assets == old(assets) && txs == old(txs)
      ensures result.Submitted? ==>
                && assets == old(assets)[id := AssetRow(hash, PENDING, answer, None, 0)]
                && txs == old(txs)[answer.value := Tx(N.NotarizeAsset(id, hash), None, None)]
      ensures result.NotSent? ==> assets == old(assets)[id := AssetRow(hash, FAILED, None, None, 0)] && txs == old(txs)
    {
      hide Valid;
      if id in assets {
        return Conflict;
      }
      NotYetNotarising(id);
      CreateAssetRow(id, hash);
      if answer.None? {
        MarkAssetFailed(id);
        result := NotSent;
      } else {
        GatewayNotarize(id, hash, answer.value);
        MarkAssetSubmitted(id, answer.value);
        result := Submitted(answer.value);
      }
      assert notarizing == old(notarizing);
    }

    /** A transaction is mined into the head block. */
    method Mine(tx: TxId, timestamp: nat)
      requires Valid() && tx in txs && txs[tx].block.None? && 0 < timestamp < N.TWO_TO_64
      requires N.Execute(chain, c.attester, txs[tx].call, timestamp).Done?
      modifies this`chain, this`txs, this`trace
      ensures Valid()
      ensures chain == N.Execute(old(chain), c.attester, old(txs)[tx].call, timestamp).storage
      ensures txs == old(txs)[tx := old(txs)[tx].(block := Some(head))]
    {
      hide Apply, Enabled, N.Execute;
      ghost var s := S();
      AfterInclude(c, s, tx, timestamp);
      chain := N.Execute(chain, c.attester, txs[tx].call, timestamp).storage;
      txs := txs[tx := txs[tx].(block := Some(head))];
      Took(s, Include(tx, timestamp));
    }

    method AddBlock()
      requires Valid()
      modifies this`head, this`trace
      ensures Valid() && head == old(head) + 1
    {
      hide Apply, Enabled;
      ghost var s := S();
      AfterNewBlock(c, s);
      head := head + 1;
      Took(s, NewBlock);
    }

    // ---- The database and gateway calls of publishBatchFor ----

    lemma RowCounts(p: Period)
      requires Valid() && p in batches
      ensures batches[p].viewsTotal == |ViewsIn(views, p)| && batches[p].assetCount == |AssetsIn(views, p)|
    {
      hide Valid;
      Lawful();
      BatchRowMeaning(c, S(), p);
    }

    /** `findByPeriodId` and `aggregatesForPeriod`. */
    method ReadPeriod(p: Period, rows: seq<Update>) returns (sorted: seq<Update>, existing: Option<BatchRow>)
      requires Valid() && p !in pub && IsAggregate(rows, views, p) && rows != []
      requires p in batches ==> batches[p].status != CONFIRMED
      modifies this`pub, this`trace
      ensures Valid() && trace == old(trace) + [ReadAggregates(p, rows)]
      ensures existing == (if p in batches then Some(batches[p]) else None)
      ensures sorted == SortByAsset(rows)
      ensures pub == old(pub)[p := Aggregated(sorted, existing.Some?, existing.Some? && existing.value.txHash.Some?)]
    {
      hide Apply, Enabled;
      ghost var s := S();
      existing := if p in batches then Some(batches[p]) else None;
      sorted := SortByAsset(rows);
      pub := pub[p := Aggregated(sorted, existing.Some?, existing.Some? && existing.value.txHash.Some?)];
      AfterReadAggregates(c, s, p, rows);
      Took(s, ReadAggregates(p, rows));
    }

    /** `createPending`, skipped when the period already has its row. */
    method CreatePending(p: Period, sorted: seq<Update>, viewsTotal: nat, existing: Option<BatchRow>) returns (batch: BatchRow)
      requires Valid() && viewsTotal == TotalOf(sorted)
      requires p in pub && pub[p].Aggregated? && pub[p].sorted == sorted && pub[p].present == existing.Some?
      requires existing.Some? ==> p in batches && existing.value == batches[p]
      modifies this`batches, this`pub, this`trace
      ensures Valid() && trace == old(trace) + [EnsureBatch(p)]
      ensures p in batches && batch == batches[p] && batch.payload == sorted
      ensures p in old(batches) ==> batches == old(batches)
      ensures p !in old(batches) ==> batches == old(batches)[p := NewBatchRow(sorted)]
      ensures batch.viewsTotal == |ViewsIn(views, p)| && batch.assetCount == |AssetsIn(views, p)|
      ensures pub == old(pub)[p := Prepared(sorted, old(pub)[p].txSet)]
    {
      hide Apply, Enabled;
      ghost var s := S();
      AfterEnsureBatch(c, s, p);
      CanEnsureBatch(c, s, p) by { Lawful(); }
      if existing.Some? {
        batch := existing.value;
      } else {
        batch := BatchRow(sorted, |sorted|, viewsTotal, PENDING, false, None, None);
        batches := batches[p := batch];
      }
      pub := pub[p := Prepared(sorted, pub[p].txSet)];
      Took(s, EnsureBatch(p));
      RowCounts(p);
    }

    /** `ensureChunks`: one insert with conflict-do-nothing on (period, index). On a period that has its
        chunks it changes nothing. */
    method EnsureChunkRows(p: Period, slices: seq<seq<Update>>)
      requires Valid() && p in pub && pub[p].Prepared? && slices == Slices(pub[p].sorted, c.maxChunk)
      modifies this`chunks, this`pub, this`trace
      ensures Valid() && trace == old(trace) + [Event.EnsureChunks(p)]
      ensures p in chunks && SamePayloads(chunks[p], slices)
      ensures p in old(chunks) ==> chunks == old(chunks)
      ensures chunks == old(chunks)[p := chunks[p]]
      ensures p !in old(chunks) ==> forall j :: 0 <= j < |chunks[p]| ==> chunks[p][j] == NewChunk(slices[j])
      ensures pub == old(pub)[p := Planned(old(pub)[p].txSet)]
    {
      hide Apply, Enabled, EnsureRows, Slices;
      ghost var s := S();
      EnsuredFacts(c, s, p) by { Lawful(); }
      AfterEnsureChunks(c, s, p);
      chunks := chunks[p := EnsureRows(if p in chunks then chunks[p] else [], slices)];
      assert p in old(chunks) ==> old(chunks) == old(chunks)[p := old(chunks)[p]];
      pub := pub[p := Planned(pub[p].txSet)];
      Took(s, Event.EnsureChunks(p));
    }

    /** `findChunks`. */
    method FindChunks(p: Period) returns (rows: seq<ChunkRow>)
      requires Valid() && p in pub && pub[p].Planned? && p in chunks
      modifies this`pub, this`trace
      ensures Valid() && trace == old(trace) + [LoadChunks(p)]
      ensures rows == chunks[p] && pub == old(pub)[p := Sending(rows, 0, old(pub)[p].txSet)]
    {
      hide Apply, Enabled;
      ghost var s := S();
      AfterLoadChunks(c, s, p);
      rows := chunks[p];
      pub := pub[p := Sending(rows, 0, pub[p].txSet)];
      Took(s, LoadChunks(p));
    }

    /** A chunk that has its hash is passed over. */
    ghost method Skip(p: Period)
      requires Valid() && InSending(S(), p) && pub[p].rows[pub[p].next].txHash.Some?
      modifies this`pub, this`trace
      ensures Valid() && trace == old(trace) + [SkipSent(p)]
      ensures pub == old(pub)[p := Sending(old(pub)[p].rows, old(pub)[p].next + 1, old(pub)[p].txSet)]
    {
      hide Apply, Enabled;
      ghost var s := S();
      AfterSkipSent(c, s, p);
      pub := pub[p := Sending(pub[p].rows, pub[p].next + 1, pub[p].txSet)];
      Took(s, SkipSent(p));
    }

    /** `gateway.publishBatch`, accepted under the hash tx. */
    method GatewayPublish(p: Period, payload: seq<Update>, j: nat, tx: TxId)
      requires Valid() && InSending(S(), p) && pub[p].next == j && pub[p].rows[j].payload == payload
      requires pub[p].rows[j].txHash.None? && tx !in txs
      modifies this`txs, this`pub, this`trace
      ensures Valid() && trace == old(trace) + [SendChunk(p, tx)]
      ensures txs == old(txs)[tx := Tx(N.PublishBatch(p, payload), Some(j), None)]
      ensures pub == old(pub)[p := Recording(old(pub)[p].rows, j, tx, old(pub)[p].txSet)]
    {
      hide Apply, Enabled;
      ghost var s := S();
      AfterSendChunk(c, s, p, tx);
      txs := txs[tx := Tx(N.PublishBatch(p, payload), Some(j), None)];
      pub := pub[p := Recording(pub[p].rows, j, tx, pub[p].txSet)];
      Took(s, SendChunk(p, tx));
    }

    /** `markChunkSubmitted`, and `markSubmitted` for the first hash of the period. */
    method MarkSubmitted(p: Period, j: nat, tx: TxId, periodTxSet: bool)
      requires Valid() && p in pub && pub[p].Recording? && pub[p].next == j && pub[p].tx == tx && pub[p].txSet == periodTxSet
      modifies this`chunks, this`batches, this`pub, this`trace
      ensures Valid() && trace == old(trace) + [RecordChunk(p)]
      ensures p in old(chunks) && j < |old(chunks)[p]| && p in old(batches)
      ensures chunks == old(chunks)[p := old(chunks)[p][j := old(chunks)[p][j].(txHash := Some(tx), status := PENDING)]]
      ensures batches == if periodTxSet then old(batches) else old(batches)[p := old(batches)[p].(txHash := Some(tx))]
      ensures pub == old(pub)[p := Sending(old(pub)[p].rows, j + 1, true)]
    {
      hide Apply, Enabled;
      ghost var s := S();
      CanRecord(c, s, p) by { Lawful(); }
      AfterRecordChunk(c, s, p);
      chunks := chunks[p := chunks[p][j := chunks[p][j].(txHash := Some(tx), status := PENDING)]];
      if !periodTxSet {
        batches := batches[p := batches[p].(txHash := Some(tx))];
      }
      pub := pub[p := Sending(pub[p].rows, j + 1, true)];
      Took(s, RecordChunk(p));
    }

    /** `markChunkFailed`. */
    method MarkChunkFailed(p: Period, j: nat)
      requires Valid() && InSending(S(), p) && pub[p].next == j && pub[p].rows[j].txHash.None?
      modifies this`chunks, this`pub, this`trace
      ensures Valid() && trace == old(trace) + [FailSend(p)]
      ensures p in old(chunks) && j < |old(chunks)[p]|
      ensures chunks == old(chunks)[p := old(chunks)[p][j := old(chunks)[p][j].(status := FAILED)]]
      ensures pub == old(pub)[p := Sending(old(pub)[p].rows, j + 1, old(pub)[p].txSet)]
    {
      hide Apply, Enabled;
      ghost var s := S();
      CanFail(c, s, p) by { Lawful(); }
      AfterFailSend(c, s, p);
      chunks := chunks[p := chunks[p][j := chunks[p][j].(status := FAILED)]];
      pub := pub[p := Sending(pub[p].rows, j + 1, pub[p].txSet)];
      Took(s, FailSend(p));
    }

    ghost method Leave(p: Period)
      requires Valid() && p in pub && pub[p].Sending? && pub[p].next == |pub[p].rows|
      modifies this`pub, this`trace
      ensures Valid() && trace == old(trace) + [EndPublish(p)] && pub == old(pub) - {p}
    {
      hide Apply, Enabled;
      ghost var s := S();
      AfterEndPublish(c, s, p);
      pub := pub - {p};
      Took(s, EndPublish(p));
    }

    // ---- publishBatchFor ----

    static method SumViews(u: seq<Update>) returns (total: nat)
      ensures total == TotalOf(u)
    {
      total := 0;
      for i := 0 to |u|
        invariant total == TotalOf(u[..i])
      {
        assert u[..i + 1][..i] == u[..i];
        total := total + u[i].views;
      }
      assert u[..|u|] == u;
    }

    /** One turn of the sending loop. The gateway accepts chunk j when `answers` holds a hash for it. */
    method SendOne(p: Period, found: seq<ChunkRow>, j: nat, answers: map<nat, TxId>, periodTxSet: bool) returns (txSet: bool)
      requires Valid() && p in pub && pub[p] == Sending(found, j, periodTxSet) && j < |found|
      requires j in answers ==> answers[j] !in txs
      requires p in chunks && j < |chunks[p]| && chunks[p][j] == found[j]
      modifies this`batches, this`chunks, this`txs, this`pub, this`trace
      ensures Valid() && pub == old(pub)[p := Sending(found, j + 1, txSet)]
      ensures old(trace) <= trace
      ensures txSet == (periodTxSet || SendsNow(found[j], j, answers))
      ensures p in chunks && |chunks[p]| == |old(chunks)[p]| && chunks == old(chunks)[p := old(chunks)[p][j := chunks[p][j]]]
      ensures RowAfterPublish(found[j], chunks[p][j], j, answers)
      ensures forall t :: t in txs ==> t in old(txs) || (j in answers && t == answers[j])
      ensures forall t :: t in old(txs) ==> t in txs && txs[t] == old(txs)[t]
      ensures found[j].txHash.None? && j in answers ==>
                answers[j] in txs && txs[answers[j]] == Tx(N.PublishBatch(p, found[j].payload), Some(j), None)
      ensures found[j].txHash.Some? || j !in answers ==> txs == old(txs)
      ensures batches == WithHash(old(batches), p, periodTxSet, if SendsNow(found[j], j, answers) then Some(answers[j]) else None)
    {
      hide Valid;
      txSet := periodTxSet;
      if found[j].txHash.Some? {
        Skip(p);
        assert chunks[p] == chunks[p][j := chunks[p][j]];
        assert chunks == chunks[p := chunks[p]];
      } else if j in answers {
        GatewayPublish(p, found[j].payload, j, answers[j]);
        MarkSubmitted(p, j, answers[j], periodTxSet);
        txSet := true;
      } else {
        MarkChunkFailed(p, j);
      }
    }

    /** The hashes the gateway hands out are new and all different. */
    ghost predicate FreshAnswers(answers: map<nat, TxId>)
      reads this
    {
      && (forall j :: j in answers ==> answers[j] !in txs)
      && forall i, j :: i in answers && j in answers && i != j ==> answers[i] != answers[j]
    }

    /** The sending loop over the chunks as they were read. */
    method SendChunks(p: Period, found: seq<ChunkRow>, answers: map<nat, TxId>, txSet: bool)
      requires Valid() && FreshAnswers(answers)
      requires p in pub && pub[p] == Sending(found, 0, txSet) && p in chunks && chunks[p] == found
      modifies this`batches, this`chunks, this`txs, this`pub, this`trace
      ensures Valid() && p in pub && pub[p].Sending? && pub[p].next == |pub[p].rows| && pub == old(pub)[p := pub[p]]
      ensures old(trace) <= trace
      ensures p in chunks && |chunks[p]| == |found| && chunks == old(chunks)[p := chunks[p]]
      ensures forall j :: 0 <= j < |found| ==> RowAfterPublish(found[j], chunks[p][j], j, answers)
      ensures SentNow(p, found, answers, old(txs), txs)
      ensures batches == WithHash(old(batches), p, txSet, FirstHash(found, answers))
    {
      hide Valid, SentNow;
      var periodTxSet := txSet;
      var i := 0;
      SentNothing(p, found, answers, txs);
      while i < |found|
        invariant 0 <= i <= |found|
        invariant Valid() && old(trace) <= trace
        invariant p in pub && pub == old(pub)[p := Sending(found, i, periodTxSet)]
        invariant p in chunks && |chunks[p]| == |found| && chunks == old(chunks)[p := chunks[p]]
        invariant forall j :: 0 <= j < i ==> RowAfterPublish(found[j], chunks[p][j], j, answers)
        invariant forall j :: i <= j < |found| ==> chunks[p][j] == found[j]
        invariant forall j :: j in answers && j >= i ==> answers[j] !in txs
        invariant SentNow(p, found[..i], answers, old(txs), txs)
        invariant periodTxSet == (txSet || FirstHash(found[..i], answers).Some?)
        invariant batches == WithHash(old(batches), p, txSet, FirstHash(found[..i], answers))
      {
        assert found[..i + 1][..i] == found[..i];
        ghost var before := txs;
        periodTxSet := SendOne(p, found, i, answers, periodTxSet);
        SentOneMore(p, found, i, answers, old(txs), before, txs);
        i := i + 1;
      }
      assert found[..i] == found;
    }

    /** The rows the sending loop starts from: the stored ones, or new ones for the slices. */
    static predicate RowsBefore(rows: seq<ChunkRow>, table: map<Period, seq<ChunkRow>>, p: Period, slices: seq<seq<Update>>) {
      && SamePayloads(rows, slices)
      && if p in table then rows == table[p] else forall j :: 0 <= j < |rows| ==> rows[j] == NewChunk(slices[j])
    }

    static method Plan(sorted: seq<Update>, maxChunk: nat) returns (slices: seq<seq<Update>>, viewsTotal: nat)
      requires maxChunk > 0
      ensures slices == Slices(sorted, maxChunk) && viewsTotal == TotalOf(sorted)
    {
      slices := ChunkBy(sorted, maxChunk);
      viewsTotal := SumViews(sorted);
    }

    /** The part before the sends: read, sort, slice, create what is missing, load the chunks. */
    method PrepareChunks(p: Period, rows: seq<Update>)
      returns (batch: BatchRow, found: seq<ChunkRow>, slices: seq<seq<Update>>, periodTxSet: bool)
      requires Valid() && p !in pub && IsAggregate(rows, views, p) && rows != []
      requires p in batches ==> batches[p].status != CONFIRMED
      modifies this`batches, this`chunks, this`pub, this`trace
      ensures Valid() && old(trace) <= trace
      ensures pub == old(pub)[p := Sending(found, 0, periodTxSet)]
      ensures p in batches && batch == batches[p] && batch.payload == SortByAsset(rows)
      ensures batch.viewsTotal == |ViewsIn(views, p)| && batch.assetCount == |AssetsIn(views, p)|
      ensures p in old(batches) ==> batches == old(batches)
      ensures p !in old(batches) ==> batches == old(batches)[p := batch] && batch == NewBatchRow(SortByAsset(rows))
      ensures periodTxSet == (p in old(batches) && old(batches)[p].txHash.Some?)
      ensures p in chunks && chunks[p] == found && chunks == old(chunks)[p := found]
      ensures slices == Slices(SortByAsset(rows), c.maxChunk) && RowsBefore(found, old(chunks), p, slices)
    {
      hide Valid, IsAggregate, Slices, SortByAsset, TotalOf;
      var sorted, existing := ReadPeriod(p, rows);
      var viewsTotal: nat;
      slices, viewsTotal := Plan(sorted, c.maxChunk);
      batch := CreatePending(p, sorted, viewsTotal, existing);
      EnsureChunkRows(p, slices);
      found := FindChunks(p);
      periodTxSet := existing.Some? && existing.value.txHash.Some?;
    }

    /** One call of `publishBatchFor`. `rows` is the answer of the aggregate query in the database's order;
        `answers` tells for which chunks the gateway accepts, and under which hash. A confirmed period is
        left alone, as is a period without views; otherwise every chunk without a hash is sent once, with
        the payload it has always had, and nothing else is. */
    method PublishBatchFor(p: Period, rows: seq<Update>, answers: map<nat, TxId>) returns (batch: Option<BatchRow>)
      requires Valid() && p !in pub && IsAggregate(rows, views, p) && FreshAnswers(answers)
      modifies this`batches, this`chunks, this`txs, this`pub, this`trace
      ensures Valid() && old(trace) <= trace && pub == old(pub)
      ensures batch.None? <==> rows == [] && !(p in old(batches) && old(batches)[p].status == CONFIRMED)
      ensures (batch.None? || (p in old(batches) && old(batches)[p].status == CONFIRMED)) ==> S() == old(S())
      ensures batch.Some? ==> p in batches && batch.value.payload == batches[p].payload
      ensures batch.Some? ==> batch.value == WithRow(old(batches), p, SortByAsset(rows))[p]
      ensures batch.Some? ==> batch.value.viewsTotal == |ViewsIn(views, p)| && batch.value.assetCount == |AssetsIn(views, p)|
      ensures batch.Some? && !(p in old(batches) && old(batches)[p].status == CONFIRMED) ==>
                && batches[p].payload == SortByAsset(rows)
                && exists found: seq<ChunkRow> ::
                     && RowsBefore(found, old(chunks), p, Slices(SortByAsset(rows), c.maxChunk))
                     && p in chunks && |chunks[p]| == |found| && chunks == old(chunks)[p := chunks[p]]
                     && (forall j :: 0 <= j < |found| ==> RowAfterPublish(found[j], chunks[p][j], j, answers))
                     && SentNow(p, found, answers, old(txs), txs)
                     && batches == WithHash(WithRow(old(batches), p, SortByAsset(rows)), p,
                                            p in old(batches) && old(batches)[p].txHash.Some?, FirstHash(found, answers))
    {
      hide Valid, IsAggregate, SentNow, RowsBefore, WithHash, FirstHash, NewBatchRow;
      var existing := if p in batches then Some(batches[p]) else None;
      if existing.Some? && existing.value.status == CONFIRMED {
        RowCounts(p);
        return existing;
      }
      if rows == [] {
        return None;
      }
      var b, found, slices, periodTxSet := PrepareChunks(p, rows);
      WithHashKeeps(batches, p, periodTxSet, FirstHash(found, answers));
      SendChunks(p, found, answers, periodTxSet);
      Leave(p);
      assert pub == old(pub);
      assert RowsBefore(found, old(chunks), p, Slices(SortByAsset(rows), c.maxChunk));
      batch := Some(b);
    }

    // ---- The database and gateway calls of reconcileBatches ----

    /** `gateway.confirmations`: receipt, then depth below the head. */
    method GatewayConfirmations(t: TxId) returns (confirmations: nat, blockNumber: Option<nat>)
      ensures t in txs && txs[t].block.Some? ==>
                blockNumber == txs[t].block && confirmations == |BlocksSince(txs[t].block.value, head)|
      ensures t !in txs || txs[t].block.None? ==> blockNumber.None? && confirmations == 0
      ensures confirmations >= c.depth && blockNumber.Some? <==> Deep(c, txs, head, t)
      ensures confirmations >= c.depth && blockNumber.Some?
         <==> t in txs && txs[t].block.Some? && head + 1 >= txs[t].block.value + c.depth
    {
      DeepIff(c, txs, head, t);
      if t !in txs || txs[t].block.None? {
        return 0, None;
      }
      var latest: int, block: int := head, txs[t].block.value;
      confirmations := if latest - block + 1 > 0 then latest - block + 1 else 0;
      blockNumber := Some(block);
      ConfirmationsAreBlocks(head, txs[t].block.value);
    }

    /** `findPendingChunksWithTx`. */
    method FindPendingChunksWithTx() returns (found: map<(Period, nat), TxId>)
      requires Valid() && tick.Idle?
      modifies this`tick, this`trace
      ensures Valid() && trace == old(trace) + [StartTick]
      ensures found == PendingWithTx(chunks) && tick == ConfirmingChunks(found)
    {
      hide Apply, Enabled;
      ghost var s := S();
      AfterStartTick(c, s);
      found := PendingWithTx(chunks);
      tick := ConfirmingChunks(found);
      Took(s, StartTick);
    }

    /** One chunk of `confirmPendingChunks`; `threw` when the gateway did. */
    method ConfirmOne(p: Period, j: nat, t: TxId, threw: bool)
      requires Valid() && tick.ConfirmingChunks? && (p, j) in tick.todo && tick.todo[(p, j)] == t
      modifies this`chunks, this`tick, this`trace
      ensures Valid() && trace == old(trace) + [CheckChunk(p, j, threw)]
      ensures p in old(chunks) && j < |old(chunks)[p]|
      ensures chunks == if !threw && Deep(c, txs, head, t)
                        then old(chunks)[p := old(chunks)[p][j := old(chunks)[p][j].(status := CONFIRMED, blockNumber := txs[t].block)]]
                        else old(chunks)
      ensures tick == ConfirmingChunks(old(tick).todo - {(p, j)})
    {
      hide Apply, Enabled;
      ghost var s := S();
      TodoHasRow(c, s, p, j) by { Lawful(); }
      AfterCheckChunk(c, s, p, j, threw);
      if !threw {
        var confirmations, blockNumber := GatewayConfirmations(t);
        if confirmations >= c.depth && blockNumber.Some? {
          chunks := chunks[p := chunks[p][j := chunks[p][j].(status := CONFIRMED, blockNumber := blockNumber)]];
        }
      }
      tick := ConfirmingChunks(tick.todo - {(p, j)});
      Took(s, CheckChunk(p, j, threw));
    }

    /** `findPendingBatches`. */
    method FindPendingBatches() returns (pending: map<Period, BatchRow>)
      requires Valid() && tick == ConfirmingChunks(map[])
      modifies this`tick, this`trace
      ensures Valid() && trace == old(trace) + [StartFinalise]
      ensures pending == map p | p in batches && batches[p].status == PENDING :: batches[p]
      ensures tick == Finalising(map p | p in pending :: Loading(pending[p]))
    {
      hide Apply, Enabled;
      ghost var s := S();
      AfterStartFinalise(c, s);
      pending := map p | p in batches && batches[p].status == PENDING :: batches[p];
      tick := Finalising(PendingTasks(batches));
      Took(s, StartFinalise);
    }

    /** `findChunks`, at the start of the finalisation of one period. */
    method LoadPeriodChunks(p: Period, b: BatchRow) returns (rows: seq<ChunkRow>)
      requires Valid() && InTask(S(), p) && tick.tasks[p] == Loading(b)
      modifies this`tick, this`trace
      ensures Valid() && trace == old(trace) + [LoadPeriod(p)]
      ensures rows == RowsOf(chunks, p)
      ensures tick == Finalising(old(tick).tasks[p := AfterLoad(b, rows)])
    {
      hide Apply, Enabled;
      ghost var s := S();
      AfterLoadPeriod(c, s, p);
      rows := if p in chunks then chunks[p] else [];
      tick := Finalising(tick.tasks[p := AfterLoad(b, rows)]);
      Took(s, LoadPeriod(p));
    }

    /** `incrementMirrorViews`: one atomic add. */
    method IncrementMirrorViews(p: Period, u: Update)
      requires Valid() && InTask(S(), p) && tick.tasks[p].Mirroring?
      requires tick.tasks[p].next < |tick.tasks[p].payload| && tick.tasks[p].payload[tick.tasks[p].next] == u
      modifies this`assets, this`tick, this`trace
      ensures Valid() && trace == old(trace) + [MirrorOne(p)]
      ensures u.asset in old(assets)
      ensures assets == old(assets)[u.asset :=
                          old(assets)[u.asset].(totalViewsMirror := old(assets)[u.asset].totalViewsMirror + u.views)]
      ensures var t := old(tick).tasks[p];
              tick == Finalising(old(tick).tasks[p := Mirroring(t.payload, t.block, t.next + 1)])
    {
      hide Apply, Enabled;
      ghost var s := S();
      MirrorRowExists(c, s, p) by { Lawful(); }
      AfterMirrorOne(c, s, p);
      var k := u.asset;
      assets := assets[k := assets[k].(totalViewsMirror := assets[k].totalViewsMirror + u.views)];
      tick := Finalising(tick.tasks[p := Mirroring(tick.tasks[p].payload, tick.tasks[p].block, tick.tasks[p].next + 1)]);
      Took(s, MirrorOne(p));
    }

    /** `markMirrorApplied`. */
    method MarkMirrorApplied(p: Period)
      requires Valid() && InTask(S(), p) && tick.tasks[p].Mirroring? && tick.tasks[p].next == |tick.tasks[p].payload|
      modifies this`batches, this`tick, this`trace
      ensures Valid() && trace == old(trace) + [MarkMirror(p)]
      ensures p in old(batches) && batches == old(batches)[p := old(batches)[p].(mirrorApplied := true)]
      ensures var t := old(tick).tasks[p];
              tick == Finalising(old(tick).tasks[p := ReadingChain(t.payload, t.block, 0)])
    {
      hide Apply, Enabled;
      ghost var s := S();
      TaskHasBatch(c, s, p) by { Lawful(); }
      AfterMarkMirror(c, s, p);
      batches := batches[p := batches[p].(mirrorApplied := true)];
      tick := Finalising(tick.tasks[p := ReadingChain(tick.tasks[p].payload, tick.tasks[p].block, 0)]);
      Took(s, MarkMirror(p));
    }

    /** `getAssetTotalViews`: nothing when the asset is not registered on chain. */
    method GetAssetTotalViews(p: Period, id: Id) returns (onchain: Option<nat>)
      requires Valid() && InTask(S(), p) && tick.tasks[p].ReadingChain?
      requires tick.tasks[p].next < |tick.tasks[p].payload| && tick.tasks[p].payload[tick.tasks[p].next].asset == id
      modifies this`tick, this`trace
      ensures Valid() && trace == old(trace) + [ReadChain(p)]
      ensures onchain == if N.Known(chain, id) then Some(N.Total(chain, id)) else None
      ensures var t := old(tick).tasks[p];
              tick == Finalising(old(tick).tasks[p :=
                        if onchain.Some? then ReadingMirror(t.payload, t.block, t.next, onchain.value)
                        else ReadingChain(t.payload, t.block, t.next + 1)])
    {
      hide Apply, Enabled;
      ghost var s := S();
      AfterReadingChain(c, s, p);
      var a := N.AssetAt(chain, id);
      onchain := if a.notarizedAt == 0 then None else Some(a.totalViews);
      tick := Finalising(tick.tasks[p := AfterReadChain(chain, tick.tasks[p])]);
      Took(s, ReadChain(p));
    }

    /** `findById`, for the mirror column. */
    method FindMirror(p: Period, id: Id) returns (local: Option<AssetRow>)
      requires Valid() && InTask(S(), p) && tick.tasks[p].ReadingMirror?
      requires tick.tasks[p].next < |tick.tasks[p].payload| && tick.tasks[p].payload[tick.tasks[p].next].asset == id
      modifies this`tick, this`trace
      ensures Valid() && trace == old(trace) + [ReadMirror(p)]
      ensures local == if id in assets then Some(assets[id]) else None
      ensures var t := old(tick).tasks[p];
              tick == Finalising(old(tick).tasks[p :=
                        if local.Some? && local.value.totalViewsMirror != t.onchain then Finished(false)
                        else ReadingChain(t.payload, t.block, t.next + 1)])
    {
      hide Apply, Enabled;
      ghost var s := S();
      AfterReadingMirror(c, s, p);
      local := if id in assets then Some(assets[id]) else None;
      tick := Finalising(tick.tasks[p := AfterReadMirror(assets, tick.tasks[p])]);
      Took(s, ReadMirror(p));
    }

    /** `markConfirmed`. */
    method MarkConfirmed(p: Period, blockNumber: nat)
      requires Valid() && InTask(S(), p) && tick.tasks[p].ReadingChain?
      requires tick.tasks[p].next == |tick.tasks[p].payload| && tick.tasks[p].block == blockNumber
      modifies this`batches, this`tick, this`trace
      ensures Valid() && trace == old(trace) + [Event.ConfirmBatch(p)]
      ensures p in old(batches)
      ensures batches == old(batches)[p := old(batches)[p].(status := CONFIRMED, blockNumber := Some(blockNumber))]
      ensures tick == Finalising(old(tick).tasks[p := Anchoring])
    {
      hide Apply, Enabled;
      ghost var s := S();
      TaskHasBatch(c, s, p) by { Lawful(); }
      AfterConfirmBatch(c, s, p);
      batches := batches[p := batches[p].(status := CONFIRMED, blockNumber := Some(blockNumber))];
      tick := Finalising(tick.tasks[p := Anchoring]);
      Took(s, Event.ConfirmBatch(p));
    }

    /** `markPeriodAnchored`. */
    method MarkPeriodAnchored(p: Period)
      requires Valid() && InTask(S(), p) && tick.tasks[p].Anchoring?
      modifies this`views, this`tick, this`trace
      ensures Valid() && trace == old(trace) + [Event.AnchorViews(p)]
      ensures |views| == |old(views)|
      ensures forall i :: 0 <= i < |views| ==>
                views[i] == if old(views)[i].period == p then old(views)[i].(anchored := true) else old(views)[i]
      ensures tick == Finalising(old(tick).tasks[p := Finished(true)])
    {
      hide Apply, Enabled;
      ghost var s := S();
      AfterAnchor(c, s, p);
      AnchorFacts(views, p);
      views := AnchorPeriod(views, p);
      tick := Finalising(tick.tasks[p := Finished(true)]);
      Took(s, Event.AnchorViews(p));
    }

    /** A read threw: the period is counted as failed and left for the next tick. */
    ghost method GiveUp(p: Period)
      requires Valid() && InTask(S(), p) && (tick.tasks[p].Loading? || tick.tasks[p].ReadingChain?)
      modifies this`tick, this`trace
      ensures Valid() && trace == old(trace) + [FailPeriod(p)]
      ensures tick == Finalising(old(tick).tasks[p := Finished(false)])
    {
      hide Apply, Enabled;
      ghost var s := S();
      AfterFailPeriod(c, s, p);
      tick := Finalising(tick.tasks[p := Finished(false)]);
      Took(s, FailPeriod(p));
    }

    ghost method FinishTick()
      requires Valid() && tick.Finalising? && forall p :: p in tick.tasks ==> tick.tasks[p].Finished?
      modifies this`tick, this`trace
      ensures Valid() && trace == old(trace) + [EndTick] && tick == Idle
    {
      hide Apply, Enabled;
      ghost var s := S();
      AfterEndTick(c, s);
      tick := Idle;
      Took(s, EndTick);
    }

    // ---- reconcileAssets ----

    /** One asset of `reconcileAssets`. */
    method ConfirmOneAsset(id: Id) returns (confirmed: bool)
      requires Valid() && id in assets && assets[id].status == PENDING && assets[id].txHash.Some?
      modifies this`assets, this`trace
      ensures Valid() && confirmed == Deep(c, txs, head, old(assets)[id].txHash.value)
      ensures assets == if confirmed
                        then old(assets)[id := old(assets)[id].(status := CONFIRMED, blockNumber := txs[old(assets)[id].txHash.value].block)]
                        else old(assets)
    {
      hide Apply, Enabled, Deep;
      var confirmations, blockNumber := GatewayConfirmations(assets[id].txHash.value);
      DeepIsMined(c, txs, head, assets[id].txHash.value);
      confirmed := confirmations >= c.depth && blockNumber.Some?;
      if confirmed {
        ghost var s := S();
        AfterConfirmAsset(c, s, id);
        assets := assets[id := assets[id].(status := CONFIRMED, blockNumber := blockNumber)];
        Took(s, ConfirmAsset(id));
      }
    }

    /** `reconcileAssets`: of the assets that have a hash and are pending, exactly those whose transaction is
        deep become CONFIRMED with its block, except where the gateway throws. */
    method ReconcileAssets(throwing: set<Id>) returns (counter: Counters)
      requires Valid()
      modifies this`assets, this`trace
      ensures Valid() && assets.Keys == old(assets).Keys
      ensures AssetsChecked(c, txs, head, old(assets), assets, {}, throwing)
      ensures AssetCountersTell(counter, old(assets), assets, throwing)
    {
      hide Valid, Deep, AssetsMidway, AssetsChecked, PendingAssets;
      ghost var pending := PendingAssets(assets);
      AssetsMidwayStarts(assets, throwing);
      AssetsCheckedStarts(c, txs, head, assets, throwing);
      var todo := FindPendingAssets();
      counter := Counters(|todo|, 0, 0, 0);
      while todo != {}
        invariant Valid() && assets.Keys == old(assets).Keys && todo <= pending
        invariant AssetsChecked(c, txs, head, old(assets), assets, todo, throwing)
        invariant AssetsMidway(pending, todo, assets, throwing, counter)
        decreases |todo|
      {
        var id := Pick(todo);
        ghost var before := assets;
        AssetsCheckedRow(c, txs, head, old(assets), assets, todo, throwing, id);
        var ending := Failed;
        if id !in throwing {
          var confirmed := ConfirmOneAsset(id);
          ending := if confirmed then Confirmed else StillPending;
        }
        AssetsCheckedStep(c, txs, head, old(assets), before, assets, todo, throwing, id);
        assert assets == before[id := assets[id]];
        AssetsMidwayStep(pending, todo, before, assets, throwing, counter, id, ending);
        counter := Counted(counter, ending);
        todo := todo - {id};
      }
      AssetsMidwayEnds(pending, assets, throwing, counter);
    }

    /** `findPendingWithTx`. */
    method FindPendingAssets() returns (found: set<Id>)
      ensures found == PendingAssets(assets)
    {
      found := set id | id in assets && assets[id].status == PENDING && assets[id].txHash.Some?;
    }

    // ---- reconcileBatches ----

    /** `confirmPendingChunks`: of the chunks that have a hash and are not confirmed, exactly those at depth
        become CONFIRMED with their block, except where the gateway throws. */
    method ConfirmPendingChunks(throwing: set<(Period, nat)>)
      requires Valid() && tick.Idle?
      modifies this`chunks, this`tick, this`trace
      ensures Valid() && tick == ConfirmingChunks(map[])
      ensures Grew(old(trace), trace, 0, throwing == {})
      ensures CheckedRows(c, txs, head, old(chunks), chunks, map[], throwing)
    {
      hide Valid, Grew, Deep, CheckedRows, PendingWithTx;
      var found := FindPendingChunksWithTx();
      GrewOne(old(trace), trace, StartTick, throwing == {});
      var todo := found;
      NothingChecked(c, txs, head, chunks, throwing);
      while todo != map[]
        invariant Valid() && tick == ConfirmingChunks(todo)
        invariant forall k :: k in todo ==> k in found && todo[k] == found[k]
        invariant Grew(old(trace), trace, 0, throwing == {})
        invariant CheckedRows(c, txs, head, old(chunks), chunks, todo, throwing)
        decreases |todo|
      {
        var key :| key in todo;
        ghost var before, table := trace, chunks;
        ConfirmOne(key.0, key.1, todo[key], key in throwing);
        OneMoreChecked(c, txs, head, old(chunks), table, chunks, todo, throwing, key.0, key.1);
        GrewMore(old(trace), before, trace, CheckChunk(key.0, key.1, key in throwing), 0, throwing == {});
        todo := todo - {key};
      }
    }

    /** The mirror loop and its flag: every count of the payload is added exactly once. */
    method ApplyMirror(p: Period, payload: seq<Update>)
      requires Valid() && InTask(S(), p) && tick.tasks[p].Mirroring? && tick.tasks[p].next == 0 && tick.tasks[p].payload == payload
      modifies this`assets, this`batches, this`tick, this`trace
      ensures Valid() && Grew(old(trace), trace, 0, true)
      ensures assets.Keys == old(assets).Keys
      ensures forall a :: Mirror(assets, a) == Mirror(old(assets), a) + CountOf(payload, a)
      ensures p in old(batches) && batches == old(batches)[p := old(batches)[p].(mirrorApplied := true)]
      ensures tick == Finalising(old(tick).tasks[p := ReadingChain(payload, old(tick).tasks[p].block, 0)])
    {
      hide Valid, Grew;
      GrewNothing(trace, true);
      ghost var tasks, block := tick.tasks, tick.tasks[p].block;
      var i := 0;
      while i < |payload|
        invariant 0 <= i <= |payload|
        invariant Valid() && Grew(old(trace), trace, 0, true)
        invariant tick.Finalising? && p in tick.tasks && tick.tasks == tasks[p := Mirroring(payload, block, i)]
        invariant batches == old(batches) && assets.Keys == old(assets).Keys
        invariant forall a :: Mirror(assets, a) == Mirror(old(assets), a) + CountOf(payload[..i], a)
      {
        ghost var before := trace;
        IncrementMirrorViews(p, payload[i]);
        GrewMore(old(trace), before, trace, MirrorOne(p), 0, true);
        assert payload[..i + 1][..i] == payload[..i];
        i := i + 1;
      }
      assert payload[..i] == payload;
      ghost var before := trace;
      MarkMirrorApplied(p);
      GrewMore(old(trace), before, trace, MarkMirror(p), 0, true);
    }

    /** One turn of the check: chain first, then the mirror; an asset missing on either side is skipped. */
    method CheckOne(p: Period, payload: seq<Update>, i: nat) returns (mismatch: Option<Mismatch>)
      requires Valid() && InTask(S(), p) && tick.tasks[p].ReadingChain? && tick.tasks[p].next == i < |payload| && tick.tasks[p].payload == payload
      modifies this`tick, this`trace
      ensures Valid() && Grew(old(trace), trace, 0, true)
      ensures var a := payload[i].asset;
              mismatch == if Differs(S(), a) then Some(Mismatch(a, OnChain(S(), a), InMirror(S(), a))) else None
      ensures tick == Finalising(old(tick).tasks[p :=
                        if mismatch.Some? then Finished(false) else ReadingChain(payload, old(tick).tasks[p].block, i + 1)])
    {
      hide Valid, Grew;
      var a := payload[i].asset;
      var onchain := GetAssetTotalViews(p, a);
      GrewOne(old(trace), trace, ReadChain(p), true);
      if onchain.None? {
        return None;
      }
      ghost var before := trace;
      var local := FindMirror(p, a);
      GrewMore(old(trace), before, trace, ReadMirror(p), 0, true);
      if local.Some? && onchain.value != local.value.totalViewsMirror {
        return Some(Mismatch(a, onchain.value, local.value.totalViewsMirror));
      }
      return None;
    }

    /** `detectAssetCounterMismatch`: the first asset of the payload whose two counters differ. */
    method DetectAssetCounterMismatch(p: Period, payload: seq<Update>, unreadable: set<Id>) returns (threw: bool, mismatch: Option<Mismatch>)
      requires Valid() && InTask(S(), p) && tick.tasks[p].ReadingChain? && tick.tasks[p].next == 0 && tick.tasks[p].payload == payload
      modifies this`tick, this`trace
      ensures Valid() && Grew(old(trace), trace, 0, unreadable == {})
      ensures !threw ==> mismatch == DetectFrom(S(), payload, 0)
      ensures threw <==> CheckThrows(S(), payload, unreadable)
      ensures tick == Finalising(old(tick).tasks[p :=
                        if threw || mismatch.Some? then Finished(false) else ReadingChain(payload, old(tick).tasks[p].block, |payload|)])
    {
      hide Valid, Grew;
      GrewNothing(trace, unreadable == {});
      ghost var tasks, block := tick.tasks, tick.tasks[p].block;
      var i := 0;
      while i < |payload|
        invariant 0 <= i <= |payload|
        invariant Valid() && Grew(old(trace), trace, 0, unreadable == {})
        invariant tick.Finalising? && p in tick.tasks && tick.tasks == tasks[p := ReadingChain(payload, block, i)]
        invariant DetectFrom(S(), payload, 0) == DetectFrom(S(), payload, i)
        invariant PassedTo(S(), payload, unreadable, i)
      {
        var a := payload[i].asset;
        ghost var before := trace;
        if a in unreadable {
          GiveUp(p);
          GrewMore(old(trace), before, trace, FailPeriod(p), 0, unreadable == {});
          assert PassedTo(S(), payload, unreadable, i);
          return true, None;
        }
        ghost var s := S();
        mismatch := CheckOne(p, payload, i);
        GrewThen(old(trace), before, trace, 0, 0, unreadable == {}, true);
        DetectStep(s, S(), payload, i);
        if mismatch.Some? {
          MismatchFirst(S(), payload, unreadable, i);
          return false, mismatch;
        }
        i := i + 1;
      }
      PassedAll(S(), payload, unreadable);
      return false, None;
    }

    static method HighestBlock(rows: seq<ChunkRow>) returns (highest: nat)
      ensures highest == MaxBlock(rows)
    {
      highest := 0;
      for i := 0 to |rows|
        invariant highest == MaxBlock(rows[..i])
      {
        assert rows[..i + 1][..i] == rows[..i];
        var b := if rows[i].blockNumber.Some? then rows[i].blockNumber.value else 0;
        if highest < b { highest := b; }
      }
      assert rows[..|rows|] == rows;
    }

    /** `markConfirmed` with the highest block of the chunks, then `markPeriodAnchored`. */
    method Finish(p: Period, rows: seq<ChunkRow>)
      requires Valid() && InTask(S(), p) && tick.tasks[p].ReadingChain? && p in batches
      requires tick.tasks[p].next == |tick.tasks[p].payload| && tick.tasks[p].block == MaxBlock(rows)
      modifies this`views, this`batches, this`tick, this`trace
      ensures Valid() && Grew(old(trace), trace, 0, true)
      ensures batches == old(batches)[p := old(batches)[p].(status := CONFIRMED, blockNumber := Some(MaxBlock(rows)))]
      ensures AnchoredOnly(old(views), views, p)
      ensures tick == Finalising(old(tick).tasks[p := Finished(true)])
    {
      hide Valid, Grew, MaxBlock;
      var blockNumber := HighestBlock(rows);
      MarkConfirmed(p, blockNumber);
      GrewOne(old(trace), trace, Event.ConfirmBatch(p), true);
      ghost var before := trace;
      MarkPeriodAnchored(p);
      GrewMore(old(trace), before, trace, Event.AnchorViews(p), 0, true);
    }

    /** The mirror, applied unless the flag says it already was. */
    method MirrorOnce(p: Period, b: BatchRow)
      requires Valid() && InTask(S(), p) && p in batches && b.mirrorApplied == batches[p].mirrorApplied
      requires var t := tick.tasks[p];
               (if b.mirrorApplied then t.ReadingChain? else t.Mirroring?) && t.next == 0 && t.payload == b.payload
      modifies this`assets, this`batches, this`tick, this`trace
      ensures Valid() && Grew(old(trace), trace, 0, true)
      ensures MirrorMoved(old(assets), assets, b.payload, b.mirrorApplied)
      ensures batches == old(batches)[p := old(batches)[p].(mirrorApplied := true)]
      ensures tick == Finalising(old(tick).tasks[p := ReadingChain(b.payload, old(tick).tasks[p].block, 0)])
    {
      hide Valid, Grew;
      if !b.mirrorApplied {
        ApplyMirror(p, b.payload);
      } else {
        GrewNothing(trace, true);
        assert batches == batches[p := batches[p].(mirrorApplied := true)];
        assert tick.tasks == tick.tasks[p := ReadingChain(b.payload, tick.tasks[p].block, 0)];
      }
    }

    /** The check, and what follows when it passes. */
    method CheckAndFinish(p: Period, b: BatchRow, rows: seq<ChunkRow>, unreadable: set<Id>) returns (ending: Ending)
      requires Valid() && InTask(S(), p) && p in batches && tick.tasks[p] == ReadingChain(b.payload, MaxBlock(rows), 0)
      modifies this`views, this`batches, this`tick, this`trace
      ensures Valid() && Grew(old(trace), trace, 0, unreadable == {})
      ensures tick == Finalising(old(tick).tasks[p := Finished(ending.Confirmed?)])
      ensures ending.Confirmed? ==>
                && DetectFrom(S(), b.payload, 0).None? && AnchoredOnly(old(views), views, p)
                && batches == old(batches)[p := old(batches)[p].(status := CONFIRMED, blockNumber := Some(MaxBlock(rows)))]
      ensures !ending.Confirmed? ==> views == old(views) && batches == old(batches)
      ensures ending.StillPending? ==> DetectFrom(S(), b.payload, 0).Some?
      ensures ending.Failed? <==> CheckThrows(S(), b.payload, unreadable)
    {
      hide Valid, Grew, MaxBlock, DetectFrom, AnchoredOnly, CheckThrows;
      var threw, mismatch := DetectAssetCounterMismatch(p, b.payload, unreadable);
      if threw {
        return Failed;
      }
      if mismatch.Some? {
        return StillPending;
      }
      ghost var s, before := S(), trace;
      Finish(p, rows);
      DetectSame(s, S(), b.payload, 0);
      ThrowsSame(s, S(), b.payload, unreadable);
      GrewThen(old(trace), before, trace, 0, 0, unreadable == {}, true);
      return Confirmed;
    }

    /** The finalisation of one pending period: nothing until all its chunks are confirmed; then the mirror,
        if not yet applied; then the check; and only when the check passes, CONFIRMED and anchored views.
        `unreadable` are the assets whose chain read throws. */
    method FinalisePeriod(p: Period, b: BatchRow, unreadable: set<Id>) returns (ending: Ending)
      requires Valid() && InTask(S(), p) && tick.tasks[p] == Loading(b)
      modifies this`views, this`assets, this`batches, this`tick, this`trace
      ensures Valid() && Grew(old(trace), trace, 0, unreadable == {})
      ensures tick == Finalising(old(tick).tasks[p := Finished(ending.Confirmed?)])
      ensures p in old(batches) && p in batches && batches == old(batches)[p := batches[p]]
      ensures Finalised(old(S()), S(), p, unreadable, ending)
    {
      hide Valid, Grew, Inv, AllConfirmed, MaxBlock, DetectFrom, MirrorMoved, AnchoredOnly, RowsOf, CheckThrows;
      LoadingMeans(c, S(), p) by { Lawful(); }
      var rows := LoadPeriodChunks(p, b);
      GrewOne(old(trace), trace, LoadPeriod(p), unreadable == {});
      label Loaded:
      if !AllConfirmed(rows) {
        assert batches == old(batches)[p := batches[p]];
        return StillPending;
      }
      MirrorOnce(p, b);
      GrewThen(old(trace), old@Loaded(trace), trace, 0, 0, unreadable == {}, true);
      ghost var t1 := trace;
      ending := CheckAndFinish(p, b, rows, unreadable);
      GrewThen(old(trace), t1, trace, 0, 0, unreadable == {}, unreadable == {});
    }

    /** The finalisation phase with the periods of todo still to come: tables, tasks, counters and story agree. */
    ghost predicate Telling(
      from: seq<Event>, pending: map<Period, BatchRow>, todo: set<Period>, counter: Counters,
      story: map<Period, Finalisation>, unreadable: set<Id>)
      reads this
    {
      && tick.Finalising? && todo <= pending.Keys
      && Midway(pending, todo, batches, tick.tasks, counter)
      && Story(c, from, trace, pending.Keys - todo, story, unreadable) && Tallies(counter, story)
    }

    /** One of the pending periods, with its place in the counters and in the story of the tick. */
    method FinaliseNext(
      pending: map<Period, BatchRow>, todo: set<Period>, p: Period, unreadable: set<Id>, counter: Counters,
      ghost from: seq<Event>, ghost story: map<Period, Finalisation>)
      returns (next: Counters, ghost story': map<Period, Finalisation>)
      requires Valid() && p in todo && Telling(from, pending, todo, counter, story, unreadable)
      modifies this`views, this`assets, this`batches, this`tick, this`trace
      ensures Valid() && Grew(old(trace), trace, 0, unreadable == {})
      ensures Telling(from, pending, todo - {p}, next, story', unreadable)
    {
      hide Valid, Grew, Finalised, Midway, Story, Tallies;
      ghost var s := S();
      WasValid(s);
      MidwayTask(pending, todo, batches, tick.tasks, counter, p);
      var ending := FinalisePeriod(p, pending[p], unreadable);
      WasValid(S());
      GrewPrefix(old(trace), trace, 0, unreadable == {});
      EndingStatus(s, S(), p, unreadable, ending);
      MidwayStep(pending, todo, s.batches, batches, s.tick.tasks, tick.tasks, counter, p, ending);
      ghost var f := Finalisation(s, S(), ending);
      StoryGoesOn(c, from, old(trace), trace, pending.Keys - todo, story, unreadable, counter, p, f);
      assert pending.Keys - (todo - {p}) == pending.Keys - todo + {p};
      next, story' := Counted(counter, ending), story[p := f];
    }

    /** The pending periods, one after the other. */
    method FinaliseAll(pending: map<Period, BatchRow>, unreadable: set<Id>) returns (counter: Counters, ghost story: map<Period, Finalisation>)
      requires Valid() && tick.Finalising?
      requires Midway(pending, pending.Keys, batches, tick.tasks, Counters(|pending|, 0, 0, 0))
      modifies this`views, this`assets, this`batches, this`tick, this`trace
      ensures Valid() && tick.Finalising? && Grew(old(trace), trace, 0, unreadable == {})
      ensures Midway(pending, {}, batches, tick.tasks, counter)
      ensures Story(c, old(trace), trace, pending.Keys, story, unreadable) && Tallies(counter, story)
    {
      hide Valid, Grew, Telling;
      counter, story := Counters(|pending|, 0, 0, 0), map[];
      TellingStarts(pending, unreadable);
      GrewNothing(trace, unreadable == {});
      var todo := pending.Keys;
      while todo != {}
        invariant Valid() && Grew(old(trace), trace, 0, unreadable == {})
        invariant Telling(old(trace), pending, todo, counter, story, unreadable)
        decreases |todo|
      {
        var p := Pick(todo);
        ghost var before := trace;
        counter, story := FinaliseNext(pending, todo, p, unreadable, counter, old(trace), story);
        GrewThen(old(trace), before, trace, 0, 0, unreadable == {}, unreadable == {});
        todo := todo - {p};
      }
      TellingEnds(old(trace), pending, counter, story, unreadable);
    }

    lemma TellingStarts(pending: map<Period, BatchRow>, unreadable: set<Id>)
      requires tick.Finalising? && Midway(pending, pending.Keys, batches, tick.tasks, Counters(|pending|, 0, 0, 0))
      ensures Telling(trace, pending, pending.Keys, Counters(|pending|, 0, 0, 0), map[], unreadable)
    {
      StoryStarts(c, trace, unreadable, Counters(|pending|, 0, 0, 0));
      assert pending.Keys - pending.Keys == {};
    }

    lemma TellingEnds(
      from: seq<Event>, pending: map<Period, BatchRow>, counter: Counters, story: map<Period, Finalisation>, unreadable: set<Id>)
      requires Telling(from, pending, {}, counter, story, unreadable)
      ensures tick.Finalising? && Midway(pending, {}, batches, tick.tasks, counter)
      ensures Story(c, from, trace, pending.Keys, story, unreadable) && Tallies(counter, story)
    {
      assert pending.Keys - {} == pending.Keys;
    }

    /** Phase (b): the periods pending now, finalised in some order. */
    method FinalisePending(unreadable: set<Id>) returns (counter: Counters, ghost story: map<Period, Finalisation>)
      requires Valid() && tick == ConfirmingChunks(map[])
      modifies this`views, this`assets, this`batches, this`tick, this`trace
      ensures Valid() && tick.Idle? && Grew(old(trace), trace, 1, unreadable == {})
      ensures CountersTell(counter, old(batches), batches)
      ensures Story(c, old(trace), trace, Pending(old(batches)), story, unreadable) && Tallies(counter, story)
      ensures unreadable == {} ==> counter.failed == 0
    {
      hide Valid, Grew, Midway, Pending, CountersTell, Story, Tallies;
      var pending := FindPendingBatches();
      GrewOne(old(trace), trace, StartFinalise, unreadable == {});
      ghost var t1 := trace;
      MidwayStarts(batches, pending, tick.tasks);
      counter, story := FinaliseAll(pending, unreadable);
      GrewThen(old(trace), t1, trace, 0, 0, unreadable == {}, unreadable == {});
      MidwayEnds(pending, old(batches), batches, tick.tasks, counter);
      ghost var t2 := trace;
      FinishTick();
      GrewMore(old(trace), t2, trace, EndTick, 0, unreadable == {});
      StoryWidens(c, old(trace), t1, t2, trace, Pending(old(batches)), story, unreadable);
      if unreadable == {} { NothingFailed(c, old(trace), trace, Pending(old(batches)), story, counter); }
    }

    /** One tick of `reconcileBatches`: confirm chunks, then finalise periods. `throwing` are the chunks
        whose receipt read throws, `unreadable` the assets whose chain read does. */
    method ReconcileBatches(throwing: set<(Period, nat)>, unreadable: set<Id>) returns (counter: Counters, ghost story: map<Period, Finalisation>)
      requires Valid() && tick.Idle?
      modifies this`views, this`assets, this`batches, this`chunks, this`tick, this`trace
      ensures Valid() && tick.Idle? && Grew(old(trace), trace, 1, throwing == {} && unreadable == {})
      ensures CheckedRows(c, txs, head, old(chunks), chunks, map[], throwing)
      ensures CountersTell(counter, old(batches), batches)
      ensures Story(c, old(trace), trace, Pending(old(batches)), story, unreadable) && Tallies(counter, story)
      ensures unreadable == {} ==> counter.failed == 0
    {
      hide Valid, Grew, CheckedRows, CountersTell, Story, Tallies, Pending;
      ConfirmPendingChunks(throwing);
      ghost var t1 := trace;
      GrewPrefix(old(trace), t1, 0, throwing == {});
      counter, story := FinalisePending(unreadable);
      GrewThen(old(trace), t1, trace, 0, 1, throwing == {}, unreadable == {});
      StoryWidens(c, old(trace), t1, trace, trace, Pending(old(batches)), story, unreadable);
    }

    /** Two ticks in a row, when nothing is being published, every chunk of every pending batch is sent and
        deep, and no call throws: every batch ends CONFIRMED and chain, mirror and published views agree. */
    method ReconcileTwice() returns (first: Counters, second: Counters)
      requires Valid() && tick.Idle? && Ready(c, S())
      modifies this`views, this`assets, this`batches, this`chunks, this`tick, this`trace
      ensures Valid() && tick.Idle?
      ensures forall p :: p in batches ==> batches[p].status == CONFIRMED
      ensures forall a :: OnChain(S(), a) == InMirror(S(), a) == |PublishedViews(views, batches, a)|
    {
      hide Valid, Grew, CheckedRows, CountersTell, Ready, Story, Tallies;
      ghost var s := S();
      WasValid(s);
      ghost var story;
      first, story := ReconcileBatches({}, {});
      ghost var t1 := trace;
      second, story := ReconcileBatches({}, {});
      GrewThen(old(trace), t1, trace, 1, 1, true, true);
      Ended(old(trace), s);
    }

    lemma Ended(before: seq<Event>, s: State)
      requires Valid() && Run(c, Init(c), before, s) && Grew(before, trace, 2, true) && Ready(c, s) && s.tick.Idle?
      ensures forall p :: p in batches ==> batches[p].status == CONFIRMED
      ensures forall a :: OnChain(S(), a) == InMirror(S(), a) == |PublishedViews(views, batches, a)|
    {
      hide Grew, Ready;
      Converged(c, before, s, trace, S());
    }

    lemma WasValid(s: State)
      requires Valid() && s == S()
      ensures Run(c, Init(c), trace, s)
    {
    }

    /** Every state of the code is reachable, hence satisfies the invariant. */
    lemma Lawful()
      requires Valid()
      ensures Reachable(c, S()) && Inv(c, S())
    {
      hide Inv;
      ReachableInv(c, S());
    }
  }

  /** The transactions a publish call adds: one for every chunk without a hash that the gateway accepts,
      carrying that chunk, and no other. */
  ghost predicate SentNow(p: Period, found: seq<ChunkRow>, answers: map<nat, TxId>, before: map<TxId, Tx>, after: map<TxId, Tx>) {
    && (forall t :: t in before ==> t in after && after[t] == before[t])
    && (forall j: nat :: j < |found| && found[j].txHash.None? && j in answers ==>
          answers[j] in after && after[answers[j]] == Tx(N.PublishBatch(p, found[j].payload), Some(j), None))
    && (forall t :: t in after && t !in before ==>
          exists j: nat :: j < |found| && found[j].txHash.None? && j in answers && answers[j] == t)
  }

  lemma SentNothing(p: Period, found: seq<ChunkRow>, answers: map<nat, TxId>, txs: map<TxId, Tx>)
    ensures SentNow(p, found[..0], answers, txs, txs)
  {
  }

  lemma SentOneMore(
    p: Period, found: seq<ChunkRow>, i: nat, answers: map<nat, TxId>, t0: map<TxId, Tx>, t1: map<TxId, Tx>, t2: map<TxId, Tx>)
    requires i < |found| && SentNow(p, found[..i], answers, t0, t1)
    requires forall t :: t in t1 ==> t in t2 && t2[t] == t1[t]
    requires forall t :: t in t2 ==> t in t1 || (i in answers && t == answers[i])
    requires found[i].txHash.None? && i in answers ==>
               answers[i] in t2 && t2[answers[i]] == Tx(N.PublishBatch(p, found[i].payload), Some(i), None)
    requires found[i].txHash.Some? || i !in answers ==> t2 == t1
    ensures SentNow(p, found[..i + 1], answers, t0, t2)
  {
    forall t | t in t2 && t !in t0
      ensures exists j: nat :: j < i + 1 && found[..i + 1][j].txHash.None? && j in answers && answers[j] == t
    {
      if t in t1 {
        var j: nat :| j < i && found[..i][j].txHash.None? && j in answers && answers[j] == t;
        assert found[..i + 1][j].txHash.None?;
      } else {
        assert found[..i + 1][i].txHash.None?;
      }
    }
    forall j: nat | j < i + 1 && found[j].txHash.None? && j in answers
      ensures answers[j] in t2 && t2[answers[j]] == Tx(N.PublishBatch(p, found[j].payload), Some(j), None)
    {
      if j < i { assert found[..i][j] == found[j]; }
    }
  }

  function PendingAt(row: ChunkRow): Option<TxId> {
    if row.status == PENDING then row.txHash else None
  }

  /** The confirmation phase so far: the chunks still to do are as they were, the others as they end. */
  ghost predicate CheckedRows(
    c: Config, txs: map<TxId, Tx>, head: nat, before: map<Period, seq<ChunkRow>>, after: map<Period, seq<ChunkRow>>,
    todo: map<(Period, nat), TxId>, throwing: set<(Period, nat)>)
  {
    && SameShape(before, after)
    && (forall p, j: nat :: (p, j) in todo ==> p in before && j < |before[p]| && PendingAt(before[p][j]) == Some(todo[(p, j)]))
    && forall p, j: nat :: p in before && j < |before[p]| ==>
         if (p, j) in todo then after[p][j] == before[p][j]
         else RowAfterCheck(c, txs, head, before[p][j], after[p][j], (p, j) in throwing)
  }

  lemma NothingChecked(c: Config, txs: map<TxId, Tx>, head: nat, chunks: map<Period, seq<ChunkRow>>, throwing: set<(Period, nat)>)
    ensures CheckedRows(c, txs, head, chunks, chunks, PendingWithTx(chunks), throwing)
  {
    forall p, j: nat | p in chunks && j < |chunks[p]| && (p, j) !in PendingWithTx(chunks)
      ensures RowAfterCheck(c, txs, head, chunks[p][j], chunks[p][j], (p, j) in throwing)
    {
      assert chunks[p][j].status != PENDING || chunks[p][j].txHash.None?;
    }
  }

  lemma OneMoreChecked(
    c: Config, txs: map<TxId, Tx>, head: nat, before: map<Period, seq<ChunkRow>>, now: map<Period, seq<ChunkRow>>,
    after: map<Period, seq<ChunkRow>>, todo: map<(Period, nat), TxId>, throwing: set<(Period, nat)>, q: Period, i: nat)
    requires CheckedRows(c, txs, head, before, now, todo, throwing)
    requires (q, i) in todo && q in now && i < |now[q]|
    requires after == if (q, i) !in throwing && Deep(c, txs, head, todo[(q, i)])
                      then now[q := now[q][i := now[q][i].(status := CONFIRMED, blockNumber := txs[todo[(q, i)]].block)]]
                      else now
    ensures CheckedRows(c, txs, head, before, after, todo - {(q, i)}, throwing)
  {
    hide Deep;
  }

  lemma DetectStep(s: State, t: State, payload: seq<Update>, i: nat)
    requires i < |payload| && t.chain == s.chain && t.assets == s.assets
    requires DetectFrom(s, payload, 0) == DetectFrom(s, payload, i)
    ensures DetectFrom(t, payload, 0)
         == if Differs(t, payload[i].asset)
            then Some(Mismatch(payload[i].asset, OnChain(t, payload[i].asset), InMirror(t, payload[i].asset)))
            else DetectFrom(t, payload, i + 1)
  {
    DetectSame(s, t, payload, 0);
    DetectSame(s, t, payload, i);
  }

  lemma {:induction false} DetectSame(s: State, t: State, payload: seq<Update>, i: nat)
    requires i <= |payload| && t.chain == s.chain && t.assets == s.assets
    ensures DetectFrom(t, payload, i) == DetectFrom(s, payload, i)
    decreases |payload| - i
  {
    if i < |payload| { DetectSame(s, t, payload, i + 1); }
  }

  /** The mirror columns move by the payload, or stay when it was applied before. */
  ghost predicate MirrorMoved(before: map<Id, AssetRow>, after: map<Id, AssetRow>, payload: seq<Update>, applied: bool) {
    && after.Keys == before.Keys
    && forall a :: Mirror(after, a) == Mirror(before, a) + if applied then 0 else CountOf(payload, a)
  }

  /** The views of p are anchored, the others as they were. */
  predicate AnchoredOnly(before: seq<View>, after: seq<View>, p: Period) {
    && |after| == |before|
    && forall i :: 0 <= i < |after| ==> after[i] == if before[i].period == p then before[i].(anchored := true) else before[i]
  }

  /** The check has come to entry i without a mismatch or a throwing read. */
  predicate PassedTo(s: State, payload: seq<Update>, unreadable: set<Id>, i: nat)
    requires i <= |payload|
  {
    forall h :: 0 <= h < i ==> payload[h].asset !in unreadable && !Differs(s, payload[h].asset)
  }

  /** The check throws: it comes to an asset that cannot be read before any mismatch. */
  predicate CheckThrows(s: State, payload: seq<Update>, unreadable: set<Id>) {
    exists i :: 0 <= i < |payload| && payload[i].asset in unreadable && PassedTo(s, payload, unreadable, i)
  }

  lemma MismatchFirst(s: State, payload: seq<Update>, unreadable: set<Id>, i: nat)
    requires i < |payload| && PassedTo(s, payload, unreadable, i) && payload[i].asset !in unreadable && Differs(s, payload[i].asset)
    ensures !CheckThrows(s, payload, unreadable)
  {
    forall k | 0 <= k < |payload| && payload[k].asset in unreadable ensures !PassedTo(s, payload, unreadable, k) {
      assert k > i;
    }
  }

  lemma PassedAll(s: State, payload: seq<Update>, unreadable: set<Id>)
    requires PassedTo(s, payload, unreadable, |payload|)
    ensures !CheckThrows(s, payload, unreadable)
  {
  }

  lemma ThrowsSame(s: State, t: State, payload: seq<Update>, unreadable: set<Id>)
    requires t.chain == s.chain && t.assets == s.assets
    ensures CheckThrows(t, payload, unreadable) <==> CheckThrows(s, payload, unreadable)
  {
    forall i | 0 <= i < |payload| ensures PassedTo(t, payload, unreadable, i) <==> PassedTo(s, payload, unreadable, i) {}
  }

  /** What finalising one pending period does, by the way it ends. */
  ghost predicate Finalised(s: State, t: State, p: Period, unreadable: set<Id>, ending: Ending)
    requires p in s.batches && p in t.batches
  {
    var b, rows := s.batches[p], RowsOf(s.chunks, p);
    if !AllConfirmed(rows) then ending == StillPending && t.views == s.views && t.assets == s.assets && t.batches == s.batches
    else
      && MirrorMoved(s.assets, t.assets, b.payload, b.mirrorApplied)
      && (ending.Confirmed? ==> DetectFrom(t, b.payload, 0).None? && AnchoredOnly(s.views, t.views, p))
      && (ending.StillPending? ==> DetectFrom(t, b.payload, 0).Some?)
      && (ending.Failed? <==> CheckThrows(t, b.payload, unreadable))
      && (!ending.Confirmed? ==> t.views == s.views)
      && t.batches[p] == if ending.Confirmed? then b.(mirrorApplied := true, status := CONFIRMED, blockNumber := Some(MaxBlock(rows)))
                         else b.(mirrorApplied := true)
  }

  lemma LoadingMeans(c: Config, s: State, p: Period)
    requires Inv(c, s) && InTask(s, p) && s.tick.tasks[p].Loading?
    ensures p in s.batches && s.batches[p].status == PENDING
    ensures s.tick.tasks[p].b.payload == s.batches[p].payload && s.tick.tasks[p].b.mirrorApplied == s.batches[p].mirrorApplied
  {
    assert TaskOk(s.batches, RowsOf(s.chunks, p), p, s.tick.tasks[p]);
  }

  function Pending(batches: map<Period, BatchRow>): set<Period> {
    set p | p in batches && batches[p].status == PENDING
  }

  function ConfirmedIn(batches: map<Period, BatchRow>): set<Period> {
    set p | p in batches && batches[p].status == CONFIRMED
  }

  /** The counters of a tick against the table before and after it: every pending period is counted once,
      and `confirmed` counts those that went from PENDING to CONFIRMED. */
  predicate CountersTell(counter: Counters, before: map<Period, BatchRow>, after: map<Period, BatchRow>) {
    && counter.scanned == |Pending(before)| == counter.confirmed + counter.stillPending + counter.failed
    && counter.confirmed == |Pending(before) * ConfirmedIn(after)|
  }

  /** How one period was finalised in a tick: the states before and after, and how it ended. */
  datatype Finalisation = Finalisation(before: State, after: State, ending: Ending)

  /** The state occurs on the way from one moment to another. */
  ghost predicate OnTheWay(c: Config, from: seq<Event>, to: seq<Event>, s: State) {
    exists k :: |from| <= k <= |to| && Run(c, Init(c), to[..k], s)
  }

  /** The finalisations between two moments: of these periods, each in states of the run, each as it must be. */
  ghost predicate Story(
    c: Config, from: seq<Event>, to: seq<Event>, periods: set<Period>, story: map<Period, Finalisation>, unreadable: set<Id>)
  {
    && from <= to && story.Keys == periods
    && forall p :: p in story ==>
         && OnTheWay(c, from, to, story[p].before) && OnTheWay(c, from, to, story[p].after)
         && p in story[p].before.batches && p in story[p].after.batches
         && Finalised(story[p].before, story[p].after, p, unreadable, story[p].ending)
  }

  function EndedAs(story: map<Period, Finalisation>, ending: Ending): set<Period> {
    set p | p in story && story[p].ending == ending
  }

  /** The counters are the numbers of periods that ended in each way. */
  predicate Tallies(counter: Counters, story: map<Period, Finalisation>) {
    && counter.confirmed == |EndedAs(story, Confirmed)|
    && counter.stillPending == |EndedAs(story, StillPending)|
    && counter.failed == |EndedAs(story, Failed)|
  }

  lemma StoryStarts(c: Config, trace: seq<Event>, unreadable: set<Id>, counter: Counters)
    requires counter.confirmed == counter.stillPending == counter.failed == 0
    ensures Story(c, trace, trace, {}, map[], unreadable) && Tallies(counter, map[])
  {
  }

  lemma NothingFailed(
    c: Config, from: seq<Event>, to: seq<Event>, periods: set<Period>, story: map<Period, Finalisation>, counter: Counters)
    requires Story(c, from, to, periods, story, {}) && Tallies(counter, story)
    ensures counter.failed == 0
  {
    hide OnTheWay, AllConfirmed, MirrorMoved, AnchoredOnly, DetectFrom, Differs;
    forall p | p in story ensures story[p].ending != Failed {
      assert Finalised(story[p].before, story[p].after, p, {}, story[p].ending);
    }
    assert EndedAs(story, Failed) == {};
  }

  lemma EndedAsMore(story: map<Period, Finalisation>, p: Period, f: Finalisation, ending: Ending)
    requires p !in story
    ensures |EndedAs(story[p := f], ending)| == |EndedAs(story, ending)| + if f.ending == ending then 1 else 0
  {
    assert EndedAs(story[p := f], ending) == EndedAs(story, ending) + if f.ending == ending then {p} else {};
    assert p !in EndedAs(story, ending);
  }

  lemma OnTheWayWidens(c: Config, a: seq<Event>, b: seq<Event>, d: seq<Event>, e: seq<Event>, s: State)
    requires a <= b <= d <= e && OnTheWay(c, b, d, s)
    ensures OnTheWay(c, a, e, s)
  {
    hide Run;
    var k :| |b| <= k <= |d| && Run(c, Init(c), d[..k], s);
    assert e[..k] == d[..k];
  }

  lemma StoryWidens(
    c: Config, a: seq<Event>, b: seq<Event>, d: seq<Event>, e: seq<Event>, periods: set<Period>,
    story: map<Period, Finalisation>, unreadable: set<Id>)
    requires a <= b && d <= e && Story(c, b, d, periods, story, unreadable)
    ensures Story(c, a, e, periods, story, unreadable)
  {
    hide OnTheWay, Finalised;
    forall p | p in story ensures OnTheWay(c, a, e, story[p].before) && OnTheWay(c, a, e, story[p].after) {
      OnTheWayWidens(c, a, b, d, e, story[p].before);
      OnTheWayWidens(c, a, b, d, e, story[p].after);
    }
  }

  lemma StoryGoesOn(
    c: Config, from: seq<Event>, before: seq<Event>, to: seq<Event>, periods: set<Period>,
    story: map<Period, Finalisation>, unreadable: set<Id>, counter: Counters, p: Period, f: Finalisation)
    requires Story(c, from, before, periods, story, unreadable) && Tallies(counter, story) && p !in periods && before <= to
    requires Run(c, Init(c), before, f.before) && Run(c, Init(c), to, f.after)
    requires p in f.before.batches && p in f.after.batches && Finalised(f.before, f.after, p, unreadable, f.ending)
    ensures Story(c, from, to, periods + {p}, story[p := f], unreadable) && Tallies(Counted(counter, f.ending), story[p := f])
  {
    hide Run, Finalised;
    StoryWidens(c, from, from, before, to, periods, story, unreadable);
    assert to[..|before|] == before && to[..|to|] == to;
    assert OnTheWay(c, from, to, f.before) && OnTheWay(c, from, to, f.after);
    hide OnTheWay, EndedAs;
    EndedAsMore(story, p, f, Confirmed);
    EndedAsMore(story, p, f, StillPending);
    EndedAsMore(story, p, f, Failed);
  }

  lemma EndingStatus(s: State, t: State, p: Period, unreadable: set<Id>, ending: Ending)
    requires p in s.batches && p in t.batches && s.batches[p].status == PENDING && Finalised(s, t, p, unreadable, ending)
    ensures t.batches[p].status == if ending.Confirmed? then CONFIRMED else PENDING
  {
  }

  lemma ConfirmedGrows(periods: set<Period>, before: map<Period, BatchRow>, after: map<Period, BatchRow>, p: Period, ending: Ending)
    requires p in periods && p in before && p in after && after == before[p := after[p]]
    requires before[p].status == PENDING && after[p].status == if ending.Confirmed? then CONFIRMED else PENDING
    ensures |periods * ConfirmedIn(after)| == |periods * ConfirmedIn(before)| + if ending.Confirmed? then 1 else 0
  {
    if ending.Confirmed? {
      assert periods * ConfirmedIn(after) == (periods * ConfirmedIn(before)) + {p};
    } else {
      assert periods * ConfirmedIn(after) == periods * ConfirmedIn(before);
    }
  }

  function Counted(counter: Counters, ending: Ending): Counters {
    match ending
    case Confirmed => counter.(confirmed := counter.confirmed + 1)
    case StillPending => counter.(stillPending := counter.stillPending + 1)
    case Failed => counter.(failed := counter.failed + 1)
  }

  /** The finalisation phase with the periods of todo still to come. */
  predicate Midway(
    pending: map<Period, BatchRow>, todo: set<Period>, batches: map<Period, BatchRow>, tasks: map<Period, Task>, counter: Counters)
  {
    && todo <= pending.Keys <= batches.Keys && tasks.Keys == pending.Keys
    && (forall q :: q in pending ==> if q in todo then tasks[q] == Loading(pending[q]) else tasks[q].Finished?)
    && (forall q :: q in todo ==> batches[q].status == PENDING)
    && counter.scanned == |pending| == |todo| + counter.confirmed + counter.stillPending + counter.failed
    && counter.confirmed == |pending.Keys * ConfirmedIn(batches)|
  }

  lemma MidwayStarts(batches: map<Period, BatchRow>, pending: map<Period, BatchRow>, tasks: map<Period, Task>)
    requires pending == map p | p in batches && batches[p].status == PENDING :: batches[p]
    requires tasks == map p | p in pending :: Loading(pending[p])
    ensures Midway(pending, pending.Keys, batches, tasks, Counters(|pending|, 0, 0, 0))
    ensures pending.Keys == Pending(batches)
  {
    assert pending.Keys * ConfirmedIn(batches) == {};
  }

  lemma MidwayTask(
    pending: map<Period, BatchRow>, todo: set<Period>, batches: map<Period, BatchRow>, tasks: map<Period, Task>, counter: Counters, p: Period)
    requires Midway(pending, todo, batches, tasks, counter) && p in todo
    ensures p in tasks && p in pending && tasks[p] == Loading(pending[p])
    ensures p in batches && batches[p].status == PENDING
  {
  }

  lemma MidwayStep(
    pending: map<Period, BatchRow>, todo: set<Period>, before: map<Period, BatchRow>, after: map<Period, BatchRow>,
    tasks: map<Period, Task>, tasks': map<Period, Task>, counter: Counters, p: Period, ending: Ending)
    requires Midway(pending, todo, before, tasks, counter) && p in todo
    requires tasks' == tasks[p := Finished(ending.Confirmed?)]
    requires p in before && p in after && after == before[p := after[p]]
    requires after[p].status == if ending.Confirmed? then CONFIRMED else PENDING
    ensures Midway(pending, todo - {p}, after, tasks', Counted(counter, ending))
  {
    ConfirmedGrows(pending.Keys, before, after, p, ending);
  }

  lemma MidwayEnds(
    pending: map<Period, BatchRow>, before: map<Period, BatchRow>, after: map<Period, BatchRow>, tasks: map<Period, Task>, counter: Counters)
    requires Midway(pending, {}, after, tasks, counter) && pending.Keys == Pending(before)
    ensures CountersTell(counter, before, after)
    ensures forall p :: p in tasks ==> tasks[p].Finished?
  {
    assert |pending| == |pending.Keys|;
  }

  lemma {:induction false} TicksConcat(es: seq<Event>, fs: seq<Event>)
    ensures Ticks(es + fs) == Ticks(es) + Ticks(fs)
  {
    if es == [] {
      assert es + fs == fs;
    } else {
      TicksConcat(es[1..], fs);
      assert (es + fs)[1..] == es[1..] + fs;
    }
  }

  lemma GrewNothing(before: seq<Event>, calm: bool)
    ensures Grew(before, before, 0, calm)
  {
  }

  lemma GrewPrefix(before: seq<Event>, after: seq<Event>, ticks: nat, calm: bool)
    requires Grew(before, after, ticks, calm)
    ensures before <= after
  {
  }

  lemma GrewMore(start: seq<Event>, before: seq<Event>, after: seq<Event>, e: Event, ticks: nat, calm: bool)
    requires Grew(start, before, ticks, calm) && after == before + [e]
    requires calm ==> Calm(e)
    ensures Grew(start, after, ticks + if e.EndTick? then 1 else 0, calm)
  {
    assert after[|start|..] == before[|start|..] + [e];
    TicksConcat(before[|start|..], [e]);
    assert [e][1..] == [];
  }

  lemma GrewOne(before: seq<Event>, after: seq<Event>, e: Event, calm: bool)
    requires after == before + [e] && (calm ==> Calm(e))
    ensures Grew(before, after, if e.EndTick? then 1 else 0, calm)
  {
    GrewNothing(before, calm);
    GrewMore(before, before, after, e, 0, calm);
  }

  lemma GrewThen(a: seq<Event>, b: seq<Event>, d: seq<Event>, i: nat, j: nat, x: bool, y: bool)
    requires Grew(a, b, i, x) && Grew(b, d, j, y)
    ensures Grew(a, d, i + j, x && y)
  {
    assert d[|a|..] == b[|a|..] + d[|b|..];
    TicksConcat(b[|a|..], d[|b|..]);
  }

  // ---- When the next call is possible, and what it leaves ----

  lemma Extend(c: Config, s0: State, es: seq<Event>, s: State, e: Event)
    requires Run(c, s0, es, s) && Enabled(c, s, e)
    ensures Run(c, s0, es + [e], Apply(c, s, e))
  {
    hide Apply, Enabled;
    RunOne(c, s, e);
    RunConcat(c, s0, es, s, [e], Apply(c, s, e));
  }

  lemma CanEnsureBatch(c: Config, s: State, p: Period)
    requires Inv(c, s) && p in s.pub && s.pub[p].Aggregated?
    ensures Enabled(c, s, EnsureBatch(p))
    ensures s.pub[p].present <==> p in s.batches
    ensures p in s.batches ==> s.batches[p].payload == s.pub[p].sorted
  {
    assert PublisherOk(s.views, s.batches, s.chunks, p, s.pub[p]);
    if p in s.batches {
      assert BatchOk(s.views, p, s.batches[p]);
      PlansAgree(s.pub[p].sorted, s.batches[p].payload, s.views, p);
    }
  }

  lemma EnsuredFacts(c: Config, s: State, p: Period)
    requires Inv(c, s) && p in s.pub && s.pub[p].Prepared?
    ensures var rows := EnsureRows(RowsOf(s.chunks, p), Slices(s.pub[p].sorted, c.maxChunk));
            && SamePayloads(rows, Slices(s.pub[p].sorted, c.maxChunk))
            && (p in s.chunks ==> rows == s.chunks[p])
            && (p !in s.chunks ==> forall j :: 0 <= j < |rows| ==> rows[j] == NewChunk(rows[j].payload))
  {
    EnsureRowsFacts(RowsOf(s.chunks, p), Slices(s.pub[p].sorted, c.maxChunk));
    assert PublisherOk(s.views, s.batches, s.chunks, p, s.pub[p]);
  }

  lemma CanRecord(c: Config, s: State, p: Period)
    requires Inv(c, s) && p in s.pub && s.pub[p].Recording?
    ensures Enabled(c, s, RecordChunk(p))
    ensures p in s.chunks && s.pub[p].next < |s.chunks[p]| && p in s.batches
  {
    assert PublisherOk(s.views, s.batches, s.chunks, p, s.pub[p]);
  }

  lemma CanFail(c: Config, s: State, p: Period)
    requires Inv(c, s) && InSending(s, p) && s.pub[p].rows[s.pub[p].next].txHash.None?
    ensures Enabled(c, s, FailSend(p))
    ensures p in s.chunks && s.pub[p].next < |s.chunks[p]|
  {
    assert PublisherOk(s.views, s.batches, s.chunks, p, s.pub[p]);
  }

  lemma TaskHasBatch(c: Config, s: State, p: Period)
    requires Inv(c, s) && InTask(s, p)
    ensures p in s.batches
  {
  }

  lemma TodoHasRow(c: Config, s: State, p: Period, j: nat)
    requires Inv(c, s) && s.tick.ConfirmingChunks? && (p, j) in s.tick.todo
    ensures p in s.chunks && j < |s.chunks[p]|
  {
  }

  lemma MirrorRowExists(c: Config, s: State, p: Period)
    requires Inv(c, s) && InTask(s, p) && s.tick.tasks[p].Mirroring? && s.tick.tasks[p].next < |s.tick.tasks[p].payload|
    ensures s.tick.tasks[p].payload[s.tick.tasks[p].next].asset in s.assets
  {
    var t := s.tick.tasks[p];
    assert TaskOk(s.batches, RowsOf(s.chunks, p), p, t);
    assert BatchOk(s.views, p, s.batches[p]) && ViewsInv(s.views, s.assets);
    hide Inv, ViewsInv, IsPlan;
    PlanAssetsExist(t.payload, s.views, p, s.assets, t.next);
  }

  /** Runs are deterministic: what a longer run does after its first part is a run from there. */
  lemma {:induction false} RunSuffix(c: Config, s0: State, es: seq<Event>, s: State, fs: seq<Event>, t: State)
    requires Run(c, s0, es, s) && Run(c, s0, es + fs, t)
    ensures Run(c, s, fs, t)
    decreases es
  {
    hide Apply, Enabled;
    if es == [] {
      assert es + fs == fs;
    } else {
      assert (es + fs)[1..] == es[1..] + fs;
      RunSuffix(c, Apply(c, s0, es[0]), es[1..], s, fs, t);
    }
  }

  lemma Converged(c: Config, before: seq<Event>, s: State, after: seq<Event>, t: State)
    requires Run(c, Init(c), before, s) && Run(c, Init(c), after, t) && Grew(before, after, 2, true)
    requires Ready(c, s) && s.tick.Idle?
    ensures forall p :: p in t.batches ==> t.batches[p].status == CONFIRMED
    ensures forall a :: OnChain(t, a) == InMirror(t, a) == |PublishedViews(t.views, t.batches, a)|
  {
    hide Ready, Ticks, AllCalm, Run, Apply, Enabled, OnChain, InMirror, PublishedViews;
    var rest := after[|before|..];
    assert after == before + rest;
    assert Reachable(c, s);
    RunSuffix(c, Init(c), before, s, rest, t);
    TwoTicksConverge(c, s, rest, t);
  }
}
