/** The view-count protocol as a state machine: database tables, chain, mempool, and the local
    variables of every running `publishBatchFor` and `reconcileAll`. Each event is one database
    statement, one gateway call or one chain action; events of different tasks interleave freely. */
module Protocol {
  import opened Options
  import opened Payloads
  import N = NotaryContract

  type TxId = nat
  type Key = nat

  datatype Status = PENDING | CONFIRMED | FAILED

  // ---- Tables ----

  datatype View = View(key: Key, asset: Id, period: Period, anchored: bool)

  datatype AssetRow = AssetRow(
    contentHash: N.Hash, status: Status, txHash: Option<TxId>, blockNumber: Option<nat>, totalViewsMirror: nat)

  datatype BatchRow = BatchRow(
    payload: seq<Update>, assetCount: nat, viewsTotal: nat,
    status: Status, mirrorApplied: bool, txHash: Option<TxId>, blockNumber: Option<nat>)

  datatype ChunkRow = ChunkRow(payload: seq<Update>, status: Status, txHash: Option<TxId>, blockNumber: Option<nat>)

  // ---- Chain side ----

  /** A broadcast transaction. `chunk` records which chunk row a publication belongs to; no step reads it. */
  datatype Tx = Tx(call: N.Call, chunk: Option<nat>, block: Option<nat>)

  // ---- Running tasks ----

  /** `publishBatchFor` between two awaits, with its locals. */
  datatype Publisher =
    | Aggregated(sorted: seq<Update>, present: bool, txSet: bool)
    | Prepared(sorted: seq<Update>, txSet: bool)
    | Planned(txSet: bool)
    | Sending(rows: seq<ChunkRow>, next: nat, txSet: bool)
    | Recording(rows: seq<ChunkRow>, next: nat, tx: TxId, txSet: bool)

  /** One period of `reconcileBatches` between two awaits. */
  datatype Task =
    | Loading(b: BatchRow)
    | Mirroring(payload: seq<Update>, block: nat, next: nat)
    | ReadingChain(payload: seq<Update>, block: nat, next: nat)
    | ReadingMirror(payload: seq<Update>, block: nat, next: nat, onchain: nat)
    | Anchoring
    | Finished(confirmed: bool)

  datatype Tick =
    | Idle
    | ConfirmingChunks(todo: map<(Period, nat), TxId>)
    | Finalising(tasks: map<Period, Task>)

  datatype State = State(
    views: seq<View>,
    assets: map<Id, AssetRow>,
    batches: map<Period, BatchRow>,
    chunks: map<Period, seq<ChunkRow>>,
    chain: N.Storage,
    txs: map<TxId, Tx>,
    head: nat,
    notarizing: map<Id, Option<TxId>>,
    pub: map<Period, Publisher>,
    tick: Tick)

  datatype Settings = Settings(maxChunk: nat, depth: nat, attester: N.Address)
  type Config = c: Settings | c.maxChunk > 0 && c.depth > 0 witness Settings(300, 3, 1)

  function Init(c: Config): State {
    State([], map[], map[], map[], N.Deployed(c.attester), map[], 0, map[], map[], Idle)
  }

  // ---- Queries ----

  /** count(*) over the views of one asset in one period. */
  function ViewCount(views: seq<View>, p: Period, a: Id): nat {
    if views == [] then 0
    else
      ViewCount(views[..|views| - 1], p, a)
      + if views[|views| - 1].period == p && views[|views| - 1].asset == a then 1 else 0
  }

  /** `aggregatesForPeriod`: the GROUP BY rows, in whatever order the database returns them. */
  ghost predicate IsAggregate(rows: seq<Update>, views: seq<View>, p: Period) {
    && OnePerAsset(rows)
    && Positive(rows)
    && forall a :: CountOf(rows, a) == ViewCount(views, p, a)
  }

  function AnchorPeriod(views: seq<View>, p: Period): seq<View> {
    if views == [] then []
    else
      var v := views[|views| - 1];
      AnchorPeriod(views[..|views| - 1], p) + [if v.period == p then v.(anchored := true) else v]
  }

  function Confirmations(head: nat, block: nat): nat {
    if head + 1 >= block then head + 1 - block else 0
  }

  /** The receipt exists and the depth is reached. */
  predicate Deep(c: Config, txs: map<TxId, Tx>, head: nat, t: TxId) {
    t in txs && txs[t].block.Some? && Confirmations(head, txs[t].block.value) >= c.depth
  }

  function RowsOf(chunks: map<Period, seq<ChunkRow>>, p: Period): seq<ChunkRow> {
    if p in chunks then chunks[p] else []
  }

  /** `chunks.length > 0 && chunks.every(CONFIRMED)`. */
  predicate AllConfirmed(rows: seq<ChunkRow>) {
    rows != [] && forall j :: 0 <= j < |rows| ==> rows[j].status == CONFIRMED
  }

  function BlockOr0(row: ChunkRow): nat {
    if row.blockNumber.Some? then row.blockNumber.value else 0
  }

  function MaxBlock(rows: seq<ChunkRow>): nat {
    if rows == [] then 0
    else
      var m, b := MaxBlock(rows[..|rows| - 1]), BlockOr0(rows[|rows| - 1]);
      if m <= b then b else m
  }

  function TotalOf(u: seq<Update>): nat {
    if u == [] then 0 else TotalOf(u[..|u| - 1]) + u[|u| - 1].views
  }

  // ---- Writes ----

  function NewChunk(payload: seq<Update>): ChunkRow {
    ChunkRow(payload, PENDING, None, None)
  }

  function FreshRows(slices: seq<seq<Update>>): seq<ChunkRow> {
    if slices == [] then [] else FreshRows(slices[..|slices| - 1]) + [NewChunk(slices[|slices| - 1])]
  }

  /** `ensureChunks`: rows already there stay as they are, missing indices are inserted. */
  function EnsureRows(rows: seq<ChunkRow>, slices: seq<seq<Update>>): seq<ChunkRow> {
    if |slices| <= |rows| then rows else rows + FreshRows(slices[|rows|..])
  }

  function SetChunk(s: State, p: Period, j: nat, row: ChunkRow): State
    requires p in s.chunks && j < |s.chunks[p]|
  {
    s.(chunks := s.chunks[p := s.chunks[p][j := row]])
  }

  function SetTask(s: State, p: Period, task: Task): State
    requires s.tick.Finalising?
  {
    s.(tick := Finalising(s.tick.tasks[p := task]))
  }

  // ---- Events ----

  datatype Event =
    | Register(key: Key, asset: Id, period: Period)
    | CreateAsset(id: Id, hash: N.Hash)
    | SendNotarize(id: Id, tx: TxId)
    | RecordNotarize(id: Id)
    | FailNotarize(id: Id)
    | ConfirmAsset(id: Id)
    | ReadAggregates(p: Period, rows: seq<Update>)
    | EnsureBatch(p: Period)
    | EnsureChunks(p: Period)
    | LoadChunks(p: Period)
    | SkipSent(p: Period)
    | SendChunk(p: Period, tx: TxId)
    | RecordChunk(p: Period)
    | FailSend(p: Period)
    | EndPublish(p: Period)
    | NewBlock
    | Include(tx: TxId, timestamp: nat)
    | StartTick
    | CheckChunk(p: Period, j: nat, failed: bool)
    | StartFinalise
    | LoadPeriod(p: Period)
    | MirrorOne(p: Period)
    | MarkMirror(p: Period)
    | ReadChain(p: Period)
    | ReadMirror(p: Period)
    | ConfirmBatch(p: Period)
    | AnchorViews(p: Period)
    | FailPeriod(p: Period)
    | EndTick

  /** Requests and asset notarisation. */
  predicate UserEvent(e: Event) {
    e.Register? || e.CreateAsset? || e.SendNotarize? || e.RecordNotarize? || e.FailNotarize? || e.ConfirmAsset?
  }

  /** `publishBatchFor`. */
  predicate PublisherEvent(e: Event) {
    e.ReadAggregates? || e.EnsureBatch? || e.EnsureChunks? || e.LoadChunks? || e.SkipSent? || e.SendChunk?
    || e.RecordChunk? || e.FailSend? || e.EndPublish?
  }

  predicate ChainEvent(e: Event) {
    e.NewBlock? || e.Include?
  }

  /** `reconcileBatches` as a whole. */
  predicate TickEvent(e: Event) {
    e.StartTick? || e.CheckChunk? || e.StartFinalise? || e.EndTick?
  }

  /** The finalisation of one period. */
  predicate TaskEvent(e: Event) {
    e.LoadPeriod? || e.MirrorOne? || e.MarkMirror? || e.ReadChain? || e.ReadMirror? || e.ConfirmBatch? || e.AnchorViews? || e.FailPeriod?
  }

  predicate InSending(s: State, p: Period) {
    p in s.pub && s.pub[p].Sending? && s.pub[p].next < |s.pub[p].rows|
  }

  predicate InTask(s: State, p: Period) {
    s.tick.Finalising? && p in s.tick.tasks
  }

  /** `findPendingChunksWithTx`. */
  function PendingWithTx(chunks: map<Period, seq<ChunkRow>>): map<(Period, nat), TxId> {
    map p: Period, j: nat | p in chunks && 0 <= j < |chunks[p]| && chunks[p][j].status == PENDING && chunks[p][j].txHash.Some?
      :: (p, j) := chunks[p][j].txHash.value
  }

  /** `findPendingBatches`. */
  function PendingTasks(batches: map<Period, BatchRow>): map<Period, Task> {
    map p | p in batches && batches[p].status == PENDING :: Loading(batches[p])
  }

  ghost predicate UserCan(c: Config, s: State, e: Event)
    requires UserEvent(e)
  {
    match e
    case Register(key, asset, period) =>
      && asset in s.assets
      && (forall i :: 0 <= i < |s.views| ==> s.views[i].key != key)
      && period !in s.batches && period !in s.pub // H1: a period is frozen once its publication begins
    case CreateAsset(id, _) => id !in s.assets
    case SendNotarize(id, tx) => id in s.notarizing && s.notarizing[id].None? && id in s.assets && tx !in s.txs
    case RecordNotarize(id) => id in s.notarizing && s.notarizing[id].Some? && id in s.assets
    case FailNotarize(id) => id in s.notarizing && s.notarizing[id].None? && id in s.assets
    case ConfirmAsset(id) =>
      && id in s.assets && s.assets[id].status == PENDING && s.assets[id].txHash.Some?
      && Deep(c, s.txs, s.head, s.assets[id].txHash.value)
  }

  function ApplyUser(c: Config, s: State, e: Event): (r: State)
    requires UserEvent(e) && UserCan(c, s, e)
    ensures r == s.(views := r.views, assets := r.assets, txs := r.txs, notarizing := r.notarizing)
  {
    match e
    case Register(key, asset, period) => s.(views := s.views + [View(key, asset, period, false)])
    case CreateAsset(id, hash) =>
      s.(assets := s.assets[id := AssetRow(hash, PENDING, None, None, 0)], notarizing := s.notarizing[id := None])
    case SendNotarize(id, tx) =>
      s.(txs := s.txs[tx := Tx(N.NotarizeAsset(id, s.assets[id].contentHash), None, None)],
         notarizing := s.notarizing[id := Some(tx)])
    case RecordNotarize(id) =>
      s.(assets := s.assets[id := s.assets[id].(txHash := s.notarizing[id])], notarizing := s.notarizing - {id})
    case FailNotarize(id) =>
      s.(assets := s.assets[id := s.assets[id].(status := FAILED)], notarizing := s.notarizing - {id})
    case ConfirmAsset(id) =>
      s.(assets := s.assets[id := s.assets[id].(status := CONFIRMED, blockNumber := s.txs[s.assets[id].txHash.value].block)])
  }

  ghost predicate PublisherCan(s: State, e: Event)
    requires PublisherEvent(e)
  {
    match e
    case ReadAggregates(p, rows) => // also when the batch was confirmed since its row was read
      && p !in s.pub // H2: ticks for one period do not overlap
      && IsAggregate(rows, s.views, p)
      && rows != []
    case EnsureBatch(p) => p in s.pub && s.pub[p].Aggregated? && (s.pub[p].present || p !in s.batches)
    case EnsureChunks(p) => p in s.pub && s.pub[p].Prepared?
    case LoadChunks(p) => p in s.pub && s.pub[p].Planned?
    case SkipSent(p) => InSending(s, p) && s.pub[p].rows[s.pub[p].next].txHash.Some?
    case SendChunk(p, tx) => InSending(s, p) && s.pub[p].rows[s.pub[p].next].txHash.None? && tx !in s.txs
    case RecordChunk(p) => // H2: recording succeeds once the send has
      p in s.pub && s.pub[p].Recording? && p in s.batches && p in s.chunks && s.pub[p].next < |s.chunks[p]|
    case FailSend(p) => // H2: a send that throws had no effect on chain
      && InSending(s, p) && s.pub[p].rows[s.pub[p].next].txHash.None?
      && p in s.chunks && s.pub[p].next < |s.chunks[p]|
    case EndPublish(p) => p in s.pub && s.pub[p].Sending? && s.pub[p].next == |s.pub[p].rows|
  }

  function ApplyPublisher(c: Config, s: State, e: Event): (r: State)
    requires PublisherEvent(e) && PublisherCan(s, e)
    ensures r == s.(batches := r.batches, chunks := r.chunks, txs := r.txs, pub := r.pub)
  {
    match e
    case ReadAggregates(p, rows) =>
      s.(pub := s.pub[p := Aggregated(SortByAsset(rows), p in s.batches, p in s.batches && s.batches[p].txHash.Some?)])
    case EnsureBatch(p) => ApplyEnsureBatch(s, p)
    case EnsureChunks(p) => ApplyEnsureChunks(c, s, p)
    case LoadChunks(p) => s.(pub := s.pub[p := Sending(RowsOf(s.chunks, p), 0, s.pub[p].txSet)])
    case SkipSent(p) => s.(pub := s.pub[p := Sending(s.pub[p].rows, s.pub[p].next + 1, s.pub[p].txSet)])
    case SendChunk(p, tx) =>
      var t := s.pub[p];
      s.(txs := s.txs[tx := Tx(N.PublishBatch(p, t.rows[t.next].payload), Some(t.next), None)],
         pub := s.pub[p := Recording(t.rows, t.next, tx, t.txSet)])
    case RecordChunk(p) => ApplyRecordChunk(s, p)
    case FailSend(p) =>
      var t := s.pub[p];
      SetChunk(s, p, t.next, s.chunks[p][t.next].(status := FAILED)).(pub := s.pub[p := Sending(t.rows, t.next + 1, t.txSet)])
    case EndPublish(p) => s.(pub := s.pub - {p})
  }

  ghost predicate ChainCan(c: Config, s: State, e: Event)
    requires ChainEvent(e)
  {
    match e
    case NewBlock => true
    case Include(tx, timestamp) =>
      && tx in s.txs && s.txs[tx].block.None?
      && 0 < timestamp < N.TWO_TO_64                                      // H5
      && N.Execute(s.chain, c.attester, s.txs[tx].call, timestamp).Done?  // H3
  }

  function ApplyChain(c: Config, s: State, e: Event): (r: State)
    requires ChainEvent(e) && ChainCan(c, s, e)
    ensures r == s.(chain := r.chain, txs := r.txs, head := r.head)
  {
    match e
    case NewBlock => s.(head := s.head + 1)
    case Include(tx, timestamp) =>
      s.(chain := N.Execute(s.chain, c.attester, s.txs[tx].call, timestamp).storage,
         txs := s.txs[tx := s.txs[tx].(block := Some(s.head))])
  }

  ghost predicate TickCan(s: State, e: Event)
    requires TickEvent(e)
  {
    match e
    case StartTick => s.tick.Idle? // H4: reconciliation ticks do not overlap
    case CheckChunk(p, j, failed) =>
      && s.tick.ConfirmingChunks? && (p, j) in s.tick.todo && p in s.chunks && j < |s.chunks[p]|
    case StartFinalise => s.tick.ConfirmingChunks? && s.tick.todo == map[]
    case EndTick => s.tick.Finalising? && forall p :: p in s.tick.tasks ==> s.tick.tasks[p].Finished?
  }

  function ApplyTick(c: Config, s: State, e: Event): (r: State)
    requires TickEvent(e) && TickCan(s, e)
    ensures r == s.(chunks := r.chunks, tick := r.tick)
  {
    match e
    case StartTick => s.(tick := ConfirmingChunks(PendingWithTx(s.chunks)))
    case CheckChunk(p, j, failed) => ApplyCheckChunk(c, s, p, j, failed)
    case StartFinalise => s.(tick := Finalising(PendingTasks(s.batches)))
    case EndTick => s.(tick := Idle)
  }

  predicate TaskCan(s: State, e: Event)
    requires TaskEvent(e)
  {
    && InTask(s, e.p)
    && var t := s.tick.tasks[e.p];
       match e
       case LoadPeriod(p) => t.Loading?
       case MirrorOne(p) => t.Mirroring? && t.next < |t.payload|
       case MarkMirror(p) => t.Mirroring? && t.next == |t.payload| && p in s.batches
       case ReadChain(p) => t.ReadingChain? && t.next < |t.payload|
       case ReadMirror(p) => t.ReadingMirror? && t.next < |t.payload|
       case ConfirmBatch(p) => t.ReadingChain? && t.next == |t.payload| && p in s.batches
       case AnchorViews(p) => t.Anchoring?
       case FailPeriod(p) => t.Loading? || t.ReadingChain? || t.ReadingMirror? // H4: reads may throw, writes do not
  }

  function ApplyTask(s: State, e: Event): (r: State)
    requires TaskEvent(e) && TaskCan(s, e)
    ensures r == s.(views := r.views, assets := r.assets, batches := r.batches, tick := r.tick)
    ensures r.tick.Finalising? && r.tick.tasks.Keys == s.tick.tasks.Keys
    ensures forall p :: p in s.tick.tasks && p != e.p ==> r.tick.tasks[p] == s.tick.tasks[p]
  {
    var t := s.tick.tasks[e.p];
    match e
    case LoadPeriod(p) => SetTask(s, p, AfterLoad(t.b, RowsOf(s.chunks, p)))
    case MirrorOne(p) =>
      SetTask(s.(assets := AddMirror(s.assets, t.payload[t.next])), p, Mirroring(t.payload, t.block, t.next + 1))
    case MarkMirror(p) =>
      SetTask(s.(batches := s.batches[p := s.batches[p].(mirrorApplied := true)]), p, ReadingChain(t.payload, t.block, 0))
    case ReadChain(p) => SetTask(s, p, AfterReadChain(s.chain, t))
    case ReadMirror(p) => SetTask(s, p, AfterReadMirror(s.assets, t))
    case ConfirmBatch(p) =>
      SetTask(s.(batches := s.batches[p := s.batches[p].(status := CONFIRMED, blockNumber := Some(t.block))]), p, Anchoring)
    case AnchorViews(p) => SetTask(s.(views := AnchorPeriod(s.views, p)), p, Finished(true))
    case FailPeriod(p) => SetTask(s, p, Finished(false))
  }

  /** When an event can happen. The assumptions on the environment are the numbered lines above. */
  ghost predicate Enabled(c: Config, s: State, e: Event) {
    if UserEvent(e) then UserCan(c, s, e)
    else if PublisherEvent(e) then PublisherCan(s, e)
    else if ChainEvent(e) then ChainCan(c, s, e)
    else if TickEvent(e) then TickCan(s, e)
    else TaskCan(s, e)
  }

  function Apply(c: Config, s: State, e: Event): State
    requires Enabled(c, s, e)
  {
    if UserEvent(e) then ApplyUser(c, s, e)
    else if PublisherEvent(e) then ApplyPublisher(c, s, e)
    else if ChainEvent(e) then ApplyChain(c, s, e)
    else if TickEvent(e) then ApplyTick(c, s, e)
    else ApplyTask(s, e)
  }

  function ApplyEnsureBatch(s: State, p: Period): State
    requires p in s.pub && s.pub[p].Aggregated?
  {
    var t := s.pub[p];
    var row := BatchRow(t.sorted, |t.sorted|, TotalOf(t.sorted), PENDING, false, None, None);
    s.(batches := if t.present then s.batches else s.batches[p := row],
       pub := s.pub[p := Prepared(t.sorted, t.txSet)])
  }

  function ApplyEnsureChunks(c: Config, s: State, p: Period): State
    requires p in s.pub && s.pub[p].Prepared?
  {
    var t := s.pub[p];
    s.(chunks := s.chunks[p := EnsureRows(RowsOf(s.chunks, p), Slices(t.sorted, c.maxChunk))],
       pub := s.pub[p := Planned(t.txSet)])
  }

  function ApplyRecordChunk(s: State, p: Period): State
    requires p in s.pub && s.pub[p].Recording? && p in s.batches && p in s.chunks && s.pub[p].next < |s.chunks[p]|
  {
    var t := s.pub[p];
    SetChunk(s, p, t.next, s.chunks[p][t.next].(txHash := Some(t.tx), status := PENDING))
    .(batches := if t.txSet then s.batches else s.batches[p := s.batches[p].(txHash := Some(t.tx))],
      pub := s.pub[p := Sending(t.rows, t.next + 1, true)])
  }

  function ApplyCheckChunk(c: Config, s: State, p: Period, j: nat, failed: bool): State
    requires s.tick.ConfirmingChunks? && (p, j) in s.tick.todo && p in s.chunks && j < |s.chunks[p]|
  {
    var t := s.tick.todo[(p, j)];
    var s' := if !failed && Deep(c, s.txs, s.head, t)
              then SetChunk(s, p, j, s.chunks[p][j].(status := CONFIRMED, blockNumber := s.txs[t].block))
              else s;
    s'.(tick := ConfirmingChunks(s.tick.todo - {(p, j)}))
  }

  /** `incrementMirrorViews`: an UPDATE, so a missing row changes nothing. */
  function AddMirror(assets: map<Id, AssetRow>, u: Update): map<Id, AssetRow> {
    if u.asset in assets
    then assets[u.asset := assets[u.asset].(totalViewsMirror := assets[u.asset].totalViewsMirror + u.views)]
    else assets
  }

  function AfterLoad(b: BatchRow, rows: seq<ChunkRow>): Task {
    if !AllConfirmed(rows) then Finished(false)
    else if b.mirrorApplied then ReadingChain(b.payload, MaxBlock(rows), 0)
    else Mirroring(b.payload, MaxBlock(rows), 0)
  }

  function AfterReadChain(chain: N.Storage, t: Task): Task
    requires t.ReadingChain? && t.next < |t.payload|
  {
    var a := t.payload[t.next].asset;
    if N.Known(chain, a) then ReadingMirror(t.payload, t.block, t.next, N.Total(chain, a))
    else ReadingChain(t.payload, t.block, t.next + 1)
  }

  function AfterReadMirror(assets: map<Id, AssetRow>, t: Task): Task
    requires t.ReadingMirror? && t.next < |t.payload|
  {
    var a := t.payload[t.next].asset;
    if a in assets && assets[a].totalViewsMirror != t.onchain then Finished(false)
    else ReadingChain(t.payload, t.block, t.next + 1)
  }

  // ---- Runs ----

  /** t is reached from s by the events es, in order. */
  ghost predicate Run(c: Config, s: State, es: seq<Event>, t: State)
    decreases es
  {
    if es == [] then s == t
    else Enabled(c, s, es[0]) && Run(c, Apply(c, s, es[0]), es[1..], t)
  }

  ghost predicate Reachable(c: Config, s: State) {
    exists es :: Run(c, Init(c), es, s)
  }

  lemma {:induction false} RunConcat(c: Config, s: State, es: seq<Event>, m: State, fs: seq<Event>, t: State)
    requires Run(c, s, es, m) && Run(c, m, fs, t)
    ensures Run(c, s, es + fs, t)
    decreases es
  {
    hide Apply, Enabled;
    if es == [] {
      assert es + fs == fs;
    } else {
      RunConcat(c, Apply(c, s, es[0]), es[1..], m, fs, t);
      assert (es + fs)[1..] == es[1..] + fs;
    }
  }

  lemma RunOne(c: Config, s: State, e: Event)
    requires Enabled(c, s, e)
    ensures Run(c, s, [e], Apply(c, s, e))
  {
    assert [e][1..] == [];
  }
}
