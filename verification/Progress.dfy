/** Progress: the work a published period still needs is a fixed budget, spent one unit at a time by the
    events that complete a stage and by no other, however many sends fail and checks mismatch. */
module Progress {
  import opened Options
  import opened Payloads
  import opened Protocol
  import opened Invariant
  import opened Moves
  import opened TablesKept
  import opened TransactionsKept
  import opened ReconciliationKept
  import opened Runs

  /** What a chunk still needs: a stored hash, and its confirmation. */
  function RowWork(row: ChunkRow): nat {
    (if row.txHash.None? then 1 else 0) + (if row.status == CONFIRMED then 0 else 1)
  }

  function RowsWork(rows: seq<ChunkRow>): nat {
    if rows == [] then 0 else RowsWork(rows[..|rows| - 1]) + RowWork(rows[|rows| - 1])
  }

  /** What the chunks of a period still need; before they exist, their creation too. */
  function ChunkWork(c: Config, chunks: map<Period, seq<ChunkRow>>, p: Period, payload: seq<Update>): nat {
    if p in chunks then RowsWork(chunks[p]) else 1 + 2 * |Slices(payload, c.maxChunk)|
  }

  function BatchWork(b: BatchRow): nat {
    (if b.mirrorApplied then 0 else 1) + (if b.status == CONFIRMED then 0 else 1)
  }

  /** Stages period p has still to go through. */
  function Remaining(c: Config, s: State, p: Period): nat
    requires p in s.batches
  {
    ChunkWork(c, s.chunks, p, s.batches[p].payload) + BatchWork(s.batches[p])
  }

  /** The event completes a stage of p: its chunk rows appear, a hash is stored, a chunk is confirmed, the
      mirror flag is set, the batch is confirmed. */
  predicate Completes(c: Config, s: State, e: Event, p: Period) {
    || (e == EnsureChunks(p) && p !in s.chunks)
    || e == RecordChunk(p)
    || (e.CheckChunk? && e.p == p && Confirms(c, s, e.p, e.j, e.failed))
    || e == MarkMirror(p)
    || e == ConfirmBatch(p)
  }

  predicate Confirms(c: Config, s: State, p: Period, j: nat, failed: bool) {
    && !failed
    && s.tick.ConfirmingChunks? && (p, j) in s.tick.todo && Deep(c, s.txs, s.head, s.tick.todo[(p, j)])
    && p in s.chunks && j < |s.chunks[p]| && s.chunks[p][j].status != CONFIRMED
  }

  lemma {:induction false} RowsWorkUpdate(rows: seq<ChunkRow>, j: nat, row: ChunkRow)
    requires j < |rows|
    ensures RowsWork(rows[j := row]) + RowWork(rows[j]) == RowsWork(rows) + RowWork(row)
  {
    var n := |rows| - 1;
    if j < n {
      RowsWorkUpdate(rows[..n], j, row);
      assert rows[j := row][..n] == rows[..n][j := row];
    } else {
      assert rows[j := row][..n] == rows[..n];
    }
  }

  lemma {:induction false} NewRowsWork(rows: seq<ChunkRow>)
    requires forall j :: 0 <= j < |rows| ==> rows[j] == NewChunk(rows[j].payload)
    ensures RowsWork(rows) == 2 * |rows|
  {
    if rows != [] {
      var n := |rows| - 1;
      assert forall j :: 0 <= j < n ==> rows[..n][j] == NewChunk(rows[..n][j].payload);
      NewRowsWork(rows[..n]);
      assert rows[n] == NewChunk(rows[n].payload);
    }
  }

  /** No work is left in the chunks exactly when all of them are sent and CONFIRMED. */
  lemma {:induction false} RowsDone(rows: seq<ChunkRow>)
    ensures RowsWork(rows) == 0 <==> forall j :: 0 <= j < |rows| ==> rows[j].txHash.Some? && rows[j].status == CONFIRMED
  {
    if rows != [] {
      var n := |rows| - 1;
      RowsDone(rows[..n]);
      assert forall j :: 0 <= j < n ==> rows[..n][j] == rows[j];
    }
  }

  // ---- One event ----

  function Spent(c: Config, s: State, e: Event, p: Period): nat {
    if Completes(c, s, e, p) then 1 else 0
  }

  lemma EnsuringSpends(c: Config, s: State, q: Period, p: Period)
    requires Inv(c, s) && Enabled(c, s, EnsureChunks(q)) && p in s.batches
    ensures ChunkWork(c, Apply(c, s, EnsureChunks(q)).chunks, p, s.batches[p].payload) + Spent(c, s, EnsureChunks(q), p)
         == ChunkWork(c, s.chunks, p, s.batches[p].payload)
  {
    hide Apply, Enabled, Slices;
    EnsuredRows(c, s, q);
    if p == q && p !in s.chunks {
      NewRowsWork(Apply(c, s, EnsureChunks(q)).chunks[p]);
    }
  }

  /** The row whose hash is in hand is pending and has none stored. */
  lemma RowInHand(c: Config, s: State, q: Period)
    requires Inv(c, s) && q in s.pub && s.pub[q].Recording?
    ensures q in s.chunks && s.pub[q].next < |s.chunks[q]|
    ensures s.chunks[q][s.pub[q].next].txHash.None? && s.chunks[q][s.pub[q].next].status != CONFIRMED
  {
    assert PublisherOk(s.views, s.batches, s.chunks, q, s.pub[q]);
    assert ChunkSent(s.chunks, s.pub, s.txs, q, s.pub[q].next);
  }

  lemma RecordingSpends(c: Config, s: State, q: Period, p: Period)
    requires Inv(c, s) && Enabled(c, s, RecordChunk(q)) && p in s.batches
    ensures ChunkWork(c, Apply(c, s, RecordChunk(q)).chunks, p, s.batches[p].payload) + Spent(c, s, RecordChunk(q), p)
         == ChunkWork(c, s.chunks, p, s.batches[p].payload)
  {
    hide Apply, Enabled, Slices, Inv;
    AfterRecordChunk(c, s, q);
    RowInHand(c, s, q);
    var j := s.pub[q].next;
    var row := s.chunks[q][j];
    RowsWorkUpdate(s.chunks[q], j, row.(txHash := Some(s.pub[q].tx), status := PENDING));
  }

  lemma FailingSpends(c: Config, s: State, q: Period, p: Period)
    requires Inv(c, s) && Enabled(c, s, FailSend(q)) && p in s.batches
    ensures ChunkWork(c, Apply(c, s, FailSend(q)).chunks, p, s.batches[p].payload)
         == ChunkWork(c, s.chunks, p, s.batches[p].payload)
  {
    hide Apply, Enabled, Slices;
    AfterFailSend(c, s, q);
    var j := s.pub[q].next;
    assert PublisherOk(s.views, s.batches, s.chunks, q, s.pub[q]);
    assert ChunkSent(s.chunks, s.pub, s.txs, q, j);
    RowsWorkUpdate(s.chunks[q], j, s.chunks[q][j].(status := FAILED));
  }

  lemma CheckingSpends(c: Config, s: State, q: Period, i: nat, failed: bool, p: Period)
    requires Inv(c, s) && Enabled(c, s, CheckChunk(q, i, failed)) && p in s.batches
    ensures ChunkWork(c, Apply(c, s, CheckChunk(q, i, failed)).chunks, p, s.batches[p].payload)
            + Spent(c, s, CheckChunk(q, i, failed), p)
         == ChunkWork(c, s.chunks, p, s.batches[p].payload)
  {
    hide Apply, Enabled, Slices, Deep;
    AfterCheckChunk(c, s, q, i, failed);
    var t := s.tick.todo[(q, i)];
    RowsWorkUpdate(s.chunks[q], i, s.chunks[q][i].(status := CONFIRMED, blockNumber := if t in s.txs then s.txs[t].block else None));
    assert Deep(c, s.txs, s.head, t) ==> t in s.txs by { DeepIsKnown(c, s, t); }
  }

  lemma DeepIsKnown(c: Config, s: State, t: TxId)
    ensures Deep(c, s.txs, s.head, t) ==> t in s.txs
  {
  }

  /** Chunk work falls by one when the event completes a chunk stage, and not otherwise. */
  lemma ChunkWorkSpent(c: Config, s: State, e: Event, p: Period)
    requires Inv(c, s) && Enabled(c, s, e) && p in s.batches
    ensures ChunkWork(c, Apply(c, s, e).chunks, p, s.batches[p].payload)
            + (if e == MarkMirror(p) || e == ConfirmBatch(p) then 0 else Spent(c, s, e, p))
         == ChunkWork(c, s.chunks, p, s.batches[p].payload)
  {
    hide Apply, Enabled, Inv, Slices, ChunkWork, Confirms, Deep;
    if e.EnsureChunks? {
      EnsuringSpends(c, s, e.p, p);
    } else if e.RecordChunk? {
      RecordingSpends(c, s, e.p, p);
    } else if e.FailSend? {
      FailingSpends(c, s, e.p, p);
    } else if e.CheckChunk? {
      CheckingSpends(c, s, e.p, e.j, e.failed, p);
    } else {
      OthersUntouched(c, s, e);
    }
  }

  lemma BatchWorkSpent(c: Config, s: State, e: Event, p: Period)
    requires Inv(c, s) && Enabled(c, s, e) && p in s.batches
    ensures p in Apply(c, s, e).batches && Apply(c, s, e).batches[p].payload == s.batches[p].payload
    ensures BatchWork(Apply(c, s, e).batches[p]) + (if e == MarkMirror(p) || e == ConfirmBatch(p) then 1 else 0)
         == BatchWork(s.batches[p])
  {
    hide Apply, Enabled;
    BatchRowsMove(c, s, e);
    if e == MarkMirror(p) {
      AfterMarkMirror(c, s, p);
      assert TaskOk(s.batches, RowsOf(s.chunks, p), p, s.tick.tasks[p]);
    } else if e == ConfirmBatch(p) {
      AfterConfirmBatch(c, s, p);
      assert TaskOk(s.batches, RowsOf(s.chunks, p), p, s.tick.tasks[p]);
    }
  }

  /** Every event spends exactly one unit of a period's budget if it completes a stage of that period, and
      nothing otherwise. */
  lemma EventSpends(c: Config, s: State, e: Event, p: Period)
    requires Inv(c, s) && Enabled(c, s, e) && p in s.batches
    ensures p in Apply(c, s, e).batches
    ensures Remaining(c, Apply(c, s, e), p) + Spent(c, s, e, p) == Remaining(c, s, p)
  {
    hide Apply, Enabled, Inv, ChunkWork, BatchWork;
    ChunkWorkSpent(c, s, e, p);
    BatchWorkSpent(c, s, e, p);
  }

  // ---- Runs ----

  /** The number of events of the run that complete a stage of p. */
  ghost function Completed(c: Config, s: State, es: seq<Event>, p: Period): nat
    decreases es
  {
    if es == [] || !Enabled(c, s, es[0]) then 0
    else Spent(c, s, es[0], p) + Completed(c, Apply(c, s, es[0]), es[1..], p)
  }

  lemma {:induction false} RunSpends(c: Config, s: State, es: seq<Event>, t: State, p: Period)
    requires Inv(c, s) && Run(c, s, es, t) && p in s.batches
    ensures p in t.batches && Completed(c, s, es, p) + Remaining(c, t, p) == Remaining(c, s, p)
    decreases es
  {
    hide Apply, Enabled, Inv, Remaining, Spent;
    if es != [] {
      EventKeepsInv(c, s, es[0]);
      EventSpends(c, s, es[0], p);
      RunSpends(c, Apply(c, s, es[0]), es[1..], t, p);
    }
  }

  lemma NothingLeft(c: Config, s: State, p: Period)
    requires Inv(c, s) && p in s.batches
    ensures Remaining(c, s, p) == 0 <==> s.batches[p].status == CONFIRMED
  {
    assert StatusOk(s.batches, RowsOf(s.chunks, p), p);
    if s.batches[p].status == CONFIRMED {
      forall j: nat | j < |s.chunks[p]| ensures s.chunks[p][j].txHash.Some? {
        assert ChunkSent(s.chunks, s.pub, s.txs, p, j);
      }
      RowsDone(s.chunks[p]);
    }
  }

  /** The exact budget. Over any run from a reachable state, the stages completed for a period are exactly
      the difference in what remains: never more than remained at the start, so failed sends, resumed
      publications and mismatched checks may repeat without bound but stages cannot; and the period ends
      CONFIRMED exactly when every remaining stage has been completed. */
  lemma ExactBudget(c: Config, s: State, es: seq<Event>, t: State, p: Period)
    requires Reachable(c, s) && Run(c, s, es, t) && p in s.batches
    ensures p in t.batches && Completed(c, s, es, p) + Remaining(c, t, p) == Remaining(c, s, p)
    ensures Completed(c, s, es, p) == Remaining(c, s, p) <==> t.batches[p].status == CONFIRMED
  {
    hide Apply, Enabled, Inv, Remaining;
    ReachableInv(c, s);
    RunSpends(c, s, es, t, p);
    RunKeepsInv(c, s, es, t);
    NothingLeft(c, t, p);
  }

  /** A new batch row of n chunks has exactly 2n + 3 stages before it. */
  lemma FullBudget(c: Config, s: State, p: Period)
    requires Reachable(c, s) && Enabled(c, s, EnsureBatch(p)) && p !in s.batches
    ensures p in Apply(c, s, EnsureBatch(p)).batches
    ensures Remaining(c, Apply(c, s, EnsureBatch(p)), p)
         == 2 * |Slices(Apply(c, s, EnsureBatch(p)).batches[p].payload, c.maxChunk)| + 3
  {
    ReachableInv(c, s);
    hide Apply, Enabled;
    AfterEnsureBatch(c, s, p);
    OthersUntouched(c, s, EnsureBatch(p));
    assert PublisherOk(s.views, s.batches, s.chunks, p, s.pub[p]);
  }
}
