/** Publishing a period again: what an unsent chunk waits for, and how the same counts get published twice
    when a send goes unrecorded or a frozen period gains a view. */
module Repeats {
  import opened Options
  import opened Payloads
  import N = NotaryContract
  import opened Protocol
  import opened Invariant
  import opened Moves
  import opened TablesKept
  import opened TransactionsKept
  import opened ReconciliationKept
  import opened Runs
  import opened Conservation
  import opened Convergence
  import opened Faults
  import opened Withheld

  // ---- Publishing again ----

  /** An event of the sending loop of p. */
  predicate SendEvent(e: Event, p: Period) {
    (e.SkipSent? || e.SendChunk? || e.RecordChunk? || e.FailSend? || e.EndPublish?) && e.p == p
  }

  predicate OwnSends(es: seq<Event>, p: Period) {
    forall i :: 0 <= i < |es| ==> SendEvent(es[i], p)
  }

  /** One turn of the sending loop that sends nothing: the chunk is skipped, or the gateway refuses it. */
  lemma PassOne(c: Config, s: State, p: Period) returns (e: Event)
    requires InSending(s, p) && p in s.chunks && |s.pub[p].rows| == |s.chunks[p]|
    ensures Enabled(c, s, e) && SendEvent(e, p)
    ensures var t := Apply(c, s, e);
            && t.txs == s.txs && t.chain == s.chain && t.batches == s.batches
            && p in t.chunks && |t.chunks[p]| == |s.chunks[p]|
            && p in t.pub && t.pub[p] == Sending(s.pub[p].rows, s.pub[p].next + 1, s.pub[p].txSet)
  {
    hide Enabled, Apply;
    e := if s.pub[p].rows[s.pub[p].next].txHash.Some? then SkipSent(p) else FailSend(p);
    AfterSkipSent(c, s, p);
    AfterFailSend(c, s, p);
  }

  lemma {:induction false} PassTo(c: Config, s: State, p: Period, k: nat) returns (es: seq<Event>, t: State)
    requires p in s.pub && s.pub[p].Sending? && s.pub[p].next <= k <= |s.pub[p].rows|
    requires p in s.chunks && |s.pub[p].rows| == |s.chunks[p]|
    ensures Run(c, s, es, t) && OwnSends(es, p) && t.txs == s.txs && t.chain == s.chain && t.batches == s.batches
    ensures p in t.pub && t.pub[p] == Sending(s.pub[p].rows, k, s.pub[p].txSet)
    ensures p in t.chunks && |t.chunks[p]| == |s.chunks[p]|
    decreases k - s.pub[p].next
  {
    hide Enabled, Apply;
    if s.pub[p].next == k {
      es, t := [], s;
    } else {
      var e := PassOne(c, s, p);
      var rest;
      rest, t := PassTo(c, Apply(c, s, e), p, k);
      es := [e] + rest;
      assert es[1..] == rest;
    }
  }

  /** The part of a publication before the sends, on a period that has its batch row. */
  lemma StartAgain(c: Config, s: State, p: Period, u: seq<Update>, rows: seq<ChunkRow>) returns (es: seq<Event>, t: State)
    requires p !in s.pub && p in s.batches
    requires IsAggregate(u, s.views, p) && u != [] && SortByAsset(u) == u
    requires EnsureRows(RowsOf(s.chunks, p), Slices(u, c.maxChunk)) == rows
    ensures Run(c, s, es, t)
    ensures t.txs == s.txs && t.chain == s.chain && t.batches == s.batches && p in t.chunks && t.chunks[p] == rows
    ensures p in t.pub && t.pub[p] == Sending(rows, 0, s.batches[p].txHash.Some?)
  {
    hide Enabled, Apply, IsAggregate, SortByAsset, EnsureRows, Slices;
    AfterReadAggregates(c, s, p, u);
    var s1 := Apply(c, s, ReadAggregates(p, u));
    AfterEnsureBatch(c, s1, p);
    var s2 := Apply(c, s1, EnsureBatch(p));
    AfterEnsureChunks(c, s2, p);
    var s3 := Apply(c, s2, EnsureChunks(p));
    AfterLoadChunks(c, s3, p);
    t := Apply(c, s3, LoadChunks(p));
    es := [ReadAggregates(p, u), EnsureBatch(p), EnsureChunks(p), LoadChunks(p)];
    FourSteps(c, s, s1, s2, s3, t, es);
  }

  lemma PlanIsAggregate(u: seq<Update>, views: seq<View>, p: Period)
    requires IsPlan(u, views, p)
    ensures IsAggregate(u, views, p)
  {
  }

  lemma FourSteps(c: Config, s0: State, s1: State, s2: State, s3: State, s4: State, es: seq<Event>)
    requires |es| == 4
    requires Enabled(c, s0, es[0]) && Apply(c, s0, es[0]) == s1
    requires Enabled(c, s1, es[1]) && Apply(c, s1, es[1]) == s2
    requires Enabled(c, s2, es[2]) && Apply(c, s2, es[2]) == s3
    requires Enabled(c, s3, es[3]) && Apply(c, s3, es[3]) == s4
    ensures Run(c, s0, es, s4)
  {
    hide Enabled, Apply;
    assert es == ([es[0]] + [es[1]]) + ([es[2]] + [es[3]]);
    RunOne(c, s0, es[0]);
    RunOne(c, s1, es[1]);
    RunOne(c, s2, es[2]);
    RunOne(c, s3, es[3]);
    RunConcat(c, s0, [es[0]], s1, [es[1]], s2);
    RunConcat(c, s2, [es[2]], s3, [es[3]], s4);
    RunConcat(c, s0, [es[0]] + [es[1]], s2, [es[2]] + [es[3]], s4);
  }

  /** Started like that, the publication passes the first j chunks and sends the next, which has no hash. */
  lemma SendAfterStart(c: Config, s: State, p: Period, u: seq<Update>, rows: seq<ChunkRow>, j: nat, tx: TxId)
    returns (es: seq<Event>, t: State)
    requires p !in s.pub && p in s.batches
    requires IsAggregate(u, s.views, p) && u != [] && SortByAsset(u) == u
    requires EnsureRows(RowsOf(s.chunks, p), Slices(u, c.maxChunk)) == rows
    requires j < |rows| && rows[j].txHash.None? && tx !in s.txs
    ensures Run(c, s, es, t)
    ensures t.txs == s.txs[tx := Tx(N.PublishBatch(p, rows[j].payload), Some(j), None)] && t.batches == s.batches
    ensures p in t.chunks && |t.chunks[p]| == |rows| && p in t.pub && t.pub[p] == Recording(rows, j, tx, s.batches[p].txHash.Some?)
  {
    hide Enabled, Apply, IsAggregate, SortByAsset, EnsureRows, Slices;
    var es1, s1 := StartAgain(c, s, p, u, rows);
    var es2, s2 := PassTo(c, s1, p, j);
    var e := SendChunk(p, tx);
    AfterSendChunk(c, s2, p, tx);
    t := Apply(c, s2, e);
    RunOne(c, s2, e);
    RunConcat(c, s, es1, s1, es2, s2);
    RunConcat(c, s, es1 + es2, s2, [e], t);
    es := es1 + es2 + [e];
  }

  /** A chunk without a stored hash can always be sent again. */
  lemma SendAgain(c: Config, s: State, p: Period, j: nat, tx: TxId) returns (es: seq<Event>, t: State)
    requires p !in s.pub && p in s.batches && BatchOk(s.views, p, s.batches[p])
    requires p in s.chunks && SamePayloads(s.chunks[p], Slices(s.batches[p].payload, c.maxChunk))
    requires j < |s.chunks[p]| && s.chunks[p][j].txHash.None? && tx !in s.txs
    ensures Run(c, s, es, t)
    ensures t.txs == s.txs[tx := Tx(N.PublishBatch(p, s.chunks[p][j].payload), Some(j), None)] && t.batches == s.batches
    ensures p in t.chunks && |t.chunks[p]| == |s.chunks[p]|
    ensures p in t.pub && t.pub[p] == Recording(s.chunks[p], j, tx, s.batches[p].txHash.Some?)
  {
    var u := s.batches[p].payload;
    PlanIsAggregate(u, s.views, p);
    ReaggregationIsStable(u, s.views, p);
    PlansAgree(SortByAsset(u), u, s.views, p);
    es, t := SendAfterStart(c, s, p, u, s.chunks[p], j, tx);
  }

  /** An unrecorded send repeats. In every reachable state with a chunk sent and its hash not yet written, a
      crash leaves a system that can send the same payload a second time, against the promise that
      a restart continues without duplicating counts. */
  lemma UnrecordedSendRepeats(c: Config, s: State, p: Period, tx: TxId) returns (es: seq<Event>, t: State)
    requires Reachable(c, s) && p in s.pub && s.pub[p].Recording? && tx !in s.txs
    ensures Run(c, Crashed(s), es, t)
    ensures s.pub[p].tx in t.txs && tx in t.txs && tx != s.pub[p].tx
    ensures t.txs[s.pub[p].tx].call == t.txs[tx].call && t.txs[tx].call.PublishBatch?
  {
    ReachableInv(c, s);
    InHandIsKnown(c, s, p);
    var j := s.pub[p].next;
    assert BatchOk(s.views, p, s.batches[p]) && SamePayloads(s.chunks[p], Slices(s.batches[p].payload, c.maxChunk));
    CrashKeepsCalls(s, s.pub[p].tx);
    hide Inv, Reachable, BatchOk, Slices, Enabled, Apply;
    es, t := SendAgain(c, Crashed(s), p, j, tx);
  }

  lemma CrashKeepsCalls(s: State, t: TxId)
    requires t in s.txs
    ensures Crashed(s).txs.Keys == s.txs.Keys && Crashed(s).txs[t].call == s.txs[t].call
  {
  }

  // ---- A stop in the middle of a publication ----

  /** The chunk has no hash, and no publication of its period is running. */
  predicate Unsent(s: State, p: Period, j: nat) {
    p !in s.pub && HasRow(s.chunks, p, j) && s.chunks[p][j].txHash.None?
  }

  /** No publication of p starts. */
  predicate NoPublication(es: seq<Event>, p: Period) {
    forall i :: 0 <= i < |es| ==> !(es[i].ReadAggregates? && es[i].p == p)
  }

  lemma PublisherNeedsStart(s: State, e: Event)
    requires PublisherEvent(e) && PublisherCan(s, e) && !e.ReadAggregates?
    ensures e.p in s.pub
  {
  }

  lemma UnsentKept(c: Config, s: State, e: Event, p: Period, j: nat)
    requires Core(c, s) && Enabled(c, s, e) && Unsent(s, p, j) && !(e.ReadAggregates? && e.p == p)
    ensures Unsent(Apply(c, s, e), p, j)
  {
    hide Apply, Enabled;
    RowMove(c, s, e, p, j);
    OthersUntouched(c, s, e);
    if PublisherEvent(e) {
      AfterPublisherEvent(c, s, e);
      if !e.ReadAggregates? { PublisherNeedsStart(s, e); }
      PublishersAfter(c, s, e);
    }
  }

  lemma UnsentPending(c: Config, s: State, p: Period, j: nat)
    requires Core(c, s) && Unsent(s, p, j)
    ensures p in s.batches && s.batches[p].status == PENDING && !s.batches[p].mirrorApplied
  {
    assert ChunkSent(s.chunks, s.pub, s.txs, p, j);
    assert StatusOk(s.batches, RowsOf(s.chunks, p), p);
  }

  lemma {:induction false} RunKeepsUnsent(c: Config, s: State, es: seq<Event>, t: State, p: Period, j: nat)
    requires Core(c, s) && Unsent(s, p, j) && Run(c, s, es, t) && NoPublication(es, p)
    ensures Unsent(t, p, j) && Core(c, t)
    decreases es
  {
    hide Apply, Enabled, Core, Unsent;
    if es != [] {
      EventKeepsCore(c, s, es[0]);
      UnsentKept(c, s, es[0], p, j);
      assert NoPublication(es[1..], p);
      RunKeepsUnsent(c, Apply(c, s, es[0]), es[1..], t, p, j);
    }
  }

  lemma SendAndRecord(c: Config, s: State, p: Period, j: nat) returns (es: seq<Event>, t: State)
    requires p !in s.pub && p in s.batches && BatchOk(s.views, p, s.batches[p])
    requires p in s.chunks && SamePayloads(s.chunks[p], Slices(s.batches[p].payload, c.maxChunk))
    requires j < |s.chunks[p]| && s.chunks[p][j].txHash.None?
    ensures Run(c, s, es, t) && HasRow(t.chunks, p, j) && t.chunks[p][j].txHash.Some?
  {
    hide Enabled, Apply, Slices, BatchOk;
    var tx := FreshId(s.txs.Keys);
    var xs, m := SendAgain(c, s, p, j, tx);
    AfterRecordChunk(c, m, p);
    t := Apply(c, m, RecordChunk(p));
    RunOne(c, m, RecordChunk(p));
    RunConcat(c, s, xs, m, [RecordChunk(p)], t);
    es := xs + [RecordChunk(p)];
  }

  /** What a stop in the middle of a publication leaves undone. A chunk not sent before the stop gets its hash in
      some run afterwards, but in no run in which no new publication of its period starts; until then its
      period stays PENDING. So nothing is lost if and only if a publication of the period is started again. */
  lemma StoppedPublicationWaits(c: Config, s: State, p: Period, j: nat)
    requires Reachable(c, s) && HasRow(s.chunks, p, j) && LiveTx(s.chunks, s.pub, p, j).None?
    ensures forall es, t :: Run(c, Crashed(s), es, t) && NoPublication(es, p) ==>
              Unsent(t, p, j) && p in t.batches && t.batches[p].status == PENDING
    ensures exists es, t :: Run(c, Crashed(s), es, t) && HasRow(t.chunks, p, j) && t.chunks[p][j].txHash.Some?
  {
    ReachableInv(c, s);
    assert p in s.batches && BatchOk(s.views, p, s.batches[p]);
    var m := Crashed(s);
    CrashBalances(c, s, 0);
    assert Unsent(m, p, j);
    assert SamePayloads(m.chunks[p], Slices(m.batches[p].payload, c.maxChunk));
    hide Inv, Core, Reachable, Crashed, Unsent, Enabled, Apply, BatchOk, Slices;
    forall es, t | Run(c, m, es, t) && NoPublication(es, p)
      ensures Unsent(t, p, j) && p in t.batches && t.batches[p].status == PENDING
    {
      RunKeepsUnsent(c, m, es, t, p, j);
      UnsentPending(c, t, p, j);
    }
    var es, t := SendAndRecord(c, m, p, j);
  }

  // ---- A late view ----

  /** A view registered in a period whose batch exists already. */
  function LateView(s: State, key: Key, a: Id, p: Period): State {
    s.(views := s.views + [View(key, a, p, false)])
  }

  lemma LatePlan(s: State, key: Key, a: Id, p: Period, b: Id, n: nat)
    requires IsPlan([Update(b, n)], s.views, p) && a < b
    ensures IsPlan([Update(a, 1), Update(b, n)], LateView(s, key, a, p).views, p)
  {
    assert [Update(b, n)][0].views > 0;
    var u := [Update(a, 1), Update(b, n)];
    forall x ensures CountOf(u, x) == ViewCount(LateView(s, key, a, p).views, p, x) {
      ViewCountSnoc(s.views, View(key, a, p, false), p, x);
      assert u == [Update(a, 1)] + [Update(b, n)];
      CountOfConcat([Update(a, 1)], [Update(b, n)], x);
      CountOfOne(Update(a, 1), x);
      CountOfOne(Update(b, n), x);
      assert CountOf([Update(b, n)], x) == ViewCount(s.views, p, x);
    }
  }

  lemma SamePlanIff(u: seq<Update>, v: seq<Update>, before: seq<View>, after: seq<View>, p: Period)
    requires IsPlan(u, before, p) && IsPlan(v, after, p)
    ensures u == v <==> forall a :: ViewCount(after, p, a) == ViewCount(before, p, a)
  {
    if u == v {
      forall a ensures ViewCount(after, p, a) == ViewCount(before, p, a) {
        assert CountOf(u, a) == ViewCount(before, p, a);
      }
    }
    if u != v {
      if forall a :: CountOf(u, a) == CountOf(v, a) {
        PlanUnique(u, v);
      }
      var a :| CountOf(u, a) != CountOf(v, a);
      assert ViewCount(after, p, a) != ViewCount(before, p, a);
    }
  }

  /** Re-aggregating a published period gives the stored payload exactly when no asset's count has changed
      since: a late view of any asset changes the plan. */
  lemma StablePlanIff(c: Config, s: State, p: Period, views: seq<View>, rows: seq<Update>)
    requires Reachable(c, s) && p in s.batches && IsAggregate(rows, views, p)
    ensures SortByAsset(rows) == s.batches[p].payload <==> forall a :: ViewCount(views, p, a) == ViewCount(s.views, p, a)
  {
    hide Reachable, IsAggregate;
    ReachableInv(c, s);
    assert BatchOk(s.views, p, s.batches[p]);
    hide Inv, SortByAsset, IsPlan;
    ReaggregationIsStable(rows, views, p);
    SamePlanIff(s.batches[p].payload, SortByAsset(rows), s.views, views, p);
  }

  lemma TwoSlices(x: Update, y: Update)
    ensures Slices([x, y], 1) == [[x], [y]]
  {
    assert [x, y][..1] == [x] && [x, y][1..] == [y];
    assert Slices([y], 1) == [[y]];
    assert [[x]] + [[y]] == [[x], [y]];
  }

  /** A frozen period must stay frozen. With chunks of one asset, a period whose only chunk carries b and has
      been sent, and a late view of an asset that sorts before b: the next publication cuts two slices,
      keeps the old row for the first, and sends b a second time as the second. */
  lemma LateViewRepeats(c: Config, s: State, p: Period, key: Key, a: Id, b: Id, n: nat, tx: TxId) returns (es: seq<Event>, t: State)
    requires Reachable(c, s) && c.maxChunk == 1
    requires p !in s.pub && p in s.batches && s.batches[p].status == PENDING && s.batches[p].payload == [Update(b, n)]
    requires p in s.chunks && |s.chunks[p]| > 0 && s.chunks[p][0].txHash.Some? && a < b && tx !in s.txs
    ensures Run(c, LateView(s, key, a, p), es, t)
    ensures s.chunks[p][0].txHash.value in t.txs && tx in t.txs && tx != s.chunks[p][0].txHash.value
    ensures t.txs[s.chunks[p][0].txHash.value].call == t.txs[tx].call == N.PublishBatch(p, [Update(b, n)])
  {
    ReachableInv(c, s);
    assert BatchOk(s.views, p, s.batches[p]);
    assert ChunkSent(s.chunks, s.pub, s.txs, p, 0);
    assert Slices([Update(b, n)], 1) == [[Update(b, n)]];
    hide Inv, Reachable;
    es, t := LateRun(c, s, p, key, a, b, n, tx);
  }

  lemma LateRun(c: Config, s: State, p: Period, key: Key, a: Id, b: Id, n: nat, tx: TxId) returns (es: seq<Event>, t: State)
    requires c.maxChunk == 1 && IsPlan([Update(b, n)], s.views, p)
    requires p !in s.pub && p in s.batches && s.batches[p].status == PENDING
    requires p in s.chunks && |s.chunks[p]| == 1 && s.chunks[p][0].txHash.Some? && a < b && tx !in s.txs
    ensures Run(c, LateView(s, key, a, p), es, t)
    ensures t.txs == s.txs[tx := Tx(N.PublishBatch(p, [Update(b, n)]), Some(1), None)]
  {
    var s0 := LateView(s, key, a, p);
    var u := [Update(a, 1), Update(b, n)];
    LatePlan(s, key, a, p, b, n);
    PlanIsAggregate(u, s0.views, p);
    ReaggregationIsStable(u, s0.views, p);
    PlansAgree(SortByAsset(u), u, s0.views, p);
    TwoSlices(Update(a, 1), Update(b, n));
    SecondRow(s.chunks[p], [Update(a, 1)], [Update(b, n)]);
    es, t := SendAfterStart(c, s0, p, u, s.chunks[p] + [NewChunk([Update(b, n)])], 1, tx);
  }

  lemma SecondRow(rows: seq<ChunkRow>, x: seq<Update>, y: seq<Update>)
    requires |rows| == 1
    ensures EnsureRows(rows, [x, y]) == rows + [NewChunk(y)]
  {
    assert [x, y][1..] == [y];
    assert FreshRows([y]) == [NewChunk(y)] by { assert [y][..0] == []; }
  }
}
