/** Runs that overlap: a publication or a tick that works on rows it read before another one changed them.
    Each case comes with the exact condition for the same counts to be published or mirrored twice. */
module Overlaps {
  import opened Options
  import opened Payloads
  import opened Sums
  import N = NotaryContract
  import opened Protocol
  import opened Invariant
  import opened Moves
  import opened TablesKept
  import opened TransactionsKept
  import opened ReconciliationKept
  import opened Runs
  import opened Conservation
  import opened Faults
  import opened Withheld
  import opened Repeats

  // ---- Two publications ----

  /** A second publication of p has loaded these rows and has them all before it. */
  function Behind(t: State, p: Period, rows: seq<ChunkRow>, txSet: bool): State {
    t.(pub := t.pub[p := Sending(rows, 0, txSet)])
  }

  /** Two transactions carry the same call. */
  ghost predicate Twice(txs: map<TxId, Tx>, call: N.Call) {
    exists x, y :: x in txs && y in txs && x != y && txs[x].call == call && txs[y].call == call
  }

  /** What the second publication may do, alone, leads to two transactions with this payload. */
  ghost predicate SendsTwice(c: Config, s: State, p: Period, payload: seq<Update>) {
    exists es, t :: Run(c, s, es, t) && OwnSends(es, p) && Twice(t.txs, N.PublishBatch(p, payload))
  }

  /** How many chunks the publication has behind it. */
  function Reached(s: State, p: Period, rows: seq<ChunkRow>): nat {
    if p !in s.pub then |rows|
    else if s.pub[p].Sending? then s.pub[p].next
    else if s.pub[p].Recording? then s.pub[p].next + 1
    else 0
  }

  predicate OnRows(s: State, p: Period, rows: seq<ChunkRow>) {
    p in s.pub ==> (s.pub[p].Sending? || s.pub[p].Recording?) && s.pub[p].rows == rows && Reached(s, p, rows) <= |rows|
  }

  /** Transaction x is the send of a chunk that had no hash in the rows. */
  predicate NewSend(s: State, x: TxId, p: Period, rows: seq<ChunkRow>) {
    && x in s.txs && s.txs[x].chunk.Some? && s.txs[x].chunk.value < Reached(s, p, rows) && s.txs[x].chunk.value < |rows|
    && rows[s.txs[x].chunk.value].txHash.None?
    && s.txs[x].call == N.PublishBatch(p, rows[s.txs[x].chunk.value].payload)
  }

  /** The second publication so far: one new transaction for each chunk it sent, at most one per chunk. */
  ghost predicate Passed(t: State, u: State, p: Period, rows: seq<ChunkRow>) {
    && OnRows(u, p, rows)
    && (forall x :: x in t.txs ==> x in u.txs && u.txs[x] == t.txs[x])
    && (forall x :: x in u.txs && x !in t.txs ==> NewSend(u, x, p, rows))
    && (forall x, y :: x in u.txs && y in u.txs && x !in t.txs && y !in t.txs && u.txs[x].chunk == u.txs[y].chunk ==> x == y)
  }

  lemma PassedStep(c: Config, t: State, u: State, e: Event, p: Period, rows: seq<ChunkRow>)
    requires Passed(t, u, p, rows) && Enabled(c, u, e) && SendEvent(e, p)
    ensures Passed(t, Apply(c, u, e), p, rows)
  {
    hide Apply, Enabled;
    if e.SkipSent? {
      AfterSkipSent(c, u, p);
    } else if e.SendChunk? {
      AfterSendChunk(c, u, p, e.tx);
    } else if e.RecordChunk? {
      AfterRecordChunk(c, u, p);
    } else if e.FailSend? {
      AfterFailSend(c, u, p);
    } else {
      AfterEndPublish(c, u, p);
    }
  }

  lemma {:induction false} PassedRun(c: Config, t: State, u: State, es: seq<Event>, v: State, p: Period, rows: seq<ChunkRow>)
    requires Passed(t, u, p, rows) && Run(c, u, es, v) && OwnSends(es, p)
    ensures Passed(t, v, p, rows)
    decreases es
  {
    hide Apply, Enabled, Passed;
    if es != [] {
      PassedStep(c, t, u, es[0], p, rows);
      assert OwnSends(es[1..], p);
      PassedRun(c, t, Apply(c, u, es[0]), es[1..], v, p, rows);
    }
  }

  /** The rows are those of the period's plan, as they are still. */
  ghost predicate PlanRows(c: Config, t: State, p: Period, rows: seq<ChunkRow>) {
    && p in t.chunks && p in t.batches && BatchOk(t.views, p, t.batches[p])
    && SamePayloads(rows, Slices(t.batches[p].payload, c.maxChunk))
    && |rows| == |t.chunks[p]| && forall j :: 0 <= j < |rows| ==> rows[j].payload == t.chunks[p][j].payload
  }

  lemma LoadedRowsStay(c: Config, s: State, es: seq<Event>, t: State, p: Period)
    requires Inv(c, s) && Run(c, s, es, t) && p in s.pub && s.pub[p].Sending? && s.pub[p].next == 0
    ensures Inv(c, t) && PlanRows(c, t, p, s.pub[p].rows)
  {
    hide Apply, Enabled;
    RunKeepsPlan(c, s, es, t, p);
    RunKeepsInv(c, s, es, t);
    assert PublisherOk(s.views, s.batches, s.chunks, p, s.pub[p]);
    assert p in t.batches && BatchOk(t.views, p, t.batches[p]);
  }

  lemma SamePayloadSameChunk(c: Config, t: State, p: Period, rows: seq<ChunkRow>, i: nat, j: nat)
    requires PlanRows(c, t, p, rows) && i < |rows| && j < |rows| && rows[i].payload == rows[j].payload
    ensures i == j
  {
    SlicesDistinct(t.batches[p].payload, c.maxChunk, i, j);
  }

  lemma OldSendIsStored(c: Config, t: State, p: Period, rows: seq<ChunkRow>, k: nat, x: TxId)
    requires Inv(c, t) && PlanRows(c, t, p, rows) && k < |rows| && p !in t.pub
    requires x in t.txs && t.txs[x].call == N.PublishBatch(p, rows[k].payload)
    ensures t.chunks[p][k].txHash.Some?
  {
    assert Owned(t.chunks, t.pub, t.txs, x);
    var j := t.txs[x].chunk.value;
    assert ChunkSent(t.chunks, t.pub, t.txs, p, j);
    SamePayloadSameChunk(c, t, p, rows, j, k);
  }

  lemma TwiceMeans(c: Config, t: State, v: State, p: Period, rows: seq<ChunkRow>, k: nat)
    requires Reachable(c, t) && PlanRows(c, t, p, rows) && k < |rows| && p !in t.pub
    requires Passed(t, v, p, rows) && Twice(v.txs, N.PublishBatch(p, rows[k].payload))
    ensures rows[k].txHash.None? && t.chunks[p][k].txHash.Some?
  {
    ReachableInv(c, t);
    hide Inv, Reachable;
    var call := N.PublishBatch(p, rows[k].payload);
    var x, y :| x in v.txs && y in v.txs && x != y && v.txs[x].call == call && v.txs[y].call == call;
    if x in t.txs && y in t.txs {
      AtMostOnceSending(c, t, x, y);
    } else if x !in t.txs && y !in t.txs {
      assert NewSend(v, x, p, rows) && NewSend(v, y, p, rows);
      SamePayloadSameChunk(c, t, p, rows, v.txs[x].chunk.value, v.txs[y].chunk.value);
    } else {
      var old_, new_ := if x in t.txs then x else y, if x in t.txs then y else x;
      assert NewSend(v, new_, p, rows);
      SamePayloadSameChunk(c, t, p, rows, v.txs[new_].chunk.value, k);
      OldSendIsStored(c, t, p, rows, k, old_);
    }
  }

  lemma StoredIsSent(c: Config, t: State, p: Period, rows: seq<ChunkRow>, k: nat)
    requires Inv(c, t) && PlanRows(c, t, p, rows) && k < |rows| && t.chunks[p][k].txHash.Some?
    ensures var x := t.chunks[p][k].txHash.value; x in t.txs && t.txs[x].call == N.PublishBatch(p, rows[k].payload)
  {
    assert ChunkSent(t.chunks, t.pub, t.txs, p, k);
  }

  lemma SecondSend(c: Config, t: State, p: Period, rows: seq<ChunkRow>, txSet: bool, k: nat)
    requires Inv(c, t) && PlanRows(c, t, p, rows) && k < |rows| && p !in t.pub
    requires rows[k].txHash.None? && t.chunks[p][k].txHash.Some?
    ensures SendsTwice(c, Behind(t, p, rows, txSet), p, rows[k].payload)
  {
    hide Apply, Enabled, Inv, PlanRows, OwnSends;
    StoredIsSent(c, t, p, rows, k);
    SameLength(c, t, p, rows);
    var u := Behind(t, p, rows, txSet);
    var es, m := PassTo(c, u, p, k);
    var tx := FreshId(m.txs.Keys);
    AfterSendChunk(c, m, p, tx);
    var v := Apply(c, m, SendChunk(p, tx));
    RunOne(c, m, SendChunk(p, tx));
    RunConcat(c, u, es, m, [SendChunk(p, tx)], v);
    OneMoreSend(es, p, tx);
    assert v.txs[t.chunks[p][k].txHash.value].call == v.txs[tx].call == N.PublishBatch(p, rows[k].payload);
  }

  lemma OneMoreSend(es: seq<Event>, p: Period, tx: TxId)
    requires OwnSends(es, p)
    ensures OwnSends(es + [SendChunk(p, tx)], p)
  {
  }

  lemma SameLength(c: Config, t: State, p: Period, rows: seq<ChunkRow>)
    requires PlanRows(c, t, p, rows)
    ensures p in t.chunks && |rows| == |t.chunks[p]|
  {
  }

  lemma NothingPassed(t: State, p: Period, rows: seq<ChunkRow>, txSet: bool)
    ensures Passed(t, Behind(t, p, rows, txSet), p, rows)
  {
  }

  /** Overlapping publications, exactly. Two publications of p have loaded the same rows in s; one of them, and
      whatever else happens, leads to t, where it has ended; then the other one goes through its rows. It can
      send chunk k a second time if and only if its row had no hash when loaded and the table's row has one. */
  lemma OverlapSendsTwiceIff(c: Config, s: State, es: seq<Event>, t: State, p: Period, k: nat)
    requires Reachable(c, s) && p in s.pub && s.pub[p].Sending? && s.pub[p].next == 0 && k < |s.pub[p].rows|
    requires Run(c, s, es, t) && p !in t.pub
    ensures HasRow(t.chunks, p, k)
    ensures var rows := s.pub[p].rows;
            SendsTwice(c, Behind(t, p, rows, s.pub[p].txSet), p, rows[k].payload)
            <==> rows[k].txHash.None? && t.chunks[p][k].txHash.Some?
  {
    hide Apply, Enabled, Inv, Reachable, PlanRows, Passed, Twice;
    var rows, txSet := s.pub[p].rows, s.pub[p].txSet;
    ReachableInv(c, s);
    LoadedRowsStay(c, s, es, t, p);
    SameLength(c, t, p, rows);
    ReachableOn(c, s, es, t);
    if rows[k].txHash.None? && t.chunks[p][k].txHash.Some? {
      SecondSend(c, t, p, rows, txSet, k);
    } else if SendsTwice(c, Behind(t, p, rows, txSet), p, rows[k].payload) {
      var fs, v :| Run(c, Behind(t, p, rows, txSet), fs, v) && OwnSends(fs, p) && Twice(v.txs, N.PublishBatch(p, rows[k].payload));
      NothingPassed(t, p, rows, txSet);
      PassedRun(c, t, Behind(t, p, rows, txSet), fs, v, p, rows);
      TwiceMeans(c, t, v, p, rows, k);
    }
  }

  // ---- Two ticks ----

  /** A second tick has read this batch row and is about to finalise its period. */
  function BehindTick(t: State, p: Period, b: BatchRow): State {
    t.(tick := Finalising(map[p := Loading(b)]))
  }

  predicate OwnEvents(es: seq<Event>, p: Period) {
    forall i :: 0 <= i < |es| ==> TaskEvent(es[i]) && es[i].p == p
  }

  /** What the second tick may do, alone, brings some mirror above the counts it should hold. */
  ghost predicate MirrorsTwice(c: Config, s: State, p: Period) {
    exists es, t, a :: Run(c, s, es, t) && OwnEvents(es, p) && InMirror(t, a) > MirroredSum(t, a)
  }

  /** The mirror flag is never taken back. */
  lemma {:induction false} RunKeepsFlag(c: Config, s: State, es: seq<Event>, t: State, p: Period)
    requires Run(c, s, es, t) && p in s.batches && s.batches[p].mirrorApplied
    ensures p in t.batches && t.batches[p].mirrorApplied
    decreases es
  {
    hide Apply, Enabled;
    if es != [] {
      BatchRowsMove(c, s, es[0]);
      RunKeepsFlag(c, Apply(c, s, es[0]), es[1..], t, p);
    }
  }

  /** The second tick found the flag set: it only reads, confirms and anchors. */
  ghost predicate OnlyChecks(t: State, u: State, p: Period) {
    && u.assets == t.assets && u.batches.Keys == t.batches.Keys && p in u.batches && u.batches[p].mirrorApplied
    && (forall q :: q in t.batches ==>
          u.batches[q].payload == t.batches[q].payload && u.batches[q].mirrorApplied == t.batches[q].mirrorApplied)
    && u.tick.Finalising? && u.tick.tasks.Keys == {p} && !u.tick.tasks[p].Mirroring?
    && (u.tick.tasks[p].Loading? ==> u.tick.tasks[p].b.mirrorApplied)
  }

  lemma OnlyChecksStep(c: Config, t: State, u: State, e: Event, p: Period)
    requires OnlyChecks(t, u, p) && Enabled(c, u, e) && TaskEvent(e) && e.p == p
    ensures OnlyChecks(t, Apply(c, u, e), p)
  {
    hide Apply, Enabled;
    if e.LoadPeriod? {
      AfterLoadPeriod(c, u, p);
    } else if e.ReadChain? {
      AfterReadingChain(c, u, p);
    } else if e.ReadMirror? {
      AfterReadingMirror(c, u, p);
    } else if e.ConfirmBatch? {
      AfterConfirmBatch(c, u, p);
    } else if e.AnchorViews? {
      AfterAnchor(c, u, p);
    } else if e.FailPeriod? {
      AfterFailPeriod(c, u, p);
    } else if e.MirrorOne? {
      AfterMirrorOne(c, u, p);
    } else {
      AfterMarkMirror(c, u, p);
    }
  }

  lemma {:induction false} OnlyChecksRun(c: Config, t: State, u: State, es: seq<Event>, v: State, p: Period)
    requires OnlyChecks(t, u, p) && Run(c, u, es, v) && OwnEvents(es, p)
    ensures OnlyChecks(t, v, p)
    decreases es
  {
    hide Apply, Enabled, OnlyChecks;
    if es != [] {
      OnlyChecksStep(c, t, u, es[0], p);
      assert OwnEvents(es[1..], p);
      OnlyChecksRun(c, t, Apply(c, u, es[0]), es[1..], v, p);
    }
  }

  lemma OnlyChecksSums(t: State, u: State, p: Period, a: Id)
    requires t.tick.Idle? && OnlyChecks(t, u, p)
    ensures InMirror(u, a) == InMirror(t, a) && MirroredSum(u, a) == MirroredSum(t, a)
  {
    MapSumSame(MirroredBy(t.batches, t.tick, a), MirroredBy(u.batches, u.tick, a));
  }

  lemma FreshTickAnchors(c: Config, t: State, p: Period, b: BatchRow)
    requires Inv(c, t) && t.tick.Idle?
    ensures AnchorInv(t.views, t.batches, BehindTick(t, p, b).tick)
  {
    forall i | 0 <= i < |t.views| ensures AnchorOk(t.batches, BehindTick(t, p, b).tick, t.views[i]) {
      assert AnchorOk(t.batches, t.tick, t.views[i]);
    }
  }

  lemma FreshTickSums(c: Config, t: State, p: Period, b: BatchRow)
    requires Inv(c, t) && t.tick.Idle?
    ensures MirrorCountInv(t.assets, t.batches, BehindTick(t, p, b).tick)
  {
    var tick := BehindTick(t, p, b).tick;
    assert MirrorCountInv(t.assets, t.batches, t.tick);
    hide Inv;
    forall a ensures Mirror(t.assets, a) == MapSum(MirroredBy(t.batches, tick, a)) {
      MapSumSame(MirroredBy(t.batches, t.tick, a), MirroredBy(t.batches, tick, a));
    }
  }

  /** A tick that finds what is in the table is an ordinary tick. */
  lemma FreshTickIsLawful(c: Config, t: State, p: Period, b: BatchRow)
    requires Inv(c, t) && t.tick.Idle? && p in t.batches && !t.batches[p].mirrorApplied
    requires b.payload == t.batches[p].payload && !b.mirrorApplied
    ensures Inv(c, BehindTick(t, p, b))
  {
    assert StatusOk(t.batches, RowsOf(t.chunks, p), p);
    FreshTickAnchors(c, t, p, b);
    FreshTickSums(c, t, p, b);
    hide ViewsInv, BatchesInv, ChunksInv, PublishersInv, SentInv, OwnedInv, NotarizationInv, ChainInv, BlocksInv, StatusInv, DepthInv,
      NoOrphans, RegistryInv, AnchorInv, ChainCountInv, MirrorCountInv;
  }

  /** The rest of a mirror loop, wherever it stands. */
  lemma {:induction false} MirrorRest(c: Config, s: State, p: Period) returns (es: seq<Event>, t: State)
    requires InTask(s, p) && s.tick.tasks[p].Mirroring? && s.tick.tasks[p].next <= |s.tick.tasks[p].payload|
    requires forall i :: 0 <= i < |s.tick.tasks[p].payload| ==> s.tick.tasks[p].payload[i].asset in s.assets
    ensures Run(c, s, es, t) && OwnEvents(es, p) && t.batches == s.batches
    ensures t.tick.Finalising? && t.tick.tasks.Keys == s.tick.tasks.Keys
    ensures forall a :: InMirror(t, a) == InMirror(s, a) + CountOf(s.tick.tasks[p].payload[s.tick.tasks[p].next..], a)
    decreases |s.tick.tasks[p].payload| - s.tick.tasks[p].next
  {
    var u, k := s.tick.tasks[p].payload, s.tick.tasks[p].next;
    if k == |u| {
      es, t := [], s;
    } else {
      var m := MirrorStep(c, s, p);
      var rest;
      rest, t := MirrorRest(c, m, p);
      es := [MirrorOne(p)] + rest;
      assert es[1..] == rest;
      forall a ensures InMirror(t, a) == InMirror(s, a) + CountOf(u[k..], a) {
        CountOfSplit(u, k, a);
      }
    }
  }

  lemma MirrorStep(c: Config, s: State, p: Period) returns (t: State)
    requires InTask(s, p) && s.tick.tasks[p].Mirroring? && s.tick.tasks[p].next < |s.tick.tasks[p].payload|
    requires s.tick.tasks[p].payload[s.tick.tasks[p].next].asset in s.assets
    ensures Enabled(c, s, MirrorOne(p)) && t == Apply(c, s, MirrorOne(p))
    ensures t.assets.Keys == s.assets.Keys && t.batches == s.batches
    ensures InTask(t, p) && t.tick.tasks.Keys == s.tick.tasks.Keys && t.tick.tasks[p]
         == Mirroring(s.tick.tasks[p].payload, s.tick.tasks[p].block, s.tick.tasks[p].next + 1)
    ensures forall a :: InMirror(t, a) == InMirror(s, a) + Hit(s.tick.tasks[p].payload[s.tick.tasks[p].next], a)
  {
    hide Enabled, Apply;
    AfterMirrorOne(c, s, p);
    t := Apply(c, s, MirrorOne(p));
  }

  lemma FlaggedBatch(c: Config, t: State, p: Period)
    requires Inv(c, t) && p in t.batches && t.batches[p].mirrorApplied
    ensures AllConfirmed(RowsOf(t.chunks, p))
    ensures var u := t.batches[p].payload;
            u != [] && CountOf(u, u[0].asset) > 0 && forall i :: 0 <= i < |u| ==> u[i].asset in t.assets
  {
    var u := t.batches[p].payload;
    assert StatusOk(t.batches, RowsOf(t.chunks, p), p);
    assert BatchOk(t.views, p, t.batches[p]) && ViewsInv(t.views, t.assets);
    forall i | 0 <= i < |u| ensures u[i].asset in t.assets {
      PlanAssetsExist(u, t.views, p, t.assets, i);
    }
    CountOfMember(u, u[0].asset);
  }

  lemma StaleTickAdds(c: Config, t: State, p: Period, b: BatchRow)
    requires Inv(c, t) && t.tick.Idle? && p in t.batches && t.batches[p].mirrorApplied
    requires b.payload == t.batches[p].payload && !b.mirrorApplied
    ensures MirrorsTwice(c, BehindTick(t, p, b), p)
  {
    hide Inv, Enabled, Apply, MaxBlock, AllConfirmed, MirroredSum;
    FlaggedBatch(c, t, p);
    var u0, a := BehindTick(t, p, b), b.payload[0].asset;
    AfterLoadPeriod(c, u0, p);
    var u1 := Apply(c, u0, LoadPeriod(p));
    var es, v := MirrorRest(c, u1, p);
    assert b.payload[0..] == b.payload;
    RunOne(c, u0, LoadPeriod(p));
    RunConcat(c, u0, [LoadPeriod(p)], u1, es, v);
    assert OwnEvents([LoadPeriod(p)] + es, p);
    FlaggedSums(t, v, p, a);
    MirrorIsRight(c, t, a);
    assert InMirror(v, a) > MirroredSum(v, a);
  }

  lemma FlaggedSums(t: State, v: State, p: Period, a: Id)
    requires t.tick.Idle? && v.batches == t.batches && p in t.batches && t.batches[p].mirrorApplied
    requires v.tick.Finalising? && v.tick.tasks.Keys == {p}
    ensures MirroredSum(v, a) == MirroredSum(t, a)
  {
    MapSumSame(MirroredBy(t.batches, t.tick, a), MirroredBy(v.batches, v.tick, a));
  }

  lemma LoadedBatchStays(c: Config, s: State, es: seq<Event>, t: State, p: Period)
    requires Inv(c, s) && InTask(s, p) && s.tick.tasks[p].Loading? && Run(c, s, es, t)
    ensures Inv(c, t) && p in t.batches && t.batches[p].payload == s.tick.tasks[p].b.payload
    ensures s.tick.tasks[p].b.mirrorApplied ==> t.batches[p].mirrorApplied
  {
    hide Apply, Enabled;
    RunKeepsPlan(c, s, es, t, p);
    RunKeepsInv(c, s, es, t);
    assert TaskOk(s.batches, RowsOf(s.chunks, p), p, s.tick.tasks[p]);
    if s.batches[p].mirrorApplied { RunKeepsFlag(c, s, es, t, p); }
  }

  /** Overlapping ticks, exactly. Two ticks have read the row b of p as pending; one of them, and whatever else
      happens, leads to t, where it has ended; then the other one finalises p. It can count the payload into
      the mirror a second time if and only if the flag was not set in b and is set in the table. */
  lemma OverlapMirrorsTwiceIff(c: Config, s: State, es: seq<Event>, t: State, p: Period)
    requires Reachable(c, s) && InTask(s, p) && s.tick.tasks[p].Loading?
    requires Run(c, s, es, t) && t.tick.Idle?
    ensures p in t.batches
    ensures MirrorsTwice(c, BehindTick(t, p, s.tick.tasks[p].b), p)
       <==> !s.tick.tasks[p].b.mirrorApplied && t.batches[p].mirrorApplied
  {
    hide Apply, Enabled, Inv, Reachable, InMirror, MirroredSum, OwnEvents;
    var b := s.tick.tasks[p].b;
    ReachableInv(c, s);
    LoadedBatchStays(c, s, es, t, p);
    if !b.mirrorApplied && t.batches[p].mirrorApplied {
      StaleTickAdds(c, t, p, b);
    } else if MirrorsTwice(c, BehindTick(t, p, b), p) {
      var fs, v, a :| Run(c, BehindTick(t, p, b), fs, v) && OwnEvents(fs, p) && InMirror(v, a) > MirroredSum(v, a);
      if b.mirrorApplied {
        OnlyChecksRun(c, t, BehindTick(t, p, b), fs, v, p);
        OnlyChecksSums(t, v, p, a);
        MirrorIsRight(c, t, a);
      } else {
        FreshTickIsLawful(c, t, p, b);
        RunKeepsInv(c, BehindTick(t, p, b), fs, v);
        MirrorIsRight(c, v, a);
      }
    }
  }

  lemma MirrorIsRight(c: Config, s: State, a: Id)
    requires Inv(c, s)
    ensures InMirror(s, a) == MirroredSum(s, a)
  {
  }
}
