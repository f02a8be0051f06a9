/** Views that are never published: what it takes for an asset to get on chain and for a chunk to be mined,
    and how one asset that never gets there withholds its whole chunk. */
module Withheld {
  import opened Options
  import opened Payloads
  import opened Sums
  import N = NotaryContract
  import opened Protocol
  import opened Invariant
  import opened Moves
  import opened TablesKept
  import opened TransactionsKept
  import opened Runs
  import opened Conservation
  import opened Faults

  // ---- What a run keeps ----

  lemma ReachableOn(c: Config, s: State, es: seq<Event>, t: State)
    requires Reachable(c, s) && Run(c, s, es, t)
    ensures Reachable(c, t)
  {
    hide Apply, Enabled;
    var xs :| Run(c, Init(c), xs, s);
    RunConcat(c, Init(c), xs, s, es, t);
  }

  /** Payloads of batches and chunks are fixed once they are there. */
  ghost predicate PlanStays(s: State, t: State, p: Period) {
    && (p in s.batches ==> p in t.batches && t.batches[p].payload == s.batches[p].payload)
    && (p in s.chunks ==> p in t.chunks && SamePlace(s.chunks[p], t.chunks[p]))
  }

  lemma {:induction false} RunKeepsPlan(c: Config, s: State, es: seq<Event>, t: State, p: Period)
    requires Inv(c, s) && Run(c, s, es, t)
    ensures PlanStays(s, t, p)
    decreases es
  {
    hide Apply, Enabled;
    if es != [] {
      var m := Apply(c, s, es[0]);
      PayloadsStay(c, s, es[0]);
      ChunkRowsMove(c, s, es[0]);
      EventKeepsInv(c, s, es[0]);
      hide Inv;
      RunKeepsPlan(c, m, es[1..], t, p);
    }
  }

  /** A publication is mined only when every asset it names is on chain. */
  lemma MinedMeansKnown(c: Config, s: State, t: TxId, i: nat)
    requires Inv(c, s) && t in s.txs && s.txs[t].call.PublishBatch? && s.txs[t].block.Some? && i < |s.txs[t].call.updates|
    ensures N.Known(s.chain, s.txs[t].call.updates[i].asset)
  {
    var p, j, u := s.txs[t].call.period, s.txs[t].chunk.value, s.txs[t].call.updates;
    var a := u[i].asset;
    assert Owned(s.chunks, s.pub, s.txs, t);
    assert ChunkSent(s.chunks, s.pub, s.txs, p, j);
    LandedChunkCounts(c, s, p, j, a);
    ChunkIsPositive(c, s, p, j, i);
    CountOfMember(u, a);
    LandedIsOnChain(c, s, p, a);
    assert N.Total(s.chain, a) > 0;
    assert N.LogTellsStorage(s.chain) by { LogHolds(c, s); }
  }

  lemma LogHolds(c: Config, s: State)
    requires Inv(c, s)
    ensures N.LogTellsStorage(s.chain)
  {
  }

  lemma ChunkIsPositive(c: Config, s: State, p: Period, j: nat, i: nat)
    requires Inv(c, s) && HasRow(s.chunks, p, j) && i < |s.chunks[p][j].payload|
    ensures s.chunks[p][j].payload[i].views > 0
  {
    assert BatchOk(s.views, p, s.batches[p]);
    SliceAt(s.batches[p].payload, c.maxChunk, j);
  }

  lemma ChunkNotEmpty(c: Config, s: State, p: Period, j: nat)
    requires Inv(c, s) && HasRow(s.chunks, p, j)
    ensures s.chunks[p][j].payload != []
  {
    SlicesFacts(s.batches[p].payload, c.maxChunk);
  }

  // ---- When a sent chunk can be mined ----

  /** A publication in the mempool of a reachable state can be mined exactly when its period fits uint64,
      every asset it names is on chain, and no count or total overflows. */
  lemma MinableIff(c: Config, s: State, t: TxId, timestamp: nat)
    requires Reachable(c, s) && t in s.txs && s.txs[t].call.PublishBatch? && s.txs[t].block.None?
    requires 0 < timestamp < N.TWO_TO_64
    ensures Enabled(c, s, Include(t, timestamp))
       <==> 0 <= s.txs[t].call.period <= N.MAX_UINT64 && N.Acceptable(s.chain, s.txs[t].call.updates)
  {
    ReachableInv(c, s);
    var p, u := s.txs[t].call.period, s.txs[t].call.updates;
    assert Owned(s.chunks, s.pub, s.txs, t);
    assert ChunkSent(s.chunks, s.pub, s.txs, p, s.txs[t].chunk.value);
    ChunkNotEmpty(c, s, p, s.txs[t].chunk.value);
    N.PublishMeaning(s.chain, p, u);
    assert s.chain.attester == c.attester;
    hide Inv, Reachable, Apply, Enabled, N.Acceptable, N.Publish;
    AfterInclude(c, s, t, timestamp);
  }

  // ---- When an asset can get on chain ----

  lemma {:induction false} FreshId(ids: set<TxId>) returns (t: TxId)
    ensures forall x :: x in ids ==> x < t
    decreases |ids|
  {
    if ids == {} {
      t := 0;
    } else {
      var y :| y in ids;
      t := FreshId(ids - {y});
      if t <= y { t := y + 1; }
      forall x | x in ids ensures x < t {
        assert x == y || x in ids - {y};
      }
    }
  }

  /** A FAILED row is the end: nothing of the asset is on chain, in the mempool or under way. */
  lemma FailedIsUnregistrable(c: Config, s: State, id: Id)
    requires Reachable(c, s) && id in s.assets && s.assets[id].status == FAILED
    ensures Unregistrable(s, id)
  {
    ReachableInv(c, s);
  }

  ghost predicate CanRegister(c: Config, s: State, id: Id) {
    exists es, t :: Run(c, s, es, t) && N.Known(t.chain, id)
  }

  /** The asset is on chain, or its hash is not empty and its notarisation is under way or in the mempool. */
  ghost predicate Promising(s: State, id: Id)
    requires id in s.assets
  {
    || N.Known(s.chain, id)
    || (s.assets[id].contentHash != 0
        && (id in s.notarizing || exists t :: t in s.txs && s.txs[t].call.NotarizeAsset? && s.txs[t].call.asset == id))
  }

  lemma MineNotarisation(c: Config, s: State, id: Id, t: TxId)
    requires Inv(c, s) && id in s.assets && s.assets[id].contentHash != 0 && !N.Known(s.chain, id)
    requires t in s.txs && s.txs[t].call.NotarizeAsset? && s.txs[t].call.asset == id
    ensures Enabled(c, s, Include(t, 1)) && N.Known(Apply(c, s, Include(t, 1)).chain, id)
  {
    hide Apply, Enabled;
    AfterInclude(c, s, t, 1);
  }

  lemma SendThenMine(c: Config, s: State, id: Id)
    requires Inv(c, s) && id in s.assets && s.assets[id].contentHash != 0 && !N.Known(s.chain, id)
    requires id in s.notarizing && s.notarizing[id].None?
    ensures CanRegister(c, s, id)
  {
    hide Apply, Enabled, Inv, N.Known;
    var t := FreshId(s.txs.Keys);
    var e := SendNotarize(id, t);
    AfterSendNotarize(c, s, id, t);
    var m := Apply(c, s, e);
    EventKeepsInv(c, s, e);
    MineNotarisation(c, m, id, t);
    RunOne(c, s, e);
    RunOne(c, m, Include(t, 1));
    RunConcat(c, s, [e], m, [Include(t, 1)], Apply(c, m, Include(t, 1)));
  }

  lemma PromisingRegisters(c: Config, s: State, id: Id)
    requires Inv(c, s) && id in s.assets && Promising(s, id)
    ensures CanRegister(c, s, id)
  {
    hide Apply, Enabled, Inv, N.Known;
    if N.Known(s.chain, id) {
      assert Run(c, s, [], s);
    } else if t :| t in s.txs && s.txs[t].call.NotarizeAsset? && s.txs[t].call.asset == id {
      MineNotarisation(c, s, id, t);
      RunOne(c, s, Include(t, 1));
    } else {
      NothingSent(c, s, id);
      SendThenMine(c, s, id);
    }
  }

  lemma NothingSent(c: Config, s: State, id: Id)
    requires Inv(c, s) && id in s.notarizing
    requires forall t :: t in s.txs && s.txs[t].call.NotarizeAsset? ==> s.txs[t].call.asset != id
    ensures s.notarizing[id].None? && id in s.assets
  {
  }

  /** An empty hash is refused by the contract for good. */
  ghost predicate HashEmpty(s: State, id: Id) {
    id in s.assets && s.assets[id].contentHash == 0 && !N.Known(s.chain, id)
  }

  lemma HashEmptyKept(c: Config, s: State, e: Event, id: Id)
    requires Inv(c, s) && Enabled(c, s, e) && HashEmpty(s, id)
    ensures HashEmpty(Apply(c, s, e), id)
  {
    hide Apply, Enabled;
    HashesAlwaysKept(c, s, e);
    if e.Include? {
      AfterInclude(c, s, e.tx, e.timestamp);
      CallKeepsRegistry(s.chain, c.attester, s.txs[e.tx].call, e.timestamp);
    } else {
      MinedBefore(c, s, e);
    }
  }

  lemma {:induction false} RunKeepsHashEmpty(c: Config, s: State, es: seq<Event>, t: State, id: Id)
    requires Inv(c, s) && HashEmpty(s, id) && Run(c, s, es, t)
    ensures HashEmpty(t, id)
    decreases es
  {
    hide Apply, Enabled, Inv, HashEmpty;
    if es != [] {
      EventKeepsInv(c, s, es[0]);
      HashEmptyKept(c, s, es[0], id);
      RunKeepsHashEmpty(c, Apply(c, s, es[0]), es[1..], t, id);
    }
  }

  /** An asset with a row can still get on chain exactly when it is there already, or its hash is not empty and
      its notarisation is under way or in the mempool. No second try is possible. */
  lemma RegistrableIff(c: Config, s: State, id: Id)
    requires Reachable(c, s) && id in s.assets
    ensures CanRegister(c, s, id) <==> Promising(s, id)
  {
    hide Apply, Enabled, Inv, Reachable;
    ReachableInv(c, s);
    if Promising(s, id) {
      PromisingRegisters(c, s, id);
    } else if CanRegister(c, s, id) {
      var es, t :| Run(c, s, es, t) && N.Known(t.chain, id);
      if s.assets[id].contentHash == 0 {
        RunKeepsHashEmpty(c, s, es, t, id);
      } else {
        InvIsCore(c, s);
        RunKeepsUnregistrable(c, s, es, t, id);
      }
    }
  }

  // ---- One asset withholds its chunk ----

  /** The chunk names the asset. */
  predicate Names(u: seq<Update>, id: Id) {
    exists i :: 0 <= i < |u| && u[i].asset == id
  }

  /** The chunk is not on chain, and neither is its period finished. */
  ghost predicate Held(s: State, p: Period, j: nat) {
    && HasRow(s.chunks, p, j) && p in s.batches
    && s.chunks[p][j].status != CONFIRMED && !Landed(s.txs, LiveTx(s.chunks, s.pub, p, j))
    && !s.batches[p].mirrorApplied && s.batches[p].status == PENDING
  }

  lemma UnknownHoldsChunk(c: Config, s: State, p: Period, j: nat, id: Id)
    requires Inv(c, s) && HasRow(s.chunks, p, j) && Names(s.chunks[p][j].payload, id) && !N.Known(s.chain, id)
    ensures Held(s, p, j)
  {
    var i: nat :| i < |s.chunks[p][j].payload| && s.chunks[p][j].payload[i].asset == id;
    assert ChunkSent(s.chunks, s.pub, s.txs, p, j);
    assert s.chunks[p][j].status == CONFIRMED ==> Deep(c, s.txs, s.head, s.chunks[p][j].txHash.value);
    if Landed(s.txs, LiveTx(s.chunks, s.pub, p, j)) {
      MinedMeansKnown(c, s, LiveTx(s.chunks, s.pub, p, j).value, i);
    }
  }

  /** One asset withholds its chunk. While an asset cannot get on chain any more - `RegistrableIff` says when -
      no chunk that names it is mined or CONFIRMED in any run, so its period is never finished and the counts
      of the other assets in that chunk never reach the chain. */
  lemma WithheldChunk(c: Config, s: State, p: Period, j: nat, id: Id, es: seq<Event>, t: State)
    requires Reachable(c, s) && !CanRegister(c, s, id)
    requires HasRow(s.chunks, p, j) && Names(s.chunks[p][j].payload, id)
    requires Run(c, s, es, t)
    ensures Held(t, p, j) && t.chunks[p][j].payload == s.chunks[p][j].payload
    ensures forall x :: x in t.txs && t.txs[x].call.PublishBatch? && Names(t.txs[x].call.updates, id) ==> t.txs[x].block.None?
  {
    hide Apply, Enabled, Inv, Reachable, Names;
    ReachableInv(c, s);
    RunKeepsPlan(c, s, es, t, p);
    RunKeepsInv(c, s, es, t);
    UnknownHoldsChunk(c, t, p, j, id);
    forall x | x in t.txs && t.txs[x].call.PublishBatch? && Names(t.txs[x].call.updates, id) ensures t.txs[x].block.None? {
      if t.txs[x].block.Some? { NamedMinedKnown(c, t, x, id); }
    }
  }

  /** A FAILED notarisation is enough, although views of the asset are still accepted. */
  lemma FailedWithholds(c: Config, s: State, id: Id)
    requires Reachable(c, s) && id in s.assets && s.assets[id].status == FAILED
    ensures !CanRegister(c, s, id)
  {
    hide Reachable;
    FailedIsUnregistrable(c, s, id);
    RegistrableIff(c, s, id);
  }

  lemma NamedMinedKnown(c: Config, s: State, x: TxId, id: Id)
    requires Inv(c, s) && x in s.txs && s.txs[x].call.PublishBatch? && s.txs[x].block.Some? && Names(s.txs[x].call.updates, id)
    ensures N.Known(s.chain, id)
  {
    var i: nat :| i < |s.txs[x].call.updates| && s.txs[x].call.updates[i].asset == id;
    MinedMeansKnown(c, s, x, i);
  }
}
