/** The main results over every reachable state: no view is counted twice, on chain or in the mirror, and what
    is missing in either is accounted for exactly. */
module Conservation {
  import opened Options
  import opened Payloads
  import opened Sums
  import N = NotaryContract
  import opened Protocol
  import opened Invariant
  import opened Moves
  import opened TablesKept
  import opened TransactionsKept
  import opened ReconciliationKept
  import opened Runs
  import opened ViewCounts

  // ---- Outstanding counts ----

  /** Counts of period p for asset a that are on chain and not in the mirror: nothing once the flag is
      set, the rest of the payload while the mirror loop runs, the mined chunks before it starts. */
  ghost function OutstandingCount(c: Config, s: State, p: Period, a: Id): nat
    requires p in s.batches
  {
    if s.batches[p].mirrorApplied then 0
    else if InTask(s, p) && s.tick.tasks[p].Mirroring? && s.tick.tasks[p].next <= |s.batches[p].payload|
    then CountOf(s.batches[p].payload[s.tick.tasks[p].next..], a)
    else LandedCount(c, s.batches, s.chunks, s.pub, s.txs, p, a)
  }

  ghost function Outstanding(c: Config, s: State, a: Id): map<Period, nat> {
    map p | p in s.batches :: OutstandingCount(c, s, p, a)
  }

  function OnChain(s: State, a: Id): nat { N.Total(s.chain, a) }

  function InMirror(s: State, a: Id): nat { Mirror(s.assets, a) }

  /** When all chunks of a period are CONFIRMED, all of its counts have landed. */
  lemma ConfirmedLanded(c: Config, s: State, p: Period, a: Id)
    requires Core(c, s) && p in s.batches && AllConfirmed(RowsOf(s.chunks, p))
    ensures LandedCount(c, s.batches, s.chunks, s.pub, s.txs, p, a) == CountOf(s.batches[p].payload, a)
  {
    var ss := Slices(s.batches[p].payload, c.maxChunk);
    var flags := Flags(s.chunks, s.pub, s.txs, p);
    forall j: nat | j < |flags| ensures flags[j] {
      assert ChunkSent(s.chunks, s.pub, s.txs, p, j);
    }
    CountFlaggedBounds(ss, flags, a);
    SlicesFacts(s.batches[p].payload, c.maxChunk);
  }

  lemma LandedBound(c: Config, s: State, p: Period, a: Id)
    requires Core(c, s) && p in s.batches
    ensures LandedCount(c, s.batches, s.chunks, s.pub, s.txs, p, a) <= CountOf(s.batches[p].payload, a)
  {
    var ss := Slices(s.batches[p].payload, c.maxChunk);
    if p in s.chunks && |s.chunks[p]| == |ss| {
      CountFlaggedBounds(ss, Flags(s.chunks, s.pub, s.txs, p), a);
      SlicesFacts(s.batches[p].payload, c.maxChunk);
    }
  }

  lemma PeriodBalance(c: Config, s: State, p: Period, a: Id)
    requires Core(c, s) && p in s.batches
    ensures LandedCount(c, s.batches, s.chunks, s.pub, s.txs, p, a)
         == MirroredCount(s.batches, s.tick, p, a) + OutstandingCount(c, s, p, a)
  {
    var u := s.batches[p].payload;
    if s.batches[p].mirrorApplied {
      ConfirmedLanded(c, s, p, a);
    } else if InTask(s, p) && s.tick.tasks[p].Mirroring? {
      assert TaskOk(s.batches, RowsOf(s.chunks, p), p, s.tick.tasks[p]);
      ConfirmedLanded(c, s, p, a);
      CountOfParts(u, s.tick.tasks[p].next, a);
    } else {
      assert u[..0] == [];
    }
  }

  lemma Balance(c: Config, s: State, a: Id)
    requires Inv(c, s)
    ensures OnChain(s, a) == InMirror(s, a) + MapSum(Outstanding(c, s, a))
  {
    forall p | p in s.batches
      ensures LandedCount(c, s.batches, s.chunks, s.pub, s.txs, p, a)
           == MirroredCount(s.batches, s.tick, p, a) + OutstandingCount(c, s, p, a)
    {
      PeriodBalance(c, s, p, a);
    }
    assert OnChain(s, a) == MapSum(LandedBy(c, s.batches, s.chunks, s.pub, s.txs, a));
    assert InMirror(s, a) == MapSum(MirroredBy(s.batches, s.tick, a));
    hide LandedCount, MirroredCount, OutstandingCount, Inv;
    MapSumAdd(LandedBy(c, s.batches, s.chunks, s.pub, s.txs, a), MirroredBy(s.batches, s.tick, a), Outstanding(c, s, a));
  }

  /** Conservation. In every reachable state, also halfway through several interleaved mirror loops, an
      asset's on-chain total exceeds its mirror by exactly its counts in mined chunks not yet mirrored. */
  lemma ChainIsMirrorPlusOutstanding(c: Config, s: State, a: Id)
    requires Reachable(c, s)
    ensures OnChain(s, a) == InMirror(s, a) + MapSum(Outstanding(c, s, a))
  {
    ReachableInv(c, s);
    Balance(c, s, a);
  }

  // ---- Never more than the views ----

  function ViewsBy(views: seq<View>, batches: map<Period, BatchRow>, a: Id): map<Period, nat> {
    map p | p in batches :: ViewCount(views, p, a)
  }

  /** The rows of the view table that belong to the asset and to a period with a batch. */
  function PublishedViews(views: seq<View>, batches: map<Period, BatchRow>, a: Id): set<nat> {
    set i: nat | i < |views| && views[i].asset == a && views[i].period in batches
  }

  /** Counting per period counts each of these rows once. */
  lemma {:induction false} PeriodsPartitionViews(views: seq<View>, batches: map<Period, BatchRow>, a: Id)
    ensures MapSum(ViewsBy(views, batches, a)) == |PublishedViews(views, batches, a)|
  {
    var m' := ViewsBy(views, batches, a);
    if views == [] {
      MapSumAllZero(m');
      assert PublishedViews(views, batches, a) == {};
    } else {
      var n := |views| - 1;
      PeriodsPartitionViews(views[..n], batches, a);
      var m := ViewsBy(views[..n], batches, a);
      var last := if views[n].asset == a && views[n].period in batches then {n} else {};
      assert PublishedViews(views, batches, a) == PublishedViews(views[..n], batches, a) + last;
      if last != {} {
        MapSumChange(m, m', views[n].period);
      } else {
        MapSumSame(m, m');
      }
    }
  }

  lemma PublishedAreViews(views: seq<View>, batches: map<Period, BatchRow>, a: Id)
    ensures |PublishedViews(views, batches, a)| <= |set i: nat | i < |views| && views[i].asset == a|
  {
    SubsetSize(PublishedViews(views, batches, a), set i: nat | i < |views| && views[i].asset == a);
  }

  /** The mirror never runs ahead of the chain, nor the chain ahead of the registered views: no view is
      counted twice. */
  lemma MirrorBelowChainBelowViews(c: Config, s: State, a: Id)
    requires Reachable(c, s)
    ensures InMirror(s, a) <= OnChain(s, a) <= |set i: nat | i < |s.views| && s.views[i].asset == a|
  {
    ReachableInv(c, s);
    Balance(c, s, a);
    forall p | p in s.batches
      ensures LandedCount(c, s.batches, s.chunks, s.pub, s.txs, p, a) <= ViewCount(s.views, p, a)
    {
      LandedBound(c, s, p, a);
      assert BatchOk(s.views, p, s.batches[p]);
    }
    assert OnChain(s, a) == MapSum(LandedBy(c, s.batches, s.chunks, s.pub, s.txs, a));
    hide LandedCount, Inv;
    MapSumLe(LandedBy(c, s.batches, s.chunks, s.pub, s.txs, a), ViewsBy(s.views, s.batches, a));
    PeriodsPartitionViews(s.views, s.batches, a);
    PublishedAreViews(s.views, s.batches, a);
  }

  /** Mirror exactly once: the mirror is the applied batches plus the finished turns of the loops in
      flight, whatever the interleaving and however long a mismatch has kept a batch PENDING. */
  lemma MirrorExactlyOnce(c: Config, s: State, a: Id)
    requires Reachable(c, s)
    ensures InMirror(s, a) == MapSum(MirroredBy(s.batches, s.tick, a))
    ensures forall p :: p in s.batches && s.batches[p].mirrorApplied ==>
              MirroredBy(s.batches, s.tick, a)[p] == |ViewsOfAsset(s.views, p, a)|
  {
    ReachableInv(c, s);
    forall p | p in s.batches && s.batches[p].mirrorApplied
      ensures MirroredBy(s.batches, s.tick, a)[p] == |ViewsOfAsset(s.views, p, a)|
    {
      assert BatchOk(s.views, p, s.batches[p]);
      ViewCountIsRows(s.views, p, a);
    }
  }

  // ---- What a batch row says ----

  /** A batch row against the view table: `viewsTotal` is the number of rows of its period, `assetCount` the
      number of assets seen in it, and each entry of the payload carries the number of rows of its asset. */
  lemma BatchRowMeaning(c: Config, s: State, p: Period)
    requires Reachable(c, s) && p in s.batches
    ensures var b := s.batches[p];
            && b.viewsTotal == |ViewsIn(s.views, p)| && b.assetCount == |AssetsIn(s.views, p)|
            && (set k: nat | k < |b.payload| :: b.payload[k].asset) == AssetsIn(s.views, p)
            && forall k :: 0 <= k < |b.payload| ==> b.payload[k].views == |ViewsOfAsset(s.views, p, b.payload[k].asset)|
  {
    ReachableInv(c, s);
    assert BatchOk(s.views, p, s.batches[p]);
    hide Inv;
    PlanAddsUp(s.batches[p].payload, s.views, p);
    PlanCovers(s.batches[p].payload, s.views, p);
  }

  // ---- At-most-once sending ----

  /** No two transactions ever broadcast carry the same period and payload, so the chain adds a chunk at
      most once over any number of publish ticks, failed sends and resumes. */
  lemma AtMostOnceSending(c: Config, s: State, t1: TxId, t2: TxId)
    requires Reachable(c, s)
    requires t1 in s.txs && t2 in s.txs && s.txs[t1].call.PublishBatch? && s.txs[t1].call == s.txs[t2].call
    ensures t1 == t2
  {
    ReachableInv(c, s);
    assert Owned(s.chunks, s.pub, s.txs, t1) && Owned(s.chunks, s.pub, s.txs, t2);
    var p, i, j := s.txs[t1].call.period, s.txs[t1].chunk.value, s.txs[t2].chunk.value;
    assert ChunkSent(s.chunks, s.pub, s.txs, p, i) && ChunkSent(s.chunks, s.pub, s.txs, p, j);
    assert BatchOk(s.views, p, s.batches[p]);
    SlicesDistinct(s.batches[p].payload, c.maxChunk, i, j);
  }

  /** A stored hash is the hash of this chunk's own payload, of the only transaction ever broadcast with it; and
      the number of mined transactions with it is one or none, as that one is mined or not. Once it is mined,
      the chain holds the chunk's counts. */
  lemma StoredHashCountsOnce(c: Config, s: State, p: Period, j: nat)
    requires Reachable(c, s)
    requires p in s.chunks && j < |s.chunks[p]| && s.chunks[p][j].txHash.Some?
    ensures var t, call := s.chunks[p][j].txHash.value, N.PublishBatch(p, s.chunks[p][j].payload);
            && t in s.txs && s.txs[t].call == call
            && (set x | x in s.txs && s.txs[x].call == call) == {t}
            && |set x | x in s.txs && s.txs[x].call == call && s.txs[x].block.Some?| == (if s.txs[t].block.Some? then 1 else 0)
            && (s.txs[t].block.Some? ==> forall a :: CountOf(s.chunks[p][j].payload, a) <= OnChain(s, a))
  {
    ReachableInv(c, s);
    assert ChunkSent(s.chunks, s.pub, s.txs, p, j);
    var t, call := s.chunks[p][j].txHash.value, N.PublishBatch(p, s.chunks[p][j].payload);
    forall x | x in s.txs && s.txs[x].call == call ensures x == t {
      AtMostOnceSending(c, s, x, t);
    }
    assert (set x | x in s.txs && s.txs[x].call == call) == {t};
    assert (set x | x in s.txs && s.txs[x].call == call && s.txs[x].block.Some?) == (if s.txs[t].block.Some? then {t} else {});
    hide Reachable;
    if s.txs[t].block.Some? {
      forall a ensures CountOf(s.chunks[p][j].payload, a) <= OnChain(s, a) {
        LandedChunkCounts(c, s, p, j, a);
        LandedIsOnChain(c, s, p, a);
      }
    }
  }

  lemma LandedChunkCounts(c: Config, s: State, p: Period, j: nat, a: Id)
    requires Inv(c, s) && HasRow(s.chunks, p, j) && Landed(s.txs, LiveTx(s.chunks, s.pub, p, j))
    ensures p in s.batches
    ensures CountOf(s.chunks[p][j].payload, a) <= LandedCount(c, s.batches, s.chunks, s.pub, s.txs, p, a)
  {
    var ss, flags := Slices(s.batches[p].payload, c.maxChunk), Flags(s.chunks, s.pub, s.txs, p);
    assert flags[j := false][j := true] == flags;
    CountFlaggedSet(ss, flags[j := false], j, a);
  }

  lemma LandedIsOnChain(c: Config, s: State, p: Period, a: Id)
    requires Inv(c, s) && p in s.batches
    ensures LandedCount(c, s.batches, s.chunks, s.pub, s.txs, p, a) <= OnChain(s, a)
  {
    assert N.Total(s.chain, a) == MapSum(LandedBy(c, s.batches, s.chunks, s.pub, s.txs, a));
    hide LandedCount, Inv;
    MapSumRemove(LandedBy(c, s.batches, s.chunks, s.pub, s.txs, a), p);
  }

  // ---- The plan ----

  /** Stable chunk plan: in whatever order the rows of a frozen period come back, sorting and slicing them
      again gives the stored payload and the stored chunks, so `ensureChunks` on existing rows is a no-op
      and the chunks in index order are the whole payload. */
  lemma StableChunkPlan(c: Config, s: State, p: Period, rows: seq<Update>)
    requires Reachable(c, s) && p in s.batches && IsAggregate(rows, s.views, p)
    ensures SortByAsset(rows) == s.batches[p].payload
    ensures p in s.chunks ==>
              && EnsureRows(s.chunks[p], Slices(SortByAsset(rows), c.maxChunk)) == s.chunks[p]
              && Flatten(seq(|s.chunks[p]|, j requires 0 <= j < |s.chunks[p]| => s.chunks[p][j].payload)) == s.batches[p].payload
  {
    ReachableInv(c, s);
    assert BatchOk(s.views, p, s.batches[p]);
    ReaggregationIsStable(rows, s.views, p);
    PlansAgree(SortByAsset(rows), s.batches[p].payload, s.views, p);
    if p in s.chunks {
      var ss := Slices(s.batches[p].payload, c.maxChunk);
      SlicesFacts(s.batches[p].payload, c.maxChunk);
      assert seq(|s.chunks[p]|, j requires 0 <= j < |s.chunks[p]| => s.chunks[p][j].payload) == ss;
    }
  }

  // ---- The defensive check ----

  datatype Mismatch = Mismatch(asset: Id, onchain: nat, dbMirror: nat)

  /** `detectAssetCounterMismatch` with all reads taken in one state, from entry k on. */
  function DetectFrom(s: State, payload: seq<Update>, k: nat): Option<Mismatch>
    requires k <= |payload|
    decreases |payload| - k
  {
    if k == |payload| then None
    else
      var a := payload[k].asset;
      if Differs(s, a) then Some(Mismatch(a, OnChain(s, a), InMirror(s, a))) else DetectFrom(s, payload, k + 1)
  }

  predicate Differs(s: State, a: Id) {
    Checked(s, a) && OnChain(s, a) != InMirror(s, a)
  }

  /** The asset is registered on chain and has a local row; others are skipped. */
  predicate Checked(s: State, a: Id) {
    N.Known(s.chain, a) && a in s.assets
  }

  /** Nothing of asset a is waiting to be mirrored, in any period. */
  ghost predicate Settled(c: Config, s: State, a: Id) {
    forall p :: p in s.batches ==> OutstandingCount(c, s, p, a) == 0
  }

  lemma SettledMeansEqual(c: Config, s: State, a: Id)
    requires Inv(c, s)
    ensures Settled(c, s, a) <==> OnChain(s, a) == InMirror(s, a)
  {
    Balance(c, s, a);
    MapSumZero(Outstanding(c, s, a));
    assert forall p :: p in s.batches ==> Outstanding(c, s, a)[p] == OutstandingCount(c, s, p, a);
  }

  lemma {:induction false} DetectFinds(s: State, payload: seq<Update>, k: nat) returns (i: nat)
    requires k <= |payload|
    ensures k <= i <= |payload|
    ensures forall h :: k <= h < i ==> !Differs(s, payload[h].asset)
    ensures i < |payload| ==>
              && Differs(s, payload[i].asset)
              && DetectFrom(s, payload, k) == Some(Mismatch(payload[i].asset, OnChain(s, payload[i].asset), InMirror(s, payload[i].asset)))
    ensures i == |payload| ==> DetectFrom(s, payload, k).None?
    decreases |payload| - k
  {
    if k == |payload| || Differs(s, payload[k].asset) {
      i := k;
    } else {
      i := DetectFinds(s, payload, k + 1);
    }
  }

  /** Mined-but-unmirrored counts of a checked asset, in any period. */
  ghost predicate Alarming(c: Config, s: State, a: Id) {
    Checked(s, a) && !Settled(c, s, a)
  }

  lemma AlarmingDiffers(c: Config, s: State, a: Id)
    requires Reachable(c, s)
    ensures Alarming(c, s, a) <==> Differs(s, a)
  {
    ReachableInv(c, s);
    hide Inv, Reachable, Settled, OnChain, InMirror, Checked;
    SettledMeansEqual(c, s, a);
  }

  /** The check passes exactly when no checked asset of the payload has counts outstanding; otherwise it
      names the first such asset in payload order, with the two values read. */
  lemma DefensiveCheckMeaning(c: Config, s: State, payload: seq<Update>)
    requires Reachable(c, s)
    ensures DetectFrom(s, payload, 0).None? <==> forall i :: 0 <= i < |payload| ==> !Alarming(c, s, payload[i].asset)
    ensures DetectFrom(s, payload, 0).Some? ==>
              exists i :: 0 <= i < |payload| && Alarming(c, s, payload[i].asset)
                && (forall h :: 0 <= h < i ==> !Alarming(c, s, payload[h].asset))
                && DetectFrom(s, payload, 0).value
                   == Mismatch(payload[i].asset, OnChain(s, payload[i].asset), InMirror(s, payload[i].asset))
  {
    hide Reachable, Checked, Settled, OnChain, InMirror, DetectFrom, Differs, Alarming;
    forall i | 0 <= i < |payload| ensures Alarming(c, s, payload[i].asset) <==> Differs(s, payload[i].asset) {
      AlarmingDiffers(c, s, payload[i].asset);
    }
    var i := DetectFinds(s, payload, 0);
    assert i < |payload| ==> Alarming(c, s, payload[i].asset);
  }

  // ---- Finalisation ----

  /** A CONFIRMED batch is mirrored, all its chunks are CONFIRMED at depth, and its block is the highest of
      theirs; every anchored view belongs to one. */
  lemma FinalisationInvariant(c: Config, s: State, p: Period)
    requires Reachable(c, s) && p in s.batches && s.batches[p].status == CONFIRMED
    ensures s.batches[p].mirrorApplied
    ensures p in s.chunks && s.chunks[p] != []
    ensures forall j :: 0 <= j < |s.chunks[p]| ==>
              && s.chunks[p][j].status == CONFIRMED && s.chunks[p][j].blockNumber.Some?
              && s.batches[p].blockNumber.Some?
              && s.chunks[p][j].blockNumber.value <= s.batches[p].blockNumber.value
              && s.head + 1 >= s.chunks[p][j].blockNumber.value + c.depth
    ensures exists j :: 0 <= j < |s.chunks[p]| && s.chunks[p][j].blockNumber == s.batches[p].blockNumber
  {
    ReachableInv(c, s);
    var rows := s.chunks[p];
    assert StatusOk(s.batches, rows, p);
    forall j: nat | j < |rows|
      ensures rows[j].blockNumber.Some? && s.head + 1 >= rows[j].blockNumber.value + c.depth
    {
      assert ChunkSent(s.chunks, s.pub, s.txs, p, j);
      assert Deep(c, s.txs, s.head, rows[j].txHash.value);
    }
    MaxBlockFacts(rows);
  }

  lemma {:induction false} MaxBlockFacts(rows: seq<ChunkRow>)
    ensures forall j :: 0 <= j < |rows| ==> BlockOr0(rows[j]) <= MaxBlock(rows)
    ensures rows != [] ==> exists j :: 0 <= j < |rows| && BlockOr0(rows[j]) == MaxBlock(rows)
  {
    if rows != [] {
      var n := |rows| - 1;
      MaxBlockFacts(rows[..n]);
      assert rows[..n] == [] ==> MaxBlock(rows[..n]) == 0;
      if MaxBlock(rows) != BlockOr0(rows[n]) {
        var j :| 0 <= j < n && BlockOr0(rows[..n][j]) == MaxBlock(rows[..n]);
        assert BlockOr0(rows[j]) == MaxBlock(rows);
      }
    }
  }

  lemma AnchoredViewsAreFinal(c: Config, s: State, i: nat)
    requires Reachable(c, s) && i < |s.views| && s.views[i].anchored
    ensures s.views[i].period in s.batches && s.batches[s.views[i].period].status == CONFIRMED
  {
    ReachableInv(c, s);
    assert AnchorOk(s.batches, s.tick, s.views[i]);
  }

  /** CONFIRMED is never left, and neither the payload, the block nor the chunk rows change afterwards. */
  lemma {:induction false} ConfirmedIsFinal(c: Config, s: State, es: seq<Event>, t: State, p: Period)
    requires Inv(c, s) && Run(c, s, es, t)
    requires p in s.batches && s.batches[p].status == CONFIRMED
    ensures p in t.batches && t.batches[p].status == CONFIRMED && t.batches[p].mirrorApplied
    ensures t.batches[p].blockNumber == s.batches[p].blockNumber && t.batches[p].payload == s.batches[p].payload
    ensures RowsOf(t.chunks, p) == RowsOf(s.chunks, p)
    decreases es
  {
    hide Apply, Enabled;
    assert StatusOk(s.batches, RowsOf(s.chunks, p), p);
    if es != [] {
      var e := es[0];
      EventKeepsInv(c, s, e);
      ConfirmedStep(c, s, e, p);
      hide Inv;
      ConfirmedIsFinal(c, Apply(c, s, e), es[1..], t, p);
    }
  }

  lemma ConfirmedStep(c: Config, s: State, e: Event, p: Period)
    requires Inv(c, s) && Enabled(c, s, e)
    requires p in s.batches && s.batches[p].status == CONFIRMED
    ensures p in Apply(c, s, e).batches && Apply(c, s, e).batches[p].status == CONFIRMED
    ensures Apply(c, s, e).batches[p].blockNumber == s.batches[p].blockNumber
    ensures Apply(c, s, e).batches[p].payload == s.batches[p].payload
    ensures RowsOf(Apply(c, s, e).chunks, p) == RowsOf(s.chunks, p)
  {
    hide Apply, Enabled;
    assert StatusOk(s.batches, RowsOf(s.chunks, p), p);
    ConfirmedRowsStable(c, s, e, p);
    BatchRowsMove(c, s, e);
    if InTask(s, p) { assert TaskOk(s.batches, RowsOf(s.chunks, p), p, s.tick.tasks[p]); }
    if e == ConfirmBatch(p) {
      AfterConfirmBatch(c, s, p);
    }
  }
}
