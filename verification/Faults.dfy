/** Outside the assumptions: what crashes, lost hashes and reverted transactions do to the counts, exactly,
    and when a crash is harmless. */
module Faults {
  import opened Options
  import opened Payloads
  import opened Sums
  import N = NotaryContract
  import opened Protocol
  import opened Invariant
  import opened Moves
  import opened TablesKept
  import opened TransactionsKept
  import opened ReconciliationKept
  import opened Counting
  import opened Runs
  import opened Conservation

  // ---- Faulty runs ----

  /** Between a send and the write of its hash. */
  predicate HashInHand(s: State) {
    exists p :: p in s.pub && s.pub[p].Recording?
  }

  /** The transaction whose hash a publication has not written yet. */
  predicate InHand(pub: map<Period, Publisher>, t: TxId) {
    exists p :: p in pub && pub[p].Recording? && pub[p].tx == t
  }

  /** The publication of p forgets the hash it has in hand: the transaction belongs to no chunk any more. */
  function Forget(s: State, p: Period): State
    requires p in s.pub && s.pub[p].Recording? && s.pub[p].tx in s.txs
  {
    var t := s.pub[p];
    s.(pub := s.pub[p := Sending(t.rows, t.next, t.txSet)], txs := s.txs[t.tx := s.txs[t.tx].(chunk := None)])
  }

  /** All publications forget the hashes they have in hand. */
  ghost function ForgetAll(s: State): State {
    s.(pub := map p | p in s.pub ::
                if s.pub[p].Recording? then Sending(s.pub[p].rows, s.pub[p].next, s.pub[p].txSet) else s.pub[p],
       txs := map t | t in s.txs :: if InHand(s.pub, t) then s.txs[t].(chunk := None) else s.txs[t])
  }

  /** The process stops and starts again: tables and chain stay, every running call is gone. */
  ghost function Crashed(s: State): State {
    ForgetAll(s).(notarizing := map[], pub := map[], tick := Idle)
  }

  /** Events; crashes; a send taken by the node whose hash is not stored, so that the chunk is marked FAILED;
      and transactions that are mined but reverted. */
  datatype Step = Normal(e: Event) | Crash | LoseHash(p: Period) | Revert(tx: TxId)

  ghost predicate Can(c: Config, s: State, step: Step) {
    match step
    case Normal(e) => Enabled(c, s, e)
    case Crash => true
    case LoseHash(p) =>
      && p in s.pub && s.pub[p].Recording? && s.pub[p].tx in s.txs
      && Enabled(c, Forget(s, p), FailSend(p))
    case Revert(tx) => tx in s.txs && s.txs[tx].block.None?
  }

  ghost function After(c: Config, s: State, step: Step): State
    requires Can(c, s, step)
  {
    match step
    case Normal(e) => Apply(c, s, e)
    case Crash => Crashed(s)
    case LoseHash(p) => Apply(c, Forget(s, p), FailSend(p))
    case Revert(tx) => s.(txs := Mine(s, tx))
  }

  ghost predicate FaultyRun(c: Config, s: State, steps: seq<Step>, t: State)
    decreases steps
  {
    if steps == [] then s == t
    else Can(c, s, steps[0]) && FaultyRun(c, After(c, s, steps[0]), steps[1..], t)
  }

  // ---- The damage ----

  /** What the unfinished mirror loops have added for asset a. */
  function InFlight(s: State, a: Id): map<Period, nat> {
    map p | p in s.batches :: if s.batches[p].mirrorApplied then 0 else CountOf(Take(s.batches[p].payload, Progress(s.tick, p)), a)
  }

  /** Counts added to the mirror by loops a crash cuts off: they will be added again. */
  ghost function Repeated(s: State, step: Step, a: Id): nat {
    if step.Crash? then MapSum(InFlight(s, a)) else 0
  }

  /** Counts of a reverted publication: taken for mined, yet not on chain. */
  function Missed(s: State, step: Step, a: Id): nat {
    if step.Revert? && step.tx in s.txs && s.txs[step.tx].call.PublishBatch? then CountOf(s.txs[step.tx].call.updates, a) else 0
  }

  ghost function AllRepeated(c: Config, s: State, steps: seq<Step>, a: Id): nat
    decreases steps
  {
    if steps == [] || !Can(c, s, steps[0]) then 0
    else Repeated(s, steps[0], a) + AllRepeated(c, After(c, s, steps[0]), steps[1..], a)
  }

  ghost function AllMissed(c: Config, s: State, steps: seq<Step>, a: Id): nat
    decreases steps
  {
    if steps == [] || !Can(c, s, steps[0]) then 0
    else Missed(s, steps[0], a) + AllMissed(c, After(c, s, steps[0]), steps[1..], a)
  }

  ghost function MirroredSum(s: State, a: Id): nat { MapSum(MirroredBy(s.batches, s.tick, a)) }

  ghost function LandedSum(c: Config, s: State, a: Id): nat {
    MapSum(LandedBy(c, s.batches, s.chunks, s.pub, s.txs, a))
  }

  /** Counts on chain that no chunk row knows of. */
  ghost function OrphanSum(s: State, a: Id): nat { MapSum(OrphanBy(s.txs, a)) }

  // ---- One step ----

  lemma InHandIsKnown(c: Config, s: State, p: Period)
    requires Core(c, s) && p in s.pub && s.pub[p].Recording?
    ensures var j, t := s.pub[p].next, s.pub[p].tx;
            && HasRow(s.chunks, p, j) && s.chunks[p][j].txHash.None? && p in s.batches
            && t in s.txs && s.txs[t].call == N.PublishBatch(p, s.chunks[p][j].payload) && s.txs[t].chunk == Some(j)
  {
    assert PublisherOk(s.views, s.batches, s.chunks, p, s.pub[p]);
    assert ChunkSent(s.chunks, s.pub, s.txs, p, s.pub[p].next);
  }

  lemma ForgetMovesLiveTx(c: Config, s: State, p: Period, q: Period, i: nat)
    requires Core(c, s) && p in s.pub && s.pub[p].Recording? && s.pub[p].tx in s.txs && HasRow(s.chunks, q, i)
    ensures LiveTx(s.chunks, Forget(s, p).pub, q, i)
         == if q == p && i == s.pub[p].next then None else LiveTx(s.chunks, s.pub, q, i)
  {
    InHandIsKnown(c, s, p);
  }

  lemma ForgetKeepsSent(c: Config, s: State, p: Period)
    requires Core(c, s) && p in s.pub && s.pub[p].Recording? && s.pub[p].tx in s.txs
    ensures SentInv(s.chunks, Forget(s, p).pub, Forget(s, p).txs) && OwnedInv(s.chunks, Forget(s, p).pub, Forget(s, p).txs)
  {
    InHandIsKnown(c, s, p);
    var m := Forget(s, p);
    forall q, i: nat | q in s.chunks && i < |s.chunks[q]| ensures ChunkSent(s.chunks, m.pub, m.txs, q, i) {
      assert ChunkSent(s.chunks, s.pub, s.txs, q, i);
      ForgetMovesLiveTx(c, s, p, q, i);
    }
    forall t | t in m.txs ensures Owned(s.chunks, m.pub, m.txs, t) {
      assert Owned(s.chunks, s.pub, s.txs, t);
      if m.txs[t].call.PublishBatch? && m.txs[t].chunk.Some? {
        ForgetMovesLiveTx(c, s, p, m.txs[t].call.period, m.txs[t].chunk.value);
      }
    }
  }

  lemma ForgetKeepsPublishers(c: Config, s: State, p: Period)
    requires Core(c, s) && p in s.pub && s.pub[p].Recording? && s.pub[p].tx in s.txs
    ensures PublishersInv(s.views, s.batches, s.chunks, Forget(s, p).pub)
  {
    forall q | q in Forget(s, p).pub ensures PublisherOk(s.views, s.batches, s.chunks, q, Forget(s, p).pub[q]) {
      assert PublisherOk(s.views, s.batches, s.chunks, q, s.pub[q]);
    }
  }

  /** Whom a publication belongs to matters to the chunk rows only. */
  lemma OwnerChangeKeepsRest(c: Config, s: State, txs': map<TxId, Tx>)
    requires Core(c, s) && txs'.Keys == s.txs.Keys
    requires forall t :: t in s.txs ==> txs'[t] == s.txs[t].(chunk := txs'[t].chunk)
    ensures NotarizationInv(s.assets, s.notarizing, txs') && ChainInv(c, s.assets, txs', s.chain)
    ensures BlocksInv(txs', s.head) && DepthInv(c, s.chunks, txs', s.head)
  {
    hide SentInv, OwnedInv, PublishersInv, ViewsInv, BatchesInv, ChunksInv, StatusInv, TickInv, N.LogTellsStorage, N.Known;
  }

  lemma ForgetKeepsCore(c: Config, s: State, p: Period)
    requires Core(c, s) && p in s.pub && s.pub[p].Recording? && s.pub[p].tx in s.txs
    ensures Core(c, Forget(s, p))
  {
    ForgetKeepsSent(c, s, p);
    ForgetKeepsPublishers(c, s, p);
    OwnerChangeKeepsRest(c, s, Forget(s, p).txs);
    hide SentInv, OwnedInv, PublishersInv, ViewsInv, BatchesInv, ChunksInv, StatusInv, TickInv, NotarizationInv, ChainInv, BlocksInv, DepthInv;
  }

  lemma ForgetMovesCount(c: Config, s: State, p: Period, q: Period, a: Id)
    requires Core(c, s) && p in s.pub && s.pub[p].Recording? && s.pub[p].tx in s.txs && q in s.batches
    ensures LandedCount(c, s.batches, s.chunks, s.pub, s.txs, q, a)
         == LandedCount(c, s.batches, s.chunks, Forget(s, p).pub, Forget(s, p).txs, q, a)
            + if q == p then OrphanCount(s.txs[s.pub[p].tx].(chunk := None), a) else 0
  {
    InHandIsKnown(c, s, p);
    var m := Forget(s, p);
    if q in s.chunks {
      var flags, flags' := Flags(s.chunks, s.pub, s.txs, q), Flags(s.chunks, m.pub, m.txs, q);
      forall i: nat | i < |s.chunks[q]|
        ensures flags'[i] == (flags[i] && !(q == p && i == s.pub[p].next))
      {
        ForgetMovesLiveTx(c, s, p, q, i);
      }
      if q == p && s.txs[s.pub[p].tx].block.Some? {
        assert flags == flags'[s.pub[p].next := true];
        CountFlaggedSet(Slices(s.batches[p].payload, c.maxChunk), flags', s.pub[p].next, a);
      } else {
        assert flags == flags';
      }
    }
  }

  /** What leaves the books of the chunks enters those of the orphans. */
  lemma ForgetBalances(c: Config, s: State, p: Period, a: Id)
    requires Core(c, s) && p in s.pub && s.pub[p].Recording? && s.pub[p].tx in s.txs
    ensures LandedSum(c, Forget(s, p), a) + OrphanSum(Forget(s, p), a) == LandedSum(c, s, a) + OrphanSum(s, a)
  {
    InHandIsKnown(c, s, p);
    var m, t := Forget(s, p), s.pub[p].tx;
    forall q | q in s.batches
      ensures LandedCount(c, s.batches, s.chunks, s.pub, s.txs, q, a)
           == LandedCount(c, s.batches, s.chunks, m.pub, m.txs, q, a)
              + if q == p then OrphanCount(s.txs[t].(chunk := None), a) else 0
    {
      ForgetMovesCount(c, s, p, q, a);
    }
    hide LandedCount, Core;
    MapSumChange(LandedBy(c, s.batches, s.chunks, m.pub, m.txs, a), LandedBy(c, s.batches, s.chunks, s.pub, s.txs, a), p);
    MapSumChange(OrphanBy(s.txs, a), OrphanBy(m.txs, a), t);
  }

  ghost function InHandSet(s: State): set<Period> {
    set p | p in s.pub && s.pub[p].Recording?
  }

  lemma {:induction false} ForgetAllBalances(c: Config, s: State, a: Id)
    requires Core(c, s)
    ensures Core(c, ForgetAll(s))
    ensures LandedSum(c, ForgetAll(s), a) + OrphanSum(ForgetAll(s), a) == LandedSum(c, s, a) + OrphanSum(s, a)
    decreases |InHandSet(s)|
  {
    if p :| p in InHandSet(s) {
      InHandIsKnown(c, s, p);
      var m := Forget(s, p);
      ForgetKeepsCore(c, s, p);
      ForgetBalances(c, s, p, a);
      assert InHandSet(m) == InHandSet(s) - {p};
      ForgetOneMore(c, s, p);
      hide Core, LandedSum, OrphanSum, ForgetAll;
      ForgetAllBalances(c, m, a);
    } else {
      assert forall p :: p in s.pub && s.pub[p].Recording? ==> p in InHandSet(s);
      ForgetNothing(s);
    }
  }

  lemma ForgetNothing(s: State)
    requires !HashInHand(s)
    ensures ForgetAll(s) == s
  {
    assert forall p :: p in s.pub ==> !s.pub[p].Recording?;
    assert ForgetAll(s).pub == s.pub;
    assert ForgetAll(s).txs == s.txs;
  }

  lemma ForgetOneMore(c: Config, s: State, p: Period)
    requires p in s.pub && s.pub[p].Recording? && s.pub[p].tx in s.txs
    ensures ForgetAll(Forget(s, p)) == ForgetAll(s)
  {
    var m := Forget(s, p);
    assert ForgetAll(m).pub == ForgetAll(s).pub;
    forall t | t in s.txs ensures ForgetAll(m).txs[t] == ForgetAll(s).txs[t] {
      if InHand(s.pub, t) {
        var q :| q in s.pub && s.pub[q].Recording? && s.pub[q].tx == t;
        if t != s.pub[p].tx {
          assert q in m.pub && m.pub[q].Recording? && m.pub[q].tx == t;
        }
      }
      if InHand(m.pub, t) {
        var q :| q in m.pub && m.pub[q].Recording? && m.pub[q].tx == t;
        assert q in s.pub && s.pub[q].Recording? && s.pub[q].tx == t;
      }
    }
    assert ForgetAll(m).txs == ForgetAll(s).txs;
  }

  lemma NothingInHand(s: State)
    ensures !HashInHand(ForgetAll(s))
  {
  }

  /** Stopping publications that have no hash in hand. */
  lemma StopKeepsTransactions(s: State, p: Period, j: nat)
    requires !HashInHand(s) && HasRow(s.chunks, p, j)
    ensures LiveTx(s.chunks, map[], p, j) == LiveTx(s.chunks, s.pub, p, j)
  {
    assert p in s.pub && s.pub[p].Recording? ==> HashInHand(s);
  }

  function Stopped(s: State): State {
    s.(notarizing := map[], pub := map[], tick := Idle)
  }

  lemma StopKeepsCore(c: Config, s: State)
    requires Core(c, s) && !HashInHand(s)
    ensures Core(c, Stopped(s))
  {
    forall p, j: nat | p in s.chunks && j < |s.chunks[p]| ensures ChunkSent(s.chunks, map[], s.txs, p, j) {
      assert ChunkSent(s.chunks, s.pub, s.txs, p, j);
      StopKeepsTransactions(s, p, j);
    }
    forall t | t in s.txs ensures Owned(s.chunks, map[], s.txs, t) {
      assert Owned(s.chunks, s.pub, s.txs, t);
      if s.txs[t].call.PublishBatch? && s.txs[t].chunk.Some? {
        StopKeepsTransactions(s, s.txs[t].call.period, s.txs[t].chunk.value);
      }
    }
  }

  lemma StopKeepsLanded(c: Config, s: State, a: Id)
    requires Core(c, s) && !HashInHand(s)
    ensures LandedSum(c, Stopped(s), a) == LandedSum(c, s, a)
  {
    var m, m' := LandedBy(c, s.batches, s.chunks, s.pub, s.txs, a), LandedBy(c, s.batches, s.chunks, map[], s.txs, a);
    forall p | p in s.batches ensures m'[p] == m[p] {
      if p in s.chunks {
        forall j: nat | j < |s.chunks[p]| ensures LiveTx(s.chunks, map[], p, j) == LiveTx(s.chunks, s.pub, p, j) {
          StopKeepsTransactions(s, p, j);
        }
        assert Flags(s.chunks, map[], s.txs, p) == Flags(s.chunks, s.pub, s.txs, p);
      }
    }
    hide LandedCount;
    MapSumSame(m, m');
  }

  /** A crash keeps the tables sound; only the owner of a hash in hand changes, from its chunk to nobody. */
  lemma CrashBalances(c: Config, s: State, a: Id)
    requires Core(c, s)
    ensures Core(c, Crashed(s))
    ensures LandedSum(c, Crashed(s), a) + OrphanSum(Crashed(s), a) == LandedSum(c, s, a) + OrphanSum(s, a)
  {
    ForgetAllBalances(c, s, a);
    NothingInHand(s);
    var m := ForgetAll(s);
    assert Crashed(s) == Stopped(m);
    hide Core, LandedSum, ForgetAll, Crashed;
    StopKeepsCore(c, m);
    StopKeepsLanded(c, m, a);
  }

  /** A crash takes the unfinished loops out of the books, but not out of the mirror. */
  lemma CrashDropsInFlight(s: State, a: Id)
    ensures MirroredSum(s, a) == MirroredSum(Crashed(s), a) + MapSum(InFlight(s, a))
  {
    var x, y, z := MirroredBy(s.batches, s.tick, a), MirroredBy(s.batches, Idle, a), InFlight(s, a);
    forall p | p in s.batches ensures x[p] == y[p] + z[p] {
      assert s.batches[p].payload[..0] == [];
    }
    MapSumAdd(x, y, z);
  }

  lemma RevertKeepsSent(c: Config, s: State, tx: TxId)
    requires Core(c, s) && tx in s.txs && s.txs[tx].block.None?
    ensures SentInv(s.chunks, s.pub, Mine(s, tx)) && OwnedInv(s.chunks, s.pub, Mine(s, tx))
  {
    var txs' := Mine(s, tx);
    forall p, j: nat | p in s.chunks && j < |s.chunks[p]| ensures ChunkSent(s.chunks, s.pub, txs', p, j) {
      assert ChunkSent(s.chunks, s.pub, s.txs, p, j);
      assert s.chunks[p][j].status == CONFIRMED ==> Deep(c, s.txs, s.head, s.chunks[p][j].txHash.value);
    }
    forall t | t in txs' ensures Owned(s.chunks, s.pub, txs', t) {
      assert Owned(s.chunks, s.pub, s.txs, t);
    }
  }

  lemma RevertKeepsRest(c: Config, s: State, tx: TxId)
    requires Core(c, s) && tx in s.txs && s.txs[tx].block.None?
    ensures DepthInv(c, s.chunks, Mine(s, tx), s.head)
    ensures NotarizationInv(s.assets, s.notarizing, Mine(s, tx))
    ensures ChainInv(c, s.assets, Mine(s, tx), s.chain)
    ensures BlocksInv(Mine(s, tx), s.head)
  {
    hide SentInv, OwnedInv, PublishersInv, TickInv, StatusInv, ChunksInv, BatchesInv, N.LogTellsStorage;
  }

  lemma RevertKeepsCore(c: Config, s: State, tx: TxId)
    requires Core(c, s) && tx in s.txs && s.txs[tx].block.None?
    ensures Core(c, s.(txs := Mine(s, tx)))
  {
    RevertKeepsSent(c, s, tx);
    RevertKeepsRest(c, s, tx);
    hide SentInv, OwnedInv, PublishersInv, TickInv, StatusInv, ChunksInv, BatchesInv, DepthInv, NotarizationInv, ChainInv, BlocksInv, ViewsInv, Mine, Can;
  }

  lemma LosingAHash(c: Config, s: State, p: Period, a: Id)
    requires Core(c, s) && Can(c, s, LoseHash(p))
    ensures Core(c, After(c, s, LoseHash(p)))
    ensures InMirror(After(c, s, LoseHash(p)), a) + MirroredSum(s, a) == InMirror(s, a) + MirroredSum(After(c, s, LoseHash(p)), a)
    ensures OnChain(After(c, s, LoseHash(p)), a) + LandedSum(c, s, a) + OrphanSum(s, a)
         == OnChain(s, a) + LandedSum(c, After(c, s, LoseHash(p)), a) + OrphanSum(After(c, s, LoseHash(p)), a)
  {
    hide Apply, Enabled;
    var m := Forget(s, p);
    ForgetKeepsCore(c, s, p);
    ForgetBalances(c, s, p, a);
    EventKeepsCore(c, m, FailSend(p));
    MirrorBalance(c, m, FailSend(p), a);
    ChainBalance(c, m, FailSend(p), a);
  }

  /** The books after one step, faulty or not. */
  lemma StepAccounts(c: Config, s: State, step: Step, a: Id)
    requires Core(c, s) && Can(c, s, step)
    ensures Core(c, After(c, s, step))
    ensures InMirror(After(c, s, step), a) + MirroredSum(s, a)
         == InMirror(s, a) + MirroredSum(After(c, s, step), a) + Repeated(s, step, a)
    ensures OnChain(After(c, s, step), a) + LandedSum(c, s, a) + OrphanSum(s, a) + Missed(s, step, a)
         == OnChain(s, a) + LandedSum(c, After(c, s, step), a) + OrphanSum(After(c, s, step), a)
  {
    hide Apply, Enabled;
    if step.Normal? {
      MirrorBalance(c, s, step.e, a);
      ChainBalance(c, s, step.e, a);
      EventKeepsCore(c, s, step.e);
    } else if step.Crash? {
      CrashBalances(c, s, a);
      CrashDropsInFlight(s, a);
    } else if step.LoseHash? {
      LosingAHash(c, s, step.p, a);
    } else {
      RevertKeepsCore(c, s, step.tx);
      ChainCountAfterMining(c, s, step.tx, a);
    }
  }

  // ---- Whole faulty runs ----

  lemma {:induction false} RunAccounts(c: Config, s: State, steps: seq<Step>, t: State, a: Id)
    requires Core(c, s) && FaultyRun(c, s, steps, t)
    ensures Core(c, t)
    ensures InMirror(t, a) + MirroredSum(s, a) == InMirror(s, a) + MirroredSum(t, a) + AllRepeated(c, s, steps, a)
    ensures OnChain(t, a) + LandedSum(c, s, a) + OrphanSum(s, a) + AllMissed(c, s, steps, a)
         == OnChain(s, a) + LandedSum(c, t, a) + OrphanSum(t, a)
    decreases steps
  {
    hide Core, Can, After, MirroredSum, LandedSum, OrphanSum, OnChain, InMirror, Repeated, Missed;
    if steps != [] {
      StepAccounts(c, s, steps[0], a);
      RunAccounts(c, After(c, s, steps[0]), steps[1..], t, a);
    }
  }

  /** Conservation with faults. Over every run from the empty system with any number of crashes, lost hashes
      and reverted transactions, the mirror is what it should be plus exactly what cut-off loops had added,
      and the chain is what the chunk rows say plus exactly the mined publications no row knows of, less
      exactly what reverted. */
  lemma FaultAccounting(c: Config, steps: seq<Step>, t: State, a: Id)
    requires FaultyRun(c, Init(c), steps, t)
    ensures InMirror(t, a) == MirroredSum(t, a) + AllRepeated(c, Init(c), steps, a)
    ensures OnChain(t, a) + AllMissed(c, Init(c), steps, a) == LandedSum(c, t, a) + OrphanSum(t, a)
  {
    InitInv(c);
    var s := Init(c);
    assert MirroredBy(s.batches, s.tick, a) == map[] && LandedBy(c, s.batches, s.chunks, s.pub, s.txs, a) == map[];
    assert OrphanBy(s.txs, a) == map[];
    RunAccounts(c, s, steps, t, a);
  }

  lemma MirroredPeriod(c: Config, t: State, p: Period, a: Id)
    requires Core(c, t) && p in t.batches && t.batches[p].mirrorApplied
    ensures MirroredCount(t.batches, t.tick, p, a) == ViewCount(t.views, p, a)
    ensures LandedCount(c, t.batches, t.chunks, t.pub, t.txs, p, a) == ViewCount(t.views, p, a)
  {
    assert BatchOk(t.views, p, t.batches[p]);
    assert StatusOk(t.batches, RowsOf(t.chunks, p), p);
    ConfirmedLanded(c, t, p, a);
  }

  lemma AllMirroredSums(c: Config, t: State, a: Id)
    requires Core(c, t)
    requires forall p :: p in t.batches ==> t.batches[p].mirrorApplied
    ensures MirroredSum(t, a) == |PublishedViews(t.views, t.batches, a)| == LandedSum(c, t, a)
  {
    hide Core, LandedCount, MirroredCount;
    var m, l, v := MirroredBy(t.batches, t.tick, a), LandedBy(c, t.batches, t.chunks, t.pub, t.txs, a), ViewsBy(t.views, t.batches, a);
    forall p | p in t.batches ensures m[p] == v[p] && l[p] == v[p] {
      MirroredPeriod(c, t, p, a);
    }
    MapSumSame(m, v);
    MapSumSame(l, v);
    PeriodsPartitionViews(t.views, t.batches, a);
  }

  lemma FaultyCore(c: Config, steps: seq<Step>, t: State)
    requires FaultyRun(c, Init(c), steps, t)
    ensures Core(c, t)
  {
    InitInv(c);
    RunAccounts(c, Init(c), steps, t, 0);
  }

  /** Once every batch is mirrored, the damage is all that is left between chain, mirror and views: the two
      counters agree exactly when what was repeated and missed makes up for what was sent twice. */
  lemma DamageSurfaces(c: Config, steps: seq<Step>, t: State, a: Id)
    requires FaultyRun(c, Init(c), steps, t)
    requires forall p :: p in t.batches ==> t.batches[p].mirrorApplied
    ensures InMirror(t, a) == |PublishedViews(t.views, t.batches, a)| + AllRepeated(c, Init(c), steps, a)
    ensures OnChain(t, a) + AllMissed(c, Init(c), steps, a) == |PublishedViews(t.views, t.batches, a)| + OrphanSum(t, a)
    ensures OnChain(t, a) == InMirror(t, a)
       <==> AllRepeated(c, Init(c), steps, a) + AllMissed(c, Init(c), steps, a) == OrphanSum(t, a)
  {
    hide Core, FaultyRun, MirroredSum, LandedSum, OrphanSum, OnChain, InMirror, AllRepeated, AllMissed;
    FaultAccounting(c, steps, t, a);
    FaultyCore(c, steps, t);
    AllMirroredSums(c, t, a);
  }

  // ---- When a crash is harmless ----

  /** No hash waits to be written, no asset is being notarised, no mirror loop is past its first addition
      with its flag unset, and no confirmed period still waits for its views to be anchored. */
  predicate CrashSafe(s: State) {
    && !HashInHand(s)
    && s.notarizing == map[]
    && (s.tick.Finalising? ==> forall p :: p in s.tick.tasks ==>
          && (s.tick.tasks[p].Mirroring? ==> s.tick.tasks[p].next == 0)
          && !s.tick.tasks[p].Anchoring?)
  }

  /** The views of a period whose anchoring has not run are not anchored. */
  ghost predicate Waiting(s: State) {
    forall i :: 0 <= i < |s.views| && InAnchoring(s.tick, s.views[i].period) ==> !s.views[i].anchored
  }

  lemma WaitingKept(c: Config, s: State, e: Event)
    requires Inv(c, s) && Waiting(s) && Enabled(c, s, e)
    ensures Waiting(Apply(c, s, e))
  {
    hide Apply, Enabled, Core;
    OthersUntouched(c, s, e);
    var s' := Apply(c, s, e);
    if e.AnchorViews? {
      AfterAnchor(c, s, e.p);
      AnchorFacts(s.views, e.p);
    } else if e.Register? {
      AfterRegister(c, s, e.key, e.asset, e.period);
    }
    forall i | 0 <= i < |s'.views| && InAnchoring(s'.tick, s'.views[i].period) ensures !s'.views[i].anchored {
      var p := s'.views[i].period;
      AnchoringBegins(c, s, e, p) by { InvIsCore(c, s); }
      if i < |s.views| {
        assert AnchorOk(s.batches, s.tick, s.views[i]);
      }
    }
  }

  lemma AnchoringTaskBegins(s: State, e: Event)
    requires TaskEvent(e) && TaskCan(s, e) && e.p in s.batches
    requires TaskOk(s.batches, RowsOf(s.chunks, e.p), e.p, s.tick.tasks[e.p])
    requires InAnchoring(ApplyTask(s, e).tick, e.p)
    ensures e == ConfirmBatch(e.p) && s.batches[e.p].status != CONFIRMED
  {
  }

  lemma AnchoringElsewhere(s: State, e: Event, p: Period)
    requires TaskEvent(e) && TaskCan(s, e) && e.p != p && InAnchoring(ApplyTask(s, e).tick, p)
    ensures InAnchoring(s.tick, p)
  {
  }

  lemma AnchoringInTick(c: Config, s: State, e: Event, p: Period)
    requires TickEvent(e) && TickCan(s, e)
    ensures !InAnchoring(ApplyTick(c, s, e).tick, p)
  {
  }

  lemma TaskHere(c: Config, s: State, p: Period)
    requires Core(c, s) && InTask(s, p)
    ensures p in s.batches && TaskOk(s.batches, RowsOf(s.chunks, p), p, s.tick.tasks[p])
  {
  }

  lemma AnchoringBegins(c: Config, s: State, e: Event, p: Period)
    requires Core(c, s) && Enabled(c, s, e) && InAnchoring(Apply(c, s, e).tick, p)
    ensures e != AnchorViews(p)
    ensures InAnchoring(s.tick, p) || (e == ConfirmBatch(p) && p in s.batches && s.batches[p].status != CONFIRMED)
  {
    hide Core, Apply, Enabled, ApplyTask, ApplyTick, TickCan, TaskOk;
    if TaskEvent(e) {
      AfterTaskEvent(c, s, e);
      if e.p == p {
        TaskHere(c, s, p);
        AnchoringTaskBegins(s, e);
      } else {
        AnchoringElsewhere(s, e, p);
      }
    } else if TickEvent(e) {
      AfterTickEvent(c, s, e);
      AnchoringInTick(c, s, e, p);
    } else {
      OthersUntouched(c, s, e);
    }
  }

  lemma {:induction false} RunKeepsWaiting(c: Config, s: State, es: seq<Event>, t: State)
    requires Inv(c, s) && Waiting(s) && Run(c, s, es, t)
    ensures Waiting(t)
    decreases es
  {
    hide Apply, Enabled, Inv, Waiting;
    if es != [] {
      EventKeepsInv(c, s, es[0]);
      WaitingKept(c, s, es[0]);
      RunKeepsWaiting(c, Apply(c, s, es[0]), es[1..], t);
    }
  }

  lemma ReachableWaiting(c: Config, s: State)
    requires Reachable(c, s)
    ensures Waiting(s)
  {
    hide Apply, Enabled;
    var es :| Run(c, Init(c), es, s);
    InitInv(c);
    RunKeepsWaiting(c, Init(c), es, s);
  }

  lemma NothingInFlight(s: State, a: Id)
    requires CrashSafe(s)
    ensures MapSum(InFlight(s, a)) == 0
  {
    forall p | p in s.batches ensures InFlight(s, a)[p] == 0 {
      assert s.batches[p].payload[..0] == [];
    }
    MapSumAllZero(InFlight(s, a));
  }

  lemma SafeCrash(s: State)
    requires CrashSafe(s)
    ensures Crashed(s) == Stopped(s) && !HashInHand(s) && Crashed(s).notarizing == s.notarizing
  {
    ForgetNothing(s);
  }

  lemma SafeCrashCounts(c: Config, s: State, a: Id)
    requires Inv(c, s) && CrashSafe(s)
    ensures OnChain(Stopped(s), a) == LandedSum(c, Stopped(s), a)
    ensures InMirror(Stopped(s), a) == MirroredSum(Stopped(s), a)
  {
    assert OnChain(s, a) == LandedSum(c, s, a) && InMirror(s, a) == MirroredSum(s, a);
    assert Core(c, s);
    SafeCrash(s);
    hide Inv, Core, LandedSum, MirroredSum;
    StopKeepsLanded(c, s, a);
    CrashDropsInFlight(s, a);
    NothingInFlight(s, a);
  }

  lemma SafeCrashAnchors(c: Config, s: State)
    requires Inv(c, s) && CrashSafe(s)
    ensures AnchorInv(s.views, s.batches, Idle)
  {
    forall i | 0 <= i < |s.views| ensures AnchorOk(s.batches, Idle, s.views[i]) {
      assert AnchorOk(s.batches, s.tick, s.views[i]);
    }
  }

  lemma SafeCrashKeepsInv(c: Config, s: State)
    requires Inv(c, s) && CrashSafe(s)
    ensures Inv(c, Crashed(s))
  {
    SafeCrash(s);
    hide Core, CrashSafe, AnchorInv, RegistryInv, NoOrphans, Crashed;
    StopKeepsCore(c, s);
    SafeCrashAnchors(c, s);
    var t := Stopped(s);
    forall a
      ensures N.Total(t.chain, a) == MapSum(LandedBy(c, t.batches, t.chunks, t.pub, t.txs, a))
      ensures Mirror(t.assets, a) == MapSum(MirroredBy(t.batches, t.tick, a))
    {
      SafeCrashCounts(c, s, a);
    }
  }

  lemma LostHashBreaks(c: Config, s: State, p: Period)
    requires Inv(c, s) && p in s.pub && s.pub[p].Recording?
    ensures !Inv(c, Crashed(s))
  {
    InHandIsKnown(c, s, p);
    var t := s.pub[p].tx;
    assert InHand(s.pub, t);
    assert Crashed(s).txs[t].chunk.None? && Crashed(s).txs[t].call.PublishBatch?;
  }

  lemma LostNotarisationBreaks(c: Config, s: State, id: Id)
    requires Inv(c, s) && id in s.notarizing
    ensures !Inv(c, Crashed(s))
  {
    assert id in Crashed(s).assets && Crashed(s).assets[id].status == PENDING && Crashed(s).assets[id].txHash.None?;
  }

  lemma CutLoopBreaks(c: Config, s: State, p: Period)
    requires Inv(c, s) && InTask(s, p) && s.tick.tasks[p].Mirroring? && s.tick.tasks[p].next > 0
    ensures !Inv(c, Crashed(s))
  {
    var t := s.tick.tasks[p];
    assert TaskOk(s.batches, RowsOf(s.chunks, p), p, t);
    assert BatchOk(s.views, p, s.batches[p]);
    var a := t.payload[0].asset;
    CountOfMember(t.payload[..t.next], a);
    assert t.payload[..t.next][0].views <= CountOf(t.payload[..t.next], a);
    MapSumRemove(InFlight(s, a), p);
    CrashDropsInFlight(s, a);
    assert InMirror(s, a) == MirroredSum(s, a);
    assert InMirror(Crashed(s), a) != MirroredSum(Crashed(s), a);
  }

  lemma LostAnchoringBreaks(c: Config, s: State, p: Period)
    requires Inv(c, s) && Waiting(s) && InAnchoring(s.tick, p)
    ensures !Inv(c, Crashed(s))
  {
    assert TaskOk(s.batches, RowsOf(s.chunks, p), p, s.tick.tasks[p]);
    assert BatchOk(s.views, p, s.batches[p]);
    CountIsEntry(s.batches[p].payload, 0);
    ViewCountPositive(s.views, p, s.batches[p].payload[0].asset);
    var i :| 0 <= i < |s.views| && s.views[i].period == p;
    assert !s.views[i].anchored;
    assert !AnchorOk(s.batches, Idle, s.views[i]);
  }

  /** What a crash leaves consistent, exactly. A crash in a reachable state keeps the invariant if and only if
      no hash waits to be written, no asset is being notarised, no mirror loop has begun without its flag,
      and no confirmed period waits to be anchored. */
  lemma CrashSafeIff(c: Config, s: State)
    requires Reachable(c, s)
    ensures Inv(c, Crashed(s)) <==> CrashSafe(s)
  {
    ReachableInv(c, s);
    ReachableWaiting(c, s);
    hide Inv, Waiting, Reachable, Crashed;
    if CrashSafe(s) {
      SafeCrashKeepsInv(c, s);
    } else if HashInHand(s) {
      var p :| p in s.pub && s.pub[p].Recording?;
      LostHashBreaks(c, s, p);
    } else if s.notarizing != map[] {
      var id :| id in s.notarizing;
      LostNotarisationBreaks(c, s, id);
    } else {
      var p :| p in s.tick.tasks && ((s.tick.tasks[p].Mirroring? && s.tick.tasks[p].next != 0) || s.tick.tasks[p].Anchoring?);
      if s.tick.tasks[p].Anchoring? {
        LostAnchoringBreaks(c, s, p);
      } else {
        CutLoopBreaks(c, s, p);
      }
    }
  }

  // ---- Anchoring lost for good ----

  /** The period is confirmed, its anchoring will not run any more, and none of its views is anchored. */
  ghost predicate Stranded(s: State, p: Period) {
    && p in s.batches && s.batches[p].status == CONFIRMED && !InAnchoring(s.tick, p)
    && forall i :: 0 <= i < |s.views| && s.views[i].period == p ==> !s.views[i].anchored
  }

  lemma StrandedViews(c: Config, s: State, e: Event, p: Period)
    requires Enabled(c, s, e) && Stranded(s, p)
    ensures var views := Apply(c, s, e).views; forall i :: 0 <= i < |views| && views[i].period == p ==> !views[i].anchored
  {
    hide Apply, Enabled;
    if e.AnchorViews? {
      AfterAnchor(c, s, e.p);
      AnchorFacts(s.views, e.p);
    } else if e.Register? {
      AfterRegister(c, s, e.key, e.asset, e.period);
    } else {
      OthersUntouched(c, s, e);
    }
  }

  lemma StrandedKept(c: Config, s: State, e: Event, p: Period)
    requires Core(c, s) && Enabled(c, s, e) && Stranded(s, p)
    ensures Stranded(Apply(c, s, e), p)
  {
    hide Apply, Enabled;
    StatusMoves(c, s, e, p);
    StrandedViews(c, s, e, p);
    hide Core;
    if InAnchoring(Apply(c, s, e).tick, p) { AnchoringBegins(c, s, e, p); }
  }

  lemma {:induction false} RunKeepsStranded(c: Config, s: State, es: seq<Event>, t: State, p: Period)
    requires Core(c, s) && Stranded(s, p) && Run(c, s, es, t)
    ensures Stranded(t, p)
    decreases es
  {
    hide Apply, Enabled, Core, Stranded;
    if es != [] {
      EventKeepsCore(c, s, es[0]);
      StrandedKept(c, s, es[0], p);
      RunKeepsStranded(c, Apply(c, s, es[0]), es[1..], t, p);
    }
  }

  /** A crash between the confirmation of a period and its anchoring is never made good: whatever runs
      afterwards, the period is CONFIRMED and none of its views, of which there is at least one, is anchored. */
  lemma LostAnchoringIsForever(c: Config, s: State, p: Period, es: seq<Event>, t: State)
    requires Reachable(c, s) && InAnchoring(s.tick, p)
    requires Run(c, Crashed(s), es, t)
    ensures Stranded(t, p)
    ensures exists i :: 0 <= i < |s.views| && s.views[i].period == p
  {
    ReachableInv(c, s);
    ReachableWaiting(c, s);
    assert TaskOk(s.batches, RowsOf(s.chunks, p), p, s.tick.tasks[p]);
    assert BatchOk(s.views, p, s.batches[p]);
    CountIsEntry(s.batches[p].payload, 0);
    ViewCountPositive(s.views, p, s.batches[p].payload[0].asset);
    assert Core(c, s) && Stranded(Crashed(s), p);
    hide Core, Inv, Stranded, Reachable, Apply, Enabled, Crashed;
    CrashBalances(c, s, 0);
    RunKeepsStranded(c, Crashed(s), es, t, p);
  }

  // ---- A notarisation lost for good ----

  /** The row waits for a hash that no running call will write. */
  predicate Abandoned(s: State, id: Id) {
    id in s.assets && s.assets[id].status == PENDING && s.assets[id].txHash.None? && id !in s.notarizing
  }

  /** No notarisation of the asset is on chain, in the mempool or under way, and its row keeps others out. */
  ghost predicate Unregistrable(s: State, id: Id) {
    && id in s.assets && id !in s.notarizing && !N.Known(s.chain, id)
    && forall t :: t in s.txs && s.txs[t].call.NotarizeAsset? ==> s.txs[t].call.asset != id
  }

  lemma UserKeepsAbandoned(c: Config, s: State, e: Event, id: Id)
    requires UserEvent(e) && UserCan(c, s, e) && id in s.assets && id !in s.notarizing
    ensures id in ApplyUser(c, s, e).assets && id !in ApplyUser(c, s, e).notarizing
    ensures Abandoned(s, id) ==> Abandoned(ApplyUser(c, s, e), id)
    ensures e.SendNotarize? ==> e.id != id
  {
  }

  lemma AbandonedKept(c: Config, s: State, e: Event, id: Id)
    requires Enabled(c, s, e) && id in s.assets && id !in s.notarizing
    ensures id in Apply(c, s, e).assets && id !in Apply(c, s, e).notarizing
    ensures Abandoned(s, id) ==> Abandoned(Apply(c, s, e), id)
    ensures e.SendNotarize? ==> e.id != id
  {
    hide Apply, Enabled, ApplyUser, UserCan;
    if UserEvent(e) {
      AfterAssetEvent(c, s, e);
      UserKeepsAbandoned(c, s, e, id);
    } else {
      OthersUntouched(c, s, e);
      if e.MirrorOne? { AfterMirrorOne(c, s, e.p); }
    }
  }

  lemma UnregistrableKept(c: Config, s: State, e: Event, id: Id)
    requires Core(c, s) && Enabled(c, s, e) && Unregistrable(s, id)
    ensures Unregistrable(Apply(c, s, e), id)
  {
    hide Apply, Enabled, N.Known;
    AbandonedKept(c, s, e, id);
    TxRowsMove(c, s, e);
    if e.Include? {
      AfterInclude(c, s, e.tx, e.timestamp);
      CallKeepsRegistry(s.chain, c.attester, s.txs[e.tx].call, e.timestamp);
    } else {
      MinedBefore(c, s, e);
    }
  }

  lemma {:induction false} RunKeepsUnregistrable(c: Config, s: State, es: seq<Event>, t: State, id: Id)
    requires Core(c, s) && Unregistrable(s, id) && Run(c, s, es, t)
    ensures Unregistrable(t, id) && Core(c, t)
    decreases es
  {
    hide Apply, Enabled, Core, Unregistrable;
    if es != [] {
      EventKeepsCore(c, s, es[0]);
      UnregistrableKept(c, s, es[0], id);
      RunKeepsUnregistrable(c, Apply(c, s, es[0]), es[1..], t, id);
    }
  }

  lemma {:induction false} RunKeepsAbandoned(c: Config, s: State, es: seq<Event>, t: State, id: Id)
    requires Abandoned(s, id) && Run(c, s, es, t)
    ensures Abandoned(t, id)
    decreases es
  {
    hide Apply, Enabled, Abandoned;
    if es != [] {
      AbandonedHere(s, id);
      AbandonedKept(c, s, es[0], id);
      RunKeepsAbandoned(c, Apply(c, s, es[0]), es[1..], t, id);
    }
  }

  lemma AbandonedHere(s: State, id: Id)
    requires Abandoned(s, id)
    ensures id in s.assets && id !in s.notarizing
  {
  }

  lemma CrashStrands(s: State, id: Id)
    requires NotarizationInv(s.assets, s.notarizing, s.txs) && RegistryInv(s.assets, s.notarizing, s.txs, s.chain)
    requires id in s.notarizing && s.notarizing[id].None?
    ensures Unregistrable(Crashed(s), id)
  {
    hide N.Known, InHand;
    var r := Crashed(s);
    forall t | t in r.txs && r.txs[t].call.NotarizeAsset? ensures r.txs[t].call.asset != id {
      assert r.txs[t].call == s.txs[t].call;
    }
  }

  lemma CrashAbandons(c: Config, s: State, id: Id)
    requires Inv(c, s) && id in s.notarizing
    ensures Abandoned(Crashed(s), id)
    ensures s.notarizing[id].None? ==> Unregistrable(Crashed(s), id)
  {
    hide Unregistrable;
    if s.notarizing[id].None? { CrashStrands(s, id); }
  }

  /** A crash inside a notarisation is never made good: in every later run the row stays PENDING without hash,
      so the asset is never CONFIRMED and its id never free for another try; and when nothing had been sent,
      the asset never gets on chain. */
  lemma LostNotarisationIsForever(c: Config, s: State, id: Id, es: seq<Event>, t: State)
    requires Reachable(c, s) && id in s.notarizing && Run(c, Crashed(s), es, t)
    ensures Abandoned(t, id)
    ensures forall hash :: !Enabled(c, t, CreateAsset(id, hash))
    ensures s.notarizing[id].None? ==> Unregistrable(t, id)
  {
    hide Core, Inv, Reachable, Apply, Enabled, Crashed, Unregistrable, Abandoned;
    ReachableInv(c, s);
    CrashAbandons(c, s, id);
    RunKeepsAbandoned(c, Crashed(s), es, t, id);
    AbandonedHere(t, id);
    if s.notarizing[id].None? {
      CrashBalances(c, s, 0) by { InvIsCore(c, s); }
      RunKeepsUnregistrable(c, Crashed(s), es, t, id);
    }
    forall hash ensures !Enabled(c, t, CreateAsset(id, hash)) {
      AfterCreateAsset(c, t, id, hash);
    }
  }

  // ---- A reverted notarisation ----

  lemma {:induction false} Deepen(c: Config, s: State, n: nat) returns (steps: seq<Step>, t: State)
    ensures FaultyRun(c, s, steps, t) && t == s.(head := s.head + n)
    decreases n
  {
    if n == 0 {
      steps, t := [], s;
    } else {
      AfterNewBlock(c, s);
      var rest;
      rest, t := Deepen(c, s.(head := s.head + 1), n - 1);
      steps := [Normal(NewBlock)] + rest;
      assert steps[1..] == rest;
    }
  }

  lemma {:induction false} FaultyConcat(c: Config, s: State, xs: seq<Step>, m: State, ys: seq<Step>, t: State)
    requires FaultyRun(c, s, xs, m) && FaultyRun(c, m, ys, t)
    ensures FaultyRun(c, s, xs + ys, t)
    decreases xs
  {
    hide Can, After;
    if xs == [] {
      assert xs + ys == ys;
    } else {
      FaultyConcat(c, After(c, s, xs[0]), xs[1..], m, ys, t);
      assert (xs + ys)[1..] == xs[1..] + ys;
    }
  }

  lemma FaultyOne(c: Config, s: State, step: Step)
    requires Can(c, s, step)
    ensures FaultyRun(c, s, [step], After(c, s, step))
  {
    assert [step][1..] == [];
  }

  /** The receipt status is never read: an asset whose notarisation is in the mempool can revert, grow deep,
      and be CONFIRMED without being on chain. */
  lemma RevertedNotarisationConfirms(c: Config, s: State, id: Id) returns (steps: seq<Step>, t: State)
    requires id in s.assets && s.assets[id].status == PENDING && s.assets[id].txHash.Some? && !N.Known(s.chain, id)
    requires s.assets[id].txHash.value in s.txs && s.txs[s.assets[id].txHash.value].block.None?
    ensures FaultyRun(c, s, steps, t)
    ensures id in t.assets && t.assets[id].status == CONFIRMED && !N.Known(t.chain, id)
  {
    hide Apply, Enabled;
    var tx := s.assets[id].txHash.value;
    var s1 := After(c, s, Revert(tx));
    FaultyOne(c, s, Revert(tx));
    var ys, s2 := Deepen(c, s1, c.depth);
    assert Deep(c, s2.txs, s2.head, tx);
    AfterConfirmAsset(c, s2, id);
    t := After(c, s2, Normal(ConfirmAsset(id)));
    FaultyOne(c, s2, Normal(ConfirmAsset(id)));
    FaultyConcat(c, s, [Revert(tx)], s1, ys, s2);
    FaultyConcat(c, s, [Revert(tx)] + ys, s2, [Normal(ConfirmAsset(id))], t);
    steps := [Revert(tx)] + ys + [Normal(ConfirmAsset(id))];
  }
}
