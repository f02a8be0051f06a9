/** Two undisturbed reconciliation ticks bring everything published to rest. */
module Convergence {
  import opened Options
  import opened Payloads
  import opened Sums
  import N = NotaryContract
  import opened Protocol
  import opened Invariant
  import opened Moves
  import opened TablesKept
  import opened TransactionsKept
  import opened ReconciliationKept
  import opened Counting
  import opened Runs
  import opened Conservation

  /** Publishing has stopped and no call of the tick throws; everything else may happen in between. */
  predicate Calm(e: Event) {
    !e.ReadAggregates? && !e.FailPeriod? && !(e.CheckChunk? && e.failed)
  }

  ghost predicate SentDeep(c: Config, s: State, p: Period) {
    && p in s.chunks && s.chunks[p] != []
    && forall j :: 0 <= j < |s.chunks[p]| ==> s.chunks[p][j].txHash.Some? && Deep(c, s.txs, s.head, s.chunks[p][j].txHash.value)
  }

  /** No publication is running, and every chunk of every pending batch is sent and mined to depth. */
  ghost predicate Ready(c: Config, s: State) {
    && s.pub == map[]
    && forall p :: p in s.batches && s.batches[p].status == PENDING ==> SentDeep(c, s, p)
  }

  ghost predicate AllSentDeep(c: Config, s: State) {
    && s.pub == map[]
    && forall p :: p in s.batches ==> SentDeep(c, s, p)
  }

  lemma ReadyIsDeep(c: Config, s: State)
    requires Inv(c, s) && Ready(c, s)
    ensures AllSentDeep(c, s)
  {
    forall p | p in s.batches ensures SentDeep(c, s, p) {
      assert StatusOk(s.batches, RowsOf(s.chunks, p), p);
      if s.batches[p].status == CONFIRMED {
        forall j: nat | j < |s.chunks[p]|
          ensures s.chunks[p][j].txHash.Some? && Deep(c, s.txs, s.head, s.chunks[p][j].txHash.value)
        {
          assert s.chunks[p][j].status == CONFIRMED;
        }
      }
    }
  }

  /** With no publisher running, none starts. */
  lemma CalmStep(c: Config, s: State, e: Event)
    requires Enabled(c, s, e) && Calm(e) && s.pub == map[]
    ensures !PublisherEvent(e) && Apply(c, s, e).pub == map[]
    ensures Apply(c, s, e).batches.Keys == s.batches.Keys
    ensures Apply(c, s, e).chunks.Keys == s.chunks.Keys
  {
    hide Apply, Enabled;
    if PublisherEvent(e) {
      AfterPublisherEvent(c, s, e);
    } else {
      PayloadsStay(c, s, e);
      SendsStay(c, s, e);
      assert forall p :: p in Apply(c, s, e).batches <==> p in s.batches;
    }
  }

  lemma DeepKept(c: Config, s: State, e: Event)
    requires Enabled(c, s, e) && Calm(e) && AllSentDeep(c, s)
    ensures AllSentDeep(c, Apply(c, s, e))
  {
    hide Apply, Enabled;
    CalmStep(c, s, e);
    SendsStay(c, s, e);
    var s' := Apply(c, s, e);
    forall p | p in s'.batches ensures SentDeep(c, s', p) {
      assert SentDeep(c, s, p);
      forall j: nat | j < |s'.chunks[p]|
        ensures s'.chunks[p][j].txHash.Some? && Deep(c, s'.txs, s'.head, s'.chunks[p][j].txHash.value)
      {
        DeepStays(c, s, e, s.chunks[p][j].txHash.value);
      }
    }
  }

  // ---- The first tick: every chunk confirmed, every batch mirrored ----

  ghost predicate FirstTick(s: State) {
    match s.tick
    case Idle => true
    case ConfirmingChunks(todo) =>
      forall p, j: nat :: p in s.batches && HasRow(s.chunks, p, j) ==> s.chunks[p][j].status == CONFIRMED || (p, j) in todo
    case Finalising(tasks) =>
      forall p :: p in s.batches ==> AllConfirmed(RowsOf(s.chunks, p)) && (s.batches[p].mirrorApplied || StillMirroring(tasks, p))
  }

  predicate StillMirroring(tasks: map<Period, Task>, p: Period) {
    p in tasks && (tasks[p].Loading? || tasks[p].Mirroring?)
  }

  ghost predicate AllMirrored(s: State) {
    forall p :: p in s.batches ==> AllConfirmed(RowsOf(s.chunks, p)) && s.batches[p].mirrorApplied
  }

  lemma FirstTickIdle(c: Config, s: State, e: Event)
    requires Inv(c, s) && Enabled(c, s, e) && Calm(e) && AllSentDeep(c, s) && s.tick.Idle?
    ensures FirstTick(Apply(c, s, e))
  {
    hide Apply, Enabled;
    IdleKept(c, s, e);
    if e.StartTick? {
      OthersUntouched(c, s, e);
      var s' := Apply(c, s, e);
      forall p, j: nat | p in s'.batches && HasRow(s'.chunks, p, j)
        ensures s'.chunks[p][j].status == CONFIRMED || (p, j) in s'.tick.todo
      {
        assert SentDeep(c, s, p);
        assert ChunkSent(s.chunks, s.pub, s.txs, p, j);
      }
    }
  }

  lemma FinaliseBegins(c: Config, s: State)
    requires Inv(c, s) && AllSentDeep(c, s) && s.tick.ConfirmingChunks? && s.tick.todo == map[] && FirstTick(s)
    ensures FirstTick(s.(tick := Finalising(PendingTasks(s.batches))))
  {
    forall p | p in s.batches
      ensures AllConfirmed(RowsOf(s.chunks, p)) && (s.batches[p].mirrorApplied || StillMirroring(PendingTasks(s.batches), p))
    {
      assert SentDeep(c, s, p);
      assert StatusOk(s.batches, RowsOf(s.chunks, p), p);
      assert forall j: nat :: j < |s.chunks[p]| ==> HasRow(s.chunks, p, j) && s.chunks[p][j].status == CONFIRMED;
    }
  }

  lemma FirstTickConfirming(c: Config, s: State, e: Event)
    requires Inv(c, s) && Enabled(c, s, e) && Calm(e) && AllSentDeep(c, s) && s.tick.ConfirmingChunks? && FirstTick(s)
    ensures FirstTick(Apply(c, s, e))
  {
    hide Apply, Enabled, AllConfirmed, PendingTasks;
    CalmStep(c, s, e);
    TodoShrinks(c, s, e);
    var s' := Apply(c, s, e);
    if e.StartFinalise? {
      FinaliseBegins(c, s);
      assert s'.tick == Finalising(PendingTasks(s.batches));
    } else {
      SendsStay(c, s, e);
      forall p, j: nat | p in s'.batches && HasRow(s'.chunks, p, j)
        ensures s'.chunks[p][j].status == CONFIRMED || (p, j) in s'.tick.todo
      {
        assert HasRow(s.chunks, p, j);
        if s.chunks[p][j].status == CONFIRMED {
          ConfirmedRowStable(c, s, e, p, j);
        } else if e.CheckChunk? && e.p == p && e.j == j {
          assert SentDeep(c, s, p);
          AfterCheckChunk(c, s, p, j, false);
        }
      }
    }
  }

  lemma MirroringTaskProceeds(s: State, e: Event)
    requires TaskEvent(e) && TaskCan(s, e) && Calm(e) && e.p in s.batches
    requires AllConfirmed(RowsOf(s.chunks, e.p)) && !s.batches[e.p].mirrorApplied && StillMirroring(s.tick.tasks, e.p)
    requires TaskOk(s.batches, RowsOf(s.chunks, e.p), e.p, s.tick.tasks[e.p])
    ensures e.p in ApplyTask(s, e).batches
    ensures ApplyTask(s, e).batches[e.p].mirrorApplied || StillMirroring(ApplyTask(s, e).tick.tasks, e.p)
  {
  }

  lemma MirroringProceeds(c: Config, s: State, e: Event, p: Period)
    requires Inv(c, s) && Enabled(c, s, e) && Calm(e) && p in s.batches && s.tick.Finalising? && !e.EndTick?
    requires AllConfirmed(RowsOf(s.chunks, p)) && (s.batches[p].mirrorApplied || StillMirroring(s.tick.tasks, p))
    ensures p in Apply(c, s, e).batches && Apply(c, s, e).tick.Finalising?
    ensures Apply(c, s, e).batches[p].mirrorApplied || StillMirroring(Apply(c, s, e).tick.tasks, p)
  {
    hide Apply, Enabled, ApplyTask;
    BatchRowsMove(c, s, e);
    TasksStay(c, s, e);
    if TaskEvent(e) && e.p == p && !s.batches[p].mirrorApplied {
      assert TaskOk(s.batches, RowsOf(s.chunks, p), p, s.tick.tasks[p]);
      AfterTaskEvent(c, s, e);
      MirroringTaskProceeds(s, e);
    }
  }

  lemma FirstTickFinalising(c: Config, s: State, e: Event)
    requires Inv(c, s) && Enabled(c, s, e) && Calm(e) && AllSentDeep(c, s) && s.tick.Finalising? && FirstTick(s)
    ensures FirstTick(Apply(c, s, e))
    ensures e.EndTick? ==> AllMirrored(Apply(c, s, e)) && Apply(c, s, e).tick.Idle?
  {
    hide Apply, Enabled;
    CalmStep(c, s, e);
    TasksStay(c, s, e);
    var s' := Apply(c, s, e);
    if e.EndTick? {
      OthersUntouched(c, s, e);
    } else {
      forall p | p in s'.batches
        ensures AllConfirmed(RowsOf(s'.chunks, p)) && (s'.batches[p].mirrorApplied || StillMirroring(s'.tick.tasks, p))
      {
        ConfirmedRowsStable(c, s, e, p);
        MirroringProceeds(c, s, e, p);
      }
    }
  }

  lemma FirstTickKept(c: Config, s: State, e: Event)
    requires Inv(c, s) && Enabled(c, s, e) && Calm(e) && AllSentDeep(c, s) && FirstTick(s)
    ensures FirstTick(Apply(c, s, e))
    ensures e.EndTick? ==> AllMirrored(Apply(c, s, e)) && Apply(c, s, e).tick.Idle?
  {
    hide Apply, Enabled, FirstTick, AllMirrored, AllSentDeep, Inv;
    if s.tick.Finalising? {
      FirstTickFinalising(c, s, e);
    } else {
      if e.EndTick? { AfterTickEvent(c, s, e); }
      if s.tick.Idle? { FirstTickIdle(c, s, e); } else { FirstTickConfirming(c, s, e); }
    }
  }

  // ---- The second tick: nothing outstanding, every check passes ----

  ghost predicate SecondTick(s: State) {
    s.tick.Finalising? ==>
      forall p :: p in s.batches ==> s.batches[p].status == CONFIRMED || Checking(s, p)
  }

  ghost predicate Checking(s: State, p: Period)
    requires s.tick.Finalising?
  {
    && p in s.tick.tasks
    && match s.tick.tasks[p]
       case Loading(_) => true
       case Mirroring(_, _, _) => true
       case ReadingChain(_, _, _) => true
       case ReadingMirror(payload, _, k, onchain) => k < |payload| && onchain == OnChain(s, payload[k].asset)
       case _ => false
  }

  lemma MirroredKept(c: Config, s: State, e: Event)
    requires Inv(c, s) && Enabled(c, s, e) && Calm(e) && AllSentDeep(c, s) && AllMirrored(s)
    ensures AllMirrored(Apply(c, s, e))
  {
    hide Apply, Enabled;
    CalmStep(c, s, e);
    BatchRowsMove(c, s, e);
    var s' := Apply(c, s, e);
    forall p | p in s'.batches ensures AllConfirmed(RowsOf(s'.chunks, p)) && s'.batches[p].mirrorApplied {
      ConfirmedRowsStable(c, s, e, p);
    }
  }

  lemma PublicationsMined(c: Config, s: State, t: TxId)
    requires Inv(c, s) && AllSentDeep(c, s) && t in s.txs && s.txs[t].call.PublishBatch?
    ensures s.txs[t].block.Some?
  {
    assert Owned(s.chunks, s.pub, s.txs, t);
    assert SentDeep(c, s, s.txs[t].call.period);
  }

  /** Once all is mirrored, totals stand still: no publication is left to be mined. */
  lemma TotalsStand(c: Config, s: State, e: Event, a: Id)
    requires Inv(c, s) && Enabled(c, s, e) && AllSentDeep(c, s)
    ensures OnChain(Apply(c, s, e), a) == OnChain(s, a)
  {
    hide Apply, Enabled;
    OthersUntouched(c, s, e);
    if e.Include? {
      AfterInclude(c, s, e.tx, e.timestamp);
      if s.txs[e.tx].call.PublishBatch? { PublicationsMined(c, s, e.tx); }
      CallMovesTotal(s.chain, c.attester, s.txs[e.tx].call, e.timestamp, a);
    }
  }

  lemma AllMirroredSettles(c: Config, s: State, a: Id)
    requires Inv(c, s) && AllMirrored(s)
    ensures OnChain(s, a) == InMirror(s, a)
  {
    SettledMeansEqual(c, s, a);
  }

  /** The asset a period is just reading has nothing waiting to be mirrored. */
  predicate ReadAgrees(s: State, p: Period)
    requires s.tick.Finalising?
  {
    p in s.tick.tasks && s.tick.tasks[p].ReadingMirror? && s.tick.tasks[p].next < |s.tick.tasks[p].payload| ==>
      OnChain(s, s.tick.tasks[p].payload[s.tick.tasks[p].next].asset) == InMirror(s, s.tick.tasks[p].payload[s.tick.tasks[p].next].asset)
  }

  /** With every chunk confirmed and the asset at hand settled, a check goes on or confirms its period. */
  lemma CheckProceeds(c: Config, s: State, e: Event, p: Period)
    requires Inv(c, s) && Enabled(c, s, e) && Calm(e) && AllSentDeep(c, s)
    requires p in s.batches && s.tick.Finalising? && !e.EndTick?
    requires AllConfirmed(RowsOf(s.chunks, p)) && ReadAgrees(s, p)
    requires s.batches[p].status == CONFIRMED || Checking(s, p)
    ensures p in Apply(c, s, e).batches && Apply(c, s, e).tick.Finalising?
    ensures Apply(c, s, e).batches[p].status == CONFIRMED || Checking(Apply(c, s, e), p)
  {
    hide Apply, Enabled;
    TasksStay(c, s, e);
    StatusMoves(c, s, e, p);
    PayloadsStay(c, s, e);
    if s.batches[p].status != CONFIRMED {
      var t := s.tick.tasks[p];
      assert TaskOk(s.batches, RowsOf(s.chunks, p), p, t);
      if t.ReadingMirror? {
        TotalsStand(c, s, e, t.payload[t.next].asset);
      }
      if TaskEvent(e) && e.p == p {
        if e.ConfirmBatch? {
          AfterConfirmBatch(c, s, p);
        } else {
          AfterTaskEvent(c, s, e);
          CheckMoves(s, e);
          OthersUntouched(c, s, e);
        }
      }
    }
  }

  /** The moving task, with nothing to report. */
  lemma CheckMoves(s: State, e: Event)
    requires TaskEvent(e) && TaskCan(s, e) && Calm(e) && !e.ConfirmBatch?
    requires s.tick.Finalising? && Checking(s, e.p) && e.p in s.batches
    requires AllConfirmed(RowsOf(s.chunks, e.p)) && ReadAgrees(s, e.p)
    requires TaskOk(s.batches, RowsOf(s.chunks, e.p), e.p, s.tick.tasks[e.p])
    ensures Checking(ApplyTask(s, e), e.p)
  {
  }

  lemma SecondTickStarts(c: Config, s: State, e: Event)
    requires Inv(c, s) && Enabled(c, s, e) && !s.tick.Finalising?
    ensures SecondTick(Apply(c, s, e)) && !e.EndTick?
  {
    hide Apply, Enabled;
    if e.EndTick? { AfterTickEvent(c, s, e); }
    if s.tick.Idle? {
      IdleKept(c, s, e);
    } else {
      TodoShrinks(c, s, e);
      if e.StartFinalise? {
        var s' := Apply(c, s, e);
        forall p | p in s'.batches ensures s'.batches[p].status == CONFIRMED || Checking(s', p) {
          assert StatusOk(s.batches, RowsOf(s.chunks, p), p);
        }
      }
    }
  }

  ghost predicate AllFinal(s: State) {
    forall p :: p in s.batches ==> s.batches[p].status == CONFIRMED
  }

  lemma MirroredReadAgrees(c: Config, s: State, p: Period)
    requires Inv(c, s) && AllMirrored(s) && s.tick.Finalising? && p in s.batches
    ensures ReadAgrees(s, p) && AllConfirmed(RowsOf(s.chunks, p))
  {
    hide Inv;
    if p in s.tick.tasks && s.tick.tasks[p].ReadingMirror? && s.tick.tasks[p].next < |s.tick.tasks[p].payload| {
      AllMirroredSettles(c, s, s.tick.tasks[p].payload[s.tick.tasks[p].next].asset);
    }
  }

  lemma SecondTickFinalising(c: Config, s: State, e: Event)
    requires Inv(c, s) && Enabled(c, s, e) && Calm(e) && AllSentDeep(c, s) && AllMirrored(s)
    requires s.tick.Finalising? && SecondTick(s) && !e.EndTick?
    ensures SecondTick(Apply(c, s, e))
  {
    hide Apply, Enabled, Inv, AllMirrored, Checking;
    CalmStep(c, s, e) by { NoPublishers(c, s); }
    hide AllSentDeep;
    TasksStay(c, s, e);
    var s' := Apply(c, s, e);
    forall p | p in s'.batches ensures s'.batches[p].status == CONFIRMED || Checking(s', p) {
      MirroredReadAgrees(c, s, p);
      CheckProceeds(c, s, e, p);
    }
  }

  lemma SecondTickEnds(c: Config, s: State, e: Event)
    requires Enabled(c, s, e) && e.EndTick? && SecondTick(s)
    ensures AllFinal(Apply(c, s, e)) && SecondTick(Apply(c, s, e))
  {
    hide Apply, Enabled;
    AfterTickEvent(c, s, e);
    OthersUntouched(c, s, e);
  }

  lemma SecondTickKept(c: Config, s: State, e: Event)
    requires Inv(c, s) && Enabled(c, s, e) && Calm(e) && AllSentDeep(c, s) && AllMirrored(s) && SecondTick(s)
    ensures SecondTick(Apply(c, s, e))
    ensures e.EndTick? ==> AllFinal(Apply(c, s, e))
  {
    hide Apply, Enabled, Inv, AllSentDeep, AllMirrored, SecondTick, AllFinal;
    if e.EndTick? {
      SecondTickEnds(c, s, e);
    } else if s.tick.Finalising? {
      SecondTickFinalising(c, s, e);
    } else {
      SecondTickStarts(c, s, e);
    }
  }

  lemma FinalKept(c: Config, s: State, e: Event)
    requires Enabled(c, s, e) && Calm(e) && s.pub == map[] && AllFinal(s)
    ensures AllFinal(Apply(c, s, e))
  {
    hide Apply, Enabled;
    CalmStep(c, s, e);
    forall p | p in Apply(c, s, e).batches ensures Apply(c, s, e).batches[p].status == CONFIRMED {
      StatusMoves(c, s, e, p);
    }
  }

  // ---- One tick may not be enough ----

  /** While any period has mined counts of an asset still to be mirrored, the check of every other period
      with that asset fails, and that period stays PENDING for this tick: periods that share an asset may
      need the second one. */
  lemma EarlyCheckFails(c: Config, s: State, p: Period, q: Period)
    requires Reachable(c, s) && InTask(s, p) && s.tick.tasks[p].ReadingChain?
    requires s.tick.tasks[p].next < |s.tick.tasks[p].payload|
    requires var a := s.tick.tasks[p].payload[s.tick.tasks[p].next].asset;
             N.Known(s.chain, a) && q in s.batches && OutstandingCount(c, s, q, a) > 0
    ensures Enabled(c, s, ReadChain(p)) && Enabled(c, Apply(c, s, ReadChain(p)), ReadMirror(p))
    ensures var t := Apply(c, Apply(c, s, ReadChain(p)), ReadMirror(p));
            && t == s.(tick := Finalising(s.tick.tasks[p := Finished(false)]))
            && p in t.batches && t.batches[p].status == PENDING
  {
    ReachableInv(c, s);
    assert TaskOk(s.batches, RowsOf(s.chunks, p), p, s.tick.tasks[p]);
    var a := s.tick.tasks[p].payload[s.tick.tasks[p].next].asset;
    assert OnChain(s, a) != InMirror(s, a) by { SettledMeansEqual(c, s, a); }
    hide Inv, Reachable, OutstandingCount;
    assert a in s.assets by { KnownHasRow(c, s, a); }
    TwoReads(c, s, p);
  }

  lemma KnownHasRow(c: Config, s: State, a: Id)
    requires Reachable(c, s) && N.Known(s.chain, a)
    ensures a in s.assets
  {
    ReachableInv(c, s);
  }

  lemma TwoReads(c: Config, s: State, p: Period)
    requires InTask(s, p) && s.tick.tasks[p].ReadingChain? && s.tick.tasks[p].next < |s.tick.tasks[p].payload|
    requires Differs(s, s.tick.tasks[p].payload[s.tick.tasks[p].next].asset)
    ensures Enabled(c, s, ReadChain(p)) && Enabled(c, Apply(c, s, ReadChain(p)), ReadMirror(p))
    ensures Apply(c, Apply(c, s, ReadChain(p)), ReadMirror(p)) == s.(tick := Finalising(s.tick.tasks[p := Finished(false)]))
  {
    var s1 := Apply(c, s, ReadChain(p));
    assert s1.tick.tasks[p := Finished(false)] == s.tick.tasks[p := Finished(false)];
  }

  // ---- Whole runs ----

  function Ticks(es: seq<Event>): nat {
    if es == [] then 0 else (if es[0].EndTick? then 1 else 0) + Ticks(es[1..])
  }

  predicate AllCalm(es: seq<Event>) {
    forall i :: 0 <= i < |es| ==> Calm(es[i])
  }

  lemma {:induction false} FinalRun(c: Config, s: State, es: seq<Event>, t: State)
    requires Inv(c, s) && AllSentDeep(c, s) && AllMirrored(s) && AllFinal(s)
    requires Run(c, s, es, t) && AllCalm(es)
    ensures Inv(c, t) && AllMirrored(t) && AllFinal(t)
    decreases es
  {
    hide Apply, Enabled, Inv, AllSentDeep, AllMirrored, AllFinal;
    if es != [] {
      EventKeepsInv(c, s, es[0]);
      DeepKept(c, s, es[0]);
      MirroredKept(c, s, es[0]);
      assert s.pub == map[] by { NoPublishers(c, s); }
      FinalKept(c, s, es[0]);
      FinalRun(c, Apply(c, s, es[0]), es[1..], t);
    }
  }

  lemma NoPublishers(c: Config, s: State)
    requires AllSentDeep(c, s)
    ensures s.pub == map[]
  {
  }

  lemma {:induction false} SecondRun(c: Config, s: State, es: seq<Event>, t: State)
    requires Inv(c, s) && AllSentDeep(c, s) && AllMirrored(s) && SecondTick(s)
    requires Run(c, s, es, t) && AllCalm(es) && Ticks(es) >= 1
    ensures Inv(c, t) && AllMirrored(t) && AllFinal(t)
    decreases es
  {
    hide Apply, Enabled, Inv, AllSentDeep, AllMirrored, AllFinal, SecondTick;
    EventKeepsInv(c, s, es[0]);
    DeepKept(c, s, es[0]);
    MirroredKept(c, s, es[0]);
    SecondTickKept(c, s, es[0]);
    if es[0].EndTick? {
      FinalRun(c, Apply(c, s, es[0]), es[1..], t);
    } else {
      SecondRun(c, Apply(c, s, es[0]), es[1..], t);
    }
  }

  lemma {:induction false} FirstRun(c: Config, s: State, es: seq<Event>, t: State)
    requires Inv(c, s) && AllSentDeep(c, s) && FirstTick(s)
    requires Run(c, s, es, t) && AllCalm(es) && Ticks(es) >= 2
    ensures Inv(c, t) && AllMirrored(t) && AllFinal(t)
    decreases es
  {
    hide Apply, Enabled, Inv, AllSentDeep, AllMirrored, AllFinal, SecondTick, FirstTick;
    EventKeepsInv(c, s, es[0]);
    DeepKept(c, s, es[0]);
    FirstTickKept(c, s, es[0]);
    if es[0].EndTick? {
      IdleIsSecond(Apply(c, s, es[0]));
      SecondRun(c, Apply(c, s, es[0]), es[1..], t);
    } else {
      FirstRun(c, Apply(c, s, es[0]), es[1..], t);
    }
  }

  lemma IdleIsSecond(s: State)
    requires s.tick.Idle?
    ensures SecondTick(s)
  {
  }

  lemma FinalTotals(c: Config, s: State, a: Id)
    requires Inv(c, s) && AllMirrored(s)
    ensures OnChain(s, a) == InMirror(s, a) == |PublishedViews(s.views, s.batches, a)|
  {
    AllMirroredSettles(c, s, a);
    var m := MirroredBy(s.batches, s.tick, a);
    forall p | p in s.batches ensures m[p] == ViewCount(s.views, p, a) {
      assert BatchOk(s.views, p, s.batches[p]);
    }
    MapSumSame(m, ViewsBy(s.views, s.batches, a));
    PeriodsPartitionViews(s.views, s.batches, a);
  }

  /** Convergence in two ticks. From any reachable state between ticks in which every chunk of every
      pending batch is sent and mined to depth and nothing is being published, any run in which two ticks
      complete without a failing call - whatever the order of the period tasks, and whatever requests,
      blocks and notarisations come in between - ends with every batch CONFIRMED and, for every asset,
      chain = mirror = number of views in the published periods. */
  lemma TwoTicksConverge(c: Config, s: State, es: seq<Event>, t: State)
    requires Reachable(c, s) && Ready(c, s) && s.tick.Idle?
    requires Run(c, s, es, t) && AllCalm(es) && Ticks(es) >= 2
    ensures forall p :: p in t.batches ==> t.batches[p].status == CONFIRMED
    ensures forall a :: OnChain(t, a) == InMirror(t, a) == |PublishedViews(t.views, t.batches, a)|
  {
    hide Apply, Enabled;
    ReachableInv(c, s);
    ReadyIsDeep(c, s);
    FirstRun(c, s, es, t);
    forall a ensures OnChain(t, a) == InMirror(t, a) == |PublishedViews(t.views, t.batches, a)| {
      FinalTotals(c, t, a);
    }
  }
}
