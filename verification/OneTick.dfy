/** When one reconciliation tick is enough: exactly when no pending period shares an asset with another one
    whose mirror is still to be applied. */
module OneTick {
  import opened Options
  import opened Payloads
  import opened Sums
  import N = NotaryContract
  import opened Protocol
  import opened Invariant
  import opened Moves
  import opened TablesKept
  import opened TransactionsKept
  import opened ReconciliationKept
  import opened Runs
  import opened Conservation
  import opened Convergence

  /** The payloads name the same asset at i and j. */
  predicate SameAsset(u: seq<Update>, v: seq<Update>, i: nat, j: nat) {
    i < |u| && j < |v| && u[i].asset == v[j].asset
  }

  ghost predicate Common(u: seq<Update>, v: seq<Update>) {
    exists i: nat, j: nat :: SameAsset(u, v, i, j)
  }

  /** p and q are pending, q is not mirrored yet, and they share an asset. */
  ghost predicate Entangled(s: State, p: Period, q: Period) {
    && p != q && p in s.batches && q in s.batches
    && s.batches[p].status == PENDING && s.batches[q].status == PENDING && !s.batches[q].mirrorApplied
    && Common(s.batches[p].payload, s.batches[q].payload)
  }

  ghost predicate Separate(s: State) {
    forall p, q :: !Entangled(s, p, q)
  }

  // ---- Enough ----

  lemma SeparateKept(c: Config, s: State, e: Event)
    requires Enabled(c, s, e) && Calm(e) && s.pub == map[] && Separate(s)
    ensures Separate(Apply(c, s, e))
  {
    hide Apply, Enabled, Common;
    CalmStep(c, s, e);
    BatchRowsMove(c, s, e);
    var s' := Apply(c, s, e);
    forall p, q ensures !Entangled(s', p, q) {
      assert !Entangled(s, p, q);
    }
  }

  /** The period of a tick that finalises; what the second tick needed of all periods, asset by asset. */
  ghost predicate OneTickInv(s: State) {
    && FirstTick(s) && Separate(s)
    && (s.tick.Finalising? ==> forall p :: p in s.batches ==> s.batches[p].status == CONFIRMED || Checking(s, p))
  }

  lemma NotNamed(u: seq<Update>, a: Id)
    requires forall j: nat :: j < |u| ==> u[j].asset != a
    ensures CountOf(u, a) == 0
  {
    CountOfMember(u, a);
  }

  lemma OtherOutstanding(c: Config, s: State, p: Period, q: Period, i: nat)
    requires Inv(c, s) && Separate(s) && p in s.batches && q in s.batches
    requires s.batches[p].status == PENDING && s.batches[p].mirrorApplied && i < |s.batches[p].payload|
    ensures OutstandingCount(c, s, q, s.batches[p].payload[i].asset) == 0
  {
    var u, a := s.batches[q].payload, s.batches[p].payload[i].asset;
    assert StatusOk(s.batches, RowsOf(s.chunks, q), q);
    if !s.batches[q].mirrorApplied {
      assert !Entangled(s, p, q);
      forall j: nat | j < |u| ensures u[j].asset != a {
        assert !SameAsset(s.batches[p].payload, u, i, j);
      }
      NotNamed(u, a);
      LandedBound(c, s, q, a);
      if InTask(s, q) && s.tick.tasks[q].Mirroring? && s.tick.tasks[q].next <= |u| {
        CountOfParts(u, s.tick.tasks[q].next, a);
      }
    }
  }

  lemma SeparateReadAgrees(c: Config, s: State, p: Period)
    requires Inv(c, s) && OneTickInv(s) && s.tick.Finalising? && p in s.batches
    ensures ReadAgrees(s, p) && AllConfirmed(RowsOf(s.chunks, p))
  {
    if p in s.tick.tasks && s.tick.tasks[p].ReadingMirror? && s.tick.tasks[p].next < |s.tick.tasks[p].payload| {
      var t := s.tick.tasks[p];
      assert TaskOk(s.batches, RowsOf(s.chunks, p), p, t);
      forall q | q in s.batches ensures OutstandingCount(c, s, q, t.payload[t.next].asset) == 0 {
        OtherOutstanding(c, s, p, q, t.next);
      }
      SettledMeansEqual(c, s, t.payload[t.next].asset);
    }
  }

  lemma OneTickFinalising(c: Config, s: State, e: Event)
    requires Inv(c, s) && Enabled(c, s, e) && Calm(e) && AllSentDeep(c, s) && OneTickInv(s) && s.tick.Finalising? && !e.EndTick?
    ensures forall p :: p in Apply(c, s, e).batches && Apply(c, s, e).tick.Finalising? ==>
              Apply(c, s, e).batches[p].status == CONFIRMED || Checking(Apply(c, s, e), p)
  {
    hide Apply, Enabled, Inv, Checking, FirstTick, Separate, ReadAgrees, AllConfirmed;
    CalmStep(c, s, e) by { NoPublishers(c, s); }
    hide AllSentDeep;
    TasksStay(c, s, e);
    forall p | p in Apply(c, s, e).batches
      ensures Apply(c, s, e).tick.Finalising? ==> Apply(c, s, e).batches[p].status == CONFIRMED || Checking(Apply(c, s, e), p)
    {
      SeparateReadAgrees(c, s, p);
      CheckProceeds(c, s, e, p);
    }
  }

  lemma OneTickKept(c: Config, s: State, e: Event)
    requires Inv(c, s) && Enabled(c, s, e) && Calm(e) && AllSentDeep(c, s) && OneTickInv(s)
    ensures !e.EndTick? ==> OneTickInv(Apply(c, s, e))
    ensures e.EndTick? ==> AllFinal(Apply(c, s, e)) && AllMirrored(Apply(c, s, e))
  {
    hide Apply, Enabled, Inv, FirstTick, Separate, AllSentDeep, AllMirrored, Checking;
    FirstTickKept(c, s, e);
    NoPublishers(c, s);
    SeparateKept(c, s, e);
    if e.EndTick? {
      EndMeansFinal(c, s, e);
    } else if s.tick.Finalising? {
      OneTickFinalising(c, s, e);
    } else {
      SecondTickStarts(c, s, e);
    }
  }

  lemma EndMeansFinal(c: Config, s: State, e: Event)
    requires Enabled(c, s, e) && e.EndTick? && OneTickInv(s)
    ensures AllFinal(Apply(c, s, e))
  {
    hide Apply, Enabled, FirstTick, Separate;
    AfterEndTick(c, s);
  }

  lemma {:induction false} OneTickRun(c: Config, s: State, es: seq<Event>, t: State)
    requires Inv(c, s) && AllSentDeep(c, s) && OneTickInv(s)
    requires Run(c, s, es, t) && AllCalm(es) && Ticks(es) >= 1
    ensures Inv(c, t) && AllMirrored(t) && AllFinal(t)
    decreases es
  {
    hide Apply, Enabled, Inv, AllSentDeep, AllMirrored, AllFinal, OneTickInv;
    EventKeepsInv(c, s, es[0]);
    DeepKept(c, s, es[0]);
    OneTickKept(c, s, es[0]);
    if es[0].EndTick? {
      FinalRun(c, Apply(c, s, es[0]), es[1..], t);
    } else {
      OneTickRun(c, Apply(c, s, es[0]), es[1..], t);
    }
  }

  // ---- A tick that runs to its end ----

  /** What a finalisation does next. */
  function NextOf(p: Period, t: Task): Event
    requires !t.Finished?
  {
    match t
    case Loading(_) => LoadPeriod(p)
    case Mirroring(u, _, k) => if k < |u| then MirrorOne(p) else MarkMirror(p)
    case ReadingChain(u, _, k) => if k < |u| then ReadChain(p) else ConfirmBatch(p)
    case ReadingMirror(_, _, _, _) => ReadMirror(p)
    case Anchoring => AnchorViews(p)
  }

  function Stage(t: Task): nat {
    match t
    case Loading(_) => 4
    case Mirroring(_, _, _) => 3
    case ReadingChain(_, _, _) => 2
    case ReadingMirror(_, _, _, _) => 2
    case Anchoring => 1
    case Finished(_) => 0
  }

  function Left(t: Task): nat {
    if (t.Mirroring? || t.ReadingChain? || t.ReadingMirror?) && t.next <= |t.payload| then |t.payload| - t.next else 0
  }

  function Half(t: Task): nat { if t.ReadingChain? then 1 else 0 }

  predicate Before(x: Task, y: Task) {
    || Stage(x) < Stage(y)
    || (Stage(x) == Stage(y) && (Left(x) < Left(y) || (Left(x) == Left(y) && Half(x) < Half(y))))
  }

  lemma NextTaskEvent(s: State, p: Period)
    requires InTask(s, p) && p in s.batches && !s.tick.tasks[p].Finished?
    requires TaskOk(s.batches, RowsOf(s.chunks, p), p, s.tick.tasks[p])
    ensures var e := NextOf(p, s.tick.tasks[p]); TaskEvent(e) && e.p == p && Calm(e) && TaskCan(s, e)
  {
  }

  lemma LoadShrinks(b: BatchRow, rows: seq<ChunkRow>)
    ensures Before(AfterLoad(b, rows), Loading(b))
  {
  }

  lemma ReadChainShrinks(chain: N.Storage, t: Task)
    requires t.ReadingChain? && t.next < |t.payload|
    ensures Before(AfterReadChain(chain, t), t)
  {
  }

  lemma ReadMirrorShrinks(assets: map<Id, AssetRow>, t: Task)
    requires t.ReadingMirror? && t.next < |t.payload|
    ensures Before(AfterReadMirror(assets, t), t)
  {
  }

  lemma TaskShrinks(c: Config, s: State, p: Period)
    requires InTask(s, p) && !s.tick.tasks[p].Finished? && Enabled(c, s, NextOf(p, s.tick.tasks[p]))
    ensures InTask(Apply(c, s, NextOf(p, s.tick.tasks[p])), p)
    ensures Before(Apply(c, s, NextOf(p, s.tick.tasks[p])).tick.tasks[p], s.tick.tasks[p])
  {
    hide Enabled, Apply, AfterLoad, AfterReadChain, AfterReadMirror;
    var t := s.tick.tasks[p];
    if t.Loading? {
      AfterLoadPeriod(c, s, p);
      LoadShrinks(t.b, RowsOf(s.chunks, p));
    } else if t.Mirroring? {
      if t.next < |t.payload| { AfterMirrorOne(c, s, p); } else { AfterMarkMirror(c, s, p); }
    } else if t.ReadingMirror? {
      AfterReadingMirror(c, s, p);
      ReadMirrorShrinks(s.assets, t);
    } else if t.Anchoring? {
      AfterAnchor(c, s, p);
    } else if t.next < |t.payload| {
      AfterReadingChain(c, s, p);
      ReadChainShrinks(s.chain, t);
    } else {
      AfterConfirmBatch(c, s, p);
    }
  }

  /** Other periods notice nothing of it. */
  ghost predicate OnlyTask(s: State, t: State, p: Period) {
    && t.tick.Finalising? && s.tick.Finalising? && t.tick.tasks.Keys == s.tick.tasks.Keys
    && (forall q :: q in s.tick.tasks && q != p ==> t.tick.tasks[q] == s.tick.tasks[q])
    && t.batches.Keys == s.batches.Keys
    && (forall q :: q in s.batches && q != p ==> t.batches[q] == s.batches[q])
    && t.chunks == s.chunks && t.pub == s.pub && t.chain == s.chain && t.txs == s.txs && t.head == s.head
  }

  lemma TaskStep(c: Config, s: State, p: Period)
    requires Inv(c, s) && InTask(s, p) && !s.tick.tasks[p].Finished?
    ensures var e := NextOf(p, s.tick.tasks[p]);
            && TaskEvent(e) && e.p == p && Calm(e) && Enabled(c, s, e) && Inv(c, Apply(c, s, e))
            && OnlyTask(s, Apply(c, s, e), p) && InTask(Apply(c, s, e), p)
            && Before(Apply(c, s, e).tick.tasks[p], s.tick.tasks[p])
  {
    assert p in s.batches && TaskOk(s.batches, RowsOf(s.chunks, p), p, s.tick.tasks[p]);
    NextTaskEvent(s, p);
    var e := NextOf(p, s.tick.tasks[p]);
    hide Inv, Enabled, Apply, TaskCan, ApplyTask, NextOf, Before;
    TaskEventCan(c, s, e);
    TaskShrinks(c, s, p);
    EventKeepsInv(c, s, e);
    OnlyOwnBatch(c, s, e, p);
    OthersUntouched(c, s, e);
  }

  lemma OnlyOwnBatch(c: Config, s: State, e: Event, p: Period)
    requires Enabled(c, s, e) && TaskEvent(e) && e.p == p
    ensures Apply(c, s, e).batches.Keys == s.batches.Keys
    ensures forall q :: q in s.batches && q != p ==> Apply(c, s, e).batches[q] == s.batches[q]
  {
    hide Apply, Enabled;
    if e.MarkMirror? {
      AfterMarkMirror(c, s, p);
    } else if e.ConfirmBatch? {
      AfterConfirmBatch(c, s, p);
    } else {
      OthersUntouched(c, s, e);
    }
  }

  /** Calm events of the finalisation of p. */
  predicate OwnTask(es: seq<Event>, p: Period) {
    forall i :: 0 <= i < |es| ==> TaskEvent(es[i]) && es[i].p == p && Calm(es[i])
  }

  lemma {:induction false} FinishTask(c: Config, s: State, p: Period) returns (es: seq<Event>, t: State)
    requires Inv(c, s) && InTask(s, p)
    ensures Run(c, s, es, t) && OwnTask(es, p) && Inv(c, t) && OnlyTask(s, t, p)
    ensures InTask(t, p) && t.tick.tasks[p].Finished?
    decreases Stage(s.tick.tasks[p]), Left(s.tick.tasks[p]), Half(s.tick.tasks[p])
  {
    hide Enabled, Apply, Inv;
    if s.tick.tasks[p].Finished? {
      es, t := [], s;
    } else {
      TaskStep(c, s, p);
      var e := NextOf(p, s.tick.tasks[p]);
      var rest;
      rest, t := FinishTask(c, Apply(c, s, e), p);
      es := [e] + rest;
      assert es[1..] == rest;
    }
  }

  lemma {:induction false} OwnTaskIsCalm(es: seq<Event>, p: Period)
    requires OwnTask(es, p)
    ensures AllCalm(es) && Ticks(es) == 0
  {
    if es != [] {
      assert OwnTask(es[1..], p);
      OwnTaskIsCalm(es[1..], p);
    }
  }

  ghost predicate OnlyTasks(s: State, t: State, done: set<Period>) {
    && t.tick.Finalising? && s.tick.Finalising? && t.tick.tasks.Keys == s.tick.tasks.Keys
    && t.batches.Keys == s.batches.Keys
    && forall q :: q in done ==>
         && (q in s.tick.tasks ==> t.tick.tasks[q] == s.tick.tasks[q])
         && (q in s.batches ==> t.batches[q] == s.batches[q])
  }

  lemma {:induction false} FinishAll(c: Config, s: State, todo: set<Period>, done: set<Period>) returns (es: seq<Event>, t: State)
    requires Inv(c, s) && s.tick.Finalising? && todo !! done && todo <= s.tick.tasks.Keys
    requires forall p :: p in s.tick.tasks && p !in todo ==> s.tick.tasks[p].Finished?
    ensures Run(c, s, es, t) && AllCalm(es) && Ticks(es) == 0 && Inv(c, t) && OnlyTasks(s, t, done)
    ensures forall p :: p in t.tick.tasks ==> t.tick.tasks[p].Finished?
    decreases |todo|
  {
    hide Enabled, Apply, Inv;
    if p :| p in todo {
      var xs, m := FinishTask(c, s, p);
      OwnTaskIsCalm(xs, p);
      var ys;
      ys, t := FinishAll(c, m, todo - {p}, done);
      RunConcat(c, s, xs, m, ys, t);
      CalmConcat(xs, ys);
      es := xs + ys;
    } else {
      es, t := [], s;
    }
  }

  lemma {:induction false} CalmConcat(xs: seq<Event>, ys: seq<Event>)
    requires AllCalm(xs) && AllCalm(ys)
    ensures AllCalm(xs + ys) && Ticks(xs + ys) == Ticks(xs) + Ticks(ys)
  {
    if xs == [] {
      assert xs + ys == ys;
    } else {
      assert AllCalm(xs[1..]);
      CalmConcat(xs[1..], ys);
      assert (xs + ys)[1..] == xs[1..] + ys;
    }
  }

  lemma CalmOne(e: Event)
    requires Calm(e)
    ensures AllCalm([e]) && Ticks([e]) == if e.EndTick? then 1 else 0
  {
    assert [e][1..] == [];
  }

  lemma CheckOneStep(c: Config, s: State, p: Period, j: nat)
    requires Core(c, s) && s.tick.ConfirmingChunks? && (p, j) in s.tick.todo
    ensures var e := CheckChunk(p, j, false);
            && Enabled(c, s, e) && Core(c, Apply(c, s, e)) && OnlyChecked(s, Apply(c, s, e))
            && Apply(c, s, e).tick == ConfirmingChunks(s.tick.todo - {(p, j)})
  {
    hide Enabled, Apply;
    AfterCheckChunk(c, s, p, j, false);
    EventKeepsCore(c, s, CheckChunk(p, j, false));
  }

  /** The confirmation phase changes chunk rows only. */
  ghost predicate OnlyChecked(s: State, t: State) {
    t == s.(chunks := t.chunks, tick := t.tick)
  }

  lemma {:induction false} CheckAll(c: Config, s: State) returns (es: seq<Event>, t: State)
    requires Core(c, s) && s.tick.ConfirmingChunks?
    ensures Run(c, s, es, t) && AllCalm(es) && Ticks(es) == 0 && Core(c, t)
    ensures t.tick == ConfirmingChunks(map[]) && OnlyChecked(s, t)
    decreases |s.tick.todo|
  {
    hide Enabled, Apply, Core;
    if s.tick.todo == map[] {
      es, t := [], s;
    } else {
      var key :| key in s.tick.todo;
      var e := CheckChunk(key.0, key.1, false);
      CheckOneStep(c, s, key.0, key.1);
      var rest;
      rest, t := CheckAll(c, Apply(c, s, e));
      CalmOne(e);
      CalmConcat([e], rest);
      es := [e] + rest;
      assert es[1..] == rest;
    }
  }

  /** From rest to the beginning of the finalisation phase. */
  lemma ToFinalising(c: Config, s: State) returns (es: seq<Event>, t: State)
    requires Core(c, s) && s.tick.Idle?
    ensures Run(c, s, es, t) && AllCalm(es) && Ticks(es) == 0
    ensures OnlyChecked(s, t) && t.tick == Finalising(PendingTasks(s.batches))
  {
    hide Enabled, Apply, Core, PendingTasks;
    AfterStartTick(c, s);
    var s1 := Apply(c, s, StartTick);
    EventKeepsCore(c, s, StartTick);
    var xs, s2 := CheckAll(c, s1);
    AfterStartFinalise(c, s2);
    t := Apply(c, s2, StartFinalise);
    RunOne(c, s, StartTick);
    RunOne(c, s2, StartFinalise);
    RunConcat(c, s, [StartTick], s1, xs, s2);
    RunConcat(c, s, [StartTick] + xs, s2, [StartFinalise], t);
    CalmOne(StartTick);
    CalmOne(StartFinalise);
    CalmConcat([StartTick], xs);
    CalmConcat([StartTick] + xs, [StartFinalise]);
    es := [StartTick] + xs + [StartFinalise];
  }

  lemma ToEnd(c: Config, s: State, done: set<Period>) returns (es: seq<Event>, t: State)
    requires Inv(c, s) && s.tick.Finalising?
    requires forall p :: p in done && p in s.tick.tasks ==> s.tick.tasks[p].Finished?
    ensures Run(c, s, es, t) && AllCalm(es) && Ticks(es) == 1 && Inv(c, t) && t.tick.Idle?
    ensures t.batches.Keys == s.batches.Keys
    ensures forall q :: q in done && q in s.batches ==> t.batches[q] == s.batches[q]
  {
    hide Enabled, Apply, Inv;
    var xs, m := FinishAll(c, s, s.tick.tasks.Keys - done, done);
    AfterEndTick(c, m);
    t := Apply(c, m, EndTick);
    EventKeepsInv(c, m, EndTick);
    RunOne(c, m, EndTick);
    RunConcat(c, s, xs, m, [EndTick], t);
    CalmOne(EndTick);
    CalmConcat(xs, [EndTick]);
    es := xs + [EndTick];
  }

  /** A tick without failing calls can always run to its end. */
  lemma CalmTickExists(c: Config, s: State) returns (es: seq<Event>, t: State)
    requires Inv(c, s) && s.tick.Idle?
    ensures Run(c, s, es, t) && AllCalm(es) && Ticks(es) == 1 && Inv(c, t) && t.tick.Idle?
  {
    hide Enabled, Apply, Inv, PendingTasks;
    InvIsCore(c, s);
    var xs, m := ToFinalising(c, s);
    RunKeepsInv(c, s, xs, m);
    var ys;
    ys, t := ToEnd(c, m, {});
    RunConcat(c, s, xs, m, ys, t);
    CalmConcat(xs, ys);
    es := xs + ys;
  }

  /** The hypotheses and the conclusion of the two-tick theorem are met from every ready state. */
  lemma TwoTicksHappen(c: Config, s: State) returns (es: seq<Event>, t: State)
    requires Reachable(c, s) && Ready(c, s) && s.tick.Idle?
    ensures Run(c, s, es, t) && AllCalm(es) && Ticks(es) == 2
    ensures AllFinal(t) && forall a :: OnChain(t, a) == InMirror(t, a) == |PublishedViews(t.views, t.batches, a)|
  {
    hide Enabled, Apply, Inv, Ready;
    ReachableInv(c, s);
    var xs, m := CalmTickExists(c, s);
    var ys;
    ys, t := CalmTickExists(c, m);
    RunConcat(c, s, xs, m, ys, t);
    CalmConcat(xs, ys);
    es := xs + ys;
    TwoTicksConverge(c, s, es, t);
  }

  // ---- Not enough ----

  /** q has not been mirrored while p is on its way to the entry k that names an asset of q. */
  ghost predicate Doomed(s: State, p: Period, q: Period, k: nat) {
    && p != q && p in s.batches && q in s.batches && k < |s.batches[p].payload|
    && s.batches[p].status == PENDING && !s.batches[q].mirrorApplied
    && InTask(s, p) && InTask(s, q) && s.tick.tasks[q].Loading?
    && AllConfirmed(RowsOf(s.chunks, q))
    && var a := s.batches[p].payload[k].asset;
       && N.Known(s.chain, a) && CountOf(s.batches[q].payload, a) > 0
       && match s.tick.tasks[p]
          case Loading(_) => true
          case Mirroring(_, _, _) => true
          case ReadingChain(_, _, i) => i <= k
          case ReadingMirror(_, _, i, onchain) => i <= k && (i == k ==> onchain == OnChain(s, a))
          case Anchoring => false
          case Finished(confirmed) => !confirmed
  }

  lemma DoomedDiffers(c: Config, s: State, p: Period, q: Period, k: nat)
    requires Inv(c, s) && Doomed(s, p, q, k)
    ensures var a := s.batches[p].payload[k].asset; a in s.assets && OnChain(s, a) != InMirror(s, a)
  {
    var a := s.batches[p].payload[k].asset;
    ConfirmedLanded(c, s, q, a);
    assert OutstandingCount(c, s, q, a) > 0;
    SettledMeansEqual(c, s, a);
  }

  lemma DoomedMoves(s: State, e: Event, p: Period, q: Period, k: nat)
    requires TaskEvent(e) && TaskCan(s, e) && Calm(e) && e.p == p && Doomed(s, p, q, k)
    requires TaskOk(s.batches, RowsOf(s.chunks, p), p, s.tick.tasks[p])
    requires var a := s.batches[p].payload[k].asset; a in s.assets && OnChain(s, a) != InMirror(s, a)
    ensures Doomed(ApplyTask(s, e), p, q, k)
  {
  }

  lemma DoomedStep(c: Config, s: State, e: Event, p: Period, q: Period, k: nat)
    requires Inv(c, s) && Enabled(c, s, e) && TaskEvent(e) && Calm(e) && e.p == p && Doomed(s, p, q, k)
    ensures Doomed(Apply(c, s, e), p, q, k)
  {
    hide Apply, Enabled, ApplyTask, TaskCan;
    DoomedDiffers(c, s, p, q, k);
    assert TaskOk(s.batches, RowsOf(s.chunks, p), p, s.tick.tasks[p]);
    hide Inv;
    AfterTaskEvent(c, s, e);
    DoomedMoves(s, e, p, q, k);
  }

  lemma {:induction false} DoomedRun(c: Config, s: State, es: seq<Event>, t: State, p: Period, q: Period, k: nat)
    requires Inv(c, s) && Run(c, s, es, t) && OwnTask(es, p) && Doomed(s, p, q, k)
    ensures Doomed(t, p, q, k)
    decreases es
  {
    hide Apply, Enabled, Inv, Doomed;
    if es != [] {
      EventKeepsInv(c, s, es[0]);
      DoomedStep(c, s, es[0], p, q, k);
      assert OwnTask(es[1..], p);
      DoomedRun(c, Apply(c, s, es[0]), es[1..], t, p, q, k);
    }
  }

  lemma {:induction false} RunKeepsFirst(c: Config, s: State, es: seq<Event>, t: State)
    requires Inv(c, s) && AllSentDeep(c, s) && FirstTick(s) && Run(c, s, es, t) && AllCalm(es) && Ticks(es) == 0
    ensures FirstTick(t)
    decreases es
  {
    hide Apply, Enabled, Inv, AllSentDeep, FirstTick;
    if es != [] {
      EventKeepsInv(c, s, es[0]);
      DeepKept(c, s, es[0]);
      FirstTickKept(c, s, es[0]);
      RunKeepsFirst(c, Apply(c, s, es[0]), es[1..], t);
    }
  }

  /** An asset with counts in a period whose chunks are all confirmed is on chain. */
  lemma CountedIsKnown(c: Config, s: State, p: Period, a: Id)
    requires Inv(c, s) && p in s.batches && AllConfirmed(RowsOf(s.chunks, p)) && CountOf(s.batches[p].payload, a) > 0
    ensures N.Known(s.chain, a)
  {
    ConfirmedLanded(c, s, p, a);
    LandedIsOnChain(c, s, p, a);
    assert N.LogTellsStorage(s.chain);
  }

  lemma EntangledIsDoomed(c: Config, s: State, p: Period, q: Period) returns (k: nat)
    requires Inv(c, s) && FirstTick(s) && s.tick == Finalising(PendingTasks(s.batches)) && Entangled(s, p, q)
    ensures Doomed(s, p, q, k)
  {
    var i: nat, j: nat :| SameAsset(s.batches[p].payload, s.batches[q].payload, i, j);
    k := i;
    assert BatchOk(s.views, q, s.batches[q]);
    CountOfMember(s.batches[q].payload, s.batches[q].payload[j].asset);
    assert p in PendingTasks(s.batches) && q in PendingTasks(s.batches);
    CountedIsKnown(c, s, q, s.batches[q].payload[j].asset);
  }

  lemma DoomedStaysPending(s: State, p: Period, q: Period, k: nat)
    requires Doomed(s, p, q, k)
    ensures p in s.batches && s.batches[p].status == PENDING
  {
  }

  /** Two pending periods that share an asset, one of them not mirrored: the tick that checks the other one
      first leaves it PENDING. */
  lemma EntangledNeedsTwo(c: Config, s: State, p: Period, q: Period) returns (es: seq<Event>, t: State)
    requires Inv(c, s) && AllSentDeep(c, s) && s.tick.Idle? && Entangled(s, p, q)
    ensures Run(c, s, es, t) && AllCalm(es) && Ticks(es) == 1
    ensures p in t.batches && t.batches[p].status == PENDING
  {
    hide Enabled, Apply, Inv, AllSentDeep, FirstTick, PendingTasks, Doomed, Common;
    FirstAtRest(s);
    InvIsCore(c, s);
    var xs, s1 := ToFinalising(c, s);
    RunKeepsInv(c, s, xs, s1);
    RunKeepsFirst(c, s, xs, s1);
    var k := EntangledIsDoomed(c, s1, p, q);
    DoomedHasTask(s1, p, q, k);
    var ys, s2 := FinishTask(c, s1, p);
    OwnTaskIsCalm(ys, p);
    DoomedRun(c, s1, ys, s2, p, q, k);
    DoomedStaysPending(s2, p, q, k);
    var zs;
    zs, t := ToEnd(c, s2, {p});
    RunConcat(c, s, xs, s1, ys, s2);
    CalmConcat(xs, ys);
    RunConcat(c, s, xs + ys, s2, zs, t);
    CalmConcat(xs + ys, zs);
    es := xs + ys + zs;
  }

  lemma FirstAtRest(s: State)
    requires s.tick.Idle?
    ensures FirstTick(s)
  {
  }

  lemma DoomedHasTask(s: State, p: Period, q: Period, k: nat)
    requires Doomed(s, p, q, k)
    ensures InTask(s, p)
  {
  }

  // ---- The condition ----

  /** One tick from s confirms everything, whatever the interleaving. */
  ghost predicate OneTickEnough(c: Config, s: State) {
    forall es, t :: Run(c, s, es, t) && AllCalm(es) && Ticks(es) >= 1 ==> AllFinal(t)
  }

  /** When one tick is enough, exactly. From a reachable state between ticks in which every chunk of every
      pending batch is sent and deep and nothing is being published, every run in which one tick completes
      without a failing call ends with all batches CONFIRMED, if and only if no pending period shares an asset
      with another pending one whose mirror has not been applied. */
  lemma OneTickIff(c: Config, s: State)
    requires Reachable(c, s) && Ready(c, s) && s.tick.Idle?
    ensures OneTickEnough(c, s) <==> Separate(s)
  {
    hide Apply, Enabled, Inv, Reachable, Ready, AllSentDeep, Entangled, AllFinal, AllMirrored;
    ReachableInv(c, s);
    ReadyIsDeep(c, s);
    if Separate(s) {
      FirstAtRest(s);
      forall es, t | Run(c, s, es, t) && AllCalm(es) && Ticks(es) >= 1 ensures AllFinal(t) {
        OneTickRun(c, s, es, t);
      }
    } else {
      var p, q :| Entangled(s, p, q);
      var es, t := EntangledNeedsTwo(c, s, p, q);
      PendingIsNotFinal(t, p);
    }
  }

  lemma PendingIsNotFinal(s: State, p: Period)
    requires p in s.batches && s.batches[p].status == PENDING
    ensures !AllFinal(s)
  {
  }
}
