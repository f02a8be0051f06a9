/** One view's life, event by event: notarised, registered, published, mined, mirrored, confirmed, anchored;
    and a second period that shares its asset. The states along the way are instances of the hypotheses of
    the main results. */
module Witness {
  import opened Options
  import opened Payloads
  import opened Sums
  import N = NotaryContract
  import opened Protocol
  import opened Invariant
  import opened Moves
  import opened ReconciliationKept
  import opened Runs
  import opened Conservation
  import opened Convergence
  import opened OneTick
  import opened Faults
  import opened Damage
  import opened Withheld
  import opened Repeats
  import opened Overlaps

  const C: Config := Settings(1, 1, 7)

  // ---- Publishing one view ----

  function U(a: Id): seq<Update> { [Update(a, 1)] }

  function Batch(a: Id): BatchRow { BatchRow(U(a), 1, 1, PENDING, false, None, None) }

  function WithView(s: State, key: Key, a: Id, p: Period): State {
    s.(views := s.views + [View(key, a, p, false)])
  }

  /** The batch and its one chunk exist, and the chunk is loaded. */
  function Loaded(s: State, key: Key, a: Id, p: Period): State {
    WithView(s, key, a, p).(batches := s.batches[p := Batch(a)], chunks := s.chunks[p := [NewChunk(U(a))]],
      pub := s.pub[p := Sending([NewChunk(U(a))], 0, false)])
  }

  /** The chunk is sent and its hash not yet written. */
  function InHand(s: State, key: Key, a: Id, p: Period, tx: TxId): State {
    Loaded(s, key, a, p).(txs := s.txs[tx := Tx(N.PublishBatch(p, U(a)), Some(0), None)],
      pub := s.pub[p := Recording([NewChunk(U(a))], 0, tx, false)])
  }

  /** The hash is written and the publication over. */
  function Sent(s: State, key: Key, a: Id, p: Period, tx: TxId): State {
    InHand(s, key, a, p, tx).(batches := s.batches[p := Batch(a).(txHash := Some(tx))],
      chunks := s.chunks[p := [ChunkRow(U(a), PENDING, Some(tx), None)]], pub := s.pub)
  }

  /** The publication is mined in the head block. */
  function Mined(s: State, key: Key, a: Id, p: Period, tx: TxId): State
    requires N.Execute(s.chain, 7, N.PublishBatch(p, U(a)), 1).Done?
  {
    Sent(s, key, a, p, tx).(chain := N.Execute(s.chain, 7, N.PublishBatch(p, U(a)), 1).storage,
      txs := s.txs[tx := Tx(N.PublishBatch(p, U(a)), Some(0), Some(s.head))])
  }

  /** Nothing is being published, and period, key and transaction are new. */
  predicate Fresh(s: State, key: Key, a: Id, p: Period, tx: TxId) {
    && s.pub == map[] && a in s.assets && p !in s.batches && p !in s.chunks && tx !in s.txs
    && forall i :: 0 <= i < |s.views| ==> s.views[i].key != key && s.views[i].period != p
  }

  lemma {:induction false} NoViews(views: seq<View>, p: Period, a: Id)
    requires forall i :: 0 <= i < |views| ==> views[i].period != p
    ensures ViewCount(views, p, a) == 0
  {
    if views != [] { NoViews(views[..|views| - 1], p, a); }
  }

  lemma OneView(s: State, key: Key, a: Id, p: Period)
    requires forall i :: 0 <= i < |s.views| ==> s.views[i].period != p
    ensures IsAggregate(U(a), WithView(s, key, a, p).views, p) && SortByAsset(U(a)) == U(a)
    ensures Slices(U(a), 1) == [U(a)] && TotalOf(U(a)) == 1 && EnsureRows([], [U(a)]) == [NewChunk(U(a))]
  {
    var u := U(a);
    var ss := [u];
    assert u[..0] == [] && ss[..0] == [] && ss[0..] == ss;
    forall x ensures CountOf(u, x) == ViewCount(WithView(s, key, a, p).views, p, x) {
      NoViews(s.views, p, x);
      ViewCountSnoc(s.views, View(key, a, p, false), p, x);
      assert CountOf([], x) == 0;
    }
    assert SortByAsset([]) == [] && Insert(u[0], []) == u;
    assert FreshRows([u]) == [NewChunk(u)];
  }

  lemma ToLoaded(s: State, key: Key, a: Id, p: Period, tx: TxId) returns (es: seq<Event>)
    requires Fresh(s, key, a, p, tx)
    ensures Run(C, s, es, Loaded(s, key, a, p))
  {
    hide Enabled, Apply, SortByAsset, Slices, IsAggregate, TotalOf, EnsureRows;
    OneView(s, key, a, p);
    var s0 := WithView(s, key, a, p);
    AfterRegister(C, s, key, a, p);
    RunOne(C, s, Event.Register(key, a, p));
    var s1 := s0.(pub := s.pub[p := Aggregated(U(a), false, false)]);
    AfterReadAggregates(C, s0, p, U(a));
    var s2 := s0.(batches := s.batches[p := Batch(a)], pub := s.pub[p := Prepared(U(a), false)]);
    AfterEnsureBatch(C, s1, p);
    assert s1.pub[p := Prepared(U(a), false)] == s2.pub;
    var s3 := s2.(chunks := s.chunks[p := [NewChunk(U(a))]], pub := s.pub[p := Planned(false)]);
    AfterEnsureChunks(C, s2, p);
    assert s2.pub[p := Planned(false)] == s3.pub;
    AfterLoadChunks(C, s3, p);
    assert s3.pub[p := Sending([NewChunk(U(a))], 0, false)] == Loaded(s, key, a, p).pub;
    var rest := [ReadAggregates(p, U(a)), EnsureBatch(p), EnsureChunks(p), LoadChunks(p)];
    FourSteps(C, s0, s1, s2, s3, Loaded(s, key, a, p), rest);
    RunConcat(C, s, [Event.Register(key, a, p)], s0, rest, Loaded(s, key, a, p));
    es := [Event.Register(key, a, p)] + rest;
  }

  lemma ToInHand(s: State, key: Key, a: Id, p: Period, tx: TxId)
    requires Fresh(s, key, a, p, tx)
    ensures Run(C, Loaded(s, key, a, p), [SendChunk(p, tx)], InHand(s, key, a, p, tx))
  {
    hide Enabled, Apply;
    var l := Loaded(s, key, a, p);
    AfterSendChunk(C, l, p, tx);
    assert l.pub[p := Recording([NewChunk(U(a))], 0, tx, false)] == InHand(s, key, a, p, tx).pub;
    RunOne(C, l, SendChunk(p, tx));
  }

  lemma ToSent(s: State, key: Key, a: Id, p: Period, tx: TxId) returns (es: seq<Event>)
    requires Fresh(s, key, a, p, tx)
    ensures Run(C, InHand(s, key, a, p, tx), es, Sent(s, key, a, p, tx))
  {
    hide Enabled, Apply;
    var h, t := InHand(s, key, a, p, tx), Sent(s, key, a, p, tx);
    AfterRecordChunk(C, h, p);
    var m := t.(pub := s.pub[p := Sending([NewChunk(U(a))], 1, true)]);
    assert [NewChunk(U(a))][0 := ChunkRow(U(a), PENDING, Some(tx), None)] == [ChunkRow(U(a), PENDING, Some(tx), None)];
    assert h.chunks[p := t.chunks[p]] == t.chunks && h.batches[p := t.batches[p]] == t.batches && h.pub[p := m.pub[p]] == m.pub;
    AfterEndPublish(C, m, p);
    assert m.pub - {p} == s.pub;
    RunOne(C, h, RecordChunk(p));
    RunOne(C, m, EndPublish(p));
    RunConcat(C, h, [RecordChunk(p)], m, [EndPublish(p)], t);
    es := [RecordChunk(p)] + [EndPublish(p)];
  }

  /** The publication of one view of a registered asset is accepted, and the asset stays registered. */
  lemma Accepted(chain: N.Storage, p: Period, a: Id)
    requires chain.attester == 7 && N.Known(chain, a) && N.Total(chain, a) < 10 && 0 <= p < 10
    ensures var o := N.Execute(chain, 7, N.PublishBatch(p, U(a)), 1);
            o.Done? && o.storage.attester == 7 && N.Known(o.storage, a) && N.Total(o.storage, a) == N.Total(chain, a) + 1
  {
    CountOfOne(Update(a, 1), a);
    N.PublishMeaning(chain, p, U(a));
  }

  lemma ToMined(s: State, key: Key, a: Id, p: Period, tx: TxId)
    requires Fresh(s, key, a, p, tx) && N.Execute(s.chain, 7, N.PublishBatch(p, U(a)), 1).Done?
    ensures Run(C, Sent(s, key, a, p, tx), [Include(tx, 1)], Mined(s, key, a, p, tx))
  {
    hide Enabled, Apply, N.Execute;
    var t := Sent(s, key, a, p, tx);
    AfterInclude(C, t, tx, 1);
    assert t.txs[tx := t.txs[tx].(block := Some(s.head))] == Mined(s, key, a, p, tx).txs;
    RunOne(C, t, Include(tx, 1));
  }

  lemma Reach(s: State, es: seq<Event>, t: State)
    requires Reachable(C, s) && Run(C, s, es, t)
    ensures Reachable(C, t)
  {
    ReachableOn(C, s, es, t);
  }

  // ---- The states ----

  const ROW := AssetRow(5, PENDING, None, None, 0)

  /** The row of asset a exists and its notarisation is about to be sent. */
  function Notarising(a: Id): State {
    Init(C).(assets := map[a := ROW], notarizing := map[a := None])
  }

  /** Asset 1 is notarised on chain. */
  function Notarised(): State {
    Init(C).(assets := map[1 := ROW.(txHash := Some(10))], txs := map[10 := Tx(N.NotarizeAsset(1, 5), None, Some(0))],
      chain := N.Storage(7, map[], map[1 := N.Asset(5, 1, 0)], [N.AssetNotarized(1, 5, 1)]))
  }

  lemma ToNotarising(a: Id)
    ensures Reachable(C, Notarising(a))
  {
    hide Enabled, Apply;
    AfterCreateAsset(C, Init(C), a, 5);
    RunOne(C, Init(C), CreateAsset(a, 5));
  }

  lemma ToNotarised()
    ensures Reachable(C, Notarised())
  {
    hide Enabled, Apply;
    ToNotarising(1);
    var s1 := Notarising(1);
    var s2 := s1.(txs := map[10 := Tx(N.NotarizeAsset(1, 5), None, None)], notarizing := map[1 := Some(10)]);
    AfterSendNotarize(C, s1, 1, 10);
    var s3 := s2.(assets := Notarised().assets, notarizing := map[]);
    AfterRecordNotarize(C, s2, 1);
    assert s2.notarizing - {1} == map[];
    AfterInclude(C, s3, 10, 1);
    assert N.Execute(s3.chain, 7, s3.txs[10].call, 1) == N.Done(Notarised().chain);
    RunOne(C, s1, SendNotarize(1, 10));
    RunOne(C, s2, RecordNotarize(1));
    RunOne(C, s3, Include(10, 1));
    Reach(s1, [SendNotarize(1, 10)], s2);
    Reach(s2, [RecordNotarize(1)], s3);
    Reach(s3, [Include(10, 1)], Notarised());
  }

  function FirstLoaded(): State { Loaded(Notarised(), 3, 1, 0) }

  function FirstInHand(): State { InHand(Notarised(), 3, 1, 0, 11) }

  function FirstSent(): State { Sent(Notarised(), 3, 1, 0, 11) }

  ghost predicate IsMined(s: State, m: State, key: Key, p: Period, tx: TxId) {
    N.Execute(s.chain, 7, N.PublishBatch(p, U(1)), 1).Done? && m == Mined(s, key, 1, p, tx)
  }

  /** A publication not loaded, loaded, in hand, sent, and mined. */
  lemma FirstPublication() returns (es: seq<Event>, m: State)
    ensures Reachable(C, FirstLoaded()) && Reachable(C, FirstInHand()) && HashInHand(FirstInHand())
    ensures Run(C, FirstLoaded(), es, FirstSent()) && Reachable(C, FirstSent())
    ensures IsMined(Notarised(), m, 3, 0, 11) && Reachable(C, m)
  {
    hide Enabled, Apply, N.Execute, Reachable;
    ToNotarised();
    var s := Notarised();
    var xs := ToLoaded(s, 3, 1, 0, 11);
    Reach(s, xs, FirstLoaded());
    ToInHand(s, 3, 1, 0, 11);
    Reach(FirstLoaded(), [SendChunk(0, 11)], FirstInHand());
    assert 0 in FirstInHand().pub;
    var ys := ToSent(s, 3, 1, 0, 11);
    Reach(FirstInHand(), ys, FirstSent());
    es := [SendChunk(0, 11)] + ys;
    RunConcat(C, FirstLoaded(), [SendChunk(0, 11)], FirstInHand(), ys, FirstSent());
    Accepted(s.chain, 0, 1);
    m := Mined(s, 3, 1, 0, 11);
    ToMined(s, 3, 1, 0, 11);
    Reach(FirstSent(), [Include(11, 1)], m);
  }

  lemma FirstMinedFacts(m: State)
    requires IsMined(Notarised(), m, 3, 0, 11)
    ensures m.batches.Keys == {0} && m.batches[0] == Batch(1).(txHash := Some(11)) && m.chunks.Keys == {0}
    ensures m.tick.Idle? && m.pub == map[] && |m.views| == 1 && m.views[0].period == 0
    ensures m.assets.Keys == {1} && m.assets[1].totalViewsMirror == 0
    ensures Ready(C, m) && m.chain.attester == 7 && N.Known(m.chain, 1) && OnChain(m, 1) == 1
  {
    hide N.Execute;
    Accepted(Notarised().chain, 0, 1);
    assert Deep(C, m.txs, m.head, 11);
  }

  // ---- One tick, step by step ----

  ghost predicate InStage(s: State, t: Task) {
    s.tick == Finalising(map[0 := t])
  }

  /** From the mined publication to the end of the tick: the states after the first addition of the mirror loop,
      before the anchoring, and at the end, each reached from the one before. */
  lemma Life() returns (b: BatchRow, l: State, xs: seq<Event>, h: State, f: State, ys: seq<Event>, d: State)
    ensures Reachable(C, l) && InStage(l, Loading(b)) && !b.mirrorApplied && Run(C, l, xs, d)
    ensures Reachable(C, h) && InTask(h, 0) && h.tick.tasks[0].Mirroring? && h.tick.tasks[0].next == 1
    ensures |h.views| == 1 && 1 in h.assets && h.assets[1].totalViewsMirror == 1
    ensures Reachable(C, f) && InAnchoring(f.tick, 0)
    ensures Reachable(C, d) && d.tick.Idle? && Run(C, f, ys, d)
    ensures 0 in d.batches && d.batches[0].status == CONFIRMED && d.batches[0].mirrorApplied
    ensures |d.views| == 1 && d.views[0].anchored && OnChain(d, 1) == InMirror(d, 1) == 1
  {
    hide Enabled, Apply, N.Execute, Inv, Reachable, MaxBlock;
    var es0, m := FirstPublication();
    FirstMinedFacts(m);
    var zs;
    zs, l, b := StartOfTick(m);
    Reach(m, zs, l);
    var hs, as_;
    hs, h := ToHalfway(l, b);
    Reach(l, hs, h);
    as_, f := ToAnchoring(h, b);
    Reach(h, as_, f);
    ys, d := ToRest(f);
    Reach(f, ys, d);
    RunConcat(C, l, hs, h, as_, f);
    RunConcat(C, l, hs + as_, f, ys, d);
    xs := hs + as_ + ys;
  }

  predicate OnlyBatch(s: State, b: BatchRow) {
    s.batches.Keys == {0} && s.batches[0] == b && b.status == PENDING
  }

  /** Where the tick begins: one pending period, all of its chunks confirmed. */
  ghost predicate Starting(s: State, b: BatchRow) {
    && InStage(s, Loading(b)) && b.payload == U(1) && !b.mirrorApplied && AllConfirmed(RowsOf(s.chunks, 0))
    && OnlyBatch(s, b) && |s.views| == 1 && s.views[0].period == 0
    && 1 in s.assets && s.assets[1].totalViewsMirror == 0 && N.Known(s.chain, 1) && OnChain(s, 1) == 1
  }

  lemma StartOfTick(m: State) returns (es: seq<Event>, l: State, b: BatchRow)
    requires IsMined(Notarised(), m, 3, 0, 11) && Reachable(C, m)
    ensures Run(C, m, es, l) && Starting(l, b)
  {
    hide Enabled, Apply, N.Execute, Inv, Core, Reachable, FirstTick, AllSentDeep, AllConfirmed, N.Known, IsMined, Ready;
    FirstMinedFacts(m);
    ReachableInv(C, m);
    InvIsCore(C, m);
    es, l := ToFinalising(C, m);
    ReadyIsDeep(C, m);
    FirstAtRest(m);
    RunKeepsFirst(C, m, es, l);
    b := m.batches[0];
    assert PendingTasks(m.batches) == map[0 := Loading(b)];
    AllConfirmedAt(l);
  }

  lemma AllConfirmedAt(l: State)
    requires FirstTick(l) && l.tick.Finalising? && 0 in l.batches
    ensures AllConfirmed(RowsOf(l.chunks, 0))
  {
  }

  ghost predicate Halfway(s: State, b: BatchRow) {
    && (exists block :: InStage(s, Mirroring(b.payload, block, 1))) && b.payload == U(1) && !b.mirrorApplied
    && AllConfirmed(RowsOf(s.chunks, 0)) && OnlyBatch(s, b) && |s.views| == 1 && s.views[0].period == 0
    && 1 in s.assets && N.Known(s.chain, 1)
  }

  lemma ToHalfway(s: State, b: BatchRow) returns (es: seq<Event>, t: State)
    requires InStage(s, Loading(b)) && b.payload == U(1) && !b.mirrorApplied && AllConfirmed(RowsOf(s.chunks, 0))
    requires OnlyBatch(s, b) && |s.views| == 1 && s.views[0].period == 0
    requires 1 in s.assets && N.Known(s.chain, 1)
    ensures Run(C, s, es, t) && Halfway(t, b) && t.chain == s.chain
    ensures t.assets[1].totalViewsMirror == s.assets[1].totalViewsMirror + 1
  {
    hide Enabled, Apply, MaxBlock, AllConfirmed;
    AfterLoadPeriod(C, s, 0);
    var m := Apply(C, s, LoadPeriod(0));
    AfterMirrorOne(C, m, 0);
    t := Apply(C, m, MirrorOne(0));
    RunOne(C, s, LoadPeriod(0));
    RunOne(C, m, MirrorOne(0));
    RunConcat(C, s, [LoadPeriod(0)], m, [MirrorOne(0)], t);
    es := [LoadPeriod(0)] + [MirrorOne(0)];
    assert InStage(t, Mirroring(b.payload, MaxBlock(RowsOf(s.chunks, 0)), 1));
  }

  ghost predicate ReadyToAnchor(s: State) {
    && InStage(s, Anchoring) && 0 in s.batches && s.batches[0].status == CONFIRMED && s.batches[0].mirrorApplied
    && |s.views| == 1 && s.views[0].period == 0 && 1 in s.assets && OnChain(s, 1) == InMirror(s, 1) == 1
  }

  lemma ToAnchoring(s: State, b: BatchRow) returns (es: seq<Event>, t: State)
    requires Halfway(s, b) && OnChain(s, 1) == 1 && s.assets[1].totalViewsMirror == 1
    ensures Run(C, s, es, t) && ReadyToAnchor(t)
  {
    hide Enabled, Apply;
    AfterMarkMirror(C, s, 0);
    var s1 := Apply(C, s, MarkMirror(0));
    AfterReadingChain(C, s1, 0);
    var s2 := Apply(C, s1, ReadChain(0));
    AfterReadingMirror(C, s2, 0);
    var s3 := Apply(C, s2, ReadMirror(0));
    AfterConfirmBatch(C, s3, 0);
    t := Apply(C, s3, ConfirmBatch(0));
    es := [MarkMirror(0), ReadChain(0), ReadMirror(0), ConfirmBatch(0)];
    FourSteps(C, s, s1, s2, s3, t, es);
  }

  lemma ToRest(s: State) returns (es: seq<Event>, t: State)
    requires ReadyToAnchor(s)
    ensures Run(C, s, es, t) && t.tick.Idle? && 0 in t.batches && t.batches[0].status == CONFIRMED && t.batches[0].mirrorApplied
    ensures |t.views| == 1 && t.views[0].anchored && OnChain(t, 1) == InMirror(t, 1) == 1
  {
    hide Enabled, Apply;
    AfterAnchor(C, s, 0);
    AnchorFacts(s.views, 0);
    var m := Apply(C, s, AnchorViews(0));
    AfterEndTick(C, m);
    t := Apply(C, m, EndTick);
    RunOne(C, s, AnchorViews(0));
    RunOne(C, m, EndTick);
    RunConcat(C, s, [AnchorViews(0)], m, [EndTick], t);
    es := [AnchorViews(0)] + [EndTick];
  }

  // ---- Instances of the main results ----

  /** Two periods that share an asset, both published, mined and pending: a ready state from which one tick
      is not enough. */
  lemma TwoPeriods() returns (s: State)
    ensures Reachable(C, s) && Ready(C, s) && s.tick.Idle? && Entangled(s, 0, 5) && !OneTickEnough(C, s)
  {
    hide Enabled, Apply, N.Execute, Inv, Reachable, OneTickEnough;
    var es, m := FirstPublication();
    FirstMinedFacts(m);
    Accepted(m.chain, 5, 1);
    var xs := ToLoaded(m, 4, 1, 5, 12);
    ToInHand(m, 4, 1, 5, 12);
    var ys := ToSent(m, 4, 1, 5, 12);
    ToMined(m, 4, 1, 5, 12);
    s := Mined(m, 4, 1, 5, 12);
    Reach(m, xs, Loaded(m, 4, 1, 5));
    Reach(Loaded(m, 4, 1, 5), [SendChunk(5, 12)], InHand(m, 4, 1, 5, 12));
    Reach(InHand(m, 4, 1, 5, 12), ys, Sent(m, 4, 1, 5, 12));
    Reach(Sent(m, 4, 1, 5, 12), [Include(12, 1)], s);
    TwoPeriodsReady(m, s);
    OneTickIff(C, s);
  }

  lemma TwoPeriodsReady(m: State, s: State)
    requires IsMined(Notarised(), m, 3, 0, 11) && IsMined(m, s, 4, 5, 12)
    ensures Ready(C, s) && s.tick.Idle? && Entangled(s, 0, 5)
  {
    hide N.Execute;
    assert Deep(C, s.txs, s.head, 11) && Deep(C, s.txs, s.head, 12);
    assert SentDeep(C, s, 0) && SentDeep(C, s, 5);
    assert SameAsset(s.batches[0].payload, s.batches[5].payload, 0, 0);
  }

  /** The overlaps happen: the publication that loaded before the send sends again, and the tick that read the
      row before the flag mirrors again. */
  lemma OverlapsHappen() returns (t: State, d: State, b: BatchRow)
    ensures Reachable(C, t) && SendsTwice(C, Behind(t, 0, [NewChunk(U(1))], false), 0, U(1))
    ensures Reachable(C, d) && MirrorsTwice(C, BehindTick(d, 0, b), 0)
  {
    hide Enabled, Apply, N.Execute, Inv, Reachable, SendsTwice, MirrorsTwice;
    var es, m := FirstPublication();
    t := FirstSent();
    OverlapSendsTwiceIff(C, FirstLoaded(), es, t, 0, 0);
    var l, xs, h, f, ys;
    b, l, xs, h, f, ys, d := Life();
    OverlapMirrorsTwiceIff(C, l, xs, d, 0);
  }

  /** A FAILED asset keeps taking views, and the chunk that names it is sent and never mined. */
  lemma FailedAssetWithholds() returns (s: State)
    ensures Reachable(C, s) && 2 in s.assets && s.assets[2].status == FAILED && !CanRegister(C, s, 2)
    ensures HasSentChunk(s, 0, 2)
  {
    hide Enabled, Apply, Reachable, CanRegister;
    ToNotarising(2);
    AfterFailNotarize(C, Notarising(2), 2);
    var m := Init(C).(assets := map[2 := ROW.(status := FAILED)]);
    assert Notarising(2).notarizing - {2} == map[];
    RunOne(C, Notarising(2), FailNotarize(2));
    Reach(Notarising(2), [FailNotarize(2)], m);
    var xs := ToLoaded(m, 3, 2, 0, 11);
    ToInHand(m, 3, 2, 0, 11);
    var ys := ToSent(m, 3, 2, 0, 11);
    s := Sent(m, 3, 2, 0, 11);
    Reach(m, xs, Loaded(m, 3, 2, 0));
    Reach(Loaded(m, 3, 2, 0), [SendChunk(0, 11)], InHand(m, 3, 2, 0, 11));
    Reach(InHand(m, 3, 2, 0, 11), ys, s);
    FailedWithholds(C, s, 2);
    assert s.chunks[0][0].payload[0].asset == 2;
  }

  ghost predicate HasSentChunk(s: State, p: Period, a: Id) {
    p in s.chunks && |s.chunks[p]| > 0 && s.chunks[p][0].txHash.Some? && Names(s.chunks[p][0].payload, a)
  }

  // ---- A crash that counts twice ----

  lemma {:induction false} RunIsFaultless(c: Config, s: State, es: seq<Event>, t: State) returns (steps: seq<Step>)
    requires Run(c, s, es, t)
    ensures FaultyRun(c, s, steps, t)
    decreases es
  {
    hide Enabled, Apply;
    if es == [] {
      steps := [];
    } else {
      var rest := RunIsFaultless(c, Apply(c, s, es[0]), es[1..], t);
      steps := [Normal(es[0])] + rest;
      assert steps[1..] == rest;
    }
  }

  lemma CrashedHalfway(h: State, b: BatchRow)
    requires Halfway(h, b)
    ensures var s := Crashed(h);
            && s.tick.Idle? && s.batches == h.batches && s.chunks == h.chunks && s.assets == h.assets && s.views == h.views
            && s.chain == h.chain && PendingTasks(s.batches) == map[0 := Loading(b)]
  {
  }

  lemma SomeRun(h: State) returns (es: seq<Event>)
    requires Reachable(C, h)
    ensures Run(C, Init(C), es, h)
  {
    es :| Run(C, Init(C), es, h);
  }

  lemma {:induction false} RunKeepsConfirmed(c: Config, s: State, es: seq<Event>, t: State, p: Period)
    requires Core(c, s) && Run(c, s, es, t) && AllConfirmed(RowsOf(s.chunks, p))
    ensures AllConfirmed(RowsOf(t.chunks, p))
    decreases es
  {
    hide Apply, Enabled;
    if es != [] {
      ConfirmedRowsStable(c, s, es[0], p);
      EventKeepsCore(c, s, es[0]);
      hide Core;
      RunKeepsConfirmed(c, Apply(c, s, es[0]), es[1..], t, p);
    }
  }

  /** The promise that a restart duplicates nothing is false: a crash halfway through the mirror loop, and the
      one registered view counts twice in the mirror after the next loop. */
  lemma CrashCountsTwice() returns (steps: seq<Step>, t: State)
    ensures FaultyRun(C, Init(C), steps, t)
    ensures 1 in t.assets && t.assets[1].totalViewsMirror == 2 && |t.views| == 1
    ensures OnChain(t, 1) == 1 && 0 in t.batches && Halfway(t, t.batches[0])
  {
    hide Enabled, Apply, N.Execute, Inv, Core, Reachable, Crashed, AllConfirmed, PendingTasks;
    var es0, m := FirstPublication();
    FirstMinedFacts(m);
    var zs, l, b := StartOfTick(m);
    var hs, h := ToHalfway(l, b);
    Reach(m, zs, l);
    Reach(l, hs, h);
    CrashedHalfway(h, b);
    var s := Crashed(h);
    ReachableInv(C, h);
    InvIsCore(C, h);
    CrashBalances(C, h, 0);
    var us, v := ToFinalising(C, s);
    RunKeepsConfirmed(C, s, us, v, 0);
    var ws;
    ws, t := ToHalfway(v, b);
    RunConcat(C, s, us, v, ws, t);
    var es := SomeRun(h);
    var xs := RunIsFaultless(C, Init(C), es, h);
    var ys := RunIsFaultless(C, s, us + ws, t);
    FaultyOne(C, h, Crash);
    FaultyConcat(C, Init(C), xs, h, [Crash], s);
    FaultyConcat(C, Init(C), xs + [Crash], s, ys, t);
    steps := xs + [Crash] + ys;
  }

  lemma ToStuck(s: State, b: BatchRow) returns (es: seq<Event>, t: State)
    requires Halfway(s, b) && OnChain(s, 1) == 1 && s.assets[1].totalViewsMirror == 2
    ensures Run(C, s, es, t) && t.tick.Idle? && Apart(t, 1)
    ensures 0 in t.batches && t.batches[0].status == PENDING && t.batches[0].payload == U(1)
  {
    hide Enabled, Apply;
    AfterMarkMirror(C, s, 0);
    var s1 := Apply(C, s, MarkMirror(0));
    AfterReadingChain(C, s1, 0);
    var s2 := Apply(C, s1, ReadChain(0));
    AfterReadingMirror(C, s2, 0);
    var s3 := Apply(C, s2, ReadMirror(0));
    AfterEndTick(C, s3);
    t := Apply(C, s3, EndTick);
    es := [MarkMirror(0), ReadChain(0), ReadMirror(0), EndTick];
    FourSteps(C, s, s1, s2, s3, t, es);
  }

  /** And the check notices: at the end of that tick the period is PENDING, with the mirror ahead of the chain. */
  lemma DamageIsNoticed() returns (steps: seq<Step>, t: State)
    ensures FaultyRun(C, Init(C), steps, t) && t.tick.Idle?
    ensures 0 in t.batches && t.batches[0].status == PENDING && |t.batches[0].payload| == 1
    ensures t.batches[0].payload[0].asset == 1 && Apart(t, 1)
  {
    var xs, m := CrashCountsTwice();
    hide Apart;
    var es;
    es, t := ToStuck(m, m.batches[0]);
    var ys := RunIsFaultless(C, m, es, t);
    FaultyConcat(C, Init(C), xs, m, ys, t);
    steps := xs + ys;
  }
}
