/** What the defensive check is for: once chain and mirror of an asset have come apart, in whichever direction,
    no period that names the asset is finished until they agree again. */
module Damage {
  import opened Options
  import opened Payloads
  import N = NotaryContract
  import opened Protocol
  import opened Invariant
  import opened Moves
  import opened TablesKept
  import opened TransactionsKept
  import opened Runs
  import opened Conservation
  import opened Faults

  /** The counters of the asset are on both sides and differ. */
  predicate Apart(s: State, a: Id) {
    N.Known(s.chain, a) && a in s.assets && OnChain(s, a) != InMirror(s, a)
  }

  /** Both counters of the asset stay what they are throughout the run. */
  ghost predicate Steady(c: Config, s: State, es: seq<Event>, a: Id)
    decreases es
  {
    es != [] ==>
      && Enabled(c, s, es[0])
      && OnChain(Apply(c, s, es[0]), a) == OnChain(s, a) && InMirror(Apply(c, s, es[0]), a) == InMirror(s, a)
      && Steady(c, Apply(c, s, es[0]), es[1..], a)
  }

  /** The check of p, if it is running, has not got past entry k, and has read the chain as it is. */
  predicate BeforeEntry(s: State, p: Period, k: nat, a: Id) {
    InTask(s, p) ==>
      match s.tick.tasks[p]
      case Loading(_) => true
      case Mirroring(_, _, _) => true
      case ReadingChain(_, _, i) => i <= k
      case ReadingMirror(_, _, i, onchain) => i <= k && (i == k ==> onchain == OnChain(s, a))
      case Anchoring => false
      case Finished(confirmed) => !confirmed
  }

  predicate Blocked(s: State, p: Period, k: nat) {
    && p in s.batches && k < |s.batches[p].payload| && s.batches[p].status == PENDING
    && Apart(s, s.batches[p].payload[k].asset)
    && BeforeEntry(s, p, k, s.batches[p].payload[k].asset)
  }

  lemma OwnTaskBlocked(s: State, e: Event, k: nat)
    requires TaskEvent(e) && TaskCan(s, e) && Blocked(s, e.p, k)
    requires TaskOk(s.batches, RowsOf(s.chunks, e.p), e.p, s.tick.tasks[e.p])
    ensures e != ConfirmBatch(e.p)
    ensures var a := s.batches[e.p].payload[k].asset;
            OnChain(ApplyTask(s, e), a) == OnChain(s, a) ==> BeforeEntry(ApplyTask(s, e), e.p, k, a)
  {
  }

  lemma OtherTaskBlocked(s: State, e: Event, p: Period, k: nat, a: Id)
    requires TaskEvent(e) && TaskCan(s, e) && e.p != p && BeforeEntry(s, p, k, a)
    ensures OnChain(ApplyTask(s, e), a) == OnChain(s, a) ==> BeforeEntry(ApplyTask(s, e), p, k, a)
  {
  }

  lemma TickBlocked(c: Config, s: State, e: Event, p: Period, k: nat, a: Id)
    requires TickEvent(e) && TickCan(s, e) && BeforeEntry(s, p, k, a)
    ensures BeforeEntry(ApplyTick(c, s, e), p, k, a)
  {
  }

  lemma EntryStays(c: Config, s: State, e: Event, p: Period, k: nat)
    requires Core(c, s) && Enabled(c, s, e) && Blocked(s, p, k)
    requires var a := s.batches[p].payload[k].asset; OnChain(Apply(c, s, e), a) == OnChain(s, a)
    ensures e != ConfirmBatch(p) && BeforeEntry(Apply(c, s, e), p, k, s.batches[p].payload[k].asset)
  {
    hide Core, Apply, Enabled, ApplyTask, ApplyTick, TaskCan, TickCan, OnChain, TaskOk;
    var a := s.batches[p].payload[k].asset;
    if TaskEvent(e) {
      AfterTaskEvent(c, s, e);
      if e.p == p {
        TaskHere(c, s, p) by { TaskIsHere(s, e); }
        OwnTaskBlocked(s, e, k);
      } else {
        OtherTaskBlocked(s, e, p, k, a);
      }
    } else if TickEvent(e) {
      AfterTickEvent(c, s, e);
      TickBlocked(c, s, e, p, k, a);
    } else {
      OthersUntouched(c, s, e);
    }
  }

  lemma TaskIsHere(s: State, e: Event)
    requires TaskEvent(e) && TaskCan(s, e)
    ensures InTask(s, e.p)
  {
  }

  lemma BlockedKept(c: Config, s: State, e: Event, p: Period, k: nat)
    requires Core(c, s) && Enabled(c, s, e) && Blocked(s, p, k)
    requires var a := s.batches[p].payload[k].asset;
             OnChain(Apply(c, s, e), a) == OnChain(s, a) && InMirror(Apply(c, s, e), a) == InMirror(s, a)
    ensures Blocked(Apply(c, s, e), p, k) && Apply(c, s, e).batches[p].payload == s.batches[p].payload
  {
    EntryStays(c, s, e, p, k);
    ApartStays(c, s, e, s.batches[p].payload[k].asset);
    hide Core, Apply, Enabled, Apart, BeforeEntry;
    BatchRowsMove(c, s, e);
  }

  lemma ApartStays(c: Config, s: State, e: Event, a: Id)
    requires Core(c, s) && Enabled(c, s, e) && Apart(s, a)
    requires OnChain(Apply(c, s, e), a) == OnChain(s, a) && InMirror(Apply(c, s, e), a) == InMirror(s, a)
    ensures Apart(Apply(c, s, e), a)
  {
    hide Apply, Enabled, OnChain, InMirror;
    KnownRowStays(c, s, e, a);
  }

  lemma KnownRowStays(c: Config, s: State, e: Event, a: Id)
    requires Core(c, s) && Enabled(c, s, e)
    ensures N.Known(s.chain, a) ==> N.Known(Apply(c, s, e).chain, a)
    ensures a in s.assets ==> a in Apply(c, s, e).assets
  {
    hide Apply, Enabled;
    HashesAlwaysKept(c, s, e);
    if e.Include? {
      AfterInclude(c, s, e.tx, e.timestamp);
      CallKeepsRegistry(s.chain, c.attester, s.txs[e.tx].call, e.timestamp);
    } else {
      OthersUntouched(c, s, e);
    }
  }

  lemma {:induction false} BlockedRun(c: Config, s: State, es: seq<Event>, t: State, p: Period, k: nat)
    requires Core(c, s) && Blocked(s, p, k) && Run(c, s, es, t) && Steady(c, s, es, s.batches[p].payload[k].asset)
    ensures p in t.batches && t.batches[p].status == PENDING
    decreases es
  {
    hide Core, Apply, Enabled, Apart, BeforeEntry;
    if es != [] {
      BlockedKept(c, s, es[0], p, k);
      EventKeepsCore(c, s, es[0]);
      BlockedRun(c, Apply(c, s, es[0]), es[1..], t, p, k);
    }
  }

  /** The check holds the damage back. In a state that any number of stops, lost hashes and reverts can lead to,
      between ticks, let chain and mirror of an asset differ, the mirror ahead or behind. Then no run in which
      the two stay what they are finishes a pending period that names the asset. */
  lemma DamageBlocks(c: Config, steps: seq<Step>, s: State, es: seq<Event>, t: State, p: Period, k: nat)
    requires FaultyRun(c, Init(c), steps, s) && s.tick.Idle?
    requires p in s.batches && s.batches[p].status == PENDING && k < |s.batches[p].payload|
    requires Apart(s, s.batches[p].payload[k].asset)
    requires Run(c, s, es, t) && Steady(c, s, es, s.batches[p].payload[k].asset)
    ensures p in t.batches && t.batches[p].status == PENDING
  {
    hide Core, FaultyRun;
    FaultyCore(c, steps, s);
    BlockedRun(c, s, es, t, p, k);
  }
}
