/** The invariant over all runs. */
module Runs {
  import opened Options
  import opened Protocol
  import opened Invariant
  import opened TablesKept
  import opened TransactionsKept
  import opened ReconciliationKept
  import opened Counting

  lemma EventKeepsCore(c: Config, s: State, e: Event)
    requires Core(c, s) && Enabled(c, s, e)
    ensures Core(c, Apply(c, s, e))
  {
    hide Apply, Enabled;
    ViewsKept(c, s, e);
    BatchesKept(c, s, e);
    ChunksKept(c, s, e);
    PublishersKept(c, s, e);
    SentKept(c, s, e);
    OwnedKept(c, s, e);
    NotarizationKept(c, s, e);
    ChainKept(c, s, e);
    BlocksKept(c, s, e);
    StatusKept(c, s, e);
    DepthKept(c, s, e);
    TickKept(c, s, e);
  }

  lemma InvIsCore(c: Config, s: State)
    requires Inv(c, s)
    ensures Core(c, s)
  {
  }

  lemma EventKeepsInv(c: Config, s: State, e: Event)
    requires Inv(c, s) && Enabled(c, s, e)
    ensures Inv(c, Apply(c, s, e))
  {
    hide Apply, Enabled;
    EventKeepsCore(c, s, e);
    OrphansKept(c, s, e);
    RegistryKept(c, s, e);
    AnchorKept(c, s, e);
    ChainCountKept(c, s, e);
    MirrorCountKept(c, s, e);
  }

  lemma {:induction false} RunKeepsInv(c: Config, s: State, es: seq<Event>, t: State)
    requires Inv(c, s) && Run(c, s, es, t)
    ensures Inv(c, t)
    decreases es
  {
    hide Apply, Enabled, Inv;
    if es != [] {
      EventKeepsInv(c, s, es[0]);
      RunKeepsInv(c, Apply(c, s, es[0]), es[1..], t);
    }
  }

  /** Every state any interleaving of tasks can reach satisfies the invariant. */
  lemma ReachableInv(c: Config, s: State)
    requires Reachable(c, s)
    ensures Inv(c, s)
  {
    hide Apply, Enabled;
    var es :| Run(c, Init(c), es, s);
    InitInv(c);
    RunKeepsInv(c, Init(c), es, s);
  }
}
