/** The end-to-end observer: what the auditor's comparison of API and chain says of an honest run. */
module Audit {
  import opened Options
  import opened Payloads
  import N = NotaryContract
  import opened Protocol
  import opened Invariant
  import opened Moves
  import opened TablesKept
  import opened TransactionsKept
  import opened Runs
  import opened Conservation
  import opened Convergence
  import opened Faults
  import opened Withheld

  datatype Verdict = MATCH | WARN | MISMATCH | NOT_ON_CHAIN

  /** `verifyAsset`: the API row against the contract's answer. */
  function VerifyAsset(row: AssetRow, chain: N.Storage, id: Id): Verdict {
    var onchain := N.AssetAt(chain, id);
    if onchain.notarizedAt == 0 then NOT_ON_CHAIN
    else if row.contentHash != onchain.contentHash then MISMATCH
    else if onchain.totalViews == row.totalViewsMirror then MATCH
    else WARN
  }

  /** The verdict on any asset row of a reachable state, all reads in one state: NOT_ON_CHAIN exactly while
      its notarisation is not mined, WARN exactly while mined counts wait to be mirrored, and never
      MISMATCH. */
  lemma VerdictMeaning(c: Config, s: State, id: Id)
    requires Reachable(c, s) && id in s.assets
    ensures VerifyAsset(s.assets[id], s.chain, id)
         == if !N.Known(s.chain, id) then NOT_ON_CHAIN else if Settled(c, s, id) then MATCH else WARN
  {
    ReachableInv(c, s);
    SettledMeansEqual(c, s, id);
  }

  /** An honest run on a CONFIRMED asset: never MISMATCH or NOT_ON_CHAIN, WARN exactly while mined counts
      wait to be mirrored. */
  lemma HonestAudit(c: Config, s: State, id: Id)
    requires Reachable(c, s) && id in s.assets && s.assets[id].status == CONFIRMED
    ensures VerifyAsset(s.assets[id], s.chain, id) == if Settled(c, s, id) then MATCH else WARN
  {
    hide Settled, VerifyAsset;
    VerdictMeaning(c, s, id);
    ConfirmedIsKnown(c, s, id);
  }

  lemma ConfirmedIsKnown(c: Config, s: State, id: Id)
    requires Reachable(c, s) && id in s.assets && s.assets[id].status == CONFIRMED
    ensures N.Known(s.chain, id)
  {
    ReachableInv(c, s);
    var t := s.assets[id].txHash.value;
    assert t in s.txs && s.txs[t].call == N.NotarizeAsset(id, s.assets[id].contentHash) && s.txs[t].block.Some?;
  }

  /** After two undisturbed ticks the auditor sees MATCH on every confirmed asset. */
  lemma AuditConverges(c: Config, s: State, es: seq<Event>, t: State, id: Id)
    requires Reachable(c, s) && Ready(c, s) && s.tick.Idle?
    requires Run(c, s, es, t) && AllCalm(es) && Ticks(es) >= 2
    requires id in t.assets && t.assets[id].status == CONFIRMED
    ensures VerifyAsset(t.assets[id], t.chain, id) == MATCH
  {
    TwoTicksConverge(c, s, es, t);
    ReachableOn(c, s, es, t);
    HonestAudit(c, t, id);
    ReachableInv(c, t);
    SettledMeansEqual(c, t, id);
  }

  // ---- Reads at two moments ----

  lemma AssetOnChainStays(c: Config, s: State, e: Event, id: Id)
    requires Inv(c, s) && Enabled(c, s, e)
    ensures N.Known(s.chain, id) ==> N.Known(Apply(c, s, e).chain, id)
    ensures id in s.assets ==> id in Apply(c, s, e).assets && Apply(c, s, e).assets[id].contentHash == s.assets[id].contentHash
  {
    hide Apply, Enabled;
    HashesAlwaysKept(c, s, e);
    if e.Include? {
      AfterInclude(c, s, e.tx, e.timestamp);
      CallKeepsRegistry(s.chain, c.attester, s.txs[e.tx].call, e.timestamp);
    } else {
      OthersUntouched(c, s, e);
    }
  }

  lemma {:induction false} RegistryStays(c: Config, s: State, es: seq<Event>, t: State, id: Id)
    requires Inv(c, s) && Run(c, s, es, t)
    ensures N.Known(s.chain, id) ==> N.Known(t.chain, id)
    ensures id in s.assets ==> id in t.assets && t.assets[id].contentHash == s.assets[id].contentHash
    decreases es
  {
    hide Apply, Enabled, Inv, N.Known;
    if es != [] {
      EventKeepsInv(c, s, es[0]);
      AssetOnChainStays(c, s, es[0], id);
      RegistryStays(c, Apply(c, s, es[0]), es[1..], t, id);
    }
  }

  /** The auditor asks the API first and the chain later. Whatever happens in between, a CONFIRMED asset
      gives MATCH or WARN, and MATCH exactly when the chain total then equals the mirror as it was. */
  lemma AuditAcrossRun(c: Config, s: State, es: seq<Event>, t: State, id: Id)
    requires Reachable(c, s) && Run(c, s, es, t)
    requires id in s.assets && s.assets[id].status == CONFIRMED
    ensures VerifyAsset(s.assets[id], t.chain, id) == if OnChain(t, id) == InMirror(s, id) then MATCH else WARN
  {
    hide Apply, Enabled;
    ReachableInv(c, s);
    ConfirmedIsKnown(c, s, id);
    RegistryStays(c, s, es, t, id);
    RunKeepsInv(c, s, es, t);
  }

  // ---- A row that is not the one that was stored ----

  /** What is on chain for an asset is the hash its row was created with. */
  lemma RegisteredHash(c: Config, s: State, es: seq<Event>, t: State, id: Id)
    requires Reachable(c, s) && id in s.assets && Run(c, s, es, t)
    ensures N.Known(t.chain, id) ==> N.AssetAt(t.chain, id).contentHash == s.assets[id].contentHash
  {
    hide Apply, Enabled;
    ReachableInv(c, s);
    RegistryStays(c, s, es, t, id);
    RunKeepsInv(c, s, es, t);
  }

  /** Tampering shows. Whatever row the API answers for an asset and whenever the chain is read afterwards, the
      verdict is MISMATCH exactly when the asset is on chain and the row's hash is not the one the asset was
      created with, whatever its counters; with the right hash it is MATCH exactly when the row's mirror is
      the chain total at that moment. */
  lemma TamperingShows(c: Config, s: State, es: seq<Event>, t: State, id: Id, row: AssetRow)
    requires Reachable(c, s) && id in s.assets && Run(c, s, es, t)
    ensures VerifyAsset(row, t.chain, id) == MISMATCH
       <==> N.Known(t.chain, id) && row.contentHash != s.assets[id].contentHash
    ensures N.Known(t.chain, id) && row.contentHash == s.assets[id].contentHash ==>
              VerifyAsset(row, t.chain, id) == if OnChain(t, id) == row.totalViewsMirror then MATCH else WARN
    ensures VerifyAsset(row, t.chain, id) == NOT_ON_CHAIN <==> !N.Known(t.chain, id)
  {
    RegisteredHash(c, s, es, t, id);
    hide Run, Reachable;
  }

  /** In particular a changed hash is found on every asset that was on chain when the row was read, after any
      further run. */
  lemma ChangedHashShows(c: Config, s: State, es: seq<Event>, t: State, id: Id, hash: N.Hash, mirror: nat)
    requires Reachable(c, s) && id in s.assets && N.Known(s.chain, id) && Run(c, s, es, t)
    requires hash != s.assets[id].contentHash
    ensures VerifyAsset(s.assets[id].(contentHash := hash, totalViewsMirror := mirror), t.chain, id) == MISMATCH
  {
    hide Apply, Enabled, VerifyAsset;
    ReachableInv(c, s);
    RegistryStays(c, s, es, t, id);
    TamperingShows(c, s, es, t, id, s.assets[id].(contentHash := hash, totalViewsMirror := mirror));
  }

  /** The auditor as fault detector: in a run with crashes, lost hashes and reverted transactions, once every
      batch is mirrored, a registered asset gives MATCH exactly when what was repeated and missed makes up for
      what was sent twice, and WARN otherwise. */
  lemma AuditSeesDamage(c: Config, steps: seq<Step>, t: State, id: Id)
    requires FaultyRun(c, Init(c), steps, t)
    requires forall p :: p in t.batches ==> t.batches[p].mirrorApplied
    requires id in t.assets && N.Known(t.chain, id)
    ensures VerifyAsset(t.assets[id], t.chain, id)
         == if AllRepeated(c, Init(c), steps, id) + AllMissed(c, Init(c), steps, id) == OrphanSum(t, id) then MATCH else WARN
  {
    hide FaultyRun, AllRepeated, AllMissed, OrphanSum;
    DamageSurfaces(c, steps, t, id);
    FaultyCore(c, steps, t);
  }

  /** The receipt status is never read: an asset whose notarisation reverts becomes CONFIRMED, and the auditor
      finds it NOT_ON_CHAIN. */
  lemma RevertedNotarisationShows(c: Config, s: State, id: Id) returns (steps: seq<Step>, t: State)
    requires id in s.assets && s.assets[id].status == PENDING && s.assets[id].txHash.Some? && !N.Known(s.chain, id)
    requires s.assets[id].txHash.value in s.txs && s.txs[s.assets[id].txHash.value].block.None?
    ensures FaultyRun(c, s, steps, t) && id in t.assets && t.assets[id].status == CONFIRMED
    ensures VerifyAsset(t.assets[id], t.chain, id) == NOT_ON_CHAIN
  {
    steps, t := RevertedNotarisationConfirms(c, s, id);
  }
}
