/** The nonce cache of the attester key: base read from the chain plus a local delta. */
module Nonce {
  import opened Options

  /** How the part of a send after the nonce ends: the transaction cannot be populated, the node refuses it,
      the node takes it into the mempool but the answer is lost, or it is accepted. */
  datatype Outcome = PopulateFails | Refused | TakenThenThrows | Accepted

  /** How the chain answers when asked for the pending count. Whether the inherited cache keeps a rejected
      answer is not visible in the repository; it is a parameter. */
  datatype Answer = Answers | Rejects(kept: bool)

  /** One send: the answer, used only when the cache is empty, and the outcome after it. */
  datatype Attempt = Attempt(answer: Answer, outcome: Outcome)

  datatype Cache = Empty | Base(nonce: nat) | Broken

  /** The cache and the account: the nonces of all transactions the node has taken, in order. */
  datatype Manager = Manager(base: Cache, delta: nat, first: nat, taken: seq<nat>)

  predicate Reaches(o: Outcome) { o.TakenThenThrows? || o.Accepted? }

  /** `getTransactionCount('pending')`. */
  function Pending(m: Manager): nat { m.first + |m.taken| }

  // ---- The three parts of a send, in the order of the code ----

  /** `getNonce('pending')`: fill an empty cache from the chain. */
  function Fetch(m: Manager, a: Answer): Manager {
    if !m.base.Empty? then m
    else if a.Answers? then m.(base := Base(Pending(m)))
    else if a.kept then m.(base := Broken)
    else m
  }

  /** The nonce of a filled cache; a cache that is still empty or keeps a rejected answer makes the call throw. */
  function NonceOf(m: Manager): Option<nat> {
    if m.base.Base? then Some(m.base.nonce + m.delta) else None
  }

  function Increment(m: Manager): Manager { m.(delta := m.delta + 1) }

  /** Populate and broadcast under the nonce; on an exception, `reset`. */
  function Finish(m: Manager, nonce: nat, o: Outcome): Manager {
    var n := if Reaches(o) then m.(taken := m.taken + [nonce]) else m;
    if o.Accepted? then n else n.(base := Empty, delta := 0)
  }

  /** A send that no other send overlaps. A failing nonce read leaves before the `try`. */
  function Send(m: Manager, t: Attempt): Manager {
    var f := Fetch(m, t.answer);
    match NonceOf(f)
    case None => f
    case Some(nonce) => Finish(Increment(f), nonce, t.outcome)
  }

  /** The send reaches the mempool. */
  predicate Sends(m: Manager, t: Attempt) {
    NonceOf(Fetch(m, t.answer)).Some? && Reaches(t.outcome)
  }

  function SendAll(m: Manager, ts: seq<Attempt>): Manager {
    if ts == [] then m else Send(SendAll(m, ts[..|ts| - 1]), ts[|ts| - 1])
  }

  function CountSent(m: Manager, ts: seq<Attempt>): nat {
    if ts == [] then 0
    else CountSent(m, ts[..|ts| - 1]) + if Sends(SendAll(m, ts[..|ts| - 1]), ts[|ts| - 1]) then 1 else 0
  }

  // ---- Agreement ----

  /** Consecutive nonces without gap or repeat, and an active cache that agrees with the chain. */
  predicate Agrees(m: Manager) {
    && (forall i :: 0 <= i < |m.taken| ==> m.taken[i] == m.first + i)
    && (m.base.Base? ==> m.base.nonce + m.delta == Pending(m))
    && (!m.base.Base? ==> m.delta == 0)
  }

  lemma SendKeepsAgreement(m: Manager, t: Attempt)
    requires Agrees(m)
    ensures Agrees(Send(m, t))
    ensures Send(m, t).taken == if Sends(m, t) then m.taken + [Pending(m)] else m.taken
  {
  }

  /** Over any sequence of attempts - failing reads, failing sends and ambiguous ones included - the nonces
      taken are consecutive, one for each send that reached the mempool, and at rest an active cache equals
      the chain's pending count. */
  lemma {:induction false} NonceAgreement(m: Manager, ts: seq<Attempt>)
    requires Agrees(m)
    ensures var t := SendAll(m, ts);
            Agrees(t) && t.first == m.first && m.taken <= t.taken && |t.taken| == |m.taken| + CountSent(m, ts)
  {
    if ts != [] {
      NonceAgreement(m, ts[..|ts| - 1]);
      SendKeepsAgreement(SendAll(m, ts[..|ts| - 1]), ts[|ts| - 1]);
    }
  }

  lemma {:induction false} BrokenStays(m: Manager, ts: seq<Attempt>)
    requires m.base.Broken?
    ensures SendAll(m, ts) == m
  {
    if ts != [] { BrokenStays(m, ts[..|ts| - 1]); }
  }

  /** A send can still reach the mempool exactly while the cache keeps no rejected answer: the read of the nonce
      lies outside the `try`, so nothing resets such a cache. */
  lemma StuckIff(m: Manager)
    ensures (exists ts :: |SendAll(m, ts).taken| > |m.taken|) <==> !m.base.Broken?
  {
    if m.base.Broken? {
      forall ts ensures SendAll(m, ts) == m { BrokenStays(m, ts); }
    } else {
      var ts := [Attempt(Answers, Accepted)];
      assert ts[..0] == [];
      assert SendAll(m, ts) == Send(m, ts[0]);
      assert |SendAll(m, ts).taken| > |m.taken|;
    }
  }

  // ---- When the chain is asked ----

  predicate Succeeds(m: Manager, t: Attempt) {
    NonceOf(Fetch(m, t.answer)).Some? && t.outcome.Accepted?
  }

  /** How often the chain is asked for the pending count. */
  function Reads(m: Manager, ts: seq<Attempt>): nat {
    if ts == [] then 0
    else Reads(m, ts[..|ts| - 1]) + if SendAll(m, ts[..|ts| - 1]).base.Empty? then 1 else 0
  }

  /** How many attempts start fresh: the first one, and each that follows one that did not succeed. */
  function Restarts(m: Manager, ts: seq<Attempt>): nat {
    if ts == [] then 0
    else
      var n := |ts| - 1;
      Restarts(m, ts[..n]) + if n == 0 || !Succeeds(SendAll(m, ts[..n - 1]), ts[n - 1]) then 1 else 0
  }

  predicate NothingKept(ts: seq<Attempt>) {
    forall i :: 0 <= i < |ts| && ts[i].answer.Rejects? ==> !ts[i].answer.kept
  }

  lemma {:induction false} ActiveAfterSuccess(m: Manager, ts: seq<Attempt>)
    requires m.base.Empty? && NothingKept(ts)
    ensures var t := SendAll(m, ts);
            !t.base.Broken? && (t.base.Base? <==> |ts| > 0 && Succeeds(SendAll(m, ts[..|ts| - 1]), ts[|ts| - 1]))
  {
    if ts != [] { ActiveAfterSuccess(m, ts[..|ts| - 1]); }
  }

  /** The cache works: the chain is asked once at the start and once after every attempt that did not succeed,
      and not between two successful sends. */
  lemma {:induction false} ReadsAreRestarts(m: Manager, ts: seq<Attempt>)
    requires m.base.Empty? && NothingKept(ts)
    ensures Reads(m, ts) == Restarts(m, ts)
  {
    if ts != [] {
      var n := |ts| - 1;
      ReadsAreRestarts(m, ts[..n]);
      ActiveAfterSuccess(m, ts[..n]);
      if n > 0 { assert ts[..n][..n - 1] == ts[..n - 1]; }
    }
  }

  // ---- Overlapping sends ----

  /** Two sends that both read before either increments, both accepted. */
  function ReadRead(m: Manager): Manager
    requires !m.base.Broken?
  {
    var f := Fetch(m, Answers);
    Finish(Finish(Increment(Increment(f)), NonceOf(f).value, Accepted), NonceOf(f).value, Accepted)
  }

  /** Two sends of which the second reads after the first has incremented; the first ends with o, then the
      second is accepted. */
  function ReadAfterIncrement(m: Manager, o: Outcome): Manager
    requires !m.base.Broken?
  {
    var f := Increment(Fetch(m, Answers));
    Finish(Finish(Increment(f), NonceOf(Fetch(m, Answers)).value, o), NonceOf(f).value, Accepted)
  }

  /** The await between read and increment matters: two sends that overlap there use the same nonce twice. */
  lemma OverlapRepeatsNonce(m: Manager)
    requires Agrees(m) && !m.base.Broken?
    ensures ReadRead(m).taken == m.taken + [Pending(m), Pending(m)] && !Agrees(ReadRead(m))
  {
    var t := ReadRead(m);
    assert t.taken == m.taken + [Pending(m), Pending(m)];
    assert t.taken[|m.taken| + 1] != t.first + (|m.taken| + 1);
  }

  /** When the second send reads later, the two still agree exactly if the first one reaches the mempool;
      otherwise the second one's nonce leaves a gap. */
  lemma OverlapGapIff(m: Manager, o: Outcome)
    requires Agrees(m) && !m.base.Broken?
    ensures (forall i :: 0 <= i < |ReadAfterIncrement(m, o).taken| ==> ReadAfterIncrement(m, o).taken[i] == m.first + i) <==> Reaches(o)
    ensures !Reaches(o) ==> ReadAfterIncrement(m, o).taken == m.taken + [Pending(m) + 1]
  {
    var t := ReadAfterIncrement(m, o);
    if Reaches(o) {
      assert t.taken == m.taken + [Pending(m)] + [Pending(m) + 1];
    } else {
      assert t.taken == m.taken + [Pending(m) + 1];
      assert t.taken[|m.taken|] != m.first + |m.taken|;
    }
  }

  // ---- The class ----

  class SequentialNonceManager {
    var base: Cache
    var delta: nat

    // The account behind the signer.
    const first: nat
    var taken: seq<nat>

    function State(): Manager
      reads this
    {
      Manager(base, delta, first, taken)
    }

    constructor (first: nat)
      ensures State() == Manager(Empty, 0, first, []) && Agrees(State())
    {
      this.first := first;
      base, delta, taken := Empty, 0, [];
    }

    method GetNonce(answer: Answer) returns (nonce: Option<nat>)
      modifies this`base
      ensures State() == Fetch(old(State()), answer) && nonce == NonceOf(State())
    {
      if base.Empty? {
        if answer.Answers? {
          base := Base(first + |taken|);
        } else {
          if answer.kept { base := Broken; }
          return None;
        }
      }
      nonce := if base.Base? then Some(base.nonce + delta) else None;
    }

    method Reset()
      modifies this`base, this`delta
      ensures base == Empty && delta == 0
    {
      base, delta := Empty, 0;
    }

    /** `sendTransaction`; `t` is what the chain, the signer and the node will do. */
    method SendTransaction(t: Attempt) returns (sent: bool, nonce: Option<nat>)
      requires Agrees(State())
      modifies this
      ensures State() == Send(old(State()), t) && Agrees(State())
      ensures nonce.Some? <==> old(base).Base? || (old(base).Empty? && t.answer.Answers?)
      ensures nonce.Some? ==> nonce.value == Pending(old(State()))
      ensures sent <==> nonce.Some? && t.outcome.Accepted?
    {
      SendKeepsAgreement(State(), t);
      nonce := GetNonce(t.answer);
      if nonce.None? {
        return false, None;
      }
      delta := delta + 1;
      if Reaches(t.outcome) {
        taken := taken + [nonce.value];
      }
      sent := t.outcome.Accepted?;
      if !sent {
        Reset();
      }
    }
  }
}
