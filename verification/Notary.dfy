/** The on-chain registry: storage, event log, reverts, and what every run of it keeps. */
module NotaryContract {
  import opened Payloads

  const MAX_UINT64: nat := 0xFFFF_FFFF_FFFF_FFFF
  const TWO_TO_64: nat := 0x1_0000_0000_0000_0000
  const TWO_TO_192: nat := 0x1_0000_0000_0000_0000_0000_0000_0000_0000_0000_0000_0000_0000
  const MAX_UINT256: nat := 0xFFFF_FFFF_FFFF_FFFF_FFFF_FFFF_FFFF_FFFF_FFFF_FFFF_FFFF_FFFF_FFFF_FFFF_FFFF_FFFF

  type Address = nat
  type Hash = nat

  datatype Asset = Asset(contentHash: Hash, notarizedAt: nat, totalViews: nat)

  datatype Event =
    | ContractNotarized(contractId: Id, contractHash: Hash, at: nat)
    | AssetNotarized(assetId: Id, contentHash: Hash, timestamp: nat)
    | AssetViewsRecorded(asset: Id, period: Period, views: nat, newCumulative: nat)
    | BatchPublished(batchPeriod: Period, assetCount: nat)

  datatype Error =
    | NotAttester
    | AlreadyExists
    | UnknownAsset(unknown: Id)
    | EmptyHash
    | EmptyBatch
    | BadCalldata // an argument that does not fit uint64
    | Panic       // checked uint256 addition

  /** Contract storage with its event log. A missing key reads as the zero value. */
  datatype Storage = Storage(
    attester: Address,
    contracts: map<Id, Hash>,
    assets: map<Id, Asset>,
    log: seq<Event>)

  datatype Outcome = Done(storage: Storage) | Reverted(error: Error)

  const BLANK := Asset(0, 0, 0)

  function AssetAt(s: Storage, id: Id): Asset {
    if id in s.assets then s.assets[id] else BLANK
  }

  function ContractAt(s: Storage, id: Id): Hash {
    if id in s.contracts then s.contracts[id] else 0
  }

  function Total(s: Storage, id: Id): nat {
    AssetAt(s, id).totalViews
  }

  predicate Known(s: Storage, id: Id) {
    AssetAt(s, id).notarizedAt != 0
  }

  datatype Call =
    | NotarizeContract(contractId: Id, contractHash: Hash)
    | NotarizeAsset(asset: Id, hash: Hash)
    | PublishBatch(period: Period, updates: seq<Update>)

  function Notarize(s: Storage, id: Id, hash: Hash, timestamp: nat): Outcome {
    if hash == 0 then Reverted(EmptyHash)
    else if Known(s, id) then Reverted(AlreadyExists)
    else
      var at := timestamp % TWO_TO_64;
      Done(s.(assets := s.assets[id := Asset(hash, at, 0)], log := s.log + [AssetNotarized(id, hash, at)]))
  }

  function NotarizeAgreement(s: Storage, id: Id, hash: Hash, timestamp: nat): Outcome {
    if hash == 0 then Reverted(EmptyHash)
    else if ContractAt(s, id) != 0 then Reverted(AlreadyExists)
    else
      Done(s.(contracts := s.contracts[id := hash],
              log := s.log + [ContractNotarized(id, hash, timestamp % TWO_TO_64)]))
  }

  /** One turn of the `publishBatch` loop. */
  function RecordOne(s: Storage, period: Period, u: Update): Outcome {
    var a := AssetAt(s, u.asset);
    if a.notarizedAt == 0 then Reverted(UnknownAsset(u.asset))
    else if u.views > MAX_UINT64 then Reverted(BadCalldata)
    else if a.totalViews + u.views > MAX_UINT256 then Reverted(Panic)
    else
      var b := a.(totalViews := a.totalViews + u.views);
      Done(s.(assets := s.assets[u.asset := b],
              log := s.log + [AssetViewsRecorded(u.asset, period, u.views, b.totalViews)]))
  }

  /** The first |u| turns of the loop; the first turn that reverts decides. */
  function Record(s: Storage, period: Period, u: seq<Update>): Outcome {
    if u == [] then Done(s)
    else
      match Record(s, period, u[..|u| - 1])
      case Reverted(e) => Reverted(e)
      case Done(m) => RecordOne(m, period, u[|u| - 1])
  }

  function Publish(s: Storage, period: Period, u: seq<Update>): Outcome {
    if !(0 <= period <= MAX_UINT64) then Reverted(BadCalldata)
    else if u == [] then Reverted(EmptyBatch)
    else
      match Record(s, period, u)
      case Reverted(e) => Reverted(e)
      case Done(m) => Done(m.(log := m.log + [BatchPublished(period, |u|)]))
  }

  function Execute(s: Storage, sender: Address, call: Call, timestamp: nat): Outcome {
    if sender != s.attester then Reverted(NotAttester)
    else
      match call
      case NotarizeContract(id, hash) => NotarizeAgreement(s, id, hash, timestamp)
      case NotarizeAsset(id, hash) => Notarize(s, id, hash, timestamp)
      case PublishBatch(period, u) => Publish(s, period, u)
  }

  /** The contract itself: state variables changed in place, and put back when the call reverts. */
  class Notary {
    var attester: Address
    var contracts: map<Id, Hash>
    var assets: map<Id, Asset>
    var log: seq<Event>

    ghost function State(): Storage
      reads this
    {
      Storage(attester, contracts, assets, log)
    }

    constructor (initialAttester: Address)
      requires initialAttester != 0
      ensures State() == Storage(initialAttester, map[], map[], [])
    {
      attester := initialAttester;
      contracts, assets, log := map[], map[], [];
    }

    method NotarizeAsset(sender: Address, id: Id, hash: Hash, timestamp: nat) returns (outcome: Outcome)
      modifies this
      ensures outcome == Execute(old(State()), sender, Call.NotarizeAsset(id, hash), timestamp)
      ensures State() == if outcome.Done? then outcome.storage else old(State())
      ensures outcome.Done? <==> sender == attester && hash != 0 && !Known(old(State()), id)
      ensures outcome.Done? ==>
                && assets == old(assets)[id := Asset(hash, timestamp % TWO_TO_64, 0)]
                && log == old(log) + [AssetNotarized(id, hash, timestamp % TWO_TO_64)]
      ensures sender != attester ==> outcome == Reverted(NotAttester)
    {
      if sender != attester { return Reverted(NotAttester); }
      if hash == 0 { return Reverted(EmptyHash); }
      var a := if id in assets then assets[id] else BLANK;
      if a.notarizedAt != 0 { return Reverted(AlreadyExists); }
      assets := assets[id := Asset(hash, timestamp % TWO_TO_64, 0)];
      log := log + [AssetNotarized(id, hash, timestamp % TWO_TO_64)];
      return Done(Storage(attester, contracts, assets, log));
    }

    method NotarizeContract(sender: Address, id: Id, hash: Hash, timestamp: nat) returns (outcome: Outcome)
      modifies this
      ensures outcome == Execute(old(State()), sender, Call.NotarizeContract(id, hash), timestamp)
      ensures State() == if outcome.Done? then outcome.storage else old(State())
      ensures outcome.Done? <==> sender == attester && hash != 0 && ContractAt(old(State()), id) == 0
      ensures outcome.Done? ==>
                && contracts == old(contracts)[id := hash]
                && log == old(log) + [ContractNotarized(id, hash, timestamp % TWO_TO_64)]
      ensures sender != attester ==> outcome == Reverted(NotAttester)
    {
      if sender != attester { return Reverted(NotAttester); }
      if hash == 0 { return Reverted(EmptyHash); }
      if id in contracts && contracts[id] != 0 { return Reverted(AlreadyExists); }
      contracts := contracts[id := hash];
      log := log + [ContractNotarized(id, hash, timestamp % TWO_TO_64)];
      return Done(Storage(attester, contracts, assets, log));
    }

    /** Entries are written as the loop goes; a revert, on whichever entry, puts storage and log back. */
    method PublishBatch(sender: Address, period: Period, updates: seq<Update>) returns (outcome: Outcome)
      modifies this
      ensures outcome == Execute(old(State()), sender, Call.PublishBatch(period, updates), 0)
      ensures State() == if outcome.Done? then outcome.storage else old(State())
      ensures sender != attester ==> outcome == Reverted(NotAttester)
      ensures outcome.Done? <==> sender == attester && 0 <= period <= MAX_UINT64 && updates != [] && Acceptable(old(State()), updates)
    {
      AcceptedIff(State(), sender, period, updates);
      hide Acceptable;
      if sender != attester { return Reverted(NotAttester); }
      if !(0 <= period <= MAX_UINT64) { return Reverted(BadCalldata); }
      if updates == [] { return Reverted(EmptyBatch); }
      var assets0, log0 := assets, log;
      var failure: seq<Error> := [];
      var i := 0;
      while i < |updates| && failure == []
        invariant 0 <= i <= |updates|
        invariant attester == old(attester) && contracts == old(contracts)
        invariant failure == [] ==> Record(old(State()), period, updates[..i]) == Done(State())
        invariant failure != [] ==> Record(old(State()), period, updates) == Reverted(failure[0])
        decreases |updates| - i, |failure| == 0
      {
        var u := updates[i];
        var a := if u.asset in assets then assets[u.asset] else BLANK;
        ghost var m := State();
        assert updates[..i + 1][..i] == updates[..i];
        assert Record(old(State()), period, updates[..i + 1]) == RecordOne(m, period, u);
        if a.notarizedAt == 0 {
          failure := [UnknownAsset(u.asset)];
        } else if u.views > MAX_UINT64 {
          failure := [BadCalldata];
        } else if a.totalViews + u.views > MAX_UINT256 {
          failure := [Panic];
        } else {
          a := a.(totalViews := a.totalViews + u.views);
          assets := assets[u.asset := a];
          log := log + [AssetViewsRecorded(u.asset, period, u.views, a.totalViews)];
        }
        if failure == [] {
          assert RecordOne(m, period, u) == Done(State());
        } else {
          assert RecordOne(m, period, u) == Reverted(failure[0]);
          RevertSticks(old(State()), period, updates[..i + 1], updates[i + 1..]);
          assert updates == updates[..i + 1] + updates[i + 1..];
        }
        i := i + 1;
      }
      if failure != [] {
        assets, log := assets0, log0;
        return Reverted(failure[0]);
      }
      assert updates[..i] == updates;
      log := log + [BatchPublished(period, |updates|)];
      return Done(Storage(attester, contracts, assets, log));
    }
  }

  // ---- What publishing means ----

  lemma {:induction false} RevertSticks(s: Storage, period: Period, u: seq<Update>, v: seq<Update>)
    requires Record(s, period, u).Reverted?
    ensures Record(s, period, u + v) == Record(s, period, u)
  {
    if v == [] {
      assert u + v == u;
    } else {
      assert (u + v)[..|u + v| - 1] == u + v[..|v| - 1];
      RevertSticks(s, period, u, v[..|v| - 1]);
    }
  }

  /** When a batch is accepted, said without the loop: every asset known, every count a uint64, and no
      total pushed past uint256 by the batch as a whole. */
  predicate Acceptable(s: Storage, u: seq<Update>) {
    forall i :: 0 <= i < |u| ==>
      && Known(s, u[i].asset)
      && u[i].views <= MAX_UINT64
      && Total(s, u[i].asset) + CountOf(u, u[i].asset) <= MAX_UINT256
  }

  /** The log entries of a batch, with running totals. */
  function Entries(s: Storage, period: Period, u: seq<Update>): seq<Event> {
    if u == [] then []
    else
      var x := u[|u| - 1];
      Entries(s, period, u[..|u| - 1])
      + [AssetViewsRecorded(x.asset, period, x.views, Total(s, x.asset) + CountOf(u, x.asset))]
  }

  /** Entry i carries update i and the total after the first i + 1 updates, also when an asset repeats. */
  lemma {:induction false} EntryAt(s: Storage, period: Period, u: seq<Update>, i: nat)
    ensures |Entries(s, period, u)| == |u|
    ensures i < |u| ==>
              Entries(s, period, u)[i]
              == AssetViewsRecorded(u[i].asset, period, u[i].views, Total(s, u[i].asset) + CountOf(u[..i + 1], u[i].asset))
  {
    if u != [] {
      EntryAt(s, period, u[..|u| - 1], i);
      if i < |u| - 1 {
        assert u[..|u| - 1][..i + 1] == u[..i + 1];
      } else if i == |u| - 1 {
        assert u[..i + 1] == u;
      }
    }
  }

  /** A batch is acceptable when its front is and its last entry fits on top of it. */
  lemma AcceptableSnoc(s: Storage, u: seq<Update>)
    requires u != []
    ensures Acceptable(s, u)
       <==> Acceptable(s, u[..|u| - 1])
            && Known(s, u[|u| - 1].asset)
            && u[|u| - 1].views <= MAX_UINT64
            && Total(s, u[|u| - 1].asset) + CountOf(u, u[|u| - 1].asset) <= MAX_UINT256
  {
    var n := |u| - 1;
    var v, x := u[..n], u[n];
    assert forall i :: 0 <= i < n ==> v[i] == u[i];
    forall a ensures CountOf(u, a) == CountOf(v, a) + Hit(x, a) {}
  }

  /** The loop accepts exactly the acceptable batches, adds to every total exactly the batch's count
      for it, changes nothing else, and logs one entry per update in order. */
  lemma {:induction false} RecordMeaning(s: Storage, period: Period, u: seq<Update>)
    ensures Record(s, period, u).Done? <==> Acceptable(s, u)
    ensures Record(s, period, u).Done? ==>
              var t := Record(s, period, u).storage;
              && t.attester == s.attester && t.contracts == s.contracts
              && t.log == s.log + Entries(s, period, u)
              && forall a :: AssetAt(t, a) == AssetAt(s, a).(totalViews := Total(s, a) + CountOf(u, a))
  {
    if u == [] {
      assert s.log + [] == s.log;
    } else {
      var n := |u| - 1;
      var v, x := u[..n], u[n];
      RecordMeaning(s, period, v);
      AcceptableSnoc(s, u);
      hide Acceptable;
      forall a ensures CountOf(u, a) == CountOf(v, a) + Hit(x, a) {}
      if Record(s, period, v).Done? {
        var m := Record(s, period, v).storage;
        assert AssetAt(m, x.asset).totalViews == Total(s, x.asset) + CountOf(v, x.asset);
        if Record(s, period, u).Done? {
          var t := Record(s, period, u).storage;
          assert t.log == m.log + [AssetViewsRecorded(x.asset, period, x.views, Total(s, x.asset) + CountOf(u, x.asset))];
        }
      }
    }
  }

  /** `publishBatch`, outside in. */
  lemma PublishMeaning(s: Storage, period: Period, u: seq<Update>)
    ensures Publish(s, period, u).Done? <==> 0 <= period <= MAX_UINT64 && u != [] && Acceptable(s, u)
    ensures Publish(s, period, u).Done? ==>
              var t := Publish(s, period, u).storage;
              && t.attester == s.attester && t.contracts == s.contracts
              && t.log == s.log + Entries(s, period, u) + [BatchPublished(period, |u|)]
              && forall a :: AssetAt(t, a) == AssetAt(s, a).(totalViews := Total(s, a) + CountOf(u, a))
  {
    RecordMeaning(s, period, u);
  }

  /** Why a batch is refused: the first entry that no longer fits on top of those before it decides, and an
      unknown asset is named in the error. */
  lemma RefusedAt(s: Storage, period: Period, u: seq<Update>, i: nat)
    requires 0 <= period <= MAX_UINT64 && i < |u|
    requires Acceptable(s, u[..i]) && !Acceptable(s, u[..i + 1])
    ensures Publish(s, period, u)
         == Reverted(if !Known(s, u[i].asset) then UnknownAsset(u[i].asset)
                     else if u[i].views > MAX_UINT64 then BadCalldata
                     else Panic)
  {
    var v := u[..i + 1];
    assert v[..i] == u[..i] && u == v + u[i + 1..];
    RecordMeaning(s, period, u[..i]);
    RecordMeaning(s, period, v);
    hide Acceptable;
    RevertSticks(s, period, v, u[i + 1..]);
    var m := Record(s, period, u[..i]).storage;
    assert AssetAt(m, u[i].asset).notarizedAt == AssetAt(s, u[i].asset).notarizedAt;
  }

  /** Every refused batch has such an entry, unless it is empty. */
  lemma {:induction false} RefusedSomewhere(s: Storage, u: seq<Update>) returns (i: nat)
    requires !Acceptable(s, u)
    ensures i < |u| && Acceptable(s, u[..i]) && !Acceptable(s, u[..i + 1])
  {
    i := |u| - 1;
    assert u[..i + 1] == u;
    if !Acceptable(s, u[..i]) {
      i := RefusedSomewhere(s, u[..i]);
      assert u[..|u| - 1][..i] == u[..i] && u[..|u| - 1][..i + 1] == u[..i + 1];
    }
  }

  lemma AcceptedIff(s: Storage, sender: Address, period: Period, u: seq<Update>)
    ensures Execute(s, sender, PublishBatch(period, u), 0).Done?
       <==> sender == s.attester && 0 <= period <= MAX_UINT64 && u != [] && Acceptable(s, u)
  {
    PublishMeaning(s, period, u);
  }

  // ---- Chunking preserves meaning ----

  /** Publishing several batches, one transaction each, all of which must succeed. */
  function PublishAll(s: Storage, period: Period, ss: seq<seq<Update>>): Outcome {
    if ss == [] then Done(s)
    else
      match PublishAll(s, period, ss[..|ss| - 1])
      case Reverted(e) => Reverted(e)
      case Done(m) => Publish(m, period, ss[|ss| - 1])
  }

  /** A sequence of slices is accepted exactly when none is empty and their concatenation is acceptable
      (given a uint64 period); the totals move by the counts of the concatenation. */
  lemma {:induction false} PublishAllMeaning(s: Storage, period: Period, ss: seq<seq<Update>>)
    requires 0 <= period <= MAX_UINT64
    requires forall j :: 0 <= j < |ss| ==> ss[j] != []
    ensures PublishAll(s, period, ss).Done? <==> Acceptable(s, Flatten(ss))
    ensures PublishAll(s, period, ss).Done? ==>
              forall a :: AssetAt(PublishAll(s, period, ss).storage, a)
                       == AssetAt(s, a).(totalViews := Total(s, a) + CountOf(Flatten(ss), a))
  {
    if ss != [] {
      var n := |ss| - 1;
      var front, last := ss[..n], ss[n];
      PublishAllMeaning(s, period, front);
      FlattenSnoc(ss);
      var u := Flatten(front);
      if Acceptable(s, u + last) { AcceptableSplit(s, u, last); }
      if PublishAll(s, period, front).Done? {
        var m := PublishAll(s, period, front).storage;
        PublishMeaning(m, period, last);
        forall a ensures CountOf(u + last, a) == CountOf(u, a) + CountOf(last, a) { CountOfConcat(u, last, a); }
        AcceptableAfter(s, m, u, last);
      }
    }
  }

  lemma AcceptableSplit(s: Storage, u: seq<Update>, v: seq<Update>)
    requires Acceptable(s, u + v)
    ensures Acceptable(s, u)
  {
    forall i | 0 <= i < |u|
      ensures Known(s, u[i].asset) && u[i].views <= MAX_UINT64 && Total(s, u[i].asset) + CountOf(u, u[i].asset) <= MAX_UINT256
    {
      assert (u + v)[i] == u[i];
      CountOfConcat(u, v, u[i].asset);
    }
  }

  lemma AcceptableAfter(s: Storage, m: Storage, u: seq<Update>, v: seq<Update>)
    requires Acceptable(s, u)
    requires forall a :: AssetAt(m, a) == AssetAt(s, a).(totalViews := Total(s, a) + CountOf(u, a))
    ensures Acceptable(m, v) <==> Acceptable(s, u + v)
  {
    var w := u + v;
    forall a ensures CountOf(w, a) == CountOf(u, a) + CountOf(v, a) { CountOfConcat(u, v, a); }
    if Acceptable(m, v) {
      forall i | 0 <= i < |w|
        ensures Known(s, w[i].asset) && w[i].views <= MAX_UINT64 && Total(s, w[i].asset) + CountOf(w, w[i].asset) <= MAX_UINT256
      {
        if j: nat :| j < |v| && v[j].asset == w[i].asset {
          assert Total(m, v[j].asset) + CountOf(v, v[j].asset) <= MAX_UINT256;
        } else {
          CountOfMember(v, w[i].asset);
        }
        if i >= |u| { assert w[i] == v[i - |u|]; }
      }
    }
    if Acceptable(s, w) {
      forall i | 0 <= i < |v|
        ensures Known(m, v[i].asset) && v[i].views <= MAX_UINT64 && Total(m, v[i].asset) + CountOf(v, v[i].asset) <= MAX_UINT256
      {
        assert w[|u| + i] == v[i];
      }
    }
  }

  function Without<T>(tt: seq<T>, j: nat): seq<T>
    requires j < |tt|
  {
    tt[..j] + tt[j + 1..]
  }

  lemma WithoutMultiset<T>(tt: seq<T>, j: nat)
    requires j < |tt|
    ensures multiset(Without(tt, j)) == multiset(tt) - multiset{tt[j]}
  {
    assert tt == tt[..j] + [tt[j]] + tt[j + 1..];
  }

  lemma FlattenCons(x: seq<Update>, xs: seq<seq<Update>>)
    ensures Flatten([x] + xs) == x + Flatten(xs)
  {
    assert ([x] + xs)[1..] == xs;
  }

  lemma SplitAround<T>(tt: seq<T>, j: nat)
    requires j < |tt|
    ensures tt == tt[..j] + ([tt[j]] + tt[j + 1..])
  {
    var w := tt[..j] + ([tt[j]] + tt[j + 1..]);
    assert |w| == |tt|;
    forall i | 0 <= i < |tt| ensures w[i] == tt[i] {}
  }

  /** Taking one part out of the middle. */
  lemma FlattenAround(tt: seq<seq<Update>>, j: nat)
    requires j < |tt|
    ensures Flatten(tt) == Flatten(tt[..j]) + (tt[j] + Flatten(tt[j + 1..]))
    ensures Flatten(Without(tt, j)) == Flatten(tt[..j]) + Flatten(tt[j + 1..])
  {
    hide Flatten;
    var front, back := tt[..j], tt[j + 1..];
    SplitAround(tt, j);
    FlattenConcat(front, [tt[j]] + back);
    FlattenCons(tt[j], back);
    FlattenConcat(front, back);
  }

  lemma MiddleMultiset(p: seq<Update>, q: seq<Update>, r: seq<Update>)
    ensures multiset(p + (q + r)) == multiset(q) + multiset(p + r)
  {
  }

  lemma MiddleCount(p: seq<Update>, q: seq<Update>, r: seq<Update>, a: Id)
    ensures CountOf(p + (q + r), a) == CountOf(q, a) + CountOf(p + r, a)
  {
    CountOfConcat(p, q + r, a);
    CountOfConcat(q, r, a);
    CountOfConcat(p, r, a);
  }

  lemma FlattenWithout(tt: seq<seq<Update>>, j: nat)
    requires j < |tt|
    ensures multiset(Flatten(tt)) == multiset(tt[j]) + multiset(Flatten(Without(tt, j)))
    ensures forall a :: CountOf(Flatten(tt), a) == CountOf(tt[j], a) + CountOf(Flatten(Without(tt, j)), a)
  {
    FlattenAround(tt, j);
    var p, q, r := Flatten(tt[..j]), tt[j], Flatten(tt[j + 1..]);
    hide Flatten, Without, CountOf;
    MiddleMultiset(p, q, r);
    forall a ensures CountOf(Flatten(tt), a) == CountOf(q, a) + CountOf(Flatten(Without(tt, j)), a) {
      MiddleCount(p, q, r, a);
    }
  }

  /** Counts in a concatenation do not depend on the order of its parts. */
  lemma {:induction false} FlattenPermuted(ss: seq<seq<Update>>, tt: seq<seq<Update>>)
    requires multiset(ss) == multiset(tt)
    ensures forall a :: CountOf(Flatten(ss), a) == CountOf(Flatten(tt), a)
    ensures multiset(Flatten(ss)) == multiset(Flatten(tt))
    decreases |ss|
  {
    if ss == [] {
      assert |tt| == |multiset(tt)| == 0;
    } else {
      assert ss[0] in multiset(tt);
      var j :| 0 <= j < |tt| && tt[j] == ss[0];
      WithoutMultiset(ss, 0);
      WithoutMultiset(tt, j);
      FlattenPermuted(Without(ss, 0), Without(tt, j));
      FlattenWithout(ss, 0);
      FlattenWithout(tt, j);
    }
  }

  lemma {:induction false} FlattenConcat(ss: seq<seq<Update>>, tt: seq<seq<Update>>)
    ensures Flatten(ss + tt) == Flatten(ss) + Flatten(tt)
  {
    if ss == [] {
      assert ss + tt == tt;
    } else {
      FlattenConcat(ss[1..], tt);
      assert (ss + tt)[1..] == ss[1..] + tt && (ss + tt)[0] == ss[0];
    }
  }

  lemma AcceptablePermuted(s: Storage, u: seq<Update>, v: seq<Update>)
    requires multiset(u) == multiset(v)
    requires forall a :: CountOf(u, a) == CountOf(v, a)
    requires Acceptable(s, u)
    ensures Acceptable(s, v)
  {
    forall i | 0 <= i < |v|
      ensures Known(s, v[i].asset) && v[i].views <= MAX_UINT64 && Total(s, v[i].asset) + CountOf(v, v[i].asset) <= MAX_UINT256
    {
      assert v[i] in multiset(u);
      var j :| 0 <= j < |u| && u[j] == v[i];
    }
  }

  /** Cutting a non-empty batch into chunks of any size and publishing them in any order succeeds
      exactly when the single transaction does, and then leaves the same assets. An empty batch is the
      exception: alone it reverts, while it has no chunks to fail. */
  lemma ChunkingPreservesMeaning(s: Storage, period: Period, u: seq<Update>, k: nat, order: seq<seq<Update>>)
    requires k > 0 && multiset(order) == multiset(Slices(u, k))
    requires 0 <= period <= MAX_UINT64
    ensures u != [] ==> (Publish(s, period, u).Done? <==> PublishAll(s, period, order).Done?)
    ensures u == [] ==> Publish(s, period, u).Reverted? && PublishAll(s, period, order) == Done(s)
    ensures Publish(s, period, u).Done? ==>
              forall a :: AssetAt(Publish(s, period, u).storage, a) == AssetAt(PublishAll(s, period, order).storage, a)
  {
    SlicesFacts(u, k);
    FlattenPermuted(order, Slices(u, k));
    if u == [] {
      assert |order| == |multiset(order)| == 0;
    } else {
      forall j | 0 <= j < |order| ensures order[j] != [] {
        assert order[j] in multiset(Slices(u, k));
        var i :| 0 <= i < |Slices(u, k)| && Slices(u, k)[i] == order[j];
      }
      PublishMeaning(s, period, u);
      PublishAllMeaning(s, period, order);
      if Acceptable(s, u) { AcceptablePermuted(s, u, Flatten(order)); }
      if Acceptable(s, Flatten(order)) { AcceptablePermuted(s, Flatten(order), u); }
    }
  }

  /** The asset counts announced for a period. */
  function Announced(log: seq<Event>, period: Period): nat {
    if log == [] then 0
    else
      Announced(log[..|log| - 1], period)
      + match log[|log| - 1]
        case BatchPublished(p, n) => (if p == period then n else 0)
        case _ => 0
  }

  lemma {:induction false} AnnouncedConcat(x: seq<Event>, y: seq<Event>, period: Period)
    ensures Announced(x + y, period) == Announced(x, period) + Announced(y, period)
  {
    if y == [] {
      assert x + y == x;
    } else {
      assert (x + y)[..|x + y| - 1] == x + y[..|y| - 1];
      AnnouncedConcat(x, y[..|y| - 1], period);
    }
  }

  lemma EntriesQuiet(s: Storage, period: Period, u: seq<Update>)
    ensures forall i :: 0 <= i < |Entries(s, period, u)| ==> Entries(s, period, u)[i].AssetViewsRecorded?
  {
    forall i | 0 <= i < |Entries(s, period, u)| ensures Entries(s, period, u)[i].AssetViewsRecorded? {
      EntryAt(s, period, u, i);
    }
  }

  lemma {:induction false} NothingAnnounced(x: seq<Event>, period: Period)
    requires forall i :: 0 <= i < |x| ==> x[i].AssetViewsRecorded?
    ensures Announced(x, period) == 0
  {
    if x != [] { NothingAnnounced(x[..|x| - 1], period); }
  }

  /** The asset counts in the `BatchPublished` events of the chunks add up to the size of the batch. */
  lemma {:induction false} AnnouncedCountsAddUp(s: Storage, period: Period, ss: seq<seq<Update>>)
    requires PublishAll(s, period, ss).Done?
    ensures Announced(PublishAll(s, period, ss).storage.log, period) == Announced(s.log, period) + |Flatten(ss)|
  {
    if ss != [] {
      var n := |ss| - 1;
      AnnouncedCountsAddUp(s, period, ss[..n]);
      FlattenSnoc(ss);
      var m := PublishAll(s, period, ss[..n]).storage;
      PublishMeaning(m, period, ss[n]);
      var e := Entries(m, period, ss[n]);
      EntriesQuiet(m, period, ss[n]);
      NothingAnnounced(e, period);
      AnnouncedConcat(m.log, e, period);
      AnnouncedConcat(m.log + e, [BatchPublished(period, |ss[n]|)], period);
      assert [BatchPublished(period, |ss[n]|)][..0] == [];
    }
  }

  // ---- Runs of the contract ----

  datatype Transaction = Transaction(sender: Address, call: Call, timestamp: nat)

  function Run(s: Storage, txs: seq<Transaction>): Storage {
    if txs == [] then s
    else
      var m := Run(s, txs[..|txs| - 1]);
      var tx := txs[|txs| - 1];
      match Execute(m, tx.sender, tx.call, tx.timestamp)
      case Reverted(_) => m
      case Done(t) => t
  }

  function Deployed(attester: Address): Storage { Storage(attester, map[], map[], []) }

  // ---- Who may call, and what a notarisation leaves ----

  lemma {:induction false} AttesterStays(attester: Address, txs: seq<Transaction>)
    ensures Run(Deployed(attester), txs).attester == attester
  {
    if txs != [] {
      var n := |txs| - 1;
      AttesterStays(attester, txs[..n]);
      var m := Run(Deployed(attester), txs[..n]);
      if Execute(m, txs[n].sender, txs[n].call, txs[n].timestamp).Done? { ExecuteKeepsAttester(m, txs[n]); }
    }
  }

  lemma ExecuteKeepsAttester(s: Storage, tx: Transaction)
    requires Execute(s, tx.sender, tx.call, tx.timestamp).Done?
    ensures Execute(s, tx.sender, tx.call, tx.timestamp).storage.attester == s.attester
  {
    if tx.call.PublishBatch? { PublishMeaning(s, tx.call.period, tx.call.updates); }
  }

  /** After any history, a call of anyone but the attester reverts, whatever it asks for. */
  lemma ForeignCallReverts(attester: Address, txs: seq<Transaction>, sender: Address, call: Call, timestamp: nat)
    requires sender != attester
    ensures Execute(Run(Deployed(attester), txs), sender, call, timestamp) == Reverted(NotAttester)
  {
    AttesterStays(attester, txs);
  }

  function SentBy(txs: seq<Transaction>, sender: Address): seq<Transaction> {
    if txs == [] then []
    else SentBy(txs[..|txs| - 1], sender) + if txs[|txs| - 1].sender == sender then [txs[|txs| - 1]] else []
  }

  /** Only the attester matters: the contract is where it would be if nobody else had ever called it. */
  lemma {:induction false} ForeignCallsChangeNothing(attester: Address, txs: seq<Transaction>)
    ensures Run(Deployed(attester), SentBy(txs, attester)) == Run(Deployed(attester), txs)
  {
    if txs != [] {
      var n := |txs| - 1;
      var front, tx := txs[..n], txs[n];
      ForeignCallsChangeNothing(attester, front);
      hide Execute;
      if tx.sender == attester {
        var own := SentBy(front, attester);
        assert (own + [tx])[..|own|] == own;
      } else {
        ForeignCallReverts(attester, front, tx.sender, tx.call, tx.timestamp);
        assert SentBy(txs, attester) == SentBy(front, attester);
      }
    }
  }

  /** The transaction notarises the asset: sent by the attester, with a hash, at a time that does not truncate
      to zero in 64 bits. */
  predicate Registers(attester: Address, tx: Transaction, id: Id) {
    && tx.sender == attester && tx.call.NotarizeAsset? && tx.call.asset == id
    && tx.call.hash != 0 && tx.timestamp % TWO_TO_64 != 0
  }

  /** An asset is registered exactly when some transaction of the history has notarised it. */
  lemma {:induction false} RegisteredIff(attester: Address, txs: seq<Transaction>, id: Id)
    ensures Known(Run(Deployed(attester), txs), id) <==> exists i :: 0 <= i < |txs| && Registers(attester, txs[i], id)
  {
    if txs != [] {
      var n := |txs| - 1;
      var m := Run(Deployed(attester), txs[..n]);
      RegisteredIff(attester, txs[..n], id);
      AttesterStays(attester, txs[..n]);
      StepRegisters(m, txs[n], id);
      hide Execute, Known, Registers;
      if i: nat :| i < n && Registers(attester, txs[..n][i], id) { assert Registers(attester, txs[i], id); }
      if i: nat :| i <= n && Registers(attester, txs[i], id) {
        if i < n { assert Registers(attester, txs[..n][i], id); }
      }
    }
  }

  lemma StepRegisters(m: Storage, tx: Transaction, id: Id)
    ensures var t := Execute(m, tx.sender, tx.call, tx.timestamp);
            && (Known(m, id) ==> t.Done? ==> AssetAt(t.storage, id).(totalViews := 0) == AssetAt(m, id).(totalViews := 0))
            && (!Known(m, id) && Registers(m.attester, tx, id) ==>
                  t.Done? && AssetAt(t.storage, id) == Asset(tx.call.hash, tx.timestamp % TWO_TO_64, 0))
            && (!Known(m, id) && !Registers(m.attester, tx, id) ==> t.Done? ==> !Known(t.storage, id))
  {
    if tx.call.PublishBatch? { PublishMeaning(m, tx.call.period, tx.call.updates); }
  }

  /** The first one stands: in every history the stored hash and time of an asset are those of the first
      transaction that notarised it. */
  lemma {:induction false} FirstNotarisationStands(attester: Address, txs: seq<Transaction>, id: Id, i: nat)
    requires i < |txs| && Registers(attester, txs[i], id)
    requires forall j :: 0 <= j < i ==> !Registers(attester, txs[j], id)
    ensures var a := AssetAt(Run(Deployed(attester), txs), id);
            a.contentHash == txs[i].call.hash && a.notarizedAt == txs[i].timestamp % TWO_TO_64
  {
    var n := |txs| - 1;
    var m := Run(Deployed(attester), txs[..n]);
    AttesterStays(attester, txs[..n]);
    RegisteredIff(attester, txs[..n], id);
    StepRegisters(m, txs[n], id);
    hide Execute;
    if i < n {
      FirstNotarisationStands(attester, txs[..n], id, i);
      assert Registers(attester, txs[..n][i], id);
    }
  }

  predicate Agreed(attester: Address, tx: Transaction, id: Id) {
    tx.sender == attester && tx.call.NotarizeContract? && tx.call.contractId == id && tx.call.contractHash != 0
  }

  lemma StepAgrees(m: Storage, tx: Transaction, id: Id)
    ensures var t := Execute(m, tx.sender, tx.call, tx.timestamp);
            && (t.Done? && (ContractAt(m, id) != 0 || !Agreed(m.attester, tx, id)) ==> ContractAt(t.storage, id) == ContractAt(m, id))
            && (ContractAt(m, id) == 0 && Agreed(m.attester, tx, id) ==> t.Done? && ContractAt(t.storage, id) == tx.call.contractHash)
  {
    if tx.call.PublishBatch? { PublishMeaning(m, tx.call.period, tx.call.updates); }
  }

  /** The same for contracts: nothing is stored before the first notarisation, and its hash after it. */
  lemma {:induction false} FirstAgreementStands(attester: Address, txs: seq<Transaction>, id: Id, i: nat)
    requires i <= |txs| && forall j :: 0 <= j < i ==> !Agreed(attester, txs[j], id)
    requires i < |txs| ==> Agreed(attester, txs[i], id)
    ensures ContractAt(Run(Deployed(attester), txs), id) == if i < |txs| then txs[i].call.contractHash else 0
  {
    if txs != [] {
      var n := |txs| - 1;
      AttesterStays(attester, txs[..n]);
      FirstAgreementStands(attester, txs[..n], id, if i < n then i else n);
      StepAgrees(Run(Deployed(attester), txs[..n]), txs[n], id);
      hide Execute;
    }
  }

  // ---- The log ----

  /** The hash and time in the last notarisation of the asset that a log records. */
  function LastNotarised(log: seq<Event>, a: Id): (Hash, nat) {
    if log == [] then (0, 0)
    else
      var e := log[|log| - 1];
      if e.AssetNotarized? && e.assetId == a then (e.contentHash, e.timestamp) else LastNotarised(log[..|log| - 1], a)
  }

  function LastAgreed(log: seq<Event>, id: Id): Hash {
    if log == [] then 0
    else
      var e := log[|log| - 1];
      if e.ContractNotarized? && e.contractId == id then e.contractHash else LastAgreed(log[..|log| - 1], id)
  }

  lemma {:induction false} SilentEntries(log: seq<Event>, x: seq<Event>, id: Id)
    requires forall i :: 0 <= i < |x| ==> !x[i].AssetNotarized? && !x[i].ContractNotarized?
    ensures LastNotarised(log + x, id) == LastNotarised(log, id) && LastAgreed(log + x, id) == LastAgreed(log, id)
  {
    if x == [] {
      assert log + x == log;
    } else {
      var n := |x| - 1;
      assert (log + x)[..|log| + n] == log + x[..n];
      SilentEntries(log, x[..n], id);
    }
  }

  lemma PublishIsSilent(s: Storage, period: Period, u: seq<Update>, id: Id)
    requires Publish(s, period, u).Done?
    ensures LastNotarised(Publish(s, period, u).storage.log, id) == LastNotarised(s.log, id)
    ensures LastAgreed(Publish(s, period, u).storage.log, id) == LastAgreed(s.log, id)
  {
    PublishMeaning(s, period, u);
    EntriesQuiet(s, period, u);
    var x := Entries(s, period, u) + [BatchPublished(period, |u|)];
    assert s.log + Entries(s, period, u) + [BatchPublished(period, |u|)] == s.log + x;
    SilentEntries(s.log, x, id);
  }

  lemma StepTellsRegistry(m: Storage, tx: Transaction, id: Id)
    requires Execute(m, tx.sender, tx.call, tx.timestamp).Done?
    requires (AssetAt(m, id).contentHash, AssetAt(m, id).notarizedAt) == LastNotarised(m.log, id)
    requires ContractAt(m, id) == LastAgreed(m.log, id)
    ensures var t := Execute(m, tx.sender, tx.call, tx.timestamp).storage;
            && (AssetAt(t, id).contentHash, AssetAt(t, id).notarizedAt) == LastNotarised(t.log, id)
            && ContractAt(t, id) == LastAgreed(t.log, id)
  {
    var t := Execute(m, tx.sender, tx.call, tx.timestamp).storage;
    if tx.call.PublishBatch? {
      PublishMeaning(m, tx.call.period, tx.call.updates);
      PublishIsSilent(m, tx.call.period, tx.call.updates, id);
    } else {
      assert t.log[..|t.log| - 1] == m.log;
    }
  }

  /** The log tells the registries too: in every history the stored hash and time of an asset are those of its
      last notarisation in the log, and the stored hash of a contract is that of its last one. */
  lemma {:induction false} LogTellsRegistry(attester: Address, txs: seq<Transaction>, id: Id)
    ensures var s := Run(Deployed(attester), txs);
            && (AssetAt(s, id).contentHash, AssetAt(s, id).notarizedAt) == LastNotarised(s.log, id)
            && ContractAt(s, id) == LastAgreed(s.log, id)
  {
    if txs != [] {
      var n := |txs| - 1;
      var m := Run(Deployed(attester), txs[..n]);
      LogTellsRegistry(attester, txs[..n], id);
      if Execute(m, txs[n].sender, txs[n].call, txs[n].timestamp).Done? { StepTellsRegistry(m, txs[n], id); }
    }
  }

  /** Views recorded for an asset by a log. */
  function Replayed(log: seq<Event>, a: Id): nat {
    if log == [] then 0 else Replayed(log[..|log| - 1], a) + EventViews(log[|log| - 1], a)
  }

  function EventViews(e: Event, a: Id): nat {
    if e.AssetViewsRecorded? && e.asset == a then e.views else 0
  }

  /** Number of updates a log records for an asset. */
  function Applied(log: seq<Event>, a: Id): nat {
    if log == [] then 0
    else Applied(log[..|log| - 1], a) + if log[|log| - 1].AssetViewsRecorded? && log[|log| - 1].asset == a then 1 else 0
  }

  /** What n updates can add up to. */
  function Ceiling(n: nat): nat { n * MAX_UINT64 }

  lemma CeilingStep(n: nat)
    ensures Ceiling(n + 1) == Ceiling(n) + MAX_UINT64
  {
  }

  lemma CeilingFits(n: nat)
    requires n < TWO_TO_192
    ensures Ceiling(n) + MAX_UINT64 <= MAX_UINT256
  {
  }

  /** The log tells the storage: totals are replayed sums, every logged cumulative is the prefix sum
      at its place, an asset never notarised has nothing, and totals respect the uint64 steps. */
  ghost predicate LogTellsStorage(s: Storage) {
    && (forall a :: Total(s, a) == Replayed(s.log, a))
    && (forall i :: 0 <= i < |s.log| && s.log[i].AssetViewsRecorded? ==>
          s.log[i].newCumulative == Replayed(s.log[..i + 1], s.log[i].asset))
    && (forall a :: !Known(s, a) ==> Total(s, a) == 0)
    && (forall a :: Total(s, a) <= Ceiling(Applied(s.log, a)))
  }

  lemma RecordOneKeeps(s: Storage, period: Period, u: Update)
    requires LogTellsStorage(s) && RecordOne(s, period, u).Done?
    ensures LogTellsStorage(RecordOne(s, period, u).storage)
  {
    hide Ceiling;
    var t := RecordOne(s, period, u).storage;
    var e := t.log[|s.log|];
    assert t.log[..|t.log| - 1] == s.log;
    forall a ensures Total(t, a) == Replayed(t.log, a) {
      assert Total(t, a) == Total(s, a) + EventViews(e, a);
    }
    forall a ensures !Known(t, a) ==> Total(t, a) == 0 {
      assert a != u.asset ==> Known(t, a) == Known(s, a) && Total(t, a) == Total(s, a);
    }
    forall a ensures Total(t, a) <= Ceiling(Applied(t.log, a)) {
      var n := Applied(s.log, a);
      assert Total(s, a) <= Ceiling(n);
      assert Applied(t.log, a) == if a == u.asset then n + 1 else n;
      CeilingStep(n);
    }
    forall i | 0 <= i < |t.log| && t.log[i].AssetViewsRecorded?
      ensures t.log[i].newCumulative == Replayed(t.log[..i + 1], t.log[i].asset)
    {
      if i < |s.log| {
        assert t.log[..i + 1] == s.log[..i + 1];
      } else {
        assert t.log[..i + 1] == t.log;
      }
    }
  }

  lemma {:induction false} RecordKeeps(s: Storage, period: Period, u: seq<Update>)
    requires LogTellsStorage(s) && Record(s, period, u).Done?
    ensures LogTellsStorage(Record(s, period, u).storage)
  {
    if u != [] {
      RecordKeeps(s, period, u[..|u| - 1]);
      RecordOneKeeps(Record(s, period, u[..|u| - 1]).storage, period, u[|u| - 1]);
    }
  }

  /** An entry that records no views, with totals untouched. */
  lemma QuietEntryKeeps(s: Storage, t: Storage, e: Event)
    requires LogTellsStorage(s) && !e.AssetViewsRecorded? && t.log == s.log + [e]
    requires forall a :: Total(t, a) == Total(s, a) && (Known(s, a) ==> Known(t, a))
    ensures LogTellsStorage(t)
  {
    hide Ceiling;
    assert t.log[..|t.log| - 1] == s.log;
    forall a ensures Replayed(t.log, a) == Replayed(s.log, a) && Applied(t.log, a) == Applied(s.log, a) {}
    forall i | 0 <= i < |t.log| && t.log[i].AssetViewsRecorded?
      ensures t.log[i].newCumulative == Replayed(t.log[..i + 1], t.log[i].asset)
    {
      assert t.log[..i + 1] == s.log[..i + 1];
    }
  }

  lemma ExecuteKeepsLog(s: Storage, sender: Address, call: Call, timestamp: nat)
    requires LogTellsStorage(s) && Execute(s, sender, call, timestamp).Done?
    ensures LogTellsStorage(Execute(s, sender, call, timestamp).storage)
  {
    var t := Execute(s, sender, call, timestamp).storage;
    match call
    case NotarizeContract(id, hash) =>
      QuietEntryKeeps(s, t, ContractNotarized(id, hash, timestamp % TWO_TO_64));
    case NotarizeAsset(id, hash) =>
      QuietEntryKeeps(s, t, AssetNotarized(id, hash, timestamp % TWO_TO_64));
    case PublishBatch(period, u) =>
      RecordKeeps(s, period, u);
      QuietEntryKeeps(Record(s, period, u).storage, t, BatchPublished(period, |u|));
  }

  /** In every run of the contract, reverting calls included, the log replays to the storage. */
  lemma {:induction false} LogReplaysToStorage(attester: Address, txs: seq<Transaction>)
    ensures LogTellsStorage(Run(Deployed(attester), txs))
  {
    if txs != [] {
      var front, tx := txs[..|txs| - 1], txs[|txs| - 1];
      LogReplaysToStorage(attester, front);
      var m := Run(Deployed(attester), front);
      if Execute(m, tx.sender, tx.call, tx.timestamp).Done? {
        ExecuteKeepsLog(m, tx.sender, tx.call, tx.timestamp);
      }
    }
  }

  /** Checked addition never fails on an asset with fewer than 2^192 updates behind it: every total a
      batch reaches after n updates is at most n * (2^64 - 1). */
  lemma {:induction false} NoOverflow(s: Storage, period: Period, u: seq<Update>)
    requires LogTellsStorage(s)
    requires forall a :: Applied(s.log, a) + |u| <= TWO_TO_192
    ensures Record(s, period, u) != Reverted(Panic)
  {
    hide LogTellsStorage, RecordOne, Applied;
    if u != [] {
      var v := u[..|u| - 1];
      NoOverflow(s, period, v);
      if Record(s, period, v).Done? {
        var m := Record(s, period, v).storage;
        RecordKeeps(s, period, v);
        AppliedByRecord(s, period, v, u[|u| - 1].asset);
        NextFits(m, period, u[|u| - 1]);
      }
    }
  }

  lemma AppliedByRecord(s: Storage, period: Period, v: seq<Update>, a: Id)
    requires Record(s, period, v).Done?
    ensures Applied(Record(s, period, v).storage.log, a) <= Applied(s.log, a) + |v|
  {
    RecordMeaning(s, period, v);
    EntryAt(s, period, v, 0);
    hide Record, Applied, Entries, Acceptable;
    AppliedGrowth(s.log, Entries(s, period, v), a);
  }

  lemma NextFits(m: Storage, period: Period, x: Update)
    requires LogTellsStorage(m) && Applied(m.log, x.asset) < TWO_TO_192
    ensures RecordOne(m, period, x) != Reverted(Panic)
  {
    assert Total(m, x.asset) <= Ceiling(Applied(m.log, x.asset));
    hide LogTellsStorage, Applied;
    CeilingFits(Applied(m.log, x.asset));
    hide Ceiling;
  }

  lemma {:induction false} AppliedGrowth(x: seq<Event>, y: seq<Event>, a: Id)
    ensures Applied(x + y, a) <= Applied(x, a) + |y|
  {
    if y == [] {
      assert x + y == x;
    } else {
      assert (x + y)[..|x + y| - 1] == x + y[..|y| - 1];
      AppliedGrowth(x, y[..|y| - 1], a);
    }
  }

  // ---- Permanence ----

  /** What later states owe earlier ones. */
  ghost predicate Preserved(s: Storage, t: Storage) {
    && (forall a :: Known(s, a) ==>
          && Known(t, a)
          && AssetAt(t, a).contentHash == AssetAt(s, a).contentHash
          && AssetAt(t, a).notarizedAt == AssetAt(s, a).notarizedAt)
    && (forall a :: Total(s, a) <= Total(t, a))
    && (forall id :: ContractAt(s, id) != 0 ==> ContractAt(t, id) == ContractAt(s, id))
    && s.log <= t.log
  }

  lemma ExecutePreserves(s: Storage, sender: Address, call: Call, timestamp: nat)
    requires LogTellsStorage(s) && Execute(s, sender, call, timestamp).Done?
    ensures Preserved(s, Execute(s, sender, call, timestamp).storage)
  {
    if call.PublishBatch? {
      PublishMeaning(s, call.period, call.updates);
    }
  }

  lemma PreservedFurther(s: Storage, m: Storage, t: Storage)
    requires Preserved(s, m) && Preserved(m, t)
    ensures Preserved(s, t)
  {
    assert t.log[..|s.log|] == m.log[..|s.log|];
  }

  lemma Unchanged(s: Storage)
    ensures Preserved(s, s)
  {
  }

  /** Across any continuation of any run: hashes and notarisation times are final, totals never fall
      and the log only grows. */
  lemma {:induction false} OnChainPermanence(attester: Address, before: seq<Transaction>, after: seq<Transaction>)
    ensures Preserved(Run(Deployed(attester), before), Run(Deployed(attester), before + after))
  {
    hide LogTellsStorage, Execute, Preserved;
    var s := Run(Deployed(attester), before);
    if after == [] {
      assert before + after == before;
      Unchanged(s);
    } else {
      var front, tx := after[..|after| - 1], after[|after| - 1];
      OnChainPermanence(attester, before, front);
      LogReplaysToStorage(attester, before + front);
      assert (before + after)[..|before + after| - 1] == before + front;
      var m := Run(Deployed(attester), before + front);
      if Execute(m, tx.sender, tx.call, tx.timestamp).Done? {
        ExecutePreserves(m, tx.sender, tx.call, tx.timestamp);
        PreservedFurther(s, m, Execute(m, tx.sender, tx.call, tx.timestamp).storage);
      }
    }
  }

  /** After a successful notarisation a second one is refused exactly when the block time does not
      truncate to zero in 64 bits; when it does, the asset stays unknown and its hash can be replaced. */
  lemma NotarizedOnceIff(s: Storage, id: Id, hash: Hash, timestamp: nat, hash': Hash, timestamp': nat)
    requires hash' != 0 && Notarize(s, id, hash, timestamp).Done?
    ensures Notarize(Notarize(s, id, hash, timestamp).storage, id, hash', timestamp') == Reverted(AlreadyExists)
       <==> timestamp % TWO_TO_64 != 0
    ensures timestamp % TWO_TO_64 == 0 ==>
              AssetAt(Notarize(Notarize(s, id, hash, timestamp).storage, id, hash', timestamp').storage, id).contentHash == hash'
  {
  }
}
