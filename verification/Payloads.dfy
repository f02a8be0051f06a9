/** View-count payloads: counting, sorting by asset id and slicing into chunks. */
module Payloads {

  /** Asset ids, numbered in the order `localeCompare` puts them. The same number stands for the
      bytes32 key of the asset on chain. */
  type Id = nat

  /** A period is named by the unix time in seconds at which it starts. */
  type Period = int

  datatype Update = Update(asset: Id, views: nat)

  // ---- Counting ----

  /** The views a payload carries for one asset. */
  function CountOf(u: seq<Update>, a: Id): nat {
    if u == [] then 0 else CountOf(u[..|u| - 1], a) + Hit(u[|u| - 1], a)
  }

  function Hit(x: Update, a: Id): nat {
    if x.asset == a then x.views else 0
  }

  lemma {:induction false} CountOfConcat(u: seq<Update>, v: seq<Update>, a: Id)
    ensures CountOf(u + v, a) == CountOf(u, a) + CountOf(v, a)
  {
    if v == [] {
      assert u + v == u;
    } else {
      assert (u + v)[..|u + v| - 1] == u + v[..|v| - 1];
      CountOfConcat(u, v[..|v| - 1], a);
    }
  }

  lemma CountOfOne(x: Update, a: Id)
    ensures CountOf([x], a) == Hit(x, a)
  {
    assert [x][..0] == [];
  }

  lemma CountOfSplit(u: seq<Update>, i: nat, a: Id)
    requires i < |u|
    ensures CountOf(u[i..], a) == Hit(u[i], a) + CountOf(u[i + 1..], a)
    ensures CountOf(u[..i + 1], a) == CountOf(u[..i], a) + Hit(u[i], a)
  {
    assert u[i..] == [u[i]] + u[i + 1..];
    CountOfConcat([u[i]], u[i + 1..], a);
    CountOfOne(u[i], a);
    assert u[..i + 1][..i] == u[..i];
  }

  lemma CountOfParts(u: seq<Update>, i: nat, a: Id)
    requires i <= |u|
    ensures CountOf(u, a) == CountOf(u[..i], a) + CountOf(u[i..], a)
  {
    assert u == u[..i] + u[i..];
    CountOfConcat(u[..i], u[i..], a);
  }

  /** An asset no entry names counts zero; an entry counts at least its own views. */
  lemma {:induction false} CountOfMember(u: seq<Update>, a: Id)
    ensures (forall i :: 0 <= i < |u| ==> u[i].asset != a) ==> CountOf(u, a) == 0
    ensures forall i :: 0 <= i < |u| && u[i].asset == a ==> u[i].views <= CountOf(u, a)
  {
    if u != [] {
      var v := u[..|u| - 1];
      CountOfMember(v, a);
      assert forall i :: 0 <= i < |v| ==> v[i] == u[i];
    }
  }

  // ---- Plans: payloads in strict id order, one positive entry per asset ----

  predicate Sorted(u: seq<Update>) {
    forall i, j :: 0 <= i < j < |u| ==> u[i].asset < u[j].asset
  }

  predicate Positive(u: seq<Update>) {
    forall i :: 0 <= i < |u| ==> u[i].views > 0
  }

  predicate OnePerAsset(u: seq<Update>) {
    forall i, j :: 0 <= i < j < |u| ==> u[i].asset != u[j].asset
  }

  /** In a payload with one entry per asset, that entry is the whole count. */
  lemma {:induction false} CountIsEntry(u: seq<Update>, i: nat)
    requires OnePerAsset(u) && i < |u|
    ensures CountOf(u, u[i].asset) == u[i].views
  {
    var v := u[..|u| - 1];
    if i < |v| {
      CountIsEntry(v, i);
      assert u[i].asset != u[|u| - 1].asset;
    } else {
      CountOfMember(v, u[i].asset);
    }
  }

  /** A sorted payload is determined by its counts: whatever order the rows came in and whatever
      sorting algorithm ran, the plan is the same. */
  lemma {:induction false} PlanUnique(u: seq<Update>, v: seq<Update>)
    requires Sorted(u) && Sorted(v) && Positive(u) && Positive(v)
    requires forall a :: CountOf(u, a) == CountOf(v, a)
    ensures u == v
    decreases |u|
  {
    if u == [] && v == [] {
    } else if |u| > 0 && (v == [] || v[|v| - 1].asset < u[|u| - 1].asset) {
      LastMissing(u, v);
    } else if |v| > 0 && (u == [] || u[|u| - 1].asset < v[|v| - 1].asset) {
      LastMissing(v, u);
    } else {
      var u', v' := u[..|u| - 1], v[..|v| - 1];
      CountIsEntry(u, |u| - 1);
      CountIsEntry(v, |v| - 1);
      assert u[|u| - 1] == v[|v| - 1];
      forall a ensures CountOf(u', a) == CountOf(v', a) {
        assert CountOf(u, a) == CountOf(v, a);
      }
      PlanUnique(u', v');
      assert u == u' + [u[|u| - 1]] && v == v' + [v[|v| - 1]];
    }
  }

  lemma LastMissing(u: seq<Update>, v: seq<Update>)
    requires Sorted(u) && Sorted(v) && Positive(u) && |u| > 0
    requires v == [] || v[|v| - 1].asset < u[|u| - 1].asset
    ensures exists a :: CountOf(u, a) != CountOf(v, a)
  {
    var a := u[|u| - 1].asset;
    CountIsEntry(u, |u| - 1);
    assert forall i :: 0 <= i < |v| ==> v[i].asset != a;
    CountOfMember(v, a);
    assert CountOf(u, a) != CountOf(v, a);
  }

  // ---- Sorting ----

  function Insert(x: Update, u: seq<Update>): seq<Update> {
    if u == [] then [x]
    else if x.asset <= u[|u| - 1].asset then Insert(x, u[..|u| - 1]) + [u[|u| - 1]]
    else u + [x]
  }

  function SortByAsset(u: seq<Update>): seq<Update> {
    if u == [] then [] else Insert(u[|u| - 1], SortByAsset(u[..|u| - 1]))
  }

  lemma {:induction false} InsertCounts(x: Update, u: seq<Update>, a: Id)
    ensures CountOf(Insert(x, u), a) == CountOf(u, a) + Hit(x, a)
  {
    if u == [] {
      CountOfOne(x, a);
    } else {
      var v, z := u[..|u| - 1], u[|u| - 1];
      if x.asset <= z.asset {
        InsertCounts(x, v, a);
        CountOfConcat(Insert(x, v), [z], a);
        CountOfOne(z, a);
      } else {
        CountOfConcat(u, [x], a);
        CountOfOne(x, a);
      }
    }
  }

  lemma {:induction false} InsertPermutes(x: Update, u: seq<Update>)
    ensures multiset(Insert(x, u)) == multiset(u) + multiset{x}
  {
    if u != [] {
      var v, z := u[..|u| - 1], u[|u| - 1];
      assert u == v + [z];
      InsertPermutes(x, v);
    }
  }

  lemma AppendLast(w: seq<Update>, v: seq<Update>, x: Update, z: Update)
    requires multiset(w) == multiset(v) + multiset{x}
    requires Sorted(w) && Positive(w) && z.views > 0 && x.asset < z.asset
    requires forall i :: 0 <= i < |v| ==> v[i].asset < z.asset
    ensures Sorted(w + [z]) && Positive(w + [z])
  {
    forall i | 0 <= i < |w| ensures w[i].asset < z.asset {
      assert w[i] in multiset(w);
      assert w[i] in v || w[i] == x;
    }
  }

  lemma {:induction false} InsertSorts(x: Update, u: seq<Update>)
    requires Sorted(u) && Positive(u) && x.views > 0
    requires forall i :: 0 <= i < |u| ==> u[i].asset != x.asset
    ensures Sorted(Insert(x, u)) && Positive(Insert(x, u))
  {
    if u != [] {
      var v, z := u[..|u| - 1], u[|u| - 1];
      if x.asset <= z.asset {
        InsertSorts(x, v);
        InsertPermutes(x, v);
        AppendLast(Insert(x, v), v, x, z);
      }
    }
  }

  /** Sorting permutes the entries, orders them strictly and changes no count. */
  lemma {:induction false} SortFacts(u: seq<Update>)
    requires OnePerAsset(u) && Positive(u)
    ensures Sorted(SortByAsset(u)) && Positive(SortByAsset(u))
    ensures multiset(SortByAsset(u)) == multiset(u)
    ensures forall a :: CountOf(SortByAsset(u), a) == CountOf(u, a)
  {
    if u != [] {
      var v, x := u[..|u| - 1], u[|u| - 1];
      assert u == v + [x];
      SortFacts(v);
      forall y | y in SortByAsset(v) ensures y.asset != x.asset {
        assert y in multiset(SortByAsset(v));
        assert y in v;
      }
      InsertSorts(x, SortByAsset(v));
      InsertPermutes(x, SortByAsset(v));
      forall a ensures CountOf(SortByAsset(u), a) == CountOf(u, a) {
        InsertCounts(x, SortByAsset(v), a);
      }
    }
  }

  // ---- Slicing ----

  function Slices(u: seq<Update>, k: nat): seq<seq<Update>>
    requires k > 0
  {
    if u == [] then [] else if |u| <= k then [u] else [u[..k]] + Slices(u[k..], k)
  }

  function Flatten(ss: seq<seq<Update>>): seq<Update> {
    if ss == [] then [] else ss[0] + Flatten(ss[1..])
  }

  function Min(x: int, y: int): int { if x <= y then x else y }

  /** j * k, by addition. */
  function Offset(j: nat, k: nat): nat {
    if j == 0 then 0 else Offset(j - 1, k) + k
  }

  lemma {:induction false} OffsetIsProduct(j: nat, k: nat)
    ensures Offset(j, k) == j * k
  {
    if j > 0 {
      OffsetIsProduct(j - 1, k);
      assert (j - 1) * k + k == j * k;
    }
  }

  /** A stretch of a suffix is a stretch of the whole. */
  lemma SuffixStretch(u: seq<Update>, k: nat, lo: nat, hi: nat)
    requires k <= lo <= hi <= |u|
    ensures u[k..][lo - k..hi - k] == u[lo..hi]
  {
    var x, y := u[k..][lo - k..hi - k], u[lo..hi];
    forall i | 0 <= i < |x| ensures x[i] == y[i] {}
  }

  lemma {:induction false} SliceAtOffset(u: seq<Update>, k: nat, j: nat)
    requires k > 0 && j < |Slices(u, k)|
    ensures Offset(j, k) < |u|
    ensures Slices(u, k)[j] == u[Offset(j, k)..Min(Offset(j, k) + k, |u|)]
  {
    if |u| <= k {
      assert Slices(u, k) == [u];
    } else if j > 0 {
      assert Slices(u, k)[j] == Slices(u[k..], k)[j - 1];
      SliceAtOffset(u[k..], k, j - 1);
      SuffixStretch(u, k, Offset(j, k), Min(Offset(j, k) + k, |u|));
    }
  }

  /** The j-th slice holds positions j*k up to (j+1)*k, cut at the end; no position is left over. */
  lemma SliceAt(u: seq<Update>, k: nat, j: nat)
    requires k > 0 && j < |Slices(u, k)|
    ensures 0 <= j * k < |u| && j * k <= (j + 1) * k
    ensures Slices(u, k)[j] == u[j * k..Min((j + 1) * k, |u|)]
  {
    SliceAtOffset(u, k, j);
    OffsetIsProduct(j, k);
    OffsetIsProduct(j + 1, k);
  }

  /** Slicing loses nothing, keeps the order and makes no empty slice and none longer than k. */
  lemma {:induction false} SlicesFacts(u: seq<Update>, k: nat)
    requires k > 0
    ensures Flatten(Slices(u, k)) == u
    ensures Slices(u, k) == [] <==> u == []
    ensures forall j :: 0 <= j < |Slices(u, k)| ==> 0 < |Slices(u, k)[j]| <= k
  {
    if u == [] {
    } else if |u| <= k {
      assert Slices(u, k)[1..] == [];
      assert u + [] == u;
    } else {
      SlicesFacts(u[k..], k);
      assert Slices(u, k)[1..] == Slices(u[k..], k);
      assert u == u[..k] + u[k..];
    }
  }

  /** Two different slices of one plan are different payloads. */
  lemma SlicesDistinct(u: seq<Update>, k: nat, i: nat, j: nat)
    requires k > 0 && Sorted(u)
    requires i < |Slices(u, k)| && j < |Slices(u, k)|
    requires Slices(u, k)[i] == Slices(u, k)[j]
    ensures i == j
  {
    SliceAtOffset(u, k, i);
    SliceAtOffset(u, k, j);
    assert u[Offset(i, k)] == Slices(u, k)[i][0] == Slices(u, k)[j][0] == u[Offset(j, k)];
    if i < j { OffsetGrows(i, j, k); }
    if j < i { OffsetGrows(j, i, k); }
  }

  lemma {:induction false} OffsetGrows(i: nat, j: nat, k: nat)
    requires k > 0 && i < j
    ensures Offset(i, k) < Offset(j, k)
  {
    if i < j - 1 { OffsetGrows(i, j - 1, k); }
  }

  /** One turn of the loop: the part still to cut loses its first slice. */
  lemma SliceStep(arr: seq<Update>, size: nat, i: nat)
    requires size > 0 && i < |arr|
    ensures Slices(arr[i..], size)
         == [arr[i..Min(i + size, |arr|)]] + Slices(arr[Min(i + size, |arr|)..], size)
  {
    var rest := arr[i..];
    if |rest| > size {
      assert rest[..size] == arr[i..i + size];
      assert rest[size..] == arr[i + size..];
    } else {
      assert rest == arr[i..|arr|];
      assert arr[|arr|..] == [];
      assert [rest] + [] == [rest];
    }
  }

  lemma SlicesPositions(arr: seq<Update>, size: nat)
    requires size > 0
    ensures forall j :: 0 <= j < |Slices(arr, size)| ==>
              0 <= j * size <= Min((j + 1) * size, |arr|) && Slices(arr, size)[j] == arr[j * size..Min((j + 1) * size, |arr|)]
  {
    forall j | 0 <= j < |Slices(arr, size)|
      ensures 0 <= j * size <= Min((j + 1) * size, |arr|) && Slices(arr, size)[j] == arr[j * size..Min((j + 1) * size, |arr|)]
    {
      SliceAt(arr, size, j);
    }
  }

  /** `chunkBy`: cut an array into slices of at most `size` entries. */
  method ChunkBy(arr: seq<Update>, size: nat) returns (out: seq<seq<Update>>)
    requires size > 0
    ensures out == Slices(arr, size)
    ensures Flatten(out) == arr
    ensures forall j :: 0 <= j < |out| ==>
              0 <= j * size <= Min((j + 1) * size, |arr|) && out[j] == arr[j * size..Min((j + 1) * size, |arr|)]
  {
    out := [];
    var i := 0;
    while i < |arr|
      invariant i >= 0
      invariant out + Slices(arr[Min(i, |arr|)..], size) == Slices(arr, size)
      decreases |arr| - i
    {
      SliceStep(arr, size, i);
      out := out + [arr[i..Min(i + size, |arr|)]];
      i := i + size;
    }
    assert out == out + Slices(arr[Min(i, |arr|)..], size);
    SlicesFacts(arr, size);
    SlicesPositions(arr, size);
  }

  // ---- Counting over a selection of slices ----

  /** The views for `a` in the slices whose flag is set. */
  function CountFlagged(ss: seq<seq<Update>>, flags: seq<bool>, a: Id): nat
    requires |ss| == |flags|
  {
    if ss == [] then 0
    else
      var n := |ss| - 1;
      CountFlagged(ss[..n], flags[..n], a) + if flags[n] then CountOf(ss[n], a) else 0
  }

  lemma {:induction false} CountFlaggedSet(ss: seq<seq<Update>>, flags: seq<bool>, j: nat, a: Id)
    requires |ss| == |flags| && j < |ss| && !flags[j]
    ensures CountFlagged(ss, flags[j := true], a) == CountFlagged(ss, flags, a) + CountOf(ss[j], a)
  {
    var n := |ss| - 1;
    if j < n {
      CountFlaggedSet(ss[..n], flags[..n], j, a);
      assert flags[j := true][..n] == flags[..n][j := true];
    } else {
      assert flags[j := true][..n] == flags[..n];
    }
  }

  lemma {:induction false} FlattenSnoc(ss: seq<seq<Update>>)
    requires ss != []
    ensures Flatten(ss) == Flatten(ss[..|ss| - 1]) + ss[|ss| - 1]
  {
    var n := |ss| - 1;
    if n > 0 {
      FlattenSnoc(ss[1..]);
      assert ss[1..][..n - 1] == ss[..n][1..];
    } else {
      assert ss[1..] == [] && ss[..0] == [];
      assert ss[0] + [] == ss[0];
    }
  }

  /** Any selection counts at most the whole; the full selection counts all of it, the empty one nothing. */
  lemma {:induction false} CountFlaggedBounds(ss: seq<seq<Update>>, flags: seq<bool>, a: Id)
    requires |ss| == |flags|
    ensures CountFlagged(ss, flags, a) <= CountOf(Flatten(ss), a)
    ensures (forall j :: 0 <= j < |flags| ==> flags[j]) ==> CountFlagged(ss, flags, a) == CountOf(Flatten(ss), a)
    ensures (forall j :: 0 <= j < |flags| ==> !flags[j]) ==> CountFlagged(ss, flags, a) == 0
  {
    if ss != [] {
      var n := |ss| - 1;
      CountFlaggedBounds(ss[..n], flags[..n], a);
      FlattenSnoc(ss);
      CountOfConcat(Flatten(ss[..n]), ss[n], a);
    }
  }
}
