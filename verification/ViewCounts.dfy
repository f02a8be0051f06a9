/** What the counts of a plan are, said over the table of views alone. */
module ViewCounts {
  import opened Options
  import opened Payloads
  import opened Protocol
  import opened Invariant

  /** The rows of the table with this period. */
  function ViewsIn(views: seq<View>, p: Period): set<nat> {
    set i: nat | i < |views| && views[i].period == p
  }

  /** The rows of the table with this period and asset. */
  function ViewsOfAsset(views: seq<View>, p: Period, a: Id): set<nat> {
    set i: nat | i < |views| && views[i].period == p && views[i].asset == a
  }

  /** The assets seen in this period. */
  function AssetsIn(views: seq<View>, p: Period): set<Id> {
    set i: nat | i < |views| && views[i].period == p :: views[i].asset
  }

  /** `count(*)` of a group counts its rows. */
  lemma {:induction false} ViewCountIsRows(views: seq<View>, p: Period, a: Id)
    ensures ViewCount(views, p, a) == |ViewsOfAsset(views, p, a)|
  {
    if views == [] {
      assert ViewsOfAsset(views, p, a) == {};
    } else {
      var n := |views| - 1;
      ViewCountIsRows(views[..n], p, a);
      var last := if views[n].period == p && views[n].asset == a then {n} else {};
      assert ViewsOfAsset(views, p, a) == ViewsOfAsset(views[..n], p, a) + last;
    }
  }

  function RowsFor(views: seq<View>, p: Period, u: seq<Update>): set<nat> {
    set i: nat | i < |views| && views[i].period == p && exists k :: 0 <= k < |u| && u[k].asset == views[i].asset
  }

  lemma RowsForSnoc(views: seq<View>, p: Period, u: seq<Update>)
    requires u != [] && OnePerAsset(u)
    ensures RowsFor(views, p, u) == RowsFor(views, p, u[..|u| - 1]) + ViewsOfAsset(views, p, u[|u| - 1].asset)
    ensures RowsFor(views, p, u[..|u| - 1]) !! ViewsOfAsset(views, p, u[|u| - 1].asset)
  {
    var n := |u| - 1;
    var v := u[..n];
    forall i | i in RowsFor(views, p, u) ensures i in RowsFor(views, p, v) + ViewsOfAsset(views, p, u[n].asset) {
      var k :| 0 <= k < |u| && u[k].asset == views[i].asset;
      if k < n { assert v[k].asset == views[i].asset; }
    }
    forall i | i in RowsFor(views, p, v) ensures i in RowsFor(views, p, u) && views[i].asset != u[n].asset {
      var k :| 0 <= k < n && v[k].asset == views[i].asset;
      assert u[k].asset == views[i].asset;
    }
    forall i | i in ViewsOfAsset(views, p, u[n].asset) ensures i in RowsFor(views, p, u) {
      assert u[n].asset == views[i].asset;
    }
  }

  /** The counts of entries that carry the rows of their assets add up to those rows. */
  lemma {:induction false} TotalIsRows(views: seq<View>, p: Period, u: seq<Update>)
    requires OnePerAsset(u) && forall k :: 0 <= k < |u| ==> u[k].views == |ViewsOfAsset(views, p, u[k].asset)|
    ensures TotalOf(u) == |RowsFor(views, p, u)|
  {
    if u == [] {
      assert RowsFor(views, p, u) == {};
    } else {
      TotalIsRows(views, p, u[..|u| - 1]);
      RowsForSnoc(views, p, u);
    }
  }

  /** Every row of the period belongs to an entry, and every entry has a row. */
  lemma PlanCovers(u: seq<Update>, views: seq<View>, p: Period)
    requires OnePerAsset(u) && Positive(u) && forall a :: CountOf(u, a) == ViewCount(views, p, a)
    ensures forall k :: 0 <= k < |u| ==> u[k].views == |ViewsOfAsset(views, p, u[k].asset)|
    ensures RowsFor(views, p, u) == ViewsIn(views, p)
    ensures (set k: nat | k < |u| :: u[k].asset) == AssetsIn(views, p)
  {
    forall k | 0 <= k < |u|
      ensures u[k].views == |ViewsOfAsset(views, p, u[k].asset)| && u[k].asset in AssetsIn(views, p)
    {
      CountIsEntry(u, k);
      ViewCountIsRows(views, p, u[k].asset);
      ViewCountPositive(views, p, u[k].asset);
    }
    forall i: nat | i < |views| && views[i].period == p
      ensures exists k :: 0 <= k < |u| && u[k].asset == views[i].asset
    {
      ViewCountIsRows(views, p, views[i].asset);
      assert i in ViewsOfAsset(views, p, views[i].asset);
      CountOfMember(u, views[i].asset);
    }
  }

  lemma {:induction false} AssetsAreAsMany(u: seq<Update>)
    requires OnePerAsset(u)
    ensures |set k: nat | k < |u| :: u[k].asset| == |u|
  {
    var assets := set k: nat | k < |u| :: u[k].asset;
    if u != [] {
      var n := |u| - 1;
      var v := u[..n];
      AssetsAreAsMany(v);
      var front := set k: nat | k < |v| :: v[k].asset;
      forall a | a in assets ensures a in front + {u[n].asset} {
        var k: nat :| k < |u| && u[k].asset == a;
        if k < n { assert v[k].asset == a; }
      }
      forall a | a in front ensures a in assets && a != u[n].asset {
        var k: nat :| k < |v| && v[k].asset == a;
        assert u[k].asset == a;
      }
      assert assets == front + {u[n].asset};
    }
  }

  /** A plan adds up to the rows of its period and has one entry for each asset seen in it. */
  lemma PlanAddsUp(u: seq<Update>, views: seq<View>, p: Period)
    requires OnePerAsset(u) && Positive(u) && forall a :: CountOf(u, a) == ViewCount(views, p, a)
    ensures TotalOf(u) == |ViewsIn(views, p)|
    ensures |u| == |AssetsIn(views, p)|
    ensures forall k :: 0 <= k < |u| ==> u[k].views == |ViewsOfAsset(views, p, u[k].asset)|
  {
    PlanCovers(u, views, p);
    TotalIsRows(views, p, u);
    AssetsAreAsMany(u);
  }
}
