/**
 Writing several records one after another through one writer, as the integration test
 does with its three price observations of the same product.
 */
module WriteScenario {
  import opened ProductPoint
  import opened InfluxWriter

  /**
   The points that writing `infos` in order produces, the k-th stamped with the k-th
   clock reading: one point per record, in input order.
   */
  function Points(table: string, infos: seq<ProductInfo>, nows: seq<Instant>): (ps: seq<Point>)
    requires |nows| == |infos|
    ensures |ps| == |infos|
    decreases |infos|
  {
    if infos == [] then []
    else
      var n := |infos| - 1;
      Points(table, infos[..n], nows[..n]) + [BuildProductPoint(table, infos[n], nows[n])]
  }

  /** The k-th point is the translation of the k-th record under the k-th clock reading. */
  lemma {:induction false} PointsAt(table: string, infos: seq<ProductInfo>, nows: seq<Instant>, k: nat)
    requires |nows| == |infos| && k < |infos|
    ensures Points(table, infos, nows)[k] == BuildProductPoint(table, infos[k], nows[k])
    decreases |infos|
  {
    var n := |infos| - 1;
    if k < n {
      PointsAt(table, infos[..n], nows[..n], k);
    }
  }

  /** Writing one more record extends the points of the earlier ones by exactly its own. */
  lemma PointsSnoc(table: string, infos: seq<ProductInfo>, nows: seq<Instant>, info: ProductInfo, now: Instant)
    requires |nows| == |infos|
    ensures Points(table, infos + [info], nows + [now]) == Points(table, infos, nows) + [BuildProductPoint(table, info, now)]
  {
  }

  /** In-order writing composes: the points of a concatenated batch are those of its two parts in turn. */
  lemma {:induction false} PointsAppend(table: string, xs: seq<ProductInfo>, xt: seq<Instant>, ys: seq<ProductInfo>, yt: seq<Instant>)
    requires |xt| == |xs| && |yt| == |ys|
    ensures Points(table, xs + ys, xt + yt) == Points(table, xs, xt) + Points(table, ys, yt)
  {
    var l := Points(table, xs + ys, xt + yt);
    var r := Points(table, xs, xt) + Points(table, ys, yt);
    assert |l| == |r|;
    forall k | 0 <= k < |l|
      ensures l[k] == r[k]
    {
      PointsAt(table, xs + ys, xt + yt, k);
      if k < |xs| {
        PointsAt(table, xs, xt, k);
        assert (xs + ys)[k] == xs[k] && (xt + yt)[k] == xt[k];
      } else {
        PointsAt(table, ys, yt, k - |xs|);
        assert (xs + ys)[k] == ys[k - |xs|] && (xt + yt)[k] == yt[k - |xs|];
      }
    }
  }

  /**
   Writes every record of `infos` in order, the k-th at clock reading `nows[k]`: the log
   grows by exactly one translated point per record, in input order.
   */
  method WriteEach(db: InfluxDB, table: string, infos: seq<ProductInfo>, nows: seq<Instant>)
    requires |nows| == |infos|
    modifies db`written
    ensures db.written == old(db.written) + Points(table, infos, nows)
  {
    ghost var start := db.written;
    var i := 0;
    while i < |infos|
      invariant 0 <= i <= |infos|
      invariant db.written == start + Points(table, infos[..i], nows[..i])
    {
      ghost var done := Points(table, infos[..i], nows[..i]);
      db.WriteProductDatapoint(table, infos[i], nows[i]);
      assert db.written == start + done + [BuildProductPoint(table, infos[i], nows[i])];
      PointsSnoc(table, infos[..i], nows[..i], infos[i], nows[i]);
      assert infos[..i + 1] == infos[..i] + [infos[i]];
      assert nows[..i + 1] == nows[..i] + [nows[i]];
      i := i + 1;
    }
    assert infos[..i] == infos && nows[..i] == nows;
  }

  /** One observation of the test product, as the integration test builds it. */
  function TestObservation(priceCents: int, previousPriceCents: int, timestamp: Instant): ProductInfo
  {
    ProductInfo("", "Test Product", "", "Test Store", "Test Department", "Test Location",
                priceCents, previousPriceCents, 1000, timestamp)
  }

  /**
   The integration test: three observations with prices 100 (no earlier price), 101 and 99
   written through a fresh writer. Exactly three points come back, in order; the first
   carries a change of 100, because a previous price of 0 is not treated as missing, and
   the others carry +1 and -2.
   */
  method TestWriteProductDatapoint(table: string, stamps: seq<Instant>, nows: seq<Instant>)
    returns (log: seq<Point>)
    requires |stamps| == 3 && |nows| == 3
    ensures |log| == 3
    ensures forall k :: 0 <= k < 3 ==> log[k].table == table && log[k].time == nows[k]
    ensures forall k :: 0 <= k < 3 ==>
      log[k].tags == map["id" := "", "name" := "Test Product", "store" := "Test Store",
                         "location" := "Test Location", "department" := "Test Department"]
    ensures log[0].fields == map["cents" := 100, "grams" := 1000, "cents_change" := 100]
    ensures log[1].fields == map["cents" := 101, "grams" := 1000, "cents_change" := 1]
    ensures log[2].fields == map["cents" := 99, "grams" := 1000, "cents_change" := -2]
  {
    var db := new InfluxDB();
    var inputs := [
      TestObservation(100, 0, stamps[0]),
      TestObservation(101, 100, stamps[1]),
      TestObservation(99, 101, stamps[2])
    ];
    WriteEach(db, table, inputs, nows);
    log := db.written;
    PointsAt(table, inputs, nows, 0);
    PointsAt(table, inputs, nows, 1);
    PointsAt(table, inputs, nows, 2);
  }
}
