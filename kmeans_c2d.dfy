/**
 * `kmeans_c2d` of c/src/kmeans_c.c: the algorithm of `kmeans_c` over arrays
 * of row pointers, one row of (at least) three reals per point and per
 * centroid. Every method is proved against FlatSpec, with `RowsHold` tying an
 * array of rows to the pixels in them, so KMeansRows computes the same
 * centroids and labels as FlatKMeans.KMeansFlat from the same points and the
 * same random calls.
 */
module RowKMeans {
  import opened Pixels
  import opened Clustering
  import opened FlatSpec
  import FlatKMeans

  /** The pixel in the first three entries of a row. */
  ghost function RowPixel(row: array<real>): Pixel
    reads row
    requires row.Length >= 3
  {
    Pixel(row[0], row[1], row[2])
  }

  /** Row `d` of `rows` holds pixel `ps[d]`, for every `d`. */
  ghost predicate RowsHold(rows: array<array<real>>, ps: seq<Pixel>)
    reads rows, set d | 0 <= d < rows.Length :: rows[d]
  {
    && rows.Length == |ps|
    && forall d :: 0 <= d < rows.Length ==> rows[d].Length >= 3 && RowPixel(rows[d]) == ps[d]
  }

  /** The centroid rows are distinct, and none of them is a row of the points. */
  ghost predicate Separate(data: array<array<real>>, centroids: array<array<real>>)
    reads data, centroids
  {
    && (forall a, b :: 0 <= a < b < centroids.Length ==> centroids[a] != centroids[b])
    && (forall a, d :: 0 <= a < centroids.Length && 0 <= d < data.Length ==> centroids[a] != data[d])
  }

  /**
   * `index` records every centroid row under its own position and no row of
   * the points: a linear-size witness of Separate.
   */
  ghost predicate Indexed(data: array<array<real>>, centroids: array<array<real>>, index: map<array<real>, nat>)
    reads data, centroids
  {
    && (forall a :: 0 <= a < centroids.Length ==> centroids[a] in index && index[centroids[a]] == a)
    && (forall r :: r in index ==> index[r] < centroids.Length && centroids[index[r]] == r)
    && (forall d :: 0 <= d < data.Length ==> data[d] !in index)
  }

  /** Separate rows can be indexed by position. */
  lemma IndexRows(data: array<array<real>>, centroids: array<array<real>>) returns (index: map<array<real>, nat>)
    requires Separate(data, centroids)
    ensures Indexed(data, centroids, index)
  {
    index := map a | 0 <= a < centroids.Length :: centroids[a] := a;
  }

  /** The pixels held by rows `0 .. n-1`. */
  ghost function RowPixelsUpTo(rows: array<array<real>>, n: nat): (ps: seq<Pixel>)
    reads rows, set d | 0 <= d < rows.Length :: rows[d]
    requires n <= rows.Length
    requires forall d :: 0 <= d < rows.Length ==> rows[d].Length >= 3
    ensures |ps| == n
    ensures forall d :: 0 <= d < n ==> ps[d] == RowPixel(rows[d])
  {
    if n == 0 then [] else RowPixelsUpTo(rows, n - 1) + [RowPixel(rows[n - 1])]
  }

  /** Rows that hold `ps` are read back as `ps`. */
  lemma RowPixelsOfRows(rows: array<array<real>>, ps: seq<Pixel>)
    requires RowsHold(rows, ps)
    ensures RowPixelsUpTo(rows, rows.Length) == ps
  {
  }

  /** The squared distance between two rows, accumulated channel by channel. */
  method RowDist(dp: array<real>, centr: array<real>) returns (acc: real)
    requires dp.Length >= 3 && centr.Length >= 3
    ensures acc == Dist(RowPixel(dp), RowPixel(centr))
  {
    acc := 0.0;
    for i := 0 to 3
      invariant acc == PartialDist(RowPixel(dp), RowPixel(centr), i)
    {
      var delta := dp[i] - centr[i];
      acc := acc + delta * delta;
    }
    PartialDistFull(RowPixel(dp), RowPixel(centr));
  }

  /** Labels point `d` with its nearest centroid, the first one on ties (DBL_MAX start). */
  method LabelPointRows(data: array<array<real>>, centroids: array<array<real>>, labels: array<nat>,
                        d: nat, nClusters: nat, ghost ps: seq<Pixel>, ghost cs: seq<Pixel>)
    requires RowsHold(data, ps) && RowsHold(centroids, cs) && |cs| == nClusters >= 1
    requires d < |ps| == labels.Length
    modifies labels
    ensures labels[..] == old(labels[..])[d := Closest(ps[d], cs)]
  {
    var minDist := 0.0;
    for c := 0 to nClusters
      invariant forall m :: 0 <= m < labels.Length && m != d ==> labels[m] == old(labels[m])
      invariant c >= 1 ==> labels[d] == ClosestUpTo(ps[d], cs, c) && minDist == Dist(ps[d], cs[labels[d]])
    {
      var dp := data[d];
      var centr := centroids[c];
      var dist := RowDist(dp, centr);
      if c == 0 || dist < minDist {
        labels[d] := c;
        minDist := dist;
      }
    }
    assert labels[..] == old(labels[..])[d := Closest(ps[d], cs)];
  }

  /** The assignment pass: every point is labelled afresh with its nearest centroid. */
  method AssignLabelsRows(data: array<array<real>>, centroids: array<array<real>>, labels: array<nat>,
                          nPoints: nat, nClusters: nat, ghost ps: seq<Pixel>, ghost cs: seq<Pixel>)
    requires RowsHold(data, ps) && RowsHold(centroids, cs) && |cs| == nClusters >= 1
    requires |ps| == nPoints == labels.Length
    modifies labels
    ensures labels[..] == Assign(ps, cs)
  {
    ghost var want := Assign(ps, cs);
    for d := 0 to nPoints
      invariant forall m :: 0 <= m < d ==> labels[m] == want[m]
    {
      LabelPointRows(data, centroids, labels, d, nClusters, ps, cs);
      AssignAt(ps, cs, d);
    }
  }

  /** Adds the pixel of row `dp` into row `centr`, channel by channel. */
  method AddRow(centr: array<real>, dp: array<real>)
    requires centr.Length >= 3 && dp.Length >= 3 && centr != dp
    modifies centr
    ensures RowPixel(centr) == Add(old(RowPixel(centr)), RowPixel(dp))
  {
    for i := 0 to 3
      invariant forall k :: 0 <= k < i ==> centr[k] == old(centr[k]) + dp[k]
      invariant forall k :: i <= k < centr.Length ==> centr[k] == old(centr[k])
    {
      centr[i] := centr[i] + dp[i];
    }
  }

  /** Divides the pixel of row `centr` by `n`, channel by channel. */
  method DivideRow(centr: array<real>, n: nat)
    requires centr.Length >= 3 && n > 0
    modifies centr
    ensures RowPixel(centr) == Div(old(RowPixel(centr)), n)
  {
    for i := 0 to 3
      invariant forall k :: 0 <= k < i ==> centr[k] == old(centr[k]) / n as real
      invariant forall k :: i <= k < centr.Length ==> centr[k] == old(centr[k])
    {
      centr[i] := centr[i] / n as real;
    }
  }

  /** Copies the pixel of row `dp` into row `centr`, channel by channel. */
  method CopyRow(centr: array<real>, dp: array<real>)
    requires centr.Length >= 3 && dp.Length >= 3 && centr != dp
    modifies centr
    ensures RowPixel(centr) == RowPixel(dp)
  {
    for i := 0 to 3
      invariant forall k :: 0 <= k < i ==> centr[k] == dp[k]
    {
      centr[i] := dp[i];
    }
  }

  /** Clears every centroid row, channel by channel. */
  method NullCentroidsRows(data: array<array<real>>, centroids: array<array<real>>, nClusters: nat,
                           ghost ps: seq<Pixel>, ghost index: map<array<real>, nat>)
    requires RowsHold(data, ps) && Indexed(data, centroids, index) && centroids.Length == nClusters
    requires forall c :: 0 <= c < nClusters ==> centroids[c].Length >= 3
    modifies index.Keys
    ensures RowsHold(centroids, ZeroSums(nClusters)) && RowsHold(data, ps)
  {
    for c := 0 to nClusters
      invariant RowsHold(data, ps)
      invariant forall e :: 0 <= e < c ==> RowPixel(centroids[e]) == Zero
    {
      for i := 0 to 3
        invariant RowsHold(data, ps)
        invariant forall e :: 0 <= e < c ==> RowPixel(centroids[e]) == Zero
        invariant forall k :: 0 <= k < i ==> centroids[c][k] == 0.0
      {
        centroids[c][i] := 0.0;
      }
    }
  }

  /** One step of the summing pass: point `d` is added into the row and the size of its cluster. */
  method SumPointRows(data: array<array<real>>, centroids: array<array<real>>, counts: array<nat>, labels: array<nat>,
                      d: nat, ghost ps: seq<Pixel>, ghost index: map<array<real>, nat>)
    requires labels != counts && Indexed(data, centroids, index)
    requires RowsHold(data, ps) && d < |ps| == labels.Length
    requires forall m :: 0 <= m < labels.Length ==> labels[m] < counts.Length
    requires RowsHold(centroids, AccSums(ps, labels[..], counts.Length, d))
    requires counts[..] == AccCounts(labels[..], counts.Length, d)
    modifies index.Keys, counts
    ensures RowsHold(centroids, AccSums(ps, labels[..], counts.Length, d + 1)) && RowsHold(data, ps)
    ensures counts[..] == AccCounts(labels[..], counts.Length, d + 1)
  {
    var cluster := labels[d];
    var dp := data[d];
    var centr := centroids[cluster];
    AddRow(centr, dp);
    ghost var counts0 := counts[..];
    counts[cluster] := counts[cluster] + 1;
    assert counts[..] == counts0[cluster := counts0[cluster] + 1];
  }

  /** The summing pass on cleared centroid rows and sizes. */
  method SumPointsRows(data: array<array<real>>, centroids: array<array<real>>, counts: array<nat>, labels: array<nat>,
                       ghost ps: seq<Pixel>, ghost index: map<array<real>, nat>)
    requires labels != counts && Indexed(data, centroids, index)
    requires RowsHold(data, ps) && |ps| == labels.Length
    requires forall m :: 0 <= m < labels.Length ==> labels[m] < counts.Length
    requires RowsHold(centroids, ZeroSums(counts.Length)) && counts[..] == ZeroCounts(counts.Length)
    modifies index.Keys, counts
    ensures RowsHold(centroids, Sums(ps, labels[..], counts.Length)) && RowsHold(data, ps)
    ensures counts[..] == Counts(labels[..], counts.Length)
  {
    ghost var ls, k := labels[..], counts.Length;
    for d := 0 to labels.Length
      invariant RowsHold(data, ps) && labels[..] == ls
      invariant RowsHold(centroids, AccSums(ps, ls, k, d)) && counts[..] == AccCounts(ls, k, d)
    {
      SumPointRows(data, centroids, counts, labels, d, ps, index);
    }
    AccumulateIsSumsCounts(ps, ls, k, |ps|);
    assert ps[..|ps|] == ps && ls[..|ps|] == ls;
  }

  /**
   * One step of the normalisation pass, at cluster `c`: a non-empty cluster's
   * row is divided by its size, an empty cluster's row becomes a copy of the
   * point picked by the pass's next random call. Rows `0 .. c-1` already hold
   * the pass's first `c` centroids and the rest still hold the sums `ss`.
   */
  method NormalizeClusterRows(data: array<array<real>>, nPoints: nat, centroids: array<array<real>>, counts: array<nat>,
                              c: nat, rand: nat -> nat, next: nat, cursor: nat,
                              ghost ps: seq<Pixel>, ghost ss: seq<Pixel>, ghost index: map<array<real>, nat>)
    returns (cursor': nat)
    requires Indexed(data, centroids, index)
    requires RowsHold(data, ps) && |ps| == nPoints >= 1 && |ss| == counts.Length && c < counts.Length
    requires var prev := NormalizeUpTo(ps, ss, counts[..], rand, next, c);
      RowsHold(centroids, prev.0 + ss[c..]) && cursor == prev.1
    modifies index.Keys
    ensures var r := NormalizeUpTo(ps, ss, counts[..], rand, next, c + 1);
      RowsHold(centroids, r.0 + ss[c + 1..]) && cursor' == r.1 && RowsHold(data, ps)
  {
    ghost var done := NormalizeUpTo(ps, ss, counts[..], rand, next, c).0;
    NormalizeUpToStep(ps, ss, counts[..], rand, next, c);
    ghost var cur := done + ss[c..];
    assert cur[c] == ss[c];
    var centr := centroids[c];
    var nPointsInCluster := counts[c];
    if nPointsInCluster != 0 {
      DivideRow(centr, nPointsInCluster);
      cursor' := cursor;
      assert cur[c := Div(ss[c], nPointsInCluster)] == done + [Div(ss[c], nPointsInCluster)] + ss[c + 1..];
    } else {
      var r := rand(cursor) % nPoints;
      cursor' := cursor + 1;
      CopyRow(centr, data[r]);
      assert cur[c := ps[r]] == done + [ps[r]] + ss[c + 1..];
    }
  }

  /** The normalisation pass over the summed centroids `ss`, as FlatSpec.NormalizeUpTo. */
  method NormalizeRows(data: array<array<real>>, nPoints: nat, centroids: array<array<real>>, counts: array<nat>,
                       rand: nat -> nat, next: nat, ghost ps: seq<Pixel>, ghost ss: seq<Pixel>, ghost index: map<array<real>, nat>)
    returns (next': nat)
    requires Indexed(data, centroids, index)
    requires RowsHold(data, ps) && |ps| == nPoints >= 1 && |ss| == counts.Length
    requires RowsHold(centroids, ss)
    modifies index.Keys
    ensures var r := NormalizeUpTo(ps, ss, counts[..], rand, next, counts.Length);
      RowsHold(centroids, r.0) && next' == r.1 && RowsHold(data, ps)
  {
    next' := next;
    ghost var ks := counts[..];
    for c := 0 to counts.Length
      invariant RowsHold(data, ps) && counts[..] == ks
      invariant RowsHold(centroids, NormalizeUpTo(ps, ss, ks, rand, next, c).0 + ss[c..])
      invariant next' == NormalizeUpTo(ps, ss, ks, rand, next, c).1
    {
      next' := NormalizeClusterRows(data, nPoints, centroids, counts, c, rand, next, next', ps, ss, index);
    }
    ghost var r := NormalizeUpTo(ps, ss, ks, rand, next, counts.Length);
    assert r.0 + ss[counts.Length..] == r.0;
  }

  /** One iteration of `kmeans_c2d` from centroids `cs`, as FlatSpec.IterationC. */
  method IterationRows(data: array<array<real>>, nPoints: nat, centroids: array<array<real>>, nClusters: nat,
                       labels: array<nat>, counts: array<nat>, rand: nat -> nat, next: nat,
                       ghost ps: seq<Pixel>, ghost cs: seq<Pixel>, ghost index: map<array<real>, nat>)
    returns (next': nat)
    requires labels != counts && Indexed(data, centroids, index)
    requires RowsHold(data, ps) && |ps| == nPoints == labels.Length && nPoints >= 1
    requires RowsHold(centroids, cs) && |cs| == nClusters == counts.Length && nClusters >= 1
    modifies index.Keys, labels, counts
    ensures var r := IterationC(ps, cs, rand, next);
      RowsHold(centroids, r.0) && labels[..] == r.1 && next' == r.2 && RowsHold(data, ps)
    ensures Indexed(data, centroids, index)
  {
    AssignLabelsRows(data, centroids, labels, nPoints, nClusters, ps, cs);
    next' := RecomputeRows(data, nPoints, centroids, labels, counts, rand, next, ps, index);
  }

  method RecomputeRows(data: array<array<real>>, nPoints: nat, centroids: array<array<real>>,
                       labels: array<nat>, counts: array<nat>, rand: nat -> nat, next: nat,
                       ghost ps: seq<Pixel>, ghost index: map<array<real>, nat>)
    returns (next': nat)
    requires labels != counts && Indexed(data, centroids, index)
    requires RowsHold(data, ps) && |ps| == nPoints == labels.Length && nPoints >= 1
    requires centroids.Length == counts.Length
    requires forall c :: 0 <= c < centroids.Length ==> centroids[c].Length >= 3
    requires forall m :: 0 <= m < labels.Length ==> labels[m] < counts.Length
    modifies index.Keys, counts
    ensures var ls, k := labels[..], counts.Length;
      var r := NormalizeUpTo(ps, Sums(ps, ls, k), Counts(ls, k), rand, next, k);
      RowsHold(centroids, r.0) && next' == r.1 && RowsHold(data, ps)
  {
    ghost var ls := labels[..];
    NullCentroidsRows(data, centroids, counts.Length, ps, index);
    FlatKMeans.NullCounts(counts);
    SumPointsRows(data, centroids, counts, labels, ps, index);
    next' := NormalizeRows(data, nPoints, centroids, counts, rand, next, ps, Sums(ps, ls, counts.Length), index);
  }

  /** The random initialisation: centroid row `c` becomes a copy of the point picked by random call `c`. */
  method InitCentroidsRows(data: array<array<real>>, nPoints: nat, centroids: array<array<real>>, nClusters: nat,
                           rand: nat -> nat, ghost ps: seq<Pixel>, ghost index: map<array<real>, nat>)
    requires Indexed(data, centroids, index)
    requires RowsHold(data, ps) && |ps| == nPoints >= 1 && centroids.Length == nClusters
    requires forall c :: 0 <= c < nClusters ==> centroids[c].Length >= 3
    modifies index.Keys
    ensures RowsHold(centroids, InitCentroids(ps, rand, nClusters)) && RowsHold(data, ps)
  {
    for c := 0 to nClusters
      invariant RowsHold(data, ps)
      invariant forall e :: 0 <= e < c ==> RowPixel(centroids[e]) == ps[rand(e) % nPoints]
    {
      var centr := centroids[c];
      var r := rand(c) % nPoints;
      var dp := data[r];
      CopyRow(centr, dp);
    }
  }

  /** The iteration loop of `kmeans_c2d`: exactly `maxIter` iterations, as FlatSpec.RunC. */
  method IterateRows(data: array<array<real>>, nPoints: nat, centroids: array<array<real>>, nClusters: nat,
                     labels: array<nat>, counts: array<nat>, rand: nat -> nat, next: nat, maxIter: nat,
                     ghost ps: seq<Pixel>, ghost cs: seq<Pixel>, ghost index: map<array<real>, nat>)
    requires labels != counts && Indexed(data, centroids, index)
    requires RowsHold(data, ps) && |ps| == nPoints == labels.Length && nPoints >= 1
    requires RowsHold(centroids, cs) && |cs| == nClusters == counts.Length && nClusters >= 1
    modifies index.Keys, labels, counts
    ensures var r := RunC(ps, cs, old(labels[..]), rand, next, maxIter);
      RowsHold(centroids, r.0) && labels[..] == r.1 && RowsHold(data, ps)
  {
    ghost var cur, ls, res := cs, labels[..], RunC(ps, cs, labels[..], rand, next, maxIter);
    var nxt := next;
    for iter := 0 to maxIter
      invariant Indexed(data, centroids, index)
      invariant RowsHold(data, ps) && RowsHold(centroids, cur) && |cur| == nClusters
      invariant labels[..] == ls && RunC(ps, cur, ls, rand, nxt, maxIter - iter) == res
    {
      ghost var r := IterationC(ps, cur, rand, nxt);
      nxt := IterationRows(data, nPoints, centroids, nClusters, labels, counts, rand, nxt, ps, cur, index);
      cur, ls := r.0, r.1;
    }
  }

  /**
   * `kmeans_c2d` of c/src/kmeans_c.c: `nClusters` random initial centroids,
   * then exactly `maxIter` iterations. The centroid rows end holding
   * FlatSpec.ClusterC's centroids, the labels as its labels.
   */
  method KMeansRows(data: array<array<real>>, nPoints: nat, centroids: array<array<real>>, nClusters: nat,
                    labels: array<nat>, rand: nat -> nat, maxIter: nat)
    requires nPoints >= 1 && nClusters >= 1
    requires data.Length == nPoints && centroids.Length == nClusters && labels.Length == nPoints
    requires forall d :: 0 <= d < nPoints ==> data[d].Length >= 3
    requires forall c :: 0 <= c < nClusters ==> centroids[c].Length >= 3
    requires Separate(data, centroids)
    modifies set c | 0 <= c < centroids.Length :: centroids[c], labels
    ensures var r := ClusterC(RowPixelsUpTo(data, nPoints), nClusters, old(labels[..]), rand, maxIter);
      RowsHold(centroids, r.0) && labels[..] == r.1
  {
    ghost var ps := RowPixelsUpTo(data, nPoints);
    ghost var index := IndexRows(data, centroids);
    InitCentroidsRows(data, nPoints, centroids, nClusters, rand, ps, index);
    var counts := new nat[nClusters](_ => 0);
    IterateRows(data, nPoints, centroids, nClusters, labels, counts, rand, nClusters, maxIter,
                ps, InitCentroids(ps, rand, nClusters), index);
    RowPixelsOfRows(data, ps);
  }
}
