/**
 * `kmeans_c` of c/src/kmeans_c.c: points and centroids in flat buffers of
 * reals, point `d` at indices `3*d .. 3*d+2` and centroid `c` at
 * `3*c .. 3*c+2`. The centroid buffer doubles as the accumulator of the
 * cluster sums. Every method is proved against FlatSpec, with `Stores` tying
 * each buffer to the pixels it holds.
 */
module FlatKMeans {
  import opened Pixels
  import opened Clustering
  import opened FlatSpec

  /** The squared distance between point `d` and centroid `c`, accumulated channel by channel. */
  method PointDist(data: array<real>, d: nat, centroids: array<real>, c: nat,
                   ghost ps: seq<Pixel>, ghost cs: seq<Pixel>) returns (acc: real)
    requires Stores(data[..], ps) && d < |ps| && Stores(centroids[..], cs) && c < |cs|
    ensures acc == Dist(ps[d], cs[c])
  {
    var dIdx, cIdx := 3 * d, 3 * c;
    acc := 0.0;
    for i := 0 to 3
      invariant acc == PartialDist(ps[d], cs[c], i)
    {
      StoresChannel(data[..], ps, d, i);
      StoresChannel(centroids[..], cs, c, i);
      var delta := data[dIdx + i] - centroids[cIdx + i];
      acc := acc + delta * delta;
    }
    PartialDistFull(ps[d], cs[c]);
  }

  /**
   * Labels point `d` with its nearest centroid, the first one on ties. The
   * running minimum starts at DBL_MAX, so the first centroid is always taken;
   * it is never negative afterwards, so the test `min_dist < 0` never decides.
   */
  method LabelPoint(data: array<real>, centroids: array<real>, labels: array<nat>, d: nat, nClusters: nat,
                    ghost ps: seq<Pixel>, ghost cs: seq<Pixel>)
    requires Stores(data[..], ps) && Stores(centroids[..], cs) && |cs| == nClusters >= 1
    requires d < |ps| == labels.Length
    modifies labels
    ensures labels[..] == old(labels[..])[d := Closest(ps[d], cs)]
  {
    var minDist := 0.0;
    for c := 0 to nClusters
      invariant forall m :: 0 <= m < labels.Length && m != d ==> labels[m] == old(labels[m])
      invariant c >= 1 ==> labels[d] == ClosestUpTo(ps[d], cs, c) && minDist == Dist(ps[d], cs[labels[d]]) && minDist >= 0.0
    {
      var dist := PointDist(data, d, centroids, c, ps, cs);
      if c == 0 || minDist < 0.0 || dist < minDist {
        labels[d] := c;
        minDist := dist;
      }
    }
    assert labels[..] == old(labels[..])[d := Closest(ps[d], cs)];
  }

  /** The assignment pass: every point is labelled afresh with its nearest centroid. */
  method AssignLabels(data: array<real>, centroids: array<real>, labels: array<nat>, nPoints: nat, nClusters: nat,
                      ghost ps: seq<Pixel>, ghost cs: seq<Pixel>)
    requires Stores(data[..], ps) && Stores(centroids[..], cs) && |cs| == nClusters >= 1
    requires |ps| == nPoints == labels.Length
    modifies labels
    ensures labels[..] == Assign(ps, cs)
  {
    ghost var want := Assign(ps, cs);
    for d := 0 to nPoints
      invariant forall m :: 0 <= m < d ==> labels[m] == want[m]
    {
      LabelPoint(data, centroids, labels, d, nClusters, ps, cs);
      AssignAt(ps, cs, d);
    }
  }

  /** Clears every centroid, channel by channel. */
  method NullCentroids(centroids: array<real>, nClusters: nat)
    requires centroids.Length == 3 * nClusters
    modifies centroids
    ensures Stores(centroids[..], ZeroSums(nClusters))
  {
    for c := 0 to nClusters
      invariant forall j :: 0 <= j < 3 * c ==> centroids[j] == 0.0
    {
      var cIdx := 3 * c;
      for i := 0 to 3
        invariant forall j :: 0 <= j < cIdx + i ==> centroids[j] == 0.0
      {
        centroids[cIdx + i] := 0.0;
      }
    }
  }

  /** Clears every cluster size. */
  method NullCounts(counts: array<nat>)
    modifies counts
    ensures counts[..] == ZeroCounts(counts.Length)
  {
    for c := 0 to counts.Length
      invariant forall j :: 0 <= j < c ==> counts[j] == 0
    {
      counts[c] := 0;
    }
  }

  /** Adds point `d` into centroid slot `c`, channel by channel. */
  method AddChannels(centroids: array<real>, c: nat, data: array<real>, d: nat,
                     ghost ss: seq<Pixel>, ghost ps: seq<Pixel>)
    requires centroids != data
    requires Stores(centroids[..], ss) && c < |ss| && Stores(data[..], ps) && d < |ps|
    modifies centroids
    ensures Stores(centroids[..], ss[c := Add(ss[c], ps[d])])
  {
    ghost var flat0, q := centroids[..], Add(ss[c], ps[d]);
    var cIdx, dIdx := 3 * c, 3 * d;
    for i := 0 to 3
      invariant forall j :: 0 <= j < centroids.Length && (j < cIdx || cIdx + i <= j) ==> centroids[j] == flat0[j]
      invariant forall k :: 0 <= k < i ==> centroids[cIdx + k] == Channel(q, k)
    {
      StoresChannel(flat0, ss, c, i);
      StoresChannel(data[..], ps, d, i);
      centroids[cIdx + i] := centroids[cIdx + i] + data[dIdx + i];
    }
    StoresChannels(flat0, centroids[..], ss, c, q);
  }

  /** Divides centroid slot `c` by `n`, channel by channel. */
  method DivideChannels(centroids: array<real>, c: nat, n: nat, ghost ss: seq<Pixel>)
    requires Stores(centroids[..], ss) && c < |ss| && n > 0
    modifies centroids
    ensures Stores(centroids[..], ss[c := Div(ss[c], n)])
  {
    ghost var flat0, q := centroids[..], Div(ss[c], n);
    var cIdx := 3 * c;
    for i := 0 to 3
      invariant forall j :: 0 <= j < centroids.Length && (j < cIdx || cIdx + i <= j) ==> centroids[j] == flat0[j]
      invariant forall k :: 0 <= k < i ==> centroids[cIdx + k] == Channel(q, k)
    {
      StoresChannel(flat0, ss, c, i);
      centroids[cIdx + i] := centroids[cIdx + i] / n as real;
    }
    StoresChannels(flat0, centroids[..], ss, c, q);
  }

  /** Copies point `d` into centroid slot `c`, channel by channel. */
  method CopyChannels(centroids: array<real>, c: nat, data: array<real>, d: nat,
                      ghost ss: seq<Pixel>, ghost ps: seq<Pixel>)
    requires centroids != data
    requires Stores(centroids[..], ss) && c < |ss| && Stores(data[..], ps) && d < |ps|
    modifies centroids
    ensures Stores(centroids[..], ss[c := ps[d]])
  {
    ghost var flat0 := centroids[..];
    var cIdx, dIdx := 3 * c, 3 * d;
    for i := 0 to 3
      invariant forall j :: 0 <= j < centroids.Length && (j < cIdx || cIdx + i <= j) ==> centroids[j] == flat0[j]
      invariant forall k :: 0 <= k < i ==> centroids[cIdx + k] == Channel(ps[d], k)
    {
      StoresChannel(data[..], ps, d, i);
      centroids[cIdx + i] := data[dIdx + i];
    }
    StoresChannels(flat0, centroids[..], ss, c, ps[d]);
  }

  /** One step of the summing pass: point `d` is added into the slot and the size of its cluster. */
  method SumPoint(data: array<real>, centroids: array<real>, counts: array<nat>, labels: array<nat>, d: nat,
                  ghost ps: seq<Pixel>)
    requires centroids != data && labels != counts
    requires Stores(data[..], ps) && d < |ps| == labels.Length
    requires forall m :: 0 <= m < labels.Length ==> labels[m] < counts.Length
    requires Stores(centroids[..], AccSums(ps, labels[..], counts.Length, d))
    requires counts[..] == AccCounts(labels[..], counts.Length, d)
    modifies centroids, counts
    ensures Stores(centroids[..], AccSums(ps, labels[..], counts.Length, d + 1))
    ensures counts[..] == AccCounts(labels[..], counts.Length, d + 1)
  {
    var cluster := labels[d];
    AddChannels(centroids, cluster, data, d, AccSums(ps, labels[..], counts.Length, d), ps);
    ghost var counts0 := counts[..];
    counts[cluster] := counts[cluster] + 1;
    assert counts[..] == counts0[cluster := counts0[cluster] + 1];
  }

  /**
   * The summing pass on cleared centroids and sizes: each centroid slot
   * becomes the sum of the points labelled with it, each size their number.
   */
  method SumPoints(data: array<real>, centroids: array<real>, counts: array<nat>, labels: array<nat>,
                   ghost ps: seq<Pixel>)
    requires centroids != data && labels != counts
    requires Stores(data[..], ps) && |ps| == labels.Length
    requires forall m :: 0 <= m < labels.Length ==> labels[m] < counts.Length
    requires Stores(centroids[..], ZeroSums(counts.Length)) && counts[..] == ZeroCounts(counts.Length)
    modifies centroids, counts
    ensures Stores(centroids[..], Sums(ps, labels[..], counts.Length))
    ensures counts[..] == Counts(labels[..], counts.Length)
  {
    ghost var ls, k := labels[..], counts.Length;
    for d := 0 to labels.Length
      invariant Stores(centroids[..], AccSums(ps, ls, k, d)) && counts[..] == AccCounts(ls, k, d)
    {
      SumPoint(data, centroids, counts, labels, d, ps);
    }
    AccumulateIsSumsCounts(ps, ls, k, |ps|);
    assert ps[..|ps|] == ps && ls[..|ps|] == ls;
  }

  /**
   * One step of the normalisation pass, at cluster `c`: a non-empty cluster's
   * slot is divided by its size, an empty cluster's slot becomes a copy of the
   * point picked by the pass's next random call `cursor`. Slots `0 .. c-1`
   * already hold the pass's first `c` centroids and the rest still hold the
   * sums `ss`; afterwards the same holds of `c + 1`.
   */
  method NormalizeCluster(data: array<real>, nPoints: nat, centroids: array<real>, counts: array<nat>, c: nat,
                          rand: nat -> nat, next: nat, cursor: nat, ghost ps: seq<Pixel>, ghost ss: seq<Pixel>)
    returns (cursor': nat)
    requires centroids != data
    requires Stores(data[..], ps) && |ps| == nPoints >= 1 && |ss| == counts.Length && c < counts.Length
    requires var prev := NormalizeUpTo(ps, ss, counts[..], rand, next, c);
      Stores(centroids[..], prev.0 + ss[c..]) && cursor == prev.1
    modifies centroids
    ensures var r := NormalizeUpTo(ps, ss, counts[..], rand, next, c + 1);
      Stores(centroids[..], r.0 + ss[c + 1..]) && cursor' == r.1
  {
    ghost var done := NormalizeUpTo(ps, ss, counts[..], rand, next, c).0;
    NormalizeUpToStep(ps, ss, counts[..], rand, next, c);
    ghost var cur := done + ss[c..];
    assert cur[c] == ss[c];
    var nPointsInCluster := counts[c];
    if nPointsInCluster != 0 {
      DivideChannels(centroids, c, nPointsInCluster, cur);
      cursor' := cursor;
      assert cur[c := Div(ss[c], nPointsInCluster)] == done + [Div(ss[c], nPointsInCluster)] + ss[c + 1..];
    } else {
      var r := rand(cursor) % nPoints;
      cursor' := cursor + 1;
      CopyChannels(centroids, c, data, r, cur, ps);
      assert cur[c := ps[r]] == done + [ps[r]] + ss[c + 1..];
    }
  }

  /**
   * The normalisation pass over the summed centroids `ss`: the result of
   * FlatSpec.NormalizeUpTo, and the index of the random call after it.
   */
  method Normalize(data: array<real>, nPoints: nat, centroids: array<real>, counts: array<nat>,
                   rand: nat -> nat, next: nat, ghost ps: seq<Pixel>, ghost ss: seq<Pixel>)
    returns (next': nat)
    requires centroids != data
    requires Stores(data[..], ps) && |ps| == nPoints >= 1 && |ss| == counts.Length
    requires Stores(centroids[..], ss)
    modifies centroids
    ensures var r := NormalizeUpTo(ps, ss, counts[..], rand, next, counts.Length);
      Stores(centroids[..], r.0) && next' == r.1
  {
    next' := next;
    ghost var ks := counts[..];
    for c := 0 to counts.Length
      invariant counts[..] == ks
      invariant Stores(centroids[..], NormalizeUpTo(ps, ss, ks, rand, next, c).0 + ss[c..])
      invariant next' == NormalizeUpTo(ps, ss, ks, rand, next, c).1
    {
      next' := NormalizeCluster(data, nPoints, centroids, counts, c, rand, next, next', ps, ss);
    }
    ghost var r := NormalizeUpTo(ps, ss, ks, rand, next, counts.Length);
    assert r.0 + ss[counts.Length..] == r.0;
  }

  /**
   * One iteration of `kmeans_c` from centroids `cs`: labelling, clearing,
   * summing and normalisation, as FlatSpec.IterationC; returns the index of
   * the next random call.
   */
  method IterationFlat(data: array<real>, nPoints: nat, centroids: array<real>, nClusters: nat,
                       labels: array<nat>, counts: array<nat>, rand: nat -> nat, next: nat,
                       ghost ps: seq<Pixel>, ghost cs: seq<Pixel>)
    returns (next': nat)
    requires centroids != data && labels != counts
    requires Stores(data[..], ps) && |ps| == nPoints == labels.Length && nPoints >= 1
    requires Stores(centroids[..], cs) && |cs| == nClusters == counts.Length && nClusters >= 1
    modifies centroids, labels, counts
    ensures var r := IterationC(ps, cs, rand, next);
      Stores(centroids[..], r.0) && labels[..] == r.1 && next' == r.2
  {
    AssignLabels(data, centroids, labels, nPoints, nClusters, ps, cs);
    NullCentroids(centroids, nClusters);
    NullCounts(counts);
    SumPoints(data, centroids, counts, labels, ps);
    ghost var ls := labels[..];
    next' := Normalize(data, nPoints, centroids, counts, rand, next, ps, Sums(ps, ls, nClusters));
  }

  /**
   * The random initialisation: centroid `c` becomes a copy of the point
   * picked by random call `c`.
   */
  method InitCentroidsFlat(data: array<real>, nPoints: nat, centroids: array<real>, nClusters: nat,
                           rand: nat -> nat, ghost ps: seq<Pixel>)
    requires centroids != data
    requires Stores(data[..], ps) && |ps| == nPoints >= 1 && centroids.Length == 3 * nClusters
    modifies centroids
    ensures Stores(centroids[..], InitCentroids(ps, rand, nClusters))
  {
    ghost var cur := Unflatten(centroids[..], nClusters);
    StoresUnflatten(centroids[..], nClusters);
    for c := 0 to nClusters
      invariant Stores(centroids[..], cur) && |cur| == nClusters
      invariant forall j :: 0 <= j < c ==> cur[j] == ps[rand(j) % nPoints]
    {
      CopyChannels(centroids, c, data, rand(c) % nPoints, cur, ps);
      cur := cur[c := ps[rand(c) % nPoints]];
    }
    assert cur == InitCentroids(ps, rand, nClusters);
  }

  /** The iteration loop of `kmeans_c`: exactly `maxIter` iterations, as FlatSpec.RunC. */
  method IterateFlat(data: array<real>, nPoints: nat, centroids: array<real>, nClusters: nat,
                     labels: array<nat>, counts: array<nat>, rand: nat -> nat, next: nat, maxIter: nat,
                     ghost ps: seq<Pixel>, ghost cs: seq<Pixel>)
    requires centroids != data && labels != counts
    requires Stores(data[..], ps) && |ps| == nPoints == labels.Length && nPoints >= 1
    requires Stores(centroids[..], cs) && |cs| == nClusters == counts.Length && nClusters >= 1
    modifies centroids, labels, counts
    ensures var r := RunC(ps, cs, old(labels[..]), rand, next, maxIter);
      Stores(centroids[..], r.0) && labels[..] == r.1
  {
    ghost var cur, res := cs, RunC(ps, cs, labels[..], rand, next, maxIter);
    var nxt := next;
    for iter := 0 to maxIter
      invariant Stores(data[..], ps) && Stores(centroids[..], cur) && |cur| == nClusters
      invariant RunC(ps, cur, labels[..], rand, nxt, maxIter - iter) == res
    {
      ghost var r := IterationC(ps, cur, rand, nxt);
      nxt := IterationFlat(data, nPoints, centroids, nClusters, labels, counts, rand, nxt, ps, cur);
      cur := r.0;
    }
  }

  /**
   * `kmeans_c` of c/src/kmeans_c.c: `nClusters` random initial centroids
   * (random calls `0 .. nClusters-1`), then exactly `maxIter` iterations. The
   * centroid buffer ends as the flat layout of FlatSpec.ClusterC's centroids,
   * the labels as its labels.
   */
  method KMeansFlat(data: array<real>, nPoints: nat, centroids: array<real>, nClusters: nat,
                    labels: array<nat>, rand: nat -> nat, maxIter: nat)
    requires nPoints >= 1 && nClusters >= 1
    requires data.Length == 3 * nPoints && centroids.Length == 3 * nClusters && labels.Length == nPoints
    requires data != centroids
    modifies centroids, labels
    ensures var r := ClusterC(Unflatten(data[..], nPoints), nClusters, old(labels[..]), rand, maxIter);
      centroids[..] == Flatten(r.0) && labels[..] == r.1
  {
    ghost var ps := Unflatten(data[..], nPoints);
    StoresUnflatten(data[..], nPoints);
    InitCentroidsFlat(data, nPoints, centroids, nClusters, rand, ps);
    var counts := new nat[nClusters](_ => 0);
    IterateFlat(data, nPoints, centroids, nClusters, labels, counts, rand, nClusters, maxIter,
                ps, InitCentroids(ps, rand, nClusters));
    StoresFlatten(centroids[..], ClusterC(ps, nClusters, old(labels[..]), rand, maxIter).0);
  }
}
