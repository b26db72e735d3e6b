/**
 * The in-place k-means of c/src/kmeans.c: `find_closest_centroid`, the
 * array-of-pixels engine `kmeans_c` (here KMeansStruct) and its OpenMP twin
 * `kmeans_omp` (here KMeansOmp, read sequentially), which keeps the cluster
 * sums in one flat buffer of `3 * n_centroids` reals.
 */
module KMeans {
  import opened Pixels
  import opened Clustering
  import opened KMeansSpec

  /**
   * The index of the nearest centroid, the first one on ties; with no
   * centroids at all the initial candidate 0 is returned.
   */
  method FindClosestCentroid(p: Pixel, centroids: array<Pixel>) returns (k: nat)
    ensures centroids.Length == 0 ==> k == 0
    ensures centroids.Length >= 1 ==> k == Closest(p, centroids[..])
  {
    k := 0;
    var minDist := 0.0;
    for i := 0 to centroids.Length
      invariant i == 0 ==> k == 0
      invariant i >= 1 ==> k == ClosestUpTo(p, centroids[..], i) && minDist == Dist(p, centroids[k])
    {
      var dist := Dist(p, centroids[i]);
      // the first candidate beats the DBL_MAX sentinel
      if i == 0 || dist < minDist {
        k := i;
        minDist := dist;
      }
    }
  }

  /**
   * One step of the assignment pass: pixel `i` is labelled with its nearest
   * centroid `want[i]` and added into that cluster's sum and count. Before the
   * step the first `i` labels are fresh and the rest are the old labels `ls0`,
   * and `done` tells whether none of the first `i` moved; afterwards the same
   * holds of the first `i + 1`.
   */
  method AssignPixel(pixels: array<Pixel>, centroids: array<Pixel>, labels: array<nat>,
                     sums: array<Pixel>, counts: array<nat>, i: nat, done: bool,
                     ghost ps: seq<Pixel>, ghost want: seq<nat>, ghost ls0: seq<nat>)
    returns (done': bool)
    requires i < pixels.Length == labels.Length == |ls0|
    requires 1 <= centroids.Length == sums.Length == counts.Length
    requires labels != counts && sums != pixels && sums != centroids
    requires pixels[..] == ps && want == Assign(ps, centroids[..])
    requires labels[..] == want[..i] + ls0[i..] && (done <==> want[..i] == ls0[..i])
    requires sums[..] == AccSums(ps, want, centroids.Length, i)
    requires counts[..] == AccCounts(want, centroids.Length, i)
    modifies labels, sums, counts
    ensures labels[..] == want[..i + 1] + ls0[i + 1..] && (done' <==> want[..i + 1] == ls0[..i + 1])
    ensures sums[..] == AccSums(ps, want, centroids.Length, i + 1)
    ensures counts[..] == AccCounts(want, centroids.Length, i + 1)
  {
    var pixel := pixels[i];
    var closest := FindClosestCentroid(pixel, centroids);
    AssignAt(ps, centroids[..], i);
    ghost var labels0 := labels[..];
    SpliceStep(want, ls0, i);
    done' := done;
    if closest != labels[i] {
      labels[i] := closest;
      done' := false;
    }
    assert labels[..] == labels0[i := want[i]];
    PrefixSnoc(want, ls0, i);
    AddToCluster(sums, counts, closest, pixel);
  }

  /** Adds pixel `p` into the sum and the count of cluster `c`. */
  method AddToCluster(sums: array<Pixel>, counts: array<nat>, c: nat, p: Pixel)
    requires c < sums.Length == counts.Length
    modifies sums, counts
    ensures sums[..] == old(sums[..])[c := Add(old(sums[c]), p)]
    ensures counts[..] == old(counts[..])[c := old(counts[c]) + 1]
  {
    sums[c] := Add(sums[c], p);
    counts[c] := counts[c] + 1;
  }

  /** Splicing entry `i` of `a` into `a[..i] + b[i..]` extends the prefix of `a` by one. */
  lemma SpliceStep(a: seq<nat>, b: seq<nat>, i: nat)
    requires i < |a| == |b|
    ensures (a[..i] + b[i..])[i] == b[i]
    ensures (a[..i] + b[i..])[i := a[i]] == a[..i + 1] + b[i + 1..]
  {
  }

  /** Two sequences agree on their first `i + 1` entries iff they agree on the first `i` and at `i`. */
  lemma PrefixSnoc(a: seq<nat>, b: seq<nat>, i: nat)
    requires i < |a| && i < |b|
    ensures a[..i + 1] == b[..i + 1] <==> a[..i] == b[..i] && a[i] == b[i]
  {
    assert a[..i + 1] == a[..i] + [a[i]] && b[..i + 1] == b[..i] + [b[i]];
    if a[..i + 1] == b[..i + 1] {
      assert a[..i] == a[..i + 1][..i] && b[..i] == b[..i + 1][..i];
    }
  }

  /**
   * The assignment pass, on zeroed accumulators: relabel every pixel with its
   * nearest centroid, report whether no label changed, and add each pixel into
   * the sum and count of its cluster.
   */
  method AssignPass(pixels: array<Pixel>, centroids: array<Pixel>, labels: array<nat>,
                    sums: array<Pixel>, counts: array<nat>) returns (done: bool)
    requires 1 <= centroids.Length <= pixels.Length == labels.Length
    requires sums.Length == counts.Length == centroids.Length
    requires labels != counts && sums != pixels && sums != centroids
    requires sums[..] == ZeroSums(sums.Length) && counts[..] == ZeroCounts(counts.Length)
    modifies labels, sums, counts
    ensures Mirrors(centroids, labels, sums, counts, AfterAssign(pixels[..], centroids[..]))
    ensures done <==> labels[..] == old(labels[..])
  {
    ghost var ps, cs, k := pixels[..], centroids[..], centroids.Length;
    ghost var want, ls0 := Assign(ps, cs), labels[..];
    done := true;
    for i := 0 to pixels.Length
      invariant pixels[..] == ps && centroids[..] == cs
      invariant labels[..] == want[..i] + ls0[i..] && (done <==> want[..i] == ls0[..i])
      invariant sums[..] == AccSums(ps, want, k, i) && counts[..] == AccCounts(want, k, i)
    {
      done := AssignPixel(pixels, centroids, labels, sums, counts, i, done, ps, want, ls0);
    }
    assert want[..|ps|] == want && ls0[..|ps|] == ls0 && ls0[|ps|..] == [];
    AccumulateIsSumsCounts(ps, want, k, |ps|);
    assert ps[..|ps|] == ps;
  }

  /** The scan for the largest cluster other than `i`: its index and its size. */
  method LargestCluster(counts: array<nat>, i: nat) returns (largest: nat, largestCount: nat)
    ensures largest == LargestUpTo(counts[..], i, counts.Length) && largestCount == LargestCount(counts[..], i, counts.Length)
  {
    largest, largestCount := 0, 0;
    for j := 0 to counts.Length
      invariant largest == LargestUpTo(counts[..], i, j) && largestCount == LargestCount(counts[..], i, j)
    {
      if j != i && counts[j] > largestCount {
        largest, largestCount := j, counts[j];
      }
    }
  }

  /** The scan for the pixel of `cluster` furthest from `centroid`: its index and its distance. */
  method FurthestPixel(pixels: array<Pixel>, labels: array<nat>, cluster: nat, centroid: Pixel)
    returns (furthest: nat, maxDist: real)
    requires labels.Length == pixels.Length
    ensures furthest == FurthestUpTo(pixels[..], labels[..], cluster, centroid, pixels.Length)
    ensures maxDist == MaxDistUpTo(pixels[..], labels[..], cluster, centroid, pixels.Length)
  {
    furthest, maxDist := 0, 0.0;
    for j := 0 to pixels.Length
      invariant furthest == FurthestUpTo(pixels[..], labels[..], cluster, centroid, j)
      invariant maxDist == MaxDistUpTo(pixels[..], labels[..], cluster, centroid, j)
    {
      if labels[j] == cluster {
        var dist := Dist(pixels[j], centroid);
        if dist > maxDist {
          furthest, maxDist := j, dist;
        }
      }
    }
  }

  /** The four arrays of the engine hold exactly the fields of `st`. */
  ghost predicate Mirrors(centroids: array<Pixel>, labels: array<nat>, sums: array<Pixel>, counts: array<nat>, st: State)
    reads centroids, labels, sums, counts
  {
    && centroids[..] == st.centroids
    && labels[..] == st.labels
    && sums[..] == st.sums
    && counts[..] == st.counts
  }

  /**
   * One step of the repair loop: when cluster `i` is empty, it takes over the
   * pixel of the largest other cluster that lies furthest from that cluster's
   * centroid, as its centroid, its label, its sum and a count of one.
   */
  method RepairCluster(pixels: array<Pixel>, centroids: array<Pixel>, labels: array<nat>,
                       sums: array<Pixel>, counts: array<nat>, i: nat,
                       ghost ps: seq<Pixel>, ghost st: State)
    requires labels != counts && sums != pixels && sums != centroids && centroids != pixels
    requires pixels[..] == ps && Mirrors(centroids, labels, sums, counts, st)
    requires Balanced(ps, st) && i < centroids.Length
    modifies centroids, labels, sums, counts
    ensures Mirrors(centroids, labels, sums, counts, RepairOne(ps, st, i))
  {
    if counts[i] == 0 {
      RepairOneUpdates(ps, st, i);
      var largest, _ := LargestCluster(counts, i);
      var centroid := centroids[largest];
      var furthest, _ := FurthestPixel(pixels, labels, largest, centroid);
      var replacement := pixels[furthest];
      centroids[i] := replacement;
      labels[furthest] := i;
      sums[i] := replacement;
      sums[largest] := Sub(sums[largest], replacement);
      counts[i] := 1;
      counts[largest] := counts[largest] - 1;
      assert centroids[..] == st.centroids[i := replacement];
      assert labels[..] == st.labels[furthest := i];
      assert sums[..] == st.sums[i := replacement][largest := Sub(st.sums[largest], replacement)];
      assert counts[..] == st.counts[i := 1][largest := st.counts[largest] - 1];
    }
  }

  /** The repair of empty clusters, visited in ascending order. */
  method RepairEmptyClusters(pixels: array<Pixel>, centroids: array<Pixel>, labels: array<nat>,
                             sums: array<Pixel>, counts: array<nat>, ghost ps: seq<Pixel>, ghost st: State)
    requires labels != counts && sums != pixels && sums != centroids && centroids != pixels
    requires pixels[..] == ps && Mirrors(centroids, labels, sums, counts, st) && Balanced(ps, st)
    modifies centroids, labels, sums, counts
    ensures Mirrors(centroids, labels, sums, counts, RepairUpTo(ps, st, |st.centroids|))
  {
    for i := 0 to centroids.Length
      invariant pixels[..] == ps
      invariant Mirrors(centroids, labels, sums, counts, RepairUpTo(ps, st, i))
    {
      RepairCluster(pixels, centroids, labels, sums, counts, i, ps, RepairUpTo(ps, st, i));
    }
  }

  /** Every centroid becomes the mean of its accumulated sum; the accumulators are cleared. */
  method AverageClusterSums(centroids: array<Pixel>, sums: array<Pixel>, counts: array<nat>)
    requires centroids.Length == sums.Length == counts.Length && sums != centroids
    requires forall j :: 0 <= j < counts.Length ==> counts[j] >= 1
    modifies centroids, sums, counts
    ensures centroids[..] == Average(old(sums[..]), old(counts[..]))
    ensures sums[..] == ZeroSums(sums.Length) && counts[..] == ZeroCounts(counts.Length)
  {
    ghost var sums0, counts0 := sums[..], counts[..];
    for j := 0 to counts.Length
      invariant forall c :: 0 <= c < j ==> centroids[c] == Div(sums0[c], counts0[c]) && sums[c] == Zero && counts[c] == 0
      invariant forall c :: j <= c < counts.Length ==> sums[c] == sums0[c] && counts[c] == counts0[c]
    {
      var count := counts[j];
      centroids[j] := Div(sums[j], count);
      sums[j] := Zero;
      counts[j] := 0;
    }
  }

  /**
   * One iteration of the engine on zeroed accumulators: assignment, repair and
   * averaging, reporting whether the assignment changed no label; the
   * accumulators are zeroed again afterwards.
   */
  method IterationStep(pixels: array<Pixel>, centroids: array<Pixel>, labels: array<nat>,
                       sums: array<Pixel>, counts: array<nat>) returns (done: bool)
    requires 1 <= centroids.Length <= pixels.Length == labels.Length
    requires sums.Length == counts.Length == centroids.Length
    requires labels != counts && sums != pixels && sums != centroids && centroids != pixels
    requires sums[..] == ZeroSums(sums.Length) && counts[..] == ZeroCounts(counts.Length)
    modifies centroids, labels, sums, counts
    ensures var r := Iteration(pixels[..], old(centroids[..]), old(labels[..]));
      centroids[..] == r.0 && labels[..] == r.1 && done == r.2
    ensures sums[..] == ZeroSums(sums.Length) && counts[..] == ZeroCounts(counts.Length)
  {
    ghost var ps, cs, ls := pixels[..], centroids[..], labels[..];
    done := AssignPass(pixels, centroids, labels, sums, counts);
    ghost var st := AfterAssign(ps, cs);
    RepairEmptyClusters(pixels, centroids, labels, sums, counts, ps, st);
    ghost var rep := Repaired(ps, cs);
    assert Mirrors(centroids, labels, sums, counts, rep);
    AverageClusterSums(centroids, sums, counts);
    assert labels[..] == rep.labels;
  }

  /**
   * The iteration loop of `kmeans_c`: at most `maxIter` iterations, leaving
   * after the first one whose assignment changed no label.
   */
  method Iterate(pixels: array<Pixel>, centroids: array<Pixel>, labels: array<nat>,
                 sums: array<Pixel>, counts: array<nat>, maxIter: nat)
    requires 1 <= centroids.Length <= pixels.Length == labels.Length
    requires sums.Length == counts.Length == centroids.Length
    requires labels != counts && sums != pixels && sums != centroids && centroids != pixels
    requires sums[..] == ZeroSums(sums.Length) && counts[..] == ZeroCounts(counts.Length)
    modifies centroids, labels, sums, counts
    ensures var r := Run(pixels[..], old(centroids[..]), old(labels[..]), maxIter);
      centroids[..] == r.0 && labels[..] == r.1
  {
    ghost var ps, res := pixels[..], Run(pixels[..], centroids[..], labels[..], maxIter);
    var iter := 0;
    while iter < maxIter
      invariant iter <= maxIter && pixels[..] == ps
      invariant sums[..] == ZeroSums(sums.Length) && counts[..] == ZeroCounts(counts.Length)
      invariant Run(ps, centroids[..], labels[..], maxIter - iter) == res
    {
      RunStep(ps, centroids[..], labels[..], maxIter - iter);
      var done := IterationStep(pixels, centroids, labels, sums, counts);
      if done {
        break;
      }
      iter := iter + 1;
    }
  }

  /**
   * `kmeans_c` of c/src/kmeans.c: random initial centroids, then at most
   * `maxIter` iterations of assignment, repair and averaging, stopping after
   * the first iteration whose assignment changed no label.
   */
  method KMeansStruct(pixels: array<Pixel>, centroids: array<Pixel>, labels: array<nat>,
                      rand: nat -> nat, maxIter: nat)
    requires 1 <= centroids.Length <= pixels.Length == labels.Length
    requires pixels != centroids
    modifies centroids, labels
    ensures var r := Cluster(pixels[..], centroids.Length, old(labels[..]), rand, maxIter);
      centroids[..] == r.0 && labels[..] == r.1
  {
    var n, k := pixels.Length, centroids.Length;
    var sums := new Pixel[k];
    var counts := new nat[k];
    for i := 0 to k
      invariant forall j :: 0 <= j < i ==> centroids[j] == pixels[rand(j) % n] && sums[j] == Zero && counts[j] == 0
      invariant labels[..] == old(labels[..])
    {
      centroids[i] := pixels[rand(i) % n];
      sums[i] := Zero;
      counts[i] := 0;
    }
    assert centroids[..] == InitCentroids(pixels[..], rand, k);
    Iterate(pixels, centroids, labels, sums, counts, maxIter);
  }
}
