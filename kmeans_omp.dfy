/**
 * `kmeans_omp` of c/src/kmeans.c, read sequentially. It runs the same four
 * phases as `kmeans_c` of the same file, but keeps the sum of cluster `c` in
 * one flat buffer of `3 * n_centroids` reals, at `sums[3*c]`, `sums[3*c+1]` and
 * `sums[3*c+2]`. Each phase is proved against the same functions of
 * KMeansSpec as its struct-layout counterpart, with `Stores` tying the flat
 * buffer to the per-cluster sums. So KMeansOmp and KMeans.KMeansStruct compute
 * the same centroids and labels from the same inputs and the same random
 * indices.
 */
module KMeansOmp {
  import opened Pixels
  import opened Clustering
  import opened KMeansSpec
  import KMeans

  /** The engine's arrays hold the fields of `st`; the flat buffer stores its sums. */
  ghost predicate FlatMirrors(centroids: array<Pixel>, labels: array<nat>, sums: array<real>, counts: array<nat>, st: State)
    reads centroids, labels, sums, counts
  {
    && centroids[..] == st.centroids
    && labels[..] == st.labels
    && Stores(sums[..], st.sums)
    && counts[..] == st.counts
  }

  /** Adds `p` into the flat slot `c`, one channel at a time. */
  method AddToSum(sums: array<real>, c: nat, p: Pixel, ghost ss: seq<Pixel>)
    requires Stores(sums[..], ss) && c < |ss|
    modifies sums
    ensures Stores(sums[..], ss[c := Add(ss[c], p)])
  {
    ghost var flat := sums[..];
    sums[3 * c] := sums[3 * c] + p.r;
    sums[3 * c + 1] := sums[3 * c + 1] + p.g;
    sums[3 * c + 2] := sums[3 * c + 2] + p.b;
    ghost var q := Add(ss[c], p);
    assert sums[..] == flat[3 * c := q.r][3 * c + 1 := q.g][3 * c + 2 := q.b];
    StoresUpdate(flat, ss, c, q);
  }

  /** Overwrites the flat slot `c` with `p`. */
  method SetSum(sums: array<real>, c: nat, p: Pixel, ghost ss: seq<Pixel>)
    requires Stores(sums[..], ss) && c < |ss|
    modifies sums
    ensures Stores(sums[..], ss[c := p])
  {
    ghost var flat := sums[..];
    sums[3 * c] := p.r;
    sums[3 * c + 1] := p.g;
    sums[3 * c + 2] := p.b;
    assert sums[..] == flat[3 * c := p.r][3 * c + 1 := p.g][3 * c + 2 := p.b];
    StoresUpdate(flat, ss, c, p);
  }

  /** Subtracts `p` from the flat slot `c`, one channel at a time. */
  method SubFromSum(sums: array<real>, c: nat, p: Pixel, ghost ss: seq<Pixel>)
    requires Stores(sums[..], ss) && c < |ss|
    modifies sums
    ensures Stores(sums[..], ss[c := Sub(ss[c], p)])
  {
    ghost var flat := sums[..];
    sums[3 * c] := sums[3 * c] - p.r;
    sums[3 * c + 1] := sums[3 * c + 1] - p.g;
    sums[3 * c + 2] := sums[3 * c + 2] - p.b;
    ghost var q := Sub(ss[c], p);
    assert sums[..] == flat[3 * c := q.r][3 * c + 1 := q.g][3 * c + 2 := q.b];
    StoresUpdate(flat, ss, c, q);
  }

  /**
   * One step of the assignment pass with flat sums, carrying the loop state
   * of AssignPassOmp from the first `i` pixels to the first `i + 1`.
   */
  method AssignPixelOmp(pixels: array<Pixel>, centroids: array<Pixel>, labels: array<nat>,
                        sums: array<real>, counts: array<nat>, i: nat, done: bool,
                        ghost ps: seq<Pixel>, ghost want: seq<nat>, ghost ls0: seq<nat>)
    returns (done': bool)
    requires i < pixels.Length == labels.Length == |ls0|
    requires 1 <= centroids.Length == counts.Length
    requires labels != counts
    requires pixels[..] == ps && want == Assign(ps, centroids[..])
    requires labels[..] == want[..i] + ls0[i..] && (done <==> want[..i] == ls0[..i])
    requires Stores(sums[..], AccSums(ps, want, centroids.Length, i))
    requires counts[..] == AccCounts(want, centroids.Length, i)
    modifies labels, sums, counts
    ensures labels[..] == want[..i + 1] + ls0[i + 1..] && (done' <==> want[..i + 1] == ls0[..i + 1])
    ensures Stores(sums[..], AccSums(ps, want, centroids.Length, i + 1))
    ensures counts[..] == AccCounts(want, centroids.Length, i + 1)
  {
    var pixel := pixels[i];
    var closest := KMeans.FindClosestCentroid(pixel, centroids);
    AssignAt(ps, centroids[..], i);
    ghost var labels0 := labels[..];
    KMeans.SpliceStep(want, ls0, i);
    done' := done;
    if closest != labels[i] {
      labels[i] := closest;
      done' := false;
    }
    assert labels[..] == labels0[i := want[i]];
    KMeans.PrefixSnoc(want, ls0, i);
    AddToSum(sums, closest, pixel, AccSums(ps, want, centroids.Length, i));
    IncrementCount(counts, closest);
  }

  /** Adds one to the size of cluster `c`. */
  method IncrementCount(counts: array<nat>, c: nat)
    requires c < counts.Length
    modifies counts
    ensures counts[..] == old(counts[..])[c := old(counts[c]) + 1]
  {
    counts[c] := counts[c] + 1;
  }

  /** The assignment pass on zeroed accumulators, with flat sums. */
  method AssignPassOmp(pixels: array<Pixel>, centroids: array<Pixel>, labels: array<nat>,
                       sums: array<real>, counts: array<nat>) returns (done: bool)
    requires 1 <= centroids.Length <= pixels.Length == labels.Length
    requires counts.Length == centroids.Length && labels != counts
    requires Stores(sums[..], ZeroSums(counts.Length)) && counts[..] == ZeroCounts(counts.Length)
    modifies labels, sums, counts
    ensures FlatMirrors(centroids, labels, sums, counts, AfterAssign(pixels[..], centroids[..]))
    ensures done <==> labels[..] == old(labels[..])
  {
    ghost var ps, cs, k := pixels[..], centroids[..], centroids.Length;
    ghost var want, ls0 := Assign(ps, cs), labels[..];
    done := true;
    for i := 0 to pixels.Length
      invariant pixels[..] == ps && centroids[..] == cs
      invariant labels[..] == want[..i] + ls0[i..] && (done <==> want[..i] == ls0[..i])
      invariant Stores(sums[..], AccSums(ps, want, k, i)) && counts[..] == AccCounts(want, k, i)
    {
      done := AssignPixelOmp(pixels, centroids, labels, sums, counts, i, done, ps, want, ls0);
    }
    assert want[..|ps|] == want && ls0[..|ps|] == ls0 && ls0[|ps|..] == [];
    AccumulateIsSumsCounts(ps, want, k, |ps|);
    assert ps[..|ps|] == ps;
  }

  /** One step of the repair loop, correcting the flat sums channel by channel. */
  method RepairClusterOmp(pixels: array<Pixel>, centroids: array<Pixel>, labels: array<nat>,
                          sums: array<real>, counts: array<nat>, i: nat,
                          ghost ps: seq<Pixel>, ghost st: State)
    requires labels != counts && centroids != pixels
    requires pixels[..] == ps && FlatMirrors(centroids, labels, sums, counts, st)
    requires Balanced(ps, st) && i < centroids.Length
    modifies centroids, labels, sums, counts
    ensures FlatMirrors(centroids, labels, sums, counts, RepairOne(ps, st, i))
  {
    if counts[i] == 0 {
      RepairOneUpdates(ps, st, i);
      var largest, _ := KMeans.LargestCluster(counts, i);
      var centroid := centroids[largest];
      var furthest, _ := KMeans.FurthestPixel(pixels, labels, largest, centroid);
      var replacement := pixels[furthest];
      centroids[i] := replacement;
      labels[furthest] := i;
      SetSum(sums, i, replacement, st.sums);
      SubFromSum(sums, largest, replacement, st.sums[i := replacement]);
      counts[i] := 1;
      counts[largest] := counts[largest] - 1;
      assert centroids[..] == st.centroids[i := replacement];
      assert labels[..] == st.labels[furthest := i];
      assert counts[..] == st.counts[i := 1][largest := st.counts[largest] - 1];
    }
  }

  /** The repair of empty clusters, in ascending order, with flat sums. */
  method RepairEmptyClustersOmp(pixels: array<Pixel>, centroids: array<Pixel>, labels: array<nat>,
                                sums: array<real>, counts: array<nat>, ghost ps: seq<Pixel>, ghost st: State)
    requires labels != counts && centroids != pixels
    requires pixels[..] == ps && FlatMirrors(centroids, labels, sums, counts, st) && Balanced(ps, st)
    modifies centroids, labels, sums, counts
    ensures FlatMirrors(centroids, labels, sums, counts, RepairUpTo(ps, st, |st.centroids|))
  {
    for i := 0 to centroids.Length
      invariant pixels[..] == ps
      invariant FlatMirrors(centroids, labels, sums, counts, RepairUpTo(ps, st, i))
    {
      RepairClusterOmp(pixels, centroids, labels, sums, counts, i, ps, RepairUpTo(ps, st, i));
    }
  }

  /**
   * One step of the averaging pass, at cluster `j`: its centroid becomes the
   * flat sum divided by the count, and its sum slot and count are cleared.
   */
  method AverageSlotOmp(centroids: array<Pixel>, sums: array<real>, counts: array<nat>, j: nat,
                        ghost ss: seq<Pixel>, ghost counts0: seq<nat>)
    requires j < centroids.Length == counts.Length == |ss| == |counts0|
    requires forall c :: 0 <= c < |counts0| ==> counts0[c] >= 1
    requires Stores(sums[..], ZeroSums(j) + ss[j..])
    requires forall c :: 0 <= c < j ==> centroids[c] == Div(ss[c], counts0[c]) && counts[c] == 0
    requires forall c :: j <= c < counts.Length ==> counts[c] == counts0[c]
    modifies centroids, sums, counts
    ensures Stores(sums[..], ZeroSums(j + 1) + ss[j + 1..])
    ensures forall c :: 0 <= c < j + 1 ==> centroids[c] == Div(ss[c], counts0[c]) && counts[c] == 0
    ensures forall c :: j + 1 <= c < counts.Length ==> counts[c] == counts0[c]
  {
    var count := counts[j];
    StoresChannel(sums[..], ZeroSums(j) + ss[j..], j, 0);
    StoresChannel(sums[..], ZeroSums(j) + ss[j..], j, 1);
    StoresChannel(sums[..], ZeroSums(j) + ss[j..], j, 2);
    centroids[j] := Pixel(sums[3 * j] / count as real, sums[3 * j + 1] / count as real, sums[3 * j + 2] / count as real);
    SetSum(sums, j, Zero, ZeroSums(j) + ss[j..]);
    assert (ZeroSums(j) + ss[j..])[j := Zero] == ZeroSums(j + 1) + ss[j + 1..];
    counts[j] := 0;
  }

  /** The averaging pass over flat sums holding `ss`, clearing the sums and counts behind it. */
  method AverageClusterSumsOmp(centroids: array<Pixel>, sums: array<real>, counts: array<nat>, ghost ss: seq<Pixel>)
    requires centroids.Length == counts.Length && Stores(sums[..], ss) && |ss| == counts.Length
    requires forall j :: 0 <= j < counts.Length ==> counts[j] >= 1
    modifies centroids, sums, counts
    ensures centroids[..] == Average(ss, old(counts[..]))
    ensures Stores(sums[..], ZeroSums(counts.Length)) && counts[..] == ZeroCounts(counts.Length)
  {
    ghost var counts0 := counts[..];
    assert ZeroSums(0) + ss[0..] == ss;
    for j := 0 to counts.Length
      invariant Stores(sums[..], ZeroSums(j) + ss[j..])
      invariant forall c :: 0 <= c < j ==> centroids[c] == Div(ss[c], counts0[c]) && counts[c] == 0
      invariant forall c :: j <= c < counts.Length ==> counts[c] == counts0[c]
    {
      AverageSlotOmp(centroids, sums, counts, j, ss, counts0);
    }
    assert ZeroSums(counts.Length) + ss[counts.Length..] == ZeroSums(counts.Length);
  }

  /** One iteration of `kmeans_omp` on zeroed accumulators. */
  method IterationStepOmp(pixels: array<Pixel>, centroids: array<Pixel>, labels: array<nat>,
                          sums: array<real>, counts: array<nat>) returns (done: bool)
    requires 1 <= centroids.Length <= pixels.Length == labels.Length
    requires counts.Length == centroids.Length
    requires labels != counts && centroids != pixels
    requires Stores(sums[..], ZeroSums(counts.Length)) && counts[..] == ZeroCounts(counts.Length)
    modifies centroids, labels, sums, counts
    ensures var r := Iteration(pixels[..], old(centroids[..]), old(labels[..]));
      centroids[..] == r.0 && labels[..] == r.1 && done == r.2
    ensures Stores(sums[..], ZeroSums(counts.Length)) && counts[..] == ZeroCounts(counts.Length)
  {
    ghost var ps, cs, ls := pixels[..], centroids[..], labels[..];
    done := AssignPassOmp(pixels, centroids, labels, sums, counts);
    ghost var st := AfterAssign(ps, cs);
    RepairEmptyClustersOmp(pixels, centroids, labels, sums, counts, ps, st);
    ghost var rep := Repaired(ps, cs);
    assert FlatMirrors(centroids, labels, sums, counts, rep);
    AverageClusterSumsOmp(centroids, sums, counts, rep.sums);
    assert labels[..] == rep.labels;
  }

  /** The iteration loop of `kmeans_omp`: at most `maxIter` iterations, with the same early exit. */
  method IterateOmp(pixels: array<Pixel>, centroids: array<Pixel>, labels: array<nat>,
                    sums: array<real>, counts: array<nat>, maxIter: nat)
    requires 1 <= centroids.Length <= pixels.Length == labels.Length
    requires counts.Length == centroids.Length
    requires labels != counts && centroids != pixels
    requires Stores(sums[..], ZeroSums(counts.Length)) && counts[..] == ZeroCounts(counts.Length)
    modifies centroids, labels, sums, counts
    ensures var r := Run(pixels[..], old(centroids[..]), old(labels[..]), maxIter);
      centroids[..] == r.0 && labels[..] == r.1
  {
    ghost var ps, res := pixels[..], Run(pixels[..], centroids[..], labels[..], maxIter);
    var iter := 0;
    while iter < maxIter
      invariant iter <= maxIter && pixels[..] == ps
      invariant Stores(sums[..], ZeroSums(counts.Length)) && counts[..] == ZeroCounts(counts.Length)
      invariant Run(ps, centroids[..], labels[..], maxIter - iter) == res
    {
      RunStep(ps, centroids[..], labels[..], maxIter - iter);
      var done := IterationStepOmp(pixels, centroids, labels, sums, counts);
      if done {
        break;
      }
      iter := iter + 1;
    }
  }

  /**
   * The random initialisation of `kmeans_omp`: centroid `i` becomes the pixel
   * picked by random call `i`, and its flat sum slot and its count are cleared.
   */
  method InitOmp(pixels: array<Pixel>, centroids: array<Pixel>, sums: array<real>, counts: array<nat>,
                 rand: nat -> nat)
    requires 1 <= pixels.Length && pixels != centroids
    requires centroids.Length == counts.Length && sums.Length == 3 * counts.Length
    modifies centroids, sums, counts
    ensures centroids[..] == InitCentroids(pixels[..], rand, centroids.Length)
    ensures Stores(sums[..], ZeroSums(counts.Length)) && counts[..] == ZeroCounts(counts.Length)
  {
    var n := pixels.Length;
    for i := 0 to centroids.Length
      invariant forall j :: 0 <= j < i ==> centroids[j] == pixels[rand(j) % n] && counts[j] == 0
      invariant forall j :: 0 <= j < 3 * i ==> sums[j] == 0.0
    {
      centroids[i] := pixels[rand(i) % n];
      sums[3 * i], sums[3 * i + 1], sums[3 * i + 2] := 0.0, 0.0, 0.0;
      counts[i] := 0;
    }
    assert centroids[..] == InitCentroids(pixels[..], rand, centroids.Length);
    assert Stores(sums[..], ZeroSums(counts.Length));
  }

  /**
   * `kmeans_omp`: random initial centroids and cleared flat sums, then the
   * loop of `kmeans_c`. It computes the same centroids and labels as
   * KMeans.KMeansStruct.
   */
  method KMeansOmp(pixels: array<Pixel>, centroids: array<Pixel>, labels: array<nat>,
                   rand: nat -> nat, maxIter: nat)
    requires 1 <= centroids.Length <= pixels.Length == labels.Length
    requires pixels != centroids
    modifies centroids, labels
    ensures var r := Cluster(pixels[..], centroids.Length, old(labels[..]), rand, maxIter);
      centroids[..] == r.0 && labels[..] == r.1
  {
    var k := centroids.Length;
    var sums := new real[3 * k];
    var counts := new nat[k];
    InitOmp(pixels, centroids, sums, counts, rand);
    IterateOmp(pixels, centroids, labels, sums, counts, maxIter);
  }
}
