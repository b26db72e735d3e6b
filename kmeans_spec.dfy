/**
 * The behaviour of one run of `kmeans_c` / `kmeans_omp` in c/src/kmeans.c,
 * written as functions on values. Each iteration runs four phases: the
 * assignment pass, the repair of empty clusters, the averaging of the
 * accumulated sums, and the early exit when no label changed.
 */
module KMeansSpec {
  import opened Pixels
  import opened Clustering

  /** The engine's state inside an iteration: centroids, labels and the accumulators. */
  datatype State = State(centroids: seq<Pixel>, labels: seq<nat>, sums: seq<Pixel>, counts: seq<nat>)

  /**
   * Well-shaped state of a run with `1 <= K <= N`: every label names a
   * cluster, and the cluster sizes add up to the number of points.
   */
  predicate Balanced(ps: seq<Pixel>, st: State) {
    && 1 <= |st.centroids| <= |ps|
    && |st.sums| == |st.counts| == |st.centroids|
    && |st.labels| == |ps|
    && (forall m :: 0 <= m < |st.labels| ==> st.labels[m] < |st.centroids|)
    && Total(st.counts) == |ps|
  }

  /** The accumulators hold exactly the sizes and sums of the clusters the labels describe. */
  predicate Agrees(ps: seq<Pixel>, st: State) {
    && Balanced(ps, st)
    && (forall c :: 0 <= c < |st.counts| ==> st.counts[c] == CountLabel(st.labels, c))
    && (forall c :: 0 <= c < |st.sums| ==> st.sums[c] == SumLabel(ps, st.labels, c))
  }

  /** The state after an assignment pass that started from zeroed accumulators. */
  function AfterAssign(ps: seq<Pixel>, cs: seq<Pixel>): (st: State)
    requires 1 <= |cs| <= |ps|
    ensures Agrees(ps, st) && st.centroids == cs
  {
    var ls := Assign(ps, cs);
    CountsTotal(ls, |cs|);
    State(cs, ls, Sums(ps, ls, |cs|), Counts(ls, |cs|))
  }

  // ---------------------------------------------------------------------------
  // Empty-cluster repair

  /**
   * The scan for the largest cluster other than `i` over clusters `0 .. n-1`
   * keeps a candidate (largest_cluster) and its size (largest_cluster_count),
   * starting from 0 and 0 and replaced only on a strictly larger count.
   * LargestCount is the size it holds, LargestUpTo the candidate.
   */
  function LargestCount(counts: seq<nat>, i: nat, n: nat): nat
    requires n <= |counts|
  {
    if n == 0 then 0
    else
      var c := LargestCount(counts, i, n - 1);
      if n - 1 != i && counts[n - 1] > c then counts[n - 1] else c
  }

  function LargestUpTo(counts: seq<nat>, i: nat, n: nat): (d: nat)
    requires n <= |counts|
    ensures d < n || d == 0
  {
    if n == 0 then 0
    else if n - 1 != i && counts[n - 1] > LargestCount(counts, i, n - 1) then n - 1
    else LargestUpTo(counts, i, n - 1)
  }

  /** `d` is the lowest-index cluster other than `i` of maximal size. */
  predicate IsLargestOther(counts: seq<nat>, i: nat, d: nat) {
    && d < |counts| && d != i
    && (forall j :: 0 <= j < |counts| && j != i ==> counts[j] <= counts[d])
    && (forall j :: 0 <= j < d && j != i ==> counts[j] < counts[d])
  }

  lemma {:induction false} LargestUpToSpec(counts: seq<nat>, i: nat, n: nat)
    requires n <= |counts|
    ensures var d, c := LargestUpTo(counts, i, n), LargestCount(counts, i, n);
      && (c == 0 ==> d == 0)
      && (c > 0 ==> d < n && d != i && counts[d] == c)
      && (forall j :: 0 <= j < n && j != i ==> counts[j] <= c)
      && (forall j :: 0 <= j < d && j != i ==> counts[j] < c)
  {
    if n > 0 {
      LargestUpToSpec(counts, i, n - 1);
    }
  }

  /** The donor the scan picks is the lowest-index largest cluster other than `i`, when one is non-empty. */
  lemma DonorIsLargest(counts: seq<nat>, i: nat, j: nat)
    requires j < |counts| && j != i && counts[j] > 0
    ensures IsLargestOther(counts, i, LargestUpTo(counts, i, |counts|))
    ensures LargestCount(counts, i, |counts|) == counts[LargestUpTo(counts, i, |counts|)]
  {
    LargestUpToSpec(counts, i, |counts|);
  }

  lemma {:induction false} TotalOfOnes(xs: seq<nat>, i: nat)
    requires i < |xs| && xs[i] == 0
    requires forall j :: 0 <= j < |xs| && j != i ==> xs[j] <= 1
    ensures Total(xs) < |xs|
  {
    var init := xs[..|xs| - 1];
    if i < |xs| - 1 {
      TotalOfOnes(init, i);
    } else {
      TotalAtMost(init);
    }
  }

  lemma {:induction false} TotalAtMost(xs: seq<nat>)
    requires forall j :: 0 <= j < |xs| ==> xs[j] <= 1
    ensures Total(xs) <= |xs|
  {
    if xs != [] {
      TotalAtMost(xs[..|xs| - 1]);
    }
  }

  /**
   * Pigeonhole: with K <= N points spread over K clusters and cluster `i`
   * empty, the donor is another cluster and holds at least two points.
   */
  lemma Pigeonhole(counts: seq<nat>, i: nat, n: nat)
    requires i < |counts| <= n && counts[i] == 0 && Total(counts) == n
    ensures LargestUpTo(counts, i, |counts|) != i
    ensures counts[LargestUpTo(counts, i, |counts|)] == LargestCount(counts, i, |counts|) >= 2
  {
    LargestUpToSpec(counts, i, |counts|);
    if LargestCount(counts, i, |counts|) <= 1 {
      TotalOfOnes(counts, i);
      assert false;
    }
  }

  /**
   * The scan for the point of cluster `donor` furthest from `cen` over points
   * `0 .. n-1` keeps a candidate (furthest_pixel) and its distance (max_dist),
   * starting from 0 and 0.0 and replaced only on a strictly larger distance.
   * MaxDistUpTo is the distance it holds, FurthestUpTo the candidate.
   */
  function MaxDistUpTo(ps: seq<Pixel>, ls: seq<nat>, donor: nat, cen: Pixel, n: nat): real
    requires n <= |ps| == |ls|
  {
    if n == 0 then 0.0
    else
      var m := MaxDistUpTo(ps, ls, donor, cen, n - 1);
      var d := Dist(ps[n - 1], cen);
      if ls[n - 1] == donor && d > m then d else m
  }

  function FurthestUpTo(ps: seq<Pixel>, ls: seq<nat>, donor: nat, cen: Pixel, n: nat): (f: nat)
    requires n <= |ps| == |ls|
    ensures f < n || f == 0
  {
    if n == 0 then 0
    else if ls[n - 1] == donor && Dist(ps[n - 1], cen) > MaxDistUpTo(ps, ls, donor, cen, n - 1) then n - 1
    else FurthestUpTo(ps, ls, donor, cen, n - 1)
  }

  lemma {:induction false} FurthestUpToSpec(ps: seq<Pixel>, ls: seq<nat>, donor: nat, cen: Pixel, n: nat)
    requires n <= |ps| == |ls|
    ensures var f, m := FurthestUpTo(ps, ls, donor, cen, n), MaxDistUpTo(ps, ls, donor, cen, n);
      && m >= 0.0
      && (m == 0.0 ==> f == 0)
      && (m > 0.0 ==> f < n && ls[f] == donor && m == Dist(ps[f], cen))
      && (forall j :: 0 <= j < n && ls[j] == donor ==> Dist(ps[j], cen) <= m)
      && (forall j :: 0 <= j < f && ls[j] == donor ==> Dist(ps[j], cen) < m)
  {
    if n > 0 {
      FurthestUpToSpec(ps, ls, donor, cen, n - 1);
    }
  }

  /** The cluster that gives a point to the empty cluster `i`. */
  function Donor(st: State, i: nat): (d: nat)
    requires |st.counts| >= 1
    ensures d < |st.counts|
  {
    LargestUpTo(st.counts, i, |st.counts|)
  }

  /** The point moved into the empty cluster `i`. */
  function Moved(ps: seq<Pixel>, st: State, i: nat): (m: nat)
    requires 1 <= |st.counts| <= |st.centroids| && 1 <= |ps| == |st.labels|
    ensures m < |ps|
  {
    var d := Donor(st, i);
    FurthestUpTo(ps, st.labels, d, st.centroids[d], |ps|)
  }

  /**
   * The point moved out of the donor really belongs to the donor exactly when
   * some member lies at a positive distance from the donor's centroid, or
   * point 0 happens to be a member: otherwise point 0 is moved whatever its label.
   */
  lemma MovedIsMemberIff(ps: seq<Pixel>, st: State, i: nat)
    requires 1 <= |st.counts| <= |st.centroids| && 1 <= |ps| == |st.labels|
    ensures var d := Donor(st, i);
      st.labels[Moved(ps, st, i)] == d <==>
        (st.labels[0] == d || exists j :: 0 <= j < |ps| && st.labels[j] == d && Dist(ps[j], st.centroids[d]) > 0.0)
  {
    var d := Donor(st, i);
    FurthestUpToSpec(ps, st.labels, d, st.centroids[d], |ps|);
  }

  /**
   * One step of the repair loop, for cluster `i`: an empty cluster takes the
   * furthest point of the largest other cluster as its centroid, its label,
   * its sum and a count of one, and the donor's sum and count give it up.
   */
  function RepairOne(ps: seq<Pixel>, st: State, i: nat): (r: State)
    requires Balanced(ps, st) && i < |st.centroids|
    ensures Balanced(ps, r) && |r.centroids| == |st.centroids|
  {
    if st.counts[i] != 0 then st
    else
      Pigeonhole(st.counts, i, |ps|);
      var d := Donor(st, i);
      var m := Moved(ps, st, i);
      var p := ps[m];
      var sums := st.sums[i := p];
      var counts := st.counts[i := 1];
      TotalUpdate(st.counts, i, 1);
      TotalUpdate(counts, d, counts[d] - 1);
      State(st.centroids[i := p], st.labels[m := i], sums[d := Sub(sums[d], p)], counts[d := counts[d] - 1])
  }

  /** The repair loop after visiting clusters `0 .. n-1` in ascending order. */
  function RepairUpTo(ps: seq<Pixel>, st: State, n: nat): (r: State)
    requires Balanced(ps, st) && n <= |st.centroids|
    ensures Balanced(ps, r) && |r.centroids| == |st.centroids|
  {
    if n == 0 then st else RepairOne(ps, RepairUpTo(ps, st, n - 1), n - 1)
  }

  /** A repair step leaves cluster `i` non-empty and empties no cluster. */
  lemma RepairOneFills(ps: seq<Pixel>, st: State, i: nat)
    requires Balanced(ps, st) && i < |st.centroids|
    ensures RepairOne(ps, st, i).counts[i] >= 1
    ensures forall j :: 0 <= j < |st.counts| && st.counts[j] >= 1 ==> RepairOne(ps, st, i).counts[j] >= 1
  {
    if st.counts[i] == 0 {
      Pigeonhole(st.counts, i, |ps|);
    }
  }

  /** After visiting clusters `0 .. n-1`, none of them is empty, and no cluster was emptied. */
  lemma {:induction false} RepairUpToFills(ps: seq<Pixel>, st: State, n: nat)
    requires Balanced(ps, st) && n <= |st.centroids|
    ensures forall j :: 0 <= j < n ==> RepairUpTo(ps, st, n).counts[j] >= 1
    ensures forall j :: 0 <= j < |st.counts| && st.counts[j] >= 1 ==> RepairUpTo(ps, st, n).counts[j] >= 1
  {
    if n > 0 {
      RepairUpToFills(ps, st, n - 1);
      RepairOneFills(ps, RepairUpTo(ps, st, n - 1), n - 1);
    }
  }

  /** What one repair step does to an empty cluster `i`. */
  lemma RepairOneEmpty(ps: seq<Pixel>, st: State, i: nat)
    requires Balanced(ps, st) && i < |st.centroids| && st.counts[i] == 0
    ensures var r := RepairOne(ps, st, i);
      var d := Donor(st, i);
      var m := Moved(ps, st, i);
      && IsLargestOther(st.counts, i, d) && st.counts[d] >= 2
      && r.counts[i] == 1 && r.counts[d] == st.counts[d] - 1 >= 1
      && r.labels == st.labels[m := i]
      && r.centroids[i] == ps[m] && r.sums[i] == ps[m]
      && (forall j :: 0 <= j < |st.centroids| && j != i ==> r.centroids[j] == st.centroids[j])
      && (forall j :: 0 <= j < |st.counts| && j != i && j != d ==> r.counts[j] == st.counts[j] && r.sums[j] == st.sums[j])
  {
    Pigeonhole(st.counts, i, |ps|);
    DonorIsLargest(st.counts, i, Donor(st, i));
  }

  /** The repair step for an empty cluster `i`, written as the updates the repair loop performs. */
  lemma RepairOneUpdates(ps: seq<Pixel>, st: State, i: nat)
    requires Balanced(ps, st) && i < |st.centroids| && st.counts[i] == 0
    ensures var d, m := Donor(st, i), Moved(ps, st, i);
      && d != i && st.counts[d] >= 2
      && RepairOne(ps, st, i) == State(st.centroids[i := ps[m]], st.labels[m := i],
                                       st.sums[i := ps[m]][d := Sub(st.sums[d], ps[m])],
                                       st.counts[i := 1][d := st.counts[d] - 1])
  {
    Pigeonhole(st.counts, i, |ps|);
  }

  /** The repair step takes the point it moves from the donor's cluster. */
  predicate MovesMember(ps: seq<Pixel>, st: State, i: nat)
    requires Balanced(ps, st) && i < |st.centroids|
  {
    st.counts[i] != 0 || st.labels[Moved(ps, st, i)] == Donor(st, i)
  }

  /** When the moved point is a member of the donor, the accumulators still agree with the labels. */
  lemma RepairOneAgrees(ps: seq<Pixel>, st: State, i: nat, r: State)
    requires Agrees(ps, st) && i < |st.centroids| && MovesMember(ps, st, i)
    requires r == RepairOne(ps, st, i)
    ensures Agrees(ps, r)
  {
    if st.counts[i] == 0 {
      var k := |st.centroids|;
      var d, m := Donor(st, i), Moved(ps, st, i);
      Pigeonhole(st.counts, i, |ps|);
      assert st.labels[m] == d && d != i;
      assert CountLabel(st.labels, i) == 0;
      EmptySum(ps, st.labels, i);
      forall c | 0 <= c < k
        ensures r.counts[c] == CountLabel(r.labels, c) && r.sums[c] == SumLabel(ps, r.labels, c)
      {
        CountMove(st.labels, m, i, c);
        SumMove(ps, st.labels, m, i, c);
      }
    }
  }

  /** Step `j` of the repair loop started from `st` moves a member of its donor. */
  predicate StepMovesMember(ps: seq<Pixel>, st: State, j: nat)
    requires Balanced(ps, st) && j < |st.centroids|
  {
    MovesMember(ps, RepairUpTo(ps, st, j), j)
  }

  /** The repair loop keeps the accumulators in agreement as long as every step moves a member. */
  lemma {:induction false} RepairUpToAgrees(ps: seq<Pixel>, st: State, n: nat)
    requires Agrees(ps, st) && n <= |st.centroids|
    requires forall j :: 0 <= j < n ==> StepMovesMember(ps, st, j)
    ensures Agrees(ps, RepairUpTo(ps, st, n))
  {
    if n > 0 {
      RepairUpToAgrees(ps, st, n - 1);
      RepairStepAgrees(ps, st, n);
    }
  }

  lemma RepairStepAgrees(ps: seq<Pixel>, st: State, n: nat)
    requires Balanced(ps, st) && 1 <= n <= |st.centroids|
    requires Agrees(ps, RepairUpTo(ps, st, n - 1)) && StepMovesMember(ps, st, n - 1)
    ensures Agrees(ps, RepairUpTo(ps, st, n))
  {
    var prev, r := RepairUpToLast(ps, st, n);
    RepairOneAgrees(ps, prev, n - 1, r);
  }

  /** The last step of the repair loop, with the states before and after it named. */
  lemma RepairUpToLast(ps: seq<Pixel>, st: State, n: nat) returns (prev: State, r: State)
    requires Balanced(ps, st) && 1 <= n <= |st.centroids|
    ensures prev == RepairUpTo(ps, st, n - 1) && r == RepairUpTo(ps, st, n)
    ensures Balanced(ps, prev) && n - 1 < |prev.centroids| && r == RepairOne(ps, prev, n - 1)
  {
    prev, r := RepairUpTo(ps, st, n - 1), RepairUpTo(ps, st, n);
  }

  /** Clusters that are all non-empty are left alone by the repair loop. */
  lemma {:induction false} RepairUpToNoEmpty(ps: seq<Pixel>, st: State, n: nat)
    requires Balanced(ps, st) && n <= |st.centroids|
    requires forall j :: 0 <= j < |st.counts| ==> st.counts[j] >= 1
    ensures RepairUpTo(ps, st, n) == st
  {
    if n > 0 {
      RepairUpToNoEmpty(ps, st, n - 1);
    }
  }

  // ---------------------------------------------------------------------------
  // Averaging, one iteration, the whole run

  /** Each centroid becomes its accumulated sum divided by its count. */
  function Average(sums: seq<Pixel>, counts: seq<nat>): (cs: seq<Pixel>)
    requires |sums| == |counts|
    requires forall j :: 0 <= j < |counts| ==> counts[j] >= 1
    ensures |cs| == |counts|
  {
    seq(|counts|, j requires 0 <= j < |counts| => Div(sums[j], counts[j]))
  }

  /** The empty-cluster repair of an iteration, after the assignment pass against `cs`. */
  function Repaired(ps: seq<Pixel>, cs: seq<Pixel>): (st: State)
    requires 1 <= |cs| <= |ps|
    ensures Balanced(ps, st) && |st.centroids| == |cs|
    ensures forall j :: 0 <= j < |cs| ==> st.counts[j] >= 1
  {
    RepairUpToFills(ps, AfterAssign(ps, cs), |cs|);
    RepairUpTo(ps, AfterAssign(ps, cs), |cs|)
  }

  /**
   * One iteration from centroids `cs` and labels `ls`: the new centroids, the
   * new labels, and whether the assignment pass left every label as it was.
   */
  function Iteration(ps: seq<Pixel>, cs: seq<Pixel>, ls: seq<nat>): (r: (seq<Pixel>, seq<nat>, bool))
    requires 1 <= |cs| <= |ps|
    ensures |r.0| == |cs| && |r.1| == |ps|
    ensures forall m :: 0 <= m < |ps| ==> r.1[m] < |cs|
  {
    var st := Repaired(ps, cs);
    (Average(st.sums, st.counts), st.labels, Assign(ps, cs) == ls)
  }

  /** Up to `fuel` iterations, stopping after the first one whose assignment changed no label. */
  function Run(ps: seq<Pixel>, cs: seq<Pixel>, ls: seq<nat>, fuel: nat): (r: (seq<Pixel>, seq<nat>))
    requires 1 <= |cs| <= |ps|
    ensures |r.0| == |cs|
    decreases fuel
  {
    if fuel == 0 then (cs, ls)
    else
      var r := Iteration(ps, cs, ls);
      if r.2 then (r.0, r.1) else Run(ps, r.0, r.1, fuel - 1)
  }

  /** A run with fuel left is one iteration followed, unless it changed no label, by the rest of the run. */
  lemma RunStep(ps: seq<Pixel>, cs: seq<Pixel>, ls: seq<nat>, fuel: nat)
    requires 1 <= |cs| <= |ps| && fuel >= 1
    ensures var r := Iteration(ps, cs, ls);
      Run(ps, cs, ls, fuel) == if r.2 then (r.0, r.1) else Run(ps, r.0, r.1, fuel - 1)
  {
  }

  /** A whole run: random initial centroids, then at most `maxIter` iterations. */
  function Cluster(ps: seq<Pixel>, k: nat, ls: seq<nat>, rand: nat -> nat, maxIter: nat): (r: (seq<Pixel>, seq<nat>))
    requires 1 <= k <= |ps|
  {
    Run(ps, InitCentroids(ps, rand, k), ls, maxIter)
  }

  // ---------------------------------------------------------------------------
  // Properties of an iteration and of a run

  /**
   * When every repair step moves a member of its donor, each new centroid is
   * the mean of the points that carry its label, and no cluster is empty.
   */
  predicate RepairMovesMembers(ps: seq<Pixel>, cs: seq<Pixel>)
    requires 1 <= |cs| <= |ps|
  {
    forall j :: 0 <= j < |cs| ==> StepMovesMember(ps, AfterAssign(ps, cs), j)
  }

  lemma IterationMeans(ps: seq<Pixel>, cs: seq<Pixel>, ls: seq<nat>)
    requires 1 <= |cs| <= |ps| && RepairMovesMembers(ps, cs)
    ensures var r := Iteration(ps, cs, ls);
      forall c :: 0 <= c < |cs| ==> CountLabel(r.1, c) >= 1 && r.0[c] == Mean(ps, r.1, c)
  {
    RepairUpToAgrees(ps, AfterAssign(ps, cs), |cs|);
  }

  /** If the assignment leaves no cluster empty, the repair loop does nothing and the centroids become means. */
  lemma NoEmptyClusterMeans(ps: seq<Pixel>, cs: seq<Pixel>, ls: seq<nat>)
    requires 1 <= |cs| <= |ps|
    requires forall c :: 0 <= c < |cs| ==> CountLabel(Assign(ps, cs), c) >= 1
    ensures Iteration(ps, cs, ls).1 == Assign(ps, cs)
    ensures forall c :: 0 <= c < |cs| ==> Iteration(ps, cs, ls).0[c] == Mean(ps, Assign(ps, cs), c)
  {
    RepairUpToNoEmpty(ps, AfterAssign(ps, cs), |cs|);
  }

  /** With one cluster, every point is labelled 0 and the centroid becomes the mean of all points. */
  lemma SingleClusterMean(ps: seq<Pixel>, cs: seq<Pixel>, ls: seq<nat>)
    requires |cs| == 1 <= |ps|
    ensures var r := Iteration(ps, cs, ls);
      && (forall m :: 0 <= m < |ps| ==> r.1[m] == 0)
      && CountLabel(r.1, 0) == |ps|
      && r.0 == [Mean(ps, r.1, 0)]
  {
    var st := AfterAssign(ps, cs);
    assert Total(st.counts) == st.counts[0] by {
      assert st.counts[..0] == [];
    }
    NoEmptyClusterMeans(ps, cs, ls);
  }

  /**
   * A fixed point: when the assignment reproduces the labels, no cluster is
   * empty and each centroid is already the mean of its cluster, an iteration
   * reports no change and leaves the centroids unchanged, so a run stops at once.
   */
  lemma StableIteration(ps: seq<Pixel>, cs: seq<Pixel>, ls: seq<nat>)
    requires 1 <= |cs| <= |ps| && Assign(ps, cs) == ls
    requires forall c :: 0 <= c < |cs| ==> CountLabel(ls, c) >= 1 && cs[c] == Mean(ps, ls, c)
    ensures Iteration(ps, cs, ls) == (cs, ls, true)
  {
    NoEmptyClusterMeans(ps, cs, ls);
    var r := Iteration(ps, cs, ls);
    assert r.0 == cs;
  }

  lemma StableRun(ps: seq<Pixel>, cs: seq<Pixel>, ls: seq<nat>, fuel: nat)
    requires 1 <= |cs| <= |ps| && Assign(ps, cs) == ls
    requires forall c :: 0 <= c < |cs| ==> CountLabel(ls, c) >= 1 && cs[c] == Mean(ps, ls, c)
    ensures Run(ps, cs, ls, fuel) == (cs, ls)
  {
    if fuel > 0 {
      StableIteration(ps, cs, ls);
    }
  }

  /** After at least one iteration every label names a cluster. */
  lemma {:induction false} RunLabelsInRange(ps: seq<Pixel>, cs: seq<Pixel>, ls: seq<nat>, fuel: nat)
    requires 1 <= |cs| <= |ps| && fuel >= 1
    ensures |Run(ps, cs, ls, fuel).1| == |ps|
    decreases fuel
    ensures forall m :: 0 <= m < |ps| ==> Run(ps, cs, ls, fuel).1[m] < |cs|
  {
    var (cs', ls', done) := Iteration(ps, cs, ls);
    if !done && fuel > 1 {
      RunLabelsInRange(ps, cs', ls', fuel - 1);
    }
  }

  /** With as many clusters as points and no cluster empty, every cluster holds exactly one point. */
  lemma {:induction false} AllSingletons(xs: seq<nat>)
    requires Total(xs) == |xs|
    requires forall j :: 0 <= j < |xs| ==> xs[j] >= 1
    ensures forall j :: 0 <= j < |xs| ==> xs[j] == 1
  {
    if xs != [] {
      var init := xs[..|xs| - 1];
      AtLeastLength(init);
      AllSingletons(init);
      assert forall j :: 0 <= j < |xs| - 1 ==> xs[j] == init[j];
    }
  }

  lemma {:induction false} AtLeastLength(xs: seq<nat>)
    requires forall j :: 0 <= j < |xs| ==> xs[j] >= 1
    ensures Total(xs) >= |xs|
  {
    if xs != [] {
      AtLeastLength(xs[..|xs| - 1]);
    }
  }

  /** When K == N, the repaired clusters of every iteration are singletons. */
  lemma AsManyClustersAsPoints(ps: seq<Pixel>, cs: seq<Pixel>)
    requires 1 <= |cs| == |ps|
    ensures forall j :: 0 <= j < |cs| ==> Repaired(ps, cs).counts[j] == 1
  {
    AllSingletons(Repaired(ps, cs).counts);
  }
}
