/**
 * The older engine of c/src/kmeans_c.c (`kmeans_c` and `kmeans_c2d`) as
 * functions on values. An iteration labels every point with its nearest
 * centroid from scratch, sums and counts the points of each cluster, and then
 * turns each centroid into the mean of its cluster, or, for an empty cluster,
 * into a copy of a point picked by the next call of the random source. There is
 * no early exit: a run is exactly `maxIter` iterations.
 *
 * The random source is `rand`, where `rand(t)` is the value of the `t`-th call
 * in the run; `next` is the index of the next call to be made.
 */
module FlatSpec {
  import opened Pixels
  import opened Clustering
  import KMeansSpec

  /** The number of empty clusters among the first `n`. */
  function Empties(counts: seq<nat>, n: nat): (e: nat)
    requires n <= |counts|
    ensures e <= n
  {
    if n == 0 then 0 else Empties(counts, n - 1) + (if counts[n - 1] == 0 then 1 else 0)
  }

  /**
   * The normalisation pass over clusters `0 .. n-1`: each centroid is its sum
   * divided by its count, or, for an empty cluster, the point picked by the
   * next random call. Also returns the index of the random call after the pass.
   */
  function NormalizeUpTo(ps: seq<Pixel>, sums: seq<Pixel>, counts: seq<nat>,
                         rand: nat -> nat, next: nat, n: nat): (r: (seq<Pixel>, nat))
    requires |ps| >= 1 && |sums| == |counts| && n <= |counts|
    ensures |r.0| == n
  {
    if n == 0 then ([], next)
    else
      var prev := NormalizeUpTo(ps, sums, counts, rand, next, n - 1);
      if counts[n - 1] != 0 then (prev.0 + [Div(sums[n - 1], counts[n - 1])], prev.1)
      else (prev.0 + [ps[rand(prev.1) % |ps|]], prev.1 + 1)
  }

  /** One more step of the pass appends cluster `c`'s new centroid. */
  lemma NormalizeUpToStep(ps: seq<Pixel>, sums: seq<Pixel>, counts: seq<nat>,
                          rand: nat -> nat, next: nat, c: nat)
    requires |ps| >= 1 && |sums| == |counts| && c < |counts|
    ensures var prev := NormalizeUpTo(ps, sums, counts, rand, next, c);
      var x := if counts[c] != 0 then Div(sums[c], counts[c]) else ps[rand(prev.1) % |ps|];
      NormalizeUpTo(ps, sums, counts, rand, next, c + 1) == (prev.0 + [x], if counts[c] != 0 then prev.1 else prev.1 + 1)
  {
  }

  /** The pass makes one random call per empty cluster. */
  lemma {:induction false} NormalizeUpToCalls(ps: seq<Pixel>, sums: seq<Pixel>, counts: seq<nat>,
                                              rand: nat -> nat, next: nat, n: nat)
    requires |ps| >= 1 && |sums| == |counts| && n <= |counts|
    ensures NormalizeUpTo(ps, sums, counts, rand, next, n).1 == next + Empties(counts, n)
  {
    if n > 0 {
      NormalizeUpToCalls(ps, sums, counts, rand, next, n - 1);
    }
  }

  /**
   * What the pass makes of cluster `c` on its own: its mean when it is not
   * empty, otherwise the point picked by the random call numbered `next` plus
   * the number of empty clusters before it.
   */
  lemma {:induction false} NormalizeUpToAt(ps: seq<Pixel>, sums: seq<Pixel>, counts: seq<nat>,
                                           rand: nat -> nat, next: nat, n: nat, c: nat)
    requires |ps| >= 1 && |sums| == |counts| && c < n <= |counts|
    ensures NormalizeUpTo(ps, sums, counts, rand, next, n).0[c] ==
      if counts[c] != 0 then Div(sums[c], counts[c]) else ps[rand(next + Empties(counts, c)) % |ps|]
  {
    if c < n - 1 {
      NormalizeUpToAt(ps, sums, counts, rand, next, n - 1, c);
    } else {
      NormalizeUpToCalls(ps, sums, counts, rand, next, c);
    }
  }

  /**
   * One iteration from centroids `cs` with the next random call `next`: the
   * new centroids, the new labels and the next random call after it. The labels
   * the iteration starts from play no part.
   */
  function IterationC(ps: seq<Pixel>, cs: seq<Pixel>, rand: nat -> nat, next: nat): (r: (seq<Pixel>, seq<nat>, nat))
    requires |ps| >= 1 && |cs| >= 1
    ensures |r.0| == |cs| && |r.1| == |ps|
  {
    var ls := Assign(ps, cs);
    var norm := NormalizeUpTo(ps, Sums(ps, ls, |cs|), Counts(ls, |cs|), rand, next, |cs|);
    (norm.0, ls, norm.1)
  }

  /** Exactly `fuel` iterations; labels `ls` are returned untouched when `fuel` is 0. */
  function RunC(ps: seq<Pixel>, cs: seq<Pixel>, ls: seq<nat>, rand: nat -> nat, next: nat, fuel: nat): (r: (seq<Pixel>, seq<nat>, nat))
    requires |ps| >= 1 && |cs| >= 1
    ensures |r.0| == |cs|
    decreases fuel
  {
    if fuel == 0 then (cs, ls, next)
    else
      var r := IterationC(ps, cs, rand, next);
      RunC(ps, r.0, r.1, rand, r.2, fuel - 1)
  }

  /** A whole run: `k` random initial centroids (random calls `0 .. k-1`), then `maxIter` iterations. */
  function ClusterC(ps: seq<Pixel>, k: nat, ls: seq<nat>, rand: nat -> nat, maxIter: nat): (r: (seq<Pixel>, seq<nat>, nat))
    requires |ps| >= 1 && k >= 1
    ensures |r.0| == k
  {
    RunC(ps, InitCentroids(ps, rand, k), ls, rand, k, maxIter)
  }

  // ---------------------------------------------------------------------------
  // Properties

  /** An iteration labels every point with its nearest centroid, the first one on ties. */
  lemma IterationCNearest(ps: seq<Pixel>, cs: seq<Pixel>, rand: nat -> nat, next: nat)
    requires |ps| >= 1 && |cs| >= 1
    ensures var r := IterationC(ps, cs, rand, next);
      forall m :: 0 <= m < |ps| ==> IsFirstMin(ps[m], cs, r.1[m])
  {
    AssignIsNearest(ps, cs);
  }

  /** After an iteration, the centroid of a cluster that received points is the mean of those points. */
  lemma IterationCMean(ps: seq<Pixel>, cs: seq<Pixel>, rand: nat -> nat, next: nat, c: nat)
    requires |ps| >= 1 && c < |cs|
    ensures var r := IterationC(ps, cs, rand, next);
      CountLabel(r.1, c) > 0 ==> r.0[c] == Mean(ps, r.1, c)
  {
    var ls := Assign(ps, cs);
    var sums, counts := Sums(ps, ls, |cs|), Counts(ls, |cs|);
    NormalizeUpToAt(ps, sums, counts, rand, next, |cs|, c);
    assert counts[c] == CountLabel(ls, c) && sums[c] == SumLabel(ps, ls, c);
  }

  /**
   * After an iteration, the centroid of a cluster that received no point is
   * the point picked by the random call numbered `next` plus the number of
   * empty clusters before it.
   */
  lemma IterationCReseed(ps: seq<Pixel>, cs: seq<Pixel>, rand: nat -> nat, next: nat, c: nat)
    requires |ps| >= 1 && c < |cs|
    ensures var r := IterationC(ps, cs, rand, next);
      CountLabel(r.1, c) == 0 ==> r.0[c] == ps[rand(next + Empties(Counts(r.1, |cs|), c)) % |ps|]
  {
    var ls := Assign(ps, cs);
    var sums, counts := Sums(ps, ls, |cs|), Counts(ls, |cs|);
    NormalizeUpToAt(ps, sums, counts, rand, next, |cs|, c);
    assert counts[c] == CountLabel(ls, c);
  }

  /** An iteration makes one random call per cluster that received no point. */
  lemma IterationCCalls(ps: seq<Pixel>, cs: seq<Pixel>, rand: nat -> nat, next: nat)
    requires |ps| >= 1 && |cs| >= 1
    ensures var r := IterationC(ps, cs, rand, next);
      r.2 == next + Empties(Counts(r.1, |cs|), |cs|)
  {
    var ls := Assign(ps, cs);
    NormalizeUpToCalls(ps, Sums(ps, ls, |cs|), Counts(ls, |cs|), rand, next, |cs|);
  }

  /** Every centroid after an iteration is either the mean of a non-empty cluster or one of the points. */
  lemma IterationCMeanOrPoint(ps: seq<Pixel>, cs: seq<Pixel>, rand: nat -> nat, next: nat, c: nat)
    requires |ps| >= 1 && c < |cs|
    ensures var r := IterationC(ps, cs, rand, next);
      (CountLabel(r.1, c) > 0 && r.0[c] == Mean(ps, r.1, c)) || (CountLabel(r.1, c) == 0 && r.0[c] in ps)
  {
    IterationCMean(ps, cs, rand, next, c);
    IterationCReseed(ps, cs, rand, next, c);
  }

  /** The cluster sizes an iteration counts add up to the number of points. */
  lemma IterationCCountsTotal(ps: seq<Pixel>, cs: seq<Pixel>, rand: nat -> nat, next: nat)
    requires |ps| >= 1 && |cs| >= 1
    ensures Total(Counts(IterationC(ps, cs, rand, next).1, |cs|)) == |ps|
  {
    CountsTotal(Assign(ps, cs), |cs|);
  }

  /** A run of at least one iteration does not depend on the labels it starts from. */
  lemma RunCIgnoresLabels(ps: seq<Pixel>, cs: seq<Pixel>, ls1: seq<nat>, ls2: seq<nat>,
                          rand: nat -> nat, next: nat, fuel: nat)
    requires |ps| >= 1 && |cs| >= 1 && fuel >= 1
    ensures RunC(ps, cs, ls1, rand, next, fuel) == RunC(ps, cs, ls2, rand, next, fuel)
  {
  }

  /** No early exit: `f1 + f2` iterations are `f1` iterations followed by `f2` more. */
  lemma {:induction false} RunCCompose(ps: seq<Pixel>, cs: seq<Pixel>, ls: seq<nat>,
                                       rand: nat -> nat, next: nat, f1: nat, f2: nat)
    requires |ps| >= 1 && |cs| >= 1
    ensures var r := RunC(ps, cs, ls, rand, next, f1);
      RunC(ps, cs, ls, rand, next, f1 + f2) == RunC(ps, r.0, r.1, rand, r.2, f2)
    decreases f1
  {
    if f1 > 0 {
      var cs', ls', next' := RunCShift(ps, cs, ls, rand, next, f1, f2);
      RunCCompose(ps, cs', ls', rand, next', f1 - 1, f2);
    } else {
      assert RunC(ps, cs, ls, rand, next, f1) == (cs, ls, next);
      assert f1 + f2 == f2;
    }
  }

  /** Both runs start with the same first iteration. */
  lemma RunCShift(ps: seq<Pixel>, cs: seq<Pixel>, ls: seq<nat>, rand: nat -> nat, next: nat, f1: nat, f2: nat)
      returns (cs': seq<Pixel>, ls': seq<nat>, next': nat)
    requires |ps| >= 1 && |cs| >= 1 && f1 >= 1
    ensures (cs', ls', next') == IterationC(ps, cs, rand, next) && |cs'| == |cs|
    ensures RunC(ps, cs, ls, rand, next, f1 + f2) == RunC(ps, cs', ls', rand, next', (f1 - 1) + f2)
    ensures RunC(ps, cs, ls, rand, next, f1) == RunC(ps, cs', ls', rand, next', f1 - 1)
  {
    var r := IterationC(ps, cs, rand, next);
    cs', ls', next' := r.0, r.1, r.2;
  }

  /**
   * Even from a fixed point (labels reproduced, every centroid the mean of its
   * non-empty cluster) a run performs all its iterations, and each reproduces
   * the same centroids and labels without touching the random source.
   */
  lemma {:induction false} StableRunC(ps: seq<Pixel>, cs: seq<Pixel>, ls: seq<nat>, rand: nat -> nat, next: nat, fuel: nat)
    requires |ps| >= 1 && |cs| >= 1 && Assign(ps, cs) == ls
    requires forall c :: 0 <= c < |cs| ==> CountLabel(ls, c) >= 1 && cs[c] == Mean(ps, ls, c)
    ensures RunC(ps, cs, ls, rand, next, fuel) == (cs, ls, next)
    decreases fuel
  {
    if fuel > 0 {
      StableIterationC(ps, cs, rand, next);
      StableRunC(ps, cs, ls, rand, next, fuel - 1);
    }
  }

  lemma StableIterationC(ps: seq<Pixel>, cs: seq<Pixel>, rand: nat -> nat, next: nat)
    requires |ps| >= 1 && |cs| >= 1
    requires forall c :: 0 <= c < |cs| ==> CountLabel(Assign(ps, cs), c) >= 1 && cs[c] == Mean(ps, Assign(ps, cs), c)
    ensures IterationC(ps, cs, rand, next) == (cs, Assign(ps, cs), next)
  {
    var r := IterationC(ps, cs, rand, next);
    forall c | 0 <= c < |cs|
      ensures r.0[c] == cs[c]
    {
      IterationCMean(ps, cs, rand, next, c);
    }
    assert r.0 == cs;
    IterationCCalls(ps, cs, rand, next);
    NoEmpties(Counts(r.1, |cs|), |cs|);
    assert r.2 == next;
  }

  lemma {:induction false} NoEmpties(counts: seq<nat>, n: nat)
    requires n <= |counts|
    requires forall c :: 0 <= c < n ==> counts[c] >= 1
    ensures Empties(counts, n) == 0
  {
    if n > 0 {
      NoEmpties(counts, n - 1);
    }
  }

  /**
   * The two engines agree where they overlap: when the assignment leaves no
   * cluster empty (and there are no more clusters than points), an iteration of
   * this engine computes the same centroids and labels as an iteration of
   * `kmeans_c` in c/src/kmeans.c, and makes no random call.
   */
  lemma IterationsAgree(ps: seq<Pixel>, cs: seq<Pixel>, ls: seq<nat>, rand: nat -> nat, next: nat)
    requires 1 <= |cs| <= |ps|
    requires forall c :: 0 <= c < |cs| ==> CountLabel(Assign(ps, cs), c) >= 1
    ensures var r := IterationC(ps, cs, rand, next);
      var s := KMeansSpec.Iteration(ps, cs, ls);
      r.0 == s.0 && r.1 == s.1 && r.2 == next
  {
    var r := IterationC(ps, cs, rand, next);
    KMeansSpec.NoEmptyClusterMeans(ps, cs, ls);
    forall c | 0 <= c < |cs|
      ensures r.0[c] == KMeansSpec.Iteration(ps, cs, ls).0[c]
    {
      IterationCMean(ps, cs, rand, next, c);
    }
    IterationCCalls(ps, cs, rand, next);
    NoEmpties(Counts(r.1, |cs|), |cs|);
  }
}
