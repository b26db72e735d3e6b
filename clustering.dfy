/**
 * Notions shared by every k-means variant: the nearest centroid, the random
 * initial centroids, and the per-cluster counts and sums that a labelling
 * induces.
 */
module Clustering {
  import opened Pixels

  /**
   * `k` is the first index of minimal distance from `p` among the centroids:
   * no centroid is closer, and every lower index is strictly further away.
   */
  predicate IsFirstMin(p: Pixel, cs: seq<Pixel>, k: nat) {
    && k < |cs|
    && (forall j :: 0 <= j < |cs| ==> Dist(p, cs[k]) <= Dist(p, cs[j]))
    && (forall j :: 0 <= j < k ==> Dist(p, cs[k]) < Dist(p, cs[j]))
  }

  /**
   * The running choice of a scan over the centroids `0 .. n-1` that replaces
   * its candidate only on a strictly smaller distance; the first centroid is
   * always taken.
   */
  function ClosestUpTo(p: Pixel, cs: seq<Pixel>, n: nat): (k: nat)
    requires 1 <= n <= |cs|
    ensures k < n
  {
    if n == 1 then 0
    else
      var k := ClosestUpTo(p, cs, n - 1);
      if Dist(p, cs[n - 1]) < Dist(p, cs[k]) then n - 1 else k
  }

  /** The centroid a full scan picks for `p`. */
  function Closest(p: Pixel, cs: seq<Pixel>): (k: nat)
    requires |cs| >= 1
    ensures k < |cs|
  {
    ClosestUpTo(p, cs, |cs|)
  }

  lemma {:induction false} ClosestUpToIsFirstMin(p: Pixel, cs: seq<Pixel>, n: nat)
    requires 1 <= n <= |cs|
    ensures forall j :: 0 <= j < n ==> Dist(p, cs[ClosestUpTo(p, cs, n)]) <= Dist(p, cs[j])
    ensures forall j :: 0 <= j < ClosestUpTo(p, cs, n) ==> Dist(p, cs[ClosestUpTo(p, cs, n)]) < Dist(p, cs[j])
  {
    if n > 1 {
      ClosestUpToIsFirstMin(p, cs, n - 1);
    }
  }

  /** The scan finds the first minimum. */
  lemma ClosestIsFirstMin(p: Pixel, cs: seq<Pixel>)
    requires |cs| >= 1
    ensures IsFirstMin(p, cs, Closest(p, cs))
  {
    ClosestUpToIsFirstMin(p, cs, |cs|);
  }

  /** There is only one first minimum, so any scan that finds one agrees with Closest. */
  lemma FirstMinUnique(p: Pixel, cs: seq<Pixel>, k1: nat, k2: nat)
    requires IsFirstMin(p, cs, k1) && IsFirstMin(p, cs, k2)
    ensures k1 == k2
  {
    assert Dist(p, cs[k1]) <= Dist(p, cs[k2]) && Dist(p, cs[k2]) <= Dist(p, cs[k1]);
  }

  lemma FirstMinIsClosest(p: Pixel, cs: seq<Pixel>, k: nat)
    requires IsFirstMin(p, cs, k)
    ensures k == Closest(p, cs)
  {
    ClosestIsFirstMin(p, cs);
    FirstMinUnique(p, cs, k, Closest(p, cs));
  }

  /** The label of every point after an assignment pass against centroids `cs`. */
  function Assign(ps: seq<Pixel>, cs: seq<Pixel>): (ls: seq<nat>)
    requires |cs| >= 1
    ensures |ls| == |ps|
    ensures forall i :: 0 <= i < |ls| ==> ls[i] < |cs|
  {
    if ps == [] then [] else [Closest(ps[0], cs)] + Assign(ps[1..], cs)
  }

  /** Label `i` of an assignment pass is the centroid a full scan picks for point `i`. */
  lemma {:induction false} AssignAt(ps: seq<Pixel>, cs: seq<Pixel>, i: nat)
    requires |cs| >= 1 && i < |ps|
    ensures Assign(ps, cs)[i] == Closest(ps[i], cs)
  {
    if i > 0 {
      AssignAt(ps[1..], cs, i - 1);
    }
  }

  /** Every label of an assignment pass names the first nearest centroid. */
  lemma AssignIsNearest(ps: seq<Pixel>, cs: seq<Pixel>)
    requires |cs| >= 1
    ensures forall i :: 0 <= i < |ps| ==> IsFirstMin(ps[i], cs, Assign(ps, cs)[i])
  {
    forall i | 0 <= i < |ps|
      ensures IsFirstMin(ps[i], cs, Assign(ps, cs)[i])
    {
      AssignAt(ps, cs, i);
      ClosestIsFirstMin(ps[i], cs);
    }
  }

  /**
   * Random initialisation: centroid `i` is a copy of the point picked by the
   * `i`-th value of the random source, reduced modulo the number of points.
   */
  function InitCentroids(ps: seq<Pixel>, rand: nat -> nat, k: nat): (cs: seq<Pixel>)
    requires |ps| >= 1
    ensures |cs| == k
  {
    seq(k, i requires 0 <= i < k => ps[rand(i) % |ps|])
  }

  /** Every initial centroid is one of the input points. */
  lemma InitCopiesPoints(ps: seq<Pixel>, rand: nat -> nat, k: nat)
    requires |ps| >= 1
    ensures forall i :: 0 <= i < k ==> InitCentroids(ps, rand, k)[i] in ps
  {
    var cs := InitCentroids(ps, rand, k);
    forall i | 0 <= i < k
      ensures cs[i] in ps
    {
      var d := rand(i) % |ps|;
      assert cs[i] == ps[d];
    }
  }

  /** The number of points labelled `c`. */
  function CountLabel(ls: seq<int>, c: int): (n: nat)
    ensures n <= |ls|
  {
    if ls == [] then 0
    else CountLabel(ls[..|ls| - 1], c) + (if ls[|ls| - 1] == c then 1 else 0)
  }

  /** The channel-wise sum of the points labelled `c`. */
  function SumLabel(ps: seq<Pixel>, ls: seq<int>, c: int): Pixel
    requires |ps| == |ls|
  {
    if ls == [] then Zero
    else
      var s := SumLabel(ps[..|ps| - 1], ls[..|ls| - 1], c);
      if ls[|ls| - 1] == c then Add(s, ps[|ps| - 1]) else s
  }

  /** Appending one labelled point adds it to the size and the sum of its own cluster only. */
  lemma LabelSnoc(ps: seq<Pixel>, ls: seq<int>, p: Pixel, l: int, c: int)
    requires |ps| == |ls|
    ensures CountLabel(ls + [l], c) == CountLabel(ls, c) + (if l == c then 1 else 0)
    ensures SumLabel(ps + [p], ls + [l], c) == if l == c then Add(SumLabel(ps, ls, c), p) else SumLabel(ps, ls, c)
  {
    assert (ls + [l])[..|ls|] == ls && (ps + [p])[..|ps|] == ps;
  }

  /** The cluster sizes of a labelling with `k` clusters. */
  function Counts(ls: seq<int>, k: nat): (cnt: seq<nat>)
    ensures |cnt| == k
  {
    seq(k, c => CountLabel(ls, c))
  }

  /** The cluster sums of a labelling with `k` clusters. */
  function Sums(ps: seq<Pixel>, ls: seq<int>, k: nat): (s: seq<Pixel>)
    requires |ps| == |ls|
    ensures |s| == k
  {
    seq(k, c => SumLabel(ps, ls, c))
  }

  /** Cleared accumulators for `k` clusters. */
  function ZeroSums(k: nat): (s: seq<Pixel>)
    ensures |s| == k
  {
    seq(k, _ => Zero)
  }

  function ZeroCounts(k: nat): (s: seq<nat>)
    ensures |s| == k
  {
    seq(k, _ => 0)
  }

  /** No points: every cluster is empty with a zero sum. */
  lemma NoPoints(ps: seq<Pixel>, ls: seq<int>, k: nat)
    requires |ps| == |ls| == 0
    ensures Counts(ls, k) == ZeroCounts(k) && Sums(ps, ls, k) == ZeroSums(k)
  {
  }

  /**
   * Accumulating point `n` into the cluster it is labelled with: the sizes and
   * sums of points `0 .. n` are those of points `0 .. n-1`, with the size of its
   * cluster one larger and the point added to that cluster's sum.
   */
  lemma AccumulateStep(ps: seq<Pixel>, ls: seq<int>, n: nat, k: nat)
    requires n < |ps| == |ls| && 0 <= ls[n] < k
    ensures Counts(ls[..n + 1], k) == Counts(ls[..n], k)[ls[n] := Counts(ls[..n], k)[ls[n]] + 1]
    ensures Sums(ps[..n + 1], ls[..n + 1], k) == Sums(ps[..n], ls[..n], k)[ls[n] := Add(Sums(ps[..n], ls[..n], k)[ls[n]], ps[n])]
  {
    assert ls[..n + 1] == ls[..n] + [ls[n]] && ps[..n + 1] == ps[..n] + [ps[n]];
    forall c | 0 <= c < k {
      LabelSnoc(ps[..n], ls[..n], ps[n], ls[n], c);
    }
  }

  /**
   * The accumulation loop of an assignment pass after points `0 .. n-1`,
   * starting from cleared accumulators: AccSums holds the sums of the `k`
   * clusters, AccCounts their sizes.
   */
  function AccSums(ps: seq<Pixel>, ls: seq<int>, k: nat, n: nat): (sums: seq<Pixel>)
    requires n <= |ps| == |ls|
    requires forall j :: 0 <= j < |ls| ==> 0 <= ls[j] < k
    ensures |sums| == k
  {
    if n == 0 then ZeroSums(k)
    else
      var sums := AccSums(ps, ls, k, n - 1);
      sums[ls[n - 1] := Add(sums[ls[n - 1]], ps[n - 1])]
  }

  function AccCounts(ls: seq<int>, k: nat, n: nat): (counts: seq<nat>)
    requires n <= |ls|
    requires forall j :: 0 <= j < |ls| ==> 0 <= ls[j] < k
    ensures |counts| == k
  {
    if n == 0 then ZeroCounts(k)
    else
      var counts := AccCounts(ls, k, n - 1);
      counts[ls[n - 1] := counts[ls[n - 1]] + 1]
  }

  /** The accumulation loop computes the sums and sizes of the clusters of the points it has visited. */
  lemma {:induction false} AccumulateIsSumsCounts(ps: seq<Pixel>, ls: seq<int>, k: nat, n: nat)
    requires n <= |ps| == |ls|
    requires forall j :: 0 <= j < |ls| ==> 0 <= ls[j] < k
    ensures AccSums(ps, ls, k, n) == Sums(ps[..n], ls[..n], k)
    ensures AccCounts(ls, k, n) == Counts(ls[..n], k)
  {
    if n == 0 {
      NoPoints(ps[..0], ls[..0], k);
    } else {
      AccumulateIsSumsCounts(ps, ls, k, n - 1);
      AccumulateStep(ps, ls, n - 1, k);
    }
  }

  /** The mean of the points labelled `c`, for a non-empty cluster. */
  function Mean(ps: seq<Pixel>, ls: seq<int>, c: int): Pixel
    requires |ps| == |ls| && CountLabel(ls, c) > 0
  {
    Div(SumLabel(ps, ls, c), CountLabel(ls, c))
  }

  function Total(xs: seq<nat>): nat {
    if xs == [] then 0 else Total(xs[..|xs| - 1]) + xs[|xs| - 1]
  }

  /** Changing one entry changes the total by the difference. */
  lemma {:induction false} TotalUpdate(xs: seq<nat>, c: nat, v: nat)
    requires c < |xs|
    ensures Total(xs[c := v]) == Total(xs) - xs[c] + v
  {
    var ys := xs[c := v];
    if c < |xs| - 1 {
      assert ys[..|ys| - 1] == xs[..|xs| - 1][c := v];
      TotalUpdate(xs[..|xs| - 1], c, v);
    } else {
      assert ys[..|ys| - 1] == xs[..|xs| - 1];
    }
  }

  /** Extending a labelling by one point labelled `l` adds one to the size of cluster `l` only. */
  lemma CountsSnoc(ls: seq<int>, l: nat, k: nat)
    requires l < k
    ensures Counts(ls + [l], k) == Counts(ls, k)[l := Counts(ls, k)[l] + 1]
  {
    assert (ls + [l])[..|ls|] == ls;
  }

  /** When every label names one of `k` clusters, the cluster sizes add up to the number of points. */
  lemma {:induction false} CountsTotal(ls: seq<int>, k: nat)
    requires forall i :: 0 <= i < |ls| ==> 0 <= ls[i] < k
    ensures Total(Counts(ls, k)) == |ls|
  {
    if ls == [] {
      var zs := Counts(ls, k);
      ZeroTotal(zs);
    } else {
      var init, l := ls[..|ls| - 1], ls[|ls| - 1];
      assert ls == init + [l];
      CountsTotal(init, k);
      CountsSnoc(init, l, k);
      TotalUpdate(Counts(init, k), l, Counts(init, k)[l] + 1);
    }
  }

  lemma {:induction false} ZeroTotal(xs: seq<nat>)
    requires forall i :: 0 <= i < |xs| ==> xs[i] == 0
    ensures Total(xs) == 0
  {
    if xs != [] {
      ZeroTotal(xs[..|xs| - 1]);
    }
  }

  /**
   * Relabelling point `m` from cluster `a` to cluster `b` shrinks the count of
   * `a` by one, grows the count of `b` by one, and leaves every other count alone.
   */
  lemma {:induction false} CountMove(ls: seq<int>, m: nat, b: int, c: int)
    requires m < |ls| && ls[m] != b
    ensures CountLabel(ls[m := b], c) ==
      if c == ls[m] then CountLabel(ls, c) - 1
      else if c == b then CountLabel(ls, c) + 1
      else CountLabel(ls, c)
  {
    var ms := ls[m := b];
    if m < |ls| - 1 {
      assert ms[..|ms| - 1] == ls[..|ls| - 1][m := b];
      CountMove(ls[..|ls| - 1], m, b, c);
    } else {
      assert ms[..|ms| - 1] == ls[..|ls| - 1];
    }
  }

  /** Relabelling point `m` from `a` to `b` moves its coordinates from the sum of `a` to that of `b`. */
  lemma {:induction false} SumMove(ps: seq<Pixel>, ls: seq<int>, m: nat, b: int, c: int)
    requires |ps| == |ls| && m < |ls| && ls[m] != b
    ensures SumLabel(ps, ls[m := b], c) ==
      if c == ls[m] then Sub(SumLabel(ps, ls, c), ps[m])
      else if c == b then Add(SumLabel(ps, ls, c), ps[m])
      else SumLabel(ps, ls, c)
  {
    var ms := ls[m := b];
    if m < |ls| - 1 {
      assert ms[..|ms| - 1] == ls[..|ls| - 1][m := b];
      SumMove(ps[..|ps| - 1], ls[..|ls| - 1], m, b, c);
    } else {
      assert ms[..|ms| - 1] == ls[..|ls| - 1];
    }
  }

  /** A cluster with no points has a zero sum. */
  lemma {:induction false} EmptySum(ps: seq<Pixel>, ls: seq<int>, c: int)
    requires |ps| == |ls| && CountLabel(ls, c) == 0
    ensures SumLabel(ps, ls, c) == Zero
  {
    if ls != [] {
      EmptySum(ps[..|ps| - 1], ls[..|ls| - 1], c);
    }
  }

  /** A label that some point carries is counted at least once. */
  lemma {:induction false} MemberCounted(ls: seq<int>, m: nat)
    requires m < |ls|
    ensures CountLabel(ls, ls[m]) >= 1
  {
    if m < |ls| - 1 {
      MemberCounted(ls[..|ls| - 1], m);
    }
  }

  /** A cluster with exactly one point sums to that point. */
  lemma {:induction false} SingletonSum(ps: seq<Pixel>, ls: seq<int>, m: nat)
    requires |ps| == |ls| && m < |ls| && CountLabel(ls, ls[m]) == 1
    ensures SumLabel(ps, ls, ls[m]) == ps[m]
  {
    var init, c := ls[..|ls| - 1], ls[m];
    if m == |ls| - 1 {
      EmptySum(ps[..|ps| - 1], init, c);
    } else {
      MemberCounted(init, m);
      SingletonSum(ps[..|ps| - 1], init, m);
    }
  }
}
