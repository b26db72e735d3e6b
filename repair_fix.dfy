/**
 * The empty-cluster repair of c/src/kmeans.c starts its search for the
 * donor's furthest point from candidate 0 and distance 0.0, and replaces the
 * candidate only on a strictly larger distance. When every member of the donor
 * sits exactly on the donor's centroid (an image with a flat colour region,
 * say), the search never moves off point 0, and point 0 is moved whatever
 * cluster it belongs to: the counts and sums then no longer describe the labels.
 *
 * This module exhibits that on a three-point input and defines the repair as
 * evidently intended, with the search starting from distance -1.0 so that the
 * first member always replaces the initial candidate. The corrected repair is
 * proved to keep the accumulators exact with no condition, so every centroid
 * of the corrected iteration is the mean of a non-empty cluster.
 */
module RepairFix {
  import opened Pixels
  import opened Clustering
  import opened KMeansSpec

  // ---------------------------------------------------------------------------
  // The repair as written, on points b, a, a with centroids b, a, far

  /** The assignment pass labels points b, a, a with 0, 1, 1 and leaves cluster 2 empty. */
  lemma CounterexampleAssign(a: Pixel, b: Pixel, far: Pixel)
    requires a != b
    ensures Assign([b, a, a], [b, a, far]) == [0, 1, 1]
  {
    var ps, cs := [b, a, a], [b, a, far];
    DistPositive(a, b);
    assert Closest(b, cs) == 0 by {
      assert ClosestUpTo(b, cs, 2) == 0;
    }
    assert Closest(a, cs) == 1 by {
      assert ClosestUpTo(a, cs, 2) == 1;
    }
    var ls := Assign(ps, cs);
    AssignAt(ps, cs, 0);
    AssignAt(ps, cs, 1);
    AssignAt(ps, cs, 2);
    assert ls == [ls[0], ls[1], ls[2]];
  }

  /** The state of an iteration on points b, a, a after an assignment pass against centroids b, a, far. */
  function Mid(a: Pixel, b: Pixel, far: Pixel): (st: State)
    ensures Balanced([b, a, a], st)
  {
    var counts: seq<nat> := [1, 2, 0];
    assert counts[..2] == [1, 2] && counts[..2][..1] == [1] && [1][..0] == [];
    assert Total([1]) == 1 && Total([1, 2]) == 3 && Total(counts) == 3;
    State([b, a, far], [0, 1, 1], [Add(Zero, b), Add(Add(Zero, a), a), Zero], counts)
  }

  /** The assignment pass leaves clusters of sizes 1, 2, 0 with the matching sums. */
  lemma CounterexampleState(a: Pixel, b: Pixel, far: Pixel)
    requires a != b
    ensures AfterAssign([b, a, a], [b, a, far]) == Mid(a, b, far)
  {
    var ps, ls: seq<nat> := [b, a, a], [0, 1, 1];
    var st := Mid(a, b, far);
    CounterexampleAssign(a, b, far);
    forall c | 0 <= c < 3
      ensures SumLabel(ps, ls, c) == st.sums[c] && CountLabel(ls, c) == st.counts[c]
    {
      assert [] + [b] == [b] && [b] + [a] == [b, a] && [b, a] + [a] == ps;
      assert [] + [0] == [0] && [0] + [1] == [0, 1] && [0, 1] + [1] == ls;
      LabelSnoc([], [], b, 0, c);
      LabelSnoc([b], [0], a, 1, c);
      LabelSnoc([b, a], [0, 1], a, 1, c);
    }
  }

  /** Cluster 1 donates to the empty cluster 2, and point 0 is the one moved. */
  lemma CounterexampleMoved(a: Pixel, b: Pixel, far: Pixel)
    ensures Donor(Mid(a, b, far), 2) == 1 && Moved([b, a, a], Mid(a, b, far), 2) == 0
  {
    var ps, st := [b, a, a], Mid(a, b, far);
    assert LargestCount(st.counts, 2, 1) == 1;
    assert LargestUpTo(st.counts, 2, 2) == 1;
    assert MaxDistUpTo(ps, st.labels, 1, a, 1) == 0.0;
    assert MaxDistUpTo(ps, st.labels, 1, a, 2) == 0.0;
    assert FurthestUpTo(ps, st.labels, 1, a, 1) == 0;
    assert FurthestUpTo(ps, st.labels, 1, a, 2) == 0;
  }

  /** The repair loop leaves clusters 0 and 1 alone and moves point 0 into cluster 2. */
  lemma CounterexampleRepair(a: Pixel, b: Pixel, far: Pixel)
    ensures var r := RepairUpTo([b, a, a], Mid(a, b, far), 3);
      r.labels == [2, 1, 1] && r.counts == [1, 1, 1]
  {
    var ps, st := [b, a, a], Mid(a, b, far);
    CounterexampleMoved(a, b, far);
    assert RepairUpTo(ps, st, 1) == st;
    assert RepairUpTo(ps, st, 2) == st;
  }

  /**
   * Cluster 2 is empty and cluster 1 donates, but both its points lie on its
   * centroid, so point 0, the only member of cluster 0, is moved instead. After
   * the repair cluster 0 still counts one point though no point carries label
   * 0, and cluster 1 counts one point though two carry its label.
   */
  lemma RepairMovesNonMember(a: Pixel, b: Pixel, far: Pixel)
    requires a != b
    ensures var ps, cs := [b, a, a], [b, a, far];
      var st := AfterAssign(ps, cs);
      var r := Repaired(ps, cs);
      && Donor(st, 2) == 1 && Moved(ps, st, 2) == 0 && st.labels[0] == 0
      && !MovesMember(ps, st, 2)
      && r.labels == [2, 1, 1] && r.counts == [1, 1, 1]
      && CountLabel(r.labels, 0) == 0 && CountLabel(r.labels, 1) == 2
      && !Agrees(ps, r)
  {
    CounterexampleState(a, b, far);
    CounterexampleMoved(a, b, far);
    CounterexampleRepair(a, b, far);
    var ls: seq<nat> := [2, 1, 1];
    assert ls[..2] == [2, 1] && ls[..2][..1] == [2] && [2][..0] == [];
    assert CountLabel(ls, 0) == 0 && CountLabel(ls, 1) == 2;
  }

  // ---------------------------------------------------------------------------
  // The repair as intended

  /** The distance the corrected scan over points `0 .. n-1` holds: it starts from -1.0. */
  function MaxDistFixedUpTo(ps: seq<Pixel>, ls: seq<nat>, donor: nat, cen: Pixel, n: nat): real
    requires n <= |ps| == |ls|
  {
    if n == 0 then -1.0
    else
      var m := MaxDistFixedUpTo(ps, ls, donor, cen, n - 1);
      var d := Dist(ps[n - 1], cen);
      if ls[n - 1] == donor && d > m then d else m
  }

  /** The candidate the corrected scan holds; it starts from point 0, as in the source. */
  function FurthestFixedUpTo(ps: seq<Pixel>, ls: seq<nat>, donor: nat, cen: Pixel, n: nat): (f: nat)
    requires n <= |ps| == |ls|
    ensures f < n || f == 0
  {
    if n == 0 then 0
    else if ls[n - 1] == donor && Dist(ps[n - 1], cen) > MaxDistFixedUpTo(ps, ls, donor, cen, n - 1) then n - 1
    else FurthestFixedUpTo(ps, ls, donor, cen, n - 1)
  }

  /**
   * The corrected scan finds the first member furthest from `cen` whenever the
   * donor has a member among points `0 .. n-1`.
   */
  lemma {:induction false} FurthestFixedUpToSpec(ps: seq<Pixel>, ls: seq<nat>, donor: nat, cen: Pixel, n: nat)
    requires n <= |ps| == |ls|
    ensures var f, m := FurthestFixedUpTo(ps, ls, donor, cen, n), MaxDistFixedUpTo(ps, ls, donor, cen, n);
      && ((exists j :: 0 <= j < n && ls[j] == donor) ==> f < n && ls[f] == donor && m == Dist(ps[f], cen))
      && ((forall j :: 0 <= j < n ==> ls[j] != donor) ==> f == 0 && m == -1.0)
      && (forall j :: 0 <= j < n && ls[j] == donor ==> Dist(ps[j], cen) <= m)
      && (forall j :: 0 <= j < f && ls[j] == donor ==> Dist(ps[j], cen) < m)
  {
    if n > 0 {
      FurthestFixedUpToSpec(ps, ls, donor, cen, n - 1);
    }
  }

  /**
   * The correction changes nothing once some member lies at a positive
   * distance from `cen`: both scans then hold the same candidate and distance.
   */
  lemma {:induction false} FixedScanAgrees(ps: seq<Pixel>, ls: seq<nat>, donor: nat, cen: Pixel, n: nat)
    requires n <= |ps| == |ls| && MaxDistUpTo(ps, ls, donor, cen, n) > 0.0
    ensures FurthestFixedUpTo(ps, ls, donor, cen, n) == FurthestUpTo(ps, ls, donor, cen, n)
    ensures MaxDistFixedUpTo(ps, ls, donor, cen, n) == MaxDistUpTo(ps, ls, donor, cen, n)
  {
    if MaxDistUpTo(ps, ls, donor, cen, n - 1) > 0.0 {
      FixedScanAgrees(ps, ls, donor, cen, n - 1);
    } else {
      FurthestUpToSpec(ps, ls, donor, cen, n - 1);
      FurthestFixedUpToSpec(ps, ls, donor, cen, n - 1);
      assert MaxDistFixedUpTo(ps, ls, donor, cen, n - 1) <= 0.0;
    }
  }

  /** The point the corrected repair moves into the empty cluster `i`. */
  function MovedFixed(ps: seq<Pixel>, st: State, i: nat): (m: nat)
    requires 1 <= |st.counts| <= |st.centroids| && 1 <= |ps| == |st.labels|
    ensures m < |ps|
  {
    var d := Donor(st, i);
    FurthestFixedUpTo(ps, st.labels, d, st.centroids[d], |ps|)
  }

  /** While the accumulators are exact, the corrected repair moves a member of the donor. */
  lemma MovedFixedIsMember(ps: seq<Pixel>, st: State, i: nat)
    requires Agrees(ps, st) && i < |st.centroids| && st.counts[i] == 0
    ensures st.labels[MovedFixed(ps, st, i)] == Donor(st, i)
  {
    var d := Donor(st, i);
    Pigeonhole(st.counts, i, |ps|);
    if forall j :: 0 <= j < |ps| ==> st.labels[j] != d {
      NoLabel(st.labels, d);
      assert false;
    }
    FurthestFixedUpToSpec(ps, st.labels, d, st.centroids[d], |ps|);
  }

  /** A label no point carries counts no point. */
  lemma {:induction false} NoLabel(ls: seq<nat>, c: nat)
    requires forall j :: 0 <= j < |ls| ==> ls[j] != c
    ensures CountLabel(ls, c) == 0
  {
    if ls != [] {
      NoLabel(ls[..|ls| - 1], c);
    }
  }

  /** One step of the corrected repair: the updates of RepairOne, with the corrected choice of point. */
  function RepairOneFixed(ps: seq<Pixel>, st: State, i: nat): (r: State)
    requires Balanced(ps, st) && i < |st.centroids|
    ensures Balanced(ps, r) && |r.centroids| == |st.centroids|
  {
    if st.counts[i] != 0 then st
    else
      Pigeonhole(st.counts, i, |ps|);
      var d := Donor(st, i);
      var m := MovedFixed(ps, st, i);
      var p := ps[m];
      var sums := st.sums[i := p];
      var counts := st.counts[i := 1];
      TotalUpdate(st.counts, i, 1);
      TotalUpdate(counts, d, counts[d] - 1);
      State(st.centroids[i := p], st.labels[m := i], sums[d := Sub(sums[d], p)], counts[d := counts[d] - 1])
  }

  /** The corrected repair loop after visiting clusters `0 .. n-1`. */
  function RepairUpToFixed(ps: seq<Pixel>, st: State, n: nat): (r: State)
    requires Balanced(ps, st) && n <= |st.centroids|
    ensures Balanced(ps, r) && |r.centroids| == |st.centroids|
  {
    if n == 0 then st else RepairOneFixed(ps, RepairUpToFixed(ps, st, n - 1), n - 1)
  }

  /** Wherever the as-written step moves a member, the corrected step does exactly the same. */
  lemma RepairOneFixedAgreesWithWritten(ps: seq<Pixel>, st: State, i: nat)
    requires Balanced(ps, st) && i < |st.centroids|
    requires st.counts[i] == 0 ==>
      var d := Donor(st, i); MaxDistUpTo(ps, st.labels, d, st.centroids[d], |ps|) > 0.0
    ensures RepairOneFixed(ps, st, i) == RepairOne(ps, st, i)
  {
    if st.counts[i] == 0 {
      var d := Donor(st, i);
      FixedScanAgrees(ps, st.labels, d, st.centroids[d], |ps|);
    }
  }

  /** A corrected step keeps the accumulators exact. */
  lemma RepairOneFixedAgrees(ps: seq<Pixel>, st: State, i: nat, r: State)
    requires Agrees(ps, st) && i < |st.centroids| && r == RepairOneFixed(ps, st, i)
    ensures Agrees(ps, r)
  {
    if st.counts[i] == 0 {
      var k := |st.centroids|;
      var d, m := Donor(st, i), MovedFixed(ps, st, i);
      Pigeonhole(st.counts, i, |ps|);
      MovedFixedIsMember(ps, st, i);
      assert CountLabel(st.labels, i) == 0;
      EmptySum(ps, st.labels, i);
      forall c | 0 <= c < k
        ensures r.counts[c] == CountLabel(r.labels, c) && r.sums[c] == SumLabel(ps, r.labels, c)
      {
        CountMove(st.labels, m, i, c);
        SumMove(ps, st.labels, m, i, c);
      }
    }
  }

  /** The corrected loop keeps the accumulators exact, unconditionally. */
  lemma {:induction false} RepairUpToFixedAgrees(ps: seq<Pixel>, st: State, n: nat)
    requires Agrees(ps, st) && n <= |st.centroids|
    ensures Agrees(ps, RepairUpToFixed(ps, st, n))
  {
    if n > 0 {
      RepairUpToFixedAgrees(ps, st, n - 1);
      RepairStepFixedAgrees(ps, st, n);
    }
  }

  lemma RepairStepFixedAgrees(ps: seq<Pixel>, st: State, n: nat)
    requires Balanced(ps, st) && 1 <= n <= |st.centroids| && Agrees(ps, RepairUpToFixed(ps, st, n - 1))
    ensures Agrees(ps, RepairUpToFixed(ps, st, n))
  {
    var prev, r := RepairUpToFixedLast(ps, st, n);
    RepairOneFixedAgrees(ps, prev, n - 1, r);
  }

  /** The last step of the corrected loop, with the states before and after it named. */
  lemma RepairUpToFixedLast(ps: seq<Pixel>, st: State, n: nat) returns (prev: State, r: State)
    requires Balanced(ps, st) && 1 <= n <= |st.centroids|
    ensures prev == RepairUpToFixed(ps, st, n - 1) && r == RepairUpToFixed(ps, st, n)
    ensures Balanced(ps, prev) && n - 1 < |prev.centroids| && r == RepairOneFixed(ps, prev, n - 1)
  {
    prev, r := RepairUpToFixed(ps, st, n - 1), RepairUpToFixed(ps, st, n);
  }

  /** A corrected step leaves cluster `i` non-empty and empties no cluster. */
  lemma RepairOneFixedFills(ps: seq<Pixel>, st: State, i: nat)
    requires Balanced(ps, st) && i < |st.centroids|
    ensures RepairOneFixed(ps, st, i).counts[i] >= 1
    ensures forall j :: 0 <= j < |st.counts| && st.counts[j] >= 1 ==> RepairOneFixed(ps, st, i).counts[j] >= 1
  {
    if st.counts[i] == 0 {
      Pigeonhole(st.counts, i, |ps|);
    }
  }

  /** After the corrected loop visits clusters `0 .. n-1`, none of them is empty. */
  lemma {:induction false} RepairUpToFixedFills(ps: seq<Pixel>, st: State, n: nat)
    requires Balanced(ps, st) && n <= |st.centroids|
    ensures forall j :: 0 <= j < n ==> RepairUpToFixed(ps, st, n).counts[j] >= 1
    ensures forall j :: 0 <= j < |st.counts| && st.counts[j] >= 1 ==> RepairUpToFixed(ps, st, n).counts[j] >= 1
  {
    if n > 0 {
      RepairUpToFixedFills(ps, st, n - 1);
      RepairOneFixedFills(ps, RepairUpToFixed(ps, st, n - 1), n - 1);
    }
  }

  /** The corrected repair of an iteration, after the assignment pass against `cs`. */
  function RepairedFixed(ps: seq<Pixel>, cs: seq<Pixel>): (st: State)
    requires 1 <= |cs| <= |ps|
    ensures Agrees(ps, st) && |st.centroids| == |cs|
    ensures forall j :: 0 <= j < |cs| ==> st.counts[j] >= 1
  {
    RepairUpToFixedAgrees(ps, AfterAssign(ps, cs), |cs|);
    RepairUpToFixedFills(ps, AfterAssign(ps, cs), |cs|);
    RepairUpToFixed(ps, AfterAssign(ps, cs), |cs|)
  }

  /** One iteration with the corrected repair; otherwise as Iteration. */
  function IterationFixed(ps: seq<Pixel>, cs: seq<Pixel>, ls: seq<nat>): (r: (seq<Pixel>, seq<nat>, bool))
    requires 1 <= |cs| <= |ps|
    ensures |r.0| == |cs| && |r.1| == |ps|
  {
    var st := RepairedFixed(ps, cs);
    (Average(st.sums, st.counts), st.labels, Assign(ps, cs) == ls)
  }

  /** Every centroid of a corrected iteration is the mean of its cluster, and no cluster is empty: no precondition. */
  lemma IterationFixedMeans(ps: seq<Pixel>, cs: seq<Pixel>, ls: seq<nat>)
    requires 1 <= |cs| <= |ps|
    ensures var r := IterationFixed(ps, cs, ls);
      forall c :: 0 <= c < |cs| ==> CountLabel(r.1, c) >= 1 && r.0[c] == Mean(ps, r.1, c)
  {
  }

  /**
   * With as many clusters as points, the corrected iteration gives every
   * point a cluster of its own, and that cluster's centroid is the point.
   */
  lemma AsManyClustersAsPointsFixed(ps: seq<Pixel>, cs: seq<Pixel>, ls: seq<nat>)
    requires 1 <= |cs| == |ps|
    ensures var r := IterationFixed(ps, cs, ls);
      && (forall c :: 0 <= c < |cs| ==> CountLabel(r.1, c) == 1)
      && (forall m :: 0 <= m < |ps| ==> r.1[m] < |cs| && r.0[r.1[m]] == ps[m])
  {
    var st := RepairedFixed(ps, cs);
    AllSingletons(st.counts);
    forall m | 0 <= m < |ps|
      ensures IterationFixed(ps, cs, ls).0[st.labels[m]] == ps[m]
    {
      SingletonSum(ps, st.labels, m);
    }
  }

  /** On the input of RepairMovesNonMember, the corrected repair moves point 1, a member of the donor. */
  lemma FixedRepairMovesMember(a: Pixel, b: Pixel, far: Pixel)
    requires a != b
    ensures var r := RepairedFixed([b, a, a], [b, a, far]);
      && MovedFixed([b, a, a], Mid(a, b, far), 2) == 1
      && r.labels == [0, 2, 1] && r.counts == [1, 1, 1]
  {
    var ps, st := [b, a, a], Mid(a, b, far);
    CounterexampleState(a, b, far);
    CounterexampleMoved(a, b, far);
    assert MaxDistFixedUpTo(ps, st.labels, 1, a, 1) == -1.0;
    assert MaxDistFixedUpTo(ps, st.labels, 1, a, 2) == 0.0;
    assert FurthestFixedUpTo(ps, st.labels, 1, a, 1) == 0;
    assert FurthestFixedUpTo(ps, st.labels, 1, a, 2) == 1;
    assert RepairUpToFixed(ps, st, 1) == st;
    assert RepairUpToFixed(ps, st, 2) == st;
  }
}
