# k-means colour clustering, modelled in Dafny

This project models the C core of a k-means colour clusterer. The points are pixels with three
`double` channels (`struct pixel`). The engine takes K centroids at random from the points, then
iterates:
- an assignment pass labels every pixel with its nearest centroid;
- the clusters are summed and counted;
- each centroid becomes its cluster's mean.

The core comes in four variants, and each one is here an imperative Dafny method over arrays,
proved against a specification written as functions on values:

| C function | Dafny module and method | layout | specification |
|---|---|---|---|
| `kmeans_c` in c/src/kmeans.c | `KMeans.KMeansStruct` | array of pixels | `KMeansSpec.Cluster` |
| `kmeans_omp` in c/src/kmeans.c | `KMeansOmp.KMeansOmp` | flat sums `sums[3*c+k]` | `KMeansSpec.Cluster` |
| `kmeans_c` in c/src/kmeans_c.c | `FlatKMeans.KMeansFlat` | flat points and centroids `3*i+k` | `FlatSpec.ClusterC` |
| `kmeans_c2d` in c/src/kmeans_c.c | `RowKMeans.KMeansRows` | arrays of row pointers | `FlatSpec.ClusterC` |

The two engines in c/src/kmeans.c repair empty clusters after the assignment pass, and they leave
the loop after the first iteration whose assignment changed no label:
- The repair visits the empty clusters in ascending order.
- Each empty cluster takes one point from the largest other cluster (the donor): the donor's point
  furthest from its centroid.

The two engines in c/src/kmeans_c.c work differently:
- They relabel from scratch.
- They re-sum the clusters into the centroid buffer.
- They reseed an empty cluster with a random point.
- They always run every iteration.

Because the struct and OpenMP methods are proved against the same function, they compute the same centroids
and labels; so do the flat and row-pointer methods. `FlatSpec.IterationsAgree` relates the two
engines: when no cluster is empty, their iterations coincide.

Modelling choices:
- **Distance.** A pixel is a datatype of three `real`s. The distance is the squared Euclidean
  distance. Distances are only ever compared, and `Pixels.SqrtOrder` shows that comparing square
  roots gives the same answers as comparing squares.
- **The `DBL_MAX` sentinel.** The running minimum of the nearest-centroid scans starts at
  `DBL_MAX`, so the first centroid is always taken. The model says exactly that.
- **`rand()`.** It is a parameter `rand: nat -> nat`, where `rand(t)` is the value returned by the
  `t`-th call of the run. The C code takes it modulo the number of points, and so does the model.
- **`KMEANS_MAX_ITER`.** The macro is defined in a configuration header that is not part of this
  model, so it becomes a parameter `maxIter`.
- **Ghost parameters.** Ghost parameters carry the values the arrays stand for (`Stores` for a flat
  buffer, `RowsHold` for an array of rows).
- **Array bounds.** Every array access verifies, so every index the C code computes
  (`3*c+k`, `3*(rand() % n)+i`, `labels[d]` used as a cluster index) is in bounds.

The repair in c/src/kmeans.c has a defect; see "## Findings". The methods follow the code as
written. Module `RepairFix` exhibits the defect and proves the evidently intended repair correct.

## Model

| member | source | states |
|---|---|---|
| Pixels.Sq | c/src/kmeans.c:16-20 | a squared channel difference is non-negative, and positive when the difference is not zero |
| Pixels.Dist | c/src/kmeans.c:14-21 | the distance between two pixels is non-negative and is zero between identical pixels |
| Pixels.DistSymmetric | c/src/kmeans.c:14-21 | the distance from p to q equals the distance from q to p |
| Pixels.DistPositive | c/src/kmeans.c:14-21 | two different pixels lie at a positive distance |
| Pixels.MulPos | c/src/kmeans.c:20 | helper: a product of two positive reals is positive (used for the square-root ordering) |
| Pixels.SqrtOrder | c/src/kmeans.c:20 | for square roots s1 of x1 and s2 of x2: s1 < s2 exactly when x1 < x2, and s1 == s2 exactly when x1 == x2, so squared distances pick the same minima and maxima as `sqrt` |
| Pixels.Unflatten | c/src/kmeans.c:219-227 | reading n pixels out of a flat buffer of at least 3n reals gives n pixels |
| Pixels.Flatten | c/src/kmeans_c.c:15-21 | the flat layout of n pixels has 3n reals |
| Pixels.FlattenAt | c/src/kmeans_c.c:16-20 | pixel d sits at flat indices 3d, 3d+1 and 3d+2 |
| Pixels.UnflattenFlatten | c/src/kmeans_c.c:15-21 | reading back a flattened sequence of pixels gives the same pixels |
| Pixels.FlattenUnflatten | c/src/kmeans_c.c:15-21 | flattening the pixels read out of a buffer of exactly 3n reals gives the buffer back |
| Pixels.StoresIsUnflatten | c/src/kmeans_c.c:15-21 | a buffer stores the pixels ps exactly when it has 3\|ps\| reals and reads back as ps |
| Pixels.StoresUpdate | c/src/kmeans.c:309-312 | writing the three channels of q into slot c stores the pixels with pixel c replaced by q |
| Pixels.StoresChannel | c/src/kmeans_c.c:37-40 | channel i of pixel d is at index 3d+i, which is inside the buffer |
| Pixels.StoresChannels | c/src/kmeans_c.c:68-69 | a buffer that differs from one storing ps only in slot c, which holds the channels of q, stores ps with pixel c replaced by q |
| Pixels.StoresFlatten | c/src/kmeans_c.c:9-10 | a buffer that stores ps is exactly the flat layout of ps |
| Pixels.StoresUnflatten | c/src/kmeans_c.c:9-10 | every buffer of 3n reals stores its own n pixels |
| Pixels.PartialDistFull | c/src/kmeans_c.c:36-40 | the channel-by-channel accumulation over all three channels equals the distance |
| Clustering.ClosestUpTo | c/src/kmeans.c:27-37 | the candidate the nearest-centroid scan holds after n centroids is one of the first n |
| Clustering.Closest | c/src/kmeans.c:24-40 | the scan returns an index less than the number of centroids |
| Clustering.ClosestUpToIsFirstMin | c/src/kmeans.c:30-37 | after n centroids the candidate is no further than any of them and strictly closer than every lower index |
| Clustering.ClosestIsFirstMin | c/src/kmeans.c:24-40 | the scan returns the first index of minimal distance |
| Clustering.FirstMinUnique | c/src/kmeans.c:33 | there is only one first index of minimal distance |
| Clustering.FirstMinIsClosest | c/src/kmeans.c:24-40 | any first index of minimal distance is the one the scan returns |
| Clustering.Assign | c/src/kmeans.c:86-91 | the assignment pass gives one label per point, each naming a centroid |
| Clustering.AssignAt | c/src/kmeans.c:90-95 | label i is the centroid the scan picks for point i |
| Clustering.AssignIsNearest | c/src/kmeans.c:86-98 | every label names the first nearest centroid of its point |
| Clustering.InitCentroids | c/src/kmeans.c:65-66 | the initialisation produces k centroids |
| Clustering.InitCopiesPoints | c/src/kmeans.c:65-66 | every initial centroid is one of the input pixels |
| Clustering.CountLabel | c/src/kmeans.c:107 | helper: the count of points with a given label is bounded by the number of points |
| Clustering.LabelSnoc | c/src/kmeans.c:100-107 | one more labelled point adds one to the size and its coordinates to the sum of its own cluster, and changes no other cluster |
| Clustering.NoPoints | c/src/kmeans.c:68-71 | with no points every cluster is empty and has a zero sum |
| Clustering.AccumulateStep | c/src/kmeans.c:100-107 | accumulating point n raises the size of its cluster by one and adds it to that cluster's sum, and changes no other entry |
| Clustering.AccSums | c/src/kmeans.c:101-104 | the sums the accumulation loop holds have one entry per cluster |
| Clustering.AccCounts | c/src/kmeans.c:107 | the sizes the accumulation loop holds have one entry per cluster |
| Clustering.AccumulateIsSumsCounts | c/src/kmeans.c:86-108 | from cleared accumulators, the accumulation loop over the first n points holds exactly the sizes and sums of their clusters |
| Clustering.TotalUpdate | c/src/kmeans.c:165-166 | changing one count changes the total by the difference |
| Clustering.CountsSnoc | c/src/kmeans.c:107 | one more point labelled l adds one to the size of cluster l only |
| Clustering.CountsTotal | c/src/kmeans.c:86-108 | when every label names one of k clusters, the cluster sizes add up to the number of points |
| Clustering.ZeroTotal | c/src/kmeans.c:189 | helper: all-zero counts add up to zero |
| Clustering.CountMove | c/src/kmeans.c:154 | relabelling one point from a to b lowers the count of a by one, raises that of b by one and changes no other count |
| Clustering.SumMove | c/src/kmeans.c:154-162 | relabelling one point from a to b moves its coordinates from the sum of a to the sum of b and changes no other sum |
| Clustering.EmptySum | c/src/kmeans.c:157 | a cluster with no points has a zero sum |
| Clustering.MemberCounted | c/src/kmeans.c:107 | helper: a label some point carries is counted at least once |
| Clustering.SingletonSum | c/src/kmeans.c:101-104 | a cluster with exactly one point sums to that point |
| KMeansSpec.AfterAssign | c/src/kmeans.c:86-108 | after the assignment pass from cleared accumulators, the counts and sums are exactly those of the clusters the labels describe, and the counts add up to the number of points |
| KMeansSpec.LargestUpTo | c/src/kmeans.c:122-132 | the donor candidate is one of the clusters scanned, or the initial 0 |
| KMeansSpec.LargestUpToSpec | c/src/kmeans.c:122-132 | after n clusters the scan holds size 0 and candidate 0, or a cluster other than i whose size it holds; no scanned cluster other than i is larger, and every lower-index one is strictly smaller |
| KMeansSpec.DonorIsLargest | c/src/kmeans.c:121-132 | when some other cluster is non-empty, the donor is the lowest-index largest cluster other than i |
| KMeansSpec.TotalOfOnes | c/src/kmeans.c:117-132 | counts that are at most one, with one of them zero, add up to less than their number |
| KMeansSpec.TotalAtMost | c/src/kmeans.c:117-132 | counts that are at most one add up to at most their number |
| KMeansSpec.Pigeonhole | c/src/kmeans.c:121-132 | with K at most N, N points counted and cluster i empty, the donor is another cluster and holds at least two points |
| KMeansSpec.FurthestUpTo | c/src/kmeans.c:137-149 | the furthest-point candidate is one of the points scanned, or the initial 0 |
| KMeansSpec.FurthestUpToSpec | c/src/kmeans.c:137-149 | the scan's distance is non-negative. If it is zero the candidate is point 0; otherwise the candidate is a member of the donor at that distance. No member is further, and no lower-index member is as far |
| KMeansSpec.Donor | c/src/kmeans.c:121-132 | the donor is a valid cluster index |
| KMeansSpec.Moved | c/src/kmeans.c:134-152 | the moved point is a valid point index |
| KMeansSpec.MovedIsMemberIff | c/src/kmeans.c:137-149 | the moved point belongs to the donor exactly when point 0 belongs to it or some member lies at a positive distance from the donor's centroid |
| KMeansSpec.RepairOne | c/src/kmeans.c:117-167 | one repair step keeps the state well-shaped: labels in range and counts adding up to the number of points |
| KMeansSpec.RepairUpTo | c/src/kmeans.c:117 | the repair loop over clusters 0 .. n-1 keeps the state well-shaped |
| KMeansSpec.RepairOneFills | c/src/kmeans.c:117-167 | a step leaves cluster i non-empty and empties no cluster |
| KMeansSpec.RepairUpToFills | c/src/kmeans.c:117-167 | after the loop has visited clusters 0 .. n-1, none of them is empty and no cluster was emptied |
| KMeansSpec.RepairOneEmpty | c/src/kmeans.c:117-167 | for an empty cluster i, the donor is the lowest-index largest other cluster with at least two points. Afterwards cluster i has count 1, its centroid and sum are the moved pixel and the moved pixel carries label i; the donor's count drops by one but stays at least 1, and every other centroid, count and sum is unchanged |
| KMeansSpec.RepairOneUpdates | c/src/kmeans.c:151-166 | unfolding step: the step for an empty cluster is exactly the updates of the C code: centroid, label, sum, donor sum, count 1 and donor count minus one |
| KMeansSpec.RepairOneAgrees | c/src/kmeans.c:151-166 | if the moved point belongs to the donor, a step keeps the counts and sums equal to those of the labels |
| KMeansSpec.RepairUpToAgrees | c/src/kmeans.c:117-167 | if every step moves a member of its donor, the repair loop keeps the counts and sums equal to those of the labels |
| KMeansSpec.RepairStepAgrees | c/src/kmeans.c:117-167 | one more step of the loop keeps the agreement when it moves a member |
| KMeansSpec.RepairUpToLast | c/src/kmeans.c:117 | unfolding step: the loop over n clusters is the loop over n-1 followed by the step for cluster n-1 |
| KMeansSpec.RepairUpToNoEmpty | c/src/kmeans.c:118-119 | when no cluster is empty the repair loop changes nothing |
| KMeansSpec.Average | c/src/kmeans.c:176-183 | the averaging gives one centroid per cluster |
| KMeansSpec.Repaired | c/src/kmeans.c:86-167 | after the assignment pass and the repair, no cluster is empty and the counts add up to the number of points, so the averaging never divides by zero |
| KMeansSpec.Iteration | c/src/kmeans.c:79-198 | an iteration gives K centroids and N labels, each naming a cluster |
| KMeansSpec.Run | c/src/kmeans.c:78-198 | the loop keeps the number of centroids |
| KMeansSpec.RunStep | c/src/kmeans.c:79-198 | unfolding step: one iteration, then the exit if no label changed, otherwise the rest of the loop with one iteration fewer |
| KMeansSpec.IterationMeans | c/src/kmeans.c:79-190 | if every repair step moves a member of its donor, each new centroid is the mean of the pixels labelled with it, and no cluster is empty |
| KMeansSpec.NoEmptyClusterMeans | c/src/kmeans.c:79-190 | if the assignment leaves no cluster empty, the labels are the assignment's and each centroid becomes the mean of its cluster |
| KMeansSpec.SingleClusterMean | c/src/kmeans.c:79-190 | with one cluster every pixel is labelled 0, the count is N, and the centroid becomes the mean of all pixels |
| KMeansSpec.StableIteration | c/src/kmeans.c:93-98 | at a fixed point (labels reproduced, every cluster non-empty and its centroid its mean) an iteration reports no change and leaves centroids and labels as they were |
| KMeansSpec.StableRun | c/src/kmeans.c:195-197 | from a fixed point the loop returns the centroids and labels unchanged |
| KMeansSpec.RunLabelsInRange | c/src/kmeans.c:79-198 | after at least one iteration every label names a cluster |
| KMeansSpec.AllSingletons | c/src/kmeans.c:117-167 | K non-empty counts adding up to K are all 1 |
| KMeansSpec.AtLeastLength | c/src/kmeans.c:117-167 | K counts of at least one each add up to at least K |
| KMeansSpec.AsManyClustersAsPoints | c/src/kmeans.c:117-167 | when K equals N, every repaired count is 1 (the labels need not agree, see the finding) |
| KMeans.FindClosestCentroid | c/src/kmeans.c:24-40 | with centroids, the scan returns the first nearest centroid; with none, it returns the initial 0 |
| KMeans.AssignPixel | c/src/kmeans.c:87-107 | one pass step: the first i+1 labels are fresh, the flag records whether any of them changed, and the accumulators hold the counts and sums of the first i+1 pixels |
| KMeans.AddToCluster | c/src/kmeans.c:100-107 | the pixel is added to the sum of its cluster and that cluster's count rises by one; nothing else changes |
| KMeans.SpliceStep | c/src/kmeans.c:94-95 | writing the fresh label i extends the fresh prefix of the labels by one |
| KMeans.PrefixSnoc | c/src/kmeans.c:93-98 | two label sequences agree on their first i+1 entries exactly when they agree on the first i and at i |
| KMeans.AssignPass | c/src/kmeans.c:80-108 | from cleared accumulators the arrays end as AfterAssign: labels are the assignment, counts and sums are those of the labels, and `done` holds exactly when no label changed |
| KMeans.LargestCluster | c/src/kmeans.c:121-132 | the loop computes the donor candidate and its size of LargestUpTo and LargestCount |
| KMeans.FurthestPixel | c/src/kmeans.c:134-149 | the loop computes the furthest candidate and its distance of FurthestUpTo and MaxDistUpTo |
| KMeans.RepairCluster | c/src/kmeans.c:118-166 | one repair step changes the arrays from state st to RepairOne(st) |
| KMeans.RepairEmptyClusters | c/src/kmeans.c:117-167 | the repair loop changes the arrays from st to RepairUpTo(st) over all clusters |
| KMeans.AverageClusterSums | c/src/kmeans.c:176-190 | each centroid becomes its old sum divided by its old count, and every sum and count is cleared |
| KMeans.IterationStep | c/src/kmeans.c:80-190 | one iteration changes centroids and labels into those of Iteration, returns its no-change flag, and leaves the accumulators cleared |
| KMeans.Iterate | c/src/kmeans.c:78-198 | the loop of at most maxIter iterations, with the early exit, ends with the centroids and labels of Run |
| KMeans.KMeansStruct | c/src/kmeans.c:42-209 | random initialisation and the loop end with the centroids and labels of Cluster |
| KMeansOmp.AddToSum | c/src/kmeans.c:255-258 | adding a pixel's channels into flat slot c stores the sums with that pixel added to sum c |
| KMeansOmp.SetSum | c/src/kmeans.c:309-312 | overwriting flat slot c stores the sums with sum c replaced |
| KMeansOmp.SubFromSum | c/src/kmeans.c:314-317 | subtracting a pixel's channels from flat slot c stores the sums with that pixel taken from sum c |
| KMeansOmp.AssignPixelOmp | c/src/kmeans.c:240-261 | one step of the assignment pass with flat sums, carrying the same loop state as KMeans.AssignPixel |
| KMeansOmp.IncrementCount | c/src/kmeans.c:261 | the count of cluster c rises by one, and nothing else changes |
| KMeansOmp.AssignPassOmp | c/src/kmeans.c:234-262 | the assignment pass with flat sums ends as AfterAssign, and `done` holds exactly when no label changed |
| KMeansOmp.RepairClusterOmp | c/src/kmeans.c:266-321 | one repair step with flat sums changes the arrays from st to RepairOne(st) |
| KMeansOmp.RepairEmptyClustersOmp | c/src/kmeans.c:265-322 | the repair loop with flat sums changes the arrays from st to RepairUpTo(st) |
| KMeansOmp.AverageSlotOmp | c/src/kmeans.c:326-335 | averaging slot j sets centroid j to the flat sum divided by the count and clears that sum and count |
| KMeansOmp.AverageClusterSumsOmp | c/src/kmeans.c:325-336 | each centroid becomes the stored sum divided by the old count, and every flat sum and count is cleared |
| KMeansOmp.IterationStepOmp | c/src/kmeans.c:234-336 | one iteration with flat sums computes the same centroids, labels and flag as Iteration |
| KMeansOmp.IterateOmp | c/src/kmeans.c:233-341 | the loop with flat sums ends with the centroids and labels of Run |
| KMeansOmp.InitOmp | c/src/kmeans.c:223-230 | every centroid i becomes the pixel picked by random call i, and every flat sum and count is cleared |
| KMeansOmp.KMeansOmp | c/src/kmeans.c:211-345 | ends with the centroids and labels of Cluster, the same as KMeans.KMeansStruct on the same inputs and random calls |
| FlatSpec.Empties | c/src/kmeans_c.c:74-86 | the number of empty clusters among the first n is at most n |
| FlatSpec.NormalizeUpTo | c/src/kmeans_c.c:74-86 | the normalisation pass over clusters 0 .. n-1 gives n centroids |
| FlatSpec.NormalizeUpToStep | c/src/kmeans_c.c:74-86 | unfolding step: one more step appends cluster c's new centroid, and makes a random call only when c is empty |
| FlatSpec.NormalizeUpToCalls | c/src/kmeans_c.c:81-82 | the pass makes one random call per empty cluster |
| FlatSpec.NormalizeUpToAt | c/src/kmeans_c.c:76-85 | centroid c becomes its sum divided by its count when it has points. Otherwise it becomes the point picked by call next plus the number of empty clusters before c |
| FlatSpec.IterationC | c/src/kmeans_c.c:28-86 | an iteration gives K centroids and N labels |
| FlatSpec.RunC | c/src/kmeans_c.c:26-87 | the loop keeps the number of centroids |
| FlatSpec.ClusterC | c/src/kmeans_c.c:9-90 | a run gives K centroids |
| FlatSpec.IterationCNearest | c/src/kmeans_c.c:29-49 | every label names the first nearest centroid, so the `min_dist < 0` test never decides |
| FlatSpec.IterationCMean | c/src/kmeans_c.c:62-80 | the new centroid of a cluster that received points is the mean of those points |
| FlatSpec.IterationCReseed | c/src/kmeans_c.c:81-85 | the new centroid of a cluster that received no point is the point picked by call next plus the number of empty clusters before it |
| FlatSpec.IterationCCalls | c/src/kmeans_c.c:81-82 | an iteration makes one random call per empty cluster |
| FlatSpec.IterationCMeanOrPoint | c/src/kmeans_c.c:74-86 | every new centroid is the mean of a non-empty cluster or one of the data points |
| FlatSpec.IterationCCountsTotal | c/src/kmeans_c.c:58-72 | the cluster sizes counted in an iteration add up to the number of points |
| FlatSpec.RunCIgnoresLabels | c/src/kmeans_c.c:26-49 | a run of at least one iteration does not depend on the labels it starts from |
| FlatSpec.RunCCompose | c/src/kmeans_c.c:26 | no early exit: f1 + f2 iterations are f1 iterations followed by f2 more |
| FlatSpec.RunCShift | c/src/kmeans_c.c:26 | unfolding step: the first of f1 + f2 iterations is the first of f1 |
| FlatSpec.StableRunC | c/src/kmeans_c.c:26-87 | from a fixed point every iteration still runs and reproduces the same centroids and labels without a random call |
| FlatSpec.StableIterationC | c/src/kmeans_c.c:28-86 | an iteration from a fixed point returns the same centroids, the assignment's labels and no random call |
| FlatSpec.NoEmpties | c/src/kmeans_c.c:78 | with no empty cluster among the first n, the empty count is zero |
| FlatSpec.IterationsAgree | c/src/kmeans_c.c:28-86 | when the assignment leaves no cluster empty, an iteration gives the same centroids and labels as an iteration of `kmeans_c` in c/src/kmeans.c, and makes no random call |
| FlatKMeans.PointDist | c/src/kmeans_c.c:36-40 | the channel loop accumulates the squared distance between point d and centroid c |
| FlatKMeans.LabelPoint | c/src/kmeans_c.c:30-48 | label d becomes the first nearest centroid of point d, and no other label changes |
| FlatKMeans.AssignLabels | c/src/kmeans_c.c:29-49 | the labels become the assignment of the points to the centroids |
| FlatKMeans.NullCentroids | c/src/kmeans_c.c:52-56 | the centroid buffer stores K zero pixels |
| FlatKMeans.NullCounts | c/src/kmeans_c.c:59-60 | every cluster size is zero |
| FlatKMeans.AddChannels | c/src/kmeans_c.c:66-69 | point d is added into centroid slot c |
| FlatKMeans.DivideChannels | c/src/kmeans_c.c:78-80 | centroid slot c is divided by n |
| FlatKMeans.CopyChannels | c/src/kmeans_c.c:82-84 | centroid slot c becomes a copy of point d |
| FlatKMeans.SumPoint | c/src/kmeans_c.c:64-71 | one step of the summing pass: buffer and sizes hold the sums and counts of the first d+1 points |
| FlatKMeans.SumPoints | c/src/kmeans_c.c:62-72 | the centroid buffer holds the sum and the sizes the number of the points of each cluster |
| FlatKMeans.NormalizeCluster | c/src/kmeans_c.c:75-85 | one normalisation step: slots 0 .. c hold the pass's first c+1 centroids, and the cursor is the pass's next random call |
| FlatKMeans.Normalize | c/src/kmeans_c.c:74-86 | the buffer holds the centroids of NormalizeUpTo, and the random call index after it is returned |
| FlatKMeans.IterationFlat | c/src/kmeans_c.c:28-86 | one iteration gives the centroids, labels and next random call of IterationC |
| FlatKMeans.InitCentroidsFlat | c/src/kmeans_c.c:15-21 | centroid c becomes a copy of the point picked by random call c |
| FlatKMeans.IterateFlat | c/src/kmeans_c.c:26-87 | exactly maxIter iterations give the centroids and labels of RunC |
| FlatKMeans.KMeansFlat | c/src/kmeans_c.c:9-90 | the centroid buffer ends as the flat layout of ClusterC's centroids and the labels as its labels |
| RowKMeans.IndexRows | c/src/kmeans_c.c:92-93 | distinct centroid rows, none shared with a point row, can be indexed by position |
| RowKMeans.RowPixelsUpTo | c/src/kmeans_c.c:92-93 | rows 0 .. n-1 hold n pixels, pixel d being row d's first three entries |
| RowKMeans.RowPixelsOfRows | c/src/kmeans_c.c:92-93 | rows that hold ps read back as ps |
| RowKMeans.RowDist | c/src/kmeans_c.c:121-125 | the channel loop accumulates the squared distance between two rows |
| RowKMeans.LabelPointRows | c/src/kmeans_c.c:116-133 | label d becomes the first nearest centroid of point d, and no other label changes |
| RowKMeans.AssignLabelsRows | c/src/kmeans_c.c:114-134 | the labels become the assignment of the points to the centroids |
| RowKMeans.AddRow | c/src/kmeans_c.c:150-153 | the point row is added into the centroid row |
| RowKMeans.DivideRow | c/src/kmeans_c.c:163-164 | the centroid row is divided by n |
| RowKMeans.CopyRow | c/src/kmeans_c.c:166-168 | the centroid row becomes a copy of the point row |
| RowKMeans.NullCentroidsRows | c/src/kmeans_c.c:137-140 | every centroid row holds the zero pixel, and the point rows are untouched |
| RowKMeans.SumPointRows | c/src/kmeans_c.c:148-155 | one step of the summing pass: rows and sizes hold the sums and counts of the first d+1 points |
| RowKMeans.SumPointsRows | c/src/kmeans_c.c:147-156 | the centroid rows hold the sum and the sizes the number of the points of each cluster |
| RowKMeans.NormalizeClusterRows | c/src/kmeans_c.c:159-169 | one normalisation step: rows 0 .. c hold the pass's first c+1 centroids |
| RowKMeans.NormalizeRows | c/src/kmeans_c.c:158-170 | the rows hold the centroids of NormalizeUpTo, and the random call index after it is returned |
| RowKMeans.IterationRows | c/src/kmeans_c.c:113-170 | one iteration gives the centroids, labels and next random call of IterationC |
| RowKMeans.RecomputeRows | c/src/kmeans_c.c:136-170 | clearing, summing and normalising turn the rows into NormalizeUpTo of the sums and sizes of the labels |
| RowKMeans.InitCentroidsRows | c/src/kmeans_c.c:98-106 | centroid row c becomes a copy of the point picked by random call c |
| RowKMeans.IterateRows | c/src/kmeans_c.c:111-172 | exactly maxIter iterations give the centroids and labels of RunC |
| RowKMeans.KMeansRows | c/src/kmeans_c.c:92-175 | the centroid rows end holding ClusterC's centroids, the labels its labels: the same as FlatKMeans.KMeansFlat for the same points and random calls |
| RepairFix.CounterexampleAssign | c/src/kmeans.c:86-108 | on points b, a, a with centroids b, a, far (a ≠ b) the labels are 0, 1, 1 |
| RepairFix.Mid | c/src/kmeans.c:86-108 | the state after that assignment is well-shaped |
| RepairFix.CounterexampleState | c/src/kmeans.c:86-108 | that assignment leaves clusters of sizes 1, 2, 0 |
| RepairFix.CounterexampleMoved | c/src/kmeans.c:121-149 | cluster 1 donates to the empty cluster 2, and point 0 is the point chosen |
| RepairFix.CounterexampleRepair | c/src/kmeans.c:117-167 | the repair loop relabels point 0 into cluster 2 and sets every count to 1 |
| RepairFix.RepairMovesNonMember | c/src/kmeans.c:137-166 | on that input the moved point is not a member of the donor. Afterwards cluster 0 counts one point but no point carries label 0, cluster 1 counts one point but two carry its label, and the counts no longer agree with the labels |
| RepairFix.FurthestFixedUpTo | c/src/kmeans.c:137-149 | the corrected candidate is one of the points scanned, or the initial 0 |
| RepairFix.FurthestFixedUpToSpec | c/src/kmeans.c:137-149 | if the donor has a member among the scanned points, the corrected scan holds the first member furthest from the centroid, and its distance. Otherwise it holds point 0 and -1.0 |
| RepairFix.FixedScanAgrees | c/src/kmeans.c:137-149 | once some member lies at a positive distance, the corrected and the written scan hold the same candidate and distance |
| RepairFix.MovedFixed | c/src/kmeans.c:134-152 | the corrected moved point is a valid point index |
| RepairFix.MovedFixedIsMember | c/src/kmeans.c:134-152 | while the counts agree with the labels, the corrected repair moves a member of the donor |
| RepairFix.NoLabel | c/src/kmeans.c:140-141 | a label no point carries counts no point |
| RepairFix.RepairOneFixed | c/src/kmeans.c:117-167 | a corrected step keeps the state well-shaped |
| RepairFix.RepairUpToFixed | c/src/kmeans.c:117-167 | the corrected loop keeps the state well-shaped |
| RepairFix.RepairOneFixedAgreesWithWritten | c/src/kmeans.c:137-149 | when the donor has a member at a positive distance, the corrected step equals the written one |
| RepairFix.RepairOneFixedAgrees | c/src/kmeans.c:151-166 | a corrected step keeps the counts and sums equal to those of the labels |
| RepairFix.RepairUpToFixedAgrees | c/src/kmeans.c:117-167 | the corrected loop keeps the counts and sums equal to those of the labels, with no condition |
| RepairFix.RepairStepFixedAgrees | c/src/kmeans.c:117-167 | one more corrected step keeps the agreement |
| RepairFix.RepairUpToFixedLast | c/src/kmeans.c:117 | unfolding step: the corrected loop over n clusters is the loop over n-1 followed by the step for cluster n-1 |
| RepairFix.RepairOneFixedFills | c/src/kmeans.c:117-167 | a corrected step leaves cluster i non-empty and empties no cluster |
| RepairFix.RepairUpToFixedFills | c/src/kmeans.c:117-167 | after the corrected loop visits clusters 0 .. n-1, none of them is empty and no cluster was emptied |
| RepairFix.RepairedFixed | c/src/kmeans.c:86-167 | after the assignment and the corrected repair, the counts and sums agree with the labels and no cluster is empty |
| RepairFix.IterationFixed | c/src/kmeans.c:79-190 | a corrected iteration gives K centroids and N labels |
| RepairFix.IterationFixedMeans | c/src/kmeans.c:79-190 | every centroid of a corrected iteration is the mean of the pixels labelled with it, and no cluster is empty, on every input with K at most N |
| RepairFix.AsManyClustersAsPointsFixed | c/src/kmeans.c:79-190 | when K equals N, the corrected iteration gives every cluster exactly one pixel, and each pixel's centroid is that pixel itself |
| RepairFix.FixedRepairMovesMember | c/src/kmeans.c:137-166 | on the input of RepairMovesNonMember the corrected repair moves point 1, a member of the donor, and ends with labels 0, 2, 1 |

## Left out

- Parallelism: the OpenMP regions of `kmeans_omp` are read sequentially. This covers the array reduction, the `atomic write` of `done` and the `critical` furthest-point search (c/src/kmeans.c:237-238, 250, 287, 294). Under concurrency the furthest point chosen among exact ties may differ; the model takes the sequential order.
- Floating point: exact `real` arithmetic replaces `double`, so rounding and summation order are not modelled. The squared distance replaces `sqrt`, and "the first candidate always wins" replaces the `DBL_MAX` value.
- Division by zero: once no count is zero, the C averaging divides by a count converted from `size_t` to `double`. The model's `Div` requires a positive count, and the repair proofs show that it gets one.
- Randomness: `srand(time(NULL))` and the values of `rand()` are a parameter `rand`; the clock is not modelled.
- Profiling: the `PROFILE` timing blocks and their `printf` output are not modelled.
- Memory: `malloc`, `calloc` and `free` become Dafny arrays allocated by the methods, and allocation failure is not modelled.
- Integer widths: `size_t` and `int` indices and counts are unbounded `nat`s, so the overflow of `3 * c` or of a count on inputs beyond the machine range is not modelled. Labels are `nat`, not `size_t` or `int`.
- Rows: `kmeans_c2d` reads the first three entries of every row. Longer rows are allowed, and their other entries are ignored.
- KMeansStruct and KMeansOmp require `1 <= n_centroids <= n_pixels`, the callers' precondition. With more clusters than pixels the repair can empty a donor and the averaging then divides by zero. With no pixels, `rand() % n_pixels` is undefined.
- KMeansFlat and KMeansRows require at least one point and one cluster. With no point, `rand() % n_data_points` is undefined. With no cluster, the summing pass reads labels the assignment never wrote.
- AsManyClustersAsPoints: proves only that every repaired count is 1. With the repair as written the labels need not match those counts, as RepairFix.RepairMovesNonMember shows (see "## Findings"). The statement that each cluster holds exactly its own pixel is proved for the corrected repair, as RepairFix.AsManyClustersAsPointsFixed.
- KMeans.KMeansStruct, KMeansOmp.KMeansOmp, FlatKMeans.KMeansFlat and RowKMeans.KMeansRows require separate buffers: `pixels != centroids`, `data != centroids`, and `Separate(data, centroids)`, meaning the centroid rows are pairwise distinct and shared with no point row. What the C code does with aliased buffers or shared rows is not modelled.
- Uninitialised labels: the first iteration of `kmeans_c` in c/src/kmeans.c compares against whatever `labels` held on entry; the model takes those labels as an input.
- Declarations: c/include/kmeans.h and c/include/kmeans_c.h declare `struct pixel` and the signatures only. The header declares `kmeans` while c/src/kmeans.c defines `kmeans_c`; the Dafny names are distinct.
- Not part of this model: the OpenCV wrappers and demos under cpp/ (image loading, windows, timers, command-line parsing, the `cv::kmeans` reference), cpp/include/kmeans_wrapper.h and tool/plot.py.

## Findings

| source | as written | input that shows it | evidently intended | confidence | as-written member | corrected member |
|---|---|---|---|---|---|---|
| c/src/kmeans.c:137-166 (the same code at 285-317 in `kmeans_omp`) | the search for the donor's furthest pixel starts from pixel 0 and distance 0.0 and replaces only on a strictly larger distance, so when every member of the donor lies on the donor's centroid, pixel 0 is moved whatever its cluster, and the count and sum corrections then no longer match the labels | pixels b, a, a with centroids b, a, far, for any a ≠ b: cluster 2 is empty, cluster 1 donates, pixel 0 (of cluster 0) is moved; cluster 0 keeps count 1 with no member and centroid b, and cluster 1 gets count 1, sum 2a − b and centroid 2a − b | the pixel moved is the donor member furthest from its centroid | medium, not executed | RepairFix.RepairMovesNonMember | RepairFix.IterationFixedMeans |
