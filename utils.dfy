/**
 * Profile and selection utilities: list statistics, the arg-max of a profile, per-slice
 * centroids and voxel counts, intensity profiles along an axis, the watershed seed rule
 * with its boundary and local-maximum tests, masking, thresholding and the centre voxel.
 *
 * An image is walked in cursor order. A slice perpendicular to an axis is the sequence
 * of its voxels; an image cut into slices along an axis is the sequence of its slices,
 * slice i lying at coordinate min + i.
 */
module Utils {
  import opened Numerics
  import opened Transforms
  import Algorithms

  // ---------------------------------------------------------------------------
  // sum, mean and median of a list

  /** The sum of a list, added up in list order; 0 for the empty list. */
  method SumOf(a: seq<real>) returns (sum: real)
    ensures sum == Sum(a)
  {
    sum := 0.0;
    if |a| > 0 {
      for k := 0 to |a|
        invariant sum == Sum(a[..k])
      {
        assert a[..k + 1][..k] == a[..k];
        sum := sum + a[k];
      }
      assert a[..|a|] == a;
    }
  }

  /** A sum lies between the length times the smallest and the length times the largest element. */
  lemma {:induction false} SumBounds(a: seq<real>, lo: real, hi: real)
    requires forall k :: 0 <= k < |a| ==> lo <= a[k] <= hi
    ensures |a| as real * lo <= Sum(a) <= |a| as real * hi
    decreases |a|
  {
    if a != [] {
      SumBounds(a[..|a| - 1], lo, hi);
    }
  }

  /** The mean of a list; none for the empty list, where the source divides 0 by 0. */
  function AverageOf(a: seq<real>): (r: Option<real>)
    ensures r.None? <==> a == []
    ensures r.Some? ==> r.value * |a| as real == Sum(a)
  {
    if a == [] then None else Some(Sum(a) / |a| as real)
  }

  /** An average lies between the smallest and the largest element it is taken over. */
  lemma AverageBetween(a: seq<real>, lo: real, hi: real)
    requires a != [] && forall k :: 0 <= k < |a| ==> lo <= a[k] <= hi
    ensures AverageOf(a).Some? && lo <= AverageOf(a).value <= hi
  {
    SumBounds(a, lo, hi);
    var n := |a| as real;
    assert Sum(a) >= lo * n && Sum(a) <= hi * n;
    DivAtLeast(Sum(a), n, lo);
    DivAtMost(Sum(a), n, hi);
  }

  /** The mean, the sum divided by the length. */
  method Mean(a: seq<real>) returns (mean: Option<real>)
    ensures mean == AverageOf(a)
    ensures mean.None? <==> a == []
  {
    var sum := SumOf(a);
    if |a| == 0 {
      mean := None;
    } else {
      mean := Some(sum / (|a| as real * 1.0));
    }
  }

  /**
   * The median: the middle element of an odd-length list, the mean of the two middle
   * elements of an even-length one; none for the empty list, where the source reads
   * index -1.
   */
  function Median(a: seq<real>): (r: Option<real>)
    ensures r.None? <==> a == []
    ensures r.Some? ==> exists i, j :: 0 <= i < |a| && 0 <= j < |a| && a[i] <= r.value <= a[j]
  {
    var middle := |a| / 2;
    if |a| == 0 then None
    else if |a| % 2 == 1 then Some(a[middle])
    else
      var m := (a[middle - 1] + a[middle]) / 2.0;
      if a[middle - 1] <= a[middle] then
        assert a[middle - 1] <= m <= a[middle];
        Some(m)
      else
        assert a[middle] <= m <= a[middle - 1];
        Some(m)
  }

  predicate Sorted(a: seq<real>)
  {
    forall i, j :: 0 <= i < j < |a| ==> a[i] <= a[j]
  }

  /**
   * The median of a sorted, non-empty list lies between its first and last element, and
   * splits it: every element before the middle index is at most the median, every
   * element from the middle index on is at least the median.
   */
  lemma MedianOfSorted(a: seq<real>)
    requires Sorted(a) && |a| > 0
    ensures Median(a).Some?
    ensures a[0] <= Median(a).value <= a[|a| - 1]
    ensures forall k :: 0 <= k < (|a| - 1) / 2 ==> a[k] <= Median(a).value
    ensures forall k :: |a| / 2 <= k < |a| ==> Median(a).value <= a[k]
  {
    var m := |a| / 2;
    if |a| % 2 == 0 {
      assert a[m - 1] <= a[m];
      assert a[0] <= a[m - 1];
    }
  }

  // ---------------------------------------------------------------------------
  // location of the maximum of a profile

  /** A null range admits every coordinate; otherwise the closed range [r.0, r.1]. */
  predicate InRange(c: real, range: Option<(real, real)>)
  {
    range.None? || (range.value.0 <= c && c <= range.value.1)
  }

  /** The (maximum, location) the source's scan holds after its first k steps. */
  function MaxScan(coordinates: seq<real>, values: seq<real>, range: Option<(real, real)>, k: nat): (real, real)
    requires |coordinates| > 0 && k <= |values| <= |coordinates|
  {
    if k == 0 then (DoubleMinValue, coordinates[0])
    else
      var (max, loc) := MaxScan(coordinates, values, range, k - 1);
      var i := k - 1;
      if InRange(coordinates[i], range) && values[i] > max then (values[i], coordinates[i]) else (max, loc)
  }

  /** The location `computeMaxLoc` returns. */
  function MaxLocOf(coordinates: seq<real>, values: seq<real>, range: Option<(real, real)>): real
    requires |coordinates| > 0 && |values| <= |coordinates|
  {
    MaxScan(coordinates, values, range, |values|).1
  }

  /** Index i takes part in the scan and beats Double.MIN_VALUE. */
  predicate Candidate(coordinates: seq<real>, values: seq<real>, range: Option<(real, real)>, i: int)
    requires 0 <= i < |values| <= |coordinates|
  {
    InRange(coordinates[i], range) && values[i] > DoubleMinValue
  }

  /** Index i is a candidate whose value is the largest of the first k in range, and earlier in-range values are smaller. */
  ghost predicate Winner(coordinates: seq<real>, values: seq<real>, range: Option<(real, real)>, k: nat, i: int)
    requires k <= |values| <= |coordinates|
  {
    0 <= i < k && Candidate(coordinates, values, range, i) &&
    (forall j :: 0 <= j < k && InRange(coordinates[j], range) ==> values[j] <= values[i]) &&
    (forall j :: 0 <= j < i && InRange(coordinates[j], range) ==> values[j] < values[i])
  }

  /** Without a candidate among the first k values, the scan still holds its start state. */
  lemma {:induction false} MaxScanWithoutCandidate(coordinates: seq<real>, values: seq<real>,
                                                   range: Option<(real, real)>, k: nat)
    requires |coordinates| > 0 && k <= |values| <= |coordinates|
    requires forall i :: 0 <= i < k ==> !Candidate(coordinates, values, range, i)
    ensures MaxScan(coordinates, values, range, k) == (DoubleMinValue, coordinates[0])
    decreases k
  {
    if k > 0 {
      MaxScanWithoutCandidate(coordinates, values, range, k - 1);
      assert !Candidate(coordinates, values, range, k - 1);
    }
  }

  /** With a candidate among the first k values, the scan holds the value and coordinate of a winner, w. */
  lemma {:induction false} MaxScanWithCandidate(coordinates: seq<real>, values: seq<real>,
                                                range: Option<(real, real)>, k: nat, c: nat)
    returns (w: nat)
    requires |coordinates| > 0 && k <= |values| <= |coordinates|
    requires c < k && Candidate(coordinates, values, range, c)
    ensures Winner(coordinates, values, range, k, w)
    ensures MaxScan(coordinates, values, range, k) == (values[w], coordinates[w])
    decreases k
  {
    var i := k - 1;
    if exists j :: 0 <= j < k - 1 && Candidate(coordinates, values, range, j) {
      var j :| 0 <= j < k - 1 && Candidate(coordinates, values, range, j);
      var v := MaxScanWithCandidate(coordinates, values, range, k - 1, j);
      w := MaxScanStep(coordinates, values, range, k, v);
    } else {
      MaxScanWithoutCandidate(coordinates, values, range, k - 1);
      forall j | 0 <= j < k - 1 && InRange(coordinates[j], range)
        ensures values[j] <= DoubleMinValue
      {
        assert !Candidate(coordinates, values, range, j);
      }
      w := i;
    }
  }

  /** One step of the scan from a winner of the first k - 1 values to a winner of the first k. */
  lemma MaxScanStep(coordinates: seq<real>, values: seq<real>, range: Option<(real, real)>, k: nat, v: nat)
    returns (w: nat)
    requires |coordinates| > 0 && 0 < k <= |values| <= |coordinates|
    requires Winner(coordinates, values, range, k - 1, v)
    requires MaxScan(coordinates, values, range, k - 1) == (values[v], coordinates[v])
    ensures Winner(coordinates, values, range, k, w)
    ensures MaxScan(coordinates, values, range, k) == (values[w], coordinates[w])
  {
    var i := k - 1;
    if InRange(coordinates[i], range) && values[i] > values[v] {
      w := i;
    } else {
      w := v;
    }
  }

  lemma MaxScanInvariant(coordinates: seq<real>, values: seq<real>, range: Option<(real, real)>, k: nat)
    requires |coordinates| > 0 && k <= |values| <= |coordinates|
    ensures var (max, loc) := MaxScan(coordinates, values, range, k);
      ((forall i :: 0 <= i < k ==> !Candidate(coordinates, values, range, i)) ==>
        max == DoubleMinValue && loc == coordinates[0]) &&
      ((exists i :: 0 <= i < k && Candidate(coordinates, values, range, i)) ==>
        exists i :: 0 <= i < k && Candidate(coordinates, values, range, i) &&
          max == values[i] && loc == coordinates[i] &&
          (forall j :: 0 <= j < k && InRange(coordinates[j], range) ==> values[j] <= values[i]) &&
          (forall j :: 0 <= j < i && InRange(coordinates[j], range) ==> values[j] < values[i]))
  {
    if exists c :: 0 <= c < k && Candidate(coordinates, values, range, c) {
      var c :| 0 <= c < k && Candidate(coordinates, values, range, c);
      var w := MaxScanWithCandidate(coordinates, values, range, k, c);
    } else {
      MaxScanWithoutCandidate(coordinates, values, range, k);
    }
  }

  /** The scan's running maximum never drops below its start value, Double.MIN_VALUE. */
  lemma {:induction false} MaxScanAtLeastStart(coordinates: seq<real>, values: seq<real>, range: Option<(real, real)>, k: nat)
    requires |coordinates| > 0 && k <= |values| <= |coordinates|
    ensures MaxScan(coordinates, values, range, k).0 >= DoubleMinValue
    decreases k
  {
    if k > 0 {
      MaxScanAtLeastStart(coordinates, values, range, k - 1);
    }
  }

  /**
   * Values at or below Double.MIN_VALUE never win the scan, so exchanging one such value
   * for another (a not-a-number average for 0, say) leaves the scan unchanged.
   */
  lemma {:induction false} MaxScanIgnoresSmallValues(coordinates: seq<real>, values: seq<real>, other: seq<real>,
                                                     range: Option<(real, real)>, k: nat)
    requires |coordinates| > 0 && k <= |values| <= |coordinates| && |other| == |values|
    requires forall i :: 0 <= i < |values| ==>
      values[i] == other[i] || (values[i] <= DoubleMinValue && other[i] <= DoubleMinValue)
    ensures MaxScan(coordinates, values, range, k) == MaxScan(coordinates, other, range, k)
    decreases k
  {
    if k > 0 {
      MaxScanIgnoresSmallValues(coordinates, values, other, range, k - 1);
      MaxScanAtLeastStart(coordinates, values, range, k - 1);
    }
  }

  /**
   * The coordinate of the first in-range value that is greater than every earlier in-range
   * value and than Double.MIN_VALUE; coordinates[0] when no in-range value exceeds
   * Double.MIN_VALUE.
   */
  method ComputeMaxLoc(coordinates: seq<real>, values: seq<real>, range: Option<(real, real)>) returns (maxLoc: real)
    requires |coordinates| > 0 && |values| <= |coordinates|
    ensures maxLoc == MaxLocOf(coordinates, values, range)
    ensures (forall i :: 0 <= i < |values| ==> !Candidate(coordinates, values, range, i)) ==> maxLoc == coordinates[0]
    ensures (exists i :: 0 <= i < |values| && Candidate(coordinates, values, range, i)) ==>
      exists i :: 0 <= i < |values| && Candidate(coordinates, values, range, i) && maxLoc == coordinates[i] &&
        (forall j :: 0 <= j < |values| && InRange(coordinates[j], range) ==> values[j] <= values[i]) &&
        (forall j :: 0 <= j < i && InRange(coordinates[j], range) ==> values[j] < values[i])
  {
    var max := DoubleMinValue;
    maxLoc := coordinates[0];
    for i := 0 to |values|
      invariant (max, maxLoc) == MaxScan(coordinates, values, range, i)
    {
      if range.Some? {
        if coordinates[i] < range.value.0 {
          continue;
        }
        if coordinates[i] > range.value.1 {
          continue;
        }
      }
      if values[i] > max {
        max := values[i];
        maxLoc := coordinates[i];
      }
    }
    MaxScanInvariant(coordinates, values, range, |values|);
  }

  // ---------------------------------------------------------------------------
  // centroids and voxel counts of the slices of a binary mask

  /** A voxel of a binary slice: its position within the slice and whether it is set. */
  datatype SliceVoxel = SliceVoxel(position: seq<int>, on: bool)

  predicate HasDimensions(slice: seq<SliceVoxel>, n: nat)
  {
    forall k :: 0 <= k < |slice| ==> |slice[k].position| == n
  }

  /** Number of set voxels. */
  function ForegroundCount(slice: seq<SliceVoxel>): nat
  {
    if slice == [] then 0
    else ForegroundCount(slice[..|slice| - 1]) + (if slice[|slice| - 1].on then 1 else 0)
  }

  lemma {:induction false} ForegroundCountBounds(slice: seq<SliceVoxel>)
    ensures ForegroundCount(slice) <= |slice|
    ensures ForegroundCount(slice) == 0 <==> forall k :: 0 <= k < |slice| ==> !slice[k].on
    decreases |slice|
  {
    if slice != [] {
      var init := slice[..|slice| - 1];
      ForegroundCountBounds(init);
      assert forall k :: 0 <= k < |init| ==> init[k] == slice[k];
    }
  }

  /** Sum of coordinate d over the set voxels. */
  function CoordinateSum(slice: seq<SliceVoxel>, n: nat, d: nat): real
    requires HasDimensions(slice, n) && d < n
  {
    if slice == [] then 0.0
    else
      var last := slice[|slice| - 1];
      CoordinateSum(slice[..|slice| - 1], n, d) + (if last.on then last.position[d] as real else 0.0)
  }

  /**
   * The centroid as the source computes it: the point counter is advanced once per
   * dimension of every set voxel, so each coordinate sum is divided by n times the number
   * of set voxels; none when that product is zero.
   */
  function CentroidAsWritten(slice: seq<SliceVoxel>, n: nat): (c: Option<seq<real>>)
    requires HasDimensions(slice, n)
    ensures c.None? <==> n == 0 || ForegroundCount(slice) == 0
    ensures c.Some? ==> |c.value| == n
  {
    var numPoints := n * ForegroundCount(slice);
    if numPoints > 0 then Some(seq(n, d requires 0 <= d < n => CoordinateSum(slice, n, d) / numPoints as real))
    else None
  }

  /** The centroid of the set voxels: each coordinate sum divided by their number; none if there are none. */
  function Centroid(slice: seq<SliceVoxel>, n: nat): (c: Option<seq<real>>)
    requires HasDimensions(slice, n)
    ensures c.None? <==> ForegroundCount(slice) == 0
    ensures c.Some? ==> |c.value| == n
  {
    var count := ForegroundCount(slice);
    if count > 0 then Some(seq(n, d requires 0 <= d < n => CoordinateSum(slice, n, d) / count as real))
    else None
  }

  lemma {:induction false} CoordinateSumOfCommonCoordinate(slice: seq<SliceVoxel>, n: nat, d: nat, v: int)
    requires HasDimensions(slice, n) && d < n
    requires forall k :: 0 <= k < |slice| && slice[k].on ==> slice[k].position[d] == v
    ensures CoordinateSum(slice, n, d) == v as real * ForegroundCount(slice) as real
    decreases |slice|
  {
    if slice != [] {
      var init := slice[..|slice| - 1];
      assert forall k :: 0 <= k < |init| ==> init[k] == slice[k];
      CoordinateSumOfCommonCoordinate(init, n, d, v);
    }
  }

  /** When every set voxel has coordinate v on axis d, the centroid has coordinate v on axis d. */
  lemma {:induction false} CentroidOfCommonCoordinate(slice: seq<SliceVoxel>, n: nat, d: nat, v: int)
    requires HasDimensions(slice, n) && d < n && ForegroundCount(slice) > 0
    requires forall k :: 0 <= k < |slice| && slice[k].on ==> slice[k].position[d] == v
    ensures Centroid(slice, n).Some? && Centroid(slice, n).value[d] == v as real
  {
    var count := ForegroundCount(slice) as real;
    var sum := CoordinateSum(slice, n, d);
    assert Centroid(slice, n).value[d] == sum / count;
    CoordinateSumOfCommonCoordinate(slice, n, d, v);
    var vr := v as real;
    assert sum == vr * count;
    DivOfProduct(vr, count);
    assert sum / count == (vr * count) / count;
  }

  /**
   * A slice of a 3D mask with a single set voxel at (2, 4): the source's centroid is
   * (1, 2), half of the voxel's position, while the centroid is (2, 4) itself.
   */
  lemma CentroidAsWrittenHalvesPosition()
    ensures CentroidAsWritten([SliceVoxel([2, 4], true)], 2) == Some([1.0, 2.0])
    ensures Centroid([SliceVoxel([2, 4], true)], 2) == Some([2.0, 4.0])
  {
    var s := [SliceVoxel([2, 4], true)];
    assert s[..0] == [];
    assert ForegroundCount(s) == 1;
    assert CoordinateSum(s, 2, 0) == 2.0;
    assert CoordinateSum(s, 2, 1) == 4.0;
    assert CentroidAsWritten(s, 2).value == [1.0, 2.0];
    assert Centroid(s, 2).value == [2.0, 4.0];
  }

  /** The source's centroid is the centroid divided by the number of dimensions, on every axis. */
  lemma CentroidAsWrittenIsScaledCentroid(slice: seq<SliceVoxel>, n: nat, d: nat)
    requires HasDimensions(slice, n) && d < n && ForegroundCount(slice) > 0
    ensures CentroidAsWritten(slice, n).Some? && Centroid(slice, n).Some?
    ensures CentroidAsWritten(slice, n).value[d] == Centroid(slice, n).value[d] / n as real
  {
    var sum := CoordinateSum(slice, n, d);
    var count := ForegroundCount(slice) as real;
    var dims := n as real;
    assert (n * ForegroundCount(slice)) as real == dims * count;
    assert CentroidAsWritten(slice, n).value[d] == sum / (dims * count);
    assert Centroid(slice, n).value[d] == sum / count;
    DivOfDiv(sum, dims, count);
  }

  /** How the count and the coordinate sums grow by one voxel of the cursor. */
  lemma ExtendSlice(slice: seq<SliceVoxel>, n: nat, k: nat)
    requires HasDimensions(slice, n) && k < |slice|
    ensures ForegroundCount(slice[..k + 1]) == ForegroundCount(slice[..k]) + (if slice[k].on then 1 else 0)
    ensures forall d :: 0 <= d < n ==>
      CoordinateSum(slice[..k + 1], n, d) ==
        CoordinateSum(slice[..k], n, d) + (if slice[k].on then slice[k].position[d] as real else 0.0)
  {
    assert slice[..k + 1][..k] == slice[..k];
  }

  /** Adds a voxel's position to the running coordinate sums, one dimension at a time. */
  method AddPosition(sums: array<real>, p: seq<int>)
    requires |p| == sums.Length
    modifies sums
    ensures forall d :: 0 <= d < sums.Length ==> sums[d] == old(sums[d]) + p[d] as real
  {
    for d := 0 to sums.Length
      invariant forall e :: 0 <= e < d ==> sums[e] == old(sums[e]) + p[e] as real
      invariant forall e :: d <= e < sums.Length ==> sums[e] == old(sums[e])
    {
      sums[d] := sums[d] + p[d] as real;
    }
  }

  /** Divides every coordinate sum by the point count. */
  method DivideAll(sums: array<real>, total: real)
    requires total > 0.0
    modifies sums
    ensures forall d :: 0 <= d < sums.Length ==> sums[d] == old(sums[d]) / total
  {
    for d := 0 to sums.Length
      invariant forall e :: 0 <= e < d ==> sums[e] == old(sums[e]) / total
      invariant forall e :: d <= e < sums.Length ==> sums[e] == old(sums[e])
    {
      sums[d] := sums[d] / (1.0 * total);
    }
  }

  /** The source's per-slice centroid, with the counter it advances once per dimension and voxel. */
  method ComputeCentroidPerpendicularToAxis(slice: seq<SliceVoxel>, n: nat) returns (centroid: Option<seq<real>>)
    requires HasDimensions(slice, n)
    ensures centroid == CentroidAsWritten(slice, n)
  {
    var sums := new real[n](_ => 0.0);
    var numPoints := 0;
    for k := 0 to |slice|
      invariant numPoints == n * ForegroundCount(slice[..k])
      invariant forall d :: 0 <= d < n ==> sums[d] == CoordinateSum(slice[..k], n, d)
    {
      ExtendSlice(slice, n, k);
      if slice[k].on {
        AddPosition(sums, slice[k].position);
        numPoints := numPoints + n;
        assert n * (ForegroundCount(slice[..k]) + 1) == n * ForegroundCount(slice[..k]) + n;
      }
    }
    assert slice[..|slice|] == slice;
    if numPoints > 0 {
      var total := numPoints as real;
      DivideAll(sums, total);
      centroid := Some(sums[..]);
      assert sums[..] == seq(n, d requires 0 <= d < n => CoordinateSum(slice, n, d) / total);
    } else {
      centroid := None;
    }
  }

  /** Number of set voxels of the slice. */
  method ComputeNumberOfVoxelsPerpendicularToAxis(slice: seq<SliceVoxel>) returns (numPoints: nat)
    ensures numPoints == ForegroundCount(slice)
    ensures numPoints <= |slice|
  {
    numPoints := 0;
    for k := 0 to |slice|
      invariant numPoints == ForegroundCount(slice[..k])
    {
      assert slice[..k + 1][..k] == slice[..k];
      if slice[k].on {
        numPoints := numPoints + 1;
      }
    }
    assert slice[..|slice|] == slice;
    ForegroundCountBounds(slice);
  }

  /** Sum of the squared components. */
  function SquaredNorm(v: seq<real>): (r: real)
    ensures r >= 0.0
  {
    if v == [] then 0.0 else SquaredNorm(v[..|v| - 1]) + v[|v| - 1] * v[|v| - 1]
  }

  /** Euclidean length: the square root (`sqrt`) of the summed squares. */
  function Length(v: seq<real>, sqrt: real -> real): real
  {
    sqrt(SquaredNorm(v))
  }

  /** Euclidean length, as the square root (`sqrt`) of the summed squares. */
  method VectorLength(vector: seq<real>, sqrt: real -> real) returns (norm: real)
    ensures norm == Length(vector, sqrt)
  {
    var squares := 0.0;
    for d := 0 to |vector|
      invariant squares == SquaredNorm(vector[..d])
    {
      assert vector[..d + 1][..d] == vector[..d];
      squares := squares + vector[d] * vector[d];
    }
    assert vector[..|vector|] == vector;
    norm := sqrt(squares);
  }

  /** The parallel lists the centroid profile collects, one entry per kept slice. */
  datatype CentroidsParameters = CentroidsParameters(
    distances: seq<real>, angles: seq<real>, axisCoordinates: seq<real>,
    centroids: seq<seq<real>>, numVoxels: seq<real>)

  /** A length in pixels as a length in micrometres. */
  function Calibrated(v: real, calibration: real): real
  {
    v * calibration
  }

  /** The calibrated position of coordinate x along the axis. */
  function AxisPosition(x: int, calibration: real): real
  {
    x as real * calibration
  }

  /** Slice i lies strictly within maxDistanceToCenter of the origin and has a set voxel. */
  predicate KeepsSlice(slices: seq<seq<SliceVoxel>>, minX: int, calibration: real, maxDistanceToCenter: real, i: int)
    requires 0 <= i < |slices|
  {
    Abs(AxisPosition(minX + i, calibration)) < maxDistanceToCenter && ForegroundCount(slices[i]) > 0
  }

  /** Indices of the kept slices among the first `upTo`, in ascending order. */
  function KeptSlices(slices: seq<seq<SliceVoxel>>, minX: int, calibration: real, maxDistanceToCenter: real, upTo: nat)
    : seq<nat>
    requires upTo <= |slices|
  {
    if upTo == 0 then []
    else
      KeptSlices(slices, minX, calibration, maxDistanceToCenter, upTo - 1) +
      (if KeepsSlice(slices, minX, calibration, maxDistanceToCenter, upTo - 1) then [upTo - 1] else [])
  }

  /** The kept indices are ascending, each is kept, and no kept slice is missing. */
  lemma {:induction false} KeptSlicesProperties(slices: seq<seq<SliceVoxel>>, minX: int, calibration: real,
                                                maxDistanceToCenter: real, upTo: nat)
    requires upTo <= |slices|
    ensures var kept := KeptSlices(slices, minX, calibration, maxDistanceToCenter, upTo);
      (forall k :: 0 <= k < |kept| ==> kept[k] < upTo && KeepsSlice(slices, minX, calibration, maxDistanceToCenter, kept[k])) &&
      (forall k, l :: 0 <= k < l < |kept| ==> kept[k] < kept[l]) &&
      (forall i :: 0 <= i < upTo && KeepsSlice(slices, minX, calibration, maxDistanceToCenter, i) ==> i in kept)
    decreases upTo
  {
    if upTo > 0 {
      KeptSlicesProperties(slices, minX, calibration, maxDistanceToCenter, upTo - 1);
    }
  }

  /** The 3D point of a slice centroid: the slice's X coordinate and the centroid's Y and Z, all calibrated. */
  function CalibratedCentroid(x: int, centroid: seq<real>, calibration: real): (point: seq<real>)
    requires |centroid| == 2
    ensures |point| == 3
  {
    [x as real * calibration, centroid[0] * calibration, centroid[1] * calibration]
  }

  /** The entry a kept slice i contributes to each of the five lists, from the slice's centroid as the source computes it. */
  predicate IsProfileEntry(p: CentroidsParameters, k: nat, slices: seq<seq<SliceVoxel>>, i: nat, minX: int,
                           calibration: real, sqrt: real -> real, angleOf: seq<real> -> real)
    requires k < |p.distances| && k < |p.angles| && k < |p.axisCoordinates| && k < |p.centroids| && k < |p.numVoxels|
    requires i < |slices| && HasDimensions(slices[i], 2)
  {
    var c := CentroidAsWritten(slices[i], 2);
    c.Some? &&
    p.distances[k] == Calibrated(Length(c.value, sqrt), calibration) &&
    p.angles[k] == angleOf(c.value) &&
    p.axisCoordinates[k] == AxisPosition(minX + i, calibration) &&
    p.centroids[k] == CalibratedCentroid(minX + i, c.value, calibration) &&
    p.numVoxels[k] == ForegroundCount(slices[i]) as real
  }

  /** Entry k of every list comes from the k-th kept slice, and there are as many entries as kept slices. */
  predicate IsCentroidsProfile(p: CentroidsParameters, kept: seq<nat>, slices: seq<seq<SliceVoxel>>, minX: int,
                               calibration: real, sqrt: real -> real, angleOf: seq<real> -> real)
    requires forall i :: 0 <= i < |slices| ==> HasDimensions(slices[i], 2)
  {
    |p.distances| == |kept| && |p.angles| == |kept| && |p.axisCoordinates| == |kept| &&
    |p.centroids| == |kept| && |p.numVoxels| == |kept| &&
    forall k :: 0 <= k < |kept| ==>
      kept[k] < |slices| && IsProfileEntry(p, k, slices, kept[k], minX, calibration, sqrt, angleOf)
  }

  /** A slice that is not kept adds nothing to the kept indices. */
  lemma KeptSlicesSkip(slices: seq<seq<SliceVoxel>>, minX: int, calibration: real, maxDistanceToCenter: real, i: nat)
    requires i < |slices| && !KeepsSlice(slices, minX, calibration, maxDistanceToCenter, i)
    ensures KeptSlices(slices, minX, calibration, maxDistanceToCenter, i + 1) ==
            KeptSlices(slices, minX, calibration, maxDistanceToCenter, i)
  {
    assert KeptSlices(slices, minX, calibration, maxDistanceToCenter, i + 1) ==
           KeptSlices(slices, minX, calibration, maxDistanceToCenter, i) + [];
  }

  /** The profile with one more entry at the end of each list. */
  function Append(p: CentroidsParameters, distance: real, angle: real, axisCoordinate: real,
                  centroid: seq<real>, numVoxels: real): CentroidsParameters
  {
    CentroidsParameters(p.distances + [distance], p.angles + [angle], p.axisCoordinates + [axisCoordinate],
                        p.centroids + [centroid], p.numVoxels + [numVoxels])
  }

  /** Appending the entry of a kept slice i to the profile of the slices before i gives the profile up to i + 1. */
  lemma ProfileStep(p0: CentroidsParameters, slices: seq<seq<SliceVoxel>>, i: nat, minX: int, calibration: real,
                    maxDistanceToCenter: real, sqrt: real -> real, angleOf: seq<real> -> real)
    requires forall j :: 0 <= j < |slices| ==> HasDimensions(slices[j], 2)
    requires i < |slices| && KeepsSlice(slices, minX, calibration, maxDistanceToCenter, i)
    requires IsCentroidsProfile(p0, KeptSlices(slices, minX, calibration, maxDistanceToCenter, i),
                                slices, minX, calibration, sqrt, angleOf)
    ensures var c := CentroidAsWritten(slices[i], 2).value;
      IsCentroidsProfile(Append(p0, Calibrated(Length(c, sqrt), calibration), angleOf(c), AxisPosition(minX + i, calibration),
                                CalibratedCentroid(minX + i, c, calibration), ForegroundCount(slices[i]) as real),
                         KeptSlices(slices, minX, calibration, maxDistanceToCenter, i + 1),
                         slices, minX, calibration, sqrt, angleOf)
  {
    var c := CentroidAsWritten(slices[i], 2).value;
    var p := Append(p0, Calibrated(Length(c, sqrt), calibration), angleOf(c), AxisPosition(minX + i, calibration),
                    CalibratedCentroid(minX + i, c, calibration), ForegroundCount(slices[i]) as real);
    var kept := KeptSlices(slices, minX, calibration, maxDistanceToCenter, i);
    assert KeptSlices(slices, minX, calibration, maxDistanceToCenter, i + 1) == kept + [i];
    assert IsProfileEntry(p, |kept|, slices, i, minX, calibration, sqrt, angleOf);
    forall k | 0 <= k < |kept|
      ensures IsProfileEntry(p, k, slices, kept[k], minX, calibration, sqrt, angleOf)
    {
      assert IsProfileEntry(p0, k, slices, kept[k], minX, calibration, sqrt, angleOf);
      assert p.distances[k] == p0.distances[k] && p.angles[k] == p0.angles[k] &&
             p.axisCoordinates[k] == p0.axisCoordinates[k] && p.centroids[k] == p0.centroids[k] &&
             p.numVoxels[k] == p0.numVoxels[k];
    }
  }

  /** The lists the source builds from the first `upTo` slices: one entry appended per kept slice. */
  function ProfileUpTo(slices: seq<seq<SliceVoxel>>, minX: int, calibration: real, maxDistanceToCenter: real,
                       sqrt: real -> real, angleOf: seq<real> -> real, upTo: nat): CentroidsParameters
    requires upTo <= |slices| && forall j :: 0 <= j < |slices| ==> HasDimensions(slices[j], 2)
  {
    if upTo == 0 then CentroidsParameters([], [], [], [], [])
    else
      var p := ProfileUpTo(slices, minX, calibration, maxDistanceToCenter, sqrt, angleOf, upTo - 1);
      var i := upTo - 1;
      if KeepsSlice(slices, minX, calibration, maxDistanceToCenter, i) then
        var c := CentroidAsWritten(slices[i], 2).value;
        Append(p, Calibrated(Length(c, sqrt), calibration), angleOf(c), AxisPosition(minX + i, calibration),
               CalibratedCentroid(minX + i, c, calibration), ForegroundCount(slices[i]) as real)
      else p
  }

  /** One more slice appends its entry exactly when it is kept. */
  lemma ProfileUpToStep(slices: seq<seq<SliceVoxel>>, minX: int, calibration: real, maxDistanceToCenter: real,
                        sqrt: real -> real, angleOf: seq<real> -> real, i: nat)
    requires i < |slices| && forall j :: 0 <= j < |slices| ==> HasDimensions(slices[j], 2)
    ensures var p := ProfileUpTo(slices, minX, calibration, maxDistanceToCenter, sqrt, angleOf, i);
      var c := CentroidAsWritten(slices[i], 2);
      ProfileUpTo(slices, minX, calibration, maxDistanceToCenter, sqrt, angleOf, i + 1) ==
      if KeepsSlice(slices, minX, calibration, maxDistanceToCenter, i) then
        Append(p, Calibrated(Length(c.value, sqrt), calibration), angleOf(c.value), AxisPosition(minX + i, calibration),
               CalibratedCentroid(minX + i, c.value, calibration), ForegroundCount(slices[i]) as real)
      else p
  {
  }

  /** Entry k of the lists built from the first `upTo` slices describes the k-th kept slice, and nothing else is there. */
  lemma {:induction false} ProfileUpToIsProfile(slices: seq<seq<SliceVoxel>>, minX: int, calibration: real,
                                                maxDistanceToCenter: real, sqrt: real -> real,
                                                angleOf: seq<real> -> real, upTo: nat)
    requires upTo <= |slices| && forall j :: 0 <= j < |slices| ==> HasDimensions(slices[j], 2)
    ensures IsCentroidsProfile(ProfileUpTo(slices, minX, calibration, maxDistanceToCenter, sqrt, angleOf, upTo),
                               KeptSlices(slices, minX, calibration, maxDistanceToCenter, upTo),
                               slices, minX, calibration, sqrt, angleOf)
    decreases upTo
  {
    if upTo > 0 {
      var i := upTo - 1;
      ProfileUpToIsProfile(slices, minX, calibration, maxDistanceToCenter, sqrt, angleOf, i);
      if KeepsSlice(slices, minX, calibration, maxDistanceToCenter, i) {
        ProfileStep(ProfileUpTo(slices, minX, calibration, maxDistanceToCenter, sqrt, angleOf, i),
                    slices, i, minX, calibration, maxDistanceToCenter, sqrt, angleOf);
      } else {
        KeptSlicesSkip(slices, minX, calibration, maxDistanceToCenter, i);
      }
    }
  }

  /**
   * The centroid profile along X: one entry per kept slice, in ascending X, holding the
   * centroid's length and angle, the axis coordinate, the centroid and the voxel count.
   * `sqrt` is the square root and `angleOf` the angle the source derives from a centroid.
   */
  method ComputeCentroidsParametersAlongXAxis(slices: seq<seq<SliceVoxel>>, minX: int, calibration: real,
                                              maxDistanceToCenter: real, sqrt: real -> real,
                                              angleOf: seq<real> -> real)
    returns (p: CentroidsParameters)
    requires forall i :: 0 <= i < |slices| ==> HasDimensions(slices[i], 2)
    ensures p == ProfileUpTo(slices, minX, calibration, maxDistanceToCenter, sqrt, angleOf, |slices|)
    ensures IsCentroidsProfile(p, KeptSlices(slices, minX, calibration, maxDistanceToCenter, |slices|),
                               slices, minX, calibration, sqrt, angleOf)
  {
    p := CentroidsParameters([], [], [], [], []);
    for i := 0 to |slices|
      invariant p == ProfileUpTo(slices, minX, calibration, maxDistanceToCenter, sqrt, angleOf, i)
    {
      var coordinate := minX + i;
      if Abs(AxisPosition(coordinate, calibration)) < maxDistanceToCenter {
        var centroid := ComputeCentroidPerpendicularToAxis(slices[i], 2);
        var numVoxels := ComputeNumberOfVoxelsPerpendicularToAxis(slices[i]);
        if centroid.Some? {
          var c := centroid.value;
          var length := VectorLength(c, sqrt);
          var entry := CalibratedCentroid(coordinate, c, calibration);
          ProfileUpToStep(slices, minX, calibration, maxDistanceToCenter, sqrt, angleOf, i);
          p := Append(p, Calibrated(length, calibration), angleOf(c), AxisPosition(coordinate, calibration), entry,
                      numVoxels as real);
        } else {
          ProfileUpToStep(slices, minX, calibration, maxDistanceToCenter, sqrt, angleOf, i);
        }
      } else {
        ProfileUpToStep(slices, minX, calibration, maxDistanceToCenter, sqrt, angleOf, i);
      }
    }
    ProfileUpToIsProfile(slices, minX, calibration, maxDistanceToCenter, sqrt, angleOf, |slices|);
  }

  // ---------------------------------------------------------------------------
  // intensity averages and profiles along an axis

  /** A voxel of an intensity slice: its position within the slice and its value. */
  datatype Voxel = Voxel(position: seq<real>, value: real)

  /** Values of the voxels whose position lies within `maxAxisDist` of the axis, in cursor order. */
  function WithinAxisDistance(voxels: seq<Voxel>, maxAxisDist: real, sqrt: real -> real): seq<real>
  {
    if voxels == [] then []
    else
      var last := voxels[|voxels| - 1];
      WithinAxisDistance(voxels[..|voxels| - 1], maxAxisDist, sqrt) +
        (if sqrt(SquaredNorm(last.position)) <= maxAxisDist then [last.value] else [])
  }

  /** Values of the voxels the mask marks, in cursor order. */
  function Masked(values: seq<real>, mask: seq<bool>): seq<real>
    requires |values| == |mask|
  {
    if values == [] then []
    else Masked(values[..|values| - 1], mask[..|mask| - 1]) + (if mask[|mask| - 1] then [values[|values| - 1]] else [])
  }

  /** Average of all voxel values of a non-empty image. */
  method ComputeAverage(values: seq<real>) returns (average: real)
    requires |values| > 0
    ensures Some(average) == AverageOf(values)
  {
    average := 0.0;
    for k := 0 to |values|
      invariant average == Sum(values[..k])
    {
      assert values[..k + 1][..k] == values[..k];
      average := average + values[k];
    }
    assert values[..|values|] == values;
    average := average / |values| as real;
  }

  lemma WithinAxisDistanceStep(voxels: seq<Voxel>, maxAxisDist: real, sqrt: real -> real, k: nat)
    requires k < |voxels|
    ensures WithinAxisDistance(voxels[..k + 1], maxAxisDist, sqrt) ==
      WithinAxisDistance(voxels[..k], maxAxisDist, sqrt) +
        (if sqrt(SquaredNorm(voxels[k].position)) <= maxAxisDist then [voxels[k].value] else [])
  {
    assert voxels[..k + 1][..k] == voxels[..k];
  }

  lemma MaskedStep(values: seq<real>, mask: seq<bool>, k: nat)
    requires |values| == |mask| && k < |values|
    ensures Masked(values[..k + 1], mask[..k + 1]) ==
      Masked(values[..k], mask[..k]) + (if mask[k] then [values[k]] else [])
  {
    assert values[..k + 1][..k] == values[..k];
    assert mask[..k + 1][..k] == mask[..k];
  }

  /** Average over the voxels within `maxAxisDist` of the axis; none when there are none. */
  method ComputeAverageWithinAxisDistance(voxels: seq<Voxel>, maxAxisDist: real, sqrt: real -> real)
    returns (average: Option<real>)
    ensures average == AverageOf(WithinAxisDistance(voxels, maxAxisDist, sqrt))
  {
    var sum := 0.0;
    var n := 0;
    for k := 0 to |voxels|
      invariant sum == Sum(WithinAxisDistance(voxels[..k], maxAxisDist, sqrt))
      invariant n == |WithinAxisDistance(voxels[..k], maxAxisDist, sqrt)|
    {
      WithinAxisDistanceStep(voxels, maxAxisDist, sqrt, k);
      var distance := VectorLength(voxels[k].position, sqrt);
      if distance <= maxAxisDist {
        ghost var w := WithinAxisDistance(voxels[..k], maxAxisDist, sqrt);
        assert WithinAxisDistance(voxels[..k + 1], maxAxisDist, sqrt) == w + [voxels[k].value];
        SumAppend(w, voxels[k].value);
        assert Sum(w + [voxels[k].value]) == sum + voxels[k].value;
        sum := sum + voxels[k].value;
        n := n + 1;
      } else {
        ghost var w := WithinAxisDistance(voxels[..k], maxAxisDist, sqrt);
        assert w + [] == w;
        assert WithinAxisDistance(voxels[..k + 1], maxAxisDist, sqrt) == w;
      }
    }
    assert voxels[..|voxels|] == voxels;
    average := if n == 0 then None else Some(sum / n as real);
  }

  /** `m` is the largest of `start` and the elements of `w`. */
  predicate IsMaximumFrom(m: real, w: seq<real>, start: real)
  {
    m >= start && (forall k :: 0 <= k < |w| ==> w[k] <= m) && (m == start || exists k :: 0 <= k < |w| && w[k] == m)
  }

  /**
   * Maximum over the voxels within `maxAxisDist` of the axis, starting from
   * -Double.MAX_VALUE, which is returned when no voxel is within that distance.
   */
  method ComputeMaximumWithinAxisDistance(voxels: seq<Voxel>, maxAxisDist: real, sqrt: real -> real)
    returns (max: real)
    ensures IsMaximumFrom(max, WithinAxisDistance(voxels, maxAxisDist, sqrt), -DoubleMaxValue)
  {
    max := -DoubleMaxValue;
    for k := 0 to |voxels|
      invariant IsMaximumFrom(max, WithinAxisDistance(voxels[..k], maxAxisDist, sqrt), -DoubleMaxValue)
    {
      ghost var w := WithinAxisDistance(voxels[..k], maxAxisDist, sqrt);
      WithinAxisDistanceStep(voxels, maxAxisDist, sqrt, k);
      var distance := VectorLength(voxels[k].position, sqrt);
      if distance <= maxAxisDist {
        ghost var w' := w + [voxels[k].value];
        assert forall j :: 0 <= j < |w| ==> w'[j] == w[j];
        if voxels[k].value > max {
          max := voxels[k].value;
        }
        assert w'[|w|] == voxels[k].value;
      } else {
        assert w + [] == w;
      }
    }
    assert voxels[..|voxels|] == voxels;
  }

  /** Average over the voxels the mask marks; none when it marks none. */
  method ComputeAverageInMask(values: seq<real>, mask: seq<bool>) returns (average: Option<real>)
    requires |values| == |mask|
    ensures average == AverageOf(Masked(values, mask))
  {
    var sum := 0.0;
    var n := 0;
    for k := 0 to |mask|
      invariant sum == Sum(Masked(values[..k], mask[..k]))
      invariant n == |Masked(values[..k], mask[..k])|
    {
      MaskedStep(values, mask, k);
      if mask[k] {
        SumAppend(Masked(values[..k], mask[..k]), values[k]);
        sum := sum + values[k];
        n := n + 1;
      } else {
        ghost var m := Masked(values[..k], mask[..k]);
        assert m + [] == m;
      }
    }
    assert values[..|values|] == values;
    assert mask[..|mask|] == mask;
    average := if n == 0 then None else Some(sum / n as real);
  }

  /** Coordinates and one value per slice along an axis. */
  datatype CoordinatesAndValues<V> = CoordinatesAndValues(coordinates: seq<real>, values: seq<V>)

  /** Calibrated coordinate of every slice: (min + i) * calibration. */
  function AxisCoordinates(minCoordinate: int, calibration: real, n: nat): (c: seq<real>)
    ensures |c| == n
  {
    seq(n, i => (minCoordinate + i) as real * calibration)
  }

  lemma AxisCoordinatesStep(minCoordinate: int, calibration: real, n: nat)
    ensures AxisCoordinates(minCoordinate, calibration, n + 1) ==
      AxisCoordinates(minCoordinate, calibration, n) + [(minCoordinate + n) as real * calibration]
  {
    var a := AxisCoordinates(minCoordinate, calibration, n + 1);
    var b := AxisCoordinates(minCoordinate, calibration, n) + [(minCoordinate + n) as real * calibration];
    assert forall i :: 0 <= i < n + 1 ==> a[i] == b[i];
  }

  /** Consecutive coordinates are one calibration apart, so a positive calibration orders them. */
  lemma AxisCoordinatesSpacing(minCoordinate: int, calibration: real, n: nat, i: nat, j: nat)
    requires i < j < n && calibration > 0.0
    ensures AxisCoordinates(minCoordinate, calibration, n)[j] - AxisCoordinates(minCoordinate, calibration, n)[i]
      == (j - i) as real * calibration
    ensures AxisCoordinates(minCoordinate, calibration, n)[i] < AxisCoordinates(minCoordinate, calibration, n)[j]
  {
    var c := AxisCoordinates(minCoordinate, calibration, n);
    assert c[j] - c[i] == ((minCoordinate + j) as real - (minCoordinate + i) as real) * calibration;
    assert (j - i) as real * calibration > 0.0;
  }

  /** Plain averages of non-empty slices. */
  function SliceAverages(slices: seq<seq<real>>): (a: seq<real>)
    requires forall i :: 0 <= i < |slices| ==> |slices[i]| > 0
    ensures |a| == |slices|
  {
    seq(|slices|, i requires 0 <= i < |slices| => AverageOf(slices[i]).value)
  }

  /** One entry per slice from min to max: the calibrated coordinate and the slice's average. */
  method ComputeAverageIntensitiesAlongAxis(slices: seq<seq<real>>, minCoordinate: int, calibration: real)
    returns (profile: CoordinatesAndValues<real>)
    requires forall i :: 0 <= i < |slices| ==> |slices[i]| > 0
    ensures profile.coordinates == AxisCoordinates(minCoordinate, calibration, |slices|)
    ensures profile.values == SliceAverages(slices)
  {
    profile := CoordinatesAndValues([], []);
    for i := 0 to |slices|
      invariant profile.coordinates == AxisCoordinates(minCoordinate, calibration, i)
      invariant |profile.values| == i
      invariant forall j :: 0 <= j < i ==> Some(profile.values[j]) == AverageOf(slices[j])
    {
      AxisCoordinatesStep(minCoordinate, calibration, i);
      var average := ComputeAverage(slices[i]);
      profile := CoordinatesAndValues(profile.coordinates + [(minCoordinate + i) as real * calibration],
                                      profile.values + [average]);
    }
  }

  /** One entry per slice: the calibrated coordinate and the average within `maxAxisDist` of the axis. */
  method ComputeAverageIntensitiesAlongAxisWithinDistance(slices: seq<seq<Voxel>>, minCoordinate: int,
                                                          maxAxisDist: real, calibration: real, sqrt: real -> real)
    returns (profile: CoordinatesAndValues<Option<real>>)
    ensures profile.coordinates == AxisCoordinates(minCoordinate, calibration, |slices|)
    ensures |profile.values| == |slices|
    ensures forall i :: 0 <= i < |slices| ==>
      profile.values[i] == AverageOf(WithinAxisDistance(slices[i], maxAxisDist, sqrt))
  {
    profile := CoordinatesAndValues([], []);
    for i := 0 to |slices|
      invariant profile.coordinates == AxisCoordinates(minCoordinate, calibration, i)
      invariant |profile.values| == i
      invariant forall j :: 0 <= j < i ==>
        profile.values[j] == AverageOf(WithinAxisDistance(slices[j], maxAxisDist, sqrt))
    {
      AxisCoordinatesStep(minCoordinate, calibration, i);
      var average := ComputeAverageWithinAxisDistance(slices[i], maxAxisDist, sqrt);
      profile := CoordinatesAndValues(profile.coordinates + [(minCoordinate + i) as real * calibration],
                                      profile.values + [average]);
    }
  }

  /** One entry per slice: the calibrated coordinate and the maximum within `maxAxisDist` of the axis. */
  method ComputeMaximumIntensitiesAlongAxis(slices: seq<seq<Voxel>>, minCoordinate: int,
                                            maxAxisDist: real, calibration: real, sqrt: real -> real)
    returns (profile: CoordinatesAndValues<real>)
    ensures profile.coordinates == AxisCoordinates(minCoordinate, calibration, |slices|)
    ensures |profile.values| == |slices|
    ensures forall i :: 0 <= i < |slices| ==>
      IsMaximumFrom(profile.values[i], WithinAxisDistance(slices[i], maxAxisDist, sqrt), -DoubleMaxValue)
  {
    profile := CoordinatesAndValues([], []);
    for i := 0 to |slices|
      invariant profile.coordinates == AxisCoordinates(minCoordinate, calibration, i)
      invariant |profile.values| == i
      invariant forall j :: 0 <= j < i ==>
        IsMaximumFrom(profile.values[j], WithinAxisDistance(slices[j], maxAxisDist, sqrt), -DoubleMaxValue)
    {
      AxisCoordinatesStep(minCoordinate, calibration, i);
      var max := ComputeMaximumWithinAxisDistance(slices[i], maxAxisDist, sqrt);
      profile := CoordinatesAndValues(profile.coordinates + [(minCoordinate + i) as real * calibration],
                                      profile.values + [max]);
    }
  }

  /** One entry per slice: the calibrated coordinate and the average over the slice's masked voxels. */
  method ComputeAverageIntensitiesAlongAxisInMask(slices: seq<seq<real>>, maskSlices: seq<seq<bool>>,
                                                  minCoordinate: int, calibration: real)
    returns (profile: CoordinatesAndValues<Option<real>>)
    requires |maskSlices| == |slices|
    requires forall i :: 0 <= i < |slices| ==> |maskSlices[i]| == |slices[i]|
    ensures profile.coordinates == AxisCoordinates(minCoordinate, calibration, |slices|)
    ensures |profile.values| == |slices|
    ensures forall i :: 0 <= i < |slices| ==> profile.values[i] == AverageOf(Masked(slices[i], maskSlices[i]))
  {
    profile := CoordinatesAndValues([], []);
    for i := 0 to |slices|
      invariant profile.coordinates == AxisCoordinates(minCoordinate, calibration, i)
      invariant |profile.values| == i
      invariant forall j :: 0 <= j < i ==> profile.values[j] == AverageOf(Masked(slices[j], maskSlices[j]))
    {
      AxisCoordinatesStep(minCoordinate, calibration, i);
      var average := ComputeAverageInMask(slices[i], maskSlices[i]);
      profile := CoordinatesAndValues(profile.coordinates + [(minCoordinate + i) as real * calibration],
                                      profile.values + [average]);
    }
  }

  // ---------------------------------------------------------------------------
  // watershed seeds

  /** The same test as `Algorithms.IsCenterLargest`, which the source repeats here. */
  function IsCenterLargestOrEqual(center: real, neighborhood: seq<real>): (b: bool)
    ensures b <==> forall k :: 0 <= k < |neighborhood| ==> neighborhood[k] <= center
  {
    Algorithms.IsCenterLargest(center, neighborhood)
  }

  /** Some of the first `dims` coordinates lies on the interval's min or max. */
  function IsBoundaryIn(position: seq<int>, interval: Interval, dims: nat): (b: bool)
    requires dims <= |position| && dims <= |interval.min| && dims <= |interval.max|
    ensures b <==> exists d :: 0 <= d < dims && (position[d] == interval.min[d] || position[d] == interval.max[d])
  {
    if dims == 0 then false
    else
      IsBoundaryIn(position, interval, dims - 1) ||
      position[dims - 1] == interval.min[dims - 1] || position[dims - 1] == interval.max[dims - 1]
  }

  predicate SameDimensions(position: seq<int>, interval: Interval)
  {
    |position| == |interval.min| == |interval.max|
  }

  /** The voxel lies on the interval's border in some dimension. */
  function IsBoundaryPixel(position: seq<int>, interval: Interval): (b: bool)
    requires SameDimensions(position, interval)
    ensures b <==> exists d :: 0 <= d < |position| && (position[d] == interval.min[d] || position[d] == interval.max[d])
  {
    IsBoundaryIn(position, interval, |position|)
  }

  /** The voxel lies on the interval's border in some dimension other than the last. */
  function IsLateralBoundaryPixel(position: seq<int>, interval: Interval): (b: bool)
    requires SameDimensions(position, interval)
    ensures b <==> exists d :: 0 <= d < |position| - 1 && (position[d] == interval.min[d] || position[d] == interval.max[d])
  {
    IsBoundaryIn(position, interval, if |position| > 0 then |position| - 1 else 0)
  }

  /**
   * A lateral boundary voxel is a boundary voxel; a voxel on the border only in the last
   * dimension is a boundary voxel but not a lateral one.
   */
  lemma LateralBoundaryProperties(position: seq<int>, interval: Interval)
    requires SameDimensions(position, interval)
    ensures IsLateralBoundaryPixel(position, interval) ==> IsBoundaryPixel(position, interval)
    ensures (|position| > 0 &&
             (forall d :: 0 <= d < |position| - 1 ==> interval.min[d] < position[d] < interval.max[d]) &&
             position[|position| - 1] == interval.min[|position| - 1]) ==>
      IsBoundaryPixel(position, interval) && !IsLateralBoundaryPixel(position, interval)
  {
  }

  /** A voxel of the distance map: its position, its distance value and its neighbourhood's values. */
  datatype DistanceVoxel = DistanceVoxel(position: seq<int>, value: real, neighborhood: seq<real>)

  /**
   * The seed rule: above the global threshold; or on the lateral border with a positive
   * distance; or no neighbour larger and above the local threshold.
   */
  predicate IsSeed(v: DistanceVoxel, interval: Interval, globalThreshold: real, localThreshold: real): (seed: bool)
    requires SameDimensions(v.position, interval)
    ensures v.value > globalThreshold ==> seed
    ensures seed ==> v.value > globalThreshold || v.value > 0.0 || v.value > localThreshold
  {
    v.value > globalThreshold ||
    (IsLateralBoundaryPixel(v.position, interval) && v.value > 0.0) ||
    (IsCenterLargestOrEqual(v.value, v.neighborhood) && v.value > localThreshold)
  }

  /** With non-negative thresholds, a voxel at distance 0 (outside the object) is never a seed. */
  lemma ZeroDistanceIsNoSeed(v: DistanceVoxel, interval: Interval, globalThreshold: real, localThreshold: real)
    requires SameDimensions(v.position, interval)
    requires globalThreshold >= 0.0 && localThreshold >= 0.0 && v.value <= 0.0
    ensures !IsSeed(v, interval, globalThreshold, localThreshold)
  {
  }

  /** The seed mask, in the distance map's cursor order. */
  method CreateSeeds(distance: seq<DistanceVoxel>, interval: Interval, globalThreshold: real, localThreshold: real)
    returns (maxima: array<bool>)
    requires forall k :: 0 <= k < |distance| ==> SameDimensions(distance[k].position, interval)
    ensures maxima.Length == |distance|
    ensures forall k :: 0 <= k < |distance| ==> (maxima[k] <==> IsSeed(distance[k], interval, globalThreshold, localThreshold))
  {
    maxima := new bool[|distance|](_ => false);
    for k := 0 to |distance|
      invariant forall j :: 0 <= j < k ==> (maxima[j] <==> IsSeed(distance[j], interval, globalThreshold, localThreshold))
      invariant forall j :: k <= j < |distance| ==> !maxima[j]
    {
      var centerValue := distance[k].value;
      if centerValue > globalThreshold {
        maxima[k] := true;
      } else if IsLateralBoundaryPixel(distance[k].position, interval) && centerValue > 0.0 {
        maxima[k] := true;
      } else if IsCenterLargestOrEqual(centerValue, distance[k].neighborhood) {
        if centerValue > localThreshold {
          maxima[k] := true;
        }
      }
    }
  }

  // ---------------------------------------------------------------------------
  // masks, thresholds, centre and calibration

  /** Keeps the voxels the mask marks and sets every other voxel to 0, in place. */
  method ApplyMask(rai: array<real>, mask: array<bool>)
    requires rai.Length == mask.Length
    modifies rai
    ensures forall k :: 0 <= k < rai.Length ==> rai[k] == if mask[k] then old(rai[k]) else 0.0
  {
    for k := 0 to rai.Length
      invariant forall j :: 0 <= j < k ==> rai[j] == if mask[j] then old(rai[j]) else 0.0
      invariant forall j :: k <= j < rai.Length ==> rai[j] == old(rai[j])
    {
      rai[k] := if mask[k] then rai[k] else 0.0;
    }
  }

  /** The binary image of the voxels strictly above the threshold, in cursor order. */
  function AboveThreshold(input: seq<real>, threshold: real): (b: seq<bool>)
    ensures |b| == |input|
    ensures forall k :: 0 <= k < |input| ==> (b[k] <==> input[k] > threshold)
  {
    seq(|input|, k requires 0 <= k < |input| => input[k] > threshold)
  }

  /** True exactly where the value is strictly above the threshold. */
  method CreateBinaryImage(input: seq<real>, threshold: real) returns (binary: array<bool>)
    ensures binary.Length == |input|
    ensures forall k :: 0 <= k < |input| ==> (binary[k] <==> input[k] > threshold)
    ensures binary[..] == AboveThreshold(input, threshold)
  {
    binary := new bool[|input|];
    for k := 0 to |input|
      invariant forall j :: 0 <= j < k ==> (binary[j] <==> input[j] > threshold)
    {
      binary[k] := input[k] > threshold;
    }
  }

  /** Per dimension, (max - min) / 2 + min, with the long division rounding toward zero. */
  function GetCenterLocation(interval: Interval): (center: seq<int>)
    requires |interval.min| == |interval.max|
    ensures |center| == |interval.min|
    ensures forall d :: 0 <= d < |center| && interval.min[d] <= interval.max[d] ==>
      interval.min[d] <= center[d] <= interval.max[d] &&
      0 <= (interval.max[d] - center[d]) - (center[d] - interval.min[d]) <= 1
  {
    seq(|interval.min|, d requires 0 <= d < |interval.min| => Half(interval.max[d] - interval.min[d]) + interval.min[d])
  }

  /**
   * The inverted image: every value v becomes (int)(maximum - v), the maximum taken as
   * `Algorithms.GetMaximumValue` takes it. No value is negative, the order of values is
   * reversed, and a voxel holding the maximum becomes 0.
   */
  method InvertedView(input: seq<real>) returns (inverted: seq<int>)
    ensures |inverted| == |input|
    ensures forall k :: 0 <= k < |input| ==> inverted[k] >= 0
    ensures forall j, k :: 0 <= j < |input| && 0 <= k < |input| && input[j] <= input[k] ==> inverted[k] <= inverted[j]
    ensures (exists k :: 0 <= k < |input| && input[k] > DoubleMinValue) ==> exists k :: 0 <= k < |input| && inverted[k] == 0
  {
    var maximum := Algorithms.GetMaximumValue(input);
    inverted := seq(|input|, k requires 0 <= k < |input| => Trunc(maximum - input[k]));
    forall j, k | 0 <= j < |input| && 0 <= k < |input| && input[j] <= input[k]
      ensures inverted[k] <= inverted[j]
    {
      TruncMonotone(maximum - input[k], maximum - input[j]);
    }
  }

  /** Multiplies the X, Y and Z spacing by the sub-sampling factor; other entries stay. */
  method CorrectCalibrationForSubSampling(calibration: array<real>, subSampling: int)
    requires calibration.Length >= 3
    modifies calibration
    ensures forall d :: 0 <= d < calibration.Length ==>
      calibration[d] == if d < 3 then old(calibration[d]) * subSampling as real else old(calibration[d])
  {
    for d := 0 to 3
      invariant forall e :: 0 <= e < calibration.Length ==>
        calibration[e] == if e < d then old(calibration[e]) * subSampling as real else old(calibration[e])
    {
      calibration[d] := calibration[d] * subSampling as real;
    }
  }

  /** A 3-element array filled with `value`. */
  function Get3dDoubleArray(value: real): (r: seq<real>)
    ensures |r| == 3 && forall d :: 0 <= d < 3 ==> r[d] == value
  {
    [value, value, value]
  }

  /**
   * Whether the long axis is turned by 180 degrees about Z: the absolute derivatives of
   * the average-intensity profile, over a window of (int)(derivativeDelta / calibration)
   * slices, peak at a positive coordinate. `true` stands for the rotation, `false` for
   * the identity.
   */
  method CreateOrientationTransformation(slices: seq<seq<real>>, minCoordinate: int, derivativeDelta: real,
                                         calibration: real)
    returns (rotateAboutZ: bool)
    requires |slices| > 0 && forall i :: 0 <= i < |slices| ==> |slices[i]| > 0
    requires calibration != 0.0 && Trunc(derivativeDelta / calibration) >= -1
    ensures rotateAboutZ <==>
      MaxLocOf(AxisCoordinates(minCoordinate, calibration, |slices|),
               Algorithms.AbsoluteDerivatives(SliceAverages(slices), Trunc(derivativeDelta / calibration)),
               None) > 0.0
  {
    var profile := ComputeAverageIntensitiesAlongAxis(slices, minCoordinate, calibration);
    var absoluteDerivatives := Algorithms.ComputeAbsoluteDerivatives(profile.values, Trunc(derivativeDelta / calibration));
    var maxLoc := ComputeMaxLoc(profile.coordinates, absoluteDerivatives, None);
    rotateAboutZ := maxLoc > 0.0;
  }
}
