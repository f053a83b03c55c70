/**
 * Selection and profile algorithms: the maximum of an image, the local-maximum test,
 * the largest labelled region, masks made from a region, the central label and
 * the windowed absolute derivative of a profile.
 *
 * An image is visited in cursor order and given as the sequence of its values; a
 * labelling or mask over a 3D grid is an `array3`.
 */
module Algorithms {
  import opened Numerics

  const LongMinValue: int := -0x8000_0000_0000_0000

  /** Largest value of the image, starting from Double.MIN_VALUE (the smallest positive double). */
  method GetMaximumValue(values: seq<real>) returns (maxValue: real)
    ensures maxValue >= DoubleMinValue
    ensures forall k :: 0 <= k < |values| ==> values[k] <= maxValue
    ensures maxValue == DoubleMinValue || exists k :: 0 <= k < |values| && values[k] == maxValue
    ensures (forall k :: 0 <= k < |values| ==> values[k] <= DoubleMinValue) ==> maxValue == DoubleMinValue
  {
    maxValue := DoubleMinValue;
    for k := 0 to |values|
      invariant maxValue >= DoubleMinValue
      invariant forall j :: 0 <= j < k ==> values[j] <= maxValue
      invariant maxValue == DoubleMinValue || exists j :: 0 <= j < k && values[j] == maxValue
    {
      if values[k] > maxValue {
        maxValue := values[k];
      }
    }
  }

  /** No value of the neighbourhood compares greater than the centre. */
  function IsCenterLargest(center: real, neighborhood: seq<real>): (b: bool)
    ensures b <==> forall k :: 0 <= k < |neighborhood| ==> neighborhood[k] <= center
  {
    if neighborhood == [] then true
    else if neighborhood[0] > center then false
    else IsCenterLargest(center, neighborhood[1..])
  }

  /** A labelled region: its label and the positions it covers. */
  datatype LabelRegion = LabelRegion(labelId: int, positions: seq<seq<int>>)

  function Size(r: LabelRegion): nat
  {
    |r.positions|
  }

  /** A region of largest size, the first one on ties; none if there are no regions. */
  method GetLargestObject(regions: seq<LabelRegion>) returns (largest: Option<LabelRegion>)
    ensures largest.None? <==> regions == []
    ensures largest.Some? ==>
      exists i :: 0 <= i < |regions| && largest.value == regions[i] &&
        (forall j :: 0 <= j < |regions| ==> Size(regions[j]) <= Size(regions[i])) &&
        (forall j :: 0 <= j < i ==> Size(regions[j]) < Size(regions[i]))
  {
    var maxSize := LongMinValue;
    largest := None;
    var at := 0;
    for k := 0 to |regions|
      invariant largest.None? <==> k == 0
      invariant largest.None? ==> maxSize == LongMinValue
      invariant largest.Some? ==> 0 <= at < k && largest.value == regions[at] && maxSize == Size(regions[at])
      invariant largest.Some? ==> forall j :: 0 <= j < k ==> Size(regions[j]) <= maxSize
      invariant largest.Some? ==> forall j :: 0 <= j < at ==> Size(regions[j]) < maxSize
    {
      if Size(regions[k]) > maxSize {
        largest := Some(regions[k]);
        maxSize := Size(regions[k]);
        at := k;
      }
    }
  }

  /** The grid position of a voxel: inside the grid of an `array3`. */
  predicate InGrid<T>(p: seq<int>, img: array3<T>)
  {
    |p| == 3 && 0 <= p[0] < img.Length0 && 0 <= p[1] < img.Length1 && 0 <= p[2] < img.Length2
  }

  /** A bit mask of the given dimensions that is true exactly on the region's positions. */
  method CreateBitTypeMaskFromLabelRegion(region: LabelRegion, d0: nat, d1: nat, d2: nat)
    returns (mask: array3<bool>)
    requires forall k :: 0 <= k < |region.positions| ==>
      |region.positions[k]| == 3 && 0 <= region.positions[k][0] < d0 &&
      0 <= region.positions[k][1] < d1 && 0 <= region.positions[k][2] < d2
    ensures mask.Length0 == d0 && mask.Length1 == d1 && mask.Length2 == d2
    ensures forall x, y, z :: 0 <= x < d0 && 0 <= y < d1 && 0 <= z < d2 ==>
      (mask[x, y, z] <==> [x, y, z] in region.positions)
  {
    mask := new bool[d0, d1, d2]((x, y, z) => false);
    for k := 0 to |region.positions|
      invariant forall x, y, z :: 0 <= x < d0 && 0 <= y < d1 && 0 <= z < d2 ==>
        (mask[x, y, z] <==> [x, y, z] in region.positions[..k])
    {
      var p := region.positions[k];
      assert p == [p[0], p[1], p[2]];
      assert region.positions[..k + 1] == region.positions[..k] + [p];
      mask[p[0], p[1], p[2]] := true;
    }
    assert region.positions[..|region.positions|] == region.positions;
  }

  /** An 8-bit mask of the given dimensions: 255 on the region's positions, 0 elsewhere. */
  method CreateUnsignedByteTypeMaskFromLabelRegion(region: LabelRegion, d0: nat, d1: nat, d2: nat)
    returns (mask: array3<int>)
    requires forall k :: 0 <= k < |region.positions| ==>
      |region.positions[k]| == 3 && 0 <= region.positions[k][0] < d0 &&
      0 <= region.positions[k][1] < d1 && 0 <= region.positions[k][2] < d2
    ensures mask.Length0 == d0 && mask.Length1 == d1 && mask.Length2 == d2
    ensures forall x, y, z :: 0 <= x < d0 && 0 <= y < d1 && 0 <= z < d2 ==>
      mask[x, y, z] == if [x, y, z] in region.positions then 255 else 0
  {
    mask := new int[d0, d1, d2]((x, y, z) => 0);
    for k := 0 to |region.positions|
      invariant forall x, y, z :: 0 <= x < d0 && 0 <= y < d1 && 0 <= z < d2 ==>
        mask[x, y, z] == if [x, y, z] in region.positions[..k] then 255 else 0
    {
      var p := region.positions[k];
      assert p == [p[0], p[1], p[2]];
      assert region.positions[..k + 1] == region.positions[..k] + [p];
      mask[p[0], p[1], p[2]] := 255;
    }
    assert region.positions[..|region.positions|] == region.positions;
  }

  /**
   * The central position of a grid: dimension(d) / 2 on each axis. It lies inside the grid,
   * and its distances to the two ends of an axis differ by at most one.
   */
  function CentralPosition(dims: seq<nat>): (c: seq<int>)
    ensures |c| == |dims|
    ensures forall d :: 0 <= d < |dims| && dims[d] > 0 ==>
      0 <= c[d] < dims[d] && 0 <= (dims[d] - 1 - c[d]) - c[d] + 1 <= 1
  {
    seq(|dims|, d requires 0 <= d < |dims| => dims[d] / 2)
  }

  /**
   * The label at the central voxel of a labelling; none when that voxel carries no label
   * (where the source's label iterator has no next element).
   */
  method GetCentralLabelIndex(labeling: array3<Option<int>>) returns (centralLabel: Option<int>)
    requires labeling.Length0 > 0 && labeling.Length1 > 0 && labeling.Length2 > 0
    ensures var c := CentralPosition([labeling.Length0, labeling.Length1, labeling.Length2]);
      InGrid(c, labeling) && centralLabel == labeling[c[0], c[1], c[2]]
  {
    var c := CentralPosition([labeling.Length0, labeling.Length1, labeling.Length2]);
    centralLabel := labeling[c[0], c[1], c[2]];
  }

  /** Blur sigma per axis, half a pixel of the resampled grid: 0.5 / scalingFactors[d]. */
  method OptimalBlurSigmas(numDimensions: nat, scalingFactors: seq<real>) returns (sigmas: seq<real>)
    requires |scalingFactors| >= numDimensions
    requires forall d :: 0 <= d < numDimensions ==> scalingFactors[d] != 0.0
    ensures |sigmas| == numDimensions
    ensures forall d :: 0 <= d < numDimensions ==>
      sigmas[d] * scalingFactors[d] == 0.5 && (scalingFactors[d] > 0.0 ==> sigmas[d] > 0.0)
  {
    sigmas := [];
    for d := 0 to numDimensions
      invariant |sigmas| == d
      invariant forall e :: 0 <= e < d ==> sigmas[e] == 0.5 / scalingFactors[e]
    {
      sigmas := sigmas + [0.5 / scalingFactors[d]];
    }
  }

  /** Number of windowed derivatives of a profile of length n: n - 2h - 2, or none. */
  function DerivativeCount(n: nat, h: int): nat
  {
    if n - 2 * h - 2 > 0 then n - 2 * h - 2 else 0
  }

  /**
   * Absolute differences across a window of width `di`: with h = di / 2, element k is
   * |values[k + 2h + 1] - values[k + 1]|, for every k where that window stays clear of
   * both ends by one element.
   */
  function AbsoluteDerivatives(values: seq<real>, di: int): (r: seq<real>)
    requires di >= -1
    ensures |r| <= |values|
  {
    var h := Half(di);
    seq(DerivativeCount(|values|, h), k requires 0 <= k < DerivativeCount(|values|, h) =>
      Abs(values[k + 2 * h + 1] - values[k + 1]))
  }

  /**
   * A window narrower than two slices (di = -1, 0 or 1, so h = 0) compares every value with
   * itself: all derivatives are 0.
   */
  lemma NarrowWindowDerivativesVanish(values: seq<real>, di: int)
    requires -1 <= di < 2
    ensures forall k :: 0 <= k < |AbsoluteDerivatives(values, di)| ==> AbsoluteDerivatives(values, di)[k] == 0.0
  {
  }

  /** The derivatives as the source's loop collects them, index i running from h + 1 to n - h - 2. */
  method ComputeAbsoluteDerivatives(values: seq<real>, di: int) returns (derivatives: seq<real>)
    requires di >= -1
    ensures derivatives == AbsoluteDerivatives(values, di)
    ensures |derivatives| == DerivativeCount(|values|, Half(di))
    ensures forall k :: 0 <= k < |derivatives| ==> derivatives[k] >= 0.0
  {
    var h := Half(di);
    derivatives := [];
    var i := h + 1;
    while i < |values| - h - 1
      invariant h + 1 <= i
      invariant |derivatives| == i - h - 1
      invariant i <= (if |values| - h - 1 > h + 1 then |values| - h - 1 else h + 1)
      invariant forall k :: 0 <= k < |derivatives| ==>
        derivatives[k] == Abs(values[k + 2 * h + 1] - values[k + 1])
      decreases |values| - i
    {
      derivatives := derivatives + [Abs(values[i + h] - values[i - h])];
      i := i + 1;
    }
  }
}
