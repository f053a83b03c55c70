/**
 * The decisions of the shaven-baby embryo registration: the background offset and mask
 * threshold read from the intensity histogram, whether to close the mask, the watershed
 * seed thresholds, the central embryo's mask, the head/tail flip, the roll angle from
 * the centroid profile, and the scaling parts of the final transform.
 *
 * Image-processing library steps (resampling, hole filling, closing, distance transform,
 * watershed, ellipsoid fit) are parameters: functions or the images they produce.
 */
module ShavenBabyRegistration {
  import opened Numerics
  import opened Transforms
  import Algorithms
  import Utils
  import opened IntensityHistogram
  import opened ShavenBabyRegistrationSettings
  import RefractiveIndexMismatchCorrections

  // ---------------------------------------------------------------------------
  // sorting a list of angles

  /** `x` placed before the first element of `s` that is not smaller than it. */
  function Insert(x: real, s: seq<real>): (r: seq<real>)
    ensures multiset(r) == multiset(s) + multiset{x}
    ensures |r| == |s| + 1
  {
    if s == [] then [x]
    else if x <= s[0] then [x] + s
    else
      assert s == [s[0]] + s[1..];
      [s[0]] + Insert(x, s[1..])
  }

  /** The list in ascending order, as Collections.sort leaves it. */
  function SortedOf(s: seq<real>): (r: seq<real>)
    ensures multiset(r) == multiset(s)
    ensures |r| == |s|
  {
    if s == [] then []
    else
      assert s == s[..|s| - 1] + [s[|s| - 1]];
      Insert(s[|s| - 1], SortedOf(s[..|s| - 1]))
  }

  /** A value no larger than the head of a sorted list keeps it sorted when put in front. */
  lemma SortedCons(a: real, t: seq<real>)
    requires Utils.Sorted(t) && (t != [] ==> a <= t[0])
    ensures Utils.Sorted([a] + t)
  {
    var r := [a] + t;
    forall i, j | 0 <= i < j < |r| ensures r[i] <= r[j] {
      if i > 0 {
        assert r[i] == t[i - 1] && r[j] == t[j - 1];
      } else {
        assert r[j] == t[j - 1] && t[0] <= t[j - 1];
      }
    }
  }

  /** Dropping the head of a sorted list leaves it sorted. */
  lemma SortedTail(s: seq<real>)
    requires Utils.Sorted(s) && s != []
    ensures Utils.Sorted(s[1..])
  {
    forall i, j | 0 <= i < j < |s[1..]| ensures s[1..][i] <= s[1..][j] {
      assert s[1..][i] == s[i + 1] && s[1..][j] == s[j + 1];
    }
  }

  lemma {:induction false} InsertSorted(x: real, s: seq<real>)
    requires Utils.Sorted(s)
    ensures Utils.Sorted(Insert(x, s))
    ensures Insert(x, s)[0] == x || (s != [] && Insert(x, s)[0] == s[0])
    decreases |s|
  {
    if s == [] {
    } else if x <= s[0] {
      SortedCons(x, s);
    } else {
      var t := Insert(x, s[1..]);
      SortedTail(s);
      InsertSorted(x, s[1..]);
      if |s| > 1 {
        assert s[1..][0] == s[1];
      }
      SortedCons(s[0], t);
    }
  }

  /** The sorted copy is sorted and holds the same angles. */
  lemma {:induction false} SortedOfSorted(s: seq<real>)
    ensures Utils.Sorted(SortedOf(s))
    ensures multiset(SortedOf(s)) == multiset(s)
    decreases |s|
  {
    if s != [] {
      SortedOfSorted(s[..|s| - 1]);
      InsertSorted(s[|s| - 1], SortedOf(s[..|s| - 1]));
    }
  }

  /** Two sorted lists with the same elements are equal. */
  lemma {:induction false} SortedPermutationsEqual(a: seq<real>, b: seq<real>)
    requires Utils.Sorted(a) && Utils.Sorted(b) && multiset(a) == multiset(b)
    ensures a == b
    decreases |a|
  {
    assert |a| == |multiset(a)| == |multiset(b)| == |b|;
    if a != [] {
      assert a[0] in multiset(b);
      var j :| 0 <= j < |b| && b[j] == a[0];
      assert b[0] <= a[0];
      assert b[0] in multiset(a);
      var i :| 0 <= i < |a| && a[i] == b[0];
      assert a[0] <= b[0];
      assert a == [a[0]] + a[1..];
      assert b == [b[0]] + b[1..];
      assert multiset(a[1..]) == multiset(a) - multiset{a[0]};
      assert multiset(b[1..]) == multiset(b) - multiset{b[0]};
      SortedTail(a);
      SortedTail(b);
      SortedPermutationsEqual(a[1..], b[1..]);
    }
  }

  // ---------------------------------------------------------------------------
  // roll angle

  /**
   * Entry i of the centroid profile counts for the roll angle: its centroid is further
   * than minDistanceToAxis from the axis and its coordinate lies strictly between
   * minDistanceToCenter and maxDistanceToCenter from the centre, on either side.
   */
  predicate KeepsAngle(p: Utils.CentroidsParameters, minDistanceToAxis: real, minDistanceToCenter: real,
                       maxDistanceToCenter: real, i: int)
    requires 0 <= i < |p.axisCoordinates| <= |p.distances|
  {
    p.distances[i] > minDistanceToAxis &&
    Abs(p.axisCoordinates[i]) > minDistanceToCenter && Abs(p.axisCoordinates[i]) < maxDistanceToCenter
  }

  predicate ProfileLengths(p: Utils.CentroidsParameters)
  {
    |p.axisCoordinates| <= |p.distances| && |p.axisCoordinates| <= |p.angles|
  }

  /** The angles of the kept entries among the first `upTo`, in profile order. */
  function OffCenterAngles(p: Utils.CentroidsParameters, minDistanceToAxis: real, minDistanceToCenter: real,
                           maxDistanceToCenter: real, upTo: nat): (r: seq<real>)
    requires ProfileLengths(p) && upTo <= |p.axisCoordinates|
  {
    if upTo == 0 then []
    else
      OffCenterAngles(p, minDistanceToAxis, minDistanceToCenter, maxDistanceToCenter, upTo - 1) +
        (if KeepsAngle(p, minDistanceToAxis, minDistanceToCenter, maxDistanceToCenter, upTo - 1)
         then [p.angles[upTo - 1]] else [])
  }

  /** An angle is among the off-centre angles iff some kept entry carries it. */
  lemma {:induction false} OffCenterAnglesMembers(p: Utils.CentroidsParameters, minDistanceToAxis: real,
                                                  minDistanceToCenter: real, maxDistanceToCenter: real,
                                                  upTo: nat, a: real)
    requires ProfileLengths(p) && upTo <= |p.axisCoordinates|
    ensures a in OffCenterAngles(p, minDistanceToAxis, minDistanceToCenter, maxDistanceToCenter, upTo) <==>
      exists i :: 0 <= i < upTo && KeepsAngle(p, minDistanceToAxis, minDistanceToCenter, maxDistanceToCenter, i) &&
        p.angles[i] == a
    decreases upTo
  {
    if upTo > 0 {
      OffCenterAnglesMembers(p, minDistanceToAxis, minDistanceToCenter, maxDistanceToCenter, upTo - 1, a);
    }
  }

  /**
   * The roll angle: the median of the sorted off-centre angles; none when no entry is
   * kept, where the source's median reads index -1. It lies between the smallest and
   * the largest kept angle.
   */
  method ComputeRollAngle(p: Utils.CentroidsParameters, minDistanceToAxis: real, minDistanceToCenter: real,
                          maxDistanceToCenter: real)
    returns (rollAngle: Option<real>)
    requires ProfileLengths(p)
    ensures var kept := OffCenterAngles(p, minDistanceToAxis, minDistanceToCenter, maxDistanceToCenter,
                                        |p.axisCoordinates|);
      rollAngle == Utils.Median(SortedOf(kept)) &&
      (rollAngle.None? <==> kept == []) &&
      (rollAngle.Some? ==>
        (exists i :: 0 <= i < |kept| && kept[i] <= rollAngle.value) &&
        (exists j :: 0 <= j < |kept| && rollAngle.value <= kept[j]))
  {
    var n := |p.axisCoordinates|;
    var offCenterAngles := [];
    for i := 0 to n
      invariant offCenterAngles == OffCenterAngles(p, minDistanceToAxis, minDistanceToCenter, maxDistanceToCenter, i)
    {
      if p.distances[i] > minDistanceToAxis &&
         Abs(p.axisCoordinates[i]) > minDistanceToCenter &&
         Abs(p.axisCoordinates[i]) < maxDistanceToCenter
      {
        offCenterAngles := offCenterAngles + [p.angles[i]];
      } else {
        assert offCenterAngles + [] == offCenterAngles;
      }
    }
    var sorted := SortedOf(offCenterAngles);
    rollAngle := Utils.Median(sorted);
    MedianOfSortedWithin(offCenterAngles);
  }

  /** The median of the sorted list exists iff the list is non-empty, and lies between two of its elements. */
  lemma MedianOfSortedWithin(kept: seq<real>)
    ensures Utils.Median(SortedOf(kept)).None? <==> kept == []
    ensures Utils.Median(SortedOf(kept)).Some? ==>
      (exists i :: 0 <= i < |kept| && kept[i] <= Utils.Median(SortedOf(kept)).value) &&
      (exists j :: 0 <= j < |kept| && Utils.Median(SortedOf(kept)).value <= kept[j])
  {
    var sorted := SortedOf(kept);
    if sorted != [] {
      SortedOfSorted(kept);
      Utils.MedianOfSorted(sorted);
      assert sorted[0] in multiset(kept);
      assert sorted[|sorted| - 1] in multiset(kept);
    }
  }

  /** The roll angle depends only on which angles are kept, not on their order in the profile. */
  lemma RollAngleDependsOnlyOnMultiset(kept: seq<real>, other: seq<real>)
    requires multiset(kept) == multiset(other)
    ensures Utils.Median(SortedOf(kept)) == Utils.Median(SortedOf(other))
  {
    SortedOfSorted(kept);
    SortedOfSorted(other);
    SortedPermutationsEqual(SortedOf(kept), SortedOf(other));
  }

  // ---------------------------------------------------------------------------
  // head/tail orientation

  /** The masked averages, each slice that has no masked voxel (a not-a-number average) read as 0. */
  function DefinedAverages(values: seq<Option<real>>): (r: seq<real>)
    ensures |r| == |values|
    ensures forall i :: 0 <= i < |values| ==> r[i] == if values[i].Some? then values[i].value else 0.0
  {
    seq(|values|, i requires 0 <= i < |values| => if values[i].Some? then values[i].value else 0.0)
  }

  /**
   * Whether to turn the embryo by 180 degrees about Z: the masked average-intensity
   * profile along X peaks at a negative coordinate. `true` stands for the rotation,
   * `false` for the identity.
   */
  method ComputeOrientationTransform(intensitySlices: seq<seq<real>>, maskSlices: seq<seq<bool>>,
                                     minX: int, calibration: real)
    returns (rotateAboutZ: bool)
    requires |intensitySlices| > 0 && |maskSlices| == |intensitySlices|
    requires forall i :: 0 <= i < |intensitySlices| ==> |maskSlices[i]| == |intensitySlices[i]|
    ensures var averages := seq(|intensitySlices|, i requires 0 <= i < |intensitySlices| =>
                                  Utils.AverageOf(Utils.Masked(intensitySlices[i], maskSlices[i])));
      rotateAboutZ <==>
        Utils.MaxLocOf(Utils.AxisCoordinates(minX, calibration, |intensitySlices|), DefinedAverages(averages), None) < 0.0
  {
    var profile := Utils.ComputeAverageIntensitiesAlongAxisInMask(intensitySlices, maskSlices, minX, calibration);
    assert profile.values == seq(|intensitySlices|, i requires 0 <= i < |intensitySlices| =>
                                   Utils.AverageOf(Utils.Masked(intensitySlices[i], maskSlices[i])));
    var maxLoc := Utils.ComputeMaxLoc(profile.coordinates, DefinedAverages(profile.values), None);
    rotateAboutZ := maxLoc < 0.0;
  }

  /**
   * Reading the undefined averages as 0 is immaterial: any stand-in at or below
   * Double.MIN_VALUE, the way a not-a-number never compares greater, gives the same location.
   */
  lemma UndefinedAveragesAreIgnored(coordinates: seq<real>, values: seq<Option<real>>, standIns: seq<real>)
    requires |coordinates| > 0 && |values| <= |coordinates| && |standIns| == |values|
    requires forall i :: 0 <= i < |values| ==>
      standIns[i] == (if values[i].Some? then values[i].value else standIns[i]) &&
      (values[i].None? ==> standIns[i] <= DoubleMinValue)
    ensures Utils.MaxLocOf(coordinates, standIns, None) == Utils.MaxLocOf(coordinates, DefinedAverages(values), None)
  {
    DoubleMinValueBounds();
    Utils.MaxScanIgnoresSmallValues(coordinates, standIns, DefinedAverages(values), None, |values|);
  }

  // ---------------------------------------------------------------------------
  // offset and threshold from the background histogram

  const BackgroundHistogramMaxValue: real := 65535.0
  const BackgroundHistogramBinWidth: real := 5.0
  const BackgroundHistogramBins: nat := 13107

  /** Bin i is the right-hand half maximum: the first bin right of the mode that has dropped to half. */
  predicate IsHalfMaximumBin(f: seq<real>, c: seq<real>, m: PositionAndValue, i: int)
    requires |f| == |c|
  {
    0 <= i < |f| && BelowHalfRightOf(f, c, m, i) && forall j :: 0 <= j < i ==> !BelowHalfRightOf(f, c, m, j)
  }

  /**
   * The mask threshold after intensity correction: the background peak's half width, from
   * the mode to the right-hand half maximum, in units of the given factor. A half maximum
   * right of the mode and a positive factor give a positive threshold.
   */
  function MaskThreshold(halfMaximumPosition: real, modePosition: real, factor: real): (t: real)
    ensures halfMaximumPosition > modePosition && factor > 0.0 ==> t > 0.0
    ensures factor != 0.0 ==> t / factor + modePosition == halfMaximumPosition
  {
    (halfMaximumPosition - modePosition) * factor
  }

  /**
   * The background offset is the mode bin's centre. The threshold is MaskThreshold of the
   * right-hand half maximum bin's centre when there is such a bin, and of the fresh holder's
   * position 0 when no bin right of the mode drops to half.
   */
  method ComputeOffsetAndThreshold(voxels: seq<real>, thresholdInUnitsOfBackgroundPeakHalfWidth: real)
    returns (offset: real, threshold: real)
    requires Binnable(voxels, BackgroundHistogramBinWidth, BackgroundHistogramBins)
    ensures var f := Accumulate(Zeros(BackgroundHistogramBins), voxels, BackgroundHistogramBinWidth);
            var c := Centers(BackgroundHistogramBins, BackgroundHistogramBinWidth);
      offset == ModeOf(f, c).position
    ensures var f := Accumulate(Zeros(BackgroundHistogramBins), voxels, BackgroundHistogramBinWidth);
            var c := Centers(BackgroundHistogramBins, BackgroundHistogramBinWidth);
            var m := ModeOf(f, c);
      (exists i :: IsHalfMaximumBin(f, c, m, i) &&
        threshold == MaskThreshold(c[i], offset, thresholdInUnitsOfBackgroundPeakHalfWidth)) ||
      ((forall i :: 0 <= i < |f| ==> !BelowHalfRightOf(f, c, m, i)) &&
        threshold == MaskThreshold(Fresh.position, offset, thresholdInUnitsOfBackgroundPeakHalfWidth))
  {
    assert Trunc(BackgroundHistogramMaxValue / BackgroundHistogramBinWidth) == BackgroundHistogramBins;
    var histogram := new Histogram(voxels, BackgroundHistogramMaxValue, BackgroundHistogramBinWidth);
    ghost var f := histogram.frequencies[..];
    ghost var c := histogram.binCenters[..];
    assert f == Accumulate(Zeros(BackgroundHistogramBins), voxels, BackgroundHistogramBinWidth);
    assert c == Centers(BackgroundHistogramBins, BackgroundHistogramBinWidth);
    var mode := histogram.GetMode();
    var rightHandHalfMaximum := histogram.GetRightHandHalfMaximum();
    offset := mode.position;
    threshold := MaskThreshold(rightHandHalfMaximum.position, mode.position, thresholdInUnitsOfBackgroundPeakHalfWidth);
    assert histogram.numBins == |f|;
    if exists i :: 0 <= i < |f| && BelowHalfRightOf(f, c, mode, i) {
      var i :| 0 <= i < |f| && BelowHalfRightOf(f, c, mode, i) &&
        rightHandHalfMaximum == PositionAndValue(c[i], f[i]) &&
        forall j :: 0 <= j < i ==> !BelowHalfRightOf(f, c, mode, j);
      assert IsHalfMaximumBin(f, c, mode, i);
    } else {
      assert rightHandHalfMaximum == Fresh;
    }
  }

  // ---------------------------------------------------------------------------
  // mask, closing and threshold choice

  /** The mask: the voxels strictly above the threshold, with holes filled by `fillHoles`. */
  method CreateMask(input: seq<real>, threshold: real, fillHoles: seq<bool> -> seq<bool>) returns (mask: seq<bool>)
    ensures mask == fillHoles(Utils.AboveThreshold(input, threshold))
  {
    var binary := Utils.CreateBinaryImage(input, threshold);
    mask := fillHoles(binary[..]);
  }

  /**
   * A copy of the mask, closed by `close` with a sphere of radius
   * (int)(closingRadius / registrationResolution) when closingRadius is positive, and
   * returned unchanged otherwise.
   */
  method CreateClosedImage(settings: Settings, mask: seq<bool>, close: (seq<bool>, int) -> seq<bool>)
    returns (closed: seq<bool>)
    requires settings.closingRadius > 0.0 ==> settings.registrationResolution != 0.0
    ensures settings.closingRadius <= 0.0 ==> closed == mask
    ensures settings.closingRadius > 0.0 ==>
      closed == close(mask, Trunc(settings.closingRadius / settings.registrationResolution))
  {
    closed := mask;
    if settings.closingRadius > 0.0 {
      var radius := Trunc(settings.closingRadius / settings.registrationResolution);
      closed := close(mask, radius);
    }
  }

  /** With the default settings the mask is not closed, whatever the closing operation. */
  method DefaultSettingsSkipClosing(mask: seq<bool>, close: (seq<bool>, int) -> seq<bool>) returns (closed: seq<bool>)
    ensures closed == mask
  {
    var settings := new Settings();
    closed := CreateClosedImage(settings, mask, close);
  }

  /** Huang's threshold of the image when that modality is chosen, the settings' factor otherwise. */
  method GetThreshold(settings: Settings, huang: real) returns (threshold: real)
    ensures settings.thresholdModality == HuangAutoThreshold ==> threshold == huang
    ensures settings.thresholdModality != HuangAutoThreshold ==>
      threshold == settings.thresholdInUnitsOfBackgroundPeakHalfWidth
  {
    threshold := 0.0;
    if settings.thresholdModality == HuangAutoThreshold {
      threshold := huang;
    } else {
      threshold := settings.thresholdInUnitsOfBackgroundPeakHalfWidth;
    }
  }

  /** The default modality, the manual threshold, yields the factor 5 whatever Huang's threshold is. */
  method DefaultThreshold(huang: real) returns (threshold: real)
    ensures threshold == 5.0
  {
    var settings := new Settings();
    threshold := GetThreshold(settings, huang);
  }

  // ---------------------------------------------------------------------------
  // watershed seeds

  /**
   * A distance threshold in micrometres turned into one for the squared distances, in
   * pixels, the Euclidean distance transform produces: (setting / resolution)^2.
   */
  function SquaredSeedThreshold(distanceThreshold: real, resolution: real): (t: real)
    requires resolution != 0.0
    ensures t >= 0.0
    ensures t * resolution * resolution == distanceThreshold * distanceThreshold
  {
    var q := distanceThreshold / resolution;
    assert q * resolution == distanceThreshold;
    assert (q * q) * resolution * resolution == (q * resolution) * (q * resolution);
    q * q
  }

  /**
   * A voxel at squared distance e^2 (e pixels from the background) passes the squared
   * threshold iff e pixels of the given resolution are more than the threshold in micrometres.
   */
  lemma SquaredThresholdMatchesDistance(e: real, distanceThreshold: real, resolution: real)
    requires e >= 0.0 && distanceThreshold >= 0.0 && resolution > 0.0
    ensures e * e > SquaredSeedThreshold(distanceThreshold, resolution) <==> e * resolution > distanceThreshold
  {
    var q := distanceThreshold / resolution;
    assert q >= 0.0;
    assert q * resolution == distanceThreshold;
    assert SquaredSeedThreshold(distanceThreshold, resolution) == q * q;
    if e > q {
      assert e * e > q * e >= q * q;
      assert e * resolution > q * resolution;
    } else {
      assert e * e <= q * e <= q * q;
      assert e * resolution <= q * resolution;
    }
  }

  /** The default settings give the thresholds (160/3 / 6)^2 = 6400/81 and (18 / 6)^2 = 9. */
  lemma DefaultSeedThresholds()
    ensures SquaredSeedThreshold(DrosophilaWidth / 3.0, 6.0) == 6400.0 / 81.0
    ensures SquaredSeedThreshold(3.0 * 6.0, 6.0) == 9.0
  {
    assert DrosophilaWidth / 3.0 / 6.0 == 80.0 / 9.0;
  }

  /** The seed mask of the distance map with both seed thresholds squared. */
  method CreateWatershedSeeds(settings: Settings, distance: seq<Utils.DistanceVoxel>, interval: Interval)
    returns (seeds: array<bool>)
    requires settings.registrationResolution != 0.0
    requires forall k :: 0 <= k < |distance| ==> Utils.SameDimensions(distance[k].position, interval)
    ensures seeds.Length == |distance|
    ensures forall k :: 0 <= k < |distance| ==>
      (seeds[k] <==> Utils.IsSeed(distance[k], interval,
                                  SquaredSeedThreshold(settings.watershedSeedsGlobalDistanceThreshold,
                                                       settings.registrationResolution),
                                  SquaredSeedThreshold(settings.watershedSeedsLocalMaximaDistanceThreshold,
                                                       settings.registrationResolution)))
  {
    var globalDistanceThreshold := SquaredSeedThreshold(settings.watershedSeedsGlobalDistanceThreshold,
                                                        settings.registrationResolution);
    var localMaximaDistanceThreshold := SquaredSeedThreshold(settings.watershedSeedsLocalMaximaDistanceThreshold,
                                                             settings.registrationResolution);
    seeds := Utils.CreateSeeds(distance, interval, globalDistanceThreshold, localMaximaDistanceThreshold);
  }

  // ---------------------------------------------------------------------------
  // central embryo

  /** Every position of the region is a voxel of the labelling's grid. */
  predicate RegionInGrid(region: Algorithms.LabelRegion, labeling: array3<Option<int>>)
  {
    forall k :: 0 <= k < |region.positions| ==>
      |region.positions[k]| == 3 && 0 <= region.positions[k][0] < labeling.Length0 &&
      0 <= region.positions[k][1] < labeling.Length1 && 0 <= region.positions[k][2] < labeling.Length2
  }

  /**
   * The mask of the central object: the region of the label found at the centre of the
   * watershed labelling, of the labelling's dimensions. None when the central voxel has
   * no label, where the source's label iterator has no element.
   */
  method CreateCentralObjectMask(labeling: array3<Option<int>>, regions: map<int, Algorithms.LabelRegion>)
    returns (centralObjectMask: Option<array3<bool>>)
    requires labeling.Length0 > 0 && labeling.Length1 > 0 && labeling.Length2 > 0
    requires forall x, y, z ::
      (0 <= x < labeling.Length0 && 0 <= y < labeling.Length1 && 0 <= z < labeling.Length2 && labeling[x, y, z].Some?) ==>
        labeling[x, y, z].value in regions
    requires forall id :: id in regions ==> RegionInGrid(regions[id], labeling)
    ensures var c := Algorithms.CentralPosition([labeling.Length0, labeling.Length1, labeling.Length2]);
      Algorithms.InGrid(c, labeling) &&
      (centralObjectMask.None? <==> labeling[c[0], c[1], c[2]].None?) &&
      (centralObjectMask.Some? ==>
        var mask := centralObjectMask.value;
        var region := regions[labeling[c[0], c[1], c[2]].value];
        mask.Length0 == labeling.Length0 && mask.Length1 == labeling.Length1 && mask.Length2 == labeling.Length2 &&
        forall x, y, z :: 0 <= x < mask.Length0 && 0 <= y < mask.Length1 && 0 <= z < mask.Length2 ==>
          (mask[x, y, z] <==> [x, y, z] in region.positions))
  {
    ghost var c := Algorithms.CentralPosition([labeling.Length0, labeling.Length1, labeling.Length2]);
    if labeling[c[0], c[1], c[2]].Some? {
      ghost var l := labeling[c[0], c[1], c[2]].value;
      assert l in regions;
      assert RegionInGrid(regions[l], labeling);
    }
    var centralLabel := Algorithms.GetCentralLabelIndex(labeling);
    if centralLabel.None? {
      centralObjectMask := None;
    } else {
      var region := regions[centralLabel.value];
      assert RegionInGrid(region, labeling);
      var mask := Algorithms.CreateBitTypeMaskFromLabelRegion(region, labeling.Length0, labeling.Length1, labeling.Length2);
      centralObjectMask := Some(mask);
    }
  }

  // ---------------------------------------------------------------------------
  // final transform

  /**
   * The final transform: scale the input to the registration resolution, apply the
   * registration, then scale from the registration to the output resolution.
   */
  method CreateFinalTransform(settings: Settings, inputCalibration: seq<real>, registration: Matrix,
                              registrationCalibration: seq<real>)
    returns (transform: Matrix)
    requires |inputCalibration| >= 3 && |registrationCalibration| >= 3
    requires settings.registrationResolution != 0.0 && settings.outputResolution != 0.0
    ensures var r := settings.registrationResolution;
            var o := settings.outputResolution;
      transform == PreConcatenate(
        PreConcatenate(ScalingMatrix([inputCalibration[X] / r, inputCalibration[Y] / r, inputCalibration[Z] / r]),
                       registration),
        ScalingMatrix([registrationCalibration[X] / o, registrationCalibration[Y] / o, registrationCalibration[Z] / o]))
  {
    var r := settings.registrationResolution;
    var o := settings.outputResolution;
    var toRegistration := GetScalingTransform(inputCalibration, r);
    ScalingIsUnique(toRegistration, [inputCalibration[X] / r, inputCalibration[Y] / r, inputCalibration[Z] / r]);
    var toOutput := GetScalingTransform(registrationCalibration, o);
    ScalingIsUnique(toOutput, [registrationCalibration[X] / o, registrationCalibration[Y] / o,
                               registrationCalibration[Z] / o]);
    transform := PreConcatenate(PreConcatenate(toRegistration, registration), toOutput);
  }

  /**
   * Without a registration, and with the isotropic registration calibration, the final
   * transform scales every axis from the input spacing straight to the output resolution.
   */
  lemma FinalTransformWithoutRegistration(inputCalibration: seq<real>, registrationResolution: real,
                                          outputResolution: real)
    requires |inputCalibration| >= 3 && registrationResolution != 0.0 && outputResolution != 0.0
    ensures var r := registrationResolution;
            var o := outputResolution;
            var c := Utils.Get3dDoubleArray(r);
      IsScaling(PreConcatenate(PreConcatenate(ScalingMatrix([inputCalibration[X] / r, inputCalibration[Y] / r,
                                                             inputCalibration[Z] / r]), Identity),
                               ScalingMatrix([c[X] / o, c[Y] / o, c[Z] / o])),
                [inputCalibration[X] / o, inputCalibration[Y] / o, inputCalibration[Z] / o])
  {
    var r := registrationResolution;
    var o := outputResolution;
    var down := [inputCalibration[X] / r, inputCalibration[Y] / r, inputCalibration[Z] / r];
    var up := [r / o, r / o, r / o];
    var a := ScalingMatrix(down);
    PreConcatenateIdentity(a);
    PreConcatenateScalings(a, down, ScalingMatrix(up), up);
    assert [Utils.Get3dDoubleArray(r)[X] / o, Utils.Get3dDoubleArray(r)[Y] / o, Utils.Get3dDoubleArray(r)[Z] / o] == up;
    forall d | 0 <= d < 3 ensures down[d] * up[d] == inputCalibration[d] / o {
      assert (inputCalibration[d] / r) * (r / o) == inputCalibration[d] / o;
    }
    assert down[0] * up[0] == inputCalibration[X] / o;
    assert down[1] * up[1] == inputCalibration[Y] / o;
    assert down[2] * up[2] == inputCalibration[Z] / o;
  }

  /**
   * The calibration flow of the registration: the input's Z spacing is corrected in place
   * for the refractive-index mismatch, the registration calibration is isotropic at the
   * registration resolution, and the final transform is built from both around the
   * given registration (the ellipsoid, orientation and roll rotations). Without a
   * registration it scales X and Y by spacing / output resolution and Z by the corrected
   * spacing / output resolution.
   */
  method ComputeCalibratedFinalTransform(settings: Settings, inputCalibration: array<real>, registration: Matrix)
    returns (transform: Matrix)
    requires inputCalibration.Length >= 3
    requires settings.registrationResolution != 0.0 && settings.outputResolution != 0.0
    modifies inputCalibration
    ensures inputCalibration[Z] == old(inputCalibration[Z]) * settings.refractiveIndexScalingCorrectionFactor
    ensures forall d :: 0 <= d < inputCalibration.Length && d != Z ==> inputCalibration[d] == old(inputCalibration[d])
    ensures var r := settings.registrationResolution;
            var o := settings.outputResolution;
      transform == PreConcatenate(
        PreConcatenate(ScalingMatrix([inputCalibration[X] / r, inputCalibration[Y] / r, inputCalibration[Z] / r]),
                       registration),
        ScalingMatrix([r / o, r / o, r / o]))
    ensures registration == Identity ==>
      IsScaling(transform, [inputCalibration[X] / settings.outputResolution,
                            inputCalibration[Y] / settings.outputResolution,
                            inputCalibration[Z] / settings.outputResolution])
  {
    var registrationCalibration := Utils.Get3dDoubleArray(settings.registrationResolution);
    RefractiveIndexMismatchCorrections.CorrectCalibration(inputCalibration, settings.refractiveIndexScalingCorrectionFactor);
    transform := CreateFinalTransform(settings, inputCalibration[..], registration, registrationCalibration);
    FinalTransformWithoutRegistration(inputCalibration[..], settings.registrationResolution, settings.outputResolution);
  }
}
