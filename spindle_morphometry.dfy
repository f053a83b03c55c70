/**
 * The decisions of the spindle morphometry: the DAPI threshold and mask, whether to close
 * the mask, the watershed seed thresholds, the roll rotation, the scaling parts of the
 * final transform, and the two spindle poles read from the tubulin profile.
 *
 * The roll-angle filter, sort and median, the head/tail decision and the mask rule are
 * the same code as in the embryo registration and use those members. Resampling, hole
 * filling, closing, labelling and the ellipsoid fit are parameters or left out.
 */
module SpindleMorphometry {
  import opened Numerics
  import opened Transforms
  import Algorithms
  import Utils
  import opened SpindleMorphometrySettings
  import ShavenBabyRegistration

  // ---------------------------------------------------------------------------
  // spindle poles

  /** The range restricted to non-negative coordinates, [0, Double.MAX_VALUE]. */
  const RightRange: Option<(real, real)> := Some((0.0, DoubleMaxValue))

  /** The range restricted to non-positive coordinates, [-Double.MAX_VALUE, 0]. */
  const LeftRange: Option<(real, real)> := Some((-DoubleMaxValue, 0.0))

  /**
   * The locations of the steepest tubulin change on either side of the centre: entry 0 is
   * the arg-max over the coordinates in [0, MAX], entry 1 over [-MAX, 0]. Each lies on its
   * own side unless no value there beats Double.MIN_VALUE, when it is the first coordinate.
   */
  method GetLeftAndRightMaxLocs(coordinates: seq<real>, derivative: seq<real>) returns (maxLocs: array<real>)
    requires |coordinates| > 0 && |derivative| <= |coordinates|
    ensures maxLocs.Length == 2
    ensures maxLocs[0] == Utils.MaxLocOf(coordinates, derivative, RightRange)
    ensures maxLocs[1] == Utils.MaxLocOf(coordinates, derivative, LeftRange)
    ensures maxLocs[0] >= 0.0 || maxLocs[0] == coordinates[0]
    ensures maxLocs[1] <= 0.0 || maxLocs[1] == coordinates[0]
  {
    var rangeMinMax := new real[2];
    maxLocs := new real[2];

    rangeMinMax[0] := 0.0;
    rangeMinMax[1] := DoubleMaxValue;
    var right := Utils.ComputeMaxLoc(coordinates, derivative, Some((rangeMinMax[0], rangeMinMax[1])));

    rangeMinMax[0] := -DoubleMaxValue;
    rangeMinMax[1] := 0.0;
    var left := Utils.ComputeMaxLoc(coordinates, derivative, Some((rangeMinMax[0], rangeMinMax[1])));

    maxLocs[0] := right;
    maxLocs[1] := left;
  }

  /** Coordinate 0 belongs to both ranges. */
  lemma CentreInBothRanges()
    ensures Utils.InRange(0.0, RightRange) && Utils.InRange(0.0, LeftRange)
  {
    DoubleMaxValueBounds();
  }

  /**
   * A steepest change that sits exactly at the centre, and beats Double.MIN_VALUE and
   * every other value, is found by both searches.
   */
  lemma PeakAtCentreIsBothPoles(coordinates: seq<real>, derivative: seq<real>, i: int)
    requires |coordinates| > 0 && |derivative| <= |coordinates|
    requires 0 <= i < |derivative| && coordinates[i] == 0.0 && derivative[i] > DoubleMinValue
    requires forall j :: 0 <= j < |derivative| && j != i ==> derivative[j] < derivative[i]
    ensures Utils.MaxLocOf(coordinates, derivative, RightRange) == 0.0
    ensures Utils.MaxLocOf(coordinates, derivative, LeftRange) == 0.0
  {
    CentreInBothRanges();
    assert Utils.Candidate(coordinates, derivative, RightRange, i);
    assert Utils.Candidate(coordinates, derivative, LeftRange, i);
    Utils.MaxScanInvariant(coordinates, derivative, RightRange, |derivative|);
    Utils.MaxScanInvariant(coordinates, derivative, LeftRange, |derivative|);
  }

  /**
   * The two poles of the run: the absolute derivatives of the tubulin maximum profile over
   * a window of (int)(1 / workingVoxelSize) slices, searched on either side of the centre.
   */
  method ComputePoleLocations(tubulinProfile: Utils.CoordinatesAndValues<real>, workingVoxelSize: real)
    returns (maxLocs: array<real>)
    requires workingVoxelSize > 0.0
    requires |tubulinProfile.coordinates| > 0 && |tubulinProfile.values| <= |tubulinProfile.coordinates|
    ensures maxLocs.Length == 2
    ensures var derivative := Algorithms.AbsoluteDerivatives(tubulinProfile.values, Trunc(1.0 / workingVoxelSize));
      maxLocs[0] == Utils.MaxLocOf(tubulinProfile.coordinates, derivative, RightRange) &&
      maxLocs[1] == Utils.MaxLocOf(tubulinProfile.coordinates, derivative, LeftRange)
  {
    var derivative := Algorithms.ComputeAbsoluteDerivatives(tubulinProfile.values, Trunc(1.0 / workingVoxelSize));
    maxLocs := GetLeftAndRightMaxLocs(tubulinProfile.coordinates, derivative);
  }

  /**
   * With a working voxel size above 1 (the default is 6) the window (int)(1 / size) is 0,
   * every derivative compares a slice with itself and is 0, so neither search finds a
   * value above Double.MIN_VALUE and both poles are the first coordinate of the profile.
   */
  lemma CoarseVoxelsPutBothPolesAtFirstCoordinate(coordinates: seq<real>, values: seq<real>, workingVoxelSize: real)
    requires workingVoxelSize > 1.0
    requires |coordinates| > 0 && |values| <= |coordinates|
    ensures var derivative := Algorithms.AbsoluteDerivatives(values, Trunc(1.0 / workingVoxelSize));
      Utils.MaxLocOf(coordinates, derivative, RightRange) == coordinates[0] &&
      Utils.MaxLocOf(coordinates, derivative, LeftRange) == coordinates[0]
  {
    DivLess(1.0, workingVoxelSize, 1.0);
    DivGreater(1.0, workingVoxelSize, 0.0);
    var di := Trunc(1.0 / workingVoxelSize);
    assert di == 0;
    var derivative := Algorithms.AbsoluteDerivatives(values, di);
    Algorithms.NarrowWindowDerivativesVanish(values, di);
    DoubleMinValueBounds();
    forall k | 0 <= k < |derivative|
      ensures !Utils.Candidate(coordinates, derivative, RightRange, k) &&
              !Utils.Candidate(coordinates, derivative, LeftRange, k)
    {
      assert derivative[k] == 0.0;
    }
    Utils.MaxScanInvariant(coordinates, derivative, RightRange, |derivative|);
    Utils.MaxScanInvariant(coordinates, derivative, LeftRange, |derivative|);
  }

  // ---------------------------------------------------------------------------
  // DAPI mask

  /**
   * The DAPI threshold: half the maximum of the image resampled to 3 micrometres. No voxel
   * is above twice the threshold, and twice the threshold is a voxel's value unless every
   * voxel is at or below Double.MIN_VALUE, the start of the maximum search.
   */
  method DapiThreshold(dapi3um: seq<real>) returns (threshold: real)
    ensures forall k :: 0 <= k < |dapi3um| ==> dapi3um[k] <= 2.0 * threshold
    ensures 2.0 * threshold == DoubleMinValue || exists k :: 0 <= k < |dapi3um| && dapi3um[k] == 2.0 * threshold
    ensures 2.0 * threshold >= DoubleMinValue
  {
    var maximumValue := Algorithms.GetMaximumValue(dapi3um);
    threshold := maximumValue / 2.0;
  }

  /**
   * The DAPI mask of the run: the working-resolution image thresholded strictly above half
   * the maximum of the 3 micrometre image, with holes filled. The run does not close it.
   */
  method CreateDapiMask(dapi3um: seq<real>, dapi: seq<real>, fillHoles: seq<bool> -> seq<bool>)
    returns (threshold: real, mask: seq<bool>)
    ensures forall k :: 0 <= k < |dapi3um| ==> dapi3um[k] <= 2.0 * threshold
    ensures 2.0 * threshold == DoubleMinValue || exists k :: 0 <= k < |dapi3um| && dapi3um[k] == 2.0 * threshold
    ensures mask == fillHoles(Utils.AboveThreshold(dapi, threshold))
  {
    threshold := DapiThreshold(dapi3um);
    mask := ShavenBabyRegistration.CreateMask(dapi, threshold, fillHoles);
  }

  // ---------------------------------------------------------------------------
  // closing, threshold choice and seeds

  /**
   * A copy of the mask, closed by `close` with a sphere of radius
   * (int)(closingRadius / workingVoxelSize) when closingRadius is positive, and returned
   * unchanged otherwise.
   */
  method CreateClosedImage(settings: Settings, mask: seq<bool>, close: (seq<bool>, int) -> seq<bool>)
    returns (closed: seq<bool>)
    requires settings.closingRadius > 0.0 ==> settings.workingVoxelSize != 0.0
    ensures settings.closingRadius <= 0.0 ==> closed == mask
    ensures settings.closingRadius > 0.0 ==>
      closed == close(mask, Trunc(settings.closingRadius / settings.workingVoxelSize))
  {
    closed := mask;
    if settings.closingRadius > 0.0 {
      var radius := Trunc(settings.closingRadius / settings.workingVoxelSize);
      closed := close(mask, radius);
    }
  }

  /** The defaults close with a radius of (int)(1 / 6) = 0 voxels. */
  method DefaultClosingRadius(mask: seq<bool>, close: (seq<bool>, int) -> seq<bool>) returns (closed: seq<bool>)
    ensures closed == close(mask, 0)
  {
    var settings := new Settings();
    DivLess(1.0, 6.0, 1.0);
    closed := CreateClosedImage(settings, mask, close);
  }

  /** Huang's threshold of the image when that modality is chosen, the settings' factor otherwise. */
  method GetThreshold(settings: Settings, huang: real) returns (threshold: real)
    ensures settings.thresholdModality == HuangAutoThreshold ==> threshold == huang
    ensures settings.thresholdModality != HuangAutoThreshold ==>
      threshold == settings.thresholdInUnitsOfBackgroundPeakHalfWidth
  {
    threshold := 0.0;
    if settings.thresholdModality == HuangAutoThreshold {
      threshold := huang;
    } else {
      threshold := settings.thresholdInUnitsOfBackgroundPeakHalfWidth;
    }
  }

  /** The seed mask of the distance map, both seed thresholds squared in working voxels. */
  method CreateWatershedSeeds(settings: Settings, distance: seq<Utils.DistanceVoxel>, interval: Interval)
    returns (seeds: array<bool>)
    requires settings.workingVoxelSize != 0.0
    requires forall k :: 0 <= k < |distance| ==> Utils.SameDimensions(distance[k].position, interval)
    ensures seeds.Length == |distance|
    ensures forall k :: 0 <= k < |distance| ==>
      (seeds[k] <==> Utils.IsSeed(distance[k], interval,
                                  ShavenBabyRegistration.SquaredSeedThreshold(
                                    settings.watershedSeedsGlobalDistanceThreshold, settings.workingVoxelSize),
                                  ShavenBabyRegistration.SquaredSeedThreshold(
                                    settings.watershedSeedsLocalMaximaDistanceThreshold, settings.workingVoxelSize)))
  {
    var globalDistanceThreshold := ShavenBabyRegistration.SquaredSeedThreshold(
      settings.watershedSeedsGlobalDistanceThreshold, settings.workingVoxelSize);
    var localMaximaDistanceThreshold := ShavenBabyRegistration.SquaredSeedThreshold(
      settings.watershedSeedsLocalMaximaDistanceThreshold, settings.workingVoxelSize);
    seeds := Utils.CreateSeeds(distance, interval, globalDistanceThreshold, localMaximaDistanceThreshold);
  }

  // ---------------------------------------------------------------------------
  // roll rotation and final transform

  /**
   * The roll rotation about X: minus the roll angle of the settings' window, in degrees
   * (the conversion to radians is left out); none when no profile entry is kept.
   */
  method ComputeRollTransform(p: Utils.CentroidsParameters, settings: Settings) returns (rotationAboutX: Option<real>)
    requires ShavenBabyRegistration.ProfileLengths(p)
    ensures var kept := ShavenBabyRegistration.OffCenterAngles(p, settings.rollAngleMinDistanceToAxis,
                                                                settings.rollAngleMinDistanceToCenter,
                                                                settings.rollAngleMaxDistanceToCenter,
                                                                |p.axisCoordinates|);
            var median := Utils.Median(ShavenBabyRegistration.SortedOf(kept));
      (rotationAboutX.None? <==> kept == []) &&
      (rotationAboutX.Some? ==> median.Some? && rotationAboutX.value == -median.value)
  {
    var rollAngle := ShavenBabyRegistration.ComputeRollAngle(p, settings.rollAngleMinDistanceToAxis,
                                                             settings.rollAngleMinDistanceToCenter,
                                                             settings.rollAngleMaxDistanceToCenter);
    if rollAngle.None? {
      rotationAboutX := None;
    } else {
      rotationAboutX := Some(-rollAngle.value);
    }
  }

  /**
   * The final transform: scale the input to the working voxel size, apply the
   * registration, then scale from the registration calibration to the output resolution.
   */
  method CreateFinalTransform(settings: Settings, inputCalibration: seq<real>, registration: Matrix,
                              registrationCalibration: seq<real>)
    returns (transform: Matrix)
    requires |inputCalibration| >= 3 && |registrationCalibration| >= 3
    requires settings.workingVoxelSize != 0.0 && settings.outputResolution != 0.0
    ensures var w := settings.workingVoxelSize;
            var o := settings.outputResolution;
      transform == PreConcatenate(
        PreConcatenate(ScalingMatrix([inputCalibration[X] / w, inputCalibration[Y] / w, inputCalibration[Z] / w]),
                       registration),
        ScalingMatrix([registrationCalibration[X] / o, registrationCalibration[Y] / o, registrationCalibration[Z] / o]))
  {
    var w := settings.workingVoxelSize;
    var o := settings.outputResolution;
    var toWorking := GetScalingTransform(inputCalibration, w);
    ScalingIsUnique(toWorking, [inputCalibration[X] / w, inputCalibration[Y] / w, inputCalibration[Z] / w]);
    var toOutput := GetScalingTransform(registrationCalibration, o);
    ScalingIsUnique(toOutput, [registrationCalibration[X] / o, registrationCalibration[Y] / o,
                               registrationCalibration[Z] / o]);
    transform := PreConcatenate(PreConcatenate(toWorking, registration), toOutput);
  }
}
