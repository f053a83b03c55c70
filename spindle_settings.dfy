/**
 * The settings of the spindle morphometry: the same set as the embryo registration,
 * with a working voxel size in place of the registration resolution, closing switched
 * on by default, and the input calibration and maximum value of the images measured.
 */
module SpindleMorphometrySettings {

  const ManualThreshold: string := "Manual threshold"
  const HuangAutoThreshold: string := "Huang auto threshold"

  const DrosophilaLength: real := 420.0
  const DrosophilaWidth: real := 160.0

  class Settings {
    var shavenBabyChannelIndexOneBased: int
    var showIntermediateResults: bool
    var refractiveIndexScalingCorrectionFactor: real
    var workingVoxelSize: real
    var outputResolution: real
    var backgroundIntensity: real
    var refractiveIndexIntensityCorrectionDecayLength: real

    var rollAngleMinDistanceToAxis: real
    var rollAngleMinDistanceToCenter: real
    var rollAngleMaxDistanceToCenter: real

    var watershedSeedsGlobalDistanceThreshold: real
    var watershedSeedsLocalMaximaDistanceThreshold: real

    var thresholdModality: string
    var thresholdInUnitsOfBackgroundPeakHalfWidth: real
    var closingRadius: real

    var outputImageSizeX: real
    var outputImageSizeY: real
    var outputImageSizeZ: real

    /** Spacing of the input images per axis; unset (empty) until the caller provides it. */
    var inputCalibration: seq<real>
    var maxValue: real

    /**
     * The defaults: a working voxel size of 6, closing radius 1, the local seed threshold
     * three voxels of the working size at construction, and the same roll window as the
     * embryo registration.
     */
    constructor ()
      ensures shavenBabyChannelIndexOneBased == 1 && !showIntermediateResults
      ensures refractiveIndexScalingCorrectionFactor == 1.6
      ensures workingVoxelSize == 6.0 && outputResolution == 2.0
      ensures backgroundIntensity == 3155.0 && refractiveIndexIntensityCorrectionDecayLength == 170.0
      ensures rollAngleMinDistanceToAxis == 0.0
      ensures rollAngleMinDistanceToCenter == DrosophilaLength / 2.0 * 0.5 == 105.0
      ensures rollAngleMaxDistanceToCenter == DrosophilaLength / 2.0 - 10.0 == 200.0
      ensures rollAngleMinDistanceToCenter < rollAngleMaxDistanceToCenter
      ensures watershedSeedsGlobalDistanceThreshold == DrosophilaWidth / 3.0
      ensures watershedSeedsLocalMaximaDistanceThreshold == 3.0 * workingVoxelSize == 18.0
      ensures thresholdModality == ManualThreshold && thresholdModality != HuangAutoThreshold
      ensures thresholdInUnitsOfBackgroundPeakHalfWidth == 5.0
      ensures closingRadius == 1.0
      ensures outputImageSizeX == 500.0 && outputImageSizeY == 250.0 && outputImageSizeZ == 250.0
      ensures inputCalibration == [] && maxValue == 0.0
    {
      shavenBabyChannelIndexOneBased := 1;
      showIntermediateResults := false;
      refractiveIndexScalingCorrectionFactor := 1.6;
      workingVoxelSize := 6.0;
      outputResolution := 2.0;
      backgroundIntensity := 3155.0;
      refractiveIndexIntensityCorrectionDecayLength := 170.0;
      rollAngleMinDistanceToAxis := 0.0;
      rollAngleMinDistanceToCenter := DrosophilaLength / 2.0 * 0.5;
      rollAngleMaxDistanceToCenter := DrosophilaLength / 2.0 - 10.0;
      watershedSeedsGlobalDistanceThreshold := DrosophilaWidth / 3.0;
      watershedSeedsLocalMaximaDistanceThreshold := 3.0 * 6.0;
      thresholdModality := ManualThreshold;
      thresholdInUnitsOfBackgroundPeakHalfWidth := 5.0;
      closingRadius := 1.0;
      outputImageSizeX := 500.0;
      outputImageSizeY := 250.0;
      outputImageSizeZ := 250.0;
      inputCalibration := [];
      maxValue := 0.0;
    }
  }
}
