/**
 * The settings of the shaven-baby embryo registration. All spatial values are in
 * micrometres; the embryo is taken to be 420 long and 160 wide. The fields are set to
 * their defaults on construction; the command later overwrites some of them from its
 * dialog.
 */
module ShavenBabyRegistrationSettings {

  const ManualThreshold: string := "Manual threshold"
  const HuangAutoThreshold: string := "Huang auto threshold"

  const DrosophilaLength: real := 420.0
  const DrosophilaWidth: real := 160.0

  class Settings {
    var shavenBabyChannelIndexOneBased: int
    var showIntermediateResults: bool
    var refractiveIndexScalingCorrectionFactor: real
    var registrationResolution: real
    var outputResolution: real
    var backgroundIntensity: real
    var refractiveIndexIntensityCorrectionDecayLength: real

    var rollAngleMinDistanceToAxis: real
    var rollAngleMinDistanceToCenter: real
    var rollAngleMaxDistanceToCenter: real

    var watershedSeedsGlobalDistanceThreshold: real
    var watershedSeedsLocalMaximaDistanceThreshold: real

    var thresholdModality: string
    var thresholdInUnitsOfBackgroundPeakHalfWidth: real
    var closingRadius: real

    var outputImageSizeX: real
    var outputImageSizeY: real
    var outputImageSizeZ: real

    /**
     * The defaults. The roll window is a quarter to half an embryo length minus 10 from
     * the centre; the local seed threshold is three pixels of the registration resolution
     * at the time of construction and does not follow later changes of that resolution.
     */
    constructor ()
      ensures shavenBabyChannelIndexOneBased == 1 && !showIntermediateResults
      ensures refractiveIndexScalingCorrectionFactor == 1.6
      ensures registrationResolution == 6.0 && outputResolution == 2.0
      ensures backgroundIntensity == 3155.0 && refractiveIndexIntensityCorrectionDecayLength == 170.0
      ensures rollAngleMinDistanceToAxis == 0.0
      ensures rollAngleMinDistanceToCenter == DrosophilaLength / 2.0 * 0.5 == 105.0
      ensures rollAngleMaxDistanceToCenter == DrosophilaLength / 2.0 - 10.0 == 200.0
      ensures rollAngleMinDistanceToCenter < rollAngleMaxDistanceToCenter
      ensures watershedSeedsGlobalDistanceThreshold == DrosophilaWidth / 3.0
      ensures watershedSeedsLocalMaximaDistanceThreshold == 3.0 * registrationResolution == 18.0
      ensures thresholdModality == ManualThreshold && thresholdModality != HuangAutoThreshold
      ensures thresholdInUnitsOfBackgroundPeakHalfWidth == 5.0
      ensures closingRadius == 0.0
      ensures outputImageSizeX == 500.0 && outputImageSizeY == 250.0 && outputImageSizeZ == 250.0
    {
      shavenBabyChannelIndexOneBased := 1;
      showIntermediateResults := false;
      refractiveIndexScalingCorrectionFactor := 1.6;
      registrationResolution := 6.0;
      outputResolution := 2.0;
      backgroundIntensity := 3155.0;
      refractiveIndexIntensityCorrectionDecayLength := 170.0;
      rollAngleMinDistanceToAxis := 0.0;
      rollAngleMinDistanceToCenter := DrosophilaLength / 2.0 * 0.5;
      rollAngleMaxDistanceToCenter := DrosophilaLength / 2.0 - 10.0;
      watershedSeedsGlobalDistanceThreshold := DrosophilaWidth / 3.0;
      watershedSeedsLocalMaximaDistanceThreshold := 3.0 * 6.0;
      thresholdModality := ManualThreshold;
      thresholdInUnitsOfBackgroundPeakHalfWidth := 5.0;
      closingRadius := 0.0;
      outputImageSizeX := 500.0;
      outputImageSizeY := 250.0;
      outputImageSizeZ := 250.0;
    }
  }
}
