/**
 * The spindle morphometry command: its dialog fields, the output interval it crops to,
 * and how it copies the dialog into the spindle settings. Which files it accepts is the
 * same rule as the embryo registration command's, `ShavenBabyRegistrationCommand.AcceptFile`.
 */
module SpindleMorphometryCommand {
  import opened Numerics
  import opened Transforms
  import opened SpindleMorphometrySettings
  import ShavenBabyRegistrationCommand
  import SpindleMorphometry

  const FromDirectory: string := "From directory"
  const CurrentImage: string := "Current image"

  class Command {
    var settings: Settings

    var inputModality: string
    var fileNameEndsWith: string
    var shavenBabyChannelIndexOneBased: int
    var showIntermediateResults: bool
    /** Shown as the registration resolution; it becomes the working voxel size. */
    var registrationResolution: real
    var outputResolution: real
    var thresholdInUnitsOfBackgroundPeakHalfWidth: real
    var refractiveIndexScalingCorrectionFactor: real
    var refractiveIndexIntensityCorrectionDecayLength: real

    /** The dialog starts from the settings' defaults, reading from a directory of .czi and .lsm files. */
    constructor ()
      ensures fresh(settings)
      ensures inputModality == FromDirectory && fileNameEndsWith == ".czi,.lsm"
      ensures shavenBabyChannelIndexOneBased == settings.shavenBabyChannelIndexOneBased == 1
      ensures showIntermediateResults == settings.showIntermediateResults == false
      ensures registrationResolution == settings.workingVoxelSize == 6.0
      ensures outputResolution == settings.outputResolution == 2.0
      ensures thresholdInUnitsOfBackgroundPeakHalfWidth == settings.thresholdInUnitsOfBackgroundPeakHalfWidth == 5.0
      ensures refractiveIndexScalingCorrectionFactor == settings.refractiveIndexScalingCorrectionFactor == 1.6
      ensures refractiveIndexIntensityCorrectionDecayLength ==
              settings.refractiveIndexIntensityCorrectionDecayLength == 170.0
      ensures settings.outputImageSizeX == 500.0 && settings.outputImageSizeY == 250.0 &&
              settings.outputImageSizeZ == 250.0
    {
      var s := new Settings();
      settings := s;
      inputModality := FromDirectory;
      fileNameEndsWith := ".czi,.lsm";
      shavenBabyChannelIndexOneBased := s.shavenBabyChannelIndexOneBased;
      showIntermediateResults := s.showIntermediateResults;
      registrationResolution := s.workingVoxelSize;
      outputResolution := s.outputResolution;
      thresholdInUnitsOfBackgroundPeakHalfWidth := s.thresholdInUnitsOfBackgroundPeakHalfWidth;
      refractiveIndexScalingCorrectionFactor := s.refractiveIndexScalingCorrectionFactor;
      refractiveIndexIntensityCorrectionDecayLength := s.refractiveIndexIntensityCorrectionDecayLength;
    }

    /** The interval the registered image is cropped to, symmetric about 0 on X, Y and Z. */
    method CreateOutputImageInterval(rai: Interval) returns (interval: Option<Interval>)
      requires settings.outputResolution != 0.0
      requires |rai.min| == |rai.max|
      ensures interval.None? <==> |rai.min| < 3
      ensures interval.Some? ==>
        var sizes := [settings.outputImageSizeX, settings.outputImageSizeY, settings.outputImageSizeZ];
        |interval.value.min| == |interval.value.max| == |rai.min| &&
        (forall d :: 0 <= d < 3 ==>
          interval.value.min[d] == -ShavenBabyRegistrationCommand.HalfExtent(sizes[d], settings.outputResolution) &&
          interval.value.max[d] == -interval.value.min[d]) &&
        (forall d :: 3 <= d < |rai.min| ==> interval.value.min[d] == rai.min[d] && interval.value.max[d] == rai.max[d])
    {
      interval := ShavenBabyRegistrationCommand.OutputImageInterval(
        rai, [settings.outputImageSizeX, settings.outputImageSizeY, settings.outputImageSizeZ],
        settings.outputResolution);
    }

    /**
     * Copies six dialog values into the settings, the registration resolution into the
     * working voxel size, and switches closing off, the background intensity to 0 and
     * the threshold modality to the empty name (so never Huang's) whatever the dialog
     * says. Everything else keeps its value.
     */
    method SetSettingsFromUI()
      modifies settings
      ensures settings.showIntermediateResults == showIntermediateResults
      ensures settings.workingVoxelSize == registrationResolution
      ensures settings.closingRadius == 0.0
      ensures settings.outputResolution == outputResolution
      ensures settings.backgroundIntensity == 0.0
      ensures settings.refractiveIndexScalingCorrectionFactor == refractiveIndexScalingCorrectionFactor
      ensures settings.refractiveIndexIntensityCorrectionDecayLength == refractiveIndexIntensityCorrectionDecayLength
      ensures settings.thresholdModality == "" && settings.thresholdModality != HuangAutoThreshold
      ensures settings.thresholdInUnitsOfBackgroundPeakHalfWidth == thresholdInUnitsOfBackgroundPeakHalfWidth
      ensures settings.shavenBabyChannelIndexOneBased == old(settings.shavenBabyChannelIndexOneBased)
      ensures settings.rollAngleMinDistanceToAxis == old(settings.rollAngleMinDistanceToAxis)
      ensures settings.rollAngleMinDistanceToCenter == old(settings.rollAngleMinDistanceToCenter)
      ensures settings.rollAngleMaxDistanceToCenter == old(settings.rollAngleMaxDistanceToCenter)
      ensures settings.watershedSeedsGlobalDistanceThreshold == old(settings.watershedSeedsGlobalDistanceThreshold)
      ensures settings.watershedSeedsLocalMaximaDistanceThreshold ==
              old(settings.watershedSeedsLocalMaximaDistanceThreshold)
      ensures settings.outputImageSizeX == old(settings.outputImageSizeX)
      ensures settings.outputImageSizeY == old(settings.outputImageSizeY)
      ensures settings.outputImageSizeZ == old(settings.outputImageSizeZ)
      ensures settings.inputCalibration == old(settings.inputCalibration)
      ensures settings.maxValue == old(settings.maxValue)
    {
      var s := settings;
      s.showIntermediateResults, s.workingVoxelSize, s.closingRadius, s.outputResolution,
        s.backgroundIntensity, s.refractiveIndexScalingCorrectionFactor,
        s.refractiveIndexIntensityCorrectionDecayLength, s.thresholdModality,
        s.thresholdInUnitsOfBackgroundPeakHalfWidth :=
        showIntermediateResults, registrationResolution, 0.0, outputResolution,
        0.0, refractiveIndexScalingCorrectionFactor,
        refractiveIndexIntensityCorrectionDecayLength, "",
        thresholdInUnitsOfBackgroundPeakHalfWidth;
    }
  }

  /**
   * Once the dialog is copied, the mask is never closed and the threshold is the manual
   * factor whatever Huang's threshold would be.
   */
  method DialogSkipsClosingAndHuang(command: Command, mask: seq<bool>, close: (seq<bool>, int) -> seq<bool>,
                                    huang: real)
    returns (closed: seq<bool>, threshold: real)
    modifies command.settings
    ensures closed == mask
    ensures threshold == command.thresholdInUnitsOfBackgroundPeakHalfWidth
  {
    command.SetSettingsFromUI();
    closed := SpindleMorphometry.CreateClosedImage(command.settings, mask, close);
    threshold := SpindleMorphometry.GetThreshold(command.settings, huang);
  }
}
