/**
 * Corrections for the refractive-index mismatch between immersion medium and sample:
 * the Z spacing is rescaled, and intensities decaying with depth are lifted again by
 * a per-slice factor after the background offset is subtracted.
 *
 * An image is an `array2<real>` whose row `r` is the Z slice at coordinate `minZ + r`
 * and whose columns are the voxels of that slice in cursor order.
 */
module RefractiveIndexMismatchCorrections {
  import opened Numerics
  import opened IntensityHistogram

  const GeneralIntensityScaling: real := 0.3
  const OffsetInMicrometer: real := 10.0

  /** The histogram the background offset is read from: 65535 / 5 bins of width 5. */
  const OffsetHistogramMaxValue: real := 65535.0
  const OffsetHistogramBinWidth: real := 5.0
  const OffsetHistogramBins: nat := 13107

  /**
   * Intensity correction factor for slice `z`: 0.3 / exp(-(z * zScaling - 10) / decayLength).
   * `exp` is the exponential function, of which only positivity is used.
   */
  function IntensityCorrectionFactorAlongZ(z: int, zScaling: real, decayLength: real, exp: real -> real): (f: real)
    requires decayLength != 0.0
    requires forall x :: exp(x) > 0.0
    ensures f > 0.0
    ensures f * exp(-(z as real * zScaling - OffsetInMicrometer) / decayLength) == GeneralIntensityScaling
  {
    var zInMicrometer := z as real * zScaling - OffsetInMicrometer;
    GeneralIntensityScaling / exp(-zInMicrometer / decayLength)
  }

  /** At the reference depth of 10 micrometres the factor is the general scaling 0.3. */
  lemma FactorAtReferenceDepth(z: int, zScaling: real, decayLength: real, exp: real -> real)
    requires decayLength != 0.0
    requires forall x :: exp(x) > 0.0
    requires exp(0.0) == 1.0
    requires z as real * zScaling == OffsetInMicrometer
    ensures IntensityCorrectionFactorAlongZ(z, zScaling, decayLength, exp) == GeneralIntensityScaling
  {
    assert -(z as real * zScaling - OffsetInMicrometer) / decayLength == 0.0;
  }

  /** A voxel after correction: 0 below the offset, otherwise (v - offset) times the factor. */
  function CorrectedVoxel(v: real, offset: real, factor: real): real
  {
    if v - offset < 0.0 then 0.0 else (v - offset) * factor
  }

  /** With a positive factor, correction never yields a negative intensity, and keeps the order of voxels. */
  lemma CorrectedVoxelProperties(v: real, u: real, offset: real, factor: real)
    requires factor > 0.0
    ensures CorrectedVoxel(v, offset, factor) >= 0.0
    ensures v <= u ==> CorrectedVoxel(v, offset, factor) <= CorrectedVoxel(u, offset, factor)
    ensures CorrectedVoxel(v, offset, factor) == 0.0 <==> v <= offset
  {
    if v - offset > 0.0 {
      assert (v - offset) * factor > 0.0;
    } else if v - offset == 0.0 {
      assert (v - offset) * factor == 0.0;
    }
    if v <= u && v - offset >= 0.0 {
      assert (u - offset) * factor - (v - offset) * factor == (u - v) * factor;
      assert (u - v) * factor >= 0.0;
    }
  }

  /** Multiplies the Z spacing by the correction factor; X and Y are left as they are. */
  method CorrectCalibration(calibration: array<real>, correctionFactor: real)
    requires calibration.Length > Z
    modifies calibration
    ensures calibration[Z] == old(calibration[Z]) * correctionFactor
    ensures forall d :: 0 <= d < calibration.Length && d != Z ==> calibration[d] == old(calibration[d])
  {
    calibration[Z] := calibration[Z] * correctionFactor;
  }

  /**
   * Corrects every voxel in place; each slice from min Z to max Z is visited once and
   * all voxels of a slice use the factor of that slice's Z coordinate.
   */
  method CorrectIntensity(img: array2<real>, minZ: int, zCalibration: real, intensityOffset: real,
                          decayLength: real, exp: real -> real)
    requires decayLength != 0.0
    requires forall x :: exp(x) > 0.0
    modifies img
    ensures forall r, k :: 0 <= r < img.Length0 && 0 <= k < img.Length1 ==>
      img[r, k] == CorrectedVoxel(old(img[r, k]), intensityOffset,
                                  IntensityCorrectionFactorAlongZ(minZ + r, zCalibration, decayLength, exp))
  {
    var r := 0;
    while r < img.Length0
      invariant 0 <= r <= img.Length0
      invariant forall i, k :: 0 <= i < r && 0 <= k < img.Length1 ==>
        img[i, k] == CorrectedVoxel(old(img[i, k]), intensityOffset,
                                    IntensityCorrectionFactorAlongZ(minZ + i, zCalibration, decayLength, exp))
      invariant forall i, k :: r <= i < img.Length0 && 0 <= k < img.Length1 ==> img[i, k] == old(img[i, k])
    {
      var z := minZ + r;
      var factor := IntensityCorrectionFactorAlongZ(z, zCalibration, decayLength, exp);
      var k := 0;
      while k < img.Length1
        invariant 0 <= k <= img.Length1
        invariant forall i, j :: 0 <= i < r && 0 <= j < img.Length1 ==>
          img[i, j] == CorrectedVoxel(old(img[i, j]), intensityOffset,
                                      IntensityCorrectionFactorAlongZ(minZ + i, zCalibration, decayLength, exp))
        invariant forall j :: 0 <= j < k ==> img[r, j] == CorrectedVoxel(old(img[r, j]), intensityOffset, factor)
        invariant forall i, j :: r <= i < img.Length0 && 0 <= j < img.Length1 && (i > r || j >= k) ==>
          img[i, j] == old(img[i, j])
      {
        if img[r, k] - intensityOffset < 0.0 {
          img[r, k] := 0.0;
        } else {
          img[r, k] := (img[r, k] - intensityOffset) * factor;
        }
        k := k + 1;
      }
      r := r + 1;
    }
  }

  /** The voxels of slice `r`, in cursor order. */
  function Row(img: array2<real>, r: nat): (s: seq<real>)
    requires r < img.Length0
    reads img
    ensures |s| == img.Length1
  {
    seq(img.Length1, k requires 0 <= k < img.Length1 reads img => img[r, k])
  }

  /** The voxels of the first `rows` slices, slice after slice. */
  function Voxels(img: array2<real>, rows: nat): (s: seq<real>)
    requires rows <= img.Length0
    reads img
  {
    if rows == 0 then [] else Voxels(img, rows - 1) + Row(img, rows - 1)
  }

  /** The background offset: the centre of the mode bin of a 65535 / 5 histogram of the channel. */
  method GetIntensityOffset(channel: seq<real>) returns (offset: real)
    requires Binnable(channel, OffsetHistogramBinWidth, OffsetHistogramBins)
    ensures offset == ModeOf(Accumulate(Zeros(OffsetHistogramBins), channel, OffsetHistogramBinWidth),
                             Centers(OffsetHistogramBins, OffsetHistogramBinWidth)).position
    ensures offset == 0.0 ||
      exists i :: 0 <= i < OffsetHistogramBins && offset == BinCenter(i, OffsetHistogramBinWidth)
  {
    assert Trunc(OffsetHistogramMaxValue / OffsetHistogramBinWidth) == OffsetHistogramBins;
    var histogram := new Histogram(channel, OffsetHistogramMaxValue, OffsetHistogramBinWidth);
    var mode := histogram.GetMode();
    offset := mode.position;
  }

  /**
   * Corrects a copy of the channel with the offset read from the channel's own histogram;
   * the channel itself is not modified.
   */
  method CreateIntensityCorrectedChannel(zCalibration: real, decayLength: real, exp: real -> real,
                                         channel: array2<real>, minZ: int)
    returns (corrected: array2<real>)
    requires decayLength != 0.0
    requires forall x :: exp(x) > 0.0
    requires Binnable(Voxels(channel, channel.Length0), OffsetHistogramBinWidth, OffsetHistogramBins)
    ensures fresh(corrected)
    ensures corrected.Length0 == channel.Length0 && corrected.Length1 == channel.Length1
    ensures var offset := ModeOf(Accumulate(Zeros(OffsetHistogramBins), Voxels(channel, channel.Length0),
                                            OffsetHistogramBinWidth),
                                 Centers(OffsetHistogramBins, OffsetHistogramBinWidth)).position;
      forall r, k :: 0 <= r < channel.Length0 && 0 <= k < channel.Length1 ==>
        corrected[r, k] == CorrectedVoxel(channel[r, k], offset,
                                          IntensityCorrectionFactorAlongZ(minZ + r, zCalibration, decayLength, exp))
  {
    var offset := GetIntensityOffset(Voxels(channel, channel.Length0));
    corrected := CopyImage(channel);
    CorrectIntensity(corrected, minZ, zCalibration, offset, decayLength, exp);
  }

  /** A fresh image with the same voxels. */
  method CopyImage(img: array2<real>) returns (copy: array2<real>)
    ensures fresh(copy)
    ensures copy.Length0 == img.Length0 && copy.Length1 == img.Length1
    ensures forall r, k :: 0 <= r < img.Length0 && 0 <= k < img.Length1 ==> copy[r, k] == img[r, k]
  {
    copy := new real[img.Length0, img.Length1]((r, k) reads img => if 0 <= r < img.Length0 && 0 <= k < img.Length1 then img[r, k] else 0.0);
  }
}
