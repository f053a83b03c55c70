# Drosophila embryo registration and spindle morphometry: the decision core

The repository registers 3D microscopy images of shaven-baby Drosophila embryos
and measures mitotic spindles. Both pipelines follow the same steps:

1. Resample the input to an isotropic registration (or working) resolution.
2. Read the background offset and a mask threshold from an intensity histogram.
3. Correct the Z spacing and the depth-dependent intensity loss caused by the
   refractive-index mismatch.
4. Threshold the image, optionally close the mask, and split it into objects with a
   distance transform and a seeded watershed.
5. Keep the central (or largest) object.
6. Align that object by its ellipsoid. Then decide a head/tail flip from an
   intensity profile along the long axis, and a roll about it from the centroids of
   the slices perpendicular to it.
7. Compose the final scaling transform to the output resolution. The commands crop
   the result to a fixed interval that is symmetric about the origin.

This project models the rules around the imaging library's primitives, one Dafny
module per Java class:

- the histogram;
- the refractive-index corrections;
- the interval and scale arithmetic;
- the profile and selection utilities;
- the registration and morphometry decisions;
- the settings defaults;
- the commands' file filter, output interval and copying of dialog values into the
  settings.

The library primitives are function parameters or images given as input.

Modelling conventions:

- Doubles are `real`.
- Java's `(int)` and `(long)` casts are `Numerics.Trunc`, which truncates toward zero.
  Integer `/ 2` is `Numerics.Half`.
- `Double.MIN_VALUE` and `Double.MAX_VALUE` are their exact values.
- An image is the sequence of its voxels in cursor order. An image cut into slices
  along an axis is a sequence of slices, slice `i` standing at coordinate `min + i`.
- Images that the code changes in place are arrays:
  - the corrected intensity image is an `array2` of Z slices;
  - masks are `array`s and `array3`s;
  - calibration vectors are `array<real>`.
- An `AffineTransform3D` is its 3 x 4 matrix.
- A Java `null` or a failing index becomes `Option.None`.
- `sqrt`, `exp`, the roll angle's `acos`/`signum` computation, the label iteration
  order and the library image operations are parameters.

## Model

| member | source | states |
|---|---|---|
| Numerics.Trunc | src/main/java/de/embl/cba/morphometrics/IntensityHistogram.java:94 | the cast drops the fraction toward zero: 0 <= r <= x < r + 1 for x >= 0, and r - 1 < x <= r <= 0 for x < 0 |
| Numerics.Half | src/main/java/de/embl/cba/morphometrics/Utils.java:600 | long division by 2 rounds toward zero, also for negative operands |
| Numerics.DoubleMinValueBounds | src/main/java/de/embl/cba/morphometrics/Algorithms.java:126 | the start value Double.MIN_VALUE lies strictly between 0 and 1 |
| Numerics.DoubleMaxValueBounds | src/main/java/de/embl/cba/morphometrics/spindle/SpindleMorphometry.java:163 | Double.MAX_VALUE is at least 1 |
| Numerics.TruncMonotone | src/main/java/de/embl/cba/morphometrics/Transforms.java:127-128 | truncation keeps the order of its arguments |
| Numerics.TruncOdd | src/main/java/de/embl/cba/morphometrics/Transforms.java:146-147 | truncation is symmetric about zero, Trunc(-x) == -Trunc(x) |
| IntensityHistogram.Centers | src/main/java/de/embl/cba/morphometrics/IntensityHistogram.java:29-35 | one bin centre per bin, centre i = i * w + w / 2 |
| IntensityHistogram.BinInRange | src/main/java/de/embl/cba/morphometrics/IntensityHistogram.java:92-102 | a value above -w lands in a bin index 0 <= b < numBins |
| IntensityHistogram.SmallNegativeValueInFirstBin | src/main/java/de/embl/cba/morphometrics/IntensityHistogram.java:94 | a value in (-w, 0) goes to bin 0, because the cast truncates toward zero |
| IntensityHistogram.LargeValueInLastBin | src/main/java/de/embl/cba/morphometrics/IntensityHistogram.java:96-99 | a value at or beyond numBins * w saturates into the last bin |
| IntensityHistogram.CenterInOwnBin | src/main/java/de/embl/cba/morphometrics/IntensityHistogram.java:90-95 | increment puts the centre of bin i, i * binWidth + binWidth / 2, into bin i |
| IntensityHistogram.CentersIncreasing | src/main/java/de/embl/cba/morphometrics/IntensityHistogram.java:32-35 | bin centres strictly increase with the index |
| IntensityHistogram.Accumulate | src/main/java/de/embl/cba/morphometrics/IntensityHistogram.java:82-90 | counting the values keeps the number of bins |
| IntensityHistogram.AccumulateAt | src/main/java/de/embl/cba/morphometrics/IntensityHistogram.java:82-102 | each bin holds its old frequency plus the number of values whose bin it is |
| IntensityHistogram.AccumulateSum | src/main/java/de/embl/cba/morphometrics/IntensityHistogram.java:82-102 | every counted value adds exactly one to the total frequency |
| IntensityHistogram.HistogramTotal | src/main/java/de/embl/cba/morphometrics/IntensityHistogram.java:17-90 | after construction the frequencies sum to the number of voxels iterated |
| IntensityHistogram.ModeOfIsMaximal | src/main/java/de/embl/cba/morphometrics/IntensityHistogram.java:40-55 | the mode's value is at least 0 and at least every frequency |
| IntensityHistogram.ModeOfFresh | src/main/java/de/embl/cba/morphometrics/IntensityHistogram.java:40-55 | the mode is the fresh holder iff no frequency is positive |
| IntensityHistogram.ModeOfFirstWins | src/main/java/de/embl/cba/morphometrics/IntensityHistogram.java:44-52 | unless fresh, the mode is the centre and frequency of a bin strictly above every earlier bin and at least every later one: the first of the maximal bins |
| IntensityHistogram.NonEmptyHistogramMode | src/main/java/de/embl/cba/morphometrics/IntensityHistogram.java:17-55 | a histogram of at least one voxel has a mode of frequency at least 1 |
| IntensityHistogram.CountOfMember | src/main/java/de/embl/cba/morphometrics/IntensityHistogram.java:84-89 | the bin of every counted voxel has a count of at least one |
| IntensityHistogram.Histogram.constructor | src/main/java/de/embl/cba/morphometrics/IntensityHistogram.java:17-25 | numBins = (int)(maxValue / binWidth), and the frequencies are every voxel counted into zeroed bins |
| IntensityHistogram.Histogram.InitializeHistogram | src/main/java/de/embl/cba/morphometrics/IntensityHistogram.java:27-36 | fresh arrays of n bins: centres i * w + w / 2, frequencies 0 |
| IntensityHistogram.Histogram.ComputeFrequencies | src/main/java/de/embl/cba/morphometrics/IntensityHistogram.java:82-90 | the frequencies become the old ones plus one count per voxel in its bin |
| IntensityHistogram.Histogram.Increment | src/main/java/de/embl/cba/morphometrics/IntensityHistogram.java:92-102 | adds 1 to the bin trunc(v / w), saturated at numBins - 1, and leaves every other bin and the centres unchanged |
| IntensityHistogram.Histogram.GetMode | src/main/java/de/embl/cba/morphometrics/IntensityHistogram.java:40-55 | read-only; the value bounds every frequency; fresh iff no frequency is positive; otherwise the first bin of maximal frequency |
| IntensityHistogram.Histogram.GetRightHandHalfMaximum | src/main/java/de/embl/cba/morphometrics/IntensityHistogram.java:58-79 | read-only; the first bin right of the mode with frequency at most half the mode's, as (centre, frequency); the fresh holder iff there is no such bin |
| RefractiveIndexMismatchCorrections.IntensityCorrectionFactorAlongZ | src/main/java/de/embl/cba/drosophila/RefractiveIndexMismatchCorrections.java:18-49 | with a positive `exp` the factor is positive, and factor * exp(-(z * scale - 10) / decayLength) = 0.3 |
| RefractiveIndexMismatchCorrections.FactorAtReferenceDepth | src/main/java/de/embl/cba/drosophila/RefractiveIndexMismatchCorrections.java:40-48 | at z * scale = 10 the factor is 0.3 when exp(0) = 1 |
| RefractiveIndexMismatchCorrections.CorrectedVoxelProperties | src/main/java/de/embl/cba/drosophila/RefractiveIndexMismatchCorrections.java:60-72 | with a positive factor a corrected voxel is never negative, is 0 exactly when v <= offset, and correction keeps the order of voxels |
| RefractiveIndexMismatchCorrections.CorrectCalibration | src/main/java/de/embl/cba/drosophila/RefractiveIndexMismatchCorrections.java:123-126 | only the Z entry is multiplied by the factor; every other entry is unchanged |
| RefractiveIndexMismatchCorrections.CorrectIntensity | src/main/java/de/embl/cba/drosophila/RefractiveIndexMismatchCorrections.java:51-77 | every voxel of slice z becomes 0 if v - offset < 0 and (v - offset) * f(z) otherwise, all voxels of a slice using that slice's factor |
| RefractiveIndexMismatchCorrections.Row | src/main/java/de/embl/cba/drosophila/RefractiveIndexMismatchCorrections.java:56 | the hyper-slice at one Z holds the voxels of that slice, in cursor order |
| RefractiveIndexMismatchCorrections.GetIntensityOffset | src/main/java/de/embl/cba/drosophila/RefractiveIndexMismatchCorrections.java:117-121 | the offset is the mode position of a histogram with max 65535 and bin width 5 |
| RefractiveIndexMismatchCorrections.CreateIntensityCorrectedChannel | src/main/java/de/embl/cba/drosophila/RefractiveIndexMismatchCorrections.java:109-115 | a fresh corrected copy, offset from the channel's own histogram; the input channel is unchanged |
| RefractiveIndexMismatchCorrections.CopyImage | src/main/java/de/embl/cba/morphometrics/Utils.java:570-588 | a fresh image holding the same voxels |
| Transforms.Set | src/main/java/de/embl/cba/morphometrics/Transforms.java:188 | `set(v, row, col)` changes that one matrix entry and no other |
| Transforms.ScalingMatrix | src/main/java/de/embl/cba/morphometrics/Transforms.java:181-206 | a diagonal scaling transform scales axis d by s[d], without translation or mixing of axes |
| Transforms.ScalingIsUnique | src/main/java/de/embl/cba/morphometrics/Transforms.java:181-206 | a transform that scales by s is the scaling matrix of s |
| Transforms.IdentityIsScaling | src/main/java/de/embl/cba/morphometrics/Transforms.java:184 | a fresh transform is the scaling by (1, 1, 1) |
| Transforms.PreConcatenateScalings | src/main/java/de/embl/cba/morphometrics/drosophila/shavenbaby/ShavenBabyRegistration.java:394-402 | two scalings in a row are the scaling by the axis-wise products |
| Transforms.PreConcatenateIdentity | src/main/java/de/embl/cba/morphometrics/drosophila/shavenbaby/ShavenBabyRegistration.java:394-402 | the identity is neutral on both sides of a concatenation |
| Transforms.GetScalingFactors | src/main/java/de/embl/cba/morphometrics/Transforms.java:168-179 | same length as the calibration, factor[d] = calibration[d] / targetResolution |
| Transforms.GetScalingTransform | src/main/java/de/embl/cba/morphometrics/Transforms.java:181-192 | the identity with diagonal d set to calibration[d] / target, no translation |
| Transforms.CreateScalingTransform | src/main/java/de/embl/cba/morphometrics/Transforms.java:196-206 | the identity with diagonal d set to calibration[d] |
| Transforms.GetTransformToIsotropicRegistrationResolution | src/main/java/de/embl/cba/morphometrics/Transforms.java:153-165 | the scaling with diagonal calibration[d] / binning |
| Transforms.CreateScaledInterval | src/main/java/de/embl/cba/morphometrics/Transforms.java:117-132 | the result is three-dimensional, and each X, Y and Z bound becomes trunc(bound * scale[d]) |
| Transforms.ScaledBoundsOrdered | src/main/java/de/embl/cba/morphometrics/Transforms.java:117-132 | a non-negative scale keeps min <= max, and a bound of 0 stays 0 |
| Transforms.ToInterval | src/main/java/de/embl/cba/morphometrics/Transforms.java:134-151 | every real min and max is truncated toward zero, independently per axis |
| Transforms.CreateTransformedInterval | src/main/java/de/embl/cba/morphometrics/Transforms.java:95-115 | affine: truncated estimated bounds; scale: the scaled interval; any other transform: none |
| Transforms.GetWithAdjustedOrigin | src/main/java/de/embl/cba/morphometrics/Transforms.java:77-84 | the target is moved by the source's min in every dimension |
| Transforms.AdjustedOriginMatchesSource | src/main/java/de/embl/cba/morphometrics/Transforms.java:77-84 | a target at the origin then starts at the source's min and keeps its extent |
| Algorithms.GetMaximumValue | src/main/java/de/embl/cba/morphometrics/Algorithms.java:121-138 | at least every value and at least Double.MIN_VALUE; either a value of the image or Double.MIN_VALUE, the latter whenever no value exceeds it |
| Algorithms.IsCenterLargest | src/main/java/de/embl/cba/morphometrics/Algorithms.java:140-154 | true iff no neighbour compares greater than the centre |
| Algorithms.GetLargestObject | src/main/java/de/embl/cba/morphometrics/Algorithms.java:194-211 | none iff there are no regions; otherwise a region of maximal size, the first one on ties |
| Algorithms.CreateBitTypeMaskFromLabelRegion | src/main/java/de/embl/cba/morphometrics/Algorithms.java:228-241 | a fresh mask of the given dimensions, true exactly on the region's positions |
| Algorithms.CreateUnsignedByteTypeMaskFromLabelRegion | src/main/java/de/embl/cba/morphometrics/Algorithms.java:213-226 | a fresh 8-bit mask, 255 exactly on the region's positions and 0 elsewhere |
| Algorithms.CentralPosition | src/main/java/de/embl/cba/morphometrics/Algorithms.java:180 | dimension(d) / 2 on each axis, inside the grid, with distances to both ends within one |
| Algorithms.GetCentralLabelIndex | src/main/java/de/embl/cba/morphometrics/Algorithms.java:177-183 | the label at the central position, none when that voxel has no label |
| Algorithms.OptimalBlurSigmas | src/main/java/de/embl/cba/morphometrics/Algorithms.java:70-78 | one sigma per dimension, sigma[d] = 0.5 / scalingFactor[d] |
| Algorithms.AbsoluteDerivatives | src/main/java/de/embl/cba/morphometrics/Algorithms.java:250-260 | never more derivatives than values |
| Algorithms.NarrowWindowDerivativesVanish | src/main/java/de/embl/cba/morphometrics/Algorithms.java:254-256 | with di < 2 every value is compared with itself and every derivative is 0 |
| Algorithms.ComputeAbsoluteDerivatives | src/main/java/de/embl/cba/morphometrics/Algorithms.java:250-260 | the loop from h + 1 to n - h - 2, h = di / 2, collects \|v[k+2h+1] - v[k+1]\| for each k: max(0, n - 2h - 2) values, all non-negative |
| Utils.SumOf | src/main/java/de/embl/cba/morphometrics/Utils.java:107-116 | the list sum, 0 for the empty list |
| Utils.SumBounds | src/main/java/de/embl/cba/morphometrics/Utils.java:107-116 | a sum lies between length * smallest and length * largest bound |
| Utils.AverageBetween | src/main/java/de/embl/cba/morphometrics/Utils.java:117-122 | the mean of a non-empty list lies between its bounds |
| Utils.AverageOf | src/main/java/de/embl/cba/morphometrics/Utils.java:117-122 | none exactly for the empty list, otherwise the value that, times the length, gives the sum |
| Utils.Mean | src/main/java/de/embl/cba/morphometrics/Utils.java:117-122 | sum / size, none exactly for the empty list |
| Utils.Median | src/main/java/de/embl/cba/morphometrics/Utils.java:124-133 | none exactly for the empty list (where the source reads index -1), otherwise a value between two elements of the list |
| Utils.MedianOfSorted | src/main/java/de/embl/cba/morphometrics/Utils.java:124-133 | for a sorted non-empty list the median exists, lies between first and last, and splits the list at the middle index |
| Utils.MaxScanInvariant | src/main/java/de/embl/cba/morphometrics/Utils.java:402-423 | after k steps the scan holds the first candidate beating every earlier in-range value, or (Double.MIN_VALUE, coordinates[0]) if there is none |
| Utils.MaxScanWithCandidate | src/main/java/de/embl/cba/morphometrics/Utils.java:404-415 | once an in-range value above Double.MIN_VALUE has been seen, the scan holds the first value beating every earlier in-range one, with its coordinate |
| Utils.MaxScanAtLeastStart | src/main/java/de/embl/cba/morphometrics/Utils.java:404-415 | the running maximum never drops below Double.MIN_VALUE |
| Utils.MaxScanIgnoresSmallValues | src/main/java/de/embl/cba/morphometrics/Utils.java:415-419 | values at or below Double.MIN_VALUE can be exchanged without changing the scan |
| Utils.ComputeMaxLoc | src/main/java/de/embl/cba/morphometrics/Utils.java:402-423 | the coordinate of the first in-range value above Double.MIN_VALUE and all earlier in-range values, otherwise coordinates[0]; a null range filters nothing |
| Utils.ForegroundCountBounds | src/main/java/de/embl/cba/morphometrics/Utils.java:280-301 | the count is at most the slice size, and 0 iff no voxel is set |
| Utils.Centroid | src/main/java/de/embl/cba/morphometrics/Utils.java:242-278 | the corrected centroid: none iff no voxel is set, else one component per dimension |
| Utils.CoordinateSumOfCommonCoordinate | src/main/java/de/embl/cba/morphometrics/Utils.java:259-265 | when every set voxel has coordinate v on axis d, that coordinate sum is v times the count |
| Utils.CentroidOfCommonCoordinate | src/main/java/de/embl/cba/morphometrics/Utils.java:242-278 | the corrected centroid of set voxels sharing coordinate v on axis d has component v there |
| Utils.CentroidAsWrittenHalvesPosition | src/main/java/de/embl/cba/morphometrics/Utils.java:259-275 | a lone voxel at (2, 4) gives (1, 2) as written and (2, 4) corrected |
| Utils.CentroidAsWrittenIsScaledCentroid | src/main/java/de/embl/cba/morphometrics/Utils.java:259-275 | for a slice with a set voxel, each component of the source's centroid is the centroid's component divided by the number of dimensions |
| Utils.AddPosition | src/main/java/de/embl/cba/morphometrics/Utils.java:258-262 | each coordinate sum grows by the voxel's coordinate on that axis, and nothing else changes |
| Utils.DivideAll | src/main/java/de/embl/cba/morphometrics/Utils.java:266-272 | each coordinate sum is divided by the positive point count |
| Utils.ComputeCentroidPerpendicularToAxis | src/main/java/de/embl/cba/morphometrics/Utils.java:242-278 | as written: none iff numPoints == 0, else each coordinate sum / (dims * foreground count) |
| Utils.ComputeNumberOfVoxelsPerpendicularToAxis | src/main/java/de/embl/cba/morphometrics/Utils.java:280-301 | the number of set voxels of the slice |
| Utils.SquaredNorm | src/main/java/de/embl/cba/morphometrics/Utils.java:203-215 | the summed squares are non-negative |
| Utils.VectorLength | src/main/java/de/embl/cba/morphometrics/Utils.java:203-215 | sqrt of the sum of the squared components |
| Utils.KeptSlicesProperties | src/main/java/de/embl/cba/morphometrics/Utils.java:167-176 | the kept slice indices ascend, each has \|x * calibration\| < maxDistanceToCenter and a set voxel, and none such is missing |
| Utils.CalibratedCentroid | src/main/java/de/embl/cba/morphometrics/Utils.java:193 | the 3D centroid point (x, c0, c1) times the calibration |
| Utils.ComputeCentroidsParametersAlongXAxis | src/main/java/de/embl/cba/morphometrics/Utils.java:155-201 | one entry per kept slice in ascending X in each of the five lists, all of equal length, each from the slice's centroid as the source computes it (`CentroidAsWritten`, halved on a 2D slice) and voxel count (the loop builds exactly `ProfileUpTo` of all slices) |
| Utils.ProfileUpToIsProfile | src/main/java/de/embl/cba/morphometrics/Utils.java:155-201 | the profile of the first slices is the five-list profile of exactly the kept slices among them, each entry from the source's centroid of that slice |
| Utils.ComputeAverage | src/main/java/de/embl/cba/morphometrics/Utils.java:456-471 | the mean of all voxel values of a non-empty image |
| Utils.ComputeAverageWithinAxisDistance | src/main/java/de/embl/cba/morphometrics/Utils.java:473-496 | the mean over the voxels within maxAxisDist of the axis, none if there are none |
| Utils.ComputeMaximumWithinAxisDistance | src/main/java/de/embl/cba/morphometrics/Utils.java:498-520 | the largest of -Double.MAX_VALUE and the voxels within maxAxisDist of the axis |
| Utils.ComputeAverageInMask | src/main/java/de/embl/cba/morphometrics/Utils.java:523-547 | the mean over the masked voxels, none if the mask marks none |
| Utils.AxisCoordinates | src/main/java/de/embl/cba/morphometrics/Utils.java:97-100 | one coordinate per slice from min to max |
| Utils.AxisCoordinatesSpacing | src/main/java/de/embl/cba/morphometrics/Utils.java:97-100 | coordinates are (min + i) * calibration, one calibration apart and increasing for a positive calibration |
| Utils.SliceAverages | src/main/java/de/embl/cba/morphometrics/Utils.java:97-101 | one average per slice |
| Utils.ComputeAverageIntensitiesAlongAxis | src/main/java/de/embl/cba/morphometrics/Utils.java:91-105 | max - min + 1 entries: coordinate c * calibration and the slice's average |
| Utils.ComputeAverageIntensitiesAlongAxisWithinDistance | src/main/java/de/embl/cba/morphometrics/Utils.java:59-73 | one entry per slice, the average within maxAxisDist of the axis |
| Utils.ComputeMaximumIntensitiesAlongAxis | src/main/java/de/embl/cba/morphometrics/Utils.java:75-89 | one entry per slice, the maximum within maxAxisDist of the axis |
| Utils.ComputeAverageIntensitiesAlongAxisInMask | src/main/java/de/embl/cba/morphometrics/Utils.java:135-151 | one entry per slice, the mean over the slice's masked voxels |
| Utils.IsCenterLargestOrEqual | src/main/java/de/embl/cba/morphometrics/Utils.java:716-727 | true iff every neighbour is at most the centre |
| Utils.IsBoundaryPixel | src/main/java/de/embl/cba/morphometrics/Utils.java:608-623 | true iff the voxel equals the interval's min or max in some dimension |
| Utils.IsLateralBoundaryPixel | src/main/java/de/embl/cba/morphometrics/Utils.java:625-640 | true iff the voxel equals the interval's min or max in some dimension other than the last |
| Utils.IsBoundaryIn | src/main/java/de/embl/cba/morphometrics/Utils.java:608-640 | true iff one of the first dims coordinates equals its min or max |
| Utils.LateralBoundaryProperties | src/main/java/de/embl/cba/morphometrics/Utils.java:608-640 | a lateral boundary voxel is a boundary voxel; a voxel on the border only in the last dimension is not lateral |
| Utils.IsSeed | src/main/java/de/embl/cba/morphometrics/Utils.java:661-680 | a voxel above the global threshold is always a seed, and a seed is above the global threshold, above 0 or above the local threshold |
| Utils.ZeroDistanceIsNoSeed | src/main/java/de/embl/cba/morphometrics/Utils.java:643-685 | with non-negative thresholds a voxel at distance 0 is never a seed |
| Utils.CreateSeeds | src/main/java/de/embl/cba/morphometrics/Utils.java:643-685 | a voxel is a seed iff d > global, or it is lateral boundary with d > 0, or no neighbour is larger and d > local |
| Utils.ApplyMask | src/main/java/de/embl/cba/morphometrics/Utils.java:333-337 | in place: masked voxels keep their value, all others become 0 |
| Utils.AboveThreshold | src/main/java/de/embl/cba/morphometrics/Utils.java:347-366 | true exactly where the value is strictly above the threshold |
| Utils.CreateBinaryImage | src/main/java/de/embl/cba/morphometrics/Utils.java:347-366 | a fresh binary image, true iff value > threshold |
| Utils.GetCenterLocation | src/main/java/de/embl/cba/morphometrics/Utils.java:591-605 | center[d] = (max - min) / 2 + min, which lies in [min, max] |
| Utils.InvertedView | src/main/java/de/embl/cba/morphometrics/Utils.java:729-739 | (int)(maximum - v) for every voxel: never negative, order reversed, 0 at a voxel holding the maximum |
| Utils.CorrectCalibrationForSubSampling | src/main/java/de/embl/cba/morphometrics/Utils.java:448-454 | X, Y and Z spacing multiplied by the sub-sampling, other entries unchanged |
| Utils.Get3dDoubleArray | src/main/java/de/embl/cba/morphometrics/Utils.java:755-760 | three entries, all equal to the value |
| Utils.CreateOrientationTransformation | src/main/java/de/embl/cba/morphometrics/Utils.java:368-400 | rotate by 180 degrees about Z iff the arg-max of the windowed derivatives of the average profile is positive |
| ShavenBabyRegistration.SortedOf | src/main/java/de/embl/cba/morphometrics/drosophila/shavenbaby/ShavenBabyRegistration.java:380 | the sort keeps the length and the multiset of angles |
| ShavenBabyRegistration.SortedOfSorted | src/main/java/de/embl/cba/morphometrics/drosophila/shavenbaby/ShavenBabyRegistration.java:380 | the sorted list is sorted and a permutation of the input |
| ShavenBabyRegistration.SortedPermutationsEqual | src/main/java/de/embl/cba/morphometrics/drosophila/shavenbaby/ShavenBabyRegistration.java:380 | two sorted lists holding the same multiset are equal |
| ShavenBabyRegistration.OffCenterAnglesMembers | src/main/java/de/embl/cba/morphometrics/drosophila/shavenbaby/ShavenBabyRegistration.java:368-378 | an angle is kept iff some entry with distance > minDistanceToAxis and minDistanceToCenter < \|coordinate\| < maxDistanceToCenter carries it |
| ShavenBabyRegistration.MedianOfSortedWithin | src/main/java/de/embl/cba/morphometrics/drosophila/shavenbaby/ShavenBabyRegistration.java:380-384 | the median of the sorted angles exists iff some angle is kept, and lies between two kept angles |
| ShavenBabyRegistration.ComputeRollAngle | src/main/java/de/embl/cba/morphometrics/drosophila/shavenbaby/ShavenBabyRegistration.java:364-385 | the median of the sorted kept angles, between the smallest and the largest kept angle; none when nothing is kept |
| ShavenBabyRegistration.RollAngleDependsOnlyOnMultiset | src/main/java/de/embl/cba/morphometrics/drosophila/shavenbaby/ShavenBabyRegistration.java:380-384 | the roll angle depends only on the multiset of kept angles |
| ShavenBabyRegistration.DefinedAverages | src/main/java/de/embl/cba/morphometrics/drosophila/shavenbaby/ShavenBabyRegistration.java:325 | slices without a masked voxel read as 0, all others keep their average |
| ShavenBabyRegistration.ComputeOrientationTransform | src/main/java/de/embl/cba/morphometrics/drosophila/shavenbaby/ShavenBabyRegistration.java:323-336 | a 180 degree rotation about Z iff the unranged arg-max of the masked average profile is negative |
| ShavenBabyRegistration.UndefinedAveragesAreIgnored | src/main/java/de/embl/cba/morphometrics/Utils.java:415 | any stand-in at or below Double.MIN_VALUE for an undefined average gives the same location |
| ShavenBabyRegistration.MaskThreshold | src/main/java/de/embl/cba/morphometrics/drosophila/shavenbaby/ShavenBabyRegistration.java:96 | (halfMax - mode) * factor: positive for a half maximum right of the mode, and it recovers the half width |
| ShavenBabyRegistration.ComputeOffsetAndThreshold | src/main/java/de/embl/cba/morphometrics/drosophila/shavenbaby/ShavenBabyRegistration.java:90-96 | offset = mode centre of the 65535 / 5 histogram; threshold from the right-hand half-maximum bin, or from position 0 when there is none |
| ShavenBabyRegistration.CreateMask | src/main/java/de/embl/cba/morphometrics/drosophila/shavenbaby/ShavenBabyRegistration.java:271-281 | hole filling of the voxels strictly above the threshold |
| ShavenBabyRegistration.CreateClosedImage | src/main/java/de/embl/cba/morphometrics/drosophila/shavenbaby/ShavenBabyRegistration.java:257-269 | an unchanged copy when closingRadius <= 0, else closed with radius trunc(closingRadius / registrationResolution) |
| ShavenBabyRegistration.DefaultSettingsSkipClosing | src/main/java/de/embl/cba/morphometrics/drosophila/shavenbaby/ShavenBabyRegistrationSettings.java:32 | with the default settings the mask is not closed |
| ShavenBabyRegistration.GetThreshold | src/main/java/de/embl/cba/morphometrics/drosophila/shavenbaby/ShavenBabyRegistration.java:283-302 | Huang's threshold for that modality, the settings' factor otherwise |
| ShavenBabyRegistration.DefaultThreshold | src/main/java/de/embl/cba/morphometrics/drosophila/shavenbaby/ShavenBabyRegistrationSettings.java:30-31 | the default manual modality yields 5 whatever Huang's threshold |
| ShavenBabyRegistration.SquaredSeedThreshold | src/main/java/de/embl/cba/morphometrics/drosophila/shavenbaby/ShavenBabyRegistration.java:308-309 | (setting / resolution)^2, non-negative |
| ShavenBabyRegistration.SquaredThresholdMatchesDistance | src/main/java/de/embl/cba/morphometrics/drosophila/shavenbaby/ShavenBabyRegistration.java:308-309 | a squared distance e^2 passes the squared threshold iff e pixels exceed the threshold in micrometres |
| ShavenBabyRegistration.DefaultSeedThresholds | src/main/java/de/embl/cba/morphometrics/drosophila/shavenbaby/ShavenBabyRegistrationSettings.java:27-28 | the defaults give 6400/81 and 9 |
| ShavenBabyRegistration.CreateWatershedSeeds | src/main/java/de/embl/cba/morphometrics/drosophila/shavenbaby/ShavenBabyRegistration.java:304-321 | the seed rule with both thresholds squared in registration pixels |
| ShavenBabyRegistration.CreateCentralObjectMask | src/main/java/de/embl/cba/morphometrics/drosophila/shavenbaby/ShavenBabyRegistration.java:404-450 | the mask true exactly on the region of the label at dimension / 2; none when that voxel has no label |
| ShavenBabyRegistration.CreateFinalTransform | src/main/java/de/embl/cba/morphometrics/drosophila/shavenbaby/ShavenBabyRegistration.java:394-402 | scale(inputCal / regRes), then the registration, then scale(regCal / outRes) |
| ShavenBabyRegistration.FinalTransformWithoutRegistration | src/main/java/de/embl/cba/morphometrics/drosophila/shavenbaby/ShavenBabyRegistration.java:394-402 | with the identity registration and isotropic calibration, diagonal[d] = inputCal[d] / outRes |
| ShavenBabyRegistration.ComputeCalibratedFinalTransform | src/main/java/de/embl/cba/morphometrics/drosophila/shavenbaby/ShavenBabyRegistration.java:64-68 | Z spacing corrected in place first; the final transform uses the corrected spacing |
| ShavenBabyRegistrationSettings.Settings.constructor | src/main/java/de/embl/cba/morphometrics/drosophila/shavenbaby/ShavenBabyRegistrationSettings.java:5-36 | every default, roll window 105 < 200, local seed threshold 3 * 6, manual modality distinct from Huang, closing radius 0 |
| SpindleMorphometrySettings.Settings.constructor | src/main/java/de/embl/cba/morphometrics/spindle/SpindleMorphometrySettings.java:9-47 | every default: working voxel size 6, closing radius 1, local seed threshold 3 * 6, roll window 105 < 200, manual modality |
| SpindleMorphometry.GetLeftAndRightMaxLocs | src/main/java/de/embl/cba/morphometrics/spindle/SpindleMorphometry.java:157-170 | entry 0 is the arg-max over [0, MAX], entry 1 over [-MAX, 0]; each is on its side or the first coordinate |
| SpindleMorphometry.CentreInBothRanges | src/main/java/de/embl/cba/morphometrics/spindle/SpindleMorphometry.java:162-167 | coordinate 0 is eligible for both ranges |
| SpindleMorphometry.PeakAtCentreIsBothPoles | src/main/java/de/embl/cba/morphometrics/spindle/SpindleMorphometry.java:157-170 | a unique peak at coordinate 0 is found by both searches |
| SpindleMorphometry.ComputePoleLocations | src/main/java/de/embl/cba/morphometrics/spindle/SpindleMorphometry.java:144-147 | the left and right arg-max of the derivatives over a window (int)(1 / workingVoxelSize) |
| SpindleMorphometry.CoarseVoxelsPutBothPolesAtFirstCoordinate | src/main/java/de/embl/cba/morphometrics/spindle/SpindleMorphometry.java:144-147 | a working voxel size above 1 makes both poles the first coordinate |
| SpindleMorphometry.DapiThreshold | src/main/java/de/embl/cba/morphometrics/spindle/SpindleMorphometry.java:74-76 | half the maximum of the 3 micrometre image: no voxel above twice it, and twice it is attained unless at Double.MIN_VALUE |
| SpindleMorphometry.CreateDapiMask | src/main/java/de/embl/cba/morphometrics/spindle/SpindleMorphometry.java:74-94 | hole-filled voxels above half the 3 micrometre maximum; the run does not close it |
| SpindleMorphometry.CreateClosedImage | src/main/java/de/embl/cba/morphometrics/spindle/SpindleMorphometry.java:172-184 | an unchanged copy when closingRadius <= 0, else closed with radius trunc(closingRadius / workingVoxelSize) |
| SpindleMorphometry.DefaultClosingRadius | src/main/java/de/embl/cba/morphometrics/spindle/SpindleMorphometrySettings.java:22-36 | the defaults close with radius (int)(1 / 6) = 0 |
| SpindleMorphometry.GetThreshold | src/main/java/de/embl/cba/morphometrics/spindle/SpindleMorphometry.java:198-217 | Huang's threshold for that modality, the settings' factor otherwise |
| SpindleMorphometry.CreateWatershedSeeds | src/main/java/de/embl/cba/morphometrics/spindle/SpindleMorphometry.java:219-238 | the seed rule with thresholds (setting / workingVoxelSize)^2 |
| SpindleMorphometry.ComputeRollTransform | src/main/java/de/embl/cba/morphometrics/spindle/SpindleMorphometry.java:268-302 | minus the roll angle of the settings' window; none when no entry is kept |
| SpindleMorphometry.CreateFinalTransform | src/main/java/de/embl/cba/morphometrics/spindle/SpindleMorphometry.java:304-312 | scale(inputCal / workingVoxelSize), the registration, then scale(regCal / outRes) |
| ShavenBabyRegistrationCommand.Fields | src/main/java/de/embl/cba/drosophila/shavenbaby/ShavenBabyRegistrationCommand.java:173 | at least one field, none containing a comma |
| ShavenBabyRegistrationCommand.JoinFields | src/main/java/de/embl/cba/drosophila/shavenbaby/ShavenBabyRegistrationCommand.java:173 | joining the fields with commas gives back the string |
| ShavenBabyRegistrationCommand.FieldsOfJoin | src/main/java/de/embl/cba/drosophila/shavenbaby/ShavenBabyRegistrationCommand.java:173 | splitting comma-joined comma-free fields gives back the fields |
| ShavenBabyRegistrationCommand.StripTrailingEmpty | src/main/java/de/embl/cba/drosophila/shavenbaby/ShavenBabyRegistrationCommand.java:173 | a prefix of the fields without trailing empty entries, ending in a non-empty one |
| ShavenBabyRegistrationCommand.JavaSplit | src/main/java/de/embl/cba/drosophila/shavenbaby/ShavenBabyRegistrationCommand.java:173 | [s] without a comma, otherwise comma-free entries |
| ShavenBabyRegistrationCommand.LeadingBlanks | src/main/java/de/embl/cba/drosophila/shavenbaby/ShavenBabyRegistrationCommand.java:177 | the length of the prefix of chars <= ' ' |
| ShavenBabyRegistrationCommand.TrailingBlanks | src/main/java/de/embl/cba/drosophila/shavenbaby/ShavenBabyRegistrationCommand.java:177 | the length of the suffix of chars <= ' ' |
| ShavenBabyRegistrationCommand.Trim | src/main/java/de/embl/cba/drosophila/shavenbaby/ShavenBabyRegistrationCommand.java:177 | a slice of s starting after the leading blanks, with non-blank ends; empty iff the leading blanks are all of s |
| ShavenBabyRegistrationCommand.TrimEmptyIffBlank | src/main/java/de/embl/cba/drosophila/shavenbaby/ShavenBabyRegistrationCommand.java:177 | the trim is empty iff every character is at most the space |
| ShavenBabyRegistrationCommand.TrimIdempotent | src/main/java/de/embl/cba/drosophila/shavenbaby/ShavenBabyRegistrationCommand.java:177 | trimming twice is trimming once |
| ShavenBabyRegistrationCommand.TrimOfTrimmed | src/main/java/de/embl/cba/drosophila/shavenbaby/ShavenBabyRegistrationCommand.java:177 | a string with non-blank ends is its own trim |
| ShavenBabyRegistrationCommand.AcceptFile | src/main/java/de/embl/cba/drosophila/shavenbaby/ShavenBabyRegistrationCommand.java:171-184 | true iff some trimmed comma-separated entry is a suffix of the file name |
| ShavenBabyRegistrationCommand.BlankEntryAcceptsEveryFile | src/main/java/de/embl/cba/drosophila/shavenbaby/ShavenBabyRegistrationCommand.java:177 | an entry that trims to the empty string accepts every file |
| ShavenBabyRegistrationCommand.EmptyFilterAcceptsEveryFile | src/main/java/de/embl/cba/drosophila/shavenbaby/ShavenBabyRegistrationCommand.java:173-177 | the empty filter accepts every file |
| ShavenBabyRegistrationCommand.CommasOnlyAcceptNothing | src/main/java/de/embl/cba/drosophila/shavenbaby/ShavenBabyRegistrationCommand.java:173-183 | a filter of commas only has no entries and accepts nothing |
| ShavenBabyRegistrationCommand.DefaultFilterSplit | src/main/java/de/embl/cba/drosophila/shavenbaby/ShavenBabyRegistrationCommand.java:173 | the default filter splits into ".czi" and ".lsm" |
| ShavenBabyRegistrationCommand.DefaultFilterAcceptsCziAndLsm | src/main/java/de/embl/cba/drosophila/shavenbaby/ShavenBabyRegistrationCommand.java:171-184 | the default filter accepts a file iff it ends in .czi or .lsm |
| ShavenBabyRegistrationCommand.HalfExtent | src/main/java/de/embl/cba/drosophila/shavenbaby/ShavenBabyRegistrationCommand.java:192-196 | (long)(size / 2 / resolution), non-negative for non-negative size and positive resolution |
| ShavenBabyRegistrationCommand.OutputImageInterval | src/main/java/de/embl/cba/drosophila/shavenbaby/ShavenBabyRegistrationCommand.java:186-201 | min[d] = -half extent and max[d] = -min[d] on X, Y, Z, other dimensions kept, min <= 0 <= max; none for fewer than 3 dimensions |
| ShavenBabyRegistrationCommand.DefaultOutputImageInterval | src/main/java/de/embl/cba/morphometrics/drosophila/shavenbaby/ShavenBabyRegistrationSettings.java:34-36 | the defaults crop to [-125, 125] x [-62, 62] x [-62, 62] |
| ShavenBabyRegistrationCommand.Command.constructor | src/main/java/de/embl/cba/drosophila/shavenbaby/ShavenBabyRegistrationCommand.java:62-99 | the dialog starts from the settings' defaults, reading .czi and .lsm files from a directory |
| ShavenBabyRegistrationCommand.Command.CreateOutputImageInterval | src/main/java/de/embl/cba/drosophila/shavenbaby/ShavenBabyRegistrationCommand.java:186-201 | the symmetric output interval of the settings' sizes and output resolution |
| ShavenBabyRegistrationCommand.Command.SetSettingsFromUI | src/main/java/de/embl/cba/drosophila/shavenbaby/ShavenBabyRegistrationCommand.java:300-311 | exactly nine dialog fields copied; roll window, seed thresholds, output sizes and channel index untouched |
| SpindleMorphometryCommand.Command.constructor | src/main/java/de/embl/cba/morphometrics/spindle/SpindleMorphometryCommand.java:63-91 | the dialog starts from the spindle settings' defaults |
| SpindleMorphometryCommand.Command.CreateOutputImageInterval | src/main/java/de/embl/cba/morphometrics/spindle/SpindleMorphometryCommand.java:176-191 | symmetric on X, Y, Z from the settings' sizes; other dimensions unchanged |
| SpindleMorphometryCommand.Command.SetSettingsFromUI | src/main/java/de/embl/cba/morphometrics/spindle/SpindleMorphometryCommand.java:279-290 | workingVoxelSize from registrationResolution; closingRadius 0, backgroundIntensity 0, modality "" forced; rest untouched |
| SpindleMorphometryCommand.DialogSkipsClosingAndHuang | src/main/java/de/embl/cba/morphometrics/spindle/SpindleMorphometryCommand.java:283-288 | after the dialog the mask is never closed and the threshold is the manual factor |

## Left out

- Library image primitives are parameters or inputs, not modelled. They are Gaussian blur, resampling, the distance transform, the watershed, hole filling, morphological closing, Huang's threshold, connected-component labelling and `LabelRegions`. Their own behaviour is the imaging library's.
- `AffineTransform3D.rotate`, `estimateBounds`, `apply`, and views. The views are `hyperSlice`, `translate`, `permute`, `stack` and the extend modes. Only the scale diagonal and the kind of transform are modelled, because the rest is library code.
- `sqrt`, `exp`, `acos`, `signum` and the degree-to-radian conversion are uninterpreted parameters. Only the positivity of `exp` is used. Floating-point rounding is not modelled: doubles are reals.
- A not-a-number average, of a slice with no masked voxel, is `None`. Where it enters the arg-max scan it reads as 0, and `ShavenBabyRegistration.UndefinedAveragesAreIgnored` shows that the choice does not matter.
- Utils.AverageOf, Utils.Mean, Utils.ComputeAverageWithinAxisDistance and Utils.ComputeAverageInMask: where the source divides 0 by 0 and gets not-a-number (an empty list, no voxel within the axis distance, an empty mask), these return `None` instead. Not-a-number is not a real, so it has no other representation.
- The pixel type `T` is modelled as `real`. Integer pixel types round and wrap when the source writes through `setReal` and `mul`, and the model does not capture that. This affects RefractiveIndexMismatchCorrections.CorrectIntensity, whose 16-bit unsigned pixels are rounded and wrap at 65536. It affects Utils.CreateBinaryImage, whose threshold is rounded into `T` before the comparison. It affects Utils.ApplyMask, whose copied values pass through `setReal`.
- Several members require a non-zero divisor where the source would divide by zero and carry on with an infinity or not-a-number: `(int)(r / 0.0)` is `Integer.MAX_VALUE`, for example. Those results are not reals, so these members exclude the case. The members are Transforms.GetScalingFactors, Transforms.GetScalingTransform and Transforms.GetTransformToIsotropicRegistrationResolution (the target resolution or binning). They are RefractiveIndexMismatchCorrections.IntensityCorrectionFactorAlongZ, RefractiveIndexMismatchCorrections.CorrectIntensity and RefractiveIndexMismatchCorrections.CreateIntensityCorrectedChannel (the decay length). They are ShavenBabyRegistration.CreateClosedImage and SpindleMorphometry.CreateClosedImage (the resolution, when the closing radius is positive). They are ShavenBabyRegistration.SquaredSeedThreshold, ShavenBabyRegistration.CreateWatershedSeeds and SpindleMorphometry.CreateWatershedSeeds (the resolution). They are ShavenBabyRegistration.CreateFinalTransform, ShavenBabyRegistration.ComputeCalibratedFinalTransform and SpindleMorphometry.CreateFinalTransform (both resolutions). They are Algorithms.OptimalBlurSigmas (every scaling factor), IntensityHistogram.Histogram.constructor (a positive bin width) and Utils.CreateOrientationTransformation (the calibration). Utils.CreateOrientationTransformation also requires a derivative window of at least -1, because a window of -2 or less makes the source read index -1.
- Numerics.Trunc: does not model the saturation of `(long)` and `(int)` casts at the 64- and 32-bit limits, nor long wrap-around, because the values involved are image coordinates far inside those limits.
- IntensityHistogram.Histogram.Increment: requires value > -binWidth and at least one bin, because a lower value or zero bins make the source index out of bounds.
- SpindleMorphometry.ComputePoleLocations: requires workingVoxelSize > 0, since 1 / 0 has no truncation.
- ShavenBabyRegistrationCommand.OutputImageInterval: requires a non-zero output resolution, where the source would divide by zero.
- I/O and user interface are not modelled: opening images, saving, directory listing, `createProjections`, `saveImages`, `getImages`, `getShavenBabyImage`, `showWithBdv`, plots, logging and the `showIntermediateResults` branches.
- Both `registerImages` methods are left out, because they refer to symbols that do not exist: `numChannels` and a trailing argument in the embryo command, and `computeRegistration` in the spindle command.
- `SpindleMorphometry.run` reads a `maxShortAxisDist` setting that `SpindleMorphometrySettings` does not declare. The profiles it builds take that distance as a parameter.
- The two-argument `computeMaxLoc` called from `createOrientationTransformation` and `computeOrientationTransform` is not part of this model. It is modelled as the three-argument one with a null range.
- `findMaximumLocation` is left out: its fallback position comes from the cursor before its first step, which the library defines. `findLocalMaximumValues`, `computeMaximumLocation`, `asRealPointList`, `origin`, `createTransformedCentroidPointList`, `createAverageProjection`, `createBlurredRai`, `createGaussFilteredArrayImg`, `createLabelImg`, `asIntImg`, `transformAllChannels`, `createTransformedView`, `createTransformedRaView`, `getCalibration`, `dotProduct` and `subtract` are library wrappers or I/O.
- `createIntensityCorrectedImages` is left out: it splits the channels and stacks their corrected copies, and both steps are library views. Each channel goes through `RefractiveIndexMismatchCorrections.CreateIntensityCorrectedChannel`.
- The spindle `createMask`, `computeRollAngle` and `computeOrientationTransform` are the same code as the embryo registration's. The model uses `ShavenBabyRegistration.CreateMask`, `ShavenBabyRegistration.ComputeRollAngle` and `ShavenBabyRegistration.ComputeOrientationTransform` for them.
- The embryo `computeRollTransform` is the same rule as `SpindleMorphometry.ComputeRollTransform`, over the embryo settings' roll window; its rotation is library code.
- `SpindleMorphometryCommand.acceptFile` is the same code as the embryo command's and is `ShavenBabyRegistrationCommand.AcceptFile`.
- ShavenBabyRegistration.ComputeRollAngle: returns the angle in degrees; the conversion to radians and the rotation it feeds are library code.
- `Collections.sort` is `ShavenBabyRegistration.SortedOf`, an insertion sort with the same result.
- Labellings are an `array3` of optional labels, with the regions as a map from label to positions. `getLargestObject` takes the regions in the labelling's iteration order, given as a sequence.
- The plain `computeAverage` divides by the slice size; `Utils.ComputeAverage` requires a non-empty image, which every hyper-slice of a non-empty image is.
- `invertedView` is modelled on values only: the library converter's lazy view is not.
- Utils.ComputeCentroidsParametersAlongXAxis: the angle is a parameter `angleOf` of the centroid. The unused central centroid of the source is not computed.
- EllipsoidParameters and the ellipsoid fit are not part of this model.

## Findings

| source | as written | input that shows it | evidently intended | confidence | as-written member | corrected member |
|---|---|---|---|---|---|---|
| src/main/java/de/embl/cba/morphometrics/Utils.java:259-275 | `numPoints++` sits inside the loop over dimensions, so each coordinate sum is divided by (dimensions x set voxels) | a 2D slice with a single set voxel at (2, 4): the centroid comes out as (1, 2) | divide each coordinate sum by the number of set voxels, giving (2, 4); `Utils.CentroidAsWrittenHalvesPosition` exhibits the gap and `Utils.CentroidOfCommonCoordinate` proves the corrected centroid keeps a coordinate all set voxels share. `Utils.CentroidAsWrittenIsScaledCentroid` proves the source's centroid is the corrected one divided by the number of dimensions. The centroid profile along X, `Utils.ComputeCentroidsParametersAlongXAxis`, is built from the source's centroid as written, so its distances and centroid points are half the corrected ones | not executed | Utils.ComputeCentroidPerpendicularToAxis | Utils.Centroid |
