/**
 * The embryo registration command: its dialog fields, which files of a directory it
 * accepts, the output interval it crops the registered image to, and how it copies the
 * dialog into the registration settings.
 *
 * The file-name filter follows Java's String.split on a comma (the input itself when
 * there is no comma; trailing empty fields dropped otherwise), String.trim (characters
 * up to the space removed at both ends) and String.endsWith.
 */
module ShavenBabyRegistrationCommand {
  import opened Numerics
  import opened Transforms
  import opened ShavenBabyRegistrationSettings

  // ---------------------------------------------------------------------------
  // splitting on commas

  /** The fields between the commas of `s`, every comma starting a new field. */
  function Fields(s: string): (r: seq<string>)
    ensures |r| >= 1
    ensures forall i :: 0 <= i < |r| ==> ',' !in r[i]
  {
    if s == [] then [[]]
    else
      var rest := Fields(s[1..]);
      if s[0] == ',' then [[]] + rest
      else [[s[0]] + rest[0]] + rest[1..]
  }

  /** The fields put back together with a comma between neighbours. */
  function Join(fields: seq<string>): string
    requires |fields| >= 1
  {
    if |fields| == 1 then fields[0] else fields[0] + [','] + Join(fields[1..])
  }

  /** Joining the fields gives back the string they were split from. */
  lemma {:induction false} JoinFields(s: string)
    ensures Join(Fields(s)) == s
  {
    if s != [] {
      var rest := Fields(s[1..]);
      JoinFields(s[1..]);
      if s[0] == ',' {
        assert ([[]] + rest)[1..] == rest;
      } else {
        var r := [[s[0]] + rest[0]] + rest[1..];
        if |rest| > 1 {
          assert r[1..] == rest[1..];
        }
        assert s == [s[0]] + s[1..];
      }
    }
  }

  /** The fields with the empty ones at the end removed. */
  function StripTrailingEmpty(fields: seq<string>): (r: seq<string>)
    ensures |r| <= |fields| && r == fields[..|r|]
    ensures forall i :: |r| <= i < |fields| ==> fields[i] == []
    ensures r == [] || r[|r| - 1] != []
  {
    if fields != [] && fields[|fields| - 1] == [] then StripTrailingEmpty(fields[..|fields| - 1]) else fields
  }

  /** Java's `s.split(",")`. */
  function JavaSplit(s: string): (r: seq<string>)
    ensures ',' !in s ==> r == [s]
    ensures ',' in s ==> forall i :: 0 <= i < |r| ==> ',' !in r[i]
  {
    if ',' !in s then [s] else StripTrailingEmpty(Fields(s))
  }

  // ---------------------------------------------------------------------------
  // trimming and suffixes

  /** Number of characters up to the space at the front of `s`. */
  function LeadingBlanks(s: string): (n: nat)
    ensures n <= |s|
    ensures forall i :: 0 <= i < n ==> s[i] <= ' '
    ensures n < |s| ==> s[n] > ' '
  {
    if s == [] || s[0] > ' ' then 0 else 1 + LeadingBlanks(s[1..])
  }

  /** Number of characters up to the space at the back of `s`. */
  function TrailingBlanks(s: string): (n: nat)
    ensures n <= |s|
    ensures forall i :: |s| - n <= i < |s| ==> s[i] <= ' '
    ensures n < |s| ==> s[|s| - n - 1] > ' '
  {
    if s == [] || s[|s| - 1] > ' ' then 0 else 1 + TrailingBlanks(s[..|s| - 1])
  }

  /**
   * Java's `s.trim()`: `s` without the characters up to the space at both ends. The result
   * is a piece of `s` that starts and ends with a character above the space, and it is
   * empty exactly when the leading blanks are all of `s`.
   */
  function Trim(s: string): (r: string)
    ensures LeadingBlanks(s) + |r| <= |s|
    ensures r == s[LeadingBlanks(s)..LeadingBlanks(s) + |r|]
    ensures r == [] || (r[0] > ' ' && r[|r| - 1] > ' ')
    ensures r == [] <==> LeadingBlanks(s) == |s|
  {
    var a := LeadingBlanks(s);
    var t := s[a..];
    var b := TrailingBlanks(t);
    var r := t[..|t| - b];
    assert r == s[a..a + |r|];
    assert a < |s| ==> t[0] == s[a];
    assert r != [] ==> r[0] == s[a] && r[|r| - 1] == t[|t| - b - 1];
    r
  }

  /** The trim is empty exactly when every character of `s` is at most the space. */
  lemma TrimEmptyIffBlank(s: string)
    ensures Trim(s) == [] <==> forall i :: 0 <= i < |s| ==> s[i] <= ' '
  {
  }

  /** Trimming twice is trimming once. */
  lemma TrimIdempotent(s: string)
    ensures Trim(Trim(s)) == Trim(s)
  {
    var r := Trim(s);
    if r != [] {
      assert LeadingBlanks(r) == 0;
      assert TrailingBlanks(r) == 0;
    }
  }

  /** Java's `s.endsWith(suffix)`. */
  predicate EndsWith(s: string, suffix: string)
  {
    |suffix| <= |s| && s[|s| - |suffix|..] == suffix
  }

  // ---------------------------------------------------------------------------
  // the file filter

  /** Some comma-separated entry of the filter, trimmed, ends the file name. */
  predicate Accepted(fileNameEndsWith: string, file: string)
  {
    exists i :: 0 <= i < |JavaSplit(fileNameEndsWith)| && EndsWith(file, Trim(JavaSplit(fileNameEndsWith)[i]))
  }

  /** Whether the file is processed: the entries are tried in order and the first match accepts it. */
  method AcceptFile(fileNameEndsWith: string, file: string) returns (accept: bool)
    ensures accept <==> Accepted(fileNameEndsWith, file)
  {
    var fileNameEndsWithList := JavaSplit(fileNameEndsWith);
    for i := 0 to |fileNameEndsWithList|
      invariant forall j :: 0 <= j < i ==> !EndsWith(file, Trim(fileNameEndsWithList[j]))
    {
      if EndsWith(file, Trim(fileNameEndsWithList[i])) {
        return true;
      }
    }
    return false;
  }

  /** An entry made only of blanks trims to the empty suffix and accepts every file name. */
  lemma BlankEntryAcceptsEveryFile(fileNameEndsWith: string, file: string, i: int)
    requires 0 <= i < |JavaSplit(fileNameEndsWith)|
    requires forall k :: 0 <= k < |JavaSplit(fileNameEndsWith)[i]| ==> JavaSplit(fileNameEndsWith)[i][k] <= ' '
    ensures Accepted(fileNameEndsWith, file)
  {
    TrimEmptyIffBlank(JavaSplit(fileNameEndsWith)[i]);
    assert file[|file|..] == [];
  }

  /** An empty filter splits into one empty entry and so accepts every file name. */
  lemma EmptyFilterAcceptsEveryFile(file: string)
    ensures Accepted("", file)
  {
    assert JavaSplit("") == [""];
    BlankEntryAcceptsEveryFile("", file, 0);
  }

  /** A string of commas only has only empty fields. */
  lemma {:induction false} CommaFieldsAreEmpty(s: string)
    requires forall k :: 0 <= k < |s| ==> s[k] == ','
    ensures forall i :: 0 <= i < |Fields(s)| ==> Fields(s)[i] == []
  {
    if s != [] {
      CommaFieldsAreEmpty(s[1..]);
    }
  }

  /** Only empty fields are all stripped. */
  lemma {:induction false} StripAllEmpty(fields: seq<string>)
    requires forall i :: 0 <= i < |fields| ==> fields[i] == []
    ensures StripTrailingEmpty(fields) == []
    decreases |fields|
  {
    if fields != [] {
      StripAllEmpty(fields[..|fields| - 1]);
    }
  }

  /** A filter of commas only splits into no entry at all and accepts no file name. */
  lemma CommasOnlyAcceptNothing(fileNameEndsWith: string, file: string)
    requires |fileNameEndsWith| > 0 && forall k :: 0 <= k < |fileNameEndsWith| ==> fileNameEndsWith[k] == ','
    ensures !Accepted(fileNameEndsWith, file)
  {
    assert fileNameEndsWith[0] == ',';
    CommaFieldsAreEmpty(fileNameEndsWith);
    StripAllEmpty(Fields(fileNameEndsWith));
  }

  /** A comma-free start of a string belongs to its first field. */
  lemma {:induction false} FieldsOfPrefix(a: string, t: string)
    requires ',' !in a
    ensures Fields(a + t) == [a + Fields(t)[0]] + Fields(t)[1..]
    decreases |a|
  {
    if a != [] {
      assert (a + t)[0] == a[0] && a[0] != ',';
      assert (a + t)[1..] == a[1..] + t;
      FieldsOfPrefix(a[1..], t);
      var rest := Fields(a[1..] + t);
      assert rest[0] == a[1..] + Fields(t)[0] && rest[1..] == Fields(t)[1..];
      assert [a[0]] + (a[1..] + Fields(t)[0]) == a + Fields(t)[0];
    } else {
      assert a + t == t && a + Fields(t)[0] == Fields(t)[0];
      assert [Fields(t)[0]] + Fields(t)[1..] == Fields(t);
    }
  }

  /** Splitting comma-free fields joined by commas gives back the fields. */
  lemma {:induction false} FieldsOfJoin(fields: seq<string>)
    requires |fields| >= 1 && forall i :: 0 <= i < |fields| ==> ',' !in fields[i]
    ensures Fields(Join(fields)) == fields
    decreases |fields|
  {
    if |fields| == 1 {
      FieldsOfPrefix(fields[0], []);
      assert fields[0] + [] == fields[0];
    } else {
      var t := [','] + Join(fields[1..]);
      FieldsOfJoin(fields[1..]);
      assert t[1..] == Join(fields[1..]);
      assert Fields(t) == [[]] + fields[1..];
      FieldsOfPrefix(fields[0], t);
      assert fields[0] + t == Join(fields);
      assert fields[0] + [] == fields[0];
    }
  }

  /** A string without blanks at either end is its own trim. */
  lemma TrimOfTrimmed(s: string)
    requires s != [] && s[0] > ' ' && s[|s| - 1] > ' '
    ensures Trim(s) == s
  {
    assert LeadingBlanks(s) == 0;
    assert TrailingBlanks(s) == 0;
  }

  /** The default filter splits into its two suffixes. */
  lemma DefaultFilterSplit()
    ensures JavaSplit(".czi,.lsm") == [".czi", ".lsm"]
  {
    var fields := [".czi", ".lsm"];
    assert fields[1..] == [".lsm"];
    assert Join(fields) == ".czi" + [','] + ".lsm" == ".czi,.lsm";
    assert ',' in ".czi,.lsm" by { assert ".czi,.lsm"[4] == ','; }
    FieldsOfJoin(fields);
  }

  /** The default filter accepts exactly the .czi and .lsm files. */
  lemma DefaultFilterAcceptsCziAndLsm(file: string)
    ensures Accepted(".czi,.lsm", file) <==> EndsWith(file, ".czi") || EndsWith(file, ".lsm")
  {
    DefaultFilterSplit();
    TrimOfTrimmed(".czi");
    TrimOfTrimmed(".lsm");
    var entries := JavaSplit(".czi,.lsm");
    if Accepted(".czi,.lsm", file) {
      var i :| 0 <= i < |entries| && EndsWith(file, Trim(entries[i]));
      assert i == 0 || i == 1;
    }
    if EndsWith(file, ".czi") {
      assert EndsWith(file, Trim(entries[0]));
    }
    if EndsWith(file, ".lsm") {
      assert EndsWith(file, Trim(entries[1]));
    }
  }

  // ---------------------------------------------------------------------------
  // output interval

  /**
   * Half the output size along one axis in output voxels, as the cast to long leaves it:
   * (long)(size / 2 / resolution).
   */
  function HalfExtent(outputImageSize: real, outputResolution: real): (n: int)
    requires outputResolution != 0.0
    ensures outputImageSize >= 0.0 && outputResolution > 0.0 ==> n >= 0
  {
    if outputImageSize >= 0.0 && outputResolution > 0.0 then
      DivAtLeast(outputImageSize / 2.0, outputResolution, 0.0);
      Trunc(outputImageSize / 2.0 / outputResolution)
    else Trunc(outputImageSize / 2.0 / outputResolution)
  }

  /**
   * The crop interval: the input interval with X, Y and Z replaced by -h .. h, h the half
   * extent of each output size; further dimensions (channels) keep their bounds. None for
   * an input with fewer than three dimensions, where the source indexes past its arrays.
   */
  method OutputImageInterval(rai: Interval, sizes: seq<real>, outputResolution: real) returns (interval: Option<Interval>)
    requires |sizes| == 3 && outputResolution != 0.0
    requires |rai.min| == |rai.max|
    ensures interval.None? <==> |rai.min| < 3
    ensures interval.Some? ==>
      |interval.value.min| == |interval.value.max| == |rai.min| &&
      (forall d :: 0 <= d < 3 ==>
        interval.value.min[d] == -HalfExtent(sizes[d], outputResolution) &&
        interval.value.max[d] == -interval.value.min[d]) &&
      (forall d :: 3 <= d < |rai.min| ==> interval.value.min[d] == rai.min[d] && interval.value.max[d] == rai.max[d])
    ensures interval.Some? && outputResolution > 0.0 && (forall d :: 0 <= d < 3 ==> sizes[d] >= 0.0) ==>
      forall d :: 0 <= d < 3 ==> interval.value.min[d] <= 0 <= interval.value.max[d]
  {
    if |rai.min| < 3 {
      return None;
    }
    var min := new int[|rai.min|](i requires 0 <= i < |rai.min| => rai.min[i]);
    var max := new int[|rai.max|](i requires 0 <= i < |rai.max| => rai.max[i]);

    min[X] := -HalfExtent(sizes[X], outputResolution);
    min[Y] := -HalfExtent(sizes[Y], outputResolution);
    min[Z] := -HalfExtent(sizes[Z], outputResolution);

    for d := 0 to 3
      invariant forall e :: 0 <= e < 3 ==> min[e] == -HalfExtent(sizes[e], outputResolution)
      invariant forall e :: 3 <= e < min.Length ==> min[e] == rai.min[e] && max[e] == rai.max[e]
      invariant forall e :: 0 <= e < d ==> max[e] == -1 * min[e]
    {
      max[d] := -1 * min[d];
    }

    interval := Some(Interval(min[..], max[..]));
  }

  // ---------------------------------------------------------------------------
  // the command

  const FromDirectory: string := "From directory"
  const CurrentImage: string := "Current image"

  class Command {
    var settings: Settings

    var inputModality: string
    var fileNameEndsWith: string
    var shavenBabyChannelIndexOneBased: int
    var showIntermediateResults: bool
    var registrationResolution: real
    var outputResolution: real
    var backgroundIntensity: real
    var thresholdModality: string
    var threshold: real
    var refractiveIndexScalingCorrectionFactor: real
    var refractiveIndexIntensityCorrectionDecayLength: real
    var closingRadius: real

    /** The dialog starts from the settings' defaults, reading from a directory of .czi and .lsm files. */
    constructor ()
      ensures fresh(settings)
      ensures inputModality == FromDirectory && fileNameEndsWith == ".czi,.lsm"
      ensures shavenBabyChannelIndexOneBased == settings.shavenBabyChannelIndexOneBased == 1
      ensures showIntermediateResults == settings.showIntermediateResults == false
      ensures registrationResolution == settings.registrationResolution == 6.0
      ensures outputResolution == settings.outputResolution == 2.0
      ensures backgroundIntensity == settings.backgroundIntensity == 3155.0
      ensures thresholdModality == settings.thresholdModality == ManualThreshold
      ensures threshold == settings.thresholdInUnitsOfBackgroundPeakHalfWidth == 5.0
      ensures refractiveIndexScalingCorrectionFactor == settings.refractiveIndexScalingCorrectionFactor == 1.6
      ensures refractiveIndexIntensityCorrectionDecayLength ==
              settings.refractiveIndexIntensityCorrectionDecayLength == 170.0
      ensures closingRadius == settings.closingRadius == 0.0
      ensures settings.outputImageSizeX == 500.0 && settings.outputImageSizeY == 250.0 &&
              settings.outputImageSizeZ == 250.0
    {
      var s := new Settings();
      settings := s;
      inputModality := FromDirectory;
      fileNameEndsWith := ".czi,.lsm";
      shavenBabyChannelIndexOneBased := s.shavenBabyChannelIndexOneBased;
      showIntermediateResults := s.showIntermediateResults;
      registrationResolution := s.registrationResolution;
      outputResolution := s.outputResolution;
      backgroundIntensity := s.backgroundIntensity;
      thresholdModality := s.thresholdModality;
      threshold := s.thresholdInUnitsOfBackgroundPeakHalfWidth;
      refractiveIndexScalingCorrectionFactor := s.refractiveIndexScalingCorrectionFactor;
      refractiveIndexIntensityCorrectionDecayLength := s.refractiveIndexIntensityCorrectionDecayLength;
      closingRadius := s.closingRadius;
    }

    /** The interval the registered image is cropped to, from the settings' output sizes. */
    method CreateOutputImageInterval(rai: Interval) returns (interval: Option<Interval>)
      requires settings.outputResolution != 0.0
      requires |rai.min| == |rai.max|
      ensures interval.None? <==> |rai.min| < 3
      ensures interval.Some? ==>
        var sizes := [settings.outputImageSizeX, settings.outputImageSizeY, settings.outputImageSizeZ];
        |interval.value.min| == |interval.value.max| == |rai.min| &&
        (forall d :: 0 <= d < 3 ==>
          interval.value.min[d] == -HalfExtent(sizes[d], settings.outputResolution) &&
          interval.value.max[d] == -interval.value.min[d]) &&
        (forall d :: 3 <= d < |rai.min| ==> interval.value.min[d] == rai.min[d] && interval.value.max[d] == rai.max[d])
    {
      interval := OutputImageInterval(rai, [settings.outputImageSizeX, settings.outputImageSizeY,
                                            settings.outputImageSizeZ], settings.outputResolution);
    }

    /**
     * Copies the nine dialog values into the settings. The channel index, the roll window,
     * the seed thresholds and the output sizes keep their values, so the local seed
     * threshold stays three voxels of the default resolution whatever resolution is chosen.
     */
    method SetSettingsFromUI()
      modifies settings
      ensures settings.showIntermediateResults == showIntermediateResults
      ensures settings.registrationResolution == registrationResolution
      ensures settings.closingRadius == closingRadius
      ensures settings.outputResolution == outputResolution
      ensures settings.backgroundIntensity == backgroundIntensity
      ensures settings.refractiveIndexScalingCorrectionFactor == refractiveIndexScalingCorrectionFactor
      ensures settings.refractiveIndexIntensityCorrectionDecayLength == refractiveIndexIntensityCorrectionDecayLength
      ensures settings.thresholdModality == thresholdModality
      ensures settings.thresholdInUnitsOfBackgroundPeakHalfWidth == threshold
      ensures settings.shavenBabyChannelIndexOneBased == old(settings.shavenBabyChannelIndexOneBased)
      ensures settings.rollAngleMinDistanceToAxis == old(settings.rollAngleMinDistanceToAxis)
      ensures settings.rollAngleMinDistanceToCenter == old(settings.rollAngleMinDistanceToCenter)
      ensures settings.rollAngleMaxDistanceToCenter == old(settings.rollAngleMaxDistanceToCenter)
      ensures settings.watershedSeedsGlobalDistanceThreshold == old(settings.watershedSeedsGlobalDistanceThreshold)
      ensures settings.watershedSeedsLocalMaximaDistanceThreshold ==
              old(settings.watershedSeedsLocalMaximaDistanceThreshold)
      ensures settings.outputImageSizeX == old(settings.outputImageSizeX)
      ensures settings.outputImageSizeY == old(settings.outputImageSizeY)
      ensures settings.outputImageSizeZ == old(settings.outputImageSizeZ)
    {
      var s := settings;
      s.showIntermediateResults, s.registrationResolution, s.closingRadius, s.outputResolution,
        s.backgroundIntensity, s.refractiveIndexScalingCorrectionFactor,
        s.refractiveIndexIntensityCorrectionDecayLength, s.thresholdModality,
        s.thresholdInUnitsOfBackgroundPeakHalfWidth :=
        showIntermediateResults, registrationResolution, closingRadius, outputResolution,
        backgroundIntensity, refractiveIndexScalingCorrectionFactor,
        refractiveIndexIntensityCorrectionDecayLength, thresholdModality,
        threshold;
    }
  }

  /**
   * With the default dialog the registered image is cropped to -125 .. 125 along X and
   * -62 .. 62 along Y and Z (250 / 2 / 2 = 62.5 truncated), channels left whole.
   */
  method DefaultOutputImageInterval(rai: Interval) returns (interval: Option<Interval>)
    requires |rai.min| == |rai.max| >= 3
    ensures interval.Some? && |interval.value.min| >= 3 && |interval.value.max| >= 3
    ensures interval.value.min[..3] == [-125, -62, -62] && interval.value.max[..3] == [125, 62, 62]
  {
    var command := new Command();
    command.SetSettingsFromUI();
    assert HalfExtent(500.0, 2.0) == 125;
    assert HalfExtent(250.0, 2.0) == 62;
    interval := command.CreateOutputImageInterval(rai);
  }
}
