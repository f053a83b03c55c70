/**
 * Interval and scale arithmetic: per-axis scaling factors, diagonal scaling transforms,
 * and interval bounds that pass through Java's truncating `(long)` casts.
 *
 * A 3D affine transform is its 3 x 4 matrix: three rows, each holding three linear
 * coefficients followed by the translation.
 */
module Transforms {
  import opened Numerics

  type Matrix = m: seq<seq<real>> | |m| == 3 && forall i :: 0 <= i < 3 ==> |m[i]| == 4
    witness [[1.0, 0.0, 0.0, 0.0], [0.0, 1.0, 0.0, 0.0], [0.0, 0.0, 1.0, 0.0]]

  /** A freshly made transform is the identity. */
  const Identity: Matrix := [[1.0, 0.0, 0.0, 0.0], [0.0, 1.0, 0.0, 0.0], [0.0, 0.0, 1.0, 0.0]]

  /** The transform with entry (row, col) set to `v`. */
  function Set(t: Matrix, v: real, row: nat, col: nat): (r: Matrix)
    requires row < 3 && col < 4
    ensures r[row][col] == v
    ensures forall i, j :: 0 <= i < 3 && 0 <= j < 4 && (i, j) != (row, col) ==> r[i][j] == t[i][j]
  {
    t[row := t[row][col := v]]
  }

  /** `t.preConcatenate(other)`: first `t`, then `other`. */
  function PreConcatenate(t: Matrix, other: Matrix): (r: Matrix)
  {
    seq(3, i requires 0 <= i < 3 =>
      seq(4, j requires 0 <= j < 4 =>
        other[i][0] * t[0][j] + other[i][1] * t[1][j] + other[i][2] * t[2][j] + (if j == 3 then other[i][3] else 0.0)))
  }

  /** `t` scales axis d by s[d] and neither mixes axes nor translates. */
  predicate IsScaling(t: Matrix, s: seq<real>)
    requires |s| >= 3
  {
    forall i, j :: 0 <= i < 3 && 0 <= j < 4 ==> t[i][j] == if i == j then s[i] else 0.0
  }

  /** The transform that scales axis d by s[d]. */
  function ScalingMatrix(s: seq<real>): (m: Matrix)
    requires |s| >= 3
    ensures IsScaling(m, s)
  {
    seq(3, i requires 0 <= i < 3 => seq(4, j requires 0 <= j < 4 => if i == j then s[i] else 0.0))
  }

  /** A scaling is fixed by its factors: every transform that scales by s is ScalingMatrix(s). */
  lemma ScalingIsUnique(t: Matrix, s: seq<real>)
    requires |s| >= 3 && IsScaling(t, s)
    ensures t == ScalingMatrix(s)
  {
    var m := ScalingMatrix(s);
    forall i | 0 <= i < 3 ensures t[i] == m[i] {
      assert |t[i]| == |m[i]| == 4;
    }
  }

  lemma IdentityIsScaling()
    ensures IsScaling(Identity, [1.0, 1.0, 1.0])
  {
  }

  /** Two scalings in a row are the scaling by the axis-wise products. */
  lemma PreConcatenateScalings(t: Matrix, s: seq<real>, other: Matrix, u: seq<real>)
    requires |s| >= 3 && |u| >= 3
    requires IsScaling(t, s) && IsScaling(other, u)
    ensures IsScaling(PreConcatenate(t, other), [s[0] * u[0], s[1] * u[1], s[2] * u[2]])
  {
    var r := PreConcatenate(t, other);
    var p := [s[0] * u[0], s[1] * u[1], s[2] * u[2]];
    forall i, j | 0 <= i < 3 && 0 <= j < 4
      ensures r[i][j] == if i == j then p[i] else 0.0
    {
      assert r[i][j] == other[i][0] * t[0][j] + other[i][1] * t[1][j] + other[i][2] * t[2][j]
                        + (if j == 3 then other[i][3] else 0.0);
    }
  }

  /** The identity is neutral on both sides of a concatenation. */
  lemma PreConcatenateIdentity(t: Matrix)
    ensures PreConcatenate(t, Identity) == t
    ensures PreConcatenate(Identity, t) == t
  {
    var a := PreConcatenate(t, Identity);
    var b := PreConcatenate(Identity, t);
    forall i | 0 <= i < 3 ensures a[i] == t[i] && b[i] == t[i] {
      assert |a[i]| == |t[i]| == |b[i]| == 4;
      forall j | 0 <= j < 4 ensures a[i][j] == t[i][j] && b[i][j] == t[i][j] {
      }
    }
  }

  /** calibration[d] / targetResolution for every axis of the calibration. */
  method GetScalingFactors(calibration: seq<real>, targetResolution: real) returns (downScaling: seq<real>)
    requires targetResolution != 0.0
    ensures |downScaling| == |calibration|
    ensures forall d :: 0 <= d < |calibration| ==> downScaling[d] == calibration[d] / targetResolution
  {
    downScaling := [];
    for d := 0 to |calibration|
      invariant |downScaling| == d
      invariant forall e :: 0 <= e < d ==> downScaling[e] == calibration[e] / targetResolution
    {
      downScaling := downScaling + [calibration[d] / targetResolution];
    }
  }

  /** The identity with diagonal entry d set to calibration[d] / targetResolution. */
  method GetScalingTransform(calibration: seq<real>, targetResolution: real) returns (scaling: Matrix)
    requires |calibration| >= 3 && targetResolution != 0.0
    ensures IsScaling(scaling, [calibration[X] / targetResolution, calibration[Y] / targetResolution,
                                calibration[Z] / targetResolution])
  {
    scaling := Identity;
    for d := 0 to 3
      invariant forall i, j :: 0 <= i < 3 && 0 <= j < 4 ==>
        scaling[i][j] == if i == j then (if i < d then calibration[i] / targetResolution else 1.0) else 0.0
    {
      scaling := Set(scaling, calibration[d] / targetResolution, d, d);
    }
  }

  /** The identity with diagonal entry d set to calibration[d]. */
  method CreateScalingTransform(calibration: seq<real>) returns (scaling: Matrix)
    requires |calibration| >= 3
    ensures IsScaling(scaling, calibration)
  {
    scaling := Identity;
    for d := 0 to 3
      invariant forall i, j :: 0 <= i < 3 && 0 <= j < 4 ==>
        scaling[i][j] == if i == j then (if i < d then calibration[i] else 1.0) else 0.0
    {
      scaling := Set(scaling, calibration[d], d, d);
    }
  }

  /** Scales each axis by calibration[d] / binning. */
  method GetTransformToIsotropicRegistrationResolution(binning: real, calibration: seq<real>) returns (t: Matrix)
    requires |calibration| >= 3 && binning != 0.0
    ensures IsScaling(t, [calibration[X] / binning, calibration[Y] / binning, calibration[Z] / binning])
  {
    var downScaling := [0.0, 0.0, 0.0];
    for d := 0 to 3
      invariant |downScaling| == 3
      invariant forall e :: 0 <= e < d ==> downScaling[e] == calibration[e] / binning
    {
      downScaling := downScaling[d := calibration[d] / binning];
    }
    t := CreateScalingTransform(downScaling);
  }

  /** An integer interval: inclusive bounds per dimension. */
  datatype Interval = Interval(min: seq<int>, max: seq<int>)

  /** A real-valued interval, as estimated bounds of a transformed interval. */
  datatype RealInterval = RealInterval(min: seq<real>, max: seq<real>)

  predicate Is3d(i: Interval)
  {
    |i.min| == 3 && |i.max| == 3
  }

  /** Each bound multiplied by the axis scale, then truncated back to a long. */
  method CreateScaledInterval(rai: Interval, scale: seq<real>) returns (r: Interval)
    requires Is3d(rai) && |scale| >= 3
    ensures Is3d(r)
    ensures forall d :: 0 <= d < 3 ==>
      r.min[d] == Trunc(rai.min[d] as real * scale[d]) && r.max[d] == Trunc(rai.max[d] as real * scale[d])
  {
    var min := rai.min;
    var max := rai.max;
    for d := 0 to 3
      invariant |min| == 3 && |max| == 3
      invariant forall e :: 0 <= e < d ==>
        min[e] == ScaledBound(rai.min[e], scale[e]) && max[e] == ScaledBound(rai.max[e], scale[e])
      invariant forall e :: d <= e < 3 ==> min[e] == rai.min[e] && max[e] == rai.max[e]
    {
      min := min[d := ScaledBound(min[d], scale[d])];
      max := max[d := ScaledBound(max[d], scale[d])];
    }
    r := Interval(min, max);
  }

  /** One bound scaled and truncated toward zero. */
  function ScaledBound(x: int, s: real): int
  {
    Trunc(x as real * s)
  }

  /** A non-negative scale keeps min <= max, and a bound at 0 stays at 0. */
  lemma ScaledBoundsOrdered(lo: int, hi: int, s: real)
    requires lo <= hi && s >= 0.0
    ensures Trunc(lo as real * s) <= Trunc(hi as real * s)
    ensures Trunc(0 as real * s) == 0
  {
    assert (hi - lo) as real * s >= 0.0;
    assert hi as real * s - lo as real * s == (hi - lo) as real * s;
    TruncMonotone(lo as real * s, hi as real * s);
  }

  /** Every real bound truncated toward zero, axis by axis. */
  method ToInterval(realInterval: RealInterval) returns (r: Interval)
    requires |realInterval.min| >= 3 && |realInterval.max| >= 3
    ensures Is3d(r)
    ensures forall d :: 0 <= d < 3 ==>
      r.min[d] == Trunc(realInterval.min[d]) && r.max[d] == Trunc(realInterval.max[d])
  {
    var min := [0, 0, 0];
    var max := [0, 0, 0];
    for d := 0 to 3
      invariant |min| == 3 && |max| == 3
      invariant forall e :: 0 <= e < d ==>
        min[e] == Trunc(realInterval.min[e]) && max[e] == Trunc(realInterval.max[e])
    {
      min := min[d := Trunc(realInterval.min[d])];
      max := max[d := Trunc(realInterval.max[d])];
    }
    r := Interval(min, max);
  }

  /** The kinds of transform the interval computation tells apart. */
  datatype Transform = Affine(matrix: Matrix) | Scale(scales: seq<real>) | Other

  /**
   * The bounding interval of a transformed interval: estimated real bounds truncated for
   * an affine transform, scaled bounds for a scale, and none for any other transform.
   * `estimateBounds` is the library's bounding-box estimate of an affine image.
   */
  method CreateTransformedInterval(rai: Interval, transform: Transform,
                                   estimateBounds: (Matrix, Interval) -> RealInterval)
    returns (r: Option<Interval>)
    requires Is3d(rai)
    requires transform.Affine? ==>
      |estimateBounds(transform.matrix, rai).min| >= 3 && |estimateBounds(transform.matrix, rai).max| >= 3
    requires transform.Scale? ==> |transform.scales| >= 3
    ensures r.None? <==> transform.Other?
    ensures transform.Affine? ==> var b := estimateBounds(transform.matrix, rai);
      r.Some? && Is3d(r.value) && forall d :: 0 <= d < 3 ==>
        r.value.min[d] == Trunc(b.min[d]) && r.value.max[d] == Trunc(b.max[d])
    ensures transform.Scale? ==>
      r.Some? && Is3d(r.value) && forall d :: 0 <= d < 3 ==>
        r.value.min[d] == Trunc(rai.min[d] as real * transform.scales[d]) &&
        r.value.max[d] == Trunc(rai.max[d] as real * transform.scales[d])
  {
    match transform {
      case Affine(m) =>
        var i := ToInterval(estimateBounds(m, rai));
        r := Some(i);
      case Scale(s) =>
        var i := CreateScaledInterval(rai, s);
        r := Some(i);
      case Other =>
        r := None;
    }
  }

  /** The target interval moved by the source's min, dimension by dimension. */
  function GetWithAdjustedOrigin(source: Interval, target: Interval): (r: Interval)
    requires |source.min| == |target.min| == |target.max|
    ensures |r.min| == |r.max| == |target.min|
  {
    Interval(seq(|target.min|, d requires 0 <= d < |target.min| => target.min[d] + source.min[d]),
             seq(|target.max|, d requires 0 <= d < |target.max| => target.max[d] + source.min[d]))
  }

  /** A target starting at the origin ends up starting where the source starts, with its extent kept. */
  lemma AdjustedOriginMatchesSource(source: Interval, target: Interval)
    requires |source.min| == |target.min| == |target.max|
    requires forall d :: 0 <= d < |target.min| ==> target.min[d] == 0
    ensures GetWithAdjustedOrigin(source, target).min == source.min
    ensures forall d :: 0 <= d < |target.min| ==>
      GetWithAdjustedOrigin(source, target).max[d] - GetWithAdjustedOrigin(source, target).min[d]
        == target.max[d] - target.min[d]
  {
  }
}
