/**
 * The background-intensity histogram: fixed-width bins, values beyond the last bin
 * saturate into it, the mode is the first bin of maximal frequency, and the right-hand
 * half maximum is the first bin right of the mode whose frequency has dropped to half.
 */
module IntensityHistogram {
  import opened Numerics

  /** The position/value holder of the source; a freshly made one holds (0, 0). */
  datatype PositionAndValue = PositionAndValue(position: real, value: real)

  const Fresh: PositionAndValue := PositionAndValue(0.0, 0.0)

  /** Centre of bin `i` for bin width `w`. */
  function BinCenter(i: int, w: real): real
  {
    i as real * w + w * 0.5
  }

  function Centers(n: nat, w: real): (c: seq<real>)
    ensures |c| == n
  {
    seq(n, i => BinCenter(i, w))
  }

  /** Bin that a value is counted in: truncation of value / w, saturated at the last bin. */
  function Bin(v: real, w: real, n: int): int
    requires w > 0.0
  {
    var b := Trunc(v / w);
    if b >= n then n - 1 else b
  }

  /** Every value has a bin index inside the array: the index is never negative and there is a bin. */
  predicate Binnable(values: seq<real>, w: real, n: int)
  {
    forall k :: 0 <= k < |values| ==> values[k] > -w && n >= 1
  }

  lemma BinInRange(v: real, w: real, n: int)
    requires w > 0.0 && v > -w && n >= 1
    ensures 0 <= Bin(v, w, n) < n
  {
    DivGreater(v, w, -1.0);
  }

  /** A value in (-w, 0) goes to bin 0, since the cast truncates toward zero. */
  lemma SmallNegativeValueInFirstBin(v: real, w: real, n: int)
    requires w > 0.0 && -w < v < 0.0 && n >= 1
    ensures Bin(v, w, n) == 0
  {
    DivGreater(v, w, -1.0);
    DivLess(v, w, 0.0);
  }

  /** A value at or beyond the upper end of the last bin saturates into the last bin. */
  lemma LargeValueInLastBin(v: real, w: real, n: int)
    requires w > 0.0 && n >= 1 && v >= n as real * w
    ensures Bin(v, w, n) == n - 1
  {
    DivAtLeast(v, w, n as real);
  }

  /** The centre of a bin is counted in that same bin. */
  lemma CenterInOwnBin(i: nat, w: real, n: int)
    requires w > 0.0 && i < n
    ensures Bin(BinCenter(i, w), w, n) == i
  {
    var x := i as real + 0.5;
    assert BinCenter(i, w) == x * w;
    DivOfProduct(x, w);
    assert BinCenter(i, w) / w == x;
    assert Trunc(x) == i;
  }

  lemma CentersIncreasing(n: nat, w: real, i: nat, j: nat)
    requires w > 0.0 && i < j < n
    ensures Centers(n, w)[i] < Centers(n, w)[j]
  {
    assert Centers(n, w)[j] - Centers(n, w)[i] == (j - i) as real * w;
    assert (j - i) as real * w >= 1.0 * w;
  }

  function Zeros(n: nat): (z: seq<real>)
    ensures |z| == n
  {
    seq(n, _ => 0.0)
  }

  /** The frequencies after incrementing, in order, the bin of every value in `values`. */
  function Accumulate(f: seq<real>, values: seq<real>, w: real): (r: seq<real>)
    requires w > 0.0 && Binnable(values, w, |f|)
    ensures |r| == |f|
    decreases |values|
  {
    if values == [] then f
    else
      var g := Accumulate(f, values[..|values| - 1], w);
      var b := Bin(values[|values| - 1], w, |f|);
      BinInRange(values[|values| - 1], w, |f|);
      g[b := g[b] + 1.0]
  }

  /** Number of values counted in bin `b`. */
  function CountOf(values: seq<real>, w: real, n: int, b: int): nat
    requires w > 0.0
  {
    if values == [] then 0
    else CountOf(values[..|values| - 1], w, n, b) + (if Bin(values[|values| - 1], w, n) == b then 1 else 0)
  }

  lemma {:induction false} SumUpdate(s: seq<real>, b: nat, d: real)
    requires b < |s|
    ensures Sum(s[b := s[b] + d]) == Sum(s) + d
    decreases |s|
  {
    var t := s[b := s[b] + d];
    var last := |s| - 1;
    assert t[..last] == if b < last then s[..last][b := s[b] + d] else s[..last];
    if b < last {
      SumUpdate(s[..last], b, d);
    }
  }

  /** Each bin holds its old frequency plus the number of values counted in it. */
  lemma {:induction false} AccumulateAt(f: seq<real>, values: seq<real>, w: real, b: nat)
    requires w > 0.0 && Binnable(values, w, |f|) && b < |f|
    ensures Accumulate(f, values, w)[b] == f[b] + CountOf(values, w, |f|, b) as real
    decreases |values|
  {
    if values != [] {
      AccumulateAt(f, values[..|values| - 1], w, b);
    }
  }

  /** Every value adds exactly one to the total over all bins. */
  lemma {:induction false} AccumulateSum(f: seq<real>, values: seq<real>, w: real)
    requires w > 0.0 && Binnable(values, w, |f|)
    ensures Sum(Accumulate(f, values, w)) == Sum(f) + |values| as real
    decreases |values|
  {
    if values != [] {
      var init := values[..|values| - 1];
      AccumulateSum(f, init, w);
      var g := Accumulate(f, init, w);
      var b := Bin(values[|values| - 1], w, |f|);
      BinInRange(values[|values| - 1], w, |f|);
      SumUpdate(g, b, 1.0);
    }
  }

  lemma {:induction false} SumZeros(n: nat)
    ensures Sum(Zeros(n)) == 0.0
  {
    if n > 0 {
      assert Zeros(n)[..n - 1] == Zeros(n - 1);
      SumZeros(n - 1);
    }
  }

  /** A histogram built from zero frequencies holds, in total, one count per value. */
  lemma HistogramTotal(values: seq<real>, w: real, n: nat)
    requires w > 0.0 && Binnable(values, w, n)
    ensures Sum(Accumulate(Zeros(n), values, w)) == |values| as real
  {
    AccumulateSum(Zeros(n), values, w);
    SumZeros(n);
  }

  /**
   * The mode as the source's scan computes it: bins are visited left to right and a bin
   * replaces the current holder only if its frequency is strictly larger.
   */
  function ModeOf(freqs: seq<real>, centers: seq<real>): PositionAndValue
    requires |freqs| == |centers|
    decreases |freqs|
  {
    if freqs == [] then Fresh
    else
      var i := |freqs| - 1;
      var pv := ModeOf(freqs[..i], centers[..i]);
      if freqs[i] > pv.value then PositionAndValue(centers[i], freqs[i]) else pv
  }

  /** The mode's value is at least 0 and at least every frequency. */
  lemma {:induction false} ModeOfIsMaximal(freqs: seq<real>, centers: seq<real>)
    requires |freqs| == |centers|
    ensures ModeOf(freqs, centers).value >= 0.0
    ensures forall i :: 0 <= i < |freqs| ==> freqs[i] <= ModeOf(freqs, centers).value
    decreases |freqs|
  {
    if freqs != [] {
      var i := |freqs| - 1;
      ModeOfIsMaximal(freqs[..i], centers[..i]);
      assert forall j :: 0 <= j < i ==> freqs[..i][j] == freqs[j];
    }
  }

  /** The holder stays fresh exactly when no frequency is positive. */
  lemma {:induction false} ModeOfFresh(freqs: seq<real>, centers: seq<real>)
    requires |freqs| == |centers|
    ensures ModeOf(freqs, centers) == Fresh <==> forall i :: 0 <= i < |freqs| ==> freqs[i] <= 0.0
    decreases |freqs|
  {
    if freqs != [] {
      var i := |freqs| - 1;
      ModeOfFresh(freqs[..i], centers[..i]);
      ModeOfIsMaximal(freqs[..i], centers[..i]);
      ModeOfIsMaximal(freqs, centers);
      assert forall j :: 0 <= j < i ==> freqs[..i][j] == freqs[j];
    }
  }

  /**
   * Unless it is fresh, the mode is the centre and frequency of a bin that is strictly
   * larger than every bin before it: the first bin of maximal frequency wins ties.
   */
  lemma {:induction false} ModeOfFirstWins(freqs: seq<real>, centers: seq<real>)
    requires |freqs| == |centers|
    ensures var m := ModeOf(freqs, centers);
      m == Fresh ||
      exists i :: 0 <= i < |freqs| && m == PositionAndValue(centers[i], freqs[i]) &&
        forall j :: 0 <= j < i ==> freqs[j] < freqs[i]
    decreases |freqs|
  {
    if freqs != [] {
      var i := |freqs| - 1;
      var pv := ModeOf(freqs[..i], centers[..i]);
      ModeOfFirstWins(freqs[..i], centers[..i]);
      ModeOfIsMaximal(freqs[..i], centers[..i]);
      if freqs[i] > pv.value {
        assert forall j :: 0 <= j < i ==> freqs[j] == freqs[..i][j] <= pv.value;
      } else if pv != Fresh {
        var k :| 0 <= k < i && pv == PositionAndValue(centers[..i][k], freqs[..i][k]) &&
          forall j :: 0 <= j < k ==> freqs[..i][j] < freqs[..i][k];
        assert ModeOf(freqs, centers) == PositionAndValue(centers[k], freqs[k]);
        assert forall j :: 0 <= j < k ==> freqs[j] < freqs[k] by {
          forall j | 0 <= j < k ensures freqs[j] < freqs[k] {
            assert freqs[..i][j] == freqs[j];
          }
        }
      }
    }
  }

  /** Bin `i` lies right of the mode and has dropped to half the mode's frequency. */
  predicate BelowHalfRightOf(freqs: seq<real>, centers: seq<real>, m: PositionAndValue, i: int)
    requires 0 <= i < |freqs| == |centers|
  {
    centers[i] > m.position && freqs[i] <= m.value / 2.0
  }

  /** A histogram built from at least one value has a mode of frequency at least 1. */
  lemma NonEmptyHistogramMode(values: seq<real>, w: real, n: nat)
    requires w > 0.0 && Binnable(values, w, n) && |values| > 0
    ensures ModeOf(Accumulate(Zeros(n), values, w), Centers(n, w)).value >= 1.0
  {
    var v := values[0];
    var b := Bin(v, w, n);
    BinInRange(v, w, n);
    CountOfMember(values, w, n, 0);
    AccumulateAt(Zeros(n), values, w, b);
    ModeOfIsMaximal(Accumulate(Zeros(n), values, w), Centers(n, w));
  }

  lemma {:induction false} CountOfMember(values: seq<real>, w: real, n: int, k: nat)
    requires w > 0.0 && k < |values|
    ensures CountOf(values, w, n, Bin(values[k], w, n)) >= 1
    decreases |values|
  {
    var last := |values| - 1;
    if k < last {
      CountOfMember(values[..last], w, n, k);
      assert values[..last][k] == values[k];
    }
  }

  class Histogram {
    var binCenters: array<real>
    var frequencies: array<real>
    const binWidth: real
    const numBins: int
    /** The voxel values of the image, in the order its cursor visits them. */
    const voxels: seq<real>

    ghost predicate Valid()
      reads this, binCenters
    {
      binWidth > 0.0 && numBins >= 0 &&
      binCenters.Length == numBins && frequencies.Length == numBins &&
      binCenters != frequencies &&
      binCenters[..] == Centers(numBins, binWidth)
    }

    constructor (voxels: seq<real>, maxValue: real, binWidth: real)
      requires binWidth > 0.0
      requires Trunc(maxValue / binWidth) >= 0
      requires Binnable(voxels, binWidth, Trunc(maxValue / binWidth))
      ensures Valid() && fresh(binCenters) && fresh(frequencies)
      ensures this.binWidth == binWidth && numBins == Trunc(maxValue / binWidth) && this.voxels == voxels
      ensures frequencies[..] == Accumulate(Zeros(numBins), voxels, binWidth)
    {
      this.binWidth := binWidth;
      numBins := Trunc(maxValue / binWidth);
      this.voxels := voxels;
      // placeholders, replaced by InitializeHistogram below
      binCenters := new real[0];
      frequencies := new real[0];
      new;
      InitializeHistogram(numBins, binWidth);
      ComputeFrequencies();
    }

    /** Allocates both arrays with `n` bins: centres i*w + w/2, frequencies 0. */
    method InitializeHistogram(n: int, w: real)
      requires n >= 0
      modifies this`binCenters, this`frequencies
      ensures fresh(binCenters) && fresh(frequencies) && binCenters != frequencies
      ensures binCenters[..] == Centers(n, w)
      ensures frequencies[..] == Zeros(n)
    {
      var centers := new real[n];
      for i := 0 to n
        invariant forall k :: 0 <= k < i ==> centers[k] == BinCenter(k, w)
      {
        centers[i] := i as real * w + w * 0.5;
      }
      binCenters := centers;
      frequencies := new real[n](_ => 0.0);
    }

    /** Counts every voxel into the frequencies. */
    method ComputeFrequencies()
      requires Valid() && Binnable(voxels, binWidth, numBins)
      modifies frequencies
      ensures Valid()
      ensures frequencies[..] == Accumulate(old(frequencies[..]), voxels, binWidth)
    {
      var k := 0;
      while k < |voxels|
        invariant 0 <= k <= |voxels|
        invariant Valid()
        invariant frequencies[..] == Accumulate(old(frequencies[..]), voxels[..k], binWidth)
      {
        assert voxels[..k + 1][..k] == voxels[..k];
        Increment(voxels[k]);
        k := k + 1;
      }
      assert voxels[..k] == voxels;
    }

    /** Adds one to the bin of `value`, and to no other bin. */
    method Increment(value: real)
      requires Valid() && value > -binWidth && numBins >= 1
      modifies frequencies
      ensures Valid()
      ensures var b := Bin(value, binWidth, numBins);
        0 <= b < numBins && frequencies[..] == old(frequencies[..])[b := old(frequencies[b]) + 1.0]
    {
      var bin := Trunc(value / binWidth);
      if bin >= numBins {
        bin := numBins - 1;
      }
      BinInRange(value, binWidth, numBins);
      frequencies[bin] := frequencies[bin] + 1.0;
    }

    /** The mode: a bin of maximal frequency, the first one on ties; fresh if no frequency is positive. */
    method GetMode() returns (pv: PositionAndValue)
      requires Valid()
      ensures pv == ModeOf(frequencies[..], binCenters[..])
      ensures pv.value >= 0.0 && forall i :: 0 <= i < numBins ==> frequencies[i] <= pv.value
      ensures pv == Fresh <==> forall i :: 0 <= i < numBins ==> frequencies[i] <= 0.0
      ensures pv == Fresh ||
        exists i :: 0 <= i < numBins && pv == PositionAndValue(binCenters[i], frequencies[i]) &&
          forall j :: 0 <= j < i ==> frequencies[j] < frequencies[i]
    {
      pv := Fresh;
      for i := 0 to numBins
        invariant pv == ModeOf(frequencies[..i], binCenters[..i])
      {
        assert frequencies[..i + 1][..i] == frequencies[..i];
        assert binCenters[..i + 1][..i] == binCenters[..i];
        if frequencies[i] > pv.value {
          pv := PositionAndValue(binCenters[i], frequencies[i]);
        }
      }
      assert frequencies[..numBins] == frequencies[..];
      assert binCenters[..numBins] == binCenters[..];
      ModeOfIsMaximal(frequencies[..], binCenters[..]);
      ModeOfFresh(frequencies[..], binCenters[..]);
      ModeOfFirstWins(frequencies[..], binCenters[..]);
    }

    /**
     * The first bin right of the mode whose frequency is at most half the mode's;
     * a fresh holder when there is no such bin.
     */
    method GetRightHandHalfMaximum() returns (r: PositionAndValue)
      requires Valid()
      ensures var m := ModeOf(frequencies[..], binCenters[..]);
        (exists i :: 0 <= i < numBins && BelowHalfRightOf(frequencies[..], binCenters[..], m, i)) ==>
          exists i :: 0 <= i < numBins && BelowHalfRightOf(frequencies[..], binCenters[..], m, i) &&
            r == PositionAndValue(binCenters[i], frequencies[i]) &&
            forall j :: 0 <= j < i ==> !BelowHalfRightOf(frequencies[..], binCenters[..], m, j)
      ensures var m := ModeOf(frequencies[..], binCenters[..]);
        (forall i :: 0 <= i < numBins ==> !BelowHalfRightOf(frequencies[..], binCenters[..], m, i)) ==>
          r == Fresh
    {
      var maximum := GetMode();
      for i := 0 to numBins
        invariant forall j :: 0 <= j < i ==> !BelowHalfRightOf(frequencies[..], binCenters[..], maximum, j)
      {
        if binCenters[i] > maximum.position {
          if frequencies[i] <= maximum.value / 2.0 {
            r := PositionAndValue(binCenters[i], frequencies[i]);
            assert BelowHalfRightOf(frequencies[..], binCenters[..], maximum, i);
            return;
          }
        }
      }
      r := Fresh;
    }
  }
}
