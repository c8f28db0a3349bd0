/**
  The live sample buffer of one power-meter plot, as values: the two parallel
  lists of timestamps and powers, the visible region and its auto-extend
  policy, the crop of the buffer to the region, the strided downsampling of
  both plots, the maximum line, the mW/uW label and the text export.
  Timestamps and powers are only compared and copied, so they are `real`.
*/
module Samples {
  import opened Options

  /** Timestamps are appended in acquisition order, so the buffer never decreases. */
  ghost predicate Sorted(s: seq<real>) {
    forall a, b :: 0 <= a < b < |s| ==> s[a] <= s[b]
  }

  function Last(s: seq<real>): real
    requires |s| > 0
  {
    s[|s| - 1]
  }

  // ---------------------------------------------------------------------------
  // Reading and appending

  /** A read reading is kept only when it is truthy: present and not zero. */
  predicate Accepted(reading: Option<real>) {
    reading.Some? && reading.value != 0.0
  }

  /** The timestamps after one tick's read: `now` is appended when the reading is kept. */
  function TimesAfter(times: seq<real>, now: real, reading: Option<real>): (r: seq<real>)
    ensures Accepted(reading) ==> r == times + [now]
    ensures !Accepted(reading) ==> r == times
    ensures Sorted(times) && (|times| > 0 ==> Last(times) <= now) ==> Sorted(r)
  {
    if Accepted(reading) then times + [now] else times
  }

  /** The powers after one tick's read: the reading itself is appended when it is kept. */
  function PowersAfter(powers: seq<real>, reading: Option<real>): (r: seq<real>)
    ensures Accepted(reading) ==> r == powers + [reading.value]
    ensures !Accepted(reading) ==> r == powers
  {
    if Accepted(reading) then powers + [reading.value] else powers
  }

  /** One read appends exactly one timestamp and one power, or nothing, so the lists stay parallel. */
  lemma ReadKeepsListsParallel(times: seq<real>, powers: seq<real>, now: real, reading: Option<real>)
    requires |times| == |powers|
    ensures |TimesAfter(times, now, reading)| == |PowersAfter(powers, reading)|
    ensures |TimesAfter(times, now, reading)| == |times| + (if Accepted(reading) then 1 else 0)
  {
  }

  // ---------------------------------------------------------------------------
  // The visible region and its auto-extend policy

  datatype Region = Region(lo: real, hi: real)

  /**
    The region for this tick, judged against the buffer as it was before the
    tick's read: a lower bound before the first sample snaps the region to
    [first sample, now]; otherwise an upper bound at or after the last sample
    follows the live edge to `now`; otherwise the user's region is kept.
  */
  function Extend(times: seq<real>, r: Region, now: real): (e: Region)
    ensures |times| == 0 ==> e == r
    ensures |times| > 0 ==> times[0] <= e.lo
    ensures |times| > 0 && r.lo < times[0] ==> e == Region(times[0], now)
    ensures |times| > 0 && times[0] <= r.lo ==> e.lo == r.lo
    ensures |times| > 0 && (r.lo < times[0] || Last(times) <= r.hi) ==> e.hi == now
    ensures |times| > 0 && times[0] <= r.lo && r.hi < Last(times) ==> e == r
  {
    if |times| == 0 then r
    else if r.lo < times[0] then Region(times[0], now)
    else if r.hi >= Last(times) then Region(r.lo, now)
    else r
  }

  /** A region already pinned to [first sample, earlier now] keeps tracking the live edge. */
  lemma LiveEdgeKeepsTracking(times: seq<real>, earlier: real, now: real)
    requires |times| > 0 && Last(times) <= earlier
    ensures Extend(times, Region(times[0], earlier), now) == Region(times[0], now)
  {
  }

  /** A region strictly inside the data, away from the live edge, is left where the user put it. */
  lemma ManualPinIsStable(times: seq<real>, a: real, b: real, now: real)
    requires |times| > 0 && times[0] <= a <= b < Last(times)
    ensures Extend(times, Region(a, b), now) == Region(a, b)
  {
  }

  /**
    A tick never inverts the region: when the buffer after the read has a
    sample at or after the new start, the new start is at most the new end.
  */
  lemma ExtendKeepsOrder(times: seq<real>, r: Region, now: real, reading: Option<real>)
    requires Sorted(times) && r.lo <= r.hi && (|times| > 0 ==> Last(times) <= now)
    requires var e := Extend(times, r, now);
             exists m :: 0 <= m < |TimesAfter(times, now, reading)| && e.lo <= TimesAfter(times, now, reading)[m]
    ensures Extend(times, r, now).lo <= Extend(times, r, now).hi
  {
    var e := Extend(times, r, now);
    var after := TimesAfter(times, now, reading);
    var m :| 0 <= m < |after| && e.lo <= after[m];
    if |times| > 0 {
      assert after[m] <= now;
    }
  }

  // ---------------------------------------------------------------------------
  // Cropping the buffer to the region

  /**
    The crop is defined (the window's index scans stay inside the list): some
    sample is at or after the lower bound, and, when there is more than one
    sample, some sample is at or before the upper bound.
  */
  ghost predicate Croppable(times: seq<real>, lo: real, hi: real) {
    && (exists m :: 0 <= m < |times| && lo <= times[m])
    && (|times| <= 1 || exists m :: 0 <= m < |times| && times[m] <= hi)
  }

  /** The index the forward scan stops at: the first sample not before `lo`. */
  function CropStart(times: seq<real>, lo: real): (i: nat)
    requires exists m :: 0 <= m < |times| && lo <= times[m]
    ensures i < |times| && lo <= times[i]
    ensures forall k :: 0 <= k < i ==> times[k] < lo
  {
    if lo <= times[0] then 0
    else
      var rest := times[1..];
      assert exists m :: 0 <= m < |rest| && lo <= rest[m] by {
        var m :| 0 <= m < |times| && lo <= times[m];
        assert rest[m - 1] == times[m];
      }
      1 + CropStart(rest, lo)
  }

  /** The index the backward scan stops at: one past the last sample not after `hi`. */
  function LastAtMost(times: seq<real>, hi: real): (j: nat)
    requires exists m :: 0 <= m < |times| && times[m] <= hi
    ensures 0 < j <= |times| && times[j - 1] <= hi
    ensures forall k :: j <= k < |times| ==> hi < times[k]
  {
    if Last(times) <= hi then |times|
    else
      var front := times[..|times| - 1];
      assert exists m :: 0 <= m < |front| && front[m] <= hi by {
        var m :| 0 <= m < |times| && times[m] <= hi;
        assert front[m] == times[m];
      }
      LastAtMost(front, hi)
  }

  /** The end of the crop: the whole list when it has at most one sample, else the backward scan. */
  function CropEnd(times: seq<real>, hi: real): (j: nat)
    requires |times| <= 1 || exists m :: 0 <= m < |times| && times[m] <= hi
    ensures j <= |times|
    ensures |times| <= 1 ==> j == |times|
    ensures |times| > 1 ==> 0 < j && times[j - 1] <= hi && forall k :: j <= k < |times| ==> hi < times[k]
  {
    if |times| <= 1 then |times| else LastAtMost(times, hi)
  }

  /** With an ordered region the crop never ends before it starts. */
  lemma CropOrdered(times: seq<real>, lo: real, hi: real)
    requires lo <= hi && Croppable(times, lo, hi)
    ensures CropStart(times, lo) <= CropEnd(times, hi)
  {
  }

  /**
    On sorted data the crop is exactly the samples inside the region: an index
    is in [start, end) if and only if its time lies in [lo, hi] (the upper
    bound is only enforced when there is more than one sample).
  */
  lemma CropSelectsRegion(times: seq<real>, lo: real, hi: real, k: nat)
    requires Sorted(times) && Croppable(times, lo, hi) && k < |times|
    ensures (CropStart(times, lo) <= k < CropEnd(times, hi)) <==>
            (lo <= times[k] && (|times| > 1 ==> times[k] <= hi))
  {
    var i, j := CropStart(times, lo), CropEnd(times, hi);
    if i <= k < j {
      BetweenCropBounds(times, lo, hi, i, j, k);
    }
  }

  /** On sorted data a sample between two in-region samples is in the region too. */
  lemma BetweenCropBounds(times: seq<real>, lo: real, hi: real, i: nat, j: nat, k: nat)
    requires Sorted(times) && i <= k < j <= |times|
    requires lo <= times[i] && (|times| > 1 ==> times[j - 1] <= hi)
    ensures lo <= times[k] && (|times| > 1 ==> times[k] <= hi)
  {
    assert times[i] <= times[k];
    assert times[k] <= times[j - 1];
  }

  // ---------------------------------------------------------------------------
  // Strided downsampling

  /** The most points either plot is given per tick. */
  const PointBudget: nat := 1000

  /** The stride that keeps `n` samples within the point budget. */
  function Stride(n: nat): (k: nat)
    ensures 0 < k
  {
    n / PointBudget + 1
  }

  /** How many indices i, i+k, i+2k, ... lie before j. */
  function SliceLength(i: nat, j: nat, k: nat): (c: nat)
    requires 0 < k
    ensures i < j <==> 0 < c
    decreases if i < j then j - i else 0
  {
    if i >= j then 0 else 1 + SliceLength(i + k, j, k)
  }

  /** The slice length is the ceiling of (j - i) / k: (c - 1) * k < j - i <= c * k. */
  lemma {:induction false} SliceLengthIsCeiling(i: nat, j: nat, k: nat)
    requires 0 < k && i < j
    ensures var c := SliceLength(i, j, k); (c - 1) * k < j - i <= c * k
    decreases j - i
  {
    var c := SliceLength(i, j, k);
    if i + k < j {
      SliceLengthIsCeiling(i + k, j, k);
    }
    MulSucc(c - 1, k);
    MulSucc(c as int - 2, k);
  }

  /** The n-th index a slice with start i and step k visits: i + n * k, counted step by step. */
  function SliceIndex(i: nat, n: nat, k: nat): (r: nat)
    ensures i <= r
    decreases n
  {
    if n == 0 then i else SliceIndex(i + k, n - 1, k)
  }

  /** The n-th visited index is i + n * k. */
  lemma {:induction false} SliceIndexIsLinear(i: nat, n: nat, k: nat)
    ensures SliceIndex(i, n, k) == i + n * k
    decreases n
  {
    if n > 0 {
      SliceIndexIsLinear(i + k, n - 1, k);
      MulSucc(n - 1, k);
    }
  }

  /**
    The list slice `s[i:j:k]` for 0 <= i, j <= |s| and k >= 1: the samples at
    i, i+k, i+2k, ... before j, copied as they are.
  */
  function Strided<T>(s: seq<T>, i: nat, j: nat, k: nat): (r: seq<T>)
    requires j <= |s| && 0 < k
    ensures |r| == SliceLength(i, j, k)
    ensures forall n :: 0 <= n < |r| ==> SliceIndex(i, n, k) < j && r[n] == s[SliceIndex(i, n, k)]
    decreases if i < j then j - i else 0
  {
    if i >= j then []
    else
      var rest := Strided(s, i + k, j, k);
      var r := [s[i]] + rest;
      assert forall n :: 1 <= n < |r| ==> r[n] == rest[n - 1];
      r
  }

  lemma MulSucc(a: int, k: int)
    ensures (a + 1) * k == a * k + k
  {
  }

  lemma MulLessCancel(a: int, b: int, k: int)
    requires 0 < k && a * k < b * k
    ensures a < b
  {
  }

  /** A slice whose stride was chosen for `n` samples and that spans fewer than `n` has at most 1000 points. */
  lemma FewerThanBudget(count: nat, n: nat, k: nat)
    requires k == Stride(n) && (count - 1) * k < n
    ensures count <= PointBudget
  {
    assert n < PointBudget * k;
    MulLessCancel(count - 1, PointBudget, k);
  }

  /** Downsampling `n` samples with `Stride(n)` yields at most 1000 points. */
  lemma StridedWithinBudget<T>(s: seq<T>, i: nat, j: nat)
    requires i <= j <= |s|
    ensures |Strided(s, i, j, Stride(j - i))| <= PointBudget
  {
    var r := Strided(s, i, j, Stride(j - i));
    if i < j {
      SliceLengthIsCeiling(i, j, Stride(j - i));
      FewerThanBudget(|r|, j - i, Stride(j - i));
    }
  }

  // ---------------------------------------------------------------------------
  // Maximum line and current-power label

  /** The largest buffered power, as Python's `max` gives it. */
  function MaxOf(s: seq<real>): (m: real)
    requires |s| > 0
    ensures exists k :: 0 <= k < |s| && s[k] == m
    ensures forall k :: 0 <= k < |s| ==> s[k] <= m
  {
    if |s| == 1 then s[0]
    else
      var rest := MaxOf(s[1..]);
      if s[0] >= rest then s[0] else rest
  }

  /** Readings above this many watts are shown in mW, the others in uW. */
  const MilliWattThreshold: real := 0.001

  /** The scaled value the big label shows, with its unit. */
  datatype PowerLabel = MilliWatts(mw: real) | MicroWatts(uw: real)

  /** The watts a label stands for. */
  function Watts(l: PowerLabel): real {
    match l
    case MilliWatts(v) => v / 1000.0
    case MicroWatts(v) => v / 1000000.0
  }

  /**
    The label for the newest power: mW exactly when the power exceeds 1e-3 W
    (a reading of exactly 1e-3 W is shown in uW), and the shown value always
    converts back to the reading.
  */
  function LabelFor(p: real): (l: PowerLabel)
    ensures l.MilliWatts? <==> p > MilliWattThreshold
    ensures l.MilliWatts? ==> l.mw > 1.0
    ensures l.MicroWatts? ==> l.uw <= 1000.0
    ensures Watts(l) == p
  {
    if p > MilliWattThreshold then MilliWatts(p * 1000.0) else MicroWatts(p * 1000000.0)
  }

  // ---------------------------------------------------------------------------
  // One rendered frame

  /** What one tick hands to the plots and labels. */
  datatype Frame = Frame(
    zoomedTimes: seq<real>, zoomedPowers: seq<real>,
    overviewTimes: seq<real>, overviewPowers: seq<real>,
    maxPower: real, current: PowerLabel, numVisible: nat)

  /**
    The frame for a crop [i, j) of the buffer: the crop strided to the point
    budget for the zoomed plot, the whole buffer strided for the overview,
    the maximum power, the label of the newest power and the crop's size.
  */
  function FrameOf(times: seq<real>, powers: seq<real>, i: nat, j: nat): (f: Frame)
    requires |times| == |powers| && i <= j <= |times| && 0 < |times|
    ensures |f.zoomedTimes| == |f.zoomedPowers| <= PointBudget
    ensures |f.overviewTimes| == |f.overviewPowers| <= PointBudget
    ensures f.numVisible == j - i
    ensures forall k :: 0 <= k < |powers| ==> powers[k] <= f.maxPower
    ensures exists k :: 0 <= k < |powers| && powers[k] == f.maxPower
    ensures Watts(f.current) == powers[|powers| - 1]
  {
    var zoomStride := Stride(j - i);
    var stride := Stride(|times|);
    StridedWithinBudget(times, i, j);
    StridedWithinBudget(times, 0, |times|);
    Frame(
      Strided(times, i, j, zoomStride), Strided(powers, i, j, zoomStride),
      Strided(times, 0, |times|, stride), Strided(powers, 0, |times|, stride),
      MaxOf(powers), LabelFor(powers[|powers| - 1]), j - i)
  }

  /** The frame of one tick: the buffer cropped to the region by the two scans. */
  function Render(times: seq<real>, powers: seq<real>, lo: real, hi: real): (f: Frame)
    requires |times| == |powers| && lo <= hi && Croppable(times, lo, hi)
    ensures f.numVisible <= |times|
  {
    CropOrdered(times, lo, hi);
    FrameOf(times, powers, CropStart(times, lo), CropEnd(times, hi))
  }

  /**
    The zoomed plot shows, pair by pair, the buffered samples at the start of
    the crop and every `Stride(numVisible)` after it (see SliceIndexIsLinear),
    all of them inside the crop.
  */
  lemma ZoomedSamplesAreBuffered(times: seq<real>, powers: seq<real>, lo: real, hi: real, f: Frame, n: nat)
    requires |times| == |powers| && lo <= hi && Croppable(times, lo, hi)
    requires f == Render(times, powers, lo, hi) && n < |f.zoomedTimes|
    ensures var k := SliceIndex(CropStart(times, lo), n, Stride(f.numVisible));
            && CropStart(times, lo) <= k < CropEnd(times, hi)
            && f.zoomedTimes[n] == times[k] && f.zoomedPowers[n] == powers[k]
  {
    var i, j := CropStart(times, lo), CropEnd(times, hi);
    RenderIsFrameOfCrop(times, powers, lo, hi);
    ZoomedSampleOfCrop(times, powers, i, j, f, n);
  }

  /** On sorted data every zoomed time lies inside the region (its upper end only checked with more than one sample). */
  lemma ZoomedSamplesAreInRegion(times: seq<real>, powers: seq<real>, lo: real, hi: real, f: Frame, n: nat)
    requires |times| == |powers| && lo <= hi && Croppable(times, lo, hi)
    requires Sorted(times)
    requires f == Render(times, powers, lo, hi) && n < |f.zoomedTimes|
    ensures lo <= f.zoomedTimes[n] && (|times| > 1 ==> f.zoomedTimes[n] <= hi)
  {
    ZoomedSamplesAreBuffered(times, powers, lo, hi, f, n);
    CropSelectsRegion(times, lo, hi, SliceIndex(CropStart(times, lo), n, Stride(f.numVisible)));
  }

  /** The frame of a tick is the frame of its crop. */
  lemma RenderIsFrameOfCrop(times: seq<real>, powers: seq<real>, lo: real, hi: real)
    requires |times| == |powers| && lo <= hi && Croppable(times, lo, hi)
    ensures CropStart(times, lo) <= CropEnd(times, hi) <= |times|
    ensures Render(times, powers, lo, hi) == FrameOf(times, powers, CropStart(times, lo), CropEnd(times, hi))
  {
    CropOrdered(times, lo, hi);
  }

  /** The n-th zoomed point of the frame for a crop [i, j) is the buffered pair at i plus n strides, inside the crop. */
  lemma ZoomedSampleOfCrop(times: seq<real>, powers: seq<real>, i: nat, j: nat, f: Frame, n: nat)
    requires |times| == |powers| && i <= j <= |times| && 0 < |times|
    requires f == FrameOf(times, powers, i, j) && n < |f.zoomedTimes|
    ensures var k := SliceIndex(i, n, Stride(f.numVisible));
            && i <= k < j
            && f.zoomedTimes[n] == times[k] && f.zoomedPowers[n] == powers[k]
  {
    var stride := Stride(j - i);
    assert f.zoomedTimes == Strided(times, i, j, stride);
    assert f.zoomedPowers == Strided(powers, i, j, stride);
  }


  /**
    The overview starts at the first sample and shows, pair by pair, the
    samples at 0, s, 2s, ... for the stride s of the whole buffer.
  */
  lemma OverviewSamplesWholeBuffer(times: seq<real>, powers: seq<real>, lo: real, hi: real, f: Frame, n: nat)
    requires |times| == |powers| && lo <= hi && Croppable(times, lo, hi)
    requires f == Render(times, powers, lo, hi) && n < |f.overviewTimes|
    ensures f.overviewTimes[0] == times[0] && f.overviewPowers[0] == powers[0]
    ensures var k := SliceIndex(0, n, Stride(|times|));
            k < |times| && f.overviewTimes[n] == times[k] && f.overviewPowers[n] == powers[k]
  {
    var stride := Stride(|times|);
    RenderIsFrameOfCrop(times, powers, lo, hi);
    assert f.overviewTimes == Strided(times, 0, |times|, stride);
    assert f.overviewPowers == Strided(powers, 0, |times|, stride);
  }

  // ---------------------------------------------------------------------------
  // Text export

  const ExportHeader: string := "Time (s), Power (W)\n"

  /** One exported line: the timestamp, a comma and a space, the power. */
  function ExportRow(show: real -> string, t: real, p: real): string {
    show(t) + ", " + show(p) + "\n"
  }

  /** The rows for the pairs of the two lists, in buffer order, stopping at the shorter list. */
  function ExportRows(show: real -> string, times: seq<real>, powers: seq<real>): string
    decreases |times|
  {
    if |times| == 0 || |powers| == 0 then ""
    else ExportRow(show, times[0], powers[0]) + ExportRows(show, times[1..], powers[1..])
  }

  /** The saved file: the header line, then one row per sample. */
  function Export(show: real -> string, times: seq<real>, powers: seq<real>): (text: string)
    ensures |text| >= |ExportHeader| && text[..|ExportHeader|] == ExportHeader
  {
    ExportHeader + ExportRows(show, times, powers)
  }

  /** Exporting after one more sample adds exactly that sample's row at the end. */
  lemma {:induction false} ExportRowsAppend(show: real -> string, times: seq<real>, powers: seq<real>, t: real, p: real)
    requires |times| == |powers|
    ensures ExportRows(show, times + [t], powers + [p]) == ExportRows(show, times, powers) + ExportRow(show, t, p)
    decreases |times|
  {
    if |times| == 0 {
      assert (times + [t])[1..] == [];
      assert (powers + [p])[1..] == [];
    } else {
      assert (times + [t])[1..] == times[1..] + [t];
      assert (powers + [p])[1..] == powers[1..] + [p];
      ExportRowsAppend(show, times[1..], powers[1..], t, p);
    }
  }

  /** The export is the buffer dump: appending a sample appends its row to the file. */
  lemma ExportAppend(show: real -> string, times: seq<real>, powers: seq<real>, t: real, p: real)
    requires |times| == |powers|
    ensures Export(show, times + [t], powers + [p]) == Export(show, times, powers) + ExportRow(show, t, p)
  {
    ExportRowsAppend(show, times, powers, t, p);
  }

  /** A reset buffer exports the header line alone. */
  lemma ExportEmpty(show: real -> string)
    ensures Export(show, [], []) == ExportHeader
  {
  }
}
