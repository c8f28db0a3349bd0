/**
  The live plot window of one power meter: the parallel timestamp and power
  lists it appends to in place, the visible region of its overview plot, and
  whether its polling timer is running. One timer tick reads the meter,
  extends the region, crops and downsamples the buffer and produces a Frame.
*/
module PlotWindow {
  import opened Options
  import opened Samples

  /** The forward crop scan: step `i` while the sample is before `lo`. */
  method ScanStart(times: seq<real>, lo: real) returns (i: nat)
    requires exists m :: 0 <= m < |times| && lo <= times[m]
    ensures i == CropStart(times, lo)
  {
    i := 0;
    while times[i] < lo
      invariant i <= CropStart(times, lo)
      invariant forall k :: 0 <= k < i ==> times[k] < lo
      decreases |times| - i
    {
      i := i + 1;
    }
  }

  /**
    The backward crop scan: with more than one sample, step `j` down while the
    sample before it is after `hi`; a single sample is never scanned.
  */
  method ScanEnd(times: seq<real>, hi: real) returns (j: nat)
    requires |times| <= 1 || exists m :: 0 <= m < |times| && times[m] <= hi
    ensures j == CropEnd(times, hi)
  {
    j := |times|;
    if j > 1 {
      while hi < times[j - 1]
        invariant CropEnd(times, hi) <= j <= |times|
        invariant forall k :: j <= k < |times| ==> hi < times[k]
        decreases j
      {
        j := j - 1;
      }
    }
  }

  /** The crop and downsampling of one tick, as the window computes them with its two scans. */
  method Downsample(times: seq<real>, powers: seq<real>, lo: real, hi: real) returns (frame: Frame)
    requires |times| == |powers| && lo <= hi && Croppable(times, lo, hi)
    ensures frame == Render(times, powers, lo, hi)
  {
    var i := ScanStart(times, lo);
    var j := ScanEnd(times, hi);
    CropOrdered(times, lo, hi);
    frame := FrameOf(times, powers, i, j);
  }

  class PowerMeterPlot {
    var timeData: seq<real>
    var powerData: seq<real>
    var minX: real
    var maxX: real
    /** The polling timer is running. */
    var polling: bool
    /** The start/stop button is checked (shows STOPPED). */
    var stopped: bool

    ghost predicate Valid()
      reads this
    {
      |timeData| == |powerData| && Sorted(timeData) && minX <= maxX
    }

    /** A fresh window: empty lists, the region item's initial [0, 1], the timer started. */
    constructor ()
      ensures Valid()
      ensures timeData == [] && powerData == []
      ensures minX == 0.0 && maxX == 1.0
      ensures polling && !stopped
    {
      timeData, powerData := [], [];
      minX, maxX := 0.0, 1.0;
      polling, stopped := true, false;
    }

    /** A read that fails stops the timer (the button then shows Disconnected). */
    method TryRead(reading: Option<real>) returns (pow: Option<real>)
      modifies this`polling
      ensures pow == reading
      ensures polling == (old(polling) && reading.Some?)
    {
      if reading.None? {
        polling := false;
      }
      pow := reading;
    }

    /** The tick's region, judged against the buffer before the read. */
    method ExtendRegion(now: real) returns (lo: real, hi: real)
      ensures Region(lo, hi) == Extend(timeData, Region(minX, maxX), now)
    {
      lo, hi := minX, maxX;
      if |timeData| > 0 {
        if lo < timeData[0] {
          lo := timeData[0];
          hi := now;
        } else if hi >= timeData[|timeData| - 1] {
          hi := now;
        }
      }
    }

    /** The read-and-append step of a tick: a truthy reading is appended with the time `now`. */
    method Record(now: real, reading: Option<real>)
      requires Valid() && (|timeData| > 0 ==> Last(timeData) <= now)
      modifies this`timeData, this`powerData, this`polling
      ensures Valid()
      ensures timeData == TimesAfter(old(timeData), now, reading)
      ensures powerData == PowersAfter(old(powerData), reading)
      ensures polling == (old(polling) && reading.Some?)
    {
      var pow := TryRead(reading);
      if pow.Some? && pow.value != 0.0 {
        timeData := timeData + [now];
        powerData := powerData + [pow.value];
      }
    }

    /**
      One timer tick at time `now` with the meter's answer `reading` (None
      when the read raised). The region is extended against the buffer as it
      was before the read, a truthy reading is appended, and the frame of the
      new buffer and region is produced.
    */
    method Update(now: real, reading: Option<real>) returns (frame: Frame)
      requires Valid() && polling
      requires |timeData| > 0 ==> Last(timeData) <= now
      requires var e := Extend(timeData, Region(minX, maxX), now);
               Croppable(TimesAfter(timeData, now, reading), e.lo, e.hi)
      modifies this
      ensures Valid()
      ensures Region(minX, maxX) == Extend(old(timeData), Region(old(minX), old(maxX)), now)
      ensures timeData == TimesAfter(old(timeData), now, reading)
      ensures powerData == PowersAfter(old(powerData), reading)
      ensures polling == reading.Some? && stopped == old(stopped)
      ensures frame == Render(timeData, powerData, minX, maxX)
    {
      var lo, hi := ExtendRegion(now);
      ExtendKeepsOrder(timeData, Region(minX, maxX), now, reading);
      Record(now, reading);
      frame := Downsample(timeData, powerData, lo, hi);
      minX, maxX := lo, hi;
    }

    /** Double-clicking the overview sets the region to the whole buffer. */
    method MouseDoubleClick()
      requires Valid()
      modifies this`minX, this`maxX
      ensures Valid()
      ensures |timeData| > 0 ==> minX == timeData[0] && maxX == Last(timeData)
      ensures |timeData| == 0 ==> minX == old(minX) && maxX == old(maxX)
    {
      if |timeData| > 0 {
        minX, maxX := timeData[0], timeData[|timeData| - 1];
      }
    }

    /** The Reset button empties both lists; the region and the timer are left as they are. */
    method Reset()
      requires Valid()
      modifies this`timeData, this`powerData
      ensures Valid()
      ensures timeData == [] && powerData == []
    {
      timeData := [];
      powerData := [];
    }

    /** The start/stop button toggles its checked state and starts or stops the timer to match. */
    method StartStop()
      modifies this`stopped, this`polling
      ensures stopped == !old(stopped)
      ensures polling == !stopped
    {
      stopped := !stopped;
      if !stopped {
        polling := true;
      } else {
        polling := false;
      }
    }
  }

  /** After a double-click, the next tick follows the live edge from the first sample. */
  lemma DoubleClickThenTickTracksLiveEdge(times: seq<real>, now: real)
    requires |times| > 0
    ensures Extend(times, Region(times[0], Last(times)), now) == Region(times[0], now)
  {
  }
}
