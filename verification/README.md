# Thorlabs power meter plotter — a Dafny model

This project models the decision logic of a live power-meter plotter and of its Windows driver wrapper.

- **The plot window.** `PowerMeterPlot` keeps two parallel lists, timestamps and powers, and a visible region `[minX, maxX]` of its overview plot. On every timer tick it:
  - extends the region to follow the live edge;
  - appends a truthy reading;
  - crops the buffer to the region with two index scans;
  - downsamples both the zoomed series and the overview series to at most 1000 points with an integer stride;
  - labels the newest power in mW or µW.

  Double-clicking resets the region to the whole buffer, and Reset empties the lists.
- **The supervisor window.** `PowerMeterTracker` keeps a list of discovered ports, each with a check box and the handle of a plot process. On every tick it lists new ports, applies a start/restart/kill table to each listed port, and prunes ports that are gone.
- **The Windows driver wrapper.** `PM100D`:
  - clamps requested settings to the range the device reports;
  - gates features by meter model;
  - decodes sensor type, subtype and flag codes into text;
  - narrows the class-level device lists to one entry on connect;
  - rebuilds those lists on a device scan.

The modules are as follows.

- `Options` (options.dfy): the `Option` type. A `None` reading is a read that raised.
- `Samples` (samples.dfy): the functions that specify one tick. These cover:
  - what a read appends;
  - the region rule;
  - the crop bounds;
  - the strided slice with Python's `s[i:j:k]` meaning;
  - the point budget, the maximum and the unit label;
  - the text export.
- `PlotWindow` (plot_window.dfy): the `PowerMeterPlot` class and its crop scans, each proved equal to the `Samples` functions.
- `Tracker` (tracker.dfy): the reconciliation table, the per-port pass and the prune, with the `PowerMeterTracker` class whose loops are proved against them.
- `PM100` (pm100_windows.dfy): the `PM100D` class (one wrapper object) and the `DriverRegistry` class (the wrapper's class-level lists), with the decode tables as functions.

Modelling conventions:

- **Values.** Timestamps and powers are `real`. They are mostly compared; the only arithmetic is the label's scaling by 1e3 or 1e6, which is exact in the model and only approximate in the program's floating point.
- **Readings.** A reading is stored exactly when it is `Some(p)` with `p != 0`, which is Python's truthiness of a float.
- **Driver calls.** Every value the driver would return is a parameter of the method that asks for it. Every value sent to the driver is a result.
- **Processes.** A plot process is an abstract handle: `NoProcess`, `Alive` or `Dead`.
- **Flag arithmetic.** Python's `%` with a positive modulus agrees with Dafny's Euclidean `%`, so the flag decode runs on `int` unchanged.

Where the documented behaviour and the code disagree, the model follows the code:

- **Reset keeps the region.** The Reset button empties the two lists and resets the labels, but it does not touch the region (plot.py:298-302).
- **The unit threshold is strict.** The unit label uses mW only when the newest power is strictly greater than 1e-3 (plot.py:123). So exactly 1e-3 and 5e-4 are both shown in µW.

## Model

| member | source | states |
|---|---|---|
| Samples.TimesAfter | plot.py:99-101 | a truthy reading appends exactly `now` to the timestamps; a failed or zero reading appends nothing; appending a time not before the last keeps the list sorted |
| Samples.PowersAfter | plot.py:99-102 | a truthy reading appends exactly its value to the powers; otherwise the powers are unchanged |
| Samples.ReadKeepsListsParallel | plot.py:99-102 | the two lists keep equal lengths, growing by one exactly when the reading is accepted |
| Samples.Extend | plot.py:90-96 | region rule on the buffer before the read: unchanged on an empty buffer; a region starting before the first sample becomes [first sample, now]; otherwise a region reaching the last sample has its end moved to now; otherwise it is unchanged; the start is never before the first sample |
| Samples.ExtendKeepsOrder | plot.py:90-111 | when the buffer after the read has a sample at or after the new start, a tick never inverts the region |
| Samples.LiveEdgeKeepsTracking | plot.py:90-96 | a region from the first sample to at least the last sample follows the live edge: it becomes [first sample, now] |
| Samples.ManualPinIsStable | plot.py:90-96 | a region inside the buffer ending before the last sample is left alone by every tick |
| Samples.CropStart | plot.py:105-108 | the lower crop index: the sample there is at least minX and every sample before it is below minX |
| Samples.CropEnd | plot.py:106-111 | the upper crop index: the buffer length when it has at most one sample; otherwise the sample before it is at most maxX and every sample from it on is above maxX |
| Samples.CropOrdered | plot.py:104-116 | for a non-inverted region the lower crop index is not past the upper one, so the visible count is never negative |
| Samples.CropSelectsRegion | plot.py:104-111 | on sorted data an index is inside the crop exactly when its time is at least minX and, for more than one sample, at most maxX |
| Samples.Stride | plot.py:114-115 | the stride `n // 1000 + 1` is at least one |
| Samples.SliceLength | plot.py:117 | the length of `s[i:j:k]` is positive exactly when i < j |
| Samples.SliceLengthIsCeiling | plot.py:117 | that length is the ceiling of (j - i) / k |
| Samples.SliceIndexIsLinear | plot.py:117 | the n-th index of a strided slice is i + n * k |
| Samples.Strided | plot.py:117-119 | `s[i:j:k]`: element n is the sample at index i + n * k, every such index is below j, values are copied and never combined |
| Samples.StridedWithinBudget | plot.py:114-119 | a series sliced with the stride computed from its own length has at most 1000 points |
| Samples.MaxOf | plot.py:118 | the maximum line is a buffered power and no buffered power exceeds it |
| Samples.LabelFor | plot.py:121-125 | the label is in mW exactly when the power is strictly greater than 1e-3, and in µW otherwise; a mW value is above 1, a µW value at most 1000, and the label denotes the power itself |
| Samples.FrameOf | plot.py:113-127 | for crop bounds i <= j: both series are within the point budget, the visible count is j - i, the maximum is the buffer maximum, and the label shows the newest power |
| Samples.Render | plot.py:104-127 | the frame of a buffer and region never counts more visible samples than the buffer holds |
| Samples.ZoomedSamplesAreBuffered | plot.py:105-117 | the n-th zoomed point is the buffered pair at the lower crop index plus n strides, and that index lies inside the crop |
| Samples.ZoomedSamplesAreInRegion | plot.py:105-117 | on sorted data every zoomed time lies inside the region (its upper end checked only with more than one sample) |
| Samples.OverviewSamplesWholeBuffer | plot.py:114-119 | the overview starts at the first sample, and its n-th point is the sample at n times the whole-buffer stride |
| Samples.Export | plot.py:358-361 | the saved text starts with the header line `Time (s), Power (W)` |
| Samples.ExportRowsAppend | plot.py:360-361 | the rows are written in buffer order: one more sample appends exactly its `t, p` line |
| Samples.ExportAppend | plot.py:358-361 | saving after one more sample gives the earlier text followed by that sample's line |
| Samples.ExportEmpty | plot.py:358-361 | an empty buffer saves just the header |
| PlotWindow.ScanStart | plot.py:104-108 | the forward scan stops at the lower crop index |
| PlotWindow.ScanEnd | plot.py:106-111 | the backward scan, skipped for at most one sample, stops at the upper crop index |
| PlotWindow.Downsample | plot.py:104-127 | the two scans and the slicing produce exactly the frame of the buffer and region |
| PlotWindow.PowerMeterPlot.constructor | plot.py:60-69 | a new window has empty parallel lists, the region item's initial [0, 1], and its timer running |
| PlotWindow.PowerMeterPlot.TryRead | plot.py:71-84 | the reading is passed through, and a failed read stops the timer |
| PlotWindow.PowerMeterPlot.ExtendRegion | plot.py:88-96 | the step-by-step region update computes the region rule |
| PlotWindow.PowerMeterPlot.Record | plot.py:98-102 | the read-and-append step: the lists grow by the accepted reading and stay parallel and sorted, and a failed read stops the timer |
| PlotWindow.PowerMeterPlot.Update | plot.py:86-132 | one tick: the region follows the rule on the old buffer, the lists grow by the accepted reading and stay parallel and sorted, a failed read stops polling, and the frame is the one for the new buffer and region |
| PlotWindow.PowerMeterPlot.MouseDoubleClick | plot.py:135-137 | the region becomes the whole buffer's span; an empty buffer leaves it unchanged |
| PlotWindow.PowerMeterPlot.Reset | plot.py:298-302 | both lists become empty and nothing else changes |
| PlotWindow.PowerMeterPlot.StartStop | plot.py:274-284 | the button toggles, and the timer runs exactly when it is not checked |
| PlotWindow.DoubleClickThenTickTracksLiveEdge | plot.py:90-96 | after a double-click the next tick extends the region to the new time |
| Tracker.Reconcile | plot.py:503-527 | each row of the decision table: a checked box without a process, or (auto) whose process died, spawns one and holds it alive; a dead process in manual mode is killed and the box cleared; an unchecked box with a handle is killed and the handle dropped; an idle unchecked box is checked in auto mode and left alone in manual mode. Each outcome is settled, a spawn happens exactly when a handle becomes alive, a kill exactly when a handle is dropped, and the box changes only in those two cases |
| Tracker.ManualDecisionIsFinal | plot.py:503-527 | in manual mode a second tick on a decided entry changes nothing and issues nothing |
| Tracker.AutoLaunchesEveryPort | plot.py:503-527 | in auto mode any entry is checked and running after three ticks |
| Tracker.IndexOf | plot.py:497 | the first entry with the exact name, or the list length when there is none |
| Tracker.FindItem | plot.py:497 | the lookup loop returns that first matching entry |
| Tracker.Visit | plot.py:495-527 | an unlisted port is appended unchecked and idle and issues nothing; a listed one is replaced by its decision and issues exactly the decision's commands, and every other entry is kept |
| Tracker.PassCommandsNamePorts | plot.py:495-527 | every command a pass issues is for one of the ports it visited |
| Tracker.ApplyPortsExtends | plot.py:495-527 | a pass only updates or appends entries; it never removes or reorders the ones already listed |
| Tracker.EveryPortListed | plot.py:495-500 | after the pass every discovered port has an entry |
| Tracker.ApplyPortsKeepsDistinct | plot.py:497-500 | entry names stay distinct |
| Tracker.VisitedEntriesSettled | plot.py:503-527 | with distinct names, every entry whose port was visited ends the pass settled: no dead handle, and no process behind an unchecked box |
| Tracker.Prune | plot.py:530-541 | the entries kept are exactly those whose port is still present or, on Windows, whose process is alive |
| Tracker.PruneKeepsListed | plot.py:530-541 | an entry for a port that is still present survives the pruning |
| Tracker.TickListsExactlyThePorts | plot.py:495-541 | after a tick every present port is listed, and an entry remains for a missing port only on Windows with a live process |
| Tracker.ManageablePorts | plot.py:487-492 | on Windows the ports considered are exactly the resources whose serial number is not "n/a" |
| Tracker.KillAll | plot.py:470-475 | shutdown only kills, and kills exactly the entries holding a handle |
| Tracker.PowerMeterTracker.constructor | plot.py:418-468 | manual mode, and the first tick has run over the ports discovered then: every one is listed, unchecked and idle, and nothing else is listed |
| Tracker.ManualPassOverIdleEntries | plot.py:495-527 | a manual-mode pass over entries that are all unchecked and idle issues no command and leaves every entry idle, so the first tick starts nothing |
| Tracker.PruneKeepsDistinct | plot.py:530-541 | removing entries keeps the remaining names distinct |
| Tracker.PowerMeterTracker.ToggleAuto | plot.py:436-437 | the Auto button flips the mode |
| Tracker.PowerMeterTracker.Shutdown | plot.py:470-475 | the loop issues exactly the shutdown kills |
| Tracker.PowerMeterTracker.VisitPorts | plot.py:495-527 | the port loop computes the pass over all ports |
| Tracker.PowerMeterTracker.PruneGone | plot.py:530-541 | the reversed removal loop leaves exactly the pruned list |
| Tracker.PowerMeterTracker.MainLoop | plot.py:477-541 | one tick: the entries become the pruned result of the pass, and the commands are the pass's; names stay distinct, and every entry for a discovered port is settled afterwards |
| PM100.Clamped | windows/PM100_Windows.py:160-172 | a request inside [min, max] is kept, one below min becomes min, one above max becomes max, so the result lies in [min, max] when min <= max (with min > max the maximum wins) |
| PM100.ClampStep | windows/PM100_Windows.py:160-172 | the setters' in-range test, raise and cap compute the clamp |
| PM100.PM100D.SetAverageTime | windows/PM100_Windows.py:156-178 | the device range is stored, the clamped request is sent and stored as the current value |
| PM100.PM100D.SetWaveLength | windows/PM100_Windows.py:199-220 | the same for the wavelength |
| PM100.PM100D.SetPowerRange | windows/PM100_Windows.py:232-253 | the same for the power range |
| PM100.PM100D.SetDispBrightness | windows/PM100_Windows.py:261-284 | the brightness range is the constant [0.0, 1.0], not read from the device; the request is clamped to it |
| PM100.PM100D.SetAttenuation | windows/PM100_Windows.py:292-323 | on PM100D, PM100A, PM100USB, PM200 and PM400 the clamped request is sent and stored; other models send nothing and keep the attenuation fields |
| PM100.GatingNested | windows/PM100_Windows.py:293 | dark adjustment models lie inside attenuation models, which lie inside voltage models; voltage adds only the PM160T |
| PM100.SensorTypeName | windows/PM100_Windows.py:349-405 | exactly the codes 0 to 3 are known types |
| PM100.SensorTypeRoundTrip | windows/PM100_Windows.py:349-405 | every known type name encodes back to its code |
| PM100.SensorSubTypeName | windows/PM100_Windows.py:349-405 | a subtype is known only under a known type: 0 under type 0; 1, 2 and 0x12 under types 1 to 3; 3 only under type 1 |
| PM100.SensorSubTypeNamesDistinct | windows/PM100_Windows.py:349-405 | under one type, distinct known subtypes decode to distinct names |
| PM100.KindText | windows/PM100_Windows.py:407-418 | the low nibble adds text exactly for 1 and 2 |
| PM100.SettableText | windows/PM100_Windows.py:420-433 | the second nibble adds text exactly for 0x10, 0x20 and 0x40, so a combination adds nothing |
| PM100.TemperatureText | windows/PM100_Windows.py:435-442 | the third nibble adds text exactly for 0x100 |
| PM100.FlagNibbles | windows/PM100_Windows.py:407-442 | the subtract-and-remainder steps read the flags nibble by nibble |
| PM100.FlagHighBitsIgnored | windows/PM100_Windows.py:407-442 | bits above 0xFFF never change the flag text |
| PM100.FlagExamples | windows/PM100_Windows.py:407-442 | 0x111 reads as power sensor, responsivity settable, temperature sensor; 0x31 as power sensor only |
| PM100.PM100D.GetSensorInfo | windows/PM100_Windows.py:336-453 | the three descriptions are stored; a known type or subtype replaces the stored name and an unknown one keeps it; the flag text is appended to the existing flags and never reset |
| PM100.PowerUnitName | windows/PM100_Windows.py:459-465 | exactly unit codes 0 (W) and 1 (dBm) are known |
| PM100.PM100D.UpdatePowerReading | windows/PM100_Windows.py:455-465 | the power reading is stored; a known unit code sets the unit, an unknown one keeps the previous unit |
| PM100.PM100D.UpdateVoltageReading | windows/PM100_Windows.py:467-487 | on the attenuation models plus PM160T a successful reading is stored in volts; otherwise, or when the read raises, nothing changes |
| PM100.PM100D.DarkAdjust | windows/PM100_Windows.py:489-498 | only a PM400 starts dark adjustment, then polls the state until the first reply saying it finished |
| PM100.PM100D.GetDarkOffset | windows/PM100_Windows.py:500-507 | only a PM400 stores the dark offset, in volts; other models change nothing |
| PM100.FirstIndex | windows/PM100_Windows.py:96 | `list.index`: the first position of the name, present exactly when the name is listed |
| PM100.PM100D.constructor | windows/PM100_Windows.py:36-79 | a new object is unconnected, with nothing read and empty flags |
| PM100.PM100D.Narrowed | windows/PM100_Windows.py:88-104 | the copy keeps every field, is connected to the name and holds one entry of each list |
| PM100.PM100D.Connect | windows/PM100_Windows.py:86-111 | a copy is returned exactly when this object is unconnected, the session opens and the name is listed. The copy is connected to the name and narrowed to the name's first entry in the four lists. A connected object gets no copy and keeps its state; an unconnected one stays unconnected |
| PM100.PM100D.ConnectForce | windows/PM100_Windows.py:113-136 | the same without the connected check; on success this object is marked unconnected |
| PM100.PM100D.Disconnect | windows/PM100_Windows.py:138-154 | the connected flag is cleared exactly when it was set and the driver released the session |
| PM100.PM100D.SetTimeoutValue | windows/PM100_Windows.py:186-191 | the timeout is sent and kept |
| PM100.PM100D.GetTimeoutValue | windows/PM100_Windows.py:193-197 | the reported timeout is kept |
| PM100.ReadBack | windows/PM100_Windows.py:222-226 | reading a setting back keeps its range and stores the reported number |
| PM100.ReadBackAsWritten | windows/PM100_Windows.py:180-184 | as written, the getter stores the driver's whole reply, the pair (status, value), in place of the setting; the range is kept |
| PM100.ReadBackAsWrittenIsNotNumeric | windows/PM100_Windows.py:180-184 | after that getter the setting no longer holds a number |
| PM100.PM100D.GetAverageTime | windows/PM100_Windows.py:180-184 | the average time is read back (corrected, see Findings) |
| PM100.PM100D.GetWaveLength | windows/PM100_Windows.py:222-226 | the wavelength is read back |
| PM100.PM100D.GetPowerRange | windows/PM100_Windows.py:255-259 | the power range is read back (corrected, see Findings) |
| PM100.PM100D.GetDispBrightness | windows/PM100_Windows.py:286-290 | the brightness is read back (corrected, see Findings) |
| PM100.PM100D.GetAttenuation | windows/PM100_Windows.py:325-334 | on the attenuation models the attenuation is read back (corrected, see Findings); other models change nothing |
| PM100.DriverRegistry.constructor | windows/PM100_Windows.py:27-31 | the class lists start empty with a zero count |
| PM100.DriverRegistry.ListDevices | windows/PM100_Windows.py:535-564 | the count is stored; the four lists are cleared and refilled with one entry per index, in index order (empty for a count of zero or less); a fresh unconnected object is returned |

## Left out

- Qt and pyqtgraph are not modelled: widget construction, curves, styling, layout, file dialogs and the file write. The export is kept as a pure text function, with `show` standing for Python's `str` of a float.
- Clamping of the region by the region item's bounds (plot.py:129-130) is not modelled, because that behaviour lives in pyqtgraph. The model keeps the region rule's result as the next region.
- PlotWindow.PowerMeterPlot.Update: its preconditions exclude the paths where the program crashes:
  - an empty buffer at the lower scan;
  - no sample at or after minX;
  - no sample at or before maxX when there are two or more samples. There, Python's negative indexing would scan on.
  - an inverted region (minX > maxX), where the visible count can be zero or negative. At zero the tick completes; below zero the stride is 0 and slicing raises, or, from -1001 down, the stride is negative and slicing runs backwards. The region rule never produces one (Samples.CropOrdered, Samples.ExtendKeepsOrder).

  The preconditions also require `now` to be no earlier than the last timestamp, because the model has no clock.
- Clocks, `time.sleep`, the frame counter and the one-second wait for a process to come alive are not modelled. A spawned process is treated as alive at once.
- Spawning, polling and killing processes are not modelled. They are reduced to a three-valued handle and a list of `Spawn` and `Kill` commands. Check-box clicks and process deaths have no operation in the model. The contract of Tracker.PowerMeterTracker.MainLoop holds for whatever entries it is given, so it covers any such change between ticks.
- On systems other than Windows, "the device file exists" is modelled as "the port is among those discovered in this tick".
- Tracker.PowerMeterTracker.MainLoop: takes the discovered ports as a parameter rather than scanning. On Windows that list is the scan filtered by Tracker.ManageablePorts; elsewhere it is the globbed device files.
- The .NET interop, the `TLPM` constructor and every driver call are parameters. The driver's status codes are ignored, as the wrapper ignores them.
- PM100.PM100D.Connect: requires an object without a selection (such as a scan result) or a connected one. On a connected copy that has been disconnected, the four lists are strings and `index` becomes a substring search, which is not modelled.
- PM100.PM100D.ConnectForce: requires an object without a selection, for the same reason; it has no connected check, so a connected copy would reach the same substring search.
- Connect and ConnectForce: the session opened for the copy is not modelled as a resource, so a session left open when the name is not listed is not represented.
- PM100.PM100D.DarkAdjust: requires a PM400's device to eventually report the adjustment finished. The wrapper would otherwise poll forever.
- `setPowerAutoRange` only forwards its argument to the driver and keeps nothing, so it has no model.
- The library path handling, driver loading and logging `print` of the wrapper are not modelled, nor either `__main__` block.
- String formatting is not modelled: two decimals and the thousands separator in the labels. Only the mW or µW choice is kept.
- The Linux USBTMC transport and the `forkPlot`/`initPowermeter` process bodies are not modelled. They are not part of this model.

## Findings

| source | as written | input that shows it | evidently intended | confidence | as-written member | corrected member |
|---|---|---|---|---|---|---|
| windows/PM100_Windows.py:180-184 | `getAverageTime` stores the driver's whole `(status, value)` reply in `averageTimeSet` | any reply, e.g. status 0 and value 0.01: the attribute holds the pair, not 0.01 | unpack the value, as `getWaveLength` and every setter do | high, not executed | PM100.ReadBackAsWritten | PM100.ReadBack |
| windows/PM100_Windows.py:255-259 | `getPowerRange` stores the whole reply in `powerRangeSet` | any reply | unpack the value | high, not executed | PM100.ReadBackAsWritten | PM100.ReadBack |
| windows/PM100_Windows.py:286-290 | `getDispBrightness` stores the whole reply in `brightnessSet` | any reply | unpack the value | high, not executed | PM100.ReadBackAsWritten | PM100.ReadBack |
| windows/PM100_Windows.py:325-334 | `getAttenuation` stores the whole reply in `attenuationSet` | any reply on a PM100D | unpack the value | high, not executed | PM100.ReadBackAsWritten | PM100.ReadBack |
