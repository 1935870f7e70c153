# web-audio-lab monitor, modelled in Dafny

This project models the monitor of web-audio-lab (`main.js`). The monitor runs a ten-second
measurement. On every animation frame it reads the analyser's byte spectrum. It takes the
first bin holding the largest value as the peak. It reports that bin's centre frequency and
its value as the strength. It plots both readings against elapsed time on two time-series
charts. At most once every 400 ms it also redraws the whole spectrum as a histogram.

Modules, one file each:

- `Basics` (basics.dfy): the byte type, the four errors the core throws, `Option`/`Result`.
- `Spectrum` (spectrum.dfy): `getIndexOfMax` as a method with a loop. `ArgMax` is its
  reference definition. `analyzeCurrentSound` is a function of the spectrum and the sample rate.
- `Frames` (frames.dfy): `repeatFor`. The animation frames are given as the sequence of
  their timestamps. Frame 0 fixes the start time and is also the first step.
- `Charts` (charts.dfy): `ArrayChartEditor` and `TimeSeriesChartEditor` as classes. A
  canvas is a ghost log of the filled shapes drawn on it since it was last cleared. The log
  uses the y-up coordinates both constructors set up.
- `Session` (session.dfy): the three module-level chart editors as class `Monitor`.
  `Monitor.Tick` is the callback passed to `repeatFor`. `Monitor.Measure` is the measure
  button's click handler. The `Redraws` and `LastDrawTime` functions describe the throttle
  on `lastDrawTimeOfFrequencyDataChart`.

The main theorem is in `Monitor.Measure`'s contract. Both charts are cleared and begun with
the measure time. `repeatFor` only calls back with elapsed times within that time. So no
`drawPoint` in a session throws. The only way a session fails is an empty spectrum, which
makes `getIndexOfMax` throw.

Two details of the code that the model keeps:

- `clear` deactivates a time-series chart but leaves its `timeUpperLimit` as it was
  (main.js:136-141). The next `begin` overwrites it.
- `drawPoint` caps the scaled value only at the top (main.js:161). A negative value is drawn
  below the baseline. `ScaledHeight` states this.

## Model

| member | source | states |
|---|---|---|
| Spectrum.FirstMaxUnique | main.js:255-259 | at most one index is the first maximum, so the strict-`>` scan has a single well-defined answer |
| Spectrum.ArgMax | main.js:250-263 | the scan's reference result on a non-empty array is the first index of the maximum: no element is larger and every earlier element is strictly smaller |
| Spectrum.GetIndexOfMax | main.js:250-263 | throws exactly on an empty array; otherwise returns the first index of the maximum (the tie-break), equal to `ArgMax` |
| Spectrum.AnalyzeCurrentSound | main.js:229-248 | throws exactly on an empty spectrum; otherwise hands back the spectrum unchanged. The strength is at least every bin. Some first-maximum bin gives both the strength (its value) and the frequency (its centre) |
| Spectrum.ReadingAtPeak | main.js:239-242 | for any first-maximum bin `p`, the reading's strength is `data[p]` and its frequency is bin `p`'s centre |
| Spectrum.BinCentre | main.js:230-241 | the frequency formula `0 + (sampleRate/2 - 0)/N*(i+0.5)`; positive for a positive sample rate |
| Spectrum.BinCentreInBin | main.js:230-241 | with a positive sample rate, `(sampleRate/2)/N*(i+0.5)` lies strictly inside bin `i` and strictly between 0 and `sampleRate/2` |
| Spectrum.FrequencyWithinBand | main.js:230-241 | the reported frequency lies strictly between 0 and half the sample rate |
| Spectrum.BinCentreExample | main.js:240-241 | sample rate 48000, 1024 bins, bin 10 gives 246.09375 |
| Spectrum.TieGoesToLowerBin | main.js:255-259 | with equal maxima in bins 10 and 600, the reading is bin 10's: 246.09375 Hz at strength 200 |
| Frames.FirstOvershoot | main.js:272-276 | the first frame from `i` on whose elapsed time exceeds the duration: every frame before it is within the duration |
| Frames.TickCount | main.js:272-278 | how many frames call back: every frame before that count is within the duration of frame 0, and the frame at that count, if any, is past it |
| Frames.TickTimes | main.js:272-278 | one callback argument per calling frame, the k-th being frame k's timestamp minus frame 0's |
| Frames.Resolves | main.js:274-276 | the promise resolves iff some delivered frame is more than the duration after frame 0 |
| Frames.RepeatFor | main.js:265-288 | the callback arguments are exactly `t_k - t_0` for the frames before the first overshoot frame; the promise resolves exactly when such a frame exists |
| Frames.TicksWithinDuration | main.js:273-278 | every callback argument is at most the duration |
| Frames.FirstTickIsZero | main.js:282-285 | for a non-negative duration, the first frame calls back with elapsed time 0 |
| Frames.TicksIncrease | main.js:272-281 | strictly increasing timestamps give strictly increasing, non-negative callback arguments |
| Frames.OvershootIsFinal | main.js:274-276 | after the resolving frame, every later frame is out of bounds too, so no callback could follow resolution |
| Charts.ScaledHeight | main.js:161 | `min(value/limit, 1)*height` is never above the canvas top; it is exactly the top iff value >= limit; it is non-negative for non-negative values and below the baseline for negative ones |
| Charts.PointX | main.js:160 | `time/limit*width` maps `[0, limit]` into `[0, width]`, with 0 at the left edge and the limit at the right edge |
| Charts.PointXMonotone | main.js:160 | a later time is plotted strictly further right |
| Charts.Marker | main.js:160-169 | a marker is a circle of radius 4; for a time within the limit its centre is within the canvas width, and never above the canvas top |
| Charts.Bar | main.js:112-116 | bar `i` stands on the baseline, no taller than the canvas, at full height exactly when the value reaches the limit, and ends at `(i+1)` bar widths |
| Charts.Bars | main.js:113-117 | one bar per element, each standing on the baseline and no taller than the canvas |
| Charts.BarsTileCanvas | main.js:109-117 | `|arr|` bars standing on the baseline, no taller than the canvas, side by side without gap or overlap, spanning exactly the width |
| Charts.ArrayChartEditor.constructor | main.js:93-103 | records the canvas size and the value limit; nothing drawn |
| Charts.ArrayChartEditor.Draw | main.js:105-118 | discards every earlier shape, then leaves exactly the bars of `arr` in order (none for an empty array) |
| Charts.TimeSeriesChartEditor.constructor | main.js:122-134 | inactive, no time limit, nothing drawn |
| Charts.TimeSeriesChartEditor.Clear | main.js:136-141 | from any state: inactive and nothing drawn; the time limit is left as it was |
| Charts.TimeSeriesChartEditor.Begin | main.js:143-150 | while active throws and changes nothing; otherwise becomes active with the given limit, drawings kept |
| Charts.TimeSeriesChartEditor.DrawPoint | main.js:152-171 | throws and draws nothing when inactive or when time > limit; otherwise appends exactly one marker and keeps every earlier one |
| Session.Redraws | main.js:216-219 | the ticks that redraw the histogram are positions among the ticks seen so far |
| Session.LastDrawTime | main.js:203-218 | `lastDrawTimeOfFrequencyDataChart` after `n` ticks is either its initial 0 or at least 400 |
| Session.RedrawStep | main.js:216-218 | one more tick either redraws and makes its elapsed time the last draw time, or leaves both the redraws and the last draw time as they were |
| Session.RedrawsPrefix | main.js:216-219 | whether a tick redraws is settled when it runs; later ticks do not change it |
| Session.RedrawWhenDue | main.js:216-219 | a tick redraws iff its elapsed time is at least 400 past the last redraw before it, or past 0 if there was none |
| Session.RedrawsSpaced | main.js:203-219 | redraws come in tick order; the first is at elapsed time 400 or later; each is at least 400 after the previous |
| Session.SteadyPeakFlatTrace | main.js:204-211 | if every spectrum has its first maximum in the same bin, every reading has that bin's frequency: a flat trace |
| Session.SteadyPeakExample | main.js:240-241 | with 1024 bins at 48000 Hz and the peak in bin 200, the reading's frequency is 4699.21875 Hz |
| Session.SteadyPeakOnTopEdge | main.js:161 | that frequency is above the frequency chart's limit of 2400, so each of its markers is drawn on the chart's top edge |
| Session.FrequencyTrace | main.js:211 | the frequency chart's markers after `n` ticks: one per tick |
| Session.StrengthTrace | main.js:213 | the strength chart's markers after `n` ticks: one per tick |
| Session.FrequencyTraceStep | main.js:211 | one more tick appends exactly its own marker to the frequency trace |
| Session.StrengthTraceStep | main.js:213 | one more tick appends exactly its own marker to the strength trace |
| Session.FrequencyTraceAt | main.js:211 | marker `j` on the frequency chart plots tick `j` against reading `j`'s frequency |
| Session.StrengthTraceAt | main.js:213 | marker `j` on the strength chart plots tick `j` against reading `j`'s strength |
| Session.FrequencyTraceInOrder | main.js:204-211 | with increasing ticks within the measure time, frequency markers lie within the width, never above the top, and run strictly left to right |
| Session.StrengthTraceOnCanvas | main.js:213 | with ticks within the measure time, every strength marker lies on the canvas |
| Session.Monitor.constructor | main.js:174-182 | builds three new editors, each on a canvas of the given size, with limits 255, 2400 and 255; both time-series charts inactive with no time limit and nothing drawn |
| Session.Monitor.Tick | main.js:204-220 | throws exactly on an empty spectrum and draws nothing then. Otherwise plots one frequency and one strength marker. It redraws the histogram with this spectrum, and returns the tick's time as the new last draw time, exactly when 400 ms have passed since the last draw |
| Session.Monitor.RunTicks | main.js:204-220 | runs the callback on the ticks in order, stopping at the first empty spectrum. The charts hold the traces of the completed ticks; the histogram shows the last redraw's spectrum |
| Session.Monitor.Measure | main.js:187-223 | clears and begins both charts with 10000 ms and runs the session. It fails only on an empty spectrum, never in `drawPoint`. It resolves exactly when a frame overshoots. The charts end active with the traces and histogram above |

## Left out

- Audio input (microphone, oscillator with its timer, file playback; main.js:12-64): browser I/O and Web Audio graph wiring. The analyser's output is an input to the model.
- `reflectSettings`, the recommended-value button and the `try`/`alert` around `reflectSettings` in the click handler (main.js:70-86, 191-196): they copy form values onto the analyser and hold no logic.
- Button enabling and disabling, text displays of the readings, `alert` (main.js:189, 212, 214, 222): user-interface glue.
- The Canvas 2D API (`getContext`, the axis flip, `arc`, `fillRect`, `clearRect`): a foreign library. It is represented only by the log of filled shapes in y-up coordinates.
- `requestAnimationFrame` and the Promise: host scheduling. They are replaced by a sequence of frame timestamps. `Pending` stands for a run whose overshoot frame has not been delivered yet.
- `getByteFrequencyData` and the FFT behind it: a foreign call. Each frame's spectrum is an arbitrary sequence of bytes supplied as input.
- IEEE-754 rounding: frequencies and pixel coordinates are Dafny `real`s.
- Session.Monitor.Measure: the callbacks are run in order after the frame loop has chosen the elapsed times, not interleaved with it. The timestamps are inputs and a callback cannot affect them, so the calls are the same.
- Charts.TimeSeriesChartEditor.Begin: requires a positive time limit, which main.js does not check. A zero limit makes `drawPoint` compute NaN or infinite positions, which `real` cannot express. Negative limits are excluded so that the `[0, limit]` to `[0, width]` contracts hold. The only caller passes 10000.
- Charts.ArrayChartEditor.constructor, Charts.TimeSeriesChartEditor.constructor: require a positive value limit. Zero gives NaN or Infinity heights. Negative limits are excluded so that the height bounds hold. The callers pass 255 and 2400.
- Charts.ArrayChartEditor.Draw: takes bytes, not any numeric array. Its only caller passes the analyser's Uint8Array (main.js:217). So the model cannot show a negative value drawn below the baseline, though `draw` would do that as `drawPoint` does.
- Spectrum.GetIndexOfMax: works on a sequence rather than the Uint8Array it is given. It only reads the array.
