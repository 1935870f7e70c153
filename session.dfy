/**
 * The measurement session started by the measure button: the three module-level chart
 * editors and the click handler that clears and begins both time-series charts, then plots
 * one reading per frame for ten seconds and redraws the spectrum histogram at most every 400 ms.
 */
module Session {
  import opened Basics
  import opened Spectrum
  import opened Frames
  import opened Charts

  /** Length of a measurement, in milliseconds (10 * 1000). */
  const MeasureTime: real := 10000.0

  /** Minimum elapsed time between two redraws of the spectrum histogram, in milliseconds. */
  const RedrawInterval: real := 400.0

  /** Value upper limits the three charts are built with. */
  const FrequencyDataLimit: real := 255.0
  const FrequencyLimit: real := 2400.0
  const StrengthLimit: real := 255.0

  /**
   * Positions, among the first `n` ticks, of those that redraw the histogram: a tick redraws
   * when its elapsed time is at least RedrawInterval past the previous redraw, or past 0 when
   * there was none.
   */
  function Redraws(ticks: seq<real>, n: nat): (r: seq<nat>)
    requires n <= |ticks|
    ensures forall j :: 0 <= j < |r| ==> r[j] < n
    decreases n, 1
  {
    if n == 0 then []
    else
      var earlier := Redraws(ticks, n - 1);
      if ticks[n - 1] - LastDrawTime(ticks, n - 1) >= RedrawInterval then earlier + [n - 1]
      else earlier
  }

  /** The value of lastDrawTimeOfFrequencyDataChart after the first `n` ticks. */
  function LastDrawTime(ticks: seq<real>, n: nat): (r: real)
    requires n <= |ticks|
    ensures r == 0.0 || r >= RedrawInterval
    decreases n, 2
  {
    var r := Redraws(ticks, n);
    if |r| == 0 then 0.0
    else
      // the last redraw is either tick n - 1, due at least RedrawInterval after the previous
      // draw time, or an earlier one, whose draw time the first n - 1 ticks already had
      assert r[|r| - 1] != n - 1 ==> r == Redraws(ticks, n - 1);
      ticks[r[|r| - 1]]
  }

  /**
   * One more tick: when due it redraws and its elapsed time becomes the last draw time;
   * otherwise both are as they were.
   */
  lemma RedrawStep(ticks: seq<real>, k: nat)
    requires k < |ticks|
    ensures ticks[k] - LastDrawTime(ticks, k) >= RedrawInterval ==>
      Redraws(ticks, k + 1) == Redraws(ticks, k) + [k] && LastDrawTime(ticks, k + 1) == ticks[k]
    ensures ticks[k] - LastDrawTime(ticks, k) < RedrawInterval ==>
      Redraws(ticks, k + 1) == Redraws(ticks, k) && LastDrawTime(ticks, k + 1) == LastDrawTime(ticks, k)
  {
  }

  /** A decision about tick `k` is final: later ticks neither add nor remove it. */
  lemma {:induction false} RedrawsPrefix(ticks: seq<real>, k: nat, n: nat)
    requires k < n <= |ticks|
    ensures k in Redraws(ticks, n) <==> k in Redraws(ticks, k + 1)
    decreases n
  {
    if n > k + 1 {
      RedrawsPrefix(ticks, k, n - 1);
    }
  }

  /**
   * A tick redraws the histogram exactly when its elapsed time is at least RedrawInterval past
   * the last redraw before it (or past 0 if there was none).
   */
  lemma RedrawWhenDue(ticks: seq<real>, k: nat)
    requires k < |ticks|
    ensures k in Redraws(ticks, |ticks|) <==> ticks[k] - LastDrawTime(ticks, k) >= RedrawInterval
  {
    RedrawsPrefix(ticks, k, |ticks|);
  }

  /**
   * Redraws come in tick order; the first is at elapsed time RedrawInterval or later, and
   * each later one at least RedrawInterval after the one before.
   */
  lemma {:induction false} RedrawsSpaced(ticks: seq<real>, n: nat)
    requires n <= |ticks|
    ensures var r := Redraws(ticks, n);
      (|r| > 0 ==> ticks[r[0]] >= RedrawInterval) &&
      (forall j :: 0 < j < |r| ==> r[j - 1] < r[j] && ticks[r[j]] - ticks[r[j - 1]] >= RedrawInterval)
    decreases n
  {
    if n > 0 {
      RedrawsSpaced(ticks, n - 1);
    }
  }

  /**
   * The scenario of a steady tone: every spectrum has N bins and its first maximum in bin
   * `peak`, so every reading reports that bin's centre and the frequency trace is flat.
   */
  lemma SteadyPeakFlatTrace(spectra: seq<seq<Byte>>, sampleRate: real, binCount: nat, peak: nat)
    requires forall k :: 0 <= k < |spectra| ==> |spectra[k]| == binCount && IsFirstMax(spectra[k], peak)
    ensures forall k :: 0 <= k < |spectra| ==>
      AnalyzeCurrentSound(spectra[k], sampleRate).Ok? &&
      AnalyzeCurrentSound(spectra[k], sampleRate).value.frequency == BinCentre(sampleRate, binCount, peak)
  {
    forall k | 0 <= k < |spectra|
      ensures AnalyzeCurrentSound(spectra[k], sampleRate).Ok?
      ensures AnalyzeCurrentSound(spectra[k], sampleRate).value.frequency == BinCentre(sampleRate, binCount, peak)
    {
      ReadingAtPeak(spectra[k], sampleRate, peak);
    }
  }

  /** With 1024 bins at 48000 Hz and a steady peak in bin 200, the reading's frequency is 4699.21875 Hz. */
  lemma SteadyPeakExample()
    ensures BinCentre(48000.0, 1024, 200) == 4699.21875
  {
  }

  /**
   * That frequency is above the frequency chart's limit of 2400, so every marker of the steady
   * trace sits on the chart's top edge.
   */
  lemma SteadyPeakOnTopEdge(time: real, width: nat, height: nat)
    ensures Marker(time, BinCentre(48000.0, 1024, 200), MeasureTime, FrequencyLimit, width, height).cy
      == height as real
  {
    SteadyPeakExample();
  }

  /**
   * The markers the first `n` ticks plot on the frequency chart: elapsed time against the
   * frequency of the reading.
   */
  ghost function FrequencyTrace(sampleRate: real, ticks: seq<real>, spectra: seq<seq<Byte>>, n: nat,
                                width: nat, height: nat): (t: seq<Shape>)
    requires n <= |ticks| && n <= |spectra| && forall j :: 0 <= j < n ==> |spectra[j]| > 0
    ensures |t| == n
  {
    if n == 0 then [] else
    FrequencyTrace(sampleRate, ticks, spectra, n - 1, width, height) +
      [Marker(ticks[n - 1], AnalyzeCurrentSound(spectra[n - 1], sampleRate).value.frequency,
              MeasureTime, FrequencyLimit, width, height)]
  }

  /** One more tick appends its marker to the frequency trace. */
  lemma FrequencyTraceStep(sampleRate: real, ticks: seq<real>, spectra: seq<seq<Byte>>, k: nat,
                           width: nat, height: nat, frequency: real)
    requires k < |ticks| && k < |spectra| && forall j :: 0 <= j <= k ==> |spectra[j]| > 0
    requires frequency == AnalyzeCurrentSound(spectra[k], sampleRate).value.frequency
    ensures FrequencyTrace(sampleRate, ticks, spectra, k + 1, width, height) ==
      FrequencyTrace(sampleRate, ticks, spectra, k, width, height) +
      [Marker(ticks[k], frequency, MeasureTime, FrequencyLimit, width, height)]
  {
  }

  /**
   * The markers the first `n` ticks plot on the strength chart: elapsed time against the
   * strength of the reading.
   */
  ghost function StrengthTrace(sampleRate: real, ticks: seq<real>, spectra: seq<seq<Byte>>, n: nat,
                               width: nat, height: nat): (t: seq<Shape>)
    requires n <= |ticks| && n <= |spectra| && forall j :: 0 <= j < n ==> |spectra[j]| > 0
    ensures |t| == n
  {
    if n == 0 then [] else
    StrengthTrace(sampleRate, ticks, spectra, n - 1, width, height) +
      [Marker(ticks[n - 1], AnalyzeCurrentSound(spectra[n - 1], sampleRate).value.strength as real,
              MeasureTime, StrengthLimit, width, height)]
  }

  /** One more tick appends its marker to the strength trace. */
  lemma StrengthTraceStep(sampleRate: real, ticks: seq<real>, spectra: seq<seq<Byte>>, k: nat,
                          width: nat, height: nat, strength: real)
    requires k < |ticks| && k < |spectra| && forall j :: 0 <= j <= k ==> |spectra[j]| > 0
    requires strength == AnalyzeCurrentSound(spectra[k], sampleRate).value.strength as real
    ensures StrengthTrace(sampleRate, ticks, spectra, k + 1, width, height) ==
      StrengthTrace(sampleRate, ticks, spectra, k, width, height) +
      [Marker(ticks[k], strength, MeasureTime, StrengthLimit, width, height)]
  {
  }

  /** Marker `j` of the frequency trace plots tick `j` against the frequency of reading `j`. */
  lemma {:induction false} FrequencyTraceAt(sampleRate: real, ticks: seq<real>, spectra: seq<seq<Byte>>, n: nat,
                                            width: nat, height: nat, j: nat)
    requires n <= |ticks| && n <= |spectra| && forall i :: 0 <= i < n ==> |spectra[i]| > 0
    requires j < n
    ensures FrequencyTrace(sampleRate, ticks, spectra, n, width, height)[j] ==
      Marker(ticks[j], AnalyzeCurrentSound(spectra[j], sampleRate).value.frequency, MeasureTime, FrequencyLimit, width, height)
    decreases n
  {
    if j < n - 1 {
      FrequencyTraceAt(sampleRate, ticks, spectra, n - 1, width, height, j);
    }
  }

  /** Marker `j` of the strength trace plots tick `j` against the strength of reading `j`. */
  lemma {:induction false} StrengthTraceAt(sampleRate: real, ticks: seq<real>, spectra: seq<seq<Byte>>, n: nat,
                                           width: nat, height: nat, j: nat)
    requires n <= |ticks| && n <= |spectra| && forall i :: 0 <= i < n ==> |spectra[i]| > 0
    requires j < n
    ensures StrengthTrace(sampleRate, ticks, spectra, n, width, height)[j] ==
      Marker(ticks[j], AnalyzeCurrentSound(spectra[j], sampleRate).value.strength as real, MeasureTime, StrengthLimit, width, height)
    decreases n
  {
    if j < n - 1 {
      StrengthTraceAt(sampleRate, ticks, spectra, n - 1, width, height, j);
    }
  }

  /**
   * With strictly increasing ticks inside the measure time, the frequency markers run from
   * left to right across the canvas and never rise above its top.
   */
  lemma FrequencyTraceInOrder(sampleRate: real, ticks: seq<real>, spectra: seq<seq<Byte>>, n: nat,
                              width: nat, height: nat)
    requires n <= |ticks| && n <= |spectra| && forall i :: 0 <= i < n ==> |spectra[i]| > 0
    requires StrictlyIncreasing(ticks) && width > 0
    requires forall i :: 0 <= i < |ticks| ==> 0.0 <= ticks[i] <= MeasureTime
    ensures var t := FrequencyTrace(sampleRate, ticks, spectra, n, width, height);
      (forall i :: 0 <= i < n ==> t[i].Circle? && 0.0 <= t[i].cx <= width as real && t[i].cy <= height as real) &&
      (forall i, j :: 0 <= i < j < n ==> t[i].cx < t[j].cx)
  {
    var t := FrequencyTrace(sampleRate, ticks, spectra, n, width, height);
    forall i | 0 <= i < n
      ensures t[i].Circle? && 0.0 <= t[i].cx <= width as real && t[i].cy <= height as real
      ensures t[i].cx == PointX(ticks[i], MeasureTime, width as real)
    {
      FrequencyTraceAt(sampleRate, ticks, spectra, n, width, height, i);
    }
    forall i, j | 0 <= i < j < n
      ensures t[i].cx < t[j].cx
    {
      PointXMonotone(ticks[i], ticks[j], MeasureTime, width as real);
    }
  }

  /**
   * A strength is a byte and the strength chart's limit is 255, so with ticks inside the
   * measure time every strength marker lies on the canvas.
   */
  lemma StrengthTraceOnCanvas(sampleRate: real, ticks: seq<real>, spectra: seq<seq<Byte>>, n: nat,
                              width: nat, height: nat)
    requires n <= |ticks| && n <= |spectra| && forall i :: 0 <= i < n ==> |spectra[i]| > 0
    requires forall i :: 0 <= i < |ticks| ==> 0.0 <= ticks[i] <= MeasureTime
    ensures var t := StrengthTrace(sampleRate, ticks, spectra, n, width, height);
      forall i :: 0 <= i < n ==>
        t[i].Circle? && 0.0 <= t[i].cx <= width as real && 0.0 <= t[i].cy <= height as real
  {
    var t := StrengthTrace(sampleRate, ticks, spectra, n, width, height);
    forall i | 0 <= i < n
      ensures t[i].Circle? && 0.0 <= t[i].cx <= width as real && 0.0 <= t[i].cy <= height as real
    {
      StrengthTraceAt(sampleRate, ticks, spectra, n, width, height, i);
    }
  }

  /** How a measurement ended, as far as the frames delivered so far go. */
  datatype Outcome =
    | Pending            // no frame has overshot the measure time yet
    | Resolved           // repeatFor's promise resolved
    | Aborted(error: Error)  // a tick threw, so no later frame runs and the promise never resolves

  /** The module-level chart editors the measure button's handler draws on. */
  class Monitor {
    const frequencyDataChart: ArrayChartEditor
    const frequencyChart: TimeSeriesChartEditor
    const strengthChart: TimeSeriesChartEditor

    ghost predicate Valid()
      reads frequencyDataChart, frequencyChart, strengthChart
    {
      frequencyChart != strengthChart &&
      frequencyDataChart.Valid() && frequencyChart.Valid() && strengthChart.Valid() &&
      frequencyDataChart.valueUpperLimit == FrequencyDataLimit &&
      frequencyChart.valueUpperLimit == FrequencyLimit &&
      strengthChart.valueUpperLimit == StrengthLimit
    }

    /** Builds the three editors on canvases of the given sizes. */
    constructor (dataWidth: nat, dataHeight: nat, frequencyWidth: nat, frequencyHeight: nat,
                 strengthWidth: nat, strengthHeight: nat)
      ensures Valid()
      ensures fresh(frequencyDataChart) && fresh(frequencyChart) && fresh(strengthChart)
      ensures frequencyDataChart.width == dataWidth && frequencyDataChart.height == dataHeight
      ensures frequencyChart.width == frequencyWidth && frequencyChart.height == frequencyHeight
      ensures strengthChart.width == strengthWidth && strengthChart.height == strengthHeight
      ensures !frequencyChart.isActive && !strengthChart.isActive
      ensures frequencyChart.timeUpperLimit == None && strengthChart.timeUpperLimit == None
      ensures frequencyDataChart.shapes == [] && frequencyChart.shapes == [] && strengthChart.shapes == []
    {
      frequencyDataChart := new ArrayChartEditor(dataWidth, dataHeight, FrequencyDataLimit);
      frequencyChart := new TimeSeriesChartEditor(frequencyWidth, frequencyHeight, FrequencyLimit);
      strengthChart := new TimeSeriesChartEditor(strengthWidth, strengthHeight, StrengthLimit);
    }

    /** Both time-series charts are active with the measure time as their limit. */
    ghost predicate Begun()
      reads frequencyChart, strengthChart
    {
      frequencyChart.isActive && frequencyChart.timeUpperLimit == Some(MeasureTime) &&
      strengthChart.isActive && strengthChart.timeUpperLimit == Some(MeasureTime)
    }

    /**
     * The histogram shows the spectrum of the last redraw among the first `n` ticks, or is as it
     * was (`before`) if none of them redrew.
     */
    ghost predicate Histogram(ticks: seq<real>, spectra: seq<seq<Byte>>, n: nat, before: seq<Shape>)
      requires n <= |ticks| && n <= |spectra|
      reads frequencyDataChart
    {
      var r := Redraws(ticks, n);
      if |r| == 0 then frequencyDataChart.shapes == before
      else frequencyDataChart.shapes == Bars(spectra[r[|r| - 1]], frequencyDataChart.width as real,
        frequencyDataChart.height as real, FrequencyDataLimit)
    }

    /**
     * The callback the handler passes to repeatFor, at elapsed time `elapsedTime` with the
     * analyser yielding `spectrum`; returns the new lastDrawTimeOfFrequencyDataChart.
     */
    method Tick(sampleRate: real, elapsedTime: real, spectrum: seq<Byte>, lastDrawTime: real)
      returns (r: Result<real>)
      requires Valid() && Begun() && elapsedTime <= MeasureTime
      modifies frequencyDataChart`shapes, frequencyChart`shapes, strengthChart`shapes
      ensures Valid() && Begun()
      ensures |spectrum| == 0 <==> r.Err?
      ensures r.Err? ==>
        r.error == EmptyArray &&
        frequencyChart.shapes == old(frequencyChart.shapes) &&
        strengthChart.shapes == old(strengthChart.shapes) &&
        frequencyDataChart.shapes == old(frequencyDataChart.shapes)
      ensures r.Ok? ==>
        var reading := AnalyzeCurrentSound(spectrum, sampleRate).value;
        frequencyChart.shapes == old(frequencyChart.shapes) +
          [Marker(elapsedTime, reading.frequency, MeasureTime, FrequencyLimit, frequencyChart.width, frequencyChart.height)] &&
        strengthChart.shapes == old(strengthChart.shapes) +
          [Marker(elapsedTime, reading.strength as real, MeasureTime, StrengthLimit, strengthChart.width, strengthChart.height)]
      ensures r.Ok? && elapsedTime - lastDrawTime >= RedrawInterval ==>
        r.value == elapsedTime &&
        frequencyDataChart.shapes == Bars(spectrum, frequencyDataChart.width as real,
          frequencyDataChart.height as real, FrequencyDataLimit)
      ensures r.Ok? && elapsedTime - lastDrawTime < RedrawInterval ==>
        r.value == lastDrawTime && frequencyDataChart.shapes == old(frequencyDataChart.shapes)
    {
      var reading := AnalyzeCurrentSound(spectrum, sampleRate);
      if reading.Err? {
        return Err(reading.error);
      }
      var drawn := frequencyChart.DrawPoint(elapsedTime, reading.value.frequency);
      assert drawn.Ok?;
      drawn := strengthChart.DrawPoint(elapsedTime, reading.value.strength as real);
      assert drawn.Ok?;
      if elapsedTime - lastDrawTime >= RedrawInterval {
        frequencyDataChart.Draw(reading.value.frequencyData);
        return Ok(elapsedTime);
      }
      return Ok(lastDrawTime);
    }

    /**
     * Runs the callback on each elapsed time of `ticks` in order, with `spectra[k]` as the
     * analyser's data during tick k, and stops at the first callback that throws. Returns the
     * error thrown, if any, and how many callbacks completed.
     */
    method RunTicks(sampleRate: real, ticks: seq<real>, spectra: seq<seq<Byte>>)
      returns (failure: Option<Error>, ghost completed: nat)
      requires Valid() && Begun() && |ticks| <= |spectra|
      requires frequencyChart.shapes == [] && strengthChart.shapes == []
      requires forall j :: 0 <= j < |ticks| ==> ticks[j] <= MeasureTime
      modifies frequencyDataChart`shapes, frequencyChart`shapes, strengthChart`shapes
      ensures Valid() && Begun()
      ensures completed <= |ticks|
      ensures forall k :: 0 <= k < completed ==> |spectra[k]| > 0
      ensures completed < |ticks| ==> |spectra[completed]| == 0
      ensures failure == if completed < |ticks| then Some(EmptyArray) else None
      ensures frequencyChart.shapes ==
        FrequencyTrace(sampleRate, ticks, spectra, completed, frequencyChart.width, frequencyChart.height)
      ensures strengthChart.shapes ==
        StrengthTrace(sampleRate, ticks, spectra, completed, strengthChart.width, strengthChart.height)
      ensures Histogram(ticks, spectra, completed, old(frequencyDataChart.shapes))
    {
      var lastDrawTimeOfFrequencyDataChart := 0.0;
      var k := 0;
      while k < |ticks|
        invariant 0 <= k <= |ticks|
        invariant forall j :: 0 <= j < k ==> |spectra[j]| > 0
        invariant Valid() && Begun()
        invariant frequencyChart.shapes ==
          FrequencyTrace(sampleRate, ticks, spectra, k, frequencyChart.width, frequencyChart.height)
        invariant strengthChart.shapes ==
          StrengthTrace(sampleRate, ticks, spectra, k, strengthChart.width, strengthChart.height)
        invariant lastDrawTimeOfFrequencyDataChart == LastDrawTime(ticks, k)
        invariant Histogram(ticks, spectra, k, old(frequencyDataChart.shapes))
      {
        RedrawStep(ticks, k);
        var r := Tick(sampleRate, ticks[k], spectra[k], lastDrawTimeOfFrequencyDataChart);
        if r.Err? {
          return Some(r.error), k;
        }
        ghost var reading := AnalyzeCurrentSound(spectra[k], sampleRate).value;
        FrequencyTraceStep(sampleRate, ticks, spectra, k, frequencyChart.width, frequencyChart.height,
                           reading.frequency);
        StrengthTraceStep(sampleRate, ticks, spectra, k, strengthChart.width, strengthChart.height,
                          reading.strength as real);
        lastDrawTimeOfFrequencyDataChart := r.value;
        k := k + 1;
      }
      return None, k;
    }

    /**
     * The measure button's click handler. `frames` are the timestamps of the animation frames
     * delivered so far and `spectra[k]` is what getByteFrequencyData yields during frame k.
     * Returns the elapsed times the frame loop called back with and how many ticks ran to
     * completion (all of them unless a spectrum was empty).
     */
    method Measure(sampleRate: real, frames: seq<real>, spectra: seq<seq<Byte>>)
      returns (outcome: Outcome, ghost ticks: seq<real>, ghost completed: nat)
      requires Valid() && |spectra| == |frames|
      modifies frequencyDataChart, frequencyChart, strengthChart
      ensures Valid() && Begun()
      ensures ticks == TickTimes(MeasureTime, frames)
      ensures completed <= |ticks|
      ensures forall k :: 0 <= k < completed ==> |spectra[k]| > 0
      ensures completed < |ticks| ==> |spectra[completed]| == 0
      // drawPoint never throws: the only way a session fails is an empty spectrum
      ensures outcome ==
        if completed < |ticks| then Aborted(EmptyArray)
        else if Resolves(MeasureTime, frames) then Resolved
        else Pending
      ensures frequencyChart.shapes ==
        FrequencyTrace(sampleRate, ticks, spectra, completed, frequencyChart.width, frequencyChart.height)
      ensures strengthChart.shapes ==
        StrengthTrace(sampleRate, ticks, spectra, completed, strengthChart.width, strengthChart.height)
      ensures Histogram(ticks, spectra, completed, old(frequencyDataChart.shapes))
    {
      frequencyChart.Clear();
      var begun := frequencyChart.Begin(MeasureTime);
      assert begun.Ok?;
      strengthChart.Clear();
      begun := strengthChart.Begin(MeasureTime);
      assert begun.Ok?;

      var elapsedTimes, resolved := RepeatFor(MeasureTime, frames);
      ticks := elapsedTimes;

      // every tick comes within the charts' time limit, so no drawPoint throws
      TicksWithinDuration(MeasureTime, frames);
      var failure;
      failure, completed := RunTicks(sampleRate, elapsedTimes, spectra);
      outcome := if failure.Some? then Aborted(failure.value) else if resolved then Resolved else Pending;
    }
  }
}
