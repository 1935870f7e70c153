/**
 * The two chart editors. A canvas is represented by the log of filled shapes drawn on it since
 * it was last cleared, in the y-up coordinates both editors set up at construction.
 */
module Charts {
  import opened Basics

  datatype Shape =
    | Circle(cx: real, cy: real, radius: real)
    | Rect(x: real, y: real, w: real, h: real)

  /** Radius of the marker drawPoint fills. */
  const MarkerRadius: real := 4.0

  function Min(a: real, b: real): real {
    if a <= b then a else b
  }

  /**
   * Height of `value` on a canvas `height` high whose top stands for `valueUpperLimit`. Values at
   * or above the limit reach the top; nothing clamps from below, so a negative value goes
   * below the baseline.
   */
  function ScaledHeight(value: real, valueUpperLimit: real, height: real): (h: real)
    requires valueUpperLimit > 0.0 && height >= 0.0
    ensures h <= height
    ensures height > 0.0 ==> (h == height <==> value >= valueUpperLimit)
    ensures value >= 0.0 ==> h >= 0.0
    ensures value == 0.0 ==> h == 0.0
    ensures height > 0.0 && value < 0.0 ==> h < 0.0
  {
    Min(value / valueUpperLimit, 1.0) * height
  }

  /** Horizontal position of `time` when the canvas width stands for `timeUpperLimit`. */
  function PointX(time: real, timeUpperLimit: real, width: real): (x: real)
    requires timeUpperLimit > 0.0 && width >= 0.0
    ensures 0.0 <= time <= timeUpperLimit ==> 0.0 <= x <= width
    ensures time == 0.0 ==> x == 0.0
    ensures time == timeUpperLimit ==> x == width
  {
    time / timeUpperLimit * width
  }

  /** Later times are drawn further right. */
  lemma PointXMonotone(t1: real, t2: real, timeUpperLimit: real, width: real)
    requires timeUpperLimit > 0.0 && width > 0.0 && t1 < t2
    ensures PointX(t1, timeUpperLimit, width) < PointX(t2, timeUpperLimit, width)
  {
    assert PointX(t2, timeUpperLimit, width) - PointX(t1, timeUpperLimit, width)
      == (t2 - t1) / timeUpperLimit * width;
  }

  /** The marker drawPoint fills for `(time, value)`. */
  function Marker(time: real, value: real, timeUpperLimit: real, valueUpperLimit: real,
                  width: nat, height: nat): (c: Shape)
    requires timeUpperLimit > 0.0 && valueUpperLimit > 0.0
    ensures c.Circle? && c.radius == MarkerRadius
    ensures 0.0 <= time <= timeUpperLimit ==> 0.0 <= c.cx <= width as real
    ensures c.cy <= height as real
  {
    Circle(PointX(time, timeUpperLimit, width as real),
           ScaledHeight(value, valueUpperLimit, height as real),
           MarkerRadius)
  }

  /** Width of each of `count` bars sharing a canvas `width` wide. */
  function BarWidth(width: real, count: nat): real
    requires count > 0
  {
    width / count as real
  }

  /** Bar `i` of the histogram of `arr`. */
  function Bar(arr: seq<Byte>, i: nat, width: real, height: real, valueUpperLimit: real): (b: Shape)
    requires i < |arr| && valueUpperLimit > 0.0 && height >= 0.0
    ensures b.Rect? && b.y == 0.0 && 0.0 <= b.h <= height
    ensures b.h == height <==> (height > 0.0 && arr[i] as real >= valueUpperLimit) || height == 0.0
    ensures b.x + b.w == BarWidth(width, |arr|) * (i + 1) as real
  {
    var barWidth := BarWidth(width, |arr|);
    Rect(barWidth * i as real, 0.0, barWidth, ScaledHeight(arr[i] as real, valueUpperLimit, height))
  }

  /** What ArrayChartEditor.draw leaves on the canvas: one bar per element, in order. */
  function Bars(arr: seq<Byte>, width: real, height: real, valueUpperLimit: real): (bars: seq<Shape>)
    requires valueUpperLimit > 0.0 && height >= 0.0
    ensures |bars| == |arr|
    ensures forall i :: 0 <= i < |bars| ==> bars[i].Rect? && bars[i].y == 0.0 && 0.0 <= bars[i].h <= height
  {
    seq(|arr|, i requires 0 <= i < |arr| => Bar(arr, i, width, height, valueUpperLimit))
  }

  /**
   * The bars stand on the baseline, are no taller than the canvas, sit side by side with no
   * gap or overlap, and together span exactly the canvas width.
   */
  lemma BarsTileCanvas(arr: seq<Byte>, width: real, height: real, valueUpperLimit: real)
    requires valueUpperLimit > 0.0 && height >= 0.0 && width >= 0.0
    ensures var bars := Bars(arr, width, height, valueUpperLimit);
      |bars| == |arr| &&
      (forall i :: 0 <= i < |bars| ==> bars[i].Rect? && bars[i].y == 0.0 && 0.0 <= bars[i].h <= height) &&
      (|bars| > 0 ==> bars[0].x == 0.0 && bars[|bars| - 1].x + bars[|bars| - 1].w == width) &&
      (forall i :: 0 <= i < |bars| - 1 ==> bars[i].x + bars[i].w == bars[i + 1].x)
  {
    var bars := Bars(arr, width, height, valueUpperLimit);
    if |arr| > 0 {
      var barWidth := BarWidth(width, |arr|);
      forall i | 0 <= i < |bars| - 1
        ensures bars[i].x + bars[i].w == bars[i + 1].x
      {
        assert barWidth * i as real + barWidth == barWidth * (i + 1) as real;
      }
      assert barWidth * (|arr| - 1) as real + barWidth == barWidth * |arr| as real == width;
    }
  }

  /** ArrayChartEditor: redraws a whole array as a histogram on each call. */
  class ArrayChartEditor {
    const width: nat
    const height: nat
    const valueUpperLimit: real
    ghost var shapes: seq<Shape>

    ghost predicate Valid()
      reads this
    {
      valueUpperLimit > 0.0
    }

    constructor (width: nat, height: nat, valueUpperLimit: real)
      requires valueUpperLimit > 0.0
      ensures Valid()
      ensures this.width == width && this.height == height && this.valueUpperLimit == valueUpperLimit
      ensures shapes == []
    {
      this.width := width;
      this.height := height;
      this.valueUpperLimit := valueUpperLimit;
      shapes := [];
    }

    /** draw: clears the whole canvas, then fills one bar per element of `arr`, left to right. */
    method Draw(arr: seq<Byte>)
      requires Valid()
      modifies this`shapes
      ensures shapes == Bars(arr, width as real, height as real, valueUpperLimit)
    {
      shapes := [];
      if arr == [] {
        return;
      }
      var y := 0.0;
      var barWidth := width as real / |arr| as real;
      var i := 0;
      while i < |arr|
        invariant 0 <= i <= |arr|
        invariant shapes == Bars(arr, width as real, height as real, valueUpperLimit)[..i]
      {
        var x := barWidth * i as real;
        var barHeight := Min(arr[i] as real / valueUpperLimit, 1.0) * height as real;
        ghost var bars := Bars(arr, width as real, height as real, valueUpperLimit);
        assert Rect(x, y, barWidth, barHeight) == bars[i];
        assert bars[..i + 1] == bars[..i] + [bars[i]];
        shapes := shapes + [Rect(x, y, barWidth, barHeight)];
        i := i + 1;
      }
    }
  }

  /**
   * TimeSeriesChartEditor: plots (time, value) points between begin and the next clear.
   * `timeUpperLimit` is None until the first begin and keeps its value through clear.
   */
  class TimeSeriesChartEditor {
    const width: nat
    const height: nat
    const valueUpperLimit: real
    var isActive: bool
    var timeUpperLimit: Option<real>
    ghost var shapes: seq<Shape>

    ghost predicate Valid()
      reads this
    {
      valueUpperLimit > 0.0 &&
      (timeUpperLimit.Some? ==> timeUpperLimit.value > 0.0) &&
      (isActive ==> timeUpperLimit.Some?)
    }

    constructor (width: nat, height: nat, valueUpperLimit: real)
      requires valueUpperLimit > 0.0
      ensures Valid()
      ensures this.width == width && this.height == height && this.valueUpperLimit == valueUpperLimit
      ensures !isActive && timeUpperLimit == None && shapes == []
    {
      this.width := width;
      this.height := height;
      this.valueUpperLimit := valueUpperLimit;
      isActive := false;
      timeUpperLimit := None;
      shapes := [];
    }

    /** clear: from any state, erases the canvas and deactivates; the time limit is kept. */
    method Clear()
      requires Valid()
      modifies this`isActive, this`shapes
      ensures Valid()
      ensures !isActive && shapes == []
    {
      shapes := [];
      isActive := false;
    }

    /** begin: throws when already active; otherwise activates with the given time limit. */
    method Begin(limit: real) returns (r: Result<()>)
      requires Valid() && limit > 0.0
      modifies this`isActive, this`timeUpperLimit
      ensures Valid() && isActive
      ensures old(isActive) ==> r == Err(AlreadyActive) && timeUpperLimit == old(timeUpperLimit)
      ensures !old(isActive) ==> r == Ok(()) && timeUpperLimit == Some(limit)
    {
      if isActive {
        return Err(AlreadyActive);
      }
      timeUpperLimit := Some(limit);
      isActive := true;
      return Ok(());
    }

    /**
     * drawPoint: throws when inactive or when `time` is past the limit, drawing nothing;
     * otherwise fills one marker and keeps every earlier one.
     */
    method DrawPoint(time: real, value: real) returns (r: Result<()>)
      requires Valid()
      modifies this`shapes
      ensures Valid()
      ensures !isActive ==> r == Err(NotActive) && shapes == old(shapes)
      ensures isActive && time > timeUpperLimit.value ==> r == Err(TimeOverLimit) && shapes == old(shapes)
      ensures isActive && time <= timeUpperLimit.value ==>
        r == Ok(()) &&
        shapes == old(shapes) + [Marker(time, value, timeUpperLimit.value, valueUpperLimit, width, height)]
    {
      if !isActive {
        return Err(NotActive);
      }
      if time > timeUpperLimit.value {
        return Err(TimeOverLimit);
      }
      var x := time / timeUpperLimit.value * width as real;
      var y := Min(value / valueUpperLimit, 1.0) * height as real;
      assert Circle(x, y, MarkerRadius) == Marker(time, value, timeUpperLimit.value, valueUpperLimit, width, height);
      shapes := shapes + [Circle(x, y, MarkerRadius)];
      return Ok(());
    }
  }
}
