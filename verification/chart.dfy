/** The canvas chart of the telemetry panel: the affine map from sample index and value to pixel
    coordinates, the trend colour, and the header figures above the chart. */
module Chart {
  import opened Wrappers
  import opened Numeric
  import opened Telemetry
  import opened Palette

  /** `maxValue - minValue || 1`: a flat window falls back to a range of 1. */
  function ValueRange(lo: real, hi: real): (r: real)
    requires lo <= hi
    ensures r > 0.0
    ensures lo < hi ==> r == hi - lo
    ensures lo == hi ==> r == 1.0
  {
    if hi - lo == 0.0 then 1.0 else hi - lo
  }

  /** Horizontal position of sample `i` of `n` on a canvas `width` wide. A single-point chart
      divides 0 by 0 in the source and is excluded. */
  function ChartX(i: nat, n: nat, width: real): (x: real)
    requires n >= 2 && i < n && width >= 0.0
    ensures 0.0 <= x <= width
    ensures i == 0 ==> x == 0.0
    ensures i == n - 1 ==> x == width
  {
    var f := i as real / (n - 1) as real;
    FractionWithin(i as real, (n - 1) as real);
    ScaleWithin(f, width);
    f * width
  }

  /** Later samples sit further right. */
  lemma ChartXIncreasing(i: nat, j: nat, n: nat, width: real)
    requires n >= 2 && i < j < n && width > 0.0
    ensures ChartX(i, n, width) < ChartX(j, n, width)
  {
    var d := (n - 1) as real;
    assert i as real / d < j as real / d;
    ScaleMonotone(i as real / d, j as real / d, width);
  }

  /** Vertical position of value `v` on a canvas `height` high, for a window spanning
      [`lo`, `hi`]: the top and bottom tenth of the canvas stay free. */
  function ChartY(v: real, lo: real, hi: real, height: real): (y: real)
    requires lo <= hi
    ensures v == lo ==> y == height * 0.9
  {
    var f := (v - lo) / ValueRange(lo, hi);
    height - f * height * 0.8 - height * 0.1
  }

  /** Every value of the window lands in [0.1h, 0.9h]; the minimum at 0.9h, the maximum at 0.1h. */
  lemma ChartYWithin(v: real, lo: real, hi: real, height: real)
    requires lo <= v <= hi && height >= 0.0
    ensures height * 0.1 <= ChartY(v, lo, hi, height) <= height * 0.9
    ensures v == lo ==> ChartY(v, lo, hi, height) == height * 0.9
    ensures v == hi && lo < hi ==> ChartY(v, lo, hi, height) == height * 0.1
  {
    var r := ValueRange(lo, hi);
    var f := (v - lo) / r;
    if lo < hi {
      FractionWithin(v - lo, r);
      assert r == hi - lo;
      if v == hi {
        assert v - lo == r;
        assert f == 1.0;
      }
    } else {
      assert f == 0.0;
    }
    ScaleWithin(f, height);
    var fh := f * height;
    assert ChartY(v, lo, hi, height) == height - fh * 0.8 - height * 0.1;
  }

  /** A larger value is drawn higher up (smaller y). */
  lemma ChartYDecreasing(v: real, w: real, lo: real, hi: real, height: real)
    requires lo <= hi && v < w && height > 0.0
    ensures ChartY(w, lo, hi, height) < ChartY(v, lo, hi, height)
  {
    var r := ValueRange(lo, hi);
    assert (v - lo) / r < (w - lo) / r;
    ScaleMonotone((v - lo) / r, (w - lo) / r, height);
    var fv := (v - lo) / r * height;
    var fw := (w - lo) / r * height;
    assert ChartY(v, lo, hi, height) == height - fv * 0.8 - height * 0.1;
    assert ChartY(w, lo, hi, height) == height - fw * 0.8 - height * 0.1;
  }

  /** The pixel position of sample `i` of a window of at least two samples. */
  function ChartPoint(data: seq<Sample>, i: nat, width: real, height: real): (p: (real, real))
    requires |data| >= 2 && i < |data| && width >= 0.0 && height >= 0.0
    ensures 0.0 <= p.0 <= width
    ensures height * 0.1 <= p.1 <= height * 0.9
  {
    var vs := Values(data);
    var lo := MinOf(vs);
    var hi := MaxOf(vs);
    ChartYWithin(vs[i], lo, hi, height);
    (ChartX(i, |data|, width), ChartY(vs[i], lo, hi, height))
  }

  /** The lowest sample of the window is drawn on the 0.9h line and the highest on the 0.1h line
      (when they differ). */
  lemma ExtremesOnGuides(data: seq<Sample>, width: real, height: real)
    requires |data| >= 2 && width >= 0.0 && height >= 0.0
    ensures exists i :: 0 <= i < |data| && ChartPoint(data, i, width, height).1 == height * 0.9
    ensures MinOf(Values(data)) < MaxOf(Values(data)) ==>
              exists i :: 0 <= i < |data| && ChartPoint(data, i, width, height).1 == height * 0.1
  {
    var vs := Values(data);
    var lo := MinOf(vs);
    var hi := MaxOf(vs);
    var i :| 0 <= i < |vs| && vs[i] == lo;
    ChartYWithin(vs[i], lo, hi, height);
    assert ChartPoint(data, i, width, height).1 == height * 0.9;
    var j :| 0 <= j < |vs| && vs[j] == hi;
    ChartYWithin(vs[j], lo, hi, height);
    assert lo < hi ==> ChartPoint(data, j, width, height).1 == height * 0.1;
  }

  /** Line and area colour of the chart: green when the window ends above where it started. */
  function TrendColour(data: seq<Sample>): (c: Colour)
    requires |data| > 0
    ensures c == Green || c == Red
    ensures |data| == 1 ==> c == Red
  {
    if data[|data| - 1].value > data[0].value then Green else Red
  }

  /** Consecutive differences of a series. */
  function Steps(vs: seq<real>): (ds: seq<real>)
    requires |vs| > 0
    ensures |ds| == |vs| - 1
    ensures forall i :: 0 <= i < |ds| ==> ds[i] == vs[i + 1] - vs[i]
    decreases |vs|
  {
    if |vs| == 1 then [] else [vs[1] - vs[0]] + Steps(vs[1..])
  }

  lemma {:induction false} StepsTelescope(vs: seq<real>)
    requires |vs| > 0
    ensures Sum(Steps(vs)) == vs[|vs| - 1] - vs[0]
    decreases |vs|
  {
    if |vs| > 1 {
      StepsTelescope(vs[1..]);
    }
  }

  /** The chart is green exactly when the window's step-by-step movements add up to a net rise. */
  lemma TrendColourIsNetMovement(data: seq<Sample>)
    requires |data| > 0
    ensures TrendColour(data) == Green <==> Sum(Steps(Values(data))) > 0.0
  {
    StepsTelescope(Values(data));
  }

  /** The figures above the chart. `percent` is `None` where the source divides 0 by 0. */
  datatype Header = Header(current: real, change: real, percent: Option<real>, rising: bool)

  /** `currentValue`, `previousValue`, `change` and `changePercent`: a missing or zero value falls
      back (`|| 0`, `|| currentValue`) as JavaScript's `||` does. */
  function HeaderOf(data: seq<Sample>): (h: Header)
    ensures |data| == 0 ==> h == Header(0.0, 0.0, None, true)
    ensures |data| == 1 ==> h.current == data[0].value && h.change == 0.0
    ensures |data| >= 1 ==> h.current == data[|data| - 1].value
    ensures |data| >= 2 && data[|data| - 2].value == 0.0 ==> h.change == 0.0
    ensures |data| >= 2 && data[|data| - 2].value != 0.0 ==>
              h.change == data[|data| - 1].value - data[|data| - 2].value
              && h.percent == Some(h.change / data[|data| - 2].value * 100.0)
    ensures h.percent.None? <==> h.current == 0.0 && (|data| < 2 || data[|data| - 2].value == 0.0)
    ensures |data| >= 1 && (|data| < 2 || data[|data| - 2].value == 0.0) && h.current != 0.0 ==>
              h.percent == Some(0.0)
    ensures h.rising <==> h.change >= 0.0
  {
    var current := if |data| >= 1 then data[|data| - 1].value else 0.0;
    var previous := if |data| >= 2 && data[|data| - 2].value != 0.0 then data[|data| - 2].value else current;
    var change := current - previous;
    Header(current, change, if previous == 0.0 then None else Some(change / previous * 100.0), change >= 0.0)
  }

  /** A new sample after a non-zero one: the header reports the step to it, its percentage of the
      old value, and a rising arrow exactly when the value did not fall. */
  lemma HeaderOfAppend(data: seq<Sample>, p: Sample)
    requires |data| >= 1 && data[|data| - 1].value != 0.0
    ensures var h := HeaderOf(data + [p]);
            var before := data[|data| - 1].value;
            && h.current == p.value
            && h.change == p.value - before
            && h.percent == Some((p.value - before) / before * 100.0)
            && (h.rising <==> p.value >= before)
  {
    var e := data + [p];
    assert e[|e| - 1] == p && e[|e| - 2] == data[|data| - 1];
  }

  /** A sample of 0 before the last one is skipped by `||`: the header reports no change. */
  lemma ZeroPreviousHidesChange()
    ensures var data := [Sample(0.0, 0, false, Down), Sample(5.0, 1, true, Down)];
            HeaderOf(data).change == 0.0 && HeaderOf(data).percent == Some(0.0)
  {
  }
}
