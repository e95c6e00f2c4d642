/** The two synthetic sources of the telemetry chart: the live generator (`streamData`) and the
    historical backfill (`getHistoricalData`). Both are mean-reverting: each value is the target
    plus a sine-driven swing, uniform noise and a fraction of the previous deviation. The sine
    values and the uniform draws are parameters. */
module Generator {
  import opened Wrappers
  import opened Numeric
  import opened Telemetry

  datatype Error = UnknownMetric

  /** Deviation from the target that the live generator never exceeds: 7/9 of the variation. */
  function StreamBound(c: MetricConfig): real {
    c.variation * 7.0 / 9.0
  }

  /** Deviation from the target that the backfill never exceeds: 14/19 of the variation. */
  function BackfillBound(c: MetricConfig): real {
    c.variation * 14.0 / 19.0
  }

  /** `-v <= s * v <= v` for a sine value `s` and a non-negative scale `v`. */
  lemma ScaledSine(s: real, v: real, p: real)
    requires -1.0 <= s <= 1.0 && v >= 0.0 && p == s * v
    ensures -v <= p <= v
  {
    ProductNonNegative(1.0 - s, v);
    ProductNonNegative(1.0 + s, v);
    assert (1.0 - s) * v == v - p;
    assert (1.0 + s) * v == v + p;
  }

  /** `-v/2 <= (r - 0.5) * v < v/2` for a uniform draw `r`. */
  lemma ScaledNoise(r: real, v: real, p: real)
    requires 0.0 <= r < 1.0 && v > 0.0 && p == (r - 0.5) * v
    ensures -v / 2.0 <= p < v / 2.0
  {
    ProductNonNegative(r, v);
    ProductNonNegative(1.0 - r, v);
    assert p == r * v - v / 2.0;
    assert (1.0 - r) * v == v - r * v;
    assert (1.0 - r) * v != 0.0;
  }

  /** The live step is linear in the swing, the noise and the previous deviation. */
  lemma StreamMix(v: real, swing: real, noise: real, d: real)
    requires -v <= swing <= v && -v / 2.0 <= noise < v / 2.0 && Abs(d) <= v * 7.0 / 9.0
    ensures Abs(swing * 0.4 + noise * 0.6 + d * 0.1) <= v * 7.0 / 9.0
  {
  }

  /** The backfill step is linear in the swing, the noise and the previous deviation. */
  lemma BackfillMix(v: real, swing: real, noise: real, d: real)
    requires -v <= swing <= v && -v / 2.0 <= noise < v / 2.0 && Abs(d) <= v * 14.0 / 19.0
    ensures Abs(swing * 0.5 + noise * 0.4 + d * 0.05) <= v * 14.0 / 19.0
  {
  }

  /** One live value: target + sin(t/15000)·v·0.4 + (r − 0.5)·v·0.6 + 0.1·(last − target). */
  function StreamValue(c: MetricConfig, last: real, s: real, r: real): (v: real)
    ensures s == 0.0 && r == 0.5 ==> v - c.target == (last - c.target) * 0.1
  {
    var swing := s * c.variation;
    var noise := (r - 0.5) * c.variation;
    c.target + swing * 0.4 + noise * 0.6 + (last - c.target) * 0.1
  }

  /** The live generator's deviation bound is inductive: a value within 7v/9 of the target is
      followed by another one. */
  lemma StreamStaysNear(c: MetricConfig, last: real, s: real, r: real)
    requires c.variation > 0.0
    requires -1.0 <= s <= 1.0 && 0.0 <= r < 1.0
    requires Abs(last - c.target) <= StreamBound(c)
    ensures Abs(StreamValue(c, last, s, r) - c.target) <= StreamBound(c)
  {
    var swing := s * c.variation;
    var noise := (r - 0.5) * c.variation;
    ScaledSine(s, c.variation, swing);
    ScaledNoise(r, c.variation, noise);
    StreamMix(c.variation, swing, noise, last - c.target);
    assert StreamValue(c, last, s, r) - c.target == swing * 0.4 + noise * 0.6 + (last - c.target) * 0.1;
  }

  /** The live generator starts at the target of its metric. */
  function StreamStart(m: Metric): (v: real)
    ensures v == Config(m).target
    ensures Abs(v - Config(m).target) <= StreamBound(Config(m))
  {
    match m
    case Voltage => 230.0
    case Current => 150.0
    case Temperature => 45.0
    case Frequency => 50.0
  }

  /** One backfill value: target + sin(0.05·i)·v·0.5 + (r − 0.5)·v·0.4 + 0.05·(last − target). */
  function BackfillValue(c: MetricConfig, last: real, s: real, r: real): (v: real)
    ensures s == 0.0 && r == 0.5 ==> v - c.target == (last - c.target) * 0.05
  {
    var swing := s * c.variation;
    var noise := (r - 0.5) * c.variation;
    c.target + swing * 0.5 + noise * 0.4 + (last - c.target) * 0.05
  }

  lemma BackfillStaysNear(c: MetricConfig, last: real, s: real, r: real)
    requires c.variation > 0.0
    requires -1.0 <= s <= 1.0 && 0.0 <= r < 1.0
    requires Abs(last - c.target) <= BackfillBound(c)
    ensures Abs(BackfillValue(c, last, s, r) - c.target) <= BackfillBound(c)
  {
    var swing := s * c.variation;
    var noise := (r - 0.5) * c.variation;
    ScaledSine(s, c.variation, swing);
    ScaledNoise(r, c.variation, noise);
    BackfillMix(c.variation, swing, noise, last - c.target);
    assert BackfillValue(c, last, s, r) - c.target == swing * 0.5 + noise * 0.4 + (last - c.target) * 0.05;
  }

  // ---------------------------------------------------------------------------------------------
  // Trend of a generated point

  /** The trend field as the source computes it: `lastValue` has already been overwritten with
      the new value when `newValue > lastValue` is evaluated. */
  function TrendAsWritten(newValue: real): (t: Trend)
    ensures t == Down
  {
    var lastValue := newValue;
    if newValue > lastValue then Up else Down
  }

  /** As written, every rise is labelled differently from the intended trend; 230 followed by
      231 is one such case. */
  lemma TrendAsWrittenMissesRise()
    ensures forall previous, newValue :: newValue > previous ==> TrendAsWritten(newValue) != TrendOf(previous, newValue)
    ensures TrendAsWritten(231.0) != TrendOf(230.0, 231.0)
  {
  }

  /** The trend as evidently intended: the new value compared with the previous one. */
  function TrendOf(previous: real, newValue: real): (t: Trend)
    ensures t == Up <==> newValue > previous
  {
    if newValue > previous then Up else Down
  }

  /** A live point: the new value, the clock reading `now`, and the trend against `last`.
      Returns the point together with the generator's new `lastValue`. */
  function StreamPoint(c: MetricConfig, last: real, s: real, r: real, now: int): (p: (Sample, real))
    ensures p.0.isRealTime && p.0.timestamp == now && p.0.value == p.1
    ensures p.0.trend == Up <==> p.1 > last
  {
    var value := StreamValue(c, last, s, r);
    (Sample(value, now, true, TrendOf(last, value)), value)
  }

  // ---------------------------------------------------------------------------------------------
  // Backfill timestamps

  /** Milliseconds between two backfill points as intended: the range divided by the count. */
  function Spacing(t: TimeRange): (d: nat)
    ensures d * PointCount(t) == RangeMs(t)
    ensures d > 0
  {
    RangeMs(t) / PointCount(t)
  }

  /** The timestamp of point `i` as the source computes it: the spacing is taken as
      `(now − rangeMs) / N` rather than `rangeMs / N`. */
  function TimestampAsWritten(now: int, t: TimeRange, i: nat): (ts: real)
    ensures i + 1 == PointCount(t) ==> ts == now as real
  {
    Countback(now as real, (PointCount(t) - i - 1) as real, IntervalAsWritten(now, t))
  }

  /** The spacing as written: `(now − rangeMs) / N`. */
  function IntervalAsWritten(now: int, t: TimeRange): (d: real)
    ensures d * PointCount(t) as real == (now - RangeMs(t)) as real
    ensures now > RangeMs(t) ==> d > 0.0
  {
    (now - RangeMs(t)) as real / PointCount(t) as real
  }

  /** The point `k` steps of `d` before `end`. */
  function Countback(end: real, k: real, d: real): real {
    end - k * d
  }

  /** As written, the timestamps still increase strictly and end at `now`, provided the clock
      reads later than one range after the epoch. */
  lemma TimestampAsWrittenOrdered(now: int, t: TimeRange, i: nat, j: nat)
    requires now > RangeMs(t) && i < j < PointCount(t)
    ensures TimestampAsWritten(now, t, i) < TimestampAsWritten(now, t, j)
    ensures TimestampAsWritten(now, t, PointCount(t) - 1) == now as real
  {
    var n := PointCount(t);
    QuotientPositive((now - RangeMs(t)) as real, n as real);
    CountbackOrdered(now as real, (n - i - 1) as real, (n - j - 1) as real, IntervalAsWritten(now, t));
    assert Countback(now as real, 0.0, IntervalAsWritten(now, t)) == now as real;
  }

  /** Counting back from `end` in steps of `d > 0`: more steps lie further back. */
  lemma CountbackOrdered(end: real, ki: real, kj: real, d: real)
    requires ki > kj && d > 0.0
    ensures Countback(end, ki, d) < Countback(end, kj, d)
  {
    ScaleMonotone(kj, ki, d);
  }

  /** With a present-day clock (1.7·10^12 ms) the first point of a one-hour backfill lies about
      54 years, not one hour, before `now`. */
  lemma TimestampAsWrittenLeavesRange()
    ensures var now := 1700000000000;
            TimestampAsWritten(now, Last1h, 0) < (now - RangeMs(Last1h)) as real
  {
  }

  /** The number of points a backfill for `rangeKey` produces: 0 for an unknown key, for which
      the source's point table yields `undefined` and its loop never runs. */
  function BackfillLength(rangeKey: string): nat {
    match RangeByKey(rangeKey)
    case Some(t) => PointCount(t)
    case None => 0
  }

  /** The value the backfill walk puts before point `i`: the target for the first point. */
  function WalkPrevious(data: seq<Sample>, c: MetricConfig, i: nat): real
    requires i < |data|
  {
    if i == 0 then c.target else data[i - 1].value
  }

  /** Every value of `data` is the backfill step from the one before it, driven by the i-th sine
      and draw; `data` may stop before the draws run out. */
  predicate WalkPrefix(data: seq<Sample>, c: MetricConfig, sines: seq<real>, draws: seq<real>) {
    && |data| <= |sines| == |draws|
    && forall i :: 0 <= i < |data| ==>
         data[i].value == BackfillValue(c, WalkPrevious(data, c, i), sines[i], draws[i])
  }

  /** The whole walk: one value per sine and draw. */
  predicate FollowsWalk(data: seq<Sample>, c: MetricConfig, sines: seq<real>, draws: seq<real>) {
    |data| == |sines| && WalkPrefix(data, c, sines, draws)
  }

  /** Appending the next step of the walk extends a prefix of it. */
  lemma WalkExtends(data: seq<Sample>, c: MetricConfig, sines: seq<real>, draws: seq<real>, x: Sample)
    requires WalkPrefix(data, c, sines, draws) && |data| < |sines|
    requires x.value == BackfillValue(c, if |data| == 0 then c.target else data[|data| - 1].value,
                                      sines[|data|], draws[|data|])
    ensures WalkPrefix(data + [x], c, sines, draws)
  {
    var e := data + [x];
    forall i | 0 <= i < |e|
      ensures e[i].value == BackfillValue(c, WalkPrevious(e, c, i), sines[i], draws[i])
    {
      if i < |data| {
        assert e[i] == data[i];
        assert WalkPrevious(e, c, i) == WalkPrevious(data, c, i);
      }
    }
  }

  /** The walk leaves no freedom: two series that follow it on the same sines and draws carry
      the same values. */
  lemma {:induction false} WalkDetermined(a: seq<Sample>, b: seq<Sample>, c: MetricConfig, sines: seq<real>, draws: seq<real>, k: nat)
    requires FollowsWalk(a, c, sines, draws) && FollowsWalk(b, c, sines, draws)
    requires k < |a|
    ensures a[k].value == b[k].value
    decreases k
  {
    if k > 0 {
      WalkDetermined(a, b, c, sines, draws, k - 1);
    }
    assert a[k].value == BackfillValue(c, WalkPrevious(a, c, k), sines[k], draws[k]);
    assert b[k].value == BackfillValue(c, WalkPrevious(b, c, k), sines[k], draws[k]);
  }

  /** The walk keeps every value within its bound, whatever the sines and draws. */
  lemma {:induction false} WalkStaysNear(data: seq<Sample>, c: MetricConfig, sines: seq<real>, draws: seq<real>, k: nat)
    requires c.variation > 0.0
    requires FollowsWalk(data, c, sines, draws)
    requires forall i :: 0 <= i < |sines| ==> -1.0 <= sines[i] <= 1.0
    requires forall i :: 0 <= i < |draws| ==> 0.0 <= draws[i] < 1.0
    requires k < |data|
    ensures Abs(data[k].value - c.target) <= BackfillBound(c)
    decreases k
  {
    if k > 0 {
      WalkStaysNear(data, c, sines, draws, k - 1);
    }
    assert Abs(WalkPrevious(data, c, k) - c.target) <= BackfillBound(c);
    BackfillStaysNear(c, WalkPrevious(data, c, k), sines[k], draws[k]);
    assert data[k].value == BackfillValue(c, WalkPrevious(data, c, k), sines[k], draws[k]);
  }

  /** What a successful backfill of metric `c` over range `t` satisfies. */
  ghost predicate IsBackfill(data: seq<Sample>, c: MetricConfig, t: TimeRange, now: int) {
    && |data| == PointCount(t)
    && (forall i :: 0 <= i < |data| ==>
          data[i].timestamp == now - (|data| - 1 - i) * Spacing(t)
          && Abs(data[i].value - c.target) <= BackfillBound(c)
          && !data[i].isRealTime)
    && (|data| > 0 ==> (data[0].trend == Up <==> data[0].value > c.target))
    && (forall i :: 0 < i < |data| ==> (data[i].trend == Up <==> data[i].value > data[i - 1].value))
  }

  /** The first points of a backfill of `n` points: spaced as in `IsBackfill`, within the bound,
      and with the trend against the point before. */
  ghost predicate BackfillPrefix(data: seq<Sample>, c: MetricConfig, t: TimeRange, now: int, n: nat) {
    && |data| <= n
    && (forall i :: 0 <= i < |data| ==>
          data[i].timestamp == now - (n - 1 - i) * Spacing(t)
          && Abs(data[i].value - c.target) <= BackfillBound(c)
          && !data[i].isRealTime)
    && (|data| > 0 ==> (data[0].trend == Up <==> data[0].value > c.target))
    && (forall i :: 0 < i < |data| ==> (data[i].trend == Up <==> data[i].value > data[i - 1].value))
  }

  /** Appending the next point keeps a backfill prefix one. */
  lemma BackfillExtends(data: seq<Sample>, c: MetricConfig, t: TimeRange, now: int, n: nat, x: Sample)
    requires BackfillPrefix(data, c, t, now, n) && |data| < n
    requires x.timestamp == now - (n - |data| - 1) * Spacing(t)
    requires Abs(x.value - c.target) <= BackfillBound(c) && !x.isRealTime
    requires x.trend == TrendOf(if |data| == 0 then c.target else data[|data| - 1].value, x.value)
    ensures BackfillPrefix(data + [x], c, t, now, n)
  {
    var e := data + [x];
    assert forall i :: 0 <= i < |data| ==> e[i] == data[i];
  }

  /** A prefix of full length is a backfill. */
  lemma BackfillPrefixComplete(data: seq<Sample>, c: MetricConfig, t: TimeRange, now: int)
    requires BackfillPrefix(data, c, t, now, PointCount(t)) && |data| == PointCount(t)
    ensures IsBackfill(data, c, t, now)
  {
  }

  /** The loop of `getHistoricalData`: `n` points of the backfill walk for metric `c` over range
      `t`, the i-th driven by `sines[i]` and `draws[i]`. */
  method BackfillSeries(c: MetricConfig, t: TimeRange, now: int, sines: seq<real>, draws: seq<real>)
    returns (data: seq<Sample>)
    requires c.variation > 0.0
    requires |sines| == |draws| == PointCount(t)
    requires forall i :: 0 <= i < |sines| ==> -1.0 <= sines[i] <= 1.0
    requires forall i :: 0 <= i < |draws| ==> 0.0 <= draws[i] < 1.0
    ensures IsBackfill(data, c, t, now)
    ensures FollowsWalk(data, c, sines, draws)
  {
    var n := PointCount(t);
    data := [];
    var last := c.target;
    var i := 0;
    while i < n
      invariant 0 <= i <= n == |sines|
      invariant |data| == i
      invariant Abs(last - c.target) <= BackfillBound(c)
      invariant last == if i == 0 then c.target else data[i - 1].value
      invariant BackfillPrefix(data, c, t, now, n)
      invariant WalkPrefix(data, c, sines, draws)
    {
      var value := BackfillValue(c, last, sines[i], draws[i]);
      BackfillStaysNear(c, last, sines[i], draws[i]);
      var sample := Sample(value, now - (n - i - 1) * Spacing(t), false, TrendOf(last, value));
      BackfillExtends(data, c, t, now, n, sample);
      WalkExtends(data, c, sines, draws, sample);
      data := data + [sample];
      last := value;
      i := i + 1;
    }
    BackfillPrefixComplete(data, c, t, now);
  }

  /** `getHistoricalData(metric, timeRange)` with the intended spacing. `sines[i]` stands for
      `Math.sin(i * 0.05)` and `draws[i]` for the i-th `Math.random()`. */
  method Backfill(metricKey: string, rangeKey: string, now: int, sines: seq<real>, draws: seq<real>)
    returns (r: Result<seq<Sample>, Error>)
    requires |sines| == |draws| == BackfillLength(rangeKey)
    requires forall i :: 0 <= i < |sines| ==> -1.0 <= sines[i] <= 1.0
    requires forall i :: 0 <= i < |draws| ==> 0.0 <= draws[i] < 1.0
    ensures r.Err? <==> MetricByKey(metricKey).None?
    ensures r.Err? ==> r.error == UnknownMetric
    ensures MetricByKey(metricKey).Some? && RangeByKey(rangeKey).None? ==> r == Ok([])
    ensures MetricByKey(metricKey).Some? && RangeByKey(rangeKey).Some? ==>
              r.Ok? && IsBackfill(r.value, Config(MetricByKey(metricKey).value), RangeByKey(rangeKey).value, now)
    ensures MetricByKey(metricKey).Some? && RangeByKey(rangeKey).Some? ==>
              r.Ok? && FollowsWalk(r.value, Config(MetricByKey(metricKey).value), sines, draws)
  {
    var metric := MetricByKey(metricKey);
    if metric.None? {
      return Err(UnknownMetric);
    }
    var range := RangeByKey(rangeKey);
    if range.None? {
      return Ok([]);
    }
    var data := BackfillSeries(Config(metric.value), range.value, now, sines, draws);
    return Ok(data);
  }

  /** Backfill timestamps are strictly increasing, end at `now`, and all lie within the range. */
  lemma BackfillTimeline(data: seq<Sample>, c: MetricConfig, t: TimeRange, now: int)
    requires IsBackfill(data, c, t, now)
    ensures data[|data| - 1].timestamp == now
    ensures forall i, j :: 0 <= i < j < |data| ==> data[i].timestamp < data[j].timestamp
    ensures forall i :: 0 <= i < |data| ==> now - RangeMs(t) < data[i].timestamp <= now
  {
    var n := |data|;
    var d := Spacing(t);
    forall i, j | 0 <= i < j < n
      ensures data[i].timestamp < data[j].timestamp
    {
      assert (n - 1 - i) * d > (n - 1 - j) * d;
    }
    forall i | 0 <= i < n
      ensures now - RangeMs(t) < data[i].timestamp
    {
      assert (n - 1 - i) * d <= (n - 1) * d;
      assert (n - 1) * d == n * d - d;
    }
  }

  /** A 90-point voltage backfill (target 230, variation 8) stays within 230 ± 12. */
  lemma VoltageBackfillSanity(data: seq<Sample>, now: int)
    requires IsBackfill(data, Config(Voltage), Last15m, now)
    ensures |data| == 90
    ensures forall i :: 0 <= i < |data| ==> 218.0 <= data[i].value <= 242.0
  {
  }
}
