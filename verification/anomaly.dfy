/** The anomaly scorer of the telemetry chart (`predictAnomaly`): population variance of the most
    recent samples, a variance threshold, a random false-alarm channel and a random confidence.
    Both random draws are parameters in [0, 1). */
module Anomaly {
  import opened Wrappers
  import opened Numeric
  import opened Telemetry

  /** How many of the most recent samples the scorer looks at. */
  const RecentCount: nat := 10
  const VarianceThreshold: real := 100.0
  /** Probability of an alarm raised regardless of the data. */
  const FalseAlarmRate: real := 0.03

  datatype Severity = Low | Medium | High

  datatype Insight = Insight(isAnomaly: bool, confidence: int, message: string, severity: Severity)

  /** `data.slice(-10)`: the last ten samples, or all of them when there are fewer. */
  function Recent(data: seq<Sample>): (r: seq<Sample>)
    ensures |r| == if |data| < RecentCount then |data| else RecentCount
    ensures r == data[|data| - |r|..]
  {
    if |data| <= RecentCount then data else data[|data| - RecentCount..]
  }

  /** Population variance of the recent values; `None` stands for the `NaN` of an empty window. */
  function RecentVariance(data: seq<Sample>): Option<real> {
    Variance(Values(Recent(data)))
  }

  /** A list of a single value has variance 0. */
  lemma ShortVarianceZero(xs: seq<real>)
    ensures |xs| == 1 ==> Variance(xs) == Some(0.0)
  {
    if |xs| == 1 {
      assert Constant(xs);
      ConstantVarianceZero(xs);
    }
  }

  /** The variance test; `NaN > 100` is false, so an empty window is never volatile. */
  predicate Volatile(data: seq<Sample>): (b: bool)
    ensures b ==> |data| >= 2
  {
    var xs := Values(Recent(data));
    assert |xs| == 1 ==> Constant(xs);
    ShortVarianceZero(xs);
    var v := RecentVariance(data);
    v.Some? && v.value > VarianceThreshold
  }

  /** The confidence before it is reported: a draw mapped onto [0.2, 1.0). */
  function RawConfidence(confidenceDraw: real): real {
    confidenceDraw * 0.8 + 0.2
  }

  function Predict(data: seq<Sample>, alarmDraw: real, confidenceDraw: real): (r: Insight)
    requires 0.0 <= alarmDraw < 1.0 && 0.0 <= confidenceDraw < 1.0
    ensures r.isAnomaly <==> Volatile(data) || alarmDraw < FalseAlarmRate
    ensures 20 <= r.confidence <= 100
    ensures r.severity == Low <==> !r.isAnomaly
    ensures r.severity == High <==> r.isAnomaly && RawConfidence(confidenceDraw) > 0.7
    ensures r.message == "Volatility Alert" <==> r.isAnomaly
  {
    var isAnomaly := Volatile(data) || alarmDraw < FalseAlarmRate;
    var confidence := RawConfidence(confidenceDraw);
    Insight(
      isAnomaly,
      Round(confidence * 100.0),
      if isAnomaly then "Volatility Alert" else "Stable Pattern",
      if isAnomaly then (if confidence > 0.7 then High else Medium) else Low)
  }

  /** Only the last ten samples influence the signal: older history can be anything. */
  lemma OnlyRecentMatter(older: seq<Sample>, data: seq<Sample>, alarmDraw: real, confidenceDraw: real)
    requires |data| >= RecentCount
    requires 0.0 <= alarmDraw < 1.0 && 0.0 <= confidenceDraw < 1.0
    ensures Predict(older + data, alarmDraw, confidenceDraw) == Predict(data, alarmDraw, confidenceDraw)
  {
    assert Recent(older + data) == Recent(data) by {
      assert (older + data)[|older + data| - RecentCount..] == data[|data| - RecentCount..];
    }
  }

  /** A window of at most one sample, or of equal samples, has no volatility: it raises an alarm
      only through the false-alarm draw. */
  lemma CalmWindow(data: seq<Sample>, alarmDraw: real, confidenceDraw: real)
    requires 0.0 <= alarmDraw < 1.0 && 0.0 <= confidenceDraw < 1.0
    requires Constant(Values(Recent(data)))
    ensures Predict(data, alarmDraw, confidenceDraw).isAnomaly <==> alarmDraw < FalseAlarmRate
  {
    if |data| > 0 {
      ConstantVarianceZero(Values(Recent(data)));
    }
  }

  lemma ShortWindowCalm(data: seq<Sample>, alarmDraw: real, confidenceDraw: real)
    requires |data| <= 1
    requires 0.0 <= alarmDraw < 1.0 && 0.0 <= confidenceDraw < 1.0
    ensures Predict(data, alarmDraw, confidenceDraw).isAnomaly <==> alarmDraw < FalseAlarmRate
  {
    assert Recent(data) == data;
    CalmWindow(data, alarmDraw, confidenceDraw);
  }

  /** The reported percentage and the severity agree except at exactly 70: an anomaly reported
      with confidence 71 or more is high, one with 69 or less is medium. */
  lemma SeverityFollowsConfidence(data: seq<Sample>, alarmDraw: real, confidenceDraw: real)
    requires 0.0 <= alarmDraw < 1.0 && 0.0 <= confidenceDraw < 1.0
    ensures var r := Predict(data, alarmDraw, confidenceDraw);
            r.isAnomaly && r.confidence >= 71 ==> r.severity == High
    ensures var r := Predict(data, alarmDraw, confidenceDraw);
            r.isAnomaly && r.confidence <= 69 ==> r.severity == Medium
  {
  }

  /** `n` swings: 100, -100, 100, -100, ... */
  function Swing(n: nat): seq<real> {
    if n == 0 then [] else [100.0, -100.0] + Swing(n - 1)
  }

  lemma {:induction false} SwingStatistics(n: nat)
    ensures |Swing(n)| == 2 * n
    ensures Sum(Swing(n)) == 0.0
    ensures SquaredDeviation(Swing(n), 0.0) == 20000.0 * n as real
  {
    if n > 0 {
      SwingStatistics(n - 1);
      var s := Swing(n);
      assert s[1..] == [-100.0] + Swing(n - 1);
      assert s[1..][1..] == Swing(n - 1);
    }
  }

  /** A non-empty swing has mean 0 and population variance 10000. */
  lemma SwingVariance(n: nat)
    requires n > 0
    ensures Variance(Swing(n)) == Some(10000.0)
  {
    SwingStatistics(n);
    var xs := Swing(n);
    var len := |xs| as real;
    assert len == 2.0 * n as real;
    assert Sum(xs) / len == 0.0;
    assert SquaredDeviation(xs, 0.0) == 10000.0 * len;
    assert 10000.0 * len / len == 10000.0;
  }

  /** Up to ten samples swinging between 100 and -100 (variance 10000) always raise the alarm. */
  lemma AlternatingSwingAlarms(data: seq<Sample>, n: nat, alarmDraw: real, confidenceDraw: real)
    requires 0 < n <= 5 && Values(data) == Swing(n)
    requires 0.0 <= alarmDraw < 1.0 && 0.0 <= confidenceDraw < 1.0
    ensures Predict(data, alarmDraw, confidenceDraw).isAnomaly
  {
    SwingStatistics(n);
    assert |data| <= RecentCount;
    assert Recent(data) == data;
    SwingVariance(n);
  }
}
