/** The live chart window: every streamed point is appended as `[...prev.slice(1), point]`, and
    the anomaly model is re-run whenever the new window's length is divisible by 8. */
module Window {
  import opened Wrappers
  import opened Telemetry
  import Anomaly

  /** Drop the oldest sample and append `p`; an empty window becomes `[p]`. */
  function Append<T>(prev: seq<T>, p: T): (w: seq<T>)
    ensures |w| == if |prev| == 0 then 1 else |prev|
    ensures w[|w| - 1] == p
    ensures forall i :: 0 <= i < |w| - 1 ==> w[i] == prev[i + 1]
  {
    if |prev| == 0 then [p] else prev[1..] + [p]
  }

  /** Stream `xs` into the window, oldest first. */
  function AppendAll<T>(w: seq<T>, xs: seq<T>): seq<T>
    decreases |xs|
  {
    if |xs| == 0 then w else AppendAll(Append(w, xs[0]), xs[1..])
  }

  /** A non-empty window that has received `xs` holds exactly the last |w| samples of `w + xs`:
      the window keeps its size and its order. */
  lemma {:induction false} AppendAllSlides<T>(w: seq<T>, xs: seq<T>)
    requires |w| > 0
    ensures |AppendAll(w, xs)| == |w|
    ensures AppendAll(w, xs) == (w + xs)[|xs|..]
    decreases |xs|
  {
    if |xs| > 0 {
      var w' := Append(w, xs[0]);
      assert w' == (w + [xs[0]])[1..];
      AppendAllSlides(w', xs[1..]);
      assert w' + xs[1..] == (w + xs)[1..];
    }
  }

  /** The re-scoring cadence of the live stream. */
  predicate Rescores(windowLength: nat) {
    windowLength % 8 == 0
  }

  /** A 15-minute window (90 points) is never re-scored while streaming; the 1h, 6h and 24h
      windows (120, 144, 288 points) are re-scored on every sample. */
  lemma RescoreCadence(t: TimeRange)
    ensures Rescores(PointCount(t)) <==> t != Last15m
  {
  }

  /** One streamed point: the new window and, on the cadence, the fresh anomaly insight. */
  function StreamUpdate(prev: seq<Sample>, p: Sample, alarmDraw: real, confidenceDraw: real)
    : (r: (seq<Sample>, Option<Anomaly.Insight>))
    requires 0.0 <= alarmDraw < 1.0 && 0.0 <= confidenceDraw < 1.0
    ensures r.0 == Append(prev, p)
    ensures r.1.Some? <==> Rescores(|r.0|)
    ensures r.1.Some? ==> (r.1.value.isAnomaly <==> Anomaly.Volatile(r.0) || alarmDraw < Anomaly.FalseAlarmRate)
    ensures r.1.Some? ==> r.1.value == Anomaly.Predict(r.0, alarmDraw, confidenceDraw)
  {
    var w := Append(prev, p);
    if Rescores(|w|) then (w, Some(Anomaly.Predict(w, alarmDraw, confidenceDraw))) else (w, None)
  }

  /** After a backfill of range `t`, streaming keeps the window at the backfill's length, and
      every update is re-scored exactly when the range is not 15 minutes. */
  lemma StreamedWindowCadence(backfill: seq<Sample>, t: TimeRange, p: Sample, alarmDraw: real, confidenceDraw: real)
    requires |backfill| == PointCount(t)
    requires 0.0 <= alarmDraw < 1.0 && 0.0 <= confidenceDraw < 1.0
    ensures |StreamUpdate(backfill, p, alarmDraw, confidenceDraw).0| == PointCount(t)
    ensures StreamUpdate(backfill, p, alarmDraw, confidenceDraw).1.Some? <==> t != Last15m
  {
    RescoreCadence(t);
  }
}
