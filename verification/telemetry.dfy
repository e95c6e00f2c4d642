/** Data model of the streaming telemetry chart: the four metrics with their generator constants,
    the four backfill ranges, and the sample record the chart keeps. */
module Telemetry {
  import opened Wrappers

  datatype Metric = Voltage | Current | Temperature | Frequency

  /** Generator constants of a metric: the value series reverts towards `target` and its
      random swing scales with `variation`; live samples arrive every `intervalMs`. */
  datatype MetricConfig = MetricConfig(target: real, variation: real, intervalMs: nat)

  function Config(m: Metric): (c: MetricConfig)
    ensures c.variation > 0.0 && c.intervalMs > 0
  {
    match m
    case Voltage => MetricConfig(230.0, 8.0, 500)
    case Current => MetricConfig(150.0, 25.0, 400)
    case Temperature => MetricConfig(45.0, 12.0, 800)
    case Frequency => MetricConfig(50.0, 0.2, 600)
  }

  function MetricKey(m: Metric): string {
    match m
    case Voltage => "voltage"
    case Current => "current"
    case Temperature => "temperature"
    case Frequency => "frequency"
  }

  /** Lookup of a metric by its key; `None` where the source's lookup table yields `undefined`. */
  function MetricByKey(key: string): (r: Option<Metric>)
    ensures r.Some? ==> MetricKey(r.value) == key
    ensures forall m :: MetricKey(m) == key ==> r == Some(m)
  {
    if key == "voltage" then Some(Voltage)
    else if key == "current" then Some(Current)
    else if key == "temperature" then Some(Temperature)
    else if key == "frequency" then Some(Frequency)
    else None
  }

  datatype TimeRange = Last15m | Last1h | Last6h | Last24h

  function RangeKey(t: TimeRange): string {
    match t
    case Last15m => "15m"
    case Last1h => "1h"
    case Last6h => "6h"
    case Last24h => "24h"
  }

  function RangeByKey(key: string): (r: Option<TimeRange>)
    ensures r.Some? ==> RangeKey(r.value) == key
    ensures forall t :: RangeKey(t) == key ==> r == Some(t)
  {
    if key == "15m" then Some(Last15m)
    else if key == "1h" then Some(Last1h)
    else if key == "6h" then Some(Last6h)
    else if key == "24h" then Some(Last24h)
    else None
  }

  /** Number of points a backfill returns for a range. */
  function PointCount(t: TimeRange): nat {
    match t
    case Last15m => 90
    case Last1h => 120
    case Last6h => 144
    case Last24h => 288
  }

  /** Length of a range in milliseconds. */
  function RangeMs(t: TimeRange): nat {
    match t
    case Last15m => 15 * 60 * 1000
    case Last1h => 60 * 60 * 1000
    case Last6h => 6 * 60 * 60 * 1000
    case Last24h => 24 * 60 * 60 * 1000
  }

  datatype Trend = Up | Down

  /** A chart point. `value` is kept exact (the source rounds it to two decimals for display). */
  datatype Sample = Sample(value: real, timestamp: int, isRealTime: bool, trend: Trend)

  function Values(data: seq<Sample>): (vs: seq<real>)
    ensures |vs| == |data|
    ensures forall i :: 0 <= i < |data| ==> vs[i] == data[i].value
  {
    if |data| == 0 then [] else [data[0].value] + Values(data[1..])
  }

  lemma ValuesSuffix(data: seq<Sample>, k: nat)
    requires k <= |data|
    ensures Values(data[k..]) == Values(data)[k..]
  {
  }
}
