/** The real-time parameters panel: four rolling series of 20 readings, refreshed every second,
    drawn as bars against fixed axis bounds. */
module RealTime {
  import opened Numeric
  import Window

  datatype Channel = Voltage | Current | Frequency | Temperature

  /** Number of readings each series holds. */
  const SeriesLength := 20

  /** Readings of channel `c` are drawn uniformly from [Low(c), Low(c) + Spread(c)). */
  function Low(c: Channel): real {
    match c
    case Voltage => 395.0
    case Current => 1100.0
    case Frequency => 49.9
    case Temperature => 60.0
  }

  function Spread(c: Channel): (w: real)
    ensures w > 0.0
  {
    match c
    case Voltage => 10.0
    case Current => 200.0
    case Frequency => 0.2
    case Temperature => 10.0
  }

  /** One reading from the uniform draw `r`. */
  function Reading(c: Channel, r: real): (v: real)
    requires 0.0 <= r < 1.0
    ensures Low(c) <= v < Low(c) + Spread(c)
  {
    ProductNonNegative(r, Spread(c));
    ScaleMonotone(r, 1.0, Spread(c));
    r * Spread(c) + Low(c)
  }

  predicate InBand(c: Channel, v: real) {
    Low(c) <= v < Low(c) + Spread(c)
  }

  /** The bar chart's axis bounds `min` and `max` of channel `c`. */
  function AxisMin(c: Channel): real {
    match c
    case Voltage => 390.0
    case Current => 1000.0
    case Frequency => 49.8
    case Temperature => 55.0
  }

  function AxisMax(c: Channel): (m: real)
    ensures m > AxisMin(c)
  {
    match c
    case Voltage => 410.0
    case Current => 1400.0
    case Frequency => 50.2
    case Temperature => 75.0
  }

  datatype Charts = Charts(voltage: seq<real>, current: seq<real>, frequency: seq<real>, temperature: seq<real>)

  function Series(charts: Charts, c: Channel): seq<real> {
    match c
    case Voltage => charts.voltage
    case Current => charts.current
    case Frequency => charts.frequency
    case Temperature => charts.temperature
  }

  /** Every series holds 20 readings from its channel's band. */
  predicate Wf(charts: Charts) {
    forall c: Channel :: |Series(charts, c)| == SeriesLength
      && forall i :: 0 <= i < SeriesLength ==> InBand(c, Series(charts, c)[i])
  }

  predicate ValidDraws(draws: seq<real>) {
    forall i :: 0 <= i < |draws| ==> 0.0 <= draws[i] < 1.0
  }

  function Readings(c: Channel, draws: seq<real>): (vs: seq<real>)
    requires ValidDraws(draws)
    ensures |vs| == |draws|
    ensures forall i :: 0 <= i < |vs| ==> vs[i] == Reading(c, draws[i])
  {
    if |draws| == 0 then [] else [Reading(c, draws[0])] + Readings(c, draws[1..])
  }

  /** The initial state: 20 fresh readings per series. */
  function Init(dv: seq<real>, dc: seq<real>, df: seq<real>, dt: seq<real>): (charts: Charts)
    requires |dv| == |dc| == |df| == |dt| == SeriesLength
    requires ValidDraws(dv) && ValidDraws(dc) && ValidDraws(df) && ValidDraws(dt)
    ensures Wf(charts)
  {
    Charts(Readings(Voltage, dv), Readings(Current, dc), Readings(Frequency, df), Readings(Temperature, dt))
  }

  /** One second: every series drops its oldest reading and appends a fresh one. */
  function Tick(charts: Charts, rv: real, rc: real, rf: real, rt: real): (r: Charts)
    requires 0.0 <= rv < 1.0 && 0.0 <= rc < 1.0 && 0.0 <= rf < 1.0 && 0.0 <= rt < 1.0
    ensures forall c: Channel :: |Series(charts, c)| > 0 ==>
              |Series(r, c)| == |Series(charts, c)|
              && (forall i :: 0 <= i < |Series(r, c)| - 1 ==> Series(r, c)[i] == Series(charts, c)[i + 1])
  {
    Charts(
      Window.Append(charts.voltage, Reading(Voltage, rv)),
      Window.Append(charts.current, Reading(Current, rc)),
      Window.Append(charts.frequency, Reading(Frequency, rf)),
      Window.Append(charts.temperature, Reading(Temperature, rt)))
  }

  /** The draw a tick spends on channel `c`. */
  function DrawFor(c: Channel, rv: real, rc: real, rf: real, rt: real): real {
    match c
    case Voltage => rv
    case Current => rc
    case Frequency => rf
    case Temperature => rt
  }

  /** A tick keeps every series at 20 readings from its band. */
  lemma TickKeepsWf(charts: Charts, rv: real, rc: real, rf: real, rt: real)
    requires Wf(charts)
    requires 0.0 <= rv < 1.0 && 0.0 <= rc < 1.0 && 0.0 <= rf < 1.0 && 0.0 <= rt < 1.0
    ensures Wf(Tick(charts, rv, rc, rf, rt))
  {
    var r := Tick(charts, rv, rc, rf, rt);
    forall c: Channel
      ensures |Series(r, c)| == SeriesLength
      ensures forall i :: 0 <= i < SeriesLength ==> InBand(c, Series(r, c)[i])
    {
      var before := Series(charts, c);
      assert Series(r, c) == Window.Append(before, Reading(c, DrawFor(c, rv, rc, rf, rt)));
    }
  }

  /** The newest reading of each series after a tick is the fresh one. */
  lemma TickAppendsFresh(charts: Charts, rv: real, rc: real, rf: real, rt: real)
    requires 0.0 <= rv < 1.0 && 0.0 <= rc < 1.0 && 0.0 <= rf < 1.0 && 0.0 <= rt < 1.0
    ensures var r := Tick(charts, rv, rc, rf, rt);
            r.voltage[|r.voltage| - 1] == Reading(Voltage, rv)
            && r.current[|r.current| - 1] == Reading(Current, rc)
            && r.frequency[|r.frequency| - 1] == Reading(Frequency, rf)
            && r.temperature[|r.temperature| - 1] == Reading(Temperature, rt)
  {
  }

  /** Height of a bar, in percent of the chart area. */
  function BarHeight(c: Channel, v: real): real {
    (v - AxisMin(c)) / (AxisMax(c) - AxisMin(c)) * 100.0
  }

  /** Every generated reading fills between a quarter and three quarters of the chart height. */
  lemma BarHeightBand(c: Channel, v: real)
    requires InBand(c, v)
    ensures 25.0 <= BarHeight(c, v) < 75.0
  {
  }

  /** The figures above the selected chart: the newest reading and the series' range. */
  datatype Summary = Summary(current: real, min: real, max: real)

  function Summarize(data: seq<real>): (s: Summary)
    requires |data| > 0
    ensures s.min <= s.current <= s.max
    ensures s.min in data && s.max in data && s.current == data[|data| - 1]
    ensures forall i :: 0 <= i < |data| ==> s.min <= data[i] <= s.max
  {
    Summary(data[|data| - 1], MinOf(data), MaxOf(data))
  }
}
