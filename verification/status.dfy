/** The system status overview: the health and data-quality gauges with their clamped random
    walk, the four quick statistics kept as text, and the colour and icon lookups. */
module SystemStatus {
  import opened Wrappers
  import opened Numeric
  import opened Text
  import opened Palette

  datatype Metrics = Metrics(
    overallHealth: real,
    dataQuality: real,
    connectionStatus: string,
    lastUpdate: int,
    activeAlerts: int,
    totalAssets: int,
    onlineAssets: int,
    maintenanceScheduled: int)

  /** The gauges' starting values. */
  function InitialMetrics(now: int): (m: Metrics)
    ensures 85.0 <= m.overallHealth <= 95.0 && 98.0 <= m.dataQuality <= 100.0
  {
    Metrics(87.0, 99.2, "connected", now, 3, 24, 22, 2)
  }

  /** The five-second tick of the gauges: health moves by up to ±1 inside [85, 95], quality by up
      to ±0.25 inside [98, 100]; the clock reading is stored and nothing else changes. */
  function TickMetrics(m: Metrics, healthDraw: real, qualityDraw: real, now: int): (r: Metrics)
    requires 0.0 <= healthDraw < 1.0 && 0.0 <= qualityDraw < 1.0
    ensures 85.0 <= r.overallHealth <= 95.0
    ensures 98.0 <= r.dataQuality <= 100.0
    ensures r.lastUpdate == now
    ensures r == m.(overallHealth := r.overallHealth, dataQuality := r.dataQuality, lastUpdate := now)
  {
    m.(lastUpdate := now,
       overallHealth := Clamp(85.0, 95.0, m.overallHealth + (healthDraw - 0.5) * 2.0),
       dataQuality := Clamp(98.0, 100.0, m.dataQuality + (qualityDraw - 0.5) * 0.5))
  }

  /** From a value already inside its band, a tick moves each gauge by no more than its step. */
  lemma TickStepBounded(m: Metrics, healthDraw: real, qualityDraw: real, now: int)
    requires 0.0 <= healthDraw < 1.0 && 0.0 <= qualityDraw < 1.0
    requires 85.0 <= m.overallHealth <= 95.0 && 98.0 <= m.dataQuality <= 100.0
    ensures Abs(TickMetrics(m, healthDraw, qualityDraw, now).overallHealth - m.overallHealth) <= 1.0
    ensures Abs(TickMetrics(m, healthDraw, qualityDraw, now).dataQuality - m.dataQuality) <= 0.25
  {
    ClampTowards(85.0, 95.0, m.overallHealth + (healthDraw - 0.5) * 2.0, m.overallHealth);
    ClampTowards(98.0, 100.0, m.dataQuality + (qualityDraw - 0.5) * 0.5, m.dataQuality);
  }

  /** `getHealthColor` and the gauge stroke: green from 90, yellow from 75, red below. */
  function HealthColour(health: real): (c: Colour)
    ensures c == Green <==> health >= 90.0
    ensures c == Yellow <==> 75.0 <= health < 90.0
    ensures c == Red <==> health < 75.0
  {
    if health >= 90.0 then Green else if health >= 75.0 then Yellow else Red
  }

  /** After any tick the health gauge is never red, and its label `Math.round(health)%` reads
      between 85 and 95. */
  lemma HealthNeverRedAfterTick(m: Metrics, healthDraw: real, qualityDraw: real, now: int)
    requires 0.0 <= healthDraw < 1.0 && 0.0 <= qualityDraw < 1.0
    ensures var r := TickMetrics(m, healthDraw, qualityDraw, now);
            HealthColour(r.overallHealth) != Red && 85 <= Round(r.overallHealth) <= 95
  {
  }

  datatype QuickStat = QuickStat(
    id: string,
    name: string,
    value: string,
    unit: string,
    trend: string,
    trendValue: string,
    status: string,
    icon: string)

  function InitialQuickStats(): seq<QuickStat> {
    [ QuickStat("power-flow", "Power Flow", "1,247", "MW", "up", "+2.3%", "healthy", "⚡"),
      QuickStat("load-factor", "Load Factor", "78.5", "%", "stable", "0.1%", "healthy", "📊"),
      QuickStat("efficiency", "Efficiency", "96.8", "%", "up", "+0.5%", "healthy", "🎯"),
      QuickStat("availability", "Availability", "99.1", "%", "down", "-0.2%", "warning", "🛡️") ]
  }

  /** `(parseFloat(value) + (r - 0.5) * 2).toFixed(1)`: an unparsable value stays "NaN". */
  function NextStatValue(value: string, draw: real): (r: string)
    requires 0.0 <= draw < 1.0
    ensures ParseFloat(value).None? ==> r == "NaN"
  {
    match ParseFloat(value)
    case None => "NaN"
    case Some(v) => RenderFixed1(ToFixed1(v + (draw - 0.5) * 2.0))
  }

  /** A parsable value is rewritten with one decimal, and reads back within 1.05 of the old
      parsed value (1 from the walk, 0.05 from rounding to tenths). */
  lemma NextStatValueNear(value: string, draw: real)
    requires 0.0 <= draw < 1.0
    requires ParseFloat(value).Some?
    ensures var r := NextStatValue(value, draw);
            exists f: Fixed1 :: r == RenderFixed1(f)
              && ParseFloat(r) == Some(Fixed1Value(f))
              && Abs(Fixed1Value(f) - ParseFloat(value).value) <= 1.05
  {
    var v := ParseFloat(value).value;
    var f := ToFixed1(v + (draw - 0.5) * 2.0);
    RenderFixed1RoundTrip(f);
    assert NextStatValue(value, draw) == RenderFixed1(f);
  }

  /** A value that a tick has already rewritten is a multiple of a tenth; the next tick moves it
      by at most 1, since rounding to tenths cannot carry it past the next multiple. */
  lemma NextStatValueNearTenths(f0: Fixed1, draw: real)
    requires 0.0 <= draw < 1.0
    ensures var r := NextStatValue(RenderFixed1(f0), draw);
            exists f: Fixed1 :: r == RenderFixed1(f)
              && ParseFloat(r) == Some(Fixed1Value(f))
              && Abs(Fixed1Value(f) - Fixed1Value(f0)) <= 1.0
  {
    NextStatValueTenthsStep(f0, draw);
    RenderFixed1RoundTrip(ToFixed1(Fixed1Value(f0) + (draw - 0.5) * 2.0));
  }

  /** The step of `NextStatValueNearTenths` for the rounded value itself. */
  lemma NextStatValueTenthsStep(f0: Fixed1, draw: real)
    requires 0.0 <= draw < 1.0
    ensures var f := ToFixed1(Fixed1Value(f0) + (draw - 0.5) * 2.0);
            NextStatValue(RenderFixed1(f0), draw) == RenderFixed1(f)
            && Abs(Fixed1Value(f) - Fixed1Value(f0)) <= 1.0
  {
    RenderFixed1RoundTrip(f0);
    NextStatValueOfParsed(RenderFixed1(f0), draw, Fixed1Value(f0));
    ToFixed1StepNear(f0, (draw - 0.5) * 2.0);
  }

  /** A value that parses as `v` is rewritten as `v` plus the walk's step, rounded to tenths. */
  lemma NextStatValueOfParsed(value: string, draw: real, v: real)
    requires 0.0 <= draw < 1.0
    requires ParseFloat(value) == Some(v)
    ensures NextStatValue(value, draw) == RenderFixed1(ToFixed1(v + (draw - 0.5) * 2.0))
  {
  }

  /** The power-flow figure "1,247" is read up to its comma: the first tick restarts it near 1. */
  lemma PowerFlowRestartsNearOne(draw: real)
    requires 0.0 <= draw < 1.0
    ensures var r := NextStatValue("1,247", draw);
            exists f: Fixed1 :: r == RenderFixed1(f) && Abs(Fixed1Value(f) - 1.0) <= 1.05
  {
    ParseFloatStopsAtComma();
    NextStatValueNear("1,247", draw);
  }

  /** One tick over the statistics: only the values change. */
  function TickQuickStats(stats: seq<QuickStat>, draws: seq<real>): (r: seq<QuickStat>)
    requires |draws| == |stats|
    requires forall i :: 0 <= i < |draws| ==> 0.0 <= draws[i] < 1.0
    ensures |r| == |stats|
    ensures forall i :: 0 <= i < |r| ==>
              r[i] == stats[i].(value := NextStatValue(stats[i].value, draws[i]))
  {
    if |stats| == 0 then []
    else [stats[0].(value := NextStatValue(stats[0].value, draws[0]))] + TickQuickStats(stats[1..], draws[1..])
  }

  /** Ticking keeps every identifying field of every statistic. */
  lemma TickKeepsIdentity(stats: seq<QuickStat>, draws: seq<real>)
    requires |draws| == |stats|
    requires forall i :: 0 <= i < |draws| ==> 0.0 <= draws[i] < 1.0
    ensures var r := TickQuickStats(stats, draws);
            forall i :: 0 <= i < |r| ==>
              r[i].id == stats[i].id && r[i].name == stats[i].name && r[i].unit == stats[i].unit
              && r[i].trend == stats[i].trend && r[i].status == stats[i].status
  {
  }

  datatype TrendMark = Rising | Falling | Level

  /** `getTrendIcon`: "up" and "down" have their arrows; any other trend is level. */
  function TrendMarkOf(trend: string): (t: TrendMark)
    ensures t == Rising <==> trend == "up"
    ensures t == Falling <==> trend == "down"
    ensures t == Level <==> trend != "up" && trend != "down"
  {
    if trend == "up" then Rising else if trend == "down" then Falling else Level
  }

  /** `getTrendColor` agrees with the icon: green for rising, red for falling, gray otherwise. */
  function TrendColour(trend: string): (c: Colour)
    ensures c == Green <==> TrendMarkOf(trend) == Rising
    ensures c == Red <==> TrendMarkOf(trend) == Falling
    ensures c == Gray <==> TrendMarkOf(trend) == Level
  {
    match trend
    case "up" => Green
    case "down" => Red
    case _ => Gray
  }
}
