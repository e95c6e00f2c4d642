/** The equipment monitor: per-item metric maps refreshed every three seconds by a random walk
    on six fixed keys, with the label and unit-suffix rules of the metric rows. */
module Equipment {
  import opened Numeric
  import opened Text

  /** A metric value as JavaScript holds it: a number, a text, or `NaN` (the result of adding to
      `undefined`). */
  datatype Reading = Num(value: real) | Label(text: string) | NaN

  datatype Item = Item(
    id: int,
    name: string,
    kind: string,
    metrics: map<string, Reading>,
    status: string,
    location: string)

  /** The six keys every tick writes. */
  predicate Walked(key: string) {
    key == "primaryVoltage" || key == "secondaryVoltage" || key == "current"
    || key == "oilTemp" || key == "windingTemp" || key == "temperature"
  }

  const WalkedKeys: set<string> :=
    {"primaryVoltage", "secondaryVoltage", "current", "oilTemp", "windingTemp", "temperature"}

  /** The position of a walked key in the tick's object literal, which is the order in which
      it consumes random draws. */
  function DrawIndex(key: string): (i: nat)
    requires Walked(key)
    ensures i < 6
  {
    if key == "primaryVoltage" then 0
    else if key == "secondaryVoltage" then 1
    else if key == "current" then 2
    else if key == "oilTemp" then 3
    else if key == "windingTemp" then 4
    else 5
  }

  /** The width of each key's uniform step: the value moves by `(r - 0.5) * Width(key)`. */
  function Width(key: string): (w: real)
    ensures w > 0.0
  {
    if key == "primaryVoltage" then 0.5
    else if key == "secondaryVoltage" then 0.3
    else if key == "current" then 10.0
    else 0.5
  }

  /** `value + (r - 0.5) * width`, where a missing value is `undefined` and any non-number
      yields `NaN`. */
  function Walk(value: Reading, draw: real, width: real): (r: Reading)
    requires 0.0 <= draw < 1.0 && width > 0.0
    ensures r.Num? <==> value.Num?
    ensures value.Num? ==> Abs(r.value - value.value) <= width / 2.0
  {
    match value
    case Num(v) =>
      var step := (draw - 0.5) * width;
      assert -width / 2.0 <= step < width / 2.0 by {
        ProductNonNegative(draw, width);
        ProductNonNegative(1.0 - draw, width);
        assert step == draw * width - width / 2.0;
        assert (1.0 - draw) * width == width - draw * width;
        assert (1.0 - draw) * width != 0.0;
      }
      Num(v + step)
    case _ => NaN
  }

  function Get(metrics: map<string, Reading>, key: string): Reading {
    if key in metrics then metrics[key] else NaN
  }

  predicate ValidDraws(draws: seq<real>) {
    |draws| == 6 && forall i :: 0 <= i < 6 ==> 0.0 <= draws[i] < 1.0
  }

  /** `{...metrics, primaryVoltage: ..., ..., temperature: ...}`: the six walked keys are
      (over)written, every other key is copied. */
  function TickMetrics(metrics: map<string, Reading>, draws: seq<real>): (r: map<string, Reading>)
    requires ValidDraws(draws)
    ensures r.Keys == metrics.Keys + WalkedKeys
    ensures forall k :: k in metrics && !Walked(k) ==> r[k] == metrics[k]
    ensures forall k :: Walked(k) ==> k in r && (r[k].Num? <==> Get(metrics, k).Num?)
    ensures forall k :: Walked(k) && Get(metrics, k).Num? ==> Abs(r[k].value - Get(metrics, k).value) <= Width(k) / 2.0
  {
    map k | k in metrics.Keys + WalkedKeys ::
      if Walked(k) then Walk(Get(metrics, k), draws[DrawIndex(k)], Width(k)) else metrics[k]
  }

  /** The refresh of one item: only its metrics change. */
  function TickItem(item: Item, draws: seq<real>): (r: Item)
    requires ValidDraws(draws)
    ensures r == item.(metrics := r.metrics)
    ensures r.metrics == TickMetrics(item.metrics, draws)
  {
    item.(metrics := TickMetrics(item.metrics, draws))
  }

  /** Per-tick bounds of each walked key that held a number. */
  lemma StepBounds(metrics: map<string, Reading>, draws: seq<real>)
    requires ValidDraws(draws)
    ensures var r := TickMetrics(metrics, draws);
            (Get(metrics, "primaryVoltage").Num? ==>
               Abs(r["primaryVoltage"].value - Get(metrics, "primaryVoltage").value) <= 0.25)
            && (Get(metrics, "secondaryVoltage").Num? ==>
               Abs(r["secondaryVoltage"].value - Get(metrics, "secondaryVoltage").value) <= 0.15)
            && (Get(metrics, "current").Num? ==>
               Abs(r["current"].value - Get(metrics, "current").value) <= 5.0)
            && (Get(metrics, "oilTemp").Num? ==>
               Abs(r["oilTemp"].value - Get(metrics, "oilTemp").value) <= 0.25)
  {
  }

  /** The refresh of the whole list: same items in the same order, same identities. */
  function Tick(items: seq<Item>, draws: seq<seq<real>>): (r: seq<Item>)
    requires |draws| == |items|
    requires forall i :: 0 <= i < |draws| ==> ValidDraws(draws[i])
    ensures |r| == |items|
    ensures forall i :: 0 <= i < |r| ==> r[i] == TickItem(items[i], draws[i])
  {
    seq(|items|, i requires 0 <= i < |items| => TickItem(items[i], draws[i]))
  }

  /** A tick keeps each item's id, name, type, status and location. */
  lemma TickKeepsIdentity(items: seq<Item>, draws: seq<seq<real>>)
    requires |draws| == |items|
    requires forall i :: 0 <= i < |draws| ==> ValidDraws(draws[i])
    ensures var r := Tick(items, draws);
            forall i :: 0 <= i < |r| ==>
              r[i].id == items[i].id && r[i].name == items[i].name && r[i].kind == items[i].kind
              && r[i].status == items[i].status && r[i].location == items[i].location
  {
  }

  function InitialItems(): seq<Item> {
    [ Item(1, "Transformer T1", "transformer",
           map["primaryVoltage" := Num(398.5), "secondaryVoltage" := Num(220.1), "current" := Num(1245.0),
               "oilTemp" := Num(65.0), "windingTemp" := Num(68.0), "load" := Num(82.0)],
           "healthy", "Bay 1"),
      Item(2, "Transformer T2", "transformer",
           map["primaryVoltage" := Num(397.8), "secondaryVoltage" := Num(219.8), "current" := Num(1310.0),
               "oilTemp" := Num(71.0), "windingTemp" := Num(75.0), "load" := Num(85.0)],
           "warning", "Bay 2"),
      Item(3, "Circuit Breaker CB1", "breaker",
           map["status" := Label("closed"), "operations" := Num(1247.0), "wear" := Num(12.0)],
           "healthy", "Switchyard"),
      Item(4, "Reactor R1", "reactor",
           map["current" := Num(890.0), "temperature" := Num(58.0), "reactance" := Num(45.2)],
           "healthy", "Reactor Bay") ]
  }

  /** After the first tick the breaker shows all six walked keys, as `NaN`, next to its own. */
  lemma BreakerGainsNaNRows(draws: seq<real>)
    requires ValidDraws(draws)
    ensures var r := TickItem(InitialItems()[2], draws).metrics;
            r.Keys == {"status", "operations", "wear"} + WalkedKeys
            && (forall k :: Walked(k) ==> r[k] == NaN)
            && r["status"] == Label("closed")
  {
    var metrics := InitialItems()[2].metrics;
    assert metrics.Keys == {"status", "operations", "wear"};
    MissingKeysBecomeNaN(metrics, draws);
  }

  /** An item lacking every walked key gains all six, each as `NaN`, and keeps its own rows. */
  lemma MissingKeysBecomeNaN(metrics: map<string, Reading>, draws: seq<real>)
    requires ValidDraws(draws)
    requires forall k :: Walked(k) ==> k !in metrics
    ensures var r := TickMetrics(metrics, draws);
            r.Keys == metrics.Keys + WalkedKeys
            && (forall k :: Walked(k) ==> r[k] == NaN)
            && (forall k :: k in metrics ==> r[k] == metrics[k])
  {
  }

  /** The row caption: `key.replace(/([A-Z])/g, ' $1')`, with no trim. */
  function RowLabel(key: string): (r: string)
    ensures JoinBeforeUpper(r) == key
    ensures |r| == |key| + CountUpper(key)
  {
    SpaceBeforeUpperRoundTrip(key);
    SpaceBeforeUpper(key)
  }

  /** The unit after a row's value, by the first rule that matches. */
  function UnitSuffix(key: string): (u: string)
    ensures Contains(key, "Voltage") ==> u == " kV"
    ensures !Contains(key, "Voltage") && Contains(key, "current") ==> u == " A"
    ensures (!Contains(key, "Voltage") && !Contains(key, "current")
             && (Contains(key, "Temp") || Contains(key, "temperature"))) ==> u == "°C"
    ensures u == "" <==> !Contains(key, "Voltage") && !Contains(key, "current") && !Contains(key, "Temp")
                         && !Contains(key, "temperature") && key != "load" && key != "reactance"
  {
    if Contains(key, "Voltage") then " kV"
    else if Contains(key, "current") then " A"
    else if Contains(key, "Temp") || Contains(key, "temperature") then "°C"
    else if key == "load" then "%"
    else if key == "reactance" then " Ω"
    else ""
  }

  /** The two voltages are in kilovolts. */
  lemma VoltageUnit(key: string)
    requires key == "primaryVoltage" || key == "secondaryVoltage"
    ensures UnitSuffix(key) == " kV"
  {
    assert OccursAt(key, "Voltage", |key| - 7);
    ContainsIff(key, "Voltage");
  }

  /** Current is in amperes. */
  lemma CurrentUnit(key: string)
    requires key == "current"
    ensures UnitSuffix(key) == " A"
  {
    NotContainsWithout(key, "Voltage", 0);
    assert StartsWith(key, "current");
  }

  /** A key naming a temperature, with neither 'V' nor 'c', is in degrees. */
  lemma DegreeUnit(key: string)
    requires 'V' !in key && 'c' !in key
    requires Contains(key, "Temp") || Contains(key, "temperature")
    ensures UnitSuffix(key) == "°C"
  {
    NotContainsWithout(key, "Voltage", 0);
    NotContainsWithout(key, "current", 0);
  }

  /** The three temperature keys of the equipment list are in degrees. */
  lemma TemperatureUnits(key: string)
    requires key == "oilTemp" || key == "windingTemp" || key == "temperature"
    ensures UnitSuffix(key) == "°C"
  {
    if key == "temperature" {
      assert StartsWith(key, "temperature");
    } else {
      assert OccursAt(key, "Temp", |key| - 4);
      ContainsIff(key, "Temp");
    }
    DegreeUnit(key);
  }

  /** Load and reactance match by equality. */
  lemma ExactUnit(key: string)
    requires key == "load" || key == "reactance"
    ensures UnitSuffix(key) == (if key == "load" then "%" else " Ω")
  {
    NotContainsWithout(key, "Voltage", 0);
    NotContainsWithout(key, "current", 1);
    NotContainsWithout(key, "Temp", 0);
    NotContainsWithout(key, "temperature", 2);
  }

  /** A key matching no rule gets no unit: none of 'V', 'c', 'T', 'm', and neither "load" nor
      "reactance". The breaker's keys "status", "operations" and "wear" are such keys. */
  lemma Unitless(key: string)
    requires 'V' !in key && 'c' !in key && 'T' !in key && 'm' !in key
    requires key != "load" && key != "reactance"
    ensures UnitSuffix(key) == ""
  {
    NotContainsWithout(key, "Voltage", 0);
    NotContainsWithout(key, "current", 0);
    NotContainsWithout(key, "Temp", 0);
    NotContainsWithout(key, "temperature", 2);
  }
}
