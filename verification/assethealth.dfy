/** The asset health panel: six assets whose health performs a clamped random walk every ten
    seconds while their status label stays as first written. */
module AssetHealth {
  import opened Numeric
  import opened Palette

  datatype Asset = Asset(id: nat, name: string, kind: string, health: real, status: string)

  const Floor: real := 70.0
  const Ceiling: real := 99.0

  /** The six seeded assets, in display order. */
  function InitialAssets(): (assets: seq<Asset>)
    ensures |assets| == 6
    ensures forall i :: 0 <= i < |assets| ==> assets[i].id == i + 1
    ensures forall i :: 0 <= i < |assets| ==> Floor <= assets[i].health <= Ceiling
  {
    [ Asset(1, "Transformer T1", "Transformer", 95.0, "healthy"),
      Asset(2, "Transformer T2", "Transformer", 82.0, "warning"),
      Asset(3, "Circuit Breaker CB1", "Breaker", 98.0, "healthy"),
      Asset(4, "400kV Busbar", "Busbar", 99.0, "healthy"),
      Asset(5, "Line 1 Insulators", "Transmission", 88.0, "warning"),
      Asset(6, "Capacitor Bank C1", "Capacitor", 92.0, "healthy") ]
  }

  /** One draw in [0, 1) per asset. */
  predicate ValidDraws(n: nat, draws: seq<real>)
  {
    |draws| == n && forall i :: 0 <= i < |draws| ==> 0.0 <= draws[i] < 1.0
  }

  /** The unclamped step: health moved by the draw minus one half. */
  function Drift(health: real, draw: real): (h: real)
    requires 0.0 <= draw < 1.0
    ensures Abs(h - health) <= 0.5
  {
    health + (draw - 0.5)
  }

  /** One asset's tick: the drifted health clamped into [70, 99]; every other field is kept. */
  function TickAsset(a: Asset, draw: real): (b: Asset)
    requires 0.0 <= draw < 1.0
    ensures Floor <= b.health <= Ceiling
    ensures b.id == a.id && b.name == a.name && b.kind == a.kind && b.status == a.status
    ensures Floor <= Drift(a.health, draw) <= Ceiling ==> b.health == Drift(a.health, draw)
    ensures Drift(a.health, draw) < Floor ==> b.health == Floor
    ensures Drift(a.health, draw) > Ceiling ==> b.health == Ceiling
  {
    a.(health := Clamp(Floor, Ceiling, Drift(a.health, draw)))
  }

  /** The interval's update over the whole list. */
  function Tick(assets: seq<Asset>, draws: seq<real>): (r: seq<Asset>)
    requires ValidDraws(|assets|, draws)
    ensures |r| == |assets|
    ensures forall i :: 0 <= i < |r| ==> Floor <= r[i].health <= Ceiling
    ensures forall i :: 0 <= i < |r| ==>
              r[i].id == assets[i].id && r[i].name == assets[i].name
              && r[i].kind == assets[i].kind && r[i].status == assets[i].status
    ensures forall i :: 0 <= i < |r| ==> r[i] == TickAsset(assets[i], draws[i])
  {
    seq(|assets|, i requires 0 <= i < |assets| => TickAsset(assets[i], draws[i]))
  }

  /** An asset already inside the band never moves by more than half a point per tick. */
  lemma TickStepBounded(assets: seq<Asset>, draws: seq<real>, i: nat)
    requires ValidDraws(|assets|, draws)
    requires i < |assets|
    requires Floor <= assets[i].health <= Ceiling
    ensures Abs(Tick(assets, draws)[i].health - assets[i].health) <= 0.5
  {
    ClampTowards(Floor, Ceiling, Drift(assets[i].health, draws[i]), assets[i].health);
  }

  /** The status badge: text and background come from the same status lookup. */
  function Badge(a: Asset): (c: Colour)
    ensures c == Gray <==> a.status !in {"healthy", "warning", "critical"}
  {
    StatusColour(a.status)
  }

  /** The health bar's colour: the indicator ternary on the status, never on the health. */
  function Bar(a: Asset): (c: Colour)
    ensures c == Red <==> a.status != "healthy" && a.status != "warning"
  {
    IndicatorColour(a.status)
  }

  /** The percentage beside the bar. */
  function Percent(a: Asset): (p: int)
    ensures p as real - 0.5 <= a.health < p as real + 0.5
  {
    Round(a.health)
  }

  /** After any tick the shown percentage lies in [70, 99], and the badge and bar colours are
      those of the status the asset started with, however far its health has moved. */
  lemma TickDisplay(assets: seq<Asset>, draws: seq<real>, i: nat)
    requires ValidDraws(|assets|, draws)
    requires i < |assets|
    ensures 70 <= Percent(Tick(assets, draws)[i]) <= 99
    ensures Badge(Tick(assets, draws)[i]) == Badge(assets[i])
    ensures Bar(Tick(assets, draws)[i]) == Bar(assets[i])
  {
  }

  /** The badge and the bar disagree exactly when the status is none of the three known
      ones: then the badge is gray and the bar red. */
  lemma BadgeAndBarAgree(a: Asset)
    ensures Badge(a) == Bar(a) <==> a.status in {"healthy", "warning", "critical"}
  {
    IndicatorAgreesOnKnown(a.status);
  }

  /** Health stays in the band over any number of ticks from the seeded list. */
  lemma {:induction false} TicksStayInBand(assets: seq<Asset>, rounds: seq<seq<real>>)
    requires forall i :: 0 <= i < |assets| ==> Floor <= assets[i].health <= Ceiling
    requires forall k :: 0 <= k < |rounds| ==> ValidDraws(|assets|, rounds[k])
    ensures forall i :: 0 <= i < |Run(assets, rounds)| ==>
              Floor <= Run(assets, rounds)[i].health <= Ceiling
    decreases |rounds|
  {
    if |rounds| > 0 {
      var next := Tick(assets, rounds[0]);
      assert forall k :: 0 <= k < |rounds[1..]| ==> ValidDraws(|next|, rounds[1..][k]);
      TicksStayInBand(next, rounds[1..]);
    }
  }

  /** A sequence of ticks, one per round of draws. */
  function Run(assets: seq<Asset>, rounds: seq<seq<real>>): (r: seq<Asset>)
    requires forall k :: 0 <= k < |rounds| ==> ValidDraws(|assets|, rounds[k])
    ensures |r| == |assets|
    decreases |rounds|
  {
    if |rounds| == 0 then assets
    else
      var next := Tick(assets, rounds[0]);
      assert forall k :: 0 <= k < |rounds[1..]| ==> ValidDraws(|next|, rounds[1..][k]);
      Run(next, rounds[1..])
  }
}
