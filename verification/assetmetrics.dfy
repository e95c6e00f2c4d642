/** The asset metrics strip: six fleet figures, a five-second random refresh, the
    select-to-expand toggle and the label and number formatting of each tile. */
module AssetMetrics {
  import opened Wrappers
  import opened Text

  datatype Fleet = Fleet(
    totalAssets: int,
    onlineAssets: int,
    warningAssets: int,
    criticalAssets: int,
    avgUptime: real,
    dataQuality: real)

  function InitialFleet(): Fleet {
    Fleet(24, 22, 2, 0, 99.98, 99.2)
  }

  /** `22 + Math.floor(r * 2) - 1`. */
  function OnlineCount(r: real): (n: int)
    requires 0.0 <= r < 1.0
    ensures n == 21 || n == 22
    ensures n == 22 <==> r >= 0.5
  {
    22 + (r * 2.0).Floor - 1
  }

  /** The refresh: uptime and quality are redrawn around fixed centres, the online count is 21 or
      22, and the other counts never change. */
  function Tick(f: Fleet, uptimeDraw: real, qualityDraw: real, onlineDraw: real): (r: Fleet)
    requires 0.0 <= uptimeDraw < 1.0 && 0.0 <= qualityDraw < 1.0 && 0.0 <= onlineDraw < 1.0
    ensures r.onlineAssets == 21 || r.onlineAssets == 22
    ensures 99.97 <= r.avgUptime < 99.99
    ensures 99.15 <= r.dataQuality < 99.25
    ensures r.totalAssets == f.totalAssets && r.warningAssets == f.warningAssets
            && r.criticalAssets == f.criticalAssets
  {
    f.(avgUptime := 99.98 + (uptimeDraw - 0.5) * 0.02,
       dataQuality := 99.2 + (qualityDraw - 0.5) * 0.1,
       onlineAssets := OnlineCount(onlineDraw))
  }

  /** The refresh forgets the previous random values: ticking twice equals ticking once with the
      second draws. */
  lemma TickForgetsHistory(f: Fleet, a: real, b: real, c: real, x: real, y: real, z: real)
    requires 0.0 <= a < 1.0 && 0.0 <= b < 1.0 && 0.0 <= c < 1.0
    requires 0.0 <= x < 1.0 && 0.0 <= y < 1.0 && 0.0 <= z < 1.0
    ensures Tick(Tick(f, a, b, c), x, y, z) == Tick(f, x, y, z)
  {
  }

  /** `handleMetricClick(key)`: clicking the selected tile closes it, any other tile opens. */
  function Click(selected: Option<string>, key: string): (r: Option<string>)
    ensures r == None <==> selected == Some(key)
    ensures r != None ==> r == Some(key)
  {
    if selected == Some(key) then None else Some(key)
  }

  /** Two clicks on the same tile return to the state before them when that state was either
      nothing selected or that same tile; from nothing selected they end with nothing selected. */
  lemma ClickTwiceFromNothing(key: string)
    ensures Click(Click(None, key), key) == None
  {
  }

  /** ...and a third click reopens it. */
  lemma ClickThrice(selected: Option<string>, key: string)
    ensures Click(Click(Click(selected, key), key), key) == Click(selected, key)
  {
  }

  /** The tile caption: `key.replace(/([A-Z])/g, ' $1').trim()`. */
  function Label(key: string): (l: string)
    ensures |l| > 0 ==> !IsSpace(l[0]) && !IsSpace(l[|l| - 1])
  {
    Trim(SpaceBeforeUpper(key))
  }

  lemma OnlineAssetsLabel()
    ensures Label("onlineAssets") == "online Assets"
  {
    OnlineAssetsSpaced();
    TrimNoOp("online Assets");
  }

  lemma OnlineAssetsSpaced()
    ensures SpaceBeforeUpper("onlineAssets") == "online Assets"
  {
    assert "onlineAssets" == "online" + ['A'] + "ssets";
    SpaceBeforeOneCapital("online", 'A', "ssets");
    assert "online" + [' ', 'A'] + "ssets" == "online Assets";
  }

  /** A key with a single capital gets a single space, in front of that capital. */
  lemma SpaceBeforeOneCapital(a: string, c: char, b: string)
    requires forall i :: 0 <= i < |a| ==> !IsUpper(a[i])
    requires forall i :: 0 <= i < |b| ==> !IsUpper(b[i])
    requires IsUpper(c)
    ensures SpaceBeforeUpper(a + [c] + b) == a + [' ', c] + b
  {
    assert [c][1..] == [];
    assert SpaceBeforeUpper([c]) == [' ', c];
    SpaceBeforeUpperNoCapitals(a);
    SpaceBeforeUpperAppend(a, [c]);
    assert SpaceBeforeUpper(a + [c]) == a + [' ', c];
    SpaceBeforeUpperNoCapitals(b);
    SpaceBeforeUpperAppend(a + [c], b);
  }

  /** For a camelCase key the trim has nothing to remove, and the key reads back from its label. */
  lemma LabelReadsBack(key: string)
    requires |key| > 0 && !IsUpper(key[0]) && !IsSpace(key[0]) && !IsSpace(key[|key| - 1])
    ensures Label(key) == SpaceBeforeUpper(key)
    ensures JoinBeforeUpper(Label(key)) == key
  {
    SpaceBeforeUpperEnds(key);
    TrimNoOp(SpaceBeforeUpper(key));
    SpaceBeforeUpperRoundTrip(key);
  }

  /** `value.toFixed(key.includes('avg') ? 2 : 0)`: the number of decimals a tile shows. */
  function Decimals(key: string): (d: nat)
    ensures d == 2 <==> Contains(key, "avg")
    ensures d == 0 <==> !Contains(key, "avg")
  {
    if Contains(key, "avg") then 2 else 0
  }

  /** Whether the tile appends "%". */
  predicate Percent(key: string) {
    Contains(key, "avg") || Contains(key, "Quality")
  }

  /** Only the uptime tile shows decimals... */
  lemma UptimeFormat()
    ensures Decimals("avgUptime") == 2 && Percent("avgUptime")
  {
    assert StartsWith("avgUptime", "avg");
  }

  /** ...quality is a whole-number percentage... */
  lemma QualityFormat()
    ensures Decimals("dataQuality") == 0 && Percent("dataQuality")
  {
    assert OccursAt("dataQuality", "Quality", 4);
    ContainsIff("dataQuality", "Quality");
    NotContainsWithout("dataQuality", "avg", 1);
  }

  /** ...and the four asset counts are whole numbers without a percent sign. */
  lemma CountFormats(key: string)
    requires key in {"totalAssets", "onlineAssets", "warningAssets", "criticalAssets"}
    ensures Decimals(key) == 0 && !Percent(key)
  {
    PlainCount(key);
  }

  /** A key with neither a 'v' nor a 'Q' is a whole number without a percent sign. */
  lemma PlainCount(key: string)
    requires 'v' !in key && 'Q' !in key
    ensures Decimals(key) == 0 && !Percent(key)
  {
    NotContainsWithout(key, "avg", 1);
    NotContainsWithout(key, "Quality", 0);
  }
}
