/** The alerts panel: acknowledging by id, the active/acknowledged split of the list, the header
    badge, and the relative-time label. */
module Alerts {
  import opened Text
  import opened Palette

  datatype Alert = Alert(
    id: int,
    severity: string,
    title: string,
    description: string,
    equipment: string,
    timestamp: int,
    acknowledged: bool,
    location: string)

  /** `acknowledgeAlert(id)`: every alert carrying `id` becomes acknowledged; nothing else changes. */
  function Acknowledge(alerts: seq<Alert>, id: int): (r: seq<Alert>)
    ensures |r| == |alerts|
    ensures forall i :: 0 <= i < |r| ==>
              r[i] == (if alerts[i].id == id then alerts[i].(acknowledged := true) else alerts[i])
  {
    if |alerts| == 0 then []
    else
      var head := if alerts[0].id == id then alerts[0].(acknowledged := true) else alerts[0];
      [head] + Acknowledge(alerts[1..], id)
  }

  /** Acknowledging twice is acknowledging once. */
  lemma AcknowledgeIdempotent(alerts: seq<Alert>, id: int)
    ensures Acknowledge(Acknowledge(alerts, id), id) == Acknowledge(alerts, id)
  {
  }

  /** Acknowledging alerts in either order gives the same list. */
  lemma AcknowledgeCommutes(alerts: seq<Alert>, a: int, b: int)
    ensures Acknowledge(Acknowledge(alerts, a), b) == Acknowledge(Acknowledge(alerts, b), a)
  {
  }

  /** `activeAlerts`: the unacknowledged alerts in list order. */
  function Active(alerts: seq<Alert>): (r: seq<Alert>)
    ensures forall x :: x in r <==> x in alerts && !x.acknowledged
    ensures |r| <= |alerts|
  {
    if |alerts| == 0 then []
    else (if alerts[0].acknowledged then [] else [alerts[0]]) + Active(alerts[1..])
  }

  /** `acknowledgedAlerts`: the acknowledged alerts in list order. */
  function Acked(alerts: seq<Alert>): (r: seq<Alert>)
    ensures forall x :: x in r <==> x in alerts && x.acknowledged
    ensures |r| <= |alerts|
  {
    if |alerts| == 0 then []
    else (if alerts[0].acknowledged then [alerts[0]] else []) + Acked(alerts[1..])
  }

  /** Every alert is in exactly one of the two lists. */
  lemma {:induction false} PartitionCounts(alerts: seq<Alert>)
    ensures |Active(alerts)| + |Acked(alerts)| == |alerts|
  {
    if |alerts| > 0 {
      PartitionCounts(alerts[1..]);
    }
  }

  /** Both filters keep list order: filtering a concatenation concatenates the filtered parts. */
  lemma FiltersPreserveOrder(a: seq<Alert>, b: seq<Alert>)
    ensures Active(a + b) == Active(a) + Active(b)
    ensures Acked(a + b) == Acked(a) + Acked(b)
  {
    ActivePreservesOrder(a, b);
    AckedPreservesOrder(a, b);
  }

  lemma {:induction false} ActivePreservesOrder(a: seq<Alert>, b: seq<Alert>)
    ensures Active(a + b) == Active(a) + Active(b)
  {
    if |a| > 0 {
      var head := if a[0].acknowledged then [] else [a[0]];
      calc {
        Active(a + b);
        { assert (a + b)[0] == a[0]; }
        head + Active((a + b)[1..]);
        { assert (a + b)[1..] == a[1..] + b; }
        head + Active(a[1..] + b);
        { ActivePreservesOrder(a[1..], b); }
        head + (Active(a[1..]) + Active(b));
        (head + Active(a[1..])) + Active(b);
        Active(a) + Active(b);
      }
    } else {
      assert a + b == b;
    }
  }

  lemma {:induction false} AckedPreservesOrder(a: seq<Alert>, b: seq<Alert>)
    ensures Acked(a + b) == Acked(a) + Acked(b)
  {
    if |a| > 0 {
      var head := if a[0].acknowledged then [a[0]] else [];
      calc {
        Acked(a + b);
        { assert (a + b)[0] == a[0]; }
        head + Acked((a + b)[1..]);
        { assert (a + b)[1..] == a[1..] + b; }
        head + Acked(a[1..] + b);
        { AckedPreservesOrder(a[1..], b); }
        head + (Acked(a[1..]) + Acked(b));
        (head + Acked(a[1..])) + Acked(b);
        Acked(a) + Acked(b);
      }
    } else {
      assert a + b == b;
    }
  }

  predicate UniqueIds(alerts: seq<Alert>) {
    forall i, j :: 0 <= i < j < |alerts| ==> alerts[i].id != alerts[j].id
  }

  predicate ActiveWithId(alerts: seq<Alert>, id: int) {
    exists i :: 0 <= i < |alerts| && alerts[i].id == id && !alerts[i].acknowledged
  }

  /** Replacing one active alert by an acknowledged one moves one alert between the lists. */
  lemma {:induction false} ReplaceMovesOne(alerts: seq<Alert>, k: nat, moved: Alert)
    requires k < |alerts| && !alerts[k].acknowledged && moved.acknowledged
    ensures |Active(alerts[k := moved])| == |Active(alerts)| - 1
    ensures |Acked(alerts[k := moved])| == |Acked(alerts)| + 1
  {
    var r := alerts[k := moved];
    if k == 0 {
      assert r[1..] == alerts[1..];
    } else {
      ReplaceMovesOne(alerts[1..], k - 1, moved);
      assert r[1..] == alerts[1..][k - 1 := moved];
    }
  }

  /** With unique ids, acknowledging an active alert moves exactly one alert across. */
  lemma AcknowledgeMovesOne(alerts: seq<Alert>, id: int)
    requires UniqueIds(alerts) && ActiveWithId(alerts, id)
    ensures |Active(Acknowledge(alerts, id))| == |Active(alerts)| - 1
    ensures |Acked(Acknowledge(alerts, id))| == |Acked(alerts)| + 1
  {
    var k :| 0 <= k < |alerts| && alerts[k].id == id && !alerts[k].acknowledged;
    var moved := alerts[k].(acknowledged := true);
    assert Acknowledge(alerts, id) == alerts[k := moved] by {
      forall i | 0 <= i < |alerts| && i != k ensures alerts[i].id != id {
        if i < k {
          assert alerts[i].id != alerts[k].id;
        } else {
          assert alerts[k].id != alerts[i].id;
        }
      }
    }
    ReplaceMovesOne(alerts, k, moved);
  }

  /** Acknowledging an id no alert carries changes nothing. */
  lemma AcknowledgeAbsent(alerts: seq<Alert>, id: int)
    requires forall i :: 0 <= i < |alerts| ==> alerts[i].id != id
    ensures Acknowledge(alerts, id) == alerts
  {
  }

  /** The red count badge next to the title. */
  predicate ShowsBadge(alerts: seq<Alert>) {
    |Active(alerts)| > 0
  }

  /** The "All Clear" placeholder. */
  predicate AllClear(alerts: seq<Alert>) {
    |Active(alerts)| == 0 && |Acked(alerts)| == 0
  }

  /** "All Clear" shows exactly for an empty list, and the badge exactly when something is unacknowledged. */
  lemma AllClearIffEmpty(alerts: seq<Alert>)
    ensures AllClear(alerts) <==> alerts == []
    ensures ShowsBadge(alerts) <==> exists i :: 0 <= i < |alerts| && !alerts[i].acknowledged
  {
    PartitionCounts(alerts);
    if exists i :: 0 <= i < |alerts| && !alerts[i].acknowledged {
      var i :| 0 <= i < |alerts| && !alerts[i].acknowledged;
      assert alerts[i] in Active(alerts);
    }
    if |Active(alerts)| > 0 {
      var x := Active(alerts)[0];
      assert x in Active(alerts);
      var i :| 0 <= i < |alerts| && alerts[i] == x;
    }
  }

  /** `getSeverityColor` / `getSeverityIcon`: the colour family of a severity. */
  function SeverityColour(severity: string): (c: Colour)
    ensures c == Red <==> severity == "critical"
    ensures c == Yellow <==> severity == "warning"
    ensures c == Blue <==> severity == "info"
    ensures c == Gray <==> severity !in {"critical", "warning", "info"}
  {
    if severity == "critical" then Red
    else if severity == "warning" then Yellow
    else if severity == "info" then Blue
    else Gray
  }

  /** The unit `formatTimestamp` picks, with the count it shows. */
  datatype Elapsed = Seconds(n: int) | Minutes(n: int) | Hours(n: int)

  /** Whole seconds since `timestamp`: `Math.floor((now - timestamp) / 1000)` (a future timestamp
      gives a negative count). */
  function DiffSeconds(now: int, timestamp: int): (d: int)
    ensures d * 1000 <= now - timestamp < (d + 1) * 1000
  {
    (now - timestamp) / 1000
  }

  function ElapsedOf(now: int, timestamp: int): (e: Elapsed)
    ensures var d := DiffSeconds(now, timestamp);
            (e.Seconds? <==> d < 60)
            && (e.Seconds? ==> e.n == d)
            && (e.Minutes? ==> 1 <= e.n <= 59 && e.n * 60 <= d < (e.n + 1) * 60)
            && (e.Hours? ==> e.n >= 1 && e.n * 3600 <= d < (e.n + 1) * 3600)
            && (e.Minutes? <==> 60 <= d < 3600)
  {
    var d := DiffSeconds(now, timestamp);
    if d < 60 then Seconds(d)
    else if d < 3600 then Minutes(d / 60)
    else Hours(d / 3600)
  }

  /** The label of an elapsed time: the count, the unit letter, then " ago". */
  function Render(e: Elapsed): (s: string)
    ensures |s| > 5 && s[|s| - 4..] == " ago"
    ensures s[|s| - 5] == (if e.Seconds? then 's' else if e.Minutes? then 'm' else 'h')
    ensures s[..|s| - 5] == IntToString(e.n)
  {
    match e
    case Seconds(n) => IntToString(n) + "s ago"
    case Minutes(n) => IntToString(n) + "m ago"
    case Hours(n) => IntToString(n) + "h ago"
  }

  /** `formatTimestamp(timestamp)` at clock reading `now`. */
  function FormatTimestamp(now: int, timestamp: int): (s: string)
    ensures var d := DiffSeconds(now, timestamp);
            && (d < 60 ==> s == IntToString(d) + "s ago")
            && (60 <= d < 3600 ==> s == IntToString(d / 60) + "m ago")
            && (3600 <= d ==> s == IntToString(d / 3600) + "h ago")
  {
    Render(ElapsedOf(now, timestamp))
  }

  /** The label ends in the unit letter of the elapsed time and " ago". */
  lemma FormatNamesUnit(now: int, timestamp: int)
    ensures var s := FormatTimestamp(now, timestamp);
            var d := DiffSeconds(now, timestamp);
            |s| > 5
            && s[|s| - 4..] == " ago"
            && s[|s| - 5] == (if d < 60 then 's' else if d < 3600 then 'm' else 'h')
  {
    var e := ElapsedOf(now, timestamp);
    var digits := IntToString(e.n);
    assert |digits| > 0;
  }

  /** The three seeded alerts, 5, 15 and 30 minutes old. */
  lemma SeededAlertLabels(now: int)
    ensures FormatTimestamp(now, now - 300000) == "5m ago"
    ensures FormatTimestamp(now, now - 900000) == "15m ago"
    ensures FormatTimestamp(now, now - 1800000) == "30m ago"
  {
    assert DiffSeconds(now, now - 300000) == 300;
    assert DiffSeconds(now, now - 900000) == 900;
    assert DiffSeconds(now, now - 1800000) == 1800;
    assert NatToString(15) == NatToString(1) + [DigitChar(5)];
    assert NatToString(30) == NatToString(3) + [DigitChar(0)];
  }
}
