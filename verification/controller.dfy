/** The stream controller of the telemetry panel: the two React effects, `initializeData`,
    `startRealTimeStream` and the interval callbacks, as explicit transitions over a record.
    Interval handles are natural numbers handed out in order; `slot` is `streamRef.current` and
    `running` maps each interval that has not been cleared to the generator it drives. */
module Controller {
  import opened Wrappers
  import opened Numeric
  import opened Telemetry
  import Anomaly
  import Generator
  import Window

  /** A live interval: the metric it was started for and its generator's `lastValue`. */
  datatype Stream = Stream(metric: Metric, last: real)

  datatype State = State(
    metric: Metric,
    range: TimeRange,
    isLive: bool,
    loading: bool,
    connected: bool,
    mounted: bool,
    data: seq<Sample>,
    insight: Option<Anomaly.Insight>,
    slot: Option<nat>,
    running: map<nat, Stream>,
    nextHandle: nat)

  /** The single-stream discipline, which the source keeps as written:
      - every live interval is the one in the slot, so at most one is live;
      - handles already issued are below `nextHandle`;
      - a paused panel holds no handle;
      - a settled, connected live panel is streaming;
      - every live interval generates the selected metric and stays within its bound. */
  predicate SingleStream(s: State) {
    && (forall h :: h in s.running ==> s.slot == Some(h) && h < s.nextHandle)
    && (s.slot.Some? ==> s.slot.value < s.nextHandle)
    && (!s.isLive ==> s.slot.None?)
    && (s.mounted && s.isLive && !s.loading && s.connected ==> s.slot.Some? && s.slot.value in s.running)
    && (forall h :: h in s.running ==>
          s.running[h].metric == s.metric
          && Abs(s.running[h].last - Config(s.metric).target) <= Generator.StreamBound(Config(s.metric)))
  }

  /** The discipline of the corrected controller: the single-stream discipline, and nothing
      streams after unmounting. */
  predicate Inv(s: State) {
    SingleStream(s) && (!s.mounted ==> s.running == map[])
  }

  /** At most one interval is live, and it is the one in the slot. */
  lemma AtMostOneInterval(s: State)
    requires SingleStream(s)
    ensures s.running.Keys == {} || (s.slot.Some? && s.running.Keys == {s.slot.value})
  {
    if s.running.Keys != {} {
      var h :| h in s.running.Keys;
      assert s.slot == Some(h);
      assert s.running.Keys == {h};
    }
  }

  /** `clearInterval(streamRef.current)` when the slot holds a handle; the slot keeps it. */
  function Clear(s: State): (r: State)
    ensures r.running.Keys == if s.slot.Some? then s.running.Keys - {s.slot.value} else s.running.Keys
    ensures forall h :: h in r.running ==> r.running[h] == s.running[h]
    ensures r == s.(running := r.running)
  {
    if s.slot.Some? then s.(running := s.running - {s.slot.value}) else s
  }

  /** `startRealTimeStream`: clear the slot's interval, start a fresh one for the selected
      metric at its target, store it, and report the connection as up. */
  function Start(s: State): (r: State)
    ensures r.slot == Some(s.nextHandle) && r.nextHandle == s.nextHandle + 1 && r.connected
    ensures r.running.Keys == Clear(s).running.Keys + {s.nextHandle}
    ensures r.running[s.nextHandle] == Stream(s.metric, Generator.StreamStart(s.metric))
    ensures r.running[s.nextHandle].last == Config(s.metric).target
    ensures r == Clear(s).(running := r.running, slot := r.slot, nextHandle := r.nextHandle, connected := true)
  {
    var c := Clear(s);
    var h := c.nextHandle;
    c.(running := c.running[h := Stream(c.metric, Generator.StreamStart(c.metric))],
       slot := Some(h), nextHandle := h + 1, connected := true)
  }

  /** Starting a stream from a state that keeps the discipline leaves exactly the new interval live. */
  lemma StartLeavesOne(s: State)
    requires forall h :: h in s.running ==> s.slot == Some(h)
    ensures Start(s).running.Keys == {s.nextHandle}
  {
  }

  /** Mounting: both effects run. `initializeData` marks the panel loading and requests the
      backfill; the live effect finds an empty slot and starts streaming at once. */
  function Mount(): (s: State)
    ensures Inv(s) && s.loading && s.isLive && s.running.Keys == {1}
  {
    var initial := State(Voltage, Last1h, true, false, true, true, [], None, None, map[], 1);
    Start(initial.(loading := true))
  }

  /** A change of metric or range. The controls are disabled while loading, and an unchanged
      selection does not re-run the effect. Otherwise the effect's cleanup clears the slot's
      interval (without emptying the slot) and a new backfill is requested. */
  function Select(s: State, m: Metric, t: TimeRange): (r: State)
    ensures !s.mounted || s.loading || (m == s.metric && t == s.range) ==> r == s
    ensures s.mounted && !s.loading && (m != s.metric || t != s.range) ==>
              r.loading && r.metric == m && r.range == t && r.slot == s.slot
              && r.running.Keys == Clear(s).running.Keys
  {
    if !s.mounted || s.loading || (m == s.metric && t == s.range) then s
    else Clear(s).(metric := m, range := t, loading := true)
  }

  /** The Live/Pause button and the effect on `isLive`. */
  function ToggleLive(s: State): (r: State)
    ensures !s.mounted || s.loading ==> r == s
    ensures s.mounted && !s.loading ==> r.isLive == !s.isLive
    ensures s.mounted && !s.loading && !s.isLive && s.slot.None? ==> r == Start(s.(isLive := true))
    ensures s.mounted && !s.loading && s.isLive ==> r.slot.None? && r.running.Keys == Clear(s).running.Keys
  {
    if !s.mounted || s.loading then s
    else if !s.isLive && s.slot.None? then Start(s.(isLive := true))
    else if s.isLive && s.slot.Some? then Clear(s).(isLive := false, slot := None)
    else s.(isLive := !s.isLive)
  }

  /** The backfill requested by `initializeData` resolves. On success the window is replaced,
      scored, and streaming restarts if live; on failure the panel goes offline. Either way the
      panel stops loading. A result arriving after unmounting is discarded. */
  function Finish(s: State, result: Result<seq<Sample>, Generator.Error>, alarmDraw: real, confidenceDraw: real)
    : (r: State)
    requires 0.0 <= alarmDraw < 1.0 && 0.0 <= confidenceDraw < 1.0
    ensures !s.mounted || !s.loading ==> r == s
    ensures s.mounted && s.loading ==> !r.loading
    ensures s.mounted && s.loading && result.Err? ==> !r.connected && r.data == s.data && r.running == s.running
    ensures s.mounted && s.loading && result.Ok? ==>
              r.data == result.value && r.insight == Some(Anomaly.Predict(result.value, alarmDraw, confidenceDraw))
              && (s.isLive ==> r.slot == Some(s.nextHandle) && r.running.Keys == Clear(s).running.Keys + {s.nextHandle})
              && (!s.isLive ==> r.running == s.running)
  {
    if !s.mounted || !s.loading then s
    else Settle(s, result, alarmDraw, confidenceDraw)
  }

  /** The body of `initializeData` after the backfill resolves, with no check for unmounting. */
  function Settle(s: State, result: Result<seq<Sample>, Generator.Error>, alarmDraw: real, confidenceDraw: real)
    : (r: State)
    requires 0.0 <= alarmDraw < 1.0 && 0.0 <= confidenceDraw < 1.0
    ensures !r.loading
  {
    match result
    case Err(_) => s.(connected := false, loading := false)
    case Ok(data) =>
      var scored := s.(data := data, insight := Some(Anomaly.Predict(data, alarmDraw, confidenceDraw)));
      (if s.isLive then Start(scored) else scored).(loading := false)
  }

  /** The source resolves the backfill even after unmounting: it only requires a pending request. */
  function FinishAsWritten(s: State, result: Result<seq<Sample>, Generator.Error>, alarmDraw: real, confidenceDraw: real)
    : (r: State)
    requires 0.0 <= alarmDraw < 1.0 && 0.0 <= confidenceDraw < 1.0
    ensures !s.loading ==> r == s
  {
    if !s.loading then s else Settle(s, result, alarmDraw, confidenceDraw)
  }

  /** As written, unmounting during the initial backfill leaks an interval: nothing ever clears it. */
  lemma UnmountDuringBackfillLeaks(alarmDraw: real, confidenceDraw: real)
    requires 0.0 <= alarmDraw < 1.0 && 0.0 <= confidenceDraw < 1.0
    ensures var s := FinishAsWritten(Unmount(Mount()), Ok([]), alarmDraw, confidenceDraw);
            !s.mounted && s.running.Keys == {2}
  {
    var u := Unmount(Mount());
    assert u.running == map[];
    StartLeavesOne(u.(data := [], insight := Some(Anomaly.Predict([], alarmDraw, confidenceDraw))));
  }

  /** One interval firing. An interval that was cleared never fires; a live one produces the next
      sample of its generator, slides the window and re-scores on the cadence. */
  function Tick(s: State, h: nat, sine: real, draw: real, now: int, alarmDraw: real, confidenceDraw: real)
    : (r: State)
    requires -1.0 <= sine <= 1.0 && 0.0 <= draw < 1.0
    requires 0.0 <= alarmDraw < 1.0 && 0.0 <= confidenceDraw < 1.0
    ensures h !in s.running ==> r == s
    ensures h in s.running ==>
              |r.data| == (if |s.data| == 0 then 1 else |s.data|)
              && r.data[|r.data| - 1].isRealTime && r.data[|r.data| - 1].timestamp == now
              && r.running.Keys == s.running.Keys && r.slot == s.slot
    ensures h in s.running ==>
              var p := Generator.StreamPoint(Config(s.running[h].metric), s.running[h].last, sine, draw, now);
              && r.data == Window.Append(s.data, p.0)
              && r.running[h].last == p.1
              && (Window.Rescores(|r.data|) ==> r.insight == Some(Anomaly.Predict(r.data, alarmDraw, confidenceDraw)))
              && (!Window.Rescores(|r.data|) ==> r.insight == s.insight)
  {
    if h !in s.running then s
    else
      var st := s.running[h];
      var point := Generator.StreamPoint(Config(st.metric), st.last, sine, draw, now);
      var update := Window.StreamUpdate(s.data, point.0, alarmDraw, confidenceDraw);
      s.(data := update.0,
         insight := if update.1.Some? then update.1 else s.insight,
         running := s.running[h := st.(last := point.1)])
  }

  /** Unmounting runs the first effect's cleanup: the slot's interval is cleared. */
  function Unmount(s: State): (r: State)
    ensures !r.mounted
    ensures s.mounted ==> r.running.Keys == Clear(s).running.Keys
  {
    if !s.mounted then s else Clear(s).(mounted := false)
  }

  datatype Event =
    | SelectMetric(m: Metric)
    | SelectRange(t: TimeRange)
    | ToggleLiveClicked
    | BackfillResolved(result: Result<seq<Sample>, Generator.Error>, alarmDraw: real, confidenceDraw: real)
    | IntervalFired(handle: nat, sine: real, draw: real, now: int, alarmDraw: real, confidenceDraw: real)
    | Unmounted

  /** The random draws and sine values an event carries are in their ranges. */
  predicate ValidEvent(e: Event) {
    match e
    case BackfillResolved(_, a, c) => 0.0 <= a < 1.0 && 0.0 <= c < 1.0
    case IntervalFired(_, sine, draw, _, a, c) =>
      -1.0 <= sine <= 1.0 && 0.0 <= draw < 1.0 && 0.0 <= a < 1.0 && 0.0 <= c < 1.0
    case _ => true
  }

  function Step(s: State, e: Event): (r: State)
    requires ValidEvent(e)
    ensures r.nextHandle >= s.nextHandle
    ensures r.mounted <==> s.mounted && !e.Unmounted?
  {
    match e
    case SelectMetric(m) => Select(s, m, s.range)
    case SelectRange(t) => Select(s, s.metric, t)
    case ToggleLiveClicked => ToggleLive(s)
    case BackfillResolved(result, a, c) => Finish(s, result, a, c)
    case IntervalFired(h, sine, draw, now, a, c) => Tick(s, h, sine, draw, now, a, c)
    case Unmounted => Unmount(s)
  }

  lemma SelectKeepsInv(s: State, m: Metric, t: TimeRange)
    requires Inv(s)
    ensures Inv(Select(s, m, t))
  {
  }

  lemma ToggleLiveKeepsInv(s: State)
    requires Inv(s)
    ensures Inv(ToggleLive(s))
  {
    if s.mounted && !s.loading && !s.isLive && s.slot.None? {
      StartLeavesOne(s.(isLive := true));
    }
  }

  lemma FinishKeepsInv(s: State, result: Result<seq<Sample>, Generator.Error>, alarmDraw: real, confidenceDraw: real)
    requires Inv(s)
    requires 0.0 <= alarmDraw < 1.0 && 0.0 <= confidenceDraw < 1.0
    ensures Inv(Finish(s, result, alarmDraw, confidenceDraw))
  {
    if s.mounted && s.loading && result.Ok? && s.isLive {
      var scored := s.(data := result.value, insight := Some(Anomaly.Predict(result.value, alarmDraw, confidenceDraw)));
      StartLeavesOne(scored);
    }
  }

  lemma TickKeepsInv(s: State, h: nat, sine: real, draw: real, now: int, alarmDraw: real, confidenceDraw: real)
    requires Inv(s)
    requires -1.0 <= sine <= 1.0 && 0.0 <= draw < 1.0
    requires 0.0 <= alarmDraw < 1.0 && 0.0 <= confidenceDraw < 1.0
    ensures Inv(Tick(s, h, sine, draw, now, alarmDraw, confidenceDraw))
  {
    if h in s.running {
      var st := s.running[h];
      Generator.StreamStaysNear(Config(st.metric), st.last, sine, draw);
    }
  }

  lemma UnmountKeepsInv(s: State)
    requires Inv(s)
    ensures Inv(Unmount(s))
  {
  }

  /** Every transition keeps the discipline. */
  lemma StepKeepsInv(s: State, e: Event)
    requires Inv(s) && ValidEvent(e)
    ensures Inv(Step(s, e))
  {
    match e
    case SelectMetric(m) => SelectKeepsInv(s, m, s.range);
    case SelectRange(t) => SelectKeepsInv(s, s.metric, t);
    case ToggleLiveClicked => ToggleLiveKeepsInv(s);
    case BackfillResolved(result, a, c) => FinishKeepsInv(s, result, a, c);
    case IntervalFired(h, sine, draw, now, a, c) => TickKeepsInv(s, h, sine, draw, now, a, c);
    case Unmounted => UnmountKeepsInv(s);
  }

  function Run(s: State, events: seq<Event>): State
    requires forall i :: 0 <= i < |events| ==> ValidEvent(events[i])
    decreases |events|
  {
    if |events| == 0 then s else Run(Step(s, events[0]), events[1..])
  }

  /** Whatever the user and the timers do after mounting, at most one interval is live, it is the
      one in the slot, and it generates the selected metric within its bound. */
  lemma {:induction false} RunKeepsInv(s: State, events: seq<Event>)
    requires Inv(s)
    requires forall i :: 0 <= i < |events| ==> ValidEvent(events[i])
    ensures Inv(Run(s, events))
    decreases |events|
  {
    if |events| > 0 {
      StepKeepsInv(s, events[0]);
      RunKeepsInv(Step(s, events[0]), events[1..]);
    }
  }

  lemma Reachable(events: seq<Event>)
    requires forall i :: 0 <= i < |events| ==> ValidEvent(events[i])
    ensures var s := Run(Mount(), events);
            Inv(s) && (s.running.Keys == {} || (s.slot.Some? && s.running.Keys == {s.slot.value}))
  {
    RunKeepsInv(Mount(), events);
    AtMostOneInterval(Run(Mount(), events));
  }

  /** The controller as the source is written: a backfill resolving after unmount is still
      settled, and may start a stream. Every other event is handled as by `Step`. */
  function StepAsWritten(s: State, e: Event): (r: State)
    requires ValidEvent(e)
    ensures r.nextHandle >= s.nextHandle
    ensures r.mounted <==> s.mounted && !e.Unmounted?
  {
    match e
    case BackfillResolved(result, a, c) => FinishAsWritten(s, result, a, c)
    case _ => Step(s, e)
  }

  /** While the panel is mounted the two controllers take the same step. */
  lemma StepsAgreeWhileMounted(s: State, e: Event)
    requires ValidEvent(e) && s.mounted
    ensures StepAsWritten(s, e) == Step(s, e)
  {
  }

  function RunAsWritten(s: State, events: seq<Event>): State
    requires forall i :: 0 <= i < |events| ==> ValidEvent(events[i])
    decreases |events|
  {
    if |events| == 0 then s else RunAsWritten(StepAsWritten(s, events[0]), events[1..])
  }

  lemma FinishAsWrittenKeepsSingleStream(s: State, result: Result<seq<Sample>, Generator.Error>, alarmDraw: real, confidenceDraw: real)
    requires SingleStream(s)
    requires 0.0 <= alarmDraw < 1.0 && 0.0 <= confidenceDraw < 1.0
    ensures SingleStream(FinishAsWritten(s, result, alarmDraw, confidenceDraw))
  {
    if s.loading && result.Ok? && s.isLive {
      var scored := s.(data := result.value, insight := Some(Anomaly.Predict(result.value, alarmDraw, confidenceDraw)));
      StartLeavesOne(scored);
    }
  }

  /** Every event of the controller as written keeps the single-stream discipline. */
  lemma StepAsWrittenKeepsSingleStream(s: State, e: Event)
    requires SingleStream(s) && ValidEvent(e)
    ensures SingleStream(StepAsWritten(s, e))
  {
    match e
    case SelectMetric(m) =>
    case SelectRange(t) =>
    case ToggleLiveClicked =>
      if s.mounted && !s.loading && !s.isLive && s.slot.None? {
        StartLeavesOne(s.(isLive := true));
      }
    case BackfillResolved(result, a, c) => FinishAsWrittenKeepsSingleStream(s, result, a, c);
    case IntervalFired(h, sine, draw, now, a, c) =>
      if h in s.running {
        Generator.StreamStaysNear(Config(s.running[h].metric), s.running[h].last, sine, draw);
      }
    case Unmounted =>
  }

  lemma {:induction false} RunAsWrittenKeepsSingleStream(s: State, events: seq<Event>)
    requires SingleStream(s)
    requires forall i :: 0 <= i < |events| ==> ValidEvent(events[i])
    ensures SingleStream(RunAsWritten(s, events))
    decreases |events|
  {
    if |events| > 0 {
      StepAsWrittenKeepsSingleStream(s, events[0]);
      RunAsWrittenKeepsSingleStream(StepAsWritten(s, events[0]), events[1..]);
    }
  }

  /** The source as written also keeps at most one interval live, the one in the slot, over every
      sequence of events after mounting; what it loses is only that the interval stops at unmount. */
  lemma ReachableAsWritten(events: seq<Event>)
    requires forall i :: 0 <= i < |events| ==> ValidEvent(events[i])
    ensures var s := RunAsWritten(Mount(), events);
            SingleStream(s) && (s.running.Keys == {} || (s.slot.Some? && s.running.Keys == {s.slot.value}))
  {
    RunAsWrittenKeepsSingleStream(Mount(), events);
    AtMostOneInterval(RunAsWritten(Mount(), events));
  }

  /** Switching the range of a live, connected panel: the old interval is cleared at once, and
      when the new backfill arrives exactly one fresh interval streams over the new window. */
  lemma RangeSwitchRestarts(s: State, t: TimeRange, data: seq<Sample>, alarmDraw: real, confidenceDraw: real)
    requires Inv(s) && s.mounted && !s.loading && s.isLive && s.connected && t != s.range
    requires 0.0 <= alarmDraw < 1.0 && 0.0 <= confidenceDraw < 1.0
    ensures var s1 := Select(s, s.metric, t);
            s1.running == map[] && s1.loading
    ensures var s2 := Finish(Select(s, s.metric, t), Ok(data), alarmDraw, confidenceDraw);
            !s2.loading && s2.data == data && s2.range == t
            && s2.slot == Some(s.nextHandle) && s2.running.Keys == {s.nextHandle}
            && s.nextHandle !in s.running
  {
    var s1 := Select(s, s.metric, t);
    AtMostOneInterval(s);
    assert s1.running.Keys == {};
  }
}
