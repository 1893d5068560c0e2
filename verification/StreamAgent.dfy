/**
 The calibration stream agent as updates of keyed tables, one event at a time.  An event carries the
 number of its tumbling window.  `Valid` ties every table entry of a backend to that backend's own
 events, however the events of the backends are interleaved.
 */
module StreamAgent {
  import opened Basics
  import opened Alerting
  import opened Drift

  datatype CalibrationEvent = CalibrationEvent(backendName: string, errorRate: real, window: int)

  datatype DriftAlert = DriftAlert(
    backendName: string,
    level: AlertLevel,
    zscore: real,
    errorRate: real,
    baselineMean: real,
    baselineStddev: real)

  const ALERTS := Settings(0.05, 3, 3)
  const DRIFTS := Settings(3.0, 2, 2)

  // ----- what each table means for one backend's own events -----

  function EventsOf(log: seq<CalibrationEvent>, backendName: string): seq<CalibrationEvent> {
    if log == [] then []
    else
      var last := log[|log| - 1];
      EventsOf(log[..|log| - 1], backendName) + if last.backendName == backendName then [last] else []
  }

  function Rates(events: seq<CalibrationEvent>): seq<real> {
    if events == [] then [] else Rates(events[..|events| - 1]) + [events[|events| - 1].errorRate]
  }

  function WindowRates(events: seq<CalibrationEvent>, window: int): seq<real> {
    if events == [] then []
    else
      var last := events[|events| - 1];
      WindowRates(events[..|events| - 1], window) + if last.window == window then [last.errorRate] else []
  }

  /** The mean of no values is taken as 0. */
  function Average(values: seq<real>): real {
    if values == [] then 0.0 else BatchMean(values)
  }

  /** The window average seen at each event. */
  function Averages(events: seq<CalibrationEvent>): seq<real> {
    if events == [] then []
    else Averages(events[..|events| - 1]) + [Average(WindowRates(events, events[|events| - 1].window))]
  }

  /** |z| of each event against the events strictly before it, where there is a score. */
  function Scores(root: real -> real, events: seq<CalibrationEvent>): seq<real> {
    if events == [] then []
    else
      var front, last := events[..|events| - 1], events[|events| - 1];
      match ZScore(root, Baseline(Rates(front)), last.errorRate)
      case None => Scores(root, front)
      case Some(z) => Scores(root, front) + [Abs(z)]
  }

  /** The transition of the flat-threshold hysteresis at one event, if any. */
  function AlertAt(front: seq<CalibrationEvent>, last: CalibrationEvent): seq<AlertTransition> {
    match Step(Folded(ALERTS, Averages(front)), LastAverage(front, last), ALERTS, last.backendName).1
    case None => []
    case Some(transition) => [transition]
  }

  function LastAverage(front: seq<CalibrationEvent>, last: CalibrationEvent): real {
    Average(WindowRates(front, last.window) + [last.errorRate])
  }

  /** What the drift hysteresis says about one event. */
  function DriftAt(root: real -> real, front: seq<CalibrationEvent>, last: CalibrationEvent): seq<DriftAlert> {
    match ZScore(root, Baseline(Rates(front)), last.errorRate)
    case None => []
    case Some(z) =>
      match Step(Folded(DRIFTS, Scores(root, front)), Abs(z), DRIFTS, last.backendName).1
      case None => []
      case Some(transition) =>
        var after := Update(Baseline(Rates(front)), last.errorRate);
        [DriftAlert(last.backendName, transition.level, z, last.errorRate, after.mean, root(after.Variance()))]
  }

  /** Every drift alert of a backend's history, oldest first. */
  function DriftAlerts(root: real -> real, events: seq<CalibrationEvent>): seq<DriftAlert> {
    if events == [] then []
    else
      var front, last := events[..|events| - 1], events[|events| - 1];
      DriftAlerts(root, front) + DriftAt(root, front, last)
  }

  lemma EventsAppend(log: seq<CalibrationEvent>, e: CalibrationEvent, backendName: string)
    ensures EventsOf(log + [e], backendName)
         == EventsOf(log, backendName) + if e.backendName == backendName then [e] else []
  {
    assert (log + [e])[..|log|] == log;
  }

  lemma RatesAppend(events: seq<CalibrationEvent>, e: CalibrationEvent)
    ensures Rates(events + [e]) == Rates(events) + [e.errorRate]
  {
    assert (events + [e])[..|events|] == events;
  }

  lemma WindowAppend(events: seq<CalibrationEvent>, e: CalibrationEvent, w: int)
    ensures WindowRates(events + [e], w) == WindowRates(events, w) + if e.window == w then [e.errorRate] else []
  {
    assert (events + [e])[..|events|] == events;
  }

  lemma AveragesAppend(events: seq<CalibrationEvent>, e: CalibrationEvent)
    ensures Averages(events + [e]) == Averages(events) + [LastAverage(events, e)]
  {
    WindowAppend(events, e, e.window);
    assert (events + [e])[..|events|] == events;
  }

  lemma ScoresAppend(root: real -> real, events: seq<CalibrationEvent>, e: CalibrationEvent)
    ensures Scores(root, events + [e]) == match ZScore(root, Baseline(Rates(events)), e.errorRate)
                                          case None => Scores(root, events)
                                          case Some(z) => Scores(root, events) + [Abs(z)]
  {
    assert (events + [e])[..|events|] == events;
  }

  /** A solo run on one backend's events sees exactly these events. */
  lemma {:induction false} EventsIdempotent(log: seq<CalibrationEvent>, backendName: string)
    ensures EventsOf(EventsOf(log, backendName), backendName) == EventsOf(log, backendName)
  {
    if log != [] {
      var front, last := log[..|log| - 1], log[|log| - 1];
      EventsIdempotent(front, backendName);
      if last.backendName == backendName {
        EventsAppend(EventsOf(front, backendName), last, backendName);
      } else {
        assert EventsOf(log, backendName) == EventsOf(front, backendName);
      }
    }
  }

  // ----- the tables of all backends -----

  function Lookup<K, V>(table: map<K, V>, key: K, default: V): V {
    if key in table then table[key] else default
  }

  ghost predicate SumsOk(table: map<(string, int), real>, log: seq<CalibrationEvent>) {
    forall name: string, w: int :: Lookup(table, (name, w), 0.0) == Total(WindowRates(EventsOf(log, name), w), Identity())
  }

  ghost predicate CountsOk(table: map<(string, int), int>, log: seq<CalibrationEvent>) {
    forall name: string, w: int :: Lookup(table, (name, w), 0) == |WindowRates(EventsOf(log, name), w)|
  }

  ghost predicate AlertsOk(table: map<string, AlertState>, log: seq<CalibrationEvent>) {
    forall name :: Lookup(table, name, FRESH) == Folded(ALERTS, Averages(EventsOf(log, name)))
  }

  ghost predicate BaselinesOk(table: map<string, WelfordStats>, log: seq<CalibrationEvent>) {
    forall name :: Lookup(table, name, EMPTY) == Baseline(Rates(EventsOf(log, name)))
  }

  ghost predicate DriftsOk(root: real -> real, table: map<string, AlertState>, log: seq<CalibrationEvent>) {
    forall name :: Lookup(table, name, FRESH) == Folded(DRIFTS, Scores(root, EventsOf(log, name)))
  }

  lemma TotalAppend(values: seq<real>, value: real)
    ensures Total(values + [value], Identity()) == Total(values, Identity()) + value
  {
    assert (values + [value])[..|values|] == values;
  }

  lemma SumsStep(table: map<(string, int), real>, log: seq<CalibrationEvent>, e: CalibrationEvent)
    requires SumsOk(table, log)
    ensures var key := (e.backendName, e.window);
            SumsOk(table[key := Lookup(table, key, 0.0) + e.errorRate], log + [e])
  {
    hide EventsOf, WindowRates, Total;
    var key := (e.backendName, e.window);
    var after := table[key := Lookup(table, key, 0.0) + e.errorRate];
    forall name: string, w: int
      ensures Lookup(after, (name, w), 0.0) == Total(WindowRates(EventsOf(log + [e], name), w), Identity())
    {
      EventsAppend(log, e, name);
      WindowAppend(EventsOf(log, name), e, w);
      TotalAppend(WindowRates(EventsOf(log, name), w), e.errorRate);
      assert Lookup(table, (name, w), 0.0) == Total(WindowRates(EventsOf(log, name), w), Identity());
      NoMore(EventsOf(log, name), WindowRates(EventsOf(log, name), w));
    }
  }

  lemma NoMore(events: seq<CalibrationEvent>, values: seq<real>)
    ensures events + [] == events && values + [] == values
  {
  }

  lemma CountsStep(table: map<(string, int), int>, log: seq<CalibrationEvent>, e: CalibrationEvent)
    requires CountsOk(table, log)
    ensures var key := (e.backendName, e.window);
            CountsOk(table[key := Lookup(table, key, 0) + 1], log + [e])
  {
    hide EventsOf, WindowRates;
    var key := (e.backendName, e.window);
    var after := table[key := Lookup(table, key, 0) + 1];
    forall name: string, w: int ensures Lookup(after, (name, w), 0) == |WindowRates(EventsOf(log + [e], name), w)| {
      EventsAppend(log, e, name);
      WindowAppend(EventsOf(log, name), e, w);
      assert Lookup(table, (name, w), 0) == |WindowRates(EventsOf(log, name), w)|;
      NoMore(EventsOf(log, name), WindowRates(EventsOf(log, name), w));
    }
  }

  lemma AlertsStep(table: map<string, AlertState>, log: seq<CalibrationEvent>, e: CalibrationEvent)
    requires AlertsOk(table, log)
    ensures var events := EventsOf(log, e.backendName);
            var after := Step(Folded(ALERTS, Averages(events)), LastAverage(events, e), ALERTS, e.backendName).0;
            AlertsOk(table[e.backendName := after], log + [e])
  {
    hide EventsOf, Averages, Folded, Step, LastAverage;
    var events := EventsOf(log, e.backendName);
    FoldedAppend(ALERTS, Averages(events), LastAverage(events, e), e.backendName);
    AveragesAppend(events, e);
    forall name ensures EventsOf(log + [e], name) == if name == e.backendName then events + [e] else EventsOf(log, name) {
      EventsAppend(log, e, name);
    }
  }

  lemma BaselinesStep(table: map<string, WelfordStats>, log: seq<CalibrationEvent>, e: CalibrationEvent)
    requires BaselinesOk(table, log)
    ensures var before := Lookup(table, e.backendName, EMPTY);
            BaselinesOk(table[e.backendName := Update(before, e.errorRate)], log + [e])
  {
    hide EventsOf, Rates, Baseline, Update;
    var events := EventsOf(log, e.backendName);
    BaselineAppend(Rates(events), e.errorRate);
    RatesAppend(events, e);
    forall name ensures EventsOf(log + [e], name) == if name == e.backendName then events + [e] else EventsOf(log, name) {
      EventsAppend(log, e, name);
    }
  }

  /** The drift state after an event of `name`: it moves only when there is a score. */
  function DriftAfter(root: real -> real, events: seq<CalibrationEvent>, e: CalibrationEvent): AlertState {
    match ZScore(root, Baseline(Rates(events)), e.errorRate)
    case None => Folded(DRIFTS, Scores(root, events))
    case Some(z) => Step(Folded(DRIFTS, Scores(root, events)), Abs(z), DRIFTS, e.backendName).0
  }

  lemma DriftsStep(root: real -> real, table: map<string, AlertState>, log: seq<CalibrationEvent>, e: CalibrationEvent,
                   after: map<string, AlertState>)
    requires DriftsOk(root, table, log)
    requires forall name :: Lookup(after, name, FRESH)
                            == if name == e.backendName then DriftAfter(root, EventsOf(log, name), e)
                               else Lookup(table, name, FRESH)
    ensures DriftsOk(root, after, log + [e])
  {
    hide EventsOf, Scores, Folded, Step, Lookup, ZScore, Baseline, Rates, Abs;
    var events := EventsOf(log, e.backendName);
    ScoresAppend(root, events, e);
    match ZScore(root, Baseline(Rates(events)), e.errorRate) {
      case None =>
      case Some(z) => FoldedAppend(DRIFTS, Scores(root, events), Abs(z), e.backendName);
    }
    forall name ensures EventsOf(log + [e], name) == if name == e.backendName then events + [e] else EventsOf(log, name) {
      EventsAppend(log, e, name);
    }
  }

  // ----- what has been published -----

  function AlertsOf(alerts: seq<AlertTransition>, name: string): seq<AlertTransition> {
    if alerts == [] then []
    else
      var last := alerts[|alerts| - 1];
      AlertsOf(alerts[..|alerts| - 1], name) + if last.backendName == name then [last] else []
  }

  function DriftsOf(alerts: seq<DriftAlert>, name: string): seq<DriftAlert> {
    if alerts == [] then []
    else
      var last := alerts[|alerts| - 1];
      DriftsOf(alerts[..|alerts| - 1], name) + if last.backendName == name then [last] else []
  }

  /** Each backend's published alerts are the transitions of the hysteresis over its own window averages. */
  ghost predicate AlertsPublished(alerts: seq<AlertTransition>, log: seq<CalibrationEvent>) {
    forall name :: AlertsOf(alerts, name) == Emitted(ALERTS, Averages(EventsOf(log, name)), name)
  }

  ghost predicate DriftsPublished(root: real -> real, alerts: seq<DriftAlert>, log: seq<CalibrationEvent>) {
    forall name :: DriftsOf(alerts, name) == DriftAlerts(root, EventsOf(log, name))
  }

  lemma AlertsOfAppend(alerts: seq<AlertTransition>, more: seq<AlertTransition>, name: string)
    requires |more| <= 1
    ensures AlertsOf(alerts + more, name)
         == AlertsOf(alerts, name) + if more != [] && more[0].backendName == name then more else []
  {
    if more == [] {
      assert alerts + more == alerts;
    } else {
      assert (alerts + more)[..|alerts|] == alerts && more == [more[0]];
    }
  }

  lemma DriftsOfAppend(alerts: seq<DriftAlert>, more: seq<DriftAlert>, name: string)
    requires |more| <= 1
    ensures DriftsOf(alerts + more, name)
         == DriftsOf(alerts, name) + if more != [] && more[0].backendName == name then more else []
  {
    if more == [] {
      assert alerts + more == alerts;
    } else {
      assert (alerts + more)[..|alerts|] == alerts && more == [more[0]];
    }
  }

  lemma AtMostOne(root: real -> real, events: seq<CalibrationEvent>, e: CalibrationEvent)
    ensures |AlertAt(events, e)| <= 1 && |DriftAt(root, events, e)| <= 1
    ensures AlertAt(events, e) != [] ==> AlertAt(events, e)[0].backendName == e.backendName
    ensures DriftAt(root, events, e) != [] ==> DriftAt(root, events, e)[0].backendName == e.backendName
  {
    StepChanges(Folded(ALERTS, Averages(events)), LastAverage(events, e), ALERTS, e.backendName);
  }

  lemma AlertsPublishedStep(root: real -> real, alerts: seq<AlertTransition>, log: seq<CalibrationEvent>, e: CalibrationEvent)
    requires AlertsPublished(alerts, log)
    ensures AlertsPublished(alerts + AlertAt(EventsOf(log, e.backendName), e), log + [e])
  {
    hide AlertAt, EventsOf, Emitted, Averages, AlertsOf;
    var events := EventsOf(log, e.backendName);
    AtMostOne(root, events, e);
    AlertsAreEmitted(events, e);
    forall name ensures AlertsOf(alerts + AlertAt(events, e), name) == Emitted(ALERTS, Averages(EventsOf(log + [e], name)), name) {
      EventsAppend(log, e, name);
      AlertsOfAppend(alerts, AlertAt(events, e), name);
      assert EventsOf(log, name) + [] == EventsOf(log, name) && AlertsOf(alerts, name) + [] == AlertsOf(alerts, name);
    }
  }

  lemma DriftsPublishedStep(root: real -> real, alerts: seq<DriftAlert>, log: seq<CalibrationEvent>, e: CalibrationEvent)
    requires DriftsPublished(root, alerts, log)
    ensures DriftsPublished(root, alerts + DriftAt(root, EventsOf(log, e.backendName), e), log + [e])
  {
    hide DriftAt, EventsOf, DriftAlerts, DriftsOf, AlertAt;
    var events := EventsOf(log, e.backendName);
    AtMostOne(root, events, e);
    DriftAlertsAppend(root, events, e);
    forall name ensures DriftsOf(alerts + DriftAt(root, events, e), name) == DriftAlerts(root, EventsOf(log + [e], name)) {
      EventsAppend(log, e, name);
      DriftsOfAppend(alerts, DriftAt(root, events, e), name);
      assert EventsOf(log, name) + [] == EventsOf(log, name) && DriftsOf(alerts, name) + [] == DriftsOf(alerts, name);
    }
  }

  lemma DriftAlertsAppend(root: real -> real, events: seq<CalibrationEvent>, e: CalibrationEvent)
    ensures DriftAlerts(root, events + [e]) == DriftAlerts(root, events) + DriftAt(root, events, e)
  {
    assert (events + [e])[..|events|] == events;
  }

  lemma EmittedAppend(c: Settings, values: seq<real>, value: real, backendName: string)
    ensures Emitted(c, values + [value], backendName)
         == Emitted(c, values, backendName)
            + match Step(Folded(c, values), value, c, backendName).1
              case None => []
              case Some(transition) => [transition]
  {
    assert (values + [value])[..|values|] == values;
  }

  /** One event adds to the transitions of the hysteresis exactly what is published for it. */
  lemma AlertsAreEmitted(events: seq<CalibrationEvent>, e: CalibrationEvent)
    ensures Emitted(ALERTS, Averages(events + [e]), e.backendName)
         == Emitted(ALERTS, Averages(events), e.backendName) + AlertAt(events, e)
  {
    AveragesAppend(events, e);
    EmittedAppend(ALERTS, Averages(events), LastAverage(events, e), e.backendName);
  }

  /** The drift alerts announce the transitions of the hysteresis over the scored samples, one for one. */
  lemma {:induction false} DriftLevels(root: real -> real, events: seq<CalibrationEvent>, name: string)
    requires forall e :: e in events ==> e.backendName == name
    ensures var alerts, transitions := DriftAlerts(root, events), Emitted(DRIFTS, Scores(root, events), name);
            && |alerts| == |transitions|
            && forall k :: 0 <= k < |alerts| ==> alerts[k].level == transitions[k].level
                                                 && Abs(alerts[k].zscore) == transitions[k].value
  {
    if events != [] {
      hide Emitted, Scores, DriftAlerts;
      var front, last := events[..|events| - 1], events[|events| - 1];
      assert events == front + [last] && last in events;
      DriftLevels(root, front, name);
      ScoresAppend(root, front, last);
      DriftAlertsAppend(root, front, last);
      match ZScore(root, Baseline(Rates(front)), last.errorRate) {
        case None =>
        case Some(z) =>
          StepChanges(Folded(DRIFTS, Scores(root, front)), Abs(z), DRIFTS, name);
          EmittedAppend(DRIFTS, Scores(root, front), Abs(z), name);
      }
    } else {
      assert Scores(root, events) == [];
    }
  }

  // ----- the agent -----

  class Agent {
    const root: real -> real
    var errorRateSum: map<(string, int), real>
    var sampleCount: map<(string, int), int>
    var alertState: map<string, AlertState>
    var baselineStats: map<string, WelfordStats>
    var driftAlertState: map<string, AlertState>
    var alerts: seq<AlertTransition>
    var driftAlerts: seq<DriftAlert>
    ghost var log: seq<CalibrationEvent>

    ghost predicate Valid()
      reads this
    {
      && SumsOk(errorRateSum, log)
      && CountsOk(sampleCount, log)
      && AlertsOk(alertState, log)
      && BaselinesOk(baselineStats, log)
      && DriftsOk(root, driftAlertState, log)
      && AlertsPublished(alerts, log)
      && DriftsPublished(root, driftAlerts, log)
    }

    constructor (root: real -> real)
      ensures Valid() && log == [] && alerts == [] && driftAlerts == [] && this.root == root
    {
      this.root := root;
      errorRateSum, sampleCount, alertState, baselineStats, driftAlertState := map[], map[], map[], map[], map[];
      alerts, driftAlerts, log := [], [], [];
    }

    /** The first part of the agent's body: window average and flat-threshold alerting. */
    method ObserveWindow(event: CalibrationEvent)
      requires SumsOk(errorRateSum, log) && CountsOk(sampleCount, log) && AlertsOk(alertState, log)
      modifies this`errorRateSum, this`sampleCount, this`alertState, this`alerts
      ensures SumsOk(errorRateSum, log + [event]) && CountsOk(sampleCount, log + [event])
      ensures AlertsOk(alertState, log + [event])
      ensures alerts == old(alerts) + AlertAt(EventsOf(log, event.backendName), event)
    {
      hide Step, Folded, Averages, EventsOf, WindowRates, SumsOk, CountsOk;
      var name, key := event.backendName, (event.backendName, event.window);
      ghost var events := EventsOf(log, name);
      SumsStep(errorRateSum, log, event);
      CountsStep(sampleCount, log, event);
      AlertsStep(alertState, log, event);
      errorRateSum := errorRateSum[key := Lookup(errorRateSum, key, 0.0) + event.errorRate];
      sampleCount := sampleCount[key := Lookup(sampleCount, key, 0) + 1];
      var total, count := errorRateSum[key], sampleCount[key];
      AverageOfTables(errorRateSum, sampleCount, log, event);
      var windowAvg := if count != 0 then total / count as real else 0.0;
      var record := Lookup(alertState, name, FRESH);
      var (newState, transition) := Step(record, windowAvg, ALERTS, name);
      alertState := alertState[name := newState];
      if transition.Some? {
        alerts := alerts + [transition.value];
      }
    }

    /** The second part: the score against the old baseline, then the new baseline. */
    method ObserveDrift(event: CalibrationEvent)
      requires BaselinesOk(baselineStats, log) && DriftsOk(root, driftAlertState, log)
      modifies this`baselineStats, this`driftAlertState, this`driftAlerts
      ensures BaselinesOk(baselineStats, log + [event]) && DriftsOk(root, driftAlertState, log + [event])
      ensures driftAlerts == old(driftAlerts) + DriftAt(root, EventsOf(log, event.backendName), event)
    {
      hide Step, Folded, Scores, EventsOf, Update, ZScore, Abs, Baseline, Rates;
      var name := event.backendName;
      ghost var events := EventsOf(log, name);
      BaselinesStep(baselineStats, log, event);
      var prevWelford := Lookup(baselineStats, name, EMPTY);
      var z := ZScore(root, prevWelford, event.errorRate);
      var newWelford := Update(prevWelford, event.errorRate);
      baselineStats := baselineStats[name := newWelford];
      if z.Some? {
        var driftRecord := Lookup(driftAlertState, name, FRESH);
        var (newDriftState, transition) := Step(driftRecord, Abs(z.value), DRIFTS, name);
        driftAlertState := driftAlertState[name := newDriftState];
        if transition.Some? {
          driftAlerts := driftAlerts + [DriftAlert(name, transition.value.level, z.value, event.errorRate,
                                                   newWelford.mean, root(newWelford.Variance()))];
        }
      }
      DriftsStep(root, old(driftAlertState), log, event, driftAlertState);
    }

    /** One event through the agent. */
    method Process(event: CalibrationEvent)
      requires Valid()
      modifies this
      ensures Valid() && log == old(log) + [event]
      ensures alerts == old(alerts) + AlertAt(EventsOf(old(log), event.backendName), event)
      ensures driftAlerts == old(driftAlerts) + DriftAt(root, EventsOf(old(log), event.backendName), event)
    {
      hide AlertAt, DriftAt, SumsOk, CountsOk, AlertsOk, BaselinesOk, DriftsOk, EventsOf, AlertsPublished, DriftsPublished;
      AlertsPublishedStep(root, alerts, log, event);
      DriftsPublishedStep(root, driftAlerts, log, event);
      ObserveWindow(event);
      ObserveDrift(event);
      log := log + [event];
    }
  }

  lemma AverageOfTables(sums: map<(string, int), real>, counts: map<(string, int), int>, log: seq<CalibrationEvent>,
                        e: CalibrationEvent)
    requires SumsOk(sums, log + [e]) && CountsOk(counts, log + [e])
    requires (e.backendName, e.window) in sums && (e.backendName, e.window) in counts
    ensures var key := (e.backendName, e.window);
            && counts[key] > 0
            && sums[key] / counts[key] as real == LastAverage(EventsOf(log, e.backendName), e)
  {
    hide EventsOf, WindowRates, Total;
    var name, w := e.backendName, e.window;
    assert Lookup(sums, (name, w), 0.0) == Total(WindowRates(EventsOf(log + [e], name), w), Identity());
    assert Lookup(counts, (name, w), 0) == |WindowRates(EventsOf(log + [e], name), w)|;
    EventsAppend(log, e, name);
    WindowAppend(EventsOf(log, name), e, w);
  }

  /** Whatever else is interleaved, a backend's tables are those of a run on its events alone. */
  lemma SoloRefinement(all: Agent, solo: Agent, name: string)
    requires all.Valid() && solo.Valid() && all.root == solo.root
    requires solo.log == EventsOf(all.log, name)
    ensures Lookup(all.alertState, name, FRESH) == Lookup(solo.alertState, name, FRESH)
    ensures Lookup(all.baselineStats, name, EMPTY) == Lookup(solo.baselineStats, name, EMPTY)
    ensures Lookup(all.driftAlertState, name, FRESH) == Lookup(solo.driftAlertState, name, FRESH)
    ensures forall w: int :: Lookup(all.errorRateSum, (name, w), 0.0) == Lookup(solo.errorRateSum, (name, w), 0.0)
    ensures forall w: int :: Lookup(all.sampleCount, (name, w), 0) == Lookup(solo.sampleCount, (name, w), 0)
  {
    hide EventsOf, Lookup;
    EventsIdempotent(all.log, name);
  }

  lemma {:induction false} EventsOwn(log: seq<CalibrationEvent>, backendName: string)
    ensures forall e :: e in EventsOf(log, backendName) ==> e.backendName == backendName
  {
    if log != [] {
      EventsOwn(log[..|log| - 1], backendName);
    }
  }

  /** After any run, both lists of published alerts of a backend strictly alternate starting with ALERT, and their last
      entries announce its current levels. */
  lemma PublishedAlternate(agent: Agent, name: string)
    requires agent.Valid()
    ensures var alerts := AlertsOf(agent.alerts, name);
            && (forall k :: 0 <= k < |alerts| ==> alerts[k].level == LevelAfter(k + 1))
            && Lookup(agent.alertState, name, FRESH).level == LevelAfter(|alerts|)
    ensures var drifts := DriftsOf(agent.driftAlerts, name);
            && (forall k :: 0 <= k < |drifts| ==> drifts[k].level == LevelAfter(k + 1))
            && Lookup(agent.driftAlertState, name, FRESH).level == LevelAfter(|drifts|)
  {
    hide EventsOf, AlertsOf, DriftsOf, Emitted, Averages, Scores, DriftAlerts, Folded, LevelAfter;
    var events := EventsOf(agent.log, name);
    EventsOwn(agent.log, name);
    DriftLevels(agent.root, events, name);
    TransitionsAlternate(ALERTS, Averages(events), name);
    TransitionsAlternate(DRIFTS, Scores(agent.root, events), name);
  }

  /** The alert level is the hysteresis over the window averages, three above or three at most 0.05 in a row. */
  lemma AlertMeaning(agent: Agent, name: string)
    requires agent.Valid() && name in agent.alertState
    ensures agent.alertState[name].level == ALERT
            <==> Alarmed(Settings(0.05, 3, 3), Averages(EventsOf(agent.log, name)))
  {
    hide EventsOf, Averages, Alarmed, Folded;
    assert Lookup(agent.alertState, name, FRESH) == agent.alertState[name];
    LevelMeaning(ALERTS, Averages(EventsOf(agent.log, name)));
  }

  /** The drift level is the hysteresis over the scored samples alone, each scored against earlier samples. */
  lemma DriftMeaning(agent: Agent, name: string)
    requires agent.Valid() && name in agent.driftAlertState
    ensures agent.driftAlertState[name].level == ALERT
            <==> Alarmed(Settings(3.0, 2, 2), Scores(agent.root, EventsOf(agent.log, name)))
  {
    hide EventsOf, Scores, Alarmed, Folded;
    assert Lookup(agent.driftAlertState, name, FRESH) == agent.driftAlertState[name];
    LevelMeaning(DRIFTS, Scores(agent.root, EventsOf(agent.log, name)));
  }

  /** A sample is scored exactly when the samples before it are at least two and not all equal. */
  lemma {:induction false} ScoredIff(root: real -> real, events: seq<CalibrationEvent>, e: CalibrationEvent)
    requires IsRoot(root)
    ensures |Scores(root, events + [e])| == |Scores(root, events)| + 1 <==> |events| >= 2 && !AllEqual(Rates(events))
    ensures |Scores(root, events + [e])| == |Scores(root, events)| <==> |events| < 2 || AllEqual(Rates(events))
  {
    ScoresAppend(root, events, e);
    ZScoreDefined(root, Rates(events), e.errorRate);
    RatesLength(events);
  }

  /** What a published drift alert says, in terms of the samples alone: the signed score of its sample against the
      samples before it, and mean and standard deviation with the sample included; it is an ALERT above three standard
      deviations and an OK otherwise. */
  lemma DriftAlertSays(root: real -> real, front: seq<CalibrationEvent>, last: CalibrationEvent)
    requires IsRoot(root) && DriftAt(root, front, last) != []
    ensures |front| >= 2 && |DriftAt(root, front, last)| == 1
    ensures var a, before, after := DriftAt(root, front, last)[0], Rates(front), Rates(front) + [last.errorRate];
            && before != [] && a.backendName == last.backendName && a.errorRate == last.errorRate
            && Square(a.zscore) * Total(before, Deviation(BatchMean(before)))
               == Square(last.errorRate - BatchMean(before)) * (|before| - 1) as real
            && (a.zscore > 0.0 <==> last.errorRate > BatchMean(before))
            && (a.level == ALERT <==> Abs(a.zscore) > 3.0)
            && a.baselineMean == BatchMean(after)
            && a.baselineStddev >= 0.0
            && Square(a.baselineStddev) * |before| as real == Total(after, Deviation(BatchMean(after)))
  {
    hide Folded, Scores, Square, Total, Baseline, Rates;
    var before := Rates(front);
    var after := before + [last.errorRate];
    RatesLength(front);
    ZScoreDefined(root, before, last.errorRate);
    ZScoreIsBatch(root, before, last.errorRate);
    BaselineAppend(before, last.errorRate);
    WelfordIsBatch(after);
    VarianceIsBatch(after);
    VarianceSign(after);
    LevelBySample(Folded(DRIFTS, Scores(root, front)), Abs(ZScore(root, Baseline(before), last.errorRate).value), DRIFTS,
                  last.backendName);
  }

  /** What a published alert says: the mean of its backend's samples in its window, the threshold, and on which side of
      it the mean is. */
  lemma AlertSays(front: seq<CalibrationEvent>, last: CalibrationEvent)
    requires AlertAt(front, last) != []
    ensures |AlertAt(front, last)| == 1
    ensures var a, window := AlertAt(front, last)[0], WindowRates(front, last.window) + [last.errorRate];
            && a.backendName == last.backendName && a.threshold == 0.05
            && a.value * |window| as real == Total(window, Identity())
            && (a.level == ALERT <==> a.value > 0.05)
  {
    hide Folded, Averages, Total;
    var window := WindowRates(front, last.window) + [last.errorRate];
    Quotient(Total(window, Identity()), |window| as real);
    StepChanges(Folded(ALERTS, Averages(front)), LastAverage(front, last), ALERTS, last.backendName);
    LevelBySample(Folded(ALERTS, Averages(front)), LastAverage(front, last), ALERTS, last.backendName);
  }

  lemma RatesLength(events: seq<CalibrationEvent>)
    ensures |Rates(events)| == |events|
  {
  }
}
