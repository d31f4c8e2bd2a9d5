/**
 The analytics while the pipeline runs: each statement of a request reads the tables at a state of its own, with any
 steps in between. What still agrees, what does not, and exactly when.
 */
module AnalyticsRuns {
  import opened Wrappers
  import opened Rows
  import opened Sums
  import opened Decimal
  import opened Detector
  import opened Pipeline
  import opened PipelineSafety
  import opened PipelineTheorems
  import PipelineDrain
  import opened PipelineScenarios
  import opened Analytics

  /** The state after the first n of a list of pauses, each any sequence of steps. */
  function StateAfter(detect: Detect, pauses: seq<seq<Step>>, n: nat): State
    requires n <= |pauses|
  {
    if n == 0 then Start else Run(detect, StateAfter(detect, pauses, n - 1), pauses[n - 1])
  }

  /** A summary whose statements are sent after one pause each. */
  function ReadsAlong(detect: Detect, pauses: seq<seq<Step>>): SummaryReads
    requires |pauses| == 6
  {
    SummaryReads(StateAfter(detect, pauses, 1).db, StateAfter(detect, pauses, 2).db, StateAfter(detect, pauses, 3).db,
                 StateAfter(detect, pauses, 4).db, StateAfter(detect, pauses, 5).db, StateAfter(detect, pauses, 6).db)
  }

  // ----- what only grows

  /** Rows are only added, none loses a final status, and none changes its device. */
  ghost predicate Grown(a: Database, b: Database) {
    && a.measurements.Keys <= b.measurements.Keys
    && WithStatus(a, Anomaly) <= WithStatus(b, Anomaly)
    && (forall id :: id in a.measurements ==> b.measurements[id].values == a.measurements[id].values)
  }

  lemma Grows(detect: Detect, s: State, more: seq<Step>)
    requires Good(detect, s)
    ensures Good(detect, Run(detect, s, more)) && Grown(s.db, Run(detect, s, more).db)
  {
    GoodRun(detect, s, more);
    var t := Run(detect, s, more);
    forall id | id in s.db.measurements
      ensures id in t.db.measurements && t.db.measurements[id].values == s.db.measurements[id].values
      ensures s.db.measurements[id].status == Anomaly ==> t.db.measurements[id].status == Anomaly
    {
      FinalRun(detect, s, more, id);
      assert RowOk(detect, s.db.measurements[id], id, AnalysisOf(s.db.analyses, id), s.blobs);
    }
  }

  lemma {:induction false} GoodAfter(detect: Detect, pauses: seq<seq<Step>>, n: nat)
    requires n <= |pauses|
    ensures Good(detect, StateAfter(detect, pauses, n)) && Coherent(StateAfter(detect, pauses, n).db)
  {
    if n == 0 {
      EveryRunIsGood(detect, []);
      assert Run(detect, Start, []) == Start;
    } else {
      GoodAfter(detect, pauses, n - 1);
      GoodRun(detect, StateAfter(detect, pauses, n - 1), pauses[n - 1]);
      GoodIsCoherent(detect, StateAfter(detect, pauses, n));
    }
  }

  lemma {:induction false} GrownBetween(detect: Detect, pauses: seq<seq<Step>>, i: nat, j: nat)
    requires i <= j <= |pauses|
    ensures Grown(StateAfter(detect, pauses, i).db, StateAfter(detect, pauses, j).db)
    decreases j - i
  {
    if i < j {
      GrownBetween(detect, pauses, i, j - 1);
      GoodAfter(detect, pauses, j - 1);
      Grows(detect, StateAfter(detect, pauses, j - 1), pauses[j - 1]);
    }
  }

  // ----- the counts of a summary

  lemma CountsOrdered(total: Database, anomalies: Database, types: Database, statuses: Database)
    requires Coherent(types) && Coherent(statuses)
    requires Grown(total, types) && Grown(types, statuses) && Grown(anomalies, statuses)
    ensures |total.measurements.Keys| <= Sum(ByType(types)) <= Sum(ByStatus(statuses))
    ensures |WithStatus(anomalies, Anomaly)| <= CountOf(ByStatus(statuses), Anomaly)
  {
    CoherentCounts(types);
    CoherentCounts(statuses);
    FewerThan(total.measurements.Keys, types.measurements.Keys);
    FewerThan(types.measurements.Keys, statuses.measurements.Keys);
    FewerThan(WithStatus(anomalies, Anomaly), WithStatus(statuses, Anomaly));
  }

  /**
   In every run the counts of one summary stand in the order of their statements: the total is at most the sum by
   device type, and that at most the sum by status; the anomaly count is at most the ANOMALY entry.
   */
  lemma CountsInTurn(detect: Detect, pauses: seq<seq<Step>>)
    requires |pauses| == 6
    ensures var summary := GetSummary(ReadsAlong(detect, pauses));
            && summary.totalMeasurements <= Sum(summary.byDeviceType) <= Sum(summary.byStatus)
            && summary.anomalyCount <= CountOf(summary.byStatus, Anomaly)
            && summary.byStatus.Keys <= {Received, Validated, Anomaly}
  {
    GoodAfter(detect, pauses, 5);
    GoodAfter(detect, pauses, 6);
    GrownBetween(detect, pauses, 1, 5);
    GrownBetween(detect, pauses, 5, 6);
    GrownBetween(detect, pauses, 3, 6);
    var r := ReadsAlong(detect, pauses);
    CountsOrdered(r.total, r.anomalies, r.types, r.statuses);
    CoherentCounts(r.statuses);
  }

  /** The two counts of a summary with n rows in the table at its total cannot be torn further than new rows go. */
  lemma AnomaliesInTurn(detect: Detect, pauses: seq<seq<Step>>)
    requires |pauses| == 6
    ensures var r := ReadsAlong(detect, pauses);
            GetSummary(r).anomalyCount
            <= GetSummary(r).totalMeasurements + |r.anomalies.measurements.Keys - r.total.measurements.Keys|
  {
    GrownBetween(detect, pauses, 1, 3);
    var r := ReadsAlong(detect, pauses);
    var before, added := r.total.measurements.Keys, r.anomalies.measurements.Keys - r.total.measurements.Keys;
    assert r.anomalies.measurements.Keys == before + added;
    assert |before + added| == |before| + |added|;
    FewerThan(WithStatus(r.anomalies, Anomaly), r.anomalies.measurements.Keys);
  }

  /** How many steps of a run register a device, and how many commit a measurement. */
  function Registered(detect: Detect, s: State, steps: seq<Step>): nat
    decreases |steps|
  {
    if steps == [] then 0
    else (if steps[0].RegisterDevice? && Enabled(s, steps[0]) then 1 else 0)
         + Registered(detect, Next(detect, s, steps[0]), steps[1..])
  }

  function Committed(detect: Detect, s: State, steps: seq<Step>): nat
    decreases |steps|
  {
    if steps == [] then 0
    else (if steps[0].CommitSession? && Enabled(s, steps[0]) then 1 else 0)
         + Committed(detect, Next(detect, s, steps[0]), steps[1..])
  }

  lemma TablesStep(detect: Detect, s: State, step: Step)
    ensures var t, taken := Next(detect, s, step), Enabled(s, step);
            && t.db.devices.Keys == s.db.devices.Keys + (if step.RegisterDevice? && taken then {step.id} else {})
            && t.db.measurements.Keys
               == s.db.measurements.Keys + if step.CommitSession? && taken then {s.sessions[step.session].id} else {}
  {
    if ApiStep(step) || BrokerStep(step) {
    } else {
      WorkerKeepsRows(detect, s, step);
    }
  }

  lemma WorkerKeepsRows(detect: Detect, s: State, step: Step)
    requires !ApiStep(step) && !BrokerStep(step)
    ensures Next(detect, s, step).db.devices == s.db.devices
    ensures Next(detect, s, step).db.measurements.Keys == s.db.measurements.Keys
  {}

  lemma SizesStep(detect: Detect, s: State, step: Step)
    requires Good(detect, s)
    ensures var t, taken := Next(detect, s, step), Enabled(s, step);
            && |t.db.devices.Keys| == |s.db.devices.Keys| + (if step.RegisterDevice? && taken then 1 else 0)
            && |t.db.measurements.Keys| == |s.db.measurements.Keys| + if step.CommitSession? && taken then 1 else 0
  {
    TablesStep(detect, s, step);
    if step.CommitSession? && Enabled(s, step) {
      assert SessionOk(s.sessions[step.session], s.issued, s.db.measurements);
    }
  }

  lemma {:induction false} TablesRun(detect: Detect, s: State, steps: seq<Step>)
    requires Good(detect, s)
    ensures |Run(detect, s, steps).db.devices.Keys| == |s.db.devices.Keys| + Registered(detect, s, steps)
    ensures |Run(detect, s, steps).db.measurements.Keys| == |s.db.measurements.Keys| + Committed(detect, s, steps)
    decreases |steps|
  {
    if steps != [] {
      SizesStep(detect, s, steps[0]);
      GoodStep(detect, s, steps[0]);
      TablesRun(detect, Next(detect, s, steps[0]), steps[1..]);
    }
  }

  /** The totals of a summary are the measurements committed, and the devices registered, before their statements. */
  lemma TotalsAreExact(detect: Detect, pauses: seq<seq<Step>>)
    requires |pauses| == 6
    ensures var summary := GetSummary(ReadsAlong(detect, pauses));
            && summary.totalMeasurements == Committed(detect, Start, pauses[0])
            && summary.totalDevices == Registered(detect, Start, pauses[0] + pauses[1])
  {
    assert StateAfter(detect, pauses, 0) == Start;
    assert StateAfter(detect, pauses, 2) == Run(detect, StateAfter(detect, pauses, 1), pauses[1]);
    RunConcat(detect, Start, pauses[0], pauses[1]);
    GoodAfter(detect, pauses, 0);
    TablesRun(detect, Start, pauses[0]);
    TablesRun(detect, Start, pauses[0] + pauses[1]);
  }

  // ----- the rate

  /** More anomalies than rows by less than the second decimal shows. */
  predicate HardlyMore(anomalies: nat, total: nat) {
    var rows := if total == 0 then 1 else total;
    20000 * (anomalies - rows) <= rows
  }

  lemma ScaledRate(anomalies: real, n: real)
    requires n >= 1.0
    ensures var x := anomalies / n * 100.0 * TWO_DECIMALS;
            && (x > 10000.0 <==> anomalies > n)
            && (x - 10000.0 > 0.5 <==> 20000.0 * (anomalies - n) > n)
  {
    var q := anomalies / n;
    assert q * n == anomalies;
    QuotientAbove(anomalies, 1.0, n);
    QuotientAbove(anomalies, 1.00005, n);
    assert q > 1.00005 <==> anomalies > 1.00005 * n;
  }

  lemma RateAbove(anomalies: nat, total: nat)
    ensures AnomalyRate(anomalies, total) <= 100.0 <==> HardlyMore(anomalies, total)
    ensures 0.0 <= AnomalyRate(anomalies, total)
  {
    var n := (if total == 0 then 1 else total) as real;
    var exact := anomalies as real / n * 100.0;
    var x := exact * TWO_DECIMALS;
    ScaledRate(anomalies as real, n);
    RatioAbove(ToEven(x), 100.0, TWO_DECIMALS);
    if x > 10000.0 { ToEvenAbove(x, 10000); } else { ToEvenMonotone(x, 10000.0); }
    DivOrder(0.0, anomalies as real, n);
    RoundMonotone(0.0, exact, TWO_DECIMALS);
    RoundOnGrid(0.0, TWO_DECIMALS);
  }

  /**
   The published rate is never negative, and at most 100 if and only if the anomalies counted by the third statement
   exceed the rows counted by the first by at most one in twenty thousand. In particular it is when no row was
   committed between the two.
   */
  lemma RateInRangeExactly(detect: Detect, pauses: seq<seq<Step>>)
    requires |pauses| == 6
    ensures var r := ReadsAlong(detect, pauses);
            var summary := GetSummary(r);
            && 0.0 <= summary.anomalyRatePct
            && (summary.anomalyRatePct <= 100.0 <==> HardlyMore(summary.anomalyCount, summary.totalMeasurements))
            && (r.anomalies.measurements.Keys == r.total.measurements.Keys ==> summary.anomalyRatePct <= 100.0)
  {
    var r := ReadsAlong(detect, pauses);
    RateAbove(GetSummary(r).anomalyCount, GetSummary(r).totalMeasurements);
    AnomaliesInTurn(detect, pauses);
    if r.anomalies.measurements.Keys == r.total.measurements.Keys {
      assert r.anomalies.measurements.Keys - r.total.measurements.Keys == {};
      FewIsHardlyMore(GetSummary(r).anomalyCount, GetSummary(r).totalMeasurements);
    }
  }

  lemma FewIsHardlyMore(anomalies: nat, total: nat)
    requires anomalies <= total
    ensures HardlyMore(anomalies, total)
  {}

  // ----- the anomaly list and the trends

  /** A list read after a count shows at least as many anomalies as were counted, up to its limit. */
  lemma ListAfterCount(detect: Detect, steps: seq<Step>, more: seq<Step>, limit: nat)
    ensures var counted, listed := Run(detect, Start, steps).db, Run(detect, Start, steps + more).db;
            var n := |WithStatus(counted, Anomaly)|;
            |GetAnomalies(listed, limit)| >= if n <= limit then n else limit
  {
    EveryRunIsGood(detect, steps);
    RunConcat(detect, Start, steps, more);
    Grows(detect, Run(detect, Start, steps), more);
    ReachableIsCoherent(detect, steps + more);
    CoherentAnomalies(Run(detect, Start, steps + more).db, limit);
    FewerThan(WithStatus(Run(detect, Start, steps).db, Anomaly),
              WithStatus(Run(detect, Start, steps + more).db, Anomaly));
  }

  /** The flags of a device's full trend only grow from one request to the next, and so does the anomaly count. */
  lemma FlagsOnlyGrow(detect: Detect, steps: seq<Step>, more: seq<Step>, early: TrendReads, late: TrendReads,
                      heap: seq<Id>, laterHeap: seq<Id>, device: Id, limit: nat)
    requires early.rows == Run(detect, Start, steps).db && late.rows == Run(detect, Start, steps + more).db
    requires Enumerates(heap, early.rows.measurements) && Enumerates(laterHeap, late.rows.measurements)
    requires |heap| <= limit && |laterHeap| <= limit
    ensures Flags(GetDeviceTrend(early, heap, device, limit).trend)
            <= Flags(GetDeviceTrend(late, laterHeap, device, limit).trend)
    ensures |WithStatus(early.rows, Anomaly)| <= |WithStatus(late.rows, Anomaly)|
  {
    EveryRunIsGood(detect, steps);
    RunConcat(detect, Start, steps, more);
    Grows(detect, Run(detect, Start, steps), more);
    FlagsOnDevice(early, heap, device, limit);
    FlagsOnDevice(late, laterHeap, device, limit);
    FewerThan(WithStatus(early.rows, Anomaly), WithStatus(late.rows, Anomaly));
    FewerThan(Group(WithStatus(early.rows, Anomaly), DeviceColumn(early.rows), device),
              Group(WithStatus(late.rows, Anomaly), DeviceColumn(late.rows), device));
  }

  lemma RowThenAnalysis(detect: Detect, s: State, t: State, id: Id)
    requires Good(detect, s) && Good(detect, t) && id in s.db.measurements && Preserves(s.db, t.db, id)
    ensures PointFits(detect, s.db, t.db.analyses, id, Point(s.db, t.db.analyses, id))
            <==> !(s.db.measurements[id].status == Received && t.db.measurements[id].status == Anomaly)
  {
    assert RowOk(detect, s.db.measurements[id], id, AnalysisOf(s.db.analyses, id), s.blobs);
    assert RowOk(detect, t.db.measurements[id], id, AnalysisOf(t.db.analyses, id), t.blobs);
  }

  /**
   A trend reads its rows and then their analyses, with any steps in between. A point still says what the detector
   says of its measurement if and only if the measurement did not turn from RECEIVED to ANOMALY in between: then
   the point carries the score of an anomaly without the flag.
   */
  lemma PointFitsExactly(detect: Detect, steps: seq<Step>, between: seq<Step>, id: Id)
    requires id in Run(detect, Start, steps).db.measurements
    ensures var rows, later := Run(detect, Start, steps).db, Run(detect, Start, steps + between).db;
            && id in later.measurements
            && (PointFits(detect, rows, later.analyses, id, Point(rows, later.analyses, id))
                <==> !(rows.measurements[id].status == Received && later.measurements[id].status == Anomaly))
  {
    EveryRunIsGood(detect, steps);
    EveryRunIsGood(detect, steps + between);
    RunConcat(detect, Start, steps, between);
    FinalRun(detect, Run(detect, Start, steps), between, id);
    RowThenAnalysis(detect, Run(detect, Start, steps), Run(detect, Start, steps + between), id);
  }

  // ----- a run that tears a summary and a trend

  /** The steps of one undisturbed POST /measurements. */
  function Ingestion(id: Id, m: Id, values: Values, operator: string): seq<Step> {
    [Insert(0, id, values, 0, operator), Audit(0), Publish(0, m), CommitSession(0)]
  }

  function Queued(b: Broker, m: Id, body: Message): Broker {
    b.(bodies := b.bodies[m := body], queued := b.queued + {m}, deliveries := b.deliveries[m := 0])
  }

  lemma InsertThenAudit(detect: Detect, s: State, id: Id, values: Values, operator: string) returns (t: State)
    requires 0 !in s.sessions && id !in s.issued && values.deviceId in s.db.devices && values.uncertainty > 0.0
    ensures t == Next(detect, Next(detect, s, Insert(0, id, values, 0, operator)), Audit(0))
    ensures t == s.(sessions := s.sessions[0 := Session(id, Measurement(values, 0, Received, None), operator, Audited)],
                    issued := s.issued[id := values])
  {
    t := Next(detect, Next(detect, s, Insert(0, id, values, 0, operator)), Audit(0));
    assert t.sessions == s.sessions[0 := Session(id, Measurement(values, 0, Received, None), operator, Audited)];
  }

  lemma PublishThenCommit(detect: Detect, s: State, id: Id, m: Id, values: Values, operator: string) returns (t: State)
    requires 0 in s.sessions && m !in s.broker.bodies
    requires s.sessions[0] == Session(id, Measurement(values, 0, Received, None), operator, Audited)
    ensures t == Next(detect, Next(detect, s, Publish(0, m)), CommitSession(0))
    ensures t.broker == Queued(s.broker, m, Message(id, values)) && 0 !in t.sessions && t.issued == s.issued
    ensures t.db == s.db.(measurements := s.db.measurements[id := Measurement(values, 0, Received, None)],
                          audit := s.db.audit + [AuditEntry(operator, "create_measurement", id)])
    ensures t.jobs == s.jobs
  {
    t := Next(detect, Next(detect, s, Publish(0, m)), CommitSession(0));
  }

  lemma Ingested(detect: Detect, s: State, id: Id, m: Id, values: Values, operator: string)
    requires 0 !in s.sessions && id !in s.issued && m !in s.broker.bodies
    requires values.deviceId in s.db.devices && values.uncertainty > 0.0
    ensures var t := Run(detect, s, Ingestion(id, m, values, operator));
            && t.broker == Queued(s.broker, m, Message(id, values))
            && t.db.measurements == s.db.measurements[id := Measurement(values, 0, Received, None)]
            && t.db.devices == s.db.devices && t.jobs == s.jobs && 0 !in t.sessions
            && t.issued == s.issued[id := values]
  {
    var u := InsertThenAudit(detect, s, id, values, operator);
    var t := PublishThenCommit(detect, u, id, m, values, operator);
    var steps := Ingestion(id, m, values, operator);
    RunFour(detect, s, steps);
    assert steps[4..] == [];
  }

  function Delivery(m: Id, j: Id): seq<Step> {
    [Deliver(m, j), Upload(j, 2024, 3), Read(j), Commit(j, false), Complete(j)]
  }

  lemma NotAnalysed(detect: Detect, s: State, id: Id)
    requires Good(detect, s) && id in s.db.measurements && s.db.measurements[id].status == Received
    ensures AnalysisOf(s.db.analyses, id).None?
  {
    assert RowOk(detect, s.db.measurements[id], id, AnalysisOf(s.db.analyses, id), s.blobs);
  }

  lemma OneDelivered(detect: Detect, s: State, m: Id, j: Id, id: Id)
    requires BrokerOk(s.broker) && m in s.broker.queued && j !in s.jobs && Names(s.broker.bodies, m, id)
    requires id in s.db.measurements && AnalysisOf(s.db.analyses, id).None?
    requires detect(s.broker.bodies[m].values).Ok? && detect(s.broker.bodies[m].values).value.isAnomaly
    ensures var t := Run(detect, s, Delivery(m, j));
            && t.broker == MarkCompleted(Delivered(s.broker, m), m) && t.jobs == s.jobs
            && t.db.measurements.Keys == s.db.measurements.Keys && t.db.measurements[id].status == Anomaly
            && (forall k :: k in s.db.measurements && k != id ==> t.db.measurements[k] == s.db.measurements[k])
  {
    var _ := DeliverAndProcess(detect, s, m, j, 2024, 3);
    RunFive(detect, s, Delivery(m, j));
  }

  lemma Processed(detect: Detect, s: State, m: Id, j: Id, id: Id)
    requires Good(detect, s) && m in s.broker.queued && j !in s.jobs && Names(s.broker.bodies, m, id)
    requires id in s.db.measurements && s.db.measurements[id].status == Received
    requires detect(s.broker.bodies[m].values).Ok? && detect(s.broker.bodies[m].values).value.isAnomaly
    ensures var t := Run(detect, s, Delivery(m, j));
            && Good(detect, t) && t.broker == MarkCompleted(Delivered(s.broker, m), m) && t.jobs == s.jobs
            && t.db.measurements.Keys == s.db.measurements.Keys && t.db.measurements[id].status == Anomaly
            && (forall k :: k in s.db.measurements && k != id ==> t.db.measurements[k] == s.db.measurements[k])
  {
    NotAnalysed(detect, s, id);
    OneDelivered(detect, s, m, j, id);
    GoodRun(detect, s, Delivery(m, j));
  }

  /** One committed measurement, its message queued. */
  predicate HasOne(s: State, values: Values) {
    && s.broker == Queued(Start.broker, 0, Message(0, values)) && s.jobs == map[] && 0 !in s.sessions
    && s.issued.Keys == {0} && values.deviceId in s.db.devices
    && s.db.measurements == map[0 := Measurement(values, 0, Received, None)]
  }

  function FirstPause(device: Device, values: Values, operator: string): seq<Step> {
    [RegisterDevice(0, device)] + Ingestion(0, 0, values, operator)
  }

  lemma OneIngested(detect: Detect, device: Device, values: Values, operator: string)
    requires values.deviceId == 0 && values.uncertainty > 0.0
    ensures HasOne(Run(detect, Start, FirstPause(device, values, operator)), values)
  {
    var s := Next(detect, Start, RegisterDevice(0, device));
    PipelineDrain.RunFirst(detect, Start, RegisterDevice(0, device), Ingestion(0, 0, values, operator));
    Ingested(detect, s, 0, 0, values, operator);
  }

  function ThirdPause(values: Values, operator: string): seq<Step> {
    Ingestion(1, 1, values, operator) + (Delivery(0, 0) + Delivery(1, 1))
  }

  /** Two committed measurements, their messages queued. */
  predicate HasTwo(s: State, values: Values) {
    && s.broker.queued == {0, 1} && s.jobs == map[]
    && s.broker.bodies == map[0 := Message(0, values), 1 := Message(1, values)]
    && s.broker.deliveries == map[0 := 0, 1 := 0]
    && s.db.measurements.Keys == {0, 1}
    && s.db.measurements[0].status == Received && s.db.measurements[1].status == Received
  }

  lemma SecondIngested(detect: Detect, s: State, values: Values, operator: string)
    requires HasOne(s, values) && values.uncertainty > 0.0
    ensures HasTwo(Run(detect, s, Ingestion(1, 1, values, operator)), values)
  {
    Ingested(detect, s, 1, 1, values, operator);
  }

  lemma BothProcessed(detect: Detect, s: State, values: Values)
    requires Good(detect, s) && HasTwo(s, values) && detect(values).Ok? && detect(values).value.isAnomaly
    ensures WithStatus(Run(detect, Run(detect, s, Delivery(0, 0)), Delivery(1, 1)).db, Anomaly) == {0, 1}
  {
    Processed(detect, s, 0, 0, 0);
    var t := Run(detect, s, Delivery(0, 0));
    Processed(detect, t, 1, 1, 1);
    BothAnomalies(Run(detect, t, Delivery(1, 1)).db);
  }

  lemma BothAnomalies(db: Database)
    requires db.measurements.Keys == {0, 1} && db.measurements[0].status == db.measurements[1].status == Anomaly
    ensures WithStatus(db, Anomaly) == {0, 1}
  {}

  lemma TwoProcessed(detect: Detect, s: State, values: Values, operator: string)
    requires Good(detect, s) && HasOne(s, values) && values.uncertainty > 0.0
    requires detect(values).Ok? && detect(values).value.isAnomaly
    ensures WithStatus(Run(detect, s, ThirdPause(values, operator)).db, Anomaly) == {0, 1}
  {
    var ingestion := Ingestion(1, 1, values, operator);
    SecondIngested(detect, s, values, operator);
    GoodRun(detect, s, ingestion);
    BothProcessed(detect, Run(detect, s, ingestion), values);
    RunConcat(detect, Run(detect, s, ingestion), Delivery(0, 0), Delivery(1, 1));
    RunConcat(detect, s, ingestion, Delivery(0, 0) + Delivery(1, 1));
  }

  /**
   A summary that publishes a rate of 200 percent: one measurement is there when the total is read, a second one is
   committed and both turn out to be anomalies before the third statement counts them.
   */
  lemma RateCanExceedHundred(detect: Detect, device: Device, values: Values, operator: string)
    requires values.deviceId == 0 && values.uncertainty > 0.0
    requires detect(values).Ok? && detect(values).value.isAnomaly
    ensures var pauses := [FirstPause(device, values, operator), [], ThirdPause(values, operator), [], [], []];
            var summary := GetSummary(ReadsAlong(detect, pauses));
            summary.totalMeasurements == 1 && summary.anomalyCount == 2 && summary.anomalyRatePct == 200.0
  {
    var pauses := [FirstPause(device, values, operator), [], ThirdPause(values, operator), [], [], []];
    OneIngested(detect, device, values, operator);
    FirstThree(detect, pauses);
    GoodAfter(detect, pauses, 1);
    TwoProcessed(detect, StateAfter(detect, pauses, 1), values, operator);
    assert |{0, 1}| == 2 by { assert {0, 1} - {0} == {1}; }
    assert StateAfter(detect, pauses, 1).db.measurements.Keys == {0};
    TwoOfOne();
  }

  lemma FirstThree(detect: Detect, pauses: seq<seq<Step>>)
    requires |pauses| == 6 && pauses[1] == []
    ensures StateAfter(detect, pauses, 1) == Run(detect, Start, pauses[0])
    ensures StateAfter(detect, pauses, 3) == Run(detect, StateAfter(detect, pauses, 1), pauses[2])
  {
    assert StateAfter(detect, pauses, 0) == Start;
    assert StateAfter(detect, pauses, 2) == Run(detect, StateAfter(detect, pauses, 1), []);
  }

  lemma TwoOfOne()
    ensures AnomalyRate(2, 1) == 200.0
  {
    assert 200.0 * TWO_DECIMALS == 20000.0;
    RoundOnGrid(200.0, TWO_DECIMALS);
  }

  /** A trend point with the score of an anomaly and no flag: the worker commits between the two statements. */
  lemma PointCanBeTorn(detect: Detect, device: Device, values: Values, operator: string)
    requires values.deviceId == 0 && values.uncertainty > 0.0
    requires detect(values).Ok? && detect(values).value.isAnomaly
    ensures var rows := Run(detect, Start, FirstPause(device, values, operator));
            var later := Run(detect, rows, Delivery(0, 0));
            && 0 in rows.db.measurements
            && var p := Point(rows.db, later.db.analyses, 0);
               !p.isAnomaly && p.anomalyScore == Some(detect(values).value.anomalyScore)
  {
    var rows := Run(detect, Start, FirstPause(device, values, operator));
    OneIngested(detect, device, values, operator);
    EveryRunIsGood(detect, FirstPause(device, values, operator));
    Processed(detect, rows, 0, 0, 0);
    var later := Run(detect, rows, Delivery(0, 0));
    assert RowOk(detect, later.db.measurements[0], 0, AnalysisOf(later.db.analyses, 0), later.blobs);
    FinalRun(detect, rows, Delivery(0, 0), 0);
  }
}
