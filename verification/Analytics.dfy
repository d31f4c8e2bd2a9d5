/**
 The analytics queries over the pipeline's tables. A request sends several statements, and each of them reads the
 tables as they are by then; here is how the answers agree on tables at rest, and AnalyticsRuns is about the rest.
 */
module Analytics {
  import opened Wrappers
  import opened Rows
  import opened Sums
  import opened Decimal
  import opened Detector
  import opened Pipeline
  import opened PipelineSafety

  const TWO_DECIMALS: real := 100.0

  datatype AnalyticsSummary = AnalyticsSummary(
    totalMeasurements: nat, totalDevices: nat, anomalyCount: nat, anomalyRatePct: real, avgDeviationPct: real,
    byDeviceType: map<DeviceType, nat>, byStatus: map<Status, nat>)

  datatype TrendPoint = TrendPoint(
    timestamp: int, measuredValue: real, referenceValue: real, deviationPct: real, isAnomaly: bool,
    anomalyScore: Option<real>)

  datatype DeviceTrend = DeviceTrend(deviceId: Id, deviceName: string, unit: string, trend: seq<TrendPoint>)

  datatype AnomalyEntry = AnomalyEntry(
    measurementId: Id, deviceId: Id, deviceName: string, serialNumber: string, measuredValue: real,
    referenceValue: real, deviationPct: real, anomalyScore: real, measuredAt: int)

  // ----- the queries

  function WithStatus(db: Database, status: Status): set<Id> {
    set id | id in db.measurements && db.measurements[id].status == status
  }

  function StatusColumn(db: Database): map<Id, Status> {
    map id | id in db.measurements :: db.measurements[id].status
  }

  /** The inner join of measurements and devices, down to the device type. */
  function TypeColumn(db: Database): map<Id, DeviceType> {
    map id | id in db.measurements && db.measurements[id].values.deviceId in db.devices
      :: db.devices[db.measurements[id].values.deviceId].deviceType
  }

  function TotalDeviation(analyses: seq<Analysis>): real {
    if analyses == [] then 0.0
    else TotalDeviation(analyses[..|analyses| - 1]) + analyses[|analyses| - 1].result.deviationPct
  }

  function AverageDeviation(analyses: seq<Analysis>): real {
    if analyses == [] then 0.0 else TotalDeviation(analyses) / |analyses| as real
  }

  function AnomalyRate(anomalies: nat, total: nat): real {
    Round(anomalies as real / (if total == 0 then 1 else total) as real * 100.0, TWO_DECIMALS)
  }

  /** What the six statements of a summary read, in their order. */
  datatype SummaryReads = SummaryReads(
    total: Database, devices: Database, anomalies: Database, deviations: Database, types: Database,
    statuses: Database)

  function AtRest(db: Database): SummaryReads { SummaryReads(db, db, db, db, db, db) }

  ghost function ByType(db: Database): map<DeviceType, nat> { GroupCounts(TypeColumn(db).Keys, TypeColumn(db)) }

  ghost function ByStatus(db: Database): map<Status, nat> { GroupCounts(StatusColumn(db).Keys, StatusColumn(db)) }

  ghost function GetSummary(r: SummaryReads): AnalyticsSummary {
    var total, anomalies := |r.total.measurements.Keys|, |WithStatus(r.anomalies, Anomaly)|;
    AnalyticsSummary(
      total, |r.devices.devices.Keys|, anomalies, AnomalyRate(anomalies, total),
      Round(AverageDeviation(r.deviations.analyses), FOUR_DECIMALS), ByType(r.types), ByStatus(r.statuses))
  }

  /** Where the rows of the measurement table lie: any order without repetition. */
  ghost predicate Enumerates(heap: seq<Id>, rows: map<Id, Measurement>) {
    Distinct(heap) && forall id :: id in heap <==> id in rows
  }

  function OnDevice(db: Database, device: Id): Id -> bool {
    (id: Id) => id in db.measurements && db.measurements[id].values.deviceId == device
  }

  function MeasuredAt(db: Database): Id -> int {
    (id: Id) => if id in db.measurements then db.measurements[id].measuredAt else 0
  }

  /** The rows of a trend: those of the device, oldest first, up to the limit. */
  function TrendIds(db: Database, heap: seq<Id>, device: Id, limit: nat): (ids: seq<Id>)
    ensures forall id :: id in ids ==> id in heap && OnDevice(db, device)(id)
    ensures |ids| <= limit
  {
    Slice(SortBy(MeasuredAt(db), Filter(OnDevice(db, device), heap)), 0, limit)
  }

  /** A row, and the analysis that the statement after it found for it. */
  function Point(db: Database, analyses: seq<Analysis>, id: Id): TrendPoint
    requires id in db.measurements
  {
    var m, analysis := db.measurements[id], AnalysisOf(analyses, id);
    TrendPoint(m.measuredAt, m.values.measuredValue, m.values.referenceValue,
               if analysis.Some? then analysis.value.deviationPct else 0.0,
               m.status == Anomaly,
               if analysis.Some? then Some(analysis.value.anomalyScore) else None)
  }

  /** What the three statements of a trend read: the device, its rows, the rows' analyses. */
  datatype TrendReads = TrendReads(device: Database, rows: Database, analyses: Database)

  function TrendAtRest(db: Database): TrendReads { TrendReads(db, db, db) }

  function GetDeviceTrend(r: TrendReads, heap: seq<Id>, device: Id, limit: nat): DeviceTrend {
    var ids := TrendIds(r.rows, heap, device, limit);
    assert forall i :: 0 <= i < |ids| ==> ids[i] in ids;
    DeviceTrend(device,
                if device in r.device.devices then r.device.devices[device].name else "Unknown",
                if ids == [] then "unknown" else r.rows.measurements[ids[0]].values.unit,
                seq(|ids|, i requires 0 <= i < |ids| => Point(r.rows, r.analyses.analyses, ids[i])))
  }

  predicate Joins(db: Database, a: Analysis) {
    a.measurementId in db.measurements && db.measurements[a.measurementId].values.deviceId in db.devices
  }

  function Entry(db: Database, a: Analysis): AnomalyEntry
    requires Joins(db, a)
  {
    var v := db.measurements[a.measurementId].values;
    AnomalyEntry(a.measurementId, v.deviceId, db.devices[v.deviceId].name, db.devices[v.deviceId].serialNumber,
                 v.measuredValue, v.referenceValue, a.result.deviationPct, a.result.anomalyScore,
                 db.measurements[a.measurementId].measuredAt)
  }

  /** The join of analyses with measurements and devices, where the analysis says anomaly. */
  function FlaggedEntries(db: Database, analyses: seq<Analysis>): seq<AnomalyEntry> {
    if analyses == [] then []
    else
      var a := analyses[|analyses| - 1];
      FlaggedEntries(db, analyses[..|analyses| - 1]) + if a.result.isAnomaly && Joins(db, a) then [Entry(db, a)] else []
  }

  function NewestFirst(): AnomalyEntry -> int {
    (e: AnomalyEntry) => -e.measuredAt
  }

  function GetAnomalies(db: Database, limit: nat): (r: seq<AnomalyEntry>)
    ensures |r| <= limit
  {
    Slice(SortBy(NewestFirst(), FlaggedEntries(db, db.analyses)), 0, limit)
  }

  // ----- the summary adds up

  /** What the queries need of the tables. */
  ghost predicate Coherent(db: Database) {
    && (forall i, j :: 0 <= i < j < |db.analyses| ==> db.analyses[i].measurementId != db.analyses[j].measurementId)
    && (forall a :: a in db.analyses ==> Joins(db, a) && AnalysisOf(db.analyses, a.measurementId) == Some(a.result))
    && FlaggedIds(db.analyses) == WithStatus(db, Anomaly)
    && (forall id :: id in db.measurements ==>
          db.measurements[id].values.deviceId in db.devices
          && db.measurements[id].status in {Received, Validated, Anomaly})
  }

  lemma RowIsCoherent(detect: Detect, s: State, id: Id)
    requires Good(detect, s) && id in s.db.measurements
    ensures s.db.measurements[id].values.deviceId in s.db.devices
    ensures s.db.measurements[id].status in {Received, Validated, Anomaly}
    ensures var r := AnalysisOf(s.db.analyses, id);
            s.db.measurements[id].status == Anomaly <==> r.Some? && r.value.isAnomaly
  {
    assert Issued(s.issued, id, s.db.measurements[id].values);
    assert RowOk(detect, s.db.measurements[id], id, AnalysisOf(s.db.analyses, id), s.blobs);
  }

  lemma {:induction false} AnalysisIsFound(analyses: seq<Analysis>, a: Analysis)
    requires forall i, j :: 0 <= i < j < |analyses| ==> analyses[i].measurementId != analyses[j].measurementId
    requires a in analyses
    ensures AnalysisOf(analyses, a.measurementId) == Some(a.result)
  {
    if a != analyses[|analyses| - 1] { AnalysisIsFound(analyses[..|analyses| - 1], a); }
  }

  lemma ReachableIsCoherent(detect: Detect, steps: seq<Step>)
    ensures Coherent(Run(detect, Start, steps).db)
  {
    EveryRunIsGood(detect, steps);
    GoodIsCoherent(detect, Run(detect, Start, steps));
  }

  lemma GoodIsCoherent(detect: Detect, s: State)
    requires Good(detect, s)
    ensures Coherent(s.db)
  {
    forall id | id in s.db.measurements
      ensures s.db.measurements[id].values.deviceId in s.db.devices
      ensures s.db.measurements[id].status in {Received, Validated, Anomaly}
    {
      RowIsCoherent(detect, s, id);
    }
    forall a | a in s.db.analyses
      ensures Joins(s.db, a) && AnalysisOf(s.db.analyses, a.measurementId) == Some(a.result)
      ensures a.result.isAnomaly <==> a.measurementId in WithStatus(s.db, Anomaly)
    {
      AnalysisIsFound(s.db.analyses, a);
      RowIsCoherent(detect, s, a.measurementId);
    }
    forall id | id in WithStatus(s.db, Anomaly) ensures id in FlaggedIds(s.db.analyses) {
      AnalysisOfAny(s.db.analyses, id);
      RowIsCoherent(detect, s, id);
    }
  }

  /** At rest, per status and per device type the counts sum to the total, and no status but three occurs. */
  lemma CountsAddUp(detect: Detect, steps: seq<Step>, db: Database)
    requires db == Run(detect, Start, steps).db
    ensures var summary := GetSummary(AtRest(db));
            && Sum(summary.byStatus) == summary.totalMeasurements
            && Sum(summary.byDeviceType) == summary.totalMeasurements
            && summary.byStatus.Keys <= {Received, Validated, Anomaly}
            && summary.anomalyCount == if Anomaly in summary.byStatus then summary.byStatus[Anomaly] else 0
  {
    ReachableIsCoherent(detect, steps);
    CoherentCounts(db);
  }

  function CountOf<G>(counts: map<G, nat>, group: G): nat {
    if group in counts then counts[group] else 0
  }

  /**
   Whatever each statement reads, its count is the number of the rows it names, and a group is listed if and only if
   it has a row.
   */
  lemma CountsMean(r: SummaryReads, status: Status, deviceType: DeviceType)
    ensures var summary := GetSummary(r);
            && summary.totalMeasurements == |r.total.measurements|
            && summary.anomalyCount
               == |set id | id in r.anomalies.measurements && r.anomalies.measurements[id].status == Anomaly|
            && CountOf(summary.byStatus, status) == |WithStatus(r.statuses, status)|
            && (status in summary.byStatus <==> WithStatus(r.statuses, status) != {})
            && CountOf(summary.byDeviceType, deviceType) == |OfType(r.types, deviceType)|
            && (deviceType in summary.byDeviceType <==> OfType(r.types, deviceType) != {})
  {
    assert |r.total.measurements.Keys| == |r.total.measurements|;
    assert WithStatus(r.anomalies, Anomaly)
           == set id | id in r.anomalies.measurements && r.anomalies.measurements[id].status == Anomaly;
    StatusCounts(r.statuses, status);
    TypeCounts(r.types, deviceType);
  }

  /** The rows of the devices of a type. */
  function OfType(db: Database, deviceType: DeviceType): set<Id> {
    set id | id in db.measurements && db.measurements[id].values.deviceId in db.devices
             && db.devices[db.measurements[id].values.deviceId].deviceType == deviceType
  }

  lemma StatusCounts(db: Database, status: Status)
    ensures CountOf(ByStatus(db), status) == |WithStatus(db, status)|
    ensures status in ByStatus(db) <==> WithStatus(db, status) != {}
  {
    assert Group(StatusColumn(db).Keys, StatusColumn(db), status) == WithStatus(db, status);
    GroupCovered(StatusColumn(db).Keys, StatusColumn(db), status);
  }

  lemma TypeCounts(db: Database, deviceType: DeviceType)
    ensures CountOf(ByType(db), deviceType) == |OfType(db, deviceType)|
    ensures deviceType in ByType(db) <==> OfType(db, deviceType) != {}
  {
    assert Group(TypeColumn(db).Keys, TypeColumn(db), deviceType) == OfType(db, deviceType);
    GroupCovered(TypeColumn(db).Keys, TypeColumn(db), deviceType);
  }

  lemma GroupCovered<K, G>(keys: set<K>, f: map<K, G>, g: G)
    requires keys <= f.Keys
    ensures CountOf(GroupCounts(keys, f), g) == |Group(keys, f, g)|
    ensures g in GroupCounts(keys, f) <==> Group(keys, f, g) != {}
  {
    if Group(keys, f, g) != {} {
      var k :| k in Group(keys, f, g);
      assert f[k] == g;
    }
  }

  lemma CoherentCounts(db: Database)
    requires Coherent(db)
    ensures Sum(ByStatus(db)) == |db.measurements.Keys| && Sum(ByType(db)) == |db.measurements.Keys|
    ensures ByStatus(db).Keys <= {Received, Validated, Anomaly}
    ensures |WithStatus(db, Anomaly)| == if Anomaly in ByStatus(db) then ByStatus(db)[Anomaly] else 0
  {
    assert TypeColumn(db).Keys == StatusColumn(db).Keys == db.measurements.Keys;
    GroupsAddUp(TypeColumn(db).Keys, TypeColumn(db));
    GroupsAddUp(StatusColumn(db).Keys, StatusColumn(db));
    assert Group(StatusColumn(db).Keys, StatusColumn(db), Anomaly) == WithStatus(db, Anomaly);
    if WithStatus(db, Anomaly) != {} {
      var id :| id in WithStatus(db, Anomaly);
      assert StatusColumn(db)[id] == Anomaly;
    }
  }

  /** In 0 to 100, with both ends where they belong, and the quotient up to half a hundredth. */
  predicate Percentage(rate: real, part: nat, total: nat) {
    && 0.0 <= rate <= 100.0 && (part == 0 ==> rate == 0.0) && (part == total > 0 ==> rate == 100.0)
    && (total > 0 ==> IsQuotient(rate, part as real * 100.0, total as real, 100.0))
  }

  /** At rest the rate is a percentage, 0 on an empty table and within half a hundredth of the exact rate. */
  lemma RateIsPercentage(db: Database)
    ensures var summary := GetSummary(AtRest(db));
            Percentage(summary.anomalyRatePct, summary.anomalyCount, summary.totalMeasurements)
  {
    var anomalies, total := |WithStatus(db, Anomaly)|, |db.measurements.Keys|;
    FewerThan(WithStatus(db, Anomaly), db.measurements.Keys);
    RateBounds(anomalies, total);
  }

  lemma RateHasTwoDecimals(r: SummaryReads)
    ensures OnGrid(GetSummary(r).anomalyRatePct, 100.0)
  {
    var anomalies, total := |WithStatus(r.anomalies, Anomaly)|, |r.total.measurements.Keys|;
    RoundIsOnGrid(anomalies as real / (if total == 0 then 1 else total) as real * 100.0, TWO_DECIMALS);
  }

  lemma FewerThan<T>(a: set<T>, b: set<T>)
    requires a <= b
    ensures |a| <= |b|
  {
    assert b == a + (b - a);
  }

  lemma RateBounds(anomalies: nat, total: nat)
    requires anomalies <= total
    ensures Percentage(AnomalyRate(anomalies, total), anomalies, total)
  {
    var n := (if total == 0 then 1 else total) as real;
    var exact := anomalies as real / n * 100.0;
    ExactRate(anomalies as real, n);
    RoundMonotone(0.0, exact, TWO_DECIMALS);
    RoundMonotone(exact, 100.0, TWO_DECIMALS);
    RoundOnGrid(0.0, TWO_DECIMALS);
    RoundOnGrid(100.0, TWO_DECIMALS);
    RoundQuotient(anomalies as real * 100.0, n, TWO_DECIMALS);
  }

  lemma ExactRate(anomalies: real, n: real)
    requires 0.0 <= anomalies <= n && n > 0.0
    ensures anomalies / n * 100.0 == anomalies * 100.0 / n
    ensures 0.0 <= anomalies / n * 100.0 <= 100.0
    ensures anomalies == 0.0 ==> anomalies / n * 100.0 == 0.0
    ensures anomalies == n ==> anomalies / n * 100.0 == 100.0
  {
    Regroup(anomalies, 100.0, n);
    DivOrder(0.0, anomalies, n);
    DivOrder(anomalies, n, n);
    assert n / n == 1.0;
  }

  /** The sum over a list is that over its parts, and over one analysis its deviation. */
  lemma {:induction false} DeviationsAdd(a: seq<Analysis>, b: seq<Analysis>)
    ensures TotalDeviation(a + b) == TotalDeviation(a) + TotalDeviation(b)
    ensures |a| == 1 ==> TotalDeviation(a) == a[0].result.deviationPct
  {
    if b == [] {
      assert a + b == a;
    } else {
      assert (a + b)[..|a + b| - 1] == a + b[..|b| - 1];
      DeviationsAdd(a, b[..|b| - 1]);
    }
  }

  /** The published mean is the sum over the number of the analyses, up to half a unit of the fourth decimal. */
  lemma AverageIsMean(r: SummaryReads)
    ensures var analyses, average := r.deviations.analyses, GetSummary(r).avgDeviationPct;
            && OnGrid(average, 10000.0)
            && if analyses == [] then average == 0.0
               else IsQuotient(average, TotalDeviation(analyses), |analyses| as real, 10000.0)
  {
    var analyses := r.deviations.analyses;
    RoundOnGrid(0.0, FOUR_DECIMALS);
    RoundIsOnGrid(AverageDeviation(analyses), FOUR_DECIMALS);
    if analyses != [] { RoundQuotient(TotalDeviation(analyses), |analyses| as real, FOUR_DECIMALS); }
  }

  /** The published mean lies between the rounded extremes of the deviations, whatever the other statements read. */
  lemma AverageIsBetween(r: SummaryReads, low: real, high: real)
    requires r.deviations.analyses != []
    requires forall a :: a in r.deviations.analyses ==> low <= a.result.deviationPct <= high
    ensures Round(low, FOUR_DECIMALS) <= GetSummary(r).avgDeviationPct <= Round(high, FOUR_DECIMALS)
  {
    var analyses := r.deviations.analyses;
    var n := |analyses| as real;
    TotalIsBetween(analyses, low, high);
    MeanIsBetween(TotalDeviation(analyses), n, low, high);
    RoundMonotone(low, AverageDeviation(analyses), FOUR_DECIMALS);
    RoundMonotone(AverageDeviation(analyses), high, FOUR_DECIMALS);
  }

  lemma MeanIsBetween(total: real, n: real, low: real, high: real)
    requires n > 0.0 && low * n <= total <= high * n
    ensures low <= total / n <= high
  {
    DivOrder(low * n, total, n);
    DivOrder(total, high * n, n);
    Unscale(low, n);
    Unscale(high, n);
  }

  lemma {:induction false} TotalIsBetween(analyses: seq<Analysis>, low: real, high: real)
    requires forall a :: a in analyses ==> low <= a.result.deviationPct <= high
    ensures low * |analyses| as real <= TotalDeviation(analyses) <= high * |analyses| as real
  {
    if analyses != [] {
      TotalIsBetween(analyses[..|analyses| - 1], low, high);
      assert analyses[|analyses| - 1] in analyses;
    }
  }

  // ----- the list of anomalies is the counted ones

  /** Each analysis that says anomaly contributes its entry, once. */
  lemma {:induction false} FlaggedMeans(db: Database, analyses: seq<Analysis>)
    requires forall i, j :: 0 <= i < j < |analyses| ==> analyses[i].measurementId != analyses[j].measurementId
    requires forall a :: a in analyses ==> Joins(db, a)
    ensures |FlaggedEntries(db, analyses)| == |FlaggedIds(analyses)|
    ensures forall e :: e in FlaggedEntries(db, analyses)
              <==> exists a :: a in analyses && a.result.isAnomaly && e == Entry(db, a)
  {
    if analyses != [] {
      var front, a := analyses[..|analyses| - 1], analyses[|analyses| - 1];
      assert analyses == front + [a];
      FlaggedMeans(db, front);
      FlaggedIdsMore(front, a);
    }
  }

  ghost function FlaggedIds(analyses: seq<Analysis>): set<Id> {
    set a | a in analyses && a.result.isAnomaly :: a.measurementId
  }

  lemma FlaggedIdsMore(front: seq<Analysis>, a: Analysis)
    ensures FlaggedIds(front + [a]) == FlaggedIds(front) + if a.result.isAnomaly then {a.measurementId} else {}
    ensures (forall i :: 0 <= i < |front| ==> front[i].measurementId != a.measurementId) ==>
              a.measurementId !in FlaggedIds(front)
  {
    assert forall x :: x in front + [a] <==> x in front || x == a;
  }

  /**
   The summary counts statuses and the anomaly list joins analyses; they agree in every reachable state: the
   list holds as many entries as the count, up to its limit, newest first, and each entry shows its own row
   and analysis.
   */
  lemma AnomaliesAgree(detect: Detect, steps: seq<Step>, db: Database, limit: nat)
    requires db == Run(detect, Start, steps).db
    ensures var r, n := GetAnomalies(db, limit), GetSummary(AtRest(db)).anomalyCount;
            && |r| == (if n <= limit then n else limit)
            && (forall e :: e in r ==> Shows(db, e))
            && (forall i, j :: 0 <= i < j < |r| ==> r[i].measuredAt >= r[j].measuredAt)
  {
    ReachableIsCoherent(detect, steps);
    CoherentAnomalies(db, limit);
  }

  /** An entry of the anomaly list: a measurement with status ANOMALY, its device and its analysis. */
  predicate Shows(db: Database, e: AnomalyEntry) {
    var id := e.measurementId;
    && id in db.measurements && db.measurements[id].status == Anomaly
    && db.measurements[id].values.deviceId in db.devices
    && AnalysisOf(db.analyses, id).Some? && AnalysisOf(db.analyses, id).value.isAnomaly
    && var row, device := db.measurements[id], db.devices[db.measurements[id].values.deviceId];
       && e.deviceId == row.values.deviceId && e.deviceName == device.name && e.serialNumber == device.serialNumber
       && e.measuredValue == row.values.measuredValue && e.referenceValue == row.values.referenceValue
       && e.measuredAt == row.measuredAt
       && e.deviationPct == AnalysisOf(db.analyses, id).value.deviationPct
       && e.anomalyScore == AnalysisOf(db.analyses, id).value.anomalyScore
  }

  lemma CoherentAnomalies(db: Database, limit: nat)
    requires Coherent(db)
    ensures var r, n := GetAnomalies(db, limit), |WithStatus(db, Anomaly)|;
            && |r| == (if n <= limit then n else limit)
            && (forall e :: e in r ==> Shows(db, e))
            && (forall i, j :: 0 <= i < j < |r| ==> r[i].measuredAt >= r[j].measuredAt)
  {
    FlaggedMeans(db, db.analyses);
    var all := FlaggedEntries(db, db.analyses);
    SortAscending(NewestFirst(), all);
    forall e | e in all ensures Shows(db, e) {
      var a :| a in db.analyses && a.result.isAnomaly && e == Entry(db, a);
      assert a.measurementId in FlaggedIds(db.analyses);
    }
  }

  /** A limit drops only anomalies that are no newer than any listed one. */
  lemma LimitDropsTheOldest(detect: Detect, steps: seq<Step>, db: Database, limit: nat, id: Id)
    requires db == Run(detect, Start, steps).db && id in WithStatus(db, Anomaly)
    ensures var r := GetAnomalies(db, limit);
            || (exists e :: e in r && e.measurementId == id)
            || (|r| == limit && forall e :: e in r ==> e.measuredAt >= db.measurements[id].measuredAt)
  {
    ReachableIsCoherent(detect, steps);
    FlaggedMeans(db, db.analyses);
    var a :| a in db.analyses && a.result.isAnomaly && a.measurementId == id;
    LimitKeepsLeast(NewestFirst(), FlaggedEntries(db, db.analyses), limit, Entry(db, a));
  }

  // ----- the trend

  /** At rest, a point says what the detector says of its measurement, and nothing before that has run. */
  lemma TrendMatchesAnalyses(detect: Detect, steps: seq<Step>, db: Database, heap: seq<Id>, device: Id, limit: nat,
                             i: nat)
    requires db == Run(detect, Start, steps).db && i < |TrendIds(db, heap, device, limit)|
    ensures var id := TrendIds(db, heap, device, limit)[i];
            var t := GetDeviceTrend(TrendAtRest(db), heap, device, limit);
            && id in db.measurements && db.measurements[id].values.deviceId == device
            && |t.trend| == |TrendIds(db, heap, device, limit)|
            && PointFits(detect, db, db.analyses, id, t.trend[i])
            && t.deviceId == device && device in db.devices && t.deviceName == db.devices[device].name
            && (i == 0 ==> t.unit == db.measurements[id].values.unit)
  {
    var id := TrendIds(db, heap, device, limit)[i];
    assert id in TrendIds(db, heap, device, limit);
    PointsFit(detect, steps, db, id);
    ReachableIsCoherent(detect, steps);
  }

  /** Row, flag, score and deviation say the same: those of the detector, or that it has not run. */
  predicate PointFits(detect: Detect, db: Database, analyses: seq<Analysis>, id: Id, p: TrendPoint)
    requires id in db.measurements
  {
    var values := db.measurements[id].values;
    && p.timestamp == db.measurements[id].measuredAt
    && p.measuredValue == values.measuredValue && p.referenceValue == values.referenceValue
    && if AnalysisOf(analyses, id) == None then p.anomalyScore == None && !p.isAnomaly && p.deviationPct == 0.0
       else
         && detect(values).Ok?
         && var r := detect(values).value;
            p.anomalyScore == Some(r.anomalyScore) && p.isAnomaly == r.isAnomaly && p.deviationPct == r.deviationPct
  }

  lemma PointsFit(detect: Detect, steps: seq<Step>, db: Database, id: Id)
    requires db == Run(detect, Start, steps).db && id in db.measurements
    ensures PointFits(detect, db, db.analyses, id, Point(db, db.analyses, id))
  {
    EveryRunIsGood(detect, steps);
    var s := Run(detect, Start, steps);
    assert RowOk(detect, s.db.measurements[id], id, AnalysisOf(s.db.analyses, id), s.blobs);
  }

  /** The rows stand in the order of their measuring times. */
  predicate InTime(db: Database, ids: seq<Id>)
    requires forall k :: k in ids ==> k in db.measurements
  {
    forall i, j :: 0 <= i < j < |ids| ==> db.measurements[ids[i]].measuredAt <= db.measurements[ids[j]].measuredAt
  }

  predicate NoneLater(db: Database, ids: seq<Id>, time: int)
    requires forall k :: k in ids ==> k in db.measurements
  {
    forall k :: k in ids ==> db.measurements[k].measuredAt <= time
  }

  /** A trend is the oldest measurements of the device, in order; a limit drops only ones that are no older. */
  lemma TrendIsOldestFirst(db: Database, heap: seq<Id>, device: Id, limit: nat, id: Id)
    requires Enumerates(heap, db.measurements) && id in db.measurements && db.measurements[id].values.deviceId == device
    ensures var ids := TrendIds(db, heap, device, limit);
            && Distinct(ids)
            && (forall k :: k in ids ==> k in db.measurements && db.measurements[k].values.deviceId == device)
            && InTime(db, ids)
            && (id in ids || (|ids| == limit && NoneLater(db, ids, db.measurements[id].measuredAt)))
  {
    var found := Filter(OnDevice(db, device), heap);
    assert id in found;
    LimitKeepsLeast(MeasuredAt(db), found, limit, id);
    TrendInTime(db, heap, device, limit);
  }

  lemma TrendInTime(db: Database, heap: seq<Id>, device: Id, limit: nat)
    requires Enumerates(heap, db.measurements)
    ensures var ids := TrendIds(db, heap, device, limit);
            && Distinct(ids) && (forall k :: k in ids ==> OnDevice(db, device)(k)) && InTime(db, ids)
  {
    var found := Filter(OnDevice(db, device), heap);
    SortAscending(MeasuredAt(db), found);
    FilterCounts(OnDevice(db, device), heap);
    SameRowsDistinct(found, SortBy(MeasuredAt(db), found));
    FirstRows(MeasuredAt(db), SortBy(MeasuredAt(db), found), limit);
    TimesAscend(db, TrendIds(db, heap, device, limit));
  }

  lemma TimesAscend(db: Database, ids: seq<Id>)
    requires (forall k :: k in ids ==> k in db.measurements) && Ascending(MeasuredAt(db), ids)
    ensures InTime(db, ids)
  {
    forall i, j | 0 <= i < j < |ids|
      ensures db.measurements[ids[i]].measuredAt <= db.measurements[ids[j]].measuredAt
    {
      assert MeasuredAt(db)(ids[i]) <= MeasuredAt(db)(ids[j]);
    }
  }

  /** A device that is not in the table has an empty trend under the placeholders for its name and unit. */
  lemma UnknownDeviceHasNoTrend(detect: Detect, steps: seq<Step>, db: Database, heap: seq<Id>, device: Id, limit: nat)
    requires db == Run(detect, Start, steps).db && device !in db.devices
    ensures GetDeviceTrend(TrendAtRest(db), heap, device, limit) == DeviceTrend(device, "Unknown", "unknown", [])
  {
    ReachableIsCoherent(detect, steps);
    FilterNone(OnDevice(db, device), heap);
  }

  // ----- trends and summary agree

  function AnomalousIds(db: Database): Id -> bool {
    (id: Id) => id in db.measurements && db.measurements[id].status == Anomaly
  }

  function Flags(points: seq<TrendPoint>): nat {
    if points == [] then 0 else (if points[0].isAnomaly then 1 else 0) + Flags(points[1..])
  }

  lemma {:induction false} FlagsCount(db: Database, analyses: seq<Analysis>, ids: seq<Id>, points: seq<TrendPoint>)
    requires |points| == |ids|
    requires forall i :: 0 <= i < |ids| ==> ids[i] in db.measurements && points[i] == Point(db, analyses, ids[i])
    ensures Flags(points) == |Filter(AnomalousIds(db), ids)|
  {
    if ids != [] { FlagsCount(db, analyses, ids[1..], points[1..]); }
  }

  function DeviceColumn(db: Database): map<Id, Id> {
    map id | id in db.measurements :: db.measurements[id].values.deviceId
  }

  lemma TrendIsWhole(db: Database, heap: seq<Id>, device: Id, limit: nat)
    requires Enumerates(heap, db.measurements) && |heap| <= limit
    ensures var ids := TrendIds(db, heap, device, limit);
            Distinct(ids) && forall id :: id in ids <==> OnDevice(db, device)(id)
  {
    var found := Filter(OnDevice(db, device), heap);
    FilterCounts(OnDevice(db, device), heap);
    SameRowsDistinct(found, SortBy(MeasuredAt(db), found));
  }

  /** The flags of a full trend depend on the statement that read the rows alone. */
  lemma FlagsOnDevice(r: TrendReads, heap: seq<Id>, device: Id, limit: nat)
    requires Enumerates(heap, r.rows.measurements) && |heap| <= limit
    ensures Flags(GetDeviceTrend(r, heap, device, limit).trend)
            == |Group(WithStatus(r.rows, Anomaly), DeviceColumn(r.rows), device)|
  {
    var ids, points := TrendIds(r.rows, heap, device, limit), GetDeviceTrend(r, heap, device, limit).trend;
    TrendIsWhole(r.rows, heap, device, limit);
    AllIn(ids);
    FlagsCount(r.rows, r.analyses.analyses, ids, points);
    FilterCounts(AnomalousIds(r.rows), ids);
    AnomalousOnDevice(r.rows, ids, device);
  }

  lemma AllIn<T>(s: seq<T>)
    ensures forall i :: 0 <= i < |s| ==> s[i] in s
  {}

  lemma AnomalousOnDevice(db: Database, ids: seq<Id>, device: Id)
    requires forall id :: id in ids <==> OnDevice(db, device)(id)
    ensures Chosen(AnomalousIds(db), ids) == Group(WithStatus(db, Anomaly), DeviceColumn(db), device)
  {}

  /** At rest, the flags of all devices' full trends add up to the summary's anomaly count. */
  lemma FlagsAddUp(db: Database, heap: seq<Id>, limit: nat)
    requires Enumerates(heap, db.measurements) && |heap| <= limit
    ensures var perDevice := GroupCounts(WithStatus(db, Anomaly), DeviceColumn(db));
            && Sum(perDevice) == GetSummary(AtRest(db)).anomalyCount
            && (forall device :: device in perDevice ==>
                  perDevice[device] == Flags(GetDeviceTrend(TrendAtRest(db), heap, device, limit).trend))
            && (forall device :: device !in perDevice ==>
                  Flags(GetDeviceTrend(TrendAtRest(db), heap, device, limit).trend) == 0)
  {
    GroupsAddUp(WithStatus(db, Anomaly), DeviceColumn(db));
    FlagsPerDevice(db, heap, limit);
  }

  lemma FlagsPerDevice(db: Database, heap: seq<Id>, limit: nat)
    requires Enumerates(heap, db.measurements) && |heap| <= limit
    ensures var perDevice := GroupCounts(WithStatus(db, Anomaly), DeviceColumn(db));
            forall device ::
              Flags(GetDeviceTrend(TrendAtRest(db), heap, device, limit).trend) == CountOf(perDevice, device)
  {
    forall device: Id { FlagsOfDevice(db, heap, device, limit); }
  }

  lemma FlagsOfDevice(db: Database, heap: seq<Id>, device: Id, limit: nat)
    requires Enumerates(heap, db.measurements) && |heap| <= limit
    ensures Flags(GetDeviceTrend(TrendAtRest(db), heap, device, limit).trend)
            == CountOf(GroupCounts(WithStatus(db, Anomaly), DeviceColumn(db)), device)
  {
    FlagsOnDevice(TrendAtRest(db), heap, device, limit);
    GroupCovered(WithStatus(db, Anomaly), DeviceColumn(db), device);
  }
}
