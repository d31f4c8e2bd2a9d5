/** What undisturbed requests do from beginning to end, in any reachable state. */
module StoreScenarios {
  import opened Wrappers
  import opened Rows
  import opened Engine
  import opened Store
  import opened Handlers
  import opened StoreRuns
  import opened StoreSoundness
  import opened StoreIntegrity
  import opened StoreTheorems
  import opened DeviceTheorems

  predicate Valid(op: Operation) {
    && op.CreateCalibration? && WellFormed(op)
    && op.calibration.operatorName != "" && op.calibration.inputs != []
  }

  // ----- a submission

  function SubmittedPoints(op: Operation, tolerancePct: real): seq<Measurement>
    requires Valid(op)
  {
    Points(op.recordId, op.pointIds, op.calibration.inputs, tolerancePct)
  }

  lemma SubmissionReads(w: World, key: Key, op: Operation, i: nat, now: int)
    requires Unique(w.db.devices) && i < |w.db.devices| && w.db.devices[i].tenantId == key.tenant
    requires Valid(op) && op.deviceId == w.db.devices[i].id
    requires key in w.sessions && w.sessions[key] == Accept(op)
    ensures var t, points := Next(w, Advance(key, Healthy, now)), SubmittedPoints(op, w.db.devices[i].tolerancePct);
            && t.db == w.db && key in t.sessions
            && t.sessions[key] == Session(op, Some(w.db.devices[i].tolerancePct),
                                          Evaluated(NewRecord(key.tenant, op, points, now), points))
  {
    FoundRow(w.db.devices, key.tenant, i);
  }

  lemma SubmissionInserts(w: World, key: Key, record: Record, points: seq<Measurement>, now: int)
    requires key in w.sessions && WellFormed(w.sessions[key].op) && w.sessions[key].local == Evaluated(record, points)
    requires StatementOk(w.db, key.tenant, InsertRecord(record, points))
    ensures var t := Next(w, Advance(key, Healthy, now));
            && t.db == w.db.(records := w.db.records + [record], measurements := w.db.measurements + points)
            && key in t.sessions && t.sessions[key] == w.sessions[key].(local := Stored(record, points))
  {
    RecordIsInsertable(w.db, key.tenant, InsertRecord(record, points));
    assert record.(tenantId := key.tenant) == record;
  }

  lemma SubmissionStamps(w: World, key: Key, record: Record, points: seq<Measurement>, i: nat, now: int)
    requires Unique(w.db.devices) && i < |w.db.devices|
    requires w.db.devices[i].tenantId == key.tenant && w.db.devices[i].id == record.deviceId
    requires key in w.sessions && WellFormed(w.sessions[key].op) && w.sessions[key].local == Stored(record, points)
    ensures var t := Next(w, Advance(key, Healthy, now));
            && t.db == w.db.(
                 devices := w.db.devices[i := w.db.devices[i].(lastCalibratedAt := Some(record.measuredAt))])
            && key in t.sessions && t.sessions[key].local == Finished(Created(FullRecord(record, points)))
  {
    var f := SetStamp(key.tenant, record.deviceId, record.measuredAt);
    forall j | 0 <= j < |w.db.devices| && j != i ensures f(w.db.devices[j]) == w.db.devices[j] {
      assert w.db.devices[j].id != w.db.devices[i].id;
    }
    assert Apply(f, w.db.devices) == w.db.devices[i := w.db.devices[i].(lastCalibratedAt := Some(record.measuredAt))];
  }

  /**
   An undisturbed submission on a device of the tenant stores one record with all its points, evaluated with the
   device's tolerance, stamps that device with the measurement time, changes nothing else, and answers with both.
   */
  lemma SubmissionStores(w: World, used: set<Id>, key: Key, op: Operation, i: nat, now: int)
    requires Sound(w, used) && Unique(w.db.devices) && i < |w.db.devices| && w.db.devices[i].tenantId == key.tenant
    requires Valid(op) && op.deviceId == w.db.devices[i].id && NewIds(used, IdsOf(op)) && key !in w.sessions
    ensures var steps := [Arrive(key, op), Advance(key, Healthy, now), Advance(key, Healthy, now),
                          Advance(key, Healthy, now)];
            var t, d := Run(w, steps), w.db.devices[i];
            var points := SubmittedPoints(op, d.tolerancePct);
            var record := NewRecord(key.tenant, op, points, now);
            && t.db.records == w.db.records + [record]
            && t.db.measurements == w.db.measurements + points
            && t.db.devices == w.db.devices[i := d.(lastCalibratedAt := Some(record.measuredAt))]
            && key in t.sessions && t.sessions[key].local == Finished(Created(FullRecord(record, points)))
            && AllMeasure(points, op.recordId, op.pointIds, op.calibration.inputs, d.tolerancePct)
            && record.createdAt == now
            && record.measuredAt == (if op.calibration.measuredAt.Some? then op.calibration.measuredAt.value else now)
  {
    PointsMeasure(op.recordId, op.pointIds, op.calibration.inputs, w.db.devices[i].tolerancePct);
    var steps := [Arrive(key, op), Advance(key, Healthy, now), Advance(key, Healthy, now), Advance(key, Healthy, now)];
    RunFour(w, steps);
    var s1 := Next(w, steps[0]);
    ArriveIsSound(w, used, key, op);
    SubmissionReads(s1, key, op, i, now);
    var s2 := Next(s1, steps[1]);
    SoundStep(s1, UsedBy(used, steps[0]), steps[1]);
    var record, points := s2.sessions[key].local.record, s2.sessions[key].local.points;
    assert SessionOk(s2.db, UsedBy(UsedBy(used, steps[0]), steps[1]), key.tenant, s2.sessions[key]);
    SessionSendsOk(s2.db, UsedBy(UsedBy(used, steps[0]), steps[1]), key.tenant, s2.sessions[key]);
    SubmissionInserts(s2, key, record, points, now);
    SubmissionStamps(Next(s2, steps[2]), key, record, points, i, now);
  }

  // ----- reading it back

  lemma FoundRecord(records: seq<Record>, tenant: Tenant, r: Record)
    requires forall i, j :: 0 <= i < j < |records| ==> records[i].id != records[j].id
    requires r in records && r.tenantId == tenant
    ensures Filter(ThisRecord(tenant, r.id), records) != [] && Filter(ThisRecord(tenant, r.id), records)[0] == r
  {
    var found := Filter(ThisRecord(tenant, r.id), records);
    assert r in found;
    assert found[0] in found;
  }

  lemma NotFoundRecord(records: seq<Record>, tenant: Tenant, r: Record)
    requires forall i, j :: 0 <= i < j < |records| ==> records[i].id != records[j].id
    requires r in records && r.tenantId != tenant
    ensures Filter(ThisRecord(tenant, r.id), records) == []
  {
    forall e | e in records ensures !ThisRecord(tenant, r.id)(e) {
      assert e.id == r.id ==> e == r;
    }
    FilterNone(ThisRecord(tenant, r.id), records);
  }

  lemma RecordSelected(w: World, key: Key, r: Record, now: int)
    requires RecordsKept(w.db, w.sessions) && r in w.db.records && key !in w.sessions
    ensures var s := Next(Begun(w, key, GetCalibration(r.id)), Advance(key, Healthy, now));
            && s.db == w.db && key in s.sessions
            && s.sessions[key] == Session(GetCalibration(r.id), None,
                                          if key.tenant == r.tenantId then Opened(r) else Finished(NotFound))
  {
    var b := Begun(w, key, GetCalibration(r.id));
    SelectKeepsDb(b, key, Healthy, now);
    AfterHealthy(b, key, Accept(GetCalibration(r.id)), now);
    RecordFound(w.db, key.tenant, r, now, w.sessions);
  }

  lemma RecordFound(db: Db, tenant: Tenant, r: Record, now: int, sessions: map<Key, Session>)
    requires RecordsKept(db, sessions) && r in db.records
    ensures Reply(db, tenant, SelectRecord(r.id), now) == if r.tenantId == tenant then RecordRow(r) else NoRows
  {
    if r.tenantId == tenant { FoundRecord(db.records, tenant, r); } else { NotFoundRecord(db.records, tenant, r); }
  }

  lemma SelectKeepsDb(w: World, key: Key, fault: Fault, now: int)
    requires key in w.sessions && WellFormed(w.sessions[key].op) && Active(w.sessions[key].local)
    requires StatementOf(w.sessions[key]).SelectRecord? || StatementOf(w.sessions[key]).SelectDevice?
    ensures Next(w, Advance(key, fault, now)).db == w.db
  {}

  /** A step that only reads leaves the tables alone. */
  lemma ReadKeepsDb(w: World, key: Key, fault: Fault, now: int)
    requires key in w.sessions && WellFormed(w.sessions[key].op) && Active(w.sessions[key].local)
    requires StatementOf(w.sessions[key]).PageRecords? || StatementOf(w.sessions[key]).LoadMeasurements?
    ensures Next(w, Advance(key, fault, now)).db == w.db
  {}

  lemma PointsAnswered(s: World, key: Key, r: Record, now: int)
    requires key in s.sessions && s.sessions[key] == Session(GetCalibration(r.id), None, Opened(r))
    ensures var t := Next(s, Advance(key, Healthy, now));
            key in t.sessions
            && t.sessions[key].local == Finished(RecordBody(FullRecord(r, SortBy(ById(), PointsOf(s.db, r.id)))))
  {
    assert Observed(Reply(s.db, key.tenant, LoadMeasurements(r.id), now), Healthy)
        == MeasurementRows(SortBy(ById(), PointsOf(s.db, r.id)));
    AfterHealthy(s, key, s.sessions[key], now);
  }

  lemma AfterHealthy(w: World, key: Key, session: Session, now: int)
    requires key in w.sessions && w.sessions[key] == session && WellFormed(session.op) && Active(session.local)
    ensures var t := Next(w, Advance(key, Healthy, now));
            key in t.sessions
            && t.sessions[key] == Resume(key.tenant, session,
                 Observed(Reply(w.db, key.tenant, StatementOf(session), now), Healthy), now)
  {}

  lemma RecordLoaded(s: World, key: Key, r: Record, now: int)
    requires key in s.sessions && s.sessions[key] == Session(GetCalibration(r.id), None, Opened(r))
    ensures var t := Next(s, Advance(key, Healthy, now));
            && t.db == s.db && key in t.sessions
            && t.sessions[key].local == Finished(RecordBody(FullRecord(r, SortBy(ById(), PointsOf(s.db, r.id)))))
  {
    ReadKeepsDb(s, key, Healthy, now);
    PointsAnswered(s, key, r, now);
  }

  /** A record is read back whole by its own tenant, and is not found by any other. */
  lemma OnlyTheOwnerReads(w: World, key: Key, r: Record, now: int)
    requires RecordsKept(w.db, w.sessions) && r in w.db.records && key !in w.sessions
    ensures var s := Next(Next(w, Arrive(key, GetCalibration(r.id))), Advance(key, Healthy, now));
            var t := Next(s, Advance(key, Healthy, now));
            && t.db == w.db && key in t.sessions
            && t.sessions[key].local
               == Finished(if key.tenant == r.tenantId
                           then RecordBody(FullRecord(r, SortBy(ById(), PointsOf(w.db, r.id))))
                           else NotFound)
  {
    RecordSelected(w, key, r, now);
    if key.tenant == r.tenantId {
      RecordLoaded(Next(Begun(w, key, GetCalibration(r.id)), Advance(key, Healthy, now)), key, r, now);
    }
  }

  // ----- lists

  /** A record with all its points. */
  function FullOf(db: Db): Record -> FullRecord {
    (r: Record) => FullRecord(r, SortBy(ById(), PointsOf(db, r.id)))
  }

  function Fulls(db: Db, rows: seq<Record>): seq<FullRecord> {
    Apply(FullOf(db), rows)
  }

  /** One statement without a fault for each record of the page. */
  function Loads(key: Key, n: nat, now: int): seq<Step> {
    if n == 0 then [] else [Advance(key, Healthy, now)] + Loads(key, n - 1, now)
  }

  lemma LoadOne(w: World, key: Key, op: Operation, counted: Option<nat>, loaded: seq<FullRecord>, rest: seq<Record>,
                now: int)
    requires key in w.sessions && WellFormed(op) && rest != []
    requires w.sessions[key] == Session(op, None, Loading(counted, loaded, rest))
    ensures var t := Next(w, Advance(key, Healthy, now));
            && t.db == w.db && key in t.sessions
            && t.sessions[key] == Session(op, None, Collected(counted,
                 loaded + [FullRecord(rest[0], SortBy(ById(), PointsOf(w.db, rest[0].id)))], rest[1..]))
  {}

  lemma {:induction false} LoadAll(w: World, key: Key, op: Operation, counted: Option<nat>, loaded: seq<FullRecord>,
                                   rest: seq<Record>, now: int)
    requires key in w.sessions && WellFormed(op)
    requires w.sessions[key] == Session(op, None, Collected(counted, loaded, rest))
    ensures var t := Run(w, Loads(key, |rest|, now));
            && t.db == w.db && key in t.sessions
            && t.sessions[key] == Session(op, None, Finished(RecordPage(loaded + Fulls(w.db, rest), counted)))
    decreases |rest|
  {
    if rest == [] {
      NothingToLoad(w, key, loaded, now);
    } else {
      var t := LoadFirst(w, key, op, counted, loaded, rest, now);
      var more := loaded + [FullOf(w.db)(rest[0])];
      LoadAll(t, key, op, counted, more, rest[1..], now);
      assert more + Fulls(w.db, rest[1..]) == loaded + Fulls(w.db, rest) by { FullsFirst(w.db, loaded, rest); }
    }
  }

  lemma NothingToLoad(w: World, key: Key, loaded: seq<FullRecord>, now: int)
    ensures Run(w, Loads(key, 0, now)) == w && loaded + Fulls(w.db, []) == loaded
  {}

  lemma FullsFirst(db: Db, loaded: seq<FullRecord>, rest: seq<Record>)
    requires rest != []
    ensures loaded + [FullOf(db)(rest[0])] + Fulls(db, rest[1..]) == loaded + Fulls(db, rest)
  {}

  lemma LoadFirst(w: World, key: Key, op: Operation, counted: Option<nat>, loaded: seq<FullRecord>, rest: seq<Record>,
                  now: int) returns (t: World)
    requires key in w.sessions && WellFormed(op) && rest != []
    requires w.sessions[key] == Session(op, None, Loading(counted, loaded, rest))
    ensures t.db == w.db && key in t.sessions
    ensures t.sessions[key] == Session(op, None, Collected(counted, loaded + [FullOf(w.db)(rest[0])], rest[1..]))
    ensures Run(w, Loads(key, |rest|, now)) == Run(t, Loads(key, |rest| - 1, now))
  {
    t := Next(w, Advance(key, Healthy, now));
    LoadOne(w, key, op, counted, loaded, rest, now);
    assert Loads(key, |rest|, now)[1..] == Loads(key, |rest| - 1, now);
  }

  lemma ListStarts(w: World, key: Key, onDevice: Option<Id>, limit: int, offset: nat, now: int)
    requires key !in w.sessions
    ensures var op := ListCalibrations(onDevice, limit, offset);
            var t := Next(Next(w, Arrive(key, op)), Advance(key, Healthy, now));
            && t.db == w.db && key in t.sessions
            && t.sessions[key] == Session(op, None,
                 RecordsCounted(|Filter(RecordsOn(key.tenant, onDevice), w.db.records)|, onDevice, PageLimit(limit),
                                offset))
  {}

  function PageRows(db: Db, tenant: Tenant, onDevice: Option<Id>, limit: nat, offset: nat): seq<Record> {
    Slice(SortBy(NewestRecord(), Filter(RecordsOn(tenant, onDevice), db.records)), offset, limit)
  }

  lemma ListPages(w: World, key: Key, op: Operation, total: nat, onDevice: Option<Id>, limit: nat, offset: nat,
                  now: int)
    requires key in w.sessions && WellFormed(op)
    requires w.sessions[key] == Session(op, None, RecordsCounted(total, onDevice, limit, offset))
    ensures var t := Next(w, Advance(key, Healthy, now));
            && t.db == w.db && key in t.sessions
            && t.sessions[key] == Session(op, None,
                 Collected(Some(total), [], PageRows(w.db, key.tenant, onDevice, limit, offset)))
  {}

  /** An undisturbed list request answers its page, every record with all its points, and the total. */
  lemma ListAnswersItsPage(w: World, key: Key, onDevice: Option<Id>, limit: int, offset: nat, now: int)
    requires key !in w.sessions
    ensures var op := ListCalibrations(onDevice, limit, offset);
            var rows := PageRows(w.db, key.tenant, onDevice, PageLimit(limit), offset);
            var s := Next(Next(Next(w, Arrive(key, op)), Advance(key, Healthy, now)), Advance(key, Healthy, now));
            var t := Run(s, Loads(key, |rows|, now));
            && t.db == w.db && key in t.sessions
            && t.sessions[key].local == Finished(RecordPage(Fulls(w.db, rows),
                 Some(|Filter(RecordsOn(key.tenant, onDevice), w.db.records)|)))
            && RecordsNewestFirst(rows)
            && (forall r :: r in rows ==> r in w.db.records && Matches(r, key.tenant, onDevice))
  {
    RecordPageMeans(w.db, key.tenant, onDevice, PageLimit(limit), offset);
    var op := ListCalibrations(onDevice, limit, offset);
    var total := |Filter(RecordsOn(key.tenant, onDevice), w.db.records)|;
    ListStarts(w, key, onDevice, limit, offset, now);
    var s2 := Next(Next(w, Arrive(key, op)), Advance(key, Healthy, now));
    ListPages(s2, key, op, total, onDevice, PageLimit(limit), offset, now);
    var rows := PageRows(w.db, key.tenant, onDevice, PageLimit(limit), offset);
    LoadAll(Next(s2, Advance(key, Healthy, now)), key, op, Some(total), [], rows, now);
    assert [] + Fulls(w.db, rows) == Fulls(w.db, rows);
  }

  /** The trend of a device: its newest records up to the limit, each with all its points, and no total. */
  lemma TrendAnswersTheNewest(w: World, key: Key, device: Id, limit: int, now: int)
    requires key !in w.sessions
    ensures var op := GetDeviceTrend(device, limit);
            var rows := PageRows(w.db, key.tenant, Some(device), TrendLimit(limit), 0);
            var s := Next(Next(w, Arrive(key, op)), Advance(key, Healthy, now));
            var t := Run(s, Loads(key, |rows|, now));
            && t.db == w.db && key in t.sessions
            && t.sessions[key].local == Finished(RecordPage(Fulls(w.db, rows), None))
            && RecordsNewestFirst(rows)
            && (forall r :: r in rows ==> r in w.db.records && Matches(r, key.tenant, Some(device)))
  {
    RecordPageMeans(w.db, key.tenant, Some(device), TrendLimit(limit), 0);
    var op := GetDeviceTrend(device, limit);
    var rows := PageRows(w.db, key.tenant, Some(device), TrendLimit(limit), 0);
    TrendStarts(w, key, device, limit, now);
    LoadAll(Next(Next(w, Arrive(key, op)), Advance(key, Healthy, now)), key, op, None, [], rows, now);
    assert [] + Fulls(w.db, rows) == Fulls(w.db, rows);
  }

  lemma TrendStarts(w: World, key: Key, device: Id, limit: int, now: int)
    requires key !in w.sessions
    ensures var op := GetDeviceTrend(device, limit);
            var t := Next(Next(w, Arrive(key, op)), Advance(key, Healthy, now));
            && t.db == w.db && key in t.sessions
            && t.sessions[key] == Session(op, None,
                 Collected(None, [], PageRows(w.db, key.tenant, Some(device), TrendLimit(limit), 0)))
  {}

  // ----- the summary

  lemma SummaryStarts(w: World, key: Key, now: int)
    requires key !in w.sessions
    ensures var t := Next(Next(w, Arrive(key, GetAnalyticsSummary)), Advance(key, Healthy, now));
            && t.db == w.db && key in t.sessions
            && t.sessions[key] == Session(GetAnalyticsSummary, None,
                                          SummaryDevices(|Filter(OwnDevice(key.tenant), w.db.devices)|))
  {}

  lemma SummaryTallies(w: World, key: Key, n: nat, now: int)
    requires key in w.sessions && w.sessions[key] == Session(GetAnalyticsSummary, None, SummaryDevices(n))
    ensures var t := Next(w, Advance(key, Healthy, now));
            && t.db == w.db && key in t.sessions
            && t.sessions[key] == Session(GetAnalyticsSummary, None,
                 SummaryTallied(n, |Filter(OwnRecord(key.tenant), w.db.records)|,
                                |Filter(PassedRecord(key.tenant), w.db.records)|))
  {}

  /** The four steps of an undisturbed summary. */
  function SummaryRun(w: World, key: Key, now: int): World {
    var s := Next(Next(Next(w, Arrive(key, GetAnalyticsSummary)), Advance(key, Healthy, now)),
                  Advance(key, Healthy, now));
    Next(s, Advance(key, Healthy, now))
  }

  /** An undisturbed summary answers the tenant's own counts, taken from one state. */
  lemma SummaryAnswersCounts(w: World, key: Key, now: int)
    requires key !in w.sessions
    ensures var t := SummaryRun(w, key, now);
            && t.db == w.db && key in t.sessions
            && t.sessions[key].local == Finished(Summary(
                 |Filter(OwnDevice(key.tenant), w.db.devices)|, |Filter(OwnRecord(key.tenant), w.db.records)|,
                 PassRate(|Filter(PassedRecord(key.tenant), w.db.records)|,
                          |Filter(OwnRecord(key.tenant), w.db.records)|),
                 |Filter(RecentFail(key.tenant, now), w.db.records)|))
  {
    var n, total := |Filter(OwnDevice(key.tenant), w.db.devices)|, |Filter(OwnRecord(key.tenant), w.db.records)|;
    var passing := |Filter(PassedRecord(key.tenant), w.db.records)|;
    SummaryStarts(w, key, now);
    var s1 := Next(Next(w, Arrive(key, GetAnalyticsSummary)), Advance(key, Healthy, now));
    SummaryTallies(s1, key, n, now);
    SummaryCountsFails(Next(s1, Advance(key, Healthy, now)), key, n, total, passing, now);
  }

  /** What a summary counts: the passing records, and the failing ones of the last seven days. */
  lemma SummaryCountsThese(db: Db, tenant: Tenant, now: int)
    ensures var passing := (r: Record) => r.tenantId == tenant && r.overallPass;
            var recentlyFailed :=
              (r: Record) => r.tenantId == tenant && !r.overallPass && now - r.createdAt <= 7 * 24 * 60 * 60;
            && Filter(PassedRecord(tenant), db.records) == Filter(passing, db.records)
            && Filter(RecentFail(tenant, now), db.records) == Filter(recentlyFailed, db.records)
  {
    var passing := (r: Record) => r.tenantId == tenant && r.overallPass;
    var recentlyFailed :=
      (r: Record) => r.tenantId == tenant && !r.overallPass && now - r.createdAt <= 7 * 24 * 60 * 60;
    FilterAgree(PassedRecord(tenant), passing, db.records);
    FilterAgree(RecentFail(tenant, now), recentlyFailed, db.records);
  }

  lemma SummaryCountsFails(w: World, key: Key, n: nat, total: nat, passing: nat, now: int)
    requires key in w.sessions
    requires w.sessions[key] == Session(GetAnalyticsSummary, None, SummaryTallied(n, total, passing))
    ensures var t := Next(w, Advance(key, Healthy, now));
            && t.db == w.db && key in t.sessions
            && t.sessions[key].local == Finished(Summary(n, total, PassRate(passing, total),
                                                         |Filter(RecentFail(key.tenant, now), w.db.records)|))
  {}

  // ----- devices

  /** A device is found by its own tenant, and by no other. */
  lemma OnlyTheOwnerFinds(w: World, key: Key, i: nat, now: int)
    requires Unique(w.db.devices) && i < |w.db.devices| && key !in w.sessions
    ensures var d := w.db.devices[i];
            var t := Next(Next(w, Arrive(key, GetDevice(d.id))), Advance(key, Healthy, now));
            && t.db == w.db && key in t.sessions
            && t.sessions[key].local == Finished(if key.tenant == d.tenantId then DeviceBody(d) else NotFound)
  {
    var d := w.db.devices[i];
    if key.tenant == d.tenantId {
      FoundRow(w.db.devices, key.tenant, i);
    } else {
      forall e | e in w.db.devices ensures !ThisDevice(key.tenant, d.id)(e) {
        assert e.id == d.id ==> e == d;
      }
      FilterNone(ThisDevice(key.tenant, d.id), w.db.devices);
    }
  }

  /** The device that a request names. */
  function DeviceNamed(op: Operation): Id
    requires op.GetDevice? || op.UpdateDevice? || op.CreateCalibration?
  {
    if op.CreateCalibration? then op.deviceId else op.id
  }

  /**
   A request that names a device its tenant does not have is refused after one statement, whatever its fault and
   whatever the request holds, and nothing is written: with 500 for an update, with 404 for a read or a submission.
   */
  lemma StrangersAreRefused(w: World, key: Key, op: Operation, fault: Fault, now: int)
    requires key !in w.sessions && WellFormed(op) && (op.GetDevice? || op.UpdateDevice? || op.CreateCalibration?)
    requires forall d :: d in w.db.devices && d.id == DeviceNamed(op) ==> d.tenantId != key.tenant
    ensures var t := Next(Next(w, Arrive(key, op)), Advance(key, fault, now));
            && t.db == w.db && key in t.sessions
            && t.sessions[key].local == Finished(if op.UpdateDevice? then ServerError else NotFound)
  {
    FilterNone(ThisDevice(key.tenant, DeviceNamed(op)), w.db.devices);
    assert Reply(w.db, key.tenant, SelectDevice(DeviceNamed(op)), now) == NoRows;
  }

  /** On a device of its own, a submission is refused with 400 if and only if it has no operator or no readings. */
  lemma SubmissionIsChecked(w: World, key: Key, op: Operation, i: nat, now: int)
    requires Unique(w.db.devices) && i < |w.db.devices| && w.db.devices[i].tenantId == key.tenant
    requires key !in w.sessions && op.CreateCalibration? && WellFormed(op) && op.deviceId == w.db.devices[i].id
    ensures var t := Next(Next(w, Arrive(key, op)), Advance(key, Healthy, now));
            && t.db == w.db && key in t.sessions
            && (t.sessions[key].local == Finished(BadRequest)
                <==> op.calibration.operatorName == "" || op.calibration.inputs == [])
            && (t.sessions[key].local.Evaluated?
                <==> op.calibration.operatorName != "" && op.calibration.inputs != [])
  {
    FoundRow(w.db.devices, key.tenant, i);
  }

  lemma SliceOf<T>(s: seq<T>, offset: nat, limit: nat, i: nat)
    requires i < |Slice(s, offset, limit)|
    ensures offset + i < |s| && Slice(s, offset, limit)[i] == s[offset + i]
  {}

  /** A page of devices holds the tenant's own, the one created last first. */
  lemma DevicePageMeans(db: Db, tenant: Tenant, limit: nat, offset: nat)
    ensures var rows := DeviceRowsOf(db, tenant, limit, offset);
            DevicesNewestFirst(rows) && forall d :: d in rows ==> d in db.devices && d.tenantId == tenant
  {
    var listed := SortBy(NewestDevice(), Filter(OwnDevice(tenant), db.devices));
    SortedDevicesAreListed(db, tenant);
    var rows := Slice(listed, offset, limit);
    forall i, j | 0 <= i < j < |rows| ensures rows[i].createdAt >= rows[j].createdAt {
      SliceOf(listed, offset, limit, i);
      SliceOf(listed, offset, limit, j);
    }
  }

  lemma RecordPageMeans(db: Db, tenant: Tenant, onDevice: Option<Id>, limit: nat, offset: nat)
    ensures var rows := PageRows(db, tenant, onDevice, limit, offset);
            RecordsNewestFirst(rows) && forall r :: r in rows ==> r in db.records && Matches(r, tenant, onDevice)
  {
    var listed := SortBy(NewestRecord(), Filter(RecordsOn(tenant, onDevice), db.records));
    SortedRecordsAreListed(db, tenant, onDevice);
    var rows := Slice(listed, offset, limit);
    forall i, j | 0 <= i < j < |rows| ensures rows[i].measuredAt >= rows[j].measuredAt {
      SliceOf(listed, offset, limit, i);
      SliceOf(listed, offset, limit, j);
    }
  }

  /** The first page of devices leaves out only devices no newer than any it shows, and only when it is full. */
  lemma DevicePageDropsTheOldest(db: Db, tenant: Tenant, limit: int, d: Device)
    requires d in db.devices && d.tenantId == tenant
    ensures var rows := DeviceRowsOf(db, tenant, PageLimit(limit), 0);
            d in rows || (|rows| == PageLimit(limit) && forall x :: x in rows ==> x.createdAt >= d.createdAt)
  {
    assert d in Filter(OwnDevice(tenant), db.devices);
    LimitKeepsLeast(NewestDevice(), Filter(OwnDevice(tenant), db.devices), PageLimit(limit), d);
  }

  /** An undisturbed device list answers its page and the total. */
  lemma DeviceListAnswersItsPage(w: World, key: Key, limit: int, offset: nat, now: int)
    requires key !in w.sessions
    ensures var s := Next(Next(w, Arrive(key, ListDevices(limit, offset))), Advance(key, Healthy, now));
            var t := Next(s, Advance(key, Healthy, now));
            && t.db == w.db && key in t.sessions
            && t.sessions[key].local == Finished(DevicePage(
                 DeviceRowsOf(w.db, key.tenant, PageLimit(limit), offset),
                 |Filter(OwnDevice(key.tenant), w.db.devices)|))
    ensures var rows := DeviceRowsOf(w.db, key.tenant, PageLimit(limit), offset);
            DevicesNewestFirst(rows) && forall d :: d in rows ==> d in w.db.devices && d.tenantId == key.tenant
  {
    DevicePageMeans(w.db, key.tenant, PageLimit(limit), offset);
    DevicesAreCounted(w, key, limit, offset, now);
    var s := Next(Next(w, Arrive(key, ListDevices(limit, offset))), Advance(key, Healthy, now));
    DevicesArePaged(s, key, |Filter(OwnDevice(key.tenant), w.db.devices)|, PageLimit(limit), offset, now);
  }

  lemma DevicesAreCounted(w: World, key: Key, limit: int, offset: nat, now: int)
    requires key !in w.sessions
    ensures var s := Next(Next(w, Arrive(key, ListDevices(limit, offset))), Advance(key, Healthy, now));
            && s.db == w.db && key in s.sessions && WellFormed(s.sessions[key].op)
            && s.sessions[key].local
               == DevicesCounted(|Filter(OwnDevice(key.tenant), w.db.devices)|, PageLimit(limit), offset)
  {}

  lemma DevicesArePaged(s: World, key: Key, total: nat, limit: nat, offset: nat, now: int)
    requires key in s.sessions && WellFormed(s.sessions[key].op)
    requires s.sessions[key].local == DevicesCounted(total, limit, offset)
    ensures var t := Next(s, Advance(key, Healthy, now));
            && t.db == s.db && key in t.sessions
            && t.sessions[key].local == Finished(DevicePage(
                 Slice(SortBy(NewestDevice(), Filter(OwnDevice(key.tenant), s.db.devices)), offset, limit), total))
  {
    assert Reply(s.db, key.tenant, Statement.PageDevices(limit, offset), now).DeviceRows?;
  }

  // ----- result sets that end early

  /** GetRecord whose measurements end after n rows: a 200 with the first n points, complete iff there are no more. */
  lemma ReadCutShort(w: World, key: Key, r: Record, n: nat, now: int)
    requires RecordsKept(w.db, w.sessions) && r in w.db.records && r.tenantId == key.tenant && key !in w.sessions
    ensures var s := Next(Begun(w, key, GetCalibration(r.id)), Advance(key, Healthy, now));
            var t := Next(s, Advance(key, CutShort(n), now));
            var shown := Take(SortBy(ById(), PointsOf(w.db, r.id)), n);
            && key in t.sessions && t.sessions[key].local == Finished(RecordBody(FullRecord(r, shown)))
            && (multiset(shown) == multiset(PointsOf(w.db, r.id)) <==> n >= |PointsOf(w.db, r.id)|)
  {
    RecordSelected(w, key, r, now);
    LoadCut(Next(Begun(w, key, GetCalibration(r.id)), Advance(key, Healthy, now)), key, r, n, now);
    TakeIsAll(PointsOf(w.db, r.id), n);
  }

  lemma LoadCut(s: World, key: Key, r: Record, n: nat, now: int)
    requires key in s.sessions && s.sessions[key] == Session(GetCalibration(r.id), None, Opened(r))
    ensures var t := Next(s, Advance(key, CutShort(n), now));
            key in t.sessions
            && t.sessions[key].local
               == Finished(RecordBody(FullRecord(r, Take(SortBy(ById(), PointsOf(s.db, r.id)), n))))
  {
    PointsCut(s.db, key.tenant, r.id, n, now);
    AfterCut(s, key, s.sessions[key], n, now);
  }

  lemma PointsCut(db: Db, tenant: Tenant, id: Id, n: nat, now: int)
    ensures Observed(Reply(db, tenant, LoadMeasurements(id), now), CutShort(n))
            == MeasurementRows(Take(SortBy(ById(), PointsOf(db, id)), n))
  {
    PointsReplied(db, tenant, id, now);
    PointsObserved(Reply(db, tenant, LoadMeasurements(id), now), SortBy(ById(), PointsOf(db, id)), n);
  }

  lemma PointsObserved(answer: Answer, points: seq<Measurement>, n: nat)
    requires answer == MeasurementRows(points)
    ensures Observed(answer, CutShort(n)) == MeasurementRows(Take(points, n))
  {}

  lemma PointsReplied(db: Db, tenant: Tenant, id: Id, now: int)
    ensures Reply(db, tenant, LoadMeasurements(id), now) == MeasurementRows(SortBy(ById(), PointsOf(db, id)))
  {}

  lemma TakeIsAll(points: seq<Measurement>, n: nat)
    ensures multiset(Take(SortBy(ById(), points), n)) == multiset(points) <==> n >= |points|
  {
    ShownRows(points, Take(SortBy(ById(), points), n));
  }

  lemma PageCut(w: World, key: Key, op: Operation, total: nat, onDevice: Option<Id>, limit: nat, offset: nat, n: nat,
                now: int)
    requires key in w.sessions && WellFormed(op)
    requires w.sessions[key] == Session(op, None, RecordsCounted(total, onDevice, limit, offset))
    ensures var t := Next(w, Advance(key, CutShort(n), now));
            key in t.sessions
            && t.sessions[key] == Session(op, None,
                 Collected(Some(total), [], Take(PageRows(w.db, key.tenant, onDevice, limit, offset), n)))
  {
    RowsCut(w.db, key.tenant, onDevice, limit, offset, n, now);
    AfterCut(w, key, w.sessions[key], n, now);
  }

  lemma RowsCut(db: Db, tenant: Tenant, onDevice: Option<Id>, limit: nat, offset: nat, n: nat, now: int)
    ensures Observed(Reply(db, tenant, PageRecords(onDevice, limit, offset), now), CutShort(n))
            == RecordRows(Take(PageRows(db, tenant, onDevice, limit, offset), n))
  {}

  lemma AfterCut(w: World, key: Key, session: Session, n: nat, now: int)
    requires key in w.sessions && w.sessions[key] == session && WellFormed(session.op) && Active(session.local)
    ensures var t := Next(w, Advance(key, CutShort(n), now));
            key in t.sessions
            && t.sessions[key] == Resume(key.tenant, session,
                 Observed(Reply(w.db, key.tenant, StatementOf(session), now), CutShort(n)), now)
  {}

  /**
   A page of records that ends after n rows is answered as if it were whole, total included; it is the page if and
   only if the page has no more than n rows.
   */
  lemma PageCutShort(w: World, key: Key, op: Operation, total: nat, onDevice: Option<Id>, limit: nat, offset: nat,
                     n: nat,
                     now: int)
    requires key in w.sessions && WellFormed(op)
    requires w.sessions[key] == Session(op, None, RecordsCounted(total, onDevice, limit, offset))
    ensures var rows := PageRows(w.db, key.tenant, onDevice, limit, offset);
            var t := Run(Next(w, Advance(key, CutShort(n), now)), Loads(key, |Take(rows, n)|, now));
            && key in t.sessions
            && t.sessions[key].local == Finished(RecordPage(Fulls(w.db, Take(rows, n)), Some(total)))
            && (Fulls(w.db, Take(rows, n)) == Fulls(w.db, rows) <==> n >= |rows|)
  {
    var rows := PageRows(w.db, key.tenant, onDevice, limit, offset);
    PageCut(w, key, op, total, onDevice, limit, offset, n, now);
    ReadKeepsDb(w, key, CutShort(n), now);
    LoadAll(Next(w, Advance(key, CutShort(n), now)), key, op, Some(total), [], Take(rows, n), now);
    FullsWhole(w.db, rows, n);
  }

  lemma TrendCut(w: World, key: Key, device: Id, limit: int, n: nat, now: int)
    requires key in w.sessions && w.sessions[key] == Accept(GetDeviceTrend(device, limit))
    ensures var t := Next(w, Advance(key, CutShort(n), now));
            key in t.sessions
            && t.sessions[key] == Session(GetDeviceTrend(device, limit), None,
                 Collected(None, [], Take(PageRows(w.db, key.tenant, Some(device), TrendLimit(limit), 0), n)))
  {
    RowsCut(w.db, key.tenant, Some(device), TrendLimit(limit), 0, n, now);
    AfterCut(w, key, w.sessions[key], n, now);
  }

  /** The same for a trend. */
  lemma TrendCutShort(w: World, key: Key, device: Id, limit: int, n: nat, now: int)
    requires key !in w.sessions
    ensures var op := GetDeviceTrend(device, limit);
            var rows := PageRows(w.db, key.tenant, Some(device), TrendLimit(limit), 0);
            var s := Next(Begun(w, key, op), Advance(key, CutShort(n), now));
            var t := Run(s, Loads(key, |Take(rows, n)|, now));
            && key in t.sessions && t.sessions[key].local == Finished(RecordPage(Fulls(w.db, Take(rows, n)), None))
            && (Fulls(w.db, Take(rows, n)) == Fulls(w.db, rows) <==> n >= |rows|)
  {
    var op := GetDeviceTrend(device, limit);
    var rows := PageRows(w.db, key.tenant, Some(device), TrendLimit(limit), 0);
    TrendCut(Begun(w, key, op), key, device, limit, n, now);
    ReadKeepsDb(Begun(w, key, op), key, CutShort(n), now);
    var s := Next(Begun(w, key, op), Advance(key, CutShort(n), now));
    LoadAll(s, key, op, None, [], Take(rows, n), now);
    FullsWhole(w.db, rows, n);
  }

  lemma FullsWhole(db: Db, rows: seq<Record>, n: nat)
    ensures [] + Fulls(db, Take(rows, n)) == Fulls(db, Take(rows, n))
    ensures Fulls(db, Take(rows, n)) == Fulls(db, rows) <==> n >= |rows|
  {}

  /** A listed record whose measurements end after n rows is listed with the first n, complete iff there are no more. */
  lemma ListedRecordCutShort(w: World, key: Key, op: Operation, counted: Option<nat>, loaded: seq<FullRecord>,
                             rest: seq<Record>, n: nat, now: int)
    requires key in w.sessions && WellFormed(op) && rest != []
    requires w.sessions[key] == Session(op, None, Loading(counted, loaded, rest))
    ensures var t := Next(w, Advance(key, CutShort(n), now));
            var shown := Take(SortBy(ById(), PointsOf(w.db, rest[0].id)), n);
            && key in t.sessions
            && t.sessions[key] == Session(op, None,
                                          Collected(counted, loaded + [FullRecord(rest[0], shown)], rest[1..]))
            && (multiset(shown) == multiset(PointsOf(w.db, rest[0].id)) <==> n >= |PointsOf(w.db, rest[0].id)|)
  {
    ListedCut(w, key, op, counted, loaded, rest, n, now);
    TakeIsAll(PointsOf(w.db, rest[0].id), n);
  }

  lemma ListedCut(w: World, key: Key, op: Operation, counted: Option<nat>, loaded: seq<FullRecord>, rest: seq<Record>,
                  n: nat, now: int)
    requires key in w.sessions && WellFormed(op) && rest != []
    requires w.sessions[key] == Session(op, None, Loading(counted, loaded, rest))
    ensures var t := Next(w, Advance(key, CutShort(n), now));
            var shown := Take(SortBy(ById(), PointsOf(w.db, rest[0].id)), n);
            && key in t.sessions
            && t.sessions[key] == Session(op, None,
                                          Collected(counted, loaded + [FullRecord(rest[0], shown)], rest[1..]))
  {
    PointsCut(w.db, key.tenant, rest[0].id, n, now);
    AfterCut(w, key, w.sessions[key], n, now);
  }

  function DeviceRowsOf(db: Db, tenant: Tenant, limit: nat, offset: nat): seq<Device> {
    Slice(SortBy(NewestDevice(), Filter(OwnDevice(tenant), db.devices)), offset, limit)
  }

  /** A page of devices that ends after n rows is answered as if it were whole; it is iff it has no more than n. */
  lemma DevicesCutShort(s: World, key: Key, total: nat, limit: nat, offset: nat, n: nat, now: int)
    requires key in s.sessions && WellFormed(s.sessions[key].op)
    requires s.sessions[key].local == DevicesCounted(total, limit, offset)
    ensures var t, rows := Next(s, Advance(key, CutShort(n), now)), DeviceRowsOf(s.db, key.tenant, limit, offset);
            && key in t.sessions && t.sessions[key].local == Finished(DevicePage(Take(rows, n), total))
            && (Take(rows, n) == rows <==> n >= |rows|)
  {
    DeviceRowsCut(s.db, key.tenant, limit, offset, n, now);
    AfterCut(s, key, s.sessions[key], n, now);
  }

  lemma DeviceRowsCut(db: Db, tenant: Tenant, limit: nat, offset: nat, n: nat, now: int)
    ensures var rows := DeviceRowsOf(db, tenant, limit, offset);
            && Observed(Reply(db, tenant, Statement.PageDevices(limit, offset), now), CutShort(n))
               == DeviceRows(Take(rows, n))
            && (Take(rows, n) == rows <==> n >= |rows|)
  {}

  // ----- a client that follows the pages

  /** What one request for the page at an offset makes of the world. */
  type Request = (World, Key, nat) -> World

  /** An undisturbed device list request. */
  function DeviceRequest(limit: int, now: int): Request {
    (w: World, key: Key, offset: nat) =>
      Next(Next(Next(w, Arrive(key, ListDevices(limit, offset))), Advance(key, Healthy, now)),
           Advance(key, Healthy, now))
  }

  /** An undisturbed record list request, with one statement for each record of the page. */
  function RecordRequest(onDevice: Option<Id>, limit: int, now: int): Request {
    (w: World, key: Key, offset: nat) =>
      Run(Next(Next(Next(w, Arrive(key, ListCalibrations(onDevice, limit, offset))), Advance(key, Healthy, now)),
               Advance(key, Healthy, now)),
          Loads(key, |PageRows(w.db, key.tenant, onDevice, PageLimit(limit), offset)|, now))
  }

  function ResponseOf(w: World, key: Key): Option<Response> {
    if key in w.sessions && w.sessions[key].local.Finished? then Some(w.sessions[key].local.response) else None
  }

  function DevicesIn(): (World, Key) -> seq<Device> {
    (w: World, key: Key) =>
      var response := ResponseOf(w, key);
      if response.Some? && response.value.DevicePage? then response.value.devices else []
  }

  function RecordsIn(): (World, Key) -> seq<FullRecord> {
    (w: World, key: Key) =>
      var response := ResponseOf(w, key);
      if response.Some? && response.value.RecordPage? then response.value.records else []
  }

  /** The rows in the responses to requests for page after page, at offset, offset + limit, ... */
  function Client<T>(ask: Request, read: (World, Key) -> seq<T>, w: World, tenant: Tenant, number: nat, limit: nat,
                     offset: nat, rounds: nat): seq<T>
    decreases rounds
  {
    if rounds == 0 then []
    else
      var t := ask(w, Key(tenant, number), offset);
      read(t, Key(tenant, number)) + Client(ask, read, t, tenant, number + 1, limit, offset + limit, rounds - 1)
  }

  /** A new request leaves the tables alone and is answered by its slice of the whole list. */
  predicate AnswersSlice<T(==)>(ask: Request, read: (World, Key) -> seq<T>, db: Db, limit: nat, whole: seq<T>, v: World,
                                k: Key, o: nat) {
    v.db == db && k !in v.sessions ==>
      && ask(v, k, o).db == db && ask(v, k, o).sessions.Keys == v.sessions.Keys + {k}
      && read(ask(v, k, o), k) == Slice(whole, o, limit)
  }

  ghost predicate AnswersSlices<T>(ask: Request, read: (World, Key) -> seq<T>, db: Db, tenant: Tenant, limit: nat,
                                   whole: seq<T>) {
    forall v: World, k: Key, o: nat :: k.tenant == tenant ==> AnswersSlice(ask, read, db, limit, whole, v, k, o)
  }

  lemma DeviceRound(w: World, key: Key, limit: int, offset: nat, now: int)
    requires key !in w.sessions
    ensures var t := DeviceRequest(limit, now)(w, key, offset);
            && t.db == w.db && t.sessions.Keys == w.sessions.Keys + {key}
            && DevicesIn()(t, key) == DeviceRowsOf(w.db, key.tenant, PageLimit(limit), offset)
  {
    DeviceListAnswersItsPage(w, key, limit, offset, now);
    DeviceListSessions(w, key, limit, offset, now);
  }

  lemma DeviceListSessions(w: World, key: Key, limit: int, offset: nat, now: int)
    ensures DeviceRequest(limit, now)(w, key, offset).sessions.Keys == w.sessions.Keys + {key}
  {}

  lemma RecordRound(w: World, key: Key, onDevice: Option<Id>, limit: int, offset: nat, now: int)
    requires key !in w.sessions
    ensures var t := RecordRequest(onDevice, limit, now)(w, key, offset);
            && t.db == w.db && t.sessions.Keys == w.sessions.Keys + {key}
            && RecordsIn()(t, key) == Fulls(w.db, PageRows(w.db, key.tenant, onDevice, PageLimit(limit), offset))
  {
    ListAnswersItsPage(w, key, onDevice, limit, offset, now);
    RecordListSessions(w, key, onDevice, limit, offset, now);
  }

  lemma {:induction false} LoadsSessions(w: World, key: Key, n: nat, now: int)
    requires key in w.sessions
    ensures Run(w, Loads(key, n, now)).sessions.Keys == w.sessions.Keys
    decreases n
  {
    if n > 0 {
      assert Loads(key, n, now)[1..] == Loads(key, n - 1, now);
      LoadsSessions(Next(w, Advance(key, Healthy, now)), key, n - 1, now);
    }
  }

  lemma RecordListSessions(w: World, key: Key, onDevice: Option<Id>, limit: int, offset: nat, now: int)
    ensures RecordRequest(onDevice, limit, now)(w, key, offset).sessions.Keys == w.sessions.Keys + {key}
  {
    var s := Next(Next(Next(w, Arrive(key, ListCalibrations(onDevice, limit, offset))), Advance(key, Healthy, now)),
                  Advance(key, Healthy, now));
    assert s.sessions.Keys == w.sessions.Keys + {key};
    LoadsSessions(s, key, |PageRows(w.db, key.tenant, onDevice, PageLimit(limit), offset)|, now);
  }

  lemma SlicesAdd<T>(s: seq<T>, offset: nat, a: nat, b: nat)
    ensures Slice(s, offset, a) + Slice(s, offset + a, b) == Slice(s, offset, a + b)
  {}

  /** How many rows the pages of some rounds have room for. */
  function Extent(rounds: nat, limit: nat): nat {
    if rounds == 0 then 0 else limit + Extent(rounds - 1, limit)
  }

  lemma ClientStep<T>(ask: Request, read: (World, Key) -> seq<T>, w: World, db: Db, tenant: Tenant, number: nat,
                      limit: nat, offset: nat, rounds: nat, whole: seq<T>) returns (t: World)
    requires rounds > 0 && w.db == db && forall k :: k in w.sessions && k.tenant == tenant ==> k.number < number
    requires AnswersSlices(ask, read, db, tenant, limit, whole)
    ensures t.db == db && forall k :: k in t.sessions && k.tenant == tenant ==> k.number < number + 1
    ensures Client(ask, read, w, tenant, number, limit, offset, rounds)
            == Slice(whole, offset, limit) + Client(ask, read, t, tenant, number + 1, limit, offset + limit, rounds - 1)
  {
    t := ask(w, Key(tenant, number), offset);
    assert AnswersSlice(ask, read, db, limit, whole, w, Key(tenant, number), offset);
    forall k | k in t.sessions && k.tenant == tenant ensures k.number < number + 1 { assert k in t.sessions.Keys; }
  }

  lemma {:induction false} ClientSlices<T>(ask: Request, read: (World, Key) -> seq<T>, w: World, db: Db, tenant: Tenant,
                                           number: nat, limit: nat, offset: nat, rounds: nat, whole: seq<T>)
    requires w.db == db && forall k :: k in w.sessions && k.tenant == tenant ==> k.number < number
    requires AnswersSlices(ask, read, db, tenant, limit, whole)
    ensures Client(ask, read, w, tenant, number, limit, offset, rounds) == Slice(whole, offset, Extent(rounds, limit))
    decreases rounds
  {
    if rounds > 0 {
      var t := ClientStep(ask, read, w, db, tenant, number, limit, offset, rounds, whole);
      ClientSlices(ask, read, t, db, tenant, number + 1, limit, offset + limit, rounds - 1, whole);
      SlicesAdd(whole, offset, limit, Extent(rounds - 1, limit));
    }
  }

  lemma FullsSlice(db: Db, rows: seq<Record>, offset: nat, limit: nat)
    ensures Fulls(db, Slice(rows, offset, limit)) == Slice(Fulls(db, rows), offset, limit)
  {}

  lemma {:induction false} ExtentIs(rounds: nat, limit: nat)
    ensures Extent(rounds, limit) == rounds * limit
  {
    if rounds > 0 {
      ExtentIs(rounds - 1, limit);
      assert rounds * limit == (rounds - 1) * limit + limit;
    }
  }

  lemma WholeSlice<T>(s: seq<T>, limit: nat)
    requires limit >= |s|
    ensures Slice(s, 0, limit) == s
  {}

  /** When the rounds cover the whole list, the client has received exactly that. */
  lemma ClientSeesAll<T>(ask: Request, read: (World, Key) -> seq<T>, w: World, tenant: Tenant, number: nat, limit: nat,
                         rounds: nat, whole: seq<T>)
    requires forall k :: k in w.sessions && k.tenant == tenant ==> k.number < number
    requires AnswersSlices(ask, read, w.db, tenant, limit, whole) && rounds * limit >= |whole|
    ensures Client(ask, read, w, tenant, number, limit, 0, rounds) == whole
  {
    ClientSlices(ask, read, w, w.db, tenant, number, limit, 0, rounds, whole);
    ExtentIs(rounds, limit);
    WholeSlice(whole, Extent(rounds, limit));
  }

  /**
   On an otherwise idle service, a client that asks for page after page, under whatever limit, until the rounds cover
   the reported total has received each of the tenant's devices exactly once, newest first.
   */
  lemma DeviceClientSeesAll(w: World, tenant: Tenant, number: nat, limit: int, rounds: nat, now: int)
    requires forall k :: k in w.sessions && k.tenant == tenant ==> k.number < number
    requires rounds * PageLimit(limit) >= |Filter(OwnDevice(tenant), w.db.devices)|
    ensures var all := Client(DeviceRequest(limit, now), DevicesIn(), w, tenant, number, PageLimit(limit), 0, rounds);
            multiset(all) == multiset(Filter(OwnDevice(tenant), w.db.devices)) && ListsDevices(all, w.db, tenant)
  {
    var whole := SortBy(NewestDevice(), Filter(OwnDevice(tenant), w.db.devices));
    forall v: World, k: Key, o: nat | k.tenant == tenant
      ensures AnswersSlice(DeviceRequest(limit, now), DevicesIn(), w.db, PageLimit(limit), whole, v, k, o)
    {
      if v.db == w.db && k !in v.sessions { DeviceRound(v, k, limit, o, now); }
    }
    ClientSeesAll(DeviceRequest(limit, now), DevicesIn(), w, tenant, number, PageLimit(limit), rounds, whole);
    SortedDevicesAreListed(w.db, tenant);
  }

  /** The same for the records of the tenant, or those on one device: each once, newest first, with its points. */
  lemma RecordClientSeesAll(w: World, tenant: Tenant, number: nat, onDevice: Option<Id>, limit: int, rounds: nat,
                            now: int)
    requires forall k :: k in w.sessions && k.tenant == tenant ==> k.number < number
    requires rounds * PageLimit(limit) >= |Filter(RecordsOn(tenant, onDevice), w.db.records)|
    ensures var sorted := SortBy(NewestRecord(), Filter(RecordsOn(tenant, onDevice), w.db.records));
            && Client(RecordRequest(onDevice, limit, now), RecordsIn(), w, tenant, number, PageLimit(limit), 0, rounds)
               == Fulls(w.db, sorted)
            && multiset(sorted) == multiset(Filter(RecordsOn(tenant, onDevice), w.db.records))
            && ListsRecords(sorted, w.db, tenant, onDevice)
  {
    var sorted := SortBy(NewestRecord(), Filter(RecordsOn(tenant, onDevice), w.db.records));
    forall v: World, k: Key, o: nat | k.tenant == tenant
      ensures AnswersSlice(RecordRequest(onDevice, limit, now), RecordsIn(), w.db, PageLimit(limit),
                           Fulls(w.db, sorted),
                           v, k, o)
    {
      if v.db == w.db && k !in v.sessions {
        RecordRound(v, k, onDevice, limit, o, now);
        FullsSlice(w.db, sorted, o, PageLimit(limit));
      }
    }
    ClientSeesAll(RecordRequest(onDevice, limit, now), RecordsIn(), w, tenant, number, PageLimit(limit), rounds,
                  Fulls(w.db, sorted));
    SortedRecordsAreListed(w.db, tenant, onDevice);
  }

  // ----- the total of a list under other requests

  lemma {:induction false} OwnDevicesStay(a: seq<Device>, b: seq<Device>, tenant: Tenant)
    requires KeepsIdentities(a, b)
    ensures |Filter(OwnDevice(tenant), a)| <= |Filter(OwnDevice(tenant), b)|
  {
    if a != [] {
      assert SameIdentity(a[0], b[0]);
      assert KeepsIdentities(a[1..], b[1..]) by {
        forall i | 0 <= i < |a[1..]| ensures SameIdentity(a[1..][i], b[1..][i]) {
          assert SameIdentity(a[i + 1], b[i + 1]);
        }
      }
      OwnDevicesStay(a[1..], b[1..], tenant);
    }
  }

  /** A device list reports a total counted before its page was read: rows can have been added since, never removed. */
  lemma DeviceTotalIsNotAhead(w: World, key: Key, limit: int, offset: nat, others: seq<Step>, early: int, late: int)
    requires key !in w.sessions && forall i :: 0 <= i < |others| ==> others[i].key != key
    ensures var counted := Next(Next(w, Arrive(key, ListDevices(limit, offset))), Advance(key, Healthy, early));
            var paged := Run(counted, others);
            var t := Next(paged, Advance(key, Healthy, late));
            && key in t.sessions && t.sessions[key].local.Finished? && t.sessions[key].local.response.DevicePage?
            && t.sessions[key].local.response.devices == DeviceRowsOf(paged.db, key.tenant, PageLimit(limit), offset)
            && t.sessions[key].local.response.total <= |Filter(OwnDevice(key.tenant), paged.db.devices)|
  {
    DevicesAreCounted(w, key, limit, offset, early);
    var counted := Next(Next(w, Arrive(key, ListDevices(limit, offset))), Advance(key, Healthy, early));
    UntouchedSession(counted, others, key);
    IdentityNeverChanges(counted, others);
    OwnDevicesStay(counted.db.devices, Run(counted, others).db.devices, key.tenant);
    DevicesArePaged(Run(counted, others), key, |Filter(OwnDevice(key.tenant), w.db.devices)|, PageLimit(limit),
                    offset, late);
  }

  lemma RecordsOnStay(a: seq<Record>, b: seq<Record>, tenant: Tenant, onDevice: Option<Id>)
    requires a <= b
    ensures |Filter(RecordsOn(tenant, onDevice), a)| <= |Filter(RecordsOn(tenant, onDevice), b)|
  {
    assert b == a + b[|a|..];
    FilterConcat(RecordsOn(tenant, onDevice), a, b[|a|..]);
  }

  lemma {:induction false} RecordsAppend(w: World, steps: seq<Step>)
    ensures w.db.records <= Run(w, steps).db.records
    decreases |steps|
  {
    if steps != [] {
      RecordsAppendOne(w, steps[0]);
      RecordsAppend(Next(w, steps[0]), steps[1..]);
    }
  }

  lemma RecordsAppendOne(w: World, step: Step)
    ensures w.db.records <= Next(w, step).db.records
  {}

  /** The same for record lists: the total is at most the number of matching records when the page is read. */
  lemma RecordTotalIsNotAhead(w: World, key: Key, onDevice: Option<Id>, limit: int, offset: nat, others: seq<Step>,
                              early: int, late: int)
    requires key !in w.sessions && forall i :: 0 <= i < |others| ==> others[i].key != key
    ensures var op := ListCalibrations(onDevice, limit, offset);
            var counted := Next(Next(w, Arrive(key, op)), Advance(key, Healthy, early));
            var paged := Run(counted, others);
            var t := Next(paged, Advance(key, Healthy, late));
            var total := |Filter(RecordsOn(key.tenant, onDevice), w.db.records)|;
            && key in t.sessions
            && t.sessions[key] == Session(op, None,
                 Collected(Some(total), [], PageRows(paged.db, key.tenant, onDevice, PageLimit(limit), offset)))
            && total <= |Filter(RecordsOn(key.tenant, onDevice), paged.db.records)|
  {
    var op := ListCalibrations(onDevice, limit, offset);
    var total := |Filter(RecordsOn(key.tenant, onDevice), w.db.records)|;
    ListStarts(w, key, onDevice, limit, offset, early);
    var counted := Next(Next(w, Arrive(key, op)), Advance(key, Healthy, early));
    UntouchedSession(counted, others, key);
    RecordsAppend(counted, others);
    RecordsOnStay(w.db.records, Run(counted, others).db.records, key.tenant, onDevice);
    ListPages(Run(counted, others), key, op, total, onDevice, PageLimit(limit), offset, late);
  }

  /** A trend leaves out only records that are no newer than any it shows, and only when it is full. */
  lemma TrendDropsTheOldest(db: Db, tenant: Tenant, device: Id, limit: int, r: Record)
    requires r in db.records && r.tenantId == tenant && r.deviceId == device
    ensures var rows := PageRows(db, tenant, Some(device), TrendLimit(limit), 0);
            r in rows || (|rows| == TrendLimit(limit) && forall x :: x in rows ==> x.measuredAt >= r.measuredAt)
  {
    assert r in Filter(RecordsOn(tenant, Some(device)), db.records);
    LimitKeepsLeast(NewestRecord(), Filter(RecordsOn(tenant, Some(device)), db.records), TrendLimit(limit), r);
  }
}
