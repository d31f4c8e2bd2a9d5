/** What the calibration store promises about whole runs: any requests of any tenants, interleaved, with any faults. */
module StoreTheorems {
  import opened Wrappers
  import opened Rows
  import opened Decimal
  import opened Engine
  import opened Store
  import opened Handlers
  import opened StoreRuns
  import opened StoreSoundness
  import opened StoreIntegrity
  import opened Paging

  function UsedAfter(used: set<Id>, steps: seq<Step>): set<Id>
    decreases |steps|
  {
    if steps == [] then used else UsedAfter(UsedBy(used, steps[0]), steps[1..])
  }

  lemma {:induction false} SoundRun(w: World, used: set<Id>, steps: seq<Step>)
    requires Sound(w, used) && FreshIds(used, steps)
    ensures Sound(Run(w, steps), UsedAfter(used, steps))
    decreases |steps|
  {
    if steps != [] {
      SoundStep(w, used, steps[0]);
      SoundRun(Next(w, steps[0]), UsedBy(used, steps[0]), steps[1..]);
    }
  }

  // ----- records

  /**
   A stored record is what one request submitted: its measurements are all that request's points, evaluated with
   one tolerance, its counts count them, and its status, its verdict and its failure count say the same.
   */
  lemma StoredRecordIntegrity(steps: seq<Step>, r: Record) returns (key: Key)
    requires FreshIds({}, steps) && r in Run(Empty, steps).db.records
    ensures key in Run(Empty, steps).sessions && key.tenant == r.tenantId
    ensures var s, session := Run(Empty, steps), Run(Empty, steps).sessions[key];
            var points := PointsOf(s.db, r.id);
            && session.op.CreateCalibration? && session.op.recordId == r.id && session.op.deviceId == r.deviceId
            && OwnsDevice(s.db.devices, r.tenantId, r.deviceId)
            && session.tolerance.Some? && WellFormed(session.op)
            && points == Points(r.id, session.op.pointIds, session.op.calibration.inputs, session.tolerance.value)
            && AllMeasure(points, r.id, session.op.pointIds, session.op.calibration.inputs, session.tolerance.value)
            && r.passCount == |Filter(Passing(), points)| && r.failCount == |Filter(Failing(), points)|
            && r.passCount + r.failCount == |points|
            && r.operatorName == session.op.calibration.operatorName
            && r.temperatureC == session.op.calibration.temperatureC
            && r.humidityPct == session.op.calibration.humidityPct
            && (if session.op.calibration.measuredAt.Some? then Some(r.measuredAt) == session.op.calibration.measuredAt
                else r.measuredAt == r.createdAt)
            && (r.status == "pass" <==> r.overallPass) && (r.status == "fail" <==> !r.overallPass)
            && (r.overallPass <==> forall i :: 0 <= i < |points| ==> points[i].isPass)
  {
    EveryRunIsKept(steps);
    var s := Run(Empty, steps);
    assert RecordKept(s.db, s.sessions, r);
    key :| Submitted(s.db, s.sessions, key, r);
    EveryPointIsCounted(PointsOf(s.db, r.id));
    var op := s.sessions[key].op;
    PointsMeasure(op.recordId, op.pointIds, op.calibration.inputs, s.sessions[key].tolerance.value);
  }

  /** The other half of all or nothing: no measurement is stored without its record. */
  lemma NoStrayMeasurements(steps: seq<Step>)
    requires FreshIds({}, steps)
    ensures var db := Run(Empty, steps).db;
            forall m :: m in db.measurements ==> exists r :: r in db.records && m in PointsOf(db, r.id)
  {
    EmptyIsSound({});
    SoundRun(Empty, {}, steps);
    var db := Run(Empty, steps).db;
    forall m | m in db.measurements ensures exists r :: r in db.records && m in PointsOf(db, r.id) {
      assert HasRecord(db.records, m.recordId);
      var r :| r in db.records && r.id == m.recordId;
      assert m in PointsOf(db, r.id);
    }
  }

  /** Whatever runs later, later updates of the device included, a stored record and its points stay as they are. */
  lemma RecordsAreImmutable(steps: seq<Step>, more: seq<Step>)
    requires FreshIds({}, steps + more)
    ensures var s, t := Run(Empty, steps), Run(Empty, steps + more);
            && s.db.records <= t.db.records
            && forall r :: r in s.db.records ==> PointsOf(t.db, r.id) == PointsOf(s.db, r.id)
  {
    FreshSplit({}, steps, more);
    EmptyIsSound({});
    SoundRun(Empty, {}, steps);
    EveryRunIsKept(steps);
    RunConcat(Empty, steps, more);
    KeptRun(Run(Empty, steps), UsedAfter({}, steps), more);
  }

  lemma {:induction false} FreshSplit(used: set<Id>, steps: seq<Step>, more: seq<Step>)
    requires FreshIds(used, steps + more)
    ensures FreshIds(used, steps) && FreshIds(UsedAfter(used, steps), more)
    decreases |steps|
  {
    if steps == [] {
      assert steps + more == more;
    } else {
      assert (steps + more)[0] == steps[0] && (steps + more)[1..] == steps[1..] + more;
      FreshSplit(UsedBy(used, steps[0]), steps[1..], more);
    }
  }

  /** The tolerance of an evaluation is the one the device's row had when the request read it. */
  lemma {:induction false} ToleranceWasRead(w: World, steps: seq<Step>, key: Key) returns (k: nat, d: Device)
    requires key !in w.sessions || w.sessions[key].tolerance.None?
    requires key in Run(w, steps).sessions && Run(w, steps).sessions[key].tolerance.Some?
    ensures k < |steps| && steps[k].Advance? && steps[k].key == key
    ensures var before, session := Run(w, steps[..k]), Run(w, steps).sessions[key];
            && d in before.db.devices && session.op.CreateCalibration? && ThisDevice(key.tenant, session.op.deviceId)(d)
            && session.tolerance == Some(d.tolerancePct)
    decreases |steps|
  {
    var t := Next(w, steps[0]);
    if key in t.sessions && t.sessions[key].tolerance.Some? {
      k := 0;
      d := ReadTolerance(w, steps[0], key);
      ToleranceStays(t, steps[1..], key);
    } else {
      k, d := ToleranceWasRead(t, steps[1..], key);
      k := k + 1;
      assert steps[..k][1..] == steps[1..][..k - 1];
    }
  }

  lemma ReadTolerance(w: World, step: Step, key: Key) returns (d: Device)
    requires key !in w.sessions || w.sessions[key].tolerance.None?
    requires key in Next(w, step).sessions && Next(w, step).sessions[key].tolerance.Some?
    ensures step.Advance? && step.key == key && d in w.db.devices
    ensures var session := Next(w, step).sessions[key];
            session.op.CreateCalibration? && ThisDevice(key.tenant, session.op.deviceId)(d)
            && session.tolerance == Some(d.tolerancePct)
  {
    assert step.Advance?;
    AnswersAreOwn(w.db, key.tenant, StatementOf(w.sessions[key]), step.now, step.fault);
    d := Observed(Reply(w.db, key.tenant, StatementOf(w.sessions[key]), step.now), step.fault).device;
  }

  lemma {:induction false} ToleranceStays(w: World, steps: seq<Step>, key: Key)
    requires key in w.sessions && w.sessions[key].tolerance.Some? && w.sessions[key].local != Begin
    ensures var t := Run(w, steps);
            key in t.sessions && t.sessions[key].op == w.sessions[key].op
            && t.sessions[key].tolerance == w.sessions[key].tolerance
    decreases |steps|
  {
    if steps != [] { ToleranceStays(Next(w, steps[0]), steps[1..], key); }
  }

  // ----- responses

  /**
   The answer to a submission says what became of it: created means stored whole; not found and bad request mean
   nothing was stored; after a server error the record is there whole or not at all.
   */
  lemma SubmissionOutcome(steps: seq<Step>, key: Key)
    requires FreshIds({}, steps) && key in Run(Empty, steps).sessions
    requires Run(Empty, steps).sessions[key].op.CreateCalibration? && Run(Empty, steps).sessions[key].local.Finished?
    ensures var s, session := Run(Empty, steps), Run(Empty, steps).sessions[key];
            var response, id := session.local.response, session.op.recordId;
            && (response.Created? ==> response.full.record.id == id && StoredWhole(s.db, key.tenant, response.full))
            && (response.NotFound? || response.BadRequest? ==> RecordUnborn(s.db, id))
            && (response.ServerError? ==>
                  RecordUnborn(s.db, id)
                  || exists r :: r in s.db.records && r.id == id && Submitted(s.db, s.sessions, key, r))
            && (response.Created? || response.NotFound? || response.BadRequest? || response.ServerError?)
  {
    EveryRunIsKept(steps);
    EmptyIsSound({});
    SoundRun(Empty, {}, steps);
    CalibrationResponses(Empty, steps, key);
    var s, session := Run(Empty, steps), Run(Empty, steps).sessions[key];
    assert LocalKept(s.db, key.tenant, session);
    if session.tolerance.None? { NothingStored(s, UsedAfter({}, steps), key); }
    if HasRecord(s.db.records, session.op.recordId) {
      var r := OwnSubmission(s, UsedAfter({}, steps), key);
    } else {
      NoRecordNoPoints(s.db, UsedAfter({}, steps), session.op.recordId);
    }
  }

  /** The record with a request's uuid is the one that the request submitted. */
  lemma OwnSubmission(s: World, used: set<Id>, key: Key) returns (r: Record)
    requires Sound(s, used) && Kept(s) && key in s.sessions && s.sessions[key].op.CreateCalibration?
    requires HasRecord(s.db.records, s.sessions[key].op.recordId)
    ensures r in s.db.records && r.id == s.sessions[key].op.recordId && Submitted(s.db, s.sessions, key, r)
  {
    r :| r in s.db.records && r.id == s.sessions[key].op.recordId;
    assert RecordKept(s.db, s.sessions, r);
    var k :| Submitted(s.db, s.sessions, k, r);
    if k != key {
      assert Apart(s.sessions[k].op, s.sessions[key].op);
      ApartRecords(s.sessions[k].op, s.sessions[key].op);
    }
  }

  lemma NothingStored(s: World, used: set<Id>, key: Key)
    requires Sound(s, used) && Kept(s) && key in s.sessions
    requires s.sessions[key].op.CreateCalibration? && s.sessions[key].tolerance.None?
    ensures RecordUnborn(s.db, s.sessions[key].op.recordId)
  {
    var id := s.sessions[key].op.recordId;
    forall r | r in s.db.records ensures r.id != id {
      assert RecordKept(s.db, s.sessions, r);
      var k :| Submitted(s.db, s.sessions, k, r);
      assert k != key && Apart(s.sessions[k].op, s.sessions[key].op);
      ApartRecords(s.sessions[k].op, s.sessions[key].op);
    }
    NoRecordNoPoints(s.db, used, id);
  }

  lemma ApartRecords(a: Operation, b: Operation)
    requires a.CreateCalibration? && b.CreateCalibration? && Apart(a, b)
    ensures a.recordId != b.recordId
  {
    assert IdsOf(a)[0] == a.recordId && IdsOf(b)[0] == b.recordId;
    assert a.recordId in IdsOf(a) && b.recordId in IdsOf(b);
  }

  lemma NoRecordNoPoints(db: Db, used: set<Id>, id: Id)
    requires TablesUse(db, used) && forall r :: r in db.records ==> r.id != id
    ensures RecordUnborn(db, id)
  {
    forall m | m in db.measurements ensures m.recordId != id {
      assert HasRecord(db.records, m.recordId);
    }
    assert !HasRecord(db.records, id);
  }

  predicate CalibrationLocal(session: Session) {
    session.op.CreateCalibration? ==>
      match session.local
      case Begin => session.tolerance.None?
      case Evaluated(record, _) => record.id == session.op.recordId && session.tolerance.Some?
      case Stored(record, _) => record.id == session.op.recordId && session.tolerance.Some?
      case Finished(Created(full)) => full.record.id == session.op.recordId && session.tolerance.Some?
      case Finished(NotFound) => session.tolerance.None?
      case Finished(BadRequest) => session.tolerance.None?
      case Finished(ServerError) => true
      case _ => false
  }

  lemma {:induction false} CalibrationResponses(w: World, steps: seq<Step>, key: Key)
    requires key in w.sessions ==> CalibrationLocal(w.sessions[key])
    ensures key in Run(w, steps).sessions ==> CalibrationLocal(Run(w, steps).sessions[key])
    decreases |steps|
  {
    if steps != [] {
      if key in w.sessions && steps[0].Advance? && steps[0].key == key && Enabled(w, steps[0]) {
        CalibrationResumes(key.tenant, w.sessions[key],
          Observed(Reply(w.db, key.tenant, StatementOf(w.sessions[key]), steps[0].now), steps[0].fault), steps[0].now);
      }
      CalibrationResponses(Next(w, steps[0]), steps[1..], key);
    }
  }

  lemma CalibrationResumes(tenant: Tenant, session: Session, answer: Answer, now: int)
    requires WellFormed(session.op) && Active(session.local) && CalibrationLocal(session)
    ensures CalibrationLocal(Resume(tenant, session, answer, now))
  {}

  predicate OrderedById(points: seq<Measurement>) {
    forall i, j :: 0 <= i < j < |points| ==> points[i].id <= points[j].id
  }

  /** GetRecord reads the submitted points back: all of them, ordered by id. */
  lemma ReadBack(steps: seq<Step>, r: Record, now: int)
    requires FreshIds({}, steps) && r in Run(Empty, steps).db.records
    ensures var s := Run(Empty, steps);
            var answer := Reply(s.db, r.tenantId, LoadMeasurements(r.id), now);
            && answer.MeasurementRows? && OrderedById(answer.points)
            && multiset(answer.points) == multiset(PointsOf(s.db, r.id))
            && |answer.points| == r.passCount + r.failCount
  {
    CountsCover(steps, r);
    LoadReply(Run(Empty, steps).db, r.tenantId, r.id, now);
  }

  lemma LoadReply(db: Db, tenant: Tenant, id: Id, now: int)
    ensures var answer := Reply(db, tenant, LoadMeasurements(id), now);
            && answer.MeasurementRows? && OrderedById(answer.points)
            && multiset(answer.points) == multiset(PointsOf(db, id)) && |answer.points| == |PointsOf(db, id)|
  {
    SortAscending(ById(), PointsOf(db, id));
  }

  lemma CountsCover(steps: seq<Step>, r: Record)
    requires FreshIds({}, steps) && r in Run(Empty, steps).db.records
    ensures r.passCount + r.failCount == |PointsOf(Run(Empty, steps).db, r.id)|
  {
    var _ := StoredRecordIntegrity(steps, r);
  }

  /**
   A result set can end early without an error, so a response may show fewer points than were stored; it shows
   the first ones by id, and it shows all of them exactly when their number is the record's two counts.
   */
  lemma ShownIsComplete(steps: seq<Step>, tenant: Tenant, full: FullRecord)
    requires FreshIds({}, steps) && Shown(Run(Empty, steps).db, tenant, full)
    ensures var points := PointsOf(Run(Empty, steps).db, full.record.id);
            && OrderedById(full.measurements) && multiset(full.measurements) <= multiset(points)
            && (multiset(full.measurements) == multiset(points)
                <==> |full.measurements| == full.record.passCount + full.record.failCount)
  {
    CountsCover(steps, full.record);
    ShownRows(PointsOf(Run(Empty, steps).db, full.record.id), full.measurements);
  }

  lemma ShownRows(points: seq<Measurement>, shown: seq<Measurement>)
    requires shown <= SortBy(ById(), points)
    ensures OrderedById(shown) && multiset(shown) <= multiset(points)
    ensures multiset(shown) == multiset(points) <==> |shown| == |points|
  {
    SortAscending(ById(), points);
    PrefixAscending(ById(), shown, SortBy(ById(), points));
    PrefixIsAll(shown, SortBy(ById(), points));
  }

  lemma PrefixAscending<T>(key: T -> int, a: seq<T>, b: seq<T>)
    requires a <= b && Ascending(key, b)
    ensures Ascending(key, a)
  {}

  lemma PrefixIsAll<T>(a: seq<T>, b: seq<T>)
    requires a <= b
    ensures multiset(a) <= multiset(b) && (multiset(a) == multiset(b) <==> |a| == |b|)
  {
    assert b == a + b[|a|..];
    assert |multiset(a)| == |a| && |multiset(b)| == |b|;
  }

  /** Every record in a response is a stored record of the tenant with its own points. */
  lemma ResponsesShowStoredRecords(steps: seq<Step>, key: Key)
    requires FreshIds({}, steps) && key in Run(Empty, steps).sessions && Run(Empty, steps).sessions[key].local.Finished?
    ensures var s := Run(Empty, steps);
            var response := s.sessions[key].local.response;
            && (response.RecordBody? ==> Shown(s.db, key.tenant, response.full))
            && (response.RecordPage? ==> forall full :: full in response.records ==> Shown(s.db, key.tenant, full))
  {
    EveryRunIsKept(steps);
    assert LocalKept(Run(Empty, steps).db, key.tenant, Run(Empty, steps).sessions[key]);
  }

  /** A device's stamp is the measurement time of one of its stored records. */
  lemma StampsAreMeasurementTimes(steps: seq<Step>, d: Device) returns (r: Record)
    requires FreshIds({}, steps) && d in Run(Empty, steps).db.devices && d.lastCalibratedAt.Some?
    ensures r in Run(Empty, steps).db.records && r.deviceId == d.id && r.tenantId == d.tenantId
    ensures d.lastCalibratedAt == Some(r.measuredAt)
  {
    EveryRunIsKept(steps);
    var s := Run(Empty, steps);
    assert StampKept(s.db.records, d);
    r :| r in s.db.records && r.tenantId == d.tenantId && r.deviceId == d.id
         && r.measuredAt == d.lastCalibratedAt.value;
  }

  // ----- lists

  predicate DevicesNewestFirst(devices: seq<Device>) {
    forall i, j :: 0 <= i < j < |devices| ==> devices[i].createdAt >= devices[j].createdAt
  }

  predicate RecordsNewestFirst(records: seq<Record>) {
    forall i, j :: 0 <= i < j < |records| ==> records[i].measuredAt >= records[j].measuredAt
  }

  predicate Matches(r: Record, tenant: Tenant, onDevice: Option<Id>) {
    r.tenantId == tenant && (onDevice.Some? ==> r.deviceId == onDevice.value)
  }

  /** The tenant's devices and no others, the one created last first. */
  predicate ListsDevices(listed: seq<Device>, db: Db, tenant: Tenant) {
    && (forall d :: d in listed ==> d in db.devices && d.tenantId == tenant)
    && (forall d :: d in db.devices && d.tenantId == tenant ==> d in listed)
    && DevicesNewestFirst(listed)
  }

  /** The matching records and no others, the one measured last first. */
  predicate ListsRecords(listed: seq<Record>, db: Db, tenant: Tenant, onDevice: Option<Id>) {
    && (forall r :: r in listed ==> r in db.records && Matches(r, tenant, onDevice))
    && (forall r :: r in db.records && Matches(r, tenant, onDevice) ==> r in listed)
    && RecordsNewestFirst(listed)
  }

  lemma DeviceOrder(devices: seq<Device>)
    requires Ascending(NewestDevice(), devices)
    ensures DevicesNewestFirst(devices)
  {
    forall i, j | 0 <= i < j < |devices| ensures devices[i].createdAt >= devices[j].createdAt {
      assert NewestDevice()(devices[i]) <= NewestDevice()(devices[j]);
    }
  }

  lemma RecordOrder(records: seq<Record>)
    requires Ascending(NewestRecord(), records)
    ensures RecordsNewestFirst(records)
  {
    forall i, j | 0 <= i < j < |records| ensures records[i].measuredAt >= records[j].measuredAt {
      assert NewestRecord()(records[i]) <= NewestRecord()(records[j]);
    }
  }

  /** What the list statement sorts is the list. */
  lemma SortedDevicesAreListed(db: Db, tenant: Tenant)
    ensures ListsDevices(SortBy(NewestDevice(), Filter(OwnDevice(tenant), db.devices)), db, tenant)
  {
    var found := Filter(OwnDevice(tenant), db.devices);
    SortAscending(NewestDevice(), found);
    SameDevicesListed(SortBy(NewestDevice(), found), db, tenant);
  }

  lemma SortedRecordsAreListed(db: Db, tenant: Tenant, onDevice: Option<Id>)
    ensures ListsRecords(SortBy(NewestRecord(), Filter(RecordsOn(tenant, onDevice), db.records)), db, tenant, onDevice)
  {
    var found := Filter(RecordsOn(tenant, onDevice), db.records);
    SortAscending(NewestRecord(), found);
    SameRecordsListed(SortBy(NewestRecord(), found), db, tenant, onDevice);
  }

  lemma SameMembers<T>(a: seq<T>, b: seq<T>)
    requires multiset(a) == multiset(b)
    ensures (forall x :: x in a ==> x in b) && (forall x :: x in b ==> x in a)
  {
    forall x | x in a ensures x in b { assert x in multiset(a); }
    forall x | x in b ensures x in a { assert x in multiset(b); }
  }

  /** A list of the same rows in order is a list as well. */
  lemma SameDevicesListed(a: seq<Device>, db: Db, tenant: Tenant)
    requires multiset(a) == multiset(Filter(OwnDevice(tenant), db.devices)) && Ascending(NewestDevice(), a)
    ensures ListsDevices(a, db, tenant)
  {
    DeviceOrder(a);
    SameMembers(a, Filter(OwnDevice(tenant), db.devices));
  }

  lemma SameRecordsListed(a: seq<Record>, db: Db, tenant: Tenant, onDevice: Option<Id>)
    requires multiset(a) == multiset(Filter(RecordsOn(tenant, onDevice), db.records)) && Ascending(NewestRecord(), a)
    ensures ListsRecords(a, db, tenant, onDevice)
  {
    RecordOrder(a);
    SameMembers(a, Filter(RecordsOn(tenant, onDevice), db.records));
  }

  /** Pages have at most 200 rows, 50 when the client asks for none; trends 100 and 20. */
  lemma LimitsAre(limit: int)
    ensures PageLimit(limit) == if limit <= 0 then 50 else if limit > 200 then 200 else limit
    ensures TrendLimit(limit) == if limit <= 0 then 20 else if limit > 100 then 100 else limit
  {}

  function DevicePageAt(db: Db, tenant: Tenant, limit: nat): nat -> seq<Device> {
    (offset: nat) =>
      var answer := Reply(db, tenant, Statement.PageDevices(limit, offset), 0);
      if answer.DeviceRows? then answer.devices else []
  }

  function RecordPageAt(db: Db, tenant: Tenant, onDevice: Option<Id>, limit: nat): nat -> seq<Record> {
    (offset: nat) =>
      var answer := Reply(db, tenant, PageRecords(onDevice, limit, offset), 0);
      if answer.RecordRows? then answer.records else []
  }

  lemma DevicePageIs(db: Db, tenant: Tenant, limit: nat, offset: nat)
    ensures DevicePageAt(db, tenant, limit)(offset)
            == Slice(SortBy(NewestDevice(), Filter(OwnDevice(tenant), db.devices)), offset, limit)
  {
    assert Reply(db, tenant, Statement.PageDevices(limit, offset), 0).DeviceRows?;
  }

  lemma RecordPageIs(db: Db, tenant: Tenant, onDevice: Option<Id>, limit: nat, offset: nat)
    ensures RecordPageAt(db, tenant, onDevice, limit)(offset)
            == Slice(SortBy(NewestRecord(), Filter(RecordsOn(tenant, onDevice), db.records)), offset, limit)
  {
    assert Reply(db, tenant, PageRecords(onDevice, limit, offset), 0).RecordRows?;
  }

  lemma CountsAre(db: Db, tenant: Tenant, onDevice: Option<Id>)
    ensures Reply(db, tenant, CountDevices, 0) == Count(|Filter(OwnDevice(tenant), db.devices)|)
    ensures Reply(db, tenant, CountRecords(onDevice), 0) == Count(|Filter(RecordsOn(tenant, onDevice), db.records)|)
  {}

  /**
   On tables at rest, the pages under any clamped limit, followed up to the reported total, give the tenant's
   devices each exactly once, newest first.
   */
  lemma DevicePagesTile(db: Db, tenant: Tenant, limit: int, n: nat)
    requires Reply(db, tenant, CountDevices, 0) == Count(n)
    ensures 1 <= PageLimit(limit) <= 200
    ensures var devices := FollowOffsets(n, DevicePageAt(db, tenant, PageLimit(limit)), 0, PageLimit(limit));
            && |devices| == n && ListsDevices(devices, db, tenant)
            && multiset(devices) == multiset(Filter(OwnDevice(tenant), db.devices))
  {
    CountsAre(db, tenant, None);
    forall o: nat { DevicePageIs(db, tenant, PageLimit(limit), o); }
    ListTiles(NewestDevice(), Filter(OwnDevice(tenant), db.devices), DevicePageAt(db, tenant, PageLimit(limit)),
              PageLimit(limit));
    SameDevicesListed(FollowOffsets(n, DevicePageAt(db, tenant, PageLimit(limit)), 0, PageLimit(limit)), db, tenant);
  }

  /** The same for the records of the tenant, or those on one device. */
  lemma RecordPagesTile(db: Db, tenant: Tenant, onDevice: Option<Id>, limit: int, n: nat)
    requires Reply(db, tenant, CountRecords(onDevice), 0) == Count(n)
    ensures 1 <= PageLimit(limit) <= 200
    ensures var records := FollowOffsets(n, RecordPageAt(db, tenant, onDevice, PageLimit(limit)), 0, PageLimit(limit));
            && |records| == n && ListsRecords(records, db, tenant, onDevice)
            && multiset(records) == multiset(Filter(RecordsOn(tenant, onDevice), db.records))
  {
    CountsAre(db, tenant, onDevice);
    forall o: nat { RecordPageIs(db, tenant, onDevice, PageLimit(limit), o); }
    ListTiles(NewestRecord(), Filter(RecordsOn(tenant, onDevice), db.records),
              RecordPageAt(db, tenant, onDevice, PageLimit(limit)), PageLimit(limit));
    SameRecordsListed(FollowOffsets(n, RecordPageAt(db, tenant, onDevice, PageLimit(limit)), 0, PageLimit(limit)), db,
                      tenant, onDevice);
  }

  // ----- the summary

  lemma {:induction false} CountsSplit(records: seq<Record>, tenant: Tenant, now: int)
    ensures |Filter(PassedRecord(tenant), records)| + |Filter(RecentFail(tenant, now), records)|
            <= |Filter(OwnRecord(tenant), records)|
  {
    if records != [] { CountsSplit(records[1..], tenant, now); }
  }

  /** The rate is a percentage: times the number of records it is a hundred for each that passes. */
  lemma PassRateRange(passing: nat, total: nat)
    requires passing <= total
    ensures 0.0 <= PassRate(passing, total) <= 100.0
    ensures PassRate(passing, total) * total as real == passing as real * 100.0
  {
    if total > 0 {
      DivOrder(0.0, passing as real, total as real);
      DivOrder(passing as real, total as real, total as real);
      assert passing as real / total as real * total as real == passing as real;
    }
  }

  function FailedRecord(tenant: Tenant): Record -> bool {
    (r: Record) => r.tenantId == tenant && !r.overallPass
  }

  lemma {:induction false} RecentAreFailed(records: seq<Record>, tenant: Tenant, now: int)
    ensures |Filter(RecentFail(tenant, now), records)| <= |Filter(FailedRecord(tenant), records)|
  {
    if records != [] { RecentAreFailed(records[1..], tenant, now); }
  }

  lemma SummaryCounts(before: seq<Record>, added: seq<Record>, tenant: Tenant, now: int)
    ensures |Filter(RecentFail(tenant, now), before + added)| + |Filter(PassedRecord(tenant), before)|
            <= |Filter(OwnRecord(tenant), before)| + |Filter(FailedRecord(tenant), added)|
  {
    FilterConcat(RecentFail(tenant, now), before, added);
    CountsSplit(before, tenant, now);
    RecentAreFailed(added, tenant, now);
  }

  lemma SummaryReplies(a: Db, b: Db, tenant: Tenant, early: int, late: int)
    ensures Reply(a, tenant, Tally, early)
            == Tallied(|Filter(OwnRecord(tenant), a.records)|, |Filter(PassedRecord(tenant), a.records)|)
    ensures Reply(b, tenant, CountRecentFails, late) == Count(|Filter(RecentFail(tenant, late), b.records)|)
  {}

  /**
   The summary tallies records in one statement and counts recent failures in a later one. Its rate is always a
   percentage; its recent failures exceed the tallied ones at most by the failing records stored in between, so
   on tables at rest they never do.
   */
  lemma SummaryAgrees(steps: seq<Step>, more: seq<Step>, tenant: Tenant, early: int, late: int)
    requires FreshIds({}, steps + more)
    ensures var a, b := Run(Empty, steps).db, Run(Empty, steps + more).db;
            var tally, recent := Reply(a, tenant, Tally, early), Reply(b, tenant, CountRecentFails, late);
            && tally.Tallied? && recent.Count? && a.records <= b.records
            && 0.0 <= PassRate(tally.passing, tally.total) <= 100.0
            && recent.n <= tally.total - tally.passing + |Filter(FailedRecord(tenant), b.records[|a.records|..])|
  {
    var a, b := Run(Empty, steps).db, Run(Empty, steps + more).db;
    RecordsAreImmutable(steps, more);
    assert b.records == a.records + b.records[|a.records|..];
    SummaryReplies(a, b, tenant, early, late);
    SummaryCounts(a.records, b.records[|a.records|..], tenant, late);
    CountsSplit(a.records, tenant, late);
    PassRateRange(|Filter(PassedRecord(tenant), a.records)|, |Filter(OwnRecord(tenant), a.records)|);
  }
}
