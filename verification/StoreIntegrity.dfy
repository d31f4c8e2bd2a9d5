/** Stored calibration records: whole, immutable, and what was submitted and evaluated. */
module StoreIntegrity {
  import opened Wrappers
  import opened Rows
  import opened Engine
  import opened Store
  import opened Handlers
  import opened StoreRuns
  import opened StoreSoundness

  function PointsOf(db: Db, id: Id): seq<Measurement> {
    Filter(OfRecord(id), db.measurements)
  }

  /** The record and its points are what the request's submission evaluates to under the tolerance it read. */
  predicate Evaluates(tenant: Tenant, session: Session, record: Record, points: seq<Measurement>) {
    && session.op.CreateCalibration? && WellFormed(session.op) && session.tolerance.Some?
    && points == Points(session.op.recordId, session.op.pointIds, session.op.calibration.inputs,
                        session.tolerance.value)
    && record == NewRecord(tenant, session.op, points, record.createdAt)
  }

  predicate Submitted(db: Db, sessions: map<Key, Session>, key: Key, record: Record) {
    && key in sessions && key.tenant == record.tenantId
    && Evaluates(key.tenant, sessions[key], record, PointsOf(db, record.id))
  }

  ghost predicate RecordKept(db: Db, sessions: map<Key, Session>, record: Record) {
    && OwnsDevice(db.devices, record.tenantId, record.deviceId)
    && exists key :: Submitted(db, sessions, key, record)
  }

  predicate StoredWhole(db: Db, tenant: Tenant, full: FullRecord) {
    full.record in db.records && full.record.tenantId == tenant && full.measurements == PointsOf(db, full.record.id)
  }

  /** A record as a read shows it: all of it, or the first rows of it where the result set was cut short. */
  predicate Shown(db: Db, tenant: Tenant, full: FullRecord) {
    && full.record in db.records && full.record.tenantId == tenant
    && full.measurements <= SortBy(ById(), PointsOf(db, full.record.id))
  }

  predicate LocalKept(db: Db, tenant: Tenant, session: Session) {
    match session.local
    case Begin => session.tolerance.None?
    case Evaluated(record, points) => Evaluates(tenant, session, record, points)
    case Stored(record, points) => StoredWhole(db, tenant, FullRecord(record, points))
    case Opened(record) => record in db.records && record.tenantId == tenant
    case Loading(_, loaded, rest) =>
      && (forall full :: full in loaded ==> Shown(db, tenant, full))
      && (forall r :: r in rest ==> r in db.records && r.tenantId == tenant)
    case Finished(Created(full)) => StoredWhole(db, tenant, full)
    case Finished(RecordBody(full)) => Shown(db, tenant, full)
    case Finished(RecordPage(records, _)) => forall full :: full in records ==> Shown(db, tenant, full)
    case _ => true
  }

  /** A stamp is the measurement time of a stored record of the device. */
  predicate StampKept(records: seq<Record>, d: Device) {
    d.lastCalibratedAt.Some? ==>
      exists r :: r in records && r.tenantId == d.tenantId && r.deviceId == d.id
               && r.measuredAt == d.lastCalibratedAt.value
  }

  ghost predicate Kept(w: World) {
    && RecordsKept(w.db, w.sessions)
    && (forall k :: k in w.sessions ==> LocalKept(w.db, k.tenant, w.sessions[k]))
    && (forall d :: d in w.db.devices ==> StampKept(w.db.records, d))
  }

  // ----- records are only added, and their points stay

  ghost predicate Extends(a: Db, b: Db) {
    && a.records <= b.records
    && (forall r :: r in a.records ==> PointsOf(b, r.id) == PointsOf(a, r.id))
    && (forall t: Tenant, id: Id :: OwnsDevice(a.devices, t, id) ==> OwnsDevice(b.devices, t, id))
  }

  lemma InsertExtends(db: Db, record: Record, points: seq<Measurement>, r: Record)
    requires !HasRecord(db.records, record.id) && r in db.records
    requires forall m :: m in points ==> m.recordId == record.id
    ensures PointsOf(db.(records := db.records + [record], measurements := db.measurements + points), r.id)
            == PointsOf(db, r.id)
  {
    FilterConcat(OfRecord(r.id), db.measurements, points);
    FilterNone(OfRecord(r.id), points);
  }

  lemma EffectExtends(db: Db, tenant: Tenant, statement: Statement, now: int)
    requires StatementOk(db, tenant, statement)
    ensures Extends(db, Effect(db, tenant, statement, now))
  {
    EffectGrows(db, tenant, statement, now);
    if statement.InsertRecord? {
      forall r | r in db.records ensures PointsOf(Effect(db, tenant, statement, now), r.id) == PointsOf(db, r.id) {
        InsertExtends(db, statement.record, statement.points, r);
      }
    }
  }

  /** The inserted record has the inserted points and no others. */
  lemma InsertedWhole(db: Db, record: Record, points: seq<Measurement>)
    requires RecordUnborn(db, record.id) && forall m :: m in points ==> m.recordId == record.id
    ensures PointsOf(db.(records := db.records + [record], measurements := db.measurements + points),
                     record.id) == points
  {
    FilterConcat(OfRecord(record.id), db.measurements, points);
    FilterNone(OfRecord(record.id), db.measurements);
    FilterAll(OfRecord(record.id), points);
    assert [] + points == points;
  }

  lemma LocalStaysKept(a: Db, b: Db, tenant: Tenant, session: Session)
    requires Extends(a, b) && LocalKept(a, tenant, session)
    ensures LocalKept(b, tenant, session)
  {
    assert forall r :: r in a.records ==> r in b.records;
  }

  lemma RecordStaysKept(a: Db, sessions: map<Key, Session>, b: Db, more: map<Key, Session>, record: Record)
    requires Extends(a, b) && record in a.records && RecordKept(a, sessions, record)
    requires forall k :: k in sessions && sessions[k].tolerance.Some? ==>
               k in more && more[k].op == sessions[k].op && more[k].tolerance == sessions[k].tolerance
    ensures RecordKept(b, more, record)
  {
    var key :| Submitted(a, sessions, key, record);
    assert Submitted(b, more, key, record);
  }

  // ----- what a session makes of the answers

  lemma AnswerRows(db: Db, tenant: Tenant, statement: Statement, now: int, fault: Fault)
    ensures var answer := Observed(Reply(db, tenant, statement, now), fault);
            answer.MeasurementRows? ==>
              statement.LoadMeasurements? && answer.points <= SortBy(ById(), PointsOf(db, statement.id))
  {}

  lemma StartedKept(db: Db, tenant: Tenant, session: Session, fault: Fault, now: int)
    requires WellFormed(session.op) && session.local.Begin?
    ensures var answer := Observed(Reply(db, tenant, FirstStatement(session.op), now), fault);
            LocalKept(db, tenant, Started(tenant, session, answer, now))
  {
    AnswersAreOwn(db, tenant, FirstStatement(session.op), now, fault);
    AnswerRows(db, tenant, FirstStatement(session.op), now, fault);
  }

  lemma ReadKept(db: Db, tenant: Tenant, session: Session, fault: Fault, now: int)
    requires Active(session.local) && LocalKept(db, tenant, session)
    requires session.local.Opened? || session.local.Loading? || session.local.RecordsCounted?
    ensures var answer := Observed(Reply(db, tenant, StatementOf(session), now), fault);
            LocalKept(db, tenant, session.(local := Continued(session.local, answer)))
  {
    AnswersAreOwn(db, tenant, StatementOf(session), now, fault);
    AnswerRows(db, tenant, StatementOf(session), now, fault);
    if session.local.Loading? {
      assert session.local.rest[0] in session.local.rest;
    }
  }

  lemma InsertKept(db: Db, tenant: Tenant, session: Session, fault: Fault, now: int)
    requires session.local.Evaluated? && StatementOk(db, tenant, StatementOf(session))
    ensures var answer := Observed(Reply(db, tenant, StatementOf(session), now), fault);
            LocalKept(After(db, tenant, StatementOf(session), fault, now), tenant,
                      session.(local := Continued(session.local, answer)))
  {
    var record, points := session.local.record, session.local.points;
    RecordIsInsertable(db, tenant, StatementOf(session));
    assert record.(tenantId := tenant) == record;
    assert record in db.records + [record];
    InsertedWhole(db, record, points);
  }

  lemma ResumedKept(db: Db, tenant: Tenant, session: Session, fault: Fault, now: int)
    requires WellFormed(session.op) && Active(session.local) && LocalKept(db, tenant, session)
    requires StatementOk(db, tenant, StatementOf(session))
    ensures var answer := Observed(Reply(db, tenant, StatementOf(session), now), fault);
            LocalKept(After(db, tenant, StatementOf(session), fault, now), tenant, Resume(tenant, session, answer, now))
  {
    var b := After(db, tenant, StatementOf(session), fault, now);
    var answer := Observed(Reply(db, tenant, StatementOf(session), now), fault);
    EffectExtends(db, tenant, StatementOf(session), now);
    if session.local.Begin? {
      StartedKept(db, tenant, session, fault, now);
      LocalStaysKept(db, b, tenant, Resume(tenant, session, answer, now));
    } else if session.local.Evaluated? {
      InsertKept(db, tenant, session, fault, now);
    } else if session.local.Opened? || session.local.Loading? || session.local.RecordsCounted? {
      ReadKept(db, tenant, session, fault, now);
    } else {
      LocalStaysKept(db, b, tenant, session);
      assert Resume(tenant, session, answer, now) == session.(local := Continued(session.local, answer));
    }
  }

  // ----- stamps

  lemma StampStays(a: Db, records: seq<Record>, d: Device)
    requires a.records <= records && StampKept(a.records, d)
    ensures StampKept(records, d)
  {
    if d.lastCalibratedAt.Some? {
      var r :| r in a.records && r.tenantId == d.tenantId && r.deviceId == d.id
               && r.measuredAt == d.lastCalibratedAt.value;
      assert r in records;
    }
  }

  lemma AppliedStamps(db: Db, f: Device -> Device)
    requires forall d :: d in db.devices ==> StampKept(db.records, f(d))
    ensures forall d :: d in Apply(f, db.devices) ==> StampKept(db.records, d)
  {
    forall d | d in Apply(f, db.devices) ensures StampKept(db.records, d) {
      var i :| 0 <= i < |db.devices| && Apply(f, db.devices)[i] == d;
      assert db.devices[i] in db.devices;
    }
  }

  /** What the sender of a statement knows of the stamp it writes. */
  predicate StampSent(db: Db, tenant: Tenant, statement: Statement) {
    match statement
    case InsertDevice(d) => d.lastCalibratedAt.None?
    case Stamp(id, at) => exists r :: r in db.records && r.tenantId == tenant && r.deviceId == id && r.measuredAt == at
    case _ => true
  }

  lemma EffectStamps(db: Db, tenant: Tenant, statement: Statement, now: int)
    requires StampSent(db, tenant, statement) && forall d :: d in db.devices ==> StampKept(db.records, d)
    ensures var b := Effect(db, tenant, statement, now); forall d :: d in b.devices ==> StampKept(b.records, d)
  {
    match statement
    case UpdateFields(c) => AppliedStamps(db, SetFields(tenant, c));
    case Stamp(id, at) => AppliedStamps(db, SetStamp(tenant, id, at));
    case InsertRecord(record, points) =>
      var b := Effect(db, tenant, statement, now);
      forall d | d in b.devices ensures StampKept(b.records, d) { StampStays(db, b.records, d); }
    case _ =>
  }

  lemma SessionStampSent(db: Db, tenant: Tenant, session: Session)
    requires Active(session.local) && LocalKept(db, tenant, session)
    ensures StampSent(db, tenant, StatementOf(session))
  {}

  // ----- every run

  /** A request keeps its operation, and the tolerance once it has one. */
  lemma TolerancesStay(w: World, key: Key, fault: Fault, now: int)
    requires key in w.sessions && WellFormed(w.sessions[key].op) && Active(w.sessions[key].local)
    requires LocalKept(w.db, key.tenant, w.sessions[key])
    ensures var t := Advanced(w, key, fault, now);
            && t.sessions[key].op == w.sessions[key].op
            && (w.sessions[key].tolerance.Some? ==> t.sessions[key].tolerance == w.sessions[key].tolerance)
  {}

  ghost predicate RecordsKept(db: Db, sessions: map<Key, Session>) {
    && (forall r :: r in db.records ==> RecordKept(db, sessions, r))
    && (forall i, j :: 0 <= i < j < |db.records| ==> db.records[i].id != db.records[j].id)
  }

  lemma OldRecordsKept(w: World, b: Db, more: map<Key, Session>)
    requires RecordsKept(w.db, w.sessions) && Extends(w.db, b)
    requires forall k :: k in w.sessions && w.sessions[k].tolerance.Some? ==>
               k in more && more[k].op == w.sessions[k].op && more[k].tolerance == w.sessions[k].tolerance
    ensures forall r :: r in w.db.records ==> RecordKept(b, more, r)
  {
    forall r | r in w.db.records ensures RecordKept(b, more, r) {
      RecordStaysKept(w.db, w.sessions, b, more, r);
    }
  }

  lemma NewRecordKept(db: Db, sessions: map<Key, Session>, key: Key, record: Record, points: seq<Measurement>)
    requires StatementOk(db, key.tenant, InsertRecord(record, points))
    requires key in sessions && Evaluates(key.tenant, sessions[key], record, points)
    ensures var b := db.(records := db.records + [record], measurements := db.measurements + points);
            RecordKept(b, sessions, record)
  {
    var b := db.(records := db.records + [record], measurements := db.measurements + points);
    InsertedWhole(db, record, points);
    assert Submitted(b, sessions, key, record);
  }

  lemma AppendedRecord(records: seq<Record>, record: Record)
    requires !HasRecord(records, record.id)
    requires forall i, j :: 0 <= i < j < |records| ==> records[i].id != records[j].id
    ensures var more := records + [record]; forall i, j :: 0 <= i < j < |more| ==> more[i].id != more[j].id
  {
    forall i | 0 <= i < |records| ensures records[i].id != record.id { assert records[i] in records; }
  }

  lemma AdvanceKeepsRecords(w: World, used: set<Id>, key: Key, fault: Fault, now: int)
    requires Sound(w, used) && Kept(w) && key in w.sessions && Active(w.sessions[key].local)
    ensures var t := Advanced(w, key, fault, now); Extends(w.db, t.db) && RecordsKept(t.db, t.sessions)
  {
    var session, t := w.sessions[key], Advanced(w, key, fault, now);
    var statement := StatementOf(session);
    assert SessionOk(w.db, used, key.tenant, session) && LocalKept(w.db, key.tenant, session);
    SessionSendsOk(w.db, used, key.tenant, session);
    EffectExtends(w.db, key.tenant, statement, now);
    TolerancesStay(w, key, fault, now);
    OldRecordsKept(w, t.db, t.sessions);
    if statement.InsertRecord? && !fault.Refused? {
      InsertKeepsRecords(w, key, fault, now);
    }
  }

  lemma InsertKeepsRecords(w: World, key: Key, fault: Fault, now: int)
    requires key in w.sessions && WellFormed(w.sessions[key].op) && w.sessions[key].local.Evaluated?
    requires RecordsKept(w.db, w.sessions) && LocalKept(w.db, key.tenant, w.sessions[key])
    requires StatementOk(w.db, key.tenant, StatementOf(w.sessions[key])) && !fault.Refused?
    requires var t := Advanced(w, key, fault, now); forall r :: r in w.db.records ==> RecordKept(t.db, t.sessions, r)
    ensures var t := Advanced(w, key, fault, now); RecordsKept(t.db, t.sessions)
  {
    var t, record, points := Advanced(w, key, fault, now), w.sessions[key].local.record, w.sessions[key].local.points;
    RecordIsInsertable(w.db, key.tenant, InsertRecord(record, points));
    assert record.(tenantId := key.tenant) == record;
    NewRecordKept(w.db, t.sessions, key, record, points);
    AppendedRecord(w.db.records, record);
  }

  lemma AdvanceIsKept(w: World, used: set<Id>, key: Key, fault: Fault, now: int)
    requires Sound(w, used) && Kept(w) && key in w.sessions && Active(w.sessions[key].local)
    ensures Kept(Advanced(w, key, fault, now))
  {
    var session, t := w.sessions[key], Advanced(w, key, fault, now);
    var statement := StatementOf(session);
    assert SessionOk(w.db, used, key.tenant, session) && LocalKept(w.db, key.tenant, session);
    SessionSendsOk(w.db, used, key.tenant, session);
    AdvanceKeepsRecords(w, used, key, fault, now);
    forall k | k in t.sessions ensures LocalKept(t.db, k.tenant, t.sessions[k]) {
      if k == key {
        ResumedKept(w.db, key.tenant, session, fault, now);
      } else {
        LocalStaysKept(w.db, t.db, k.tenant, w.sessions[k]);
      }
    }
    SessionStampSent(w.db, key.tenant, session);
    EffectStamps(w.db, key.tenant, statement, now);
  }

  lemma ArriveIsKept(w: World, key: Key, op: Operation)
    requires Kept(w) && key !in w.sessions
    ensures Kept(Begun(w, key, op))
  {
    var t := Begun(w, key, op);
    forall r | r in w.db.records ensures RecordKept(t.db, t.sessions, r) {
      RecordStaysKept(w.db, w.sessions, t.db, t.sessions, r);
    }
  }

  lemma KeptStep(w: World, used: set<Id>, step: Step)
    requires Sound(w, used) && Kept(w)
    ensures Kept(Next(w, step)) && Extends(w.db, Next(w, step).db)
  {
    if Enabled(w, step) {
      match step
      case Arrive(key, op) => ArriveIsKept(w, key, op);
      case Advance(key, fault, now) =>
        AdvanceIsKept(w, used, key, fault, now);
        AdvanceKeepsRecords(w, used, key, fault, now);
    }
  }

  lemma {:induction false} KeptRun(w: World, used: set<Id>, steps: seq<Step>)
    requires Sound(w, used) && Kept(w) && FreshIds(used, steps)
    ensures Kept(Run(w, steps)) && Extends(w.db, Run(w, steps).db)
    decreases |steps|
  {
    if steps != [] {
      KeptStep(w, used, steps[0]);
      SoundStep(w, used, steps[0]);
      KeptRun(Next(w, steps[0]), UsedBy(used, steps[0]), steps[1..]);
    }
  }

  lemma EveryRunIsKept(steps: seq<Step>)
    requires FreshIds({}, steps)
    ensures Kept(Run(Empty, steps))
  {
    EmptyIsSound({});
    KeptRun(Empty, {}, steps);
  }
}
