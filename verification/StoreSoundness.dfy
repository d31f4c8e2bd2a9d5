/** What every statement of every handler can rely on: its uuids are new and its rows are its own tenant's. */
module StoreSoundness {
  import opened Wrappers
  import opened Rows
  import opened Engine
  import opened Store
  import opened Handlers
  import opened StoreRuns

  predicate OwnsDevice(devices: seq<Device>, tenant: Tenant, id: Id) {
    exists d :: d in devices && ThisDevice(tenant, id)(d)
  }

  predicate OwnsRecord(records: seq<Record>, tenant: Tenant, id: Id) {
    exists r :: r in records && ThisRecord(tenant, id)(r)
  }

  /** No row refers to this record yet. */
  predicate RecordUnborn(db: Db, id: Id) {
    !HasRecord(db.records, id) && forall m :: m in db.measurements ==> m.recordId != id
  }

  predicate PointsUnborn(measurements: seq<Measurement>, ids: seq<Id>) {
    forall id :: id in ids ==> !HasPoint(measurements, id)
  }

  predicate PointsNamed(points: seq<Measurement>, recordId: Id, ids: seq<Id>) {
    |points| == |ids| && forall i :: 0 <= i < |points| ==> points[i].id == ids[i] && points[i].recordId == recordId
  }

  // ----- one session

  /** The uuids of a request that has not inserted its rows are not in any table. */
  predicate Unborn(db: Db, session: Session) {
    match session.op
    case CreateDevice(id, _) => session.local.Begin? ==> !HasDevice(db.devices, id)
    case CreateCalibration(_, recordId, pointIds, _) =>
      session.local.Begin? || session.local.Evaluated? ==>
        RecordUnborn(db, recordId) && PointsUnborn(db.measurements, pointIds)
    case _ => true
  }

  predicate Fits(db: Db, tenant: Tenant, session: Session) {
    match session.local
    case Evaluated(record, points) =>
      && session.op.CreateCalibration? && record.id == session.op.recordId && record.tenantId == tenant
      && OwnsDevice(db.devices, tenant, record.deviceId)
      && PointsNamed(points, record.id, session.op.pointIds)
    case Opened(record) => OwnsRecord(db.records, tenant, record.id)
    case Loading(_, _, rest) => forall r :: r in rest ==> OwnsRecord(db.records, tenant, r.id)
    case _ => true
  }

  predicate DistinctIds(ids: seq<Id>) {
    forall i, j :: 0 <= i < j < |ids| ==> ids[i] != ids[j]
  }

  predicate SessionOk(db: Db, used: set<Id>, tenant: Tenant, session: Session) {
    && WellFormed(session.op) && Unborn(db, session) && Fits(db, tenant, session)
    && DistinctIds(IdsOf(session.op)) && (forall id :: id in IdsOf(session.op) ==> id in used)
  }

  // ----- the world

  predicate TablesUse(db: Db, used: set<Id>) {
    && (forall d :: d in db.devices ==> d.id in used)
    && (forall r :: r in db.records ==> r.id in used)
    && (forall m :: m in db.measurements ==> m.id in used && HasRecord(db.records, m.recordId))
  }

  predicate Apart(a: Operation, b: Operation) {
    forall id :: id in IdsOf(a) ==> id !in IdsOf(b)
  }

  ghost predicate Sound(w: World, used: set<Id>) {
    && TablesUse(w.db, used)
    && (forall k :: k in w.sessions ==> SessionOk(w.db, used, k.tenant, w.sessions[k]))
    && (forall k, l :: k in w.sessions && l in w.sessions && k != l ==> Apart(w.sessions[k].op, w.sessions[l].op))
  }

  // ----- statements

  function IdsIn(statement: Statement): seq<Id> {
    match statement
    case InsertDevice(d) => [d.id]
    case InsertRecord(record, points) => [record.id] + seq(|points|, i requires 0 <= i < |points| => points[i].id)
    case _ => []
  }

  /** What a handler has established when it sends the statement. */
  predicate StatementOk(db: Db, tenant: Tenant, statement: Statement) {
    match statement
    case InsertDevice(d) => !HasDevice(db.devices, d.id)
    case InsertRecord(record, points) =>
      && RecordUnborn(db, record.id) && record.tenantId == tenant && OwnsDevice(db.devices, tenant, record.deviceId)
      && (forall i :: 0 <= i < |points| ==> points[i].recordId == record.id && !HasPoint(db.measurements, points[i].id))
      && (forall i, j :: 0 <= i < j < |points| ==> points[i].id != points[j].id)
    case LoadMeasurements(id) => OwnsRecord(db.records, tenant, id)
    case _ => true
  }

  lemma RecordIsInsertable(db: Db, tenant: Tenant, statement: Statement)
    requires statement.InsertRecord? && StatementOk(db, tenant, statement)
    ensures Insertable(db, statement.record, statement.points)
  {
    var d :| d in db.devices && ThisDevice(tenant, statement.record.deviceId)(d);
    assert HasDevice(db.devices, statement.record.deviceId);
  }

  lemma SessionSendsOk(db: Db, used: set<Id>, tenant: Tenant, session: Session)
    requires SessionOk(db, used, tenant, session) && Active(session.local)
    ensures StatementOk(db, tenant, StatementOf(session))
    ensures forall id :: id in IdsIn(StatementOf(session)) ==> id in IdsOf(session.op)
  {
    match session.local
    case Evaluated(record, points) =>
      var ids := session.op.pointIds;
      forall i | 0 <= i < |points| ensures !HasPoint(db.measurements, points[i].id) { assert ids[i] in ids; }
      forall i, j | 0 <= i < j < |points| ensures points[i].id != points[j].id {
        assert IdsOf(session.op)[i + 1] == ids[i] && IdsOf(session.op)[j + 1] == ids[j];
      }
    case Loading(_, _, rest) => assert rest[0] in rest;
    case _ =>
  }

  // ----- how the tables change

  /** Rows stay, with their ids and tenants; the only new ones have the given ids. */
  ghost predicate Grows(a: Db, b: Db, ids: seq<Id>) {
    && (forall t: Tenant, id: Id :: OwnsDevice(a.devices, t, id) ==> OwnsDevice(b.devices, t, id))
    && a.records <= b.records
    && (forall d :: d in b.devices ==> HasDevice(a.devices, d.id) || d.id in ids)
    && (forall r :: r in b.records ==> r in a.records || r.id in ids)
    && (forall m :: m in b.measurements ==> m in a.measurements || (m.id in ids && m.recordId in ids))
    && (forall m :: m in b.measurements ==> m in a.measurements || HasRecord(b.records, m.recordId))
  }

  lemma UpdateGrows(db: Db, f: Device -> Device)
    requires forall d :: f(d).id == d.id && f(d).tenantId == d.tenantId
    ensures Grows(db, db.(devices := Apply(f, db.devices)), [])
  {
    var b := Apply(f, db.devices);
    forall d | d in b ensures HasDevice(db.devices, d.id) {
      var i :| 0 <= i < |b| && b[i] == d;
      assert db.devices[i] in db.devices;
    }
    forall t: Tenant, id: Id | OwnsDevice(db.devices, t, id) ensures OwnsDevice(b, t, id) {
      var d :| d in db.devices && ThisDevice(t, id)(d);
      var i :| 0 <= i < |db.devices| && db.devices[i] == d;
      assert b[i] in b && ThisDevice(t, id)(b[i]);
    }
  }

  lemma InsertDeviceGrows(db: Db, d: Device)
    ensures Grows(db, db.(devices := db.devices + [d]), [d.id])
  {
    forall t: Tenant, id: Id | OwnsDevice(db.devices, t, id) ensures OwnsDevice(db.devices + [d], t, id) {
      var e :| e in db.devices && ThisDevice(t, id)(e);
      assert e in db.devices + [d];
    }
    forall e | e in db.devices + [d] ensures HasDevice(db.devices, e.id) || e.id == d.id {}
  }

  lemma InsertRecordGrows(db: Db, record: Record, points: seq<Measurement>)
    requires forall i :: 0 <= i < |points| ==> points[i].recordId == record.id
    ensures Grows(db, db.(records := db.records + [record], measurements := db.measurements + points),
                  IdsIn(InsertRecord(record, points)))
  {
    var ids := IdsIn(InsertRecord(record, points));
    assert ids[0] == record.id;
    assert record in db.records + [record];
    assert HasRecord(db.records + [record], record.id);
    forall m | m in points ensures m.id in ids && m.recordId in ids {
      var i :| 0 <= i < |points| && points[i] == m;
      assert ids[i + 1] == m.id;
    }
  }

  lemma EffectGrows(db: Db, tenant: Tenant, statement: Statement, now: int)
    requires StatementOk(db, tenant, statement)
    ensures Grows(db, Effect(db, tenant, statement, now), IdsIn(statement))
  {
    match statement
    case InsertDevice(d) => InsertDeviceGrows(db, StampedWith(d, tenant, now));
    case UpdateFields(c) => UpdateGrows(db, SetFields(tenant, c));
    case Stamp(id, at) => UpdateGrows(db, SetStamp(tenant, id, at));
    case InsertRecord(record, points) =>
      assert record.(tenantId := tenant) == record;
      InsertRecordGrows(db, record, points);
    case _ =>
  }

  lemma TablesStayUsed(a: Db, b: Db, ids: seq<Id>, used: set<Id>)
    requires TablesUse(a, used) && Grows(a, b, ids) && forall id :: id in ids ==> id in used
    ensures TablesUse(b, used)
  {
    forall m | m in b.measurements ensures m.id in used && HasRecord(b.records, m.recordId) {
      if m in a.measurements {
        var r :| r in a.records && r.id == m.recordId;
        assert r in b.records;
      }
    }
    forall d | d in b.devices ensures d.id in used {
      if d.id !in ids {
        var e :| e in a.devices && e.id == d.id;
      }
    }
  }

  lemma OwnedStays(a: Db, b: Db, ids: seq<Id>, tenant: Tenant, id: Id)
    requires Grows(a, b, ids) && OwnsRecord(a.records, tenant, id)
    ensures OwnsRecord(b.records, tenant, id)
  {
    var r :| r in a.records && ThisRecord(tenant, id)(r);
    assert r in b.records;
  }

  lemma FitsStays(a: Db, b: Db, ids: seq<Id>, tenant: Tenant, session: Session)
    requires Grows(a, b, ids) && Fits(a, tenant, session)
    ensures Fits(b, tenant, session)
  {
    match session.local
    case Opened(record) => OwnedStays(a, b, ids, tenant, record.id);
    case Loading(_, _, rest) =>
      forall r | r in rest ensures OwnsRecord(b.records, tenant, r.id) { OwnedStays(a, b, ids, tenant, r.id); }
    case _ =>
  }

  lemma UnbornStays(a: Db, b: Db, ids: seq<Id>, session: Session)
    requires Grows(a, b, ids) && Unborn(a, session) && forall id :: id in ids ==> id !in IdsOf(session.op)
    ensures Unborn(b, session)
  {
    match session.op
    case CreateDevice(id, _) =>
      assert IdsOf(session.op)[0] == id;
      if session.local.Begin? {
        forall d | d in b.devices ensures d.id != id { assert HasDevice(a.devices, d.id) || d.id in ids; }
      }
    case CreateCalibration(_, recordId, pointIds, _) =>
      assert IdsOf(session.op)[0] == recordId;
      if session.local.Begin? || session.local.Evaluated? {
        forall id | id in pointIds ensures !HasPoint(b.measurements, id) {
          var i :| 0 <= i < |pointIds| && pointIds[i] == id;
          assert IdsOf(session.op)[i + 1] == id;
          forall m | m in b.measurements ensures m.id != id { assert m in a.measurements || m.id in ids; }
        }
      }
    case _ =>
  }

  // ----- the answers are the tenant's own

  lemma AnswersAreOwn(db: Db, tenant: Tenant, statement: Statement, now: int, fault: Fault)
    ensures var answer := Observed(Reply(db, tenant, statement, now), fault);
            && (answer.DeviceRow? ==>
                  && answer.device in db.devices && statement.SelectDevice?
                  && ThisDevice(tenant, statement.id)(answer.device))
            && (answer.RecordRow? ==>
                  && answer.record in db.records && statement.SelectRecord?
                  && ThisRecord(tenant, statement.id)(answer.record))
            && (answer.RecordRows? ==> forall r :: r in answer.records ==> r in db.records && OwnRecord(tenant)(r))
  {
    match statement
    case SelectDevice(id) =>
      var found := Filter(ThisDevice(tenant, id), db.devices);
      if found != [] { assert found[0] in found; }
    case SelectRecord(id) =>
      var found := Filter(ThisRecord(tenant, id), db.records);
      if found != [] { assert found[0] in found; }
    case PageRecords(onDevice, limit, offset) =>
      var rows := Slice(SortBy(NewestRecord(), Filter(RecordsOn(tenant, onDevice), db.records)), offset, limit);
      if fault.CutShort? { assert forall r :: r in Take(rows, fault.rows) ==> r in rows; }
    case _ =>
  }

  // ----- sessions stay sound

  lemma StartedFits(db: Db, tenant: Tenant, session: Session, fault: Fault, now: int)
    requires WellFormed(session.op) && session.local.Begin? && Unborn(db, session)
    ensures var answer := Observed(Reply(db, tenant, FirstStatement(session.op), now), fault);
            var after := Started(tenant, session, answer, now);
            after.op == session.op && Fits(db, tenant, after) && (after.local.Evaluated? ==> Unborn(db, after))
  {
    AnswersAreOwn(db, tenant, FirstStatement(session.op), now, fault);
  }

  lemma ContinuedFits(db: Db, tenant: Tenant, local: Local, answer: Answer, session: Session)
    requires Active(local) && !local.Begin? && Fits(db, tenant, session) && session.local == local
    requires answer.RecordRows? ==> forall r :: r in answer.records ==> OwnsRecord(db.records, tenant, r.id)
    ensures Fits(db, tenant, session.(local := Continued(local, answer)))
    ensures !Continued(local, answer).Begin? && !Continued(local, answer).Evaluated?
  {}

  lemma ResumedOk(db: Db, used: set<Id>, tenant: Tenant, session: Session, fault: Fault, now: int)
    requires SessionOk(db, used, tenant, session) && Active(session.local)
    ensures var statement := StatementOf(session);
            var after := Resume(tenant, session, Observed(Reply(db, tenant, statement, now), fault), now);
            SessionOk(After(db, tenant, statement, fault, now), used, tenant, after) && after.op == session.op
  {
    var statement := StatementOf(session);
    var answer := Observed(Reply(db, tenant, statement, now), fault);
    var b := After(db, tenant, statement, fault, now);
    var after := Resume(tenant, session, answer, now);
    SessionSendsOk(db, used, tenant, session);
    EffectGrows(db, tenant, statement, now);
    NothingGrows(db);
    AnswersAreOwn(db, tenant, statement, now, fault);
    if session.local.Begin? {
      StartedFits(db, tenant, session, fault, now);
    } else {
      ContinuedFits(db, tenant, session.local, answer, session);
    }
    FitsStays(db, b, IdsIn(statement), tenant, after);
    if after.local.Evaluated? {
      assert b == db;
    }
  }

  lemma NothingGrows(db: Db)
    ensures forall ids :: Grows(db, db, ids)
  {
    forall d | d in db.devices ensures HasDevice(db.devices, d.id) {}
  }

  lemma OthersStayOk(a: Db, b: Db, ids: seq<Id>, used: set<Id>, tenant: Tenant, session: Session)
    requires Grows(a, b, ids) && SessionOk(a, used, tenant, session)
    requires forall id :: id in ids ==> id !in IdsOf(session.op)
    ensures SessionOk(b, used, tenant, session)
  {
    FitsStays(a, b, ids, tenant, session);
    UnbornStays(a, b, ids, session);
  }

  lemma AdvanceIsSound(w: World, used: set<Id>, key: Key, fault: Fault, now: int)
    requires Sound(w, used) && key in w.sessions && Active(w.sessions[key].local)
    ensures Sound(Advanced(w, key, fault, now), used)
  {
    var session := w.sessions[key];
    var statement := StatementOf(session);
    var b, t := After(w.db, key.tenant, statement, fault, now), Advanced(w, key, fault, now);
    assert SessionOk(w.db, used, key.tenant, session);
    SessionSendsOk(w.db, used, key.tenant, session);
    EffectGrows(w.db, key.tenant, statement, now);
    NothingGrows(w.db);
    assert Grows(w.db, b, IdsIn(statement));
    TablesStayUsed(w.db, b, IdsIn(statement), used);
    ResumedOk(w.db, used, key.tenant, session, fault, now);
    forall k | k in t.sessions
      ensures SessionOk(b, used, k.tenant, t.sessions[k]) && t.sessions[k].op == w.sessions[k].op
    {
      if k != key {
        assert Apart(session.op, w.sessions[k].op);
        OthersStayOk(w.db, b, IdsIn(statement), used, k.tenant, w.sessions[k]);
      }
    }
  }

  lemma NewIsUnborn(db: Db, used: set<Id>, op: Operation)
    requires TablesUse(db, used) && NewIds(used, IdsOf(op))
    ensures Unborn(db, Accept(op))
  {
    match op
    case CreateDevice(id, _) => assert IdsOf(op)[0] == id;
    case CreateCalibration(_, recordId, pointIds, _) =>
      assert IdsOf(op)[0] == recordId;
      forall id | id in pointIds ensures id !in used {
        var i :| 0 <= i < |pointIds| && pointIds[i] == id;
        assert IdsOf(op)[i + 1] == id;
      }
      forall m | m in db.measurements ensures m.recordId != recordId {
        var r :| r in db.records && r.id == m.recordId;
      }
    case _ =>
  }

  lemma ArriveIsSound(w: World, used: set<Id>, key: Key, op: Operation)
    requires Sound(w, used) && key !in w.sessions && WellFormed(op) && NewIds(used, IdsOf(op))
    ensures Sound(Begun(w, key, op), UsedBy(used, Arrive(key, op)))
  {
    var more, t := UsedBy(used, Arrive(key, op)), Begun(w, key, op);
    NewIsUnborn(w.db, used, op);
    forall k | k in t.sessions ensures SessionOk(t.db, more, k.tenant, t.sessions[k]) {
      if k != key { assert SessionOk(w.db, used, k.tenant, w.sessions[k]); }
    }
    forall k, l | k in t.sessions && l in t.sessions && k != l ensures Apart(t.sessions[k].op, t.sessions[l].op) {
      if k != key { assert SessionOk(w.db, used, k.tenant, w.sessions[k]); }
      if l != key { assert SessionOk(w.db, used, l.tenant, w.sessions[l]); }
    }
  }

  lemma SoundMore(w: World, used: set<Id>, more: set<Id>)
    requires Sound(w, used) && used <= more
    ensures Sound(w, more)
  {
    forall k | k in w.sessions ensures SessionOk(w.db, more, k.tenant, w.sessions[k]) {
      assert SessionOk(w.db, used, k.tenant, w.sessions[k]);
    }
  }

  lemma SoundStep(w: World, used: set<Id>, step: Step)
    requires Sound(w, used) && (step.Arrive? ==> NewIds(used, IdsOf(step.op)))
    ensures Sound(Next(w, step), UsedBy(used, step))
  {
    if !Enabled(w, step) {
      SoundMore(w, used, UsedBy(used, step));
    } else if step.Arrive? {
      ArriveIsSound(w, used, step.key, step.op);
    } else {
      AdvanceIsSound(w, used, step.key, step.fault, step.now);
      assert UsedBy(used, step) == used;
    }
  }

  lemma EmptyIsSound(used: set<Id>)
    ensures Sound(Empty, used)
  {}
}
