/** Noninterference: what a tenant sees of a run is the run of its own requests alone. */
module Tenancy {
  import opened Wrappers
  import opened Rows
  import opened Engine
  import opened Store
  import opened Handlers
  import opened StoreRuns
  import opened StoreSoundness

  /** A measurement is its record's tenant's. */
  function Belongs(records: seq<Record>, tenant: Tenant): Measurement -> bool {
    (m: Measurement) => OwnsRecord(records, tenant, m.recordId)
  }

  function DbOf(db: Db, tenant: Tenant): Db {
    Db(Filter(OwnDevice(tenant), db.devices), Filter(OwnRecord(tenant), db.records),
       Filter(Belongs(db.records, tenant), db.measurements))
  }

  function SessionsOf(sessions: map<Key, Session>, tenant: Tenant): map<Key, Session> {
    map k | k in sessions && k.tenant == tenant :: sessions[k]
  }

  /** The world as it is for one tenant. */
  function View(w: World, tenant: Tenant): World {
    World(DbOf(w.db, tenant), SessionsOf(w.sessions, tenant))
  }

  /** A run without the requests of the other tenants. */
  function Only(steps: seq<Step>, tenant: Tenant): seq<Step> {
    if steps == [] then [] else (if steps[0].key.tenant == tenant then [steps[0]] else []) + Only(steps[1..], tenant)
  }

  // ----- one statement of the tenant itself

  lemma ViewUpdates(db: Db, tenant: Tenant, f: Device -> Device)
    requires forall d :: f(d).tenantId == d.tenantId
    ensures DbOf(db.(devices := Apply(f, db.devices)), tenant)
            == DbOf(db, tenant).(devices := Apply(f, DbOf(db, tenant).devices))
  {
    FilterApply(OwnDevice(tenant), f, db.devices);
  }

  /** With a new id only a serial number can clash, and only one of the same tenant. */
  lemma ViewClashes(devices: seq<Device>, tenant: Tenant, d: Device)
    requires !HasDevice(devices, d.id)
    ensures Clashes(Filter(OwnDevice(tenant), devices), d, tenant) <==> Clashes(devices, d, tenant)
  {
    if Clashes(devices, d, tenant) {
      var e :| e in devices && (e.id == d.id || (e.serialNumber == d.serialNumber && e.tenantId == tenant));
      assert e in Filter(OwnDevice(tenant), devices);
    }
  }

  lemma ViewInsertsDevice(db: Db, tenant: Tenant, d: Device, now: int)
    ensures DbOf(db.(devices := db.devices + [StampedWith(d, tenant, now)]), tenant)
            == DbOf(db, tenant).(devices := DbOf(db, tenant).devices + [StampedWith(d, tenant, now)])
  {
    FilterConcat(OwnDevice(tenant), db.devices, [StampedWith(d, tenant, now)]);
  }

  lemma BelongsStays(records: seq<Record>, r: Record, tenant: Tenant, ms: seq<Measurement>)
    requires r.tenantId != tenant || forall m :: m in ms ==> m.recordId != r.id
    ensures Filter(Belongs(records + [r], tenant), ms) == Filter(Belongs(records, tenant), ms)
  {
    forall m | m in ms ensures Belongs(records + [r], tenant)(m) == Belongs(records, tenant)(m) {
      if OwnsRecord(records, tenant, m.recordId) {
        var e :| e in records && ThisRecord(tenant, m.recordId)(e);
        assert e in records + [r];
      }
    }
    FilterAgree(Belongs(records + [r], tenant), Belongs(records, tenant), ms);
  }

  lemma ViewInsertsRecord(db: Db, tenant: Tenant, r: Record, points: seq<Measurement>)
    requires r.tenantId == tenant && forall m :: m in db.measurements ==> m.recordId != r.id
    requires forall m :: m in points ==> m.recordId == r.id
    ensures DbOf(db.(records := db.records + [r], measurements := db.measurements + points), tenant)
            == DbOf(db, tenant).(records := DbOf(db, tenant).records + [r],
                                 measurements := DbOf(db, tenant).measurements + points)
  {
    FilterConcat(OwnRecord(tenant), db.records, [r]);
    FilterConcat(Belongs(db.records + [r], tenant), db.measurements, points);
    BelongsStays(db.records, r, tenant, db.measurements);
    assert ThisRecord(tenant, r.id)(r) && r in db.records + [r];
    FilterAll(Belongs(db.records + [r], tenant), points);
  }

  lemma ViewIsInsertable(db: Db, tenant: Tenant, statement: Statement)
    requires statement.InsertRecord? && StatementOk(db, tenant, statement)
    ensures StatementOk(DbOf(db, tenant), tenant, statement)
  {
    var d :| d in db.devices && ThisDevice(tenant, statement.record.deviceId)(d);
    assert d in DbOf(db, tenant).devices;
    forall i | 0 <= i < |statement.points|
      ensures !HasPoint(DbOf(db, tenant).measurements, statement.points[i].id)
    {
      assert !HasPoint(db.measurements, statement.points[i].id);
    }
  }

  lemma OwnEffect(db: Db, tenant: Tenant, statement: Statement, now: int)
    requires StatementOk(db, tenant, statement)
    ensures DbOf(Effect(db, tenant, statement, now), tenant) == Effect(DbOf(db, tenant), tenant, statement, now)
  {
    match statement
    case InsertDevice(d) =>
      ViewClashes(db.devices, tenant, d);
      ViewInsertsDevice(db, tenant, d, now);
    case UpdateFields(c) => ViewUpdates(db, tenant, SetFields(tenant, c));
    case Stamp(id, at) => ViewUpdates(db, tenant, SetStamp(tenant, id, at));
    case InsertRecord(r, points) =>
      RecordIsInsertable(db, tenant, statement);
      ViewIsInsertable(db, tenant, statement);
      RecordIsInsertable(DbOf(db, tenant), tenant, statement);
      assert r.(tenantId := tenant) == r;
      ViewInsertsRecord(db, tenant, r, points);
    case _ =>
  }

  lemma OwnMeasurements(db: Db, tenant: Tenant, id: Id)
    requires OwnsRecord(db.records, tenant, id)
    ensures Filter(OfRecord(id), DbOf(db, tenant).measurements) == Filter(OfRecord(id), db.measurements)
  {
    FilterTwice(OfRecord(id), Belongs(db.records, tenant), db.measurements);
  }

  lemma OwnDeviceRows(db: Db, tenant: Tenant, p: Device -> bool)
    requires forall d :: p(d) ==> OwnDevice(tenant)(d)
    ensures Filter(p, DbOf(db, tenant).devices) == Filter(p, db.devices)
  {
    FilterTwice(p, OwnDevice(tenant), db.devices);
  }

  lemma OwnRecordRows(db: Db, tenant: Tenant, p: Record -> bool)
    requires forall r :: p(r) ==> OwnRecord(tenant)(r)
    ensures Filter(p, DbOf(db, tenant).records) == Filter(p, db.records)
  {
    FilterTwice(p, OwnRecord(tenant), db.records);
  }

  lemma OwnReply(db: Db, tenant: Tenant, statement: Statement, now: int)
    requires StatementOk(db, tenant, statement)
    ensures Reply(DbOf(db, tenant), tenant, statement, now) == Reply(db, tenant, statement, now)
  {
    match statement
    case InsertDevice(d) => ViewClashes(db.devices, tenant, d);
    case SelectDevice(id) => OwnDeviceRows(db, tenant, ThisDevice(tenant, id));
    case InsertRecord(_, _) =>
      RecordIsInsertable(db, tenant, statement);
      ViewIsInsertable(db, tenant, statement);
      RecordIsInsertable(DbOf(db, tenant), tenant, statement);
    case SelectRecord(id) => OwnRecordRows(db, tenant, ThisRecord(tenant, id));
    case LoadMeasurements(id) => OwnMeasurements(db, tenant, id);
    case CountDevices => OwnDeviceRows(db, tenant, OwnDevice(tenant));
    case PageDevices(_, _) => OwnDeviceRows(db, tenant, OwnDevice(tenant));
    case CountRecords(device) => OwnRecordRows(db, tenant, RecordsOn(tenant, device));
    case PageRecords(device, _, _) => OwnRecordRows(db, tenant, RecordsOn(tenant, device));
    case Tally =>
      OwnRecordRows(db, tenant, OwnRecord(tenant));
      OwnRecordRows(db, tenant, PassedRecord(tenant));
    case CountRecentFails => OwnRecordRows(db, tenant, RecentFail(tenant, now));
    case _ =>
  }

  // ----- one statement of another tenant

  lemma ForeignUpdate(db: Db, tenant: Tenant, f: Device -> Device)
    requires forall d :: f(d).tenantId == d.tenantId && (d.tenantId == tenant ==> f(d) == d)
    ensures DbOf(db.(devices := Apply(f, db.devices)), tenant) == DbOf(db, tenant)
  {
    ViewUpdates(db, tenant, f);
    ApplySame(f, DbOf(db, tenant).devices);
  }

  lemma ForeignInsertsRecord(db: Db, tenant: Tenant, r: Record, points: seq<Measurement>)
    requires r.tenantId != tenant && !HasRecord(db.records, r.id)
    requires forall m :: m in points ==> m.recordId == r.id
    ensures DbOf(db.(records := db.records + [r], measurements := db.measurements + points), tenant) == DbOf(db, tenant)
  {
    FilterConcat(OwnRecord(tenant), db.records, [r]);
    FilterConcat(Belongs(db.records + [r], tenant), db.measurements, points);
    BelongsStays(db.records, r, tenant, db.measurements);
    forall m | m in points ensures !Belongs(db.records + [r], tenant)(m) {
      forall e | e in db.records + [r] ensures !ThisRecord(tenant, m.recordId)(e) {}
    }
    FilterNone(Belongs(db.records + [r], tenant), points);
  }

  lemma ForeignEffect(db: Db, other: Tenant, statement: Statement, now: int, tenant: Tenant)
    requires StatementOk(db, other, statement) && other != tenant
    ensures DbOf(Effect(db, other, statement, now), tenant) == DbOf(db, tenant)
  {
    match statement
    case InsertDevice(d) => FilterConcat(OwnDevice(tenant), db.devices, [StampedWith(d, other, now)]);
    case UpdateFields(c) => ForeignUpdate(db, tenant, SetFields(other, c));
    case Stamp(id, at) => ForeignUpdate(db, tenant, SetStamp(other, id, at));
    case InsertRecord(r, points) =>
      RecordIsInsertable(db, other, statement);
      assert r.(tenantId := other) == r;
      ForeignInsertsRecord(db, tenant, r, points);
    case _ =>
  }

  // ----- steps and runs

  lemma OwnAdvance(w: World, used: set<Id>, key: Key, fault: Fault, now: int)
    requires Sound(w, used) && key in w.sessions && Active(w.sessions[key].local)
    ensures Enabled(w, Advance(key, fault, now)) && Enabled(View(w, key.tenant), Advance(key, fault, now))
    ensures View(Advanced(w, key, fault, now), key.tenant) == Advanced(View(w, key.tenant), key, fault, now)
  {
    var statement := StatementOf(w.sessions[key]);
    assert SessionOk(w.db, used, key.tenant, w.sessions[key]);
    SessionSendsOk(w.db, used, key.tenant, w.sessions[key]);
    OwnEffect(w.db, key.tenant, statement, now);
    OwnReply(w.db, key.tenant, statement, now);
    var after := Resume(key.tenant, w.sessions[key], Observed(Reply(w.db, key.tenant, statement, now), fault), now);
    SessionsOfPut(w.sessions, key, after, key.tenant);
  }

  lemma SessionsOfPut(sessions: map<Key, Session>, key: Key, session: Session, tenant: Tenant)
    ensures SessionsOf(sessions[key := session], tenant)
            == if key.tenant == tenant then SessionsOf(sessions, tenant)[key := session]
               else SessionsOf(sessions, tenant)
  {}

  lemma ForeignAdvance(w: World, used: set<Id>, key: Key, fault: Fault, now: int, tenant: Tenant)
    requires Sound(w, used) && key in w.sessions && Active(w.sessions[key].local) && key.tenant != tenant
    ensures View(Advanced(w, key, fault, now), tenant) == View(w, tenant)
  {
    var statement := StatementOf(w.sessions[key]);
    assert SessionOk(w.db, used, key.tenant, w.sessions[key]);
    SessionSendsOk(w.db, used, key.tenant, w.sessions[key]);
    ForeignEffect(w.db, key.tenant, statement, now, tenant);
    assert SessionsOf(Advanced(w, key, fault, now).sessions, tenant) == SessionsOf(w.sessions, tenant);
  }

  lemma ViewArrives(w: World, key: Key, op: Operation, tenant: Tenant)
    ensures View(Begun(w, key, op), tenant)
            == if key.tenant == tenant then Begun(View(w, tenant), key, op) else View(w, tenant)
  {
    SessionsOfPut(w.sessions, key, Accept(op), tenant);
  }

  lemma ViewEnables(w: World, step: Step)
    ensures Enabled(View(w, step.key.tenant), step) <==> Enabled(w, step)
  {}

  lemma ViewStep(w: World, used: set<Id>, step: Step, tenant: Tenant)
    requires Sound(w, used)
    ensures View(Next(w, step), tenant)
            == if step.key.tenant == tenant then Next(View(w, tenant), step) else View(w, tenant)
  {
    ViewEnables(w, step);
    if Enabled(w, step) {
      match step
      case Arrive(key, op) => ViewArrives(w, key, op, tenant);
      case Advance(key, fault, now) =>
        if key.tenant == tenant { OwnAdvance(w, used, key, fault, now); }
        else { ForeignAdvance(w, used, key, fault, now, tenant); }
    }
  }

  lemma {:induction false} ViewRun(w: World, used: set<Id>, steps: seq<Step>, tenant: Tenant)
    requires Sound(w, used) && FreshIds(used, steps)
    ensures View(Run(w, steps), tenant) == Run(View(w, tenant), Only(steps, tenant))
    decreases |steps|
  {
    if steps != [] {
      var w1 := Next(w, steps[0]);
      SoundStep(w, used, steps[0]);
      ViewStep(w, used, steps[0], tenant);
      ViewRun(w1, UsedBy(used, steps[0]), steps[1..], tenant);
      OnlyFirst(View(w, tenant), steps, tenant);
    }
  }

  lemma OnlyFirst(v: World, steps: seq<Step>, tenant: Tenant)
    requires steps != []
    ensures Run(v, Only(steps, tenant))
            == Run(if steps[0].key.tenant == tenant then Next(v, steps[0]) else v, Only(steps[1..], tenant))
  {
    var rest := Only(steps[1..], tenant);
    if steps[0].key.tenant == tenant {
      assert ([steps[0]] + rest)[1..] == rest;
    } else {
      assert [] + rest == rest;
    }
  }

  /**
   Noninterference over runs: whatever the other tenants request, in whatever order and with whatever faults,
   the tenant's rows and the state and response of each of its requests are those of the run in which the
   other tenants do nothing.
   */
  lemma Noninterference(steps: seq<Step>, tenant: Tenant)
    requires FreshIds({}, steps)
    ensures View(Run(Empty, steps), tenant) == Run(Empty, Only(steps, tenant))
  {
    EmptyIsSound({});
    ViewRun(Empty, {}, steps, tenant);
    assert View(Empty, tenant) == Empty;
  }

  /** Two runs with the same steps of one tenant give it the same responses and the same final rows. */
  lemma OthersAreInvisible(a: seq<Step>, b: seq<Step>, key: Key)
    requires FreshIds({}, a) && FreshIds({}, b) && Only(a, key.tenant) == Only(b, key.tenant)
    ensures var s, t := Run(Empty, a), Run(Empty, b);
            && (key in s.sessions <==> key in t.sessions)
            && (key in s.sessions ==> s.sessions[key] == t.sessions[key])
            && DbOf(s.db, key.tenant) == DbOf(t.db, key.tenant)
  {
    Noninterference(a, key.tenant);
    Noninterference(b, key.tenant);
    var s, t := Run(Empty, a), Run(Empty, b);
    assert key in s.sessions <==> key in View(s, key.tenant).sessions;
    assert key in t.sessions <==> key in View(t, key.tenant).sessions;
  }
}
