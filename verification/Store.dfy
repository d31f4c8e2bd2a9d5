/**
 The calibration store of the Go service, statement by statement: three tables, and what one SQL statement on
 behalf of a tenant does to them and answers, with or without a fault.
 */
module Store {
  import opened Wrappers
  import opened Rows
  import opened Engine

  type Tenant = string

  const WEEK: int := 604800

  datatype Device = Device(
    id: Id, tenantId: Tenant, name: string, serialNumber: string, deviceType: string, location: string,
    manufacturer: string, model: string, tolerancePct: real, isActive: bool, lastCalibratedAt: Option<int>,
    createdAt: int)

  datatype Record = Record(
    id: Id, deviceId: Id, tenantId: Tenant, operatorName: string, temperatureC: Option<real>,
    humidityPct: Option<real>, status: string, overallPass: bool, passCount: nat, failCount: nat,
    measuredAt: int, createdAt: int)

  datatype Db = Db(devices: seq<Device>, records: seq<Record>, measurements: seq<Measurement>)

  datatype Statement =
    | InsertDevice(device: Device)
    | SelectDevice(id: Id)
    | UpdateFields(current: Device)
    | Stamp(id: Id, at: int)
    | InsertRecord(record: Record, points: seq<Measurement>)
    | SelectRecord(id: Id)
    | LoadMeasurements(id: Id)
    | CountDevices
    | PageDevices(limit: nat, offset: nat)
    | CountRecords(onDevice: Option<Id>)
    | PageRecords(onDevice: Option<Id>, limit: nat, offset: nat)
    | Tally
    | CountRecentFails

  datatype Answer =
    | Failed
    | Duplicate
    | Done
    | NoRows
    | DeviceRow(device: Device)
    | RecordRow(record: Record)
    | DeviceRows(devices: seq<Device>)
    | RecordRows(records: seq<Record>)
    | MeasurementRows(points: seq<Measurement>)
    | Count(n: nat)
    | Tallied(total: nat, passing: nat)

  /**
   Refused: the statement or transaction did not happen. AckLost: it did, and the caller sees an error.
   CutShort: a result set ends early, and the caller, who never asks rows.Err(), sees nothing wrong.
   */
  datatype Fault = Healthy | Refused | AckLost | CutShort(rows: nat)

  function OwnDevice(tenant: Tenant): Device -> bool {
    (d: Device) => d.tenantId == tenant
  }

  function ThisDevice(tenant: Tenant, id: Id): Device -> bool {
    (d: Device) => d.id == id && d.tenantId == tenant
  }

  function OwnRecord(tenant: Tenant): Record -> bool {
    (r: Record) => r.tenantId == tenant
  }

  function ThisRecord(tenant: Tenant, id: Id): Record -> bool {
    (r: Record) => r.id == id && r.tenantId == tenant
  }

  /** WHERE tenant_id, and device_id if there is one. */
  function RecordsOn(tenant: Tenant, device: Option<Id>): Record -> bool {
    (r: Record) => r.tenantId == tenant && (device.None? || r.deviceId == device.value)
  }

  function PassedRecord(tenant: Tenant): Record -> bool {
    (r: Record) => r.tenantId == tenant && r.overallPass
  }

  function RecentFail(tenant: Tenant, now: int): Record -> bool {
    (r: Record) => r.tenantId == tenant && !r.overallPass && r.createdAt >= now - WEEK
  }

  function OfRecord(id: Id): Measurement -> bool {
    (m: Measurement) => m.recordId == id
  }

  function ById(): Measurement -> int { (m: Measurement) => m.id }

  function NewestDevice(): Device -> int { (d: Device) => -d.createdAt }

  function NewestRecord(): Record -> int { (r: Record) => -r.measuredAt }

  /** UPDATE of the six editable columns. */
  function SetFields(tenant: Tenant, c: Device): Device -> Device {
    (d: Device) =>
      if d.id == c.id && d.tenantId == tenant then
        d.(name := c.name, location := c.location, manufacturer := c.manufacturer, model := c.model,
           tolerancePct := c.tolerancePct, isActive := c.isActive)
      else d
  }

  function SetStamp(tenant: Tenant, id: Id, at: int): Device -> Device {
    (d: Device) => if d.id == id && d.tenantId == tenant then d.(lastCalibratedAt := Some(at)) else d
  }

  /** PRIMARY KEY (id) or UNIQUE (serial_number, tenant_id). */
  predicate Clashes(devices: seq<Device>, d: Device, tenant: Tenant) {
    exists e :: e in devices && (e.id == d.id || (e.serialNumber == d.serialNumber && e.tenantId == tenant))
  }

  predicate HasDevice(devices: seq<Device>, id: Id) {
    exists d :: d in devices && d.id == id
  }

  predicate HasRecord(records: seq<Record>, id: Id) {
    exists r :: r in records && r.id == id
  }

  predicate HasPoint(measurements: seq<Measurement>, id: Id) {
    exists m :: m in measurements && m.id == id
  }

  /** Primary keys and foreign keys of the rows of one CreateRecord transaction. */
  predicate Insertable(db: Db, record: Record, points: seq<Measurement>) {
    && !HasRecord(db.records, record.id)
    && HasDevice(db.devices, record.deviceId)
    && (forall m :: m in points ==> m.recordId == record.id || HasRecord(db.records, m.recordId))
    && (forall m :: m in points ==> !HasPoint(db.measurements, m.id))
    && (forall i, j :: 0 <= i < j < |points| ==> points[i].id != points[j].id)
  }

  function StampedWith(d: Device, tenant: Tenant, now: int): Device {
    d.(tenantId := tenant, createdAt := now)
  }

  function Effect(db: Db, tenant: Tenant, statement: Statement, now: int): Db {
    match statement
    case InsertDevice(d) =>
      if Clashes(db.devices, d, tenant) then db
      else db.(devices := db.devices + [StampedWith(d, tenant, now)])
    case UpdateFields(current) => db.(devices := Apply(SetFields(tenant, current), db.devices))
    case Stamp(id, at) => db.(devices := Apply(SetStamp(tenant, id, at), db.devices))
    case InsertRecord(record, points) =>
      if Insertable(db, record, points) then
        db.(records := db.records + [record.(tenantId := tenant)], measurements := db.measurements + points)
      else db
    case _ => db
  }

  function Reply(db: Db, tenant: Tenant, statement: Statement, now: int): Answer {
    match statement
    case InsertDevice(d) => if Clashes(db.devices, d, tenant) then Duplicate else Done
    case SelectDevice(id) =>
      var found := Filter(ThisDevice(tenant, id), db.devices);
      if found == [] then NoRows else DeviceRow(found[0])
    case UpdateFields(_) => Done
    case Stamp(_, _) => Done
    case InsertRecord(record, points) => if Insertable(db, record, points) then Done else Failed
    case SelectRecord(id) =>
      var found := Filter(ThisRecord(tenant, id), db.records);
      if found == [] then NoRows else RecordRow(found[0])
    case LoadMeasurements(id) => MeasurementRows(SortBy(ById(), Filter(OfRecord(id), db.measurements)))
    case CountDevices => Count(|Filter(OwnDevice(tenant), db.devices)|)
    case PageDevices(limit, offset) =>
      DeviceRows(Slice(SortBy(NewestDevice(), Filter(OwnDevice(tenant), db.devices)), offset, limit))
    case CountRecords(device) => Count(|Filter(RecordsOn(tenant, device), db.records)|)
    case PageRecords(device, limit, offset) =>
      RecordRows(Slice(SortBy(NewestRecord(), Filter(RecordsOn(tenant, device), db.records)), offset, limit))
    case Tally => Tallied(|Filter(OwnRecord(tenant), db.records)|, |Filter(PassedRecord(tenant), db.records)|)
    case CountRecentFails => Count(|Filter(RecentFail(tenant, now), db.records)|)
  }

  function Take<T>(s: seq<T>, n: nat): (r: seq<T>)
    ensures r <= s
  {
    if n >= |s| then s else s[..n]
  }

  /** What the caller sees of an answer. */
  function Observed(answer: Answer, fault: Fault): Answer {
    match fault
    case Healthy => answer
    case Refused => Failed
    case AckLost => Failed
    case CutShort(n) =>
      (match answer
       case DeviceRows(rows) => DeviceRows(Take(rows, n))
       case RecordRows(rows) => RecordRows(Take(rows, n))
       case MeasurementRows(rows) => MeasurementRows(Take(rows, n))
       case _ => answer)
  }

  function After(db: Db, tenant: Tenant, statement: Statement, fault: Fault, now: int): Db {
    if fault.Refused? then db else Effect(db, tenant, statement, now)
  }
}

/** The request handlers: which statement each sends next, and what it makes of the answer. */
module Handlers {
  import opened Wrappers
  import opened Rows
  import opened Engine
  import opened Store
  import opened Paging

  const DEFAULT_TOLERANCE: real := 0.5

  datatype CreateDeviceRequest = CreateDeviceRequest(
    name: string, serialNumber: string, deviceType: string, location: string, manufacturer: string, model: string,
    tolerancePct: real)

  datatype UpdateDeviceRequest = UpdateDeviceRequest(
    name: Option<string>, location: Option<string>, manufacturer: Option<string>, model: Option<string>,
    tolerancePct: Option<real>, isActive: Option<bool>)

  datatype CalibrationRequest = CalibrationRequest(
    operatorName: string, temperatureC: Option<real>, humidityPct: Option<real>, measuredAt: Option<int>,
    inputs: seq<MeasurementInput>)

  /** A request, with the uuids it will be given. */
  datatype Operation =
    | CreateDevice(id: Id, device: CreateDeviceRequest)
    | GetDevice(id: Id)
    | UpdateDevice(id: Id, update: UpdateDeviceRequest)
    | CreateCalibration(deviceId: Id, recordId: Id, pointIds: seq<Id>, calibration: CalibrationRequest)
    | GetCalibration(id: Id)
    | ListDevices(limit: int, offset: nat)
    | ListCalibrations(onDevice: Option<Id>, limit: int, offset: nat)
    | GetAnalyticsSummary
    | GetDeviceTrend(id: Id, limit: int)

  datatype FullRecord = FullRecord(record: Record, measurements: seq<Measurement>)

  datatype Response =
    | BadRequest
    | NotFound
    | Conflict
    | ServerError
    | DeviceBody(device: Device)
    | Created(full: FullRecord)
    | RecordBody(full: FullRecord)
    | DevicePage(devices: seq<Device>, total: nat)
    | RecordPage(records: seq<FullRecord>, counted: Option<nat>)
    | Summary(totalDevices: nat, totalRecords: nat, passRate: real, recentFails: nat)

  /** Where a handler is between two statements. */
  datatype Local =
    | Begin
    | Reading(id: Id)
    | Merged(current: Device)
    | Evaluated(record: Record, points: seq<Measurement>)
    | Stored(record: Record, points: seq<Measurement>)
    | Opened(record: Record)
    | DevicesCounted(total: nat, limit: nat, offset: nat)
    | RecordsCounted(total: nat, onDevice: Option<Id>, limit: nat, offset: nat)
    | Loading(counted: Option<nat>, loaded: seq<FullRecord>, rest: seq<Record>)
    | SummaryDevices(devices: nat)
    | SummaryTallied(devices: nat, total: nat, passing: nat)
    | Finished(response: Response)

  /** `tolerance` is the one a calibration was evaluated with. */
  datatype Session = Session(op: Operation, tolerance: Option<real>, local: Local)

  // ----- the computations in the handlers

  predicate Required(device: CreateDeviceRequest) {
    device.name != "" && device.serialNumber != "" && device.location != ""
    && device.deviceType in ["pressure", "temperature", "electrical", "flow"]
  }

  function NewDevice(id: Id, req: CreateDeviceRequest): Device {
    Device(id, "", req.name, req.serialNumber, req.deviceType, req.location, req.manufacturer, req.model,
           if req.tolerancePct == 0.0 then DEFAULT_TOLERANCE else req.tolerancePct, true, None, 0)
  }

  function Or<T>(update: Option<T>, current: T): T {
    if update.Some? then update.value else current
  }

  function Merge(d: Device, update: UpdateDeviceRequest): Device {
    d.(name := Or(update.name, d.name), location := Or(update.location, d.location),
       manufacturer := Or(update.manufacturer, d.manufacturer), model := Or(update.model, d.model),
       tolerancePct := Or(update.tolerancePct, d.tolerancePct), isActive := Or(update.isActive, d.isActive))
  }

  function NewRecord(tenant: Tenant, op: Operation, points: seq<Measurement>, now: int): Record
    requires op.CreateCalibration?
  {
    var passing, failing := |Filter(Passing(), points)|, |Filter(Failing(), points)|;
    Record(op.recordId, op.deviceId, tenant, op.calibration.operatorName, op.calibration.temperatureC,
           op.calibration.humidityPct, if failing > 0 then "fail" else "pass", failing == 0, passing, failing,
           Or(op.calibration.measuredAt, now), now)
  }

  function PassRate(passing: nat, total: nat): real {
    if total == 0 then 0.0 else passing as real / total as real * 100.0
  }

  function PageLimit(limit: int): nat {
    ClampLimit(limit, 50, 200)
  }

  function TrendLimit(limit: int): nat {
    ClampLimit(limit, 20, 100)
  }

  // ----- the handlers between statements

  predicate WellFormed(op: Operation) {
    op.CreateCalibration? ==> |op.pointIds| == |op.calibration.inputs|
  }

  function Accept(op: Operation): Session {
    Session(op, None, if op.CreateDevice? && !Required(op.device) then Finished(BadRequest) else Begin)
  }

  function FirstStatement(op: Operation): Statement {
    match op
    case CreateDevice(id, req) => InsertDevice(NewDevice(id, req))
    case GetDevice(id) => SelectDevice(id)
    case UpdateDevice(id, _) => SelectDevice(id)
    case CreateCalibration(deviceId, _, _, _) => SelectDevice(deviceId)
    case GetCalibration(id) => SelectRecord(id)
    case ListDevices(_, _) => CountDevices
    case ListCalibrations(onDevice, _, _) => CountRecords(onDevice)
    case GetAnalyticsSummary => CountDevices
    case GetDeviceTrend(id, limit) => PageRecords(Some(id), TrendLimit(limit), 0)
  }

  predicate Active(local: Local) {
    !local.Finished? && (local.Loading? ==> local.rest != [])
  }

  function StatementOf(session: Session): Statement
    requires Active(session.local)
  {
    match session.local
    case Begin => FirstStatement(session.op)
    case Reading(id) => SelectDevice(id)
    case Merged(current) => UpdateFields(current)
    case Evaluated(record, points) => InsertRecord(record, points)
    case Stored(record, _) => Stamp(record.deviceId, record.measuredAt)
    case Opened(record) => LoadMeasurements(record.id)
    case DevicesCounted(_, limit, offset) => PageDevices(limit, offset)
    case RecordsCounted(_, onDevice, limit, offset) => PageRecords(onDevice, limit, offset)
    case Loading(_, _, rest) => LoadMeasurements(rest[0].id)
    case SummaryDevices(_) => Tally
    case SummaryTallied(_, _, _) => CountRecentFails
  }

  function Collected(total: Option<nat>, loaded: seq<FullRecord>, rest: seq<Record>): Local {
    if rest == [] then Finished(RecordPage(loaded, total)) else Loading(total, loaded, rest)
  }

  /** After the first answer; a calibration evaluates its points with the tolerance it has just read. */
  function Started(tenant: Tenant, session: Session, answer: Answer, now: int): Session
    requires WellFormed(session.op)
  {
    match session.op
    case CreateDevice(id, _) =>
      session.(local := if answer.Duplicate? then Finished(Conflict)
                        else if answer.Done? then Reading(id) else Finished(ServerError))
    case GetDevice(_) =>
      session.(local := Finished(if answer.DeviceRow? then DeviceBody(answer.device) else NotFound))
    case UpdateDevice(_, update) =>
      session.(local := if answer.DeviceRow? then Merged(Merge(answer.device, update)) else Finished(ServerError))
    case CreateCalibration(_, recordId, pointIds, calibration) =>
      if !answer.DeviceRow? then session.(local := Finished(NotFound))
      else if calibration.operatorName == "" || calibration.inputs == [] then session.(local := Finished(BadRequest))
      else
        var points := Points(recordId, pointIds, calibration.inputs, answer.device.tolerancePct);
        session.(tolerance := Some(answer.device.tolerancePct),
                 local := Evaluated(NewRecord(tenant, session.op, points, now), points))
    case GetCalibration(_) =>
      session.(local := if answer.RecordRow? then Opened(answer.record) else Finished(NotFound))
    case ListDevices(limit, offset) =>
      session.(local := if answer.Count? then DevicesCounted(answer.n, PageLimit(limit), offset)
                        else Finished(ServerError))
    case ListCalibrations(onDevice, limit, offset) =>
      session.(local := if answer.Count? then RecordsCounted(answer.n, onDevice, PageLimit(limit), offset)
                        else Finished(ServerError))
    case GetAnalyticsSummary =>
      session.(local := if answer.Count? then SummaryDevices(answer.n) else Finished(ServerError))
    case GetDeviceTrend(_, _) =>
      session.(local := if answer.RecordRows? then Collected(None, [], answer.records) else Finished(ServerError))
  }

  function Continued(local: Local, answer: Answer): Local
    requires Active(local) && !local.Begin?
  {
    match local
    case Reading(_) => Finished(if answer.DeviceRow? then DeviceBody(answer.device) else ServerError)
    case Merged(current) => if answer.Done? then Reading(current.id) else Finished(ServerError)
    case Evaluated(record, points) => if answer.Done? then Stored(record, points) else Finished(ServerError)
    case Stored(record, points) => Finished(Created(FullRecord(record, points)))
    case Opened(record) =>
      Finished(if answer.MeasurementRows? then RecordBody(FullRecord(record, answer.points)) else NotFound)
    case DevicesCounted(total, _, _) =>
      Finished(if answer.DeviceRows? then DevicePage(answer.devices, total) else ServerError)
    case RecordsCounted(total, _, _, _) =>
      if answer.RecordRows? then Collected(Some(total), [], answer.records) else Finished(ServerError)
    case Loading(total, loaded, rest) =>
      if answer.MeasurementRows? then Collected(total, loaded + [FullRecord(rest[0], answer.points)], rest[1..])
      else Finished(ServerError)
    case SummaryDevices(devices) =>
      if answer.Tallied? then SummaryTallied(devices, answer.total, answer.passing) else Finished(ServerError)
    case SummaryTallied(devices, total, passing) =>
      Finished(if answer.Count? then Summary(devices, total, PassRate(passing, total), answer.n) else ServerError)
  }

  function Resume(tenant: Tenant, session: Session, answer: Answer, now: int): Session
    requires WellFormed(session.op) && Active(session.local)
  {
    if session.local.Begin? then Started(tenant, session, answer, now)
    else session.(local := Continued(session.local, answer))
  }
}

/** All requests of all tenants on one database: a run interleaves their statements in any order, with any faults. */
module StoreRuns {
  import opened Wrappers
  import opened Engine
  import opened Store
  import opened Handlers

  datatype Key = Key(tenant: Tenant, number: nat)

  datatype World = World(db: Db, sessions: map<Key, Session>)

  datatype Step =
    | Arrive(key: Key, op: Operation)
    | Advance(key: Key, fault: Fault, now: int)

  const Empty: World := World(Db([], [], []), map[])

  predicate Enabled(w: World, step: Step) {
    match step
    case Arrive(key, op) => key !in w.sessions && WellFormed(op)
    case Advance(key, _, _) =>
      key in w.sessions && WellFormed(w.sessions[key].op) && Active(w.sessions[key].local)
  }

  function Begun(w: World, key: Key, op: Operation): World {
    w.(sessions := w.sessions[key := Accept(op)])
  }

  function Advanced(w: World, key: Key, fault: Fault, now: int): World
    requires key in w.sessions && WellFormed(w.sessions[key].op) && Active(w.sessions[key].local)
  {
    var session := w.sessions[key];
    var statement := StatementOf(session);
    World(After(w.db, key.tenant, statement, fault, now),
          w.sessions[key := Resume(key.tenant, session, Observed(Reply(w.db, key.tenant, statement, now), fault), now)])
  }

  function Next(w: World, step: Step): World {
    if !Enabled(w, step) then w
    else
      match step
      case Arrive(key, op) => Begun(w, key, op)
      case Advance(key, fault, now) => Advanced(w, key, fault, now)
  }

  function Run(w: World, steps: seq<Step>): World
    decreases |steps|
  {
    if steps == [] then w else Run(Next(w, steps[0]), steps[1..])
  }

  lemma {:induction false} RunConcat(w: World, first: seq<Step>, second: seq<Step>)
    ensures Run(w, first + second) == Run(Run(w, first), second)
    decreases |first|
  {
    if first == [] {
      assert first + second == second;
    } else {
      assert (first + second)[1..] == first[1..] + second;
      RunConcat(Next(w, first[0]), first[1..], second);
    }
  }

  // ----- uuids

  function IdsOf(op: Operation): seq<Id> {
    match op
    case CreateDevice(id, _) => [id]
    case CreateCalibration(_, recordId, pointIds, _) => [recordId] + pointIds
    case _ => []
  }

  predicate NewIds(used: set<Id>, ids: seq<Id>) {
    (forall i :: 0 <= i < |ids| ==> ids[i] !in used) && (forall i, j :: 0 <= i < j < |ids| ==> ids[i] != ids[j])
  }

  function UsedBy(used: set<Id>, step: Step): set<Id> {
    used + if step.Arrive? then set id | id in IdsOf(step.op) else {}
  }

  /** No uuid is generated twice. */
  predicate FreshIds(used: set<Id>, steps: seq<Step>)
    decreases |steps|
  {
    steps != [] ==>
      (steps[0].Arrive? ==> NewIds(used, IdsOf(steps[0].op))) && FreshIds(UsedBy(used, steps[0]), steps[1..])
  }
}
