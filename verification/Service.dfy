/**
 The Go store and handlers as the code runs them: statement by statement on one database, with any steps of
 other requests at every statement and any fault in it. Each handler is proved to take the steps of its
 request and to answer what the request's run answers, so what holds of every run holds around it.
 */
module Service {
  import opened Wrappers
  import opened Engine
  import opened Store
  import opened Handlers
  import opened StoreRuns
  import opened Paging

  /** What happens around one statement: steps of others, a fault, and the time the server reads. */
  datatype Event = Event(others: seq<Step>, fault: Fault, now: int)

  predicate At(w: World, key: Key, session: Session) {
    key in w.sessions && w.sessions[key] == session && WellFormed(session.op)
  }

  lemma ResumeKeepsOp(tenant: Tenant, session: Session, answer: Answer, now: int)
    requires WellFormed(session.op) && Active(session.local)
    ensures Resume(tenant, session, answer, now).op == session.op
  {}

  lemma OthersKeep(w: World, step: Step, key: Key, session: Session)
    requires At(w, key, session) && step.key != key
    ensures At(Next(w, step), key, session)
  {}

  lemma AdvanceIs(w: World, key: Key, session: Session, statement: Statement, fault: Fault, now: int)
    requires At(w, key, session) && Active(session.local) && StatementOf(session) == statement
    ensures var answer := Observed(Reply(w.db, key.tenant, statement, now), fault);
            var t := Next(w, Advance(key, fault, now));
            && At(t, key, Resume(key.tenant, session, answer, now))
            && t.db == After(w.db, key.tenant, statement, fault, now)
  {
    ResumeKeepsOp(key.tenant, session, Observed(Reply(w.db, key.tenant, statement, now), fault), now);
  }

  // ----- the awaited statements

  /** The steps of other requests around one statement. */
  function AfterOthers(w: World, others: seq<Step>, key: Key): World
    decreases |others|
  {
    if others == [] then w else AfterOthers(if others[0].key == key then w else Next(w, others[0]), others[1..], key)
  }

  /** After n statements of a transaction, which no one else sees. */
  function Waited(world: nat -> Event, w: World, tick: nat, key: Key, n: nat): World {
    if n == 0 then w else AfterOthers(Waited(world, w, tick, key, n - 1), world(tick + n - 1).others, key)
  }

  predicate RefusedAt(world: nat -> Event, tick: nat) {
    world(tick).fault.Refused?
  }

  // ----- what a method did to the run

  /** The steps of one request among some steps. */
  function OwnSteps(steps: seq<Step>, key: Key): nat {
    if steps == [] then 0 else (if steps[0].key == key then 1 else 0) + OwnSteps(steps[1..], key)
  }

  lemma {:induction false} OwnStepsConcat(a: seq<Step>, b: seq<Step>, key: Key)
    ensures OwnSteps(a + b, key) == OwnSteps(a, key) + OwnSteps(b, key)
  {
    if a == [] {
      assert a + b == b;
    } else {
      assert (a + b)[0] == a[0] && (a + b)[1..] == a[1..] + b;
      OwnStepsConcat(a[1..], b, key);
    }
  }

  /** The run goes on, with n steps of the request and any of others. */
  predicate Took(before: seq<Step>, after: seq<Step>, key: Key, n: nat) {
    before <= after && OwnSteps(after[|before|..], key) == n
  }

  lemma TookMore(a: seq<Step>, b: seq<Step>, c: seq<Step>, key: Key, m: nat, n: nat)
    requires Took(a, b, key, m) && Took(b, c, key, n)
    ensures Took(a, c, key, m + n)
  {
    assert c[|a|..] == b[|a|..] + c[|b|..];
    OwnStepsConcat(b[|a|..], c[|b|..], key);
  }

  lemma TookOne(a: seq<Step>, b: seq<Step>, step: Step, key: Key, n: nat)
    requires Took(a, b, key, n)
    ensures Took(a, b + [step], key, n + if step.key == key then 1 else 0)
  {
    assert (b + [step])[|a|..] == b[|a|..] + [step];
    OwnStepsConcat(b[|a|..], [step], key);
  }

  /** The last step of the run sends the request's statement. */
  predicate Asked(trace: seq<Step>, key: Key, statement: Statement) {
    && trace != [] && trace[|trace| - 1].Advance? && trace[|trace| - 1].key == key
    && var before := Run(Empty, trace[..|trace| - 1]);
       key in before.sessions && Active(before.sessions[key].local) && StatementOf(before.sessions[key]) == statement
  }

  /** The tables before and after the last step of the run differ by all rows of the transaction, or not at all. */
  predicate AllOrNothing(trace: seq<Step>, db: Db, key: Key, record: Record, points: seq<Measurement>) {
    && trace != [] && trace[|trace| - 1].key == key
    && var before := Run(Empty, trace[..|trace| - 1]).db;
       db == before
       || db == before.(records := before.records + [record.(tenantId := key.tenant)],
                        measurements := before.measurements + points)
  }

  lemma InsertedRows(db: Db, tenant: Tenant, record: Record, points: seq<Measurement>, now: int)
    requires Insertable(db, record, points)
    ensures var t := Effect(db, tenant, InsertRecord(record, points), now);
            record.(tenantId := tenant) in t.records && forall m :: m in points ==> m in t.measurements
  {
    var t := Effect(db, tenant, InsertRecord(record, points), now);
    assert t.records[|db.records|] == record.(tenantId := tenant);
  }

  lemma TransactionIs(db: Db, tenant: Tenant, record: Record, points: seq<Measurement>, fault: Fault, now: int)
    ensures var t := After(db, tenant, InsertRecord(record, points), fault, now);
            || t == db
            || t == db.(records := db.records + [record.(tenantId := tenant)], measurements := db.measurements + points)
  {}

  class PostgresStore {
    const world: nat -> Event
    var tick: nat
    var state: World
    ghost var trace: seq<Step>

    constructor (world: nat -> Event)
      ensures Valid() && state == Empty && this.world == world
    {
      this.world, tick, state, trace := world, 0, Empty, [];
    }

    ghost predicate Valid()
      reads this
    {
      state == Run(Empty, trace)
    }

    method Do(step: Step)
      requires Valid()
      modifies this`state, this`trace
      ensures Valid() && trace == old(trace) + [step] && state == Next(old(state), step)
    {
      RunConcat(Empty, trace, [step]);
      state := Next(state, step);
      trace := trace + [step];
    }

    /** Other requests run; this one's session is as it was. */
    method Pause(key: Key, ghost session: Session) returns (event: Event)
      requires Valid() && At(state, key, session)
      modifies this
      ensures Valid() && Took(old(trace), trace, key, 0) && At(state, key, session)
      ensures event == world(old(tick)) && tick == old(tick) + 1
      ensures state == AfterOthers(old(state), event.others, key)
    {
      event := world(tick);
      tick := tick + 1;
      var i := 0;
      while i < |event.others|
        invariant Valid() && Took(old(trace), trace, key, 0) && At(state, key, session)
        invariant i <= |event.others| && tick == old(tick) + 1
        invariant AfterOthers(state, event.others[i..], key) == AfterOthers(old(state), event.others, key)
      {
        assert event.others[i..][1..] == event.others[i + 1..];
        if event.others[i].key != key {
          OthersKeep(state, event.others[i], key, session);
          TookOne(old(trace), trace, event.others[i], key, 0);
          Do(event.others[i]);
        }
        i := i + 1;
      }
    }

    /** One statement of the request, on the database as the others have left it: one step of its run. */
    method Query(key: Key, ghost session: Session, statement: Statement) returns (answer: Answer, now: int)
      requires Valid() && At(state, key, session) && Active(session.local) && StatementOf(session) == statement
      modifies this
      ensures Valid() && Took(old(trace), trace, key, 1) && Asked(trace, key, statement)
      ensures At(state, key, Resume(key.tenant, session, answer, now))
      ensures tick == old(tick) + 1 && now == world(old(tick)).now
      ensures var event := world(old(tick));
              var before := AfterOthers(old(state), event.others, key);
              && state == Next(before, Advance(key, event.fault, now))
              && answer == Observed(Reply(before.db, key.tenant, statement, now), event.fault)
    {
      var event := Pause(key, session);
      now := event.now;
      answer := Observed(Reply(state.db, key.tenant, statement, now), event.fault);
      AdvanceIs(state, key, session, statement, event.fault, now);
      TookOne(old(trace), trace, Advance(key, event.fault, now), key, 0);
      assert (trace + [Advance(key, event.fault, now)])[..|trace|] == trace;
      Do(Advance(key, event.fault, now));
    }

    // ----- store methods

    /** Any error, whatever its kind, is no device. */
    method GetDevice(key: Key, ghost session: Session, id: Id)
      returns (device: Option<Device>, now: int, ghost answer: Answer)
      requires Valid() && At(state, key, session) && Active(session.local) && StatementOf(session) == SelectDevice(id)
      modifies this
      ensures Valid() && old(trace) <= trace
      ensures At(state, key, Resume(key.tenant, session, answer, now))
      ensures device == if answer.DeviceRow? then Some(answer.device) else None
    {
      var row;
      row, now := Query(key, session, SelectDevice(id));
      answer := row;
      device := if row.DeviceRow? then Some(row.device) else None;
    }

    /**
     The transaction: the record, then its measurements one by one. An error at any of these statements rolls
     everything back; the commit stores all rows at once, and may do so although it reports an error.
     */
    method CreateRecord(key: Key, ghost session: Session, record: Record, measurements: seq<Measurement>)
      returns (failed: bool, ghost rolledBack: bool)
      requires Valid() && At(state, key, session) && session.local == Evaluated(record, measurements)
      modifies this
      ensures Valid() && Took(old(trace), trace, key, 1)
      ensures At(state, key, session.(local := if failed then Finished(ServerError) else Stored(record, measurements)))
      ensures AllOrNothing(trace, state.db, key, record, measurements)
      ensures rolledBack ==> failed && state.db == Run(Empty, trace[..|trace| - 1]).db
      ensures !failed ==> record.(tenantId := key.tenant) in state.db.records
                          && forall m :: m in measurements ==> m in state.db.measurements
      ensures rolledBack <==> exists k :: old(tick) <= k <= old(tick) + |measurements| && RefusedAt(world, k)
      ensures !rolledBack ==>
                var before := Waited(world, old(state), old(tick), key, |measurements| + 2);
                var event := world(old(tick) + |measurements| + 1);
                && state == Next(before, Advance(key, event.fault, event.now))
                && (failed <==>
                      || event.fault.Refused? || event.fault.AckLost?
                      || !Insertable(before.db, record, measurements))
    {
      var event, staged := InsertAll(key, session, measurements);
      ghost var before := trace;
      if event.fault.Refused? {
        assert RefusedAt(world, tick - 1);
        Rollback(key, session, record, measurements, event.now);
        TookMore(old(trace), before, trace, key, 0, 1);
        return true, true;
      }
      failed := Commit(key, session, record, staged);
      TookMore(old(trace), before, trace, key, 0, 1);
      rolledBack := false;
    }

    /** The inserts, in a transaction that no one else sees, up to the first that is refused. */
    method InsertAll(key: Key, ghost session: Session, measurements: seq<Measurement>)
      returns (event: Event, staged: seq<Measurement>)
      requires Valid() && At(state, key, session)
      modifies this
      ensures Valid() && Took(old(trace), trace, key, 0) && At(state, key, session)
      ensures old(tick) < tick <= old(tick) + |measurements| + 1 && event == world(tick - 1)
      ensures !event.fault.Refused? ==> tick == old(tick) + |measurements| + 1 && staged == measurements
      ensures forall k :: old(tick) <= k < tick - 1 ==> !RefusedAt(world, k)
      ensures state == Waited(world, old(state), old(tick), key, tick - old(tick))
    {
      event := Pause(key, session);
      staged := [];
      var i := 0;
      while i < |measurements| && !event.fault.Refused?
        invariant Valid() && Took(old(trace), trace, key, 0) && At(state, key, session)
        invariant 0 <= i <= |measurements| && staged == measurements[..i]
        invariant old(tick) < tick <= old(tick) + |measurements| + 1 && event == world(tick - 1)
        invariant !event.fault.Refused? ==> tick == old(tick) + i + 1
        invariant forall k :: old(tick) <= k < tick - 1 ==> !RefusedAt(world, k)
        invariant state == Waited(world, old(state), old(tick), key, tick - old(tick))
        decreases |measurements| - i, if event.fault.Refused? then 0 else 1
      {
        ghost var before := trace;
        event := Pause(key, session);
        TookMore(old(trace), before, trace, key, 0, 0);
        if !event.fault.Refused? {
          staged := staged + [measurements[i]];
          i := i + 1;
        }
      }
    }

    method Rollback(key: Key, ghost session: Session, ghost record: Record, ghost measurements: seq<Measurement>,
                    now: int)
      requires Valid() && At(state, key, session) && session.local == Evaluated(record, measurements)
      modifies this
      ensures Valid() && Took(old(trace), trace, key, 1)
      ensures At(state, key, session.(local := Finished(ServerError)))
      ensures trace != [] && trace[|trace| - 1].key == key && state.db == Run(Empty, trace[..|trace| - 1]).db
    {
      AdvanceIs(state, key, session, InsertRecord(record, measurements), Refused, now);
      TookOne(old(trace), trace, Advance(key, Refused, now), key, 0);
      assert (old(trace) + [Advance(key, Refused, now)])[..|old(trace)|] == old(trace);
      Do(Advance(key, Refused, now));
    }

    method Commit(key: Key, ghost session: Session, record: Record, staged: seq<Measurement>) returns (failed: bool)
      requires Valid() && At(state, key, session) && session.local == Evaluated(record, staged)
      modifies this
      ensures Valid() && Took(old(trace), trace, key, 1)
      ensures At(state, key, session.(local := if failed then Finished(ServerError) else Stored(record, staged)))
      ensures AllOrNothing(trace, state.db, key, record, staged)
      ensures !failed ==> record.(tenantId := key.tenant) in state.db.records
                          && forall m :: m in staged ==> m in state.db.measurements
      ensures var event := world(old(tick));
              var before := AfterOthers(old(state), event.others, key);
              && state == Next(before, Advance(key, event.fault, event.now))
              && (failed <==> event.fault.Refused? || event.fault.AckLost? || !Insertable(before.db, record, staged))
    {
      var event := Pause(key, session);
      var answer := Observed(Reply(state.db, key.tenant, InsertRecord(record, staged), event.now), event.fault);
      failed := !answer.Done?;
      AdvanceIs(state, key, session, InsertRecord(record, staged), event.fault, event.now);
      if !failed { InsertedRows(state.db, key.tenant, record, staged, event.now); }
      TransactionIs(state.db, key.tenant, record, staged, event.fault, event.now);
      TookOne(old(trace), trace, Advance(key, event.fault, event.now), key, 0);
      ghost var before := trace;
      assert (before + [Advance(key, event.fault, event.now)])[..|before|] == before;
      Do(Advance(key, event.fault, event.now));
    }

    /** Reads rows until there is none, or until the connection breaks: the loop does not tell the two apart. */
    method ReadMeasurements(key: Key, ghost session: Session, id: Id)
      returns (ms: Option<seq<Measurement>>, now: int, ghost answer: Answer)
      requires Valid() && At(state, key, session) && Active(session.local)
      requires StatementOf(session) == LoadMeasurements(id)
      modifies this
      ensures Valid() && old(trace) <= trace
      ensures At(state, key, Resume(key.tenant, session, answer, now))
      ensures ms == if answer.MeasurementRows? then Some(answer.points) else None
    {
      var rows;
      rows, now := Query(key, session, LoadMeasurements(id));
      answer := rows;
      if !rows.MeasurementRows? { return None, now, answer; }
      var read := Scan(rows.points);
      ms := Some(read);
    }

    /** The loop over the rows of a result set. */
    method Scan<T>(rows: seq<T>) returns (read: seq<T>)
      ensures read == rows
    {
      read := [];
      for i := 0 to |rows|
        invariant read == rows[..i]
      {
        read := read + [rows[i]];
      }
    }

    /** Loads each row's measurements in turn; the first error ends the request. */
    method ScanAndLoadRecords(key: Key, op: Operation, ghost tolerance: Option<real>, counted: Option<nat>,
                              rows: seq<Record>)
      returns (records: Option<seq<FullRecord>>)
      requires Valid() && At(state, key, Session(op, tolerance, Collected(counted, [], rows)))
      modifies this
      ensures Valid() && old(trace) <= trace
      ensures At(state, key, Session(op, tolerance,
                   Finished(if records.Some? then RecordPage(records.value, counted) else ServerError)))
    {
      var loaded: seq<FullRecord> := [];
      for i := 0 to |rows|
        invariant Valid() && old(trace) <= trace
        invariant At(state, key, Session(op, tolerance, Collected(counted, loaded, rows[i..])))
      {
        ghost var session := Session(op, tolerance, Loading(counted, loaded, rows[i..]));
        assert rows[i..][1..] == rows[i + 1..];
        var ms, _, _ := ReadMeasurements(key, session, rows[i].id);
        if ms.None? { return None; }
        loaded := loaded + [FullRecord(rows[i], ms.value)];
      }
      records := Some(loaded);
    }

    // ----- device handlers

    predicate Pending(key: Key, op: Operation)
      reads this
    {
      At(state, key, Accept(op))
    }

    predicate Answered(key: Key, op: Operation, response: Response)
      reads this
    {
      key in state.sessions && state.sessions[key].op == op && state.sessions[key].local == Finished(response)
    }

    method CreateDevice(key: Key, id: Id, req: CreateDeviceRequest) returns (response: Response)
      requires Valid() && Pending(key, Operation.CreateDevice(id, req))
      modifies this
      ensures Valid() && old(trace) <= trace && Answered(key, Operation.CreateDevice(id, req), response)
      ensures response.BadRequest? <==>
        || req.name == "" || req.serialNumber == "" || req.location == ""
        || req.deviceType !in {"pressure", "temperature", "electrical", "flow"}
    {
      if !Required(req) { return BadRequest; }
      var tolerance := req.tolerancePct;
      if tolerance == 0.0 { tolerance := DEFAULT_TOLERANCE; }
      var d := Device(id, "", req.name, req.serialNumber, req.deviceType, req.location, req.manufacturer, req.model,
                      tolerance, true, None, 0);
      ghost var session := Accept(Operation.CreateDevice(id, req));
      var answer, _ := Query(key, session, InsertDevice(d));
      if answer.Duplicate? { return Conflict; }
      if !answer.Done? { return ServerError; }
      var device, _, _ := GetDevice(key, session.(local := Reading(id)), id);
      response := if device.Some? then DeviceBody(device.value) else ServerError;
    }

    method FetchDevice(key: Key, id: Id) returns (response: Response)
      requires Valid() && Pending(key, Operation.GetDevice(id))
      modifies this
      ensures Valid() && old(trace) <= trace && Answered(key, Operation.GetDevice(id), response)
      ensures response.DeviceBody? || response.NotFound?
    {
      var device, _, _ := GetDevice(key, Accept(Operation.GetDevice(id)), id);
      response := if device.Some? then DeviceBody(device.value) else NotFound;
    }

    /** Reads the row, overwrites the fields that the request sets, writes six fields and reads the row again. */
    method UpdateDevice(key: Key, id: Id, update: UpdateDeviceRequest) returns (response: Response)
      requires Valid() && Pending(key, Operation.UpdateDevice(id, update))
      modifies this
      ensures Valid() && old(trace) <= trace && Answered(key, Operation.UpdateDevice(id, update), response)
      ensures response.DeviceBody? || response.ServerError?
    {
      ghost var session := Accept(Operation.UpdateDevice(id, update));
      var found, _, _ := GetDevice(key, session, id);
      if found.None? { return ServerError; }
      var current := found.value;
      if update.name.Some? { current := current.(name := update.name.value); }
      if update.location.Some? { current := current.(location := update.location.value); }
      if update.manufacturer.Some? { current := current.(manufacturer := update.manufacturer.value); }
      if update.model.Some? { current := current.(model := update.model.value); }
      if update.tolerancePct.Some? { current := current.(tolerancePct := update.tolerancePct.value); }
      if update.isActive.Some? { current := current.(isActive := update.isActive.value); }
      assert current == Merge(found.value, update);
      response := WriteBack(key, session, current);
    }

    method WriteBack(key: Key, ghost session: Session, current: Device) returns (response: Response)
      requires Valid() && At(state, key, session.(local := Merged(current)))
      modifies this
      ensures Valid() && old(trace) <= trace && Answered(key, session.op, response)
      ensures response.DeviceBody? || response.ServerError?
    {
      var answer, _ := Query(key, session.(local := Merged(current)), UpdateFields(current));
      if !answer.Done? { return ServerError; }
      var device, _, _ := GetDevice(key, session.(local := Reading(current.id)), current.id);
      response := if device.Some? then DeviceBody(device.value) else ServerError;
    }

    // ----- calibration handlers

    /**
     Looks the device up, evaluates the points against its tolerance, stores record and points, stamps the device.
     A stamp that fails is only logged.
     */
    method CreateCalibration(key: Key, deviceId: Id, recordId: Id, pointIds: seq<Id>, req: CalibrationRequest)
      returns (response: Response)
      requires Valid() && Pending(key, Operation.CreateCalibration(deviceId, recordId, pointIds, req))
      modifies this
      ensures Valid() && old(trace) <= trace
      ensures Answered(key, Operation.CreateCalibration(deviceId, recordId, pointIds, req), response)
      ensures response.NotFound? || response.BadRequest? || response.ServerError? || response.Created?
    {
      ghost var session := Accept(Operation.CreateCalibration(deviceId, recordId, pointIds, req));
      var device, now, _ := GetDevice(key, session, deviceId);
      if device.None? { return NotFound; }
      if req.operatorName == "" || |req.inputs| == 0 { return BadRequest; }
      var measuredAt := if req.measuredAt.Some? then req.measuredAt.value else now;
      var measurements, passCount, failCount := EvaluateRecord(recordId, pointIds, req.inputs,
                                                               device.value.tolerancePct);
      var status := "pass";
      if failCount > 0 { status := "fail"; }
      var record := Record(recordId, deviceId, key.tenant, req.operatorName, req.temperatureC, req.humidityPct, status,
                           failCount == 0, passCount, failCount, measuredAt, now);
      session := session.(tolerance := Some(device.value.tolerancePct), local := Evaluated(record, measurements));
      response := StoreAndStamp(key, session, record, measurements);
    }

    /** A failed transaction is the request's last step: nothing is stamped. A stored record's stamp follows it. */
    method StoreAndStamp(key: Key, ghost session: Session, record: Record, measurements: seq<Measurement>)
      returns (response: Response)
      requires Valid() && At(state, key, session) && session.local == Evaluated(record, measurements)
      modifies this
      ensures Valid() && Answered(key, session.op, response)
      ensures response == ServerError || response == Created(FullRecord(record, measurements))
      ensures response == ServerError ==>
                Took(old(trace), trace, key, 1) && AllOrNothing(trace, state.db, key, record, measurements)
      ensures response.Created? ==>
                Took(old(trace), trace, key, 2) && Asked(trace, key, Stamp(record.deviceId, record.measuredAt))
    {
      var failed, _ := CreateRecord(key, session, record, measurements);
      if failed { return ServerError; }
      ghost var stored, before := session.(local := Stored(record, measurements)), trace;
      var _, _ := Query(key, stored, Stamp(record.deviceId, record.measuredAt));
      TookMore(old(trace), before, trace, key, 1, 1);
      response := Created(FullRecord(record, measurements));
    }

    method GetCalibration(key: Key, id: Id) returns (response: Response)
      requires Valid() && Pending(key, Operation.GetCalibration(id))
      modifies this
      ensures Valid() && old(trace) <= trace && Answered(key, Operation.GetCalibration(id), response)
      ensures response.NotFound? || response.RecordBody?
    {
      ghost var session := Accept(Operation.GetCalibration(id));
      var answer, _ := Query(key, session, SelectRecord(id));
      if !answer.RecordRow? { return NotFound; }
      var record := answer.record;
      var ms, _, _ := ReadMeasurements(key, session.(local := Opened(record)), record.id);
      response := if ms.Some? then RecordBody(FullRecord(record, ms.value)) else NotFound;
    }

    // ----- lists

    method ListDevices(key: Key, limitParam: Option<Option<int>>, offsetParam: Option<Option<int>>)
      returns (response: Response)
      requires Valid()
      requires Pending(key, Operation.ListDevices(Parsed(limitParam, 50),
                                                  if Parsed(offsetParam, 0) > 0 then Parsed(offsetParam, 0) else 0))
      modifies this
      ensures Valid() && old(trace) <= trace && key in state.sessions && state.sessions[key].local == Finished(response)
      ensures response.ServerError? || response.DevicePage?
    {
      var limit, offset := ParsePagination(limitParam, offsetParam, 50, 200);
      ghost var session := Accept(Operation.ListDevices(Parsed(limitParam, 50), offset));
      var total, _ := Query(key, session, CountDevices);
      if !total.Count? { return ServerError; }
      var rows, _ := Query(key, session.(local := DevicesCounted(total.n, limit, offset)), PageDevices(limit, offset));
      if !rows.DeviceRows? { return ServerError; }
      response := DevicePage(rows.devices, total.n);
    }

    /** Tenant-wide, or those of one device. */
    method ListCalibrations(key: Key, onDevice: Option<Id>, limitParam: Option<Option<int>>,
                            offsetParam: Option<Option<int>>)
      returns (response: Response)
      requires Valid()
      requires Pending(key, Operation.ListCalibrations(onDevice, Parsed(limitParam, 50),
                              if Parsed(offsetParam, 0) > 0 then Parsed(offsetParam, 0) else 0))
      modifies this
      ensures Valid() && old(trace) <= trace && key in state.sessions && state.sessions[key].local == Finished(response)
      ensures response.ServerError? || response.RecordPage?
    {
      var limit, offset := ParsePagination(limitParam, offsetParam, 50, 200);
      var op := Operation.ListCalibrations(onDevice, Parsed(limitParam, 50), offset);
      var total, _ := Query(key, Accept(op), CountRecords(onDevice));
      if !total.Count? { return ServerError; }
      ghost var counted := Session(op, None, RecordsCounted(total.n, onDevice, limit, offset));
      var rows, _ := Query(key, counted, PageRecords(onDevice, limit, offset));
      if !rows.RecordRows? { return ServerError; }
      var records := ScanAndLoadRecords(key, op, None, Some(total.n), rows.records);
      response := if records.Some? then RecordPage(records.value, Some(total.n)) else ServerError;
    }

    method GetDeviceTrend(key: Key, id: Id, limitParam: Option<Option<int>>) returns (response: Response)
      requires Valid() && Pending(key, Operation.GetDeviceTrend(id, Parsed(limitParam, 20)))
      modifies this
      ensures Valid() && old(trace) <= trace
      ensures Answered(key, Operation.GetDeviceTrend(id, Parsed(limitParam, 20)), response)
      ensures response.ServerError? || response.RecordPage?
    {
      var limit, _ := ParsePagination(limitParam, None, 20, 100);
      var op := Operation.GetDeviceTrend(id, Parsed(limitParam, 20));
      var rows, _ := Query(key, Accept(op), PageRecords(Some(id), limit, 0));
      if !rows.RecordRows? { return ServerError; }
      var records := ScanAndLoadRecords(key, op, None, None, rows.records);
      response := if records.Some? then RecordPage(records.value, None) else ServerError;
    }

    method GetAnalyticsSummary(key: Key) returns (response: Response)
      requires Valid() && Pending(key, Operation.GetAnalyticsSummary)
      modifies this
      ensures Valid() && old(trace) <= trace && Answered(key, Operation.GetAnalyticsSummary, response)
      ensures response.ServerError? || response.Summary?
    {
      ghost var session := Accept(Operation.GetAnalyticsSummary);
      var devices, _ := Query(key, session, CountDevices);
      if !devices.Count? { return ServerError; }
      var tally, _ := Query(key, session.(local := SummaryDevices(devices.n)), Tally);
      if !tally.Tallied? { return ServerError; }
      response := CountFails(key, session, devices.n, tally.total, tally.passing);
    }

    method CountFails(key: Key, ghost session: Session, devices: nat, total: nat, passing: nat)
      returns (response: Response)
      requires Valid() && At(state, key, session.(local := SummaryTallied(devices, total, passing)))
      modifies this
      ensures Valid() && old(trace) <= trace && Answered(key, session.op, response)
      ensures response.ServerError? || response.Summary?
    {
      var rate := 0.0;
      if total > 0 { rate := passing as real / total as real * 100.0; }
      var recent, _ := Query(key, session.(local := SummaryTallied(devices, total, passing)), CountRecentFails);
      if !recent.Count? { return ServerError; }
      response := Summary(devices, total, rate, recent.n);
    }
  }
}
