/** Device rows over whole runs: identity, stamps, and what concurrent partial updates do to each other. */
module DeviceTheorems {
  import opened Wrappers
  import opened Rows
  import opened Engine
  import opened Store
  import opened Handlers
  import opened StoreRuns
  import opened StoreSoundness
  import opened StoreTheorems

  // ----- what no run changes

  predicate SameIdentity(a: Device, b: Device) {
    && a.id == b.id && a.tenantId == b.tenantId && a.serialNumber == b.serialNumber && a.deviceType == b.deviceType
    && a.createdAt == b.createdAt
  }

  predicate KeepsIdentities(a: seq<Device>, b: seq<Device>) {
    |a| <= |b| && forall i :: 0 <= i < |a| ==> SameIdentity(a[i], b[i])
  }

  lemma StepKeepsIdentities(w: World, step: Step)
    ensures KeepsIdentities(w.db.devices, Next(w, step).db.devices)
  {
    if Enabled(w, step) && step.Advance? {
      EffectKeepsIdentities(w.db, step.key.tenant, StatementOf(w.sessions[step.key]), step.now);
    }
  }

  lemma EffectKeepsIdentities(db: Db, tenant: Tenant, statement: Statement, now: int)
    ensures KeepsIdentities(db.devices, Effect(db, tenant, statement, now).devices)
  {}

  /** Devices are only added, and a row keeps its id, tenant, serial number, type and creation time. */
  lemma {:induction false} IdentityNeverChanges(w: World, steps: seq<Step>)
    ensures KeepsIdentities(w.db.devices, Run(w, steps).db.devices)
    decreases |steps|
  {
    if steps != [] {
      StepKeepsIdentities(w, steps[0]);
      IdentityNeverChanges(Next(w, steps[0]), steps[1..]);
    }
  }

  /** PRIMARY KEY (id) and UNIQUE (serial_number, tenant_id). */
  predicate Unique(devices: seq<Device>) {
    forall i, j :: 0 <= i < j < |devices| ==>
      && devices[i].id != devices[j].id
      && !(devices[i].serialNumber == devices[j].serialNumber && devices[i].tenantId == devices[j].tenantId)
  }

  lemma SameIdentitiesUnique(a: seq<Device>, b: seq<Device>)
    requires Unique(a) && KeepsIdentities(a, b) && |a| == |b|
    ensures Unique(b)
  {
    forall i, j | 0 <= i < j < |b|
      ensures b[i].id != b[j].id && !(b[i].serialNumber == b[j].serialNumber && b[i].tenantId == b[j].tenantId)
    {
      assert SameIdentity(a[i], b[i]) && SameIdentity(a[j], b[j]);
    }
  }

  lemma EffectKeepsUnique(db: Db, tenant: Tenant, statement: Statement, now: int)
    requires Unique(db.devices)
    ensures Unique(Effect(db, tenant, statement, now).devices)
  {
    if statement.InsertDevice? {
      forall i | 0 <= i < |db.devices| ensures db.devices[i] in db.devices {}
    } else {
      EffectKeepsIdentities(db, tenant, statement, now);
      SameIdentitiesUnique(db.devices, Effect(db, tenant, statement, now).devices);
    }
  }

  lemma {:induction false} UniqueRun(w: World, steps: seq<Step>)
    requires Unique(w.db.devices)
    ensures Unique(Run(w, steps).db.devices)
    decreases |steps|
  {
    if steps != [] {
      if Enabled(w, steps[0]) && steps[0].Advance? {
        EffectKeepsUnique(w.db, steps[0].key.tenant, StatementOf(w.sessions[steps[0].key]), steps[0].now);
      }
      UniqueRun(Next(w, steps[0]), steps[1..]);
    }
  }

  /** In every reachable state no two devices share an id, and no two of one tenant share a serial number. */
  lemma DevicesAreUnique(steps: seq<Step>)
    ensures Unique(Run(Empty, steps).db.devices)
  {
    UniqueRun(Empty, steps);
  }

  /** The row a registration asks for: no tolerance means half a percent. */
  predicate Registers(d: Device, tenant: Tenant, id: Id, req: CreateDeviceRequest, now: int) {
    && d.id == id && d.tenantId == tenant && d.createdAt == now && d.lastCalibratedAt == None && d.isActive
    && d.name == req.name && d.serialNumber == req.serialNumber && d.deviceType == req.deviceType
    && d.location == req.location && d.manufacturer == req.manufacturer && d.model == req.model
    && (req.tolerancePct != 0.0 ==> d.tolerancePct == req.tolerancePct)
    && (req.tolerancePct == 0.0 ==> d.tolerancePct * 2.0 == 1.0)
  }

  predicate SerialTaken(devices: seq<Device>, tenant: Tenant, serialNumber: string) {
    exists d :: d in devices && d.tenantId == tenant && d.serialNumber == serialNumber
  }

  lemma RegistrationInserts(w: World, key: Key, id: Id, req: CreateDeviceRequest, now: int)
    requires key in w.sessions && w.sessions[key] == Session(CreateDevice(id, req), None, Begin)
    requires !HasDevice(w.db.devices, id)
    ensures var t := Next(w, Advance(key, Healthy, now));
            if SerialTaken(w.db.devices, key.tenant, req.serialNumber)
            then t.db == w.db && key in t.sessions && t.sessions[key].local == Finished(Conflict)
            else && |t.db.devices| == |w.db.devices| + 1
                 && t.db == w.db.(devices := w.db.devices + [t.db.devices[|w.db.devices|]])
                 && Registers(t.db.devices[|w.db.devices|], key.tenant, id, req, now)
                 && key in t.sessions && t.sessions[key] == Session(CreateDevice(id, req), None, Reading(id))
  {
    var d := NewDevice(id, req);
    assert Clashes(w.db.devices, d, key.tenant) <==> SerialTaken(w.db.devices, key.tenant, req.serialNumber);
  }

  /**
   Registering a device answers conflict exactly when the tenant already has the serial number, whatever other
   tenants have; otherwise the row is added, whatever runs before it is read back, and the answer is that row.
   */
  lemma RegistrationOutcome(w: World, key: Key, id: Id, req: CreateDeviceRequest, others: seq<Step>, early: int,
                            late: int)
    requires Unique(w.db.devices) && !HasDevice(w.db.devices, id)
    requires key in w.sessions && w.sessions[key] == Session(CreateDevice(id, req), None, Begin)
    requires forall k :: 0 <= k < |others| ==> others[k].key != key
    ensures var before := Run(Next(w, Advance(key, Healthy, early)), others);
            var after := Next(before, Advance(key, Healthy, late));
            var i := |w.db.devices|;
            && key in after.sessions
            && (after.sessions[key].local == Finished(Conflict)
                <==> SerialTaken(w.db.devices, key.tenant, req.serialNumber))
            && (!SerialTaken(w.db.devices, key.tenant, req.serialNumber) ==>
                  && i < |after.db.devices| && after.sessions[key].local == Finished(DeviceBody(after.db.devices[i]))
                  && after.db.devices[i].id == id && after.db.devices[i].tenantId == key.tenant
                  && after.db.devices[i].serialNumber == req.serialNumber && after.db.devices[i].createdAt == early)
  {
    var t := Next(w, Advance(key, Healthy, early));
    RegistrationInserts(w, key, id, req, early);
    EffectKeepsUnique(w.db, key.tenant, InsertDevice(NewDevice(id, req)), early);
    UntouchedSession(t, others, key);
    UniqueRun(t, others);
    IdentityNeverChanges(t, others);
    if !SerialTaken(w.db.devices, key.tenant, req.serialNumber) {
      var i, before := |w.db.devices|, Run(t, others);
      assert SameIdentity(t.db.devices[i], before.db.devices[i]);
      ReadBackUpdated(before, key, late, i);
    }
  }

  // ----- the calibration stamp

  /** The stamp a step writes on the device, if it writes one. */
  function StampWritten(w: World, step: Step, tenant: Tenant, id: Id): Option<int> {
    if Enabled(w, step) && step.Advance? && !step.fault.Refused? && step.key.tenant == tenant then
      match StatementOf(w.sessions[step.key])
      case Stamp(stamped, at) => if stamped == id then Some(at) else None
      case _ => None
    else None
  }

  /** The last stamp a run writes on the device. */
  function LastStamp(w: World, steps: seq<Step>, tenant: Tenant, id: Id, initial: Option<int>): Option<int>
    decreases |steps|
  {
    if steps == [] then initial
    else
      var written := StampWritten(w, steps[0], tenant, id);
      LastStamp(Next(w, steps[0]), steps[1..], tenant, id, if written.Some? then written else initial)
  }

  lemma StampStep(w: World, step: Step, i: nat)
    requires i < |w.db.devices|
    ensures var d := w.db.devices[i];
            var written := StampWritten(w, step, d.tenantId, d.id);
            i < |Next(w, step).db.devices|
            && Next(w, step).db.devices[i].lastCalibratedAt == if written.Some? then written else d.lastCalibratedAt
  {
    StepKeepsIdentities(w, step);
    if Enabled(w, step) && step.Advance? {
      var statement := StatementOf(w.sessions[step.key]);
      if statement.UpdateFields? || statement.Stamp? { UpdatedStamp(w.db, step.key.tenant, statement, step.now, i); }
    }
  }

  lemma UpdatedStamp(db: Db, tenant: Tenant, statement: Statement, now: int, i: nat)
    requires i < |db.devices| && (statement.UpdateFields? || statement.Stamp?)
    ensures var d, t := db.devices[i], Effect(db, tenant, statement, now);
            i < |t.devices|
            && t.devices[i].lastCalibratedAt
               == if statement.Stamp? && d.tenantId == tenant && statement.id == d.id then Some(statement.at)
                  else d.lastCalibratedAt
  {}

  /**
   Updates and stamps do not clobber each other: in every interleaving of the two statements of any number of
   updates with any number of stamps, last_calibrated_at is the value of the last stamp that was written.
   */
  lemma {:induction false} StampIsTheLastWritten(w: World, steps: seq<Step>, i: nat)
    requires i < |w.db.devices|
    ensures i < |Run(w, steps).db.devices|
    ensures var d := w.db.devices[i];
            Run(w, steps).db.devices[i].lastCalibratedAt == LastStamp(w, steps, d.tenantId, d.id, d.lastCalibratedAt)
    decreases |steps|
  {
    if steps != [] {
      StampStep(w, steps[0], i);
      StepKeepsIdentities(w, steps[0]);
      assert SameIdentity(w.db.devices[i], Next(w, steps[0]).db.devices[i]);
      StampIsTheLastWritten(Next(w, steps[0]), steps[1..], i);
    }
  }

  // ----- partial updates

  /** Where the update sets no value, the row that was read says what the row says now. */
  predicate UnsetFieldsAgree(read: Device, now: Device, update: UpdateDeviceRequest) {
    && (update.name.None? ==> read.name == now.name)
    && (update.location.None? ==> read.location == now.location)
    && (update.manufacturer.None? ==> read.manufacturer == now.manufacturer)
    && (update.model.None? ==> read.model == now.model)
    && (update.tolerancePct.None? ==> read.tolerancePct == now.tolerancePct)
    && (update.isActive.None? ==> read.isActive == now.isActive)
  }

  /** The written row is the partial update of the current one exactly when no field it leaves alone has moved. */
  lemma LostUpdateExactly(tenant: Tenant, read: Device, now: Device, update: UpdateDeviceRequest)
    requires read.id == now.id && now.tenantId == tenant
    ensures SetFields(tenant, Merge(read, update))(now) == Merge(now, update) <==> UnsetFieldsAgree(read, now, update)
    ensures SetFields(tenant, Merge(read, update))(now).lastCalibratedAt == now.lastCalibratedAt
  {}

  lemma {:induction false} UntouchedSession(w: World, steps: seq<Step>, key: Key)
    requires key in w.sessions && forall i :: 0 <= i < |steps| ==> steps[i].key != key
    ensures key in Run(w, steps).sessions && Run(w, steps).sessions[key] == w.sessions[key]
    decreases |steps|
  {
    if steps != [] { UntouchedSession(Next(w, steps[0]), steps[1..], key); }
  }

  lemma FoundRow(devices: seq<Device>, tenant: Tenant, i: nat)
    requires Unique(devices) && i < |devices| && devices[i].tenantId == tenant
    ensures Filter(ThisDevice(tenant, devices[i].id), devices) != []
    ensures Filter(ThisDevice(tenant, devices[i].id), devices)[0] == devices[i]
  {
    var found := Filter(ThisDevice(tenant, devices[i].id), devices);
    assert devices[i] in devices && devices[i] in found;
    assert found[0] in found;
    var j :| 0 <= j < |devices| && devices[j] == found[0];
  }

  /** A device update that has its read and its write ahead. */
  predicate Updating(w: World, key: Key, i: nat, update: UpdateDeviceRequest) {
    && i < |w.db.devices| && w.db.devices[i].tenantId == key.tenant && key in w.sessions
    && w.sessions[key] == Session(UpdateDevice(w.db.devices[i].id, update), None, Begin)
  }

  lemma UpdateReads(w: World, key: Key, now: int, i: nat, update: UpdateDeviceRequest)
    requires Unique(w.db.devices) && Updating(w, key, i, update)
    ensures var t := Next(w, Advance(key, Healthy, now));
            t.db == w.db && key in t.sessions && t.sessions[key].local == Merged(Merge(w.db.devices[i], update))
            && WellFormed(t.sessions[key].op)
  {
    FoundRow(w.db.devices, key.tenant, i);
  }

  lemma UpdateWrites(w: World, key: Key, now: int, i: nat, read: Device, update: UpdateDeviceRequest)
    requires key in w.sessions && WellFormed(w.sessions[key].op) && w.sessions[key].local == Merged(Merge(read, update))
    requires i < |w.db.devices| && read.id == w.db.devices[i].id && w.db.devices[i].tenantId == key.tenant
    ensures var t := Next(w, Advance(key, Healthy, now));
            && |t.db.devices| == |w.db.devices|
            && t.db.devices[i] == SetFields(key.tenant, Merge(read, update))(w.db.devices[i])
            && t.sessions[key].local == Reading(read.id)
  {}

  /**
   Between an update's read and its write anything may run. The write makes the row the partial update of what
   it is by then if and only if the fields it leaves alone are still as they were read, and never moves the stamp.
   */
  lemma ConcurrentUpdate(w: World, key: Key, i: nat, update: UpdateDeviceRequest, others: seq<Step>, early: int,
                         late: int)
    requires Unique(w.db.devices) && Updating(w, key, i, update)
    requires forall k :: 0 <= k < |others| ==> others[k].key != key
    ensures var before := Run(Next(w, Advance(key, Healthy, early)), others);
            var after := Next(before, Advance(key, Healthy, late));
            && i < |before.db.devices| && i < |after.db.devices|
            && (after.db.devices[i] == Merge(before.db.devices[i], update)
                <==> UnsetFieldsAgree(w.db.devices[i], before.db.devices[i], update))
            && after.db.devices[i].lastCalibratedAt == before.db.devices[i].lastCalibratedAt
  {
    var t := Next(w, Advance(key, Healthy, early));
    UpdateReads(w, key, early, i, update);
    UntouchedSession(t, others, key);
    IdentityNeverChanges(t, others);
    var before := Run(t, others);
    assert SameIdentity(w.db.devices[i], before.db.devices[i]);
    UpdateWrites(before, key, late, i, w.db.devices[i], update);
    LostUpdateExactly(key.tenant, w.db.devices[i], before.db.devices[i], update);
  }

  // ----- a lost update

  function SetName(name: string): UpdateDeviceRequest {
    UpdateDeviceRequest(Some(name), None, None, None, None, None)
  }

  function SetLocation(location: string): UpdateDeviceRequest {
    UpdateDeviceRequest(None, Some(location), None, None, None, None)
  }

  /** An update that has read the row and not yet written it. */
  predicate HasRead(w: World, key: Key, i: nat, read: Device, update: UpdateDeviceRequest) {
    && i < |w.db.devices| && w.db.devices[i].tenantId == key.tenant && w.db.devices[i].id == read.id
    && key in w.sessions && w.sessions[key] == Session(UpdateDevice(read.id, update), None, Merged(Merge(read, update)))
  }

  predicate HasWritten(w: World, key: Key, i: nat, update: UpdateDeviceRequest) {
    && i < |w.db.devices| && w.db.devices[i].tenantId == key.tenant && key in w.sessions
    && w.sessions[key] == Session(UpdateDevice(w.db.devices[i].id, update), None, Reading(w.db.devices[i].id))
  }

  lemma BothRead(w: World, a: Key, b: Key, i: nat, u: UpdateDeviceRequest, v: UpdateDeviceRequest, now: int)
    requires Unique(w.db.devices) && a != b && Updating(w, a, i, u) && Updating(w, b, i, v)
    ensures var t := Next(Next(w, Advance(a, Healthy, now)), Advance(b, Healthy, now));
            t.db == w.db && HasRead(t, a, i, w.db.devices[i], u) && HasRead(t, b, i, w.db.devices[i], v)
  {
    var s := Next(w, Advance(a, Healthy, now));
    UpdateReads(w, a, now, i, u);
    assert s.sessions[a] == Session(UpdateDevice(w.db.devices[i].id, u), None, Merged(Merge(w.db.devices[i], u)));
    assert Updating(s, b, i, v);
    UpdateReads(s, b, now, i, v);
  }

  lemma BothWrite(w: World, a: Key, b: Key, i: nat, read: Device, u: UpdateDeviceRequest, v: UpdateDeviceRequest,
                  now: int)
    requires a != b && HasRead(w, a, i, read, u) && HasRead(w, b, i, read, v)
    ensures var t := Next(Next(w, Advance(a, Healthy, now)), Advance(b, Healthy, now));
            && HasWritten(t, a, i, u) && HasWritten(t, b, i, v)
            && t.db.devices[i]
               == SetFields(b.tenant, Merge(read, v))(SetFields(a.tenant, Merge(read, u))(w.db.devices[i]))
  {
    UpdateWrites(w, a, now, i, read, u);
    var s := Next(w, Advance(a, Healthy, now));
    assert HasRead(s, b, i, read, v);
    UpdateWrites(s, b, now, i, read, v);
  }

  lemma BothAnswer(w: World, a: Key, b: Key, i: nat, u: UpdateDeviceRequest, v: UpdateDeviceRequest, now: int)
    requires Unique(w.db.devices) && a != b && HasWritten(w, a, i, u) && HasWritten(w, b, i, v)
    ensures var t := Next(Next(w, Advance(a, Healthy, now)), Advance(b, Healthy, now));
            && t.db == w.db && a in t.sessions && b in t.sessions
            && t.sessions[a].local == t.sessions[b].local == Finished(DeviceBody(w.db.devices[i]))
  {
    ReadBackUpdated(w, a, now, i);
    ReadBackUpdated(Next(w, Advance(a, Healthy, now)), b, now, i);
  }

  function Both(w: World, a: Key, b: Key, now: int): World {
    Next(Next(w, Advance(a, Healthy, now)), Advance(b, Healthy, now))
  }

  /** Read, read, write, write, read back twice: the second write undoes the name, and both requests answer the row. */
  lemma LostUpdate(w: World, a: Key, b: Key, i: nat, name: string, location: string, now: int)
    requires Unique(w.db.devices) && a != b
    requires Updating(w, a, i, SetName(name)) && Updating(w, b, i, SetLocation(location))
    ensures var t := Both(Both(Both(w, a, b, now), a, b, now), a, b, now);
            && i < |t.db.devices| && t.db.devices[i] == w.db.devices[i].(location := location)
            && a in t.sessions && t.sessions[a].local == Finished(DeviceBody(t.db.devices[i]))
            && b in t.sessions && t.sessions[b].local == Finished(DeviceBody(t.db.devices[i]))
  {
    var u, v := SetName(name), SetLocation(location);
    BothRead(w, a, b, i, u, v, now);
    var s := Both(w, a, b, now);
    BothWrite(s, a, b, i, w.db.devices[i], u, v, now);
    EffectKeepsUnique(s.db, a.tenant, UpdateFields(Merge(w.db.devices[i], u)), now);
    EffectKeepsUnique(Next(s, Advance(a, Healthy, now)).db, b.tenant, UpdateFields(Merge(w.db.devices[i], v)), now);
    BothAnswer(Both(s, a, b, now), a, b, i, u, v, now);
  }

  /** It happens: a fresh device and two requests of its tenant. */
  lemma LostUpdateHappens(tenant: Tenant, req: CreateDeviceRequest, name: string, location: string, now: int)
    requires Required(req) && name != req.name
    ensures var c, a, b := Key(tenant, 0), Key(tenant, 1), Key(tenant, 2);
            var w := Run(Empty, [Arrive(c, CreateDevice(0, req)), Advance(c, Healthy, now),
                                 Arrive(a, UpdateDevice(0, SetName(name))),
                                 Arrive(b, UpdateDevice(0, SetLocation(location)))]);
            var t := Both(Both(Both(w, a, b, now), a, b, now), a, b, now);
            && |t.db.devices| > 0 && t.db.devices[0].name == req.name && t.db.devices[0].location == location
            && a in t.sessions && t.sessions[a].local == Finished(DeviceBody(t.db.devices[0]))
  {
    var c, a, b := Key(tenant, 0), Key(tenant, 1), Key(tenant, 2);
    var steps := [Arrive(c, CreateDevice(0, req)), Advance(c, Healthy, now),
                  Arrive(a, UpdateDevice(0, SetName(name))), Arrive(b, UpdateDevice(0, SetLocation(location)))];
    RunFour(Empty, steps);
    var s := Next(Empty, steps[0]);
    RegistrationInserts(s, c, 0, req, now);
    var w := Run(Empty, steps);
    DevicesAreUnique(steps);
    assert Updating(w, a, 0, SetName(name)) && Updating(w, b, 0, SetLocation(location));
    LostUpdate(w, a, b, 0, name, location, now);
  }

  /** The four steps of an undisturbed update request. */
  function SerialUpdate(key: Key, id: Id, update: UpdateDeviceRequest, now: int): seq<Step> {
    [Arrive(key, UpdateDevice(id, update)), Advance(key, Healthy, now), Advance(key, Healthy, now),
     Advance(key, Healthy, now)]
  }

  lemma RunFour(w: World, steps: seq<Step>)
    requires |steps| == 4
    ensures Run(w, steps) == Next(Next(Next(Next(w, steps[0]), steps[1]), steps[2]), steps[3])
  {
    assert steps[1..][1..] == steps[2..] && steps[2..][1..] == steps[3..] && steps[3..][1..] == [];
    var s1 := Next(w, steps[0]);
    var s2 := Next(s1, steps[1]);
    assert Run(s1, steps[1..]) == Run(s2, steps[2..]);
    var s3 := Next(s2, steps[2]);
    assert Run(s2, steps[2..]) == Run(s3, steps[3..]);
    assert Run(s3, steps[3..]) == Run(Next(s3, steps[3]), []);
  }

  lemma ReadBackUpdated(w: World, key: Key, now: int, i: nat)
    requires Unique(w.db.devices) && i < |w.db.devices| && w.db.devices[i].tenantId == key.tenant
    requires key in w.sessions && WellFormed(w.sessions[key].op) && w.sessions[key].local == Reading(w.db.devices[i].id)
    ensures var t := Next(w, Advance(key, Healthy, now));
            t.db == w.db && key in t.sessions && t.sessions[key].local == Finished(DeviceBody(w.db.devices[i]))
  {
    FoundRow(w.db.devices, key.tenant, i);
  }

  /** Undisturbed, an update makes the row its partial update and answers with it. */
  lemma SerialUpdateMerges(w: World, key: Key, i: nat, update: UpdateDeviceRequest, now: int)
    requires Unique(w.db.devices) && i < |w.db.devices| && w.db.devices[i].tenantId == key.tenant && key !in w.sessions
    ensures var t := Run(w, SerialUpdate(key, w.db.devices[i].id, update, now));
            && Unique(t.db.devices) && |t.db.devices| == |w.db.devices|
            && t.db.devices[i] == Merge(w.db.devices[i], update)
            && key in t.sessions && t.sessions[key].local == Finished(DeviceBody(Merge(w.db.devices[i], update)))
            && t.sessions.Keys == w.sessions.Keys + {key}
  {
    var d := w.db.devices[i];
    var steps := SerialUpdate(key, d.id, update, now);
    RunFour(w, steps);
    var s1 := Next(w, steps[0]);
    UpdateReads(s1, key, now, i, update);
    var s2 := Next(s1, steps[1]);
    UpdateWrites(s2, key, now, i, d, update);
    LostUpdateExactly(key.tenant, d, d, update);
    var s3 := Next(s2, steps[2]);
    EffectKeepsUnique(s2.db, key.tenant, UpdateFields(Merge(d, update)), now);
    ReadBackUpdated(s3, key, now, i);
  }

  function MergeAll(d: Device, updates: seq<UpdateDeviceRequest>): Device
    decreases |updates|
  {
    if updates == [] then d else MergeAll(Merge(d, updates[0]), updates[1..])
  }

  /** The requests of one tenant, one after the other, numbered from n on. */
  function SerialUpdates(tenant: Tenant, n: nat, id: Id, updates: seq<UpdateDeviceRequest>, now: int): seq<Step>
    decreases |updates|
  {
    if updates == [] then []
    else SerialUpdate(Key(tenant, n), id, updates[0], now) + SerialUpdates(tenant, n + 1, id, updates[1..], now)
  }

  lemma {:induction false} SerialUpdatesMerge(w: World, tenant: Tenant, n: nat, i: nat,
                                              updates: seq<UpdateDeviceRequest>, now: int)
    requires Unique(w.db.devices) && i < |w.db.devices| && w.db.devices[i].tenantId == tenant
    requires forall k :: k in w.sessions && k.tenant == tenant ==> k.number < n
    ensures var t := Run(w, SerialUpdates(tenant, n, w.db.devices[i].id, updates, now));
            i < |t.db.devices| && t.db.devices[i] == MergeAll(w.db.devices[i], updates)
    decreases |updates|
  {
    if updates != [] {
      var d := w.db.devices[i];
      var first := SerialUpdate(Key(tenant, n), d.id, updates[0], now);
      SerialUpdateMerges(w, Key(tenant, n), i, updates[0], now);
      var t := Run(w, first);
      RunConcat(w, first, SerialUpdates(tenant, n + 1, d.id, updates[1..], now));
      SerialUpdatesMerge(t, tenant, n + 1, i, updates[1..], now);
    }
  }

  /** The last value a list of updates sets for one field. */
  function LastSet<T>(field: UpdateDeviceRequest -> Option<T>, updates: seq<UpdateDeviceRequest>): Option<T> {
    if updates == [] then None
    else if LastSet(field, updates[1..]).Some? then LastSet(field, updates[1..]) else field(updates[0])
  }

  lemma {:induction false} LastWriterWins(d: Device, updates: seq<UpdateDeviceRequest>)
    ensures var r := MergeAll(d, updates);
            && r.name == Or(LastSet((u: UpdateDeviceRequest) => u.name, updates), d.name)
            && r.location == Or(LastSet((u: UpdateDeviceRequest) => u.location, updates), d.location)
            && r.manufacturer == Or(LastSet((u: UpdateDeviceRequest) => u.manufacturer, updates), d.manufacturer)
            && r.model == Or(LastSet((u: UpdateDeviceRequest) => u.model, updates), d.model)
            && r.tolerancePct == Or(LastSet((u: UpdateDeviceRequest) => u.tolerancePct, updates), d.tolerancePct)
            && r.isActive == Or(LastSet((u: UpdateDeviceRequest) => u.isActive, updates), d.isActive)
            && SameIdentity(r, d) && r.lastCalibratedAt == d.lastCalibratedAt
    decreases |updates|
  {
    if updates != [] { LastWriterWins(Merge(d, updates[0]), updates[1..]); }
  }

  /**
   Serial partial updates amount to field-wise last-writer-wins: each editable field has the last value set for
   it, or its old one, and everything else is untouched.
   */
  lemma SerialUpdatesAreLastWriterWins(w: World, tenant: Tenant, n: nat, i: nat, updates: seq<UpdateDeviceRequest>,
                                       now: int)
    requires Unique(w.db.devices) && i < |w.db.devices| && w.db.devices[i].tenantId == tenant
    requires forall k :: k in w.sessions && k.tenant == tenant ==> k.number < n
    ensures var t := Run(w, SerialUpdates(tenant, n, w.db.devices[i].id, updates, now));
            var d := w.db.devices[i];
            i < |t.db.devices|
            && t.db.devices[i] == d.(
                 name := Or(LastSet((u: UpdateDeviceRequest) => u.name, updates), d.name),
                 location := Or(LastSet((u: UpdateDeviceRequest) => u.location, updates), d.location),
                 manufacturer := Or(LastSet((u: UpdateDeviceRequest) => u.manufacturer, updates), d.manufacturer),
                 model := Or(LastSet((u: UpdateDeviceRequest) => u.model, updates), d.model),
                 tolerancePct := Or(LastSet((u: UpdateDeviceRequest) => u.tolerancePct, updates), d.tolerancePct),
                 isActive := Or(LastSet((u: UpdateDeviceRequest) => u.isActive, updates), d.isActive))
  {
    SerialUpdatesMerge(w, tenant, n, i, updates, now);
    LastWriterWins(w.db.devices[i], updates);
  }
}
