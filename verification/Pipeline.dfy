/**
 Ingestion, queue and workers as one labelled transition system. A step is what happens between two awaits
 of one API request, one worker or the broker; a run is any sequence of steps, so every interleaving,
 duplicate delivery, fault and crash is a run. A step that is not enabled changes nothing.
 */
module Pipeline {
  import opened Wrappers
  import opened Detector

  /** A uuid or a broker-assigned number. */
  type Id = nat

  const MAX_RETRIES: nat := 3
  const MAX_DELIVERY_COUNT: nat := 3

  datatype DeviceType = Pressure | Temperature | Electrical | Flow

  datatype Status = Received | Processing | Validated | Anomaly | Rejected

  datatype Device = Device(serialNumber: string, name: string, deviceType: DeviceType)

  datatype Values = Values(deviceId: Id, measuredValue: real, referenceValue: real, uncertainty: real, unit: string)

  /** raw-measurements/{device}/{year}/{month}/{measurement}.json */
  datatype BlobUrl = BlobUrl(deviceId: Id, year: nat, month: nat, measurementId: Id)

  datatype Measurement = Measurement(values: Values, measuredAt: int, status: Status, rawDataUrl: Option<BlobUrl>)

  /** The queued JSON, which is also the raw JSON that a worker uploads. */
  datatype Message = Message(measurementId: Id, values: Values)

  datatype Analysis = Analysis(measurementId: Id, result: AnomalyResult)

  datatype AuditEntry = AuditEntry(userId: string, action: string, resourceId: Id)

  /** The committed tables. */
  datatype Database = Database(
    devices: map<Id, Device>, measurements: map<Id, Measurement>, analyses: seq<Analysis>, audit: seq<AuditEntry>)

  datatype Stage = Inserted | Audited | Published

  /** An API request's open database session: rows no other session sees before it commits. */
  datatype Session = Session(id: Id, row: Measurement, operator: string, stage: Stage)

  /** Peek-lock queue: every delivery of a message has its own lock token. */
  datatype Broker = Broker(
    bodies: map<Id, Message>, queued: set<Id>, locked: map<Id, nat>, completed: set<Id>, deadLettered: set<Id>,
    deliveries: map<Id, nat>)

  datatype Phase =
    | Starting
    | Uploaded(url: BlobUrl)
    | Found(url: BlobUrl, result: AnomalyResult)
    | Finished
    | Rejecting

  /** One delivery in the hands of one worker; it may outlive its lock. */
  datatype Job = Job(message: Id, token: nat, attempt: nat, phase: Phase)

  /**
   `issued` records every measurement id handed out with the values it names, and `notFound` the messages
   for which a worker logged measurement_not_found.
   */
  datatype State = State(
    db: Database, sessions: map<Id, Session>, broker: Broker, jobs: map<Id, Job>, blobs: map<BlobUrl, Message>,
    issued: map<Id, Values>, notFound: set<Id>)

  datatype Step =
    // API
    | RegisterDevice(id: Id, device: Device)
    | Insert(session: Id, id: Id, values: Values, measuredAt: int, operator: string)
    | Audit(session: Id)
    | Publish(session: Id, message: Id)
    | CommitSession(session: Id)
    | RollbackSession(session: Id)
    // Broker
    | Deliver(message: Id, job: Id)
    | ExpireLock(message: Id)
    | ExpireMessage(message: Id)
    // Worker
    | Upload(job: Id, year: nat, month: nat)
    | Read(job: Id)
    | Commit(job: Id, ackLost: bool)
    | Fault(job: Id)
    | Complete(job: Id)
    | CompleteFails(job: Id, applied: bool)
    | DeadLetter(job: Id)
    | Crash(job: Id)

  const Start: State :=
    State(Database(map[], map[], [], []), map[], Broker(map[], {}, map[], {}, {}, map[]), map[], map[], map[], {})

  predicate SerialTaken(db: Database, serialNumber: string) {
    exists d :: d in db.devices && db.devices[d].serialNumber == serialNumber
  }

  /** The analysis stored for a measurement. */
  function AnalysisOf(analyses: seq<Analysis>, id: Id): Option<AnomalyResult> {
    if analyses == [] then None
    else if analyses[|analyses| - 1].measurementId == id then Some(analyses[|analyses| - 1].result)
    else AnalysisOf(analyses[..|analyses| - 1], id)
  }

  predicate Enabled(s: State, step: Step) {
    match step
    case RegisterDevice(id, device) => id !in s.db.devices && !SerialTaken(s.db, device.serialNumber)
    case Insert(session, id, values, _, _) =>
      session !in s.sessions && id !in s.issued && values.deviceId in s.db.devices && values.uncertainty > 0.0
    case Audit(session) => session in s.sessions && s.sessions[session].stage == Inserted
    case Publish(session, message) =>
      session in s.sessions && s.sessions[session].stage != Inserted && message !in s.broker.bodies
    case CommitSession(session) => session in s.sessions && s.sessions[session].stage == Published
    case RollbackSession(session) => session in s.sessions
    case Deliver(message, job) => message in s.broker.queued && message in s.broker.deliveries && job !in s.jobs
    case ExpireLock(message) => message in s.broker.locked && message in s.broker.deliveries
    case ExpireMessage(message) => message in s.broker.queued
    case Upload(job, _, _) => InPhase(s, job, Starting)
    case Read(job) => Holds(s, job) && s.jobs[job].phase.Uploaded?
    case Commit(job, _) => Holds(s, job) && s.jobs[job].phase.Found?
    case Fault(job) => Holds(s, job) && s.jobs[job].phase != Finished && s.jobs[job].phase != Rejecting
    case Complete(job) => InPhase(s, job, Finished)
    case CompleteFails(job, _) => InPhase(s, job, Finished)
    case DeadLetter(job) => InPhase(s, job, Rejecting)
    case Crash(job) => job in s.jobs
  }

  predicate Holds(s: State, job: Id) {
    job in s.jobs && s.jobs[job].message in s.broker.bodies
  }

  predicate InPhase(s: State, job: Id, phase: Phase) {
    Holds(s, job) && s.jobs[job].phase == phase
  }

  predicate HasLock(s: State, job: Job) {
    job.message in s.broker.locked && s.broker.locked[job.message] == job.token
  }

  function Body(s: State, job: Id): Message
    requires Holds(s, job)
  {
    s.broker.bodies[s.jobs[job].message]
  }

  /** The detector a worker runs: any deterministic model with the same interface can take its place. */
  type Detect = Values -> Result<AnomalyResult, Failure>

  function ZScoreDetect(cfg: Config): Detect {
    (values: Values) => Analyze(cfg, values.measuredValue, values.referenceValue, values.uncertainty)
  }

  function StatusOf(result: AnomalyResult): Status {
    if result.isAnomaly then Anomaly else Validated
  }

  /** An exception in an attempt: back off and start the next one, or give up after the last. */
  function AttemptFails(job: Job): Job {
    if job.attempt == MAX_RETRIES then job.(phase := Rejecting) else job.(attempt := job.attempt + 1, phase := Starting)
  }

  function SetJob(s: State, id: Id, job: Job): State {
    s.(jobs := s.jobs[id := job])
  }

  function DropJob(s: State, id: Id): State {
    s.(jobs := s.jobs - {id})
  }

  /** The worker's transaction: the analysis row and the measurement's status and url, together. */
  function StoreAnalysis(db: Database, id: Id, url: BlobUrl, result: AnomalyResult): Database
    requires id in db.measurements
  {
    db.(analyses := db.analyses + [Analysis(id, result)],
        measurements := db.measurements[
          id := db.measurements[id].(status := StatusOf(result), rawDataUrl := Some(url))])
  }

  function Unlock(b: Broker, message: Id): Broker {
    b.(locked := b.locked - {message})
  }

  function MarkCompleted(b: Broker, message: Id): Broker {
    Unlock(b, message).(completed := b.completed + {message})
  }

  function MarkDead(b: Broker, message: Id): Broker {
    Unlock(b, message).(queued := b.queued - {message}, deadLettered := b.deadLettered + {message})
  }

  function ApplyApi(s: State, step: Step): State
    requires Enabled(s, step)
  {
    match step
    case RegisterDevice(id, device) => s.(db := s.db.(devices := s.db.devices[id := device]))
    case Insert(session, id, values, measuredAt, operator) =>
      var row := Measurement(values, measuredAt, Received, None);
      s.(sessions := s.sessions[session := Session(id, row, operator, Inserted)],
         issued := s.issued[id := values])
    case Audit(session) => s.(sessions := s.sessions[session := s.sessions[session].(stage := Audited)])
    case Publish(session, message) =>
      var open := s.sessions[session];
      s.(sessions := s.sessions[session := open.(stage := Published)],
         broker := s.broker.(bodies := s.broker.bodies[message := Message(open.id, open.row.values)],
                             queued := s.broker.queued + {message},
                             deliveries := s.broker.deliveries[message := 0]))
    case CommitSession(session) =>
      var open := s.sessions[session];
      s.(sessions := s.sessions - {session},
         db := s.db.(measurements := s.db.measurements[open.id := open.row],
                     audit := s.db.audit + [AuditEntry(open.operator, "create_measurement", open.id)]))
    case RollbackSession(session) => s.(sessions := s.sessions - {session})
    case _ => s
  }

  function ApplyBroker(s: State, step: Step): State
    requires Enabled(s, step)
  {
    match step
    case Deliver(message, job) =>
      var token := s.broker.deliveries[message] + 1;
      s.(broker := s.broker.(queued := s.broker.queued - {message},
                             locked := s.broker.locked[message := token],
                             deliveries := s.broker.deliveries[message := token]),
         jobs := s.jobs[job := Job(message, token, 1, Starting)])
    case ExpireLock(message) =>
      if s.broker.deliveries[message] < MAX_DELIVERY_COUNT then
        s.(broker := Unlock(s.broker, message).(queued := s.broker.queued + {message}))
      else
        s.(broker := MarkDead(s.broker, message))
    case ExpireMessage(message) => s.(broker := MarkDead(s.broker, message))
    case _ => s
  }

  function ApplyWorker(detect: Detect, s: State, step: Step): State
    requires Enabled(s, step)
  {
    match step
    case Upload(job, year, month) =>
      var body := Body(s, job);
      var url := BlobUrl(body.values.deviceId, year, month, body.measurementId);
      SetJob(s.(blobs := s.blobs[url := body]), job, s.jobs[job].(phase := Uploaded(url)))
    case Read(job) =>
      (match detect(Body(s, job).values)
       case Err(_) => SetJob(s, job, AttemptFails(s.jobs[job]))
       case Ok(result) =>
         if Body(s, job).measurementId in s.db.measurements then
           SetJob(s, job, s.jobs[job].(phase := Found(s.jobs[job].phase.url, result)))
         else
           SetJob(s.(notFound := s.notFound + {s.jobs[job].message}), job, s.jobs[job].(phase := Finished)))
    case Commit(job, ackLost) =>
      var id := Body(s, job).measurementId;
      if id !in s.db.measurements || AnalysisOf(s.db.analyses, id).Some? then
        SetJob(s, job, AttemptFails(s.jobs[job]))
      else
        SetJob(s.(db := StoreAnalysis(s.db, id, s.jobs[job].phase.url, s.jobs[job].phase.result)), job,
               if ackLost then AttemptFails(s.jobs[job]) else s.jobs[job].(phase := Finished))
    case Fault(job) => SetJob(s, job, AttemptFails(s.jobs[job]))
    case Complete(job) =>
      if HasLock(s, s.jobs[job]) then
        DropJob(s.(broker := MarkCompleted(s.broker, s.jobs[job].message)), job)
      else
        SetJob(s, job, s.jobs[job].(phase := Rejecting))
    case CompleteFails(job, applied) =>
      var settles := applied && HasLock(s, s.jobs[job]);
      SetJob(if settles then s.(broker := MarkCompleted(s.broker, s.jobs[job].message)) else s,
             job, s.jobs[job].(phase := Rejecting))
    case DeadLetter(job) =>
      DropJob(if HasLock(s, s.jobs[job]) then s.(broker := MarkDead(s.broker, s.jobs[job].message)) else s, job)
    case Crash(job) => DropJob(s, job)
    case _ => s
  }

  predicate ApiStep(step: Step) {
    step.RegisterDevice? || step.Insert? || step.Audit? || step.Publish? || step.CommitSession? || step.RollbackSession?
  }

  predicate BrokerStep(step: Step) {
    step.Deliver? || step.ExpireLock? || step.ExpireMessage?
  }

  function Next(detect: Detect, s: State, step: Step): State {
    if !Enabled(s, step) then s
    else if ApiStep(step) then ApplyApi(s, step)
    else if BrokerStep(step) then ApplyBroker(s, step)
    else ApplyWorker(detect, s, step)
  }

  function Run(detect: Detect, s: State, steps: seq<Step>): State
    decreases |steps|
  {
    if steps == [] then s else Run(detect, Next(detect, s, steps[0]), steps[1..])
  }

  lemma {:induction false} RunConcat(detect: Detect, s: State, first: seq<Step>, second: seq<Step>)
    ensures Run(detect, s, first + second) == Run(detect, Run(detect, s, first), second)
    decreases |first|
  {
    if first == [] {
      assert first + second == second;
    } else {
      assert (first + second)[1..] == first[1..] + second;
      RunConcat(detect, Next(detect, s, first[0]), first[1..], second);
    }
  }
}
