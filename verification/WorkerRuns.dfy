/**
 What one worker and one request make of a world in which others act at every await: the outcome of an attempt, of
 the retries around it and of a delivery, as functions of the awaited events, and exactly when each of them fails.
 */
module WorkerRuns {
  import opened Wrappers
  import opened Detector
  import opened Pipeline
  import opened PipelineSafety
  import opened PipelineTheorems

  /** What happens at one await: steps of others, then the outcome of the awaited call. */
  datatype Event = Event(others: seq<Step>, fault: bool, applied: bool, year: nat, month: nat)

  /** Steps only the owner of these jobs and this session takes. */
  predicate Touches(step: Step, jobs: set<Id>) {
    match step
    case Upload(j, _, _) => j in jobs
    case Read(j) => j in jobs
    case Commit(j, _) => j in jobs
    case Fault(j) => j in jobs
    case Complete(j) => j in jobs
    case CompleteFails(j, _) => j in jobs
    case DeadLetter(j) => j in jobs
    case Crash(j) => j in jobs
    case _ => false
  }

  /** A request's own session, and the uuid and broker number that no one else is given. */
  datatype Request = NoRequest | Request(session: Id, id: Id, message: Id)

  predicate Meets(step: Step, request: Request) {
    request.Request? &&
    match step
    case Insert(k, id, _, _, _) => k == request.session || id == request.id
    case Audit(k) => k == request.session
    case Publish(k, m) => k == request.session || m == request.message
    case CommitSession(k) => k == request.session
    case RollbackSession(k) => k == request.session
    case _ => false
  }

  lemma WorkerKeepsOtherJobs(detect: Detect, s: State, step: Step, j: Id)
    requires Enabled(s, step) && !ApiStep(step) && !BrokerStep(step) && j != step.job && j in s.jobs
    ensures var t := ApplyWorker(detect, s, step);
            j in t.jobs && t.jobs[j] == s.jobs[j]
  {}

  lemma ApiKeepsJobs(s: State, step: Step, m: Id)
    requires Enabled(s, step) && ApiStep(step) && m in s.broker.bodies
    ensures ApplyApi(s, step).jobs == s.jobs && m in ApplyApi(s, step).broker.bodies
  {}

  lemma OthersKeepJob(detect: Detect, s: State, step: Step, jobs: set<Id>, j: Id)
    requires Holds(s, j) && j in jobs && !Touches(step, jobs)
    ensures Holds(Next(detect, s, step), j) && Next(detect, s, step).jobs[j] == s.jobs[j]
  {
    if Enabled(s, step) {
      if ApiStep(step) {
        ApiKeepsJobs(s, step, s.jobs[j].message);
      } else if !BrokerStep(step) {
        WorkerKeepsOtherJobs(detect, s, step, j);
        WorkerBodies(detect, s, step);
      }
    }
  }

  lemma OthersKeepJobs(detect: Detect, s: State, step: Step, jobs: set<Id>)
    requires AllHeld(s, jobs) && !Touches(step, jobs)
    ensures KeepsAll(s, Next(detect, s, step), jobs)
  {
    forall j | j in jobs ensures Holds(Next(detect, s, step), j) && Next(detect, s, step).jobs[j] == s.jobs[j] {
      OthersKeepJob(detect, s, step, jobs, j);
    }
  }

  predicate Fresh(s: State, request: Request) {
    request.Request? ==>
      request.session !in s.sessions && request.id !in s.issued && request.message !in s.broker.bodies
      && request.id !in s.db.measurements
  }

  predicate InSession(s: State, request: Request, row: Measurement, operator: string, stage: Stage) {
    && request.Request?
    && request.session in s.sessions && s.sessions[request.session] == Session(request.id, row, operator, stage)
    && request.id !in s.db.measurements
    && (stage != Published ==> request.message !in s.broker.bodies)
  }

  ghost predicate SessionsDiffer(s: State) {
    && (forall k :: k in s.sessions ==> s.sessions[k].id in s.issued)
    && (forall k, l :: k in s.sessions && l in s.sessions && k != l ==> s.sessions[k].id != s.sessions[l].id)
  }

  lemma WorkerKeepsSessions(detect: Detect, s: State, step: Step)
    requires Enabled(s, step) && !ApiStep(step) && !BrokerStep(step)
    ensures ApplyWorker(detect, s, step).sessions == s.sessions && ApplyWorker(detect, s, step).issued == s.issued
  {}

  lemma SessionsDifferStep(detect: Detect, s: State, step: Step)
    requires SessionsDiffer(s)
    ensures SessionsDiffer(Next(detect, s, step))
  {
    if Enabled(s, step) && !ApiStep(step) && !BrokerStep(step) { WorkerKeepsSessions(detect, s, step); }
  }

  predicate AllHeld(s: State, jobs: set<Id>) {
    forall j :: j in jobs ==> Holds(s, j)
  }

  /** The jobs in the set other than j are as they were. */
  predicate KeepsOthers(before: State, after: State, jobs: set<Id>, j: Id) {
    forall k :: k in jobs && k != j ==> Holds(after, k) && k in before.jobs && after.jobs[k] == before.jobs[k]
  }

  predicate KeepsAll(before: State, after: State, jobs: set<Id>) {
    forall k :: k in jobs ==> Holds(after, k) && k in before.jobs && after.jobs[k] == before.jobs[k]
  }

  predicate Ready(s: State, j: Id) {
    Holds(s, j) && s.jobs[j].phase == Starting && s.jobs[j].attempt == 1
  }

  lemma OthersKeepSession(detect: Detect, s: State, step: Step, request: Request, row: Measurement, operator: string,
                          stage: Stage)
    requires SessionsDiffer(s) && !Meets(step, request) && InSession(s, request, row, operator, stage)
    ensures InSession(Next(detect, s, step), request, row, operator, stage)
  {
    if Enabled(s, step) && !ApiStep(step) && !BrokerStep(step) {
      WorkerKeepsInSession(detect, s, step, request, row, operator, stage);
    }
  }

  lemma WorkerKeepsInSession(detect: Detect, s: State, step: Step, request: Request, row: Measurement,
                             operator: string, stage: Stage)
    requires Enabled(s, step) && !ApiStep(step) && !BrokerStep(step) && InSession(s, request, row, operator, stage)
    ensures InSession(ApplyWorker(detect, s, step), request, row, operator, stage)
  {}

  lemma OthersKeepFresh(detect: Detect, s: State, step: Step, request: Request)
    requires SessionsDiffer(s) && !Meets(step, request) && Fresh(s, request)
    ensures Fresh(Next(detect, s, step), request)
  {
    if Enabled(s, step) && !ApiStep(step) && !BrokerStep(step) { WorkerKeepsFresh(detect, s, step, request); }
  }

  lemma WorkerKeepsFresh(detect: Detect, s: State, step: Step, request: Request)
    requires Enabled(s, step) && !ApiStep(step) && !BrokerStep(step) && Fresh(s, request)
    ensures Fresh(ApplyWorker(detect, s, step), request)
  {}

  lemma InsertStep(detect: Detect, s: State, request: Request, values: Values, measuredAt: int, operator: string)
    requires request.Request? && Fresh(s, request) && values.deviceId in s.db.devices && values.uncertainty > 0.0
    ensures var t := Next(detect, s, Insert(request.session, request.id, values, measuredAt, operator));
            InSession(t, request, Measurement(values, measuredAt, Received, None), operator, Inserted)
            && t.db.devices == s.db.devices
  {}

  lemma StageSteps(detect: Detect, s: State, request: Request, row: Measurement, operator: string, stage: Stage)
    requires InSession(s, request, row, operator, stage)
    ensures stage == Inserted ==>
      InSession(Next(detect, s, Audit(request.session)), request, row, operator, Audited)
    ensures stage == Audited ==>
      InSession(Next(detect, s, Publish(request.session, request.message)), request, row, operator, Published)
    ensures stage == Audited ==>
      request.message in Next(detect, s, Publish(request.session, request.message)).broker.bodies
    ensures var t := Next(detect, s, RollbackSession(request.session));
            request.session !in t.sessions && request.id !in t.db.measurements
  {}

  lemma CommitStep(detect: Detect, s: State, request: Request, row: Measurement, operator: string)
    requires InSession(s, request, row, operator, Published)
    ensures var t := Next(detect, s, CommitSession(request.session));
            && request.session !in t.sessions
            && request.id in t.db.measurements && t.db.measurements[request.id] == row
            && t.db.audit == s.db.audit + [AuditEntry(operator, "create_measurement", request.id)]
            && t.broker == s.broker
  {}

  datatype Reply = Accepted | Unprocessable | ServerError

  /** What a step of an attempt makes of its job. */
  predicate AttemptOutcome(before: Job, after: Job, step: Step) {
    if step.Fault? then after == AttemptFails(before)
    else if step.Upload? then after.phase.Uploaded? && after == before.(phase := after.phase)
    else if step.Read? then
      || after == AttemptFails(before)
      || ((after.phase.Found? || after.phase == Finished) && after == before.(phase := after.phase))
    else after == AttemptFails(before) || after == before.(phase := Finished)
  }

  lemma AttemptSteps(detect: Detect, s: State, mine: set<Id>, j: Id, step: Step)
    requires j in mine && AllHeld(s, mine) && Enabled(s, step)
    requires step == Fault(j) || (step.Upload? && step.job == j) || step == Read(j) || (step.Commit? && step.job == j)
    ensures var t := Next(detect, s, step);
            KeepsOthers(s, t, mine, j) && Holds(t, j) && AttemptOutcome(s.jobs[j], t.jobs[j], step)
  {}

  /** The end of a delivery: the job is gone or turned to rejecting, and the message settled if its lock was held. */
  lemma SettleSteps(detect: Detect, s: State, mine: set<Id>, j: Id, step: Step)
    requires j in mine && AllHeld(s, mine) && Enabled(s, step)
    requires step == Complete(j) || (step.CompleteFails? && step.job == j) || step == DeadLetter(j) || step == Crash(j)
    ensures var t, job := Next(detect, s, step), s.jobs[j];
            && KeepsOthers(s, t, mine, j)
            && (if step.Crash? || step.DeadLetter? || (step.Complete? && HasLock(s, job)) then j !in t.jobs
                else Holds(t, j) && t.jobs[j] == job.(phase := Rejecting))
            && (step.Complete? && HasLock(s, job) ==> job.message in t.broker.completed)
            && (step.DeadLetter? && HasLock(s, job) ==> job.message in t.broker.deadLettered)
            && (!HasLock(s, job) ==> t.broker == s.broker)
  {}

  /** A commit that ends the attempt has stored the analysis, the status and the url. */
  lemma CommitStores(detect: Detect, s: State, j: Id, ackLost: bool)
    requires Holds(s, j) && s.jobs[j].phase.Found?
    ensures var t := Next(detect, s, Commit(j, ackLost));
            && Holds(t, j)
            && (t.jobs[j].phase == Finished ==> StoredResult(t, j, s.jobs[j].phase.url, s.jobs[j].phase.result))
  {
    var id := Body(s, j).measurementId;
    if id in s.db.measurements {
      AnalysisOfAppend(s.db.analyses, Analysis(id, s.jobs[j].phase.result), id);
    }
  }

  /** The measurement that job j's message names has this result, the status that goes with it, and this url. */
  predicate StoredResult(s: State, j: Id, url: BlobUrl, result: AnomalyResult) {
    && Holds(s, j) && Body(s, j).measurementId in s.db.measurements
    && AnalysisOf(s.db.analyses, Body(s, j).measurementId) == Some(result)
    && s.db.measurements[Body(s, j).measurementId].status == StatusOf(result)
    && s.db.measurements[Body(s, j).measurementId].rawDataUrl == Some(url)
  }

  /** A read that ends the attempt has logged that there is no row. */
  lemma ReadLogs(detect: Detect, s: State, j: Id)
    requires Holds(s, j) && s.jobs[j].phase.Uploaded?
    ensures var t := Next(detect, s, Read(j));
            && (j in t.jobs && t.jobs[j].phase == Finished ==>
                  Body(s, j).measurementId !in s.db.measurements && s.jobs[j].message in t.notFound)
            && (j in t.jobs && t.jobs[j].phase.Found? ==>
                  detect(Body(s, j).values) == Ok(t.jobs[j].phase.result) && t.jobs[j].phase.url == s.jobs[j].phase.url)
  {}

  lemma ReadKeepsTables(detect: Detect, s: State, j: Id)
    requires Holds(s, j) && s.jobs[j].phase.Uploaded?
    ensures var t := Next(detect, s, Read(j)); t.db == s.db && t.broker == s.broker
  {}

  predicate IsAnswered(s: State, message: Id) {
    Answered(message, s.broker.bodies, s.db.analyses, s.notFound)
  }

  // ----- the worker as a function of the awaited events

  type World = nat -> Event

  /** A state, and the number of the next await. */
  datatype Moment = Moment(state: State, tick: nat)

  datatype Ended = Ended(now: Moment, raised: bool)

  datatype Retried = Retried(now: Moment, raised: bool, slept: nat)

  /** The steps of others at one await; none of them takes a step of these jobs or this request. */
  function AfterOthers(detect: Detect, s: State, others: seq<Step>, mine: set<Id>, request: Request): State
    decreases |others|
  {
    if others == [] then s
    else
      AfterOthers(detect,
                  if Touches(others[0], mine) || Meets(others[0], request) then s else Next(detect, s, others[0]),
                  others[1..], mine, request)
  }

  function Resumed(detect: Detect, world: World, m: Moment, mine: set<Id>): Moment {
    Moment(AfterOthers(detect, m.state, world(m.tick).others, mine, NoRequest), m.tick + 1)
  }

  function Taken(detect: Detect, m: Moment, step: Step): Moment {
    m.(state := Next(detect, m.state, step))
  }

  /** The device of a request's row is in the table when the row is flushed. */
  predicate DeviceThere(detect: Detect, world: World, m: Moment, request: Request, values: Values) {
    values.deviceId in AfterOthers(detect, m.state, world(m.tick).others, {}, request).db.devices
  }

  /** The service gets to the end: the device is there, and none of its three awaits faults. */
  predicate Ingests(detect: Detect, world: World, m: Moment, request: Request, values: Values) {
    && DeviceThere(detect, world, m, request, values)
    && !world(m.tick).fault && !world(m.tick + 1).fault && !world(m.tick + 2).fault
  }

  predicate InFinished(s: State, j: Id) {
    j in s.jobs && s.jobs[j].phase == Finished
  }

  /** The commit, from its await on. */
  function StoreRun(detect: Detect, world: World, m: Moment, mine: set<Id>, j: Id): Ended {
    var event := world(m.tick);
    var t := Taken(detect, Resumed(detect, world, m, mine),
                   if event.fault && !event.applied then Fault(j) else Commit(j, event.fault));
    Ended(t, !InFinished(t.state, j))
  }

  /** Detector, read and commit. */
  function AnalyzeRun(detect: Detect, world: World, m: Moment, mine: set<Id>, j: Id): Ended {
    var resumed := Resumed(detect, world, m, mine);
    if world(m.tick).fault then Ended(Taken(detect, resumed, Fault(j)), true)
    else
      var read := Taken(detect, resumed, Read(j));
      if j in read.state.jobs && read.state.jobs[j].phase.Found? then StoreRun(detect, world, read, mine, j)
      else Ended(read, !InFinished(read.state, j))
  }

  /** One attempt. */
  function AttemptRun(detect: Detect, world: World, m: Moment, mine: set<Id>, j: Id): Ended {
    var event, resumed := world(m.tick), Resumed(detect, world, m, mine);
    if event.fault then Ended(Taken(detect, resumed, Fault(j)), true)
    else AnalyzeRun(detect, world, Taken(detect, resumed, Upload(j, event.year, event.month)), mine, j)
  }

  /** This attempt and those after it. */
  function MessageRun(detect: Detect, world: World, m: Moment, mine: set<Id>, j: Id, attempt: nat, slept: nat): Retried
    decreases MAX_RETRIES - attempt
  {
    var ended := AttemptRun(detect, world, m, mine, j);
    if !ended.raised || attempt >= MAX_RETRIES then Retried(ended.now, ended.raised, slept)
    else MessageRun(detect, world, ended.now, mine, j, attempt + 1, slept + (if attempt == 1 then 2 else 4))
  }

  function RejectRun(detect: Detect, world: World, m: Moment, mine: set<Id>, j: Id): Ended {
    var resumed := Resumed(detect, world, m, mine);
    Ended(Taken(detect, resumed, if world(m.tick).fault then Crash(j) else DeadLetter(j)),
          world(m.tick).fault || !(j in resumed.state.jobs && HasLock(resumed.state, resumed.state.jobs[j])))
  }

  /** The moment at which a processed message is completed or turned to rejecting. */
  function SettledAt(detect: Detect, world: World, m: Moment, mine: set<Id>, j: Id): Moment {
    Taken(detect, Resumed(detect, world, m, mine),
          if world(m.tick).fault then CompleteFails(j, world(m.tick).applied) else Complete(j))
  }

  /** A delivery; it ends raised when an exception leaves the receive loop. */
  function DeliveryRun(detect: Detect, world: World, m: Moment, mine: set<Id>, j: Id): Ended {
    var processed := MessageRun(detect, world, m, mine, j, 1, 0);
    if processed.raised then RejectRun(detect, world, processed.now, mine, j)
    else
      var settled := SettledAt(detect, world, processed.now, mine, j);
      if j !in settled.state.jobs then Ended(settled, false) else RejectRun(detect, world, settled, mine, j)
  }

  function InBatch(batch: seq<Id>): set<Id> {
    set j | j in batch
  }

  function BatchRun(detect: Detect, world: World, m: Moment, batch: seq<Id>): Ended
    decreases |batch|
  {
    if batch == [] then Ended(m, false)
    else
      var first := DeliveryRun(detect, world, m, InBatch(batch), batch[0]);
      if first.raised then first else BatchRun(detect, world, first.now, batch[1..])
  }

  // ----- exactly when an attempt fails

  lemma {:induction false} OthersLeaveJob(detect: Detect, s: State, others: seq<Step>, mine: set<Id>, request: Request,
                                          j: Id)
    requires Holds(s, j) && j in mine
    ensures var t := AfterOthers(detect, s, others, mine, request);
            Holds(t, j) && t.jobs[j] == s.jobs[j] && Body(t, j) == Body(s, j)
    decreases |others|
  {
    if others != [] {
      var t := if Touches(others[0], mine) || Meets(others[0], request) then s else Next(detect, s, others[0]);
      if !Touches(others[0], mine) {
        OthersKeepJob(detect, s, others[0], mine, j);
        BodiesStep(detect, s, others[0]);
      }
      OthersLeaveJob(detect, t, others[1..], mine, request, j);
    }
  }

  lemma CommitExactly(detect: Detect, s: State, j: Id, ackLost: bool)
    requires Holds(s, j) && s.jobs[j].phase.Found?
    ensures var t, id := Next(detect, s, Commit(j, ackLost)), Body(s, j).measurementId;
            && Holds(t, j) && Body(t, j) == Body(s, j)
            && (InFinished(t, j) <==>
                  !ackLost && id in s.db.measurements && AnalysisOf(s.db.analyses, id).None?)
            && (id in s.db.measurements && AnalysisOf(s.db.analyses, id).None? ==>
                  StoredResult(t, j, s.jobs[j].phase.url, s.jobs[j].phase.result))
  {
    var id := Body(s, j).measurementId;
    AnalysisOfAppend(s.db.analyses, Analysis(id, s.jobs[j].phase.result), id);
  }

  lemma FaultIs(detect: Detect, s: State, j: Id)
    requires Holds(s, j) && s.jobs[j].phase != Finished && s.jobs[j].phase != Rejecting
    ensures Holds(Next(detect, s, Fault(j)), j) && !InFinished(Next(detect, s, Fault(j)), j)
  {}

  /** The row is there and has no analysis. */
  predicate Storable(s: State, id: Id) {
    id in s.db.measurements && AnalysisOf(s.db.analyses, id).None?
  }

  /**
   The commit raises if and only if its await faults or, at the commit, the row is gone or has an analysis already;
   what it stores is there unless the fault came first, also when it raises.
   */
  lemma StoreExactly(detect: Detect, world: World, m: Moment, mine: set<Id>, j: Id)
    requires j in mine && Holds(m.state, j) && m.state.jobs[j].phase.Found?
    ensures var ended, event := StoreRun(detect, world, m, mine, j), world(m.tick);
            var s, id := Resumed(detect, world, m, mine).state, Body(m.state, j).measurementId;
            && ended.now.tick == m.tick + 1
            && (ended.raised <==> event.fault || !Storable(s, id))
            && (Storable(s, id) && (!event.fault || event.applied) ==>
                  StoredResult(ended.now.state, j, m.state.jobs[j].phase.url, m.state.jobs[j].phase.result))
  {
    OthersLeaveJob(detect, m.state, world(m.tick).others, mine, NoRequest, j);
    var s := Resumed(detect, world, m, mine).state;
    FaultIs(detect, s, j);
    CommitExactly(detect, s, j, world(m.tick).fault);
  }

  lemma ReadExactly(detect: Detect, s: State, j: Id)
    requires Holds(s, j) && s.jobs[j].phase.Uploaded?
    ensures var t, body := Next(detect, s, Read(j)), Body(s, j);
            && Holds(t, j) && Body(t, j) == body && t.db == s.db
            && (t.jobs[j].phase.Found? <==> detect(body.values).Ok? && body.measurementId in s.db.measurements)
            && (t.jobs[j].phase.Found? ==>
                  t.jobs[j].phase == Found(s.jobs[j].phase.url, detect(body.values).value))
            && (InFinished(t, j) <==> detect(body.values).Ok? && body.measurementId !in s.db.measurements)
            && (InFinished(t, j) ==> s.jobs[j].message in t.notFound)
  {}

  /** The moment of the commit of an attempt that has uploaded and read. */
  function CommitMoment(detect: Detect, world: World, m: Moment, mine: set<Id>, j: Id): Moment {
    Resumed(detect, world, Taken(detect, Resumed(detect, world, m, mine), Read(j)), mine)
  }

  /** The same for detector, read and commit together. */
  lemma AnalyzeExactly(detect: Detect, world: World, m: Moment, mine: set<Id>, j: Id)
    requires j in mine && Holds(m.state, j) && m.state.jobs[j].phase.Uploaded?
    ensures var ended, body := AnalyzeRun(detect, world, m, mine, j), Body(m.state, j);
            var read, commit := Resumed(detect, world, m, mine).state, CommitMoment(detect, world, m, mine, j).state;
            && (ended.raised <==>
                  || world(m.tick).fault || detect(body.values).Err?
                  || (body.measurementId in read.db.measurements
                      && (world(m.tick + 1).fault || !Storable(commit, body.measurementId))))
            && (!ended.raised && body.measurementId in read.db.measurements ==>
                  StoredResult(ended.now.state, j, m.state.jobs[j].phase.url, detect(body.values).value))
            && (!ended.raised && body.measurementId !in read.db.measurements ==>
                  ended.now.tick == m.tick + 1 && m.state.jobs[j].message in ended.now.state.notFound)
  {
    OthersLeaveJob(detect, m.state, world(m.tick).others, mine, NoRequest, j);
    var read := Resumed(detect, world, m, mine);
    ReadExactly(detect, read.state, j);
    if !world(m.tick).fault && Taken(detect, read, Read(j)).state.jobs[j].phase.Found? {
      StoreExactly(detect, world, Taken(detect, read, Read(j)), mine, j);
    }
  }

  /** The moment of the read of an attempt whose upload succeeds. */
  function ReadMoment(detect: Detect, world: World, m: Moment, mine: set<Id>, j: Id): Moment {
    Resumed(detect, world, UploadedAt(detect, world, m, mine, j), mine)
  }

  function UploadedAt(detect: Detect, world: World, m: Moment, mine: set<Id>, j: Id): Moment {
    Taken(detect, Resumed(detect, world, m, mine), Upload(j, world(m.tick).year, world(m.tick).month))
  }

  lemma UploadExactly(detect: Detect, s: State, j: Id, year: nat, month: nat)
    requires InPhase(s, j, Starting)
    ensures var t, body := Next(detect, s, Upload(j, year, month)), Body(s, j);
            var url := BlobUrl(body.values.deviceId, year, month, body.measurementId);
            && Holds(t, j) && t.jobs[j] == s.jobs[j].(phase := Uploaded(url)) && Body(t, j) == body
            && url in t.blobs && t.blobs[url] == body && t.db == s.db
  {}

  /**
   An attempt raises if and only if one of its awaits faults, the detector refuses the values, or, the row having been
   there at the read, it has an analysis at the commit. Otherwise it stores the detector's result, its status and the
   url of the upload or, when there was no row, logs that.
   */
  lemma AttemptExactly(detect: Detect, world: World, m: Moment, mine: set<Id>, j: Id)
    requires j in mine && InPhase(m.state, j, Starting)
    ensures var ended, body := AttemptRun(detect, world, m, mine, j), Body(m.state, j);
            var uploaded := UploadedAt(detect, world, m, mine, j);
            var read, commit := Resumed(detect, world, uploaded, mine).state,
                                CommitMoment(detect, world, uploaded, mine, j).state;
            var url := BlobUrl(body.values.deviceId, world(m.tick).year, world(m.tick).month, body.measurementId);
            && (ended.raised <==>
                  || world(m.tick).fault || world(m.tick + 1).fault || detect(body.values).Err?
                  || (body.measurementId in read.db.measurements
                      && (world(m.tick + 2).fault || !Storable(commit, body.measurementId))))
            && (!ended.raised && body.measurementId in read.db.measurements ==>
                  StoredResult(ended.now.state, j, url, detect(body.values).value))
            && (!ended.raised && body.measurementId !in read.db.measurements ==>
                  ended.now.tick == m.tick + 2 && m.state.jobs[j].message in ended.now.state.notFound)
  {
    OthersLeaveJob(detect, m.state, world(m.tick).others, mine, NoRequest, j);
    var resumed := Resumed(detect, world, m, mine);
    UploadExactly(detect, resumed.state, j, world(m.tick).year, world(m.tick).month);
    AnalyzeExactly(detect, world, UploadedAt(detect, world, m, mine, j), mine, j);
  }

  // ----- retries

  /**
   The message is given up if and only if three attempts in a row raise, each from where the one before left off;
   the backoff is 2 seconds before the second and 4 more before the third.
   */
  lemma MessageExactly(detect: Detect, world: World, m: Moment, mine: set<Id>, j: Id)
    ensures var first := AttemptRun(detect, world, m, mine, j);
            var second := AttemptRun(detect, world, first.now, mine, j);
            var third := AttemptRun(detect, world, second.now, mine, j);
            MessageRun(detect, world, m, mine, j, 1, 0)
            == if !first.raised then Retried(first.now, false, 0)
               else if !second.raised then Retried(second.now, false, 2)
               else Retried(third.now, third.raised, 6)
  {
    var first := AttemptRun(detect, world, m, mine, j);
    var second := AttemptRun(detect, world, first.now, mine, j);
    assert MessageRun(detect, world, second.now, mine, j, 3, 6)
        == Retried(AttemptRun(detect, world, second.now, mine, j).now,
                   AttemptRun(detect, world, second.now, mine, j).raised, 6);
    assert first.raised ==> MessageRun(detect, world, m, mine, j, 1, 0)
                            == MessageRun(detect, world, first.now, mine, j, 2, 2);
  }

  // ----- deliveries

  /** What an attempt leaves of its job. */
  predicate JobLeft(before: State, ended: Ended, j: Id)
    requires Holds(before, j)
  {
    && Holds(ended.now.state, j) && Body(ended.now.state, j) == Body(before, j)
    && ended.now.state.jobs[j] == if ended.raised then AttemptFails(before.jobs[j])
                                  else before.jobs[j].(phase := Finished)
  }

  lemma StepLeavesJob(detect: Detect, s: State, j: Id, step: Step)
    requires Holds(s, j) && Enabled(s, step)
    requires step == Fault(j) || step == Read(j) || (step.Commit? && step.job == j)
    ensures var t := Next(detect, s, step);
            && Holds(t, j) && Body(t, j) == Body(s, j)
            && (t.jobs[j] == AttemptFails(s.jobs[j])
                || t.jobs[j] == s.jobs[j].(phase := Finished)
                || (step == Read(j) && t.jobs[j].phase.Found? && t.jobs[j] == s.jobs[j].(phase := t.jobs[j].phase)))
  {}

  lemma StoreJob(detect: Detect, world: World, m: Moment, mine: set<Id>, j: Id)
    requires j in mine && Holds(m.state, j) && m.state.jobs[j].phase.Found?
    ensures JobLeft(m.state, StoreRun(detect, world, m, mine, j), j)
  {
    OthersLeaveJob(detect, m.state, world(m.tick).others, mine, NoRequest, j);
    var s, event := Resumed(detect, world, m, mine).state, world(m.tick);
    StepLeavesJob(detect, s, j, if event.fault && !event.applied then Fault(j) else Commit(j, event.fault));
  }

  lemma AnalyzeJob(detect: Detect, world: World, m: Moment, mine: set<Id>, j: Id)
    requires j in mine && Holds(m.state, j) && m.state.jobs[j].phase.Uploaded?
    ensures JobLeft(m.state, AnalyzeRun(detect, world, m, mine, j), j)
  {
    OthersLeaveJob(detect, m.state, world(m.tick).others, mine, NoRequest, j);
    var resumed := Resumed(detect, world, m, mine);
    StepLeavesJob(detect, resumed.state, j, if world(m.tick).fault then Fault(j) else Read(j));
    var read := Taken(detect, resumed, Read(j));
    if !world(m.tick).fault && read.state.jobs[j].phase.Found? { StoreJob(detect, world, read, mine, j); }
  }

  lemma AttemptJob(detect: Detect, world: World, m: Moment, mine: set<Id>, j: Id)
    requires j in mine && InPhase(m.state, j, Starting)
    ensures JobLeft(m.state, AttemptRun(detect, world, m, mine, j), j)
  {
    OthersLeaveJob(detect, m.state, world(m.tick).others, mine, NoRequest, j);
    var s, event := Resumed(detect, world, m, mine).state, world(m.tick);
    if event.fault {
      StepLeavesJob(detect, s, j, Fault(j));
    } else {
      UploadExactly(detect, s, j, event.year, event.month);
      AnalyzeJob(detect, world, UploadedAt(detect, world, m, mine, j), mine, j);
    }
  }

  lemma MessageJob(detect: Detect, world: World, m: Moment, mine: set<Id>, j: Id)
    requires j in mine && Ready(m.state, j)
    ensures var processed := MessageRun(detect, world, m, mine, j, 1, 0);
            var s := processed.now.state;
            && Holds(s, j) && s.jobs[j].message == m.state.jobs[j].message && s.jobs[j].token == m.state.jobs[j].token
            && s.jobs[j].phase == if processed.raised then Rejecting else Finished
  {
    MessageExactly(detect, world, m, mine, j);
    AttemptJob(detect, world, m, mine, j);
    var first := AttemptRun(detect, world, m, mine, j);
    if first.raised {
      AttemptJob(detect, world, first.now, mine, j);
      var second := AttemptRun(detect, world, first.now, mine, j);
      if second.raised { AttemptJob(detect, world, second.now, mine, j); }
    }
  }

  predicate Locked(s: State, j: Id) {
    j in s.jobs && HasLock(s, s.jobs[j])
  }

  /** A rejection raises if and only if its await faults or the lock is gone; else the message is dead-lettered. */
  lemma RejectExactly(detect: Detect, world: World, m: Moment, mine: set<Id>, j: Id)
    requires j in mine && InPhase(m.state, j, Rejecting)
    ensures var ended, s := RejectRun(detect, world, m, mine, j), Resumed(detect, world, m, mine).state;
            && (ended.raised <==> world(m.tick).fault || !Locked(s, j))
            && (!ended.raised ==> m.state.jobs[j].message in ended.now.state.broker.deadLettered)
            && ended.now.tick == m.tick + 1 && j !in ended.now.state.jobs
  {
    OthersLeaveJob(detect, m.state, world(m.tick).others, mine, NoRequest, j);
    var s := Resumed(detect, world, m, mine).state;
    SettleSteps(detect, s, {j}, j, if world(m.tick).fault then Crash(j) else DeadLetter(j));
  }

  lemma CompleteExactly(detect: Detect, world: World, m: Moment, mine: set<Id>, j: Id)
    requires j in mine && InPhase(m.state, j, Finished)
    ensures var t, s := SettledAt(detect, world, m, mine, j).state, Resumed(detect, world, m, mine).state;
            && (!world(m.tick).fault && Locked(s, j) ==>
                  j !in t.jobs && m.state.jobs[j].message in t.broker.completed)
            && (world(m.tick).fault || !Locked(s, j) ==>
                  InPhase(t, j, Rejecting) && t.jobs[j].message == m.state.jobs[j].message)
  {
    OthersLeaveJob(detect, m.state, world(m.tick).others, mine, NoRequest, j);
    var s := Resumed(detect, world, m, mine).state;
    var step := if world(m.tick).fault then CompleteFails(j, world(m.tick).applied) else Complete(j);
    SettleSteps(detect, s, {j}, j, step);
  }

  /**
   A delivery whose message was processed completes it if and only if the completing call does not fault and the lock
   is still held; otherwise, and when the message was given up, it is dead-lettered if and only if the rejecting call
   does not fault and the lock is still held; otherwise the exception leaves the loop.
   */
  lemma DeliveryExactly(detect: Detect, world: World, m: Moment, mine: set<Id>, j: Id)
    requires j in mine && Ready(m.state, j)
    ensures var processed := MessageRun(detect, world, m, mine, j, 1, 0);
            var ended, message := DeliveryRun(detect, world, m, mine, j), m.state.jobs[j].message;
            var s := Resumed(detect, world, processed.now, mine).state;
            var lost := world(processed.now.tick).fault || !Locked(s, j);
            var settled := SettledAt(detect, world, processed.now, mine, j);
            && (!processed.raised && !lost ==>
                  ended == Ended(settled, false) && message in ended.now.state.broker.completed)
            && (processed.raised ==>
                  (ended.raised <==> lost) && (!ended.raised ==> message in ended.now.state.broker.deadLettered))
            && (!processed.raised && lost ==>
                  && (ended.raised
                      <==> world(settled.tick).fault || !Locked(Resumed(detect, world, settled, mine).state, j))
                  && (!ended.raised ==> message in ended.now.state.broker.deadLettered))
  {
    var processed := MessageRun(detect, world, m, mine, j, 1, 0);
    MessageJob(detect, world, m, mine, j);
    if processed.raised {
      RejectExactly(detect, world, processed.now, mine, j);
    } else {
      CompleteExactly(detect, world, processed.now, mine, j);
      var settled := SettledAt(detect, world, processed.now, mine, j);
      if j in settled.state.jobs { RejectExactly(detect, world, settled, mine, j); }
    }
  }

  /** None of the next n awaits faults. */
  predicate NoFault(world: World, tick: nat, n: nat) {
    forall k :: tick <= k < tick + n ==> !world(k).fault
  }

  /** The row is there at the read, and has no analysis at the commit, of an attempt. */
  predicate StorableInTime(detect: Detect, world: World, m: Moment, mine: set<Id>, j: Id)
    requires Holds(m.state, j)
  {
    var uploaded, id := UploadedAt(detect, world, m, mine, j), Body(m.state, j).measurementId;
    && id in Resumed(detect, world, uploaded, mine).state.db.measurements
    && Storable(CommitMoment(detect, world, uploaded, mine, j).state, id)
  }

  lemma FaultFreeStores(detect: Detect, world: World, m: Moment, mine: set<Id>, j: Id)
    requires j in mine && InPhase(m.state, j, Starting) && detect(Body(m.state, j).values).Ok?
    requires NoFault(world, m.tick, 3) && StorableInTime(detect, world, m, mine, j)
    ensures var first, body := AttemptRun(detect, world, m, mine, j), Body(m.state, j);
            var url := BlobUrl(body.values.deviceId, world(m.tick).year, world(m.tick).month, body.measurementId);
            && !first.raised && first.now.tick == m.tick + 3
            && StoredResult(first.now.state, j, url, detect(body.values).value)
  {
    AttemptExactly(detect, world, m, mine, j);
    AttemptTicks(detect, world, m, mine, j);
  }

  /**
   The fault-free case from end to end: no await of the delivery faults, the detector accepts the values, the row is
   there without analysis, and the lock is held to the end. Then the first attempt stores the result without any
   sleep and the message is completed.
   */
  lemma FaultFreeIsCompleted(detect: Detect, world: World, m: Moment, mine: set<Id>, j: Id)
    requires j in mine && Ready(m.state, j) && detect(Body(m.state, j).values).Ok?
    requires NoFault(world, m.tick, 4) && StorableInTime(detect, world, m, mine, j)
    requires Locked(Resumed(detect, world, AttemptRun(detect, world, m, mine, j).now, mine).state, j)
    ensures var first, body := AttemptRun(detect, world, m, mine, j), Body(m.state, j);
            var url := BlobUrl(body.values.deviceId, world(m.tick).year, world(m.tick).month, body.measurementId);
            && StoredResult(first.now.state, j, url, detect(body.values).value)
            && MessageRun(detect, world, m, mine, j, 1, 0) == Retried(first.now, false, 0)
    ensures var ended := DeliveryRun(detect, world, m, mine, j);
            !ended.raised && m.state.jobs[j].message in ended.now.state.broker.completed
  {
    FaultFreeStores(detect, world, m, mine, j);
    MessageExactly(detect, world, m, mine, j);
    DeliveryExactly(detect, world, m, mine, j);
  }

  /** An attempt that stores its result has awaited three calls. */
  lemma AttemptTicks(detect: Detect, world: World, m: Moment, mine: set<Id>, j: Id)
    requires j in mine && InPhase(m.state, j, Starting)
    ensures var uploaded, id := UploadedAt(detect, world, m, mine, j), Body(m.state, j).measurementId;
            var ended := AttemptRun(detect, world, m, mine, j);
            !ended.raised && id in Resumed(detect, world, uploaded, mine).state.db.measurements ==>
              ended.now.tick == m.tick + 3
  {
    OthersLeaveJob(detect, m.state, world(m.tick).others, mine, NoRequest, j);
    var s, event := Resumed(detect, world, m, mine).state, world(m.tick);
    if !event.fault {
      UploadExactly(detect, s, j, event.year, event.month);
      var uploaded := UploadedAt(detect, world, m, mine, j);
      OthersLeaveJob(detect, uploaded.state, world(uploaded.tick).others, mine, NoRequest, j);
      ReadExactly(detect, Resumed(detect, world, uploaded, mine).state, j);
    }
  }
}
