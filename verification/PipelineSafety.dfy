/** Invariants of the pipeline that survive every interleaving, redelivery, fault and crash. */
module PipelineSafety {
  import opened Wrappers
  import opened Detector
  import opened Pipeline

  // ----- every copy of a measurement's values agrees with the ones its id was issued for

  predicate Issued(issued: map<Id, Values>, id: Id, values: Values) {
    id in issued && issued[id] == values
  }

  ghost predicate IssuedOk(issued: map<Id, Values>, devices: map<Id, Device>) {
    forall id :: id in issued ==> issued[id].deviceId in devices && issued[id].uncertainty > 0.0
  }

  predicate SessionOk(open: Session, issued: map<Id, Values>, rows: map<Id, Measurement>) {
    && Issued(issued, open.id, open.row.values)
    && open.id !in rows
    && open.row.status == Received && open.row.rawDataUrl == None
  }

  ghost predicate SessionsOk(sessions: map<Id, Session>, issued: map<Id, Values>, rows: map<Id, Measurement>) {
    && (forall k :: k in sessions ==> SessionOk(sessions[k], issued, rows))
    && (forall k, l :: k in sessions && l in sessions && k != l ==> sessions[k].id != sessions[l].id)
  }

  ghost predicate RowsOk(rows: map<Id, Measurement>, issued: map<Id, Values>) {
    forall id :: id in rows ==> Issued(issued, id, rows[id].values)
  }

  ghost predicate MessagesOk(bodies: map<Id, Message>, issued: map<Id, Values>) {
    forall m :: m in bodies ==> Issued(issued, bodies[m].measurementId, bodies[m].values)
  }

  ghost predicate BlobsOk(blobs: map<BlobUrl, Message>, issued: map<Id, Values>) {
    forall url :: url in blobs ==>
      blobs[url].measurementId == url.measurementId && Issued(issued, url.measurementId, blobs[url].values)
  }

  predicate JobOk(detect: Detect, job: Job, bodies: map<Id, Message>, blobs: map<BlobUrl, Message>, rows: set<Id>) {
    && job.message in bodies
    && 1 <= job.attempt <= MAX_RETRIES
    && (match job.phase
        case Uploaded(url) => url in blobs && url.measurementId == bodies[job.message].measurementId
        case Found(url, result) =>
          var body := bodies[job.message];
          && url in blobs && url.measurementId == body.measurementId
          && body.measurementId in rows && detect(body.values) == Ok(result)
        case _ => true)
  }

  ghost predicate JobsOk(detect: Detect, jobs: map<Id, Job>, bodies: map<Id, Message>, blobs: map<BlobUrl, Message>,
                         rows: set<Id>) {
    forall j :: j in jobs ==> JobOk(detect, jobs[j], bodies, blobs, rows)
  }

  // ----- the analysis of a measurement is that of its own row

  /** The row and its analysis that one sequential run of the detector on the row gives. */
  predicate Processed(detect: Detect, row: Measurement, id: Id, result: AnomalyResult, blobs: map<BlobUrl, Message>) {
    && detect(row.values) == Ok(result)
    && row.status == StatusOf(result)
    && row.rawDataUrl.Some? && row.rawDataUrl.value in blobs
    && blobs[row.rawDataUrl.value] == Message(id, row.values)
  }

  predicate RowOk(detect: Detect, row: Measurement, id: Id, analysis: Option<AnomalyResult>,
                  blobs: map<BlobUrl, Message>) {
    match analysis
    case None => row.status == Received && row.rawDataUrl == None
    case Some(result) => Processed(detect, row, id, result, blobs)
  }

  ghost predicate AnalysesOk(detect: Detect, rows: map<Id, Measurement>, analyses: seq<Analysis>,
                             blobs: map<BlobUrl, Message>) {
    && (forall i, j :: 0 <= i < j < |analyses| ==> analyses[i].measurementId != analyses[j].measurementId)
    && (forall i :: 0 <= i < |analyses| ==> analyses[i].measurementId in rows)
    && (forall id :: id in rows ==> RowOk(detect, rows[id], id, AnalysisOf(analyses, id), blobs))
  }

  lemma {:induction false} AnalysisOfAny(analyses: seq<Analysis>, id: Id)
    ensures AnalysisOf(analyses, id).None? <==> forall i :: 0 <= i < |analyses| ==> analyses[i].measurementId != id
    ensures AnalysisOf(analyses, id).Some? ==> Analysis(id, AnalysisOf(analyses, id).value) in analyses
  {
    if analyses != [] { AnalysisOfAny(analyses[..|analyses| - 1], id); }
  }

  lemma AnalysisOfAppend(analyses: seq<Analysis>, x: Analysis, id: Id)
    ensures AnalysisOf(analyses + [x], id)
            == if x.measurementId == id then Some(x.result) else AnalysisOf(analyses, id)
  {
    assert (analyses + [x])[..|analyses|] == analyses;
  }

  // ----- the broker accounts for every message

  ghost predicate BrokerOk(b: Broker) {
    && b.queued !! b.locked.Keys !! b.completed !! b.deadLettered
    && b.queued + b.locked.Keys + b.completed + b.deadLettered == b.bodies.Keys
    && b.deliveries.Keys == b.bodies.Keys
    && (forall m :: m in b.deliveries ==> b.deliveries[m] <= MAX_DELIVERY_COUNT)
    && (forall m :: m in b.queued ==> b.deliveries[m] < MAX_DELIVERY_COUNT)
    && (forall m :: m in b.locked ==> b.locked[m] == b.deliveries[m])
  }

  // ----- a completed message was answered

  predicate Answered(message: Id, bodies: map<Id, Message>, analyses: seq<Analysis>, notFound: set<Id>) {
    message in bodies && (message in notFound || AnalysisOf(analyses, bodies[message].measurementId).Some?)
  }

  ghost predicate AllAnswered(completed: set<Id>, jobs: map<Id, Job>, bodies: map<Id, Message>,
                              analyses: seq<Analysis>, notFound: set<Id>) {
    && (forall m :: m in completed ==> Answered(m, bodies, analyses, notFound))
    && (forall j :: j in jobs && jobs[j].phase == Finished ==> Answered(jobs[j].message, bodies, analyses, notFound))
  }

  predicate Names(bodies: map<Id, Message>, message: Id, id: Id) {
    message in bodies && bodies[message].measurementId == id
  }

  ghost predicate HasMessage(bodies: map<Id, Message>, id: Id) {
    exists m :: Names(bodies, m, id)
  }

  ghost predicate AllAnnounced(rows: set<Id>, sessions: map<Id, Session>, bodies: map<Id, Message>) {
    && (forall id :: id in rows ==> HasMessage(bodies, id))
    && (forall k :: k in sessions && sessions[k].stage == Published ==> HasMessage(bodies, sessions[k].id))
  }

  // ----- the audit log

  /** One create_measurement entry for each committed measurement, and no other entry. */
  ghost predicate AuditOk(audit: seq<AuditEntry>, rows: set<Id>) {
    && (forall i :: 0 <= i < |audit| ==> audit[i].resourceId in rows && audit[i].action == "create_measurement")
    && (forall i, j :: 0 <= i < j < |audit| ==> audit[i].resourceId != audit[j].resourceId)
    && (forall id :: id in rows ==> exists i :: 0 <= i < |audit| && audit[i].resourceId == id)
  }

  // ----- all of it

  ghost predicate ValuesAgree(detect: Detect, s: State) {
    && IssuedOk(s.issued, s.db.devices)
    && SessionsOk(s.sessions, s.issued, s.db.measurements)
    && RowsOk(s.db.measurements, s.issued)
    && MessagesOk(s.broker.bodies, s.issued)
    && BlobsOk(s.blobs, s.issued)
    && JobsOk(detect, s.jobs, s.broker.bodies, s.blobs, s.db.measurements.Keys)
  }

  ghost predicate Good(detect: Detect, s: State) {
    && ValuesAgree(detect, s)
    && AnalysesOk(detect, s.db.measurements, s.db.analyses, s.blobs)
    && BrokerOk(s.broker)
    && AllAnswered(s.broker.completed, s.jobs, s.broker.bodies, s.db.analyses, s.notFound)
    && AllAnnounced(s.db.measurements.Keys, s.sessions, s.broker.bodies)
    && AuditOk(s.db.audit, s.db.measurements.Keys)
  }

  // ----- API steps

  lemma RegisterDeviceGood(detect: Detect, s: State, step: Step)
    requires Good(detect, s) && step.RegisterDevice? && Enabled(s, step)
    ensures Good(detect, ApplyApi(s, step))
  {}

  lemma InsertGood(detect: Detect, s: State, step: Step)
    requires Good(detect, s) && step.Insert? && Enabled(s, step)
    ensures Good(detect, ApplyApi(s, step))
  {
    assert ValuesAgree(detect, ApplyApi(s, step));
  }

  lemma CloseOrAuditGood(detect: Detect, s: State, step: Step)
    requires Good(detect, s) && (step.Audit? || step.RollbackSession?) && Enabled(s, step)
    ensures Good(detect, ApplyApi(s, step))
  {}

  lemma AnnouncedMore(bodies: map<Id, Message>, m: Id, body: Message, id: Id)
    requires m !in bodies && HasMessage(bodies, id)
    ensures HasMessage(bodies[m := body], id)
  {
    var n :| Names(bodies, n, id);
    assert Names(bodies[m := body], n, id);
  }

  lemma PublishedBroker(b: Broker, m: Id, body: Message)
    requires BrokerOk(b) && m !in b.bodies
    ensures BrokerOk(b.(bodies := b.bodies[m := body], queued := b.queued + {m}, deliveries := b.deliveries[m := 0]))
  {}

  lemma PublishedBodies(detect: Detect, s: State, m: Id, body: Message)
    requires ValuesAgree(detect, s) && m !in s.broker.bodies && Issued(s.issued, body.measurementId, body.values)
    ensures MessagesOk(s.broker.bodies[m := body], s.issued)
    ensures JobsOk(detect, s.jobs, s.broker.bodies[m := body], s.blobs, s.db.measurements.Keys)
  {
    forall j | j in s.jobs
      ensures JobOk(detect, s.jobs[j], s.broker.bodies[m := body], s.blobs, s.db.measurements.Keys)
    {
      assert JobOk(detect, s.jobs[j], s.broker.bodies, s.blobs, s.db.measurements.Keys);
    }
  }

  lemma PublishedAnnounced(s: State, session: Id, m: Id, body: Message)
    requires AllAnnounced(s.db.measurements.Keys, s.sessions, s.broker.bodies)
    requires session in s.sessions && m !in s.broker.bodies && body.measurementId == s.sessions[session].id
    ensures AllAnnounced(s.db.measurements.Keys, s.sessions[session := s.sessions[session].(stage := Published)],
                         s.broker.bodies[m := body])
  {
    forall id | HasMessage(s.broker.bodies, id) ensures HasMessage(s.broker.bodies[m := body], id) {
      AnnouncedMore(s.broker.bodies, m, body, id);
    }
    assert Names(s.broker.bodies[m := body], m, s.sessions[session].id);
  }

  lemma PublishGood(detect: Detect, s: State, step: Step)
    requires Good(detect, s) && step.Publish? && Enabled(s, step)
    ensures Good(detect, ApplyApi(s, step))
  {
    var t, open := ApplyApi(s, step), s.sessions[step.session];
    var body := Message(open.id, open.row.values);
    assert SessionOk(open, s.issued, s.db.measurements);
    PublishedBroker(s.broker, step.message, body);
    PublishedBodies(detect, s, step.message, body);
    PublishedAnnounced(s, step.session, step.message, body);
    assert SessionsOk(t.sessions, t.issued, t.db.measurements);
    assert AllAnswered(t.broker.completed, t.jobs, t.broker.bodies, t.db.analyses, t.notFound);
  }

  lemma AuditAppended(audit: seq<AuditEntry>, rows: set<Id>, entry: AuditEntry)
    requires AuditOk(audit, rows) && entry.resourceId !in rows && entry.action == "create_measurement"
    ensures AuditOk(audit + [entry], rows + {entry.resourceId})
  {
    var more := audit + [entry];
    assert more[|audit|].resourceId == entry.resourceId;
    forall id | id in rows ensures exists i :: 0 <= i < |more| && more[i].resourceId == id {
      var i :| 0 <= i < |audit| && audit[i].resourceId == id;
      assert more[i].resourceId == id;
    }
  }

  lemma RowAdded(detect: Detect, rows: map<Id, Measurement>, analyses: seq<Analysis>, blobs: map<BlobUrl, Message>,
                 id: Id, row: Measurement)
    requires AnalysesOk(detect, rows, analyses, blobs) && id !in rows
    requires row.status == Received && row.rawDataUrl == None
    ensures AnalysesOk(detect, rows[id := row], analyses, blobs)
  {
    AnalysisOfAny(analyses, id);
  }

  lemma CommitSessionGood(detect: Detect, s: State, step: Step)
    requires Good(detect, s) && step.CommitSession? && Enabled(s, step)
    ensures Good(detect, ApplyApi(s, step))
  {
    var t := ApplyApi(s, step);
    var open := s.sessions[step.session];
    assert SessionOk(open, s.issued, s.db.measurements);
    assert t.db.measurements.Keys == s.db.measurements.Keys + {open.id};
    AuditAppended(s.db.audit, s.db.measurements.Keys, AuditEntry(open.operator, "create_measurement", open.id));
    RowAdded(detect, s.db.measurements, s.db.analyses, s.blobs, open.id, open.row);
    assert ValuesAgree(detect, t);
  }

  // ----- broker steps

  function Delivered(b: Broker, m: Id): Broker
    requires m in b.deliveries
  {
    b.(queued := b.queued - {m}, locked := b.locked[m := b.deliveries[m] + 1],
       deliveries := b.deliveries[m := b.deliveries[m] + 1])
  }

  lemma DeliveredBroker(b: Broker, m: Id)
    requires BrokerOk(b) && m in b.queued
    ensures BrokerOk(Delivered(b, m)) && m in b.bodies
  {
    assert m in b.bodies.Keys;
  }

  /** A broker that keeps its books and its completed messages can take the place of another. */
  lemma BrokerReplaced(detect: Detect, s: State, b: Broker)
    requires Good(detect, s) && BrokerOk(b) && b.bodies == s.broker.bodies
    requires forall m :: m in b.completed ==>
               m in s.broker.completed || Answered(m, s.broker.bodies, s.db.analyses, s.notFound)
    ensures Good(detect, s.(broker := b))
  {}

  lemma DeliveryIs(s: State, step: Step)
    requires Enabled(s, step) && step.Deliver?
    ensures step.message in s.broker.queued && step.message in s.broker.deliveries
    ensures ApplyBroker(s, step) == SetJob(s.(broker := Delivered(s.broker, step.message)), step.job,
                                           Job(step.message, s.broker.deliveries[step.message] + 1, 1, Starting))
  {}

  lemma DeliveryGood(detect: Detect, s: State, m: Id, j: Id)
    requires Good(detect, s) && m in s.broker.queued && m in s.broker.deliveries
    ensures Good(detect,
                 SetJob(s.(broker := Delivered(s.broker, m)), j, Job(m, s.broker.deliveries[m] + 1, 1, Starting)))
  {
    DeliveredBroker(s.broker, m);
    BrokerReplaced(detect, s, Delivered(s.broker, m));
    SetJobGood(detect, s.(broker := Delivered(s.broker, m)), j, Job(m, s.broker.deliveries[m] + 1, 1, Starting));
  }

  lemma DeliverGood(detect: Detect, s: State, step: Step)
    requires Good(detect, s) && step.Deliver? && Enabled(s, step)
    ensures Good(detect, ApplyBroker(s, step))
  {
    DeliveryIs(s, step);
    DeliveryGood(detect, s, step.message, step.job);
  }

  lemma SettleGood(detect: Detect, s: State, m: Id)
    requires Good(detect, s) && (m in s.broker.locked || m in s.broker.queued)
    ensures Good(detect, s.(broker := MarkDead(s.broker, m)))
    ensures m in s.broker.locked && Answered(m, s.broker.bodies, s.db.analyses, s.notFound)
            ==> Good(detect, s.(broker := MarkCompleted(s.broker, m)))
  {
    SettledBroker(s.broker, m);
    BrokerReplaced(detect, s, MarkDead(s.broker, m));
    if m in s.broker.locked && Answered(m, s.broker.bodies, s.db.analyses, s.notFound) {
      BrokerReplaced(detect, s, MarkCompleted(s.broker, m));
    }
  }

  lemma SettledBroker(b: Broker, m: Id)
    requires BrokerOk(b) && (m in b.locked || m in b.queued)
    ensures BrokerOk(MarkDead(b, m))
    ensures m in b.locked ==> BrokerOk(MarkCompleted(b, m))
  {}

  lemma ExpireGood(detect: Detect, s: State, step: Step)
    requires Good(detect, s) && (step.ExpireLock? || step.ExpireMessage?) && Enabled(s, step)
    ensures Good(detect, ApplyBroker(s, step))
  {
    SettleGood(detect, s, step.message);
    if step.ExpireLock? && s.broker.deliveries[step.message] < MAX_DELIVERY_COUNT {
      RequeueGood(detect, s, step);
    }
  }

  lemma RequeueGood(detect: Detect, s: State, step: Step)
    requires Good(detect, s) && step.ExpireLock? && Enabled(s, step)
    requires s.broker.deliveries[step.message] < MAX_DELIVERY_COUNT
    ensures Good(detect, ApplyBroker(s, step))
  {
    assert BrokerOk(ApplyBroker(s, step).broker);
  }

  // ----- what a worker step changes

  lemma SetJobGood(detect: Detect, s: State, j: Id, job: Job)
    requires Good(detect, s) && JobOk(detect, job, s.broker.bodies, s.blobs, s.db.measurements.Keys)
    requires job.phase == Finished ==> Answered(job.message, s.broker.bodies, s.db.analyses, s.notFound)
    ensures Good(detect, SetJob(s, j, job)) && Good(detect, DropJob(s, j))
  {}

  lemma UploadGood(detect: Detect, s: State, step: Step)
    requires Good(detect, s) && step.Upload? && Enabled(s, step)
    ensures Good(detect, ApplyWorker(detect, s, step))
  {
    var body := Body(s, step.job);
    var url := BlobUrl(body.values.deviceId, step.year, step.month, body.measurementId);
    BlobStored(detect, s, url, body);
    SetJobGood(detect, s.(blobs := s.blobs[url := body]), step.job, s.jobs[step.job].(phase := Uploaded(url)));
  }

  /** Storing issued values under a url that names their id disturbs nothing: the url may be taken already. */
  lemma BlobStored(detect: Detect, s: State, url: BlobUrl, body: Message)
    requires Good(detect, s) && url.measurementId == body.measurementId
    requires Issued(s.issued, url.measurementId, body.values)
    ensures Good(detect, s.(blobs := s.blobs[url := body]))
  {
    var blobs := s.blobs[url := body];
    forall id | id in s.db.measurements
      ensures RowOk(detect, s.db.measurements[id], id, AnalysisOf(s.db.analyses, id), blobs)
    {
      assert RowOk(detect, s.db.measurements[id], id, AnalysisOf(s.db.analyses, id), s.blobs);
      assert Issued(s.issued, id, s.db.measurements[id].values);
    }
    assert JobsOk(detect, s.jobs, s.broker.bodies, blobs, s.db.measurements.Keys);
  }

  lemma ReadGood(detect: Detect, s: State, step: Step)
    requires Good(detect, s) && step.Read? && Enabled(s, step)
    ensures Good(detect, ApplyWorker(detect, s, step))
  {
    var job := s.jobs[step.job];
    match detect(Body(s, step.job).values)
    case Err(_) => SetJobGood(detect, s, step.job, AttemptFails(job));
    case Ok(result) =>
      if Body(s, step.job).measurementId in s.db.measurements {
        SetJobGood(detect, s, step.job, job.(phase := Found(job.phase.url, result)));
      } else {
        var t := s.(notFound := s.notFound + {job.message});
        assert Good(detect, t);
        SetJobGood(detect, t, step.job, job.(phase := Finished));
      }
  }

  lemma StoreGood(detect: Detect, s: State, j: Id)
    requires Good(detect, s) && Holds(s, j) && s.jobs[j].phase.Found?
    requires var id := Body(s, j).measurementId; id in s.db.measurements && AnalysisOf(s.db.analyses, id).None?
    ensures var t := s.(db := StoreAnalysis(s.db, Body(s, j).measurementId, s.jobs[j].phase.url,
                                            s.jobs[j].phase.result));
            Good(detect, t) && Answered(s.jobs[j].message, t.broker.bodies, t.db.analyses, t.notFound)
  {
    var id, url, result := Body(s, j).measurementId, s.jobs[j].phase.url, s.jobs[j].phase.result;
    assert JobOk(detect, s.jobs[j], s.broker.bodies, s.blobs, s.db.measurements.Keys);
    assert Issued(s.issued, id, s.db.measurements[id].values);
    AnalysisStored(detect, s.db, s.blobs, id, url, result);
    AnsweredMore(s, s.(db := StoreAnalysis(s.db, id, url, result)));
  }

  lemma AnalysisStored(detect: Detect, db: Database, blobs: map<BlobUrl, Message>, id: Id, url: BlobUrl,
                       result: AnomalyResult)
    requires AnalysesOk(detect, db.measurements, db.analyses, blobs)
    requires id in db.measurements && AnalysisOf(db.analyses, id).None?
    requires detect(db.measurements[id].values) == Ok(result)
    requires url in blobs && blobs[url] == Message(id, db.measurements[id].values)
    ensures var t := StoreAnalysis(db, id, url, result);
            && AnalysesOk(detect, t.measurements, t.analyses, blobs) && t.measurements.Keys == db.measurements.Keys
            && (forall k :: AnalysisOf(t.analyses, k) == if k == id then Some(result) else AnalysisOf(db.analyses, k))
  {
    AnalysisOfAny(db.analyses, id);
    var t := StoreAnalysis(db, id, url, result);
    forall k: Id ensures AnalysisOf(t.analyses, k) == if k == id then Some(result) else AnalysisOf(db.analyses, k) {
      AnalysisOfAppend(db.analyses, Analysis(id, result), k);
    }
    assert RowOk(detect, t.measurements[id], id, Some(result), blobs);
  }

  /** A row keeps its values and analyses only come: all that refers to them still holds. */
  lemma AnsweredMore(s: State, t: State)
    requires t == s.(db := t.db) && t.db.measurements.Keys == s.db.measurements.Keys
    requires forall id :: id in t.db.measurements ==> t.db.measurements[id].values == s.db.measurements[id].values
    requires forall id :: AnalysisOf(s.db.analyses, id).Some? ==> AnalysisOf(t.db.analyses, id).Some?
    ensures AllAnswered(s.broker.completed, s.jobs, s.broker.bodies, s.db.analyses, s.notFound)
            ==> AllAnswered(t.broker.completed, t.jobs, t.broker.bodies, t.db.analyses, t.notFound)
    ensures SessionsOk(s.sessions, s.issued, s.db.measurements) ==> SessionsOk(t.sessions, t.issued, t.db.measurements)
    ensures RowsOk(s.db.measurements, s.issued) ==> RowsOk(t.db.measurements, t.issued)
  {}

  lemma CommitGood(detect: Detect, s: State, step: Step)
    requires Good(detect, s) && step.Commit? && Enabled(s, step)
    ensures Good(detect, ApplyWorker(detect, s, step))
  {
    var id, job := Body(s, step.job).measurementId, s.jobs[step.job];
    if id !in s.db.measurements || AnalysisOf(s.db.analyses, id).Some? {
      SetJobGood(detect, s, step.job, AttemptFails(job));
    } else {
      StoreGood(detect, s, step.job);
      SetJobGood(detect, s.(db := StoreAnalysis(s.db, id, job.phase.url, job.phase.result)), step.job,
                 if step.ackLost then AttemptFails(job) else job.(phase := Finished));
    }
  }

  lemma FaultGood(detect: Detect, s: State, step: Step)
    requires Good(detect, s) && (step.Fault? || step.Crash?) && Enabled(s, step)
    ensures Good(detect, ApplyWorker(detect, s, step))
  {
    SetJobGood(detect, s, step.job, AttemptFails(s.jobs[step.job]));
  }

  lemma CompleteGood(detect: Detect, s: State, step: Step)
    requires Good(detect, s) && (step.Complete? || step.CompleteFails?) && Enabled(s, step)
    ensures Good(detect, ApplyWorker(detect, s, step))
  {
    var job := s.jobs[step.job];
    SetJobGood(detect, s, step.job, job.(phase := Rejecting));
    if HasLock(s, job) {
      SettleGood(detect, s, job.message);
      SetJobGood(detect, s.(broker := MarkCompleted(s.broker, job.message)), step.job, job.(phase := Rejecting));
    }
  }

  lemma DeadLetterGood(detect: Detect, s: State, step: Step)
    requires Good(detect, s) && step.DeadLetter? && Enabled(s, step)
    ensures Good(detect, ApplyWorker(detect, s, step))
  {
    var job := s.jobs[step.job];
    SetJobGood(detect, s, step.job, job);
    if HasLock(s, job) {
      SettleGood(detect, s, job.message);
      SetJobGood(detect, s.(broker := MarkDead(s.broker, job.message)), step.job, job);
    }
  }

  // ----- every run

  lemma ApiGood(detect: Detect, s: State, step: Step)
    requires Good(detect, s) && Enabled(s, step) && ApiStep(step)
    ensures Good(detect, ApplyApi(s, step))
  {
    match step
    case RegisterDevice(_, _) => RegisterDeviceGood(detect, s, step);
    case Insert(_, _, _, _, _) => InsertGood(detect, s, step);
    case Publish(_, _) => PublishGood(detect, s, step);
    case CommitSession(_) => CommitSessionGood(detect, s, step);
    case _ => CloseOrAuditGood(detect, s, step);
  }

  lemma WorkerGood(detect: Detect, s: State, step: Step)
    requires Good(detect, s) && Enabled(s, step) && !ApiStep(step) && !BrokerStep(step)
    ensures Good(detect, ApplyWorker(detect, s, step))
  {
    match step
    case Upload(_, _, _) => UploadGood(detect, s, step);
    case Read(_) => ReadGood(detect, s, step);
    case Commit(_, _) => CommitGood(detect, s, step);
    case Complete(_) => CompleteGood(detect, s, step);
    case CompleteFails(_, _) => CompleteGood(detect, s, step);
    case DeadLetter(_) => DeadLetterGood(detect, s, step);
    case _ => FaultGood(detect, s, step);
  }

  lemma GoodStep(detect: Detect, s: State, step: Step)
    requires Good(detect, s)
    ensures Good(detect, Next(detect, s, step))
  {
    if Enabled(s, step) {
      if ApiStep(step) {
        ApiGood(detect, s, step);
      } else if BrokerStep(step) {
        if step.Deliver? { DeliverGood(detect, s, step); } else { ExpireGood(detect, s, step); }
      } else {
        WorkerGood(detect, s, step);
      }
    }
  }

  lemma {:induction false} GoodRun(detect: Detect, s: State, steps: seq<Step>)
    requires Good(detect, s)
    ensures Good(detect, Run(detect, s, steps))
    decreases |steps|
  {
    if steps != [] {
      GoodStep(detect, s, steps[0]);
      GoodRun(detect, Next(detect, s, steps[0]), steps[1..]);
    }
  }

  lemma EveryRunIsGood(detect: Detect, steps: seq<Step>)
    ensures Good(detect, Run(detect, Start, steps))
  {
    GoodRun(detect, Start, steps);
  }
}
