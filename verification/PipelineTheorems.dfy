/** What the pipeline promises about whole runs, each from an empty database under any schedule. */
module PipelineTheorems {
  import opened Wrappers
  import opened Detector
  import opened Pipeline
  import opened PipelineSafety

  /**
   Schedule independence: wherever two runs have both processed a measurement with the same values, they
   agree on its status and on every number of its analysis, and these are those of one call of the detector.
   */
  lemma ScheduleIndependence(detect: Detect, a: seq<Step>, b: seq<Step>, id: Id)
    requires var s, t := Run(detect, Start, a), Run(detect, Start, b);
             && id in s.db.measurements && id in t.db.measurements
             && s.db.measurements[id].values == t.db.measurements[id].values
             && AnalysisOf(s.db.analyses, id).Some? && AnalysisOf(t.db.analyses, id).Some?
    ensures var s, t := Run(detect, Start, a), Run(detect, Start, b);
            && AnalysisOf(s.db.analyses, id) == AnalysisOf(t.db.analyses, id)
            && detect(s.db.measurements[id].values) == Ok(AnalysisOf(s.db.analyses, id).value)
            && s.db.measurements[id].status == t.db.measurements[id].status
  {
    EveryRunIsGood(detect, a);
    EveryRunIsGood(detect, b);
  }

  /** Status, analysis and raw data agree in every reachable state. */
  lemma StatusMatchesAnalysis(detect: Detect, steps: seq<Step>, id: Id)
    requires id in Run(detect, Start, steps).db.measurements
    ensures var s := Run(detect, Start, steps);
            var row, analysis := s.db.measurements[id], AnalysisOf(s.db.analyses, id);
            && (row.status == Received <==> analysis == None)
            && (row.status == Anomaly <==> analysis.Some? && analysis.value.isAnomaly)
            && (row.status == Validated <==> analysis.Some? && !analysis.value.isAnomaly)
            && row.status != Processing && row.status != Rejected
            && (row.rawDataUrl.Some? <==> analysis.Some?)
            && (row.rawDataUrl.Some? ==>
                  row.rawDataUrl.value in s.blobs && s.blobs[row.rawDataUrl.value] == Message(id, row.values))
  {
    EveryRunIsGood(detect, steps);
    var s := Run(detect, Start, steps);
    assert RowOk(detect, s.db.measurements[id], id, AnalysisOf(s.db.analyses, id), s.blobs);
  }

  /** UNIQUE(measurement_id) holds, and every analysis belongs to a committed measurement. */
  lemma AtMostOneAnalysis(detect: Detect, steps: seq<Step>, i: nat, j: nat)
    requires var analyses := Run(detect, Start, steps).db.analyses;
             i < |analyses| && j < |analyses| && analyses[i].measurementId == analyses[j].measurementId
    ensures i == j
    ensures Run(detect, Start, steps).db.analyses[i].measurementId in Run(detect, Start, steps).db.measurements
  {
    EveryRunIsGood(detect, steps);
  }

  // ----- nothing is rewritten

  /** What no step takes back: the row with its values and, once there is one, the analysis with its row. */
  predicate Preserves(s: Database, t: Database, id: Id)
    requires id in s.measurements
  {
    && id in t.measurements && t.measurements[id].values == s.measurements[id].values
    && (AnalysisOf(s.analyses, id).Some? ==>
          t.measurements[id] == s.measurements[id] && AnalysisOf(t.analyses, id) == AnalysisOf(s.analyses, id))
  }

  lemma StorePreserves(db: Database, stored: Id, url: BlobUrl, result: AnomalyResult, id: Id)
    requires id in db.measurements && stored in db.measurements && AnalysisOf(db.analyses, stored).None?
    ensures Preserves(db, StoreAnalysis(db, stored, url, result), id)
  {
    var t := StoreAnalysis(db, stored, url, result);
    AnalysisOfAppend(db.analyses, Analysis(stored, result), id);
    if id != stored { assert t.measurements[id] == db.measurements[id]; }
  }

  lemma WorkerDb(detect: Detect, s: State, step: Step)
    requires Enabled(s, step) && !ApiStep(step) && !BrokerStep(step)
    ensures var t := ApplyWorker(detect, s, step);
            t.db == s.db
            || (step.Commit? && Body(s, step.job).measurementId in s.db.measurements
                && AnalysisOf(s.db.analyses, Body(s, step.job).measurementId).None?
                && t.db == StoreAnalysis(s.db, Body(s, step.job).measurementId, s.jobs[step.job].phase.url,
                                         s.jobs[step.job].phase.result))
  {}

  lemma FinalStep(detect: Detect, s: State, step: Step, id: Id)
    requires SessionsOk(s.sessions, s.issued, s.db.measurements) && id in s.db.measurements
    ensures Preserves(s.db, Next(detect, s, step).db, id)
  {
    if Enabled(s, step) {
      if ApiStep(step) {
        if step.CommitSession? { assert SessionOk(s.sessions[step.session], s.issued, s.db.measurements); }
      } else if !BrokerStep(step) {
        WorkerDb(detect, s, step);
        if Next(detect, s, step).db != s.db {
          StorePreserves(s.db, Body(s, step.job).measurementId, s.jobs[step.job].phase.url,
                         s.jobs[step.job].phase.result, id);
        }
      }
    }
  }

  lemma {:induction false} FinalRun(detect: Detect, s: State, more: seq<Step>, id: Id)
    requires Good(detect, s) && id in s.db.measurements
    ensures Preserves(s.db, Run(detect, s, more).db, id)
    decreases |more|
  {
    if more != [] {
      FinalStep(detect, s, more[0], id);
      GoodStep(detect, s, more[0]);
      FinalRun(detect, Next(detect, s, more[0]), more[1..], id);
    }
  }

  /** A committed measurement stays; once its status is final, its row and its analysis never change again. */
  lemma FinalStatusNeverChanges(detect: Detect, steps: seq<Step>, more: seq<Step>, id: Id)
    requires id in Run(detect, Start, steps).db.measurements
    ensures var s, t := Run(detect, Start, steps), Run(detect, Start, steps + more);
            && id in t.db.measurements && t.db.measurements[id].values == s.db.measurements[id].values
            && (s.db.measurements[id].status != Received ==>
                  && t.db.measurements[id] == s.db.measurements[id]
                  && AnalysisOf(t.db.analyses, id) == AnalysisOf(s.db.analyses, id))
  {
    EveryRunIsGood(detect, steps);
    RunConcat(detect, Start, steps, more);
    StatusMatchesAnalysis(detect, steps, id);
    FinalRun(detect, Run(detect, Start, steps), more, id);
  }

  /** Committed measurements and create_measurement entries match one to one. */
  lemma AuditBijection(detect: Detect, steps: seq<Step>)
    ensures var db := Run(detect, Start, steps).db;
            && (forall i :: 0 <= i < |db.audit| ==>
                  db.audit[i].action == "create_measurement" && db.audit[i].resourceId in db.measurements)
            && (forall i, j :: 0 <= i < j < |db.audit| ==> db.audit[i].resourceId != db.audit[j].resourceId)
            && (forall id :: id in db.measurements ==> exists i :: 0 <= i < |db.audit| && db.audit[i].resourceId == id)
  {
    EveryRunIsGood(detect, steps);
  }

  /** The audit log only grows. */
  lemma {:induction false} AuditOnlyGrows(detect: Detect, s: State, steps: seq<Step>)
    ensures s.db.audit <= Run(detect, s, steps).db.audit
    decreases |steps|
  {
    if steps != [] {
      AuditStep(detect, s, steps[0]);
      AuditOnlyGrows(detect, Next(detect, s, steps[0]), steps[1..]);
    }
  }

  lemma AuditStep(detect: Detect, s: State, step: Step)
    ensures s.db.audit <= Next(detect, s, step).db.audit
  {}

  // ----- the devices

  ghost predicate SerialsDiffer(devices: map<Id, Device>) {
    forall d, e :: d in devices && e in devices && d != e ==> devices[d].serialNumber != devices[e].serialNumber
  }

  lemma DevicesStep(detect: Detect, s: State, step: Step)
    ensures var t := Next(detect, s, step);
            && (forall d :: d in s.db.devices ==> d in t.db.devices && t.db.devices[d] == s.db.devices[d])
            && (SerialsDiffer(s.db.devices) ==> SerialsDiffer(t.db.devices))
  {
    if step.RegisterDevice? && Enabled(s, step) {
      assert Next(detect, s, step).db.devices == s.db.devices[step.id := step.device];
    } else {
      DevicesStay(detect, s, step);
    }
  }

  lemma DevicesStay(detect: Detect, s: State, step: Step)
    requires !(step.RegisterDevice? && Enabled(s, step))
    ensures Next(detect, s, step).db.devices == s.db.devices
  {}

  /** Devices are only added, none changes, and serial numbers stay unique. */
  lemma {:induction false} DevicesStayUnique(detect: Detect, s: State, steps: seq<Step>)
    requires SerialsDiffer(s.db.devices)
    ensures var t := Run(detect, s, steps);
            && (forall d :: d in s.db.devices ==> d in t.db.devices && t.db.devices[d] == s.db.devices[d])
            && SerialsDiffer(t.db.devices)
    decreases |steps|
  {
    if steps != [] {
      DevicesStep(detect, s, steps[0]);
      DevicesStayUnique(detect, Next(detect, s, steps[0]), steps[1..]);
    }
  }

  // ----- who settles a message

  predicate Settled(b: Broker, m: Id) {
    m in b.completed || m in b.deadLettered
  }

  /** The job has the message and was given it by its latest delivery. */
  predicate HasLatest(s: State, j: Id, m: Id) {
    j in s.jobs && s.jobs[j].message == m && m in s.broker.deliveries && s.jobs[j].token == s.broker.deliveries[m]
  }

  lemma WorkerSettles(detect: Detect, s: State, step: Step, m: Id)
    requires BrokerOk(s.broker) && Enabled(s, step) && !ApiStep(step) && !BrokerStep(step)
    requires !Settled(s.broker, m) && Settled(ApplyWorker(detect, s, step).broker, m)
    ensures m in s.broker.locked && (step.Complete? || step.CompleteFails? || step.DeadLetter?)
    ensures HasLatest(s, step.job, m)
  {}

  /**
   In every reachable state a message is settled by its expiry, by that of its lock, or by the worker of its latest
   delivery while that holds the lock: a worker whose lock has expired settles nothing.
   */
  lemma OnlyTheLatestDeliverySettles(detect: Detect, steps: seq<Step>, step: Step, m: Id)
    ensures var s := Run(detect, Start, steps);
            !Settled(s.broker, m) && Settled(Next(detect, s, step).broker, m) ==>
              || step == ExpireMessage(m) || step == ExpireLock(m)
              || ((step.Complete? || step.CompleteFails? || step.DeadLetter?)
                  && m in s.broker.locked && HasLatest(s, step.job, m))
  {
    EveryRunIsGood(detect, steps);
    var s := Run(detect, Start, steps);
    if Enabled(s, step) && !Settled(s.broker, m) && Settled(Next(detect, s, step).broker, m) {
      if ApiStep(step) {
        ApiSettlesNothing(s, step, m);
      } else if !BrokerStep(step) {
        WorkerSettles(detect, s, step, m);
      }
    }
  }

  lemma ApiSettlesNothing(s: State, step: Step, m: Id)
    requires Enabled(s, step) && ApiStep(step)
    ensures Settled(ApplyApi(s, step).broker, m) <==> Settled(s.broker, m)
  {}

  // ----- no message and no measurement is lost

  /** Published messages stay and settled ones stay settled. */
  predicate Accrues(before: Broker, after: Broker) {
    && before.completed <= after.completed && before.deadLettered <= after.deadLettered
    && before.bodies.Keys <= after.bodies.Keys
    && (forall m :: m in before.bodies ==> after.bodies[m] == before.bodies[m])
  }

  lemma AccruesStep(detect: Detect, s: State, step: Step)
    ensures Accrues(s.broker, Next(detect, s, step).broker)
  {
    BodiesStep(detect, s, step);
    if Enabled(s, step) && !ApiStep(step) && !BrokerStep(step) { WorkerAccrues(detect, s, step); }
  }

  lemma WorkerAccrues(detect: Detect, s: State, step: Step)
    requires Enabled(s, step) && !ApiStep(step) && !BrokerStep(step)
    ensures Accrues(s.broker, ApplyWorker(detect, s, step).broker)
  {
    WorkerBodies(detect, s, step);
  }

  /** How many messages a run publishes. */
  function Publications(detect: Detect, s: State, steps: seq<Step>): nat
    decreases |steps|
  {
    if steps == [] then 0
    else (if steps[0].Publish? && Enabled(s, steps[0]) then 1 else 0)
         + Publications(detect, Next(detect, s, steps[0]), steps[1..])
  }

  lemma BodiesStep(detect: Detect, s: State, step: Step)
    ensures Next(detect, s, step).broker.bodies.Keys
            == s.broker.bodies.Keys + (if step.Publish? && Enabled(s, step) then {step.message} else {})
    ensures step.Publish? && Enabled(s, step) ==> step.message !in s.broker.bodies
    ensures forall m :: m in s.broker.bodies ==> Next(detect, s, step).broker.bodies[m] == s.broker.bodies[m]
  {
    if Enabled(s, step) && !ApiStep(step) && !BrokerStep(step) { WorkerBodies(detect, s, step); }
  }

  lemma WorkerBodies(detect: Detect, s: State, step: Step)
    requires Enabled(s, step) && !ApiStep(step) && !BrokerStep(step)
    ensures ApplyWorker(detect, s, step).broker.bodies == s.broker.bodies
  {}

  lemma {:induction false} BodiesRun(detect: Detect, s: State, steps: seq<Step>)
    ensures |Run(detect, s, steps).broker.bodies.Keys| == |s.broker.bodies.Keys| + Publications(detect, s, steps)
    decreases |steps|
  {
    if steps != [] {
      BodiesStep(detect, s, steps[0]);
      BodiesRun(detect, Next(detect, s, steps[0]), steps[1..]);
    }
  }

  /** Conservation: every published message is in exactly one of four places. */
  lemma MessagesAreConserved(detect: Detect, steps: seq<Step>)
    ensures var b := Run(detect, Start, steps).broker;
            && b.queued !! b.locked.Keys !! b.completed !! b.deadLettered
            && |b.queued| + |b.locked.Keys| + |b.completed| + |b.deadLettered| == Publications(detect, Start, steps)
  {
    EveryRunIsGood(detect, steps);
    BodiesRun(detect, Start, steps);
    var b := Run(detect, Start, steps).broker;
    assert |b.queued + b.locked.Keys| == |b.queued| + |b.locked.Keys|;
    assert |b.queued + b.locked.Keys + b.completed| == |b.queued + b.locked.Keys| + |b.completed|;
  }

  /** Where the message of a measurement that is still RECEIVED can be. */
  predicate StillAccountedFor(s: State, m: Id) {
    m in s.broker.queued || m in s.broker.locked || m in s.broker.deadLettered
    || (m in s.broker.completed && m in s.notFound)
  }

  /**
   No silent loss: a committed measurement that has no analysis has a message, and each of its messages is queued,
   in flight or dead-lettered, or it was completed and a worker logged measurement_not_found for it.
   */
  lemma NoSilentLoss(detect: Detect, steps: seq<Step>, id: Id) returns (m: Id)
    requires var s := Run(detect, Start, steps); id in s.db.measurements && s.db.measurements[id].status == Received
    ensures var s := Run(detect, Start, steps); Names(s.broker.bodies, m, id) && StillAccountedFor(s, m)
    ensures var s := Run(detect, Start, steps);
            forall n :: n in s.broker.bodies && Names(s.broker.bodies, n, id) ==> StillAccountedFor(s, n)
  {
    EveryRunIsGood(detect, steps);
    StatusMatchesAnalysis(detect, steps, id);
    var s := Run(detect, Start, steps);
    assert HasMessage(s.broker.bodies, id);
    m :| Names(s.broker.bodies, m, id);
    forall n | n in s.broker.bodies && Names(s.broker.bodies, n, id) ensures StillAccountedFor(s, n) {
      assert n in s.broker.bodies.Keys;
      assert n in s.broker.completed ==> Answered(n, s.broker.bodies, s.db.analyses, s.notFound);
    }
  }

  /** A message logged as not found was read while its measurement was not committed. */
  lemma {:induction false} NotFoundWasUncommitted(detect: Detect, s: State, steps: seq<Step>, m: Id) returns (k: nat)
    requires m !in s.notFound && m in Run(detect, s, steps).notFound
    ensures k < |steps| && steps[k].Read?
    ensures var t := Run(detect, s, steps[..k]);
            && Enabled(t, steps[k]) && t.jobs[steps[k].job].message == m
            && Body(t, steps[k].job).measurementId !in t.db.measurements
    decreases |steps|
  {
    var t := Next(detect, s, steps[0]);
    if m in t.notFound {
      k := 0;
    } else {
      k := NotFoundWasUncommitted(detect, t, steps[1..], m);
      k := k + 1;
      assert steps[..k][1..] == steps[1..][..k - 1];
    }
  }

  /** Every delivery of the run finds its measurement committed. */
  predicate CommitPrecedesDelivery(detect: Detect, s: State, steps: seq<Step>)
    decreases |steps|
  {
    steps != [] ==>
      && (steps[0].Deliver? && Enabled(s, steps[0]) && steps[0].message in s.broker.bodies ==>
            s.broker.bodies[steps[0].message].measurementId in s.db.measurements)
      && CommitPrecedesDelivery(detect, Next(detect, s, steps[0]), steps[1..])
  }

  ghost predicate JobsCommitted(s: State) {
    s.notFound == {} && forall j :: Holds(s, j) ==> Body(s, j).measurementId in s.db.measurements
  }

  /** A step keeps the message of every job; only a delivery starts a new one. */
  lemma JobsKeepMessages(detect: Detect, s: State, step: Step, j: Id)
    requires Enabled(s, step) && j in Next(detect, s, step).jobs
    ensures (j in s.jobs && Next(detect, s, step).jobs[j].message == s.jobs[j].message)
            || (step.Deliver? && Next(detect, s, step).jobs[j].message == step.message)
  {
    if !ApiStep(step) && !BrokerStep(step) { WorkerKeepsMessages(detect, s, step, j); }
  }

  lemma WorkerKeepsMessages(detect: Detect, s: State, step: Step, j: Id)
    requires Enabled(s, step) && !ApiStep(step) && !BrokerStep(step) && j in ApplyWorker(detect, s, step).jobs
    ensures j in s.jobs && ApplyWorker(detect, s, step).jobs[j].message == s.jobs[j].message
  {}

  lemma NotFoundStep(detect: Detect, s: State, step: Step)
    requires JobsCommitted(s) && Enabled(s, step)
    ensures Next(detect, s, step).notFound == {}
  {}

  lemma CommittedStep(detect: Detect, s: State, step: Step)
    requires Good(detect, s) && JobsCommitted(s) && Enabled(s, step)
    requires step.Deliver? && step.message in s.broker.bodies ==>
               s.broker.bodies[step.message].measurementId in s.db.measurements
    ensures JobsCommitted(Next(detect, s, step))
  {
    var t := Next(detect, s, step);
    NotFoundStep(detect, s, step);
    BodiesStep(detect, s, step);
    forall j | Holds(t, j) ensures Body(t, j).measurementId in t.db.measurements {
      JobsKeepMessages(detect, s, step, j);
      if j in s.jobs && t.jobs[j].message == s.jobs[j].message {
        assert JobOk(detect, s.jobs[j], s.broker.bodies, s.blobs, s.db.measurements.Keys);
        assert Holds(s, j);
      }
      FinalStep(detect, s, step, s.broker.bodies[t.jobs[j].message].measurementId);
    }
  }

  lemma {:induction false} CommittedRun(detect: Detect, s: State, steps: seq<Step>)
    requires Good(detect, s) && JobsCommitted(s) && CommitPrecedesDelivery(detect, s, steps)
    ensures JobsCommitted(Run(detect, s, steps))
    decreases |steps|
  {
    if steps != [] {
      if Enabled(s, steps[0]) { CommittedStep(detect, s, steps[0]); }
      GoodStep(detect, s, steps[0]);
      CommittedRun(detect, Next(detect, s, steps[0]), steps[1..]);
    }
  }

  /** When commit precedes delivery, a measurement without analysis has a live or dead-lettered message. */
  lemma NoLossWhenCommitComesFirst(detect: Detect, steps: seq<Step>, id: Id) returns (m: Id)
    requires CommitPrecedesDelivery(detect, Start, steps)
    requires var s := Run(detect, Start, steps); id in s.db.measurements && s.db.measurements[id].status == Received
    ensures var s := Run(detect, Start, steps);
            && Names(s.broker.bodies, m, id)
            && (m in s.broker.queued || m in s.broker.locked || m in s.broker.deadLettered)
            && (forall n :: n in s.broker.bodies && Names(s.broker.bodies, n, id) ==>
                  n in s.broker.queued || n in s.broker.locked || n in s.broker.deadLettered)
  {
    EveryRunIsGood(detect, []);
    assert Run(detect, Start, []) == Start;
    CommittedRun(detect, Start, steps);
    m := NoSilentLoss(detect, steps, id);
  }

  /** The z-score detector never raises on values that the API accepted, unless its threshold is zero. */
  lemma DetectorNeverRaises(cfg: Config, steps: seq<Step>, id: Id)
    requires id in Run(ZScoreDetect(cfg), Start, steps).issued
    ensures ZScoreDetect(cfg)(Run(ZScoreDetect(cfg), Start, steps).issued[id]).Ok? <==> cfg.threshold != 0.0
  {
    EveryRunIsGood(ZScoreDetect(cfg), steps);
  }
}
