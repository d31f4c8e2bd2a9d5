/** Measurements that stay RECEIVED: exactly when that is for good, and what must have happened before. */
module PipelineLoss {
  import opened Wrappers
  import opened Detector
  import opened Pipeline
  import opened PipelineSafety
  import opened PipelineTheorems
  import opened PipelineDrain
  import opened PipelineScenarios
  import opened PipelineDelivery

  predicate Trying(phase: Phase) {
    phase.Starting? || phase.Uploaded? || phase.Found?
  }

  predicate InTrial(jobs: map<Id, Job>, m: Id) {
    exists j :: j in jobs && jobs[j].message == m && Trying(jobs[j].phase)
  }

  /** The message can still be delivered, or is in the hands of a worker that has not given up on it. */
  predicate Live(s: State, m: Id) {
    || m in s.broker.queued
    || (m in s.broker.locked && m in s.broker.deliveries && s.broker.deliveries[m] < MAX_DELIVERY_COUNT)
    || InTrial(s.jobs, m)
  }

  predicate CanStillChange(s: State, id: Id) {
    exists m :: m in s.broker.bodies && Names(s.broker.bodies, m, id) && Live(s, m)
  }

  // ----- without a live message nothing changes

  lemma ApiLive(detect: Detect, s: State, step: Step, m: Id)
    requires Good(detect, s) && Enabled(s, step) && ApiStep(step) && m in s.broker.bodies
    ensures Live(ApplyApi(s, step), m) ==> Live(s, m)
    ensures m in ApplyApi(s, step).broker.bodies && ApplyApi(s, step).broker.bodies[m] == s.broker.bodies[m]
  {
    ApiEffect(s, step);
    BodiesStep(detect, s, step);
  }

  lemma BrokerLive(s: State, step: Step, m: Id)
    requires BrokerOk(s.broker) && Enabled(s, step) && BrokerStep(step)
    ensures Live(ApplyBroker(s, step), m) ==> Live(s, m)
  {
    BrokerJobs(s, step, m);
  }

  lemma BrokerJobs(s: State, step: Step, m: Id)
    requires Enabled(s, step) && BrokerStep(step)
    ensures InTrial(ApplyBroker(s, step).jobs, m) ==> InTrial(s.jobs, m) || (step.Deliver? && step.message == m)
  {
    var t := ApplyBroker(s, step);
    if InTrial(t.jobs, m) && !(step.Deliver? && step.message == m) {
      var j :| j in t.jobs && t.jobs[j].message == m && Trying(t.jobs[j].phase);
      assert j in s.jobs && s.jobs[j] == t.jobs[j];
    }
  }

  lemma WorkerTrial(detect: Detect, s: State, step: Step, k: Id)
    requires Enabled(s, step) && !ApiStep(step) && !BrokerStep(step) && k in ApplyWorker(detect, s, step).jobs
    ensures k in s.jobs
    ensures Trying(ApplyWorker(detect, s, step).jobs[k].phase) ==> Trying(s.jobs[k].phase)
  {}

  lemma WorkerQueue(detect: Detect, s: State, step: Step, m: Id)
    requires Enabled(s, step) && !ApiStep(step) && !BrokerStep(step)
    ensures var b := ApplyWorker(detect, s, step).broker;
            b.deliveries == s.broker.deliveries && (m in b.queued ==> m in s.broker.queued)
            && (m in b.locked ==> m in s.broker.locked)
  {}

  lemma WorkerLive(detect: Detect, s: State, step: Step, m: Id)
    requires Enabled(s, step) && !ApiStep(step) && !BrokerStep(step)
    ensures Live(ApplyWorker(detect, s, step), m) ==> Live(s, m)
  {
    var t := ApplyWorker(detect, s, step);
    WorkerQueue(detect, s, step, m);
    if InTrial(t.jobs, m) {
      var j :| j in t.jobs && t.jobs[j].message == m && Trying(t.jobs[j].phase);
      WorkerTrial(detect, s, step, j);
      WorkerKeepsMessages(detect, s, step, j);
      assert InTrial(s.jobs, m);
    }
  }

  lemma LiveStep(detect: Detect, s: State, step: Step, m: Id)
    requires Good(detect, s) && Enabled(s, step) && m in s.broker.bodies
    ensures Live(Next(detect, s, step), m) ==> Live(s, m)
  {
    if ApiStep(step) {
      ApiLive(detect, s, step, m);
    } else if BrokerStep(step) {
      BrokerLive(s, step, m);
    } else {
      WorkerLive(detect, s, step, m);
    }
  }

  /** A request publishes for a row that is not committed yet. */
  lemma PublishedIsNew(detect: Detect, s: State, step: Step, id: Id)
    requires Good(detect, s) && Enabled(s, step) && step.Publish? && id in s.db.measurements
    ensures Next(detect, s, step).broker.bodies[step.message].measurementId != id
  {
    assert SessionOk(s.sessions[step.session], s.issued, s.db.measurements);
  }

  lemma StuckMessages(detect: Detect, s: State, step: Step, id: Id)
    requires Good(detect, s) && Enabled(s, step) && id in s.db.measurements && !CanStillChange(s, id)
    ensures !CanStillChange(Next(detect, s, step), id)
  {
    var t := Next(detect, s, step);
    BodiesStep(detect, s, step);
    forall m | m in t.broker.bodies && Names(t.broker.bodies, m, id) ensures !Live(t, m) {
      if step.Publish? { PublishedIsNew(detect, s, step, id); }
      assert m in s.broker.bodies.Keys;
      assert Names(s.broker.bodies, m, id);
      LiveStep(detect, s, step, m);
    }
  }

  lemma StuckRow(detect: Detect, s: State, step: Step, id: Id)
    requires Good(detect, s) && Enabled(s, step) && id in s.db.measurements && !CanStillChange(s, id)
    ensures var t := Next(detect, s, step);
            id in t.db.measurements && t.db.measurements[id].status == s.db.measurements[id].status
  {
    RowsStay(detect, s, step, id);
    if ApiStep(step) {
      ApiKeepsRow(detect, s, step, id);
    } else if !BrokerStep(step) {
      StuckWorker(detect, s, step, id);
    }
  }

  lemma ApiKeepsRow(detect: Detect, s: State, step: Step, id: Id)
    requires SessionsOk(s.sessions, s.issued, s.db.measurements) && id in s.db.measurements
    requires Enabled(s, step) && ApiStep(step)
    ensures var t := ApplyApi(s, step); id in t.db.measurements && t.db.measurements[id] == s.db.measurements[id]
  {
    if step.CommitSession? { assert SessionOk(s.sessions[step.session], s.issued, s.db.measurements); }
  }

  lemma StuckWorker(detect: Detect, s: State, step: Step, id: Id)
    requires Enabled(s, step) && !ApiStep(step) && !BrokerStep(step)
    requires id in s.db.measurements && !CanStillChange(s, id)
    ensures var t := ApplyWorker(detect, s, step);
            id in t.db.measurements && t.db.measurements[id] == s.db.measurements[id]
  {
    WorkerDb(detect, s, step);
    if ApplyWorker(detect, s, step).db != s.db { Committer(s, step.job); }
  }

  lemma Committer(s: State, j: Id)
    requires Holds(s, j) && s.jobs[j].phase.Found?
    ensures CanStillChange(s, Body(s, j).measurementId)
  {
    var m := s.jobs[j].message;
    assert InTrial(s.jobs, m);
    assert Names(s.broker.bodies, m, Body(s, j).measurementId) && Live(s, m);
  }

  lemma {:induction false} StuckRun(detect: Detect, s: State, more: seq<Step>, id: Id)
    requires Good(detect, s) && id in s.db.measurements && !CanStillChange(s, id)
    ensures var t := Run(detect, s, more);
            id in t.db.measurements && t.db.measurements[id].status == s.db.measurements[id].status
    decreases |more|
  {
    if more != [] {
      var t := Next(detect, s, more[0]);
      if Enabled(s, more[0]) {
        StuckMessages(detect, s, more[0], id);
        StuckRow(detect, s, more[0], id);
      }
      GoodStep(detect, s, more[0]);
      StuckRun(detect, t, more[1..], id);
    }
  }

  // ----- with a live message it can still be processed

  lemma SomeFreshId(ids: set<Id>) returns (j: Id)
    ensures j !in ids
    decreases |ids|
  {
    if ids == {} {
      j := 0;
    } else {
      var top := Largest(ids);
      j := top + 1;
    }
  }

  lemma Largest(ids: set<Id>) returns (top: Id)
    requires ids != {}
    ensures top in ids && forall i :: i in ids ==> i <= top
    decreases |ids|
  {
    top :| top in ids;
    if ids != {top} {
      var rest := Largest(ids - {top});
      assert forall i :: i in ids ==> i == top || i in ids - {top};
      if rest > top { top := rest; }
    }
  }

  lemma PendingRow(detect: Detect, s: State, m: Id, id: Id)
    requires Good(detect, s) && Names(s.broker.bodies, m, id) && id in s.db.measurements
    ensures s.broker.bodies[m].values == s.db.measurements[id].values
    ensures s.db.measurements[id].status == Received ==> AnalysisOf(s.db.analyses, id).None?
  {
    assert Issued(s.issued, id, s.broker.bodies[m].values) && Issued(s.issued, id, s.db.measurements[id].values);
    assert RowOk(detect, s.db.measurements[id], id, AnalysisOf(s.db.analyses, id), s.blobs);
  }

  lemma QueuedCanBeProcessed(detect: Detect, s: State, m: Id, id: Id) returns (more: seq<Step>)
    requires Good(detect, s) && Names(s.broker.bodies, m, id) && m in s.broker.queued && Waiting(detect, s, id)
    ensures ProcessedBy(detect, s, more, id)
  {
    var j := SomeFreshId(s.jobs.Keys);
    PendingRow(detect, s, m, id);
    FaultFreeDelivery(detect, s, m, j, 2024, 3);
    more := [Deliver(m, j), Upload(j, 2024, 3), Read(j), Commit(j, false), Complete(j)];
  }

  /** A committed row without analysis that the detector accepts. */
  predicate Waiting(detect: Detect, s: State, id: Id) {
    id in s.db.measurements && s.db.measurements[id].status == Received && detect(s.db.measurements[id].values).Ok?
  }

  predicate ProcessedBy(detect: Detect, s: State, more: seq<Step>, id: Id) {
    id in Run(detect, s, more).db.measurements && Run(detect, s, more).db.measurements[id].status != Received
  }

  lemma LockedCanBeProcessed(detect: Detect, s: State, m: Id, id: Id) returns (more: seq<Step>)
    requires Good(detect, s) && Names(s.broker.bodies, m, id) && Waiting(detect, s, id)
    requires m in s.broker.locked && m in s.broker.deliveries && s.broker.deliveries[m] < MAX_DELIVERY_COUNT
    ensures ProcessedBy(detect, s, more, id)
  {
    Requeued(detect, s, m);
    GoodStep(detect, s, ExpireLock(m));
    var rest := QueuedCanBeProcessed(detect, Next(detect, s, ExpireLock(m)), m, id);
    more := [ExpireLock(m)] + rest;
    RunFirst(detect, s, ExpireLock(m), rest);
  }

  lemma Requeued(detect: Detect, s: State, m: Id)
    requires m in s.broker.locked && m in s.broker.deliveries && s.broker.deliveries[m] < MAX_DELIVERY_COUNT
    ensures var t := Next(detect, s, ExpireLock(m));
            m in t.broker.queued && t.db == s.db && t.broker.bodies == s.broker.bodies
  {}

  lemma UploadMoves(detect: Detect, s: State, j: Id)
    requires InPhase(s, j, Starting)
    ensures var t := Next(detect, s, Upload(j, 2024, 3));
            && Holds(t, j) && t.jobs[j].phase.Uploaded? && t.jobs[j].message == s.jobs[j].message
            && t.db == s.db && t.broker == s.broker
  {}

  lemma ReadMoves(detect: Detect, s: State, j: Id)
    requires Holds(s, j) && s.jobs[j].phase.Uploaded?
    requires Body(s, j).measurementId in s.db.measurements && detect(Body(s, j).values).Ok?
    ensures var t := Next(detect, s, Read(j));
            && Holds(t, j) && t.jobs[j].phase.Found? && t.jobs[j].message == s.jobs[j].message
            && t.db == s.db && t.broker == s.broker
  {}

  lemma CommitMoves(detect: Detect, s: State, j: Id)
    requires Holds(s, j) && s.jobs[j].phase.Found?
    requires var id := Body(s, j).measurementId; id in s.db.measurements && AnalysisOf(s.db.analyses, id).None?
    ensures var t, id := Next(detect, s, Commit(j, false)), Body(s, j).measurementId;
            id in t.db.measurements && t.db.measurements[id].status != Received
  {}

  lemma TrialCanSucceed(detect: Detect, s: State, j: Id, id: Id) returns (more: seq<Step>)
    requires Good(detect, s) && Holds(s, j) && Body(s, j).measurementId == id && Waiting(detect, s, id)
    requires Trying(s.jobs[j].phase)
    ensures ProcessedBy(detect, s, more, id)
    decreases if s.jobs[j].phase.Starting? then 2 else if s.jobs[j].phase.Uploaded? then 1 else 0
  {
    PendingRow(detect, s, s.jobs[j].message, id);
    var step := if s.jobs[j].phase.Starting? then Upload(j, 2024, 3)
                else if s.jobs[j].phase.Uploaded? then Read(j) else Commit(j, false);
    var rest := [];
    GoodStep(detect, s, step);
    if s.jobs[j].phase.Starting? {
      UploadMoves(detect, s, j);
      rest := TrialCanSucceed(detect, Next(detect, s, step), j, id);
    } else if s.jobs[j].phase.Uploaded? {
      ReadMoves(detect, s, j);
      rest := TrialCanSucceed(detect, Next(detect, s, step), j, id);
    } else {
      CommitMoves(detect, s, j);
    }
    more := [step] + rest;
    RunFirst(detect, s, step, rest);
  }

  lemma LiveCanBeProcessed(detect: Detect, s: State, id: Id) returns (more: seq<Step>)
    requires Good(detect, s) && Waiting(detect, s, id) && CanStillChange(s, id)
    ensures ProcessedBy(detect, s, more, id)
  {
    var m :| m in s.broker.bodies && Names(s.broker.bodies, m, id) && Live(s, m);
    if m in s.broker.queued {
      more := QueuedCanBeProcessed(detect, s, m, id);
    } else if m in s.broker.locked && m in s.broker.deliveries && s.broker.deliveries[m] < MAX_DELIVERY_COUNT {
      more := LockedCanBeProcessed(detect, s, m, id);
    } else {
      var j :| j in s.jobs && s.jobs[j].message == m && Trying(s.jobs[j].phase);
      more := TrialCanSucceed(detect, s, j, id);
    }
  }

  // ----- the results

  /**
   Lost exactly: a committed measurement stays RECEIVED under every continuation if and only if none of its
   messages is queued, locked with a delivery left, or in an attempt.
   */
  lemma StaysReceivedExactly(detect: Detect, s: State, id: Id)
    requires Good(detect, s) && Waiting(detect, s, id)
    ensures (forall more: seq<Step> :: !ProcessedBy(detect, s, more, id)) <==> !CanStillChange(s, id)
  {
    if CanStillChange(s, id) {
      var more := LiveCanBeProcessed(detect, s, id);
      assert ProcessedBy(detect, s, more, id);
    } else {
      forall more: seq<Step> ensures !ProcessedBy(detect, s, more, id) { StuckRun(detect, s, more, id); }
    }
  }

  /** So once every message of a measurement is completed and no job holds one, no continuation changes its status. */
  lemma CompletedIsFinal(detect: Detect, steps: seq<Step>, more: seq<Step>, id: Id)
    requires id in Run(detect, Start, steps).db.measurements
    requires var s := Run(detect, Start, steps);
             && (forall m :: m in s.broker.bodies && Names(s.broker.bodies, m, id) ==> m in s.broker.completed)
             && (forall j :: j in s.jobs ==> !Names(s.broker.bodies, s.jobs[j].message, id))
    ensures var s, t := Run(detect, Start, steps), Run(detect, Start, steps + more);
            id in t.db.measurements && t.db.measurements[id].status == s.db.measurements[id].status
  {
    var s := Run(detect, Start, steps);
    EveryRunIsGood(detect, steps);
    RunConcat(detect, Start, steps, more);
    assert !CanStillChange(s, id) by { AllCompleted(s, id); }
    StuckRun(detect, s, more, id);
  }

  lemma AllCompleted(s: State, id: Id)
    requires BrokerOk(s.broker)
    requires forall m :: m in s.broker.bodies && Names(s.broker.bodies, m, id) ==> m in s.broker.completed
    requires forall j :: j in s.jobs ==> !Names(s.broker.bodies, s.jobs[j].message, id)
    ensures !CanStillChange(s, id)
  {}

  // ----- how a measurement gets there

  lemma CompletingStep(detect: Detect, s: State, step: Step, m: Id)
    requires m !in s.broker.completed && m in Next(detect, s, step).broker.completed
    ensures (step.Complete? || step.CompleteFails?) && Enabled(s, step)
    ensures s.jobs[step.job].message == m && s.jobs[step.job].phase.Finished?
  {
    if Enabled(s, step) && !ApiStep(step) && !BrokerStep(step) { WorkerCompletes(detect, s, step, m); }
  }

  lemma WorkerCompletes(detect: Detect, s: State, step: Step, m: Id)
    requires Enabled(s, step) && !ApiStep(step) && !BrokerStep(step)
    requires m !in s.broker.completed && m in ApplyWorker(detect, s, step).broker.completed
    ensures (step.Complete? || step.CompleteFails?) && s.jobs[step.job].message == m && s.jobs[step.job].phase.Finished?
  {}

  lemma {:induction false} WhenCompleted(detect: Detect, s: State, steps: seq<Step>, m: Id) returns (k: nat)
    requires m !in s.broker.completed && m in Run(detect, s, steps).broker.completed
    ensures k < |steps| && m !in Run(detect, s, steps[..k]).broker.completed
    ensures m in Next(detect, Run(detect, s, steps[..k]), steps[k]).broker.completed
    decreases |steps|
  {
    var t := Next(detect, s, steps[0]);
    if m in t.broker.completed {
      k := 0;
    } else {
      k := WhenCompleted(detect, t, steps[1..], m);
      k := k + 1;
      assert steps[..k][1..] == steps[1..][..k - 1];
    }
  }

  /**
   A completed message whose measurement is RECEIVED was read while the measurement was not committed, and
   completed after that: the not-found log comes before the completion.
   */
  lemma LossMeansReadTooEarly(detect: Detect, steps: seq<Step>, m: Id, id: Id) returns (read: nat, settle: nat)
    requires var s := Run(detect, Start, steps);
             && Names(s.broker.bodies, m, id) && m in s.broker.completed
             && id in s.db.measurements && s.db.measurements[id].status == Received
    ensures read < settle < |steps| && steps[read].Read? && (steps[settle].Complete? || steps[settle].CompleteFails?)
    ensures var u := Run(detect, Start, steps[..read]);
            && Enabled(u, steps[read]) && u.jobs[steps[read].job].message == m && id !in u.db.measurements
    ensures var v := Run(detect, Start, steps[..settle]);
            && m in v.notFound && m !in v.broker.completed
            && m in Next(detect, v, steps[settle]).broker.completed
  {
    settle := WhenCompleted(detect, Start, steps, m);
    var v := Run(detect, Start, steps[..settle]);
    EveryRunIsGood(detect, steps[..settle]);
    CompletingStep(detect, v, steps[settle], m);
    assert Answered(m, v.broker.bodies, v.db.analyses, v.notFound);
    SameBody(detect, steps, settle, m);
    NoAnalysisBefore(detect, steps, settle, id);
    read := NotFoundWasUncommitted(detect, Start, steps[..settle], m);
    assert steps[..settle][..read] == steps[..read];
    SameBody(detect, steps, read, m);
  }

  lemma {:induction false} BodiesKept(detect: Detect, s: State, steps: seq<Step>, m: Id)
    requires m in s.broker.bodies
    ensures m in Run(detect, s, steps).broker.bodies && Run(detect, s, steps).broker.bodies[m] == s.broker.bodies[m]
    decreases |steps|
  {
    if steps != [] {
      BodiesStep(detect, s, steps[0]);
      assert m in Next(detect, s, steps[0]).broker.bodies.Keys;
      BodiesKept(detect, Next(detect, s, steps[0]), steps[1..], m);
    }
  }

  lemma SameBody(detect: Detect, steps: seq<Step>, k: nat, m: Id)
    requires k <= |steps| && m in Run(detect, Start, steps[..k]).broker.bodies
    ensures m in Run(detect, Start, steps).broker.bodies
    ensures Run(detect, Start, steps).broker.bodies[m] == Run(detect, Start, steps[..k]).broker.bodies[m]
  {
    assert steps == steps[..k] + steps[k..];
    RunConcat(detect, Start, steps[..k], steps[k..]);
    BodiesKept(detect, Run(detect, Start, steps[..k]), steps[k..], m);
  }

  lemma NoAnalysisBefore(detect: Detect, steps: seq<Step>, k: nat, id: Id)
    requires k <= |steps| && id in Run(detect, Start, steps).db.measurements
    requires Run(detect, Start, steps).db.measurements[id].status == Received
    ensures AnalysisOf(Run(detect, Start, steps[..k]).db.analyses, id).None?
  {
    var s := Run(detect, Start, steps[..k]);
    EveryRunIsGood(detect, steps[..k]);
    StatusMatchesAnalysis(detect, steps, id);
    assert steps == steps[..k] + steps[k..];
    RunConcat(detect, Start, steps[..k], steps[k..]);
    AnalysisOfAny(s.db.analyses, id);
    if id in s.db.measurements { FinalRun(detect, s, steps[k..], id); }
  }
}
