/** What becomes of one measurement: a delivery with other steps in between, and all that can follow. */
module PipelineDelivery {
  import opened Wrappers
  import opened Detector
  import opened Pipeline
  import opened PipelineSafety
  import opened PipelineTheorems
  import opened PipelineDrain
  import opened PipelineScenarios

  // ----- a delivery that is the only one of its measurement in hand

  /** Job j holds the lock of message m, and no other job has a message of the same measurement. */
  predicate Sole(s: State, m: Id, j: Id) {
    && Holds(s, j) && s.jobs[j].message == m && HasLock(s, s.jobs[j])
    && forall k :: k in s.jobs && k != j ==>
         !Names(s.broker.bodies, s.jobs[k].message, s.broker.bodies[m].measurementId)
  }

  /** Any step of anyone else, while the lock lasts and no duplicate of the message is delivered. */
  predicate Leaves(s: State, step: Step, m: Id, j: Id)
    requires m in s.broker.bodies
  {
    && (!ApiStep(step) && !BrokerStep(step) ==> step.job != j)
    && step != ExpireLock(m)
    && (step.Deliver? && step.message in s.broker.bodies ==>
          s.broker.bodies[step.message].measurementId != s.broker.bodies[m].measurementId)
  }

  predicate AllLeave(detect: Detect, s: State, others: seq<Step>, m: Id, j: Id)
    decreases |others|
  {
    others != [] ==>
      && m in s.broker.bodies && Leaves(s, others[0], m, j)
      && AllLeave(detect, Next(detect, s, others[0]), others[1..], m, j)
  }

  lemma BrokerLeavesSole(s: State, step: Step, m: Id, j: Id)
    requires BrokerOk(s.broker) && Sole(s, m, j) && Enabled(s, step) && BrokerStep(step) && Leaves(s, step, m, j)
    ensures Sole(ApplyBroker(s, step), m, j) && ApplyBroker(s, step).jobs[j] == s.jobs[j]
  {}

  lemma OtherJobStays(detect: Detect, s: State, step: Step, j: Id)
    requires Enabled(s, step) && !ApiStep(step) && !BrokerStep(step) && step.job != j && j in s.jobs
    ensures j in ApplyWorker(detect, s, step).jobs && ApplyWorker(detect, s, step).jobs[j] == s.jobs[j]
  {}

  lemma WorkerLeavesLock(detect: Detect, s: State, step: Step, m: Id)
    requires Enabled(s, step) && !ApiStep(step) && !BrokerStep(step) && s.jobs[step.job].message != m
    ensures var t := ApplyWorker(detect, s, step);
            && (m in t.broker.locked <==> m in s.broker.locked)
            && (m in s.broker.locked ==> t.broker.locked[m] == s.broker.locked[m])
  {}

  lemma WorkerLeavesSole(detect: Detect, s: State, step: Step, m: Id, j: Id)
    requires Sole(s, m, j) && Enabled(s, step) && !ApiStep(step) && !BrokerStep(step) && step.job != j
    requires Holds(s, step.job)
    ensures Sole(ApplyWorker(detect, s, step), m, j) && ApplyWorker(detect, s, step).jobs[j] == s.jobs[j]
  {
    var t := ApplyWorker(detect, s, step);
    OtherJobStays(detect, s, step, j);
    WorkerLeavesLock(detect, s, step, m);
    WorkerBodies(detect, s, step);
    forall k | k in t.jobs && k != j
      ensures !Names(t.broker.bodies, t.jobs[k].message, t.broker.bodies[m].measurementId)
    {
      WorkerKeepsMessages(detect, s, step, k);
    }
  }

  lemma ApiLeavesSole(s: State, step: Step, m: Id, j: Id)
    requires Sole(s, m, j) && Enabled(s, step) && ApiStep(step) && forall k :: k in s.jobs ==> Holds(s, k)
    ensures Sole(ApplyApi(s, step), m, j) && ApplyApi(s, step).jobs[j] == s.jobs[j]
  {
    ApiEffect(s, step);
    if step.Publish? {
      assert forall k :: k in s.jobs ==> s.jobs[k].message != step.message;
    }
  }

  lemma AllHold(detect: Detect, s: State, k: Id)
    requires JobsOk(detect, s.jobs, s.broker.bodies, s.blobs, s.db.measurements.Keys) && k in s.jobs
    ensures Holds(s, k)
  {
    assert JobOk(detect, s.jobs[k], s.broker.bodies, s.blobs, s.db.measurements.Keys);
  }

  lemma SoleStep(detect: Detect, s: State, step: Step, m: Id, j: Id)
    requires Good(detect, s) && Sole(s, m, j) && Leaves(s, step, m, j)
    ensures var t := Next(detect, s, step); Sole(t, m, j) && t.jobs[j] == s.jobs[j]
  {
    if Enabled(s, step) {
      forall k | k in s.jobs ensures Holds(s, k) { AllHold(detect, s, k); }
      if ApiStep(step) {
        ApiLeavesSole(s, step, m, j);
      } else if BrokerStep(step) {
        BrokerLeavesSole(s, step, m, j);
      } else {
        WorkerLeavesSole(detect, s, step, m, j);
      }
    }
  }

  /** A worker step adds an analysis only for the measurement that its own message names. */
  lemma WorkerAnalyses(detect: Detect, s: State, step: Step, id: Id)
    requires Enabled(s, step) && !ApiStep(step) && !BrokerStep(step)
    ensures AnalysisOf(ApplyWorker(detect, s, step).db.analyses, id) == AnalysisOf(s.db.analyses, id)
            || (Holds(s, step.job) && s.jobs[step.job].phase.Found? && Body(s, step.job).measurementId == id)
  {
    WorkerDb(detect, s, step);
    if ApplyWorker(detect, s, step).db != s.db {
      AnalysisOfAppend(s.db.analyses, Analysis(Body(s, step.job).measurementId, s.jobs[step.job].phase.result), id);
    }
  }

  lemma NotFoundGrows(detect: Detect, s: State, step: Step)
    ensures s.notFound <= Next(detect, s, step).notFound
  {}

  /** What steps of others leave of a delivery that is the only one of its measurement. */
  ghost predicate Undisturbed(detect: Detect, s: State, t: State, m: Id, j: Id)
    requires m in s.broker.bodies
  {
    var body := s.broker.bodies[m];
    && Good(detect, t) && Sole(t, m, j) && j in s.jobs && t.jobs[j] == s.jobs[j] && t.broker.bodies[m] == body
    && AnalysisOf(t.db.analyses, body.measurementId) == AnalysisOf(s.db.analyses, body.measurementId)
    && (body.measurementId in s.db.measurements ==> body.measurementId in t.db.measurements)
    && s.notFound <= t.notFound
  }

  lemma SoleAnalysis(detect: Detect, s: State, step: Step, m: Id, j: Id)
    requires Sole(s, m, j) && Leaves(s, step, m, j)
    ensures var id := s.broker.bodies[m].measurementId;
            AnalysisOf(Next(detect, s, step).db.analyses, id) == AnalysisOf(s.db.analyses, id)
  {
    if Enabled(s, step) && !ApiStep(step) && !BrokerStep(step) {
      WorkerAnalyses(detect, s, step, s.broker.bodies[m].measurementId);
    }
  }

  lemma RowsStay(detect: Detect, s: State, step: Step, id: Id)
    requires Good(detect, s) && id in s.db.measurements
    ensures id in Next(detect, s, step).db.measurements
  {
    FinalStep(detect, s, step, id);
  }

  lemma OtherDoesNotDisturb(detect: Detect, s: State, step: Step, m: Id, j: Id)
    requires Good(detect, s) && Sole(s, m, j) && Leaves(s, step, m, j)
    ensures Undisturbed(detect, s, Next(detect, s, step), m, j)
  {
    GoodStep(detect, s, step);
    SoleStep(detect, s, step, m, j);
    SoleAnalysis(detect, s, step, m, j);
    NotFoundGrows(detect, s, step);
    BodiesStep(detect, s, step);
    if s.broker.bodies[m].measurementId in s.db.measurements {
      RowsStay(detect, s, step, s.broker.bodies[m].measurementId);
    }
  }

  lemma {:induction false} OthersDoNotDisturb(detect: Detect, s: State, others: seq<Step>, m: Id, j: Id)
    requires Good(detect, s) && Sole(s, m, j) && AllLeave(detect, s, others, m, j)
    ensures Undisturbed(detect, s, Run(detect, s, others), m, j)
    decreases |others|
  {
    if others != [] {
      OtherDoesNotDisturb(detect, s, others[0], m, j);
      OthersDoNotDisturb(detect, Next(detect, s, others[0]), others[1..], m, j);
    }
  }

  // ----- what the row that the worker reads decides

  /** The delivery at its read, and the states its last two steps are taken in. */
  datatype Ending = Ending(read: State, commit: State, complete: State)

  /** From the read on: read, others, commit, others, complete. After a read that found no row the commit is no step. */
  function EndingOf(detect: Detect, s: State, j: Id, first: seq<Step>, second: seq<Step>): Ending {
    var u := Run(detect, Next(detect, s, Read(j)), first);
    Ending(s, u, Run(detect, Next(detect, u, Commit(j, false)), second))
  }

  predicate EndingLeft(detect: Detect, s: State, m: Id, j: Id, first: seq<Step>, second: seq<Step>) {
    var e := EndingOf(detect, s, j, first, second);
    && AllLeave(detect, Next(detect, s, Read(j)), first, m, j)
    && AllLeave(detect, Next(detect, e.commit, Commit(j, false)), second, m, j)
  }

  lemma ReadIs(detect: Detect, s: State, m: Id, j: Id)
    requires Sole(s, m, j) && s.jobs[j].phase.Uploaded? && detect(s.broker.bodies[m].values).Ok?
    ensures var t, body := Next(detect, s, Read(j)), s.broker.bodies[m];
            && Sole(t, m, j) && t.db == s.db && t.broker == s.broker
            && (if body.measurementId in s.db.measurements
                then t.jobs[j] == s.jobs[j].(phase := Found(s.jobs[j].phase.url, detect(body.values).value))
                else t.jobs[j] == s.jobs[j].(phase := Finished) && m in t.notFound)
  {}

  lemma CommitIs(detect: Detect, s: State, m: Id, j: Id)
    requires Sole(s, m, j) && AnalysisOf(s.db.analyses, s.broker.bodies[m].measurementId).None?
    requires s.jobs[j].phase.Finished?
             || (s.jobs[j].phase.Found? && s.broker.bodies[m].measurementId in s.db.measurements)
    ensures var t, id := Next(detect, s, Commit(j, false)), s.broker.bodies[m].measurementId;
            && Sole(t, m, j) && t.jobs[j].phase.Finished? && t.broker == s.broker && t.notFound == s.notFound
            && (if s.jobs[j].phase.Found?
                then t.db == StoreAnalysis(s.db, id, s.jobs[j].phase.url, s.jobs[j].phase.result)
                else t.db == s.db)
  {}

  lemma CompleteIs(detect: Detect, s: State, m: Id, j: Id)
    requires Sole(s, m, j) && s.jobs[j].phase.Finished?
    ensures var t := Next(detect, s, Complete(j));
            m in t.broker.completed && j !in t.jobs && t.db == s.db && t.notFound == s.notFound
  {}

  /**
   A delivery that is the only one of its measurement completes the message, and there is an analysis then if and
   only if the row was committed when the worker read it, whatever others do in between. Without one the message
   is in the not-found log.
   */
  lemma TheReadDecides(detect: Detect, s: State, m: Id, j: Id, first: seq<Step>, second: seq<Step>)
    requires Good(detect, s) && Sole(s, m, j) && s.jobs[j].phase.Uploaded?
    requires detect(s.broker.bodies[m].values).Ok?
    requires AnalysisOf(s.db.analyses, s.broker.bodies[m].measurementId).None?
    requires EndingLeft(detect, s, m, j, first, second)
    ensures var e, body := EndingOf(detect, s, j, first, second), s.broker.bodies[m];
            var t := Next(detect, e.complete, Complete(j));
            var analysis := AnalysisOf(t.db.analyses, body.measurementId);
            && m in t.broker.completed && j !in t.jobs
            && (analysis.Some? <==> body.measurementId in s.db.measurements)
            && (analysis.Some? ==> analysis == Some(detect(body.values).value))
            && (analysis.None? ==> m in t.notFound)
  {
    var e, body := EndingOf(detect, s, j, first, second), s.broker.bodies[m];
    var r, c := Next(detect, s, Read(j)), Next(detect, e.commit, Commit(j, false));
    ReadIs(detect, s, m, j);
    GoodStep(detect, s, Read(j));
    OthersDoNotDisturb(detect, r, first, m, j);
    CommitIs(detect, e.commit, m, j);
    GoodStep(detect, e.commit, Commit(j, false));
    AnalysisOfAppend(e.commit.db.analyses, Analysis(body.measurementId, detect(body.values).value), body.measurementId);
    OthersDoNotDisturb(detect, c, second, m, j);
    CompleteIs(detect, e.complete, m, j);
  }

  // ----- the delivery from its beginning

  lemma DeliverySole(detect: Detect, s: State, m: Id, j: Id)
    requires BrokerOk(s.broker) && m in s.broker.queued && j !in s.jobs
    requires forall k :: k in s.jobs ==>
               !Names(s.broker.bodies, s.jobs[k].message, s.broker.bodies[m].measurementId)
    ensures var t := Next(detect, s, Deliver(m, j));
            Sole(t, m, j) && t.jobs[j].phase == Starting && t.db == s.db && t.broker.bodies == s.broker.bodies
  {}

  lemma UploadSole(detect: Detect, s: State, m: Id, j: Id, year: nat, month: nat)
    requires Sole(s, m, j) && s.jobs[j].phase == Starting
    ensures var t := Next(detect, s, Upload(j, year, month));
            Sole(t, m, j) && t.jobs[j].phase.Uploaded? && t.db == s.db && t.broker == s.broker
  {}

  /** Deliver, others, upload, others: the state in which the worker will read the row. */
  function ReadingState(detect: Detect, s: State, m: Id, j: Id, year: nat, month: nat, first: seq<Step>,
                        second: seq<Step>): State {
    Run(detect, Next(detect, Run(detect, Next(detect, s, Deliver(m, j)), first), Upload(j, year, month)), second)
  }

  /**
   From delivery to completion with any steps of others in between: the analysis is there at the end if and only
   if the API's commit came before the worker's read. A delivery before the commit alone loses nothing.
   */
  lemma DeliveryOutcome(detect: Detect, s: State, m: Id, j: Id, year: nat, month: nat, others: seq<seq<Step>>)
    requires Good(detect, s) && m in s.broker.queued && j !in s.jobs && |others| == 4
    requires forall k :: k in s.jobs ==>
               !Names(s.broker.bodies, s.jobs[k].message, s.broker.bodies[m].measurementId)
    requires var body := s.broker.bodies[m];
             detect(body.values).Ok? && AnalysisOf(s.db.analyses, body.measurementId).None?
    requires AllLeave(detect, Next(detect, s, Deliver(m, j)), others[0], m, j)
    requires var u := Run(detect, Next(detect, s, Deliver(m, j)), others[0]);
             AllLeave(detect, Next(detect, u, Upload(j, year, month)), others[1], m, j)
    requires EndingLeft(detect, ReadingState(detect, s, m, j, year, month, others[0], others[1]), m, j, others[2],
                        others[3])
    ensures var read := ReadingState(detect, s, m, j, year, month, others[0], others[1]);
            var t := Next(detect, EndingOf(detect, read, j, others[2], others[3]).complete, Complete(j));
            var id := s.broker.bodies[m].measurementId;
            && m in t.broker.completed
            && (AnalysisOf(t.db.analyses, id).Some? <==> id in read.db.measurements)
  {
    var a := Next(detect, s, Deliver(m, j));
    DeliverySole(detect, s, m, j);
    GoodStep(detect, s, Deliver(m, j));
    OthersDoNotDisturb(detect, a, others[0], m, j);
    var b := Run(detect, a, others[0]);
    UploadSole(detect, b, m, j, year, month);
    GoodStep(detect, b, Upload(j, year, month));
    OthersDoNotDisturb(detect, Next(detect, b, Upload(j, year, month)), others[1], m, j);
    TheReadDecides(detect, ReadingState(detect, s, m, j, year, month, others[0], others[1]), m, j, others[2],
                   others[3]);
  }

  // ----- a delivery before the commit that loses nothing

  lemma CommitWhileDelivered(detect: Detect, s: State, values: Values)
    requires BrokerOk(s.broker) && 0 in s.broker.queued && s.jobs == map[]
    requires 0 in s.sessions && s.sessions.Keys == {0} && s.sessions[0].stage == Published && s.sessions[0].id == 0
    ensures var u := Run(detect, Next(detect, s, Deliver(0, 0)), [CommitSession(0)]);
            0 in u.db.measurements && InPhase(u, 0, Starting)
  {
    var t := DeliverEarly(detect, s);
    var u := CommitLate(detect, t);
    assert Run(detect, t, [CommitSession(0)]) == Run(detect, u, []);
  }

  lemma UploadKeepsRows(detect: Detect, s: State)
    requires InPhase(s, 0, Starting)
    ensures Next(detect, s, Upload(0, 2024, 3)).db == s.db
  {}

  /** The API commits after the delivery and before the read: the analysis is there. */
  lemma DeliveryBeforeCommitLosesNothing(detect: Detect, device: Device, values: Values, operator: string)
    requires values.deviceId == 0 && values.uncertainty > 0.0 && detect(values).Ok?
    ensures var s := Run(detect, Start, [RegisterDevice(0, device), Insert(0, 0, values, 0, operator), Audit(0),
                                         Publish(0, 0)]);
            var read := ReadingState(detect, s, 0, 0, 2024, 3, [CommitSession(0)], []);
            var t := Next(detect, EndingOf(detect, read, 0, [], []).complete, Complete(0));
            0 in t.broker.completed && AnalysisOf(t.db.analyses, 0).Some?
  {
    var steps := [RegisterDevice(0, device), Insert(0, 0, values, 0, operator), Audit(0), Publish(0, 0)];
    var s := PublishedEarly(detect, device, values, operator);
    RunFour(detect, Start, steps);
    assert steps[4..] == [];
    EveryRunIsGood(detect, steps);
    CommitWhileDelivered(detect, s, values);
    UploadKeepsRows(detect, Run(detect, Next(detect, s, Deliver(0, 0)), [CommitSession(0)]));
    NoAnalysisYet(detect, s);
    FirstCommitLeaves(detect, Next(detect, s, Deliver(0, 0)));
    DeliveryOutcome(detect, s, 0, 0, 2024, 3, [[CommitSession(0)], [], [], []]);
  }

  lemma NoAnalysisYet(detect: Detect, s: State)
    requires Good(detect, s) && s.db.measurements == map[]
    ensures AnalysisOf(s.db.analyses, 0).None?
  {
    AnalysisOfAny(s.db.analyses, 0);
  }

  lemma FirstCommitLeaves(detect: Detect, s: State)
    requires 0 in s.broker.bodies
    ensures AllLeave(detect, s, [CommitSession(0)], 0, 0)
  {}
}
