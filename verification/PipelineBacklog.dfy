/** Working off a backlog with workers alone: no lock expires, no message expires, nothing crashes and nothing fails. */
module PipelineBacklog {
  import opened Wrappers
  import opened Detector
  import opened Sums
  import opened Pipeline
  import opened PipelineSafety
  import opened PipelineTheorems
  import opened PipelineDrain
  import opened PipelineScenarios
  import opened PipelineDelivery
  import opened PipelineLoss

  /** A delivery, or a worker's step without fault, lost acknowledgement or crash. */
  predicate WorkingStep(step: Step) {
    step.Deliver? || step.Upload? || step.Read? || (step.Commit? && !step.ackLost) || step.Complete? || step.DeadLetter?
  }

  predicate AllWorking(steps: seq<Step>) {
    forall i :: 0 <= i < |steps| ==> WorkingStep(steps[i])
  }

  /** A queued message of a committed measurement that has no analysis yet and that the detector accepts. */
  predicate Analysable(detect: Detect, s: State, m: Id) {
    && m in s.broker.queued && m in s.broker.bodies
    && s.broker.bodies[m].measurementId in s.db.measurements
    && AnalysisOf(s.db.analyses, s.broker.bodies[m].measurementId).None?
    && detect(s.broker.bodies[m].values).Ok?
  }

  predicate OnlyMessage(bodies: map<Id, Message>, m: Id)
    requires m in bodies
  {
    forall n :: n in bodies && n != m ==> bodies[n].measurementId != bodies[m].measurementId
  }

  /** Queued, or locked by a job that is still there. */
  predicate Owned(s: State, m: Id) {
    m in s.broker.queued || exists j :: j in s.jobs && s.jobs[j].message == m && HasLock(s, s.jobs[j])
  }

  /** What a schedule of working steps has made of a state. */
  ghost predicate WorkedOff(detect: Detect, s: State, t: State) {
    && t.broker.bodies == s.broker.bodies && t.broker.queued == {} && t.jobs == map[]
    && (forall m :: m in s.broker.bodies && Owned(s, m) ==> Settled(t.broker, m))
    && (forall m :: m in s.broker.bodies && Analysable(detect, s, m) ==>
          && AnalysisOf(t.db.analyses, s.broker.bodies[m].measurementId)
             == Some(detect(s.broker.bodies[m].values).value)
          && (OnlyMessage(s.broker.bodies, m) ==> m in t.broker.completed))
  }

  // ----- one step of a job that has no analysis to wait for

  function NextOf(job: Job, j: Id): Step {
    match job.phase
    case Starting => Upload(j, 2024, 3)
    case Uploaded(_) => Read(j)
    case Found(_, _) => Commit(j, false)
    case Finished => Complete(j)
    case Rejecting => DeadLetter(j)
  }

  lemma NextIsEnabled(s: State, j: Id)
    requires Holds(s, j)
    ensures Enabled(s, NextOf(s.jobs[j], j)) && WorkingStep(NextOf(s.jobs[j], j))
  {}

  lemma SettleOwned(detect: Detect, s: State, j: Id, m: Id)
    requires Holds(s, j) && (s.jobs[j].phase == Finished || s.jobs[j].phase == Rejecting)
    requires s.jobs[j].message == m && HasLock(s, s.jobs[j])
    ensures Settled(Next(detect, s, NextOf(s.jobs[j], j)).broker, m)
  {}

  lemma TryingKeepsBroker(detect: Detect, s: State, j: Id)
    requires Holds(s, j) && Trying(s.jobs[j].phase)
    ensures Next(detect, s, NextOf(s.jobs[j], j)).broker == s.broker
  {}

  lemma SettlingUnlocks(detect: Detect, s: State, j: Id)
    requires Holds(s, j) && !Trying(s.jobs[j].phase)
    ensures var t, job := Next(detect, s, NextOf(s.jobs[j], j)), s.jobs[j];
            t.broker.locked == if HasLock(s, job) then s.broker.locked - {job.message} else s.broker.locked
  {}

  lemma NextLocks(detect: Detect, s: State, j: Id)
    requires Holds(s, j)
    ensures var t, job := Next(detect, s, NextOf(s.jobs[j], j)), s.jobs[j];
            t.broker.locked == s.broker.locked
            || (HasLock(s, job) && !Trying(job.phase) && t.broker.locked == s.broker.locked - {job.message})
  {
    if Trying(s.jobs[j].phase) { TryingKeepsBroker(detect, s, j); } else { SettlingUnlocks(detect, s, j); }
  }

  lemma NextKeepsJob(detect: Detect, s: State, j: Id)
    requires Holds(s, j) && s.jobs[j].phase != Finished && s.jobs[j].phase != Rejecting
    ensures var t := Next(detect, s, NextOf(s.jobs[j], j));
            j in t.jobs && t.jobs[j].message == s.jobs[j].message && t.jobs[j].token == s.jobs[j].token
  {}

  lemma NextKeepsOthers(detect: Detect, s: State, j: Id, k: Id)
    requires Holds(s, j) && k in s.jobs && k != j
    ensures var t := Next(detect, s, NextOf(s.jobs[j], j)); k in t.jobs && t.jobs[k] == s.jobs[k]
  {
    NextIsEnabled(s, j);
    OtherJobStays(detect, s, NextOf(s.jobs[j], j), k);
  }

  /** A lock that the stepping job does not give up stays with its job. */
  lemma OtherLockStays(detect: Detect, s: State, j: Id, k: Id)
    requires Holds(s, j) && k in s.jobs && HasLock(s, s.jobs[k])
    requires s.jobs[j].message == s.jobs[k].message && HasLock(s, s.jobs[j]) ==>
               s.jobs[j].phase != Finished && s.jobs[j].phase != Rejecting
    ensures var t := Next(detect, s, NextOf(s.jobs[j], j));
            k in t.jobs && t.jobs[k].message == s.jobs[k].message && HasLock(t, t.jobs[k])
  {
    NextLocks(detect, s, j);
    if k == j { NextKeepsJob(detect, s, j); } else { NextKeepsOthers(detect, s, j, k); }
  }

  lemma JobStepOwned(detect: Detect, s: State, j: Id, m: Id)
    requires Holds(s, j) && s.broker.queued == {} && Owned(s, m)
    ensures var t := Next(detect, s, NextOf(s.jobs[j], j)); Owned(t, m) || Settled(t.broker, m)
  {
    var k :| k in s.jobs && s.jobs[k].message == m && HasLock(s, s.jobs[k]);
    if s.jobs[j].message == m && HasLock(s, s.jobs[j]) && !Trying(s.jobs[j].phase) {
      SettleOwned(detect, s, j, m);
    } else {
      OtherLockStays(detect, s, j, k);
    }
  }

  lemma DeliverOwned(detect: Detect, s: State, d: Id, j: Id, m: Id)
    requires BrokerOk(s.broker) && d in s.broker.queued && j !in s.jobs && Owned(s, m)
    ensures Enabled(s, Deliver(d, j)) && Owned(Next(detect, s, Deliver(d, j)), m)
  {
    var t := DeliverStep(detect, s, d, j);
    if m == d {
      assert t.jobs[j].message == m && HasLock(t, t.jobs[j]);
    } else if m !in s.broker.queued {
      var k :| k in s.jobs && s.jobs[k].message == m && HasLock(s, s.jobs[k]);
      assert t.jobs[k] == s.jobs[k] && HasLock(t, t.jobs[k]);
    }
  }

  // ----- one delivery that ends with an analysis

  lemma FiveStepsOwned(s: State, t: State, d: Id, m: Id)
    requires BrokerOk(s.broker) && d in s.broker.queued && Owned(s, m) && t.jobs == s.jobs
    requires t.broker == MarkCompleted(Delivered(s.broker, d), d)
    ensures Owned(t, m) || Settled(t.broker, m)
  {
    if m != d && m !in s.broker.queued {
      var k :| k in s.jobs && s.jobs[k].message == m && HasLock(s, s.jobs[k]);
      assert HasLock(t, t.jobs[k]);
    }
  }

  lemma FiveStepsWork(s: State, t: State, d: Id)
    requires BrokerOk(s.broker) && d in s.broker.queued && t.jobs == s.jobs
    requires t.broker == MarkCompleted(Delivered(s.broker, d), d)
    ensures Work(t) + 5 <= Work(s)
  {
    BrokerWorkChanges(s.broker, t.broker, d);
  }

  /** The other measurements' messages are as they were. */
  lemma FiveStepsAnalysable(detect: Detect, s: State, t: State, d: Id, m: Id)
    requires BrokerOk(s.broker) && Analysable(detect, s, d) && Analysable(detect, s, m)
    requires s.broker.bodies[m].measurementId != s.broker.bodies[d].measurementId
    requires t.broker == MarkCompleted(Delivered(s.broker, d), d)
    requires var id := s.broker.bodies[d].measurementId;
             && t.db.measurements.Keys == s.db.measurements.Keys
             && exists result :: t.db.analyses == s.db.analyses + [Analysis(id, result)]
    ensures Analysable(detect, t, m)
  {
    var id := s.broker.bodies[d].measurementId;
    var result :| t.db.analyses == s.db.analyses + [Analysis(id, result)];
    AnalysisOfAppend(s.db.analyses, Analysis(id, result), s.broker.bodies[m].measurementId);
  }

  lemma SameValues(detect: Detect, s: State, m: Id, n: Id)
    requires Good(detect, s) && m in s.broker.bodies && n in s.broker.bodies
    requires s.broker.bodies[m].measurementId == s.broker.bodies[n].measurementId
    ensures s.broker.bodies[m].values == s.broker.bodies[n].values
  {
    assert Issued(s.issued, s.broker.bodies[m].measurementId, s.broker.bodies[m].values);
    assert Issued(s.issued, s.broker.bodies[n].measurementId, s.broker.bodies[n].values);
  }

  // ----- whole schedules

  lemma {:induction false} AccruesRun(detect: Detect, s: State, steps: seq<Step>)
    ensures Accrues(s.broker, Run(detect, s, steps).broker)
    decreases |steps|
  {
    if steps != [] {
      AccruesStep(detect, s, steps[0]);
      AccruesRun(detect, Next(detect, s, steps[0]), steps[1..]);
    }
  }

  lemma WorkingKeepsBodies(detect: Detect, s: State, step: Step)
    requires WorkingStep(step)
    ensures Next(detect, s, step).broker.bodies == s.broker.bodies
  {
    BodiesStep(detect, s, step);
  }

  /** A step that leaves every owned message owned or settled, in a state with nothing left to analyse. */
  lemma ThenWorkedOff(detect: Detect, s: State, t: State, u: State)
    requires t.broker.bodies == s.broker.bodies && WorkedOff(detect, t, u) && Accrues(t.broker, u.broker)
    requires forall m :: m in s.broker.bodies ==> !Analysable(detect, s, m)
    requires forall m :: m in s.broker.bodies && Owned(s, m) ==> Owned(t, m) || Settled(t.broker, m)
    ensures WorkedOff(detect, s, u)
  {}

  /** One working step towards the end, when no queued message can be analysed. */
  lemma PlainStep(detect: Detect, s: State) returns (step: Step)
    requires Good(detect, s) && (s.broker.queued != {} || s.jobs != map[])
    ensures Enabled(s, step) && WorkingStep(step)
    ensures forall m :: m in s.broker.bodies && Owned(s, m) ==>
              Owned(Next(detect, s, step), m) || Settled(Next(detect, s, step).broker, m)
  {
    if s.broker.queued != {} {
      var d :| d in s.broker.queued;
      var j := SomeFreshId(s.jobs.Keys);
      step := Deliver(d, j);
      assert Enabled(s, step) by { DeliverOwned(detect, s, d, j, d); }
      forall m | m in s.broker.bodies && Owned(s, m) ensures Owned(Next(detect, s, step), m) {
        DeliverOwned(detect, s, d, j, m);
      }
    } else {
      var j :| j in s.jobs;
      AllHold(detect, s, j);
      NextIsEnabled(s, j);
      step := NextOf(s.jobs[j], j);
      forall m | m in s.broker.bodies && Owned(s, m)
        ensures Owned(Next(detect, s, step), m) || Settled(Next(detect, s, step).broker, m)
      {
        JobStepOwned(detect, s, j, m);
      }
    }
  }

  /** Processes one analysable message in five steps and leaves everything else to the rest. */
  lemma ThenProcessed(detect: Detect, s: State, d: Id, t: State, u: State)
    requires Good(detect, s) && Analysable(detect, s, d) && Accrues(t.broker, u.broker) && WorkedOff(detect, t, u)
    requires t.broker == MarkCompleted(Delivered(s.broker, d), d) && t.jobs == s.jobs
    requires var body := s.broker.bodies[d];
             && t.db.measurements.Keys == s.db.measurements.Keys
             && t.db.analyses == s.db.analyses + [Analysis(body.measurementId, detect(body.values).value)]
             && AnalysisOf(u.db.analyses, body.measurementId) == Some(detect(body.values).value)
    ensures WorkedOff(detect, s, u)
  {
    forall m | m in s.broker.bodies && Owned(s, m) ensures Settled(u.broker, m) {
      FiveStepsOwned(s, t, d, m);
    }
    forall m | m in s.broker.bodies && Analysable(detect, s, m)
      ensures AnalysisOf(u.db.analyses, s.broker.bodies[m].measurementId)
              == Some(detect(s.broker.bodies[m].values).value)
      ensures OnlyMessage(s.broker.bodies, m) ==> m in u.broker.completed
    {
      if s.broker.bodies[m].measurementId == s.broker.bodies[d].measurementId {
        SameValues(detect, s, m, d);
      } else {
        FiveStepsAnalysable(detect, s, t, d, m);
      }
    }
  }

  lemma FiveSteps(detect: Detect, s: State, d: Id) returns (steps: seq<Step>)
    requires Good(detect, s) && Analysable(detect, s, d)
    ensures |steps| == 5 && AllWorking(steps)
    ensures var t, body := Run(detect, s, steps), s.broker.bodies[d];
            && t.broker == MarkCompleted(Delivered(s.broker, d), d) && t.jobs == s.jobs
            && t.db.measurements.Keys == s.db.measurements.Keys
            && t.db.analyses == s.db.analyses + [Analysis(body.measurementId, detect(body.values).value)]
  {
    var j := SomeFreshId(s.jobs.Keys);
    steps := FiveFor(detect, s, d, j);
  }

  lemma FiveFor(detect: Detect, s: State, d: Id, j: Id) returns (steps: seq<Step>)
    requires BrokerOk(s.broker) && Analysable(detect, s, d) && j !in s.jobs
    ensures |steps| == 5 && AllWorking(steps)
    ensures var t, body := Run(detect, s, steps), s.broker.bodies[d];
            && t.broker == MarkCompleted(Delivered(s.broker, d), d) && t.jobs == s.jobs
            && t.db.measurements.Keys == s.db.measurements.Keys
            && t.db.analyses == s.db.analyses + [Analysis(body.measurementId, detect(body.values).value)]
  {
    var t := DeliverAndProcess(detect, s, d, j, 2024, 3);
    steps := [Deliver(d, j), Upload(j, 2024, 3), Read(j), Commit(j, false), Complete(j)];
    RunFive(detect, s, steps);
  }

  /** A schedule of working steps, no longer than the work there is, that works the state off. */
  ghost predicate Clears(detect: Detect, s: State, steps: seq<Step>) {
    var t := Run(detect, s, steps);
    AllWorking(steps) && WorkedOff(detect, s, t) && |steps| + Work(t) <= Work(s)
  }

  lemma NothingToClear(detect: Detect, s: State)
    requires BrokerOk(s.broker) && s.broker.queued == {} && s.jobs == map[]
    ensures Clears(detect, s, [])
  {
    assert forall m :: m in s.broker.bodies ==> !Owned(s, m) && !Analysable(detect, s, m);
  }

  lemma StepThenRest(detect: Detect, s: State, step: Step, rest: seq<Step>)
    requires Work(Next(detect, s, step)) < Work(s)
    requires WorkingStep(step) && Clears(detect, Next(detect, s, step), rest)
    requires forall m :: m in s.broker.bodies ==> !Analysable(detect, s, m)
    requires forall m :: m in s.broker.bodies && Owned(s, m) ==>
               Owned(Next(detect, s, step), m) || Settled(Next(detect, s, step).broker, m)
    ensures Clears(detect, s, [step] + rest)
  {
    WorkingKeepsBodies(detect, s, step);
    AccruesRun(detect, Next(detect, s, step), rest);
    RunFirst(detect, s, step, rest);
    ThenWorkedOff(detect, s, Next(detect, s, step), Run(detect, Next(detect, s, step), rest));
  }

  lemma FiveThenRest(detect: Detect, s: State, d: Id, t: State, rest: seq<Step>)
    requires Good(detect, s) && Good(detect, t) && Analysable(detect, s, d)
    requires WorkedOff(detect, t, Run(detect, t, rest))
    requires t.broker == MarkCompleted(Delivered(s.broker, d), d) && t.jobs == s.jobs
    requires var body := s.broker.bodies[d];
             && t.db.measurements.Keys == s.db.measurements.Keys
             && t.db.analyses == s.db.analyses + [Analysis(body.measurementId, detect(body.values).value)]
    ensures WorkedOff(detect, s, Run(detect, t, rest))
  {
    var body := s.broker.bodies[d];
    AccruesRun(detect, t, rest);
    AnalysisOfAppend(s.db.analyses, Analysis(body.measurementId, detect(body.values).value), body.measurementId);
    FinalRun(detect, t, rest, body.measurementId);
    ThenProcessed(detect, s, d, t, Run(detect, t, rest));
  }

  lemma FiveStepsThenRest(detect: Detect, s: State, five: seq<Step>, rest: seq<Step>)
    requires AllWorking(five) && |five| + Work(Run(detect, s, five)) <= Work(s)
    requires Clears(detect, Run(detect, s, five), rest) && WorkedOff(detect, s, Run(detect, Run(detect, s, five), rest))
    ensures Clears(detect, s, five + rest)
  {
    RunConcat(detect, s, five, rest);
  }

  lemma PlainRest(detect: Detect, s: State) returns (step: Step)
    requires Good(detect, s) && (s.broker.queued != {} || s.jobs != map[])
    requires forall m :: m in s.broker.bodies ==> !Analysable(detect, s, m)
    ensures Good(detect, Next(detect, s, step)) && Work(Next(detect, s, step)) < Work(s)
    ensures forall rest :: Clears(detect, Next(detect, s, step), rest) ==> Clears(detect, s, [step] + rest)
  {
    step := PlainStep(detect, s);
    WorkStep(detect, s, step);
    GoodStep(detect, s, step);
    forall rest | Clears(detect, Next(detect, s, step), rest) ensures Clears(detect, s, [step] + rest) {
      StepThenRest(detect, s, step, rest);
    }
  }

  lemma FiveRest(detect: Detect, s: State, d: Id) returns (five: seq<Step>)
    requires Good(detect, s) && Analysable(detect, s, d)
    ensures Good(detect, Run(detect, s, five)) && Work(Run(detect, s, five)) < Work(s)
    ensures forall rest :: Clears(detect, Run(detect, s, five), rest) ==> Clears(detect, s, five + rest)
  {
    five := FiveSteps(detect, s, d);
    FiveStepsWork(s, Run(detect, s, five), d);
    GoodRun(detect, s, five);
    forall rest | Clears(detect, Run(detect, s, five), rest) ensures Clears(detect, s, five + rest) {
      FiveThenRest(detect, s, d, Run(detect, s, five), rest);
      FiveStepsThenRest(detect, s, five, rest);
    }
  }

  /**
   From any reachable state the workers can work the queue off without any fault, expiry or crash: every message that
   is queued, or locked by a worker that is still there, is settled; every queued message of a committed measurement
   without analysis that the detector accepts gets its measurement analysed and, unless it is a duplicate, is completed.
   */
  lemma {:induction false} BacklogIsProcessed(detect: Detect, s: State) returns (steps: seq<Step>)
    requires Good(detect, s)
    ensures Clears(detect, s, steps)
    decreases Work(s)
  {
    if exists m :: m in s.broker.bodies && Analysable(detect, s, m) {
      var d :| d in s.broker.bodies && Analysable(detect, s, d);
      var five := FiveRest(detect, s, d);
      var rest := BacklogIsProcessed(detect, Run(detect, s, five));
      steps := five + rest;
    } else if s.broker.queued == {} && s.jobs == map[] {
      NothingToClear(detect, s);
      steps := [];
    } else {
      var step := PlainRest(detect, s);
      var rest := BacklogIsProcessed(detect, Next(detect, s, step));
      steps := [step] + rest;
    }
  }

  /** When no lock is left over from a worker that is gone, this settles every message: nothing is left to do. */
  lemma WorkedOffIsQuiescent(detect: Detect, s: State, t: State)
    requires BrokerOk(s.broker) && BrokerOk(t.broker) && Accrues(s.broker, t.broker) && WorkedOff(detect, s, t)
    requires forall m :: m in s.broker.locked ==> Owned(s, m)
    ensures Quiescent(t)
  {
    forall m | m in s.broker.bodies ensures m !in t.broker.locked {
      assert m in s.broker.bodies.Keys;
      assert m in s.broker.queued || m in s.broker.locked || Settled(s.broker, m);
    }
    assert t.broker.locked.Keys <= t.broker.bodies.Keys;
    assert t.broker.locked.Keys == {};
    NothingIsEnabled(t);
  }
}
