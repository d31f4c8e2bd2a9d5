/** The pipeline cannot run forever: every delivery, attempt and settlement uses up a bounded supply. */
module PipelineDrain {
  import opened Wrappers
  import opened Detector
  import opened Sums
  import opened Pipeline
  import opened PipelineSafety
  import opened PipelineTheorems

  /** Steps a published message can cause at most: three deliveries of at most eleven worker steps, and expiries. */
  const WORK_PER_MESSAGE: nat := 40

  function PhaseWork(phase: Phase): nat {
    match phase
    case Starting => 5
    case Uploaded(_) => 4
    case Found(_, _) => 3
    case Finished => 2
    case Rejecting => 1
  }

  function AttemptsAfter(attempt: nat): nat {
    if attempt <= MAX_RETRIES then MAX_RETRIES - attempt else 0
  }

  function JobWork(job: Job): nat {
    3 * AttemptsAfter(job.attempt) + PhaseWork(job.phase)
  }

  function MessageWork(queued: bool, locked: bool, deliveries: nat): nat {
    var left := if deliveries <= MAX_DELIVERY_COUNT then MAX_DELIVERY_COUNT - deliveries else 0;
    if queued then 13 * left + 1 else if locked then 13 * left + 2 else 0
  }

  function BrokerWork(b: Broker, m: Id): nat {
    MessageWork(m in b.queued, m in b.locked, if m in b.deliveries then b.deliveries[m] else 0)
  }

  ghost function MessageWorks(b: Broker): map<Id, nat> {
    map m | m in b.bodies :: BrokerWork(b, m)
  }

  ghost function JobWorks(jobs: map<Id, Job>): map<Id, nat> {
    map j | j in jobs :: JobWork(jobs[j])
  }

  ghost function Work(s: State): nat {
    Sum(MessageWorks(s.broker)) + Sum(JobWorks(s.jobs))
  }

  lemma BrokerWorkChanges(b: Broker, c: Broker, m: Id)
    requires m in b.bodies && c.bodies.Keys == b.bodies.Keys
    requires forall n :: n in b.bodies && n != m ==> BrokerWork(c, n) == BrokerWork(b, n)
    ensures Sum(MessageWorks(c)) + BrokerWork(b, m) == Sum(MessageWorks(b)) + BrokerWork(c, m)
  {
    assert MessageWorks(c) == MessageWorks(b)[m := BrokerWork(c, m)];
    SumPut(MessageWorks(b), m, BrokerWork(c, m));
  }

  lemma SetJobWork(s: State, j: Id, job: Job)
    ensures Sum(JobWorks(SetJob(s, j, job).jobs)) + (if j in s.jobs then JobWork(s.jobs[j]) else 0)
            == Sum(JobWorks(s.jobs)) + JobWork(job)
  {
    assert JobWorks(s.jobs[j := job]) == JobWorks(s.jobs)[j := JobWork(job)];
    SumPut(JobWorks(s.jobs), j, JobWork(job));
  }

  lemma DropJobWork(s: State, j: Id)
    requires j in s.jobs
    ensures Sum(JobWorks(DropJob(s, j).jobs)) + JobWork(s.jobs[j]) == Sum(JobWorks(s.jobs))
  {
    assert JobWorks(s.jobs - {j}) == JobWorks(s.jobs) - {j};
    SumTake(JobWorks(s.jobs), j);
  }

  lemma PublishWork(b: Broker, m: Id, body: Message)
    requires m !in b.bodies && m !in b.queued
    ensures Sum(MessageWorks(b.(bodies := b.bodies[m := body], queued := b.queued + {m},
                                deliveries := b.deliveries[m := 0])))
            == Sum(MessageWorks(b)) + WORK_PER_MESSAGE
  {
    var c := b.(bodies := b.bodies[m := body], queued := b.queued + {m}, deliveries := b.deliveries[m := 0]);
    assert MessageWorks(c) == MessageWorks(b)[m := WORK_PER_MESSAGE];
    SumPut(MessageWorks(b), m, WORK_PER_MESSAGE);
  }

  /** Only a publication touches the broker, and no API step touches a job. */
  lemma ApiEffect(s: State, step: Step)
    requires Enabled(s, step) && ApiStep(step)
    ensures var t := ApplyApi(s, step);
            && t.jobs == s.jobs
            && t.broker == if !step.Publish? then s.broker
                           else s.broker.(
                             bodies := s.broker.bodies[step.message := t.broker.bodies[step.message]],
                             queued := s.broker.queued + {step.message},
                             deliveries := s.broker.deliveries[step.message := 0])
  {}

  lemma ApiWork(detect: Detect, s: State, step: Step)
    requires Good(detect, s) && Enabled(s, step) && ApiStep(step)
    ensures Work(ApplyApi(s, step)) == Work(s) + (if step.Publish? then WORK_PER_MESSAGE else 0)
  {
    ApiEffect(s, step);
    if step.Publish? {
      assert step.message !in s.broker.queued;
      PublishWork(s.broker, step.message, ApplyApi(s, step).broker.bodies[step.message]);
    }
  }

  lemma DeliverWork(detect: Detect, s: State, step: Step)
    requires Good(detect, s) && Enabled(s, step) && step.Deliver?
    ensures Work(ApplyBroker(s, step)) < Work(s)
  {
    var t := ApplyBroker(s, step);
    BrokerWorkChanges(s.broker, t.broker, step.message);
    SetJobWork(s, step.job, t.jobs[step.job]);
  }

  lemma ExpireMessageWork(b: Broker, m: Id)
    requires BrokerOk(b) && m in b.queued + b.locked.Keys
    ensures Sum(MessageWorks(MarkDead(b, m))) < Sum(MessageWorks(b))
  {
    BrokerWorkChanges(b, MarkDead(b, m), m);
  }

  lemma RequeueWork(b: Broker, m: Id)
    requires BrokerOk(b) && m in b.locked && b.deliveries[m] < MAX_DELIVERY_COUNT
    ensures Sum(MessageWorks(Unlock(b, m).(queued := b.queued + {m}))) < Sum(MessageWorks(b))
  {
    BrokerWorkChanges(b, Unlock(b, m).(queued := b.queued + {m}), m);
  }

  lemma ExpireWork(detect: Detect, s: State, step: Step)
    requires Good(detect, s) && Enabled(s, step) && (step.ExpireLock? || step.ExpireMessage?)
    ensures Work(ApplyBroker(s, step)) < Work(s)
  {
    if step.ExpireLock? && s.broker.deliveries[step.message] < MAX_DELIVERY_COUNT {
      RequeueWork(s.broker, step.message);
    } else {
      ExpireMessageWork(s.broker, step.message);
    }
  }

  lemma SettleWork(b: Broker, m: Id)
    requires BrokerOk(b) && m in b.locked
    ensures Sum(MessageWorks(MarkCompleted(b, m))) <= Sum(MessageWorks(b))
    ensures Sum(MessageWorks(MarkDead(b, m))) <= Sum(MessageWorks(b))
  {
    BrokerWorkChanges(b, MarkCompleted(b, m), m);
    BrokerWorkChanges(b, MarkDead(b, m), m);
  }

  /** The first await of an attempt, the upload, is over: it succeeded, it raised, or the worker crashed in it. */
  predicate Begins(s: State, step: Step) {
    (step.Upload? || step.Fault? || step.Crash?) && Enabled(s, step) && s.jobs[step.job].phase.Starting?
  }

  /** The job a worker step leaves has less work and no more attempts, and one fewer if the step began one. */
  predicate Advances(before: Job, after: Job, begins: bool) {
    && after.message == before.message
    && JobWork(after) < JobWork(before)
    && JobAttempts(after) + (if begins then 1 else 0) <= JobAttempts(before)
  }

  lemma FailingAdvances(job: Job)
    requires 1 <= job.attempt <= MAX_RETRIES && !job.phase.Finished? && !job.phase.Rejecting?
    ensures Advances(job, AttemptFails(job), job.phase.Starting?)
  {}

  lemma AttemptEffect(detect: Detect, s: State, step: Step)
    requires Enabled(s, step) && (step.Upload? || step.Read? || step.Commit? || step.Fault?)
    requires 1 <= s.jobs[step.job].attempt <= MAX_RETRIES
    ensures var t := ApplyWorker(detect, s, step);
            && t.broker == s.broker && step.job in t.jobs && t.jobs == s.jobs[step.job := t.jobs[step.job]]
            && Advances(s.jobs[step.job], t.jobs[step.job], Begins(s, step))
  {
    FailingAdvances(s.jobs[step.job]);
  }

  /** A worker settles a message only with its lock, and its job ends or turns to rejecting. */
  lemma SettleEffect(detect: Detect, s: State, step: Step)
    requires Enabled(s, step) && (step.Complete? || step.CompleteFails? || step.DeadLetter? || step.Crash?)
    ensures var t, job := ApplyWorker(detect, s, step), s.jobs[step.job];
            && (t.broker == s.broker
                || (HasLock(s, job)
                    && (t.broker == MarkCompleted(s.broker, job.message)
                        || t.broker == MarkDead(s.broker, job.message))))
            && (t.jobs == s.jobs - {step.job}
                || (t.jobs == s.jobs[step.job := job.(phase := Rejecting)] && job.phase == Finished))
  {}

  lemma WorkerEffect(detect: Detect, s: State, step: Step)
    requires Enabled(s, step) && !ApiStep(step) && !BrokerStep(step) && 1 <= s.jobs[step.job].attempt <= MAX_RETRIES
    ensures var t, job := ApplyWorker(detect, s, step), s.jobs[step.job];
            && (t.broker == s.broker
                || (HasLock(s, job)
                    && (t.broker == MarkCompleted(s.broker, job.message)
                        || t.broker == MarkDead(s.broker, job.message))))
            && (if step.job in t.jobs
                then t.jobs == s.jobs[step.job := t.jobs[step.job]] && Advances(job, t.jobs[step.job], Begins(s, step))
                else t.jobs == s.jobs - {step.job} && (Begins(s, step) ==> job.phase.Starting?))
  {
    if step.Upload? || step.Read? || step.Commit? || step.Fault? {
      AttemptEffect(detect, s, step);
    } else {
      SettleEffect(detect, s, step);
    }
  }

  lemma WorkerWork(detect: Detect, s: State, step: Step)
    requires Good(detect, s) && Enabled(s, step) && !ApiStep(step) && !BrokerStep(step)
    ensures Work(ApplyWorker(detect, s, step)) < Work(s)
  {
    var t, job := ApplyWorker(detect, s, step), s.jobs[step.job];
    assert JobOk(detect, job, s.broker.bodies, s.blobs, s.db.measurements.Keys);
    WorkerEffect(detect, s, step);
    if HasLock(s, job) { SettleWork(s.broker, job.message); }
    DropJobWork(s, step.job);
    if step.job in t.jobs { SetJobWork(s, step.job, t.jobs[step.job]); }
  }

  /** The number of broker and worker steps a run takes. */
  function Labour(detect: Detect, s: State, steps: seq<Step>): nat
    decreases |steps|
  {
    if steps == [] then 0
    else (if Enabled(s, steps[0]) && !ApiStep(steps[0]) then 1 else 0)
         + Labour(detect, Next(detect, s, steps[0]), steps[1..])
  }

  lemma WorkStep(detect: Detect, s: State, step: Step)
    requires Good(detect, s) && Enabled(s, step) && !ApiStep(step)
    ensures Work(Next(detect, s, step)) < Work(s)
  {
    if BrokerStep(step) {
      if step.Deliver? { DeliverWork(detect, s, step); } else { ExpireWork(detect, s, step); }
    } else {
      WorkerWork(detect, s, step);
    }
  }

  lemma {:induction false} LabourIsBounded(detect: Detect, s: State, steps: seq<Step>)
    requires Good(detect, s)
    ensures Labour(detect, s, steps) + Work(Run(detect, s, steps))
            <= Work(s) + WORK_PER_MESSAGE * Publications(detect, s, steps)
    decreases |steps|
  {
    if steps != [] {
      if Enabled(s, steps[0]) {
        if ApiStep(steps[0]) { ApiWork(detect, s, steps[0]); } else { WorkStep(detect, s, steps[0]); }
      }
      GoodStep(detect, s, steps[0]);
      LabourIsBounded(detect, Next(detect, s, steps[0]), steps[1..]);
    }
  }

  /** Drain termination: no schedule takes more than forty broker and worker steps per published message. */
  lemma PipelineDrains(detect: Detect, steps: seq<Step>)
    ensures Labour(detect, Start, steps) <= WORK_PER_MESSAGE * Publications(detect, Start, steps)
  {
    EveryRunIsGood(detect, []);
    assert Run(detect, Start, []) == Start;
    assert MessageWorks(Start.broker) == map[] && JobWorks(Start.jobs) == map[];
    LabourIsBounded(detect, Start, steps);
  }

  ghost predicate Quiescent(s: State) {
    forall step :: Enabled(s, step) ==> ApiStep(step)
  }

  lemma WorkIsEnabled(s: State)
    requires BrokerOk(s.broker) && (s.broker.queued != {} || s.broker.locked != map[] || s.jobs != map[])
    ensures !Quiescent(s)
  {
    if s.broker.queued != {} {
      var m :| m in s.broker.queued;
      assert Enabled(s, ExpireMessage(m)) && !ApiStep(ExpireMessage(m));
    } else if s.broker.locked != map[] {
      var m :| m in s.broker.locked;
      assert m in s.broker.bodies.Keys;
      assert Enabled(s, ExpireLock(m)) && !ApiStep(ExpireLock(m));
    } else {
      var j :| j in s.jobs;
      assert Enabled(s, Crash(j)) && !ApiStep(Crash(j));
    }
  }

  /** Quiescence is settlement: no broker or worker step is left exactly when every message is settled. */
  lemma QuiescentIsSettled(detect: Detect, steps: seq<Step>)
    ensures var s := Run(detect, Start, steps);
            Quiescent(s) <==> s.jobs == map[] && s.broker.completed + s.broker.deadLettered == s.broker.bodies.Keys
  {
    EveryRunIsGood(detect, steps);
    var s := Run(detect, Start, steps);
    if s.broker.queued != {} || s.broker.locked != map[] || s.jobs != map[] {
      WorkIsEnabled(s);
    } else {
      assert s.broker.locked.Keys == {};
    }
    if s.jobs == map[] && s.broker.completed + s.broker.deadLettered == s.broker.bodies.Keys {
      assert s.broker.queued == {} && s.broker.locked.Keys == {};
      NothingIsEnabled(s);
    }
  }

  lemma NothingIsEnabled(s: State)
    requires s.jobs == map[] && s.broker.queued == {} && s.broker.locked.Keys == {}
    ensures Quiescent(s)
  {}

  lemma SomeWork(s: State) returns (step: Step)
    requires !Quiescent(s)
    ensures Enabled(s, step) && !ApiStep(step)
  {
    step :| Enabled(s, step) && !ApiStep(step);
  }

  /** Whatever happened so far, quiescence can be reached without the API, by any enabled steps in any order. */
  lemma {:induction false} CanAlwaysQuiesce(detect: Detect, s: State) returns (steps: seq<Step>)
    requires Good(detect, s)
    ensures Quiescent(Run(detect, s, steps)) && |steps| <= Work(s)
    ensures forall i :: 0 <= i < |steps| ==> !ApiStep(steps[i])
    decreases Work(s)
  {
    if Quiescent(s) {
      steps := [];
    } else {
      var step := SomeWork(s);
      WorkStep(detect, s, step);
      GoodStep(detect, s, step);
      var rest := CanAlwaysQuiesce(detect, Next(detect, s, step));
      steps := [step] + rest;
      QuiesceAfter(detect, s, step, rest);
    }
  }

  lemma QuiesceAfter(detect: Detect, s: State, step: Step, rest: seq<Step>)
    requires Quiescent(Run(detect, Next(detect, s, step), rest))
    requires !ApiStep(step) && forall i :: 0 <= i < |rest| ==> !ApiStep(rest[i])
    ensures Quiescent(Run(detect, s, [step] + rest))
    ensures forall i :: 0 <= i < |[step] + rest| ==> !ApiStep(([step] + rest)[i])
  {
    RunFirst(detect, s, step, rest);
  }

  lemma RunFirst(detect: Detect, s: State, step: Step, rest: seq<Step>)
    ensures Run(detect, s, [step] + rest) == Run(detect, Next(detect, s, step), rest)
  {
    assert ([step] + rest)[1..] == rest;
  }

  // ----- at most nine attempts for each message

  function JobAttempts(job: Job): nat {
    match job.phase
    case Starting => AttemptsAfter(job.attempt) + 1
    case Uploaded(_) => AttemptsAfter(job.attempt)
    case Found(_, _) => AttemptsAfter(job.attempt)
    case _ => 0
  }

  ghost function AttemptMap(jobs: map<Id, Job>, m: Id): map<Id, nat> {
    map j | j in jobs :: if jobs[j].message == m then JobAttempts(jobs[j]) else 0
  }

  function DeliveriesLeft(b: Broker, m: Id): nat {
    if m !in b.deliveries then MAX_DELIVERY_COUNT
    else if b.deliveries[m] <= MAX_DELIVERY_COUNT then MAX_DELIVERY_COUNT - b.deliveries[m] else 0
  }

  ghost function AttemptsLeft(s: State, m: Id): nat {
    MAX_RETRIES * DeliveriesLeft(s.broker, m) + Sum(AttemptMap(s.jobs, m))
  }

  predicate Attempts(s: State, step: Step, m: Id) {
    Begins(s, step) && s.jobs[step.job].message == m
  }

  /** How many attempts to process message m a run makes, those that fail in their upload included. */
  function AttemptCount(detect: Detect, s: State, steps: seq<Step>, m: Id): nat
    decreases |steps|
  {
    if steps == [] then 0
    else (if Attempts(s, steps[0], m) then 1 else 0) + AttemptCount(detect, Next(detect, s, steps[0]), steps[1..], m)
  }

  lemma SetJobAttempts(s: State, j: Id, job: Job, m: Id)
    ensures Sum(AttemptMap(s.jobs[j := job], m)) + (if j in s.jobs then AttemptMap(s.jobs, m)[j] else 0)
            == Sum(AttemptMap(s.jobs, m)) + (if job.message == m then JobAttempts(job) else 0)
  {
    var v := if job.message == m then JobAttempts(job) else 0;
    assert AttemptMap(s.jobs[j := job], m) == AttemptMap(s.jobs, m)[j := v];
    SumPut(AttemptMap(s.jobs, m), j, v);
  }

  lemma DropJobAttempts(s: State, j: Id, m: Id)
    requires j in s.jobs
    ensures Sum(AttemptMap(s.jobs - {j}, m)) + AttemptMap(s.jobs, m)[j] == Sum(AttemptMap(s.jobs, m))
  {
    assert AttemptMap(s.jobs - {j}, m) == AttemptMap(s.jobs, m) - {j};
    SumTake(AttemptMap(s.jobs, m), j);
  }

  lemma ApiAttempts(detect: Detect, s: State, step: Step, m: Id)
    requires Good(detect, s) && Enabled(s, step) && ApiStep(step)
    ensures AttemptsLeft(ApplyApi(s, step), m) == AttemptsLeft(s, m)
  {}

  lemma DeliverAttempts(s: State, step: Step, m: Id)
    requires BrokerOk(s.broker) && Enabled(s, step) && step.Deliver?
    ensures AttemptsLeft(ApplyBroker(s, step), m) == AttemptsLeft(s, m)
  {
    SetJobAttempts(s, step.job, ApplyBroker(s, step).jobs[step.job], m);
  }

  lemma BrokerAttempts(s: State, step: Step, m: Id)
    requires BrokerOk(s.broker) && Enabled(s, step) && BrokerStep(step)
    ensures AttemptsLeft(ApplyBroker(s, step), m) <= AttemptsLeft(s, m)
  {
    if step.Deliver? {
      DeliverAttempts(s, step, m);
    } else {
      ExpiryKeepsAttempts(s, step);
    }
  }

  lemma ExpiryKeepsAttempts(s: State, step: Step)
    requires Enabled(s, step) && (step.ExpireLock? || step.ExpireMessage?)
    ensures ApplyBroker(s, step).broker.deliveries == s.broker.deliveries && ApplyBroker(s, step).jobs == s.jobs
  {}

  lemma JobAttemptsLeft(s: State, t: State, j: Id, m: Id, begins: bool)
    requires j in s.jobs && t.broker.deliveries == s.broker.deliveries
    requires if j in t.jobs then t.jobs == s.jobs[j := t.jobs[j]] && Advances(s.jobs[j], t.jobs[j], begins)
             else t.jobs == s.jobs - {j} && (begins ==> s.jobs[j].phase.Starting?)
    ensures AttemptsLeft(t, m) + (if begins && s.jobs[j].message == m then 1 else 0) <= AttemptsLeft(s, m)
  {
    if j in t.jobs {
      SetJobAttempts(s, j, t.jobs[j], m);
    } else {
      DropJobAttempts(s, j, m);
    }
  }

  lemma WorkerAttempts(detect: Detect, s: State, step: Step, m: Id)
    requires Enabled(s, step) && !ApiStep(step) && !BrokerStep(step) && 1 <= s.jobs[step.job].attempt <= MAX_RETRIES
    ensures AttemptsLeft(ApplyWorker(detect, s, step), m) + (if Attempts(s, step, m) then 1 else 0)
            <= AttemptsLeft(s, m)
  {
    WorkerEffect(detect, s, step);
    JobAttemptsLeft(s, ApplyWorker(detect, s, step), step.job, m, Begins(s, step));
  }

  lemma AttemptStep(detect: Detect, s: State, step: Step, m: Id)
    requires Good(detect, s) && Enabled(s, step)
    ensures AttemptsLeft(Next(detect, s, step), m) + (if Attempts(s, step, m) then 1 else 0) <= AttemptsLeft(s, m)
  {
    if ApiStep(step) {
      ApiAttempts(detect, s, step, m);
    } else if BrokerStep(step) {
      BrokerAttempts(s, step, m);
    } else {
      assert JobOk(detect, s.jobs[step.job], s.broker.bodies, s.blobs, s.db.measurements.Keys);
      WorkerAttempts(detect, s, step, m);
    }
  }

  lemma {:induction false} AttemptsRun(detect: Detect, s: State, steps: seq<Step>, m: Id)
    requires Good(detect, s)
    ensures AttemptCount(detect, s, steps, m) + AttemptsLeft(Run(detect, s, steps), m) <= AttemptsLeft(s, m)
    decreases |steps|
  {
    if steps != [] {
      if Enabled(s, steps[0]) { AttemptStep(detect, s, steps[0], m); }
      GoodStep(detect, s, steps[0]);
      AttemptsRun(detect, Next(detect, s, steps[0]), steps[1..], m);
    }
  }

  /** No schedule makes the workers attempt a message more than nine times, whatever an attempt ends in. */
  lemma AtMostNineAttempts(detect: Detect, steps: seq<Step>, m: Id)
    ensures AttemptCount(detect, Start, steps, m) <= 9
  {
    EveryRunIsGood(detect, []);
    assert Run(detect, Start, []) == Start;
    assert AttemptMap(Start.jobs, m) == map[];
    AttemptsRun(detect, Start, steps, m);
  }
}
