/** Three schedules that pin down what a delivery leads to: the good case and the two known gaps. */
module PipelineScenarios {
  import opened Wrappers
  import opened Detector
  import opened Pipeline
  import opened PipelineSafety
  import opened PipelineTheorems
  import opened PipelineDrain

  /** A job that holds its message's lock, at the start of an attempt. */
  predicate Attempting(s: State, m: Id, j: Id, attempt: nat) {
    && InPhase(s, j, Starting) && s.jobs[j].message == m && s.jobs[j].attempt == attempt && HasLock(s, s.jobs[j])
  }

  lemma DeliverStep(detect: Detect, s: State, m: Id, j: Id) returns (t: State)
    requires BrokerOk(s.broker) && m in s.broker.queued && j !in s.jobs
    ensures t == Next(detect, s, Deliver(m, j))
    ensures Attempting(t, m, j, 1) && t.jobs == s.jobs[j := t.jobs[j]]
    ensures t.db == s.db && t.broker.bodies == s.broker.bodies && t.blobs == s.blobs
    ensures t.broker == Delivered(s.broker, m)
  {
    t := Next(detect, s, Deliver(m, j));
  }

  lemma UploadStep(detect: Detect, s: State, m: Id, j: Id, attempt: nat, year: nat, month: nat) returns (t: State)
    requires Attempting(s, m, j, attempt)
    ensures t == Next(detect, s, Upload(j, year, month))
    ensures var body := s.broker.bodies[m];
            var url := BlobUrl(body.values.deviceId, year, month, body.measurementId);
            t == s.(blobs := s.blobs[url := body], jobs := s.jobs[j := s.jobs[j].(phase := Uploaded(url))])
  {
    t := Next(detect, s, Upload(j, year, month));
  }

  lemma ReadStep(detect: Detect, s: State, m: Id, j: Id) returns (t: State)
    requires Holds(s, j) && s.jobs[j].message == m && s.jobs[j].phase.Uploaded?
    requires var body := s.broker.bodies[m]; body.measurementId in s.db.measurements && detect(body.values).Ok?
    ensures t == Next(detect, s, Read(j))
    ensures t == s.(jobs := s.jobs[j := s.jobs[j].(
                    phase := Found(s.jobs[j].phase.url, detect(s.broker.bodies[m].values).value))])
  {
    t := Next(detect, s, Read(j));
  }

  lemma CommitStep(detect: Detect, s: State, m: Id, j: Id) returns (t: State)
    requires Holds(s, j) && s.jobs[j].message == m && s.jobs[j].phase.Found?
    requires s.broker.bodies[m].measurementId in s.db.measurements
    ensures t == Next(detect, s, Commit(j, false))
    ensures var id := s.broker.bodies[m].measurementId;
            t == if AnalysisOf(s.db.analyses, id).Some? then s.(jobs := s.jobs[j := AttemptFails(s.jobs[j])])
                 else s.(db := StoreAnalysis(s.db, id, s.jobs[j].phase.url, s.jobs[j].phase.result),
                         jobs := s.jobs[j := s.jobs[j].(phase := Finished)])
  {
    t := Next(detect, s, Commit(j, false));
  }

  /** Upload, read and commit of one attempt without faults, on a committed measurement. */
  lemma FaultFreeAttempt(detect: Detect, s: State, m: Id, j: Id, attempt: nat, year: nat, month: nat)
    returns (t: State)
    requires Attempting(s, m, j, attempt)
    requires var body := s.broker.bodies[m]; body.measurementId in s.db.measurements && detect(body.values).Ok?
    ensures t == Next(detect, Next(detect, Next(detect, s, Upload(j, year, month)), Read(j)), Commit(j, false))
    ensures var body := s.broker.bodies[m];
            var url := BlobUrl(body.values.deviceId, year, month, body.measurementId);
            && t.broker == s.broker
            && (if AnalysisOf(s.db.analyses, body.measurementId).Some?
                then t.db == s.db && t.jobs == s.jobs[j := AttemptFails(s.jobs[j])]
                else && t.db == StoreAnalysis(s.db, body.measurementId, url, detect(body.values).value)
                     && t.jobs == s.jobs[j := s.jobs[j].(phase := Finished)])
  {
    var s1 := UploadStep(detect, s, m, j, attempt, year, month);
    var s2 := ReadStep(detect, s1, m, j);
    t := CommitStep(detect, s2, m, j);
  }

  lemma SettleStep(detect: Detect, s: State, m: Id, j: Id) returns (t: State)
    requires Holds(s, j) && s.jobs[j].message == m && HasLock(s, s.jobs[j])
    requires s.jobs[j].phase == Finished || s.jobs[j].phase == Rejecting
    ensures t == Next(detect, s, if s.jobs[j].phase == Finished then Complete(j) else DeadLetter(j))
    ensures t.db == s.db && t.jobs == s.jobs - {j}
    ensures t.broker == if s.jobs[j].phase == Finished then MarkCompleted(s.broker, m) else MarkDead(s.broker, m)
  {
    t := Next(detect, s, if s.jobs[j].phase == Finished then Complete(j) else DeadLetter(j));
  }

  /** Deliver, process and complete, as functions of one state. */
  lemma DeliverAndProcess(detect: Detect, s: State, m: Id, j: Id, year: nat, month: nat) returns (t: State)
    requires BrokerOk(s.broker) && m in s.broker.queued && j !in s.jobs
    requires var body := s.broker.bodies[m];
             && body.measurementId in s.db.measurements && AnalysisOf(s.db.analyses, body.measurementId).None?
             && detect(body.values).Ok?
    ensures t == Next(detect, Attempt(detect, Next(detect, s, Deliver(m, j)), j, year, month), Complete(j))
    ensures var body := s.broker.bodies[m];
            && t.broker == MarkCompleted(Delivered(s.broker, m), m) && t.jobs == s.jobs
            && t.db == StoreAnalysis(s.db, body.measurementId,
                                     BlobUrl(body.values.deviceId, year, month, body.measurementId),
                                     detect(body.values).value)
  {
    var s1 := DeliverStep(detect, s, m, j);
    var s4 := FaultFreeAttempt(detect, s1, m, j, 1, year, month);
    t := SettleStep(detect, s4, m, j);
  }

  /** In any reachable state a queued message of an unprocessed measurement can be processed in five steps. */
  lemma FaultFreeDelivery(detect: Detect, s: State, m: Id, j: Id, year: nat, month: nat)
    requires Good(detect, s) && m in s.broker.queued && j !in s.jobs
    requires var body := s.broker.bodies[m];
             && body.measurementId in s.db.measurements && AnalysisOf(s.db.analyses, body.measurementId).None?
             && detect(body.values).Ok?
    ensures var body := s.broker.bodies[m];
            var id := body.measurementId;
            var t := Run(detect, s, [Deliver(m, j), Upload(j, year, month), Read(j), Commit(j, false), Complete(j)]);
            && m in t.broker.completed && t.broker == MarkCompleted(Delivered(s.broker, m), m) && t.jobs == s.jobs
            && AnalysisOf(t.db.analyses, id) == Some(detect(body.values).value)
            && t.db.measurements == s.db.measurements[id := s.db.measurements[id].(
                 status := StatusOf(detect(body.values).value),
                 rawDataUrl := Some(BlobUrl(body.values.deviceId, year, month, id)))]
  {
    var _ := DeliverAndProcess(detect, s, m, j, year, month);
    RunFive(detect, s, [Deliver(m, j), Upload(j, year, month), Read(j), Commit(j, false), Complete(j)]);
    var body := s.broker.bodies[m];
    AnalysisOfAppend(s.db.analyses, Analysis(body.measurementId, detect(body.values).value), body.measurementId);
  }

  lemma RunFive(detect: Detect, s: State, steps: seq<Step>)
    requires |steps| == 5
    ensures var s4 := Next(detect, Next(detect, Next(detect, Next(detect, s, steps[0]), steps[1]), steps[2]), steps[3]);
            Run(detect, s, steps) == Next(detect, s4, steps[4])
  {
    RunFour(detect, s, steps);
    var s4 := Next(detect, Next(detect, Next(detect, Next(detect, s, steps[0]), steps[1]), steps[2]), steps[3]);
    assert steps[4..] == [steps[4]] + [];
    RunFirst(detect, s4, steps[4], []);
  }

  /** One attempt on a message, as a function of the state it starts in. */
  function Attempt(detect: Detect, s: State, j: Id, year: nat, month: nat): State {
    Next(detect, Next(detect, Next(detect, s, Upload(j, year, month)), Read(j)), Commit(j, false))
  }

  lemma AttemptInVain(detect: Detect, s: State, m: Id, j: Id, attempt: nat, year: nat, month: nat)
    requires Attempting(s, m, j, attempt)
    requires var body := s.broker.bodies[m];
             && body.measurementId in s.db.measurements && AnalysisOf(s.db.analyses, body.measurementId).Some?
             && detect(body.values).Ok?
    ensures var t := Attempt(detect, s, j, year, month);
            && t.broker == s.broker && t.db == s.db && Holds(t, j) && t.jobs[j] == AttemptFails(s.jobs[j])
  {
    var _ := FaultFreeAttempt(detect, s, m, j, attempt, year, month);
  }

  lemma ThreeInVain(detect: Detect, s: State, m: Id, j: Id, year: nat, month: nat) returns (t: State)
    requires Attempting(s, m, j, 1)
    requires var body := s.broker.bodies[m];
             && body.measurementId in s.db.measurements && AnalysisOf(s.db.analyses, body.measurementId).Some?
             && detect(body.values).Ok?
    ensures t == Attempt(detect, Attempt(detect, Attempt(detect, s, j, year, month), j, year, month), j, year, month)
    ensures t.broker == s.broker && t.db == s.db
    ensures Holds(t, j) && t.jobs[j].message == m && t.jobs[j].phase == Rejecting && HasLock(t, t.jobs[j])
  {
    AttemptInVain(detect, s, m, j, 1, year, month);
    var t1 := Attempt(detect, s, j, year, month);
    AttemptInVain(detect, t1, m, j, 2, year, month);
    var t2 := Attempt(detect, t1, j, year, month);
    AttemptInVain(detect, t2, m, j, 3, year, month);
    t := Attempt(detect, t2, j, year, month);
  }

  /** A redelivery after success runs into UNIQUE three times and ends dead-lettered; no table changes. */
  lemma RedeliveryEndsDeadLettered(detect: Detect, s: State, m: Id, j: Id, year: nat, month: nat)
    requires Attempting(s, m, j, 1)
    requires var body := s.broker.bodies[m];
             && body.measurementId in s.db.measurements && AnalysisOf(s.db.analyses, body.measurementId).Some?
             && detect(body.values).Ok?
    ensures var attempt := [Upload(j, year, month), Read(j), Commit(j, false)];
            var t := Run(detect, s, attempt + (attempt + (attempt + [DeadLetter(j)])));
            m in t.broker.deadLettered && t.db == s.db && j !in t.jobs
  {
    var t3 := ThreeInVain(detect, s, m, j, year, month);
    var _ := SettleStep(detect, t3, m, j);
    RunThreeAttempts(detect, s, j, year, month);
  }

  lemma RunThreeAttempts(detect: Detect, s: State, j: Id, year: nat, month: nat)
    ensures var attempt := [Upload(j, year, month), Read(j), Commit(j, false)];
            var t := Attempt(detect, Attempt(detect, Attempt(detect, s, j, year, month), j, year, month), j, year,
                             month);
            Run(detect, s, attempt + (attempt + (attempt + [DeadLetter(j)]))) == Next(detect, t, DeadLetter(j))
  {
    var attempt := [Upload(j, year, month), Read(j), Commit(j, false)];
    var t1 := Attempt(detect, s, j, year, month);
    var t2 := Attempt(detect, t1, j, year, month);
    RunThree(detect, s, attempt, attempt + (attempt + [DeadLetter(j)]));
    RunThree(detect, t1, attempt, attempt + [DeadLetter(j)]);
    RunThree(detect, t2, attempt, [DeadLetter(j)]);
    assert [DeadLetter(j)] == [DeadLetter(j)] + [];
    RunFirst(detect, Attempt(detect, t2, j, year, month), DeadLetter(j), []);
  }

  lemma RunThree(detect: Detect, s: State, steps: seq<Step>, rest: seq<Step>)
    requires |steps| == 3
    ensures Run(detect, s, steps + rest)
            == Run(detect, Next(detect, Next(detect, Next(detect, s, steps[0]), steps[1]), steps[2]), rest)
  {
    assert steps + rest == [steps[0]] + ([steps[1]] + ([steps[2]] + rest));
    RunFirst(detect, s, steps[0], [steps[1]] + ([steps[2]] + rest));
    RunFirst(detect, Next(detect, s, steps[0]), steps[1], [steps[2]] + rest);
    RunFirst(detect, Next(detect, Next(detect, s, steps[0]), steps[1]), steps[2], rest);
  }

  /** A published but uncommitted request, its message still queued. */
  lemma PublishedEarly(detect: Detect, device: Device, values: Values, operator: string) returns (t: State)
    requires values.deviceId == 0 && values.uncertainty > 0.0
    ensures t == Next(detect, Next(detect, Next(detect, Next(detect, Start, RegisterDevice(0, device)),
                 Insert(0, 0, values, 0, operator)), Audit(0)), Publish(0, 0))
    ensures BrokerOk(t.broker) && t.broker.queued == {0} && t.broker.completed == {}
    ensures t.broker.bodies == map[0 := Message(0, values)]
    ensures t.db.measurements == map[] && t.jobs == map[]
    ensures t.sessions == map[0 := Session(0, Measurement(values, 0, Received, None), operator, Published)]
  {
    var s1 := Next(detect, Start, RegisterDevice(0, device));
    var s2 := Next(detect, s1, Insert(0, 0, values, 0, operator));
    var s3 := Next(detect, s2, Audit(0));
    t := Next(detect, s3, Publish(0, 0));
  }

  /** A worker that reads before the commit logs measurement_not_found and completes the message. */
  lemma ReadTooEarly(detect: Detect, s: State) returns (t: State)
    requires s.broker.bodies.Keys == {0} && Attempting(s, 0, 0, 1) && s.jobs.Keys == {0} && s.broker.completed == {}
    requires s.broker.bodies[0].measurementId !in s.db.measurements && detect(s.broker.bodies[0].values).Ok?
    ensures t == Next(detect, Next(detect, Next(detect, s, Upload(0, 2024, 3)), Read(0)), Complete(0))
    ensures t.db == s.db && t.sessions == s.sessions && t.jobs == map[]
    ensures t.broker.completed == {0} && t.broker.bodies == s.broker.bodies
  {
    var s1 := UploadStep(detect, s, 0, 0, 1, 2024, 3);
    var s2 := Next(detect, s1, Read(0));
    assert InPhase(s2, 0, Finished) && HasLock(s2, s2.jobs[0]);
    t := Next(detect, s2, Complete(0));
    assert t.jobs.Keys == {};
  }

  lemma CommitLate(detect: Detect, s: State) returns (t: State)
    requires 0 in s.sessions && s.sessions.Keys == {0} && s.sessions[0].stage == Published
    ensures t == Next(detect, s, CommitSession(0))
    ensures s.sessions[0].id in t.db.measurements && t.db.measurements[s.sessions[0].id] == s.sessions[0].row
    ensures t.broker == s.broker && t.jobs == s.jobs && t.sessions == map[]
  {
    t := Next(detect, s, CommitSession(0));
    assert t.sessions.Keys == {};
  }

  lemma DeliverEarly(detect: Detect, s: State) returns (t: State)
    requires BrokerOk(s.broker) && 0 in s.broker.queued && s.jobs == map[]
    ensures t == Next(detect, s, Deliver(0, 0)) && Attempting(t, 0, 0, 1) && t.jobs.Keys == {0}
    ensures t.db == s.db && t.sessions == s.sessions && t.broker.bodies == s.broker.bodies
    ensures t.broker.completed == s.broker.completed
  {
    t := Next(detect, s, Deliver(0, 0));
  }

  /**
   The message is sent before the session commits: a worker that reads in between completes it without an
   analysis, and the measurement stays RECEIVED in a system with nothing left to do.
   */
  lemma EarlyDeliveryLosesTheAnalysis(detect: Detect, device: Device, values: Values, operator: string)
    requires values.deviceId == 0 && values.uncertainty > 0.0 && detect(values).Ok?
    ensures var steps := [RegisterDevice(0, device), Insert(0, 0, values, 0, operator), Audit(0), Publish(0, 0),
                          Deliver(0, 0), Upload(0, 2024, 3), Read(0), Complete(0), CommitSession(0)];
            var s := Run(detect, Start, steps);
            && 0 in s.db.measurements && s.db.measurements[0].status == Received
            && s.broker.completed == s.broker.bodies.Keys == {0} && s.jobs == map[] && s.sessions == map[]
  {
    var s4 := PublishedEarly(detect, device, values, operator);
    var s5 := DeliverEarly(detect, s4);
    var s8 := ReadTooEarly(detect, s5);
    var s9 := CommitLate(detect, s8);
    RunNine(detect, Start, [RegisterDevice(0, device), Insert(0, 0, values, 0, operator), Audit(0), Publish(0, 0),
                            Deliver(0, 0), Upload(0, 2024, 3), Read(0), Complete(0), CommitSession(0)]);
  }

  lemma RunNine(detect: Detect, s: State, steps: seq<Step>)
    requires |steps| == 9
    ensures var s4 := Next(detect, Next(detect, Next(detect, Next(detect, s, steps[0]), steps[1]), steps[2]), steps[3]);
            var s8 := Next(detect, Next(detect, Next(detect, Next(detect, s4, steps[4]), steps[5]), steps[6]),
                           steps[7]);
            Run(detect, s, steps) == Next(detect, s8, steps[8])
  {
    RunFour(detect, s, steps);
    var s4 := Next(detect, Next(detect, Next(detect, Next(detect, s, steps[0]), steps[1]), steps[2]), steps[3]);
    RunFour(detect, s4, steps[4..]);
    var s8 := Next(detect, Next(detect, Next(detect, Next(detect, s4, steps[4]), steps[5]), steps[6]), steps[7]);
    assert steps[4..][4..] == [steps[8]] + [];
    RunFirst(detect, s8, steps[8], []);
  }

  lemma RunFour(detect: Detect, s: State, steps: seq<Step>)
    requires |steps| >= 4
    ensures Run(detect, s, steps)
            == Run(detect,
                   Next(detect, Next(detect, Next(detect, Next(detect, s, steps[0]), steps[1]), steps[2]), steps[3]),
                   steps[4..])
  {
    assert steps[1..][1..] == steps[2..] && steps[2..][1..] == steps[3..] && steps[3..][1..] == steps[4..];
    var s1 := Next(detect, s, steps[0]);
    var s2 := Next(detect, s1, steps[1]);
    assert Run(detect, s1, steps[1..]) == Run(detect, s2, steps[2..]);
    var s3 := Next(detect, s2, steps[2]);
    assert Run(detect, s2, steps[2..]) == Run(detect, s3, steps[3..]);
  }

  // ----- nine attempts can be made

  /** A delivery whose worker fails in every attempt and dies, and whose lock then expires. */
  function LostDelivery(m: Id, j: Id): seq<Step> {
    [Deliver(m, j)] + ([Fault(j), Fault(j), Fault(j)] + [Crash(j), ExpireLock(m)])
  }

  lemma CountFirst(detect: Detect, s: State, step: Step, rest: seq<Step>, m: Id)
    ensures AttemptCount(detect, s, [step] + rest, m)
            == (if Attempts(s, step, m) then 1 else 0) + AttemptCount(detect, Next(detect, s, step), rest, m)
  {
    assert ([step] + rest)[1..] == rest;
  }

  lemma {:induction false} CountConcat(detect: Detect, s: State, first: seq<Step>, second: seq<Step>, m: Id)
    ensures AttemptCount(detect, s, first + second, m)
            == AttemptCount(detect, s, first, m) + AttemptCount(detect, Run(detect, s, first), second, m)
    decreases |first|
  {
    if first == [] {
      assert first + second == second;
    } else {
      assert (first + second)[1..] == first[1..] + second;
      CountConcat(detect, Next(detect, s, first[0]), first[1..], second, m);
    }
  }

  lemma FaultStep(detect: Detect, s: State, m: Id, j: Id, attempt: nat) returns (t: State)
    requires Attempting(s, m, j, attempt)
    ensures t == Next(detect, s, Fault(j)) && Attempts(s, Fault(j), m)
    ensures t == s.(jobs := s.jobs[j := AttemptFails(s.jobs[j])])
  {
    t := Next(detect, s, Fault(j));
  }

  lemma FaultThrice(detect: Detect, s: State, m: Id, j: Id, rest: seq<Step>) returns (t: State)
    requires Attempting(s, m, j, 1)
    ensures Run(detect, s, [Fault(j), Fault(j), Fault(j)] + rest) == Run(detect, t, rest)
    ensures AttemptCount(detect, s, [Fault(j), Fault(j), Fault(j)] + rest, m) == 3 + AttemptCount(detect, t, rest, m)
    ensures t == s.(jobs := s.jobs[j := s.jobs[j].(attempt := 3, phase := Rejecting)])
  {
    var f := Fault(j);
    var t1 := FaultStep(detect, s, m, j, 1);
    var t2 := FaultStep(detect, t1, m, j, 2);
    t := FaultStep(detect, t2, m, j, 3);
    RunThree(detect, s, [f, f, f], rest);
    assert [f, f, f] + rest == [f] + ([f] + ([f] + rest));
    CountFirst(detect, s, f, [f] + ([f] + rest), m);
    CountFirst(detect, t1, f, [f] + rest, m);
    CountFirst(detect, t2, f, rest, m);
  }

  lemma CrashStep(detect: Detect, s: State, j: Id, m: Id) returns (t: State)
    requires j in s.jobs && s.jobs[j].phase == Rejecting
    ensures t == Next(detect, s, Crash(j)) && t == s.(jobs := s.jobs - {j}) && !Attempts(s, Crash(j), m)
  {
    t := Next(detect, s, Crash(j));
  }

  /** An expired lock puts the message back into the queue after its first and second delivery, not after the third. */
  lemma ExpireStep(detect: Detect, s: State, m: Id) returns (t: State)
    requires m in s.broker.locked && m in s.broker.deliveries
    ensures t == Next(detect, s, ExpireLock(m)) && !Attempts(s, ExpireLock(m), m)
    ensures t.jobs == s.jobs && t.broker.deliveries == s.broker.deliveries
    ensures if s.broker.deliveries[m] < 3 then m in t.broker.queued else m in t.broker.deadLettered
  {
    t := Next(detect, s, ExpireLock(m));
  }

  lemma CrashThenExpire(detect: Detect, s: State, m: Id, j: Id) returns (t: State)
    requires j in s.jobs && s.jobs[j].phase == Rejecting && m in s.broker.locked && m in s.broker.deliveries
    ensures t == Run(detect, s, [Crash(j), ExpireLock(m)])
    ensures AttemptCount(detect, s, [Crash(j), ExpireLock(m)], m) == 0
    ensures t.jobs == s.jobs - {j} && t.broker.deliveries == s.broker.deliveries
    ensures if s.broker.deliveries[m] < 3 then m in t.broker.queued else m in t.broker.deadLettered
  {
    var s1 := CrashStep(detect, s, j, m);
    t := ExpireStep(detect, s1, m);
    assert [Crash(j), ExpireLock(m)] == [Crash(j)] + ([ExpireLock(m)] + []);
    RunFirst(detect, s, Crash(j), [ExpireLock(m)] + []);
    RunFirst(detect, s1, ExpireLock(m), []);
    CountFirst(detect, s, Crash(j), [ExpireLock(m)] + [], m);
    CountFirst(detect, s1, ExpireLock(m), [], m);
  }

  lemma LostDeliveryCosts(detect: Detect, s: State, m: Id, j: Id) returns (t: State)
    requires BrokerOk(s.broker) && m in s.broker.queued && j !in s.jobs
    ensures t == Run(detect, s, LostDelivery(m, j))
    ensures AttemptCount(detect, s, LostDelivery(m, j), m) == 3
    ensures t.jobs == s.jobs && m in t.broker.deliveries && t.broker.deliveries[m] == s.broker.deliveries[m] + 1
    ensures if t.broker.deliveries[m] < 3 then m in t.broker.queued else m in t.broker.deadLettered
  {
    var s1 := DeliverStep(detect, s, m, j);
    t := LostAttempts(detect, s1, m, j);
    var rest := [Fault(j), Fault(j), Fault(j)] + [Crash(j), ExpireLock(m)];
    RunFirst(detect, s, Deliver(m, j), rest);
    CountFirst(detect, s, Deliver(m, j), rest, m);
    assert s1.jobs - {j} == s.jobs;
  }

  lemma LostAttempts(detect: Detect, s: State, m: Id, j: Id) returns (t: State)
    requires Attempting(s, m, j, 1) && m in s.broker.deliveries
    ensures var steps := [Fault(j), Fault(j), Fault(j)] + [Crash(j), ExpireLock(m)];
            t == Run(detect, s, steps) && AttemptCount(detect, s, steps, m) == 3
    ensures t.jobs == s.jobs - {j} && t.broker.deliveries == s.broker.deliveries
    ensures if s.broker.deliveries[m] < 3 then m in t.broker.queued else m in t.broker.deadLettered
  {
    var s1 := FaultThrice(detect, s, m, j, [Crash(j), ExpireLock(m)]);
    t := CrashThenExpire(detect, s1, m, j);
    assert s1.jobs - {j} == s.jobs - {j};
  }

  /**
   Nine attempts are not only the most there can be: any queued message that was never delivered gets nine of them
   when each of its deliveries is lost, and only the third loss dead-letters it.
   */
  lemma NineAttemptsHappen(detect: Detect, s: State, m: Id, j: Id)
    requires Good(detect, s) && m in s.broker.queued && s.broker.deliveries[m] == 0 && j !in s.jobs
    ensures var lost := LostDelivery(m, j);
            && AttemptCount(detect, s, lost + (lost + lost), m) == 9
            && m in Run(detect, s, lost + lost).broker.queued
            && m in Run(detect, s, lost + (lost + lost)).broker.deadLettered
  {
    var lost := LostDelivery(m, j);
    var s1 := LostDeliveryCosts(detect, s, m, j);
    GoodRun(detect, s, lost);
    var s2 := LostDeliveryCosts(detect, s1, m, j);
    GoodRun(detect, s1, lost);
    var _ := LostDeliveryCosts(detect, s2, m, j);
    RunConcat(detect, s, lost, lost);
    RunConcat(detect, s, lost, lost + lost);
    RunConcat(detect, s1, lost, lost);
    CountConcat(detect, s, lost, lost + lost, m);
    CountConcat(detect, s1, lost, lost, m);
  }
}
