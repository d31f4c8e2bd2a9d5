/**
 The processing worker and the ingestion request as the code runs them: statement by statement on shared
 state, with any steps of other requests, workers and the broker at every await. Each method is proved to
 take steps of the pipeline, so what holds of every run holds around it.
 */
module Worker {
  import opened Wrappers
  import opened Detector
  import opened Pipeline
  import opened PipelineSafety
  import opened PipelineTheorems
  import opened WorkerRuns

  class Cloud {
    const detect: Detect
    const world: nat -> Event
    var tick: nat
    var state: State
    ghost var trace: seq<Step>

    constructor (detect: Detect, world: nat -> Event)
      ensures Valid() && state == Start && this.detect == detect && this.world == world
    {
      this.detect, this.world, tick, state, trace := detect, world, 0, Start, [];
    }

    /** The state is that of a run of the pipeline from the empty database. */
    ghost predicate Valid()
      reads this
    {
      state == Run(detect, Start, trace) && SessionsDiffer(state)
    }

    function Now(): Moment
      reads this
    {
      Moment(state, tick)
    }

    method Do(step: Step)
      requires Valid()
      modifies this`state, this`trace
      ensures Valid() && trace == old(trace) + [step] && state == Next(detect, old(state), step)
      ensures Accrues(old(state).broker, state.broker)
    {
      RunConcat(detect, Start, trace, [step]);
      SessionsDifferStep(detect, state, step);
      AccruesStep(detect, state, step);
      state := Next(detect, state, step);
      trace := trace + [step];
    }

    /** A step of others. */
    method Let(mine: set<Id>, request: Request, ghost row: Measurement, ghost operator: string, ghost stage: Stage,
               step: Step)
      requires Valid() && AllHeld(state, mine) && !Touches(step, mine) && !Meets(step, request)
      modifies this`state, this`trace
      ensures Valid() && old(trace) <= trace && Accrues(old(state).broker, state.broker)
      ensures state == Next(detect, old(state), step) && KeepsAll(old(state), state, mine)
      ensures Fresh(old(state), request) ==> Fresh(state, request)
      ensures InSession(old(state), request, row, operator, stage) ==> InSession(state, request, row, operator, stage)
    {
      OthersKeepJobs(detect, state, step, mine);
      if Fresh(state, request) { OthersKeepFresh(detect, state, step, request); }
      if InSession(state, request, row, operator, stage) {
        OthersKeepSession(detect, state, step, request, row, operator, stage);
      }
      Do(step);
    }

    /** Suspends: others run, and the caller's own jobs and session are as it left them. */
    method Await(mine: set<Id>, request: Request, ghost row: Measurement, ghost operator: string, ghost stage: Stage)
      returns (event: Event)
      requires Valid() && AllHeld(state, mine)
      requires request == NoRequest || Fresh(state, request) || InSession(state, request, row, operator, stage)
      modifies this
      ensures Valid() && old(trace) <= trace && Accrues(old(state).broker, state.broker)
      ensures event == world(old(tick)) && tick == old(tick) + 1
      ensures state == AfterOthers(detect, old(state), event.others, mine, request)
      ensures KeepsAll(old(state), state, mine)
      ensures Fresh(old(state), request) ==> Fresh(state, request)
      ensures InSession(old(state), request, row, operator, stage) ==> InSession(state, request, row, operator, stage)
    {
      event := world(tick);
      tick := tick + 1;
      var i := 0;
      while i < |event.others|
        invariant Valid() && old(trace) <= trace && Accrues(old(state).broker, state.broker)
        invariant i <= |event.others| && tick == old(tick) + 1
        invariant AfterOthers(detect, state, event.others[i..], mine, request)
                  == AfterOthers(detect, old(state), event.others, mine, request)
        invariant KeepsAll(old(state), state, mine)
        invariant Fresh(old(state), request) ==> Fresh(state, request)
        invariant InSession(old(state), request, row, operator, stage) ==>
                    InSession(state, request, row, operator, stage)
      {
        var step := event.others[i];
        assert event.others[i..][1..] == event.others[i + 1..];
        if !Touches(step, mine) && !Meets(step, request) {
          Let(mine, request, row, operator, stage, step);
        }
        i := i + 1;
      }
    }

    /** A worker's await: only its own jobs are protected. */
    method Pause(mine: set<Id>) returns (event: Event)
      requires Valid() && AllHeld(state, mine)
      modifies this
      ensures Valid() && old(trace) <= trace && Accrues(old(state).broker, state.broker)
      ensures KeepsAll(old(state), state, mine)
      ensures event == world(old(tick)) && Now() == Resumed(detect, world, old(Now()), mine)
    {
      ghost var none := Measurement(Values(0, 0.0, 0.0, 0.0, ""), 0, Received, None);
      event := Await(mine, NoRequest, none, "", Inserted);
    }

    /** A step of the owner on one of its jobs. */
    method Act(mine: set<Id>, j: Id, step: Step)
      requires Valid() && j in mine && AllHeld(state, mine) && Enabled(state, step)
      requires step == Fault(j) || (step.Upload? && step.job == j) || step == Read(j) || (step.Commit? && step.job == j)
      modifies this`state, this`trace
      ensures Valid() && old(trace) <= trace && Accrues(old(state).broker, state.broker)
      ensures KeepsOthers(old(state), state, mine, j) && Holds(state, j)
      ensures state == Next(detect, old(state), step)
      ensures AttemptOutcome(old(state).jobs[j], state.jobs[j], step)
      ensures Now() == Taken(detect, old(Now()), step)
    {
      AttemptSteps(detect, state, mine, j, step);
      Do(step);
    }

    /** One attempt: upload, detect, read the row, store the analysis and the status in one commit. */
    method ProcessMeasurement(mine: set<Id>, j: Id) returns (raised: bool)
      requires Valid() && j in mine && AllHeld(state, mine)
      requires InPhase(state, j, Starting)
      modifies this
      ensures Valid() && old(trace) <= trace && Accrues(old(state).broker, state.broker)
      ensures KeepsOthers(old(state), state, mine, j) && Holds(state, j)
      ensures state.jobs[j] == if raised then AttemptFails(old(state).jobs[j])
                               else old(state).jobs[j].(phase := Finished)
      ensures !raised ==> IsAnswered(state, state.jobs[j].message)
      ensures Ended(Now(), raised) == AttemptRun(detect, world, old(Now()), mine, j)
    {
      var event := Pause(mine);
      if event.fault {
        Act(mine, j, Fault(j));
        return true;
      }
      Act(mine, j, Upload(j, event.year, event.month));
      var missing;
      raised, missing := AnalyzeAndStore(mine, j);
    }

    /** Runs the detector and reads the row; a missing row ends the attempt without an error. */
    method AnalyzeAndStore(mine: set<Id>, j: Id) returns (raised: bool, missing: bool)
      requires Valid() && j in mine && AllHeld(state, mine)
      requires Holds(state, j) && state.jobs[j].phase.Uploaded?
      modifies this
      ensures Valid() && old(trace) <= trace && Accrues(old(state).broker, state.broker)
      ensures KeepsOthers(old(state), state, mine, j) && Holds(state, j)
      ensures state.jobs[j] == if raised then AttemptFails(old(state).jobs[j])
                               else old(state).jobs[j].(phase := Finished)
      ensures missing ==> !raised && Body(state, j).measurementId !in state.db.measurements
                          && state.jobs[j].message in state.notFound
      ensures !raised && !missing ==> exists result ::
                detect(Body(state, j).values) == Ok(result)
                && StoredResult(state, j, old(state).jobs[j].phase.url, result)
      ensures Ended(Now(), raised) == AnalyzeRun(detect, world, old(Now()), mine, j)
    {
      var event := Pause(mine);
      if event.fault {
        Act(mine, j, Fault(j));
        return true, false;
      }
      ReadLogs(detect, state, j);
      ReadKeepsTables(detect, state, j);
      ghost var body := Body(state, j);
      Act(mine, j, Read(j));
      if !state.jobs[j].phase.Found? {
        return state.jobs[j].phase != Finished, state.jobs[j].phase == Finished;
      }
      ghost var result := state.jobs[j].phase.result;
      raised := StoreResult(mine, j);
      missing := false;
    }

    /** The commit of the analysis and the status, whose acknowledgement can be lost. */
    method StoreResult(mine: set<Id>, j: Id) returns (raised: bool)
      requires Valid() && j in mine && AllHeld(state, mine)
      requires Holds(state, j) && state.jobs[j].phase.Found?
      modifies this
      ensures Valid() && old(trace) <= trace && Accrues(old(state).broker, state.broker)
      ensures KeepsOthers(old(state), state, mine, j) && Holds(state, j)
      ensures state.jobs[j] == if raised then AttemptFails(old(state).jobs[j])
                               else old(state).jobs[j].(phase := Finished)
      ensures !raised ==> StoredResult(state, j, old(state).jobs[j].phase.url, old(state).jobs[j].phase.result)
      ensures Ended(Now(), raised) == StoreRun(detect, world, old(Now()), mine, j)
    {
      var event := Pause(mine);
      if event.fault && !event.applied {
        Act(mine, j, Fault(j));
        return true;
      }
      CommitStores(detect, state, j, event.fault);
      Act(mine, j, Commit(j, event.fault));
      raised := state.jobs[j].phase != Finished;
    }

    /** Up to three attempts with exponential backoff; the last failure is raised. */
    method ProcessMessage(mine: set<Id>, j: Id) returns (raised: bool, slept: nat)
      requires Valid() && j in mine && AllHeld(state, mine)
      requires Ready(state, j)
      modifies this
      ensures Valid() && old(trace) <= trace && Accrues(old(state).broker, state.broker)
      ensures KeepsOthers(old(state), state, mine, j) && Holds(state, j)
      ensures state.jobs[j].message == old(state).jobs[j].message && state.jobs[j].token == old(state).jobs[j].token
      ensures state.jobs[j].phase == if raised then Rejecting else Finished
      ensures slept <= 6 && (raised ==> slept == 6 && state.jobs[j].attempt == MAX_RETRIES)
      ensures Retried(Now(), raised, slept) == MessageRun(detect, world, old(Now()), mine, j, 1, 0)
    {
      var attempt := 1;
      slept := 0;
      while attempt <= MAX_RETRIES
        invariant 1 <= attempt <= MAX_RETRIES
        invariant Valid() && old(trace) <= trace && Accrues(old(state).broker, state.broker)
        invariant KeepsOthers(old(state), state, mine, j) && Holds(state, j)
        invariant state.jobs[j] == old(state).jobs[j].(attempt := attempt)
        invariant MessageRun(detect, world, Now(), mine, j, attempt, slept)
                  == MessageRun(detect, world, old(Now()), mine, j, 1, 0)
        invariant slept == (if attempt == 1 then 0 else if attempt == 2 then 2 else 6)
        decreases MAX_RETRIES - attempt
      {
        raised := ProcessMeasurement(mine, j);
        if !raised { return; }
        if attempt == MAX_RETRIES { return; }
        slept := slept + (if attempt == 1 then 2 else 4);
        attempt := attempt + 1;
      }
    }

    /** Completes the message; without the lock, or on a fault, the delivery turns to rejecting. */
    method CompleteMessage(mine: set<Id>, j: Id) returns (raised: bool)
      requires Valid() && j in mine && AllHeld(state, mine)
      requires InPhase(state, j, Finished)
      modifies this
      ensures Valid() && old(trace) <= trace && Accrues(old(state).broker, state.broker)
      ensures KeepsOthers(old(state), state, mine, j)
      ensures if raised then Holds(state, j) && state.jobs[j] == old(state).jobs[j].(phase := Rejecting)
              else j !in state.jobs && old(state).jobs[j].message in state.broker.completed
      ensures Now() == SettledAt(detect, world, old(Now()), mine, j)
    {
      var event := Pause(mine);
      raised := event.fault || !HasLock(state, state.jobs[j]);
      var step := if event.fault then CompleteFails(j, event.applied) else Complete(j);
      SettleSteps(detect, state, mine, j, step);
      Do(step);
    }

    /** One delivery of a batch: process, then complete or dead-letter; an exception may leave the loop. */
    method HandleDelivery(mine: set<Id>, j: Id) returns (escaped: bool)
      requires Valid() && j in mine && AllHeld(state, mine)
      requires Ready(state, j)
      modifies this
      ensures Valid() && old(trace) <= trace && Accrues(old(state).broker, state.broker)
      ensures KeepsOthers(old(state), state, mine, j) && j !in state.jobs
      ensures !escaped ==> old(state).jobs[j].message in state.broker.completed + state.broker.deadLettered
      ensures Ended(Now(), escaped) == DeliveryRun(detect, world, old(Now()), mine, j)
    {
      var raised, _ := ProcessMessage(mine, j);
      if !raised {
        raised := CompleteMessage(mine, j);
        if !raised { return false; }
      }
      var fault;
      escaped, fault := Reject(mine, j);
    }

    /** Dead-letters the message; without the lock, or on a fault, the exception leaves the loop. */
    method Reject(mine: set<Id>, j: Id) returns (escaped: bool, fault: bool)
      requires Valid() && j in mine && AllHeld(state, mine)
      requires InPhase(state, j, Rejecting)
      modifies this
      ensures Valid() && old(trace) <= trace && Accrues(old(state).broker, state.broker)
      ensures KeepsOthers(old(state), state, mine, j) && j !in state.jobs
      ensures !escaped ==> old(state).jobs[j].message in state.broker.deadLettered
      ensures escaped && !fault ==> !HasLock(state, old(state).jobs[j])
      ensures fault ==> escaped
      ensures Ended(Now(), escaped) == RejectRun(detect, world, old(Now()), mine, j)
    {
      var event := Pause(mine);
      fault := event.fault;
      var step := if fault then Crash(j) else DeadLetter(j);
      escaped := fault || !HasLock(state, state.jobs[j]);
      SettleSteps(detect, state, mine, j, step);
      Do(step);
    }

    /** The messages of one received batch in turn: unless an exception escapes, every one of them is settled. */
    method ServeBatch(batch: seq<Id>) returns (escaped: bool)
      requires Valid() && forall i, k :: 0 <= i < k < |batch| ==> batch[i] != batch[k]
      requires forall j :: j in batch ==> Ready(state, j)
      modifies this
      ensures !escaped ==> forall j :: j in batch && j in old(state).jobs ==>
        old(state).jobs[j].message in state.broker.completed + state.broker.deadLettered
      ensures Valid() && old(trace) <= trace && Accrues(old(state).broker, state.broker)
      ensures Ended(Now(), escaped) == BatchRun(detect, world, old(Now()), batch)
    {
      var i := 0;
      while i < |batch|
        invariant Valid() && old(trace) <= trace && Accrues(old(state).broker, state.broker)
        invariant 0 <= i <= |batch|
        invariant BatchRun(detect, world, Now(), batch[i..]) == BatchRun(detect, world, old(Now()), batch)
        invariant forall j :: j in batch[i..] ==>
          j in old(state).jobs && Ready(state, j) && state.jobs[j].message == old(state).jobs[j].message
        invariant forall j :: j in batch[..i] && j in old(state).jobs ==>
          old(state).jobs[j].message in state.broker.completed + state.broker.deadLettered
      {
        var mine := InBatch(batch[i..]);
        assert batch[i..][1..] == batch[i + 1..];
        escaped := HandleDelivery(mine, batch[i]);
        if escaped { return; }
        forall j | j in batch[i + 1..]
          ensures j in old(state).jobs && Ready(state, j) && state.jobs[j].message == old(state).jobs[j].message
        {
          assert j in mine && j != batch[i];
        }
        i := i + 1;
      }
      escaped := false;
    }

    /** Flushes the new row; a missing device or a database fault raises and leaves nothing. */
    method FlushMeasurement(request: Request, values: Values, measuredAt: int, operator: string) returns (raised: bool)
      requires Valid() && request.Request? && Fresh(state, request) && values.uncertainty > 0.0
      modifies this
      ensures Valid() && old(trace) <= trace && Accrues(old(state).broker, state.broker)
      ensures if raised then Fresh(state, request)
              else InSession(state, request, Measurement(values, measuredAt, Received, None), operator, Inserted)
      ensures values.deviceId !in state.db.devices ==> raised
      ensures tick == old(tick) + 1
      ensures raised <==> world(old(tick)).fault || !DeviceThere(detect, world, old(Now()), request, values)
    {
      var event := Await({}, request, Measurement(values, measuredAt, Received, None), operator, Inserted);
      if event.fault || values.deviceId !in state.db.devices { return true; }
      InsertStep(detect, state, request, values, measuredAt, operator);
      Do(Insert(request.session, request.id, values, measuredAt, operator));
      raised := false;
    }

    method FlushAudit(request: Request, ghost row: Measurement, ghost operator: string) returns (raised: bool)
      requires Valid() && InSession(state, request, row, operator, Inserted)
      modifies this
      ensures Valid() && old(trace) <= trace && Accrues(old(state).broker, state.broker)
      ensures InSession(state, request, row, operator, if raised then Inserted else Audited)
      ensures tick == old(tick) + 1 && (raised <==> world(old(tick)).fault)
    {
      var event := Await({}, request, row, operator, Inserted);
      if event.fault { return true; }
      StageSteps(detect, state, request, row, operator, Inserted);
      Do(Audit(request.session));
      raised := false;
    }

    /** Sends the message; it may arrive although the call raises. */
    method Enqueue(request: Request, ghost row: Measurement, ghost operator: string) returns (raised: bool, sent: bool)
      requires Valid() && InSession(state, request, row, operator, Audited)
      modifies this
      ensures Valid() && old(trace) <= trace && Accrues(old(state).broker, state.broker)
      ensures InSession(state, request, row, operator, if sent then Published else Audited)
      ensures (sent ==> request.message in state.broker.bodies) && (!raised ==> sent)
      ensures tick == old(tick) + 1 && (raised <==> world(old(tick)).fault)
      ensures sent <==> !raised || world(old(tick)).applied
    {
      var event := Await({}, request, row, operator, Audited);
      if event.fault && !event.applied { return true, false; }
      StageSteps(detect, state, request, row, operator, Audited);
      Do(Publish(request.session, request.message));
      return event.fault, true;
    }

    /** The ingestion service: row, audit entry, message, in this order; `open` is how far its session got. */
    method Ingest(request: Request, values: Values, measuredAt: int, operator: string)
      returns (raised: bool, open: Option<Stage>)
      requires Valid() && request.Request? && Fresh(state, request) && values.uncertainty > 0.0
      modifies this
      ensures Valid() && old(trace) <= trace && Accrues(old(state).broker, state.broker)
      ensures open == None ==> raised && Fresh(state, request)
      ensures open.Some? ==>
        InSession(state, request, Measurement(values, measuredAt, Received, None), operator, open.value)
      ensures !raised ==> open == Some(Published) && request.message in state.broker.bodies
      ensures raised <==> !Ingests(detect, world, old(Now()), request, values)
      ensures !raised ==> tick == old(tick) + 3
      ensures open == None <==> world(old(tick)).fault || !DeviceThere(detect, world, old(Now()), request, values)
    {
      ghost var row := Measurement(values, measuredAt, Received, None);
      raised := FlushMeasurement(request, values, measuredAt, operator);
      if raised { return true, None; }
      raised := FlushAudit(request, row, operator);
      if raised { return true, Some(Inserted); }
      var sent;
      raised, sent := Enqueue(request, row, operator);
      open := Some(if sent then Published else Audited);
    }

    /**
     POST /measurements around the service: the session commits when the handler returns and rolls back on
     any exception. A commit whose acknowledgement is lost is committed all the same.
     */
    method CreateMeasurement(request: Request, values: Values, measuredAt: int, operator: string) returns (reply: Reply)
      requires Valid() && request.Request? && Fresh(state, request)
      modifies this
      ensures Valid() && old(trace) <= trace && Accrues(old(state).broker, state.broker)
      ensures values.uncertainty <= 0.0 <==> reply == Unprocessable
      ensures reply == Unprocessable ==> state == old(state)
      ensures reply == Accepted ==>
        && request.id in state.db.measurements
        && state.db.measurements[request.id] == Measurement(values, measuredAt, Received, None)
        && request.message in state.broker.bodies
      ensures reply != Unprocessable ==> request.session !in state.sessions
      ensures reply != Unprocessable && request.id in state.db.measurements ==>
        AuditEntry(operator, "create_measurement", request.id) in state.db.audit
      ensures var ingests := values.uncertainty > 0.0 && Ingests(detect, world, old(Now()), request, values);
              && (reply == Accepted <==> ingests && !world(old(tick) + 3).fault)
              && (request.id in state.db.measurements <==>
                    ingests && (!world(old(tick) + 3).fault || world(old(tick) + 3).applied))
    {
      if values.uncertainty <= 0.0 { return Unprocessable; }
      ghost var row := Measurement(values, measuredAt, Received, None);
      var raised, open := Ingest(request, values, measuredAt, operator);
      if open == None { return ServerError; }
      if raised {
        StageSteps(detect, state, request, row, operator, open.value);
        Do(RollbackSession(request.session));
        return ServerError;
      }
      var event := Await({}, request, row, operator, Published);
      if event.fault && !event.applied {
        StageSteps(detect, state, request, row, operator, Published);
        Do(RollbackSession(request.session));
        return ServerError;
      }
      CommitStep(detect, state, request, row, operator);
      Do(CommitSession(request.session));
      return if event.fault then ServerError else Accepted;
    }
  }
}
