# Calibration platform: a verified model

This project models four pieces of the calibration platform in Dafny 4.11 and proves what they promise over
whole runs. `dafny verify dfyconfig.toml` checks all of it.

1. **Ingestion, queue and workers** (Python). One labelled transition system (`Pipeline`): API requests that
   insert, audit, publish and then commit; a peek-lock broker with locks, expiry and at most three deliveries;
   any number of workers, each of whose attempts uploads, analyses, reads and commits. A run is any sequence of
   steps, so every interleaving, duplicate delivery, fault, lost acknowledgement and crash is a run.
   `PipelineSafety` holds the invariants; `PipelineTheorems` and `PipelineDrain` the results over all runs;
   `PipelineDelivery`, `PipelineLoss` and `PipelineBacklog` what becomes of one measurement and of a whole backlog.
   `Worker` is the same code as it runs, statement by statement with the steps of others at every await; each
   method is proved to take steps of the transition system and to end exactly as its run in `WorkerRuns` does, a
   function of what happens at its awaits, about which it is proved when the method raises. `Analytics` holds the queries over its tables, and
   `AnalyticsRuns` is about requests whose statements read the tables at different times.
2. **Rate limiter** (Python). `TokenBucket` is the class with its two numbers per key; `BucketTheorems` and
   `LimiterRuns` relate it to the full history of admissions, to other policies and to thinned histories.
   `CappedCounter` is the arithmetic underneath.
3. **Calibration store** (Go). `Store` is what one SQL statement on behalf of a tenant does and answers, with its
   faults; `Handlers` is which statement each request sends next; `StoreRuns` interleaves the requests of all
   tenants. `StoreSoundness`, `Tenancy`, `StoreIntegrity`, `StoreTheorems` and `DeviceTheorems` hold the results,
   and `StoreScenarios` what each request does from beginning to end when nothing disturbs it.
   `Service` is the store and the handlers as imperative code, proved to take the steps of its request.
4. **Arithmetic and smaller parts**: the z-score detector (`Detector`, over `Decimal` rounding), the calibration
   engine (`Engine`), paging in both services (`Paging`) and the signing-key cache (`Jwks`).

Numbers with a fraction are exact reals and the clock never runs backwards. Uuids are naturals and no uuid is
given out twice: the pipeline refuses an id that was issued, and the store results ask for `FreshIds`. Rows in no
particular order are taken in an arbitrary fixed order, and ORDER BY breaks ties by it. JSON and text encodings
carry values unchanged. The worker imports `src.models.database` and `src.models.enums`, which its directory does
not contain; the API's tables and enums stand in for them. The detector reaches the pipeline as a parameter, so
the pipeline results hold for any deterministic detector with the same interface, as its documentation intends.

Promises the code does not keep, with a failing case and the exact condition:

- A measurement published before its session commits can be read too early, completed without an analysis and stay
  RECEIVED (`PipelineScenarios.EarlyDeliveryLosesTheAnalysis`). What decides is whether the commit comes before the
  worker's read (`PipelineDelivery.DeliveryOutcome`); `PipelineLoss.StaysReceivedExactly` says when it is for good.
- A summary reads its counts in six statements, and the published rate can be 200 percent
  (`AnalyticsRuns.RateCanExceedHundred`); `AnalyticsRuns.RateInRangeExactly` says exactly when it is a percentage.
  A trend reads rows and analyses in two, and a point can carry the score of an anomaly without the flag
  (`AnalyticsRuns.PointCanBeTorn`, exactly when: `AnalyticsRuns.PointFitsExactly`).
- The reset time reported with a 429 is too early for a limit of one request a minute
  (`BucketTheorems.ResetTooEarlyAtOne`, exactly when it is honest: `BucketTheorems.ResetHonestExactly`).
- The published score of an anomaly can equal the threshold (`Detector.PublishedScoreCanHideAnomaly`, exactly when
  score and verdict agree: `Detector.ScoreRepeatsVerdict`).
- A confidence in 0.5 to 1 needs a positive configured threshold (`Detector.ConfidenceInRange`).
- A result set that ends after n rows is taken for a complete one, as nothing asks for the error of the rows:
  `StoreScenarios.ReadCutShort`, `StoreScenarios.ListedRecordCutShort`, `StoreScenarios.PageCutShort`,
  `StoreScenarios.TrendCutShort` and `StoreScenarios.DevicesCutShort` give the answer for every n, which is complete
  exactly when there were no more than n rows. `StoreTheorems.ShownIsComplete` is how a client can tell for a record.
- Concurrent partial updates can lose one (`DeviceTheorems.LostUpdateHappens`, exactly when:
  `DeviceTheorems.ConcurrentUpdate`).
- A late cache write can put back older signing keys, under an older stamp (`Jwks.CacheCanGoBackward`) or a newer one
  (`Jwks.KeysCanGoBackUnderANewerStamp`); `Jwks.WhatALateWritePutsBack` and `Jwks.NeverBackExactly` say exactly when.
  Hits are fresh all the same.

Where documentation and code disagree the model follows the code. The repository's own README puts the anomaly at
z >= threshold (its line 225), the detector is strict (worker/src/anomaly_detector.py:62). It gives a lock of 30
seconds and ten attempts (its line 250), the queue has one minute and three (terraform/modules/messaging/main.tf:22-25).

## Model

| member | source | states |
|---|---|---|
| PipelineSafety.EveryRunIsGood | worker/src/main.py:42-97 | every reachable state, under any interleaving, redelivery, fault or crash, satisfies all pipeline invariants: values agree in session, row, message and blob; analyses match rows; the broker accounts for every message; the audit log matches the table |
| PipelineTheorems.ScheduleIndependence | worker/src/processor.py:40-92 | wherever two runs have both processed a measurement with the same values they agree on its status and its whole analysis, and these are those of one call of the detector |
| PipelineTheorems.StatusMatchesAnalysis | worker/src/processor.py:74-92 | status is RECEIVED iff there is no analysis, ANOMALY iff the analysis says so, VALIDATED otherwise; PROCESSING and REJECTED are unreachable; the raw data url is set iff there is an analysis and names a blob with the row's own values |
| PipelineTheorems.AtMostOneAnalysis | api/src/models/database.py:69-79 | no two analyses share a measurement and every analysis belongs to a committed measurement, in every reachable state |
| PipelineTheorems.FinalStatusNeverChanges | worker/src/processor.py:86-92 | a committed measurement keeps its values for ever, and once its status is final neither its row nor its analysis changes, whatever runs |
| PipelineTheorems.AuditBijection | api/src/services/ingestion.py:42-51 | committed measurements and create_measurement entries match one to one by resource id, over all commits and rollbacks |
| PipelineTheorems.AuditOnlyGrows | api/src/db/session.py:25-33 | the audit log after any run extends the one before it |
| PipelineTheorems.DevicesStayUnique | api/src/models/database.py:20-25 | over any run of the modelled steps devices are only added, none changes, and no two share a serial number |
| PipelineTheorems.MessagesAreConserved | worker/src/main.py:88-97 | every published message is in exactly one of queued, locked, completed and dead-lettered, and these four add up to the number of publications of the run |
| PipelineTheorems.OnlyTheLatestDeliverySettles | worker/src/main.py:88-97 | in every reachable state a message is settled only by its own expiry, by that of its lock, or by the worker of its latest delivery while the lock is held: a worker whose lock has expired settles nothing |
| PipelineTheorems.NoSilentLoss | api/src/services/ingestion.py:42-54 | a committed measurement that is still RECEIVED has a message, and each of its messages is queued, in flight or dead-lettered, or was completed with measurement_not_found logged for it |
| PipelineTheorems.NotFoundWasUncommitted | worker/src/processor.py:63-72 | a message logged as not found was read at a step at which its measurement was not committed |
| PipelineTheorems.NoLossWhenCommitComesFirst | api/src/db/session.py:28-33 | when every delivery finds its measurement committed, each message of a RECEIVED measurement is queued, in flight or dead-lettered; the not-found case is gone |
| PipelineDelivery.TheReadDecides | worker/src/processor.py:63-92 | a delivery that is the only one of its measurement in hand completes the message, whatever others do in between, and the measurement has an analysis then iff its row was committed when the worker read it |
| PipelineDelivery.DeliveryOutcome | worker/src/processor.py:40-92 | the same from the delivery on, with any steps of others between delivery, upload, read, commit and completion: a delivery before the API's commit alone loses nothing |
| PipelineDelivery.DeliveryBeforeCommitLosesNothing | worker/src/processor.py:40-92 | a concrete run in which the message is delivered before the API commits and read after it: the analysis is stored |
| PipelineLoss.StaysReceivedExactly | worker/src/main.py:42-97 | a committed measurement that the detector accepts stays RECEIVED under every continuation iff none of its messages is queued, locked with a delivery left, or in an attempt |
| PipelineLoss.CompletedIsFinal | worker/src/main.py:91-93 | once every message of a committed measurement is completed and no worker holds one, no continuation changes its status |
| PipelineLoss.LossMeansReadTooEarly | worker/src/processor.py:69-72 | a completed message of a RECEIVED measurement was read at a step at which the measurement was not committed, and completed at a later step, with the not-found log in between |
| PipelineTheorems.DetectorNeverRaises | worker/src/anomaly_detector.py:47-66 | on values the API accepted the detector returns a result iff the configured threshold is not zero |
| PipelineDrain.PipelineDrains | terraform/modules/messaging/main.tf:17-26 | no schedule takes more than forty broker and worker steps for each published message |
| PipelineDrain.LabourIsBounded | worker/src/main.py:45-63 | from any reachable state, the steps taken plus the work left are at most the work there was plus forty for each publication |
| PipelineDrain.QuiescentIsSettled | worker/src/main.py:88-97 | no broker or worker step is left iff no delivery is in hand and every message is completed or dead-lettered |
| PipelineDrain.CanAlwaysQuiesce | worker/src/main.py:81-97 | from any reachable state quiescence can be reached without the API, within the remaining work, expiries and crashes included |
| PipelineBacklog.BacklogIsProcessed | worker/src/main.py:81-97 | from any reachable state the workers can empty the queue without a fault, crash or expiry: every message that is queued or locked by a worker still there is settled, and every queued message of a committed unanalysed measurement that the detector accepts gets it analysed and is completed unless it is a duplicate |
| PipelineBacklog.WorkedOffIsQuiescent | worker/src/main.py:88-97 | when no lock is left over from a worker that is gone, nothing is left to do after that |
| PipelineDrain.AtMostNineAttempts | worker/src/main.py:45-63 | no schedule makes the workers attempt one message more than nine times, attempts that raise or crash in their upload included |
| PipelineScenarios.NineAttemptsHappen | worker/src/main.py:45-63 | from any reachable state, a queued message that was never delivered gets nine attempts when each of its deliveries fails three times and dies: it is back in the queue after the second lock has expired and dead-lettered after the third |
| PipelineScenarios.FaultFreeDelivery | worker/src/processor.py:40-92 | in any reachable state five fault-free steps take a queued message of an unprocessed measurement to completed, with the detector's analysis and the matching status and url |
| PipelineScenarios.RedeliveryEndsDeadLettered | worker/src/main.py:45-63 | a redelivery after success runs into the uniqueness of measurement_id three times, ends dead-lettered and changes no table |
| PipelineScenarios.EarlyDeliveryLosesTheAnalysis | api/src/services/ingestion.py:42-54 | a concrete run in which the message is completed before the API commits: the measurement stays RECEIVED with nothing left to do |
| Worker.Cloud.ProcessMeasurement | worker/src/processor.py:17-93 | one attempt, under any steps of others at its awaits, ends with its delivery finished and the message answered by an analysis or a not-found log or, when it raises, at the start of the next attempt or rejected after the last; other deliveries in hand are untouched, all it did are steps of the pipeline, and whether it raises and the state it leaves are those of WorkerRuns.AttemptRun |
| Worker.Cloud.AnalyzeAndStore | worker/src/processor.py:54-92 | the attempt after its upload: a missing row ends it without an error, logged as not found; otherwise it stores the detector's result, status and url; any exception makes it the next attempt; it ends as WorkerRuns.AnalyzeRun |
| Worker.Cloud.StoreResult | worker/src/processor.py:74-92 | the one commit: unless it raises, the analysis, the status that goes with it and the url are in the tables; it ends as WorkerRuns.StoreRun |
| Worker.Cloud.ProcessMessage | worker/src/main.py:42-63 | at most three attempts and six seconds of backoff; it raises only after the third attempt, having slept exactly 2 + 4 seconds; attempts, sleep and outcome are those of WorkerRuns.MessageRun |
| Worker.Cloud.HandleDelivery | worker/src/main.py:91-97 | the worker lets go of the delivery, and unless an exception leaves the loop its message is completed or dead-lettered; which of the three it is, and the state it leaves, are those of WorkerRuns.DeliveryRun |
| Worker.Cloud.CompleteMessage | worker/src/main.py:91-95 | the message is completed, or, without the lock or on a fault, the delivery goes on to its rejection |
| Worker.Cloud.Reject | worker/src/main.py:94-97 | the message is dead-lettered unless an exception leaves the loop; it ends as WorkerRuns.RejectRun |
| Worker.Cloud.ServeBatch | worker/src/main.py:90-97 | unless an exception leaves the loop every message of the batch is settled; the messages are served in the order of the batch, the first exception ends it |
| WorkerRuns.StoreExactly | worker/src/processor.py:74-92 | the commit raises iff its await faults or, by then, the row is gone or has an analysis already; when it can be stored it is, with status and url, also when only the acknowledgement is lost |
| WorkerRuns.AttemptExactly | worker/src/processor.py:17-93 | an attempt raises iff one of its awaits faults, the detector refuses the values or, the row having been there at the read, the commit cannot be made; otherwise the detector's result, status and url are stored, or the message is logged as not found iff the row was not there |
| WorkerRuns.MessageExactly | worker/src/main.py:42-63 | a second attempt is made iff the first raises, after 2 seconds, a third iff that one raises too, after 4 more, and the message is given up iff all three do |
| WorkerRuns.RejectExactly | worker/src/main.py:94-97 | dead-lettering raises iff its await faults or the lock is gone by then; otherwise the message is dead-lettered |
| WorkerRuns.DeliveryExactly | worker/src/main.py:90-97 | a processed message is completed iff the completing call does not fault and the lock is still held; a message that was given up, or could not be completed, is dead-lettered, and an exception leaves the loop iff that call faults or the lock is gone |
| WorkerRuns.FaultFreeIsCompleted | worker/src/main.py:90-93 | when no await faults, the detector accepts the values, the row is there at the read and unanalysed at the commit and the lock is still held, the first attempt stores the result without a sleep and the message is completed |
| Worker.Cloud.FlushMeasurement | api/src/services/ingestion.py:30-42 | inserts the row as RECEIVED without url in the request's own session; it raises iff its await faults or the device is not in the table by then, and leaves nothing when it does |
| Worker.Cloud.FlushAudit | api/src/services/ingestion.py:44-51 | adds the audit row to the same session, or raises and leaves the session as it was; it raises iff its await faults |
| Worker.Cloud.Enqueue | api/src/services/ingestion.py:64-89 | sends the message before the commit; it raises iff its await faults, and then the message is sent iff the fault came after the broker had it |
| Worker.Cloud.Ingest | api/src/services/ingestion.py:27-62 | row, audit entry, message in this order; the session is ready to commit and the message is published iff none of the three awaits faults and the device is there at the flush |
| Worker.Cloud.CreateMeasurement | api/src/db/session.py:25-33 | an uncertainty that is not positive is refused and changes nothing; otherwise the answer is accepted iff none of the four awaits faults and the device is there at the flush, and then row and message exist; a row is stored iff the commit is reached and took effect, answered or not; whatever the answer, the session is closed and a stored row has its audit entry |
| Analytics.CountsAddUp | api/src/services/analytics.py:54-71 | on tables at rest, in every reachable state, the counts by status and the counts by device type both sum to the total, only three statuses occur, and the anomaly count is the ANOMALY entry |
| Analytics.CountsMean | api/src/services/analytics.py:29-71 | whatever each statement reads, its count is the number of the rows it names, for every status and every device type, and a group is listed iff it has a row |
| AnalyticsRuns.TotalsAreExact | api/src/services/analytics.py:30-38 | in every run the totals are the number of measurements committed, and of devices registered, before their own statements |
| AnalyticsRuns.CountsInTurn | api/src/services/analytics.py:29-71 | with any steps between the six statements, the total is at most the sum by device type and that at most the sum by status, and the anomaly count is at most the ANOMALY entry |
| AnalyticsRuns.AnomaliesInTurn | api/src/services/analytics.py:31-46 | the anomaly count exceeds the total at most by the rows committed between the first and the third statement |
| Analytics.RateIsPercentage | api/src/services/analytics.py:40-46 | on tables at rest the rounded rate lies in 0 to 100, is 0 without and 100 with only anomalies, and is within half a hundredth of the exact quotient |
| Analytics.RateHasTwoDecimals | api/src/services/analytics.py:77-77 | the rate is published with two decimals |
| AnalyticsRuns.RateInRangeExactly | api/src/services/analytics.py:31-77 | with any steps in between the rate is never negative and at most 100 iff the anomalies exceed the total by at most one in twenty thousand, as when no row is committed between the two counts |
| AnalyticsRuns.RateCanExceedHundred | api/src/services/analytics.py:31-77 | a concrete run that publishes a rate of 200 percent |
| Analytics.AverageIsBetween | api/src/services/analytics.py:48-52 | the published mean deviation lies between the rounded extremes |
| Analytics.AverageIsMean | api/src/services/analytics.py:48-52 | the published mean has four decimals and is the sum of the deviations over their number up to half a unit of the fourth, and 0 without analyses |
| Analytics.DeviationsAdd | api/src/services/analytics.py:48-52 | the sum over two lists of analyses is the sum of their sums, and over one analysis its deviation |
| Analytics.AnomaliesAgree | api/src/services/analytics.py:117-140 | on tables at rest, in every reachable state, the anomaly list, joined from analyses in one statement, has as many entries as the summary's count by status, up to the limit, newest first, each showing its own row, device and analysis |
| AnalyticsRuns.ListAfterCount | api/src/services/analytics.py:117-140 | a list read after a count shows at least as many anomalies as were counted, up to its limit |
| Analytics.LimitDropsTheOldest | api/src/services/analytics.py:118-125 | an anomaly missing from the list is no newer than any listed one, and the list is full |
| Analytics.TrendMatchesAnalyses | api/src/services/analytics.py:98-115 | on tables at rest every trend point carries what the detector says of its measurement; there is no score, and no flag, iff there is no analysis; the header names the device and the unit of its first point |
| AnalyticsRuns.PointFitsExactly | api/src/services/analytics.py:89-108 | with any steps between the rows and their analyses, a point agrees with the detector iff its measurement did not turn from RECEIVED to ANOMALY in between |
| AnalyticsRuns.PointCanBeTorn | api/src/services/analytics.py:89-108 | a concrete run whose point has the score of an anomaly and no flag |
| Analytics.TrendIsOldestFirst | api/src/services/analytics.py:89-96 | a trend lists distinct measurements of the device in time order; one that is missing is no older than any listed one, and the trend is full |
| Analytics.UnknownDeviceHasNoTrend | api/src/services/analytics.py:85-115 | in every reachable state, a device that is not registered has an empty trend under the placeholders for name and unit |
| Analytics.FlagsAddUp | api/src/services/analytics.py:83-115 | on tables at rest the anomaly flags of all devices' full trends add up to the summary's anomaly count |
| AnalyticsRuns.FlagsOnlyGrow | api/src/services/analytics.py:83-115 | from one request to a later one the flags of a device's full trend only grow, and so does the anomaly count |
| TokenBucket.InMemoryTokenBucket.IsAllowed | api/src/core/rate_limiter.py:24-38 | refills under the cap, spends a token if there is one, reports remaining and reset, and leaves every other key alone |
| TokenBucket.InMemoryTokenBucket.RateLimit | api/src/core/rate_limiter.py:44-67 | 429 iff the user's bucket denies, with a Retry-After that is never negative, reaches the reset and, unless it is 0, no further |
| BucketTheorems.BucketIsHistory | api/src/core/rate_limiter.py:24-38 | from a full bucket with limit at least 1, call k is admitted iff for every earlier call j sixty times one plus the admissions from j on less the limit is at most the limit times the seconds since j: two numbers decide exactly as the whole history |
| BucketTheorems.WindowBound | api/src/core/rate_limiter.py:24-38 | in every window sixty times the admissions beyond the limit are at most the limit times the seconds of the window |
| BucketTheorems.MinuteRefillsLimit | api/src/core/rate_limiter.py:27-30 | an empty bucket refills in proportion to the time and holds exactly the limit after a minute |
| BucketTheorems.AdmittedReset | api/src/core/rate_limiter.py:34-36 | the reset reported with an admission is the last whole second not after the time at which the spent token is back |
| BucketTheorems.GreedyIsOptimal | api/src/core/rate_limiter.py:27-38 | no policy with the same refill and cap that never goes below zero has admitted more after any prefix |
| BucketTheorems.TokensStayInRange | api/src/core/rate_limiter.py:27-33 | tokens stay in 0 to limit on every run |
| BucketTheorems.DeniedLeaveNoTrace | api/src/core/rate_limiter.py:27-38 | after denied calls alone a call finds what one refill since the start leaves |
| BucketTheorems.RemainingIsExact | api/src/core/rate_limiter.py:32-36 | of further calls at the same instant exactly the reported remaining number gets in |
| BucketTheorems.ResetHonestExactly | api/src/core/rate_limiter.py:37-38 | every later call at or after the reported reset, after any number of further denials and no admission, is admitted iff the time to the reset refills the missing part of a token |
| BucketTheorems.ResetSufficesFromTwo | api/src/core/rate_limiter.py:37-38 | that condition holds for every limit of at least 2, despite truncation to whole seconds |
| BucketTheorems.ResetTooEarlyAtOne | api/src/core/rate_limiter.py:37-38 | at a limit of 1 a call at the reported reset can be denied again |
| BucketTheorems.RetryAfterIsHonest | api/src/core/rate_limiter.py:57-67 | for limits of at least 2 a client that waits Retry-After seconds, with only denials in between, gets in |
| LimiterRuns.DeniedAndOthersAreTransparent | api/src/core/rate_limiter.py:20-38 | dropping any denied calls of a key and any calls of other keys from a history leaves every remaining verdict of the key unchanged |
| LimiterRuns.FirstCallOfKey | api/src/core/rate_limiter.py:20-26 | a key without a bucket starts full: its first call is admitted and leaves all but one token |
| LimiterRuns.NothingBelowOne | api/src/core/rate_limiter.py:29-32 | with a limit below 1 no call of any history is admitted |
| CappedCounter.LevelIsLeastSlack | api/src/core/rate_limiter.py:27-33 | what a call finds is the least slack over all windows that end with it, reached by one of them |
| Detector.AnalyzeMeans | worker/src/anomaly_detector.py:52-62 | the verdict compares the deviation with threshold uncertainties, strictly; score and percentage are within half a unit of the sixth decimal of the exact quotients, and a zero reference gives 0 percent |
| Detector.AnalyzeRefuses | worker/src/anomaly_detector.py:47-66 | the inputs are refused for their uncertainty iff it is not positive, and otherwise iff the threshold is zero |
| Detector.DetailsMean | worker/src/anomaly_detector.py:68-80 | the result carries the configured version, and its details the threshold, the uncertainty, the deviation and the unrounded score, which times the uncertainty is the deviation |
| Detector.ScoreIsRounded | worker/src/anomaly_detector.py:68-70 | the published score is the one in the details rounded half to even at the sixth decimal |
| Detector.PublishedDecimals | worker/src/anomaly_detector.py:68-73 | score and percentage have six decimals, the confidence four |
| Detector.ConfidenceMeans | worker/src/anomaly_detector.py:64-66 | confidence is 1 a whole threshold away from the threshold and falls linearly to one half on it |
| Detector.ConfidenceMeansNegative | worker/src/anomaly_detector.py:64-66 | for a negative threshold the confidence follows the same line downwards without a cut |
| Detector.VerdictSurvivesRounding | worker/src/anomaly_detector.py:62-71 | for a threshold with six decimals an anomaly's published score is at least the threshold and any other's at most |
| Detector.ScoreRepeatsVerdict | worker/src/anomaly_detector.py:62-71 | testing the published score again gives the verdict iff the raw score is at most the threshold or clear of it by the rounding |
| Detector.PublishedScoreCanHideAnomaly | worker/src/anomaly_detector.py:68-71 | concrete inputs with a true verdict whose published score is the threshold |
| Detector.ConfidenceInRange | worker/src/anomaly_detector.py:64-72 | the published confidence lies in 0.5 to 1 iff the threshold is positive |
| Detector.ConfidenceMonotone | worker/src/anomaly_detector.py:64-72 | the published confidence grows with the distance of the score from the threshold |
| Detector.UnitsDoNotMatter | worker/src/anomaly_detector.py:52-73 | scaling all three inputs by a positive factor keeps verdict, score, deviation and confidence |
| Engine.VerdictMeans | internal/calibration/engine.go:18-26 | pass iff the reference is not zero and the deviation is at most the tolerance in percent of it; the deviation restores the reading; the expanded uncertainty is twice the uncertainty |
| Engine.VerdictMonotone | internal/calibration/engine.go:18-26 | a wider tolerance fails nothing that passed and none below zero passes anything |
| Engine.VerdictScales | internal/calibration/engine.go:18-26 | a change of unit keeps deviation and verdict and scales the expanded uncertainty |
| Engine.EvaluateRecord | internal/calibration/engine.go:30-53 | the points in input order, each with its own id and the values, unit and uncertainty of its input; a point passes iff its reference is not zero and reading and reference differ by at most the tolerance in percent of it, its deviation restores the reading, or is 0 for a zero reference, and its expanded uncertainty is twice the input's; the two counts are the numbers of passing and failing ones |
| Engine.PointsMeasure | internal/calibration/engine.go:32-44 | every point of a record has its own id, the numbers of the input at its place, and the verdict, deviation and expanded uncertainty that follow from them |
| Engine.EveryPointIsCounted | internal/calibration/engine.go:45-50 | the two counts add up to the number of points and no failure is counted iff every point passes |
| Tenancy.Noninterference | internal/store/postgres.go:57-242 | a tenant's rows and the state and response of each of its requests after any run are those of the run without the other tenants' requests |
| Tenancy.OthersAreInvisible | internal/api/handlers.go:96-298 | two runs with the same steps of one tenant give it the same responses and the same rows |
| Tenancy.OwnMeasurements | internal/store/postgres.go:386-409 | loading measurements by record alone returns only the tenant's own, because the record is |
| Tenancy.ForeignEffect | internal/store/postgres.go:160-180 | no statement of another tenant changes a tenant's rows |
| StoreSoundness.SoundStep | internal/store/migrations/001_init.sql:19-49 | every step keeps the foreign-key invariant: a measurement's record exists, a record about to be stored is on a device of its own tenant, records being read are the reader's own, and no unused uuid is in a table |
| StoreIntegrity.EveryRunIsKept | internal/store/postgres.go:185-242 | in every reachable state all stored records, all records held by requests and all stamps satisfy the integrity invariants |
| StoreTheorems.StoredRecordIntegrity | internal/api/handlers.go:186-213 | a stored record belongs to one submission: all its points, each measuring its input under one tolerance, with verdict and deviation stated on the input's own numbers, on a device of its tenant, with its operator, ambient values and time; its counts count the stored points by is_pass and add up; status, overall_pass and the points say the same |
| StoreTheorems.NoStrayMeasurements | internal/store/postgres.go:205-219 | no measurement is stored without its record, with a failure at any insert |
| StoreTheorems.RecordsAreImmutable | internal/store/postgres.go:185-220 | whatever runs later, a stored record and its points stay as they are |
| StoreTheorems.ToleranceWasRead | internal/api/handlers.go:169-187 | the tolerance of an evaluation is the one the device's row had at the step at which the request read it |
| StoreTheorems.SubmissionOutcome | internal/api/handlers.go:165-222 | created means stored whole; not found and bad request mean nothing is stored; after a server error nothing is stored or the request's own record is, whole; there is no other answer |
| StoreTheorems.ReadBack | internal/store/postgres.go:386-409 | loading a stored record's measurements gives all of them, as a permutation ordered by id, as many as the two counts say |
| StoreTheorems.ShownIsComplete | internal/store/postgres.go:397-409 | how a client can tell: a record in a response shows the first of its points by id, and all of them iff their number is the sum of its two counts |
| StoreScenarios.ReadCutShort | internal/store/postgres.go:386-409 | a record whose measurements end after n rows is answered as found, with its first n points by id, which are all iff it has no more than n |
| StoreScenarios.ListedRecordCutShort | internal/store/postgres.go:411-426 | the same for a record within a list |
| StoreScenarios.PageCutShort | internal/store/postgres.go:411-426 | a page of records that ends after n rows is answered as whole, total included, and is the page iff that has no more than n rows |
| StoreScenarios.TrendCutShort | internal/store/postgres.go:338-352 | the same for a trend |
| StoreScenarios.DevicesCutShort | internal/store/postgres.go:106-114 | the same for a page of devices |
| StoreTheorems.ResponsesShowStoredRecords | internal/store/postgres.go:411-426 | every record in any response is a stored record of the tenant with its own points |
| StoreTheorems.StampsAreMeasurementTimes | internal/api/handlers.go:215-218 | last_calibrated_at is the measurement time of a stored record of the device |
| StoreTheorems.SummaryAgrees | internal/store/postgres.go:302-335 | the pass rate is a percentage, and recent failures exceed the tallied failures at most by the failing records stored between the two statements |
| StoreTheorems.DevicePagesTile | internal/store/postgres.go:88-115 | the pages under any clamped limit give the tenant's devices each once, the one created last first, as many as the total |
| StoreTheorems.RecordPagesTile | internal/store/postgres.go:245-299 | the pages under any clamped limit give the records of the tenant or of one device each once, the one measured last first |
| StoreTheorems.LimitsAre | internal/api/handlers.go:284-316 | lists hold 50 rows unless asked otherwise and never more than 200; trends 20 and 100 |
| DeviceTheorems.IdentityNeverChanges | internal/store/postgres.go:160-166 | over any run devices are only added and keep id, tenant, serial number, type and creation time |
| DeviceTheorems.DevicesAreUnique | internal/store/migrations/001_init.sql:1-15 | in every reachable state ids are unique and serial numbers are unique within a tenant |
| DeviceTheorems.RegistrationInserts | internal/store/postgres.go:57-82 | a registration adds the requested row, with half a percent for a zero tolerance, or changes nothing when the tenant has the serial number |
| DeviceTheorems.RegistrationOutcome | internal/api/handlers.go:124-142 | conflict iff the tenant has the serial number already; otherwise, whatever runs before the row is read back, the answer is the added row |
| DeviceTheorems.StampIsTheLastWritten | internal/store/postgres.go:174-180 | in every interleaving of updates and stamps last_calibrated_at is the value of the last stamp written |
| DeviceTheorems.ConcurrentUpdate | internal/store/postgres.go:134-171 | with any steps between an update's read and its write, the row becomes the partial update of what it is by then iff the fields the request leaves alone are as they were read; the stamp never moves |
| DeviceTheorems.LostUpdateExactly | internal/store/postgres.go:141-166 | the same for one write on one row |
| DeviceTheorems.LostUpdate | internal/store/postgres.go:134-171 | two updates of a device, read, read, write, write, read back: the name the first one set is gone, and both answer with the row |
| DeviceTheorems.LostUpdateHappens | internal/store/postgres.go:134-171 | the same as a run from the empty database |
| DeviceTheorems.SerialUpdateMerges | internal/store/postgres.go:134-171 | undisturbed, an update makes the row its partial update and answers with it |
| DeviceTheorems.SerialUpdatesAreLastWriterWins | internal/store/postgres.go:134-171 | a series of undisturbed updates gives each editable field the last value set for it and leaves everything else alone |
| StoreTheorems.PassRateRange | internal/store/postgres.go:321-323 | the pass rate is a percentage: times the number of records it is a hundred for each that passes |
| StoreScenarios.SubmissionStores | internal/api/handlers.go:165-222 | in any sound state an undisturbed submission appends its record and all its points, each measuring its input under the device's tolerance, stamps that device with the measurement time, changes nothing else, and answers with both |
| StoreScenarios.OnlyTheOwnerReads | internal/store/postgres.go:223-242 | a stored record is answered whole, ordered by id, iff the reader is its tenant, and is not found otherwise |
| StoreScenarios.OnlyTheOwnerFinds | internal/store/postgres.go:118-131 | a device is answered iff the reader is its tenant, and is not found otherwise |
| StoreScenarios.StrangersAreRefused | internal/api/handlers.go:113-173 | a request for a device its tenant does not have writes nothing and ends after one statement, whatever it asks and whatever its fault: with not found, or with a server error for an update |
| StoreScenarios.SubmissionIsChecked | internal/api/handlers.go:165-179 | a submission on an own device is refused as a bad request iff it has no operator name or no readings |
| StoreScenarios.ListAnswersItsPage | internal/store/postgres.go:245-299 | an undisturbed list request, of however many statements, answers its page with every record whole, and the total |
| StoreScenarios.TrendAnswersTheNewest | internal/store/postgres.go:338-352 | an undisturbed trend answers the device's newest records up to the clamped limit, each whole |
| StoreScenarios.DeviceListAnswersItsPage | internal/store/postgres.go:88-115 | an undisturbed device list answers its page of the tenant's devices, the one created last first, and the total |
| StoreScenarios.DevicePageDropsTheOldest | internal/store/postgres.go:88-115 | a device left off the first page is no newer than any on it, and the page is full |
| StoreScenarios.TrendDropsTheOldest | internal/store/postgres.go:338-352 | a record of the device that a trend leaves out is no newer than any it shows, and the trend is full |
| StoreScenarios.DeviceClientSeesAll | internal/api/handlers.go:96-110 | the responses to a client that asks for page after page, under any limit, hold each of the tenant's devices exactly once, the one created last first |
| StoreScenarios.RecordClientSeesAll | internal/api/handlers.go:225-256 | the same for the records of the tenant or of one device, each with all its points |
| StoreScenarios.DeviceTotalIsNotAhead | internal/store/postgres.go:88-115 | with any steps of other requests between the count and the page, the reported total is at most the number of the tenant's devices when the page is read |
| StoreScenarios.RecordTotalIsNotAhead | internal/store/postgres.go:245-299 | the same for the record lists |
| StoreScenarios.SummaryAnswersCounts | internal/store/postgres.go:302-335 | an undisturbed summary answers the tenant's own devices, records, pass rate and failures of the last seven days |
| StoreScenarios.SummaryCountsThese | internal/store/postgres.go:310-335 | the counted records are the tenant's passing ones, and its failing ones created in the last 7 * 24 * 60 * 60 seconds |
| Service.PostgresStore.Query | internal/store/postgres.go:119-123 | one statement takes exactly one step of its request, the last of the run, and its answer is that of the tables as the others left them, as far as the fault lets it through |
| Service.PostgresStore.CreateRecord | internal/store/postgres.go:185-220 | one step of the request, which stores the record and all its measurements or nothing; an error at any insert stores nothing; without an error all is stored |
| Service.PostgresStore.ReadMeasurements | internal/store/postgres.go:386-409 | returns the rows it was given, an early end included |
| Service.PostgresStore.ScanAndLoadRecords | internal/store/postgres.go:411-426 | every record of the page with its measurements, in order, or an error |
| Service.PostgresStore.CreateDevice | internal/api/handlers.go:124-142 | answers what the request's run answers, and bad request iff name, serial number or location is empty or the type is none of the four |
| Service.PostgresStore.FetchDevice | internal/api/handlers.go:113-121 | answers what the request's run answers; every error is not found |
| Service.PostgresStore.UpdateDevice | internal/store/postgres.go:134-171 | overwriting field by field is the partial update of the row read; every error, not found included, is a server error |
| Service.PostgresStore.CreateCalibration | internal/api/handlers.go:165-222 | answers what the request's run answers, with the evaluation loop and the transaction loop in place |
| Service.PostgresStore.StoreAndStamp | internal/api/handlers.go:209-221 | a server error leaves the transaction, all or nothing, as the request's last step, so no stamp; otherwise the stamp is its last step, and a failed stamp does not change the answer |
| Service.PostgresStore.GetCalibration | internal/api/handlers.go:259-267 | answers what the request's run answers; every error is not found |
| Service.PostgresStore.ListDevices | internal/api/handlers.go:96-110 | answers what the request's run answers, with the clamped limit and offset |
| Service.PostgresStore.ListCalibrations | internal/api/handlers.go:225-256 | the same for both record lists |
| Service.PostgresStore.GetDeviceTrend | internal/api/handlers.go:284-298 | the same for the trend, with its own default and maximum |
| Service.PostgresStore.GetAnalyticsSummary | internal/store/postgres.go:302-335 | the same for the three statements of the summary |
| Paging.GetAll | api/src/db/repository.py:29-55 | total is the number, and items a page, of exactly the rows that satisfy every filter that has a value, each in the table as its own statement finds it |
| Paging.ListMeasurements | api/src/routes/ingestion.py:37-59 | the page of the rows filtered by device and status, with the counted total and the number, size and has_more that follow from it |
| Paging.PagesTile | api/src/routes/ingestion.py:47-59 | on an unchanging table following has_more ends; the pages are numbered from 1, carry the requested size and the total, all but the last are full, and together they are the filtered rows in order |
| Paging.PageNumberMeans | api/src/routes/ingestion.py:53-59 | the page number is that of the page on which row skip lies, also when skip is no multiple of the limit |
| Paging.ParsePagination | internal/api/handlers.go:303-316 | the limit is the requested one between 1 and the maximum, the maximum above it and the default below 1 or when it is missing or does not parse; the offset is not negative and 0 when missing |
| Paging.ListTiles | internal/store/postgres.go:274-299 | a list paged in sorted order is collected sorted, each row once |
| Jwks.StalenessIsBounded | api/src/core/auth.py:34-44 | for every interleaving a cache hit returns keys fetched before the call read the clock and less than 86400 seconds before; a miss returns keys fetched after it |
| Jwks.WhatALateWritePutsBack | api/src/core/auth.py:39-44 | in every run, a finishing call puts keys back that were answered before the cached ones iff the call that finished last before it was answered after it, and moves the stamp back iff that call read the clock after it |
| Jwks.NeverBackExactly | api/src/core/auth.py:39-44 | over a whole run no write puts older keys back iff the calls finish in the order of their answers |
| Jwks.EarlierIsOlder | api/src/core/auth.py:39-43 | keys answered earlier were fetched no later |
| Jwks.CacheCanGoBackward | api/src/core/auth.py:39-44 | a concrete run in which a late write puts older keys back under an older stamp |
| Jwks.KeysCanGoBackUnderANewerStamp | api/src/core/auth.py:39-44 | a concrete run in which it puts older keys back under a newer stamp |
| Jwks.KeyCache.GetJwks | api/src/core/auth.py:34-44 | a cache whose stamp is less than 86400 seconds old is returned unchanged; otherwise the fetched keys are stored under the time read before the request and returned, unless one of the two awaits raises, and only then there are no keys and nothing is stored |
| Jwks.KeyCache.Fetch | api/src/core/auth.py:39-44 | the request and the closing of its client: keys are stored and returned iff neither await raises, and they are those of the response |

## Left out

- The Redis transport: `brpop` removes a message before it is processed (worker/src/main.py:66-78), so conservation is claimed for the Service Bus loop only.
- Service.PostgresStore.ListDevices: a count and a page can come from different states; then the total is only bounded by the rows of the page's state.
- Paging.PagesTile: for a table that changes between the requests, or between a count and its page, no tiling is claimed; rows can move across pages.
- Worker.Cloud.ServeBatch: the receive loop around it and the shutdown signal only decide how often it runs.
- Pipeline rows carry no temperature, humidity or operator name; no step reads them.
- A message that expires after seven days is dead-lettered by a step of its own; the clock of the broker is not modelled.
- Non-finite inputs and IEEE-754 rounding: reals have neither, so the detector's finiteness check never fires.
- The handler's two readings of the clock for one calibration are one reading, taken with the device row.
- Malformed JSON and scan errors of single rows; the first never reaches the store, the second is like any other failed statement.
- JWT verification, role checks and development headers; reports and certificates; devices endpoints of the Python API; health probes, middleware, logging, migrations and seed data, web page and all other infrastructure.
- Uuid collisions.
