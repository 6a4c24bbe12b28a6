# Plan: info-request page and task processing, modelled in Dafny

This project models two pieces of the Plan analytics plugin.

The first is the `/info/<requestname>` page, which answers info requests sent by other servers in the network. It validates a call in a fixed order: an empty target, then a method other than POST, then an unregistered request name. It then hands the request to the registered info request. A thrown `WebException` is classified into a status code and re-thrown. Exactly one connection-log record (origin, target, code) is written on every way out.

The second is the processing subsystem. It has two executors: a non-critical pool, whose queued work may be dropped at shutdown, and a critical pool. At `disable` the critical pool's queued tasks are taken back and run one by one on the disabling thread.

Files:
- `wrappers.dfy`: `Option` (the stand-in for Java's `null`) and `Outcome`.
- `info_connection.dfy` (module `InfoConnection`): the failure kinds and the status-code classifier with a reference table. Also the pure specification `Respond` of one page call, the `ConnectionLog` class, and the `InfoRequestPageHandler` class, whose `GetResponse` follows the source's try/catch/finally. A call ends in a `PageOutcome`; `Request.targetPath` is the full target string, and the `target` parameter is the list of segments after `/info`.
- `processing.dfy` (module `TaskProcessing`): the `Processing` class with both pools as `(shutdown, pending)` values. It has the six submission forms, the two completion handlers, `RunNext` (one worker runs one queued task), `Enable` and `Disable`.

The model follows the code where a reader might expect otherwise:
- Both an empty target and a non-POST method *return* a response; they do not throw. So the connection log records 200 for them, not 404 or 400.
- A non-`WebException` failure (`Escaped`) is not caught. It propagates, and the log records 200 for it.
- Only the non-critical submissions have a shutdown guard.
- `shutdownNow` hands back only the tasks still queued. Tasks that a worker already started are not drained again; in this model they have already finished (see `Disable` under "## Left out").

## Model

| member | source | states |
|---|---|---|
| InfoConnection.ResponseCodeFor | Plan/src/main/java/com/djrapitops/plan/system/info/connection/InfoRequestPageHandler.java:56-72 | the code is -1 exactly for ConnectionFail and 0 exactly for unrecognised kinds; every positive code is in 400..500; no failure is ever classified as 200 |
| InfoConnection.Lookup | Plan/src/main/java/com/djrapitops/plan/system/info/connection/InfoRequestPageHandler.java:56-72 | first-match lookup in a kind/code table: a listed kind gets the code of its first row; a kind the table does not list gets 0; a non-zero code is the code of a listed row for that kind |
| InfoConnection.ClassifierIsTableLookup | Plan/src/main/java/com/djrapitops/plan/system/info/connection/InfoRequestPageHandler.java:56-72 | the classifier equals first-match lookup in the table BadRequest 400, Forbidden 403, NotFound 404, UnauthorizedServer 412, InternalError 500, ConnectionFail -1, with anything else 0 |
| InfoConnection.CodesAreDistinct | Plan/src/main/java/com/djrapitops/plan/system/info/connection/InfoRequestPageHandler.java:67-70 | the two sentinels -1 and 0 differ, and no two kinds share a code |
| InfoConnection.Respond | Plan/src/main/java/com/djrapitops/plan/system/info/connection/InfoRequestPageHandler.java:33-50 | an outcome other than a returned response happens only for a non-empty POST; a thrown error is the registered handler's own, unchanged, or else NotFound "Info Request has not been registered."; another failure escapes only from a registered handler that fails unexpectedly |
| InfoConnection.LoggedCode | Plan/src/main/java/com/djrapitops/plan/system/info/connection/InfoRequestPageHandler.java:31-50 | the logged code is 200 exactly when no `WebException` was thrown; for a thrown one it is that exception's classified code |
| InfoConnection.EmptyTargetIsNotFound | Plan/src/main/java/com/djrapitops/plan/system/info/connection/InfoRequestPageHandler.java:34-36 | an empty target returns the not-found page whatever the method and registry, logged as 200 |
| InfoConnection.NonPostIsBadRequest | Plan/src/main/java/com/djrapitops/plan/system/info/connection/InfoRequestPageHandler.java:38-40 | a non-empty target with a method other than POST returns a bad-request response with message "POST should be used for Info calls.", logged as 200 |
| InfoConnection.EarlyAnswersIgnoreRegistry | Plan/src/main/java/com/djrapitops/plan/system/info/connection/InfoRequestPageHandler.java:34-43 | on the two early paths the outcome is a returned response and does not depend on the registry: no lookup happens before both checks pass |
| InfoConnection.UnregisteredIsNotFound | Plan/src/main/java/com/djrapitops/plan/system/info/connection/InfoRequestPageHandler.java:42-50 | a POST whose first segment is not registered throws NotFound "Info Request has not been registered.", logged as 404 |
| InfoConnection.HandlerResultPassesThrough | Plan/src/main/java/com/djrapitops/plan/system/info/connection/InfoRequestPageHandler.java:47-50 | a registered handler's response is returned as it is (logged 200); its `WebException` is re-thrown unchanged (logged with the classified code); any other failure propagates (logged 200) |
| InfoConnection.OnlyFirstSegmentIsLookedUp | Plan/src/main/java/com/djrapitops/plan/system/info/connection/InfoRequestPageHandler.java:42-47 | the outcome depends on the registry only through the entry for the first target segment |
| InfoConnection.ConnectionLog.LogConnectionFrom | Plan/src/main/java/com/djrapitops/plan/system/info/connection/InfoRequestPageHandler.java:52 | appends exactly one record (origin, target, code) and changes nothing already logged |
| InfoConnection.InfoRequestPageHandler.GetResponse | Plan/src/main/java/com/djrapitops/plan/system/info/connection/InfoRequestPageHandler.java:29-54 | the outcome is the one `Respond` specifies; on every way out, exactly one record with the request's remote address, full target and `LoggedCode` of the outcome is appended, and nothing else in the log changes |
| TaskProcessing.ExceptionHandlerNonCritical | Plan/src/main/java/com/djrapitops/plan/system/processing/Processing.java:86-91 | the result passes through unchanged; an entry is logged if and only if there was a failure, and it is a WARN entry for that task |
| TaskProcessing.ExceptionHandlerCritical | Plan/src/main/java/com/djrapitops/plan/system/processing/Processing.java:93-98 | the result passes through unchanged; an entry is logged if and only if there was a failure, and it is an ERROR entry for that task |
| TaskProcessing.Failure | Plan/src/main/java/com/djrapitops/plan/system/processing/Processing.java:53-56 | what a run hands to the completion handler: a failure exactly when the task throws, carrying that task's id |
| TaskProcessing.Ids | Plan/src/main/java/com/djrapitops/plan/system/processing/Processing.java:126-131 | the trace of running a list of tasks in order: position i holds the id of task i |
| TaskProcessing.DrainWarnings | Plan/src/main/java/com/djrapitops/plan/system/processing/Processing.java:126-131 | the log of the drain: only WARN task-failure entries, never more than the tasks drained, every failing task's entry present, and empty exactly when no task fails |
| TaskProcessing.DrainWarningsSound | Plan/src/main/java/com/djrapitops/plan/system/processing/Processing.java:126-131 | every warning of the drain belongs to a drained task whose run fails |
| TaskProcessing.DrainWarningsCount | Plan/src/main/java/com/djrapitops/plan/system/processing/Processing.java:126-131 | the drain logs exactly as many warnings as there are failing tasks: one per failing task |
| TaskProcessing.DrainWarningsAppend | Plan/src/main/java/com/djrapitops/plan/system/processing/Processing.java:126-131 | draining a list and then another logs the first list's warnings before the second's: warnings come in task order |
| TaskProcessing.Processing.constructor | Plan/src/main/java/com/djrapitops/plan/system/processing/Processing.java:28-39 | both executors start open and empty, with nothing run or logged |
| TaskProcessing.Processing.Submit | Plan/src/main/java/com/djrapitops/plan/system/processing/Processing.java:41-47 | a critical task is queued on the critical executor and recorded as accepted, any other goes through the non-critical submission; nothing runs or is logged |
| TaskProcessing.Processing.SubmitNonCritical | Plan/src/main/java/com/djrapitops/plan/system/processing/Processing.java:49-57 | once the non-critical executor is shut down nothing changes; otherwise the task is appended to its queue and nothing else changes |
| TaskProcessing.Processing.SubmitCritical | Plan/src/main/java/com/djrapitops/plan/system/processing/Processing.java:59-64 | the task is appended to the critical queue and recorded as accepted; nothing else changes |
| TaskProcessing.Processing.SubmitCallable | Plan/src/main/java/com/djrapitops/plan/system/processing/Processing.java:66-71 | routes like `Submit`, recording a critical task as accepted; the future is absent (null) exactly when a non-critical task meets a shut-down executor |
| TaskProcessing.Processing.SubmitNonCriticalCallable | Plan/src/main/java/com/djrapitops/plan/system/processing/Processing.java:73-84 | returns null and changes nothing once the non-critical executor is shut down; otherwise queues the task and returns its future |
| TaskProcessing.Processing.SubmitCriticalCallable | Plan/src/main/java/com/djrapitops/plan/system/processing/Processing.java:100-108 | queues the task on the critical executor, records it as accepted and returns its future |
| TaskProcessing.Processing.RunNext | Plan/src/main/java/com/djrapitops/plan/system/processing/Processing.java:53-98 | (the worker paths at lines 53-63 and the two completion handlers at 86-98) a worker runs the oldest queued task of its executor once; a failure is logged at WARN (non-critical) or ERROR (critical), through that executor's handler; with an empty queue nothing changes |
| TaskProcessing.Processing.Enable | Plan/src/main/java/com/djrapitops/plan/system/processing/Processing.java:111-118 | succeeds exactly when neither executor is shut down; the non-critical check comes first; reads state and changes nothing |
| TaskProcessing.Processing.Disable | Plan/src/main/java/com/djrapitops/plan/system/processing/Processing.java:121-143 | both executors end shut down; the critical queue is emptied and each drained task runs exactly once, in queue order; the reported count is the number drained; failures are logged at WARN without stopping the drain; every task the critical executor ever accepted has then been run, by a worker or by the drain, with its id in the execution trace; a second call runs nothing; `Enable` fails afterwards |

## Left out

- Threads, `CompletableFuture` scheduling and the pool sizes (6 and 2 workers) are not modelled. A worker running one queued task is the method `RunNext`, which the environment may call at any time, in any interleaving, or never. Tasks start in queue order.
- The bounded wait `awaitTermination(1, SECONDS)` and the interrupt path after it are left out because they are timing. Queued non-critical tasks stay queued after `Disable`, and `RunNext` may still run them or not. The final `shutdownNow` of the critical executor finds its queue already empty in this model.
- TaskProcessing.Processing.SubmitCritical: requires the critical executor not to be shut down. The source has no guard, and what the executor does with a submission after shutdown is library behaviour that the model does not invent. The same precondition is on `SubmitCriticalCallable`, and on `Submit` and `SubmitCallable` for critical tasks.
- TaskProcessing.Processing.Disable: a failing drained task is logged at WARN, as the loop in `disable` is written. In the JDK each queued entry is the `CompletableFuture` wrapper, which catches the task's failure itself and passes it to the critical completion handler. The model does not model that wrapper. The loop catches only `Exception`, `NoClassDefFoundError`, `NoSuchMethodError` and `NoSuchFieldError`: a task's `fails` stands only for failures that this catch covers. A task that throws any other `Error` would leave `disable` at once, so the remaining drained tasks would not run and the completion message would not be logged; that case is not modelled. In the JDK the wrapper catches every failure, so the case cannot arise there. A task that a critical worker has started counts as finished within the same `RunNext` step. In the source, `shutdownNow` (at the start of `disable` and again at its end) only interrupts such a task, and `disable` never waits for the critical executor: its only wait is on the non-critical one. So in the source a critical task that started just before `disable` may still be running, or be cut short by the interrupt, after `disable` returns. `Disable`'s guarantee that every accepted critical task has its id in `ran` rests on that atomic step.
- The values futures complete with are not modelled. A future is identified by its task. The pass-through of the result is stated on the two completion handlers.
- The cause unwrapping (`throwable.getCause()`, `IllegalStateException` wrapping of a callable's exception), locale lookups and logger message text are left out as cosmetic. Log entries keep only the level and the task id, or the drained count.
- `ConnectionLog` itself, including its timestamps and storage, is not part of this model. Only the append that the page performs is modelled. The clock is left out.
- `ConnectionSystem.getInstance()`, `ConnectionIn.handleRequest()`, `DefaultResponses`, `Verify` and the response classes are collaborators whose source is not part of this model. The registry is an explicit map from name to handler. The map stands for `getInfoRequest` as a whole: any case normalisation it applies to the requested name is part of the map. A handler is an abstract function from the request to `Ok(response)`, `Fail(WebException)` or `Unexpected`.
- `ResponseCodeFor` works over a closed set of failure kinds. The source's `instanceof` chain over exception subclasses becomes a match, and every subclass outside the chain is `Unclassified`.
