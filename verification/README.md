# Reactor: a verified model of its coordination logic

Reactor coordinates serving engines it cannot see: the engine, the package-runtime SDK, the activity
broker or the Product process itself may fail at any point. The Dafny modules here model the parts that
must stay correct all the same, and prove what holds over every interleaving and every failure.

- **Deployment lifecycle** (`Domain`, `ProductStore`, `Lifecycle*`, `Service`). Commands run under
  one lock; `get_deployment` reads without it and commits by compare-and-set. Every store transaction,
  engine call and broker call is a step, the engine may answer anything, and a crash may fall between any
  two steps. The service class performs the source's writes, and every write is booked as a step of the
  machine, so what is proved about all runs holds of it.
- **Package-runtime owner** (`RuntimeOperations`, `RuntimeOwner*`, `ConnectionRef`,
  `Admission`). Durable intent, dispatch, receipt and completion, with lost replies, callbacks that fail,
  unlocked `reconcile` and `status`, and crashes; and the admission of an engine from six separate reads.
- **Model imports** (`ImportStore`, `Imports`, `ImportTheorems`, `ScopeKeys`). The import ledger, the two
  kinds of view, and the broker, with any number of calls under way.
- **Diagnostics** (`Diagnostics*`). The append-only table, the harvest behind a remote cursor, the check of
  every listed record, the page cut to a byte budget, and consoles whose requests overlap and fail.
- **Serving worker** (`Streaming*`, `Scheduler*`, `Residency*`, `Serving`). The
  two-queue stream, the bounded priority queue with its drain, and the loading of engines under a lock per
  model, with a shutdown beside it.
- **Small algorithms** (`Filenames` over `PyStrings`, `Safetensors` over `Decimals`, `Percentile`).

The reading order inside a component is: the state and its steps, the invariant and why each step keeps
it, then the theorems over runs. Where the code does less than its documentation says, the code is
modelled, and the exact condition is proved or a run or input that shows the difference is given:
`RepeatsExactly`, `OverlapFromStart`, `RepeatedGenerationUnseen`, `FailureRaisesExactly`,
`RoundTripExactlyWhenPlain`, `LateSubmitDangles`, `DrainCanBlock`, `ShutdownExactly`, `HandlesConserved`,
`FailureRepeatsExactly`, `OverlapRepeatsExactly`, `CaughtUpStaysExactly`, `StuckExactly`, `LongFailureBlocks`,
`LongCodeBlocks` and `SafeExactlyUnlessNulsJoinDots`.

Check everything with `dafny verify dfyconfig.toml` (Dafny 4.11).

## Model

| member | source | states |
|---|---|---|
| LifecycleTheorems.StatesAgree | product/src/cyrene_reactor_product/service.py:536-971 | in every reachable state, crashes and readers included: READY has a READY endpoint, DEGRADED an UNHEALTHY one, STOPPED none or a RETIRED one, and desired STOPPED holds exactly in STOPPING and STOPPED |
| LifecycleTheorems.VersionsGrow | product/src/cyrene_reactor_product/service.py:536-971 | over any run versions never fall and an endpoint id once set stays; outside STARTING an unmoved version means the very same deployment and endpoint rows |
| LifecycleSteps.StepMoves | product/src/cyrene_reactor_product/service.py:542-971 | each step bumps a deployment's version by exactly one whenever its observed state changes, and an endpoint's by exactly one whenever the endpoint is written; the unversioned write of the endpoint id happens only in STARTING |
| LifecycleSteps.ReaderKept | product/src/cyrene_reactor_product/service.py:733-795 | what a reader saw stays comparable: its version is current only if neither row it read has been written since |
| LifecycleTheorems.NoStaleObservation | product/src/cyrene_reactor_product/service.py:733-795 | a reader's commit writes exactly when the version it read is current and the observation differs, and then over precisely the two rows it saw |
| LifecycleSteps.StepKeeps | product/src/cyrene_reactor_product/service.py:482-971 | every step of every command, reader and crash keeps the whole invariant |
| LifecycleTheorems.RunKeeps | product/src/cyrene_reactor_product/service.py:482-971 | so does every run |
| LifecycleTheorems.BrokerAgrees | product/src/cyrene_reactor_product/service.py:515-534 | admit is only called on a closed entry, transition and complete on an open one; between commands the broker equals the store's active entries, so recovery changes nothing |
| LifecycleStarts.RepeatsExactly | product/src/cyrene_reactor_product/service.py:482-971 | in every reachable state and for every deployment, stored or not: some run starts it twice without a successful engine stop between exactly if it has no durable reference, was so started already, or that start is the command's next step |
| LifecycleStarts.ReferencedStartsOnce | product/src/cyrene_reactor_product/service.py:542-581 | a deployment with a durable reference that was never started without one is never started twice so, whatever engines answer for it or others |
| LifecycleStarts.BlindStartRepeatsExactly | product/src/cyrene_reactor_product/service.py:560-581 | at a start of a deployment never started without a reference, the start can be repeated exactly if it finds no durable reference |
| LifecycleStarts.StartsOnceWhenPrepared | product/src/cyrene_reactor_product/service.py:542-581 | if every prepare returns a handle, each engine start finds its reference and endpoint durable, and no deployment is started twice without a successful stop between |
| LifecycleStarts.BlindStartRepeats | product/src/cyrene_reactor_product/service.py:542-581 | from any start without a durable reference there is a run that starts the deployment twice |
| LifecycleTheorems.EventsNumbered | product/src/cyrene_reactor_product/store.py:693-732 | a deployment's events are numbered 1..n without gaps, whatever crashed |
| LifecycleTheorems.EventsTellState | product/src/cyrene_reactor_product/service.py:527-731 | in crash-free runs the phases follow the automaton and, between commands, the last phase tells the observed state |
| LifecycleTheorems.EventsOnlyAppended | product/src/cyrene_reactor_product/store.py:693-732 | no run rewrites or drops an event |
| LifecycleTheorems.LedgerStays | product/src/cyrene_reactor_product/store.py:632-679 | replay rows are never changed or removed |
| LifecycleTheorems.ReplayIsStable | product/src/cyrene_reactor_product/store.py:659-679 | a recorded key always resolves to the same deployment for the same body, is a conflict for any other, and neither changes anything |
| ProductStore.MaxOfDense | product/src/cyrene_reactor_product/store.py:693-732 | on a log numbered without gaps MAX(sequence) is its length |
| ProductStore.ReactorStore.Resolve | product/src/cyrene_reactor_product/store.py:659-679 | resolves a key as the ledger says |
| ProductStore.ReactorStore.PersistIntent | product/src/cyrene_reactor_product/store.py:632-648 | commits the draft and its replay key together |
| ProductStore.ReactorStore.WriteDeployment | product/src/cyrene_reactor_product/store.py:562-570 | replaces one deployment row and nothing else |
| ProductStore.ReactorStore.WritePair | product/src/cyrene_reactor_product/store.py:572-600 | writes deployment, endpoint and evidence in one transaction, with the unique owner of an endpoint |
| ProductStore.ReactorStore.RecordEvent | product/src/cyrene_reactor_product/store.py:693-732 | appends one event under the next number |
| Service.ReactorService.CreateDeployment | product/src/cyrene_reactor_product/service.py:482-534 | conflict and replay change nothing; otherwise the deployment exists in the state the launch ended in; the object stays a reachable state of the machine |
| Service.ReactorService.Launch | product/src/cyrene_reactor_product/service.py:536-731 | ends READY, FAILED or still STARTING exactly as the engine's answers decide, with the lock released |
| Service.ReactorService.PrepareExecution | product/src/cyrene_reactor_product/service.py:542-559 | after a handle the endpoint id and the reference are durable before the start |
| Service.ReactorService.StartExecution | product/src/cyrene_reactor_product/service.py:560-611 | the start, the identity check and the clean-up, for every combination of answers |
| Service.ReactorService.PersistFailed | product/src/cyrene_reactor_product/service.py:620-668 | a failed launch takes the machine's step: FAILED alone, or with the endpoint and the references the failure carried |
| Service.ReactorService.RecordFailure | product/src/cyrene_reactor_product/service.py:620-685 | afterwards the row is FAILED, carried references are on record, and the lock is released |
| Service.ReactorService.PersistReadyPair | product/src/cyrene_reactor_product/service.py:686-719 | a started deployment is stored READY with a serving endpoint at the handle's URL, one version later |
| Service.ReactorService.StopDeployment | product/src/cyrene_reactor_product/service.py:804-920 | a stopped deployment is returned unchanged; otherwise, exactly: a refused admission changes nothing, an execution whose engine does not confirm leaves the STOPPING row, anything else the STOPPED row two versions later |
| Service.ReactorService.StopRunning | product/src/cyrene_reactor_product/service.py:810-920 | the same three endings under the lock, which a restart keeps |
| Service.ReactorService.RestartDeployment | product/src/cyrene_reactor_product/service.py:922-971 | a wrong version is rejected unchanged; a refused stop changes nothing and a failed one leaves the STOPPING row; a deployment that is or gets stopped stays STOPPED if the relaunch is refused, and else ends as the launch on the new node decides |
| Service.ReactorService.Restarted | product/src/cyrene_reactor_product/service.py:937-971 | the relaunch under the same lock, refused or run to its end |
| Service.ReactorService.ReadRow | product/src/cyrene_reactor_product/service.py:733-740 | the first of the unlocked reads |
| Service.ReactorService.ReadEndpoint | product/src/cyrene_reactor_product/service.py:741-741 | the endpoint read later still exists |
| Service.ReactorService.ReadEvidence | product/src/cyrene_reactor_product/service.py:742-744 | the execution reference read later still exists |
| Service.ReactorService.CommitObservation | product/src/cyrene_reactor_product/service.py:764-795 | the commit is the machine's compare-and-set, and the caller gets the row on record whenever its version was current |
| RuntimeOwnerTheorems.StepKeeps | product/src/cyrene_reactor_product/package_runtime_owner.py:117-299 | every interleaved step of activate, reconcile, status, SDK and crash keeps the invariant and only moves records forward |
| RuntimeOwnerTheorems.RunKeeps | product/src/cyrene_reactor_product/package_runtime_owner.py:117-299 | so does every run |
| RuntimeOwnerTheorems.DispatchedAtMostOnce | product/src/cyrene_reactor_product/package_runtime_owner.py:123-199 | no request id is dispatched twice, and each dispatch's exact scope is on record |
| RuntimeOwnerTheorems.IntentBeforeDispatch | product/src/cyrene_reactor_product/package_runtime_owner.py:144-168 | at a dispatch the intent is durable, was never sent, and is the binding's only unfinished operation |
| RuntimeOwnerTheorems.RecordsOnlyMoveForward | product/src/cyrene_reactor_product/store.py:174-279 | scopes never change, phases never go back, completed records never change |
| RuntimeOwnerTheorems.StoredEvidence | product/src/cyrene_reactor_product/package_runtime_owner.py:270-282 | receipts exist exactly in the last two phases; each stored status is RUNNING for its own binding and installation, with the canonical reference of a port in 1..65535 |
| RuntimeOwnerTheorems.UnknownIsFinal | product/src/cyrene_reactor_product/store.py:223-279 | once UNKNOWN with no activation working on it, no later run changes the record or dispatches on its binding |
| RuntimeOwnerTheorems.RefChangesOnlyByOverlap | product/src/cyrene_reactor_product/package_runtime_owner.py:201-253 | a recorded reference changes only when a reconcile that began without it commits after another |
| RuntimeOwnerTheorems.RefStableWithoutOverlap | product/src/cyrene_reactor_product/package_runtime_owner.py:201-253 | if reconciles do not overlap it never changes |
| RuntimeOwnerTheorems.OverlapChangesRef | product/src/cyrene_reactor_product/package_runtime_owner.py:201-253 | in any state of the invariant two overlapping reconciles of an operation without a status can change it |
| RuntimeOwnerTheorems.OverlapFromStart | product/src/cyrene_reactor_product/package_runtime_owner.py:117-253 | for every binding, request and installation there is such a run from the start: an activation whose client raises with its pending receipt, and two reconciles that overlap |
| RuntimeOperations.IntentKeeps | product/src/cyrene_reactor_product/store.py:174-221 | an intent keeps at most one unfinished operation per binding |
| RuntimeOperations.UnknownKeeps | product/src/cyrene_reactor_product/store.py:223-229 | marking UNKNOWN keeps the table sound and moves it forward |
| RuntimeOperations.ReceiptKeeps | product/src/cyrene_reactor_product/store.py:231-246 | a pending receipt keeps the table sound and moves it forward |
| RuntimeOperations.OutcomeKeeps | product/src/cyrene_reactor_product/store.py:248-269 | an outcome checked against the record keeps the table sound and moves it forward |
| RuntimeOperations.CompleteKeeps | product/src/cyrene_reactor_product/store.py:271-279 | completion keeps the table sound and moves it forward |
| RuntimeOwnerObject.PackageRuntimeOwner.BeginActivation | product/src/cyrene_reactor_product/package_runtime_owner.py:117-143 | the replies before the SDK is called; an intent found on record becomes UNKNOWN |
| RuntimeOwnerObject.PackageRuntimeOwner.IntentCallback | product/src/cyrene_reactor_product/package_runtime_owner.py:144-155 | the intent is stored exactly for the request and scope asked for |
| RuntimeOwnerObject.PackageRuntimeOwner.OutcomeCallback | product/src/cyrene_reactor_product/package_runtime_owner.py:157-165 | the outcome is stored exactly when the actual state passes |
| RuntimeOwnerObject.PackageRuntimeOwner.ClientReturned | product/src/cyrene_reactor_product/package_runtime_owner.py:167-176 | after a normal return the record is COMPLETED with a status |
| RuntimeOwnerObject.PackageRuntimeOwner.ClientFailed | product/src/cyrene_reactor_product/package_runtime_owner.py:179-198 | a record still INTENT takes the carried receipt if it is exactly its own, else becomes UNKNOWN; any other record is left alone |
| RuntimeOwnerObject.PackageRuntimeOwner.ReadStatus | product/src/cyrene_reactor_product/package_runtime_owner.py:255-268 | an unfinished operation looked at is no longer INTENT |
| RuntimeOwnerObject.PackageRuntimeOwner.BeginReconciling | product/src/cyrene_reactor_product/package_runtime_owner.py:201-209 | only records with a receipt and the configured scope are reconciled |
| RuntimeOwnerObject.PackageRuntimeOwner.ReconcileCallback | product/src/cyrene_reactor_product/package_runtime_owner.py:211-243 | the outcome is stored exactly when all checks pass, and nothing otherwise |
| RuntimeOwnerObject.PackageRuntimeOwner.ReconcileReturned | product/src/cyrene_reactor_product/package_runtime_owner.py:245-253 | after a normal return the record is COMPLETED |
| ConnectionRef.AcceptedExactly | product/src/cyrene_reactor_product/package_runtime_owner.py:422-450 | accepted references are exactly the canonical prints of the ports 1..65535 |
| ConnectionRef.ControlUrlInjective | product/src/cyrene_reactor_product/package_runtime_owner.py:422-450 | different references give different control URLs |
| Decimals.ReadPrint | product/src/cyrene_reactor_product/package_runtime_owner.py:422-450 | a printed number reads back as itself |
| Admission.AdmittedUnderOneGeneration | product/src/cyrene_reactor_product/package_runtime_owner.py:488-533 | if generations never repeat, an admitted engine's six reads all fell under one authority and one runtime generation, whatever the world did between them |
| Admission.AdmittedMeansConsistent | product/src/cyrene_reactor_product/package_runtime_owner.py:488-533 | then status, installation and metadata agree at one moment and the URL is theirs |
| Admission.StillWorldAdmitted | product/src/cyrene_reactor_product/package_runtime_owner.py:453-533 | in a world that stands still exactly the consistent engines are admitted |
| Admission.RepeatedGenerationUnseen | product/src/cyrene_reactor_product/package_runtime_owner.py:488-533 | a generation that comes back hides a change from the two reads |
| ImportStore.ModelImportStore.ResolveRequest | product/src/cyrene_reactor_product/store.py:369-393 | replay, conflict or fresh, per scope and key |
| ImportStore.ModelImportStore.CommitIntent | product/src/cyrene_reactor_product/store.py:395-449 | checks the grant and the ledger again and writes import, scope and key together or nothing |
| ImportStore.ModelImportStore.Save | product/src/cyrene_reactor_product/store.py:451-458 | replaces one import row and leaves scopes and ledger |
| ImportStore.ModelImportStore.Get | product/src/cyrene_reactor_product/store.py:469-495 | an import is found exactly through the view of its scope |
| ImportTheorems.StepKeeps | product/src/cyrene_reactor_product/service.py:283-425 | every step of any number of interleaved import calls, and a crash, keeps the invariant |
| ImportTheorems.VisibleInOneViewForever | product/src/cyrene_reactor_product/store.py:469-515 | an import is visible in exactly one view, the same one over every later run |
| ImportTheorems.OneImportPerKey | product/src/cyrene_reactor_product/service.py:283-425 | equal scope and key return the same import for equal bodies only, and the engine imports at most once for them |
| ImportTheorems.KnownKey | product/src/cyrene_reactor_product/service.py:320-372 | a known key with another body writes nothing and is refused, also in a race; with the same body it is answered with the ledger's import, at the check or, after a race, by the withdrawal of its own admission |
| ImportTheorems.BrokerAgrees | product/src/cyrene_reactor_product/store.py:517-530 | with no call under way the broker's entries are exactly the VALIDATING imports, all RUNNING, engine failures and crashes included |
| ScopeKeys.CanonicalInjective | product/src/cyrene_reactor_product/service.py:64-73 | the canonical JSON of two names determines both |
| ScopeKeys.ScopeKeysSeparate | product/src/cyrene_reactor_product/service.py:64-73 | with a digest without collisions two scopes share replay keys exactly if they are equal; no workspace shares the legacy scope |
| Diagnostics.DiagnosticsStore.Append | product/src/cyrene_reactor_product/store.py:734-773 | the documents are appended under the next numbers and no row that was there is replaced |
| Diagnostics.DiagnosticsStore.Highest | product/src/cyrene_reactor_product/store.py:753-758 | MAX(sequence) is the number of rows |
| Diagnostics.DiagnosticsStore.List | product/src/cyrene_reactor_product/store.py:787-799 | the records after the cursor, in order, at most 1..500 of them |
| Diagnostics.DiagnosticsStore.MentionsDegraded | product/src/cyrene_reactor_product/store.py:801-811 | found exactly if some record mentions the code |
| DiagnosticsPaging.Bound | product/src/cyrene_reactor_product/service.py:1114-1128 | the page is the longest prefix that fits the byte budget |
| DiagnosticsPaging.LongestIsOne | product/src/cyrene_reactor_product/service.py:1114-1128 | there is only one such prefix |
| DiagnosticsPaging.EmptyExactly | product/src/cyrene_reactor_product/service.py:1114-1128 | it is empty exactly if the first record alone is too long |
| DiagnosticsPaging.DiagnosticsService.Harvest | product/src/cyrene_reactor_product/service.py:1035-1089 | what each kind of answer appends, the cursor it leaves, and the flag it returns |
| DiagnosticsPaging.Validate | product/src/cyrene_reactor_product/service.py:1023-1023 | true exactly if every listed record is within the limits of `DiagnosticRecord` |
| DiagnosticsPaging.DiagnosticsService.DeploymentDiagnostics | product/src/cyrene_reactor_product/service.py:1006-1033 | a negative cursor changes nothing; otherwise the harvest is stored, a listing with a record that is not accepted raises, and else the page is the longest fitting one of the records after the cursor and the next cursor counts what was given |
| DiagnosticsPolling.PageIsCut | product/src/cyrene_reactor_product/service.py:1114-1128 | the polling machine's page is the one the service method promises |
| DiagnosticsTheorems.StepKeeps | product/src/cyrene_reactor_product/service.py:979-1112 | every step of overlapping requests, writes and failures keeps the invariant |
| DiagnosticsOutcomes.PollingSeesThePrefix | product/src/cyrene_reactor_product/service.py:979-1112 | in every run a console has seen the beginning of the log without a gap, every Product record in it once and in order, and the log has every runtime record below the cursor |
| DiagnosticsOutcomes.RuntimeRecordsOnce | product/src/cyrene_reactor_product/service.py:1035-1089 | without overlapping harvests and without a failure before the cursor is stored, runtime records are seen once and in order too |
| DiagnosticsOutcomes.FailureRepeatsExactly | product/src/cyrene_reactor_product/service.py:1083-1088 | after a request that failed between its append and its cursor the next harvest repeats runtime records exactly if the failed one had kept any |
| DiagnosticsOutcomes.OverlapRepeatsExactly | product/src/cyrene_reactor_product/service.py:1035-1089 | two requests that read the same cursor repeat runtime records exactly if the first answer had any to keep |
| DiagnosticsCatchUp.ConsoleCatchesUp | product/src/cyrene_reactor_product/service.py:1006-1128 | from any reachable state, once nothing more is written, as many requests as there is left show a console every Product and every runtime record, if each record is accepted and fits the budget |
| DiagnosticsCatchUp.ConsoleSeesAllOnce | product/src/cyrene_reactor_product/service.py:1006-1128 | and exactly once each, in order, if harvests did not overlap, none failed before its cursor was stored, and none is under way |
| DiagnosticsCatchUp.OneByOneReachesFirstBad | product/src/cyrene_reactor_product/service.py:1006-1128 | with limit 1 it gets exactly the records before the first that is not accepted or too long |
| DiagnosticsCatchUp.CaughtUpStaysExactly | product/src/cyrene_reactor_product/service.py:1070-1084 | a console with everything stays unchanged exactly unless the runtime keeps reporting lost output |
| DiagnosticsCatchUp.StuckExactly | product/src/cyrene_reactor_product/service.py:1021-1033 | a listing gives nothing although there is more exactly if the next record alone exceeds the budget or some listed record is not accepted |
| DiagnosticsCatchUp.StuckForever | product/src/cyrene_reactor_product/service.py:1021-1033 | before a record that no page can hold no later run moves the console |
| DiagnosticsCatchUp.LongFailureBlocks | product/src/cyrene_reactor_product/service.py:676-681 | a failed start whose text passes 8192 characters is stored, fits the budget, and no console gets anything |
| DiagnosticsCatchUp.LongCodeBlocks | product/src/cyrene_reactor_product/domain.py:140-159 | the same for a runtime record whose code has 201 characters |
| Streaming.RoundTripExactlyWhenPlain | runtime/core/src/cy_exec/core/server.py:197-198 | a progress message survives its encoding exactly if it neither holds nor completes the marker nor ends in an underscore |
| Streaming.StepKeeps | runtime/core/src/cy_exec/core/server.py:201-285 | every step of worker function or generator keeps the queues, the output and the stage in agreement |
| Streaming.ProgramPut | runtime/core/src/cy_exec/core/server.py:201-233 | a whole run of the worker function puts the chunks and one sentinel on one queue, the messages and their sentinels on the other |
| StreamingTheorems.FinishedOutput | runtime/core/src/cy_exec/core/server.py:235-285 | in every interleaving a finished stream gave the header, a prefix of the message lines and the chunks up to the first that spells the sentinel; all messages and a return on success, an exception on failure if no chunk spells the sentinel |
| StreamingTheorems.SuccessIsVerbatim | runtime/core/src/cy_exec/core/server.py:235-285 | a successful stream is header, messages and chunks verbatim exactly if the messages are plain and no chunk is the sentinel |
| StreamingTheorems.FailureRaisesExactly | runtime/core/src/cy_exec/core/server.py:227-233 | a failing stream raises in every interleaving exactly if no chunk spells the sentinel |
| StreamingTheorems.GeneratorMoves | runtime/core/src/cy_exec/core/server.py:246-282 | once both ends are queued the generator is never blocked and every step brings it nearer its end |
| StreamingTheorems.EveryStreamCanEnd | runtime/core/src/cy_exec/core/server.py:201-285 | no reachable state is stuck, and after the worker function is done the generator ends alone in a bounded number of steps |
| Scheduler.StepKeeps | runtime/core/src/cy_exec/core/task_scheduler.py:73-125 | every step of submitters, workers, cancelling clients and the stop keeps the invariant: each accepted future is queued, held by one worker, or settled |
| SchedulerTheorems.EveryRun | runtime/core/src/cy_exec/core/task_scheduler.py:73-125 | the queue keeps its bound, nothing starts or settles twice or without acceptance, and at most one function per worker starts after the stop |
| SchedulerTheorems.NoOvertaking | runtime/core/src/cy_exec/core/task_scheduler.py:34-42 | of two waiting tasks the one first by priority and creation time is never left behind |
| SchedulerTheorems.DrainSettlesAll | runtime/core/src/cy_exec/core/task_scheduler.py:96-119 | with the stop set, no submit under way and a worker still at work that leaves through the drain, the queue ends empty and every accepted future is settled |
| SchedulerLateSubmit.LateSubmitDangles | runtime/core/src/cy_exec/core/task_scheduler.py:73-119 | in every reachable stopped state with a submit past its check: all workers can leave with a future in the queue exactly if submits on their way and tasks queued outnumber the workers waiting in the drain |
| SchedulerLateSubmit.LateSubmitReached | runtime/core/src/cy_exec/core/task_scheduler.py:73-94 | so they can for any number of workers: a submit checked, then the stop |
| SchedulerTheorems.DanglesForever | runtime/core/src/cy_exec/core/task_scheduler.py:73-94 | and its future is then never settled |
| SchedulerTheorems.DrainCanBlock | runtime/core/src/cy_exec/core/task_scheduler.py:114-119 | with two workers or more one can be left waiting on an empty queue in the drain |
| SchedulerTheorems.BlockedForever | runtime/core/src/cy_exec/core/task_scheduler.py:114-119 | and waits for ever |
| SchedulerTheorems.DrainAloneNeverBlocks | runtime/core/src/cy_exec/core/task_scheduler.py:114-119 | a single worker never does |
| SchedulerObject.TaskScheduler.Submit | runtime/core/src/cy_exec/core/task_scheduler.py:73-94 | refused after the stop, turned away by a full queue, otherwise queued pending under the next number; a run of the machine's steps |
| SchedulerObject.TaskScheduler.Drain | runtime/core/src/cy_exec/core/task_scheduler.py:114-119 | an undisturbed drain empties the queue and settles every future in it; a run of the machine's steps |
| Residency.StepKeeps | runtime/core/src/cy_exec/core/server.py:84-153 | every step of interleaved loads, unloads and shutdowns keeps the invariant |
| Residency.HandlesConserved | runtime/core/src/cy_exec/core/server.py:84-153 | each handle made is exactly one of under load in its model's lock, resident, given up after its unload was called, or lost, so the first three account for it exactly if it is not lost; a model never has two live handles |
| Residency.NothingLost | runtime/core/src/cy_exec/core/server.py:147-152 | a handle is lost only where the progress callback between load and registration raises |
| ResidencyShutdown.ShutdownLeavesOnlyRaised | runtime/core/src/cy_exec/core/server.py:364-381 | with no load in progress when the models are listed, after the shutdown only engines whose unload raised are resident |
| ResidencyLateLoad.LateLoadStays | runtime/core/src/cy_exec/core/server.py:84-153 | in every reachable state with a load past its check at the listing, some run ends the shutdown with a resident engine that nothing asked to unload |
| ResidencyLateLoad.ShutdownExactly | runtime/core/src/cy_exec/core/server.py:364-381 | so a shutdown is sure to leave only engines whose unload raised exactly if no load is past its check when it lists them |
| ResidencyLateLoad.LateLoadReached | runtime/core/src/cy_exec/core/server.py:84-104 | four steps lead to such a state |
| Serving.EnsuredByMoves | runtime/core/src/cy_exec/core/server.py:108-153 | the locked block of a load is the machine's moves taken one after another |
| Serving.UnloadedByMoves | runtime/core/src/cy_exec/core/server.py:287-294 | the same for an unload |
| Serving.InferenceServer.EnsureLocked | runtime/core/src/cy_exec/core/server.py:108-153 | second look, creation, load, clean-up of a failed load, registration |
| Serving.InferenceServer.UnloadLocked | runtime/core/src/cy_exec/core/server.py:287-294 | an engine whose unload raises stays registered |
| Safetensors.MakeLayout | product/scripts/make_lora_fixture.py:30-58 | bad dimensions are refused; otherwise table and data hold exactly the tensors of the loops at their offsets |
| Safetensors.Fill | product/scripts/make_lora_fixture.py:43-58 | the three nested loops hold that turn by turn |
| Safetensors.NamesDistinct | product/scripts/make_lora_fixture.py:40-48 | two tensors of different layer, module or matrix never share a name, and none is named like the metadata |
| Safetensors.RangesTile | product/scripts/make_lora_fixture.py:40-58 | 4·layers tensors beside the metadata entry, four bytes a value, 32·layers·(3·hidden + kv_heads·hidden/heads) bytes in all, every byte in exactly one range |
| Safetensors.Padding | product/scripts/make_lora_fixture.py:60-60 | pads a header to a multiple of eight by fewer than eight bytes |
| Safetensors.TensorsReadBack | product/scripts/make_lora_fixture.py:59-62 | a reader that follows the length and the offsets gets each tensor's values back |
| Filenames.SanitizeFilename | runtime/core/src/cy_exec/utils/path_utils.py:158-182 | a NUL-free name becomes safe, and a safe one stays as it is |
| Filenames.SanitizedIsSafe | runtime/core/src/cy_exec/utils/path_utils.py:158-182 | the passes, each of which might undo an earlier one, leave a name that is_safe_filename accepts |
| Filenames.SafeIsFixed | runtime/core/src/cy_exec/utils/path_utils.py:130-182 | safe names are fixed points |
| Filenames.SanitizingTwice | runtime/core/src/cy_exec/utils/path_utils.py:158-182 | sanitising again changes nothing |
| Filenames.SafeExactlyUnlessNulsJoinDots | runtime/core/src/cy_exec/utils/path_utils.py:158-182 | for every name, NULs or not: the result is safe exactly if no two dots past the leading ones are kept apart by NULs alone |
| Filenames.NulsCanJoinDots | runtime/core/src/cy_exec/utils/path_utils.py:158-182 | a dot, a NUL and a dot inside a name give an unsafe result |
| Percentile.PercentileInRange | runtime/core/src/cy_exec/core/telemetry.py:18-27 | between minimum and maximum, which are the 0th and the 100th |
| Percentile.PercentileMonotone | runtime/core/src/cy_exec/core/telemetry.py:18-27 | monotone in the percentile |
| Percentile.Telemetry.TrackRequestEnd | runtime/core/src/cy_exec/core/telemetry.py:50-60 | the counters move as the outcome says, and the last 512 latencies are kept |
| Percentile.Telemetry.Percentiles | runtime/core/src/cy_exec/core/telemetry.py:69-85 | every snapshot has p50 <= p95 <= p99, among the latencies kept |

## Left out

- Lifecycle: runs without a broker (`activity` is None), timestamps, messages and diagnostic texts, drafts, placement and the document of a composed model; fresh UUIDs are assumed, store errors are not modelled.
- Engines, the package-runtime SDK and the activity broker: their contracts are stated at the head of `Lifecycle.dfy`, `RuntimeOwner.dfy` and `Imports.dfy`; an engine may answer or raise anything else.
- RuntimeOwnerTheorems.UnknownIsFinal: safety only; whether an operation that `status` made UNKNOWN during its activation recovers is not claimed.
- Package-runtime owner: credential files, the order of the latest operation in public replies, and the validation of configuration.
- Imports.Apply: works on values, since the calls of several threads or processes interleave inside `create_model_import`; the store's transactions are also methods of a class. That the command lock makes some interleavings impossible is not used.
- Streaming.Apply, Scheduler.Apply and Residency.Apply: threads interleave inside one method of the source, so the machines work on values; the stretches that one thread runs alone are also methods of classes, except the two loops of the stream, which share no such stretch.
- Scheduler: `PriorityQueue` is a set with extraction of a first element, time-outs may fire at any moment, a join has no effect, and no order is claimed between equal creation times.
- Streaming: the shutdown and prompt checks before the queues exist, a full scheduler, telemetry, and a worker function that the drain fails before it starts, which never ends its stream.
- Residency: the placeholder path check before the lock, memory observations, and the progress callbacks other than the one between load and registration.
- Diagnostics: the content of texts, `terminal`, and other deployments; lengths are those of the serialized records and of the texts, and whether a record's texts can be encoded is a flag of it.
- DiagnosticsPolling.Apply: requests interleave inside `deployment_diagnostics`, so the machine works on values; what one request does alone is also a method of a class. The runtime honours its cursor.
- ScopeKeys.ScopeKeysSeparate: assumes a digest that never collides, and names that UTF-8 can encode.
- Safetensors: the random values, the JSON text of the header and the other files of the fixture are parameters or absent; a header under 2^64 bytes is assumed.
- Percentile: real arithmetic instead of floating point; sums, averages and the Prometheus text are absent.
- Filenames: `safe_join`, `is_safe_path`, `validate_model_path` and `get_relative_path`.
- HTTP and gRPC adapters, the remote engine, TLS, the command line, configuration reloading, `StreamBuffer`, alerts, redaction and health servers: plumbing, or easier members only.
