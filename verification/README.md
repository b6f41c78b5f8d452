# Verified model of Heimdall's crash-tolerant protocols

Heimdall is a control plane for deployments on one host. Its database rows, its routing
files and its Docker resources have to agree although workers crash, lose leases and race
with each other. This project models the protocols that keep them in agreement and proves
what those protocols are for. `dafny verify dfyconfig.toml` checks everything.

## How the model is built

* **Tables.** `RouteStore`, `DeploymentStore`, `ReconciliationStore` and `DeletionStore` give
  every repository transaction as a function on its tables, with its refusals. The classes in
  `RouteRepository`, `DeploymentRepository`, `ReconciliationRepository`, `DeletionRepository`
  and `ProjectDatabase` update rows in place and are proved to do what those functions say.
* **Machines.** `RoutingHost`, `DeploymentFencing` and `DeletionSystem` are state machines
  whose steps are single transactions, single file operations, crashes, and answers of
  commands that may come out either way. A run is any sequence of steps; theorems are about
  every run (`RoutingTheorems`, `DeploymentFencing`, `DeletionTheorems`, `DeletionCleanup`,
  `DeletionSite`, `DeletionSweep`). A step that is not enabled leaves the state alone.
* **Programs.** `RoutingWorker`, `DeploymentWorker` and `DeletionWorker` are the workers' own
  control flow as methods with loops. Between any two of their actions everybody else may take
  any number of steps. Each of their actions is a step of the machine, so every theorem about
  runs holds of them, and cutting them short anywhere is a run the machine has too.
  `DeletionSession` is the running system as one deletion worker sees it; the worker and its
  teardown (`TeardownRun`) act through it, on the objects and directories of that system.
* **Effects.** What the transactions and actions mean, told from the rows and answers and not
  from the functions that define them: `RouteEffects`, `DeploymentEffects`,
  `ReconciliationEffects` and `DeletionEffects` for the tables, `RoutingRequests` and
  `RoutingReports` for what runs of the routing host make of a request and of a failure,
  `DeletionRoute` and `DeletionActions` for the steps of a deletion.
* **Gateway, teardown, streams.** `Gateway`, `Teardown` with `TeardownOutcome` and `TeardownRun`,
  `GatewayConfig`, `EdgeRender`, `Framing`, `Utf8`, `Redaction`, `LogFrame` and `EventStream` model one
  component each, as classes and loops where the program changes state.
* **Texts.** `Json` writes and reads texts as Python does; `EdgeJournal` and `LogFrame` are what
  it is used for. `NginxText` reads a configuration file the way nginx does, without regard to
  how it was written; `GatewayText` and `EdgeText` say what it finds in the two files that are
  rendered. `UuidText` has the texts of an id.
* **Witnesses.** `StaleFile` and `LateWorker` are single runs, written out step by step, that
  reach the states the theorems except.

## What is assumed

* There is one routing worker process. After a crash it starts over through startup
  reconciliation. No other process edits the routing files.
* For `FileShowsApplied`: a write of the old file during a restore succeeds or the process dies.
  What holds without this is stated, too: `stale` keeps the claim whose plan such a failure left
  in the file, `FileIsRightIff` and `FailedRestoreIsUnnoticed` tell from that claim and the tables
  exactly when the file is right all the same, and `FileCanStayWrong` is a run in which it is not.
* Once a project's deletion found all operations drained, nothing appears with its label, under
  a name that carries the first twelve digits of its id, or in its directories, nor any part of
  its database or secrets, and its gateway row is not rewritten. Before that anything may. A
  database only appears after its row. An object id in Docker never changes its labels. Two
  projects whose ids agree in those twelve digits would break the first sentence.
* Claims about the edge and the gateway are about file contents, not about what a running
  nginx has loaded.
* A crash falls before or after a commit, not inside it: a transaction is one step.
* Calls on one project's gateway do not overlap. Objects and directories may be taken away by
  anybody at any time.
* PostgreSQL's row locks exclude each other, and who waits for one sees what was committed under
  it. That the events of one deployment are serialized follows (`EventStream.LocksExclude`).

## Where the code does not do what one might expect

* A restore whose write fails leaves the candidate in `public-routes.conf`, and the worker does
  not ask for a reconciliation. The file is then right if and only if the claim asked for
  nothing that was not applied (`RoutingTheorems.FailedRestoreIsUnnoticed`).
* ACTIVE does not mean served. When something fails behind the commit of an activation, in
  writing `last-good.config` or in retiring the previous generation, the previous configuration
  is put back although the row was moved (`Gateway.ActiveMayNotBeServed`); and when the process
  dies between the switch and the commit, the row still names the deployment that is no longer
  served (`Gateway.InterruptedSwitchIsNotServed`). Recovery says ACTIVE in both cases without
  looking at the file. `Gateway.ActiveIsServedIff` tells for every run when the file is right.
* The authorization mismatch of a deletion is not unreachable: a worker that lost its lease sees
  it after another worker finished the project (`LateWorker.MismatchCanHappen`), and only then.
  It can never be recorded (`DeletionTheorems.MismatchMeansFinished`).
* Redaction hides a secret value only if that cannot overlap the text it is replaced by: a
  password `[` is shown by every replacement (`Redaction.FirstCharacterShows`,
  `Redaction.RedactedHides`).
* A teardown removes images by id, so two services whose builds gave one image make it fail
  halfway (`TeardownOutcome.EqualImagesBlockTeardown`). Every such try takes at least one object
  away, so asked again often enough it succeeds (`TeardownOutcome.TriesAreBounded`).

## Model

| member | source | states |
|---|---|---|
| `RouteRepository.PublicRouteRepository.SetEnabled` | backend/src/heimdall/public_routes/repository.py:73-129 | enabling a hostname: refused for a deleting project or a taken hostname; a repeated request changes nothing, a failed one is retried under its revision, a different one gets the next revision |
| `RouteRepository.PublicRouteRepository.Disable` | backend/src/heimdall/public_routes/repository.py:131-164 | disabling: refused for a deleting project or a missing route, otherwise the next revision unless it is already under way |
| `RouteRepository.PublicRouteRepository.DisableForDeletion` | backend/src/heimdall/public_routes/repository.py:166-200 | the deletion worker may disable only a deleting project; a project without a route is left alone |
| `RouteRepository.PublicRouteRepository.WakePending` | backend/src/heimdall/public_routes/repository.py:240-260 | only a job waiting for its gateway is made due earlier, never later |
| `RouteRepository.PublicRouteRepository.ClaimNext` | backend/src/heimdall/public_routes/repository.py:262-337 | a claimable job gets a fresh token and one more attempt; none is returned exactly when no job is claimable |
| `RouteRepository.PublicRouteRepository.Renew` | backend/src/heimdall/public_routes/repository.py:339-369 | only the live claim extends its lease |
| `RouteRepository.PublicRouteRepository.Complete` | backend/src/heimdall/public_routes/repository.py:371-417 | only the live claim applies the desired state, and exactly the one the row holds |
| `RouteRepository.PublicRouteRepository.Fail` | backend/src/heimdall/public_routes/repository.py:435-475 | a failure leaves what is applied alone and distinguishes failed from uncertain |
| `RouteRepository.PublicRouteRepository.Reschedule` | backend/src/heimdall/public_routes/repository.py:477-539 | a retry makes the job wait again with its attempts kept |
| `RouteStore.SetEnabledKeeps` | backend/src/heimdall/public_routes/repository.py:73-129 | enabling keeps hostnames exclusive, rows consistent and what is applied untouched |
| `RouteStore.CompleteKeeps` | backend/src/heimdall/public_routes/repository.py:371-417 | completing keeps hostnames exclusive and every row consistent with its job |
| `RouteStore.CompleteChangesItsRow` | backend/src/heimdall/public_routes/repository.py:371-417 | completing applies the desired state of its own row alone, inactive exactly if disabled was asked for, and lowers no revision, applied or desired |
| `RouteStore.GoneRouteIsFrozen` | backend/src/heimdall/public_routes/repository.py:166-220 | a deleting project's removed route cannot be requested, claimed, completed or woken again |
| `RouteEffects.EnableAsks` | backend/src/heimdall/public_routes/repository.py:73-129 | what enabling asks for: on success the row has the hostname asked for and is wanted, under the old revision if it asked for just that and under the next one otherwise, and waits from now on unless the same was already under way or in place; what is applied and every other row stay; refused exactly for a deleting or unknown project or a hostname somebody else asks for or is served under |
| `RouteEffects.DisableAsks` | backend/src/heimdall/public_routes/repository.py:131-200 | the same of switching off, by a user or by the deletion: the hostname stays, the route is no longer wanted |
| `RouteEffects.WakingOnlyHastens` | backend/src/heimdall/public_routes/repository.py:240-260 | waking brings the time of a job forward that waits for its gateway, and does nothing else |
| `RouteEffects.LeaseExcludes` | backend/src/heimdall/public_routes/repository.py:262-337 | while a claim is live nobody else can claim its job |
| `RouteEffects.ClaimHoldsUntil` | backend/src/heimdall/public_routes/repository.py:262-337 | a claim takes what the row asks for, counts one attempt and is live until its lease runs out, and from then on the job is free |
| `RouteEffects.RenewalHoldsUntil` | backend/src/heimdall/public_routes/repository.py:339-369 | a heartbeat sets that time anew |
| `RouteEffects.RescheduledWaitsUntil` | backend/src/heimdall/public_routes/repository.py:477-539 | a job put off can be claimed from its time on and not before, with its attempts as they are |
| `RouteEffects.FailureEnds` | backend/src/heimdall/public_routes/repository.py:435-475 | a failure is told apart from an unknown outcome, says why, and leaves a job nobody can claim |
| `RouteEffects.CompletionEnds` | backend/src/heimdall/public_routes/repository.py:371-417 | completing applies what the row asks for under its revision and leaves a job nobody can claim |
| `RoutingRequests.EnabledIsOnRecord` | backend/src/heimdall/public_routes/repository.py:73-129 | in every run, after a successful request for a hostname the history has that hostname, wanted, under the revision of the row, in every continuation |
| `RoutingRequests.DisabledIsOnRecord` | backend/src/heimdall/public_routes/repository.py:131-200 | the same of switching off: the hostname asked for last, not wanted |
| `RoutingRequests.AppliedWasAskedFor` | backend/src/heimdall/public_routes/repository.py:371-417 | in every reachable state the hostname a project is served under is the one it asked for under the revision that is applied |
| `RoutingTheorems.HostnamesStayExclusive` | backend/src/heimdall/public_routes/repository.py:541-557 | in every reachable state no hostname is asked for or served by two projects |
| `RoutingTheorems.RouteAndJobAgree` | backend/src/heimdall/public_routes/repository.py:559-608 | in every reachable state route and job revisions agree, route status determines job state, and applied never exceeds desired |
| `RoutingTheorems.AppliedRevisionNeverGoesBack` | backend/src/heimdall/public_routes/repository.py:371-417 | along every run the applied revision of a surviving route only grows and stays within the desired one |
| `RoutingTheorems.RevisionDeterminesRequest` | backend/src/heimdall/public_routes/repository.py:73-164 | at any two points of a run the same project and revision mean the same hostname and desired state |
| `RoutingTheorems.HistoryIsWriteOnce` | backend/src/heimdall/public_routes/repository.py:73-164 | what a revision once asked for is never rewritten |
| `RoutingTheorems.OnlyProbedPlanIsCommitted` | backend/src/heimdall/public_routes/worker.py:116-153 | over every interleaving, what is applied changes only when the live claim commits, and then to exactly the plan it rendered, switched to and probed, which the file shows |
| `RoutingTheorems.FileShowsApplied` | backend/src/heimdall/public_routes/worker.py:74-199 | between two turns with no reconciliation owed, public-routes.conf shows exactly the applied routes, project for project and hostname for hostname, however the last attempt ended and wherever the process crashed before |
| `RoutingTheorems.RecoveryAccepts` | backend/src/heimdall/runtime/edge.py:243-300 | at every point of every run, repeated crashes included, the journal passes the checks and the config is one of its two sides, so recovery accepts it after a crash at that point |
| `RoutingTheorems.JournalTells` | backend/src/heimdall/runtime/edge.py:199-214 | after every run the journal of a pass says what the file held, what it is to hold and which hostname was applied, and COMMITTED only behind the commit; a journal that says COMMITTED, crashes or not, lies beside a file that holds its candidate, which are the applied routes |
| `RenderedRoutes.RecoveryAcceptsText` | backend/src/heimdall/runtime/edge.py:243-300 | the same of the texts: at every point of every run recovery reads the journal's JSON back as what was written, and the text of the config is one of its two sides |
| `RenderedRoutes.RecoveryAcceptsRendered` | backend/src/heimdall/runtime/edge.py:243-300 | the same of the very texts the renderer gave: for every run, whatever rendering of its routes each configuration on disk is, recovery accepts what is written |
| `RenderedRoutes.ParsesIsReadBack` | backend/src/heimdall/runtime/edge.py:261-323 | the routing host's test of a journal holds exactly if its text is read back as what was written |
| `EdgeJournal.JournalRoundTrip` | backend/src/heimdall/runtime/edge.py:261-323 | a written journal is read back as it was if and only if its configurations are within the limit and its hostname is canonical; otherwise it is invalid |
| `EdgeJournal.JournalSays` | backend/src/heimdall/runtime/edge.py:302-313 | any reader of JSON finds in the journal the five keys of version 2 with the texts, the previous hostname or null, and PREPARED or COMMITTED |
| `Json.ObjectRoundTrip` | backend/src/heimdall/runtime/edge.py:302-323 | an object written with escapes down to ASCII is read back as its members |
| `Json.EscapeRoundTrip` | backend/src/heimdall/runtime/log_stream_broker.py:373-377 | a JSON string is read back as it was, escaped down to ASCII with surrogate pairs or only where needed (section 7 of RFC 8259) |
| `Json.EscapeSize` | backend/src/heimdall/runtime/log_stream_broker.py:373-377 | escaping lengthens at most sixfold and removes newlines |
| `RoutingTheorems.RestoreFindsCandidate` | backend/src/heimdall/runtime/edge.py:478-496 | a restore always finds the candidate in place, so its conflict error never occurs |
| `RoutingTheorems.FailedRestoreIsUnnoticed` | backend/src/heimdall/runtime/edge.py:226-235 | when writing the old file back fails the worker asks for no reconciliation, and from then until its next job the file is right if and only if the claim asked for nothing that was not applied: the same hostname again, or the removal of a route that was not there |
| `RoutingTheorems.FileIsRightIff` | backend/src/heimdall/runtime/edge.py:478-496 | without assuming that restores can write: whenever the worker is between two jobs and owes nothing, the file shows the applied routes if and only if no abandoned plan was left in it or that plan asks for nothing that is not applied |
| `StaleFile.FileCanStayWrong` | backend/src/heimdall/runtime/edge.py:478-496 | a concrete run in which a failed restore leaves a route in the file that is not applied |
| `RoutingTheorems.FileNeverNamesGoneRoute` | backend/src/heimdall/public_routes/repository.py:202-220 | at no point does the file name a project whose route is absent or removed |
| `RoutingTheorems.GoneStaysGone` | backend/src/heimdall/public_routes/repository.py:166-220 | once a deleting project's route is gone it stays gone and out of the file for the rest of the run |
| `RoutingSafety.StepKeeps` | backend/src/heimdall/runtime/edge.py:167-241 | every micro-step of apply, restore, recovery, the worker and the API keeps the invariant linking tables, files and worker memory |
| `RoutingSafety.Reachable` | backend/src/heimdall/public_routes/worker.py:101-199 | the invariant holds after every run from the empty host |
| `RoutingWorker.PublicRouteWorker.Apply` | backend/src/heimdall/runtime/edge.py:167-241 | apply returns normally only with its plan in the file and the transaction closed; otherwise it ends as its first failure, or the failure of its restore, prescribes |
| `RoutingWorker.PublicRouteWorker.Restore` | backend/src/heimdall/runtime/edge.py:478-496 | a restore ends in the original failure with the old file back, or in one of its own: a lost claim, an uncertain edge failure or an unexpected error |
| `RoutingWorker.PublicRouteWorker.ReconcileStartup` | backend/src/heimdall/public_routes/worker.py:74-99 | reconciliation succeeds only after a complete apply, and the file then shows the applied routes; an edge failure or changed rows let the process go on, anything else ends it |
| `RoutingWorker.PublicRouteWorker.HandleFailure` | backend/src/heimdall/public_routes/worker.py:211-231 | what is left of the claim tells what was raised: UNCERTAIN exactly if nobody can tell the outcome, waiting again exactly if another attempt may help and one is left, the rows had changed or the gateway was not ready, FAILED otherwise; and nothing is written when the claim is lost |
| `RoutingWorker.PublicRouteWorker.RunOnce` | backend/src/heimdall/public_routes/worker.py:101-199 | one turn of the program, with any transactions of others between its actions: whenever it returns alive and owing nothing, the file shows the applied routes; it works on a job that was claimable at the time it read from the clock, and on none only if none was claimable then or a reconciliation failed; how the claim ended is what its failure prescribes |
| `RoutingReports.DeliveryReports` | backend/src/heimdall/public_routes/worker.py:201-231 | a delivered report, told from what was raised and the attempts of the claim alone: the live claim leaves its row UNCERTAIN, PENDING with its job due at the given time, or FAILED, each exactly for its causes; a lost one changes nothing |
| `RoutingReports.CauseWasRaised` | backend/src/heimdall/public_routes/worker.py:154-199 | the report a worker is left with is for the failure that the step raised, or behind a restore for the one that was restored for; a refused or lost claim is not reported |
| `RoutingReports.RestoredForWhatWasRaised` | backend/src/heimdall/runtime/edge.py:226-237 | a restore begins only behind the switch, and for the failure that was raised there |
| `RoutingReports.RequeuedOnlyBelowLimit` | backend/src/heimdall/public_routes/worker.py:222-231 | in every run a claimed job is queued again only by the report of its live claim, and then because the gateway was not ready, the rows had changed, or a retryable edge failure came with an attempt left |
| `RoutingReports.HeartbeatProlongs` | backend/src/heimdall/public_routes/worker.py:38-42 | a heartbeat prolongs the lease of a live claim and tells the worker when it is not |
| `RoutingReports.FencePasses` | backend/src/heimdall/public_routes/worker.py:144-148 | a fence lets the worker on only with its claim live and the applied rows it planned from |
| `EdgeRender.RenderEdgeRoutes` | backend/src/heimdall/runtime/edge.py:514-558 | the loop refuses too many routes, invalid or repeated names and too long a file, and nothing else |
| `EdgeRender.ListingOrderDoesNotMatter` | backend/src/heimdall/runtime/edge.py:514-558 | the order in which routes are listed changes neither the file nor a refusal |
| `EdgeText.TextIsRead` | backend/src/heimdall/runtime/edge.py:514-558 | a reader of nginx configurations finds in the text one upstream and one server for every route, with all their directives, and nothing else |
| `EdgeText.FileLeads` | backend/src/heimdall/runtime/edge.py:514-558 | in every rendered file nginx finds, for requests to a hostname on port 80, exactly the addresses of the gateways listed under it, as far as the first twelve digits of the ids tell them apart |
| `EdgeText.HostnameReachesItsGateway` | backend/src/heimdall/runtime/edge.py:514-558 | with ids that differ there, requests for a listed hostname go to port 8080 of its own gateway, and for other hostnames nowhere |
| `EdgeText.FileDeterminesRoutes` | backend/src/heimdall/runtime/edge.py:514-558 | equal files come only from the same routes, up to the rest of the ids |
| `RenderedRoutes.RenderableIsRendered` | backend/src/heimdall/runtime/edge.py:514-558 | the routing host's condition on plans is exactly the renderer's |
| `RenderedRoutes.ServedAsMeant` | backend/src/heimdall/runtime/edge.py:514-558 | the hostnames for which nginx finds a gateway in the text of a configuration are those of the routes that the routing host means by it |
| `RenderedRoutes.TextServesApplied` | backend/src/heimdall/public_routes/worker.py:74-199 | from the rows to what nginx reads: over every run, between two turns with no reconciliation owed, the rendered text on disk serves a hostname if and only if some project's row says that it is applied |
| `DeletionRepository.ProjectRepository.RequestDeletion` | backend/src/heimdall/projects/repository.py:280-320 | the first confirmed request marks the project and records whether it has a database; a repeated one changes nothing; a failed job must be retried instead |
| `DeletionRepository.ProjectRepository.RetryDeletion` | backend/src/heimdall/projects/repository.py:337-374 | only a failed job is retried, in the phase it had reached |
| `DeletionRepository.ProjectRepository.ClaimNext` | backend/src/heimdall/projects/repository.py:376-410 | a due or expired job gets a fresh token and one more attempt |
| `DeletionRepository.ProjectRepository.Renew` | backend/src/heimdall/projects/repository.py:412-433 | only the live claim extends its lease |
| `DeletionRepository.ProjectRepository.Advance` | backend/src/heimdall/projects/repository.py:435-457 | only the live claim moves its job, from the expected phase to the next one |
| `DeletionRepository.ProjectRepository.Fail` | backend/src/heimdall/projects/repository.py:459-475 | a failure keeps the phase |
| `DeletionRepository.ProjectRepository.Reschedule` | backend/src/heimdall/projects/repository.py:477-496 | a retry keeps phase and attempts |
| `DeletionRepository.ProjectRepository.Defer` | backend/src/heimdall/projects/repository.py:498-517 | waiting gives the attempt back, never below zero |
| `DeletionRepository.ProjectRepository.FinalizeDeletion` | backend/src/heimdall/projects/repository.py:613-673 | the rows of the project, its route among them, are deleted if and only if the claim is live in the last phase, the project deleting, and its route row, read in the same transaction, absent or removed |
| `DeletionEffects.RequestOpens` | backend/src/heimdall/projects/repository.py:280-320 | nothing is deleted whose name, and whose database, was not confirmed; the first request opens the job and says for good whether a database goes |
| `DeletionEffects.RetryReopens` | backend/src/heimdall/projects/repository.py:337-374 | a failed job goes on in the phase it had reached, with all attempts before it, if the deletion is confirmed anew, and no other job does |
| `DeletionEffects.LeaseExcludes` | backend/src/heimdall/projects/repository.py:376-410 | while a claim is live nobody else can claim its job |
| `DeletionEffects.ClaimHoldsUntil` | backend/src/heimdall/projects/repository.py:376-410 | a claim counts one attempt and is live until its lease runs out |
| `DeletionEffects.RenewalHoldsUntil` | backend/src/heimdall/projects/repository.py:412-433 | a heartbeat sets that time anew |
| `DeletionEffects.AdvanceGoesOn` | backend/src/heimdall/projects/repository.py:435-457 | advancing goes from the phase the worker knows to the one after it |
| `DeletionEffects.FailureEnds` | backend/src/heimdall/projects/repository.py:459-475 | a failed job has its reason on record and cannot be claimed any more |
| `DeletionEffects.PutOffWaitsUntil` | backend/src/heimdall/projects/repository.py:477-517 | a job put off can be claimed from its time on and not before; a retry keeps the attempt that was made, a deferral gives it back |
| `DeletionEffects.WaitingCostsNothing` | backend/src/heimdall/projects/repository.py:498-517 | claiming a job and deferring it leaves the attempts as they were |
| `DeletionTheorems.RemovalsComeAfterTheRoute` | backend/src/heimdall/projects/repository.py:576-611 | every removal happened after route and operations were gone and the file free of the project, and stays so in every continuation, although check and removal are separate steps |
| `DeletionTheorems.RemovalsAreAuthorized` | backend/src/heimdall/projects/deletion_worker.py:439-448 | along every run each removal a worker carries out lies behind an authorization of its own, with no other removal of the worker between the two |
| `DeletionTheorems.ClearedWorkerIsSafe` | backend/src/heimdall/projects/deletion_worker.py:266-327 | whenever a removal can be carried out at all, even by a worker that lost its lease meanwhile, route and operations are gone at that moment |
| `DeletionTheorems.PhaseVouches` | backend/src/heimdall/projects/deletion_worker.py:246-327 | from ROUTE_DISABLING on nothing of the project runs, from ROUTE_REMOVED on its route is gone and the file does not name it |
| `DeletionTheorems.DeletingIsFinal` | backend/src/heimdall/projects/repository.py:280-320 | a deleting project stays deleting until its row is gone, and its id is never used again |
| `DeletionTheorems.DeploymentsAreFrozen` | backend/src/heimdall/deployments/repository.py:122-173 | from then on its deployments and their configurations are fixed |
| `DeletionTheorems.QuiescenceIsStable` | backend/src/heimdall/projects/repository.py:519-553 | the parts of the drain check about deployments and reconciliations stay true once true |
| `DeletionRoute.DisablingTurnsOff` | backend/src/heimdall/projects/deletion_worker.py:265-279 | what ROUTE_DISABLING does: the route of the project is no longer wanted, and on its way out or gone |
| `DeletionRoute.StepKeepsRouteOff` | backend/src/heimdall/projects/deletion_worker.py:265-295 | no step of anybody switches the route of a project on its way out on again |
| `DeletionRoute.OffStaysOff` | backend/src/heimdall/projects/deletion_worker.py:265-295 | in every run, what a cleared worker in ROUTE_DISABLING switched off stays off in every continuation |
| `DeletionActions.AuthorizeClearsIff` | backend/src/heimdall/projects/deletion_worker.py:439-448 | authorizing clears the worker if and only if its claim is live, the project is being deleted and, except for switching it off, its route is gone; a live claim is prolonged |
| `DeletionActions.BeatProlongs` | backend/src/heimdall/projects/deletion_worker.py:430-437 | a heartbeat prolongs a live claim, and nothing else |
| `DeletionActions.DrainedIff` | backend/src/heimdall/projects/repository.py:519-553 | operations count as drained if and only if no deployment, reconciliation or route change of the project is under way and the locks could be had |
| `DeletionActions.AppliedIff` | backend/src/heimdall/public_routes/repository.py:202-220 | the route counts as gone if and only if there is none, or the routing worker has taken it out under its last revision |
| `DeletionActions.RemovalTakes` | backend/src/heimdall/projects/deletion_worker.py:296-327 | a removal that has its effect takes the one object, directory or part it names and leaves all others; one that does not takes nothing |
| `DeletionActions.PuttingOffFrees` | backend/src/heimdall/projects/deletion_worker.py:450-477 | a worker that puts its job off leaves it to anybody from the given time on; waiting costs no attempt, trying again does |
| `DeletionActions.FailingEnds` | backend/src/heimdall/projects/deletion_worker.py:457-477 | a worker that fails its job leaves it to nobody, with the reason and in its phase |
| `DeletionTheorems.FlagMatchesDatabase` | backend/src/heimdall/project_database/repository.py:50-93 | in every reachable state the authorization flag equals the presence of a database |
| `DeletionTheorems.MismatchMeansFinished` | backend/src/heimdall/projects/deletion_worker.py:368-377 | in every reachable state a worker sees a mismatch exactly when another worker has finished the deletion of a project with a database, and its error can then not be recorded |
| `LateWorker.MismatchCanHappen` | backend/src/heimdall/projects/deletion_worker.py:368-377 | a concrete run in which a worker in DATABASE_QUIESCING, its lease expired and the project finished by another, comes to that check |
| `DeletionTheorems.StepMovesPhase` | backend/src/heimdall/projects/repository.py:435-457 | one step moves a phase by at most one, forward, under the live claim |
| `DeletionTheorems.PhaseNeverGoesBack` | backend/src/heimdall/projects/repository.py:337-517 | no claim, deferral, reschedule, failure or retry takes a phase back |
| `DeletionTheorems.ProjectsDisappearOnlyAtTheEnd` | backend/src/heimdall/projects/repository.py:613-673 | a project disappears only by a live claim finalizing the last phase with its route gone and nothing running, and then no table keeps a row of it |
| `DeletionSweep.NothingIsLeftBehind` | backend/src/heimdall/projects/deletion_worker.py:296-326 | when a project disappears, no Docker object carries its label or one of the names its rows imply, none of its directories is there, and no session, database, role or secret of it, whichever workers saw and removed which part at whatever moments and however many removals failed; and none ever comes back |
| `DeletionSweep.StepKeepsSweep` | backend/src/heimdall/projects/deletion_worker.py:246-327 | no step of anybody makes untrue what a deletion worker has noted down of rows, objects, labels and directories, and what a teardown has swept stays swept |
| `DeletionCleanup.StepKeepsClean` | backend/src/heimdall/projects/deletion_worker.py:307-326 | the same of databases and secrets: no step takes back what the phases so far have achieved, and no phase begins before what the one before it removes is gone |
| `DeletionSweep.PhaseLeavesNothing` | backend/src/heimdall/projects/deletion_worker.py:246-327 | in every reachable state the phase of a deletion tells what is no longer there: from DATABASE_QUIESCING on nothing labelled, no expected name and no directory, then part by part the database and the secrets |
| `DeletionSweep.RecordsAgree` | backend/src/heimdall/projects/repository.py:555-574 | any two workers that read the rows of a project, before and after whatever happened, expect the same objects |
| `DeletionSite.StepDwindles` | backend/src/heimdall/projects/deletion_worker.py:246-327 | from the drain check on, of what belongs to the project no step of anybody adds anything, and an object id keeps its labels |
| `DeletionSweep.ObjectsGoOnlyByTheirDeletion` | backend/src/heimdall/projects/deletion_worker.py:266-327 | an object goes only because somebody outside took it, or by the removal of a worker that deletes the very project its labels name, cleared, with route and operations gone |
| `DeletionCleanup.PartsGoOnlyByClearedRemovals` | backend/src/heimdall/projects/deletion_worker.py:307-326 | a database, session, role or secret goes only by the removal of that part by a worker cleared for it, with route and operations gone |
| `DeletionSafety.StepKeeps` | backend/src/heimdall/projects/deletion_worker.py:246-327 | every step of host, deployments, reconciliations, databases and deletion workers keeps the joint invariant |
| `DeletionSafety.Reachable` | backend/src/heimdall/projects/deletion_worker.py:229-327 | the joint invariant holds after every run |
| `DeletionWorker.ProjectDeletionWorker.RunClaim` | backend/src/heimdall/projects/deletion_worker.py:246-327 | the phase loop ends, every committed pass moving one phase on; when it reports completion the project is gone |
| `DeletionWorker.ProjectDeletionWorker.RunPhase` | backend/src/heimdall/projects/deletion_worker.py:246-327 | a phase is left towards the next one only at the point that justifies it; it is put off only while waiting for operations or the route; when it was ROUTE_DISABLING the route of the project is switched off, put off or not, unless the claim was lost before |
| `DeletionWorker.ProjectDeletionWorker.DisableRoute` | backend/src/heimdall/projects/deletion_worker.py:265-279 | authorized, the route is switched off and the phase waits for it to be applied; however it ends with the claim held, the route is off |
| `DeletionWorker.ProjectDeletionWorker.RunDatabasePhase` | backend/src/heimdall/projects/deletion_worker.py:342-377 | a flag that does not match or a busy lock ends the phase before the worker did anything; a phase with a database that ends well is exactly authorization, removal reported to succeed, end of work |
| `DeletionWorker.ProjectDeletionWorker.Teardown` | backend/src/heimdall/projects/deletion_worker.py:296-306 | RUNTIME_CLEANUP reads the rows, runs the teardown on the running system, and is done only if no expected name of its project, no label and no directory of it is there any more |
| `DeletionWorker.ProjectDeletionWorker.VerifyFinalAbsence` | backend/src/heimdall/projects/deletion_worker.py:379-428 | the last phase looks authorized and removes nothing; it passes only if, of its own project, no expected name, no label, no directory and no secret is there, nor a database or role if the job is to delete one |
| `DeletionWorker.ProjectDeletionWorker.PersistFailure` | backend/src/heimdall/projects/deletion_worker.py:457-477 | a failure is tried again exactly if that may help and attempts are left; otherwise the job is marked failed |
| `DeletionWorker.ProjectDeletionWorker.RunOnce` | backend/src/heimdall/projects/deletion_worker.py:229-244 | one turn, with anything happening between its actions, is a run of the system; it claims a job that was claimable at the time it read from the clock, none only if none was, and ends with the claim given up |
| `DeploymentRepository.DeploymentRepository.Create` | backend/src/heimdall/deployments/repository.py:122-173 | refused for a deleting project and while another deployment of the project is under way |
| `DeploymentRepository.DeploymentRepository.ClaimNext` | backend/src/heimdall/deployments/repository.py:226-286 | a due or expired job gets a fresh token and one more attempt, and its deployment goes back to PREPARING |
| `DeploymentRepository.DeploymentRepository.Renew` | backend/src/heimdall/deployments/repository.py:288-314 | only the live claim extends its lease |
| `DeploymentRepository.DeploymentRepository.Advance` | backend/src/heimdall/deployments/repository.py:316-348 | only the live claim of a deployment that is not over changes its status |
| `DeploymentRepository.DeploymentRepository.Succeed` | backend/src/heimdall/deployments/repository.py:350-375 | success ends deployment and job together |
| `DeploymentRepository.DeploymentRepository.Fail` | backend/src/heimdall/deployments/repository.py:377-402 | failure ends deployment and job together |
| `DeploymentRepository.DeploymentRepository.Retry` | backend/src/heimdall/deployments/repository.py:404-441 | a retry queues deployment and job again without resetting the attempts |
| `DeploymentRepository.DeploymentRepository.ReconcileSucceeded` | backend/src/heimdall/deployments/repository.py:675-710 | only an uncertain failure may be turned into success afterwards |
| `DeploymentStore.SupersededClaimIsFenced` | backend/src/heimdall/deployments/repository.py:713-729 | a claim that was replaced can commit nothing and renew nothing, at any time |
| `DeploymentEffects.CreateQueues` | backend/src/heimdall/deployments/repository.py:122-173 | a new deployment has the project and the configuration it was asked for with and waits from now on; refused exactly for a deleting or unknown project or while another of the project is under way |
| `DeploymentEffects.LeaseExcludes` | backend/src/heimdall/deployments/repository.py:226-286 | while a claim is live nobody else can claim its job |
| `DeploymentEffects.ClaimHoldsUntil` | backend/src/heimdall/deployments/repository.py:226-286 | a claim counts one attempt and is live until its lease runs out |
| `DeploymentEffects.RenewalHoldsUntil` | backend/src/heimdall/deployments/repository.py:288-314 | a heartbeat sets that time anew |
| `DeploymentEffects.WriteSays` | backend/src/heimdall/deployments/repository.py:316-441 | what each write of a live claim leaves: the status it names with its failure, project and configuration untouched; an end ends the job, a retry frees it from its time on, with the attempts that were made |
| `DeploymentEffects.OnlyUncertaintyIsResolved` | backend/src/heimdall/deployments/repository.py:675-710 | only a failure of unknown outcome turns into success afterwards |
| `DeploymentFencing.LiveClaimIsNewest` | backend/src/heimdall/deployments/repository.py:713-729 | a claim under which a write can commit is the newest of its deployment |
| `DeploymentFencing.WritesAreFenced` | backend/src/heimdall/deployments/repository.py:226-441 | over every run with any workers and clocks, committed writes of a deployment come in claim order and nothing follows a finishing one |
| `DeploymentFencing.TerminalIffFinished` | backend/src/heimdall/deployments/repository.py:350-402 | a deployment is over exactly when one finishing write was committed |
| `DeploymentFencing.StatusMatchesJob` | backend/src/heimdall/deployments/repository.py:226-441 | in every reachable state queued, processing and terminal mean pending, claimed and done |
| `DeploymentFencing.ProcessCallsAreBounded` | backend/src/heimdall/deployments/worker.py:104-148 | processing is started at most max_attempts times for one deployment, whatever crashes, retries and recoveries happen |
| `DeploymentWorker.DeploymentWorker.RunClaim` | backend/src/heimdall/deployments/worker.py:104-148 | a first attempt is processed; a later one asks what was left: ACTIVE is recorded as success, uncertainty as that failure, a safe verdict is processed within the limit and fails beyond it; what is recorded is the newest write of all and tells how the processing ended |
| `DeploymentWorker.DeploymentWorker.HandleFailure` | backend/src/heimdall/deployments/worker.py:156-206 | after cleanup and diagnostics the failure, or that of the cleanup, is on record, and the deployment queued again exactly if that may help and attempts are left; or the claim is lost |
| `DeploymentWorker.DeploymentWorker.RecordFailure` | backend/src/heimdall/deployments/worker.py:194-206 | another attempt is queued exactly if the cause is retryable and attempts are left, and the cause is on record |
| `DeploymentWorker.DeploymentWorker.RunOnce` | backend/src/heimdall/deployments/worker.py:104-148 | one turn of the program, among any other workers: nothing was claimable at the time read from the clock, or the new claim of a job that was ends in its own last write or is lost |
| `ReconciliationRepository.RuntimeReconciliationRepository.Request` | backend/src/heimdall/runtime/reconciliation_repository.py:33-79 | refused for a deleting project and while the row is claimed; otherwise the row starts over |
| `ReconciliationRepository.RuntimeReconciliationRepository.ScheduleAutomatic` | backend/src/heimdall/runtime/reconciliation_repository.py:127-154 | the loop adds rows for candidates without one whose project is not deleting |
| `ReconciliationRepository.RuntimeReconciliationRepository.ClaimNext` | backend/src/heimdall/runtime/reconciliation_repository.py:81-125 | a due or expired row gets a fresh token and one more attempt |
| `ReconciliationRepository.RuntimeReconciliationRepository.Renew` | backend/src/heimdall/runtime/reconciliation_repository.py:156-182 | only the live claim extends its lease |
| `ReconciliationRepository.RuntimeReconciliationRepository.Finish` | backend/src/heimdall/runtime/reconciliation_repository.py:225-254 | only the live claim resolves or blocks |
| `ReconciliationRepository.RuntimeReconciliationRepository.Retry` | backend/src/heimdall/runtime/reconciliation_repository.py:202-223 | only the live claim queues the row again |
| `ReconciliationStore.SchedulingOnlyAdds` | backend/src/heimdall/runtime/reconciliation_repository.py:127-154 | a scheduling pass changes no existing row and opens none for a deleting project |
| `ReconciliationStore.SupersededClaimIsFenced` | backend/src/heimdall/runtime/reconciliation_repository.py:256-277 | a replaced claim can write nothing |
| `ReconciliationEffects.RequestOpens` | backend/src/heimdall/runtime/reconciliation_repository.py:33-79 | a request starts the row over unless somebody is at it; refused exactly then, for a deleting project and for an unknown deployment |
| `ReconciliationEffects.LeaseExcludes` | backend/src/heimdall/runtime/reconciliation_repository.py:81-125 | while a claim is live nobody else can claim its row |
| `ReconciliationEffects.ClaimHoldsUntil` | backend/src/heimdall/runtime/reconciliation_repository.py:81-125 | a claim counts one attempt and is live until its lease runs out |
| `ReconciliationEffects.RenewalHoldsUntil` | backend/src/heimdall/runtime/reconciliation_repository.py:156-182 | a heartbeat sets that time anew |
| `ReconciliationEffects.ClosingSays` | backend/src/heimdall/runtime/reconciliation_repository.py:202-254 | resolved and blocked are told apart and leave a row nobody can claim; a retry keeps the attempts and waits until its time |
| `ProjectDatabase.ProjectDatabaseRepository.EnsureIntent` | backend/src/heimdall/project_database/repository.py:50-93 | a deleting project gets no resource, any other exactly one |
| `ProjectDatabase.ProjectDatabaseRepository.Update` | backend/src/heimdall/project_database/repository.py:130-146 | an update commits exactly against the version that was read |
| `ProjectDatabase.SecondUpdateLoses` | backend/src/heimdall/project_database/repository.py:130-146 | of two updates from one reading at most one commits |
| `Gateway.NginxGateway.Activate` | backend/src/heimdall/runtime/gateway.py:159-249 | what a call has done, for every set of answers and every moment it may die: the row moves only if the configuration is valid, the switch, the reload, the probes and a rebased gateway succeed and the commit happens, even if its answer is lost; it returns normally exactly if everything succeeds, and then row and both files name the deployment; a failure behind the switch puts the old file back if that write works |
| `Gateway.NginxGateway.Recover` | backend/src/heimdall/runtime/gateway.py:61-157 | exactly one verdict for every set of answers, none if a commit or a write fails, and what each means for row and files, with a death before any effect; the row moves only if the gateway shows the deployment and its containers are found and healthy; SAFE_TO_RETRY comes if and only if the gateway is missing or shows the generation before, and the file was restored or needed no restoring |
| `Gateway.NginxGateway.RollbackCandidate` | backend/src/heimdall/runtime/gateway.py:251-265 | the candidate's file is replaced by the last good one unless the candidate is active or the write fails |
| `Gateway.NginxGateway.RestoreTargetFile` | backend/src/heimdall/runtime/gateway.py:577-601 | yes exactly when the file was restored or needed no restoring, no without a last good file, no answer when the write fails |
| `Gateway.NginxGateway.RestorePreviousGeneration` | backend/src/heimdall/runtime/gateway.py:603-633 | yes exactly if the file is restored or needs no restoring and the gateway then shows the previous generation |
| `Gateway.RunKeeps` | backend/src/heimdall/runtime/gateway.py:159-249 | over every run of calls that may fail or die midway, last-good.config holds only the default or a once active deployment's configuration |
| `Gateway.MemoryIsHonest` | backend/src/heimdall/runtime/gateway.py:159-249 | a deployment counts as once active exactly if some call moved the row to it |
| `Gateway.ActiveIsServedIff` | backend/src/heimdall/runtime/gateway.py:159-249 | over every run current.conf names the active deployment if and only if the call that moved the row left it shown and no activation since was interrupted behind its switch, or the last such was taken back and last-good.config names the deployment; if that call returned normally, if and only if no such interruption is left standing |
| `Gateway.ServedToldByAnswers` | backend/src/heimdall/runtime/gateway.py:61-265 | the same told from what callers see: after every run whose last move of the row was reported as a success, current.conf fails to name the active deployment if and only if some activation since passed its switch and then died or could not put the old file back, and no recovery or rollback has replaced it since |
| `Gateway.VerdictsAreSound` | backend/src/heimdall/runtime/gateway.py:61-157 | ACTIVE means the row says so, and that current.conf does exactly as far as `ActiveIsServedIff` says; SAFE_TO_RETRY leaves current.conf naming the deployment if and only if both files named it, which is impossible for one never activated |
| `Gateway.RollbackIsSound` | backend/src/heimdall/runtime/gateway.py:251-265 | with a last good file, a rollback leaves current.conf naming a deployment that was never active exactly if its write fails |
| `Gateway.ActiveMayNotBeServed` | backend/src/heimdall/runtime/gateway.py:217-249 | after a failure behind the commit ACTIVE is reported while current.conf names the previous deployment |
| `Gateway.InterruptedSwitchIsNotServed` | backend/src/heimdall/runtime/gateway.py:196-213 | after a death between the switch to another deployment and its commit, ACTIVE is reported of the one served before while current.conf names the other |
| `Teardown.ExpectedResources` | backend/src/heimdall/runtime/project_teardown.py:125-212 | succeeds exactly on consistent records, with the full list |
| `Teardown.ExpectedCoversProject` | backend/src/heimdall/runtime/project_teardown.py:150-178 | the list has the gateway, each deployment's network and each service's container and image, and nothing else |
| `Teardown.RemovalOrderSorts` | backend/src/heimdall/runtime/project_teardown.py:76-77 | gateways, services, networks, images, each once |
| `Teardown.NothingNeededGoes` | backend/src/heimdall/runtime/project_teardown.py:76-77 | nothing goes before what may still need it: images after everything, networks after all containers |
| `Teardown.RecordedAsExpected` | backend/src/heimdall/runtime/project_teardown.py:181-212 | on consistent records the containers and images of the active generation are recorded under exactly the names expected of it |
| `Teardown.LabelsIdentify` | backend/src/heimdall/runtime/project_teardown.py:225-256 | the labels that make an object exactly a resource allow no other project, kind or deployment |
| `TeardownRun.ProjectTeardown.Observe` | backend/src/heimdall/runtime/project_teardown.py:225-256 | a resource is absent, exactly labelled, or the look fails |
| `TeardownRun.ProjectTeardown.RejectExtraResources` | backend/src/heimdall/runtime/project_teardown.py:258-302 | passes only if everything with the project's label is expected, or nothing has it |
| `TeardownRun.ProjectTeardown.RemoveOne` | backend/src/heimdall/runtime/project_teardown.py:81-88 | guard, second look with the same id, then removal of that id |
| `TeardownRun.ProjectTeardown.Run` | backend/src/heimdall/runtime/project_teardown.py:50-101 | every removal and look is a step of the running system; only the project's own objects are removed, each guarded and seen twice, in order; on success nothing of the project is left and the notes show it was all looked at; undisturbed it succeeds if and only if records, names and labels are in order and no two expected names share an object, and if only the last fails it has removed something |
| `TeardownRun.ProjectTeardown.VerifyAbsent` | backend/src/heimdall/runtime/project_teardown.py:103-123 | removes nothing and, undisturbed, passes if and only if nothing of the project is left |
| `TeardownOutcome.EqualImagesBlockTeardown` | backend/src/heimdall/runtime/project_teardown.py:320-332 | two services whose images are one object make the teardown fail |
| `TeardownOutcome.TriesAreBounded` | backend/src/heimdall/runtime/project_teardown.py:50-101 | with records, names and labels in order, no more untroubled tries of a teardown can fail than there were objects |
| `GatewayConfig.RenderNginxConfig` | backend/src/heimdall/runtime/gateway_config.py:7-50 | the loop renders the locations of the routes, longest path first, and the text of the server around them |
| `GatewayConfig.ByLengthSorts` | backend/src/heimdall/runtime/gateway_config.py:10-10 | the routes are taken longest path first |
| `GatewayConfig.SelectionReachesBestRoute` | backend/src/heimdall/runtime/gateway_config.py:7-30 | nginx may select a location if and only if it is the entrance of the best route's service |
| `GatewayConfig.RoutingPreservesMeaning` | backend/src/heimdall/runtime/gateway_config.py:7-30 | for every valid route list and request path nginx has exactly one choice: the service of the longest route that is the path or lies above it, the root by default |
| `GatewayConfig.RenderedLocationsAreDistinct` | backend/src/heimdall/runtime/gateway_config.py:11-18 | no two rendered locations match on the same text |
| `GatewayText.RenderedIsRead` | backend/src/heimdall/runtime/gateway_config.py:7-50 | for every deployment and every valid runtime a reader of nginx configurations finds in the rendered text exactly the rendered locations: modifier, text to match, upstream and port |
| `GatewayText.TextRoutesAsMeant` | backend/src/heimdall/runtime/gateway_config.py:7-50 | of the locations read from the text nginx has exactly one choice for every request, and it passes the request to the service of the longest route above the path, under its name in this deployment and its port |
| `GatewayText.MarkerTellsDeployment` | backend/src/heimdall/runtime/gateway_config.py:19-38 | the marker line of a deployment is found in its own configuration, in no other deployment's and not in the default |
| `UuidText.DashedDetermines` | backend/src/heimdall/runtime/gateway_config.py:19-38 | different ids have different texts |
| `NginxText.NestFlat` | backend/src/heimdall/runtime/gateway_config.py:7-50 | what is nested from the tokens of some directives are those directives |
| `Framing.FramedSocket.Receive` | backend/src/heimdall/runtime/log_stream_broker.py:299-313 | returns the bytes before the first newline exactly if it lies within the limit, loses nothing on an error, never buffers more than limit + 1 bytes, and ends |
| `Framing.FramedSocket.ReceiveAll` | backend/src/heimdall/runtime/log_stream_broker.py:299-313 | repeated receives return exactly the payloads in order, however the bytes arrive |
| `Framing.FramesRoundTrip` | backend/src/heimdall/runtime/log_stream_broker.py:373-377 | cutting a stream of frames gives back payloads and rest |
| `Utf8.BoundedUtf8` | backend/src/heimdall/runtime/docker_logs.py:379-383 | the longest prefix of whole characters that fits, flagged exactly if something was cut |
| `Utf8.TruncatedDecodesToPrefix` | backend/src/heimdall/runtime/docker_logs.py:379-383 | ignoring the malformed end of a truncated encoding gives that prefix (section 3 of RFC 3629) |
| `Utf8.EncodingRoundTrip` | backend/src/heimdall/runtime/docker_logs.py:379-383 | decoding an encoding gives back the text |
| `LogFrame.EveryLineFits` | backend/src/heimdall/runtime/log_stream_broker.py:347-377 | a line with a bounded message and a Docker timestamp always fits into a frame |
| `LogFrame.FrameTextRoundTrip` | backend/src/heimdall/runtime/log_stream_broker.py:347-358 | a subscriber reads exactly the line that was written |
| `LogFrame.FrameSays` | backend/src/heimdall/runtime/log_stream_broker.py:347-358 | any reader of JSON finds in a frame the type log, the timestamp, STDOUT or STDERR, the message and whether it was cut |
| `LogFrame.StreamRoundTrip` | backend/src/heimdall/runtime/log_stream_broker.py:168-211 | a whole stream of lines survives JSON, UTF-8 and framing |
| `LogFrame.ServiceLogSubscription.Receive` | backend/src/heimdall/runtime/docker_logs.py:271-310 | the first well-formed output becomes a bounded line with an exact flag; malformed ones are skipped; the line fits into a frame |
| `Redaction.RedactedHides` | backend/src/heimdall/runtime/docker_logs.py:288-289 | whatever the message and the other secret values are, a value that has no way to overlap the replacement text does not occur in the redacted message |
| `Redaction.UntouchedStays` | backend/src/heimdall/runtime/docker_logs.py:288-289 | a message without any of the values stays as it is |
| `Redaction.FirstCharacterShows` | backend/src/heimdall/runtime/docker_logs.py:288-289 | a value that does overlap it may be shown by its own replacement |
| `LogFrame.MessageHides` | backend/src/heimdall/runtime/docker_logs.py:288-294 | the same of the bytes a streamed line is made of, cut to their limit behind the redaction |
| `EventStream.LocksExclude` | backend/src/heimdall/deployments/repository.py:675-729 | because a transaction locks the job row of a deployment that is not over or the row of one that is, at most one inserts events of it at a time |
| `EventStream.StepKeeps` | backend/src/heimdall/deployments/repository.py:745-772 | the visible events of a deployment and those of its open transaction form one increasing sequence |
| `EventStream.CommitAppends` | backend/src/heimdall/deployments/repository.py:745-772 | what a transaction inserted becomes visible when it commits, all of it, in its order, behind what was visible of its deployment |
| `EventStream.InsertIsLast` | backend/src/heimdall/deployments/repository.py:745-772 | an inserted event comes last in its transaction, with an id beyond all that is visible |
| `EventStream.VisibleGrows` | backend/src/heimdall/deployments/repository.py:456-469 | what a reader was shown stays the beginning of what later readers are shown |
| `EventStream.CursorCuts` | backend/src/heimdall/deployments/repository.py:456-469 | reading on from the last id seen neither skips nor repeats |
| `EventStream.BatchIsPrefix` | backend/src/heimdall/deployments/repository.py:456-469 | a batch is the beginning of what is visible beyond the cursor |
| `EventStream.Subscription.NextEvent` | backend/src/heimdall/deployments/event_stream.py:146-155 | delivers the next event, or nothing exactly when all visible ones were delivered |
| `EventStream.Subscription.Receive` | backend/src/heimdall/deployments/event_stream.py:103-130 | what is delivered is an increasing, gap-free beginning of the deployment's events after the start, whatever is inserted meanwhile; when it is idle or finished, everything visible before the call, and exactly what was visible at some moment of it, has been delivered |

## Left out

- Which of several claimable jobs a claim picks: the model claims any claimable one, which covers every order and every skipped lock.
- Claim tokens are counted instead of random; only their being different is used.
- Time stamps of rows, subdomain suggestions, retry delays and backoff arithmetic: a retry may be due at any time.
- The text of configuration files inside `RoutingHost` and `Gateway`: a file is the placeholder or a route map with a size, or the deployment it names; `RenderedRoutes`, `EdgeText` and `GatewayText` connect that to the text. Two projects whose ids share their first twelve hexadecimal digits share an upstream name in the edge's file, which nginx refuses.
- nginx beyond its words, braces, comments and quotes, its choice among prefix and exact locations, and named servers and upstreams: escapes, variables, includes and regular expressions do not occur in the two files.
- `RoutingHost` and `DeletionSystem` allow more than the programs do: a deletion worker may give up at any point or leave out looks that change nothing, and an action may come without the heartbeat before it. What is proved of them holds of the programs, which take fewer steps.
- What is inside a private directory: removing an entry is a guarded step with no effect of its own, and a directory goes as a whole. Of databases, roles and secrets there is only whether they are there.
- The configuration snapshot of a deployment is its list of service names, which is what a teardown reads of it.
- What nginx, Docker, Git, HTTP probes and health checks do: each is an answer that may come out either way.
- The candidate file of a gateway activation and the private temporaries of atomic writes: only the files that are read again are modelled.
- Gateway containers, networks and published ports beyond the port of the row: only their answers matter to files and row.
- `cleanup_candidate` of the deployment worker: nothing is claimed about which containers it removes.
- The end of an event stream: nothing is claimed about the last event having been delivered before it.
- Walking a private directory tree by descriptors: a directory is gone afterwards or an error is raised.
- Project database provisioning after the intent: a short chain of versioned updates, of which only the version check is modelled.
- JSON in general: the reader knows objects of strings, whole numbers, truth values and null, and no lone surrogates. Of the frames of a log stream only the lines are modelled.
- Other journals than those that were written: that recovery refuses every text outside the format is what `EdgeJournal.Read` does, and nothing further is claimed about such texts.
- Which values are secret: redaction takes the list as given, without empty ones.
- API routers, authentication, password hashing, secret files and configuration loading.
