# Verified model of the node-replacement service

The service replaces a filtered or failed node of a panel network: it creates a new cloud server,
checks that it is reachable, deploys the panel on it, switches the Master panel over, checks again,
and only then deletes the old server. A replacement is a job row that moves through eighteen durable
checkpoints; workers pick jobs up under a lease, may crash anywhere, and share the database with
operators, monitoring and other jobs. This project models that protocol and the pure parts around it
in Dafny and proves what the service promises about whole histories.

`dafny verify dfyconfig.toml` checks everything. No file needs more than the others in this folder.

## How the protocol is modelled

- `Worker.dfy` is one worker on one job. Every committed database session and every call to a cloud
  provider, the Master, the deployment or the probing service is one step of `Worker.Work`; the
  answer of the outside world is the step's `Input` (success, transient error with or without effect,
  hard error with or without effect, not found, or a value). A crash keeps the rows and drops the
  program counter.
- `Fleet.dfy` is the whole service: all jobs, nodes, Master records, registry rows, servers and the
  clock, with the events trigger, lease, crash, worker step, cancel, monitoring, operation mode,
  foreign edit of the Master, and time. A history is any sequence of events. A situation is
  attainable when no collection of situations closed under the events leaves it out; these are
  exactly the ends of the possible histories (`FleetTheorems.AttainableByHistory`).
- `WorkerInvariant.dfy` holds what is true of a job between any two steps and why every step keeps
  it (`InvMeans` spells the invariant out); `WorkerEffects.dfy` what a step may touch and where it may
  lead; `FleetInvariant.dfy` lifts both to the service. `NodeCoupling.dfy` and `NodeTheorems.dfy` do
  the same for the exact state of a node, which needs one more hypothesis; `NodePromotion.dfy` shows
  what holds of it without any.
- `Decisions.dfy` says of the whole step, in the columns' own terms, which observations lead a worker
  on, back or into a deferral, and what it writes to the registry, the node and the Master.
  `Evidence.dfy` carries that to whole histories: behind every gate a job has passed stands the
  observation the gate asks for.
- `JobGuarantees.dfy`, `JobRuns.dfy`, `JobProgress.dfy`, `JobWitnesses.dfy`, `FleetTheorems.dfy`,
  `NodeTheorems.dfy`, `NodePromotion.dfy`, `Completion.dfy` and `Capacity.dfy` are the other results
  about steps, about runs of one job, and about histories.
- `Crews.dfy` drops the single worker: any number of workers with leases of their own on the same
  jobs. It says when they behave like the service with one worker a job, and what happens otherwise.
- `Orchestrator.dfy` has trigger and cancel as the service performs them on its rows; the state
  machines of node, job and deployment, the health calculator, the guard, the lease row, the adapter
  cache, the simulated provider, the notifier and the known_hosts file are classes with methods.
- The remaining files are the components: `CheckpointGraph`, `NodeLifecycle`, `Health`, `Quorum`,
  `Consensus`, `MasterAlgebra`, `OldVpsGuard`, `Lease`, `Deployment`, `Providers`, `KnownHosts`,
  `Notifier`, `Names`, with `Types` and `Text` below them.

The stage handlers of `app/replacement/orchestrator.py` appear in `Worker.dfy` as follows: created
(347-354) `AtCreated`; provisioning (356-453) `AtProvisioning`, `AtLookup`, `AtMark`, `AtCreate`,
`AtPersist`; provisioned (455-534) `AtProvisioned`, `AtAwait`, `AtGone`, `AtUp`, `AtBoot`; checking
the address (536-670) `AtCheckingIp`, `AtRounds`, `AtJudged`; temporary cleanup (700-760)
`AtTempCleanup`, `AtReap`, `AtReapGet`, `AtReapDelete`, `AtReaped`; deployment (762-845)
`AtIpVerified`, `AtDeploying`, `AtDeploy`; preflight (847-906) `AtNodeVerified`, `AtPreflight`,
`AtShown`, `AtTested`; the switch (908-998) `AtMasterUpdating` to `AtVerified`; rollback (1147-1168)
`AtRollback`, `AtRollWrite`, `AtRollCheck`; the final check (1000-1038) `AtMasterVerified` to
`AtFinalVerified`; the old server (1040-1145) `AtOldVpsCleanup` to `AtDryDone`; the loop of `resume`
(262-300) `AtLoopTop`; failure and cancel (304-320, 1170-1208) `Ended`, `AtFailing`, `Cancel`.

## What is assumed

`FleetInvariant.Possible` says what the histories are taken over, and lemmas named in brackets show
that an assumption is needed:

- a job has one worker at a time. `Crews.TimelyCrewsAreTheService` derives it: any number of workers
  whose every landing step is made under an unexpired lease do what one worker a job does. The code
  looks at the lease only where it renews it, and accepts a lease of 30 seconds beside a readiness
  wait of 3600 that never renews, so that can fail without any fault [`Crews.LongWaitLosesTheLease`,
  `Crews.OverdueRenewalFailsTheJob`, `Crews.OverdueDeletionKillsCurrentServer`];
- a server created by a recorded request is found by name from the grace period on, and new servers
  get new identities (`Worker.Visible`, `Worker.Plausible`) [`JobRuns.InvisibleServerIsDoubled`];
- for what is said of the exact state of a node, and for nothing else: no cancel of a job of that node
  commits between the last deployment transition and the closing commit of the deployment session
  (`NodeTheorems.Punctual`) [`JobRuns.LateCancelIsOverwritten`, `NodeTheorems.OverwrittenCancelStrands`];
  cancels of jobs of other nodes may come at any moment;
- for completion after the deletion, a provider shows a server only while it exists
  (`Completion.Shows`) [`Completion.ShownAfterDeletionLosesBoth`];
- candidate names identify job and attempt -- `Names.NamesAreDistinct`, for a node name that is not
  changed while a job is active and job identities that differ in their first eight digits;
- servers and panel records change only as modelled: nobody else deletes servers; foreign Master
  edits are allowed everywhere and excluded only where `JobRuns.OnlyOwnWrites` says so.

## Where the code falls short of what it says

- The final check can roll the Master back and then defer on a transient error; a later final check
  looks only at the new server, so a job can complete with the Master on the old record, and a fresh
  job can come there (`JobWitnesses.RollbackFromTheStart`). Master verification does compare the record
  again. While nobody else writes the Master and the address changes, the Master shows the new server
  at the deletion if and only if no rollback has landed (`JobRuns.RollbackDecidesMaster`).
- The failure event says that the old server was not deleted. Any hard error that reaches the worker
  after the deletion -- of the delete call, a 404 of that call itself, the final commit, the next look
  at the server, a gate of the loop -- has the job recorded as failed although the server is gone
  (`Completion.HardErrorLosesBoth`, `Completion.CommitErrorLosesBoth`; from a fresh job
  `JobWitnesses.FailedDeletionFromTheStart`), unless the worker dies before it is recorded;
  `Completion.PhaseIsExact` follows a job through every history step by step.
- Cancel looks at the recorded switch only, so it can leave the Master switched
  (`JobRuns.CancelMissesLandedSwitch`, `JobWitnesses.SwitchedCancelFromTheStart`) -- exactly when a
  switch has landed or the worker is past the last renewal in front of one, and never before
  MASTER_UPDATING (`JobRuns.CancelLeavesMasterExactly`, `FleetTheorems.CancelledJobsLeaveTheMaster`).
- Just before the closing deployment commit a cancel is overwritten (`JobRuns.LateCancelIsOverwritten`,
  `JobWitnesses.OverwrittenCancelFromTheStart`).
  A worker that gets to its next renewal ends the job there and gives the node back
  (`JobRuns.StrayWorkerEnds`); if it dies or is deferred before, the node stays in VERIFYING until an
  operator changes its mode or cancels the job again (`NodeTheorems.StrandedStays`).
- A worker whose lease has been taken over fails the job under its new holder at its next renewal, and
  is not stopped by the lease from deleting the old server of a job that has been recorded as failed
  (`Crews.OverdueRenewalFailsTheJob`, `Crews.OverdueDeletionKillsCurrentServer`).
- A failure threshold of one is accepted by the configuration, but HEALTHY to FAILED is no edge of
  the lifecycle: each such check is refused and the node never fails (`Health.CheckIsRefusedExactly`).
- One run of `resume` is limited to 64 steps. With at most thirteen attempts that is never met, with
  fourteen it can be (`JobGuarantees.StepLimitIsNeverMet`, `JobProgress.LimitIsMet`).

## Model

| member | source | states |
|---|---|---|
| FleetTheorems.ServersDieSafely | app/replacement/orchestrator.py:1040-1145 | in every history of any jobs, workers, crashes and cancels, with one worker a job at a time, a server dies only as a job's own candidate under its deterministic name, or as the old server of a live job at OLD_VPS_CLEANUP with all five markers set for an unchanged candidate and with the deletion of old servers enabled; a current server only in the second way |
| FleetTheorems.DisabledDeletionSpares | app/replacement/orchestrator.py:1057-1061 | while the deletion of old servers is disabled every event leaves every living server alive but some job's own candidate |
| FleetTheorems.DisabledDeletionWaits | app/replacement/orchestrator.py:1057-1061 | and a live job at OLD_VPS_CLEANUP stays there with its old server alive: its step through the stage's door defers, and only a recorded error ends it |
| FleetTheorems.CompletionByEvent | app/replacement/orchestrator.py:1115-1145 | a live job is completed only by its own last commit; it leaves the node HEALTHY at the candidate's host with the deployed panel's port, user, base path, password and token references, no failures and at least one success, the old server DELETED, the candidate CURRENT and RUNNING, and every other row of nodes, servers and registry as it was |
| FleetTheorems.ModeChangeIsExact | app/control/service.py:426-453 | a mode change disables a node without an active job, enables exactly a disabled one, and changes nothing else |
| Evidence.GateWasEarned | app/replacement/orchestrator.py:249-345 | over every history: behind each gate a live job has passed -- address, deployment, record, probe, switch, comparison, final check, look, deletion, reaping -- stands the observation the gate asks for, made by its own worker at some moment, for the candidate and attempt it still has; a switch recorded by then is the last one |
| Evidence.DeletionIsBacked | app/replacement/orchestrator.py:1040-1145 | so whenever a current server dies the job that kills it has, for the candidate it still has, made every one of those observations up to the look at the old server |
| Evidence.CompletionIsBacked | app/replacement/orchestrator.py:1115-1145 | and whenever a live job completes, also that the old server's deletion succeeded or a look missed it |
| Evidence.ArrivalIsEarned | app/replacement/orchestrator.py:322-345 | one step of a live job comes behind a gate only by the observation the gate asks for |
| Decisions.ComparisonDecides | app/master/client.py:144-173 | a worker arrives where the Master is recorded as verified if and only if the record and the probe just read show scheme, address, port, base path, enable, TLS mode and pin as sent, the token, and a panel that is online and running or says nothing; and at the rollback if and only if they do not |
| Decisions.FinalCheckDecides | app/replacement/orchestrator.py:1011-1031 | a real job passes its final check if and only if the verdict is REACHABLE, is rolled back if and only if it is UNREACHABLE, and is deferred by INDETERMINATE |
| Decisions.RoundsDecide | app/replacement/orchestrator.py:549-582 | a real candidate is judged if and only if the rounds reach that consensus; without one the job is deferred |
| Decisions.LossDecides | app/replacement/orchestrator.py:455-534 | a candidate counts as lost if and only if the readiness wait does not find it |
| Decisions.SearchDecides | app/replacement/orchestrator.py:356-386 | a server is searched for if and only if the registry holds none of the job that is not deleted |
| Decisions.AmbiguousCreateDefers | app/replacement/orchestrator.py:388-417 | a create without an answer lets go of the job, whatever it left at the provider, and one the policy forbids is an error that creates nothing |
| Decisions.PreflightDecides | app/replacement/orchestrator.py:874-890 | a record is taken for the switch if and only if it is neither transitive nor mTLS and its token can be restored; every other one is an error |
| Decisions.OldLookDecides | app/replacement/orchestrator.py:1091-1113 | the old server's deletion is asked for if and only if a look shows its identity at its registered address |
| Decisions.ReapLookDecides | app/replacement/orchestrator.py:725-745 | a candidate's deletion is asked for if and only if a look shows its identity under its own name, at its registered address if it has one |
| Decisions.ReapingDecides | app/replacement/orchestrator.py:700-750 | a candidate is let go if and only if its deletion succeeded, a look missed it, or its row says it is deleted |
| Decisions.DeletionDecides | app/replacement/orchestrator.py:1091-1113 | the old server counts as gone if and only if its deletion succeeded or a look missed it |
| Decisions.MismatchesAreErrors | app/replacement/orchestrator.py:1092-1113 | a look that shows something else and a delete call that finds nothing are errors; a dry run takes a missing server for deleted |
| Decisions.AnswerDecides | app/replacement/orchestrator.py:932-950 | a switch counts as made if and only if its call was answered |
| Decisions.RetiringNeedsPermission | app/replacement/orchestrator.py:1057-1070 | a worker comes to the old server only through the stage's door with deletion enabled and its lease renewed |
| Decisions.SwitchedRecord | app/replacement/orchestrator.py:919-945 | a landed switch shows the candidate's address, the panel's scheme, port and base path and a token, carries the other columns over from the snapshot, and leaves the record's identity alone |
| Decisions.RolledBackRecord | app/replacement/orchestrator.py:1147-1168 | a landed rollback shows every column of the snapshot again |
| Decisions.RollbackDecides | app/replacement/orchestrator.py:1147-1168 | a rollback is checked if and only if its call was answered, and the job then fails if and only if the check is answered or ends in a hard error |
| Decisions.DryRunSnapshot | app/replacement/orchestrator.py:855-873 | the snapshot of a dry run, once saved, stays; a new one describes the node where it is |
| Decisions.RegistersWhatIsShown | app/replacement/orchestrator.py:386-421 | a server is going to be registered if and only if a lookup found it or an allowed create made it, with the state and address the provider gave |
| Decisions.CandidateRowMoves | app/replacement/orchestrator.py:422-534 | what becomes of the candidate's row when it is registered, up, lost, or put away by a dry run |
| Decisions.DeploymentRowMoves | app/replacement/orchestrator.py:762-845 | a deployment row starts PENDING for the attempt and its candidate, moves one state at a time along its graph, and takes its configuration only when it has succeeded |
| Decisions.BrokenDeploymentIsRecorded | app/replacement/orchestrator.py:801-823 | a session that ends in an error leaves the row FAILED, or SUCCEEDED when that was reached |
| Decisions.NodeMoves | app/replacement/orchestrator.py:782-845 | a step changes a node only from REPLACING to DEPLOYING, to VERIFYING when the session found DEPLOYING, at completion, or back after a failure |
| Decisions.ErrorsDecide | app/replacement/orchestrator.py:266-299 | wherever a gate, a pause or a retryable error can meet a worker it releases the lease and leaves the job as it is; any other exception is going to be recorded |
| Decisions.OtherErrors | app/replacement/orchestrator.py:288-299 | in every other session an exception is going to be recorded |
| Decisions.CompletionRows | app/replacement/orchestrator.py:1115-1145 | one step completes a live job only behind the deletion, and leaves exactly the rows named above |
| FleetTheorems.NoDuplicateServers | app/replacement/orchestrator.py:356-453 | two servers a live job ever created under one attempt's name are the same server |
| FleetTheorems.CreationsAreBounded | app/replacement/orchestrator.py:378-417 | a live job never creates more servers than it has attempts, whatever crashes and ambiguous create errors occur |
| NodeTheorems.NodesFollowJobs | app/replacement/orchestrator.py:230-234 | a node is in REPLACING, DEPLOYING or VERIFYING exactly while a live job works on it, in the state that job's checkpoint fixes; at most one active job per node; over all histories without an overwritten cancel of a job of that node |
| NodeTheorems.WorkflowNodesAreLeftAlone | app/control/service.py:426-453 | monitoring and mode changes leave the whole service unchanged on a node a live job works on, over all histories without an overwritten cancel of a job of that node |
| FleetTheorems.AdmissionHolds | app/replacement/orchestrator.py:170-198 | active jobs never exceed the concurrency limit, one active job per node, one job per request key |
| NodeTheorems.NodeRoundTrip | app/replacement/orchestrator.py:1191-1208 | a live job that ends FAILED or CANCELLED leaves its node in the state found at trigger, or FAILED after a recorded switch, and in both cases with the counters found at trigger; over all histories without an overwritten cancel of a job of that node |
| FleetTheorems.EndsByFailing | app/replacement/orchestrator.py:1170-1189 | a live job that stops being active without completing was ended by the failure path |
| FleetTheorems.OriginStaysAlong | app/replacement/orchestrator.py:206-221 | no history removes a job or changes what it was admitted with, and a saved Master snapshot stays |
| FleetTheorems.CancelledJobsLeaveTheMaster | app/replacement/orchestrator.py:304-320 | a live job cancelled before MASTER_UPDATING, or later with no switch landed and its worker not past the last renewal in front of one, never switches the Master in any history that follows |
| FleetTheorems.AttainableByHistory | app/replacement/orchestrator.py:249-320 | what the histories lead to is the least collection of situations that no event leaves |
| NodeTheorems.AfterSettled | app/replacement/orchestrator.py:1191-1208 | every event but a cancel of a job of the node in front of its closing deployment commit keeps the node and its jobs in agreement |
| NodeTheorems.OverwrittenCancelStrands | app/replacement/orchestrator.py:792-845 | such a cancel, the closing commit and the death of the worker leave the node in VERIFYING with no active job and no worker |
| NodeTheorems.StrandedStays | app/replacement/orchestrator.py:304-320 | from then on nothing but an operator's mode change or another cancel of a job of the node changes its row, over any history |
| Capacity.TemporaryServersAreBounded | app/replacement/orchestrator.py:370-421 | undeleted temporary rows never exceed the temporary limit plus the concurrency limit minus one, although the count is read long before the create |
| Capacity.BurdensOnlyByLeave | app/replacement/orchestrator.py:370-417 | a job starts to count towards capacity only by entering provisioning with a count below the limit |
| Capacity.CountIsHolders | app/database/repositories/registry.py:228-237 | the number of undeleted replacement rows is the number of jobs whose candidate is undeleted |
| NodePromotion.FinalCommitIsPossible | app/replacement/orchestrator.py:1115-1145 | in every history, with cancels at any moment, a live job at its last checkpoint finds its node in a state that may become HEALTHY, and the rows its final commit reads are there |
| NodePromotion.AfterOpen | app/replacement/orchestrator.py:249-320 | every possible event leaves the nodes of live jobs out of the states their jobs have passed |
| Completion.PhaseIsExact | app/replacement/orchestrator.py:1091-1145 | from the deletion of its old server on the phase of a job is known exactly along every history that follows an attainable situation, cancels at any moment included, as long as the provider shows the job only servers that exist: only a hard error takes it off its way, only the step after it records it FAILED, and the death of the worker in between brings it back |
| Completion.OldDeletionLeadsToCompletion | app/replacement/orchestrator.py:1091-1145 | so over every such history it can end only COMPLETED as long as no hard error of any session or call reaches its worker, whatever crashes, deferrals, cancels and other jobs come |
| Completion.FinishingStep | app/replacement/orchestrator.py:1091-1145 | one step keeps such a job on its way or completes it if and only if no hard error reaches its worker, whichever state the node is in that its way leaves open |
| Completion.DeletionOutcome | app/replacement/orchestrator.py:1092-1113 | after a delete that reached the provider the job is on its way to completion if and only if the call did not end in a hard error |
| Completion.HardErrorLosesBoth | app/replacement/orchestrator.py:1170-1189 | after a hard error of a delete call that landed the job is recorded FAILED although the old server is gone, and its node too if it was in the state of its checkpoint |
| Completion.CommitErrorLosesBoth | app/replacement/orchestrator.py:1115-1145 | so they are after a hard error of the final commit |
| Completion.ShownAfterDeletionLosesBoth | app/replacement/orchestrator.py:1091-1113 | if the provider still shows the deleted server the job asks for its deletion again, the 404 of that call is a hard error, and the job is recorded FAILED with its old server gone |
| FleetInvariant.HistoryOrderly | app/replacement/orchestrator.py:140-320 | every history from a service without jobs, with cancels at any moment, keeps the invariant of all jobs, servers and Master logs |
| FleetInvariant.AfterOrderly | app/replacement/orchestrator.py:249-320 | every single event keeps it |
| FleetInvariant.BesideKeeps | app/replacement/orchestrator.py:249-320 | a step of one job keeps the invariant of every other job, also of one on the same node |
| FleetInvariant.AdmitOrderly | app/replacement/orchestrator.py:200-247 | admitting a job keeps the invariant: it starts with nothing requested, nothing verified and every attempt ahead |
| FleetInvariant.MonitorOrderly | app/workers/monitoring.py:148-153 | a monitoring result keeps it |
| FleetInvariant.SetModeOrderly | app/control/service.py:426-453 | an operation-mode change keeps it |
| Orchestrator.ReplacementOrchestrator.Trigger | app/replacement/orchestrator.py:140-247 | answers with the job the request key or the node already has, refuses, or admits exactly an admissible request, and leaves exactly the rows the event leaves |
| Orchestrator.AdmissionIsExact | app/replacement/orchestrator.py:150-247 | a trigger adds a job if and only if the key fits and is new, admission is open, the provider active, the limit not reached, the node known, free, with a current server and in a state the request may enter; the job's columns, the node in REPLACING, and nothing else changed |
| Orchestrator.RepliesAreExact | app/replacement/orchestrator.py:155-198 | when a trigger is answered with a new job and when with which existing one |
| Orchestrator.ReplacementOrchestrator.CancelJob | app/replacement/orchestrator.py:304-320 | cancels exactly the jobs at a checkpoint that is not terminal and without a recorded switch, whenever it comes, and changes nothing otherwise |
| Orchestrator.RestoreNodeAfterUnsuccessfulJob | app/replacement/orchestrator.py:1191-1208 | puts a node of the workflow back, or in FAILED, and leaves any other alone |
| JobGuarantees.DeletionsAreSafe | app/replacement/orchestrator.py:725-745 | one step kills a server only as an own old server behind all gates or as an own candidate, and only in the world, real or simulated, the job works in; that deletion must be enabled is said by Decisions.RetiringNeedsPermission and FleetTheorems.ServersDieSafely |
| JobGuarantees.GuardNeverDenies | app/replacement/safety.py:18-68 | in every situation the protocol reaches at OLD_VPS_CLEANUP all eighteen clauses hold |
| JobGuarantees.MarkersFormPrefix | app/replacement/orchestrator.py:549-582 | the verification markers form a prefix of the gate order in every state, ended jobs included, and exactly fit the checkpoint of an active job |
| JobGuarantees.DeferralKeepsProtected | app/replacement/orchestrator.py:266-287 | a dispatch that ends in a deferral leaves checkpoint, attempt, candidate and markers as they were when the stage was entered |
| JobGuarantees.CleanupIsEarned | app/replacement/orchestrator.py:563-582 | TEMP_CLEANUP is entered only on a verdict against the candidate or after the provider lost it |
| JobGuarantees.VerdictsAreObserved | app/replacement/orchestrator.py:660-670 | that verdict is the consensus of the observed rounds; a lost candidate is a not-found of the readiness wait |
| JobGuarantees.DryRunTouchesNothingReal | app/replacement/orchestrator.py:1056-1089 | a step of a dry run leaves node, Master, real servers and current server rows unchanged |
| JobGuarantees.AdvancesAreBounded | app/replacement/orchestrator.py:752-760 | over its whole life a job is advanced at most 4 * attempts + 10 times |
| JobGuarantees.StepLimitIsNeverMet | app/replacement/orchestrator.py:262-300 | with at most thirteen attempts no run meets the limit of 64 steps on an unfinished job |
| JobGuarantees.NodeMovesAreLegal | app/services/node_state.py:15-38 | while nodes and jobs agree no step asks the node lifecycle for a transition it refuses |
| JobRuns.DryRunIsHarmless | app/replacement/orchestrator.py:347-1089 | no run of a dry-run job, with all stages, failures, crashes and cancels, changes anything real |
| JobRuns.TargetIsOneForAll | app/replacement/orchestrator.py:908-978 | from MASTER_UPDATING on the mutation sent and the one verified are built from one target, across any crashes and runs |
| JobRuns.StepKeepsTarget | app/replacement/orchestrator.py:919-930 | no step from MASTER_UPDATING on changes that target |
| JobRuns.UnsuccessfulEndRestoresNode | app/replacement/orchestrator.py:1191-1208 | the node row after an unsuccessful end, state and counters |
| JobRuns.RollbackDecidesMaster | app/replacement/orchestrator.py:1000-1031 | if since the first switch only the job has written the Master and the address changes, then when the old server is deleted the Master is on the target in every field if and only if no rollback of the job has landed |
| JobRuns.MasterIsSwitchedAtDeletion | app/replacement/orchestrator.py:932-945 | without a landed rollback it is, with the candidate's address and panel port, whatever the old address was |
| JobRuns.CancelLeavesMasterExactly | app/replacement/orchestrator.py:304-320 | a cancel the service accepts can be followed by a switched Master if and only if a switch has landed or the worker is past the last renewal in front of one; before MASTER_UPDATING it never is |
| JobRuns.CancelMissesLandedSwitch | app/replacement/orchestrator.py:304-320 | a run in which a cancel between the Master update and its recording leaves a CANCELLED job with the Master switched |
| JobRuns.LateCancelIsOverwritten | app/replacement/orchestrator.py:792-845 | a cancel just before the closing commit of a deployment is overwritten: an inactive job at NODE_VERIFIED and a node in VERIFYING |
| JobRuns.StrayWorkerEnds | app/replacement/orchestrator.py:847-877 | the worker that has overwritten it is refused at its next renewal, ends the job as FAILED and gives the node back as the job found it; if it dies or is deferred before, nobody takes the job up |
| JobRuns.MissedServer | app/replacement/orchestrator.py:386-395 | a lookup that misses a server of the present request after the grace period contradicts visibility |
| JobRuns.InvisibleServerIsDoubled | app/replacement/orchestrator.py:396-417 | without visibility within the grace period a second server of the same name is created |
| JobProgress.BoundIsMet | app/replacement/orchestrator.py:262-300 | some run advances a job exactly 4 * attempts + 10 times and completes it: the bound is exact |
| JobProgress.LimitIsMet | app/replacement/orchestrator.py:262-300 | with fourteen attempts or more one run can meet the 64-step limit on an unfinished job and lets go of it, the job still active |
| JobProgress.CueOnward | app/replacement/orchestrator.py:249-300 | in a cooperating world every step of a worker leads on towards completion |
| JobProgress.FreshIsOnTrack | app/replacement/orchestrator.py:206-221 | a job as it is admitted stands at the start of such a run |
| JobWitnesses.RollbackFromTheStart | app/replacement/orchestrator.py:1021-1031 | from a freshly admitted job a run leads to COMPLETED with the node on the new server and the Master on the other address it had at admission: a rollback is written, its check deferred, and a later final check passes |
| JobWitnesses.RollbackCanSurvive | app/replacement/orchestrator.py:1021-1031 | so it goes from any final check of a cooperating run |
| JobWitnesses.DeferredRollback | app/replacement/orchestrator.py:1147-1168 | the rollback writes the old address and a transient check defers the job |
| JobWitnesses.StageIsReached | app/replacement/orchestrator.py:249-300 | in a cooperating world a run leads into every stage from the verified address on, keeping the snapshot of the old address and the address of the candidate |
| JobWitnesses.SwitchedCancelFromTheStart | app/replacement/orchestrator.py:304-320 | from a freshly admitted job a run leads to CANCELLED, the node given back, with the Master on the new server |
| JobWitnesses.OverwrittenCancelFromTheStart | app/replacement/orchestrator.py:792-845 | from a freshly admitted job a run leads to an inactive job at NODE_VERIFIED that nobody takes up, with its node in VERIFYING |
| JobWitnesses.FailedDeletionFromTheStart | app/replacement/orchestrator.py:1170-1189 | from a freshly admitted job a run leads to a job and a node recorded FAILED with the old server gone |
| WorkerInvariant.WorkKeeps | app/replacement/orchestrator.py:322-345 | every step of a worker keeps the invariant of its job, whatever the outside answers |
| WorkerInvariant.CancelKeeps | app/replacement/orchestrator.py:304-320 | a cancel keeps it at every moment |
| WorkerInvariant.InvMeans | app/replacement/orchestrator.py:249-320 | what the invariant says of the rows and of the worker |
| NodeCoupling.WorkCoupled | app/replacement/orchestrator.py:230-234 | every step keeps the node of a live job in the state of its checkpoint, and only a live job's step touches its node |
| NodeCoupling.EndingRestores | app/replacement/orchestrator.py:1191-1208 | an unsuccessful end gives the node back as found, or leaves it FAILED after a recorded switch |
| WorkerInvariant.EndingIsNeverRefused | app/replacement/orchestrator.py:1170-1208 | ending an active job is never refused, and what becomes of job and node |
| WorkerInvariant.CommitKeeps | app/replacement/state.py:83-108 | ending a stage keeps the invariant; on a job cancelled meanwhile the move is refused and the session rolled back |
| WorkerInvariant.MissMeansNoServer | app/replacement/orchestrator.py:386-395 | a miss that may lead to a create shows that nothing exists under the attempt's name |
| WorkerInvariant.CreateIsStamped | app/replacement/orchestrator.py:396-417 | every server a step creates carries the time of a request recorded before and the name of its attempt |
| WorkerInvariant.StampedRows | app/replacement/orchestrator.py:398-402 | recording a new request keeps the rows in order |
| WorkerInvariant.BornRows | app/replacement/orchestrator.py:406-412 | a server created under the stamped request keeps one server per attempt |
| WorkerInvariant.PersistRows | app/replacement/orchestrator.py:419-453 | registering the created or found server keeps the rows in order |
| WorkerInvariant.RetryRows | app/replacement/orchestrator.py:747-758 | unlinking a rejected candidate opens a new attempt under which nothing was created |
| WorkerInvariant.LastAttemptKeeps | app/replacement/orchestrator.py:747-760 | the last attempt commits the unlink and then fails |
| WorkerInvariant.IpVerifiedRows | app/replacement/orchestrator.py:762-790 | the deployment row is created for this attempt and candidate, the node moves to DEPLOYING |
| WorkerInvariant.InstalledRows | app/replacement/orchestrator.py:830-845 | the closing commit passes the deployment gate, on a job cancelled meanwhile too, and keeps the rows in order |
| WorkerInvariant.SwitchRows | app/replacement/orchestrator.py:932-936 | a switch puts the Master on the target built from the snapshot, whether or not its answer arrives |
| WorkerInvariant.RollbackRows | app/replacement/orchestrator.py:1147-1168 | a rollback writes the snapshot back |
| WorkerInvariant.ReplacedRows | app/replacement/orchestrator.py:1115-1145 | the final commit is possible and keeps the rows in order; what it writes column by column is Decisions.CompletionRows |
| WorkerEffects.WorkTouches | app/replacement/orchestrator.py:347-1145 | one step changes only what belongs to its job: its candidate, a live job's old server, the node of a job that is not a dry run, at most one signed Master write |
| WorkerEffects.WorkFlows | app/replacement/orchestrator.py:322-345 | where each step may lead beside staying, releasing the lease and raising; on which observation it leads where is said by the Decisions rows |
| Lease.LeaseRow.TryAcquire | app/database/repositories/registry.py:177-200 | one conditional update: granted exactly to an active job that is free, expired or held by the same token |
| Lease.LeaseRow.Release | app/database/repositories/registry.py:201-209 | only the holder's release clears the lease |
| Lease.TimelyWorkersAreExclusive | app/replacement/orchestrator.py:1210-1236 | no two workers hold unexpired leases of one job, for any number of workers, renewals, releases and crashes |
| Lease.TimelyWorkerKeepsTheJob | app/replacement/orchestrator.py:1227-1236 | while one worker is timely nobody else is granted the job, and its own renewal is refused only when the job has ended |
| Lease.ForeignReleaseIsNoOp | app/replacement/orchestrator.py:1222-1225 | a release by a worker that does not hold the lease changes nothing for the one that does |
| Lease.ReleasedIsFree | app/database/repositories/registry.py:201-209 | after the release by its own timely worker an active job is granted to anybody |
| Lease.FinishedStaysFree | app/database/repositories/registry.py:186-196 | a finished job is never leased again |
| Lease.CrashedLeaseExpires | app/database/repositories/registry.py:186-196 | after its holder crashed an active job is granted to a newcomer exactly from the expiry on |
| Lease.LateWorkerLosesTheJob | app/replacement/orchestrator.py:1227-1236 | a worker that outlives its expiry can be refused while the job is still active |
| Lease.RenewsByThirds | app/replacement/orchestrator.py:690 | the interval is a third of the lease, but no less than one second and no more than thirty |
| Lease.SleepWithLease | app/replacement/orchestrator.py:681-698 | sleeps the time asked for in slices no longer than a third of the lease, with a look at the pause switch before each and a renewal after each, and stops at the first that says so |
| Crews.TimelyCrewsAreTheService | app/replacement/orchestrator.py:249-300 | any number of workers on any jobs: as long as every step that lands is made under an unexpired lease, the rows are those of an attainable situation of the service with one worker a job |
| Crews.RefusedRenewalRaises | app/replacement/orchestrator.py:1227-1236 | at each of the sessions that renew, a refused renewal raises and leaves the job as it is |
| Crews.OverdueRenewalFailsTheJob | app/replacement/orchestrator.py:272-299 | the error of a refused renewal records the job FAILED while another worker holds it under an unexpired lease |
| Crews.LongWaitLosesTheLease | app/providers/base.py:47-72 | the readiness wait renews nothing: a worker can come out of it with its lease taken over, at a step that renews |
| Crews.OverdueDeletionKillsCurrentServer | app/replacement/orchestrator.py:1091-1113 | an overdue worker about to delete the old server is not stopped: after the new holder recorded the job and its node FAILED it deletes the node's current server |
| Crews.ClaimsAreLeaseRows | app/database/repositories/registry.py:177-200 | renewals write the lease row as the conditional update does |
| CheckpointGraph.JobRow.Transition | app/replacement/state.py:83-108 | moves along the graph with the coarse state beside the checkpoint, stamps start and end, frees the slot on a terminal checkpoint; a refusal changes nothing |
| CheckpointGraph.TransitionKeepsRowValid | app/replacement/state.py:98-107 | coarse state, slot, start and end stamps always fit the checkpoint |
| CheckpointGraph.CoarseStates | app/replacement/state.py:54-75 | which checkpoints share a coarse state |
| CheckpointGraph.ForwardMovesDecrease | app/replacement/state.py:22-43 | off the retry edge every forward move comes closer to the end; the retry edge pays with an attempt |
| CheckpointGraph.GraphHasArbitrarilyLongPaths | app/replacement/state.py:22-43 | the graph alone has a cycle and bounds nothing |
| CheckpointGraph.VerifiedHalfIsClosed | app/replacement/state.py:30-43 | from IP_VERIFIED on every forward path climbs one gate at a time and never returns |
| OldVpsGuard.AssertCanDelete | app/replacement/safety.py:18-68 | collects exactly the missing clauses, in order; the list is empty if and only if all eighteen gates are open |
| OldVpsGuard.PermitsExactly | app/replacement/safety.py:18-68 | a permission says that the rows are the job's own and belong together, the servers are two, the old one in service, the new one up and standing by, and all verified |
| NodeLifecycle.Node.Transition | app/services/node_state.py:118-139 | moves along the ordinary graph or refuses; only a real change moves the timestamp |
| NodeLifecycle.Node.TransitionForcedReplacement | app/services/node_state.py:57-83 | enters replacement from every operational state and refuses DISABLED and workflow states |
| NodeLifecycle.Node.RestoreAfterForcedReplacement | app/services/node_state.py:85-116 | puts a node back from the workflow, idempotent outside it |
| NodeLifecycle.OnlyFailureOpensTheWorkflow | app/services/node_state.py:15-38 | the ordinary graph enters the workflow only from FAILED to REPLACING |
| NodeLifecycle.LifecycleShape | app/services/node_state.py:15-38 | from which states each state may be entered |
| NodeLifecycle.ForceThenRestore | app/services/node_state.py:57-116 | forcing and restoring is the identity exactly on the states a force repair accepts |
| Health.NodeHealthCalculator.Apply | app/monitoring/health.py:62-102 | counters and state of one check, recovery judged by the recovery threshold, and the audit event told by the change of state |
| Health.RegisteredLivesAreSound | app/monitoring/health.py:62-102 | after every history of checks, jobs and mode changes of a newly registered node the failure counter is the length of the run of UNREACHABLE decisions, at most one counter is nonzero, HEALTHY means no failures |
| Health.HistoriesAreSound | app/monitoring/health.py:62-102 | every such history keeps that |
| Health.FailedOnlyAfterThreshold | app/monitoring/health.py:91-100 | monitoring enters FAILED only after the threshold's number of consecutive UNREACHABLE decisions |
| Health.RecoversExactly | app/monitoring/health.py:79-90 | a check makes a node HEALTHY if and only if it completes a run of recovery-threshold REACHABLE decisions on a node that monitoring may move |
| Health.FailsExactly | app/monitoring/health.py:91-97 | FAILED if and only if it completes a run of failure-threshold UNREACHABLE decisions on an UNKNOWN or DEGRADED node |
| Health.DegradesExactly | app/monitoring/health.py:98-100 | DEGRADED if and only if an UNREACHABLE decision about an UNKNOWN or HEALTHY node completes no such run |
| Health.EventsTellChanges | app/monitoring/health.py:79-102 | each event is raised if and only if the state changes accordingly, and no column but state and counters moves |
| Health.CheckIsRefusedExactly | app/monitoring/health.py:91-100 | a check is refused if and only if the node is HEALTHY, the decision UNREACHABLE and the threshold one |
| Health.ThresholdOneNeverFails | app/core/config.py:64 | under a threshold of one a HEALTHY node never leaves HEALTHY by monitoring |
| Health.AbandonUndoesEnter | app/replacement/orchestrator.py:1191-1208 | a job that ends unsuccessfully before the switch undoes its entry on state and counters, after it leaves FAILED |
| Quorum.QuorumIsExact | app/monitoring/health.py:36-49 | REACHABLE (UNREACHABLE) if and only if every resolution of open probes gives that verdict, INDETERMINATE if and only if both are possible |
| Quorum.TooFewProbesStayOpen | app/monitoring/health.py:36-49 | with too few probes the verdict stays open under every resolution |
| Quorum.CountsAddUp | app/monitoring/types.py:45-63 | the four counts add up to the number of probes |
| Consensus.VerifyCandidate | app/replacement/orchestrator.py:585-670 | runs the rounds with four counters that add up to the rounds done and gives the consensus verdict |
| Consensus.VerdictIsOrderFree | app/replacement/orchestrator.py:591-670 | counters and verdict depend only on the multiset of rounds |
| Consensus.RejectionNeedsConsensus | app/replacement/orchestrator.py:666-670 | UNREACHABLE if and only if enough rounds were filtered and too few were clean; REACHABLE if and only if enough were clean |
| MasterAlgebra.RebuiltTargetsAgree | app/replacement/orchestrator.py:892-930 | the target probed at preflight equals the one rebuilt from the snapshot if and only if the record still agrees with the snapshot in what a switch carries over |
| MasterAlgebra.RollbackInvertsUpdate | app/master/types.py:61-161 | update and rollback from the snapshot give every field of the record back except the token flag |
| MasterAlgebra.SnapshotRoundTrip | app/master/types.py:61-161 | a snapshot rebuilds the record if and only if the record could have been parsed |
| MasterAlgebra.SnapshotReadsAsRecord | app/master/types.py:139-161 | any payload, read as a snapshot, gives the mutation that writes back the record it is read as |
| MasterAlgebra.EveryPayloadParses | app/master/types.py:32-59 | parsing never leaves scheme, TLS mode or sync mode empty |
| MasterAlgebra.BareRecord | app/master/types.py:32-59 | the record of a payload with nothing but its identity, its keys missing or null |
| MasterAlgebra.StoredIsOverlay | app/master/client.py:119-125 | updating the stored object and parsing it is the overlay of the parsed record |
| MasterAlgebra.VerifyNode | app/master/client.py:144-173 | collects exactly the differing fields, the missing token and the bad status words |
| MasterAlgebra.FreshWriteVerifies | app/master/client.py:144-173 | a record just written verifies if and only if the panel reports it online and running, or says nothing |
| DeploymentService.DeploymentRow.Transition | app/deployment/state.py:35-52 | moves along the deployment graph, stamps start and end, refuses everything else |
| DeploymentService.Deployer.Deploy | app/deployment/service.py:54-139 | resumes from the persisted state; succeeds if and only if everything still ahead goes through, then with exactly the remaining operations done; walked states and outcome as specified |
| DeploymentService.Deployer.SimulateSuccess | app/deployment/service.py:141-177 | a dry run walks exactly the remaining states; a failed deployment stays failed |
| DeploymentService.DeploymentEndsWell | app/deployment/service.py:83-129 | a call ends SUCCEEDED or FAILED, succeeds only in SUCCEEDED, and reaches it only by walking all remaining states |
| DeploymentService.SucceedsExactly | app/deployment/service.py:83-115 | a call succeeds if and only if the start is not FAILED, every remaining state is accepted and every remaining operation succeeds; then exactly those operations were done, in order |
| DeploymentService.FailureStopsShort | app/deployment/service.py:116-129 | a call that ends FAILED has walked a part of the remaining states before |
| DeploymentService.InstallationsAreCareful | app/deployment/service.py:96-106 | nothing is installed over an installation that is found, nor once the state says it was installed |
| DeploymentService.RollsBackExactly | app/deployment/service.py:117-129 | a call rolls back if and only if it fails after an installation may exist and the failure could be recorded |
| DeploymentService.ResumesWhereItStopped | app/deployment/service.py:83-115 | after a crash what was walked and what is ahead make the same path, and the next state is the one the protocol takes |
| Providers.LiveExactly | app/providers/factory.py:19-38 | a live adapter is made if and only if the host is live-capable and the caller does not ask for a dry run, a simulated one if and only if host or caller ask for it; a job is no dry run if and only if none of the host's three switches forbids it and the stored mode is LIVE |
| Providers.ProviderManager.Get | app/providers/manager.py:22-31 | one adapter per provider and mode; a dry-run slot never holds a live adapter |
| Providers.ProviderManager.Close | app/providers/manager.py:33-37 | empties the cache and closes every adapter that was in it |
| Providers.DryRunProvider.CreateServer | app/providers/dry_run.py:25-42 | adds one living server under a key never used before |
| Providers.DryRunProvider.GetServer | app/providers/dry_run.py:44-48 | every server ever created is found under the name it was asked for, deleted ones too, and is among the living that the lookup by name sees exactly until it is deleted |
| Providers.DryRunProvider.FindServerByName | app/providers/dry_run.py:50-56 | none, the only living server of the name, or an error when there are several |
| Providers.DryRunProvider.DeleteServer | app/providers/dry_run.py:58-68 | marks a known server deleted, so that its name is free |
| Providers.PolicyIsTheGate | app/providers/policy.py:38-44 | the create step is allowed if and only if the policy, fed with the other active jobs, breaks no limit |
| Providers.WaitUntilReady | app/providers/base.py:47-72 | the first decisive poll decides: ready means running with an address, a poll that raises ends the wait with its error |
| KnownHosts.ManagedFile.WriteCandidate | app/deployment/host_keys.py:142-166 | drops the lines of the endpoint and appends the new entry |
| KnownHosts.ManagedFile.LoadTrustedKey | app/deployment/host_keys.py:50-79 | none, the only key filed for the endpoint, or an error on conflicting ones |
| KnownHosts.LoadRefinesMap | app/deployment/host_keys.py:23-79 | after any writes from an empty file a load gives the key last trusted for the endpoint and nothing elsewhere |
| KnownHosts.WrittenIsTrusted | app/deployment/host_keys.py:142-166 | in any file, also one that others wrote, a load after a write gives the key just trusted if and only if no kept line that lists the endpoint beside other names gives it another key; otherwise it is a conflict |
| KnownHosts.CommentsStay | app/deployment/host_keys.py:50-60 | blank lines, comments and marked lines give no key and outlive every write |
| KnownHosts.TokensAreDistinct | app/deployment/host_keys.py:23-24 | different endpoints are filed under different tokens |
| Notifier.TelegramEventNotifier.RunOnce | app/bot/notifier.py:38-53 | one polling round, cut short after any number of sends and cursor writes |
| Notifier.NoEventIsSkipped | app/bot/notifier.py:38-53 | after any rounds and crashes over a growing log every notifiable event after the initial cursor -- the end of the log at the first round that read an event and lived to write -- and up to the present one was sent in order without a gap, and only the one in flight repeatedly; without an initial cursor nothing has happened |
| Notifier.RoundDelivers | app/bot/notifier.py:42-53 | one round keeps that, and an uninterrupted one passes the next hundred events |
| Notifier.AfterCursor | app/database/repositories/registry.py:296-315 | the query after the cursor gives exactly the rest of an ordered log |
| Names.NamesAreDistinct | app/replacement/orchestrator.py:1362-1366 | two server names agree if and only if slug, job prefix and attempt agree |
| Names.NamesAreWhole | app/replacement/orchestrator.py:1362-1366 | a name is cut exactly when slug and attempt together exceed 48 characters, never below ten to the sixteenth attempt |
| Names.Slug | app/replacement/orchestrator.py:1364-1365 | one to 32 plain characters without a dash at either end |
| Names.SlugKeepsNames | app/replacement/orchestrator.py:1364-1365 | a name is its own slug if and only if it has one to 32 plain characters without a dash at either end |
| Names.RunsBecomeDashes | app/replacement/orchestrator.py:1364 | a whole run of other characters becomes one dash |

## Left out

- The orchestrator's stage handlers, `resume` and the failure path are functions from rows to rows, one for each session or call, not methods on row objects: interleavings, crashes and lost answers between the sessions are the point, and in-place update inside one session is not visible outside it. Trigger, cancel and the node restoration are also given as methods.
- A database session is atomic; SQL isolation and the write order inside a session are not modelled. The one place where the service relies on rows read long before they are written, the deployment session, is modelled as it behaves.
- Overdue workers: what they can do beside a new holder is shown where it breaks a promise, not bounded.
- A job whose provider is disabled, whose credentials are missing or whose create template is incomplete fails: these refusals, and the gates in front of a deployment, are the hard-error answers of the step in which they arise; the deployment row is then marked failed as for any other error.
- The old server's registered host is compared with the provider's answer as text; parsing it as an IP literal is folded into the hard errors.
- A restart forgets the servers of the dry-run simulation; in the protocol this is a not-found answer.
- Server identities are numbers that are unique over all providers, and a node's servers share one provider.
- Values of JSON fields have their declared kinds; the conversion of numbers, lists or other objects to text and truth values is not modelled. Lower-casing covers ASCII letters.
- The content of secrets, the backends their references name, timestamps of markers, audit events of jobs, error codes and messages.
- The polling answers of the readiness wait and the observations of the reachability rounds are inputs; the clock between polls is not modelled. An adapter whose closing raises stops the closing of the others; that is not modelled.
- Notifier, known_hosts: formatting of messages, exported key syntax, file permissions and the atomic replacement of the file; the file is a sequence of lines.
- Capacity: the bound is proved, not that every value below it is reached.
- HTTP, SSH, Check-Host and Telegram transport, Master route selection, provider JSON, URL building, the wizard and chat controllers, callback signing, health diagnostics, backup and restore, the secret store, configuration parsing, migrations and scripts.
- Registry management (adding, renaming, removing nodes and providers) and the schedulers that decide when to trigger, resume or poll.
