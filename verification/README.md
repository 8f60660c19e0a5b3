# Verification model of Databasus

Databasus backs up databases and proves backups restorable. This project models the parts of the
repository in which order, interleaving or graph structure decide whether something is correct, and proves
what their comments and tests promise: for every input, every run or every reachable state. Where the code
does not keep a promise, the model keeps the code, shows the inputs or interleavings on which it breaks,
and states exactly when it holds.

- **Verification agent.** `AgentJob` is one verification job as a program counter; `AgentProtocol` puts the
  claim loop, the bounded pool, the jobs, their disk watchers, the heartbeat with its abort lists and the
  Docker resources into one state and lets every step interleave; `AgentSafety` proves what holds in every
  reachable state and over every run; `AgentRaces` and `AgentAborts` show exactly how far two promises reach,
  with runs from the very beginning that `AgentRuns` helps to build. `AgentCapacity` and
  `AgentWatchers` are the sequential code around it, `SpawnLeftovers` the creation and removal of an
  attempt's container and network.
- **Two protocols between processes.** `InstanceLock` is the agent's single-instance lock (flock, inode,
  watcher, stale-file removal), `LockRaces` what makes it fail, `RunSweep` the end-to-end suite's removal of what crashed runs left.
- **Lint algorithms.** `ArchLayers` and `ContractUsage` are the backend's architecture linter,
  `StyleBranches`, `FocusCascade` and `ProjectSlices` the frontend's lints.
- **Stateful utilities.** `RotatingLog` is the agent's log writer, `OutputMask` the suite's secret masker,
  `ClientToolsChecker` the cached health check of the database clients.
- **Orders and round trips.** `ReleaseLines` compares version identities and chooses MariaDB clients,
  `LocalizedPaths` prints and reads localized addresses.

`dafny verify dfyconfig.toml` checks the whole project.

## Conventions

Concurrent code is a state, an action type and a function `Next` that is None where an action is not
enabled; `Runs` and `Reachable` quantify over all action sequences. Whatever an engine, a database, a server
or the operating system answers is picked by the environment. Sequential code that changes things in place
is a class or a method with loops, proved equal to a function of the old state; the properties are lemmas
about that function.

## Findings

- `AgentRaces.ADiskVerdictCanBeSwallowed`: the comment at `job_execution.go:83-86` says that consulting the
  flag keeps a disk verdict from being swallowed. The watcher may still trip between the disk check and the
  context check of any stage after the download; the job then ends without any report, and
  `AVerdictIsSwallowed` is such a run for pg_restore from the agent's start. `NothingElseFallsSilent` shows
  that there is no other way to end silently, and `TheVerdictIsCertainIffADiskCheckIsAhead` at which points a
  raised flag is sure to be reported: a watcher that trips after the last disk check comes too late, and the
  job may report COMPLETED or another failure.
- `AgentAborts.AnExecutionFailsLoudlyIffItPassesTheGuard`: the comment at `runner.go:308-311` says that an
  aborted verification never sends FAILED. An execution sends FAILED exactly when the agent was live and the
  abort set did not name it at the one moment its guard looks. An aborted one does so when a later heartbeat
  answer has replaced the list that named it (`AReplacedAbortListIsForgotten`, with a run from the start for
  an unresolved major, a refused download and the disk limit), or when the list arrives between the guard and
  the request (`AnAbortCanComeTooLate`). `ARepeatedAbortHolds` is the case in which the promise is kept.
- `LockRaces.TheLockBreaksExactlyWhenAFileIsPulledAway`: the comment at `start.go:76-79` says that the lock
  guarantees a single agent. It does as long as nobody removes or replaces the file at the path while a daemon
  has it open, be it to lock it or because it has; the first step that does opens the way to two running
  daemons. `ReleaseLock` is one of those who may do so: it unlocks before it compares and unlinks, so that a
  daemon that starts in between loses its file (`AReleaseUnlinksItsSuccessor`, `TwoRunAfterARelease`).
- `LockRaces.AStaleRemovalIsHarmlessIffNobodyHasOpened`: `stop` and `status` remove a lock file that they
  judged stale without looking again. That is harmless exactly when no daemon has opened it in the meantime;
  one that has is stopped by its own watcher (`AStaleRemovalStopsANewDaemon`, `ANewDaemonIsStopped`).
- `RotatingLog.OneFailedRotationSilencesTheLog`: after one failed rotation every later write fails.
- `ReleaseLines.DowngradesAreOnlyMistakenFrom100`: the default branch maps a 10.0 server to 10.11, so that
  restoring its backup to 10.1 up to 10.10 is called a downgrade.
- `OutputMask.OneSecretIsHiddenThroughoutIffMaskable`: a secret that starts or ends with an asterisk, or
  contains the mask, can be seen in the masked line, in a line of output that decoding and redaction leave alone.
- `ArchLayers.AnUnlayeredPackageLeadsAnywhere`: layering holds along layered packages only; a package outside
  all layers connects any two.
- `ClientToolsChecker.ARepairedClientStillFails`: a verdict is kept by directory for the life of the process,
  so clients that are repaired or replaced while it runs keep the first one. While they are stable and no two
  bundles share a directory, the memory never shows (`MemoryIsHarmlessWhileClientsAreStable`).

## Model

| member | source | states |
|---|---|---|
| `AgentCapacity.DeriveCapacity` | backend/internal/agent/config/config.go:116-160 | A configuration is accepted exactly when every job slot can get one CPU and 512 MB; all shares together fit into the configured totals, and less than one unit per job of either resource is left over |
| `AgentJob.JobStepKeepsJobInv` | backend/internal/agent/runner/job_execution.go:33-477 | Every move of a job, whatever its stages come back with, keeps: a job is cancelled only after an abort or after the disk flag was stored, and any report it prepares is honest about what pg_restore did |
| `AgentJob.JobStepIsShapely` | backend/internal/agent/runner/job_execution.go:42-72 | Artifacts appear only while the job is registered and holds its slot, and are given up only by a removal or a leak; a report is sent at most as the last move before unwinding |
| `AgentJob.DoomedStaysDoomed` | backend/internal/agent/runner/job_execution.go:81-95 | Once the disk flag is up with a disk check ahead, no move leads to any report but DISK_LIMIT_EXCEEDED |
| `AgentJob.HushedStaysHushed` | backend/internal/agent/runner/job_execution.go:230-477 | Once a job is aborted before the context check of a failure, no move leads to a report that a context check guards |
| `AgentJob.SilentEndsAreExactlyThese` | backend/internal/agent/runner/job_execution.go:173-212 | A move ends a job without a report if and only if it is a panic, a context that has ended after a failed spawn or stage, a download given up under a lowered flag, or a guard that holds the report back |
| `AgentJob.WhyAJobFallsSilent` | backend/internal/agent/runner/job_execution.go:173-212 | In a live agent, for a job never aborted: a move ends it silently exactly for a panic, a 410, a stale abort list, or a watcher that cancelled it between disk check and context check |
| `AgentJob.AnAbortLeavesExactlyTheseOpen` | backend/internal/agent/runner/job_execution.go:149-227 | An aborted job prepares a failed report exactly for an unresolved major, a download given up, a raised disk flag, or a connection probe already under way |
| `AgentJob.OnlyTheGuardLetsAFailureThrough` | backend/internal/agent/runner/runner.go:312-322 | A failed report is about to leave only by a guard that found the agent live and the abort set without the job |
| `AgentJob.ContextCheckFollowsACleanDiskCheck` | backend/internal/agent/runner/job_execution.go:233-240 | A context check is reached only by the disk check of the same failure, and only when that found the flag down |
| `AgentSafety.StepKeepsInv` | backend/internal/agent/runner/runner.go:97-173 | Every step of loop, pool, jobs, watchers and heartbeat keeps the registry equal to the tracked jobs, artifacts with their owners, slots and wait group with the jobs, and the log single and honest |
| `AgentSafety.ReachableKeepsInv` | backend/internal/agent/runner/runner.go:109-173 | The invariant holds after every interleaving |
| `AgentSafety.ArtifactsAreTracked` | backend/internal/agent/runner/job_execution.go:45-72 | In every reachable state a container or network that no failed removal left behind belongs to a job that is registered and holds a pool slot |
| `AgentSafety.HeartbeatNamesEveryArtifact` | backend/internal/agent/heartbeat/heartbeat.go:116-135 | The request the backend receives names every job that owned an artifact when it was composed |
| `AgentSafety.WhatAHeartbeatOmits` | backend/internal/agent/heartbeat/heartbeat.go:78-105 | A job in flight is missing from the registry exactly before it has registered and after it has untracked itself |
| `AgentSafety.ContainersFitCapacity` | backend/internal/agent/runner/runner.go:109-161 | The CPU and memory shares of all containers that no failed removal left behind stay within the configured totals at every moment |
| `AgentSafety.AClaimNeverWaits` | backend/internal/agent/runner/pool.go:19-36 | Whenever the loop holds a claimed assignment a slot is free, because the loop is the only producer |
| `AgentSafety.StoppedAgentOwnsNothing` | backend/internal/agent/start/start.go:126-131 | When the runner has drained, no job, slot, registration or owned artifact is left |
| `AgentSafety.ReportsAreSingleAndHonest` | backend/internal/agent/runner/failure_report.go:24-59 | Over any run, one execution sends at most one report; a FAILED one carries an exit code exactly for a rejected archive, a failed TimescaleDB post step, or failed stats on a live connection, and then it is the code pg_restore exited with, not judged disk exhaustion |
| `AgentSafety.ATrippedWatcherDecidesTheReport` | backend/internal/agent/runner/job_execution.go:81-146 | If the watcher trips before a stage's disk check or the final one, then in every continuation the execution sends DISK_LIMIT_EXCEEDED without an exit code or nothing |
| `AgentSafety.AnAbortSilencesCheckedFailures` | backend/internal/agent/runner/runner.go:308-322 | After an abort that precedes the context check, only reports without such a check can still be sent, in every continuation; that each of the failed ones can be is shown in `AgentAborts` |
| `AgentRaces.WhichFailuresAreChecked` | backend/internal/agent/runner/job_execution.go:230-477 | The stages whose failure meets a disk check and then a context check are all those after the download, pg_restore with every failing outcome among them |
| `AgentRaces.ADiskVerdictCanBeSwallowed` | backend/internal/agent/runner/job_execution.go:83-95 | From every reachable state in which one of them is about to fail under a watcher, there is a run that raises the disk flag and ends the job without a report |
| `AgentRaces.AVerdictIsSwallowed` | backend/internal/agent/runner/job_execution.go:314-321 | From the agent's start there is such a run in which pg_restore fails, whatever its outcome |
| `AgentRaces.NothingElseFallsSilent` | backend/internal/agent/runner/job_execution.go:203-240 | In a live agent, a step ends a job no abort list ever named unreported if and only if it is a panic, a 410, a stale abort list, or that race |
| `AgentRaces.TheVerdictIsCertainIffADiskCheckIsAhead` | backend/internal/agent/runner/job_execution.go:81-146 | Once the flag is up, every undisturbed continuation to the end of the job reports the disk limit if and only if the job is in a stage, at a disk check or already past one with that report; from every other point some continuation reports something else or nothing |
| `AgentAborts.AnExecutionFailsLoudlyIffItPassesTheGuard` | backend/internal/agent/runner/runner.go:308-322 | Over every run to the end of an execution, aborted or not, FAILED is sent if and only if at its guard the agent was live and the abort set did not name it, and it did not panic between guard and request |
| `AgentAborts.ARepeatedAbortHolds` | backend/internal/agent/heartbeat/heartbeat.go:137-150 | An abort that precedes the guard, repeated by every later answer while the job is in flight, bars FAILED in every continuation |
| `AgentAborts.AReplacedAbortListIsForgotten` | backend/internal/agent/heartbeat/heartbeat.go:137-150 | From every reachable state, each failure that an abort leaves open is sent by an aborted job after two heartbeats, the second of which no longer names it |
| `AgentAborts.AnAbortCanComeTooLate` | backend/internal/agent/runner/runner.go:284-305 | From every reachable state between guard and request, FAILED is sent although the abort set already names the job |
| `AgentAborts.AnAbortedJobReportsItsMajor` | backend/internal/agent/runner/job_execution.go:149-164 | From the agent's start a run leads to FAILED of an aborted job whose major is unresolved |
| `AgentAborts.AnAbortedJobReportsItsDownload` | backend/internal/agent/runner/job_execution.go:203-225 | And one to that of an aborted job whose download is refused |
| `AgentAborts.AnAbortedJobReportsTheDiskLimit` | backend/internal/agent/runner/job_execution.go:87-95 | And one to that of an aborted job that hits its disk limit |
| `AgentAborts.AnAbortDoesComeTooLate` | backend/internal/agent/runner/failure_report.go:24-59 | And one in which the abort arrives after the guard |
| `AgentRuns.AGuardedReportIsSent` | backend/internal/agent/runner/failure_report.go:24-59 | From every state with a failed report at its guard, a live agent and an abort set without the job, two moves send it and change nothing else that is reported |
| `AgentWatchers.Heartbeater.GetRunningVerificationIDs` | backend/internal/agent/heartbeat/heartbeat.go:95-105 | Lists every registered ID once, in any order |
| `AgentWatchers.Heartbeater.AbortVerifications` | backend/internal/agent/heartbeat/heartbeat.go:137-150 | The abort set becomes exactly the list, and exactly the registered jobs it names get cancelled, also when jobs share a cancel function |
| `AgentWatchers.WatchDisk` | backend/internal/agent/runner/diskwatch.go:39-66 | Fires at the first probe at or above the ceiling, at most once, never on a failed probe, and whenever there is such a probe before the context ends |
| `SpawnLeftovers.RemoveLeftovers` | backend/internal/agent/container/leftovers.go:30-66 | Without an error nothing that carries the labels is left; nothing else is touched, whatever fails |
| `SpawnLeftovers.PrepareAttemptNetwork` | backend/internal/agent/container/leftovers.go:72-85 | Creating the attempt's network never fails on its name, whatever earlier attempts left; the created network is then the only resource with the attempt's labels |
| `SpawnLeftovers.Spawn` | backend/internal/agent/container/manager.go:126-207 | Whatever an attempt creates carries both labels and nothing else is touched; on success its container and network are all there is of the attempt, on failure nothing of it, unless a removal failed or a creation failed after its work |
| `SpawnLeftovers.SpawnContainer` | backend/internal/agent/container/manager.go:180-207 | Every failure exit after the network exists tears down what the attempt created |
| `SpawnLeftovers.EnsureSomeImage` | backend/internal/agent/container/manager.go:127-151 | The image is the job's own or, for a job without TimescaleDB, the stock image of the same major |
| `SpawnLeftovers.Terminate` | backend/internal/agent/container/container.go:91-104 | Without an error the container and its network are gone; nothing without the attempt's labels is touched |
| `SpawnLeftovers.PurgeAgentContainers` | backend/internal/agent/container/purge.go:17-27 | Without an error nothing of this agent is left; resources of other agents are as before |
| `SpawnLeftovers.AnAttemptKeepsNamesOwned` | backend/internal/agent/container/manager.go:158-166 | An attempt leaves every attempt name with a network of this agent labelled for that verification |
| `SpawnLeftovers.HistoriesKeepNamesAndStrangers` | backend/internal/agent/container/manager.go:158-166 | After any sequence of attempts the names are still the agent's own, and resources without the labels of those verifications are unchanged |
| `SpawnLeftovers.LabelsTellAttemptsApart` | backend/internal/agent/container/leftovers.go:87-93 | A filter on an attempt's labels matches that verification and no other; the agent's filter matches all its attempts |
| `SpawnLeftovers.AnotherAttemptDoesNotInterfere` | backend/internal/agent/container/manager.go:158-166 | No engine call of an attempt at another verification changes the resources with this attempt's labels or whether its network name is taken |
| `SpawnLeftovers.OtherAttemptsDoNotInterfere` | backend/internal/agent/container/manager.go:158-166 | Nor does any number of them between two steps of this attempt |
| `SpawnLeftovers.WhatLooksTheSameIsTheSame` | backend/internal/agent/container/manager.go:158-166 | So a clean, a prepared or a spawned attempt is still so at its next step |
| `InstanceLock.DaemonMoveIsShapely` | backend/internal/agent/start/lock.go:17-69 | A daemon takes a flock only on the file it opened, records its PID only in a file it has locked, and never forgets a flock without dropping it |
| `InstanceLock.StepKeepsInv` | backend/internal/agent/start/start.go:31-55 | Every system call of every daemon and command, and every outside removal or replacement, keeps: files in use have different inode numbers, flocks and their holders agree, and a running daemon's record is that of the file it locked |
| `InstanceLock.ReachableKeepsInv` | backend/internal/agent/start/start.go:31-55 | That holds after every interleaving of any number of processes |
| `InstanceLock.AtMostOnePassesItsCheck` | backend/internal/agent/start/lock_watcher.go:46-77 | In any reachable file-system state at most one running daemon would pass its check, although inode numbers are reused |
| `InstanceLock.CheckCancelsExactlyTheDisplaced` | backend/internal/agent/start/lock_watcher.go:46-77 | A check cancels a daemon exactly when its path has vanished or leads to another file |
| `InstanceLock.ADisplacedDaemonIsCancelled` | backend/internal/agent/start/lock_watcher.go:32-77 | A displaced daemon stays displaced whatever follows, and runs on only with a cancelled context after its next check |
| `LockRaces.QuietRunsKeepOneAgent` | backend/internal/agent/start/start.go:76-80 | Over every run in which no step removes or replaces the lock file while a daemon has it open, at most one daemon runs and none is displaced |
| `LockRaces.ARemovalLetsTwoRun` | backend/internal/agent/start/start.go:76-80 | From every reachable state in which such a step happens, by an outsider, `stop`, `status` or a release, system calls of daemons alone lead to two running ones, the new one uncancelled |
| `LockRaces.TheLockBreaksExactlyWhenAFileIsPulledAway` | backend/internal/agent/start/start.go:76-80 | After a run without such a step, the next step opens the way to two running daemons if and only if it is one |
| `LockRaces.AReleaseUnlinksItsSuccessor` | backend/internal/agent/start/lock.go:50-69 | From every reachable state, a daemon that starts between unlock and unlink of a release runs on, displaced |
| `LockRaces.AReleaseLetsTwoRun` | backend/internal/agent/start/lock.go:50-69 | And a third daemon then starts beside it, with only daemons acting |
| `LockRaces.TwoRunAfterARelease` | backend/internal/agent/start/lock.go:50-69 | Such a run exists from the start |
| `LockRaces.AStaleRemovalHitsOnlyOthers` | backend/internal/agent/start/daemon.go:31-34 | A stale removal never hits the judged process; a daemon that it hits has written its own PID, or has the file open and is about to |
| `LockRaces.AStaleRemovalIsHarmlessIffNobodyHasOpened` | backend/internal/agent/start/daemon.go:31-34 | A stale removal opens the way to two running daemons if and only if some daemon has the file open, and displaces every one that runs on it |
| `LockRaces.AStaleRemovalStopsANewDaemon` | backend/internal/agent/start/daemon.go:63-67 | Whenever a removal is pending and the path is unlocked, a daemon can start, lose its file to the removal, and be cancelled by its next check |
| `LockRaces.ANewDaemonIsStopped` | backend/internal/agent/start/daemon.go:63-67 | Such a run exists from the start, after a daemon that died without a release |
| `RunSweep.SelectsExactlyTheDead` | e2e/browser/leftover_sweep.py:40-62 | A run is selected exactly when another run's record names it and its supervisor was found dead, or when only a project without any record speaks for it |
| `RunSweep.StepKeepsInv` | e2e/browser/supervisor.py:110-147 | Every step of any number of runs and sweeps keeps records true, projects accounted for, and every sweeper's list confined to runs that are done |
| `RunSweep.JudgementsStayTrue` | e2e/browser/leftover_sweep.py:65-87 | Whatever a sweeper still means to remove belongs to a run that has ended or whose owner has already removed its project; images and records only to runs that have ended |
| `RunSweep.NoLiveRunLosesAnything` | e2e/browser/leftover_sweep.py:33-87 | No step of one run takes the project, image, record or process of another run that has not ended |
| `RunSweep.AnUnrecordedProjectIsOrphaned` | e2e/browser/supervisor.py:242-268 | A project without a record is that of a run that has ended, so a later sweep may take it |
| `RunSweep.RecordsTellWhoIsAlive` | e2e/browser/supervisor_file.py:84-106 | The stored record of a run passes for dead if and only if the run has ended, although PIDs are reused and records of ended runs may be damaged |
| `RunSweep.ASweptRunIsGone` | e2e/browser/leftover_sweep.py:68-87 | When a sweep is finished with a run, its record is gone, and its image and project unless a child of the killed supervisor is still at work |
| `RunSweep.ACleanExitLeavesNothing` | e2e/browser/supervisor.py:242-268 | A run that removes its own record has neither project nor image left |
| `ArchLayers.CheckImports` | backend/tools/archlint/layers.go:59-91 | Reports exactly the forbidden imports of production files |
| `ArchLayers.ACleanTreeHasOnlyAcceptedPaths` | backend/tools/archlint/layers.go:57-147 | Without reports every chain of production imports is accepted edge by edge |
| `ArchLayers.TheRootDominatesItsModule` | backend/tools/archlint/layers.go:131-144 | Every accepted path into a module from outside enters it through the module's root package |
| `ArchLayers.TheRootIsInItsModule` | backend/tools/archlint/layers.go:42-51 | The root package belongs to the module it is named after |
| `ArchLayers.LayersNeverRise` | backend/tools/archlint/layers.go:118-129 | Along layered packages of an accepted path the layer never rises |
| `ArchLayers.CyclesStayInALayer` | backend/tools/archlint/layers.go:118-129 | An accepted cycle of layered packages lies in one layer |
| `ArchLayers.TheAgentLeavesOnlyThroughUnlayeredPackages` | backend/tools/archlint/layers.go:103-116 | From the agent only agent, engines and lib packages are reachable before a path leaves the layers |
| `ArchLayers.OnlyTheAgentReachesTheAgent` | backend/tools/archlint/layers.go:118-129 | No accepted path from outside the agent reaches the agent |
| `ArchLayers.AnUnlayeredPackageLeadsAnywhere` | backend/tools/archlint/layers.go:118-146 | Two accepted imports through a package outside all layers connect any layered package outside the agent to any package at all, except those of the agent and the inside of a module |
| `ContractUsage.RegisterFilesGains` | backend/tools/archlint/contract_references.go:60-94 | Registering files adds exactly the declarations of contract files, without consumers and dependencies, overwrites none, and binds no object to an unknown declaration |
| `ContractUsage.MarkUsesMeans` | backend/tools/archlint/contract_references.go:96-111 | A declaration becomes externally consumed exactly when an identifier outside its module uses an object bound to it |
| `ContractUsage.RequireFilesMeans` | backend/tools/archlint/contract_references.go:112-135 | A declaration depends exactly on the declarations of its own module that its surface mentions |
| `ContractUsage.ContractReferences.AddDeclarations` | backend/tools/archlint/contract_references.go:60-94 | The loops over files and declarations change the tables as the registration says |
| `ContractUsage.ContractReferences.AddReferences` | backend/tools/archlint/contract_references.go:96-124 | The loops over uses and surfaces change the tables as uses and requirements say, and only those |
| `ContractUsage.ContractReferences.GetConsumedDeclarations` | backend/tools/archlint/contract_references.go:137-162 | Terminates on cyclic dependencies and repeated pushes and returns, in whatever order maps come, exactly what a chain of dependencies leads to from an externally consumed declaration |
| `ContractUsage.ContractReferences.GetViolations` | backend/tools/archlint/module_contract_usage.go:35-52 | The violations are exactly the candidates that no consumed declaration requires |
| `ContractUsage.CheckModuleContractUsage` | backend/tools/archlint/module_contract_usage.go:10-52 | Over any packages the violations are exactly the declared candidates that no chain of mentions within a module, in whichever packages, leads to from a declaration used outside its module in any package |
| `ContractUsage.DeclareAllGains` | backend/tools/archlint/module_contract_usage.go:26-29 | All packages together declare exactly what a contract file of any of them declares, with nothing recorded yet |
| `ContractUsage.ReferenceAllRefers` | backend/tools/archlint/module_contract_usage.go:31-33 | Over all packages a declaration is consumed exactly if one of them uses it from outside its module, and depends exactly on what its surface mentions in one of them |
| `ContractUsage.TheConsumedAreTheRequired` | backend/tools/archlint/module_contract_usage.go:31-49 | Chains in the collected tables are exactly the chains of mentions in the packages |
| `ContractUsage.ClosedSetsHoldAllChains` | backend/tools/archlint/contract_references.go:137-162 | Every set that holds the externally consumed and is closed under dependencies holds the consumed declarations |
| `ContractUsage.TheConsumedAreClosed` | backend/tools/archlint/contract_references.go:137-162 | The consumed declarations are themselves such a set, hence the least |
| `StyleBranches.GetStyleExpressionBranches` | frontend/lint/styleExpressionBranches.ts:3-76 | The recursion with its visited set and its loops ends on every program, cyclic or not, and returns the branches in order |
| `StyleBranches.Branches` | frontend/lint/styleExpressionBranches.ts:3-76 | There is always at least one branch, also on a cycle |
| `StyleBranches.CombineIsProduct` | frontend/lint/styleExpressionBranches.ts:53-76 | Combining pairs every branch with every alternative and nothing else |
| `StyleBranches.ABranchHasARun` | frontend/lint/styleExpressionBranches.ts:3-76 | In a program without cycles every branch is the text of a run that decides each conditional, operator and initializer independently |
| `StyleBranches.ARunIsABranch` | frontend/lint/styleExpressionBranches.ts:3-76 | And the text of every run is among the branches |
| `StyleBranches.BranchesAreExactlyTheRuns` | frontend/lint/styleExpressionBranches.ts:3-76 | The branches are exactly the texts of the runs |
| `StyleBranches.ACycleContributesNothing` | frontend/lint/styleExpressionBranches.ts:3-15 | A name that is its own initializer has no run and contributes the empty branch |
| `FocusCascade.HasVisibleFocusReplacement` | frontend/lint/focusVisibility.ts:58-93 | The fold over the sorted declarations judges the declarative cascade winner |
| `FocusCascade.TheWinnerWins` | frontend/lint/focusVisibility.ts:58-82 | For each longhand the winner is the value of the last important declaration that sets it, else of the last normal one, else the initial value (section 6.1 of CSS Cascading and Inheritance Level 4), and no other |
| `FocusCascade.TheFoldRefinesTheCascade` | frontend/lint/focusVisibility.ts:64-82 | Sorting by importance and folding yields that winner for all longhands, with an outline shorthand resetting three |
| `FocusCascade.SortingIsStable` | frontend/lint/focusVisibility.ts:64-66 | The sorted list holds every declaration once, the normal ones before the important ones, each group in its original order |
| `FocusCascade.HasVisibleFocusInEveryBranch` | frontend/lint/focusVisibility.ts:95-109 | True exactly when the cascade winner is visible under every choice of one value per relevant assignment |
| `FocusCascade.ABranchIsAChoice` | frontend/lint/focusVisibility.ts:98-107 | Every enumerated branch is what some choice puts in force |
| `FocusCascade.AChoiceIsABranch` | frontend/lint/focusVisibility.ts:98-107 | What any choice puts in force is enumerated |
| `FocusCascade.BranchesAreTheChoices` | frontend/lint/focusVisibility.ts:98-108 | Testing the enumerated branches is testing every choice |
| `ProjectSlices.CheckProjectDependencies` | frontend/lint/checkProjectDependencies.ts:15-47 | The findings are exactly the uncovered forbidden dependencies and the private slice imports, covered or not, between layered files |
| `ProjectSlices.AllowedImportsDescend` | frontend/lint/checkProjectDependencies.ts:15-47 | An import that is not forbidden stays in its unit or goes to a strictly lower layer |
| `ProjectSlices.ChainsDescend` | frontend/lint/checkProjectDependencies.ts:15-47 | Along a chain of allowed imports the layer never rises, and staying in a layer means staying in a unit |
| `ProjectSlices.NoCycleBetweenUnits` | frontend/lint/checkProjectDependencies.ts:15-47 | Without findings and without covered occurrences, a chain of imports that returns to its unit has never left it |
| `ProjectSlices.TheIndexDominatesItsSlice` | frontend/lint/checkProjectDependencies.ts:8-47 | Without findings every path of imports into a slice from anywhere else, however long, first enters it at the slice's index file |
| `OutputMask.Mask.Apply` | e2e/browser/output_masking.py:15-28 | The loops decode at most three times, stop when nothing changes, redact, and replace the secrets in order |
| `OutputMask.ReplacingRemovesTheSecret` | e2e/browser/output_masking.py:25-28 | Leftmost, non-overlapping replacement leaves no occurrence of a maskable secret |
| `OutputMask.ReplacingCreatesNothing` | e2e/browser/output_masking.py:25-28 | Replacing any secret never makes a maskable one appear that was not there |
| `OutputMask.NoSecretSurvives` | e2e/browser/output_masking.py:11-28 | For maskable secrets no masked line contains any of them, whatever the line and the order |
| `OutputMask.OneSecretIsHiddenIffMaskable` | e2e/browser/output_masking.py:25-28 | The last step hides a secret in every text exactly when it neither starts nor ends with an asterisk nor contains the mask |
| `OutputMask.OneSecretIsHiddenThroughoutIffMaskable` | e2e/browser/output_masking.py:15-28 | All steps together do so whatever decoding and redaction make of a line, exactly under that condition |
| `OutputMask.ALineThatShows` | e2e/browser/output_masking.py:25-28 | For every other secret there is a text in which the last step shows it |
| `OutputMask.AnOutputLineThatShows` | e2e/browser/output_masking.py:15-28 | And as a line of output it shows the secret if decoding and redaction leave it alone |
| `RotatingLog.RotatingWriter.constructor` | backend/internal/agent/logging/logger.go:66-86 | Opening keeps both files and counts the size of the current one, or zero when it cannot be read |
| `RotatingLog.RotatingWriter.Rotate` | backend/internal/agent/logging/logger.go:88-110 | What each failing call of a rotation leaves of the two files and the handle |
| `RotatingLog.RotatingWriter.Write` | backend/internal/agent/logging/logger.go:27-41 | What a write, full or partial, with or without a rotation, leaves and reports |
| `RotatingLog.TheLogIsASuffix` | backend/internal/agent/logging/logger.go:27-110 | Over any writes and any failing calls, old file and current file together are a suffix of what was there plus all bytes reported written |
| `RotatingLog.OneFailedRotationSilencesTheLog` | backend/internal/agent/logging/logger.go:88-110 | The writer is usable exactly as long as no rotation has failed |
| `RotatingLog.ASilencedLogStaysSilent` | backend/internal/agent/logging/logger.go:27-41 | After that no write changes a file or reports a byte |
| `RotatingLog.AHealthyLogIsCutBetweenWrites` | backend/internal/agent/logging/logger.go:27-110 | Without failures both files begin and end at write boundaries |
| `RotatingLog.AHealthyLogKeepsItsSize` | backend/internal/agent/logging/logger.go:27-41 | Without failures the counted size is the file's, and at most the maximum of the limit, the initial size and the longest write |
| `ClientToolsChecker.RunClient` | backend/internal/engines/clienttools/checker.go:108-137 | A client passes exactly when it starts and, for a bundle with a release line, reports a version on that line |
| `ClientToolsChecker.RunClients` | backend/internal/engines/clienttools/checker.go:96-106 | Collects the errors of all required commands in order |
| `ClientToolsChecker.PassingMeansWorking` | backend/internal/engines/clienttools/checker.go:96-137 | A verdict is empty exactly when every required client works |
| `ClientToolsChecker.Checker.CheckBundle` | backend/internal/engines/clienttools/checker.go:71-91 | Which of file errors, kept verdict and new verdict is the answer, and when a verdict is kept |
| `ClientToolsChecker.Checker.Check` | backend/internal/engines/clienttools/checker.go:40-48 | One answer per bundle in order, each with the memory that the earlier ones left |
| `ClientToolsChecker.Checker.IsHealthy` | backend/internal/engines/clienttools/checker.go:51-69 | Unhealthy exactly when a fatal bundle has an error |
| `ClientToolsChecker.TheFirstVerdictIsKept` | backend/internal/engines/clienttools/checker.go:76-88 | Over any history the memory of a directory is the verdict of its first visit without file errors that its caller did not cut short, and there is none without such a visit |
| `ClientToolsChecker.MemoryIsHarmlessIffNoneDisagree` | backend/internal/engines/clienttools/checker.go:23-27 | Every undisturbed visit gets the answer of a checker without memory exactly when no two such visits to one directory would disagree |
| `ClientToolsChecker.MemoryIsHarmlessWhileClientsAreStable` | backend/internal/engines/clienttools/checker.go:23-27 | So it does while each directory belongs to one bundle and undisturbed clients always answer alike |
| `ClientToolsChecker.ARepairedClientStillFails` | backend/internal/engines/clienttools/checker.go:76-88 | A bundle whose clients have been repaired since its first visit still fails |
| `ReleaseLines.CompareReleaseLines` | backend/internal/engines/clienttools/release_line.go:16-43 | The loop computes the order of the first different component, missing ones counting as zero |
| `ReleaseLines.CompareDecides` | backend/internal/engines/clienttools/release_line.go:13-43 | The sign says which identity comes first by that definition, in both directions: the order is total and antisymmetric |
| `ReleaseLines.CompareIsTransitive` | backend/internal/engines/clienttools/release_line.go:13-43 | The order is transitive, strictly if one step is strict |
| `ReleaseLines.EqualUpToTrailingZeros` | backend/internal/engines/clienttools/release_line.go:27-42 | Two identities compare equal exactly when they differ at most in trailing zeros |
| `ReleaseLines.IsVersionOnReleaseLine` | backend/internal/engines/clienttools/release_line.go:48-70 | A version is on a line exactly when the line is a prefix of it |
| `ReleaseLines.LinesAreConvex` | backend/internal/engines/clienttools/release_line.go:45-70 | Whatever lies between two versions of a line and is at least as long as the line is on it |
| `ReleaseLines.LinesAreNested` | backend/internal/engines/clienttools/release_line.go:45-70 | Two lines with a common version are nested |
| `ReleaseLines.DowngradesAreOnlyMistakenFrom100` | backend/internal/engines/mariadb/version.go:59-68 | Restoring to an equal or newer server is called a downgrade exactly for a 10.0 backup restored to 10.1 up to 10.10 |
| `ReleaseLines.ClientsAreMonotoneExceptAt100` | backend/internal/engines/mariadb/server_version.go:52-100 | An equal or newer server gets an older client exactly for 10.1 after 10.0 |
| `LocalizedPaths.SegmentsOfHref` | website/app/i18n.ts:104-110 | The segments of a printed address are the language's, if it has one, followed by those of the path |
| `LocalizedPaths.ReadingUndoesPrinting` | website/app/i18n.ts:104-123 | Reading returns language and path exactly for canonical paths that, in English, do not start with a language |
| `LocalizedPaths.PrintingKeepsWhatWasRead` | website/app/i18n.ts:104-123 | For every address, reading, printing and reading again is reading once |

## Left out

- OutputMask.OneSecretIsHiddenThroughoutIffMaskable: over all decoders and redactors; for those of the source it says what is hidden, and `AnOutputLineThatShows` what shows in a line that they leave alone.
- OutputMask.NoSecretSurvives: one direction only for several secrets, because another secret's replacement may happen to hide one that is not maskable; the exact condition is given for one secret.
- AgentAborts.AnExecutionFailsLoudlyIffItPassesTheGuard: a request counts as sent when it leaves the agent; whether it arrives, and its retries, are not modelled.
- SpawnLeftovers.Spawn: a run of one attempt; attempts at other verifications come in by the lemmas that they change nothing it goes by.
- AgentCapacity.DeriveCapacity: says which configurations are rejected, not with which of the five messages.
- RotatingLog.TheLogIsASuffix: other processes that write or remove the log files are not modelled.
- ReleaseLines.CompareReleaseLines: identities are sequences of natural numbers; parsing, signs, machine-integer overflow and the errors for malformed identities are not modelled. MariaDB server versions are natural numbers, too, so a minor such as `01` is not.
- ArchLayers.TheRootDominatesItsModule: `path.Join` is modelled as joining with a slash, so module names `.` and `..` are not covered.
- StyleBranches.GetStyleExpressionBranches: the visited set is a value that each call gets; the original hands a copy to every call but those after which it is not read again.
- The straight-line form of `executeJob`: aborts, watchers and shutdown act between any two of its steps, so it is a program counter rather than a method; likewise the pool's channel and wait group are counters in the agent's state.
- The deferred cancel of the job context, which runs after the job has untracked itself and changes nothing any more; the watcher's own context; the backoff durations.
- The server never assigns an ID that is still in flight on the agent, and no two agents share a verification ID on one host.
- Docker, HTTP, PostgreSQL, pg_restore and process execution, other than by their outcomes and the resources they leave; a failed creation may still have created.
- Failure texts, diagnostics, secret redaction in reports, and the statistics in a success report.
- In the lock: reuse of a PID by another process, a lock file with unreadable content, errors of flock other than a held lock.
- In the sweep: the JSON of a record, two processes with the same PID started in the same clock tick, and a run directory that is removed only in part.
- Regular expressions, the parsing of Go, TypeScript and CSS, percent-decoding and token redaction: the models start from syntax nodes, declarations, import edges and opaque string functions.
- `hasVisibleFocusUtility`, `getLanguageAlternates`, `GetDiskUsageBytes`, `StartupSelfCheck`, `pollProcess`: branches over text or single calls, without a property that spans them.
- Console commands, wiring, the web application and the generated API code.
