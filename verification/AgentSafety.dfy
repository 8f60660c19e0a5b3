/** What every interleaving of the verification agent keeps, and what follows for the backend. */
module AgentSafety {
  import opened Options
  import opened AgentCapacity
  import opened AgentJob
  import opened AgentProtocol

  // ----- every step keeps the invariant: moves of a job -----

  lemma MoveKeepsJobs(s: State, id: JobId, e: Event, m: Move)
    requires JobsInv(s) && id in s.jobs && JobStep(s.jobs[id], e, ViewOf(s, id)) == Some(m)
    ensures JobsInv(AfterMove(s, id, m))
  {
    var t := AfterMove(s, id, m);
    JobStepKeepsJobInv(s.jobs[id], e, ViewOf(s, id), m);
    JobStepKeepsContextReason(s.jobs[id], e, ViewOf(s, id), m);
    assert t.runner.isLive ==> s.runner.isLive;
    assert t.runner.isLive == s.runner.isLive || m.effect == StopRunner;
    forall other <- t.jobs
      ensures JobInv(t.jobs[other]) && HasContextReason(t.jobs[other], t.runner.isLive)
    {
      if other != id {
        assert t.jobs[other] == s.jobs[other];
      }
    }
  }

  lemma MoveKeepsArtifacts(s: State, id: JobId, m: Move)
    requires ArtifactInv(s) && id in s.jobs && IsShapely(s.jobs[id], m)
    ensures ArtifactInv(AfterMove(s, id, m))
  {
    var t := AfterMove(s, id, m);
    forall other | other != id
      ensures other in t.jobs <==> other in s.jobs
      ensures other in t.jobs ==> t.jobs[other] == s.jobs[other]
      ensures other in t.docker.containers <==> other in s.docker.containers
      ensures other in t.docker.networks <==> other in s.docker.networks
      ensures other in t.docker.leaked <==> other in s.docker.leaked
    {
    }
    MoveKeepsOwnArtifacts(s, id, m);
  }

  lemma MoveKeepsOwnArtifacts(s: State, id: JobId, m: Move)
    requires ArtifactInv(s) && id in s.jobs && IsShapely(s.jobs[id], m)
    ensures var d := AfterMove(s, id, m).docker;
            && (id in d.containers && id !in d.leaked ==> m.effect != Leave && MayHaveContainer(m.job))
            && (id in d.networks && id !in d.leaked ==> m.effect != Leave && MayHaveNetwork(m.job))
  {
  }

  lemma HoldersAfterMove(s: State, id: JobId, m: Move)
    requires id in s.jobs && IsShapely(s.jobs[id], m)
    ensures m.effect == FreeSlot ==>
              id in Holders(s.jobs) && Holders(AfterMove(s, id, m).jobs) == Holders(s.jobs) - {id}
    ensures m.effect != FreeSlot ==> Holders(AfterMove(s, id, m).jobs) == Holders(s.jobs)
  {
  }

  lemma MoveKeepsSlots(s: State, id: JobId, m: Move, capacity: Capacity)
    requires SlotInv(s, capacity) && id in s.jobs && IsShapely(s.jobs[id], m)
    ensures SlotInv(AfterMove(s, id, m), capacity)
  {
    var t := AfterMove(s, id, m);
    HoldersAfterMove(s, id, m);
    assert t.jobs.Keys == if m.effect == Leave then s.jobs.Keys - {id} else s.jobs.Keys;
    assert |t.jobs| == |t.jobs.Keys| && |s.jobs| == |s.jobs.Keys|;
  }

  // The log, if it grows, grows by the report of the moving job.
  lemma LogAfterMove(s: State, id: JobId, m: Move)
    requires id in s.jobs && IsShapely(s.jobs[id], m)
    ensures var t := AfterMove(s, id, m);
            && t.runner.nextSerial == s.runner.nextSerial
            && (m.effect.Post? ==> t.log == s.log + [Entry(s.jobs[id].info.serial, m.effect.sent, s.jobs[id].info.restore)])
            && (!m.effect.Post? ==> t.log == s.log)
            && forall other <- t.jobs :: other in s.jobs && t.jobs[other].info.serial == s.jobs[other].info.serial &&
                                         (s.jobs[other].pc.Unwind? ==> t.jobs[other].pc.Unwind?)
  {
  }

  lemma MoveKeepsLog(s: State, id: JobId, m: Move)
    requires JobsInv(s) && LogInv(s) && id in s.jobs && IsShapely(s.jobs[id], m)
    ensures LogInv(AfterMove(s, id, m))
  {
    LogAfterMove(s, id, m);
    if m.effect.Post? {
      assert JobInv(s.jobs[id]) && IsHonest(m.effect.sent, s.jobs[id].info.restore);
      assert forall e <- s.log :: e.serial != s.jobs[id].info.serial;
    }
  }

  lemma JobMoveKeepsInv(s: State, id: JobId, e: Event, capacity: Capacity)
    requires Inv(s, capacity) && JobMove(s, id, e).Some?
    ensures Inv(JobMove(s, id, e).value, capacity)
  {
    var m := JobStep(s.jobs[id], e, ViewOf(s, id)).value;
    JobStepIsShapely(s.jobs[id], e, ViewOf(s, id), m);
    MoveKeepsJobs(s, id, e, m);
    MoveKeepsArtifacts(s, id, m);
    MoveKeepsSlots(s, id, m, capacity);
    MoveKeepsLog(s, id, m);
  }

  // ----- every step keeps the invariant: the others -----

  /** A job that only its flags distinguish from the one before. */
  ghost predicate IsSameButFlags(before: Job, after: Job) {
    && after.pc == before.pc && after.info.serial == before.info.serial
    && after.info.hasContainerHandle == before.info.hasContainerHandle
    && (JobInv(before) ==> JobInv(after))
    && (before.info.isCancelled ==> after.info.isCancelled)
  }

  ghost predicate OnlyFlagsDiffer(s: State, t: State) {
    && t.jobs.Keys == s.jobs.Keys && (forall id <- s.jobs :: IsSameButFlags(s.jobs[id], t.jobs[id]))
    && t.runner == s.runner && t.docker == s.docker && t.log == s.log && t.heart.registry == s.heart.registry
  }

  lemma FlagsKeepInv(s: State, t: State, capacity: Capacity)
    requires Inv(s, capacity) && OnlyFlagsDiffer(s, t)
    ensures Inv(t, capacity)
  {
    FlagsKeepArtifacts(s, t);
    FlagsKeepSlots(s, t, capacity);
    FlagsKeepLog(s, t);
    forall id <- t.jobs
      ensures JobInv(t.jobs[id]) && HasContextReason(t.jobs[id], t.runner.isLive)
    {
      assert IsSameButFlags(s.jobs[id], t.jobs[id]);
    }
  }

  lemma FlagsKeepArtifacts(s: State, t: State)
    requires ArtifactInv(s) && OnlyFlagsDiffer(s, t)
    ensures ArtifactInv(t)
  {
  }

  lemma FlagsKeepSlots(s: State, t: State, capacity: Capacity)
    requires SlotInv(s, capacity) && OnlyFlagsDiffer(s, t)
    ensures SlotInv(t, capacity)
  {
    assert Holders(t.jobs) == Holders(s.jobs);
    assert |t.jobs| == |t.jobs.Keys| && |s.jobs| == |s.jobs.Keys|;
    if s.jobs == map[] {
      assert t.jobs == map[];
    }
  }

  lemma FlagsKeepLog(s: State, t: State)
    requires LogInv(s) && OnlyFlagsDiffer(s, t)
    ensures LogInv(t)
  {
  }

  lemma AbortOnlySetsFlags(j: Job)
    ensures IsSameButFlags(j, Aborted(j))
  {
  }

  lemma WatchOnlySetsFlags(j: Job, isStoring: bool)
    requires WatchedJob(j, isStoring).Some? && FlagInv(j)
    ensures IsSameButFlags(j, WatchedJob(j, isStoring).value)
  {
    var w := WatchedJob(j, isStoring).value;
    if JobInv(j) {
      match j.pc
      case Spawn(_) =>
      case Stage(p) => assert StageInv(w, p);
      case Check(p) => assert CheckInv(w, p);
      case Unwind(_) =>
    }
  }

  lemma HeartStepKeepsInv(s: State, a: Action, capacity: Capacity)
    requires Inv(s, capacity) && HeartStep(s, a).Some?
    ensures Inv(HeartStep(s, a).value, capacity)
  {
    var t := HeartStep(s, a).value;
    forall id <- s.jobs
      ensures IsSameButFlags(s.jobs[id], t.jobs[id])
    {
      AbortOnlySetsFlags(s.jobs[id]);
    }
    FlagsKeepInv(s, t, capacity);
  }

  lemma WatcherStepKeepsInv(s: State, id: JobId, isStoring: bool, capacity: Capacity)
    requires Inv(s, capacity) && WatcherStep(s, id, isStoring).Some?
    ensures Inv(WatcherStep(s, id, isStoring).value, capacity)
  {
    WatchOnlySetsFlags(s.jobs[id], isStoring);
    FlagsKeepInv(s, WatcherStep(s, id, isStoring).value, capacity);
  }

  lemma HoldersAfterAccept(s: State, t: State, capacity: Capacity)
    requires s.runner.loop.Holding? && s.runner.loop.id !in s.jobs && LoopStep(s, PoolAccept, capacity) == Some(t)
    ensures |Holders(t.jobs)| == |Holders(s.jobs)| + 1 && |t.jobs| == |s.jobs| + 1
  {
    var id := s.runner.loop.id;
    assert Holders(t.jobs) == Holders(s.jobs) + {id} && id !in Holders(s.jobs);
    assert t.jobs.Keys == s.jobs.Keys + {id};
    assert |t.jobs| == |t.jobs.Keys| && |s.jobs| == |s.jobs.Keys|;
  }

  lemma AcceptKeepsSlots(s: State, t: State, capacity: Capacity)
    requires SlotInv(s, capacity) && LoopStep(s, PoolAccept, capacity) == Some(t)
    ensures SlotInv(t, capacity)
  {
    HoldersAfterAccept(s, t, capacity);
  }

  lemma AcceptKeepsLog(s: State, t: State, capacity: Capacity)
    requires LogInv(s) && LoopStep(s, PoolAccept, capacity) == Some(t)
    ensures LogInv(t)
  {
    assert forall e <- s.log :: e.serial != s.runner.nextSerial;
  }

  lemma AcceptKeepsArtifacts(s: State, t: State, capacity: Capacity)
    requires ArtifactInv(s) && LoopStep(s, PoolAccept, capacity) == Some(t) && s.runner.loop.id !in s.jobs
    ensures ArtifactInv(t)
  {
    assert forall id <- s.jobs :: t.jobs[id] == s.jobs[id];
  }

  lemma AcceptKeepsInv(s: State, t: State, capacity: Capacity)
    requires Inv(s, capacity) && LoopStep(s, PoolAccept, capacity) == Some(t)
    ensures Inv(t, capacity)
  {
    AcceptKeepsSlots(s, t, capacity);
    AcceptKeepsLog(s, t, capacity);
    AcceptKeepsArtifacts(s, t, capacity);
    var id := s.runner.loop.id;
    assert JobInv(t.jobs[id]);
    assert forall other <- t.jobs :: other == id || t.jobs[other] == s.jobs[other];
  }

  lemma LoopStepKeepsInv(s: State, a: Action, capacity: Capacity)
    requires Inv(s, capacity) && LoopStep(s, a, capacity).Some?
    ensures Inv(LoopStep(s, a, capacity).value, capacity)
  {
    var t := LoopStep(s, a, capacity).value;
    if a == PoolAccept {
      AcceptKeepsInv(s, t, capacity);
    } else {
      assert t.jobs == s.jobs && t.log == s.log && t.docker == s.docker && t.heart == s.heart;
      assert t.runner.slots == s.runner.slots && t.runner.nextSerial == s.runner.nextSerial;
      assert |s.jobs| == 0 ==> s.jobs == map[];
      assert JobsInv(t) && ArtifactInv(t) && SlotInv(t, capacity) && LogInv(t);
    }
  }

  lemma StepKeepsInv(s: State, a: Action, capacity: Capacity)
    requires Inv(s, capacity) && Next(s, a, capacity).Some?
    ensures Inv(Next(s, a, capacity).value, capacity)
  {
    match a
    case HeartbeatSend => HeartStepKeepsInv(s, a, capacity);
    case HeartbeatLost => HeartStepKeepsInv(s, a, capacity);
    case HeartbeatReply(_) => HeartStepKeepsInv(s, a, capacity);
    case WatcherStores(id) => WatcherStepKeepsInv(s, id, true, capacity);
    case WatcherCancels(id) => WatcherStepKeepsInv(s, id, false, capacity);
    case JobMoves(id, e) => JobMoveKeepsInv(s, id, e, capacity);
    case _ => LoopStepKeepsInv(s, a, capacity);
  }

  lemma {:induction false} RunsKeepInv(s: State, actions: seq<Action>, t: State, capacity: Capacity)
    requires Inv(s, capacity) && Runs(s, actions, t, capacity)
    ensures Inv(t, capacity)
    decreases |actions|
  {
    if actions != [] {
      StepKeepsInv(s, actions[0], capacity);
      RunsKeepInv(Next(s, actions[0], capacity).value, actions[1..], t, capacity);
    }
  }

  lemma ReachableKeepsInv(s: State, capacity: Capacity)
    requires Reachable(s, capacity) && capacity.Sound()
    ensures Inv(s, capacity)
  {
    var actions :| Runs(Init(), actions, s, capacity);
    RunsKeepInv(Init(), actions, s, capacity);
  }

  // ----- artifacts, registry, slots -----

  /** The verifications with a container or a network that no failed removal left behind. */
  function OwnedArtifacts(s: State): set<JobId> {
    (s.docker.containers + s.docker.networks) - s.docker.leaked
  }

  /** A job that owns an artifact is registered and holds a pool slot, in every interleaving. */
  lemma ArtifactsAreTracked(s: State, capacity: Capacity)
    requires Reachable(s, capacity) && capacity.Sound()
    ensures forall id <- OwnedArtifacts(s) ::
              id in s.heart.registry && id in s.jobs && HoldsSlot(s.jobs[id].pc)
  {
    ReachableKeepsInv(s, capacity);
    forall id <- OwnedArtifacts(s)
      ensures id in s.heart.registry && id in s.jobs && HoldsSlot(s.jobs[id].pc)
    {
      assert MayHaveContainer(s.jobs[id]) || MayHaveNetwork(s.jobs[id]);
      match s.jobs[id].pc
      case Spawn(_) =>
      case Stage(_) =>
      case Check(_) =>
      case Unwind(_) =>
    }
  }

  /** The request the backend reads names every job that owned an artifact when it was composed. */
  lemma HeartbeatNamesEveryArtifact(s: State, t: State, capacity: Capacity)
    requires Reachable(s, capacity) && capacity.Sound() && Next(s, HeartbeatSend, capacity) == Some(t)
    ensures t.heart.inFlight.Some? && OwnedArtifacts(t) <= t.heart.inFlight.value
  {
    ArtifactsAreTracked(s, capacity);
  }

  /** What the request leaves out: the assignments still held by the loop or not yet registered, and the
      jobs that have already untracked themselves. */
  lemma WhatAHeartbeatOmits(s: State, capacity: Capacity, id: JobId)
    requires Reachable(s, capacity) && capacity.Sound() && id in s.jobs
    ensures id !in s.heart.registry <==>
              s.jobs[id].pc == Spawn(Entered) || s.jobs[id].pc == Unwind(CancellingRunner)
              || s.jobs[id].pc == Unwind(Releasing) || s.jobs[id].pc == Unwind(Released)
  {
    ReachableKeepsInv(s, capacity);
    match s.jobs[id].pc
    case Spawn(_) =>
    case Stage(_) =>
    case Check(_) =>
    case Unwind(_) =>
  }

  /** The shares of all containers that no failed removal left behind fit into the configured capacity. */
  lemma ContainersFitCapacity(s: State, capacity: Capacity)
    requires Reachable(s, capacity) && capacity.Sound()
    ensures var live := |s.docker.containers - s.docker.leaked|;
            && live * capacity.cpuPerJob <= capacity.maxCpu
            && live * capacity.ramMbPerJob <= capacity.maxRamMb
  {
    ReachableKeepsInv(s, capacity);
    ArtifactsAreTracked(s, capacity);
    var live := s.docker.containers - s.docker.leaked;
    assert live <= Holders(s.jobs);
    SubsetIsNoLarger(live, Holders(s.jobs));
    SharesAddUp(|live|, capacity.maxConcurrentJobs, capacity.cpuPerJob);
    SharesAddUp(|live|, capacity.maxConcurrentJobs, capacity.ramMbPerJob);
  }

  lemma SharesAddUp(count: nat, limit: nat, share: nat)
    requires count <= limit
    ensures count * share <= limit * share
  {
  }

  lemma SubsetIsNoLarger<T>(a: set<T>, b: set<T>)
    requires a <= b
    ensures |a| <= |b|
  {
    assert b == a + (b - a);
  }

  /** A claimed assignment never waits for a slot: the claim loop is the only producer. */
  lemma AClaimNeverWaits(s: State, capacity: Capacity)
    requires Reachable(s, capacity) && capacity.Sound() && s.runner.loop.Holding?
    ensures Next(s, PoolAccept, capacity).Some?
  {
    ReachableKeepsInv(s, capacity);
  }

  /** Once the loop has drained, nothing of any job is left except what a failed removal left behind. */
  lemma StoppedAgentOwnsNothing(s: State, capacity: Capacity)
    requires Reachable(s, capacity) && capacity.Sound() && s.runner.loop == Stopped
    ensures s.jobs == map[] && s.runner.slots == 0 && s.heart.registry == {} && OwnedArtifacts(s) == {}
  {
    ReachableKeepsInv(s, capacity);
    ArtifactsAreTracked(s, capacity);
    assert Holders(s.jobs) == {};
    assert forall id :: id !in s.heart.registry;
  }

  // ----- reports -----

  /** One execution sends at most one report, and a FAILED one carries an exit code exactly when it is a
      verdict on the archive; the code is then what pg_restore exited with, and that exit was not judged
      disk exhaustion. */
  lemma ReportsAreSingleAndHonest(s: State, capacity: Capacity)
    requires Reachable(s, capacity) && capacity.Sound()
    ensures forall i, k :: 0 <= i < k < |s.log| ==> s.log[i].serial != s.log[k].serial
    ensures forall e <- s.log :: !e.report.isCompleted ==>
                                   (e.report.exitCode.Some? <==> IsVerdictOnArchive(e.report.cause))
    ensures forall e <- s.log :: e.report.exitCode.Some? ==>
                                   && e.restore.Some? && e.restore.value.Exited?
                                   && e.restore.value.code == e.report.exitCode.value
                                   && (e.report.exitCode.value != 0 ==> !e.restore.value.isDiskExhausted)
                                   && (e.report.cause == RestoreRejected <==>
                                         e.report.exitCode.value != 0 && !e.restore.value.hasOnlyIgnorableErrors)
  {
    ReachableKeepsInv(s, capacity);
    forall e <- s.log | e.report.exitCode.Some?
      ensures e.restore.Some? && e.restore.value.Exited?
      ensures e.report.cause == RestoreRejected <==>
                e.report.exitCode.value != 0 && !e.restore.value.hasOnlyIgnorableErrors
    {
      assert IsHonest(e.report, e.restore);
    }
  }

  /** The execution with this serial is doomed, or has ended, and only ever reports the disk limit. */
  ghost predicate OnlyReportsDiskLimit(s: State, serial: nat) {
    && serial < s.runner.nextSerial
    && (forall id <- s.jobs :: s.jobs[id].info.serial == serial ==> IsDoomedByDisk(s.jobs[id]))
    && (forall e <- s.log :: e.serial == serial ==> e.report.cause == DiskLimitExceeded)
  }

  ghost predicate OnlyReportsUnchecked(s: State, serial: nat) {
    && serial < s.runner.nextSerial
    && (forall id <- s.jobs :: s.jobs[id].info.serial == serial ==> IsHushed(s.jobs[id]))
    && (forall e <- s.log :: e.serial == serial ==> IsUncheckedCause(e.report.cause))
  }

  lemma MoveKeepsDoom(s: State, id: JobId, e: Event, m: Move, serial: nat)
    requires JobsInv(s) && id in s.jobs && JobStep(s.jobs[id], e, ViewOf(s, id)) == Some(m)
    requires IsShapely(s.jobs[id], m) && OnlyReportsDiskLimit(s, serial)
    ensures OnlyReportsDiskLimit(AfterMove(s, id, m), serial)
  {
    LogAfterMove(s, id, m);
    if s.jobs[id].info.serial == serial {
      DoomedStaysDoomed(s.jobs[id], e, ViewOf(s, id), m);
    }
  }

  lemma MoveKeepsHush(s: State, id: JobId, e: Event, m: Move, serial: nat)
    requires JobsInv(s) && id in s.jobs && JobStep(s.jobs[id], e, ViewOf(s, id)) == Some(m)
    requires IsShapely(s.jobs[id], m) && OnlyReportsUnchecked(s, serial)
    ensures OnlyReportsUnchecked(AfterMove(s, id, m), serial)
  {
    LogAfterMove(s, id, m);
    if s.jobs[id].info.serial == serial {
      HushedStaysHushed(s.jobs[id], e, ViewOf(s, id), m);
    }
  }

  lemma MoveKeepsFate(s: State, id: JobId, e: Event, t: State, serial: nat)
    requires JobsInv(s) && JobMove(s, id, e) == Some(t)
    ensures OnlyReportsDiskLimit(s, serial) ==> OnlyReportsDiskLimit(t, serial)
    ensures OnlyReportsUnchecked(s, serial) ==> OnlyReportsUnchecked(t, serial)
  {
    var m := JobStep(s.jobs[id], e, ViewOf(s, id)).value;
    JobStepIsShapely(s.jobs[id], e, ViewOf(s, id), m);
    if OnlyReportsDiskLimit(s, serial) {
      MoveKeepsDoom(s, id, e, m, serial);
    }
    if OnlyReportsUnchecked(s, serial) {
      MoveKeepsHush(s, id, e, m, serial);
    }
  }

  /** Flags only ever go up, so they change nothing about a fate that is already decided. */
  ghost predicate KeepsFate(before: Job, after: Job) {
    && after.info.serial == before.info.serial
    && (IsDoomedByDisk(before) ==> IsDoomedByDisk(after))
    && (IsHushed(before) ==> IsHushed(after))
  }

  lemma AbortKeepsFate(j: Job)
    ensures KeepsFate(j, Aborted(j))
  {
  }

  lemma WatchKeepsFate(j: Job, isStoring: bool)
    requires WatchedJob(j, isStoring).Some?
    ensures KeepsFate(j, WatchedJob(j, isStoring).value)
  {
  }

  lemma FlagsKeepFate(s: State, t: State, serial: nat)
    requires t.log == s.log && t.runner == s.runner && t.jobs.Keys == s.jobs.Keys
    requires forall id <- s.jobs :: KeepsFate(s.jobs[id], t.jobs[id])
    ensures OnlyReportsDiskLimit(s, serial) ==> OnlyReportsDiskLimit(t, serial)
    ensures OnlyReportsUnchecked(s, serial) ==> OnlyReportsUnchecked(t, serial)
  {
  }

  lemma HeartKeepsFate(s: State, a: Action, t: State, serial: nat)
    requires HeartStep(s, a) == Some(t)
    ensures OnlyReportsDiskLimit(s, serial) ==> OnlyReportsDiskLimit(t, serial)
    ensures OnlyReportsUnchecked(s, serial) ==> OnlyReportsUnchecked(t, serial)
  {
    forall id <- s.jobs
      ensures KeepsFate(s.jobs[id], t.jobs[id])
    {
      AbortKeepsFate(s.jobs[id]);
    }
    FlagsKeepFate(s, t, serial);
  }

  lemma WatcherKeepsFate(s: State, id: JobId, isStoring: bool, t: State, serial: nat)
    requires WatcherStep(s, id, isStoring) == Some(t)
    ensures OnlyReportsDiskLimit(s, serial) ==> OnlyReportsDiskLimit(t, serial)
    ensures OnlyReportsUnchecked(s, serial) ==> OnlyReportsUnchecked(t, serial)
  {
    WatchKeepsFate(s.jobs[id], isStoring);
    FlagsKeepFate(s, t, serial);
  }

  lemma LoopKeepsFate(s: State, a: Action, t: State, capacity: Capacity, serial: nat)
    requires LoopStep(s, a, capacity) == Some(t)
    ensures OnlyReportsDiskLimit(s, serial) ==> OnlyReportsDiskLimit(t, serial)
    ensures OnlyReportsUnchecked(s, serial) ==> OnlyReportsUnchecked(t, serial)
  {
    assert t.log == s.log && t.runner.nextSerial >= s.runner.nextSerial;
    assert forall id <- t.jobs :: (id in s.jobs && t.jobs[id] == s.jobs[id]) || t.jobs[id].info.serial == s.runner.nextSerial;
  }

  lemma StepKeepsFate(s: State, a: Action, t: State, capacity: Capacity, serial: nat)
    requires JobsInv(s) && Next(s, a, capacity) == Some(t)
    ensures OnlyReportsDiskLimit(s, serial) ==> OnlyReportsDiskLimit(t, serial)
    ensures OnlyReportsUnchecked(s, serial) ==> OnlyReportsUnchecked(t, serial)
  {
    match a
    case JobMoves(id, e) => MoveKeepsFate(s, id, e, t, serial);
    case WatcherStores(id) => WatcherKeepsFate(s, id, true, t, serial);
    case WatcherCancels(id) => WatcherKeepsFate(s, id, false, t, serial);
    case HeartbeatSend => HeartKeepsFate(s, a, t, serial);
    case HeartbeatLost => HeartKeepsFate(s, a, t, serial);
    case HeartbeatReply(_) => HeartKeepsFate(s, a, t, serial);
    case _ => LoopKeepsFate(s, a, t, capacity, serial);
  }

  lemma {:induction false} RunsKeepFate(s: State, actions: seq<Action>, t: State, capacity: Capacity, serial: nat)
    requires Inv(s, capacity) && Runs(s, actions, t, capacity)
    ensures OnlyReportsDiskLimit(s, serial) ==> OnlyReportsDiskLimit(t, serial)
    ensures OnlyReportsUnchecked(s, serial) ==> OnlyReportsUnchecked(t, serial)
    decreases |actions|
  {
    if actions != [] {
      StepKeepsInv(s, actions[0], capacity);
      StepKeepsFate(s, actions[0], Next(s, actions[0], capacity).value, capacity, serial);
      RunsKeepFate(Next(s, actions[0], capacity).value, actions[1..], t, capacity, serial);
    }
  }

  /** If the disk flag is up while a disk check is still ahead, the execution sends DISK_LIMIT_EXCEEDED
      without an exit code, or nothing: never COMPLETED and no other FAILED. */
  lemma ATrippedWatcherDecidesTheReport(s: State, actions: seq<Action>, t: State, capacity: Capacity, id: JobId)
    requires Reachable(s, capacity) && capacity.Sound() && Runs(s, actions, t, capacity)
    requires id in s.jobs && s.jobs[id].info.isDiskLimitHit
    requires s.jobs[id].pc.Stage? || (s.jobs[id].pc.Check? &&
                                      (s.jobs[id].pc.check.DiskCheck? || s.jobs[id].pc.check.FinalDiskCheck?))
    ensures forall e <- t.log :: e.serial == s.jobs[id].info.serial ==>
                                   e.report == Report(false, DiskLimitExceeded, None)
  {
    ReachableKeepsInv(s, capacity);
    RunsKeepInv(s, actions, t, capacity);
    var serial := s.jobs[id].info.serial;
    assert IsDoomedByDisk(s.jobs[id]);
    RunsKeepFate(s, actions, t, capacity, serial);
    forall e <- t.log | e.serial == serial
      ensures e.report == Report(false, DiskLimitExceeded, None)
    {
      assert IsHonest(e.report, e.restore);
    }
  }

  /** Aborting a job before the context check of its failure leaves only the reports that no context
      check precedes. */
  lemma AnAbortSilencesCheckedFailures(s: State, actions: seq<Action>, t: State, capacity: Capacity, id: JobId)
    requires Reachable(s, capacity) && capacity.Sound() && Runs(s, actions, t, capacity)
    requires id in s.jobs && s.jobs[id].info.isAborted
    requires s.jobs[id].pc.Spawn? || s.jobs[id].pc.Stage?
             || (s.jobs[id].pc.Check? && (s.jobs[id].pc.check.DiskCheck? || s.jobs[id].pc.check.ContextCheck?))
    ensures forall e <- t.log :: e.serial == s.jobs[id].info.serial ==> IsUncheckedCause(e.report.cause)
  {
    ReachableKeepsInv(s, capacity);
    assert IsHushed(s.jobs[id]);
    RunsKeepFate(s, actions, t, capacity, s.jobs[id].info.serial);
  }
}
