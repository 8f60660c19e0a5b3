/**
One verification job as a program counter. `JobStep` is one atomic move of `executeJob` and of the
deferred calls that unwind it: what the job reads (its context, the disk flag, the abort set) is read at
that instant, so the disk watcher, the heartbeat and the shutdown may act between any two moves. The
outcome of every engine, database and API call is the event the environment picks.
*/
module AgentJob {
  import opened Options

  type JobId = nat

  const MAX_DOWNLOAD_ATTEMPTS := 5

  /** What pg_restore came back with; code 0 is the only outcome without a Go error. */
  datatype RestoreOutcome =
    | ExecFailed
    | Exited(code: int, isDiskExhausted: bool, hasOnlyIgnorableErrors: bool)

  /** Which message a report carries. */
  datatype Cause =
    | MajorUnresolved | SpawnFailed | DownloadFailed | RolesFailed | PreRestoreFailed
    | RestoreExecFailed | RestoreOutOfDisk | RestoreRejected | PostRestoreFailed
    | ConnectionDead | StatsFailed | DiskLimitExceeded | Verified

  datatype Report = Report(isCompleted: bool, cause: Cause, exitCode: Option<int>)

  /** The failing call whose error the job is handling; `isGone` tells a 410 from a context that ended. */
  datatype Failure =
    | AbortNoReport(isGone: bool) | DownloadError | RolesError | PreRestoreError | RestoreError(outcome: RestoreOutcome)
    | PostRestoreError | StatsError

  /** From the start of the goroutine to the end of Manager.Spawn. */
  datatype SpawnPc =
    | Entered | Registered | EnsuringImage | ClearingLeftovers | CreatingNetwork | CreatingContainer
    | StartingContainer | UndoingContainer | UndoingNetwork | SpawnFailedCheck

  /** The stages that run beside the disk watcher. */
  datatype StagePc =
    | StartingWatcher | DownloadCheck(attempt: nat) | Downloading(attempt: nat) | DownloadSleeping(attempt: nat)
    | EnsuringRoles | PreRestoring | Restoring | PostRestoring | CollectingStats

  /** The handling of a failed stage, the final check, and a report that is about to leave. */
  datatype CheckPc =
    | DiskCheck(failure: Failure) | ContextCheck(failure: Failure) | ProbingConnection | FinalDiskCheck
    | Guarding(report: Report) | Sending(report: Report)

  /** The deferred calls, and the slot and wait-group bookkeeping of the pool after them. */
  datatype UnwindPc = RemovingContainer | RemovingNetwork | Untracking | CancellingRunner | Releasing | Released

  datatype Pc = Spawn(spawn: SpawnPc) | Stage(stage: StagePc) | Check(check: CheckPc) | Unwind(unwind: UnwindPc)

  datatype WatcherPc = NotStarted | Watching | Stored | Finished

  /** What stays with the job while its program counter moves. `isAborted` remembers that an abort list
      named the job while it was registered. */
  datatype JobInfo = JobInfo(
    serial: nat, isTimescale: bool, hasDiskBudget: bool,
    isDiskLimitHit: bool, watcher: WatcherPc, isCancelled: bool, isAborted: bool,
    hasContainerHandle: bool, restore: Option<RestoreOutcome>, hasPanicked: bool)

  datatype Job = Job(pc: Pc, info: JobInfo)

  /** How a call or a move came out. `FailedAfterEffect` is an error although the daemon did the work,
      `FailedHalfway` a leftover removal that only got rid of the container. */
  datatype Event =
    | Proceed | Succeeded | Failed | FailedAfterEffect | FailedHalfway
    | ContextSeen | Gone | NonRetryable | Returned(outcome: RestoreOutcome) | Panicked

  /** What a move does outside the job. */
  datatype Effect =
    | NoEffect | Track | Untrack
    | ClearLeftovers | ClearContainer | AddNetwork | LeakNewNetwork | AddContainer | LeakNewContainer
    | DropContainer | DropNetwork | Leak
    | Post(sent: Report) | StopRunner | FreeSlot | Leave

  /** What a job can see of the world when it moves. */
  datatype View = View(isRunnerLive: bool, isInAbortSet: bool, hasContainer: bool)

  datatype Move = Move(job: Job, effect: Effect)

  function InitialJob(serial: nat, isTimescale: bool, hasDiskBudget: bool): Job {
    Job(Spawn(Entered),
        JobInfo(serial, isTimescale, hasDiskBudget, false, NotStarted, false, false, false, None, false))
  }

  // The job context is derived from the runner context.
  predicate IsContextDone(j: Job, v: View) {
    j.info.isCancelled || !v.isRunnerLive
  }

  // RestoreResult nil or not decides the exit code; a nil one is retryable for the backend.
  function FailureReport(cause: Cause, exitCode: Option<int>): Report {
    Report(false, cause, exitCode)
  }

  function ExitCodeOf(j: Job): int {
    match j.info.restore
    case Some(Exited(code, _, _)) => code
    case _ => 0
  }

  function UnwindOf(j: Job): Pc {
    if j.info.hasContainerHandle then Unwind(RemovingContainer) else Unwind(Untracking)
  }

  function AfterRestore(j: Job): Pc {
    if j.info.isTimescale then Stage(PostRestoring) else Stage(CollectingStats)
  }

  function AfterDiskCheck(j: Job, f: Failure): Pc {
    match f
    case AbortNoReport(_) => UnwindOf(j)
    case DownloadError => Check(Guarding(FailureReport(DownloadFailed, None)))
    case _ => Check(ContextCheck(f))
  }

  function AfterContextCheck(j: Job, f: Failure): Pc {
    match f
    case AbortNoReport(_) => UnwindOf(j)
    case DownloadError => Check(Guarding(FailureReport(DownloadFailed, None)))
    case RolesError => Check(Guarding(FailureReport(RolesFailed, None)))
    case PreRestoreError => Check(Guarding(FailureReport(PreRestoreFailed, None)))
    case RestoreError(ExecFailed) => Check(Guarding(FailureReport(RestoreExecFailed, None)))
    case RestoreError(Exited(code, isDiskExhausted, hasOnlyIgnorableErrors)) =>
      if isDiskExhausted then Check(Guarding(FailureReport(RestoreOutOfDisk, None)))
      else if !hasOnlyIgnorableErrors then Check(Guarding(FailureReport(RestoreRejected, Some(code))))
      else AfterRestore(j)
    case PostRestoreError => Check(Guarding(FailureReport(PostRestoreFailed, Some(ExitCodeOf(j)))))
    case StatsError => Check(ProbingConnection)
  }

  // Everything after Track and before the deferred calls.
  predicate CanPanic(pc: Pc) {
    pc != Spawn(Entered) && !pc.Unwind?
  }

  function Goto(j: Job, pc: Pc): Option<Move> {
    Some(Move(j.(pc := pc), NoEffect))
  }

  function GotoWith(j: Job, pc: Pc, effect: Effect): Option<Move> {
    Some(Move(j.(pc := pc), effect))
  }

  /** The moves of a job; None when the event cannot happen at this point. */
  function JobStep(j: Job, e: Event, v: View): Option<Move> {
    if e == Panicked then
      if CanPanic(j.pc) then
        Some(Move(Job(UnwindOf(j), j.info.(hasPanicked := true)), if j.info.hasContainerHandle then NoEffect else Leak))
      else None
    else match j.pc
      case Spawn(_) => SpawnStep(j, e, v)
      case Stage(_) => StageStep(j, e, v)
      case Check(_) => CheckStep(j, e, v)
      case Unwind(_) => UnwindStep(j, e, v)
  }

  function SpawnStep(j: Job, e: Event, v: View): Option<Move>
    requires j.pc.Spawn?
  {
    match j.pc.spawn
    case Entered =>
      if e == Proceed then GotoWith(j, Spawn(Registered), Track)
      else None
    case Registered =>
      if e == Succeeded then Goto(j, Spawn(EnsuringImage))
      else if e == Failed then Goto(j, Check(Guarding(FailureReport(MajorUnresolved, None))))
      else None
    case EnsuringImage =>
      if e == Succeeded then Goto(j, Spawn(ClearingLeftovers))
      else if e == Failed then Goto(j, Spawn(SpawnFailedCheck))
      else None
    case ClearingLeftovers =>
      if e == Succeeded then GotoWith(j, Spawn(CreatingNetwork), ClearLeftovers)
      else if e == Failed then Goto(j, Spawn(SpawnFailedCheck))
      else if e == FailedHalfway then GotoWith(j, Spawn(SpawnFailedCheck), ClearContainer)
      else None
    case CreatingNetwork =>
      if e == Succeeded then GotoWith(j, Spawn(CreatingContainer), AddNetwork)
      else if e == Failed then Goto(j, Spawn(SpawnFailedCheck))
      else if e == FailedAfterEffect then GotoWith(j, Spawn(SpawnFailedCheck), LeakNewNetwork)
      else None
    case CreatingContainer =>
      if e == Succeeded then GotoWith(j, Spawn(StartingContainer), AddContainer)
      else if e == Failed then Goto(j, Spawn(UndoingNetwork))
      else if e == FailedAfterEffect then GotoWith(j, Spawn(UndoingNetwork), LeakNewContainer)
      else None
    case StartingContainer =>
      if e == Succeeded then Some(Move(Job(Stage(StartingWatcher), j.info.(hasContainerHandle := true)), NoEffect))
      else if e == Failed then Goto(j, Spawn(UndoingContainer))
      else None
    case UndoingContainer =>
      if e == Succeeded then GotoWith(j, Spawn(UndoingNetwork), DropContainer)
      else if e == Failed then GotoWith(j, Spawn(UndoingNetwork), Leak)
      else None
    case UndoingNetwork =>
      if e == Succeeded then (if v.hasContainer then None else GotoWith(j, Spawn(SpawnFailedCheck), DropNetwork))
      else if e == Failed then GotoWith(j, Spawn(SpawnFailedCheck), Leak)
      else None
    case SpawnFailedCheck =>
      if e == Proceed then
        Goto(j, if IsContextDone(j, v) then Unwind(Untracking) else Check(Guarding(FailureReport(SpawnFailed, None))))
      else None
  }

  function StageStep(j: Job, e: Event, v: View): Option<Move>
    requires j.pc.Stage?
  {
    match j.pc.stage
    case StartingWatcher =>
      if e == Proceed then
        var watcher := if j.info.hasDiskBudget then Watching else NotStarted;
        Some(Move(Job(Stage(DownloadCheck(1)), j.info.(watcher := watcher)), NoEffect))
      else None
    case DownloadCheck(n) =>
      if e == Proceed then
        Goto(j, if IsContextDone(j, v) then Check(DiskCheck(AbortNoReport(false))) else Stage(Downloading(n)))
      else None
    case Downloading(n) =>
      if e == Succeeded then Goto(j, Stage(EnsuringRoles))
      else if e == Gone then Goto(j, Check(DiskCheck(AbortNoReport(true))))
      else if e == NonRetryable then Goto(j, Check(DiskCheck(DownloadError)))
      else if e == Failed then Goto(j, Stage(DownloadSleeping(n)))
      else None
    case DownloadSleeping(n) =>
      if e == ContextSeen then (if IsContextDone(j, v) then Goto(j, Check(DiskCheck(AbortNoReport(false)))) else None)
      else if e == Proceed then
        Goto(j, if n < MAX_DOWNLOAD_ATTEMPTS then Stage(DownloadCheck(n + 1)) else Check(DiskCheck(DownloadError)))
      else None
    case EnsuringRoles =>
      if e == Succeeded then Goto(j, if j.info.isTimescale then Stage(PreRestoring) else Stage(Restoring))
      else if e == Failed then Goto(j, Check(DiskCheck(RolesError)))
      else None
    case PreRestoring =>
      if e == Succeeded then Goto(j, Stage(Restoring))
      else if e == Failed then Goto(j, Check(DiskCheck(PreRestoreError)))
      else None
    case Restoring =>
      if !e.Returned? then None
      else
        var isExitedWell := e.outcome.Exited? && e.outcome.code == 0;
        Goto(j.(info := j.info.(restore := Some(e.outcome))),
             if isExitedWell then AfterRestore(j) else Check(DiskCheck(RestoreError(e.outcome))))
    case PostRestoring =>
      if e == Succeeded then Goto(j, Stage(CollectingStats))
      else if e == Failed then Goto(j, Check(DiskCheck(PostRestoreError)))
      else None
    case CollectingStats =>
      if e == Succeeded then Goto(j, Check(FinalDiskCheck))
      else if e == Failed then Goto(j, Check(DiskCheck(StatsError)))
      else None
  }

  function CheckStep(j: Job, e: Event, v: View): Option<Move>
    requires j.pc.Check?
  {
    match j.pc.check
    case DiskCheck(f) =>
      if e == Proceed then
        Goto(j, if j.info.isDiskLimitHit then Check(Guarding(FailureReport(DiskLimitExceeded, None)))
                else AfterDiskCheck(j, f))
      else None
    case ContextCheck(f) =>
      if e == Proceed then Goto(j, if IsContextDone(j, v) then UnwindOf(j) else AfterContextCheck(j, f))
      else None
    case ProbingConnection =>
      if e == Succeeded then Goto(j, Check(Guarding(FailureReport(StatsFailed, Some(ExitCodeOf(j))))))
      else if e == Failed then Goto(j, Check(Guarding(FailureReport(ConnectionDead, None))))
      else None
    case FinalDiskCheck =>
      if e == Proceed then
        Goto(j, if j.info.isDiskLimitHit then Check(Guarding(FailureReport(DiskLimitExceeded, None)))
                else Check(Sending(Report(true, Verified, Some(ExitCodeOf(j))))))
      else None
    case Guarding(r) =>
      if e == Proceed then Goto(j, if !v.isRunnerLive || v.isInAbortSet then UnwindOf(j) else Check(Sending(r)))
      else None
    case Sending(r) =>
      if e == Proceed then GotoWith(j, UnwindOf(j), Post(r))
      else None
  }

  function UnwindStep(j: Job, e: Event, v: View): Option<Move>
    requires j.pc.Unwind?
  {
    match j.pc.unwind
    case RemovingContainer =>
      if e == Succeeded then GotoWith(j, Unwind(RemovingNetwork), DropContainer)
      else if e == Failed then GotoWith(j, Unwind(RemovingNetwork), Leak)
      else None
    case RemovingNetwork =>
      if e == Succeeded then (if v.hasContainer then None else GotoWith(j, Unwind(Untracking), DropNetwork))
      else if e == Failed then GotoWith(j, Unwind(Untracking), Leak)
      else None
    case Untracking =>
      if e == Proceed then
        GotoWith(j, if j.info.hasPanicked then Unwind(CancellingRunner) else Unwind(Releasing), Untrack)
      else None
    case CancellingRunner =>
      if e == Proceed then GotoWith(j, Unwind(Releasing), StopRunner)
      else None
    case Releasing =>
      if e == Proceed then GotoWith(j, Unwind(Released), FreeSlot)
      else None
    case Released =>
      if e == Proceed then GotoWith(j, Unwind(Released), Leave)
      else None
  }

  // ----- where in its life a job is -----

  predicate IsTracked(pc: Pc) {
    match pc
    case Spawn(p) => p != Entered
    case Unwind(p) => p == RemovingContainer || p == RemovingNetwork || p == Untracking
    case _ => true
  }

  predicate HoldsSlot(pc: Pc) {
    pc != Unwind(Released)
  }

  /** The points at which a container of the current attempt may exist. */
  predicate MayHaveContainer(j: Job) {
    match j.pc
    case Spawn(p) => p == StartingContainer || p == UndoingContainer
    case Unwind(p) => p == RemovingContainer
    case _ => j.info.hasContainerHandle
  }

  predicate MayHaveNetwork(j: Job) {
    match j.pc
    case Spawn(p) => p == CreatingContainer || p == StartingContainer || p == UndoingContainer || p == UndoingNetwork
    case Unwind(p) => p == RemovingContainer || p == RemovingNetwork
    case _ => j.info.hasContainerHandle
  }

  // ----- the reports a job may be about to send -----

  predicate HasRestored(j: Job) {
    j.info.restore.Some? && j.info.restore.value.Exited? &&
    (j.info.restore.value.code == 0 ||
     (!j.info.restore.value.isDiskExhausted && j.info.restore.value.hasOnlyIgnorableErrors))
  }

  /** The causes that say something about the archive, and so may make the backend reject it. */
  predicate IsVerdictOnArchive(cause: Cause) {
    cause == RestoreRejected || cause == PostRestoreFailed || cause == StatsFailed
  }

  /** The failures that precede pg_restore. */
  predicate IsSetupCause(cause: Cause) {
    cause == MajorUnresolved || cause == SpawnFailed || cause == DownloadFailed || cause == RolesFailed
    || cause == PreRestoreFailed
  }

  /** What a report may claim, given what pg_restore really did (None: it never returned). */
  ghost predicate IsHonest(r: Report, restore: Option<RestoreOutcome>) {
    && (r.isCompleted <==> r.cause == Verified)
    && (r.exitCode.Some? <==> r.isCompleted || IsVerdictOnArchive(r.cause))
    && (r.exitCode.Some? ==> restore.Some? && restore.value.Exited? && restore.value.code == r.exitCode.value)
    && (r.exitCode.Some? && restore.value.code != 0 ==> !restore.value.isDiskExhausted)
    && (r.cause == RestoreRejected ==> restore.value.code != 0 && !restore.value.hasOnlyIgnorableErrors)
    && (r.exitCode.Some? && r.cause != RestoreRejected ==>
          restore.value.code == 0 || restore.value.hasOnlyIgnorableErrors)
    && (r.cause == RestoreExecFailed ==> restore == Some(ExecFailed))
    && (r.cause == RestoreOutOfDisk ==> restore.Some? && restore.value.Exited? && restore.value.code != 0 &&
                                        restore.value.isDiskExhausted)
    && (IsSetupCause(r.cause) ==> restore == None)
  }

  ghost predicate FailureMatches(j: Job, f: Failure) {
    match f
    case AbortNoReport(_) => true
    case DownloadError => j.info.restore == None
    case RolesError => j.info.restore == None
    case PreRestoreError => j.info.restore == None
    case RestoreError(outcome) => j.info.restore == Some(outcome) && (outcome.Exited? ==> outcome.code != 0)
    case PostRestoreError => HasRestored(j)
    case StatsError => HasRestored(j)
  }

  /** What every reachable job satisfies on its own. */
  ghost predicate JobInv(j: Job) {
    FlagInv(j) && PcInv(j)
  }

  // Only the watcher and an abort cancel a job, and the watcher stores its flag first.
  ghost predicate FlagInv(j: Job) {
    && (j.info.isCancelled ==> j.info.isAborted || j.info.isDiskLimitHit)
    && (j.info.isAborted ==> j.info.isCancelled)
    && (j.info.isDiskLimitHit <==> j.info.watcher == Stored || j.info.watcher == Finished)
    && (j.info.watcher == Finished ==> j.info.isCancelled)
    && (j.info.watcher != NotStarted ==> j.info.hasDiskBudget)
  }

  ghost predicate PcInv(j: Job) {
    match j.pc
    case Spawn(_) => !j.info.hasContainerHandle && j.info.restore == None && j.info.watcher == NotStarted
    case Stage(p) => j.info.hasContainerHandle && StageInv(j, p)
    case Check(p) => CheckInv(j, p)
    case Unwind(p) => p == RemovingContainer || p == RemovingNetwork ==> j.info.hasContainerHandle
  }

  ghost predicate StageInv(j: Job, p: StagePc) {
    match p
    case StartingWatcher => j.info.restore == None && j.info.watcher == NotStarted
    case DownloadCheck(n) => j.info.restore == None && 1 <= n <= MAX_DOWNLOAD_ATTEMPTS
    case Downloading(n) => j.info.restore == None && 1 <= n <= MAX_DOWNLOAD_ATTEMPTS
    case DownloadSleeping(n) => j.info.restore == None && 1 <= n <= MAX_DOWNLOAD_ATTEMPTS
    case PostRestoring => HasRestored(j)
    case CollectingStats => HasRestored(j)
    case _ => j.info.restore == None
  }

  ghost predicate CheckInv(j: Job, p: CheckPc) {
    match p
    case DiskCheck(f) => j.info.hasContainerHandle && FailureMatches(j, f)
    case ContextCheck(f) =>
      j.info.hasContainerHandle && FailureMatches(j, f) && !f.AbortNoReport? && f != DownloadError
    case ProbingConnection => j.info.hasContainerHandle && HasRestored(j)
    case FinalDiskCheck => j.info.hasContainerHandle && HasRestored(j)
    case Guarding(r) => !r.isCompleted && IsHonest(r, j.info.restore)
    case Sending(r) => IsHonest(r, j.info.restore)
  }

  lemma SpawnStepKeepsJobInv(j: Job, e: Event, v: View, m: Move)
    requires JobInv(j) && j.pc.Spawn? && SpawnStep(j, e, v) == Some(m)
    ensures JobInv(m.job)
  {
  }

  lemma StageStepKeepsJobInv(j: Job, e: Event, v: View, m: Move)
    requires JobInv(j) && j.pc.Stage? && StageStep(j, e, v) == Some(m)
    ensures JobInv(m.job)
  {
  }

  lemma AfterContextCheckKeepsPcInv(j: Job, f: Failure)
    requires JobInv(j) && j.pc == Check(ContextCheck(f))
    ensures PcInv(Job(AfterContextCheck(j, f), j.info))
  {
  }

  lemma CheckStepKeepsJobInv(j: Job, e: Event, v: View, m: Move)
    requires JobInv(j) && j.pc.Check? && CheckStep(j, e, v) == Some(m)
    ensures JobInv(m.job)
  {
    match j.pc.check
    case DiskCheck(f) =>
    case ContextCheck(f) => AfterContextCheckKeepsPcInv(j, f);
    case ProbingConnection =>
    case FinalDiskCheck =>
    case Guarding(r) =>
    case Sending(r) =>
  }

  lemma UnwindStepKeepsJobInv(j: Job, e: Event, v: View, m: Move)
    requires JobInv(j) && j.pc.Unwind? && UnwindStep(j, e, v) == Some(m)
    ensures JobInv(m.job)
  {
  }

  lemma JobStepKeepsJobInv(j: Job, e: Event, v: View, m: Move)
    requires JobInv(j) && JobStep(j, e, v) == Some(m)
    ensures JobInv(m.job)
  {
    if e != Panicked {
      match j.pc
      case Spawn(_) => SpawnStepKeepsJobInv(j, e, v, m);
      case Stage(_) => StageStepKeepsJobInv(j, e, v, m);
      case Check(_) => CheckStepKeepsJobInv(j, e, v, m);
      case Unwind(_) => UnwindStepKeepsJobInv(j, e, v, m);
    }
  }

  // ----- what the effects of the moves say about the artifacts -----

  /** Which moves change whether the job is registered, holds a slot, or may own a container or network. */
  ghost predicate IsShapely(j: Job, m: Move) {
    && (IsTracked(m.job.pc) <==> m.effect == Track || (IsTracked(j.pc) && m.effect != Untrack))
    && (HoldsSlot(j.pc) <==> m.effect != Leave)
    && (HoldsSlot(m.job.pc) <==> m.effect != FreeSlot && m.effect != Leave)
    && (m.effect == AddContainer ==> MayHaveContainer(m.job))
    && (m.effect == AddNetwork ==> MayHaveNetwork(m.job))
    && (MayHaveContainer(j) && m.effect != DropContainer && m.effect != Leak ==> MayHaveContainer(m.job))
    && (MayHaveNetwork(j) && m.effect != DropNetwork && m.effect != Leak ==> MayHaveNetwork(m.job))
    && m.job.info.serial == j.info.serial
    && (m.effect.Post? ==> j.pc == Check(Sending(m.effect.sent)) && m.job.pc.Unwind? && m.job.info == j.info)
    && (j.pc.Unwind? ==> m.job.pc.Unwind?)
  }

  lemma JobStepIsShapely(j: Job, e: Event, v: View, m: Move)
    requires JobInv(j) && JobStep(j, e, v) == Some(m)
    ensures IsShapely(j, m)
  {
    if e != Panicked {
      match j.pc
      case Spawn(_) => SpawnStepIsShapely(j, e, v, m);
      case Stage(_) => StageStepIsShapely(j, e, v, m);
      case Check(_) => CheckStepIsShapely(j, e, v, m);
      case Unwind(_) => UnwindStepIsShapely(j, e, v, m);
    }
  }

  lemma SpawnStepIsShapely(j: Job, e: Event, v: View, m: Move)
    requires JobInv(j) && j.pc.Spawn? && SpawnStep(j, e, v) == Some(m)
    ensures IsShapely(j, m)
  {
  }

  lemma StageStepIsShapely(j: Job, e: Event, v: View, m: Move)
    requires JobInv(j) && j.pc.Stage? && StageStep(j, e, v) == Some(m)
    ensures IsShapely(j, m)
  {
  }

  lemma CheckStepIsShapely(j: Job, e: Event, v: View, m: Move)
    requires JobInv(j) && j.pc.Check? && CheckStep(j, e, v) == Some(m)
    ensures IsShapely(j, m)
  {
    match j.pc.check
    case DiskCheck(f) =>
    case ContextCheck(f) =>
    case ProbingConnection =>
    case FinalDiskCheck =>
    case Guarding(r) =>
    case Sending(r) =>
  }

  lemma UnwindStepIsShapely(j: Job, e: Event, v: View, m: Move)
    requires JobInv(j) && j.pc.Unwind? && UnwindStep(j, e, v) == Some(m)
    ensures IsShapely(j, m)
  {
  }

  // ----- jobs whose reports are already decided -----

  /** The disk flag is up and the job still has a disk check ahead, or is already acting on one. */
  predicate IsDoomedByDisk(j: Job) {
    j.info.isDiskLimitHit &&
    match j.pc
    case Spawn(_) => false
    case Stage(_) => true
    case Check(DiskCheck(_)) => true
    case Check(FinalDiskCheck) => true
    case Check(Guarding(r)) => r.cause == DiskLimitExceeded
    case Check(Sending(r)) => r.cause == DiskLimitExceeded
    case Check(_) => false
    case Unwind(_) => true
  }

  /** The reports that are not preceded by a check of the job context. */
  predicate IsUncheckedCause(cause: Cause) {
    cause == MajorUnresolved || cause == DownloadFailed || cause == DiskLimitExceeded || cause == Verified
  }

  /** The job was aborted before the context check of any failure it has to report. */
  predicate IsHushed(j: Job) {
    j.info.isAborted && j.info.isCancelled &&
    match j.pc
    case Check(ProbingConnection) => false
    case Check(Guarding(r)) => IsUncheckedCause(r.cause)
    case Check(Sending(r)) => IsUncheckedCause(r.cause)
    case _ => true
  }

  lemma DoomedStaysDoomed(j: Job, e: Event, v: View, m: Move)
    requires JobInv(j) && IsDoomedByDisk(j) && JobStep(j, e, v) == Some(m)
    ensures IsDoomedByDisk(m.job)
    ensures m.effect.Post? ==> m.effect.sent.cause == DiskLimitExceeded
  {
    if e != Panicked {
      match j.pc
      case Spawn(_) =>
      case Stage(_) => StageStepKeepsJobInv(j, e, v, m);
      case Check(_) => CheckStepIsShapely(j, e, v, m);
      case Unwind(_) => UnwindStepIsShapely(j, e, v, m);
    }
  }

  lemma HushedSpawnStaysHushed(j: Job, e: Event, v: View, m: Move)
    requires JobInv(j) && IsHushed(j) && j.pc.Spawn? && SpawnStep(j, e, v) == Some(m)
    ensures IsHushed(m.job) && !m.effect.Post?
  {
    assert IsContextDone(j, v);
  }

  lemma HushedCheckStaysHushed(j: Job, e: Event, v: View, m: Move)
    requires JobInv(j) && IsHushed(j) && j.pc.Check? && CheckStep(j, e, v) == Some(m)
    ensures IsHushed(m.job)
    ensures m.effect.Post? ==> IsUncheckedCause(m.effect.sent.cause)
  {
    assert IsContextDone(j, v);
  }

  lemma HushedStaysHushed(j: Job, e: Event, v: View, m: Move)
    requires JobInv(j) && IsHushed(j) && JobStep(j, e, v) == Some(m)
    ensures IsHushed(m.job)
    ensures m.effect.Post? ==> IsUncheckedCause(m.effect.sent.cause)
  {
    if e != Panicked {
      match j.pc
      case Spawn(_) => HushedSpawnStaysHushed(j, e, v, m);
      case Stage(_) => StageStepIsShapely(j, e, v, m);
      case Check(_) => HushedCheckStaysHushed(j, e, v, m);
      case Unwind(_) => UnwindStepIsShapely(j, e, v, m);
    }
  }

  /** A download gives up without a 410 only because its context has ended. */
  predicate HasContextReason(j: Job, isRunnerLive: bool) {
    j.pc == Check(DiskCheck(AbortNoReport(false))) ==> j.info.isCancelled || !isRunnerLive
  }

  lemma JobStepKeepsContextReason(j: Job, e: Event, v: View, m: Move)
    requires JobInv(j) && HasContextReason(j, v.isRunnerLive) && JobStep(j, e, v) == Some(m)
    ensures HasContextReason(m.job, v.isRunnerLive)
  {
    if e != Panicked {
      match j.pc
      case Spawn(_) =>
      case Stage(_) =>
      case Check(_) => CheckStepIsShapely(j, e, v, m);
      case Unwind(_) =>
    }
  }

  /** The moves that end a job without a report: a panic, a context that is taken for an abort after a failed
      spawn, download or stage, a stream that is gone, and the guard of a failed report. */
  predicate IsSilentEnd(j: Job, e: Event, v: View) {
    e == Panicked ||
    match j.pc
    case Spawn(p) => p == SpawnFailedCheck && IsContextDone(j, v)
    case Check(DiskCheck(f)) => f.AbortNoReport? && !j.info.isDiskLimitHit
    case Check(ContextCheck(_)) => IsContextDone(j, v)
    case Check(Guarding(_)) => !v.isRunnerLive || v.isInAbortSet
    case _ => false
  }

  lemma SilentEndsAreExactlyThese(j: Job, e: Event, v: View, m: Move)
    requires JobInv(j) && !j.pc.Unwind? && JobStep(j, e, v) == Some(m)
    ensures m.job.pc.Unwind? && !m.effect.Post? <==> IsSilentEnd(j, e, v)
  {
    if e != Panicked {
      match j.pc
      case Spawn(_) => SpawnStepIsShapely(j, e, v, m);
      case Stage(_) => StageStepIsShapely(j, e, v, m);
      case Check(ContextCheck(f)) => AfterContextCheckKeepsPcInv(j, f);
      case Check(_) =>
      case Unwind(_) =>
    }
  }

  /** A job gives up without a report although the agent runs on and no abort list named it exactly when the
      stream was gone, it panics, a stale abort list still names its verification, or the watcher has
      cancelled it between the disk check and the context check of a failed stage. */
  lemma WhyAJobFallsSilent(j: Job, e: Event, v: View, m: Move)
    requires JobInv(j) && HasContextReason(j, v.isRunnerLive) && JobStep(j, e, v) == Some(m)
    requires !j.pc.Unwind? && v.isRunnerLive && !j.info.isAborted
    ensures m.job.pc.Unwind? && !m.effect.Post? <==>
              || e == Panicked
              || (j.pc == Check(DiskCheck(AbortNoReport(true))) && !j.info.isDiskLimitHit)
              || (j.pc.Check? && j.pc.check.Guarding? && v.isInAbortSet)
              || (j.pc.Check? && j.pc.check.ContextCheck? && j.info.isDiskLimitHit && j.info.isCancelled)
  {
    SilentEndsAreExactlyThese(j, e, v, m);
  }

  /** The failed report a move of an aborted job prepares, if it does: that of an unresolved major, of a
      download that was given up, and of the disk limit, and the verdict of a connection probe that had
      already been asked for. */
  function FailureOfAnAborted(j: Job, e: Event): Option<Report> {
    match j.pc
    case Spawn(p) =>
      if p == Registered && e == Failed then Some(FailureReport(MajorUnresolved, None)) else None
    case Check(DiskCheck(f)) =>
      if e == Proceed && j.info.isDiskLimitHit then Some(FailureReport(DiskLimitExceeded, None))
      else if e == Proceed && f == DownloadError then Some(FailureReport(DownloadFailed, None))
      else None
    case Check(FinalDiskCheck) =>
      if e == Proceed && j.info.isDiskLimitHit then Some(FailureReport(DiskLimitExceeded, None)) else None
    case Check(ProbingConnection) =>
      if e == Succeeded then Some(FailureReport(StatsFailed, Some(ExitCodeOf(j))))
      else if e == Failed then Some(FailureReport(ConnectionDead, None))
      else None
    case _ => None
  }

  lemma AnAbortLeavesExactlyTheseOpen(j: Job, e: Event, v: View, m: Move, r: Report)
    requires JobInv(j) && j.info.isAborted && JobStep(j, e, v) == Some(m)
    ensures m.job.pc == Check(Guarding(r)) <==> FailureOfAnAborted(j, e) == Some(r)
  {
    assert IsContextDone(j, v);
    if e != Panicked {
      match j.pc
      case Spawn(_) =>
      case Stage(_) => StageStepIsShapely(j, e, v, m);
      case Check(_) =>
      case Unwind(_) => UnwindStepIsShapely(j, e, v, m);
    }
  }

  /** A failed report is about to be sent only when the guard has just let it through. */
  lemma OnlyTheGuardLetsAFailureThrough(j: Job, e: Event, v: View, m: Move, r: Report)
    requires JobInv(j) && JobStep(j, e, v) == Some(m) && m.job.pc == Check(Sending(r)) && !r.isCompleted
    ensures j.pc == Check(Guarding(r)) && e == Proceed && v.isRunnerLive && !v.isInAbortSet && m.effect == NoEffect
  {
    match j.pc
    case Spawn(_) => if e != Panicked { SpawnStepIsShapely(j, e, v, m); }
    case Stage(_) => if e != Panicked { StageStepIsShapely(j, e, v, m); }
    case Check(ContextCheck(f)) => AfterContextCheckKeepsPcInv(j, f);
    case Check(_) =>
    case Unwind(_) =>
  }

  /** A context check is only ever entered past a disk check that found the flag down. */
  lemma ContextCheckFollowsACleanDiskCheck(j: Job, e: Event, v: View, m: Move)
    requires JobInv(j) && JobStep(j, e, v) == Some(m)
    requires m.job.pc.Check? && m.job.pc.check.ContextCheck?
    ensures j.pc.Check? && j.pc.check == DiskCheck(m.job.pc.check.failure) && !j.info.isDiskLimitHit
  {
    match j.pc
    case Spawn(_) => if e != Panicked { SpawnStepIsShapely(j, e, v, m); }
    case Stage(_) => if e != Panicked { StageStepIsShapely(j, e, v, m); }
    case Check(ContextCheck(f)) => AfterContextCheckKeepsPcInv(j, f);
    case Check(_) =>
    case Unwind(_) =>
  }
}
