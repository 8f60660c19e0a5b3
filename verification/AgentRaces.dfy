/**
The disk verdict: the runner's comments promise that a tripped disk budget is never swallowed. Every failing
stage after the download has a window in which it is; the lemmas show the window from every state that has
it open, that there is no other way to end silently, and at which points a raised flag is sure to be reported.
*/
module AgentRaces {
  import opened Options
  import opened AgentCapacity
  import opened AgentJob
  import opened AgentProtocol
  import opened AgentRuns
  import opened AgentSafety

  lemma ACancelledContextIsTakenForAnAbort(j: Job, v: View)
    requires j.pc.Check? && j.pc.check.ContextCheck? && j.info.isCancelled && j.info.hasContainerHandle
    ensures JobStep(j, Proceed, v) == Some(Move(Job(Unwind(RemovingContainer), j.info), NoEffect))
  {
  }

  /** The failures whose handling asks for the context after the disk flag. */
  predicate HasContextCheck(f: Failure) {
    !f.AbortNoReport? && f != DownloadError
  }

  /** The stage fails in a way that its disk check and then its context check will handle. */
  predicate IsCheckedFailure(j: Job, e: Event, v: View, failing: Job) {
    && j.pc.Stage? && JobStep(j, e, v) == Some(Move(failing, NoEffect))
    && failing.pc.Check? && failing.pc.check.DiskCheck? && HasContextCheck(failing.pc.check.failure)
  }

  /** These are all the stages after the download, pg_restore among them, whatever its outcome. */
  lemma WhichFailuresAreChecked(j: Job, e: Event, v: View)
    requires j.pc.Stage?
    ensures (exists failing :: IsCheckedFailure(j, e, v, failing)) <==>
              || (e == Failed && (j.pc.stage == EnsuringRoles || j.pc.stage == PreRestoring ||
                                  j.pc.stage == PostRestoring || j.pc.stage == CollectingStats))
              || (e.Returned? && j.pc.stage == Restoring && !(e.outcome.Exited? && e.outcome.code == 0))
  {
    match JobStep(j, e, v)
    case None =>
    case Some(m) => assert IsCheckedFailure(j, e, v, m.job) || !IsCheckedFailure(j, e, v, m.job);
  }

  /** The stage fails, and its disk check finds the flag down. */
  function FailingActions(id: JobId, e: Event): seq<Action> {
    [JobMoves(id, e), JobMoves(id, Proceed)]
  }

  /** The watcher trips and cancels the job, and the context check takes that for an abort. */
  function RaceActions(id: JobId): seq<Action> {
    [WatcherStores(id), WatcherCancels(id), JobMoves(id, Proceed)]
  }

  lemma AFailureKeepsTheWatch(j: Job, e: Event, v: View, failing: Job)
    requires JobInv(j) && j.info.watcher == Watching && IsCheckedFailure(j, e, v, failing)
    ensures failing.info.watcher == Watching && !failing.info.isDiskLimitHit && failing.info.hasContainerHandle
    ensures failing.info.serial == j.info.serial
  {
  }

  lemma ACleanDiskCheck(j: Job, v: View)
    requires j.pc.Check? && j.pc.check.DiskCheck? && HasContextCheck(j.pc.check.failure) && !j.info.isDiskLimitHit
    ensures JobStep(j, Proceed, v) == Some(Move(j.(pc := Check(ContextCheck(j.pc.check.failure))), NoEffect))
  {
  }

  lemma OnePlainMove(s: State, id: JobId, e: Event, j: Job, capacity: Capacity)
    requires id in s.jobs && JobStep(s.jobs[id], e, ViewOf(s, id)) == Some(Move(j, NoEffect))
    ensures Runs(s, [JobMoves(id, e)], WithJob(s, id, j), capacity)
  {
    PlainMove(s, id, e, j, capacity);
    OneMore(s, JobMoves(id, e), WithJob(s, id, j), [], WithJob(s, id, j), capacity);
    assert [JobMoves(id, e)] + [] == [JobMoves(id, e)];
  }

  lemma AStageFails(s: State, capacity: Capacity, id: JobId, e: Event, failing: Job) returns (t: State)
    requires Inv(s, capacity) && id in s.jobs && s.jobs[id].info.watcher == Watching
    requires IsCheckedFailure(s.jobs[id], e, ViewOf(s, id), failing)
    ensures Runs(s, FailingActions(id, e), t, capacity)
    ensures t == WithJob(s, id, failing.(pc := Check(ContextCheck(failing.pc.check.failure))))
  {
    AFailureKeepsTheWatch(s.jobs[id], e, ViewOf(s, id), failing);
    var m := WithJob(s, id, failing);
    t := WithJob(m, id, failing.(pc := Check(ContextCheck(failing.pc.check.failure))));
    OnePlainMove(s, id, e, failing, capacity);
    ACleanDiskCheck(failing, ViewOf(m, id));
    OnePlainMove(m, id, Proceed, t.jobs[id], capacity);
    RunsConcat(s, [JobMoves(id, e)], m, [JobMoves(id, Proceed)], t, capacity);
    assert [JobMoves(id, e)] + [JobMoves(id, Proceed)] == FailingActions(id, e);
  }

  function Tripped(info: JobInfo): JobInfo {
    info.(isDiskLimitHit := true, watcher := Finished, isCancelled := true)
  }

  lemma TheWatcherTrips(s: State, capacity: Capacity, id: JobId, t: State)
    requires id in s.jobs && s.jobs[id].info.watcher == Watching
    requires t == WithJob(s, id, Job(s.jobs[id].pc, Tripped(s.jobs[id].info)))
    ensures Runs(s, [WatcherStores(id), WatcherCancels(id)], t, capacity)
  {
    var m := WithJob(s, id, Job(s.jobs[id].pc, s.jobs[id].info.(isDiskLimitHit := true, watcher := Stored)));
    assert WithJob(m, id, t.jobs[id]) == t;
    WatcherMove(m, id, false, t.jobs[id], capacity);
    WatcherMove(s, id, true, m.jobs[id], capacity);
    OneMore(m, WatcherCancels(id), t, [], t, capacity);
    OneMore(s, WatcherStores(id), m, [WatcherCancels(id)], t, capacity);
    assert [WatcherStores(id)] + [WatcherCancels(id)] == [WatcherStores(id), WatcherCancels(id)];
  }

  lemma TheWatcherTripsTooLate(s: State, capacity: Capacity, id: JobId) returns (t: State)
    requires id in s.jobs && s.jobs[id].info.watcher == Watching && s.jobs[id].info.hasContainerHandle
    requires s.jobs[id].pc.Check? && s.jobs[id].pc.check.ContextCheck?
    ensures Runs(s, RaceActions(id), t, capacity)
    ensures t == WithJob(s, id, Job(Unwind(RemovingContainer), Tripped(s.jobs[id].info)))
  {
    var m := WithJob(s, id, Job(s.jobs[id].pc, Tripped(s.jobs[id].info)));
    t := WithJob(s, id, Job(Unwind(RemovingContainer), Tripped(s.jobs[id].info)));
    assert WithJob(m, id, t.jobs[id]) == t;
    TheWatcherTrips(s, capacity, id, m);
    ACancelledContextIsTakenForAnAbort(m.jobs[id], ViewOf(m, id));
    PlainMove(m, id, Proceed, t.jobs[id], capacity);
    OneMore(m, JobMoves(id, Proceed), t, [], t, capacity);
    RunsConcat(s, [WatcherStores(id), WatcherCancels(id)], m, [JobMoves(id, Proceed)], t, capacity);
    assert [WatcherStores(id), WatcherCancels(id)] + [JobMoves(id, Proceed)] == RaceActions(id);
  }

  /** Each of these failures can lose its disk verdict: the job unwinds, and the log stays as it was. */
  lemma ADiskVerdictCanBeSwallowed(s: State, capacity: Capacity, id: JobId, e: Event, failing: Job) returns (t: State)
    requires Reachable(s, capacity) && capacity.Sound() && id in s.jobs && s.jobs[id].info.watcher == Watching
    requires IsCheckedFailure(s.jobs[id], e, ViewOf(s, id), failing)
    ensures Runs(s, FailingActions(id, e) + RaceActions(id), t, capacity)
    ensures id in t.jobs && t.jobs[id].info.isDiskLimitHit && t.jobs[id].pc == Unwind(RemovingContainer)
    ensures t.log == s.log && t.runner == s.runner && t.heart == s.heart
  {
    ReachableKeepsInv(s, capacity);
    AFailureKeepsTheWatch(s.jobs[id], e, ViewOf(s, id), failing);
    var m := AStageFails(s, capacity, id, e, failing);
    t := TheWatcherTripsTooLate(m, capacity, id);
    RunsConcat(s, FailingActions(id, e), m, RaceActions(id), t, capacity);
  }

  /** And it does get lost: a first job reaches pg_restore, which fails, the watcher trips just after the disk
      check, and the agent never reports anything. */
  lemma AVerdictIsSwallowed(capacity: Capacity, id: JobId, outcome: RestoreOutcome) returns (t: State)
    requires capacity.Sound() && (outcome.Exited? ==> outcome.code != 0)
    ensures Reachable(t, capacity) && t.runner.isLive && t.heart.abortSet == {} && t.log == []
    ensures id in t.jobs && t.jobs[id].info.isDiskLimitHit && t.jobs[id].pc == Unwind(RemovingContainer)
  {
    var d := TheFirstJobDownloads(id, false, capacity);
    var info := Started(false, true).(watcher := Watching);
    var j := Job(Stage(Restoring), info);
    AJobAloneTakesPlainMoves(
      id, Job(Stage(Downloading(1)), info), d, Succeeded, Job(Stage(EnsuringRoles), info), capacity);
    AJobAloneTakesPlainMoves(id, Job(Stage(EnsuringRoles), info), d, Succeeded, j, capacity);
    var s, e := Alone(id, j, d), Returned(outcome);
    var failing := Job(Check(DiskCheck(RestoreError(outcome))), info.(restore := Some(outcome)));
    assert IsCheckedFailure(j, e, ViewOf(s, id), failing);
    t := ADiskVerdictCanBeSwallowed(s, capacity, id, e, failing);
    ReachableGoesOn(s, FailingActions(id, e) + RaceActions(id), t, capacity);
  }

  /** A move ends a job without a report, while the agent runs and no abort list ever named the job, exactly
      if it is a panic, a 410, the guard with a stale abort list, or that race. */
  lemma NothingElseFallsSilent(s: State, capacity: Capacity, id: JobId, e: Event, t: State)
    requires Reachable(s, capacity) && capacity.Sound() && Next(s, JobMoves(id, e), capacity) == Some(t)
    requires s.runner.isLive && !s.jobs[id].info.isAborted && !s.jobs[id].pc.Unwind?
    ensures id in t.jobs && t.jobs[id].pc.Unwind? && t.log == s.log <==>
              || e == Panicked
              || (s.jobs[id].pc == Check(DiskCheck(AbortNoReport(true))) && !s.jobs[id].info.isDiskLimitHit)
              || (id in s.heart.abortSet && s.jobs[id].pc.Check? && s.jobs[id].pc.check.Guarding?)
              || (s.jobs[id].pc.Check? && s.jobs[id].pc.check.ContextCheck? &&
                  s.jobs[id].info.isDiskLimitHit && s.jobs[id].info.isCancelled)
  {
    ReachableKeepsInv(s, capacity);
    var m := JobStep(s.jobs[id], e, ViewOf(s, id)).value;
    JobStepIsShapely(s.jobs[id], e, ViewOf(s, id), m);
    assert m.effect.Post? ==> |t.log| == |s.log| + 1;
    WhyAJobFallsSilent(s.jobs[id], e, ViewOf(s, id), m);
  }

  // ----- at which points a raised flag is sure to be reported -----

  /** Only the job moves, without a panic, and its watcher finishes. */
  predicate AreUndisturbed(actions: seq<Action>, id: JobId) {
    forall a <- actions :: a == WatcherCancels(id) || (a.JobMoves? && a.id == id && a.event != Panicked)
  }

  ghost predicate HasReportedDisk(s: State, serial: nat) {
    exists e <- s.log :: e.serial == serial && e.report.cause == DiskLimitExceeded
  }

  predicate IsOver(s: State, id: JobId) {
    id !in s.jobs || s.jobs[id].pc.Unwind?
  }

  /** However the job goes on, it does not end before it has reported the disk limit. */
  ghost predicate IsVerdictCertain(s: State, id: JobId, capacity: Capacity)
    requires id in s.jobs
  {
    forall actions, t :: AreUndisturbed(actions, id) && Runs(s, actions, t, capacity) && IsOver(t, id) ==>
                           HasReportedDisk(t, s.jobs[id].info.serial)
  }

  /** The doomed job of this execution is on its way in a live agent whose abort set does not name it. */
  ghost predicate IsOnItsWay(s: State, id: JobId, serial: nat) {
    && s.runner.isLive && id !in s.heart.abortSet
    && id in s.jobs && s.jobs[id].info.serial == serial && IsDoomedByDisk(s.jobs[id]) && !s.jobs[id].pc.Unwind?
  }

  lemma ADoomedJobMovesOn(j: Job, e: Event, v: View, m: Move)
    requires JobInv(j) && IsDoomedByDisk(j) && !j.pc.Unwind? && JobStep(j, e, v) == Some(m)
    requires e != Panicked && v.isRunnerLive && !v.isInAbortSet
    ensures || (m.effect == NoEffect && IsDoomedByDisk(m.job) && !m.job.pc.Unwind?)
            || (m.effect.Post? && m.effect.sent.cause == DiskLimitExceeded)
    ensures m.job.info.serial == j.info.serial
  {
    DoomedStaysDoomed(j, e, v, m);
    JobStepIsShapely(j, e, v, m);
    SilentEndsAreExactlyThese(j, e, v, m);
    match j.pc
    case Spawn(_) =>
    case Stage(_) =>
    case Check(_) =>
  }

  lemma AnUndisturbedMove(s: State, e: Event, t: State, id: JobId, serial: nat)
    requires JobsInv(s) && JobMove(s, id, e) == Some(t) && e != Panicked && IsOnItsWay(s, id, serial)
    ensures IsOnItsWay(t, id, serial) || HasReportedDisk(t, serial)
  {
    var m := JobStep(s.jobs[id], e, ViewOf(s, id)).value;
    ADoomedJobMovesOn(s.jobs[id], e, ViewOf(s, id), m);
    if m.effect.Post? {
      assert t.log[|s.log|] == Entry(serial, m.effect.sent, m.job.info.restore);
    }
  }

  lemma AFinishedWatcherChangesNothing(s: State, t: State, id: JobId, serial: nat)
    requires WatcherStep(s, id, false) == Some(t) && IsOnItsWay(s, id, serial)
    ensures IsOnItsWay(t, id, serial)
  {
    WatchKeepsFate(s.jobs[id], false);
  }

  lemma AnUndisturbedStep(s: State, a: Action, t: State, capacity: Capacity, id: JobId, serial: nat)
    requires Inv(s, capacity) && Next(s, a, capacity) == Some(t) && AreUndisturbed([a], id)
    requires IsOnItsWay(s, id, serial)
    ensures IsOnItsWay(t, id, serial) || HasReportedDisk(t, serial)
  {
    assert a in [a];
    if a == WatcherCancels(id) {
      AFinishedWatcherChangesNothing(s, t, id, serial);
    } else {
      AnUndisturbedMove(s, a.event, t, id, serial);
    }
  }

  lemma ReportsStay(s: State, a: Action, t: State, capacity: Capacity, serial: nat)
    requires Next(s, a, capacity) == Some(t)
    ensures s.log <= t.log && (HasReportedDisk(s, serial) ==> HasReportedDisk(t, serial))
  {
    assert s.log <= t.log;
    assert forall e <- s.log :: e in t.log;
  }

  lemma {:induction false} ADoomedJobReports(s: State, actions: seq<Action>, t: State, capacity: Capacity, id: JobId,
                                             serial: nat)
    requires Inv(s, capacity) && AreUndisturbed(actions, id) && Runs(s, actions, t, capacity)
    requires IsOnItsWay(s, id, serial) || HasReportedDisk(s, serial)
    ensures IsOnItsWay(t, id, serial) || HasReportedDisk(t, serial)
    decreases |actions|
  {
    if actions != [] {
      var next := Next(s, actions[0], capacity).value;
      StepKeepsInv(s, actions[0], capacity);
      assert AreUndisturbed([actions[0]], id) && AreUndisturbed(actions[1..], id);
      ReportsStay(s, actions[0], next, capacity, serial);
      if IsOnItsWay(s, id, serial) {
        AnUndisturbedStep(s, actions[0], next, capacity, id, serial);
      }
      ADoomedJobReports(next, actions[1..], t, capacity, id, serial);
    }
  }

  lemma AnotherReportIsNotTheDisk(s: State, t: State, serial: nat, last: Entry)
    requires t.log == s.log + [last] && last.report.cause != DiskLimitExceeded
    requires !HasReportedDisk(s, serial)
    ensures !HasReportedDisk(t, serial)
  {
    assert forall e :: e in t.log <==> e in s.log || e == last;
  }

  lemma NothingReportedYet(s: State, id: JobId)
    requires LogInv(s) && id in s.jobs && !s.jobs[id].pc.Unwind?
    ensures !HasReportedDisk(s, s.jobs[id].info.serial)
  {
  }

  lemma AProbedJobReportsADeadConnection(s: State, capacity: Capacity, id: JobId)
    returns (actions: seq<Action>, t: State)
    requires s.runner.isLive && id !in s.heart.abortSet && id in s.jobs && s.jobs[id].pc == Check(ProbingConnection)
    ensures AreUndisturbed(actions, id) && Runs(s, actions, t, capacity) && IsOver(t, id)
    ensures t.log == s.log + [Entry(s.jobs[id].info.serial, FailureReport(ConnectionDead, None), s.jobs[id].info.restore)]
  {
    var dead := FailureReport(ConnectionDead, None);
    var m := WithJob(s, id, s.jobs[id].(pc := Check(Guarding(dead))));
    actions := [JobMoves(id, Failed)] + [JobMoves(id, Proceed), JobMoves(id, Proceed)];
    PlainMove(s, id, Failed, m.jobs[id], capacity);
    t := AGuardedReportIsSent(m, id, dead, capacity);
    OneMore(s, JobMoves(id, Failed), m, [JobMoves(id, Proceed), JobMoves(id, Proceed)], t, capacity);
  }

  /** From every other point the job can end with another report, or with none. */
  lemma AnotherOutcome(s: State, capacity: Capacity, id: JobId) returns (actions: seq<Action>, t: State)
    requires Inv(s, capacity) && s.runner.isLive && id !in s.heart.abortSet && id in s.jobs
    requires s.jobs[id].info.isDiskLimitHit && s.jobs[id].pc.Check? && !IsDoomedByDisk(s.jobs[id])
    ensures AreUndisturbed(actions, id) && Runs(s, actions, t, capacity) && IsOver(t, id)
    ensures !HasReportedDisk(t, s.jobs[id].info.serial)
  {
    var serial, restore := s.jobs[id].info.serial, s.jobs[id].info.restore;
    NothingReportedYet(s, id);
    match s.jobs[id].pc.check
    case Sending(r) =>
      actions := [JobMoves(id, Proceed)];
      t := AReportIsSent(s, id, r, capacity);
      AnotherReportIsNotTheDisk(s, t, serial, Entry(serial, r, restore));
    case Guarding(r) =>
      actions := [JobMoves(id, Proceed), JobMoves(id, Proceed)];
      t := AGuardedReportIsSent(s, id, r, capacity);
      AnotherReportIsNotTheDisk(s, t, serial, Entry(serial, r, restore));
    case ProbingConnection =>
      actions, t := AProbedJobReportsADeadConnection(s, capacity, id);
      AnotherReportIsNotTheDisk(s, t, serial, Entry(serial, FailureReport(ConnectionDead, None), restore));
    case ContextCheck(_) =>
      assert JobInv(s.jobs[id]);
      actions, t := ATrippedJobEndsSilently(s, capacity, id);
  }

  lemma ACancelledJobEndsSilently(s: State, capacity: Capacity, id: JobId) returns (t: State)
    requires id in s.jobs && s.jobs[id].info.isCancelled && s.jobs[id].info.hasContainerHandle
    requires s.jobs[id].pc.Check? && s.jobs[id].pc.check.ContextCheck?
    ensures Runs(s, [JobMoves(id, Proceed)], t, capacity)
    ensures t == WithJob(s, id, s.jobs[id].(pc := Unwind(RemovingContainer)))
  {
    t := WithJob(s, id, s.jobs[id].(pc := Unwind(RemovingContainer)));
    ACancelledContextIsTakenForAnAbort(s.jobs[id], ViewOf(s, id));
    PlainMove(s, id, Proceed, t.jobs[id], capacity);
    OneMore(s, JobMoves(id, Proceed), t, [], t, capacity);
    assert [JobMoves(id, Proceed)] + [] == [JobMoves(id, Proceed)];
  }

  lemma ATrippedJobEndsSilently(s: State, capacity: Capacity, id: JobId) returns (actions: seq<Action>, t: State)
    requires id in s.jobs && JobInv(s.jobs[id]) && s.jobs[id].info.isDiskLimitHit
    requires s.jobs[id].pc.Check? && s.jobs[id].pc.check.ContextCheck?
    ensures AreUndisturbed(actions, id) && Runs(s, actions, t, capacity) && IsOver(t, id) && t.log == s.log
  {
    var j := s.jobs[id];
    if j.info.watcher == Stored {
      var m := WithJob(s, id, j.(info := Tripped(j.info)));
      WatcherMove(s, id, false, m.jobs[id], capacity);
      t := ACancelledJobEndsSilently(m, capacity, id);
      OneMore(s, WatcherCancels(id), m, [JobMoves(id, Proceed)], t, capacity);
      actions := [WatcherCancels(id)] + [JobMoves(id, Proceed)];
    } else {
      t := ACancelledJobEndsSilently(s, capacity, id);
      actions := [JobMoves(id, Proceed)];
    }
  }

  /** Once the flag is up, in a live agent whose abort set does not name the job, the disk limit is sure to be
      reported exactly while a disk check is still ahead, or its own report is on the way. */
  lemma TheVerdictIsCertainIffADiskCheckIsAhead(s: State, capacity: Capacity, id: JobId)
    requires Reachable(s, capacity) && capacity.Sound() && s.runner.isLive && id !in s.heart.abortSet
    requires id in s.jobs && s.jobs[id].info.isDiskLimitHit && !s.jobs[id].pc.Unwind?
    ensures IsVerdictCertain(s, id, capacity) <==> IsDoomedByDisk(s.jobs[id])
  {
    ReachableKeepsInv(s, capacity);
    var serial := s.jobs[id].info.serial;
    if IsDoomedByDisk(s.jobs[id]) {
      forall actions, t | AreUndisturbed(actions, id) && Runs(s, actions, t, capacity) && IsOver(t, id)
        ensures HasReportedDisk(t, serial)
      {
        ADoomedJobReports(s, actions, t, capacity, id, serial);
      }
    } else {
      assert JobInv(s.jobs[id]);
      var actions, t := AnotherOutcome(s, capacity, id);
    }
  }
}
