/**
Aborts: the runner's comments promise that an aborted verification never sends FAILED. The guard asks the
abort set once, before the report leaves, and each heartbeat answer replaces that set. The lemmas say over
all runs exactly when an execution sends FAILED, and show the runs in which an aborted one does.
*/
module AgentAborts {
  import opened Options
  import opened AgentCapacity
  import opened AgentJob
  import opened AgentProtocol
  import opened AgentRuns
  import opened AgentSafety

  /** The execution with this serial is in flight under this ID. */
  predicate IsInFlight(s: State, id: JobId, serial: nat) {
    id in s.jobs && s.jobs[id].info.serial == serial
  }

  predicate IsSendingFailure(s: State, id: JobId, serial: nat) {
    IsInFlight(s, id, serial) && s.jobs[id].pc.Check? && s.jobs[id].pc.check.Sending? &&
    !s.jobs[id].pc.check.report.isCompleted
  }

  ghost predicate HasSentFailure(s: State, serial: nat) {
    exists e <- s.log :: e.serial == serial && !e.report.isCompleted
  }

  /** The execution has unwound, or is about to. */
  predicate IsOver(s: State, id: JobId, serial: nat) {
    IsInFlight(s, id, serial) ==> s.jobs[id].pc.Unwind?
  }

  /** The step takes the execution past the guard of a failed report: the agent is live, and the abort set does
      not name the job at that instant. */
  predicate PassesTheGuard(s: State, a: Action, id: JobId, serial: nat) {
    && a == JobMoves(id, Proceed) && IsInFlight(s, id, serial)
    && s.jobs[id].pc.Check? && s.jobs[id].pc.check.Guarding?
    && s.runner.isLive && id !in s.heart.abortSet
  }

  ghost predicate PassesInRun(s: State, actions: seq<Action>, capacity: Capacity, id: JobId, serial: nat)
    decreases |actions|
  {
    && actions != [] && Next(s, actions[0], capacity).Some?
    && (PassesTheGuard(s, actions[0], id, serial) ||
        PassesInRun(Next(s, actions[0], capacity).value, actions[1..], capacity, id, serial))
  }

  /** The execution panics with a failed report in its hands. */
  ghost predicate PanicsInRun(s: State, actions: seq<Action>, capacity: Capacity, id: JobId, serial: nat)
    decreases |actions|
  {
    && actions != [] && Next(s, actions[0], capacity).Some?
    && ((actions[0] == JobMoves(id, Panicked) && IsSendingFailure(s, id, serial)) ||
        PanicsInRun(Next(s, actions[0], capacity).value, actions[1..], capacity, id, serial))
  }

  // ----- when an execution sends FAILED -----

  /** The execution has not passed the guard, and has not sent anything that failed. */
  ghost predicate IsBeforeGuard(s: State, id: JobId, serial: nat) {
    && serial < s.runner.nextSerial && !HasSentFailure(s, serial) && !IsSendingFailure(s, id, serial)
    && forall other <- s.jobs :: s.jobs[other].info.serial == serial ==> other == id
  }

  lemma AMoveReachesNoSending(s: State, mover: JobId, e: Event, t: State, id: JobId, serial: nat)
    requires JobsInv(s) && JobMove(s, mover, e) == Some(t) && !IsSendingFailure(s, id, serial)
    requires !PassesTheGuard(s, JobMoves(mover, e), id, serial)
    ensures !IsSendingFailure(t, id, serial)
  {
    var m := JobStep(s.jobs[mover], e, ViewOf(s, mover)).value;
    if mover == id && m.job.pc.Check? && m.job.pc.check.Sending? && !m.job.pc.check.report.isCompleted {
      OnlyTheGuardLetsAFailureThrough(s.jobs[id], e, ViewOf(s, id), m, m.job.pc.check.report);
      JobStepIsShapely(s.jobs[id], e, ViewOf(s, id), m);
    }
  }

  lemma AMoveStaysBeforeTheGuard(s: State, mover: JobId, e: Event, t: State, id: JobId, serial: nat)
    requires JobsInv(s) && JobMove(s, mover, e) == Some(t) && IsBeforeGuard(s, id, serial)
    requires !PassesTheGuard(s, JobMoves(mover, e), id, serial)
    ensures IsBeforeGuard(t, id, serial)
  {
    var m := JobStep(s.jobs[mover], e, ViewOf(s, mover)).value;
    JobStepIsShapely(s.jobs[mover], e, ViewOf(s, mover), m);
    LogAfterMove(s, mover, m);
    AMoveReachesNoSending(s, mover, e, t, id, serial);
    assert forall entry <- t.log :: entry in s.log || (m.effect.Post? && entry.report == m.effect.sent &&
                                                       entry.serial == s.jobs[mover].info.serial);
  }

  // Only flags change, so nothing happens to any execution.
  lemma OthersStayBeforeTheGuard(s: State, a: Action, t: State, capacity: Capacity, id: JobId, serial: nat)
    requires !a.JobMoves? && Next(s, a, capacity) == Some(t)
    requires s.runner.loop.Holding? ==> s.runner.loop.id !in s.jobs
    ensures IsBeforeGuard(s, id, serial) ==> IsBeforeGuard(t, id, serial)
    ensures IsSendingFailure(s, id, serial) ==> IsSendingFailure(t, id, serial)
    ensures t.log == s.log
  {
    assert t.log == s.log;
    assert forall other <- t.jobs ::
        || (other in s.jobs && t.jobs[other].pc == s.jobs[other].pc &&
            t.jobs[other].info.serial == s.jobs[other].info.serial)
        || (other !in s.jobs && t.jobs[other].info.serial == s.runner.nextSerial && t.jobs[other].pc.Spawn?);
  }

  lemma AStepStaysBeforeTheGuard(s: State, a: Action, t: State, capacity: Capacity, id: JobId, serial: nat)
    requires Inv(s, capacity) && Next(s, a, capacity) == Some(t) && IsBeforeGuard(s, id, serial)
    requires !PassesTheGuard(s, a, id, serial)
    ensures IsBeforeGuard(t, id, serial)
  {
    if a.JobMoves? {
      AMoveStaysBeforeTheGuard(s, a.id, a.event, t, id, serial);
    } else {
      OthersStayBeforeTheGuard(s, a, t, capacity, id, serial);
    }
  }

  /** The report is on its way, or has been sent. */
  ghost predicate IsSettled(s: State, id: JobId, serial: nat) {
    IsSendingFailure(s, id, serial) || HasSentFailure(s, serial)
  }

  lemma AMoveKeepsItSettled(s: State, mover: JobId, e: Event, t: State, id: JobId, serial: nat)
    requires JobsInv(s) && JobMove(s, mover, e) == Some(t) && IsSendingFailure(s, id, serial)
    requires !(mover == id && e == Panicked)
    ensures IsSettled(t, id, serial)
  {
    var m := JobStep(s.jobs[mover], e, ViewOf(s, mover)).value;
    if mover == id {
      assert t.log[|s.log|] == Entry(serial, s.jobs[id].pc.check.report, m.job.info.restore);
    }
  }

  lemma AStepKeepsItSettled(s: State, a: Action, t: State, capacity: Capacity, id: JobId, serial: nat)
    requires Inv(s, capacity) && Next(s, a, capacity) == Some(t) && IsSettled(s, id, serial)
    requires !(a == JobMoves(id, Panicked) && IsSendingFailure(s, id, serial))
    ensures IsSettled(t, id, serial)
  {
    if HasSentFailure(s, serial) {
      LogsGrow(s, a, t, capacity);
      assert forall e <- s.log :: e in t.log;
    } else if a.JobMoves? {
      AMoveKeepsItSettled(s, a.id, a.event, t, id, serial);
    } else {
      OthersStayBeforeTheGuard(s, a, t, capacity, id, serial);
    }
  }

  lemma LogsGrow(s: State, a: Action, t: State, capacity: Capacity)
    requires Next(s, a, capacity) == Some(t)
    ensures s.log <= t.log
  {
  }

  lemma {:induction false} RunsKeepItSettled(s: State, actions: seq<Action>, t: State, capacity: Capacity, id: JobId,
                                             serial: nat)
    requires Inv(s, capacity) && Runs(s, actions, t, capacity) && IsSettled(s, id, serial)
    requires !PanicsInRun(s, actions, capacity, id, serial)
    ensures IsSettled(t, id, serial)
    decreases |actions|
  {
    if actions != [] {
      var next := Next(s, actions[0], capacity).value;
      StepKeepsInv(s, actions[0], capacity);
      AStepKeepsItSettled(s, actions[0], next, capacity, id, serial);
      RunsKeepItSettled(next, actions[1..], t, capacity, id, serial);
    }
  }

  lemma {:induction false} WithoutPassingNothingIsSent(s: State, actions: seq<Action>, t: State, capacity: Capacity,
                                                       id: JobId, serial: nat)
    requires Inv(s, capacity) && Runs(s, actions, t, capacity) && IsBeforeGuard(s, id, serial)
    requires !PassesInRun(s, actions, capacity, id, serial)
    ensures IsBeforeGuard(t, id, serial)
    decreases |actions|
  {
    if actions != [] {
      var next := Next(s, actions[0], capacity).value;
      StepKeepsInv(s, actions[0], capacity);
      AStepStaysBeforeTheGuard(s, actions[0], next, capacity, id, serial);
      WithoutPassingNothingIsSent(next, actions[1..], t, capacity, id, serial);
    }
  }

  lemma PassingLeadsToSending(s: State, id: JobId, serial: nat, t: State, capacity: Capacity)
    requires Inv(s, capacity) && PassesTheGuard(s, JobMoves(id, Proceed), id, serial)
    requires Next(s, JobMoves(id, Proceed), capacity) == Some(t)
    ensures IsSendingFailure(t, id, serial)
  {
    assert JobInv(s.jobs[id]);
  }

  lemma {:induction false} PassingSettlesIt(s: State, actions: seq<Action>, t: State, capacity: Capacity, id: JobId,
                                            serial: nat)
    requires Inv(s, capacity) && Runs(s, actions, t, capacity) && PassesInRun(s, actions, capacity, id, serial)
    requires !PanicsInRun(s, actions, capacity, id, serial)
    ensures IsSettled(t, id, serial)
    decreases |actions|
  {
    var next := Next(s, actions[0], capacity).value;
    StepKeepsInv(s, actions[0], capacity);
    if PassesTheGuard(s, actions[0], id, serial) {
      PassingLeadsToSending(s, id, serial, next, capacity);
      RunsKeepItSettled(next, actions[1..], t, capacity, id, serial);
    } else {
      PassingSettlesIt(next, actions[1..], t, capacity, id, serial);
    }
  }

  lemma AJobInFlightHasSentNothing(s: State, capacity: Capacity, id: JobId)
    requires Inv(s, capacity) && id in s.jobs && !s.jobs[id].pc.Unwind?
    requires !IsSendingFailure(s, id, s.jobs[id].info.serial)
    ensures IsBeforeGuard(s, id, s.jobs[id].info.serial)
  {
  }

  /** The execution is over, and has sent nothing that failed. */
  ghost predicate IsSilenced(s: State, id: JobId, serial: nat) {
    IsBeforeGuard(s, id, serial) && IsOver(s, id, serial)
  }

  lemma APanicGivesUp(s: State, t: State, capacity: Capacity, id: JobId, serial: nat)
    requires Inv(s, capacity) && IsSendingFailure(s, id, serial) && JobMove(s, id, Panicked) == Some(t)
    ensures IsSilenced(t, id, serial)
  {
    var m := JobStep(s.jobs[id], Panicked, ViewOf(s, id)).value;
    JobStepIsShapely(s.jobs[id], Panicked, ViewOf(s, id), m);
    LogAfterMove(s, id, m);
    assert t.log == s.log;
  }

  lemma AMoveLeavesItOver(s: State, mover: JobId, e: Event, t: State, id: JobId, serial: nat)
    requires JobsInv(s) && JobMove(s, mover, e) == Some(t) && IsOver(s, id, serial)
    ensures IsOver(t, id, serial)
  {
    var m := JobStep(s.jobs[mover], e, ViewOf(s, mover)).value;
    JobStepIsShapely(s.jobs[mover], e, ViewOf(s, mover), m);
    LogAfterMove(s, mover, m);
  }

  lemma OthersLeaveItOver(s: State, a: Action, t: State, capacity: Capacity, id: JobId, serial: nat)
    requires !a.JobMoves? && Next(s, a, capacity) == Some(t) && IsOver(s, id, serial) && serial < s.runner.nextSerial
    ensures IsOver(t, id, serial)
  {
    assert IsInFlight(t, id, serial) ==> IsInFlight(s, id, serial) && t.jobs[id].pc == s.jobs[id].pc;
  }

  lemma AStepLeavesItSilenced(s: State, a: Action, t: State, capacity: Capacity, id: JobId, serial: nat)
    requires Inv(s, capacity) && Next(s, a, capacity) == Some(t) && IsSilenced(s, id, serial)
    ensures IsSilenced(t, id, serial)
  {
    AStepStaysBeforeTheGuard(s, a, t, capacity, id, serial);
    if a.JobMoves? {
      AMoveLeavesItOver(s, a.id, a.event, t, id, serial);
    } else {
      OthersLeaveItOver(s, a, t, capacity, id, serial);
    }
  }

  lemma {:induction false} RunsLeaveItSilenced(s: State, actions: seq<Action>, t: State, capacity: Capacity, id: JobId,
                                               serial: nat)
    requires Inv(s, capacity) && Runs(s, actions, t, capacity) && IsSilenced(s, id, serial)
    ensures IsSilenced(t, id, serial)
    decreases |actions|
  {
    if actions != [] {
      var next := Next(s, actions[0], capacity).value;
      StepKeepsInv(s, actions[0], capacity);
      AStepLeavesItSilenced(s, actions[0], next, capacity, id, serial);
      RunsLeaveItSilenced(next, actions[1..], t, capacity, id, serial);
    }
  }

  lemma {:induction false} APanicSilencesIt(s: State, actions: seq<Action>, t: State, capacity: Capacity, id: JobId,
                                            serial: nat)
    requires Inv(s, capacity) && Runs(s, actions, t, capacity) && PanicsInRun(s, actions, capacity, id, serial)
    ensures IsSilenced(t, id, serial)
    decreases |actions|
  {
    var next := Next(s, actions[0], capacity).value;
    StepKeepsInv(s, actions[0], capacity);
    if actions[0] == JobMoves(id, Panicked) && IsSendingFailure(s, id, serial) {
      APanicGivesUp(s, next, capacity, id, serial);
      RunsLeaveItSilenced(next, actions[1..], t, capacity, id, serial);
    } else {
      APanicSilencesIt(next, actions[1..], t, capacity, id, serial);
    }
  }

  /** The exact condition, over every run to the end of an execution, aborted or not: it has sent FAILED if and
      only if at its guard the agent was live and the abort set did not name it, and it did not panic between
      the guard and the request. */
  lemma AnExecutionFailsLoudlyIffItPassesTheGuard(
    s: State, actions: seq<Action>, t: State, capacity: Capacity, id: JobId)
    requires Reachable(s, capacity) && capacity.Sound() && Runs(s, actions, t, capacity)
    requires id in s.jobs && !s.jobs[id].pc.Unwind? && !IsSendingFailure(s, id, s.jobs[id].info.serial)
    requires IsOver(t, id, s.jobs[id].info.serial)
    ensures var serial := s.jobs[id].info.serial;
            HasSentFailure(t, serial) <==>
              PassesInRun(s, actions, capacity, id, serial) && !PanicsInRun(s, actions, capacity, id, serial)
  {
    ReachableKeepsInv(s, capacity);
    var serial := s.jobs[id].info.serial;
    AJobInFlightHasSentNothing(s, capacity, id);
    if !PassesInRun(s, actions, capacity, id, serial) {
      WithoutPassingNothingIsSent(s, actions, t, capacity, id, serial);
    } else if PanicsInRun(s, actions, capacity, id, serial) {
      APanicSilencesIt(s, actions, t, capacity, id, serial);
    } else {
      PassingSettlesIt(s, actions, t, capacity, id, serial);
    }
  }

  // ----- what keeps an abort in force -----

  /** As long as the execution is in flight, each heartbeat answer names it. */
  ghost predicate IsNamedThroughout(s: State, actions: seq<Action>, capacity: Capacity, id: JobId, serial: nat)
    decreases |actions|
  {
    actions != [] && Next(s, actions[0], capacity).Some? ==>
      && (actions[0].HeartbeatReply? && IsInFlight(s, id, serial) ==> id in actions[0].aborted)
      && IsNamedThroughout(Next(s, actions[0], capacity).value, actions[1..], capacity, id, serial)
  }

  // An execution that is no longer in flight does not come back.
  ghost predicate IsAbortInForce(s: State, id: JobId, serial: nat) {
    && serial < s.runner.nextSerial && (IsInFlight(s, id, serial) ==> id in s.heart.abortSet)
  }

  lemma AMoveKeepsTheAbort(s: State, mover: JobId, e: Event, t: State, id: JobId, serial: nat)
    requires JobsInv(s) && JobMove(s, mover, e) == Some(t) && IsAbortInForce(s, id, serial)
    ensures IsAbortInForce(t, id, serial)
  {
    var m := JobStep(s.jobs[mover], e, ViewOf(s, mover)).value;
    JobStepIsShapely(s.jobs[mover], e, ViewOf(s, mover), m);
    LogAfterMove(s, mover, m);
  }

  lemma AStepKeepsTheAbort(s: State, a: Action, t: State, capacity: Capacity, id: JobId, serial: nat)
    requires Inv(s, capacity) && Next(s, a, capacity) == Some(t) && IsAbortInForce(s, id, serial)
    requires a.HeartbeatReply? && IsInFlight(s, id, serial) ==> id in a.aborted
    ensures IsAbortInForce(t, id, serial)
  {
    if a.JobMoves? {
      AMoveKeepsTheAbort(s, a.id, a.event, t, id, serial);
    } else {
      assert t.runner.nextSerial >= s.runner.nextSerial;
      assert IsInFlight(t, id, serial) ==> IsInFlight(s, id, serial);
    }
  }

  lemma {:induction false} AnAbortInForceBarsTheGuard(s: State, actions: seq<Action>, t: State, capacity: Capacity,
                                                      id: JobId, serial: nat)
    requires Inv(s, capacity) && Runs(s, actions, t, capacity) && IsAbortInForce(s, id, serial)
    requires IsNamedThroughout(s, actions, capacity, id, serial)
    ensures !PassesInRun(s, actions, capacity, id, serial)
    decreases |actions|
  {
    if actions != [] {
      var next := Next(s, actions[0], capacity).value;
      StepKeepsInv(s, actions[0], capacity);
      AStepKeepsTheAbort(s, actions[0], next, capacity, id, serial);
      AnAbortInForceBarsTheGuard(next, actions[1..], t, capacity, id, serial);
    }
  }

  /** An abort that reaches the job before its guard, and that every later answer repeats while the job is in
      flight, keeps it from ever sending FAILED. */
  lemma ARepeatedAbortHolds(s: State, actions: seq<Action>, t: State, capacity: Capacity, id: JobId)
    requires Reachable(s, capacity) && capacity.Sound() && Runs(s, actions, t, capacity)
    requires id in s.jobs && !s.jobs[id].pc.Unwind? && !IsSendingFailure(s, id, s.jobs[id].info.serial)
    requires id in s.heart.abortSet && IsNamedThroughout(s, actions, capacity, id, s.jobs[id].info.serial)
    ensures !HasSentFailure(t, s.jobs[id].info.serial)
  {
    ReachableKeepsInv(s, capacity);
    var serial := s.jobs[id].info.serial;
    AJobInFlightHasSentNothing(s, capacity, id);
    assert serial < s.runner.nextSerial;
    AnAbortInForceBarsTheGuard(s, actions, t, capacity, id, serial);
    WithoutPassingNothingIsSent(s, actions, t, capacity, id, serial);
  }

  // ----- how an aborted job sends FAILED -----

  /** Two heartbeats: one names the job, the next no longer does. */
  function ForgettingActions(id: JobId): seq<Action> {
    [HeartbeatSend, HeartbeatReply({id}), HeartbeatSend, HeartbeatReply({})]
  }

  lemma AnAbortListIsReplaced(s: State, capacity: Capacity, id: JobId) returns (t: State)
    requires s.heart.inFlight == None && id in s.jobs && id in s.heart.registry
    ensures Runs(s, ForgettingActions(id), t, capacity)
    ensures t == s.(heart := s.heart.(abortSet := {}), jobs := s.jobs[id := Aborted(s.jobs[id])])
  {
    t := s.(heart := s.heart.(abortSet := {}), jobs := s.jobs[id := Aborted(s.jobs[id])]);
    var s1 := s.(heart := s.heart.(inFlight := Some(s.heart.registry)));
    var s2 := s.(heart := s.heart.(abortSet := {id}), jobs := t.jobs);
    var s3 := s2.(heart := s2.heart.(inFlight := Some(s.heart.registry)));
    assert {id} * s.heart.registry == {id};
    assert AbortJobs(s.jobs, {id}) == t.jobs && AbortJobs(t.jobs, {} * s.heart.registry) == t.jobs;
    var a := ForgettingActions(id);
    OneMore(s3, HeartbeatReply({}), t, [], t, capacity);
    OneMore(s2, HeartbeatSend, s3, a[3..], t, capacity);
    OneMore(s1, HeartbeatReply({id}), s2, a[2..], t, capacity);
    OneMore(s, HeartbeatSend, s1, a[1..], t, capacity);
    assert [HeartbeatSend] + a[1..] == a;
  }

  /** The next move of the aborted job prepares this failed report, and the guard lets it through. */
  function ReportingActions(id: JobId, e: Event): seq<Action> {
    [JobMoves(id, e)] + [JobMoves(id, Proceed), JobMoves(id, Proceed)]
  }

  lemma APreparedFailureIsSent(s: State, capacity: Capacity, id: JobId, e: Event, r: Report) returns (t: State)
    requires s.runner.isLive && id !in s.heart.abortSet && id in s.jobs && JobInv(s.jobs[id])
    requires s.jobs[id].info.isAborted && FailureOfAnAborted(s.jobs[id], e) == Some(r)
    ensures Runs(s, ReportingActions(id, e), t, capacity)
    ensures id in t.jobs && t.jobs[id].info == s.jobs[id].info
    ensures t.log == s.log + [Entry(s.jobs[id].info.serial, r, s.jobs[id].info.restore)]
  {
    var j := s.jobs[id];
    var m := WithJob(s, id, j.(pc := Check(Guarding(r))));
    assert JobStep(j, e, ViewOf(s, id)) == Some(Move(m.jobs[id], NoEffect));
    PlainMove(s, id, e, m.jobs[id], capacity);
    t := AGuardedReportIsSent(m, id, r, capacity);
    OneMore(s, JobMoves(id, e), m, [JobMoves(id, Proceed), JobMoves(id, Proceed)], t, capacity);
  }

  /** An aborted job still sends each failure that an abort leaves open, when a later answer has replaced the
      list that named it: an unresolved major, a download given up, the disk limit, or the verdict of a probe. */
  lemma AReplacedAbortListIsForgotten(s: State, capacity: Capacity, id: JobId, e: Event, r: Report) returns (t: State)
    requires Reachable(s, capacity) && capacity.Sound() && s.runner.isLive && s.heart.inFlight == None
    requires id in s.jobs && FailureOfAnAborted(s.jobs[id], e) == Some(r)
    ensures Runs(s, ForgettingActions(id) + ReportingActions(id, e), t, capacity)
    ensures id in t.jobs && t.jobs[id].info.isAborted
    ensures t.log == s.log + [Entry(s.jobs[id].info.serial, r, s.jobs[id].info.restore)]
  {
    ReachableKeepsInv(s, capacity);
    var m := AnAbortListIsReplaced(s, capacity, id);
    assert JobInv(s.jobs[id]) && JobInv(m.jobs[id]);
    t := APreparedFailureIsSent(m, capacity, id, e, r);
    RunsConcat(s, ForgettingActions(id), m, ReportingActions(id, e), t, capacity);
  }

  lemma AnAbortArrives(s: State, capacity: Capacity, id: JobId) returns (t: State)
    requires s.heart.inFlight == None && id in s.jobs && id in s.heart.registry
    ensures Runs(s, [HeartbeatSend, HeartbeatReply({id})], t, capacity)
    ensures t == s.(heart := s.heart.(abortSet := {id}), jobs := s.jobs[id := Aborted(s.jobs[id])])
  {
    var asked := s.(heart := s.heart.(inFlight := Some(s.heart.registry)));
    t := s.(heart := s.heart.(abortSet := {id}), jobs := s.jobs[id := Aborted(s.jobs[id])]);
    assert {id} * s.heart.registry == {id};
    assert AbortJobs(s.jobs, {id}) == t.jobs;
    OneMore(asked, HeartbeatReply({id}), t, [], t, capacity);
    OneMore(s, HeartbeatSend, asked, [HeartbeatReply({id})], t, capacity);
    assert [HeartbeatSend] + [HeartbeatReply({id})] == [HeartbeatSend, HeartbeatReply({id})];
  }

  /** The answer that names the job arrives between the guard and the request. */
  lemma AnAbortCanComeTooLate(s: State, capacity: Capacity, id: JobId, r: Report) returns (t: State)
    requires Reachable(s, capacity) && capacity.Sound() && s.heart.inFlight == None
    requires id in s.jobs && s.jobs[id].pc == Check(Sending(r)) && !r.isCompleted
    ensures Runs(s, [HeartbeatSend, HeartbeatReply({id})] + [JobMoves(id, Proceed)], t, capacity)
    ensures id in t.jobs && t.jobs[id].info.isAborted && id in t.heart.abortSet
    ensures t.log == s.log + [Entry(s.jobs[id].info.serial, r, s.jobs[id].info.restore)]
  {
    assert id in s.heart.registry by {
      ReachableKeepsInv(s, capacity);
    }
    var m := AnAbortArrives(s, capacity, id);
    t := AReportIsSent(m, id, r, capacity);
    RunsConcat(s, [HeartbeatSend, HeartbeatReply({id})], m, [JobMoves(id, Proceed)], t, capacity);
  }

  // ----- such runs from the beginning -----

  /** A first job is aborted and forgotten, and then reports what it is about to. */
  lemma AJobAloneIsForgotten(id: JobId, j: Job, docker: Docker, e: Event, r: Report, capacity: Capacity)
    returns (t: State)
    requires Reachable(Alone(id, j, docker), capacity) && capacity.Sound() && FailureOfAnAborted(j, e) == Some(r)
    ensures Reachable(t, capacity) && id in t.jobs && t.jobs[id].info.isAborted
    ensures t.log == [Entry(j.info.serial, r, j.info.restore)]
  {
    t := AReplacedAbortListIsForgotten(Alone(id, j, docker), capacity, id, e, r);
    ReachableGoesOn(Alone(id, j, docker), ForgettingActions(id) + ReportingActions(id, e), t, capacity);
  }

  /** A first job's major is unresolved. */
  lemma AnAbortedJobReportsItsMajor(id: JobId, capacity: Capacity) returns (t: State)
    requires capacity.Sound()
    ensures Reachable(t, capacity) && id in t.jobs && t.jobs[id].info.isAborted
    ensures t.log == [Entry(0, FailureReport(MajorUnresolved, None), None)]
  {
    TheFirstJobRegisters(id, false, false, capacity);
    var info := InitialJob(0, false, false).info;
    t := AJobAloneIsForgotten(id, Job(Spawn(Registered), info), Docker({}, {}, {}), Failed,
                              FailureReport(MajorUnresolved, None), capacity);
  }

  /** A first job's download is refused for good. */
  lemma AnAbortedJobReportsItsDownload(id: JobId, capacity: Capacity) returns (t: State)
    requires capacity.Sound()
    ensures Reachable(t, capacity) && id in t.jobs && t.jobs[id].info.isAborted
    ensures t.log == [Entry(0, FailureReport(DownloadFailed, None), None)]
  {
    var d := TheFirstJobDownloads(id, false, capacity);
    var info := Started(false, true).(watcher := Watching);
    var refused := Job(Check(DiskCheck(DownloadError)), info);
    AJobAloneTakesPlainMoves(id, Job(Stage(Downloading(1)), info), d, NonRetryable, refused, capacity);
    t := AJobAloneIsForgotten(id, refused, d, Proceed, FailureReport(DownloadFailed, None), capacity);
  }

  /** A first job hits its disk limit while it downloads. */
  lemma AnAbortedJobReportsTheDiskLimit(id: JobId, capacity: Capacity) returns (t: State)
    requires capacity.Sound()
    ensures Reachable(t, capacity) && id in t.jobs && t.jobs[id].info.isAborted
    ensures t.log == [Entry(0, FailureReport(DiskLimitExceeded, None), None)]
  {
    var d := TheFirstJobDownloads(id, false, capacity);
    var info := Started(false, true).(watcher := Watching);
    var refused := Job(Check(DiskCheck(DownloadError)), info);
    AJobAloneTakesPlainMoves(id, Job(Stage(Downloading(1)), info), d, NonRetryable, refused, capacity);
    var flagged := refused.(info := info.(isDiskLimitHit := true, watcher := Stored));
    var s := Alone(id, flagged, d);
    assert map[id := refused][id := flagged] == map[id := flagged];
    ReachableMoves(Alone(id, refused, d), WatcherStores(id), s, capacity);
    t := AJobAloneIsForgotten(id, flagged, d, Proceed, FailureReport(DiskLimitExceeded, None), capacity);
  }

  /** The first job passes the guard, and is aborted only then. */
  lemma AnAbortDoesComeTooLate(id: JobId, capacity: Capacity) returns (t: State)
    requires capacity.Sound()
    ensures Reachable(t, capacity) && id in t.jobs && t.jobs[id].info.isAborted && id in t.heart.abortSet
    ensures t.log == [Entry(0, FailureReport(MajorUnresolved, None), None)]
  {
    TheFirstJobRegisters(id, false, false, capacity);
    var info, none, r := InitialJob(0, false, false).info, Docker({}, {}, {}), FailureReport(MajorUnresolved, None);
    AJobAloneTakesPlainMoves(id, Job(Spawn(Registered), info), none, Failed, Job(Check(Guarding(r)), info), capacity);
    AJobAloneTakesPlainMoves(
      id, Job(Check(Guarding(r)), info), none, Proceed, Job(Check(Sending(r)), info), capacity);
    var s := Alone(id, Job(Check(Sending(r)), info), none);
    t := AnAbortCanComeTooLate(s, capacity, id, r);
    ReachableGoesOn(s, [HeartbeatSend, HeartbeatReply({id})] + [JobMoves(id, Proceed)], t, capacity);
  }
}
