/** Runs of the agent: how they are put together, and some that start at the beginning. */
module AgentRuns {
  import opened Options
  import opened AgentCapacity
  import opened AgentJob
  import opened AgentProtocol
  import opened AgentSafety

  lemma OneMore(s: State, a: Action, next: State, rest: seq<Action>, t: State, capacity: Capacity)
    requires Next(s, a, capacity) == Some(next) && Runs(next, rest, t, capacity)
    ensures Runs(s, [a] + rest, t, capacity)
  {
    assert ([a] + rest)[1..] == rest;
  }

  // The state after a job of s has moved on to a new version of itself and touched nothing else.
  function WithJob(s: State, id: JobId, j: Job): State {
    s.(jobs := s.jobs[id := j])
  }

  lemma PlainMove(s: State, id: JobId, e: Event, j: Job, capacity: Capacity)
    requires id in s.jobs && JobStep(s.jobs[id], e, ViewOf(s, id)) == Some(Move(j, NoEffect))
    ensures Next(s, JobMoves(id, e), capacity) == Some(WithJob(s, id, j))
  {
  }

  lemma WatcherMove(s: State, id: JobId, isStoring: bool, j: Job, capacity: Capacity)
    requires id in s.jobs && WatchedJob(s.jobs[id], isStoring) == Some(j)
    ensures Next(s, if isStoring then WatcherStores(id) else WatcherCancels(id), capacity) == Some(WithJob(s, id, j))
  {
  }

  lemma {:induction false} RunsConcat(
    s: State, first: seq<Action>, m: State, second: seq<Action>, t: State, capacity: Capacity)
    requires Runs(s, first, m, capacity) && Runs(m, second, t, capacity)
    ensures Runs(s, first + second, t, capacity)
    decreases |first|
  {
    if first == [] {
      assert first + second == second;
    } else {
      RunsConcat(Next(s, first[0], capacity).value, first[1..], m, second, t, capacity);
      assert (first + second)[1..] == first[1..] + second;
    }
  }

  lemma ReachableGoesOn(s: State, actions: seq<Action>, t: State, capacity: Capacity)
    requires Reachable(s, capacity) && Runs(s, actions, t, capacity)
    ensures Reachable(t, capacity)
  {
    var before :| Runs(Init(), before, s, capacity);
    RunsConcat(Init(), before, s, actions, t, capacity);
  }

  lemma ReachableMoves(s: State, a: Action, t: State, capacity: Capacity)
    requires Reachable(s, capacity) && Next(s, a, capacity) == Some(t)
    ensures Reachable(t, capacity)
  {
    assert Runs(t, [], t, capacity);
    OneMore(s, a, t, [], t, capacity);
    ReachableGoesOn(s, [a], t, capacity);
  }

  lemma AReportIsSent(s: State, id: JobId, r: Report, capacity: Capacity) returns (t: State)
    requires id in s.jobs && s.jobs[id].pc == Check(Sending(r))
    ensures Runs(s, [JobMoves(id, Proceed)], t, capacity)
    ensures id in t.jobs && t.jobs[id].pc.Unwind? && t.jobs[id].info == s.jobs[id].info && t.heart == s.heart
    ensures t.log == s.log + [Entry(s.jobs[id].info.serial, r, s.jobs[id].info.restore)]
  {
    var j := s.jobs[id];
    t := AfterMove(s, id, Move(j.(pc := UnwindOf(j)), Post(r)));
    assert Runs(t, [], t, capacity);
    OneMore(s, JobMoves(id, Proceed), t, [], t, capacity);
  }

  lemma AGuardedReportIsSent(s: State, id: JobId, r: Report, capacity: Capacity) returns (t: State)
    requires s.runner.isLive && id !in s.heart.abortSet && id in s.jobs && s.jobs[id].pc == Check(Guarding(r))
    ensures Runs(s, [JobMoves(id, Proceed), JobMoves(id, Proceed)], t, capacity)
    ensures id in t.jobs && t.jobs[id].pc.Unwind? && t.jobs[id].info == s.jobs[id].info && t.heart == s.heart
    ensures t.log == s.log + [Entry(s.jobs[id].info.serial, r, s.jobs[id].info.restore)]
  {
    var m := WithJob(s, id, s.jobs[id].(pc := Check(Sending(r))));
    PlainMove(s, id, Proceed, m.jobs[id], capacity);
    t := AReportIsSent(m, id, r, capacity);
    OneMore(s, JobMoves(id, Proceed), m, [JobMoves(id, Proceed)], t, capacity);
    assert [JobMoves(id, Proceed)] + [JobMoves(id, Proceed)] == [JobMoves(id, Proceed), JobMoves(id, Proceed)];
  }

  // ----- runs from the beginning: a single job, and nothing has happened around it -----

  /** The first job of an agent is on its way, with a live runner and no heartbeat under way. */
  function Alone(id: JobId, j: Job, docker: Docker): State {
    State(Runner(true, Top, 1, 1, 1), map[id := j], Heart({id}, {}, None), docker, [])
  }

  lemma TheFirstJobRegisters(id: JobId, isTimescale: bool, hasDiskBudget: bool, capacity: Capacity)
    requires capacity.Sound()
    ensures var info := InitialJob(0, isTimescale, hasDiskBudget).info;
            Reachable(Alone(id, Job(Spawn(Registered), info), Docker({}, {}, {})), capacity)
  {
    var entered := InitialJob(0, isTimescale, hasDiskBudget);
    var claiming := Init().(runner := Runner(true, Claiming, 0, 0, 0));
    var holding := Init().(runner := Runner(true, Holding(id, isTimescale, hasDiskBudget), 0, 0, 0));
    var accepted := State(Runner(true, Top, 1, 1, 1), map[id := entered], Heart({}, {}, None), Docker({}, {}, {}), []);
    assert Runs(Init(), [], Init(), capacity);
    assert Reachable(Init(), capacity);
    ReachableMoves(Init(), Claim, claiming, capacity);
    ReachableMoves(claiming, ClaimAssigned(id, isTimescale, hasDiskBudget), holding, capacity);
    ReachableMoves(holding, PoolAccept, accepted, capacity);
    var registered := entered.(pc := Spawn(Registered));
    assert map[id := entered][id := registered] == map[id := registered] && {} + {id} == {id};
    assert JobStep(entered, Proceed, ViewOf(accepted, id)) == Some(Move(registered, Track));
    ReachableMoves(accepted, JobMoves(id, Proceed), Alone(id, registered, Docker({}, {}, {})), capacity);
  }

  predicate IsQuietEffect(effect: Effect) {
    effect.NoEffect? || effect.ClearLeftovers? || effect.AddNetwork? || effect.AddContainer?
  }

  lemma AJobAloneMoves(id: JobId, j: Job, docker: Docker, e: Event, m: Move, capacity: Capacity)
    requires Reachable(Alone(id, j, docker), capacity) && IsQuietEffect(m.effect)
    requires JobStep(j, e, View(true, false, id in docker.containers)) == Some(m)
    ensures Reachable(Alone(id, m.job, DockerAfter(docker, id, m.effect)), capacity)
  {
    var s := Alone(id, j, docker);
    assert map[id := j][id := m.job] == map[id := m.job];
    assert AfterMove(s, id, m) == Alone(id, m.job, DockerAfter(docker, id, m.effect));
    ReachableMoves(s, JobMoves(id, e), AfterMove(s, id, m), capacity);
  }

  lemma AJobAloneTakesPlainMoves(id: JobId, j: Job, docker: Docker, e: Event, next: Job, capacity: Capacity)
    requires Reachable(Alone(id, j, docker), capacity)
    requires JobStep(j, e, View(true, false, id in docker.containers)) == Some(Move(next, NoEffect))
    ensures Reachable(Alone(id, next, docker), capacity)
  {
    AJobAloneMoves(id, j, docker, e, Move(next, NoEffect), capacity);
  }

  /** The container of the job has started. */
  function Started(isTimescale: bool, hasDiskBudget: bool): JobInfo {
    InitialJob(0, isTimescale, hasDiskBudget).info.(hasContainerHandle := true)
  }

  lemma TheFirstJobSpawns(id: JobId, isTimescale: bool, hasDiskBudget: bool, capacity: Capacity) returns (d: Docker)
    requires capacity.Sound()
    ensures Reachable(Alone(id, Job(Stage(StartingWatcher), Started(isTimescale, hasDiskBudget)), d), capacity)
  {
    TheFirstJobRegisters(id, isTimescale, hasDiskBudget, capacity);
    var info := InitialJob(0, isTimescale, hasDiskBudget).info;
    var none := Docker({}, {}, {});
    AJobAloneTakesPlainMoves(
      id, Job(Spawn(Registered), info), none, Succeeded, Job(Spawn(EnsuringImage), info), capacity);
    AJobAloneTakesPlainMoves(
      id, Job(Spawn(EnsuringImage), info), none, Succeeded, Job(Spawn(ClearingLeftovers), info), capacity);
    AJobAloneMoves(id, Job(Spawn(ClearingLeftovers), info), none, Succeeded,
                   Move(Job(Spawn(CreatingNetwork), info), ClearLeftovers), capacity);
    var cleared := DockerAfter(none, id, ClearLeftovers);
    AJobAloneMoves(id, Job(Spawn(CreatingNetwork), info), cleared, Succeeded,
                   Move(Job(Spawn(CreatingContainer), info), AddNetwork), capacity);
    var connected := DockerAfter(cleared, id, AddNetwork);
    AJobAloneMoves(id, Job(Spawn(CreatingContainer), info), connected, Succeeded,
                   Move(Job(Spawn(StartingContainer), info), AddContainer), capacity);
    d := DockerAfter(connected, id, AddContainer);
    AJobAloneTakesPlainMoves(id, Job(Spawn(StartingContainer), info), d, Succeeded,
                             Job(Stage(StartingWatcher), Started(isTimescale, hasDiskBudget)), capacity);
  }

  /** The first download attempt is under way, with the disk watcher on. */
  lemma TheFirstJobDownloads(id: JobId, isTimescale: bool, capacity: Capacity) returns (d: Docker)
    requires capacity.Sound()
    ensures var info := Started(isTimescale, true).(watcher := Watching);
            Reachable(Alone(id, Job(Stage(Downloading(1)), info), d), capacity)
  {
    d := TheFirstJobSpawns(id, isTimescale, true, capacity);
    var info := Started(isTimescale, true);
    var watched := info.(watcher := Watching);
    AJobAloneTakesPlainMoves(
      id, Job(Stage(StartingWatcher), info), d, Proceed, Job(Stage(DownloadCheck(1)), watched), capacity);
    AJobAloneTakesPlainMoves(
      id, Job(Stage(DownloadCheck(1)), watched), d, Proceed, Job(Stage(Downloading(1)), watched), capacity);
  }
}
