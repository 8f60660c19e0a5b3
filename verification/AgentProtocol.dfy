/**
The verification agent as a whole: the claim loop, its bounded pool, the jobs, their disk watchers, the
heartbeat with its abort lists, and the Docker resources the jobs own. Every step is atomic and the
environment picks the interleaving. The server never assigns an ID that is still in flight here.
*/
module AgentProtocol {
  import opened Options
  import opened AgentCapacity
  import opened AgentJob

  datatype Loop = Top | Claiming | Holding(id: JobId, isTimescale: bool, hasDiskBudget: bool) | Draining | Stopped

  /** `pending` is the pool's wait group. */
  datatype Runner = Runner(isLive: bool, loop: Loop, slots: nat, pending: nat, nextSerial: nat)

  /** `inFlight` is the set of IDs in the heartbeat request that has not been answered yet. */
  datatype Heart = Heart(registry: set<JobId>, abortSet: set<JobId>, inFlight: Option<set<JobId>>)

  /** Verifications that have a container, that have a network, and whose artifacts the agent lost hold of: a
      removal failed, a creation failed although the engine did the work, or the spawn panicked. */
  datatype Docker = Docker(containers: set<JobId>, networks: set<JobId>, leaked: set<JobId>)

  /** A report that left the agent, with what pg_restore did in the execution that sent it. */
  datatype Entry = Entry(serial: nat, report: Report, restore: Option<RestoreOutcome>)

  datatype State = State(runner: Runner, jobs: map<JobId, Job>, heart: Heart, docker: Docker, log: seq<Entry>)

  datatype Action =
    | Claim | ClaimNothing | ClaimAssigned(newId: JobId, isTimescale: bool, hasDiskBudget: bool)
    | PoolAccept | PoolDrop | Drain | Stop | Shutdown
    | HeartbeatSend | HeartbeatLost | HeartbeatReply(aborted: set<JobId>)
    | WatcherStores(id: JobId) | WatcherCancels(id: JobId)
    | JobMoves(id: JobId, event: Event)

  function Init(): State {
    State(Runner(true, Top, 0, 0, 0), map[], Heart({}, {}, None), Docker({}, {}, {}), [])
  }

  function ViewOf(s: State, id: JobId): View {
    View(s.runner.isLive, id in s.heart.abortSet, id in s.docker.containers)
  }

  function DockerAfter(d: Docker, id: JobId, effect: Effect): Docker {
    match effect
    case ClearLeftovers => Docker(d.containers - {id}, d.networks - {id}, d.leaked - {id})
    case ClearContainer => d.(containers := d.containers - {id})
    case AddNetwork => d.(networks := d.networks + {id})
    case LeakNewNetwork => d.(networks := d.networks + {id}, leaked := d.leaked + {id})
    case AddContainer => d.(containers := d.containers + {id})
    case LeakNewContainer => d.(containers := d.containers + {id}, leaked := d.leaked + {id})
    case DropContainer => d.(containers := d.containers - {id})
    case DropNetwork => d.(networks := d.networks - {id})
    case Leak => d.(leaked := d.leaked + {id})
    case _ => d
  }

  function RunnerAfter(r: Runner, effect: Effect): Runner {
    match effect
    case StopRunner => r.(isLive := false)
    case FreeSlot => r.(slots := if r.slots > 0 then r.slots - 1 else 0)
    case Leave => r.(pending := if r.pending > 0 then r.pending - 1 else 0)
    case _ => r
  }

  function RegistryAfter(registry: set<JobId>, id: JobId, effect: Effect): set<JobId> {
    if effect == Track then registry + {id} else if effect == Untrack then registry - {id} else registry
  }

  function AfterMove(s: State, id: JobId, m: Move): State
    requires id in s.jobs
  {
    State(
      RunnerAfter(s.runner, m.effect),
      if m.effect == Leave then s.jobs - {id} else s.jobs[id := m.job],
      s.heart.(registry := RegistryAfter(s.heart.registry, id, m.effect)),
      DockerAfter(s.docker, id, m.effect),
      if m.effect.Post? then s.log + [Entry(m.job.info.serial, m.effect.sent, m.job.info.restore)] else s.log)
  }

  /** What an abort list does to a registered job: it calls the cancel function kept for it. */
  function Aborted(j: Job): Job {
    j.(info := j.info.(isCancelled := true, isAborted := true))
  }

  function AbortJobs(jobs: map<JobId, Job>, ids: set<JobId>): map<JobId, Job> {
    map id | id in jobs :: if id in ids then Aborted(jobs[id]) else jobs[id]
  }

  function LoopStep(s: State, a: Action, capacity: Capacity): Option<State> {
    var r := s.runner;
    match a
    case Claim =>
      if r.loop == Top && r.isLive && r.slots < capacity.maxConcurrentJobs then
        Some(s.(runner := r.(loop := Claiming)))
      else None
    case ClaimNothing => if r.loop == Claiming then Some(s.(runner := r.(loop := Top))) else None
    case ClaimAssigned(id, isTimescale, hasDiskBudget) =>
      if r.loop == Claiming && id !in s.jobs then
        Some(s.(runner := r.(loop := Holding(id, isTimescale, hasDiskBudget))))
      else None
    case PoolAccept =>
      if r.loop.Holding? && r.slots < capacity.maxConcurrentJobs then
        var job := InitialJob(r.nextSerial, r.loop.isTimescale, r.loop.hasDiskBudget);
        Some(s.(jobs := s.jobs[r.loop.id := job],
                runner := Runner(r.isLive, Top, r.slots + 1, r.pending + 1, r.nextSerial + 1)))
      else None
    case PoolDrop => if r.loop.Holding? && !r.isLive then Some(s.(runner := r.(loop := Top))) else None
    case Drain => if r.loop == Top && !r.isLive then Some(s.(runner := r.(loop := Draining))) else None
    case Stop => if r.loop == Draining && r.pending == 0 then Some(s.(runner := r.(loop := Stopped))) else None
    case Shutdown => Some(s.(runner := r.(isLive := false)))
    case _ => None
  }

  function HeartStep(s: State, a: Action): Option<State> {
    var h := s.heart;
    match a
    case HeartbeatSend => if h.inFlight == None then Some(s.(heart := h.(inFlight := Some(h.registry)))) else None
    case HeartbeatLost => if h.inFlight.Some? then Some(s.(heart := h.(inFlight := None))) else None
    case HeartbeatReply(aborted) =>
      if h.inFlight.Some? then
        Some(s.(heart := h.(abortSet := aborted, inFlight := None), jobs := AbortJobs(s.jobs, aborted * h.registry)))
      else None
    case _ => None
  }

  /** onLimitExceeded stores the flag and then cancels the job. */
  function WatchedJob(j: Job, isStoring: bool): Option<Job> {
    if isStoring then
      if j.info.watcher == Watching then Some(j.(info := j.info.(isDiskLimitHit := true, watcher := Stored))) else None
    else if j.info.watcher == Stored then Some(j.(info := j.info.(isCancelled := true, watcher := Finished)))
    else None
  }

  function WatcherStep(s: State, id: JobId, isStoring: bool): Option<State> {
    if id !in s.jobs then None
    else
      match WatchedJob(s.jobs[id], isStoring)
      case None => None
      case Some(j) => Some(s.(jobs := s.jobs[id := j]))
  }

  function JobMove(s: State, id: JobId, e: Event): Option<State> {
    if id !in s.jobs then None
    else
      match JobStep(s.jobs[id], e, ViewOf(s, id))
      case None => None
      case Some(m) => Some(AfterMove(s, id, m))
  }

  /** One step of the agent and its environment; None when the action is not enabled. */
  function Next(s: State, a: Action, capacity: Capacity): Option<State> {
    match a
    case HeartbeatSend => HeartStep(s, a)
    case HeartbeatLost => HeartStep(s, a)
    case HeartbeatReply(_) => HeartStep(s, a)
    case WatcherStores(id) => WatcherStep(s, id, true)
    case WatcherCancels(id) => WatcherStep(s, id, false)
    case JobMoves(id, e) => JobMove(s, id, e)
    case _ => LoopStep(s, a, capacity)
  }

  /** The actions take the agent from s to t. */
  ghost predicate Runs(s: State, actions: seq<Action>, t: State, capacity: Capacity)
    decreases |actions|
  {
    if actions == [] then s == t
    else
      var next := Next(s, actions[0], capacity);
      next.Some? && Runs(next.value, actions[1..], t, capacity)
  }

  ghost predicate Reachable(s: State, capacity: Capacity) {
    exists actions :: Runs(Init(), actions, s, capacity)
  }

  // ----- the invariant -----

  ghost predicate Inv(s: State, capacity: Capacity) {
    JobsInv(s) && ArtifactInv(s) && SlotInv(s, capacity) && LogInv(s)
  }

  ghost predicate JobsInv(s: State) {
    forall id <- s.jobs :: JobInv(s.jobs[id]) && HasContextReason(s.jobs[id], s.runner.isLive)
  }

  // The registry is exactly the tracked jobs, and whatever no failed removal left behind belongs to one.
  ghost predicate ArtifactInv(s: State) {
    && (forall id :: id in s.heart.registry <==> id in s.jobs && IsTracked(s.jobs[id].pc))
    && (forall id :: id in s.docker.containers && id !in s.docker.leaked ==>
                       id in s.jobs && MayHaveContainer(s.jobs[id]))
    && (forall id :: id in s.docker.networks && id !in s.docker.leaked ==>
                       id in s.jobs && MayHaveNetwork(s.jobs[id]))
  }

  ghost function Holders(jobs: map<JobId, Job>): set<JobId> {
    set id | id in jobs && HoldsSlot(jobs[id].pc)
  }

  ghost predicate SlotInv(s: State, capacity: Capacity) {
    && s.runner.slots == |Holders(s.jobs)| <= capacity.maxConcurrentJobs
    && s.runner.pending == |s.jobs|
    && (s.runner.loop == Claiming || s.runner.loop.Holding? ==> s.runner.slots < capacity.maxConcurrentJobs)
    && (s.runner.loop.Holding? ==> s.runner.loop.id !in s.jobs)
    && (s.runner.loop == Stopped ==> s.jobs == map[])
  }

  ghost predicate LogInv(s: State) {
    && (forall i, k :: 0 <= i < k < |s.log| ==> s.log[i].serial != s.log[k].serial)
    && (forall e <- s.log :: IsHonest(e.report, e.restore) && e.serial < s.runner.nextSerial)
    && (forall id <- s.jobs :: s.jobs[id].info.serial < s.runner.nextSerial)
    && (forall id <- s.jobs, other <- s.jobs :: id != other ==> s.jobs[id].info.serial != s.jobs[other].info.serial)
    && (forall id <- s.jobs, e <- s.log :: e.serial == s.jobs[id].info.serial ==> s.jobs[id].pc.Unwind?)
  }
}
