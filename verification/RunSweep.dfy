/**
The end-to-end suite's sweep of crashed runs. Every run first writes its supervisor record, then sweeps
what dead runs left behind, then builds its image and its compose project, and cleans up in the reverse
order. Any number of runs interleave; a run may be interrupted or killed at any point, a build or an `up` that
outlives its killed supervisor may still create an image or containers, PIDs are reused, and the record of a run that
has ended may be damaged. Run IDs are random and never repeat.
*/
module RunSweep {
  import opened Options

  type RunId = nat

  /** A process is its PID together with its start time; /proc tells a reused PID by the latter. */
  datatype Identity = Identity(pid: nat, startTime: nat)

  /** An unreadable record has no identity, so no process matches it. */
  datatype Record = Record(runId: RunId, identity: Option<Identity>, hasImage: bool)

  datatype DeadRun = DeadRun(runId: RunId, hasImage: bool, hasRecord: bool)

  datatype Phase = RemovingProject | RemovingImage | RemovingRecord

  datatype Sweep =
    | Listing
    | Globbing(listed: seq<RunId>)
    | Reading(listed: seq<RunId>, todo: set<RunId>, known: seq<Record>)
    | Judging(listed: seq<RunId>, known: seq<Record>, judged: nat, notAlive: set<RunId>)
    | Acting(queue: seq<DeadRun>, phase: Phase)

  /** `hasChild`: a build or an `up` started by the supervisor may still be at work after its death. */
  datatype Pc =
    | Starting | Sweeping(sweep: Sweep) | Working
    | CleaningProject | CleaningImage(isProjectRemoved: bool) | CleaningRecord
    | Ended(hasChild: bool)

  datatype Run = Run(identity: Identity, hasImage: bool, pc: Pc)

  datatype Host = Host(
    records: map<RunId, Record>, projects: set<RunId>, images: set<RunId>,
    processes: set<Identity>, usedIdentities: set<Identity>)

  datatype State = State(host: Host, runs: map<RunId, Run>)

  datatype Event =
    | Proceed | Succeeded | Failed | FailedHalfway | Interrupted | Killed
    | Listed(projects: seq<RunId>) | Read(runId: RunId) | ImageBuilt | ProjectCreated

  datatype Action =
    | Launch(r: RunId, identity: Identity, hasImage: bool) | Moves(r: RunId, event: Event)
    | StragglerCreates(r: RunId) | StragglerBuilds(r: RunId) | Damage(r: RunId) | OtherProcessStarts(identity: Identity)
    | OtherProcessEnds(identity: Identity)

  /** What a move does to the host; the target may be another run. */
  datatype Effect =
    | NoEffect | PutRecord | AddImage | AddProject
    | DropProject(target: RunId) | DropImage(target: RunId) | DropRecord(target: RunId)

  datatype Move = Move(pc: Pc, effect: Effect)

  function Init(): State {
    State(Host(map[], {}, {}, {}, {}), map[])
  }

  function RecordOf(r: RunId, run: Run): Record {
    Record(r, Some(run.identity), run.hasImage)
  }

  // get_process_start_time(pid) equals the recorded one exactly while that very process runs.
  predicate IsSupervisorAlive(record: Record, processes: set<Identity>) {
    record.identity.Some? && record.identity.value in processes
  }

  // ----- select_dead_runs -----

  function RecordedIds(records: seq<Record>): set<RunId> {
    set record <- records :: record.runId
  }

  function DeadByRecord(records: seq<Record>, notAlive: set<RunId>, own: RunId): seq<DeadRun> {
    if records == [] then []
    else
      var record := records[0];
      (if record.runId != own && record.runId in notAlive then [DeadRun(record.runId, record.hasImage, true)] else [])
      + DeadByRecord(records[1..], notAlive, own)
  }

  function DeadByProject(listed: seq<RunId>, recorded: set<RunId>): seq<DeadRun> {
    if listed == [] then []
    else
      (if listed[0] !in recorded then [DeadRun(listed[0], false, false)] else []) + DeadByProject(listed[1..], recorded)
  }

  function SelectDeadRuns(records: seq<Record>, listed: seq<RunId>, notAlive: set<RunId>, own: RunId): seq<DeadRun> {
    DeadByRecord(records, notAlive, own) + DeadByProject(listed, RecordedIds(records))
  }

  lemma {:induction false} DeadByRecordSelects(records: seq<Record>, notAlive: set<RunId>, own: RunId, d: DeadRun)
    ensures d in DeadByRecord(records, notAlive, own) <==>
              d.hasRecord && d.runId != own && d.runId in notAlive &&
              exists record <- records :: record.runId == d.runId && record.hasImage == d.hasImage
  {
    if records != [] {
      DeadByRecordSelects(records[1..], notAlive, own, d);
      assert forall record :: record in records <==> record == records[0] || record in records[1..];
    }
  }

  lemma {:induction false} DeadByProjectSelects(listed: seq<RunId>, recorded: set<RunId>, d: DeadRun)
    ensures d in DeadByProject(listed, recorded) <==>
              !d.hasRecord && !d.hasImage && d.runId in listed && d.runId !in recorded
  {
    if listed != [] {
      DeadByProjectSelects(listed[1..], recorded, d);
      assert forall r :: r in listed <==> r == listed[0] || r in listed[1..];
    }
  }

  /** A run is selected exactly when another run's record names it and its supervisor was found dead, or
      when it is only known by a project that no record read later accounts for. */
  lemma SelectsExactlyTheDead(records: seq<Record>, listed: seq<RunId>, notAlive: set<RunId>, own: RunId, d: DeadRun)
    ensures d in SelectDeadRuns(records, listed, notAlive, own) <==>
              || (d.hasRecord && d.runId != own && d.runId in notAlive &&
                  exists record <- records :: record.runId == d.runId && record.hasImage == d.hasImage)
              || (!d.hasRecord && !d.hasImage && d.runId in listed && d.runId !in RecordedIds(records))
  {
    DeadByRecordSelects(records, notAlive, own, d);
    DeadByProjectSelects(listed, RecordedIds(records), d);
  }

  // ----- the steps of a run -----

  function AfterHead(queue: seq<DeadRun>): Option<Move>
    requires queue != []
  {
    Some(Move(Sweeping(Acting(queue[1..], RemovingProject)),
              if queue[0].hasRecord then DropRecord(queue[0].runId) else NoEffect))
  }

  /** read_known_runs, select_dead_runs and sweep_dead_runs. */
  function SweepStep(own: RunId, sw: Sweep, host: Host, e: Event): Option<Move> {
    match sw
    case Listing =>
      if e.Listed? && (forall r <- e.projects :: r in host.projects) then
        Some(Move(Sweeping(Globbing(e.projects)), NoEffect))
      else None
    case Globbing(listed) =>
      if e == Proceed then Some(Move(Sweeping(Reading(listed, host.records.Keys, [])), NoEffect)) else None
    case Reading(listed, todo, known) =>
      if e.Read? && e.runId in todo then
        var read := if e.runId in host.records then [host.records[e.runId]] else [];
        Some(Move(Sweeping(Reading(listed, todo - {e.runId}, known + read)), NoEffect))
      else if e == Proceed && todo == {} then Some(Move(Sweeping(Judging(listed, known, 0, {})), NoEffect))
      else None
    case Judging(listed, known, judged, notAlive) =>
      if e != Proceed then None
      else if judged < |known| then
        var found := if IsSupervisorAlive(known[judged], host.processes) then {} else {known[judged].runId};
        Some(Move(Sweeping(Judging(listed, known, judged + 1, notAlive + found)), NoEffect))
      else Some(Move(Sweeping(Acting(SelectDeadRuns(known, listed, notAlive, own), RemovingProject)), NoEffect))
    case Acting(queue, phase) =>
      if queue == [] then if e == Proceed then Some(Move(Working, NoEffect)) else None
      else
        match phase
        case RemovingProject =>
          if e == Succeeded then Some(Move(Sweeping(Acting(queue, RemovingImage)), DropProject(queue[0].runId)))
          else if e == FailedHalfway then Some(Move(CleaningProject, DropProject(queue[0].runId)))
          else None
        case RemovingImage =>
          if e != Succeeded then None
          else
            Some(Move(Sweeping(Acting(queue, RemovingRecord)),
                      if queue[0].hasImage then DropImage(queue[0].runId) else NoEffect))
        case RemovingRecord => if e == Proceed then AfterHead(queue) else None
  }

  /** _run_until_cleanup and _clean_up. */
  function RunStep(own: RunId, run: Run, host: Host, e: Event): Option<Move> {
    if e == Killed then
      if run.pc.Ended? then None else Some(Move(Ended(run.pc == Working), NoEffect))
    else
      match run.pc
      case Starting =>
        if e == Proceed then Some(Move(Sweeping(Listing), PutRecord))
        else if e == Interrupted || e == Failed then Some(Move(CleaningProject, NoEffect))
        else None
      case Sweeping(sw) =>
        if e == Interrupted || e == Failed then Some(Move(CleaningProject, NoEffect)) else SweepStep(own, sw, host, e)
      case Working =>
        if e == ImageBuilt && run.hasImage then Some(Move(Working, AddImage))
        else if e == ProjectCreated then Some(Move(Working, AddProject))
        else if e == Proceed || e == Interrupted || e == Failed then Some(Move(CleaningProject, NoEffect))
        else None
      case CleaningProject =>
        if e == Succeeded then Some(Move(CleaningImage(true), DropProject(own)))
        else if e == FailedHalfway then Some(Move(CleaningImage(false), DropProject(own)))
        else if e == Failed then Some(Move(CleaningImage(false), NoEffect))
        else if e == Interrupted then Some(Move(Ended(false), NoEffect))
        else None
      case CleaningImage(isProjectRemoved) =>
        if e == Succeeded then Some(Move(if isProjectRemoved then CleaningRecord else Ended(false), DropImage(own)))
        else if e == Failed then Some(Move(Ended(false), NoEffect))
        else None
      case CleaningRecord => if e == Proceed then Some(Move(Ended(false), DropRecord(own))) else None
      case Ended(_) => None
  }

  function HostAfter(host: Host, own: RunId, run: Run, effect: Effect): Host {
    match effect
    case NoEffect => host
    case PutRecord => host.(records := host.records[own := RecordOf(own, run)])
    case AddImage => host.(images := host.images + {own})
    case AddProject => host.(projects := host.projects + {own})
    case DropProject(r) => host.(projects := host.projects - {r})
    case DropImage(r) => host.(images := host.images - {r})
    case DropRecord(r) => host.(records := host.records - {r})
  }

  function AfterMove(s: State, r: RunId, m: Move): State
    requires r in s.runs
  {
    var host := HostAfter(s.host, r, s.runs[r], m.effect);
    State(if m.pc.Ended? then host.(processes := host.processes - {s.runs[r].identity}) else host,
          s.runs[r := s.runs[r].(pc := m.pc)])
  }

  function MoveRun(s: State, r: RunId, e: Event): Option<State> {
    if r !in s.runs then None
    else
      match RunStep(r, s.runs[r], s.host, e)
      case None => None
      case Some(m) => Some(AfterMove(s, r, m))
  }

  function Next(s: State, a: Action): Option<State> {
    match a
    case Launch(r, identity, hasImage) =>
      if r in s.runs || identity in s.host.usedIdentities then None
      else
        var host := s.host.(processes := s.host.processes + {identity},
                            usedIdentities := s.host.usedIdentities + {identity});
        Some(State(host, s.runs[r := Run(identity, hasImage, Starting)]))
    case Moves(r, e) => MoveRun(s, r, e)
    case StragglerCreates(r) =>
      if r in s.runs && s.runs[r].pc == Ended(true) then
        Some(s.(host := s.host.(projects := s.host.projects + {r})))
      else None
    case StragglerBuilds(r) =>
      if r in s.runs && s.runs[r].pc == Ended(true) && s.runs[r].hasImage then
        Some(s.(host := s.host.(images := s.host.images + {r})))
      else None
    case Damage(r) =>
      if r in s.runs && s.runs[r].pc.Ended? && r in s.host.records then
        Some(s.(host := s.host.(records := s.host.records[r := Record(r, None, false)])))
      else None
    case OtherProcessStarts(identity) =>
      if identity in s.host.usedIdentities then None
      else
        Some(s.(host := s.host.(processes := s.host.processes + {identity},
                                usedIdentities := s.host.usedIdentities + {identity})))
    case OtherProcessEnds(identity) =>
      if forall r <- s.runs :: s.runs[r].identity != identity then
        Some(s.(host := s.host.(processes := s.host.processes - {identity})))
      else None
  }

  ghost predicate Runs(s: State, actions: seq<Action>, t: State)
    decreases |actions|
  {
    if actions == [] then s == t
    else
      var next := Next(s, actions[0]);
      next.Some? && Runs(next.value, actions[1..], t)
  }

  ghost predicate Reachable(s: State) {
    exists actions :: Runs(Init(), actions, s)
  }

  // ----- the invariant -----

  predicate HasEnded(s: State, r: RunId) {
    r in s.runs && s.runs[r].pc.Ended?
  }

  /** The run has ended, or its owner has already removed its project and will not create it again. */
  predicate IsDone(s: State, r: RunId) {
    r in s.runs && (s.runs[r].pc.Ended? || s.runs[r].pc == CleaningImage(true) || s.runs[r].pc == CleaningRecord)
  }

  /** A sweeper that meets the run's project will also meet its record, unless the run is done. */
  predicate IsAccountedFor(s: State, r: RunId) {
    r in s.host.records || IsDone(s, r)
  }

  // A record is that of the run it names; after the end of that run it may be damaged, which leaves it none.
  predicate IsTrueRecord(s: State, record: Record) {
    record.runId in s.runs && (record == RecordOf(record.runId, s.runs[record.runId]) ||
                               (HasEnded(s, record.runId) && record.identity == None))
  }

  ghost predicate SweepInv(s: State, sw: Sweep) {
    match sw
    case Listing => true
    case Globbing(listed) => forall r <- listed :: IsAccountedFor(s, r)
    case Reading(listed, todo, known) =>
      && (forall r <- listed :: IsAccountedFor(s, r) && (r in todo || r in RecordedIds(known) || IsDone(s, r)))
      && (forall record <- known :: IsTrueRecord(s, record))
    case Judging(listed, known, judged, notAlive) =>
      && (forall r <- listed :: r in RecordedIds(known) || IsDone(s, r))
      && (forall record <- known :: IsTrueRecord(s, record))
      && (forall r <- notAlive :: HasEnded(s, r))
    case Acting(queue, _) =>
      forall d <- queue :: IsDone(s, d.runId) && (d.hasRecord || d.hasImage ==> HasEnded(s, d.runId))
  }

  ghost predicate SweepsInv(s: State) {
    forall r <- s.runs :: s.runs[r].pc.Sweeping? ==> SweepInv(s, s.runs[r].pc.sweep)
  }

  ghost predicate HostInv(s: State) {
    && (forall r <- s.host.projects :: r in s.runs && IsAccountedFor(s, r))
    && (forall r <- s.runs :: s.runs[r].pc == CleaningImage(true) || s.runs[r].pc == CleaningRecord ==>
                                r !in s.host.projects)
    && (forall r <- s.host.records :: s.host.records[r].runId == r && IsTrueRecord(s, s.host.records[r]))
    && (forall r <- s.runs :: s.runs[r].pc.Sweeping? || s.runs[r].pc.Working? ==> r in s.host.records)
  }

  // The process of a run is in the process table exactly until the run ends.
  ghost predicate ProcessInv(s: State) {
    && (forall r <- s.runs :: s.runs[r].identity in s.host.usedIdentities)
    && (forall r <- s.runs :: s.runs[r].identity in s.host.processes <==> !s.runs[r].pc.Ended?)
    && (forall r <- s.runs, q <- s.runs :: r != q ==> s.runs[r].identity != s.runs[q].identity)
    && s.host.processes <= s.host.usedIdentities
  }

  // Only a child that outlived its killed supervisor brings a removed project back.
  predicate IsProjectGone(s: State, r: RunId) {
    r !in s.host.projects || (r in s.runs && s.runs[r].pc == Ended(true))
  }

  // And a removed image.
  predicate IsImageGone(s: State, r: RunId) {
    r !in s.host.images || (r in s.runs && s.runs[r].pc == Ended(true))
  }

  // What a clean-up or a sweep has already removed when it reaches a later phase.
  ghost predicate ProgressInv(s: State) {
    && (forall r <- s.runs :: s.runs[r].pc == CleaningRecord ==> r !in s.host.images)
    && (forall r <- s.runs :: s.runs[r].pc.Sweeping? && s.runs[r].pc.sweep.Acting? ==>
                                HasProgressed(s, s.runs[r].pc.sweep.queue, s.runs[r].pc.sweep.phase))
  }

  predicate HasProgressed(s: State, queue: seq<DeadRun>, phase: Phase) {
    phase == RemovingProject ||
    (queue != [] && IsProjectGone(s, queue[0].runId) &&
     (phase == RemovingRecord && queue[0].hasImage ==> IsImageGone(s, queue[0].runId)))
  }

  ghost predicate Inv(s: State) {
    HostInv(s) && ProcessInv(s) && SweepsInv(s) && ProgressInv(s)
  }

  // ----- every step keeps the invariant -----

  /** What a move may do to whom. */
  ghost predicate IsShapely(own: RunId, run: Run, m: Move) {
    && !run.pc.Ended?
    && (match m.effect
        case NoEffect => true
        case PutRecord => run.pc == Starting && m.pc == Sweeping(Listing)
        case AddImage => run.pc == Working && m.pc == Working
        case AddProject => run.pc == Working && m.pc == Working
        case DropProject(r) => (r == own && run.pc == CleaningProject) || IsHead(run.pc, r, false)
        case DropImage(r) => (r == own && run.pc.CleaningImage?) || IsHead(run.pc, r, true)
        case DropRecord(r) => (r == own && run.pc == CleaningRecord && m.pc.Ended?) || IsHead(run.pc, r, true))
    && (m.pc == CleaningImage(true) ==> run.pc == CleaningProject && m.effect == DropProject(own))
    && (m.pc == CleaningRecord ==> run.pc == CleaningImage(true))
    && (m.pc.Sweeping? ==> run.pc.Sweeping? || m.effect == PutRecord)
    && (m.pc.Working? ==> run.pc.Sweeping? || run.pc.Working?)
    && (run.pc == CleaningImage(true) ==> m.pc == CleaningRecord || m.pc.Ended?)
    && (run.pc == CleaningRecord ==> m.pc.Ended?)
  }

  // r heads the sweeper's queue, judged by its record if `isRecorded`.
  predicate IsHead(pc: Pc, r: RunId, isRecorded: bool) {
    pc.Sweeping? && pc.sweep.Acting? && pc.sweep.queue != [] &&
    var d := pc.sweep.queue[0];
    d.runId == r && (isRecorded ==> d.hasRecord || d.hasImage)
  }

  lemma RunStepIsShapely(own: RunId, run: Run, host: Host, e: Event, m: Move)
    requires RunStep(own, run, host, e) == Some(m)
    ensures IsShapely(own, run, m)
  {
  }

  /** What never gets undone: facts about other runs that a sweeper has collected stay true. */
  ghost predicate OnlyGrows(s: State, t: State) {
    && s.runs.Keys <= t.runs.Keys
    && (forall r <- s.runs :: t.runs[r].identity == s.runs[r].identity && t.runs[r].hasImage == s.runs[r].hasImage)
    && (forall r <- s.runs :: (HasEnded(s, r) ==> HasEnded(t, r)) && (IsDone(s, r) ==> IsDone(t, r)))
    && (forall r :: IsAccountedFor(s, r) ==> IsAccountedFor(t, r))
  }

  lemma SweepInvIsStable(s: State, t: State, sw: Sweep)
    requires SweepInv(s, sw) && OnlyGrows(s, t)
    ensures SweepInv(t, sw)
  {
    match sw
    case Listing =>
    case Globbing(_) =>
    case Reading(_, _, known) => TrueRecordsStayTrue(s, t, known);
    case Judging(_, known, _, _) => TrueRecordsStayTrue(s, t, known);
    case Acting(_, _) =>
  }

  lemma TrueRecordsStayTrue(s: State, t: State, known: seq<Record>)
    requires OnlyGrows(s, t) && forall record <- known :: IsTrueRecord(s, record)
    ensures forall record <- known :: IsTrueRecord(t, record)
  {
  }

  lemma MoveOnlyGrows(s: State, r: RunId, m: Move)
    requires Inv(s) && r in s.runs && IsShapely(r, s.runs[r], m)
    ensures OnlyGrows(s, AfterMove(s, r, m))
  {
    var t := AfterMove(s, r, m);
    HeadsAreDone(s, r);
    forall q | IsAccountedFor(s, q)
      ensures IsAccountedFor(t, q)
    {
      if q in s.host.records && q !in t.host.records {
        assert m.effect == DropRecord(q);
      }
    }
  }

  lemma HeadsAreDone(s: State, r: RunId)
    requires SweepsInv(s) && r in s.runs
    ensures forall q :: IsHead(s.runs[r].pc, q, false) ==> IsDone(s, q)
    ensures forall q :: IsHead(s.runs[r].pc, q, true) ==> HasEnded(s, q)
  {
  }

  lemma MoveKeepsProjects(s: State, r: RunId, m: Move, t: State)
    requires Inv(s) && r in s.runs && IsShapely(r, s.runs[r], m) && t == AfterMove(s, r, m) && OnlyGrows(s, t)
    ensures forall q <- t.host.projects :: q in t.runs && IsAccountedFor(t, q)
    ensures forall q <- t.runs :: t.runs[q].pc == CleaningImage(true) || t.runs[q].pc == CleaningRecord ==>
                                    q !in t.host.projects
  {
    assert forall q <- t.host.projects :: q in s.host.projects || (q == r && m.effect == AddProject);
    assert m.effect == AddProject ==> r in s.host.records;
  }

  // Records that were there are as true as they were.
  lemma OldRecordsStayTrue(s: State, t: State)
    requires HostInv(s) && OnlyGrows(s, t)
    ensures forall q <- s.host.records :: s.host.records[q].runId == q && IsTrueRecord(t, s.host.records[q])
  {
    assert forall q <- s.host.records :: IsTrueRecord(s, s.host.records[q]);
  }

  lemma MoveKeepsRecords(s: State, r: RunId, m: Move, t: State)
    requires Inv(s) && r in s.runs && IsShapely(r, s.runs[r], m) && t == AfterMove(s, r, m) && OnlyGrows(s, t)
    ensures forall q <- t.host.records :: t.host.records[q].runId == q && IsTrueRecord(t, t.host.records[q])
  {
    OldRecordsStayTrue(s, t);
    assert forall q <- t.host.records ::
        (q in s.host.records && t.host.records[q] == s.host.records[q]) ||
        (q == r && t.host.records[q] == RecordOf(r, s.runs[r]));
  }

  lemma MoveKeepsOwnRecords(s: State, r: RunId, m: Move, t: State)
    requires Inv(s) && r in s.runs && IsShapely(r, s.runs[r], m) && t == AfterMove(s, r, m)
    ensures forall q <- t.runs :: t.runs[q].pc.Sweeping? || t.runs[q].pc.Working? ==> q in t.host.records
  {
    HeadsAreDone(s, r);
    assert forall q <- t.runs :: q != r ==> t.runs[q] == s.runs[q];
  }

  lemma MoveKeepsHost(s: State, r: RunId, m: Move)
    requires Inv(s) && r in s.runs && IsShapely(r, s.runs[r], m)
    ensures HostInv(AfterMove(s, r, m))
  {
    MoveOnlyGrows(s, r, m);
    MoveKeepsProjects(s, r, m, AfterMove(s, r, m));
    MoveKeepsRecords(s, r, m, AfterMove(s, r, m));
    MoveKeepsOwnRecords(s, r, m, AfterMove(s, r, m));
  }

  lemma MoveKeepsProcesses(s: State, r: RunId, m: Move)
    requires ProcessInv(s) && r in s.runs && IsShapely(r, s.runs[r], m)
    ensures ProcessInv(AfterMove(s, r, m))
  {
    var t := AfterMove(s, r, m);
    assert forall q <- t.runs :: q in s.runs && t.runs[q].identity == s.runs[q].identity;
    assert forall q <- t.runs :: q != r ==> t.runs[q] == s.runs[q];
  }

  /** The sweep of the moving run itself: each stage turns what it has seen into a lasting fact. */
  lemma SweepStepKeepsSweep(s: State, own: RunId, sw: Sweep, e: Event, m: Move)
    requires HostInv(s) && ProcessInv(s) && SweepInv(s, sw) && SweepStep(own, sw, s.host, e) == Some(m)
    requires m.pc.Sweeping?
    ensures SweepInv(s, m.pc.sweep)
  {
    match sw
    case Listing =>
    case Globbing(_) =>
    case Reading(listed, todo, known) =>
      if e.Read? { AReadRecordIsKnown(s, listed, todo, known, e.runId, m.pc.sweep.known); }
    case Judging(listed, known, judged, notAlive) =>
      if judged < |known| {
        assert IsTrueRecord(s, known[judged]);
      } else {
        ASelectedRunIsDone(s, own, listed, known, notAlive);
      }
    case Acting(queue, _) =>
  }

  lemma AReadRecordIsKnown(
    s: State, listed: seq<RunId>, todo: set<RunId>, known: seq<Record>, r: RunId, after: seq<Record>)
    requires HostInv(s) && SweepInv(s, Reading(listed, todo, known)) && r in todo
    requires after == known + (if r in s.host.records then [s.host.records[r]] else [])
    ensures SweepInv(s, Reading(listed, todo - {r}, after))
  {
    assert forall record <- after :: record in known || (r in s.host.records && record == s.host.records[r]);
    assert RecordedIds(known) <= RecordedIds(after) by {
      assert forall record <- known :: record in after;
    }
    if r in s.host.records {
      assert s.host.records[r] in after;
      assert r in RecordedIds(after);
    }
  }

  lemma ASelectedRunIsDone(s: State, own: RunId, listed: seq<RunId>, known: seq<Record>, notAlive: set<RunId>)
    requires SweepInv(s, Judging(listed, known, |known|, notAlive))
    ensures SweepInv(s, Acting(SelectDeadRuns(known, listed, notAlive, own), RemovingProject))
  {
    forall d <- SelectDeadRuns(known, listed, notAlive, own)
      ensures IsDone(s, d.runId) && (d.hasRecord || d.hasImage ==> HasEnded(s, d.runId))
    {
      SelectsExactlyTheDead(known, listed, notAlive, own, d);
    }
  }

  lemma MoveKeepsSweeps(s: State, r: RunId, e: Event, m: Move)
    requires Inv(s) && r in s.runs && RunStep(r, s.runs[r], s.host, e) == Some(m) && IsShapely(r, s.runs[r], m)
    ensures SweepsInv(AfterMove(s, r, m))
  {
    var t := AfterMove(s, r, m);
    MoveOnlyGrows(s, r, m);
    forall q <- t.runs | t.runs[q].pc.Sweeping?
      ensures SweepInv(t, t.runs[q].pc.sweep)
    {
      if q != r {
        SweepInvIsStable(s, t, s.runs[q].pc.sweep);
      } else if s.runs[r].pc.Sweeping? {
        SweepStepKeepsSweep(s, r, s.runs[r].pc.sweep, e, m);
        SweepInvIsStable(s, t, m.pc.sweep);
      }
    }
  }

  // The run of a queue's head is done, so nothing that has been removed of it comes back.
  lemma AProgressStays(s: State, r: RunId, m: Move, queue: seq<DeadRun>, phase: Phase)
    requires r in s.runs && IsShapely(r, s.runs[r], m)
    requires HasProgressed(s, queue, phase) && SweepInv(s, Acting(queue, phase))
    ensures HasProgressed(AfterMove(s, r, m), queue, phase)
  {
    if queue != [] {
      assert IsDone(s, queue[0].runId);
    }
  }

  lemma AnActingStepMakesProgress(s: State, r: RunId, e: Event, m: Move, queue: seq<DeadRun>, phase: Phase)
    requires Inv(s) && r in s.runs && s.runs[r].pc == Sweeping(Acting(queue, phase)) && queue != []
    requires SweepStep(r, s.runs[r].pc.sweep, s.host, e) == Some(m) && m.pc.Sweeping? && m.pc.sweep.Acting?
    ensures HasProgressed(AfterMove(s, r, m), m.pc.sweep.queue, m.pc.sweep.phase)
  {
    assert IsDone(s, queue[0].runId) && HasProgressed(s, queue, phase);
    match phase
    case RemovingProject =>
    case RemovingImage =>
    case RemovingRecord =>
  }

  lemma SweepStepMakesProgress(s: State, r: RunId, e: Event, m: Move)
    requires Inv(s) && r in s.runs && s.runs[r].pc.Sweeping? && RunStep(r, s.runs[r], s.host, e) == Some(m)
    requires m.pc.Sweeping? && m.pc.sweep.Acting?
    ensures HasProgressed(AfterMove(s, r, m), m.pc.sweep.queue, m.pc.sweep.phase)
  {
    var sw := s.runs[r].pc.sweep;
    if sw.Acting? && sw.queue != [] {
      AnActingStepMakesProgress(s, r, e, m, sw.queue, sw.phase);
    }
  }

  lemma MoveKeepsProgress(s: State, r: RunId, e: Event, m: Move)
    requires Inv(s) && r in s.runs && RunStep(r, s.runs[r], s.host, e) == Some(m) && IsShapely(r, s.runs[r], m)
    ensures ProgressInv(AfterMove(s, r, m))
  {
    var t := AfterMove(s, r, m);
    forall q <- t.runs | t.runs[q].pc.Sweeping? && t.runs[q].pc.sweep.Acting?
      ensures HasProgressed(t, t.runs[q].pc.sweep.queue, t.runs[q].pc.sweep.phase)
    {
      if q != r {
        AProgressStays(s, r, m, s.runs[q].pc.sweep.queue, s.runs[q].pc.sweep.phase);
      } else {
        SweepStepMakesProgress(s, r, e, m);
      }
    }
    forall q <- t.runs | t.runs[q].pc == CleaningRecord
      ensures q !in t.host.images
    {
      if q == r {
        ACleanedImageIsGone(q, s.runs[q], s.host, e, m);
      }
    }
  }

  lemma ACleanedImageIsGone(own: RunId, run: Run, host: Host, e: Event, m: Move)
    requires RunStep(own, run, host, e) == Some(m) && m.pc == CleaningRecord
    ensures m.effect == DropImage(own)
  {
  }

  lemma MoveKeepsInv(s: State, r: RunId, e: Event, t: State)
    requires Inv(s) && MoveRun(s, r, e) == Some(t)
    ensures Inv(t)
  {
    var m := RunStep(r, s.runs[r], s.host, e).value;
    RunStepIsShapely(r, s.runs[r], s.host, e, m);
    MoveKeepsHost(s, r, m);
    MoveKeepsProcesses(s, r, m);
    MoveKeepsSweeps(s, r, e, m);
    MoveKeepsProgress(s, r, e, m);
  }

  lemma LaunchKeepsInv(s: State, a: Action, t: State)
    requires HostInv(s) && ProcessInv(s) && a.Launch? && Next(s, a) == Some(t)
    ensures OnlyGrows(s, t) && HostInv(t) && ProcessInv(t)
  {
    assert forall r <- s.runs :: t.runs[r] == s.runs[r];
    assert OnlyGrows(s, t);
    OldRecordsStayTrue(s, t);
  }

  lemma StragglersKeepInv(s: State, a: Action, t: State)
    requires HostInv(s) && ProcessInv(s) && (a.StragglerCreates? || a.StragglerBuilds?) && Next(s, a) == Some(t)
    ensures OnlyGrows(s, t) && HostInv(t) && ProcessInv(t)
  {
    assert t.runs == s.runs && OnlyGrows(s, t);
    OldRecordsStayTrue(s, t);
  }

  lemma DamageKeepsInv(s: State, a: Action, t: State)
    requires HostInv(s) && ProcessInv(s) && a.Damage? && Next(s, a) == Some(t)
    ensures OnlyGrows(s, t) && HostInv(t) && ProcessInv(t)
  {
    assert t.runs == s.runs && OnlyGrows(s, t);
    OldRecordsStayTrue(s, t);
  }

  lemma OtherProcessesKeepInv(s: State, a: Action, t: State)
    requires HostInv(s) && ProcessInv(s) && (a.OtherProcessStarts? || a.OtherProcessEnds?) && Next(s, a) == Some(t)
    ensures OnlyGrows(s, t) && HostInv(t) && ProcessInv(t)
  {
    assert t.runs == s.runs && t.host.records == s.host.records && t.host.projects == s.host.projects;
    assert OnlyGrows(s, t);
    OldRecordsStayTrue(s, t);
  }

  lemma OthersOnlyGrow(s: State, a: Action, t: State)
    requires Inv(s) && !a.Moves? && Next(s, a) == Some(t)
    ensures OnlyGrows(s, t) && HostInv(t) && ProcessInv(t)
    ensures forall r <- t.runs :: t.runs[r].pc == Starting || (r in s.runs && t.runs[r] == s.runs[r])
  {
    match a
    case Launch(_, _, _) => LaunchKeepsInv(s, a, t);
    case StragglerCreates(_) => StragglersKeepInv(s, a, t);
    case StragglerBuilds(_) => StragglersKeepInv(s, a, t);
    case Damage(_) => DamageKeepsInv(s, a, t);
    case OtherProcessStarts(_) => OtherProcessesKeepInv(s, a, t);
    case OtherProcessEnds(_) => OtherProcessesKeepInv(s, a, t);
  }

  lemma OthersAddOnlyStragglers(s: State, a: Action, t: State)
    requires !a.Moves? && Next(s, a) == Some(t)
    ensures forall r <- t.host.images :: r in s.host.images || (r in s.runs && s.runs[r].pc == Ended(true))
    ensures forall r <- t.host.projects :: r in s.host.projects || (r in s.runs && s.runs[r].pc == Ended(true))
  {
  }

  lemma OthersKeepProgress(s: State, t: State)
    requires ProgressInv(s) && s.runs.Keys <= t.runs.Keys
    requires forall r <- t.host.images :: r in s.host.images || (r in s.runs && s.runs[r].pc == Ended(true))
    requires forall r <- t.host.projects :: r in s.host.projects || (r in s.runs && s.runs[r].pc == Ended(true))
    requires forall r <- t.runs :: t.runs[r].pc == Starting || (r in s.runs && t.runs[r] == s.runs[r])
    requires forall r <- s.runs :: t.runs[r].identity == s.runs[r].identity && (HasEnded(s, r) ==> HasEnded(t, r))
    ensures ProgressInv(t)
  {
  }

  lemma StepKeepsInv(s: State, a: Action, t: State)
    requires Inv(s) && Next(s, a) == Some(t)
    ensures Inv(t)
  {
    if a.Moves? {
      MoveKeepsInv(s, a.r, a.event, t);
    } else {
      OthersOnlyGrow(s, a, t);
      forall r <- t.runs | t.runs[r].pc.Sweeping?
        ensures SweepInv(t, t.runs[r].pc.sweep)
      {
        SweepInvIsStable(s, t, s.runs[r].pc.sweep);
      }
      OthersAddOnlyStragglers(s, a, t);
      OthersKeepProgress(s, t);
    }
  }

  lemma {:induction false} RunsKeepInv(s: State, actions: seq<Action>, t: State)
    requires Inv(s) && Runs(s, actions, t)
    ensures Inv(t)
    decreases |actions|
  {
    if actions != [] {
      StepKeepsInv(s, actions[0], Next(s, actions[0]).value);
      RunsKeepInv(Next(s, actions[0]).value, actions[1..], t);
    }
  }

  lemma ReachableKeepsInv(s: State)
    requires Reachable(s)
    ensures Inv(s)
  {
    var actions :| Runs(Init(), actions, s);
    RunsKeepInv(Init(), actions, s);
  }

  // ----- what the sweep promises -----

  /** Whatever a sweeper still means to remove belongs to a run that has ended, or whose owner has already
      removed its project; an image or a record it means to remove is that of a run that has ended. */
  lemma JudgementsStayTrue(s: State, w: RunId, queue: seq<DeadRun>, phase: Phase)
    requires Reachable(s) && w in s.runs && s.runs[w].pc == Sweeping(Acting(queue, phase))
    ensures forall d <- queue :: IsDone(s, d.runId) && (d.hasRecord || d.hasImage ==> HasEnded(s, d.runId))
  {
    ReachableKeepsInv(s);
  }

  /** No step of one run takes anything from another run that has not ended: not its project, its image,
      its record or its process. */
  lemma NoLiveRunLosesAnything(s: State, w: RunId, e: Event, t: State, r: RunId)
    requires Reachable(s) && Next(s, Moves(w, e)) == Some(t)
    requires r in s.runs && r != w && !HasEnded(s, r)
    ensures r in s.host.projects ==> r in t.host.projects
    ensures r in s.host.images ==> r in t.host.images
    ensures r in s.host.records ==> r in t.host.records && t.host.records[r] == s.host.records[r]
    ensures s.runs[r].identity in t.host.processes && t.runs[r] == s.runs[r]
  {
    ReachableKeepsInv(s);
    var m := RunStep(w, s.runs[w], s.host, e).value;
    RunStepIsShapely(w, s.runs[w], s.host, e, m);
    HeadsAreDone(s, w);
  }

  /** A project whose run has no record any more can only be that of a run that has ended, so the next
      sweep may take it for a crashed one. */
  lemma AnUnrecordedProjectIsOrphaned(s: State, r: RunId)
    requires Reachable(s) && r in s.host.projects && r !in s.host.records
    ensures HasEnded(s, r)
  {
    ReachableKeepsInv(s);
  }

  /** The record that a sweeper reads tells the truth about its supervisor: it passes for dead exactly when the
      run has ended, although its PID may have been reused and the record damaged. */
  lemma RecordsTellWhoIsAlive(s: State, r: RunId)
    requires Reachable(s) && r in s.host.records
    ensures r in s.runs && (IsSupervisorAlive(s.host.records[r], s.host.processes) <==> !HasEnded(s, r))
  {
    ReachableKeepsInv(s);
    assert IsTrueRecord(s, s.host.records[r]);
  }

  /** When a sweep is finished with a dead run, the run's record is gone, and so are its image and its project
      unless a child of the killed supervisor is still at work. */
  lemma ASweptRunIsGone(s: State, w: RunId, t: State, queue: seq<DeadRun>)
    requires Reachable(s) && w in s.runs && queue != []
    requires s.runs[w].pc == Sweeping(Acting(queue, RemovingRecord)) && Next(s, Moves(w, Proceed)) == Some(t)
    ensures t.runs[w].pc == Sweeping(Acting(queue[1..], RemovingProject))
    ensures IsProjectGone(t, queue[0].runId)
    ensures queue[0].hasImage ==> IsImageGone(t, queue[0].runId)
    ensures queue[0].hasRecord ==> queue[0].runId !in t.host.records
  {
    ReachableKeepsInv(s);
    AProgressStays(s, w, AfterHead(queue).value, queue, RemovingRecord);
  }

  /** A run that removes its own record has nothing left to find. */
  lemma ACleanExitLeavesNothing(s: State, r: RunId, t: State)
    requires Reachable(s) && r in s.runs && s.runs[r].pc == CleaningRecord && Next(s, Moves(r, Proceed)) == Some(t)
    ensures HasEnded(t, r)
    ensures r !in t.host.projects && r !in t.host.images && r !in t.host.records
  {
    ReachableKeepsInv(s);
  }
}
