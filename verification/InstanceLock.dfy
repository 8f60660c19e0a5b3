/**
The agent's single-instance lock: an flock on a file whose path anyone may remove. Any number of daemons
and of `stop` and `status` commands interleave system call by system call, and the path may be removed
or replaced from outside. A file stays itself while it is linked or open; its inode number may name
another file afterwards.
*/
module InstanceLock {
  import opened Options

  type Proc = nat
  type FileId = nat

  /** The lock file's inode number and the PID written into it. */
  datatype File = File(number: nat, pid: Option<Proc>)

  datatype Disk = Disk(path: Option<FileId>, files: map<FileId, File>, locks: map<FileId, Proc>, nextFile: FileId)

  /** A daemon from AcquireLock to the end of ReleaseLock. `Idle` is also a daemon that re-executes itself. */
  datatype Pc =
    | Idle
    | Opened(file: FileId)
    | Locked(file: FileId)
    | Written(file: FileId)
    | Running(file: FileId, recorded: nat, isCancelled: bool)
    | Unlocked(file: FileId, recorded: nat)
    | Closed(recorded: nat)
    | RemovingPath
    | Exited

  /** A `stop` or `status` command that found a PID and may remove a stale lock file. */
  datatype Command = Ready | Judging(pid: Proc) | RemovingStale(pid: Proc) | Finished

  datatype State = State(disk: Disk, procs: map<Proc, Pc>, commands: map<nat, Command>)

  datatype Call =
    | Open(number: nat) | Flock | WritePid(isWritten: bool) | StartWatcher | Check | Cancel | Unlock
    | Close(isStatted: bool) | Compare(isRestarting: bool) | RemovePath(isRestarting: bool) | Crash

  datatype Action =
    | Daemon(p: Proc, call: Call) | ReadPid(c: nat) | Judge(c: nat) | RemoveStale(c: nat)
    | ExternalRemove | ExternalReplace(number: nat)

  /** What a system call does to the disk. */
  datatype Effect = NoEffect | CreateFile(number: nat) | TakeLock(file: FileId) | RecordPid(file: FileId)
                  | DropLock(file: FileId) | UnlinkPath

  datatype Move = Move(pc: Pc, effect: Effect)

  function Init(): State {
    State(Disk(None, map[], map[], 0), map[], map[])
  }

  function PcOf(s: State, p: Proc): Pc {
    if p in s.procs then s.procs[p] else Idle
  }

  function CommandOf(s: State, c: nat): Command {
    if c in s.commands then s.commands[c] else Ready
  }

  function OpenFile(pc: Pc): Option<FileId> {
    if pc.Opened? || HoldsLock(pc) || pc.Unlocked? then Some(pc.file) else None
  }

  predicate HoldsLock(pc: Pc) {
    pc.Locked? || pc.Written? || pc.Running?
  }

  // A file keeps its inode while the path or an open descriptor refers to it.
  ghost predicate InUse(s: State, f: FileId) {
    s.disk.path == Some(f) || exists p <- s.procs :: OpenFile(s.procs[p]) == Some(f)
  }

  ghost predicate IsFreeNumber(s: State, number: nat) {
    forall f <- s.disk.files :: InUse(s, f) ==> s.disk.files[f].number != number
  }

  predicate IsPathNumber(d: Disk, number: nat) {
    d.path.Some? && d.path.value in d.files && d.files[d.path.value].number == number
  }

  function AfterRelease(isRestarting: bool): Pc {
    if isRestarting then Idle else Exited
  }

  /** The system calls of AcquireLock, NewLockWatcher, the watcher's check and ReleaseLock. A crash, like a
      close, releases the flock of the descriptor. */
  function DaemonMove(pc: Pc, d: Disk, call: Call): Option<Move> {
    match call
    case Open(number) =>
      if pc != Idle then None
      else if d.path.Some? then Some(Move(Opened(d.path.value), NoEffect))
      else Some(Move(Opened(d.nextFile), CreateFile(number)))
    case Flock =>
      if !pc.Opened? then None
      else if pc.file in d.locks then Some(Move(Exited, NoEffect))
      else Some(Move(Locked(pc.file), TakeLock(pc.file)))
    case WritePid(isWritten) =>
      if !pc.Locked? then None
      else if isWritten then Some(Move(Written(pc.file), RecordPid(pc.file)))
      else Some(Move(Exited, DropLock(pc.file)))
    case StartWatcher =>
      if !pc.Written? || pc.file !in d.files then None
      else Some(Move(Running(pc.file, d.files[pc.file].number, false), NoEffect))
    case Check =>
      if !pc.Running? then None
      else Some(Move(pc.(isCancelled := pc.isCancelled || !IsPathNumber(d, pc.recorded)), NoEffect))
    case Cancel => if pc.Running? then Some(Move(pc.(isCancelled := true), NoEffect)) else None
    case Unlock =>
      if pc.Running? then Some(Move(Unlocked(pc.file, pc.recorded), DropLock(pc.file)))
      else if pc.Written? && pc.file in d.files then
        Some(Move(Unlocked(pc.file, d.files[pc.file].number), DropLock(pc.file)))
      else None
    case Close(isStatted) =>
      if !pc.Unlocked? then None
      else Some(Move(if isStatted then Closed(pc.recorded) else RemovingPath, NoEffect))
    case Compare(isRestarting) =>
      if !pc.Closed? then None
      else Some(Move(if IsPathNumber(d, pc.recorded) then RemovingPath else AfterRelease(isRestarting), NoEffect))
    case RemovePath(isRestarting) =>
      if pc == RemovingPath then Some(Move(AfterRelease(isRestarting), UnlinkPath)) else None
    case Crash =>
      if pc == Idle || pc == Exited then None
      else Some(Move(Exited, if HoldsLock(pc) then DropLock(pc.file) else NoEffect))
  }

  function AfterCreate(d: Disk, number: nat): Disk {
    Disk(Some(d.nextFile), d.files[d.nextFile := File(number, None)], d.locks, d.nextFile + 1)
  }

  function DiskAfter(d: Disk, p: Proc, effect: Effect): Disk {
    match effect
    case NoEffect => d
    case CreateFile(number) => AfterCreate(d, number)
    case TakeLock(f) => d.(locks := d.locks[f := p])
    case RecordPid(f) => if f in d.files then d.(files := d.files[f := d.files[f].(pid := Some(p))]) else d
    case DropLock(f) => d.(locks := d.locks - {f})
    case UnlinkPath => d.(path := None)
  }

  ghost function DaemonStep(s: State, p: Proc, call: Call): Option<State> {
    match DaemonMove(PcOf(s, p), s.disk, call)
    case None => None
    case Some(m) =>
      if m.effect.CreateFile? && !IsFreeNumber(s, m.effect.number) then None
      else Some(State(DiskAfter(s.disk, p, m.effect), s.procs[p := m.pc], s.commands))
  }

  function CommandStep(s: State, a: Action): Option<State> {
    match a
    case ReadPid(c) =>
      var d := s.disk;
      if CommandOf(s, c) != Ready then None
      else if d.path.Some? && d.path.value in d.files && d.files[d.path.value].pid.Some? then
        Some(s.(commands := s.commands[c := Judging(d.files[d.path.value].pid.value)]))
      else Some(s.(commands := s.commands[c := Finished]))
    case Judge(c) =>
      if !CommandOf(s, c).Judging? then None
      else
        var pid := CommandOf(s, c).pid;
        Some(s.(commands := s.commands[c := if PcOf(s, pid) == Exited then RemovingStale(pid) else Finished]))
    case RemoveStale(c) =>
      if !CommandOf(s, c).RemovingStale? then None
      else Some(s.(disk := s.disk.(path := None), commands := s.commands[c := Finished]))
    case _ => None
  }

  ghost function Next(s: State, a: Action): Option<State> {
    match a
    case Daemon(p, call) => DaemonStep(s, p, call)
    case ExternalRemove => Some(s.(disk := s.disk.(path := None)))
    case ExternalReplace(number) =>
      if IsFreeNumber(s, number) then Some(s.(disk := AfterCreate(s.disk, number))) else None
    case _ => CommandStep(s, a)
  }

  ghost predicate Runs(s: State, actions: seq<Action>, t: State)
    decreases |actions|
  {
    if actions == [] then s == t
    else
      var next := Next(s, actions[0]);
      next.Some? && Runs(next.value, actions[1..], t)
  }

  ghost predicate Reachable(s: State) {
    exists actions :: Runs(Init(), actions, s)
  }

  // ----- the invariant -----

  ghost predicate FileInv(s: State) {
    && (forall f <- s.disk.files :: f < s.disk.nextFile)
    && (forall f :: InUse(s, f) ==> f in s.disk.files)
    && (forall f <- s.disk.files, g <- s.disk.files :: f != g && InUse(s, f) && InUse(s, g) ==>
                                                         s.disk.files[f].number != s.disk.files[g].number)
  }

  // The flock of a file and its holder's program counter agree.
  ghost predicate LockInv(s: State) {
    && (forall p <- s.procs :: HoldsLock(s.procs[p]) ==>
                                 s.procs[p].file in s.disk.locks && s.disk.locks[s.procs[p].file] == p)
    && (forall f <- s.disk.locks ::
          var p := s.disk.locks[f]; p in s.procs && HoldsLock(s.procs[p]) && s.procs[p].file == f)
  }

  // A daemon's recorded inode and PID are those of the file it has locked.
  ghost predicate IsRecorded(d: Disk, p: Proc, pc: Pc) {
    && (pc.Running? ==> pc.file in d.files && d.files[pc.file].number == pc.recorded)
    && (pc.Running? || pc.Written? ==> pc.file in d.files && d.files[pc.file].pid == Some(p))
  }

  ghost predicate RecordInv(s: State) {
    forall p <- s.procs :: IsRecorded(s.disk, p, s.procs[p])
  }

  ghost predicate CommandInv(s: State) {
    forall c <- s.commands :: s.commands[c].RemovingStale? ==> PcOf(s, s.commands[c].pid) == Exited
  }

  ghost predicate Inv(s: State) {
    FileInv(s) && LockInv(s) && RecordInv(s) && CommandInv(s)
  }

  // ----- every step keeps the invariant -----

  /** How a daemon's program counter, its descriptor, its flock and the disk move together. */
  ghost predicate IsShapely(pc: Pc, d: Disk, m: Move) {
    && pc != Exited
    && (match m.effect
        case CreateFile(_) => pc == Idle && d.path == None && m.pc == Opened(d.nextFile)
        case TakeLock(f) => pc == Opened(f) && m.pc == Locked(f) && f !in d.locks
        case RecordPid(f) => pc == Locked(f) && m.pc == Written(f)
        case DropLock(f) => HoldsLock(pc) && pc.file == f && !HoldsLock(m.pc) &&
                            (OpenFile(m.pc) == None || OpenFile(m.pc) == Some(f))
        case UnlinkPath => OpenFile(m.pc) == None && !HoldsLock(pc)
        case NoEffect => (OpenFile(m.pc) == None || OpenFile(m.pc) == OpenFile(pc) || OpenFile(m.pc) == d.path) &&
                         (HoldsLock(pc) <==> HoldsLock(m.pc)) && (HoldsLock(pc) ==> pc.file == m.pc.file))
    && (m.pc.Running? ==> (pc.Written? && pc.file in d.files && m.pc.recorded == d.files[pc.file].number)
                          || (pc.Running? && m.pc.recorded == pc.recorded))
    && (m.pc.Written? ==> m.effect.RecordPid?)
  }

  lemma DaemonMoveIsShapely(pc: Pc, d: Disk, call: Call, m: Move)
    requires DaemonMove(pc, d, call) == Some(m)
    ensures IsShapely(pc, d, m)
  {
  }

  // The file a step may newly bring into use is one that it has just created.
  lemma UseOnlyShrinks(s: State, p: Proc, m: Move, t: State, f: FileId)
    requires IsShapely(PcOf(s, p), s.disk, m) && t == State(DiskAfter(s.disk, p, m.effect), s.procs[p := m.pc], s.commands)
    requires InUse(t, f) && !(m.effect.CreateFile? && f == s.disk.nextFile)
    ensures InUse(s, f)
  {
    if t.disk.path != Some(f) {
      var q :| q in t.procs && OpenFile(t.procs[q]) == Some(f);
      if q != p {
        assert q in s.procs && OpenFile(s.procs[q]) == Some(f);
      } else {
        assert OpenFile(PcOf(s, p)) == Some(f) || s.disk.path == Some(f);
      }
    }
  }

  lemma DaemonKeepsFiles(s: State, p: Proc, m: Move, t: State)
    requires FileInv(s) && IsShapely(PcOf(s, p), s.disk, m)
    requires m.effect.CreateFile? ==> IsFreeNumber(s, m.effect.number)
    requires t == State(DiskAfter(s.disk, p, m.effect), s.procs[p := m.pc], s.commands)
    ensures FileInv(t)
  {
    forall f | InUse(t, f)
      ensures (m.effect.CreateFile? && f == s.disk.nextFile) || InUse(s, f)
    {
      if !(m.effect.CreateFile? && f == s.disk.nextFile) {
        UseOnlyShrinks(s, p, m, t, f);
      }
    }
    assert forall f <- s.disk.files :: f in t.disk.files && t.disk.files[f].number == s.disk.files[f].number;
  }

  lemma DaemonKeepsLocks(s: State, p: Proc, m: Move, t: State)
    requires LockInv(s) && IsShapely(PcOf(s, p), s.disk, m)
    requires t == State(DiskAfter(s.disk, p, m.effect), s.procs[p := m.pc], s.commands)
    ensures LockInv(t)
  {
    if HoldsLock(PcOf(s, p)) {
      assert s.disk.locks[PcOf(s, p).file] == p;
    }
  }

  lemma DaemonKeepsRecords(s: State, p: Proc, m: Move, t: State)
    requires FileInv(s) && LockInv(s) && RecordInv(s) && IsShapely(PcOf(s, p), s.disk, m)
    requires t == State(DiskAfter(s.disk, p, m.effect), s.procs[p := m.pc], s.commands)
    ensures RecordInv(t)
  {
    forall q <- t.procs
      ensures IsRecorded(t.disk, q, t.procs[q])
    {
      if q != p {
        assert IsRecorded(s.disk, q, s.procs[q]);
        // Two daemons that hold a lock hold different ones, so p writes its PID into another file.
        assert HoldsLock(s.procs[q]) && HoldsLock(PcOf(s, p)) ==> s.procs[q].file != PcOf(s, p).file;
      } else if p in s.procs {
        assert IsRecorded(s.disk, p, s.procs[p]);
        assert HoldsLock(s.procs[p]) ==> InUse(s, s.procs[p].file);
      }
    }
  }

  lemma DaemonKeepsInv(s: State, p: Proc, call: Call, t: State)
    requires Inv(s) && DaemonStep(s, p, call) == Some(t)
    ensures Inv(t)
  {
    var m := DaemonMove(PcOf(s, p), s.disk, call).value;
    DaemonMoveIsShapely(PcOf(s, p), s.disk, call, m);
    DaemonKeepsFiles(s, p, m, t);
    DaemonKeepsLocks(s, p, m, t);
    DaemonKeepsRecords(s, p, m, t);
    assert forall q :: PcOf(s, q) == Exited ==> PcOf(t, q) == Exited;
  }

  lemma CommandKeepsInv(s: State, a: Action, t: State)
    requires Inv(s) && CommandStep(s, a) == Some(t)
    ensures Inv(t)
  {
    assert forall f :: InUse(t, f) ==> InUse(s, f);
    assert forall p <- t.procs :: IsRecorded(s.disk, p, s.procs[p]);
    assert forall p :: PcOf(t, p) == PcOf(s, p);
  }

  lemma ExternalKeepsInv(s: State, a: Action, t: State)
    requires Inv(s) && (a.ExternalRemove? || a.ExternalReplace?) && Next(s, a) == Some(t)
    ensures Inv(t)
  {
    assert forall f :: InUse(t, f) ==> InUse(s, f) || (a.ExternalReplace? && f == s.disk.nextFile);
    assert forall f <- s.disk.files :: f in t.disk.files && t.disk.files[f] == s.disk.files[f];
    assert forall p <- t.procs :: IsRecorded(s.disk, p, s.procs[p]);
    assert forall p :: PcOf(t, p) == PcOf(s, p);
  }

  lemma StepKeepsInv(s: State, a: Action, t: State)
    requires Inv(s) && Next(s, a) == Some(t)
    ensures Inv(t)
  {
    if a.Daemon? {
      DaemonKeepsInv(s, a.p, a.call, t);
    } else if a.ExternalRemove? || a.ExternalReplace? {
      ExternalKeepsInv(s, a, t);
    } else {
      CommandKeepsInv(s, a, t);
    }
  }

  lemma {:induction false} RunsKeepInv(s: State, actions: seq<Action>, t: State)
    requires Inv(s) && Runs(s, actions, t)
    ensures Inv(t)
    decreases |actions|
  {
    if actions != [] {
      StepKeepsInv(s, actions[0], Next(s, actions[0]).value);
      RunsKeepInv(Next(s, actions[0]).value, actions[1..], t);
    }
  }

  lemma ReachableKeepsInv(s: State)
    requires Reachable(s)
    ensures Inv(s)
  {
    var actions :| Runs(Init(), actions, s);
    RunsKeepInv(Init(), actions, s);
  }

  // ----- one agent at a time -----

  predicate IsRunning(s: State, p: Proc) {
    PcOf(s, p).Running?
  }

  /** The file the daemon has locked is no longer the one at the path. */
  predicate IsDisplaced(s: State, p: Proc)
    requires IsRunning(s, p)
  {
    s.disk.path != Some(PcOf(s, p).file)
  }

  lemma CheckSeesDisplacement(s: State, p: Proc)
    requires Inv(s) && IsRunning(s, p)
    ensures IsPathNumber(s.disk, PcOf(s, p).recorded) <==> !IsDisplaced(s, p)
  {
    assert IsRecorded(s.disk, p, s.procs[p]) && InUse(s, PcOf(s, p).file);
    if s.disk.path.Some? {
      assert InUse(s, s.disk.path.value);
    }
  }

  lemma LocksAreExclusive(s: State, p: Proc, q: Proc)
    requires LockInv(s) && HoldsLock(PcOf(s, p)) && HoldsLock(PcOf(s, q)) && p != q
    ensures PcOf(s, p).file != PcOf(s, q).file
  {
  }

  /** In any file-system state at most one running daemon would pass its watcher's check, although inode
      numbers are reused: a recorded number matches the path exactly when the locked file is still there. */
  lemma AtMostOnePassesItsCheck(s: State, p: Proc, q: Proc)
    requires Reachable(s) && IsRunning(s, p) && IsRunning(s, q)
    requires IsPathNumber(s.disk, PcOf(s, p).recorded) && IsPathNumber(s.disk, PcOf(s, q).recorded)
    ensures p == q
  {
    ReachableKeepsInv(s);
    CheckSeesDisplacement(s, p);
    CheckSeesDisplacement(s, q);
  }

  /** A check cancels the daemon exactly when its path vanished or leads to another file. */
  lemma CheckCancelsExactlyTheDisplaced(s: State, p: Proc, t: State)
    requires Reachable(s) && IsRunning(s, p) && Next(s, Daemon(p, Check)) == Some(t)
    ensures IsRunning(t, p) && PcOf(t, p).file == PcOf(s, p).file
    ensures PcOf(t, p).isCancelled <==> PcOf(s, p).isCancelled || IsDisplaced(s, p)
  {
    ReachableKeepsInv(s);
    CheckSeesDisplacement(s, p);
  }

  // The file has left the path for good; p may still run on it or be giving it up, and if it runs, its
  // context is cancelled where that has been established.
  ghost predicate HasLeft(s: State, p: Proc, f: FileId, isCancelled: bool) {
    && f in s.disk.files && s.disk.path != Some(f)
    && (OpenFile(PcOf(s, p)) == Some(f) ==>
          PcOf(s, p).Unlocked? || (IsRunning(s, p) && (isCancelled ==> PcOf(s, p).isCancelled)))
  }

  // The path only ever goes to None or to a new file, so a file that left it does not come back.
  lemma ThePathDoesNotComeBack(s: State, a: Action, t: State)
    requires FileInv(s) && Next(s, a) == Some(t)
    ensures t.disk.path == s.disk.path || t.disk.path == None || t.disk.path.value !in s.disk.files
    ensures s.disk.files.Keys <= t.disk.files.Keys
  {
    if a.Daemon? {
      DaemonMoveIsShapely(PcOf(s, a.p), s.disk, a.call, DaemonMove(PcOf(s, a.p), s.disk, a.call).value);
    }
  }

  lemma MovesOfAGivenUpFile(pc: Pc, d: Disk, call: Call, m: Move, f: FileId)
    requires DaemonMove(pc, d, call) == Some(m) && d.path != Some(f) && f != d.nextFile
    requires OpenFile(pc) == Some(f) ==> pc.Running? || pc.Unlocked?
    ensures OpenFile(m.pc) == Some(f) ==> OpenFile(pc) == Some(f)
    ensures OpenFile(m.pc) == Some(f) ==>
              m.pc.Unlocked? || (m.pc.Running? && pc.Running? && (pc.isCancelled ==> m.pc.isCancelled))
  {
  }

  lemma StepKeepsHasLeft(s: State, a: Action, t: State, p: Proc, f: FileId, isCancelled: bool)
    requires FileInv(s) && Next(s, a) == Some(t) && HasLeft(s, p, f, isCancelled)
    ensures HasLeft(t, p, f, isCancelled)
  {
    ThePathDoesNotComeBack(s, a, t);
    if a.Daemon? && a.p == p {
      var m := DaemonMove(PcOf(s, p), s.disk, a.call).value;
      MovesOfAGivenUpFile(PcOf(s, p), s.disk, a.call, m, f);
    } else {
      assert PcOf(t, p) == PcOf(s, p);
    }
  }

  lemma {:induction false} RunsKeepHasLeft(
    s: State, actions: seq<Action>, t: State, p: Proc, f: FileId, isCancelled: bool)
    requires Inv(s) && Runs(s, actions, t) && HasLeft(s, p, f, isCancelled)
    ensures HasLeft(t, p, f, isCancelled)
    decreases |actions|
  {
    if actions != [] {
      var next := Next(s, actions[0]).value;
      StepKeepsInv(s, actions[0], next);
      StepKeepsHasLeft(s, actions[0], next, p, f, isCancelled);
      RunsKeepHasLeft(next, actions[1..], t, p, f, isCancelled);
    }
  }

  /** A displaced daemon stays displaced, and runs on only with a cancelled context after its next check,
      whatever happens before and after that check. */
  lemma ADisplacedDaemonIsCancelled(
    s: State, before: seq<Action>, m: State, next: State, after: seq<Action>, t: State, p: Proc)
    requires Reachable(s) && IsRunning(s, p) && IsDisplaced(s, p)
    requires Runs(s, before, m) && Next(m, Daemon(p, Check)) == Some(next) && Runs(next, after, t)
    requires IsRunning(m, p) && IsRunning(t, p)
    requires PcOf(m, p).file == PcOf(s, p).file == PcOf(t, p).file
    ensures IsDisplaced(t, p) && PcOf(t, p).isCancelled
  {
    ReachableKeepsInv(s);
    var f := PcOf(s, p).file;
    assert IsRecorded(s.disk, p, s.procs[p]);
    RunsKeepInv(s, before, m);
    RunsKeepHasLeft(s, before, m, p, f, false);
    CheckSeesDisplacement(m, p);
    StepKeepsInv(m, Daemon(p, Check), next);
    StepKeepsHasLeft(m, Daemon(p, Check), next, p, f, false);
    RunsKeepHasLeft(next, after, t, p, f, true);
  }

  // ----- how a daemon starts -----

  lemma OneMore(s: State, a: Action, next: State, rest: seq<Action>, t: State)
    requires Next(s, a) == Some(next) && Runs(next, rest, t)
    ensures Runs(s, [a] + rest, t)
  {
    assert ([a] + rest)[1..] == rest;
  }

  lemma {:induction false} RunsConcat(s: State, first: seq<Action>, m: State, second: seq<Action>, t: State)
    requires Runs(s, first, m) && Runs(m, second, t)
    ensures Runs(s, first + second, t)
    decreases |first|
  {
    if first == [] {
      assert first + second == second;
    } else {
      RunsConcat(Next(s, first[0]).value, first[1..], m, second, t);
      assert (first + second)[1..] == first[1..] + second;
    }
  }

  /** The system calls with which a daemon starts. */
  function StartActions(q: Proc, number: nat): seq<Action> {
    [Daemon(q, Open(number))] + LockingActions(q)
  }

  function LockingActions(q: Proc): seq<Action> {
    [Daemon(q, Flock), Daemon(q, WritePid(true)), Daemon(q, StartWatcher)]
  }

  lemma AnOpenFileCanBeLocked(s: State, q: Proc, f: FileId) returns (t: State)
    requires PcOf(s, q) == Opened(f) && f in s.disk.files && f !in s.disk.locks
    ensures Runs(s, LockingActions(q), t)
    ensures PcOf(t, q).Running? && PcOf(t, q).file == f && !PcOf(t, q).isCancelled
    ensures t.disk.path == s.disk.path && t.procs == s.procs[q := PcOf(t, q)] && t.commands == s.commands
    ensures forall g <- s.disk.files :: g in t.disk.files && t.disk.files[g].number == s.disk.files[g].number
  {
    var locked := s.disk.(locks := s.disk.locks[f := q]);
    var written := locked.(files := locked.files[f := locked.files[f].(pid := Some(q))]);
    var s1 := State(locked, s.procs[q := Locked(f)], s.commands);
    var s2 := State(written, s.procs[q := Written(f)], s.commands);
    t := State(written, s.procs[q := Running(f, written.files[f].number, false)], s.commands);
    assert s1.procs[q := Written(f)] == s2.procs && s2.procs[q := t.procs[q]] == t.procs;
    OneMore(s2, Daemon(q, StartWatcher), t, [], t);
    OneMore(s1, Daemon(q, WritePid(true)), s2, LockingActions(q)[2..], t);
    OneMore(s, Daemon(q, Flock), s1, LockingActions(q)[1..], t);
    assert [Daemon(q, Flock)] + LockingActions(q)[1..] == LockingActions(q);
  }

  lemma NoLockOnAFileToCome(s: State)
    requires FileInv(s) && LockInv(s)
    ensures forall f <- s.disk.locks :: f in s.disk.files && f != s.disk.nextFile
  {
    forall f <- s.disk.locks
      ensures f in s.disk.files
    {
      var p := s.disk.locks[f];
      assert OpenFile(s.procs[p]) == Some(f) && InUse(s, f);
    }
  }

  /** Whenever no live lock is at the path, a daemon can start there, and nothing else changes. */
  lemma ADaemonCanStart(s: State, q: Proc, number: nat) returns (t: State)
    requires Inv(s) && PcOf(s, q) == Idle
    requires s.disk.path.None? ==> IsFreeNumber(s, number)
    requires s.disk.path.Some? ==> s.disk.path.value !in s.disk.locks
    ensures Runs(s, StartActions(q, number), t)
    ensures IsRunning(t, q) && !IsDisplaced(t, q) && !PcOf(t, q).isCancelled
    ensures t.commands == s.commands && forall p :: p != q ==> PcOf(t, p) == PcOf(s, p)
    ensures s.disk.path.Some? ==> t.disk.path == s.disk.path
    ensures forall g <- s.disk.files :: g in t.disk.files && t.disk.files[g].number == s.disk.files[g].number
  {
    assert s.disk.path.Some? ==> InUse(s, s.disk.path.value);
    NoLockOnAFileToCome(s);
    var d := if s.disk.path.Some? then s.disk else AfterCreate(s.disk, number);
    var f := d.path.value;
    var m := State(d, s.procs[q := Opened(f)], s.commands);
    t := AnOpenFileCanBeLocked(m, q, f);
    OneMore(s, Daemon(q, Open(number)), m, LockingActions(q), t);
  }
}
