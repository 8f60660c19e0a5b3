/**
Where the single-instance lock stops being one. The daemon's start-up relies on the lock for a single
agent, and `stop` and `status` rely on a dead PID for a stale file; both hold exactly as long as nobody
takes the lock file away from a daemon that has it open. A daemon that releases the lock may do that, too.
*/
module LockRaces {
  import opened Options
  import opened InstanceLock

  /** The four steps after which the path no longer leads to the file it led to. */
  predicate IsRemoval(a: Action) {
    a.ExternalRemove? || a.ExternalReplace? || a.RemoveStale? || (a.Daemon? && a.call.RemovePath?)
  }

  /** The daemon has the file at the path open, to lock it or because it has. */
  predicate HasPathOpen(s: State, q: Proc) {
    var pc := PcOf(s, q);
    (pc.Opened? || HoldsLock(pc)) && s.disk.path == Some(pc.file)
  }

  /** The step takes the file at the path away from a daemon that has it open. */
  ghost predicate PullsAway(s: State, a: Action) {
    IsRemoval(a) && exists q :: HasPathOpen(s, q)
  }

  /** A run in which no step does. */
  ghost predicate QuietRuns(s: State, actions: seq<Action>, t: State)
    decreases |actions|
  {
    if actions == [] then s == t
    else
      var next := Next(s, actions[0]);
      next.Some? && !PullsAway(s, actions[0]) && QuietRuns(next.value, actions[1..], t)
  }

  ghost predicate IsQuietlyReachable(s: State) {
    exists actions :: QuietRuns(Init(), actions, s)
  }

  ghost predicate TwoRun(s: State) {
    exists p, q :: p != q && IsRunning(s, p) && IsRunning(s, q)
  }

  /** Two daemons can get to run without anybody taking a file away from now on. */
  ghost predicate CanRunTwo(s: State) {
    exists actions, t :: QuietRuns(s, actions, t) && TwoRun(t)
  }

  // ----- without such a step there is one agent -----

  ghost predicate AllAreAtThePath(s: State) {
    forall q :: PcOf(s, q).Opened? || HoldsLock(PcOf(s, q)) ==> HasPathOpen(s, q)
  }

  lemma AQuietStepLeavesAllAtThePath(s: State, a: Action, t: State)
    requires AllAreAtThePath(s) && Next(s, a) == Some(t) && !PullsAway(s, a)
    ensures AllAreAtThePath(t)
  {
    forall q | PcOf(t, q).Opened? || HoldsLock(PcOf(t, q))
      ensures HasPathOpen(t, q)
    {
      if a.Daemon? {
        var m := DaemonMove(PcOf(s, a.p), s.disk, a.call).value;
        DaemonMoveIsShapely(PcOf(s, a.p), s.disk, a.call, m);
        if q != a.p {
          assert PcOf(t, q) == PcOf(s, q) && HasPathOpen(s, q);
        }
      } else {
        assert PcOf(t, q) == PcOf(s, q) && HasPathOpen(s, q);
      }
    }
  }

  lemma {:induction false} QuietRunsLeaveAllAtThePath(s: State, actions: seq<Action>, t: State)
    requires Inv(s) && AllAreAtThePath(s) && QuietRuns(s, actions, t)
    ensures Inv(t) && AllAreAtThePath(t) && Runs(s, actions, t)
    decreases |actions|
  {
    if actions != [] {
      var next := Next(s, actions[0]).value;
      StepKeepsInv(s, actions[0], next);
      AQuietStepLeavesAllAtThePath(s, actions[0], next);
      QuietRunsLeaveAllAtThePath(next, actions[1..], t);
    }
  }

  lemma OneHolderPerFile(s: State, p: Proc, q: Proc)
    requires LockInv(s) && HoldsLock(PcOf(s, p)) && HoldsLock(PcOf(s, q)) && PcOf(s, p).file == PcOf(s, q).file
    ensures p == q
  {
  }

  lemma OneRunsAtThePath(s: State)
    requires LockInv(s) && AllAreAtThePath(s)
    ensures !TwoRun(s)
  {
    forall p, q | IsRunning(s, p) && IsRunning(s, q)
      ensures p == q
    {
      assert HasPathOpen(s, p) && HasPathOpen(s, q);
      OneHolderPerFile(s, p, q);
    }
  }

  /** As long as nobody takes the lock file away from a daemon that has it open, at most one daemon runs, and
      the file it has locked is the one at the path. */
  lemma QuietRunsKeepOneAgent(s: State)
    requires IsQuietlyReachable(s)
    ensures Reachable(s) && !TwoRun(s) && forall p :: IsRunning(s, p) ==> !IsDisplaced(s, p)
  {
    var actions :| QuietRuns(Init(), actions, s);
    QuietRunsLeaveAllAtThePath(Init(), actions, s);
    OneRunsAtThePath(s);
    forall p | IsRunning(s, p)
      ensures !IsDisplaced(s, p)
    {
      assert HasPathOpen(s, p);
    }
  }

  // ----- with one there can be two -----

  /** System calls of daemons none of which removes the path. */
  predicate AreCalls(actions: seq<Action>) {
    forall a <- actions :: a.Daemon? && !IsRemoval(a)
  }

  lemma {:induction false} RunsWithoutRemovalsAreQuiet(s: State, actions: seq<Action>, t: State)
    requires Runs(s, actions, t) && AreCalls(actions)
    ensures QuietRuns(s, actions, t)
    decreases |actions|
  {
    if actions != [] {
      assert !IsRemoval(actions[0]);
      RunsWithoutRemovalsAreQuiet(Next(s, actions[0]).value, actions[1..], t);
    }
  }

  lemma SomeNatIsMissing(s: set<nat>) returns (n: nat)
    ensures n !in s
  {
    n := ABound(s);
    assert n in s ==> n < n;
  }

  lemma {:induction false} ABound(s: set<nat>) returns (n: nat)
    ensures forall m <- s :: m < n
  {
    if s == {} {
      n := 0;
    } else {
      var m :| m in s;
      var rest := ABound(s - {m});
      n := if m < rest then rest else m + 1;
      assert forall k <- s :: k == m || k in s - {m};
    }
  }

  /** Nobody but q can stop q on its way to run on the file. */
  function RemainingActions(pc: Pc, q: Proc): seq<Action> {
    if pc.Opened? then LockingActions(q)
    else if pc.Locked? then LockingActions(q)[1..]
    else if pc.Written? then LockingActions(q)[2..]
    else []
  }

  lemma ALockedFileCanBeRunOn(s: State, q: Proc, f: FileId) returns (t: State)
    requires RecordInv(s) && f in s.disk.files && (PcOf(s, q) == Locked(f) || PcOf(s, q) == Written(f))
    ensures Runs(s, RemainingActions(PcOf(s, q), q), t)
    ensures PcOf(t, q).Running? && PcOf(t, q).file == f && !PcOf(t, q).isCancelled
    ensures t.disk.path == s.disk.path && t.disk.locks == s.disk.locks && t.procs == s.procs[q := PcOf(t, q)]
  {
    var written := s.disk.(files := s.disk.files[f := s.disk.files[f].(pid := Some(q))]);
    t := State(written, s.procs[q := Running(f, written.files[f].number, false)], s.commands);
    if PcOf(s, q) == Locked(f) {
      var m := State(written, s.procs[q := Written(f)], s.commands);
      assert m.procs[q := t.procs[q]] == t.procs;
      OneMore(m, Daemon(q, StartWatcher), t, [], t);
      OneMore(s, Daemon(q, WritePid(true)), m, LockingActions(q)[2..], t);
      assert [Daemon(q, WritePid(true))] + LockingActions(q)[2..] == LockingActions(q)[1..];
    } else {
      assert IsRecorded(s.disk, q, s.procs[q]);
      assert written == s.disk;
      OneMore(s, Daemon(q, StartWatcher), t, [], t);
      assert [Daemon(q, StartWatcher)] + [] == LockingActions(q)[2..];
    }
  }

  /** A daemon that has a file open that nobody else has locked gets to run on it, wherever the path leads. */
  lemma AnOpenerCanRun(s: State, q: Proc, f: FileId) returns (t: State)
    requires Inv(s) && (PcOf(s, q) == Opened(f) || (HoldsLock(PcOf(s, q)) && PcOf(s, q).file == f))
    requires PcOf(s, q).Opened? ==> f !in s.disk.locks
    ensures Runs(s, RemainingActions(PcOf(s, q), q), t)
    ensures IsRunning(t, q) && PcOf(t, q).file == f && t.disk.path == s.disk.path
    ensures PcOf(t, q).isCancelled ==> PcOf(t, q) == PcOf(s, q)
    ensures forall p :: p != q ==> PcOf(t, p) == PcOf(s, p)
  {
    assert OpenFile(s.procs[q]) == Some(f) && InUse(s, f);
    if PcOf(s, q).Opened? {
      t := AnOpenFileCanBeLocked(s, q, f);
    } else if PcOf(s, q).Running? {
      t := s;
    } else {
      t := ALockedFileCanBeRunOn(s, q, f);
    }
  }

  // The daemon that will run on the file, once it is no longer at the path.
  lemma SomebodyCanRunOnIt(s: State, q: Proc) returns (p: Proc)
    requires Inv(s) && HasPathOpen(s, q)
    ensures HasPathOpen(s, p) && PcOf(s, p).file == PcOf(s, q).file
    ensures PcOf(s, p).Opened? ==> PcOf(s, p).file !in s.disk.locks
  {
    var f := PcOf(s, q).file;
    p := if f in s.disk.locks then s.disk.locks[f] else q;
  }

  lemma ARemovalOnlyMovesThePath(s: State, a: Action, t: State, q: Proc)
    requires Inv(s) && IsRemoval(a) && HasPathOpen(s, q) && Next(s, a) == Some(t)
    ensures PcOf(t, q) == PcOf(s, q) && t.disk.locks == s.disk.locks
    ensures t.disk.path == None || (t.disk.path == Some(s.disk.nextFile) && s.disk.nextFile !in t.disk.locks)
    ensures t.disk.path != s.disk.path
  {
    NoLockOnAFileToCome(s);
    assert OpenFile(s.procs[q]) == s.disk.path && InUse(s, PcOf(s, q).file);
  }

  lemma ANumberThatIsFree(s: State) returns (number: nat)
    ensures IsFreeNumber(s, number)
  {
    var numbers := set f <- s.disk.files :: s.disk.files[f].number;
    number := SomeNatIsMissing(numbers);
    assert forall f <- s.disk.files :: s.disk.files[f].number in numbers;
  }

  lemma ALockElsewhereWasThere(t: State, m: State, p: Proc, f: FileId)
    requires LockInv(t) && LockInv(m) && f in m.disk.locks
    requires IsRunning(m, p) && PcOf(m, p).file != f && forall q :: q != p ==> PcOf(m, q) == PcOf(t, q)
    ensures f in t.disk.locks
  {
    var holder := m.disk.locks[f];
    assert HoldsLock(m.procs[holder]) && m.procs[holder].file == f;
    assert PcOf(t, holder) == PcOf(m, holder);
  }

  lemma StartingIsCalls(pc: Pc, q: Proc, number: nat)
    ensures AreCalls(RemainingActions(pc, q)) && AreCalls(StartActions(q, number))
  {
  }

  /** The daemon whose file has been removed, or the one that has locked that file, gets to run on it. */
  lemma APulledAwayFileIsRunOn(s: State, a: Action, t: State) returns (actions: seq<Action>, m: State, p: Proc)
    requires Inv(s) && Inv(t) && PullsAway(s, a) && Next(s, a) == Some(t)
    ensures Runs(t, actions, m) && AreCalls(actions)
    ensures IsRunning(m, p) && HasPathOpen(s, p) && PcOf(m, p).file == PcOf(s, p).file
    ensures PcOf(m, p).isCancelled ==> PcOf(m, p) == PcOf(s, p)
    ensures m.disk.path != s.disk.path && (m.disk.path.Some? ==> m.disk.path.value !in m.disk.locks)
  {
    var q :| HasPathOpen(s, q);
    p := SomebodyCanRunOnIt(s, q);
    ARemovalOnlyMovesThePath(s, a, t, p);
    actions := RemainingActions(PcOf(t, p), p);
    StartingIsCalls(PcOf(t, p), p, 0);
    m := AnOpenerCanRun(t, p, PcOf(s, p).file);
    RunsKeepInv(t, actions, m);
    if m.disk.path.Some? && m.disk.path.value in m.disk.locks {
      ALockElsewhereWasThere(t, m, p, m.disk.path.value);
    }
  }

  /** Somebody new can start wherever no lock is at the path. */
  lemma ANewDaemonCanStart(m: State) returns (actions: seq<Action>, u: State, n: Proc)
    requires Inv(m) && (m.disk.path.Some? ==> m.disk.path.value !in m.disk.locks)
    ensures Runs(m, actions, u) && AreCalls(actions) && Inv(u)
    ensures PcOf(m, n) == Idle && IsRunning(u, n) && !IsDisplaced(u, n) && !PcOf(u, n).isCancelled
    ensures forall p :: p != n ==> PcOf(u, p) == PcOf(m, p)
  {
    n := SomeNatIsMissing(m.procs.Keys);
    var number := ANumberThatIsFree(m);
    actions := StartActions(n, number);
    StartingIsCalls(Idle, n, number);
    u := ADaemonCanStart(m, n, number);
    RunsKeepInv(m, actions, u);
  }

  /** From every reachable state in which a removal, by whomever, takes the file away from a daemon that has
      it open, system calls of daemons alone lead to two running daemons, the new one uncancelled. */
  lemma ARemovalLetsTwoRun(s: State, a: Action, t: State) returns (actions: seq<Action>, u: State, p: Proc, n: Proc)
    requires Reachable(s) && PullsAway(s, a) && Next(s, a) == Some(t)
    ensures Runs(t, actions, u) && AreCalls(actions)
    ensures p != n && IsRunning(u, p) && IsRunning(u, n)
    ensures HasPathOpen(s, p) && IsDisplaced(u, p) && !IsDisplaced(u, n) && !PcOf(u, n).isCancelled
    ensures PcOf(u, p).isCancelled ==> PcOf(u, p) == PcOf(s, p)
  {
    ReachableKeepsInv(s);
    StepKeepsInv(s, a, t);
    var first, m, second;
    first, m, p := APulledAwayFileIsRunOn(s, a, t);
    RunsKeepInv(t, first, m);
    second, u, n := ANewDaemonCanStart(m);
    actions := first + second;
    RunsConcat(t, first, m, second, u);
    LocksAreExclusive(u, p, n);
  }

  /** The exact condition: as long as nobody has taken a file away, the next step opens the way to two
      running daemons if and only if it takes the file at the path away from a daemon that has it open. */
  lemma TheLockBreaksExactlyWhenAFileIsPulledAway(s: State, a: Action, t: State)
    requires IsQuietlyReachable(s) && Next(s, a) == Some(t)
    ensures CanRunTwo(t) <==> PullsAway(s, a)
  {
    QuietRunsKeepOneAgent(s);
    if PullsAway(s, a) {
      var actions, u, p, n := ARemovalLetsTwoRun(s, a, t);
      RunsWithoutRemovalsAreQuiet(t, actions, u);
      assert TwoRun(u);
    } else {
      var before :| QuietRuns(Init(), before, s);
      QuietRunsLeaveAllAtThePath(Init(), before, s);
      AQuietStepLeavesAllAtThePath(s, a, t);
      StepKeepsInv(s, a, t);
      forall actions, u | QuietRuns(t, actions, u)
        ensures !TwoRun(u)
      {
        QuietRunsLeaveAllAtThePath(t, actions, u);
        OneRunsAtThePath(u);
      }
    }
  }

  // ----- the removals of stop and status, and that of a release -----

  /** A stale removal never hits the daemon it was judged by; one that it hits has already written its own
      PID over the judged one, or is still on its way to do so. */
  lemma AStaleRemovalHitsOnlyOthers(s: State, c: nat, q: Proc)
    requires Reachable(s) && CommandOf(s, c).RemovingStale? && HasPathOpen(s, q)
    ensures q != CommandOf(s, c).pid
    ensures PcOf(s, q).file in s.disk.files
    ensures s.disk.files[PcOf(s, q).file].pid == Some(q) || PcOf(s, q).Opened? || PcOf(s, q).Locked?
  {
    ReachableKeepsInv(s);
    assert OpenFile(s.procs[q]) == s.disk.path && InUse(s, PcOf(s, q).file);
    assert IsRecorded(s.disk, q, s.procs[q]);
  }

  /** `stop` and `status` may remove the file they judged stale exactly when nobody has opened it since. */
  lemma AStaleRemovalIsHarmlessIffNobodyHasOpened(s: State, c: nat, t: State)
    requires IsQuietlyReachable(s) && Next(s, RemoveStale(c)) == Some(t)
    ensures CanRunTwo(t) <==> exists q :: HasPathOpen(s, q)
    ensures forall q :: IsRunning(s, q) && HasPathOpen(s, q) ==> IsRunning(t, q) && IsDisplaced(t, q)
  {
    TheLockBreaksExactlyWhenAFileIsPulledAway(s, RemoveStale(c), t);
  }

  /** Such an opener exists in every reachable state in which the judged file is not locked: a daemon starts
      between the judgement and the removal, and its next check takes the missing file for a reason to stop. */
  lemma AStaleRemovalStopsANewDaemon(s: State, c: nat, q: Proc, number: nat) returns (t: State)
    requires Reachable(s) && CommandOf(s, c).RemovingStale? && PcOf(s, q) == Idle
    requires s.disk.path.Some? && s.disk.path.value !in s.disk.locks
    ensures Runs(s, StartActions(q, number) + [RemoveStale(c), Daemon(q, Check)], t)
    ensures IsRunning(t, q) && PcOf(t, q).isCancelled
  {
    ReachableKeepsInv(s);
    var m := ADaemonCanStart(s, q, number);
    var removed := m.(disk := m.disk.(path := None), commands := m.commands[c := Finished]);
    var pc := PcOf(m, q);
    t := removed.(procs := removed.procs[q := pc.(isCancelled := true)]);
    OneMore(removed, Daemon(q, Check), t, [], t);
    OneMore(m, RemoveStale(c), removed, [Daemon(q, Check)], t);
    assert [RemoveStale(c)] + [Daemon(q, Check)] == [RemoveStale(c), Daemon(q, Check)];
    RunsConcat(s, StartActions(q, number), m, [RemoveStale(c), Daemon(q, Check)], t);
  }

  /** The system calls of ReleaseLock around the start of a successor: the lock is free before the path is
      compared and unlinked. */
  function ReleaseActions(p: Proc, q: Proc): seq<Action> {
    [Daemon(p, Unlock)] + (StartActions(q, 0) + UnlinkActions(p))
  }

  function UnlinkActions(p: Proc): seq<Action> {
    [Daemon(p, Close(true)), Daemon(p, Compare(false)), Daemon(p, RemovePath(false))]
  }

  lemma AReleaseUnlinksWhatIsThere(s: State, p: Proc, recorded: nat) returns (m: State, t: State)
    requires PcOf(s, p).Unlocked? && PcOf(s, p).recorded == recorded && IsPathNumber(s.disk, recorded)
    ensures m == s.(procs := s.procs[p := RemovingPath]) && Runs(s, UnlinkActions(p)[..2], m)
    ensures t == s.(disk := s.disk.(path := None), procs := s.procs[p := Exited]) && Runs(s, UnlinkActions(p), t)
  {
    var closed := s.(procs := s.procs[p := Closed(recorded)]);
    m := s.(procs := s.procs[p := RemovingPath]);
    t := s.(disk := s.disk.(path := None), procs := s.procs[p := Exited]);
    assert closed.procs[p := RemovingPath] == m.procs && m.procs[p := Exited] == t.procs;
    OneMore(m, Daemon(p, RemovePath(false)), t, [], t);
    OneMore(closed, Daemon(p, Compare(false)), m, UnlinkActions(p)[2..], t);
    OneMore(s, Daemon(p, Close(true)), closed, UnlinkActions(p)[1..], t);
    OneMore(closed, Daemon(p, Compare(false)), m, [], m);
    OneMore(s, Daemon(p, Close(true)), closed, [Daemon(p, Compare(false))], m);
    assert [Daemon(p, Close(true))] + UnlinkActions(p)[1..] == UnlinkActions(p);
    assert [Daemon(p, Close(true))] + [Daemon(p, Compare(false))] == UnlinkActions(p)[..2];
  }

  lemma AnUnlockFreesTheFile(s: State, p: Proc) returns (t: State)
    requires Inv(s) && IsRunning(s, p) && !IsDisplaced(s, p)
    ensures Next(s, Daemon(p, Unlock)) == Some(t) && Inv(t)
    ensures PcOf(t, p) == Unlocked(PcOf(s, p).file, PcOf(s, p).recorded)
    ensures t.disk.path == s.disk.path == Some(PcOf(s, p).file) && PcOf(s, p).file !in t.disk.locks
    ensures IsPathNumber(t.disk, PcOf(s, p).recorded)
    ensures forall q :: q != p ==> PcOf(t, q) == PcOf(s, q)
  {
    var pc := PcOf(s, p);
    t := State(DiskAfter(s.disk, p, DropLock(pc.file)), s.procs[p := Unlocked(pc.file, pc.recorded)], s.commands);
    StepKeepsInv(s, Daemon(p, Unlock), t);
    CheckSeesDisplacement(s, p);
  }

  /** A successor that starts between the unlock and the unlink of a release runs on, displaced: the release
      finds its own inode at the path and removes it, with neither an outsider nor `stop` involved. */
  lemma AReleaseUnlinksItsSuccessor(s: State, p: Proc, q: Proc) returns (t: State)
    requires Reachable(s) && p != q && IsRunning(s, p) && !IsDisplaced(s, p) && PcOf(s, q) == Idle
    ensures Runs(s, ReleaseActions(p, q), t)
    ensures PcOf(t, p) == Exited && IsRunning(t, q) && IsDisplaced(t, q) && !PcOf(t, q).isCancelled
    ensures t.disk.path == None && forall r :: r != p && r != q ==> PcOf(t, r) == PcOf(s, r)
  {
    ReachableKeepsInv(s);
    var unlocked := AnUnlockFreesTheFile(s, p);
    var started := ADaemonCanStart(unlocked, q, 0);
    RunsKeepInv(unlocked, StartActions(q, 0), started);
    var m;
    m, t := AReleaseUnlinksWhatIsThere(started, p, PcOf(s, p).recorded);
    RunsConcat(unlocked, StartActions(q, 0), started, UnlinkActions(p), t);
    OneMore(s, Daemon(p, Unlock), unlocked, StartActions(q, 0) + UnlinkActions(p), t);
  }

  predicate AreDaemons(actions: seq<Action>) {
    forall a <- actions :: a.Daemon?
  }

  lemma ReleasingIsDaemons(p: Proc, q: Proc, last: seq<Action>)
    requires AreCalls(last)
    ensures AreDaemons(ReleaseActions(p, q) + last)
  {
    StartingIsCalls(Idle, q, 0);
    assert AreDaemons(StartActions(q, 0)) && AreDaemons(UnlinkActions(p)) && AreDaemons(last);
  }

  /** From every reachable state with a running daemon: a second one starts while the first releases its lock,
      and a third one finds no file at the path. Two agents run, and nobody but daemons has done anything. */
  lemma AReleaseLetsTwoRun(s: State, p: Proc, q: Proc) returns (actions: seq<Action>, t: State, r: Proc)
    requires Reachable(s) && p != q && IsRunning(s, p) && !IsDisplaced(s, p) && PcOf(s, q) == Idle
    ensures Runs(s, actions, t) && AreDaemons(actions)
    ensures q != r && IsRunning(t, q) && IsRunning(t, r) && !PcOf(t, q).isCancelled && !PcOf(t, r).isCancelled
  {
    var released := AReleaseUnlinksItsSuccessor(s, p, q);
    assert Inv(released) by {
      ReachableKeepsInv(s);
      RunsKeepInv(s, ReleaseActions(p, q), released);
    }
    var last;
    last, t, r := ANewDaemonCanStart(released);
    actions := ReleaseActions(p, q) + last;
    RunsConcat(s, ReleaseActions(p, q), released, last, t);
    ReleasingIsDaemons(p, q, last);
  }

  lemma TheFirstDaemonRuns() returns (s: State)
    ensures Reachable(s) && Inv(s) && IsRunning(s, 0) && !IsDisplaced(s, 0)
    ensures s.commands == map[] && forall p :: p != 0 ==> PcOf(s, p) == Idle
  {
    s := ADaemonCanStart(Init(), 0, 0);
    ReachableKeepsInv(s);
  }

  lemma ReachableGoesOn(s: State, actions: seq<Action>, t: State)
    requires Reachable(s) && Runs(s, actions, t)
    ensures Reachable(t)
  {
    var before :| Runs(Init(), before, s);
    RunsConcat(Init(), before, s, actions, t);
  }

  /** So two agents do run in some reachable state, by daemons alone. */
  lemma TwoRunAfterARelease() returns (s: State, actions: seq<Action>, t: State)
    ensures Reachable(s) && Runs(s, actions, t) && AreDaemons(actions) && Reachable(t) && TwoRun(t)
  {
    s := TheFirstDaemonRuns();
    var r;
    actions, t, r := AReleaseLetsTwoRun(s, 0, 1);
    ReachableGoesOn(s, actions, t);
  }

  lemma ADeadHolderLeavesAStaleFile(s: State, p: Proc, c: nat) returns (t: State)
    requires Inv(s) && IsRunning(s, p) && !IsDisplaced(s, p) && CommandOf(s, c) == Ready
    ensures Runs(s, [Daemon(p, Crash), ReadPid(c), Judge(c)], t)
    ensures CommandOf(t, c) == RemovingStale(p) && forall q :: q != p ==> PcOf(t, q) == PcOf(s, q)
    ensures t.disk.path.Some? && t.disk.path.value !in t.disk.locks
  {
    var f := PcOf(s, p).file;
    var crashed := State(DiskAfter(s.disk, p, DropLock(f)), s.procs[p := Exited], s.commands);
    var read := crashed.(commands := crashed.commands[c := Judging(p)]);
    t := crashed.(commands := crashed.commands[c := RemovingStale(p)]);
    assert read.commands[c := RemovingStale(p)] == t.commands;
    assert IsRecorded(s.disk, p, s.procs[p]);
    var found := [Daemon(p, Crash), ReadPid(c), Judge(c)];
    OneMore(read, Judge(c), t, [], t);
    OneMore(crashed, ReadPid(c), read, found[2..], t);
    OneMore(s, Daemon(p, Crash), crashed, found[1..], t);
    assert [Daemon(p, Crash)] + found[1..] == found;
  }

  /** A stale file does get found, and a daemon that starts then does get stopped. */
  lemma ANewDaemonIsStopped() returns (s: State, t: State)
    ensures Reachable(s) && CommandOf(s, 0) == RemovingStale(0)
    ensures Runs(s, StartActions(1, 0) + [RemoveStale(0), Daemon(1, Check)], t)
    ensures IsRunning(t, 1) && PcOf(t, 1).isCancelled
  {
    var running := TheFirstDaemonRuns();
    s := ADeadHolderLeavesAStaleFile(running, 0, 0);
    ReachableGoesOn(running, [Daemon(0, Crash), ReadPid(0), Judge(0)], s);
    t := AStaleRemovalStopsANewDaemon(s, 0, 1, 0);
  }
}
