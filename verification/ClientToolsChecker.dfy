/**
The health check of the database client tools. It starts every client once and keeps the verdict per bin
directory; what it keeps is compared with what a checker without memory would find out.
*/
module ClientToolsChecker {
  import opened Options
  import ReleaseLines

  /** `releaseLine` is None for a bundle that is not named after a version. */
  datatype Bundle = Bundle(
    binDir: string, requiredCommands: seq<string>, releaseLine: Option<ReleaseLines.Identity>, isFatal: bool)

  /** What comes of starting a client with --version; a reported version may not consist of numbers. */
  datatype Outcome = CannotRun | Unreadable | Reports(version: Option<ReleaseLines.Identity>)

  datatype Error = FileError(message: string) | RunError(command: string) | VersionError(command: string)
                 | ForeignVersion(command: string)

  /** What a check meets in a bundle's directory: the errors of its files, what each client does when it is
      started, and whether the caller's context ends before the last one has answered. */
  datatype Probe = Probe(fileErrors: seq<Error>, run: string -> Outcome, isCutShort: bool)

  /** A client works if it starts and, where the bundle has a release line, reports a version on it. */
  predicate IsWorking(bundle: Bundle, outcome: Outcome) {
    && !outcome.CannotRun?
    && (bundle.releaseLine.Some? ==>
          outcome.Reports? && outcome.version.Some? && bundle.releaseLine.value <= outcome.version.value)
  }

  method RunClient(bundle: Bundle, command: string, outcome: Outcome) returns (error: Option<Error>)
    ensures error == ErrorOf(bundle, command, outcome)
  {
    if outcome.CannotRun? {
      return Some(RunError(command));
    }
    if bundle.releaseLine.None? {
      return None;
    }
    if outcome.Unreadable? {
      return Some(VersionError(command));
    }
    var isOn := false;
    if outcome.version.Some? {
      isOn := ReleaseLines.IsVersionOnReleaseLine(outcome.version.value, bundle.releaseLine.value);
    }
    return if isOn then None else Some(ForeignVersion(command));
  }

  function ErrorOf(bundle: Bundle, command: string, outcome: Outcome): (error: Option<Error>)
    ensures error.None? <==> IsWorking(bundle, outcome)
  {
    if outcome.CannotRun? then Some(RunError(command))
    else if IsWorking(bundle, outcome) then None
    else if outcome.Unreadable? then Some(VersionError(command))
    else Some(ForeignVersion(command))
  }

  function ErrorsOf(bundle: Bundle, commands: seq<string>, run: string -> Outcome): seq<Error> {
    if commands == [] then []
    else
      var last := commands[|commands| - 1];
      var error := ErrorOf(bundle, last, run(last));
      ErrorsOf(bundle, commands[..|commands| - 1], run) + if error.Some? then [error.value] else []
  }

  /** The verdict of a checker that starts every client. */
  function Verdict(bundle: Bundle, run: string -> Outcome): seq<Error> {
    ErrorsOf(bundle, bundle.requiredCommands, run)
  }

  /** A bundle passes exactly when all its clients work. */
  lemma {:induction false} PassingMeansWorking(bundle: Bundle, commands: seq<string>, run: string -> Outcome)
    ensures ErrorsOf(bundle, commands, run) == [] <==> forall c <- commands :: IsWorking(bundle, run(c))
  {
    if commands != [] {
      var front, last := commands[..|commands| - 1], commands[|commands| - 1];
      PassingMeansWorking(bundle, front, run);
      assert commands == front + [last];
    }
  }

  method RunClients(bundle: Bundle, run: string -> Outcome) returns (errors: seq<Error>)
    ensures errors == Verdict(bundle, run)
  {
    errors := [];
    for i := 0 to |bundle.requiredCommands|
      invariant errors == ErrorsOf(bundle, bundle.requiredCommands[..i], run)
    {
      var commands := bundle.requiredCommands;
      assert commands[..i + 1][..i] == commands[..i];
      var error := RunClient(bundle, commands[i], run(commands[i]));
      if error.Some? {
        errors := errors + [error.value];
      }
    }
    assert bundle.requiredCommands[..|bundle.requiredCommands|] == bundle.requiredCommands;
  }

  // ----- the memory -----

  type Verdicts = map<string, seq<Error>>

  /** A check of one bundle. */
  datatype Visit = Visit(bundle: Bundle, probe: Probe)

  function Answer(verdicts: Verdicts, v: Visit): seq<Error> {
    if v.probe.fileErrors != [] then v.probe.fileErrors
    else if v.bundle.binDir in verdicts then verdicts[v.bundle.binDir]
    else Verdict(v.bundle, v.probe.run)
  }

  function Remember(verdicts: Verdicts, v: Visit): Verdicts {
    if v.probe.fileErrors != [] || v.bundle.binDir in verdicts || v.probe.isCutShort then verdicts
    else verdicts[v.bundle.binDir := Verdict(v.bundle, v.probe.run)]
  }

  function RememberAll(verdicts: Verdicts, visits: seq<Visit>): Verdicts {
    if visits == [] then verdicts else Remember(RememberAll(verdicts, visits[..|visits| - 1]), visits[|visits| - 1])
  }

  function AnswerAll(verdicts: Verdicts, visits: seq<Visit>): (r: seq<seq<Error>>)
    ensures |r| == |visits|
  {
    if visits == [] then []
    else
      var front, last := visits[..|visits| - 1], visits[|visits| - 1];
      AnswerAll(verdicts, front) + [Answer(RememberAll(verdicts, front), last)]
  }

  class Checker {
    const bundles: seq<Bundle>
    var verdicts: Verdicts

    constructor (bundles: seq<Bundle>)
      ensures this.bundles == bundles && verdicts == map[]
    {
      this.bundles, verdicts := bundles, map[];
    }

    method CheckBundle(v: Visit) returns (errors: seq<Error>)
      modifies this
      ensures errors == Answer(old(verdicts), v) && verdicts == Remember(old(verdicts), v)
    {
      if v.probe.fileErrors != [] {
        return v.probe.fileErrors;
      }
      if v.bundle.binDir in verdicts {
        return verdicts[v.bundle.binDir];
      }
      errors := RunClients(v.bundle, v.probe.run);
      if !v.probe.isCutShort {
        verdicts := verdicts[v.bundle.binDir := errors];
      }
    }

    /** One answer for each bundle, in order; an earlier one may already help a later one. */
    method Check(probes: seq<Probe>) returns (results: seq<seq<Error>>)
      requires |probes| == |bundles|
      modifies this
      ensures results == AnswerAll(old(verdicts), VisitsOf(bundles, probes))
      ensures verdicts == RememberAll(old(verdicts), VisitsOf(bundles, probes))
    {
      results := [];
      ghost var visits := VisitsOf(bundles, probes);
      for i := 0 to |bundles|
        invariant results == AnswerAll(old(verdicts), visits[..i])
        invariant verdicts == RememberAll(old(verdicts), visits[..i])
      {
        assert visits[..i + 1][..i] == visits[..i];
        var errors := CheckBundle(Visit(bundles[i], probes[i]));
        results := results + [errors];
      }
      assert visits[..|visits|] == visits;
    }

    /** The health check fails exactly when some fatal bundle has an error. */
    method IsHealthy(probes: seq<Probe>) returns (isHealthy: bool)
      requires |probes| == |bundles|
      modifies this
      ensures verdicts == RememberAll(old(verdicts), VisitsOf(bundles, probes))
      ensures isHealthy <==> HavePassed(bundles, AnswerAll(old(verdicts), VisitsOf(bundles, probes)))
    {
      var results := Check(probes);
      isHealthy := AreFatalOnesPassing(bundles, results);
    }
  }

  /** Joins the failures of the fatal bundles. */
  method AreFatalOnesPassing(bundles: seq<Bundle>, results: seq<seq<Error>>) returns (isHealthy: bool)
    requires |bundles| == |results|
    ensures isHealthy <==> HavePassed(bundles, results)
  {
    var failures: seq<Error> := [];
    for i := 0 to |bundles|
      invariant failures == [] <==> HavePassed(bundles[..i], results)
    {
      if bundles[i].isFatal {
        failures := failures + results[i];
      }
    }
    assert bundles[..|bundles|] == bundles;
    return failures == [];
  }

  predicate HavePassed(bundles: seq<Bundle>, results: seq<seq<Error>>)
    requires |bundles| <= |results|
  {
    forall i :: 0 <= i < |bundles| && bundles[i].isFatal ==> results[i] == []
  }

  function VisitsOf(bundles: seq<Bundle>, probes: seq<Probe>): (r: seq<Visit>)
    requires |probes| == |bundles|
    ensures |r| == |bundles| && forall i :: 0 <= i < |r| ==> r[i] == Visit(bundles[i], probes[i])
  {
    seq(|bundles|, i requires 0 <= i < |bundles| => Visit(bundles[i], probes[i]))
  }

  // ----- what is remembered, and when that is right -----

  /** The visit gets as far as starting the clients undisturbed. */
  predicate IsDecisive(v: Visit, binDir: string) {
    v.bundle.binDir == binDir && v.probe.fileErrors == [] && !v.probe.isCutShort
  }

  predicate IsFirstDecisive(visits: seq<Visit>, binDir: string, i: nat) {
    i < |visits| && IsDecisive(visits[i], binDir) && forall k :: 0 <= k < i ==> !IsDecisive(visits[k], binDir)
  }

  /** What is remembered of a directory is the verdict of the first visit that no file error and no caller
      cut short, for good; nothing is remembered without one. */
  lemma {:induction false} TheFirstVerdictIsKept(visits: seq<Visit>, binDir: string)
    ensures binDir in RememberAll(map[], visits) <==> exists i: nat :: IsFirstDecisive(visits, binDir, i)
    ensures forall i: nat :: IsFirstDecisive(visits, binDir, i) ==>
              binDir in RememberAll(map[], visits) &&
              RememberAll(map[], visits)[binDir] == Verdict(visits[i].bundle, visits[i].probe.run)
  {
    if visits != [] {
      var front, last := visits[..|visits| - 1], visits[|visits| - 1];
      TheFirstVerdictIsKept(front, binDir);
      assert visits == front + [last];
      forall i: nat
        ensures IsFirstDecisive(visits, binDir, i) <==> IsFirstInOneMore(front, last, binDir, i)
      {
        FirstInOneMore(front, last, binDir, i);
      }
      if binDir in RememberAll(map[], front) {
        var i: nat :| IsFirstDecisive(front, binDir, i);
        assert IsFirstInOneMore(front, last, binDir, i);
      } else if IsDecisive(last, binDir) {
        assert IsFirstInOneMore(front, last, binDir, |front|);
      }
    }
  }

  ghost predicate IsFirstInOneMore(visits: seq<Visit>, last: Visit, binDir: string, i: nat) {
    || IsFirstDecisive(visits, binDir, i)
    || (i == |visits| && IsDecisive(last, binDir) && forall k: nat :: !IsFirstDecisive(visits, binDir, k))
  }

  lemma FirstInOneMore(visits: seq<Visit>, last: Visit, binDir: string, i: nat)
    ensures IsFirstDecisive(visits + [last], binDir, i) <==> IsFirstInOneMore(visits, last, binDir, i)
  {
    assert forall k :: 0 <= k < |visits| ==> (visits + [last])[k] == visits[k];
    if forall k: nat :: !IsFirstDecisive(visits, binDir, k) {
      NoneBefore(visits, binDir);
    }
  }

  lemma {:induction false} NoneBefore(visits: seq<Visit>, binDir: string)
    requires forall i: nat :: !IsFirstDecisive(visits, binDir, i)
    ensures forall k :: 0 <= k < |visits| ==> !IsDecisive(visits[k], binDir)
  {
    for n := 0 to |visits|
      invariant forall k :: 0 <= k < n ==> !IsDecisive(visits[k], binDir)
    {
      assert !IsFirstDecisive(visits, binDir, n);
    }
  }

  /** Two undisturbed visits to one directory that would come to different verdicts: the clients were
      replaced in between, or two bundles share the directory. */
  ghost predicate Disagree(visits: seq<Visit>, i: nat, k: nat) {
    && i < |visits| && k < |visits| && IsDecisive(visits[i], visits[k].bundle.binDir)
    && IsDecisive(visits[k], visits[k].bundle.binDir)
    && Verdict(visits[i].bundle, visits[i].probe.run) != Verdict(visits[k].bundle, visits[k].probe.run)
  }

  /** The k-th visit gets the answer that a checker without memory would give. */
  ghost predicate IsAnsweredAfresh(visits: seq<Visit>, k: nat)
    requires k < |visits|
  {
    Answer(RememberAll(map[], visits[..k]), visits[k]) == Answer(map[], visits[k])
  }

  lemma AnUndisturbedVisitIsAnsweredFromTheFirst(visits: seq<Visit>, k: nat) returns (i: nat)
    requires k < |visits| && IsDecisive(visits[k], visits[k].bundle.binDir)
    ensures i <= k && IsFirstDecisive(visits, visits[k].bundle.binDir, i)
    ensures Answer(RememberAll(map[], visits[..k]), visits[k]) == Verdict(visits[i].bundle, visits[i].probe.run)
  {
    var binDir := visits[k].bundle.binDir;
    TheFirstVerdictIsKept(visits[..k], binDir);
    if binDir in RememberAll(map[], visits[..k]) {
      i :| IsFirstDecisive(visits[..k], binDir, i);
    } else {
      i := k;
      NoneBefore(visits[..k], binDir);
    }
  }

  /** The memory shows in no undisturbed visit exactly when no two such visits to a directory disagree. */
  lemma MemoryIsHarmlessIffNoneDisagree(visits: seq<Visit>)
    ensures (forall k :: 0 <= k < |visits| && IsDecisive(visits[k], visits[k].bundle.binDir) ==>
                           IsAnsweredAfresh(visits, k))
            <==> forall i: nat, k: nat :: !Disagree(visits, i, k)
  {
    if forall i: nat, k: nat :: !Disagree(visits, i, k) {
      forall k | 0 <= k < |visits| && IsDecisive(visits[k], visits[k].bundle.binDir)
        ensures IsAnsweredAfresh(visits, k)
      {
        var i := AnUndisturbedVisitIsAnsweredFromTheFirst(visits, k);
        assert !Disagree(visits, i, k);
      }
    } else {
      var i: nat, k: nat :| Disagree(visits, i, k);
      var first := AnUndisturbedVisitIsAnsweredFromTheFirst(visits, i);
      var other := AnUndisturbedVisitIsAnsweredFromTheFirst(visits, k);
      assert first == other;
      assert !IsAnsweredAfresh(visits, i) || !IsAnsweredAfresh(visits, k);
    }
  }

  /** Each directory belongs to one bundle, and an undisturbed client always answers alike. */
  ghost predicate IsStable(visits: seq<Visit>) {
    forall i, k ::
      0 <= i < |visits| && 0 <= k < |visits| && visits[i].bundle.binDir == visits[k].bundle.binDir
      && IsDecisive(visits[i], visits[i].bundle.binDir) && IsDecisive(visits[k], visits[k].bundle.binDir) ==>
        && visits[i].bundle == visits[k].bundle
        && forall c <- visits[i].bundle.requiredCommands :: visits[i].probe.run(c) == visits[k].probe.run(c)
  }

  lemma {:induction false} EqualOutcomesGiveEqualErrors(bundle: Bundle, commands: seq<string>, run: string -> Outcome,
                                                        other: string -> Outcome)
    requires forall c <- commands :: run(c) == other(c)
    ensures ErrorsOf(bundle, commands, run) == ErrorsOf(bundle, commands, other)
  {
    if commands != [] {
      var front := commands[..|commands| - 1];
      assert forall c <- front :: c in commands;
      EqualOutcomesGiveEqualErrors(bundle, front, run, other);
    }
  }

  /** Then the memory never shows: the checker answers like one that starts every client every time. */
  lemma MemoryIsHarmlessWhileClientsAreStable(visits: seq<Visit>)
    requires IsStable(visits)
    ensures forall k :: 0 <= k < |visits| && IsDecisive(visits[k], visits[k].bundle.binDir) ==>
                          IsAnsweredAfresh(visits, k)
  {
    forall i: nat, k: nat
      ensures !Disagree(visits, i, k)
    {
      if i < |visits| && k < |visits| && IsDecisive(visits[i], visits[k].bundle.binDir)
         && IsDecisive(visits[k], visits[k].bundle.binDir) {
        EqualOutcomesGiveEqualErrors(
          visits[i].bundle, visits[i].bundle.requiredCommands, visits[i].probe.run, visits[k].probe.run);
      }
    }
    MemoryIsHarmlessIffNoneDisagree(visits);
  }

  /** And it does show: a client that could not run at first and has been repaired since still fails. */
  lemma ARepairedClientStillFails(bundle: Bundle, run: string -> Outcome, repaired: string -> Outcome)
    requires !(forall c <- bundle.requiredCommands :: IsWorking(bundle, run(c)))
    requires forall c <- bundle.requiredCommands :: IsWorking(bundle, repaired(c))
    ensures var visits := [Visit(bundle, Probe([], run, false)), Visit(bundle, Probe([], repaired, false))];
            && Disagree(visits, 0, 1) && !IsAnsweredAfresh(visits, 1)
            && Answer(RememberAll(map[], visits[..1]), visits[1]) != []
            && Verdict(bundle, repaired) == []
  {
    PassingMeansWorking(bundle, bundle.requiredCommands, run);
    PassingMeansWorking(bundle, bundle.requiredCommands, repaired);
    var visits := [Visit(bundle, Probe([], run, false)), Visit(bundle, Probe([], repaired, false))];
    assert visits[..1][..0] == [] && visits[..1] == [visits[0]];
    assert RememberAll(map[], visits[..1]) == Remember(map[], visits[0]);
  }
}
