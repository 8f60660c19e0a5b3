/**
Version identities: the numbers of a release line, such as 10.6, which stand for every release of it. And
the MariaDB servers and client tools that are chosen by them.
*/
module ReleaseLines {
  import opened Options

  type Identity = seq<nat>

  /** Missing components count as zero. */
  function Component(v: Identity, i: nat): nat {
    if i < |v| then v[i] else 0
  }

  /** Orders two identities by their first different component. */
  method CompareReleaseLines(left: Identity, right: Identity) returns (order: int)
    ensures order == Compare(left, right)
  {
    var i := 0;
    while i < |left| || i < |right|
      invariant AgreeUpTo(left, right, i)
      decreases |left| + |right| - i
    {
      var leftNumber: int, rightNumber: int := 0, 0;
      if i < |left| {
        leftNumber := left[i];
      }
      if i < |right| {
        rightNumber := right[i];
      }
      if leftNumber != rightNumber {
        DifferenceDecides(left, right, i);
        return leftNumber - rightNumber;
      }
      i := i + 1;
    }
    AgreementIsEquality(left, right, i);
    return 0;
  }

  predicate AgreeUpTo(a: Identity, b: Identity, n: nat) {
    forall i :: 0 <= i < n ==> Component(a, i) == Component(b, i)
  }

  /** a comes before b: at some component it is smaller, and equal before. */
  ghost predicate IsBefore(a: Identity, b: Identity) {
    exists k: nat :: Component(a, k) < Component(b, k) && AgreeUpTo(a, b, k)
  }

  /** The order as a function: strip equal heads until they differ. */
  function Compare(a: Identity, b: Identity): int
    decreases |a| + |b|
  {
    if a == [] && b == [] then 0
    else if Component(a, 0) != Component(b, 0) then Component(a, 0) - Component(b, 0)
    else Compare(if a == [] then a else a[1..], if b == [] then b else b[1..])
  }

  function Tail(a: Identity): Identity {
    if a == [] then a else a[1..]
  }

  lemma TailShifts(a: Identity)
    ensures forall i: nat :: Component(Tail(a), i) == Component(a, i + 1)
  {
  }

  lemma {:induction false} DifferenceDecides(a: Identity, b: Identity, k: nat)
    requires AgreeUpTo(a, b, k) && Component(a, k) != Component(b, k)
    ensures Compare(a, b) == Component(a, k) - Component(b, k)
    decreases k
  {
    if k > 0 {
      assert Component(a, 0) == Component(b, 0);
      TailShifts(a);
      TailShifts(b);
      forall i | 0 <= i < k - 1
        ensures Component(Tail(a), i) == Component(Tail(b), i)
      {
        assert Component(a, i + 1) == Component(b, i + 1);
      }
      DifferenceDecides(Tail(a), Tail(b), k - 1);
    }
  }

  lemma {:induction false} AgreementIsEquality(a: Identity, b: Identity, n: nat)
    requires AgreeUpTo(a, b, n) && |a| <= n && |b| <= n
    ensures Compare(a, b) == 0
    decreases |a| + |b|
  {
    if a != [] || b != [] {
      assert Component(a, 0) == Component(b, 0);
      TailShifts(a);
      TailShifts(b);
      forall i | 0 <= i < n - 1
        ensures Component(Tail(a), i) == Component(Tail(b), i)
      {
        assert Component(a, i + 1) == Component(b, i + 1);
      }
      AgreementIsEquality(Tail(a), Tail(b), n - 1);
    }
  }

  /** The first difference, or agreement everywhere. */
  lemma FirstDifference(a: Identity, b: Identity) returns (k: nat)
    ensures AgreeUpTo(a, b, k)
    ensures Component(a, k) != Component(b, k) || (|a| <= k && |b| <= k)
  {
    k := 0;
    while Component(a, k) == Component(b, k) && (k < |a| || k < |b|)
      invariant AgreeUpTo(a, b, k)
      decreases |a| + |b| - k
    {
      k := k + 1;
    }
  }

  /** The comparison decides the order in both directions, so it is total and antisymmetric. */
  lemma CompareDecides(a: Identity, b: Identity)
    ensures Compare(a, b) < 0 <==> IsBefore(a, b)
    ensures Compare(a, b) > 0 <==> IsBefore(b, a)
    ensures Compare(a, b) == -Compare(b, a)
  {
    var k := FirstDifference(a, b);
    assert AgreeUpTo(b, a, k);
    if Component(a, k) == Component(b, k) {
      AgreementIsEquality(a, b, k);
      AgreementIsEquality(b, a, k);
      assert forall i: nat :: Component(a, i) == Component(b, i);
    } else {
      DifferenceDecides(a, b, k);
      DifferenceDecides(b, a, k);
      forall n: nat | AgreeUpTo(a, b, n) && Component(a, n) != Component(b, n)
        ensures n == k
      {
      }
      forall n: nat | AgreeUpTo(b, a, n) && Component(a, n) != Component(b, n)
        ensures n == k
      {
      }
    }
  }

  /** Not being after is transitive: with CompareDecides, a total preorder. */
  lemma CompareIsTransitive(a: Identity, b: Identity, c: Identity)
    requires Compare(a, b) <= 0 && Compare(b, c) <= 0
    ensures Compare(a, c) <= 0
    ensures Compare(a, b) < 0 || Compare(b, c) < 0 ==> Compare(a, c) < 0
  {
    var i := FirstDifference(a, b);
    var k := FirstDifference(b, c);
    SettleDifference(a, b, i);
    SettleDifference(b, c, k);
    var n := if i < k then i else k;
    assert forall m: nat :: m < n ==> Component(a, m) == Component(b, m) == Component(c, m);
    if Component(a, i) == Component(b, i) && Component(b, k) == Component(c, k) {
      var most := if i < k then k else i;
      assert AgreeUpTo(a, c, most);
      AgreementIsEquality(a, c, most);
    } else if Component(a, i) == Component(b, i) {
      assert AgreeUpTo(a, c, k) && Component(a, k) == Component(b, k);
      DifferenceDecides(a, c, k);
    } else if Component(b, k) == Component(c, k) {
      assert AgreeUpTo(a, c, i) && Component(b, i) == Component(c, i);
      DifferenceDecides(a, c, i);
    } else {
      DifferenceDecides(a, c, n);
    }
  }

  lemma SettleDifference(a: Identity, b: Identity, k: nat)
    requires AgreeUpTo(a, b, k) && (Component(a, k) != Component(b, k) || (|a| <= k && |b| <= k))
    ensures Component(a, k) != Component(b, k) ==> Compare(a, b) == Component(a, k) - Component(b, k)
    ensures Component(a, k) == Component(b, k) ==> Compare(a, b) == 0
  {
    if Component(a, k) != Component(b, k) {
      DifferenceDecides(a, b, k);
    } else {
      AgreementIsEquality(a, b, k);
    }
  }

  function Trimmed(a: Identity): Identity {
    if a != [] && a[|a| - 1] == 0 then Trimmed(a[..|a| - 1]) else a
  }

  lemma {:induction false} TrimmingKeepsComponents(a: Identity)
    ensures forall i: nat :: Component(Trimmed(a), i) == Component(a, i)
    ensures Trimmed(a) != [] ==> Trimmed(a)[|Trimmed(a)| - 1] != 0
  {
    if a != [] && a[|a| - 1] == 0 {
      TrimmingKeepsComponents(a[..|a| - 1]);
      assert forall i: nat :: Component(a[..|a| - 1], i) == Component(a, i);
    }
  }

  lemma ATrimmedOneIsNoLonger(a: Identity, b: Identity)
    requires forall i: nat :: Component(a, i) == Component(b, i)
    requires a != [] ==> a[|a| - 1] != 0
    ensures |a| <= |b|
  {
    if a != [] {
      assert Component(a, |a| - 1) == Component(b, |a| - 1);
    }
  }

  /** Two identities are equal in the order exactly when they differ at most in trailing zeros. */
  lemma EqualUpToTrailingZeros(a: Identity, b: Identity)
    ensures Compare(a, b) == 0 <==> Trimmed(a) == Trimmed(b)
  {
    TrimmingKeepsComponents(a);
    TrimmingKeepsComponents(b);
    var k := FirstDifference(a, b);
    SettleDifference(a, b, k);
    if Component(a, k) == Component(b, k) {
      var s, t := Trimmed(a), Trimmed(b);
      assert forall i: nat :: Component(s, i) == Component(a, i) == Component(b, i) == Component(t, i);
      ATrimmedOneIsNoLonger(s, t);
      ATrimmedOneIsNoLonger(t, s);
      assert forall i :: 0 <= i < |s| ==> s[i] == Component(s, i) == Component(t, i);
    } else {
      assert Component(Trimmed(a), k) != Component(Trimmed(b), k);
    }
  }

  // ----- versions on a release line -----

  method IsVersionOnReleaseLine(reported: Identity, line: Identity) returns (isOn: bool)
    ensures isOn <==> line <= reported
  {
    if |line| > |reported| {
      return false;
    }
    for i := 0 to |line|
      invariant line[..i] == reported[..i]
    {
      if reported[i] != line[i] {
        assert line[..i + 1][i] != reported[..i + 1][i];
        return false;
      }
    }
    assert line[..|line|] == line;
    return true;
  }

  /** Whatever lies between two versions of a line is on it, provided it names a line at least as precise. */
  lemma LinesAreConvex(line: Identity, a: Identity, b: Identity, c: Identity)
    requires line <= a && line <= c && Compare(a, b) <= 0 && Compare(b, c) <= 0 && |line| <= |b|
    ensures line <= b
  {
    var i := FirstDifference(a, b);
    var k := FirstDifference(b, c);
    SettleDifference(a, b, i);
    SettleDifference(b, c, k);
    if !(line <= b) {
      var n := FirstMismatch(line, b);
      assert Component(a, n) == line[n] == Component(c, n);
      assert forall m: nat :: m < n ==> Component(a, m) == Component(b, m) == Component(c, m);
      DifferenceDecides(a, b, n);
      DifferenceDecides(b, c, n);
    }
  }

  lemma FirstMismatch(line: Identity, b: Identity) returns (n: nat)
    requires |line| <= |b| && !(line <= b)
    ensures n < |line| && line[n] != b[n] && forall m :: 0 <= m < n ==> line[m] == b[m]
  {
    assert line != b[..|line|];
    var mismatch :| 0 <= mismatch < |line| && line[mismatch] != b[..|line|][mismatch];
    n := 0;
    while line[n] == b[n]
      invariant n <= mismatch && forall m :: 0 <= m < n ==> line[m] == b[m]
      decreases mismatch - n
    {
      n := n + 1;
    }
  }

  /** Two lines with a common version are nested. */
  lemma LinesAreNested(line: Identity, other: Identity, v: Identity)
    requires line <= v && other <= v
    ensures line <= other || other <= line
  {
    if |line| <= |other| {
      assert other[..|line|] == v[..|line|] == line;
    } else {
      assert line[..|other|] == v[..|other|] == other;
    }
  }

  // ----- MariaDB -----

  /** The release line of a server, None for a major no client serves. */
  function MapServerVersion(major: nat, minor: nat): Option<Identity> {
    match major
    case 5 => Some([5, 5])
    case 10 => Some(MapServer10x(minor))
    case 11 => Some(MapServer11x(minor))
    case 12 => Some([12, 0])
    case 13 => Some([13, 0])
    case _ => None
  }

  function MapServer10x(minor: nat): Identity {
    if 1 <= minor <= 5 then [10, minor]
    else if 6 <= minor <= 10 then [10, 6]
    else [10, 11]
  }

  function MapServer11x(minor: nat): Identity {
    if minor <= 4 then [11, 4] else [11, 8]
  }

  const CLIENT_LEGACY: Identity := [10, 6]
  const CLIENT_MODERN: Identity := [12, 3]
  const CLIENT_13: Identity := [13, 0]

  function GetClientVersionForServer(server: Identity): Identity {
    if server == [5, 5] || server == [10, 1] then CLIENT_LEGACY
    else if server == [13, 0] then CLIENT_13
    else CLIENT_MODERN
  }

  function IsBackupVersionHigherThanRestoreVersion(backup: Identity, restore: Identity): bool {
    Compare(backup, restore) > 0
  }

  predicate IsNotNewer(major: nat, minor: nat, otherMajor: nat, otherMinor: nat) {
    major < otherMajor || (major == otherMajor && minor <= otherMinor)
  }

  lemma CompareTwo(a: nat, b: nat, c: nat, d: nat)
    ensures Compare([a, b], [c, d]) == if a != c then a - c else b - d
  {
    if a != c {
      DifferenceDecides([a, b], [c, d], 0);
    } else if b != d {
      assert Component([a, b], 0) == Component([c, d], 0);
      DifferenceDecides([a, b], [c, d], 1);
    } else {
      AgreementIsEquality([a, b], [c, d], 2);
    }
  }

  lemma EveryLineHasTwoComponents(major: nat, minor: nat)
    requires MapServerVersion(major, minor).Some?
    ensures |MapServerVersion(major, minor).value| == 2
  {
  }

  /** Restoring to an equal or newer server is called a downgrade exactly for a backup of a 10.0 server
      restored to 10.1 up to 10.10: the default branch takes 10.0 for 10.11. */
  lemma DowngradesAreOnlyMistakenFrom100(major: nat, minor: nat, otherMajor: nat, otherMinor: nat)
    requires MapServerVersion(major, minor).Some? && MapServerVersion(otherMajor, otherMinor).Some?
    requires IsNotNewer(major, minor, otherMajor, otherMinor)
    ensures IsBackupVersionHigherThanRestoreVersion(
              MapServerVersion(major, minor).value, MapServerVersion(otherMajor, otherMinor).value)
            <==> major == otherMajor == 10 && minor == 0 && 1 <= otherMinor <= 10
  {
    var a, b := MapServerVersion(major, minor).value, MapServerVersion(otherMajor, otherMinor).value;
    EveryLineHasTwoComponents(major, minor);
    EveryLineHasTwoComponents(otherMajor, otherMinor);
    assert a == [a[0], a[1]] && b == [b[0], b[1]];
    CompareTwo(a[0], a[1], b[0], b[1]);
  }

  /** A newer server never gets an older client, except 10.1 after 10.0. */
  lemma ClientsAreMonotoneExceptAt100(major: nat, minor: nat, otherMajor: nat, otherMinor: nat)
    requires MapServerVersion(major, minor).Some? && MapServerVersion(otherMajor, otherMinor).Some?
    requires IsNotNewer(major, minor, otherMajor, otherMinor)
    ensures Compare(GetClientVersionForServer(MapServerVersion(major, minor).value),
                    GetClientVersionForServer(MapServerVersion(otherMajor, otherMinor).value)) > 0
            <==> major == otherMajor == 10 && minor == 0 && otherMinor == 1
  {
    var a := GetClientVersionForServer(MapServerVersion(major, minor).value);
    var b := GetClientVersionForServer(MapServerVersion(otherMajor, otherMinor).value);
    assert a == [a[0], a[1]] && b == [b[0], b[1]];
    CompareTwo(a[0], a[1], b[0], b[1]);
  }
}
