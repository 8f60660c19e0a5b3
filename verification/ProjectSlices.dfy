/** The frontend's dependency rules: layers point downwards, and a slice is reached only by its index file. */
module ProjectSlices {
  import opened Options

  const LAYERS := ["app", "pages", "widgets", "features", "entities", "shared"]

  /** A source path as its parts between slashes; splitting never leaves none. */
  type Path = p: seq<string> | p != [] witness [""]

  datatype Location = Location(layer: string, slice: Option<Path>)

  datatype Rule = ForbiddenDependency | PrivateSliceImport

  datatype Dependency = Dependency(source: Path, target: Path, isCovered: bool)

  datatype Finding = Finding(rule: Rule, source: Path, target: Path)

  function GetLocation(p: Path): Location {
    Location(p[0], if p[0] == "app" || p[0] == "shared" then None else Some(if |p| < 2 then p else p[..2]))
  }

  predicate IsLayered(p: Path) {
    p[0] in LAYERS
  }

  function IndexOf(layers: seq<string>, layer: string): nat
    requires layer in layers
  {
    if layers[0] == layer then 0 else 1 + IndexOf(layers[1..], layer)
  }

  lemma {:induction false} IndexOfIsInjective(layers: seq<string>, a: string, b: string)
    requires a in layers && b in layers && IndexOf(layers, a) == IndexOf(layers, b)
    ensures a == b
  {
    if layers[0] != a && layers[0] != b {
      IndexOfIsInjective(layers[1..], a, b);
    }
  }

  predicate IsForbidden(source: Path, target: Path)
    requires IsLayered(source) && IsLayered(target)
  {
    var from, to := GetLocation(source), GetLocation(target);
    IndexOf(LAYERS, to.layer) < IndexOf(LAYERS, from.layer)
    || (from.layer == to.layer && from.slice != to.slice && to.slice.Some?)
  }

  predicate IsPrivate(source: Path, target: Path) {
    var from, to := GetLocation(source), GetLocation(target);
    to.slice.Some? && to.slice != from.slice
    && target != to.slice.value + ["index.ts"] && target != to.slice.value + ["index.tsx"]
  }

  predicate IsFinding(d: Dependency, f: Finding) {
    && IsLayered(d.source) && IsLayered(d.target) && f.source == d.source && f.target == d.target
    && match f.rule
       case ForbiddenDependency => IsForbidden(d.source, d.target) && !d.isCovered
       case PrivateSliceImport => IsPrivate(d.source, d.target)
  }

  method CheckProjectDependencies(dependencies: seq<Dependency>) returns (findings: seq<Finding>)
    ensures forall f :: f in findings <==> IsFoundIn(dependencies, f)
  {
    findings := [];
    for i := 0 to |dependencies|
      invariant forall f :: f in findings <==> IsFoundIn(dependencies[..i], f)
    {
      var d := dependencies[i];
      FoundInOneMore(dependencies, i);
      FindingsOfIsComplete(d);
      ghost var before := findings;
      if IsLayered(d.source) && IsLayered(d.target) {
        if IsForbidden(d.source, d.target) && !d.isCovered {
          findings := findings + [Finding(ForbiddenDependency, d.source, d.target)];
        }
        if IsPrivate(d.source, d.target) {
          findings := findings + [Finding(PrivateSliceImport, d.source, d.target)];
        }
      }
      assert findings == before + FindingsOf(d);
    }
    assert dependencies[..|dependencies|] == dependencies;
  }

  predicate IsFoundIn(dependencies: seq<Dependency>, f: Finding) {
    exists d <- dependencies :: IsFinding(d, f)
  }

  function FindingsOf(d: Dependency): seq<Finding> {
    if !IsLayered(d.source) || !IsLayered(d.target) then []
    else
      (if IsForbidden(d.source, d.target) && !d.isCovered then [Finding(ForbiddenDependency, d.source, d.target)] else [])
      + (if IsPrivate(d.source, d.target) then [Finding(PrivateSliceImport, d.source, d.target)] else [])
  }

  lemma FindingsOfIsComplete(d: Dependency)
    ensures forall f :: f in FindingsOf(d) <==> IsFinding(d, f)
  {
    forall f
      ensures f in FindingsOf(d) <==> IsFinding(d, f)
    {
      assert f == Finding(f.rule, f.source, f.target);
      match f.rule
      case ForbiddenDependency =>
      case PrivateSliceImport =>
    }
  }

  lemma FoundInOneMore(dependencies: seq<Dependency>, i: nat)
    requires i < |dependencies|
    ensures forall f :: IsFoundIn(dependencies[..i + 1], f) <==>
                          IsFoundIn(dependencies[..i], f) || IsFinding(dependencies[i], f)
  {
    assert dependencies[..i + 1] == dependencies[..i] + [dependencies[i]];
  }

  // ----- what a project without findings looks like -----

  /** The unit a file belongs to: its slice, or its whole layer where that has no slices. */
  function UnitOf(p: Path): Path {
    var location := GetLocation(p);
    if location.slice.Some? then location.slice.value else [location.layer]
  }

  /** A chain of imports between units: each import starts in the unit in which the last one arrived. */
  ghost predicate IsChain(chain: seq<Dependency>) {
    && chain != [] && (forall d <- chain :: IsLayered(d.source) && IsLayered(d.target))
    && forall i :: 0 <= i < |chain| - 1 ==> UnitOf(chain[i].target) == UnitOf(chain[i + 1].source)
  }

  function RankOf(p: Path): nat
    requires IsLayered(p)
  {
    IndexOf(LAYERS, p[0])
  }

  lemma UnitsFixTheLayer(p: Path, q: Path)
    requires UnitOf(p) == UnitOf(q)
    ensures p[0] == q[0]
  {
    assert UnitOf(p)[0] == p[0] && UnitOf(q)[0] == q[0];
  }

  /** An import that is not forbidden stays in its unit or goes to a strictly lower layer. */
  lemma AllowedImportsDescend(source: Path, target: Path)
    requires IsLayered(source) && IsLayered(target) && !IsForbidden(source, target)
    ensures UnitOf(source) == UnitOf(target) || RankOf(source) < RankOf(target)
  {
    if RankOf(source) == RankOf(target) {
      IndexOfIsInjective(LAYERS, source[0], target[0]);
    }
  }

  lemma {:induction false} ChainsDescend(chain: seq<Dependency>, n: nat)
    requires IsChain(chain) && n < |chain| && forall d <- chain :: !IsForbidden(d.source, d.target)
    ensures RankOf(chain[0].source) <= RankOf(chain[n].target)
    ensures RankOf(chain[0].source) == RankOf(chain[n].target) ==>
              forall k :: 0 <= k <= n ==> UnitOf(chain[k].source) == UnitOf(chain[0].source) == UnitOf(chain[k].target)
  {
    assert chain[n] in chain;
    AllowedImportsDescend(chain[n].source, chain[n].target);
    if n > 0 {
      ChainsDescend(chain, n - 1);
      assert chain[n - 1] in chain;
      UnitsFixTheLayer(chain[n - 1].target, chain[n].source);
    }
    if UnitOf(chain[n].source) == UnitOf(chain[n].target) {
      UnitsFixTheLayer(chain[n].source, chain[n].target);
    }
  }

  /** Without findings, and with no occurrence covered up, a chain of imports that comes back to its unit
      has never left it: there is no cycle between different units. */
  lemma NoCycleBetweenUnits(dependencies: seq<Dependency>, findings: seq<Finding>, chain: seq<Dependency>)
    requires forall d <- dependencies :: !d.isCovered
    requires forall f :: f in findings <==> IsFoundIn(dependencies, f)
    requires findings == [] && IsChain(chain) && forall d <- chain :: d in dependencies
    requires UnitOf(chain[|chain| - 1].target) == UnitOf(chain[0].source)
    ensures forall d <- chain :: UnitOf(d.source) == UnitOf(d.target) == UnitOf(chain[0].source)
  {
    forall d <- chain
      ensures !IsForbidden(d.source, d.target)
    {
      AForbiddenImportIsFound(dependencies, findings, d);
    }
    assert chain[|chain| - 1] in chain && chain[0] in chain;
    UnitsFixTheLayer(chain[|chain| - 1].target, chain[0].source);
    ChainsDescend(chain, |chain| - 1);
  }

  lemma AForbiddenImportIsFound(dependencies: seq<Dependency>, findings: seq<Finding>, d: Dependency)
    requires forall f :: f in findings <==> IsFoundIn(dependencies, f)
    requires d in dependencies && IsLayered(d.source) && IsLayered(d.target)
    ensures IsForbidden(d.source, d.target) && !d.isCovered ==> findings != []
    ensures IsPrivate(d.source, d.target) ==> findings != []
  {
    var forbidden := Finding(ForbiddenDependency, d.source, d.target);
    var private := Finding(PrivateSliceImport, d.source, d.target);
    assert IsForbidden(d.source, d.target) && !d.isCovered ==> IsFinding(d, forbidden);
    assert IsPrivate(d.source, d.target) ==> IsFinding(d, private);
    assert IsFinding(d, forbidden) ==> forbidden in findings;
    assert IsFinding(d, private) ==> private in findings;
  }

  /** And every import of another slice lands on that slice's index file, covered or not. */
  lemma SlicesAreReachedByTheirIndex(dependencies: seq<Dependency>, findings: seq<Finding>, d: Dependency)
    requires forall f :: f in findings <==> IsFoundIn(dependencies, f)
    requires findings == [] && d in dependencies && IsLayered(d.source) && IsLayered(d.target)
    requires GetLocation(d.target).slice.Some? && UnitOf(d.source) != UnitOf(d.target)
    ensures d.target == UnitOf(d.target) + ["index.ts"] || d.target == UnitOf(d.target) + ["index.tsx"]
  {
    AForbiddenImportIsFound(dependencies, findings, d);
  }

  predicate IsImport(dependencies: seq<Dependency>, from: Path, to: Path) {
    exists d <- dependencies :: d.source == from && d.target == to
  }

  /** A chain of imports from file to file. */
  ghost predicate IsImportPath(dependencies: seq<Dependency>, path: seq<Path>) {
    && path != [] && (forall p <- path :: IsLayered(p))
    && forall i :: 0 <= i < |path| - 1 ==> IsImport(dependencies, path[i], path[i + 1])
  }

  predicate IsIndexOf(p: Path, unit: Path) {
    p == unit + ["index.ts"] || p == unit + ["index.tsx"]
  }

  lemma FirstEntry(path: seq<Path>, unit: Path) returns (i: nat)
    requires path != [] && UnitOf(path[0]) != unit && UnitOf(path[|path| - 1]) == unit
    ensures 0 < i < |path| && UnitOf(path[i]) == unit && forall k :: 0 <= k < i ==> UnitOf(path[k]) != unit
  {
    i := 1;
    while UnitOf(path[i]) != unit
      invariant 0 < i < |path|
      invariant forall k :: 0 <= k < i ==> UnitOf(path[k]) != unit
      decreases |path| - i
    {
      i := i + 1;
    }
  }

  lemma AnEntryIsTheIndex(dependencies: seq<Dependency>, findings: seq<Finding>, from: Path, to: Path)
    requires forall f :: f in findings <==> IsFoundIn(dependencies, f)
    requires findings == [] && IsImport(dependencies, from, to) && IsLayered(from) && IsLayered(to)
    requires UnitOf(from) != UnitOf(to) && GetLocation(to).slice.Some?
    ensures IsIndexOf(to, UnitOf(to))
  {
    var d :| d in dependencies && d.source == from && d.target == to;
    SlicesAreReachedByTheirIndex(dependencies, findings, d);
  }

  /** The index file of a slice dominates it: without findings every path of imports into the slice from
      anywhere else, however long, enters it through its index file. */
  lemma TheIndexDominatesItsSlice(dependencies: seq<Dependency>, findings: seq<Finding>, path: seq<Path>, slice: Path)
    requires forall f :: f in findings <==> IsFoundIn(dependencies, f)
    requires findings == [] && IsImportPath(dependencies, path)
    requires UnitOf(path[0]) != slice && UnitOf(path[|path| - 1]) == slice
    requires GetLocation(path[|path| - 1]).slice.Some?
    ensures exists i :: 0 < i < |path| && IsIndexOf(path[i], slice) && forall k :: 0 <= k < i ==> UnitOf(path[k]) != slice
  {
    var i := FirstEntry(path, slice);
    UnitsFixTheLayer(path[i], path[|path| - 1]);
    assert path[i] in path && path[i - 1] in path;
    assert IsImport(dependencies, path[i - 1], path[i - 1 + 1]);
    AnEntryIsTheIndex(dependencies, findings, path[i - 1], path[i]);
  }
}
