/** The architecture linter's import rules, and what obeying them edge by edge means for a whole graph. */
module ArchLayers {
  import opened Options

  datatype Layer = NoLayer | Lib | Engines | Modules | App | Cmd | Agent
  {
    function Rank(): nat {
      match this
      case NoLayer => 0
      case Lib => 1
      case Engines => 2
      case Modules => 3
      case App => 4
      case Cmd => 5
      case Agent => 6
    }
  }

  datatype Rule = AgentImports | LayerDirection | ModuleBoundary

  const MODULES := "internal/modules"

  predicate HasPathPrefix(path: string, prefix: string) {
    path == prefix || prefix + "/" <= path
  }

  function GetLayer(path: string): Layer {
    if HasPathPrefix(path, "internal/agent") || HasPathPrefix(path, "cmd/verification-agent") then Agent
    else if HasPathPrefix(path, "cmd") then Cmd
    else if HasPathPrefix(path, "internal/app") then App
    else if HasPathPrefix(path, MODULES) then Modules
    else if HasPathPrefix(path, "internal/engines") then Engines
    else if HasPathPrefix(path, "internal/lib") then Lib
    else NoLayer
  }

  /** The part before the first slash. */
  function FirstSegment(path: string): (s: string)
    ensures s <= path && '/' !in s && (s == path || path[|s|] == '/')
  {
    if path == [] || path[0] == '/' then [] else [path[0]] + FirstSegment(path[1..])
  }

  /** The domain module a package belongs to. */
  function GetModuleName(path: string): Option<string> {
    var prefix := MODULES + "/";
    if prefix <= path && path != prefix then Some(FirstSegment(path[|prefix|..])) else None
  }

  // path.Join, which leaves out an empty element.
  function ModuleRoot(name: string): string {
    if name == "" then MODULES else MODULES + "/" + name
  }

  /** The rule an import breaks, if any. */
  function CheckImport(importer: string, imported: string): Option<Rule> {
    var from, to := GetLayer(importer), GetLayer(imported);
    if from == Agent then
      if to == Lib || to == Engines || to == Agent then None else Some(AgentImports)
    else if to == Agent || (from != NoLayer && to.Rank() > from.Rank()) then Some(LayerDirection)
    else
      var importedModule, importerModule := GetModuleName(imported), GetModuleName(importer);
      // Outside the modules the importer's name is the empty string.
      var importerName := if importerModule.Some? then importerModule.value else "";
      if importedModule.Some? && importerName != importedModule.value && imported != ModuleRoot(importedModule.value)
      then Some(ModuleBoundary)
      else None
  }

  datatype SourceFile = SourceFile(package: string, isTest: bool, imports: seq<string>)

  datatype Violation = Violation(importer: string, imported: string, rule: Rule)

  predicate IsImport(files: seq<SourceFile>, importer: string, imported: string) {
    exists f <- files :: !f.isTest && f.package == importer && imported in f.imports
  }

  /** Reports exactly the forbidden imports of production files. */
  method CheckImports(files: seq<SourceFile>) returns (violations: seq<Violation>)
    ensures IsFullReport(files, violations)
  {
    violations := [];
    for i := 0 to |files|
      invariant IsFullReport(files[..i], violations)
    {
      var file := files[i];
      var before := violations;
      assert files[..i + 1] == files[..i] + [file];
      if !file.isTest {
        for k := 0 to |file.imports|
          invariant forall v :: v in violations <==>
                              (v in before || (v.importer == file.package && v.imported in file.imports[..k] &&
                                               CheckImport(v.importer, v.imported) == Some(v.rule)))
        {
          assert file.imports[..k + 1] == file.imports[..k] + [file.imports[k]];
          var rule := CheckImport(file.package, file.imports[k]);
          if rule.Some? {
            violations := violations + [Violation(file.package, file.imports[k], rule.value)];
          }
        }
        assert file.imports[..|file.imports|] == file.imports;
      }
    }
    assert files[..|files|] == files;
  }

  // ----- what the rules mean for a graph -----

  /** A chain of imports none of which breaks a rule. */
  ghost predicate IsAcceptedPath(path: seq<string>) {
    path != [] && forall i :: 0 <= i < |path| - 1 ==> CheckImport(path[i], path[i + 1]) == None
  }

  // What CheckImports promises about its result.
  ghost predicate IsFullReport(files: seq<SourceFile>, violations: seq<Violation>) {
    forall v :: v in violations <==>
                IsImport(files, v.importer, v.imported) && CheckImport(v.importer, v.imported) == Some(v.rule)
  }

  lemma AForbiddenImportIsReported(files: seq<SourceFile>, violations: seq<Violation>, from: string, to: string)
    requires IsFullReport(files, violations) && IsImport(files, from, to) && CheckImport(from, to).Some?
    ensures violations != []
  {
    assert Violation(from, to, CheckImport(from, to).value) in violations;
  }

  /** A tree without reports has only accepted paths. */
  lemma ACleanTreeHasOnlyAcceptedPaths(files: seq<SourceFile>, violations: seq<Violation>, path: seq<string>)
    requires IsFullReport(files, violations) && violations == []
    requires path != [] && forall i :: 0 <= i < |path| - 1 ==> IsImport(files, path[i], path[i + 1])
    ensures IsAcceptedPath(path)
  {
    forall i | 0 <= i < |path| - 1
      ensures CheckImport(path[i], path[i + 1]) == None
    {
      if CheckImport(path[i], path[i + 1]).Some? {
        AForbiddenImportIsReported(files, violations, path[i], path[i + 1]);
      }
    }
  }

  ghost predicate IsInModule(package: string, name: string) {
    GetModuleName(package) == Some(name)
  }

  lemma AModuleIsInTheModulesLayer(package: string, name: string)
    requires IsInModule(package, name)
    ensures GetLayer(package) == Modules
  {
    var prefix := MODULES + "/";
    assert package[..|prefix|] == prefix && package[9] == 'm' && package[10] == 'o' && package[0] == 'i';
  }

  lemma TheRootIsInItsModule(name: string)
    requires name != "" && '/' !in name
    ensures IsInModule(ModuleRoot(name), name)
  {
    var prefix := MODULES + "/";
    assert ModuleRoot(name) == prefix + name;
    FirstSegmentOfName(name);
  }

  lemma {:induction false} FirstSegmentOfName(name: string)
    requires '/' !in name
    ensures FirstSegment(name) == name
  {
    if name != [] {
      FirstSegmentOfName(name[1..]);
    }
  }

  /** The root package of a module dominates it: every accepted path that enters the module from outside
      enters it through the root. */
  lemma TheRootDominatesItsModule(path: seq<string>, name: string)
    requires IsAcceptedPath(path) && name != ""
    requires !IsInModule(path[0], name) && IsInModule(path[|path| - 1], name)
    ensures exists i :: 0 < i < |path| && path[i] == ModuleRoot(name) &&
                        forall k :: 0 <= k < i ==> !IsInModule(path[k], name)
  {
    var i := 0;
    while !IsInModule(path[i + 1], name)
      invariant 0 <= i < |path| - 1
      invariant forall k :: 0 <= k <= i ==> !IsInModule(path[k], name)
      decreases |path| - i
    {
      i := i + 1;
    }
    AModuleIsInTheModulesLayer(path[i + 1], name);
    assert CheckImport(path[i], path[i + 1]) == None;
  }

  /** Along layered packages the layer never rises. */
  lemma {:induction false} LayersNeverRise(path: seq<string>, i: nat, k: nat)
    requires IsAcceptedPath(path) && i <= k < |path|
    requires forall n :: i <= n <= k ==> GetLayer(path[n]) != NoLayer
    ensures GetLayer(path[k]).Rank() <= GetLayer(path[i]).Rank()
    decreases k - i
  {
    if i < k {
      assert CheckImport(path[i], path[i + 1]) == None;
      LayersNeverRise(path, i + 1, k);
    }
  }

  /** So a cycle of layered packages lies in one layer. */
  lemma CyclesStayInALayer(path: seq<string>, k: nat)
    requires IsAcceptedPath(path) && k < |path| && path[0] == path[|path| - 1]
    requires forall n :: 0 <= n < |path| ==> GetLayer(path[n]) != NoLayer
    ensures GetLayer(path[k]) == GetLayer(path[0])
  {
    LayersNeverRise(path, 0, k);
    LayersNeverRise(path, k, |path| - 1);
  }

  predicate IsOpenToTheAgent(package: string) {
    var layer := GetLayer(package);
    layer == Agent || layer == Engines || layer == Lib
  }

  /** What the agent can reach: only agent, engines and lib packages, until a path leaves the layers. */
  lemma TheAgentLeavesOnlyThroughUnlayeredPackages(path: seq<string>)
    requires IsAcceptedPath(path) && GetLayer(path[0]) == Agent && !IsOpenToTheAgent(path[|path| - 1])
    ensures exists n :: 0 < n < |path| && GetLayer(path[n]) == NoLayer &&
                        forall m :: 0 <= m < n ==> IsOpenToTheAgent(path[m])
  {
    var n := 0;
    while IsOpenToTheAgent(path[n + 1])
      invariant 0 <= n < |path| - 1
      invariant forall m :: 0 <= m <= n ==> IsOpenToTheAgent(path[m])
      decreases |path| - n
    {
      n := n + 1;
    }
    assert CheckImport(path[n], path[n + 1]) == None;
    assert GetLayer(path[n + 1]) == NoLayer;
  }

  /** Nothing outside the agent ever reaches the agent. */
  lemma {:induction false} OnlyTheAgentReachesTheAgent(path: seq<string>, k: nat)
    requires IsAcceptedPath(path) && GetLayer(path[0]) != Agent && k < |path|
    ensures GetLayer(path[k]) != Agent
    decreases k
  {
    if k > 0 {
      OnlyTheAgentReachesTheAgent(path, k - 1);
      assert CheckImport(path[k - 1], path[k]) == None;
    }
  }

  /** The gap: the rules do not stop a path at a package outside every layer. */
  lemma AnUnlayeredPackageLeadsAnywhere(from: string, via: string, to: string)
    requires GetLayer(from) != NoLayer && GetLayer(from) != Agent && GetLayer(via) == NoLayer && GetLayer(to) != Agent
    requires GetModuleName(to).Some? ==> to == ModuleRoot(GetModuleName(to).value)
    ensures IsAcceptedPath([from, via, to])
  {
    AnUnlayeredPackageIsInNoModule(via);
  }

  lemma AnUnlayeredPackageIsInNoModule(package: string)
    requires GetLayer(package) == NoLayer
    ensures GetModuleName(package) == None
  {
    if GetModuleName(package).Some? {
      AModuleIsInTheModulesLayer(package, GetModuleName(package).value);
    }
  }
}
