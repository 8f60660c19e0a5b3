/**
The architecture linter's contract-usage rule: a declaration of a module's contract must be consumed from
outside its module, or be required by a declaration that is. The dependencies form a graph that may be
cyclic; the linter walks it with a stack, in whatever order Go's maps come.
*/
module ContractUsage {
  import opened Options
  import opened ArchLayers

  /** A source position, which the test variants of a package share. */
  type Identity = nat

  datatype Reference = Reference(
    name: string, moduleName: string, isCandidate: bool, hasExternalConsumer: bool, dependencies: set<Identity>)

  /** A declaration in module.go. `defines` are the names its surface declares, `mentions` the objects its
      surface uses, None for an identifier that denotes no object. */
  datatype Declaration = Declaration(
    id: Identity, name: string, isCandidate: bool, defines: seq<Identity>, mentions: seq<Option<Identity>>)

  datatype SyntaxFile = SyntaxFile(path: string, declarations: seq<Declaration>)

  /** An identifier that uses an object: where the object is declared, and the file of the identifier. */
  datatype Use = Use(target: Identity, path: string)

  datatype Package = Package(files: seq<SyntaxFile>, uses: seq<Use>)

  predicate IsContractFile(file: SyntaxFile) {
    GetModuleName(file.path).Some? && file.path == ModuleRoot(GetModuleName(file.path).value) + "/module.go"
  }

  function NewReference(d: Declaration, moduleName: string): Reference {
    Reference(d.name, moduleName, d.isCandidate, false, {})
  }

  // ----- the tables, and what each visited declaration and use does to them -----

  datatype Tables = Tables(declarations: map<Identity, Reference>, bindings: map<Identity, Identity>)

  /** Every binding and every dependency names a known declaration, a dependency one of its own module. */
  ghost predicate IsKnown(t: Tables) {
    && (forall b <- t.bindings :: t.bindings[b] in t.declarations)
    && DependenciesAreKnown(t.declarations)
  }

  ghost predicate DependenciesAreKnown(declarations: map<Identity, Reference>) {
    forall id, dep :: id in declarations && dep in declarations[id].dependencies ==>
                        dep in declarations && declarations[dep].moduleName == declarations[id].moduleName
  }

  function Bind(bindings: map<Identity, Identity>, objects: seq<Identity>, id: Identity): map<Identity, Identity> {
    if objects == [] then bindings
    else Bind(bindings, objects[..|objects| - 1], id)[objects[|objects| - 1] := id]
  }

  function Register(t: Tables, d: Declaration, moduleName: string): Tables {
    Tables(if d.id in t.declarations then t.declarations else t.declarations[d.id := NewReference(d, moduleName)],
           Bind(t.bindings[d.id := d.id], d.defines, d.id))
  }

  function RegisterAll(t: Tables, ds: seq<Declaration>, moduleName: string): Tables {
    if ds == [] then t else Register(RegisterAll(t, ds[..|ds| - 1], moduleName), ds[|ds| - 1], moduleName)
  }

  function RegisterFile(t: Tables, file: SyntaxFile): Tables {
    if IsContractFile(file) then RegisterAll(t, file.declarations, GetModuleName(file.path).value) else t
  }

  function RegisterFiles(t: Tables, files: seq<SyntaxFile>): Tables {
    if files == [] then t else RegisterFile(RegisterFiles(t, files[..|files| - 1]), files[|files| - 1])
  }

  function MarkUse(t: Tables, use: Use): Tables {
    if use.target !in t.bindings || t.bindings[use.target] !in t.declarations then t
    else
      var id := t.bindings[use.target];
      var r := t.declarations[id];
      if HasPathPrefix(use.path, ModuleRoot(r.moduleName)) then t
      else t.(declarations := t.declarations[id := r.(hasExternalConsumer := true)])
  }

  function MarkUses(t: Tables, uses: seq<Use>): Tables {
    if uses == [] then t else MarkUse(MarkUses(t, uses[..|uses| - 1]), uses[|uses| - 1])
  }

  function Depend(t: Tables, id: Identity, mention: Option<Identity>): Tables {
    if id !in t.declarations || mention.None? || mention.value !in t.bindings
       || t.bindings[mention.value] !in t.declarations then t
    else
      var dep, r := t.bindings[mention.value], t.declarations[id];
      if t.declarations[dep].moduleName != r.moduleName then t
      else t.(declarations := t.declarations[id := r.(dependencies := r.dependencies + {dep})])
  }

  function DependAll(t: Tables, id: Identity, mentions: seq<Option<Identity>>): Tables {
    if mentions == [] then t else Depend(DependAll(t, id, mentions[..|mentions| - 1]), id, mentions[|mentions| - 1])
  }

  function Require(t: Tables, ds: seq<Declaration>): Tables {
    if ds == [] then t else DependAll(Require(t, ds[..|ds| - 1]), ds[|ds| - 1].id, ds[|ds| - 1].mentions)
  }

  function RequireFiles(t: Tables, files: seq<SyntaxFile>): Tables {
    if files == [] then t else Require(RequireFiles(t, files[..|files| - 1]), files[|files| - 1].declarations)
  }

  // ----- what that amounts to -----

  predicate IsNamed(ds: seq<Declaration>, id: Identity) {
    exists d <- ds :: d.id == id
  }

  predicate IsDeclaredIn(file: SyntaxFile, id: Identity) {
    IsContractFile(file) && IsNamed(file.declarations, id)
  }

  predicate IsDeclared(files: seq<SyntaxFile>, id: Identity) {
    exists f <- files :: IsDeclaredIn(f, id)
  }

  /** An identifier outside the module uses an object bound to the declaration. */
  predicate IsOutsideUse(use: Use, bindings: map<Identity, Identity>, id: Identity, moduleName: string) {
    use.target in bindings && bindings[use.target] == id && !HasPathPrefix(use.path, ModuleRoot(moduleName))
  }

  predicate IsUsedOutside(uses: seq<Use>, bindings: map<Identity, Identity>, id: Identity, moduleName: string) {
    exists u <- uses :: IsOutsideUse(u, bindings, id, moduleName)
  }

  predicate IsMentioned(mentions: seq<Option<Identity>>, bindings: map<Identity, Identity>, dep: Identity) {
    exists m <- mentions :: m.Some? && m.value in bindings && bindings[m.value] == dep
  }

  predicate IsMentionedBy(ds: seq<Declaration>, bindings: map<Identity, Identity>, id: Identity, dep: Identity) {
    exists d <- ds :: d.id == id && IsMentioned(d.mentions, bindings, dep)
  }

  /** The surface of a declaration with this ID mentions an object bound to dep. */
  predicate IsRequiredBy(files: seq<SyntaxFile>, bindings: map<Identity, Identity>, id: Identity, dep: Identity) {
    exists f <- files :: IsMentionedBy(f.declarations, bindings, id, dep)
  }

  ghost predicate HasSameContracts(t: Tables, after: Tables) {
    && after.bindings == t.bindings && after.declarations.Keys == t.declarations.Keys
    && forall id <- t.declarations ::
         && after.declarations[id].name == t.declarations[id].name
         && after.declarations[id].moduleName == t.declarations[id].moduleName
         && after.declarations[id].isCandidate == t.declarations[id].isCandidate
  }

  lemma {:induction false} BindKeepsKnown(declarations: map<Identity, Reference>, bindings: map<Identity, Identity>,
                                          objects: seq<Identity>, id: Identity)
    requires id in declarations && forall b <- bindings :: bindings[b] in declarations
    ensures forall b <- Bind(bindings, objects, id) :: Bind(bindings, objects, id)[b] in declarations
    ensures forall b <- bindings :: b in Bind(bindings, objects, id)
  {
    if objects != [] {
      BindKeepsKnown(declarations, bindings, objects[..|objects| - 1], id);
    }
  }

  lemma RegisterKeepsKnown(t: Tables, d: Declaration, moduleName: string)
    requires IsKnown(t)
    ensures IsKnown(Register(t, d, moduleName)) && d.id in Register(t, d, moduleName).bindings
    ensures forall b <- t.bindings :: b in Register(t, d, moduleName).bindings
  {
    var after := Register(t, d, moduleName);
    BindKeepsKnown(after.declarations, t.bindings[d.id := d.id], d.defines, d.id);
  }

  // What a registration of the declarations named by isNamed does to one ID.
  ghost predicate Gains(t: Tables, after: Tables, id: Identity, isNamed: bool) {
    && (id in after.declarations <==> id in t.declarations || isNamed)
    && (id in t.declarations ==> after.declarations[id] == t.declarations[id])
    && (id in after.declarations && id !in t.declarations ==>
          !after.declarations[id].hasExternalConsumer && after.declarations[id].dependencies == {})
    && (isNamed || id in t.bindings ==> id in after.bindings)
  }

  lemma GainsAddUp(t: Tables, middle: Tables, after: Tables, id: Identity, first: bool, second: bool)
    requires Gains(t, middle, id, first) && Gains(middle, after, id, second)
    ensures Gains(t, after, id, first || second)
  {
  }

  lemma RegisterGains(t: Tables, d: Declaration, moduleName: string, id: Identity)
    requires IsKnown(t)
    ensures Gains(t, Register(t, d, moduleName), id, d.id == id)
  {
    RegisterKeepsKnown(t, d, moduleName);
  }

  lemma NamedInOneMore(ds: seq<Declaration>, last: Declaration, id: Identity)
    ensures IsNamed(ds + [last], id) <==> IsNamed(ds, id) || last.id == id
  {
    assert forall d :: d in ds + [last] <==> d in ds || d == last;
  }

  /** A registration keeps what is there, and adds the declarations without consumers and dependencies. */
  lemma {:induction false} RegisterAllGains(t: Tables, ds: seq<Declaration>, moduleName: string, id: Identity)
    requires IsKnown(t)
    ensures IsKnown(RegisterAll(t, ds, moduleName))
    ensures Gains(t, RegisterAll(t, ds, moduleName), id, IsNamed(ds, id))
  {
    if ds != [] {
      var front, last := ds[..|ds| - 1], ds[|ds| - 1];
      var before := RegisterAll(t, front, moduleName);
      RegisterAllGains(t, front, moduleName, id);
      RegisterKeepsKnown(before, last, moduleName);
      RegisterGains(before, last, moduleName, id);
      GainsAddUp(t, before, Register(before, last, moduleName), id, IsNamed(front, id), last.id == id);
      NamedInOneMore(front, last, id);
      assert ds == front + [last];
    }
  }

  lemma RegisterFileGains(t: Tables, file: SyntaxFile, id: Identity)
    requires IsKnown(t)
    ensures IsKnown(RegisterFile(t, file)) && Gains(t, RegisterFile(t, file), id, IsDeclaredIn(file, id))
  {
    if IsContractFile(file) {
      RegisterAllGains(t, file.declarations, GetModuleName(file.path).value, id);
    }
  }

  lemma {:induction false} RegisterFilesGains(t: Tables, files: seq<SyntaxFile>, id: Identity)
    requires IsKnown(t)
    ensures IsKnown(RegisterFiles(t, files)) && Gains(t, RegisterFiles(t, files), id, IsDeclared(files, id))
  {
    if files != [] {
      var front, last := files[..|files| - 1], files[|files| - 1];
      RegisterFilesGains(t, front, id);
      RegisterFileGains(RegisterFiles(t, front), last, id);
      GainsAddUp(t, RegisterFiles(t, front), RegisterFiles(t, files), id,
                 IsDeclared(front, id), IsDeclaredIn(last, id));
      DeclaredInOneMore(front, last, id);
      assert files == front + [last];
    }
  }

  lemma DeclaredInOneMore(files: seq<SyntaxFile>, last: SyntaxFile, id: Identity)
    ensures IsDeclared(files + [last], id) <==> IsDeclared(files, id) || IsDeclaredIn(last, id)
  {
    assert forall f :: f in files + [last] <==> f in files || f == last;
  }

  lemma MarkUseMeans(t: Tables, use: Use, id: Identity)
    requires IsKnown(t) && id in t.declarations
    ensures var after := MarkUse(t, use);
            && HasSameContracts(t, after)
            && after.declarations[id].dependencies == t.declarations[id].dependencies
            && (after.declarations[id].hasExternalConsumer <==>
                  t.declarations[id].hasExternalConsumer ||
                  IsOutsideUse(use, t.bindings, id, t.declarations[id].moduleName))
  {
  }

  lemma UsedInOneMore(uses: seq<Use>, last: Use, bindings: map<Identity, Identity>, id: Identity, moduleName: string)
    ensures IsUsedOutside(uses + [last], bindings, id, moduleName) <==>
              IsUsedOutside(uses, bindings, id, moduleName) || IsOutsideUse(last, bindings, id, moduleName)
  {
    assert forall u :: u in uses + [last] <==> u in uses || u == last;
  }

  /** A declaration is externally consumed exactly when an identifier outside its module uses it. */
  lemma {:induction false} MarkUsesMeans(t: Tables, uses: seq<Use>, id: Identity)
    requires IsKnown(t) && id in t.declarations
    ensures var after := MarkUses(t, uses);
            && HasSameContracts(t, after)
            && after.declarations[id].dependencies == t.declarations[id].dependencies
            && (after.declarations[id].hasExternalConsumer <==>
                  t.declarations[id].hasExternalConsumer ||
                  IsUsedOutside(uses, t.bindings, id, t.declarations[id].moduleName))
  {
    if uses != [] {
      var front, last := uses[..|uses| - 1], uses[|uses| - 1];
      MarkUsesMeans(t, front, id);
      MarkUsesKeepKnown(t, front);
      MarkUseMeans(MarkUses(t, front), last, id);
      UsedInOneMore(front, last, t.bindings, id, t.declarations[id].moduleName);
      assert uses == front + [last];
    }
  }

  lemma {:induction false} MarkUsesKeepKnown(t: Tables, uses: seq<Use>)
    requires IsKnown(t)
    ensures IsKnown(MarkUses(t, uses)) && HasSameContracts(t, MarkUses(t, uses))
  {
    if uses != [] {
      MarkUsesKeepKnown(t, uses[..|uses| - 1]);
      MarkUseKeepsKnown(MarkUses(t, uses[..|uses| - 1]), uses[|uses| - 1]);
    }
  }

  lemma {:induction false} DependAllKeepsKnown(t: Tables, id: Identity, mentions: seq<Option<Identity>>)
    requires IsKnown(t)
    ensures IsKnown(DependAll(t, id, mentions)) && HasSameContracts(t, DependAll(t, id, mentions))
  {
    if mentions != [] {
      DependAllKeepsKnown(t, id, mentions[..|mentions| - 1]);
      DependKeepsKnown(DependAll(t, id, mentions[..|mentions| - 1]), id, mentions[|mentions| - 1]);
    }
  }

  lemma {:induction false} RequireKeepsKnown(t: Tables, ds: seq<Declaration>)
    requires IsKnown(t)
    ensures IsKnown(Require(t, ds)) && HasSameContracts(t, Require(t, ds))
  {
    if ds != [] {
      RequireKeepsKnown(t, ds[..|ds| - 1]);
      DependAllKeepsKnown(Require(t, ds[..|ds| - 1]), ds[|ds| - 1].id, ds[|ds| - 1].mentions);
    }
  }

  lemma {:induction false} RequireFilesKeepsKnown(t: Tables, files: seq<SyntaxFile>)
    requires IsKnown(t)
    ensures IsKnown(RequireFiles(t, files)) && HasSameContracts(t, RequireFiles(t, files))
  {
    if files != [] {
      RequireFilesKeepsKnown(t, files[..|files| - 1]);
      RequireKeepsKnown(RequireFiles(t, files[..|files| - 1]), files[|files| - 1].declarations);
    }
  }

  lemma MarkUseKeepsKnown(t: Tables, use: Use)
    requires IsKnown(t)
    ensures IsKnown(MarkUse(t, use)) && HasSameContracts(t, MarkUse(t, use))
  {
  }

  lemma DependKeepsKnown(t: Tables, id: Identity, mention: Option<Identity>)
    requires IsKnown(t)
    ensures IsKnown(Depend(t, id, mention)) && HasSameContracts(t, Depend(t, id, mention))
  {
  }

  lemma {:induction false} DependAllMeans(t: Tables, own: Identity, mentions: seq<Option<Identity>>, id: Identity,
                                          dep: Identity)
    requires IsKnown(t) && id in t.declarations
    ensures var after := DependAll(t, own, mentions);
            && HasSameContracts(t, after)
            && after.declarations[id].hasExternalConsumer == t.declarations[id].hasExternalConsumer
            && (dep in after.declarations[id].dependencies <==>
                  dep in t.declarations[id].dependencies ||
                  (own == id && IsMentioned(mentions, t.bindings, dep) && dep in t.declarations &&
                   t.declarations[dep].moduleName == t.declarations[id].moduleName))
  {
    DependAllKeepsKnown(t, own, mentions);
    if mentions != [] {
      var front, last := mentions[..|mentions| - 1], mentions[|mentions| - 1];
      DependAllMeans(t, own, front, id, dep);
      DependKeepsKnown(DependAll(t, own, front), own, last);
      assert mentions == front + [last];
      assert IsMentioned(mentions, t.bindings, dep) <==>
             IsMentioned(front, t.bindings, dep) || IsMentioned([last], t.bindings, dep);
      assert last in [last];
    }
  }

  lemma {:induction false} RequireMeans(t: Tables, ds: seq<Declaration>, id: Identity, dep: Identity)
    requires IsKnown(t) && id in t.declarations
    ensures var after := Require(t, ds);
            && HasSameContracts(t, after)
            && after.declarations[id].hasExternalConsumer == t.declarations[id].hasExternalConsumer
            && (dep in after.declarations[id].dependencies <==>
                  dep in t.declarations[id].dependencies ||
                  (IsMentionedBy(ds, t.bindings, id, dep) && dep in t.declarations &&
                   t.declarations[dep].moduleName == t.declarations[id].moduleName))
  {
    RequireKeepsKnown(t, ds);
    if ds != [] {
      var front, last := ds[..|ds| - 1], ds[|ds| - 1];
      RequireMeans(t, front, id, dep);
      RequireKeepsKnown(t, front);
      DependAllMeans(Require(t, front), last.id, last.mentions, id, dep);
      assert ds == front + [last];
      assert IsMentionedBy(ds, t.bindings, id, dep) <==>
             IsMentionedBy(front, t.bindings, id, dep) || (last.id == id && IsMentioned(last.mentions, t.bindings, dep));
    }
  }

  /** A declaration depends exactly on those of its module that its surface mentions. */
  lemma {:induction false} RequireFilesMeans(t: Tables, files: seq<SyntaxFile>, id: Identity, dep: Identity)
    requires IsKnown(t) && id in t.declarations
    ensures var after := RequireFiles(t, files);
            && HasSameContracts(t, after)
            && after.declarations[id].hasExternalConsumer == t.declarations[id].hasExternalConsumer
            && (dep in after.declarations[id].dependencies <==>
                  dep in t.declarations[id].dependencies ||
                  (IsRequiredBy(files, t.bindings, id, dep) && dep in t.declarations &&
                   t.declarations[dep].moduleName == t.declarations[id].moduleName))
  {
    RequireFilesKeepsKnown(t, files);
    if files != [] {
      var front, last := files[..|files| - 1], files[|files| - 1];
      RequireFilesMeans(t, front, id, dep);
      RequireFilesKeepsKnown(t, front);
      RequireMeans(RequireFiles(t, front), last.declarations, id, dep);
      assert files == front + [last];
      assert IsRequiredBy(files, t.bindings, id, dep) <==>
             IsRequiredBy(front, t.bindings, id, dep) || IsMentionedBy(last.declarations, t.bindings, id, dep);
    }
  }

  class ContractReferences {
    var declarations: map<Identity, Reference>
    var bindings: map<Identity, Identity>

    function State(): Tables
      reads this
    {
      Tables(declarations, bindings)
    }

    constructor ()
      ensures State() == Tables(map[], map[])
    {
      declarations, bindings := map[], map[];
    }

    method AddDeclarations(loaded: Package)
      modifies this
      ensures State() == RegisterFiles(old(State()), loaded.files)
    {
      for i := 0 to |loaded.files|
        invariant State() == RegisterFiles(old(State()), loaded.files[..i])
      {
        assert loaded.files[..i + 1][..i] == loaded.files[..i];
        var file := loaded.files[i];
        if IsContractFile(file) {
          AddFile(file.declarations, GetModuleName(file.path).value);
        }
      }
      assert loaded.files[..|loaded.files|] == loaded.files;
    }

    method AddFile(ds: seq<Declaration>, moduleName: string)
      modifies this
      ensures State() == RegisterAll(old(State()), ds, moduleName)
    {
      for k := 0 to |ds|
        invariant State() == RegisterAll(old(State()), ds[..k], moduleName)
      {
        assert ds[..k + 1][..k] == ds[..k];
        AddDeclaration(ds[k], moduleName);
      }
      assert ds[..|ds|] == ds;
    }

    /** The first declaration of an ID wins; the last binding of an object does. */
    method AddDeclaration(d: Declaration, moduleName: string)
      modifies this
      ensures State() == Register(old(State()), d, moduleName)
    {
      if d.id !in declarations {
        declarations := declarations[d.id := NewReference(d, moduleName)];
      }
      bindings := bindings[d.id := d.id];
      ghost var own := bindings;
      for k := 0 to |d.defines|
        invariant declarations == Register(old(State()), d, moduleName).declarations
        invariant bindings == Bind(own, d.defines[..k], d.id)
      {
        assert d.defines[..k + 1][..k] == d.defines[..k];
        bindings := bindings[d.defines[k] := d.id];
      }
      assert d.defines[..|d.defines|] == d.defines;
    }

    method AddReferences(loaded: Package)
      requires IsKnown(State())
      modifies this`declarations
      ensures State() == RequireFiles(MarkUses(old(State()), loaded.uses), loaded.files)
    {
      for i := 0 to |loaded.uses|
        invariant State() == MarkUses(old(State()), loaded.uses[..i]) && IsKnown(State())
      {
        assert loaded.uses[..i + 1][..i] == loaded.uses[..i];
        var use := loaded.uses[i];
        MarkUseKeepsKnown(State(), use);
        if use.target in bindings {
          var id := bindings[use.target];
          var r := declarations[id];
          if !HasPathPrefix(use.path, ModuleRoot(r.moduleName)) {
            declarations := declarations[id := r.(hasExternalConsumer := true)];
          }
        }
      }
      assert loaded.uses[..|loaded.uses|] == loaded.uses;
      ghost var marked := State();
      for i := 0 to |loaded.files|
        invariant State() == RequireFiles(marked, loaded.files[..i]) && IsKnown(State())
      {
        assert loaded.files[..i + 1][..i] == loaded.files[..i];
        AddSurfaces(loaded.files[i].declarations);
      }
      assert loaded.files[..|loaded.files|] == loaded.files;
    }

    method AddSurfaces(ds: seq<Declaration>)
      requires IsKnown(State())
      modifies this`declarations
      ensures State() == Require(old(State()), ds) && IsKnown(State())
    {
      for k := 0 to |ds|
        invariant State() == Require(old(State()), ds[..k]) && IsKnown(State())
      {
        assert ds[..k + 1][..k] == ds[..k];
        ghost var before := State();
        for n := 0 to |ds[k].mentions|
          invariant State() == DependAll(before, ds[k].id, ds[k].mentions[..n]) && IsKnown(State())
        {
          assert ds[k].mentions[..n + 1][..n] == ds[k].mentions[..n];
          DependKeepsKnown(State(), ds[k].id, ds[k].mentions[n]);
          AddDependency(ds[k].id, ds[k].mentions[n]);
        }
        assert ds[k].mentions[..|ds[k].mentions|] == ds[k].mentions;
      }
      assert ds[..|ds|] == ds;
    }

    method AddDependency(id: Identity, mention: Option<Identity>)
      requires IsKnown(State())
      modifies this`declarations
      ensures State() == Depend(old(State()), id, mention)
    {
      if id in declarations && mention.Some? && mention.value in bindings {
        var dep, r := bindings[mention.value], declarations[id];
        if declarations[dep].moduleName == r.moduleName {
          declarations := declarations[id := r.(dependencies := r.dependencies + {dep})];
        }
      }
    }

    /** The worklist: exactly the declarations that a chain of dependencies leads to from one that is
        consumed outside its module. */
    method GetConsumedDeclarations() returns (consumed: set<Identity>)
      requires IsKnown(State())
      ensures forall id :: id in consumed <==> IsRequiredByAConsumed(declarations, id)
    {
      consumed := {};
      var pending := GetExternallyConsumed(declarations);
      TheWorklistStarts(declarations, pending);
      while pending != []
        invariant IsWorklist(declarations, consumed, pending)
        decreases |declarations.Keys - consumed|, |pending|
      {
        var id := pending[|pending| - 1];
        var rest := pending[..|pending| - 1];
        APopKeepsTheRest(declarations, consumed, pending, rest, id);
        if id in consumed {
          pending := rest;
        } else {
          var pushed := PushAll(declarations[id].dependencies, rest);
          TheWorklistAdvances(declarations, consumed, rest, id, pushed);
          OneFewer(declarations.Keys, consumed, id);
          pending, consumed := pushed, consumed + {id};
        }
      }
      ClosedSetsHoldAllChains(declarations, consumed);
    }

    /** The rule: the candidates that no consumed declaration leads to. */
    method GetViolations() returns (violations: set<Identity>)
      requires IsKnown(State())
      ensures forall id :: id in violations <==>
                             id in declarations && declarations[id].isCandidate &&
                             !IsRequiredByAConsumed(declarations, id)
    {
      var consumed := GetConsumedDeclarations();
      violations := set id <- declarations.Keys | declarations[id].isCandidate && id !in consumed;
    }
  }

  // Everything consumed or pending is required, and nothing required has been forgotten.
  ghost predicate IsWorklist(declarations: map<Identity, Reference>, consumed: set<Identity>, pending: seq<Identity>) {
    && (forall id <- consumed :: id in declarations && IsRequiredByAConsumed(declarations, id))
    && (forall id <- pending :: id in declarations && IsRequiredByAConsumed(declarations, id))
    && IsClosedUpTo(declarations, consumed, pending)
  }

  lemma TheWorklistStarts(declarations: map<Identity, Reference>, pending: seq<Identity>)
    requires forall id :: id in pending <==> id in declarations && declarations[id].hasExternalConsumer
    ensures IsWorklist(declarations, {}, pending)
  {
    forall id <- pending
      ensures IsRequiredByAConsumed(declarations, id)
    {
      assert IsChain(declarations, [id]) && [id][|[id]| - 1] == id;
    }
  }

  lemma OneFewer(all: set<Identity>, consumed: set<Identity>, id: Identity)
    requires id in all && id !in consumed
    ensures |all - (consumed + {id})| < |all - consumed|
  {
    assert all - consumed == (all - (consumed + {id})) + {id};
  }

  lemma APopKeepsTheRest(declarations: map<Identity, Reference>, consumed: set<Identity>, pending: seq<Identity>,
                         rest: seq<Identity>, id: Identity)
    requires IsWorklist(declarations, consumed, pending) && pending == rest + [id]
    ensures id in declarations && (id in consumed ==> IsWorklist(declarations, consumed, rest))
  {
    assert forall other :: other in pending <==> other in rest || other == id;
  }

  lemma TheWorklistAdvances(declarations: map<Identity, Reference>, consumed: set<Identity>, rest: seq<Identity>,
                            id: Identity, pushed: seq<Identity>)
    requires DependenciesAreKnown(declarations) && IsWorklist(declarations, consumed, rest + [id])
    requires id in declarations
    requires forall other :: other in pushed <==> other in rest || other in declarations[id].dependencies
    ensures IsWorklist(declarations, consumed + {id}, pushed)
  {
    assert forall other :: other in rest + [id] <==> other in rest || other == id;
    forall dep <- declarations[id].dependencies
      ensures IsRequiredByAConsumed(declarations, dep)
    {
      AChainGrows(declarations, id, dep);
    }
  }

  /** checkModuleContractUsage over the loaded packages: all declarations first, then all references. The
      violations are the declared candidates that no chain of mentions leads to from one that is used outside
      its module, whichever packages the uses and the mentions are in. */
  method CheckModuleContractUsage(packages: seq<Package>)
    returns (references: ContractReferences, violations: set<Identity>)
    ensures IsKnown(references.State())
    ensures references.State() == ReferenceAll(DeclareAll(Tables(map[], map[]), packages), packages)
    ensures forall id :: id in violations <==>
                           id in references.declarations && references.declarations[id].isCandidate &&
                           !IsRequiredByAConsumed(references.declarations, id)
    ensures var declared := DeclareAll(Tables(map[], map[]), packages);
            forall id :: id in violations <==>
                           id in declared.declarations && declared.declarations[id].isCandidate &&
                           !IsRequiredByAUse(declared, packages, id)
  {
    references := new ContractReferences();
    for i := 0 to |packages|
      invariant references.State() == DeclareAll(Tables(map[], map[]), packages[..i]) && IsKnown(references.State())
      invariant fresh(references)
    {
      assert packages[..i + 1][..i] == packages[..i];
      RegisterFilesGains(references.State(), packages[i].files, 0);
      references.AddDeclarations(packages[i]);
    }
    assert packages[..|packages|] == packages;
    ghost var declared := references.State();
    for i := 0 to |packages|
      invariant references.State() == ReferenceAll(declared, packages[..i]) && IsKnown(references.State())
      invariant fresh(references)
    {
      assert packages[..i + 1][..i] == packages[..i];
      ReferencingKeepsKnown(references.State(), packages[i]);
      references.AddReferences(packages[i]);
    }
    assert packages[..|packages|] == packages;
    violations := references.GetViolations();
    TheConsumedAreTheRequired(packages, declared, references.State());
  }

  function DeclareAll(t: Tables, packages: seq<Package>): Tables {
    if packages == [] then t
    else RegisterFiles(DeclareAll(t, packages[..|packages| - 1]), packages[|packages| - 1].files)
  }

  function ReferencePackage(t: Tables, loaded: Package): Tables {
    RequireFiles(MarkUses(t, loaded.uses), loaded.files)
  }

  function ReferenceAll(t: Tables, packages: seq<Package>): Tables {
    if packages == [] then t else ReferencePackage(ReferenceAll(t, packages[..|packages| - 1]), packages[|packages| - 1])
  }

  lemma ReferencingKeepsKnown(t: Tables, loaded: Package)
    requires IsKnown(t)
    ensures IsKnown(ReferencePackage(t, loaded)) && HasSameContracts(t, ReferencePackage(t, loaded))
  {
    MarkUsesKeepKnown(t, loaded.uses);
    RequireFilesKeepsKnown(MarkUses(t, loaded.uses), loaded.files);
  }

  // ----- the tables over all packages -----

  predicate IsDeclaredInAny(packages: seq<Package>, id: Identity) {
    exists p <- packages :: IsDeclared(p.files, id)
  }

  predicate IsUsedInAny(packages: seq<Package>, bindings: map<Identity, Identity>, id: Identity, moduleName: string) {
    exists p <- packages :: IsUsedOutside(p.uses, bindings, id, moduleName)
  }

  predicate IsRequiredInAny(packages: seq<Package>, bindings: map<Identity, Identity>, id: Identity, dep: Identity) {
    exists p <- packages :: IsRequiredBy(p.files, bindings, id, dep)
  }

  /** The packages together declare what any of their contract files declares, with nothing recorded yet. */
  lemma {:induction false} DeclareAllGains(t: Tables, packages: seq<Package>, id: Identity)
    requires IsKnown(t)
    ensures IsKnown(DeclareAll(t, packages)) && Gains(t, DeclareAll(t, packages), id, IsDeclaredInAny(packages, id))
  {
    if packages != [] {
      var front, last := packages[..|packages| - 1], packages[|packages| - 1];
      var before := DeclareAll(t, front);
      DeclareAllGains(t, front, id);
      RegisterFilesGains(before, last.files, id);
      GainsAddUp(t, before, RegisterFiles(before, last.files), id,
                 IsDeclaredInAny(front, id), IsDeclared(last.files, id));
      assert packages == front + [last];
    }
  }

  // A step of the references of one declaration, by one package.
  ghost predicate Refers(t: Tables, after: Tables, id: Identity, dep: Identity, isUsed: bool, isRequired: bool)
    requires id in t.declarations
  {
    && HasSameContracts(t, after)
    && (after.declarations[id].hasExternalConsumer <==> t.declarations[id].hasExternalConsumer || isUsed)
    && (dep in after.declarations[id].dependencies <==>
          dep in t.declarations[id].dependencies ||
          (isRequired && dep in t.declarations && t.declarations[dep].moduleName == t.declarations[id].moduleName))
  }

  lemma RefersAddUp(t: Tables, middle: Tables, after: Tables, id: Identity, dep: Identity, isUsed: bool,
                    isUsedLater: bool, isRequired: bool, isRequiredLater: bool)
    requires id in t.declarations && Refers(t, middle, id, dep, isUsed, isRequired)
    requires id in middle.declarations && Refers(middle, after, id, dep, isUsedLater, isRequiredLater)
    ensures Refers(t, after, id, dep, isUsed || isUsedLater, isRequired || isRequiredLater)
  {
  }

  lemma ReferenceRefers(t: Tables, loaded: Package, id: Identity, dep: Identity)
    requires IsKnown(t) && id in t.declarations
    ensures Refers(t, ReferencePackage(t, loaded), id, dep,
                   IsUsedOutside(loaded.uses, t.bindings, id, t.declarations[id].moduleName),
                   IsRequiredBy(loaded.files, t.bindings, id, dep))
  {
    MarkUsesKeepKnown(t, loaded.uses);
    MarkUsesMeans(t, loaded.uses, id);
    RequireFilesMeans(MarkUses(t, loaded.uses), loaded.files, id, dep);
  }

  /** Over all packages a declaration is consumed exactly when one of them uses it from outside its module, and
      depends exactly on those of its module that its surface mentions in one of them. */
  lemma {:induction false} ReferenceAllRefers(t: Tables, packages: seq<Package>, id: Identity, dep: Identity)
    requires IsKnown(t) && id in t.declarations
    ensures IsKnown(ReferenceAll(t, packages))
    ensures Refers(t, ReferenceAll(t, packages), id, dep,
                   IsUsedInAny(packages, t.bindings, id, t.declarations[id].moduleName),
                   IsRequiredInAny(packages, t.bindings, id, dep))
  {
    if packages != [] {
      var front, last := packages[..|packages| - 1], packages[|packages| - 1];
      var before, name := ReferenceAll(t, front), t.declarations[id].moduleName;
      ReferenceAllRefers(t, front, id, dep);
      ReferencingKeepsKnown(before, last);
      ReferenceRefers(before, last, id, dep);
      RefersAddUp(t, before, ReferencePackage(before, last), id, dep,
                  IsUsedInAny(front, t.bindings, id, name), IsUsedOutside(last.uses, t.bindings, id, name),
                  IsRequiredInAny(front, t.bindings, id, dep), IsRequiredBy(last.files, t.bindings, id, dep));
      InOneMorePackage(front, last, t.bindings, id, dep, name);
      assert packages == front + [last];
    }
  }

  lemma InOneMorePackage(packages: seq<Package>, last: Package, bindings: map<Identity, Identity>, id: Identity,
                         dep: Identity, name: string)
    ensures IsUsedInAny(packages + [last], bindings, id, name) <==>
              IsUsedInAny(packages, bindings, id, name) || IsUsedOutside(last.uses, bindings, id, name)
    ensures IsRequiredInAny(packages + [last], bindings, id, dep) <==>
              IsRequiredInAny(packages, bindings, id, dep) || IsRequiredBy(last.files, bindings, id, dep)
  {
    assert forall p :: p in packages + [last] <==> p in packages || p == last;
  }

  /** A chain of mentions within one module that starts at a declaration used outside it. */
  ghost predicate IsUseChain(t: Tables, packages: seq<Package>, chain: seq<Identity>) {
    && chain != [] && (forall id <- chain :: id in t.declarations)
    && IsUsedInAny(packages, t.bindings, chain[0], t.declarations[chain[0]].moduleName)
    && forall i :: 0 <= i < |chain| - 1 ==> IsLink(t, packages, chain[i], chain[i + 1])
  }

  predicate IsLink(t: Tables, packages: seq<Package>, id: Identity, dep: Identity)
    requires id in t.declarations && dep in t.declarations
  {
    t.declarations[dep].moduleName == t.declarations[id].moduleName && IsRequiredInAny(packages, t.bindings, id, dep)
  }

  ghost predicate IsRequiredByAUse(t: Tables, packages: seq<Package>, id: Identity) {
    exists chain :: IsUseChain(t, packages, chain) && chain[|chain| - 1] == id
  }

  lemma ADeclarationStartsBlank(packages: seq<Package>, declared: Tables, id: Identity)
    requires declared == DeclareAll(Tables(map[], map[]), packages)
    ensures IsKnown(declared)
    ensures id in declared.declarations ==>
              !declared.declarations[id].hasExternalConsumer && declared.declarations[id].dependencies == {}
  {
    DeclareAllGains(Tables(map[], map[]), packages, id);
  }

  lemma ALinkIsADependency(packages: seq<Package>, declared: Tables, after: Tables, id: Identity, dep: Identity)
    requires declared == DeclareAll(Tables(map[], map[]), packages) && after == ReferenceAll(declared, packages)
    requires id in declared.declarations
    ensures HasSameContracts(declared, after)
    ensures after.declarations[id].hasExternalConsumer <==>
              IsUsedInAny(packages, declared.bindings, id, declared.declarations[id].moduleName)
    ensures dep in after.declarations[id].dependencies <==>
              dep in declared.declarations && IsLink(declared, packages, id, dep)
  {
    ADeclarationStartsBlank(packages, declared, id);
    ReferenceAllRefers(declared, packages, id, dep);
  }

  lemma TheChainsAreTheUseChains(packages: seq<Package>, declared: Tables, after: Tables, chain: seq<Identity>)
    requires declared == DeclareAll(Tables(map[], map[]), packages) && after == ReferenceAll(declared, packages)
    requires after.declarations.Keys == declared.declarations.Keys
    ensures IsChain(after.declarations, chain) <==> IsUseChain(declared, packages, chain)
  {
    if chain != [] && forall id <- chain :: id in declared.declarations {
      ALinkIsADependency(packages, declared, after, chain[0], chain[0]);
      forall i | 0 <= i < |chain| - 1
        ensures chain[i + 1] in after.declarations[chain[i]].dependencies <==>
                  IsLink(declared, packages, chain[i], chain[i + 1])
      {
        ALinkIsADependency(packages, declared, after, chain[i], chain[i + 1]);
      }
    }
  }

  lemma {:induction false} ReferencingAllKeepsContracts(t: Tables, packages: seq<Package>)
    requires IsKnown(t)
    ensures IsKnown(ReferenceAll(t, packages)) && HasSameContracts(t, ReferenceAll(t, packages))
  {
    if packages != [] {
      ReferencingAllKeepsContracts(t, packages[..|packages| - 1]);
      ReferencingKeepsKnown(ReferenceAll(t, packages[..|packages| - 1]), packages[|packages| - 1]);
    }
  }

  /** What the worklist consumes is what a chain of mentions leads to from a use outside the module. */
  lemma TheConsumedAreTheRequired(packages: seq<Package>, declared: Tables, after: Tables)
    requires declared == DeclareAll(Tables(map[], map[]), packages) && after == ReferenceAll(declared, packages)
    ensures HasSameContracts(declared, after)
    ensures forall id :: IsRequiredByAConsumed(after.declarations, id) <==> IsRequiredByAUse(declared, packages, id)
  {
    ADeclarationStartsBlank(packages, declared, 0);
    ReferencingAllKeepsContracts(declared, packages);
    forall chain
      ensures IsChain(after.declarations, chain) <==> IsUseChain(declared, packages, chain)
    {
      TheChainsAreTheUseChains(packages, declared, after, chain);
    }
  }

  /** The start of the worklist, in any order. */
  method GetExternallyConsumed(declarations: map<Identity, Reference>) returns (ids: seq<Identity>)
    ensures forall id :: id in ids <==> id in declarations && declarations[id].hasExternalConsumer
  {
    ids := [];
    var rest := declarations.Keys;
    while rest != {}
      invariant rest <= declarations.Keys
      invariant forall id :: id in ids <==> id in declarations && id !in rest && declarations[id].hasExternalConsumer
      decreases |rest|
    {
      var id :| id in rest;
      rest := rest - {id};
      if declarations[id].hasExternalConsumer {
        ids := ids + [id];
      }
    }
  }

  /** Pushes the dependencies of a declaration, in any order. */
  method PushAll(dependencies: set<Identity>, pending: seq<Identity>) returns (pushed: seq<Identity>)
    ensures forall other :: other in pushed <==> other in pending || other in dependencies
  {
    pushed := pending;
    var rest := dependencies;
    while rest != {}
      invariant rest <= dependencies
      invariant forall other :: other in pushed <==> other in pending || other in dependencies - rest
      decreases |rest|
    {
      var dep :| dep in rest;
      pushed := pushed + [dep];
      rest := rest - {dep};
    }
  }

  // ----- the meaning of the rule -----

  /** A chain of dependencies that starts at a declaration consumed outside its module. */
  ghost predicate IsChain(declarations: map<Identity, Reference>, chain: seq<Identity>) {
    && chain != [] && (forall id <- chain :: id in declarations)
    && declarations[chain[0]].hasExternalConsumer
    && forall i :: 0 <= i < |chain| - 1 ==> chain[i + 1] in declarations[chain[i]].dependencies
  }

  ghost predicate IsRequiredByAConsumed(declarations: map<Identity, Reference>, id: Identity) {
    exists chain :: IsChain(declarations, chain) && chain[|chain| - 1] == id
  }

  lemma AChainGrows(declarations: map<Identity, Reference>, id: Identity, dep: Identity)
    requires DependenciesAreKnown(declarations) && IsRequiredByAConsumed(declarations, id)
    requires id in declarations && dep in declarations[id].dependencies
    ensures IsRequiredByAConsumed(declarations, dep)
  {
    var chain :| IsChain(declarations, chain) && chain[|chain| - 1] == id;
    var longer := chain + [dep];
    assert forall i :: 0 <= i < |longer| - 1 ==> longer[i] == chain[i];
    assert IsChain(declarations, longer) && longer[|longer| - 1] == dep;
  }

  ghost predicate IsClosedUpTo(declarations: map<Identity, Reference>, ids: set<Identity>, pending: seq<Identity>) {
    && (forall id <- declarations :: declarations[id].hasExternalConsumer ==> id in ids || id in pending)
    && (forall id, dep :: id in ids && id in declarations && dep in declarations[id].dependencies ==>
                            dep in ids || dep in pending)
  }

  /** Holds every externally consumed declaration and is closed under dependencies. */
  ghost predicate IsClosed(declarations: map<Identity, Reference>, ids: set<Identity>) {
    IsClosedUpTo(declarations, ids, [])
  }

  /** The consumed declarations lie in every closed set, and are one: they are the least. */
  lemma ClosedSetsHoldAllChains(declarations: map<Identity, Reference>, ids: set<Identity>)
    requires IsClosed(declarations, ids)
    ensures forall id :: IsRequiredByAConsumed(declarations, id) ==> id in ids
  {
    forall id | IsRequiredByAConsumed(declarations, id)
      ensures id in ids
    {
      var chain :| IsChain(declarations, chain) && chain[|chain| - 1] == id;
      for i := 0 to |chain| - 1
        invariant chain[i] in ids
      {
      }
    }
  }

  lemma TheConsumedAreClosed(declarations: map<Identity, Reference>, consumed: set<Identity>)
    requires DependenciesAreKnown(declarations)
    requires forall id :: id in consumed <==> IsRequiredByAConsumed(declarations, id)
    ensures IsClosed(declarations, consumed)
  {
    forall id <- declarations | declarations[id].hasExternalConsumer
      ensures id in consumed
    {
      assert IsChain(declarations, [id]);
    }
    forall id <- consumed, dep | id in declarations && dep in declarations[id].dependencies
      ensures dep in consumed
    {
      AChainGrows(declarations, id, dep);
    }
  }
}
