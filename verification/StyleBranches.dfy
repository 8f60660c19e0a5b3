/**
The style linter's branch analysis: every text an expression may contribute to a style, over the syntax
nodes of a program whose names lead to initializers elsewhere, possibly in a cycle.
*/
module StyleBranches {
  import opened Options

  type NodeId = nat

  /** What the analysis distinguishes. A wrapper is a parenthesis, a cast or a JSX expression, which may be
      empty; a name has the initializers of the declarations that it resolves to. */
  datatype Syntax =
    | Text(text: string)
    | Void
    | Wrapper(inner: Option<NodeId>)
    | Conditional(whenTrue: NodeId, whenFalse: NodeId)
    | Name(initializers: seq<NodeId>)
    | AndAlso(right: NodeId)
    | OrElse(left: NodeId, right: NodeId)
    | Template(head: string, spans: seq<NodeId>)
    | Other(children: seq<NodeId>)

  type Program = map<NodeId, Syntax>

  type Branch = seq<string>

  // ----- the specification function of the analysis -----

  /** All ways to append an alternative to a branch. */
  function Combine(branches: seq<Branch>, alternatives: seq<Branch>): (r: seq<Branch>) {
    if branches == [] then [] else Extensions(branches[0], alternatives) + Combine(branches[1..], alternatives)
  }

  function Extensions(branch: Branch, alternatives: seq<Branch>): seq<Branch> {
    if alternatives == [] then [] else [branch + alternatives[0]] + Extensions(branch, alternatives[1..])
  }

  /** `visited` holds the nodes on the way down to this one; to meet one again contributes nothing. */
  function Branches(g: Program, n: NodeId, visited: set<NodeId>): (r: seq<Branch>)
    ensures r != []
    decreases |g.Keys - visited|, 0
  {
    if n !in g || n in visited then [[]]
    else
      var seen := visited + {n};
      OneFewerToVisit(g, n, visited);
      match g[n]
      case Text(text) => [[text]]
      case Void => [[]]
      case Wrapper(inner) => if inner.Some? then Branches(g, inner.value, seen) else [[]]
      case Conditional(whenTrue, whenFalse) => Branches(g, whenTrue, seen) + Branches(g, whenFalse, seen)
      case Name(initializers) => if initializers == [] then [[]] else Union(g, initializers, seen)
      case AndAlso(right) => Branches(g, right, seen) + [[]]
      case OrElse(left, right) => Branches(g, left, seen) + Branches(g, right, seen)
      case Template(head, spans) => Product(g, [[head]], spans, seen)
      case Other(children) => Product(g, [[]], children, seen)
  }

  function Union(g: Program, nodes: seq<NodeId>, seen: set<NodeId>): (r: seq<Branch>)
    ensures nodes != [] ==> r != []
    decreases |g.Keys - seen|, |nodes| + 1
  {
    if nodes == [] then [] else Branches(g, nodes[0], seen) + Union(g, nodes[1..], seen)
  }

  function Product(g: Program, branches: seq<Branch>, nodes: seq<NodeId>, seen: set<NodeId>): (r: seq<Branch>)
    ensures branches != [] ==> r != []
    decreases |g.Keys - seen|, |nodes| + 1
  {
    if nodes == [] then branches
    else
      var alternatives := Branches(g, nodes[0], seen);
      CombineIsProduct(branches, alternatives);
      Product(g, Combine(branches, alternatives), nodes[1..], seen)
  }

  lemma OneFewerToVisit(g: Program, n: NodeId, visited: set<NodeId>)
    requires n in g && n !in visited
    ensures |g.Keys - (visited + {n})| < |g.Keys - visited|
  {
    assert g.Keys - visited == (g.Keys - (visited + {n})) + {n};
  }

  lemma {:induction false} ExtensionsAre(branch: Branch, alternatives: seq<Branch>)
    ensures |Extensions(branch, alternatives)| == |alternatives|
    ensures forall k :: 0 <= k < |alternatives| ==> Extensions(branch, alternatives)[k] == branch + alternatives[k]
  {
    if alternatives != [] {
      ExtensionsAre(branch, alternatives[1..]);
    }
  }

  /** Combine pairs every branch with every alternative. */
  lemma {:induction false} CombineIsProduct(branches: seq<Branch>, alternatives: seq<Branch>)
    ensures branches != [] && alternatives != [] ==> Combine(branches, alternatives) != []
    ensures forall t :: t in Combine(branches, alternatives) <==>
                          exists b <- branches, a <- alternatives :: t == b + a
  {
    if branches != [] {
      var rest := branches[1..];
      CombineIsProduct(rest, alternatives);
      ExtensionsAre(branches[0], alternatives);
      assert forall b :: b in branches <==> b == branches[0] || b in rest;
      forall t
        ensures t in Combine(branches, alternatives) <==> exists b <- branches, a <- alternatives :: t == b + a
      {
        if t in Extensions(branches[0], alternatives) {
          var k :| 0 <= k < |alternatives| && Extensions(branches[0], alternatives)[k] == t;
          assert alternatives[k] in alternatives && t == branches[0] + alternatives[k];
        }
        if b, a :| b in branches && a in alternatives && t == b + a {
          var k :| 0 <= k < |alternatives| && alternatives[k] == a;
          assert b == branches[0] ==> Extensions(branches[0], alternatives)[k] == t;
        }
      }
    }
  }

  // ----- the analysis as the linter runs it -----

  /** getStyleExpressionBranches: every call gets its own copy of the visited nodes, except the last call
      of a wrapper, after which the set is no longer looked at. */
  method GetStyleExpressionBranches(g: Program, n: NodeId, visited: set<NodeId>) returns (branches: seq<Branch>)
    ensures branches == Branches(g, n, visited)
    decreases |g.Keys - visited|, 0
  {
    if n !in g || n in visited {
      return [[]];
    }
    var seen := visited + {n};
    OneFewerToVisit(g, n, visited);
    match g[n] {
      case Text(text) => return [[text]];
      case Void => return [[]];
      case Wrapper(inner) =>
        if inner.None? {
          return [[]];
        }
        branches := GetStyleExpressionBranches(g, inner.value, seen);
      case Conditional(whenTrue, whenFalse) =>
        var first := GetStyleExpressionBranches(g, whenTrue, seen);
        var second := GetStyleExpressionBranches(g, whenFalse, seen);
        branches := first + second;
      case Name(initializers) =>
        if initializers == [] {
          return [[]];
        }
        branches := [];
        for k := 0 to |initializers|
          invariant branches + Union(g, initializers[k..], seen) == Union(g, initializers, seen)
        {
          assert initializers[k..][1..] == initializers[k + 1..];
          var more := GetStyleExpressionBranches(g, initializers[k], seen);
          branches := branches + more;
        }
      case AndAlso(right) =>
        var first := GetStyleExpressionBranches(g, right, seen);
        branches := first + [[]];
      case OrElse(left, right) =>
        var first := GetStyleExpressionBranches(g, left, seen);
        var second := GetStyleExpressionBranches(g, right, seen);
        branches := first + second;
      case Template(head, spans) => branches := CombineChildren(g, [[head]], spans, seen);
      case Other(children) => branches := CombineChildren(g, [[]], children, seen);
    }
  }

  method CombineChildren(g: Program, start: seq<Branch>, nodes: seq<NodeId>, seen: set<NodeId>)
    returns (branches: seq<Branch>)
    ensures branches == Product(g, start, nodes, seen)
    decreases |g.Keys - seen|, 1
  {
    branches := start;
    for k := 0 to |nodes|
      invariant Product(g, branches, nodes[k..], seen) == Product(g, start, nodes, seen)
    {
      assert nodes[k..][1..] == nodes[k + 1..];
      var alternatives := GetStyleExpressionBranches(g, nodes[k], seen);
      branches := Combine(branches, alternatives);
    }
  }

  // ----- what it should return: the texts of all runs -----

  /** One independent choice for every decision that an evaluation meets. */
  datatype Run =
    | Done
    | Through(run: Run)
    | First(run: Run)
    | Second(run: Run)
    | Initializer(index: nat, run: Run)
    | Each(runs: seq<Run>)

  /** The static text that the expression contributes when its decisions come out as in the run; None when
      the run does not fit the expression. */
  function Evaluate(g: Program, n: NodeId, run: Run): Option<Branch>
    decreases run, 1
  {
    if n !in g then if run.Done? then Some([]) else None
    else
      match g[n]
      case Text(text) => if run.Done? then Some([text]) else None
      case Void => if run.Done? then Some([]) else None
      case Wrapper(inner) =>
        if inner.None? && run.Done? then Some([])
        else if inner.Some? && run.Through? then Evaluate(g, inner.value, run.run)
        else None
      case Conditional(whenTrue, whenFalse) =>
        if run.First? then Evaluate(g, whenTrue, run.run)
        else if run.Second? then Evaluate(g, whenFalse, run.run)
        else None
      case Name(initializers) =>
        if initializers == [] && run.Done? then Some([])
        else if run.Initializer? && run.index < |initializers| then Evaluate(g, initializers[run.index], run.run)
        else None
      case AndAlso(right) =>
        if run.Second? then Evaluate(g, right, run.run) else if run.Done? then Some([]) else None
      case OrElse(left, right) =>
        if run.First? then Evaluate(g, left, run.run)
        else if run.Second? then Evaluate(g, right, run.run)
        else None
      case Template(head, spans) => if run.Each? then EvaluateAll(g, [head], spans, run.runs) else None
      case Other(children) => if run.Each? then EvaluateAll(g, [], children, run.runs) else None
  }

  function EvaluateAll(g: Program, prefix: Branch, nodes: seq<NodeId>, runs: seq<Run>): Option<Branch>
    decreases runs, 0
  {
    if nodes == [] && runs == [] then Some(prefix)
    else if nodes == [] || runs == [] then None
    else
      var first := Evaluate(g, nodes[0], runs[0]);
      if first.None? then None else EvaluateAll(g, prefix + first.value, nodes[1..], runs[1..])
  }

  function Children(s: Syntax): seq<NodeId> {
    match s
    case Text(_) => []
    case Void => []
    case Wrapper(inner) => if inner.Some? then [inner.value] else []
    case Conditional(whenTrue, whenFalse) => [whenTrue, whenFalse]
    case Name(initializers) => initializers
    case AndAlso(right) => [right]
    case OrElse(left, right) => [left, right]
    case Template(_, spans) => spans
    case Other(children) => children
  }

  /** Every step to a child or an initializer lowers the rank, so the program has no cycle. */
  ghost predicate IsAcyclic(g: Program, rank: map<NodeId, nat>) {
    && g.Keys <= rank.Keys
    && forall n <- g, c <- Children(g[n]) :: c in g ==> rank[c] < rank[n]
  }

  // No node on the way down can be met again at or below n.
  ghost predicate IsBelow(g: Program, rank: map<NodeId, nat>, n: NodeId, visited: set<NodeId>) {
    n in g && n in rank ==> forall v <- visited :: v in rank && v in g ==> rank[n] < rank[v]
  }

  ghost predicate AreBelow(g: Program, rank: map<NodeId, nat>, nodes: seq<NodeId>, visited: set<NodeId>) {
    forall n <- nodes :: IsBelow(g, rank, n, visited)
  }

  lemma ChildrenAreBelow(g: Program, rank: map<NodeId, nat>, n: NodeId, visited: set<NodeId>)
    requires IsAcyclic(g, rank) && IsBelow(g, rank, n, visited) && n in g
    ensures n !in visited && AreBelow(g, rank, Children(g[n]), visited + {n})
  {
  }

  // ----- the analysis finds nothing else -----

  lemma {:induction false} ABranchHasARun(g: Program, rank: map<NodeId, nat>, n: NodeId, visited: set<NodeId>, t: Branch)
    returns (run: Run)
    requires IsAcyclic(g, rank) && IsBelow(g, rank, n, visited) && t in Branches(g, n, visited)
    ensures Evaluate(g, n, run) == Some(t)
    decreases |g.Keys - visited|, 0
  {
    run := Done;
    if n in g {
      ChildrenAreBelow(g, rank, n, visited);
      OneFewerToVisit(g, n, visited);
      var seen := visited + {n};
      match g[n] {
        case Text(_) =>
        case Void =>
        case Wrapper(inner) =>
          if inner.Some? {
            var r := ABranchHasARun(g, rank, inner.value, seen, t);
            run := Through(r);
          }
        case Conditional(whenTrue, whenFalse) => run := AChoiceHasARun(g, rank, whenTrue, whenFalse, seen, t);
        case AndAlso(right) =>
          if t in Branches(g, right, seen) {
            var r := ABranchHasARun(g, rank, right, seen, t);
            run := Second(r);
          }
        case OrElse(left, right) => run := AChoiceHasARun(g, rank, left, right, seen, t);
        case _ => run := AListHasARun(g, rank, n, seen, t);
      }
    }
  }

  lemma {:induction false} AListHasARun(g: Program, rank: map<NodeId, nat>, n: NodeId, seen: set<NodeId>, t: Branch)
    returns (run: Run)
    requires IsAcyclic(g, rank) && n in g && AreBelow(g, rank, Children(g[n]), seen)
    requires match g[n]
             case Name(initializers) => t in (if initializers == [] then [[]] else Union(g, initializers, seen))
             case Template(head, spans) => t in Product(g, [[head]], spans, seen)
             case Other(children) => t in Product(g, [[]], children, seen)
             case _ => false
    ensures Evaluate(g, n, run) == Some(t)
    decreases |g.Keys - seen|, |Children(g[n])| + 2
  {
    match g[n]
    case Name(initializers) =>
      run := Done;
      if initializers != [] {
        run := AnInitializerHasARun(g, rank, initializers, seen, t);
      }
    case Template(head, spans) =>
      var start, runs := AProductHasRuns(g, rank, [[head]], spans, seen, t);
      run := Each(runs);
    case Other(children) =>
      var start, runs := AProductHasRuns(g, rank, [[]], children, seen, t);
      run := Each(runs);
    case _ =>
  }

  lemma {:induction false} AChoiceHasARun(
    g: Program, rank: map<NodeId, nat>, left: NodeId, right: NodeId, seen: set<NodeId>, t: Branch) returns (run: Run)
    requires IsAcyclic(g, rank) && AreBelow(g, rank, [left, right], seen)
    requires t in Branches(g, left, seen) + Branches(g, right, seen)
    ensures (run.First? && Evaluate(g, left, run.run) == Some(t)) || (run.Second? && Evaluate(g, right, run.run) == Some(t))
    decreases |g.Keys - seen|, 1
  {
    assert left in [left, right] && right in [left, right];
    if t in Branches(g, left, seen) {
      var r := ABranchHasARun(g, rank, left, seen, t);
      run := First(r);
    } else {
      var r := ABranchHasARun(g, rank, right, seen, t);
      run := Second(r);
    }
  }

  lemma {:induction false} AnInitializerHasARun(
    g: Program, rank: map<NodeId, nat>, nodes: seq<NodeId>, seen: set<NodeId>, t: Branch) returns (run: Run)
    requires IsAcyclic(g, rank) && AreBelow(g, rank, nodes, seen) && t in Union(g, nodes, seen)
    ensures run.Initializer? && run.index < |nodes| && Evaluate(g, nodes[run.index], run.run) == Some(t)
    decreases |g.Keys - seen|, |nodes| + 1
  {
    if t in Branches(g, nodes[0], seen) {
      var r := ABranchHasARun(g, rank, nodes[0], seen, t);
      run := Initializer(0, r);
    } else {
      var r := AnInitializerHasARun(g, rank, nodes[1..], seen, t);
      run := Initializer(r.index + 1, r.run);
    }
  }

  lemma {:induction false} AProductHasRuns(
    g: Program, rank: map<NodeId, nat>, branches: seq<Branch>, nodes: seq<NodeId>, seen: set<NodeId>, t: Branch)
    returns (start: Branch, runs: seq<Run>)
    requires IsAcyclic(g, rank) && AreBelow(g, rank, nodes, seen) && t in Product(g, branches, nodes, seen)
    ensures start in branches && EvaluateAll(g, start, nodes, runs) == Some(t)
    decreases |g.Keys - seen|, |nodes| + 1
  {
    if nodes == [] {
      start, runs := t, [];
    } else {
      var alternatives := Branches(g, nodes[0], seen);
      var middle, rest := AProductHasRuns(g, rank, Combine(branches, alternatives), nodes[1..], seen, t);
      CombineIsProduct(branches, alternatives);
      var b, a :| b in branches && a in alternatives && middle == b + a;
      var r := ABranchHasARun(g, rank, nodes[0], seen, a);
      start, runs := b, [r] + rest;
      assert runs[1..] == rest;
    }
  }

  // ----- and it misses nothing -----

  lemma {:induction false} ARunIsABranch(g: Program, rank: map<NodeId, nat>, n: NodeId, visited: set<NodeId>, run: Run)
    requires IsAcyclic(g, rank) && IsBelow(g, rank, n, visited) && Evaluate(g, n, run).Some?
    ensures Evaluate(g, n, run).value in Branches(g, n, visited)
    decreases run, 1
  {
    if n in g {
      ChildrenAreBelow(g, rank, n, visited);
      var seen := visited + {n};
      assert forall c <- Children(g[n]) :: IsBelow(g, rank, c, seen);
      match g[n] {
        case Text(_) =>
        case Void =>
        case Wrapper(inner) => if inner.Some? { ARunIsABranch(g, rank, inner.value, seen, run.run); }
        case Conditional(whenTrue, whenFalse) =>
          ARunIsABranch(g, rank, if run.First? then whenTrue else whenFalse, seen, run.run);
        case Name(initializers) =>
          if initializers != [] {
            ARunIsABranch(g, rank, initializers[run.index], seen, run.run);
            UnionHolds(g, initializers, seen, run.index);
          }
        case AndAlso(right) => if run.Second? { ARunIsABranch(g, rank, right, seen, run.run); }
        case OrElse(left, right) => ARunIsABranch(g, rank, if run.First? then left else right, seen, run.run);
        case Template(head, spans) => RunsAreAProduct(g, rank, [[head]], [head], spans, seen, run.runs);
        case Other(children) => RunsAreAProduct(g, rank, [[]], [], children, seen, run.runs);
      }
    }
  }

  lemma {:induction false} UnionHolds(g: Program, nodes: seq<NodeId>, seen: set<NodeId>, k: nat)
    requires k < |nodes|
    ensures forall t <- Branches(g, nodes[k], seen) :: t in Union(g, nodes, seen)
  {
    if k > 0 {
      UnionHolds(g, nodes[1..], seen, k - 1);
    }
  }

  lemma {:induction false} RunsAreAProduct(
    g: Program, rank: map<NodeId, nat>, branches: seq<Branch>, start: Branch, nodes: seq<NodeId>, seen: set<NodeId>,
    runs: seq<Run>)
    requires IsAcyclic(g, rank) && AreBelow(g, rank, nodes, seen)
    requires start in branches && EvaluateAll(g, start, nodes, runs).Some?
    ensures EvaluateAll(g, start, nodes, runs).value in Product(g, branches, nodes, seen)
    decreases runs, 0
  {
    if nodes != [] {
      var alternatives := Branches(g, nodes[0], seen);
      ARunIsABranch(g, rank, nodes[0], seen, runs[0]);
      CombineIsProduct(branches, alternatives);
      var a := Evaluate(g, nodes[0], runs[0]).value;
      RunsAreAProduct(g, rank, Combine(branches, alternatives), start + a, nodes[1..], seen, runs[1..]);
    }
  }

  /** In a program without cycles the analysis returns exactly the texts of all runs. */
  lemma BranchesAreExactlyTheRuns(g: Program, rank: map<NodeId, nat>, n: NodeId, t: Branch)
    requires IsAcyclic(g, rank)
    ensures t in Branches(g, n, {}) <==> exists run :: Evaluate(g, n, run) == Some(t)
  {
    if t in Branches(g, n, {}) {
      var run := ABranchHasARun(g, rank, n, {}, t);
    }
    if run :| Evaluate(g, n, run) == Some(t) {
      ARunIsABranch(g, rank, n, {}, run);
    }
  }

  /** A name that is its own initializer has no run, and the analysis lets it contribute nothing. */
  lemma {:induction false} ACycleContributesNothing(n: NodeId, run: Run)
    ensures Branches(map[n := Name([n])], n, {}) == [[]]
    ensures Evaluate(map[n := Name([n])], n, run) == None
    decreases run
  {
    var g: Program := map[n := Name([n])];
    assert {} + {n} == {n} && [n][1..] == [];
    assert Union(g, [n], {n}) == Branches(g, n, {n}) + Union(g, [], {n});
    assert Branches(g, n, {n}) == [[]];
    if run.Initializer? {
      ACycleContributesNothing(n, run.run);
    }
  }
}
