/**
The focus-visibility lint: whether an element keeps a visible focus style for every combination of the
values its style assignments may take. Reading a CSS value is left to the functions of `Css`.
*/
module FocusCascade {
  import opened Options

  datatype Property = Outline | OutlineWidth | OutlineStyle | OutlineColor | BoxShadow | Unrelated

  /** The CSS reading the lint relies on: what an outline shorthand sets, and what is visible. */
  datatype Css = Css(
    outlineWidth: string -> string, outlineStyle: string -> string, outlineColor: string -> string,
    isVisibleWidth: string -> bool, isVisibleStyle: string -> bool, isTransparent: string -> bool,
    isVisibleShadow: string -> bool)

  datatype Declaration = Declaration(property: Property, value: string, isImportant: bool)

  /** The longhands a focus style is judged by. */
  datatype Longhand = Width | Style | Color | Shadow

  datatype Computed = Computed(width: string, style: string, color: string, shadow: string)

  const INITIAL := Computed("medium", "none", "currentColor", "none")

  // ----- hasVisibleFocusReplacement -----

  /** A stable sort by importance: comparing two flags leaves the order within each flag alone. */
  function ToSorted(declarations: seq<Declaration>): seq<Declaration> {
    WithImportance(declarations, false) + WithImportance(declarations, true)
  }

  function WithImportance(declarations: seq<Declaration>, isImportant: bool): (r: seq<Declaration>)
    ensures forall d <- r :: d in declarations && d.isImportant == isImportant
  {
    if declarations == [] then []
    else
      var last := declarations[|declarations| - 1];
      var front := WithImportance(declarations[..|declarations| - 1], isImportant);
      if last.isImportant == isImportant then front + [last] else front
  }

  function Apply(css: Css, c: Computed, d: Declaration): Computed {
    match d.property
    case Outline => Computed(css.outlineWidth(d.value), css.outlineStyle(d.value), css.outlineColor(d.value), c.shadow)
    case OutlineWidth => c.(width := d.value)
    case OutlineStyle => c.(style := d.value)
    case OutlineColor => c.(color := d.value)
    case BoxShadow => c.(shadow := d.value)
    case Unrelated => c
  }

  function ApplyAll(css: Css, c: Computed, declarations: seq<Declaration>): Computed {
    if declarations == [] then c
    else Apply(css, ApplyAll(css, c, declarations[..|declarations| - 1]), declarations[|declarations| - 1])
  }

  predicate IsVisible(css: Css, c: Computed) {
    (css.isVisibleWidth(c.width) && css.isVisibleStyle(c.style) && !css.isTransparent(c.color)) || css.isVisibleShadow(c.shadow)
  }

  method HasVisibleFocusReplacement(css: Css, declarations: seq<Declaration>) returns (isVisible: bool)
    ensures isVisible == IsVisible(css, Winner(css, declarations))
  {
    var width, style, color, shadow := INITIAL.width, INITIAL.style, INITIAL.color, INITIAL.shadow;
    var sorted := ToSorted(declarations);
    for i := 0 to |sorted|
      invariant Computed(width, style, color, shadow) == ApplyAll(css, INITIAL, sorted[..i])
    {
      assert sorted[..i + 1][..i] == sorted[..i];
      var d := sorted[i];
      match d.property {
        case Outline =>
          width := css.outlineWidth(d.value);
          style := css.outlineStyle(d.value);
          color := css.outlineColor(d.value);
        case OutlineWidth => width := d.value;
        case OutlineStyle => style := d.value;
        case OutlineColor => color := d.value;
        case BoxShadow => shadow := d.value;
        case Unrelated =>
      }
    }
    assert sorted[..|sorted|] == sorted;
    TheFoldRefinesTheCascade(css, declarations);
    isVisible := (css.isVisibleWidth(width) && css.isVisibleStyle(style) && !css.isTransparent(color))
                 || css.isVisibleShadow(shadow);
  }

  // ----- the cascade, declaratively -----

  /** What the declaration sets the longhand to; the outline shorthand sets three of them. */
  function Sets(css: Css, d: Declaration, l: Longhand): Option<string> {
    match l
    case Width =>
      if d.property == OutlineWidth then Some(d.value)
      else if d.property == Outline then Some(css.outlineWidth(d.value)) else None
    case Style =>
      if d.property == OutlineStyle then Some(d.value)
      else if d.property == Outline then Some(css.outlineStyle(d.value)) else None
    case Color =>
      if d.property == OutlineColor then Some(d.value)
      else if d.property == Outline then Some(css.outlineColor(d.value)) else None
    case Shadow => if d.property == BoxShadow then Some(d.value) else None
  }

  function Initial(l: Longhand): string {
    match l
    case Width => INITIAL.width
    case Style => INITIAL.style
    case Color => INITIAL.color
    case Shadow => INITIAL.shadow
  }

  function Get(c: Computed, l: Longhand): string {
    match l
    case Width => c.width
    case Style => c.style
    case Color => c.color
    case Shadow => c.shadow
  }

  /** The last declaration of this importance that sets the longhand is at index i. */
  predicate IsLast(css: Css, declarations: seq<Declaration>, l: Longhand, isImportant: bool, i: nat) {
    && i < |declarations| && declarations[i].isImportant == isImportant && Sets(css, declarations[i], l).Some?
    && forall k :: i < k < |declarations| && declarations[k].isImportant == isImportant ==>
                     Sets(css, declarations[k], l).None?
  }

  ghost predicate IsSet(css: Css, declarations: seq<Declaration>, l: Longhand, isImportant: bool) {
    exists i: nat :: IsLast(css, declarations, l, isImportant, i)
  }

  /** The cascade of section 6.1 of CSS Cascading and Inheritance Level 4, for one origin and equal
      specificity: the last important declaration wins, else the last normal one, else the initial value. */
  ghost predicate Wins(css: Css, declarations: seq<Declaration>, l: Longhand, value: string) {
    && (forall i: nat :: IsLast(css, declarations, l, true, i) ==> Sets(css, declarations[i], l) == Some(value))
    && (!IsSet(css, declarations, l, true) ==>
          forall i: nat :: IsLast(css, declarations, l, false, i) ==> Sets(css, declarations[i], l) == Some(value))
    && (!IsSet(css, declarations, l, true) && !IsSet(css, declarations, l, false) ==> value == Initial(l))
  }

  /** The computed style, by walking the declarations once from the back for each longhand. */
  function Winner(css: Css, declarations: seq<Declaration>): Computed {
    Computed(WinnerOf(css, declarations, Width), WinnerOf(css, declarations, Style),
             WinnerOf(css, declarations, Color), WinnerOf(css, declarations, Shadow))
  }

  function WinnerOf(css: Css, declarations: seq<Declaration>, l: Longhand): string {
    var important := LastSet(css, declarations, l, true);
    var normal := LastSet(css, declarations, l, false);
    if important.Some? then important.value else if normal.Some? then normal.value else Initial(l)
  }

  function LastSet(css: Css, declarations: seq<Declaration>, l: Longhand, isImportant: bool): Option<string> {
    if declarations == [] then None
    else
      var last := declarations[|declarations| - 1];
      if last.isImportant == isImportant && Sets(css, last, l).Some? then Sets(css, last, l)
      else LastSet(css, declarations[..|declarations| - 1], l, isImportant)
  }

  lemma {:induction false} LastSetIsLast(css: Css, declarations: seq<Declaration>, l: Longhand, isImportant: bool)
    ensures LastSet(css, declarations, l, isImportant).Some? <==> IsSet(css, declarations, l, isImportant)
    ensures forall i: nat :: IsLast(css, declarations, l, isImportant, i) ==>
                          LastSet(css, declarations, l, isImportant) == Sets(css, declarations[i], l)
  {
    if declarations != [] {
      var n := |declarations| - 1;
      var front, last := declarations[..n], declarations[n];
      LastSetIsLast(css, front, l, isImportant);
      if last.isImportant == isImportant && Sets(css, last, l).Some? {
        assert IsLast(css, declarations, l, isImportant, n);
      } else {
        assert forall i: nat :: IsLast(css, declarations, l, isImportant, i) <==> IsLast(css, front, l, isImportant, i);
      }
    }
  }

  /** The winner wins each longhand, and nothing else does. */
  lemma TheWinnerWins(css: Css, declarations: seq<Declaration>, l: Longhand, value: string)
    ensures Wins(css, declarations, l, value) <==> value == Get(Winner(css, declarations), l)
  {
    LastSetIsLast(css, declarations, l, true);
    LastSetIsLast(css, declarations, l, false);
  }

  // ----- the fold over the sorted declarations refines the cascade -----

  /** Folding leaves in each longhand the last value that was set, whatever its importance. */
  lemma {:induction false} TheFoldKeepsTheLast(css: Css, c: Computed, declarations: seq<Declaration>, l: Longhand,
                                               isImportant: bool)
    requires forall d <- declarations :: d.isImportant == isImportant
    ensures var last := LastSet(css, declarations, l, isImportant);
            Get(ApplyAll(css, c, declarations), l) == if last.Some? then last.value else Get(c, l)
  {
    if declarations != [] {
      TheFoldKeepsTheLast(css, c, declarations[..|declarations| - 1], l, isImportant);
    }
  }

  lemma {:induction false} FoldsCompose(css: Css, c: Computed, a: seq<Declaration>, b: seq<Declaration>)
    ensures ApplyAll(css, c, a + b) == ApplyAll(css, ApplyAll(css, c, a), b)
  {
    if b == [] {
      assert a + b == a;
    } else {
      FoldsCompose(css, c, a, b[..|b| - 1]);
      assert (a + b)[..|a + b| - 1] == a + b[..|b| - 1];
    }
  }

  // Picking one importance does not change the last of that importance.
  lemma {:induction false} FilteringKeepsTheLast(css: Css, declarations: seq<Declaration>, l: Longhand, isImportant: bool)
    ensures LastSet(css, WithImportance(declarations, isImportant), l, isImportant) ==
            LastSet(css, declarations, l, isImportant)
  {
    if declarations != [] {
      var front := declarations[..|declarations| - 1];
      FilteringKeepsTheLast(css, front, l, isImportant);
      var kept := WithImportance(declarations, isImportant);
      if declarations[|declarations| - 1].isImportant == isImportant {
        assert kept[..|kept| - 1] == WithImportance(front, isImportant);
      }
    }
  }

  lemma TheFoldRefinesALonghand(css: Css, declarations: seq<Declaration>, l: Longhand)
    ensures Get(ApplyAll(css, INITIAL, ToSorted(declarations)), l) == WinnerOf(css, declarations, l)
  {
    var normal, important := WithImportance(declarations, false), WithImportance(declarations, true);
    FoldsCompose(css, INITIAL, normal, important);
    TheFoldKeepsTheLast(css, INITIAL, normal, l, false);
    TheFoldKeepsTheLast(css, ApplyAll(css, INITIAL, normal), important, l, true);
    FilteringKeepsTheLast(css, declarations, l, false);
    FilteringKeepsTheLast(css, declarations, l, true);
  }

  lemma TheFoldRefinesTheCascade(css: Css, declarations: seq<Declaration>)
    ensures ApplyAll(css, INITIAL, ToSorted(declarations)) == Winner(css, declarations)
  {
    TheFoldRefinesALonghand(css, declarations, Width);
    TheFoldRefinesALonghand(css, declarations, Style);
    TheFoldRefinesALonghand(css, declarations, Color);
    TheFoldRefinesALonghand(css, declarations, Shadow);
  }

  // ----- toSorted really is a stable sort -----

  /** Where each declaration of the sorted list comes from. */
  ghost predicate IsStableOrder(declarations: seq<Declaration>, sorted: seq<Declaration>, from: seq<nat>) {
    && |from| == |sorted| == |declarations|
    && (forall i :: 0 <= i < |from| ==> from[i] < |declarations| && sorted[i] == declarations[from[i]])
    && (forall i, k :: 0 <= i < k < |from| ==>
                         from[i] != from[k] &&
                         (sorted[i].isImportant ==> sorted[k].isImportant) &&
                         (sorted[i].isImportant == sorted[k].isImportant ==> from[i] < from[k]))
  }

  ghost function Indices(declarations: seq<Declaration>, isImportant: bool): (r: seq<nat>)
    ensures |r| == |WithImportance(declarations, isImportant)|
    ensures forall i :: 0 <= i < |r| ==>
                          r[i] < |declarations| && declarations[r[i]] == WithImportance(declarations, isImportant)[i]
    ensures forall i, k :: 0 <= i < k < |r| ==> r[i] < r[k]
  {
    if declarations == [] then []
    else
      var front := Indices(declarations[..|declarations| - 1], isImportant);
      if declarations[|declarations| - 1].isImportant == isImportant then front + [|declarations| - 1] else front
  }

  lemma {:induction false} NothingIsLost(declarations: seq<Declaration>)
    ensures |ToSorted(declarations)| == |declarations|
  {
    if declarations != [] {
      NothingIsLost(declarations[..|declarations| - 1]);
    }
  }

  lemma SortingIsStable(declarations: seq<Declaration>)
    ensures IsStableOrder(declarations, ToSorted(declarations), Indices(declarations, false) + Indices(declarations, true))
  {
    NothingIsLost(declarations);
  }

  // ----- hasVisibleFocusInEveryBranch -----

  /** An assignment with the values it may take; None leaves the property alone. */
  datatype Assignment = Assignment(property: Property, values: seq<Option<string>>, isImportant: bool)

  predicate IsRelevant(a: Assignment) {
    a.property != Unrelated && a.values != []
  }

  function Extend(branch: seq<Declaration>, a: Assignment, value: Option<string>): seq<Declaration> {
    if value.None? then branch else branch + [Declaration(a.property, value.value, a.isImportant)]
  }

  function ExtendByEach(branch: seq<Declaration>, a: Assignment, values: seq<Option<string>>): seq<seq<Declaration>> {
    if values == [] then []
    else ExtendByEach(branch, a, values[..|values| - 1]) + [Extend(branch, a, values[|values| - 1])]
  }

  /** flatMap over the branches. */
  function ExtendAll(branches: seq<seq<Declaration>>, a: Assignment): seq<seq<Declaration>> {
    if branches == [] then []
    else ExtendAll(branches[..|branches| - 1], a) + ExtendByEach(branches[|branches| - 1], a, a.values)
  }

  function AllBranches(assignments: seq<Assignment>): seq<seq<Declaration>> {
    if assignments == [] then [[]]
    else
      var front, last := AllBranches(assignments[..|assignments| - 1]), assignments[|assignments| - 1];
      if IsRelevant(last) then ExtendAll(front, last) else front
  }

  /** One value chosen for each relevant assignment. */
  predicate IsChoice(assignments: seq<Assignment>, choice: seq<nat>) {
    && |choice| == |assignments|
    && forall i :: 0 <= i < |choice| && IsRelevant(assignments[i]) ==> choice[i] < |assignments[i].values|
  }

  /** The declarations that are in force under the choice, in the order of the assignments. */
  function Chosen(assignments: seq<Assignment>, choice: seq<nat>): seq<Declaration>
    requires IsChoice(assignments, choice)
  {
    if assignments == [] then []
    else
      var n := |assignments| - 1;
      var front := Chosen(assignments[..n], choice[..n]);
      if IsRelevant(assignments[n]) then Extend(front, assignments[n], assignments[n].values[choice[n]]) else front
  }

  /** The element stays visible under every choice. */
  ghost predicate IsAlwaysVisible(css: Css, assignments: seq<Assignment>) {
    forall choice :: IsChoice(assignments, choice) ==> IsVisible(css, Winner(css, Chosen(assignments, choice)))
  }

  method HasVisibleFocusInEveryBranch(css: Css, assignments: seq<Assignment>) returns (isVisible: bool)
    ensures isVisible <==> IsAlwaysVisible(css, assignments)
  {
    var branches: seq<seq<Declaration>> := [[]];
    for i := 0 to |assignments|
      invariant branches == AllBranches(assignments[..i])
    {
      assert assignments[..i + 1][..i] == assignments[..i];
      if IsRelevant(assignments[i]) {
        branches := FlatMap(branches, assignments[i]);
      }
    }
    assert assignments[..|assignments|] == assignments;
    BranchesAreTheChoices(css, assignments);
    isVisible := true;
    for i := 0 to |branches|
      invariant isVisible <==> forall b <- branches[..i] :: IsVisible(css, Winner(css, b))
    {
      assert branches[..i + 1] == branches[..i] + [branches[i]];
      var isBranchVisible := HasVisibleFocusReplacement(css, branches[i]);
      isVisible := isVisible && isBranchVisible;
    }
    assert branches[..|branches|] == branches;
  }

  method FlatMap(branches: seq<seq<Declaration>>, a: Assignment) returns (extended: seq<seq<Declaration>>)
    ensures extended == ExtendAll(branches, a)
  {
    extended := [];
    for i := 0 to |branches|
      invariant extended == ExtendAll(branches[..i], a)
    {
      assert branches[..i + 1][..i] == branches[..i];
      var more: seq<seq<Declaration>> := [];
      for k := 0 to |a.values|
        invariant more == ExtendByEach(branches[i], a, a.values[..k])
      {
        assert a.values[..k + 1][..k] == a.values[..k];
        more := more + [Extend(branches[i], a, a.values[k])];
      }
      assert a.values[..|a.values|] == a.values;
      extended := extended + more;
    }
    assert branches[..|branches|] == branches;
  }

  lemma {:induction false} ExtendByEachHas(branch: seq<Declaration>, a: Assignment, values: seq<Option<string>>,
                                           t: seq<Declaration>)
    ensures t in ExtendByEach(branch, a, values) <==> exists k :: 0 <= k < |values| && t == Extend(branch, a, values[k])
  {
    if values != [] {
      var n := |values| - 1;
      ExtendByEachHas(branch, a, values[..n], t);
      if k :| 0 <= k < |values| && t == Extend(branch, a, values[k]) {
        assert k < n ==> values[..n][k] == values[k];
      }
      if k :| 0 <= k < n && t == Extend(branch, a, values[..n][k]) {
        assert values[..n][k] == values[k];
      }
    }
  }

  lemma {:induction false} ExtendAllHas(branches: seq<seq<Declaration>>, a: Assignment, t: seq<Declaration>)
    ensures t in ExtendAll(branches, a) <==> exists b <- branches :: IsExtension(b, a, t)
  {
    if branches != [] {
      var front, last := branches[..|branches| - 1], branches[|branches| - 1];
      ExtendAllHas(front, a, t);
      ExtendByEachHas(last, a, a.values, t);
      assert forall b :: b in branches <==> b in front || b == last;
      assert t in ExtendByEach(last, a, a.values) <==> IsExtension(last, a, t);
    }
  }

  predicate IsExtension(b: seq<Declaration>, a: Assignment, t: seq<Declaration>) {
    exists k :: 0 <= k < |a.values| && t == Extend(b, a, a.values[k])
  }

  /** Every enumerated branch is what some choice puts in force. */
  lemma {:induction false} ABranchIsAChoice(assignments: seq<Assignment>, t: seq<Declaration>) returns (choice: seq<nat>)
    requires t in AllBranches(assignments)
    ensures IsChoice(assignments, choice) && Chosen(assignments, choice) == t
  {
    choice := [];
    if assignments != [] {
      var n := |assignments| - 1;
      var front, last := assignments[..n], assignments[n];
      var b, k := t, 0;
      if IsRelevant(last) {
        ExtendAllHas(AllBranches(front), last, t);
        b :| b in AllBranches(front) && IsExtension(b, last, t);
        k :| 0 <= k < |last.values| && t == Extend(b, last, last.values[k]);
      }
      var before := ABranchIsAChoice(front, b);
      choice := before + [k];
      assert choice[..n] == before;
    }
  }

  /** What a choice puts in force is enumerated. */
  lemma {:induction false} AChoiceIsABranch(assignments: seq<Assignment>, choice: seq<nat>)
    requires IsChoice(assignments, choice)
    ensures Chosen(assignments, choice) in AllBranches(assignments)
  {
    if assignments != [] {
      var n := |assignments| - 1;
      var front, last := assignments[..n], assignments[n];
      assert IsChoice(front, choice[..n]);
      AChoiceIsABranch(front, choice[..n]);
      if IsRelevant(last) {
        var b := Chosen(front, choice[..n]);
        assert IsExtension(b, last, Extend(b, last, last.values[choice[n]]));
        ExtendAllHas(AllBranches(front), last, Chosen(assignments, choice));
      }
    }
  }

  lemma BranchesAreTheChoices(css: Css, assignments: seq<Assignment>)
    ensures IsAlwaysVisible(css, assignments) <==> forall b <- AllBranches(assignments) :: IsVisible(css, Winner(css, b))
  {
    forall choice | IsChoice(assignments, choice)
      ensures Chosen(assignments, choice) in AllBranches(assignments)
    {
      AChoiceIsABranch(assignments, choice);
    }
    forall b <- AllBranches(assignments)
      ensures exists choice :: IsChoice(assignments, choice) && Chosen(assignments, choice) == b
    {
      var choice := ABranchIsAChoice(assignments, b);
    }
  }
}
