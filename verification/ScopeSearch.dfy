/**
  Whether evidence about a task lies inside a Goal: a breadth-first search of the
  task tree below the Goal's root (internal/application/governance_evidence.go).
 */
module ScopeSearch {

  datatype Child = Child(id: string, workspace: string, task: bool)

  /** The stored parent links, any finite shape; listing a parent in broken fails. */
  datatype Tree = Tree(root: string, workspace: string, children: map<string, seq<Child>>, broken: set<string>)

  function ListByParent(g: Tree, parent: string): seq<Child> {
    if parent in g.children then g.children[parent] else []
  }

  /** A task of the Goal's own workspace listed under this parent. */
  predicate Below(g: Tree, parent: string, id: string) {
    exists i :: 0 <= i < |ListByParent(g, parent)| && Admits(g, ListByParent(g, parent)[i], id)
  }

  predicate Admits(g: Tree, child: Child, id: string) {
    child.id == id && child.workspace == g.workspace && child.task
  }

  predicate Path(g: Tree, p: seq<string>) {
    p != [] && p[0] == g.root && forall i :: 0 < i < |p| ==> Below(g, p[i - 1], p[i])
  }

  ghost predicate InTree(g: Tree, id: string) {
    exists p :: Path(g, p) && p[|p| - 1] == id
  }

  /** Every id the search can ever meet. */
  function Universe(g: Tree): set<string> {
    {g.root} + set parent, i | parent in g.children && 0 <= i < |g.children[parent]| :: g.children[parent][i].id
  }

  predicate Distinct(ids: seq<string>) {
    forall i, j :: 0 <= i < j < |ids| ==> ids[i] != ids[j]
  }

  /** Everything below the tasks already expanded has been seen. */
  ghost predicate Expanded(g: Tree, done: set<string>, seen: set<string>) {
    forall parent, id :: parent in done && Below(g, parent, id) ==> id in seen
  }

  lemma {:induction false} RootInTree(g: Tree)
    ensures InTree(g, g.root)
  {
    assert Path(g, [g.root]) && [g.root][|[g.root]| - 1] == g.root;
  }

  lemma {:induction false} StepInTree(g: Tree, parent: string, id: string)
    requires InTree(g, parent) && Below(g, parent, id)
    ensures InTree(g, id)
  {
    var p :| Path(g, p) && p[|p| - 1] == parent;
    var q := p + [id];
    forall i | 0 < i < |q|
      ensures Below(g, q[i - 1], q[i])
    {
      if i < |p| { assert q[i - 1] == p[i - 1] && q[i] == p[i]; }
    }
    assert Path(g, q) && q[|q| - 1] == id;
  }

  /** A set that holds the root and is closed under listing holds the whole tree. */
  lemma {:induction false} ClosedHoldsPath(g: Tree, seen: set<string>, p: seq<string>, n: nat)
    requires g.root in seen && Expanded(g, seen, seen) && Path(g, p) && n < |p|
    ensures p[n] in seen
  {
    if n > 0 { ClosedHoldsPath(g, seen, p, n - 1); }
  }

  lemma {:induction false} ClosedHoldsTree(g: Tree, seen: set<string>, id: string)
    requires g.root in seen && Expanded(g, seen, seen) && InTree(g, id)
    ensures id in seen
  {
    var p :| Path(g, p) && p[|p| - 1] == id;
    ClosedHoldsPath(g, seen, p, |p| - 1);
  }

  lemma {:induction false} ListedInUniverse(g: Tree, parent: string, i: nat)
    requires i < |ListByParent(g, parent)|
    ensures ListByParent(g, parent)[i].id in Universe(g)
  {
  }

  lemma {:induction false} ExpandedGrows(g: Tree, done: set<string>, seen: set<string>, parent: string,
          now: set<string>)
    requires Expanded(g, done, seen) && seen <= now && forall id :: Below(g, parent, id) ==> id in now
    ensures Expanded(g, done + {parent}, now)
  {
    hide Below;
  }

  lemma {:induction false} NothingExpanded(g: Tree)
    ensures Expanded(g, {}, {g.root})
  {
  }

  lemma {:induction false} RootInUniverse(g: Tree)
    ensures g.root in Universe(g)
  {
  }

  /** The children of one parent, appended once each unless already seen. */
  method Expand(g: Tree, parent: string, wanted: string, seen: set<string>, frontier: seq<string>)
    returns (found: bool, seen': set<string>, frontier': seq<string>)
    requires InTree(g, parent) && wanted !in seen && Distinct(frontier) && forall id :: id in frontier ==> id in seen
    requires forall id :: id in seen ==> InTree(g, id)
    requires seen <= Universe(g)
    ensures found ==> InTree(g, wanted)
    ensures !found ==>
              && seen <= seen' <= Universe(g) && wanted !in seen' && Distinct(frontier')
              && (forall id :: id in frontier' <==> id in frontier || (id in seen' && id !in seen))
              && (forall id :: id in seen' ==> InTree(g, id))
              && (forall id :: Below(g, parent, id) ==> id in seen')
  {
    var children := ListByParent(g, parent);
    seen', frontier' := seen, frontier;
    var i := 0;
    while i < |children|
      invariant 0 <= i <= |children|
      invariant seen <= seen' <= Universe(g) && wanted !in seen' && Distinct(frontier')
      invariant forall id :: id in frontier' <==> id in frontier || (id in seen' && id !in seen)
      invariant forall id :: id in seen' ==> InTree(g, id)
      invariant forall k :: 0 <= k < i && children[k].workspace == g.workspace && children[k].task ==>
                children[k].id in seen'
    {
      var child := children[i];
      i := i + 1;
      if child.workspace != g.workspace || !child.task || child.id in seen' { continue; }
      assert Admits(g, ListByParent(g, parent)[i - 1], child.id);
      StepInTree(g, parent, child.id);
      ListedInUniverse(g, parent, i - 1);
      if child.id == wanted { return true, seen', frontier'; }
      seen' := seen' + {child.id};
      frontier' := frontier' + [child.id];
    }
    found := false;
  }

  /** workItemInGoalTree: the loop ends on any links, and answers exactly whether the wanted task is in the tree. */
  method WorkItemInGoalTree(g: Tree, wanted: string) returns (found: bool)
    ensures found ==> InTree(g, wanted)
    ensures wanted == "" ==> !found
    ensures g.broken == {} && wanted != "" ==> (found <==> InTree(g, wanted))
  {
    hide InTree, Below, Universe, Expanded;
    if wanted == "" { return false; }
    RootInTree(g);
    RootInUniverse(g);
    NothingExpanded(g);
    if wanted == g.root { return true; }
    var seen, frontier := {g.root}, [g.root];
    ghost var done: set<string> := {};
    while frontier != []
      invariant g.root in seen && wanted !in seen && seen <= Universe(g)
      invariant Distinct(frontier) && done !! (set id | id in frontier)
      invariant forall id :: id in seen <==> id in done || id in frontier
      invariant forall id :: id in seen ==> InTree(g, id)
      invariant Expanded(g, done, seen)
      decreases |Universe(g) - done|
    {
      var parent := frontier[0];
      ghost var left := Universe(g) - done;
      assert parent in seen && parent in left;
      var others := frontier[1..];
      assert forall id :: id in frontier <==> id == parent || id in others;
      if parent in g.broken { return false; }
      var hit, seen', frontier' := Expand(g, parent, wanted, seen, others);
      if hit { return true; }
      ExpandedGrows(g, done, seen, parent, seen');
      seen, frontier := seen', frontier';
      done := done + {parent};
      assert Universe(g) - done == left - {parent};
    }
    if InTree(g, wanted) {
      assert seen == done;
      ClosedHoldsTree(g, seen, wanted);
      assert false;
    }
    return false;
  }
}
