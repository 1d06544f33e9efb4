/** The dependency check of AI workflows: a depth-first search that accepts exactly
    the acyclic dependency graphs, in whatever order it meets them. */
module WorkflowGraph {
  import opened Workflow

  type Graph = map<string, seq<string>>

  /** The dependency map as the check fills it: a later entry replaces an earlier. */
  function GraphOf(ops: seq<Operation>): Graph {
    if ops == [] then map[]
    else GraphOf(ops[..|ops| - 1])[ops[|ops| - 1].id := ops[|ops| - 1].dependsOn]
  }

  predicate DependsOn(g: Graph, a: string, b: string) {
    a in g && b in g && b in g[a]
  }

  /** Each step goes from an operation to one it depends on. */
  ghost predicate Walk(g: Graph, w: seq<string>) {
    && w != [] && w[0] in g
    && forall i, j :: 0 <= i < |w| && 0 <= j < |w| && j == i + 1 ==> DependsOn(g, w[i], w[j])
  }

  lemma WalkSnoc(g: Graph, w: seq<string>, y: string)
    requires Walk(g, w) && DependsOn(g, w[|w| - 1], y)
    ensures Walk(g, w + [y])
  {
  }

  lemma WalkPart(g: Graph, w: seq<string>, i: nat, j: nat)
    requires Walk(g, w) && i < j <= |w|
    ensures Walk(g, w[i..j])
  {
    if i > 0 {
      assert DependsOn(g, w[i - 1], w[i]);
    }
  }

  ghost predicate Cycle(g: Graph, w: seq<string>) {
    Walk(g, w) && |w| >= 2 && w[|w| - 1] == w[0]
  }

  ghost predicate Acyclic(g: Graph) {
    forall w :: !Cycle(g, w)
  }

  ghost predicate Closed(g: Graph) {
    forall a, b :: a in g && b in g[a] ==> b in g
  }

  /** What the check is for. */
  ghost predicate ValidDag(ops: seq<Operation>) {
    UniqueIds(ops) && DependenciesKnown(ops) && Acyclic(GraphOf(ops))
  }

  lemma {:induction false} GraphOfIs(ops: seq<Operation>)
    ensures forall id :: id in GraphOf(ops) <==> HasId(ops, id)
    ensures UniqueIds(ops) ==>
              forall i :: 0 <= i < |ops| ==> ops[i].id in GraphOf(ops) && GraphOf(ops)[ops[i].id] == ops[i].dependsOn
  {
    if ops == [] {
    } else {
      var front, last := ops[..|ops| - 1], ops[|ops| - 1];
      GraphOfIs(front);
      assert forall i :: 0 <= i < |front| ==> front[i] == ops[i];
      forall id ensures id in GraphOf(ops) <==> HasId(ops, id) {
        if HasId(front, id) {
          var i :| 0 <= i < |front| && front[i].id == id;
          assert ops[i].id == id;
        }
        assert ops[|ops| - 1].id == last.id;
      }
    }
  }

  lemma GraphAt(ops: seq<Operation>, p: int)
    requires UniqueIds(ops) && 0 <= p < |ops|
    ensures ops[p].id in GraphOf(ops) && GraphOf(ops)[ops[p].id] == ops[p].dependsOn
  {
  }

  lemma GraphIsClosed(ops: seq<Operation>)
    requires UniqueIds(ops) && DependenciesKnown(ops)
    ensures Closed(GraphOf(ops))
  {
    var g := GraphOf(ops);
    GraphOfIs(ops);
    forall a, b | a in g && b in g[a] ensures b in g {
      var i :| 0 <= i < |ops| && ops[i].id == a;
    }
  }

  // --- orders and cycles ---------------------------------------------------------------

  /** Every entry comes behind everything it depends on. */
  ghost predicate Topological(g: Graph, order: seq<string>) {
    forall k, d :: 0 <= k < |order| && order[k] in g && d in g[order[k]] ==> d in order[..k]
  }

  lemma TopologicalSnoc(g: Graph, order: seq<string>, id: string)
    requires Topological(g, order) && id in g && forall d :: d in g[id] ==> d in order
    ensures Topological(g, order + [id])
  {
    var longer := order + [id];
    forall k, d | 0 <= k < |longer| && longer[k] in g && d in g[longer[k]] ensures d in longer[..k] {
      assert longer[..k] == order[..k];
      assert order[..|order|] == order;
    }
  }

  lemma FirstDependsOnNothing(g: Graph, order: seq<string>)
    requires order != [] && order[0] in g
    ensures g[order[0]] != [] ==> !Topological(g, order)
  {
    if g[order[0]] != [] {
      assert g[order[0]][0] in g[order[0]] && g[order[0]][0] !in order[..0];
    }
  }

  function FirstIndex(s: seq<string>, x: string): (k: nat)
    requires x in s
    ensures k < |s| && s[k] == x && x !in s[..k]
  {
    if s[0] == x then 0 else 1 + FirstIndex(s[1..], x)
  }

  /** Walking along dependencies moves towards the front of a topological order. */
  lemma {:induction false} WalkDescends(g: Graph, order: seq<string>, w: seq<string>)
    requires Topological(g, order) && Walk(g, w) && w[0] in order
    ensures w[|w| - 1] in order
    ensures |w| >= 2 ==> FirstIndex(order, w[|w| - 1]) < FirstIndex(order, w[0])
  {
    if |w| < 2 {
    } else {
      var k := FirstIndex(order, w[0]);
      assert DependsOn(g, w[0], w[1]);
      assert w[1] in order[..k];
      var j :| 0 <= j < k && order[j] == w[1];
      assert FirstIndex(order, w[1]) <= j;
      WalkPart(g, w, 1, |w|);
      WalkDescends(g, order, w[1..]);
    }
  }

  lemma TopologicalIsAcyclic(g: Graph, order: seq<string>)
    requires Topological(g, order) && forall id :: id in g ==> id in order
    ensures Acyclic(g)
  {
    forall w ensures !Cycle(g, w) {
      if Walk(g, w) && |w| >= 2 {
        WalkDescends(g, order, w);
      }
    }
  }

  ghost predicate DependsInto(g: Graph, x: string, s: set<string>) {
    exists y :: y in s && DependsOn(g, x, y)
  }

  /** Where everything in a set depends on something in it, there is a cycle. */
  lemma {:induction false} FindCycle(g: Graph, s: set<string>, next: map<string, string>, w: seq<string>,
                                     seen: set<string>)
      returns (cycle: seq<string>)
    requires s <= next.Keys && forall x {:trigger next[x]} :: x in s ==> next[x] in s && DependsOn(g, x, next[x])
    requires Walk(g, w) && w[|w| - 1] in s && forall x :: x in seen <==> x in w
    ensures Cycle(g, cycle)
    decreases |s - seen|
  {
    var y := next[w[|w| - 1]];
    WalkSnoc(g, w, y);
    if y in seen {
      cycle := CloseCycle(g, w, y);
    } else {
      assert s - (seen + {y}) == (s - seen) - {y};
      cycle := FindCycle(g, s, next, w + [y], seen + {y});
    }
  }

  ghost function PickDependency(g: Graph, x: string, s: set<string>): (y: string)
    requires DependsInto(g, x, s)
    ensures y in s && DependsOn(g, x, y)
  {
    var y :| y in s && DependsOn(g, x, y);
    y
  }

  lemma CloseCycle(g: Graph, w: seq<string>, y: string) returns (cycle: seq<string>)
    requires Walk(g, w + [y]) && y in w
    ensures Cycle(g, cycle)
  {
    var k :| 0 <= k < |w| && w[k] == y;
    WalkPart(g, w + [y], k, |w| + 1);
    cycle := (w + [y])[k..];
  }

  /** So in an acyclic graph every nonempty set has a member that depends on nothing
      in the set. */
  lemma MinimalMember(g: Graph, s: set<string>) returns (x: string)
    requires Acyclic(g) && s != {} && forall x :: x in s ==> x in g
    ensures x in s && !DependsInto(g, x, s)
  {
    x :| x in s;
    if AllDependInto(g, s) {
      var cycle := FindCycle(g, s, Picks(g, s), [x], {x});
    } else {
      x :| x in s && !DependsInto(g, x, s);
    }
  }

  ghost predicate AllDependInto(g: Graph, s: set<string>) {
    forall y {:trigger DependsInto(g, y, s)} :: y in s ==> DependsInto(g, y, s)
  }

  ghost function Picks(g: Graph, s: set<string>): (next: map<string, string>)
    requires AllDependInto(g, s)
    ensures next.Keys == s && forall y {:trigger next[y]} :: y in s ==> next[y] in s && DependsOn(g, y, next[y])
  {
    map y | y in s :: PickDependency(g, y, s)
  }

  // --- the search -----------------------------------------------------------------------

  class CycleCheck {
    const dependencies: Graph
    var visiting: set<string>
    var visited: set<string>
    ghost var path: seq<string>       // the calls in progress
    ghost var finished: seq<string>   // in the order the calls returned

    constructor (dependencies: Graph)
      ensures this.dependencies == dependencies && visiting == {} && visited == {} && path == [] && finished == []
    {
      this.dependencies, visiting, visited := dependencies, {}, {};
      path, finished := [], [];
    }

    ghost predicate Valid()
      reads this
    {
      && Closed(dependencies)
      && (forall x :: x in visiting <==> x in path) && (forall x :: x in visited <==> x in finished)
      && (path != [] ==> Walk(dependencies, path))
      && visiting <= dependencies.Keys && visited <= dependencies.Keys && visited !! visiting
      && Topological(dependencies, finished)
    }

    ghost predicate MayVisit(id: string)
      reads this
    {
      id in dependencies && (path != [] ==> DependsOn(dependencies, path[|path| - 1], id))
    }

    method Visit(id: string) returns (ok: bool)
      requires Valid() && MayVisit(id)
      modifies this
      ensures ok ==>
                Valid() && path == old(path) && visiting == old(visiting) && id in visited && old(visited) <= visited
      ensures !ok ==> exists w :: Cycle(dependencies, w)
      decreases |dependencies.Keys - visiting|, 0
    {
      if id in visiting {
        WalkSnoc(dependencies, path, id);
        ghost var cycle := CloseCycle(dependencies, path, id);
        return false;
      }
      if id in visited {
        return true;
      }
      Enter(id);
      ok := VisitAll(id);
      if ok {
        Finish(id, old(path));
        assert visiting == old(visiting);
      }
    }

    method Enter(id: string)
      requires Valid() && MayVisit(id) && id !in visiting && id !in visited
      modifies `visiting, `path
      ensures Valid() && path == old(path) + [id] && visiting == old(visiting) + {id}
      ensures |dependencies.Keys - visiting| < |dependencies.Keys - old(visiting)|
    {
      if path != [] {
        WalkSnoc(dependencies, path, id);
      }
      assert (dependencies.Keys - (visiting + {id})) == (dependencies.Keys - visiting) - {id};
      visiting, path := visiting + {id}, path + [id];
    }

    method VisitAll(id: string) returns (ok: bool)
      requires Valid() && path != [] && path[|path| - 1] == id && id !in visited
      modifies this
      ensures ok ==> Valid() && path == old(path) && visiting == old(visiting) && old(visited) <= visited
      ensures ok ==> forall d :: d in dependencies[id] ==> d in visited
      ensures !ok ==> exists w :: Cycle(dependencies, w)
      decreases |dependencies.Keys - visiting|, 1
    {
      var next := dependencies[id];
      for i := 0 to |next|
        invariant Valid() && path == old(path) && visiting == old(visiting) && old(visited) <= visited
        invariant forall j :: 0 <= j < i ==> next[j] in visited
      {
        ok := Visit(next[i]);
        if !ok {
          return;
        }
      }
      ok := true;
    }

    method Finish(id: string, ghost before: seq<string>)
      requires Valid() && path == before + [id] && id !in before && id !in visited
      requires forall d :: d in dependencies[id] ==> d in visited
      modifies this
      ensures Valid() && path == before && visiting == old(visiting) - {id} && visited == old(visited) + {id}
    {
      if before != [] {
        WalkPart(dependencies, path, 0, |before|);
        assert path[..|before|] == before;
      }
      TopologicalSnoc(dependencies, finished, id);
      visiting, visited := visiting - {id}, visited + {id};
      path, finished := before, finished + [id];
    }
  }

  method Search(g: Graph) returns (ok: bool)
    requires Closed(g)
    ensures ok <==> Acyclic(g)
  {
    var check := new CycleCheck(g);
    var left := g.Keys;
    while left != {}
      invariant check.Valid() && check.dependencies == g && check.path == []
      invariant left <= g.Keys && g.Keys - left <= check.visited
      decreases |left|
    {
      var id :| id in left;   // map iteration order
      ok := check.Visit(id);
      if !ok {
        return;
      }
      left := left - {id};
    }
    TopologicalIsAcyclic(g, check.finished);
    ok := true;
  }

  method DependenciesFine(ghost ops: seq<Operation>, op: Operation, known: set<string>) returns (ok: bool)
    requires forall id :: id in known <==> HasId(ops, id)
    ensures ok <==> NamesKnown(ops, op)
  {
    for k := 0 to |op.dependsOn|
      invariant forall l :: 0 <= l < k ==> HasId(ops, op.dependsOn[l]) && op.dependsOn[l] != op.id
    {
      if op.dependsOn[k] !in known || op.dependsOn[k] == op.id {
        return false;
      }
    }
    ok := true;
  }

  method CollectIds(ops: seq<Operation>) returns (unique: bool, known: set<string>)
    ensures unique <==> UniqueIds(ops)
    ensures unique ==> forall id :: id in known <==> HasId(ops, id)
  {
    known := {};
    for i := 0 to |ops|
      invariant forall id :: id in known <==> HasId(ops[..i], id)
      invariant UniqueIds(ops[..i])
    {
      assert ops[..i + 1] == ops[..i] + [ops[i]];
      HasIdSnoc(ops[..i], ops[i]);
      if ops[i].id == "" || ops[i].id in known {
        UniquePrefix(ops, i + 1);
        return false, known;
      }
      known := known + {ops[i].id};
    }
    assert ops[..|ops|] == ops;
    unique := true;
  }

  lemma UniquePrefix(ops: seq<Operation>, k: nat)
    requires k <= |ops|
    ensures UniqueIds(ops) ==> UniqueIds(ops[..k])
  {
  }

  method CollectDependencies(ops: seq<Operation>, known: set<string>) returns (ok: bool, dependencies: Graph)
    requires forall id :: id in known <==> HasId(ops, id)
    ensures ok <==> DependenciesKnown(ops)
    ensures ok ==> dependencies == GraphOf(ops)
  {
    dependencies := map[];
    for i := 0 to |ops|
      invariant dependencies == GraphOf(ops[..i])
      invariant forall j :: 0 <= j < i ==> NamesKnown(ops, ops[j])
    {
      var fine := DependenciesFine(ops, ops[i], known);
      if !fine {
        return false, dependencies;
      }
      assert ops[..i + 1][..i] == ops[..i];
      dependencies := dependencies[ops[i].id := ops[i].dependsOn];
    }
    assert ops[..|ops|] == ops;
    ok := true;
  }

  /** validAIWorkflowDAG. */
  method Validate(ops: seq<Operation>) returns (ok: bool)
    ensures ok <==> ValidDag(ops)
  {
    var known, dependencies;
    ok, known := CollectIds(ops);
    if !ok {
      return;
    }
    ok, dependencies := CollectDependencies(ops, known);
    if ok {
      GraphIsClosed(ops);
      ok := Search(dependencies);
    }
  }

  lemma HasIdSnoc(ops: seq<Operation>, op: Operation)
    ensures forall id :: HasId(ops + [op], id) <==> HasId(ops, id) || id == op.id
    ensures UniqueIds(ops + [op]) <==> UniqueIds(ops) && op.id != "" && !HasId(ops, op.id)
  {
    var longer := ops + [op];
    assert longer[|ops|] == op && forall i :: 0 <= i < |ops| ==> longer[i] == ops[i];
    forall id ensures HasId(longer, id) <==> HasId(ops, id) || id == op.id {
      if HasId(ops, id) {
        var i :| 0 <= i < |ops| && ops[i].id == id;
        assert longer[i].id == id;
      }
    }
  }
}
