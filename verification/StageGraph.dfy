/** Stage ordering: a depth-first search over the processing graph. */
module StageGraph {

  type Edges = map<string, seq<string>>

  function Targets(edges: Edges, u: string): seq<string> {
    if u in edges then edges[u] else []
  }

  predicate Edge(edges: Edges, u: string, v: string) {
    v in Targets(edges, u)
  }

  function Elements(s: seq<string>): set<string> {
    set x | x in s
  }

  predicate NoRepeats(s: seq<string>) {
    forall i, j | 0 <= i < j < |s| :: s[i] != s[j]
  }

  /** Edges run between registered stages. */
  predicate Closed(edges: Edges, names: set<string>) {
    forall u | u in edges :: u in names && forall k | 0 <= k < |edges[u]| :: edges[u][k] in names
  }

  ghost predicate IsPath(edges: Edges, p: seq<string>) {
    forall i | 0 <= i < |p| - 1 :: Edge(edges, p[i], p[i + 1])
  }

  ghost predicate Acyclic(edges: Edges) {
    forall p | |p| >= 2 && IsPath(edges, p) :: p[0] != p[|p| - 1]
  }

  /** The source of every edge stands before its target. */
  ghost predicate Topological(edges: Edges, order: seq<string>) {
    forall i, j | 0 <= i < |order| && 0 <= j < |order| && Edge(edges, order[i], order[j]) :: i < j
  }

  function Reversed(s: seq<string>): (r: seq<string>)
    ensures |r| == |s|
  {
    seq(|s|, i requires 0 <= i < |s| => s[|s| - 1 - i])
  }

  // ---- the state of the search ----------------------------------------------------

  /** Every finished stage has only visited targets; if there is no cycle they finished first. */
  ghost predicate Finished(edges: Edges, order: seq<string>, visited: set<string>) {
    forall i, v | 0 <= i < |order| && Edge(edges, order[i], v) ::
      v in visited && (Acyclic(edges) ==> v in order[..i])
  }

  /** The visited stages are the finished ones and those still on the stack, which is a path. */
  ghost predicate Searching(edges: Edges, names: set<string>, stack: seq<string>, order: seq<string>, visited: set<string>) {
    && visited <= names
    && visited == Elements(order) + Elements(stack)
    && Elements(order) !! Elements(stack)
    && NoRepeats(order) && NoRepeats(stack)
    && IsPath(edges, stack)
    && Finished(edges, order, visited)
  }

  /** A target that is still on the stack closes a cycle. */
  lemma TargetOnStack(edges: Edges, stack: seq<string>, v: string)
    requires stack != [] && IsPath(edges, stack) && Edge(edges, stack[|stack| - 1], v) && v in stack
    ensures !Acyclic(edges)
  {
    var k :| 0 <= k < |stack| && stack[k] == v;
    var cycle := stack[k..] + [v];
    forall i | 0 <= i < |cycle| - 1 ensures Edge(edges, cycle[i], cycle[i + 1]) {
      if i < |stack| - k - 1 {
        assert cycle[i] == stack[k + i] && cycle[i + 1] == stack[k + i + 1];
      }
    }
    assert IsPath(edges, cycle) && cycle[0] == cycle[|cycle| - 1];
  }

  lemma PushSearching(edges: Edges, names: set<string>, stack: seq<string>, order: seq<string>, visited: set<string>, name: string)
    requires Searching(edges, names, stack, order, visited)
    requires name in names && name !in visited
    requires stack != [] ==> Edge(edges, stack[|stack| - 1], name)
    ensures Searching(edges, names, stack + [name], order, visited + {name})
  {
    assert Elements(stack + [name]) == Elements(stack) + {name};
    assert name !in Elements(stack) && name !in Elements(order);
  }

  lemma PopSearching(edges: Edges, names: set<string>, stack: seq<string>, order: seq<string>, visited: set<string>, name: string)
    requires Searching(edges, names, stack + [name], order, visited)
    requires forall v | Edge(edges, name, v) :: v in visited && (Acyclic(edges) ==> v in order)
    ensures Searching(edges, names, stack, order + [name], visited)
  {
    var path := stack + [name];
    assert Elements(path) == Elements(stack) + {name};
    assert Elements(order + [name]) == Elements(order) + {name};
    assert path[|stack|] == name;
    assert forall i | 0 <= i < |stack| :: path[i] == stack[i];
    assert name !in stack;
    assert name in Elements(path) && name !in Elements(order);
    var grown := order + [name];
    forall i, v | 0 <= i < |grown| && Edge(edges, grown[i], v)
      ensures v in visited && (Acyclic(edges) ==> v in grown[..i])
    {
      if i < |order| {
        assert grown[..i] == order[..i];
      } else {
        assert grown[..i] == order;
      }
    }
  }

  lemma TargetDone(edges: Edges, names: set<string>, path: seq<string>, order: seq<string>, visited: set<string>, v: string)
    requires Searching(edges, names, path, order, visited) && path != []
    requires Edge(edges, path[|path| - 1], v) && v in visited
    ensures Acyclic(edges) ==> v in order
  {
    hide Acyclic;
    if v in path {
      TargetOnStack(edges, path, v);
    } else {
      assert v in Elements(order);
    }
  }

  lemma TargetIsNamed(edges: Edges, names: set<string>, u: string, v: string)
    requires Closed(edges, names) && Edge(edges, u, v)
    ensures v in names
  {
  }

  /** One run of get_ordered_stages: the visited set and the order, both grown in place. */
  class Traversal {
    const edges: Edges
    ghost const names: set<string>
    var visited: set<string>
    var order: seq<string>

    constructor (edges: Edges, ghost names: set<string>)
      requires Closed(edges, names)
      ensures this.edges == edges && this.names == names
      ensures Searching(edges, names, [], order, visited) && visited == {}
    {
      this.edges, this.names := edges, names;
      visited, order := {}, [];
    }

    /** Visits a stage and everything it reaches; the search is left as it was found, except
        that the stage is visited. */
    method Visit(name: string, ghost stack: seq<string>)
      requires Closed(edges, names) && name in names
      requires Searching(edges, names, stack, order, visited)
      requires stack != [] ==> Edge(edges, stack[|stack| - 1], name)
      modifies this
      ensures Searching(edges, names, stack, order, visited)
      ensures name in visited && old(visited) <= visited && old(order) <= order
      decreases names - visited
    {
      hide Searching, Acyclic, Closed;
      if name in visited {
        return;
      }
      PushSearching(edges, names, stack, order, visited, name);
      visited := visited + {name};
      var targets := Targets(edges, name);
      ghost var path := stack + [name];
      var i := 0;
      while i < |targets|
        invariant 0 <= i <= |targets|
        invariant Searching(edges, names, path, order, visited)
        invariant old(visited) + {name} <= visited && old(order) <= order
        invariant forall k | 0 <= k < i :: targets[k] in visited && (Acyclic(edges) ==> targets[k] in order)
      {
        assert Edge(edges, path[|path| - 1], targets[i]);
        TargetIsNamed(edges, names, name, targets[i]);
        Visit(targets[i], path);
        TargetDone(edges, names, path, order, visited, targets[i]);
        i := i + 1;
      }
      PopSearching(edges, names, stack, order, visited, name);
      order := order + [name];
    }
  }

  class ProcessingGraph {
    var stages: seq<string>  // the registry's names, in registration order
    var edges: Edges

    predicate Valid()
      reads this
    {
      NoRepeats(stages) && Closed(edges, Elements(stages))
    }

    constructor ()
      ensures Valid() && stages == [] && edges == map[]
    {
      stages, edges := [], map[];
    }

    /** Refuses a name that is registered already. */
    method Register(name: string) returns (ok: bool)
      requires Valid()
      modifies this
      ensures Valid() && edges == old(edges)
      ensures ok == (name !in old(stages))
      ensures stages == if ok then old(stages) + [name] else old(stages)
    {
      if name in stages {
        return false;
      }
      stages := stages + [name];
      assert Elements(old(stages)) <= Elements(stages);
      ok := true;
    }

    /** Refuses an edge unless both ends are registered. */
    method AddEdge(source: string, target: string) returns (ok: bool)
      requires Valid()
      modifies this
      ensures Valid() && stages == old(stages)
      ensures ok == (source in stages && target in stages)
      ensures !ok ==> edges == old(edges)
      ensures ok ==> edges.Keys == old(edges).Keys + {source}
      ensures ok ==> forall u :: Targets(edges, u) ==
                       Targets(old(edges), u) + if u == source then [target] else []
    {
      if source !in stages || target !in stages {
        return false;
      }
      edges := edges[source := Targets(edges, source) + [target]];
      ok := true;
    }

    /** Every registered stage exactly once, whatever the edges; and every edge's source before
        its target exactly when the edges have no cycle. */
    method GetOrderedStages() returns (order: seq<string>)
      requires Valid()
      ensures multiset(order) == multiset(stages) && NoRepeats(order)
      ensures Topological(edges, order) <==> Acyclic(edges)
    {
      ghost var names := Elements(stages);
      var run := new Traversal(edges, names);
      var i := 0;
      while i < |stages|
        invariant 0 <= i <= |stages|
        invariant fresh(run) && run.edges == edges && run.names == names
        invariant Searching(edges, names, [], run.order, run.visited)
        invariant forall k | 0 <= k < i :: stages[k] in run.visited
      {
        assert stages[i] in names;
        run.Visit(stages[i], []);
        i := i + 1;
      }
      order := Reversed(run.order);
      SamePermutation(run.order, stages);
      ReversedOrder(run.order);
      if Acyclic(edges) {
        FinishedIsTopological(edges, run.order, run.visited);
      }
      if Topological(edges, order) {
        TopologicalIsAcyclic(edges, order, stages);
      }
    }
  }

  // ---- what the finished search means ------------------------------------------------------

  lemma SamePermutation(a: seq<string>, b: seq<string>)
    requires NoRepeats(a) && NoRepeats(b) && Elements(a) == Elements(b)
    ensures multiset(a) == multiset(b)
  {
    NoRepeatsCount(a);
    NoRepeatsCount(b);
    forall x ensures multiset(a)[x] == multiset(b)[x] {
      assert x in a <==> x in Elements(a);
      assert x in b <==> x in Elements(b);
    }
  }

  lemma {:induction false} NoRepeatsCount(s: seq<string>)
    requires NoRepeats(s)
    ensures forall x :: multiset(s)[x] == if x in s then 1 else 0
  {
    if s != [] {
      var n := |s| - 1;
      NoRepeatsCount(s[..n]);
      assert s == s[..n] + [s[n]];
      assert s[n] !in s[..n];
    }
  }

  lemma ReversedOrder(s: seq<string>)
    requires NoRepeats(s)
    ensures NoRepeats(Reversed(s)) && multiset(Reversed(s)) == multiset(s)
  {
    var r := Reversed(s);
    forall x ensures x in r <==> x in s {
      if x in s {
        var k :| 0 <= k < |s| && s[k] == x;
        assert r[|s| - 1 - k] == x;
      }
    }
    NoRepeatsCount(s);
    NoRepeatsCount(r);
  }

  lemma EarlierThan(edges: Edges, order: seq<string>, visited: set<string>, u: nat, v: nat)
    requires NoRepeats(order) && Finished(edges, order, visited) && Acyclic(edges)
    requires u < |order| && v < |order| && Edge(edges, order[u], order[v])
    ensures v < u
  {
    var earlier := order[..u];
    assert Edge(edges, order[u], order[v]);
    assert order[v] in visited;
    assert order[v] in earlier;
    var w :| 0 <= w < |earlier| && earlier[w] == order[v];
    assert order[w] == order[v];
  }

  lemma FinishedIsTopological(edges: Edges, order: seq<string>, visited: set<string>)
    requires NoRepeats(order) && Finished(edges, order, visited) && Acyclic(edges)
    ensures Topological(edges, Reversed(order))
  {
    hide Acyclic;
    var r := Reversed(order);
    forall i, j | 0 <= i < |r| && 0 <= j < |r| && Edge(edges, r[i], r[j]) ensures i < j {
      var u, v := |order| - 1 - i, |order| - 1 - j;
      assert order[u] == r[i] && order[v] == r[j];
      EarlierThan(edges, order, visited, u, v);
    }
  }

  /** Along a path inside a topological order the positions rise, so it never returns. */
  lemma TopologicalIsAcyclic(edges: Edges, order: seq<string>, stages: seq<string>)
    requires Topological(edges, order) && multiset(order) == multiset(stages) && Closed(edges, Elements(stages))
    ensures Acyclic(edges)
  {
    forall p | |p| >= 2 && IsPath(edges, p) ensures p[0] != p[|p| - 1] {
      if p[0] == p[|p| - 1] {
        var _, _ := PathClimbs(edges, order, stages, p);
      }
    }
  }

  /** Positions of the first and last stage of a path of at least one edge, for every position of
      the last. */
  lemma {:induction false} PathClimbs(edges: Edges, order: seq<string>, stages: seq<string>, p: seq<string>)
    returns (i: nat, j: nat)
    requires |p| >= 2 && IsPath(edges, p)
    requires Topological(edges, order) && multiset(order) == multiset(stages) && Closed(edges, Elements(stages))
    ensures i < |order| && order[i] == p[0] && j < |order| && order[j] == p[|p| - 1]
    ensures i < j
    ensures p[0] != p[|p| - 1]
  {
    var n := |p| - 1;
    assert Edge(edges, p[n - 1], p[n]);
    InOrder(order, stages, p[n - 1]);
    InOrder(order, stages, p[n]);
    j :| 0 <= j < |order| && order[j] == p[n];
    if n == 1 {
      i :| 0 <= i < |order| && order[i] == p[0];
    } else {
      var k;
      i, k := PathClimbs(edges, order, stages, p[..n]);
      assert Edge(edges, order[k], order[j]);
    }
  }

  lemma InOrder(order: seq<string>, stages: seq<string>, x: string)
    requires multiset(order) == multiset(stages) && x in Elements(stages)
    ensures x in order
  {
    assert x in multiset(stages);
  }
}
