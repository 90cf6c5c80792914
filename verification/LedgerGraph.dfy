/**
  The dependency check of the coverage ledger: a depth-first search that keeps
  going after it has found a problem.
 */
module LedgerGraph {
  type Node = string

  datatype GraphError = CycleAt(node: Node) | MissingDependency(node: Node)

  datatype Graph = Graph(nodes: set<Node>, edges: map<Node, seq<Node>>)
  {
    function Deps(n: Node): seq<Node> { if n in edges then edges[n] else [] }

    ghost predicate EdgeAt(p: seq<Node>, i: int) {
      0 <= i < |p| - 1 && p[i] in nodes && p[i + 1] in nodes && p[i + 1] in Deps(p[i])
    }

    /** Nodes of the graph, each depending on the next. */
    ghost predicate IsPath(p: seq<Node>) {
      && |p| > 0 && p[0] in nodes
      && forall i {:trigger EdgeAt(p, i)} | 0 <= i < |p| - 1 :: EdgeAt(p, i)
    }

    ghost predicate IsCycle(p: seq<Node>) { |p| > 1 && IsPath(p) && p[0] == p[|p| - 1] }

    ghost predicate OnCycle(n: Node) { exists p :: IsCycle(p) && p[0] == n }

    ghost predicate Dangling(d: Node) { d !in nodes && exists n :: n in nodes && d in Deps(n) }

    /** Every dependency of a node names a node. */
    ghost predicate Closed() { forall n, d | n in nodes && d in Deps(n) :: d in nodes }

    ghost predicate Acyclic() { forall p :: !IsCycle(p) }

    /** What the search must have settled about the dependency `d` once its dependent is finished. */
    ghost predicate Settled(d: Node, finished: seq<Node>, errors: seq<GraphError>) {
      if d in nodes then d in finished || CycleAt(d) in errors else MissingDependency(d) in errors
    }

    /** Every dependency of the `i`-th finished node was finished before it or is reported. */
    ghost predicate SettledAt(i: int, finished: seq<Node>, errors: seq<GraphError>) {
      0 <= i < |finished| && forall d | d in Deps(finished[i]) :: Settled(d, finished[..i], errors)
    }

    ghost predicate AllSettled(finished: seq<Node>, errors: seq<GraphError>) {
      forall i {:trigger SettledAt(i, finished, errors)} | 0 <= i < |finished| :: SettledAt(i, finished, errors)
    }

    ghost predicate Genuine(e: GraphError) {
      match e
      case CycleAt(n) => OnCycle(n)
      case MissingDependency(d) => Dangling(d)
    }
  }

  // ----- Facts about the search -----

  lemma {:induction false} SettledMonotone(g: Graph, d: Node, f: seq<Node>, e: seq<GraphError>, f': seq<Node>, e': seq<GraphError>)
    requires g.Settled(d, f, e) && f <= f' && e <= e'
    ensures g.Settled(d, f', e')
  {
  }

  lemma {:induction false} AllSettledMonotone(g: Graph, f: seq<Node>, e: seq<GraphError>, e': seq<GraphError>)
    requires g.AllSettled(f, e) && e <= e'
    ensures g.AllSettled(f, e')
  {
    forall i | 0 <= i < |f| ensures g.SettledAt(i, f, e') {
      assert g.SettledAt(i, f, e);
      forall d | d in g.Deps(f[i]) ensures g.Settled(d, f[..i], e') {
        SettledMonotone(g, d, f[..i], e, f[..i], e');
      }
    }
  }

  lemma {:induction false} FinishOne(g: Graph, n: Node, f: seq<Node>, e: seq<GraphError>)
    requires g.AllSettled(f, e) && forall d | d in g.Deps(n) :: g.Settled(d, f, e)
    ensures g.AllSettled(f + [n], e)
  {
    var f' := f + [n];
    forall i | 0 <= i < |f'| ensures g.SettledAt(i, f', e) {
      if i < |f| {
        assert g.SettledAt(i, f, e);
        assert f'[..i] == f[..i] && f'[i] == f[i];
      } else {
        assert f'[..i] == f;
      }
    }
  }

  lemma {:induction false} PathExtends(g: Graph, stack: seq<Node>, n: Node)
    requires n in g.nodes && (stack == [] || (g.IsPath(stack) && n in g.Deps(stack[|stack| - 1])))
    requires stack != [] ==> stack[|stack| - 1] in g.nodes
    ensures g.IsPath(stack + [n])
  {
    var p := stack + [n];
    forall i | 0 <= i < |p| - 1 ensures g.EdgeAt(p, i) {
      if i < |stack| - 1 {
        assert g.EdgeAt(stack, i);
      }
    }
  }

  lemma {:induction false} PathSuffix(g: Graph, p: seq<Node>, k: nat)
    requires g.IsPath(p) && k < |p|
    ensures g.IsPath(p[k..])
  {
    if k > 0 {
      assert g.EdgeAt(p, k - 1);
    }
    forall i | 0 <= i < |p[k..]| - 1 ensures g.EdgeAt(p[k..], i) {
      assert g.EdgeAt(p, k + i);
    }
  }

  lemma {:induction false} PathPrefix(g: Graph, p: seq<Node>, k: nat)
    requires g.IsPath(p) && 0 < k <= |p|
    ensures g.IsPath(p[..k])
  {
    forall i | 0 <= i < k - 1 ensures g.EdgeAt(p[..k], i) {
      assert g.EdgeAt(p, i);
    }
  }

  lemma {:induction false} PathShortens(g: Graph, p: seq<Node>)
    requires g.IsPath(p)
    ensures |p| > 1 ==> g.IsPath(p[..|p| - 1]) && p[|p| - 2] in g.nodes
  {
    if |p| > 1 {
      PathPrefix(g, p, |p| - 1);
      assert g.EdgeAt(p, |p| - 2);
    }
  }

  /** Meeting a node of the stack again closes a cycle. */
  lemma {:induction false} BackEdge(g: Graph, stack: seq<Node>, n: Node)
    requires n in g.nodes && n in stack && g.IsPath(stack) && n in g.Deps(stack[|stack| - 1])
    requires stack[|stack| - 1] in g.nodes
    ensures g.OnCycle(n)
  {
    var k :| 0 <= k < |stack| && stack[k] == n;
    PathSuffix(g, stack, k);
    PathExtends(g, stack[k..], n);
    assert g.IsCycle(stack[k..] + [n]);
  }

  /** Where a finished node first appears in the finishing order. */
  ghost function Position(f: seq<Node>, n: Node): (k: nat)
    requires n in f
    ensures k < |f| && f[k] == n && n !in f[..k]
  {
    if f[0] == n then 0 else assert f == [f[0]] + f[1..]; Position(f[1..], n) + 1
  }

  /** Following an edge to an unreported node goes back in the finishing order. */
  lemma {:induction false} EdgeGoesBack(g: Graph, f: seq<Node>, e: seq<GraphError>, a: Node, b: Node)
    requires g.AllSettled(f, e) && a in f && b in g.nodes && b in g.Deps(a) && CycleAt(b) !in e
    ensures b in f && Position(f, b) < Position(f, a)
  {
    var k := Position(f, a);
    assert g.SettledAt(k, f, e);
    assert b in f[..k];
    var j :| 0 <= j < k && f[j] == b;
    assert Position(f, b) <= j;
  }

  lemma {:induction false} PathGoesBack(g: Graph, f: seq<Node>, e: seq<GraphError>, p: seq<Node>, i: nat)
    requires g.AllSettled(f, e) && (forall n | n in g.nodes :: n in f)
    requires g.IsPath(p) && i < |p| && forall k | 0 < k < |p| :: CycleAt(p[k]) !in e
    ensures p[0] in f && p[i] in f && Position(f, p[i]) + i <= Position(f, p[0])
  {
    if i > 0 {
      PathGoesBack(g, f, e, p, i - 1);
      assert g.EdgeAt(p, i - 1);
      EdgeGoesBack(g, f, e, p[i - 1], p[i]);
    }
  }

  /** Once every node is finished, every cycle has a reported node. */
  lemma {:induction false} CycleReported(g: Graph, f: seq<Node>, e: seq<GraphError>, p: seq<Node>)
    requires g.AllSettled(f, e) && (forall n | n in g.nodes :: n in f) && g.IsCycle(p)
    ensures exists k :: 0 <= k < |p| && CycleAt(p[k]) in e
  {
    if forall k | 0 < k < |p| :: CycleAt(p[k]) !in e {
      PathGoesBack(g, f, e, p, |p| - 1);
    }
  }

  lemma {:induction false} DanglingReported(g: Graph, f: seq<Node>, e: seq<GraphError>, d: Node)
    requires g.AllSettled(f, e) && (forall n | n in g.nodes :: n in f) && g.Dangling(d)
    ensures MissingDependency(d) in e
  {
    var n :| n in g.nodes && d in g.Deps(n);
    assert g.SettledAt(Position(f, n), f, e);
  }

  lemma {:induction false} NothingReported(g: Graph, f: seq<Node>, e: seq<GraphError>)
    requires g.AllSettled(f, e) && (forall n | n in g.nodes :: n in f) && (forall x | x in e :: g.Genuine(x))
    ensures e == [] <==> g.Closed() && g.Acyclic()
  {
    if e == [] {
      forall n, d | n in g.nodes && d in g.Deps(n) ensures d in g.nodes {
        if d !in g.nodes {
          assert g.Dangling(d);
          DanglingReported(g, f, e, d);
        }
      }
      forall p ensures !g.IsCycle(p) {
        if g.IsCycle(p) {
          CycleReported(g, f, e, p);
        }
      }
    } else {
      assert e[0] in e;
      assert g.Genuine(e[0]);
    }
  }

  // ----- The search -----

  class GraphCheck {
    const graph: Graph
    var visiting: set<Node>
    var visited: set<Node>
    var errors: seq<GraphError>
    ghost var stack: seq<Node>
    ghost var finished: seq<Node>

    constructor (g: Graph)
      ensures Valid() && graph == g && stack == [] && finished == [] && errors == []
    {
      graph := g;
      visiting, visited, errors, stack, finished := {}, {}, [], [], [];
    }

    ghost predicate OnStack()
      reads this
    {
      && (forall n :: n in visiting <==> n in stack)
      && (forall i, j | 0 <= i < j < |stack| :: stack[i] != stack[j])
      && (stack != [] ==> graph.IsPath(stack) && stack[|stack| - 1] in graph.nodes)
    }

    ghost predicate Valid()
      reads this
    {
      && OnStack()
      && (forall n :: n in visited <==> n in finished)
      && (forall n | n in visited :: n in graph.nodes)
      && graph.AllSettled(finished, errors)
      && (forall e | e in errors :: graph.Genuine(e))
    }

    /** Nothing recorded earlier is lost. */
    twostate predicate Extends()
      reads this
    {
      && stack == old(stack) && visiting == old(visiting)
      && old(finished) <= finished && old(errors) <= errors
    }

    method Visit(node: Node)
      requires Valid() && node in graph.nodes
      requires stack == [] || node in graph.Deps(stack[|stack| - 1])
      modifies this
      ensures Valid() && Extends()
      ensures node in finished || (node in stack && CycleAt(node) in errors)
      decreases graph.nodes - visiting, 0
    {
      if node in visiting {
        Report(CycleAt(node));
        return;
      }
      if node in visited { return; }
      Enter(node);
      VisitAll(node, graph.Deps(node));
      Leave(node);
    }

    method Enter(node: Node)
      requires Valid() && node in graph.nodes && node !in visiting
      requires stack == [] || node in graph.Deps(stack[|stack| - 1])
      modifies this`visiting, this`stack
      ensures Valid() && stack == old(stack) + [node] && visiting == old(visiting) + {node}
    {
      PathExtends(graph, stack, node);
      visiting, stack := visiting + {node}, stack + [node];
    }

    method Leave(node: Node)
      requires Valid() && stack != [] && stack[|stack| - 1] == node && node in graph.nodes
      requires forall d | d in graph.Deps(node) :: graph.Settled(d, finished, errors)
      modifies this`visiting, this`visited, this`stack, this`finished
      ensures Valid() && stack == old(stack)[..|old(stack)| - 1] && visiting == old(visiting) - {node}
      ensures finished == old(finished) + [node]
    {
      FinishOne(graph, node, finished, errors);
      PathShortens(graph, stack);
      visiting, stack := visiting - {node}, stack[..|stack| - 1];
      visited, finished := visited + {node}, finished + [node];
    }

    method Report(e: GraphError)
      requires Valid()
      requires e.CycleAt? ==> e.node in graph.nodes && e.node in stack && e.node in graph.Deps(stack[|stack| - 1])
      requires e.MissingDependency? ==>
        stack != [] && e.node !in graph.nodes && e.node in graph.Deps(stack[|stack| - 1])
      modifies this`errors
      ensures Valid() && errors == old(errors) + [e]
    {
      if e.CycleAt? {
        BackEdge(graph, stack, e.node);
      }
      AllSettledMonotone(graph, finished, errors, errors + [e]);
      errors := errors + [e];
    }

    /** The loop over the dependencies of the node on top of the stack. */
    method VisitAll(node: Node, deps: seq<Node>)
      requires Valid() && stack != [] && stack[|stack| - 1] == node && deps == graph.Deps(node)
      requires node in graph.nodes
      modifies this
      ensures Valid() && Extends()
      ensures forall d | d in deps :: graph.Settled(d, finished, errors)
      decreases graph.nodes - visiting, 1
    {
      for j := 0 to |deps|
        invariant Valid() && Extends()
        invariant forall t | 0 <= t < j :: graph.Settled(deps[t], finished, errors)
      {
        ghost var f, e := finished, errors;
        if deps[j] !in graph.nodes {
          Report(MissingDependency(deps[j]));
        } else {
          Visit(deps[j]);
        }
        forall t | 0 <= t < j ensures graph.Settled(deps[t], finished, errors) {
          SettledMonotone(graph, deps[t], f, e, finished, errors);
        }
      }
    }
  }

  /**
    Nothing is reported exactly when every dependency names a node and there is
    no cycle. All dangling dependencies are reported and nothing else is called
    missing; a reported cycle is one, and every cycle has a reported node.
   */
  method CheckGraph(g: Graph) returns (errors: seq<GraphError>)
    ensures errors == [] <==> g.Closed() && g.Acyclic()
    ensures forall d :: MissingDependency(d) in errors <==> g.Dangling(d)
    ensures forall n | CycleAt(n) in errors :: g.OnCycle(n)
    ensures forall p | g.IsCycle(p) :: exists k :: 0 <= k < |p| && CycleAt(p[k]) in errors
  {
    var search := new GraphCheck(g);
    var rest := g.nodes;
    while rest != {}
      invariant search.Valid() && search.graph == g && search.stack == []
      invariant fresh(search)
      invariant forall n | n in g.nodes && n !in rest :: n in search.finished
      invariant rest <= g.nodes
      decreases |rest|
    {
      var node :| node in rest;
      search.Visit(node);
      rest := rest - {node};
    }
    errors := search.errors;
    ghost var f := search.finished;
    NothingReported(g, f, errors);
    forall d | g.Dangling(d) ensures MissingDependency(d) in errors {
      DanglingReported(g, f, errors, d);
    }
    forall d | MissingDependency(d) in errors ensures g.Dangling(d) {
      assert g.Genuine(MissingDependency(d));
    }
    forall n | CycleAt(n) in errors ensures g.OnCycle(n) {
      assert g.Genuine(CycleAt(n));
    }
    forall p | g.IsCycle(p) ensures exists k :: 0 <= k < |p| && CycleAt(p[k]) in errors {
      CycleReported(g, f, errors, p);
    }
  }

}
