/** The depth-first search for a cycle in the wait-for graph (backend/dfs/common/waitfor-graph.go). */
module CycleSearch {
  import opened Basics
  import opened Uuids

  type Graph = map<Uuid, set<Uuid>>

  /** `Unset` is what a Go map gives for a missing key. */
  datatype Status = Unset | NotVisited | Visiting | Visited

  predicate Edge(g: Graph, a: Uuid, b: Uuid) {
    a in g && b in g[a]
  }

  predicate IsPath(g: Graph, p: seq<Uuid>) {
    forall i | 0 <= i < |p| - 1 :: Edge(g, p[i], p[i + 1])
  }

  predicate IsCycle(g: Graph, c: seq<Uuid>) {
    |c| >= 2 && IsPath(g, c) && c[0] == c[|c| - 1]
  }

  ghost predicate Cyclic(g: Graph) {
    exists c :: IsCycle(g, c)
  }

  /** A path whose last node closes a cycle with an earlier one, and no other node repeats; the nodes
      before that one lead in to the cycle. */
  ghost predicate ClosesCycle(g: Graph, p: seq<Uuid>) {
    |p| >= 2 && IsPath(g, p) && NoRepeats(p[..|p| - 1]) && p[|p| - 1] in p[..|p| - 1]
  }

  lemma ClosesCycleIsCyclic(g: Graph, p: seq<Uuid>)
    requires ClosesCycle(g, p)
    ensures Cyclic(g)
  {
    var k :| 0 <= k < |p| - 1 && p[..|p| - 1][k] == p[|p| - 1];
    var c := p[k..];
    forall i | 0 <= i < |c| - 1
      ensures Edge(g, c[i], c[i + 1])
    {
      assert Edge(g, p[k + i], p[k + i + 1]);
    }
    assert IsCycle(g, c);
  }

  /** Every edge from a node of `order` to a node of the graph goes back to an earlier place. */
  ghost predicate Topological(g: Graph, order: seq<Uuid>) {
    forall i, b | 0 <= i < |order| && Edge(g, order[i], b) && b in g :: b in order[..i]
  }

  /** Along a path the places strictly decrease. */
  lemma {:induction false} EarlierAlongPath(g: Graph, order: seq<Uuid>, c: seq<Uuid>, k: nat, i: nat) returns (j: nat)
    requires Topological(g, order) && IsPath(g, c) && i < |order| && k < |c| && c[0] == order[i]
    requires forall n | n in c :: n in g
    ensures j < |order| && order[j] == c[k] && j <= i && (k > 0 ==> j < i)
  {
    j := i;
    if k > 0 {
      var j0 := EarlierAlongPath(g, order, c, k - 1, i);
      assert Edge(g, c[k - 1], c[k - 1 + 1]);
      assert Edge(g, order[j0], c[k]) && c[k] in g;
      assert c[k] in order[..j0];
      j :| 0 <= j < j0 && order[..j0][j] == c[k];
    }
  }

  /** A graph whose nodes can be so ordered has no cycle. */
  lemma OrderedIsAcyclic(g: Graph, order: seq<Uuid>)
    requires Topological(g, order) && NoRepeats(order) && forall n | n in g :: n in order
    ensures !Cyclic(g)
  {
    if c :| IsCycle(g, c) {
      forall n | n in c
        ensures n in g
      {
        var k :| 0 <= k < |c| && c[k] == n;
        var m := if k == |c| - 1 then 0 else k;
        assert Edge(g, c[m], c[m + 1]);
      }
      assert c[0] in order;
      var i :| 0 <= i < |order| && order[i] == c[0];
      var j := EarlierAlongPath(g, order, c, |c| - 1, i);
    }
  }

  // ----- the state of a search -----

  function StatusIn(visited: map<Uuid, Status>, n: Uuid): Status {
    if n in visited then visited[n] else Unset
  }

  /** The nodes being visited are those of `path`, the visited ones those of `finished`, in topological order. */
  ghost predicate Consistent(g: Graph, visited: map<Uuid, Status>, finished: seq<Uuid>, path: seq<Uuid>) {
    && visited.Keys == g.Keys
    && (forall n :: StatusIn(visited, n) == Visiting <==> n in path)
    && (forall n :: StatusIn(visited, n) == Visited <==> n in finished)
    && (forall n | n in g :: visited[n] != Unset)
    && NoRepeats(path) && IsPath(g, path)
    && NoRepeats(finished) && Topological(g, finished)
  }

  lemma Enter(g: Graph, visited: map<Uuid, Status>, finished: seq<Uuid>, path: seq<Uuid>, n: Uuid)
    requires Consistent(g, visited, finished, path)
    requires StatusIn(visited, n) == NotVisited && IsPath(g, path + [n])
    ensures Consistent(g, visited[n := Visiting], finished, path + [n])
  {
    assert n !in path;
  }

  lemma Leave(g: Graph, visited: map<Uuid, Status>, finished: seq<Uuid>, path: seq<Uuid>, n: Uuid)
    requires Consistent(g, visited, finished, path + [n])
    requires forall b | Edge(g, n, b) && b in g :: b in finished
    ensures Consistent(g, visited[n := Visited], finished + [n], path)
  {
    assert (path + [n])[|path|] == n && StatusIn(visited, n) == Visiting;
    LeavePath(g, path, n);
    LeaveOrder(g, finished, n);
    assert forall m :: m in path + [n] <==> m in path || m == n;
  }

  lemma LeaveOrder(g: Graph, finished: seq<Uuid>, n: Uuid)
    requires NoRepeats(finished) && Topological(g, finished) && n !in finished
    requires forall b | Edge(g, n, b) && b in g :: b in finished
    ensures NoRepeats(finished + [n]) && Topological(g, finished + [n])
  {
    assert forall i | 0 <= i < |finished| :: (finished + [n])[..i] == finished[..i];
    assert (finished + [n])[..|finished|] == finished;
  }

  lemma LeavePath(g: Graph, path: seq<Uuid>, n: Uuid)
    requires IsPath(g, path + [n]) && NoRepeats(path + [n])
    ensures IsPath(g, path) && NoRepeats(path) && n !in path
  {
    var p := path + [n];
    forall i | 0 <= i < |path| - 1
      ensures Edge(g, path[i], path[i + 1])
    {
      assert Edge(g, p[i], p[i + 1]);
    }
    assert p[|path|] == n && forall i | 0 <= i < |path| :: path[i] == p[i];
  }

  lemma ExtendPath(g: Graph, path: seq<Uuid>, n: Uuid)
    requires IsPath(g, path) && (path == [] || Edge(g, path[|path| - 1], n))
    ensures IsPath(g, path + [n])
  {
    var p := path + [n];
    forall i | 0 <= i < |p| - 1
      ensures Edge(g, p[i], p[i + 1])
    {
      if i < |path| - 1 {
        assert Edge(g, path[i], path[i + 1]);
      }
    }
  }

  lemma Close(g: Graph, path: seq<Uuid>, n: Uuid)
    requires path != [] && IsPath(g, path) && NoRepeats(path) && Edge(g, path[|path| - 1], n) && n in path
    ensures ClosesCycle(g, path + [n])
  {
    ExtendPath(g, path, n);
    assert (path + [n])[..|path|] == path;
  }

  lemma Seen(g: Graph, visited: map<Uuid, Status>, finished: seq<Uuid>, path: seq<Uuid>, n: Uuid)
    requires Consistent(g, visited, finished, path)
    requires StatusIn(visited, n) != NotVisited && n !in path && n in g
    ensures n in finished
  {
  }

  lemma AllSeen(g: Graph, visited: map<Uuid, Status>, finished: seq<Uuid>)
    requires Consistent(g, visited, finished, []) && forall n | n in g :: n in finished
    ensures !Cyclic(g)
  {
    OrderedIsAcyclic(g, finished);
  }

  function NotVisitedIn(visited: map<Uuid, Status>): set<Uuid> {
    set n | n in visited && visited[n] == NotVisited
  }

  /** The `visited` map that the recursive calls share. */
  class Search {
    const graph: Graph
    var visited: map<Uuid, Status>
    /** The visited nodes in the order in which their calls returned. */
    ghost var finished: seq<Uuid>

    constructor (graph: Graph)
      ensures this.graph == graph && Valid([])
    {
      this.graph := graph;
      visited := map n | n in graph :: NotVisited;
      finished := [];
    }

    ghost predicate Valid(path: seq<Uuid>)
      reads this
    {
      Consistent(graph, visited, finished, path)
    }

    method Dfs(nodeID: Uuid, path0: seq<Uuid>) returns (hasCycle: bool, cyclePath: seq<Uuid>)
      requires Valid(path0) && StatusIn(visited, nodeID) == NotVisited && IsPath(graph, path0 + [nodeID])
      modifies this
      ensures !hasCycle ==> Valid(path0) && nodeID in finished && forall n | n in old(finished) :: n in finished
      ensures !hasCycle ==> NotVisitedIn(visited) < old(NotVisitedIn(visited))
      ensures hasCycle ==> ClosesCycle(graph, cyclePath)
      decreases NotVisitedIn(visited)
    {
      var path := path0 + [nodeID];
      Enter(graph, visited, finished, path0, nodeID);
      assert nodeID in NotVisitedIn(visited);
      visited := visited[nodeID := Visiting];
      assert nodeID !in NotVisitedIn(visited);
      var edges := graph[nodeID];
      while edges != {}
        invariant edges <= graph[nodeID]
        invariant Valid(path) && forall n | n in old(finished) :: n in finished
        invariant NotVisitedIn(visited) < old(NotVisitedIn(visited))
        invariant forall b | b in graph[nodeID] - edges && b in graph :: b in finished
        decreases edges
      {
        var edge :| edge in edges;
        edges := edges - {edge};
        if StatusIn(visited, edge) == Visiting {
          Close(graph, path, edge);
          return true, path + [edge];
        }
        if StatusIn(visited, edge) == NotVisited {
          ExtendPath(graph, path, edge);
          hasCycle, cyclePath := Dfs(edge, path);
          if hasCycle {
            return true, cyclePath;
          }
        } else if edge in graph {
          Seen(graph, visited, finished, path, edge);
        }
      }
      Leave(graph, visited, finished, path0, nodeID);
      visited := visited[nodeID := Visited];
      finished := finished + [nodeID];
      return false, [];
    }
  }

  /** HasCycle answers whether the graph has a directed cycle, whatever the iteration orders. */
  method HasCycle(graph: Graph) returns (hasCycle: bool, cyclePath: seq<Uuid>)
    ensures hasCycle <==> Cyclic(graph)
    ensures hasCycle ==> ClosesCycle(graph, cyclePath)
  {
    if |graph| == 0 {
      OrderedIsAcyclic(graph, []);
      return false, [];
    }
    var search := new Search(graph);
    var nodes := graph.Keys;
    hasCycle := false;
    while nodes != {}
      invariant nodes <= graph.Keys && search.graph == graph && fresh(search)
      invariant search.Valid([]) && !hasCycle
      invariant forall n | n in graph.Keys - nodes :: n in search.finished
    {
      var node :| node in nodes;
      nodes := nodes - {node};
      if StatusIn(search.visited, node) == NotVisited {
        hasCycle, cyclePath := search.Dfs(node, []);
        if hasCycle {
          ClosesCycleIsCyclic(graph, cyclePath);
          return true, cyclePath;
        }
      } else {
        Seen(graph, search.visited, search.finished, [], node);
      }
    }
    AllSeen(graph, search.visited, search.finished);
    return false, [];
  }
}
