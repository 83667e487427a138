// The dependency graph of calibration nodes: a directed graph over node
// names with an optional 'weight' edge attribute (missing counts as 1) and an
// optional 'type' node attribute, the networkx queries the resolvers use
// (shortest path, ancestors, node removal), and the `graph_condition` filter.
module Graph {
  import opened Common

  /** A snapshot of a networkx DiGraph: its edges, the nodes added on their
      own, the 'weight' edge attribute and the 'type' node attribute. */
  datatype Graph<N(==, !new)> = Graph(
    edges: seq<(N, N)>,
    extra: seq<N>,
    weight: map<(N, N), nat>,
    types: map<N, string>)

  function Empty<N(==, !new)>(): Graph<N>
  {
    Graph([], [], map[], map[])
  }

  function Nodes<N(==, !new)>(g: Graph<N>): set<N>
  {
    (set e | e in g.edges :: e.0) + (set e | e in g.edges :: e.1) + (set n | n in g.extra)
  }

  predicate HasEdge<N(==, !new)>(g: Graph<N>, u: N, v: N)
  {
    (u, v) in g.edges
  }

  /** The weight networkx uses for an edge: its 'weight' attribute, else 1. */
  function W<N(==, !new)>(g: Graph<N>, u: N, v: N): nat
  {
    if (u, v) in g.weight then g.weight[(u, v)] else 1
  }

  // ---------------------------------------------------------------------
  // Paths and their weights.

  predicate IsPath<N(==, !new)>(g: Graph<N>, p: seq<N>)
  {
    |p| >= 1 && p[0] in Nodes(g) && forall i :: 0 <= i < |p| - 1 ==> HasEdge(g, p[i], p[i + 1])
  }

  predicate PathFrom<N(==, !new)>(g: Graph<N>, p: seq<N>, s: N, t: N)
  {
    IsPath(g, p) && p[0] == s && p[|p| - 1] == t
  }

  function PathWeight<N(==, !new)>(g: Graph<N>, p: seq<N>): nat
  {
    if |p| <= 1 then 0 else PathWeight(g, p[..|p| - 1]) + W(g, p[|p| - 2], p[|p| - 1])
  }

  /** Extending a path by one edge adds that edge's weight. */
  lemma PathWeightSnoc<N(!new)>(g: Graph<N>, p: seq<N>, v: N)
    requires |p| >= 1
    ensures PathWeight(g, p + [v]) == PathWeight(g, p) + W(g, p[|p| - 1], v)
  {
    assert (p + [v])[..|p|] == p;
  }

  /** A path from `s` to `t` of minimal total weight among all such paths. */
  ghost predicate IsShortestPath<N(!new)>(g: Graph<N>, p: seq<N>, s: N, t: N)
  {
    PathFrom(g, p, s, t) && forall q :: PathFrom(g, q, s, t) ==> PathWeight(g, p) <= PathWeight(g, q)
  }

  /** No path of two or more vertices returns to its start. */
  ghost predicate Acyclic<N(!new)>(g: Graph<N>)
  {
    forall p :: IsPath(g, p) && |p| >= 2 ==> p[0] != p[|p| - 1]
  }

  /** A node is an endpoint of an edge or was added on its own, and conversely. */
  lemma NodeWitness<N(!new)>(g: Graph<N>, n: N)
    ensures n in Nodes(g) <==> n in g.extra || (exists v :: HasEdge(g, n, v)) || (exists u :: HasEdge(g, u, n))
  {
    if n in Nodes(g) && n !in g.extra {
      if n in (set e | e in g.edges :: e.0) {
        var e :| e in g.edges && e.0 == n;
        assert HasEdge(g, n, e.1);
      } else {
        var e :| e in g.edges && e.1 == n;
        assert HasEdge(g, e.0, n);
      }
    }
    if exists v :: HasEdge(g, n, v) {
      var v :| HasEdge(g, n, v);
      var e := (n, v);
      assert e in g.edges && e.0 == n;
    }
    if exists u :: HasEdge(g, u, n) {
      var u :| HasEdge(g, u, n);
      var e := (u, n);
      assert e in g.edges && e.1 == n;
    }
  }

  lemma PathVerticesAreNodes<N(!new)>(g: Graph<N>, p: seq<N>)
    requires IsPath(g, p)
    ensures forall i :: 0 <= i < |p| ==> p[i] in Nodes(g)
  {
    forall i | 0 < i < |p|
      ensures p[i] in Nodes(g)
    {
      assert HasEdge(g, p[i - 1], p[i]);
      var e := (p[i - 1], p[i]);
      assert e in g.edges && e.1 == p[i];
    }
  }

  lemma SnocPath<N(!new)>(g: Graph<N>, p: seq<N>, s: N, u: N, v: N)
    requires PathFrom(g, p, s, u) && HasEdge(g, u, v)
    ensures PathFrom(g, p + [v], s, v)
    ensures PathWeight(g, p + [v]) == PathWeight(g, p) + W(g, u, v)
  {
    assert (p + [v])[..|p|] == p;
  }

  lemma PrefixPath<N(!new)>(g: Graph<N>, q: seq<N>, s: N, t: N)
    requires PathFrom(g, q, s, t) && |q| >= 2
    ensures PathFrom(g, q[..|q| - 1], s, q[|q| - 2])
    ensures HasEdge(g, q[|q| - 2], t)
    ensures PathWeight(g, q) == PathWeight(g, q[..|q| - 1]) + W(g, q[|q| - 2], t)
  {
  }

  /** A contiguous piece of a path is a path. */
  lemma SlicePath<N(!new)>(g: Graph<N>, p: seq<N>, i: nat, j: nat)
    requires IsPath(g, p) && i < j <= |p|
    ensures IsPath(g, p[i..j])
  {
    PathVerticesAreNodes(g, p);
  }

  // ---------------------------------------------------------------------
  // Shortest paths: the best path of at most k edges, computed edge by edge
  // (a Bellman-Ford style recursion). networkx's tie-breaking is not
  // modelled: the contract is "a path of minimal total weight".

  function Best<N(==, !new)>(g: Graph<N>, src: N, v: N, k: nat): Option<seq<N>>
    decreases k, 1
  {
    if v == src then (if src in Nodes(g) then Some([src]) else None)
    else if k == 0 then None
    else BestVia(g, src, v, k, g.edges, None)
  }

  /** The better of `acc` and the candidate that reaches `v` through `cand`. */
  function Better<N(==, !new)>(g: Graph<N>, acc: Option<seq<N>>, cand: Option<seq<N>>, v: N): Option<seq<N>>
  {
    match cand
    case None => acc
    case Some(p) =>
      if acc.None? || PathWeight(g, p + [v]) < PathWeight(g, acc.value) then Some(p + [v]) else acc
  }

  function BestVia<N(==, !new)>(g: Graph<N>, src: N, v: N, k: nat, es: seq<(N, N)>, acc: Option<seq<N>>): Option<seq<N>>
    requires k >= 1
    decreases k, 0, |es|
  {
    if |es| == 0 then acc
    else
      var acc' := if es[0].1 != v then acc else Better(g, acc, Best(g, src, es[0].0, k - 1), v);
      BestVia(g, src, v, k, es[1..], acc')
  }

  lemma {:induction false} BestViaCorrect<N(!new)>(g: Graph<N>, src: N, v: N, k: nat, es: seq<(N, N)>, acc: Option<seq<N>>)
    requires k >= 1 && v != src
    requires forall j :: 0 <= j < |es| ==> es[j] in g.edges
    requires acc.Some? ==> PathFrom(g, acc.value, src, v) && |acc.value| <= k + 1
    ensures var r := BestVia(g, src, v, k, es, acc);
      (r.Some? ==> PathFrom(g, r.value, src, v) && |r.value| <= k + 1)
      && (acc.Some? ==> r.Some? && PathWeight(g, r.value) <= PathWeight(g, acc.value))
      && (forall j :: 0 <= j < |es| && es[j].1 == v && Best(g, src, es[j].0, k - 1).Some? ==>
            r.Some? && PathWeight(g, r.value) <= PathWeight(g, Best(g, src, es[j].0, k - 1).value) + W(g, es[j].0, v))
    decreases k, 0, |es|
  {
    if |es| > 0 {
      var u := es[0].0;
      var b := Best(g, src, u, k - 1);
      var acc' := if es[0].1 != v then acc else Better(g, acc, b, v);
      if es[0].1 == v {
        BetterStep(g, src, u, v, k, acc);
      }
      BestViaCorrect(g, src, v, k, es[1..], acc');
      var r := BestVia(g, src, v, k, es, acc);
      assert r == BestVia(g, src, v, k, es[1..], acc');
      forall j | 0 < j < |es| && es[j].1 == v && Best(g, src, es[j].0, k - 1).Some?
        ensures r.Some? && PathWeight(g, r.value) <= PathWeight(g, Best(g, src, es[j].0, k - 1).value) + W(g, es[j].0, v)
      {
        assert es[1..][j - 1] == es[j];
      }
    }
  }

  /** Offering the best path to `u` extended by the edge (u, v) keeps a path
      to `v` of at most k edges that is no heavier than the one held before
      or than the offered one. */
  lemma BetterStep<N(!new)>(g: Graph<N>, src: N, u: N, v: N, k: nat, acc: Option<seq<N>>)
    requires k >= 1 && v != src && (u, v) in g.edges
    requires acc.Some? ==> PathFrom(g, acc.value, src, v) && |acc.value| <= k + 1
    ensures var b := Best(g, src, u, k - 1);
      var r := Better(g, acc, b, v);
      (r.Some? ==> PathFrom(g, r.value, src, v) && |r.value| <= k + 1)
      && (acc.Some? ==> r.Some? && PathWeight(g, r.value) <= PathWeight(g, acc.value))
      && (b.Some? ==> r.Some? && PathWeight(g, r.value) <= PathWeight(g, b.value) + W(g, u, v))
    decreases k, 0, 0
  {
    var b := Best(g, src, u, k - 1);
    BestCorrect(g, src, u, k - 1);
    if b.Some? {
      SnocPath(g, b.value, src, u, v);
    }
  }

  /** `Best` returns a path of at most k edges, and it is no heavier than any
      other path of at most k edges; it returns None only when there is none. */
  lemma {:induction false} BestCorrect<N(!new)>(g: Graph<N>, src: N, v: N, k: nat)
    ensures var r := Best(g, src, v, k);
      (r.Some? ==> PathFrom(g, r.value, src, v) && |r.value| <= k + 1)
      && (forall q :: PathFrom(g, q, src, v) && |q| <= k + 1 ==> r.Some? && PathWeight(g, r.value) <= PathWeight(g, q))
    decreases k, 1
  {
    var r := Best(g, src, v, k);
    if v == src {
      forall q | PathFrom(g, q, src, v) && |q| <= k + 1
        ensures r.Some? && PathWeight(g, r.value) <= PathWeight(g, q)
      {
      }
    } else if k == 0 {
      forall q | PathFrom(g, q, src, v) && |q| <= k + 1
        ensures false
      {
      }
    } else {
      BestViaCorrect(g, src, v, k, g.edges, None);
      forall q | PathFrom(g, q, src, v) && |q| <= k + 1
        ensures r.Some? && PathWeight(g, r.value) <= PathWeight(g, q)
      {
        BestBeatsPath(g, src, v, k, q);
      }
    }
  }

  /** `Best` is no heavier than a given path of at most k edges: the path's
      last edge comes from a vertex whose best path is no heavier than the
      path's prefix. */
  lemma {:induction false} BestBeatsPath<N(!new)>(g: Graph<N>, src: N, v: N, k: nat, q: seq<N>)
    requires v != src && k >= 1 && PathFrom(g, q, src, v) && |q| <= k + 1
    ensures Best(g, src, v, k).Some? && PathWeight(g, Best(g, src, v, k).value) <= PathWeight(g, q)
    decreases k, 0, |g.edges| + 1
  {
    assert |q| >= 2;
    var u := q[|q| - 2];
    PrefixPath(g, q, src, v);
    BestCorrect(g, src, u, k - 1);
    var b := Best(g, src, u, k - 1);
    assert b.Some? && PathWeight(g, b.value) <= PathWeight(g, q[..|q| - 1]);
    var j :| 0 <= j < |g.edges| && g.edges[j] == (u, v);
    BestViaCorrect(g, src, v, k, g.edges, None);
  }

  /** In an acyclic graph no path repeats a vertex. */
  lemma AcyclicPathDistinct<N(!new)>(g: Graph<N>, p: seq<N>)
    requires Acyclic(g) && IsPath(g, p)
    ensures forall i, j :: 0 <= i < j < |p| ==> p[i] != p[j]
  {
    forall i, j | 0 <= i < j < |p|
      ensures p[i] != p[j]
    {
      SlicePath(g, p, i, j + 1);
      assert p[i..j + 1][0] == p[i];
      assert p[i..j + 1][j - i] == p[j];
    }
  }

  /** A repetition-free sequence drawn from a set is no longer than the set. */
  lemma {:induction false} DistinctBound<N(!new)>(p: seq<N>, s: set<N>)
    requires forall i :: 0 <= i < |p| ==> p[i] in s
    requires forall i, j :: 0 <= i < j < |p| ==> p[i] != p[j]
    ensures |p| <= |s|
  {
    if |p| > 0 {
      var rest := s - {p[0]};
      forall i | 0 <= i < |p[1..]|
        ensures p[1..][i] in rest
      {
        assert p[1..][i] == p[i + 1];
      }
      DistinctBound(p[1..], rest);
    }
  }

  /** In an acyclic graph every path has at most as many vertices as the graph. */
  lemma AcyclicPathBound<N(!new)>(g: Graph<N>, p: seq<N>)
    requires Acyclic(g) && IsPath(g, p)
    ensures |p| <= |Nodes(g)|
  {
    AcyclicPathDistinct(g, p);
    PathVerticesAreNodes(g, p);
    DistinctBound(p, Nodes(g));
  }

  /** `nx.shortest_path(graph, s, t, weight='weight')`: NodeNotFound when an
      end is not in the graph, NoPath when `t` is unreachable. */
  function ShortestPath<N(==, !new)>(g: Graph<N>, s: N, t: N): (r: Result<seq<N>>)
    ensures r.Ok? ==> PathFrom(g, r.value, s, t) && s in Nodes(g) && t in Nodes(g)
    ensures r.Err? ==>
      || (r.error == NodeNotFound && (s !in Nodes(g) || t !in Nodes(g)))
      || (r.error == NoPath && s in Nodes(g) && t in Nodes(g))
  {
    if s !in Nodes(g) then Err(NodeNotFound)
    else if t !in Nodes(g) then Err(NodeNotFound)
    else
      BestCorrect(g, s, t, |Nodes(g)|);
      match Best(g, s, t, |Nodes(g)|)
      case Some(p) => Ok(p)
      case None => Err(NoPath)
  }

  /** On an acyclic graph `ShortestPath` finds a path of minimal weight
      whenever a path exists, raises NoPath exactly when none exists, and
      raises NodeNotFound exactly when an end is missing. */
  lemma ShortestPathCorrect<N(!new)>(g: Graph<N>, s: N, t: N)
    requires Acyclic(g)
    ensures ShortestPath(g, s, t).Ok? ==> IsShortestPath(g, ShortestPath(g, s, t).value, s, t)
    ensures ShortestPath(g, s, t).Ok? <==> exists q :: PathFrom(g, q, s, t)
    ensures ShortestPath(g, s, t).Err? && ShortestPath(g, s, t).error == NodeNotFound <==> s !in Nodes(g) || t !in Nodes(g)
  {
    var r := ShortestPath(g, s, t);
    if s in Nodes(g) && t in Nodes(g) {
      BestCorrect(g, s, t, |Nodes(g)|);
      forall q | PathFrom(g, q, s, t)
        ensures r.Ok? && PathWeight(g, r.value) <= PathWeight(g, q)
      {
        AcyclicPathBound(g, q);
      }
    } else {
      forall q | PathFrom(g, q, s, t)
        ensures false
      {
        PathVerticesAreNodes(g, q);
      }
    }
  }

  // ---------------------------------------------------------------------
  // The unweighted variant: `nx.shortest_path(graph, s, t)` without a weight
  // counts edges.

  function Unweighted<N(==, !new)>(g: Graph<N>): (u: Graph<N>)
    ensures Nodes(u) == Nodes(g) && u.edges == g.edges
  {
    g.(weight := map[])
  }

  lemma UnweightedPathWeight<N(!new)>(g: Graph<N>, p: seq<N>)
    requires |p| >= 1
    ensures PathWeight(Unweighted(g), p) == |p| - 1
  {
    if |p| > 1 {
      UnweightedPathWeight(g, p[..|p| - 1]);
    }
  }

  /** The unweighted shortest path has the fewest edges among all paths. */
  lemma FewestEdges<N(!new)>(g: Graph<N>, s: N, t: N)
    requires Acyclic(g)
    ensures ShortestPath(Unweighted(g), s, t).Ok? ==>
      var p := ShortestPath(Unweighted(g), s, t).value;
      PathFrom(g, p, s, t) && forall q :: PathFrom(g, q, s, t) ==> |p| <= |q|
  {
    var u := Unweighted(g);
    assert forall p :: IsPath(u, p) <==> IsPath(g, p);
    assert Acyclic(u);
    ShortestPathCorrect(u, s, t);
    var r := ShortestPath(u, s, t);
    if r.Ok? {
      forall q | PathFrom(g, q, s, t)
        ensures |r.value| <= |q|
      {
        assert PathFrom(u, q, s, t);
        UnweightedPathWeight(g, q);
        UnweightedPathWeight(g, r.value);
      }
    }
  }

  // ---------------------------------------------------------------------
  // Ancestors.

  ghost predicate IsAncestor<N(!new)>(g: Graph<N>, a: N, t: N)
  {
    a != t && exists q :: PathFrom(g, q, a, t)
  }

  /** `a in nx.ancestors(graph, t)`: NodeNotFound when `t` is not in the graph. */
  function AncestorQuery<N(==, !new)>(g: Graph<N>, a: N, t: N): (r: Result<bool>)
    ensures r.Err? <==> t !in Nodes(g)
  {
    if t !in Nodes(g) then Err(NodeNotFound) else Ok(a != t && Best(g, a, t, |Nodes(g)|).Some?)
  }

  lemma AncestorQueryCorrect<N(!new)>(g: Graph<N>, a: N, t: N)
    requires Acyclic(g) && t in Nodes(g)
    ensures AncestorQuery(g, a, t) == Ok(IsAncestor(g, a, t))
  {
    BestCorrect(g, a, t, |Nodes(g)|);
    if exists q :: PathFrom(g, q, a, t) {
      var q :| PathFrom(g, q, a, t);
      AcyclicPathBound(g, q);
    }
  }

  // ---------------------------------------------------------------------
  // Graph updates.

  /** `graph.add_node(n)` / `graph.add_node(n, type=t)`: a type, when given,
      replaces any earlier one; edges and weights are untouched. */
  function AddNode<N(==, !new)>(g: Graph<N>, n: N, t: Option<string>): (r: Graph<N>)
    ensures r.edges == g.edges && r.weight == g.weight
    ensures t.Some? ==> r.types == g.types[n := t.value]
    ensures t.None? ==> r.types == g.types
  {
    g.(extra := g.extra + [n], types := if t.Some? then g.types[n := t.value] else g.types)
  }

  /** Adding a node adds exactly that node. */
  lemma AddNodeNodes<N(!new)>(g: Graph<N>, n: N, t: Option<string>)
    ensures Nodes(AddNode(g, n, t)) == Nodes(g) + {n}
  {
    var r := AddNode(g, n, t);
    assert (set m | m in r.extra) == (set m | m in g.extra) + {n};
  }

  /** `graph.remove_node(n)`: the node and every edge touching it disappear. */
  function RemoveNode<N(==, !new)>(g: Graph<N>, n: N): (r: Graph<N>)
    ensures n !in Nodes(r) && Nodes(r) <= Nodes(g)
    ensures forall u, v :: HasEdge(r, u, v) <==> HasEdge(g, u, v) && u != n && v != n
    ensures forall u, v :: u != n && v != n ==> W(r, u, v) == W(g, u, v)
  {
    Graph(
      RemoveEdges(g.edges, n),
      RemoveAll(g.extra, n),
      map k | k in g.weight && k.0 != n && k.1 != n :: g.weight[k],
      map m | m in g.types && m != n :: g.types[m])
  }

  function RemoveEdges<N(==, !new)>(es: seq<(N, N)>, n: N): (r: seq<(N, N)>)
    ensures forall e :: e in r <==> e in es && e.0 != n && e.1 != n
  {
    if |es| == 0 then []
    else (if es[0].0 != n && es[0].1 != n then [es[0]] else []) + RemoveEdges(es[1..], n)
  }

  function RemoveAll<N(==, !new)>(xs: seq<N>, n: N): (r: seq<N>)
    ensures forall x :: x in r <==> x in xs && x != n
  {
    if |xs| == 0 then [] else (if xs[0] != n then [xs[0]] else []) + RemoveAll(xs[1..], n)
  }

  /** A path of the reduced graph is a path of the original avoiding `n`. */
  lemma RemoveNodePaths<N(!new)>(g: Graph<N>, n: N, p: seq<N>)
    ensures IsPath(RemoveNode(g, n), p) ==> IsPath(g, p) && n !in p
  {
    var r := RemoveNode(g, n);
    if IsPath(r, p) {
      PathVerticesAreNodes(r, p);
    }
  }

  lemma RemoveNodeAcyclic<N(!new)>(g: Graph<N>, n: N)
    requires Acyclic(g)
    ensures Acyclic(RemoveNode(g, n))
  {
    forall p | IsPath(RemoveNode(g, n), p) && |p| >= 2
      ensures p[0] != p[|p| - 1]
    {
      RemoveNodePaths(g, n, p);
    }
  }

  // ---------------------------------------------------------------------
  // The `graph_condition` filter.

  /** `graph_condition(node, types)`: a node without a 'type' attribute is
      kept; otherwise its type must be a substring of `types`. */
  predicate Keep<N(==, !new)>(g: Graph<N>, n: N, types: string)
  {
    n !in g.types || IsSubstring(g.types[n], types)
  }

  /** `[node for node in order if graph_condition(node, types)]`. */
  function FilterOrder<N(==, !new)>(g: Graph<N>, order: seq<N>, types: string): (r: seq<N>)
    ensures |r| <= |order|
  {
    if |order| == 0 then []
    else (if Keep(g, order[0], types) then [order[0]] else []) + FilterOrder(g, order[1..], types)
  }

  /** `a` is `b` with some elements left out, order kept. */
  predicate Subsequence<T(==)>(a: seq<T>, b: seq<T>)
  {
    if |b| == 0 then |a| == 0
    else (|a| > 0 && a[0] == b[0] && Subsequence(a[1..], b[1..])) || Subsequence(a, b[1..])
  }

  /** The filter keeps exactly the nodes satisfying the condition, in their order. */
  lemma {:induction false} FilterOrderCorrect<N(!new)>(g: Graph<N>, order: seq<N>, types: string)
    ensures Subsequence(FilterOrder(g, order, types), order)
    ensures forall n :: n in FilterOrder(g, order, types) <==> n in order && Keep(g, n, types)
  {
    if |order| > 0 {
      FilterOrderCorrect(g, order[1..], types);
      var rest := FilterOrder(g, order[1..], types);
      if Keep(g, order[0], types) {
        assert ([order[0]] + rest)[1..] == rest;
      } else {
        assert [] + rest == rest;
      }
      assert forall n :: n in order <==> n == order[0] || n in order[1..];
    }
  }

  /** Filtering distributes over concatenation. */
  lemma {:induction false} FilterOrderAppend<N(!new)>(g: Graph<N>, a: seq<N>, b: seq<N>, types: string)
    ensures FilterOrder(g, a + b, types) == FilterOrder(g, a, types) + FilterOrder(g, b, types)
  {
    if |a| == 0 {
      assert a + b == b;
    } else {
      assert (a + b)[1..] == a[1..] + b;
      FilterOrderAppend(g, a[1..], b, types);
    }
  }

  /** When no node of the order carries a type, filtering changes nothing. */
  lemma {:induction false} FilterUntyped<N(!new)>(g: Graph<N>, order: seq<N>, types: string)
    requires forall i :: 0 <= i < |order| ==> order[i] !in g.types
    ensures FilterOrder(g, order, types) == order
  {
    if |order| > 0 {
      FilterUntyped(g, order[1..], types);
    }
  }

  // ---------------------------------------------------------------------
  // The mutable networkx graph object that the modules build at import time.

  class DiGraph<N(==, !new)> {
    var g: Graph<N>

    /** `nx.DiGraph()`. */
    constructor ()
      ensures g == Empty()
    {
      g := Empty();
    }

    /** `graph.add_edges_from(es)`. */
    method AddEdgesFrom(es: seq<(N, N)>)
      modifies this
      ensures g == old(g).(edges := old(g).edges + es)
    {
      g := g.(edges := g.edges + es);
    }

    /** `graph.add_node(n)` or `graph.add_node(n, type=t)`. */
    method AddNodeWith(n: N, t: Option<string>)
      modifies this
      ensures g == AddNode(old(g), n, t)
    {
      g := AddNode(g, n, t);
    }

    /** `graph[u][v]['weight'] = w`: KeyError when the edge is missing. */
    method SetEdgeWeight(u: N, v: N, w: nat) returns (r: Result<()>)
      modifies this
      ensures r.Ok? <==> HasEdge(old(g), u, v)
      ensures r.Ok? ==> g == old(g).(weight := old(g).weight[(u, v) := w]) && W(g, u, v) == w
      ensures r.Err? ==> g == old(g) && r.error == MissingEdge
    {
      if (u, v) in g.edges {
        g := g.(weight := g.weight[(u, v) := w]);
        r := Ok(());
      } else {
        r := Err(MissingEdge);
      }
    }

    /** `graph.remove_node(n)`: NetworkXError when `n` is not a node. */
    method RemoveNodeFrom(n: N) returns (r: Result<()>)
      modifies this
      ensures r.Ok? <==> n in Nodes(old(g))
      ensures g == if r.Ok? then RemoveNode(old(g), n) else old(g)
      ensures r.Err? ==> r.error == NodeNotFound
    {
      if n in Nodes(g) {
        g := RemoveNode(g, n);
        r := Ok(());
      } else {
        r := Err(NodeNotFound);
      }
    }
  }

  // ---------------------------------------------------------------------
  // A sufficient condition for acyclicity: a rank that grows along edges.

  lemma {:induction false} RankGrowsAlongPath<N(!new)>(g: Graph<N>, rank: N -> nat, p: seq<N>)
    requires forall e :: e in g.edges ==> rank(e.0) < rank(e.1)
    requires IsPath(g, p) && |p| >= 2
    ensures rank(p[0]) < rank(p[|p| - 1])
  {
    var e := (p[|p| - 2], p[|p| - 1]);
    assert HasEdge(g, e.0, e.1);
    if |p| > 2 {
      RankGrowsAlongPath(g, rank, p[..|p| - 1]);
    }
  }

  lemma RankedIsAcyclic<N(!new)>(g: Graph<N>, rank: N -> nat)
    requires forall e :: e in g.edges ==> rank(e.0) < rank(e.1)
    ensures Acyclic(g)
  {
    forall p | IsPath(g, p) && |p| >= 2
      ensures p[0] != p[|p| - 1]
    {
      RankGrowsAlongPath(g, rank, p);
    }
  }

  /** Edges that follow a predecessor relation along which a rank grows
      leave no cycle. */
  lemma PredecessorsAcyclic<N(!new)>(g: Graph<N>, preds: N -> set<N>, rank: N -> nat)
    requires forall u, v :: HasEdge(g, u, v) ==> u in preds(v)
    requires forall u, v :: u in preds(v) ==> rank(u) < rank(v)
    ensures Acyclic(g)
  {
    forall e | e in g.edges
      ensures rank(e.0) < rank(e.1)
    {
      assert HasEdge(g, e.0, e.1);
    }
    RankedIsAcyclic(g, rank);
  }

  /** A node no edge enters can only start a path. */
  lemma SourceOnlyFirst<N(!new)>(g: Graph<N>, q: seq<N>, v: N)
    requires IsPath(g, q) && forall u :: !HasEdge(g, u, v)
    ensures forall i :: 0 < i < |q| ==> q[i] != v
  {
    forall i | 0 < i < |q|
      ensures q[i] != v
    {
      assert HasEdge(g, q[i - 1], q[i]);
    }
  }
}
