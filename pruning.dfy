/**
 * RemoveBarrenNodes (bayes_network.py:351-368) as a transformation of the
 * graph: a forward pass over a topological order drops every observed
 * non-query node left without incoming arcs, then a backward pass drops
 * every unobserved non-query node left without outgoing arcs. The passes
 * only ask whether a node is a key of the evidence, so they are stated over
 * the set of observed variables.
 */
module Pruning {
  import opened Variables
  import opened NetworkGraph

  /** `remove_node`: the node goes, and with it every arc that touches it. */
  function RemoveNode(g: Graph, v: Var): Graph {
    Graph(g.nodes - {v}, set a | a in g.arcs && a.0 != v && a.1 != v)
  }

  /** `in_degree(v) == 0`. */
  predicate NoArcIn(g: Graph, v: Var) {
    forall a :: a in g.arcs ==> a.1 != v
  }

  /** `out_degree(v) == 0`. */
  predicate NoArcOut(g: Graph, v: Var) {
    forall a :: a in g.arcs ==> a.0 != v
  }

  /** One iteration of the forward loop (bayes_network.py:359-362). */
  function StepForward(g: Graph, v: Var, q: Var, observed: set<Var>): Graph {
    if NoArcIn(g, v) && v in observed && v != q then RemoveNode(g, v) else g
  }

  /** The forward loop run over the list s, in order. */
  function Forward(g: Graph, s: seq<Var>, q: Var, observed: set<Var>): Graph
    decreases |s|
  {
    if s == [] then g
    else StepForward(Forward(g, s[..|s| - 1], q, observed), s[|s| - 1], q, observed)
  }

  /** One iteration of the backward loop (bayes_network.py:363-367), skipping removed nodes. */
  function StepBackward(g: Graph, v: Var, q: Var, observed: set<Var>): Graph {
    if v !in g.nodes then g
    else if NoArcOut(g, v) && v !in observed && v != q then RemoveNode(g, v)
    else g
  }

  /** The backward loop run over the list s from its last element to its first. */
  function Backward(g: Graph, s: seq<Var>, q: Var, observed: set<Var>): Graph
    decreases |s|
  {
    if s == [] then g
    else StepBackward(Backward(g, s[1..], q, observed), s[0], q, observed)
  }

  /** The graph RemoveBarrenNodes leaves in its copy of the network. */
  function Pruned(g: Graph, order: seq<Var>, q: Var, observed: set<Var>): (h: Graph)
    ensures h.nodes <= g.nodes
    ensures q in g.nodes ==> q in h.nodes
    ensures forall v :: v in g.nodes && v !in order ==> v in h.nodes
  {
    ForwardKeeps(g, order, q, observed);
    BackwardKeeps(Forward(g, order, q, observed), order, q, observed);
    Backward(Forward(g, order, q, observed), order, q, observed)
  }

  /** The forward loop only removes nodes, never the query and never a node it has not visited. */
  lemma {:induction false} ForwardKeeps(g: Graph, s: seq<Var>, q: Var, observed: set<Var>)
    ensures Forward(g, s, q, observed).nodes <= g.nodes
    ensures q in g.nodes ==> q in Forward(g, s, q, observed).nodes
    ensures forall v :: v in g.nodes && v !in s ==> v in Forward(g, s, q, observed).nodes
    decreases |s|
  {
    if s != [] {
      var init := s[..|s| - 1];
      ForwardKeeps(g, init, q, observed);
      assert forall v :: v in init ==> v in s;
    }
  }

  /** The backward loop only removes nodes, never the query and never a node it has not visited. */
  lemma {:induction false} BackwardKeeps(g: Graph, s: seq<Var>, q: Var, observed: set<Var>)
    ensures Backward(g, s, q, observed).nodes <= g.nodes
    ensures q in g.nodes ==> q in Backward(g, s, q, observed).nodes
    ensures forall v :: v in g.nodes && v !in s ==> v in Backward(g, s, q, observed).nodes
    decreases |s|
  {
    if s != [] {
      BackwardKeeps(g, s[1..], q, observed);
      assert forall v :: v in s[1..] ==> v in s;
    }
  }

  /** Every arc joins two nodes of the graph. */
  predicate ArcsWithin(g: Graph) {
    forall a :: a in g.arcs ==> a.0 in g.nodes && a.1 in g.nodes
  }

  /** h is the subgraph of g induced by some of g's nodes. */
  ghost predicate Induced(g: Graph, h: Graph) {
    && h.nodes <= g.nodes
    && (forall a :: a in h.arcs <==> a in g.arcs && a.0 in h.nodes && a.1 in h.nodes)
  }

  predicate Distinct(s: seq<Var>) {
    forall i, j :: 0 <= i < j < |s| ==> s[i] != s[j]
  }

  lemma RemoveNodeInduced(g: Graph, h: Graph, v: Var)
    requires Induced(g, h)
    ensures Induced(g, RemoveNode(h, v))
  {
  }

  /**
   * After the forward loop has visited the first n nodes of the order: the
   * graph is an induced subgraph, no node still to be visited is gone, and
   * every node gone is an observed non-query node none of whose parents is
   * left.
   */
  lemma {:induction false} ForwardStage(g: Graph, order: seq<Var>, q: Var, observed: set<Var>, n: int)
    requires ArcsWithin(g) && Distinct(order) && 0 <= n <= |order|
    ensures Induced(g, Forward(g, order[..n], q, observed))
    ensures forall j :: n <= j < |order| && order[j] in g.nodes ==> order[j] in Forward(g, order[..n], q, observed).nodes
    ensures forall v :: v in g.nodes && v !in Forward(g, order[..n], q, observed).nodes ==>
      && v in observed && v != q
      && (forall u :: (u, v) in g.arcs ==> u !in Forward(g, order[..n], q, observed).nodes)
    decreases n
  {
    if n > 0 {
      ForwardStage(g, order, q, observed, n - 1);
      assert order[..n][..n - 1] == order[..n - 1];
      var h := Forward(g, order[..n - 1], q, observed);
      var y := order[n - 1];
      assert Forward(g, order[..n], q, observed) == StepForward(h, y, q, observed);
      if NoArcIn(h, y) && y in observed && y != q {
        RemoveNodeInduced(g, h, y);
      }
    } else {
      assert order[..0] == [];
    }
  }

  /**
   * After the backward loop has visited the nodes of the order from
   * position n on: the graph is an induced subgraph of the forward pass's,
   * no node before position n is gone, and every node it removed is an
   * unobserved non-query node none of whose children is left.
   */
  lemma {:induction false} BackwardStage(g: Graph, f: Graph, order: seq<Var>, q: Var, observed: set<Var>, n: int)
    requires Induced(g, f) && Distinct(order) && 0 <= n <= |order|
    ensures Induced(g, Backward(f, order[n..], q, observed))
    ensures Backward(f, order[n..], q, observed).nodes <= f.nodes
    ensures forall j :: 0 <= j < n && order[j] in f.nodes ==> order[j] in Backward(f, order[n..], q, observed).nodes
    ensures forall v :: v in f.nodes && v !in Backward(f, order[n..], q, observed).nodes ==>
      && v !in observed && v != q
      && (forall w :: (v, w) in g.arcs ==> w !in Backward(f, order[n..], q, observed).nodes)
    decreases |order| - n
  {
    if n < |order| {
      BackwardStage(g, f, order, q, observed, n + 1);
      assert order[n..][1..] == order[n + 1..];
      var h := Backward(f, order[n + 1..], q, observed);
      var y := order[n];
      assert Backward(f, order[n..], q, observed) == StepBackward(h, y, q, observed);
      if y in h.nodes && NoArcOut(h, y) && y !in observed && y != q {
        RemoveNodeInduced(g, h, y);
      }
    } else {
      assert order[n..] == [];
    }
  }

  /**
   * What RemoveBarrenNodes keeps and drops: an induced subgraph that still
   * holds the query; every node it drops is not the query and is either an
   * observed node all of whose parents were dropped and observed, or an
   * unobserved node all of whose children were dropped; and every parent of
   * a node it keeps is kept or observed.
   */
  lemma PrunedShape(g: Graph, order: seq<Var>, q: Var, observed: set<Var>)
    requires ArcsWithin(g) && Distinct(order)
    ensures Induced(g, Pruned(g, order, q, observed))
    ensures q in g.nodes ==> q in Pruned(g, order, q, observed).nodes
    ensures forall v :: v in g.nodes && v !in Pruned(g, order, q, observed).nodes ==>
      && v != q
      && (|| (v in observed && forall u :: (u, v) in g.arcs ==> u in observed && u !in Pruned(g, order, q, observed).nodes)
          || (v !in observed && forall w :: (v, w) in g.arcs ==> w !in Pruned(g, order, q, observed).nodes))
    ensures forall u, v :: (u, v) in g.arcs && v in Pruned(g, order, q, observed).nodes ==>
      u in Pruned(g, order, q, observed).nodes || u in observed
  {
    var f := Forward(g, order, q, observed);
    ForwardStage(g, order, q, observed, |order|);
    assert order[..|order|] == order;
    BackwardStage(g, f, order, q, observed, 0);
    assert order[0..] == order;
    var p := Pruned(g, order, q, observed);
    forall u, v | (u, v) in g.arcs && v in p.nodes
      ensures u in p.nodes || u in observed
    {
    }
  }

  /**
   * The passes read the evidence only through which of the order's nodes
   * are observed: observation sets that agree there prune alike.
   */
  lemma {:induction false} ForwardObservedOnly(g: Graph, s: seq<Var>, q: Var, o1: set<Var>, o2: set<Var>)
    requires forall v :: v in s ==> (v in o1 <==> v in o2)
    ensures Forward(g, s, q, o1) == Forward(g, s, q, o2)
    decreases |s|
  {
    if s != [] {
      ForwardObservedOnly(g, s[..|s| - 1], q, o1, o2);
      assert s[|s| - 1] in s;
    }
  }

  lemma {:induction false} BackwardObservedOnly(g: Graph, s: seq<Var>, q: Var, o1: set<Var>, o2: set<Var>)
    requires forall v :: v in s ==> (v in o1 <==> v in o2)
    ensures Backward(g, s, q, o1) == Backward(g, s, q, o2)
    decreases |s|
  {
    if s != [] {
      BackwardObservedOnly(g, s[1..], q, o1, o2);
      assert s[0] in s;
    }
  }

  lemma PrunedObservedOnly(g: Graph, order: seq<Var>, q: Var, o1: set<Var>, o2: set<Var>)
    requires forall v :: v in order ==> (v in o1 <==> v in o2)
    ensures Pruned(g, order, q, o1) == Pruned(g, order, q, o2)
  {
    ForwardObservedOnly(g, order, q, o1, o2);
    BackwardObservedOnly(Forward(g, order, q, o1), order, q, o1, o2);
  }

  /** The nodes of s that lie in S, in the order of s. */
  function Filter(s: seq<Var>, S: set<Var>): seq<Var>
    decreases |s|
  {
    if s == [] then [] else (if s[0] in S then [s[0]] else []) + Filter(s[1..], S)
  }

  lemma {:induction false} FilterMembers(s: seq<Var>, S: set<Var>)
    ensures forall v :: v in Filter(s, S) <==> v in s && v in S
    decreases |s|
  {
    if s != [] {
      FilterMembers(s[1..], S);
      assert forall v :: v in s <==> v == s[0] || v in s[1..];
    }
  }

  lemma {:induction false} FilterAppend(s1: seq<Var>, s2: seq<Var>, S: set<Var>)
    ensures Filter(s1 + s2, S) == Filter(s1, S) + Filter(s2, S)
    decreases |s1|
  {
    if s1 != [] {
      FilterAppend(s1[1..], s2, S);
      assert (s1 + s2)[0] == s1[0] && (s1 + s2)[1..] == s1[1..] + s2;
    } else {
      assert s1 + s2 == s2;
    }
  }

  lemma {:induction false} FilterKeepsAll(s: seq<Var>, S: set<Var>)
    requires forall v :: v in s ==> v in S
    ensures Filter(s, S) == s
    decreases |s|
  {
    if s != [] {
      FilterKeepsAll(s[1..], S);
      assert s[0] in s;
    }
  }

  lemma {:induction false} FilterWithout(s: seq<Var>, S: set<Var>, y: Var)
    requires y !in s
    ensures Filter(s, S - {y}) == Filter(s, S)
    decreases |s|
  {
    if s != [] {
      FilterWithout(s[1..], S, y);
    }
  }

  /**
   * Filtering an order of distinct nodes around one node y of S: the nodes
   * of S before y, then y, then those after; and without y, the two parts
   * joined.
   */
  lemma FilterSplit(order: seq<Var>, S: set<Var>, n: int)
    requires Distinct(order) && 0 <= n < |order| && order[n] in S
    ensures Filter(order, S) == Filter(order[..n], S) + [order[n]] + Filter(order[n + 1..], S)
    ensures Filter(order, S - {order[n]}) == Filter(order[..n], S) + Filter(order[n + 1..], S)
  {
    var y := order[n];
    assert order == order[..n] + ([y] + order[n + 1..]);
    FilterAppend(order[..n], [y] + order[n + 1..], S);
    FilterAppend(order[..n], [y] + order[n + 1..], S - {y});
    assert ([y] + order[n + 1..])[1..] == order[n + 1..];
    SplitDistinct(order, n);
    FilterWithout(order[..n], S, y);
    FilterWithout(order[n + 1..], S, y);
  }

  /** In a list of distinct nodes, a node occurs neither before nor after its own position. */
  lemma SplitDistinct(order: seq<Var>, n: int)
    requires Distinct(order) && 0 <= n < |order|
    ensures order[n] !in order[..n] && order[n] !in order[n + 1..]
  {
    forall j | 0 <= j < |order| && j != n
      ensures order[j] != order[n]
    {
      if j < n {
        assert order[j] != order[n];
      } else {
        assert order[n] != order[j];
      }
    }
  }

  /**
   * Filtering a topological order of g to the nodes of an induced subgraph
   * gives a topological order of the subgraph.
   */
  lemma FilterTopological(g: Graph, h: Graph, order: seq<Var>)
    requires IsTopologicalOrder(g, order) && Induced(g, h)
    ensures IsTopologicalOrder(h, Filter(order, h.nodes))
  {
    assert ArcsForward(g, order);
    FilterMembers(order, h.nodes);
    FilterDistinct(order, h.nodes);
    FilterForward(g, h, order);
  }

  lemma {:induction false} FilterDistinct(order: seq<Var>, S: set<Var>)
    requires Distinct(order)
    ensures Distinct(Filter(order, S))
    decreases |order|
  {
    if order != [] {
      var rest := order[1..];
      FilterDistinct(rest, S);
      FilterMembers(rest, S);
      HeadNotInRest(order);
    }
  }

  lemma HeadNotInRest(order: seq<Var>)
    requires Distinct(order) && order != []
    ensures order[0] !in order[1..]
  {
    forall j | 0 <= j < |order| - 1
      ensures order[1..][j] != order[0]
    {
      assert order[0] != order[j + 1];
    }
  }

  /** Every arc of g between two nodes of s goes forwards in s. */
  ghost predicate ArcsForward(g: Graph, s: seq<Var>) {
    forall i, j :: 0 <= i < |s| && 0 <= j < |s| && (s[i], s[j]) in g.arcs ==> i < j
  }

  /** Arcs between the head of a topological order and the rest go away from the head. */
  lemma HeadIsSource(g: Graph, order: seq<Var>)
    requires order != [] && ArcsForward(g, order)
    ensures forall x :: x in order ==> (x, order[0]) !in g.arcs
  {
  }

  /** Every arc of the subgraph between two filtered nodes goes forwards. */
  lemma {:induction false} FilterForward(g: Graph, h: Graph, order: seq<Var>)
    requires Induced(g, h) && ArcsForward(g, order)
    ensures ArcsForward(h, Filter(order, h.nodes))
    decreases |order|
  {
    if order != [] {
      var rest := order[1..];
      forall i, j | 0 <= i < |rest| && 0 <= j < |rest| && (rest[i], rest[j]) in g.arcs
        ensures i < j
      {
        assert (order[i + 1], order[j + 1]) in g.arcs;
      }
      FilterForward(g, h, rest);
      FilterMembers(rest, h.nodes);
      HeadIsSource(g, order);
      var r := Filter(rest, h.nodes);
      var y := order[0];
      if y in h.nodes {
        var f := [y] + r;
        assert Filter(order, h.nodes) == f;
        forall i, j | 0 <= i < |f| && 0 <= j < |f| && (f[i], f[j]) in h.arcs
          ensures i < j
        {
          if i > 0 {
            assert f[i] == r[i - 1] && f[i] in rest;
            assert f[i] in order;
          }
          if i > 0 && j > 0 {
            assert f[j] == r[j - 1];
          }
        }
      } else {
        assert Filter(order, h.nodes) == r;
      }
    }
  }
}
