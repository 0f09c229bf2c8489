/**
 * The BayesNetwork object (bayes_network.py:8-368): the tables it is built
 * from, the directed graph it assembles, the evidence it holds, and the
 * methods that change state step by step: the constructor, ClearEvidence,
 * RemoveBarrenNodes (two loops over a copy), EnumerationAsk (a loop that
 * writes into the caller's evidence) and FindNonBlockedPath (a running
 * maximum). Each method is proved against the function that specifies it.
 */
module BayesNet {
  import opened Variables
  import opened CptModel
  import opened NetworkGraph
  import opened Enumeration
  import opened Normalization
  import opened NetworkFactor
  import opened Pruning
  import opened Inference
  import opened Paths

  /** The prefix of a list as long as the list is the list. */
  lemma WholePrefix(all: Dist)
    ensures all[..|all|] == all
  {
  }

  /** One more turn of RemoveBarrenNodes' forward loop. */
  lemma ForwardLoopStep(g: Graph, order: seq<Var>, k: int, q: Var, observed: set<Var>)
    requires 0 <= k < |order|
    ensures Forward(g, order[..k + 1], q, observed) == StepForward(Forward(g, order[..k], q, observed), order[k], q, observed)
  {
    assert order[..k + 1][..k] == order[..k];
  }

  /** One more turn of RemoveBarrenNodes' backward loop. */
  lemma BackwardLoopStep(g: Graph, order: seq<Var>, i: int, q: Var, observed: set<Var>)
    requires 0 <= i < |order|
    ensures Backward(g, order[i..], q, observed) == StepBackward(Backward(g, order[i + 1..], q, observed), order[i], q, observed)
  {
    assert order[i..][1..] == order[i + 1..];
  }

  /**
   * Pruning a subgraph induced in the network leaves a subgraph induced in
   * the network, and keeps the query.
   */
  lemma PrunedValid(net: Graph, g: Graph, order: seq<Var>, q: Var, observed: set<Var>)
    requires Induced(net, g) && Distinct(order)
    ensures Backward(Forward(g, order[..|order|], q, observed), order[0..], q, observed) == Pruned(g, order, q, observed)
    ensures Induced(net, Pruned(g, order, q, observed))
    ensures q in g.nodes ==> q in Pruned(g, order, q, observed).nodes
  {
    assert order[..|order|] == order && order[0..] == order;
    PrunedShape(g, order, q, observed);
  }

  /**
   * The pruned network for the query set to x, listed in the network's
   * order, is the list Ask enumerates.
   */
  lemma PrunedOrderOf(t: Tables, order: seq<Var>, q: Var, e: Evidence, x: Val, g: Graph)
    requires g == Pruned(BuildGraph(t), order, q, e[q := x].Keys)
    ensures Filter(order, g.nodes) == PrunedOrder(t, order, q, e)
  {
    assert e[q := x].Keys == e.Keys + {q};
  }

  /**
   * One turn of EnumerationAsk's loop, at the i-th value of the domain:
   * when its lookups succeed, its weight extends the weights so far and the
   * first failure is further on; when one fails, the loop raises there,
   * leaving that value in the evidence.
   */
  lemma LoopTurn(t: Tables, nodes: seq<Var>, q: Var, e: Evidence, i: int, prefix: Dist)
    requires 0 <= i < |Options(q)| && i <= FirstKeyError(t, nodes, q, e, 0)
    requires prefix == Weights(t, nodes, q, e)[..i]
    ensures NoKeyError(t, nodes, e[q := Options(q)[i]]) ==>
      && prefix + [(Options(q)[i], EnumerationAll(NetFactor(t), nodes, e[q := Options(q)[i]]))]
         == Weights(t, nodes, q, e)[..i + 1]
      && i + 1 <= FirstKeyError(t, nodes, q, e, 0)
    ensures !NoKeyError(t, nodes, e[q := Options(q)[i]]) ==>
      && Enumerate(t, nodes, q, e) == None
      && Written(t, nodes, q, e) == e[q := Options(q)[i]]
  {
    if NoKeyError(t, nodes, e[q := Options(q)[i]]) {
      WeightsExtend(t, nodes, q, e, i, prefix);
    } else {
      LoopRaises(t, nodes, q, e, i);
    }
  }

  /** The weight of the i-th value extends the weights of the values before it. */
  lemma WeightsExtend(t: Tables, nodes: seq<Var>, q: Var, e: Evidence, i: int, prefix: Dist)
    requires 0 <= i < |Options(q)|
    requires prefix == Weights(t, nodes, q, e)[..i]
    ensures prefix + [(Options(q)[i], EnumerationAll(NetFactor(t), nodes, e[q := Options(q)[i]]))]
         == Weights(t, nodes, q, e)[..i + 1]
  {
    var w := Weights(t, nodes, q, e);
    assert w[..i + 1] == w[..i] + [w[i]];
  }

  /**
   * When the first failed lookup is at the i-th value of the domain, the
   * loop raises there, leaving that value in the evidence.
   */
  lemma LoopRaises(t: Tables, nodes: seq<Var>, q: Var, e: Evidence, i: int)
    requires 0 <= i <= FirstKeyError(t, nodes, q, e, 0) && i < |Options(q)|
    requires !NoKeyError(t, nodes, e[q := Options(q)[i]])
    ensures Enumerate(t, nodes, q, e) == None
    ensures Written(t, nodes, q, e) == e[q := Options(q)[i]]
  {
  }

  /**
   * A query the network does not hold, and an observed query, are answered
   * without enumeration and leave the evidence alone.
   */
  lemma AskAnswersAtOnce(t: Tables, order: seq<Var>, query: Var, e: Evidence)
    requires Canon(query) !in BuildGraph(t).nodes || Canon(query) in e
    ensures Ask(t, order, query, e) ==
      if Canon(query) !in BuildGraph(t).nodes then Some(AbsentAnswer)
      else if e[Canon(query)] in Options(Canon(query)) then
        Some(PointMass(e[Canon(query)], RemoveFirst(Options(Canon(query)), e[Canon(query)])))
      else None
    ensures AskEvidence(t, order, query, e) == e
  {
  }

  /** An unobserved query the network holds is answered by the loop. */
  lemma AskUnobserved(t: Tables, order: seq<Var>, query: Var, e: Evidence)
    requires Canon(query) in BuildGraph(t).nodes && Canon(query) !in e
    ensures Ask(t, order, query, e) == Enumerate(t, PrunedOrder(t, order, Canon(query), e), Canon(query), e)
    ensures AskEvidence(t, order, query, e) == Written(t, PrunedOrder(t, order, Canon(query), e), Canon(query), e)
  {
  }

  /**
   * When no lookup fails, the loop normalizes the weights, leaving the last
   * value of the domain in the evidence.
   */
  lemma LoopCompletes(t: Tables, nodes: seq<Var>, q: Var, e: Evidence)
    requires FirstKeyError(t, nodes, q, e, 0) == |Options(q)|
    ensures Enumerate(t, nodes, q, e) == Some(Normalize(Weights(t, nodes, q, e)))
    ensures Written(t, nodes, q, e) == e[q := Options(q)[|Options(q)| - 1]]
  {
  }

  class BayesNetwork {
    /** `_season`, `_nodesCPT` and `_fragEdgesCPT`. */
    const tables: Tables
    /** The grid size `x` and `y` (`_grid` is nx.grid_2d_graph(x + 1, y + 1)). */
    const width: int
    const height: int
    /** `_bn`: the directed graph of the network. */
    var bn: Graph
    /** `_evidence`. */
    var evidence: Evidence

    /**
     * The graph is the network the tables define, or what pruning left of
     * it: the subgraph induced by some of its nodes.
     */
    ghost predicate Valid()
      reads this
    {
      Induced(BuildGraph(tables), bn)
    }

    /** `__init__`: the graph assembled from the tables, no evidence. */
    constructor (season: map<Level, real>, fragEdgesCpt: map<(Coord, Coord), map<(bool, bool), real>>,
                 nodesCpt: map<Coord, map<Level, real>>, x: int, y: int)
      ensures tables == Tables(season, nodesCpt, fragEdgesCpt) && width == x && height == y
      ensures bn == BuildGraph(tables) && evidence == map[]
      ensures Valid()
    {
      tables := Tables(season, nodesCpt, fragEdgesCpt);
      width := x;
      height := y;
      bn := BuildGraph(Tables(season, nodesCpt, fragEdgesCpt));
      evidence := map[];
    }

    /** `cp.deepcopy(other)`: a new object with the same contents. */
    constructor Copy(other: BayesNetwork)
      ensures tables == other.tables && width == other.width && height == other.height
      ensures bn == other.bn && evidence == other.evidence
    {
      tables := other.tables;
      width := other.width;
      height := other.height;
      bn := other.bn;
      evidence := other.evidence;
    }

    /** ClearEvidence: the evidence becomes empty; nothing else changes. */
    method ClearEvidence()
      modifies this
      ensures evidence == map[] && bn == old(bn)
    {
      evidence := map[];
    }

    /**
     * RemoveBarrenNodes: on a copy, the forward loop over the topological
     * order then the backward loop over its reverse. The network itself is
     * left alone; the copy keeps the query and is still an induced subgraph
     * of the network the tables define.
     */
    method RemoveBarrenNodes(query: Var, e: Evidence, order: seq<Var>) returns (newBN: BayesNetwork)
      requires Valid() && Distinct(order)
      ensures fresh(newBN)
      ensures newBN.tables == tables && newBN.width == width && newBN.height == height
      ensures newBN.evidence == evidence
      ensures newBN.bn == Pruned(bn, order, query, e.Keys)
      ensures newBN.Valid()
      ensures query in bn.nodes ==> query in newBN.bn.nodes
    {
      newBN := new BayesNetwork.Copy(this);
      ghost var g := bn;
      var k := 0;
      while k < |order|
        invariant 0 <= k <= |order|
        invariant newBN.evidence == evidence
        invariant newBN.bn == Forward(g, order[..k], query, e.Keys)
      {
        var node := order[k];
        ghost var before := newBN.bn;
        if NoArcIn(newBN.bn, node) && node in e && node != query {
          newBN.bn := RemoveNode(newBN.bn, node);
        }
        assert newBN.bn == StepForward(before, node, query, e.Keys);
        ForwardLoopStep(g, order, k, query, e.Keys);
        k := k + 1;
      }
      ghost var f := newBN.bn;
      var i := |order|;
      while i > 0
        invariant 0 <= i <= |order|
        invariant newBN.evidence == evidence
        invariant newBN.bn == Backward(f, order[i..], query, e.Keys)
      {
        i := i - 1;
        var node := order[i];
        ghost var before := newBN.bn;
        if node in newBN.bn.nodes && NoArcOut(newBN.bn, node) && node !in e && node != query {
          newBN.bn := RemoveNode(newBN.bn, node);
        }
        assert newBN.bn == StepBackward(before, node, query, e.Keys);
        BackwardLoopStep(f, order, i, query, e.Keys);
      }
      PrunedValid(BuildGraph(tables), g, order, query, e.Keys);
    }

    /**
     * EnumerationAsk: the answer and the caller's evidence afterwards. A
     * query the network does not hold and an observed query are answered at
     * once; otherwise the loop answers.
     */
    method EnumerationAsk(query: Var, e: Evidence, order: seq<Var>) returns (r: Option<Dist>, eAfter: Evidence)
      requires Valid() && bn == BuildGraph(tables) && Distinct(order)
      ensures r == Ask(tables, order, query, e)
      ensures eAfter == AskEvidence(tables, order, query, e)
    {
      var q := Canon(query);
      if q !in bn.nodes || q in e {
        AskAnswersAtOnce(tables, order, query, e);
        if q !in bn.nodes {
          return Some(AbsentAnswer), e;
        }
        if e[q] !in Options(q) {
          return None, e;
        }
        return Some(PointMass(e[q], RemoveFirst(Options(q), e[q]))), e;
      }
      AskUnobserved(tables, order, query, e);
      r, eAfter := EnumerateOptions(q, e, order);
    }

    /**
     * The loop of EnumerationAsk for the canonical query q: for each value
     * of the domain it writes the value into the caller's evidence, prunes
     * the network and enumerates what is left in the network's order; a
     * failed lookup ends the call with the evidence as it stands. Otherwise
     * the weights are normalized.
     */
    method EnumerateOptions(q: Var, e: Evidence, order: seq<Var>) returns (r: Option<Dist>, eAfter: Evidence)
      requires Valid() && bn == BuildGraph(tables) && Distinct(order)
      ensures r == Enumerate(tables, PrunedOrder(tables, order, q, e), q, e)
      ensures eAfter == Written(tables, PrunedOrder(tables, order, q, e), q, e)
    {
      var options := Options(q);
      ghost var nodes := PrunedOrder(tables, order, q, e);
      ghost var firstError := FirstKeyError(tables, nodes, q, e, 0);
      var queryDict: Dist := [];
      eAfter := e;
      var i := 0;
      ghost var last := -1;
      while i < |options|
        invariant 0 <= i <= |options|
        invariant queryDict == Weights(tables, nodes, q, e)[..i]
        invariant last == i - 1
        invariant last >= 0 ==> eAfter == e[q := options[last]]
        invariant i <= firstError
      {
        // `e[query] = q`: only the query's entry of the caller's evidence changes.
        eAfter := e[q := options[i]];
        last := i;
        var barrenBN := RemoveBarrenNodes(q, eAfter, order);
        var barrenNodes := Filter(order, barrenBN.bn.nodes);
        PrunedOrderOf(tables, order, q, e, options[i], barrenBN.bn);
        LoopTurn(tables, nodes, q, e, i, queryDict);
        if !NoKeyError(tables, barrenNodes, eAfter) {
          return None, eAfter;
        }
        queryDict := queryDict + [(options[i], EnumerationAll(NetFactor(tables), barrenNodes, eAfter))];
        i := i + 1;
      }
      WholePrefix(Weights(tables, nodes, q, e));
      LoopCompletes(tables, nodes, q, e);
      r := Some(Normalize(queryDict));
    }

    /**
     * FindNonBlockedPath: the edge lists of the given node paths (the
     * paths nx.all_simple_paths lists between the two vertices), each
     * scored with EnumerationAskSet as written (Inference.AskSetAsWritten),
     * and the running maximum of (score, path) from (0, []);
     * Paths.BestPathSpec states what that is. Like EnumerationAsk, which
     * scores every path on the object's own graph, it is asked of the whole
     * network.
     */
    method FindNonBlockedPath(e: Evidence, order: seq<Var>, nodePaths: seq<NodePath>) returns (r: Option<Scored>)
      requires Valid() && bn == BuildGraph(tables)
      ensures r == BestPath(tables, order, nodePaths, e)
    {
      var t := tables;
      var allPathEdges := AllPathEdges(nodePaths);
      ghost var score := PathScorer(t, order, e);
      var highProb := Start;
      var i := 0;
      while i < |allPathEdges|
        invariant 0 <= i <= |allPathEdges|
        invariant Best(score, allPathEdges[..i]) == Some(highProb)
      {
        var path := allPathEdges[i];
        var p := AskSetAsWritten(t, order, Queries(path), e);
        assert p == score(path);
        BestStep(score, allPathEdges, i);
        if p.None? {
          BestSucceeds(score, allPathEdges);
          return None;
        }
        highProb := Max(highProb, (p.value, path));
        i := i + 1;
      }
      assert allPathEdges[..i] == allPathEdges;
      r := Some(highProb);
    }
  }
}
