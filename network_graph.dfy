/**
 * The directed acyclic graph the constructor builds (bayes_network.py:28-41):
 * an arc season -> vertex for every vertex and vertex -> edge for every
 * fragment edge the vertex is an endpoint of.
 */
module NetworkGraph {
  import opened Variables
  import opened CptModel

  /** A directed graph: its nodes and its arcs (parent, child). */
  datatype Graph = Graph(nodes: set<Var>, arcs: set<(Var, Var)>)

  /** The nodes of the network: the season, every vertex and every fragment edge. */
  function NetworkVars(t: Tables): (s: set<Var>)
    ensures forall v :: v in s <==> InTables(t, v)
  {
    {Season} + (set c | c in t.vertexCpt :: Vertex(c)) + (set k | k in t.edgeCpt :: Edge(k.0, k.1))
  }

  /**
   * The arcs `__init__` adds: season -> every vertex with a table, and every
   * vertex with a table -> every fragment edge it is an endpoint of.
   */
  predicate IsArc(t: Tables, u: Var, v: Var) {
    || (u == Season && v.Vertex? && v.c in t.vertexCpt)
    || (u.Vertex? && u.c in t.vertexCpt && v.Edge? && (v.a, v.b) in t.edgeCpt && (u.c == v.a || u.c == v.b))
  }

  /** The graph `__init__` assembles from the tables. */
  function BuildGraph(t: Tables): (g: Graph)
    ensures g.nodes == NetworkVars(t)
    ensures forall u: Var, v: Var :: (u, v) in g.arcs <==> IsArc(t, u, v)
  {
    var seasonArcs := set c | c in t.vertexCpt :: (Season, Vertex(c));
    var vertexArcs := set c, k | c in t.vertexCpt && k in t.edgeCpt && (c == k.0 || c == k.1) :: (Vertex(c), Edge(k.0, k.1));
    assert forall u: Var, v: Var :: IsArc(t, u, v) ==> (u, v) in seasonArcs + vertexArcs by {
      forall u: Var, v: Var | IsArc(t, u, v)
        ensures (u, v) in seasonArcs + vertexArcs
      {
        if u.Vertex? {
          var k := (v.a, v.b);
          assert (Vertex(u.c), Edge(k.0, k.1)) in vertexArcs;
        }
      }
    }
    Graph(NetworkVars(t), seasonArcs + vertexArcs)
  }

  /**
   * In a well-formed network the graph's arcs into a variable come exactly
   * from the variables its table is conditioned on.
   */
  lemma ArcsAreParents(t: Tables, u: Var, v: Var)
    requires WellFormed(t) && InTables(t, v)
    ensures IsArc(t, u, v) <==> u in CptParents(v)
  {
  }

  /** The layer of a variable: season 0, vertices 1, fragment edges 2. */
  function Layer(v: Var): nat {
    match v
    case Season => 0
    case Vertex(_) => 1
    case Edge(_, _) => 2
  }

  /** Every arc goes one layer down, so the graph is acyclic. */
  lemma ArcsGoDown(t: Tables, u: Var, v: Var)
    requires (u, v) in BuildGraph(t).arcs
    ensures Layer(u) + 1 == Layer(v)
    ensures u in BuildGraph(t).nodes && v in BuildGraph(t).nodes
  {
  }

  /**
   * An order of a graph's nodes as nx.topological_sort returns it: each node
   * once, and every arc going forwards.
   */
  ghost predicate IsTopologicalOrder(g: Graph, order: seq<Var>) {
    && (forall i, j :: 0 <= i < j < |order| ==> order[i] != order[j])
    && (forall v :: v in order <==> v in g.nodes)
    && (forall i, j :: 0 <= i < |order| && 0 <= j < |order| && (order[i], order[j]) in g.arcs ==> i < j)
  }
}
