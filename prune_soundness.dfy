/**
 * Why EnumerationAsk may enumerate the pruned network instead of the whole
 * one (bayes_network.py:255-262, 351-368): over a topological order of the
 * network, the full enumeration is a fixed multiple of the enumeration over
 * the nodes RemoveBarrenNodes keeps, and the multiple does not depend on the
 * value the query is set to.
 */
module PruneSoundness {
  import opened Variables
  import opened CptModel
  import opened NetworkGraph
  import opened Enumeration
  import opened NetworkFactor
  import opened Pruning

  /**
   * A graph whose arcs are the parent relation: arcs join its nodes, the
   * arcs into a node come exactly from the variables its table is
   * conditioned on, and every node is a canonical variable.
   */
  ghost predicate ParentGraph(g: Graph) {
    && ArcsWithin(g)
    && (forall u, v :: v in g.nodes ==> ((u, v) in g.arcs <==> u in CptParents(v)))
    && (forall v :: v in g.nodes ==> Canon(v) == v)
  }

  /**
   * The network's graph: arcs join its nodes, the arcs into a node come
   * exactly from the variables its table is conditioned on, and every node
   * is a canonical variable of the tables.
   */
  lemma NetworkArcs(t: Tables)
    requires WellFormed(t)
    ensures ParentGraph(BuildGraph(t))
    ensures forall v :: v in BuildGraph(t).nodes ==> InTables(t, v)
  {
    var g := BuildGraph(t);
    forall a | a in g.arcs
      ensures a.0 in g.nodes && a.1 in g.nodes
    {
      ArcsGoDown(t, a.0, a.1);
    }
    forall u, v | v in g.nodes
      ensures (u, v) in g.arcs <==> u in CptParents(v)
    {
      ArcsAreParents(t, u, v);
    }
    forall v | v in g.nodes
      ensures InTables(t, v) && Canon(v) == v
    {
      NetworkVarIsCanonical(t, v);
    }
  }

  /** Two lists equal to two others stand in the same ratio. */
  lemma RatioCongruent(P: FactorFn, n1: seq<Var>, n2: seq<Var>, m1: seq<Var>, m2: seq<Var>, e: Evidence, c: real)
    requires n1 == m1 && n2 == m2 && Ratio(P, n1, n2, e, c)
    ensures Ratio(P, m1, m2, e, c)
  {
  }

  /** The product of the first k of the reals C(0), C(1), ..., multiplied in from the left. */
  ghost function ProductOf(C: int -> real, k: nat): real {
    if k == 0 then 1.0 else ProductOf(C, k - 1) * C(k - 1)
  }

  /**
   * Along a chain of lists each a known multiple of the next, the first is
   * the product of the multiples times the k-th.
   */
  lemma {:induction false} Telescope(P: FactorFn, L: int -> seq<Var>, C: int -> real, e: Evidence, k: nat)
    requires forall i :: 0 <= i < k ==> Ratio(P, L(i), L(i + 1), e, C(i))
    ensures Ratio(P, L(0), L(k), e, ProductOf(C, k))
  {
    if k == 0 {
      RatioSame(P, L(0), e);
    } else {
      Telescope(P, L, C, e, k - 1);
      RatioChain(P, L(0), L(k - 1), L(k), e, ProductOf(C, k - 1), C(k - 1));
    }
  }

  /**
   * Taking an observed variable whose parents are all observed out of a
   * filtered order divides the enumeration by its factor.
   */
  lemma DropObservedAt(P: FactorFn, order: seq<Var>, S: set<Var>, n: int, e: Evidence)
    requires ReadsParents(P) && Distinct(order) && 0 <= n < |order| && order[n] in S
    requires Canon(order[n]) == order[n] && order[n] in e && CptParents(order[n]) <= e.Keys
    ensures Ratio(P, Filter(order, S), Filter(order, S - {order[n]}), e, P(order[n], e, e[order[n]]))
  {
    var y := order[n];
    FilterSplit(order, S, n);
    var a := Filter(order[..n], S);
    var b := Filter(order[n + 1..], S);
    DropObservedRoot(P, a, y, b, e);
    RatioCongruent(P, a + [y] + b, a + b, Filter(order, S), Filter(order, S - {y}), e, P(y, e, e[y]));
  }

  /**
   * Taking out of a filtered order an unobserved variable that nothing
   * after it reads, and whose parents are observed or listed before it,
   * divides the enumeration by its mass.
   */
  lemma DropUnobservedAt(P: FactorFn, order: seq<Var>, S: set<Var>, n: int, e: Evidence, m: real)
    requires ReadsParents(P) && Distinct(order) && Canonical(order) && 0 <= n < |order| && order[n] in S
    requires HasMass(P, order[n], m) && WellTyped(e) && order[n] !in e
    requires order[n] !in Reads(Filter(order[n + 1..], S))
    requires CptParents(order[n]) <= e.Keys + Elems(Filter(order[..n], S))
    ensures Ratio(P, Filter(order, S), Filter(order, S - {order[n]}), e, m)
  {
    var y := order[n];
    FilterSplit(order, S, n);
    SplitDistinct(order, n);
    var a := Filter(order[..n], S);
    var b := Filter(order[n + 1..], S);
    FilterMembers(order[..n], S);
    DropUnobserved(P, a, y, b, e, m);
    RatioCongruent(P, a + [y] + b, a + b, Filter(order, S), Filter(order, S - {y}), e, m);
  }

  /**
   * What the forward loop's visit of position i divides the enumeration
   * by: the factor of an observed root it removes, and 1 otherwise.
   */
  ghost function ForwardCoef(P: FactorFn, g: Graph, order: seq<Var>, q: Var, e: Evidence, i: int): real
    requires 0 <= i < |order|
  {
    var y := order[i];
    if NoArcIn(Forward(g, order[..i], q, e.Keys + {q}), y) && y in e && y != q then P(y, e, e[y]) else 1.0
  }

  /**
   * The forward loop's visit of position i: under the query set to x, the
   * enumeration over the nodes left before it is ForwardCoef times the
   * enumeration over the nodes left after it.
   */
  lemma ForwardStep(P: FactorFn, g: Graph, order: seq<Var>, q: Var, e: Evidence, x: Val, i: int)
    requires ReadsParents(P) && ParentGraph(g) && IsTopologicalOrder(g, order)
    requires q !in e && 0 <= i < |order|
    ensures Ratio(P, Filter(order, Forward(g, order[..i], q, e.Keys + {q}).nodes),
                  Filter(order, Forward(g, order[..i + 1], q, e.Keys + {q}).nodes),
                  e[q := x], ForwardCoef(P, g, order, q, e, i))
  {
    var h := Forward(g, order[..i], q, e.Keys + {q});
    ForwardVisit(g, order, q, e, i);
    if NoArcIn(h, order[i]) && order[i] in e && order[i] != q {
      ForwardDrop(P, order, h, q, e, x, i);
    } else {
      RatioSame(P, Filter(order, h.nodes), e[q := x]);
    }
  }

  /** Removing an observed node whose parents are all observed, with the query set to x. */
  lemma ForwardDrop(P: FactorFn, order: seq<Var>, h: Graph, q: Var, e: Evidence, x: Val, i: int)
    requires ReadsParents(P) && Distinct(order) && q !in e && 0 <= i < |order|
    requires order[i] in h.nodes && Canon(order[i]) == order[i] && order[i] in e && order[i] != q
    requires CptParents(order[i]) <= e.Keys
    ensures Ratio(P, Filter(order, h.nodes), Filter(order, RemoveNode(h, order[i]).nodes), e[q := x], P(order[i], e, e[order[i]]))
  {
    var y := order[i];
    var e' := e[q := x];
    assert e'[y] == e[y];
    assert P(y, e', e'[y]) == P(y, e, e[y]) by {
      assert AgreeOn(e', e, CptParents(y));
    }
    DropObservedAt(P, order, h.nodes, i, e');
  }

  lemma RatioSame(P: FactorFn, n: seq<Var>, e: Evidence)
    ensures Ratio(P, n, n, e, 1.0)
  {
  }

  /**
   * The forward loop's visit of position i removes the node there exactly
   * when it is an observed non-query node with no arc in; such a node is
   * still present and canonical, and all its parents are observed.
   */
  lemma ForwardVisit(g: Graph, order: seq<Var>, q: Var, e: Evidence, i: int)
    requires ParentGraph(g) && IsTopologicalOrder(g, order)
    requires q !in e && 0 <= i < |order|
    ensures var h := Forward(g, order[..i], q, e.Keys + {q});
      && Forward(g, order[..i + 1], q, e.Keys + {q}) == StepForward(h, order[i], q, e.Keys + {q})
      && (NoArcIn(h, order[i]) && order[i] in e && order[i] != q ==>
            order[i] in h.nodes && Canon(order[i]) == order[i] && CptParents(order[i]) <= e.Keys)
  {
    var ks := e.Keys + {q};
    var h := Forward(g, order[..i], q, ks);
    var y := order[i];
    assert order[..i + 1][..i] == order[..i] && order[..i + 1][i] == y;
    if NoArcIn(h, y) && y in e && y != q {
      ForwardStage(g, order, q, ks, i);
      assert y in g.nodes;
      forall u | u in CptParents(y)
        ensures u in e
      {
        assert (u, y) in g.arcs;
      }
    }
  }

  /**
   * What the backward loop's visit of position n divides the enumeration
   * by: the mass of an unobserved leaf it removes, and 1 otherwise.
   */
  ghost function BackwardCoef(M: Var -> real, f: Graph, order: seq<Var>, q: Var, e: Evidence, n: int): real
    requires 0 <= n < |order|
  {
    var h := Backward(f, order[n + 1..], q, e.Keys + {q});
    var y := order[n];
    if y in h.nodes && NoArcOut(h, y) && y !in e && y != q then M(y) else 1.0
  }

  /** Every node of g has a mass given by M. */
  ghost predicate Masses(P: FactorFn, g: Graph, M: Var -> real) {
    forall v :: v in g.nodes ==> HasMass(P, v, M(v))
  }

  /**
   * The backward loop's visit of position n: under the query set to x, the
   * enumeration over the nodes left before it is BackwardCoef times the
   * enumeration over the nodes left after it.
   */
  lemma BackwardStep(P: FactorFn, M: Var -> real, g: Graph, order: seq<Var>, q: Var, e: Evidence, x: Val, n: int)
    requires ReadsParents(P) && Masses(P, g, M) && ParentGraph(g) && IsTopologicalOrder(g, order)
    requires q !in e && WellTyped(e) && x in Options(q) && 0 <= n < |order|
    ensures var f := Forward(g, order, q, e.Keys + {q});
      Ratio(P, Filter(order, Backward(f, order[n + 1..], q, e.Keys + {q}).nodes),
            Filter(order, Backward(f, order[n..], q, e.Keys + {q}).nodes),
            e[q := x], BackwardCoef(M, f, order, q, e, n))
  {
    var ks := e.Keys + {q};
    var f := Forward(g, order, q, ks);
    var h := Backward(f, order[n + 1..], q, ks);
    var y := order[n];
    BackwardVisit(g, order, q, e, n);
    if y in h.nodes && NoArcOut(h, y) && y !in e && y != q {
      var e' := e[q := x];
      WellTypedUpdate(e, q, x);
      assert e'.Keys == ks;
      DropUnobservedAt(P, order, h.nodes, n, e', M(y));
    }
  }

  /**
   * The backward loop's visit of position n removes the node there exactly
   * when it is still present, unobserved, not the query and has no arc
   * out; nothing after such a node in the order reads it, and its parents
   * are observed or still listed before it.
   */
  lemma BackwardVisit(g: Graph, order: seq<Var>, q: Var, e: Evidence, n: int)
    requires ParentGraph(g) && IsTopologicalOrder(g, order)
    requires 0 <= n < |order|
    ensures var f := Forward(g, order, q, e.Keys + {q});
      var h := Backward(f, order[n + 1..], q, e.Keys + {q});
      && Distinct(order) && Canonical(order)
      && Backward(f, order[n..], q, e.Keys + {q}) == StepBackward(h, order[n], q, e.Keys + {q})
      && (order[n] in h.nodes && NoArcOut(h, order[n]) && order[n] !in e && order[n] != q ==>
            && order[n] !in Reads(Filter(order[n + 1..], h.nodes))
            && CptParents(order[n]) <= e.Keys + {q} + Elems(Filter(order[..n], h.nodes)))
  {
    var ks := e.Keys + {q};
    var f := Forward(g, order, q, ks);
    var next := order[n + 1..];
    var h := Backward(f, next, q, ks);
    var y := order[n];
    assert order[n..][1..] == next && order[n..][0] == y;
    assert Canonical(order) by {
      forall v | v in order
        ensures Canon(v) == v
      {
        assert v in g.nodes;
      }
    }
    if y in h.nodes && NoArcOut(h, y) && y !in e && y != q {
      ForwardStage(g, order, q, ks, |order|);
      assert order[..|order|] == order;
      BackwardStage(g, f, order, q, ks, n + 1);
      SplitDistinct(order, n);
      var a := Filter(order[..n], h.nodes);
      var b := Filter(next, h.nodes);
      FilterMembers(order[..n], h.nodes);
      FilterMembers(next, h.nodes);
      forall z | z in b
        ensures Canon(z) == z && z != y && y !in CptParents(z)
      {
        assert z in g.nodes;
      }
      NotInReads(b, y);
      forall u | u in CptParents(y)
        ensures u in ks + Elems(a)
      {
        assert (u, y) in g.arcs;
        var j :| 0 <= j < |order| && order[j] == u;
        assert j < n;
        assert order[..n][j] == u;
      }
    }
  }

  /**
   * The i-th node list of the chain the two loops go through, filtered to
   * the topological order: for i up to |order| the forward loop's before its
   * visit of position i (the last of these being where the backward loop
   * starts), then the backward loop's after its visit of position
   * 2 * |order| - i; the last one is what RemoveBarrenNodes keeps.
   */
  ghost function PruneList(g: Graph, order: seq<Var>, q: Var, ks: set<Var>, i: int): seq<Var>
    requires 0 <= i <= 2 * |order|
  {
    var N := |order|;
    if i <= N then Filter(order, Forward(g, order[..i], q, ks).nodes)
    else Filter(order, Backward(Forward(g, order, q, ks), order[2 * N - i..], q, ks).nodes)
  }

  /** The multiple between the i-th list of the chain and the next. */
  ghost function PruneCoef(P: FactorFn, M: Var -> real, g: Graph, order: seq<Var>, q: Var, e: Evidence, i: int): real
    requires 0 <= i < 2 * |order|
  {
    var N := |order|;
    if i < N then ForwardCoef(P, g, order, q, e, i)
    else BackwardCoef(M, Forward(g, order, q, e.Keys + {q}), order, q, e, 2 * N - 1 - i)
  }

  /** The chain's lists as a function of their position. */
  ghost function PruneLists(g: Graph, order: seq<Var>, q: Var, ks: set<Var>): int -> seq<Var> {
    i => if 0 <= i <= 2 * |order| then PruneList(g, order, q, ks, i) else []
  }

  /** The chain's multiples as a function of their position. */
  ghost function PruneCoefs(P: FactorFn, M: Var -> real, g: Graph, order: seq<Var>, q: Var, e: Evidence): int -> real {
    i => if 0 <= i < 2 * |order| then PruneCoef(P, M, g, order, q, e, i) else 1.0
  }

  /**
   * The multiple pruning takes out: the product of the removed observed
   * roots' factors and the removed leaves' masses. It is stated without
   * the value the query is set to.
   */
  ghost function PruneFactor(P: FactorFn, M: Var -> real, g: Graph, order: seq<Var>, q: Var, e: Evidence): real {
    ProductOf(PruneCoefs(P, M, g, order, q, e), 2 * |order|)
  }

  /** Each link of the chain: each list is its PruneCoef multiple of the next. */
  lemma PruneStep(P: FactorFn, M: Var -> real, g: Graph, order: seq<Var>, q: Var, e: Evidence, x: Val, i: int)
    requires ReadsParents(P) && Masses(P, g, M) && ParentGraph(g) && IsTopologicalOrder(g, order)
    requires q !in e && WellTyped(e) && x in Options(q) && 0 <= i < 2 * |order|
    ensures Ratio(P, PruneList(g, order, q, e.Keys + {q}, i), PruneList(g, order, q, e.Keys + {q}, i + 1),
                  e[q := x], PruneCoef(P, M, g, order, q, e, i))
  {
    var N := |order|;
    var ks := e.Keys + {q};
    var f := Forward(g, order, q, ks);
    var e' := e[q := x];
    if i < N {
      ForwardStep(P, g, order, q, e, x, i);
      ForwardListAt(g, order, q, ks, i);
      ForwardListAt(g, order, q, ks, i + 1);
      RatioCongruent(P, Filter(order, Forward(g, order[..i], q, ks).nodes), Filter(order, Forward(g, order[..i + 1], q, ks).nodes),
                     PruneList(g, order, q, ks, i), PruneList(g, order, q, ks, i + 1), e', PruneCoef(P, M, g, order, q, e, i));
    } else {
      var n := 2 * N - 1 - i;
      BackwardStep(P, M, g, order, q, e, x, n);
      BackwardListAt(g, order, q, ks, n + 1);
      BackwardListAt(g, order, q, ks, n);
      RatioCongruent(P, Filter(order, Backward(f, order[n + 1..], q, ks).nodes), Filter(order, Backward(f, order[n..], q, ks).nodes),
                     PruneList(g, order, q, ks, i), PruneList(g, order, q, ks, i + 1), e', PruneCoef(P, M, g, order, q, e, i));
    }
  }

  /** The lists of the chain up to the |order|-th are the forward loop's. */
  lemma ForwardListAt(g: Graph, order: seq<Var>, q: Var, ks: set<Var>, i: int)
    requires 0 <= i <= |order|
    ensures PruneList(g, order, q, ks, i) == Filter(order, Forward(g, order[..i], q, ks).nodes)
  {
  }

  /** From the |order|-th on, the lists of the chain are the backward loop's. */
  lemma BackwardListAt(g: Graph, order: seq<Var>, q: Var, ks: set<Var>, n: int)
    requires 0 <= n <= |order|
    ensures PruneList(g, order, q, ks, 2 * |order| - n) == Filter(order, Backward(Forward(g, order, q, ks), order[n..], q, ks).nodes)
  {
    var N := |order|;
    if n == N {
      assert order[..N] == order && order[N..] == [];
    }
  }

  /**
   * Pruning is sound: with the query set to any value x of its domain, the
   * enumeration over the whole topological order is PruneFactor times the
   * enumeration over the nodes RemoveBarrenNodes keeps, and PruneFactor
   * does not depend on x.
   */
  lemma PruneSound(P: FactorFn, M: Var -> real, g: Graph, order: seq<Var>, q: Var, e: Evidence, x: Val)
    requires ReadsParents(P) && Masses(P, g, M) && ParentGraph(g) && IsTopologicalOrder(g, order)
    requires q !in e && WellTyped(e) && x in Options(q)
    ensures Ratio(P, order, Filter(order, Pruned(g, order, q, e.Keys + {q}).nodes), e[q := x], PruneFactor(P, M, g, order, q, e))
  {
    var ks := e.Keys + {q};
    var L, C := PruneLists(g, order, q, ks), PruneCoefs(P, M, g, order, q, e);
    PruneLinks(P, M, g, order, q, e, x);
    Telescope(P, L, C, e[q := x], 2 * |order|);
    PruneEnds(g, order, q, ks);
    RatioCongruent(P, L(0), L(2 * |order|), order, Filter(order, Pruned(g, order, q, ks).nodes), e[q := x], PruneFactor(P, M, g, order, q, e));
  }

  /** Every link of the chain, in the function form Telescope takes. */
  lemma PruneLinks(P: FactorFn, M: Var -> real, g: Graph, order: seq<Var>, q: Var, e: Evidence, x: Val)
    requires ReadsParents(P) && Masses(P, g, M) && ParentGraph(g) && IsTopologicalOrder(g, order)
    requires q !in e && WellTyped(e) && x in Options(q)
    ensures var L, C := PruneLists(g, order, q, e.Keys + {q}), PruneCoefs(P, M, g, order, q, e);
      forall i :: 0 <= i < 2 * |order| ==> Ratio(P, L(i), L(i + 1), e[q := x], C(i))
  {
    forall i | 0 <= i < 2 * |order|
      ensures Ratio(P, PruneLists(g, order, q, e.Keys + {q})(i), PruneLists(g, order, q, e.Keys + {q})(i + 1),
                    e[q := x], PruneCoefs(P, M, g, order, q, e)(i))
    {
      PruneStep(P, M, g, order, q, e, x, i);
    }
  }

  /** The chain starts at the whole order and ends at what RemoveBarrenNodes keeps. */
  lemma PruneEnds(g: Graph, order: seq<Var>, q: Var, ks: set<Var>)
    requires IsTopologicalOrder(g, order)
    ensures PruneLists(g, order, q, ks)(0) == order
    ensures PruneLists(g, order, q, ks)(2 * |order|) == Filter(order, Pruned(g, order, q, ks).nodes)
  {
    ForwardListAt(g, order, q, ks, 0);
    BackwardListAt(g, order, q, ks, 0);
    assert order[..0] == [] && order[0..] == order;
    FilterKeepsAll(order, g.nodes);
  }

  /**
   * In the network, the multiple is the product of the removed observed
   * roots' probabilities and the removed leaves' masses.
   */
  lemma NetworkPruneSound(t: Tables, order: seq<Var>, q: Var, e: Evidence, x: Val)
    requires WellFormed(t) && IsTopologicalOrder(BuildGraph(t), order)
    requires q !in e && WellTyped(e) && x in Options(q)
    ensures Ratio(NetFactor(t), order, Filter(order, Pruned(BuildGraph(t), order, q, e.Keys + {q}).nodes), e[q := x],
                  PruneFactor(NetFactor(t), NetMass(t), BuildGraph(t), order, q, e))
  {
    NetworkArcs(t);
    NetFactorReadsParents(t);
    var g := BuildGraph(t);
    forall v | v in g.nodes
      ensures HasMass(NetFactor(t), v, NetMass(t)(v))
    {
      NetFactorMass(t, v);
    }
    PruneSound(NetFactor(t), NetMass(t), g, order, q, e, x);
  }

  /** The mass of each variable of the network. */
  function NetMass(t: Tables): Var -> real
    requires HasAllLevels(t.season)
  {
    (v: Var) => Mass(t, v)
  }

  /**
   * Filtering a list to a set S keeps each kept variable's parents
   * observed or listed before it when they were observed or kept earlier
   * in the list.
   */
  lemma {:induction false} FilterClosed(s: seq<Var>, S: set<Var>, keys: set<Var>)
    requires forall k :: 0 <= k < |s| && s[k] in S ==> CptParents(s[k]) <= keys + (Elems(s[..k]) * S)
    ensures Closed(Filter(s, S), keys)
    decreases |s|
  {
    if s != [] {
      var y := s[0];
      var keys' := if y in S then keys + {y} else keys;
      forall k | 0 <= k < |s[1..]| && s[1..][k] in S
        ensures CptParents(s[1..][k]) <= keys' + (Elems(s[1..][..k]) * S)
      {
        assert s[..k + 1] == [y] + s[1..][..k];
        assert Elems(s[..k + 1]) == {y} + Elems(s[1..][..k]);
        assert s[1..][k] == s[k + 1];
      }
      FilterClosed(s[1..], S, keys');
      if y in S {
        assert Elems(s[..0]) == {};
        assert Filter(s, S)[1..] == Filter(s[1..], S);
      } else {
        assert Filter(s, S) == Filter(s[1..], S);
      }
    }
  }

  /**
   * The nodes RemoveBarrenNodes keeps, in topological order, have their
   * parents observed or listed earlier.
   */
  lemma PrunedClosed(g: Graph, order: seq<Var>, q: Var, ks: set<Var>)
    requires ParentGraph(g) && IsTopologicalOrder(g, order)
    ensures Closed(Filter(order, Pruned(g, order, q, ks).nodes), ks)
  {
    var p := Pruned(g, order, q, ks);
    PrunedShape(g, order, q, ks);
    forall k | 0 <= k < |order| && order[k] in p.nodes
      ensures CptParents(order[k]) <= ks + (Elems(order[..k]) * p.nodes)
    {
      forall u | u in CptParents(order[k])
        ensures u in ks + (Elems(order[..k]) * p.nodes)
      {
        assert (u, order[k]) in g.arcs;
        var j :| 0 <= j < |order| && order[j] == u;
        assert j < k;
        assert order[..k][j] == u;
      }
    }
    FilterClosed(order, p.nodes, ks);
  }

  /**
   * Enumerating the nodes RemoveBarrenNodes keeps under well-typed evidence
   * with the query set raises no KeyError.
   */
  lemma PrunedNoKeyError(t: Tables, order: seq<Var>, q: Var, e: Evidence, x: Val)
    requires WellFormed(t) && IsTopologicalOrder(BuildGraph(t), order)
    requires WellTyped(e) && x in Options(q)
    ensures NoKeyError(t, Filter(order, Pruned(BuildGraph(t), order, q, e.Keys + {q}).nodes), e[q := x])
  {
    PrunedListClosed(t, order, q, e.Keys + {q});
    SetQueryNoKeyError(t, Filter(order, Pruned(BuildGraph(t), order, q, e.Keys + {q}).nodes), e, q, x);
  }

  /**
   * A list whose parents are observed or listed earlier once q is observed
   * raises no KeyError when q is set to a value of its domain.
   */
  lemma SetQueryNoKeyError(t: Tables, L: seq<Var>, e: Evidence, q: Var, x: Val)
    requires WellFormed(t) && WellTyped(e) && x in Options(q)
    requires AllInTables(t, L) && Closed(L, e.Keys + {q})
    ensures NoKeyError(t, L, e[q := x])
  {
    assert e[q := x].Keys == e.Keys + {q};
    WellTypedUpdate(e, q, x);
    ClosedNoKeyError(t, L, e[q := x]);
  }

  /**
   * The nodes RemoveBarrenNodes keeps, in the network's order, are network
   * variables whose parents are observed or listed before them.
   */
  lemma PrunedListClosed(t: Tables, order: seq<Var>, q: Var, ks: set<Var>)
    requires WellFormed(t) && IsTopologicalOrder(BuildGraph(t), order)
    ensures Closed(Filter(order, Pruned(BuildGraph(t), order, q, ks).nodes), ks)
    ensures AllInTables(t, Filter(order, Pruned(BuildGraph(t), order, q, ks).nodes))
  {
    NetworkArcs(t);
    PrunedClosed(BuildGraph(t), order, q, ks);
    PrunedInTables(t, order, q, ks);
  }

  /** The nodes RemoveBarrenNodes keeps are variables of the network. */
  lemma PrunedInTables(t: Tables, order: seq<Var>, q: Var, ks: set<Var>)
    requires WellFormed(t) && IsTopologicalOrder(BuildGraph(t), order)
    ensures AllInTables(t, Filter(order, Pruned(BuildGraph(t), order, q, ks).nodes))
  {
    var g := BuildGraph(t);
    var p := Pruned(g, order, q, ks);
    FilterMembers(order, p.nodes);
    forall v | v in Filter(order, p.nodes)
      ensures InTables(t, v)
    {
      assert v in g.nodes;
    }
  }
}
