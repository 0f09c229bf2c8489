/**
 * Path scoring (bayes_network.py:160-198): node paths between two grid
 * vertices become edge lists, each edge list is scored with
 * EnumerationAskSet, and FindNonBlockedPath keeps the largest
 * (score, path) pair under Python's tuple ordering.
 */
module Paths {
  import opened Variables
  import opened CptModel
  import opened Inference

  /** A path of grid vertices, as nx.all_simple_paths lists it. */
  type NodePath = seq<Coord>

  /** A path as a list of edges, each a pair of vertices in walking order. */
  type EdgePath = seq<(Coord, Coord)>

  /** A path with its score, the pair FindNonBlockedPath compares. */
  type Scored = (real, EdgePath)

  /** Two grid vertices one step apart, the edges of nx.grid_2d_graph. */
  predicate Adjacent(a: Coord, b: Coord) {
    (a.0 == b.0 && (a.1 - b.1 == 1 || b.1 - a.1 == 1))
    || (a.1 == b.1 && (a.0 - b.0 == 1 || b.0 - a.0 == 1))
  }

  /**
   * What nx.all_simple_paths promises of each path it lists: it runs from
   * start to end along grid edges and visits no vertex twice.
   */
  predicate IsSimplePath(p: NodePath, start: Coord, end: Coord) {
    && |p| >= 2 && p[0] == start && p[|p| - 1] == end
    && (forall i, j :: 0 <= i < j < |p| ==> p[i] != p[j])
    && (forall i :: 0 <= i < |p| - 1 ==> Adjacent(p[i], p[i + 1]))
  }

  /** The edge list of a node path: its consecutive pairs. */
  function PathEdges(p: NodePath): (es: EdgePath)
    ensures |p| >= 1 ==> |es| == |p| - 1
    ensures |p| == 0 ==> es == []
  {
    if |p| <= 1 then [] else seq(|p| - 1, j requires 0 <= j < |p| - 1 => (p[j], p[j + 1]))
  }

  /** AllSimplePathsStartToEndEdges: the edge list of every node path. */
  function AllPathEdges(nodePaths: seq<NodePath>): (r: seq<EdgePath>)
    ensures |r| == |nodePaths|
    ensures forall i :: 0 <= i < |r| ==> r[i] == PathEdges(nodePaths[i])
  {
    seq(|nodePaths|, i requires 0 <= i < |nodePaths| => PathEdges(nodePaths[i]))
  }

  /** The vertices an edge list walks through, from the given start. */
  function PathNodes(start: Coord, es: EdgePath): NodePath {
    [start] + seq(|es|, j requires 0 <= j < |es| => es[j].1)
  }

  /** The edges of a path give back the path. */
  lemma PathEdgesRoundTrip(p: NodePath)
    requires |p| >= 1
    ensures PathNodes(p[0], PathEdges(p)) == p
  {
    var es := PathEdges(p);
    var q := PathNodes(p[0], es);
    assert |q| == |p|;
    forall i | 0 <= i < |p|
      ensures q[i] == p[i]
    {
      if i > 0 {
        assert q[i] == es[i - 1].1;
      }
    }
  }

  /**
   * The edges of a simple path from start to end: the first leaves start,
   * the last reaches end, each begins where the one before ends, each joins
   * two adjacent vertices, and no two name the same variable once put in
   * canonical form.
   */
  lemma SimplePathEdges(p: NodePath, start: Coord, end: Coord)
    requires IsSimplePath(p, start, end)
    ensures var es := PathEdges(p);
      && es != [] && es[0].0 == start && es[|es| - 1].1 == end
      && (forall j :: 0 <= j < |es| - 1 ==> es[j].1 == es[j + 1].0)
      && (forall j :: 0 <= j < |es| ==> Adjacent(es[j].0, es[j].1))
      && (forall i, j :: 0 <= i < j < |es| ==> Canon(Edge(es[i].0, es[i].1)) != Canon(Edge(es[j].0, es[j].1)))
  {
    var es := PathEdges(p);
    forall i, j | 0 <= i < j < |es|
      ensures Canon(Edge(es[i].0, es[i].1)) != Canon(Edge(es[j].0, es[j].1))
    {
      CanonSpec(Edge(es[i].0, es[i].1));
      CanonSpec(Edge(es[j].0, es[j].1));
      assert p[i] != p[j] && p[i] != p[j + 1];
      assert {p[i], p[i + 1]} != {p[j], p[j + 1]} by {
        assert p[i] !in {p[j], p[j + 1]};
      }
    }
  }

  /** The queries EnumerationAskSet is given for an edge list. */
  function Queries(es: EdgePath): (qs: seq<Var>)
    ensures |qs| == |es|
    ensures forall j :: 0 <= j < |es| ==> qs[j] == Edge(es[j].0, es[j].1)
  {
    seq(|es|, j requires 0 <= j < |es| => Edge(es[j].0, es[j].1))
  }

  /** Python's `<` on coordinate pairs. */
  predicate CoordLess(a: Coord, b: Coord) {
    a.0 < b.0 || (a.0 == b.0 && a.1 < b.1)
  }

  /** Python's `<` on edges, pairs of coordinate pairs. */
  predicate EdgeLess(x: (Coord, Coord), y: (Coord, Coord)) {
    CoordLess(x.0, y.0) || (x.0 == y.0 && CoordLess(x.1, y.1))
  }

  /** Python's `<` on lists of edges: lexicographic, a proper prefix first. */
  predicate PathLess(x: EdgePath, y: EdgePath)
    decreases |x|
  {
    if x == [] then y != []
    else if y == [] then false
    else EdgeLess(x[0], y[0]) || (x[0] == y[0] && PathLess(x[1..], y[1..]))
  }

  /** Python's `<` on (score, path) pairs. */
  predicate ScoredLess(a: Scored, b: Scored) {
    a.0 < b.0 || (a.0 == b.0 && PathLess(a.1, b.1))
  }

  /** Python's `max(a, b)`: b when it is greater, otherwise a. */
  function Max(a: Scored, b: Scored): (m: Scored)
    ensures m == a || m == b
    ensures !ScoredLess(m, a) && !ScoredLess(m, b)
  {
    PathLessIrreflexive(a.1);
    PathLessIrreflexive(b.1);
    PathLessAsymmetric(a.1, b.1);
    if ScoredLess(a, b) then b else a
  }

  /** No path is less than itself. */
  lemma {:induction false} PathLessIrreflexive(x: EdgePath)
    ensures !PathLess(x, x)
    decreases |x|
  {
    if x != [] {
      PathLessIrreflexive(x[1..]);
    }
  }

  /** Of two paths at most one is less than the other. */
  lemma {:induction false} PathLessAsymmetric(x: EdgePath, y: EdgePath)
    ensures !(PathLess(x, y) && PathLess(y, x))
    decreases |x|
  {
    if x != [] && y != [] {
      PathLessAsymmetric(x[1..], y[1..]);
    }
  }

  /** The order on paths is transitive. */
  lemma {:induction false} PathLessTransitive(x: EdgePath, y: EdgePath, z: EdgePath)
    requires PathLess(x, y) && PathLess(y, z)
    ensures PathLess(x, z)
    decreases |x|
  {
    if x != [] && x[0] == y[0] && y[0] == z[0] {
      PathLessTransitive(x[1..], y[1..], z[1..]);
    }
  }

  /** Of two different paths one is less than the other. */
  lemma {:induction false} PathLessTotal(x: EdgePath, y: EdgePath)
    requires x != y
    ensures PathLess(x, y) || PathLess(y, x)
    decreases |x|
  {
    if x != [] && y != [] && x[0] == y[0] {
      assert x == [x[0]] + x[1..] && y == [y[0]] + y[1..];
      PathLessTotal(x[1..], y[1..]);
    }
  }

  /** The order on (score, path) pairs is transitive. */
  lemma ScoredLessTransitive(a: Scored, b: Scored, c: Scored)
    requires ScoredLess(a, b) && ScoredLess(b, c)
    ensures ScoredLess(a, c)
  {
    if a.0 == b.0 && b.0 == c.0 {
      PathLessTransitive(a.1, b.1, c.1);
    }
  }

  /** Of two different (score, path) pairs one is less than the other. */
  lemma ScoredLessTotal(a: Scored, b: Scored)
    requires a != b
    ensures ScoredLess(a, b) || ScoredLess(b, a)
  {
    if a.0 == b.0 {
      PathLessTotal(a.1, b.1);
    }
  }

  /** The pair FindNonBlockedPath starts from. */
  const Start: Scored := (0.0, [])

  /**
   * The loop of FindNonBlockedPath for a given way of scoring a path:
   * starting from Start, the running maximum of (score, path) over the
   * paths in order; None as soon as one score raises.
   */
  function Best(score: EdgePath -> Option<real>, paths: seq<EdgePath>): Option<Scored>
    decreases |paths|
  {
    if paths == [] then Some(Start)
    else
      var prev := Best(score, paths[..|paths| - 1]);
      var last := paths[|paths| - 1];
      if prev.None? || score(last).None? then None
      else Some(Max(prev.value, (score(last).value, last)))
  }

  /**
   * The score of a path: EnumerationAskSet of its edges, as written, which
   * records each answered edge under the key as the path walks it.
   */
  function PathScorer(t: Tables, order: seq<Var>, e: Evidence): EdgePath -> Option<real> {
    es => AskSetAsWritten(t, order, Queries(es), e)
  }

  /** The score of a path with each answered edge recorded in canonical form. */
  function CorrectedScorer(t: Tables, order: seq<Var>, e: Evidence): EdgePath -> Option<real> {
    es => AskSet(t, order, Queries(es), e)
  }

  /** FindNonBlockedPath over the edge lists of the given node paths. */
  function BestPath(t: Tables, order: seq<Var>, nodePaths: seq<NodePath>, e: Evidence): Option<Scored> {
    Best(PathScorer(t, order, e), AllPathEdges(nodePaths))
  }

  /** FindNonBlockedPath with the corrected EnumerationAskSet. */
  function CorrectedBestPath(t: Tables, order: seq<Var>, nodePaths: seq<NodePath>, e: Evidence): Option<Scored> {
    Best(CorrectedScorer(t, order, e), AllPathEdges(nodePaths))
  }

  /** One more turn of the loop. */
  lemma BestStep(score: EdgePath -> Option<real>, paths: seq<EdgePath>, i: int)
    requires 0 <= i < |paths|
    ensures Best(score, paths[..i + 1]) ==
      var prev := Best(score, paths[..i]);
      if prev.None? || score(paths[i]).None? then None
      else Some(Max(prev.value, (score(paths[i]).value, paths[i])))
  {
    assert paths[..i + 1][..i] == paths[..i];
  }

  /** The loop raises exactly when scoring one of the paths raises. */
  lemma {:induction false} BestSucceeds(score: EdgePath -> Option<real>, paths: seq<EdgePath>)
    ensures Best(score, paths).Some? <==> forall i :: 0 <= i < |paths| ==> score(paths[i]).Some?
    decreases |paths|
  {
    if paths != [] {
      var init := paths[..|paths| - 1];
      BestSucceeds(score, init);
      assert forall i :: 0 <= i < |init| ==> init[i] == paths[i];
    }
  }

  /**
   * The result is not less than Start nor than any scored path: its score
   * is at least every path's score.
   */
  lemma {:induction false} BestIsUpperBound(score: EdgePath -> Option<real>, paths: seq<EdgePath>)
    requires Best(score, paths).Some?
    ensures !ScoredLess(Best(score, paths).value, Start)
    ensures forall i :: 0 <= i < |paths| ==>
      score(paths[i]).Some? && !ScoredLess(Best(score, paths).value, (score(paths[i]).value, paths[i]))
    ensures forall i :: 0 <= i < |paths| ==> score(paths[i]).value <= Best(score, paths).value.0
    decreases |paths|
  {
    if paths == [] {
      PathLessIrreflexive([]);
    } else {
      var init := paths[..|paths| - 1];
      var last := paths[|paths| - 1];
      BestIsUpperBound(score, init);
      var prev := Best(score, init).value;
      var b := Best(score, paths).value;
      assert b == Max(prev, (score(last).value, last));
      forall c | c == Start || exists i :: 0 <= i < |init| && c == (score(init[i]).value, init[i])
        ensures !ScoredLess(b, c)
      {
        assert !ScoredLess(prev, c);
        if b != prev && ScoredLess(b, c) {
          ScoredLessTransitive(prev, b, c);
        }
      }
      forall i | 0 <= i < |paths|
        ensures score(paths[i]).Some? && !ScoredLess(b, (score(paths[i]).value, paths[i]))
      {
        if i < |init| {
          assert init[i] == paths[i];
          assert (score(init[i]).value, init[i]) == (score(paths[i]).value, paths[i]);
        }
      }
    }
  }

  /** The result is Start or one of the scored paths. */
  lemma {:induction false} BestIsCandidate(score: EdgePath -> Option<real>, paths: seq<EdgePath>)
    requires Best(score, paths).Some?
    ensures var b := Best(score, paths).value;
      b == Start || exists i :: 0 <= i < |paths| && score(paths[i]) == Some(b.0) && b.1 == paths[i]
    decreases |paths|
  {
    if paths != [] {
      var init := paths[..|paths| - 1];
      BestIsCandidate(score, init);
      var b := Best(score, paths).value;
      if b != Best(score, init).value {
        var i := |paths| - 1;
        assert score(paths[i]) == Some(b.0) && b.1 == paths[i];
      } else if b != Start {
        var i :| 0 <= i < |init| && score(init[i]) == Some(b.0) && b.1 == init[i];
        assert init[i] == paths[i];
      }
    }
  }

  /** Two ways of scoring that agree on every path give the same loop result. */
  lemma {:induction false} BestSameScores(s1: EdgePath -> Option<real>, s2: EdgePath -> Option<real>, paths: seq<EdgePath>)
    requires forall i :: 0 <= i < |paths| ==> s1(paths[i]) == s2(paths[i])
    ensures Best(s1, paths) == Best(s2, paths)
    decreases |paths|
  {
    if paths != [] {
      var init := paths[..|paths| - 1];
      assert forall i :: 0 <= i < |init| ==> init[i] == paths[i];
      BestSameScores(s1, s2, init);
    }
  }

  /**
   * The loop over the edge lists of node paths: it raises exactly when
   * scoring one of them raises; otherwise its score is at least every
   * path's score, and it is (0, []) or one of the paths with its own score.
   */
  lemma ScoredPathsSpec(score: EdgePath -> Option<real>, nodePaths: seq<NodePath>)
    ensures Best(score, AllPathEdges(nodePaths)).Some? <==>
      forall i :: 0 <= i < |nodePaths| ==> score(PathEdges(nodePaths[i])).Some?
    ensures Best(score, AllPathEdges(nodePaths)).Some? ==> forall i :: 0 <= i < |nodePaths| ==>
      score(PathEdges(nodePaths[i])).value <= Best(score, AllPathEdges(nodePaths)).value.0
    ensures Best(score, AllPathEdges(nodePaths)).Some? ==>
      var b := Best(score, AllPathEdges(nodePaths)).value;
      b == Start || exists i :: 0 <= i < |nodePaths| && b.1 == PathEdges(nodePaths[i]) && score(b.1) == Some(b.0)
  {
    var paths := AllPathEdges(nodePaths);
    BestSucceeds(score, paths);
    if Best(score, paths).Some? {
      BestIsUpperBound(score, paths);
      BestIsCandidate(score, paths);
    }
  }

  /**
   * FindNonBlockedPath in terms of the paths it is given: it raises exactly
   * when EnumerationAskSet raises on one of them; otherwise its score is at
   * least every path's score, and it is (0, []) or one of the paths with
   * that path's EnumerationAskSet score.
   */
  lemma BestPathSpec(t: Tables, order: seq<Var>, nodePaths: seq<NodePath>, e: Evidence)
    ensures BestPath(t, order, nodePaths, e).Some? <==>
      forall i :: 0 <= i < |nodePaths| ==> AskSetAsWritten(t, order, Queries(PathEdges(nodePaths[i])), e).Some?
    ensures BestPath(t, order, nodePaths, e).Some? ==> forall i :: 0 <= i < |nodePaths| ==>
      AskSetAsWritten(t, order, Queries(PathEdges(nodePaths[i])), e).value <= BestPath(t, order, nodePaths, e).value.0
    ensures BestPath(t, order, nodePaths, e).Some? ==>
      var b := BestPath(t, order, nodePaths, e).value;
      b == Start || exists i :: 0 <= i < |nodePaths| && b.1 == PathEdges(nodePaths[i])
                                && AskSetAsWritten(t, order, Queries(b.1), e) == Some(b.0)
  {
    ScoredPathsSpec(PathScorer(t, order, e), nodePaths);
  }

  /** The same for FindNonBlockedPath with the corrected EnumerationAskSet. */
  lemma CorrectedBestPathSpec(t: Tables, order: seq<Var>, nodePaths: seq<NodePath>, e: Evidence)
    ensures CorrectedBestPath(t, order, nodePaths, e).Some? <==>
      forall i :: 0 <= i < |nodePaths| ==> AskSet(t, order, Queries(PathEdges(nodePaths[i])), e).Some?
    ensures CorrectedBestPath(t, order, nodePaths, e).Some? ==> forall i :: 0 <= i < |nodePaths| ==>
      AskSet(t, order, Queries(PathEdges(nodePaths[i])), e).value <= CorrectedBestPath(t, order, nodePaths, e).value.0
    ensures CorrectedBestPath(t, order, nodePaths, e).Some? ==>
      var b := CorrectedBestPath(t, order, nodePaths, e).value;
      b == Start || exists i :: 0 <= i < |nodePaths| && b.1 == PathEdges(nodePaths[i])
                                && AskSet(t, order, Queries(b.1), e) == Some(b.0)
  {
    ScoredPathsSpec(CorrectedScorer(t, order, e), nodePaths);
  }

  /**
   * When every path walks each of its edges in sorted order, the program
   * as written and the corrected one choose the same path with the same
   * score.
   */
  lemma BestPathCanonicalAgree(t: Tables, order: seq<Var>, nodePaths: seq<NodePath>, e: Evidence)
    requires forall i, j :: 0 <= i < |nodePaths| && 0 <= j < |PathEdges(nodePaths[i])| ==>
      IsCanonical(Edge(PathEdges(nodePaths[i])[j].0, PathEdges(nodePaths[i])[j].1))
    ensures BestPath(t, order, nodePaths, e) == CorrectedBestPath(t, order, nodePaths, e)
  {
    var paths := AllPathEdges(nodePaths);
    forall i | 0 <= i < |paths|
      ensures PathScorer(t, order, e)(paths[i]) == CorrectedScorer(t, order, e)(paths[i])
    {
      var qs := Queries(paths[i]);
      assert forall j :: 0 <= j < |qs| ==> IsCanonical(qs[j]) by {
        assert paths[i] == PathEdges(nodePaths[i]);
      }
      AskSetCanonicalAgree(t, order, qs, e);
    }
    BestSameScores(PathScorer(t, order, e), CorrectedScorer(t, order, e), paths);
  }
}
