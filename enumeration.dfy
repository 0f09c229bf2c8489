/**
 * EnumerationAll (bayes_network.py:264-288): the recursive sum-product over
 * an ordered list of variables, and the facts about it that make barren-node
 * removal sound.
 *
 * The sum-product is written over a factor function P(y, e, x), the
 * probability of y = x under the evidence e; the network's own factor
 * (CptModel.Factor over its tables) is one instance. The lemmas here need
 * only the properties of P they name.
 */
module Enumeration {
  import opened Variables
  import opened CptModel

  /** The probability of y = x under the evidence e. */
  type FactorFn = (Var, Evidence, Val) -> real

  /** P reads the evidence only at the parents of the variable asked about. */
  ghost predicate ReadsParents(P: FactorFn) {
    forall y, e1, e2, x :: AgreeOn(e1, e2, CptParents(y)) ==> P(y, e1, x) == P(y, e2, x)
  }

  /** Every factor lies in [0, 1] and each variable's factors add up to at most 1. */
  ghost predicate SubStochastic(P: FactorFn) {
    && (forall y, e, x :: 0.0 <= P(y, e, x) <= 1.0)
    && (forall y, e :: Sum(Factors(P, y, e)) <= 1.0)
  }

  /**
   * Once y's parents are observed with values of their domains, y's factors
   * over its domain add up to m.
   */
  ghost predicate HasMass(P: FactorFn, y: Var, m: real) {
    forall e :: WellTyped(e) && CptParents(y) <= e.Keys ==> Sum(Factors(P, y, e)) == m
  }

  function Sum(p: seq<real>): real {
    if p == [] then 0.0 else p[0] + Sum(p[1..])
  }

  /** `np.inner`: the sum of the pairwise products. */
  function Inner(p: seq<real>, r: seq<real>): real
    requires |p| == |r|
  {
    if p == [] then 0.0 else p[0] * r[0] + Inner(p[1..], r[1..])
  }

  /**
   * EnumerationAll: 1 for the empty list; for an observed head (an edge
   * taken with its endpoints sorted), its factor times the rest; otherwise
   * the inner product of the head's factors over its domain with the rest
   * evaluated under the head set to each value.
   */
  function EnumerationAll(P: FactorFn, nodes: seq<Var>, e: Evidence): real
    decreases |nodes|, 0
  {
    if nodes == [] then 1.0
    else
      var y := Canon(nodes[0]);
      if y in e then P(y, e, e[y]) * EnumerationAll(P, nodes[1..], e)
      else Inner(Factors(P, y, e), Results(P, y, nodes[1..], e))
  }

  /** The list `p` of EnumerationAll: y's factor for each value of its domain. */
  function Factors(P: FactorFn, y: Var, e: Evidence): (p: seq<real>)
    ensures |p| == |Options(y)|
    ensures forall i :: 0 <= i < |p| ==> p[i] == P(y, e, Options(y)[i])
  {
    var o := Options(y);
    seq(|o|, i requires 0 <= i < |o| => P(y, e, o[i]))
  }

  /** The list `r` of EnumerationAll: the rest evaluated under y set to each value. */
  function Results(P: FactorFn, y: Var, rest: seq<Var>, e: Evidence): (r: seq<real>)
    ensures |r| == |Options(y)|
    decreases |rest|, 1
  {
    var o := Options(y);
    seq(|o|, i requires 0 <= i < |o| => EnumerationAll(P, rest, e[y := o[i]]))
  }

  lemma ResultsAt(P: FactorFn, y: Var, rest: seq<Var>, e: Evidence, i: int)
    requires 0 <= i < |Options(y)|
    ensures Results(P, y, rest, e)[i] == EnumerationAll(P, rest, e[y := Options(y)[i]])
  {
  }

  lemma Combine(a1: real, a2: real, p: real, r1: real, r2: real, s1: real, s2: real, c: real)
    requires a1 == p * r1 + s1 && a2 == p * r2 + s2 && r1 == c * r2 && s1 == c * s2
    ensures a1 == c * a2
  {
    assert p * (c * r2) == c * (p * r2);
  }

  /** Scaling every term of an inner product's second list scales the product. */
  lemma {:induction false} InnerScaled(p: seq<real>, r1: seq<real>, r2: seq<real>, c: real)
    requires |p| == |r1| == |r2|
    requires forall i :: 0 <= i < |p| ==> r1[i] == c * r2[i]
    ensures Inner(p, r1) == c * Inner(p, r2)
  {
    if p != [] {
      InnerScaled(p[1..], r1[1..], r2[1..], c);
      Combine(Inner(p, r1), Inner(p, r2), p[0], r1[0], r2[0], Inner(p[1..], r1[1..]), Inner(p[1..], r2[1..]), c);
    }
  }

  /** An inner product with a constant second list is the first list's sum times it. */
  lemma {:induction false} InnerConstant(p: seq<real>, r: seq<real>, k: real, s: real)
    requires |p| == |r| && Sum(p) == s
    requires forall i :: 0 <= i < |r| ==> r[i] == k
    ensures Inner(p, r) == s * k
  {
    if p != [] {
      InnerConstant(p[1..], r[1..], k, Sum(p[1..]));
      assert p[0] * k + Sum(p[1..]) * k == (p[0] + Sum(p[1..])) * k;
    }
  }

  lemma AddTerm(p: real, r: real, s: real, bound: real)
    requires 0.0 <= p && 0.0 <= r <= 1.0 && 0.0 <= s <= bound
    ensures 0.0 <= p * r + s <= p + bound
  {
    assert p * r <= p * 1.0;
  }

  /** Weighting values in [0, 1] by nonnegative weights stays within the weights' sum. */
  lemma {:induction false} InnerBounds(p: seq<real>, r: seq<real>)
    requires |p| == |r|
    requires forall i :: 0 <= i < |p| ==> 0.0 <= p[i] && 0.0 <= r[i] <= 1.0
    ensures 0.0 <= Inner(p, r) <= Sum(p)
  {
    if p != [] {
      InnerBounds(p[1..], r[1..]);
      AddTerm(p[0], r[0], Inner(p[1..], r[1..]), Sum(p[1..]));
    }
  }

  lemma MulUnit(a: real, b: real)
    requires 0.0 <= a <= 1.0 && 0.0 <= b <= 1.0
    ensures 0.0 <= a * b <= 1.0
  {
    assert 0.0 <= a * b;
    assert a * b <= 1.0 * b;
  }

  /** With factors that are probabilities, EnumerationAll is a probability. */
  lemma {:induction false} EnumerationAllBounds(P: FactorFn, nodes: seq<Var>, e: Evidence)
    requires SubStochastic(P)
    ensures 0.0 <= EnumerationAll(P, nodes, e) <= 1.0
    decreases |nodes|
  {
    if nodes != [] {
      var y := Canon(nodes[0]);
      if y in e {
        EnumerationAllBounds(P, nodes[1..], e);
        MulUnit(P(y, e, e[y]), EnumerationAll(P, nodes[1..], e));
      } else {
        var o := Options(y);
        var r := Results(P, y, nodes[1..], e);
        forall i | 0 <= i < |o|
          ensures 0.0 <= r[i] <= 1.0
        {
          ResultsAt(P, y, nodes[1..], e, i);
          EnumerationAllBounds(P, nodes[1..], e[y := o[i]]);
        }
        InnerBounds(Factors(P, y, e), r);
      }
    }
  }

  /** The variables EnumerationAll looks up in the evidence: the listed ones and their parents. */
  ghost function Reads(nodes: seq<Var>): set<Var> {
    if nodes == [] then {} else {Canon(nodes[0])} + CptParents(Canon(nodes[0])) + Reads(nodes[1..])
  }

  /** Only canonical variables are read: no edge stored against sorted order. */
  lemma {:induction false} ReadsCanonical(nodes: seq<Var>)
    ensures forall v :: v in Reads(nodes) ==> IsCanonical(v)
    decreases |nodes|
  {
    if nodes != [] {
      CanonSpec(nodes[0]);
      ReadsCanonical(nodes[1..]);
    }
  }

  /**
   * EnumerationAll reads the evidence only at the listed variables and their
   * parents: evidence maps that agree there give the same result.
   */
  lemma {:induction false} EnumerationAllFrame(P: FactorFn, nodes: seq<Var>, e1: Evidence, e2: Evidence)
    requires ReadsParents(P)
    requires AgreeOn(e1, e2, Reads(nodes))
    ensures EnumerationAll(P, nodes, e1) == EnumerationAll(P, nodes, e2)
    decreases |nodes|
  {
    if nodes != [] {
      var y := Canon(nodes[0]);
      var tail := nodes[1..];
      assert Reads(nodes) == {y} + CptParents(y) + Reads(tail);
      if y in e1 {
        EnumerationAllFrame(P, tail, e1, e2);
      } else {
        var o := Options(y);
        var r1 := Results(P, y, tail, e1);
        var r2 := Results(P, y, tail, e2);
        forall i | 0 <= i < |o|
          ensures r1[i] == 1.0 * r2[i]
        {
          ResultsAt(P, y, tail, e1, i);
          ResultsAt(P, y, tail, e2, i);
          EnumerationAllFrame(P, tail, e1[y := o[i]], e2[y := o[i]]);
        }
        assert Factors(P, y, e1) == Factors(P, y, e2);
        InnerScaled(Factors(P, y, e1), r1, r2, 1.0);
      }
    }
  }

  /** EnumerationAll over n1 is c times EnumerationAll over n2. */
  ghost predicate Ratio(P: FactorFn, n1: seq<Var>, n2: seq<Var>, e: Evidence, c: real) {
    EnumerationAll(P, n1, e) == c * EnumerationAll(P, n2, e)
  }

  /** Ratios between successive lists multiply. */
  lemma RatioChain(P: FactorFn, n1: seq<Var>, n2: seq<Var>, n3: seq<Var>, e: Evidence, c1: real, c2: real)
    requires Ratio(P, n1, n2, e, c1) && Ratio(P, n2, n3, e, c2)
    ensures Ratio(P, n1, n3, e, c1 * c2)
  {
    var x := EnumerationAll(P, n3, e);
    assert c1 * (c2 * x) == (c1 * c2) * x;
  }

  lemma ScaleProduct(a1: real, a2: real, p: real, x1: real, x2: real, c: real)
    requires a1 == p * x1 && a2 == p * x2 && x1 == c * x2
    ensures a1 == c * a2
  {
    assert p * (c * x2) == c * (p * x2);
  }

  /**
   * Two lists with the same observed head keep a ratio c between their
   * values when their tails do.
   */
  lemma HeadObserved(P: FactorFn, n1: seq<Var>, n2: seq<Var>, e: Evidence, c: real)
    requires n1 != [] && n2 != [] && Canon(n1[0]) == Canon(n2[0]) && Canon(n1[0]) in e
    requires Ratio(P, n1[1..], n2[1..], e, c)
    ensures Ratio(P, n1, n2, e, c)
  {
    var h := Canon(n1[0]);
    var p := P(h, e, e[h]);
    var x1 := EnumerationAll(P, n1[1..], e);
    var x2 := EnumerationAll(P, n2[1..], e);
    assert EnumerationAll(P, n1, e) == p * x1;
    assert EnumerationAll(P, n2, e) == p * x2;
    ScaleProduct(EnumerationAll(P, n1, e), EnumerationAll(P, n2, e), p, x1, x2, c);
  }

  /**
   * Two lists with the same unobserved head keep a ratio c between their
   * values when their tails do under every value of the head.
   */
  lemma HeadUnobserved(P: FactorFn, n1: seq<Var>, n2: seq<Var>, e: Evidence, c: real)
    requires n1 != [] && n2 != [] && Canon(n1[0]) == Canon(n2[0]) && Canon(n1[0]) !in e
    requires forall x :: x in Options(Canon(n1[0])) ==> Ratio(P, n1[1..], n2[1..], e[Canon(n1[0]) := x], c)
    ensures Ratio(P, n1, n2, e, c)
  {
    var h := Canon(n1[0]);
    var o := Options(h);
    var r1 := Results(P, h, n1[1..], e);
    var r2 := Results(P, h, n2[1..], e);
    forall i | 0 <= i < |o|
      ensures r1[i] == c * r2[i]
    {
      ResultsAt(P, h, n1[1..], e, i);
      ResultsAt(P, h, n2[1..], e, i);
      assert o[i] in o;
    }
    InnerScaled(Factors(P, h, e), r1, r2, c);
    assert EnumerationAll(P, n1, e) == Inner(Factors(P, h, e), r1);
    assert EnumerationAll(P, n2, e) == Inner(Factors(P, h, e), r2);
  }

  /** The variables of a list, as a set. */
  function Elems(s: seq<Var>): set<Var> {
    set v | v in s
  }

  /**
   * A variable outside a list of canonical variables and none of their
   * parents is not read.
   */
  lemma {:induction false} NotInReads(b: seq<Var>, y: Var)
    requires forall z :: z in b ==> Canon(z) == z && z != y && y !in CptParents(z)
    ensures y !in Reads(b)
    decreases |b|
  {
    if b != [] {
      assert b[0] in b;
      NotInReads(b[1..], y);
    }
  }

  /** Every variable of the list is in canonical form. */
  predicate Canonical(s: seq<Var>) {
    forall v :: v in s ==> Canon(v) == v
  }

  /** DropUnobserved for a variable at the head of the list. */
  lemma DropFirstUnobserved(P: FactorFn, y: Var, b: seq<Var>, e: Evidence, m: real)
    requires ReadsParents(P) && HasMass(P, y, m) && WellTyped(e)
    requires Canon(y) == y && y !in e && y !in Reads(b) && CptParents(y) <= e.Keys
    ensures Ratio(P, [y] + b, b, e, m)
  {
    var o := Options(y);
    var k := EnumerationAll(P, b, e);
    var r := Results(P, y, b, e);
    forall i | 0 <= i < |o|
      ensures r[i] == k
    {
      ResultsAt(P, y, b, e, i);
      EnumerationAllFrame(P, b, e[y := o[i]], e);
    }
    InnerConstant(Factors(P, y, e), r, k, m);
    assert ([y] + b)[0] == y && ([y] + b)[1..] == b;
    assert EnumerationAll(P, [y] + b, e) == Inner(Factors(P, y, e), r);
  }

  /**
   * Barren-node elimination for one variable: an unobserved variable that
   * no later variable reads contributes only its mass (1 for a vertex or an
   * edge, the prior's total for the season), provided its parents are
   * observed or listed before it.
   */
  lemma {:induction false} DropUnobserved(P: FactorFn, a: seq<Var>, y: Var, b: seq<Var>, e: Evidence, m: real)
    requires ReadsParents(P) && HasMass(P, y, m) && WellTyped(e)
    requires Canonical(a) && Canon(y) == y
    requires y !in e && y !in a && y !in Reads(b)
    requires CptParents(y) <= e.Keys + Elems(a)
    ensures Ratio(P, a + [y] + b, a + b, e, m)
    decreases |a|
  {
    var full := a + [y] + b;
    if a == [] {
      assert full == [y] + b && a + b == b;
      DropFirstUnobserved(P, y, b, e, m);
    } else {
      var h := a[0];
      var a' := a[1..];
      assert full[0] == h && full[1..] == a' + [y] + b;
      assert (a + b)[0] == h && (a + b)[1..] == a' + b;
      assert Canon(h) == h && h != y;
      assert Elems(a) == {h} + Elems(a');
      if h in e {
        DropUnobserved(P, a', y, b, e, m);
        HeadObserved(P, full, a + b, e, m);
      } else {
        forall x | x in Options(h)
          ensures Ratio(P, a' + [y] + b, a' + b, e[h := x], m)
        {
          WellTypedUpdate(e, h, x);
          assert e[h := x].Keys == e.Keys + {h};
          DropUnobserved(P, a', y, b, e[h := x], m);
        }
        HeadUnobserved(P, full, a + b, e, m);
      }
    }
  }

  /**
   * An observed variable whose parents are all observed contributes the
   * same factor, its probability under the evidence, on every branch of the
   * sum: it can be taken out of the list and multiplied in.
   */
  lemma {:induction false} DropObservedRoot(P: FactorFn, a: seq<Var>, y: Var, b: seq<Var>, e: Evidence)
    requires ReadsParents(P)
    requires Canon(y) == y && y in e && CptParents(y) <= e.Keys
    ensures Ratio(P, a + [y] + b, a + b, e, P(y, e, e[y]))
    decreases |a|
  {
    var full := a + [y] + b;
    if a == [] {
      assert full[0] == y && full[1..] == b && a + b == b;
    } else {
      var h := Canon(a[0]);
      var a' := a[1..];
      assert full[0] == a[0] && full[1..] == a' + [y] + b;
      assert (a + b)[0] == a[0] && (a + b)[1..] == a' + b;
      var py := P(y, e, e[y]);
      if h in e {
        DropObservedRoot(P, a', y, b, e);
        HeadObserved(P, full, a + b, e, py);
      } else {
        forall x | x in Options(h)
          ensures Ratio(P, a' + [y] + b, a' + b, e[h := x], py)
        {
          assert AgreeOn(e[h := x], e, CptParents(y));
          DropObservedRoot(P, a', y, b, e[h := x]);
        }
        HeadUnobserved(P, full, a + b, e, py);
      }
    }
  }
}
