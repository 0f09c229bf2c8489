/**
 * EnumerationAsk and EnumerationAskSet (bayes_network.py:200-262) as
 * functions of the tables, a topological order of the network, the query and
 * the evidence. An exception the source raises (KeyError, ValueError) is
 * the answer None.
 */
module Inference {
  import opened Variables
  import opened CptModel
  import opened NetworkGraph
  import opened Enumeration
  import opened Normalization
  import opened NetworkFactor
  import opened Pruning
  import opened PruneSoundness

  /** A value, or None where the source raises an exception instead. */
  datatype Option<T> = None | Some(value: T)

  /**
   * The order the pruned network is enumerated in: the network's
   * topological order filtered to the nodes RemoveBarrenNodes keeps for the
   * query q once q is set.
   */
  function PrunedOrder(t: Tables, order: seq<Var>, q: Var, e: Evidence): seq<Var> {
    Filter(order, Pruned(BuildGraph(t), order, q, e.Keys + {q}).nodes)
  }

  /** `list.remove(x)`: the list without the first occurrence of x. */
  function RemoveFirst(s: seq<Val>, x: Val): (r: seq<Val>)
    ensures x in s ==> multiset(r) + multiset{x} == multiset(s)
    decreases |s|
  {
    if s == [] then []
    else
      assert s == [s[0]] + s[1..];
      if s[0] == x then s[1..] else [s[0]] + RemoveFirst(s[1..], x)
  }

  /** The keys of a dictionary, in insertion order. */
  function Keys(d: Dist): (ks: seq<Val>)
    ensures |ks| == |d| && forall i :: 0 <= i < |d| ==> ks[i] == d[i].0
  {
    seq(|d|, i requires 0 <= i < |d| => d[i].0)
  }

  /** `{x: 1.0} | {other: 0.0 for other in others}`. */
  function PointMass(x: Val, others: seq<Val>): Dist {
    [(x, 1.0)] + seq(|others|, i requires 0 <= i < |others| => (others[i], 0.0))
  }

  /** `{True: 0.0, False: 1.0}`, the answer for a query the network does not hold. */
  const AbsentAnswer: Dist := [(Bool(true), 0.0), (Bool(false), 1.0)]

  /**
   * `queryDict`: each value of the query's domain, in domain order, with
   * the enumeration of the list under the evidence with the query set to it.
   */
  function Weights(t: Tables, nodes: seq<Var>, q: Var, e: Evidence): (w: Dist)
    ensures |w| == |Options(q)|
    ensures forall i :: 0 <= i < |w| ==> w[i].0 == Options(q)[i]
    ensures forall i :: 0 <= i < |w| ==> w[i].1 == EnumerationAll(NetFactor(t), nodes, e[q := Options(q)[i]])
  {
    var o := Options(q);
    seq(|o|, i requires 0 <= i < |o| => (o[i], EnumerationAll(NetFactor(t), nodes, e[q := o[i]])))
  }

  /**
   * The position in the query's domain of the first value whose
   * enumeration raises a KeyError, counting from position i; the domain's
   * length when none does.
   */
  function FirstKeyError(t: Tables, nodes: seq<Var>, q: Var, e: Evidence, i: int): (k: int)
    requires 0 <= i <= |Options(q)|
    ensures i <= k <= |Options(q)|
    ensures forall j :: i <= j < k ==> NoKeyError(t, nodes, e[q := Options(q)[j]])
    ensures k < |Options(q)| ==> !NoKeyError(t, nodes, e[q := Options(q)[k]])
    decreases |Options(q)| - i
  {
    if i == |Options(q)| then i
    else if NoKeyError(t, nodes, e[q := Options(q)[i]]) then FirstKeyError(t, nodes, q, e, i + 1)
    else i
  }

  /**
   * EnumerationAsk: the query is put in canonical form; a query the network
   * does not hold gets AbsentAnswer; an observed query gets the point mass
   * on its observed value (ValueError when that value is not in its
   * domain); otherwise the weights over the pruned network, normalized
   * (KeyError when a lookup fails).
   */
  function Ask(t: Tables, order: seq<Var>, query: Var, e: Evidence): (r: Option<Dist>)
    ensures r.Some? ==> |r.value| == |Options(Canon(query))|
  {
    var q := Canon(query);
    if q !in BuildGraph(t).nodes then Some(AbsentAnswer)
    else if q in e then
      if e[q] in Options(q) then Some(PointMass(e[q], RemoveFirst(Options(q), e[q]))) else None
    else Enumerate(t, PrunedOrder(t, order, q, e), q, e)
  }

  /**
   * The weights of the unobserved query q over the list, normalized; None
   * when one of the enumerations raises a KeyError.
   */
  function Enumerate(t: Tables, nodes: seq<Var>, q: Var, e: Evidence): (r: Option<Dist>)
    ensures r.Some? <==> forall j :: 0 <= j < |Options(q)| ==> NoKeyError(t, nodes, e[q := Options(q)[j]])
    ensures r.Some? ==> Keys(r.value) == Options(q)
  {
    if FirstKeyError(t, nodes, q, e, 0) < |Options(q)| then None
    else Some(Normalize(Weights(t, nodes, q, e)))
  }

  /**
   * The evidence after the loop of EnumerationAsk, which writes each value
   * of the query's domain into it in turn, up to the last one or to the one
   * whose enumeration raised.
   */
  function Written(t: Tables, nodes: seq<Var>, q: Var, e: Evidence): Evidence {
    var k := FirstKeyError(t, nodes, q, e, 0);
    if k < |Options(q)| then e[q := Options(q)[k]] else e[q := Options(q)[|Options(q)| - 1]]
  }

  /** The caller's evidence dictionary after EnumerationAsk. */
  function AskEvidence(t: Tables, order: seq<Var>, query: Var, e: Evidence): Evidence {
    var q := Canon(query);
    if q !in BuildGraph(t).nodes || q in e then e
    else Written(t, PrunedOrder(t, order, q, e), q, e)
  }

  /**
   * EnumerationAsk changes the caller's evidence at the canonical query
   * only, and only when the query is unobserved, writing a value of the
   * query's domain there.
   */
  lemma AskEvidenceSpec(t: Tables, order: seq<Var>, query: Var, e: Evidence)
    ensures AskEvidence(t, order, query, e).Keys <= e.Keys + {Canon(query)}
    ensures e.Keys <= AskEvidence(t, order, query, e).Keys
    ensures forall k :: k in e && k != Canon(query) ==> AskEvidence(t, order, query, e)[k] == e[k]
    ensures Canon(query) in e ==> AskEvidence(t, order, query, e) == e
    ensures Canon(query) in BuildGraph(t).nodes && Canon(query) !in e ==>
      && Canon(query) in AskEvidence(t, order, query, e)
      && AskEvidence(t, order, query, e)[Canon(query)] in Options(Canon(query))
  {
    var q := Canon(query);
    if q in BuildGraph(t).nodes && q !in e {
      var k := FirstKeyError(t, PrunedOrder(t, order, q, e), q, e, 0);
      var x := if k < |Options(q)| then Options(q)[k] else Options(q)[|Options(q)| - 1];
      assert AskEvidence(t, order, query, e) == e[q := x];
    }
  }

  /**
   * Removing a value of a list of distinct values leaves exactly the other
   * values, each once.
   */
  lemma {:induction false} RemoveFirstSpec(s: seq<Val>, x: Val)
    requires x in s
    requires forall i, j :: 0 <= i < j < |s| ==> s[i] != s[j]
    ensures multiset(RemoveFirst(s, x)) + multiset{x} == multiset(s)
    ensures x !in RemoveFirst(s, x)
    decreases |s|
  {
    if s[0] == x {
      assert s == [x] + s[1..];
      forall i | 0 <= i < |s[1..]|
        ensures s[1..][i] != x
      {
        assert s[i + 1] != s[0];
      }
    } else {
      assert s == [s[0]] + s[1..];
      assert x in s[1..];
      RemoveFirstSpec(s[1..], x);
    }
  }

  /**
   * The point mass on a value of a list of distinct values: 1 for the value
   * first, 0 for every other value, each value of the list once, adding up
   * to 1.
   */
  lemma PointMassSpec(x: Val, s: seq<Val>)
    requires x in s
    requires forall i, j :: 0 <= i < j < |s| ==> s[i] != s[j]
    ensures var d := PointMass(x, RemoveFirst(s, x));
      && d[0] == (x, 1.0)
      && (forall i :: 1 <= i < |d| ==> d[i].1 == 0.0)
      && multiset(Keys(d)) == multiset(s)
      && Total(d) == 1.0
  {
    var d := PointMass(x, RemoveFirst(s, x));
    RemoveFirstSpec(s, x);
    assert Keys(d) == [x] + RemoveFirst(s, x);
    ZerosTotal(d[1..]);
  }

  lemma {:induction false} ZerosTotal(d: Dist)
    requires forall i :: 0 <= i < |d| ==> d[i].1 == 0.0
    ensures Total(d) == 0.0
    decreases |d|
  {
    if d != [] {
      ZerosTotal(d[1..]);
    }
  }

  /**
   * An observed query: EnumerationAsk raises exactly when the observed
   * value is outside the query's domain, and otherwise answers 1 for the
   * observed value and 0 for every other value of the domain, each value of
   * the domain once, adding up to 1.
   */
  lemma AskObserved(t: Tables, order: seq<Var>, query: Var, e: Evidence)
    requires Canon(query) in BuildGraph(t).nodes && Canon(query) in e
    ensures Ask(t, order, query, e).Some? <==> e[Canon(query)] in Options(Canon(query))
    ensures Ask(t, order, query, e).Some? ==>
      var d := Ask(t, order, query, e).value;
      && d[0] == (e[Canon(query)], 1.0)
      && (forall i :: 1 <= i < |d| ==> d[i].1 == 0.0)
      && multiset(Keys(d)) == multiset(Options(Canon(query)))
      && Total(d) == 1.0
  {
    var q := Canon(query);
    if e[q] in Options(q) {
      PointMassSpec(e[q], Options(q));
    }
  }

  /**
   * A query that is neither absent nor observed gets one weight per value
   * of its domain, in domain order.
   */
  lemma AskUnobservedKeys(t: Tables, order: seq<Var>, query: Var, e: Evidence)
    requires Canon(query) in BuildGraph(t).nodes && Canon(query) !in e
    requires Ask(t, order, query, e).Some?
    ensures Keys(Ask(t, order, query, e).value) == Options(Canon(query))
  {
  }

  /**
   * Every key of an answer is a value of the query's domain, or True or
   * False for a query the network does not hold.
   */
  lemma AskKeys(t: Tables, order: seq<Var>, query: Var, e: Evidence)
    requires Ask(t, order, query, e).Some?
    ensures var d := Ask(t, order, query, e).value;
      forall i :: 0 <= i < |d| ==>
        if Canon(query) in BuildGraph(t).nodes then d[i].0 in Options(Canon(query)) else d[i].0.Bool?
  {
    var q := Canon(query);
    var d := Ask(t, order, query, e).value;
    if q in BuildGraph(t).nodes && q in e {
      AskObserved(t, order, query, e);
      forall i | 0 <= i < |d|
        ensures d[i].0 in Options(q)
      {
        assert Keys(d)[i] in multiset(Keys(d));
      }
    }
  }

  /** A value of a variable's kind is in its domain. */
  lemma InOptions(v: Var, x: Val)
    requires InDomain(v, x)
    ensures x in Options(v)
  {
    if v.Season? {
      match x.level
      case Low =>
      case Medium =>
      case High =>
    }
  }

  /**
   * In a well-formed network with well-typed evidence EnumerationAsk raises
   * nothing: the observed value lies in its domain and every lookup of the
   * pruned enumeration succeeds.
   */
  lemma AskSucceeds(t: Tables, order: seq<Var>, query: Var, e: Evidence)
    requires WellFormed(t) && IsTopologicalOrder(BuildGraph(t), order) && WellTyped(e)
    ensures Ask(t, order, query, e).Some?
  {
    var q := Canon(query);
    if q in BuildGraph(t).nodes && q !in e {
      var nodes := PrunedOrder(t, order, q, e);
      var k := FirstKeyError(t, nodes, q, e, 0);
      if k < |Options(q)| {
        PrunedNoKeyError(t, order, q, e, Options(q)[k]);
      }
    } else if q in BuildGraph(t).nodes {
      InOptions(q, e[q]);
    }
  }

  /**
   * Pruning does not change the answer: when the weights the whole network
   * gives the query's values do not all vanish, EnumerationAsk answers them
   * normalized, although it enumerates only the nodes RemoveBarrenNodes keeps.
   */
  lemma AskMatchesFullEnumeration(t: Tables, order: seq<Var>, query: Var, e: Evidence)
    requires WellFormed(t) && IsTopologicalOrder(BuildGraph(t), order) && WellTyped(e)
    requires Canon(query) in BuildGraph(t).nodes && Canon(query) !in e
    requires Total(Weights(t, order, Canon(query), e)) != 0.0
    ensures Ask(t, order, query, e) == Some(Normalize(Weights(t, order, Canon(query), e)))
  {
    var q := Canon(query);
    var nodes := PrunedOrder(t, order, q, e);
    var W := Weights(t, nodes, q, e);
    var R := Weights(t, order, q, e);
    var c := PrunedWeights(t, order, q, e);
    ScaledWeights(t, order, nodes, q, e, c);
    assert c != 0.0 && Total(W) != 0.0 by {
      TotalScale(W, c);
    }
    NormalizeScaleInvariant(W, c);
    assert Enumerate(t, nodes, q, e) == Some(Normalize(W)) by {
      AskSucceeds(t, order, query, e);
    }
  }

  /**
   * The weight the whole network gives each value of the query is one and
   * the same multiple of the weight the pruned network gives it.
   */
  lemma PrunedWeights(t: Tables, order: seq<Var>, q: Var, e: Evidence) returns (c: real)
    requires WellFormed(t) && IsTopologicalOrder(BuildGraph(t), order)
    requires q !in e && WellTyped(e)
    ensures forall x :: x in Options(q) ==> Ratio(NetFactor(t), order, PrunedOrder(t, order, q, e), e[q := x], c)
  {
    c := PruneFactor(NetFactor(t), NetMass(t), BuildGraph(t), order, q, e);
    forall x | x in Options(q)
      ensures Ratio(NetFactor(t), order, PrunedOrder(t, order, q, e), e[q := x], c)
    {
      NetworkPruneSound(t, order, q, e, x);
    }
  }

  /** Enumerations in a fixed ratio give proportional weights. */
  lemma ScaledWeights(t: Tables, n1: seq<Var>, n2: seq<Var>, q: Var, e: Evidence, c: real)
    requires forall x :: x in Options(q) ==> Ratio(NetFactor(t), n1, n2, e[q := x], c)
    ensures Weights(t, n1, q, e) == Scale(Weights(t, n2, q, e), c)
  {
    var R := Weights(t, n1, q, e);
    var S := Scale(Weights(t, n2, q, e), c);
    forall i | 0 <= i < |R|
      ensures R[i] == S[i]
    {
      assert Options(q)[i] in Options(q);
      ScaledWeightAt(t, n1, n2, q, e, c, i);
    }
  }

  lemma ScaledWeightAt(t: Tables, n1: seq<Var>, n2: seq<Var>, q: Var, e: Evidence, c: real, i: int)
    requires 0 <= i < |Options(q)| && Ratio(NetFactor(t), n1, n2, e[q := Options(q)[i]], c)
    ensures Weights(t, n1, q, e)[i] == Scale(Weights(t, n2, q, e), c)[i]
  {
    var R, W := Weights(t, n1, q, e), Weights(t, n2, q, e);
    var x := Options(q)[i];
    ScaleEntry(R, W, c, i, EnumerationAll(NetFactor(t), n1, e[q := x]), EnumerationAll(NetFactor(t), n2, e[q := x]));
  }

  lemma ScaleEntry(R: Dist, W: Dist, c: real, i: int, a: real, b: real)
    requires 0 <= i < |R| == |W| && R[i].0 == W[i].0
    requires R[i].1 == a && W[i].1 == b && a == c * b
    ensures R[i] == Scale(W, c)[i]
  {
    ScaleAt(W, c, i);
    assert Scale(W, c)[i].0 == R[i].0 && Scale(W, c)[i].1 == R[i].1;
  }

  /** Nonnegative weights that add up to 0 are all 0. */
  lemma ZeroTotalAllZero(d: Dist)
    requires forall i :: 0 <= i < |d| ==> 0.0 <= d[i].1
    requires Total(d) == 0.0
    ensures forall i :: 0 <= i < |d| ==> d[i].1 == 0.0
  {
    forall i | 0 <= i < |d|
      ensures d[i].1 == 0.0
    {
      WeightBelowTotal(d, i);
    }
  }

  /**
   * An answer of EnumerationAsk read as a distribution: every weight in
   * [0, 1], and the weights add up to 1 unless they are all 0.
   */
  predicate IsDistribution(d: Dist) {
    && (forall i :: 0 <= i < |d| ==> 0.0 <= d[i].1 <= 1.0)
    && (Total(d) == 1.0 || forall i :: 0 <= i < |d| ==> d[i].1 == 0.0)
  }

  /**
   * With calibrated tables every answer is a distribution: its weights lie
   * in [0, 1] and add up to 1, unless every weight is 0 (the evidence has
   * probability 0 and Normalize leaves the weights alone).
   */
  lemma AskIsDistribution(t: Tables, order: seq<Var>, query: Var, e: Evidence)
    requires WellFormed(t) && Calibrated(t)
    requires Ask(t, order, query, e).Some?
    ensures IsDistribution(Ask(t, order, query, e).value)
  {
    var q := Canon(query);
    if q !in BuildGraph(t).nodes {
      AbsentIsDistribution();
    } else if q in e {
      ObservedIsDistribution(t, order, query, e);
    } else {
      EnumerateIsDistribution(t, PrunedOrder(t, order, q, e), q, e);
    }
  }

  lemma AbsentIsDistribution()
    ensures IsDistribution(AbsentAnswer)
  {
    assert AbsentAnswer[1..][1..] == [];
  }

  /** The point mass answering an observed query is a distribution. */
  lemma ObservedIsDistribution(t: Tables, order: seq<Var>, query: Var, e: Evidence)
    requires Canon(query) in BuildGraph(t).nodes && Canon(query) in e
    requires Ask(t, order, query, e).Some?
    ensures IsDistribution(Ask(t, order, query, e).value)
  {
    AskObserved(t, order, query, e);
    PointMassIsDistribution(Ask(t, order, query, e).value);
  }

  lemma PointMassIsDistribution(d: Dist)
    requires |d| >= 1 && d[0].1 == 1.0 && Total(d) == 1.0
    requires forall i :: 1 <= i < |d| ==> d[i].1 == 0.0
    ensures IsDistribution(d)
  {
  }

  /**
   * With calibrated tables, the normalized weights of a query over any list
   * are a distribution.
   */
  lemma EnumerateIsDistribution(t: Tables, nodes: seq<Var>, q: Var, e: Evidence)
    requires WellFormed(t) && Calibrated(t)
    requires Enumerate(t, nodes, q, e).Some?
    ensures IsDistribution(Enumerate(t, nodes, q, e).value)
  {
    var w := Weights(t, nodes, q, e);
    NetFactorSubStochastic(t);
    forall i | 0 <= i < |w|
      ensures 0.0 <= w[i].1 <= 1.0
    {
      EnumerationAllBounds(NetFactor(t), nodes, e[q := Options(q)[i]]);
    }
    NormalizeBounds(w);
    if Total(w) == 0.0 {
      ZeroTotalAllZero(w);
    } else {
      NormalizeSumsToOne(w);
    }
  }

  /** FirstKeyError depends only on which values raise. */
  lemma {:induction false} FirstKeyErrorSame(t: Tables, nodes: seq<Var>, q: Var, e1: Evidence, e2: Evidence, i: int)
    requires 0 <= i <= |Options(q)|
    requires forall j :: i <= j < |Options(q)| ==>
      NoKeyError(t, nodes, e1[q := Options(q)[j]]) == NoKeyError(t, nodes, e2[q := Options(q)[j]])
    ensures FirstKeyError(t, nodes, q, e1, i) == FirstKeyError(t, nodes, q, e2, i)
    decreases |Options(q)| - i
  {
    if i < |Options(q)| {
      FirstKeyErrorSame(t, nodes, q, e1, e2, i + 1);
    }
  }

  /**
   * An evidence entry under a key that is not in canonical form changes
   * neither the weights of an enumeration nor whether it raises.
   */
  lemma EnumerateIgnoresReversedKey(t: Tables, nodes: seq<Var>, q: Var, e: Evidence, k: Var, v: Val)
    requires !IsCanonical(k)
    ensures Enumerate(t, nodes, q, e[k := v]) == Enumerate(t, nodes, q, e)
  {
    var e' := e[k := v];
    var o := Options(q);
    ReadsCanonical(nodes);
    NetFactorReadsParents(t);
    forall i | 0 <= i < |o|
      ensures NoKeyError(t, nodes, e'[q := o[i]]) == NoKeyError(t, nodes, e[q := o[i]])
      ensures EnumerationAll(NetFactor(t), nodes, e'[q := o[i]]) == EnumerationAll(NetFactor(t), nodes, e[q := o[i]])
    {
      assert AgreeOn(e'[q := o[i]], e[q := o[i]], Reads(nodes));
      NoKeyErrorFrame(t, nodes, e'[q := o[i]], e[q := o[i]]);
      EnumerationAllFrame(NetFactor(t), nodes, e'[q := o[i]], e[q := o[i]]);
    }
    FirstKeyErrorSame(t, nodes, q, e', e, 0);
    assert Weights(t, nodes, q, e') == Weights(t, nodes, q, e);
  }

  /**
   * EnumerationAsk looks every variable up in canonical form, so an
   * evidence entry under an edge written against sorted order (larger
   * endpoint first) changes no answer.
   */
  lemma AskIgnoresReversedKey(t: Tables, order: seq<Var>, query: Var, e: Evidence, k: Var, v: Val)
    requires WellFormed(t) && IsTopologicalOrder(BuildGraph(t), order)
    requires !IsCanonical(k)
    ensures Ask(t, order, query, e[k := v]) == Ask(t, order, query, e)
  {
    var q := Canon(query);
    CanonSpec(query);
    if q in BuildGraph(t).nodes && q !in e {
      PrunedOrderIgnoresReversedKey(t, order, q, e, k, v);
      AskUnobservedIgnoresReversedKey(t, order, query, e, k, v);
    } else {
      AskAtOnceIgnoresReversedKey(t, order, query, e, k, v);
    }
  }

  lemma AskAtOnceIgnoresReversedKey(t: Tables, order: seq<Var>, query: Var, e: Evidence, k: Var, v: Val)
    requires Canon(query) != k
    requires Canon(query) !in BuildGraph(t).nodes || Canon(query) in e
    ensures Ask(t, order, query, e[k := v]) == Ask(t, order, query, e)
  {
  }

  lemma AskUnobservedIgnoresReversedKey(t: Tables, order: seq<Var>, query: Var, e: Evidence, k: Var, v: Val)
    requires !IsCanonical(k) && Canon(query) != k
    requires Canon(query) in BuildGraph(t).nodes && Canon(query) !in e
    requires PrunedOrder(t, order, Canon(query), e[k := v]) == PrunedOrder(t, order, Canon(query), e)
    ensures Ask(t, order, query, e[k := v]) == Ask(t, order, query, e)
  {
    EnumerateIgnoresReversedKey(t, PrunedOrder(t, order, Canon(query), e), Canon(query), e, k, v);
  }

  /** Pruning keeps the same nodes whatever is stored under a non-canonical key. */
  lemma PrunedOrderIgnoresReversedKey(t: Tables, order: seq<Var>, q: Var, e: Evidence, k: Var, v: Val)
    requires WellFormed(t) && IsTopologicalOrder(BuildGraph(t), order)
    requires !IsCanonical(k)
    ensures PrunedOrder(t, order, q, e[k := v]) == PrunedOrder(t, order, q, e)
  {
    var e' := e[k := v];
    forall w | w in order
      ensures w in e'.Keys + {q} <==> w in e.Keys + {q}
    {
      NetworkVarIsCanonical(t, w);
    }
    PrunedObservedOnly(BuildGraph(t), order, q, e'.Keys + {q}, e.Keys + {q});
  }

  /** `p[k]`: the weight stored under k; None (a KeyError) when there is none. */
  function Get(d: Dist, k: Val): (r: Option<real>)
    ensures r.Some? <==> k in Keys(d)
    ensures r.Some? ==> exists i :: 0 <= i < |d| && d[i] == (k, r.value)
    decreases |d|
  {
    if d == [] then None
    else if d[0].0 == k then Some(d[0].1)
    else
      assert Keys(d) == [d[0].0] + Keys(d[1..]);
      Get(d[1..], k)
  }

  /** `EnumerationAsk([query], e)[False]`. */
  function FalseWeight(t: Tables, order: seq<Var>, query: Var, e: Evidence): Option<real> {
    match Ask(t, order, query, e)
    case None => None
    case Some(d) => Get(d, Bool(false))
  }

  /** FalseWeight as a function of the query and the evidence. */
  function FalseAsker(t: Tables, order: seq<Var>): (Var, Evidence) -> Option<real> {
    (query, e) => FalseWeight(t, order, query, e)
  }

  /**
   * The key under which an answered query is set to False for the queries
   * after it: the query in canonical form, or as given.
   */
  function RecordKey(query: Var, canonical: bool): Var {
    if canonical then Canon(query) else query
  }

  /**
   * The recursion of EnumerationAskSet for a given way of answering one
   * query (`ask`: the weight of False for the query under the evidence):
   * the product of the answers, each query answered with every earlier one
   * set to False under RecordKey; None as soon as one answer raises.
   */
  function FalseChain(ask: (Var, Evidence) -> Option<real>, canonical: bool, qs: seq<Var>, e: Evidence): Option<real>
    decreases |qs|
  {
    if qs == [] then Some(1.0)
    else Times(ask(qs[0], e), FalseChain(ask, canonical, qs[1..], e[RecordKey(qs[0], canonical) := Bool(false)]))
  }

  /** The product of two answers; None when either raised. */
  function Times(p: Option<real>, r: Option<real>): Option<real> {
    if p.None? || r.None? then None else Some(p.value * r.value)
  }

  /**
   * EnumerationAskSet as written: each earlier query is recorded in the
   * evidence under the key as given.
   */
  function AskSetAsWritten(t: Tables, order: seq<Var>, qs: seq<Var>, e: Evidence): Option<real> {
    FalseChain(FalseAsker(t, order), false, qs, e)
  }

  /**
   * EnumerationAskSet with each earlier query recorded in canonical form,
   * the form EnumerationAsk looks it up in.
   */
  function AskSet(t: Tables, order: seq<Var>, qs: seq<Var>, e: Evidence): Option<real> {
    FalseChain(FalseAsker(t, order), true, qs, e)
  }

  /** When every query is in canonical form the two ways of recording agree. */
  lemma {:induction false} ChainCanonicalAgree(ask: (Var, Evidence) -> Option<real>, qs: seq<Var>, e: Evidence)
    requires forall i :: 0 <= i < |qs| ==> IsCanonical(qs[i])
    ensures FalseChain(ask, false, qs, e) == FalseChain(ask, true, qs, e)
    decreases |qs|
  {
    if qs != [] {
      CanonSpec(qs[0]);
      ChainCanonicalAgree(ask, qs[1..], e[qs[0] := Bool(false)]);
    }
  }

  /**
   * When answers ignore the entry under k, so does the chain that records
   * queries as given.
   */
  lemma {:induction false} ChainIgnoresKey(ask: (Var, Evidence) -> Option<real>, qs: seq<Var>, e: Evidence, k: Var, v: Val)
    requires forall query, ev :: ask(query, ev[k := v]) == ask(query, ev)
    requires forall query, ev :: ask(query, ev[k := Bool(false)]) == ask(query, ev)
    ensures FalseChain(ask, false, qs, e[k := v]) == FalseChain(ask, false, qs, e)
    decreases |qs|
  {
    if qs != [] {
      assert ask(qs[0], e[k := v]) == ask(qs[0], e);
      if qs[0] == k {
        assert e[k := v][k := Bool(false)] == e[k := Bool(false)];
      } else {
        assert e[k := v][qs[0] := Bool(false)] == e[qs[0] := Bool(false)][k := v];
        ChainIgnoresKey(ask, qs[1..], e[qs[0] := Bool(false)], k, v);
      }
    }
  }

  /** When answers depend on the query only through its canonical form, so does the chain. */
  lemma {:induction false} ChainDirectionFree(ask: (Var, Evidence) -> Option<real>, qs1: seq<Var>, qs2: seq<Var>, e: Evidence)
    requires forall query, ev :: ask(query, ev) == ask(Canon(query), ev)
    requires |qs1| == |qs2|
    requires forall i :: 0 <= i < |qs1| ==> Canon(qs1[i]) == Canon(qs2[i])
    ensures FalseChain(ask, true, qs1, e) == FalseChain(ask, true, qs2, e)
    decreases |qs1|
  {
    if qs1 != [] {
      assert ask(qs1[0], e) == ask(qs2[0], e) by {
        assert ask(qs1[0], e) == ask(Canon(qs1[0]), e);
        assert ask(qs2[0], e) == ask(Canon(qs2[0]), e);
      }
      ChainDirectionFree(ask, qs1[1..], qs2[1..], e[Canon(qs1[0]) := Bool(false)]);
    }
  }

  /** When every answer is a probability, so is the product. */
  lemma {:induction false} ChainBounds(ask: (Var, Evidence) -> Option<real>, canonical: bool, qs: seq<Var>, e: Evidence)
    requires forall query, ev :: ask(query, ev).Some? ==> 0.0 <= ask(query, ev).value <= 1.0
    ensures FalseChain(ask, canonical, qs, e).Some? ==> 0.0 <= FalseChain(ask, canonical, qs, e).value <= 1.0
    decreases |qs|
  {
    if qs != [] && ask(qs[0], e).Some? {
      var p := ask(qs[0], e).value;
      var e' := e[RecordKey(qs[0], canonical) := Bool(false)];
      ChainBounds(ask, canonical, qs[1..], e');
      if FalseChain(ask, canonical, qs[1..], e').Some? {
        var r := FalseChain(ask, canonical, qs[1..], e').value;
        assert FalseChain(ask, canonical, qs, e).value == p * r;
        assert p * r <= 1.0 * r;
      }
    }
  }

  /**
   * When every query that is not the season is answered under well-typed
   * evidence, a chain of such queries is answered, whichever key each
   * answered query is recorded under.
   */
  lemma {:induction false} ChainSucceeds(ask: (Var, Evidence) -> Option<real>, canonical: bool, qs: seq<Var>, e: Evidence)
    requires forall query, ev :: WellTyped(ev) && !Canon(query).Season? ==> ask(query, ev).Some?
    requires WellTyped(e)
    requires forall i :: 0 <= i < |qs| ==> !Canon(qs[i]).Season?
    ensures FalseChain(ask, canonical, qs, e).Some?
    decreases |qs|
  {
    if qs != [] {
      assert ask(qs[0], e).Some?;
      var k := RecordKey(qs[0], canonical);
      CanonSpec(qs[0]);
      assert !k.Season?;
      WellTypedUpdate(e, k, Bool(false));
      ChainSucceeds(ask, canonical, qs[1..], e[k := Bool(false)]);
    }
  }

  /** A query asked twice in a row: the second answer is given the first recorded False. */
  lemma ChainTwice(ask: (Var, Evidence) -> Option<real>, canonical: bool, k: Var, e: Evidence, p: real, p2: real)
    requires ask(k, e) == Some(p) && ask(k, e[RecordKey(k, canonical) := Bool(false)]) == Some(p2)
    ensures FalseChain(ask, canonical, [k, k], e) == Some(p * (p2 * 1.0))
  {
    var e' := e[RecordKey(k, canonical) := Bool(false)];
    assert [k][1..] == [] && [k, k][1..] == [k];
    assert FalseChain(ask, canonical, [k], e') == Times(Some(p2), Some(1.0));
    assert Times(Some(p2), Some(1.0)).value == p2 * 1.0;
    assert Times(Some(p), Some(p2 * 1.0)).value == p * (p2 * 1.0);
  }

  /**
   * Once the query is observed False, the probability that it is False is
   * 1.
   */
  lemma FalseWeightObservedFalse(t: Tables, order: seq<Var>, query: Var, e: Evidence)
    requires query.Edge? || query.Vertex?
    requires Canon(query) in e && e[Canon(query)] == Bool(false)
    ensures FalseWeight(t, order, query, e) == Some(1.0)
  {
    CanonSpec(query);
    assert Options(Canon(query)) == [Bool(true), Bool(false)];
    if Canon(query) in BuildGraph(t).nodes {
      PointMassFalse();
    } else {
      AbsentFalse();
    }
  }

  /** The point mass on False has weight 1 under False. */
  lemma PointMassFalse()
    ensures Get(PointMass(Bool(false), RemoveFirst([Bool(true), Bool(false)], Bool(false))), Bool(false)) == Some(1.0)
  {
    assert RemoveFirst([Bool(true), Bool(false)], Bool(false)) == [Bool(true)];
  }

  /** AbsentAnswer has weight 1 under False. */
  lemma AbsentFalse()
    ensures Get(AbsentAnswer, Bool(false)) == Some(1.0)
  {
    assert Get(AbsentAnswer[1..], Bool(false)) == Some(1.0);
  }

  /**
   * The discrepancy: asking for the same edge twice, given against sorted
   * order, the written version squares the probability that it is False;
   * the canonical version, which conditions the second query on the first,
   * answers that probability itself.
   */
  lemma AskSetRepeatedReversedEdge(t: Tables, order: seq<Var>, k: Var, e: Evidence, p: real)
    requires WellFormed(t) && IsTopologicalOrder(BuildGraph(t), order)
    requires !IsCanonical(k) && FalseWeight(t, order, k, e) == Some(p)
    ensures AskSetAsWritten(t, order, [k, k], e) == Some(p * p)
    ensures AskSet(t, order, [k, k], e) == Some(p)
  {
    var ask := FalseAsker(t, order);
    assert ask(k, e[k := Bool(false)]) == Some(p) by {
      AskIgnoresReversedKey(t, order, k, e, k, Bool(false));
    }
    assert ask(k, e[Canon(k) := Bool(false)]) == Some(1.0) by {
      FalseWeightObservedFalse(t, order, k, e[Canon(k) := Bool(false)]);
    }
    ChainTwice(ask, false, k, e, p, p);
    ChainTwice(ask, true, k, e, p, 1.0);
  }

  /** Asking for an edge or a vertex twice is asking for it once. */
  lemma AskSetRepeated(t: Tables, order: seq<Var>, k: Var, e: Evidence)
    requires k.Edge? || k.Vertex?
    ensures AskSet(t, order, [k, k], e) == AskSet(t, order, [k], e)
  {
    var ask := FalseAsker(t, order);
    assert [k][1..] == [] && [k, k][1..] == [k];
    assert FalseChain(ask, true, [], e[Canon(k) := Bool(false)]) == Some(1.0);
    assert AskSet(t, order, [k], e) == Times(ask(k, e), Some(1.0));
    if ask(k, e).Some? {
      var p := ask(k, e).value;
      assert ask(k, e[Canon(k) := Bool(false)]) == Some(1.0) by {
        FalseWeightObservedFalse(t, order, k, e[Canon(k) := Bool(false)]);
      }
      ChainTwice(ask, true, k, e, p, 1.0);
      assert Times(Some(p), Some(1.0)).value == p * 1.0;
    }
  }

  /**
   * When every query is in canonical form, EnumerationAskSet as written
   * and with canonical keys agree.
   */
  lemma AskSetCanonicalAgree(t: Tables, order: seq<Var>, qs: seq<Var>, e: Evidence)
    requires forall i :: 0 <= i < |qs| ==> IsCanonical(qs[i])
    ensures AskSetAsWritten(t, order, qs, e) == AskSet(t, order, qs, e)
  {
    ChainCanonicalAgree(FalseAsker(t, order), qs, e);
  }

  /**
   * When answers ignore the entry under the first query, the chain that
   * records queries as given answers the rest as if the first had not been
   * asked.
   */
  lemma ChainDropsFirst(ask: (Var, Evidence) -> Option<real>, qs: seq<Var>, e: Evidence)
    requires qs != []
    requires forall query, ev :: ask(query, ev[qs[0] := Bool(false)]) == ask(query, ev)
    ensures FalseChain(ask, false, qs, e) == Times(ask(qs[0], e), FalseChain(ask, false, qs[1..], e))
  {
    ChainIgnoresKey(ask, qs[1..], e, qs[0], Bool(false));
  }

  /** FalseWeight ignores whatever is stored under a non-canonical key. */
  lemma FalseAskerIgnoresReversedKey(t: Tables, order: seq<Var>, k: Var, v: Val)
    requires WellFormed(t) && IsTopologicalOrder(BuildGraph(t), order)
    requires !IsCanonical(k)
    ensures forall query, ev :: FalseAsker(t, order)(query, ev[k := v]) == FalseAsker(t, order)(query, ev)
  {
    forall query, ev
      ensures FalseWeight(t, order, query, ev[k := v]) == FalseWeight(t, order, query, ev)
    {
      AskIgnoresReversedKey(t, order, query, ev, k, v);
    }
  }

  /**
   * As written, a query given against sorted order is not conditioned on
   * by the queries after it: its False is recorded under a key nothing looks
   * up, so the rest of the product is computed from the original evidence.
   */
  lemma AskSetAsWrittenDropsReversed(t: Tables, order: seq<Var>, qs: seq<Var>, e: Evidence)
    requires WellFormed(t) && IsTopologicalOrder(BuildGraph(t), order)
    requires qs != [] && !IsCanonical(qs[0])
    ensures AskSetAsWritten(t, order, qs, e) == Times(FalseWeight(t, order, qs[0], e), AskSetAsWritten(t, order, qs[1..], e))
  {
    FalseAskerIgnoresReversedKey(t, order, qs[0], Bool(false));
    ChainDropsFirst(FalseAsker(t, order), qs, e);
  }

  /**
   * Queries that name the same variables, each edge in either direction,
   * get the same answer.
   */
  lemma AskSetDirectionFree(t: Tables, order: seq<Var>, qs1: seq<Var>, qs2: seq<Var>, e: Evidence)
    requires |qs1| == |qs2|
    requires forall i :: 0 <= i < |qs1| ==> Canon(qs1[i]) == Canon(qs2[i])
    ensures AskSet(t, order, qs1, e) == AskSet(t, order, qs2, e)
  {
    var ask := FalseAsker(t, order);
    forall query, ev
      ensures ask(query, ev) == ask(Canon(query), ev)
    {
      CanonIdempotent(query);
    }
    ChainDirectionFree(ask, qs1, qs2, e);
  }

  lemma CanonIdempotent(v: Var)
    ensures Canon(Canon(v)) == Canon(v)
  {
    CanonSpec(v);
    CanonSpec(Canon(v));
  }

  /** With calibrated tables every weight of False is a probability. */
  lemma FalseAskerBounds(t: Tables, order: seq<Var>)
    requires WellFormed(t) && Calibrated(t)
    ensures forall query, ev :: FalseAsker(t, order)(query, ev).Some? ==>
      0.0 <= FalseAsker(t, order)(query, ev).value <= 1.0
  {
    forall query, ev | FalseWeight(t, order, query, ev).Some?
      ensures 0.0 <= FalseWeight(t, order, query, ev).value <= 1.0
    {
      AskIsDistribution(t, order, query, ev);
    }
  }

  /** With calibrated tables the answer is a probability. */
  lemma AskSetBounds(t: Tables, order: seq<Var>, qs: seq<Var>, e: Evidence)
    requires WellFormed(t) && Calibrated(t)
    requires AskSet(t, order, qs, e).Some?
    ensures 0.0 <= AskSet(t, order, qs, e).value <= 1.0
  {
    FalseAskerBounds(t, order);
    ChainBounds(FalseAsker(t, order), true, qs, e);
  }

  /** As written, too, the answer is a probability with calibrated tables. */
  lemma AskSetAsWrittenBounds(t: Tables, order: seq<Var>, qs: seq<Var>, e: Evidence)
    requires WellFormed(t) && Calibrated(t)
    requires AskSetAsWritten(t, order, qs, e).Some?
    ensures 0.0 <= AskSetAsWritten(t, order, qs, e).value <= 1.0
  {
    FalseAskerBounds(t, order);
    ChainBounds(FalseAsker(t, order), false, qs, e);
  }

  /** Every answer for a query that is not the season has a False entry. */
  lemma AskHasFalse(t: Tables, order: seq<Var>, query: Var, e: Evidence)
    requires !Canon(query).Season?
    requires Ask(t, order, query, e).Some?
    ensures Bool(false) in Keys(Ask(t, order, query, e).value)
  {
    var q := Canon(query);
    if q in BuildGraph(t).nodes && q in e {
      AskObserved(t, order, query, e);
      var d := Ask(t, order, query, e).value;
      assert Options(q) == [Bool(true), Bool(false)];
      assert multiset(Keys(d)) == multiset(Options(q));
      assert Bool(false) in multiset(Keys(d));
    } else if q in BuildGraph(t).nodes {
      AskUnobservedKeys(t, order, query, e);
      assert Options(q)[1] == Bool(false);
    } else {
      assert Keys(AbsentAnswer)[1] == Bool(false);
    }
  }

  /**
   * In a well-formed network with well-typed evidence EnumerationAskSet
   * raises nothing, provided no query is the season (whose answer has no
   * False entry).
   */
  lemma AskSetSucceeds(t: Tables, order: seq<Var>, qs: seq<Var>, e: Evidence)
    requires WellFormed(t) && IsTopologicalOrder(BuildGraph(t), order) && WellTyped(e)
    requires forall i :: 0 <= i < |qs| ==> !Canon(qs[i]).Season?
    ensures AskSet(t, order, qs, e).Some?
  {
    FalseAskerSucceeds(t, order);
    ChainSucceeds(FalseAsker(t, order), true, qs, e);
  }

  /** As written, too, EnumerationAskSet raises nothing on such queries. */
  lemma AskSetAsWrittenSucceeds(t: Tables, order: seq<Var>, qs: seq<Var>, e: Evidence)
    requires WellFormed(t) && IsTopologicalOrder(BuildGraph(t), order) && WellTyped(e)
    requires forall i :: 0 <= i < |qs| ==> !Canon(qs[i]).Season?
    ensures AskSetAsWritten(t, order, qs, e).Some?
  {
    FalseAskerSucceeds(t, order);
    ChainSucceeds(FalseAsker(t, order), false, qs, e);
  }

  /**
   * In a well-formed network, under well-typed evidence, the weight of
   * False is found for every query that is not the season.
   */
  lemma FalseAskerSucceeds(t: Tables, order: seq<Var>)
    requires WellFormed(t) && IsTopologicalOrder(BuildGraph(t), order)
    ensures forall query, ev :: WellTyped(ev) && !Canon(query).Season? ==> FalseAsker(t, order)(query, ev).Some?
  {
    forall query, ev | WellTyped(ev) && !Canon(query).Season?
      ensures FalseWeight(t, order, query, ev).Some?
    {
      AskSucceeds(t, order, query, ev);
      AskHasFalse(t, order, query, ev);
    }
  }
}
