/**
 * Marginalization for EnumerationAll (bayes_network.py:264-288): summing the
 * sum-product over every value of an unobserved variable gives the
 * sum-product with that variable left unobserved. This is what makes the
 * weights EnumerationAsk builds add up to the probability of the evidence.
 */
module Marginalization {
  import opened Variables
  import opened CptModel
  import opened Enumeration

  /** The sum of f over the values of a list, in list order. */
  function SumOver(o: seq<Val>, f: Val -> real): real
    decreases |o|
  {
    if o == [] then 0.0 else f(o[0]) + SumOver(o[1..], f)
  }

  /** Summing two functions that agree on the list gives the same. */
  lemma {:induction false} SumOverSame(o: seq<Val>, f: Val -> real, g: Val -> real)
    requires forall x :: x in o ==> f(x) == g(x)
    ensures SumOver(o, f) == SumOver(o, g)
    decreases |o|
  {
    if o != [] {
      assert o[0] in o;
      SumOverSame(o[1..], f, g);
    }
  }

  /** A common factor comes out of the sum. */
  lemma {:induction false} SumOverScale(o: seq<Val>, f: Val -> real, g: Val -> real, c: real)
    requires forall x :: x in o ==> g(x) == c * f(x)
    ensures SumOver(o, g) == c * SumOver(o, f)
    decreases |o|
  {
    if o != [] {
      assert o[0] in o;
      SumOverScale(o[1..], f, g, c);
    }
  }

  /** The sum of a pointwise sum is the sum of the sums. */
  lemma {:induction false} SumOverAdd(o: seq<Val>, f1: Val -> real, f2: Val -> real, h: Val -> real)
    requires forall x :: x in o ==> h(x) == f1(x) + f2(x)
    ensures SumOver(o, h) == SumOver(o, f1) + SumOver(o, f2)
    decreases |o|
  {
    if o != [] {
      assert o[0] in o;
      SumOverAdd(o[1..], f1, f2, h);
    }
  }

  /** g with its first argument fixed to x. */
  function Slice(g: (Val, Val) -> real, x: Val): Val -> real {
    y => g(x, y)
  }

  /** g with its second argument fixed to y. */
  function Flip(g: (Val, Val) -> real, y: Val): Val -> real {
    x => g(x, y)
  }

  /** The sum over y of g(x, y), for each x. */
  function Row(o2: seq<Val>, g: (Val, Val) -> real): Val -> real {
    x => SumOver(o2, Slice(g, x))
  }

  /** The sum over x of g(x, y), for each y. */
  function Column(o1: seq<Val>, g: (Val, Val) -> real): Val -> real {
    y => SumOver(o1, Flip(g, y))
  }

  /** A double sum over two finite lists can be taken in either order. */
  lemma {:induction false} SumOverSwap(o1: seq<Val>, o2: seq<Val>, g: (Val, Val) -> real)
    ensures SumOver(o1, Row(o2, g)) == SumOver(o2, Column(o1, g))
    decreases |o1|
  {
    if o1 == [] {
      ZeroColumns(o2, g);
    } else {
      var x0 := o1[0];
      SumOverSwap(o1[1..], o2, g);
      forall y | y in o2
        ensures Column(o1, g)(y) == Slice(g, x0)(y) + Column(o1[1..], g)(y)
      {
      }
      SumOverAdd(o2, Slice(g, x0), Column(o1[1..], g), Column(o1, g));
    }
  }

  lemma {:induction false} ZeroColumns(o2: seq<Val>, g: (Val, Val) -> real)
    ensures SumOver(o2, Column([], g)) == 0.0
    decreases |o2|
  {
    if o2 != [] {
      ZeroColumns(o2[1..], g);
    }
  }

  /** An inner product over a domain, written as a sum over the domain. */
  lemma {:induction false} InnerAsSum(p: seq<real>, r: seq<real>, o: seq<Val>, f: Val -> real)
    requires |p| == |r| == |o|
    requires forall i :: 0 <= i < |o| ==> p[i] * r[i] == f(o[i])
    ensures Inner(p, r) == SumOver(o, f)
    decreases |o|
  {
    if o != [] {
      assert p[0] * r[0] == f(o[0]);
      InnerAsSum(p[1..], r[1..], o[1..], f);
    }
  }

  /** No variable is one of its own parents. */
  lemma NotOwnParent(v: Var)
    ensures v !in CptParents(v)
  {
  }

  /** The list evaluated with q set to each value. */
  function SetTerm(P: FactorFn, n: seq<Var>, q: Var, e: Evidence): Val -> real {
    x => EnumerationAll(P, n, e[q := x])
  }

  /** y's factor for each value times the rest evaluated with y set to it. */
  function HeadTerm(P: FactorFn, y: Var, rest: seq<Var>, e: Evidence): Val -> real {
    x => P(y, e, x) * EnumerationAll(P, rest, e[y := x])
  }

  /**
   * EnumerationAll with an unobserved head y: the sum over y's domain of
   * y's factor times the rest evaluated with y set.
   */
  lemma UnobservedHead(P: FactorFn, y: Var, rest: seq<Var>, e: Evidence)
    requires Canon(y) == y && y !in e
    ensures EnumerationAll(P, [y] + rest, e) == SumOver(Options(y), HeadTerm(P, y, rest, e))
  {
    var o := Options(y);
    var p := Factors(P, y, e);
    var r := Results(P, y, rest, e);
    forall i | 0 <= i < |o|
      ensures p[i] * r[i] == HeadTerm(P, y, rest, e)(o[i])
    {
      ResultsAt(P, y, rest, e, i);
    }
    InnerAsSum(p, r, o, HeadTerm(P, y, rest, e));
    assert ([y] + rest)[0] == y && ([y] + rest)[1..] == rest;
  }

  /**
   * The head case of marginalization: with the variable first in the list,
   * summing over its values is the definition of EnumerationAll.
   */
  lemma MarginalizeHead(P: FactorFn, q: Var, b: seq<Var>, e: Evidence)
    requires ReadsParents(P)
    requires Canon(q) == q && q !in e
    ensures SumOver(Options(q), SetTerm(P, [q] + b, q, e)) == EnumerationAll(P, [q] + b, e)
  {
    HeadTermsAgree(P, q, b, e, Options(q));
    UnobservedHead(P, q, b, e);
    SameSumTo(Options(q), SetTerm(P, [q] + b, q, e), HeadTerm(P, q, b, e), EnumerationAll(P, [q] + b, e));
  }

  /** With q first in the list, setting q to x is taking the head term at x. */
  lemma HeadTermsAgree(P: FactorFn, q: Var, b: seq<Var>, e: Evidence, o: seq<Val>)
    requires ReadsParents(P)
    requires Canon(q) == q && q !in e
    ensures forall x :: x in o ==> SetTerm(P, [q] + b, q, e)(x) == HeadTerm(P, q, b, e)(x)
  {
    NotOwnParent(q);
    assert ([q] + b)[0] == q && ([q] + b)[1..] == b;
    forall x | x in o
      ensures SetTerm(P, [q] + b, q, e)(x) == HeadTerm(P, q, b, e)(x)
    {
      assert AgreeOn(e[q := x], e, CptParents(q));
    }
  }

  /** Summing a function that agrees with g on o gives g's sum. */
  lemma SameSumTo(o: seq<Val>, f: Val -> real, g: Val -> real, r: real)
    requires forall x :: x in o ==> f(x) == g(x)
    requires SumOver(o, g) == r
    ensures SumOver(o, f) == r
  {
    SumOverSame(o, f, g);
  }

  /** Every listed variable is canonical and is neither q nor a child of q. */
  predicate Before(a: seq<Var>, q: Var) {
    forall v :: v in a ==> Canon(v) == v && v != q && q !in CptParents(v)
  }

  /**
   * Marginalization: for an unobserved variable q that no variable listed
   * before it is or depends on, the sum over q's domain of EnumerationAll
   * with q set is EnumerationAll with q unobserved.
   */
  lemma {:induction false} Marginalize(P: FactorFn, a: seq<Var>, q: Var, b: seq<Var>, e: Evidence)
    requires ReadsParents(P)
    requires Canon(q) == q && q !in e && Before(a, q)
    ensures SumOver(Options(q), SetTerm(P, a + [q] + b, q, e)) == EnumerationAll(P, a + [q] + b, e)
    decreases |a|
  {
    if a == [] {
      assert a + [q] + b == [q] + b;
      MarginalizeHead(P, q, b, e);
    } else {
      var h := a[0];
      var n' := a[1..] + [q] + b;
      assert a + [q] + b == [h] + n';
      assert h in a;
      assert Before(a[1..], q) by {
        forall v | v in a[1..]
          ensures Canon(v) == v && v != q && q !in CptParents(v)
        {
          assert v in a;
        }
      }
      IgnoresQ(P, h, q, e);
      if h in e {
        Marginalize(P, a[1..], q, b, e);
        MarginalizeObserved(P, h, n', q, e);
      } else {
        forall y | y in Options(h)
          ensures SumOver(Options(q), SetTerm(P, n', q, e[h := y])) == EnumerationAll(P, n', e[h := y])
        {
          Marginalize(P, a[1..], q, b, e[h := y]);
        }
        MarginalizeUnobserved(P, h, n', q, e);
      }
    }
  }

  /** h's factors do not change when q, which is not one of h's parents, is set. */
  ghost predicate IndependentOf(P: FactorFn, h: Var, q: Var, e: Evidence) {
    forall x, v {:trigger P(h, e[q := x], v)} :: P(h, e[q := x], v) == P(h, e, v)
  }

  lemma IgnoresQ(P: FactorFn, h: Var, q: Var, e: Evidence)
    requires ReadsParents(P) && q !in CptParents(h)
    ensures IndependentOf(P, h, q, e)
  {
    forall x, v {:trigger P(h, e[q := x], v)}
      ensures P(h, e[q := x], v) == P(h, e, v)
    {
      assert AgreeOn(e[q := x], e, CptParents(h));
    }
  }

  /** EnumerationAll with an observed head: its factor times the rest. */
  lemma ObservedHead(P: FactorFn, h: Var, rest: seq<Var>, e: Evidence)
    requires Canon(h) == h && h in e
    ensures EnumerationAll(P, [h] + rest, e) == P(h, e, e[h]) * EnumerationAll(P, rest, e)
  {
    assert ([h] + rest)[0] == h && ([h] + rest)[1..] == rest;
  }

  /** Each term of f over o is c times the term of g. */
  ghost predicate ScaledBy(o: seq<Val>, f: Val -> real, g: Val -> real, c: real) {
    forall x :: x in o ==> f(x) == c * g(x)
  }

  /** A sum whose terms are c times another's is c times that sum. */
  lemma ScaleChain(o: seq<Val>, f: Val -> real, g: Val -> real, c: real, r: real, s: real)
    requires ScaledBy(o, f, g, c)
    requires SumOver(o, g) == r && s == c * r
    ensures SumOver(o, f) == s
  {
    SumOverScale(o, g, f, c);
  }

  /** Marginalization past an observed head: its factor comes out of the sum. */
  lemma MarginalizeObserved(P: FactorFn, h: Var, rest: seq<Var>, q: Var, e: Evidence)
    requires IndependentOf(P, h, q, e)
    requires Canon(q) == q && q !in e
    requires Canon(h) == h && h in e && h != q
    requires SumOver(Options(q), SetTerm(P, rest, q, e)) == EnumerationAll(P, rest, e)
    ensures SumOver(Options(q), SetTerm(P, [h] + rest, q, e)) == EnumerationAll(P, [h] + rest, e)
  {
    ObservedSetAll(P, h, rest, q, e);
    ObservedFactorOut(P, h, rest, q, e, Options(q));
  }

  /** Taking the observed head's factor out of a sum over values o of q. */
  lemma ObservedFactorOut(P: FactorFn, h: Var, rest: seq<Var>, q: Var, e: Evidence, o: seq<Val>)
    requires Canon(h) == h && h in e
    requires ScaledBy(o, SetTerm(P, [h] + rest, q, e), SetTerm(P, rest, q, e), P(h, e, e[h]))
    requires SumOver(o, SetTerm(P, rest, q, e)) == EnumerationAll(P, rest, e)
    ensures SumOver(o, SetTerm(P, [h] + rest, q, e)) == EnumerationAll(P, [h] + rest, e)
  {
    ObservedHead(P, h, rest, e);
    ScaleChain(o, SetTerm(P, [h] + rest, q, e), SetTerm(P, rest, q, e), P(h, e, e[h]),
      EnumerationAll(P, rest, e), EnumerationAll(P, [h] + rest, e));
  }

  /** ObservedSet for every value of q. */
  lemma ObservedSetAll(P: FactorFn, h: Var, rest: seq<Var>, q: Var, e: Evidence)
    requires IndependentOf(P, h, q, e)
    requires Canon(h) == h && h in e && h != q
    ensures ScaledBy(Options(q), SetTerm(P, [h] + rest, q, e), SetTerm(P, rest, q, e), P(h, e, e[h]))
  {
    forall x | x in Options(q)
      ensures SetTerm(P, [h] + rest, q, e)(x) == P(h, e, e[h]) * SetTerm(P, rest, q, e)(x)
    {
      ObservedSet(P, h, rest, q, e, x);
    }
  }

  /** With q set to x, the observed head still contributes its factor. */
  lemma ObservedSet(P: FactorFn, h: Var, rest: seq<Var>, q: Var, e: Evidence, x: Val)
    requires IndependentOf(P, h, q, e)
    requires Canon(h) == h && h in e && h != q
    ensures SetTerm(P, [h] + rest, q, e)(x) == P(h, e, e[h]) * SetTerm(P, rest, q, e)(x)
  {
    ObservedHead(P, h, rest, e[q := x]);
    assert P(h, e[q := x], e[h]) == P(h, e, e[h]);
  }

  /** The term of the double sum for q = x and h = y. */
  function Term(P: FactorFn, h: Var, q: Var, n: seq<Var>, e: Evidence): (Val, Val) -> real {
    (x, y) => P(h, e, y) * EnumerationAll(P, n, e[h := y][q := x])
  }

  /** Two sums that are the same double sum taken in the two orders are equal. */
  lemma SwapChain(oq: seq<Val>, oh: seq<Val>, f: Val -> real, g: (Val, Val) -> real, k: Val -> real)
    requires forall x :: x in oq ==> f(x) == Row(oh, g)(x)
    requires forall y :: y in oh ==> Column(oq, g)(y) == k(y)
    ensures SumOver(oq, f) == SumOver(oh, k)
  {
    SumOverSame(oq, f, Row(oh, g));
    SumOverSwap(oq, oh, g);
    SumOverSame(oh, Column(oq, g), k);
  }

  /**
   * Marginalization past an unobserved head h: the sums over h and over q
   * are swapped, and q is marginalized under each value of h.
   */
  lemma MarginalizeUnobserved(P: FactorFn, h: Var, rest: seq<Var>, q: Var, e: Evidence)
    requires IndependentOf(P, h, q, e)
    requires Canon(q) == q && q !in e
    requires Canon(h) == h && h !in e && h != q
    requires forall y :: y in Options(h) ==>
      SumOver(Options(q), SetTerm(P, rest, q, e[h := y])) == EnumerationAll(P, rest, e[h := y])
    ensures SumOver(Options(q), SetTerm(P, [h] + rest, q, e)) == EnumerationAll(P, [h] + rest, e)
  {
    var g := Term(P, h, q, rest, e);
    forall x | x in Options(q)
      ensures SetTerm(P, [h] + rest, q, e)(x) == Row(Options(h), g)(x)
    {
      SetBoth(P, h, rest, q, e, x);
    }
    forall y | y in Options(h)
      ensures Column(Options(q), g)(y) == HeadTerm(P, h, rest, e)(y)
    {
      ColumnMarginal(P, h, rest, q, e, y, Options(q));
    }
    SwapChain(Options(q), Options(h), SetTerm(P, [h] + rest, q, e), g, HeadTerm(P, h, rest, e));
    UnobservedHead(P, h, rest, e);
  }

  /**
   * One column of the swapped double sum, over values o of q: h's factor
   * times the marginal with h set to y.
   */
  lemma ColumnMarginal(P: FactorFn, h: Var, rest: seq<Var>, q: Var, e: Evidence, y: Val, o: seq<Val>)
    requires SumOver(o, SetTerm(P, rest, q, e[h := y])) == EnumerationAll(P, rest, e[h := y])
    ensures Column(o, Term(P, h, q, rest, e))(y) == HeadTerm(P, h, rest, e)(y)
  {
    FlipAllScaled(P, h, rest, q, e, y, o);
    HeadTermAt(P, h, rest, e, y);
    ColumnChain(o, Term(P, h, q, rest, e), y, SetTerm(P, rest, q, e[h := y]), P(h, e, y),
      EnumerationAll(P, rest, e[h := y]), HeadTerm(P, h, rest, e)(y));
  }

  /** Every entry of a column: h's factor for y times the entry of the marginal with h set to y. */
  lemma FlipAllScaled(P: FactorFn, h: Var, rest: seq<Var>, q: Var, e: Evidence, y: Val, o: seq<Val>)
    ensures ScaledBy(o, Flip(Term(P, h, q, rest, e), y), SetTerm(P, rest, q, e[h := y]), P(h, e, y))
  {
    forall x | x in o
      ensures Flip(Term(P, h, q, rest, e), y)(x) == P(h, e, y) * SetTerm(P, rest, q, e[h := y])(x)
    {
      FlipScaled(P, h, rest, q, e, y, x);
    }
  }

  /** HeadTerm at y is h's factor for y times the enumeration with h set to y. */
  lemma HeadTermAt(P: FactorFn, h: Var, rest: seq<Var>, e: Evidence, y: Val)
    ensures HeadTerm(P, h, rest, e)(y) == P(h, e, y) * EnumerationAll(P, rest, e[h := y])
  {
  }

  /** One entry of a column: h's factor for y times the entry of the marginal with h set to y. */
  lemma FlipScaled(P: FactorFn, h: Var, rest: seq<Var>, q: Var, e: Evidence, y: Val, x: Val)
    ensures Flip(Term(P, h, q, rest, e), y)(x) == P(h, e, y) * SetTerm(P, rest, q, e[h := y])(x)
  {
    var j := EnumerationAll(P, rest, e[h := y][q := x]);
    assert Term(P, h, q, rest, e)(x, y) == P(h, e, y) * j;
    assert SetTerm(P, rest, q, e[h := y])(x) == j;
  }

  /** A column whose entries are c times another sum's terms is c times that sum. */
  lemma ColumnChain(o: seq<Val>, g: (Val, Val) -> real, y: Val, f: Val -> real, c: real, r: real, s: real)
    requires ScaledBy(o, Flip(g, y), f, c)
    requires SumOver(o, f) == r && s == c * r
    ensures Column(o, g)(y) == s
  {
    ScaleChain(o, Flip(g, y), f, c, r, s);
  }

  /**
   * With q set to x, the unobserved head h sums over its domain as before,
   * its factors unchanged since q is not one of its parents.
   */
  lemma SetBoth(P: FactorFn, h: Var, rest: seq<Var>, q: Var, e: Evidence, x: Val)
    requires IndependentOf(P, h, q, e)
    requires Canon(h) == h && h != q && h !in e
    ensures SetTerm(P, [h] + rest, q, e)(x) == Row(Options(h), Term(P, h, q, rest, e))(x)
  {
    var e' := e[q := x];
    UnobservedHead(P, h, rest, e');
    forall y | y in Options(h)
      ensures HeadTerm(P, h, rest, e')(y) == Slice(Term(P, h, q, rest, e), x)(y)
    {
      SetBothAt(P, h, rest, q, e, x, y);
    }
    SumOverSame(Options(h), HeadTerm(P, h, rest, e'), Slice(Term(P, h, q, rest, e), x));
  }

  /** SetBoth for one value y of the head. */
  lemma SetBothAt(P: FactorFn, h: Var, rest: seq<Var>, q: Var, e: Evidence, x: Val, y: Val)
    requires IndependentOf(P, h, q, e) && h != q
    ensures HeadTerm(P, h, rest, e[q := x])(y) == Slice(Term(P, h, q, rest, e), x)(y)
  {
    var e' := e[q := x];
    assert P(h, e', y) == P(h, e, y);
    assert e'[h := y] == e[h := y][q := x];
    SameProduct(P(h, e', y), EnumerationAll(P, rest, e'[h := y]), P(h, e, y), EnumerationAll(P, rest, e[h := y][q := x]));
  }

  /** Equal factors give equal products. */
  lemma SameProduct(a: real, b: real, c: real, d: real)
    requires a == c && b == d
    ensures a * b == c * d
  {
  }
}
