/**
 * Normalize (bayes_network.py:336-349): rescaling a distribution, held as
 * an insertion-ordered dictionary from values to weights, so that its
 * weights add up to 1.
 */
module Normalization {
  import opened Variables

  /** A dictionary from values to weights, in insertion order. */
  type Dist = seq<(Val, real)>

  /** `sum(queryDict.values())`. */
  function Total(d: Dist): real {
    if d == [] then 0.0 else d[0].1 + Total(d[1..])
  }

  /** Every weight divided by s, keys and order kept. */
  function Divide(d: Dist, s: real): (r: Dist)
    requires s != 0.0
    ensures |r| == |d| && forall i :: 0 <= i < |d| ==> r[i].0 == d[i].0
  {
    if d == [] then [] else [(d[0].0, d[0].1 / s)] + Divide(d[1..], s)
  }

  /** Every weight multiplied by c, keys and order kept. */
  function Scale(d: Dist, c: real): (r: Dist)
    ensures |r| == |d| && forall i :: 0 <= i < |d| ==> r[i].0 == d[i].0
  {
    if d == [] then [] else [(d[0].0, c * d[0].1)] + Scale(d[1..], c)
  }

  lemma {:induction false} DivideAt(d: Dist, s: real, i: int)
    requires s != 0.0 && 0 <= i < |d|
    ensures Divide(d, s)[i].1 == d[i].1 / s
    decreases |d|
  {
    if i > 0 {
      DivideAt(d[1..], s, i - 1);
      assert Divide(d, s)[i] == Divide(d[1..], s)[i - 1];
    }
  }

  lemma {:induction false} ScaleAt(d: Dist, c: real, i: int)
    requires 0 <= i < |d|
    ensures Scale(d, c)[i].1 == c * d[i].1
    decreases |d|
  {
    if i > 0 {
      ScaleAt(d[1..], c, i - 1);
      assert Scale(d, c)[i] == Scale(d[1..], c)[i - 1];
    }
  }

  /**
   * Normalize: the dictionary itself when its weights add up to 0, and
   * otherwise every weight divided by their total.
   */
  function Normalize(d: Dist): (r: Dist)
    ensures |r| == |d| && forall i :: 0 <= i < |d| ==> r[i].0 == d[i].0
    ensures Total(d) == 0.0 ==> r == d
  {
    var s := Total(d);
    if s == 0.0 then d else Divide(d, s)
  }

  lemma {:induction false} TotalDivide(d: Dist, s: real)
    requires s != 0.0
    ensures Total(Divide(d, s)) == Total(d) / s
    decreases |d|
  {
    if d != [] {
      TotalDivide(d[1..], s);
      assert Divide(d, s)[1..] == Divide(d[1..], s);
      assert d[0].1 / s + Total(d[1..]) / s == (d[0].1 + Total(d[1..])) / s;
    }
  }

  lemma {:induction false} TotalScale(d: Dist, c: real)
    ensures Total(Scale(d, c)) == c * Total(d)
    decreases |d|
  {
    if d != [] {
      TotalScale(d[1..], c);
      assert Scale(d, c)[1..] == Scale(d[1..], c);
      assert Total(Scale(d, c)) == c * d[0].1 + c * Total(d[1..]);
    }
  }

  /** A distribution with a nonzero total normalizes to weights adding up to 1. */
  lemma NormalizeSumsToOne(d: Dist)
    requires Total(d) != 0.0
    ensures Total(Normalize(d)) == 1.0
  {
    var s := Total(d);
    TotalDivide(d, s);
    assert s / s == 1.0;
  }

  /** Weights that are all nonnegative with a nonzero total normalize into [0, 1]. */
  lemma NormalizeBounds(d: Dist)
    requires forall i :: 0 <= i < |d| ==> 0.0 <= d[i].1
    ensures forall i :: 0 <= i < |d| ==> 0.0 <= Normalize(d)[i].1
    ensures Total(d) != 0.0 ==> forall i :: 0 <= i < |d| ==> Normalize(d)[i].1 <= 1.0
  {
    var s := Total(d);
    if s != 0.0 {
      forall i | 0 <= i < |d|
        ensures 0.0 <= d[i].1 <= s
      {
        WeightBelowTotal(d, i);
      }
      forall i | 0 <= i < |d|
        ensures 0.0 <= Normalize(d)[i].1 <= 1.0
      {
        DivideAt(d, s, i);
        DivideUnit(d[i].1, s);
      }
    }
  }

  lemma DivideUnit(a: real, s: real)
    requires 0.0 <= a <= s && s != 0.0
    ensures 0.0 <= a / s <= 1.0
  {
  }

  /** In a list of nonnegative weights each weight is at most the total. */
  lemma {:induction false} WeightBelowTotal(d: Dist, i: int)
    requires forall j :: 0 <= j < |d| ==> 0.0 <= d[j].1
    requires 0 <= i < |d|
    ensures d[i].1 <= Total(d) && 0.0 <= Total(d)
    decreases |d|
  {
    if i == 0 {
      TotalNonnegative(d[1..]);
    } else {
      WeightBelowTotal(d[1..], i - 1);
    }
  }

  lemma {:induction false} TotalNonnegative(d: Dist)
    requires forall j :: 0 <= j < |d| ==> 0.0 <= d[j].1
    ensures 0.0 <= Total(d)
    decreases |d|
  {
    if d != [] {
      TotalNonnegative(d[1..]);
    }
  }

  /**
   * Normalizing forgets a common nonzero factor: weights that are c times
   * another list's normalize to the same distribution.
   */
  lemma NormalizeScaleInvariant(d: Dist, c: real)
    requires c != 0.0 && Total(d) != 0.0
    ensures Normalize(Scale(d, c)) == Normalize(d)
  {
    ScaledTotal(d, c);
    DivideScaled(d, c, Total(d), Total(Scale(d, c)));
  }

  /** The total of the scaled weights is the scaled total, nonzero with it. */
  lemma ScaledTotal(d: Dist, c: real)
    requires c != 0.0 && Total(d) != 0.0
    ensures Total(Scale(d, c)) == c * Total(d) && Total(Scale(d, c)) != 0.0
  {
    TotalScale(d, c);
    NonzeroProduct(c, Total(d));
  }

  lemma NonzeroProduct(c: real, s: real)
    requires c != 0.0 && s != 0.0
    ensures c * s != 0.0
  {
  }

  /** Dividing c-times weights by c times s is dividing the weights by s. */
  lemma {:induction false} DivideScaled(d: Dist, c: real, s: real, t: real)
    requires c != 0.0 && s != 0.0 && t != 0.0 && t == c * s
    ensures Divide(Scale(d, c), t) == Divide(d, s)
    decreases |d|
  {
    if d != [] {
      DivideScaled(d[1..], c, s, t);
      Cancel(d[0].1, c, s, t, c * d[0].1);
      assert Scale(d, c)[1..] == Scale(d[1..], c);
    }
  }

  lemma Cancel(a: real, c: real, s: real, t: real, x: real)
    requires c != 0.0 && s != 0.0 && t == c * s && x == c * a
    ensures x / t == a / s
  {
  }

  /** Normalizing twice is normalizing once. */
  lemma NormalizeIdempotent(d: Dist)
    ensures Normalize(Normalize(d)) == Normalize(d)
  {
    if Total(d) != 0.0 {
      NormalizeSumsToOne(d);
      var n := Normalize(d);
      forall i | 0 <= i < |n|
        ensures Normalize(n)[i] == n[i]
      {
        DivideAt(n, 1.0, i);
      }
    }
  }
}
