/**
 * The two conditional-probability-table builders of utils.py. Every
 * `round(.., 5)` of the source is the identity on reals here.
 */
module CptBuilders {
  import opened Variables

  function Min(a: real, b: real): real {
    if a <= b then a else b
  }

  /**
   * CPTVertex: P(vertex = true | season) from the base parameter p, for the
   * low, medium and high seasons (p, 2p and 3p, capped at 1).
   */
  function CptVertex(p: real): (t: map<Level, real>)
    ensures t.Keys == {Low, Medium, High}
    ensures t[Low] == p
    ensures t[Medium] == Min(1.0, 2.0 * p) && t[High] == Min(1.0, 3.0 * p)
    ensures t[Medium] <= 1.0 && t[High] <= 1.0
    ensures 0.0 <= p ==> t[Medium] <= t[High]
    ensures 0.0 <= p <= 1.0 ==> t[Low] <= t[Medium]
    ensures 0.0 <= p <= 1.0 ==> forall l :: l in t ==> 0.0 <= t[l] <= 1.0
  {
    map[Low := p, Medium := Min(1.0, p * 2.0), High := Min(1.0, p * 3.0)]
  }

  /** The four combinations of the two endpoint values. */
  const EndpointPairs: set<(bool, bool)> := {(false, false), (true, false), (false, true), (true, true)}

  /**
   * CPTEdge: P(edge blocked | endpoint values) from the probability qi that
   * one true endpoint leaves the edge open, and the leakage.
   */
  function CptEdge(qi: real, leakage: real): (t: map<(bool, bool), real>)
    ensures t.Keys == EndpointPairs
    ensures t[(false, false)] == leakage
    ensures forall a, b :: t[(a, b)] == t[(b, a)]
    ensures t[(true, false)] == 1.0 - qi
    ensures t[(true, true)] == 1.0 - qi * qi
    ensures 0.0 <= qi <= 1.0 ==> t[(true, false)] <= t[(true, true)] && 0.0 <= t[(true, true)] <= 1.0
    ensures 0.0 <= qi <= 1.0 && 0.0 <= leakage <= 1.0 ==> forall k :: k in t ==> 0.0 <= t[k] <= 1.0
  {
    var t := map[(false, false) := leakage,
                 (true, false) := 1.0 - qi,
                 (false, true) := 1.0 - qi,
                 (true, true) := 1.0 - qi * qi];
    assert 0.0 <= qi <= 1.0 ==> qi * qi <= qi by {
      if 0.0 <= qi <= 1.0 {
        assert qi * qi <= qi * 1.0;
      }
    }
    assert forall k :: k in EndpointPairs ==> k in t;
    t
  }
}
