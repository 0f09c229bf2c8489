/**
 * The network's own factor (Probability over its tables, bayes_network.py:290-305)
 * as an instance of the factor EnumerationAll multiplies in, and the facts
 * the enumeration lemmas ask of it.
 */
module NetworkFactor {
  import opened Variables
  import opened CptModel
  import opened Enumeration

  /** The factor of the network described by the tables. */
  function NetFactor(t: Tables): FactorFn {
    (y: Var, e: Evidence, x: Val) => Factor(t, y, e, x)
  }

  /** The network's factor reads the evidence only at the variable's parents. */
  lemma NetFactorReadsParents(t: Tables)
    ensures ReadsParents(NetFactor(t))
  {
    forall y, e1, e2, x | AgreeOn(e1, e2, CptParents(y))
      ensures NetFactor(t)(y, e1, x) == NetFactor(t)(y, e2, x)
    {
      FactorReadsParents(t, y, e1, e2, x);
    }
  }

  /**
   * Once a variable's parents are observed with well-typed values, its
   * factors over its domain add up to its mass: 1 for a vertex or an edge,
   * the prior's total for the season.
   */
  lemma NetFactorMass(t: Tables, y: Var)
    requires WellFormed(t) && InTables(t, y)
    ensures HasMass(NetFactor(t), y, Mass(t, y))
  {
    forall e | WellTyped(e) && CptParents(y) <= e.Keys
      ensures Sum(Factors(NetFactor(t), y, e)) == Mass(t, y)
    {
      FactorsAddUp(t, y, e);
    }
  }

  lemma FactorsAddUp(t: Tables, y: Var, e: Evidence)
    requires WellFormed(t) && InTables(t, y)
    requires WellTyped(e) && CptParents(y) <= e.Keys
    ensures Sum(Factors(NetFactor(t), y, e)) == Mass(t, y)
  {
    var p := Factors(NetFactor(t), y, e);
    if y.Season? {
      LookupSucceeds(t, y, e, Level(Low));
      ProbabilityComplement(t, y, e);
      SumThree(p);
    } else {
      LookupSucceeds(t, y, e, Bool(true));
      ProbabilityComplement(t, y, e);
      SumTwo(p);
    }
  }

  /** With calibrated tables, factors are probabilities and each variable's add up to at most 1. */
  lemma NetFactorSubStochastic(t: Tables)
    requires WellFormed(t) && Calibrated(t)
    ensures SubStochastic(NetFactor(t))
  {
    forall y, e, x
      ensures 0.0 <= NetFactor(t)(y, e, x) <= 1.0
    {
      FactorBounds(t, y, e, x);
    }
    forall y, e
      ensures Sum(Factors(NetFactor(t), y, e)) <= 1.0
    {
      FactorsAtMostOne(t, y, e);
    }
  }

  lemma FactorsAtMostOne(t: Tables, y: Var, e: Evidence)
    requires WellFormed(t) && Calibrated(t)
    ensures Sum(Factors(NetFactor(t), y, e)) <= 1.0
  {
    var p := Factors(NetFactor(t), y, e);
    if y.Season? {
      ProbabilityComplement(t, y, e);
      SumThree(p);
    } else {
      if CanLookup(t, y, e, Bool(true)) {
        ProbabilityComplement(t, y, e);
      }
      SumTwo(p);
    }
  }

  lemma SumThree(p: seq<real>)
    requires |p| == 3
    ensures Sum(p) == p[0] + p[1] + p[2]
  {
    assert p[1..][1..] == p[2..] && p[2..][1..] == [];
    assert Sum(p[2..]) == p[2];
    assert Sum(p[1..]) == p[1] + p[2];
  }

  lemma SumTwo(p: seq<real>)
    requires |p| == 2
    ensures Sum(p) == p[0] + p[1]
  {
    assert p[1..][1..] == [];
    assert Sum(p[1..]) == p[1];
  }

  /**
   * Every table lookup EnumerationAll makes on the list succeeds, so the
   * source raises no KeyError and every factor is a Probability.
   */
  predicate NoKeyError(t: Tables, nodes: seq<Var>, e: Evidence)
    decreases |nodes|
  {
    if nodes == [] then true
    else
      var y := Canon(nodes[0]);
      if y in e then CanLookup(t, y, e, e[y]) && NoKeyError(t, nodes[1..], e)
      else forall i :: 0 <= i < |Options(y)| ==>
        CanLookup(t, y, e, Options(y)[i]) && NoKeyError(t, nodes[1..], e[y := Options(y)[i]])
  }

  /** Each listed variable's parents are observed or listed before it. */
  predicate Closed(nodes: seq<Var>, keys: set<Var>)
    decreases |nodes|
  {
    nodes == [] || (CptParents(nodes[0]) <= keys && Closed(nodes[1..], keys + {nodes[0]}))
  }

  /** Every listed variable is a variable of the network. */
  predicate AllInTables(t: Tables, nodes: seq<Var>) {
    forall v :: v in nodes ==> InTables(t, v)
  }

  /**
   * A list of network variables whose parents are each observed or listed
   * earlier evaluates without a KeyError under well-typed evidence.
   */
  lemma {:induction false} ClosedNoKeyError(t: Tables, nodes: seq<Var>, e: Evidence)
    requires WellFormed(t) && WellTyped(e) && AllInTables(t, nodes)
    requires Closed(nodes, e.Keys)
    ensures NoKeyError(t, nodes, e)
    decreases |nodes|
  {
    if nodes != [] {
      var y := nodes[0];
      NetworkVarIsCanonical(t, y);
      ParentsAssignedSpec(y, e);
      if y in e {
        assert e.Keys + {y} == e.Keys;
        LookupSucceeds(t, y, e, e[y]);
        ClosedNoKeyError(t, nodes[1..], e);
      } else {
        var o := Options(y);
        forall i | 0 <= i < |o|
          ensures CanLookup(t, y, e, o[i]) && NoKeyError(t, nodes[1..], e[y := o[i]])
        {
          assert o[i] in o;
          OptionsSpec(y);
          LookupSucceeds(t, y, e, o[i]);
          WellTypedUpdate(e, y, o[i]);
          assert e[y := o[i]].Keys == e.Keys + {y};
          ClosedNoKeyError(t, nodes[1..], e[y := o[i]]);
        }
      }
    }
  }

  /**
   * Whether a KeyError is raised depends on the evidence only at the listed
   * variables and their parents.
   */
  lemma {:induction false} NoKeyErrorFrame(t: Tables, nodes: seq<Var>, e1: Evidence, e2: Evidence)
    requires AgreeOn(e1, e2, Reads(nodes))
    ensures NoKeyError(t, nodes, e1) == NoKeyError(t, nodes, e2)
    decreases |nodes|
  {
    if nodes != [] {
      var y := Canon(nodes[0]);
      var tail := nodes[1..];
      assert Reads(nodes) == {y} + CptParents(y) + Reads(tail);
      if y in e1 {
        ProbabilityReadsParents(t, y, e1, e2, e1[y]);
        NoKeyErrorFrame(t, tail, e1, e2);
      } else {
        var o := Options(y);
        forall i | 0 <= i < |o|
          ensures CanLookup(t, y, e1, o[i]) == CanLookup(t, y, e2, o[i])
          ensures NoKeyError(t, tail, e1[y := o[i]]) == NoKeyError(t, tail, e2[y := o[i]])
        {
          ProbabilityReadsParents(t, y, e1, e2, o[i]);
          NoKeyErrorFrame(t, tail, e1[y := o[i]], e2[y := o[i]]);
        }
      }
    }
  }
}
