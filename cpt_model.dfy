/**
 * The conditional probability tables held by a network and the lookups
 * VarCPT, Parent and Probability (bayes_network.py:290-334).
 */
module CptModel {
  import opened Variables

  /**
   * The three tables handed to the network constructor: the season prior,
   * P(vertex = true | season) per vertex, and P(edge = true | endpoints) per
   * fragment edge (keyed by its two endpoint coordinates).
   */
  datatype Tables = Tables(
    season: map<Level, real>,
    vertexCpt: map<Coord, map<Level, real>>,
    edgeCpt: map<(Coord, Coord), map<(bool, bool), real>>)

  /** The table VarCPT returns for each kind of variable. */
  datatype Cpt =
    | SeasonTable(prior: map<Level, real>)
    | VertexTable(bySeason: map<Level, real>)
    | EdgeTable(byEnds: map<(bool, bool), real>)

  /** The conditioning key Parent builds from the evidence. */
  datatype ParentKey = NoParent | SeasonIs(season: Val) | Endpoints(a: Val, b: Val)

  /** A variable of the network described by the tables. */
  predicate InTables(t: Tables, v: Var) {
    match v
    case Season => true
    case Vertex(c) => c in t.vertexCpt
    case Edge(a, b) => (a, b) in t.edgeCpt
  }

  predicate HasAllLevels(m: map<Level, real>) {
    Low in m && Medium in m && High in m
  }

  predicate HasAllPairs(m: map<(bool, bool), real>) {
    (false, false) in m && (true, false) in m && (false, true) in m && (true, true) in m
  }

  /**
   * What every lookup of the source relies on: complete tables, fragment
   * edges stored in sorted order, and both endpoints of each fragment edge
   * being vertices of the network.
   */
  predicate WellFormed(t: Tables) {
    && HasAllLevels(t.season)
    && (forall c :: c in t.vertexCpt ==> HasAllLevels(t.vertexCpt[c]))
    && (forall k :: k in t.edgeCpt ==> HasAllPairs(t.edgeCpt[k]))
    && (forall k :: k in t.edgeCpt ==> CoordLe(k.0, k.1) && k.0 in t.vertexCpt && k.1 in t.vertexCpt)
  }

  /** Probabilities in [0, 1] and a season prior that sums to 1. */
  predicate Calibrated(t: Tables)
    requires WellFormed(t)
  {
    && (forall l :: l in t.season ==> 0.0 <= t.season[l])
    && t.season[Low] + t.season[Medium] + t.season[High] == 1.0
    && (forall c, l :: c in t.vertexCpt && l in t.vertexCpt[c] ==> 0.0 <= t.vertexCpt[c][l] <= 1.0)
    && (forall k, p :: k in t.edgeCpt && p in t.edgeCpt[k] ==> 0.0 <= t.edgeCpt[k][p] <= 1.0)
  }

  /**
   * The parents of a variable all have an observed value (Parent reads them
   * with `e[...]`, which raises KeyError otherwise).
   */
  predicate ParentsAssigned(v: Var, e: Evidence) {
    match v
    case Season => true
    case Vertex(_) => Season in e
    case Edge(a, b) => Vertex(a) in e && Vertex(b) in e
  }

  lemma ParentsAssignedSpec(v: Var, e: Evidence)
    ensures ParentsAssigned(v, e) <==> CptParents(v) <= e.Keys
  {
  }

  lemma NetworkVarIsCanonical(t: Tables, v: Var)
    requires WellFormed(t) && InTables(t, v)
    ensures IsCanonical(v) && Canon(v) == v
  {
  }

  /** VarCPT: the table of a variable, chosen by its kind. */
  function VarCpt(t: Tables, v: Var): Cpt
    requires InTables(t, v)
  {
    match v
    case Season => SeasonTable(t.season)
    case Vertex(c) => VertexTable(t.vertexCpt[c])
    case Edge(a, b) => EdgeTable(t.edgeCpt[(a, b)])
  }

  /**
   * Parent: 0 for the season, the observed season for a vertex, and the
   * observed values of the two endpoints, in stored order, for an edge.
   */
  function Parent(v: Var, e: Evidence): (k: ParentKey)
    requires ParentsAssigned(v, e)
    ensures v.Season? <==> k.NoParent?
    ensures v.Vertex? ==> k == SeasonIs(e[Season])
    ensures v.Edge? ==> k == Endpoints(e[Vertex(v.a)], e[Vertex(v.b)])
  {
    match v
    case Season => NoParent
    case Vertex(_) => SeasonIs(e[Season])
    case Edge(a, b) => Endpoints(e[Vertex(a)], e[Vertex(b)])
  }

  /** The key is one the table defines: `table[key]` raises no KeyError. */
  predicate Covers(c: Cpt, k: ParentKey) {
    match c
    case SeasonTable(_) => k.NoParent?
    case VertexTable(m) => k.SeasonIs? && k.season.Level? && k.season.level in m
    case EdgeTable(m) => k.Endpoints? && k.a.Bool? && k.b.Bool? && (k.a.b, k.b.b) in m
  }

  /**
   * `Probability(y, e, x)` looks up its entry without a KeyError: y is a
   * variable of the network, x is a key of the season prior for the season,
   * and otherwise the parents are observed with values the table is keyed by.
   */
  predicate CanLookup(t: Tables, y: Var, e: Evidence, x: Val) {
    && InTables(t, y)
    && (if y.Season? then x.Level? && x.level in t.season
        else ParentsAssigned(y, e) && Covers(VarCpt(t, y), Parent(y, e)))
  }

  /**
   * In a well-formed network every lookup of a variable whose parents are
   * observed with well-typed values, for a value of its domain, succeeds
   * (no KeyError in `VarCPT(y)[Parent(y, e)]`).
   */
  lemma {:induction false} LookupSucceeds(t: Tables, v: Var, e: Evidence, x: Val)
    requires WellFormed(t) && InTables(t, v)
    requires WellTyped(e) && CptParents(v) <= e.Keys && InDomain(v, x)
    ensures CanLookup(t, v, e, x)
  {
    ParentsAssignedSpec(v, e);
    match v
    case Season =>
      match x.level {
        case Low =>
        case Medium =>
        case High =>
      }
    case Vertex(c) =>
      assert InDomain(Season, e[Season]);
      match e[Season].level {
        case Low =>
        case Medium =>
        case High =>
      }
    case Edge(a, b) =>
      assert InDomain(Vertex(a), e[Vertex(a)]);
      assert InDomain(Vertex(b), e[Vertex(b)]);
      var p := (e[Vertex(a)].b, e[Vertex(b)].b);
      assert p == (false, false) || p == (true, false) || p == (false, true) || p == (true, true);
  }

  /** The entry of a table under a key it defines. */
  function Lookup(c: Cpt, k: ParentKey): real
    requires Covers(c, k) && !c.SeasonTable?
  {
    match c
    case VertexTable(m) => m[k.season.level]
    case EdgeTable(m) => m[(k.a.b, k.b.b)]
  }

  /**
   * Probability: the prior of the value for the season; otherwise the table
   * entry under the parents' observed values when the value is truthy (every
   * value but False) and one minus it when it is False.
   */
  function Probability(t: Tables, y: Var, e: Evidence, x: Val): (r: real)
    requires CanLookup(t, y, e, x)
    ensures y.Season? ==> r == t.season[x.level]
    ensures !y.Season? && x != Bool(false) ==> r == Lookup(VarCpt(t, y), Parent(y, e))
    ensures !y.Season? && x == Bool(false) ==> r == 1.0 - Lookup(VarCpt(t, y), Parent(y, e))
  {
    if y.Season? then t.season[x.level]
    else
      var p := Lookup(VarCpt(t, y), Parent(y, e));
      if x == Bool(false) then 1.0 - p else p
  }

  /**
   * The factor the enumeration multiplies in for y = x: Probability where
   * its lookups succeed, and 0 where the source raises KeyError instead.
   */
  function Factor(t: Tables, y: Var, e: Evidence, x: Val): real {
    if CanLookup(t, y, e, x) then Probability(t, y, e, x) else 0.0
  }

  /**
   * The total mass of a variable's distribution: the sum of the season prior
   * for the season, 1 for every boolean variable.
   */
  function Mass(t: Tables, y: Var): real
    requires HasAllLevels(t.season)
  {
    if y.Season? then t.season[Low] + t.season[Medium] + t.season[High] else 1.0
  }

  /**
   * Over a variable's whole domain the probabilities add up to its mass: for
   * a vertex or an edge, P(True) + P(False) = 1 under the same parent key;
   * for the season, the prior's total, whatever the evidence.
   */
  lemma ProbabilityComplement(t: Tables, y: Var, e: Evidence)
    requires InTables(t, y) && HasAllLevels(t.season)
    requires !y.Season? ==> CanLookup(t, y, e, Bool(true))
    ensures y.Season? ==> && CanLookup(t, y, e, Level(Low)) && CanLookup(t, y, e, Level(Medium))
                          && CanLookup(t, y, e, Level(High))
                          && Probability(t, y, e, Level(Low)) + Probability(t, y, e, Level(Medium))
                             + Probability(t, y, e, Level(High)) == Mass(t, y)
    ensures !y.Season? ==> && CanLookup(t, y, e, Bool(false))
                           && Probability(t, y, e, Bool(true)) + Probability(t, y, e, Bool(false)) == Mass(t, y)
  {
  }

  /** The season's probability is its prior, whatever has been observed. */
  lemma SeasonIgnoresEvidence(t: Tables, e1: Evidence, e2: Evidence, x: Val)
    requires CanLookup(t, Season, e1, x)
    ensures CanLookup(t, Season, e2, x)
    ensures Probability(t, Season, e1, x) == Probability(t, Season, e2, x) == t.season[x.level]
  {
  }

  /** With calibrated tables every probability lies in [0, 1]. */
  lemma ProbabilityBounds(t: Tables, y: Var, e: Evidence, x: Val)
    requires WellFormed(t) && CanLookup(t, y, e, x)
    ensures Calibrated(t) ==> 0.0 <= Probability(t, y, e, x) <= 1.0
  {
    if Calibrated(t) && y.Season? {
      match x.level {
        case Low =>
        case Medium =>
        case High =>
      }
    }
  }

  /** Two evidence maps agree on a set of variables. */
  predicate AgreeOn(e1: Evidence, e2: Evidence, s: set<Var>) {
    forall k :: k in s ==> (k in e1 <==> k in e2) && (k in e1 ==> e1[k] == e2[k])
  }

  /** Probability reads the evidence only at the variable's parents. */
  lemma ProbabilityReadsParents(t: Tables, y: Var, e1: Evidence, e2: Evidence, x: Val)
    requires AgreeOn(e1, e2, CptParents(y))
    ensures CanLookup(t, y, e1, x) <==> CanLookup(t, y, e2, x)
    ensures CanLookup(t, y, e1, x) ==> Probability(t, y, e1, x) == Probability(t, y, e2, x)
  {
    match y
    case Season =>
    case Vertex(_) =>
      assert Season in CptParents(y);
    case Edge(a, b) =>
      assert Vertex(a) in CptParents(y) && Vertex(b) in CptParents(y);
  }

  /** The factor reads the evidence only at the variable's parents. */
  lemma FactorReadsParents(t: Tables, y: Var, e1: Evidence, e2: Evidence, x: Val)
    requires AgreeOn(e1, e2, CptParents(y))
    ensures Factor(t, y, e1, x) == Factor(t, y, e2, x)
  {
    ProbabilityReadsParents(t, y, e1, e2, x);
  }

  /** With calibrated tables every factor lies in [0, 1]. */
  lemma FactorBounds(t: Tables, y: Var, e: Evidence, x: Val)
    requires WellFormed(t) && Calibrated(t)
    ensures 0.0 <= Factor(t, y, e, x) <= 1.0
  {
    if CanLookup(t, y, e, x) {
      ProbabilityBounds(t, y, e, x);
    }
  }
}
