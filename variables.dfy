/**
 * The random variables of the three-layer network, their value domains and
 * the evidence map (bayes_network.py).
 */
module Variables {

  /** The three values of the season variable ('low', 'medium', 'high'). */
  datatype Level = Low | Medium | High

  /** A value a variable can take: a season level or a boolean. */
  datatype Val = Level(level: Level) | Bool(b: bool)

  /** A grid vertex coordinate (x, y). */
  type Coord = (int, int)

  /**
   * A network variable: the season root, a grid vertex, or a fragment edge
   * between two vertices.
   */
  datatype Var = Season | Vertex(c: Coord) | Edge(a: Coord, b: Coord)

  /** Observed values, keyed by variable. */
  type Evidence = map<Var, Val>

  /** Python's tuple ordering on coordinates. */
  predicate CoordLe(p: Coord, q: Coord) {
    p.0 < q.0 || (p.0 == q.0 && p.1 <= q.1)
  }

  /** An edge stored with its endpoints in sorted order; every other variable. */
  predicate IsCanonical(v: Var) {
    !v.Edge? || CoordLe(v.a, v.b)
  }

  /**
   * `tuple(sorted(q))` applied to edge tuples; vertices and the season pass
   * through untouched.
   */
  function Canon(v: Var): Var {
    match v
    case Edge(a, b) => if CoordLe(a, b) then v else Edge(b, a)
    case _ => v
  }

  /**
   * Canon yields a canonical variable of the same kind over the same
   * endpoints, and leaves canonical variables alone.
   */
  lemma CanonSpec(v: Var)
    ensures IsCanonical(Canon(v))
    ensures v.Edge? <==> Canon(v).Edge?
    ensures !v.Edge? ==> Canon(v) == v
    ensures v.Edge? ==> {Canon(v).a, Canon(v).b} == {v.a, v.b}
    ensures IsCanonical(v) <==> Canon(v) == v
  {
  }

  /** An edge and its reversal have the same canonical form. */
  lemma CanonFlip(a: Coord, b: Coord)
    ensures Canon(Edge(a, b)) == Canon(Edge(b, a))
  {
    if a != b {
      assert CoordLe(a, b) != CoordLe(b, a);
    }
  }

  /**
   * The domain enumerated for a variable: the three levels for the season,
   * True then False otherwise.
   */
  function Options(v: Var): seq<Val> {
    if v.Season? then [Level(Low), Level(Medium), Level(High)] else [Bool(true), Bool(false)]
  }

  /** The kind of value a variable takes: a level for the season, a boolean otherwise. */
  predicate InDomain(v: Var, x: Val) {
    if v.Season? then x.Level? else x.Bool?
  }

  /** Options lists the variable's whole domain, each value once. */
  lemma OptionsSpec(v: Var)
    ensures forall x :: x in Options(v) <==> InDomain(v, x)
    ensures forall i, j :: 0 <= i < j < |Options(v)| ==> Options(v)[i] != Options(v)[j]
  {
    ThreeLevels();
  }

  /** A season value is one of the three levels. */
  lemma ThreeLevels()
    ensures forall x: Val :: x.Level? ==> x == Level(Low) || x == Level(Medium) || x == Level(High)
  {
    forall x: Val | x.Level?
      ensures x == Level(Low) || x == Level(Medium) || x == Level(High)
    {
      match x.level {
        case Low =>
        case Medium =>
        case High =>
      }
    }
  }

  /** The variables whose observed values a variable's table is conditioned on. */
  function CptParents(v: Var): set<Var> {
    match v
    case Season => {}
    case Vertex(_) => {Season}
    case Edge(a, b) => {Vertex(a), Vertex(b)}
  }

  /** Every observed value lies in its variable's domain. */
  predicate WellTyped(e: Evidence) {
    forall k :: k in e ==> InDomain(k, e[k])
  }

  /** Setting a variable to a value of its domain keeps the evidence well typed. */
  lemma WellTypedUpdate(e: Evidence, k: Var, x: Val)
    requires WellTyped(e) && x in Options(k)
    ensures WellTyped(e[k := x])
  {
    OptionsSpec(k);
  }
}
