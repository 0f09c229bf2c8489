/**
 * What EnumerationAskSet (bayes_network.py:200-216) computes, by the chain
 * rule: the product of the answers, each query asked with the earlier ones
 * set to False, is the probability that every query is False given the
 * evidence. Probabilities are the full enumeration of the network,
 * EnumerationAll over a topological order of all its nodes.
 */
module ChainRule {
  import opened Variables
  import opened CptModel
  import opened NetworkGraph
  import opened Enumeration
  import opened Normalization
  import opened NetworkFactor
  import opened Inference
  import opened Marginalization

  /** The weight of the evidence in the whole network: P(e). */
  function Joint(t: Tables, order: seq<Var>, e: Evidence): real {
    EnumerationAll(NetFactor(t), order, e)
  }

  /** The queries, in the canonical form they are recorded under. */
  function Queried(qs: seq<Var>): set<Var> {
    set i | 0 <= i < |qs| :: Canon(qs[i])
  }

  /** The evidence with every query set to False. */
  function AllFalse(e: Evidence, qs: seq<Var>): Evidence {
    map k | k in e.Keys + Queried(qs) :: if k in Queried(qs) then Bool(false) else e[k]
  }

  /** A node of the network the evidence observes True. */
  predicate ObservedTrue(t: Tables, e: Evidence, v: Var) {
    v in BuildGraph(t).nodes && v in e && e[v] == Bool(true)
  }

  /** Joint and ObservedTrue for a fixed network, as function values. */
  function JointOf(t: Tables, order: seq<Var>): Evidence -> real {
    ev => Joint(t, order, ev)
  }

  function ObservedTrueIn(t: Tables): (Evidence, Var) -> bool {
    (ev, v) => ObservedTrue(t, ev, v)
  }

  /**
   * obs reads the value of each variable alone, and never holds of a
   * variable set to False: ObservedTrue is such a test.
   */
  ghost predicate FalseLocal(obs: (Evidence, Var) -> bool) {
    forall ev, q, v {:trigger obs(ev[q := Bool(false)], v)} ::
      obs(ev[q := Bool(false)], v) <==> v != q && obs(ev, v)
  }

  /** ObservedTrue is local in that sense. */
  lemma ObservedTrueLocal(t: Tables)
    ensures FalseLocal(ObservedTrueIn(t))
  {
  }

  /** Some query is one that obs holds of under the evidence. */
  predicate AnyObserved(obs: (Evidence, Var) -> bool, qs: seq<Var>, e: Evidence) {
    exists i :: 0 <= i < |qs| && obs(e, Canon(qs[i]))
  }

  /**
   * For any weight J of evidence: 0 when some query is observed True, and
   * otherwise the weight of the evidence with every query set to False.
   */
  function FalseTarget(J: Evidence -> real, obs: (Evidence, Var) -> bool, qs: seq<Var>, e: Evidence): real {
    if AnyObserved(obs, qs, e) then 0.0 else J(AllFalse(e, qs))
  }

  /**
   * P(e, every query False): 0 when the evidence observes a query True,
   * and otherwise the weight of the evidence with every query set to False.
   */
  function JointFalse(t: Tables, order: seq<Var>, qs: seq<Var>, e: Evidence): real {
    FalseTarget(JointOf(t, order), ObservedTrueIn(t), qs, e)
  }

  /**
   * The product of EnumerationAskSet's answers times P(e) is P(e, every
   * query False): each answer is the conditional probability of False
   * given the evidence and the earlier queries set to False.
   */
  lemma AskSetChainRule(t: Tables, order: seq<Var>, qs: seq<Var>, e: Evidence)
    requires WellFormed(t) && Calibrated(t) && IsTopologicalOrder(BuildGraph(t), order) && WellTyped(e)
    requires forall i :: 0 <= i < |qs| ==> !Canon(qs[i]).Season?
    ensures AskSet(t, order, qs, e).Some?
    ensures AskSet(t, order, qs, e).value * Joint(t, order, e) == JointFalse(t, order, qs, e)
  {
    FalseAskerSteps(t, order);
    ObservedTrueLocal(t);
    NetworkChain(t, order, qs, e);
  }

  /** The generic chain rule, instantiated with EnumerationAsk and the network's joint weight. */
  lemma NetworkChain(t: Tables, order: seq<Var>, qs: seq<Var>, e: Evidence)
    requires StepsHold(FalseAsker(t, order), JointOf(t, order), ObservedTrueIn(t))
    requires FalseLocal(ObservedTrueIn(t)) && WellTyped(e)
    requires forall i :: 0 <= i < |qs| ==> !Canon(qs[i]).Season?
    ensures AskSet(t, order, qs, e).Some?
    ensures AskSet(t, order, qs, e).value * Joint(t, order, e) == JointFalse(t, order, qs, e)
  {
    JointOfApply(t, order, e);
    ChainProductAt(AskSet(t, order, qs, e), Joint(t, order, e), JointFalse(t, order, qs, e),
      FalseAsker(t, order), JointOf(t, order), ObservedTrueIn(t), qs, e);
  }

  /** JointOf applied is Joint. */
  lemma JointOfApply(t: Tables, order: seq<Var>, ev: Evidence)
    ensures JointOf(t, order)(ev) == Joint(t, order, ev)
  {
  }

  /**
   * ChainProduct for given names c, j and f of the product, the weight of
   * the evidence and the target.
   */
  lemma ChainProductAt(c: Option<real>, j: real, f: real, ask: (Var, Evidence) -> Option<real>, J: Evidence -> real, obs: (Evidence, Var) -> bool, qs: seq<Var>, e: Evidence)
    requires StepsHold(ask, J, obs) && FalseLocal(obs) && WellTyped(e)
    requires forall i :: 0 <= i < |qs| ==> !Canon(qs[i]).Season?
    requires c == FalseChain(ask, true, qs, e) && j == J(e) && f == FalseTarget(J, obs, qs, e)
    ensures c.Some? && c.value * j == f
  {
    ChainProduct(ask, J, obs, qs, e);
    TargetStepsClosed(J, obs, qs, e);
    Rename(c, FalseChain(ask, true, qs, e), j, J(e), f, TargetSteps(J, obs, qs, e));
  }

  /**
   * The target computed query by query, as the chain rule peels them off:
   * 0 at the first query obs holds of, each other query set False in turn.
   */
  function TargetSteps(J: Evidence -> real, obs: (Evidence, Var) -> bool, qs: seq<Var>, e: Evidence): real
    decreases |qs|
  {
    if qs == [] then J(e)
    else if obs(e, Canon(qs[0])) then 0.0
    else TargetSteps(J, obs, qs[1..], e[Canon(qs[0]) := Bool(false)])
  }

  /** Query by query, the target is the closed form FalseTarget. */
  lemma {:induction false} TargetStepsClosed(J: Evidence -> real, obs: (Evidence, Var) -> bool, qs: seq<Var>, e: Evidence)
    requires FalseLocal(obs)
    ensures TargetSteps(J, obs, qs, e) == FalseTarget(J, obs, qs, e)
    decreases |qs|
  {
    if qs == [] {
      assert AllFalse(e, qs) == e;
    } else if obs(e, Canon(qs[0])) {
      assert AnyObserved(obs, qs, e);
    } else {
      TargetStepsClosed(J, obs, qs[1..], e[Canon(qs[0]) := Bool(false)]);
      ShiftFalse(J, obs, qs, e);
    }
  }

  /** If b·j1 = f1 then a·j = f, for a, j and f equal to b, j1 and f1. */
  lemma Rename(a: Option<real>, b: Option<real>, j: real, j1: real, f: real, f1: real)
    requires a == b && j == j1 && f == f1
    requires b.Some? && b.value * j1 == f1
    ensures a.Some? && a.value * j == f
  {
  }

  /**
   * What one answer must satisfy for the chain rule, for a weight J of
   * evidence: for a query that is not the season, under well-typed
   * evidence, the answer is 0 when obs holds of the query, and otherwise
   * the answer times J(e) is J(e, query False).
   */
  ghost predicate StepAt(ask: (Var, Evidence) -> Option<real>, J: Evidence -> real, obs: (Evidence, Var) -> bool, q: Var, ev: Evidence) {
    WellTyped(ev) && !Canon(q).Season? ==>
      ask(q, ev).Some? &&
      if obs(ev, Canon(q)) then ask(q, ev).value == 0.0
      else ask(q, ev).value * J(ev) == J(ev[Canon(q) := Bool(false)])
  }

  /** The step holds for every query and every evidence. */
  ghost predicate StepsHold(ask: (Var, Evidence) -> Option<real>, J: Evidence -> real, obs: (Evidence, Var) -> bool) {
    forall q, ev :: StepAt(ask, J, obs, q, ev)
  }

  /** EnumerationAsk's weight of False satisfies each step of the chain rule. */
  lemma FalseAskerSteps(t: Tables, order: seq<Var>)
    requires WellFormed(t) && Calibrated(t) && IsTopologicalOrder(BuildGraph(t), order)
    ensures StepsHold(FalseAsker(t, order), JointOf(t, order), ObservedTrueIn(t))
  {
    forall q, ev
      ensures StepAt(FalseAsker(t, order), JointOf(t, order), ObservedTrueIn(t), q, ev)
    {
      if WellTyped(ev) && !Canon(q).Season? {
        FalseStepAt(t, order, q, ev);
        StepAtFalseAsker(t, order, q, ev);
      }
    }
  }

  /** One step of the chain rule for EnumerationAsk's weight of False. */
  ghost predicate FalseStepHolds(t: Tables, order: seq<Var>, q: Var, ev: Evidence) {
    FalseWeight(t, order, q, ev).Some? &&
    if ObservedTrue(t, ev, Canon(q)) then FalseWeight(t, order, q, ev).value == 0.0
    else FalseWeight(t, order, q, ev).value * Joint(t, order, ev) == Joint(t, order, ev[Canon(q) := Bool(false)])
  }

  /** The step for one query, by whether the evidence observes it True. */
  lemma FalseStepAt(t: Tables, order: seq<Var>, q: Var, ev: Evidence)
    requires WellFormed(t) && Calibrated(t) && IsTopologicalOrder(BuildGraph(t), order) && WellTyped(ev)
    requires !Canon(q).Season?
    ensures FalseStepHolds(t, order, q, ev)
  {
    if ObservedTrue(t, ev, Canon(q)) {
      FalseWeightObservedTrue(t, order, q, ev);
    } else {
      FalseStep(t, order, q, ev);
    }
  }

  /** The step of EnumerationAsk, restated for the generic chain rule. */
  lemma StepAtFalseAsker(t: Tables, order: seq<Var>, q: Var, ev: Evidence)
    requires FalseStepHolds(t, order, q, ev)
    ensures StepAt(FalseAsker(t, order), JointOf(t, order), ObservedTrueIn(t), q, ev)
  {
    JointOfApply(t, order, ev);
    JointOfApply(t, order, ev[Canon(q) := Bool(false)]);
    StepFromParts(FalseAsker(t, order), JointOf(t, order), ObservedTrueIn(t), q, ev,
      FalseWeight(t, order, q, ev), Joint(t, order, ev), Joint(t, order, ev[Canon(q) := Bool(false)]), ObservedTrue(t, ev, Canon(q)));
  }

  /**
   * A step from named parts: the answer w, the weights j and k of the
   * evidence before and after setting the query False, and whether obs holds.
   */
  lemma StepFromParts(ask: (Var, Evidence) -> Option<real>, J: Evidence -> real, obs: (Evidence, Var) -> bool, q: Var, ev: Evidence,
                      w: Option<real>, j: real, k: real, b: bool)
    requires ask(q, ev) == w && J(ev) == j && J(ev[Canon(q) := Bool(false)]) == k && obs(ev, Canon(q)) == b
    requires w.Some? && if b then w.value == 0.0 else w.value * j == k
    ensures StepAt(ask, J, obs, q, ev)
  {
  }

  /**
   * The chain rule for any way of answering one query that satisfies the
   * steps, with each answered query recorded False in canonical form.
   */
  lemma {:induction false} ChainProduct(ask: (Var, Evidence) -> Option<real>, J: Evidence -> real, obs: (Evidence, Var) -> bool, qs: seq<Var>, e: Evidence)
    requires StepsHold(ask, J, obs) && WellTyped(e)
    requires forall i :: 0 <= i < |qs| ==> !Canon(qs[i]).Season?
    ensures FalseChain(ask, true, qs, e).Some?
    ensures FalseChain(ask, true, qs, e).value * J(e) == TargetSteps(J, obs, qs, e)
    decreases |qs|
  {
    if qs != [] {
      var e1 := e[Canon(qs[0]) := Bool(false)];
      RestNotSeason(qs);
      WellTypedUpdate(e, Canon(qs[0]), Bool(false));
      ChainProduct(ask, J, obs, qs[1..], e1);
      if obs(e, Canon(qs[0])) {
        StepTrue(ask, J, obs, qs[0], e);
        ChainStepTrue(ask, J, obs, qs, e);
      } else {
        StepFalse(ask, J, obs, qs[0], e);
        ChainStepFalse(ask, J, obs, qs, e);
      }
    }
  }

  /** The queries after the first are not the season either. */
  lemma RestNotSeason(qs: seq<Var>)
    requires qs != [] && forall i :: 0 <= i < |qs| ==> !Canon(qs[i]).Season?
    ensures !Canon(qs[0]).Season?
    ensures forall i :: 0 <= i < |qs[1..]| ==> !Canon(qs[1..][i]).Season?
  {
    forall i | 0 <= i < |qs[1..]|
      ensures !Canon(qs[1..][i]).Season?
    {
      assert qs[1..][i] == qs[i + 1];
    }
  }

  /** The step for a query obs holds of. */
  lemma StepTrue(ask: (Var, Evidence) -> Option<real>, J: Evidence -> real, obs: (Evidence, Var) -> bool, q: Var, ev: Evidence)
    requires StepsHold(ask, J, obs) && WellTyped(ev) && !Canon(q).Season?
    requires obs(ev, Canon(q))
    ensures ask(q, ev) == Some(0.0)
  {
    assert StepAt(ask, J, obs, q, ev);
  }

  /** The step for any other query. */
  lemma StepFalse(ask: (Var, Evidence) -> Option<real>, J: Evidence -> real, obs: (Evidence, Var) -> bool, q: Var, ev: Evidence)
    requires StepsHold(ask, J, obs) && WellTyped(ev) && !Canon(q).Season?
    requires !obs(ev, Canon(q))
    ensures ask(q, ev).Some?
    ensures ask(q, ev).value * J(ev) == J(ev[Canon(q) := Bool(false)])
  {
    assert StepAt(ask, J, obs, q, ev);
  }

  /** The first query observed True makes the product and the target both 0. */
  lemma ChainStepTrue(ask: (Var, Evidence) -> Option<real>, J: Evidence -> real, obs: (Evidence, Var) -> bool, qs: seq<Var>, e: Evidence)
    requires qs != [] && obs(e, Canon(qs[0]))
    requires ask(qs[0], e) == Some(0.0)
    requires FalseChain(ask, true, qs[1..], e[Canon(qs[0]) := Bool(false)]).Some?
    ensures FalseChain(ask, true, qs, e).Some?
    ensures FalseChain(ask, true, qs, e).value * J(e) == TargetSteps(J, obs, qs, e)
  {
    TimesZero(ask(qs[0], e), FalseChain(ask, true, qs[1..], e[Canon(qs[0]) := Bool(false)]), J(e));
  }

  /** One step of the induction: the first answer times the rest of the product. */
  lemma ChainStepFalse(ask: (Var, Evidence) -> Option<real>, J: Evidence -> real, obs: (Evidence, Var) -> bool, qs: seq<Var>, e: Evidence)
    requires qs != []
    requires ask(qs[0], e).Some?
    requires ask(qs[0], e).value * J(e) == J(e[Canon(qs[0]) := Bool(false)])
    requires FalseChain(ask, true, qs[1..], e[Canon(qs[0]) := Bool(false)]).Some?
    requires FalseChain(ask, true, qs[1..], e[Canon(qs[0]) := Bool(false)]).value * J(e[Canon(qs[0]) := Bool(false)])
      == TargetSteps(J, obs, qs[1..], e[Canon(qs[0]) := Bool(false)])
    requires !obs(e, Canon(qs[0]))
    ensures FalseChain(ask, true, qs, e).Some?
    ensures FalseChain(ask, true, qs, e).value * J(e) == TargetSteps(J, obs, qs, e)
  {
    ChainUnfold(ask, qs, e);
    TimesChainAt(FalseChain(ask, true, qs, e), ask(qs[0], e), FalseChain(ask, true, qs[1..], e[Canon(qs[0]) := Bool(false)]),
      J(e), J(e[Canon(qs[0]) := Bool(false)]), TargetSteps(J, obs, qs, e), TargetSteps(J, obs, qs[1..], e[Canon(qs[0]) := Bool(false)]));
  }

  /** The product of the answers is the first answer times the product of the rest. */
  lemma ChainUnfold(ask: (Var, Evidence) -> Option<real>, qs: seq<Var>, e: Evidence)
    requires qs != []
    ensures FalseChain(ask, true, qs, e) == Times(ask(qs[0], e), FalseChain(ask, true, qs[1..], e[Canon(qs[0]) := Bool(false)]))
  {
  }

  /** TimesChain for a named product c and a named target f. */
  lemma TimesChainAt(c: Option<real>, a: Option<real>, r: Option<real>, j: real, j1: real, f: real, f1: real)
    requires c == Times(a, r) && f == f1
    requires a.Some? && a.value * j == j1
    requires r.Some? && r.value * j1 == f1
    ensures c.Some? && c.value * j == f
  {
    TimesChain(a, r, j, j1, f1);
  }

  /**
   * Where the evidence has nonzero probability, EnumerationAskSet answers
   * P(every query False | e).
   */
  lemma AskSetIsConditional(t: Tables, order: seq<Var>, qs: seq<Var>, e: Evidence)
    requires WellFormed(t) && Calibrated(t) && IsTopologicalOrder(BuildGraph(t), order) && WellTyped(e)
    requires forall i :: 0 <= i < |qs| ==> !Canon(qs[i]).Season?
    requires Joint(t, order, e) != 0.0
    ensures AskSet(t, order, qs, e) == Some(JointFalse(t, order, qs, e) / Joint(t, order, e))
  {
    AskSetChainRule(t, order, qs, e);
    ConditionalFromChain(t, order, qs, e);
  }

  /** Dividing the chain rule by P(e). */
  lemma ConditionalFromChain(t: Tables, order: seq<Var>, qs: seq<Var>, e: Evidence)
    requires AskSet(t, order, qs, e).Some?
    requires AskSet(t, order, qs, e).value * Joint(t, order, e) == JointFalse(t, order, qs, e)
    requires Joint(t, order, e) != 0.0
    ensures AskSet(t, order, qs, e) == Some(JointFalse(t, order, qs, e) / Joint(t, order, e))
  {
    SolveFor(AskSet(t, order, qs, e), Joint(t, order, e), JointFalse(t, order, qs, e));
  }

  /** If a·j = j1 and r·j1 = f then (a·r)·j = f. */
  lemma TimesChain(a: Option<real>, r: Option<real>, j: real, j1: real, f: real)
    requires a.Some? && r.Some? && a.value * j == j1 && r.value * j1 == f
    ensures Times(a, r).Some? && Times(a, r).value * j == f
  {
    calc {
      (a.value * r.value) * j;
      r.value * (a.value * j);
    }
  }

  /** A product with a zero factor is zero. */
  lemma TimesZero(a: Option<real>, r: Option<real>, j: real)
    requires a == Some(0.0) && r.Some?
    ensures Times(a, r).Some? && Times(a, r).value * j == 0.0
  {
  }

  /** Solving w·j = f for w. */
  lemma SolveFor(w: Option<real>, j: real, f: real)
    requires w.Some? && w.value * j == f && j != 0.0
    ensures w == Some(f / j)
  {
    calc {
      f / j;
      (w.value * j) / j;
      w.value;
    }
  }

  /**
   * Setting the first query False and dropping it from the list leaves
   * the target alone, unless obs holds of it.
   */
  lemma ShiftFalse(J: Evidence -> real, obs: (Evidence, Var) -> bool, qs: seq<Var>, e: Evidence)
    requires FalseLocal(obs) && qs != [] && !obs(e, Canon(qs[0]))
    ensures FalseTarget(J, obs, qs, e) == FalseTarget(J, obs, qs[1..], e[Canon(qs[0]) := Bool(false)])
  {
    AnyObservedShift(obs, qs, e);
    AllFalseShift(qs, e);
  }

  /** Queried splits into the first query and the rest. */
  lemma QueriedShift(qs: seq<Var>)
    requires qs != []
    ensures Queried(qs) == {Canon(qs[0])} + Queried(qs[1..])
  {
    forall v | v in Queried(qs)
      ensures v in {Canon(qs[0])} + Queried(qs[1..])
    {
      var i :| 0 <= i < |qs| && v == Canon(qs[i]);
      if i > 0 {
        assert qs[1..][i - 1] == qs[i];
      }
    }
    forall v | v in Queried(qs[1..])
      ensures v in Queried(qs)
    {
      var i :| 0 <= i < |qs[1..]| && v == Canon(qs[1..][i]);
      assert qs[1..][i] == qs[i + 1];
    }
  }

  /** Setting every query False is setting the first, then the rest. */
  lemma AllFalseShift(qs: seq<Var>, e: Evidence)
    requires qs != []
    ensures AllFalse(e, qs) == AllFalse(e[Canon(qs[0]) := Bool(false)], qs[1..])
  {
    QueriedShift(qs);
  }

  /**
   * With obs false of the first query, obs holds of some query exactly
   * when it holds of some later one once the first is set False.
   */
  lemma AnyObservedShift(obs: (Evidence, Var) -> bool, qs: seq<Var>, e: Evidence)
    requires FalseLocal(obs) && qs != [] && !obs(e, Canon(qs[0]))
    ensures AnyObserved(obs, qs, e) <==> AnyObserved(obs, qs[1..], e[Canon(qs[0]) := Bool(false)])
  {
    var q := Canon(qs[0]);
    var e1 := e[q := Bool(false)];
    var rest := qs[1..];
    if AnyObserved(obs, qs, e) {
      var i :| 0 <= i < |qs| && obs(e, Canon(qs[i]));
      assert i > 0 && rest[i - 1] == qs[i];
      assert obs(e1, Canon(rest[i - 1]));
    }
    if AnyObserved(obs, rest, e1) {
      var j :| 0 <= j < |rest| && obs(e1, Canon(rest[j]));
      assert rest[j] == qs[j + 1];
      assert obs(e, Canon(qs[j + 1]));
    }
  }

  /** A query the evidence observes True has weight 0 under False. */
  lemma FalseWeightObservedTrue(t: Tables, order: seq<Var>, query: Var, e: Evidence)
    requires !Canon(query).Season? && ObservedTrue(t, e, Canon(query))
    ensures FalseWeight(t, order, query, e) == Some(0.0)
  {
    assert RemoveFirst([Bool(true), Bool(false)], Bool(true)) == [Bool(false)];
    var d := PointMass(Bool(true), [Bool(false)]);
    assert d == [(Bool(true), 1.0), (Bool(false), 0.0)];
    assert Get(d[1..], Bool(false)) == Some(0.0);
  }

  /**
   * One step of the chain rule: for a query the evidence does not observe
   * True, the weight EnumerationAsk gives False times P(e) is P(e, query
   * False).
   */
  lemma FalseStep(t: Tables, order: seq<Var>, query: Var, e: Evidence)
    requires WellFormed(t) && Calibrated(t) && IsTopologicalOrder(BuildGraph(t), order) && WellTyped(e)
    requires !Canon(query).Season? && !ObservedTrue(t, e, Canon(query))
    ensures FalseWeight(t, order, query, e).Some?
    ensures FalseWeight(t, order, query, e).value * Joint(t, order, e) == Joint(t, order, e[Canon(query) := Bool(false)])
  {
    var q := Canon(query);
    if q !in BuildGraph(t).nodes {
      AbsentStep(t, order, query, e);
    } else if q in e {
      ObservedFalseStep(t, order, query, e);
    } else {
      UnobservedStep(t, order, query, e);
    }
  }

  /**
   * A query the network does not hold: its answer puts weight 1 on False,
   * and setting it False does not change P(e), since no enumeration reads it.
   */
  lemma AbsentStep(t: Tables, order: seq<Var>, query: Var, e: Evidence)
    requires WellFormed(t) && forall v :: v in order ==> InTables(t, v)
    requires Canon(query) !in BuildGraph(t).nodes
    ensures FalseWeight(t, order, query, e).Some?
    ensures FalseWeight(t, order, query, e).value * Joint(t, order, e) == Joint(t, order, e[Canon(query) := Bool(false)])
  {
    AbsentFalse();
    assert FalseWeight(t, order, query, e) == Some(1.0);
    AbsentJoint(t, order, Canon(query), e);
    StepOfOne(FalseWeight(t, order, query, e), Joint(t, order, e), Joint(t, order, e[Canon(query) := Bool(false)]));
  }

  /** Setting a variable the network does not hold leaves P(e) alone. */
  lemma AbsentJoint(t: Tables, order: seq<Var>, q: Var, e: Evidence)
    requires WellFormed(t) && forall v :: v in order ==> InTables(t, v)
    requires q !in BuildGraph(t).nodes
    ensures Joint(t, order, e) == Joint(t, order, e[q := Bool(false)])
  {
    OrderReads(t, order);
    assert AgreeOn(e[q := Bool(false)], e, Reads(order));
    NetFactorReadsParents(t);
    EnumerationAllFrame(NetFactor(t), order, e[q := Bool(false)], e);
  }

  /** A weight of 1 and an unchanged joint weight give the step. */
  lemma StepOfOne(w: Option<real>, j: real, k: real)
    requires w == Some(1.0) && j == k
    ensures w.Some? && w.value * j == k
  {
  }

  /** A query observed False: weight 1 on False, and the evidence already sets it False. */
  lemma ObservedFalseStep(t: Tables, order: seq<Var>, query: Var, e: Evidence)
    requires !Canon(query).Season? && WellTyped(e)
    requires Canon(query) in e && !ObservedTrue(t, e, Canon(query)) && Canon(query) in BuildGraph(t).nodes
    ensures FalseWeight(t, order, query, e).Some?
    ensures FalseWeight(t, order, query, e).value * Joint(t, order, e) == Joint(t, order, e[Canon(query) := Bool(false)])
  {
    var q := Canon(query);
    CanonSpec(query);
    assert e[q] == Bool(false);
    FalseWeightObservedFalse(t, order, query, e);
    assert e[q := Bool(false)] == e;
  }

  /** Only nodes of the network and their parents are read by a full enumeration. */
  lemma {:induction false} OrderReads(t: Tables, order: seq<Var>)
    requires WellFormed(t) && forall v :: v in order ==> InTables(t, v)
    ensures Reads(order) <= NetworkVars(t)
    decreases |order|
  {
    if order != [] {
      var v := order[0];
      assert v in order;
      NetworkVarIsCanonical(t, v);
      assert CptParents(v) <= NetworkVars(t);
      OrderReads(t, order[1..]);
    }
  }

  /** No node before q in a topological order has q as a parent. */
  lemma BeforeQuery(t: Tables, order: seq<Var>, i: int)
    requires WellFormed(t) && IsTopologicalOrder(BuildGraph(t), order) && 0 <= i < |order|
    ensures Before(order[..i], order[i])
  {
    var q := order[i];
    forall v | v in order[..i]
      ensures Canon(v) == v && v != q && q !in CptParents(v)
    {
      var j :| 0 <= j < i && order[..i][j] == v;
      assert order[j] == v;
      NetworkVarIsCanonical(t, v);
      ArcsAreParents(t, q, v);
      assert (order[i], order[j]) in BuildGraph(t).arcs ==> i < j;
    }
  }

  /** A list is its prefix, the element at i and its suffix. */
  lemma SplitAt(s: seq<Var>, i: int)
    requires 0 <= i < |s|
    ensures s == s[..i] + [s[i]] + s[i + 1..]
  {
  }

  /** A sum over the boolean domain is the term for True plus the term for False. */
  lemma SumOverBools(f: Val -> real)
    ensures SumOver([Bool(true), Bool(false)], f) == f(Bool(true)) + f(Bool(false))
  {
    assert [Bool(true), Bool(false)][1..] == [Bool(false)];
    assert [Bool(false)][1..] == [];
  }

  /** The total of a two-entry dictionary. */
  lemma TotalPair(d: Dist)
    requires |d| == 2
    ensures Total(d) == d[0].1 + d[1].1
  {
    assert d[1..][0] == d[1] && d[1..][1..] == [];
    assert Total(d[1..]) == d[1].1 + Total(d[1..][1..]);
  }

  /** The weight under the second key of a two-entry dictionary with distinct keys. */
  lemma GetSecond(d: Dist)
    requires |d| == 2 && d[0].0 != d[1].0
    ensures Get(d, d[1].0) == Some(d[1].1)
  {
    assert d[1..][0] == d[1];
  }

  /**
   * Marginalization over a query q that is a node of the network:
   * P(e) = P(e, q True) + P(e, q False).
   */
  lemma MarginalPair(t: Tables, order: seq<Var>, q: Var, e: Evidence)
    requires WellFormed(t) && IsTopologicalOrder(BuildGraph(t), order)
    requires q in BuildGraph(t).nodes && q !in e && !q.Season?
    ensures Joint(t, order, e[q := Bool(true)]) + Joint(t, order, e[q := Bool(false)]) == Joint(t, order, e)
  {
    var P := NetFactor(t);
    var i :| 0 <= i < |order| && order[i] == q;
    SplitAt(order, i);
    BeforeQuery(t, order, i);
    NetFactorReadsParents(t);
    NetworkVarIsCanonical(t, q);
    Marginalize(P, order[..i], q, order[i + 1..], e);
    SumOverBools(SetTerm(P, order, q, e));
  }

  /**
   * An unobserved query: P(e) is P(e, True) + P(e, False) by
   * marginalization, and EnumerationAsk divides P(e, False) by it.
   */
  lemma UnobservedStep(t: Tables, order: seq<Var>, query: Var, e: Evidence)
    requires WellFormed(t) && Calibrated(t) && IsTopologicalOrder(BuildGraph(t), order) && WellTyped(e)
    requires !Canon(query).Season? && Canon(query) in BuildGraph(t).nodes && Canon(query) !in e
    ensures FalseWeight(t, order, query, e).Some?
    ensures FalseWeight(t, order, query, e).value * Joint(t, order, e) == Joint(t, order, e[Canon(query) := Bool(false)])
  {
    UnobservedCases(t, order, query, e);
    StepOfCases(t, order, query, e);
  }

  /** The step from the two cases of an unobserved query. */
  lemma StepOfCases(t: Tables, order: seq<Var>, query: Var, e: Evidence)
    requires Joint(t, order, e) != 0.0 ==>
      FalseWeight(t, order, query, e) == Some(Joint(t, order, e[Canon(query) := Bool(false)]) / Joint(t, order, e))
    requires Joint(t, order, e) == 0.0 ==>
      FalseWeight(t, order, query, e).Some? && Joint(t, order, e[Canon(query) := Bool(false)]) == 0.0
    ensures FalseWeight(t, order, query, e).Some?
    ensures FalseWeight(t, order, query, e).value * Joint(t, order, e) == Joint(t, order, e[Canon(query) := Bool(false)])
  {
    StepFromCases(FalseWeight(t, order, query, e), Joint(t, order, e), Joint(t, order, e[Canon(query) := Bool(false)]));
  }

  /** The two cases of an unobserved query, by whether P(e) is 0. */
  lemma UnobservedCases(t: Tables, order: seq<Var>, query: Var, e: Evidence)
    requires WellFormed(t) && Calibrated(t) && IsTopologicalOrder(BuildGraph(t), order) && WellTyped(e)
    requires !Canon(query).Season? && Canon(query) in BuildGraph(t).nodes && Canon(query) !in e
    ensures Joint(t, order, e) != 0.0 ==>
      FalseWeight(t, order, query, e) == Some(Joint(t, order, e[Canon(query) := Bool(false)]) / Joint(t, order, e))
    ensures Joint(t, order, e) == 0.0 ==>
      FalseWeight(t, order, query, e).Some? && Joint(t, order, e[Canon(query) := Bool(false)]) == 0.0
  {
    if Joint(t, order, e) != 0.0 {
      UnobservedNonzero(t, order, query, e);
    } else {
      UnobservedZero(t, order, query, e);
    }
  }

  /** Either case gives the step: w·j = k. */
  lemma StepFromCases(w: Option<real>, j: real, k: real)
    requires j != 0.0 ==> w == Some(k / j)
    requires j == 0.0 ==> w.Some? && k == 0.0
    ensures w.Some? && w.value * j == k
  {
  }

  /** Where P(e) is not 0, the weight of False is P(e, query False) / P(e). */
  lemma UnobservedNonzero(t: Tables, order: seq<Var>, query: Var, e: Evidence)
    requires WellFormed(t) && IsTopologicalOrder(BuildGraph(t), order) && WellTyped(e)
    requires !Canon(query).Season? && Canon(query) in BuildGraph(t).nodes && Canon(query) !in e
    requires Joint(t, order, e) != 0.0
    ensures FalseWeight(t, order, query, e) == Some(Joint(t, order, e[Canon(query) := Bool(false)]) / Joint(t, order, e))
  {
    var q := Canon(query);
    var j := Joint(t, order, e);
    MarginalPair(t, order, q, e);
    var W := Weights(t, order, q, e);
    assert Options(q) == [Bool(true), Bool(false)];
    TotalPair(W);
    AskMatchesFullEnumeration(t, order, query, e);
    DivideAt(W, j, 1);
    GetSecond(Normalize(W));
  }

  /**
   * Where P(e) is 0 so is P(e, query False), the weights being
   * nonnegative; the answer still has a False entry.
   */
  lemma UnobservedZero(t: Tables, order: seq<Var>, query: Var, e: Evidence)
    requires WellFormed(t) && Calibrated(t) && IsTopologicalOrder(BuildGraph(t), order) && WellTyped(e)
    requires !Canon(query).Season? && Canon(query) in BuildGraph(t).nodes && Canon(query) !in e
    requires Joint(t, order, e) == 0.0
    ensures FalseWeight(t, order, query, e).Some?
    ensures Joint(t, order, e[Canon(query) := Bool(false)]) == 0.0
  {
    FalseWeightExists(t, order, query, e);
    ZeroFalseJoint(t, order, Canon(query), e);
  }

  /** EnumerationAsk answers a query that is not the season with an entry for False. */
  lemma FalseWeightExists(t: Tables, order: seq<Var>, query: Var, e: Evidence)
    requires WellFormed(t) && IsTopologicalOrder(BuildGraph(t), order) && WellTyped(e)
    requires !Canon(query).Season?
    ensures FalseWeight(t, order, query, e).Some?
  {
    AskSucceeds(t, order, query, e);
    AskHasFalse(t, order, query, e);
  }

  /** P(e) = 0 forces P(e, q False) = 0, both terms of the marginal being nonnegative. */
  lemma ZeroFalseJoint(t: Tables, order: seq<Var>, q: Var, e: Evidence)
    requires WellFormed(t) && Calibrated(t) && IsTopologicalOrder(BuildGraph(t), order)
    requires q in BuildGraph(t).nodes && q !in e && !q.Season?
    requires Joint(t, order, e) == 0.0
    ensures Joint(t, order, e[q := Bool(false)]) == 0.0
  {
    MarginalPair(t, order, q, e);
    NetFactorSubStochastic(t);
    EnumerationAllBounds(NetFactor(t), order, e[q := Bool(true)]);
    EnumerationAllBounds(NetFactor(t), order, e[q := Bool(false)]);
  }
}
