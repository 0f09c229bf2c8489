# Exact inference in the blocked-edges Bayesian network

This project models the exact-inference core of a small Bayesian-network
program about a grid whose edges may be blocked. The network has three
kinds of variable:

- a `season` root taking `low`, `medium` or `high`;
- one boolean variable per grid vertex, conditioned on the season;
- one boolean variable per fragile edge, conditioned on its two endpoint
  vertices.

The model covers:

- how the `BayesNetwork` object assembles its directed graph from the
  probability tables;
- how it answers a query by enumeration (`EnumerationAsk`, `EnumerationAll`,
  `Probability`, `VarCPT`, `Parent`, `Normalize`);
- how it prunes barren nodes before enumerating (`RemoveBarrenNodes`);
- how it scores a path by the probability that none of its edges is blocked
  (`EnumerationAskSet`);
- how it picks the best path between two vertices (`FindNonBlockedPath`,
  over the edge lists of `AllSimplePathsStartToEndEdges`), scoring each path
  with `EnumerationAskSet` as written; a corrected scoring (see
  "## Findings") is modelled beside it;
- the two table builders of `utils.py` (`CPTVertex`, `CPTEdge`).

Modules, one per concern:

- `Variables` (variables.dfy): variables, values, evidence, the canonical
  (sorted) form of an edge, domains.
- `CptBuilders` (cpt_builders.dfy): `CPTVertex` and `CPTEdge`.
- `CptModel` (cpt_model.dfy): the tables, `VarCPT`, `Parent`, `Probability`.
- `NetworkGraph` (network_graph.dfy): the graph `__init__` builds; topological
  orders.
- `Enumeration` (enumeration.dfy): `EnumerationAll` over any factor function,
  with its frame and drop-a-variable lemmas.
- `NetworkFactor` (network_factor.dfy): the network's own factor; when a
  lookup raises `KeyError`.
- `Normalization` (normalization.dfy): `Normalize`.
- `Pruning` (pruning.dfy): the two loops of `RemoveBarrenNodes` as functions,
  and the shape of what they keep.
- `PruneSoundness` (prune_soundness.dfy): enumerating the pruned network gives
  the same answer as enumerating the whole one, up to a factor that does not
  depend on the query's value.
- `Inference` (inference.dfy): `EnumerationAsk` and `EnumerationAskSet` as
  functions, with their properties.
- `Marginalization` (marginalization.dfy): summing EnumerationAll over every
  value of an unobserved variable gives EnumerationAll with it unobserved.
- `ChainRule` (chain_rule.dfy): the product EnumerationAskSet computes is,
  by the chain rule, the probability that every query is False given the
  evidence, both probabilities being full enumerations of the network.
- `Paths` (paths.dfy): path edge lists, Python's ordering of
  `(score, path)` pairs, and the running maximum of `FindNonBlockedPath`.
- `BayesNet` (bayes_network.dfy): the `BayesNetwork` class, whose methods
  change state step by step. Each method is proved against the function that
  specifies it.

How the program's types are represented:

- Probabilities are Dafny `real`s.
- A Python dictionary that is returned, such as `queryDict` or the answer of
  `EnumerationAsk`, is an insertion-ordered list of `(value, weight)` pairs.
- An exception the source lets escape (`KeyError`) is `None` of an `Option`.
- Parameters stand in for the things networkx computes:
  - `nx.topological_sort` is an `order` parameter. The soundness lemmas
    require it to be a topological order.
  - `nx.all_simple_paths` is a `nodePaths` parameter. `IsSimplePath` states
    what such a path is.

Where the code and its documentation disagree, the model follows the code:

- `FindNonBlockedPath` is documented as returning a list of nodes. The code
  returns the pair `(probability, edge list)` that Python's `max` picked,
  starting from `(0, [])`.
- Equal probabilities are not broken by "first found". Python's `max` keeps
  the earlier pair unless the later one compares greater. On equal scores
  that means the later edge list when it is lexicographically greater.
  `Paths.Max` and `Paths.ScoredLess` model exactly that.
- `EnumerationAsk` writes each value of the query into the caller's evidence
  dictionary (`e[query] = q`). The model returns that dictionary as a second
  result, `AskEvidence`.

## Model

| member | source | states |
|---|---|---|
| Variables.CanonSpec | bayes_network.py:248 | The canonical form of a variable is canonical. It is an edge exactly when the variable is, with the same two endpoints. It leaves the season and vertices alone, and it is the identity exactly on canonical variables. |
| Variables.CanonFlip | bayes_network.py:280 | An edge and its reversal have the same canonical form, so both look up the same network variable. |
| Variables.OptionsSpec | bayes_network.py:250 | The options of a variable are exactly the values of its kind (levels for the season, booleans otherwise), each listed once. |
| Variables.WellTypedUpdate | bayes_network.py:256 | Writing a value of the query's domain into well-typed evidence keeps it well typed. |
| CptBuilders.CptVertex | utils.py:5-16 | The table has exactly the keys low, medium and high, holding p, min(1, 2p) and min(1, 3p). The medium and high entries never exceed 1. For p in [0, 1] the entries grow with the level and all lie in [0, 1]. |
| CptBuilders.CptEdge | utils.py:18-33 | The table has exactly the four endpoint pairs as keys. It holds the leakage for (False, False), 1 - qi for one true endpoint and 1 - qi² for two. It is symmetric in the endpoints. For qi and the leakage in [0, 1], every entry lies in [0, 1] and two true endpoints block at least as often as one. |
| CptModel.Parent | bayes_network.py:321-334 | The key is the empty key exactly for the season. A vertex's key is the season's observed value. An edge's key is the pair of its endpoints' observed values. |
| CptModel.ParentsAssignedSpec | bayes_network.py:332-334 | Parent raises no KeyError exactly when every variable the table is conditioned on is observed. |
| CptModel.Probability | bayes_network.py:290-319 | The season gives its prior for the level. Any other variable gives the entry of its table (chosen by VarCPT) under Parent's key for True, and one minus that entry for False. |
| CptModel.LookupSucceeds | bayes_network.py:302-319 | With well-formed tables, a network variable whose parents are observed with well-typed values can look up every value of its domain. |
| CptModel.ProbabilityComplement | bayes_network.py:302-305 | A boolean variable's True and False probabilities add up to its mass. The season's three levels add up to the season's mass. |
| CptModel.SeasonIgnoresEvidence | bayes_network.py:302 | The season's probability is its prior whatever has been observed. |
| CptModel.ProbabilityBounds | bayes_network.py:290-305 | With calibrated tables every probability lies in [0, 1]. |
| CptModel.ProbabilityReadsParents | bayes_network.py:302-305 | Probability reads the evidence only at the variable's parents: evidence that agrees there gives the same lookups and the same values. |
| NetworkGraph.NetworkVars | bayes_network.py:34-38 | The nodes are exactly the season, every vertex of nodesCPT and every fragile edge of fragEdgesCPT. |
| NetworkGraph.BuildGraph | bayes_network.py:28-40 | The graph's nodes are the network's variables. Its arcs are exactly season→vertex and endpoint→edge. |
| NetworkGraph.ArcsAreParents | bayes_network.py:39-40 | The arcs into a network variable come exactly from the variables its table is conditioned on. |
| NetworkGraph.ArcsGoDown | bayes_network.py:39-40 | Every arc joins two nodes and goes one layer down (season, vertices, edges), so the graph is acyclic. |
| Enumeration.EnumerationAllBounds | bayes_network.py:264-288 | When every factor is a probability and each variable's factors add up to at most 1, EnumerationAll lies in [0, 1]. |
| Enumeration.ReadsCanonical | bayes_network.py:280 | EnumerationAll looks up only canonical variables. |
| Enumeration.EnumerationAllFrame | bayes_network.py:279-288 | EnumerationAll reads the evidence only at the listed variables and their parents: evidence that agrees there gives the same value. |
| Enumeration.InnerBounds | bayes_network.py:288 | Weighting values in [0, 1] by nonnegative weights (np.inner) gives a value between 0 and the sum of the weights. |
| Enumeration.DropObservedRoot | bayes_network.py:282-285 | Taking out of the list an observed variable whose parents are all observed divides EnumerationAll by that variable's factor. |
| Enumeration.DropUnobserved | bayes_network.py:286-288 | Taking out of the list an unobserved variable that no later variable reads divides EnumerationAll by its mass. This needs its parents to be observed or listed before it. |
| NetworkFactor.NetFactorReadsParents | bayes_network.py:290-305 | The network's factor reads the evidence only at the variable's parents. |
| NetworkFactor.FactorsAddUp | bayes_network.py:286 | When a variable's parents are observed, the factors of its options add up to its mass. |
| NetworkFactor.NetFactorSubStochastic | bayes_network.py:290-305 | With calibrated tables, factors lie in [0, 1] and each variable's factors add up to at most 1. |
| NetworkFactor.ClosedNoKeyError | bayes_network.py:264-288 | EnumerationAll over a list of network variables raises no KeyError when each variable's parents are observed or listed before it. |
| NetworkFactor.NoKeyErrorFrame | bayes_network.py:279-288 | Whether EnumerationAll raises depends only on the evidence at the listed variables and their parents. |
| Normalization.Normalize | bayes_network.py:336-349 | The keys and their order are kept. A dictionary whose weights add up to 0 is returned unchanged. |
| Normalization.NormalizeSumsToOne | bayes_network.py:346-349 | With a nonzero total, the normalized weights add up to 1. |
| Normalization.NormalizeBounds | bayes_network.py:346-349 | Nonnegative weights normalize to nonnegative weights, and with a nonzero total to weights at most 1. |
| Normalization.NormalizeScaleInvariant | bayes_network.py:346-349 | Multiplying every weight by the same nonzero factor does not change the normalized result. |
| Normalization.NormalizeIdempotent | bayes_network.py:336-349 | Normalizing twice is normalizing once. |
| Pruning.ForwardStage | bayes_network.py:359-362 | After the forward loop has visited a prefix of the order, the graph is an induced subgraph. Every later node is still there. Every removed node was observed, was not the query and had no parent left. |
| Pruning.BackwardStage | bayes_network.py:363-367 | After the backward loop has visited a suffix of the order, the graph is an induced subgraph of what the forward loop left. Every earlier node is still there. Every removed node was unobserved, was not the query and had no child left. |
| Pruning.Pruned | bayes_network.py:351-368 | RemoveBarrenNodes only removes nodes. It keeps the query and every node that the order does not list. |
| Pruning.ForwardKeeps | bayes_network.py:359-362 | The first loop only removes nodes, keeps the query, and keeps every node it does not visit. |
| Pruning.BackwardKeeps | bayes_network.py:363-367 | The second loop only removes nodes, keeps the query, and keeps every node it does not visit. |
| Pruning.PrunedShape | bayes_network.py:351-368 | RemoveBarrenNodes leaves an induced subgraph that keeps the query. Every node it removed is either an observed node whose parents are all observed and removed, or an unobserved node whose children are all removed. Every kept node's parents are kept or observed. |
| Pruning.PrunedObservedOnly | bayes_network.py:360-365 | The pruned graph depends on the evidence only through which listed nodes are observed. |
| Pruning.FilterTopological | bayes_network.py:257-259 | The network's topological order filtered to the kept nodes is a topological order of the pruned graph. |
| PruneSoundness.ForwardStep | bayes_network.py:359-362 | Each visit of the forward loop divides the enumeration by the factor of the observed root it removes, or by 1. |
| PruneSoundness.BackwardStep | bayes_network.py:363-367 | Each visit of the backward loop divides the enumeration by the mass of the barren leaf it removes, or by 1. |
| PruneSoundness.PruneSound | bayes_network.py:255-262 | Take a topological order and set the query to any of its values. Enumerating the whole order is PruneFactor times enumerating the nodes RemoveBarrenNodes keeps, and PruneFactor does not depend on the query's value. |
| PruneSoundness.NetworkPruneSound | bayes_network.py:351-368 | The same for the network's own factor and masses. |
| PruneSoundness.PrunedNoKeyError | bayes_network.py:257-261 | EnumerationAll over the nodes RemoveBarrenNodes keeps raises no KeyError, whatever value of its domain the query is set to. |
| Inference.Weights | bayes_network.py:255-261 | queryDict has one entry per option of the query, in domain order. Each entry is EnumerationAll over the list under the evidence with the query set to that option. |
| Inference.FirstKeyError | bayes_network.py:255-261 | The position of the first option whose enumeration raises, or the domain's length when none does. Every option before it succeeds. |
| Inference.AskEvidenceSpec | bayes_network.py:255-256 | After EnumerationAsk the caller's dictionary has gained at most the query's key. Every other entry is unchanged. It is unchanged when the query was observed. It holds a value of the query's domain when the query is a network variable that was not observed. |
| Inference.Enumerate | bayes_network.py:255-262 | The loop over the query's options answers exactly when no option's enumeration raises, and then has one weight per option, keyed by the options in domain order. |
| Inference.Ask | bayes_network.py:234-262 | Every answer has one weight per value in the query's domain. |
| Inference.RemoveFirst | bayes_network.py:253 | When the value occurs, the result holds the same values with one occurrence of it taken out. |
| Inference.RemoveFirstSpec | bayes_network.py:252-253 | `list.remove` takes out one occurrence of the value, and with distinct entries the value is gone. |
| Inference.PointMassSpec | bayes_network.py:254 | The observed value comes first with weight 1. Every other option follows with weight 0. The keys are a permutation of the options, and the weights add up to 1. |
| Inference.AskObserved | bayes_network.py:251-254 | For an observed query, EnumerationAsk answers exactly when the observed value is in the domain (otherwise `remove` raises). The answer is the point mass on the observed value. |
| Inference.AskUnobservedKeys | bayes_network.py:255-262 | For an unobserved network variable, the answer's keys are the query's options in domain order. |
| Inference.AskKeys | bayes_network.py:249-262 | Every key of an answer is a value of the query's domain. For a variable outside the network the keys are booleans. |
| Inference.AskSucceeds | bayes_network.py:234-262 | With well-formed tables, a topological order and well-typed evidence, EnumerationAsk never raises. |
| Inference.AskMatchesFullEnumeration | bayes_network.py:255-262 | Enumerating only the nodes RemoveBarrenNodes keeps gives the normalized weights of enumerating the whole network, when those weights do not all vanish. |
| Inference.AskIsDistribution | bayes_network.py:234-262 | With calibrated tables every answer is a distribution: its weights are in [0, 1] and add up to 1, or are all 0 when the evidence has probability 0. |
| Inference.EnumerateIsDistribution | bayes_network.py:255-262 | With calibrated tables the normalized weights of the loop over the query's options form a distribution. |
| Inference.AskIgnoresReversedKey | bayes_network.py:248 | Evidence stored under an edge written against sorted order changes no answer of EnumerationAsk. |
| Inference.Get | bayes_network.py:214 | `p[False]` is found exactly when False is a key of the answer, and is the weight stored under it. |
| Inference.AskHasFalse | bayes_network.py:213-214 | Every answer for a vertex or an edge has a False entry, so `p[False]` does not raise. |
| Inference.FalseWeightObservedFalse | bayes_network.py:213-214 | A vertex or an edge already observed False has False-weight 1. |
| Inference.ChainDropsFirst | bayes_network.py:216 | When recording the first query under its key as given changes no later answer, EnumerationAskSet is the first answer times the rest asked without it. |
| Inference.AskSetAsWrittenDropsReversed | bayes_network.py:216 | As written, a first query given against sorted order is recorded where no enumeration reads it. So the rest of the path is answered as if it had not been asked. |
| Inference.AskSetRepeatedReversedEdge | bayes_network.py:200-216 | As written, a reversed edge asked twice scores p·p. The corrected version scores p. |
| Inference.AskSetCanonicalAgree | bayes_network.py:216 | When every query is given in sorted form, the version as written and the corrected one agree. |
| Inference.AskSetRepeated | bayes_network.py:200-216 | Asking for a vertex or an edge twice in a row scores the same as asking once. |
| Inference.AskSetDirectionFree | bayes_network.py:200-216 | The score of a path does not depend on the direction each edge is written in. |
| Inference.AskSetBounds | bayes_network.py:200-216 | With calibrated tables the corrected score of a path is a probability. |
| Inference.AskSetSucceeds | bayes_network.py:200-216 | With well-formed tables, a topological order and well-typed evidence, the corrected scoring of a list of vertices and edges never raises. |
| Inference.AskSetAsWrittenBounds | bayes_network.py:200-216 | With calibrated tables the score EnumerationAskSet computes as written is a probability. |
| Inference.AskSetAsWrittenSucceeds | bayes_network.py:200-216 | With well-formed tables, a topological order and well-typed evidence, EnumerationAskSet as written never raises on a list of vertices and edges. |
| Marginalization.Marginalize | bayes_network.py:283-288 | For an unobserved variable that no variable listed before it is or depends on, summing EnumerationAll with the variable set to each value of its domain gives EnumerationAll with it unobserved. |
| Marginalization.MarginalizeHead | bayes_network.py:286-288 | With the unobserved variable first in the list, that sum is the inner product EnumerationAll takes. |
| ChainRule.MarginalPair | bayes_network.py:264-288 | For a vertex or an edge of the network that is not observed, P(e, True) + P(e, False) = P(e), each a full enumeration of the network. |
| ChainRule.FalseStep | bayes_network.py:234-262 | For a vertex or an edge the evidence does not observe True, EnumerationAsk's False weight exists, and times P(e) it is P(e with the query set False). This holds whether the query is absent from the network, observed False, or unobserved, and also when P(e) is 0. |
| ChainRule.FalseWeightObservedTrue | bayes_network.py:251-254 | A vertex or an edge observed True has False weight 0. |
| ChainRule.UnobservedNonzero | bayes_network.py:255-262 | For an unobserved vertex or edge of the network and evidence of nonzero probability, the False weight is P(e, query False) / P(e). |
| ChainRule.ChainProduct | bayes_network.py:207-216 | For any asker whose False answer is one chain-rule step, the product EnumerationAskSet builds, times the weight of the evidence, is the weight with the queries set False one by one, or 0 from the first query observed True. |
| ChainRule.TargetStepsClosed | bayes_network.py:216 | Setting the queries False one by one is setting them all False at once, or 0 when any of them is observed True. |
| ChainRule.AskSetChainRule | bayes_network.py:200-216 | With well-formed, calibrated tables, a topological order and well-typed evidence, the corrected EnumerationAskSet of vertices and edges answers, and its score times P(e) is P(e, every query False), or 0 when the evidence observes one of them True. |
| ChainRule.AskSetIsConditional | bayes_network.py:200-216 | Under the same conditions and P(e) ≠ 0, the corrected score is exactly P(every query False given e). |
| Paths.PathEdges | bayes_network.py:173 | A path of n ≥ 1 vertices has n - 1 edges; the empty path has none. |
| Paths.AllPathEdges | bayes_network.py:160-174 | One edge list per node path, in the same order. |
| Paths.PathEdgesRoundTrip | bayes_network.py:173 | Walking a path's edge list from its first vertex gives back the path. |
| Paths.SimplePathEdges | bayes_network.py:172-173 | The edge list of a simple path from start to end is not empty. It leaves start and arrives at end. Its edges chain, join grid neighbours, and never repeat a network edge in either direction. |
| Paths.Queries | bayes_network.py:195 | The queries for a path are its edges, in order, as written. |
| Paths.Max | bayes_network.py:197 | Python's `max` of two pairs returns one of them, and neither is greater than it. |
| Paths.PathLessTotal | bayes_network.py:197 | Python's order on edge lists is total. |
| Paths.PathLessTransitive | bayes_network.py:197 | Python's order on edge lists is transitive. |
| Paths.BestSucceeds | bayes_network.py:193-198 | The loop raises exactly when scoring one of the paths raises. |
| Paths.BestIsUpperBound | bayes_network.py:193-198 | The result is not below (0, []) nor below any scored path, so its score is at least every path's score. |
| Paths.BestIsCandidate | bayes_network.py:193-198 | The result is (0, []) or one of the paths with its own score. |
| Paths.BestPathSpec | bayes_network.py:176-198 | FindNonBlockedPath, scoring each path with EnumerationAskSet as written, answers exactly when every path can be scored. Its probability is at least every path's score. The result is (0, []) or one of the paths with that path's score. |
| Paths.ScoredPathsSpec | bayes_network.py:193-198 | For any scoring of paths, the loop answers exactly when every path can be scored, its result is at least every scored path, and it is (0, []) or one of the paths with its own score. |
| Paths.CorrectedBestPathSpec | bayes_network.py:176-198 | With each path scored by the corrected EnumerationAskSet, the loop answers exactly when every path can be scored, its probability is at least every path's score, and the result is (0, []) or a scored path. |
| Paths.BestPathCanonicalAgree | bayes_network.py:195-216 | When every edge of every path is written in sorted order, FindNonBlockedPath as written and the corrected one pick the same pair. |
| BayesNet.BayesNetwork.constructor | bayes_network.py:28-41 | The object keeps the tables and the grid size. Its graph is the network the tables define, and its evidence is empty. |
| BayesNet.BayesNetwork.Copy | bayes_network.py:356 | `cp.deepcopy`: a new object with the same tables, graph and evidence. |
| BayesNet.BayesNetwork.ClearEvidence | bayes_network.py:108-115 | The evidence becomes empty and the graph is unchanged. |
| BayesNet.BayesNetwork.RemoveBarrenNodes | bayes_network.py:351-368 | A fresh copy with the same tables and evidence, whose graph is what the two loops leave. That graph is an induced subgraph of the network that still holds the query. |
| BayesNet.BayesNetwork.EnumerationAsk | bayes_network.py:234-262 | The answer is `Inference.Ask`. The caller's dictionary afterwards is `Inference.AskEvidence`. |
| BayesNet.BayesNetwork.EnumerateOptions | bayes_network.py:255-262 | The loop over the query's options gives the normalized weights over the pruned order, or None when an enumeration raises. The dictionary afterwards holds the last value written. |
| BayesNet.BayesNetwork.FindNonBlockedPath | bayes_network.py:176-198 | The loop, scoring each path with EnumerationAskSet as written, ends with `Paths.BestPath`, whose properties `Paths.BestPathSpec` states. |
| BayesNet.LoopTurn | bayes_network.py:255-261 | One turn of EnumerationAsk's loop. Either it extends queryDict with the next option's weight, or it raises there, leaving that option written in the evidence. |

## Left out

- Rounding: every `round(..., ROUND_DIGITS)` (in `Normalize`, `EnumerationAskSet`, `CPTVertex`, `CPTEdge`) is modelled as the identity, and floats as exact reals.
- networkx: `nx.topological_sort`, `nx.all_simple_paths` and `nx.grid_2d_graph` are not modelled; their results are parameters (`order`, `nodePaths`), and the grid is kept only as its size.
- BayesNet.BayesNetwork.RemoveBarrenNodes: requires only that `order` lists distinct nodes; that it is a topological order is assumed by the soundness lemmas (`PruneSound`, `AskMatchesFullEnumeration`, `AskSucceeds`) instead.
- BayesNet.BayesNetwork.EnumerationAsk: requires the object's graph to be the whole network (`bn == BuildGraph(tables)`), which holds for the object the constructor builds; pruned copies are never asked, and on one the answers would differ (a pruned-away variable gets the absent answer).
- BayesNet.BayesNetwork.FindNonBlockedPath: requires the same, since every score it takes is an EnumerationAsk on the object's own graph; it is not modelled on a pruned copy.
- The order the pruned copy is enumerated in (`nx.topological_sort(barrenBN.bn)`) is taken to be the network's order filtered to the kept nodes. `Pruning.FilterTopological` shows that this is a topological order of the pruned graph. That any other topological order of it gives the same `EnumerationAll` is not proved.
- `EnumerationAsk` takes its query as one variable; the source's one-element list and the `[0]` are not modelled.
- Inference.AskMatchesFullEnumeration: requires the full network's weights not to add up to 0. They add up to 0 exactly when the evidence has probability 0 in the whole network. That can come from the factor pruning drops alone (an observed node the first loop removes, whose observed value has probability 0), and then the pruned weights may still have a nonzero total: `EnumerationAsk` returns them normalized while full enumeration gives all zeros, so the two differ.
- ChainRule.AskSetChainRule: stated for queries that are vertices or edges; for the season `p[False]` raises a `KeyError`, which `Inference.AskSet` models as None, and the chain rule has nothing to say.
- ChainRule.AskSetIsConditional: requires P(e) ≠ 0; when P(e) is 0 the conditional probability is undefined, and `AskSetChainRule` only gives 0 = 0.
- The chain rule is proved for the corrected `EnumerationAskSet`, which records each answered query under its sorted key. As written, the score is the same product only when every query is written in sorted order (`Inference.AskSetCanonicalAgree`).
- `EnumerationAskAll`, `AllSimplePaths`, `HierarchicalLayout`, `InitBN`, the file parser, the GUI (`app.py`, `__main__.py`) and every `print` are not part of this model.
- CptModel.VarCpt: the `KeyError` the source raises for a variable absent from the tables is excluded by a requires (`InTables`); every caller in the model passes network variables.
- The Python types of keys (`str` season, `int` coordinates, nested tuples) are replaced by the `Var` datatype; `isinstance` tests become constructor tests.

## Findings

| source | as written | input that shows it | evidently intended | confidence | as-written member | corrected member |
|---|---|---|---|---|---|---|
| bayes_network.py:216 | Each answered query is recorded as False under `querySet[0]` exactly as given, but every enumeration looks edges up in sorted form, so an edge of the path written against sorted order is recorded where nothing reads it and the later queries are not conditioned on it | the simple path (1,0) → (0,0) → (0,1), whose edges are E1 = ((1,0),(0,0)), written against sorted order, and E2 = ((0,0),(0,1)): E1 = False is recorded under the reversed key, so E2 is asked without it and the score is P(E1 = F)·P(E2 = F) instead of P(E1 = F)·P(E2 = F given E1 = F), which differ because both edges depend on vertex (0,0); in the extreme, the same reversed edge asked twice (`[((1,0),(0,0)), ((1,0),(0,0))]`, P(not blocked) = p) scores p·p instead of p | record each answered edge under its canonical (sorted) key, so the chain rule conditions on it | not executed | Inference.AskSetAsWritten, Inference.AskSetRepeatedReversedEdge, Inference.AskSetAsWrittenDropsReversed, Paths.BestPath, Paths.BestPathSpec | Inference.AskSet, ChainRule.AskSetChainRule, ChainRule.AskSetIsConditional, Inference.AskSetRepeated, Inference.AskSetDirectionFree, Paths.CorrectedBestPath, Paths.CorrectedBestPathSpec |
