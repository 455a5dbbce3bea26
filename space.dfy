/** RFest._check_feature_condition: the one structural constraint checked before a benchmark fit. */
module Feasibility {
  import opened Values

  /** A max_features value f is usable with p features: a value that is not an int (a string such as
      'auto', a float, a bool, None) always passes, an int passes only when it does not exceed p. */
  predicate FeatureCondition(f: Value, p: int)
    ensures FeatureCondition(f, p) <==> (f.IntV? ==> f.i <= p)
  {
    if !f.IntV? then true
    else if f.i <= p then true
    else false
  }

  /** Adding features never makes a feasible max_features value infeasible. */
  lemma FeatureConditionMonotone(f: Value, p: int, q: int)
    requires p <= q && FeatureCondition(f, p)
    ensures FeatureCondition(f, q)
  {
  }
}

/** The declared search space of RFest and the estimator's fixed settings. */
module Space {
  import opened Values
  import Product

  /** The fourteen ranges handed to itertools.product, in the order the source lists them. */
  datatype SearchSpace = SearchSpace(
    rows: seq<int>,                     // rows_range
    features: seq<int>,                 // inputs_range
    nEstimators: seq<Value>,            // n_estimators_range
    maxDepth: seq<Value>,               // max_depth_range
    minSamplesSplit: seq<Value>,        // min_samples_split_range
    minSamplesLeaf: seq<Value>,         // min_samples_leaf_range
    minWeightFractionLeaf: seq<Value>,  // min_weight_fraction_leaf_range
    maxFeatures: seq<Value>,            // max_features_range
    maxLeafNodes: seq<Value>,           // max_leaf_nodes_range
    minImpuritySplit: seq<Value>,       // min_impurity_split_range
    minImpurityDecrease: seq<Value>,    // min_impurity_decrease_range
    bootstrap: seq<Value>,              // bootstrap
    oobScore: seq<Value>,               // oob_score
    nJobs: seq<Value>)                  // n_jobs_range

  /** Positions in a configuration tuple. */
  const WIDTH := 14
  const ROWS_AT := 0
  const FEATURES_AT := 1
  const PARAMETERS_FROM := 2
  const MAX_FEATURES_AT := 7

  /** The settings of one RFest object; none of them changes after construction. */
  datatype Estimator = Estimator(
    rawInputs: seq<string>,  // raw_estimation_inputs: parameter names in generation order
    schema: seq<string>,     // estimation_inputs: the feature schema of the meta-model
    dropRate: real,          // drop_rate
    space: SearchSpace,
    algo: string,            // algo_estimator
    numCpu: int,             // os.cpu_count(), resolved once
    dummies: seq<string>)    // dummy_variables

  const ROWS_RANGE: seq<int> := [100, 1000, 10000]
  const INPUTS_RANGE: seq<int> := [5, 50, 100]
  const N_ESTIMATORS_RANGE := [IntV(10), IntV(50), IntV(100)]
  const MAX_DEPTH_RANGE := [IntV(10), IntV(50), IntV(100)]
  const MIN_SAMPLES_SPLIT_RANGE := [IntV(2), IntV(4), IntV(10)]
  const MIN_SAMPLES_LEAF_RANGE := [IntV(1), IntV(5), IntV(10)]
  const MIN_WEIGHT_FRACTION_LEAF_RANGE := [RealV(0.1), RealV(0.25), RealV(0.5)]
  const MAX_FEATURES_RANGE := [StrV("auto"), IntV(10)]
  const MAX_LEAF_NODES_RANGE := [IntV(2), IntV(4), IntV(10)]
  const MIN_IMPURITY_SPLIT_RANGE := [IntV(1), IntV(5), IntV(10)]
  const MIN_IMPURITY_DECREASE_RANGE := [IntV(1), IntV(5), IntV(10)]
  const BOOTSTRAP := [BoolV(true), BoolV(false)]
  const OOB_SCORE := [BoolV(false)]
  const N_JOBS_RANGE := [IntV(1), IntV(2), IntV(5), IntV(8)]
  const DROP_RATE := 0.9
  const ALGO_ESTIMATOR := "LR"
  const DUMMY_VARIABLES := ["max_features"]

  const DEFAULT_SPACE := SearchSpace(
    ROWS_RANGE, INPUTS_RANGE, N_ESTIMATORS_RANGE, MAX_DEPTH_RANGE, MIN_SAMPLES_SPLIT_RANGE,
    MIN_SAMPLES_LEAF_RANGE, MIN_WEIGHT_FRACTION_LEAF_RANGE, MAX_FEATURES_RANGE, MAX_LEAF_NODES_RANGE,
    MIN_IMPURITY_SPLIT_RANGE, MIN_IMPURITY_DECREASE_RANGE, BOOTSTRAP, OOB_SCORE, N_JOBS_RANGE)

  /** RFest() with every default; the two name lists (read from files) and the processor count are given. */
  function DefaultEstimator(rawInputs: seq<string>, schema: seq<string>, numCpu: int): Estimator {
    Estimator(rawInputs, schema, DROP_RATE, DEFAULT_SPACE, ALGO_ESTIMATOR, numCpu, DUMMY_VARIABLES)
  }

  function IntValues(xs: seq<int>): (vs: seq<Value>)
    ensures |vs| == |xs| && forall k :: 0 <= k < |xs| ==> vs[k] == IntV(xs[k])
  {
    seq(|xs|, k requires 0 <= k < |xs| => IntV(xs[k]))
  }

  /** The argument list of itertools.product: rows, features, then the hyperparameters. */
  function Ranges(s: SearchSpace): (rs: seq<seq<Value>>)
    ensures |rs| == WIDTH
  {
    [IntValues(s.rows), IntValues(s.features), s.nEstimators, s.maxDepth, s.minSamplesSplit,
     s.minSamplesLeaf, s.minWeightFractionLeaf, s.maxFeatures, s.maxLeafNodes, s.minImpuritySplit,
     s.minImpurityDecrease, s.bootstrap, s.oobScore, s.nJobs]
  }

  /** Every configuration, in the order the generation loop visits them. */
  function Universe(s: SearchSpace): seq<seq<Value>> {
    Product.Product(Ranges(s))
  }

  /** A configuration tuple whose row and feature counts are ints. */
  predicate Shaped(c: seq<Value>) {
    |c| == WIDTH && c[ROWS_AT].IntV? && c[FEATURES_AT].IntV?
  }

  /** A configuration is visited exactly when each of its fourteen entries comes from its range. */
  lemma UniverseMember(s: SearchSpace, c: seq<Value>)
    ensures c in Universe(s) <==> |c| == WIDTH && forall k :: 0 <= k < WIDTH ==> c[k] in Ranges(s)[k]
  {
    Product.ProductMember(Ranges(s), c);
  }

  lemma UniverseShaped(s: SearchSpace)
    ensures forall c :: c in Universe(s) ==> Shaped(c)
  {
    forall c | c in Universe(s) ensures Shaped(c) {
      UniverseMember(s, c);
      assert c[ROWS_AT] in IntValues(s.rows) && c[FEATURES_AT] in IntValues(s.features);
    }
  }

  /** The number of configurations visited is the product of the fourteen range lengths. */
  lemma UniverseSize(s: SearchSpace)
    ensures |Universe(s)| == |s.rows| * (|s.features| * (|s.nEstimators| * (|s.maxDepth| * (|s.minSamplesSplit| * (|s.minSamplesLeaf| * (|s.minWeightFractionLeaf| * (|s.maxFeatures| * (|s.maxLeafNodes| * (|s.minImpuritySplit| * (|s.minImpurityDecrease| * (|s.bootstrap| * (|s.oobScore| * |s.nJobs|))))))))))))
  {
    var rs := Ranges(s);
    Product.ProductLength(rs);
    assert rs[14..] == [];
    Product.SizeStep(rs, 13);
    Product.SizeStep(rs, 12);
    Product.SizeStep(rs, 11);
    Product.SizeStep(rs, 10);
    Product.SizeStep(rs, 9);
    Product.SizeStep(rs, 8);
    Product.SizeStep(rs, 7);
    Product.SizeStep(rs, 6);
    Product.SizeStep(rs, 5);
    Product.SizeStep(rs, 4);
    Product.SizeStep(rs, 3);
    Product.SizeStep(rs, 2);
    Product.SizeStep(rs, 1);
    Product.SizeStep(rs, 0);
    assert rs[0..] == rs;
  }

  /** The fourteen range lengths. */
  function Lengths(s: SearchSpace): seq<nat> {
    [|s.rows|, |s.features|, |s.nEstimators|, |s.maxDepth|, |s.minSamplesSplit|, |s.minSamplesLeaf|,
     |s.minWeightFractionLeaf|, |s.maxFeatures|, |s.maxLeafNodes|, |s.minImpuritySplit|,
     |s.minImpurityDecrease|, |s.bootstrap|, |s.oobScore|, |s.nJobs|]
  }

  /** The default ranges (and any with the same lengths) span 944784 = 3^10 * 2 * 2 * 1 * 4 configurations. */
  lemma DefaultUniverseSize(s: SearchSpace)
    requires Lengths(s) == Lengths(DEFAULT_SPACE)
    ensures |Universe(s)| == 944784
  {
    UniverseSize(s);
    assert Lengths(s)[0] == 3;
  }

  /** RFest() with every default enumerates 944784 configurations, whatever name lists it reads; only
      the feasible ones whose draw exceeds drop_rate are then fitted (Generation.RecordedIndicesSpec). */
  lemma DefaultEstimatorUniverseSize(rawInputs: seq<string>, schema: seq<string>, numCpu: int)
    ensures |Universe(DefaultEstimator(rawInputs, schema, numCpu).space)| == 944784
  {
    DefaultUniverseSize(DefaultEstimator(rawInputs, schema, numCpu).space);
  }
}
