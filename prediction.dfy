/** The prediction of RFest.estimate_duration: the linear meta-model's left-to-right dot product
    over the reconciled feature row, and the whole pipeline from get_params() to the estimate. */
module Prediction {
  import opened Values
  import opened Outcomes
  import opened Space
  import opened Encoding

  /** The algorithm name estimate_duration tests for the linear branch. */
  const LR := "LR"

  /** The numbers of a reconciled row (a True cell counts as 1). */
  function AsReals(row: seq<Value>): (x: seq<real>)
    ensures |x| == |row| && forall k :: 0 <= k < |row| ==> x[k] == AsReal(row[k])
  {
    seq(|row|, k requires 0 <= k < |row| => AsReal(row[k]))
  }

  /** `pred` after the first k steps of the accumulation: coefs[0] + row[0]*coefs[1] + ... + row[k-1]*coefs[k]. */
  function Linear(row: seq<real>, coefs: seq<real>, k: nat): real
    requires k <= |row| && k < |coefs|
  {
    if k == 0 then coefs[0] else Linear(row, coefs, k - 1) + row[k - 1] * coefs[k]
  }

  /** The weighted sum of xs with weights ws, accumulated from the front. */
  function Dot(xs: seq<real>, ws: seq<real>): real
    requires |xs| == |ws|
  {
    if xs == [] then 0.0 else xs[0] * ws[0] + Dot(xs[1..], ws[1..])
  }

  lemma {:induction false} DotSnoc(xs: seq<real>, ws: seq<real>, x: real, w: real)
    requires |xs| == |ws|
    ensures Dot(xs + [x], ws + [w]) == Dot(xs, ws) + x * w
  {
    if xs != [] {
      assert (xs + [x])[1..] == xs[1..] + [x];
      assert (ws + [w])[1..] == ws[1..] + [w];
      DotSnoc(xs[1..], ws[1..], x, w);
    }
  }

  /** The accumulation computes the intercept plus the dot product of the first k features with
      coefficients 1..k. */
  lemma {:induction false} LinearIsInterceptPlusDot(row: seq<real>, coefs: seq<real>, k: nat)
    requires k <= |row| && k < |coefs|
    ensures Linear(row, coefs, k) == coefs[0] + Dot(row[..k], coefs[1..k + 1])
  {
    if k > 0 {
      LinearIsInterceptPlusDot(row, coefs, k - 1);
      assert row[..k] == row[..k - 1] + [row[k - 1]];
      assert coefs[1..k + 1] == coefs[1..k] + [coefs[k]];
      DotSnoc(row[..k - 1], coefs[1..k], row[k - 1], coefs[k]);
    }
  }

  /** Coefficients past the row's width are never read. */
  lemma {:induction false} LinearIgnoresExtraCoefs(row: seq<real>, coefs: seq<real>, k: nat, m: nat)
    requires k <= |row| && k < m <= |coefs|
    ensures Linear(row, coefs, k) == Linear(row, coefs[..m], k)
  {
    if k > 0 {
      LinearIgnoresExtraCoefs(row, coefs, k - 1, m);
    }
  }

  /** An all-zero row predicts the intercept. */
  lemma {:induction false} LinearOfZeroRow(row: seq<real>, coefs: seq<real>, k: nat)
    requires k <= |row| && k < |coefs|
    requires forall i :: 0 <= i < |row| ==> row[i] == 0.0
    ensures Linear(row, coefs, k) == coefs[0]
  {
    if k > 0 {
      LinearOfZeroRow(row, coefs, k - 1);
    }
  }

  /** Changing feature i by delta moves the prediction by delta times coefficient i + 1. */
  lemma {:induction false} LinearSensitivity(row: seq<real>, coefs: seq<real>, k: nat, i: nat, delta: real)
    requires k <= |row| && k < |coefs| && i < k
    ensures Linear(row[i := row[i] + delta], coefs, k) == Linear(row, coefs, k) + delta * coefs[i + 1]
  {
    if k - 1 == i {
      LinearUnchangedBelow(row, coefs, k - 1, i, delta);
    } else {
      LinearSensitivity(row, coefs, k - 1, i, delta);
    }
  }

  /** Steps before feature i do not see a change to it. */
  lemma {:induction false} LinearUnchangedBelow(row: seq<real>, coefs: seq<real>, k: nat, i: nat, delta: real)
    requires k <= i < |row| && k < |coefs|
    ensures Linear(row[i := row[i] + delta], coefs, k) == Linear(row, coefs, k)
  {
    if k > 0 {
      LinearUnchangedBelow(row, coefs, k - 1, i, delta);
    }
  }

  /** `pred = coefs[0]; for i in range(width): pred += row[i] * coefs[i + 1]`; an IndexError at
      index |coefs| when the coefficient list is shorter than width + 1. */
  method PredictLinear(row: seq<real>, coefs: seq<real>) returns (r: Result<real>)
    ensures r.Ok? <==> |coefs| > |row|
    ensures r.Ok? ==> r.value == coefs[0] + Dot(row, coefs[1..|row| + 1])
    ensures r.Err? ==> r.error == CoefficientIndex(|coefs|)
  {
    if |coefs| == 0 {
      return Err(CoefficientIndex(0));
    }
    var pred := coefs[0];
    var i := 0;
    while i < |row|
      invariant 0 <= i <= |row| && i < |coefs|
      invariant pred == Linear(row, coefs, i)
    {
      if i + 1 >= |coefs| {
        return Err(CoefficientIndex(i + 1));
      }
      pred := pred + row[i] * coefs[i + 1];
      i := i + 1;
    }
    LinearIsInterceptPlusDot(row, coefs, |row|);
    assert row[..|row|] == row;
    r := Ok(pred);
  }

  /** The reconciled feature row estimate_duration hands to the meta-model. */
  function FeatureRow(e: Estimator, n: int, p: int, params: map<string, Value>): (row: seq<Value>)
    requires HasAll(e, params)
    ensures |row| == |e.schema|
    ensures forall k :: 0 <= k < |row| ==> IsNumeric(row[k])
  {
    var f := GetDummies(RawFrame(FrameColumns(e), Features(e, n, p, params)));
    ReconciledIsNumeric(e.schema, RawFrame(FrameColumns(e), Features(e, n, p, params)));
    Reconciled(e.schema, f)
  }

  /** The LR branch of estimate_duration on a reconciled row. */
  function LinearPrediction(row: seq<real>, coefs: seq<real>): Result<real> {
    if |coefs| > |row| then Ok(coefs[0] + Dot(row, coefs[1..|row| + 1]))
    else Err(CoefficientIndex(|coefs|))
  }

  /** Whatever the row holds, the LR estimate is defined exactly when there is at least one
      coefficient more than row entries, and it is then the left-to-right accumulation. */
  lemma LinearPredictionDefined(row: seq<real>, coefs: seq<real>)
    ensures LinearPrediction(row, coefs).Ok? <==> |coefs| >= |row| + 1
    ensures |coefs| >= |row| + 1 ==> LinearPrediction(row, coefs) == Ok(Linear(row, coefs, |row|))
  {
    if |coefs| >= |row| + 1 {
      LinearIsInterceptPlusDot(row, coefs, |row|);
      assert row[..|row|] == row;
    }
  }

  /** estimate_duration(X, algo) for X of shape (n, p) and params = algo.get_params(); the lr_coefs
      list and the RF estimator's predict are given. */
  method EstimateDuration(e: Estimator, n: int, p: int, params: map<string, Value>,
                          coefs: seq<real>, forest: seq<real> -> real) returns (r: Result<real>)
    ensures !HasAll(e, params) ==>
      && r.Err?
      && exists m :: 0 <= m < |e.rawInputs| && e.rawInputs[m] !in params
           && (forall k :: 0 <= k < m ==> e.rawInputs[k] in params) && r.error == MissingParameter(e.rawInputs[m])
    ensures HasAll(e, params) && e.algo == LR ==> r == LinearPrediction(AsReals(FeatureRow(e, n, p, params)), coefs)
    ensures HasAll(e, params) && e.algo != LR ==> r == Ok(forest(AsReals(FeatureRow(e, n, p, params))))
  {
    var collected := CollectInputs(e, n, p, params);
    if collected.Err? {
      return Err(collected.error);
    }
    var inputs := collected.value;
    var df := RawFrame(FrameColumns(e), inputs);
    df := GetDummies(df);
    var row := Reconcile(e.schema, df);
    var x := AsReals(row);
    if e.algo == LR {
      r := PredictLinear(x, coefs);
    } else {
      r := Ok(forest(x));
    }
  }

  /** n_jobs = -1 predicts as if the processor count had been passed explicitly. */
  lemma SentinelMeansAllProcessors(e: Estimator, n: int, p: int, params: map<string, Value>)
    requires HasAll(e, params) && N_JOBS in params && IsMinusOne(params[N_JOBS])
    ensures HasAll(e, params[N_JOBS := IntV(e.numCpu)])
    ensures FeatureRow(e, n, p, params) == FeatureRow(e, n, p, params[N_JOBS := IntV(e.numCpu)])
  {
    var explicit := params[N_JOBS := IntV(e.numCpu)];
    assert HasAll(e, explicit);
    assert Features(e, n, p, params) == Features(e, n, p, explicit) by {
      forall k | 0 <= k < |e.rawInputs|
        ensures Translate(e.rawInputs[k], params[e.rawInputs[k]], e.dummies, e.numCpu)
             == Translate(e.rawInputs[k], explicit[e.rawInputs[k]], e.dummies, e.numCpu)
      {
      }
    }
  }

  /** With distinct frame column names, column k + 2 of the one-row frame holds the translated
      value of parameter k, and columns 0 and 1 hold n and p. */
  lemma FrameHoldsFeatures(e: Estimator, n: int, p: int, params: map<string, Value>)
    requires HasAll(e, params)
    requires var names := FrameColumns(e); forall a, b :: 0 <= a < b < |names| ==> names[a] != names[b]
    ensures var f := RawFrame(FrameColumns(e), Features(e, n, p, params));
      && f[0] == Column("num_rows", IntV(n)) && f[1] == Column("num_features", IntV(p))
      && forall k :: 0 <= k < |e.rawInputs| ==>
           f[k + 2] == Column(e.rawInputs[k], Translate(e.rawInputs[k], params[e.rawInputs[k]], e.dummies, e.numCpu))
  {
    RawFrameValues(FrameColumns(e), Features(e, n, p, params));
  }

  /** Changing one dummy parameter changes entry m + 2 of the feature list, from one string to another. */
  lemma CategoryFeaturesDiffer(e: Estimator, n: int, p: int, params: map<string, Value>, m: nat, v: Value)
    requires HasAll(e, params)
    requires forall a, b :: 0 <= a < b < |e.rawInputs| ==> e.rawInputs[a] != e.rawInputs[b]
    requires m < |e.rawInputs| && e.rawInputs[m] != N_JOBS && e.rawInputs[m] in e.dummies
    ensures HasAll(e, params[e.rawInputs[m] := v])
    ensures var x1 := Features(e, n, p, params); var x2 := Features(e, n, p, params[e.rawInputs[m] := v]);
      && |x1| == |x2| == |e.rawInputs| + 2
      && x1[m + 2] == StrV(Show(params[e.rawInputs[m]])) && x2[m + 2] == StrV(Show(v))
      && forall i :: 0 <= i < |x1| && i != m + 2 ==> x1[i] == x2[i]
  {
    var changed := params[e.rawInputs[m] := v];
    assert HasAll(e, changed);
  }

  /** With distinct names, frames built from lists that differ in one entry differ in that column only. */
  lemma RawFramesDiffer(names: seq<string>, x1: seq<Value>, x2: seq<Value>, j: nat)
    requires |names| == |x1| == |x2| && j < |names|
    requires forall a, b :: 0 <= a < b < |names| ==> names[a] != names[b]
    requires forall i :: 0 <= i < |x1| && i != j ==> x1[i] == x2[i]
    requires x1[j].StrV? && x2[j].StrV?
    ensures DifferOnlyIn(RawFrame(names, x1), RawFrame(names, x2), j)
    ensures RawFrame(names, x1)[j] == Column(names[j], x1[j]) && RawFrame(names, x2)[j] == Column(names[j], x2[j])
  {
    RawFrameValues(names, x1);
    RawFrameValues(names, x2);
  }

  /** Changing one dummy parameter changes one column of the one-row frame, from one string to another. */
  lemma CategoryFramesDiffer(e: Estimator, n: int, p: int, params: map<string, Value>, m: nat, v: Value)
    requires HasAll(e, params)
    requires var names := FrameColumns(e); forall a, b :: 0 <= a < b < |names| ==> names[a] != names[b]
    requires m < |e.rawInputs| && e.rawInputs[m] != N_JOBS && e.rawInputs[m] in e.dummies
    ensures HasAll(e, params[e.rawInputs[m] := v])
    ensures var f1 := RawFrame(FrameColumns(e), Features(e, n, p, params));
      var f2 := RawFrame(FrameColumns(e), Features(e, n, p, params[e.rawInputs[m] := v]));
      && DifferOnlyIn(f1, f2, m + 2)
      && f1[m + 2] == Column(e.rawInputs[m], StrV(Show(params[e.rawInputs[m]])))
      && f2[m + 2] == Column(e.rawInputs[m], StrV(Show(v)))
  {
    var names := FrameColumns(e);
    assert forall a, b :: 0 <= a < b < |e.rawInputs| ==> e.rawInputs[a] != e.rawInputs[b] by {
      forall a, b | 0 <= a < b < |e.rawInputs| ensures e.rawInputs[a] != e.rawInputs[b] {
        assert names[a + 2] == e.rawInputs[a] && names[b + 2] == e.rawInputs[b];
      }
    }
    CategoryFeaturesDiffer(e, n, p, params, m, v);
    var x1 := Features(e, n, p, params);
    var x2 := Features(e, n, p, params[e.rawInputs[m] := v]);
    RawFramesDiffer(names, x1, x2, m + 2);
  }

  /** Schema stability for parameters: changing the value of one dummy parameter changes the
      feature vector at most in the two indicator columns of the old and the new category. */
  lemma CategoryStable(e: Estimator, n: int, p: int, params: map<string, Value>, m: nat, v: Value)
    requires HasAll(e, params)
    requires var names := FrameColumns(e); forall a, b :: 0 <= a < b < |names| ==> names[a] != names[b]
    requires m < |e.rawInputs| && e.rawInputs[m] != N_JOBS && e.rawInputs[m] in e.dummies
    ensures HasAll(e, params[e.rawInputs[m] := v])
    ensures var d := e.rawInputs[m];
      var r1 := FeatureRow(e, n, p, params);
      var r2 := FeatureRow(e, n, p, params[d := v]);
      forall k :: (0 <= k < |e.schema| && e.schema[k] != d + "_" + Show(params[d])
                   && e.schema[k] != d + "_" + Show(v)) ==> r1[k] == r2[k]
  {
    CategoryFramesDiffer(e, n, p, params, m, v);
    var d := e.rawInputs[m];
    var f1 := RawFrame(FrameColumns(e), Features(e, n, p, params));
    var f2 := RawFrame(FrameColumns(e), Features(e, n, p, params[d := v]));
    SchemaStable(e.schema, f1, f2, m + 2);
  }
}
