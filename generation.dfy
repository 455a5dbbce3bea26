/** The product/filter/append loop of RFest._generate_data. The uniform draws and the measured
    fit times are injected: draws[k] is the value np.random.uniform() returns for configuration k,
    and measure(n, p, parameters) is the duration _measure_time reports for that fit. */
module Generation {
  import opened Values
  import opened Outcomes
  import opened Dicts
  import opened Space
  import opened Feasibility

  /** The keyword arguments of the benchmark fit: dict(zip(raw_estimation_inputs, permutation[2:])). */
  function FitParameters(names: seq<string>, c: seq<Value>): map<string, Value>
    requires |c| >= PARAMETERS_FROM
  {
    ZipDict(names, c[PARAMETERS_FROM..])
  }

  /** With distinct names, name i is bound to entry i + 2 of the configuration, for every name
      that has an entry; the dictionary binds no other names. */
  lemma FitParametersAt(names: seq<string>, c: seq<Value>, i: nat)
    requires |c| == WIDTH && i < |names| && i < WIDTH - PARAMETERS_FROM
    requires forall a, b :: 0 <= a < b < |names| ==> names[a] != names[b]
    ensures names[i] in FitParameters(names, c) && FitParameters(names, c)[names[i]] == c[i + PARAMETERS_FROM]
    ensures FitParameters(names, c).Keys == set j | 0 <= j < Min(|names|, WIDTH - PARAMETERS_FROM) :: names[j]
  {
    ZipDictAt(names, c[PARAMETERS_FROM..], i);
  }

  /** The two nested conditions of the loop: the draw exceeds drop_rate and max_features fits the
      feature count. (Shaped holds of every configuration visited, see Space.UniverseShaped.) */
  predicate Recorded(c: seq<Value>, draw: real, dropRate: real) {
    Shaped(c) && draw > dropRate && FeatureCondition(c[MAX_FEATURES_AT], c[FEATURES_AT].i)
  }

  /** The measured duration of a recorded configuration. */
  function Duration(measure: (int, int, map<string, Value>) -> real, names: seq<string>, c: seq<Value>): real
    requires Shaped(c)
  {
    measure(c[ROWS_AT].i, c[FEATURES_AT].i, FitParameters(names, c))
  }

  /** Positions, among the first k configurations, of those the loop records, in visiting order. */
  function RecordedIndices(u: seq<seq<Value>>, draws: seq<real>, dropRate: real, k: nat): (idx: seq<nat>)
    requires k <= |u| && k <= |draws|
    ensures |idx| <= k && forall j :: 0 <= j < |idx| ==> idx[j] < k
  {
    if k == 0 then []
    else
      var earlier := RecordedIndices(u, draws, dropRate, k - 1);
      if Recorded(u[k - 1], draws[k - 1], dropRate) then earlier + [k - 1] else earlier
  }

  /** A configuration is recorded exactly when its draw exceeds drop_rate and it is feasible;
      the recorded positions are strictly increasing, so the records keep the visiting order. */
  lemma {:induction false} RecordedIndicesSpec(u: seq<seq<Value>>, draws: seq<real>, dropRate: real, k: nat)
    requires k <= |u| && k <= |draws|
    ensures var idx := RecordedIndices(u, draws, dropRate, k);
      && (forall j :: 0 <= j < |idx| ==> idx[j] < k)
      && (forall a, b :: 0 <= a < b < |idx| ==> idx[a] < idx[b])
      && (forall i :: 0 <= i < k ==> (i in idx <==> Recorded(u[i], draws[i], dropRate)))
  {
    if k > 0 {
      RecordedIndicesSpec(u, draws, dropRate, k - 1);
    }
  }

  /** When every draw passes and every configuration is feasible, every configuration is recorded. */
  lemma {:induction false} EverythingRecorded(u: seq<seq<Value>>, draws: seq<real>, dropRate: real, k: nat)
    requires k <= |u| && k <= |draws|
    requires forall i :: 0 <= i < k ==> Recorded(u[i], draws[i], dropRate)
    ensures RecordedIndices(u, draws, dropRate, k) == seq(k, i => i)
  {
    if k > 0 {
      EverythingRecorded(u, draws, dropRate, k - 1);
    }
  }

  /** The loop of _generate_data: walk the product, draw, filter, measure, append to both lists. */
  method GenerateData(e: Estimator, draws: seq<real>, measure: (int, int, map<string, Value>) -> real)
    returns (inputs: seq<seq<Value>>, outputs: seq<real>)
    requires |draws| == |Universe(e.space)|
    ensures |inputs| == |outputs|
    ensures var u := Universe(e.space); var idx := RecordedIndices(u, draws, e.dropRate, |u|);
      && |inputs| == |idx|
      && forall j :: 0 <= j < |idx| ==> inputs[j] == u[idx[j]]
    ensures forall j :: 0 <= j < |inputs| ==>
      && inputs[j] in Universe(e.space)
      && Shaped(inputs[j])
      && FeatureCondition(inputs[j][MAX_FEATURES_AT], inputs[j][FEATURES_AT].i)
      && outputs[j] == Duration(measure, e.rawInputs, inputs[j])
  {
    var u := Universe(e.space);
    UniverseShaped(e.space);
    inputs, outputs := [], [];
    var k := 0;
    while k < |u|
      invariant 0 <= k <= |u|
      invariant var idx := RecordedIndices(u, draws, e.dropRate, k);
        && |inputs| == |idx| == |outputs|
        && forall j :: 0 <= j < |idx| ==>
             (inputs[j] == u[idx[j]] && Shaped(inputs[j])
              && FeatureCondition(inputs[j][MAX_FEATURES_AT], inputs[j][FEATURES_AT].i)
              && outputs[j] == Duration(measure, e.rawInputs, inputs[j]))
    {
      var permutation := u[k];
      assert permutation in u;
      var n := permutation[ROWS_AT].i;
      var p := permutation[FEATURES_AT].i;
      var f := permutation[MAX_FEATURES_AT];
      var parameters := FitParameters(e.rawInputs, permutation);
      var randomValue := draws[k];
      if randomValue > e.dropRate {
        if FeatureCondition(f, p) {
          var output := measure(n, p, parameters);
          outputs := outputs + [output];
          inputs := inputs + [permutation];
        }
      }
      k := k + 1;
    }
  }

  /** The inputs frame: one row per recorded configuration under the columns
      num_rows, num_features and the raw parameter names. */
  datatype Table = Table(columns: seq<string>, rows: seq<seq<Value>>)

  /** pd.DataFrame(inputs, columns=...): refused with a ValueError when there are rows and the
      number of column names differs from the tuple width. */
  function InputTable(rows: seq<seq<Value>>, names: seq<string>): (r: Result<Table>)
    requires forall j :: 0 <= j < |rows| ==> |rows[j]| == WIDTH
    ensures r.Ok? <==> (rows == [] || |names| + 2 == WIDTH)
    ensures r.Ok? ==> r.value.columns == ["num_rows", "num_features"] + names && r.value.rows == rows
    ensures r.Err? ==> r.error == ColumnCount(|names| + 2, WIDTH)
  {
    if rows != [] && |names| + 2 != WIDTH then Err(ColumnCount(|names| + 2, WIDTH))
    else Ok(Table(["num_rows", "num_features"] + names, rows))
  }

  /** The saved frame labels each row as the timed fit received it: with twelve distinct names,
      column i + 2 is named names[i] and holds, in every row, the value the fit was given for it. */
  lemma TableColumnsMatchFit(rows: seq<seq<Value>>, names: seq<string>, j: nat, i: nat)
    requires forall r :: 0 <= r < |rows| ==> |rows[r]| == WIDTH
    requires |names| == WIDTH - PARAMETERS_FROM
    requires forall a, b :: 0 <= a < b < |names| ==> names[a] != names[b]
    requires j < |rows| && i < |names|
    ensures InputTable(rows, names).Ok?
    ensures var t := InputTable(rows, names).value;
      && t.columns[i + PARAMETERS_FROM] == names[i]
      && names[i] in FitParameters(names, rows[j])
      && t.rows[j][i + PARAMETERS_FROM] == FitParameters(names, rows[j])[names[i]]
  {
    FitParametersAt(names, rows[j], i);
  }

  /** The end-to-end scenario of two row counts, two feature counts and one boolean
      hyperparameter with drop_rate 0: when no draw is exactly 0, all 8 configurations are recorded. */
  lemma ScenarioRecordsAll(s: SearchSpace, draws: seq<real>)
    requires Lengths(s) == [2, 2, 1, 1, 1, 1, 1, 1, 1, 1, 1, 2, 1, 1]
    requires s.maxFeatures == [StrV("auto")]
    requires |draws| == |Universe(s)| && forall i :: 0 <= i < |draws| ==> draws[i] > 0.0
    ensures |Universe(s)| == 8
    ensures RecordedIndices(Universe(s), draws, 0.0, |draws|) == seq(8, i => i)
  {
    UniverseSize(s);
    assert Lengths(s)[0] == 2;
    var u := Universe(s);
    UniverseShaped(s);
    forall i | 0 <= i < |u| ensures Recorded(u[i], draws[i], 0.0) {
      UniverseMember(s, u[i]);
      assert u[i][MAX_FEATURES_AT] in s.maxFeatures;
    }
    EverythingRecorded(u, draws, 0.0, |u|);
  }
}
