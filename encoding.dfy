/** The feature vector of RFest.estimate_duration: the parameter list with the n_jobs and dummy
    translations, the one-row frame, pandas get_dummies with its default naming, the zero-filling
    of schema columns the row did not produce, and the projection onto the schema. */
module Encoding {
  import opened Values
  import opened Outcomes
  import opened Dicts
  import opened Space

  const N_JOBS := "n_jobs"

  /** The entry the feature list gets for parameter `name` whose get_params() value is v:
      n_jobs == -1 becomes the processor count, a dummy variable becomes str(v), the rest is v. */
  function Translate(name: string, v: Value, dummies: seq<string>, numCpu: int): Value {
    if name == N_JOBS then (if IsMinusOne(v) then IntV(numCpu) else v)
    else if name in dummies then StrV(Show(v))
    else v
  }

  /** The "use all processors" sentinel never reaches the encoder as -1 (unless the machine reports
      -1 processors); any other n_jobs value passes unchanged. */
  lemma NumJobsTranslated(v: Value, dummies: seq<string>, numCpu: int)
    ensures IsMinusOne(v) ==> Translate(N_JOBS, v, dummies, numCpu) == IntV(numCpu)
    ensures !IsMinusOne(v) ==> Translate(N_JOBS, v, dummies, numCpu) == v
    ensures numCpu != -1 ==> !IsMinusOne(Translate(N_JOBS, v, dummies, numCpu))
  {
  }

  /** A dummy variable other than n_jobs always becomes a string, so get_dummies always encodes it;
      every other parameter passes as it is. */
  lemma DummiesStringified(name: string, v: Value, dummies: seq<string>, numCpu: int)
    requires name != N_JOBS
    ensures name in dummies ==> Translate(name, v, dummies, numCpu) == StrV(Show(v))
    ensures name !in dummies ==> Translate(name, v, dummies, numCpu) == v
  {
  }

  /** All raw parameter names are answered by get_params(). */
  predicate HasAll(e: Estimator, params: map<string, Value>) {
    forall k :: 0 <= k < |e.rawInputs| ==> e.rawInputs[k] in params
  }

  /** The feature list [n, p, translated parameters in raw_estimation_inputs order]. */
  function Features(e: Estimator, n: int, p: int, params: map<string, Value>): seq<Value>
    requires HasAll(e, params)
  {
    [IntV(n), IntV(p)]
      + seq(|e.rawInputs|, k requires 0 <= k < |e.rawInputs| && HasAll(e, params) =>
          Translate(e.rawInputs[k], params[e.rawInputs[k]], e.dummies, e.numCpu))
  }

  /** The loop over raw_estimation_inputs that builds the feature list; params[name] raises a
      KeyError for the first name get_params() does not answer. */
  method CollectInputs(e: Estimator, n: int, p: int, params: map<string, Value>) returns (r: Result<seq<Value>>)
    ensures r.Ok? <==> HasAll(e, params)
    ensures r.Ok? ==> r.value == Features(e, n, p, params)
    ensures r.Ok? ==>
      && |r.value| == 2 + |e.rawInputs| && r.value[0] == IntV(n) && r.value[1] == IntV(p)
      && forall k :: 0 <= k < |e.rawInputs| ==>
           r.value[k + 2] == Translate(e.rawInputs[k], params[e.rawInputs[k]], e.dummies, e.numCpu)
    ensures r.Err? ==>
      exists m :: 0 <= m < |e.rawInputs| && e.rawInputs[m] !in params
        && (forall k :: 0 <= k < m ==> e.rawInputs[k] in params) && r.error == MissingParameter(e.rawInputs[m])
  {
    var inputs := [IntV(n), IntV(p)];
    var k := 0;
    while k < |e.rawInputs|
      invariant 0 <= k <= |e.rawInputs|
      invariant forall j :: 0 <= j < k ==> e.rawInputs[j] in params
      invariant |inputs| == 2 + k && inputs[0] == IntV(n) && inputs[1] == IntV(p)
      invariant forall j :: 0 <= j < k ==>
        inputs[j + 2] == Translate(e.rawInputs[j], params[e.rawInputs[j]], e.dummies, e.numCpu)
    {
      var name := e.rawInputs[k];
      if name !in params {
        return Err(MissingParameter(name));
      }
      var v := params[name];
      if name == N_JOBS {
        if IsMinusOne(v) {
          inputs := inputs + [IntV(e.numCpu)];
        } else {
          inputs := inputs + [v];
        }
      } else if name in e.dummies {
        inputs := inputs + [StrV(Show(v))];
      } else {
        inputs := inputs + [v];
      }
      k := k + 1;
    }
    r := Ok(inputs);
  }

  /** One column of a one-row frame. */
  datatype Column = Column(name: string, value: Value)

  /** The columns of the one-row frame: num_rows, num_features, then the raw parameter names. */
  function FrameColumns(e: Estimator): seq<string> {
    ["num_rows", "num_features"] + e.rawInputs
  }

  /** pd.DataFrame(dict(zip(names, [[v] for v in inputs])), columns=names). */
  function RawFrame(names: seq<string>, inputs: seq<Value>): (f: seq<Column>)
    requires |names| == |inputs|
    ensures |f| == |names| && forall k :: 0 <= k < |f| ==> f[k].name == names[k]
  {
    var d := ZipDict(names, inputs);
    assert forall k :: 0 <= k < |names| ==> names[k] in d;
    seq(|names|, k requires 0 <= k < |names| && names[k] in d => Column(names[k], d[names[k]]))
  }

  /** With distinct column names, column k of the frame holds entry k of the feature list. */
  lemma RawFrameValues(names: seq<string>, inputs: seq<Value>)
    requires |names| == |inputs|
    requires forall a, b :: 0 <= a < b < |names| ==> names[a] != names[b]
    ensures forall k :: 0 <= k < |names| ==> RawFrame(names, inputs)[k] == Column(names[k], inputs[k])
  {
    forall k | 0 <= k < |names| ensures RawFrame(names, inputs)[k] == Column(names[k], inputs[k]) {
      ZipDictAt(names, inputs, k);
    }
  }

  /** Columns of dtype object (strings, None), the ones get_dummies encodes. */
  predicate IsObject(v: Value) {
    v.StrV? || v.NoneV?
  }

  /** The columns get_dummies keeps as they are: every non-object column, in frame order. */
  function Kept(f: seq<Column>): seq<Column> {
    if f == [] then []
    else (if IsObject(f[0].value) then [] else [f[0]]) + Kept(f[1..])
  }

  /** The indicator columns of get_dummies on a one-row frame: a string value s in column d gives a
      column d_s holding 1; None gives no column (NaN is not a category). */
  function Indicators(f: seq<Column>): seq<Column> {
    if f == [] then []
    else (if f[0].value.StrV? then [Column(f[0].name + "_" + f[0].value.s, IntV(1))] else []) + Indicators(f[1..])
  }

  /** pd.get_dummies(df): the kept columns first, then the indicator columns. */
  function GetDummies(f: seq<Column>): seq<Column> {
    Kept(f) + Indicators(f)
  }

  /** What get_dummies makes of one column of a one-row frame. */
  function Encoded(c: Column): seq<Column> {
    match c.value
    case StrV(s) => [Column(c.name + "_" + s, IntV(1))]
    case NoneV => []
    case _ => [c]
  }

  lemma {:induction false} KeptMember(f: seq<Column>, x: Column)
    ensures x in Kept(f) <==> exists i :: 0 <= i < |f| && !IsObject(f[i].value) && x == f[i]
  {
    if f != [] {
      KeptMember(f[1..], x);
      if exists i :: 0 <= i < |f| && !IsObject(f[i].value) && x == f[i] {
        var i :| 0 <= i < |f| && !IsObject(f[i].value) && x == f[i];
        if i > 0 { assert f[1..][i - 1] == f[i]; }
      }
      if x in Kept(f[1..]) {
        var i :| 0 <= i < |f| - 1 && !IsObject(f[1..][i].value) && x == f[1..][i];
        assert f[i + 1] == x;
      }
    }
  }

  lemma {:induction false} IndicatorsMember(f: seq<Column>, x: Column)
    ensures x in Indicators(f) <==> exists i :: 0 <= i < |f| && f[i].value.StrV? && x in Encoded(f[i])
  {
    if f != [] {
      IndicatorsMember(f[1..], x);
      if exists i :: 0 <= i < |f| && f[i].value.StrV? && x in Encoded(f[i]) {
        var i :| 0 <= i < |f| && f[i].value.StrV? && x in Encoded(f[i]);
        if i > 0 { assert f[1..][i - 1] == f[i]; }
      }
      if x in Indicators(f[1..]) {
        var i :| 0 <= i < |f| - 1 && f[1..][i].value.StrV? && x in Encoded(f[1..][i]);
        assert f[i + 1] == f[1..][i];
      }
    }
  }

  /** Every encoded column comes from one column of the frame, and each column's encoding is there. */
  lemma GetDummiesMember(f: seq<Column>, x: Column)
    ensures x in GetDummies(f) <==> exists i :: 0 <= i < |f| && x in Encoded(f[i])
  {
    KeptMember(f, x);
    IndicatorsMember(f, x);
    if exists i :: 0 <= i < |f| && x in Encoded(f[i]) {
      var i :| 0 <= i < |f| && x in Encoded(f[i]);
      if IsObject(f[i].value) {
        assert f[i].value.StrV?;
      } else {
        assert x == f[i];
      }
    }
  }

  /** After get_dummies every column is numeric. */
  lemma GetDummiesNumeric(f: seq<Column>)
    ensures forall x :: x in GetDummies(f) ==> IsNumeric(x.value)
  {
    forall x | x in GetDummies(f) ensures IsNumeric(x.value) {
      GetDummiesMember(f, x);
    }
  }

  /** df[name] on a frame with possibly repeated names: the first column so named. */
  function Lookup(f: seq<Column>, name: string): Option<Value> {
    if f == [] then None
    else if f[0].name == name then Some(f[0].value)
    else Lookup(f[1..], name)
  }

  /** A name is found exactly when some column carries it, and what is found is such a column's value. */
  lemma {:induction false} LookupSpec(f: seq<Column>, name: string)
    ensures Lookup(f, name).Some? <==> exists i :: 0 <= i < |f| && f[i].name == name
    ensures Lookup(f, name).Some? ==> Column(name, Lookup(f, name).value) in f
  {
    if f != [] {
      LookupSpec(f[1..], name);
      if exists i :: 0 <= i < |f| && f[i].name == name {
        var i :| 0 <= i < |f| && f[i].name == name;
        if i > 0 && f[0].name != name { assert f[1..][i - 1].name == name; }
      }
      if Lookup(f[1..], name).Some? && f[0].name != name {
        var i :| 0 <= i < |f| - 1 && f[1..][i].name == name;
        assert f[i + 1].name == name;
      }
    }
  }

  /** A column appended to a frame is found only if no earlier column has the same name. */
  lemma {:induction false} LookupAppend(f: seq<Column>, g: seq<Column>, name: string)
    ensures Lookup(f + g, name) == if Lookup(f, name).Some? then Lookup(f, name) else Lookup(g, name)
  {
    if f != [] {
      assert (f + g)[1..] == f[1..] + g;
      LookupAppend(f[1..], g, name);
    } else {
      assert f + g == g;
    }
  }

  /** The columns of a frame reconciled with the schema, in schema order: a schema column the frame
      has keeps its (first) value, a schema column it lacks is 0. */
  function Reconciled(schema: seq<string>, df: seq<Column>): (row: seq<Value>)
    ensures |row| == |schema|
  {
    seq(|schema|, k requires 0 <= k < |schema| =>
      match Lookup(df, schema[k])
      case Some(v) => v
      case None => IntV(0))
  }

  /** Expected lookup while the missing schema columns are being added. */
  function Filled(df: seq<Column>, added: seq<string>, name: string): Option<Value> {
    if Lookup(df, name).Some? then Lookup(df, name)
    else if name in added then Some(IntV(0))
    else None
  }

  /** `df[i] = 0` for each schema column the frame lacks, then `df = df[estimation_inputs]`. */
  method Reconcile(schema: seq<string>, df0: seq<Column>) returns (row: seq<Value>)
    ensures row == Reconciled(schema, df0)
  {
    var df := df0;
    var k := 0;
    while k < |schema|
      invariant 0 <= k <= |schema|
      invariant forall name :: Lookup(df, name) == Filled(df0, schema[..k], name)
    {
      var name := schema[k];
      assert schema[..k + 1] == schema[..k] + [name];
      if Lookup(df, name).None? {
        forall other ensures Lookup(df + [Column(name, IntV(0))], other) == Filled(df0, schema[..k + 1], other) {
          LookupAppend(df, [Column(name, IntV(0))], other);
        }
        df := df + [Column(name, IntV(0))];
      }
      k := k + 1;
    }
    assert schema[..|schema|] == schema;
    assert forall j :: 0 <= j < |schema| ==> schema[j] in schema;
    row := seq(|schema|, j requires 0 <= j < |schema| && Lookup(df, schema[j]).Some? => Lookup(df, schema[j]).value);
  }

  /** A schema column that no frame column carries is 0. */
  lemma ReconciledAbsent(schema: seq<string>, df: seq<Column>, k: nat)
    requires k < |schema| && forall i :: 0 <= i < |df| ==> df[i].name != schema[k]
    ensures Reconciled(schema, df)[k] == IntV(0)
  {
    LookupSpec(df, schema[k]);
  }

  /** A schema column carried by the frame gets the value of a frame column of that name. */
  lemma ReconciledPresent(schema: seq<string>, df: seq<Column>, k: nat)
    requires k < |schema| && exists i :: 0 <= i < |df| && df[i].name == schema[k]
    ensures Column(schema[k], Reconciled(schema, df)[k]) in df
  {
    LookupSpec(df, schema[k]);
  }

  /** Reconciling a get_dummies frame gives numbers only. */
  lemma ReconciledIsNumeric(schema: seq<string>, f: seq<Column>)
    ensures forall k :: 0 <= k < |schema| ==> IsNumeric(Reconciled(schema, GetDummies(f))[k])
  {
    GetDummiesNumeric(f);
    forall k | 0 <= k < |schema| ensures IsNumeric(Reconciled(schema, GetDummies(f))[k]) {
      LookupSpec(GetDummies(f), schema[k]);
    }
  }

  lemma SuffixCancel(d: string, s: string, t: string)
    requires d + "_" + s == d + "_" + t
    ensures s == t
  {
    assert (d + "_" + s)[|d| + 1..] == s;
    assert (d + "_" + t)[|d| + 1..] == t;
  }

  /** One-hot: for a dummy field d whose value is the string s, a schema column d_t that no other
      frame column produces is 1 when t is s and 0 otherwise. */
  lemma DummyOneHot(schema: seq<string>, f: seq<Column>, j: nat, k: nat, t: string)
    requires j < |f| && f[j].value.StrV? && k < |schema|
    requires schema[k] == f[j].name + "_" + t
    requires forall i, x :: 0 <= i < |f| && i != j && x in Encoded(f[i]) ==> x.name != schema[k]
    ensures Reconciled(schema, GetDummies(f))[k] == if t == f[j].value.s then IntV(1) else IntV(0)
  {
    var name := schema[k];
    var df := GetDummies(f);
    LookupSpec(df, name);
    if t == f[j].value.s {
      var x := Column(name, IntV(1));
      assert x in Encoded(f[j]);
      GetDummiesMember(f, x);
      var y := Column(name, Lookup(df, name).value);
      GetDummiesMember(f, y);
      var i :| 0 <= i < |f| && y in Encoded(f[i]);
      assert i == j;
    } else {
      forall i | 0 <= i < |df| ensures df[i].name != name {
        GetDummiesMember(f, df[i]);
        var m :| 0 <= m < |f| && df[i] in Encoded(f[m]);
        if m == j {
          if df[i].name == name {
            SuffixCancel(f[j].name, f[j].value.s, t);
          }
        }
      }
    }
  }

  /** A numeric field passes through: its schema column holds its value when no other frame column
      produces that name. */
  lemma NumericPassesThrough(schema: seq<string>, f: seq<Column>, j: nat, k: nat)
    requires j < |f| && IsNumeric(f[j].value) && k < |schema| && schema[k] == f[j].name
    requires forall i, x :: 0 <= i < |f| && i != j && x in Encoded(f[i]) ==> x.name != schema[k]
    ensures Reconciled(schema, GetDummies(f))[k] == f[j].value
  {
    var df := GetDummies(f);
    assert f[j] in Encoded(f[j]);
    GetDummiesMember(f, f[j]);
    LookupSpec(df, schema[k]);
    var y := Column(schema[k], Lookup(df, schema[k]).value);
    GetDummiesMember(f, y);
    var i :| 0 <= i < |f| && y in Encoded(f[i]);
    assert i == j;
  }

  /** Frames that agree except in one field holding a string in both. */
  predicate DifferOnlyIn(f1: seq<Column>, f2: seq<Column>, j: nat) {
    && |f1| == |f2| && j < |f1|
    && f1[j].name == f2[j].name && f1[j].value.StrV? && f2[j].value.StrV?
    && forall i :: 0 <= i < |f1| && i != j ==> f1[i] == f2[i]
  }

  lemma {:induction false} KeptIgnoresCategory(f1: seq<Column>, f2: seq<Column>, j: nat)
    requires DifferOnlyIn(f1, f2, j)
    ensures Kept(f1) == Kept(f2)
  {
    if j == 0 {
      assert f1[1..] == f2[1..];
    } else {
      assert DifferOnlyIn(f1[1..], f2[1..], j - 1) by {
        forall i | 0 <= i < |f1| - 1 && i != j - 1 ensures f1[1..][i] == f2[1..][i] {
          assert f1[i + 1] == f2[i + 1];
        }
      }
      KeptIgnoresCategory(f1[1..], f2[1..], j - 1);
    }
  }

  lemma {:induction false} IndicatorsLookupElsewhere(f1: seq<Column>, f2: seq<Column>, j: nat, name: string)
    requires DifferOnlyIn(f1, f2, j)
    requires name != f1[j].name + "_" + f1[j].value.s && name != f2[j].name + "_" + f2[j].value.s
    ensures Lookup(Indicators(f1), name) == Lookup(Indicators(f2), name)
  {
    if j == 0 {
      assert f1[1..] == f2[1..];
      LookupAppend([Column(f1[0].name + "_" + f1[0].value.s, IntV(1))], Indicators(f1[1..]), name);
      LookupAppend([Column(f2[0].name + "_" + f2[0].value.s, IntV(1))], Indicators(f2[1..]), name);
    } else {
      assert DifferOnlyIn(f1[1..], f2[1..], j - 1) by {
        forall i | 0 <= i < |f1| - 1 && i != j - 1 ensures f1[1..][i] == f2[1..][i] {
          assert f1[i + 1] == f2[i + 1];
        }
      }
      IndicatorsLookupElsewhere(f1[1..], f2[1..], j - 1, name);
      var head := if f1[0].value.StrV? then [Column(f1[0].name + "_" + f1[0].value.s, IntV(1))] else [];
      assert Indicators(f1) == head + Indicators(f1[1..]);
      assert Indicators(f2) == head + Indicators(f2[1..]);
      LookupAppend(head, Indicators(f1[1..]), name);
      LookupAppend(head, Indicators(f2[1..]), name);
    }
  }

  /** Schema stability: two rows that differ only in which category one field has give vectors of
      the schema's width that differ at most in that field's two indicator columns. */
  lemma SchemaStable(schema: seq<string>, f1: seq<Column>, f2: seq<Column>, j: nat)
    requires DifferOnlyIn(f1, f2, j)
    ensures |Reconciled(schema, GetDummies(f1))| == |Reconciled(schema, GetDummies(f2))| == |schema|
    ensures forall k ::
      (0 <= k < |schema| && schema[k] != f1[j].name + "_" + f1[j].value.s
       && schema[k] != f2[j].name + "_" + f2[j].value.s)
      ==> Reconciled(schema, GetDummies(f1))[k] == Reconciled(schema, GetDummies(f2))[k]
  {
    KeptIgnoresCategory(f1, f2, j);
    forall k | 0 <= k < |schema|
      && schema[k] != f1[j].name + "_" + f1[j].value.s && schema[k] != f2[j].name + "_" + f2[j].value.s
      ensures Reconciled(schema, GetDummies(f1))[k] == Reconciled(schema, GetDummies(f2))[k]
    {
      IndicatorsLookupElsewhere(f1, f2, j, schema[k]);
      LookupAppend(Kept(f1), Indicators(f1), schema[k]);
      LookupAppend(Kept(f2), Indicators(f2), schema[k]);
    }
  }
}
