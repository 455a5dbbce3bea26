# RFest runtime estimator: a verified model

`scikest/main.py` defines `RFest`. This class benchmarks a random forest over a grid of
hyperparameters and learns a meta-model of training time. It then estimates how long a given
fit will take. This project models the deterministic logic of that class and proves
properties of the model:

- the feasibility predicate `_check_feature_condition`;
- the enumeration, thinning and recording loop of `_generate_data`, over the 14 ranges in
  `itertools.product` order;
- the feature-vector construction of `estimate_duration`:
  - the `[n, p, params...]` list, with the `n_jobs = -1` sentinel and dummy stringification;
  - the one-row frame and pandas `get_dummies` with its default `name_value` columns;
  - zero-filling of the schema columns that were not produced, and projection onto
    `estimation_inputs`;
- the linear meta-model's dot product, and the dispatch to an opaque forest predictor.

Files:

- `values.dfy`: Python values, `str()` of ints and floats, error kinds, and `dict(zip(...))`.
- `product.dfy`: `itertools.product` order.
- `space.dfy`: the feasibility predicate, the default ranges and the configuration universe.
- `generation.dfy`: the `_generate_data` loop.
- `encoding.dfy`: the feature list, the frame, `get_dummies` and reconciliation.
- `prediction.dfy`: the LR prediction and `estimate_duration` end to end.

An `RFest` object never changes its fields after `__init__`. It is therefore the datatype
`Space.Estimator`. The loops of the source are methods proved against specification functions:

- `Generation.GenerateData`
- `Encoding.CollectInputs`
- `Encoding.Reconcile`
- `Prediction.PredictLinear`
- `Prediction.EstimateDuration`

Things that cannot be computed are passed in as inputs:

- the random draws: `draws[k]` is the uniform value drawn for configuration `k`;
- the measured fit time: a function `measure(n, p, parameters)`;
- the processor count: `Estimator.numCpu`;
- the two name lists read from `inputs/*.txt`: `rawInputs` and `schema`;
- the persisted LR coefficients: `coefs`;
- the RF estimator's `predict`: a function `forest`.

The model follows what the code does, including where a reader might expect otherwise:

- The LR branch does not check the coefficient list's width against the schema. Extra
  coefficients are ignored. Too few raise an IndexError (`Outcomes.Error.CoefficientIndex`,
  index `|coefs|`).
- A draw of exactly `0.0` is dropped even when `drop_rate` is 0, because the test is strict
  (`random_value > drop_rate`).
- A benchmark fit that raises is not caught, so it is not skipped and logged; it ends the run.
- The rule that `oob_score` needs `bootstrap` is only a comment (scikest/main.py:37). It is not
  enforced.

## Model

| member | source | states |
|---|---|---|
| Feasibility.FeatureCondition | scikest/main.py:78-92 | A `max_features` value passes with `p` features exactly when it is not an int, or is an int no greater than `p`. |
| Feasibility.FeatureConditionMonotone | scikest/main.py:86-92 | A value that passes with `p` features still passes with more features. |
| Values.Show | scikest/main.py:256-258 | Renders `str(params[i])` for an int, a string, a bool, a float or None. |
| Values.IsMinusOne | scikest/main.py:250 | Renders `params[i] == -1`: an int or a float equal to minus one (never a bool or a string). |
| Values.IntToStringRoundTrip | scikest/main.py:258 | Reading back `str()` of an int gives the int. |
| Values.IntToStringInjective | scikest/main.py:258 | Distinct ints have distinct `str()`. |
| Values.ShowIntInjective | scikest/main.py:256-258 | Distinct int categories of a dummy field give distinct dummy column names. |
| Values.ShowSeparatesIntFromFloat | scikest/main.py:256-258 | `str()` of an int never equals `str()` of a float, so `10` and `10.0` make different dummy columns. |
| Values.RealToString | scikest/main.py:258 | `str()` of a float written in fixed-point notation always contains a decimal point. |
| Dicts.ZipDict | scikest/main.py:147 | The keys of `dict(zip(keys, values))` are exactly the keys at positions below the shorter length. |
| Dicts.ZipDictAt | scikest/main.py:147 | A key that does not recur later in the zipped prefix maps to the value at its own position. |
| Product.Product | scikest/main.py:127-141 | Renders `itertools.product` over a list of ranges, first range slowest. |
| Product.ProductLength | scikest/main.py:127-141 | The product has as many tuples as the product of the range lengths. |
| Product.ProductMember | scikest/main.py:127-141 | A tuple is in the product exactly when it has one entry per range, and each entry comes from its range. |
| Product.ProductAt | scikest/main.py:127-141 | In `itertools.product` order, tuple `i*M + j` is element `i` of the first range followed by tuple `j` of the remaining ranges. |
| Product.ExpandAt | scikest/main.py:127-141 | One level of the product: position `i*|tails| + j` holds `r[i]` in front of `tails[j]`. |
| Product.ExpandMember | scikest/main.py:127-141 | One level of the product holds exactly the tuples whose head is in the range and whose tail is a tail. |
| Product.ExpandLength | scikest/main.py:127-141 | One level of the product has `|r| * |tails|` tuples. |
| Space.Ranges | scikest/main.py:127-141 | The product is taken over exactly 14 ranges. |
| Space.Universe | scikest/main.py:127-141 | Renders the stream of configurations the loop visits: the product of the 14 ranges. |
| Space.UniverseMember | scikest/main.py:127-141 | A configuration is visited exactly when each of its 14 entries comes from the corresponding range, in source order. |
| Space.UniverseShaped | scikest/main.py:143-144 | Every visited configuration has 14 entries, and its row and feature counts (`permutation[0]`, `permutation[1]`) are ints. |
| Space.UniverseSize | scikest/main.py:127-141 | The number of visited configurations is the product of the 14 range lengths. |
| Space.DefaultUniverseSize | scikest/main.py:23-39 | The default ranges (or any ranges of the same lengths) give 944784 configurations. |
| Space.DefaultEstimator | scikest/main.py:47-55 | Renders `RFest()` with every default: drop rate 0.9, the default ranges, algorithm `'LR'` and dummy variables `['max_features']`; the name lists and processor count are given. |
| Space.DefaultEstimatorUniverseSize | scikest/main.py:47-55 | `RFest()` with every default enumerates (visits) 944784 configurations, whatever name lists and processor count it has. Only the feasible ones whose draw exceeds `drop_rate` are fitted (`Generation.RecordedIndicesSpec`). |
| Generation.FitParametersAt | scikest/main.py:147 | With distinct names, parameter name `i` is bound to `permutation[i+2]`, and the dictionary binds only the first `min(|names|, 12)` names. |
| Generation.RecordedIndices | scikest/main.py:149-156 | The recorded positions among the first `k` configurations are at most `k` in number, and each is below `k`. |
| Generation.RecordedIndicesSpec | scikest/main.py:149-156 | A configuration is recorded exactly when its draw exceeds `drop_rate` and it is feasible. Recorded positions are strictly increasing, so records keep enumeration order. |
| Generation.EverythingRecorded | scikest/main.py:149-156 | When every configuration passes both tests, every position is recorded, in order. |
| Generation.GenerateData | scikest/main.py:123-156 | `inputs` and `outputs` have equal length. Record `j` is the configuration at the `j`-th recorded position of the product. Each record is a feasible member of the product, and its output is the measured time of its own fit. |
| Generation.Recorded | scikest/main.py:150-152 | Renders the two nested tests of the loop: the draw exceeds `drop_rate`, and `max_features` (`permutation[7]`) is feasible for `permutation[1]` features. |
| Generation.FitParameters | scikest/main.py:147 | Renders `dict(zip(rf_parameters_list, permutation[2:]))`. |
| Generation.Duration | scikest/main.py:153 | Renders `_measure_time(n, p, rf_parameters_dic)` for a configuration: the injected measurement applied to `permutation[0]`, `permutation[1]` and the fit dictionary. |
| Generation.InputTable | scikest/main.py:162 | Building the inputs frame succeeds exactly when there are no rows or the names give 14 columns. Its columns are `num_rows`, `num_features` and the names. Otherwise it is the DataFrame constructor's ValueError. |
| Generation.TableColumnsMatchFit | scikest/main.py:147-162 | With twelve distinct names, the inputs frame is built, its column `i+2` is labelled `names[i]`, and in every row it holds the value the timed fit received for `names[i]`. |
| Generation.ScenarioRecordsAll | scikest/main.py:127-156 | Two row counts, two feature counts and one boolean range, with `max_features` fixed to `'auto'` (every other range a single value), drop rate 0 and positive draws, give 8 configurations, and all 8 are recorded in order. |
| Encoding.Translate | scikest/main.py:249-260 | Renders the branches for one parameter: `n_jobs` is tested first (`-1` becomes the processor count), then a name in `dummy_variables` becomes `str(value)`, else the value passes. |
| Encoding.NumJobsTranslated | scikest/main.py:249-253 | `n_jobs == -1` (int or float) becomes the processor count. Any other `n_jobs` value passes unchanged. |
| Encoding.DummiesStringified | scikest/main.py:255-260 | For a parameter other than `n_jobs` (which is tested first): a name in `dummy_variables` becomes `str(value)`, and any other name passes unchanged. |
| Encoding.Features | scikest/main.py:240-260 | Renders the list the loop builds when every name is answered: `n`, `p`, then each raw parameter translated, in `raw_estimation_inputs` order. |
| Encoding.CollectInputs | scikest/main.py:240-260 | The list succeeds exactly when `get_params()` answers every raw name. It then has length `2 + |raw|`, starts with `n`, `p`, and holds the translated parameter `k` at `k+2`. Otherwise it is the KeyError of the first missing name. |
| Encoding.FrameColumns | scikest/main.py:262-263 | Renders the frame's column list `['num_rows'] + ['num_features'] + raw_estimation_inputs`. |
| Encoding.RawFrame | scikest/main.py:262-263 | The one-row frame has one column per name, in the order given. |
| Encoding.RawFrameValues | scikest/main.py:262-263 | With distinct names, column `k` of the frame holds entry `k` of the input list. |
| Encoding.Kept | scikest/main.py:264 | Renders the columns `get_dummies` leaves as they are: the non-object columns, in frame order. |
| Encoding.Indicators | scikest/main.py:264 | Renders the indicator columns: a string value `s` in column `d` gives column `d_s` = 1, and None gives none. |
| Encoding.GetDummies | scikest/main.py:264 | Renders `pd.get_dummies(df)`: the kept columns, then the indicator columns. |
| Encoding.Lookup | scikest/main.py:265-269 | Renders looking a column up by name in the frame: the first column of that name, or none. |
| Encoding.KeptMember | scikest/main.py:264 | `get_dummies` keeps exactly the non-object columns unchanged. |
| Encoding.IndicatorsMember | scikest/main.py:264 | The indicator columns are exactly those produced from string-valued columns. |
| Encoding.GetDummiesMember | scikest/main.py:264 | A column is in the encoded frame exactly when it is the encoding of some frame column: itself if numeric, `name_value` = 1 if a string, nothing if None. |
| Encoding.GetDummiesNumeric | scikest/main.py:264 | Every column after `get_dummies` is numeric. |
| Encoding.LookupSpec | scikest/main.py:269 | A name is found exactly when some column carries it, and the found value belongs to a column of that name. |
| Encoding.LookupAppend | scikest/main.py:265-267 | A column added after existing columns is found only when no existing column has its name. |
| Encoding.Reconciled | scikest/main.py:265-269 | The reconciled row has exactly the schema's width, whatever the encoded frame held. |
| Encoding.Reconcile | scikest/main.py:265-269 | Adding a 0 column for every missing schema column and then projecting gives the reconciled row of the schema. |
| Encoding.ReconciledAbsent | scikest/main.py:265-267 | A schema column the encoded frame lacks is 0. |
| Encoding.ReconciledPresent | scikest/main.py:269 | A schema column the encoded frame has takes the value of a frame column of that name. |
| Encoding.ReconciledIsNumeric | scikest/main.py:264-269 | Every entry of the reconciled row is numeric. |
| Encoding.DummyOneHot | scikest/main.py:264-269 | For a dummy field with string value `s`, a schema column `d_t` that no other field produces is 1 when `t == s` and 0 otherwise. An unseen category therefore reads 0. |
| Encoding.NumericPassesThrough | scikest/main.py:264-269 | A numeric field's schema column holds its value when no other field produces that name. |
| Encoding.KeptIgnoresCategory | scikest/main.py:264 | Changing which category a field has leaves the kept columns unchanged. |
| Encoding.IndicatorsLookupElsewhere | scikest/main.py:264 | Changing which category a field has changes no indicator column other than the two categories' own. |
| Encoding.SchemaStable | scikest/main.py:264-269 | Two one-row frames that differ only in one string field's value give reconciled rows of the schema's width. These agree on every column except that field's two indicator columns. |
| Prediction.Linear | scikest/main.py:271-273 | Renders `pred` after `k` steps of the loop: `coefs[0]`, then `row[i] * coefs[i+1]` added left to right. |
| Prediction.LinearIsInterceptPlusDot | scikest/main.py:270-273 | The left-to-right accumulation over the first `k` features is `coefs[0]` plus the dot product of those features with `coefs[1..k]`. |
| Prediction.LinearIgnoresExtraCoefs | scikest/main.py:270-273 | Coefficients beyond `k` are never read. |
| Prediction.LinearOfZeroRow | scikest/main.py:270-273 | An all-zero row predicts the intercept. |
| Prediction.LinearSensitivity | scikest/main.py:270-273 | Changing feature `i` by `delta` moves the prediction by `delta * coefs[i+1]`. |
| Prediction.LinearUnchangedBelow | scikest/main.py:270-273 | The steps before feature `i` do not see a change to it. |
| Prediction.DotSnoc | scikest/main.py:270-273 | Appending a feature and a weight adds their product to the dot product. |
| Prediction.PredictLinear | scikest/main.py:270-273 | The loop succeeds exactly when there are more coefficients than row entries, and it returns the intercept plus the dot product. Otherwise it is the IndexError at index `|coefs|`. |
| Prediction.LinearPrediction | scikest/main.py:270-273 | Renders the LR branch on a reconciled row: the intercept plus the dot product when there are more coefficients than entries, otherwise the IndexError at `|coefs|`. |
| Prediction.LinearPredictionDefined | scikest/main.py:270-273 | Whatever the row holds, the LR estimate is defined exactly when `|coefs| >= width + 1`, and it is then the left-to-right accumulation. |
| Prediction.FeatureRow | scikest/main.py:240-269 | The feature vector has the schema's width and is all numeric. |
| Prediction.EstimateDuration | scikest/main.py:240-279 | When `get_params()` lacks a raw name, the result is the KeyError of the first missing raw name. With algorithm `'LR'` the result is the linear prediction on the reconciled row. Otherwise it is the forest's prediction on that row. |
| Prediction.SentinelMeansAllProcessors | scikest/main.py:249-253 | Passing `n_jobs = -1` gives the same feature vector as passing the processor count explicitly. |
| Prediction.CategoryFeaturesDiffer | scikest/main.py:247-260 | With distinct raw names, changing one dummy parameter other than `n_jobs` changes only entry `m+2` of the input list, from `str()` of the old value to `str()` of the new one. |
| Prediction.RawFramesDiffer | scikest/main.py:262-263 | With distinct names, input lists that differ in one string entry give frames that differ in that column only. |
| Prediction.CategoryFramesDiffer | scikest/main.py:247-263 | With distinct frame column names, changing one dummy parameter other than `n_jobs` changes only that parameter's column of the one-row frame. |
| Prediction.CategoryStable | scikest/main.py:247-269 | With distinct frame column names, changing the value of one dummy parameter other than `n_jobs` changes the feature vector at most in the indicator columns of the old and the new category. |
| Prediction.FrameHoldsFeatures | scikest/main.py:240-263 | With distinct column names, the one-row frame holds `n`, `p`, then each translated parameter under its own name. |

## Left out

- `_measure_time` (scikest/main.py:94-112): it generates random data, fits sklearn and reads the wall clock. The duration is the injected `measure` function.
- `np.random.uniform` (scikest/main.py:149): the draws are the given sequence `draws`. So the expected retained fraction `1 - drop_rate`, a statistical property, is not stated.
- `add_data_to_csv` (scikest/main.py:160): CSV I/O in the `utils` module, which is not part of this model.
- Reading `inputs/raw_inputs.txt` and `inputs/inputs.txt` (scikest/main.py:21-22): file I/O. Both lists are fields of `Estimator`.
- `os.cpu_count()` (scikest/main.py:74): injected as `numCpu`. Its `None` result is not modelled.
- `_model_fit` (scikest/main.py:167-219): sklearn fitting, the train/test split and the error metrics, all float numerics in library code.
- Loading and saving `coefs/lr_coefs.json` and the `.pkl` estimator (scikest/main.py:201-205, 230-238): persistence. `coefs` and `forest` are parameters. A missing file, or a coefficient file that is not a list of numbers, is not modelled.
- The RF branch (scikest/main.py:275-279) is the opaque `forest`. `_get_numeric_data` drops no column, because every reconciled entry is numeric (`Encoding.ReconciledIsNumeric`). `dropna` drops no row, because the model has no NaN.
- Logging in `_generate_data` and `estimate_duration` (scikest/main.py:121-122, 157-158, 231-232, 236-237): messages only, and none of them can raise.
- Prediction.EstimateDuration: models `estimate_duration` with `verbose=False`. The default is `verbose=True` (scikest/main.py:55). With algorithm `'LR'`, `pred` is then a scalar, so `str(pred[0])` at scikest/main.py:281 raises, and the verbose LR path never returns an estimate. The flag is not a field of `Space.Estimator`.
- Prediction.EstimateDuration: takes `X` as its shape `(n, p)`. A one-dimensional `X` raises IndexError at `X.shape[1]` (scikest/main.py:243); that is not modelled.
- Prediction.PredictLinear: values are exact reals, not Python floats, and the rounding at each `pred +=` step is not modelled. The same holds for `drop_rate`, the draws, the coefficients and the float cells. `Prediction.Linear` keeps the source's left-to-right order. The `Dot` form in the contracts of `PredictLinear`, `LinearPrediction` and `EstimateDuration` groups the sum differently, and equals the accumulation only over reals.
- Prediction.EstimateDuration: returns one real for both branches. The source returns a float for LR and a one-element array for RF.
- Values.RealToString: writes the exact decimal expansion, cut at 16 fractional digits. Python's shortest round-trip digits, binary rounding and exponent notation (`1e-05`, `1e+16`) are not modelled. For the short decimal literals of the ranges the two agree.
- Encoding.Lookup: with two frame columns of the same name, pandas returns both on projection. The model takes the first one. With distinct names the two agree.
- Generation.GenerateData: `itertools.product` is a lazy generator. The model takes the whole product as a sequence.
- The sklearn keyword arguments in the benchmark fit are passed through unchecked. A combination sklearn rejects is not modelled; the source does not catch that error either.
- example.py calls a `RuntimeEstimator` API that is not part of this model. It has no logic of its own.
